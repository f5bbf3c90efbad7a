/**
 * What a delta does to the snapshot and to a board, field by field: items are laid over what was
 * there, a restart clears the old run, stops and acks are counted.
 */
module SnapshotFields {
  import opened Budget
  import opened Snapshot

  const FINISHED := "FINISHED"
  const STOPPED := "STOPPED"
  const ERRORED := "ERRORED"
  const RUNNING := "RUNNING"

  /** The record holds every field of the item as the item has it, and every other field as it was before. */
  ghost predicate LaidOver(before: Option<Rec>, item: Rec, after: Rec) {
    forall f ::
      && (f in after <==> f in item || (before.Some? && f in before.value))
      && (f in item ==> after[f] == item[f])
      && (f !in item && before.Some? && f in before.value ==> after[f] == before.value[f])
  }

  function At(m: map<Val, Rec>, id: Val): Option<Rec> {
    if id in m then Some(m[id]) else None
  }

  /** One key has the item laid over it, and no other key changes. */
  ghost predicate OneChanged(m: map<Val, Rec>, id: Val, item: Rec, m': map<Val, Rec>) {
    && m'.Keys == m.Keys + {id}
    && LaidOver(At(m, id), item, m'[id])
    && forall k <- m :: k != id ==> m'[k] == m[k]
  }

  lemma OneItem(m: map<Val, Rec>, item: Rec, idKey: string)
    ensures MergeItems(m, [], idKey) == m && MergeShown(m, [], idKey) == m
    ensures var id, m' := Get(item, idKey), MergeItems(m, [item], idKey);
            if id.Str? then OneChanged(m, id, item, m') else m' == m
    ensures var id, m' := Get(item, idKey), MergeShown(m, [item], idKey);
            if id.Truthy? || (id.Str? && id.s != "") then OneChanged(m, id, item, m') else m' == m
  {
    assert [item][..0] == [];
    assert MergeItems(m, [], idKey) == m && MergeShown(m, [], idKey) == m;
  }

  // ----- The gateway -----

  /** An agent item with a string id is laid over the record of that id; nothing else changes. */
  lemma GatewayAgentItem(g: Gateway, item: Rec, id: string)
    requires "agentId" in item && item["agentId"] == Str(id)
    ensures var g' := ApplyToSnapshot(g, NOTHING.(agents := [item]));
            OneChanged(g.agents, Str(id), item, g'.agents) && g' == g.(agents := g'.agents)
  {
    OneItem(g.agents, item, "agentId");
    OneItem(g.tasks, item, "taskId");
    hide MergeItems, OneChanged;
  }

  lemma GatewayTaskItem(g: Gateway, item: Rec, id: string)
    requires "taskId" in item && item["taskId"] == Str(id)
    ensures var g' := ApplyToSnapshot(g, NOTHING.(tasks := [item]));
            OneChanged(g.tasks, Str(id), item, g'.tasks) && g' == g.(tasks := g'.tasks)
  {
    OneItem(g.agents, item, "agentId");
    OneItem(g.tasks, item, "taskId");
    hide MergeItems, OneChanged;
  }

  /** Items without a string id are skipped. */
  lemma GatewaySkips(g: Gateway, item: Rec)
    ensures !("agentId" in item && item["agentId"].Str?) ==> ApplyToSnapshot(g, NOTHING.(agents := [item])) == g
    ensures !("taskId" in item && item["taskId"].Str?) ==> ApplyToSnapshot(g, NOTHING.(tasks := [item])) == g
  {
    OneItem(g.agents, item, "agentId");
    OneItem(g.tasks, item, "taskId");
    hide MergeItems, OneChanged;
  }

  lemma {:induction false} MergeAppend(m: map<Val, Rec>, a: seq<Rec>, b: seq<Rec>, idKey: string)
    ensures MergeItems(m, a + b, idKey) == MergeItems(MergeItems(m, a, idKey), b, idKey)
    ensures MergeShown(m, a + b, idKey) == MergeShown(MergeShown(m, a, idKey), b, idKey)
    decreases |b|
  {
    if b == [] {
      assert a + b == a;
    } else {
      var n := |b| - 1;
      MergeAppend(m, a, b[..n], idKey);
      assert (a + b)[..|a| + n] == a + b[..n] && (a + b)[|a| + n] == b[n];
    }
  }

  /** A list is its items one after the other. */
  lemma GatewayListsInTurn(g: Gateway, a: seq<Rec>, b: seq<Rec>)
    ensures ApplyToSnapshot(g, NOTHING.(agents := a + b)) ==
            ApplyToSnapshot(ApplyToSnapshot(g, NOTHING.(agents := a)), NOTHING.(agents := b))
    ensures ApplyToSnapshot(g, NOTHING.(tasks := a + b)) ==
            ApplyToSnapshot(ApplyToSnapshot(g, NOTHING.(tasks := a)), NOTHING.(tasks := b))
  {
    MergeAppend(g.agents, a, b, "agentId");
    MergeAppend(g.tasks, a, b, "taskId");
    assert MergeItems(g.tasks, [], "taskId") == g.tasks && MergeItems(g.agents, [], "agentId") == g.agents;
  }

  /** Metadata and inputs are laid over what was there. */
  lemma GatewayRecords(g: Gateway, r: Rec)
    ensures var g' := ApplyToSnapshot(g, NOTHING.(metadata := Some(r)));
            g'.metadata.Some? && LaidOver(g.metadata, r, g'.metadata.value) && g' == g.(metadata := g'.metadata)
    ensures var g' := ApplyToSnapshot(g, NOTHING.(inputs := Some(r)));
            g'.inputs.Some? && LaidOver(g.inputs, r, g'.inputs.value) && g' == g.(inputs := g'.inputs)
  {
  }

  predicate Over(status: Option<string>) {
    status == Some(FINISHED) || status == Some(STOPPED) || status == Some(ERRORED)
  }

  /**
   * RUNNING after FINISHED, STOPPED or ERRORED drops the tasks, the metadata and the inputs; any other
   * status is just noted.
   */
  lemma GatewayStatus(g: Gateway, status: string)
    ensures ApplyToSnapshot(g, NOTHING.(status := Some(status))) ==
            if status == RUNNING && Over(g.status)
            then Gateway(Some(RUNNING), g.agents, map[], None, None, g.plane)
            else g.(status := Some(status))
  {
  }

  /** A stop later than the last one replaces it, its acks counted from zero; node acks of the last stop are counted. */
  lemma GatewayControl(g: Gateway, a: Ack)
    ensures var g' := ApplyToSnapshot(g, NOTHING.(control := Some(a)));
            && g' == g.(plane := g'.plane) && (g'.plane.None? <==> g.plane.None?)
            && (g.plane.Some? ==>
                  var p := g.plane.value;
                  if p.lastStop.None? || p.lastStop.value.issuedAt < a.stop.issuedAt then
                    g'.plane == Some(Plane(Some(a.stop), if a.issued then 0 else 1))
                  else if a.stop.commandId == p.lastStop.value.commandId && !a.issued then
                    g'.plane == Some(Plane(p.lastStop, p.acks + 1))
                  else g'.plane == g.plane)
  {
  }

  /** A gateway that watches the control channel notes stops from the first one on. */
  lemma GatewayNotesFirstStop(s: LastStop)
    ensures Accumulate(NewGateway(true), [Stop(s)]).plane == Some(Plane(Some(s), 0))
    ensures Accumulate(NewGateway(false), [Stop(s)]).plane == None
    ensures NewGateway(true).plane == Some(Plane(None, 0))
  {
    assert [Stop(s)][..0] == [];
  }

  /** Connected boards are told of a stop exactly when it is newer than the last one. */
  lemma StopForwarded(g: Gateway, s: LastStop)
    requires g.plane.Some?
    ensures Forwarded(g, Stop(s)) ==
            var last := g.plane.value.lastStop;
            if last.None? || last.value.issuedAt < s.issuedAt
            then Delta(None, [], [], None, None, None, Some(Plane(Some(s), 0)))
            else Delta(None, [], [], None, None, None, None)
  {
  }

  /** A delta with several parts is those parts one after the other: a restart clears before the new items arrive. */
  lemma GatewayPartByPart(g: Gateway, d: Delta)
    ensures ApplyToSnapshot(g, d) ==
            var g1 := ApplyToSnapshot(g, NOTHING.(status := d.status));
            var g2 := ApplyToSnapshot(g1, NOTHING.(control := d.control));
            var g3 := ApplyToSnapshot(g2, NOTHING.(agents := d.agents));
            var g4 := ApplyToSnapshot(g3, NOTHING.(tasks := d.tasks));
            var g5 := ApplyToSnapshot(g4, NOTHING.(metadata := d.metadata));
            ApplyToSnapshot(g5, NOTHING.(inputs := d.inputs))
  {
    hide ApplyControl, Merged, Restarts;
  }

  // ----- The board -----

  /** An item with a truthy id is laid over the record of that id; nothing else changes. */
  lemma BoardAgentItem(b: Board, item: Rec)
    requires "agentId" in item && (item["agentId"].Truthy? || (item["agentId"].Str? && item["agentId"].s != ""))
    ensures var b' := ApplyDelta(b, NOTHING.(agents := [item]));
            OneChanged(b.agents, item["agentId"], item, b'.agents) && b' == b.(agents := b'.agents)
  {
    OneItem(b.agents, item, "agentId");
    OneItem(b.tasks, item, "taskId");
    hide MergeShown, OneChanged;
  }

  lemma BoardTaskItem(b: Board, item: Rec)
    requires "taskId" in item && (item["taskId"].Truthy? || (item["taskId"].Str? && item["taskId"].s != ""))
    ensures var b' := ApplyDelta(b, NOTHING.(tasks := [item]));
            OneChanged(b.tasks, item["taskId"], item, b'.tasks) && b' == b.(tasks := b'.tasks)
  {
    OneItem(b.agents, item, "agentId");
    OneItem(b.tasks, item, "taskId");
    hide MergeShown, OneChanged;
  }

  lemma BoardListsInTurn(b: Board, x: seq<Rec>, y: seq<Rec>)
    ensures ApplyDelta(b, NOTHING.(agents := x + y)) ==
            ApplyDelta(ApplyDelta(b, NOTHING.(agents := x)), NOTHING.(agents := y))
    ensures ApplyDelta(b, NOTHING.(tasks := x + y)) ==
            ApplyDelta(ApplyDelta(b, NOTHING.(tasks := x)), NOTHING.(tasks := y))
  {
    MergeAppend(b.agents, x, y, "agentId");
    MergeAppend(b.tasks, x, y, "taskId");
    assert MergeShown(b.tasks, [], "taskId") == b.tasks && MergeShown(b.agents, [], "agentId") == b.agents;
  }

  /** Metadata is laid over what was shown; a topic is shown as its text, and an empty one is not shown at all. */
  lemma BoardRecords(b: Board, r: Rec)
    ensures var b' := ApplyDelta(b, NOTHING.(metadata := Some(r)));
            b'.metadata.Some? && LaidOver(b.metadata, r, b'.metadata.value) && b' == b.(metadata := b'.metadata)
    ensures var b' := ApplyDelta(b, NOTHING.(inputs := Some(r)));
            b' == b.(topic := if "topic" !in r then b.topic
                              else match r["topic"]
                                   case Str(s) => if s == "" then b.topic else s
                                   case Truthy(shows) => shows
                                   case Falsy => b.topic)
  {
  }

  /**
   * RUNNING after FINISHED, STOPPED or ERRORED clears the tasks, the metadata and the topic; an empty
   * status is ignored.
   */
  lemma BoardStatus(b: Board, status: string)
    ensures ApplyDelta(b, NOTHING.(status := Some(status))) ==
            if status == "" then b
            else if status == RUNNING && Over(Some(b.status))
            then Board(b.agents, map[], RUNNING, None, "", b.plane)
            else b.(status := status)
  {
  }

  lemma BoardControl(b: Board, a: Ack, p: Plane)
    ensures ApplyDelta(b, NOTHING.(controlPlane := Some(p))) == b.(plane := Some(p))
    ensures var b' := ApplyDelta(b, NOTHING.(control := Some(a)));
            && b' == b.(plane := b'.plane) && (b'.plane.None? <==> b.plane.None?)
            && (b.plane.Some? ==>
                  var p := b.plane.value;
                  if p.lastStop.None? || p.lastStop.value.issuedAt < a.stop.issuedAt then
                    b'.plane == Some(Plane(Some(if a.stop.reason == Some("") then a.stop.(reason := None) else a.stop),
                                           if a.issued then 0 else 1))
                  else if a.stop.commandId == p.lastStop.value.commandId && !a.issued then
                    b'.plane == Some(Plane(p.lastStop, p.acks + 1))
                  else b'.plane == b.plane)
  {
  }

  lemma BoardPartByPart(b: Board, d: Delta)
    ensures ApplyDelta(b, d) ==
            var b1 := ApplyDelta(b, NOTHING.(status := d.status));
            var b2 := ApplyDelta(b1, NOTHING.(inputs := d.inputs));
            var b3 := ApplyDelta(b2, NOTHING.(agents := d.agents));
            var b4 := ApplyDelta(b3, NOTHING.(tasks := d.tasks));
            var b5 := ApplyDelta(b4, NOTHING.(metadata := d.metadata));
            var b6 := ApplyDelta(b5, NOTHING.(controlPlane := d.controlPlane));
            ApplyDelta(b6, NOTHING.(control := d.control))
  {
    hide ApplyControlAck, Merged, Restarts, IsTruthy, Shows;
  }
}
