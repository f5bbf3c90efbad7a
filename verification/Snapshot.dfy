/**
 * What a board shows: the gateway accumulates every delta into a snapshot (SocketGateway.ts), a
 * board folds the deltas it receives (boardStore.ts), and a board that connects late gets the
 * snapshot first.
 */
module Snapshot {
  import opened Budget

  /** A field value: a string, or anything else by how it converts (`Falsy` covers null, 0, false). */
  datatype Val = Str(s: string) | Falsy | Truthy(shows: string)

  type Rec = map<string, Val>

  predicate IsTruthy(v: Val) {
    v.Truthy? || (v.Str? && v.s != "")
  }

  function Shows(v: Val): string {
    match v
    case Str(s) => s
    case Truthy(shows) => shows
    case Falsy => ""
  }

  function Get(r: Rec, k: string): Val {
    if k in r then r[k] else Falsy
  }

  datatype LastStop = LastStop(commandId: string, issuedAt: int, issuedBy: string, reason: Option<string>)

  datatype Plane = Plane(lastStop: Option<LastStop>, acks: nat)

  /** A `control` delta; `issued` tells the issuer's own message from a node's ack. */
  datatype Ack = Ack(stop: LastStop, issued: bool)

  datatype Delta = Delta(
    status: Option<string>, agents: seq<Rec>, tasks: seq<Rec>, metadata: Option<Rec>, inputs: Option<Rec>,
    control: Option<Ack>, controlPlane: Option<Plane>)

  predicate Terminal(status: string) {
    status == "FINISHED" || status == "STOPPED" || status == "ERRORED"
  }

  function Merged(before: Option<Rec>, r: Rec): Rec {
    if before.Some? then before.value + r else r
  }

  function Entry(m: map<Val, Rec>, id: Val): Rec {
    if id in m then m[id] else map[]
  }

  // ----- The gateway -----

  datatype Gateway = Gateway(
    status: Option<string>, agents: map<Val, Rec>, tasks: map<Val, Rec>, metadata: Option<Rec>, inputs: Option<Rec>,
    plane: Option<Plane>)

  function NewGateway(control: bool): Gateway {
    Gateway(None, map[], map[], None, None, if control then Some(Plane(None, 0)) else None)
  }

  /** applyMapDelta: items are keyed by a string id, the empty one included. */
  function MergeItems(m: map<Val, Rec>, items: seq<Rec>, idKey: string): map<Val, Rec> {
    if items == [] then m
    else
      var before := MergeItems(m, items[..|items| - 1], idKey);
      var item := items[|items| - 1];
      var id := Get(item, idKey);
      if id.Str? then before[id := Entry(before, id) + item] else before
  }

  predicate Restarts(prev: string, status: string) {
    status == "RUNNING" && Terminal(prev)
  }

  /** applyStatusUpdate: a run that restarts from a terminal state drops the old run's tasks, metadata and inputs. */
  function ApplyStatus(g: Gateway, status: Option<string>): Gateway {
    if status.None? then g
    else if g.status.Some? && Restarts(g.status.value, status.value) then
      g.(tasks := map[], metadata := None, inputs := None, status := status)
    else g.(status := status)
  }

  /** A newer stop replaces the last one; node acks for it are counted. */
  function ApplyControl(p: Plane, a: Ack): Plane {
    var q := if p.lastStop.None? || a.stop.issuedAt > p.lastStop.value.issuedAt then Plane(Some(a.stop), 0) else p;
    if a.stop.commandId == q.lastStop.value.commandId && !a.issued then q.(acks := q.acks + 1) else q
  }

  function MergeInto(before: Option<Rec>, r: Option<Rec>): Option<Rec> {
    if r.None? then before else Some(Merged(before, r.value))
  }

  function ApplyToSnapshot(g: Gateway, d: Delta): Gateway {
    var g1 := ApplyStatus(g, d.status);
    g1.(plane := if g1.plane.Some? && d.control.Some? then Some(ApplyControl(g1.plane.value, d.control.value))
                 else g1.plane,
        agents := MergeItems(g1.agents, d.agents, "agentId"),
        tasks := MergeItems(g1.tasks, d.tasks, "taskId"),
        metadata := MergeInto(g1.metadata, d.metadata),
        inputs := MergeInto(g1.inputs, d.inputs))
  }

  /** noteStop changes the gateway only for a newer stop. */
  predicate Notes(g: Gateway, stop: LastStop) {
    g.plane.Some? && (g.plane.value.lastStop.None? || g.plane.value.lastStop.value.issuedAt < stop.issuedAt)
  }

  function NoteStop(g: Gateway, stop: LastStop): Gateway {
    if Notes(g, stop) then g.(plane := Some(Plane(Some(stop), 0))) else g
  }

  /** Every key once, in some order. */
  ghost predicate Enumerates(order: seq<Val>, m: map<Val, Rec>) {
    && (forall k :: k in order <==> k in m)
    && (forall i, j :: 0 <= i < j < |order| ==> order[i] != order[j])
  }

  function ValuesOf(m: map<Val, Rec>, order: seq<Val>): seq<Rec>
    requires forall k <- order :: k in m
  {
    seq(|order|, i requires 0 <= i < |order| => m[order[i]])
  }

  /** The snapshot as a delta; the maps are listed by value only. */
  ghost function BuildSnapshot(g: Gateway, agentOrder: seq<Val>, taskOrder: seq<Val>): Delta
    requires Enumerates(agentOrder, g.agents) && Enumerates(taskOrder, g.tasks)
  {
    Delta(g.status, ValuesOf(g.agents, agentOrder), ValuesOf(g.tasks, taskOrder), g.metadata, g.inputs, None, g.plane)
  }

  // ----- The board -----

  datatype Board = Board(
    agents: map<Val, Rec>, tasks: map<Val, Rec>, status: string, metadata: Option<Rec>, topic: string,
    plane: Option<Plane>)

  /** resetState, which every (re)connect runs before the snapshot arrives. */
  const RESET := Board(map[], map[], "INITIAL", None, "", None)

  /** Items are keyed by whatever id they carry, if it is truthy. */
  function MergeShown(m: map<Val, Rec>, items: seq<Rec>, idKey: string): map<Val, Rec> {
    if items == [] then m
    else
      var before := MergeShown(m, items[..|items| - 1], idKey);
      var item := items[|items| - 1];
      var id := Get(item, idKey);
      if IsTruthy(id) then before[id := Entry(before, id) + item] else before
  }

  /** applyControlAck: as the gateway does, but an empty reason is dropped. */
  function ApplyControlAck(p: Plane, a: Ack): Plane {
    var reason := if a.stop.reason == Some("") then None else a.stop.reason;
    var q := if p.lastStop.None? || a.stop.issuedAt > p.lastStop.value.issuedAt
             then Plane(Some(a.stop.(reason := reason)), 0) else p;
    if !a.issued && q.lastStop.Some? && a.stop.commandId == q.lastStop.value.commandId then q.(acks := q.acks + 1)
    else q
  }

  function ShowStatus(b: Board, status: Option<string>): Board {
    if status.None? || status.value == "" then b
    else if Restarts(b.status, status.value) then
      b.(tasks := map[], metadata := None, topic := "", status := status.value)
    else b.(status := status.value)
  }

  function ApplyDelta(b: Board, d: Delta): Board {
    var b1 := ShowStatus(b, d.status);
    var plane := if d.controlPlane.Some? then d.controlPlane else b1.plane;
    b1.(topic := if d.inputs.Some? && IsTruthy(Get(d.inputs.value, "topic")) then Shows(d.inputs.value["topic"])
                 else b1.topic,
        agents := MergeShown(b1.agents, d.agents, "agentId"),
        tasks := MergeShown(b1.tasks, d.tasks, "taskId"),
        metadata := MergeInto(b1.metadata, d.metadata),
        plane := if d.control.Some? && plane.Some? then Some(ApplyControlAck(plane.value, d.control.value)) else plane)
  }

  // ----- Runs -----

  /** What reaches the gateway: a delta from the state channel, or a stop seen on the control channel. */
  datatype Event = Channel(d: Delta) | Stop(s: LastStop)

  const NOTHING := Delta(None, [], [], None, None, None, None)

  function Receive(g: Gateway, e: Event): Gateway {
    match e
    case Channel(d) => ApplyToSnapshot(g, d)
    case Stop(s) => NoteStop(g, s)
  }

  /** What the gateway sends to its connected boards for the event. */
  function Forwarded(g: Gateway, e: Event): Delta {
    match e
    case Channel(d) => d
    case Stop(s) => if Notes(g, s) then NOTHING.(controlPlane := NoteStop(g, s).plane) else NOTHING
  }

  function Accumulate(g: Gateway, es: seq<Event>): Gateway {
    if es == [] then g else Receive(Accumulate(g, es[..|es| - 1]), es[|es| - 1])
  }

  /** A board connected while the gateway goes from g through the events. */
  function Follow(b: Board, g: Gateway, es: seq<Event>): Board
    decreases |es|
  {
    if es == [] then b else Follow(ApplyDelta(b, Forwarded(g, es[0])), Receive(g, es[0]), es[1..])
  }

  /**
   * What the channel is trusted to send: no empty status, no falsy topic, string ids (an empty or a
   * missing one is skipped), no empty reason, and no `controlPlane` of its own.
   */
  predicate WellFormed(d: Delta) {
    && d.status != Some("")
    && (d.inputs.Some? && "topic" in d.inputs.value ==> IsTruthy(d.inputs.value["topic"]))
    && (forall i <- d.agents :: !Get(i, "agentId").Truthy?)
    && (forall i <- d.tasks :: !Get(i, "taskId").Truthy?)
    && (d.control.Some? ==> d.control.value.stop.reason != Some(""))
    && d.controlPlane.None?
  }

  predicate WellFormedEvent(e: Event) {
    e.Channel? ==> WellFormed(e.d)
  }

  // ----- The snapshot shows what a connected board shows -----

  /** What a board must show of a gateway state. */
  function View(g: Gateway): Board {
    Board(g.agents - {Str("")}, g.tasks - {Str("")},
          if g.status.None? || g.status.value == "" then "INITIAL" else g.status.value,
          g.metadata,
          if g.inputs.Some? && IsTruthy(Get(g.inputs.value, "topic")) then Shows(g.inputs.value["topic"]) else "",
          g.plane)
  }

  /** Each map value carries its own key as its id, and the topic, once there, can be shown. */
  predicate SelfKeyed(m: map<Val, Rec>, idKey: string) {
    forall k <- m :: k.Str? && idKey in m[k] && m[k][idKey] == k
  }

  predicate Inv(g: Gateway) {
    && SelfKeyed(g.agents, "agentId") && SelfKeyed(g.tasks, "taskId")
    && g.status != Some("")
    && (g.inputs.Some? && "topic" in g.inputs.value ==> IsTruthy(g.inputs.value["topic"]))
  }

  lemma {:induction false} MergeKeepsKeys(m: map<Val, Rec>, items: seq<Rec>, idKey: string)
    requires SelfKeyed(m, idKey)
    ensures SelfKeyed(MergeItems(m, items, idKey), idKey)
  {
    if items != [] {
      MergeKeepsKeys(m, items[..|items| - 1], idKey);
    }
  }

  /** Board and gateway merge alike, apart from the empty id. */
  lemma {:induction false} MergesAgree(m: map<Val, Rec>, items: seq<Rec>, idKey: string)
    requires forall i <- items :: !Get(i, idKey).Truthy?
    ensures MergeShown(m - {Str("")}, items, idKey) == MergeItems(m, items, idKey) - {Str("")}
  {
    if items != [] {
      MergesAgree(m, items[..|items| - 1], idKey);
      assert items[|items| - 1] in items;
    }
  }

  /** Listing the values in any order and merging them rebuilds the map: the ids inside are the keys. */
  lemma {:induction false} MergeRebuilds(m: map<Val, Rec>, order: seq<Val>, idKey: string)
    requires SelfKeyed(m, idKey) && forall k <- order :: k in m
    requires forall i, j :: 0 <= i < j < |order| ==> order[i] != order[j]
    ensures MergeShown(map[], ValuesOf(m, order), idKey) == map k | k in m && k in order && k != Str("") :: m[k]
  {
    if order == [] {
      assert ValuesOf(m, order) == [];
    } else {
      var n := |order| - 1;
      var id, values := order[n], ValuesOf(m, order);
      MergeRebuilds(m, order[..n], idKey);
      assert values[..n] == ValuesOf(m, order[..n]) && values[n] == m[id] && Get(m[id], idKey) == id;
      var before := MergeShown(map[], values[..n], idKey);
      assert MergeShown(map[], values, idKey) ==
             if IsTruthy(id) then before[id := Entry(before, id) + m[id]] else before;
      hide MergeShown, ValuesOf, SelfKeyed;
      assert order == order[..n] + [id];
      OneMoreRebuilt(m, order[..n], id, before);
    }
  }

  lemma OneMoreRebuilt(m: map<Val, Rec>, order: seq<Val>, id: Val, before: map<Val, Rec>)
    requires id in m && id.Str? && id !in order
    requires before == map k | k in m && k in order && k != Str("") :: m[k]
    ensures (if IsTruthy(id) then before[id := Entry(before, id) + m[id]] else before) ==
            map k | k in m && k in order + [id] && k != Str("") :: m[k]
  {
    assert Entry(before, id) + m[id] == m[id];
  }

  lemma RebuildsAll(m: map<Val, Rec>, order: seq<Val>, idKey: string)
    requires SelfKeyed(m, idKey) && Enumerates(order, m)
    ensures MergeShown(map[], ValuesOf(m, order), idKey) == m - {Str("")}
  {
    MergeRebuilds(m, order, idKey);
    hide MergeShown, ValuesOf, SelfKeyed;
    var r := map k | k in m && k in order && k != Str("") :: m[k];
    assert r.Keys == m.Keys - {Str("")};
  }

  lemma SnapshotOnReset(b: Board, g: Gateway, agentOrder: seq<Val>, taskOrder: seq<Val>)
    requires b == RESET && Inv(g) && Enumerates(agentOrder, g.agents) && Enumerates(taskOrder, g.tasks)
    ensures ApplyDelta(b, BuildSnapshot(g, agentOrder, taskOrder)) == View(g)
  {
    RebuildsAll(g.agents, agentOrder, "agentId");
    RebuildsAll(g.tasks, taskOrder, "taskId");
    hide MergeShown, ValuesOf, SelfKeyed;
  }

  /** A board that resets and applies the snapshot, however its lists are ordered, shows the view. */
  lemma SnapshotShowsView(g: Gateway, agentOrder: seq<Val>, taskOrder: seq<Val>)
    requires Inv(g) && Enumerates(agentOrder, g.agents) && Enumerates(taskOrder, g.tasks)
    ensures ApplyDelta(RESET, BuildSnapshot(g, agentOrder, taskOrder)) == View(g)
  {
    hide ApplyDelta, BuildSnapshot, View, Inv, Enumerates;
    SnapshotOnReset(RESET, g, agentOrder, taskOrder);
  }

  /** A connected board keeps up: one event on the gateway is one delta on the board. */
  lemma BoardKeepsUp(g: Gateway, e: Event)
    requires Inv(g) && WellFormedEvent(e)
    ensures Inv(Receive(g, e)) && ApplyDelta(View(g), Forwarded(g, e)) == View(Receive(g, e))
  {
    match e
    case Stop(_) =>
    case Channel(d) => BoardKeepsUpWithDelta(g, d);
  }

  lemma StatusKeepsUp(g: Gateway, status: Option<string>)
    requires Inv(g) && status != Some("")
    ensures Inv(ApplyStatus(g, status)) && ShowStatus(View(g), status) == View(ApplyStatus(g, status))
  {
  }

  lemma BoardKeepsUpWithDelta(g: Gateway, d: Delta)
    requires Inv(g) && WellFormed(d)
    ensures Inv(ApplyToSnapshot(g, d)) && ApplyDelta(View(g), d) == View(ApplyToSnapshot(g, d))
  {
      StatusKeepsUp(g, d.status);
      var g1 := ApplyStatus(g, d.status);
      MergeKeepsKeys(g1.agents, d.agents, "agentId");
      MergeKeepsKeys(g1.tasks, d.tasks, "taskId");
      MergesAgree(g1.agents, d.agents, "agentId");
      MergesAgree(g1.tasks, d.tasks, "taskId");
      hide MergeItems, MergeShown, ApplyStatus, ShowStatus, SelfKeyed;
  }

  lemma {:induction false} FollowShowsView(g: Gateway, es: seq<Event>)
    requires Inv(g) && forall e <- es :: WellFormedEvent(e)
    ensures Inv(Accumulate(g, es)) && Follow(View(g), g, es) == View(Accumulate(g, es))
    decreases |es|
  {
    if es != [] {
      BoardKeepsUp(g, es[0]);
      FollowShowsView(Receive(g, es[0]), es[1..]);
      AccumulateFromFirst(g, es);
    }
  }

  lemma {:induction false} AccumulateFromFirst(g: Gateway, es: seq<Event>)
    requires es != []
    ensures Accumulate(g, es) == Accumulate(Receive(g, es[0]), es[1..])
    decreases |es|
  {
    if |es| > 1 {
      AccumulateFromFirst(g, es[..|es| - 1]);
      assert es[..|es| - 1][1..] == es[1..][..|es| - 2];
    } else {
      assert es[..0] == [] && es[1..] == [];
    }
  }

  lemma {:induction false} AccumulateSplit(g: Gateway, es: seq<Event>, k: nat)
    requires k <= |es|
    ensures Accumulate(Accumulate(g, es[..k]), es[k..]) == Accumulate(g, es)
    decreases |es|
  {
    if k == |es| {
      assert es[..k] == es && es[k..] == [];
    } else {
      AccumulateSplit(g, es[..|es| - 1], k);
      assert es[..|es| - 1][..k] == es[..k] && es[k..][..|es| - k - 1] == es[..|es| - 1][k..];
    }
  }

  lemma LateBoardFrom(g0: Gateway, es: seq<Event>, k: nat, agentOrder: seq<Val>, taskOrder: seq<Val>)
    requires Inv(g0) && k <= |es| && forall e <- es :: WellFormedEvent(e)
    requires var g := Accumulate(g0, es[..k]);
             Enumerates(agentOrder, g.agents) && Enumerates(taskOrder, g.tasks)
    ensures var g := Accumulate(g0, es[..k]);
            Follow(ApplyDelta(RESET, BuildSnapshot(g, agentOrder, taskOrder)), g, es[k..]) == Follow(View(g0), g0, es)
  {
    hide Receive, ApplyDelta, BuildSnapshot, View, Inv, WellFormed, WellFormedEvent, Accumulate, Follow, Enumerates;
    var g := Accumulate(g0, es[..k]);
    assert forall e <- es[..k] :: e in es;
    assert forall e <- es[k..] :: e in es;
    FollowShowsView(g0, es[..k]);
    FollowShowsView(g, es[k..]);
    FollowShowsView(g0, es);
    AccumulateSplit(g0, es, k);
    SnapshotShowsView(g, agentOrder, taskOrder);
  }

  lemma FirstSnapshot(control: bool)
    ensures Inv(NewGateway(control))
    ensures ApplyDelta(RESET, BuildSnapshot(NewGateway(control), [], [])) == View(NewGateway(control))
  {
    SnapshotShowsView(NewGateway(control), [], []);
  }

  /**
   * Snapshot refinement: for every sequence of well-formed events and every connection point k, a
   * board that resets, applies the snapshot after k events (its lists in any order) and then the
   * remaining deltas shows the same as a board connected from the start.
   */
  lemma LateBoardShowsTheSame(control: bool, es: seq<Event>, k: nat, agentOrder: seq<Val>, taskOrder: seq<Val>)
    requires k <= |es| && forall e <- es :: WellFormedEvent(e)
    requires var g := Accumulate(NewGateway(control), es[..k]);
             Enumerates(agentOrder, g.agents) && Enumerates(taskOrder, g.tasks)
    ensures var g0 := NewGateway(control);
            var g := Accumulate(g0, es[..k]);
            Follow(ApplyDelta(RESET, BuildSnapshot(g, agentOrder, taskOrder)), g, es[k..]) ==
            Follow(ApplyDelta(RESET, BuildSnapshot(g0, [], [])), g0, es)
  {
    hide Receive, ApplyDelta, BuildSnapshot, View, Inv, WellFormedEvent, Accumulate, Follow, Enumerates;
    FirstSnapshot(control);
    LateBoardFrom(NewGateway(control), es, k, agentOrder, taskOrder);
  }

  // ----- Each premise is needed, and exactly when it matters -----

  /** A connected board and one that takes the snapshot afterwards show the same after the delta. */
  predicate Agree(g: Gateway, d: Delta) {
    ApplyDelta(View(g), d) == View(ApplyToSnapshot(g, d))
  }

  /** An empty status is lost on a late board, unless the board showed none yet. */
  lemma EmptyStatusMatters(g: Gateway)
    requires Inv(g)
    ensures Agree(g, NOTHING.(status := Some(""))) <==> View(g).status == "INITIAL"
  {
  }

  /** An empty topic clears it on a late board only. */
  lemma EmptyTopicMatters(g: Gateway)
    requires Inv(g)
    ensures Agree(g, NOTHING.(inputs := Some(map["topic" := Str("")]))) <==> View(g).topic == ""
  {
    var r: Rec := map["topic" := Str("")];
    assert Get(Merged(g.inputs, r), "topic") == Str("");
  }

  /** An empty reason is kept by the gateway and dropped by the board, when the stop is a new one. */
  lemma EmptyReasonMatters(g: Gateway, a: Ack)
    requires Inv(g) && a.stop.reason == Some("")
    ensures Agree(g, NOTHING.(control := Some(a))) <==> !Notes(g, a.stop)
  {
  }

  /** A `controlPlane` from the channel reaches connected boards and not the snapshot. */
  lemma ForeignPlaneMatters(g: Gateway, p: Plane)
    requires Inv(g)
    ensures Agree(g, NOTHING.(controlPlane := Some(p))) <==> g.plane == Some(p)
  {
  }

  /** A truthy id that is not a string keys the board's map and not the gateway's. */
  lemma ForeignIdMatters(g: Gateway, item: Rec)
    requires Inv(g) && Get(item, "agentId").Truthy?
    ensures !Agree(g, NOTHING.(agents := [item]))
  {
    assert [item][..0] == [];
    assert item["agentId"] in MergeShown(View(g).agents, [item], "agentId");
    assert MergeItems(g.agents, [item], "agentId") == g.agents;
    assert item["agentId"] !in View(ApplyToSnapshot(g, NOTHING.(agents := [item]))).agents;
  }
}
