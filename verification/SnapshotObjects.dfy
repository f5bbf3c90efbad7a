/** The gateway's accumulated snapshot and the board's store as objects that change field by field. */
module SnapshotObjects {
  import opened Budget
  import S = Snapshot

  class SocketGateway {
    var status: Option<string>
    var agents: map<S.Val, S.Rec>
    var tasks: map<S.Val, S.Rec>
    var metadata: Option<S.Rec>
    var inputs: Option<S.Rec>
    var plane: Option<S.Plane>

    ghost function State(): S.Gateway
      reads this
    {
      S.Gateway.Gateway(status, agents, tasks, metadata, inputs, plane)
    }

    constructor (control: bool)
      ensures State() == S.NewGateway(control)
    {
      status, agents, tasks, metadata, inputs := None, map[], map[], None, None;
      plane := if control then Some(S.Plane.Plane(None, 0)) else None;
    }

    method ApplyStatusUpdate(newStatus: Option<string>)
      modifies this
      ensures State() == S.ApplyStatus(old(State()), newStatus)
    {
      if newStatus.None? {
        return;
      }
      if status.Some? && newStatus.value == "RUNNING" && S.Terminal(status.value) {
        tasks := map[];
        metadata := None;
        inputs := None;
      }
      status := newStatus;
    }

    /** The loop over one list of items. */
    static method ApplyMapDelta(items: seq<S.Rec>, idKey: string, before: map<S.Val, S.Rec>)
      returns (m: map<S.Val, S.Rec>)
      ensures m == S.MergeItems(before, items, idKey)
    {
      m := before;
      for i := 0 to |items|
        invariant m == S.MergeItems(before, items[..i], idKey)
      {
        assert items[..i + 1][..i] == items[..i];
        var id := S.Get(items[i], idKey);
        if id.Str? {
          m := m[id := S.Entry(m, id) + items[i]];
        }
      }
      assert items[..|items|] == items;
    }

    method ApplyControl(control: Option<S.Ack>)
      modifies this`plane
      ensures plane == if old(plane).Some? && control.Some?
                       then Some(S.ApplyControl(old(plane).value, control.value)) else old(plane)
    {
      if plane.None? || control.None? {
        return;
      }
      var stop := control.value.stop;
      if plane.value.lastStop.None? || stop.issuedAt > plane.value.lastStop.value.issuedAt {
        plane := Some(S.Plane.Plane(Some(stop), 0));
      }
      if stop.commandId == plane.value.lastStop.value.commandId && !control.value.issued {
        plane := Some(plane.value.(acks := plane.value.acks + 1));
      }
    }

    /** A board that showed the gateway's state shows the new one after the same well-formed delta. */
    method ApplyToSnapshot(d: S.Delta)
      modifies this
      ensures State() == S.ApplyToSnapshot(old(State()), d)
      ensures old(S.Inv(State())) && S.WellFormed(d) ==>
                S.Inv(State()) && S.ApplyDelta(S.View(old(State())), d) == S.View(State())
    {
      if S.Inv(State()) && S.WellFormed(d) { S.BoardKeepsUp(State(), S.Channel(d)); }
      hide S.ApplyDelta, S.View, S.Inv, S.WellFormed;
      ApplyStatusUpdate(d.status);
      ApplyControl(d.control);
      agents := ApplyMapDelta(d.agents, "agentId", agents);
      tasks := ApplyMapDelta(d.tasks, "taskId", tasks);
      if d.metadata.Some? {
        metadata := Some(S.Merged(metadata, d.metadata.value));
      }
      if d.inputs.Some? {
        inputs := Some(S.Merged(inputs, d.inputs.value));
      }
    }

    /**
     * The delta every board gets for a stop seen on the control channel.  A board that showed the
     * gateway's state shows the new one after it; the last stop is the later of the two, and its acks
     * start from zero exactly when it is a new one.
     */
    method NoteStop(stop: S.LastStop) returns (forward: S.Delta)
      modifies this`plane
      ensures old(S.Inv(State())) ==>
                S.Inv(State()) && S.ApplyDelta(S.View(old(State())), forward) == S.View(State())
      ensures State() == S.Accumulate(old(State()), [S.Stop(stop)])
      ensures forward == S.Forwarded(old(State()), S.Stop(stop))
      ensures plane.Some? ==> plane.value.lastStop.Some? && plane.value.lastStop.value.issuedAt >= stop.issuedAt
      ensures plane != old(plane) ==> plane == Some(S.Plane.Plane(Some(stop), 0))
    {
      if S.Inv(State()) { S.BoardKeepsUp(State(), S.Stop(stop)); }
      assert [S.Stop(stop)][..0] == [];
      hide S.ApplyDelta, S.View, S.Inv;
      if plane.None? || (plane.value.lastStop.Some? && plane.value.lastStop.value.issuedAt >= stop.issuedAt) {
        return S.NOTHING;
      }
      plane := Some(S.Plane.Plane(Some(stop), 0));
      forward := S.NOTHING.(controlPlane := plane);
    }

    /** Listing a map's values visits every key once. */
    static method ListKeys(m: map<S.Val, S.Rec>) returns (order: seq<S.Val>)
      ensures S.Enumerates(order, m)
    {
      order := [];
      var open := m.Keys;
      while open != {}
        invariant open <= m.Keys
        invariant forall k :: k in order <==> k in m && k !in open
        invariant forall i, j :: 0 <= i < j < |order| ==> order[i] != order[j]
        decreases open
      {
        var k :| k in open;
        order, open := order + [k], open - {k};
      }
    }

    method BuildSnapshot() returns (snap: S.Delta, ghost agentOrder: seq<S.Val>, ghost taskOrder: seq<S.Val>)
      ensures S.Enumerates(agentOrder, agents) && S.Enumerates(taskOrder, tasks)
      ensures snap == S.BuildSnapshot(State(), agentOrder, taskOrder)
    {
      var a := ListKeys(agents);
      var t := ListKeys(tasks);
      agentOrder, taskOrder := a, t;
      snap := S.Delta.Delta(status, S.ValuesOf(agents, a), S.ValuesOf(tasks, t), metadata, inputs, None, plane);
    }
  }

  class BoardStore {
    var agents: map<S.Val, S.Rec>
    var tasks: map<S.Val, S.Rec>
    var status: string
    var metadata: Option<S.Rec>
    var topic: string
    var plane: Option<S.Plane>

    ghost function State(): S.Board
      reads this
    {
      S.Board.Board(agents, tasks, status, metadata, topic, plane)
    }

    constructor ()
      ensures State() == S.RESET
    {
      agents, tasks, status, metadata, topic, plane := map[], map[], "INITIAL", None, "", None;
    }

    method ResetState()
      modifies this
      ensures State() == S.RESET
    {
      agents, tasks, status, metadata, topic, plane := map[], map[], "INITIAL", None, "", None;
    }

    static method MergeShown(items: seq<S.Rec>, idKey: string, before: map<S.Val, S.Rec>)
      returns (m: map<S.Val, S.Rec>)
      ensures m == S.MergeShown(before, items, idKey)
    {
      m := before;
      for i := 0 to |items|
        invariant m == S.MergeShown(before, items[..i], idKey)
      {
        assert items[..i + 1][..i] == items[..i];
        var id := S.Get(items[i], idKey);
        if S.IsTruthy(id) {
          m := m[id := S.Entry(m, id) + items[i]];
        }
      }
      assert items[..|items|] == items;
    }

    method ShowStatus(incoming: Option<string>)
      modifies this
      ensures State() == S.ShowStatus(old(State()), incoming)
    {
      if incoming.Some? && incoming.value != "" {
        if incoming.value == "RUNNING" && S.Terminal(status) {
          tasks := map[];
          metadata := None;
          topic := "";
        }
        status := incoming.value;
      }
    }

    method ApplyDelta(d: S.Delta)
      modifies this
      ensures State() == S.ApplyDelta(old(State()), d)
    {
      ShowStatus(d.status);
      if d.inputs.Some? && S.IsTruthy(S.Get(d.inputs.value, "topic")) {
        topic := S.Shows(d.inputs.value["topic"]);
      }
      agents := MergeShown(d.agents, "agentId", agents);
      tasks := MergeShown(d.tasks, "taskId", tasks);
      if d.metadata.Some? {
        metadata := Some(S.Merged(metadata, d.metadata.value));
      }
      if d.controlPlane.Some? {
        plane := d.controlPlane;
      }
      if d.control.Some? && plane.Some? {
        plane := Some(S.ApplyControlAck(plane.value, d.control.value));
      }
    }
  }

  /**
   * A late connection end to end: the gateway's snapshot, sent to a board that resets first, makes
   * it show what a board connected all along shows of the same gateway.
   */
  method Connect(gateway: SocketGateway, board: BoardStore)
    requires S.Inv(gateway.State())
    modifies board
    ensures board.State() == S.View(gateway.State()) && gateway.State() == old(gateway.State())
  {
    var snap, agentOrder, taskOrder := gateway.BuildSnapshot();
    S.SnapshotShowsView(gateway.State(), agentOrder, taskOrder);
    hide S.ApplyDelta, S.View, S.BuildSnapshot;
    board.ResetState();
    board.ApplyDelta(snap);
  }
}
