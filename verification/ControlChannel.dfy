/** The objects of the control channel: the saved key, the catch-up loop, an orchestrator's stop signal. */
module ControlChannel {
  import opened Budget
  import opened Actor
  import opened StopProtocol

  class ControlKey {
    var saved: Saved
    var channel: seq<int>

    constructor (saved: Saved)
      ensures this.saved == saved && channel == []
    {
      this.saved := saved;
      channel := [];
    }

    /** Save if later, then publish in any case. */
    method IssueStopAll(moment: int) returns (stored: bool)
      modifies this
      ensures saved == SaveIfLater(old(saved), moment) && channel == old(channel) + [moment]
      ensures stored <==> saved == Holds(moment) && old(saved) != Holds(moment)
    {
      stored := !((saved.Holds? || saved.Rejected?) && saved.moment >= moment);
      if stored {
        saved := Holds(moment);
      }
      channel := channel + [moment];
    }
  }

  /**
   * After a reconnect: read until a read succeeds, then obey that value and stop.  The world gives
   * what each read returns (none for an error) until the subscriber is closed.
   */
  method CatchUpUntilRead(world: seq<Option<Saved>>, cutoff: Cutoff) returns (attempts: nat, after: Cutoff)
    ensures attempts <= |world| && forall i :: 0 <= i < attempts - 1 ==> world[i].None?
    ensures (exists i :: 0 <= i < |world| && world[i].Some?) ==>
              attempts > 0 && world[attempts - 1].Some? && after == Obey(cutoff, world[attempts - 1].value)
    ensures (forall i :: 0 <= i < |world| ==> world[i].None?) ==> after == cutoff
  {
    attempts, after := 0, cutoff;
    while attempts < |world|
      invariant attempts <= |world| && after == cutoff
      invariant forall i :: 0 <= i < attempts ==> world[i].None?
    {
      attempts := attempts + 1;
      if world[attempts - 1].Some? {
        after := Obey(cutoff, world[attempts - 1].value);
        return;
      }
    }
  }

  /** The first moment of the list at or after the start, which is the one that aborts. */
  function FirstAtOrAfter(startedAt: int, moments: seq<int>): (r: Option<int>)
    ensures r.None? ==> forall m <- moments :: m < startedAt
    ensures r.Some? ==> r.value in moments && r.value >= startedAt
  {
    if moments == [] then None
    else
      var before := FirstAtOrAfter(startedAt, moments[..|moments| - 1]);
      assert moments == moments[..|moments| - 1] + [moments[|moments| - 1]];
      if before.Some? then before
      else if moments[|moments| - 1] >= startedAt then Some(moments[|moments| - 1])
      else None
  }

  /** The signal of one orchestrated run: aborted by the first stop at or after its start. */
  class EmergencyStopSignal {
    const startedAt: int
    var cause: Option<int>
    ghost var heard: seq<int>

    ghost predicate Valid()
      reads this
    {
      cause == FirstAtOrAfter(startedAt, heard)
    }

    constructor (startedAt: int)
      ensures Valid() && heard == [] && this.startedAt == startedAt
    {
      this.startedAt := startedAt;
      cause, heard := None, [];
    }

    method OnStop(moment: int)
      requires Valid()
      modifies this
      ensures Valid() && heard == old(heard) + [moment]
      ensures old(cause).Some? ==> cause == old(cause)
    {
      if moment >= startedAt && cause.None? {
        cause := Some(moment);
      }
      heard := heard + [moment];
      assert heard[..|heard| - 1] == old(heard);
    }
  }

  /**
   * Whether a run is stopped depends on the set of moments heard, not on order or repetition, and
   * hearing the latest of them is enough: it is stopped exactly when the maximum is at or after
   * its start.
   */
  lemma SignalIgnoresOrder(startedAt: int, a: seq<int>, b: seq<int>, latest: int)
    requires forall m :: m in a <==> m in b
    requires latest in b && forall m <- b :: m <= latest
    ensures FirstAtOrAfter(startedAt, a).Some? == FirstAtOrAfter(startedAt, b).Some? == (latest >= startedAt)
  {
    assert latest in a;
  }
}
