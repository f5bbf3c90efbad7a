/**
 * What becomes of a task after each thing that can happen to it: how it arrives, what the guards
 * decide, how an attempt ends, and when another one is made.
 */
module ActorOutcomes {
  import opened Budget
  import opened Actor
  import opened ActorTheorems

  /** A stop covers the task: it was sent at or before the cutoff, or carries no usable timestamp. */
  predicate Covered(s: State, sent: Timestamp) {
    s.cutoff.Since? && (sent.At? ==> sent.ms <= s.cutoff.moment)
  }

  /** The task of the id, in the run, right after the event. */
  lemma TurnOf(ss: seq<State>, es: seq<Event>, retry: bool, k: nat, id: nat)
    requires IsRun(ss, es, retry) && k < |es| && OwnTurn(es[k], id)
    ensures Enabled(ss[k], es[k]) && id in ss[k].tasks && id in ss[k + 1].tasks
    ensures ss[k + 1].tasks[id] == Turn(ss[k], es[k], retry)
  {
  }

  /** A task is as it was sent, untouched until a guard decides; only a stop or a drain refuses it at once. */
  lemma Arrival(ss: seq<State>, es: seq<Event>, retry: bool, k: nat, id: nat, sent: Timestamp, addressed: bool)
    requires IsRun(ss, es, retry) && k < |es| && es[k] == Deliver(id, sent, addressed)
    ensures id in ss[k + 1].tasks
    ensures var t := ss[k + 1].tasks[id];
            && t.sent == sent && t.calls == 0 && t.records == []
            && t.successes == 0 && t.failures == 0 && t.misses == 0
            && t.phase == if !addressed then Ignored
                          else if Covered(ss[k], sent) then Burying(DeadLetter(EmergencyStopError))
                          else if ss[k].stopping then Burying(DeadLetter(ActorStopped))
                          else Guarding
  {
    assert Enabled(ss[k], es[k]) && ss[k + 1] == Next(ss[k], es[k], retry);
  }

  /** An actor begins with nothing stopped, and a stop, a drain or a new task can come at any time. */
  lemma AtAnyTime(ss: seq<State>, es: seq<Event>, retry: bool, k: nat, id: nat, sent: Timestamp, moment: int)
    requires IsRun(ss, es, retry) && k < |ss|
    ensures ss[0].cutoff.Never? && !ss[0].stopping && ss[0].tasks == map[]
    ensures Enabled(ss[k], StopAll(moment)) && Enabled(ss[k], NodeStop)
    ensures id !in ss[k].tasks ==> Enabled(ss[k], Deliver(id, sent, true)) && Enabled(ss[k], Deliver(id, sent, false))
  {
  }

  // ----- The guards -----

  /** Refused by a guard, for good. */
  ghost predicate RefusedFor(s: State, id: nat, b: Blocked) {
    && id in s.tasks
    && var t := s.tasks[id];
       && t.calls == 0
       && match t.phase
          case Burying(record) => record == Refused(b) && t.records == []
          case Done => t.records == [Refused(b)]
          case Escaped => t.records == []
          case _ => false
  }

  lemma RefusedStays(s: State, e: Event, retry: bool, id: nat, b: Blocked)
    requires Enabled(s, e) && RefusedFor(s, id, b)
    ensures RefusedFor(Next(s, e, retry), id, b)
  {
  }

  /** A task that a guard blocks is never run: it ends as one record of that guard, unless its publish fails. */
  lemma {:induction false} GuardRefuses(ss: seq<State>, es: seq<Event>, retry: bool, i: nat, j: nat,
                                        id: nat, b: Blocked)
    requires IsRun(ss, es, retry) && i < j < |ss| && es[i] == GuardsDecide(id, Some(b))
    ensures RefusedFor(ss[j], id, b)
    decreases j
  {
    Run(ss, es, retry, j - 1);
    assert Enabled(ss[j - 1], es[j - 1]) && ss[j] == Next(ss[j - 1], es[j - 1], retry);
    if i + 1 == j {
      assert Tidy(ss[i].tasks[id]);
    } else {
      hide IsRun, Next, Enabled, Inv, RefusedFor;
      GuardRefuses(ss, es, retry, i, j - 1, id, b);
      RefusedStays(ss[j - 1], es[j - 1], retry, id, b);
    }
  }

  // ----- Calling the handler -----

  /** The handler is called, or an interruption ends the task without a call. */
  ghost predicate CalledOrInterrupted(s: State, before: Task, after: Task, attempt: nat) {
    if Covered(s, before.sent) then
      after == before.(phase := Burying(DeadLetter(EmergencyStopError)))
    else if s.stopping then
      after == before.(phase := Burying(DeadLetter(ActorStopped)))
    else
      after == before.(phase := Running(attempt), calls := before.calls + 1)
  }

  /** A task that no guard blocks is run at once, unless a stop or a drain got there first. */
  lemma GuardsPass(ss: seq<State>, es: seq<Event>, retry: bool, k: nat, id: nat)
    requires IsRun(ss, es, retry) && k < |es| && es[k] == GuardsDecide(id, None)
    ensures id in ss[k].tasks && id in ss[k + 1].tasks && ss[k].tasks[id].calls == 0
    ensures CalledOrInterrupted(ss[k], ss[k].tasks[id], ss[k + 1].tasks[id], 1)
  {
    TurnOf(ss, es, retry, k, id);
    Run(ss, es, retry, k);
    assert Tidy(ss[k].tasks[id]);
    hide IsRun;
  }

  /** After its back-off the next attempt is made, up to the third, unless a stop or a drain got there first. */
  lemma NextAttempt(ss: seq<State>, es: seq<Event>, retry: bool, k: nat, id: nat)
    requires IsRun(ss, es, retry) && k < |es| && es[k] == BackoffElapses(id)
    ensures id in ss[k].tasks && id in ss[k + 1].tasks && 1 <= ss[k].tasks[id].calls < 3
    ensures CalledOrInterrupted(ss[k], ss[k].tasks[id], ss[k + 1].tasks[id], ss[k].tasks[id].calls + 1)
  {
    TurnOf(ss, es, retry, k, id);
    Run(ss, es, retry, k);
    assert Tidy(ss[k].tasks[id]);
    hide IsRun;
  }

  /** Once the actor drains no handler is called any more, that of a task received later included. */
  lemma {:induction false} NoAttemptAfterDrain(ss: seq<State>, es: seq<Event>, retry: bool, i: nat, j: nat, id: nat)
    requires IsRun(ss, es, retry) && i < j < |ss| && es[i] == NodeStop
    ensures ss[j].stopping && (id in ss[i].tasks ==> id in ss[j].tasks)
    ensures id in ss[j].tasks ==> ss[j].tasks[id].calls == if id in ss[i].tasks then ss[i].tasks[id].calls else 0
    decreases j
  {
    assert Enabled(ss[j - 1], es[j - 1]) && ss[j] == Next(ss[j - 1], es[j - 1], retry);
    if i + 1 < j {
      NoAttemptAfterDrain(ss, es, retry, i, j - 1, id);
    }
  }

  // ----- After an attempt -----

  /** How an attempt that raised e can end the task. */
  predicate EndsWith(e: Error, calls: nat, f: Error) {
    if e.Plain? then f == EmergencyStopError || f == ActorStopped || (f == e && calls == 3) else f == e
  }

  /** How the n-th attempt, settled with this error, goes on while no further attempt is made. */
  ghost predicate FollowsError(s: State, id: nat, n: nat, e: Error, retry: bool) {
    && id in s.tasks && s.tasks[id].calls == n
    && var t := s.tasks[id];
       match t.phase
       case Settled(m, outcome) => m == n && outcome == Raised(e) && t.records == []
       case BackingOff(m) => m == n && n < 3 && t.records == [] && (e.Plain? || (e.TaskTimeout? && retry))
       case Burying(record) => t.records == [] && record.DeadLetter? && EndsWith(e, n, record.error)
       case Done => |t.records| == 1 && t.records[0].DeadLetter? && EndsWith(e, n, t.records[0].error)
       case Escaped => t.records == []
       case _ => false
  }

  lemma ErrorFollowed(s: State, ev: Event, retry: bool, id: nat, n: nat, e: Error)
    requires Inv(s) && Enabled(s, ev) && FollowsError(s, id, n, e, retry) && ev != BackoffElapses(id)
    ensures FollowsError(Next(s, ev, retry), id, n, e, retry)
  {
    if OwnTurn(ev, id) {
      ErrorTurn(s, ev, retry, id, n, e);
      hide Turn, Inv, EndsWith;
    } else {
      OthersTurn(s, ev, retry, id);
      hide Next, Inv, EndsWith;
    }
  }

  lemma ErrorTurn(s: State, ev: Event, retry: bool, id: nat, n: nat, e: Error)
    requires Inv(s) && Enabled(s, ev) && FollowsError(s, id, n, e, retry)
    requires ev != BackoffElapses(id) && OwnTurn(ev, id)
    ensures FollowsError(s.(tasks := s.tasks[id := Turn(s, ev, retry)]), id, n, e, retry)
  {
    assert Tidy(s.tasks[id]);
    hide Inv, Tidy;
  }

  /** A turn of something else only ends the race of an attempt that still runs. */
  lemma OthersTurn(s: State, ev: Event, retry: bool, id: nat)
    requires Enabled(s, ev) && id in s.tasks && !OwnTurn(ev, id)
    ensures id in Next(s, ev, retry).tasks
    ensures !s.tasks[id].phase.Running? ==> Next(s, ev, retry).tasks[id] == s.tasks[id]
  {
  }

  lemma {:induction false} ErrorRun(ss: seq<State>, es: seq<Event>, retry: bool, i: nat, j: nat,
                                    id: nat, n: nat, e: Error)
    requires IsRun(ss, es, retry) && i <= j < |ss| && FollowsError(ss[i], id, n, e, retry)
    requires forall k :: i <= k < j ==> es[k] != BackoffElapses(id)
    ensures FollowsError(ss[j], id, n, e, retry)
    decreases j
  {
    if i < j {
      ErrorRun(ss, es, retry, i, j - 1, id, n, e);
      Run(ss, es, retry, j - 1);
      assert Enabled(ss[j - 1], es[j - 1]) && ss[j] == Next(ss[j - 1], es[j - 1], retry);
      hide IsRun, Next, Enabled, FollowsError, Inv;
      ErrorFollowed(ss[j - 1], es[j - 1], retry, id, n, e);
    }
  }

  /**
   * An attempt that raises an error never completes the task.  Until another attempt is made the task
   * is on its way to one dead letter: that of the error itself, or, for an ordinary error, that of the
   * stop or drain that came in between, or of the error when it was the third attempt.
   */
  lemma RaisedAttempt(ss: seq<State>, es: seq<Event>, retry: bool, i: nat, j: nat, id: nat, e: Error)
    requires IsRun(ss, es, retry) && i < j < |ss| && es[i] == HandlerSettles(id, Raised(e))
    requires forall k :: i < k < j ==> es[k] != BackoffElapses(id)
    ensures id in ss[i].tasks && FollowsError(ss[j], id, ss[i].tasks[id].calls, e, retry)
  {
    TurnOf(ss, es, retry, i, id);
    Run(ss, es, retry, i);
    assert Tidy(ss[i].tasks[id]);
    ErrorRun(ss, es, retry, i + 1, j, id, ss[i].tasks[id].calls, e);
    hide IsRun;
  }

  /** An attempt that times out is on its way to one `task_timeout` dead letter, until another attempt is made. */
  lemma TimedOutAttempt(ss: seq<State>, es: seq<Event>, retry: bool, i: nat, j: nat, id: nat)
    requires IsRun(ss, es, retry) && i < j < |ss| && es[i] == TimesOut(id)
    requires forall k :: i < k < j ==> es[k] != BackoffElapses(id)
    ensures id in ss[i].tasks && FollowsError(ss[j], id, ss[i].tasks[id].calls, TaskTimeout, retry)
    ensures ss[j].tasks[id].phase.Done? ==> ss[j].tasks[id].records == [DeadLetter(TaskTimeout)]
  {
    TurnOf(ss, es, retry, i, id);
    Run(ss, es, retry, i);
    assert Tidy(ss[i].tasks[id]);
    ErrorRun(ss, es, retry, i + 1, j, id, ss[i].tasks[id].calls, TaskTimeout);
    hide IsRun;
  }

  /** A drain ends a running attempt as one `actor_stopped` dead letter. */
  lemma DrainEndsRunningAttempt(ss: seq<State>, es: seq<Event>, retry: bool, i: nat, j: nat, id: nat)
    requires IsRun(ss, es, retry) && i < j < |ss| && es[i] == NodeStop
    requires id in ss[i].tasks && ss[i].tasks[id].phase.Running?
    requires forall k :: i < k < j ==> es[k] != BackoffElapses(id)
    ensures FollowsError(ss[j], id, ss[i].tasks[id].calls, ActorStopped, retry)
    ensures ss[j].tasks[id].phase.Done? ==> ss[j].tasks[id].records == [DeadLetter(ActorStopped)]
  {
    assert Enabled(ss[i], es[i]) && ss[i + 1] == Next(ss[i], es[i], retry);
    assert Enabled(ss[j - 1], es[j - 1]) && ss[j] == Next(ss[j - 1], es[j - 1], retry);
    Run(ss, es, retry, i);
    assert Tidy(ss[i].tasks[id]);
    ErrorRun(ss, es, retry, i + 1, j, id, ss[i].tasks[id].calls, ActorStopped);
    hide IsRun;
  }

  /**
   * When another attempt is made: after an ordinary error or, if timeouts are retried, a timeout, on
   * the first or second attempt, and only while neither a stop covers the task nor the actor drains.
   */
  lemma RetriedExactlyWhen(ss: seq<State>, es: seq<Event>, retry: bool, k: nat, id: nat, n: nat, e: Error)
    requires IsRun(ss, es, retry) && k < |es| && es[k] == Continue(id)
    requires id in ss[k].tasks && ss[k].tasks[id].phase == Settled(n, Raised(e))
    ensures id in ss[k + 1].tasks
    ensures ss[k + 1].tasks[id].phase.BackingOff? <==>
            && n < 3 && !Covered(ss[k], ss[k].tasks[id].sent) && !ss[k].stopping
            && (e.Plain? || (e.TaskTimeout? && retry))
  {
    TurnOf(ss, es, retry, k, id);
    hide IsRun;
  }

  /** A returned attempt: it is announced, and once that is published the one record is its completion. */
  ghost predicate FollowsReturn(s: State, id: nat, n: nat) {
    && id in s.tasks && s.tasks[id].calls == n
    && var t := s.tasks[id];
       match t.phase
       case Settled(m, outcome) => m == n && outcome == Returned && t.records == []
       case Announcing(m) => m == n && t.records == []
       case Done => t.records == [Completed]
       case _ => false
  }

  lemma ReturnFollowed(s: State, ev: Event, retry: bool, id: nat, n: nat)
    requires Enabled(s, ev) && FollowsReturn(s, id, n) && ev != PublishSettles(id, false)
    ensures FollowsReturn(Next(s, ev, retry), id, n)
  {
    if !OwnTurn(ev, id) {
      OthersTurn(s, ev, retry, id);
      hide Next;
    }
  }

  /** An attempt that returns completes the task, whatever stops and timeouts come later, unless its publish fails. */
  lemma {:induction false} ReturnedAttempt(ss: seq<State>, es: seq<Event>, retry: bool, i: nat, j: nat, id: nat)
    requires IsRun(ss, es, retry) && i < j < |ss| && es[i] == HandlerSettles(id, Returned)
    requires forall k :: i < k < j ==> es[k] != PublishSettles(id, false)
    ensures id in ss[i].tasks && FollowsReturn(ss[j], id, ss[i].tasks[id].calls)
    decreases j
  {
    TurnOf(ss, es, retry, i, id);
    Run(ss, es, retry, i);
    assert Tidy(ss[i].tasks[id]);
    if i + 1 < j {
      ReturnedAttempt(ss, es, retry, i, j - 1, id);
      assert Enabled(ss[j - 1], es[j - 1]) && ss[j] == Next(ss[j - 1], es[j - 1], retry);
      hide IsRun, Next, Enabled, FollowsReturn, Inv;
      ReturnFollowed(ss[j - 1], es[j - 1], retry, id, ss[i].tasks[id].calls);
    }
  }

  /** The breaker is told of a success each time an attempt that returned is taken up, and at no other time. */
  lemma SuccessesReported(ss: seq<State>, es: seq<Event>, retry: bool, k: nat, id: nat)
    requires IsRun(ss, es, retry) && k < |es| && id in ss[k].tasks
    ensures id in ss[k + 1].tasks
    ensures ss[k + 1].tasks[id].successes ==
            ss[k].tasks[id].successes +
            if es[k] == Continue(id) && ss[k].tasks[id].phase.Settled? && ss[k].tasks[id].phase.outcome == Returned
            then 1 else 0
  {
    assert Enabled(ss[k], es[k]) && ss[k + 1] == Next(ss[k], es[k], retry);
    hide IsRun;
  }

  /** A dead letter that is published ends the task with that one record; one that cannot be published leaves none. */
  lemma Buried(ss: seq<State>, es: seq<Event>, retry: bool, k: nat, id: nat, ok: bool, record: Terminal)
    requires IsRun(ss, es, retry) && k < |es| && es[k] == PublishSettles(id, ok)
    requires id in ss[k].tasks && ss[k].tasks[id].phase == Burying(record)
    ensures id in ss[k + 1].tasks
    ensures var t, t' := ss[k].tasks[id], ss[k + 1].tasks[id];
            t' == if ok then t.(phase := Done, records := [record]) else t.(phase := Escaped, misses := t.misses + 1)
  {
    TurnOf(ss, es, retry, k, id);
    Run(ss, es, retry, k);
    assert Tidy(ss[k].tasks[id]);
    hide IsRun;
  }

  /** A completion that cannot be published counts as an ordinary error of the attempt. */
  lemma FailedAnnouncement(ss: seq<State>, es: seq<Event>, retry: bool, k: nat, id: nat, n: nat)
    requires IsRun(ss, es, retry) && k < |es| && es[k] == PublishSettles(id, false)
    requires id in ss[k].tasks && ss[k].tasks[id].phase == Announcing(n)
    ensures id in ss[k + 1].tasks && ss[k + 1].tasks[id].misses == ss[k].tasks[id].misses + 1
    ensures FollowsError(ss[k + 1], id, n, Plain("publish failed"), retry)
    ensures ss[k + 1].tasks[id].phase.BackingOff? <==>
            n < 3 && !Covered(ss[k], ss[k].tasks[id].sent) && !ss[k].stopping
  {
    TurnOf(ss, es, retry, k, id);
    Run(ss, es, retry, k);
    assert Tidy(ss[k].tasks[id]);
    hide IsRun;
  }
}
