/** What one actor guarantees over every run: one record per task, and the emergency cutoff. */
module ActorTheorems {
  import opened Budget
  import opened Actor

  /** A task is ignored from its delivery on, or never: exactly when it is addressed to another agent. */
  lemma {:induction false} IgnoredExactlyWhen(ss: seq<State>, es: seq<Event>, retry: bool, i: nat, j: nat,
                                              id: nat, sent: Timestamp, addressed: bool)
    requires IsRun(ss, es, retry) && i < j < |ss| && es[i] == Deliver(id, sent, addressed)
    ensures id in ss[j].tasks && (ss[j].tasks[id].phase.Ignored? <==> !addressed)
    decreases j
  {
    var s, e := ss[j - 1], es[j - 1];
    assert Enabled(s, e) && ss[j] == Next(s, e, retry);
    if i + 1 < j {
      hide IsRun, Next, Enabled;
      IgnoredExactlyWhen(ss, es, retry, i, j - 1, id, sent, addressed);
      IgnoredStays(s, e, retry, id);
    }
  }

  lemma IgnoredStays(s: State, e: Event, retry: bool, id: nat)
    requires Enabled(s, e) && id in s.tasks
    ensures id in Next(s, e, retry).tasks
    ensures Next(s, e, retry).tasks[id].phase.Ignored? <==> s.tasks[id].phase.Ignored?
  {
  }

  /**
   * One terminal record: over every run a task delivered to the actor it is addressed to has at most
   * one record on the completed and failed channels together, and exactly one once it has ended,
   * unless a publish failed; a task addressed to another agent has none.  The handler is called at
   * most three times, never when a guard refused the task.  While no publish failed, the breaker is
   * told of a success exactly when the task completed, and of a failure exactly when it ended by a
   * timeout or by exhausted retries.
   */
  lemma OneTerminalRecord(ss: seq<State>, es: seq<Event>, retry: bool, i: nat, j: nat,
                          id: nat, sent: Timestamp, addressed: bool)
    requires IsRun(ss, es, retry) && i < j < |ss| && es[i] == Deliver(id, sent, addressed)
    ensures id in ss[j].tasks
    ensures var t := ss[j].tasks[id];
            && |t.records| <= 1 && t.calls <= 3
            && (!addressed ==> t.calls == 0 && t.records == [])
            && (addressed && Ended(t.phase) && t.misses == 0 ==> |t.records| == 1)
            && (|t.records| == 1 ==>
                  && t.phase.Done? && BreakerToldOfFailure(t, t.records[0])
                  && (t.records[0].Refused? ==> t.calls == 0)
                  && (t.misses == 0 ==> t.successes == if t.records[0].Completed? then 1 else 0))
  {
    IgnoredExactlyWhen(ss, es, retry, i, j, id, sent, addressed);
    Run(ss, es, retry, j);
    assert Tidy(ss[j].tasks[id]);
  }

  // ----- Every task ends -----

  predicate Ended(p: Phase) {
    p.Done? || p.Ignored? || p.Escaped?
  }

  /** Turns a task may still take. */
  function Rank(p: Phase): int {
    match p
    case Guarding => 50
    case Running(n) => 10 * (RETRY_ATTEMPTS - n) + 9
    case Settled(n, _) => 10 * (RETRY_ATTEMPTS - n) + 8
    case Announcing(n) => 10 * (RETRY_ATTEMPTS - n) + 7
    case BackingOff(n) => 10 * (RETRY_ATTEMPTS - n) + 6
    case Burying(_) => 1
    case _ => 0
  }

  predicate OwnTurn(e: Event, id: nat) {
    !e.Deliver? && !e.StopAll? && !e.NodeStop? && e.id == id
  }

  lemma TurnProgresses(s: State, e: Event, retry: bool)
    requires Inv(s) && Enabled(s, e) && !e.Deliver? && !e.StopAll? && !e.NodeStop?
    ensures 0 <= Rank(Turn(s, e, retry).phase) < Rank(s.tasks[e.id].phase)
  {
    assert Tidy(s.tasks[e.id]);
  }

  lemma OthersKeepRank(s: State, e: Event, retry: bool, id: nat)
    requires Inv(s) && Enabled(s, e) && id in s.tasks && !OwnTurn(e, id)
    ensures id in Next(s, e, retry).tasks
    ensures Rank(Next(s, e, retry).tasks[id].phase) <= Rank(s.tasks[id].phase)
  {
  }

  /** The task's own turns among the events from i up to j. */
  function OwnTurns(es: seq<Event>, id: nat, i: nat, j: nat): nat
    requires j <= |es|
  {
    if j <= i then 0 else OwnTurns(es, id, i, j - 1) + if OwnTurn(es[j - 1], id) then 1 else 0
  }

  lemma RankStep(s: State, e: Event, retry: bool, id: nat)
    requires Inv(s) && Enabled(s, e) && id in s.tasks
    ensures id in Next(s, e, retry).tasks
    ensures Rank(Next(s, e, retry).tasks[id].phase) + (if OwnTurn(e, id) then 1 else 0) <= Rank(s.tasks[id].phase)
  {
    if OwnTurn(e, id) { TurnProgresses(s, e, retry); } else { OthersKeepRank(s, e, retry, id); }
    hide Rank, Turn;
  }

  lemma RankBounds(s: State, id: nat)
    requires Inv(s) && id in s.tasks
    ensures 0 <= Rank(s.tasks[id].phase) <= 50
  {
    assert Tidy(s.tasks[id]);
  }

  /**
   * Every task ends: it takes at most 50 turns of its own after it was received, and as long as it
   * has not ended one of its turns is enabled.
   */
  lemma {:induction false} TaskEnds(ss: seq<State>, es: seq<Event>, retry: bool, i: nat, j: nat, id: nat)
    requires IsRun(ss, es, retry) && i <= j < |ss| && id in ss[i].tasks
    ensures id in ss[j].tasks
    ensures OwnTurns(es, id, i, j) + Rank(ss[j].tasks[id].phase) <= Rank(ss[i].tasks[id].phase) <= 50
    ensures 0 <= Rank(ss[j].tasks[id].phase)
    ensures Ended(ss[j].tasks[id].phase) || exists e :: Enabled(ss[j], e) && OwnTurn(e, id)
    decreases j
  {
    Run(ss, es, retry, i);
    RankBounds(ss[i], id);
    if i < j {
      assert Enabled(ss[j - 1], es[j - 1]) && ss[j] == Next(ss[j - 1], es[j - 1], retry);
      hide Next, Rank, Inv, Enabled, OwnTurn, Ended, IsRun;
      TaskEnds(ss, es, retry, i, j - 1, id);
      Run(ss, es, retry, j - 1);
      RankStep(ss[j - 1], es[j - 1], retry, id);
    }
    hide Next, Rank, Inv, Enabled, OwnTurn, Ended, IsRun;
    Run(ss, es, retry, j);
    RankBounds(ss[j], id);
    TurnEnabled(ss[j], id);
  }

  lemma TurnEnabled(s: State, id: nat)
    requires id in s.tasks
    ensures Ended(s.tasks[id].phase) || exists e :: Enabled(s, e) && OwnTurn(e, id)
  {
    var e := match s.tasks[id].phase
             case Guarding => GuardsDecide(id, None)
             case Running(_) => TimesOut(id)
             case Settled(_, _) => Continue(id)
             case BackingOff(_) => BackoffElapses(id)
             case _ => PublishSettles(id, true);
    assert Ended(s.tasks[id].phase) || (Enabled(s, e) && OwnTurn(e, id));
  }

  // ----- The emergency cutoff -----

  /** The moments of the stops received so far. */
  function Moments(es: seq<Event>): set<int> {
    set e | e in es && e.StopAll? :: e.moment
  }

  ghost predicate IsMaximum(c: Cutoff, moments: set<int>) {
    && (c.Since? <==> moments != {})
    && (c.Since? ==> c.moment in moments && forall m <- moments :: m <= c.moment)
  }

  lemma MaximumUnique(a: Cutoff, b: Cutoff, moments: set<int>)
    requires IsMaximum(a, moments) && IsMaximum(b, moments)
    ensures a == b
  {
  }

  lemma LaterIsMaximum(c: Cutoff, moments: set<int>, m: int)
    requires IsMaximum(c, moments)
    ensures IsMaximum(Later(c, m), moments + {m})
  {
  }

  lemma OneMoreMoment(es: seq<Event>, k: nat)
    requires 0 < k <= |es|
    ensures Moments(es[..k]) == Moments(es[..k - 1]) + if es[k - 1].StopAll? then {es[k - 1].moment} else {}
  {
    assert es[..k] == es[..k - 1] + [es[k - 1]];
  }

  lemma CutoffStep(s: State, e: Event, retry: bool)
    requires Enabled(s, e)
    ensures Next(s, e, retry).cutoff == if e.StopAll? then Later(s.cutoff, e.moment) else s.cutoff
  {
  }

  /** The cutoff is the maximum of all moments received. */
  lemma {:induction false} CutoffIsMaximum(ss: seq<State>, es: seq<Event>, retry: bool, k: nat)
    requires IsRun(ss, es, retry) && k < |ss|
    ensures IsMaximum(ss[k].cutoff, Moments(es[..k]))
  {
    if k > 0 {
      assert Enabled(ss[k - 1], es[k - 1]) && ss[k] == Next(ss[k - 1], es[k - 1], retry);
      hide Next, Enabled, Later, Moments, IsMaximum, IsRun;
      CutoffIsMaximum(ss, es, retry, k - 1);
      CutoffStep(ss[k - 1], es[k - 1], retry);
      OneMoreMoment(es, k);
      if es[k - 1].StopAll? {
        LaterIsMaximum(ss[k - 1].cutoff, Moments(es[..k - 1]), es[k - 1].moment);
      } else {
        assert Moments(es[..k - 1]) + {} == Moments(es[..k - 1]);
      }
    }
  }

  /** So it does not depend on the order or the repetition of the stops. */
  lemma CutoffIgnoresOrder(ss: seq<State>, es: seq<Event>, ss': seq<State>, es': seq<Event>, retry: bool)
    requires IsRun(ss, es, retry) && IsRun(ss', es', retry) && Moments(es) == Moments(es')
    ensures ss[|es|].cutoff == ss'[|es'|].cutoff
  {
    CutoffIsMaximum(ss, es, retry, |es|);
    CutoffIsMaximum(ss', es', retry, |es'|);
    assert es[..|es|] == es && es'[..|es'|] == es';
    MaximumUnique(ss[|es|].cutoff, ss'[|es'|].cutoff, Moments(es));
  }

  ghost predicate Barred(s: State, id: nat, calls: nat) {
    id in s.tasks && SentBeforeStop(s.tasks[id].sent, s.cutoff) && s.tasks[id].calls == calls
  }

  lemma BarredStep(s: State, e: Event, retry: bool, id: nat, calls: nat)
    requires Inv(s) && Enabled(s, e) && Barred(s, id, calls)
    ensures Barred(Next(s, e, retry), id, calls)
  {
  }

  /**
   * No attempt starts after the stop: from the moment a task's timestamp is at or before the
   * cutoff (while guards decide, during back-off, or before it was received) its handler is not
   * called again.
   */
  lemma {:induction false} NoAttemptAfterStop(ss: seq<State>, es: seq<Event>, retry: bool, i: nat, j: nat, id: nat)
    requires IsRun(ss, es, retry) && i <= j < |ss|
    requires id in ss[i].tasks && SentBeforeStop(ss[i].tasks[id].sent, ss[i].cutoff)
    ensures Barred(ss[j], id, ss[i].tasks[id].calls)
    decreases j
  {
    if i < j {
      NoAttemptAfterStop(ss, es, retry, i, j - 1, id);
      Run(ss, es, retry, j - 1);
      BarredStep(ss[j - 1], es[j - 1], retry, id, ss[i].tasks[id].calls);
    }
  }

  /** A task delivered after a stop it was sent before is never run. */
  lemma RefusedOnArrival(ss: seq<State>, es: seq<Event>, retry: bool, i: nat, j: nat,
                         id: nat, sent: Timestamp, addressed: bool)
    requires IsRun(ss, es, retry) && i < j < |ss|
    requires es[i] == Deliver(id, sent, addressed) && SentBeforeStop(sent, ss[i].cutoff)
    ensures Barred(ss[j], id, 0)
  {
    assert Enabled(ss[i], es[i]) && ss[i + 1] == Next(ss[i], es[i], retry);
    NoAttemptAfterStop(ss, es, retry, i + 1, j, id);
  }

  /** On its way to one `emergency_stop` dead letter. */
  ghost predicate Stopped(s: State, id: nat, calls: nat) {
    && Barred(s, id, calls)
    && var t := s.tasks[id];
       match t.phase
       case Settled(_, outcome) => outcome == Raised(EmergencyStopError) && t.records == []
       case Burying(record) => record == DeadLetter(EmergencyStopError) && t.records == []
       case Done => t.records == [DeadLetter(EmergencyStopError)]
       case Escaped => t.records == []
       case _ => false
  }

  lemma StoppedStep(s: State, e: Event, retry: bool, id: nat, calls: nat)
    requires Inv(s) && Enabled(s, e) && Stopped(s, id, calls)
    ensures Stopped(Next(s, e, retry), id, calls)
  {
    BarredStep(s, e, retry, id, calls);
  }

  /**
   * A stop ends what is running: an open attempt of a task sent at or before the moment ends as one
   * `emergency_stop` dead letter, whatever its handler does later, with no further attempt.
   */
  lemma {:induction false} StopEndsRunningAttempt(ss: seq<State>, es: seq<Event>, retry: bool, i: nat, j: nat, id: nat)
    requires IsRun(ss, es, retry) && i < j < |ss| && es[i].StopAll?
    requires id in ss[i].tasks && ss[i].tasks[id].phase.Running?
    requires SentBeforeStop(ss[i].tasks[id].sent, Since(es[i].moment))
    ensures Stopped(ss[j], id, ss[i].tasks[id].calls)
    decreases j
  {
    Run(ss, es, retry, j - 1);
    if i + 1 == j {
      assert Tidy(ss[i].tasks[id]) && Obeys(ss[i], ss[i].tasks[id]);
    } else {
      StopEndsRunningAttempt(ss, es, retry, i, j - 1, id);
      StoppedStep(ss[j - 1], es[j - 1], retry, id, ss[i].tasks[id].calls);
    }
  }

  /** A task sent after the moment is untouched by the stop. */
  lemma LaterTasksUntouched(s: State, moment: int, id: nat)
    requires id in s.tasks && s.tasks[id].sent.At? && s.tasks[id].sent.ms > moment
    ensures id in EmergencyStop(s, moment).tasks && EmergencyStop(s, moment).tasks[id] == s.tasks[id]
    ensures SentBeforeStop(s.tasks[id].sent, EmergencyStop(s, moment).cutoff) <==>
            SentBeforeStop(s.tasks[id].sent, s.cutoff)
  {
  }
}
