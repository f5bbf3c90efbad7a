/**
 * The actor as an object: its in-flight table and the loops that abort over it, and the attempt
 * loop of one task with the time it takes (AgentActor.ts and retry-policy.ts).
 */
module AgentActorObject {
  import opened Budget
  import opened Actor

  /** The in-flight tasks sent at or before the moment. */
  ghost function SentBefore(tasks: map<nat, Task>, inFlight: set<nat>, moment: int): set<nat>
    requires inFlight <= tasks.Keys
  {
    set id | id in inFlight && SentBeforeStop(tasks[id].sent, Since(moment))
  }

  /** Aborting the hit in-flight attempts aborts every running attempt the stop covers. */
  lemma StopReaches(s: State, inFlight: set<nat>, moment: int, after: map<nat, Task>)
    requires !NotBefore(s.cutoff, moment)
    requires inFlight <= s.tasks.Keys && forall id <- s.tasks :: s.tasks[id].phase.Running? ==> id in inFlight
    requires after.Keys == s.tasks.Keys
    requires forall id <- s.tasks ::
               after[id] == if id in SentBefore(s.tasks, inFlight, moment) then Abort(s.tasks[id], EmergencyStopError)
                            else s.tasks[id]
    ensures s.(cutoff := Since(moment), tasks := after) == Actor.EmergencyStop(s, moment)
  {
    assert after == Actor.EmergencyStop(s, moment).tasks;
  }

  /** Half-way through the in-flight table: the hit tasks already visited are aborted, all others are as before. */
  ghost predicate Walked(before: map<nat, Task>, now: map<nat, Task>, hit: set<nat>, open: set<nat>, gone: set<nat>) {
    && now.Keys == before.Keys && gone <= hit <= gone + open && gone !! open && open <= before.Keys
    && forall id <- before :: now[id] == if id in gone then Abort(before[id], EmergencyStopError) else before[id]
  }

  lemma WalkStep(before: map<nat, Task>, now: map<nat, Task>, hit: set<nat>, open: set<nat>, gone: set<nat>, id: nat)
    requires Walked(before, now, hit, open, gone) && id in open
    ensures id in now && now[id] == before[id] && id !in gone
    ensures id in hit ==> Walked(before, now[id := Abort(now[id], EmergencyStopError)], hit, open - {id}, gone + {id})
    ensures id !in hit ==> Walked(before, now, hit, open - {id}, gone)
  {
    hide Abort;
  }

  lemma WalkBegins(before: map<nat, Task>, inFlight: set<nat>, moment: int)
    requires inFlight <= before.Keys
    ensures Walked(before, before, SentBefore(before, inFlight, moment), inFlight, {})
  {
  }

  lemma HitMeans(before: map<nat, Task>, inFlight: set<nat>, moment: int, id: nat)
    requires inFlight <= before.Keys && id in inFlight
    ensures id in SentBefore(before, inFlight, moment) <==> SentBeforeStop(before[id].sent, Since(moment))
  {
  }

  lemma WalkEnds(before: map<nat, Task>, now: map<nat, Task>, hit: set<nat>, gone: set<nat>)
    requires Walked(before, now, hit, {}, gone)
    ensures gone == hit && now.Keys == before.Keys
    ensures forall id <- now :: now[id] == if id in hit then Abort(before[id], EmergencyStopError) else before[id]
  {
  }

  class AgentActor {
    const retryOnTimeout: bool
    var stoppedAt: Cutoff
    var stopping: bool
    var tasks: map<nat, Task>
    /** Attempts with a live abort controller. */
    var inFlight: set<nat>

    ghost function State(): State
      reads this
    {
      Actor.State.State(stoppedAt, stopping, tasks)
    }

    /** Every running attempt is in the table, and only attempts that have not been left yet are. */
    ghost predicate Valid()
      reads this
    {
      && inFlight <= tasks.Keys
      && (forall id <- tasks :: tasks[id].phase.Running? ==> id in inFlight)
      && (forall id <- inFlight :: tasks[id].phase.Running? || tasks[id].phase.Settled?)
    }

    constructor (retryOnTimeout: bool)
      ensures Valid() && State() == START && this.retryOnTimeout == retryOnTimeout
    {
      this.retryOnTimeout := retryOnTimeout;
      stoppedAt, stopping, tasks, inFlight := Never, false, map[], {};
    }

    /**
     * A delivery.  The task goes on to the guards exactly when it is addressed to this actor and nothing
     * would keep an attempt of it from starting now; otherwise it is refused for that very reason,
     * without a handler call, and no other task and no running attempt is touched.
     */
    method ProcessTask(id: nat, sent: Timestamp, addressed: bool)
      requires Valid() && id !in tasks
      modifies this`tasks
      ensures Valid() && State() == Next(old(State()), Deliver(id, sent, addressed), retryOnTimeout)
      ensures id in tasks && tasks[id].calls == 0 && tasks[id].records == [] && Tidy(tasks[id])
      ensures tasks[id].phase.Guarding? <==> addressed && Interruption(old(State()), sent).None?
      ensures addressed && Interruption(old(State()), sent).Some? ==>
                tasks[id].phase == Burying(DeadLetter(Interruption(old(State()), sent).value))
      ensures tasks - {id} == old(tasks)
    {
      var t := Task(sent, Guarding, 0, 0, 0, [], 0);
      if !addressed {
        t := t.(phase := Ignored);
      } else if SentBeforeStop(sent, stoppedAt) {
        t := t.(phase := Burying(DeadLetter(EmergencyStopError)));
      } else if stopping {
        t := t.(phase := Burying(DeadLetter(ActorStopped)));
      }
      tasks := tasks[id := t];
    }

    /** The top of the attempt loop, right before the handler is called. */
    method StartAttempt(id: nat, attempt: nat)
      requires Valid() && id in tasks && id !in inFlight
      modifies this`tasks, this`inFlight
      ensures Valid()
      ensures State() == old(State()).(tasks := old(tasks)[id := BeginAttempt(old(State()), old(tasks[id]), attempt)])
    {
      var t := tasks[id];
      if SentBeforeStop(t.sent, stoppedAt) {
        t := Fail(t, EmergencyStopError);
      } else if stopping {
        t := Fail(t, ActorStopped);
      } else {
        t := t.(phase := Running(attempt), calls := t.calls + 1);
        inFlight := inFlight + {id};
      }
      tasks := tasks[id := t];
    }

    method GuardsDecided(id: nat, blocked: Option<Blocked>)
      requires Valid() && id in tasks && tasks[id].phase.Guarding?
      modifies this`tasks, this`inFlight
      ensures Valid() && State() == Next(old(State()), GuardsDecide(id, blocked), retryOnTimeout)
      ensures id in tasks && (blocked.Some? ==> tasks[id].calls == old(tasks)[id].calls && id !in inFlight)
      ensures blocked.Some? ==> tasks[id].phase == Burying(Refused(blocked.value))
    {
      if blocked.Some? {
        tasks := tasks[id := tasks[id].(phase := Burying(Refused(blocked.value)))];
      } else {
        StartAttempt(id, 1);
      }
    }

    method BackoffElapsed(id: nat)
      requires Valid() && id in tasks && tasks[id].phase.BackingOff?
      modifies this`tasks, this`inFlight
      ensures Valid() && State() == Next(old(State()), BackoffElapses(id), retryOnTimeout)
    {
      StartAttempt(id, tasks[id].phase.attempt + 1);
    }

    /** The finally block and what follows: the table entry goes, then success or the catch block. */
    method LeaveAttempt(id: nat)
      requires Valid() && id in tasks && tasks[id].phase.Settled?
      modifies this`tasks, this`inFlight
      ensures Valid() && id !in inFlight
      ensures State() == Next(old(State()), Continue(id), retryOnTimeout)
    {
      inFlight := inFlight - {id};
      tasks := tasks[id := AfterSettling(Actor.State.State(stoppedAt, stopping, tasks), tasks[id], retryOnTimeout)];
    }

    /** Walk the in-flight table and abort what the stop just applied covers. */
    method AbortSentBefore(moment: int) returns (aborted: nat)
      requires inFlight <= tasks.Keys && stoppedAt == Since(moment)
      modifies this`tasks
      ensures tasks.Keys == old(tasks.Keys)
      ensures aborted == |SentBefore(old(tasks), inFlight, moment)|
      ensures forall id <- tasks ::
                tasks[id] ==
                if id in SentBefore(old(tasks), inFlight, moment) then Abort(old(tasks)[id], EmergencyStopError)
                else old(tasks)[id]
    {
      ghost var before := tasks;
      ghost var hit := SentBefore(before, inFlight, moment);
      hide Walked, Abort, SentBeforeStop, SentBefore;
      var open := inFlight;
      ghost var gone: set<nat> := {};
      aborted := 0;
      WalkBegins(before, inFlight, moment);
      while open != {}
        invariant stoppedAt == Since(moment) && open <= inFlight && aborted == |gone|
        invariant Walked(before, tasks, hit, open, gone)
        decreases open
      {
        var id :| id in open;
        WalkStep(before, tasks, hit, open, gone, id);
        HitMeans(before, inFlight, moment, id);
        if SentBeforeStop(tasks[id].sent, stoppedAt) {
          tasks := tasks[id := Abort(tasks[id], EmergencyStopError)];
          aborted, gone := aborted + 1, gone + {id};
        }
        open := open - {id};
      }
      WalkEnds(before, tasks, hit, gone);
    }

    /**
     * Abort every running task sent at or before the moment.  Walking the in-flight table reaches
     * exactly the attempts the stop must end; a stop no later than the one applied is a no-op.
     */
    method EmergencyStop(moment: int) returns (applied: bool, aborted: nat)
      requires Valid()
      modifies this`stoppedAt, this`tasks
      ensures Valid() && State() == Actor.EmergencyStop(old(State()), moment)
      ensures applied <==> !NotBefore(old(stoppedAt), moment)
      ensures aborted == if applied then |SentBefore(old(tasks), inFlight, moment)| else 0
    {
      if NotBefore(stoppedAt, moment) {
        return false, 0;
      }
      stoppedAt := Since(moment);
      applied := true;
      aborted := AbortSentBefore(moment);
      StopReaches(old(State()), inFlight, moment, tasks);
    }

    /** Graceful stop: no attempt starts any more, every running one is aborted. */
    method Stop()
      requires Valid()
      modifies this`stopping, this`tasks, this`inFlight
      ensures Valid() && State() == Actor.Stop(old(State())) && inFlight == {}
    {
      stopping := true;
      ghost var before := tasks;
      var open := inFlight;
      while open != {}
        invariant stopping && open <= inFlight && inFlight == old(inFlight) && tasks.Keys == before.Keys
        invariant forall id <- before ::
                    tasks[id] == if id in inFlight && id !in open then Abort(before[id], ActorStopped) else before[id]
        decreases open
      {
        var id :| id in open;
        tasks := tasks[id := Abort(tasks[id], ActorStopped)];
        open := open - {id};
      }
      ghost var after := Actor.Stop(old(State()));
      assert forall id <- before :: tasks[id] == after.tasks[id];
      assert tasks == after.tasks;
      inFlight := {};
    }
  }

  // ----- The attempt loop of one task, and how long a caller must wait for it -----

  const RETRY_BASE_DELAY_MS := 100
  const TASK_WAIT_MARGIN_MS := 5_000
  const MAX_TIMER_MS := 2_147_483_647

  /**
   * What the world does around one attempt: the actor's state when it begins (stops included), how
   * the race ends and after how long, whether the completed record is published, and the actor's
   * state in the catch block.
   */
  datatype Around = Around(before: State, outcome: Outcome, ms: nat, published: bool, atCatch: State)

  /** The turns of the state machine in one attempt: begin, settle, and publish when it returned. */
  function Attempt(t: Task, a: Around, n: nat, retryOnTimeout: bool): Task {
    var begun := BeginAttempt(a.before, t, n);
    if !begun.phase.Running? then begun
    else
      var settled := AfterSettling(a.atCatch, begun.(phase := Settled(n, a.outcome)), retryOnTimeout);
      if settled.phase.Announcing? then AfterPublish(a.atCatch, settled, a.published, retryOnTimeout) else settled
  }

  /** The task after up to n attempts: the next one begins only when the task is backing off. */
  ghost function AfterAttempts(sent: Timestamp, world: seq<Around>, n: nat, retryOnTimeout: bool): Task
    requires n <= |world|
  {
    if n == 0 then Task(sent, Guarding, 0, 0, 0, [], 0)
    else
      var t := AfterAttempts(sent, world, n - 1, retryOnTimeout);
      if t.phase.Guarding? || t.phase.BackingOff? then Attempt(t, world[n - 1], n, retryOnTimeout) else t
  }

  /** Between two attempts, nothing recorded or reported yet. */
  predicate Waiting(t: Task, sent: Timestamp, calls: nat) {
    && (t.phase.Guarding? || t.phase.BackingOff?)
    && t.sent == sent && t.calls == calls && t.records == [] && t.failures == 0
  }

  predicate Ends(t: Task, record: Terminal, calls: nat, failures: nat) {
    && t.phase == (if record.Completed? then Done else Burying(record))
    && t.records == (if record.Completed? then [Completed] else [])
    && t.calls == calls && t.failures == failures
  }

  /** Once the loop is left the task stays as it is. */
  lemma {:induction false} LeftForGood(sent: Timestamp, world: seq<Around>, n: nat, m: nat, retryOnTimeout: bool)
    requires n <= m <= |world|
    requires var p := AfterAttempts(sent, world, n, retryOnTimeout).phase; !p.Guarding? && !p.BackingOff?
    ensures AfterAttempts(sent, world, m, retryOnTimeout) == AfterAttempts(sent, world, n, retryOnTimeout)
    decreases m
  {
    if n < m { LeftForGood(sent, world, n, m - 1, retryOnTimeout); }
  }

  lemma InterruptionsAreStops(s: State, sent: Timestamp)
    ensures var i := Interruption(s, sent); i.Some? ==> i.value.EmergencyStopError? || i.value.ActorStopped?
  {
  }

  /** What one attempt's turns come to. */
  lemma NthAttempt(sent: Timestamp, world: seq<Around>, n: nat, retryOnTimeout: bool)
    requires 1 <= n <= |world| == RETRY_ATTEMPTS
    requires Waiting(AfterAttempts(sent, world, n - 1, retryOnTimeout), sent, n - 1)
    ensures var t, a := AfterAttempts(sent, world, n, retryOnTimeout), world[n - 1];
            var before := Interruption(a.before, sent);
            var e := if a.outcome == Returned then Plain("publish failed") else a.outcome.error;
            var final := FinalError(e, n, Interruption(a.atCatch, sent), retryOnTimeout);
            if before.Some? then Ends(t, DeadLetter(before.value), n - 1, if before.value.TaskTimeout? then 1 else 0)
            else if a.outcome == Returned && a.published then Ends(t, Completed, n, 0)
            else if final.Some? then Ends(t, DeadLetter(final.value), n, if final.value.TaskTimeout? then 1 else 0)
            else if n < RETRY_ATTEMPTS then Waiting(t, sent, n)
            else Ends(t, DeadLetter(e), n, 1)
  {
    hide Interruption, FinalError;
  }

  /** The attempt failed in a way that leaves room for another one. */
  predicate Retried(a: Around, sent: Timestamp, retryOnTimeout: bool) {
    && Interruption(a.before, sent).None? && Interruption(a.atCatch, sent).None?
    && match a.outcome
       case Returned => !a.published
       case Raised(e) => e.Plain? || (e.TaskTimeout? && retryOnTimeout)
  }

  /** A non-retryable error other than a timeout. */
  predicate EndsAtOnce(e: Error) {
    e.EmergencyStopError? || e.ActorStopped? || e.Final?
  }

  lemma Left(sent: Timestamp, world: seq<Around>, n: nat, retryOnTimeout: bool,
             record: Terminal, calls: nat, failures: nat)
    requires n <= |world| == RETRY_ATTEMPTS
    requires Ends(AfterAttempts(sent, world, n, retryOnTimeout), record, calls, failures)
    ensures Ends(AfterAttempts(sent, world, RETRY_ATTEMPTS, retryOnTimeout), record, calls, failures)
  {
    LeftForGood(sent, world, n, RETRY_ATTEMPTS, retryOnTimeout);
  }

  /** What the loop has to say of its result. */
  ghost predicate LoopKeepsItsWord(world: seq<Around>, sent: Timestamp, retryOnTimeout: bool,
                                   record: Terminal, calls: nat, failures: nat)
    requires |world| == RETRY_ATTEMPTS
  {
    && calls <= RETRY_ATTEMPTS && failures <= 1 && !record.Refused?
    && (record.Completed? ==> calls >= 1 && world[calls - 1].outcome == Returned && world[calls - 1].published)
    && (forall n :: 0 <= n < calls - 1 ==> Retried(world[n], sent, retryOnTimeout))
    && (failures == 1 <==> record.DeadLetter? && (record.error.TaskTimeout? || record.error.Plain?))
    && (record.DeadLetter? && record.error.Plain? ==>
          calls == RETRY_ATTEMPTS && forall a <- world :: Retried(a, sent, retryOnTimeout))
    && (record == DeadLetter(TaskTimeout) ==>
          calls >= 1 && world[calls - 1].outcome == Raised(TaskTimeout) &&
          (retryOnTimeout ==> calls == RETRY_ATTEMPTS || Interruption(world[calls - 1].atCatch, sent).Some?))
    && (forall n :: 0 <= n < calls && world[n].outcome.Raised? && EndsAtOnce(world[n].outcome.error) ==>
          n == calls - 1 && record == DeadLetter(world[n].outcome.error))
  }

  /** How the n-th attempt ends the task. */
  predicate EndsRightly(a: Around, sent: Timestamp, retryOnTimeout: bool, n: nat,
                        record: Terminal, calls: nat, failures: nat) {
    var before := Interruption(a.before, sent);
    if before.Some? then record == DeadLetter(before.value) && calls == n - 1 && failures == 0
    else
      && calls == n && !record.Refused?
      && (record.Completed? <==> a.outcome == Returned && a.published)
      && failures == (if record.DeadLetter? && (record.error.TaskTimeout? || record.error.Plain?) then 1 else 0)
      && (record.DeadLetter? && record.error.Plain? ==> n == RETRY_ATTEMPTS && Retried(a, sent, retryOnTimeout))
      && (record == DeadLetter(TaskTimeout) ==>
            a.outcome == Raised(TaskTimeout) &&
            (retryOnTimeout ==> n == RETRY_ATTEMPTS || Interruption(a.atCatch, sent).Some?))
      && (a.outcome.Raised? && EndsAtOnce(a.outcome.error) ==> record == DeadLetter(a.outcome.error))
  }

  lemma NthMeans(sent: Timestamp, world: seq<Around>, n: nat, retryOnTimeout: bool,
                 record: Terminal, calls: nat, failures: nat)
    requires 1 <= n <= |world| == RETRY_ATTEMPTS
    requires Waiting(AfterAttempts(sent, world, n - 1, retryOnTimeout), sent, n - 1)
    requires Ends(AfterAttempts(sent, world, RETRY_ATTEMPTS, retryOnTimeout), record, calls, failures)
    ensures var t := AfterAttempts(sent, world, n, retryOnTimeout);
            if n < RETRY_ATTEMPTS && Waiting(t, sent, n) then
              Retried(world[n - 1], sent, retryOnTimeout) && Interruption(world[n - 1].before, sent).None?
            else EndsRightly(world[n - 1], sent, retryOnTimeout, n, record, calls, failures)
  {
    NthAttempt(sent, world, n, retryOnTimeout);
    InterruptionsAreStops(world[n - 1].before, sent);
    InterruptionsAreStops(world[n - 1].atCatch, sent);
    if !(n < RETRY_ATTEMPTS && Waiting(AfterAttempts(sent, world, n, retryOnTimeout), sent, n)) {
      LeftForGood(sent, world, n, RETRY_ATTEMPTS, retryOnTimeout);
    }
    hide AfterAttempts, Interruption;
  }

  lemma WordAt(world: seq<Around>, sent: Timestamp, retryOnTimeout: bool, n: nat,
               record: Terminal, calls: nat, failures: nat)
    requires 1 <= n <= |world| == RETRY_ATTEMPTS
    requires forall k :: 0 <= k < n - 1 ==> Retried(world[k], sent, retryOnTimeout)
    requires EndsRightly(world[n - 1], sent, retryOnTimeout, n, record, calls, failures)
    ensures LoopKeepsItsWord(world, sent, retryOnTimeout, record, calls, failures)
  {
    InterruptionsAreStops(world[n - 1].before, sent);
    hide Interruption;
    assert forall k :: 0 <= k < n - 1 && world[k].outcome.Raised? ==> !EndsAtOnce(world[k].outcome.error);
  }

  lemma LoopMeans(world: seq<Around>, sent: Timestamp, retryOnTimeout: bool,
                  record: Terminal, calls: nat, failures: nat)
    requires |world| == RETRY_ATTEMPTS
    requires Ends(AfterAttempts(sent, world, RETRY_ATTEMPTS, retryOnTimeout), record, calls, failures)
    ensures LoopKeepsItsWord(world, sent, retryOnTimeout, record, calls, failures)
  {
    assert Waiting(AfterAttempts(sent, world, 0, retryOnTimeout), sent, 0);
    hide AfterAttempts, Waiting, Ends, Interruption, EndsRightly, LoopKeepsItsWord, Retried;
    NthMeans(sent, world, 1, retryOnTimeout, record, calls, failures);
    if !Waiting(AfterAttempts(sent, world, 1, retryOnTimeout), sent, 1) {
      WordAt(world, sent, retryOnTimeout, 1, record, calls, failures);
      return;
    }
    NthMeans(sent, world, 2, retryOnTimeout, record, calls, failures);
    if !Waiting(AfterAttempts(sent, world, 2, retryOnTimeout), sent, 2) {
      WordAt(world, sent, retryOnTimeout, 2, record, calls, failures);
      return;
    }
    NthMeans(sent, world, 3, retryOnTimeout, record, calls, failures);
    WordAt(world, sent, retryOnTimeout, 3, record, calls, failures);
  }

  /**
   * The loop of executeWithRetries leaves the task exactly as the turns of the state machine do: with
   * the record the machine buries or publishes, its handler calls and its breaker failures.  So at
   * most three handler calls, one record, a completion only by the last call, the breaker told of a
   * failure exactly for a final timeout or exhausted retries; and a bound on the time it takes.
   */
  method ExecuteWithRetries(world: seq<Around>, sent: Timestamp, retryOnTimeout: bool, timeoutMs: nat)
    returns (record: Terminal, calls: nat, failures: nat, elapsed: nat)
    requires |world| == RETRY_ATTEMPTS
    requires forall a <- world :: a.ms <= timeoutMs
    ensures Ends(AfterAttempts(sent, world, RETRY_ATTEMPTS, retryOnTimeout), record, calls, failures)
    ensures LoopKeepsItsWord(world, sent, retryOnTimeout, record, calls, failures)
    ensures elapsed <= 3 * timeoutMs + 300
  {
    assert Waiting(AfterAttempts(sent, world, 0, retryOnTimeout), sent, 0);
    hide AfterAttempts, Waiting, Ends, Interruption, LoopKeepsItsWord;
    var attempt := 1;
    var lastError := Plain("Max retries exceeded");
    calls, failures, elapsed := 0, 0, 0;
    while attempt <= RETRY_ATTEMPTS
      invariant 1 <= attempt <= RETRY_ATTEMPTS + 1
      invariant calls == attempt - 1 && failures == 0
      invariant var t := AfterAttempts(sent, world, attempt - 1, retryOnTimeout);
                if attempt <= RETRY_ATTEMPTS then Waiting(t, sent, calls) else Ends(t, DeadLetter(lastError), calls, 1)
      invariant elapsed <= calls * timeoutMs +
                           (if attempt == 1 then 0 else if attempt == 2 then 1 else 3) * RETRY_BASE_DELAY_MS
    {
      var a := world[attempt - 1];
      assert a in world;
      NthAttempt(sent, world, attempt, retryOnTimeout);
      InterruptionsAreStops(a.before, sent);
      var interrupted := Interruption(a.before, sent);
      if interrupted.Some? {
        record := DeadLetter(interrupted.value);
        Left(sent, world, attempt, retryOnTimeout, record, calls, failures);
        LoopMeans(world, sent, retryOnTimeout, record, calls, failures);
        return;
      }
      calls := calls + 1;
      elapsed := elapsed + a.ms;
      if a.outcome == Returned && a.published {
        record := Completed;
        Left(sent, world, attempt, retryOnTimeout, record, calls, failures);
        LoopMeans(world, sent, retryOnTimeout, record, calls, failures);
        return;
      }
      var e := if a.outcome == Returned then Plain("publish failed") else a.outcome.error;
      var final := FinalError(e, attempt, Interruption(a.atCatch, sent), retryOnTimeout);
      if final.Some? {
        if final.value.TaskTimeout? { failures := 1; }
        record := DeadLetter(final.value);
        Left(sent, world, attempt, retryOnTimeout, record, calls, failures);
        LoopMeans(world, sent, retryOnTimeout, record, calls, failures);
        return;
      }
      lastError := e;
      if attempt < RETRY_ATTEMPTS {
        elapsed := elapsed + RETRY_BASE_DELAY_MS * attempt;
      }
      attempt := attempt + 1;
    }
    failures := 1;
    record := DeadLetter(lastError);
    LoopMeans(world, sent, retryOnTimeout, record, calls, failures);
  }

  function Min(a: nat, b: nat): nat {
    if a < b then a else b
  }

  /** The wait of a retrying caller: every attempt can time out, plus the back-off, plus a margin. */
  method TaskWaitMs(attemptTimeoutMs: nat, retryOnTimeout: bool) returns (total: nat)
    ensures total <= MAX_TIMER_MS
    ensures var wait := if retryOnTimeout then 3 * attemptTimeoutMs + 300 + 5_000 else attemptTimeoutMs;
            total == if wait <= 2_147_483_647 then wait else 2_147_483_647
  {
    if !retryOnTimeout {
      return Min(attemptTimeoutMs, MAX_TIMER_MS);
    }
    total := attemptTimeoutMs * RETRY_ATTEMPTS + TASK_WAIT_MARGIN_MS;
    var attempt := 1;
    while attempt < RETRY_ATTEMPTS
      invariant 1 <= attempt <= RETRY_ATTEMPTS
      invariant total == attemptTimeoutMs * RETRY_ATTEMPTS + TASK_WAIT_MARGIN_MS +
                         RETRY_BASE_DELAY_MS * (if attempt == 1 then 0 else if attempt == 2 then 1 else 3)
    {
      total := total + RETRY_BASE_DELAY_MS * attempt;
      attempt := attempt + 1;
    }
    total := Min(total, MAX_TIMER_MS);
  }

  /** The caller's wait covers the worker: a whole run of the attempt loop fits in it, margin to spare. */
  method WaitCoversWorker(world: seq<Around>, sent: Timestamp, timeoutMs: nat) returns (elapsed: nat, wait: nat)
    requires |world| == RETRY_ATTEMPTS
    requires forall a <- world :: a.ms <= timeoutMs
    ensures wait < 2_147_483_647 ==> elapsed <= wait - 5_000
  {
    var _, _, _, ms := ExecuteWithRetries(world, sent, true, timeoutMs);
    elapsed := ms;
    wait := TaskWaitMs(timeoutMs, true);
  }
}
