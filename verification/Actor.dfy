/**
 * The life of the tasks of one actor (src/application/actor/AgentActor.ts) as a state machine:
 * guards, attempts, back-off, timeouts, node stop and emergency stop, in every interleaving.
 */
module Actor {
  import opened Budget

  const RETRY_ATTEMPTS := 3

  /** A task's timestamp; the wire can carry something that is not a finite number. */
  datatype Timestamp = At(ms: int) | NotFinite

  /** The latest emergency stop: none yet (minus infinity), or its moment. */
  datatype Cutoff = Never | Since(moment: int)

  predicate NotBefore(c: Cutoff, moment: int) {
    c.Since? && moment <= c.moment
  }

  /** Sent at or before the stop; a timestamp that proves nothing counts as sent before it. */
  predicate SentBeforeStop(t: Timestamp, c: Cutoff) {
    match t
    case NotFinite => c.Since?
    case At(ms) => NotBefore(c, ms)
  }

  /** A stop no later than the one applied changes nothing. */
  function Later(c: Cutoff, moment: int): Cutoff {
    if NotBefore(c, moment) then c else Since(moment)
  }

  datatype Error =
    | EmergencyStopError
    | ActorStopped
    | TaskTimeout
    | Final(reasonCode: string)  // any other NonRetryableError
    | Plain(message: string)     // everything else a handler or a publish can throw

  datatype Blocked = BreakerOpen | Firewall | AdmissionGate

  /** What ends a task: one record on the completed or on the failed channel. */
  datatype Terminal = Completed | DeadLetter(error: Error) | Refused(guard: Blocked)

  datatype Outcome = Returned | Raised(error: Error)

  datatype Phase =
    | Ignored                            // addressed to another agent
    | Guarding
    | Running(attempt: nat)              // the race of handler, timeout and abort is open
    | Settled(attempt: nat, outcome: Outcome)
    | Announcing(attempt: nat)           // publishing on the completed channel
    | BackingOff(attempt: nat)
    | Burying(record: Terminal)          // publishing on the failed channel
    | Done
    | Escaped                            // the dead-letter publish itself failed

  /**
   * One delivery.  `calls` counts handler calls, `successes` and `failures` what the breaker was
   * told, `records` what was published, `misses` the publishes that failed.
   */
  datatype Task = Task(
    sent: Timestamp, phase: Phase, calls: nat, successes: nat, failures: nat, records: seq<Terminal>, misses: nat)

  datatype State = State(cutoff: Cutoff, stopping: bool, tasks: map<nat, Task>)

  const START := State(Never, false, map[])

  /** Why no further attempt may start: an emergency stop, then a drain, else nothing. */
  function Interruption(s: State, sent: Timestamp): Option<Error> {
    if SentBeforeStop(sent, s.cutoff) then Some(EmergencyStopError)
    else if s.stopping then Some(ActorStopped)
    else None
  }

  /** The error that ends the task on this attempt, or none when another attempt may run. */
  function FinalError(e: Error, attempt: nat, interruption: Option<Error>, retryOnTimeout: bool): Option<Error> {
    var final := if e.Plain? then interruption else Some(e);
    var retriesTimeout :=
      retryOnTimeout && interruption.None? && attempt < RETRY_ATTEMPTS && final == Some(TaskTimeout);
    if retriesTimeout then None else final
  }

  /** failNonRetryable: a timeout is a downstream fault, the other final errors are not. */
  function Fail(t: Task, e: Error): Task {
    t.(phase := Burying(DeadLetter(e)), failures := t.failures + if e.TaskTimeout? then 1 else 0)
  }

  /** The top of the attempt loop: refuse, or call the handler. */
  function BeginAttempt(s: State, t: Task, attempt: nat): Task {
    var interruption := Interruption(s, t.sent);
    if interruption.Some? then Fail(t, interruption.value)
    else t.(phase := Running(attempt), calls := t.calls + 1)
  }

  /** The catch block: end the task, wait for the next attempt, or give up. */
  function Catch(s: State, t: Task, attempt: nat, e: Error, retryOnTimeout: bool): Task {
    var final := FinalError(e, attempt, Interruption(s, t.sent), retryOnTimeout);
    if final.Some? then Fail(t, final.value)
    else if attempt < RETRY_ATTEMPTS then t.(phase := BackingOff(attempt))
    else t.(phase := Burying(DeadLetter(e)), failures := t.failures + 1)
  }

  /** processTask up to its first await. */
  function Receive(s: State, sent: Timestamp, addressed: bool): Task {
    var t := Task(sent, Guarding, 0, 0, 0, [], 0);
    if !addressed then t.(phase := Ignored)
    else if SentBeforeStop(sent, s.cutoff) then t.(phase := Burying(DeadLetter(EmergencyStopError)))
    else if s.stopping then t.(phase := Burying(DeadLetter(ActorStopped)))
    else t
  }

  /** An abort settles the race of a running attempt; whatever settled first wins. */
  function Abort(t: Task, e: Error): Task {
    if t.phase.Running? then t.(phase := Settled(t.phase.attempt, Raised(e))) else t
  }

  function EmergencyStop(s: State, moment: int): State {
    if NotBefore(s.cutoff, moment) then s
    else
      s.(cutoff := Since(moment),
         tasks := map id | id in s.tasks ::
                    if SentBeforeStop(s.tasks[id].sent, Since(moment)) then Abort(s.tasks[id], EmergencyStopError)
                    else s.tasks[id])
  }

  function Stop(s: State): State {
    s.(stopping := true, tasks := map id | id in s.tasks :: Abort(s.tasks[id], ActorStopped))
  }

  datatype Event =
    | Deliver(id: nat, sent: Timestamp, addressed: bool)
    | GuardsDecide(id: nat, blocked: Option<Blocked>)
    | HandlerSettles(id: nat, outcome: Outcome)
    | TimesOut(id: nat)
    | Continue(id: nat)
    | PublishSettles(id: nat, ok: bool)
    | BackoffElapses(id: nat)
    | StopAll(moment: int)
    | NodeStop

  predicate Enabled(s: State, e: Event) {
    match e
    case Deliver(id, _, _) => id !in s.tasks
    case GuardsDecide(id, _) => id in s.tasks && s.tasks[id].phase.Guarding?
    case HandlerSettles(id, _) => id in s.tasks && s.tasks[id].phase.Running?
    case TimesOut(id) => id in s.tasks && s.tasks[id].phase.Running?
    case Continue(id) => id in s.tasks && s.tasks[id].phase.Settled?
    case PublishSettles(id, _) => id in s.tasks && (s.tasks[id].phase.Announcing? || s.tasks[id].phase.Burying?)
    case BackoffElapses(id) => id in s.tasks && s.tasks[id].phase.BackingOff?
    case StopAll(_) => true
    case NodeStop => true
  }

  function AfterSettling(s: State, t: Task, retryOnTimeout: bool): Task
    requires t.phase.Settled?
  {
    match t.phase.outcome
    case Returned => t.(phase := Announcing(t.phase.attempt), successes := t.successes + 1)
    case Raised(e) => Catch(s, t, t.phase.attempt, e, retryOnTimeout)
  }

  function AfterPublish(s: State, t: Task, ok: bool, retryOnTimeout: bool): Task
    requires t.phase.Announcing? || t.phase.Burying?
  {
    if t.phase.Burying? then
      if ok then t.(phase := Done, records := t.records + [t.phase.record])
      else t.(phase := Escaped, misses := t.misses + 1)
    else if ok then t.(phase := Done, records := t.records + [Completed])
    else Catch(s, t.(misses := t.misses + 1), t.phase.attempt, Plain("publish failed"), retryOnTimeout)
  }

  function AfterGuards(s: State, t: Task, blocked: Option<Blocked>): Task {
    if blocked.Some? then t.(phase := Burying(Refused(blocked.value))) else BeginAttempt(s, t, 1)
  }

  /** The task's own turns. */
  function Turn(s: State, e: Event, retryOnTimeout: bool): (t: Task)
    requires Enabled(s, e) && !e.Deliver? && !e.StopAll? && !e.NodeStop?
  {
    var t := s.tasks[e.id];
    match e
    case GuardsDecide(_, blocked) => AfterGuards(s, t, blocked)
    case HandlerSettles(_, outcome) => t.(phase := Settled(t.phase.attempt, outcome))
    case TimesOut(_) => Abort(t, TaskTimeout)
    case Continue(_) => AfterSettling(s, t, retryOnTimeout)
    case PublishSettles(_, ok) => AfterPublish(s, t, ok, retryOnTimeout)
    case BackoffElapses(_) => BeginAttempt(s, t, t.phase.attempt + 1)
  }

  function Next(s: State, e: Event, retryOnTimeout: bool): State
    requires Enabled(s, e)
  {
    match e
    case Deliver(id, sent, addressed) => s.(tasks := s.tasks[id := Receive(s, sent, addressed)])
    case StopAll(moment) => EmergencyStop(s, moment)
    case NodeStop => Stop(s)
    case _ => s.(tasks := s.tasks[e.id := Turn(s, e, retryOnTimeout)])
  }

  ghost predicate IsRun(ss: seq<State>, es: seq<Event>, retryOnTimeout: bool) {
    && |ss| == |es| + 1 && ss[0] == START
    && forall k :: 0 <= k < |es| ==> Enabled(ss[k], es[k]) && ss[k + 1] == Next(ss[k], es[k], retryOnTimeout)
  }

  // ----- What holds in every reachable state -----

  /** The attempt a task has reached. */
  function Reached(p: Phase): nat {
    match p
    case Running(n) => n
    case Settled(n, _) => n
    case Announcing(n) => n
    case BackingOff(n) => n
    case _ => 0
  }

  predicate InLoop(p: Phase) {
    p.Running? || p.Settled? || p.Announcing? || p.BackingOff?
  }

  /** The bookkeeping of one task, publishes included that failed. */
  predicate Tidy(t: Task) {
    && t.calls <= RETRY_ATTEMPTS
    && (InLoop(t.phase) ==> 1 <= Reached(t.phase) == t.calls)
    && (t.phase.BackingOff? ==> t.calls < RETRY_ATTEMPTS)
    && (t.phase.Guarding? || t.phase.Ignored? ==> t.calls == 0)
    && (t.phase.Done? <==> |t.records| == 1)
    && (t.phase.Escaped? ==> t.misses > 0)
    && |t.records| <= 1
    && t.failures <= 1 && (InLoop(t.phase) || t.phase.Guarding? || t.phase.Ignored? ==> t.failures == 0)
    && (t.phase.Burying? && t.phase.record.Refused? ==> t.calls == 0)
    && (t.phase.Burying? ==> t.phase.record != Completed)
    && (t.phase.Burying? ==> BreakerToldOfFailure(t, t.phase.record))
    && (t.phase.Done? ==> BreakerToldOfFailure(t, t.records[0]))
    && (t.phase.Done? && t.records[0].Refused? ==> t.calls == 0)
    && t.successes <= t.misses + (if t.phase.Announcing? || (t.phase.Done? && t.records[0].Completed?) then 1 else 0)
    && (t.phase.Announcing? || (t.phase.Done? && t.records[0].Completed?) ==> t.successes >= 1)
  }

  /** The breaker is told of a failure exactly for a final timeout or after the last attempt failed. */
  predicate BreakerToldOfFailure(t: Task, record: Terminal) {
    t.failures == 1 <==> record.DeadLetter? && (record.error.TaskTimeout? || record.error.Plain?)
  }

  /** No attempt of a task sent at or before the stop, or of any task of a stopping actor, is running. */
  predicate Obeys(s: State, t: Task) {
    t.phase.Running? ==> !SentBeforeStop(t.sent, s.cutoff) && !s.stopping
  }

  ghost predicate Inv(s: State) {
    forall id <- s.tasks :: Tidy(s.tasks[id]) && Obeys(s, s.tasks[id])
  }

  lemma TurnTidy(s: State, e: Event, retryOnTimeout: bool)
    requires Enabled(s, e) && !e.Deliver? && !e.StopAll? && !e.NodeStop?
    requires Tidy(s.tasks[e.id]) && Obeys(s, s.tasks[e.id])
    ensures Tidy(Turn(s, e, retryOnTimeout)) && Obeys(s, Turn(s, e, retryOnTimeout))
  {
  }

  lemma Step(s: State, e: Event, retryOnTimeout: bool)
    requires Inv(s) && Enabled(s, e)
    ensures Inv(Next(s, e, retryOnTimeout))
  {
    if !e.Deliver? && !e.StopAll? && !e.NodeStop? {
      TurnTidy(s, e, retryOnTimeout);
      hide Tidy, Turn;
    }
  }

  lemma {:induction false} Run(ss: seq<State>, es: seq<Event>, retryOnTimeout: bool, k: nat)
    requires IsRun(ss, es, retryOnTimeout) && k < |ss|
    ensures Inv(ss[k])
  {
    if k > 0 {
      Run(ss, es, retryOnTimeout, k - 1);
      Step(ss[k - 1], es[k - 1], retryOnTimeout);
    }
  }
}
