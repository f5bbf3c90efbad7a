/**
 * The completion router (completion-router.ts) as a state machine over its turns: one subscription
 * hub that hands each result to the waiter of its task id.
 */
module CompletionRouter {
  import opened Budget

  type TaskId = string

  datatype Outcome = Resolved | AgentFailed | TimedOut | Aborted | SubscribeFailed | Duplicate

  /** A promise handed out by wait: `accepted` unless it was refused at once; the first settlement counts. */
  datatype Promise = Promise(task: TaskId, accepted: bool, result: Option<Outcome>)

  /** An abort listener left on a signal.  It remembers its waiter but looks the task id up when it fires. */
  datatype Listener = Listener(signal: nat, task: TaskId, waiter: nat)

  datatype Queue = CompletedQueue | FailedQueue

  /**
   * The three maps of the router hold the waiter whose resolver, rejecter or timer is stored.
   * `subscribed` are the queues marked as subscribed, `aborted` the signals that have aborted.
   */
  datatype Router = Router(
    resolvers: map<TaskId, nat>, rejecters: map<TaskId, nat>, timers: map<TaskId, nat>, subscribed: set<Queue>,
    listeners: seq<Listener>, aborted: set<nat>, promises: map<nat, Promise>)

  const NEW_ROUTER := Router(map[], map[], map[], {}, [], {}, map[])

  datatype Event =
    | Wait(w: nat, task: TaskId, with: Option<nat>, throwing: set<Queue>)
    | Completes(task: TaskId)
    | Fails(task: TaskId)
    | TimesOut(task: TaskId)
    | Aborts(signal: nat)
    | SubscribeRejects(queue: Queue)

  function Settle(r: Router, w: nat, outcome: Outcome): Router {
    if w in r.promises && r.promises[w].result.None?
    then r.(promises := r.promises[w := r.promises[w].(result := Some(outcome))])
    else r
  }

  function ClearPending(r: Router, task: TaskId): Router {
    r.(resolvers := r.resolvers - {task}, rejecters := r.rejecters - {task}, timers := r.timers - {task})
  }

  /** Every waiter with a stored rejecter is rejected and forgotten. */
  function RejectAllPending(r: Router): Router {
    r.(resolvers := r.resolvers - r.rejecters.Keys, rejecters := map[], timers := r.timers - r.rejecters.Keys,
       promises := map w | w in r.promises ::
                     if w in r.rejecters.Values && r.promises[w].result.None?
                     then r.promises[w].(result := Some(SubscribeFailed)) else r.promises[w])
  }

  /** A failed subscribe marks the queue unsubscribed and rejects every waiter. */
  function SubscribeFailure(r: Router, q: Queue): Router {
    RejectAllPending(r.(subscribed := r.subscribed - {q}))
  }

  function Subscribe(r: Router, q: Queue, throwing: set<Queue>): Router {
    if q in r.subscribed then r
    else if q in throwing then SubscribeFailure(r, q)
    else r.(subscribed := r.subscribed + {q})
  }

  /** ensureSubscribed; `throwing` are the queues whose subscribe call throws at once. */
  function EnsureSubscribed(r: Router, throwing: set<Queue>): Router {
    Subscribe(Subscribe(r, CompletedQueue, throwing), FailedQueue, throwing)
  }

  predicate Accepts(r: Router, task: TaskId, signal: Option<nat>) {
    task !in r.resolvers && (signal.Some? ==> signal.value !in r.aborted)
  }

  /** The accepted wait: listener, resolver, rejecter and timer in one turn. */
  function Register(r: Router, w: nat, task: TaskId, signal: Option<nat>): Router {
    r.(listeners := if signal.Some? then r.listeners + [Listener(signal.value, task, w)] else r.listeners,
       resolvers := r.resolvers[task := w], rejecters := r.rejecters[task := w], timers := r.timers[task := w],
       promises := r.promises[w := Promise(task, true, None)])
  }

  function BeginWait(r: Router, w: nat, task: TaskId, signal: Option<nat>, throwing: set<Queue>): Router {
    if task in r.resolvers then r.(promises := r.promises[w := Promise(task, false, Some(Duplicate))])
    else if !Accepts(r, task, signal) then r.(promises := r.promises[w := Promise(task, false, Some(Aborted))])
    else EnsureSubscribed(Register(r, w, task, signal), throwing)
  }

  function Fire(r: Router, l: Listener): Router {
    if l.task in r.resolvers then Settle(ClearPending(r, l.task), l.waiter, Aborted) else r
  }

  /** The listeners of the signal run in the order they were added. */
  function FireAll(r: Router, ls: seq<Listener>, signal: nat): Router {
    if ls == [] then r
    else
      var before := FireAll(r, ls[..|ls| - 1], signal);
      var last := ls[|ls| - 1];
      if last.signal == signal then Fire(before, last) else before
  }

  function Others(ls: seq<Listener>, signal: nat): seq<Listener> {
    if ls == [] then []
    else Others(ls[..|ls| - 1], signal) + if ls[|ls| - 1].signal == signal then [] else [ls[|ls| - 1]]
  }

  /** Settle the waiter stored in one of the maps, if any. */
  function Answer(r: Router, stored: map<TaskId, nat>, task: TaskId, outcome: Outcome): Router {
    if task in stored then Settle(ClearPending(r, task), stored[task], outcome) else r
  }

  predicate Enabled(r: Router, e: Event) {
    match e
    case Wait(w, _, _, _) => w !in r.promises
    case TimesOut(task) => task in r.timers
    case Aborts(signal) => signal !in r.aborted
    case SubscribeRejects(q) => q in r.subscribed
    case _ => true
  }

  function Next(r: Router, e: Event): Router
    requires Enabled(r, e)
  {
    match e
    case Wait(w, task, signal, throwing) => BeginWait(r, w, task, signal, throwing)
    case Completes(task) => Answer(r, r.resolvers, task, Resolved)
    case Fails(task) => Answer(r, r.rejecters, task, AgentFailed)
    case TimesOut(task) => if task in r.resolvers then Answer(r, r.timers, task, TimedOut) else r
    case Aborts(signal) =>
      FireAll(r, r.listeners, signal).(aborted := r.aborted + {signal}, listeners := Others(r.listeners, signal))
    case SubscribeRejects(q) => SubscribeFailure(r, q)
  }

  ghost predicate IsRun(rs: seq<Router>, es: seq<Event>) {
    && |rs| == |es| + 1 && rs[0] == NEW_ROUTER
    && forall k :: 0 <= k < |es| ==> Enabled(rs[k], es[k]) && rs[k + 1] == Next(rs[k], es[k])
  }

  // ----- What holds in every state -----

  predicate Pending(r: Router, w: nat) {
    w in r.promises && r.promises[w].task in r.resolvers && r.resolvers[r.promises[w].task] == w
  }

  predicate Settled(r: Router, w: nat) {
    w in r.promises && r.promises[w].result.Some?
  }

  ghost predicate Inv(r: Router) {
    && r.resolvers == r.rejecters == r.timers
    && (forall t <- r.resolvers ::
          r.resolvers[t] in r.promises && r.promises[r.resolvers[t]] == Promise(t, true, None))
    && (forall l <- r.listeners :: l.waiter in r.promises && r.promises[l.waiter].task == l.task)
    && (forall l <- r.listeners :: l.signal !in r.aborted)
    && (forall w <- r.promises :: !r.promises[w].accepted ==> r.promises[w].result.Some?)
  }

  /** Settled promises stay as they are, no promise disappears, none changes its task. */
  ghost predicate Keeps(r: Router, r': Router) {
    forall w <- r.promises ::
      && w in r'.promises && r'.promises[w].task == r.promises[w].task
      && r'.promises[w].accepted == r.promises[w].accepted
      && (r.promises[w].result.Some? ==> r'.promises[w] == r.promises[w])
  }

  lemma AnswerInv(r: Router, stored: map<TaskId, nat>, task: TaskId, outcome: Outcome)
    requires Inv(r) && stored == r.resolvers
    ensures Inv(Answer(r, stored, task, outcome)) && Keeps(r, Answer(r, stored, task, outcome))
  {
  }

  lemma FireInv(r: Router, l: Listener)
    requires Inv(r) && l.waiter in r.promises && r.promises[l.waiter].task == l.task
    ensures Inv(Fire(r, l)) && Keeps(r, Fire(r, l)) && Fire(r, l).listeners == r.listeners
    ensures Fire(r, l).aborted == r.aborted
  {
  }

  lemma {:induction false} FireAllInv(r: Router, ls: seq<Listener>, signal: nat)
    requires Inv(r) && forall l <- ls :: l.waiter in r.promises && r.promises[l.waiter].task == l.task
    ensures var r' := FireAll(r, ls, signal);
            Inv(r') && Keeps(r, r') && r'.listeners == r.listeners && r'.aborted == r.aborted
  {
    if ls != [] {
      FireAllInv(r, ls[..|ls| - 1], signal);
      assert ls[|ls| - 1] in ls;
      FireInv(FireAll(r, ls[..|ls| - 1], signal), ls[|ls| - 1]);
      hide Fire;
    }
  }

  lemma {:induction false} OthersOnly(ls: seq<Listener>, signal: nat)
    ensures forall l :: l in Others(ls, signal) <==> l in ls && l.signal != signal
  {
    if ls != [] {
      OthersOnly(ls[..|ls| - 1], signal);
      assert forall l :: l in ls <==> l in ls[..|ls| - 1] || l == ls[|ls| - 1];
    }
  }

  lemma SubscribeFailureInv(r: Router, q: Queue)
    requires Inv(r)
    ensures Inv(SubscribeFailure(r, q)) && Keeps(r, SubscribeFailure(r, q))
  {
  }

  lemma SubscribeInv(r: Router, q: Queue, throwing: set<Queue>)
    requires Inv(r)
    ensures Inv(Subscribe(r, q, throwing)) && Keeps(r, Subscribe(r, q, throwing))
  {
    SubscribeFailureInv(r, q);
    hide SubscribeFailure;
  }

  lemma RefuseInv(r: Router, w: nat, task: TaskId, outcome: Outcome)
    requires Inv(r) && w !in r.promises
    ensures var r' := r.(promises := r.promises[w := Promise(task, false, Some(outcome))]); Inv(r') && Keeps(r, r')
  {
  }

  lemma RegisterInv(r: Router, w: nat, task: TaskId, signal: Option<nat>)
    requires Inv(r) && w !in r.promises && Accepts(r, task, signal)
    ensures Inv(Register(r, w, task, signal)) && Keeps(r, Register(r, w, task, signal))
  {
  }

  lemma KeepsOn(a: Router, b: Router, c: Router)
    requires Keeps(a, b) && Keeps(b, c)
    ensures Keeps(a, c)
  {
  }

  lemma BeginWaitInv(r: Router, w: nat, task: TaskId, signal: Option<nat>, throwing: set<Queue>)
    requires Inv(r) && w !in r.promises
    ensures Inv(BeginWait(r, w, task, signal, throwing)) && Keeps(r, BeginWait(r, w, task, signal, throwing))
  {
    RefuseInv(r, w, task, Duplicate);
    RefuseInv(r, w, task, Aborted);
    if Accepts(r, task, signal) {
      var r1 := Register(r, w, task, signal);
      var r2 := Subscribe(r1, CompletedQueue, throwing);
      RegisterInv(r, w, task, signal);
      SubscribeInv(r1, CompletedQueue, throwing);
      SubscribeInv(r2, FailedQueue, throwing);
      KeepsOn(r, r1, r2);
      KeepsOn(r, r2, Subscribe(r2, FailedQueue, throwing));
    }
    hide Register, Subscribe, Inv, Keeps;
  }

  lemma AbortInv(r: Router, signal: nat)
    requires Inv(r) && signal !in r.aborted
    ensures Inv(Next(r, Aborts(signal))) && Keeps(r, Next(r, Aborts(signal)))
  {
    FireAllInv(r, r.listeners, signal);
    OthersOnly(r.listeners, signal);
    hide FireAll, Others;
  }

  lemma Step(r: Router, e: Event)
    requires Inv(r) && Enabled(r, e)
    ensures Inv(Next(r, e)) && Keeps(r, Next(r, e))
  {
    match e
    case Wait(w, task, signal, throwing) => BeginWaitInv(r, w, task, signal, throwing); hide BeginWait;
    case Completes(task) => AnswerInv(r, r.resolvers, task, Resolved); hide Answer;
    case Fails(task) => AnswerInv(r, r.rejecters, task, AgentFailed); hide Answer;
    case TimesOut(task) => AnswerInv(r, r.timers, task, TimedOut); hide Answer;
    case Aborts(signal) => AbortInv(r, signal);
    case SubscribeRejects(q) => SubscribeFailureInv(r, q); hide SubscribeFailure;
  }

  /**
   * The router settles at most once, over every run: the three maps always have the same entries,
   * what is pending is unsettled and its timer still runs, and a settled promise never changes.
   */
  lemma {:induction false} SettlesAtMostOnce(rs: seq<Router>, es: seq<Event>, i: nat, j: nat)
    requires IsRun(rs, es) && i <= j < |rs|
    ensures Inv(rs[j]) && Keeps(rs[i], rs[j])
    ensures rs[j].resolvers == rs[j].rejecters == rs[j].timers
    ensures forall w :: Pending(rs[j], w) ==> !Settled(rs[j], w) && Enabled(rs[j], TimesOut(rs[j].promises[w].task))
    decreases j
  {
    if j > 0 {
      SettlesAtMostOnce(rs, es, if i < j then i else j - 1, j - 1);
      assert Enabled(rs[j - 1], es[j - 1]) && rs[j] == Next(rs[j - 1], es[j - 1]);
      Step(rs[j - 1], es[j - 1]);
      hide Next, Enabled, IsRun;
      if i < j { KeepsOn(rs[i], rs[j - 1], rs[j]); }
    }
  }

  // ----- Nobody is forgotten -----

  /** Whoever is not settled is pending. */
  ghost predicate NobodyForgotten(r: Router) {
    forall w <- r.promises :: Settled(r, w) || Pending(r, w)
  }

  /** A listener of a task that is waited for belongs to its waiter. */
  ghost predicate NoStaleListener(ls: seq<Listener>, resolvers: map<TaskId, nat>) {
    forall l <- ls :: l.task in resolvers ==> resolvers[l.task] == l.waiter
  }

  /** No earlier wait on the task id has left a listener that could still fire. */
  ghost predicate Fresh(r: Router, e: Event) {
    e.Wait? && Accepts(r, e.task, e.with) ==> forall l <- r.listeners :: l.task != e.task
  }

  predicate Fewer(a: map<TaskId, nat>, b: map<TaskId, nat>) {
    forall t <- a :: t in b && b[t] == a[t]
  }

  lemma {:induction false} FireAllForgetsNobody(r: Router, ls: seq<Listener>, signal: nat)
    requires Inv(r) && NobodyForgotten(r) && NoStaleListener(ls, r.resolvers)
    requires forall l <- ls :: l.waiter in r.promises && r.promises[l.waiter].task == l.task
    ensures NobodyForgotten(FireAll(r, ls, signal)) && Fewer(FireAll(r, ls, signal).resolvers, r.resolvers)
  {
    if ls != [] {
      var rest, last := ls[..|ls| - 1], ls[|ls| - 1];
      assert last in ls;
      FireAllForgetsNobody(r, rest, signal);
      FireAllInv(r, rest, signal);
      var r1 := FireAll(r, rest, signal);
      assert last.task in r1.resolvers ==> r1.resolvers[last.task] == last.waiter;
    }
  }

  lemma FailureForgetsNobody(r: Router, q: Queue)
    requires Inv(r) && NobodyForgotten(r)
    ensures NobodyForgotten(SubscribeFailure(r, q)) && Fewer(SubscribeFailure(r, q).resolvers, r.resolvers)
    ensures SubscribeFailure(r, q).listeners == r.listeners
  {
  }

  lemma SubscribeForgetsNobody(r: Router, q: Queue, throwing: set<Queue>)
    requires Inv(r) && NobodyForgotten(r)
    ensures var r' := Subscribe(r, q, throwing);
            NobodyForgotten(r') && Fewer(r'.resolvers, r.resolvers) && r'.listeners == r.listeners
  {
    FailureForgetsNobody(r, q);
    hide SubscribeFailure;
  }

  lemma RegisterForgetsNobody(r: Router, w: nat, task: TaskId, signal: Option<nat>)
    requires Inv(r) && NobodyForgotten(r) && w !in r.promises && Accepts(r, task, signal)
    requires NoStaleListener(r.listeners, r.resolvers) && forall l <- r.listeners :: l.task != task
    ensures var r' := Register(r, w, task, signal); NobodyForgotten(r') && NoStaleListener(r'.listeners, r'.resolvers)
  {
  }

  lemma WaitForgetsNobody(r: Router, e: Event)
    requires Inv(r) && NobodyForgotten(r) && NoStaleListener(r.listeners, r.resolvers)
    requires e.Wait? && Enabled(r, e) && Fresh(r, e)
    ensures NobodyForgotten(Next(r, e)) && NoStaleListener(Next(r, e).listeners, Next(r, e).resolvers)
  {
    if Accepts(r, e.task, e.with) {
      var r1 := Register(r, e.w, e.task, e.with);
      var r2 := Subscribe(r1, CompletedQueue, e.throwing);
      RegisterForgetsNobody(r, e.w, e.task, e.with);
      RegisterInv(r, e.w, e.task, e.with);
      SubscribeForgetsNobody(r1, CompletedQueue, e.throwing);
      SubscribeInv(r1, CompletedQueue, e.throwing);
      SubscribeForgetsNobody(r2, FailedQueue, e.throwing);
      hide Register, Subscribe, Inv, NobodyForgotten;
    }
  }

  lemma AbortForgetsNobody(r: Router, signal: nat)
    requires Inv(r) && NobodyForgotten(r) && NoStaleListener(r.listeners, r.resolvers) && signal !in r.aborted
    ensures var r' := Next(r, Aborts(signal)); NobodyForgotten(r') && NoStaleListener(r'.listeners, r'.resolvers)
  {
    FireAllForgetsNobody(r, r.listeners, signal);
    OthersOnly(r.listeners, signal);
    hide FireAll, Others, Inv;
  }

  lemma StepForgetsNobody(r: Router, e: Event)
    requires Inv(r) && NobodyForgotten(r) && NoStaleListener(r.listeners, r.resolvers) && Enabled(r, e) && Fresh(r, e)
    ensures NobodyForgotten(Next(r, e)) && NoStaleListener(Next(r, e).listeners, Next(r, e).resolvers)
  {
    match e
    case Wait(_, _, _, _) => WaitForgetsNobody(r, e); hide Next;
    case Aborts(signal) => AbortForgetsNobody(r, signal); hide Next;
    case SubscribeRejects(q) => FailureForgetsNobody(r, q); hide SubscribeFailure;
    case _ =>
  }

  /**
   * Exactly once: as long as no task id is waited on again while an earlier listener for it can
   * still fire, every promise is either pending, with a running timer, or settled.
   */
  lemma {:induction false} SettlesExactlyOnce(rs: seq<Router>, es: seq<Event>, k: nat)
    requires IsRun(rs, es) && k < |rs| && forall i :: 0 <= i < k ==> Fresh(rs[i], es[i])
    ensures forall w <- rs[k].promises :: Settled(rs[k], w) <==> !Pending(rs[k], w)
    ensures NobodyForgotten(rs[k]) && NoStaleListener(rs[k].listeners, rs[k].resolvers)
  {
    SettlesAtMostOnce(rs, es, k, k);
    if k > 0 {
      SettlesExactlyOnce(rs, es, k - 1);
      SettlesAtMostOnce(rs, es, k - 1, k - 1);
      assert Enabled(rs[k - 1], es[k - 1]) && rs[k] == Next(rs[k - 1], es[k - 1]) && Fresh(rs[k - 1], es[k - 1]);
      hide Next, Enabled, IsRun, Fresh, Inv;
      StepForgetsNobody(rs[k - 1], es[k - 1]);
    }
  }

  // ----- What a stale listener does -----

  /** The waiter of the first listener for the task on the signal. */
  function FirstFor(ls: seq<Listener>, signal: nat, task: TaskId): Option<nat> {
    if ls == [] then None
    else
      var before := FirstFor(ls[..|ls| - 1], signal, task);
      var last := ls[|ls| - 1];
      if before.None? && last.signal == signal && last.task == task then Some(last.waiter) else before
  }

  /**
   * An abort answers a pending waiter exactly when the first listener for its task id on that
   * signal is its own; when the first is one left by an earlier wait, the waiter is dropped: neither
   * settled nor pending, its timer cleared.
   */
  lemma {:induction false} AbortAnswersExactly(r: Router, ls: seq<Listener>, signal: nat, w: nat)
    requires Inv(r) && Pending(r, w)
    requires forall l <- ls :: l.waiter in r.promises && r.promises[l.waiter].task == l.task
    ensures var first, r' := FirstFor(ls, signal, r.promises[w].task), FireAll(r, ls, signal);
            && Keeps(r, r')
            && (first.None? <==> Pending(r', w))
            && (r'.promises[w].result == if first == Some(w) then Some(Aborted) else None)
            && (first.Some? ==> r.promises[w].task !in r'.timers && r.promises[w].task !in r'.resolvers)
  {
    if ls != [] {
      var rest, last := ls[..|ls| - 1], ls[|ls| - 1];
      assert last in ls;
      AbortAnswersExactly(r, rest, signal, w);
      FireAllInv(r, rest, signal);
      FireInv(FireAll(r, rest, signal), last);
    }
  }

  /** The same task id waited on again under the same signal, after the first wait was answered. */
  lemma WaitedAgain() returns (rs: seq<Router>, es: seq<Event>)
    ensures IsRun(rs, es) && |es| == 3 && !Fresh(rs[2], es[2])
    ensures Pending(rs[3], 1) && rs[3].promises[1].task == "t" && 7 !in rs[3].aborted
    ensures rs[3].listeners == [Listener(7, "t", 0), Listener(7, "t", 1)]
  {
    es := [Wait(0, "t", Some(7), {}), Completes("t"), Wait(1, "t", Some(7), {})];
    var r0 := NEW_ROUTER;
    var r1 := Next(r0, es[0]);
    var r2 := Next(r1, es[1]);
    var r3 := Next(r2, es[2]);
    assert r3.listeners == [Listener(7, "t", 0), Listener(7, "t", 1)] && r3.resolvers == map["t" := 1];
    rs := [r0, r1, r2, r3];
    hide Next, Enabled;
  }

  /** The dropped waiter is real: an abort then leaves the second wait without an answer and without a timer. */
  lemma StaleListenerDropsWaiter() returns (rs: seq<Router>, es: seq<Event>)
    ensures IsRun(rs, es) && |es| == 4 && es[3] == Aborts(7)
    ensures !Fresh(rs[2], es[2]) && Pending(rs[3], 1) && !Settled(rs[4], 1) && !Pending(rs[4], 1)
  {
    var rs3, es3 := WaitedAgain();
    DroppedAt(rs3[3], rs3, es3);
    Extends(rs3, es3, Aborts(7));
    rs, es := rs3 + [Next(rs3[3], Aborts(7))], es3 + [Aborts(7)];
    hide Next, IsRun;
  }

  lemma Extends(rs: seq<Router>, es: seq<Event>, e: Event)
    requires IsRun(rs, es) && Enabled(rs[|es|], e)
    ensures IsRun(rs + [Next(rs[|es|], e)], es + [e])
  {
    hide Next, Enabled;
  }

  lemma DroppedAt(r: Router, rs: seq<Router>, es: seq<Event>)
    requires IsRun(rs, es) && r == rs[|es|] && Pending(r, 1) && 7 !in r.aborted && r.promises[1].task == "t"
    requires r.listeners == [Listener(7, "t", 0), Listener(7, "t", 1)]
    ensures !Settled(Next(r, Aborts(7)), 1) && !Pending(Next(r, Aborts(7)), 1)
  {
    SettlesAtMostOnce(rs, es, |es|, |es|);
    var ls := r.listeners;
    assert ls[..1] == [Listener(7, "t", 0)] && ls[..1][..0] == [];
    assert FirstFor(ls[..1], 7, "t") == Some(0);
    assert FirstFor(ls, 7, "t") == Some(0);
    AbortAnswersExactly(r, r.listeners, 7, 1);
    hide FireAll, Others, FirstFor;
  }

  // ----- What settles a pending wait -----

  /** What a subscribe call does to a pending wait. */
  lemma SubscribeAnswers(r: Router, q: Queue, throwing: set<Queue>, w: nat)
    requires Inv(r) && Pending(r, w)
    ensures var r' := Subscribe(r, q, throwing);
            && w in r'.promises && r'.promises[w].task == r.promises[w].task
            && r'.promises[w].result == (if q !in r.subscribed && q in throwing then Some(SubscribeFailed) else None)
            && (Pending(r', w) <==> r'.promises[w].result.None?)
            && (Pending(r', w) ==> r'.subscribed == r.subscribed + {q})
  {
    assert r.rejecters[r.promises[w].task] == w;
    assert w in r.rejecters.Values;
  }

  lemma RegisterAnswers(r: Router, v: nat, task: TaskId, signal: Option<nat>, w: nat)
    requires Inv(r) && v !in r.promises && Accepts(r, task, signal) && Pending(r, w)
    ensures var r' := Register(r, v, task, signal);
            Pending(r', w) && r'.promises[w] == r.promises[w] && r'.subscribed == r.subscribed
  {
  }

  lemma TwoQueues(a: set<Queue>, b: set<Queue>)
    ensures a <= b <==> (CompletedQueue in a ==> CompletedQueue in b) && (FailedQueue in a ==> FailedQueue in b)
  {
    assert forall q <- a :: q == CompletedQueue || q == FailedQueue;
  }

  /** Another wait leaves a pending one alone, unless it is accepted and a subscribe call that it makes throws. */
  lemma WaitAnswers(r: Router, v: nat, task: TaskId, signal: Option<nat>, throwing: set<Queue>, w: nat)
    requires Inv(r) && Pending(r, w) && v !in r.promises
    ensures var r' := BeginWait(r, v, task, signal, throwing);
            && w in r'.promises
            && r'.promises[w].result == (if Accepts(r, task, signal) && !(throwing <= r.subscribed)
                                         then Some(SubscribeFailed) else None)
            && (Pending(r', w) <==> r'.promises[w].result.None?)
  {
    if Accepts(r, task, signal) {
      var r1 := Register(r, v, task, signal);
      var r2 := Subscribe(r1, CompletedQueue, throwing);
      var r3 := Subscribe(r2, FailedQueue, throwing);
      RegisterInv(r, v, task, signal);
      RegisterAnswers(r, v, task, signal, w);
      SubscribeAnswers(r1, CompletedQueue, throwing, w);
      SubscribeInv(r1, CompletedQueue, throwing);
      SubscribeInv(r2, FailedQueue, throwing);
      if Pending(r2, w) { SubscribeAnswers(r2, FailedQueue, throwing, w); }
      TwoQueues(throwing, r.subscribed);
      hide Register, Subscribe;
    }
  }

  /** Any event but an abort: what it makes of a pending wait. */
  lemma AnswersExactly(r: Router, e: Event, w: nat)
    requires Inv(r) && Pending(r, w) && Enabled(r, e) && !e.Aborts?
    ensures var task, r' := r.promises[w].task, Next(r, e);
            && w in r'.promises
            && r'.promises[w].result ==
               match e {
                 case Completes(t) => if t == task then Some(Resolved) else None
                 case Fails(t) => if t == task then Some(AgentFailed) else None
                 case TimesOut(t) => if t == task then Some(TimedOut) else None
                 case Wait(_, t, signal, throwing) =>
                   if Accepts(r, t, signal) && !(throwing <= r.subscribed) then Some(SubscribeFailed) else None
                 case _ => Some(SubscribeFailed)
               }
    ensures Pending(Next(r, e), w) <==> Next(r, e).promises[w].result.None?
  {
    match e
    case Wait(v, task, signal, throwing) =>
      WaitAnswers(r, v, task, signal, throwing, w);
      hide BeginWait;
    case SubscribeRejects(_) =>
      assert r.rejecters[r.promises[w].task] == w;
      assert w in r.rejecters.Values;
    case _ =>
  }

  /**
   * What becomes of a wait as it is made: refused as a duplicate, refused because its signal has
   * aborted, rejected because a subscribe call throws, or pending with both queues subscribed.
   */
  lemma OwnAnswer(r: Router, w: nat, task: TaskId, signal: Option<nat>, throwing: set<Queue>)
    requires Inv(r) && w !in r.promises
    ensures var r' := Next(r, Wait(w, task, signal, throwing));
            && w in r'.promises && r'.promises[w].task == task
            && r'.promises[w].result ==
               (if task in r.resolvers then Some(Duplicate)
                else if signal.Some? && signal.value in r.aborted then Some(Aborted)
                else if !(throwing <= r.subscribed) then Some(SubscribeFailed)
                else None)
            && (Pending(r', w) <==> r'.promises[w].result.None?)
            && (Pending(r', w) ==> r'.subscribed == {CompletedQueue, FailedQueue})
            && (!Accepts(r, task, signal) ==> r'.(promises := r.promises) == r)
  {
    if Accepts(r, task, signal) {
      var r1 := Register(r, w, task, signal);
      var r2 := Subscribe(r1, CompletedQueue, throwing);
      RegisterInv(r, w, task, signal);
      assert Pending(r1, w) && r1.subscribed == r.subscribed && r1.promises[w] == Promise(task, true, None);
      SubscribeAnswers(r1, CompletedQueue, throwing, w);
      SubscribeInv(r1, CompletedQueue, throwing);
      if Pending(r2, w) {
        SubscribeAnswers(r2, FailedQueue, throwing, w);
        AllQueues(r.subscribed);
      } else {
        SubscribeKeeps(r2, FailedQueue, throwing, w);
      }
      TwoQueues(throwing, r.subscribed);
      hide Register, Subscribe, Inv;
    }
  }

  lemma AllQueues(some: set<Queue>)
    ensures some + {CompletedQueue} + {FailedQueue} == {CompletedQueue, FailedQueue}
  {
    assert forall q <- some :: q == CompletedQueue || q == FailedQueue;
  }

  lemma SubscribeKeeps(r: Router, q: Queue, throwing: set<Queue>, w: nat)
    requires Inv(r) && w in r.promises && r.promises[w].result.Some?
    ensures var r' := Subscribe(r, q, throwing);
            w in r'.promises && r'.promises[w] == r.promises[w] && !Pending(r', w)
  {
    SubscribeInv(r, q, throwing);
  }

  /** A wait under a signal, on an id with no earlier listener, is answered by the abort of that signal. */
  lemma AbortReachesWait(r: Router, w: nat, task: TaskId, signal: nat, throwing: set<Queue>)
    requires Inv(r) && w !in r.promises && forall l <- r.listeners :: l.task != task
    requires Pending(Next(r, Wait(w, task, Some(signal), throwing)), w)
    ensures var r' := Next(r, Wait(w, task, Some(signal), throwing));
            && signal !in r'.aborted && w in Next(r', Aborts(signal)).promises
            && Next(r', Aborts(signal)).promises[w].result == Some(Aborted)
            && signal in Next(r', Aborts(signal)).aborted
  {
    hide FireAll, Others, BeginWait, FirstFor, Inv, Keeps;
    var e := Wait(w, task, Some(signal), throwing);
    var r' := Next(r, e);
    OwnAnswer(r, w, task, Some(signal), throwing);
    Step(r, e);
    ListenersAfter(r, w, task, signal, throwing);
    FirstIsOwn(r.listeners, signal, task, w);
    AnsweredByAbort(r', signal, w);
  }

  lemma FirstIsOwn(ls: seq<Listener>, signal: nat, task: TaskId, w: nat)
    requires forall l <- ls :: l.task != task
    ensures FirstFor(ls + [Listener(signal, task, w)], signal, task) == Some(w)
  {
    NoneFirst(ls, signal, task);
    assert (ls + [Listener(signal, task, w)])[..|ls|] == ls;
  }

  lemma AnsweredByAbort(r: Router, signal: nat, w: nat)
    requires Inv(r) && Pending(r, w) && signal !in r.aborted
    requires FirstFor(r.listeners, signal, r.promises[w].task) == Some(w)
    ensures var r' := Next(r, Aborts(signal));
            w in r'.promises && r'.promises[w].result == Some(Aborted) && signal in r'.aborted
  {
    hide FireAll, Others, FirstFor;
    AbortAnswersExactly(r, r.listeners, signal, w);
    FireAllInv(r, r.listeners, signal);
  }

  lemma ListenersAfter(r: Router, w: nat, task: TaskId, signal: nat, throwing: set<Queue>)
    requires Accepts(r, task, Some(signal))
    ensures var r' := BeginWait(r, w, task, Some(signal), throwing);
            r'.listeners == r.listeners + [Listener(signal, task, w)] && r'.aborted == r.aborted
  {
    var r1 := Register(r, w, task, Some(signal));
    SubscribeLeaves(r1, CompletedQueue, throwing);
    SubscribeLeaves(Subscribe(r1, CompletedQueue, throwing), FailedQueue, throwing);
    hide Subscribe;
  }

  lemma SubscribeLeaves(r: Router, q: Queue, throwing: set<Queue>)
    ensures Subscribe(r, q, throwing).listeners == r.listeners && Subscribe(r, q, throwing).aborted == r.aborted
  {
  }

  lemma {:induction false} NoneFirst(ls: seq<Listener>, signal: nat, task: TaskId)
    requires forall l <- ls :: l.task != task
    ensures FirstFor(ls, signal, task) == None
  {
    if ls != [] {
      assert ls[|ls| - 1] in ls;
      NoneFirst(ls[..|ls| - 1], signal, task);
    }
  }

  /**
   * A failed subscription is forgotten, so that the next accepted wait subscribes again; nothing else
   * touches the subscriptions.
   */
  lemma Subscriptions(r: Router, e: Event)
    requires Inv(r) && Enabled(r, e) && !e.Wait?
    ensures Next(r, e).subscribed == if e.SubscribeRejects? then r.subscribed - {e.queue} else r.subscribed
  {
    if e.Aborts? {
      FireAllSubscribed(r, r.listeners, e.signal);
      hide FireAll;
    }
  }

  lemma {:induction false} FireAllSubscribed(r: Router, ls: seq<Listener>, signal: nat)
    ensures FireAll(r, ls, signal).subscribed == r.subscribed
  {
    if ls != [] { FireAllSubscribed(r, ls[..|ls| - 1], signal); }
  }

  /** A second wait on a task id in flight is refused and leaves the first alone. */
  lemma DuplicateWaitRefused(r: Router, e: Event, w: nat)
    requires Inv(r) && Pending(r, w) && Enabled(r, e) && e.Wait? && e.task == r.promises[w].task
    ensures Pending(Next(r, e), w) && Next(r, e).promises[e.w].result == Some(Duplicate)
    ensures Next(r, e).timers == r.timers && Next(r, e).listeners == r.listeners
  {
  }
}
