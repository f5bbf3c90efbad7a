/**
 * The fan-in of waitAll (completion-router.ts) over the router's runs: all its waits are issued in one
 * turn, each promise pushes one entry when it has settled, in any order, and the call ends when every
 * request has its entry.
 */
module FanIn {
  import opened Budget
  import opened CompletionRouter
  import opened InsertionOrder

  /** The requested ids, the signal handed to every wait, and the promise of each. */
  datatype Request = Request(ids: seq<TaskId>, signal: Option<nat>, waiters: seq<nat>)

  ghost predicate WellFormed(q: Request) {
    && |q.waiters| == |q.ids|
    && forall i, j :: 0 <= i < j < |q.ids| ==> q.waiters[i] != q.waiters[j]
  }

  /** One entry of the result: the task id with its outcome, a failed one included. */
  datatype Entry = Entry(task: TaskId, outcome: Outcome)

  /** `pushed` are the positions of the requests whose entries are in `results`, in that order. */
  datatype State = State(router: Router, issued: bool, pushed: seq<nat>, results: seq<Entry>)

  datatype Move =
    | Turn(e: Event)                          // any turn of the router
    | Issue(throwing: seq<set<Queue>>)        // the call: one wait for each id, in one turn
    | Push(p: nat)                            // the settled promise at this position pushes its entry

  /** The first n waits of the call; `throwing` says which subscribe calls throw at each. */
  function IssueAll(r: Router, q: Request, throwing: seq<set<Queue>>, n: nat): Router
    requires n <= |q.ids| == |throwing| == |q.waiters|
  {
    if n == 0 then r
    else BeginWait(IssueAll(r, q, throwing, n - 1), q.waiters[n - 1], q.ids[n - 1], q.signal, throwing[n - 1])
  }

  predicate MoveEnabled(s: State, q: Request, e: Move)
    requires |q.waiters| == |q.ids|
  {
    match e
    case Turn(t) => Enabled(s.router, t)
    case Issue(throwing) =>
      !s.issued && |throwing| == |q.ids| &&
      forall p :: 0 <= p < |q.ids| ==> q.waiters[p] !in s.router.promises
    case Push(p) =>
      s.issued && p < |q.ids| && p !in s.pushed && Settled(s.router, q.waiters[p])
  }

  function Take(s: State, q: Request, e: Move): State
    requires |q.waiters| == |q.ids| && MoveEnabled(s, q, e)
  {
    match e
    case Turn(t) => s.(router := Next(s.router, t))
    case Issue(throwing) => s.(router := IssueAll(s.router, q, throwing, |q.ids|), issued := true)
    case Push(p) =>
      s.(pushed := s.pushed + [p],
         results := s.results + [Entry(q.ids[p], s.router.promises[q.waiters[p]].result.value)])
  }

  ghost predicate IsFanInRun(q: Request, ss: seq<State>, es: seq<Move>) {
    && WellFormed(q) && |ss| == |es| + 1 && ss[0] == State(NEW_ROUTER, false, [], [])
    && forall k :: 0 <= k < |es| ==> MoveEnabled(ss[k], q, es[k]) && ss[k + 1] == Take(ss[k], q, es[k])
  }

  /** What the call ends with: the entries, or a throw when the signal has aborted. */
  datatype Ending = Entries(results: seq<Entry>) | Threw

  function Ended(s: State, q: Request): Option<Ending> {
    if !s.issued || |s.pushed| < |q.ids| then None
    else if q.signal.Some? && q.signal.value in s.router.aborted then Some(Threw)
    else Some(Entries(s.results))
  }

  // ----- The router underneath -----

  /** Every wait of the call has its promise, for its own id. */
  ghost predicate Asked(r: Router, q: Request, n: nat)
    requires n <= |q.ids| == |q.waiters|
  {
    forall p: nat :: p < n ==> q.waiters[p] in r.promises && r.promises[q.waiters[p]].task == q.ids[p]
  }

  lemma {:induction false} IssueInv(r: Router, q: Request, throwing: seq<set<Queue>>, n: nat)
    requires Inv(r) && WellFormed(q) && n <= |q.ids| == |throwing|
    requires forall p :: 0 <= p < |q.ids| ==> q.waiters[p] !in r.promises
    ensures var r' := IssueAll(r, q, throwing, n);
            && Inv(r') && Keeps(r, r') && Asked(r', q, n)
            && forall p :: n <= p < |q.ids| ==> q.waiters[p] !in r'.promises
  {
    hide BeginWait, Inv, Keeps, Asked;
    if n == 0 {
      KeepsItself(r);
      NoneAsked(r, q);
    } else {
      IssueInv(r, q, throwing, n - 1);
      var r1 := IssueAll(r, q, throwing, n - 1);
      BeginWaitInv(r1, q.waiters[n - 1], q.ids[n - 1], q.signal, throwing[n - 1]);
      WaitAdds(r1, q.waiters[n - 1], q.ids[n - 1], q.signal, throwing[n - 1]);
      var r2 := IssueAll(r, q, throwing, n);
      KeepsOn(r, r1, r2);
      AskedStays(r1, r2, q, n - 1);
      OneMoreAsked(r2, q, n);
    }
  }

  lemma KeepsItself(r: Router)
    ensures Keeps(r, r)
  {
  }

  lemma NoneAsked(r: Router, q: Request)
    requires |q.ids| == |q.waiters|
    ensures Asked(r, q, 0)
  {
  }

  lemma AskedStays(r: Router, r': Router, q: Request, n: nat)
    requires n <= |q.ids| == |q.waiters| && Asked(r, q, n) && Keeps(r, r')
    ensures Asked(r', q, n)
  {
    forall p: nat | p < n ensures q.waiters[p] in r'.promises && r'.promises[q.waiters[p]].task == q.ids[p] {
      assert q.waiters[p] in r.promises;
    }
  }

  lemma OneMoreAsked(r: Router, q: Request, n: nat)
    requires 0 < n <= |q.ids| == |q.waiters| && Asked(r, q, n - 1)
    requires q.waiters[n - 1] in r.promises && r.promises[q.waiters[n - 1]].task == q.ids[n - 1]
    ensures Asked(r, q, n)
  {
  }

  lemma SubscribeAddsNone(r: Router, q: Queue, throwing: set<Queue>)
    ensures Subscribe(r, q, throwing).promises.Keys == r.promises.Keys
  {
  }

  /** A wait adds exactly its own promise. */
  lemma WaitAdds(r: Router, w: nat, task: TaskId, signal: Option<nat>, throwing: set<Queue>)
    requires Inv(r) && w !in r.promises
    ensures var r' := BeginWait(r, w, task, signal, throwing);
            r'.promises.Keys == r.promises.Keys + {w} && r'.promises[w].task == task
  {
    if Accepts(r, task, signal) {
      var r1 := Register(r, w, task, signal);
      var r2 := Subscribe(r1, CompletedQueue, throwing);
      assert r1.promises.Keys == r.promises.Keys + {w} && r1.promises[w].task == task;
      RegisterInv(r, w, task, signal);
      SubscribeInv(r1, CompletedQueue, throwing);
      SubscribeInv(r2, FailedQueue, throwing);
      SubscribeAddsNone(r1, CompletedQueue, throwing);
      SubscribeAddsNone(r2, FailedQueue, throwing);
    }
    hide Register, Subscribe, Inv;
  }

  // ----- One entry for each request -----

  /** The entry of a request whose promise has settled. */
  function EntryOf(r: Router, q: Request, p: nat): Entry
    requires p < |q.ids| == |q.waiters| && Settled(r, q.waiters[p])
  {
    Entry(q.ids[p], r.promises[q.waiters[p]].result.value)
  }

  /** The entries are those of distinct requests, each with the outcome of its own wait. */
  ghost predicate Listed(s: State, q: Request) {
    && |q.waiters| == |q.ids| && |s.results| == |s.pushed| && (!s.issued ==> s.pushed == [])
    && (forall i, j :: 0 <= i < j < |s.pushed| ==> s.pushed[i] != s.pushed[j])
    && forall j :: 0 <= j < |s.pushed| ==>
         && s.pushed[j] < |q.ids| && Settled(s.router, q.waiters[s.pushed[j]])
         && s.results[j] == EntryOf(s.router, q, s.pushed[j])
  }

  ghost predicate FanInInv(s: State, q: Request) {
    WellFormed(q) && Inv(s.router) && (s.issued ==> Asked(s.router, q, |q.ids|)) && Listed(s, q)
  }

  lemma ListedStays(s: State, q: Request, r': Router)
    requires Listed(s, q) && Keeps(s.router, r')
    ensures Listed(s.(router := r'), q)
  {
    forall j | 0 <= j < |s.pushed|
      ensures Settled(r', q.waiters[s.pushed[j]]) && s.results[j] == EntryOf(r', q, s.pushed[j])
    {
      assert Settled(s.router, q.waiters[s.pushed[j]]);
    }
  }

  lemma PushListed(s: State, q: Request, p: nat)
    requires FanInInv(s, q) && MoveEnabled(s, q, Push(p))
    ensures Listed(Take(s, q, Push(p)), q)
  {
    hide Inv, Asked;
  }

  lemma FanInMove(s: State, q: Request, e: Move)
    requires FanInInv(s, q) && MoveEnabled(s, q, e)
    ensures FanInInv(Take(s, q, e), q)
  {
    match e
    case Turn(t) =>
      Step(s.router, t);
      hide Next, Inv, Keeps, Listed, Asked;
      ListedStays(s, q, Next(s.router, t));
      if s.issued { AskedStays(s.router, Next(s.router, t), q, |q.ids|); }
    case Issue(throwing) =>
      IssueInv(s.router, q, throwing, |q.ids|);
      hide IssueAll, Inv, Keeps, Asked;
    case Push(p) =>
      PushListed(s, q, p);
      hide Listed, Inv, Asked;
  }

  lemma {:induction false} FanInRun(q: Request, ss: seq<State>, es: seq<Move>, k: nat)
    requires IsFanInRun(q, ss, es) && k < |ss|
    ensures FanInInv(ss[k], q)
  {
    if k > 0 {
      FanInRun(q, ss, es, k - 1);
      assert MoveEnabled(ss[k - 1], q, es[k - 1]) && ss[k] == Take(ss[k - 1], q, es[k - 1]);
      hide IsFanInRun, Take, MoveEnabled, FanInInv;
      FanInMove(ss[k - 1], q, es[k - 1]);
    }
  }

  /** No wait of the move is made while an earlier listener for its id can still fire. */
  ghost predicate FreshMove(s: State, q: Request, e: Move)
    requires |q.waiters| == |q.ids| && MoveEnabled(s, q, e)
  {
    match e
    case Turn(t) => Fresh(s.router, t)
    case Issue(throwing) => FreshIssue(s.router, q, throwing)
    case Push(_) => true
  }

  ghost predicate FreshIssue(r: Router, q: Request, throwing: seq<set<Queue>>)
    requires |q.ids| == |throwing| == |q.waiters|
  {
    forall n: nat :: n < |q.ids| ==> Fresh(IssueAll(r, q, throwing, n), WaitOf(q, throwing, n))
  }

  function WaitOf(q: Request, throwing: seq<set<Queue>>, n: nat): Event
    requires n < |q.ids| == |throwing| == |q.waiters|
  {
    Wait(q.waiters[n], q.ids[n], q.signal, throwing[n])
  }

  ghost predicate Remembered(r: Router) {
    NobodyForgotten(r) && NoStaleListener(r.listeners, r.resolvers)
  }

  lemma {:induction false} IssueForgetsNobody(r: Router, q: Request, throwing: seq<set<Queue>>, n: nat)
    requires WellFormed(q) && n <= |q.ids| == |throwing| && FreshIssue(r, q, throwing)
    requires Inv(r) && Remembered(r) && forall p :: 0 <= p < |q.ids| ==> q.waiters[p] !in r.promises
    ensures Remembered(IssueAll(r, q, throwing, n))
  {
    hide Inv, BeginWait, NobodyForgotten, NoStaleListener, Fresh, Keeps, Asked;
    if n > 0 {
      var r1, e := IssueAll(r, q, throwing, n - 1), WaitOf(q, throwing, n - 1);
      assert Fresh(r1, e);
      IssueForgetsNobody(r, q, throwing, n - 1);
      IssueInv(r, q, throwing, n - 1);
      assert q.waiters[n - 1] !in r1.promises;
      hide FreshIssue;
      WaitForgetsNobody(r1, e);
    }
  }

  lemma {:induction false} FanInForgetsNobody(q: Request, ss: seq<State>, es: seq<Move>, k: nat)
    requires IsFanInRun(q, ss, es) && k < |ss|
    requires forall i :: 0 <= i < k ==> MoveEnabled(ss[i], q, es[i]) && FreshMove(ss[i], q, es[i])
    ensures Remembered(ss[k].router)
  {
    if k > 0 {
      FanInForgetsNobody(q, ss, es, k - 1);
      FanInRun(q, ss, es, k - 1);
      var s, e := ss[k - 1], es[k - 1];
      assert MoveEnabled(s, q, e) && ss[k] == Take(s, q, e) && FreshMove(s, q, e);
      match e
      case Turn(t) =>
        StepForgetsNobody(s.router, t);
        hide Next, Inv, NobodyForgotten, NoStaleListener, Listed, Asked;
      case Issue(throwing) =>
        IssueForgetsNobody(s.router, q, throwing, |q.ids|);
        hide IssueAll, Inv, FreshIssue, NobodyForgotten, NoStaleListener, Listed, Asked;
      case Push(_) =>
        hide Inv, NobodyForgotten, NoStaleListener, Listed, Asked;
    }
  }

  // ----- What waitAll returns -----

  function Elements(s: seq<nat>): set<nat> {
    set x | x in s
  }

  function Below(n: nat): (s: set<nat>)
    ensures forall i: nat :: i in s <==> i < n
    ensures |s| == n
  {
    if n == 0 then {} else Below(n - 1) + {n - 1}
  }

  lemma {:induction false} DistinctElements(s: seq<nat>)
    requires forall i, j :: 0 <= i < j < |s| ==> s[i] != s[j]
    ensures |Elements(s)| == |s|
  {
    if s != [] {
      var n := |s| - 1;
      DistinctElements(s[..n]);
      assert s == s[..n] + [s[n]];
      assert Elements(s) == Elements(s[..n]) + {s[n]};
      assert s[n] !in s[..n];
    }
  }

  lemma {:induction false} SameSize(a: set<nat>, b: set<nat>)
    requires a <= b && |a| == |b|
    ensures a == b
  {
    if a != {} {
      var x :| x in a;
      SameSize(a - {x}, b - {x});
    }
  }

  /** As many distinct positions as there are requests are all of them. */
  lemma AllPositions(pushed: seq<nat>, n: nat)
    requires |pushed| == n && (forall j :: 0 <= j < n ==> pushed[j] < n)
    requires forall i, j :: 0 <= i < j < n ==> pushed[i] != pushed[j]
    ensures forall p: nat :: p < n ==> p in pushed
  {
    DistinctElements(pushed);
    assert Elements(pushed) <= Below(n);
    SameSize(Elements(pushed), Below(n));
    forall p: nat | p < n ensures p in pushed {
      assert p in Elements(pushed);
    }
  }

  /**
   * waitAll answers every request exactly once.  In every run of the router with the call in it, the
   * entries so far belong to distinct requests, each with its own id and the outcome that its own
   * promise settled with, for good.  The call ends exactly when every request has its entry: with a
   * throw when the signal has aborted, else with one entry for each request, repeated ids included.
   */
  lemma OneEntryEach(q: Request, ss: seq<State>, es: seq<Move>, k: nat)
    requires IsFanInRun(q, ss, es) && k < |ss|
    ensures Listed(ss[k], q) && |ss[k].results| <= |q.ids|
    ensures Ended(ss[k], q).Some? <==> ss[k].issued && forall p: nat :: p < |q.ids| ==> p in ss[k].pushed
    ensures Ended(ss[k], q) == Some(Threw) ==> q.signal.Some? && q.signal.value in ss[k].router.aborted
    ensures Ended(ss[k], q).Some? && Ended(ss[k], q).value.Entries? ==>
              && |Ended(ss[k], q).value.results| == |q.ids|
              && forall p: nat :: p < |q.ids| ==>
                   && Settled(ss[k].router, q.waiters[p])
                   && EntryOf(ss[k].router, q, p) in Ended(ss[k], q).value.results
  {
    FanInRun(q, ss, es, k);
    var s := ss[k];
    hide IsFanInRun, Inv, Asked, MoveEnabled;
    AtMostAll(s.pushed, |q.ids|);
    if |s.pushed| == |q.ids| {
      AllPositions(s.pushed, |q.ids|);
      forall p: nat | p < |q.ids| ensures Settled(s.router, q.waiters[p]) && EntryOf(s.router, q, p) in s.results {
        assert p in s.pushed;
        var j :| 0 <= j < |s.pushed| && s.pushed[j] == p;
        assert s.results[j] == EntryOf(s.router, q, p);
      }
    } else {
      Missing(s.pushed, |q.ids|);
    }
  }

  lemma AtMostAll(pushed: seq<nat>, n: nat)
    requires forall j :: 0 <= j < |pushed| ==> pushed[j] < n
    requires forall i, j :: 0 <= i < j < |pushed| ==> pushed[i] != pushed[j]
    ensures |pushed| <= n
  {
    DistinctElements(pushed);
    assert Elements(pushed) <= Below(n);
    FewerKeys(Elements(pushed), Below(n));
  }

  /** Fewer positions than requests leave one out. */
  lemma Missing(pushed: seq<nat>, n: nat)
    requires |pushed| < n && forall i, j :: 0 <= i < j < |pushed| ==> pushed[i] != pushed[j]
    ensures exists p: nat :: p < n && p !in pushed
  {
    DistinctElements(pushed);
    if forall p: nat :: p < n ==> p in pushed {
      forall p | p in Below(n) ensures p in Elements(pushed) {}
      FewerKeys(Below(n), Elements(pushed));
    }
  }

  /**
   * And it ends: as long as no id is waited on again while an earlier listener for it can still fire,
   * every request that has no entry yet can get one next, or is still pending with its timer running;
   * so the list is complete once none is pending and the settled ones have pushed.
   */
  lemma EveryRequestCanFinish(q: Request, ss: seq<State>, es: seq<Move>, k: nat, p: nat)
    requires IsFanInRun(q, ss, es) && k < |ss| && ss[k].issued && p < |q.ids| && p !in ss[k].pushed
    requires forall i :: 0 <= i < k ==> MoveEnabled(ss[i], q, es[i]) && FreshMove(ss[i], q, es[i])
    ensures |q.waiters| == |q.ids|
    ensures Pending(ss[k].router, q.waiters[p]) ==> MoveEnabled(ss[k], q, Turn(TimesOut(q.ids[p])))
    ensures !Pending(ss[k].router, q.waiters[p]) ==> MoveEnabled(ss[k], q, Push(p))
  {
    FanInRun(q, ss, es, k);
    FanInForgetsNobody(q, ss, es, k);
    assert q.waiters[p] in ss[k].router.promises && ss[k].router.promises[q.waiters[p]].task == q.ids[p];
    hide IsFanInRun, Listed;
  }
}
