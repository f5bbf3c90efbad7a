/**
 * The token ledger of one agent (agent-state-publisher.ts): what wrapHandler counts for every
 * attempt, the two caps, and the bounded per-task tallies, over every interleaving of attempts.
 */
module TokenLedger {
  import opened Budget
  import opened InsertionOrder

  type TaskId = nat

  const MAX_TRACKED_TASKS := 1_000

  datatype Caps = Caps(agent: Number, task: Number)

  /** Per-task tallies in the order in which the tasks were last counted, the oldest first. */
  datatype Ledger = Ledger(total: real, order: seq<TaskId>, tally: map<TaskId, real>)

  const FRESH := Ledger(0.0, [], map[])

  datatype CapBreach = AgentCap | TaskCap

  /** Why the signal of an attempt was aborted. */
  datatype AbortReason = EmergencyStop | Control

  /** Token counts as they arrive: input and output, cleaned before use. */
  datatype Usage = Usage(input: Raw, output: Raw)

  /**
   * How the handler ends: it returns with token metadata or without, or throws a failed attempt with
   * its usage, an emergency stop, or anything else.
   */
  datatype Ending = Returned(metadata: Option<Usage>) | FailedAttempt(usage: Usage) | ThrewStop | ThrewOther

  function Tokens(u: Usage): (t: real)
    ensures t >= 0.0
  {
    CleanAmount(u.input) + CleanAmount(u.output)
  }

  /** What an attempt spent. */
  function Spent(e: Ending): (t: real)
    ensures t >= 0.0
  {
    match e
    case Returned(Some(u)) => Tokens(u)
    case FailedAttempt(u) => Tokens(u)
    case _ => 0.0
  }

  function Tally(l: Ledger, task: TaskId): real {
    if task in l.tally then l.tally[task] else 0.0
  }

  predicate Reached(cap: Number, used: real) {
    IsCapped(cap) && used >= cap.value
  }

  /** The pre-flight check. */
  function CapMet(c: Caps, l: Ledger, task: TaskId): Option<CapBreach> {
    if Reached(c.agent, l.total) then Some(AgentCap)
    else if Reached(c.task, Tally(l, task)) then Some(TaskCap)
    else None
  }

  /** The tally moves to the end of the order. */
  function Pushed(l: Ledger, task: TaskId, tokens: real): Ledger {
    Ledger(l.total + tokens, Without(l.order, task) + [task], l.tally[task := Tally(l, task) + tokens])
  }

  function DropOldest(l: Ledger): Ledger
    requires l.order != []
  {
    l.(order := l.order[1..], tally := l.tally - {l.order[0]})
  }

  /** Past the limit the oldest tally is dropped. */
  function Counted(l: Ledger, task: TaskId, tokens: real): Ledger {
    var p := Pushed(l, task, tokens);
    if |p.tally| > MAX_TRACKED_TASKS then DropOldest(p) else p
  }

  /** The breach to raise after counting: task cap first, then agent cap. */
  function BreachAfter(c: Caps, l: Ledger, task: TaskId, tokens: real): Option<CapBreach> {
    if Reached(c.task, Tally(l, task) + tokens) then Some(TaskCap)
    else if Reached(c.agent, l.total + tokens) then Some(AgentCap)
    else None
  }

  /** Whether wrapHandler counts this ending at all, late or not. */
  predicate Counts(e: Ending) {
    (e.Returned? && e.metadata.Some?) || e.FailedAttempt?
  }

  function Finish(l: Ledger, task: TaskId, e: Ending): Ledger {
    if Counts(e) then Counted(l, task, Spent(e)) else l
  }

  // ----- Runs -----

  /** `running` are the attempts whose handler was called and has not ended. */
  datatype State = State(ledger: Ledger, running: map<nat, TaskId>)

  datatype Event = Begin(attempt: nat, task: TaskId) | End(attempt: nat, ending: Ending)

  predicate Enabled(s: State, e: Event) {
    match e
    case Begin(a, _) => a !in s.running
    case End(a, _) => a in s.running
  }

  function Next(c: Caps, s: State, e: Event): State
    requires Enabled(s, e)
  {
    match e
    case Begin(a, task) =>
      if CapMet(c, s.ledger, task).Some? then s else s.(running := s.running[a := task])
    case End(a, ending) => State(Finish(s.ledger, s.running[a], ending), s.running - {a})
  }

  ghost predicate IsRun(c: Caps, ss: seq<State>, es: seq<Event>) {
    && |ss| == |es| + 1 && ss[0] == State(FRESH, map[])
    && forall k :: 0 <= k < |es| ==> Enabled(ss[k], es[k]) && ss[k + 1] == Next(c, ss[k], es[k])
  }

  // ----- The tallies -----

  ghost function Sum(keys: set<TaskId>, m: map<TaskId, real>): real
    requires keys <= m.Keys
    decreases keys
  {
    if keys == {} then 0.0
    else
      var k :| k in keys;
      m[k] + Sum(keys - {k}, m)
  }

  lemma {:induction false} TakeTally(keys: set<TaskId>, m: map<TaskId, real>, k: TaskId)
    requires k in keys && keys <= m.Keys
    ensures Sum(keys, m) == m[k] + Sum(keys - {k}, m)
    decreases keys
  {
    var j :| j in keys && Sum(keys, m) == m[j] + Sum(keys - {j}, m);
    if j != k {
      TakeTally(keys - {j}, m, k);
      TakeTally(keys - {k}, m, j);
      assert keys - {j} - {k} == keys - {k} - {j};
    }
  }

  lemma {:induction false} SameTallies(keys: set<TaskId>, m: map<TaskId, real>, n: map<TaskId, real>)
    requires keys <= m.Keys && keys <= n.Keys && forall k <- keys :: m[k] == n[k]
    ensures Sum(keys, m) == Sum(keys, n)
    decreases keys
  {
    if keys != {} {
      var k :| k in keys;
      TakeTally(keys, m, k);
      TakeTally(keys, n, k);
      SameTallies(keys - {k}, m, n);
    }
  }

  lemma AddTally(m: map<TaskId, real>, k: TaskId, v: real)
    ensures Sum(m[k := v].Keys, m[k := v]) == Sum(m.Keys, m) - (if k in m then m[k] else 0.0) + v
  {
    var n := m[k := v];
    TakeTally(n.Keys, n, k);
    assert n.Keys - {k} == m.Keys - {k};
    SameTallies(m.Keys - {k}, m, n);
    if k in m { TakeTally(m.Keys, m, k); } else { assert m.Keys - {k} == m.Keys; }
  }

  lemma DropTally(m: map<TaskId, real>, k: TaskId)
    requires k in m
    ensures Sum((m - {k}).Keys, m - {k}) == Sum(m.Keys, m) - m[k]
  {
    TakeTally(m.Keys, m, k);
    assert (m - {k}).Keys == m.Keys - {k};
    SameTallies(m.Keys - {k}, m, m - {k});
  }

  /** The order lists exactly the tracked tasks; tallies are not negative and never sum to more than the total. */
  ghost predicate Consistent(l: Ledger) {
    && Lists(l.order, l.tally.Keys)
    && (forall t <- l.tally :: l.tally[t] >= 0.0)
    && Sum(l.tally.Keys, l.tally) <= l.total
  }

  ghost predicate LedgerInv(l: Ledger) {
    Consistent(l) && |l.tally| <= MAX_TRACKED_TASKS
  }

  lemma PushedListed(l: Ledger, task: TaskId, tokens: real)
    requires Lists(l.order, l.tally.Keys)
    ensures var p := Pushed(l, task, tokens);
            Lists(p.order, p.tally.Keys) && |p.tally| <= |l.tally| + 1 && p.tally.Keys == l.tally.Keys + {task}
  {
    MoveLast(l.order, l.tally.Keys, task);
    hide Without, Lists;
    assert Pushed(l, task, tokens).tally.Keys == l.tally.Keys + {task};
  }

  lemma PushedConsistent(l: Ledger, task: TaskId, tokens: real)
    requires Consistent(l) && tokens >= 0.0
    ensures Consistent(Pushed(l, task, tokens)) && |Pushed(l, task, tokens).tally| <= |l.tally| + 1
    ensures Pushed(l, task, tokens).tally.Keys == l.tally.Keys + {task}
  {
    PushedListed(l, task, tokens);
    PushedSum(l, task, tokens);
    hide Without, Sum, Lists;
    assert forall t <- Pushed(l, task, tokens).tally :: Pushed(l, task, tokens).tally[t] >= 0.0;
  }

  lemma PushedSum(l: Ledger, task: TaskId, tokens: real)
    ensures var p := Pushed(l, task, tokens); Sum(p.tally.Keys, p.tally) == Sum(l.tally.Keys, l.tally) + tokens
  {
    AddTally(l.tally, task, Tally(l, task) + tokens);
    hide Without, Sum;
  }

  lemma DropListed(l: Ledger)
    requires Lists(l.order, l.tally.Keys) && l.order != []
    ensures var d := DropOldest(l);
            Lists(d.order, d.tally.Keys) && |d.tally| == |l.tally| - 1 && d.tally.Keys == l.tally.Keys - {l.order[0]}
  {
    DropFirst(l.order, l.tally.Keys);
    assert DropOldest(l).tally.Keys == l.tally.Keys - {l.order[0]};
  }

  lemma DropConsistent(l: Ledger)
    requires Consistent(l) && l.order != []
    ensures Consistent(DropOldest(l)) && |DropOldest(l).tally| == |l.tally| - 1
    ensures DropOldest(l).tally.Keys == l.tally.Keys - {l.order[0]}
  {
    DropListed(l);
    DropTally(l.tally, l.order[0]);
    hide Sum, Lists;
  }

  lemma CountedInv(l: Ledger, task: TaskId, tokens: real)
    requires LedgerInv(l) && tokens >= 0.0
    ensures LedgerInv(Counted(l, task, tokens)) && Counted(l, task, tokens).total == l.total + tokens
  {
    PushedConsistent(l, task, tokens);
    var p := Pushed(l, task, tokens);
    assert p.order != [] && p.total == l.total + tokens;
    DropConsistent(p);
    hide Consistent, Pushed;
  }

  // ----- Conservation -----

  /** What the attempts ended in the events spent. */
  function SpentIn(es: seq<Event>): real {
    if es == [] then 0.0
    else SpentIn(es[..|es| - 1]) + if es[|es| - 1].End? then Spent(es[|es| - 1].ending) else 0.0
  }

  /**
   * Conservation: at any time the agent tally is the sum of the cleaned usage of all attempts ended
   * so far, normal, late and failed, each counted once; the tracked tallies never sum to more, and
   * there are at most 1,000.
   */
  lemma {:induction false} Conservation(c: Caps, ss: seq<State>, es: seq<Event>, k: nat)
    requires IsRun(c, ss, es) && k < |ss|
    ensures ss[k].ledger.total == SpentIn(es[..k]) && LedgerInv(ss[k].ledger)
    ensures |ss[k].ledger.tally| <= 1_000
    ensures Sum(ss[k].ledger.tally.Keys, ss[k].ledger.tally) <= ss[k].ledger.total
  {
    if k > 0 {
      Conservation(c, ss, es, k - 1);
      var s, e := ss[k - 1], es[k - 1];
      assert Enabled(s, e) && ss[k] == Next(c, s, e);
      assert es[..k][..k - 1] == es[..k - 1];
      if e.End? {
        CountedInv(s.ledger, s.running[e.attempt], Spent(e.ending));
      }
      hide Counted, LedgerInv;
    }
  }

  // ----- Per task -----

  /** The task of the attempt that an event ends. */
  ghost predicate Ends(s: State, e: Event, task: TaskId) {
    e.End? && e.attempt in s.running && s.running[e.attempt] == task && Counts(e.ending)
  }

  ghost function TaskSpent(ss: seq<State>, es: seq<Event>, task: TaskId, k: nat): real
    requires k <= |es| <= |ss|
  {
    if k == 0 then 0.0
    else TaskSpent(ss, es, task, k - 1) + if Ends(ss[k - 1], es[k - 1], task) then Spent(es[k - 1].ending) else 0.0
  }

  /** The tasks counted so far. */
  ghost function CountedTasks(ss: seq<State>, es: seq<Event>, k: nat): set<TaskId>
    requires k <= |es| <= |ss|
  {
    if k == 0 then {}
    else
      var s, e := ss[k - 1], es[k - 1];
      CountedTasks(ss, es, k - 1) +
      if e.End? && e.attempt in s.running && Counts(e.ending) then {s.running[e.attempt]} else {}
  }

  lemma CountedTally(l: Ledger, task: TaskId, tokens: real, t: TaskId)
    requires LedgerInv(l) && tokens >= 0.0
    ensures var l' := Counted(l, task, tokens);
            && Tally(l', t) <= Tally(l, t) + (if t == task then tokens else 0.0)
            && (|l.tally.Keys + {task}| <= MAX_TRACKED_TASKS ==>
                  Tally(l', t) == Tally(l, t) + (if t == task then tokens else 0.0))
            && l'.tally.Keys <= l.tally.Keys + {task}
  {
    PushedConsistent(l, task, tokens);
    var p := Pushed(l, task, tokens);
    assert |p.tally| == |p.tally.Keys|;
    assert Tally(p, t) == Tally(l, t) + if t == task then tokens else 0.0;
    if |p.tally| > MAX_TRACKED_TASKS {
      DropConsistent(p);
      DroppedTally(p, t);
    }
    hide Pushed, DropOldest, Tally;
  }

  lemma DroppedTally(l: Ledger, t: TaskId)
    requires Consistent(l) && l.order != []
    ensures Tally(DropOldest(l), t) <= Tally(l, t)
  {
  }

  /**
   * A task's tally never exceeds what its attempts spent, and is exactly that as long as no more
   * than 1,000 different tasks have been counted; beyond, the tallies not counted for longest are
   * forgotten.
   */
  lemma {:induction false} TaskTallies(c: Caps, ss: seq<State>, es: seq<Event>, k: nat, task: TaskId)
    requires IsRun(c, ss, es) && k < |ss|
    ensures Tally(ss[k].ledger, task) <= TaskSpent(ss, es, task, k)
    ensures ss[k].ledger.tally.Keys <= CountedTasks(ss, es, k)
    ensures |CountedTasks(ss, es, k)| <= 1_000 ==> Tally(ss[k].ledger, task) == TaskSpent(ss, es, task, k)
  {
    if k > 0 {
      TaskTallies(c, ss, es, k - 1, task);
      Conservation(c, ss, es, k - 1);
      var s, e := ss[k - 1], es[k - 1];
      assert Enabled(s, e) && ss[k] == Next(c, s, e);
      FewerKeys(CountedTasks(ss, es, k - 1), CountedTasks(ss, es, k));
      if e.End? && Counts(e.ending) {
        CountedTally(s.ledger, s.running[e.attempt], Spent(e.ending), task);
        FewerKeys(s.ledger.tally.Keys + {s.running[e.attempt]}, CountedTasks(ss, es, k));
      }
      hide Counted, LedgerInv, Tally;
    }
  }

  // ----- The caps -----

  /**
   * A handler is called exactly when both tallies are under their caps; a cap that is not finite and
   * positive never binds.
   */
  lemma CalledUnderCaps(c: Caps, ss: seq<State>, es: seq<Event>, k: nat)
    requires IsRun(c, ss, es) && k < |es| && es[k].Begin?
    ensures es[k].attempt in ss[k + 1].running <==>
            var tally := ss[k].ledger.tally;
            && (c.agent.Finite? && c.agent.value > 0.0 ==> SpentIn(es[..k]) < c.agent.value)
            && (c.task.Finite? && c.task.value > 0.0 ==>
                  (if es[k].task in tally then tally[es[k].task] else 0.0) < c.task.value)
  {
    Conservation(c, ss, es, k);
    assert Enabled(ss[k], es[k]) && ss[k + 1] == Next(c, ss[k], es[k]);
    hide LedgerInv;
  }

  /** n times u. */
  function Times(n: nat, u: real): real {
    n as real * u
  }

  lemma OneMore(n: nat, u: real)
    ensures Times(n + 1, u) == Times(n, u) + u
  {
  }

  lemma MoreTimes(m: nat, n: nat, u: real)
    requires m <= n && u >= 0.0
    ensures 0.0 <= Times(m, u) <= Times(n, u)
  {
  }

  lemma FinishTotal(l: Ledger, task: TaskId, ending: Ending)
    requires LedgerInv(l)
    ensures Finish(l, task, ending).total == l.total + Spent(ending)
  {
    CountedInv(l, task, Spent(ending));
    hide Counted, LedgerInv, Tokens;
  }

  lemma OneFewer(running: map<nat, TaskId>, a: nat)
    requires a in running
    ensures |running| == |running - {a}| + 1
  {
    assert (running - {a}).Keys == running.Keys - {a};
    assert |running - {a}| == |(running - {a}).Keys| && |running| == |running.Keys|;
  }

  lemma OvershootEnd(cap: real, s: State, a: nat, ending: Ending, n: nat, u: real)
    requires a in s.running && LedgerInv(s.ledger) && Spent(ending) <= u
    requires s.ledger.total + Times(|s.running|, u) < cap + Times(n, u)
    ensures Finish(s.ledger, s.running[a], ending).total + Times(|s.running - {a}|, u) < cap + Times(n, u)
  {
    FinishTotal(s.ledger, s.running[a], ending);
    OneFewer(s.running, a);
    OneMore(|s.running - {a}|, u);
    hide Finish, LedgerInv, Spent, Times;
  }

  lemma OvershootStep(c: Caps, s: State, e: Event, n: nat, u: real)
    requires Enabled(s, e) && IsCapped(c.agent) && u >= 0.0 && LedgerInv(s.ledger)
    requires |Next(c, s, e).running| <= n && (e.End? ==> Spent(e.ending) <= u)
    requires s.ledger.total + Times(|s.running|, u) < c.agent.value + Times(n, u)
    ensures Next(c, s, e).ledger.total + Times(|Next(c, s, e).running|, u) < c.agent.value + Times(n, u)
  {
    hide LedgerInv, Spent, Times, Finish;
    match e
    case End(a, ending) => OvershootEnd(c.agent.value, s, a, ending, n, u);
    case Begin(_, _) => MoreTimes(|Next(c, s, e).running|, n, u);
  }

  /**
   * Bounded overshoot: when never more than n attempts run at once and none spends more than u, the
   * agent tally stays below the cap plus n times u; with sequential attempts, below the cap plus one
   * attempt's usage.
   */
  lemma {:induction false} OvershootBounded(c: Caps, ss: seq<State>, es: seq<Event>, n: nat, u: real, k: nat)
    requires IsRun(c, ss, es) && k < |ss| && IsCapped(c.agent) && u >= 0.0
    requires forall i :: 0 <= i <= k ==> |ss[i].running| <= n
    requires forall i :: 0 <= i < k && es[i].End? ==> Spent(es[i].ending) <= u
    ensures ss[k].ledger.total + Times(|ss[k].running|, u) < c.agent.value + Times(n, u)
    ensures ss[k].ledger.total < c.agent.value + Times(n, u)
  {
    MoreTimes(0, n, u);
    assert k == 0 ==> |ss[k].running| == 0 && Times(0, u) == 0.0;
    hide Times;
    if k > 0 {
      OvershootBounded(c, ss, es, n, u, k - 1);
      Conservation(c, ss, es, k - 1);
      assert Enabled(ss[k - 1], es[k - 1]) && ss[k] == Next(c, ss[k - 1], es[k - 1]);
      hide Next, Enabled, LedgerInv, Spent;
      OvershootStep(c, ss[k - 1], es[k - 1], n, u);
    }
    MoreTimes(|ss[k].running|, n, u);
  }
}
