/**
 * The token ledger in plain numbers: what each ending adds, when the caps bind, and which tallies are
 * remembered.
 */
module TokenLedgerNumbers {
  import opened Budget
  import opened InsertionOrder
  import opened TokenLedger

  /** The usage that an ending brings with it: the finite, non-negative counts, nothing for anything else. */
  predicate Brings(e: Ending, input: real, output: real) {
    match e
    case Returned(Some(u)) => Reported(u.input, input) && Reported(u.output, output)
    case FailedAttempt(u) => Reported(u.input, input) && Reported(u.output, output)
    case _ => input == 0.0 && output == 0.0
  }

  lemma CountedOwnTally(l: Ledger, task: TaskId, tokens: real)
    requires LedgerInv(l) && tokens >= 0.0
    ensures var l' := Counted(l, task, tokens);
            && task in l'.tally
            && l'.tally[task] == (if task in l.tally then l.tally[task] else 0.0) + tokens
            && forall t <- l'.tally :: t != task ==> t in l.tally && l'.tally[t] == l.tally[t]
  {
    PushedConsistent(l, task, tokens);
    var p := Pushed(l, task, tokens);
    PushedOrder(l, task, tokens);
    hide Consistent;
    if |p.tally| > MAX_TRACKED_TASKS { assert p.order[0] != task; }
  }

  lemma PushedOrder(l: Ledger, task: TaskId, tokens: real)
    requires LedgerInv(l)
    ensures var p := Pushed(l, task, tokens);
            |p.order| == |p.tally| > 0 && NoRepeats(p.order) && p.order[|p.order| - 1] == task
            && forall t :: t in p.order <==> t in p.tally
  {
    PushedListed(l, task, tokens);
    assert |Pushed(l, task, tokens).tally.Keys| == |Pushed(l, task, tokens).tally|;
  }

  /**
   * The usage in numbers: an attempt that ends, in time, late or failed, adds its input and its output
   * to the agent's tally and to its task's; a count that is no finite, non-negative number adds nothing
   * and neither does an ending without usage.  No other task's tally changes, unless it is forgotten.
   */
  lemma UsageInNumbers(c: Caps, ss: seq<State>, es: seq<Event>, k: nat, input: real, output: real)
    requires IsRun(c, ss, es) && k < |es| && es[k].End? && Brings(es[k].ending, input, output)
    ensures es[k].attempt in ss[k].running && es[k].attempt !in ss[k + 1].running
    ensures ss[k + 1].ledger.total == ss[k].ledger.total + input + output
    ensures var task, before, after := ss[k].running[es[k].attempt], ss[k].ledger.tally, ss[k + 1].ledger.tally;
            && (task in after ==> after[task] == (if task in before then before[task] else 0.0) + input + output)
            && (task !in after ==> task !in before && input == 0.0 && output == 0.0)
            && forall t <- after :: t != task ==> t in before && after[t] == before[t]
  {
    Conservation(c, ss, es, k);
    assert Enabled(ss[k], es[k]) && ss[k + 1] == Next(c, ss[k], es[k]);
    var task, ending := ss[k].running[es[k].attempt], es[k].ending;
    assert Spent(ending) == input + output;
    if Counts(ending) {
      CountedOwnTally(ss[k].ledger, task, Spent(ending));
      CountedInv(ss[k].ledger, task, Spent(ending));
    }
    hide IsRun, Counted, LedgerInv, Sum;
  }

  /** No other event changes a tally. */
  lemma OnlyEndingsCount(c: Caps, ss: seq<State>, es: seq<Event>, k: nat)
    requires IsRun(c, ss, es) && k < |es| && !es[k].End?
    ensures ss[k + 1].ledger == ss[k].ledger
  {
    assert Enabled(ss[k], es[k]) && ss[k + 1] == Next(c, ss[k], es[k]);
  }

  // ----- Which tallies are remembered -----

  /** The tasks counted by the events from m up to k. */
  ghost function CountedFrom(ss: seq<State>, es: seq<Event>, m: nat, k: nat): set<TaskId>
    requires k <= |es| <= |ss|
  {
    if k <= m then {}
    else
      CountedFrom(ss, es, m, k - 1) + CountedBy(ss[k - 1], es[k - 1])
  }

  function CountedBy(s: State, e: Event): set<TaskId> {
    if e.End? && e.attempt in s.running && Counts(e.ending) then {s.running[e.attempt]} else {}
  }

  /** The task is listed, and whatever is listed behind it is among the newer ones. */
  ghost predicate Behind(order: seq<TaskId>, task: TaskId, newer: set<TaskId>) {
    && task in order
    && forall i, j :: 0 <= i < j < |order| && order[i] == task ==> order[j] in newer
  }

  lemma {:induction false} BehindWithout(order: seq<TaskId>, key: TaskId, task: TaskId, newer: set<TaskId>)
    requires NoRepeats(order) && Behind(order, task, newer) && key != task
    ensures Behind(Without(order, key), task, newer)
  {
    var rest, last := order[..|order| - 1], order[|order| - 1];
    WithoutOnly(rest, key);
    assert order == rest + [last];
    if last == task {
      assert task !in Without(rest, key);
      assert Without(order, key) == Without(rest, key) + [task];
    } else {
      assert Behind(rest, task, newer);
      BehindWithout(rest, key, task, newer);
      var i :| 0 <= i < |rest| && rest[i] == task;
      assert order[i] == task && last in newer;
    }
  }

  lemma BehindPushed(l: Ledger, t: TaskId, tokens: real, task: TaskId, newer: set<TaskId>)
    requires LedgerInv(l) && Behind(l.order, task, newer)
    ensures Behind(Pushed(l, t, tokens).order, task, newer + {t})
  {
    WithoutOnly(l.order, t);
    if t == task {
      assert task !in Without(l.order, task);
    } else {
      BehindWithout(l.order, t, task, newer);
    }
  }

  /** The first one has all the others behind it. */
  lemma BehindFirst(order: seq<TaskId>, task: TaskId, newer: set<TaskId>)
    requires NoRepeats(order) && order != [] && order[0] == task && Behind(order, task, newer)
    ensures |order| <= |newer| + 1
  {
    var rest := set j | 1 <= j < |order| :: order[j];
    SizeOf(order, |order|);
    assert rest <= newer;
    FewerKeys(rest, newer);
  }

  lemma {:induction false} SizeOf(order: seq<TaskId>, n: nat)
    requires NoRepeats(order) && 1 <= n <= |order|
    ensures |set j | 1 <= j < n :: order[j]| == n - 1
  {
    if n > 1 {
      SizeOf(order, n - 1);
      var shorter := set j | 1 <= j < n - 1 :: order[j];
      assert (set j | 1 <= j < n :: order[j]) == shorter + {order[n - 1]};
      assert order[n - 1] !in shorter;
    }
  }

  lemma BehindCounted(l: Ledger, t: TaskId, tokens: real, task: TaskId, newer: set<TaskId>)
    requires LedgerInv(l) && tokens >= 0.0 && Behind(l.order, task, newer)
    requires |newer + {t}| < 1_000
    ensures Behind(Counted(l, t, tokens).order, task, newer + {t})
  {
    BehindPushed(l, t, tokens, task, newer);
    PushedOrder(l, t, tokens);
    var p := Pushed(l, t, tokens);
    if |p.tally| > MAX_TRACKED_TASKS && p.order[0] == task {
      BehindFirst(p.order, task, newer + {t});
    }
    hide Pushed, LedgerInv;
    assert |p.tally| > MAX_TRACKED_TASKS ==> task in p.order[1..];
  }

  lemma RecentStep(c: Caps, s: State, e: Event, task: TaskId, newer: set<TaskId>)
    requires LedgerInv(s.ledger) && Enabled(s, e) && Behind(s.ledger.order, task, newer)
    requires |newer + CountedBy(s, e)| < 1_000
    ensures Behind(Next(c, s, e).ledger.order, task, newer + CountedBy(s, e))
  {
    if e.End? && Counts(e.ending) {
      BehindCounted(s.ledger, s.running[e.attempt], Spent(e.ending), task, newer);
    } else {
      assert newer + CountedBy(s, e) == newer;
    }
    hide Behind, LedgerInv, Counted;
  }

  lemma TurnOf(c: Caps, ss: seq<State>, es: seq<Event>, k: nat)
    requires IsRun(c, ss, es) && k < |es|
    ensures Enabled(ss[k], es[k]) && ss[k + 1] == Next(c, ss[k], es[k])
  {
    hide Next, Enabled;
  }

  lemma RecentStarts(c: Caps, s: State, e: Event, task: TaskId)
    requires LedgerInv(s.ledger) && Enabled(s, e) && Ends(s, e, task)
    ensures Behind(Next(c, s, e).ledger.order, task, {})
  {
    JustCounted(s.ledger, task, Spent(e.ending));
    hide Behind, LedgerInv, Counted;
  }

  lemma {:induction false} RecentRun(c: Caps, ss: seq<State>, es: seq<Event>, m: nat, k: nat, task: TaskId)
    requires IsRun(c, ss, es) && m < k <= |es| && Ends(ss[m], es[m], task)
    requires |CountedFrom(ss, es, m + 1, k)| < 1_000
    ensures Behind(ss[k].ledger.order, task, CountedFrom(ss, es, m + 1, k))
    decreases k
  {
    hide Next, Enabled, LedgerInv, Counted, Sum, Behind, CountedBy, Ends;
    TurnOf(c, ss, es, k - 1);
    Conservation(c, ss, es, k - 1);
    if m + 1 == k {
      assert CountedFrom(ss, es, m + 1, k) == {};
      hide IsRun, CountedFrom;
      RecentStarts(c, ss[m], es[m], task);
    } else {
      var newer := CountedFrom(ss, es, m + 1, k - 1);
      assert CountedFrom(ss, es, m + 1, k) == newer + CountedBy(ss[k - 1], es[k - 1]);
      hide CountedFrom;
      FewerKeys(newer, CountedFrom(ss, es, m + 1, k));
      RecentRun(c, ss, es, m, k - 1, task);
      hide IsRun;
      RecentStep(c, ss[k - 1], es[k - 1], task, newer);
    }
  }

  lemma JustCounted(l: Ledger, task: TaskId, tokens: real)
    requires LedgerInv(l) && tokens >= 0.0
    ensures Behind(Counted(l, task, tokens).order, task, {})
  {
    PushedOrder(l, task, tokens);
    var p := Pushed(l, task, tokens);
    hide Pushed, LedgerInv;
    assert |p.order| > 1 ==> p.order[1..][|p.order| - 2] == task;
  }

  /**
   * The tallies forgotten past 1,000 are those not counted for longest: a task that was counted keeps
   * its tally as long as fewer than 1,000 different tasks have been counted since.
   */
  lemma RecentTasksRemembered(c: Caps, ss: seq<State>, es: seq<Event>, m: nat, k: nat, task: TaskId)
    requires IsRun(c, ss, es) && m < k <= |es| && Ends(ss[m], es[m], task)
    requires |CountedFrom(ss, es, m + 1, k)| < 1_000
    ensures task in ss[k].ledger.tally
  {
    RecentRun(c, ss, es, m, k, task);
    Conservation(c, ss, es, k);
    hide IsRun, Sum;
  }
}
