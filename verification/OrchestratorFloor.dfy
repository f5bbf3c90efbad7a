/**
 * The least the totals can be: however the results under one task id differ, the spend of the
 * distinct task ids of the steps, read off any one result of each, plus the recorded deltas.
 */
module OrchestratorFloor {
  import opened Budget
  import opened Orchestrator

  /** One saved result for each task id that the steps show. */
  ghost predicate Picks(cp: Checkpoint, pick: map<string, string>) {
    && pick.Keys == TaskIds(cp)
    && forall t <- pick :: Kept(cp, t, pick[t])
  }

  /** Some step shows this result under this task id. */
  ghost predicate Kept(cp: Checkpoint, taskId: string, result: string) {
    exists n <- cp :: cp[n] == StepCheckpoint(taskId, result)
  }

  ghost function Prices(x: Extractor, pick: map<string, string>): map<string, Spend> {
    map t | t in pick :: Charge(x, pick[t])
  }

  ghost function Worth(x: Extractor, pick: map<string, string>): Spend {
    SumOver(pick.Keys, Prices(x, pick))
  }

  ghost predicate Floor(x: Extractor, cp: Checkpoint, totals: Spend, deltas: Spend) {
    forall pick :: Picks(cp, pick) ==> AtMost(Plus(Worth(x, pick), deltas), totals)
  }

  /** A larger set of task ids costs at least as much. */
  lemma {:induction false} SumOverMore(a: set<string>, m: map<string, Spend>, b: set<string>, m': map<string, Spend>)
    requires a <= m.Keys && b <= m'.Keys && a <= b
    requires forall t <- a :: m[t] == m'[t]
    requires forall t <- b :: NonNegative(m'[t])
    ensures AtMost(SumOver(a, m), SumOver(b, m')) && NonNegative(SumOver(b, m'))
    decreases b
  {
    if b != {} {
      var t :| t in b;
      SumOverRemove(b, m', t);
      if t in a {
        SumOverRemove(a, m, t);
        SumOverMore(a - {t}, m, b - {t}, m');
      } else {
        SumOverMore(a, m, b - {t}, m');
      }
    }
  }

  lemma AnyResult(cp: Checkpoint, t: string) returns (result: string)
    requires t in TaskIds(cp)
    ensures Kept(cp, t, result)
  {
    var n :| n in cp && cp[n].taskId == t;
    result := cp[n].result;
    assert cp[n] == StepCheckpoint(t, result);
  }

  /** A choice among some of the steps extends to all of them. */
  lemma {:induction false} Completes(cp: Checkpoint, some: map<string, string>, ids: set<string>)
    returns (pick: map<string, string>)
    requires forall t <- some :: Kept(cp, t, some[t])
    requires some.Keys <= ids <= TaskIds(cp)
    ensures pick.Keys == ids && forall t <- pick :: Kept(cp, t, pick[t])
    ensures forall t <- some :: pick[t] == some[t]
    decreases ids - some.Keys
  {
    if ids <= some.Keys {
      pick := some;
    } else {
      var t :| t in ids && t !in some;
      var result := AnyResult(cp, t);
      assert ids - some[t := result].Keys == ids - some.Keys - {t};
      hide Kept, TaskIds;
      pick := Completes(cp, some[t := result], ids);
    }
  }

  lemma KeptShown(cp: Checkpoint, t: string, result: string)
    requires Kept(cp, t, result)
    ensures t in TaskIds(cp)
  {
  }

  lemma KeptBefore(cp: Checkpoint, name: string, taskId: string, result: string, t: string, r: string)
    requires Kept(cp[name := StepCheckpoint(taskId, result)], t, r)
    ensures Kept(cp, t, r) || (t == taskId && r == result)
  {
    var cp' := cp[name := StepCheckpoint(taskId, result)];
    var n :| n in cp' && cp'[n] == StepCheckpoint(t, r);
    if n != name { assert cp[n] == StepCheckpoint(t, r); }
  }

  /** Writing a step adds at most its own charge, and nothing when its result was kept already. */
  lemma WriteAddsAtMost(x: Extractor, cp: Checkpoint, name: string, taskId: string, result: string,
                        pick': map<string, string>) returns (pick: map<string, string>)
    requires Picks(cp[name := StepCheckpoint(taskId, result)], pick')
    ensures Picks(cp, pick)
    ensures AtMost(Worth(x, pick'), Plus(Worth(x, pick), Charge(x, result)))
    ensures Kept(cp, taskId, result) ==> AtMost(Worth(x, pick'), Worth(x, pick))
  {
    var some := map t | t in pick' && Kept(cp, t, pick'[t]) :: pick'[t];
    forall t | t in pick' ensures t in some || (t == taskId && pick'[t] == result) {
      KeptBefore(cp, name, taskId, result, t, pick'[t]);
    }
    forall t | t in some ensures t in TaskIds(cp) { KeptShown(cp, t, some[t]); }
    pick := Completes(cp, some, TaskIds(cp));
    hide Kept, TaskIds, Charge;
    SumOverMore(some.Keys, Prices(x, pick'), pick.Keys, Prices(x, pick));
    if taskId in pick' && taskId !in some {
      assert pick'.Keys - {taskId} == some.Keys;
      SumOverRemove(pick'.Keys, Prices(x, pick'), taskId);
    } else {
      assert pick'.Keys == some.Keys;
    }
  }

  /** A charged completion keeps the floor. */
  lemma FloorOfCharge(x: Extractor, cp: Checkpoint, totals: Spend, deltas: Spend,
                      name: string, taskId: string, result: string)
    requires Floor(x, cp, totals, deltas)
    ensures Floor(x, cp[name := StepCheckpoint(taskId, result)], Plus(totals, Charge(x, result)), deltas)
  {
    hide Picks, Worth, Charge;
    forall pick' | Picks(cp[name := StepCheckpoint(taskId, result)], pick')
      ensures AtMost(Plus(Worth(x, pick'), deltas), Plus(totals, Charge(x, result)))
    {
      var pick := WriteAddsAtMost(x, cp, name, taskId, result, pick');
      assert Picks(cp, pick);
    }
  }

  /** Reusing a kept result keeps the floor without any charge. */
  lemma FloorOfReuse(x: Extractor, cp: Checkpoint, totals: Spend, deltas: Spend, name: string, from: string)
    requires Floor(x, cp, totals, deltas) && from in cp
    ensures Floor(x, cp[name := StepCheckpoint(cp[from].taskId, cp[from].result)], totals, deltas)
  {
    assert Kept(cp, cp[from].taskId, cp[from].result);
    hide Picks, Worth, Charge, Kept;
    forall pick' | Picks(cp[name := StepCheckpoint(cp[from].taskId, cp[from].result)], pick')
      ensures AtMost(Plus(Worth(x, pick'), deltas), totals)
    {
      var pick := WriteAddsAtMost(x, cp, name, cp[from].taskId, cp[from].result, pick');
      assert Picks(cp, pick);
    }
  }

  /** More spend with the same steps; what of it was recorded counts as a delta. */
  lemma FloorOfSpend(x: Extractor, cp: Checkpoint, totals: Spend, deltas: Spend, amount: Spend)
    requires Floor(x, cp, totals, deltas) && NonNegative(amount)
    ensures Floor(x, cp, Plus(totals, amount), deltas) && Floor(x, cp, Plus(totals, amount), Plus(deltas, amount))
  {
    hide Picks, Worth;
  }

  lemma FloorOfNothing(x: Extractor, cp: Checkpoint)
    requires cp == map[]
    ensures Floor(x, cp, ZERO, ZERO)
  {
    forall pick | Picks(cp, pick) ensures AtMost(Plus(Worth(x, pick), ZERO), ZERO) {
      assert pick.Keys == {};
      PlusZero(Worth(x, pick));
    }
    hide Plus;
  }

  /** The saved floor on top of what was recorded before the load. */
  lemma FloorOfLoad(x: Extractor, none: Checkpoint, totals: Spend, deltas: Spend,
                    steps: Checkpoint, saved: Spend, more: Spend)
    requires none == map[] && Floor(x, none, totals, deltas) && Floor(x, steps, saved, more)
    ensures Floor(x, steps, Plus(totals, saved), Plus(deltas, more))
  {
    var nothing: map<string, string> := map[];
    assert Picks(none, nothing);
    assert AtMost(Plus(Worth(x, nothing), deltas), totals) && Worth(x, nothing) == ZERO;
    hide Picks, Worth;
  }
}
