/** Spend amounts, their cleaning, and the workflow ceilings (src/shared/budget.ts). */
module Budget {

  datatype Option<+T> = None | Some(value: T)

  /** A JavaScript number: a finite value (taken as a real) or one of NaN and the infinities. */
  datatype Number = Finite(value: real) | NotFinite

  /** What a caller may hand in as an amount, by what `Number(x ?? 0)` does with it. */
  datatype Raw = Missing | Converts(n: Number) | Throws

  datatype RawTotals = RawTotals(tokens: Raw, cost: Raw)

  datatype Spend = Spend(tokens: real, cost: real)

  const ZERO := Spend(0.0, 0.0)

  // (the empty frame keeps the solver from evaluating sums of literals without end)
  function Plus(a: Spend, b: Spend): Spend
    reads {}
  {
    Spend(a.tokens + b.tokens, a.cost + b.cost)
  }

  lemma PlusZero(s: Spend)
    ensures Plus(s, ZERO) == s
  {
  }

  predicate AtMost(a: Spend, b: Spend) {
    a.tokens <= b.tokens && a.cost <= b.cost
  }

  predicate NonNegative(s: Spend) {
    AtMost(ZERO, s)
  }

  /** What an amount comes to: the finite, non-negative number handed in, and nothing for anything else. */
  predicate Reported(x: Raw, v: real) {
    || (x == Converts(Finite(v)) && v >= 0.0)
    || (v == 0.0 && (x.Converts? && x.n.Finite? ==> x.n.value < 0.0))
  }

  /** The same for both amounts; when nothing is handed in, both are nothing. */
  predicate Reports(t: Option<RawTotals>, tokens: real, cost: real) {
    if t.None? then tokens == 0.0 && cost == 0.0 else Reported(t.value.tokens, tokens) && Reported(t.value.cost, cost)
  }

  /** A bad amount counts as nothing; a good one is unchanged. */
  function CleanAmount(x: Raw): (r: real)
    ensures r >= 0.0
    ensures forall v: real :: Reported(x, v) <==> r == v
  {
    if x.Converts? && x.n.Finite? && x.n.value > 0.0 then x.n.value else 0.0
  }

  function CleanTotals(t: RawTotals): (r: Spend)
    ensures NonNegative(r) && Reports(Some(t), r.tokens, r.cost)
  {
    Spend(CleanAmount(t.tokens), CleanAmount(t.cost))
  }

  /** The raw form in which a total is saved. */
  function AsRaw(s: Spend): (t: RawTotals)
    ensures NonNegative(s) ==> CleanTotals(t) == s
  {
    RawTotals(Converts(Finite(s.tokens)), Converts(Finite(s.cost)))
  }

  datatype WorkflowBudget = WorkflowBudget(maxTokens: Number, maxCost: Number)

  predicate IsCapped(ceiling: Number) {
    ceiling.Finite? && ceiling.value > 0.0
  }

  datatype Breach = TokenBudget | CostBudget

  function OverBudget(totals: Spend, b: WorkflowBudget): Option<Breach> {
    if IsCapped(b.maxTokens) && totals.tokens >= b.maxTokens.value then Some(TokenBudget)
    else if IsCapped(b.maxCost) && totals.cost >= b.maxCost.value then Some(CostBudget)
    else None
  }

  // ----- Sums over the distinct task ids of a ledger -----

  ghost function SumOver(ids: set<string>, paid: map<string, Spend>): Spend
    requires ids <= paid.Keys
    decreases ids
  {
    if ids == {} then ZERO
    else
      var t :| t in ids;
      Plus(paid[t], SumOver(ids - {t}, paid))
  }

  lemma {:induction false} SumOverRemove(ids: set<string>, paid: map<string, Spend>, t: string)
    requires ids <= paid.Keys && t in ids
    ensures SumOver(ids, paid) == Plus(paid[t], SumOver(ids - {t}, paid))
    decreases ids
  {
    var u :| u in ids && SumOver(ids, paid) == Plus(paid[u], SumOver(ids - {u}, paid));
    if u != t {
      SumOverRemove(ids - {u}, paid, t);
      SumOverRemove(ids - {t}, paid, u);
      assert ids - {u} - {t} == ids - {t} - {u};
      var rest := SumOver(ids - {u} - {t}, paid);
      assert SumOver(ids, paid) == Plus(paid[u], Plus(paid[t], rest));
      assert SumOver(ids - {t}, paid) == Plus(paid[u], rest);
      assert Plus(paid[u], Plus(paid[t], rest)) == Plus(paid[t], Plus(paid[u], rest));
    }
  }

  lemma {:induction false} SumOverFrame(ids: set<string>, paid: map<string, Spend>, paid': map<string, Spend>)
    requires ids <= paid.Keys && ids <= paid'.Keys
    requires forall t <- ids :: paid[t] == paid'[t]
    ensures SumOver(ids, paid) == SumOver(ids, paid')
    decreases ids
  {
    if ids != {} {
      var t :| t in ids;
      SumOverRemove(ids, paid, t);
      SumOverRemove(ids, paid', t);
      SumOverFrame(ids - {t}, paid, paid');
    }
  }

  /** Paying for one more task id adds exactly its spend. */
  lemma SumOverAdd(ids: set<string>, paid: map<string, Spend>, t: string, amount: Spend)
    requires ids <= paid.Keys && t !in ids
    ensures SumOver(ids + {t}, paid[t := amount]) == Plus(SumOver(ids, paid), amount)
  {
    SumOverRemove(ids + {t}, paid[t := amount], t);
    assert ids + {t} - {t} == ids;
    SumOverFrame(ids, paid, paid[t := amount]);
  }
}
