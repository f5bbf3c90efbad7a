/** Model routing (economics/model-router.ts) over real arithmetic. */
module ModelRouter {
  import opened Budget

  /** An id by its code units, as JavaScript compares strings. */
  type Id = seq<nat>

  datatype Candidate = Candidate(id: Id, capability: real, inputPer1k: real, outputPer1k: real, contextWindow: real)

  datatype Request = Request(minCapability: real, estimatedTokens: real, budgetPressure: real)

  function Clamp(value: real, min: real, max: real): real {
    var v := if value < min then min else value;
    if v > max then max else v
  }

  function CostProxy(c: Candidate): real {
    c.inputPer1k + c.outputPer1k
  }

  function Score(c: Candidate, pressure: real): real {
    c.capability * (1.0 - pressure) - CostProxy(c) * pressure
  }

  predicate IsEligible(c: Candidate, req: Request) {
    c.capability >= req.minCapability && c.contextWindow >= req.estimatedTokens
  }

  predicate IdBefore(a: Id, b: Id) {
    if b == [] then false
    else if a == [] then true
    else if a[0] != b[0] then a[0] < b[0]
    else IdBefore(a[1..], b[1..])
  }

  predicate Preferred(a: Candidate, b: Candidate, pressure: real) {
    var delta := Score(a, pressure) - Score(b, pressure);
    if delta != 0.0 then delta > 0.0
    else if a.capability != b.capability then a.capability > b.capability
    else if CostProxy(a) != CostProxy(b) then CostProxy(a) < CostProxy(b)
    else IdBefore(a.id, b.id)
  }

  function PickBest(eligible: seq<Candidate>, pressure: real): Candidate
    requires eligible != []
  {
    if |eligible| == 1 then eligible[0]
    else
      var best := PickBest(eligible[..|eligible| - 1], pressure);
      var candidate := eligible[|eligible| - 1];
      if Preferred(candidate, best, pressure) then candidate else best
  }

  function Eligible(req: Request, candidates: seq<Candidate>): seq<Candidate> {
    if candidates == [] then []
    else
      var last := candidates[|candidates| - 1];
      Eligible(req, candidates[..|candidates| - 1]) + if IsEligible(last, req) then [last] else []
  }

  function Winner(req: Request, candidates: seq<Candidate>): Option<Candidate> {
    var eligible := Eligible(req, candidates);
    if eligible == [] then None else Some(PickBest(eligible, Clamp(req.budgetPressure, 0.0, 1.0)))
  }

  /** The id that routeModel returns, none when nothing is eligible. */
  function RouteModel(req: Request, candidates: seq<Candidate>): Option<Id> {
    var w := Winner(req, candidates);
    if w.None? then None else Some(w.value.id)
  }

  // ----- The order -----

  lemma {:induction false} IdBeforeIrreflexive(a: Id)
    ensures !IdBefore(a, a)
  {
    if a != [] { IdBeforeIrreflexive(a[1..]); }
  }

  lemma {:induction false} IdBeforeTransitive(a: Id, b: Id, c: Id)
    requires IdBefore(a, b) && IdBefore(b, c)
    ensures IdBefore(a, c)
  {
    if a != [] && a[0] == b[0] == c[0] { IdBeforeTransitive(a[1..], b[1..], c[1..]); }
  }

  lemma {:induction false} IdBeforeTotal(a: Id, b: Id)
    ensures IdBefore(a, b) || IdBefore(b, a) || a == b
  {
    if a != [] && b != [] && a[0] == b[0] {
      IdBeforeTotal(a[1..], b[1..]);
      assert a == [a[0]] + a[1..] && b == [b[0]] + b[1..];
    }
  }

  /** Neither is preferred exactly when id, capability and combined price agree. */
  predicate SameChoice(a: Candidate, b: Candidate) {
    a.id == b.id && a.capability == b.capability && CostProxy(a) == CostProxy(b)
  }

  /**
   * `preferred` is a strict order at every pressure, total up to candidates that agree in id,
   * capability and combined price; so with distinct ids it is a strict total order.
   */
  lemma PreferredIsStrictTotalOrder(a: Candidate, b: Candidate, c: Candidate, pressure: real)
    ensures !Preferred(a, a, pressure)
    ensures Preferred(a, b, pressure) && Preferred(b, c, pressure) ==> Preferred(a, c, pressure)
    ensures !Preferred(a, b, pressure) && !Preferred(b, a, pressure) <==> SameChoice(a, b)
    ensures a.id != b.id ==> Preferred(a, b, pressure) || Preferred(b, a, pressure)
  {
    IdBeforeIrreflexive(a.id);
    IdBeforeIrreflexive(b.id);
    IdBeforeTotal(a.id, b.id);
    if IdBefore(a.id, b.id) && IdBefore(b.id, c.id) { IdBeforeTransitive(a.id, b.id, c.id); }
    if IdBefore(a.id, b.id) && IdBefore(b.id, a.id) { IdBeforeTransitive(a.id, b.id, a.id); }
    SameScore(a, b, pressure);
    hide Score, IdBefore;
  }

  lemma SameScore(a: Candidate, b: Candidate, pressure: real)
    ensures a.capability == b.capability && CostProxy(a) == CostProxy(b) ==> Score(a, pressure) == Score(b, pressure)
  {
  }

  // ----- The pick -----

  ghost predicate IsMaximum(m: Candidate, cs: seq<Candidate>, pressure: real) {
    m in cs && forall c <- cs :: !Preferred(c, m, pressure)
  }

  lemma {:induction false} PickIsMaximum(cs: seq<Candidate>, pressure: real)
    requires cs != []
    ensures IsMaximum(PickBest(cs, pressure), cs, pressure)
  {
    var n := |cs| - 1;
    if n == 0 {
      PreferredIsStrictTotalOrder(cs[0], cs[0], cs[0], pressure);
    } else {
      PickIsMaximum(cs[..n], pressure);
      var best, last := PickBest(cs[..n], pressure), cs[n];
      assert cs == cs[..n] + [last];
      hide Preferred;
      forall c | c in cs ensures !Preferred(c, PickBest(cs, pressure), pressure) {
        PreferredIsStrictTotalOrder(last, last, last, pressure);
        PreferredIsStrictTotalOrder(c, last, best, pressure);
      }
    }
  }

  lemma {:induction false} EligibleOnly(req: Request, candidates: seq<Candidate>)
    ensures forall c :: c in Eligible(req, candidates) <==> c in candidates && IsEligible(c, req)
  {
    if candidates != [] {
      var n := |candidates| - 1;
      EligibleOnly(req, candidates[..n]);
      assert candidates == candidates[..n] + [candidates[n]];
    }
  }

  /**
   * The winner is an eligible candidate that no eligible candidate beats, and there is one exactly
   * when any is eligible.
   */
  lemma WinnerIsBest(req: Request, candidates: seq<Candidate>)
    ensures var w := Winner(req, candidates);
            && (w.None? <==> forall c <- candidates :: !IsEligible(c, req))
            && (w.Some? ==>
                  && w.value in candidates && IsEligible(w.value, req)
                  && forall c <- candidates :: IsEligible(c, req) && c.id != w.value.id ==>
                    Preferred(w.value, c, Clamp(req.budgetPressure, 0.0, 1.0)))
  {
    EligibleOnly(req, candidates);
    var eligible, p := Eligible(req, candidates), Clamp(req.budgetPressure, 0.0, 1.0);
    if eligible != [] {
      PickIsMaximum(eligible, p);
      var w := PickBest(eligible, p);
      hide Preferred, IsEligible, PickBest;
      forall c | c in eligible && c.id != w.id ensures Preferred(w, c, p) {
        PreferredIsStrictTotalOrder(w, c, c, p);
      }
    } else {
      assert forall c <- candidates :: !IsEligible(c, req);
    }
  }

  /** The order of ids: the first difference decides, and a shorter id comes before what it begins. */
  ghost predicate ComesBefore(a: Id, b: Id, k: nat) {
    && k <= |a| && k < |b| && a[..k] == b[..k]
    && (k == |a| || a[k] < b[k])
  }

  lemma {:induction false} IdOrder(a: Id, b: Id)
    ensures IdBefore(a, b) <==> exists k: nat :: ComesBefore(a, b, k)
  {
    if a != [] && b != [] && a[0] == b[0] {
      IdOrder(a[1..], b[1..]);
      if IdBefore(a, b) {
        var k: nat :| ComesBefore(a[1..], b[1..], k);
        assert a[..k + 1] == [a[0]] + a[1..][..k] && b[..k + 1] == [b[0]] + b[1..][..k];
        assert ComesBefore(a, b, k + 1);
      }
      if k: nat :| ComesBefore(a, b, k) {
        assert k > 0;
        assert a[1..][..k - 1] == a[..k][1..] && b[1..][..k - 1] == b[..k][1..];
        assert ComesBefore(a[1..], b[1..], k - 1);
      }
    } else {
      if IdBefore(a, b) { assert ComesBefore(a, b, 0); }
      forall k: nat ensures ComesBefore(a, b, k) ==> k == 0 {
        if 0 < k <= |a| && k < |b| { assert a[..k][0] == a[0] && b[..k][0] == b[0]; }
      }
    }
  }

  /**
   * The winner in numbers: of the candidates with enough capability and context, one whose capability
   * weighted against its combined price is highest, the budget pressure held between 0 and 1; among
   * equals the more capable, then the cheaper, then the one whose id comes first.
   */
  lemma WinnerInNumbers(req: Request, candidates: seq<Candidate>)
    ensures var w := Winner(req, candidates);
            var p := if req.budgetPressure < 0.0 then 0.0 else if req.budgetPressure > 1.0 then 1.0
                     else req.budgetPressure;
            && (w.None? <==>
                  forall c <- candidates :: c.capability < req.minCapability || c.contextWindow < req.estimatedTokens)
            && (w.Some? ==>
                  && w.value in candidates
                  && w.value.capability >= req.minCapability && w.value.contextWindow >= req.estimatedTokens
                  && forall c <- candidates ::
                       c.capability >= req.minCapability && c.contextWindow >= req.estimatedTokens ==>
                         NoBetter(c, w.value, p))
            && RouteModel(req, candidates) == if w.None? then None else Some(w.value.id)
  {
    EligibleOnly(req, candidates);
    var eligible, p := Eligible(req, candidates), Clamp(req.budgetPressure, 0.0, 1.0);
    if eligible != [] {
      PickIsMaximum(eligible, p);
      var w := PickBest(eligible, p);
      hide Preferred, PickBest, Eligible, Clamp, NoBetter;
      forall c | c in eligible ensures NoBetter(c, w, p) { NotPreferred(c, w, p); }
    } else {
      assert forall c <- candidates :: !IsEligible(c, req);
    }
  }

  /** In score, then capability, then combined price, then id, c does not beat w. */
  ghost predicate NoBetter(c: Candidate, w: Candidate, p: real) {
    var priceC, priceW := c.inputPer1k + c.outputPer1k, w.inputPer1k + w.outputPer1k;
    var scoreC, scoreW := c.capability * (1.0 - p) - priceC * p, w.capability * (1.0 - p) - priceW * p;
    && scoreC <= scoreW
    && (scoreC == scoreW ==>
          && c.capability <= w.capability
          && (c.capability == w.capability ==>
                && priceW <= priceC
                && (priceW == priceC ==> forall k: nat :: !ComesBefore(c.id, w.id, k))))
  }

  lemma NotPreferred(c: Candidate, w: Candidate, p: real)
    requires !Preferred(c, w, p)
    ensures NoBetter(c, w, p)
  {
    IdOrder(c.id, w.id);
    hide IdBefore;
  }

  /** The decision depends on which candidates there are, not on their order or repetition. */
  lemma RouteIgnoresOrder(req: Request, a: seq<Candidate>, b: seq<Candidate>)
    requires forall c :: c in a <==> c in b
    ensures RouteModel(req, a) == RouteModel(req, b)
  {
    EligibleOnly(req, a);
    EligibleOnly(req, b);
    var ea, eb, p := Eligible(req, a), Eligible(req, b), Clamp(req.budgetPressure, 0.0, 1.0);
    assert forall c :: c in ea <==> c in eb;
    assert ea == [] <==> eb == [] by {
      if ea != [] { assert ea[0] in eb; }
      if eb != [] { assert eb[0] in ea; }
    }
    if ea != [] {
      PickIsMaximum(ea, p);
      PickIsMaximum(eb, p);
      var x, y := PickBest(ea, p), PickBest(eb, p);
      PreferredIsStrictTotalOrder(x, y, x, p);
      hide Preferred, PickBest;
    }
  }

  // ----- Pressure -----

  /** The exchange argument: what wins at each of two pressures orders the prices and the capabilities. */
  lemma Exchange(capA: real, costA: real, capB: real, costB: real, p: real, q: real)
    requires 0.0 <= p < q <= 1.0
    requires capA * (1.0 - p) - costA * p >= capB * (1.0 - p) - costB * p
    requires capB * (1.0 - q) - costB * q >= capA * (1.0 - q) - costA * q
    ensures costB <= costA && capB <= capA
  {
    var dc, dk := capA - capB, costA - costB;
    assert dc * (1.0 - p) - dk * p >= 0.0;
    assert dc * (1.0 - q) - dk * q <= 0.0;
    assert (dc + dk) * (q - p) >= 0.0 by {
      assert (dc + dk) * (q - p) == (dc * (1.0 - p) - dk * p) - (dc * (1.0 - q) - dk * q);
    }
    assert dc + dk >= 0.0 by { SignOf(dc + dk, q - p); }
    if dk < 0.0 {
      Positive(dc, -dk, q);
      assert false;
    }
    if dc < 0.0 {
      Positive(-dc, dk, p);
      assert false;
    }
  }

  lemma SignOf(x: real, y: real)
    requires x * y >= 0.0 && y > 0.0
    ensures x >= 0.0
  {
    if x < 0.0 { NegativeTimes(-x, y); }
  }

  lemma NegativeTimes(x: real, y: real)
    requires x > 0.0 && y > 0.0
    ensures x * y > 0.0
  {
  }

  lemma Positive(x: real, y: real, p: real)
    requires x > 0.0 && y > 0.0 && 0.0 <= p <= 1.0
    ensures x * (1.0 - p) + y * p > 0.0
  {
    if p > 0.0 { NegativeTimes(y, p); }
    if p < 1.0 { NegativeTimes(x, 1.0 - p); }
  }

  lemma NotPreferredScores(a: Candidate, b: Candidate, p: real)
    requires !Preferred(b, a, p)
    ensures Score(a, p) >= Score(b, p)
  {
    hide Score;
  }

  lemma WinnersExchange(a: Candidate, b: Candidate, p: real, q: real)
    requires 0.0 <= p < q <= 1.0 && !Preferred(b, a, p) && !Preferred(a, b, q)
    ensures CostProxy(b) <= CostProxy(a) && b.capability <= a.capability
  {
    NotPreferredScores(a, b, p);
    NotPreferredScores(b, a, q);
    hide Preferred, CostProxy;
    Exchange(a.capability, CostProxy(a), b.capability, CostProxy(b), p, q);
  }

  /** Raising the budget pressure never raises the price of the chosen model, nor its capability. */
  lemma PressureRightSizes(req: Request, candidates: seq<Candidate>, higher: real)
    requires req.budgetPressure <= higher
    ensures var w, v := Winner(req, candidates), Winner(req.(budgetPressure := higher), candidates);
            && (w.None? <==> v.None?)
            && (w.Some? ==> CostProxy(v.value) <= CostProxy(w.value) && v.value.capability <= w.value.capability)
  {
    var req' := req.(budgetPressure := higher);
    EligibleOnly(req, candidates);
    SameEligible(req, req', candidates);
    var es := Eligible(req, candidates);
    var p, q := Clamp(req.budgetPressure, 0.0, 1.0), Clamp(higher, 0.0, 1.0);
    if es != [] && p < q {
      PickIsMaximum(es, p);
      PickIsMaximum(es, q);
      var a, b := PickBest(es, p), PickBest(es, q);
      hide Preferred, CostProxy, PickBest, Clamp, Eligible;
      WinnersExchange(a, b, p, q);
    }
  }

  lemma {:induction false} SameEligible(req: Request, other: Request, candidates: seq<Candidate>)
    requires req.minCapability == other.minCapability && req.estimatedTokens == other.estimatedTokens
    ensures Eligible(req, candidates) == Eligible(other, candidates)
  {
    if candidates != [] { SameEligible(req, other, candidates[..|candidates| - 1]); }
  }
}
