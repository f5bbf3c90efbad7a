/**
 * The spend and the stop in plain numbers: what each event adds to the totals, and at which totals the
 * workflow stops and says so.
 */
module OrchestratorNumbers {
  import opened Budget
  import opened Orchestrator
  import opened OrchestratorLedger
  import opened OrchestratorBudget
  import opened OrchestratorConservation

  /** What the event hands in: the result's spend, the delta, or the saved spend. */
  predicate HandsIn(x: Extractor, w: World, e: Event, tokens: real, cost: real) {
    match e
    case Completed(_, result) => Reports(x(result), tokens, cost)
    case RecordSpend(delta) => Reports(Some(delta), tokens, cost)
    case LoadOk => Reports(if w.store.Some? then Some(w.store.value.spend) else None, tokens, cost)
    case _ => tokens == 0.0 && cost == 0.0
  }

  /**
   * The totals in numbers: a completion, a recordSpend and a load add the finite, non-negative amounts
   * handed in, tokens to tokens and cost to cost; what is missing, negative or no finite number adds
   * nothing, and neither does any other event.
   */
  lemma SpendInNumbers(x: Extractor, ws: seq<World>, es: seq<Event>, k: nat, tokens: real, cost: real)
    requires IsRun(x, ws, es) && k < |es| && !Starts(ws[k], es[k]) && HandsIn(x, ws[k], es[k], tokens, cost)
    ensures ws[k + 1].inst.totals == Spend(ws[k].inst.totals.tokens + tokens, ws[k].inst.totals.cost + cost)
  {
    LedgerRun(x, ws, es, k);
    Turn(x, ws, es, k);
    StepAdds(x, ws[k], es[k]);
    HandedIn(x, ws[k], es[k], tokens, cost);
    hide IsRun, Next, Enabled, LedgerInv, HandsIn, Added;
  }

  lemma HandedIn(x: Extractor, w: World, e: Event, tokens: real, cost: real)
    requires HandsIn(x, w, e, tokens, cost)
    ensures !Starts(w, e) ==> Added(x, w, e) == Spend(tokens, cost)
  {
  }

  /** A new instance and a reset begin at nothing. */
  lemma StartsAtZero(x: Extractor, ws: seq<World>, es: seq<Event>, k: nat)
    requires IsRun(x, ws, es) && k < |es| && Starts(ws[k], es[k])
    ensures ws[k + 1].inst.totals == Spend(0.0, 0.0) && ws[k + 1].inst.stop.None? && ws[k + 1].inst.reports == 0
  {
    Turn(x, ws, es, k);
    hide IsRun;
  }

  /**
   * The stop in numbers: at every await point of every run the workflow is stopped if and only if a
   * finite, positive ceiling is reached by the totals, and the stop names the tokens exactly when, as
   * it was set, they had reached theirs.
   */
  lemma StopInNumbers(x: Extractor, store: Option<Record>, ws: seq<World>, es: seq<Event>, k: nat)
    requires IsRunFrom(x, store, ws, es) && k < |ws|
    ensures var i := ws[k].inst;
            var tokens, cost := i.budget.maxTokens, i.budget.maxCost;
            && (i.stop.Some? <==>
                  || (tokens.Finite? && tokens.value > 0.0 && i.totals.tokens >= tokens.value)
                  || (cost.Finite? && cost.value > 0.0 && i.totals.cost >= cost.value))
            && (i.stop.Some? ==>
                  var s := i.stop.value;
                  && s.totals.tokens <= i.totals.tokens && s.totals.cost <= i.totals.cost
                  && (s.detail.TokenBudget? <==>
                        tokens.Finite? && tokens.value > 0.0 && s.totals.tokens >= tokens.value)
                  && (s.detail.CostBudget? ==> cost.Finite? && cost.value > 0.0 && s.totals.cost >= cost.value))
  {
    BudgetStopExact(x, store, ws, es, k);
    hide IsRunFrom, Shape;
  }

  /** A stop is set by this event. */
  predicate Stops(i: Instance, i': Instance) {
    i.stop.None? && i'.stop.Some?
  }

  lemma InstallReports(i: Instance, store: Option<Record>)
    ensures var i' := InstallLoad(i, store);
            i'.reports == i.reports + if Stops(i, i') && !(store.Some? && store.value.stopped) then 1 else 0
  {
    hide CleanTotals, OverBudget;
  }

  lemma NoteReports(i: Instance, delta: RawTotals)
    ensures var i' := NoteSpend(i, delta); i'.reports == i.reports + if Stops(i, i') then 1 else 0
  {
    hide CleanTotals, OverBudget;
  }

  lemma CompleteReports(i: Instance, id: nat, taskId: string, result: string, charge: Option<Spend>)
    requires id in i.calls && i.calls[id].gen in i.objects
    ensures var i' := Complete(i, id, taskId, result, charge);
            i'.reports == i.reports + if Stops(i, i') then 1 else 0
  {
    hide OverBudget, TaskIds;
  }

  lemma StartReports(i: Instance)
    requires i.chain != [] && i.chain[0].Save? && i.generation in i.objects
    ensures StartJob(i).reports == i.reports && StartJob(i).stop == i.stop
  {
  }

  lemma ProceedReports(i: Instance)
    requires i.chain != [] && i.generation in i.objects
    ensures ProceedJob(i).reports == i.reports && ProceedJob(i).stop == i.stop
  {
    QuietPop(i, true);
    hide PopJob, Snapshot;
  }

  /**
   * A stop is reported when it is set, once, by whatever event reaches a ceiling, unless it is one
   * that was saved: that one was reported before.
   */
  lemma ReportedWhenSet(x: Extractor, ws: seq<World>, es: seq<Event>, k: nat)
    requires IsRun(x, ws, es) && k < |es| && !Starts(ws[k], es[k])
    ensures var i, i' := ws[k].inst, ws[k + 1].inst;
            var saved := es[k].LoadOk? && ws[k].store.Some? && ws[k].store.value.stopped;
            i'.reports == i.reports + if i.stop.None? && i'.stop.Some? && !saved then 1 else 0
  {
    LedgerRun(x, ws, es, k);
    Turn(x, ws, es, k);
    hide IsRun, LedgerInv;
    var w, e, i := ws[k], es[k], ws[k].inst;
    if Quiet(e) {
      QuietStep(x, w, e);
      hide Next, Enabled, Shape;
    } else {
      hide Complete, InstallLoad, NoteSpend, StartJob, ProceedJob, Charge, Shape, TaskIds;
      match e
      case LoadOk => InstallReports(i, w.store);
      case RecordSpend(delta) => NoteReports(i, delta);
      case Reused(id, taskId, from) => CompleteReports(i, id, taskId, i.objects[i.calls[id].gen][from].result, None);
      case Completed(id, result) => CompleteReports(i, id, TaskIdOf(i.calls[id]), result, Some(Charge(x, result)));
      case JobStarts => StartReports(i);
      case JobProceeds => ProceedReports(i);
      case StoreLands =>
    }
  }
}
