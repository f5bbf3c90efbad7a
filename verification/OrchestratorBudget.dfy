/**
 * The budget stop: exact at every await point, and with a bounded overshoot.
 */
module OrchestratorBudget {
  import opened Budget
  import opened Orchestrator
  import opened OrchestratorLedger

  ghost predicate StopExact(i: Instance) {
    && NonNegative(i.totals)
    && (i.stop.Some? <==> OverBudget(i.totals, i.budget).Some?)
    && (i.stop.Some? ==> Some(i.stop.value.detail) == OverBudget(i.stop.value.totals, i.budget))
    && (i.stop.Some? ==> AtMost(i.stop.value.totals, i.totals))
    && i.reports <= (if i.stop.Some? then 1 else 0)
  }

  lemma MoreStaysOver(a: Spend, b: Spend, budget: WorkflowBudget)
    requires AtMost(a, b)
    ensures OverBudget(a, budget).Some? ==> OverBudget(b, budget).Some?
  {
  }

  lemma NothingIsUnder(budget: WorkflowBudget)
    ensures OverBudget(ZERO, budget).None?
  {
  }

  lemma AddStays(i: Instance, amount: Spend)
    requires StopExact(i) && NonNegative(amount)
    ensures StopExact(AddSpend(i, amount)) && AtMost(i.totals, AddSpend(i, amount).totals)
    ensures AddSpend(i, amount).totals == Plus(i.totals, amount) && AddSpend(i, amount).budget == i.budget
  {
    MoreStaysOver(i.totals, Plus(i.totals, amount), i.budget);
  }

  lemma InstallStays(i: Instance, store: Option<Record>)
    requires StopExact(i)
    ensures StopExact(InstallLoad(i, store)) && AtMost(i.totals, InstallLoad(i, store).totals)
  {
    var saved := if store.Some? then CleanTotals(store.value.spend) else ZERO;
    MoreStaysOver(i.totals, Plus(i.totals, saved), i.budget);
    hide OverBudget, CleanTotals;
  }

  lemma NoteStays(i: Instance, delta: RawTotals)
    requires StopExact(i)
    ensures StopExact(NoteSpend(i, delta)) && AtMost(i.totals, NoteSpend(i, delta).totals)
  {
    var amount := CleanTotals(delta);
    AddStays(i.(book := i.book.(deltas := Plus(i.book.deltas, amount), recent := i.book.recent + [amount])), amount);
    hide AddSpend, OverBudget, CleanTotals;
  }

  lemma CompleteStays(i: Instance, id: nat, taskId: string, result: string, charge: Option<Spend>)
    requires StopExact(i) && id in i.calls && i.calls[id].gen in i.objects
    requires charge.Some? ==> NonNegative(charge.value)
    ensures var i' := Complete(i, id, taskId, result, charge);
            StopExact(i') && AtMost(i.totals, i'.totals)
  {
    var c := i.calls[id];
    if charge.Some? {
      var charged := BookCharge(i.book, c.gen == i.generation, i.objects[c.gen], taskId, charge.value);
      AddStays(i.(book := charged), charge.value);
    }
    hide AddSpend, OverBudget, BookCharge, BookWrite;
  }

  lemma JobsStay(i: Instance)
    requires StopExact(i) && i.generation in i.objects
    ensures i.chain != [] ==> StopExact(StartJob(i)) && StopExact(ProceedJob(i))
    ensures i.chain != [] && i.chain[0].Save? ==> StartJob(i).totals == i.totals
    ensures i.chain != [] ==> ProceedJob(i).totals == i.totals
    ensures StopExact(Land(i)) && Land(i).totals == i.totals
  {
    NothingIsUnder(i.budget);
    hide OverBudget;
    if i.chain != [] { QuietPop(i, true); }
    hide PopJob, Snapshot;
  }

  lemma StopStep(x: Extractor, w: World, e: Event)
    requires Shape(w.inst) && StopExact(w.inst) && Enabled(w, e)
    ensures StopExact(Next(x, w, e).inst)
    ensures !e.Crash? && !(e.JobStarts? && w.inst.chain[0].Wipe?) ==> AtMost(w.inst.totals, Next(x, w, e).inst.totals)
  {
    var i := w.inst;
    if Quiet(e) {
      QuietStep(x, w, e);
      hide Next, Enabled, Shape, Quiet, OverBudget;
    } else {
      hide Complete, InstallLoad, NoteSpend, StartJob, ProceedJob, Land, Shape, Charge, OverBudget, TaskIds;
      match e
      case LoadOk => InstallStays(i, w.store);
      case Reused(id, taskId, from) => CompleteStays(i, id, taskId, i.objects[i.calls[id].gen][from].result, None);
      case Completed(id, result) => CompleteStays(i, id, TaskIdOf(i.calls[id]), result, Some(Charge(x, result)));
      case JobStarts => JobsStay(i);
      case JobProceeds => JobsStay(i);
      case StoreLands => JobsStay(i);
      case RecordSpend(delta) => NoteStays(i, delta);
      case Crash(budget) => NothingIsUnder(budget);
    }
  }

  /** Worlds joined by enabled events from a fresh instance, over whatever the store holds. */
  ghost predicate IsRunFrom(x: Extractor, store: Option<Record>, ws: seq<World>, es: seq<Event>) {
    && |ws| == |es| + 1
    && ws[0].store == store && ws[0].inst == Fresh(ws[0].inst.budget)
    && forall k :: 0 <= k < |es| ==> Enabled(ws[k], es[k]) && ws[k + 1] == Next(x, ws[k], es[k])
  }

  /**
   * The stop is exact: whatever record the run starts from (its stop flag included), at every await
   * point the stop record is set if and only if the totals reach a ceiling of the current budget,
   * and it has been reported at most once.
   */
  lemma {:induction false} BudgetStopExact(x: Extractor, store: Option<Record>, ws: seq<World>, es: seq<Event>, k: nat)
    requires IsRunFrom(x, store, ws, es) && k < |ws|
    ensures Shape(ws[k].inst) && StopExact(ws[k].inst)
  {
    if k == 0 {
      NothingIsUnder(ws[0].inst.budget);
      FreshAccounts(x, ws[0].inst.budget);
    } else {
      BudgetStopExact(x, store, ws, es, k - 1);
      assert Enabled(ws[k - 1], es[k - 1]) && ws[k] == Next(x, ws[k - 1], es[k - 1]);
      hide IsRunFrom, Next, Enabled, Shape, StopExact;
      ShapeStep(x, ws[k - 1], es[k - 1]);
      StopStep(x, ws[k - 1], es[k - 1]);
    }
  }

  /** The totals never decrease except by a crash or a clear()'s reset. */
  lemma TotalsOnlyGrow(x: Extractor, store: Option<Record>, ws: seq<World>, es: seq<Event>, k: nat)
    requires IsRunFrom(x, store, ws, es) && k < |es|
    requires !es[k].Crash? && !(es[k].JobStarts? && ws[k].inst.chain[0].Wipe?)
    ensures AtMost(ws[k].inst.totals, ws[k + 1].inst.totals)
  {
    BudgetStopExact(x, store, ws, es, k);
    assert Enabled(ws[k], es[k]) && ws[k + 1] == Next(x, ws[k], es[k]);
    hide IsRunFrom, Next, Enabled, Shape, StopExact;
    StopStep(x, ws[k], es[k]);
  }

  predicate Flying(p: Phase) {
    p.Dispatching? || p.Waiting? || p.Producing?
  }

  /**
   * Nothing is dispatched or produced while a ceiling is reached or the emergency stop is set;
   * a checkpointed step is still replayed.
   */
  lemma NoDispatchWhileStopped(x: Extractor, store: Option<Record>, ws: seq<World>, es: seq<Event>, k: nat, id: nat)
    requires IsRunFrom(x, store, ws, es) && k < |es| && es[k] == Proceed(id)
    ensures Flying(ws[k + 1].inst.calls[id].phase) ==>
              OverBudget(ws[k].inst.totals, ws[k].inst.budget).None? && !ws[k].inst.aborted
    ensures var i := ws[k].inst;
            i.calls[id].name in i.objects[i.calls[id].gen] <==> ws[k + 1].inst.calls[id].phase.Returned?
  {
    BudgetStopExact(x, store, ws, es, k);
    assert Enabled(ws[k], es[k]) && ws[k + 1] == Next(x, ws[k], es[k]);
  }
}
