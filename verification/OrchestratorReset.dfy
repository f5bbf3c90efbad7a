/**
 * Who can still dispatch after the reset of a clear(): only a call that had passed the generation
 * check before it, and exactly under the ordinary conditions.
 */
module OrchestratorReset {
  import opened Budget
  import opened Orchestrator
  import opened OrchestratorLedger
  import opened OrchestratorBarrier
  import opened OrchestratorBudget
  import opened OrchestratorExact

  /** Written, returned or thrown. */
  predicate Past(p: Phase) {
    p.Saving? || p.Returned? || p.Threw?
  }

  lemma PastComplete(i: Instance, k: nat, taskId: string, result: string, charge: Option<Spend>, id: nat)
    requires k in i.calls && i.calls[k].gen in i.objects && id in i.calls && Past(i.calls[id].phase)
    ensures var i' := Complete(i, k, taskId, result, charge); id in i'.calls && Past(i'.calls[id].phase)
  {
    hide TaskIds, OverBudget, BookCharge, BookWrite;
  }

  lemma PastPop(i: Instance, ok: bool, id: nat)
    requires i.chain != [] && id in i.calls && Past(i.calls[id].phase)
    ensures id in PopJob(i, ok).calls && Past(PopJob(i, ok).calls[id].phase)
  {
  }

  lemma PastGo(i: Instance, k: nat, id: nat)
    requires InPhase(i, k) && k != id && id in i.calls
    ensures id in Go(i, k).calls && Go(i, k).calls[id] == i.calls[id]
  {
  }

  lemma StartKeepsCalls(i: Instance)
    requires i.chain != []
    ensures StartJob(i).calls == i.calls
  {
  }

  lemma PastStays(x: Extractor, w: World, e: Event, id: nat)
    requires Enabled(w, e) && !e.Crash? && id in w.inst.calls && Past(w.inst.calls[id].phase)
    ensures id in Next(x, w, e).inst.calls && Past(Next(x, w, e).inst.calls[id].phase)
  {
    hide TaskIds, CleanTotals, Charge, Snapshot, Complete, PopJob, InstallLoad, NoteSpend, Go, StartJob;
    var i := w.inst;
    match e
    case LoadOk => OthersExtend(i, 0, "", RunStep, RawTotals(Missing, Missing), w.store);
    case RecordSpend(delta) => OthersExtend(i, 0, "", RunStep, delta, None);
    case LoadFails =>
      var s := i.(loading := Idle, calls := FailLoaders(i.calls));
      if s.head.AwaitingLoad? && s.chain != [] { PastPop(s, false, id); }
    case JobSettles(ok) => PastPop(i, ok, id);
    case JobProceeds => PastPop(i, true, id);
    case Proceed(k) => PastGo(i, k, id);
    case JobStarts => StartKeepsCalls(i);
    case Reused(k, taskId, from) =>
      PastComplete(i, k, taskId, i.objects[i.calls[k].gen][from].result, None, id);
    case Completed(k, result) =>
      PastComplete(i, k, TaskIdOf(i.calls[k]), result, Some(Charge(x, result)), id);
    case _ =>
  }

  lemma {:induction false} PastForGood(x: Extractor, ws: seq<World>, es: seq<Event>, i: nat, j: nat, id: nat)
    requires IsRun(x, ws, es) && i <= j <= |es| && forall k :: i <= k < j ==> !es[k].Crash?
    requires id in ws[i].inst.calls && Past(ws[i].inst.calls[id].phase)
    ensures id in ws[j].inst.calls && Past(ws[j].inst.calls[id].phase)
    decreases j
  {
    hide Next, Enabled, Past;
    if i < j {
      Turn(x, ws, es, j - 1);
      PastForGood(x, ws, es, i, j - 1, id);
      PastStays(x, ws[j - 1], es[j - 1], id);
    }
  }

  lemma AfterReset(x: Extractor, w: World, e: Event, id: nat)
    requires Shape(w.inst) && Enabled(w, e) && WipeStarts(w, e) && id in w.inst.calls
    ensures var i' := Next(x, w, e).inst;
            id in i'.calls && i'.calls[id] == w.inst.calls[id] && i'.calls[id].gen < i'.generation
  {
    assert CallFits(w.inst, w.inst.calls[id]);
  }

  /**
   * A call that has not dispatched when clear() resets the run is let through afterwards only if it
   * had already passed the generation check; every other one can only throw or has ended.
   */
  lemma LetThroughOnlyIfReady(x: Extractor, ws: seq<World>, es: seq<Event>, i: nat, j: nat, id: nat)
    requires IsRun(x, ws, es) && i < j < |es| && forall k :: i <= k <= j ==> !es[k].Crash?
    requires WipeStarts(ws[i], es[i]) && id in ws[i].inst.calls && !Flying(ws[i].inst.calls[id].phase)
    requires es[j] == Proceed(id) && id in ws[j + 1].inst.calls && Flying(ws[j + 1].inst.calls[id].phase)
    ensures ws[i].inst.calls[id].phase.Ready?
  {
    StoreRun(x, ws, es, i);
    assert Enabled(ws[i], es[i]) && ws[i + 1] == Next(x, ws[i], es[i]) && Enabled(ws[j], es[j]);
    AfterReset(x, ws[i], es[i], id);
    var p := ws[i].inst.calls[id].phase;
    if p.Loading? {
      StaleLoaderNeverStarts(x, ws, es, i + 1, j + 1, id);
      hide IsRun, Next, Shape, StoreFits, HeadRecordFits, Provenance;
    } else if Past(p) {
      PastForGood(x, ws, es, i + 1, j, id);
      hide IsRun, Next, Shape, StoreFits, HeadRecordFits, Provenance;
    }
  }

  /**
   * A call that has passed the generation check, before or after a reset, is let through exactly when
   * its step is not in the checkpoint object it holds, no ceiling of the current budget is reached and
   * the emergency stop is not set.
   */
  lemma ReadyLetThroughExactly(x: Extractor, ws: seq<World>, es: seq<Event>, k: nat, id: nat)
    requires IsRun(x, ws, es) && k < |es| && es[k] == Proceed(id)
    ensures var i, c := ws[k].inst, ws[k].inst.calls[id];
            && id in ws[k + 1].inst.calls
            && (Flying(ws[k + 1].inst.calls[id].phase) <==>
                  c.name !in i.objects[c.gen] && OverBudget(i.totals, i.budget).None? && !i.aborted)
  {
    assert IsRunFrom(x, None, ws, es);
    BudgetStopExact(x, None, ws, es, k);
    assert Enabled(ws[k], es[k]) && ws[k + 1] == Next(x, ws[k], es[k]);
    hide IsRun, IsRunFrom, Shape, OverBudget;
  }

  /** One call that has passed the generation check of a fresh run. */
  ghost predicate OneReady(i: Instance, chain: seq<Job>) {
    && i.generation == 0 && i.objects == map[0 := map[]] && i.stop.None? && !i.aborted && i.head == Queued
    && i.chain == chain && i.calls.Keys == {0} && i.calls[0] == Call("a", RunStep, 0, Ready, false)
  }

  lemma OneCallReady(x: Extractor) returns (ws: seq<World>, es: seq<Event>)
    ensures IsRun(x, ws, es) && |es| == 3 && OneReady(ws[3].inst, [])
  {
    ws, es := [World(None, Fresh(UNLIMITED))], [];
    ws, es := Then(x, ws, es, CallStep(0, "a", RunStep));
    ws, es := Then(x, ws, es, LoadOk);
    ws, es := Then(x, ws, es, Resume(0));
    hide IsRun;
  }

  lemma OneCallCleared(x: Extractor) returns (ws: seq<World>, es: seq<Event>)
    ensures IsRun(x, ws, es) && |es| == 4 && OneReady(ws[4].inst, [Wipe])
  {
    ws, es := OneCallReady(x);
    hide IsRun;
    ws, es := Then(x, ws, es, CallClear);
  }

  /** Such a call is real: it dispatches for a run that has been cleared. */
  lemma ReadyOutrunsReset(x: Extractor) returns (ws: seq<World>, es: seq<Event>)
    ensures IsRun(x, ws, es) && |es| == 6
    ensures es[4] == JobStarts && WipeStarts(ws[4], es[4]) && es[5] == Proceed(0)
    ensures OneReady(ws[4].inst, [Wipe])
    ensures var i := ws[6].inst;
            i.generation == 1 && 0 in i.calls && i.calls[0].gen == 0 && i.calls[0].phase.Dispatching?
  {
    ws, es := OneCallCleared(x);
    hide IsRun;
    ws, es := Then(x, ws, es, JobStarts);
    ws, es := Then(x, ws, es, Proceed(0));
  }
}
