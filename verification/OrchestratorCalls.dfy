/**
 * How the calls of an orchestrator end, and the order of its save chain: what a caller of runStep,
 * memoize, recordSpend and clear can see.
 */
module OrchestratorCalls {
  import opened Budget
  import opened Orchestrator
  import opened OrchestratorLedger
  import opened OrchestratorBarrier
  import opened OrchestratorBudget
  import opened OrchestratorConservation

  predicate AtCeiling(i: Instance) {
    || (i.budget.maxTokens.Finite? && i.budget.maxTokens.value > 0.0 && i.totals.tokens >= i.budget.maxTokens.value)
    || (i.budget.maxCost.Finite? && i.budget.maxCost.value > 0.0 && i.totals.cost >= i.budget.maxCost.value)
  }

  /** How a call goes on after its own events. */
  ghost predicate GoesOn(i: Instance, e: Event, c: Call, p: Phase) {
    match e
    case Resume(_) => p == if c.gen == i.generation then Ready else Threw(NotStarted)
    case Proceed(_) =>
      && c.gen in i.objects
      && var cp := i.objects[c.gen];
         p == if c.name in cp then Returned(cp[c.name].result)
              else if i.aborted then Threw(EmergencyStopped)
              else if AtCeiling(i) then Threw(OverBudgetStop)
              else if c.kind == RunStep then Dispatching else Producing
    case Dispatched(_, taskId) => p == Waiting(taskId)
    case Reused(_, taskId, from) =>
      c.gen in i.objects && from in i.objects[c.gen] && i.objects[c.gen][from].taskId == taskId &&
      p == Saving(i.objects[c.gen][from].result)
    case Completed(_, result) => p == Saving(result)
    case WorkFails(_) => p == Threw(WorkFailed)
    case _ => false
  }

  predicate OwnEvent(e: Event) {
    e.Resume? || e.Proceed? || e.Dispatched? || e.Reused? || e.Completed? || e.WorkFails?
  }

  /**
   * An event of a call takes that call on as it should and no other;
   * a step that was cleared away before it started, that is stopped or over a ceiling, or whose work
   * fails throws that very failure.
   */
  lemma CallGoesOn(x: Extractor, ws: seq<World>, es: seq<Event>, k: nat)
    requires IsRun(x, ws, es) && k < |es| && OwnEvent(es[k])
    ensures var i, i' := ws[k].inst, ws[k + 1].inst;
            && es[k].id in i.calls && es[k].id in i'.calls && i'.calls.Keys == i.calls.Keys
            && GoesOn(i, es[k], i.calls[es[k].id], i'.calls[es[k].id].phase)
            && forall id <- i.calls :: id != es[k].id ==> i'.calls[id] == i.calls[id]
  {
    assert IsRunFrom(x, None, ws, es);
    BudgetStopExact(x, None, ws, es, k);
    Turn(x, ws, es, k);
    CeilingIs(ws[k].inst);
    hide IsRun, IsRunFrom, Shape, StopExact, Next, GoesOn;
    OwnTurn(x, ws[k], es[k]);
  }

  lemma CeilingIs(i: Instance)
    requires StopExact(i)
    ensures i.stop.Some? <==> AtCeiling(i)
  {
  }

  lemma OwnTurn(x: Extractor, w: World, e: Event)
    requires Enabled(w, e) && OwnEvent(e) && (w.inst.stop.Some? <==> AtCeiling(w.inst))
    ensures var i, i' := w.inst, Next(x, w, e).inst;
            && e.id in i.calls && e.id in i'.calls && i'.calls.Keys == i.calls.Keys
            && GoesOn(i, e, i.calls[e.id], i'.calls[e.id].phase)
            && forall id <- i.calls :: id != e.id ==> i'.calls[id] == i.calls[id]
  {
    hide AtCeiling, TaskIds, Complete, Charge;
    var i := w.inst;
    if e.Reused? {
      CompleteLeaves(i, e.id, e.taskId, i.objects[i.calls[e.id].gen][e.from].result, None);
    } else if e.Completed? {
      CompleteLeaves(i, e.id, TaskIdOf(i.calls[e.id]), e.result, Some(Charge(x, e.result)));
    }
  }

  lemma CompleteLeaves(i: Instance, id: nat, taskId: string, result: string, charge: Option<Spend>)
    requires id in i.calls && i.calls[id].gen in i.objects
    ensures var i' := Complete(i, id, taskId, result, charge);
            && i'.calls == i.calls[id := i.calls[id].(phase := Saving(result), wrote := true)]
            && i'.chain == i.chain + [Save(Some(id))]
  {
    hide TaskIds, OverBudget, BookCharge, BookWrite;
  }

  /** The call whose save is at the head of the chain, if it still waits for it. */
  predicate Owns(i: Instance, id: nat) {
    && i.chain != [] && i.chain[0] == Save(Some(id)) && id in i.calls && i.calls[id].phase.Saving?
  }

  /** When its save settles, the step returns its result, or throws if the save failed; no other call moves. */
  lemma SaveSettles(x: Extractor, ws: seq<World>, es: seq<Event>, k: nat, ok: bool, id: nat)
    requires IsRun(x, ws, es) && k < |es| && es[k] == JobSettles(ok) && id in ws[k].inst.calls
    ensures id in ws[k + 1].inst.calls
    ensures var c := ws[k].inst.calls[id];
            ws[k + 1].inst.calls[id] ==
            if Owns(ws[k].inst, id) then c.(phase := if ok then Returned(c.phase.result) else Threw(SaveFailed)) else c
  {
    hide Next, Enabled;
    Turn(x, ws, es, k);
    hide IsRun;
    SettledJob(x, ws[k], ok);
    HeadPops(ws[k].inst, ok, id);
  }

  lemma SettledJob(x: Extractor, w: World, ok: bool)
    requires Enabled(w, JobSettles(ok))
    ensures w.inst.chain != [] && Next(x, w, JobSettles(ok)).inst == PopJob(w.inst, ok)
  {
  }

  lemma HeadPops(i: Instance, ok: bool, id: nat)
    requires i.chain != [] && id in i.calls
    ensures id in PopJob(i, ok).calls
    ensures PopJob(i, ok).calls[id] ==
            var c := i.calls[id];
            if Owns(i, id) then c.(phase := if ok then Returned(c.phase.result) else Threw(SaveFailed)) else c
  {
  }

  /** A save that is skipped after clear() returns its step as one that landed does. */
  lemma SaveSkipped(x: Extractor, ws: seq<World>, es: seq<Event>, k: nat, id: nat)
    requires IsRun(x, ws, es) && k < |es| && es[k].JobProceeds? && id in ws[k].inst.calls
    ensures id in ws[k + 1].inst.calls && ws[k].inst.generation in ws[k].inst.objects
    ensures var i, c := ws[k].inst, ws[k].inst.calls[id];
            ws[k + 1].inst.calls[id] ==
            if i.cleared && i.objects[i.generation] == map[] && Owns(i, id) then c.(phase := Returned(c.phase.result))
            else c
  {
    Turn(x, ws, es, k);
    hide IsRun;
  }

  /** A failed load throws in every call that waits for it, and in no other. */
  lemma LoadFailureThrows(x: Extractor, ws: seq<World>, es: seq<Event>, k: nat, id: nat)
    requires IsRun(x, ws, es) && k < |es| && es[k].LoadFails? && id in ws[k].inst.calls
    ensures id in ws[k + 1].inst.calls && ws[k + 1].inst.loading.Idle?
    ensures var c := ws[k].inst.calls[id];
            ws[k + 1].inst.calls[id] == if c.phase.Loading? then c.(phase := Threw(LoadFailed)) else c
  {
    LedgerRun(x, ws, es, k);
    Turn(x, ws, es, k);
    assert Enabled(ws[k], es[k]);
    NoneSaving(ws[k].inst);
    hide IsRun, Shape;
  }

  lemma NoneSaving(i: Instance)
    requires Shape(i) && !i.loading.Loaded?
    ensures forall id <- i.calls :: !i.calls[id].phase.Saving?
  {
    forall id | id in i.calls ensures !i.calls[id].phase.Saving? { assert CallFits(i, i.calls[id]); }
  }

  /** What callers and the world may do at any time: call, record spend, clear, abort, crash. */
  lemma AtAnyTime(x: Extractor, ws: seq<World>, es: seq<Event>, k: nat, id: nat, name: string, kind: Kind,
                  delta: RawTotals, budget: WorkflowBudget)
    requires IsRun(x, ws, es) && k < |ws|
    ensures Enabled(ws[k], CallIsResuming) && Enabled(ws[k], RecordSpend(delta)) && Enabled(ws[k], CallClear)
    ensures Enabled(ws[k], Abort) && Enabled(ws[k], Crash(budget))
    ensures id !in ws[k].inst.calls ==> Enabled(ws[k], CallStep(id, name, kind))
    ensures ws[k].inst.loading.InFlight? ==> Enabled(ws[k], LoadOk) && Enabled(ws[k], LoadFails)
  {
    LedgerRun(x, ws, es, k);
    hide IsRun, Accounts, TaskIds, CallFits, HeadFits;
  }

  /**
   * What may become of a call: a dispatched step's task id is new or shown by a step, and its work
   * completes or fails.
   */
  lemma WorkGoesOn(x: Extractor, ws: seq<World>, es: seq<Event>, k: nat, id: nat, taskId: string, result: string)
    requires IsRun(x, ws, es) && k < |ws| && id in ws[k].inst.calls
    ensures var c := ws[k].inst.calls[id];
            && c.gen in ws[k].inst.objects
            && (c.phase.Ready? ==> Enabled(ws[k], Proceed(id)))
            && (c.phase.Dispatching? ==>
                  && (taskId !in TaskIds(ws[k].inst.objects[c.gen]) ==> Enabled(ws[k], Dispatched(id, taskId)))
                  && forall from <- ws[k].inst.objects[c.gen] ::
                       Enabled(ws[k], Reused(id, ws[k].inst.objects[c.gen][from].taskId, from)))
            && (c.phase.Waiting? || c.phase.Producing? ==> Enabled(ws[k], Completed(id, result)))
            && (c.phase.Dispatching? || c.phase.Waiting? || c.phase.Producing? ==> Enabled(ws[k], WorkFails(id)))
  {
    LedgerRun(x, ws, es, k);
    assert CallFits(ws[k].inst, ws[k].inst.calls[id]);
    hide IsRun, Accounts, TaskIds, HeadFits;
  }

  /**
   * The jobs of the chain go on: a wipe at once, a save when the load has settled, and their store calls
   * land or fail.
   */
  lemma JobsGoOn(x: Extractor, ws: seq<World>, es: seq<Event>, k: nat)
    requires IsRun(x, ws, es) && k < |ws| && ws[k].inst.chain != []
    ensures var w, i := ws[k], ws[k].inst;
            match i.head
            case Queued => Enabled(w, JobStarts)
            case AwaitingLoad => (i.loading.Loaded? ==> Enabled(w, JobProceeds))
            case Storing(_, landed) =>
              Enabled(w, JobSettles(false)) && if landed then Enabled(w, JobSettles(true)) else Enabled(w, StoreLands)
            case Wiping(landed) =>
              Enabled(w, JobSettles(false)) && if landed then Enabled(w, JobSettles(true)) else Enabled(w, StoreLands)
  {
    LedgerRun(x, ws, es, k);
    hide IsRun, Accounts, TaskIds, CallFits;
  }

  /** Asking whether a run is resumed starts the load, unless it is under way or done, and nothing else. */
  lemma ResumingLoads(x: Extractor, ws: seq<World>, es: seq<Event>, k: nat)
    requires IsRun(x, ws, es) && k < |es| && es[k].CallIsResuming?
    ensures ws[k + 1].inst ==
            if ws[k].inst.loading.Idle? then ws[k].inst.(loading := InFlight) else ws[k].inst
  {
    Turn(x, ws, es, k);
    hide IsRun;
  }

  /** Whether the emergency stop came before moment n, to the process that then runs. */
  predicate AbortedSince(es: seq<Event>, n: nat)
    requires n <= |es|
  {
    exists j | 0 <= j < n :: LastsFrom(es, j, n)
  }

  predicate LastsFrom(es: seq<Event>, j: int, n: int) {
    0 <= j < n <= |es| && es[j].Abort? && forall c :: j < c < n ==> !es[c].Crash?
  }

  /** The emergency stop is in force exactly from its moment to the end of the process; a clear does not lift it. */
  lemma {:induction false} AbortLasts(x: Extractor, ws: seq<World>, es: seq<Event>, n: nat)
    requires IsRun(x, ws, es) && n <= |es|
    ensures ws[n].inst.aborted <==> AbortedSince(es, n)
  {
    if n > 0 {
      AbortLasts(x, ws, es, n - 1);
      Turn(x, ws, es, n - 1);
      hide IsRun, AbortedSince;
      AbortedTurn(x, ws[n - 1], es[n - 1]);
      AbortedNext(es, n);
    }
  }

  lemma AbortedTurn(x: Extractor, w: World, e: Event)
    requires Enabled(w, e)
    ensures Next(x, w, e).inst.aborted <==> e.Abort? || (w.inst.aborted && !e.Crash?)
  {
    hide OverBudget, BookCharge, BookWrite, TaskIds, Complete, Charge;
    var i := w.inst;
    if e.Reused? {
      CompleteAborted(i, e.id, e.taskId, i.objects[i.calls[e.id].gen][e.from].result, None);
    } else if e.Completed? {
      CompleteAborted(i, e.id, TaskIdOf(i.calls[e.id]), e.result, Some(Charge(x, e.result)));
    }
  }

  lemma CompleteAborted(i: Instance, id: nat, taskId: string, result: string, charge: Option<Spend>)
    requires id in i.calls && i.calls[id].gen in i.objects
    ensures Complete(i, id, taskId, result, charge).aborted == i.aborted
  {
    hide OverBudget, BookCharge, BookWrite, TaskIds;
  }

  lemma AbortedNext(es: seq<Event>, n: nat)
    requires 0 < n <= |es|
    ensures AbortedSince(es, n) <==> es[n - 1].Abort? || (AbortedSince(es, n - 1) && !es[n - 1].Crash?)
  {
    if AbortedSince(es, n - 1) && !es[n - 1].Crash? {
      var j :| 0 <= j < n - 1 && LastsFrom(es, j, n - 1);
      assert LastsFrom(es, j, n);
    }
    if es[n - 1].Abort? {
      assert LastsFrom(es, n - 1, n);
    }
    if AbortedSince(es, n) && !es[n - 1].Abort? {
      var j :| 0 <= j < n && LastsFrom(es, j, n);
      assert j != n - 1;
      assert LastsFrom(es, j, n - 1);
    }
  }

  /** A new call waits for the load, under the generation of its time; the reserved name starts nothing. */
  lemma CallBegins(x: Extractor, ws: seq<World>, es: seq<Event>, k: nat, id: nat, name: string, kind: Kind)
    requires IsRun(x, ws, es) && k < |es| && es[k] == CallStep(id, name, kind)
    ensures var i, i' := ws[k].inst, ws[k + 1].inst;
            && id !in i.calls
            && (name == "__workflow_spend__" ==> i' == i)
            && (name != "__workflow_spend__" ==>
                  && i'.calls == i.calls[id := Call(name, kind, i.generation, Loading, false)]
                  && i'.loading == if i.loading.Idle? then InFlight else i.loading)
  {
    Turn(x, ws, es, k);
    hide IsRun;
  }

  /** The job that an event asks for. */
  function Asks(e: Event): seq<Job> {
    match e
    case RecordSpend(_) => [Save(None)]
    case CallClear => [Wipe]
    case Reused(id, _, _) => [Save(Some(id))]
    case Completed(id, _) => [Save(Some(id))]
    case _ => []
  }

  /**
   * Saves and wipes are done in the order in which they were asked for: an event adds its job at the end
   * of the chain, and only a job that is over, at its head, leaves it.
   */
  lemma ChainInOrder(x: Extractor, ws: seq<World>, es: seq<Event>, k: nat)
    requires IsRun(x, ws, es) && k < |es| && !es[k].Crash?
    ensures var i, i' := ws[k].inst, ws[k + 1].inst;
            var over := es[k].JobSettles? || (es[k].LoadFails? && i.head.AwaitingLoad?) ||
                        (es[k].JobProceeds? && !i'.head.Storing?);
            && (over ==> i.chain != [] && i'.head == Queued)
            && i'.chain == (if over then i.chain[1..] else i.chain) + Asks(es[k])
  {
    LedgerRun(x, ws, es, k);
    Turn(x, ws, es, k);
    hide IsRun;
    ChainStep(x, ws[k], es[k]);
  }

  lemma ChainStep(x: Extractor, w: World, e: Event)
    requires Shape(w.inst) && Enabled(w, e) && !e.Crash?
    ensures var i, i' := w.inst, Next(x, w, e).inst;
            var over := e.JobSettles? || (e.LoadFails? && i.head.AwaitingLoad?) ||
                        (e.JobProceeds? && !i'.head.Storing?);
            && (over ==> i.chain != [] && i'.head == Queued)
            && i'.chain == (if over then i.chain[1..] else i.chain) + Asks(e)
  {
    var i := w.inst;
    if e.Reused? {
      CompleteLeaves(i, e.id, e.taskId, i.objects[i.calls[e.id].gen][e.from].result, None);
      hide Complete;
    } else if e.Completed? {
      CompleteLeaves(i, e.id, TaskIdOf(i.calls[e.id]), e.result, Some(Charge(x, e.result)));
      hide Complete;
    } else if e.LoadOk? || e.RecordSpend? {
      hide OverBudget, CleanTotals;
    }
    hide TaskIds, FailLoaders, Charge, Snapshot;
  }
}
