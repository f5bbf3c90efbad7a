/**
 * The orchestrator as an object (src/shared/orchestrator.ts): its own fields and the checkpoint
 * objects on the heap.  A step keeps hold of the checkpoint object it loaded, also after clear() has
 * put a new one in its place.  Every method takes a turn of the state machine on the ghost model.
 */
module WorkflowOrchestratorObject {
  import opened Budget
  import opened Orchestrator
  import opened OrchestratorLedger
  import opened OrchestratorBudget

  /** A checkpoint as steps share it by reference. */
  class CheckpointObject {
    var steps: Checkpoint

    constructor (steps: Checkpoint)
      ensures this.steps == steps
    {
      this.steps := steps;
    }
  }

  datatype Decision = Replay(result: string) | Refuse(why: Failure) | Go

  /** What a save writes, and what a load reads back from it. */
  datatype Saved = Saved(steps: Checkpoint, spend: RawTotals, stopped: bool)

  function SavedSpend(record: Option<Record>): Option<RawTotals> {
    if record.Some? then Some(record.value.spend) else None
  }

  class WorkflowOrchestrator {
    const budget: WorkflowBudget
    const spendOf: Extractor
    var totals: Spend
    var stop: Option<WorkflowStop>
    var checkpoint: CheckpointObject
    var loading: Load
    var cleared: bool
    var generation: nat
    /** The instance of the state machine, and the checkpoint object of every generation. */
    ghost var model: Instance
    ghost var past: map<nat, CheckpointObject>

    /** Some finite, positive ceiling is reached. */
    ghost predicate AtCeiling(spent: Spend) {
      || (budget.maxTokens.Finite? && budget.maxTokens.value > 0.0 && spent.tokens >= budget.maxTokens.value)
      || (budget.maxCost.Finite? && budget.maxCost.value > 0.0 && spent.cost >= budget.maxCost.value)
    }

    /** Every generation has a checkpoint object of its own, which holds its steps. */
    ghost predicate Owns(objects: map<nat, Checkpoint>)
      reads this`past, past.Values
    {
      && past.Keys == objects.Keys
      && (forall g, h :: g in past && h in past && g != h ==> past[g] != past[h])
      && forall g <- past :: past[g].steps == objects[g]
    }

    /** Fields and model agree. */
    ghost predicate Agrees()
      reads this
    {
      && model.budget == budget && model.totals == totals && model.stop == stop && model.loading == loading
      && model.cleared == cleared && model.generation == generation
      && generation in past && past[generation] == checkpoint
    }

    /** Fields and objects represent the model, whose stop is exact and whose shape is that of a reachable state. */
    ghost predicate Valid()
      reads this, past.Values
    {
      Agrees() && Owns(model.objects) && Shape(model) && StopExact(model)
    }

    constructor (budget: WorkflowBudget, spendOf: Extractor)
      ensures Valid() && model == Fresh(budget) && this.spendOf == spendOf && fresh(checkpoint)
    {
      this.budget, this.spendOf := budget, spendOf;
      totals, stop, loading, cleared, generation := ZERO, None, Idle, false, 0;
      var empty := new CheckpointObject(map[]);
      checkpoint := empty;
      model, past := Fresh(budget), map[0 := empty];
      FreshAccounts(spendOf, budget);
      NothingIsUnder(budget);
    }

    /** A generation gets a new checkpoint object, which becomes the current one. */
    method Renew(g: nat, steps: Checkpoint, ghost objects: map<nat, Checkpoint>)
      requires Owns(objects)
      modifies this`checkpoint, this`past
      ensures fresh(checkpoint) && checkpoint.steps == steps && past == old(past)[g := checkpoint]
      ensures Owns(objects[g := steps])
    {
      var created := new CheckpointObject(steps);
      checkpoint := created;
      past := past[g := created];
    }

    /** The model follows, once fields and objects stand for its next state. */
    ghost method Adopt(next: Instance)
      requires next.budget == budget && next.totals == totals && next.stop == stop && next.loading == loading
      requires next.cleared == cleared && next.generation == generation
      requires generation in past && past[generation] == checkpoint
      requires Owns(next.objects) && Shape(next) && StopExact(next)
      modifies this`model
      ensures Valid() && model == next
    {
      hide Shape, StopExact;
      model := next;
    }

    /** A step is written to the object of its generation and to no other. */
    method Write(cp: CheckpointObject, ghost g: nat, name: string, entry: StepCheckpoint,
                 ghost objects: map<nat, Checkpoint>)
      requires Owns(objects) && g in past && past[g] == cp
      modifies cp
      ensures cp.steps == old(cp.steps)[name := entry] && Owns(objects[g := objects[g][name := entry]])
    {
      cp.steps := cp.steps[name := entry];
    }

    /**
     * Add a cleaned amount and stop once a ceiling is reached.  The stop stays exact, and it is
     * reported exactly when this amount crosses a ceiling.
     */
    method Add(amount: Spend) returns (reported: bool)
      requires NonNegative(amount) && (stop.Some? <==> OverBudget(totals, budget).Some?)
      modifies this`totals, this`stop
      ensures totals == Spend(old(totals.tokens) + amount.tokens, old(totals.cost) + amount.cost)
      ensures (stop.Some? <==> AtCeiling(totals)) && (stop.Some? <==> OverBudget(totals, budget).Some?)
      ensures reported <==> !AtCeiling(old(totals)) && AtCeiling(totals)
      ensures stop == if reported then Some(WorkflowStop(OverBudget(totals, budget).value, totals)) else old(stop)
    {
      MoreStaysOver(totals, Plus(totals, amount), budget);
      totals := Spend(totals.tokens + amount.tokens, totals.cost + amount.cost);
      if stop.Some? {
        return false;
      }
      var detail := OverBudget(totals, budget);
      if detail.Some? {
        stop := Some(WorkflowStop(detail.value, totals));
      }
      reported := detail.Some?;
    }

    /** The delta is cleaned and counted once; the steps are left alone and a save is queued. */
    method RecordSpend(delta: RawTotals) returns (reported: bool)
      requires Valid()
      modifies this`totals, this`stop, this`model
      ensures Valid() && model == NoteSpend(old(model), delta)
      ensures forall tokens, cost :: Reports(Some(delta), tokens, cost) ==>
                totals == Spend(old(totals.tokens) + tokens, old(totals.cost) + cost)
      ensures stop.Some? <==> AtCeiling(totals)
      ensures reported <==> !AtCeiling(old(totals)) && AtCeiling(totals)
      ensures model.chain == old(model).chain + [Save(None)]
    {
      NoteParts(model, delta);
      ShapeNote(model, delta);
      NoteStays(model, delta);
      hide OverBudget, CleanTotals, Shape, NoteSpend;
      reported := Add(CleanTotals(delta));
      model := NoteSpend(model, delta);
    }

    lemma NoteParts(i: Instance, delta: RawTotals)
      requires StopExact(i)
      ensures var i' := NoteSpend(i, delta);
              var totals := Plus(i.totals, CleanTotals(delta));
              && i'.totals == totals && i'.objects == i.objects && i'.generation == i.generation
              && i'.loading == i.loading && i'.cleared == i.cleared && i'.budget == i.budget
              && i'.chain == i.chain + [Save(None)]
              && i'.stop == if i.stop.None? && OverBudget(totals, i.budget).Some?
                            then Some(WorkflowStop(OverBudget(totals, i.budget).value, totals)) else i.stop
    {
      hide CleanTotals;
    }

    /**
     * What load() does with the answer.  An answer that arrives after clear() replaced the load changes
     * nothing.  Otherwise the saved steps are installed, the saved spend is added once, the stop is
     * exact for the current budget whatever the saved flag says, and a stop that was saved is not
     * reported a second time.
     */
    method FinishLoad(captured: nat, record: Option<Record>) returns (reported: bool)
      requires Valid() && (captured == generation ==> loading.InFlight?)
      modifies this`totals, this`stop, this`checkpoint, this`loading, this`model, this`past
      ensures Valid()
      ensures captured != generation ==> model == old(model) && !reported
      ensures captured == generation ==>
                && model == InstallLoad(old(model), record) && loading.Loaded? && fresh(checkpoint)
                && checkpoint.steps == (if record.Some? then record.value.steps else map[])
                && (forall tokens, cost :: Reports(SavedSpend(record), tokens, cost) ==>
                      totals == Spend(old(totals.tokens) + tokens, old(totals.cost) + cost))
                && (stop.Some? <==> AtCeiling(totals))
                && (reported <==> old(stop).None? && stop.Some? && !(record.Some? && record.value.stopped))
    {
      if captured != generation {
        return false;
      }
      hide OverBudget, CleanTotals, Shape, InstallLoad, StopExact, Owns;
      ghost var model' := InstallLoad(model, record);
      ExactStop(model);
      InstallParts(model, record);
      ShapeInstall(model, record);
      InstallStays(model, record);
      var steps := if record.Some? then record.value.steps else map[];
      var saved := if record.Some? then CleanTotals(record.value.spend) else ZERO;
      Renew(generation, steps, model.objects);
      totals := Spend(totals.tokens + saved.tokens, totals.cost + saved.cost);
      var detail := OverBudget(totals, budget);
      reported := false;
      if stop.None? && detail.Some? {
        stop := Some(WorkflowStop(detail.value, totals));
        reported := !(record.Some? && record.value.stopped);
      }
      loading := Loaded;
      Adopt(model');
    }

    lemma InstallParts(i: Instance, record: Option<Record>)
      ensures var i' := InstallLoad(i, record);
              var totals := Plus(i.totals, if record.Some? then CleanTotals(record.value.spend) else ZERO);
              && i'.totals == totals && i'.generation == i.generation && i'.cleared == i.cleared
              && i'.objects == i.objects[i.generation := if record.Some? then record.value.steps else map[]]
              && i'.loading.Loaded? && i'.budget == i.budget
              && i'.stop == if i.stop.None? && OverBudget(totals, i.budget).Some?
                            then Some(WorkflowStop(OverBudget(totals, i.budget).value, totals)) else i.stop
    {
      hide CleanTotals;
    }

    /** A failed load is retried by the next call and counts nothing; after clear() its failure is dropped. */
    method LoadFailed(captured: nat)
      requires Valid() && (captured == generation ==> loading.InFlight?)
      modifies this`loading, this`model
      ensures Valid() && model == if captured == generation then RejectLoad(old(model)) else old(model)
      ensures captured == generation ==> loading.Idle?
    {
      if captured != generation {
        return;
      }
      RejectParts(model);
      ShapeReject(model);
      hide Shape, OverBudget, RejectLoad;
      loading, model := Idle, RejectLoad(model);
    }

    lemma RejectParts(i: Instance)
      ensures SameLedger(i, RejectLoad(i)) && RejectLoad(i).loading.Idle?
    {
      QuietReject(i);
    }

    /**
     * What a step does with the checkpoint it loaded, before it dispatches: it is replayed exactly when
     * that checkpoint holds it, and let through exactly when it does not, no ceiling is reached and the
     * stop signal has not aborted.
     */
    method Decide(cp: CheckpointObject, name: string, aborted: bool) returns (d: Decision)
      requires Valid() && cp in past.Values
      ensures d.Replay? <==> name in cp.steps
      ensures d.Replay? ==> d.result == cp.steps[name].result
      ensures d.Go? <==> name !in cp.steps && !aborted && !AtCeiling(totals)
    {
      if name in cp.steps {
        return Replay(cp.steps[name].result);
      }
      if aborted {
        return Refuse(EmergencyStopped);
      }
      d := if stop.Some? then Refuse(OverBudgetStop) else Go;
    }

    /** Look through the completed steps, in any order, for one that resolved this task id. */
    method FindByTaskId(cp: CheckpointObject, taskId: string) returns (found: Option<string>)
      ensures found.Some? <==> taskId in TaskIds(cp.steps)
      ensures found.Some? ==> exists n :: n in cp.steps && cp.steps[n] == StepCheckpoint(taskId, found.value)
    {
      var names := cp.steps.Keys;
      while names != {}
        invariant names <= cp.steps.Keys
        invariant forall n <- cp.steps :: n !in names ==> cp.steps[n].taskId != taskId
        decreases |names|
      {
        var n :| n in names;
        if cp.steps[n].taskId == taskId {
          return Some(cp.steps[n].result);
        }
        names := names - {n};
      }
      return None;
    }

    /** The write of a completed step, once its spend is accounted: the model takes its turn. */
    method WriteStep(cp: CheckpointObject, ghost model': Instance, ghost g: nat, name: string, entry: StepCheckpoint)
      requires Owns(model.objects) && g in past && past[g] == cp && generation in past && past[generation] == checkpoint
      requires Shape(model') && StopExact(model')
      requires model'.objects == model.objects[g := model.objects[g][name := entry]]
      requires model'.budget == budget && model'.totals == totals && model'.stop == stop && model'.loading == loading
      requires model'.cleared == cleared && model'.generation == generation
      modifies this`model, cp
      ensures Valid() && model == model' && cp.steps == old(cp.steps)[name := entry]
    {
      hide Shape, StopExact, Owns;
      Write(cp, g, name, entry, model.objects);
      Adopt(model');
    }

    /**
     * The tail of runStep and memoize: account what was waited for, once, then write the step to the
     * checkpoint object the call holds.  A call of a cleared run writes to the old object: the current
     * checkpoint does not show it.
     */
    method CompleteStep(cp: CheckpointObject, ghost id: nat, name: string, taskId: string, result: string, waited: bool)
      returns (reported: bool)
      requires Valid() && loading.Loaded? && id in model.calls && model.calls[id].name == name
      requires model.calls[id].gen in past && past[model.calls[id].gen] == cp
      modifies this`totals, this`stop, this`model, cp
      ensures Valid()
      ensures model == Complete(old(model), id, taskId, result, if waited then Some(Charge(spendOf, result)) else None)
      ensures cp.steps == old(cp.steps)[name := StepCheckpoint(taskId, result)]
      ensures cp != checkpoint ==> checkpoint.steps == old(checkpoint.steps)
      ensures waited ==> forall tokens, cost :: Reports(spendOf(result), tokens, cost) ==>
                totals == Spend(old(totals.tokens) + tokens, old(totals.cost) + cost)
      ensures !waited ==> totals == old(totals)
      ensures stop.Some? <==> AtCeiling(totals)
      ensures reported <==> !AtCeiling(old(totals)) && AtCeiling(totals)
    {
      ghost var model' := Complete(model, id, taskId, result, if waited then Some(Charge(spendOf, result)) else None);
      CompleteTurn(model, model', id, taskId, result, waited);
      CeilingIs(totals);
      CeilingIs(model'.totals);
      hide OverBudget, Shape, Complete, Charge, StopExact, Owns, Plus, Reports, AtCeiling;
      reported := Account(result, waited);
      WriteStep(cp, model', model.calls[id].gen, name, StepCheckpoint(taskId, result));
    }

    lemma ExactStop(i: Instance)
      requires StopExact(i)
      ensures NonNegative(i.totals) && (i.stop.Some? <==> OverBudget(i.totals, i.budget).Some?)
    {
    }

    lemma CeilingIs(spent: Spend)
      ensures OverBudget(spent, budget).Some? <==> AtCeiling(spent)
    {
    }

    /** Only what was waited for is accounted. */
    method Account(result: string, waited: bool) returns (reported: bool)
      requires stop.Some? <==> OverBudget(totals, budget).Some?
      modifies this`totals, this`stop
      ensures totals == if waited then Plus(old(totals), Charge(spendOf, result)) else old(totals)
      ensures waited ==> forall tokens, cost :: Reports(spendOf(result), tokens, cost) ==>
                totals == Spend(old(totals.tokens) + tokens, old(totals.cost) + cost)
      ensures stop.Some? <==> OverBudget(totals, budget).Some?
      ensures stop.Some? <==> AtCeiling(totals)
      ensures reported <==> !AtCeiling(old(totals)) && AtCeiling(totals)
      ensures stop == if reported then Some(WorkflowStop(OverBudget(totals, budget).value, totals)) else old(stop)
    {
      CeilingIs(totals);
      hide OverBudget, Charge, AtCeiling;
      reported := false;
      if waited {
        NotNegative(result);
        reported := Add(Charge(spendOf, result));
      }
    }

    lemma NotNegative(result: string)
      ensures NonNegative(Charge(spendOf, result))
    {
    }

    lemma CompleteTurn(i: Instance, i': Instance, id: nat, taskId: string, result: string, waited: bool)
      requires Shape(i) && StopExact(i) && id in i.calls && i.calls[id].gen in i.objects && i.loading.Loaded?
      requires i' == Complete(i, id, taskId, result, if waited then Some(Charge(spendOf, result)) else None)
      ensures Shape(i') && StopExact(i') && (i.stop.Some? <==> OverBudget(i.totals, i.budget).Some?)
      ensures i'.totals == if waited then Plus(i.totals, Charge(spendOf, result)) else i.totals
      ensures i'.generation == i.generation && i'.cleared == i.cleared
      ensures i'.loading == i.loading && i'.budget == i.budget
      ensures i'.objects == i.objects[i.calls[id].gen :=
                i.objects[i.calls[id].gen][i.calls[id].name := StepCheckpoint(taskId, result)]]
      ensures i'.stop == if OverBudget(i.totals, i.budget).None? && OverBudget(i'.totals, i.budget).Some?
                         then Some(WorkflowStop(OverBudget(i'.totals, i.budget).value, i'.totals)) else i.stop
    {
      var charge := if waited then Some(Charge(spendOf, result)) else None;
      NotNegative(result);
      ShapeComplete(i, id, taskId, result, charge);
      CompleteStays(i, id, taskId, result, charge);
      hide Shape, Charge, BookCharge, BookWrite;
    }

    /**
     * The save at the head of the chain, once the load has settled: after clear() nothing is saved while
     * no new step has completed; else the record holds the current steps and restores to exactly the
     * totals, and its stop flag is the exact one.
     */
    method Persist() returns (record: Option<Saved>)
      requires Valid() && loading.Loaded? && model.chain != [] && model.head.AwaitingLoad?
      modifies this`model
      ensures Valid() && model == ProceedJob(old(model))
      ensures record.None? <==> cleared && checkpoint.steps == map[]
      ensures record.Some? ==>
                && record.value.steps == checkpoint.steps && CleanTotals(record.value.spend) == totals
                && (record.value.stopped <==> AtCeiling(totals))
    {
      ProceedParts(model);
      ShapeProceed(model);
      hide OverBudget, Shape, ProceedJob;
      record := if cleared && checkpoint.steps == map[] then None
                else Some(Saved(checkpoint.steps, AsRaw(totals), stop.Some?));
      model := ProceedJob(model);
    }

    lemma ProceedParts(i: Instance)
      requires i.chain != [] && i.generation in i.objects
      ensures var i' := ProceedJob(i);
              && i'.totals == i.totals && i'.stop == i.stop && i'.objects == i.objects && i'.generation == i.generation
              && i'.loading == i.loading && i'.cleared == i.cleared && i'.budget == i.budget && i'.reports == i.reports
    {
      PopParts(i, true);
      hide PopJob, Snapshot;
    }

    lemma PopParts(i: Instance, ok: bool)
      requires i.chain != []
      ensures var i' := PopJob(i, ok);
              && i'.totals == i.totals && i'.stop == i.stop && i'.objects == i.objects && i'.generation == i.generation
              && i'.loading == i.loading && i'.cleared == i.cleared && i'.budget == i.budget && i'.reports == i.reports
    {
    }

    /**
     * The reset of clear(), when its turn in the chain comes: an empty run on a new checkpoint object.
     * The objects that earlier steps hold stay as they are.
     */
    method ResetForClear()
      requires Valid() && model.chain != [] && model.chain[0].Wipe? && model.head.Queued?
      modifies this
      ensures Valid() && model == StartJob(old(model))
      ensures fresh(checkpoint) && checkpoint.steps == map[] && totals == ZERO && stop.None?
      ensures generation == old(generation) + 1 && past == old(past)[generation := checkpoint]
    {
      ghost var model' := StartJob(model);
      ResetTurn(model, model');
      hide OverBudget, Shape, StopExact, StartJob, Owns;
      generation, cleared := generation + 1, true;
      totals, stop, loading := ZERO, None, Loaded;
      Renew(generation, map[], model.objects);
      Adopt(model');
    }

    lemma ResetTurn(i: Instance, i': Instance)
      requires Shape(i) && StopExact(i) && i.chain != [] && i.chain[0].Wipe? && i.head.Queued? && i' == StartJob(i)
      ensures Shape(i') && StopExact(i') && i'.totals == ZERO && i'.stop.None?
      ensures i'.generation == i.generation + 1 && i'.cleared && i'.loading.Loaded? && i'.budget == i.budget
      ensures i.generation + 1 !in i.objects && i'.objects == i.objects[i.generation + 1 := map[]]
    {
      ShapeStartJob(i);
      JobsStay(i);
      hide OverBudget, ProceedJob, Land;
    }
  }
}
