/**
 * When the accounting is exact: which completions keep the totals equal to the spend of the steps
 * plus the recorded deltas, and a discipline of the caller under which all of them do.
 */
module OrchestratorExact {
  import opened Budget
  import opened Orchestrator
  import opened OrchestratorLedger

  /** The totals are the spend of the distinct task ids of the steps plus the recorded deltas. */
  ghost predicate Explained(x: Extractor, i: Instance)
    requires i.generation in i.objects
  {
    i.totals == Plus(SpendOfSteps(x, i.objects[i.generation]), i.book.deltas)
  }

  /** Results stored under one task id carry one charge. */
  ghost predicate OneCharge(x: Extractor, cp: Checkpoint) {
    forall m, n :: m in cp && n in cp && cp[m].taskId == cp[n].taskId ==>
      Charge(x, cp[m].result) == Charge(x, cp[n].result)
  }

  /** The result carries the charge of those already stored under its task id. */
  ghost predicate Agrees(x: Extractor, cp: Checkpoint, taskId: string, result: string) {
    forall n <- cp :: cp[n].taskId == taskId ==> Charge(x, cp[n].result) == Charge(x, result)
  }

  /** Writing the step overwrites the last one that shows some other task id. */
  predicate Forgets(cp: Checkpoint, name: string, taskId: string) {
    name in cp && cp[name].taskId !in TaskIds(cp[name := StepCheckpoint(taskId, "")])
  }

  /** The charge of every task id of a checkpoint, read off its results. */
  ghost function Charges(x: Extractor, cp: Checkpoint): map<string, Spend> {
    map t | t in TaskIds(cp) :: Charge(x, ResultOf(cp, t))
  }

  lemma ChargesAre(x: Extractor, cp: Checkpoint, n: string)
    requires OneCharge(x, cp) && n in cp
    ensures cp[n].taskId in TaskIds(cp) && Charges(x, cp)[cp[n].taskId] == Charge(x, cp[n].result)
  {
    var t := cp[n].taskId;
    assert t in TaskIds(cp);
    var m :| m in cp && cp[m].taskId == t && ResultOf(cp, t) == cp[m].result;
  }

  lemma SameIds(cp: Checkpoint, name: string, taskId: string, result: string)
    ensures TaskIds(cp[name := StepCheckpoint(taskId, result)]) == TaskIds(cp[name := StepCheckpoint(taskId, "")])
  {
    var a, b := cp[name := StepCheckpoint(taskId, result)], cp[name := StepCheckpoint(taskId, "")];
    assert forall n <- a :: n in b && b[n].taskId == a[n].taskId;
    assert forall n <- b :: n in a && a[n].taskId == b[n].taskId;
  }

  lemma ChargesAfterWrite(x: Extractor, cp: Checkpoint, name: string, taskId: string, result: string, t: string)
    requires OneCharge(x, cp) && Agrees(x, cp, taskId, result)
    requires t in TaskIds(cp[name := StepCheckpoint(taskId, result)])
    ensures t == taskId || t in TaskIds(cp)
    ensures Charges(x, cp[name := StepCheckpoint(taskId, result)])[t] ==
            if t == taskId then Charge(x, result) else Charges(x, cp)[t]
  {
    var cp' := cp[name := StepCheckpoint(taskId, result)];
    assert OneCharge(x, cp');
    var n :| n in cp' && cp'[n].taskId == t;
    ChargesAre(x, cp', n);
    if t != taskId { ChargesAre(x, cp, n); }
  }

  /** The charges before and after a write, in one map. */
  ghost function AllCharges(x: Extractor, cp: Checkpoint, taskId: string, result: string): map<string, Spend> {
    Charges(x, cp)[taskId := Charge(x, result)]
  }

  lemma SpendBefore(x: Extractor, cp: Checkpoint, taskId: string, result: string)
    requires OneCharge(x, cp) && Agrees(x, cp, taskId, result)
    ensures SumOver(TaskIds(cp) + {taskId}, AllCharges(x, cp, taskId, result)) ==
            Plus(SpendOfSteps(x, cp), if taskId in TaskIds(cp) then ZERO else Charge(x, result))
  {
    AgreesOnId(x, cp, taskId, result);
    PlusZero(SpendOfSteps(x, cp));
    hide Charge, OneCharge, Agrees, Plus;
    var ids, all := TaskIds(cp), AllCharges(x, cp, taskId, result);
    if taskId in ids {
      SumOverFrame(ids, Charges(x, cp), all);
      assert ids + {taskId} == ids;
    } else {
      SumOverAdd(ids, Charges(x, cp), taskId, Charge(x, result));
    }
  }

  lemma SpendAfter(x: Extractor, cp: Checkpoint, name: string, taskId: string, result: string)
    requires OneCharge(x, cp) && Agrees(x, cp, taskId, result)
    ensures var ids' := TaskIds(cp[name := StepCheckpoint(taskId, result)]);
            && ids' <= TaskIds(cp) + {taskId}
            && SpendOfSteps(x, cp[name := StepCheckpoint(taskId, result)]) ==
               SumOver(ids', AllCharges(x, cp, taskId, result))
  {
    var cp' := cp[name := StepCheckpoint(taskId, result)];
    IdsAfterWrite(cp, name, StepCheckpoint(taskId, result));
    forall t | t in TaskIds(cp') ensures Charges(x, cp')[t] == AllCharges(x, cp, taskId, result)[t] {
      ChargesAfterWrite(x, cp, name, taskId, result, t);
    }
    hide Charge, OneCharge, Agrees, Plus;
    SumOverFrame(TaskIds(cp'), Charges(x, cp'), AllCharges(x, cp, taskId, result));
  }

  lemma SpendForgotten(x: Extractor, cp: Checkpoint, name: string, taskId: string, result: string)
    requires OneCharge(x, cp) && Agrees(x, cp, taskId, result)
    ensures var ids' := TaskIds(cp[name := StepCheckpoint(taskId, result)]);
            var all := AllCharges(x, cp, taskId, result);
            && ids' <= TaskIds(cp) + {taskId}
            && Plus(SumOver(ids', all), if Forgets(cp, name, taskId) then Charge(x, cp[name].result) else ZERO) ==
               SumOver(TaskIds(cp) + {taskId}, all)
  {
    var ids, all := TaskIds(cp), AllCharges(x, cp, taskId, result);
    var ids' := TaskIds(cp[name := StepCheckpoint(taskId, result)]);
    IdsAfterWrite(cp, name, StepCheckpoint(taskId, result));
    SameIds(cp, name, taskId, result);
    AgreesOnId(x, cp, taskId, result);
    if Forgets(cp, name, taskId) {
      var lost := cp[name].taskId;
      assert lost != taskId && lost in ids;
      assert all[lost] == Charge(x, cp[name].result);
      hide Charge, OneCharge, Agrees, TaskIds, Charges;
      assert ids + {taskId} - {lost} == ids';
      SumOverRemove(ids + {taskId}, all, lost);
      PlusCommutes(all[lost], SumOver(ids', all));
      hide Plus;
    } else {
      hide Charge, OneCharge, Agrees, Plus, Charges;
      assert ids + {taskId} == ids';
      PlusZero(SumOver(ids', all));
    }
  }

  lemma PlusCommutes(a: Spend, b: Spend)
    ensures Plus(a, b) == Plus(b, a)
  {
  }

  /**
   * What writing one step does to the spend of the steps: a new task id adds its charge, a forgotten
   * one takes its own away.
   */
  lemma SpendOfWrite(x: Extractor, cp: Checkpoint, name: string, taskId: string, result: string)
    requires OneCharge(x, cp) && Agrees(x, cp, taskId, result)
    ensures Plus(SpendOfSteps(x, cp[name := StepCheckpoint(taskId, result)]),
                 if Forgets(cp, name, taskId) then Charge(x, cp[name].result) else ZERO) ==
            Plus(SpendOfSteps(x, cp), if taskId in TaskIds(cp) then ZERO else Charge(x, result))
  {
    SpendBefore(x, cp, taskId, result);
    SpendAfter(x, cp, name, taskId, result);
    SpendForgotten(x, cp, name, taskId, result);
    hide Plus, Forgets, Charge, TaskIds, SpendOfSteps, AllCharges, OneCharge, Agrees;
  }

  lemma AgreesOnId(x: Extractor, cp: Checkpoint, taskId: string, result: string)
    requires OneCharge(x, cp) && Agrees(x, cp, taskId, result)
    ensures taskId in TaskIds(cp) ==> Charges(x, cp)[taskId] == Charge(x, result)
    ensures forall n <- cp :: cp[n].taskId in TaskIds(cp) && Charges(x, cp)[cp[n].taskId] == Charge(x, cp[n].result)
  {
    forall n | n in cp ensures cp[n].taskId in TaskIds(cp) && Charges(x, cp)[cp[n].taskId] == Charge(x, cp[n].result) {
      ChargesAre(x, cp, n);
    }
  }

  /**
   * When a completion keeps the accounting exact: it must belong to the run that is current, or cost
   * nothing; its task id must be new to the steps, unless it was reused without a charge or costs
   * nothing; and it must not overwrite the last step of a task id that was paid for.
   */
  ghost predicate KeepsExact(x: Extractor, i: Instance, id: nat, taskId: string, charge: Spend)
    requires id in i.calls && i.calls[id].gen in i.objects
  {
    var c := i.calls[id];
    var cp := i.objects[c.gen];
    && (c.gen != i.generation || taskId in TaskIds(cp) ==> charge == ZERO)
    && (c.gen == i.generation && Forgets(cp, c.name, taskId) ==> Charge(x, cp[c.name].result) == ZERO)
  }

  /**
   * Exactly when the totals stay explained: for any instance whose totals are explained, completing
   * a waited-for step leaves them explained if and only if the completion meets the condition above.
   */
  lemma CountedOnceExactlyWhen(x: Extractor, i: Instance, id: nat, taskId: string, result: string)
    requires Shape(i) && id in i.calls && Explained(x, i)
    requires i.calls[id].gen == i.generation ==>
               OneCharge(x, i.objects[i.generation]) && Agrees(x, i.objects[i.generation], taskId, result)
    ensures Explained(x, Complete(i, id, taskId, result, Some(Charge(x, result)))) <==>
            KeepsExact(x, i, id, taskId, Charge(x, result))
  {
    var c, charge := i.calls[id], Charge(x, result);
    var cp := i.objects[c.gen];
    CompleteParts(i, id, taskId, result, charge);
    NeverNegative(x, result);
    if c.gen == i.generation {
      SpendOfWrite(x, cp, c.name, taskId, result);
      if c.name in cp { NeverNegative(x, cp[c.name].result); }
      Balance(SpendOfSteps(x, cp), SpendOfSteps(x, cp[c.name := StepCheckpoint(taskId, result)]), i.book.deltas, charge,
              taskId in TaskIds(cp), if Forgets(cp, c.name, taskId) then Charge(x, cp[c.name].result) else ZERO);
    } else {
      var s := SpendOfSteps(x, i.objects[i.generation]);
      PlusZero(s);
      Balance(s, s, i.book.deltas, charge, true, ZERO);
    }
    hide Complete, Charge, TaskIds, SpendOfSteps, Forgets, OneCharge, Agrees, Plus;
  }

  lemma NeverNegative(x: Extractor, result: string)
    ensures NonNegative(Charge(x, result))
  {
  }

  /** What a charged completion does to the totals, the deltas and the steps of the current run. */
  lemma CompleteParts(i: Instance, id: nat, taskId: string, result: string, charge: Spend)
    requires Shape(i) && id in i.calls
    ensures var i' := Complete(i, id, taskId, result, Some(charge));
            var c := i.calls[id];
            && i'.totals == Plus(i.totals, charge) && i'.book.deltas == i.book.deltas && i'.generation == i.generation
            && i.generation in i'.objects
            && i'.objects[i.generation] ==
               if c.gen == i.generation then i.objects[c.gen][c.name := StepCheckpoint(taskId, result)]
               else i.objects[i.generation]
  {
    ChargeEffect(i, id, taskId, result, charge);
    hide Complete, TaskIds, Plus;
  }

  lemma Balance(before: Spend, after: Spend, deltas: Spend, charge: Spend, seen: bool, forgotten: Spend)
    requires NonNegative(charge) && NonNegative(forgotten)
    requires Plus(after, forgotten) == Plus(before, if seen then ZERO else charge)
    ensures Plus(Plus(before, deltas), charge) == Plus(after, deltas) <==>
            (seen ==> charge == ZERO) && forgotten == ZERO
  {
  }

  /**
   * Reusing the result of a completed step charges nothing: it is exact unless it overwrites a step
   * that was paid for.
   */
  lemma ReuseCountedOnceExactlyWhen(x: Extractor, i: Instance, id: nat, from: string)
    requires Shape(i) && id in i.calls && Explained(x, i)
    requires var cp := i.objects[i.calls[id].gen]; from in cp && OneCharge(x, cp)
    ensures var c := i.calls[id];
            var step := i.objects[c.gen][from];
            Explained(x, Complete(i, id, step.taskId, step.result, None)) <==>
            KeepsExact(x, i, id, step.taskId, ZERO)
  {
    var c := i.calls[id];
    var cp := i.objects[c.gen];
    var step := cp[from];
    ReuseParts(i, id, step.taskId, step.result);
    assert step.taskId in TaskIds(cp);
    if c.gen == i.generation {
      SpendOfWrite(x, cp, c.name, step.taskId, step.result);
      if c.name in cp { NeverNegative(x, cp[c.name].result); }
      PlusZero(Plus(SpendOfSteps(x, cp), i.book.deltas));
      Balance(SpendOfSteps(x, cp), SpendOfSteps(x, cp[c.name := step]), i.book.deltas, ZERO,
              true, if Forgets(cp, c.name, step.taskId) then Charge(x, cp[c.name].result) else ZERO);
    }
    hide Complete, Charge, TaskIds, SpendOfSteps, Forgets, OneCharge, Agrees, Plus;
  }

  lemma ReuseParts(i: Instance, id: nat, taskId: string, result: string)
    requires Shape(i) && id in i.calls
    ensures var i' := Complete(i, id, taskId, result, None);
            var c := i.calls[id];
            && i'.totals == i.totals && i'.book.deltas == i.book.deltas && i'.generation == i.generation
            && i.generation in i'.objects
            && i'.objects[i.generation] ==
               if c.gen == i.generation then i.objects[c.gen][c.name := StepCheckpoint(taskId, result)]
               else i.objects[i.generation]
  {
    hide TaskIds, Plus, OverBudget;
  }

  /**
   * Over every run: as long as no completion has overlapped, the next one leaves the totals equal to
   * the spend of the steps plus the deltas exactly when its call belongs to the current run and its
   * task id is new to the steps (or it is free), and it forgets no step that was paid for.
   */
  lemma ExactInRuns(x: Extractor, ws: seq<World>, es: seq<Event>, k: nat, id: nat, result: string)
    requires IsRun(x, ws, es) && k < |es| && es[k] == Completed(id, result) && ws[k].inst.book.overlaps == 0
    requires var i := ws[k].inst;
             Agrees(x, i.objects[i.generation], TaskIdOf(i.calls[id]), result)
    ensures ws[k + 1].inst.generation in ws[k + 1].inst.objects
    ensures Explained(x, ws[k + 1].inst) <==>
            KeepsExact(x, ws[k].inst, id, TaskIdOf(ws[k].inst.calls[id]), Charge(x, result))
  {
    LedgerRun(x, ws, es, k);
    LedgerRun(x, ws, es, k + 1);
    SpendCountedOnce(x, ws, es, k);
    assert Enabled(ws[k], es[k]) && ws[k + 1] == Next(x, ws[k], es[k]);
    FaithfulCharges(x, ws[k].inst.objects[ws[k].inst.generation], ws[k].inst.book);
    CountedOnceExactlyWhen(x, ws[k].inst, id, TaskIdOf(ws[k].inst.calls[id]), result);
  }

  lemma FaithfulCharges(x: Extractor, cp: Checkpoint, b: Book)
    requires Faithful(x, cp, b)
    ensures OneCharge(x, cp)
  {
  }

  // ----- A run that double-counts -----

  lemma Extends(x: Extractor, ws: seq<World>, es: seq<Event>, e: Event)
    requires IsRun(x, ws, es) && Enabled(ws[|es|], e)
    ensures IsRun(x, ws + [Next(x, ws[|es|], e)], es + [e])
  {
    hide Next, Enabled, Fresh;
  }

  const UNLIMITED := WorkflowBudget(NotFinite, NotFinite)

  /** Two calls of a fresh run with nothing completed yet. */
  ghost predicate Twins(i: Instance, a: string, b: string, p: Phase, q: Phase) {
    && i.generation == 0 && i.objects == map[0 := map[]] && i.stop.None? && !i.aborted && i.budget == UNLIMITED
    && i.calls.Keys == {0, 1} && i.book.overlaps == 0
    && i.calls[0] == Call(a, RunStep, 0, p, false) && i.calls[1] == Call(b, RunStep, 0, q, false)
    && i.loading.Loaded? && i.chain == [] && i.head == Queued && !i.cleared
  }

  /** One event further. */
  lemma Then(x: Extractor, ws: seq<World>, es: seq<Event>, e: Event) returns (ws': seq<World>, es': seq<Event>)
    requires IsRun(x, ws, es) && Enabled(ws[|es|], e)
    ensures IsRun(x, ws', es') && es' == es + [e] && ws' == ws + [Next(x, ws[|es|], e)]
    ensures |es'| == |es| + 1 && ws'[|es'|] == Next(x, ws[|es|], e) && ws'[0] == ws[0]
  {
    Extends(x, ws, es, e);
    ws', es' := ws + [Next(x, ws[|es|], e)], es + [e];
  }

  lemma TwinsLoading(x: Extractor, a: string, b: string) returns (ws: seq<World>, es: seq<Event>)
    requires a != SPEND_ENTRY && b != SPEND_ENTRY
    ensures IsRun(x, ws, es) && |es| == 3 && Twins(ws[3].inst, a, b, Loading, Loading)
  {
    ws, es := [World(None, Fresh(UNLIMITED))], [];
    ws, es := Then(x, ws, es, CallStep(0, a, RunStep));
    ws, es := Then(x, ws, es, CallStep(1, b, RunStep));
    ws, es := Then(x, ws, es, LoadOk);
    hide IsRun;
  }

  lemma TwinsReady(x: Extractor, a: string, b: string) returns (ws: seq<World>, es: seq<Event>)
    requires a != SPEND_ENTRY && b != SPEND_ENTRY
    ensures IsRun(x, ws, es) && |es| == 5 && Twins(ws[5].inst, a, b, Ready, Ready)
  {
    ws, es := TwinsLoading(x, a, b);
    hide IsRun;
    ws, es := Then(x, ws, es, Resume(0));
    ws, es := Then(x, ws, es, Resume(1));
  }

  lemma TwinsDispatching(x: Extractor, a: string, b: string) returns (ws: seq<World>, es: seq<Event>)
    requires a != SPEND_ENTRY && b != SPEND_ENTRY
    ensures IsRun(x, ws, es) && |es| == 7 && Twins(ws[7].inst, a, b, Dispatching, Dispatching)
  {
    ws, es := TwinsReady(x, a, b);
    hide IsRun;
    ws, es := Then(x, ws, es, Proceed(0));
    ws, es := Then(x, ws, es, Proceed(1));
  }

  lemma TwinsWaiting(x: Extractor, a: string, b: string, t: string, u: string) returns (ws: seq<World>, es: seq<Event>)
    requires a != SPEND_ENTRY && b != SPEND_ENTRY
    ensures IsRun(x, ws, es) && |es| == 9 && Twins(ws[9].inst, a, b, Waiting(t), Waiting(u))
  {
    ws, es := TwinsDispatching(x, a, b);
    NoIds(ws[|es|].inst.objects[0]);
    hide IsRun;
    ws, es := Then(x, ws, es, Dispatched(0, t));
    assert ws[|es|].inst.objects[0] == map[];
    NoIds(ws[|es|].inst.objects[0]);
    ws, es := Then(x, ws, es, Dispatched(1, u));
  }

  lemma TwinsComplete(x: Extractor, i: Instance, t: string, result: string)
    requires Shape(i) && Twins(i, "a", "b", Waiting(t), Waiting(t)) && Explained(x, i)
    ensures var i1 := Complete(i, 0, t, result, Some(Charge(x, result)));
            1 in i1.calls && i1.calls[1] == i.calls[1] && 0 in i1.objects &&
            var i2 := Complete(i1, 1, t, result, Some(Charge(x, result)));
            && i2.totals == Plus(Plus(i.totals, Charge(x, result)), Charge(x, result))
            && i2.generation == 0 && 0 in i2.objects && TaskIds(i2.objects[0]) == {t}
            && (Explained(x, i2) <==> Charge(x, result) == ZERO)
  {
    var charge := Charge(x, result);
    var i1 := Complete(i, 0, t, result, Some(charge));
    NoIds(i.objects[0]);
    ChargeEffect(i, 0, t, result, charge);
    ShapeComplete(i, 0, t, result, Some(charge));
    CountedOnceExactlyWhen(x, i, 0, t, result);
    CompleteParts(i, 0, t, result, charge);
    var one := map["a" := StepCheckpoint(t, result)];
    assert i1.objects[0] == one;
    OnlyId(one, t);
    hide Complete, Charge;
    CountedOnceExactlyWhen(x, i1, 1, t, result);
    CompleteParts(i1, 1, t, result, charge);
    OnlyId(one["b" := StepCheckpoint(t, result)], t);
    hide Shape, TaskIds, Plus;
  }

  lemma OnlyId(cp: Checkpoint, t: string)
    requires cp != map[] && forall n <- cp :: cp[n].taskId == t
    ensures TaskIds(cp) == {t}
  {
    var n :| n in cp;
    assert cp[n].taskId == t;
  }

  /**
   * The double charge is real with a router that lets both waits go on: from a fresh run, two steps
   * that wait for one task id at the same time and are both completed are charged twice while the steps
   * show the task id once; so unless they are free the totals exceed the spend of the steps.
   */
  lemma OverlappingWaitsChargeTwice(x: Extractor, t: string, result: string) returns (ws: seq<World>, es: seq<Event>)
    ensures IsRun(x, ws, es) && |es| >= 2
    ensures es[|es| - 2] == Completed(0, result) && es[|es| - 1] == Completed(1, result)
    ensures var before, after := ws[|es| - 2].inst, ws[|es|].inst;
            && Twins(before, "a", "b", Waiting(t), Waiting(t)) && Explained(x, before)
            && after.generation == 0 && 0 in after.objects && TaskIds(after.objects[0]) == {t}
            && after.totals == Plus(Plus(before.totals, Charge(x, result)), Charge(x, result))
            && (Explained(x, after) <==> Charge(x, result) == ZERO)
  {
    ws, es := TwinsWaiting(x, "a", "b", t, t);
    var i := ws[|es|].inst;
    LedgerRun(x, ws, es, |es|);
    SpendCountedOnce(x, ws, es, |es|);
    TwinsComplete(x, i, t, result);
    hide IsRun, Complete, Charge, TaskIds, Explained, Shape, SpendOfSteps, Balanced, LedgerInv, Plus;
    ws, es := Then(x, ws, es, Completed(0, result));
    ws, es := Then(x, ws, es, Completed(1, result));
  }
}
