/**
 * Where the steps of the store come from once a clear() has wiped it: whatever crashes, loads, saves
 * and further clears follow, each was completed by a call made after the reset.
 */
module OrchestratorOrigin {
  import opened Budget
  import opened Orchestrator
  import opened OrchestratorLedger
  import opened OrchestratorBarrier
  import opened OrchestratorConservation

  /** The call was made after event r and before event d. */
  ghost predicate CalledAfter(es: seq<Event>, r: nat, d: nat, id: nat, name: string) {
    exists c :: r < c < d && c < |es| && es[c].CallStep? && es[c].id == id && es[c].name == name
  }

  /** The event completes a call of this name with this outcome. */
  predicate Writes(w: World, e: Event, name: string, entry: StepCheckpoint) {
    && (e.Completed? || e.Reused?) && Enabled(w, e) && w.inst.calls[e.id].name == name
    && entry == if e.Completed? then StepCheckpoint(TaskIdOf(w.inst.calls[e.id]), e.result)
                else w.inst.objects[w.inst.calls[e.id].gen][e.from]
  }

  /** The step was written, before moment j, by a call made after event r. */
  ghost predicate Later(ws: seq<World>, es: seq<Event>, r: nat, j: nat, name: string, entry: StepCheckpoint) {
    exists d :: r < d < j && d < |es| && d < |ws| && Writes(ws[d], es[d], name, entry) &&
                CalledAfter(es, r, d, es[d].id, name)
  }

  ghost predicate AllLater(ws: seq<World>, es: seq<Event>, r: nat, j: nat, cp: Checkpoint) {
    forall n <- cp :: Later(ws, es, r, j, n, cp[n])
  }

  /** The calls of the current generation were made after event r. */
  ghost predicate CallsLater(es: seq<Event>, r: nat, j: nat, i: Instance) {
    forall id <- i.calls :: i.calls[id].gen == i.generation ==> CalledAfter(es, r, j, id, i.calls[id].name)
  }

  ghost predicate OriginInv(ws: seq<World>, es: seq<Event>, r: nat, j: nat)
    requires j < |ws|
  {
    var i := ws[j].inst;
    && i.generation in i.objects && CallsLater(es, r, j, i)
    && AllLater(ws, es, r, j, i.objects[i.generation])
    && (i.head.Storing? ==> AllLater(ws, es, r, j, i.head.record.steps))
    && (i.loading.Loaded? || AllLater(ws, es, r, j, Saved(ws[j].store)))
  }

  lemma LaterOn(ws: seq<World>, es: seq<Event>, r: nat, j: nat, cp: Checkpoint)
    requires AllLater(ws, es, r, j, cp)
    ensures AllLater(ws, es, r, j + 1, cp)
  {
    hide Writes, CalledAfter;
    forall n | n in cp ensures Later(ws, es, r, j + 1, n, cp[n]) {
      assert Later(ws, es, r, j, n, cp[n]);
    }
  }

  lemma CalledOn(es: seq<Event>, r: nat, j: nat, id: nat, name: string)
    requires CalledAfter(es, r, j, id, name)
    ensures CalledAfter(es, r, j + 1, id, name)
  {
  }

  // ----- What one turn does to the calls and the steps -----

  lemma SameKeys(x: Extractor, w: World, e: Event)
    requires Enabled(w, e) && !e.Crash? && !e.CallStep?
    ensures Next(x, w, e).inst.calls.Keys == w.inst.calls.Keys
  {
    hide TaskIds, Charge, PopJob, Snapshot, Complete, InstallLoad, NoteSpend, RejectLoad;
    var i := w.inst;
    match e
    case LoadOk => OthersExtend(i, 0, "", RunStep, RawTotals(Missing, Missing), w.store);
    case RecordSpend(delta) => OthersExtend(i, 0, "", RunStep, delta, None);
    case LoadFails => RejectKeys(i);
    case JobSettles(_) => PopKeys(i);
    case JobProceeds => PopKeys(i);
    case Reused(id, taskId, from) =>
      CompleteKeys(i, id, taskId, i.objects[i.calls[id].gen][from].result, None);
    case Completed(id, result) =>
      CompleteKeys(i, id, TaskIdOf(i.calls[id]), result, Some(Charge(x, result)));
    case _ =>
  }

  lemma RejectKeys(i: Instance)
    ensures RejectLoad(i).calls.Keys == i.calls.Keys
  {
    var failed := i.(loading := Idle, calls := FailLoaders(i.calls));
    assert failed.calls.Keys == i.calls.Keys;
    if failed.chain != [] { PopKeys(failed); }
    hide PopJob, FailLoaders;
  }

  lemma CompleteKeys(i: Instance, id: nat, taskId: string, result: string, charge: Option<Spend>)
    requires id in i.calls && i.calls[id].gen in i.objects
    ensures Complete(i, id, taskId, result, charge).calls.Keys == i.calls.Keys
  {
    hide TaskIds, OverBudget, BookCharge, BookWrite;
  }

  lemma PopKeys(i: Instance)
    requires i.chain != []
    ensures PopJob(i, true).calls.Keys == i.calls.Keys && PopJob(i, false).calls.Keys == i.calls.Keys
  {
  }

  lemma BeginCalls(i: Instance, id: nat, name: string, kind: Kind)
    requires id !in i.calls
    ensures var i' := Begin(i, id, name, kind);
            && i'.generation == i.generation
            && forall k <- i'.calls ::
                 (k in i.calls && i'.calls[k] == i.calls[k]) || (k == id && i'.calls[k].name == name)
  {
  }

  lemma CallsStayLater(x: Extractor, w: World, es: seq<Event>, r: nat, j: nat)
    requires r < j < |es| && Shape(w.inst) && Enabled(w, es[j]) && CallsLater(es, r, j, w.inst)
    ensures CallsLater(es, r, j + 1, Next(x, w, es[j]).inst)
  {
    var e, i, i' := es[j], w.inst, Next(x, w, es[j]).inst;
    if e.CallStep? {
      BeginCalls(i, e.id, e.name, e.kind);
      hide Begin, Shape;
      forall id | id in i'.calls && i'.calls[id].gen == i'.generation
        ensures CalledAfter(es, r, j + 1, id, i'.calls[id].name)
      {
        if id in i.calls && i'.calls[id] == i.calls[id] { CalledOn(es, r, j, id, i.calls[id].name); }
      }
    } else if !e.Crash? {
      SameKeys(x, w, e);
      CallsPersist(x, w, e);
      GenerationMoves(x, w, e);
      hide Next, Enabled, Shape;
      forall id | id in i'.calls && i'.calls[id].gen == i'.generation
        ensures CalledAfter(es, r, j + 1, id, i'.calls[id].name)
      {
        assert SameCall(i.calls[id], i'.calls[id]);
        CalledOn(es, r, j, id, i.calls[id].name);
      }
    }
  }

  /** A new generation has no calls yet. */
  lemma GenerationMoves(x: Extractor, w: World, e: Event)
    requires Shape(w.inst) && Enabled(w, e) && !e.Crash?
    ensures Next(x, w, e).inst.generation == w.inst.generation ||
            forall id <- w.inst.calls :: w.inst.calls[id].gen < Next(x, w, e).inst.generation
  {
    if !WipeStarts(w, e) {
      GenerationKept(x, w, e);
    } else {
      assert forall id <- w.inst.calls :: CallFits(w.inst, w.inst.calls[id]);
    }
    hide Shape;
  }

  /** The steps of the current generation after a turn: what was there, read from the store, or just written. */
  lemma StepsFrom(x: Extractor, w: World, e: Event)
    requires Shape(w.inst) && Enabled(w, e) && !e.Crash?
    ensures var i, i' := w.inst, Next(x, w, e).inst;
            && i'.generation in i'.objects
            && forall n <- i'.objects[i'.generation] ::
                 var entry := i'.objects[i'.generation][n];
                 || (i'.generation == i.generation && n in i.objects[i.generation] &&
                     entry == i.objects[i.generation][n])
                 || (e.LoadOk? && n in Saved(w.store) && entry == Saved(w.store)[n])
                 || (Writes(w, e, n, entry) && w.inst.calls[e.id].gen == w.inst.generation)
  {
    var i := w.inst;
    if Quiet(e) {
      QuietStep(x, w, e);
      hide Next, Enabled, Shape;
    } else {
      hide Complete, InstallLoad, NoteSpend, ProceedJob, Charge, Shape, TaskIds;
      match e
      case LoadOk => InstallSteps(i, w.store);
      case RecordSpend(delta) => NoteFits(i, delta);
      case Reused(id, taskId, from) =>
        CompleteOverlaps(i, id, taskId, i.objects[i.calls[id].gen][from].result, None);
      case Completed(id, result) =>
        CompleteOverlaps(i, id, TaskIdOf(i.calls[id]), result, Some(Charge(x, result)));
      case JobProceeds => ProceedSteps(i);
      case JobStarts =>
      case StoreLands =>
    }
  }

  lemma InstallSteps(i: Instance, store: Option<Record>)
    ensures var i' := InstallLoad(i, store);
            i'.generation == i.generation && i'.objects == i.objects[i.generation := Saved(store)]
  {
    hide OverBudget, CleanTotals;
  }

  lemma ProceedSteps(i: Instance)
    requires i.chain != [] && i.generation in i.objects
    ensures ProceedJob(i).generation == i.generation && ProceedJob(i).objects == i.objects
  {
    QuietPop(i, true);
    hide PopJob, Snapshot;
  }

  lemma StepsStayLater(x: Extractor, ws: seq<World>, es: seq<Event>, r: nat, j: nat)
    requires |ws| == |es| + 1 && r < j < |es| && Shape(ws[j].inst) && !es[j].Crash?
    requires Enabled(ws[j], es[j]) && ws[j + 1] == Next(x, ws[j], es[j]) && OriginInv(ws, es, r, j)
    ensures var i' := ws[j + 1].inst;
            i'.generation in i'.objects && AllLater(ws, es, r, j + 1, i'.objects[i'.generation])
  {
    var i, i', e := ws[j].inst, ws[j + 1].inst, es[j];
    StepsFrom(x, ws[j], e);
    LaterOn(ws, es, r, j, i.objects[i.generation]);
    if e.LoadOk? { LaterOn(ws, es, r, j, Saved(ws[j].store)); }
    hide Next, Shape, Writes, CalledAfter;
    forall n | n in i'.objects[i'.generation]
      ensures Later(ws, es, r, j + 1, n, i'.objects[i'.generation][n])
    {
      var entry := i'.objects[i'.generation][n];
      if n in i.objects[i.generation] && entry == i.objects[i.generation][n] {
        assert Later(ws, es, r, j + 1, n, i.objects[i.generation][n]);
      } else if e.LoadOk? && n in Saved(ws[j].store) && entry == Saved(ws[j].store)[n] {
        assert Later(ws, es, r, j + 1, n, Saved(ws[j].store)[n]);
      } else {
        JustWritten(ws, es, r, j, n, entry);
      }
    }
  }

  lemma JustWritten(ws: seq<World>, es: seq<Event>, r: nat, j: nat, name: string, entry: StepCheckpoint)
    requires r < j < |es| && j < |ws| && Writes(ws[j], es[j], name, entry)
    requires CallsLater(es, r, j, ws[j].inst) && ws[j].inst.calls[es[j].id].gen == ws[j].inst.generation
    ensures Later(ws, es, r, j + 1, name, entry)
  {
    assert es[j].id in ws[j].inst.calls;
    hide CalledAfter;
  }

  lemma OriginStep(x: Extractor, ws: seq<World>, es: seq<Event>, r: nat, j: nat)
    requires |ws| == |es| + 1 && r < j < |es| && Shape(ws[j].inst)
    requires Enabled(ws[j], es[j]) && ws[j + 1] == Next(x, ws[j], es[j]) && OriginInv(ws, es, r, j)
    requires es[j].Crash? ==> AllLater(ws, es, r, j, Saved(ws[j].store))
    ensures OriginInv(ws, es, r, j + 1)
    ensures AllLater(ws, es, r, j, Saved(ws[j].store)) || WipeLands(ws[j], es[j]) ==>
              AllLater(ws, es, r, j + 1, Saved(ws[j + 1].store))
  {
    var w, e := ws[j], es[j];
    if AllLater(ws, es, r, j, Saved(w.store)) { LaterOn(ws, es, r, j, Saved(w.store)); }
    if w.inst.head.Storing? { LaterOn(ws, es, r, j, w.inst.head.record.steps); }
    LaterOn(ws, es, r, j, w.inst.objects[w.inst.generation]);
    StoreMoves(x, w, e);
    if e.Crash? {
      CrashShows(x, w, e);
    } else {
      CallsStayLater(x, w, es, r, j);
      StepsStayLater(x, ws, es, r, j);
      if ws[j + 1].inst.head.Storing? { HeadFrom(x, w, e); }
      if w.inst.loading.Loaded? { LoadedOn(x, w, e); }
    }
    hide Next, Enabled, Shape, Later, CallsLater;
  }

  lemma StoreMoves(x: Extractor, w: World, e: Event)
    requires Enabled(w, e)
    ensures Next(x, w, e).store ==
            if !e.StoreLands? then w.store else if w.inst.head.Storing? then Some(w.inst.head.record) else None
  {
    hide Complete, InstallLoad, RejectLoad, Begin, StartLoad, NoteSpend, SetPhase, AfterLoad, Go, StartJob,
         ProceedJob, PopJob, Land, Charge, TaskIds;
  }

  lemma CrashShows(x: Extractor, w: World, e: Event)
    requires Enabled(w, e) && e.Crash?
    ensures var i' := Next(x, w, e).inst;
            i'.generation in i'.objects && i'.objects[i'.generation] == map[] && i'.calls == map[] && i'.head == Queued
  {
  }

  lemma OriginStarts(x: Extractor, ws: seq<World>, es: seq<Event>, r: nat)
    requires |ws| == |es| + 1 && r < |es| && Shape(ws[r].inst) && WipeStarts(ws[r], es[r])
    requires Enabled(ws[r], es[r]) && ws[r + 1] == Next(x, ws[r], es[r])
    ensures OriginInv(ws, es, r, r + 1)
  {
    var i := ws[r].inst;
    assert forall id <- i.calls :: CallFits(i, i.calls[id]);
  }

  lemma {:induction false} OriginRun(x: Extractor, ws: seq<World>, es: seq<Event>, r: nat, i: nat, j: nat)
    requires IsRun(x, ws, es) && r < i < |es| && r < j <= |es|
    requires WipeStarts(ws[r], es[r]) && WipeLands(ws[i], es[i]) && forall k :: r < k < i ==> !es[k].Crash?
    ensures OriginInv(ws, es, r, j)
    ensures i < j ==> AllLater(ws, es, r, j, Saved(ws[j].store))
    decreases j
  {
    hide Next, Enabled, OriginInv, AllLater;
    Turn(x, ws, es, j - 1);
    LedgerRun(x, ws, es, j - 1);
    if j == r + 1 {
      hide IsRun, Shape, WipeStarts, WipeLands;
      OriginStarts(x, ws, es, r);
    } else {
      NoCrash(ws, es, i);
      OriginRun(x, ws, es, r, i, j - 1);
      hide IsRun, Shape, WipeStarts, WipeLands;
      OriginStep(x, ws, es, r, j - 1);
    }
  }

  lemma NoCrash(ws: seq<World>, es: seq<Event>, i: nat)
    requires i < |es| && i < |ws| && WipeLands(ws[i], es[i])
    ensures !es[i].Crash?
  {
  }

  /**
   * No earlier step reappears: once the wipe of a clear() has landed, every step that the store ever
   * holds again was completed, with that very task id and result, by a call made after the reset,
   * whatever saves, loads and calls were in flight, and over any later crashes and further clears.
   */
  lemma NoEarlierStepReappears(x: Extractor, ws: seq<World>, es: seq<Event>, r: nat, i: nat, j: nat, name: string)
    requires IsRun(x, ws, es) && r < i < j <= |es|
    requires WipeStarts(ws[r], es[r]) && WipeLands(ws[i], es[i]) && forall k :: r < k < i ==> !es[k].Crash?
    requires name in Saved(ws[j].store)
    ensures exists c, d :: r < c < d < j && es[c].CallStep? && es[c].name == name &&
              Writes(ws[d], es[d], name, Saved(ws[j].store)[name]) && es[d].id == es[c].id
  {
    OriginRun(x, ws, es, r, i, j);
    var entry := Saved(ws[j].store)[name];
    assert Later(ws, es, r, j, name, entry);
    var d :| r < d < j && Writes(ws[d], es[d], name, entry) && CalledAfter(es, r, d, es[d].id, name);
    var c :| r < c < d && es[c].CallStep? && es[c].id == es[d].id && es[c].name == name;
    hide IsRun, Writes;
  }
}
