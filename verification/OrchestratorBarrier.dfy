/**
 * What the store can hold: the clear barrier, write-once resume, and a record that only grows.
 */
module OrchestratorBarrier {
  import opened Budget
  import opened Orchestrator
  import opened OrchestratorLedger

  // ----- Calls are never forgotten -----

  predicate SameCall(c: Call, c': Call) {
    c'.name == c.name && c'.kind == c.kind && c'.gen == c.gen && (c.wrote ==> c'.wrote)
  }

  ghost predicate CallsExtend(i: Instance, i': Instance) {
    forall id <- i.calls :: id in i'.calls && SameCall(i.calls[id], i'.calls[id])
  }

  lemma PopExtends(i: Instance, ok: bool)
    requires i.chain != []
    ensures CallsExtend(i, PopJob(i, ok))
  {
  }

  lemma RejectExtends(i: Instance)
    ensures CallsExtend(i, RejectLoad(i))
  {
    var s := i.(loading := Idle, calls := FailLoaders(i.calls));
    assert CallsExtend(i, s);
    if s.head.AwaitingLoad? && s.chain != [] { PopExtends(s, false); }
    hide PopJob, FailLoaders;
  }

  lemma CompleteExtends(i: Instance, id: nat, taskId: string, result: string, charge: Option<Spend>)
    requires id in i.calls && i.calls[id].gen in i.objects
    ensures CallsExtend(i, Complete(i, id, taskId, result, charge))
  {
    hide BookCharge, BookWrite, AddSpend;
  }

  lemma OthersExtend(i: Instance, id: nat, name: string, kind: Kind, delta: RawTotals, store: Option<Record>)
    requires i.generation in i.objects
    ensures id !in i.calls ==> CallsExtend(i, Begin(i, id, name, kind))
    ensures CallsExtend(i, StartLoad(i)) && CallsExtend(i, Land(i))
    ensures InstallLoad(i, store).calls == i.calls && NoteSpend(i, delta).calls == i.calls
  {
    hide OverBudget, CleanTotals;
  }

  lemma SetExtends(i: Instance, id: nat, p: Phase)
    requires id in i.calls
    ensures CallsExtend(i, SetPhase(i, id, p))
  {
  }

  lemma PhaseExtends(i: Instance, id: nat, p: Phase)
    requires InPhase(i, id)
    ensures CallsExtend(i, SetPhase(i, id, p)) && CallsExtend(i, AfterLoad(i, id))
  {
    hide SetPhase;
    SetExtends(i, id, p);
    SetExtends(i, id, if i.calls[id].gen == i.generation then Ready else Threw(NotStarted));
  }

  lemma GoExtends(i: Instance, id: nat)
    requires InPhase(i, id)
    ensures CallsExtend(i, Go(i, id))
  {
    hide SetPhase;
    var c := i.calls[id];
    var cp := i.objects[c.gen];
    if c.name in cp { SetExtends(i, id, Returned(cp[c.name].result)); }
    SetExtends(i, id, Threw(if i.aborted then EmergencyStopped else OverBudgetStop));
    SetExtends(i.(book := i.book.(recent := [])), id, if c.kind.RunStep? then Dispatching else Producing);
  }

  lemma JobExtends(i: Instance)
    requires i.chain != [] && i.generation in i.objects
    ensures CallsExtend(i, StartJob(i)) && CallsExtend(i, ProceedJob(i))
  {
    PopExtends(i, true);
    hide PopJob, Snapshot;
  }

  lemma CallsPersist(x: Extractor, w: World, e: Event)
    requires Enabled(w, e) && !e.Crash?
    ensures CallsExtend(w.inst, Next(x, w, e).inst)
  {
    hide Complete, InstallLoad, RejectLoad, Begin, StartLoad, NoteSpend, SetPhase, AfterLoad, Go, StartJob,
         ProceedJob, PopJob, Land, Charge, TaskIds;
    var i := w.inst;
    var zero := RawTotals(Missing, Missing);
    match e
    case CallStep(id, name, kind) => OthersExtend(i, id, name, kind, zero, None);
    case CallIsResuming => OthersExtend(i, 0, "", RunStep, zero, None);
    case RecordSpend(delta) => OthersExtend(i, 0, "", RunStep, delta, None);
    case LoadOk => OthersExtend(i, 0, "", RunStep, zero, w.store);
    case StoreLands => OthersExtend(i, 0, "", RunStep, zero, None);
    case LoadFails => RejectExtends(i);
    case Resume(id) => PhaseExtends(i, id, Ready);
    case Proceed(id) => GoExtends(i, id);
    case Dispatched(id, taskId) => PhaseExtends(i, id, Waiting(taskId));
    case WorkFails(id) => PhaseExtends(i, id, Threw(WorkFailed));
    case Reused(id, taskId, from) =>
      CompleteExtends(i, id, taskId, i.objects[i.calls[id].gen][from].result, None);
    case Completed(id, result) =>
      CompleteExtends(i, id, TaskIdOf(i.calls[id]), result, Some(Charge(x, result)));
    case JobStarts => JobExtends(i);
    case JobProceeds => JobExtends(i);
    case JobSettles(ok) => PopExtends(i, ok);
    case CallClear =>
    case Abort =>
  }

  // ----- The store against the checkpoint in memory -----

  /** The step was completed by a call of the current generation. */
  ghost predicate WrittenNow(i: Instance, name: string) {
    exists id <- i.calls :: i.calls[id].name == name && i.calls[id].gen == i.generation && i.calls[id].wrote
  }

  ghost predicate Covers(live: Checkpoint, steps: Checkpoint, exact: bool) {
    && steps.Keys <= live.Keys
    && (exact ==> forall n <- steps :: live[n] == steps[n])
  }

  function Saved(store: Option<Record>): Checkpoint {
    if store.Some? then store.value.steps else map[]
  }

  ghost predicate StoreFits(i: Instance, store: Option<Record>)
    requires i.generation in i.objects
  {
    var live := i.objects[i.generation];
    i.settled ==>
      && Covers(live, Saved(store), i.book.overlaps == 0)
      && (i.generation > 0 && store.Some? ==> Saved(store) != map[])
      && (i.head.Storing? ==> Saved(store).Keys <= i.head.record.steps.Keys)
  }

  ghost predicate HeadRecordFits(i: Instance)
    requires i.generation in i.objects
  {
    i.head.Storing? ==>
      && Covers(i.objects[i.generation], i.head.record.steps, i.book.overlaps == 0)
      && (i.generation > 0 ==> i.head.record.steps != map[])
  }

  ghost predicate Provenance(i: Instance)
    requires i.generation in i.objects
  {
    i.generation > 0 ==> forall n <- i.objects[i.generation] :: WrittenNow(i, n)
  }

  ghost predicate StoreInv(w: World) {
    var i := w.inst;
    && Shape(i)
    && StoreFits(i, w.store) && HeadRecordFits(i) && Provenance(i)
    && (i.generation == 0 && i.loading.Loaded? ==> i.settled)
  }

  lemma ProvenanceStays(i: Instance, i': Instance)
    requires i.generation in i.objects && Provenance(i) && CallsExtend(i, i')
    requires i'.generation == i.generation && i'.objects == i.objects
    ensures Provenance(i')
  {
    if i.generation > 0 {
      forall n | n in i'.objects[i'.generation]
        ensures WrittenNow(i', n)
      {
        assert WrittenNow(i, n);
        var id :| id in i.calls && i.calls[id].name == n && i.calls[id].gen == i.generation && i.calls[id].wrote;
        assert SameCall(i.calls[id], i'.calls[id]);
      }
    }
  }

  lemma QuietStoreStep(x: Extractor, w: World, e: Event)
    requires StoreInv(w) && Enabled(w, e) && Quiet(e)
    requires Shape(Next(x, w, e).inst)
    ensures StoreInv(Next(x, w, e))
  {
    QuietStep(x, w, e);
    CallsPersist(x, w, e);
    QuietLoading(x, w, e);
    hide Next, Enabled, Shape, Quiet, Covers, WrittenNow, Provenance, CallsExtend;
    ProvenanceStays(w.inst, Next(x, w, e).inst);
  }

  lemma QuietLoading(x: Extractor, w: World, e: Event)
    requires Enabled(w, e) && Quiet(e)
    ensures Next(x, w, e).inst.loading.Loaded? ==> w.inst.loading.Loaded?
  {
    hide Complete, InstallLoad, NoteSpend, StartJob, ProceedJob, Land, Charge, TaskIds, FailLoaders;
  }

  /** A completion only adds to the checkpoint object of its own generation. */
  lemma CompleteFits(w: World, id: nat, taskId: string, result: string, charge: Option<Spend>)
    requires StoreInv(w) && id in w.inst.calls
    ensures var i' := Complete(w.inst, id, taskId, result, charge);
            StoreFits(i', w.store) && HeadRecordFits(i') && Provenance(i')
  {
    var i := w.inst;
    var c := i.calls[id];
    var i' := Complete(i, id, taskId, result, charge);
    CompleteExtends(i, id, taskId, result, charge);
    CompleteOverlaps(i, id, taskId, result, charge);
    if i.generation > 0 {
      forall n | n in i'.objects[i'.generation]
        ensures WrittenNow(i', n)
      {
        if c.gen == i.generation && n == c.name {
          assert i'.calls[id].name == n && i'.calls[id].gen == i'.generation && i'.calls[id].wrote;
        } else {
          assert WrittenNow(i, n);
          var k :| k in i.calls && i.calls[k].name == n && i.calls[k].gen == i.generation && i.calls[k].wrote;
          assert SameCall(i.calls[k], i'.calls[k]);
        }
      }
    }
    hide Complete, Shape, WrittenNow, CallsExtend;
  }

  lemma CompleteOverlaps(i: Instance, id: nat, taskId: string, result: string, charge: Option<Spend>)
    requires id in i.calls && i.calls[id].gen in i.objects
    ensures var c := i.calls[id];
            var i' := Complete(i, id, taskId, result, charge);
            && i'.generation == i.generation && i'.settled == i.settled && i'.head == i.head
            && i'.loading == i.loading
            && i'.objects == i.objects[c.gen := i.objects[c.gen][c.name := StepCheckpoint(taskId, result)]]
            && (i'.book.overlaps == 0 ==>
                  i.book.overlaps == 0 && (c.gen == i.generation ==> c.name !in i.objects[c.gen]))
  {
    hide TaskIds, OverBudget;
  }

  lemma InstallFits(i: Instance, store: Option<Record>)
    requires Shape(i) && i.loading.InFlight?
    ensures var i' := InstallLoad(i, store);
            StoreFits(i', store) && HeadRecordFits(i') && Provenance(i') && i'.settled && i'.loading.Loaded?
  {
    hide OverBudget, CleanTotals;
  }

  lemma NoteFits(i: Instance, delta: RawTotals)
    ensures var i' := NoteSpend(i, delta);
            && i'.generation == i.generation && i'.settled == i.settled && i'.head == i.head
            && i'.loading == i.loading && i'.objects == i.objects && i'.book.overlaps == i.book.overlaps
            && i'.calls == i.calls
  {
    hide OverBudget, CleanTotals;
  }

  lemma StartJobFits(w: World)
    requires StoreInv(w) && w.inst.chain != [] && w.inst.head.Queued? && Shape(StartJob(w.inst))
    ensures StoreInv(World(w.store, StartJob(w.inst)))
  {
    if w.inst.chain[0].Save? {
      JobExtends(w.inst);
      ProvenanceStays(w.inst, StartJob(w.inst));
    }
    hide Shape, WrittenNow;
  }

  lemma ProceedFits(w: World)
    requires StoreInv(w) && w.inst.chain != [] && w.inst.head.AwaitingLoad? && w.inst.loading.Loaded?
    requires Shape(ProceedJob(w.inst))
    ensures StoreInv(World(w.store, ProceedJob(w.inst)))
  {
    var i := w.inst;
    JobExtends(i);
    ProvenanceStays(i, ProceedJob(i));
    if i.cleared && i.objects[i.generation] == map[] { QuietPop(i, true); }
    hide WrittenNow, Provenance, CallsExtend, HeadFits, CallFits;
  }

  lemma LandFits(w: World)
    requires StoreInv(w) && (w.inst.head.Storing? || w.inst.head.Wiping?) && Shape(Land(w.inst))
    ensures StoreInv(World(if w.inst.head.Storing? then Some(w.inst.head.record) else None, Land(w.inst)))
  {
    ProvenanceStays(w.inst, Land(w.inst));
    hide WrittenNow, Provenance;
  }

  lemma StoreStep(x: Extractor, w: World, e: Event)
    requires StoreInv(w) && Enabled(w, e)
    ensures StoreInv(Next(x, w, e))
  {
    ShapeStep(x, w, e);
    if Quiet(e) {
      QuietStoreStep(x, w, e);
    } else {
      hide Complete, InstallLoad, NoteSpend, StartJob, ProceedJob, Land, Shape, WrittenNow, Charge, Covers;
      var i := w.inst;
      match e
      case LoadOk => InstallFits(i, w.store);
      case Reused(id, taskId, from) =>
        CompleteFits(w, id, taskId, i.objects[i.calls[id].gen][from].result, None);
        CompleteOverlaps(i, id, taskId, i.objects[i.calls[id].gen][from].result, None);
      case Completed(id, result) =>
        CompleteFits(w, id, TaskIdOf(i.calls[id]), result, Some(Charge(x, result)));
        CompleteOverlaps(i, id, TaskIdOf(i.calls[id]), result, Some(Charge(x, result)));
      case JobStarts => StartJobFits(w);
      case JobProceeds => ProceedFits(w);
      case StoreLands => LandFits(w);
      case RecordSpend(delta) =>
        NoteFits(i, delta);
        ProvenanceStays(i, NoteSpend(i, delta));
      case Crash(budget) =>
    }
  }

  lemma {:induction false} StoreRun(x: Extractor, ws: seq<World>, es: seq<Event>, k: nat)
    requires IsRun(x, ws, es) && k < |ws|
    ensures StoreInv(ws[k])
  {
    if k > 0 {
      StoreRun(x, ws, es, k - 1);
      StoreStep(x, ws[k - 1], es[k - 1]);
    }
  }

  // ----- The clear barrier -----

  predicate WipeStarts(w: World, e: Event) {
    e.JobStarts? && w.inst.chain != [] && w.inst.chain[0].Wipe?
  }

  predicate WipeLands(w: World, e: Event) {
    e.StoreLands? && w.inst.head.Wiping?
  }

  /** Neither a crash nor another clear's reset happens from event i on, before event j. */
  ghost predicate Undisturbed(ws: seq<World>, es: seq<Event>, i: nat, j: nat)
    requires |ws| == |es| + 1 && i <= j <= |es|
  {
    forall k :: i <= k < j ==> !es[k].Crash? && !WipeStarts(ws[k], es[k])
  }

  lemma GenerationKept(x: Extractor, w: World, e: Event)
    requires Shape(w.inst) && Enabled(w, e) && !e.Crash? && !WipeStarts(w, e)
    ensures Next(x, w, e).inst.generation == w.inst.generation
    ensures w.inst.settled ==> Next(x, w, e).inst.settled
    ensures !w.inst.head.Wiping? ==> !Next(x, w, e).inst.head.Wiping?
  {
    hide TaskIds, OverBudget, CleanTotals, BookCharge, BookWrite, FailLoaders, RejectLoad, Begin,
         AfterLoad, Go, Charge, Shape;
    if Quiet(e) { QuietStep(x, w, e); }
  }

  lemma {:induction false} SettledKept(x: Extractor, ws: seq<World>, es: seq<Event>, i: nat, j: nat)
    requires IsRun(x, ws, es) && i <= j <= |es| && Undisturbed(ws, es, i, j)
    ensures ws[j].inst.generation == ws[i].inst.generation
    ensures ws[i].inst.settled ==> ws[j].inst.settled
    ensures CallsExtend(ws[i].inst, ws[j].inst)
    decreases j
  {
    hide Enabled, Next, Shape, StoreFits, HeadRecordFits, Provenance;
    if i < j {
      SettledKept(x, ws, es, i, j - 1);
      StoreRun(x, ws, es, j - 1);
      Turn(x, ws, es, j - 1);
      GenerationKept(x, ws[j - 1], es[j - 1]);
      CallsPersist(x, ws[j - 1], es[j - 1]);
    }
  }

  /**
   * The clear barrier: after the wipe of a clear() has landed, whatever saves, loads, steps and
   * recordSpend calls were queued or in flight, the store holds no record until a step called after
   * the reset completes, and every step in it was completed by such a call.
   */
  lemma ClearBarrier(x: Extractor, ws: seq<World>, es: seq<Event>, i: nat, j: nat)
    requires IsRun(x, ws, es) && i < j <= |es|
    requires WipeLands(ws[i], es[i]) && Undisturbed(ws, es, i + 1, j)
    ensures var now := ws[j].inst;
            && now.generation == ws[i].inst.generation > 0
            && (ws[j].store.Some? ==>
                  && ws[j].store.value.steps != map[]
                  && forall n <- ws[j].store.value.steps ::
                       exists id <- now.calls ::
                         now.calls[id].name == n && now.calls[id].gen == now.generation && now.calls[id].wrote)
  {
    StoreRun(x, ws, es, i);
    StoreRun(x, ws, es, j);
    SettledKept(x, ws, es, i + 1, j);
    if ws[j].store.Some? {
      forall n | n in ws[j].store.value.steps
        ensures WrittenNow(ws[j].inst, n)
      {
        assert n in ws[j].inst.objects[ws[j].inst.generation];
      }
    }
  }

  ghost predicate NeverStarted(i: Instance, id: nat) {
    && id in i.calls && i.calls[id].gen < i.generation && !i.calls[id].wrote
    && (i.calls[id].phase.Loading? || i.calls[id].phase == Threw(NotStarted) || i.calls[id].phase == Threw(LoadFailed))
  }

  lemma StaleComplete(i: Instance, k: nat, taskId: string, result: string, charge: Option<Spend>, id: nat)
    requires k in i.calls && i.calls[k].gen in i.objects && k != id && NeverStarted(i, id)
    ensures NeverStarted(Complete(i, k, taskId, result, charge), id)
  {
    hide TaskIds, OverBudget, BookCharge, BookWrite;
  }

  lemma StaleStep(x: Extractor, w: World, e: Event, id: nat)
    requires Shape(w.inst) && Enabled(w, e) && !e.Crash? && NeverStarted(w.inst, id)
    ensures NeverStarted(Next(x, w, e).inst, id)
  {
    hide TaskIds, OverBudget, CleanTotals, Shape, CallFits, HeadFits, Charge, Snapshot, Complete;
    hide InstallLoad, NoteSpend;
    var i := w.inst;
    match e
    case LoadOk | RecordSpend(_) => StaleSpend(x, w, e, id);
    case LoadFails | JobSettles(_) | JobProceeds =>
      hide Next, NeverStarted;
      StaleJob(x, w, e, id);
    case Reused(k, taskId, from) =>
      StaleComplete(i, k, taskId, i.objects[i.calls[k].gen][from].result, None, id);
    case Completed(k, result) =>
      StaleComplete(i, k, TaskIdOf(i.calls[k]), result, Some(Charge(x, result)), id);
    case _ => hide RejectLoad, PopJob, ProceedJob;
  }

  lemma StaleSpend(x: Extractor, w: World, e: Event, id: nat)
    requires Enabled(w, e) && (e.LoadOk? || e.RecordSpend?) && NeverStarted(w.inst, id)
    ensures NeverStarted(Next(x, w, e).inst, id)
  {
    hide OverBudget, CleanTotals;
  }

  lemma StaleJob(x: Extractor, w: World, e: Event, id: nat)
    requires Enabled(w, e) && (e.LoadFails? || e.JobSettles? || e.JobProceeds?) && NeverStarted(w.inst, id)
    ensures NeverStarted(Next(x, w, e).inst, id)
  {
    hide Snapshot, PopJob;
    var i := w.inst;
    match e
    case LoadFails =>
      var s := i.(loading := Idle, calls := FailLoaders(i.calls));
      if s.head.AwaitingLoad? && s.chain != [] { StalePop(s, false, id); }
    case JobSettles(ok) => StalePop(i, ok, id);
    case JobProceeds => StalePop(i, true, id);
  }

  lemma StalePop(i: Instance, ok: bool, id: nat)
    requires i.chain != [] && NeverStarted(i, id)
    ensures NeverStarted(PopJob(i, ok), id)
  {
  }

  /** A call still waiting for the load when clear() resets the run never dispatches: it can only throw. */
  lemma {:induction false} StaleLoaderNeverStarts(x: Extractor, ws: seq<World>, es: seq<Event>, i: nat, j: nat, id: nat)
    requires IsRun(x, ws, es) && i <= j <= |es|
    requires forall k :: i <= k < j ==> !es[k].Crash?
    requires id in ws[i].inst.calls && ws[i].inst.calls[id].phase.Loading?
    requires ws[i].inst.calls[id].gen < ws[i].inst.generation
    ensures NeverStarted(ws[j].inst, id)
    decreases j
  {
    StoreRun(x, ws, es, j);
    if i < j {
      assert Enabled(ws[j - 1], es[j - 1]) && ws[j] == Next(x, ws[j - 1], es[j - 1]);
      hide IsRun, Enabled, Next, Shape, StoreFits, HeadRecordFits, Provenance, NeverStarted;
      StaleLoaderNeverStarts(x, ws, es, i, j - 1, id);
      StoreRun(x, ws, es, j - 1);
      StaleStep(x, ws[j - 1], es[j - 1], id);
    } else {
      assert CallFits(ws[i].inst, ws[i].inst.calls[id]);
      hide IsRun, Shape, StoreFits, HeadRecordFits, Provenance;
    }
  }

  // ----- Write-once resume -----

  /**
   * A step that the saved record holds is replayed, not dispatched or produced again, over every
   * crash schedule; without an overlapping completion it returns the saved result.
   */
  lemma ReplaysSaved(x: Extractor, ws: seq<World>, es: seq<Event>, k: nat, id: nat)
    requires IsRun(x, ws, es) && k < |es| && es[k] == Proceed(id)
    requires ws[k].inst.calls[id].gen == ws[k].inst.generation
    requires ws[k].inst.generation > 0 ==> ws[k].inst.settled
    requires ws[k].store.Some? && ws[k].inst.calls[id].name in ws[k].store.value.steps
    ensures var name := ws[k].inst.calls[id].name;
            var phase := ws[k + 1].inst.calls[id].phase;
            && phase.Returned?
            && (ws[k].inst.book.overlaps == 0 ==> phase.result == ws[k].store.value.steps[name].result)
  {
    StoreRun(x, ws, es, k);
    assert Enabled(ws[k], es[k]) && ws[k + 1] == Next(x, ws[k], es[k]);
    var i := ws[k].inst;
    assert CallFits(i, i.calls[id]);
  }

  lemma LandGrows(x: Extractor, w: World, e: Event)
    requires StoreInv(w) && Enabled(w, e) && !WipeLands(w, e)
    requires w.inst.generation > 0 ==> w.inst.settled
    ensures Covers(Saved(Next(x, w, e).store), Saved(w.store), w.inst.book.overlaps == 0)
  {
    hide Complete, InstallLoad, RejectLoad, Begin, StartLoad, NoteSpend, SetPhase, AfterLoad, Go, StartJob,
         ProceedJob, PopJob, Land, Charge, TaskIds;
  }

  /**
   * The steps of the saved record only grow until a clear(), over any number of crashes, failed
   * loads and failed saves; and while no completion overlaps their results do not change either.
   */
  lemma {:induction false} RecordGrows(x: Extractor, ws: seq<World>, es: seq<Event>, i: nat, j: nat)
    requires IsRun(x, ws, es) && i <= j <= |es|
    requires ws[i].inst.generation > 0 ==> ws[i].inst.settled && !ws[i].inst.head.Wiping?
    requires forall k :: i <= k < j ==> !WipeStarts(ws[k], es[k])
    ensures Covers(Saved(ws[j].store), Saved(ws[i].store), forall k :: i <= k < j ==> ws[k].inst.book.overlaps == 0)
    ensures ws[j].inst.generation > 0 ==> ws[j].inst.settled && !ws[j].inst.head.Wiping?
    decreases j
  {
    hide Enabled, Next, Shape, StoreFits, HeadRecordFits, Provenance;
    if i < j {
      RecordGrows(x, ws, es, i, j - 1);
      StoreRun(x, ws, es, j - 1);
      Turn(x, ws, es, j - 1);
      var w, e := ws[j - 1], es[j - 1];
      NotWiping(w);
      if e.Crash? { FreshGeneration(x, w, e); } else { GenerationKept(x, w, e); }
      LandGrows(x, w, e);
    }
  }

  lemma NotWiping(w: World)
    requires StoreInv(w) && (w.inst.generation > 0 ==> !w.inst.head.Wiping?)
    ensures !w.inst.head.Wiping?
  {
  }

  lemma FreshGeneration(x: Extractor, w: World, e: Event)
    requires Enabled(w, e) && e.Crash?
    ensures Next(x, w, e).inst.generation == 0
  {
  }
}
