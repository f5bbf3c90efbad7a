/**
 * Write-once resume in terms of what the caller does: when no step is called while an earlier call of
 * its name has not returned or thrown, a saved step always returns the saved result, and the results
 * in the saved record do not change.
 */
module OrchestratorResume {
  import opened Budget
  import opened Orchestrator
  import opened OrchestratorLedger
  import opened OrchestratorBarrier
  import opened OrchestratorBudget
  import opened OrchestratorConservation
  import opened OrchestratorOvershoot
  import opened OrchestratorExact

  /** What the caller keeps to. */
  ghost predicate NameFree(w: World, e: Event) {
    e.CallStep? ==> forall k <- w.inst.calls :: !Settled(w.inst.calls[k].phase) ==> w.inst.calls[k].name != e.name
  }

  ghost predicate NamesFree(ws: seq<World>, es: seq<Event>, k: nat)
    requires k <= |es| <= |ws|
  {
    forall j :: 0 <= j < k ==> NameFree(ws[j], es[j])
  }

  /** Calls that have not returned or thrown have different names. */
  ghost predicate OneOfAName(i: Instance) {
    forall a, b ::
      a in i.calls && b in i.calls && a != b && !Settled(i.calls[a].phase) && !Settled(i.calls[b].phase) ==>
        i.calls[a].name != i.calls[b].name
  }

  /** The step of a call in flight is not completed yet. */
  ghost predicate Unwritten(i: Instance) {
    && i.generation in i.objects
    && forall k <- i.calls :: Flying(i.calls[k].phase) && i.calls[k].gen == i.generation ==>
         i.calls[k].name !in i.objects[i.generation]
  }

  /** The checkpoint in memory holds what is saved, or about to be, unchanged. */
  ghost predicate Unchanged(i: Instance, store: Option<Record>)
    requires i.generation in i.objects
  {
    && (i.settled ==> Covers(i.objects[i.generation], Saved(store), true))
    && (i.head.Storing? ==> Covers(i.objects[i.generation], i.head.record.steps, true))
  }

  ghost predicate ResumeInv(w: World) {
    OneOfAName(w.inst) && Unwritten(w.inst) && Unchanged(w.inst, w.store)
  }

  lemma NewCall(i: Instance, id: nat, name: string, kind: Kind)
    requires id !in i.calls
    ensures id in Begin(i, id, name, kind).calls ==> Begin(i, id, name, kind).calls[id].name == name
  {
  }

  lemma NamesStayApart(x: Extractor, w: World, e: Event)
    requires Shape(w.inst) && Enabled(w, e) && !e.Crash? && NameFree(w, e) && OneOfAName(w.inst)
    ensures OneOfAName(Next(x, w, e).inst)
  {
    StepMoves(x, w, e);
    CallsPersist(x, w, e);
    if e.CallStep? { NewCall(w.inst, e.id, e.name, e.kind); }
    hide Begin, Shape, Flying, Settled;
    var i, i' := w.inst, Next(x, w, e).inst;
    forall a, b | a in i'.calls && b in i'.calls && a != b && !Settled(i'.calls[a].phase) && !Settled(i'.calls[b].phase)
      ensures i'.calls[a].name != i'.calls[b].name
    {
      assert a in i.calls ==> SameCall(i.calls[a], i'.calls[a]);
      assert b in i.calls ==> SameCall(i.calls[b], i'.calls[b]);
    }
  }

  /** A turn that moves neither the generation nor its steps, and lets no other call fly. */
  lemma UnwrittenStays(i: Instance, i': Instance, e: Event)
    requires Unwritten(i) && Moves(i, i', e) && CallsExtend(i, i') && !e.Proceed?
    requires i'.generation == i.generation && i'.objects == i.objects
    ensures Unwritten(i')
  {
    forall k | k in i'.calls && Flying(i'.calls[k].phase) && i'.calls[k].gen == i'.generation
      ensures i'.calls[k].name !in i'.objects[i'.generation]
    {
      assert SameCall(i.calls[k], i'.calls[k]);
    }
  }

  lemma UnwrittenGo(i: Instance, id: nat)
    requires Unwritten(i) && InPhase(i, id) && i.calls[id].phase.Ready?
    ensures Unwritten(Go(i, id))
  {
    GoMoves(i, id);
    GoExtends(i, id);
    GoFlies(i, id);
    hide Go;
    var i' := Go(i, id);
    forall k | k in i'.calls && Flying(i'.calls[k].phase) && i'.calls[k].gen == i'.generation
      ensures i'.calls[k].name !in i'.objects[i'.generation]
    {
      assert SameCall(i.calls[k], i'.calls[k]);
    }
  }

  lemma GoFlies(i: Instance, id: nat)
    requires InPhase(i, id)
    ensures var i' := Go(i, id);
            && i'.generation == i.generation && i'.objects == i.objects && id in i'.calls
            && (Flying(i'.calls[id].phase) ==> i.calls[id].name !in i.objects[i.calls[id].gen])
  {
  }

  lemma QuietResume(x: Extractor, w: World, e: Event)
    requires Shape(w.inst) && Enabled(w, e) && Quiet(e) && Unwritten(w.inst) && Unchanged(w.inst, w.store)
    ensures Unwritten(Next(x, w, e).inst) && Unchanged(Next(x, w, e).inst, Next(x, w, e).store)
  {
    QuietStep(x, w, e);
    StepMoves(x, w, e);
    CallsPersist(x, w, e);
    hide Shape, Covers, Unwritten, Moves, CallsExtend, Go;
    SameShown(w.inst, Next(x, w, e).inst, w.store);
    if e.Proceed? {
      UnwrittenGo(w.inst, e.id);
    } else {
      UnwrittenStays(w.inst, Next(x, w, e).inst, e);
    }
  }

  lemma SameShown(i: Instance, i': Instance, store: Option<Record>)
    requires Unwritten(i) && Unchanged(i, store) && SameLedger(i, i')
    ensures i'.generation in i'.objects && Unchanged(i', store)
  {
  }

  /** A completion in flight writes a step that is not there yet, and of no other call in flight. */
  lemma CompleteResume(w: World, id: nat, taskId: string, result: string, charge: Option<Spend>)
    requires Shape(w.inst) && id in w.inst.calls && Flying(w.inst.calls[id].phase)
    requires ResumeInv(w)
    ensures var i' := Complete(w.inst, id, taskId, result, charge);
            Unwritten(i') && Unchanged(i', w.store)
  {
    var i := w.inst;
    var c := i.calls[id];
    assert CallFits(i, c);
    var i' := Complete(i, id, taskId, result, charge);
    CompleteOverlaps(i, id, taskId, result, charge);
    CompleteCalls(i, id, taskId, result, charge);
    hide Complete, Shape;
  }

  lemma CompleteCalls(i: Instance, id: nat, taskId: string, result: string, charge: Option<Spend>)
    requires id in i.calls && i.calls[id].gen in i.objects
    ensures Complete(i, id, taskId, result, charge).calls ==
            i.calls[id := i.calls[id].(phase := Saving(result), wrote := true)]
  {
    hide TaskIds, OverBudget, BookCharge, BookWrite;
  }

  lemma InstallResume(i: Instance, store: Option<Record>)
    requires Shape(i) && i.loading.InFlight?
    ensures Unwritten(InstallLoad(i, store)) && Unchanged(InstallLoad(i, store), store)
  {
    NoneFlyingUnloaded(i);
    InstallShows(i, store);
    assert forall k <- i.calls :: k !in FlyingCalls(i);
    hide InstallLoad;
  }

  lemma InstallShows(i: Instance, store: Option<Record>)
    ensures var i' := InstallLoad(i, store);
            && i'.generation == i.generation && i'.calls == i.calls && i'.head == i.head
            && i'.objects == i.objects[i.generation := Saved(store)]
  {
    hide OverBudget, CleanTotals;
  }

  lemma JobsResume(w: World)
    requires Shape(w.inst) && w.inst.chain != [] && Unwritten(w.inst) && Unchanged(w.inst, w.store)
    ensures w.inst.head.Queued? ==>
              Unwritten(StartJob(w.inst)) && Unchanged(StartJob(w.inst), w.store)
  {
    assert forall k <- w.inst.calls :: CallFits(w.inst, w.inst.calls[k]);
    hide CallFits, Covers, Shape;
  }

  lemma ProceedJobResume(x: Extractor, w: World)
    requires Shape(w.inst) && Enabled(w, JobProceeds) && Unwritten(w.inst) && Unchanged(w.inst, w.store)
    ensures Unwritten(ProceedJob(w.inst)) && Unchanged(ProceedJob(w.inst), w.store)
  {
    StepMoves(x, w, JobProceeds);
    CallsPersist(x, w, JobProceeds);
    ProceedShows(w.inst);
    hide Covers, Moves, CallsExtend, Unwritten, ProceedJob, Shape;
    UnwrittenStays(w.inst, ProceedJob(w.inst), JobProceeds);
    CoversItself(w.inst.objects[w.inst.generation]);
  }

  lemma CoversItself(cp: Checkpoint)
    ensures Covers(cp, cp, true)
  {
  }

  lemma ProceedShows(i: Instance)
    requires i.chain != [] && i.generation in i.objects
    ensures var i' := ProceedJob(i);
            && i'.generation == i.generation && i'.objects == i.objects && i'.settled == i.settled
            && (i'.head.Storing? ==> i'.head.record.steps == i.objects[i.generation] || i'.head == i.head)
  {
    QuietPop(i, true);
    PopQueues(i);
    hide PopJob;
  }

  lemma LandResume(i: Instance, store: Option<Record>)
    requires Unwritten(i) && Unchanged(i, store) && (i.head.Storing? || i.head.Wiping?)
    ensures Unwritten(Land(i)) && Unchanged(Land(i), if i.head.Storing? then Some(i.head.record) else None)
  {
  }

  lemma NoteResume(i: Instance, delta: RawTotals, store: Option<Record>)
    requires Unwritten(i) && Unchanged(i, store)
    ensures Unwritten(NoteSpend(i, delta)) && Unchanged(NoteSpend(i, delta), store)
  {
    NoteFits(i, delta);
    hide NoteSpend, Covers;
  }

  lemma LoudResume(x: Extractor, w: World, e: Event)
    requires Shape(w.inst) && Enabled(w, e) && !Quiet(e) && ResumeInv(w)
    ensures Unwritten(Next(x, w, e).inst) && Unchanged(Next(x, w, e).inst, Next(x, w, e).store)
  {
    hide Complete, InstallLoad, NoteSpend, StartJob, ProceedJob, Land, Charge, TaskIds, Shape, Covers, Unwritten,
         OneOfAName;
    var i := w.inst;
    match e
    case LoadOk => InstallResume(i, w.store);
    case RecordSpend(delta) => NoteResume(i, delta, w.store);
    case Reused(id, taskId, from) =>
      CompleteResume(w, id, taskId, i.objects[i.calls[id].gen][from].result, None);
    case Completed(id, result) =>
      CompleteResume(w, id, TaskIdOf(i.calls[id]), result, Some(Charge(x, result)));
    case JobStarts => JobsResume(w);
    case JobProceeds => ProceedJobResume(x, w);
    case StoreLands => LandResume(i, w.store);
    case Crash(budget) => FreshResume(budget, w.store);
  }

  lemma FreshResume(budget: WorkflowBudget, store: Option<Record>)
    ensures ResumeInv(World(store, Fresh(budget)))
  {
  }

  lemma {:induction false} ResumeRun(x: Extractor, ws: seq<World>, es: seq<Event>, k: nat)
    requires IsRun(x, ws, es) && k < |ws| && NamesFree(ws, es, k)
    ensures ResumeInv(ws[k])
  {
    if k == 0 {
      FreshResume(ws[0].inst.budget, ws[0].store);
    } else {
      var w, e := ws[k - 1], es[k - 1];
      assert Enabled(w, e) && ws[k] == Next(x, w, e) && NameFree(w, e);
      ResumeRun(x, ws, es, k - 1);
      LedgerRun(x, ws, es, k - 1);
      if e.Crash? { FreshResume(e.budget, w.store); }
      hide IsRun, Next, Enabled, Shape, OneOfAName, Unwritten, Unchanged, NameFree, Quiet;
      if e.Crash? {
        CrashResume(x, w, e);
      } else {
        NamesStayApart(x, w, e);
        if Quiet(e) { QuietResume(x, w, e); } else { LoudResume(x, w, e); }
      }
    }
  }

  lemma CrashResume(x: Extractor, w: World, e: Event)
    requires Enabled(w, e) && e.Crash?
    ensures ResumeInv(Next(x, w, e))
  {
    FreshResume(e.budget, w.store);
    hide ResumeInv;
  }

  /**
   * A step that the saved record holds is replayed, not dispatched or produced again, over every crash
   * schedule; and it returns the saved result when no step was called while an earlier call of its name
   * had not returned or thrown.
   */
  lemma WriteOnceResume(x: Extractor, ws: seq<World>, es: seq<Event>, k: nat, id: nat)
    requires IsRun(x, ws, es) && k < |es| && es[k] == Proceed(id)
    requires ws[k].inst.calls[id].gen == ws[k].inst.generation
    requires ws[k].inst.generation > 0 ==> ws[k].inst.settled
    requires ws[k].store.Some? && ws[k].inst.calls[id].name in ws[k].store.value.steps
    ensures var name := ws[k].inst.calls[id].name;
            var phase := ws[k + 1].inst.calls[id].phase;
            && phase.Returned?
            && (NamesFree(ws, es, k) ==> phase.result == ws[k].store.value.steps[name].result)
  {
    ReplaysSaved(x, ws, es, k, id);
    StoreRun(x, ws, es, k);
    assert Enabled(ws[k], es[k]) && ws[k + 1] == Next(x, ws[k], es[k]);
    ReadyLoaded(ws[k].inst, id);
    if NamesFree(ws, es, k) { ResumeRun(x, ws, es, k); }
    hide IsRun, NamesFree, Shape, OneOfAName, Unwritten, Provenance;
  }

  lemma LandKeeps(x: Extractor, w: World, e: Event)
    requires StoreInv(w) && Enabled(w, e) && !WipeLands(w, e) && Unchanged(w.inst, w.store)
    requires w.inst.generation > 0 ==> w.inst.settled
    ensures Covers(Saved(Next(x, w, e).store), Saved(w.store), true)
  {
    hide Complete, InstallLoad, RejectLoad, Begin, StartLoad, NoteSpend, SetPhase, AfterLoad, Go, StartJob,
         ProceedJob, PopJob, Land, Charge, TaskIds;
  }

  lemma CoversOn(a: Checkpoint, b: Checkpoint, c: Checkpoint)
    requires Covers(b, a, true) && Covers(c, b, true)
    ensures Covers(c, a, true)
  {
  }

  lemma {:induction false} ResultsKept(x: Extractor, ws: seq<World>, es: seq<Event>, i: nat, j: nat)
    requires IsRun(x, ws, es) && i <= j <= |es| && NamesFree(ws, es, j)
    requires ws[i].inst.generation > 0 ==> ws[i].inst.settled && !ws[i].inst.head.Wiping?
    requires forall k :: i <= k < j ==> !WipeStarts(ws[k], es[k])
    ensures Covers(Saved(ws[j].store), Saved(ws[i].store), true)
    decreases j
  {
    hide Next, Enabled, Shape, StoreFits, HeadRecordFits, Provenance, OneOfAName, Unwritten, Unchanged;
    if i < j {
      Turn(x, ws, es, j - 1);
      RecordGrows(x, ws, es, i, j - 1);
      StoreRun(x, ws, es, j - 1);
      ResumeRun(x, ws, es, j - 1);
      NotWiping(ws[j - 1]);
      ResultsKept(x, ws, es, i, j - 1);
      hide IsRun, Covers, NamesFree;
      LandKeeps(x, ws[j - 1], es[j - 1]);
      CoversOn(Saved(ws[i].store), Saved(ws[j - 1].store), Saved(ws[j].store));
    }
  }

  /**
   * Until a clear() the saved record keeps every step it held, over any number of crashes, failed loads
   * and failed saves; and keeps its results when no step was called while an earlier call of its name
   * had not returned or thrown.
   */
  lemma RecordOnlyGrows(x: Extractor, ws: seq<World>, es: seq<Event>, i: nat, j: nat)
    requires IsRun(x, ws, es) && i <= j <= |es|
    requires ws[i].inst.generation > 0 ==> ws[i].inst.settled && !ws[i].inst.head.Wiping?
    requires forall k :: i <= k < j ==> !WipeStarts(ws[k], es[k])
    ensures Covers(Saved(ws[j].store), Saved(ws[i].store), NamesFree(ws, es, j))
  {
    hide Next, Enabled, NamesFree;
    RecordGrows(x, ws, es, i, j);
    if NamesFree(ws, es, j) { ResultsKept(x, ws, es, i, j); }
  }

  // ----- A run of two calls of one name -----

  predicate One(cp: Checkpoint, taskId: string, result: string) {
    cp == map["a" := StepCheckpoint(taskId, result)]
  }

  /** The first of two calls of step "a" is completed, its save is queued, the second waits. */
  ghost predicate FirstWritten(i: Instance, t: string, u: string, r: string) {
    && i.generation == 0 && i.objects.Keys == {0} && One(i.objects[0], t, r) && i.stop.None? && !i.aborted
    && i.budget == UNLIMITED && i.loading.Loaded? && !i.cleared
    && i.chain == [Save(Some(0))]
    && i.calls.Keys == {0, 1} && i.calls[1] == Call("a", RunStep, 0, Waiting(u), false)
  }

  /** And saved. */
  ghost predicate FirstSaved(w: World, t: string, u: string, r: string) {
    && FirstWritten(w.inst, t, u, r) && w.inst.head.Storing? && w.inst.head.landed
    && w.store.Some? && One(w.store.value.steps, t, r)
  }

  /** The second is completed too: the step in memory is its own, the saved one that of the first. */
  ghost predicate BothWritten(w: World, p: Option<Phase>, t: string, u: string, r: string, r': string) {
    var i := w.inst;
    && i.generation == 0 && i.objects.Keys == {0} && One(i.objects[0], u, r') && i.loading.Loaded? && !i.cleared
    && i.chain == [Save(Some(0)), Save(Some(1))] && i.head.Storing? && i.head.landed
    && i.calls.Keys == (if p.Some? then {0, 1, 2} else {0, 1})
    && (p.Some? ==> i.calls[2].name == "a" && i.calls[2].gen == 0 && i.calls[2].phase == p.value)
    && w.store.Some? && One(w.store.value.steps, t, r)
  }

  lemma WriteFirst(x: Extractor, t: string, u: string, r: string) returns (ws: seq<World>, es: seq<Event>)
    ensures IsRun(x, ws, es) && |es| == 10 && FirstWritten(ws[10].inst, t, u, r) && ws[10].inst.head.Queued?
  {
    ws, es := TwinsWaiting(x, "a", "a", t, u);
    hide IsRun, Charge, TaskIds, BookCharge, BookWrite;
    ws, es := Then(x, ws, es, Completed(0, r));
  }

  lemma SaveFirst(x: Extractor, t: string, u: string, r: string) returns (ws: seq<World>, es: seq<Event>)
    ensures IsRun(x, ws, es) && |es| == 13 && FirstSaved(ws[13], t, u, r)
  {
    ws, es := WriteFirst(x, t, u, r);
    hide IsRun;
    ws, es := Then(x, ws, es, JobStarts);
    ws, es := Then(x, ws, es, JobProceeds);
    ws, es := Then(x, ws, es, StoreLands);
  }

  lemma WriteSecond(x: Extractor, t: string, u: string, r: string, r': string) returns (ws: seq<World>, es: seq<Event>)
    ensures IsRun(x, ws, es) && |es| == 14 && BothWritten(ws[14], None, t, u, r, r')
  {
    ws, es := SaveFirst(x, t, u, r);
    hide IsRun, Charge, TaskIds, BookCharge, BookWrite;
    ws, es := Then(x, ws, es, Completed(1, r'));
  }

  /**
   * The discipline is needed: when two calls of one step are in flight, the second overwrites the saved
   * result of the first.  A third call then returns the one, while the saved record holds the other.
   */
  lemma TwoCallsOverwrite(x: Extractor, t: string, u: string, r: string, r': string)
    returns (ws: seq<World>, es: seq<Event>)
    requires r != r'
    ensures IsRun(x, ws, es) && |es| == 17 && es[16] == Proceed(2) && !NamesFree(ws, es, 16)
    ensures BothWritten(ws[16], Some(Ready), t, u, r, r') && BothWritten(ws[17], Some(Returned(r')), t, u, r, r')
  {
    ws, es := WriteSecond(x, t, u, r, r');
    hide IsRun;
    ws, es := Then(x, ws, es, CallStep(2, "a", RunStep));
    ws, es := Then(x, ws, es, Resume(2));
    ws, es := Then(x, ws, es, Proceed(2));
    hide Next, Enabled, NamesFree;
    if NamesFree(ws, es, 16) { WriteOnceResume(x, ws, es, 16, 2); }
  }

  lemma NextSave(x: Extractor, t: string, u: string, r: string, r': string) returns (ws: seq<World>, es: seq<Event>)
    ensures IsRun(x, ws, es) && |es| == 16 && forall k :: 14 <= k < 16 ==> !WipeStarts(ws[k], es[k])
    ensures Saved(ws[14].store) == map["a" := StepCheckpoint(t, r)]
    ensures var i := ws[16].inst;
            && i.generation == 0 && i.objects.Keys == {0} && One(i.objects[0], u, r') && i.loading.Loaded? && !i.cleared
            && i.chain == [Save(Some(1))] && i.head.AwaitingLoad?
  {
    ws, es := WriteSecond(x, t, u, r, r');
    hide IsRun;
    ws, es := Then(x, ws, es, JobSettles(true));
    ws, es := Then(x, ws, es, JobStarts);
  }

  /** And the save of the second changes the saved result. */
  lemma SavedResultChanges(x: Extractor, t: string, u: string, r: string, r': string)
    returns (ws: seq<World>, es: seq<Event>)
    requires r != r'
    ensures IsRun(x, ws, es) && |es| == 18 && forall k :: 14 <= k < 18 ==> !WipeStarts(ws[k], es[k])
    ensures Saved(ws[14].store) == map["a" := StepCheckpoint(t, r)]
    ensures Saved(ws[18].store) == map["a" := StepCheckpoint(u, r')]
  {
    ws, es := NextSave(x, t, u, r, r');
    hide IsRun;
    ws, es := Then(x, ws, es, JobProceeds);
    ws, es := Then(x, ws, es, StoreLands);
  }
}
