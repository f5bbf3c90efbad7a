/**
 * A discipline of the caller under which the accounting is always exact: steps of one name are not
 * called while one is in flight, task ids are not waited for twice at a time, and clear() comes when
 * no step is in flight.
 */
module OrchestratorDiscipline {
  import opened Budget
  import opened Orchestrator
  import opened OrchestratorLedger
  import opened OrchestratorBudget
  import opened OrchestratorExact

  predicate Started(p: Phase) {
    p.Ready? || Flying(p)
  }

  predicate Open(p: Phase) {
    p.Loading? || Started(p)
  }

  /** The synthetic ids of memoized steps are taken. */
  predicate IsMemo(taskId: string) {
    "memoize:" <= taskId
  }

  lemma MemoIdsDiffer(a: string, b: string)
    ensures IsMemo(MemoId(a)) && (MemoId(a) == MemoId(b) ==> a == b)
  {
    assert MemoId(a)[8..] == a && MemoId(b)[8..] == b;
  }

  /** What the caller keeps to. */
  predicate Keeps(w: World, e: Event) {
    var i := w.inst;
    match e
    case CallStep(_, name, _) => forall k <- i.calls :: Open(i.calls[k].phase) ==> i.calls[k].name != name
    case Dispatched(_, taskId) => !IsMemo(taskId) && forall k <- i.calls :: i.calls[k].phase != Waiting(taskId)
    case Reused(_, taskId, _) => !IsMemo(taskId)
    case JobStarts => i.chain != [] && i.chain[0].Wipe? ==> forall k <- i.calls :: !Started(i.calls[k].phase)
    case _ => true
  }

  /** A memo id is the id of its own step. */
  predicate MemoNamed(cp: Checkpoint) {
    forall n <- cp :: IsMemo(cp[n].taskId) ==> cp[n].taskId == MemoId(n)
  }

  /** What a call in flight can count on. */
  predicate Undisturbed(i: Instance, c: Call) {
    && (Started(c.phase) ==> c.gen == i.generation)
    && (Flying(c.phase) && i.generation in i.objects ==> c.name !in i.objects[i.generation])
    && (c.phase.Waiting? && i.generation in i.objects ==>
          !IsMemo(c.phase.taskId) && c.phase.taskId !in TaskIds(i.objects[i.generation]))
  }

  ghost predicate Apart(i: Instance) {
    forall a, b :: a in i.calls && b in i.calls && a != b && Open(i.calls[a].phase) && Open(i.calls[b].phase) ==>
      && i.calls[a].name != i.calls[b].name
      && (i.calls[a].phase.Waiting? ==> i.calls[a].phase != i.calls[b].phase)
  }

  ghost predicate InstCalm(i: Instance) {
    && i.generation in i.objects && i.book.overlaps == 0 && MemoNamed(i.objects[i.generation])
    && Apart(i) && forall k <- i.calls :: Undisturbed(i, i.calls[k])
  }

  predicate RecordCalm(r: Record) {
    r.book.overlaps == 0 && MemoNamed(r.steps)
  }

  ghost predicate Calm(w: World) {
    && InstCalm(w.inst)
    && (w.store.Some? ==> RecordCalm(w.store.value))
    && (w.inst.head.Storing? ==> RecordCalm(w.inst.head.record))
  }

  // ----- One turn -----

  /** Moving one call to a phase that is no more in flight than before. */
  lemma SetCalm(i: Instance, id: nat, p: Phase)
    requires InstCalm(i) && id in i.calls
    requires Open(p) ==> Open(i.calls[id].phase)
    requires Undisturbed(i, i.calls[id].(phase := p))
    requires p.Waiting? ==> forall k <- i.calls :: i.calls[k].phase != p
    ensures InstCalm(SetPhase(i, id, p))
  {
    hide TaskIds, IsMemo;
  }

  lemma PopCalm(i: Instance, ok: bool)
    requires InstCalm(i) && i.chain != []
    ensures InstCalm(PopJob(i, ok)) && PopJob(i, ok).head == Queued
  {
    var job, rest := i.chain[0], i.(chain := i.chain[1..], head := Queued);
    SameCalm(i, rest);
    if job.Save? && job.owner.Some? && job.owner.value in i.calls && i.calls[job.owner.value].phase.Saving? {
      var done := if ok then Returned(i.calls[job.owner.value].phase.result) else Threw(SaveFailed);
      assert Undisturbed(rest, rest.calls[job.owner.value].(phase := done));
      SetCalm(rest, job.owner.value, done);
    }
    hide InstCalm, TaskIds, IsMemo;
  }

  lemma RejectCalm(i: Instance)
    requires InstCalm(i)
    ensures InstCalm(RejectLoad(i)) && (RejectLoad(i).head == i.head || RejectLoad(i).head == Queued)
  {
    var s := i.(loading := Idle, calls := FailLoaders(i.calls));
    assert InstCalm(s) by { hide TaskIds, IsMemo, PopJob; }
    if s.head.AwaitingLoad? && s.chain != [] { PopCalm(s, false); }
    hide PopJob, InstCalm;
  }

  lemma GoCalm(i: Instance, id: nat)
    requires InstCalm(i) && InPhase(i, id) && i.calls[id].phase.Ready?
    ensures InstCalm(Go(i, id)) && Go(i, id).head == i.head
  {
    var c := i.calls[id];
    var j := i.(book := i.book.(recent := []));
    assert InstCalm(j) by { hide TaskIds, IsMemo; }
    assert Undisturbed(i, c);
    if c.name in i.objects[c.gen] {
      SetCalm(i, id, Returned(i.objects[c.gen][c.name].result));
    } else {
      SetCalm(i, id, Threw(EmergencyStopped));
      SetCalm(i, id, Threw(OverBudgetStop));
      SetCalm(j, id, if c.kind.RunStep? then Dispatching else Producing);
    }
    hide InstCalm, TaskIds;
  }

  lemma InstallCalm(i: Instance, store: Option<Record>)
    requires InstCalm(i) && Shape(i) && i.loading.InFlight? && (store.Some? ==> RecordCalm(store.value))
    ensures InstCalm(InstallLoad(i, store)) && InstallLoad(i, store).head == i.head
  {
    hide TaskIds, IsMemo, OverBudget, CleanTotals, HeadFits;
  }

  lemma NoteCalm(i: Instance, delta: RawTotals)
    requires InstCalm(i)
    ensures InstCalm(NoteSpend(i, delta)) && NoteSpend(i, delta).head == i.head
  {
    hide TaskIds, IsMemo, OverBudget, CleanTotals;
  }

  /** The task id of a flying call that completes is new to the steps. */
  lemma NewId(i: Instance, id: nat)
    requires InstCalm(i) && id in i.calls && (i.calls[id].phase.Waiting? || i.calls[id].phase.Producing?)
    ensures var c := i.calls[id];
            && c.gen == i.generation && c.name !in i.objects[c.gen]
            && TaskIdOf(c) !in TaskIds(i.objects[c.gen])
            && (IsMemo(TaskIdOf(c)) ==> TaskIdOf(c) == MemoId(c.name))
            && (c.phase.Producing? ==> IsMemo(TaskIdOf(c)))
  {
    var c := i.calls[id];
    assert Undisturbed(i, c);
    MemoIdsDiffer(c.name, c.name);
    if c.phase.Producing? && MemoId(c.name) in TaskIds(i.objects[c.gen]) {
      var n :| n in i.objects[c.gen] && i.objects[c.gen][n].taskId == MemoId(c.name);
      MemoIdsDiffer(c.name, n);
      assert false;
    }
  }

  /** A completed step of its own name and task id disturbs no other call in flight. */
  lemma WriteCalm(i: Instance, id: nat, taskId: string, result: string, charge: Option<Spend>)
    requires InstCalm(i) && id in i.calls && Flying(i.calls[id].phase) && i.calls[id].gen in i.objects
    requires IsMemo(taskId) ==> taskId == MemoId(i.calls[id].name)
    requires charge.Some? ==> taskId !in TaskIds(i.objects[i.calls[id].gen])
    requires forall k <- i.calls :: k != id ==> i.calls[k].phase != Waiting(taskId)
    ensures InstCalm(Complete(i, id, taskId, result, charge)) && Complete(i, id, taskId, result, charge).head == i.head
  {
    var c := i.calls[id];
    assert Undisturbed(i, c);
    var cp := i.objects[c.gen];
    var i' := Complete(i, id, taskId, result, charge);
    IdsAfterWrite(cp, c.name, StepCheckpoint(taskId, result));
    CalmParts(i, id, taskId, result, charge);
    hide Complete, TaskIds, IsMemo;
    forall k | k in i'.calls ensures Undisturbed(i', i'.calls[k]) {
      if k != id { assert Undisturbed(i, i.calls[k]); }
    }
  }

  lemma CalmParts(i: Instance, id: nat, taskId: string, result: string, charge: Option<Spend>)
    requires id in i.calls && i.calls[id].gen in i.objects && i.calls[id].gen == i.generation
    requires i.calls[id].name !in i.objects[i.generation]
    requires charge.Some? ==> taskId !in TaskIds(i.objects[i.generation])
    ensures var c := i.calls[id];
            var i' := Complete(i, id, taskId, result, charge);
            && i'.book.overlaps == i.book.overlaps && i'.generation == i.generation && i'.head == i.head
            && i'.objects == i.objects[c.gen := i.objects[c.gen][c.name := StepCheckpoint(taskId, result)]]
            && i'.calls == i.calls[id := c.(phase := Saving(result), wrote := true)]
  {
    hide TaskIds, OverBudget;
  }

  lemma BeginCalm(i: Instance, id: nat, name: string, kind: Kind)
    requires InstCalm(i) && id !in i.calls
    requires forall k <- i.calls :: Open(i.calls[k].phase) ==> i.calls[k].name != name
    ensures InstCalm(Begin(i, id, name, kind)) && Begin(i, id, name, kind).head == i.head
  {
    hide TaskIds, IsMemo, MemoNamed, Apart, Undisturbed;
    var i' := Begin(i, id, name, kind);
    if name != SPEND_ENTRY {
      assert Apart(i') by { BeginApart(i, i', id, Call(name, kind, i.generation, Loading, false)); }
      forall k | k in i'.calls ensures Undisturbed(i', i'.calls[k]) {
        if k in i.calls { assert Undisturbed(i, i.calls[k]); }
        UndisturbedStays(i, i', i'.calls[k]);
      }
    }
  }

  lemma BeginApart(i: Instance, i': Instance, id: nat, c: Call)
    requires Apart(i) && id !in i.calls && i'.calls == i.calls[id := c] && c.phase.Loading?
    requires forall k <- i.calls :: Open(i.calls[k].phase) ==> i.calls[k].name != c.name
    ensures Apart(i')
  {
  }

  lemma UndisturbedStays(i: Instance, i': Instance, c: Call)
    requires i'.generation == i.generation && i'.objects == i.objects
    requires Undisturbed(i, c) || c.phase.Loading?
    ensures Undisturbed(i', c)
  {
    hide TaskIds, IsMemo;
  }

  lemma Shown(cp: Checkpoint, n: string)
    requires n in cp
    ensures cp[n].taskId in TaskIds(cp)
  {
  }

  lemma StartJobCalm(i: Instance)
    requires InstCalm(i) && i.chain != []
    requires i.chain[0].Wipe? ==> forall k <- i.calls :: !Started(i.calls[k].phase)
    ensures InstCalm(StartJob(i)) && !StartJob(i).head.Storing?
  {
    hide TaskIds, IsMemo;
  }

  lemma ProceedJobCalm(i: Instance)
    requires InstCalm(i) && i.chain != []
    ensures InstCalm(ProceedJob(i)) && (ProceedJob(i).head.Storing? ==> RecordCalm(ProceedJob(i).head.record))
  {
    if i.cleared && i.objects[i.generation] == map[] {
      PopCalm(i, true);
    } else {
      hide TaskIds, IsMemo;
    }
    hide PopJob;
  }

  lemma CallsCalm(x: Extractor, w: World, e: Event)
    requires Calm(w) && Shape(w.inst) && Enabled(w, e) && Keeps(w, e)
    requires e.Resume? || e.Proceed? || e.Dispatched? || e.WorkFails? || e.Reused? || e.Completed?
    ensures Calm(Next(x, w, e))
  {
    hide InstCalm, RecordCalm, Complete, SetPhase, Go, Charge, TaskIds, Shape, IsMemo;
    var i := w.inst;
    match e
    case Resume(id) =>
      SetUndisturbed(i, id);
      SetCalm(i, id, if i.calls[id].gen == i.generation then Ready else Threw(NotStarted));
      SetHead(i, id, if i.calls[id].gen == i.generation then Ready else Threw(NotStarted));
    case Proceed(id) => GoCalm(i, id);
    case Dispatched(id, taskId) =>
      SetUndisturbed(i, id);
      SetCalm(i, id, Waiting(taskId));
      SetHead(i, id, Waiting(taskId));
    case WorkFails(id) =>
      SetUndisturbed(i, id);
      SetCalm(i, id, Threw(WorkFailed));
      SetHead(i, id, Threw(WorkFailed));
    case Reused(id, taskId, from) =>
      SetUndisturbed(i, id);
      Shown(i.objects[i.calls[id].gen], from);
      NoneWaits(i, id, taskId);
      WriteCalm(i, id, taskId, i.objects[i.calls[id].gen][from].result, None);
    case Completed(id, result) =>
      NewId(i, id);
      NoneWaits(i, id, TaskIdOf(i.calls[id]));
      WriteCalm(i, id, TaskIdOf(i.calls[id]), result, Some(Charge(x, result)));
  }

  lemma SetHead(i: Instance, id: nat, p: Phase)
    requires id in i.calls
    ensures SetPhase(i, id, p).head == i.head
  {
  }

  lemma SetUndisturbed(i: Instance, id: nat)
    requires InstCalm(i) && id in i.calls
    ensures i.generation in i.objects && Undisturbed(i, i.calls[id])
  {
  }

  /** Nobody else waits for the id of a completing call, nor for one that the steps already show. */
  lemma NoneWaits(i: Instance, id: nat, taskId: string)
    requires InstCalm(i) && id in i.calls
    requires i.calls[id].phase == Waiting(taskId) || IsMemo(taskId) || taskId in TaskIds(i.objects[i.generation])
    ensures forall k <- i.calls :: k != id ==> i.calls[k].phase != Waiting(taskId)
  {
    forall k | k in i.calls && k != id ensures i.calls[k].phase != Waiting(taskId) {
      assert Undisturbed(i, i.calls[k]);
    }
  }

  lemma OthersCalm(x: Extractor, w: World, e: Event)
    requires Calm(w) && Shape(w.inst) && Enabled(w, e) && Keeps(w, e)
    requires !(e.Resume? || e.Proceed? || e.Dispatched? || e.WorkFails? || e.Reused? || e.Completed?)
    ensures Calm(Next(x, w, e))
  {
    hide InstCalm, RecordCalm, Begin, StartLoad, NoteSpend, InstallLoad, RejectLoad, StartJob, ProceedJob, PopJob,
         TaskIds, Shape, IsMemo, FailLoaders;
    var i := w.inst;
    match e
    case CallStep(id, name, kind) => BeginCalm(i, id, name, kind);
    case CallIsResuming => ResumingCalm(i);
    case RecordSpend(delta) => NoteCalm(i, delta);
    case CallClear => SameCalm(i, i.(chain := i.chain + [Wipe]));
    case Abort => SameCalm(i, i.(aborted := true));
    case LoadOk => InstallCalm(i, w.store);
    case LoadFails => RejectCalm(i);
    case JobStarts => StartJobCalm(i);
    case JobProceeds => ProceedJobCalm(i);
    case StoreLands => SameCalm(i, Land(i));
    case JobSettles(ok) => PopCalm(i, ok);
    case Crash(budget) => FreshCalm(budget);
  }

  lemma ResumingCalm(i: Instance)
    requires InstCalm(i)
    ensures InstCalm(StartLoad(i)) && StartLoad(i).head == i.head
  {
    SameCalm(i, StartLoad(i));
  }

  lemma SameCalm(i: Instance, i': Instance)
    requires InstCalm(i)
    requires i'.generation == i.generation && i'.objects == i.objects && i'.book == i.book && i'.calls == i.calls
    ensures InstCalm(i')
  {
    hide TaskIds, IsMemo, MemoNamed;
  }

  lemma FreshCalm(budget: WorkflowBudget)
    ensures InstCalm(Fresh(budget)) && Fresh(budget).head == Queued
  {
  }

  lemma {:induction false} CalmRun(x: Extractor, ws: seq<World>, es: seq<Event>, k: nat)
    requires IsRun(x, ws, es) && k < |ws| && forall j :: 0 <= j < k ==> Keeps(ws[j], es[j])
    ensures Calm(ws[k])
  {
    if k == 0 {
      FreshCalm(ws[0].inst.budget);
    } else {
      assert Enabled(ws[k - 1], es[k - 1]) && ws[k] == Next(x, ws[k - 1], es[k - 1]) && Keeps(ws[k - 1], es[k - 1]);
      CalmRun(x, ws, es, k - 1);
      LedgerRun(x, ws, es, k - 1);
      hide IsRun, Next, Enabled, Calm, Keeps, Shape;
      var e := es[k - 1];
      if e.Resume? || e.Proceed? || e.Dispatched? || e.WorkFails? || e.Reused? || e.Completed? {
        CallsCalm(x, ws[k - 1], e);
      } else {
        OthersCalm(x, ws[k - 1], e);
      }
    }
  }

  /**
   * Exactly once, in terms of what the caller does: when no step is called while one of its name is
   * in flight, no task id is waited for twice at a time (nor looks like a memo id), and clear() comes
   * when no step is in flight, then over any crashes, failed loads and failed saves the totals in
   * memory and in the saved record are at all times the spend of the distinct task ids of the steps
   * plus the recorded deltas.
   */
  lemma AlwaysExact(x: Extractor, ws: seq<World>, es: seq<Event>, k: nat)
    requires IsRun(x, ws, es) && k < |ws| && forall j :: 0 <= j < k ==> Keeps(ws[j], es[j])
    ensures ws[k].inst.generation in ws[k].inst.objects && Explained(x, ws[k].inst)
    ensures ws[k].store.Some? ==>
              var r := ws[k].store.value;
              CleanTotals(r.spend) == Plus(SpendOfSteps(x, r.steps), r.book.deltas)
  {
    CalmRun(x, ws, es, k);
    SpendCountedOnce(x, ws, es, k);
    hide IsRun, SpendOfSteps, Balanced, TaskIds, Apart, Undisturbed, MemoNamed;
  }
}
