/**
 * Exactly-once accounting: in every reachable world the totals in memory, in the store
 * and in the save under way are the spend of the distinct task ids of the steps beside
 * them, plus the recorded deltas, plus the stray spend of overlapping completions.
 */
module OrchestratorLedger {
  import opened Budget
  import opened Orchestrator
  import opened OrchestratorFloor

  // ----- The shape every reachable instance has -----

  predicate CallFits(i: Instance, c: Call) {
    && c.gen in i.objects && c.gen <= i.generation
    && c.name != SPEND_ENTRY
    && (c.wrote ==> !c.phase.Loading?)
    && (!i.loading.Loaded? ==> (c.phase.Loading? || c.phase.Threw?) && !c.wrote)
  }

  predicate HeadFits(i: Instance) {
    match i.head
    case Queued => true
    case AwaitingLoad => i.chain != [] && i.chain[0].Save?
    case Storing(_, landed) => i.chain != [] && i.chain[0].Save? && i.loading.Loaded? && (landed ==> i.settled)
    case Wiping(landed) => i.chain != [] && i.chain[0].Wipe? && i.generation > 0 && (landed <==> i.settled)
  }

  ghost predicate Shape(i: Instance) {
    && i.generation in i.objects
    && (forall g <- i.objects :: g <= i.generation)
    && (i.cleared <==> i.generation > 0)
    && (!i.loading.Loaded? ==> i.generation == 0 && i.objects[0] == map[] && !i.settled)
    && (forall id <- i.calls :: CallFits(i, i.calls[id]))
    && HeadFits(i)
  }

  lemma ShapePop(i: Instance, ok: bool)
    requires Shape(i) && i.chain != []
    ensures Shape(PopJob(i, ok))
  {
  }

  lemma ShapeComplete(i: Instance, id: nat, taskId: string, result: string, charge: Option<Spend>)
    requires Shape(i) && id in i.calls && i.loading.Loaded?
    ensures Shape(Complete(i, id, taskId, result, charge))
  {
  }

  lemma ShapeInstall(i: Instance, store: Option<Record>)
    requires Shape(i) && i.loading.InFlight?
    ensures Shape(InstallLoad(i, store))
  {
  }

  lemma ShapeReject(i: Instance)
    requires Shape(i) && i.loading.InFlight?
    ensures Shape(RejectLoad(i))
  {
    var s := i.(loading := Idle, calls := FailLoaders(i.calls));
    assert Shape(s);
    if s.head.AwaitingLoad? { ShapePop(s, false); }
  }

  lemma ShapeStart(i: Instance)
    requires Shape(i)
    ensures Shape(StartLoad(i))
  {
  }

  lemma ShapeBegin(i: Instance, id: nat, name: string, kind: Kind)
    requires Shape(i)
    ensures Shape(Begin(i, id, name, kind))
  {
    ShapeStart(i);
  }

  lemma ShapeNote(i: Instance, delta: RawTotals)
    requires Shape(i)
    ensures Shape(NoteSpend(i, delta))
  {
  }

  lemma ShapePhase(i: Instance, id: nat, p: Phase)
    requires Shape(i) && id in i.calls && (i.loading.Loaded? || p.Threw?) && !p.Loading?
    ensures Shape(SetPhase(i, id, p))
  {
  }

  lemma ShapeAfterLoad(i: Instance, id: nat)
    requires Shape(i) && id in i.calls && (i.calls[id].gen != i.generation || i.loading.Loaded?)
    ensures Shape(AfterLoad(i, id))
  {
    ShapePhase(i, id, if i.calls[id].gen == i.generation then Ready else Threw(NotStarted));
  }

  lemma ShapeGo(i: Instance, id: nat)
    requires Shape(i) && id in i.calls && i.loading.Loaded?
    ensures Shape(Go(i, id))
  {
    hide SetPhase;
    var c := i.calls[id];
    var cp := i.objects[c.gen];
    var j := i.(book := i.book.(recent := []));
    assert Shape(j);
    if c.name in cp { ShapePhase(i, id, Returned(cp[c.name].result)); }
    ShapePhase(i, id, Threw(if i.aborted then EmergencyStopped else OverBudgetStop));
    ShapePhase(j, id, if c.kind.RunStep? then Dispatching else Producing);
  }

  lemma ShapeReset(i: Instance)
    requires Shape(i) && i.chain != [] && i.chain[0].Wipe?
    ensures Shape(Reset(i).(head := Wiping(false)))
  {
  }

  lemma ShapeStartJob(i: Instance)
    requires Shape(i) && i.chain != [] && i.head.Queued?
    ensures Shape(StartJob(i))
  {
    if i.chain[0].Wipe? { ShapeReset(i); } else { ShapeStart(i); }
  }

  lemma ShapeProceed(i: Instance)
    requires Shape(i) && i.chain != [] && i.head.AwaitingLoad? && i.loading.Loaded?
    ensures Shape(ProceedJob(i))
  {
    if i.cleared && i.objects[i.generation] == map[] { ShapePop(i, true); }
  }

  lemma ShapeLand(i: Instance)
    requires Shape(i) && (i.head.Storing? || i.head.Wiping?)
    ensures Shape(Land(i))
  {
  }

  lemma ShapeStep(x: Extractor, w: World, e: Event)
    requires Shape(w.inst) && Enabled(w, e)
    ensures Shape(Next(x, w, e).inst)
  {
    hide Complete, InstallLoad, RejectLoad, Begin, StartLoad, NoteSpend, SetPhase, AfterLoad, Go, StartJob,
         ProceedJob, Land, PopJob;
    var i := w.inst;
    match e
    case CallStep(id, name, kind) => ShapeBegin(i, id, name, kind);
    case CallIsResuming => ShapeStart(i);
    case RecordSpend(delta) => ShapeNote(i, delta);
    case LoadOk => ShapeInstall(i, w.store);
    case LoadFails => ShapeReject(i);
    case Resume(id) => ShapeAfterLoad(i, id);
    case Proceed(id) => ShapeGo(i, id);
    case Dispatched(id, taskId) => ShapePhase(i, id, Waiting(taskId));
    case WorkFails(id) => ShapePhase(i, id, Threw(WorkFailed));
    case Reused(id, taskId, from) =>
      ShapeComplete(i, id, taskId, i.objects[i.calls[id].gen][from].result, None);
    case Completed(id, result) =>
      ShapeComplete(i, id, TaskIdOf(i.calls[id]), result, Some(Charge(x, result)));
    case JobStarts => ShapeStartJob(i);
    case JobProceeds => ShapeProceed(i);
    case StoreLands => ShapeLand(i);
    case JobSettles(ok) => ShapePop(i, ok);
    case CallClear =>
    case Abort =>
    case Crash(_) =>
  }

  // ----- The ledger -----

  ghost predicate Balanced(ids: set<string>, totals: Spend, b: Book) {
    && ids <= b.paid.Keys
    && totals == Plus(Plus(SumOver(ids, b.paid), b.deltas), b.stray)
  }

  /** The same without any stray spend. */
  ghost predicate Exact(ids: set<string>, totals: Spend, b: Book) {
    && ids <= b.paid.Keys
    && totals == Plus(SumOver(ids, b.paid), b.deltas)
  }

  /** What the task ids were charged is what their results say. */
  ghost predicate Faithful(x: Extractor, cp: Checkpoint, b: Book) {
    forall n <- cp :: cp[n].taskId in b.paid && b.paid[cp[n].taskId] == Charge(x, cp[n].result)
  }

  ghost predicate Accounts(x: Extractor, cp: Checkpoint, totals: Spend, b: Book) {
    && Balanced(TaskIds(cp), totals, b)
    && NonNegative(totals)
    && Floor(x, cp, totals, b.deltas)
    && (b.overlaps == 0 ==> Exact(TaskIds(cp), totals, b) && Faithful(x, cp, b))
  }

  ghost predicate RecordAccounts(x: Extractor, r: Record) {
    Accounts(x, r.steps, CleanTotals(r.spend), r.book)
  }

  ghost predicate InstanceAccounts(x: Extractor, i: Instance)
    requires i.generation in i.objects
  {
    Accounts(x, i.objects[i.generation], i.totals, i.book)
  }

  ghost predicate LedgerInv(x: Extractor, w: World) {
    var i := w.inst;
    && Shape(i)
    && InstanceAccounts(x, i)
    && (w.store.Some? ==> RecordAccounts(x, w.store.value))
    && (i.head.Storing? ==> RecordAccounts(x, i.head.record))
  }

  lemma ChargeBalances(b: Book, cp: Checkpoint, totals: Spend, taskId: string, amount: Spend)
    requires Balanced(TaskIds(cp), totals, b)
    ensures var b' := BookCharge(b, true, cp, taskId, amount);
            && Balanced(TaskIds(cp) + {taskId}, Plus(totals, amount), b')
            && (Exact(TaskIds(cp), totals, b) && b'.overlaps == b.overlaps ==>
                  Exact(TaskIds(cp) + {taskId}, Plus(totals, amount), b'))
  {
    if taskId in TaskIds(cp) {
      assert TaskIds(cp) + {taskId} == TaskIds(cp);
    } else {
      SumOverAdd(TaskIds(cp), b.paid, taskId, amount);
    }
  }

  lemma IdsAfterWrite(cp: Checkpoint, name: string, entry: StepCheckpoint)
    ensures var ids := TaskIds(cp[name := entry]);
            && ids <= TaskIds(cp) + {entry.taskId}
            && entry.taskId in ids
            && (name !in cp ==> ids == TaskIds(cp) + {entry.taskId})
            && (name in cp ==> TaskIds(cp) + {entry.taskId} <= ids + {cp[name].taskId})
  {
    var cp' := cp[name := entry];
    assert cp'[name] == entry;
    forall t | t in TaskIds(cp) && (name !in cp || t != cp[name].taskId)
      ensures t in TaskIds(cp')
    {
      var n :| n in cp && cp[n].taskId == t;
      assert cp'[n] == cp[n];
    }
  }

  lemma WriteBalances(b: Book, cp: Checkpoint, totals: Spend, name: string, taskId: string, result: string)
    requires Balanced(TaskIds(cp) + {taskId}, totals, b)
    ensures var ids := TaskIds(cp[name := StepCheckpoint(taskId, result)]);
            var b' := BookWrite(b, cp, name, taskId);
            && Balanced(ids, totals, b')
            && (Exact(TaskIds(cp) + {taskId}, totals, b) && b'.overlaps == b.overlaps ==> Exact(ids, totals, b'))
  {
    var ids := TaskIds(cp[name := StepCheckpoint(taskId, result)]);
    IdsAfterWrite(cp, name, StepCheckpoint(taskId, result));
    IdsAfterWrite(cp, name, StepCheckpoint(taskId, ""));
    var plain := cp[name := StepCheckpoint(taskId, "")];
    assert TaskIds(plain) == ids by {
      var full := cp[name := StepCheckpoint(taskId, result)];
      assert forall n <- plain :: n in full && full[n].taskId == plain[n].taskId;
      assert forall n <- full :: n in plain && full[n].taskId == plain[n].taskId;
    }
    if name in cp {
      var lost := cp[name].taskId;
      if lost in ids {
        assert ids == TaskIds(cp) + {taskId};
      } else {
        assert TaskIds(cp) + {taskId} - {lost} == ids;
        SumOverRemove(TaskIds(cp) + {taskId}, b.paid, lost);
      }
    }
  }

  lemma FaithfulWrite(x: Extractor, b: Book, cp: Checkpoint, name: string, taskId: string, result: string)
    requires Faithful(x, cp, b)
    requires name !in cp && taskId in b.paid && b.paid[taskId] == Charge(x, result)
    ensures Faithful(x, cp[name := StepCheckpoint(taskId, result)], b)
  {
  }

  /** What CheckStop and the stop record never touch. */
  predicate SameLedger(i: Instance, i': Instance) {
    && i'.generation == i.generation && i'.objects == i.objects && i'.totals == i.totals
    && i'.book.(recent := []) == i.book.(recent := []) && i'.settled == i.settled
    && i'.budget == i.budget && i'.stop == i.stop && i'.reports == i.reports && i'.cleared == i.cleared
    && (i'.head.Storing? ==> i.head.Storing? && i'.head.record == i.head.record)
    && (i'.head.Wiping? ==> i.head.Wiping?)
  }

  lemma LiveCharge(x: Extractor, b: Book, cp: Checkpoint, totals: Spend, name: string, taskId: string, result: string)
    requires Accounts(x, cp, totals, b)
    ensures var b' := BookWrite(BookCharge(b, true, cp, taskId, Charge(x, result)), cp, name, taskId);
            Accounts(x, cp[name := StepCheckpoint(taskId, result)], Plus(totals, Charge(x, result)), b')
  {
    var amount := Charge(x, result);
    var b1 := BookCharge(b, true, cp, taskId, amount);
    ChargeBalances(b, cp, totals, taskId, amount);
    FloorOfCharge(x, cp, totals, b.deltas, name, taskId, result);
    hide Floor, Charge;
    WriteBalances(b1, cp, Plus(totals, amount), name, taskId, result);
    if BookWrite(b1, cp, name, taskId).overlaps == 0 {
      assert forall n <- cp :: cp[n].taskId in TaskIds(cp);
      FaithfulWrite(x, b1, cp, name, taskId, result);
    }
  }

  lemma LiveReuse(x: Extractor, b: Book, cp: Checkpoint, totals: Spend, name: string, from: string)
    requires Accounts(x, cp, totals, b) && from in cp
    ensures var b' := BookWrite(b, cp, name, cp[from].taskId);
            Accounts(x, cp[name := StepCheckpoint(cp[from].taskId, cp[from].result)], totals, b')
  {
    var taskId := cp[from].taskId;
    assert TaskIds(cp) + {taskId} == TaskIds(cp);
    FloorOfReuse(x, cp, totals, b.deltas, name, from);
    hide Floor;
    WriteBalances(b, cp, totals, name, taskId, cp[from].result);
    if BookWrite(b, cp, name, taskId).overlaps == 0 {
      FaithfulWrite(x, b, cp, name, taskId, cp[from].result);
    }
  }

  lemma StaleCharge(x: Extractor, b: Book, cp: Checkpoint, seen: Checkpoint, totals: Spend,
                    taskId: string, amount: Spend)
    requires Accounts(x, cp, totals, b) && NonNegative(amount)
    ensures Accounts(x, cp, Plus(totals, amount), BookCharge(b, false, seen, taskId, amount))
  {
    FloorOfSpend(x, cp, totals, b.deltas, amount);
    hide Floor;
  }

  /** A completion keeps the ledger of the run balanced, whichever run its call belongs to. */
  lemma CompleteAccounts(x: Extractor, i: Instance, id: nat, taskId: string, result: string)
    requires Shape(i) && id in i.calls && InstanceAccounts(x, i)
    ensures InstanceAccounts(x, Complete(i, id, taskId, result, Some(Charge(x, result))))
    ensures Complete(i, id, taskId, result, Some(Charge(x, result))).head == i.head
  {
    hide Accounts, BookCharge, BookWrite, Charge;
    var c := i.calls[id];
    if c.gen == i.generation {
      LiveCharge(x, i.book, i.objects[c.gen], i.totals, c.name, taskId, result);
    } else {
      assert NonNegative(Charge(x, result));
      StaleCharge(x, i.book, i.objects[i.generation], i.objects[c.gen], i.totals, taskId, Charge(x, result));
    }
  }

  lemma ReuseAccounts(x: Extractor, i: Instance, id: nat, from: string)
    requires Shape(i) && id in i.calls && from in i.objects[i.calls[id].gen] && InstanceAccounts(x, i)
    ensures var step := i.objects[i.calls[id].gen][from];
            && InstanceAccounts(x, Complete(i, id, step.taskId, step.result, None))
            && Complete(i, id, step.taskId, step.result, None).head == i.head
  {
    hide Accounts, BookCharge, BookWrite, Charge;
    var c := i.calls[id];
    if c.gen == i.generation {
      LiveReuse(x, i.book, i.objects[c.gen], i.totals, c.name, from);
    }
  }

  lemma NoIds(cp: Checkpoint)
    requires cp == map[]
    ensures TaskIds(cp) == {}
  {
  }

  // (Plus is hidden: the solver would unfold it without end on literals)
  lemma NothingOwed(x: Extractor, cp: Checkpoint, totals: Spend, b: Book)
    requires cp == map[] && totals == ZERO && b == EMPTY_BOOK
    ensures Accounts(x, cp, totals, b)
  {
    NoIds(cp);
    PlusZero(SumOver({}, b.paid));
    FloorOfNothing(x, cp);
    hide Plus, Floor;
  }

  function Merge(b: Book, saved: Book): Book {
    Book(saved.paid, Plus(b.deltas, saved.deltas), Plus(b.stray, saved.stray), b.overlaps + saved.overlaps,
         b.recent + saved.recent)
  }

  lemma MergeBalances(totals: Spend, b: Book, ids: set<string>, saved: Spend, sb: Book)
    requires Balanced({}, totals, b) && Balanced(ids, saved, sb)
    ensures Balanced(ids, Plus(totals, saved), Merge(b, sb))
  {
  }

  lemma MergeExact(totals: Spend, b: Book, ids: set<string>, saved: Spend, sb: Book)
    requires Exact({}, totals, b) && Exact(ids, saved, sb)
    ensures Exact(ids, Plus(totals, saved), Merge(b, sb))
  {
  }

  lemma MergeFaithful(x: Extractor, b: Book, steps: Checkpoint, sb: Book)
    requires Faithful(x, steps, sb)
    ensures Faithful(x, steps, Merge(b, sb))
  {
  }

  /** The restored spend joins what was recorded before the load, once. */
  lemma MergeAccounts(x: Extractor, none: Checkpoint, totals: Spend, b: Book, steps: Checkpoint, saved: Spend, sb: Book)
    requires none == map[] && Accounts(x, none, totals, b) && Accounts(x, steps, saved, sb)
    ensures Accounts(x, steps, Plus(totals, saved), Merge(b, sb))
  {
    NoIds(none);
    FloorOfLoad(x, none, totals, b.deltas, steps, saved, sb.deltas);
    hide Floor, Balanced, Exact, Faithful, TaskIds, SumOver, Charge;
    MergeBalances(totals, b, TaskIds(steps), saved, sb);
    if b.overlaps == 0 && sb.overlaps == 0 {
      MergeExact(totals, b, TaskIds(steps), saved, sb);
      MergeFaithful(x, b, steps, sb);
    }
  }

  lemma InstallAccounts(x: Extractor, i: Instance, store: Option<Record>)
    requires i.generation in i.objects && i.objects[i.generation] == map[] && InstanceAccounts(x, i)
    requires store.Some? ==> RecordAccounts(x, store.value)
    ensures InstanceAccounts(x, InstallLoad(i, store)) && InstallLoad(i, store).head == i.head
  {
    var none := i.objects[i.generation];
    var noTotals, noBook := ZERO, EMPTY_BOOK;
    NothingOwed(x, none, noTotals, noBook);
    PlusZero(i.totals);
    PlusZero(i.book.deltas);
    PlusZero(i.book.stray);
    hide Plus, Accounts, Charge, SumOver, TaskIds, CleanTotals, OverBudget, Shape;
    if store.Some? {
      MergeAccounts(x, none, i.totals, i.book, store.value.steps, CleanTotals(store.value.spend), store.value.book);
    } else {
      MergeAccounts(x, none, i.totals, i.book, none, noTotals, noBook);
    }
  }

  lemma NoteAccounts(x: Extractor, i: Instance, delta: RawTotals)
    requires Shape(i) && InstanceAccounts(x, i)
    ensures InstanceAccounts(x, NoteSpend(i, delta)) && NoteSpend(i, delta).head == i.head
  {
    FloorOfSpend(x, i.objects[i.generation], i.totals, i.book.deltas, CleanTotals(delta));
    hide Floor, CleanTotals, OverBudget;
  }

  lemma QuietCalls(i: Instance, id: nat, name: string, kind: Kind)
    ensures SameLedger(i, Begin(i, id, name, kind)) && SameLedger(i, StartLoad(i))
  {
  }

  lemma QuietPhase(i: Instance, id: nat, p: Phase)
    requires id in i.calls
    ensures SameLedger(i, AfterLoad(i, id)) && SameLedger(i, SetPhase(i, id, p))
  {
  }

  lemma QuietGo(i: Instance, id: nat)
    requires Shape(i) && id in i.calls
    ensures SameLedger(i, Go(i, id))
  {
  }

  lemma QuietPop(i: Instance, ok: bool)
    requires i.chain != []
    ensures SameLedger(i, PopJob(i, ok))
  {
  }

  lemma QuietReject(i: Instance)
    ensures SameLedger(i, RejectLoad(i))
  {
    var s := i.(loading := Idle, calls := FailLoaders(i.calls));
    if s.head.AwaitingLoad? && s.chain != [] { QuietPop(s, false); }
    hide PopJob;
  }

  lemma SameLedgerAccounts(x: Extractor, w: World, i': Instance)
    requires LedgerInv(x, w) && SameLedger(w.inst, i') && Shape(i')
    ensures LedgerInv(x, World(w.store, i'))
  {
  }

  lemma StartJobAccounts(x: Extractor, w: World)
    requires LedgerInv(x, w) && w.inst.chain != [] && w.inst.head.Queued?
    ensures LedgerInv(x, World(w.store, StartJob(w.inst)))
  {
    ShapeStartJob(w.inst);
    if w.inst.chain[0].Wipe? {
      hide Plus;
      var i := Reset(w.inst);
      NothingOwed(x, i.objects[i.generation], i.totals, i.book);
    }
    hide Plus, Accounts, SumOver, TaskIds, Charge, HeadFits, CallFits;
  }

  lemma LandAccounts(x: Extractor, w: World)
    requires LedgerInv(x, w) && (w.inst.head.Storing? || w.inst.head.Wiping?)
    ensures LedgerInv(x, World(if w.inst.head.Storing? then Some(w.inst.head.record) else None, Land(w.inst)))
  {
    ShapeLand(w.inst);
    hide Accounts, SumOver, TaskIds, Charge, Shape;
  }

  lemma ProceedAccounts(x: Extractor, w: World)
    requires LedgerInv(x, w) && w.inst.chain != [] && w.inst.head.AwaitingLoad? && w.inst.loading.Loaded?
    ensures LedgerInv(x, World(w.store, ProceedJob(w.inst)))
  {
    ShapeProceed(w.inst);
    hide Charge;
  }

  lemma FreshAccounts(x: Extractor, budget: WorkflowBudget)
    ensures Shape(Fresh(budget)) && InstanceAccounts(x, Fresh(budget))
  {
    var i := Fresh(budget);
    NothingOwed(x, i.objects[0], i.totals, i.book);
    hide Plus, Accounts;
  }

  /** The turns that move neither the totals nor the steps. */
  predicate Quiet(e: Event) {
    e.CallStep? || e.CallIsResuming? || e.Resume? || e.Proceed? || e.Dispatched? || e.WorkFails? ||
    e.LoadFails? || e.JobSettles? || e.CallClear? || e.Abort?
  }

  lemma QuietStep(x: Extractor, w: World, e: Event)
    requires Shape(w.inst) && Enabled(w, e) && Quiet(e)
    ensures Next(x, w, e).store == w.store && SameLedger(w.inst, Next(x, w, e).inst)
  {
    hide Shape, Complete, InstallLoad, RejectLoad, Begin, StartLoad, NoteSpend, SetPhase, AfterLoad, Go, StartJob,
         ProceedJob, PopJob, Land, Accounts, InstanceAccounts, RecordAccounts, Charge, TaskIds, CallFits, HeadFits;
    var i := w.inst;
    match e
    case CallStep(id, name, kind) => QuietCalls(i, id, name, kind);
    case CallIsResuming => QuietCalls(i, 0, "", RunStep);
    case Resume(id) => QuietPhase(i, id, Ready);
    case Proceed(id) => QuietGo(i, id);
    case Dispatched(id, taskId) => QuietPhase(i, id, Waiting(taskId));
    case WorkFails(id) => QuietPhase(i, id, Threw(WorkFailed));
    case LoadFails => QuietReject(i);
    case JobSettles(ok) => QuietPop(i, ok);
    case CallClear =>
    case Abort =>
  }

  lemma LoudStep(x: Extractor, w: World, e: Event)
    requires LedgerInv(x, w) && Enabled(w, e) && !Quiet(e) && Shape(Next(x, w, e).inst)
    ensures LedgerInv(x, Next(x, w, e))
  {
    hide Complete, InstallLoad, RejectLoad, Begin, StartLoad, NoteSpend, SetPhase, AfterLoad, Go, StartJob,
         ProceedJob, PopJob, Land, Accounts, InstanceAccounts, RecordAccounts, Charge, TaskIds, CallFits, HeadFits;
    var i := w.inst;
    match e
    case LoadOk => InstallAccounts(x, i, w.store);
    case Reused(id, taskId, from) => ReuseAccounts(x, i, id, from);
    case Completed(id, result) => CompleteAccounts(x, i, id, TaskIdOf(i.calls[id]), result);
    case JobStarts => StartJobAccounts(x, w);
    case JobProceeds => ProceedAccounts(x, w);
    case StoreLands => LandAccounts(x, w);
    case RecordSpend(delta) => NoteAccounts(x, i, delta);
    case Crash(budget) => FreshAccounts(x, budget);
  }

  lemma LedgerStep(x: Extractor, w: World, e: Event)
    requires LedgerInv(x, w) && Enabled(w, e)
    ensures LedgerInv(x, Next(x, w, e))
  {
    ShapeStep(x, w, e);
    hide Shape;
    var i := w.inst;
    if Quiet(e) {
      hide Next, Enabled;
      QuietStep(x, w, e);
      SameLedgerAccounts(x, w, Next(x, w, e).inst);
    } else {
      LoudStep(x, w, e);
    }
  }

  /** The event at a position of a run is enabled and leads on. */
  lemma Turn(x: Extractor, ws: seq<World>, es: seq<Event>, k: nat)
    requires IsRun(x, ws, es) && k < |es|
    ensures Enabled(ws[k], es[k]) && ws[k + 1] == Next(x, ws[k], es[k])
  {
    hide Next, Enabled;
  }

  lemma {:induction false} LedgerRun(x: Extractor, ws: seq<World>, es: seq<Event>, k: nat)
    requires IsRun(x, ws, es) && k < |ws|
    ensures LedgerInv(x, ws[k])
  {
    hide Plus, Accounts, Shape;
    if k == 0 {
      FreshAccounts(x, ws[0].inst.budget);
    } else {
      LedgerRun(x, ws, es, k - 1);
      LedgerStep(x, ws[k - 1], es[k - 1]);
    }
  }

  // ----- The statement in terms of the steps alone -----

  /** The result recorded for a task id of the checkpoint. */
  ghost function ResultOf(cp: Checkpoint, taskId: string): string
    requires taskId in TaskIds(cp)
  {
    var n :| n in cp && cp[n].taskId == taskId;
    cp[n].result
  }

  /** The spend of the distinct task ids of a checkpoint, each read off its result. */
  ghost function SpendOfSteps(x: Extractor, cp: Checkpoint): Spend {
    SumOver(TaskIds(cp), map t | t in TaskIds(cp) :: Charge(x, ResultOf(cp, t)))
  }

  /** However the results differ, the totals are never less than the spend of the steps plus the deltas. */
  lemma AccountsAtLeastSteps(x: Extractor, cp: Checkpoint, totals: Spend, b: Book)
    requires Accounts(x, cp, totals, b)
    ensures AtMost(Plus(SpendOfSteps(x, cp), b.deltas), totals)
  {
    var pick := map t | t in TaskIds(cp) :: ResultOf(cp, t);
    forall t | t in pick ensures Kept(cp, t, pick[t]) {
      var n :| n in cp && cp[n].taskId == t && pick[t] == cp[n].result;
      assert cp[n] == StepCheckpoint(t, pick[t]);
    }
    assert Picks(cp, pick);
    assert Prices(x, pick) == map t | t in TaskIds(cp) :: Charge(x, ResultOf(cp, t));
    hide Charge, Kept;
  }

  lemma AccountsMeansSteps(x: Extractor, cp: Checkpoint, totals: Spend, b: Book)
    requires Accounts(x, cp, totals, b) && b.overlaps == 0
    ensures totals == Plus(SpendOfSteps(x, cp), b.deltas)
  {
    SumOverFrame(TaskIds(cp), b.paid, map t | t in TaskIds(cp) :: Charge(x, ResultOf(cp, t)));
  }

  /**
   * Counted once: over any number of crashes, failed loads, failed saves and restarts, and at
   * every await point, the totals in memory and the totals of the saved record are at least the
   * spend of the distinct task ids in the steps beside them plus the recorded deltas, whatever
   * completions overlapped; and as long as none did they are exactly that.
   */
  lemma SpendCountedOnce(x: Extractor, ws: seq<World>, es: seq<Event>, k: nat)
    requires IsRun(x, ws, es) && k < |ws|
    ensures var i := ws[k].inst;
            && i.generation in i.objects
            && AtMost(Plus(SpendOfSteps(x, i.objects[i.generation]), i.book.deltas), i.totals)
            && (i.book.overlaps == 0 ==>
                  i.totals == Plus(SpendOfSteps(x, i.objects[i.generation]), i.book.deltas))
            && Balanced(TaskIds(i.objects[i.generation]), i.totals, i.book)
    ensures ws[k].store.Some? ==>
              var r := ws[k].store.value;
              && AtMost(Plus(SpendOfSteps(x, r.steps), r.book.deltas), CleanTotals(r.spend))
              && (r.book.overlaps == 0 ==> CleanTotals(r.spend) == Plus(SpendOfSteps(x, r.steps), r.book.deltas))
              && Balanced(TaskIds(r.steps), CleanTotals(r.spend), r.book)
  {
    LedgerRun(x, ws, es, k);
    var i := ws[k].inst;
    AccountsAtLeastSteps(x, i.objects[i.generation], i.totals, i.book);
    if i.book.overlaps == 0 {
      AccountsMeansSteps(x, i.objects[i.generation], i.totals, i.book);
    }
    if ws[k].store.Some? {
      var r := ws[k].store.value;
      AccountsAtLeastSteps(x, r.steps, CleanTotals(r.spend), r.book);
      if r.book.overlaps == 0 {
        AccountsMeansSteps(x, r.steps, CleanTotals(r.spend), r.book);
      }
    }
  }

  /** What a charged completion changes, field by field. */
  lemma ChargeEffect(i: Instance, id: nat, taskId: string, result: string, amount: Spend)
    requires id in i.calls && i.calls[id].gen in i.objects
    ensures var c := i.calls[id];
            var cp := i.objects[c.gen];
            var live := c.gen == i.generation;
            var charged := BookCharge(i.book, live, cp, taskId, amount);
            var i' := Complete(i, id, taskId, result, Some(amount));
            && i'.totals == Plus(i.totals, amount)
            && i'.book == (if live then BookWrite(charged, cp, c.name, taskId) else charged)
            && i'.generation == i.generation
            && i'.objects == i.objects[c.gen := cp[c.name := StepCheckpoint(taskId, result)]]
            && i'.calls == i.calls[id := c.(phase := Saving(result), wrote := true)]
  {
    hide BookCharge, BookWrite, OverBudget;
  }
}
