/**
 * The crash-safe workflow orchestrator (src/shared/orchestrator.ts) as a state machine.
 *
 * JavaScript runs each turn to completion, so every stretch of code between two
 * `await`s is one atomic event below, and any order in which the events are enabled
 * is a possible interleaving.  A crash may fall between any two events.
 */
module Orchestrator {
  import opened Budget

  datatype StepCheckpoint = StepCheckpoint(taskId: string, result: string)

  /** Step name to completed step, the reserved spend entry stripped. */
  type Checkpoint = map<string, StepCheckpoint>

  /** The reserved entry cannot be used as a step name. */
  const SPEND_ENTRY := "__workflow_spend__"

  /** The injected `spendOf`; whatever it returns is cleaned before it is added. */
  type Extractor = string -> Option<RawTotals>

  function Charge(x: Extractor, result: string): (r: Spend)
    ensures NonNegative(r) && Reports(x(result), r.tokens, r.cost)
  {
    match x(result)
    case None => ZERO
    case Some(raw) => CleanTotals(raw)
  }

  /**
   * Explains the totals.  `paid` says what each task id of the run was charged,
   * `deltas` is the spend fed in through recordSpend, `stray` the spend of completions
   * that the steps of this run do not (or no longer) show, `overlaps` counts the
   * situations in which such a completion can arise, and `recent` lists the charges
   * since a step was last let through to dispatch.
   */
  datatype Book = Book(paid: map<string, Spend>, deltas: Spend, stray: Spend, overlaps: nat, recent: seq<Spend>)

  const EMPTY_BOOK := Book(map[], ZERO, ZERO, 0, [])

  /** What one save writes: the steps and, in the same record, the spend and the stop flag. */
  datatype Record = Record(steps: Checkpoint, spend: RawTotals, stopped: bool, book: Book)

  datatype WorkflowStop = WorkflowStop(detail: Breach, totals: Spend)

  datatype Kind = RunStep | Memoize

  datatype Failure = NotStarted | LoadFailed | EmergencyStopped | OverBudgetStop | WorkFailed | SaveFailed

  /** Where a `runStep` or `memoize` call stands. */
  datatype Phase =
    | Loading                    // waiting in loadForStep
    | Ready                      // passed the generation check, its continuation is queued
    | Dispatching                // opts.dispatch() in flight
    | Waiting(taskId: string)    // router.wait in flight
    | Producing                  // memoize producer in flight
    | Saving(result: string)     // written to the checkpoint, its save is queued
    | Returned(result: string)
    | Threw(why: Failure)

  /** One call; `gen` is the generation it captured, `wrote` whether it completed its step. */
  datatype Call = Call(name: string, kind: Kind, gen: nat, phase: Phase, wrote: bool)

  datatype Job = Save(owner: Option<nat>) | Wipe

  /** How far the job at the head of the save chain has come. */
  datatype Head = Queued | AwaitingLoad | Storing(record: Record, landed: bool) | Wiping(landed: bool)

  datatype Load = Idle | InFlight | Loaded

  /**
   * One orchestrator instance.  `objects[g]` is the checkpoint object of generation g:
   * a call holds on to the object of the generation it captured, also after clear()
   * has installed a new one.  `settled` says that what the store holds belongs to the
   * current generation (the load was read, or the wipe or a later save has landed).
   */
  datatype Instance = Instance(
    budget: WorkflowBudget,
    totals: Spend,
    stop: Option<WorkflowStop>,
    reports: nat,
    generation: nat,
    objects: map<nat, Checkpoint>,
    loading: Load,
    cleared: bool,
    chain: seq<Job>,
    head: Head,
    aborted: bool,
    calls: map<nat, Call>,
    settled: bool,
    book: Book)

  function Fresh(budget: WorkflowBudget): Instance {
    Instance(budget, ZERO, None, 0, 0, map[0 := map[]], Idle, false, [], Queued, false, map[], false, EMPTY_BOOK)
  }

  datatype World = World(store: Option<Record>, inst: Instance)

  datatype Event =
    | CallStep(id: nat, name: string, kind: Kind)
    | CallIsResuming
    | RecordSpend(delta: RawTotals)
    | CallClear
    | Abort
    | LoadOk
    | LoadFails
    | Resume(id: nat)
    | Proceed(id: nat)
    | Dispatched(id: nat, taskId: string)
    | Reused(id: nat, taskId: string, from: string)
    | Completed(id: nat, result: string)
    | WorkFails(id: nat)
    | JobStarts
    | JobProceeds
    | StoreLands
    | JobSettles(ok: bool)
    | Crash(budget: WorkflowBudget)

  function TaskIds(cp: Checkpoint): set<string> {
    set n | n in cp :: cp[n].taskId
  }

  /** The memoized steps are not dispatched; their task id is synthetic. */
  function MemoId(name: string): string {
    "memoize:" + name
  }

  // ----- The pieces of an instance's turn -----

  /** Stop dispatching once a ceiling is reached, and report it. */
  function CheckStop(i: Instance): Instance {
    if i.stop.Some? then i
    else
      match OverBudget(i.totals, i.budget)
      case None => i
      case Some(detail) => i.(stop := Some(WorkflowStop(detail, i.totals)), reports := i.reports + 1)
  }

  function AddSpend(i: Instance, amount: Spend): Instance {
    CheckStop(i.(totals := Plus(i.totals, amount)))
  }

  /** The steps the load read, and the saved spend on top of the totals. */
  function Restore(i: Instance, record: Option<Record>): Instance {
    var steps := if record.Some? then record.value.steps else map[];
    var saved := if record.Some? then CleanTotals(record.value.spend) else ZERO;
    var book := if record.Some? then record.value.book else EMPTY_BOOK;
    i.(objects := i.objects[i.generation := steps],
       totals := Plus(i.totals, saved),
       loading := Loaded,
       settled := true,
       book := Book(book.paid, Plus(i.book.deltas, book.deltas), Plus(i.book.stray, book.stray),
                    i.book.overlaps + book.overlaps, i.book.recent + book.recent))
  }

  /** A saved stop is kept, without a second report, while the totals still breach the current budget. */
  function KeepStop(i: Instance, stopped: bool): Instance {
    var detail := OverBudget(i.totals, i.budget);
    if i.stop.None? && stopped && detail.Some?
    then i.(stop := Some(WorkflowStop(detail.value, i.totals)))
    else CheckStop(i)
  }

  function InstallLoad(i: Instance, record: Option<Record>): Instance {
    KeepStop(Restore(i, record), record.Some? && record.value.stopped)
  }

  function Snapshot(i: Instance): Record
    requires i.generation in i.objects
  {
    Record(i.objects[i.generation], AsRaw(i.totals), i.stop.Some?, i.book)
  }

  function SetPhase(i: Instance, id: nat, p: Phase): Instance
    requires id in i.calls
  {
    i.(calls := i.calls[id := i.calls[id].(phase := p)])
  }

  /** A rejected load throws in every call that waits for it. */
  function FailLoaders(calls: map<nat, Call>): map<nat, Call> {
    map k | k in calls :: if calls[k].phase.Loading? then calls[k].(phase := Threw(LoadFailed)) else calls[k]
  }

  /** Remove the head job; the call behind it returns or throws. */
  function PopJob(i: Instance, ok: bool): Instance
    requires i.chain != []
  {
    var job := i.chain[0];
    var rest := i.(chain := i.chain[1..], head := Queued);
    if job.Save? && job.owner.Some? && job.owner.value in i.calls && i.calls[job.owner.value].phase.Saving?
    then SetPhase(rest, job.owner.value,
                  if ok then Returned(i.calls[job.owner.value].phase.result) else Threw(SaveFailed))
    else rest
  }

  /** The reset that clear() performs when its turn in the save chain comes. */
  function Reset(i: Instance): Instance {
    i.(generation := i.generation + 1,
       objects := i.objects[i.generation + 1 := map[]],
       totals := ZERO, stop := None, reports := 0, loading := Loaded, cleared := true,
       settled := false, book := EMPTY_BOOK)
  }

  /**
   * How the book changes when a completion is charged: a completion of a call from before
   * a clear(), or of a task id the steps already show, is stray.
   */
  function BookCharge(b: Book, live: bool, cp: Checkpoint, taskId: string, amount: Spend): Book {
    var b' := b.(recent := b.recent + [amount]);
    if live && taskId !in TaskIds(cp)
    then b'.(paid := b'.paid[taskId := amount])
    else b'.(stray := Plus(b'.stray, amount), overlaps := b'.overlaps + 1)
  }

  /**
   * How the book changes when the step `name` is written: overwriting a step may leave a
   * task id that no step shows any more.
   */
  function BookWrite(b: Book, cp: Checkpoint, name: string, taskId: string): Book {
    if name !in cp then b
    else
      var lost := cp[name].taskId;
      var cp' := cp[name := StepCheckpoint(taskId, "")];
      var b' := b.(overlaps := b.overlaps + 1);
      if lost in TaskIds(cp') || lost !in b.paid then b' else b'.(stray := Plus(b'.stray, b.paid[lost]))
  }

  /** Write the completed step (charging it first, when it was waited for) and queue its save. */
  function Complete(i: Instance, id: nat, taskId: string, result: string, charge: Option<Spend>): Instance
    requires id in i.calls && i.calls[id].gen in i.objects
  {
    var c := i.calls[id];
    var cp := i.objects[c.gen];
    var live := c.gen == i.generation;
    var charged := if charge.Some?
                   then AddSpend(i.(book := BookCharge(i.book, live, cp, taskId, charge.value)), charge.value)
                   else i;
    charged.(
      book := if live then BookWrite(charged.book, cp, c.name, taskId) else charged.book,
      objects := i.objects[c.gen := cp[c.name := StepCheckpoint(taskId, result)]],
      calls := i.calls[id := c.(phase := Saving(result), wrote := true)],
      chain := i.chain + [Save(Some(id))])
  }

  // ----- The machine -----

  predicate InPhase(i: Instance, id: nat) {
    id in i.calls && i.calls[id].gen in i.objects
  }

  predicate Enabled(w: World, e: Event) {
    var i := w.inst;
    i.generation in i.objects &&
    match e
    case CallStep(id, _, _) => id !in i.calls
    case CallIsResuming => true
    case RecordSpend(_) => true
    case CallClear => true
    case Abort => true
    case LoadOk => i.loading.InFlight?
    case LoadFails => i.loading.InFlight?
    case Resume(id) =>
      InPhase(i, id) && i.calls[id].phase.Loading? && (i.calls[id].gen != i.generation || i.loading.Loaded?)
    case Proceed(id) => InPhase(i, id) && i.calls[id].phase.Ready?
    case Dispatched(id, taskId) =>
      InPhase(i, id) && i.calls[id].phase.Dispatching? && taskId !in TaskIds(i.objects[i.calls[id].gen])
    case Reused(id, taskId, from) =>
      InPhase(i, id) && i.calls[id].phase.Dispatching? &&
      from in i.objects[i.calls[id].gen] && i.objects[i.calls[id].gen][from].taskId == taskId
    case Completed(id, _) => InPhase(i, id) && (i.calls[id].phase.Waiting? || i.calls[id].phase.Producing?)
    case WorkFails(id) =>
      InPhase(i, id) &&
      (i.calls[id].phase.Dispatching? || i.calls[id].phase.Waiting? || i.calls[id].phase.Producing?)
    case JobStarts => i.chain != [] && i.head.Queued?
    case JobProceeds => i.chain != [] && i.head.AwaitingLoad? && i.loading.Loaded?
    case StoreLands => i.chain != [] && (i.head.Storing? || i.head.Wiping?) && !i.head.landed
    case JobSettles(ok) => i.chain != [] && (i.head.Storing? || i.head.Wiping?) && (ok ==> i.head.landed)
    case Crash(_) => true
  }

  /** ensureLoaded: start the one load unless it is under way or done. */
  function StartLoad(i: Instance): Instance {
    if i.loading.Idle? then i.(loading := InFlight) else i
  }

  /** runStep / memoize up to the first await; the reserved name throws before anything happens. */
  function Begin(i: Instance, id: nat, name: string, kind: Kind): Instance {
    if name == SPEND_ENTRY then i
    else
      var s := StartLoad(i);
      s.(calls := s.calls[id := Call(name, kind, i.generation, Loading, false)])
  }

  function NoteSpend(i: Instance, delta: RawTotals): Instance {
    var amount := CleanTotals(delta);
    var s := AddSpend(i.(book := i.book.(deltas := Plus(i.book.deltas, amount),
                                         recent := i.book.recent + [amount])), amount);
    s.(chain := s.chain + [Save(None)])
  }

  /** A failed load is retried by the next call; the calls and the save that wait for it fail. */
  function RejectLoad(i: Instance): Instance {
    var s := i.(loading := Idle, calls := FailLoaders(i.calls));
    if s.head.AwaitingLoad? && s.chain != [] then PopJob(s, false) else s
  }

  /** A call whose run was cleared while it waited to load throws instead of starting. */
  function AfterLoad(i: Instance, id: nat): Instance
    requires id in i.calls
  {
    SetPhase(i, id, if i.calls[id].gen == i.generation then Ready else Threw(NotStarted))
  }

  /** Replay a checkpointed step; else dispatch (or produce) unless the workflow is stopped. */
  function Go(i: Instance, id: nat): Instance
    requires InPhase(i, id)
  {
    var c := i.calls[id];
    var cp := i.objects[c.gen];
    if c.name in cp then SetPhase(i, id, Returned(cp[c.name].result))
    else if i.aborted then SetPhase(i, id, Threw(EmergencyStopped))
    else if i.stop.Some? then SetPhase(i, id, Threw(OverBudgetStop))
    else SetPhase(i.(book := i.book.(recent := [])), id, if c.kind.RunStep? then Dispatching else Producing)
  }

  function StartJob(i: Instance): Instance
    requires i.chain != []
  {
    if i.chain[0].Wipe? then Reset(i).(head := Wiping(false))
    else StartLoad(i).(head := AwaitingLoad)
  }

  /** After clear() a save is skipped while no new step has completed. */
  function ProceedJob(i: Instance): Instance
    requires i.chain != [] && i.generation in i.objects
  {
    if i.cleared && i.objects[i.generation] == map[] then PopJob(i, true)
    else i.(head := Storing(Snapshot(i), false))
  }

  /** The store call of the head job takes effect. */
  function Land(i: Instance): Instance {
    i.(head := match i.head
               case Storing(r, _) => Storing(r, true)
               case Wiping(_) => Wiping(true)
               case h => h,
       settled := true)
  }

  /** The task id a completed call is written under. */
  function TaskIdOf(c: Call): string {
    if c.phase.Waiting? then c.phase.taskId else MemoId(c.name)
  }

  function Next(x: Extractor, w: World, e: Event): World
    requires Enabled(w, e)
  {
    var i := w.inst;
    match e
    case CallStep(id, name, kind) => w.(inst := Begin(i, id, name, kind))
    case CallIsResuming => w.(inst := StartLoad(i))
    case RecordSpend(delta) => w.(inst := NoteSpend(i, delta))
    case CallClear => w.(inst := i.(chain := i.chain + [Wipe]))
    case Abort => w.(inst := i.(aborted := true))
    case LoadOk => w.(inst := InstallLoad(i, w.store))
    case LoadFails => w.(inst := RejectLoad(i))
    case Resume(id) => w.(inst := AfterLoad(i, id))
    case Proceed(id) => w.(inst := Go(i, id))
    case Dispatched(id, taskId) => w.(inst := SetPhase(i, id, Waiting(taskId)))
    case Reused(id, taskId, from) =>
      w.(inst := Complete(i, id, taskId, i.objects[i.calls[id].gen][from].result, None))
    case Completed(id, result) =>
      w.(inst := Complete(i, id, TaskIdOf(i.calls[id]), result, Some(Charge(x, result))))
    case WorkFails(id) => w.(inst := SetPhase(i, id, Threw(WorkFailed)))
    case JobStarts => w.(inst := StartJob(i))
    case JobProceeds => w.(inst := ProceedJob(i))
    case StoreLands => World(if i.head.Storing? then Some(i.head.record) else None, Land(i))
    case JobSettles(ok) => w.(inst := PopJob(i, ok))
    case Crash(budget) => w.(inst := Fresh(budget))
  }

  /** A run: worlds joined by enabled events, from an empty store and a fresh instance. */
  ghost predicate IsRun(x: Extractor, ws: seq<World>, es: seq<Event>) {
    && |ws| == |es| + 1
    && ws[0].store == None && ws[0].inst == Fresh(ws[0].inst.budget)
    && forall k :: 0 <= k < |es| ==> Enabled(ws[k], es[k]) && ws[k + 1] == Next(x, ws[k], es[k])
  }
}
