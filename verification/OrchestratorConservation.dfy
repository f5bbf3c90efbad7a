/**
 * Where the totals come from, event by event: the charges of the completed steps, the recorded
 * deltas and the one saved record, since the instance started or was last reset.
 */
module OrchestratorConservation {
  import opened Budget
  import opened Orchestrator
  import opened OrchestratorLedger
  import opened OrchestratorBarrier

  /** A new instance, or the reset of a clear(). */
  predicate Starts(w: World, e: Event) {
    e.Crash? || WipeStarts(w, e)
  }

  /** What one event adds to the totals. */
  function Added(x: Extractor, w: World, e: Event): Spend {
    match e
    case Completed(_, result) => Charge(x, result)
    case RecordSpend(delta) => CleanTotals(delta)
    case LoadOk => if w.store.Some? then CleanTotals(w.store.value.spend) else ZERO
    case _ => ZERO
  }

  /** What of it was recorded: by recordSpend, or in the record that is loaded. */
  function Recorded(w: World, e: Event): Spend {
    match e
    case RecordSpend(delta) => CleanTotals(delta)
    case LoadOk => if w.store.Some? then w.store.value.book.deltas else ZERO
    case _ => ZERO
  }

  function AddedSince(x: Extractor, ws: seq<World>, es: seq<Event>, i: nat, j: nat): Spend
    requires i <= j <= |es| <= |ws|
    decreases j
  {
    if i == j then ZERO else Plus(AddedSince(x, ws, es, i, j - 1), Added(x, ws[j - 1], es[j - 1]))
  }

  function RecordedSince(ws: seq<World>, es: seq<Event>, i: nat, j: nat): Spend
    requires i <= j <= |es| <= |ws|
    decreases j
  {
    if i == j then ZERO else Plus(RecordedSince(ws, es, i, j - 1), Recorded(ws[j - 1], es[j - 1]))
  }

  lemma InstallAdds(i: Instance, store: Option<Record>)
    ensures var i' := InstallLoad(i, store);
            && i'.totals == Plus(i.totals, if store.Some? then CleanTotals(store.value.spend) else ZERO)
            && i'.book.deltas == Plus(i.book.deltas, if store.Some? then store.value.book.deltas else ZERO)
  {
    hide CleanTotals, OverBudget;
  }

  lemma NoteAdds(i: Instance, delta: RawTotals)
    ensures NoteSpend(i, delta).totals == Plus(i.totals, CleanTotals(delta))
    ensures NoteSpend(i, delta).book.deltas == Plus(i.book.deltas, CleanTotals(delta))
  {
    hide CleanTotals, OverBudget;
  }

  lemma CompleteAdds(i: Instance, id: nat, taskId: string, result: string, charge: Option<Spend>)
    requires id in i.calls && i.calls[id].gen in i.objects
    ensures var i' := Complete(i, id, taskId, result, charge);
            && i'.totals == Plus(i.totals, if charge.Some? then charge.value else ZERO)
            && i'.book.deltas == i.book.deltas
  {
    PlusZero(i.totals);
    hide TaskIds, OverBudget;
  }

  lemma JobAdds(i: Instance)
    requires i.chain != [] && i.generation in i.objects
    ensures i.chain[0].Save? ==> StartJob(i).totals == i.totals && StartJob(i).book == i.book
    ensures i.chain[0].Wipe? ==> StartJob(i).totals == ZERO && StartJob(i).book == EMPTY_BOOK
    ensures ProceedJob(i).totals == i.totals && ProceedJob(i).book.deltas == i.book.deltas
  {
    QuietPop(i, true);
    hide PopJob, Snapshot;
  }

  lemma StepAdds(x: Extractor, w: World, e: Event)
    requires Shape(w.inst) && Enabled(w, e)
    ensures var i' := Next(x, w, e).inst;
            if Starts(w, e) then i'.totals == ZERO && i'.book.deltas == ZERO
            else
              && i'.totals == Plus(w.inst.totals, Added(x, w, e))
              && i'.book.deltas == Plus(w.inst.book.deltas, Recorded(w, e))
  {
    var i := w.inst;
    PlusZero(i.totals);
    PlusZero(i.book.deltas);
    hide Plus;
    if Quiet(e) {
      QuietStep(x, w, e);
      hide Next, Enabled, Shape;
    } else {
      hide Complete, InstallLoad, NoteSpend, StartJob, ProceedJob, Charge, CleanTotals, Shape, TaskIds;
      match e
      case LoadOk => InstallAdds(i, w.store);
      case RecordSpend(delta) => NoteAdds(i, delta);
      case Reused(id, taskId, from) => CompleteAdds(i, id, taskId, i.objects[i.calls[id].gen][from].result, None);
      case Completed(id, result) => CompleteAdds(i, id, TaskIdOf(i.calls[id]), result, Some(Charge(x, result)));
      case JobStarts => JobAdds(i);
      case JobProceeds => JobAdds(i);
      case StoreLands =>
      case Crash(_) =>
    }
  }

  /**
   * Conservation: since the instance started or clear() last reset it, the totals are the cleaned
   * charges of the completed steps plus the cleaned recordSpend amounts plus the saved spend of the
   * loaded record, each once; and the recorded deltas are those amounts plus the deltas of that record.
   */
  lemma {:induction false} TotalsAreEvents(x: Extractor, ws: seq<World>, es: seq<Event>, i: nat, j: nat)
    requires IsRun(x, ws, es) && i <= j <= |es|
    requires i == 0 || Starts(ws[i - 1], es[i - 1])
    requires forall k :: i <= k < j ==> !Starts(ws[k], es[k])
    ensures ws[j].inst.totals == AddedSince(x, ws, es, i, j)
    ensures ws[j].inst.book.deltas == RecordedSince(ws, es, i, j)
    decreases j
  {
    if j > 0 {
      assert Enabled(ws[j - 1], es[j - 1]) && ws[j] == Next(x, ws[j - 1], es[j - 1]);
      LedgerRun(x, ws, es, j - 1);
      StepAdds(x, ws[j - 1], es[j - 1]);
      if i < j {
        hide IsRun, Next, Enabled, LedgerInv, Added, Recorded, Plus;
        TotalsAreEvents(x, ws, es, i, j - 1);
      }
    }
  }

  lemma {:induction false} StaysLoaded(x: Extractor, ws: seq<World>, es: seq<Event>, i: nat, j: nat)
    requires IsRun(x, ws, es) && i < j <= |es| && es[i].LoadOk?
    requires forall k :: i < k < j ==> !es[k].Crash?
    ensures ws[j].inst.loading.Loaded?
    decreases j
  {
    hide Next, Enabled;
    Turn(x, ws, es, j - 1);
    hide IsRun;
    if i + 1 < j {
      StaysLoaded(x, ws, es, i, j - 1);
    }
    LoadedOn(x, ws[j - 1], es[j - 1]);
  }

  /** The saved spend is restored at most once by an instance. */
  lemma RestoredOnce(x: Extractor, ws: seq<World>, es: seq<Event>, i: nat, j: nat)
    requires IsRun(x, ws, es) && i < j < |es| && es[i].LoadOk? && es[j].LoadOk?
    ensures exists k :: i < k < j && es[k].Crash?
  {
    hide Next, Enabled;
    if forall k :: i < k < j ==> !es[k].Crash? {
      StaysLoaded(x, ws, es, i, j);
      Turn(x, ws, es, j);
      LoadsOnce(ws[j], es[j]);
    }
  }

  lemma LoadsOnce(w: World, e: Event)
    requires Enabled(w, e) && w.inst.loading.Loaded?
    ensures !e.LoadOk?
  {
  }

  lemma LoadedOn(x: Extractor, w: World, e: Event)
    requires Enabled(w, e) && !e.Crash? && (w.inst.loading.Loaded? || e.LoadOk?)
    ensures Next(x, w, e).inst.loading.Loaded?
  {
    hide TaskIds, OverBudget, CleanTotals, BookCharge, BookWrite, Charge, PopJob, Snapshot;
    if w.inst.chain != [] { PopLoading(w.inst); }
  }

  lemma PopLoading(i: Instance)
    requires i.chain != []
    ensures PopJob(i, true).loading == i.loading && PopJob(i, false).loading == i.loading
  {
  }

  // ----- The saved record -----

  /** The record is what some instance of the run held at one moment. */
  ghost predicate TakenAt(ws: seq<World>, k: nat, r: Record) {
    exists m :: 0 <= m <= k < |ws| && ws[m].inst.generation in ws[m].inst.objects && r == Snapshot(ws[m].inst)
  }

  ghost predicate RecordsTaken(ws: seq<World>, k: nat)
    requires k < |ws|
  {
    && (ws[k].store.Some? ==> TakenAt(ws, k, ws[k].store.value))
    && (ws[k].inst.head.Storing? ==> TakenAt(ws, k, ws[k].inst.head.record))
  }

  lemma TakenLater(ws: seq<World>, k: nat, r: Record)
    requires TakenAt(ws, k, r) && k + 1 < |ws|
    ensures TakenAt(ws, k + 1, r)
  {
  }

  /** A save under way is new only when it has just proceeded. */
  lemma HeadFrom(x: Extractor, w: World, e: Event)
    requires Shape(w.inst) && Enabled(w, e) && Next(x, w, e).inst.head.Storing?
    ensures var r := Next(x, w, e).inst.head.record;
            if e.JobProceeds? then r == Snapshot(w.inst) else w.inst.head.Storing? && r == w.inst.head.record
  {
    hide Shape, Snapshot;
    if Quiet(e) {
      QuietStep(x, w, e);
      hide Next, Enabled;
    } else {
      hide TaskIds, OverBudget, CleanTotals, BookCharge, BookWrite, Charge, PopJob;
      if w.inst.chain != [] { PopQueues(w.inst); }
    }
  }

  lemma PopQueues(i: Instance)
    requires i.chain != []
    ensures PopJob(i, true).head == Queued && PopJob(i, false).head == Queued
  {
  }

  lemma StoreFrom(x: Extractor, w: World, e: Event)
    requires Enabled(w, e) && Next(x, w, e).store.Some?
    ensures if e.StoreLands? then w.inst.head.Storing? && Next(x, w, e).store.value == w.inst.head.record
            else Next(x, w, e).store == w.store
  {
    hide Complete, InstallLoad, RejectLoad, Begin, StartLoad, NoteSpend, SetPhase, AfterLoad, Go, StartJob,
         ProceedJob, PopJob, Land, Charge, TaskIds;
  }

  /** In every run the saved record, spend and deltas included, is a snapshot of an earlier moment. */
  lemma {:induction false} RecordIsSnapshot(x: Extractor, ws: seq<World>, es: seq<Event>, k: nat)
    requires IsRun(x, ws, es) && k < |ws|
    ensures RecordsTaken(ws, k)
  {
    if k > 0 {
      RecordIsSnapshot(x, ws, es, k - 1);
      var w, e := ws[k - 1], es[k - 1];
      assert Enabled(w, e) && ws[k] == Next(x, w, e);
      LedgerRun(x, ws, es, k - 1);
      if ws[k].store.Some? { StoreFrom(x, w, e); }
      if ws[k].inst.head.Storing? { HeadFrom(x, w, e); }
      if w.store.Some? { TakenLater(ws, k - 1, w.store.value); }
      if w.inst.head.Storing? { TakenLater(ws, k - 1, w.inst.head.record); }
      hide IsRun, Next, Snapshot;
    }
  }
}
