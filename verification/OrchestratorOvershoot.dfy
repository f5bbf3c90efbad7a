/**
 * How far the totals can pass a ceiling, across crashes and resumes: less than n times the largest
 * charge of a step when at most n steps are in flight, on top of what recordSpend added; so for steps
 * called one after the other less than the charge of one step.
 */
module OrchestratorOvershoot {
  import opened Budget
  import opened Orchestrator
  import opened OrchestratorLedger
  import opened OrchestratorBudget
  import opened OrchestratorConservation
  import opened InsertionOrder

  function Sum(charges: seq<Spend>): Spend {
    if charges == [] then ZERO else Plus(Sum(charges[..|charges| - 1]), charges[|charges| - 1])
  }

  lemma {:induction false} SumAppend(a: seq<Spend>, b: seq<Spend>)
    ensures Sum(a + b) == Plus(Sum(a), Sum(b))
  {
    if b == [] {
      assert a + b == a;
    } else {
      var s := a + b;
      assert s[..|s| - 1] == a + b[..|b| - 1];
      SumAppend(a, b[..|b| - 1]);
    }
  }

  lemma SumSnoc(a: seq<Spend>, c: Spend)
    ensures Sum(a + [c]) == Plus(Sum(a), c)
  {
    assert (a + [c])[..|a|] == a;
  }

  /** Below every ceiling, up to the charges since the last dispatch. */
  predicate Below(totals: Spend, recent: seq<Spend>, b: WorkflowBudget) {
    && (IsCapped(b.maxTokens) ==> totals.tokens < b.maxTokens.value + Sum(recent).tokens)
    && (IsCapped(b.maxCost) ==> totals.cost < b.maxCost.value + Sum(recent).cost)
  }

  predicate RecordBelow(r: Record, b: WorkflowBudget) {
    Below(CleanTotals(r.spend), r.book.recent, b)
  }

  predicate BelowInv(w: World, b: WorkflowBudget) {
    var i := w.inst;
    && i.budget == b
    && Below(i.totals, i.book.recent, b)
    && (!i.loading.Loaded? ==> i.totals == Sum(i.book.recent))
    && (w.store.Some? ==> RecordBelow(w.store.value, b))
    && (i.head.Storing? ==> RecordBelow(i.head.record, b))
  }

  lemma BelowPlus(totals: Spend, recent: seq<Spend>, c: Spend, b: WorkflowBudget)
    requires Below(totals, recent, b)
    ensures Below(Plus(totals, c), recent + [c], b)
  {
    SumSnoc(recent, c);
  }

  lemma BelowMerge(totals: Spend, recent: seq<Spend>, saved: Spend, more: seq<Spend>, b: WorkflowBudget)
    requires totals == Sum(recent) && Below(saved, more, b)
    ensures Below(Plus(totals, saved), recent + more, b)
  {
    SumAppend(recent, more);
  }

  lemma BelowAtFirst(b: WorkflowBudget)
    ensures Below(ZERO, [], b) && ZERO == Sum([])
  {
  }

  lemma InstallBelow(i: Instance, store: Option<Record>)
    requires i.totals == Sum(i.book.recent)
    requires store.Some? ==> RecordBelow(store.value, i.budget)
    ensures var i' := InstallLoad(i, store);
            && Below(i'.totals, i'.book.recent, i.budget)
            && i'.budget == i.budget && i'.head == i.head && i'.loading.Loaded?
  {
    BelowAtFirst(i.budget);
    if store.Some? {
      BelowMerge(i.totals, i.book.recent, CleanTotals(store.value.spend), store.value.book.recent, i.budget);
    } else {
      BelowMerge(i.totals, i.book.recent, ZERO, [], i.budget);
    }
    hide Below, Sum, OverBudget, CleanTotals;
  }

  lemma CompleteRecent(i: Instance, id: nat, taskId: string, result: string, charge: Option<Spend>)
    requires id in i.calls && i.calls[id].gen in i.objects
    ensures var i' := Complete(i, id, taskId, result, charge);
            && i'.book.recent == (if charge.Some? then i.book.recent + [charge.value] else i.book.recent)
            && i'.book.deltas == i.book.deltas && i'.head == i.head && i'.loading == i.loading
            && i'.budget == i.budget && id in i'.calls && !Flying(i'.calls[id].phase)
  {
    hide TaskIds, OverBudget;
  }

  lemma CompleteBelow(i: Instance, id: nat, taskId: string, result: string, charge: Option<Spend>)
    requires id in i.calls && i.calls[id].gen in i.objects && Below(i.totals, i.book.recent, i.budget)
    ensures var i' := Complete(i, id, taskId, result, charge);
            && Below(i'.totals, i'.book.recent, i.budget) && i'.budget == i.budget && i'.head == i.head
            && i'.loading == i.loading
            && i'.book.recent == if charge.Some? then i.book.recent + [charge.value] else i.book.recent
  {
    if charge.Some? { BelowPlus(i.totals, i.book.recent, charge.value, i.budget); }
    CompleteRecent(i, id, taskId, result, charge);
    CompleteAdds(i, id, taskId, result, charge);
    PlusZero(i.totals);
    hide Below, Sum, Plus, Complete;
  }

  lemma NoteRecent(i: Instance, delta: RawTotals)
    ensures var i' := NoteSpend(i, delta);
            && i'.book.recent == i.book.recent + [CleanTotals(delta)]
            && i'.head == i.head && i'.calls == i.calls && i'.loading == i.loading && i'.budget == i.budget
  {
    hide OverBudget, CleanTotals;
  }

  lemma NoteBelow(i: Instance, delta: RawTotals)
    requires Below(i.totals, i.book.recent, i.budget)
    ensures var i' := NoteSpend(i, delta);
            && Below(i'.totals, i'.book.recent, i.budget) && i'.budget == i.budget && i'.head == i.head
            && i'.loading == i.loading
            && (i.totals == Sum(i.book.recent) ==> i'.totals == Sum(i'.book.recent))
  {
    BelowPlus(i.totals, i.book.recent, CleanTotals(delta), i.budget);
    SumSnoc(i.book.recent, CleanTotals(delta));
    NoteRecent(i, delta);
    NoteAdds(i, delta);
    hide Below, Sum, NoteSpend, CleanTotals, Plus;
  }

  lemma GoBelow(i: Instance, id: nat)
    requires InPhase(i, id) && StopExact(i) && Below(i.totals, i.book.recent, i.budget)
    ensures var i' := Go(i, id);
            Below(i'.totals, i'.book.recent, i.budget) && i'.loading == i.loading
    ensures Go(i, id).book.recent == if Flying(Go(i, id).calls[id].phase) then [] else i.book.recent
  {
    assert i.stop.None? ==> Below(i.totals, [], i.budget);
    hide Below, OverBudget, Sum;
  }

  /** Only a dispatch empties the list of recent charges. */
  lemma QuietRecent(x: Extractor, w: World, e: Event)
    requires Enabled(w, e) && Quiet(e) && !e.Proceed?
    ensures Next(x, w, e).inst.book == w.inst.book
    ensures e.LoadFails? || (w.inst.loading.Loaded? <==> Next(x, w, e).inst.loading.Loaded?)
  {
    hide TaskIds, FailLoaders, PopJob, Snapshot;
    var i := w.inst;
    var failed := i.(loading := Idle, calls := FailLoaders(i.calls));
    if i.chain != [] {
      PopKeepsBook(i, true);
      PopKeepsBook(i, false);
      PopKeepsBook(failed, false);
    }
  }

  lemma PopKeepsBook(i: Instance, ok: bool)
    requires i.chain != []
    ensures PopJob(i, ok).book == i.book && PopJob(i, ok).loading == i.loading
  {
  }

  lemma JobBelow(w: World, b: WorkflowBudget)
    requires Shape(w.inst) && NonNegative(w.inst.totals) && BelowInv(w, b) && w.inst.chain != []
    ensures w.inst.head.Queued? ==> BelowInv(World(w.store, StartJob(w.inst)), b)
    ensures w.inst.head.AwaitingLoad? && w.inst.loading.Loaded? ==> BelowInv(World(w.store, ProceedJob(w.inst)), b)
  {
    BelowAtFirst(b);
    QuietPop(w.inst, true);
    PopKeepsBook(w.inst, true);
    hide Below, Sum, PopJob, Shape;
  }

  lemma BelowStep(x: Extractor, w: World, e: Event, b: WorkflowBudget)
    requires Shape(w.inst) && StopExact(w.inst) && BelowInv(w, b) && Enabled(w, e)
    requires e.Crash? ==> e.budget == b
    ensures BelowInv(Next(x, w, e), b)
  {
    var i := w.inst;
    if Quiet(e) {
      QuietStep(x, w, e);
      if e.Proceed? {
        GoBelow(i, e.id);
        assert CallFits(i, i.calls[e.id]);
        hide Go, Enabled, Shape, Quiet, StopExact, Below, Sum;
      } else {
        QuietRecent(x, w, e);
        hide Next, Enabled, Shape, Quiet, StopExact, Below, Sum;
      }
    } else {
      BelowAtFirst(b);
      hide Complete, InstallLoad, NoteSpend, StartJob, ProceedJob, Charge, TaskIds, Below, Sum, CallFits;
      match e
      case LoadOk => InstallBelow(i, w.store);
      case Reused(id, taskId, from) =>
        assert CallFits(i, i.calls[id]) && i.loading.Loaded? by { LoadedWhenFlying(i, id); }
        CompleteBelow(i, id, taskId, i.objects[i.calls[id].gen][from].result, None);
      case Completed(id, result) =>
        assert CallFits(i, i.calls[id]) && i.loading.Loaded? by { LoadedWhenFlying(i, id); }
        CompleteBelow(i, id, TaskIdOf(i.calls[id]), result, Some(Charge(x, result)));
      case JobStarts => JobBelow(w, b);
      case JobProceeds => JobBelow(w, b);
      case StoreLands =>
      case RecordSpend(delta) => NoteBelow(i, delta);
      case Crash(_) =>
    }
  }

  lemma LoadedWhenFlying(i: Instance, id: nat)
    requires Shape(i) && id in i.calls && Flying(i.calls[id].phase)
    ensures CallFits(i, i.calls[id]) && i.loading.Loaded?
  {
  }

  // ----- Steps in flight -----

  predicate Settled(p: Phase) {
    p.Returned? || p.Threw?
  }

  /** A turn settles calls or moves one forward; only Proceed lets a call fly. */
  ghost predicate Moves(i: Instance, i': Instance, e: Event) {
    && (forall id <- i'.calls :: !Settled(i'.calls[id].phase) ==>
          (e.CallStep? && id == e.id) || (id in i.calls && !Settled(i.calls[id].phase)))
    && (forall id <- i'.calls :: Flying(i'.calls[id].phase) ==>
          id in i.calls && (Flying(i.calls[id].phase) || e == Proceed(id)))
  }

  lemma PopMoves(i: Instance, ok: bool, e: Event)
    requires i.chain != []
    ensures Moves(i, PopJob(i, ok), e)
  {
  }

  lemma RejectMoves(i: Instance, e: Event)
    ensures Moves(i, RejectLoad(i), e)
  {
    var s := i.(loading := Idle, calls := FailLoaders(i.calls));
    assert Moves(i, s, e);
    if s.head.AwaitingLoad? && s.chain != [] { PopMoves(s, false, e); }
    hide PopJob, FailLoaders;
  }

  lemma CompleteMoves(i: Instance, id: nat, taskId: string, result: string, charge: Option<Spend>, e: Event)
    requires id in i.calls && i.calls[id].gen in i.objects && Flying(i.calls[id].phase)
    ensures var i' := Complete(i, id, taskId, result, charge);
            Moves(i, i', e) && id in i'.calls && !Flying(i'.calls[id].phase)
  {
    hide BookCharge, BookWrite, AddSpend;
  }

  lemma SetMoves(i: Instance, id: nat, p: Phase, e: Event)
    requires id in i.calls && !Settled(i.calls[id].phase)
    requires Flying(p) ==> Flying(i.calls[id].phase) || e == Proceed(id)
    ensures Moves(i, SetPhase(i, id, p), e)
  {
  }

  lemma GoMoves(i: Instance, id: nat)
    requires InPhase(i, id) && i.calls[id].phase.Ready?
    ensures Moves(i, Go(i, id), Proceed(id))
  {
    hide SetPhase;
    var c := i.calls[id];
    var cp := i.objects[c.gen];
    if c.name in cp { SetMoves(i, id, Returned(cp[c.name].result), Proceed(id)); }
    SetMoves(i, id, Threw(if i.aborted then EmergencyStopped else OverBudgetStop), Proceed(id));
    SetMoves(i.(book := i.book.(recent := [])), id, if c.kind.RunStep? then Dispatching else Producing, Proceed(id));
  }

  lemma StepMoves(x: Extractor, w: World, e: Event)
    requires Enabled(w, e) && !e.Crash? && Shape(w.inst)
    ensures Moves(w.inst, Next(x, w, e).inst, e)
  {
    hide Complete, InstallLoad, RejectLoad, NoteSpend, SetPhase, Go, PopJob, Charge, TaskIds, Shape, Snapshot;
    var i := w.inst;
    match e
    case LoadFails => RejectMoves(i, e);
    case LoadOk => OthersKeepCalls(i, RawTotals(Missing, Missing), w.store);
    case RecordSpend(delta) => OthersKeepCalls(i, delta, None);
    case Resume(id) => SetMoves(i, id, if i.calls[id].gen == i.generation then Ready else Threw(NotStarted), e);
    case Proceed(id) => GoMoves(i, id);
    case Dispatched(id, taskId) => SetMoves(i, id, Waiting(taskId), e);
    case WorkFails(id) => SetMoves(i, id, Threw(WorkFailed), e);
    case Reused(id, taskId, from) =>
      CompleteMoves(i, id, taskId, i.objects[i.calls[id].gen][from].result, None, e);
    case Completed(id, result) =>
      CompleteMoves(i, id, TaskIdOf(i.calls[id]), result, Some(Charge(x, result)), e);
    case JobProceeds => PopMoves(i, true, e);
    case JobSettles(ok) => PopMoves(i, ok, e);
    case _ =>
      hide Next, Enabled, Moves;
      PlainMoves(x, w, e);
  }

  lemma PlainMoves(x: Extractor, w: World, e: Event)
    requires Enabled(w, e)
    requires e.CallStep? || e.CallIsResuming? || e.CallClear? || e.Abort? || e.JobStarts? || e.StoreLands?
    ensures Moves(w.inst, Next(x, w, e).inst, e)
  {
  }

  lemma OthersKeepCalls(i: Instance, delta: RawTotals, store: Option<Record>)
    ensures InstallLoad(i, store).calls == i.calls && NoteSpend(i, delta).calls == i.calls
  {
    hide OverBudget, CleanTotals;
  }

  /** The calls that have been let through and can still be charged. */
  function FlyingCalls(i: Instance): set<nat> {
    set id | id in i.calls && Flying(i.calls[id].phase)
  }

  function Times(n: nat, u: Spend): Spend {
    Spend(n as real * u.tokens, n as real * u.cost)
  }

  lemma TimesSums(m: nat, n: nat, u: Spend)
    requires m <= n && NonNegative(u)
    ensures AtMost(Times(m, u), Times(n, u)) && NonNegative(Times(m, u))
    ensures Times(m + 1, u) == Plus(Times(m, u), u) && Times(0, u) == ZERO && Times(1, u) == u
  {
    RealTimes(m, n, u.tokens);
    RealTimes(m, n, u.cost);
  }

  lemma RealTimes(m: nat, n: nat, v: real)
    requires m <= n && v >= 0.0
    ensures 0.0 <= m as real * v <= n as real * v && (m + 1) as real * v == m as real * v + v
  {
    assert n as real * v == m as real * v + (n - m) as real * v;
    assert (n - m) as real * v >= 0.0;
  }

  /** What was charged since the last dispatch, against the steps that have landed since. */
  ghost predicate Landed(recent: seq<Spend>, deltas: Spend, landed: nat, u: Spend) {
    AtMost(Sum(recent), Plus(Times(landed, u), deltas)) && NonNegative(deltas)
  }

  ghost predicate Bounded(w: World, n: nat, u: Spend) {
    var i := w.inst;
    && |FlyingCalls(i)| <= n
    && Landed(i.book.recent, i.book.deltas, n - |FlyingCalls(i)|, u)
    && (!i.loading.Loaded? ==> Landed(i.book.recent, i.book.deltas, 0, u))
    && (w.store.Some? ==> Landed(w.store.value.book.recent, w.store.value.book.deltas, n, u))
    && (i.head.Storing? ==> Landed(i.head.record.book.recent, i.head.record.book.deltas, n, u))
  }

  lemma MoreLanded(recent: seq<Spend>, deltas: Spend, m: nat, n: nat, u: Spend)
    requires Landed(recent, deltas, m, u) && m <= n && NonNegative(u)
    ensures Landed(recent, deltas, n, u)
  {
    TimesSums(m, n, u);
    hide Times, Sum;
  }

  lemma NothingLanded(deltas: Spend, n: nat, u: Spend)
    requires NonNegative(deltas) && NonNegative(u)
    ensures Landed([], deltas, n, u)
  {
    TimesSums(0, n, u);
    hide Times;
  }

  lemma ChargeLands(recent: seq<Spend>, deltas: Spend, m: nat, u: Spend, c: Spend)
    requires Landed(recent, deltas, m, u) && AtMost(c, u) && NonNegative(u)
    ensures Landed(recent + [c], deltas, m + 1, u)
  {
    SumSnoc(recent, c);
    TimesSums(m, m, u);
    hide Times, Sum;
  }

  lemma DeltaLands(recent: seq<Spend>, deltas: Spend, m: nat, u: Spend, c: Spend)
    requires Landed(recent, deltas, m, u) && NonNegative(c)
    ensures Landed(recent + [c], Plus(deltas, c), m, u)
  {
    SumSnoc(recent, c);
    hide Times, Sum;
  }

  lemma LoadLands(recent: seq<Spend>, deltas: Spend, more: seq<Spend>, saved: Spend, n: nat, u: Spend)
    requires Landed(recent, deltas, 0, u) && Landed(more, saved, n, u) && NonNegative(u)
    ensures Landed(recent + more, Plus(deltas, saved), n, u)
  {
    SumAppend(recent, more);
    TimesSums(0, n, u);
    hide Times, Sum;
  }

  lemma NoMoreFlying(i: Instance, i': Instance, e: Event)
    requires Moves(i, i', e) && !e.Proceed?
    ensures |FlyingCalls(i')| <= |FlyingCalls(i)|
  {
    FewerKeys(FlyingCalls(i'), FlyingCalls(i));
  }

  lemma OneFewerFlying(i: Instance, i': Instance, e: Event, id: nat)
    requires Moves(i, i', e) && !e.Proceed? && id in i.calls && Flying(i.calls[id].phase)
    requires id in i'.calls && !Flying(i'.calls[id].phase)
    ensures |FlyingCalls(i')| + 1 <= |FlyingCalls(i)|
  {
    FewerKeys(FlyingCalls(i'), FlyingCalls(i) - {id});
  }

  lemma InstallRecent(i: Instance, store: Option<Record>)
    ensures var i' := InstallLoad(i, store);
            && i'.book.recent == i.book.recent + (if store.Some? then store.value.book.recent else [])
            && i'.head == i.head && i'.calls == i.calls && i'.loading.Loaded?
  {
    hide OverBudget, CleanTotals;
  }

  lemma JobRecent(i: Instance)
    requires i.chain != [] && i.generation in i.objects
    ensures StartJob(i).book == i.book || StartJob(i).book == EMPTY_BOOK
    ensures !StartJob(i).head.Storing? && StartJob(i).calls == i.calls
    ensures i.loading.Loaded? ==> StartJob(i).loading.Loaded?
    ensures ProceedJob(i).book == i.book && ProceedJob(i).loading == i.loading
    ensures ProceedJob(i).head.Storing? ==> ProceedJob(i).head.record.book == i.book
  {
    PopKeepsBook(i, true);
    QuietPop(i, true);
    hide PopJob;
  }

  lemma GoRecent(i: Instance, id: nat)
    requires InPhase(i, id)
    ensures var i' := Go(i, id);
            && i'.head == i.head && i'.loading == i.loading && i'.book.deltas == i.book.deltas && id in i'.calls
            && i'.book.recent == if Flying(i'.calls[id].phase) then [] else i.book.recent
  {
  }

  lemma ProceedBounded(w: World, i': Instance, id: nat, n: nat, u: Spend)
    requires Bounded(w, n, u) && NonNegative(u) && |FlyingCalls(i')| <= n && w.inst.loading.Loaded?
    requires Moves(w.inst, i', Proceed(id))
    requires i'.head == w.inst.head && i'.loading == w.inst.loading && i'.book.deltas == w.inst.book.deltas
    requires id in i'.calls
    requires i'.book.recent == if Flying(i'.calls[id].phase) then [] else w.inst.book.recent
    ensures Bounded(World(w.store, i'), n, u)
  {
    hide Landed;
    var i := w.inst;
    if Flying(i'.calls[id].phase) {
      assert NonNegative(i.book.deltas) by { LandedDeltas(i.book.recent, i.book.deltas, n - |FlyingCalls(i)|, u); }
      NothingLanded(i.book.deltas, n - |FlyingCalls(i')|, u);
    } else {
      FewerKeys(FlyingCalls(i'), FlyingCalls(i));
      MoreLanded(i.book.recent, i.book.deltas, n - |FlyingCalls(i)|, n - |FlyingCalls(i')|, u);
    }
  }

  lemma LandedDeltas(recent: seq<Spend>, deltas: Spend, m: nat, u: Spend)
    requires Landed(recent, deltas, m, u)
    ensures NonNegative(deltas)
  {
  }

  lemma SameBounded(w: World, i': Instance, e: Event, n: nat, u: Spend)
    requires Bounded(w, n, u) && NonNegative(u) && Moves(w.inst, i', e) && !e.Proceed?
    requires i'.book.recent == w.inst.book.recent && i'.book.deltas == w.inst.book.deltas
    requires !i'.loading.Loaded? ==> !w.inst.loading.Loaded?
    requires i'.head.Storing? ==> w.inst.head.Storing? && i'.head.record == w.inst.head.record
    ensures Bounded(World(w.store, i'), n, u)
  {
    NoMoreFlying(w.inst, i', e);
    MoreLanded(w.inst.book.recent, w.inst.book.deltas, n - |FlyingCalls(w.inst)|, n - |FlyingCalls(i')|, u);
    hide Landed, FlyingCalls, Moves;
  }

  lemma QuietBounded(x: Extractor, w: World, e: Event, n: nat, u: Spend)
    requires Shape(w.inst) && Enabled(w, e) && Quiet(e) && Bounded(w, n, u) && NonNegative(u)
    requires |FlyingCalls(Next(x, w, e).inst)| <= n
    ensures Bounded(Next(x, w, e), n, u)
  {
    StepMoves(x, w, e);
    QuietStep(x, w, e);
    if e.Proceed? {
      assert CallFits(w.inst, w.inst.calls[e.id]);
      GoRecent(w.inst, e.id);
      ReadyLoaded(w.inst, e.id);
      hide Bounded, Moves, Shape, FlyingCalls, Go;
      ProceedBounded(w, Next(x, w, e).inst, e.id, n, u);
    } else {
      QuietRecent(x, w, e);
      LoadFailsUnloaded(w, e);
      hide Bounded, Moves, Shape, Enabled, Next, FlyingCalls;
      SameBounded(w, Next(x, w, e).inst, e, n, u);
    }
  }

  lemma ReadyLoaded(i: Instance, id: nat)
    requires Shape(i) && id in i.calls && i.calls[id].phase.Ready?
    ensures i.loading.Loaded?
  {
    assert CallFits(i, i.calls[id]);
  }

  lemma LoadFailsUnloaded(w: World, e: Event)
    requires Enabled(w, e)
    ensures e.LoadFails? ==> !w.inst.loading.Loaded?
  {
  }

  lemma NoneFlyingUnloaded(i: Instance)
    requires Shape(i) && !i.loading.Loaded?
    ensures FlyingCalls(i) == {}
  {
    forall id | id in i.calls ensures !Flying(i.calls[id].phase) { assert CallFits(i, i.calls[id]); }
  }

  lemma InstallBounded(w: World, n: nat, u: Spend)
    requires Shape(w.inst) && w.inst.loading.InFlight? && Bounded(w, n, u) && NonNegative(u)
    ensures Bounded(World(w.store, InstallLoad(w.inst, w.store)), n, u)
  {
    var i := w.inst;
    NoneFlyingUnloaded(i);
    InstallRecent(i, w.store);
    InstallAdds(i, w.store);
    NothingLanded(ZERO, n, u);
    if w.store.Some? {
      LoadLands(i.book.recent, i.book.deltas, w.store.value.book.recent, w.store.value.book.deltas, n, u);
    } else {
      LoadLands(i.book.recent, i.book.deltas, [], ZERO, n, u);
    }
    hide Landed, Shape, InstallLoad, CleanTotals, Plus;
  }

  lemma NoteBounded(w: World, delta: RawTotals, n: nat, u: Spend)
    requires Bounded(w, n, u)
    ensures Bounded(World(w.store, NoteSpend(w.inst, delta)), n, u)
  {
    var i := w.inst;
    NoteRecent(i, delta);
    NoteAdds(i, delta);
    DeltaLands(i.book.recent, i.book.deltas, n - |FlyingCalls(i)|, u, CleanTotals(delta));
    if !i.loading.Loaded? { DeltaLands(i.book.recent, i.book.deltas, 0, u, CleanTotals(delta)); }
    assert FlyingCalls(NoteSpend(i, delta)) == FlyingCalls(i);
    hide Landed, NoteSpend, CleanTotals, Plus;
  }

  lemma ChargeBounded(w: World, i': Instance, e: Event, c: Spend, n: nat, u: Spend)
    requires Bounded(w, n, u) && NonNegative(u) && AtMost(c, u)
    requires e.Completed? && e.id in w.inst.calls && Flying(w.inst.calls[e.id].phase)
    requires Moves(w.inst, i', e) && e.id in i'.calls && !Flying(i'.calls[e.id].phase)
    requires i'.book.recent == w.inst.book.recent + [c] && i'.book.deltas == w.inst.book.deltas
    requires i'.loading.Loaded? && i'.head == w.inst.head
    ensures Bounded(World(w.store, i'), n, u)
  {
    var i := w.inst;
    OneFewerFlying(i, i', e, e.id);
    var m := n - |FlyingCalls(i)|;
    ChargeLands(i.book.recent, i.book.deltas, m, u, c);
    MoreLanded(i'.book.recent, i'.book.deltas, m + 1, n - |FlyingCalls(i')|, u);
    hide Landed, FlyingCalls, Moves;
  }

  lemma StartJobBounded(w: World, n: nat, u: Spend)
    requires Bounded(w, n, u) && NonNegative(u) && w.inst.chain != [] && w.inst.generation in w.inst.objects
    ensures Bounded(World(w.store, StartJob(w.inst)), n, u)
  {
    var i := w.inst;
    JobRecent(i);
    assert FlyingCalls(StartJob(i)) == FlyingCalls(i);
    NothingLanded(ZERO, n - |FlyingCalls(i)|, u);
    NothingLanded(ZERO, 0, u);
    hide Landed, StartJob, FlyingCalls;
  }

  lemma ProceedJobBounded(w: World, n: nat, u: Spend)
    requires Bounded(w, n, u) && NonNegative(u) && w.inst.chain != [] && w.inst.generation in w.inst.objects
    requires Moves(w.inst, ProceedJob(w.inst), JobProceeds) && w.inst.head.AwaitingLoad?
    ensures Bounded(World(w.store, ProceedJob(w.inst)), n, u)
  {
    hide Landed, ProceedJob, FlyingCalls, Moves;
    var i := w.inst;
    JobRecent(i);
    NoMoreFlying(i, ProceedJob(i), JobProceeds);
    MoreLanded(i.book.recent, i.book.deltas, n - |FlyingCalls(i)|, n, u);
    MoreLanded(i.book.recent, i.book.deltas, n - |FlyingCalls(i)|, n - |FlyingCalls(ProceedJob(i))|, u);
  }

  lemma FreshBounded(w: World, budget: WorkflowBudget, n: nat, u: Spend)
    requires NonNegative(u)
    requires w.store.Some? ==> Landed(w.store.value.book.recent, w.store.value.book.deltas, n, u)
    ensures Bounded(World(w.store, Fresh(budget)), n, u)
  {
    assert FlyingCalls(Fresh(budget)) == {};
    NothingLanded(ZERO, n, u);
    NothingLanded(ZERO, 0, u);
    hide Landed, FlyingCalls;
  }

  lemma LoudBounded(x: Extractor, w: World, e: Event, n: nat, u: Spend)
    requires Shape(w.inst) && Enabled(w, e) && !Quiet(e) && Bounded(w, n, u) && NonNegative(u)
    requires e.Completed? ==> AtMost(Charge(x, e.result), u)
    ensures Bounded(Next(x, w, e), n, u)
  {
    if !e.Crash? { StepMoves(x, w, e); }
    hide Complete, InstallLoad, NoteSpend, StartJob, ProceedJob, Charge, TaskIds, Shape, Moves, Landed, FlyingCalls;
    var i := w.inst;
    match e
    case LoadOk => InstallBounded(w, n, u);
    case RecordSpend(delta) => NoteBounded(w, delta, n, u);
    case Reused(id, taskId, from) =>
      LoadedWhenFlying(i, id);
      CompleteRecent(i, id, taskId, i.objects[i.calls[id].gen][from].result, None);
      SameBounded(w, Next(x, w, e).inst, e, n, u);
    case Completed(id, result) =>
      LoadedWhenFlying(i, id);
      CompleteRecent(i, id, TaskIdOf(i.calls[id]), result, Some(Charge(x, result)));
      ChargeBounded(w, Next(x, w, e).inst, e, Charge(x, result), n, u);
    case JobStarts => StartJobBounded(w, n, u);
    case JobProceeds => ProceedJobBounded(w, n, u);
    case StoreLands => LandBounded(w, n, u);
    case Crash(budget) => FreshBounded(w, budget, n, u);
  }

  lemma LandBounded(w: World, n: nat, u: Spend)
    requires Bounded(w, n, u) && (w.inst.head.Storing? || w.inst.head.Wiping?)
    ensures Bounded(World(if w.inst.head.Storing? then Some(w.inst.head.record) else None, Land(w.inst)), n, u)
  {
    assert FlyingCalls(Land(w.inst)) == FlyingCalls(w.inst);
    hide Landed, FlyingCalls;
  }

  lemma {:induction false} BoundedRun(x: Extractor, ws: seq<World>, es: seq<Event>, n: nat, u: Spend, k: nat)
    requires IsRun(x, ws, es) && k < |ws| && NonNegative(u)
    requires forall j :: 0 <= j <= k ==> |FlyingCalls(ws[j].inst)| <= n
    requires forall j :: 0 <= j < k && es[j].Completed? ==> AtMost(Charge(x, es[j].result), u)
    ensures Bounded(ws[k], n, u)
  {
    if k == 0 {
      FreshBounded(ws[0], ws[0].inst.budget, n, u);
    } else {
      var w, e := ws[k - 1], es[k - 1];
      assert Enabled(w, e) && ws[k] == Next(x, w, e);
      BoundedRun(x, ws, es, n, u, k - 1);
      LedgerRun(x, ws, es, k - 1);
      hide IsRun, Next, Enabled, Shape, Bounded, FlyingCalls, Quiet, Charge;
      if Quiet(e) { QuietBounded(x, w, e, n, u); } else { LoudBounded(x, w, e, n, u); }
    }
  }

  lemma {:induction false} BelowRun(x: Extractor, ws: seq<World>, es: seq<Event>, b: WorkflowBudget, k: nat)
    requires IsRun(x, ws, es) && k < |ws| && ws[0].inst.budget == b
    requires forall j :: 0 <= j < k && es[j].Crash? ==> es[j].budget == b
    ensures Shape(ws[k].inst) && StopExact(ws[k].inst) && BelowInv(ws[k], b)
  {
    if k == 0 {
      NothingIsUnder(b);
      FreshAccounts(x, b);
      BelowAtFirst(b);
      hide Below, Sum;
    } else {
      var w, e := ws[k - 1], es[k - 1];
      assert Enabled(w, e) && ws[k] == Next(x, w, e);
      BelowRun(x, ws, es, b, k - 1);
      hide IsRun, Next, Enabled, Shape, StopExact, BelowInv;
      ShapeStep(x, w, e);
      StopStep(x, w, e);
      BelowStep(x, w, e, b);
    }
  }

  /**
   * The overshoot is bounded: under one budget, over any number of crashes and resumes, when at most n
   * steps are in flight at a time and none is charged more than u, the totals stay below a ceiling plus
   * n times u, plus what recordSpend added.
   */
  lemma OvershootBounded(x: Extractor, ws: seq<World>, es: seq<Event>, b: WorkflowBudget, n: nat, u: Spend, k: nat)
    requires IsRun(x, ws, es) && k < |ws| && ws[0].inst.budget == b && NonNegative(u)
    requires forall j :: 0 <= j < k && es[j].Crash? ==> es[j].budget == b
    requires forall j :: 0 <= j <= k ==> |FlyingCalls(ws[j].inst)| <= n
    requires forall j :: 0 <= j < k && es[j].Completed? ==> AtMost(Charge(x, es[j].result), u)
    ensures var i := ws[k].inst;
            && (IsCapped(b.maxTokens) ==>
                  i.totals.tokens < b.maxTokens.value + n as real * u.tokens + i.book.deltas.tokens)
            && (IsCapped(b.maxCost) ==> i.totals.cost < b.maxCost.value + n as real * u.cost + i.book.deltas.cost)
  {
    BelowRun(x, ws, es, b, k);
    BoundedRun(x, ws, es, n, u, k);
    var f := n - |FlyingCalls(ws[k].inst)|;
    MoreLanded(ws[k].inst.book.recent, ws[k].inst.book.deltas, f, n, u);
    hide IsRun, Shape, StopExact, FlyingCalls, Sum;
  }

  // ----- Steps called one after the other -----

  /** A step is called only after all earlier ones have returned or thrown, and nothing is fed in by recordSpend. */
  ghost predicate Sequential(w: World, e: Event) {
    !e.RecordSpend? && (e.CallStep? ==> forall id <- w.inst.calls :: Settled(w.inst.calls[id].phase))
  }

  ghost predicate OneAtATime(i: Instance) {
    forall a, b :: a in i.calls && b in i.calls && !Settled(i.calls[a].phase) && !Settled(i.calls[b].phase) ==> a == b
  }

  lemma OneStep(x: Extractor, w: World, e: Event)
    requires Shape(w.inst) && OneAtATime(w.inst) && Enabled(w, e) && Sequential(w, e)
    ensures OneAtATime(Next(x, w, e).inst)
  {
    if !e.Crash? {
      StepMoves(x, w, e);
      hide Next, Enabled, Shape;
    }
  }

  lemma OneFlies(i: Instance)
    requires OneAtATime(i)
    ensures |FlyingCalls(i)| <= 1
  {
    if FlyingCalls(i) != {} {
      var id :| id in FlyingCalls(i);
      assert FlyingCalls(i) == {id};
    }
  }

  predicate NothingRecorded(w: World) {
    && w.inst.book.deltas == ZERO
    && (w.store.Some? ==> w.store.value.book.deltas == ZERO)
    && (w.inst.head.Storing? ==> w.inst.head.record.book.deltas == ZERO)
  }

  lemma NothingRecordedStep(x: Extractor, w: World, e: Event)
    requires Shape(w.inst) && Enabled(w, e) && NothingRecorded(w) && !e.RecordSpend?
    ensures NothingRecorded(Next(x, w, e))
  {
    StepAdds(x, w, e);
    PlusZero(ZERO);
    if Next(x, w, e).store.Some? { StoreFrom(x, w, e); }
    if Next(x, w, e).inst.head.Storing? { HeadFrom(x, w, e); }
    hide Next, Enabled, Shape, Plus;
  }

  lemma {:induction false} SequentialRun(x: Extractor, ws: seq<World>, es: seq<Event>, k: nat)
    requires IsRun(x, ws, es) && k < |ws| && forall j :: 0 <= j < k ==> Sequential(ws[j], es[j])
    ensures OneAtATime(ws[k].inst) && NothingRecorded(ws[k])
  {
    if k > 0 {
      var w, e := ws[k - 1], es[k - 1];
      assert Enabled(w, e) && ws[k] == Next(x, w, e) && Sequential(w, e);
      SequentialRun(x, ws, es, k - 1);
      LedgerRun(x, ws, es, k - 1);
      hide IsRun, Next, Enabled, Shape, OneAtATime, NothingRecorded;
      OneStep(x, w, e);
      NothingRecordedStep(x, w, e);
    }
  }

  /** When the steps are called one after the other, the totals stay below a ceiling plus the charge of one step. */
  lemma SequentialOvershoot(x: Extractor, ws: seq<World>, es: seq<Event>, b: WorkflowBudget, u: Spend, k: nat)
    requires IsRun(x, ws, es) && k < |ws| && ws[0].inst.budget == b && NonNegative(u)
    requires forall j :: 0 <= j < k && es[j].Crash? ==> es[j].budget == b
    requires forall j :: 0 <= j < k ==> Sequential(ws[j], es[j])
    requires forall j :: 0 <= j < k && es[j].Completed? ==> AtMost(Charge(x, es[j].result), u)
    ensures var i := ws[k].inst;
            && (IsCapped(b.maxTokens) ==> i.totals.tokens < b.maxTokens.value + u.tokens)
            && (IsCapped(b.maxCost) ==> i.totals.cost < b.maxCost.value + u.cost)
  {
    forall j | 0 <= j <= k ensures |FlyingCalls(ws[j].inst)| <= 1 {
      SequentialRun(x, ws, es, j);
      OneFlies(ws[j].inst);
    }
    SequentialRun(x, ws, es, k);
    OvershootBounded(x, ws, es, b, 1, u, k);
    hide IsRun;
  }
}
