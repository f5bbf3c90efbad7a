/**
 * The publisher as an object: the tallies changed in place and the control flow of wrapHandler
 * around one attempt, with what it shows on the board (agent-state-publisher.ts).
 */
module AgentStatePublisherObject {
  import opened Budget
  import opened InsertionOrder
  import opened TokenLedger
  import opened TokenLedgerNumbers

  const MAX_REMEMBERED_STOPS := 1_000

  datatype AgentRow = Executing | Thinking | Idle | Error
  datatype Card = Doing | Done | Blocked | Stopped

  /** One state message: the agent's row and the task's card, either may be absent. */
  datatype Publication = Publication(row: Option<AgentRow>, card: Option<Card>)

  /** What an attempt throws. */
  datatype Thrown = CapReached(breach: CapBreach) | StopError | ControlError | Failed(usage: Usage) | OtherError

  const ERROR_SHOWN := Publication(Some(Error), Some(Blocked))

  predicate ShowsDone(ps: seq<Publication>) {
    exists p <- ps :: p.card == Some(Done)
  }

  predicate OnlyStopped(ps: seq<Publication>) {
    forall p <- ps :: p.card == Some(Stopped) && (p.row.None? || p.row == Some(Idle))
  }

  predicate NoRow(ps: seq<Publication>) {
    forall p <- ps :: p.row.None?
  }

  /** A finite, positive cap is reached. */
  predicate MeetsCap(cap: Number, used: real) {
    cap.Finite? && cap.value > 0.0 && used >= cap.value
  }

  function UsedBy(tallies: map<TaskId, real>, task: TaskId): real {
    if task in tallies then tallies[task] else 0.0
  }

  class AgentStatePublisher {
    const caps: Caps
    var totalTokensUsed: real
    /** A Map keeps its keys in insertion order: the tallies with that order. */
    var order: seq<TaskId>
    var taskTokensUsed: map<TaskId, real>
    var attemptSeq: nat
    var currentTaskId: Option<TaskId>
    /** Oldest first. */
    var stoppedTaskIds: seq<TaskId>

    ghost function Ledger(): Ledger
      reads this
    {
      TokenLedger.Ledger.Ledger(totalTokensUsed, order, taskTokensUsed)
    }

    ghost predicate Valid()
      reads this
    {
      LedgerInv(Ledger()) && |stoppedTaskIds| <= MAX_REMEMBERED_STOPS
    }

    constructor (caps: Caps)
      ensures Valid() && Ledger() == FRESH && this.caps == caps
    {
      this.caps := caps;
      totalTokensUsed, order, taskTokensUsed := 0.0, [], map[];
      attemptSeq, currentTaskId, stoppedTaskIds := 0, None, [];
    }

    /** A tally is moved to the end by deleting and setting it; past the limit the first one goes. */
    method AccountTokens(task: TaskId, tokens: real) returns (breach: Option<CapBreach>)
      requires Valid() && tokens >= 0.0
      modifies this`totalTokensUsed, this`order, this`taskTokensUsed
      ensures Valid() && Ledger() == Counted(old(Ledger()), task, tokens)
      ensures breach == BreachAfter(caps, old(Ledger()), task, tokens)
    {
      hide LedgerInv, Without;
      CountedInv(Ledger(), task, tokens);
      ghost var before := Ledger();
      totalTokensUsed := totalTokensUsed + tokens;
      var taskUsed := (if task in taskTokensUsed then taskTokensUsed[task] else 0.0) + tokens;
      order := Without(order, task) + [task];
      taskTokensUsed := taskTokensUsed[task := taskUsed];
      assert Ledger() == Pushed(before, task, tokens);
      if |taskTokensUsed| > MAX_TRACKED_TASKS {
        assert order == Pushed(before, task, tokens).order && order != [];
        var oldest := order[0];
        order, taskTokensUsed := order[1..], taskTokensUsed - {oldest};
      }
      breach := if Reached(caps.task, taskUsed) then Some(TaskCap)
                else if Reached(caps.agent, totalTokensUsed) then Some(AgentCap) else None;
    }

    /** True when the stop of this task was not reported yet; at most 1,000 are remembered. */
    method MarkStopped(task: TaskId) returns (first: bool)
      requires |stoppedTaskIds| <= MAX_REMEMBERED_STOPS
      modifies this`stoppedTaskIds
      ensures |stoppedTaskIds| <= 1_000 && first == (task !in old(stoppedTaskIds))
      ensures task in stoppedTaskIds
      ensures stoppedTaskIds == if !first then old(stoppedTaskIds)
                                else if |old(stoppedTaskIds)| < 1_000 then old(stoppedTaskIds) + [task]
                                else old(stoppedTaskIds)[1..] + [task]
    {
      if task in stoppedTaskIds {
        return false;
      }
      ghost var before := stoppedTaskIds;
      stoppedTaskIds := stoppedTaskIds + [task];
      if |stoppedTaskIds| > MAX_REMEMBERED_STOPS {
        stoppedTaskIds := stoppedTaskIds[1..];
        assert stoppedTaskIds == before[1..] + [task];
      }
      first := true;
    }

    method PublishStopped(task: TaskId) returns (published: seq<Publication>)
      requires Valid()
      modifies this`stoppedTaskIds, this`currentTaskId
      ensures Valid() && Ledger() == old(Ledger()) && OnlyStopped(published) && |published| <= 1
      ensures published == [] <==> task in old(stoppedTaskIds)
      ensures old(currentTaskId) != Some(task) ==> NoRow(published) && currentTaskId == old(currentTaskId)
    {
      var first := MarkStopped(task);
      if !first {
        return [];
      }
      if currentTaskId != Some(task) {
        return [Publication(None, Some(Stopped))];
      }
      currentTaskId := None;
      published := [Publication(Some(Idle), Some(Stopped))];
    }

    /** A failed attempt's usage is counted; a cap it reaches is raised instead of the failure. */
    method AccountFailedAttempt(task: TaskId, err: Thrown) returns (failure: Thrown)
      requires Valid()
      modifies this`totalTokensUsed, this`order, this`taskTokensUsed
      ensures Valid()
      ensures Ledger() == if err.Failed? then Counted(old(Ledger()), task, Tokens(err.usage)) else old(Ledger())
      ensures failure == if err.Failed? && BreachAfter(caps, old(Ledger()), task, Tokens(err.usage)).Some?
                         then CapReached(BreachAfter(caps, old(Ledger()), task, Tokens(err.usage)).value) else err
    {
      failure := err;
      if err.Failed? {
        var breach := AccountTokens(task, Tokens(err.usage));
        if breach.Some? {
          failure := CapReached(breach.value);
        }
      }
    }

    /** The catch block of wrapHandler. */
    method Catch(attempt: nat, task: TaskId, err: Thrown, aborted: Option<AbortReason>)
      returns (thrown: Thrown, published: seq<Publication>)
      requires Valid()
      modifies this`totalTokensUsed, this`order, this`taskTokensUsed, this`stoppedTaskIds, this`currentTaskId
      ensures Valid() && !ShowsDone(published)
      ensures Ledger() == if err.Failed? then Counted(old(Ledger()), task, Tokens(err.usage)) else old(Ledger())
      ensures err.StopError? || aborted == Some(EmergencyStop) <==> thrown == StopError
      ensures thrown == StopError ==> OnlyStopped(published)
      ensures thrown != StopError && attempt != attemptSeq ==> NoRow(published) && currentTaskId == old(currentTaskId)
      ensures |published| <= 1
      ensures thrown != StopError && attempt == attemptSeq ==>
                published == [ERROR_SHOWN] && currentTaskId.None?
      ensures thrown != StopError ==>
                thrown == if err.Failed? && BreachAfter(caps, old(Ledger()), task, Tokens(err.usage)).Some?
                          then CapReached(BreachAfter(caps, old(Ledger()), task, Tokens(err.usage)).value) else err
    {
      var failure := AccountFailedAttempt(task, err);
      hide Counted, BreachAfter, LedgerInv;
      if err.StopError? || aborted == Some(EmergencyStop) {
        thrown := StopError;
        published := PublishStopped(task);
        return;
      }
      thrown := failure;
      if attempt != attemptSeq {
        published := if currentTaskId == Some(task) then [] else [Publication(None, Some(Blocked))];
        return;
      }
      published := [ERROR_SHOWN];
      currentTaskId := None;
    }

    /** Up to the handler call: it is called exactly when both tallies are under their caps. */
    method BeginAttempt(task: TaskId, aborted: Option<AbortReason>)
      returns (attempt: nat, refused: Option<Thrown>, published: seq<Publication>)
      requires Valid()
      modifies this
      ensures Valid() && Ledger() == old(Ledger())
      ensures attempt == attemptSeq == old(attemptSeq) + 1
      ensures refused.Some? <==>
                MeetsCap(caps.agent, old(totalTokensUsed)) || MeetsCap(caps.task, UsedBy(old(taskTokensUsed), task))
      ensures refused.Some? && aborted != Some(EmergencyStop) ==>
                && refused.value.CapReached? && currentTaskId.None?
                && (refused.value.breach.AgentCap? <==> MeetsCap(caps.agent, old(totalTokensUsed)))
      ensures refused.None? ==> currentTaskId == Some(task) && task !in stoppedTaskIds
      ensures !ShowsDone(published)
    {
      attemptSeq := attemptSeq + 1;
      attempt := attemptSeq;
      var met := CapMet(caps, TokenLedger.Ledger.Ledger(totalTokensUsed, order, taskTokensUsed), task);
      if met.Some? {
        var thrown, shown := Catch(attempt, task, CapReached(met.value), aborted);
        return attempt, Some(thrown), shown;
      }
      WithoutShorter(stoppedTaskIds, task);
      stoppedTaskIds := Without(stoppedTaskIds, task);
      currentTaskId := Some(task);
      refused := None;
      published := [Publication(Some(Executing), Some(Doing)), Publication(Some(Thinking), None)];
    }

    lemma {:induction false} WithoutShorter(s: seq<TaskId>, task: TaskId)
      ensures |Without(s, task)| <= |s| && task !in Without(s, task)
    {
      if s != [] {
        WithoutShorter(s[..|s| - 1], task);
      }
    }

    lemma EndingInNumbers(ending: Ending, task: TaskId)
      requires Valid()
      ensures forall input, output :: Brings(ending, input, output) ==>
                && Spent(ending) == input + output
                && Finish(Ledger(), task, ending).total == totalTokensUsed + input + output
                && var breach := BreachAfter(caps, Ledger(), task, Spent(ending));
                   && (breach == Some(TaskCap) <==>
                         MeetsCap(caps.task, UsedBy(taskTokensUsed, task) + input + output))
                   && (breach == Some(AgentCap) <==>
                         !MeetsCap(caps.task, UsedBy(taskTokensUsed, task) + input + output) &&
                         MeetsCap(caps.agent, totalTokensUsed + input + output))
    {
      FinishTotal(Ledger(), task, ending);
      hide LedgerInv, Finish;
    }

    /** The end of wrapHandler, after the handler. */
    method Conclude(attempt: nat, task: TaskId, ending: Ending, aborted: Option<AbortReason>)
      returns (thrown: Option<Thrown>, published: seq<Publication>)
      requires Valid()
      modifies this
      ensures Valid() && Ledger() == Finish(old(Ledger()), task, ending)
      ensures thrown.None? <==>
              ending.Returned? && aborted.None? &&
              (ending.metadata.Some? ==> BreachAfter(caps, old(Ledger()), task, Spent(ending)).None?)
      ensures Counts(ending) && (ending.FailedAttempt? || aborted.None?) && aborted != Some(EmergencyStop) ==>
                forall b :: thrown == Some(CapReached(b)) <==>
                              BreachAfter(caps, old(Ledger()), task, Spent(ending)) == Some(b)
      ensures ShowsDone(published) <==> thrown.None?
      ensures published == [ERROR_SHOWN, ERROR_SHOWN] <==>
                ending.Returned? && aborted.None? && ending.metadata.Some? && attempt == old(attemptSeq) &&
                BreachAfter(caps, old(Ledger()), task, Spent(ending)).Some?
      ensures |published| > 1 ==>
                ending.Returned? && aborted.None? && ending.metadata.Some? &&
                BreachAfter(caps, old(Ledger()), task, Spent(ending)).Some?
      ensures aborted == Some(EmergencyStop) ==> thrown == Some(StopError) && OnlyStopped(published)
      ensures thrown.Some? && aborted.Some? && attempt != old(attemptSeq) && thrown != Some(StopError) ==>
                NoRow(published)
      ensures thrown == Some(StopError) <==> ending.ThrewStop? || aborted == Some(EmergencyStop)
      ensures attemptSeq == old(attemptSeq)
    {
      hide LedgerInv, Counted, BreachAfter, Tokens;
      var err: Thrown;
      var before: seq<Publication> := [];
      match ending {
      case Returned(metadata) =>
        if aborted.Some? {
          if metadata.Some? {
            var _ := AccountTokens(task, Tokens(metadata.value));
          }
          err := if aborted.value.EmergencyStop? then StopError else ControlError;
        } else {
          currentTaskId := None;
          var breach: Option<CapBreach> := None;
          if metadata.Some? {
            breach := AccountTokens(task, Tokens(metadata.value));
          }
          if breach.None? {
            published := [Publication(Some(Idle), Some(Done))];
            assert published[0].card == Some(Done);
            return None, published;
          }
          before := [ERROR_SHOWN];
          err := CapReached(breach.value);
        }
      case FailedAttempt(usage) => err := Failed(usage);
      case ThrewStop => err := StopError;
      case ThrewOther => err := OtherError;
      }
      var t, after := Catch(attempt, task, err, aborted);
      thrown, published := Some(t), before + after;
      assert before == [] ==> published == after;
      assert before != [] ==> published[0] == ERROR_SHOWN && published[1..] == after;
      assert NoRow(after) ==> ERROR_SHOWN !in after;
    }

    /**
     * From the end of the handler on.  Whatever the ending, its usage is counted exactly once.  The
     * result is returned, and the task shown as done, exactly when the handler returned in time and
     * reached no cap; a late result is counted and never shown as done.  The error is shown twice
     * exactly when the result itself reached a cap and no newer attempt has begun; any other ending
     * shows at most one message.
     */
    method EndAttempt(attempt: nat, task: TaskId, ending: Ending, aborted: Option<AbortReason>)
      returns (thrown: Option<Thrown>, published: seq<Publication>)
      requires Valid()
      modifies this
      ensures Valid() && Ledger() == Finish(old(Ledger()), task, ending)
      ensures forall input, output :: Brings(ending, input, output) ==>
                var total := old(totalTokensUsed) + input + output;
                var tally := UsedBy(old(taskTokensUsed), task) + input + output;
                && totalTokensUsed == total
                && (thrown.None? <==>
                      ending.Returned? && aborted.None? &&
                      (ending.metadata.Some? ==> !MeetsCap(caps.task, tally) && !MeetsCap(caps.agent, total)))
                && (Counts(ending) && (ending.FailedAttempt? || aborted.None?) && aborted != Some(EmergencyStop) ==>
                      && (thrown == Some(CapReached(TaskCap)) <==> MeetsCap(caps.task, tally))
                      && (thrown == Some(CapReached(AgentCap)) <==>
                            !MeetsCap(caps.task, tally) && MeetsCap(caps.agent, total)))
      ensures ShowsDone(published) <==> thrown.None?
      ensures published == [ERROR_SHOWN, ERROR_SHOWN] <==>
                ending.Returned? && aborted.None? && ending.metadata.Some? && attempt == old(attemptSeq) &&
                BreachAfter(caps, old(Ledger()), task, Spent(ending)).Some?
      ensures |published| > 1 ==>
                ending.Returned? && aborted.None? && ending.metadata.Some? &&
                BreachAfter(caps, old(Ledger()), task, Spent(ending)).Some?
      ensures aborted == Some(EmergencyStop) ==> thrown == Some(StopError) && OnlyStopped(published)
      ensures thrown.Some? && aborted.Some? && attempt != old(attemptSeq) && thrown != Some(StopError) ==>
                NoRow(published)
      ensures thrown == Some(StopError) <==> ending.ThrewStop? || aborted == Some(EmergencyStop)
      ensures attemptSeq == old(attemptSeq)
    {
      EndingInNumbers(ending, task);
      hide LedgerInv, Finish, Spent, Brings, BreachAfter, MeetsCap;
      thrown, published := Conclude(attempt, task, ending, aborted);
    }
  }
}
