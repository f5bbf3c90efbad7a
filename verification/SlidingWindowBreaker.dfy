/** The circuit breaker (sliding-window-breaker.ts) against a plain count of all failures ever recorded. */
module SlidingWindowBreakerObject {
  import opened Window

  /** filter keeps what is after the cutoff; on a sorted log that drops a front part only. */
  function After(s: seq<int>, cutoff: int): seq<int> {
    if s == [] then [] else After(s[..|s| - 1], cutoff) + if s[|s| - 1] > cutoff then [s[|s| - 1]] else []
  }

  lemma {:induction false} AfterNone(s: seq<int>, cutoff: int)
    requires forall i :: 0 <= i < |s| ==> s[i] <= cutoff
    ensures After(s, cutoff) == []
  {
    if s != [] { AfterNone(s[..|s| - 1], cutoff); }
  }

  lemma {:induction false} AfterIsTail(s: seq<int>, cutoff: int)
    requires Sorted(s)
    ensures TailOf(After(s, cutoff), s, cutoff + 1)
    ensures forall i :: 0 <= i < |After(s, cutoff)| ==> After(s, cutoff)[i] > cutoff
  {
    if s != [] {
      AfterIsTail(s[..|s| - 1], cutoff);
      if s[|s| - 1] <= cutoff {
        AfterNone(s, cutoff);
      }
    }
  }

  /** Filtering keeps the list in step with the log, and its length is then the plain count. */
  lemma AfterFollows(list: seq<int>, log: seq<int>, latest: int, cutoff: int)
    requires Follows(list, log, latest, cutoff + 1)
    ensures Follows(After(list, cutoff), log, latest, cutoff + 1) && |After(list, cutoff)| <= |list|
    ensures |After(list, cutoff)| == CountSince(log, cutoff + 1)
  {
    AfterIsTail(list, cutoff);
    TailOfTail(After(list, cutoff), list, log, cutoff + 1);
    TailCounts(After(list, cutoff), log, cutoff + 1);
  }

  lemma TailOfTail(a: seq<int>, b: seq<int>, c: seq<int>, cutoff: int)
    requires TailOf(a, b, cutoff) && TailOf(b, c, cutoff)
    ensures TailOf(a, c, cutoff)
  {
    forall i | |c| - |b| <= i < |c| - |a| ensures c[i] < cutoff {
      assert c[i] == b[i - (|c| - |b|)];
    }
  }

  class SlidingWindowBreaker {
    const threshold: nat
    const windowMs: nat
    var failures: seq<int>
    var tripped: bool
    ghost var recorded: seq<int>
    ghost var latest: int

    ghost predicate Valid()
      reads this
    {
      && threshold >= 1 && windowMs >= 1
      && Follows(failures, recorded, latest, latest - windowMs + 1)
      && (!tripped ==> |failures| < threshold)
    }

    constructor (threshold: nat, windowMs: nat, now: int)
      requires threshold >= 1 && windowMs >= 1
      ensures Valid() && recorded == [] && this.threshold == threshold && this.windowMs == windowMs && latest == now
    {
      this.threshold, this.windowMs, failures, tripped, recorded, latest := threshold, windowMs, [], false, [], now;
    }

    method PruneOldFailures(now: int)
      requires latest <= now && Follows(failures, recorded, latest, latest - windowMs + 1)
      modifies this`failures, this`latest
      ensures latest == now && Follows(failures, recorded, now, now - windowMs + 1)
      ensures |failures| == CountSince(recorded, now - windowMs + 1) <= |old(failures)|
    {
      hide Follows, CountSince, After;
      FollowsLater(failures, recorded, latest, latest - windowMs + 1, now, now - windowMs + 1);
      AfterFollows(failures, recorded, now, now - windowMs);
      failures, latest := After(failures, now - windowMs), now;
    }

    method RecordSuccess(now: int)
      requires Valid() && latest <= now
      modifies this
      ensures Valid() && recorded == old(recorded) && latest == now
    {
      hide Follows, CountSince;
      PruneOldFailures(now);
      if tripped && |failures| < threshold {
        tripped := false;
      }
    }

    /** The clock is read when the failure is pushed, and again when the list is pruned. */
    method RecordFailure(now: int, again: int)
      requires Valid() && latest <= now <= again
      modifies this
      ensures Valid() && recorded == old(recorded) + [now] && latest == again
    {
      hide Follows, CountSince;
      FollowsAppend(failures, recorded, latest, latest - windowMs + 1, now);
      FollowsLater(failures + [now], recorded + [now], now, latest - windowMs + 1, now, now - windowMs + 1);
      failures, recorded, latest := failures + [now], recorded + [now], now;
      PruneOldFailures(again);
      if !tripped && |failures| >= threshold {
        tripped := true;
      }
    }

    /**
     * Open exactly when at least `threshold` of all failures ever recorded are newer than
     * `now - windowMs`, whatever successes and queries came in between.
     */
    method IsOpen(now: int) returns (open: bool)
      requires Valid() && latest <= now
      modifies this
      ensures Valid() && recorded == old(recorded) && latest == now
      ensures open <==> CountSince(recorded, now - windowMs + 1) >= threshold
    {
      hide Follows, CountSince;
      PruneOldFailures(now);
      if tripped && |failures| < threshold {
        tripped := false;
      }
      open := tripped;
    }
  }
}
