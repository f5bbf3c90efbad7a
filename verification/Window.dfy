/**
 * Sliding windows: a pruned list of times against the full log of them, and the per-connection
 * window of the gateway (`admit` in SocketGateway.ts).
 */
module Window {

  ghost predicate Sorted(s: seq<int>) {
    forall i, j :: 0 <= i < j < |s| ==> s[i] <= s[j]
  }

  /** How many entries are at or after the cutoff. */
  function CountSince(s: seq<int>, cutoff: int): nat {
    if s == [] then 0 else CountSince(s[..|s| - 1], cutoff) + if s[|s| - 1] >= cutoff then 1 else 0
  }

  /** Counting is what it says: how many positions hold a time at or after the cutoff. */
  lemma {:induction false} CountIsSize(s: seq<int>, cutoff: int)
    ensures CountSince(s, cutoff) == |set i | 0 <= i < |s| && s[i] >= cutoff|
  {
    var all := set i | 0 <= i < |s| && s[i] >= cutoff;
    if s == [] {
      assert all == {};
    } else {
      var n := |s| - 1;
      CountIsSize(s[..n], cutoff);
      var before := set i | 0 <= i < |s[..n]| && s[..n][i] >= cutoff;
      assert all == before + if s[n] >= cutoff then {n} else {};
    }
  }

  /** The list is the log without a first part that lies before the cutoff. */
  ghost predicate TailOf(list: seq<int>, log: seq<int>, cutoff: int) {
    && |list| <= |log| && list == log[|log| - |list|..]
    && forall i :: 0 <= i < |log| - |list| ==> log[i] < cutoff
  }

  lemma {:induction false} CountNone(s: seq<int>, cutoff: int)
    requires forall i :: 0 <= i < |s| ==> s[i] < cutoff
    ensures CountSince(s, cutoff) == 0
  {
    if s != [] { CountNone(s[..|s| - 1], cutoff); }
  }

  lemma {:induction false} CountAll(s: seq<int>, cutoff: int)
    requires forall i :: 0 <= i < |s| ==> s[i] >= cutoff
    ensures CountSince(s, cutoff) == |s|
  {
    if s != [] { CountAll(s[..|s| - 1], cutoff); }
  }

  lemma {:induction false} CountSplit(a: seq<int>, b: seq<int>, cutoff: int)
    ensures CountSince(a + b, cutoff) == CountSince(a, cutoff) + CountSince(b, cutoff)
  {
    if b == [] {
      assert a + b == a;
    } else {
      CountSplit(a, b[..|b| - 1], cutoff);
      assert (a + b)[..|a + b| - 1] == a + b[..|b| - 1];
    }
  }

  /** A tail in which nothing is left before the cutoff counts the log: pruning is invisible. */
  lemma TailCounts(list: seq<int>, log: seq<int>, cutoff: int)
    requires TailOf(list, log, cutoff) && Sorted(log) && (list != [] ==> list[0] >= cutoff)
    ensures |list| == CountSince(log, cutoff)
  {
    var n := |log| - |list|;
    CountNone(log[..n], cutoff);
    CountAll(list, cutoff);
    CountSplit(log[..n], list, cutoff);
    assert log == log[..n] + list;
  }

  /** The list stands for the sorted log, whose latest entry is no later than `latest`, as far as the cutoff goes. */
  ghost predicate Follows(list: seq<int>, log: seq<int>, latest: int, cutoff: int) {
    Sorted(log) && (forall i :: 0 <= i < |log| ==> log[i] <= latest) && TailOf(list, log, cutoff)
  }

  lemma FollowsAppend(list: seq<int>, log: seq<int>, latest: int, cutoff: int, now: int)
    requires Follows(list, log, latest, cutoff) && latest <= now
    ensures Follows(list + [now], log + [now], now, cutoff)
  {
  }

  lemma FollowsLater(list: seq<int>, log: seq<int>, latest: int, cutoff: int, now: int, later: int)
    requires Follows(list, log, latest, cutoff) && latest <= now && cutoff <= later
    ensures Follows(list, log, now, later)
  {
  }

  /** The shifting loop: entries before the cutoff go, from the front, up to the first that stays. */
  method Prune(list: seq<int>, cutoff: int, ghost log: seq<int>, ghost latest: int) returns (pruned: seq<int>)
    requires Follows(list, log, latest, cutoff)
    ensures Follows(pruned, log, latest, cutoff) && |pruned| == CountSince(log, cutoff)
  {
    pruned := list;
    while |pruned| > 0 && pruned[0] < cutoff
      invariant TailOf(pruned, log, cutoff)
      decreases |pruned|
    {
      pruned := pruned[1..];
    }
    TailCounts(pruned, log, cutoff);
  }

  /** The window of one connection: at most `max` events in the last `windowMs`, the older bound excluded. */
  class ConnectionWindow {
    const max: nat
    const windowMs: nat
    var sentAt: seq<int>
    ghost var admitted: seq<int>
    ghost var latest: int

    ghost predicate Valid()
      reads this
    {
      Follows(sentAt, admitted, latest, latest - windowMs + 1)
    }

    constructor (max: nat, windowMs: nat, now: int)
      ensures Valid() && admitted == [] && this.max == max && this.windowMs == windowMs && latest == now
    {
      this.max, this.windowMs, sentAt, admitted, latest := max, windowMs, [], [], now;
    }

    /** Admitted exactly when fewer than `max` of all earlier admissions are less than `windowMs` old. */
    method Admit(now: int) returns (ok: bool)
      requires Valid() && latest <= now
      modifies this
      ensures Valid() && latest == now
      ensures ok <==> CountSince(old(admitted), now - windowMs + 1) < max
      ensures admitted == if ok then old(admitted) + [now] else old(admitted)
    {
      hide Follows, CountSince;
      FollowsLater(sentAt, admitted, latest, latest - windowMs + 1, now, now - windowMs + 1);
      latest := now;
      sentAt := Prune(sentAt, now - windowMs + 1, admitted, latest);
      if |sentAt| >= max {
        return false;
      }
      FollowsAppend(sentAt, admitted, latest, now - windowMs + 1, now);
      sentAt, admitted := sentAt + [now], admitted + [now];
      ok := true;
    }
  }
}
