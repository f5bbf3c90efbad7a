/**
 * The gateway's rate limiter (rate-limiter.ts) against the full log of admissions: pruning and
 * sweeping are invisible, and only an eviction can make the limiter forget.
 */
module RateLimiter {
  import opened InsertionOrder
  import opened Window

  type Key = nat

  function At(m: map<Key, seq<int>>, k: Key): seq<int> {
    if k in m then m[k] else []
  }

  /** The keys whose newest time is at or after the cutoff. */
  function Live(windows: map<Key, seq<int>>, cutoff: int): set<Key>
    requires NonEmpty(windows)
  {
    set k | k in windows && windows[k][|windows[k]| - 1] >= cutoff
  }

  /** No stored list is empty. */
  predicate NonEmpty(windows: map<Key, seq<int>>) {
    forall k <- windows :: windows[k] != []
  }

  /** Every key's stored list stands for what was admitted for it since its last eviction. */
  ghost predicate Tracks(windows: map<Key, seq<int>>, kept: map<Key, seq<int>>, latest: int, cutoff: int) {
    forall k :: Follows(At(windows, k), At(kept, k), latest, cutoff)
  }

  /** What is kept is the last part of the full log. */
  ghost predicate Suffix(kept: seq<int>, log: seq<int>) {
    |kept| <= |log| && kept == log[|log| - |kept|..]
  }

  ghost predicate Suffixes(kept: map<Key, seq<int>>, log: map<Key, seq<int>>) {
    forall k :: Suffix(At(kept, k), At(log, k))
  }

  /** Only keys that are no longer stored have been forgotten. */
  ghost predicate Remembers(before: map<Key, seq<int>>, after: map<Key, seq<int>>, windows: map<Key, seq<int>>) {
    forall k :: At(after, k) == At(before, k) || (At(after, k) == [] && k !in windows)
  }

  /** A list whose newest time has left the window stands for nothing any more. */
  lemma DeadList(list: seq<int>, log: seq<int>, latest: int, cutoff: int)
    requires Follows(list, log, latest, cutoff) && list != [] && list[|list| - 1] < cutoff
    ensures Follows([], log, latest, cutoff)
  {
    forall i | 0 <= i < |log| ensures log[i] < cutoff {
      assert log[|log| - 1] == list[|list| - 1];
      assert log[i] <= log[|log| - 1];
    }
  }

  lemma CountOfSuffix(kept: seq<int>, log: seq<int>, cutoff: int)
    requires Suffix(kept, log)
    ensures CountSince(kept, cutoff) <= CountSince(log, cutoff)
  {
    hide CountSince;
    var n := |log| - |kept|;
    CountSplit(log[..n], kept, cutoff);
    assert log == log[..n] + kept;
  }

  lemma TracksLater(windows: map<Key, seq<int>>, kept: map<Key, seq<int>>, latest: int, cutoff: int,
                    now: int, later: int)
    requires Tracks(windows, kept, latest, cutoff) && latest <= now && cutoff <= later
    ensures Tracks(windows, kept, now, later)
  {
    forall k ensures Follows(At(windows, k), At(kept, k), now, later) {
      FollowsLater(At(windows, k), At(kept, k), latest, cutoff, now, later);
    }
  }

  /** Storing a list for a key: the other keys are as before. */
  lemma TracksStore(windows: map<Key, seq<int>>, kept: map<Key, seq<int>>, latest: int, cutoff: int,
                    key: Key, list: seq<int>, mine: seq<int>)
    requires Tracks(windows, kept, latest, cutoff) && Follows(list, mine, latest, cutoff)
    ensures Tracks(windows[key := list], kept[key := mine], latest, cutoff)
    ensures NonEmpty(windows) && list != [] ==> NonEmpty(windows[key := list])
  {
    var w, m := windows[key := list], kept[key := mine];
    forall k ensures Follows(At(w, k), At(m, k), latest, cutoff) {
      assert Follows(At(windows, k), At(kept, k), latest, cutoff);
    }
  }

  /** Sweeping drops only lists that stand for nothing any more. */
  lemma TracksSwept(windows: map<Key, seq<int>>, kept: map<Key, seq<int>>, latest: int, cutoff: int,
                    left: map<Key, seq<int>>)
    requires NonEmpty(windows) && Tracks(windows, kept, latest, cutoff)
    requires left == map k | k in Live(windows, cutoff) :: windows[k]
    ensures Tracks(left, kept, latest, cutoff) && NonEmpty(left)
  {
    forall k ensures Follows(At(left, k), At(kept, k), latest, cutoff) {
      assert Follows(At(windows, k), At(kept, k), latest, cutoff);
      if k in windows && k !in left {
        DeadList(windows[k], At(kept, k), latest, cutoff);
      }
    }
  }

  /** Forgetting a key altogether. */
  lemma TracksForget(windows: map<Key, seq<int>>, kept: map<Key, seq<int>>, latest: int, cutoff: int, key: Key)
    requires Tracks(windows, kept, latest, cutoff)
    ensures Tracks(windows - {key}, kept - {key}, latest, cutoff)
    ensures NonEmpty(windows) ==> NonEmpty(windows - {key})
  {
    forall k ensures Follows(At(windows - {key}, k), At(kept - {key}, k), latest, cutoff) {
      assert Follows(At(windows, k), At(kept, k), latest, cutoff);
    }
  }

  lemma SuffixesForget(kept: map<Key, seq<int>>, log: map<Key, seq<int>>, key: Key)
    requires Suffixes(kept, log)
    ensures Suffixes(kept - {key}, log)
  {
    forall k ensures Suffix(At(kept - {key}, k), At(log, k)) {
      assert Suffix(At(kept, k), At(log, k));
    }
  }

  lemma RemembersForget(before: map<Key, seq<int>>, kept: map<Key, seq<int>>, windows: map<Key, seq<int>>, key: Key)
    requires Remembers(before, kept, windows)
    ensures Remembers(before, kept - {key}, windows - {key})
  {
    var left := kept - {key};
    forall k ensures At(left, k) == At(before, k) || (At(left, k) == [] && k !in windows - {key}) {
      assert At(kept, k) == At(before, k) || (At(kept, k) == [] && k !in windows);
    }
  }

  lemma SuffixesAppend(kept: map<Key, seq<int>>, log: map<Key, seq<int>>, key: Key, now: int)
    requires Suffixes(kept, log)
    ensures Suffixes(kept[key := At(kept, key) + [now]], log[key := At(log, key) + [now]])
  {
    var kept', log' := kept[key := At(kept, key) + [now]], log[key := At(log, key) + [now]];
    forall k ensures Suffix(At(kept', k), At(log', k)) {
      assert Suffix(At(kept, k), At(log, k));
    }
  }

  class SlidingWindowRateLimiter {
    const windowMs: nat
    const maxRequests: nat
    const maxKeys: nat
    /** A Map keeps its keys in insertion order, the least recently admitted first. */
    var order: seq<Key>
    var windows: map<Key, seq<int>>
    var lastSweepAt: int
    ghost var latest: int
    /** All admissions ever, and those since the key was last evicted. */
    ghost var log: map<Key, seq<int>>
    ghost var kept: map<Key, seq<int>>

    ghost predicate Valid()
      reads this
    {
      && Lists(order, windows.Keys) && NonEmpty(windows) && |order| <= maxKeys
      && Tracks(windows, kept, latest, latest - windowMs)
      && Suffixes(kept, log)
      && (maxRequests == 0 ==> windows.Keys == {})
    }

    constructor (windowMs: nat, maxRequests: nat, maxKeys: nat, now: int)
      ensures Valid() && log == map[] && kept == map[] && latest == now
      ensures this.windowMs == windowMs && this.maxRequests == maxRequests && this.maxKeys == maxKeys
    {
      this.windowMs, this.maxRequests, this.maxKeys := windowMs, maxRequests, maxKeys;
      order, windows, lastSweepAt, latest, log, kept := [], map[], 0, now, map[], map[];
    }

    /** Once per window, drop every key whose newest admission is outside it. */
    method Sweep(now: int)
      requires Lists(order, windows.Keys) && NonEmpty(windows) && Tracks(windows, kept, latest, now - windowMs)
      modifies this`order, this`windows, this`lastSweepAt
      ensures Lists(order, windows.Keys) && NonEmpty(windows) && Tracks(windows, kept, latest, now - windowMs)
      ensures windows.Keys <= old(windows).Keys && |order| <= |old(order)|
    {
      hide Tracks, Lists, Among;
      if now - lastSweepAt < windowMs {
        return;
      }
      lastSweepAt := now;
      var live := Live(windows, now - windowMs);
      var left := map k | k in live :: windows[k];
      assert left.Keys == live;
      AmongLists(order, windows.Keys, live);
      AmongShorter(order, live);
      TracksSwept(windows, kept, latest, now - windowMs, left);
      order, windows := Among(order, live), left;
    }

    lemma {:induction false} AmongShorter(order: seq<Key>, live: set<Key>)
      ensures |Among(order, live)| <= |order|
    {
      if order != [] { AmongShorter(order[..|order| - 1], live); }
    }

    /** Drop the oldest keys past the limit; what was admitted for them is forgotten. */
    method EvictOldest()
      requires Lists(order, windows.Keys) && NonEmpty(windows) && Tracks(windows, kept, latest, latest - windowMs)
      requires Suffixes(kept, log)
      modifies this`order, this`windows, this`kept
      ensures Lists(order, windows.Keys) && NonEmpty(windows) && |order| <= maxKeys
      ensures Tracks(windows, kept, latest, latest - windowMs)
      ensures Suffixes(kept, log)
      ensures Remembers(old(kept), kept, windows)
      ensures |old(order)| <= maxKeys ==> kept == old(kept)
    {
      hide Tracks, Lists, Suffixes, NonEmpty;
      assert Remembers(kept, kept, windows);
      hide Remembers;
      while |order| > maxKeys
        invariant Lists(order, windows.Keys) && NonEmpty(windows) && Tracks(windows, kept, latest, latest - windowMs)
        invariant latest == old(latest) && log == old(log)
        invariant Suffixes(kept, log)
        invariant Remembers(old(kept), kept, windows)
        invariant |old(order)| <= maxKeys ==> kept == old(kept)
        decreases |order|
      {
        var oldest := order[0];
        DropFirst(order, windows.Keys);
        TracksForget(windows, kept, latest, latest - windowMs, oldest);
        SuffixesForget(kept, log, oldest);
        RemembersForget(old(kept), kept, windows, oldest);
        assert (windows - {oldest}).Keys == windows.Keys - {oldest};
        order, windows, kept := order[1..], windows - {oldest}, kept - {oldest};
      }
    }

    /**
     * Admitted exactly when fewer than `maxRequests` of the key's admissions since its last eviction
     * lie in the window; so for a key never evicted the decision is that of the full log, and a
     * denial always means that the full log is at the limit.
     */
    method IsAllowed(key: Key, now: int) returns (ok: bool)
      requires Valid() && latest <= now
      modifies this
      ensures Valid() && latest == now
      ensures ok <==> CountSince(At(old(kept), key), now - windowMs) < maxRequests
      ensures At(old(kept), key) == At(old(log), key) ==>
                (ok <==> CountSince(At(old(log), key), now - windowMs) < maxRequests)
      ensures !ok ==> CountSince(At(old(log), key), now - windowMs) >= maxRequests
      ensures log == if ok then old(log)[key := At(old(log), key) + [now]] else old(log)
      ensures !ok ==> kept == old(kept)
      ensures ok ==> Remembers(old(kept)[key := At(old(kept), key) + [now]], kept, windows)
      ensures ok && |old(windows).Keys + {key}| <= maxKeys ==> kept == old(kept)[key := At(old(kept), key) + [now]]
    {
      hide Follows, CountSince, Lists, Suffix, Suffixes, Tracks, Remembers, NonEmpty;
      assert Suffix(At(kept, key), At(log, key)) by { SuffixesAt(kept, log, key); }
      CountOfSuffix(At(kept, key), At(log, key), now - windowMs);
      var timestamps := Stamps(key, now);
      FewerKeys(windows.Keys + {key}, old(windows).Keys + {key});
      if |timestamps| >= maxRequests {
        StorePruned(key, timestamps);
        return false;
      }
      Admit(key, timestamps, now);
      ok := true;
    }

    /** Sweep, then the key's own times, pruned. */
    method Stamps(key: Key, now: int) returns (timestamps: seq<int>)
      requires Valid() && latest <= now
      modifies this`order, this`windows, this`lastSweepAt, this`latest
      ensures Valid() && latest == now && windows.Keys <= old(windows).Keys
      ensures Follows(timestamps, At(kept, key), latest, now - windowMs)
      ensures |timestamps| == CountSince(At(kept, key), now - windowMs)
    {
      hide Follows, CountSince, Lists, Suffixes, Tracks, NonEmpty, At;
      TracksLater(windows, kept, latest, latest - windowMs, now, now - windowMs);
      latest := now;
      Sweep(now);
      TracksAt(windows, kept, latest, now - windowMs, key);
      timestamps := Prune(At(windows, key), now - windowMs, At(kept, key), latest);
    }

    /** On a denial the pruned list stays in the map: it is the same array. */
    method StorePruned(key: Key, timestamps: seq<int>)
      requires Valid() && |timestamps| >= maxRequests
      requires Follows(timestamps, At(kept, key), latest, latest - windowMs)
      modifies this`windows
      ensures Valid()
    {
      hide Follows, Lists, Suffixes, Tracks, NonEmpty;
      if key in windows {
        assert windows[key := timestamps].Keys == windows.Keys;
        TracksStore(windows, kept, latest, latest - windowMs, key, timestamps, At(kept, key));
        SameKept(windows[key := timestamps], kept, latest, latest - windowMs, key);
        windows := windows[key := timestamps];
      }
    }

    /** Append the time, move the key to the end, evict past the limit. */
    method Admit(key: Key, timestamps: seq<int>, now: int)
      requires Lists(order, windows.Keys) && NonEmpty(windows) && latest == now && maxRequests > 0
      requires Tracks(windows, kept, latest, now - windowMs) && Suffixes(kept, log)
      requires Follows(timestamps, At(kept, key), latest, now - windowMs)
      modifies this`order, this`windows, this`kept, this`log
      ensures Valid() && log == old(log)[key := At(old(log), key) + [now]]
      ensures Remembers(old(kept)[key := At(old(kept), key) + [now]], kept, windows)
      ensures |old(windows).Keys + {key}| <= maxKeys ==> kept == old(kept)[key := At(old(kept), key) + [now]]
    {
      hide Follows, Lists, Without, Tracks, Suffixes, Remembers, Suffix, NonEmpty;
      var longer := timestamps + [now];
      ghost var mine := At(kept, key) + [now];
      FollowsAppend(timestamps, At(kept, key), latest, now - windowMs, now);
      MoveLast(order, windows.Keys, key);
      SameSize(Without(order, key) + [key], windows.Keys + {key});
      assert windows[key := longer].Keys == windows.Keys + {key};
      TracksStore(windows, kept, latest, now - windowMs, key, longer, mine);
      SuffixesAppend(kept, log, key, now);
      order, windows := Without(order, key) + [key], windows[key := longer];
      kept, log := kept[key := mine], log[key := At(log, key) + [now]];
      EvictOldest();
    }

    lemma SameSize(order: seq<Key>, keys: set<Key>)
      requires Lists(order, keys)
      ensures |order| == |keys|
    {
    }

    lemma TracksAt(windows: map<Key, seq<int>>, kept: map<Key, seq<int>>, latest: int, cutoff: int, k: Key)
      requires Tracks(windows, kept, latest, cutoff)
      ensures Follows(At(windows, k), At(kept, k), latest, cutoff)
    {
    }

    lemma SuffixesAt(kept: map<Key, seq<int>>, log: map<Key, seq<int>>, k: Key)
      requires Suffixes(kept, log)
      ensures Suffix(At(kept, k), At(log, k))
    {
    }

    lemma SameKept(windows: map<Key, seq<int>>, kept: map<Key, seq<int>>, latest: int, cutoff: int, key: Key)
      requires Tracks(windows, kept[key := At(kept, key)], latest, cutoff)
      ensures Tracks(windows, kept, latest, cutoff)
    {
      forall k ensures Follows(At(windows, k), At(kept, k), latest, cutoff) {
        assert Follows(At(windows, k), At(kept[key := At(kept, key)], k), latest, cutoff);
      }
    }
  }
}
