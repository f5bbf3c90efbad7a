/**
 * The hash-chained audit log (governance/audit-log.ts).  The hash and the serialization of a
 * record's content are parameters; what is assumed of them is said where it is needed.
 */
module AuditLog {
  import opened Budget

  type Digest = string

  datatype Record<D> = Record(index: nat, timestamp: string, decision: D, prevHash: Digest, hash: Digest)

  /** The hash function and the serialization of a record's content. */
  datatype Hashing<!D> = Hashing(hash: string -> Digest, canonical: (nat, string, D) -> string)

  /** What is hashed for a record: the previous hash, then the content. */
  function Hashed<D>(h: Hashing<D>, r: Record<D>): string {
    r.prevHash + h.canonical(r.index, r.timestamp, r.decision)
  }

  function ExpectedPrev<D>(chain: seq<Record<D>>, i: nat): Digest
    requires i < |chain|
  {
    if i == 0 then "" else chain[i - 1].hash
  }

  predicate Sound<D(==)>(h: Hashing<D>, chain: seq<Record<D>>, i: nat)
    requires i < |chain|
  {
    chain[i].prevHash == ExpectedPrev(chain, i) && chain[i].hash == h.hash(Hashed(h, chain[i]))
  }

  ghost predicate Verifies<D>(h: Hashing<D>, chain: seq<Record<D>>) {
    forall i: nat :: i < |chain| ==> Sound(h, chain, i)
  }

  /** The digests have one length, as SHA-256 in hex has, and different contents are serialized differently. */
  ghost predicate WellBehaved<D(!new)>(h: Hashing<D>, length: nat) {
    && (forall x :: |h.hash(x)| == length)
    && (forall i, t, d, i', t', d' :: h.canonical(i, t, d) == h.canonical(i', t', d') ==> i == i' && t == t' && d == d')
  }

  ghost predicate Collides<D>(h: Hashing<D>, x: string, y: string) {
    x != y && h.hash(x) == h.hash(y)
  }

  lemma VerifiesPrefix<D>(h: Hashing<D>, chain: seq<Record<D>>, n: nat)
    requires Verifies(h, chain) && n <= |chain|
    ensures Verifies(h, chain[..n])
  {
    forall i: nat | i < n ensures Sound(h, chain[..n], i) {
      assert Sound(h, chain, i);
    }
  }

  lemma {:induction false} SameInput<D(!new)>(h: Hashing<D>, length: nat, a: Record<D>, b: Record<D>)
    requires WellBehaved(h, length) && |a.prevHash| == |b.prevHash| && Hashed(h, a) == Hashed(h, b)
    requires a.hash == b.hash
    ensures a == b
  {
    var x, y := h.canonical(a.index, a.timestamp, a.decision), h.canonical(b.index, b.timestamp, b.decision);
    var n := |a.prevHash|;
    assert a.prevHash == Hashed(h, a)[..n] && b.prevHash == Hashed(h, b)[..n];
    assert x == Hashed(h, a)[n..] && y == Hashed(h, b)[n..];
  }

  lemma OneLength<D(!new)>(h: Hashing<D>, length: nat, r: Record<D>)
    requires WellBehaved(h, length)
    ensures |h.hash(Hashed(h, r))| == length
  {
  }

  /**
   * The head fixes the chain: two chains of the same length that verify and end in the same hash are
   * the same record by record, or two different inputs taken from them collide.
   */
  lemma {:induction false} HeadFixesChain<D(!new)>(h: Hashing<D>, length: nat, a: seq<Record<D>>, b: seq<Record<D>>)
    returns (collision: Option<(nat, nat)>)
    requires WellBehaved(h, length) && Verifies(h, a) && Verifies(h, b) && |a| == |b| > 0
    requires a[|a| - 1].hash == b[|b| - 1].hash
    ensures collision.None? ==> a == b
    ensures collision.Some? ==>
              && collision.value.0 < |a| && collision.value.1 < |b|
              && Collides(h, Hashed(h, a[collision.value.0]), Hashed(h, b[collision.value.1]))
    decreases |a|
  {
    var n := |a| - 1;
    hide WellBehaved;
    assert Sound(h, a, n) && Sound(h, b, n);
    assert n > 0 ==> Sound(h, a, n - 1) && Sound(h, b, n - 1);
    VerifiesPrefix(h, a, n);
    VerifiesPrefix(h, b, n);
    hide Verifies;
    assert n > 0 ==> |a[n - 1].hash| == length == |b[n - 1].hash| by {
      if n > 0 { OneLength(h, length, a[n - 1]); OneLength(h, length, b[n - 1]); }
    }
    if Hashed(h, a[n]) != Hashed(h, b[n]) {
      return Some((n, n));
    }
    if n == 0 {
      SameInput(h, length, a[0], b[0]);
      return None;
    }
    SameInput(h, length, a[n], b[n]);
    collision := HeadFixesChain(h, length, a[..n], b[..n]);
    assert a == a[..n] + [a[n]] && b == b[..n] + [b[n]];
  }

  /** So with a collision-free hash any change to a chain that keeps its length and its head is noticed. */
  lemma TamperingIsNoticed<D(!new)>(h: Hashing<D>, length: nat, chain: seq<Record<D>>, tampered: seq<Record<D>>)
    requires WellBehaved(h, length) && Verifies(h, chain) && tampered != chain
    requires |tampered| == |chain| > 0 && tampered[|chain| - 1].hash == chain[|chain| - 1].hash
    requires forall i: nat, j: nat :: i < |chain| && j < |chain| ==>
               !Collides(h, Hashed(h, chain[i]), Hashed(h, tampered[j]))
    ensures exists i: nat :: i < |tampered| && !Sound(h, tampered, i)
  {
    if Verifies(h, tampered) {
      var collision := HeadFixesChain(h, length, chain, tampered);
    }
  }

  class AuditLog<D(==)> {
    const h: Hashing<D>
    var chain: seq<Record<D>>

    constructor (h: Hashing<D>)
      ensures chain == [] && this.h == h && Verifies(h, chain)
    {
      this.h := h;
      chain := [];
    }

    /** A chain that verifies still does with the new record, which carries its content and position. */
    method Append(decision: D, timestamp: string) returns (record: Record<D>)
      modifies this
      ensures chain == old(chain) + [record]
      ensures record.index == |old(chain)| && record.decision == decision && record.timestamp == timestamp
      ensures Sound(h, chain, |old(chain)|)
      ensures old(Verifies(h, chain)) ==> Verifies(h, chain)
    {
      var index := |chain|;
      var prevHash := if index == 0 then "" else chain[index - 1].hash;
      var hash := h.hash(prevHash + h.canonical(index, timestamp, decision));
      record := Record(index, timestamp, decision, prevHash, hash);
      chain := chain + [record];
      forall i: nat | i < index && Sound(h, old(chain), i) ensures Sound(h, chain, i) {
        assert chain[i] == old(chain)[i] && (i > 0 ==> chain[i - 1] == old(chain)[i - 1]);
      }
    }

    /** None when every link and hash holds, else the first index where one does not. */
    method Verify() returns (brokenAt: Option<nat>)
      ensures brokenAt.None? <==> Verifies(h, chain)
      ensures brokenAt.Some? ==>
                && brokenAt.value < |chain| && !Sound(h, chain, brokenAt.value)
                && forall i: nat :: i < brokenAt.value ==> Sound(h, chain, i)
    {
      var i := 0;
      while i < |chain|
        invariant i <= |chain| && forall j: nat :: j < i ==> Sound(h, chain, j)
      {
        var record := chain[i];
        var expectedPrev := if i == 0 then "" else chain[i - 1].hash;
        var expectedHash := h.hash(record.prevHash + h.canonical(record.index, record.timestamp, record.decision));
        if record.prevHash != expectedPrev || record.hash != expectedHash {
          assert !Sound(h, chain, i);
          return Some(i);
        }
        i := i + 1;
      }
      brokenAt := None;
    }
  }
}
