/** The key order of a JavaScript Map or Set: deleting a key and setting it again moves it to the end. */
module InsertionOrder {

  ghost predicate NoRepeats<T>(order: seq<T>) {
    forall i, j :: 0 <= i < j < |order| ==> order[i] != order[j]
  }

  /** The order lists exactly the keys. */
  ghost predicate Lists<T(!new)>(order: seq<T>, keys: set<T>) {
    NoRepeats(order) && (forall t :: t in order <==> t in keys) && |order| == |keys|
  }

  function Without<T(==)>(order: seq<T>, key: T): seq<T> {
    if order == [] then []
    else Without(order[..|order| - 1], key) + if order[|order| - 1] == key then [] else [order[|order| - 1]]
  }

  lemma {:induction false} WithoutOnly<T>(order: seq<T>, key: T)
    requires NoRepeats(order)
    ensures NoRepeats(Without(order, key)) && |Without(order, key)| == |order| - (if key in order then 1 else 0)
    ensures forall t :: t in Without(order, key) <==> t in order && t != key
  {
    if order != [] {
      var rest, last := order[..|order| - 1], order[|order| - 1];
      WithoutOnly(rest, key);
      assert order == rest + [last];
      assert last !in rest;
    }
  }

  /** Deleting and setting a key: it is the last one. */
  lemma MoveLast<T(!new)>(order: seq<T>, keys: set<T>, key: T)
    requires Lists(order, keys)
    ensures Lists(Without(order, key) + [key], keys + {key})
  {
    WithoutOnly(order, key);
    if key in keys { assert keys + {key} == keys; }
  }

  /** Deleting the first key. */
  lemma DropFirst<T(!new)>(order: seq<T>, keys: set<T>)
    requires Lists(order, keys) && order != []
    ensures Lists(order[1..], keys - {order[0]})
  {
    assert order == [order[0]] + order[1..];
  }

  /** The keys of the set, in order. */
  function Among<T(==)>(order: seq<T>, keys: set<T>): seq<T> {
    if order == [] then []
    else Among(order[..|order| - 1], keys) + if order[|order| - 1] in keys then [order[|order| - 1]] else []
  }

  lemma DropLast<T(!new)>(order: seq<T>, keys: set<T>)
    requires Lists(order, keys) && order != []
    ensures Lists(order[..|order| - 1], keys - {order[|order| - 1]}) && order[|order| - 1] !in order[..|order| - 1]
  {
    assert order == order[..|order| - 1] + [order[|order| - 1]];
  }

  lemma AddLast<T(!new)>(order: seq<T>, keys: set<T>, key: T)
    requires Lists(order, keys) && key !in keys
    ensures Lists(order + [key], keys + {key})
  {
  }

  lemma NoneLists<T(!new)>(keys: set<T>, left: set<T>)
    requires Lists([], keys) && left <= keys
    ensures Lists([], left)
  {
    assert forall t :: t in keys ==> t in [];
    assert left == {};
  }

  lemma {:induction false} AmongLists<T(!new)>(order: seq<T>, keys: set<T>, left: set<T>)
    requires Lists(order, keys) && left <= keys
    ensures Lists(Among(order, left), left)
    decreases |order|
  {
    hide Lists;
    if order == [] {
      NoneLists(keys, left);
    } else {
      var rest, last := order[..|order| - 1], order[|order| - 1];
      assert Among(order, left) == Among(rest, left) + if last in left then [last] else [];
      hide Among;
      DropLast(order, keys);
      AmongLists(rest, keys - {last}, left - {last});
      AmongSame(rest, left, left - {last});
      if last in left {
        AddLast(Among(rest, left - {last}), left - {last}, last);
        assert left == left - {last} + {last};
      } else {
        assert left == left - {last} && Among(order, left) == Among(rest, left);
      }
    }
  }

  lemma {:induction false} AmongSame<T>(order: seq<T>, a: set<T>, b: set<T>)
    requires forall t <- order :: t in a <==> t in b
    ensures Among(order, a) == Among(order, b)
  {
    if order != [] {
      AmongSame(order[..|order| - 1], a, b);
      assert order[|order| - 1] in order;
    }
  }

  lemma {:induction false} FewerKeys<T>(a: set<T>, b: set<T>)
    requires a <= b
    ensures |a| <= |b|
  {
    if a != {} {
      var x :| x in a;
      FewerKeys(a - {x}, b - {x});
    }
  }
}
