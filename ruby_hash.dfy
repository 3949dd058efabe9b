/** Ruby's insertion-ordered Hash, as far as keyword arguments use it:
    lookup, `[]=` and `merge`. `merge` copies the receiver and stores every
    pair of the argument in turn, so a colliding key keeps its old position
    and takes the argument's value, and new keys are appended in order. */
module RubyHash {
  import opened RubyCore

  /** `h[k]`, or `None` when `k` is not a key. */
  function Get(h: seq<(Key, Value)>, k: Key): Option<Value>
  {
    if h == [] then None
    else if h[0].0 == k then Some(h[0].1)
    else Get(h[1..], k)
  }

  lemma {:induction false} GetSomeIffKey(h: seq<(Key, Value)>, k: Key)
    ensures Get(h, k).Some? <==> k in KeysOf(h)
  {
    if h != [] {
      GetSomeIffKey(h[1..], k);
      assert KeysOf(h) == [h[0].0] + KeysOf(h[1..]);
    }
  }

  lemma KeysOfCons(h: seq<(Key, Value)>)
    requires h != []
    ensures KeysOf(h) == [h[0].0] + KeysOf(h[1..])
  {
  }

  lemma KeysOfAppend(h: seq<(Key, Value)>, p: (Key, Value))
    ensures KeysOf(h + [p]) == KeysOf(h) + [p.0]
  {
  }

  /** A pair whose key is new can go in front of a Hash. */
  lemma ConsUnique(p: (Key, Value), s: Hash)
    requires p.0 !in KeysOf(s)
    ensures UniqueKeys([p] + s)
    ensures KeysOf([p] + s) == [p.0] + KeysOf(s)
  {
    var h := [p] + s;
    assert h[1..] == s;
    KeysOfCons(h);
  }

  /** `h[k] = v` on a Hash whose first key is `k`: the value is replaced in place. */
  lemma StoreAtFront(h: Hash, k: Key, v: Value)
    requires h != [] && h[0].0 == k
    ensures UniqueKeys([(k, v)] + h[1..])
    ensures k in KeysOf(h) && KeysOf([(k, v)] + h[1..]) == KeysOf(h)
  {
    var tail: Hash := h[1..];
    KeysOfCons(h);
    ConsUnique((k, v), tail);
  }

  /** `h[k] = v` on a Hash whose first key is not `k`: the first pair stays in
      front of the tail with `k` stored. */
  lemma StoreBehind(h: Hash, k: Key, v: Value, s: Hash)
    requires h != [] && h[0].0 != k
    requires KeysOf(s) == if k in KeysOf(h[1..]) then KeysOf(h[1..]) else KeysOf(h[1..]) + [k]
    requires k !in KeysOf(h[1..]) ==> s == h[1..] + [(k, v)]
    ensures UniqueKeys([h[0]] + s)
    ensures KeysOf([h[0]] + s) == if k in KeysOf(h) then KeysOf(h) else KeysOf(h) + [k]
    ensures k !in KeysOf(h) ==> [h[0]] + s == h + [(k, v)]
  {
    var tail: Hash := h[1..];
    KeysOfCons(h);
    assert h[0].0 !in KeysOf(tail);
    if k in KeysOf(tail) {
      ConsUnique(h[0], s);
    } else {
      assert KeysOf(s) == KeysOf(tail) + [k];
      ConsUnique(h[0], s);
      assert [h[0].0] + (KeysOf(tail) + [k]) == ([h[0].0] + KeysOf(tail)) + [k];
      assert [h[0]] + (tail + [(k, v)]) == ([h[0]] + tail) + [(k, v)];
      assert h == [h[0]] + tail;
    }
  }

  /** `h[k] = v`. */
  function Store(h: Hash, k: Key, v: Value): (r: Hash)
    ensures KeysOf(r) == if k in KeysOf(h) then KeysOf(h) else KeysOf(h) + [k]
    ensures k !in KeysOf(h) ==> r == h + [(k, v)]
  {
    if h == [] then
      ConsUnique((k, v), h);
      assert [(k, v)] + h == h + [(k, v)];
      h + [(k, v)]
    else if h[0].0 == k then
      StoreAtFront(h, k, v);
      [(k, v)] + h[1..]
    else
      var s := Store(h[1..], k, v);
      StoreBehind(h, k, v, s);
      [h[0]] + s
  }

  lemma {:induction false} StoreGet(h: Hash, k: Key, v: Value, j: Key)
    ensures Get(Store(h, k, v), j) == if j == k then Some(v) else Get(h, j)
  {
    if h != [] && h[0].0 != k {
      StoreGet(h[1..], k, v, j);
    }
  }

  /** `a.merge(b)`. */
  function Merge(a: Hash, b: Hash): (r: Hash)
    decreases |b|
  {
    if b == [] then a
    else
      var rest: Hash := b[1..];
      Merge(Store(a, b[0].0, b[0].1), rest)
  }

  /** The keys of `ks` that are not among `known`, in order. */
  function NewKeys(ks: seq<Key>, known: seq<Key>): seq<Key>
  {
    if ks == [] then []
    else (if ks[0] in known then [] else [ks[0]]) + NewKeys(ks[1..], known)
  }

  lemma {:induction false} NewKeysIgnores(ks: seq<Key>, known: seq<Key>, x: Key)
    requires x !in ks
    ensures NewKeys(ks, known + [x]) == NewKeys(ks, known)
  {
    if ks != [] {
      NewKeysIgnores(ks[1..], known, x);
    }
  }

  /** On a key of the argument the argument's value wins; on any other key the
      receiver's value stays; no other key appears. */
  lemma {:induction false} MergeGet(a: Hash, b: Hash, k: Key)
    ensures Get(Merge(a, b), k) == if Get(b, k).Some? then Get(b, k) else Get(a, k)
    decreases |b|
  {
    if b != [] {
      var rest: Hash := b[1..];
      MergeGet(Store(a, b[0].0, b[0].1), rest, k);
      StoreGet(a, b[0].0, b[0].1, k);
      if k == b[0].0 {
        GetSomeIffKey(rest, k);
      }
    }
  }

  /** The merged keys are the receiver's keys in their order, followed by the
      argument's new keys in theirs. */
  lemma {:induction false} MergeKeys(a: Hash, b: Hash)
    ensures KeysOf(Merge(a, b)) == KeysOf(a) + NewKeys(KeysOf(b), KeysOf(a))
    decreases |b|
  {
    if b != [] {
      var rest: Hash := b[1..];
      var k0 := b[0].0;
      var a' := Store(a, k0, b[0].1);
      MergeKeys(a', rest);
      KeysOfCons(b);
      if k0 in KeysOf(a) {
        assert NewKeys(KeysOf(b), KeysOf(a)) == NewKeys(KeysOf(rest), KeysOf(a));
      } else {
        NewKeysIgnores(KeysOf(rest), KeysOf(a), k0);
        assert NewKeys(KeysOf(b), KeysOf(a)) == [k0] + NewKeys(KeysOf(rest), KeysOf(a));
      }
    }
  }

  /** None of `ks` is among `known`. */
  predicate AllNew(ks: seq<Key>, known: seq<Key>)
  {
    ks == [] || (ks[0] !in known && AllNew(ks[1..], known))
  }

  lemma {:induction false} AllNewExtend(ks: seq<Key>, known: seq<Key>, x: Key)
    requires AllNew(ks, known) && x !in ks
    ensures AllNew(ks, known + [x])
  {
    if ks != [] {
      AllNewExtend(ks[1..], known, x);
    }
  }

  /** Merging starts by storing the argument's first pair; a new key is appended. */
  lemma MergeStep(a: Hash, b: Hash)
    requires b != [] && b[0].0 !in KeysOf(a)
    ensures UniqueKeys(a + [b[0]])
    ensures Merge(a, b) == Merge(a + [b[0]], b[1..])
  {
    var s := Store(a, b[0].0, b[0].1);
    assert s == a + [b[0]];
  }

  lemma KeysOfTail(h: seq<(Key, Value)>)
    requires h != []
    ensures KeysOf(h)[1..] == KeysOf(h[1..])
  {
  }

  lemma AppendFirst(a: seq<(Key, Value)>, b: seq<(Key, Value)>)
    requires b != []
    ensures (a + [b[0]]) + b[1..] == a + b
  {
    assert b == [b[0]] + b[1..];
  }

  /** The keys after the first of a Hash of new keys stay new once the first
      is known too. */
  lemma AllNewTail(a: Hash, b: Hash)
    requires b != [] && AllNew(KeysOf(b), KeysOf(a))
    ensures b[0].0 !in KeysOf(a)
    ensures AllNew(KeysOf(b[1..]), KeysOf(a) + [b[0].0])
  {
    KeysOfTail(b);
    AllNewExtend(KeysOf(b[1..]), KeysOf(a), b[0].0);
  }

  /** Merging a Hash whose keys are all new appends it. */
  lemma {:induction false} MergeDisjoint(a: Hash, b: Hash)
    requires AllNew(KeysOf(b), KeysOf(a))
    ensures Merge(a, b) == a + b
    decreases |b|
  {
    if b != [] {
      AllNewTail(a, b);
      MergeStep(a, b);
      var a': Hash := a + [b[0]];
      KeysOfAppend(a, b[0]);
      MergeDisjoint(a', b[1..]);
      AppendFirst(a, b);
    }
  }

  lemma {:induction false} AllNewOfEmpty(ks: seq<Key>)
    ensures AllNew(ks, [])
  {
    if ks != [] {
      AllNewOfEmpty(ks[1..]);
    }
  }

  /** `{}.merge(b) == b` and `a.merge({}) == a`. */
  lemma MergeIdentity(a: Hash, b: Hash)
    ensures Merge([], b) == b
    ensures Merge(a, []) == a
  {
    AllNewOfEmpty(KeysOf(b));
    MergeDisjoint([], b);
  }

  /** The Hash seen as a finite map. */
  function ToMap(h: Hash): (m: map<Key, Value>)
    ensures m.Keys == set k | k in KeysOf(h)
  {
    map k | k in KeysOf(h) :: GetSomeIffKey(h, k); Get(h, k).value
  }

  /** As a map, `a.merge(b)` is `a + b`: the union of the keys, the argument
      winning on a collision. */
  lemma MergeAsMap(a: Hash, b: Hash)
    ensures ToMap(Merge(a, b)) == ToMap(a) + ToMap(b)
  {
    var m := Merge(a, b);
    forall k | k in ToMap(m) || k in ToMap(a) + ToMap(b)
      ensures k in ToMap(m) && k in ToMap(a) + ToMap(b) && ToMap(m)[k] == (ToMap(a) + ToMap(b))[k]
    {
      MergeGet(a, b, k);
      GetSomeIffKey(m, k);
      GetSomeIffKey(a, k);
      GetSomeIffKey(b, k);
    }
  }
}
