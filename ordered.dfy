/**
 * Insertion-ordered sets and maps, the way JavaScript's `Set` and plain
 * objects behave: iteration follows first insertion, adding an element that
 * is already present changes nothing, and assigning to an existing key keeps
 * the key's position while replacing its value.
 */
module Ordered {
  import opened Wrappers

  /** No element occurs twice. */
  predicate NoDup<T(==)>(s: seq<T>) {
    forall i, j :: 0 <= i < j < |s| ==> s[i] != s[j]
  }

  /** The elements of a sequence, as a mathematical set. */
  function Elems<T>(s: seq<T>): set<T> {
    set x | x in s
  }

  lemma ElemsConcat<T>(a: seq<T>, b: seq<T>)
    ensures Elems(a + b) == Elems(a) + Elems(b)
  {
    assert forall x :: x in a + b <==> x in a || x in b;
  }

  /** Two sequences without duplicates and with no common element concatenate without duplicates. */
  lemma NoDupConcat<T>(a: seq<T>, b: seq<T>)
    requires NoDup(a) && NoDup(b) && Elems(a) !! Elems(b)
    ensures NoDup(a + b)
  {
    var c := a + b;
    forall i, j | 0 <= i < j < |c|
      ensures c[i] != c[j]
    {
      if j < |a| {
        assert c[i] == a[i] && c[j] == a[j];
      } else if i >= |a| {
        assert c[i] == b[i - |a|] && c[j] == b[j - |a|];
      } else {
        assert c[i] == a[i] && c[i] in Elems(a);
        assert c[j] == b[j - |a|] && c[j] in Elems(b);
      }
    }
  }

  /** `set.add(x)`: appends `x` unless it is already present. */
  function Add<T(==)>(s: seq<T>, x: T): (r: seq<T>)
    ensures Elems(r) == Elems(s) + {x}
    ensures NoDup(s) ==> NoDup(r)
    ensures s <= r && |r| <= |s| + 1
  {
    if x in s then s else s + [x]
  }

  lemma InAdd<T>(s: seq<T>, y: T, x: T)
    ensures x in Add(s, y) <==> x in s || x == y
  {
  }

  /** `xs.forEach(x => set.add(x))`: the elements are added in order (the definition peels off the last one). */
  function AddAll<T(==)>(s: seq<T>, xs: seq<T>): (r: seq<T>)
    ensures s <= r
  {
    if xs == [] then s else Add(AddAll(s, xs[..|xs| - 1]), xs[|xs| - 1])
  }

  lemma {:induction false} InAddAll<T>(s: seq<T>, xs: seq<T>, x: T)
    ensures x in AddAll(s, xs) <==> x in s || x in xs
    decreases |xs|
  {
    if xs != [] {
      var init := xs[..|xs| - 1];
      assert xs == init + [xs[|xs| - 1]];
      InAddAll(s, init, x);
      InAdd(AddAll(s, init), xs[|xs| - 1], x);
    }
  }

  lemma {:induction false} AddAllNoDup<T>(s: seq<T>, xs: seq<T>)
    requires NoDup(s)
    ensures NoDup(AddAll(s, xs))
    decreases |xs|
  {
    if xs != [] {
      AddAllNoDup(s, xs[..|xs| - 1]);
    }
  }

  /** Adding two runs one after the other is adding their concatenation. */
  lemma {:induction false} AddAllConcat<T>(s: seq<T>, a: seq<T>, b: seq<T>)
    ensures AddAll(s, a + b) == AddAll(AddAll(s, a), b)
    decreases |b|
  {
    if b == [] {
      assert a + b == a;
    } else {
      var init := b[..|b| - 1];
      assert (a + b)[..|a + b| - 1] == a + init;
      assert (a + b)[|a + b| - 1] == b[|b| - 1];
      AddAllConcat(s, a, init);
    }
  }

  /** The loop `for (const x of xs) set.add(x)`. */
  method ForEachAdd<T(==)>(s: seq<T>, xs: seq<T>) returns (r: seq<T>)
    ensures r == AddAll(s, xs)
  {
    r := s;
    for i := 0 to |xs|
      invariant r == AddAll(s, xs[..i])
    {
      assert xs[..i + 1][..i] == xs[..i];
      r := Add(r, xs[i]);
    }
    assert xs[..|xs|] == xs;
  }

  /** One key/value pair of an insertion-ordered map. */
  datatype Entry<+V> = Entry(key: string, value: V)

  /** `Object.keys(m)`, in insertion order. */
  function Keys<V>(m: seq<Entry<V>>): (ks: seq<string>)
    ensures |ks| == |m|
    ensures forall i :: 0 <= i < |m| ==> ks[i] == m[i].key
  {
    if m == [] then [] else [m[0].key] + Keys(m[1..])
  }

  /** Every key occurs once, as in a JavaScript object. */
  predicate UniqueKeys<V>(m: seq<Entry<V>>) {
    NoDup(Keys(m))
  }

  /** `m[k]`, or None when `k` is not a key. */
  function Get<V(==)>(m: seq<Entry<V>>, k: string): (r: Option<V>)
    ensures r.None? <==> k !in Keys(m)
    ensures r.Some? ==> Entry(k, r.value) in m
  {
    if m == [] then None
    else if m[0].key == k then Some(m[0].value)
    else Get(m[1..], k)
  }

  /** `m[k] = v`: replaces the value of an existing key in place, otherwise appends. */
  function Put<V(==)>(m: seq<Entry<V>>, k: string, v: V): (r: seq<Entry<V>>)
    ensures Keys(r) == Add(Keys(m), k)
    ensures Get(r, k) == Some(v)
    ensures forall k' :: k' != k ==> Get(r, k') == Get(m, k')
  {
    if m == [] then [Entry(k, v)]
    else if m[0].key == k then
      PutFirst(m, k, v);
      [Entry(k, v)] + m[1..]
    else
      var rest := Put(m[1..], k, v);
      PutLaterKeys(m, k, rest);
      PutLaterGet(m, k, v, rest);
      [m[0]] + rest
  }

  /** Replacing the value of the first entry keeps the keys and changes only that key's value. */
  lemma PutFirst<V>(m: seq<Entry<V>>, k: string, v: V)
    requires m != [] && m[0].key == k
    ensures var r := [Entry(k, v)] + m[1..];
            && Keys(r) == Add(Keys(m), k)
            && Get(r, k) == Some(v)
            && forall k' :: k' != k ==> Get(r, k') == Get(m, k')
  {
    var r := [Entry(k, v)] + m[1..];
    assert Keys(m) == [m[0].key] + Keys(m[1..]);
    assert r[1..] == m[1..];
    assert Keys(m)[0] == k;
    assert Keys(r) == Keys(m);
  }

  /** Putting into the tail, behind a first entry under another key: the keys. */
  lemma PutLaterKeys<V>(m: seq<Entry<V>>, k: string, rest: seq<Entry<V>>)
    requires m != [] && m[0].key != k
    requires Keys(rest) == Add(Keys(m[1..]), k)
    ensures Keys([m[0]] + rest) == Add(Keys(m), k)
  {
    KeysCons(m[0], m[1..]);
    assert m == [m[0]] + m[1..];
    KeysCons(m[0], rest);
    AddCons(m[0].key, Keys(m[1..]), k);
  }

  /** Putting into the tail, behind a first entry under another key: the lookups. */
  lemma PutLaterGet<V>(m: seq<Entry<V>>, k: string, v: V, rest: seq<Entry<V>>)
    requires m != [] && m[0].key != k
    requires Get(rest, k) == Some(v)
    requires forall k' :: k' != k ==> Get(rest, k') == Get(m[1..], k')
    ensures var r := [m[0]] + rest;
            && Get(r, k) == Some(v)
            && forall k' :: k' != k ==> Get(r, k') == Get(m, k')
  {
    var r := [m[0]] + rest;
    assert r[1..] == rest;
  }

  lemma KeysCons<V>(e: Entry<V>, m: seq<Entry<V>>)
    ensures Keys([e] + m) == [e.key] + Keys(m)
  {
    assert ([e] + m)[1..] == m;
  }

  /** Adding behind a different first element is adding to the tail. */
  lemma AddCons<T>(x: T, s: seq<T>, y: T)
    requires x != y
    ensures Add([x] + s, y) == [x] + Add(s, y)
  {
    if y in s {
      assert y in [x] + s;
    } else {
      assert y !in [x] + s;
      assert [x] + s + [y] == [x] + (s + [y]);
    }
  }

  /** The keys of `m` other than `k`, in order. */
  function KeysWithout(ks: seq<string>, k: string): (r: seq<string>)
    ensures Elems(r) == Elems(ks) - {k}
    ensures NoDup(ks) ==> NoDup(r)
  {
    if ks == [] then []
    else
      var rest := KeysWithout(ks[1..], k);
      assert Elems(ks) == {ks[0]} + Elems(ks[1..]);
      if ks[0] == k then rest
      else
        assert Elems([ks[0]] + rest) == {ks[0]} + Elems(rest);
        [ks[0]] + rest
  }

  /** `delete m[k]`: removes the key, keeping the order of the others. */
  function Remove<V(==)>(m: seq<Entry<V>>, k: string): (r: seq<Entry<V>>)
    ensures Keys(r) == KeysWithout(Keys(m), k)
    ensures forall k' :: k' != k ==> Get(r, k') == Get(m, k')
  {
    if m == [] then []
    else
      var rest := Remove(m[1..], k);
      assert Keys(m) == [m[0].key] + Keys(m[1..]);
      assert Keys(m)[1..] == Keys(m[1..]);
      if m[0].key == k then rest
      else
        var r := [m[0]] + rest;
        assert r[1..] == rest;
        assert Keys(r) == [m[0].key] + Keys(rest);
        r
  }

  /** Deleting one key keeps every entry under another key. */
  lemma {:induction false} RemoveKeeps<V>(m: seq<Entry<V>>, k: string, e: Entry<V>)
    requires e in m && e.key != k
    ensures e in Remove(m, k)
  {
    if m[0] != e {
      assert e in m[1..];
      RemoveKeeps(m[1..], k, e);
    }
  }
}
