/**
 * Sequence operations behind the Python idioms of the knowledge store:
 * list comprehensions with an `if`, `dict.items()` / `.keys()` / `.values()`
 * in insertion order, and `dict.get`.
 */
module Seqs {
  import opened Wrappers

  /** `xs` is obtained from `ys` by deleting elements, so it keeps their order. */
  predicate IsSubsequence<T(==)>(xs: seq<T>, ys: seq<T>)
    decreases |ys|
  {
    if xs == [] then true
    else if ys == [] then false
    else (xs[0] == ys[0] && IsSubsequence(xs[1..], ys[1..])) || IsSubsequence(xs, ys[1..])
  }

  /** The elements of `s` that satisfy `p`, in order: `[x for x in s if p(x)]`. */
  function Filter<T(==)>(s: seq<T>, p: T -> bool): (r: seq<T>)
    ensures |r| <= |s|
    ensures forall i :: 0 <= i < |r| ==> r[i] in s && p(r[i])
    ensures forall i :: 0 <= i < |s| && p(s[i]) ==> s[i] in r
    ensures IsSubsequence(r, s)
  {
    if s == [] then []
    else if p(s[0]) then [s[0]] + Filter(s[1..], p)
    else Filter(s[1..], p)
  }

  /** The filter keeps every copy of a passing element and none of a failing one:
      each element occurs in the result as often as in `s` when it passes, and not at all otherwise. */
  lemma {:induction false} FilterKeepsCopies<T>(s: seq<T>, p: T -> bool)
    ensures forall x :: multiset(Filter(s, p))[x] == if p(x) then multiset(s)[x] else 0
  {
    if s != [] {
      FilterKeepsCopies(s[1..], p);
      assert s == [s[0]] + s[1..];
      assert multiset(s) == multiset{s[0]} + multiset(s[1..]);
    }
  }

  /** Nothing passes the filter exactly when no element satisfies the predicate. */
  lemma FilterEmptyIff<T>(s: seq<T>, p: T -> bool)
    ensures Filter(s, p) == [] <==> forall k :: 0 <= k < |s| ==> !p(s[k])
  {
    var r := Filter(s, p);
    if r != [] {
      var k :| 0 <= k < |s| && s[k] == r[0];
      assert p(s[k]);
    }
  }

  /** Filtering by equivalent predicates gives the same list. */
  lemma {:induction false} FilterEquivalent<T>(s: seq<T>, p: T -> bool, q: T -> bool)
    requires forall x :: x in s ==> p(x) == q(x)
    ensures Filter(s, p) == Filter(s, q)
  {
    if s != [] {
      FilterEquivalent(s[1..], p, q);
    }
  }

  /** Filtering twice is filtering once by the conjunction. */
  lemma {:induction false} FilterTwice<T>(s: seq<T>, p: T -> bool, q: T -> bool, pq: T -> bool)
    requires forall x :: x in s ==> pq(x) == (p(x) && q(x))
    ensures Filter(Filter(s, p), q) == Filter(s, pq)
  {
    if s != [] {
      FilterTwice(s[1..], p, q, pq);
      if p(s[0]) {
        assert Filter(s, p) == [s[0]] + Filter(s[1..], p);
        assert Filter(s, p)[1..] == Filter(s[1..], p);
      }
    }
  }

  /** `[f(x) for x in s]`. */
  function MapSeq<T, U>(s: seq<T>, f: T -> U): (r: seq<U>)
    ensures |r| == |s|
    ensures forall i :: 0 <= i < |s| ==> r[i] == f(s[i])
  {
    seq(|s|, i requires 0 <= i < |s| => f(s[i]))
  }

  /** Mapping over a prefix one element longer appends that element's image. */
  lemma MapSeqPrefixStep<T, U>(s: seq<T>, k: nat, f: T -> U)
    requires k < |s|
    ensures MapSeq(s[..k + 1], f) == MapSeq(s[..k], f) + [f(s[k])]
  {
  }

  /** The prefix of full length is the whole sequence. */
  lemma WholePrefix<T>(s: seq<T>)
    ensures s[..|s|] == s
  {
  }

  /** The values present in `found`, in order: the `None`s are dropped. */
  function Somes<T>(found: seq<Option<T>>): (r: seq<T>)
    ensures |r| <= |found|
    ensures forall i :: 0 <= i < |r| ==> Some(r[i]) in found
    ensures forall i :: 0 <= i < |found| && found[i].Some? ==> found[i].value in r
    ensures (forall i :: 0 <= i < |found| ==> found[i].Some?) ==> |r| == |found|
  {
    if found == [] then []
    else
      var earlier := Somes(found[..|found| - 1]);
      assert found == found[..|found| - 1] + [found[|found| - 1]];
      match found[|found| - 1]
      case Some(v) => earlier + [v]
      case None => earlier
  }

  /** One more element adds its value, if it has one, at the end. */
  lemma SomesStep<T>(found: seq<Option<T>>, o: Option<T>)
    ensures Somes(found + [o]) == if o.Some? then Somes(found) + [o.value] else Somes(found)
  {
    assert (found + [o])[..|found|] == found;
  }

  /** Two present values are kept, in order. */
  lemma SomesPair<T>(a: T, b: T)
    ensures Somes([Some(a), Some(b)]) == [a, b]
  {
    SomesStep([], Some(a));
    SomesStep([Some(a)], Some(b));
  }

  /** Mapping over two elements. */
  lemma MapSeqPair<T, U>(x: T, y: T, f: T -> U)
    ensures MapSeq([x, y], f) == [f(x), f(y)]
  {
  }

  /** The keys of an association list, in insertion order (`d.keys()`). */
  function Keys<K, V>(t: seq<(K, V)>): (ks: seq<K>)
    ensures |ks| == |t|
    ensures forall i :: 0 <= i < |t| ==> ks[i] == t[i].0
  {
    seq(|t|, i requires 0 <= i < |t| => t[i].0)
  }

  /** The values of an association list, in insertion order (`d.values()`). */
  function Values<K, V>(t: seq<(K, V)>): (vs: seq<V>)
    ensures |vs| == |t|
    ensures forall i :: 0 <= i < |t| ==> vs[i] == t[i].1
  {
    seq(|t|, i requires 0 <= i < |t| => t[i].1)
  }

  /** No key occurs twice, as in every Python dict. */
  predicate UniqueKeys<K(==), V>(t: seq<(K, V)>) {
    forall i, j :: 0 <= i < j < |t| ==> t[i].0 != t[j].0
  }

  /** `d.get(k)`: the value stored under `k`, found by scanning in insertion order, or None. */
  function Lookup<K(==), V>(t: seq<(K, V)>, k: K): (r: Option<V>)
    ensures r.Some? <==> k in Keys(t)
    ensures r.Some? ==> (k, r.value) in t
  {
    if t == [] then None
    else if t[0].0 == k then Some(t[0].1)
    else
      assert Keys(t) == [t[0].0] + Keys(t[1..]);
      Lookup(t[1..], k)
  }

  /** With unique keys, `d.get(k)` returns exactly the value stored under `k`. */
  lemma {:induction false} LookupFinds<K, V>(t: seq<(K, V)>, k: K, v: V)
    requires UniqueKeys(t)
    requires (k, v) in t
    ensures Lookup(t, k) == Some(v)
  {
    if t[0] != (k, v) {
      assert (k, v) in t[1..];
      LookupFinds(t[1..], k, v);
    }
  }
}
