/** The array operations the source uses (`filter`, `findIndex`, `map` with a
    conditional replacement, `new Map(list.map(x => [x._id, x]))`) and the
    facts about them that the controllers and the client cache rely on. */
module Seqs {
  import opened Js

  /** `s.filter(p)`: the elements satisfying `p`, in their original order. */
  function Filter<T(!new)>(s: seq<T>, p: T -> bool): (r: seq<T>)
    ensures |r| <= |s|
    ensures forall x :: x in r <==> x in s && p(x)
  {
    if s == [] then [] else (if p(s[0]) then [s[0]] else []) + Filter(s[1..], p)
  }

  /** Filtering is order-preserving: it distributes over concatenation. */
  lemma {:induction false} FilterAppend<T(!new)>(a: seq<T>, b: seq<T>, p: T -> bool)
    ensures Filter(a + b, p) == Filter(a, p) + Filter(b, p)
  {
    if a == [] {
      assert a + b == b;
    } else {
      assert (a + b)[0] == a[0];
      assert (a + b)[1..] == a[1..] + b;
      FilterAppend(a[1..], b, p);
    }
  }

  /** A filter that keeps every element returns its input. */
  lemma {:induction false} FilterKeepsAll<T(!new)>(s: seq<T>, p: T -> bool)
    requires forall x :: x in s ==> p(x)
    ensures Filter(s, p) == s
  {
    if s != [] {
      FilterKeepsAll(s[1..], p);
    }
  }

  /** A filter that keeps nothing returns the empty sequence. */
  lemma FilterKeepsNone<T(!new)>(s: seq<T>, p: T -> bool)
    requires forall x :: x in s ==> !p(x)
    ensures Filter(s, p) == []
  {
  }

  /** No element occurs twice (the contents of a `Set`). */
  predicate Distinct<T(==)>(s: seq<T>) {
    forall i, j :: 0 <= i < j < |s| ==> s[i] != s[j]
  }

  /** Filtering a sequence without repetitions yields one without
      repetitions. */
  lemma {:induction false} FilterDistinct<T(!new)>(s: seq<T>, p: T -> bool)
    requires Distinct(s)
    ensures Distinct(Filter(s, p))
  {
    if s != [] {
      FilterDistinct(s[1..], p);
      var rest := Filter(s[1..], p);
      if p(s[0]) {
        var r := [s[0]] + rest;
        forall i, j | 0 <= i < j < |r| ensures r[i] != r[j] {
          if i == 0 {
            assert r[j] in rest;
            var k :| 0 <= k < |s[1..]| && s[1..][k] == r[j];
            assert s[k + 1] == r[j];
          } else {
            assert r[i] == rest[i - 1] && r[j] == rest[j - 1];
          }
        }
      }
    }
  }

  /** `a.filter(x => !b.includes(x))`: the elements of `a` absent from `b`,
      in `a`'s order. */
  function Without<T(==,!new)>(a: seq<T>, b: seq<T>): (r: seq<T>)
    ensures forall x :: x in r <==> x in a && x !in b
  {
    Filter(a, x => x !in b)
  }

  /** Removing what is absent from `b` is order-preserving. */
  lemma WithoutAppend<T(!new)>(a1: seq<T>, a2: seq<T>, b: seq<T>)
    ensures Without(a1 + a2, b) == Without(a1, b) + Without(a2, b)
  {
    FilterAppend(a1, a2, x => x !in b);
  }

  /** `s.findIndex(p)`, with -1 as None: the first index satisfying `p`. */
  function FindIndex<T>(s: seq<T>, p: T -> bool): (r: Option<nat>)
    ensures r.Some? ==> r.value < |s| && p(s[r.value])
    ensures r.Some? ==> forall j :: 0 <= j < r.value ==> !p(s[j])
    ensures r.None? <==> forall j :: 0 <= j < |s| ==> !p(s[j])
  {
    if s == [] then None
    else if p(s[0]) then Some(0)
    else match FindIndex(s[1..], p)
      case None => None
      case Some(i) => Some(i + 1)
  }

  /** The keys (`_id`s) occurring in a sequence of records. */
  ghost function Keys<T, K>(s: seq<T>, key: T -> K): set<K> {
    set x | x in s :: key(x)
  }

  lemma KeysAppend<T, K>(s: seq<T>, x: T, key: T -> K)
    ensures Keys(s + [x], key) == Keys(s, key) + {key(x)}
  {
    assert forall y :: y in s + [x] <==> y in s || y == x;
  }

  lemma KeysPrepend<T, K>(x: T, s: seq<T>, key: T -> K)
    ensures Keys([x] + s, key) == Keys(s, key) + {key(x)}
  {
    assert forall y :: y in [x] + s <==> y in s || y == x;
  }

  /** `s.map(e => e._id === k ? x : e)`. */
  function ReplaceWhere<T, K(==)>(s: seq<T>, key: T -> K, k: K, x: T): (r: seq<T>)
    ensures |r| == |s|
  {
    seq(|s|, i requires 0 <= i < |s| => if key(s[i]) == k then x else s[i])
  }

  /** Replacing entries by what they already are changes nothing. */
  lemma ReplaceWhereSame<T(!new), K>(s: seq<T>, key: T -> K, k: K, x: T)
    requires forall e :: e in s && key(e) == k ==> e == x
    ensures ReplaceWhere(s, key, k, x) == s
  {
    var r := ReplaceWhere(s, key, k, x);
    forall i | 0 <= i < |s| ensures r[i] == s[i] {
      assert s[i] in s;
    }
  }

  lemma ReplaceWhereCons<T, K>(y: T, s: seq<T>, key: T -> K, k: K, x: T)
    ensures ReplaceWhere([y] + s, key, k, x)
         == [if key(y) == k then x else y] + ReplaceWhere(s, key, k, x)
  {
  }

  /** A second replacement at the same key overrides the first. */
  lemma ReplaceWhereTwice<T, K>(s: seq<T>, key: T -> K, k: K, x: T, y: T)
    requires key(x) == k
    ensures ReplaceWhere(ReplaceWhere(s, key, k, x), key, k, y) == ReplaceWhere(s, key, k, y)
  {
  }

  /** `s.filter(e => e._id !== k)`. */
  function RemoveWhere<T(!new), K(==)>(s: seq<T>, key: T -> K, k: K): (r: seq<T>)
    ensures forall x :: x in r <==> x in s && key(x) != k
  {
    Filter(s, e => key(e) != k)
  }

  lemma RemoveWhereCons<T(!new), K>(y: T, s: seq<T>, key: T -> K, k: K)
    ensures RemoveWhere([y] + s, key, k)
         == (if key(y) != k then [y] else []) + RemoveWhere(s, key, k)
  {
    assert ([y] + s)[0] == y;
    assert ([y] + s)[1..] == s;
  }

  /** Removing a key that does not occur changes nothing. */
  lemma RemoveAbsent<T(!new), K>(s: seq<T>, key: T -> K, k: K)
    requires k !in Keys(s, key)
    ensures RemoveWhere(s, key, k) == s
  {
    FilterKeepsAll(s, e => key(e) != k);
  }

  /** `new Map(s.map(x => [key(x), x]))`: later entries overwrite earlier ones. */
  function ById<T, K(==)>(s: seq<T>, key: T -> K): (m: map<K, T>)
    ensures m.Keys == Keys(s, key)
    ensures forall k :: k in m ==> key(m[k]) == k && m[k] in s
  {
    if s == [] then map[]
    else
      var init, last := s[..|s| - 1], s[|s| - 1];
      assert s == init + [last];
      KeysAppend(init, last, key);
      ById(init, key)[key(last) := last]
  }

  /** The list and the by-id map of a cache agree: the map holds exactly the
      keys of the list, each mapped to a list entry carrying that key. */
  ghost predicate Indexed<T, K>(s: seq<T>, m: map<K, T>, key: T -> K) {
    && m.Keys == Keys(s, key)
    && forall k :: k in m ==> key(m[k]) == k && m[k] in s
  }

  /** Building the map from the list is what makes the two agree. */
  lemma ByIdIndexed<T, K>(s: seq<T>, key: T -> K)
    ensures Indexed(s, ById(s, key), key)
  {
  }

  lemma IndexedAppend<T, K>(s: seq<T>, m: map<K, T>, x: T, key: T -> K)
    requires Indexed(s, m, key)
    ensures Indexed(s + [x], m[key(x) := x], key)
  {
    KeysAppend(s, x, key);
  }

  lemma IndexedPrepend<T, K>(x: T, s: seq<T>, m: map<K, T>, key: T -> K)
    requires Indexed(s, m, key)
    ensures Indexed([x] + s, m[key(x) := x], key)
  {
    KeysPrepend(x, s, key);
  }

  /** Replacing every entry with key `k` by `x`, in list and map alike. */
  lemma IndexedReplace<T, K>(s: seq<T>, m: map<K, T>, k: K, x: T, key: T -> K)
    requires Indexed(s, m, key)
    requires k in m
    ensures Indexed(ReplaceWhere(s, key, k, x), (m - {k})[key(x) := x], key)
  {
    var r := ReplaceWhere(s, key, k, x);
    var m' := (m - {k})[key(x) := x];
    var i :| 0 <= i < |s| && s[i] == m[k];
    assert r[i] == x;
    forall j | j in Keys(r, key)
      ensures j in m'
    {
      var y :| y in r && key(y) == j;
      var n :| 0 <= n < |r| && r[n] == y;
      if key(s[n]) != k {
        assert s[n] in s;
      }
    }
    forall j | j in m'
      ensures j in Keys(r, key) && key(m'[j]) == j && m'[j] in r
    {
      if j == key(x) {
        assert r[i] in r;
      } else {
        var n :| 0 <= n < |s| && s[n] == m[j];
        assert r[n] == s[n];
        assert r[n] in r;
      }
    }
  }

  /** Removing every entry with key `k`, from list and map alike. */
  lemma IndexedRemove<T(!new), K>(s: seq<T>, m: map<K, T>, k: K, key: T -> K)
    requires Indexed(s, m, key)
    ensures Indexed(RemoveWhere(s, key, k), m - {k}, key)
  {
    var r := RemoveWhere(s, key, k);
    assert Keys(r, key) == Keys(s, key) - {k};
  }
}
