/** `Array.prototype.sort` with a comparator: a stable sort, modelled as
    insertion sort under a total preorder `le` ("`cmp(a, b) <= 0`"). What the
    lemmas prove of it (a permutation, ordered by `le`, stable) is what the
    language guarantees of the engine's sort. */
module Sorting {
  import opened Seqs

  ghost predicate Total<T(!new)>(le: (T, T) -> bool) {
    forall a, b :: le(a, b) || le(b, a)
  }

  ghost predicate Transitive<T(!new)>(le: (T, T) -> bool) {
    forall a, b, c :: le(a, b) && le(b, c) ==> le(a, c)
  }

  ghost predicate Sorted<T>(s: seq<T>, le: (T, T) -> bool) {
    forall i, j :: 0 <= i < j < |s| ==> le(s[i], s[j])
  }

  /** Inserts `x` before the first element it does not follow. */
  function Insert<T>(x: T, s: seq<T>, le: (T, T) -> bool): (r: seq<T>)
    ensures multiset(r) == multiset(s) + multiset{x}
  {
    if s == [] || le(x, s[0]) then [x] + s
    else
      assert s == [s[0]] + s[1..];
      [s[0]] + Insert(x, s[1..], le)
  }

  /** `[...s].sort(cmp)`: a sorted permutation of `s` (see SortByIsSorted). */
  function SortBy<T>(s: seq<T>, le: (T, T) -> bool): (r: seq<T>)
    ensures multiset(r) == multiset(s)
  {
    if s == [] then []
    else
      assert s == [s[0]] + s[1..];
      Insert(s[0], SortBy(s[1..], le), le)
  }

  lemma {:induction false} InsertSorted<T(!new)>(x: T, s: seq<T>, le: (T, T) -> bool)
    requires Total(le) && Transitive(le)
    requires Sorted(s, le)
    ensures Sorted(Insert(x, s, le), le)
  {
    if s == [] || le(x, s[0]) {
      var r := [x] + s;
      forall i, j | 0 <= i < j < |r| ensures le(r[i], r[j]) {
        if i == 0 && j > 1 {
          assert le(s[0], s[j - 1]);
        }
      }
    } else {
      assert le(s[0], x);
      var t := Insert(x, s[1..], le);
      InsertSorted(x, s[1..], le);
      forall e | e in t ensures le(s[0], e) {
        assert e in multiset(t);
        if e != x {
          assert e in multiset(s[1..]);
          var k :| 0 <= k < |s[1..]| && s[1..][k] == e;
          assert s[k + 1] == e;
        }
      }
      var r := [s[0]] + t;
      forall i, j | 0 <= i < j < |r| ensures le(r[i], r[j]) {
        if i == 0 {
          assert r[j] == t[j - 1] && t[j - 1] in t;
        } else {
          assert r[i] == t[i - 1] && r[j] == t[j - 1];
        }
      }
    }
  }

  /** The sort's result is ordered by `le`. */
  lemma {:induction false} SortByIsSorted<T(!new)>(s: seq<T>, le: (T, T) -> bool)
    requires Total(le) && Transitive(le)
    ensures Sorted(SortBy(s, le), le)
  {
    if s != [] {
      SortByIsSorted(s[1..], le);
      InsertSorted(s[0], SortBy(s[1..], le), le);
    }
  }

  /** The elements of `s` that `le` ranks equal to `y`, in their order. */
  function Peers<T(!new)>(s: seq<T>, y: T, le: (T, T) -> bool): seq<T> {
    Filter(s, e => le(e, y) && le(y, e))
  }

  lemma PeersCons<T(!new)>(x: T, s: seq<T>, y: T, le: (T, T) -> bool)
    ensures Peers([x] + s, y, le) == (if le(x, y) && le(y, x) then [x] else []) + Peers(s, y, le)
  {
    assert ([x] + s)[0] == x;
    assert ([x] + s)[1..] == s;
  }

  lemma {:induction false} InsertPeers<T(!new)>(x: T, s: seq<T>, y: T, le: (T, T) -> bool)
    requires Transitive(le)
    ensures Peers(Insert(x, s, le), y, le)
         == (if le(x, y) && le(y, x) then [x] else []) + Peers(s, y, le)
  {
    if s == [] || le(x, s[0]) {
      PeersCons(x, s, y, le);
    } else {
      InsertPeers(x, s[1..], y, le);
      PeersCons(s[0], Insert(x, s[1..], le), y, le);
      PeersCons(s[0], s[1..], y, le);
      assert s == [s[0]] + s[1..];
    }
  }

  /** Stability: elements that `le` ranks equal keep their relative order. */
  lemma {:induction false} SortByIsStable<T(!new)>(s: seq<T>, y: T, le: (T, T) -> bool)
    requires Transitive(le)
    ensures Peers(SortBy(s, le), y, le) == Peers(s, y, le)
  {
    if s != [] {
      SortByIsStable(s[1..], y, le);
      InsertPeers(s[0], SortBy(s[1..], le), y, le);
      PeersCons(s[0], s[1..], y, le);
      assert s == [s[0]] + s[1..];
    }
  }
}
