/**
 * `Array.prototype.sort(compare)` as the core uses it. The ECMAScript standard (section 23.1.3.30
 * of ECMA-262, since the 2019 edition) requires the sort to be stable; with a consistent
 * comparator its result is then the unique stable sorted permutation of the input. It is modelled
 * here as a stable insertion sort over a total preorder `le` ("a may come before b", i.e.
 * compare(a, b) <= 0).
 */
module Sorting {

  ghost predicate TotalPreorder<T(!new)>(le: (T, T) -> bool) {
    && (forall x, y :: le(x, y) || le(y, x))
    && (forall x, y, z :: le(x, y) && le(y, z) ==> le(x, z))
  }

  ghost predicate SortedBy<T>(s: seq<T>, le: (T, T) -> bool) {
    forall i, j :: 0 <= i < j < |s| ==> le(s[i], s[j])
  }

  /** Inserts x before the first element it may precede. */
  function Insert<T>(x: T, s: seq<T>, le: (T, T) -> bool): (r: seq<T>)
    ensures |r| == |s| + 1
  {
    if s == [] || le(x, s[0]) then [x] + s else [s[0]] + Insert(x, s[1..], le)
  }

  /** The stable sort of s by le: the first element goes in front of every element it ties with. */
  function SortBy<T>(s: seq<T>, le: (T, T) -> bool): seq<T> {
    if s == [] then [] else Insert(s[0], SortBy(s[1..], le), le)
  }

  lemma {:induction false} InsertMultiset<T>(x: T, s: seq<T>, le: (T, T) -> bool)
    ensures multiset(Insert(x, s, le)) == multiset{x} + multiset(s)
  {
    if s != [] && !le(x, s[0]) {
      InsertMultiset(x, s[1..], le);
      assert s == [s[0]] + s[1..];
    }
  }

  /** The sort returns a permutation of its input. */
  lemma {:induction false} SortByMultiset<T>(s: seq<T>, le: (T, T) -> bool)
    ensures multiset(SortBy(s, le)) == multiset(s)
  {
    if s != [] {
      SortByMultiset(s[1..], le);
      InsertMultiset(s[0], SortBy(s[1..], le), le);
      assert s == [s[0]] + s[1..];
    }
  }

  lemma InsertSorted<T(!new)>(x: T, s: seq<T>, le: (T, T) -> bool)
    requires TotalPreorder(le)
    requires SortedBy(s, le)
    ensures SortedBy(Insert(x, s, le), le)
  {
    var r := Insert(x, s, le);
    var m := InsertPos(x, s, le);
    forall i, j | 0 <= i < j < |r|
      ensures le(r[i], r[j])
    {
      InsertAt(x, s, le, i);
      InsertAt(x, s, le, j);
      if j < m {
        assert le(s[i], s[j]);
      } else if j == m {
        assert !le(x, s[i]);
      } else if i < m {
        assert le(s[i], s[j - 1]);
      } else if i == m {
        assert le(x, s[m]);
        if j - 1 > m {
          assert le(s[m], s[j - 1]);
        }
      } else {
        assert le(s[i - 1], s[j - 1]);
      }
    }
  }

  /** The sort orders its result by le. */
  lemma {:induction false} SortBySorted<T(!new)>(s: seq<T>, le: (T, T) -> bool)
    requires TotalPreorder(le)
    ensures SortedBy(SortBy(s, le), le)
  {
    if s != [] {
      SortBySorted(s[1..], le);
      InsertSorted(s[0], SortBy(s[1..], le), le);
    }
  }

  /** The position Insert puts x at: before the first element x may precede. */
  function InsertPos<T>(x: T, s: seq<T>, le: (T, T) -> bool): (m: nat)
    ensures m <= |s|
    ensures forall k :: 0 <= k < m ==> !le(x, s[k])
    ensures m < |s| ==> le(x, s[m])
  {
    if s == [] || le(x, s[0]) then 0 else InsertPos(x, s[1..], le) + 1
  }

  /** Insert puts x between the elements before InsertPos and the rest. */
  lemma {:induction false} InsertSplit<T>(x: T, s: seq<T>, le: (T, T) -> bool)
    ensures var m := InsertPos(x, s, le);
      Insert(x, s, le) == s[..m] + [x] + s[m..]
  {
    if s == [] || le(x, s[0]) {
      assert s[..0] == [] && s[0..] == s;
    } else {
      InsertSplit(x, s[1..], le);
      var m := InsertPos(x, s[1..], le);
      assert s[..m + 1] == [s[0]] + s[1..][..m];
      assert s[m + 1..] == s[1..][m..];
    }
  }

  /** Of any two elements le ranks equal, the earlier is `before` the later. */
  ghost predicate TiesOrderedBy<T>(s: seq<T>, le: (T, T) -> bool, before: (T, T) -> bool) {
    forall i, j :: 0 <= i < j < |s| && le(s[i], s[j]) && le(s[j], s[i]) ==> before(s[i], s[j])
  }

  /** Inserting x in front of every element it ties with keeps ties ordered. */
  lemma InsertStable<T(!new)>(x: T, s: seq<T>, le: (T, T) -> bool, before: (T, T) -> bool)
    requires TiesOrderedBy(s, le, before)
    requires forall k :: 0 <= k < |s| && le(x, s[k]) && le(s[k], x) ==> before(x, s[k])
    ensures TiesOrderedBy(Insert(x, s, le), le, before)
  {
    var r := Insert(x, s, le);
    var m := InsertPos(x, s, le);
    forall i, j | 0 <= i < j < |r| && le(r[i], r[j]) && le(r[j], r[i])
      ensures before(r[i], r[j])
    {
      InsertAt(x, s, le, i);
      InsertAt(x, s, le, j);
      if i < m && j > m {
        assert before(s[i], s[j - 1]);
      } else if i > m {
        assert before(s[i - 1], s[j - 1]);
      } else if i < m && j < m {
        assert before(s[i], s[j]);
      } else if j == m {
        assert false;
      }
    }
  }

  /** Where each element of s sits once x is inserted. */
  lemma InsertAt<T>(x: T, s: seq<T>, le: (T, T) -> bool, i: nat)
    requires i <= |s|
    ensures var m := InsertPos(x, s, le);
      Insert(x, s, le)[i] == if i < m then s[i] else if i == m then x else s[i - 1]
  {
    InsertSplit(x, s, le);
  }

  /**
   * Stability: if, among elements that le ranks equal, the input lists them in an order that a
   * second relation `before` describes, then so does the result.
   */
  lemma {:induction false} SortByStable<T(!new)>(s: seq<T>, le: (T, T) -> bool, before: (T, T) -> bool)
    requires TotalPreorder(le)
    requires TiesOrderedBy(s, le, before)
    ensures TiesOrderedBy(SortBy(s, le), le, before)
  {
    if s != [] {
      var x := s[0];
      var tail := s[1..];
      assert TiesOrderedBy(tail, le, before) by {
        forall i, j | 0 <= i < j < |tail| ensures tail[i] == s[i + 1] && tail[j] == s[j + 1] {}
      }
      SortByStable(tail, le, before);
      var sorted := SortBy(tail, le);
      SortByMultiset(tail, le);
      forall k | 0 <= k < |sorted| && le(x, sorted[k]) && le(sorted[k], x)
        ensures before(x, sorted[k])
      {
        assert sorted[k] in multiset(tail);
        var q :| 0 <= q < |tail| && tail[q] == sorted[k];
        assert s[q + 1] == sorted[k];
      }
      InsertStable(x, sorted, le, before);
    }
  }

  ghost predicate DistinctBy<T, K>(s: seq<T>, key: T -> K) {
    forall i, j :: 0 <= i < j < |s| ==> key(s[i]) != key(s[j])
  }

  /** Inserting an element whose key is new keeps the keys distinct. */
  lemma InsertDistinct<T, K>(x: T, s: seq<T>, le: (T, T) -> bool, key: T -> K)
    requires DistinctBy(s, key)
    requires forall k :: 0 <= k < |s| ==> key(s[k]) != key(x)
    ensures DistinctBy(Insert(x, s, le), key)
  {
    var m := InsertPos(x, s, le);
    var r := Insert(x, s, le);
    forall i, j | 0 <= i < j < |r|
      ensures key(r[i]) != key(r[j])
    {
      InsertAt(x, s, le, i);
      InsertAt(x, s, le, j);
      if i == m {
        assert key(r[j]) == key(s[j - 1]);
      } else if j == m {
        assert key(r[i]) == key(s[i]);
      } else {
        var i' := if i < m then i else i - 1;
        var j' := if j < m then j else j - 1;
        assert i' < j' && r[i] == s[i'] && r[j] == s[j'];
      }
    }
  }

  /** Sorting keeps keys that were distinct distinct. */
  lemma {:induction false} SortByDistinct<T, K>(s: seq<T>, le: (T, T) -> bool, key: T -> K)
    requires DistinctBy(s, key)
    ensures DistinctBy(SortBy(s, le), key)
  {
    if s != [] {
      var tail := s[1..];
      assert DistinctBy(tail, key) by {
        forall i, j | 0 <= i < j < |tail| ensures key(tail[i]) != key(tail[j]) {
          assert tail[i] == s[i + 1] && tail[j] == s[j + 1];
        }
      }
      SortByDistinct(tail, le, key);
      var sorted := SortBy(tail, le);
      SortByMultiset(tail, le);
      forall k | 0 <= k < |sorted|
        ensures key(sorted[k]) != key(s[0])
      {
        assert sorted[k] in multiset(tail);
        var q :| 0 <= q < |tail| && tail[q] == sorted[k];
        assert s[q + 1] == sorted[k];
      }
      InsertDistinct(s[0], sorted, le, key);
    }
  }

  /** `s.flatMap(f)` */
  function FlatMap<T, U>(s: seq<T>, f: T -> seq<U>): seq<U> {
    if s == [] then [] else f(s[0]) + FlatMap(s[1..], f)
  }

  lemma {:induction false} FlatMapAppend<T, U>(s: seq<T>, t: seq<T>, f: T -> seq<U>)
    ensures FlatMap(s + t, f) == FlatMap(s, f) + FlatMap(t, f)
  {
    if s == [] {
      assert s + t == t;
    } else {
      assert (s + t)[0] == s[0] && (s + t)[1..] == s[1..] + t;
      FlatMapAppend(s[1..], t, f);
    }
  }

  lemma {:induction false} InsertFlatMap<T, U>(x: T, s: seq<T>, le: (T, T) -> bool, f: T -> seq<U>)
    ensures multiset(FlatMap(Insert(x, s, le), f)) == multiset(f(x)) + multiset(FlatMap(s, f))
  {
    if s != [] && !le(x, s[0]) {
      InsertFlatMap(x, s[1..], le, f);
      assert ([s[0]] + Insert(x, s[1..], le))[1..] == Insert(x, s[1..], le);
    }
  }

  /** Sorting the groups does not change which elements they hold together. */
  lemma {:induction false} SortByFlatMap<T, U>(s: seq<T>, le: (T, T) -> bool, f: T -> seq<U>)
    ensures multiset(FlatMap(SortBy(s, le), f)) == multiset(FlatMap(s, f))
  {
    if s != [] {
      SortByFlatMap(s[1..], le, f);
      InsertFlatMap(s[0], SortBy(s[1..], le), le, f);
    }
  }

  lemma SortByMember<T>(s: seq<T>, le: (T, T) -> bool, x: T)
    ensures x in SortBy(s, le) <==> x in s
  {
    SortByMultiset(s, le);
    assert x in SortBy(s, le) <==> x in multiset(SortBy(s, le));
  }

  /** Two lists whose elements hold the same values pair by pair flatten to the same values. */
  lemma {:induction false} FlatMapSameMultiset<T, U, V>(s: seq<T>, f: T -> seq<V>, r: seq<U>, g: U -> seq<V>)
    requires |s| == |r|
    requires forall i :: 0 <= i < |s| ==> multiset(f(s[i])) == multiset(g(r[i]))
    ensures multiset(FlatMap(s, f)) == multiset(FlatMap(r, g))
  {
    if s != [] {
      assert forall i :: 0 <= i < |s| - 1 ==> s[1..][i] == s[i + 1] && r[1..][i] == r[i + 1];
      FlatMapSameMultiset(s[1..], f, r[1..], g);
    }
  }
}
