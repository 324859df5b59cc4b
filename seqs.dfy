/**
  Sequence operations shared by the screens: `Array.prototype.filter` and a stable
  `Array.prototype.sort` with a comparator, given as an order predicate `le`
  ("a may come before b", i.e. the comparator returns a value <= 0).
*/
module Seqs {

  /** `s.filter(p)`. */
  function Filter<T>(s: seq<T>, p: T -> bool): (r: seq<T>)
    ensures |r| <= |s|
    ensures forall i :: 0 <= i < |r| ==> r[i] in s && p(r[i])
    ensures forall i :: 0 <= i < |s| && p(s[i]) ==> s[i] in r
  {
    if s == [] then [] else (if p(s[0]) then [s[0]] else []) + Filter(s[1..], p)
  }

  /** Filtering distributes over concatenation, so it keeps the relative order of what it keeps. */
  lemma {:induction false} FilterConcat<T>(a: seq<T>, b: seq<T>, p: T -> bool)
    ensures Filter(a + b, p) == Filter(a, p) + Filter(b, p)
  {
    if a != [] {
      assert (a + b)[0] == a[0];
      assert (a + b)[1..] == a[1..] + b;
      FilterConcat(a[1..], b, p);
      calc {
        Filter(a + b, p);
        (if p(a[0]) then [a[0]] else []) + Filter(a[1..] + b, p);
        (if p(a[0]) then [a[0]] else []) + (Filter(a[1..], p) + Filter(b, p));
      }
    } else {
      assert a + b == b;
    }
  }

  /** A filter that keeps every element is the identity. */
  lemma {:induction false} FilterKeepsAll<T>(s: seq<T>, p: T -> bool)
    requires forall i :: 0 <= i < |s| ==> p(s[i])
    ensures Filter(s, p) == s
  {
    if s != [] {
      FilterKeepsAll(s[1..], p);
    }
  }

  /** A predicate and its negation split a sequence into two parts that together hold every element once. */
  lemma {:induction false} FilterPartition<T>(s: seq<T>, p: T -> bool, q: T -> bool)
    requires forall i :: 0 <= i < |s| ==> q(s[i]) == !p(s[i])
    ensures multiset(Filter(s, p)) + multiset(Filter(s, q)) == multiset(s)
  {
    if s != [] {
      FilterPartition(s[1..], p, q);
      assert s == [s[0]] + s[1..];
    }
  }

  /** Filtering by a stronger predicate picks a sub-multiset. */
  lemma {:induction false} FilterStronger<T>(s: seq<T>, p: T -> bool, q: T -> bool)
    requires forall i :: 0 <= i < |s| ==> q(s[i]) ==> p(s[i])
    ensures multiset(Filter(s, q)) <= multiset(Filter(s, p))
  {
    if s != [] {
      FilterStronger(s[1..], p, q);
    }
  }

  // ---------------------------------------------------------------------------
  // Stable sorting
  // ---------------------------------------------------------------------------

  /** A comparator that is consistent: every pair is ordered one way or the other, transitively. */
  ghost predicate TotalPreorder<T(!new)>(le: (T, T) -> bool)
  {
    && (forall a, b :: le(a, b) || le(b, a))
    && (forall a, b, c :: le(a, b) && le(b, c) ==> le(a, c))
  }

  ghost predicate SortedBy<T>(s: seq<T>, le: (T, T) -> bool)
  {
    forall i, j :: 0 <= i < j < |s| ==> le(s[i], s[j])
  }

  /** Insert x in front of the first element it may precede. */
  function InsertBy<T(!new)>(x: T, s: seq<T>, le: (T, T) -> bool): (r: seq<T>)
    requires TotalPreorder(le) && SortedBy(s, le)
    ensures multiset(r) == multiset(s) + multiset{x}
    ensures SortedBy(r, le)
  {
    if s == [] || le(x, s[0]) then
      [x] + s
    else
      var t := InsertBy(x, s[1..], le);
      assert forall j :: 0 <= j < |t| ==> le(s[0], t[j]) by {
        forall j | 0 <= j < |t| ensures le(s[0], t[j]) {
          assert t[j] in multiset(t);
          if t[j] != x {
            assert t[j] in multiset(s[1..]);
            var k :| 0 <= k < |s[1..]| && s[1..][k] == t[j];
            assert s[k + 1] == t[j];
          }
        }
      }
      assert s == [s[0]] + s[1..];
      [s[0]] + t
  }

  /** Stable insertion sort: `s.sort(cmp)` for a consistent comparator. */
  function SortBy<T(!new)>(s: seq<T>, le: (T, T) -> bool): (r: seq<T>)
    requires TotalPreorder(le)
    ensures multiset(r) == multiset(s) && |r| == |s|
    ensures SortedBy(r, le)
  {
    if s == [] then []
    else
      assert s == [s[0]] + s[1..];
      InsertBy(s[0], SortBy(s[1..], le), le)
  }

  /**
    Inserting keeps the order among ties: among the elements that `same` picks out (the
    ones tied with some k), x comes first when it is one of them, and the rest keep their order.
  */
  lemma {:induction false} InsertByStable<T(!new)>(x: T, s: seq<T>, le: (T, T) -> bool, k: T, same: T -> bool)
    requires TotalPreorder(le) && SortedBy(s, le)
    requires forall t :: same(t) == (le(t, k) && le(k, t))
    ensures Filter(InsertBy(x, s, le), same) == (if same(x) then [x] else []) + Filter(s, same)
  {
    if s == [] || le(x, s[0]) {
      InsertByFront(x, s, le);
      FilterCons(x, s, same);
    } else {
      SortedTail(s, le);
      InsertByStable(x, s[1..], le, k, same);
      InsertByStableStep(x, s, le, k, same);
    }
  }

  /** The step of `InsertByStable` where x moves past the first element. */
  lemma InsertByStableStep<T(!new)>(x: T, s: seq<T>, le: (T, T) -> bool, k: T, same: T -> bool)
    requires TotalPreorder(le) && SortedBy(s, le) && s != [] && !le(x, s[0])
    requires forall t :: same(t) == (le(t, k) && le(k, t))
    requires SortedBy(s[1..], le)
    requires Filter(InsertBy(x, s[1..], le), same) == (if same(x) then [x] else []) + Filter(s[1..], same)
    ensures Filter(InsertBy(x, s, le), same) == (if same(x) then [x] else []) + Filter(s, same)
  {
    var t := InsertBy(x, s[1..], le);
    var xs: seq<T> := if same(x) then [x] else [];
    var ys: seq<T> := if same(s[0]) then [s[0]] else [];
    InsertByPast(x, s, le);
    FilterCons(s[0], t, same);
    FilterCons(s[0], s[1..], same);
    assert s == [s[0]] + s[1..];
    if same(x) {
      TiedNotBelow(x, s[0], le, k, same);
    }
    SwapFront(xs, ys, Filter(s[1..], same));
  }

  lemma SwapFront<T>(xs: seq<T>, ys: seq<T>, b: seq<T>)
    requires xs == [] || ys == []
    ensures ys + (xs + b) == xs + (ys + b)
  {
    if xs == [] {
      assert xs + b == b && xs + (ys + b) == ys + b;
    } else {
      assert ys + (xs + b) == xs + b && ys + b == b;
    }
  }

  lemma InsertByFront<T(!new)>(x: T, s: seq<T>, le: (T, T) -> bool)
    requires TotalPreorder(le) && SortedBy(s, le) && (s == [] || le(x, s[0]))
    ensures InsertBy(x, s, le) == [x] + s
  {
  }

  lemma InsertByPast<T(!new)>(x: T, s: seq<T>, le: (T, T) -> bool)
    requires TotalPreorder(le) && SortedBy(s, le) && s != [] && !le(x, s[0])
    ensures SortedBy(s[1..], le)
    ensures InsertBy(x, s, le) == [s[0]] + InsertBy(x, s[1..], le)
  {
  }

  lemma SortedTail<T>(s: seq<T>, le: (T, T) -> bool)
    requires SortedBy(s, le) && s != []
    ensures SortedBy(s[1..], le)
  {
  }

  lemma FilterCons<T>(x: T, s: seq<T>, p: T -> bool)
    ensures Filter([x] + s, p) == (if p(x) then [x] else []) + Filter(s, p)
  {
    assert ([x] + s)[1..] == s;
  }

  /** An element that x cannot precede is strictly below x, so it is not tied with anything x is tied with. */
  lemma TiedNotBelow<T(!new)>(x: T, y: T, le: (T, T) -> bool, k: T, same: T -> bool)
    requires TotalPreorder(le) && !le(x, y)
    requires forall t :: same(t) == (le(t, k) && le(k, t))
    requires same(x)
    ensures !same(y)
  {
  }

  /**
    The sort is stable: the elements tied with any k appear in the result in the order
    they had in the input, so `s.sort(cmp)` with a comparator that returns 0 for
    them leaves them as they were.
  */
  lemma {:induction false} SortByStable<T(!new)>(s: seq<T>, le: (T, T) -> bool, k: T, same: T -> bool)
    requires TotalPreorder(le)
    requires forall t :: same(t) == (le(t, k) && le(k, t))
    ensures Filter(SortBy(s, le), same) == Filter(s, same)
  {
    if s != [] {
      SortByStable(s[1..], le, k, same);
      InsertByStable(s[0], SortBy(s[1..], le), le, k, same);
    }
  }

  /** Sorting what is already in order changes nothing. */
  lemma {:induction false} SortBySorted<T(!new)>(s: seq<T>, le: (T, T) -> bool)
    requires TotalPreorder(le) && SortedBy(s, le)
    ensures SortBy(s, le) == s
  {
    if s != [] {
      SortBySorted(s[1..], le);
    }
  }

  /** No element occurs twice. */
  predicate NoDuplicates<T(==)>(s: seq<T>)
  {
    forall i, j :: 0 <= i < j < |s| ==> s[i] != s[j]
  }

  /** A sequence without duplicates is one whose multiset counts every element at most once. */
  lemma NoDuplicatesMultiset<T>(s: seq<T>)
    ensures NoDuplicates(s) <==> forall x :: multiset(s)[x] <= 1
  {
    if NoDuplicates(s) {
      forall x ensures multiset(s)[x] <= 1 {
        NoDuplicatesCount(s, x);
      }
    } else {
      var i, j :| 0 <= i < j < |s| && s[i] == s[j];
      assert s == s[..j] + [s[j]] + s[j + 1..];
      assert s[i] in multiset(s[..j]) by { assert s[..j][i] == s[i]; }
      assert multiset(s)[s[i]] >= 2;
    }
  }

  lemma {:induction false} NoDuplicatesCount<T>(s: seq<T>, x: T)
    requires NoDuplicates(s)
    ensures multiset(s)[x] <= 1
  {
    if s != [] {
      NoDuplicatesCount(s[1..], x);
      assert s == [s[0]] + s[1..];
      if s[0] == x {
        assert x !in s[1..];
      }
    }
  }
}
