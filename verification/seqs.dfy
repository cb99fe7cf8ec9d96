/** Order-preserving filtering and subsequences over immutable sequences:
    the `Array.prototype.filter` that every list view of the marketplace is built from. */
module Seqs {

  /** The elements of `s` that satisfy `p`, in their original order. */
  function Filter<T(!new)>(s: seq<T>, p: T -> bool): (r: seq<T>)
    ensures |r| <= |s|
    ensures forall x :: x in r <==> x in s && p(x)
  {
    if |s| == 0 then [] else (if p(s[0]) then [s[0]] else []) + Filter(s[1..], p)
  }

  /** `a` can be obtained from `b` by deleting elements, keeping the rest in order. */
  predicate IsSubseq<T(==,!new)>(a: seq<T>, b: seq<T>)
    decreases |b|
  {
    if |a| == 0 then true
    else if |b| == 0 then false
    else (a[0] == b[0] && IsSubseq(a[1..], b[1..])) || IsSubseq(a, b[1..])
  }

  /** Filtering a list with a given head: the head, if kept, followed by the filtered tail. */
  lemma FilterCons<T(!new)>(x: T, t: seq<T>, p: T -> bool)
    ensures Filter([x] + t, p) == (if p(x) then [x] else []) + Filter(t, p)
  {
    assert ([x] + t)[1..] == t;
  }

  /** Moving an element `x` that shares no kept status with the head `y`
      past it: if filtering `rest` gives `x`'s entry and then the filter of `t`,
      filtering `y` in front of `rest` gives `x`'s entry and then the filter of `y` in front of `t`. */
  lemma FilterSwapPast<T(!new)>(x: T, y: T, t: seq<T>, rest: seq<T>, p: T -> bool)
    requires !p(x) || !p(y)
    requires Filter(rest, p) == (if p(x) then [x] else []) + Filter(t, p)
    ensures Filter([y] + rest, p) == (if p(x) then [x] else []) + Filter([y] + t, p)
  {
    var m: seq<T> := if p(x) then [x] else [];
    var fr, ft := Filter(rest, p), Filter(t, p);
    var hy: seq<T> := if p(y) then [y] else [];
    FilterCons(y, rest, p);
    FilterCons(y, t, p);
    assert Filter([y] + rest, p) == hy + fr;
    assert Filter([y] + t, p) == hy + ft;
    assert fr == m + ft;
    if p(y) {
      assert m == [];
      assert fr == ft;
      assert hy + fr == m + (hy + ft);
    } else {
      assert hy == [];
      assert hy + fr == fr;
      assert hy + ft == ft;
    }
  }

  /** The same step for a list `ins` that is `t`'s head followed by `rest`. */
  lemma FilterPastHead<T(!new)>(x: T, t: seq<T>, rest: seq<T>, ins: seq<T>, m: seq<T>, p: T -> bool)
    requires |t| > 0 && ins == [t[0]] + rest
    requires !p(x) || !p(t[0])
    requires m == if p(x) then [x] else []
    requires Filter(rest, p) == m + Filter(t[1..], p)
    ensures Filter(ins, p) == m + Filter(t, p)
  {
    assert t == [t[0]] + t[1..];
    FilterSwapPast(x, t[0], t[1..], rest, p);
  }

  /** A filter result is an order-preserving subsequence of its input. */
  lemma {:induction false} FilterIsSubseq<T(!new)>(s: seq<T>, p: T -> bool)
    ensures IsSubseq(Filter(s, p), s)
  {
    if |s| > 0 {
      FilterIsSubseq(s[1..], p);
      var rest := Filter(s[1..], p);
      if p(s[0]) {
        assert Filter(s, p) == [s[0]] + rest;
        assert ([s[0]] + rest)[1..] == rest;
      } else {
        assert Filter(s, p) == rest;
      }
    }
  }

  /** A weaker predicate keeps everything a stronger one keeps, in the same order. */
  lemma {:induction false} FilterMonotone<T(!new)>(s: seq<T>, p: T -> bool, q: T -> bool)
    requires forall x :: p(x) ==> q(x)
    ensures IsSubseq(Filter(s, p), Filter(s, q))
  {
    if |s| > 0 {
      FilterMonotone(s[1..], p, q);
      var restP, restQ := Filter(s[1..], p), Filter(s[1..], q);
      if p(s[0]) {
        assert Filter(s, p) == [s[0]] + restP;
        assert Filter(s, q) == [s[0]] + restQ;
        assert ([s[0]] + restP)[1..] == restP;
        assert ([s[0]] + restQ)[1..] == restQ;
      } else if q(s[0]) {
        assert Filter(s, p) == restP;
        assert Filter(s, q) == [s[0]] + restQ;
        assert ([s[0]] + restQ)[1..] == restQ;
      } else {
        assert Filter(s, p) == restP;
        assert Filter(s, q) == restQ;
      }
    }
  }

  /** Filtering twice is filtering once by the conjunction. */
  lemma {:induction false} FilterCompose<T(!new)>(s: seq<T>, p: T -> bool, q: T -> bool, both: T -> bool)
    requires forall x :: both(x) == (p(x) && q(x))
    ensures Filter(Filter(s, p), q) == Filter(s, both)
  {
    if |s| > 0 {
      FilterCompose(s[1..], p, q, both);
      FilterAppend((if p(s[0]) then [s[0]] else []), Filter(s[1..], p), q);
      if p(s[0]) {
        assert Filter([s[0]], q) == (if q(s[0]) then [s[0]] else []) by {
          assert [s[0]][1..] == [];
        }
      }
    }
  }

  /** Filtering is determined by which elements of the input the predicate accepts. */
  lemma {:induction false} FilterExt<T(!new)>(s: seq<T>, p: T -> bool, q: T -> bool)
    requires forall x :: x in s ==> p(x) == q(x)
    ensures Filter(s, p) == Filter(s, q)
  {
    if |s| > 0 {
      FilterExt(s[1..], p, q);
    }
  }

  /** A predicate no element satisfies leaves nothing. */
  lemma {:induction false} FilterNone<T(!new)>(s: seq<T>, p: T -> bool)
    requires forall x :: x in s ==> !p(x)
    ensures Filter(s, p) == []
  {
    if |s| > 0 {
      FilterNone(s[1..], p);
    }
  }

  /** Filtering distributes over concatenation. */
  lemma {:induction false} FilterAppend<T(!new)>(a: seq<T>, b: seq<T>, p: T -> bool)
    ensures Filter(a + b, p) == Filter(a, p) + Filter(b, p)
  {
    if |a| > 0 {
      assert (a + b)[1..] == a[1..] + b;
      FilterAppend(a[1..], b, p);
    } else {
      assert a + b == b;
    }
  }

  /** Every element is kept by exactly one of `p` and its negation. */
  lemma {:induction false} FilterSplit<T(!new)>(s: seq<T>, p: T -> bool, notP: T -> bool)
    requires forall x :: notP(x) == !p(x)
    ensures |Filter(s, p)| + |Filter(s, notP)| == |s|
  {
    if |s| > 0 {
      FilterSplit(s[1..], p, notP);
    }
  }

  /** Filtering by a predicate every element satisfies changes nothing. */
  lemma {:induction false} FilterAll<T(!new)>(s: seq<T>, p: T -> bool)
    requires forall i :: 0 <= i < |s| ==> p(s[i])
    ensures Filter(s, p) == s
  {
    if |s| > 0 {
      FilterAll(s[1..], p);
      assert s == [s[0]] + s[1..];
    }
  }

  /** Two equally long sequences whose elements agree position by position on `p`
      keep the same number of elements. */
  lemma {:induction false} FilterCountPointwise<T(!new)>(a: seq<T>, b: seq<T>, p: T -> bool)
    requires |a| == |b|
    requires forall i :: 0 <= i < |a| ==> p(a[i]) == p(b[i])
    ensures |Filter(a, p)| == |Filter(b, p)|
  {
    if |a| > 0 {
      assert forall i :: 0 <= i < |a[1..]| ==> a[1..][i] == a[i + 1] && b[1..][i] == b[i + 1];
      FilterCountPointwise(a[1..], b[1..], p);
    }
  }
  /** Filtering keeps every occurrence of an accepted element and none of a
      rejected one: the result's multiset is the input's, restricted to `p`. */
  lemma {:induction false} FilterMultiset<T(!new)>(s: seq<T>, p: T -> bool)
    ensures forall x :: multiset(Filter(s, p))[x] == if p(x) then multiset(s)[x] else 0
  {
    if |s| > 0 {
      FilterMultiset(s[1..], p);
      var h := if p(s[0]) then [s[0]] else [];
      assert s == [s[0]] + s[1..];
      assert multiset(s) == multiset{s[0]} + multiset(s[1..]);
      assert multiset(Filter(s, p)) == multiset(h) + multiset(Filter(s[1..], p));
    }
  }
}
