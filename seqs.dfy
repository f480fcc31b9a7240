/** Sequence primitives the code gets from JavaScript's Array: `filter`,
    a `reduce` that sums, and the stable `sort` with a numeric comparator. */
module Seqs {
  import opened Numeric

  /** `filter`: the elements satisfying `p`, in their original order. */
  function Keep<T>(s: seq<T>, p: T -> bool): (r: seq<T>)
    ensures |r| <= |s|
    ensures forall i :: 0 <= i < |r| ==> p(r[i])
  {
    if s == [] then []
    else Keep(s[..|s| - 1], p) + (if p(s[|s| - 1]) then [s[|s| - 1]] else [])
  }

  /** Filtering the concatenation filters each part and keeps the parts in order. */
  lemma {:induction false} KeepAppend<T>(a: seq<T>, b: seq<T>, p: T -> bool)
    ensures Keep(a + b, p) == Keep(a, p) + Keep(b, p)
  {
    if b == [] {
      assert a + b == a;
    } else {
      var b' := b[..|b| - 1];
      assert (a + b)[..|a + b| - 1] == a + b';
      KeepAppend(a, b', p);
    }
  }

  /** `filter` of a one-more-element prefix adds that element when it qualifies. */
  lemma KeepSnoc<T>(s: seq<T>, x: T, p: T -> bool)
    ensures Keep(s + [x], p) == Keep(s, p) + (if p(x) then [x] else [])
  {
    assert (s + [x])[..|s|] == s;
  }

  /** A predicate and its negation split a sequence: nothing lost, nothing duplicated. */
  lemma {:induction false} KeepPartition<T>(s: seq<T>, p: T -> bool, q: T -> bool)
    requires forall x :: q(x) == !p(x)
    ensures multiset(Keep(s, p)) + multiset(Keep(s, q)) == multiset(s)
    ensures |Keep(s, p)| + |Keep(s, q)| == |s|
  {
    if s != [] {
      var s', x := s[..|s| - 1], s[|s| - 1];
      KeepPartition(s', p, q);
      assert s == s' + [x];
      KeepSnoc(s', x, p);
      KeepSnoc(s', x, q);
      assert multiset(s) == multiset(s') + multiset{x};
    }
  }

  /** Every element of a filtered sequence that is the filter of all elements
      satisfies a stronger predicate kept everywhere. */
  lemma {:induction false} KeepAll<T>(s: seq<T>, p: T -> bool)
    requires forall i :: 0 <= i < |s| ==> p(s[i])
    ensures Keep(s, p) == s
  {
    if s != [] {
      KeepAll(s[..|s| - 1], p);
      assert s == s[..|s| - 1] + [s[|s| - 1]];
    }
  }

  lemma {:induction false} KeepNone<T>(s: seq<T>, p: T -> bool)
    requires forall i :: 0 <= i < |s| ==> !p(s[i])
    ensures Keep(s, p) == []
  {
    if s != [] {
      KeepNone(s[..|s| - 1], p);
    }
  }

  /** An element survives the filter exactly when it is there and qualifies. */
  lemma {:induction false} KeepMember<T>(s: seq<T>, p: T -> bool, x: T)
    ensures x in Keep(s, p) <==> x in s && p(x)
  {
    if s != [] {
      var s' := s[..|s| - 1];
      KeepMember(s', p, x);
      assert s == s' + [s[|s| - 1]];
    }
  }

  /** Filters by two disjoint predicates together select as many as their union. */
  lemma {:induction false} KeepUnion<T>(s: seq<T>, p: T -> bool, q: T -> bool, r: T -> bool)
    requires forall x :: p(x) == (q(x) || r(x))
    requires forall x :: !(q(x) && r(x))
    ensures |Keep(s, p)| == |Keep(s, q)| + |Keep(s, r)|
  {
    if s != [] {
      KeepUnion(s[..|s| - 1], p, q, r);
    }
  }

  /** A stronger predicate never selects more. */
  lemma {:induction false} KeepFewer<T>(s: seq<T>, p: T -> bool, q: T -> bool)
    requires forall x :: q(x) ==> p(x)
    ensures |Keep(s, q)| <= |Keep(s, p)|
  {
    if s != [] {
      KeepFewer(s[..|s| - 1], p, q);
    }
  }

  /** Three predicates of which exactly one holds split a sequence. */
  lemma {:induction false} KeepPartition3<T>(s: seq<T>, p: T -> bool, q: T -> bool, r: T -> bool)
    requires forall x :: (p(x) || q(x) || r(x)) && !(p(x) && q(x)) && !(p(x) && r(x)) && !(q(x) && r(x))
    ensures multiset(Keep(s, p)) + multiset(Keep(s, q)) + multiset(Keep(s, r)) == multiset(s)
    ensures |Keep(s, p)| + |Keep(s, q)| + |Keep(s, r)| == |s|
  {
    if s != [] {
      var s', x := s[..|s| - 1], s[|s| - 1];
      KeepPartition3(s', p, q, r);
      assert s == s' + [x];
      KeepSnoc3(s', x, p, q, r);
    }
  }

  lemma KeepSnoc3<T>(s: seq<T>, x: T, p: T -> bool, q: T -> bool, r: T -> bool)
    requires (p(x) || q(x) || r(x)) && !(p(x) && q(x)) && !(p(x) && r(x)) && !(q(x) && r(x))
    ensures multiset(Keep(s + [x], p)) + multiset(Keep(s + [x], q)) + multiset(Keep(s + [x], r))
         == multiset(Keep(s, p)) + multiset(Keep(s, q)) + multiset(Keep(s, r)) + multiset{x}
    ensures |Keep(s + [x], p)| + |Keep(s + [x], q)| + |Keep(s + [x], r)|
         == |Keep(s, p)| + |Keep(s, q)| + |Keep(s, r)| + 1
  {
    KeepSnoc(s, x, p);
    KeepSnoc(s, x, q);
    KeepSnoc(s, x, r);
  }

  /** The first n elements, or all of them when there are fewer (`slice(0, n)`). */
  function Take<T>(s: seq<T>, n: nat): (r: seq<T>)
    ensures |r| == if n <= |s| then n else |s|
    ensures forall k :: 0 <= k < |r| ==> r[k] == s[k]
  {
    if n <= |s| then s[..n] else s
  }

  /** `reverse`. */
  function Reverse<T>(s: seq<T>): (r: seq<T>)
    ensures |r| == |s|
    ensures forall k :: 0 <= k < |s| ==> r[k] == s[|s| - 1 - k]
  {
    if s == [] then [] else [s[|s| - 1]] + Reverse(s[..|s| - 1])
  }

  /** `reduce((sum, x) => sum + f(x), 0)`, folding from the front. */
  function SumOf<T>(s: seq<T>, f: T -> real): real
  {
    if s == [] then 0.0 else SumOf(s[..|s| - 1], f) + f(s[|s| - 1])
  }

  lemma SumOfSnoc<T>(s: seq<T>, x: T, f: T -> real)
    ensures SumOf(s + [x], f) == SumOf(s, f) + f(x)
  {
    assert (s + [x])[..|s|] == s;
  }

  /** A sum of terms each at most m is at most |s| * m, and at least |s| * lo. */
  lemma {:induction false} SumOfBounds<T>(s: seq<T>, f: T -> real, lo: real, hi: real)
    requires forall i :: 0 <= i < |s| ==> lo <= f(s[i]) <= hi
    ensures (|s| as real) * lo <= SumOf(s, f) <= (|s| as real) * hi
  {
    if s != [] {
      SumOfBounds(s[..|s| - 1], f, lo, hi);
    }
  }

  /** The mean of terms each in [lo, hi] is in [lo, hi]. */
  lemma MeanOfBounded<T>(s: seq<T>, f: T -> real, lo: real, hi: real)
    requires |s| > 0
    requires forall i :: 0 <= i < |s| ==> lo <= f(s[i]) <= hi
    ensures lo <= SumOf(s, f) / (|s| as real) <= hi
  {
    SumOfBounds(s, f, lo, hi);
    MeanBounds(SumOf(s, f), |s| as real, lo, hi);
  }

  /** Sorted by `key`, largest first. */
  ghost predicate SortedDesc<T>(s: seq<T>, key: T -> real)
  {
    forall i, j :: 0 <= i < j < |s| ==> key(s[i]) >= key(s[j])
  }

  /** Puts x in front of the first element whose key is not larger, so that an
      element inserted earlier stays behind the equal ones already there. */
  function Insert<T>(x: T, s: seq<T>, key: T -> real): (r: seq<T>)
    ensures |r| == |s| + 1
    ensures multiset(r) == multiset(s) + multiset{x}
  {
    if s == [] || key(x) >= key(s[0]) then
      [x] + s
    else
      assert s == [s[0]] + s[1..];
      [s[0]] + Insert(x, s[1..], key)
  }

  lemma {:induction false} InsertSorted<T>(x: T, s: seq<T>, key: T -> real)
    requires SortedDesc(s, key)
    ensures SortedDesc(Insert(x, s, key), key)
  {
    if s != [] && key(x) < key(s[0]) {
      var rest := Insert(x, s[1..], key);
      InsertSorted(x, s[1..], key);
      forall k | 0 <= k < |rest| ensures key(s[0]) >= key(rest[k]) {
        assert rest[k] in multiset(rest);
        assert rest[k] in multiset(s[1..]) + multiset{x};
        if rest[k] != x {
          assert rest[k] in s[1..];
        }
      }
    }
  }

  /** The stable sort `sort((a, b) => key(b) - key(a))`: largest key first,
      equal keys in their original order. */
  function SortDesc<T>(s: seq<T>, key: T -> real): (r: seq<T>)
    ensures |r| == |s|
  {
    if s == [] then [] else Insert(s[0], SortDesc(s[1..], key), key)
  }

  /** The sort permutes its input into descending key order. */
  lemma {:induction false} SortDescSpec<T>(s: seq<T>, key: T -> real)
    ensures multiset(SortDesc(s, key)) == multiset(s)
    ensures SortedDesc(SortDesc(s, key), key)
  {
    if s != [] {
      assert s == [s[0]] + s[1..];
      SortDescSpec(s[1..], key);
      InsertSorted(s[0], SortDesc(s[1..], key), key);
    }
  }
}
