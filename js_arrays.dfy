/** The JavaScript array operations the components use: `map`, `filter`,
    `find` and `slice`, as functions on sequences, with the facts about them
    the rest of the model relies on. */
module JsArrays {

  import opened Types

  /** `xs.map(f)`. */
  function Map<A, B>(f: A -> B, xs: seq<A>): (r: seq<B>)
    ensures |r| == |xs|
    ensures forall i :: 0 <= i < |xs| ==> r[i] == f(xs[i])
  {
    if xs == [] then [] else [f(xs[0])] + Map(f, xs[1..])
  }

  /** `xs.filter(p)`: the elements satisfying `p`, in their original order. */
  function Filter<T>(p: T -> bool, xs: seq<T>): (r: seq<T>)
    ensures |r| <= |xs|
    ensures forall x :: x in r ==> x in xs && p(x)
  {
    if xs == [] then []
    else if p(xs[0]) then [xs[0]] + Filter(p, xs[1..])
    else Filter(p, xs[1..])
  }

  /** `a` can be obtained from `b` by deleting elements. */
  ghost predicate IsSubsequence<T>(a: seq<T>, b: seq<T>)
    decreases |b|
  {
    if a == [] then true
    else if b == [] then false
    else if a[0] == b[0] then IsSubsequence(a[1..], b[1..])
    else IsSubsequence(a, b[1..])
  }

  lemma {:induction false} FilterIsSubsequence<T>(p: T -> bool, xs: seq<T>)
    ensures IsSubsequence(Filter(p, xs), xs)
  {
    if xs != [] {
      FilterIsSubsequence(p, xs[1..]);
      if !p(xs[0]) {
        SubsequenceDropHead(Filter(p, xs[1..]), xs);
      }
    }
  }

  lemma {:induction false} SubsequenceDropHead<T>(a: seq<T>, b: seq<T>)
    requires b != [] && IsSubsequence(a, b[1..])
    ensures IsSubsequence(a, b)
    decreases |a| + |b|
  {
    if a != [] && a[0] == b[0] {
      SubsequenceTail(a, b[1..]);
    }
  }

  lemma {:induction false} SubsequenceTail<T>(a: seq<T>, b: seq<T>)
    requires a != [] && IsSubsequence(a, b)
    ensures IsSubsequence(a[1..], b)
    decreases |a| + |b|
  {
    if a[0] == b[0] {
      if a[1..] != [] {
        SubsequenceDropHead(a[1..], b);
      }
    } else {
      SubsequenceTail(a, b[1..]);
      if a[1..] != [] {
        SubsequenceDropHead(a[1..], b);
      }
    }
  }

  /** Membership in a filtered array, in both directions. */
  lemma {:induction false} FilterMembership<T>(p: T -> bool, xs: seq<T>, x: T)
    ensures x in Filter(p, xs) <==> x in xs && p(x)
  {
    if xs != [] {
      FilterMembership(p, xs[1..], x);
      assert xs == [xs[0]] + xs[1..];
    }
  }

  /** Filtering distributes over concatenation, so it keeps the store's order. */
  lemma {:induction false} FilterAppend<T>(p: T -> bool, xs: seq<T>, ys: seq<T>)
    ensures Filter(p, xs + ys) == Filter(p, xs) + Filter(p, ys)
  {
    if xs == [] {
      assert xs + ys == ys;
    } else {
      var zs := xs + ys;
      assert zs[0] == xs[0] && zs[1..] == xs[1..] + ys;
      FilterAppend(p, xs[1..], ys);
      if p(xs[0]) {
        assert Filter(p, zs) == [xs[0]] + Filter(p, xs[1..] + ys);
        assert [xs[0]] + (Filter(p, xs[1..]) + Filter(p, ys)) == ([xs[0]] + Filter(p, xs[1..])) + Filter(p, ys);
      } else {
        assert Filter(p, zs) == Filter(p, xs[1..] + ys);
      }
    }
  }

  /** When every element passes, `filter` returns the array unchanged. */
  lemma {:induction false} FilterKeepsAll<T>(p: T -> bool, xs: seq<T>)
    requires forall i :: 0 <= i < |xs| ==> p(xs[i])
    ensures Filter(p, xs) == xs
  {
    if xs != [] {
      FilterKeepsAll(p, xs[1..]);
    }
  }

  /** The filtered array is empty exactly when no element passes. */
  lemma {:induction false} FilterEmpty<T>(p: T -> bool, xs: seq<T>)
    ensures Filter(p, xs) == [] <==> forall i :: 0 <= i < |xs| ==> !p(xs[i])
  {
    if xs != [] {
      FilterEmpty(p, xs[1..]);
      assert forall i :: 1 <= i < |xs| ==> xs[i] == xs[1..][i - 1];
    }
  }

  /** Filtering with a stronger predicate keeps exactly the elements of the
      first filter that also pass the second. */
  lemma {:induction false} FilterFilter<T>(p: T -> bool, q: T -> bool, pq: T -> bool, xs: seq<T>)
    requires forall x :: pq(x) == (p(x) && q(x))
    ensures Filter(pq, xs) == Filter(q, Filter(p, xs))
  {
    if xs != [] {
      FilterFilter(p, q, pq, xs[1..]);
    }
  }

  /** `xs.find(p)`: the first element satisfying `p`, if any. */
  function Find<T>(p: T -> bool, xs: seq<T>): (r: Option<T>)
    ensures r.None? <==> forall i :: 0 <= i < |xs| ==> !p(xs[i])
    ensures r.Some? ==> exists k :: 0 <= k < |xs| && xs[k] == r.value && p(xs[k])
                                   && forall j :: 0 <= j < k ==> !p(xs[j])
  {
    if xs == [] then None
    else if p(xs[0]) then Some(xs[0])
    else
      var r := Find(p, xs[1..]);
      assert forall i :: 1 <= i < |xs| ==> xs[i] == xs[1..][i - 1];
      assert r.Some? ==> exists k :: 1 <= k < |xs| && xs[k] == r.value && p(xs[k])
                                     && forall j :: 0 <= j < k ==> !p(xs[j]) by {
        if r.Some? {
          var k :| 0 <= k < |xs[1..]| && xs[1..][k] == r.value && p(xs[1..][k])
                   && forall j :: 0 <= j < k ==> !p(xs[1..][j]);
          assert xs[k + 1] == r.value;
        }
      }
      r
  }

  /** How `slice` resolves an index against an array of length `n`: negative
      indices count from the end, and both ends are clamped into 0..n. */
  function ClampIndex(k: int, n: nat): (r: nat)
    ensures r <= n
    ensures 0 <= k <= n ==> r == k
    ensures k > n ==> r == n
    ensures k < 0 && n + k >= 0 ==> r == n + k
    ensures n + k < 0 ==> r == 0
  {
    if k < 0 then (if n + k < 0 then 0 else n + k)
    else if k > n then n
    else k
  }

  /** `xs.slice(start, end)`. */
  function Slice<T>(xs: seq<T>, start: int, end: int): (r: seq<T>)
    ensures |r| <= |xs|
    ensures 0 <= start <= end <= |xs| ==> r == xs[start..end]
    ensures 0 <= end <= start ==> r == []
  {
    var s := ClampIndex(start, |xs|);
    var e := ClampIndex(end, |xs|);
    if s < e then xs[s..e] else []
  }

  /** Where `x`, an element that came before all of `ys`, lands in the sorted
      `ys`: before the first element it does not compare greater than. */
  function Insert<T>(x: T, ys: seq<T>, cmp: (T, T) -> real): (r: seq<T>)
    ensures |r| == |ys| + 1
    ensures multiset(r) == multiset(ys) + multiset{x}
  {
    if ys == [] then [x]
    else if cmp(x, ys[0]) <= 0.0 then [x] + ys
    else
      assert ys == [ys[0]] + ys[1..];
      [ys[0]] + Insert(x, ys[1..], cmp)
  }

  /** `xs.sort(cmp)`, as an insertion sort from the back. The insertion
      keeps elements that compare equal in their input order, as the
      language's stable sort does; that stability is not stated as a
      contract here. */
  function Sort<T>(xs: seq<T>, cmp: (T, T) -> real): (r: seq<T>)
    ensures multiset(r) == multiset(xs)
  {
    if xs == [] then []
    else
      assert xs == [xs[0]] + xs[1..];
      Insert(xs[0], Sort(xs[1..], cmp), cmp)
  }

  /** Any two elements compare one way or the other. */
  ghost predicate TotalComparator<T(!new)>(cmp: (T, T) -> real) {
    forall a, b :: cmp(a, b) <= 0.0 || cmp(b, a) <= 0.0
  }

  ghost predicate TransitiveComparator<T(!new)>(cmp: (T, T) -> real) {
    forall a, b, c :: cmp(a, b) <= 0.0 && cmp(b, c) <= 0.0 ==> cmp(a, c) <= 0.0
  }

  /** Every element comes no later than each element after it. */
  ghost predicate SortedBy<T>(xs: seq<T>, cmp: (T, T) -> real) {
    forall i, j :: 0 <= i < j < |xs| ==> cmp(xs[i], xs[j]) <= 0.0
  }

  lemma {:induction false} InsertLowerBound<T>(x: T, ys: seq<T>, cmp: (T, T) -> real, lo: T)
    requires forall i :: 0 <= i < |ys| ==> cmp(lo, ys[i]) <= 0.0
    requires cmp(lo, x) <= 0.0
    ensures forall i :: 0 <= i < |Insert(x, ys, cmp)| ==> cmp(lo, Insert(x, ys, cmp)[i]) <= 0.0
  {
    if ys != [] && cmp(x, ys[0]) > 0.0 {
      InsertLowerBound(x, ys[1..], cmp, lo);
    }
  }

  lemma {:induction false} InsertSorted<T(!new)>(x: T, ys: seq<T>, cmp: (T, T) -> real)
    requires TotalComparator(cmp) && TransitiveComparator(cmp) && SortedBy(ys, cmp)
    ensures SortedBy(Insert(x, ys, cmp), cmp)
  {
    if ys == [] {
    } else if cmp(x, ys[0]) <= 0.0 {
      var r := Insert(x, ys, cmp);
      assert r == [x] + ys;
      forall j | 0 < j < |r|
        ensures cmp(x, r[j]) <= 0.0
      {
        assert r[j] == ys[j - 1];
        if j > 1 {
          assert cmp(ys[0], ys[j - 1]) <= 0.0;
        }
      }
    } else {
      assert cmp(ys[0], x) <= 0.0;
      InsertSorted(x, ys[1..], cmp);
      InsertLowerBound(x, ys[1..], cmp, ys[0]);
    }
  }

  /** With a consistent comparator, the sorted array is in order. */
  lemma {:induction false} SortSorted<T(!new)>(xs: seq<T>, cmp: (T, T) -> real)
    requires TotalComparator(cmp) && TransitiveComparator(cmp)
    ensures SortedBy(Sort(xs, cmp), cmp)
  {
    if xs != [] {
      SortSorted(xs[1..], cmp);
      InsertSorted(xs[0], Sort(xs[1..], cmp), cmp);
    }
  }
}
