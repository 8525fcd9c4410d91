/** Grouping a list into an insertion-ordered dict of lists, the shape of every
    bucketing loop in the analysis services:
      for x in xs: k = key(x); if k in results: results[k].append(x) else: results[k] = [x] */
module Buckets {
  import opened Dicts
  import opened Subsequences
  import Sorting

  type Buckets<T> = Dict<seq<T>>

  /** All bucket contents, bucket after bucket. */
  function Flatten<T>(m: Buckets<T>): seq<T> {
    if m == [] then [] else m[0].1 + Flatten(m[1..])
  }

  /** The elements of `xs` whose key is `k`, in their order in `xs`. */
  function Bucket<T>(xs: seq<T>, keyOf: T -> string, k: string): seq<T> {
    if xs == [] then []
    else Bucket(xs[..|xs| - 1], keyOf, k) + (if keyOf(xs[|xs| - 1]) == k then [xs[|xs| - 1]] else [])
  }

  /** The position of the first element of `xs` whose key is `k` (`|xs|` if none). */
  function FirstIndex<T>(xs: seq<T>, keyOf: T -> string, k: string): (r: nat)
    ensures r <= |xs|
    ensures r < |xs| ==> keyOf(xs[r]) == k
    ensures forall j :: 0 <= j < r ==> keyOf(xs[j]) != k
  {
    if xs == [] then 0
    else if keyOf(xs[0]) == k then 0
    else 1 + FirstIndex(xs[1..], keyOf, k)
  }

  /** What a grouping of `xs` by `keyOf` must be: one bucket per key that occurs
      and no other, each bucket the elements with that key in input order,
      buckets in order of their key's first occurrence, and nothing lost or
      duplicated overall. */
  ghost predicate IsGrouping<T>(r: Buckets<T>, xs: seq<T>, keyOf: T -> string) {
    && DistinctKeys(r)
    && KeysOccur(r, xs, keyOf)
    && BucketsExact(r, xs, keyOf)
    && InFirstOccurrenceOrder(r, xs, keyOf)
    && multiset(Flatten(r)) == multiset(xs)
  }

  /** The keys are exactly the keys that occur in `xs`. */
  ghost predicate KeysOccur<T>(r: Buckets<T>, xs: seq<T>, keyOf: T -> string) {
    forall k :: Has(r, k) <==> exists j :: 0 <= j < |xs| && keyOf(xs[j]) == k
  }

  /** Each bucket holds exactly the elements with its key, in input order, and is not empty. */
  ghost predicate BucketsExact<T>(r: Buckets<T>, xs: seq<T>, keyOf: T -> string) {
    forall i :: 0 <= i < |r| ==> r[i].1 == Bucket(xs, keyOf, r[i].0) && r[i].1 != []
  }

  /** The keys come in the order of their first occurrence in `xs`. */
  ghost predicate InFirstOccurrenceOrder<T>(r: Buckets<T>, xs: seq<T>, keyOf: T -> string) {
    forall a, b :: 0 <= a < b < |r| ==> FirstIndex(xs, keyOf, r[a].0) < FirstIndex(xs, keyOf, r[b].0)
  }

  /** One step of the loop: append `x` to its bucket, creating the bucket if new. */
  function AddTo<T>(m: Buckets<T>, k: string, x: T): Buckets<T> {
    if Has(m, k) then Put(m, k, Get(m, k) + [x]) else Put(m, k, [x])
  }

  /** The dict the loop holds after the elements of `xs`. */
  function GroupOf<T>(xs: seq<T>, keyOf: T -> string): Buckets<T> {
    if xs == [] then []
    else AddTo(GroupOf(xs[..|xs| - 1], keyOf), keyOf(xs[|xs| - 1]), xs[|xs| - 1])
  }

  /** The grouping loop. */
  method GroupBy<T>(xs: seq<T>, keyOf: T -> string) returns (results: Buckets<T>)
    ensures results == GroupOf(xs, keyOf)
    ensures IsGrouping(results, xs, keyOf)
  {
    results := [];
    var i := 0;
    while i < |xs|
      invariant 0 <= i <= |xs|
      invariant results == GroupOf(xs[..i], keyOf)
    {
      var x := xs[i];
      var k := keyOf(x);
      if Has(results, k) {
        results := Put(results, k, Get(results, k) + [x]);
      } else {
        results := Put(results, k, [x]);
      }
      assert xs[..i + 1][..i] == xs[..i];
      i := i + 1;
    }
    assert xs[..i] == xs;
    GroupOfIsGrouping(xs, keyOf);
  }

  /** Each key with the size of its bucket, in dict order. */
  function Sizes<T>(m: Buckets<T>): (c: Sorting.Counts)
    ensures |c| == |m| && forall i :: 0 <= i < |m| ==> c[i] == (m[i].0, |m[i].1|)
  {
    seq(|m|, i requires 0 <= i < |m| => (m[i].0, |m[i].1|))
  }

  /** `len(d[k]) if k in d else 0`: how many elements of `xs` have key `k`. */
  lemma GroupingCount<T>(r: Buckets<T>, xs: seq<T>, keyOf: T -> string, k: string)
    requires IsGrouping(r, xs, keyOf)
    ensures (if Has(r, k) then |Get(r, k)| else 0) == |Bucket(xs, keyOf, k)|
  {
    if Has(r, k) {
      GetAt(r, IndexOf(r, k));
    } else {
      forall j | 0 <= j < |xs| ensures keyOf(xs[j]) != k {
        assert exists j' :: 0 <= j' < |xs| && keyOf(xs[j']) == keyOf(xs[j]);
      }
      BucketEmpty(xs, keyOf, k);
    }
  }

  /** A grouping is a partition: sizes add up to the input length, every
      element sits in the bucket of its own key, and only there. */
  lemma GroupingPartitions<T>(r: Buckets<T>, xs: seq<T>, keyOf: T -> string)
    requires IsGrouping(r, xs, keyOf)
    ensures |Flatten(r)| == |xs|
    ensures forall i, x :: 0 <= i < |r| && x in r[i].1 ==> keyOf(x) == r[i].0
    ensures forall j :: 0 <= j < |xs| ==> Has(r, keyOf(xs[j])) && xs[j] in Get(r, keyOf(xs[j]))
  {
    assert |multiset(Flatten(r))| == |multiset(xs)|;
    forall i, x | 0 <= i < |r| && x in r[i].1 ensures keyOf(x) == r[i].0 {
      BucketMembers(xs, keyOf, r[i].0, x);
    }
    forall j | 0 <= j < |xs| ensures Has(r, keyOf(xs[j])) && xs[j] in Get(r, keyOf(xs[j])) {
      var k := keyOf(xs[j]);
      assert Has(r, k);
      GetAt(r, IndexOf(r, k));
      BucketMembers(xs, keyOf, k, xs[j]);
    }
  }

  // ---------------------------------------------------------------------------
  // Properties of the buckets

  lemma {:induction false} BucketMembers<T>(xs: seq<T>, keyOf: T -> string, k: string, x: T)
    ensures x in Bucket(xs, keyOf, k) <==> x in xs && keyOf(x) == k
  {
    if xs != [] {
      var p := xs[..|xs| - 1];
      BucketMembers(p, keyOf, k, x);
      assert xs == p + [xs[|xs| - 1]];
    }
  }

  /** The positions of `xs` whose key is `k`, increasing. */
  ghost function BucketPositions<T>(xs: seq<T>, keyOf: T -> string, k: string): seq<nat> {
    if xs == [] then []
    else BucketPositions(xs[..|xs| - 1], keyOf, k) + (if keyOf(xs[|xs| - 1]) == k then [|xs| - 1] else [])
  }

  /** Every bucket keeps the input order: it is a subsequence of the input. */
  lemma {:induction false} BucketIsSubsequence<T>(xs: seq<T>, keyOf: T -> string, k: string)
    ensures Embeds(Bucket(xs, keyOf, k), xs, BucketPositions(xs, keyOf, k))
    ensures IsSubsequence(Bucket(xs, keyOf, k), xs)
  {
    if xs != [] {
      var p := xs[..|xs| - 1];
      var x := xs[|xs| - 1];
      BucketIsSubsequence(p, keyOf, k);
      assert xs == p + [x];
      EmbedsSnoc(Bucket(p, keyOf, k), p, BucketPositions(p, keyOf, k), x, keyOf(x) == k);
    }
  }

  /** The total size of the buckets of the keys `ks`. */
  function BucketTotal<T>(ks: seq<string>, xs: seq<T>, keyOf: T -> string): nat {
    if ks == [] then 0 else |Bucket(xs, keyOf, ks[0])| + BucketTotal(ks[1..], xs, keyOf)
  }

  lemma {:induction false} BucketTotalEmpty<T>(ks: seq<string>, keyOf: T -> string)
    ensures BucketTotal(ks, [], keyOf) == 0
  {
    if ks != [] {
      BucketTotalEmpty(ks[1..], keyOf);
    }
  }

  lemma {:induction false} BucketTotalSnoc<T>(ks: seq<string>, xs: seq<T>, keyOf: T -> string, x: T)
    requires forall i, j :: 0 <= i < j < |ks| ==> ks[i] != ks[j]
    ensures BucketTotal(ks, xs + [x], keyOf) == BucketTotal(ks, xs, keyOf) + (if keyOf(x) in ks then 1 else 0)
  {
    if ks != [] {
      BucketTotalSnoc(ks[1..], xs, keyOf, x);
      BucketSnoc(xs, keyOf, ks[0], x);
      assert ks == [ks[0]] + ks[1..];
      if keyOf(x) == ks[0] {
        assert keyOf(x) !in ks[1..];
      }
    }
  }

  /** When every key of `xs` is listed in `ks`, once, their buckets hold all of `xs`. */
  lemma {:induction false} BucketTotalAll<T>(ks: seq<string>, xs: seq<T>, keyOf: T -> string)
    requires forall i, j :: 0 <= i < j < |ks| ==> ks[i] != ks[j]
    requires forall j :: 0 <= j < |xs| ==> keyOf(xs[j]) in ks
    ensures BucketTotal(ks, xs, keyOf) == |xs|
  {
    if xs == [] {
      BucketTotalEmpty(ks, keyOf);
    } else {
      var p := xs[..|xs| - 1];
      BucketTotalAll(ks, p, keyOf);
      BucketTotalSnoc(ks, p, keyOf, xs[|xs| - 1]);
      assert p + [xs[|xs| - 1]] == xs;
    }
  }

  lemma {:induction false} FlattenSnoc<T>(m: Buckets<T>, e: (string, seq<T>))
    ensures Flatten(m + [e]) == Flatten(m) + e.1
  {
    if m != [] {
      assert (m + [e])[1..] == m[1..] + [e];
      FlattenSnoc(m[1..], e);
    }
  }

  /** Appending `x` to one bucket adds exactly `x` to the contents. */
  lemma {:induction false} FlattenAppend<T>(m: Buckets<T>, i: nat, x: T)
    requires i < |m|
    ensures multiset(Flatten(m[i := (m[i].0, m[i].1 + [x])])) == multiset(Flatten(m)) + multiset{x}
  {
    var r := m[i := (m[i].0, m[i].1 + [x])];
    if i == 0 {
      assert r[1..] == m[1..];
    } else {
      assert r[1..] == m[1..][i - 1 := (m[i].0, m[i].1 + [x])];
      FlattenAppend(m[1..], i - 1, x);
    }
  }

  lemma FirstIndexIs<T>(xs: seq<T>, keyOf: T -> string, k: string, i: nat)
    requires i < |xs| && keyOf(xs[i]) == k
    requires forall j :: 0 <= j < i ==> keyOf(xs[j]) != k
    ensures FirstIndex(xs, keyOf, k) == i
  {
  }

  lemma BucketSnoc<T>(p: seq<T>, keyOf: T -> string, k: string, x: T)
    ensures Bucket(p + [x], keyOf, k) == Bucket(p, keyOf, k) + (if keyOf(x) == k then [x] else [])
  {
    assert (p + [x])[..|p|] == p;
  }

  lemma BucketEmpty<T>(p: seq<T>, keyOf: T -> string, k: string)
    requires forall j :: 0 <= j < |p| ==> keyOf(p[j]) != k
    ensures Bucket(p, keyOf, k) == []
  {
    if Bucket(p, keyOf, k) != [] {
      var y := Bucket(p, keyOf, k)[0];
      BucketMembers(p, keyOf, k, y);
    }
  }

  /** Extending the input keeps the first occurrence of every key that already occurred. */
  lemma FirstIndexSnoc<T>(p: seq<T>, keyOf: T -> string, x: T, k: string, j: nat)
    requires j < |p| && keyOf(p[j]) == k
    ensures FirstIndex(p + [x], keyOf, k) == FirstIndex(p, keyOf, k) < |p|
  {
    var f := FirstIndex(p, keyOf, k);
    assert (p + [x])[f] == p[f];
    FirstIndexIs(p + [x], keyOf, k, f);
  }

  /** A key that occurs in `p` has a bucket in any grouping of `p`. */
  lemma OccursHas<T>(g: Buckets<T>, p: seq<T>, keyOf: T -> string, j: nat)
    requires KeysOccur(g, p, keyOf) && j < |p|
    ensures Has(g, keyOf(p[j]))
  {
  }

  /** The keys after one step of the loop. */
  lemma StepKeys<T>(g: Buckets<T>, p: seq<T>, keyOf: T -> string, x: T)
    requires KeysOccur(g, p, keyOf)
    ensures KeysOccur(AddTo(g, keyOf(x), x), p + [x], keyOf)
  {
    var k := keyOf(x);
    var xs := p + [x];
    var r := AddTo(g, k, x);
    forall k' ensures Has(r, k') <==> exists j :: 0 <= j < |xs| && keyOf(xs[j]) == k' {
      if k' == k {
        assert keyOf(xs[|p|]) == k';
      } else {
        if exists j :: 0 <= j < |xs| && keyOf(xs[j]) == k' {
          var j :| 0 <= j < |xs| && keyOf(xs[j]) == k';
          assert j < |p| && p[j] == xs[j];
          OccursHas(g, p, keyOf, j);
        }
        if Has(r, k') {
          var j :| 0 <= j < |p| && keyOf(p[j]) == k';
          assert keyOf(xs[j]) == k';
        }
      }
    }
  }

  /** The bucket contents after one step of the loop. */
  lemma StepBuckets<T>(g: Buckets<T>, p: seq<T>, keyOf: T -> string, x: T)
    requires DistinctKeys(g) && KeysOccur(g, p, keyOf) && BucketsExact(g, p, keyOf)
    ensures BucketsExact(AddTo(g, keyOf(x), x), p + [x], keyOf)
  {
    var k := keyOf(x);
    var r := AddTo(g, k, x);
    if Has(g, k) {
      var i0 := IndexOf(g, k);
      assert r == g[i0 := (k, g[i0].1 + [x])];
    } else {
      assert r == g + [(k, [x])];
      forall j | 0 <= j < |p| ensures keyOf(p[j]) != k {
        OccursHas(g, p, keyOf, j);
      }
      BucketEmpty(p, keyOf, k);
    }
    forall i | 0 <= i < |r| ensures r[i].1 == Bucket(p + [x], keyOf, r[i].0) && r[i].1 != [] {
      BucketSnoc(p, keyOf, r[i].0, x);
    }
  }

  /** The order of the keys after one step of the loop. */
  lemma StepOrder<T>(g: Buckets<T>, p: seq<T>, keyOf: T -> string, x: T)
    requires KeysOccur(g, p, keyOf) && InFirstOccurrenceOrder(g, p, keyOf)
    ensures InFirstOccurrenceOrder(AddTo(g, keyOf(x), x), p + [x], keyOf)
  {
    FirstIndicesKept(g, p, keyOf, x);
    if Has(g, keyOf(x)) {
      StepOrderOld(g, p, keyOf, x);
    } else {
      StepOrderNew(g, p, keyOf, x);
    }
  }

  /** Appending an element moves no key's first occurrence. */
  lemma FirstIndicesKept<T>(g: Buckets<T>, p: seq<T>, keyOf: T -> string, x: T)
    requires KeysOccur(g, p, keyOf)
    ensures forall a :: 0 <= a < |g| ==> FirstIndex(p + [x], keyOf, g[a].0) == FirstIndex(p, keyOf, g[a].0) < |p|
  {
    forall a | 0 <= a < |g|
      ensures FirstIndex(p + [x], keyOf, g[a].0) == FirstIndex(p, keyOf, g[a].0) < |p|
    {
      assert Has(g, g[a].0);
      var ja :| 0 <= ja < |p| && keyOf(p[ja]) == g[a].0;
      FirstIndexSnoc(p, keyOf, x, g[a].0, ja);
    }
  }

  lemma StepOrderOld<T>(g: Buckets<T>, p: seq<T>, keyOf: T -> string, x: T)
    requires Has(g, keyOf(x)) && InFirstOccurrenceOrder(g, p, keyOf)
    requires forall a :: 0 <= a < |g| ==> FirstIndex(p + [x], keyOf, g[a].0) == FirstIndex(p, keyOf, g[a].0) < |p|
    ensures InFirstOccurrenceOrder(AddTo(g, keyOf(x), x), p + [x], keyOf)
  {
    var k := keyOf(x);
    AddToExisting(g, k, x);
    OrderOfSameKeys(AddTo(g, k, x), g, p + [x], p, keyOf);
  }

  /** Appending to an existing bucket keeps every key in place. */
  lemma AddToExisting<T>(g: Buckets<T>, k: string, x: T)
    requires Has(g, k)
    ensures |AddTo(g, k, x)| == |g| && forall a :: 0 <= a < |g| ==> AddTo(g, k, x)[a].0 == g[a].0
  {
    var r := g[IndexOf(g, k) := (k, Get(g, k) + [x])];
    assert AddTo(g, k, x) == r;
  }

  lemma OrderOfSameKeys<T>(r: Buckets<T>, g: Buckets<T>, xs: seq<T>, p: seq<T>, keyOf: T -> string)
    requires |r| == |g| && forall a :: 0 <= a < |g| ==> r[a].0 == g[a].0
    requires forall a :: 0 <= a < |g| ==> FirstIndex(xs, keyOf, g[a].0) == FirstIndex(p, keyOf, g[a].0)
    requires InFirstOccurrenceOrder(g, p, keyOf)
    ensures InFirstOccurrenceOrder(r, xs, keyOf)
  {
    forall a, b | 0 <= a < b < |r|
      ensures FirstIndex(xs, keyOf, r[a].0) < FirstIndex(xs, keyOf, r[b].0)
    {
      assert r[a].0 == g[a].0 && r[b].0 == g[b].0;
    }
  }

  lemma StepOrderNew<T>(g: Buckets<T>, p: seq<T>, keyOf: T -> string, x: T)
    requires !Has(g, keyOf(x)) && KeysOccur(g, p, keyOf) && InFirstOccurrenceOrder(g, p, keyOf)
    requires forall a :: 0 <= a < |g| ==> FirstIndex(p + [x], keyOf, g[a].0) == FirstIndex(p, keyOf, g[a].0) < |p|
    ensures InFirstOccurrenceOrder(AddTo(g, keyOf(x), x), p + [x], keyOf)
  {
    var k := keyOf(x);
    var r := g + [(k, [x])];
    assert AddTo(g, k, x) == r;
    forall j | 0 <= j < |p| ensures keyOf(p[j]) != k {
      OccursHas(g, p, keyOf, j);
    }
    FirstIndexIs(p + [x], keyOf, k, |p|);
    OrderOfAppended(g, p + [x], p, keyOf, k, [x]);
  }

  lemma OrderOfAppended<T>(g: Buckets<T>, xs: seq<T>, p: seq<T>, keyOf: T -> string, k: string, v: seq<T>)
    requires FirstIndex(xs, keyOf, k) == |p|
    requires forall a :: 0 <= a < |g| ==> FirstIndex(xs, keyOf, g[a].0) == FirstIndex(p, keyOf, g[a].0) < |p|
    requires InFirstOccurrenceOrder(g, p, keyOf)
    ensures InFirstOccurrenceOrder(g + [(k, v)], xs, keyOf)
  {
    var r := g + [(k, v)];
    forall a, b | 0 <= a < b < |r|
      ensures FirstIndex(xs, keyOf, r[a].0) < FirstIndex(xs, keyOf, r[b].0)
    {
      assert r[a] == g[a];
      if b < |g| {
        assert r[b] == g[b];
      } else {
        assert r[b].0 == k;
      }
    }
  }

  /** The overall contents after one step of the loop. */
  lemma StepContents<T>(g: Buckets<T>, p: seq<T>, keyOf: T -> string, x: T)
    requires multiset(Flatten(g)) == multiset(p)
    ensures multiset(Flatten(AddTo(g, keyOf(x), x))) == multiset(p + [x])
  {
    var k := keyOf(x);
    if Has(g, k) {
      var i0 := IndexOf(g, k);
      assert AddTo(g, k, x) == g[i0 := (k, g[i0].1 + [x])];
      FlattenAppend(g, i0, x);
    } else {
      FlattenSnoc(g, (k, [x]));
    }
  }

  /** The dict after the last element of a non-empty `xs`, as one loop step. */
  lemma GroupOfLast<T>(xs: seq<T>, keyOf: T -> string)
    requires xs != []
    ensures GroupOf(xs, keyOf) == AddTo(GroupOf(xs[..|xs| - 1], keyOf), keyOf(xs[|xs| - 1]), xs[|xs| - 1])
  {
  }

  lemma SplitLast<T>(xs: seq<T>)
    requires xs != []
    ensures xs == xs[..|xs| - 1] + [xs[|xs| - 1]]
  {
  }

  /** A loop step keeps the keys distinct. */
  lemma AddToDistinct<T>(m: Buckets<T>, k: string, x: T)
    requires DistinctKeys(m)
    ensures DistinctKeys(AddTo(m, k, x))
  {
    if Has(m, k) {
      assert AddTo(m, k, x) == Put(m, k, Get(m, k) + [x]);
    } else {
      assert AddTo(m, k, x) == Put(m, k, [x]);
    }
  }

  /** The loop builds a grouping. */
  lemma {:induction false} GroupOfIsGrouping<T>(xs: seq<T>, keyOf: T -> string)
    ensures IsGrouping(GroupOf(xs, keyOf), xs, keyOf)
  {
    if xs != [] {
      var p := xs[..|xs| - 1];
      var x := xs[|xs| - 1];
      var g := GroupOf(p, keyOf);
      GroupOfIsGrouping(p, keyOf);
      SplitLast(xs);
      GroupOfLast(xs, keyOf);
      AddToDistinct(g, keyOf(x), x);
      StepKeys(g, p, keyOf, x);
      StepBuckets(g, p, keyOf, x);
      StepOrder(g, p, keyOf, x);
      StepContents(g, p, keyOf, x);
    }
  }
}
