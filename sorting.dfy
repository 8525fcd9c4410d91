/** Python's `sorted(keys, key=lambda k: count[k])` over an insertion-ordered
    dict of counts: a stable sort by ascending count. */
module Sorting {

  /** Key/count pairs in dict order. */
  type Counts = seq<(string, int)>

  predicate SortedByValue(s: Counts) {
    forall i, j :: 0 <= i < j < |s| ==> s[i].1 <= s[j].1
  }

  /** Puts `x` in front of the first entry whose count is not smaller. */
  function InsertByValue(x: (string, int), s: Counts): (r: Counts)
    requires SortedByValue(s)
    ensures SortedByValue(r)
    ensures multiset(r) == multiset(s) + multiset{x}
    ensures |r| == |s| + 1
    ensures forall i :: 0 <= i < |r| ==> r[i] == x || r[i] in s
  {
    if s == [] || x.1 <= s[0].1 then [x] + s
    else
      var t := InsertByValue(x, s[1..]);
      InsertBehind(x, s, t);
      [s[0]] + t
  }

  /** The head of `s` stays in front of `x` inserted into the rest. */
  lemma InsertBehind(x: (string, int), s: Counts, t: Counts)
    requires s != [] && x.1 > s[0].1 && SortedByValue(s)
    requires SortedByValue(t) && multiset(t) == multiset(s[1..]) + multiset{x}
    requires forall i :: 0 <= i < |t| ==> t[i] == x || t[i] in s[1..]
    ensures SortedByValue([s[0]] + t)
    ensures multiset([s[0]] + t) == multiset(s) + multiset{x}
    ensures forall i :: 0 <= i < |[s[0]] + t| ==> ([s[0]] + t)[i] == x || ([s[0]] + t)[i] in s
  {
    assert forall i :: 0 <= i < |t| ==> s[0].1 <= t[i].1;
    assert s == [s[0]] + s[1..];
  }

  /** The stable sort by count. */
  function SortByValue(s: Counts): (r: Counts)
    ensures SortedByValue(r)
    ensures multiset(r) == multiset(s)
    ensures |r| == |s|
  {
    if s == [] then []
    else
      assert s == [s[0]] + s[1..];
      InsertByValue(s[0], SortByValue(s[1..]))
  }

  /** The entries whose count is `v`, in order. */
  function WithValue(s: Counts, v: int): Counts {
    if s == [] then [] else (if s[0].1 == v then [s[0]] else []) + WithValue(s[1..], v)
  }

  lemma {:induction false} InsertWithValue(x: (string, int), s: Counts, v: int)
    requires SortedByValue(s)
    ensures WithValue(InsertByValue(x, s), v) == (if x.1 == v then [x] else []) + WithValue(s, v)
  {
    if s != [] && x.1 > s[0].1 {
      SortedTail(s);
      var t := InsertByValue(x, s[1..]);
      InsertWithValue(x, s[1..], v);
      WithValueCons(s[0], t, v);
      WithValueCons(s[0], s[1..], v);
      assert s == [s[0]] + s[1..];
      if s[0].1 == v {
        assert WithValue(t, v) == WithValue(s[1..], v);
      } else {
        assert WithValue(InsertByValue(x, s), v) == WithValue(t, v);
      }
    } else {
      WithValueCons(x, s, v);
    }
  }

  lemma SortedTail(s: Counts)
    requires s != [] && SortedByValue(s)
    ensures SortedByValue(s[1..])
  {
  }

  lemma WithValueCons(e: (string, int), t: Counts, v: int)
    ensures WithValue([e] + t, v) == (if e.1 == v then [e] else []) + WithValue(t, v)
  {
    assert ([e] + t)[1..] == t;
  }

  /** Stability: among entries of equal count, the sorted order is the input order. */
  lemma {:induction false} SortIsStable(s: Counts, v: int)
    ensures WithValue(SortByValue(s), v) == WithValue(s, v)
  {
    if s != [] {
      SortIsStable(s[1..], v);
      InsertWithValue(s[0], SortByValue(s[1..]), v);
    }
  }

  /** The sorted entries are the input entries, so their keys are the input keys. */
  lemma SortedHasSameEntries(s: Counts)
    ensures forall e :: e in SortByValue(s) <==> e in s
  {
    var r := SortByValue(s);
    assert forall e :: e in r <==> e in multiset(r);
    assert forall e :: e in s <==> e in multiset(s);
  }
}
