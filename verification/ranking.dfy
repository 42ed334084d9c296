/** Python's `collections.Counter(xs).most_common(n)`: count the elements,
    then take the `n` most frequent, ties in order of first occurrence. */
module Ranking {
  import opened Seqs

  /** One counter entry: the key, how often it occurs, and the index of its
      first occurrence (which fixes its position among equal counts). */
  datatype Counted<T> = Counted(key: T, count: nat, first: nat)

  /** The entry the counter holds for `x`. */
  function EntryFor<T(==)>(xs: seq<T>, x: T): Counted<T>
    requires x in xs
  {
    Counted(x, Count(xs, x), FirstIndex(xs, x))
  }

  /** The counter's entries in insertion order. */
  function Tally<T(==)>(xs: seq<T>): seq<Counted<T>>
  {
    var d := Dedup(xs);
    seq(|d|, i requires 0 <= i < |d| => EntryFor(xs, d[i]))
  }

  /** `a` comes no later than `b` in a stable sort by count, descending. */
  predicate RanksBefore<T>(a: Counted<T>, b: Counted<T>)
  {
    a.count > b.count || (a.count == b.count && a.first <= b.first)
  }

  predicate Ranked<T>(s: seq<Counted<T>>)
  {
    forall i, j :: 0 <= i < j < |s| ==> RanksBefore(s[i], s[j])
  }

  function Keys<T>(s: seq<Counted<T>>): (r: seq<T>)
    ensures |r| == |s| && forall i :: 0 <= i < |s| ==> r[i] == s[i].key
  {
    seq(|s|, i requires 0 <= i < |s| => s[i].key)
  }

  /** Insertion into a ranked sequence keeps it ranked and adds exactly
      one element. */
  function Insert<T(==)>(x: Counted<T>, s: seq<Counted<T>>): (r: seq<Counted<T>>)
    requires Ranked(s)
    ensures Ranked(r)
    ensures multiset(r) == multiset(s) + multiset{x}
    ensures |r| == |s| + 1
    decreases |s|
  {
    if s == [] || RanksBefore(x, s[0]) then [x] + s
    else
      var t := Insert(x, s[1..]);
      InsertBehindHead(x, s, t);
      [s[0]] + t
  }

  /** When `x` ranks after the head of `s`, the head ranks before every
      entry of any arrangement of the tail and `x`. */
  lemma {:induction false} InsertBehindHead<T>(x: Counted<T>, s: seq<Counted<T>>, t: seq<Counted<T>>)
    requires Ranked(s) && s != [] && !RanksBefore(x, s[0])
    requires Ranked(t) && multiset(t) == multiset(s[1..]) + multiset{x}
    ensures Ranked([s[0]] + t)
    ensures multiset([s[0]] + t) == multiset(s) + multiset{x}
  {
    assert s == [s[0]] + s[1..];
    forall j | 0 <= j < |t|
      ensures RanksBefore(s[0], t[j])
    {
      assert t[j] in multiset(t);
      if t[j] != x {
        assert t[j] in multiset(s[1..]);
        var k :| 0 <= k < |s[1..]| && s[1..][k] == t[j];
        assert s[k + 1] == t[j];
      }
    }
    var r := [s[0]] + t;
    assert forall i :: 1 <= i < |r| ==> r[i] == t[i - 1];
  }

  /** Insertion sort into ranked order: a ranked permutation. */
  function Sort<T(==)>(s: seq<Counted<T>>): (r: seq<Counted<T>>)
    ensures Ranked(r)
    ensures multiset(r) == multiset(s)
    ensures |r| == |s|
    decreases |s|
  {
    if s == [] then []
    else
      assert s == [s[0]] + s[1..];
      Insert(s[0], Sort(s[1..]))
  }

  lemma {:induction false} DistinctAtMostOnce<T>(a: seq<T>, e: T)
    requires Distinct(a)
    ensures multiset(a)[e] <= 1
    decreases |a|
  {
    if a != [] {
      assert a == [a[0]] + a[1..];
      DistinctAtMostOnce(a[1..], e);
      if a[0] == e {
        assert e !in a[1..];
      }
    }
  }

  lemma {:induction false} RepeatCountsTwice<T>(b: seq<T>, i: int, j: int)
    requires 0 <= i < j < |b|
    ensures b[i] == b[j] ==> multiset(b)[b[i]] >= 2
  {
    assert b == b[..j] + b[j..];
    assert b[i] == b[..j][i] && b[j] == b[j..][0];
  }

  /** A permutation of a sequence without repeats has none either. */
  lemma {:induction false} PermutationKeepsDistinct<T>(a: seq<T>, b: seq<T>)
    requires Distinct(a) && multiset(a) == multiset(b)
    ensures Distinct(b)
  {
    forall i, j | 0 <= i < j < |b|
      ensures b[i] != b[j]
    {
      DistinctAtMostOnce(a, b[i]);
      RepeatCountsTwice(b, i, j);
    }
  }

  /** Any ordering of the counter's entries holds each key of `xs` exactly
      once, with its true count and first index. */
  lemma {:induction false} PermutedTally<T>(xs: seq<T>, s: seq<Counted<T>>)
    requires multiset(s) == multiset(Tally(xs))
    ensures |s| == |Dedup(xs)|
    ensures forall i :: 0 <= i < |s| ==> s[i].key in xs && s[i] == EntryFor(xs, s[i].key)
    ensures Distinct(Keys(s))
    ensures forall k :: 0 <= k < |xs| ==> xs[k] in Keys(s)
  {
    assert |s| == |Tally(xs)| by {
      assert |multiset(s)| == |multiset(Tally(xs))|;
    }
    PermutedEntries(xs, s);
    TallyDistinct(xs);
    PermutationKeepsDistinct(Tally(xs), s);
    PermutedCovers(xs, s);
  }

  /** The counter's entries are pairwise different. */
  lemma {:induction false} TallyDistinct<T>(xs: seq<T>)
    ensures Distinct(Tally(xs))
  {
    var d := Dedup(xs);
    var t := Tally(xs);
    forall i, j | 0 <= i < j < |t|
      ensures t[i] != t[j]
    {
      assert t[i].key == d[i] && t[j].key == d[j];
    }
  }

  /** Every entry of a reordering of the counter is the true entry of a
      key of `xs`. */
  lemma {:induction false} PermutedEntries<T>(xs: seq<T>, s: seq<Counted<T>>)
    requires multiset(s) == multiset(Tally(xs))
    ensures forall i :: 0 <= i < |s| ==> s[i].key in xs && s[i] == EntryFor(xs, s[i].key)
  {
    var t := Tally(xs);
    forall i | 0 <= i < |s|
      ensures s[i].key in xs && s[i] == EntryFor(xs, s[i].key)
    {
      assert s[i] in multiset(t);
      var j :| 0 <= j < |t| && t[j] == s[i];
    }
  }

  /** Every key of `xs` has an entry in a reordering of the counter. */
  lemma {:induction false} PermutedCovers<T>(xs: seq<T>, s: seq<Counted<T>>)
    requires multiset(s) == multiset(Tally(xs))
    ensures forall k :: 0 <= k < |xs| ==> xs[k] in Keys(s)
  {
    var d := Dedup(xs);
    var t := Tally(xs);
    forall k | 0 <= k < |xs|
      ensures xs[k] in Keys(s)
    {
      var j :| 0 <= j < |d| && d[j] == xs[k];
      assert t[j] in multiset(s);
      var p :| 0 <= p < |s| && s[p] == t[j];
      assert Keys(s)[p] == xs[k];
    }
  }

  function Min(a: int, b: int): int
  {
    if a < b then a else b
  }

  /** Number of entries `most_common(n)` keeps out of `size`. */
  function Kept(n: int, size: nat): nat
  {
    if n <= 0 then 0 else Min(n, size)
  }

  /** The first `Kept(n, |s|)` entries of a ranked ordering of the counter
      are the top entries: every key left out ranks no higher than the
      last one kept. */
  lemma {:induction false} RankedPrefix<T>(xs: seq<T>, s: seq<Counted<T>>, n: int)
    requires multiset(s) == multiset(Tally(xs)) && Ranked(s)
    ensures var r := s[..Kept(n, |s|)];
      && Ranked(r)
      && (forall i :: 0 <= i < |r| ==> r[i].key in xs && r[i] == EntryFor(xs, r[i].key))
      && Distinct(Keys(r))
      && (forall k :: 0 < n && 0 <= k < |xs| && xs[k] !in Keys(r) ==>
            |r| == n && RanksBefore(r[n - 1], EntryFor(xs, xs[k])))
  {
    PermutedTally(xs, s);
    var r := s[..Kept(n, |s|)];
    assert Keys(r) == Keys(s)[..|r|];
    LeftOutRanksLower(xs, s, n);
  }

  /** A key missing from the kept prefix sits later in `s`, so it ranks no
      higher than the last entry kept. */
  lemma {:induction false} LeftOutRanksLower<T>(xs: seq<T>, s: seq<Counted<T>>, n: int)
    requires Ranked(s)
    requires forall i :: 0 <= i < |s| ==> s[i].key in xs && s[i] == EntryFor(xs, s[i].key)
    requires forall k :: 0 <= k < |xs| ==> xs[k] in Keys(s)
    ensures var r := s[..Kept(n, |s|)];
      forall k :: 0 < n && 0 <= k < |xs| && xs[k] !in Keys(r) ==>
        |r| == n && RanksBefore(r[n - 1], EntryFor(xs, xs[k]))
  {
    var m := Kept(n, |s|);
    var r := s[..m];
    assert Keys(r) == Keys(s)[..m];
    forall k | 0 < n && 0 <= k < |xs| && xs[k] !in Keys(r)
      ensures |r| == n && RanksBefore(r[n - 1], EntryFor(xs, xs[k]))
    {
      var p :| 0 <= p < |s| && Keys(s)[p] == xs[k];
      assert s[p] == EntryFor(xs, xs[k]);
    }
  }

  /** `Counter(xs).most_common(n)`: the `n` highest-ranked entries (none
      when `n <= 0`), each key once, with its true count and first index;
      every key left out ranks no higher than the last one taken. */
  function MostCommon<T(==)>(xs: seq<T>, n: int): (r: seq<Counted<T>>)
    ensures n <= 0 ==> r == []
    ensures 0 < n ==> |r| == Min(n, |Dedup(xs)|)
    ensures Ranked(r)
    ensures forall i :: 0 <= i < |r| ==> r[i].key in xs && r[i] == EntryFor(xs, r[i].key)
    ensures Distinct(Keys(r))
    ensures forall k :: 0 < n && 0 <= k < |xs| && xs[k] !in Keys(r) ==>
              |r| == n && RanksBefore(r[n - 1], EntryFor(xs, xs[k]))
  {
    var s := Sort(Tally(xs));
    PermutedTally(xs, s);
    RankedPrefix(xs, s, n);
    s[..Kept(n, |s|)]
  }
}
