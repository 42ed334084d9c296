/** Generic facts about sequences: flattening, subsequences, counting,
    first occurrences, order-preserving de-duplication, Python-style prefix
    slicing and substring search. */
module Seqs {

  /** Concatenation of a sequence of sequences, left to right. */
  function Flatten<T>(ss: seq<seq<T>>): seq<T>
  {
    if ss == [] then [] else ss[0] + Flatten(ss[1..])
  }

  lemma {:induction false} FlattenAppend<T>(a: seq<seq<T>>, b: seq<seq<T>>)
    ensures Flatten(a + b) == Flatten(a) + Flatten(b)
    decreases |a|
  {
    if a == [] {
      assert a + b == b;
    } else {
      assert (a + b)[1..] == a[1..] + b;
      FlattenAppend(a[1..], b);
    }
  }

  /** `a` can be obtained from `b` by deleting elements. */
  predicate IsSubseq<T(==)>(a: seq<T>, b: seq<T>)
    decreases |b|
  {
    if a == [] then true
    else if b == [] then false
    else (a[0] == b[0] && IsSubseq(a[1..], b[1..])) || IsSubseq(a, b[1..])
  }

  /** No element occurs twice. */
  predicate Distinct<T(==)>(s: seq<T>)
  {
    forall i, j :: 0 <= i < j < |s| ==> s[i] != s[j]
  }

  /** Number of occurrences of `x` in `s`. */
  function Count<T(==)>(s: seq<T>, x: T): nat
  {
    if s == [] then 0 else (if s[0] == x then 1 else 0) + Count(s[1..], x)
  }

  lemma {:induction false} CountPositive<T>(s: seq<T>, x: T)
    ensures Count(s, x) > 0 <==> x in s
  {
    if s != [] {
      CountPositive(s[1..], x);
      assert s == [s[0]] + s[1..];
    }
  }

  lemma {:induction false} CountAppend<T>(a: seq<T>, b: seq<T>, x: T)
    ensures Count(a + b, x) == Count(a, x) + Count(b, x)
    decreases |a|
  {
    if a == [] {
      assert a + b == b;
    } else {
      assert (a + b)[0] == a[0] && (a + b)[1..] == a[1..] + b;
      CountAppend(a[1..], b, x);
    }
  }

  lemma {:induction false} CountAtMost<T>(s: seq<T>, x: T)
    ensures Count(s, x) <= |s|
  {
    if s != [] {
      CountAtMost(s[1..], x);
    }
  }

  lemma {:induction false} AppendAssoc<T>(a: seq<T>, b: seq<T>, c: seq<T>)
    ensures a + (b + c) == (a + b) + c
  {
  }

  /** A slice of a suffix is a slice of the whole, shifted. */
  lemma {:induction false} SliceOfDrop<T>(s: seq<T>, d: int, a: int, b: int)
    requires 0 <= d <= |s| && 0 <= a <= b <= |s| - d
    ensures s[d..][a..b] == s[d + a..d + b]
  {
  }

  /** Index of the first occurrence of `x` in `s`. */
  function FirstIndex<T(==)>(s: seq<T>, x: T): (i: nat)
    requires x in s
    ensures i < |s| && s[i] == x && x !in s[..i]
  {
    if s[0] == x then 0 else 1 + FirstIndex(s[1..], x)
  }

  lemma {:induction false} FirstIndexAppend<T>(s: seq<T>, x: T, y: T)
    requires y in s + [x]
    ensures FirstIndex(s + [x], y) == if y in s then FirstIndex(s, y) else |s|
    decreases |s|
  {
    if s != [] && s[0] != y {
      assert (s + [x])[1..] == s[1..] + [x];
      FirstIndexAppend(s[1..], x, y);
    }
  }

  /** An element of `a` is found in `a + b` where it is found in `a`. */
  lemma {:induction false} FirstIndexPrefix<T>(a: seq<T>, b: seq<T>, x: T)
    requires x in a
    ensures FirstIndex(a + b, x) == FirstIndex(a, x)
    decreases |a|
  {
    if a[0] != x {
      assert (a + b)[1..] == a[1..] + b;
      FirstIndexPrefix(a[1..], b, x);
    }
  }

  /** Searching `h + s` for an element not in `h` skips `h`. */
  lemma {:induction false} FirstIndexAppendFront<T>(h: seq<T>, s: seq<T>, x: T)
    requires x in s && x !in h
    ensures FirstIndex(h + s, x) == |h| + FirstIndex(s, x)
    decreases |h|
  {
    if h != [] {
      assert (h + s)[0] == h[0] && (h + s)[1..] == h[1..] + s;
      FirstIndexAppendFront(h[1..], s, x);
    } else {
      assert h + s == s;
    }
  }

  /** Python's `s[:n]`: the first `n` elements, or all but the last `-n`
      when `n` is negative. */
  function Take<T>(s: seq<T>, n: int): (r: seq<T>)
    ensures 0 <= n ==> |r| == if n < |s| then n else |s|
    ensures n < 0 ==> |r| == if |s| + n < 0 then 0 else |s| + n
    ensures r == s[..|r|]
  {
    if 0 <= n then (if n < |s| then s[..n] else s)
    else if |s| + n < 0 then []
    else s[..|s| + n]
  }

  /** The elements of `xs` in order of first occurrence, each once: the
      key order of a Python dict or `Counter` built by iterating `xs`. */
  function Dedup<T(==)>(xs: seq<T>): (r: seq<T>)
    ensures Distinct(r)
    ensures forall i :: 0 <= i < |r| ==> r[i] in xs
    ensures forall i :: 0 <= i < |xs| ==> xs[i] in r
    ensures forall i, j :: 0 <= i < j < |r| ==> FirstIndex(xs, r[i]) < FirstIndex(xs, r[j])
    decreases |xs|
  {
    if xs == [] then []
    else
      var init := xs[..|xs| - 1];
      var d := Dedup(init);
      DedupSnocCover(xs, init, d);
      DedupSnocOrder(xs, init, d);
      if xs[|xs| - 1] in init then d else d + [xs[|xs| - 1]]
  }

  /** One step of `Dedup`, from `init` (the input without its last element)
      to the whole input, keeps exactly the elements seen so far. */
  lemma {:induction false} DedupSnocCover<T>(xs: seq<T>, init: seq<T>, d: seq<T>)
    requires xs != [] && init == xs[..|xs| - 1]
    requires forall i :: 0 <= i < |d| ==> d[i] in init
    requires forall i :: 0 <= i < |init| ==> init[i] in d
    ensures var r := if xs[|xs| - 1] in init then d else d + [xs[|xs| - 1]];
      && (forall i :: 0 <= i < |r| ==> r[i] in xs)
      && (forall i :: 0 <= i < |xs| ==> xs[i] in r)
  {
    var x := xs[|xs| - 1];
    assert xs == init + [x];
    var r := if x in init then d else d + [x];
    forall i | 0 <= i < |xs|
      ensures xs[i] in r
    {
      if i < |init| {
        assert xs[i] == init[i];
      }
    }
  }

  /** The same step keeps the output distinct and in order of first
      occurrence. */
  lemma {:induction false} DedupSnocOrder<T>(xs: seq<T>, init: seq<T>, d: seq<T>)
    requires xs != [] && init == xs[..|xs| - 1]
    requires Distinct(d)
    requires forall i :: 0 <= i < |d| ==> d[i] in init
    requires forall i, j :: 0 <= i < j < |d| ==> FirstIndex(init, d[i]) < FirstIndex(init, d[j])
    ensures var r := if xs[|xs| - 1] in init then d else d + [xs[|xs| - 1]];
      && Distinct(r)
      && (forall i, j :: 0 <= i < j < |r| ==> FirstIndex(xs, r[i]) < FirstIndex(xs, r[j]))
  {
    var x := xs[|xs| - 1];
    assert xs == init + [x];
    forall i | 0 <= i < |d|
      ensures FirstIndex(xs, d[i]) == FirstIndex(init, d[i]) < |init|
    {
      FirstIndexAppend(init, x, d[i]);
    }
    if x !in init {
      var r := d + [x];
      FirstIndexAppend(init, x, x);
      forall i, j | 0 <= i < j < |r|
        ensures r[i] != r[j] && FirstIndex(xs, r[i]) < FirstIndex(xs, r[j])
      {
        assert r[i] == d[i];
        if j < |d| {
          assert r[j] == d[j];
        } else {
          assert r[j] == x;
        }
      }
    }
  }

  /** `p` is a prefix of `s`. */
  predicate StartsWith<T(==)>(s: seq<T>, p: seq<T>)
  {
    |p| <= |s| && s[..|p|] == p
  }

  /** Substring search, as Python's `p in s`. */
  predicate Contains<T(==)>(s: seq<T>, p: seq<T>)
    decreases |s|
  {
    StartsWith(s, p) || (s != [] && Contains(s[1..], p))
  }

  /** `p` occurs in `s` at offset `i`. */
  predicate OccursAt<T(==)>(p: seq<T>, s: seq<T>, i: int)
  {
    0 <= i <= |s| - |p| && s[i..i + |p|] == p
  }

  /** Declarative substring relation: `p` occurs at some offset of `s`. */
  ghost predicate Occurs<T>(p: seq<T>, s: seq<T>)
  {
    exists i :: OccursAt(p, s, i)
  }

  lemma {:induction false} ContainsIffOccurs<T>(s: seq<T>, p: seq<T>)
    ensures Contains(s, p) <==> Occurs(p, s)
    decreases |s|
  {
    if StartsWith(s, p) {
      assert OccursAt(p, s, 0);
    } else if s == [] {
    } else {
      ContainsIffOccurs(s[1..], p);
      if Occurs(p, s[1..]) {
        var i :| OccursAt(p, s[1..], i);
        SliceOfDrop(s, 1, i, i + |p|);
        assert OccursAt(p, s, i + 1);
      }
      if Occurs(p, s) {
        var i :| OccursAt(p, s, i);
        if i != 0 {
          SliceOfDrop(s, 1, i - 1, i - 1 + |p|);
          assert OccursAt(p, s[1..], i - 1);
        }
      }
    }
  }

  /** `p` occurs in any `a + p`. */
  lemma {:induction false} OccursAsSuffix<T>(a: seq<T>, p: seq<T>)
    ensures Occurs(p, a + p)
  {
    assert OccursAt(p, a + p, |a|);
  }

  /** An occurrence survives appending. */
  lemma {:induction false} OccursExtend<T>(p: seq<T>, s: seq<T>, t: seq<T>)
    requires Occurs(p, s)
    ensures Occurs(p, s + t)
  {
    var i :| OccursAt(p, s, i);
    assert (s + t)[i..i + |p|] == s[i..i + |p|];
    assert OccursAt(p, s + t, i);
  }
}
