/** `_clean_text` and `_tokenize` of the keyword extractor: text
    cleaning, and run tokenisation with chunking of long ideograph runs. */
module KeywordText {
  import opened Seqs
  import opened Text

  // ---------------------------------------------------------------------
  // Cleaning
  // ---------------------------------------------------------------------

  /** A character the cleaner keeps: an ideograph, an ASCII letter or an
      ASCII digit. */
  predicate IsWordChar(c: char)
  {
    IsCjk(c) || IsAsciiLetter(c) || IsAsciiDigit(c)
  }

  /** The first substitution: every character that is neither a word
      character nor whitespace becomes one space (it is replaced, not
      deleted, so punctuation still separates words). */
  function ReplaceDisallowed(t: string): string
  {
    seq(|t|, i requires 0 <= i < |t| => if IsWordChar(t[i]) || IsSpace(t[i]) then t[i] else ' ')
  }

  /** `t` without its leading whitespace. */
  function SkipSpaces(t: string): (r: string)
    ensures |r| <= |t| && r == t[|t| - |r|..]
    ensures r != [] ==> !IsSpace(r[0])
    ensures forall i :: 0 <= i < |t| - |r| ==> IsSpace(t[i])
    decreases |t|
  {
    if t != [] && IsSpace(t[0]) then SkipSpaces(t[1..]) else t
  }

  /** `t` without its trailing whitespace. */
  function StripTrailing(t: string): (r: string)
    ensures |r| <= |t| && r == t[..|r|]
    ensures r != [] ==> !IsSpace(r[|r| - 1])
    ensures forall i :: |r| <= i < |t| ==> IsSpace(t[i])
    decreases |t|
  {
    if t != [] && IsSpace(t[|t| - 1]) then StripTrailing(t[..|t| - 1]) else t
  }

  /** The second substitution: every maximal whitespace run becomes one
      space. */
  function CollapseSpaces(t: string): string
    decreases |t|
  {
    if t == [] then []
    else if IsSpace(t[0]) then [' '] + CollapseSpaces(SkipSpaces(t[1..]))
    else [t[0]] + CollapseSpaces(t[1..])
  }

  /** Python's `str.strip()`. */
  function Strip(t: string): string
  {
    StripTrailing(SkipSpaces(t))
  }

  /** `_clean_text`: substitute, collapse, strip, lower-case. */
  function Clean(t: string): string
  {
    LowerAscii(Strip(CollapseSpaces(ReplaceDisallowed(t))))
  }

  /** The characters cleaned text is made of. */
  predicate IsCleanChar(c: char)
  {
    IsCjk(c) || IsAsciiLower(c) || IsAsciiDigit(c) || c == ' '
  }

  /** Cleaned text: ideographs, lower-case ASCII letters, ASCII digits and
      single spaces between words, with no space at either end. */
  predicate IsCleaned(s: string)
  {
    && (forall i :: 0 <= i < |s| ==> IsCleanChar(s[i]))
    && (|s| > 0 ==> s[0] != ' ' && s[|s| - 1] != ' ')
    && (forall i :: 0 <= i < |s| - 1 ==> s[i] != ' ' || s[i + 1] != ' ')
  }

  /** Word characters and spaces only, no two spaces in a row. */
  predicate Collapsed(s: string)
  {
    && (forall i :: 0 <= i < |s| ==> IsWordChar(s[i]) || s[i] == ' ')
    && (forall i :: 0 <= i < |s| - 1 ==> s[i] != ' ' || s[i + 1] != ' ')
  }

  lemma {:induction false} CollapseSpacesShape(t: string)
    requires forall i :: 0 <= i < |t| ==> IsWordChar(t[i]) || IsSpace(t[i])
    ensures Collapsed(CollapseSpaces(t))
    ensures CollapseSpaces(t) != [] ==> (CollapseSpaces(t)[0] == ' ' <==> IsSpace(t[0]))
    ensures CollapseSpaces(t) == [] <==> t == []
    decreases |t|
  {
    if t == [] {
    } else if IsSpace(t[0]) {
      var u := SkipSpaces(t[1..]);
      assert forall i :: 0 <= i < |u| ==> IsWordChar(u[i]) || IsSpace(u[i]) by {
        assert forall i :: 0 <= i < |u| ==> u[i] == t[1..][|t[1..]| - |u| + i];
      }
      CollapseSpacesShape(u);
      var c := CollapseSpaces(u);
      assert CollapseSpaces(t) == [' '] + c;
      ConsCollapsed(' ', c);
    } else {
      CollapseSpacesShape(t[1..]);
      var c := CollapseSpaces(t[1..]);
      assert CollapseSpaces(t) == [t[0]] + c;
      ConsCollapsed(t[0], c);
    }
  }

  /** Putting a word character, or a space before a non-space, in front of
      a collapsed string keeps it collapsed. */
  lemma {:induction false} ConsCollapsed(h: char, c: string)
    requires Collapsed(c) && (IsWordChar(h) || h == ' ')
    requires h == ' ' ==> c == [] || c[0] != ' '
    ensures Collapsed([h] + c)
  {
    var s := [h] + c;
    assert forall i :: 1 <= i < |s| ==> s[i] == c[i - 1];
  }

  /** A slice of a collapsed string is collapsed. */
  lemma {:induction false} CollapsedSlice(s: string, a: int, b: int)
    requires Collapsed(s) && 0 <= a <= b <= |s|
    ensures Collapsed(s[a..b])
  {
    var u := s[a..b];
    assert forall i :: 0 <= i < |u| ==> u[i] == s[a + i];
  }

  /** Lower-casing a collapsed string with no space at either end gives
      cleaned text. */
  lemma {:induction false} LowerCollapsed(s: string)
    requires Collapsed(s) && (|s| > 0 ==> s[0] != ' ' && s[|s| - 1] != ' ')
    ensures IsCleaned(LowerAscii(s))
  {
    var l := LowerAscii(s);
    forall i | 0 <= i < |l|
      ensures IsCleanChar(l[i]) && (l[i] == ' ' <==> s[i] == ' ')
    {
    }
  }

  /** Stripping a collapsed string leaves a collapsed string with no space
      at either end. */
  lemma {:induction false} StripCollapsed(c: string)
    requires Collapsed(c)
    ensures var s := Strip(c);
      Collapsed(s) && (|s| > 0 ==> s[0] != ' ' && s[|s| - 1] != ' ')
  {
    var k := SkipSpaces(c);
    CollapsedSlice(c, |c| - |k|, |c|);
    var s := StripTrailing(k);
    CollapsedSlice(k, 0, |s|);
    assert s != [] ==> s[0] == k[0];
  }

  /** Cleaned text has the shape the tokeniser relies on. */
  lemma {:induction false} CleanShape(t: string)
    ensures IsCleaned(Clean(t))
  {
    var r := ReplaceDisallowed(t);
    CollapseSpacesShape(r);
    StripCollapsed(CollapseSpaces(r));
    LowerCollapsed(Strip(CollapseSpaces(r)));
  }

  // Content: cleaning only removes and lower-cases, it never invents or
  // reorders word characters.

  /** The non-whitespace characters of `s`, in order. */
  function DropSpaces(s: string): string
    decreases |s|
  {
    if s == [] then [] else (if IsSpace(s[0]) then [] else [s[0]]) + DropSpaces(s[1..])
  }

  /** The word characters of `s`, in order. */
  function WordChars(s: string): string
    decreases |s|
  {
    if s == [] then [] else (if IsWordChar(s[0]) then [s[0]] else []) + WordChars(s[1..])
  }

  lemma {:induction false} DropSpacesAppend(a: string, b: string)
    ensures DropSpaces(a + b) == DropSpaces(a) + DropSpaces(b)
    decreases |a|
  {
    if a != [] {
      assert (a + b)[0] == a[0] && (a + b)[1..] == a[1..] + b;
      var h := if IsSpace(a[0]) then [] else [a[0]];
      assert DropSpaces(a + b) == h + DropSpaces(a[1..] + b);
      DropSpacesAppend(a[1..], b);
      assert DropSpaces(a) == h + DropSpaces(a[1..]);
    } else {
      assert a + b == b;
    }
  }

  lemma {:induction false} DropSpacesAllSpace(s: string)
    requires forall i :: 0 <= i < |s| ==> IsSpace(s[i])
    ensures DropSpaces(s) == []
    decreases |s|
  {
    if s != [] {
      DropSpacesAllSpace(s[1..]);
    }
  }

  lemma {:induction false} DropSpacesReplace(t: string)
    ensures DropSpaces(ReplaceDisallowed(t)) == WordChars(t)
    decreases |t|
  {
    if t != [] {
      assert ReplaceDisallowed(t) == ReplaceDisallowed(t[..1]) + ReplaceDisallowed(t[1..]);
      DropSpacesAppend(ReplaceDisallowed(t[..1]), ReplaceDisallowed(t[1..]));
      DropSpacesReplace(t[1..]);
      assert DropSpaces(ReplaceDisallowed(t[..1])) == if IsWordChar(t[0]) then [t[0]] else [];
    }
  }

  lemma {:induction false} DropSpacesCollapse(t: string)
    ensures DropSpaces(CollapseSpaces(t)) == DropSpaces(t)
    decreases |t|
  {
    if t == [] {
    } else if IsSpace(t[0]) {
      var u := SkipSpaces(t[1..]);
      DropSpacesCollapse(u);
      assert t[1..] == t[1..][..|t[1..]| - |u|] + u;
      DropSpacesAppend(t[1..][..|t[1..]| - |u|], u);
      DropSpacesAllSpace(t[1..][..|t[1..]| - |u|]);
      DropSpacesAppend([' '], CollapseSpaces(u));
    } else {
      DropSpacesCollapse(t[1..]);
      DropSpacesAppend([t[0]], CollapseSpaces(t[1..]));
    }
  }

  lemma {:induction false} DropSpacesSkip(t: string)
    ensures DropSpaces(SkipSpaces(t)) == DropSpaces(t)
  {
    var k := SkipSpaces(t);
    var p := t[..|t| - |k|];
    assert t == p + k;
    DropSpacesAppend(p, k);
    DropSpacesAllSpace(p);
  }

  lemma {:induction false} DropSpacesStripTrailing(k: string)
    ensures DropSpaces(StripTrailing(k)) == DropSpaces(k)
  {
    var s := StripTrailing(k);
    var q := k[|s|..];
    assert k == s + q;
    DropSpacesAppend(s, q);
    DropSpacesAllSpace(q);
  }

  lemma {:induction false} DropSpacesStrip(t: string)
    ensures DropSpaces(Strip(t)) == DropSpaces(t)
  {
    DropSpacesSkip(t);
    DropSpacesStripTrailing(SkipSpaces(t));
  }

  lemma {:induction false} DropSpacesLower(s: string)
    ensures DropSpaces(LowerAscii(s)) == LowerAscii(DropSpaces(s))
    decreases |s|
  {
    if s != [] {
      assert LowerAscii(s) == [LowerChar(s[0])] + LowerAscii(s[1..]);
      DropSpacesAppend([LowerChar(s[0])], LowerAscii(s[1..]));
      DropSpacesLower(s[1..]);
      assert DropSpaces(s) == (if IsSpace(s[0]) then [] else [s[0]]) + DropSpaces(s[1..]);
      LowerAsciiAppend(if IsSpace(s[0]) then [] else [s[0]], DropSpaces(s[1..]));
    }
  }

  /** Removing the spaces from cleaned text leaves exactly the word
      characters of the input, lower-cased, in their original order. */
  lemma {:induction false} CleanKeepsWordChars(t: string)
    ensures DropSpaces(Clean(t)) == LowerAscii(WordChars(t))
  {
    var r := ReplaceDisallowed(t);
    var c := CollapseSpaces(r);
    DropSpacesLower(Strip(c));
    DropSpacesStrip(c);
    DropSpacesCollapse(r);
    DropSpacesReplace(t);
  }

  // Where the spaces go: a character that is not a word character,
  // punctuation or whitespace alike, becomes exactly one space between
  // the words on either side of it.

  lemma {:induction false} SkipSpacesAppend(x: string, y: string)
    requires |x| > 0 && !IsSpace(x[|x| - 1])
    ensures SkipSpaces(x + y) == SkipSpaces(x) + y
    decreases |x|
  {
    assert (x + y)[0] == x[0] && (x + y)[1..] == x[1..] + y;
    if IsSpace(x[0]) {
      SkipSpacesAppend(x[1..], y);
    }
  }

  /** Skipping leading whitespace keeps a last character that is not
      whitespace. */
  lemma {:induction false} SkipSpacesKeepsLast(x: string)
    requires |x| > 0 && !IsSpace(x[|x| - 1])
    ensures |SkipSpaces(x)| > 0 && SkipSpaces(x)[|SkipSpaces(x)| - 1] == x[|x| - 1]
  {
  }

  /** Collapsing keeps a last character that is not whitespace. */
  lemma {:induction false} CollapseSpacesKeepsLast(x: string)
    requires |x| > 0 && !IsSpace(x[|x| - 1])
    ensures |CollapseSpaces(x)| > 0 && CollapseSpaces(x)[|CollapseSpaces(x)| - 1] == x[|x| - 1]
    decreases |x|
  {
    if IsSpace(x[0]) {
      SkipSpacesKeepsLast(x[1..]);
      CollapseSpacesKeepsLast(SkipSpaces(x[1..]));
    } else if |x| > 1 {
      CollapseSpacesKeepsLast(x[1..]);
    }
  }

  /** Collapsing works on each side of a point that is preceded by a
      non-whitespace character. */
  lemma {:induction false} CollapseSpacesAppend(x: string, y: string)
    requires |x| > 0 && !IsSpace(x[|x| - 1])
    ensures CollapseSpaces(x + y) == CollapseSpaces(x) + CollapseSpaces(y)
    decreases |x|, 1
  {
    if IsSpace(x[0]) {
      CollapseSpacesAppendSpace(x, y);
    } else {
      var t := x + y;
      assert t[0] == x[0] && t[1..] == x[1..] + y;
      if |x| == 1 {
        assert x[1..] == [];
        assert CollapseSpaces(x) == [x[0]] + CollapseSpaces([]);
      } else {
        CollapseSpacesAppend(x[1..], y);
      }
    }
  }

  /** `CollapseSpaces` on text that starts with whitespace. */
  lemma {:induction false} CollapseSpacesUnfoldSpace(t: string)
    requires |t| > 0 && IsSpace(t[0])
    ensures CollapseSpaces(t) == [' '] + CollapseSpaces(SkipSpaces(t[1..]))
  {
  }

  /** After a leading whitespace character of `x`, the whitespace run
      ends inside `x`, so skipping it in `x + y` leaves the rest of `x`
      followed by `y`. */
  lemma {:induction false} SkipSpacesTail(x: string, y: string)
    requires |x| > 0 && IsSpace(x[0]) && !IsSpace(x[|x| - 1])
    ensures var u := SkipSpaces(x[1..]);
      && 0 < |u| < |x| && !IsSpace(u[|u| - 1])
      && SkipSpaces((x + y)[1..]) == u + y
  {
    assert (x + y)[1..] == x[1..] + y;
    SkipSpacesAppend(x[1..], y);
    SkipSpacesKeepsLast(x[1..]);
  }

  /** The case of `CollapseSpacesAppend` where `x` starts with whitespace. */
  lemma {:induction false} CollapseSpacesAppendSpace(x: string, y: string)
    requires |x| > 0 && !IsSpace(x[|x| - 1]) && IsSpace(x[0])
    ensures CollapseSpaces(x + y) == CollapseSpaces(x) + CollapseSpaces(y)
    decreases |x|, 0
  {
    SkipSpacesTail(x, y);
    var u := SkipSpaces(x[1..]);
    assert (x + y)[0] == x[0];
    CollapseSpacesUnfoldSpace(x + y);
    CollapseSpacesUnfoldSpace(x);
    CollapseSpacesAppend(u, y);
    AppendAssoc([' '], CollapseSpaces(u), CollapseSpaces(y));
  }

  /** One whitespace character between two non-whitespace characters
      becomes exactly one space. */
  lemma {:induction false} CollapseSpacesSeparator(x: string, s: char, y: string)
    requires |x| > 0 && !IsSpace(x[|x| - 1]) && IsSpace(s) && |y| > 0 && !IsSpace(y[0])
    ensures CollapseSpaces(x + [s] + y) == CollapseSpaces(x) + [' '] + CollapseSpaces(y)
  {
    CollapseSpacesSpaceWord(s, y);
    AppendAssoc(x, [s], y);
    CollapseSpacesAppend(x, [s] + y);
    AppendAssoc(CollapseSpaces(x), [' '], CollapseSpaces(y));
  }

  /** One whitespace character before a non-whitespace one collapses to
      one space. */
  lemma {:induction false} CollapseSpacesSpaceWord(s: char, y: string)
    requires IsSpace(s) && |y| > 0 && !IsSpace(y[0])
    ensures CollapseSpaces([s] + y) == [' '] + CollapseSpaces(y)
  {
    var sy := [s] + y;
    assert sy[0] == s && sy[1..] == y;
    CollapseSpacesUnfoldSpace(sy);
    SkipSpacesNone(y);
  }

  /** Text without whitespace is left alone by collapsing. */
  lemma {:induction false} CollapseSpacesNoSpace(w: string)
    requires forall i :: 0 <= i < |w| ==> !IsSpace(w[i])
    ensures CollapseSpaces(w) == w
    decreases |w|
  {
    if w != [] {
      CollapseSpacesNoSpace(w[1..]);
      assert w == [w[0]] + w[1..];
    }
  }

  lemma {:induction false} StripTrailingPrepend(x: string, y: string)
    requires |y| > 0 && !IsSpace(y[0])
    ensures StripTrailing(x + y) == x + StripTrailing(y)
    decreases |y|
  {
    var t := x + y;
    assert t[|t| - 1] == y[|y| - 1];
    if IsSpace(y[|y| - 1]) {
      assert t[..|t| - 1] == x + y[..|y| - 1];
      StripTrailingPrepend(x, y[..|y| - 1]);
    }
  }

  /** Stripping a string that has one space between two non-whitespace
      characters strips each side and keeps that space. */
  lemma {:induction false} StripSeparator(x: string, y: string)
    requires |x| > 0 && !IsSpace(x[|x| - 1]) && |y| > 0 && !IsSpace(y[0])
    ensures Strip(x + [' '] + y) == Strip(x) + [' '] + Strip(y)
  {
    var k := SkipSpaces(x);
    assert SkipSpaces(x + [' '] + y) == (k + [' ']) + y by {
      AppendAssoc(x, [' '], y);
      SkipSpacesAppend(x, [' '] + y);
      AppendAssoc(k, [' '], y);
    }
    assert StripTrailing((k + [' ']) + y) == (k + [' ']) + StripTrailing(y) by {
      StripTrailingPrepend(k + [' '], y);
    }
    assert Strip(x) == k by {
      SkipSpacesKeepsLast(x);
      StripTrailingNone(k);
    }
    assert Strip(y) == StripTrailing(y) by {
      SkipSpacesNone(y);
    }
  }

  /** The last two steps of cleaning keep one space between two
      non-whitespace characters and treat each side on its own. */
  lemma {:induction false} LowerStripSeparator(x: string, y: string)
    requires |x| > 0 && !IsSpace(x[|x| - 1]) && |y| > 0 && !IsSpace(y[0])
    ensures LowerAscii(Strip(x + [' '] + y)) == LowerAscii(Strip(x)) + " " + LowerAscii(Strip(y))
  {
    StripSeparator(x, y);
    LowerSeparator(Strip(x), Strip(y));
  }

  lemma {:induction false} LowerSeparator(p: string, q: string)
    ensures LowerAscii(p + [' '] + q) == LowerAscii(p) + " " + LowerAscii(q)
  {
    LowerAsciiAppend(p + [' '], q);
    LowerAsciiAppend(p, [' ']);
  }

  /** The first substitution works character by character. */
  lemma {:induction false} ReplaceAppend(x: string, y: string)
    ensures ReplaceDisallowed(x + y) == ReplaceDisallowed(x) + ReplaceDisallowed(y)
  {
    var t := x + y;
    var u := ReplaceDisallowed(x) + ReplaceDisallowed(y);
    assert |ReplaceDisallowed(t)| == |u|;
    forall i | 0 <= i < |t|
      ensures ReplaceDisallowed(t)[i] == u[i]
    {
      if i < |x| {
        assert t[i] == x[i];
      } else {
        assert t[i] == y[i - |x|];
      }
    }
  }

  /** Skipping whitespace passes over a whole whitespace run and stops at
      the first character after it. */
  lemma {:induction false} SkipSpacesOver(s: string, y: string)
    requires forall i :: 0 <= i < |s| ==> IsSpace(s[i])
    requires |y| > 0 && !IsSpace(y[0])
    ensures SkipSpaces(s + y) == y
    decreases |s|
  {
    if s == [] {
      assert s + y == y;
      SkipSpacesNone(y);
    } else {
      assert (s + y)[0] == s[0] && (s + y)[1..] == s[1..] + y;
      SkipSpacesOver(s[1..], y);
    }
  }

  /** A whitespace run before a non-whitespace character collapses to one
      space. */
  lemma {:induction false} CollapseSpacesRunWord(s: string, y: string)
    requires |s| > 0 && forall i :: 0 <= i < |s| ==> IsSpace(s[i])
    requires |y| > 0 && !IsSpace(y[0])
    ensures CollapseSpaces(s + y) == [' '] + CollapseSpaces(y)
  {
    assert (s + y)[0] == s[0] && (s + y)[1..] == s[1..] + y;
    CollapseSpacesUnfoldSpace(s + y);
    SkipSpacesOver(s[1..], y);
  }

  /** Text made only of word characters is just lower-cased. */
  lemma {:induction false} CleanWordOnly(w: string)
    requires forall i :: 0 <= i < |w| ==> IsWordChar(w[i])
    ensures Clean(w) == LowerAscii(w)
  {
    assert ReplaceDisallowed(w) == w;
    CollapseSpacesNoSpace(w);
    if w != [] {
      WordCharNotSpace(w[0]);
      WordCharNotSpace(w[|w| - 1]);
    }
    SkipSpacesNone(w);
    StripTrailingNone(w);
  }

  /** The first two substitutions turn a run of separators between two
      words into one space, with each side substituted on its own. */
  lemma {:induction false} CollapseReplaceSeparatorRun(a: string, sep: string, b: string)
    requires |a| > 0 && IsWordChar(a[|a| - 1])
    requires |sep| > 0 && forall i :: 0 <= i < |sep| ==> !IsWordChar(sep[i])
    requires |b| > 0 && IsWordChar(b[0])
    ensures var ca := CollapseSpaces(ReplaceDisallowed(a));
      var cb := CollapseSpaces(ReplaceDisallowed(b));
      && CollapseSpaces(ReplaceDisallowed(a + sep + b)) == ca + [' '] + cb
      && |ca| > 0 && !IsSpace(ca[|ca| - 1])
      && |cb| > 0 && !IsSpace(cb[0])
  {
    var ra, rs, rb := ReplaceDisallowed(a), ReplaceDisallowed(sep), ReplaceDisallowed(b);
    assert ReplaceDisallowed(a + sep + b) == ra + (rs + rb) by {
      ReplaceAppend(a + sep, b);
      ReplaceAppend(a, sep);
      AppendAssoc(ra, rs, rb);
    }
    assert forall i :: 0 <= i < |rs| ==> IsSpace(rs[i]);
    assert ra[|ra| - 1] == a[|a| - 1] && rb[0] == b[0];
    WordCharNotSpace(a[|a| - 1]);
    WordCharNotSpace(b[0]);
    CollapseSpacesRunWord(rs, rb);
    CollapseSpacesAppend(ra, rs + rb);
    AppendAssoc(CollapseSpaces(ra), [' '], CollapseSpaces(rb));
    CollapseSpacesKeepsLast(ra);
    CollapseSpacesShape(rb);
    assert IsWordChar(CollapseSpaces(rb)[0]);
  }

  /** A run of characters that are not word characters (punctuation,
      whitespace, or both, as in ", ") between two words is replaced, not
      deleted: the cleaned halves are joined by exactly one space. */
  lemma {:induction false} CleanSeparatorRun(a: string, sep: string, b: string)
    requires |a| > 0 && IsWordChar(a[|a| - 1])
    requires |sep| > 0 && forall i :: 0 <= i < |sep| ==> !IsWordChar(sep[i])
    requires |b| > 0 && IsWordChar(b[0])
    ensures Clean(a + sep + b) == Clean(a) + " " + Clean(b)
  {
    CollapseReplaceSeparatorRun(a, sep, b);
    LowerStripSeparator(CollapseSpaces(ReplaceDisallowed(a)), CollapseSpaces(ReplaceDisallowed(b)));
  }

  /** The one-character case of `CleanSeparatorRun`. */
  lemma {:induction false} CleanSeparator(a: string, c: char, b: string)
    requires |a| > 0 && IsWordChar(a[|a| - 1])
    requires !IsWordChar(c)
    requires |b| > 0 && IsWordChar(b[0])
    ensures Clean(a + [c] + b) == Clean(a) + " " + Clean(b)
  {
    CleanSeparatorRun(a, [c], b);
  }

  /** The most common separator, a comma and a space, between two
      lower-case words: "a, b" is cleaned to "a b". */
  lemma {:induction false} CleanCommaSpace(x: string, y: string)
    requires |x| > 0 && forall i :: 0 <= i < |x| ==> IsAsciiLower(x[i])
    requires |y| > 0 && forall i :: 0 <= i < |y| ==> IsAsciiLower(y[i])
    ensures Clean(x + ", " + y) == x + " " + y
  {
    var sep := ", ";
    assert !IsWordChar(sep[0]) && !IsWordChar(sep[1]);
    assert IsWordChar(x[|x| - 1]) && IsWordChar(y[0]);
    CleanSeparatorRun(x, sep, y);
    assert Clean(x) == x by {
      CleanWordOnly(x);
      LowerAsciiIdentity(x);
    }
    assert Clean(y) == y by {
      CleanWordOnly(y);
      LowerAsciiIdentity(y);
    }
  }

  /** The same fact one step on: the tokens of the cleaned text are the
      tokens of each cleaned half, in order. */
  lemma {:induction false} TokenizeCleanSeparatorRun(a: string, sep: string, b: string)
    requires |a| > 0 && IsWordChar(a[|a| - 1])
    requires |sep| > 0 && forall i :: 0 <= i < |sep| ==> !IsWordChar(sep[i])
    requires |b| > 0 && IsWordChar(b[0])
    ensures Tokenize(Clean(a + sep + b)) == Tokenize(Clean(a)) + Tokenize(Clean(b))
  {
    CleanSeparatorRun(a, sep, b);
    TokenizeSplitAtOther(Clean(a), ' ', Clean(b));
  }

  /** The one-character case of `TokenizeCleanSeparatorRun`. */
  lemma {:induction false} TokenizeCleanSeparator(a: string, c: char, b: string)
    requires |a| > 0 && IsWordChar(a[|a| - 1])
    requires !IsWordChar(c)
    requires |b| > 0 && IsWordChar(b[0])
    ensures Tokenize(Clean(a + [c] + b)) == Tokenize(Clean(a)) + Tokenize(Clean(b))
  {
    TokenizeCleanSeparatorRun(a, [c], b);
  }

  /** A collapsed string is left alone by collapsing. */
  lemma {:induction false} CollapseSpacesOfCollapsed(s: string)
    requires Collapsed(s)
    ensures CollapseSpaces(s) == s
    decreases |s|
  {
    if s != [] {
      var u := s[1..];
      assert CollapseSpaces(u) == u by {
        CollapsedSlice(s, 1, |s|);
        CollapseSpacesOfCollapsed(u);
      }
      if s[0] == ' ' {
        assert SkipSpaces(u) == u by {
          if u != [] {
            WordCharNotSpace(u[0]);
          }
        }
        assert CollapseSpaces(s) == [' '] + CollapseSpaces(SkipSpaces(u));
      } else {
        WordCharNotSpace(s[0]);
        assert CollapseSpaces(s) == [s[0]] + CollapseSpaces(u);
      }
      assert s == [s[0]] + u;
    }
  }

  /** Cleaned text is a collapsed string that the first substitution
      leaves alone. */
  lemma {:induction false} CleanedIsCollapsed(s: string)
    requires IsCleaned(s)
    ensures ReplaceDisallowed(s) == s
    ensures Collapsed(s)
  {
    forall i | 0 <= i < |s|
      ensures IsWordChar(s[i]) || s[i] == ' '
    {
      assert IsCleanChar(s[i]);
    }
  }

  /** Every step of cleaning leaves cleaned text unchanged. */
  lemma {:induction false} CleanOfCleaned(s: string)
    requires IsCleaned(s)
    ensures Clean(s) == s
  {
    CleanedIsCollapsed(s);
    CollapseSpacesOfCollapsed(s);
    StripOfCleaned(s);
    LowerOfCleaned(s);
  }

  lemma {:induction false} StripOfCleaned(s: string)
    requires IsCleaned(s)
    ensures Strip(s) == s
  {
    if s != [] {
      WordCharNotSpace(s[0]);
      WordCharNotSpace(s[|s| - 1]);
    }
    SkipSpacesNone(s);
    StripTrailingNone(s);
  }

  /** Text that does not start with whitespace has nothing to skip. */
  lemma {:induction false} SkipSpacesNone(t: string)
    requires t == [] || !IsSpace(t[0])
    ensures SkipSpaces(t) == t
  {
  }

  /** Text that does not end with whitespace has nothing to strip. */
  lemma {:induction false} StripTrailingNone(t: string)
    requires t == [] || !IsSpace(t[|t| - 1])
    ensures StripTrailing(t) == t
  {
  }

  /** No word character is whitespace. */
  lemma {:induction false} WordCharNotSpace(c: char)
    requires IsWordChar(c) || (IsCleanChar(c) && c != ' ')
    ensures !IsSpace(c)
  {
  }

  lemma {:induction false} LowerOfCleaned(s: string)
    requires IsCleaned(s)
    ensures LowerAscii(s) == s
  {
    assert forall i :: 0 <= i < |s| ==> IsCleanChar(s[i]);
    LowerAsciiIdentity(s);
  }

  /** Cleaning is idempotent. */
  lemma {:induction false} CleanIdempotent(t: string)
    ensures Clean(Clean(t)) == Clean(t)
  {
    CleanShape(t);
    CleanOfCleaned(Clean(t));
  }

  // ---------------------------------------------------------------------
  // Runs
  // ---------------------------------------------------------------------

  /** The three alternatives of the tokeniser's pattern, and everything
      else. */
  datatype CharClass = Latin | Han | Digit | Other

  function ClassOf(c: char): CharClass
  {
    if IsAsciiLetter(c) then Latin
    else if IsCjk(c) then Han
    else if IsAsciiDigit(c) then Digit
    else Other
  }

  /** Length of the longest prefix of `t` whose characters are all of
      class `k`. */
  function RunLength(t: string, k: CharClass): (n: nat)
    ensures n <= |t|
    ensures forall i :: 0 <= i < n ==> ClassOf(t[i]) == k
    ensures n < |t| ==> ClassOf(t[n]) != k
    decreases |t|
  {
    if t != [] && ClassOf(t[0]) == k then 1 + RunLength(t[1..], k) else 0
  }

  /** A non-empty string all of one tokenisable class. */
  predicate IsRun(w: string)
  {
    |w| > 0 && ClassOf(w[0]) != Other && forall i :: 0 <= i < |w| ==> ClassOf(w[i]) == ClassOf(w[0])
  }

  /** The characters of `s` the tokeniser's pattern can match, in order. */
  function Classed(s: string): string
    decreases |s|
  {
    if s == [] then [] else (if ClassOf(s[0]) == Other then [] else [s[0]]) + Classed(s[1..])
  }

  lemma {:induction false} ClassedAppend(a: string, b: string)
    ensures Classed(a + b) == Classed(a) + Classed(b)
    decreases |a|
  {
    if a != [] {
      assert (a + b)[0] == a[0] && (a + b)[1..] == a[1..] + b;
      var h := if ClassOf(a[0]) == Other then [] else [a[0]];
      assert Classed(a + b) == h + Classed(a[1..] + b);
      ClassedAppend(a[1..], b);
      assert Classed(a) == h + Classed(a[1..]);
    } else {
      assert a + b == b;
    }
  }

  lemma {:induction false} ClassedOfRun(w: string)
    requires forall i :: 0 <= i < |w| ==> ClassOf(w[i]) != Other
    ensures Classed(w) == w
    decreases |w|
  {
    if w != [] {
      ClassedOfRun(w[1..]);
      assert w == [w[0]] + w[1..];
    }
  }

  /** Python's `re.findall(r'[a-zA-Z]+|[一-龥]+|[0-9]+', t)`: the
      maximal single-class runs, left to right. Together they spell out
      exactly the matchable characters of `t`. */
  function Runs(t: string): (r: seq<string>)
    ensures forall i :: 0 <= i < |r| ==> IsRun(r[i])
    ensures Flatten(r) == Classed(t)
    decreases |t|
  {
    if t == [] then []
    else if ClassOf(t[0]) == Other then
      assert t == [t[0]] + t[1..];
      Runs(t[1..])
    else
      var n := RunLength(t, ClassOf(t[0]));
      assert t == t[..n] + t[n..];
      ClassedAppend(t[..n], t[n..]);
      ClassedOfRun(t[..n]);
      [t[..n]] + Runs(t[n..])
  }

  // Token boundaries: `Runs` takes each run whole and breaks only where
  // the character class changes.

  /** A run's length as `RunLength` measures it is its whole length. */
  lemma {:induction false} RunLengthOfRun(x: string)
    requires IsRun(x)
    ensures RunLength(x, ClassOf(x[0])) == |x|
  {
  }

  /** Appending text after the point where a run of class `k` ends does
      not change the run. */
  lemma {:induction false} RunLengthPrefix(x: string, z: string, k: CharClass)
    requires RunLength(x, k) < |x| || z == [] || ClassOf(z[0]) != k
    ensures RunLength(x + z, k) == RunLength(x, k)
  {
    var t := x + z;
    assert forall i :: 0 <= i < |x| ==> t[i] == x[i];
    assert z != [] ==> t[|x|] == z[0];
  }

  /** A character outside every class is skipped. */
  lemma {:induction false} RunsSkipOther(c: char, y: string)
    requires ClassOf(c) == Other
    ensures Runs([c] + y) == Runs(y)
  {
    assert ([c] + y)[1..] == y;
  }

  /** A whole run followed by a character of another class (or nothing)
      is one match, never split. */
  lemma {:induction false} RunsTakeWhole(x: string, y: string)
    requires IsRun(x) && (y == [] || ClassOf(y[0]) != ClassOf(x[0]))
    ensures Runs(x + y) == [x] + Runs(y)
  {
    var t := x + y;
    assert t[0] == x[0];
    RunLengthOfRun(x);
    RunLengthPrefix(x, y, ClassOf(x[0]));
    assert t[..|x|] == x && t[|x|..] == y;
  }

  /** A character outside every class separates the text into two
      independent halves. */
  lemma {:induction false} RunsSplitAtOther(x: string, o: char, y: string)
    requires ClassOf(o) == Other
    ensures Runs(x + [o] + y) == Runs(x) + Runs(y)
    decreases |x|
  {
    var t := x + [o] + y;
    if x == [] {
      assert t == [o] + y;
      RunsSkipOther(o, y);
    } else if ClassOf(x[0]) == Other {
      assert Runs(t) == Runs(x[1..] + [o] + y) by {
        assert t[0] == x[0] && t[1..] == x[1..] + [o] + y;
      }
      RunsSplitAtOther(x[1..], o, y);
    } else {
      var k := ClassOf(x[0]);
      var n := RunLength(x, k);
      assert Runs(t) == [x[..n]] + Runs(x[n..] + [o] + y) by {
        assert t[0] == x[0] && t == x + ([o] + y);
        RunLengthPrefix(x, [o] + y, k);
        assert t[..n] == x[..n] && t[n..] == x[n..] + [o] + y;
      }
      assert Runs(x[n..] + [o] + y) == Runs(x[n..]) + Runs(y) by {
        RunsSplitAtOther(x[n..], o, y);
      }
      assert Runs(x) == [x[..n]] + Runs(x[n..]);
      AppendAssoc([x[..n]], Runs(x[n..]), Runs(y));
    }
  }

  // ---------------------------------------------------------------------
  // Chunking and tokens
  // ---------------------------------------------------------------------

  /** Consecutive two-character chunks, the last one a single character
      when the length is odd. */
  function Pairs(s: string): (r: seq<string>)
    requires |s| > 0
    ensures |r| == (|s| + 1) / 2
    ensures forall i :: 0 <= i < |r| - 1 ==> |r[i]| == 2
    ensures |r[|r| - 1]| == 2 - |s| % 2
    decreases |s|
  {
    if |s| <= 2 then [s] else [s[..2]] + Pairs(s[2..])
  }

  /** Chunk `i` of `Pairs(s)` is the slice of `s` starting at `2 * i`. */
  lemma {:induction false} PairsSlices(s: string)
    requires |s| > 0
    ensures forall i :: 0 <= i < |Pairs(s)| ==> Pairs(s)[i] == s[2 * i..2 * i + |Pairs(s)[i]|]
  {
    forall i | 0 <= i < |Pairs(s)|
      ensures Pairs(s)[i] == s[2 * i..2 * i + |Pairs(s)[i]|]
    {
      PairsSliceAt(s, i);
    }
  }

  lemma {:induction false} PairsSliceAt(s: string, i: int)
    requires |s| > 0 && 0 <= i < |Pairs(s)|
    ensures Pairs(s)[i] == s[2 * i..2 * i + |Pairs(s)[i]|]
    decreases |s|
  {
    if i > 0 {
      var rest := Pairs(s[2..]);
      assert Pairs(s) == [s[..2]] + rest;
      assert Pairs(s)[i] == rest[i - 1];
      PairsSliceAt(s[2..], i - 1);
      SliceOfDrop(s, 2, 2 * (i - 1), 2 * (i - 1) + |rest[i - 1]|);
    }
  }

  /** The chunks spell out `s`. */
  lemma {:induction false} PairsFlatten(s: string)
    requires |s| > 0
    ensures Flatten(Pairs(s)) == s
    decreases |s|
  {
    if |s| > 2 {
      PairsFlatten(s[2..]);
      FlattenAppend([s[..2]], Pairs(s[2..]));
      assert Flatten([s[..2]]) == s[..2] + Flatten([]);
      assert s == s[..2] + s[2..];
    } else {
      assert Flatten(Pairs(s)) == s + Flatten([]);
    }
  }

  /** A run with some ideograph in it. */
  predicate IsChineseWord(w: string)
  {
    exists i :: 0 <= i < |w| && IsCjk(w[i])
  }

  /** An ideograph run of up to four characters is one token; a longer one
      is split into pairs. */
  function ChunkRun(run: string): (r: seq<string>)
    ensures Flatten(r) == run
    ensures |run| <= 4 ==> r == [run]
    ensures |run| > 4 ==> forall i :: 0 <= i < |r| ==> 1 <= |r[i]| <= 2
  {
    if |run| <= 4 then
      assert Flatten([run]) == run + Flatten([]);
      [run]
    else
      PairsFlatten(run);
      Pairs(run)
  }

  /** The 5-character example: chunks of 2, 2 and 1. */
  lemma {:induction false} ChunkFive(run: string)
    requires |run| == 5
    ensures ChunkRun(run) == [run[..2], run[2..4], run[4..]]
  {
    var tail := run[2..];
    assert tail[2..] == run[4..];
    assert tail[..2] == run[2..4];
    assert Pairs(tail[2..]) == [run[4..]];
    assert Pairs(tail) == [run[2..4]] + Pairs(tail[2..]);
    assert Pairs(run) == [run[..2]] + Pairs(tail);
  }

  function TokensOfRuns(runs: seq<string>): seq<string>
    decreases |runs|
  {
    if runs == [] then []
    else (if IsChineseWord(runs[0]) then ChunkRun(runs[0]) else [runs[0]]) + TokensOfRuns(runs[1..])
  }

  /** `_tokenize`. */
  function Tokenize(t: string): seq<string>
  {
    TokensOfRuns(Runs(t))
  }

  /** Every chunk of a run is a run of the same class, at most four
      characters long. */
  lemma {:induction false} ChunkRunPieces(w: string)
    requires IsRun(w)
    ensures forall i :: 0 <= i < |ChunkRun(w)| ==>
              IsRun(ChunkRun(w)[i]) && ClassOf(ChunkRun(w)[i][0]) == ClassOf(w[0]) && |ChunkRun(w)[i]| <= 4
  {
    if |w| > 4 {
      var r := Pairs(w);
      forall i | 0 <= i < |r|
        ensures IsRun(r[i]) && ClassOf(r[i][0]) == ClassOf(w[0])
      {
        PairsSliceAt(w, i);
        RunSlice(w, 2 * i, 2 * i + |r[i]|);
      }
    }
  }

  /** A non-empty slice of a run is a run of the same class. */
  lemma {:induction false} RunSlice(w: string, a: int, b: int)
    requires IsRun(w) && 0 <= a < b <= |w|
    ensures IsRun(w[a..b]) && ClassOf(w[a..b][0]) == ClassOf(w[0])
  {
    var u := w[a..b];
    assert forall j :: 0 <= j < |u| ==> u[j] == w[a + j];
  }

  /** Every token is a non-empty single-class piece of a run, ideograph
      tokens are at most four characters long, and the tokens spell out
      the runs in order. */
  lemma {:induction false} TokensOfRunsProps(runs: seq<string>)
    requires forall i :: 0 <= i < |runs| ==> IsRun(runs[i])
    ensures forall i :: 0 <= i < |TokensOfRuns(runs)| ==>
              IsRun(TokensOfRuns(runs)[i]) && (ClassOf(TokensOfRuns(runs)[i][0]) == Han ==> |TokensOfRuns(runs)[i]| <= 4)
    ensures Flatten(TokensOfRuns(runs)) == Flatten(runs)
    decreases |runs|
  {
    if runs != [] {
      var w := runs[0];
      var head := if IsChineseWord(w) then ChunkRun(w) else [w];
      var tail := TokensOfRuns(runs[1..]);
      TokensOfRunsProps(runs[1..]);
      FlattenAppend(head, tail);
      assert Flatten([w]) == w + Flatten([]);
      assert TokensOfRuns(runs) == head + tail;
      if IsChineseWord(w) {
        ChunkRunPieces(w);
      } else {
        assert ClassOf(w[0]) != Han;
      }
      assert forall i :: 0 <= i < |head| ==> IsRun(head[i]) && (ClassOf(head[i][0]) == Han ==> |head[i]| <= 4);
    }
  }

  lemma {:induction false} TokenizeProps(t: string)
    ensures forall i :: 0 <= i < |Tokenize(t)| ==>
              IsRun(Tokenize(t)[i]) && (ClassOf(Tokenize(t)[i][0]) == Han ==> |Tokenize(t)[i]| <= 4)
    ensures Flatten(Tokenize(t)) == Classed(t)
  {
    TokensOfRunsProps(Runs(t));
  }

  lemma {:induction false} TokensOfRunsAppend(a: seq<string>, b: seq<string>)
    ensures TokensOfRuns(a + b) == TokensOfRuns(a) + TokensOfRuns(b)
    decreases |a|
  {
    if a == [] {
      assert a + b == b;
    } else {
      assert (a + b)[0] == a[0] && (a + b)[1..] == a[1..] + b;
      TokensOfRunsAppend(a[1..], b);
    }
  }

  /** The tokens one run yields: the run itself, or its chunks when it is
      made of ideographs. */
  function RunTokens(w: string): seq<string>
  {
    TokensOfRuns([w])
  }

  /** A run is a Chinese word exactly when its class is `Han`, so only
      ideograph runs are chunked. */
  lemma {:induction false} RunTokensOfRun(w: string)
    requires IsRun(w)
    ensures RunTokens(w) == if ClassOf(w[0]) == Han then ChunkRun(w) else [w]
  {
    assert IsChineseWord(w) <==> ClassOf(w[0]) == Han by {
      if !IsChineseWord(w) {
        assert !IsCjk(w[0]);
      }
    }
    assert [w][1..] == [];
    assert TokensOfRuns([w]) == (if IsChineseWord(w) then ChunkRun(w) else [w]) + TokensOfRuns([]);
  }

  /** A whole run followed by a character of another class yields that
      run's tokens, then the tokens of the rest. */
  lemma {:induction false} TokenizeTakeWhole(x: string, y: string)
    requires IsRun(x) && (y == [] || ClassOf(y[0]) != ClassOf(x[0]))
    ensures Tokenize(x + y) == RunTokens(x) + Tokenize(y)
    ensures Tokenize(x + y) == (if ClassOf(x[0]) == Han then ChunkRun(x) else [x]) + Tokenize(y)
  {
    RunsTakeWhole(x, y);
    TokensOfRunsAppend([x], Runs(y));
    RunTokensOfRun(x);
  }

  /** Tokenising a single run of letters or digits gives that run back as
      one token. */
  lemma {:induction false} TokenizeWord(x: string)
    requires IsRun(x) && ClassOf(x[0]) != Han
    ensures Tokenize(x) == [x]
  {
    TokenizeTakeWhole(x, []);
    assert x + [] == x;
  }

  /** A character outside every class (a space, for one) splits the
      token list: the tokens of each side, in order. */
  lemma {:induction false} TokenizeSplitAtOther(x: string, o: char, y: string)
    requires ClassOf(o) == Other
    ensures Tokenize(x + [o] + y) == Tokenize(x) + Tokenize(y)
  {
    RunsSplitAtOther(x, o, y);
    TokensOfRunsAppend(Runs(x), Runs(y));
  }
}
