/** Keyword extraction from a learning problem: dictionary technical terms,
    then the filtered tokens of the cleaned text; term-frequency weights;
    and frequent two- and three-word phrases. */
module KeywordExtractor {
  import opened Seqs
  import opened Text
  import opened KeywordText
  import opened Ranking

  // ---------------------------------------------------------------------
  // Technical-term dictionary
  // ---------------------------------------------------------------------

  /** A canonical concept and the spellings that signal it. */
  datatype TechEntry = TechEntry(concept: string, synonyms: seq<string>)

  /** The dictionary, in its declaration order (which is the order the
      concepts are reported in). */
  const TechDictionary: seq<TechEntry> := [
    TechEntry("大模型", ["大模型", "LLM", "Large Language Model"]),
    TechEntry("内存管理", ["内存管理", "Memory Management", "内存优化"]),
    TechEntry("记忆机制", ["记忆", "记忆机制", "Memory Mechanism"]),
    TechEntry("神经网络", ["神经网络", "Neural Network", "NN"]),
    TechEntry("深度学习", ["深度学习", "Deep Learning", "DL"]),
    TechEntry("机器学习", ["机器学习", "Machine Learning", "ML"]),
    TechEntry("人工智能", ["人工智能", "AI", "Artificial Intelligence"]),
    TechEntry("自然语言处理", ["NLP", "自然语言处理", "Natural Language Processing"]),
    TechEntry("注意力机制", ["注意力机制", "Attention Mechanism", "Attention"]),
    TechEntry("Transformer", ["Transformer", "transformer"]),
    TechEntry("GPT", ["GPT", "gpt"]),
    TechEntry("向量数据库", ["向量数据库", "Vector Database"]),
    TechEntry("嵌入", ["嵌入", "Embedding", "embeddings"])
  ]

  function Concepts(dict: seq<TechEntry>): (r: seq<string>)
    ensures |r| == |dict| && forall k :: 0 <= k < |dict| ==> r[k] == dict[k].concept
  {
    seq(|dict|, k requires 0 <= k < |dict| => dict[k].concept)
  }

  /** The lower-cased text contains some synonym of `e`, lower-cased. */
  predicate Mentions(low: string, e: TechEntry)
  {
    exists j :: 0 <= j < |e.synonyms| && Contains(low, LowerAscii(e.synonyms[j]))
  }

  /** The concepts of `dict` that `low` mentions, in dictionary order.
      Concepts are the keys of a dictionary, so they are distinct. */
  function TechTermsIn(low: string, dict: seq<TechEntry>): (r: seq<string>)
    requires Distinct(Concepts(dict))
    ensures IsSubseq(r, Concepts(dict))
    ensures forall k :: 0 <= k < |dict| ==> (dict[k].concept in r <==> Mentions(low, dict[k]))
    ensures forall i :: 0 <= i < |r| ==> r[i] in Concepts(dict)
    ensures Distinct(r)
    decreases |dict|
  {
    if dict == [] then []
    else
      var c := dict[0].concept;
      ConceptsTail(dict);
      var rest := TechTermsIn(low, dict[1..]);
      SubseqCons(rest, Concepts(dict[1..]), c);
      if Mentions(low, dict[0]) then [c] + rest else rest
  }

  /** The first concept of a dictionary with distinct concepts is not
      among the rest, and the rest are distinct too. */
  lemma {:induction false} ConceptsTail(dict: seq<TechEntry>)
    requires dict != [] && Distinct(Concepts(dict))
    ensures Concepts(dict) == [dict[0].concept] + Concepts(dict[1..])
    ensures Distinct(Concepts(dict[1..]))
    ensures forall k :: 1 <= k < |dict| ==> dict[k] == dict[1..][k - 1] && dict[k].concept != dict[0].concept
  {
    var cs := Concepts(dict);
    assert cs == [dict[0].concept] + Concepts(dict[1..]);
  }

  /** Putting one element in front of the longer sequence keeps a
      subsequence a subsequence. */
  lemma {:induction false} SubseqCons<T>(a: seq<T>, b: seq<T>, x: T)
    requires IsSubseq(a, b)
    ensures IsSubseq(a, [x] + b) && IsSubseq([x] + a, [x] + b)
  {
    assert ([x] + b)[1..] == b;
    assert ([x] + a)[1..] == a;
  }

  lemma {:induction false} TechConceptsDistinct()
    ensures Distinct(Concepts(TechDictionary))
  {
    var cs := Concepts(TechDictionary);
    assert cs == ["大模型", "内存管理", "记忆机制", "神经网络", "深度学习", "机器学习",
      "人工智能", "自然语言处理", "注意力机制", "Transformer", "GPT", "向量数据库", "嵌入"];
    // The concepts already differ in their first characters.
    assert forall i :: 0 <= i < |cs| ==> |cs[i]| > 0 && HeadRank(cs[i][0]) == i;
  }

  /** The position in the dictionary of the concept starting with `c`. */
  function HeadRank(c: char): int
  {
    match c
    case '大' => 0 case '内' => 1 case '记' => 2 case '神' => 3 case '深' => 4
    case '机' => 5 case '人' => 6 case '自' => 7 case '注' => 8 case 'T' => 9
    case 'G' => 10 case '向' => 11 case '嵌' => 12 case _ => -1
  }

  /** `_extract_tech_terms`: every dictionary concept one of whose
      synonyms occurs in the text, ignoring case, each once, in dictionary
      order. */
  function ExtractTechTerms(text: string): (r: seq<string>)
    ensures IsSubseq(r, Concepts(TechDictionary))
    ensures Distinct(r)
    ensures forall k :: 0 <= k < |TechDictionary| ==>
              (TechDictionary[k].concept in r <==> Mentions(LowerAscii(text), TechDictionary[k]))
  {
    TechConceptsDistinct();
    TechTermsIn(LowerAscii(text), TechDictionary)
  }

  // ---------------------------------------------------------------------
  // Filtering
  // ---------------------------------------------------------------------

  const ChineseStopwords: set<string> := {
    "的", "了", "在", "是", "我", "有", "和", "就", "不", "人", "都", "一", "一个",
    "上", "也", "很", "到", "说", "要", "去", "你", "会", "着", "没有", "看", "好",
    "自己", "这", "那", "里", "就是", "什么", "怎么", "可以", "这个", "那个",
    "如何", "为什么", "怎样", "学习", "了解", "掌握", "理解", "知道"
  }

  const EnglishStopwords: set<string> := {
    "the", "a", "an", "and", "or", "but", "in", "on", "at", "to", "for",
    "of", "with", "by", "is", "are", "was", "were", "be", "been", "being",
    "have", "has", "had", "do", "does", "did", "will", "would", "could",
    "should", "may", "might", "must", "can", "this", "that", "these",
    "those", "i", "you", "he", "she", "it", "we", "they", "me", "him",
    "her", "us", "them", "my", "your", "his", "its", "our", "their",
    "what", "how", "when", "where", "why", "which", "who", "whom", "whose",
    "learn", "study", "understand", "know", "master"
  }

  /** Non-empty and all ASCII digits. */
  predicate IsDigits(w: string)
  {
    |w| > 0 && forall i :: 0 <= i < |w| ==> IsAsciiDigit(w[i])
  }

  /** A word survives filtering: not empty, not a single non-ideograph
      character, not a stop word in either language (ignoring case), and
      not a number. */
  predicate Keep(w: string)
  {
    && w != []
    && !(|w| == 1 && !IsCjk(w[0]))
    && LowerAscii(w) !in ChineseStopwords
    && LowerAscii(w) !in EnglishStopwords
    && !IsDigits(w)
  }

  /** `_filter_words`: the kept words, in order, with their multiplicity. */
  function FilterWords(ws: seq<string>): (r: seq<string>)
    ensures IsSubseq(r, ws)
    ensures forall i :: 0 <= i < |r| ==> Keep(r[i])
    ensures forall w :: Count(r, w) == if Keep(w) then Count(ws, w) else 0
    decreases |ws|
  {
    if ws == [] then []
    else
      var rest := FilterWords(ws[1..]);
      assert ws == [ws[0]] + ws[1..];
      SubseqCons(rest, ws[1..], ws[0]);
      if Keep(ws[0]) then
        assert ([ws[0]] + rest)[1..] == rest;
        [ws[0]] + rest
      else
        rest
  }

  /** The filtered tokens of the cleaned text: the words both the weighted
      and the phrase extraction count. */
  function FilteredTokens(text: string): (r: seq<string>)
    ensures forall i :: 0 <= i < |r| ==> Keep(r[i]) && IsRun(r[i])
  {
    var ws := Tokenize(Clean(text));
    TokenizeProps(Clean(text));
    var r := FilterWords(ws);
    forall i | 0 <= i < |r|
      ensures IsRun(r[i])
    {
      CountPositive(r, r[i]);
      CountPositive(ws, r[i]);
    }
    r
  }

  // ---------------------------------------------------------------------
  // extract_keywords
  // ---------------------------------------------------------------------

  /** The candidates longer than one character, in order. */
  function LongOnly(xs: seq<string>): (r: seq<string>)
    ensures forall i :: 0 <= i < |r| ==> |r[i]| > 1 && r[i] in xs
    ensures forall i :: 0 <= i < |xs| && |xs[i]| > 1 ==> xs[i] in r
    decreases |xs|
  {
    if xs == [] then []
    else (if |xs[0]| > 1 then [xs[0]] else []) + LongOnly(xs[1..])
  }

  /** Dropping short candidates keeps the relative order of first
      occurrences of the long ones. */
  lemma {:induction false} LongOnlyOrder(xs: seq<string>, x: string, y: string)
    requires x in xs && y in xs && |x| > 1 && |y| > 1
    ensures x in LongOnly(xs) && y in LongOnly(xs)
    ensures FirstIndex(LongOnly(xs), x) < FirstIndex(LongOnly(xs), y) <==> FirstIndex(xs, x) < FirstIndex(xs, y)
    decreases |xs|
  {
    var l := LongOnly(xs);
    if xs[0] == x || xs[0] == y {
      assert l[0] == xs[0];
    } else {
      var h := if |xs[0]| > 1 then [xs[0]] else [];
      var l' := LongOnly(xs[1..]);
      LongOnlyOrder(xs[1..], x, y);
      assert l == h + l';
      FirstIndexAppendFront(h, l', x);
      FirstIndexAppendFront(h, l', y);
      assert FirstIndex(xs, x) == 1 + FirstIndex(xs[1..], x);
      assert FirstIndex(xs, y) == 1 + FirstIndex(xs[1..], y);
    }
  }

  /** First occurrences in the de-duplicated long candidates increase
      with first occurrences among all candidates. */
  lemma {:induction false} DedupLongOrder(c: seq<string>)
    ensures forall i, j :: 0 <= i < j < |Dedup(LongOnly(c))| ==>
              FirstIndex(c, Dedup(LongOnly(c))[i]) < FirstIndex(c, Dedup(LongOnly(c))[j])
  {
    var d := Dedup(LongOnly(c));
    forall i, j | 0 <= i < j < |d|
      ensures FirstIndex(c, d[i]) < FirstIndex(c, d[j])
    {
      LongOnlyOrder(c, d[i], d[j]);
    }
  }

  /** In a sequence ordered by first occurrence in `a + b`, the elements of
      `a` come first. */
  lemma {:induction false} PrefixElementsFirst(a: seq<string>, b: seq<string>, r: seq<string>)
    requires forall i :: 0 <= i < |r| ==> r[i] in a + b
    requires forall i, j :: 0 <= i < j < |r| ==> FirstIndex(a + b, r[i]) < FirstIndex(a + b, r[j])
    ensures forall i, j :: 0 <= i < j < |r| && r[j] in a ==> r[i] in a
  {
    var c := a + b;
    forall i, j | 0 <= i < j < |r| && r[j] in a
      ensures r[i] in a
    {
      FirstIndexPrefix(a, b, r[j]);
      var p := FirstIndex(c, r[i]);
      assert c[p] == r[i] && p < |a|;
      assert a[p] == c[p];
    }
  }

  /** The tail of `extract_keywords` on its candidate list `terms + words`:
      drop candidates of one character, keep the first occurrence of each,
      and cut at `max` (a Python slice, so a negative `max` drops the last
      `-max` of them). The result is distinct, ordered by first occurrence with the
      dictionary terms first, and a long candidate is left out only when
      the limit is reached and then it occurs after every one kept. */
  function SelectKeywords(terms: seq<string>, words: seq<string>, max: int): (r: seq<string>)
    ensures 0 <= max ==> |r| <= max
    ensures |r| <= |Dedup(LongOnly(terms + words))| && r == Dedup(LongOnly(terms + words))[..|r|]
    ensures max < 0 ==> var n := |Dedup(LongOnly(terms + words))|;
              |r| == if n + max < 0 then 0 else n + max
    ensures Distinct(r)
    ensures forall i :: 0 <= i < |r| ==> |r[i]| > 1 && r[i] in terms + words
    ensures forall i, j :: 0 <= i < j < |r| ==> FirstIndex(terms + words, r[i]) < FirstIndex(terms + words, r[j])
    ensures forall i, j :: 0 <= i < j < |r| && r[j] in terms ==> r[i] in terms
    ensures forall k :: 0 <= max && 0 <= k < |terms + words| && |(terms + words)[k]| > 1 && (terms + words)[k] !in r ==>
              |r| == max && forall i :: 0 <= i < |r| ==> FirstIndex(terms + words, r[i]) < FirstIndex(terms + words, (terms + words)[k])
  {
    var c := terms + words;
    var r := Take(Dedup(LongOnly(c)), max);
    CutFacts(c, max);
    PrefixElementsFirst(terms, words, r);
    r
  }

  /** What `SelectKeywords` promises, for any candidate list `c`. */
  lemma {:induction false} CutFacts(c: seq<string>, max: int)
    ensures var r := Take(Dedup(LongOnly(c)), max);
      && (0 <= max ==> |r| <= max)
      && Distinct(r)
      && (forall i :: 0 <= i < |r| ==> |r[i]| > 1 && r[i] in c)
      && (forall i, j :: 0 <= i < j < |r| ==> FirstIndex(c, r[i]) < FirstIndex(c, r[j]))
      && (forall k :: 0 <= max && 0 <= k < |c| && |c[k]| > 1 && c[k] !in r ==>
            |r| == max && forall i :: 0 <= i < |r| ==> FirstIndex(c, r[i]) < FirstIndex(c, c[k]))
  {
    DedupLongOrder(c);
    TakeKeepsOrder(c, max);
    DedupLongMembers(c);
    TakeLeavesOutOnlyLater(c, Dedup(LongOnly(c)), max);
  }

  lemma {:induction false} TakeKeepsOrder(c: seq<string>, max: int)
    requires forall i, j :: 0 <= i < j < |Dedup(LongOnly(c))| ==>
               FirstIndex(c, Dedup(LongOnly(c))[i]) < FirstIndex(c, Dedup(LongOnly(c))[j])
    ensures var r := Take(Dedup(LongOnly(c)), max);
      && Distinct(r)
      && (forall i :: 0 <= i < |r| ==> |r[i]| > 1 && r[i] in c)
      && (forall i, j :: 0 <= i < j < |r| ==> FirstIndex(c, r[i]) < FirstIndex(c, r[j]))
  {
    var d := Dedup(LongOnly(c));
    var r := Take(d, max);
    assert forall i :: 0 <= i < |r| ==> r[i] == d[i];
  }

  /** A long candidate missing from the cut list was cut off by the limit,
      after every element kept. Stated for any `d` that holds exactly the
      long candidates of `c`, ordered by first occurrence. */
  lemma {:induction false} TakeLeavesOutOnlyLater(c: seq<string>, d: seq<string>, max: int)
    requires forall i :: 0 <= i < |d| ==> d[i] in c
    requires forall k :: 0 <= k < |c| && |c[k]| > 1 ==> c[k] in d
    requires forall i, j :: 0 <= i < j < |d| ==> FirstIndex(c, d[i]) < FirstIndex(c, d[j])
    ensures var r := Take(d, max);
      forall k :: 0 <= max && 0 <= k < |c| && |c[k]| > 1 && c[k] !in r ==>
        |r| == max && forall i :: 0 <= i < |r| ==> FirstIndex(c, r[i]) < FirstIndex(c, c[k])
  {
    var r := Take(d, max);
    forall k | 0 <= max && 0 <= k < |c| && |c[k]| > 1 && c[k] !in r
      ensures |r| == max && forall i :: 0 <= i < |r| ==> FirstIndex(c, r[i]) < FirstIndex(c, c[k])
    {
      TakeMissingIsLater(c, d, max, c[k]);
    }
  }

  /** The de-duplicated long candidates are exactly the candidates longer
      than one character. */
  lemma {:induction false} DedupLongMembers(c: seq<string>)
    ensures forall i :: 0 <= i < |Dedup(LongOnly(c))| ==> Dedup(LongOnly(c))[i] in c
    ensures forall k :: 0 <= k < |c| && |c[k]| > 1 ==> c[k] in Dedup(LongOnly(c))
  {
    var l := LongOnly(c);
    var d := Dedup(l);
    forall k | 0 <= k < |c| && |c[k]| > 1
      ensures c[k] in d
    {
      var q :| 0 <= q < |l| && l[q] == c[k];
    }
  }

  /** An element of `d` missing from a non-negative cut of `d` lies beyond
      the cut, so with `d` ordered by first occurrence in `c` it occurs
      in `c` after every element kept. */
  lemma {:induction false} TakeMissingIsLater(c: seq<string>, d: seq<string>, max: int, x: string)
    requires forall i :: 0 <= i < |d| ==> d[i] in c
    requires forall i, j :: 0 <= i < j < |d| ==> FirstIndex(c, d[i]) < FirstIndex(c, d[j])
    requires 0 <= max && x in d && x !in Take(d, max)
    ensures var r := Take(d, max);
      |r| == max && forall i :: 0 <= i < |r| ==> FirstIndex(c, r[i]) < FirstIndex(c, x)
  {
    var r := Take(d, max);
    var p :| 0 <= p < |d| && d[p] == x;
    assert forall i :: 0 <= i < |r| ==> r[i] == d[i];
    assert p >= |r|;
  }

  /** `extract_keywords`: nothing for empty text; otherwise the selection
      over the dictionary terms followed by the filtered tokens. */
  function ExtractKeywords(text: string, maxKeywords: int): (r: seq<string>)
    ensures text == [] ==> r == []
    ensures 0 <= maxKeywords ==> |r| <= maxKeywords
    ensures forall i :: 0 <= i < |r| ==> |r[i]| > 1 && (r[i] in ExtractTechTerms(text) || r[i] in FilteredTokens(text))
  {
    if text == [] then [] else SelectKeywords(ExtractTechTerms(text), FilteredTokens(text), maxKeywords)
  }

  // ---------------------------------------------------------------------
  // extract_keywords_with_weights
  // ---------------------------------------------------------------------

  /** A keyword with its term frequency as the exact ratio
      `frequency / total`. */
  datatype Weighted = Weighted(term: string, frequency: nat, total: nat)

  /** Among entries with distinct keys, ranking is strict: equal counts are
      told apart by distinct first indices. */
  lemma {:induction false} DistinctRankedIsStrict<T>(xs: seq<T>, r: seq<Counted<T>>)
    requires Ranked(r) && Distinct(Keys(r))
    requires forall i :: 0 <= i < |r| ==> r[i].key in xs && r[i] == EntryFor(xs, r[i].key)
    ensures forall i, j :: 0 <= i < j < |r| ==>
              r[i].count > r[j].count || (r[i].count == r[j].count && r[i].first < r[j].first)
  {
    forall i, j | 0 <= i < j < |r|
      ensures r[i].count > r[j].count || (r[i].count == r[j].count && r[i].first < r[j].first)
    {
      assert xs[r[i].first] == r[i].key && xs[r[j].first] == r[j].key;
      assert Keys(r)[i] != Keys(r)[j];
    }
  }

  /** The weighting step on the filtered words: the `n` most frequent
      words, each once with its count among all `|words|` words, by count
      descending and, among equal counts, by first occurrence; a word is
      left out only when the limit is reached and then it ranks no higher
      than the last one kept. */
  function WeighTerms(words: seq<string>, n: int): (r: seq<Weighted>)
    ensures n <= 0 ==> r == []
    ensures 0 < n ==> |r| == Min(n, |Dedup(words)|)
    ensures forall i :: 0 <= i < |r| ==>
              && r[i].term in words
              && r[i].frequency == Count(words, r[i].term)
              && r[i].total == |words|
              && 0 < r[i].frequency <= r[i].total
    ensures forall i, j :: 0 <= i < j < |r| ==>
              || r[i].frequency > r[j].frequency
              || (r[i].frequency == r[j].frequency && FirstIndex(words, r[i].term) < FirstIndex(words, r[j].term))
    ensures forall k :: 0 < n && 0 <= k < |words| && (forall i :: 0 <= i < |r| ==> r[i].term != words[k]) ==>
              (|r| == n && RanksBefore(EntryFor(words, r[n - 1].term), EntryFor(words, words[k])))
  {
    var top := MostCommon(words, n);
    DistinctRankedIsStrict(words, top);
    var r := Weigh(top, |words|);
    WeighBounds(words, top);
    WeighLeavesOut(words, top);
    r
  }

  /** Each counter entry as a weighted term out of `total`. */
  function Weigh(top: seq<Counted<string>>, total: nat): (r: seq<Weighted>)
    ensures |r| == |top|
    ensures forall i :: 0 <= i < |r| ==> r[i] == Weighted(top[i].key, top[i].count, total)
  {
    seq(|top|, i requires 0 <= i < |top| => Weighted(top[i].key, top[i].count, total))
  }

  lemma {:induction false} WeighBounds(words: seq<string>, top: seq<Counted<string>>)
    requires forall i :: 0 <= i < |top| ==> top[i].key in words && top[i] == EntryFor(words, top[i].key)
    ensures forall i :: 0 <= i < |top| ==> 0 < top[i].count <= |words|
  {
    forall i | 0 <= i < |top|
      ensures 0 < top[i].count <= |words|
    {
      CountPositive(words, top[i].key);
      CountAtMost(words, top[i].key);
    }
  }

  lemma {:induction false} WeighLeavesOut(words: seq<string>, top: seq<Counted<string>>)
    ensures forall k :: 0 <= k < |words| && (forall i :: 0 <= i < |top| ==> Weigh(top, |words|)[i].term != words[k]) ==>
              words[k] !in Keys(top)
  {
    var r := Weigh(top, |words|);
    assert forall i :: 0 <= i < |top| ==> r[i].term == Keys(top)[i];
  }

  /** `extract_keywords_with_weights`: nothing for empty text or when no
      word survives filtering; otherwise the weighting of the filtered
      tokens. */
  function ExtractKeywordsWithWeights(text: string, maxKeywords: int): (r: seq<Weighted>)
    ensures text == [] || FilteredTokens(text) == [] || maxKeywords <= 0 ==> r == []
    ensures forall i :: 0 <= i < |r| ==> r[i].term in FilteredTokens(text) && Keep(r[i].term)
  {
    if text == [] then []
    else
      var words := FilteredTokens(text);
      if words == [] then [] else WeighTerms(words, maxKeywords)
  }

  // ---------------------------------------------------------------------
  // extract_phrases
  // ---------------------------------------------------------------------

  /** Each pair of neighbouring words, joined by one space. */
  function Bigrams(ws: seq<string>): seq<string>
  {
    if |ws| < 2 then []
    else seq(|ws| - 1, i requires 0 <= i < |ws| - 1 => ws[i] + " " + ws[i + 1])
  }

  /** Each run of three neighbouring words, joined by single spaces. */
  function Trigrams(ws: seq<string>): seq<string>
  {
    if |ws| < 3 then []
    else seq(|ws| - 2, i requires 0 <= i < |ws| - 2 => ws[i] + " " + ws[i + 1] + " " + ws[i + 2])
  }

  /** All phrase candidates: every two-word phrase, then every three-word
      phrase. */
  function PhraseCandidates(ws: seq<string>): seq<string>
  {
    Bigrams(ws) + Trigrams(ws)
  }

  lemma {:induction false} NoSpaceInRun(w: string)
    requires IsRun(w)
    ensures Count(w, ' ') == 0
  {
    assert ClassOf(' ') == Other;
    CountPositive(w, ' ');
  }

  /** Joining space-free words: a two-word phrase holds exactly one space
      and a three-word phrase exactly two, so no two-word phrase is ever
      counted as a three-word one or the other way round. */
  lemma {:induction false} PhraseKindsDisjoint(ws: seq<string>)
    requires forall i :: 0 <= i < |ws| ==> Count(ws[i], ' ') == 0
    ensures forall i :: 0 <= i < |Bigrams(ws)| ==> Count(Bigrams(ws)[i], ' ') == 1
    ensures forall i :: 0 <= i < |Trigrams(ws)| ==> Count(Trigrams(ws)[i], ' ') == 2
    ensures forall i, j :: 0 <= i < |Bigrams(ws)| && 0 <= j < |Trigrams(ws)| ==> Bigrams(ws)[i] != Trigrams(ws)[j]
  {
    var bs := Bigrams(ws);
    var ts := Trigrams(ws);
    assert forall i :: 0 <= i < |bs| ==> Count(bs[i], ' ') == 1 by {
      forall i | 0 <= i < |bs|
        ensures Count(bs[i], ' ') == 1
      {
        JoinSpaces(ws[i], ws[i + 1]);
      }
    }
    assert forall i :: 0 <= i < |ts| ==> Count(ts[i], ' ') == 2 by {
      forall i | 0 <= i < |ts|
        ensures Count(ts[i], ' ') == 2
      {
        JoinSpaces(ws[i], ws[i + 1]);
        JoinSpaces(ws[i] + " " + ws[i + 1], ws[i + 2]);
      }
    }
  }

  /** Joining two strings with one space adds exactly one space. */
  lemma {:induction false} JoinSpaces(a: string, b: string)
    ensures Count(a + " " + b, ' ') == Count(a, ' ') + 1 + Count(b, ' ')
  {
    assert Count(" ", ' ') == 1;
    CountAppend(a + " ", b, ' ');
    CountAppend(a, " ", ' ');
  }

  /** The phrases of the filtered tokens: every two-word phrase comes
      before every three-word phrase, and the two kinds never coincide. */
  lemma {:induction false} FilteredPhraseKinds(text: string)
    ensures var ws := FilteredTokens(text);
      && PhraseCandidates(ws)[..|Bigrams(ws)|] == Bigrams(ws)
      && PhraseCandidates(ws)[|Bigrams(ws)|..] == Trigrams(ws)
      && |Bigrams(ws)| == (if |ws| < 2 then 0 else |ws| - 1)
      && |Trigrams(ws)| == (if |ws| < 3 then 0 else |ws| - 2)
      && forall i, j :: 0 <= i < |Bigrams(ws)| && 0 <= j < |Trigrams(ws)| ==> Bigrams(ws)[i] != Trigrams(ws)[j]
  {
    var ws := FilteredTokens(text);
    forall i | 0 <= i < |ws|
      ensures Count(ws[i], ' ') == 0
    {
      NoSpaceInRun(ws[i]);
    }
    PhraseKindsDisjoint(ws);
  }

  /** The phrase-ranking step: the `n` most frequent phrases among
      `phrases`, each once, by count descending and, among equal counts,
      by first occurrence; a phrase is left out only when the limit is
      reached and then it ranks no higher than the last one kept. */
  function TopPhrases(phrases: seq<string>, n: int): (r: seq<string>)
    ensures n <= 0 ==> r == []
    ensures 0 < n ==> |r| == Min(n, |Dedup(phrases)|)
    ensures Distinct(r)
    ensures forall i :: 0 <= i < |r| ==> r[i] in phrases
    ensures forall i, j :: 0 <= i < j < |r| ==>
              || Count(phrases, r[i]) > Count(phrases, r[j])
              || (Count(phrases, r[i]) == Count(phrases, r[j]) && FirstIndex(phrases, r[i]) < FirstIndex(phrases, r[j]))
    ensures forall k :: 0 < n && 0 <= k < |phrases| && phrases[k] !in r ==>
              (|r| == n && RanksBefore(EntryFor(phrases, r[n - 1]), EntryFor(phrases, phrases[k])))
  {
    var top := MostCommon(phrases, n);
    DistinctRankedIsStrict(phrases, top);
    Keys(top)
  }

  /** `extract_phrases`: nothing for empty text; otherwise the ranking of
      the two- and three-word phrases of the filtered tokens. */
  function ExtractPhrases(text: string, maxPhrases: int): (r: seq<string>)
    ensures text == [] || maxPhrases <= 0 ==> r == []
    ensures forall i :: 0 <= i < |r| ==> r[i] in PhraseCandidates(FilteredTokens(text))
  {
    if text == [] then [] else TopPhrases(PhraseCandidates(FilteredTokens(text)), maxPhrases)
  }

  /** Fewer than two filtered words yield no phrase. */
  lemma {:induction false} NoPhrasesFromOneWord(text: string, maxPhrases: int)
    requires |FilteredTokens(text)| < 2
    ensures ExtractPhrases(text, maxPhrases) == []
  {
    assert PhraseCandidates(FilteredTokens(text)) == [];
    assert Dedup(PhraseCandidates(FilteredTokens(text))) == [];
  }
}
