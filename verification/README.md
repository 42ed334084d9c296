# Metacognitive learning flow — a Dafny model

This project models the decision logic of a metacognitive learning assistant's
backend, in three services and their enumerations.

- **Flow engine.** A learner works through a problem in a session. The engine
  takes self-assessments of two kinds:
  - a Judgment of Learning (JOL): how well the learner expects to recall the material;
  - a Feeling of Knowing (FOK): how well the learner feels they understand it.

  Each assessment is scored (4 down to 1) and compared with the session's
  expected mastery, which decides the next step: learning completed, or
  difficulty assessment. The confidence, time-allocation and obstacle answers
  each lead to a fixed next step. Choosing a cognitive-map edge replaces the
  session's sub-task batch and moves it to expectation setting.
- **Sub-task generator.** It turns an edge's relationship label and its two
  concept names into a three-step plan with a fixed mastery pattern. A second
  mode classifies a problem statement by keyword into programming, mathematics,
  language or general, and returns that domain's fixed plan.
- **Keyword extractor.** This is a string pipeline:
  - a technical-term dictionary scan;
  - text cleaning;
  - tokenisation into letter, ideograph and digit runs, with long ideograph runs cut into pairs;
  - stop-word filtering;
  - order-preserving de-duplication and truncation.

  Two variants rank by frequency: term-frequency weights and frequent two- and
  three-word phrases.

The database becomes an immutable store `map<SessionId, Session>`. Each
`process_*` operation becomes a pure function
`Store × id × input → Result<(Store, next step)>`.
- A missing session id is an error that writes nothing.
- A truthy expected-mastery value that is not a mastery label is an error. The
  source raises there; it does not fall back to the default.
- No operation looks at the session's current step.

Some JOL and FOK data is lost, and the model keeps this behaviour as the source
has it. The engine writes the label and score into `session.session_data or {}`.
The comparator then evaluates the same expression a second time. When the stored
data is empty, each evaluation yields a fresh dictionary, so the comparator's
`comparison_result` lands in a dictionary that is thrown away. When the stored
data is non-empty, both evaluations share the stored dictionary and the verdict
is persisted. `FlowEngine.AssessmentOutcome` states exactly this.

Modules, one file each:
- `Wrappers`: `Option`, `Result`.
- `Seqs`: flattening, counting, first occurrences, de-duplication, Python slicing, substring search.
- `Text`: character classes and ASCII lower-casing.
- `Schemas`: the six enumerations with their stored labels, and the sub-task record.
- `SubtaskGenerator`, `FlowEngine`.
- `KeywordText`: cleaning and tokenising.
- `Ranking`: `Counter.most_common`.
- `KeywordExtractor`.

A concrete reading of the dictionary: take the text
我想学习Python数据分析，包括pandas库的使用. The dictionary at
`backend/services/keyword_extractor.py:65-79` has no entry for Python or
pandas, and none of its synonyms occurs in that text:
- "ai", "nn", "dl", "ml", "nlp" and "gpt" do not occur in the lower-cased text;
- none of the ideograph synonyms occurs either.

So the result holds no dictionary concept and begins with the tokens 我想学习,
python, 数据分析, 包括, pandas.

## Model

| member | source | states |
|---|---|---|
| Schemas.ParseMastery | backend/models/schemas.py:14-16 | Converting a string to a mastery level succeeds only on that level's stored label. |
| Schemas.ParseMasteryRoundTrip | backend/models/schemas.py:14-16 | Each level's label converts back to that level. A string fails to convert exactly when it is neither of the two labels. |
| FlowEngine.ScoresFollowLevelOrder | backend/services/flow_engine.py:13-25 | JOL and FOK scores are 4, 3, 2, 1 from the strongest level down, strictly decreasing. |
| FlowEngine.ExpectedScore | backend/services/flow_engine.py:119-126 | Absent or falsy expectation gives the default 2. A mastery label gives its level's score (4 or 2). The result is an error exactly when the value is truthy and not a mastery label. |
| FlowEngine.CompareWithExpectation | backend/services/flow_engine.py:112-136 | An error exactly when the expectation is invalid. Otherwise the next step is learning completed iff actual ≥ expected (ties succeed), else difficulty assessment. The verdict key is added with the matching label and every other key is kept. |
| FlowEngine.ProcessAssessment | backend/services/flow_engine.py:32-110 | A missing session fails. Otherwise it fails exactly when the expectation is invalid. On success, the next step follows the score comparison, and only session `id` changes: step and data. Its data becomes the stored data plus label, score and (only when the stored data was non-empty) the verdict. |
| FlowEngine.AssessmentOutcome | backend/services/flow_engine.py:52-136 | After a JOL or FOK, the data holds the label and score and keeps every other earlier entry. It holds `comparison_result` exactly when the data was non-empty before. |
| FlowEngine.ProcessJol | backend/services/flow_engine.py:32-70 | Missing session fails. On success, the step is learning completed iff the JOL score reaches the expected score. `jol_assessment` and `jol_score` are recorded. |
| FlowEngine.JolVerdict | backend/services/flow_engine.py:32-70 | With a readable expectation, a JOL always succeeds. The next step is learning completed when the score reaches the expected score, and difficulty assessment otherwise. |
| FlowEngine.ProcessFok | backend/services/flow_engine.py:72-110 | Missing session fails. On success, the step is learning completed iff the FOK score reaches the expected score. `fok_assessment` and `fok_score` are recorded. |
| FlowEngine.StoredStepIdentifiesNext | backend/services/flow_engine.py:59-68 | After a commit, the stored step name names the chosen next step and no other step. |
| FlowEngine.Advance | backend/services/flow_engine.py:151-156 | Fails exactly for a missing session. Otherwise it commits the given writes and step to that session alone. |
| FlowEngine.ProcessConfidence | backend/services/flow_engine.py:138-177 | Each confidence level has its own next step, in both directions: confident gives time allocation, with-materials gives external guidance, no-materials gives task switching. The answer's label is recorded. |
| FlowEngine.ProcessTimeAllocation | backend/services/flow_engine.py:179-221 | The next step is always learning in progress. The label and the allocated minutes are recorded. |
| FlowEngine.AllocatedMinutesTable | backend/services/flow_engine.py:200-207 | 20min, 30min, 1h and longer allocate 20, 30, 60 and 120 minutes. |
| FlowEngine.ProcessObstacle | backend/services/flow_engine.py:223-259 | The next step is difficulty assessment iff there is an obstacle, and strategy selection iff there is none. `has_obstacle` is recorded. |
| FlowEngine.GenerateSubtasksFromEdge | backend/services/flow_engine.py:261-318 | Missing session fails. Otherwise the batch is the generator's three-step plan for the edge, with the family's pattern. It entirely replaces the session's sub-tasks, and the step becomes expectation setting. The data and other sessions are unchanged. |
| FlowEngine.ScenarioJolDefaultExpectation | backend/services/flow_engine.py:122-132 | "Mostly remember" with no expectation completes the learning (3 ≥ 2). |
| FlowEngine.ScenarioJolBelowExpectation | backend/services/flow_engine.py:122-136 | "Barely remember" against an expected semantic derivation goes to difficulty assessment (2 < 4). |
| FlowEngine.ScenarioChildEdge | backend/services/flow_engine.py:282-314 | A downward edge yields the intuitive/semantic/semantic plan and expectation setting. |
| SubtaskGenerator.GenerateSubtasks | backend/services/subtask_generator.py:13-130 | Every label and name pair yields exactly three steps ordered 1, 2, 3, with the mastery pattern of the label's family. |
| SubtaskGenerator.RelationshipDispatch | backend/services/subtask_generator.py:31-38 | The child, parent and sibling labels select their own families. A label falls to the related family exactly when it is none of 下级, 上级, 并列, and 相关 is one such label. |
| SubtaskGenerator.GenerateIgnoresContext | backend/services/subtask_generator.py:31-38 | The problem context never influences the plan. |
| SubtaskGenerator.PlansMentionConcepts | backend/services/subtask_generator.py:40-130 | Each step names its concepts. The related family's last step is the constant 建立知识网络, and its description names both concepts. |
| SubtaskGenerator.AnalyzeProblemTypePriority | backend/services/subtask_generator.py:154-165 | A domain is chosen exactly when one of its keywords occurs in the lower-cased statement and no keyword of a higher-priority domain does. |
| SubtaskGenerator.GenerateContextualSubtasks | backend/services/subtask_generator.py:132-257 | Always three steps ordered 1, 2, 3. The mathematics plan is all semantic; the others are intuitive, semantic, semantic. |
| SubtaskGenerator.ContextualIgnoresPath | backend/services/subtask_generator.py:142-152 | Calls that differ only in the selected path give the same plan. |
| Seqs.Dedup | backend/services/keyword_extractor.py:50-56 | The result has no repeats and holds exactly the elements of the input. They appear in increasing order of first occurrence. |
| Seqs.Take | backend/services/keyword_extractor.py:58 | Python's prefix slice, negative bound included: the length is as Python computes it, and the result is a prefix. |
| Text.LowerAscii | backend/services/keyword_extractor.py:81-97 | Same length. Every character is case-mapped individually, ASCII capitals to lower case and all else unchanged. |
| KeywordText.SkipSpaces | backend/services/keyword_extractor.py:97 | A suffix with only whitespace removed before it, and it does not start with whitespace. |
| KeywordText.StripTrailing | backend/services/keyword_extractor.py:97 | A prefix with only whitespace removed after it, and it does not end with whitespace. |
| KeywordText.CollapseSpacesShape | backend/services/keyword_extractor.py:96 | Collapsing whitespace leaves word characters and single spaces, never two spaces in a row. It starts with a space exactly when the input starts with whitespace. |
| KeywordText.CollapseSpacesSeparator | backend/services/keyword_extractor.py:96 | One whitespace character between two non-whitespace characters becomes exactly one space, and each side is collapsed on its own. |
| KeywordText.CleanShape | backend/services/keyword_extractor.py:91-97 | Cleaned text holds only ideographs U+4E00–U+9FA5, lower-case ASCII letters, ASCII digits and single interior spaces. It has no space at either end. |
| KeywordText.CleanKeepsWordChars | backend/services/keyword_extractor.py:91-97 | Cleaned text minus its spaces is exactly the input's word characters, lower-cased, in order. |
| KeywordText.CleanSeparatorRun | backend/services/keyword_extractor.py:91-97 | Any non-empty run of disallowed or whitespace characters between two word characters, such as a comma and a space, becomes one space: the cleaned text is the cleaned left side, one space, and the cleaned right side. |
| KeywordText.CleanSeparator | backend/services/keyword_extractor.py:91-97 | The same for a separator of one character. |
| KeywordText.CleanCommaSpace | backend/services/keyword_extractor.py:91-97 | Two lower-case words joined by a comma and a space are cleaned to the two words joined by one space. |
| KeywordText.CleanWordOnly | backend/services/keyword_extractor.py:91-97 | Text made only of word characters is just lower-cased. |
| KeywordText.CleanOfCleaned | backend/services/keyword_extractor.py:91-97 | Cleaning leaves already-cleaned text unchanged. |
| KeywordText.CleanIdempotent | backend/services/keyword_extractor.py:91-97 | Cleaning twice is the same as cleaning once. |
| KeywordText.TokenizeCleanSeparatorRun | backend/services/keyword_extractor.py:91-124 | The tokens of cleaned text split at a run of separators between two word characters are the tokens of each cleaned side, in order. |
| KeywordText.TokenizeCleanSeparator | backend/services/keyword_extractor.py:91-124 | The same for a separator of one character. |
| KeywordText.RunLength | backend/services/keyword_extractor.py:106 | The length of the maximal prefix of one character class: every character in it has the class and the next one does not. |
| KeywordText.Runs | backend/services/keyword_extractor.py:106 | Every match is a non-empty run of one class. Together the matches spell out exactly the matchable characters of the text, in order. |
| KeywordText.RunsSkipOther | backend/services/keyword_extractor.py:106 | A character outside the pattern's classes starts no match and is skipped. |
| KeywordText.RunsTakeWhole | backend/services/keyword_extractor.py:106 | A run followed by a character of another class, or by nothing, is one whole match: matching is maximal. |
| KeywordText.RunsSplitAtOther | backend/services/keyword_extractor.py:106 | A character outside the classes splits the text: the matches are those of the left part followed by those of the right part. |
| KeywordText.Pairs | backend/services/keyword_extractor.py:114-119 | ⌈n/2⌉ chunks, all of length 2 except the last, which has length 1 when n is odd. |
| KeywordText.PairsSlices | backend/services/keyword_extractor.py:114-119 | Chunk i is the slice of the run starting at 2·i. |
| KeywordText.PairsFlatten | backend/services/keyword_extractor.py:114-119 | The chunks concatenate back to the run. |
| KeywordText.ChunkRun | backend/services/keyword_extractor.py:109-119 | A run of up to 4 stays one token. A longer run becomes chunks of length 1–2, and the chunks concatenate back to the run. |
| KeywordText.ChunkFive | backend/services/keyword_extractor.py:114-119 | A 5-ideograph run is cut 2, 2, 1. |
| KeywordText.ChunkRunPieces | backend/services/keyword_extractor.py:109-119 | Every chunk of a run is a run of the same class, at most 4 long. |
| KeywordText.TokensOfRunsProps | backend/services/keyword_extractor.py:108-124 | Every token is a single-class run, and ideograph tokens are at most 4 long. The tokens concatenate to the runs. |
| KeywordText.TokenizeProps | backend/services/keyword_extractor.py:99-124 | Every token is a single-class run, and ideograph tokens are at most 4 long. The tokens spell out the matchable characters of the text in order. |
| KeywordText.RunTokensOfRun | backend/services/keyword_extractor.py:108-122 | An ideograph run gives its chunks. Any other run is one token. |
| KeywordText.TokenizeTakeWhole | backend/services/keyword_extractor.py:99-124 | A whole run followed by a class change gives that run's tokens, then the tokens of the rest. |
| KeywordText.TokenizeWord | backend/services/keyword_extractor.py:99-124 | A single letter or digit run is exactly one token. |
| KeywordText.TokenizeSplitAtOther | backend/services/keyword_extractor.py:99-124 | Tokenising splits at any character outside the classes: the tokens of the left part, then those of the right part. |
| Ranking.Insert | backend/services/keyword_extractor.py:173 | Inserting into a ranked list keeps it ranked and adds exactly that element (as a multiset). |
| Ranking.Sort | backend/services/keyword_extractor.py:173 | The result is a ranked permutation: count descending, then first occurrence. |
| Ranking.PermutedTally | backend/services/keyword_extractor.py:168 | Any ordering of the counter holds each key once, with its true count and first index, and covers every element. |
| Ranking.RankedPrefix | backend/services/keyword_extractor.py:173 | The kept prefix of the ranked counter is ranked and distinct. Any key left out ranks no higher than the last one kept. |
| Ranking.MostCommon | backend/services/keyword_extractor.py:168-173 | Returns min(n, distinct keys) entries, or none for n ≤ 0, each with its true count and first index, ranked, keys distinct. A key is missing only when n entries were taken, and then it ranks no higher than the last. |
| KeywordExtractor.TechTermsIn | backend/services/keyword_extractor.py:83-89 | A subsequence of the concepts in dictionary order, without repeats. A concept appears exactly when some synonym, lower-cased, occurs in the lower-cased text. |
| KeywordExtractor.TechConceptsDistinct | backend/services/keyword_extractor.py:65-79 | The dictionary's 13 concepts are distinct. |
| KeywordExtractor.ExtractTechTerms | backend/services/keyword_extractor.py:60-89 | Each dictionary concept at most once, in dictionary order. A concept is present iff one of its synonyms occurs in the text, ignoring case. |
| KeywordExtractor.FilterWords | backend/services/keyword_extractor.py:134-153 | The result is a subsequence of the words, and every word in it passes the filter. Each word occurs as often as in the input if kept, else not at all. A word passes when it is not empty, not one non-ideograph character, not a stop word and not all digits. |
| KeywordExtractor.FilteredTokens | backend/services/keyword_extractor.py:160-162 | Every filtered token passes the filter and is a single-class run. |
| KeywordExtractor.LongOnly | backend/services/keyword_extractor.py:54 | Exactly the candidates longer than one character survive. |
| KeywordExtractor.LongOnlyOrder | backend/services/keyword_extractor.py:53-56 | Dropping short candidates keeps the relative order of first occurrences of the long ones. |
| KeywordExtractor.SelectKeywords | backend/services/keyword_extractor.py:48-58 | A prefix of the distinct long candidates in first-occurrence order. For max ≥ 0 it has at most max items; for a negative max the last -max of them are dropped, as Python's slice does. Items are without repeats, each longer than one character and taken from the candidates. Items are in first-occurrence order, with dictionary terms before token words. For max ≥ 0, a long candidate is missing only when the limit was reached, and then it occurs after every item kept. |
| KeywordExtractor.ExtractKeywords | backend/services/keyword_extractor.py:30-58 | Empty text gives nothing. For max ≥ 0, at most max items; each longer than one character, each a dictionary term or a filtered token. |
| KeywordExtractor.DistinctRankedIsStrict | backend/services/keyword_extractor.py:173 | Among distinct keys the ranking is strict: equal counts are ordered by strictly earlier first occurrence. |
| KeywordExtractor.WeighTerms | backend/services/keyword_extractor.py:167-177 | min(n, distinct words) terms, or none for n ≤ 0, each with its count out of the number of filtered words (0 < count ≤ total). Counts are non-increasing, with ties in first-seen order. A missing word ranks no higher than the last kept. |
| KeywordExtractor.ExtractKeywordsWithWeights | backend/services/keyword_extractor.py:155-166 | Empty text, no surviving word, or a limit ≤ 0 gives nothing. Every term is a filtered token that passes the filter. |
| KeywordExtractor.PhraseKindsDisjoint | backend/services/keyword_extractor.py:191-199 | With space-free words, two-word phrases hold one space and three-word phrases two, so no two-word phrase equals a three-word one. |
| KeywordExtractor.FilteredPhraseKinds | backend/services/keyword_extractor.py:189-199 | The candidates are all (n−1) two-word phrases followed by all (n−2) three-word phrases of the filtered tokens. The two kinds never coincide. |
| KeywordExtractor.TopPhrases | backend/services/keyword_extractor.py:201-203 | At most n phrases (none for n ≤ 0), without repeats, ordered by count descending with ties in first-seen order. A missing phrase ranks no higher than the last kept. |
| KeywordExtractor.ExtractPhrases | backend/services/keyword_extractor.py:179-203 | Empty text or a limit ≤ 0 gives nothing. Every phrase is a candidate of the filtered tokens. |
| KeywordExtractor.NoPhrasesFromOneWord | backend/services/keyword_extractor.py:191-203 | Fewer than two filtered words give no phrase. |

## Left out

- Database access, `async`, and the two separate commits of `generate_subtasks_from_edge` are not modelled: the store is an immutable map and each operation is one atomic step. Concurrent writes to the same session are out of scope.
- HTTP routers, knowledge-card search, frontend code and the development and test scripts contain no decision logic of the core.
- Pydantic and ORM definitions are not modelled: only the enumerations and the sub-task record are kept, as datatypes.
- The session's `session_data` value type is not modelled in full: it is a small JSON-like value with strings, integers, booleans, null and lists. A stored NULL and an empty dictionary are both the empty map, since the engine treats them alike. Floats and nested objects are not modelled.
- KeywordExtractor.WeighTerms: a weight is the exact pair (frequency, total) rather than the float `frequency / total`.
- Text.LowerAscii: Python's full Unicode `str.lower()` is replaced by ASCII case mapping. After cleaning, only ASCII letters remain, so the cleaned pipeline is exact. The dictionary scan and the domain classifier differ only on the two non-ASCII characters that lower-case to ASCII: U+212A KELVIN SIGN and U+0130.
- KeywordExtractor.IsDigits: `str.isdigit()` is ASCII-only here. This is exact for tokens, which hold ASCII digits or ideographs U+4E00–U+9FA5 (none of them digits); it differs for other Unicode digits passed straight to the filter.
- KeywordExtractor.ExtractKeywords: its own contract gives emptiness, the bound and where items come from. Order, distinctness, dictionary terms first, and the cut-off are stated on SelectKeywords, which it returns for non-empty text.
- KeywordExtractor.ExtractKeywordsWithWeights: the ranking, counts and limit are stated on WeighTerms, which it returns when text and filtered words are non-empty.
- KeywordExtractor.ExtractPhrases: the ranking and limit are stated on TopPhrases, which it returns for non-empty text.
- The text 我想学习Python数据分析，包括pandas库的使用 is not evaluated concretely in the model. Evaluating the cleaning pipeline on a literal string is beyond what the verifier does cheaply, so the reading of it given above rests on the dictionary's contents.
