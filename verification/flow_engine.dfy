/** The metacognitive flow engine: each `process_*` operation of the
    backend as a pure function from an in-memory session store and an
    assessment to the updated store and the next step. */
module FlowEngine {
  import opened Wrappers
  import opened Schemas
  import opened SubtaskGenerator

  // ---------------------------------------------------------------------
  // Session store
  // ---------------------------------------------------------------------

  /** A JSON value as it sits in a session's `session_data` column. */
  datatype Value = VStr(s: string) | VInt(i: int) | VBool(b: bool) | VNull | VList(items: seq<Value>)

  /** Python truthiness of a stored value. */
  predicate Truthy(v: Value)
  {
    match v
    case VStr(s) => s != []
    case VInt(i) => i != 0
    case VBool(b) => b
    case VNull => false
    case VList(items) => items != []
  }

  /** The scratch ledger of one session; an absent (NULL) ledger and an
      empty one behave alike and are both the empty map. */
  type SessionData = map<string, Value>

  type SessionId = string

  /** One learning session; `currentStep` is free text because other
      writers may store any step name there. */
  datatype Session = Session(
    problemStatement: string,
    currentStep: string,
    selectedEdgeId: Option<string>,
    subTasks: seq<SubTask>,
    sessionData: SessionData)

  type Store = map<SessionId, Session>

  datatype FlowError =
    | SessionNotFound
      /** A truthy `expected_mastery_level` that is no mastery label. */
    | InvalidMasteryLevel(stored: Value)

  /** The steps the engine moves a session to. */
  datatype Step =
    | LearningCompleted
    | EolDifficultyAssessment
    | TimeAllocationStep
    | ExternalGuidance
    | TaskSwitching
    | LearningInProgress
    | StrategySelection
    | ExpectationSetting

  function StepName(s: Step): string
  {
    match s
    case LearningCompleted => "learning_completed"
    case EolDifficultyAssessment => "eol_difficulty_assessment"
    case TimeAllocationStep => "time_allocation"
    case ExternalGuidance => "external_guidance"
    case TaskSwitching => "task_switching"
    case LearningInProgress => "learning_in_progress"
    case StrategySelection => "strategy_selection"
    case ExpectationSetting => "expectation_setting"
  }

  /** Distinct steps are stored under distinct names, so the stored step
      name determines the step. */
  lemma {:induction false} StepNameInjective(a: Step, b: Step)
    ensures StepName(a) == StepName(b) ==> a == b
  {
  }

  /** The session `id` was replaced by `store[id]` with step `next` and the
      entries `writes` merged into its data; every other session and every
      other field is unchanged. */
  ghost predicate Committed(store: Store, store': Store, id: SessionId, next: Step, writes: SessionData)
  {
    && id in store
    && store'.Keys == store.Keys
    && (forall k :: k in store && k != id ==> store'[k] == store[k])
    && store'[id] == store[id].(currentStep := StepName(next), sessionData := store[id].sessionData + writes)
  }

  /** After a commit, the step name stored in the session identifies the
      step the engine chose: reading it back gives `next` and no other. */
  lemma {:induction false} StoredStepIdentifiesNext(store: Store, store': Store, id: SessionId, next: Step, writes: SessionData, s: Step)
    requires Committed(store, store', id, next, writes)
    ensures store'[id].currentStep == StepName(s) <==> s == next
  {
    StepNameInjective(s, next);
  }

  // ---------------------------------------------------------------------
  // Score tables
  // ---------------------------------------------------------------------

  function JolScore(l: JolLevel): int
  {
    match l
    case CompletelyRemember => 4
    case MostlyRemember => 3
    case BarelyRemember => 2
    case CannotRemember => 1
  }

  function FokScore(l: FokLevel): int
  {
    match l
    case MasterCompletely => 4
    case UnderstandWell => 3
    case UnderstandLittle => 2
    case CannotHandle => 1
  }

  function MasteryScore(m: MasteryLevel): int
  {
    match m
    case SemanticDerivation => 4
    case IntuitiveUnderstanding => 2
  }

  /** The levels from strongest to weakest, in declaration order. */
  const JolOrder: seq<JolLevel> := [CompletelyRemember, MostlyRemember, BarelyRemember, CannotRemember]
  const FokOrder: seq<FokLevel> := [MasterCompletely, UnderstandWell, UnderstandLittle, CannotHandle]

  /** A stronger self-assessment always scores strictly higher, and the
      scores are exactly 4, 3, 2, 1. */
  lemma {:induction false} ScoresFollowLevelOrder()
    ensures forall i, j :: 0 <= i < j < 4 ==> JolScore(JolOrder[i]) > JolScore(JolOrder[j])
    ensures forall i, j :: 0 <= i < j < 4 ==> FokScore(FokOrder[i]) > FokScore(FokOrder[j])
    ensures forall i :: 0 <= i < 4 ==> JolScore(JolOrder[i]) == 4 - i && FokScore(FokOrder[i]) == 4 - i
  {
  }

  // ---------------------------------------------------------------------
  // Expectation comparator
  // ---------------------------------------------------------------------

  const ExpectedKey := "expected_mastery_level"
  const ComparisonKey := "comparison_result"
  const DefaultExpectedScore := 2

  /** The expected score a session's data asks for: the default when the
      entry is missing or falsy, the level's score when it holds a mastery
      label, and an error for any other truthy value. */
  function ExpectedScore(data: SessionData): (r: Result<int, FlowError>)
    ensures ExpectedKey !in data || !Truthy(data[ExpectedKey]) ==> r == Ok(DefaultExpectedScore)
    ensures forall m :: ExpectedKey in data && data[ExpectedKey] == VStr(MasteryLabel(m)) ==> r == Ok(MasteryScore(m))
    ensures r.Err? <==> ExpectedKey in data && Truthy(data[ExpectedKey])
                        && data[ExpectedKey] != VStr(MasteryLabel(SemanticDerivation))
                        && data[ExpectedKey] != VStr(MasteryLabel(IntuitiveUnderstanding))
  {
    if ExpectedKey !in data || !Truthy(data[ExpectedKey]) then Ok(DefaultExpectedScore)
    else
      var v := data[ExpectedKey];
      ParseMasteryRoundTrip(SemanticDerivation, if v.VStr? then v.s else "");
      if v.VStr? && ParseMastery(v.s).Some? then Ok(MasteryScore(ParseMastery(v.s).value))
      else Err(InvalidMasteryLevel(v))
  }

  function ComparisonLabel(next: Step): string
  {
    if next == LearningCompleted then "above_expectation" else "below_expectation"
  }

  /** `_compare_with_expectation` on the dictionary it sees: ties succeed,
      and the verdict is written into that dictionary. */
  function CompareWithExpectation(view: SessionData, actual: int): (r: Result<(Step, SessionData), FlowError>)
    ensures r.Err? <==> ExpectedScore(view).Err?
    ensures r.Ok? ==> (r.value.0 == LearningCompleted <==> actual >= ExpectedScore(view).value)
    ensures r.Ok? ==> (r.value.0 == LearningCompleted || r.value.0 == EolDifficultyAssessment)
    ensures r.Ok? ==> r.value.1.Keys == view.Keys + {ComparisonKey}
    ensures r.Ok? ==> r.value.1[ComparisonKey] == VStr(if actual >= ExpectedScore(view).value then "above_expectation" else "below_expectation")
    ensures r.Ok? ==> r.value.1[ComparisonKey] == VStr(ComparisonLabel(r.value.0))
    ensures r.Ok? ==> forall k :: k in view && k != ComparisonKey ==> r.value.1[k] == view[k]
  {
    var expected :- ExpectedScore(view);
    var next := if actual >= expected then LearningCompleted else EolDifficultyAssessment;
    Ok((next, view[ComparisonKey := VStr(ComparisonLabel(next))]))
  }

  // ---------------------------------------------------------------------
  // JOL and FOK
  // ---------------------------------------------------------------------

  /** A scored self-assessment: a JOL or an FOK level. */
  datatype Assessment = Jol(jol: JolLevel) | Fok(fok: FokLevel)

  function LabelKey(a: Assessment): string
  {
    if a.Jol? then "jol_assessment" else "fok_assessment"
  }

  function ScoreKey(a: Assessment): string
  {
    if a.Jol? then "jol_score" else "fok_score"
  }

  function AssessmentLabel(a: Assessment): string
  {
    match a
    case Jol(l) => JolLabel(l)
    case Fok(l) => FokLabel(l)
  }

  function AssessmentScore(a: Assessment): int
  {
    match a
    case Jol(l) => JolScore(l)
    case Fok(l) => FokScore(l)
  }

  /** What a scored assessment adds to a session's data. */
  function AssessmentWrites(a: Assessment): SessionData
  {
    map[LabelKey(a) := VStr(AssessmentLabel(a)), ScoreKey(a) := VInt(AssessmentScore(a))]
  }

  /** `key` holds `v` in the data of session `id` of `store`. */
  ghost predicate Recorded(store: Store, id: SessionId, key: string, v: Value)
  {
    id in store && key in store[id].sessionData && store[id].sessionData[key] == v
  }

  /** `process_jol_assessment` / `process_fok_assessment`. The label and the
      score are written into `session.session_data or {}`; the comparator
      evaluates that expression again. When the stored data is non-empty
      both see the same dictionary and the verdict is persisted; when it is
      empty each gets its own fresh dictionary and the verdict is lost. */
  function ProcessAssessment(store: Store, id: SessionId, a: Assessment): (r: Result<(Store, Step), FlowError>)
    ensures id !in store ==> r == Err(SessionNotFound)
    ensures id in store ==> (r.Err? <==> ExpectedScore(store[id].sessionData).Err?)
    ensures r.Ok? ==>
      var s := store[id];
      var next := r.value.1;
      var expected := ExpectedScore(s.sessionData).value;
      && (next == LearningCompleted <==> AssessmentScore(a) >= expected)
      && (next != LearningCompleted ==> next == EolDifficultyAssessment)
      && Committed(store, r.value.0, id, next, AssessmentWrites(a) + VerdictWrites(s.sessionData, next))
  {
    if id !in store then Err(SessionNotFound)
    else
      var s := store[id];
      var stored := s.sessionData;
      var local := stored[LabelKey(a) := VStr(AssessmentLabel(a))][ScoreKey(a) := VInt(AssessmentScore(a))];
      var view := if |stored| > 0 then local else map[];
      AliasedViewFacts(stored, a);
      var compared := CompareWithExpectation(view, AssessmentScore(a));
      if compared.Err? then Err(compared.error)
      else
        var next := compared.value.0;
        var persisted := if |stored| > 0 then compared.value.1 else local;
        PersistedData(stored, a, next, local, compared.value.1, persisted);
        Ok((store[id := s.(currentStep := StepName(next), sessionData := persisted)], next))
  }

  /** The verdict entry that survives: written into the stored dictionary
      itself when it was non-empty, lost with a throwaway dictionary when
      it was empty. */
  function VerdictWrites(stored: SessionData, next: Step): SessionData
  {
    if |stored| > 0 then map[ComparisonKey := VStr(ComparisonLabel(next))] else map[]
  }

  lemma {:induction false} PersistedData(stored: SessionData, a: Assessment, next: Step, local: SessionData,
                      compared: SessionData, persisted: SessionData)
    requires local == stored + AssessmentWrites(a)
    requires |stored| > 0 ==> compared.Keys == local.Keys + {ComparisonKey}
    requires |stored| > 0 ==> compared[ComparisonKey] == VStr(ComparisonLabel(next))
    requires |stored| > 0 ==> forall k :: k in local && k != ComparisonKey ==> compared[k] == local[k]
    requires persisted == if |stored| > 0 then compared else local
    ensures persisted == stored + (AssessmentWrites(a) + VerdictWrites(stored, next))
  {
    AssessmentKeysDistinct(a);
    if |stored| > 0 {
      MergeThenSet(stored, AssessmentWrites(a), local, compared, ComparisonKey, VStr(ComparisonLabel(next)));
    } else {
      assert AssessmentWrites(a) + map[] == AssessmentWrites(a);
    }
  }

  /** Setting `key` after merging `w` is merging `w` plus that entry. */
  lemma {:induction false} MergeThenSet<K, V>(base: map<K, V>, w: map<K, V>, merged: map<K, V>, updated: map<K, V>, key: K, v: V)
    requires merged == base + w
    requires updated.Keys == merged.Keys + {key}
    requires updated[key] == v
    requires forall k :: k in merged && k != key ==> updated[k] == merged[k]
    ensures updated == base + (w + map[key := v])
  {
    var target := base + (w + map[key := v]);
    assert updated.Keys == target.Keys;
    forall k | k in updated
      ensures updated[k] == target[k]
    {
    }
  }

  /** The bookkeeping keys differ from the expectation and verdict keys. */
  lemma {:induction false} AssessmentKeysDistinct(a: Assessment)
    ensures LabelKey(a) != ScoreKey(a)
    ensures ExpectedKey != LabelKey(a) && ExpectedKey != ScoreKey(a)
    ensures ComparisonKey != LabelKey(a) && ComparisonKey != ScoreKey(a)
  {
    assert LabelKey(a)[4] != ScoreKey(a)[4];
    assert ExpectedKey[0] != LabelKey(a)[0] && ExpectedKey[0] != ScoreKey(a)[0];
    assert ComparisonKey[0] != LabelKey(a)[0] && ComparisonKey[0] != ScoreKey(a)[0];
  }

  /** The expected score depends on the expectation entry alone. */
  lemma {:induction false} ExpectedScoreLocal(d1: SessionData, d2: SessionData)
    requires ExpectedKey in d1 <==> ExpectedKey in d2
    requires ExpectedKey in d1 ==> d1[ExpectedKey] == d2[ExpectedKey]
    ensures ExpectedScore(d1) == ExpectedScore(d2)
  {
  }

  /** The comparator reads the same expectation whichever dictionary it is
      handed, and the sequential writes amount to a merge. */
  lemma {:induction false} AliasedViewFacts(stored: SessionData, a: Assessment)
    ensures var local := stored[LabelKey(a) := VStr(AssessmentLabel(a))][ScoreKey(a) := VInt(AssessmentScore(a))];
      && local == stored + AssessmentWrites(a)
      && ExpectedScore(if |stored| > 0 then local else map[]) == ExpectedScore(stored)
  {
    AssessmentKeysDistinct(a);
    var local := stored[LabelKey(a) := VStr(AssessmentLabel(a))][ScoreKey(a) := VInt(AssessmentScore(a))];
    assert local == stored + AssessmentWrites(a);
    if |stored| > 0 {
      ExpectedScoreLocal(local, stored);
    } else {
      assert stored == map[];
    }
  }

  /** After a JOL or FOK assessment the session's data holds the label
      and the score, keeps every other entry it had (the expectation
      included), and holds the verdict exactly when it was non-empty
      before. */
  lemma {:induction false} AssessmentOutcome(store: Store, id: SessionId, a: Assessment)
    requires ProcessAssessment(store, id, a).Ok?
    ensures var (store', next) := ProcessAssessment(store, id, a).value;
      var before := store[id].sessionData;
      var after := store'[id].sessionData;
      && after[LabelKey(a)] == VStr(AssessmentLabel(a))
      && after[ScoreKey(a)] == VInt(AssessmentScore(a))
      && (forall k :: k in before && k != LabelKey(a) && k != ScoreKey(a) && k != ComparisonKey ==>
            k in after && after[k] == before[k])
      && (ComparisonKey in after <==> |before| > 0)
      && (|before| > 0 ==> after[ComparisonKey] == VStr(ComparisonLabel(next)))
      && after.Keys == before.Keys + {LabelKey(a), ScoreKey(a)} + (if |before| > 0 then {ComparisonKey} else {})
  {
    AssessmentKeysDistinct(a);
    var (store', next) := ProcessAssessment(store, id, a).value;
    var before := store[id].sessionData;
    if |before| == 0 {
      assert before == map[];
    }
    MergeOutcome(before, LabelKey(a), VStr(AssessmentLabel(a)), ScoreKey(a), VInt(AssessmentScore(a)),
                 ComparisonKey, VStr(ComparisonLabel(next)), |before| > 0, store'[id].sessionData);
  }

  /** Merging two entries and, when `keep` holds, a third. */
  lemma {:induction false} MergeOutcome<K, V>(before: map<K, V>, k1: K, v1: V, k2: K, v2: V, k3: K, v3: V, keep: bool, after: map<K, V>)
    requires k1 != k2 && k1 != k3 && k2 != k3
    requires !keep ==> k3 !in before
    requires after == before + (map[k1 := v1, k2 := v2] + (if keep then map[k3 := v3] else map[]))
    ensures after[k1] == v1 && after[k2] == v2
    ensures forall k :: k in before && k != k1 && k != k2 && k != k3 ==> k in after && after[k] == before[k]
    ensures k3 in after <==> keep
    ensures keep ==> after[k3] == v3
    ensures after.Keys == before.Keys + {k1, k2} + (if keep then {k3} else {})
  {
  }

  function ProcessJol(store: Store, id: SessionId, level: JolLevel): (r: Result<(Store, Step), FlowError>)
    ensures id !in store ==> r == Err(SessionNotFound)
    ensures r.Ok? ==> id in store && ExpectedScore(store[id].sessionData).Ok?
    ensures r.Ok? ==> (r.value.1 == LearningCompleted <==> JolScore(level) >= ExpectedScore(store[id].sessionData).value)
    ensures r.Ok? ==> Recorded(r.value.0, id, "jol_assessment", VStr(JolLabel(level)))
    ensures r.Ok? ==> Recorded(r.value.0, id, "jol_score", VInt(JolScore(level)))
  {
    ProcessAssessment(store, id, Jol(level))
  }

  /** With a readable expectation on record, a JOL always succeeds, and the
      verdict is completion exactly when the score reaches the bar. */
  lemma {:induction false} JolVerdict(store: Store, id: SessionId, level: JolLevel)
    requires id in store && ExpectedScore(store[id].sessionData).Ok?
    ensures ProcessJol(store, id, level).Ok?
    ensures ProcessJol(store, id, level).value.1
         == if JolScore(level) >= ExpectedScore(store[id].sessionData).value then LearningCompleted else EolDifficultyAssessment
  {
    var r := ProcessAssessment(store, id, Jol(level));
    assert r.Ok?;
    assert ProcessJol(store, id, level) == r;
  }

  function ProcessFok(store: Store, id: SessionId, level: FokLevel): (r: Result<(Store, Step), FlowError>)
    ensures id !in store ==> r == Err(SessionNotFound)
    ensures r.Ok? ==> id in store && ExpectedScore(store[id].sessionData).Ok?
    ensures r.Ok? ==> (r.value.1 == LearningCompleted <==> FokScore(level) >= ExpectedScore(store[id].sessionData).value)
    ensures r.Ok? ==> Recorded(r.value.0, id, "fok_assessment", VStr(FokLabel(level)))
    ensures r.Ok? ==> Recorded(r.value.0, id, "fok_score", VInt(FokScore(level)))
  {
    ProcessAssessment(store, id, Fok(level))
  }

  // ---------------------------------------------------------------------
  // Confidence, time allocation, obstacles
  // ---------------------------------------------------------------------

  /** Merge `writes` into the session's data and move it to `next`. */
  function Advance(store: Store, id: SessionId, writes: SessionData, next: Step): (r: Result<(Store, Step), FlowError>)
    ensures id !in store <==> r.Err?
    ensures r.Err? ==> r.error == SessionNotFound
    ensures r.Ok? ==> r.value.1 == next && Committed(store, r.value.0, id, next, writes)
  {
    if id !in store then Err(SessionNotFound)
    else
      var s := store[id];
      Ok((store[id := s.(currentStep := StepName(next), sessionData := s.sessionData + writes)], next))
  }

  function ProcessConfidence(store: Store, id: SessionId, c: ConfidenceLevel): (r: Result<(Store, Step), FlowError>)
    ensures id !in store <==> r.Err?
    ensures r.Ok? ==> (r.value.1 == TimeAllocationStep <==> c == Confident)
    ensures r.Ok? ==> (r.value.1 == ExternalGuidance <==> c == NoConfidenceWithMaterials)
    ensures r.Ok? ==> (r.value.1 == TaskSwitching <==> c == NoConfidenceNoMaterials)
    ensures r.Ok? ==> Committed(store, r.value.0, id, r.value.1, map["confidence_assessment" := VStr(ConfidenceLabel(c))])
  {
    var next :=
      if c == Confident then TimeAllocationStep
      else if c == NoConfidenceWithMaterials then ExternalGuidance
      else TaskSwitching;
    Advance(store, id, map["confidence_assessment" := VStr(ConfidenceLabel(c))], next)
  }

  function AllocatedMinutes(t: TimeAllocation): int
  {
    match t
    case TwentyMin => 20
    case ThirtyMin => 30
    case OneHour => 60
    case Longer => 120
  }

  function ProcessTimeAllocation(store: Store, id: SessionId, t: TimeAllocation): (r: Result<(Store, Step), FlowError>)
    ensures id !in store <==> r.Err?
    ensures r.Ok? ==> r.value.1 == LearningInProgress
    ensures r.Ok? ==> Committed(store, r.value.0, id, LearningInProgress,
                        map["time_allocation" := VStr(TimeAllocationLabel(t)), "allocated_minutes" := VInt(AllocatedMinutes(t))])
  {
    Advance(store, id,
            map["time_allocation" := VStr(TimeAllocationLabel(t)), "allocated_minutes" := VInt(AllocatedMinutes(t))],
            LearningInProgress)
  }

  /** Longer allocations record strictly more minutes: 20, 30, 60, 120. */
  lemma {:induction false} AllocatedMinutesTable()
    ensures AllocatedMinutes(TwentyMin) == 20 && AllocatedMinutes(ThirtyMin) == 30
    ensures AllocatedMinutes(OneHour) == 60 && AllocatedMinutes(Longer) == 120
    ensures forall t: TimeAllocation :: AllocatedMinutes(t) in {20, 30, 60, 120}
  {
  }

  function ProcessObstacle(store: Store, id: SessionId, hasObstacle: bool): (r: Result<(Store, Step), FlowError>)
    ensures id !in store <==> r.Err?
    ensures r.Ok? ==> (r.value.1 == EolDifficultyAssessment <==> hasObstacle)
    ensures r.Ok? ==> (r.value.1 == StrategySelection <==> !hasObstacle)
    ensures r.Ok? ==> Committed(store, r.value.0, id, r.value.1, map["has_obstacle" := VBool(hasObstacle)])
  {
    Advance(store, id, map["has_obstacle" := VBool(hasObstacle)],
            if hasObstacle then EolDifficultyAssessment else StrategySelection)
  }

  // ---------------------------------------------------------------------
  // Sub-task generation from a chosen edge
  // ---------------------------------------------------------------------

  /** `generate_subtasks_from_edge`: the session's previous batch is
      discarded and replaced by the generator's plan for the edge, and the
      session moves to expectation setting; its data is untouched. */
  function GenerateSubtasksFromEdge(store: Store, id: SessionId, source: string, target: string, relationship: string)
    : (r: Result<(Store, seq<SubTask>), FlowError>)
    ensures id !in store <==> r.Err?
    ensures r.Err? ==> r.error == SessionNotFound
    ensures r.Ok? ==>
      var store' := r.value.0;
      var tasks := r.value.1;
      && IsPlan(tasks)
      && Masteries(tasks) == FamilyPattern(FamilyOf(relationship))
      && tasks == GenerateSubtasks(source, target, relationship, store[id].problemStatement)
      && store'.Keys == store.Keys
      && (forall k :: k in store && k != id ==> store'[k] == store[k])
      && store'[id] == store[id].(currentStep := StepName(ExpectationSetting), subTasks := tasks)
  {
    if id !in store then Err(SessionNotFound)
    else
      var s := store[id];
      var tasks := GenerateSubtasks(source, target, relationship, s.problemStatement);
      Ok((store[id := s.(subTasks := tasks, currentStep := StepName(ExpectationSetting))], tasks))
  }

  // ---------------------------------------------------------------------
  // End-to-end scenarios
  // ---------------------------------------------------------------------

  /** A JOL of "mostly remember" (3) on a session without an expectation
      meets the default bar of 2. */
  lemma {:induction false} ScenarioJolDefaultExpectation(store: Store, id: SessionId)
    requires id in store && ExpectedKey !in store[id].sessionData
    ensures ProcessJol(store, id, MostlyRemember).Ok?
    ensures ProcessJol(store, id, MostlyRemember).value.1 == LearningCompleted
  {
  }

  /** A JOL of "barely remember" (2) against an expected semantic
      derivation (4) goes to difficulty assessment. */
  lemma {:induction false} ScenarioJolBelowExpectation(store: Store, id: SessionId)
    requires id in store
    requires ExpectedKey in store[id].sessionData
    requires store[id].sessionData[ExpectedKey] == VStr(MasteryLabel(SemanticDerivation))
    ensures ProcessJol(store, id, BarelyRemember).Ok?
    ensures ProcessJol(store, id, BarelyRemember).value.1 == EolDifficultyAssessment
  {
    assert ExpectedScore(store[id].sessionData) == Ok(MasteryScore(SemanticDerivation));
    JolVerdict(store, id, BarelyRemember);
  }

  /** A downward edge produces the intuitive-semantic-semantic plan and
      moves the session to expectation setting. */
  lemma {:induction false} ScenarioChildEdge(store: Store, id: SessionId)
    requires id in store
    ensures var r := GenerateSubtasksFromEdge(store, id, "矩阵", "线性变换", RelationshipLabel(Child));
      && r.Ok?
      && Masteries(r.value.1) == [IntuitiveUnderstanding, SemanticDerivation, SemanticDerivation]
      && r.value.0[id].currentStep == "expectation_setting"
  {
    RelationshipDispatch(RelationshipLabel(Child));
  }
}
