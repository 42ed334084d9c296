/** The sub-task generator: a pure template function from a chosen
    cognitive-map edge (or a problem statement) to a three-step learning
    plan. */
module SubtaskGenerator {
  import opened Schemas
  import opened Seqs
  import opened Text

  /** A learning plan: exactly three steps numbered 1, 2, 3. */
  predicate IsPlan(r: seq<SubTask>)
  {
    |r| == 3 && forall i :: 0 <= i < 3 ==> r[i].order == i + 1
  }

  /** The mastery expectations of a plan, step by step. */
  function Masteries(r: seq<SubTask>): seq<MasteryLevel>
  {
    seq(|r|, i requires 0 <= i < |r| => r[i].mastery)
  }

  // ---------------------------------------------------------------------
  // Relationship-driven plans
  // ---------------------------------------------------------------------

  /** The template family an edge label selects. */
  datatype Family = Hierarchical | BottomUp | Parallel | RelatedFamily

  /** Label dispatch: three labels are recognised, anything else (the
      "related" label included) falls to the related family. */
  function FamilyOf(relationship: string): Family
  {
    if relationship == "下级" then Hierarchical
    else if relationship == "上级" then BottomUp
    else if relationship == "并列" then Parallel
    else RelatedFamily
  }

  /** The mastery pattern of each relationship family. */
  function FamilyPattern(f: Family): seq<MasteryLevel>
  {
    match f
    case Hierarchical => [IntuitiveUnderstanding, SemanticDerivation, SemanticDerivation]
    case BottomUp => [SemanticDerivation, IntuitiveUnderstanding, SemanticDerivation]
    case Parallel => [IntuitiveUnderstanding, SemanticDerivation, SemanticDerivation]
    case RelatedFamily => [SemanticDerivation, IntuitiveUnderstanding, IntuitiveUnderstanding]
  }

  /** From a concept down to its sub-concept `target`. */
  function HierarchicalSubtasks(source: string, target: string, context: string): seq<SubTask>
  {
    [ SubTask("理解 " + target + " 的整体框架",
              "建立对 " + target + " 的宏观认识，了解其在 " + source + " 中的位置和作用", 1, IntuitiveUnderstanding),
      SubTask("学习 " + target + " 的核心概念",
              "深入学习 " + target + " 的关键概念、定义和基本原理", 2, SemanticDerivation),
      SubTask("掌握 " + target + " 的具体应用",
              "通过实例和练习，掌握 " + target + " 的具体应用方法", 3, SemanticDerivation) ]
  }

  /** From a concept up to its super-concept `target`. */
  function BottomUpSubtasks(source: string, target: string, context: string): seq<SubTask>
  {
    [ SubTask("巩固 " + source + " 的基础知识",
              "确保对 " + source + " 的基础概念有扎实的理解", 1, SemanticDerivation),
      SubTask("探索 " + source + " 与 " + target + " 的联系",
              "理解 " + source + " 如何支撑和构成 " + target, 2, IntuitiveUnderstanding),
      SubTask("整合理解 " + target,
              "基于 " + source + " 的理解，形成对 " + target + " 的完整认知", 3, SemanticDerivation) ]
  }

  /** Two concepts of equal standing. */
  function ParallelSubtasks(source: string, target: string, context: string): seq<SubTask>
  {
    [ SubTask("对比学习 " + source + " 和 " + target,
              "比较 " + source + " 和 " + target + " 的异同点，理解各自特点", 1, IntuitiveUnderstanding),
      SubTask("分别掌握 " + source + " 和 " + target,
              "独立深入学习 " + source + " 和 " + target + " 的具体内容", 2, SemanticDerivation),
      SubTask("综合应用 " + source + " 和 " + target,
              "在实际场景中综合运用 " + source + " 和 " + target, 3, SemanticDerivation) ]
  }

  /** Loosely related concepts. */
  function RelatedSubtasks(source: string, target: string, context: string): seq<SubTask>
  {
    [ SubTask("理解 " + source + " 的核心内容",
              "深入理解 " + source + " 的主要内容和特点", 1, SemanticDerivation),
      SubTask("探索 " + source + " 与 " + target + " 的关联",
              "发现和理解 " + source + " 与 " + target + " 之间的相关性", 2, IntuitiveUnderstanding),
      SubTask("建立知识网络",
              "将 " + source + " 和 " + target + " 整合到完整的知识体系中", 3, IntuitiveUnderstanding) ]
  }

  /** `generate_subtasks`: every label and every pair of names yields a
      three-step plan with the mastery pattern of the label's family. */
  function GenerateSubtasks(source: string, target: string, relationship: string, context: string): (r: seq<SubTask>)
    ensures IsPlan(r)
    ensures Masteries(r) == FamilyPattern(FamilyOf(relationship))
  {
    match FamilyOf(relationship)
    case Hierarchical => HierarchicalSubtasks(source, target, context)
    case BottomUp => BottomUpSubtasks(source, target, context)
    case Parallel => ParallelSubtasks(source, target, context)
    case RelatedFamily => RelatedSubtasks(source, target, context)
  }

  /** Each enumerated relationship reaches its own family, and a label
      reaches the related family exactly when it is none of the other three. */
  lemma {:induction false} RelationshipDispatch(relationship: string)
    ensures FamilyOf(RelationshipLabel(Child)) == Hierarchical
    ensures FamilyOf(RelationshipLabel(Parent)) == BottomUp
    ensures FamilyOf(RelationshipLabel(Sibling)) == Parallel
    ensures FamilyOf(RelationshipLabel(Related)) == RelatedFamily
    ensures FamilyOf(relationship) == RelatedFamily <==>
              relationship != "下级" && relationship != "上级" && relationship != "并列"
  {
    assert RelationshipLabel(Related)[0] != "下级"[0];
    assert RelationshipLabel(Related)[0] != "上级"[0];
    assert RelationshipLabel(Related)[0] != "并列"[0];
  }

  /** The plan depends on the names and the family only: the problem
      context is never read. */
  lemma {:induction false} GenerateIgnoresContext(source: string, target: string, relationship: string, c1: string, c2: string)
    ensures GenerateSubtasks(source, target, relationship, c1) == GenerateSubtasks(source, target, relationship, c2)
  {
  }

  /** Every step names the concept it is about: all steps of a downward
      plan name the target, every parallel step names both concepts, and
      the related family's last step has the fixed name "建立知识网络" while
      its description names both concepts. */
  lemma {:induction false} PlansMentionConcepts(source: string, target: string, context: string)
    ensures var r := HierarchicalSubtasks(source, target, context);
      forall i :: 0 <= i < 3 ==> Occurs(target, r[i].name)
    ensures var r := BottomUpSubtasks(source, target, context);
      Occurs(source, r[0].name) && Occurs(source, r[1].name) && Occurs(target, r[1].name) && Occurs(target, r[2].name)
    ensures var r := ParallelSubtasks(source, target, context);
      forall i :: 0 <= i < 3 ==> Occurs(source, r[i].name) && Occurs(target, r[i].name)
    ensures var r := RelatedSubtasks(source, target, context);
      Occurs(source, r[0].name) && Occurs(source, r[1].name) && Occurs(target, r[1].name)
      && r[2].name == "建立知识网络"
      && Occurs(source, r[2].description) && Occurs(target, r[2].description)
  {
    // Each name and description is a left-nested concatenation: show the
    // concept occurs where it is inserted, then extend by the remaining parts.
    OccursAsSuffix("理解 ", target);
    OccursExtend(target, "理解 " + target, " 的整体框架");
    OccursAsSuffix("学习 ", target);
    OccursExtend(target, "学习 " + target, " 的核心概念");
    OccursAsSuffix("掌握 ", target);
    OccursExtend(target, "掌握 " + target, " 的具体应用");

    OccursAsSuffix("巩固 ", source);
    OccursExtend(source, "巩固 " + source, " 的基础知识");
    OccursAsSuffix("探索 ", source);
    OccursExtend(source, "探索 " + source, " 与 ");
    OccursExtend(source, "探索 " + source + " 与 ", target);
    OccursExtend(source, "探索 " + source + " 与 " + target, " 的联系");
    OccursExtend(source, "探索 " + source + " 与 " + target, " 的关联");
    OccursAsSuffix("探索 " + source + " 与 ", target);
    OccursExtend(target, "探索 " + source + " 与 " + target, " 的联系");
    OccursExtend(target, "探索 " + source + " 与 " + target, " 的关联");
    OccursAsSuffix("整合理解 ", target);

    ParallelNameMentions("对比学习 ", source, target);
    ParallelNameMentions("分别掌握 ", source, target);
    ParallelNameMentions("综合应用 ", source, target);

    OccursAsSuffix("理解 ", source);
    OccursExtend(source, "理解 " + source, " 的核心内容");
    OccursAsSuffix("将 ", source);
    OccursExtend(source, "将 " + source, " 和 ");
    OccursExtend(source, "将 " + source + " 和 ", target);
    OccursExtend(source, "将 " + source + " 和 " + target, " 整合到完整的知识体系中");
    OccursAsSuffix("将 " + source + " 和 ", target);
    OccursExtend(target, "将 " + source + " 和 " + target, " 整合到完整的知识体系中");
  }

  lemma {:induction false} ParallelNameMentions(verb: string, source: string, target: string)
    ensures Occurs(source, verb + source + " 和 " + target)
    ensures Occurs(target, verb + source + " 和 " + target)
  {
    OccursAsSuffix(verb, source);
    OccursExtend(source, verb + source, " 和 ");
    OccursExtend(source, verb + source + " 和 ", target);
    OccursAsSuffix(verb + source + " 和 ", target);
  }

  // ---------------------------------------------------------------------
  // Statement-driven plans
  // ---------------------------------------------------------------------

  datatype Domain = Programming | Mathematics | Language | General

  const ProgrammingWords: seq<string> := ["编程", "python", "java", "javascript", "代码"]
  const MathematicsWords: seq<string> := ["数学", "算法", "公式", "计算"]
  const LanguageWords: seq<string> := ["英语", "语言", "单词", "语法"]

  /** Some keyword of `words` is a substring of `s`. */
  predicate MentionsAny(s: string, words: seq<string>)
  {
    exists k :: 0 <= k < |words| && Contains(s, words[k])
  }

  /** `_analyze_problem_type`: lower-case the statement, then test the
      keyword groups in priority order. */
  function AnalyzeProblemType(statement: string): Domain
  {
    var low := LowerAscii(statement);
    if MentionsAny(low, ProgrammingWords) then Programming
    else if MentionsAny(low, MathematicsWords) then Mathematics
    else if MentionsAny(low, LanguageWords) then Language
    else General
  }

  /** Declarative form of the classifier: a domain is chosen exactly when
      one of its keywords occurs in the lower-cased statement and no keyword
      of a higher-priority domain does. */
  ghost predicate Mentioned(statement: string, words: seq<string>)
  {
    exists k :: 0 <= k < |words| && Occurs(words[k], LowerAscii(statement))
  }

  lemma {:induction false} MentionsAnyIffMentioned(statement: string, words: seq<string>)
    ensures MentionsAny(LowerAscii(statement), words) <==> Mentioned(statement, words)
  {
    forall k | 0 <= k < |words|
      ensures Contains(LowerAscii(statement), words[k]) <==> Occurs(words[k], LowerAscii(statement))
    {
      ContainsIffOccurs(LowerAscii(statement), words[k]);
    }
  }

  lemma {:induction false} AnalyzeProblemTypePriority(statement: string)
    ensures AnalyzeProblemType(statement) == Programming <==> Mentioned(statement, ProgrammingWords)
    ensures AnalyzeProblemType(statement) == Mathematics <==>
              !Mentioned(statement, ProgrammingWords) && Mentioned(statement, MathematicsWords)
    ensures AnalyzeProblemType(statement) == Language <==>
              !Mentioned(statement, ProgrammingWords) && !Mentioned(statement, MathematicsWords)
              && Mentioned(statement, LanguageWords)
    ensures AnalyzeProblemType(statement) == General <==>
              !Mentioned(statement, ProgrammingWords) && !Mentioned(statement, MathematicsWords)
              && !Mentioned(statement, LanguageWords)
  {
    MentionsAnyIffMentioned(statement, ProgrammingWords);
    MentionsAnyIffMentioned(statement, MathematicsWords);
    MentionsAnyIffMentioned(statement, LanguageWords);
  }

  /** The mastery pattern of each domain plan. */
  function DomainPattern(d: Domain): seq<MasteryLevel>
  {
    if d == Mathematics then [SemanticDerivation, SemanticDerivation, SemanticDerivation] else [IntuitiveUnderstanding, SemanticDerivation, SemanticDerivation]
  }

  function ProgrammingSubtasks(path: seq<string>): seq<SubTask>
  {
    [ SubTask("环境搭建和基础配置", "设置开发环境，安装必要的工具和库", 1, IntuitiveUnderstanding),
      SubTask("核心概念理解和语法学习", "学习基础语法和核心编程概念", 2, SemanticDerivation),
      SubTask("实践项目和代码练习", "通过实际编程项目巩固所学知识", 3, SemanticDerivation) ]
  }

  function MathSubtasks(path: seq<string>): seq<SubTask>
  {
    [ SubTask("基础概念和定义理解", "理解相关的数学概念、定义和基本原理", 1, SemanticDerivation),
      SubTask("公式推导和证明过程", "掌握重要公式的推导过程和证明方法", 2, SemanticDerivation),
      SubTask("例题练习和应用实践", "通过典型例题和实际应用巩固理解", 3, SemanticDerivation) ]
  }

  function LanguageSubtasks(path: seq<string>): seq<SubTask>
  {
    [ SubTask("词汇积累和基础语法", "学习核心词汇和基本语法规则", 1, IntuitiveUnderstanding),
      SubTask("听说读写综合训练", "通过多种方式训练语言技能", 2, SemanticDerivation),
      SubTask("实际交流和应用练习", "在真实场景中应用所学语言知识", 3, SemanticDerivation) ]
  }

  function GeneralSubtasks(path: seq<string>): seq<SubTask>
  {
    [ SubTask("基础知识学习", "学习相关的基础知识和核心概念", 1, IntuitiveUnderstanding),
      SubTask("深入理解和分析", "深入分析和理解关键内容", 2, SemanticDerivation),
      SubTask("实践应用和总结", "通过实践应用巩固学习成果", 3, SemanticDerivation) ]
  }

  /** `generate_contextual_subtasks`: a fixed three-step plan per domain. */
  function GenerateContextualSubtasks(statement: string, path: seq<string>): (r: seq<SubTask>)
    ensures IsPlan(r)
    ensures Masteries(r) == DomainPattern(AnalyzeProblemType(statement))
  {
    match AnalyzeProblemType(statement)
    case Programming => ProgrammingSubtasks(path)
    case Mathematics => MathSubtasks(path)
    case Language => LanguageSubtasks(path)
    case General => GeneralSubtasks(path)
  }

  /** The selected path is never read: two calls that differ only in the
      path give the same plan. */
  lemma {:induction false} ContextualIgnoresPath(statement: string, p1: seq<string>, p2: seq<string>)
    ensures GenerateContextualSubtasks(statement, p1) == GenerateContextualSubtasks(statement, p2)
  {
  }
}
