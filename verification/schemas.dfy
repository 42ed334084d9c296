/** The closed enumerations of the learning-flow domain and the sub-task
    record, each enumeration with the exact label the backend stores. */
module Schemas {
  import opened Wrappers

  /** Relationship of a cognitive-map edge, seen from its source node. */
  datatype RelationshipType = Parent | Child | Sibling | Related

  function RelationshipLabel(t: RelationshipType): string
  {
    match t
    case Parent => "上级"
    case Child => "下级"
    case Sibling => "并列"
    case Related => "相关"
  }

  /** Target depth of a sub-task. */
  datatype MasteryLevel = SemanticDerivation | IntuitiveUnderstanding

  function MasteryLabel(m: MasteryLevel): string
  {
    match m
    case SemanticDerivation => "语义级别的公式推导"
    case IntuitiveUnderstanding => "建立表象的直觉理解"
  }

  /** Python's `MasteryLevel(s)`: the member whose value is `s`, if any. */
  function ParseMastery(s: string): (r: Option<MasteryLevel>)
    ensures r.Some? ==> MasteryLabel(r.value) == s
  {
    if s == MasteryLabel(SemanticDerivation) then Some(SemanticDerivation)
    else if s == MasteryLabel(IntuitiveUnderstanding) then Some(IntuitiveUnderstanding)
    else None
  }

  /** Parsing a stored label gives back the level it was written from, and
      only labels parse. */
  lemma {:induction false} ParseMasteryRoundTrip(m: MasteryLevel, s: string)
    ensures ParseMastery(MasteryLabel(m)) == Some(m)
    ensures ParseMastery(s).None? <==> (s != MasteryLabel(SemanticDerivation) && s != MasteryLabel(IntuitiveUnderstanding))
  {
    assert MasteryLabel(SemanticDerivation)[0] != MasteryLabel(IntuitiveUnderstanding)[0];
  }

  /** Judgment of Learning: self-rated future recall. */
  datatype JolLevel = CompletelyRemember | MostlyRemember | BarelyRemember | CannotRemember

  function JolLabel(l: JolLevel): string
  {
    match l
    case CompletelyRemember => "完全记得住"
    case MostlyRemember => "大部分记得住"
    case BarelyRemember => "记不太住"
    case CannotRemember => "完全不记得"
  }

  /** Feeling of Knowing: self-rated understanding. */
  datatype FokLevel = MasterCompletely | UnderstandWell | UnderstandLittle | CannotHandle

  function FokLabel(l: FokLevel): string
  {
    match l
    case MasterCompletely => "吃透"
    case UnderstandWell => "能了解"
    case UnderstandLittle => "能了解一点点"
    case CannotHandle => "啃不下来"
  }

  datatype ConfidenceLevel = Confident | NoConfidenceWithMaterials | NoConfidenceNoMaterials

  function ConfidenceLabel(c: ConfidenceLevel): string
  {
    match c
    case Confident => "有信心完成任务"
    case NoConfidenceWithMaterials => "没信心完成任务，但是有资料"
    case NoConfidenceNoMaterials => "没信心完成任务，而且没资料"
  }

  datatype TimeAllocation = TwentyMin | ThirtyMin | OneHour | Longer

  function TimeAllocationLabel(t: TimeAllocation): string
  {
    match t
    case TwentyMin => "20min"
    case ThirtyMin => "30min"
    case OneHour => "1h"
    case Longer => "更长时间"
  }

  /** One step of a learning plan; `order` is 1-based within its batch. */
  datatype SubTask = SubTask(name: string, description: string, order: int, mastery: MasteryLevel)
}
