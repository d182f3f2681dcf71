/** `detect_intent` of the AI chat page: a keyword classifier over the
    lower-cased message. Six keyword groups are tried in a fixed order and the
    first group with a substring hit decides; otherwise the intent is unknown. */
module Intent {
  import opened Text

  datatype Intent =
    | Motivation
    | GoalAdvice
    | HabitFormation
    | StrengthAnalysis
    | TimeManagement
    | SelfDoubt
    | Unknown

  /** The keyword table, one group per intent, in the order the page tests them. */
  const IntentKeywords: seq<seq<string>> := [
    ["モチベーション", "やる気", "意欲", "やる気が出ない", "続かない"],
    ["目標", "達成", "計画", "戦略", "成功"],
    ["習慣", "継続", "毎日", "ルーティン"],
    ["強み", "長所", "得意", "スキル", "能力"],
    ["時間", "管理", "効率", "生産性", "忙しい"],
    ["自信", "不安", "心配", "怖い", "失敗"]
  ]

  /** The intent each keyword group stands for, in the same order. */
  const GroupIntents: seq<Intent> :=
    [Motivation, GoalAdvice, HabitFormation, StrengthAnalysis, TimeManagement, SelfDoubt]

  /** The tag the page passes on to its response generators. */
  function Tag(i: Intent): (t: string)
    ensures t != ""
    ensures t == "unknown" <==> i == Unknown
  {
    match i
    case Motivation => "motivation"
    case GoalAdvice => "goal_advice"
    case HabitFormation => "habit_formation"
    case StrengthAnalysis => "strength_analysis"
    case TimeManagement => "time_management"
    case SelfDoubt => "self_doubt"
    case Unknown => "unknown"
  }

  /** Group `g` decides for `text`: it hits and no earlier group does. */
  predicate Decides(g: nat, text: string)
    requires g < |IntentKeywords|
  {
    AnyContains(text, IntentKeywords[g]) && forall j :: 0 <= j < g ==> !AnyContains(text, IntentKeywords[j])
  }

  function DetectIntent(message: string): (r: Intent)
    ensures r == Unknown <==> forall g :: 0 <= g < |IntentKeywords| ==> !AnyContains(Lower(message), IntentKeywords[g])
    ensures forall g :: 0 <= g < |GroupIntents| ==> (r == GroupIntents[g] <==> Decides(g, Lower(message)))
  {
    var k := FirstMatch(IntentKeywords, Lower(message));
    if k < |GroupIntents| then GroupIntents[k] else Unknown
  }

  /** Tags are distinct, so the tag string identifies the intent. */
  lemma TagInjective(a: Intent, b: Intent)
    requires Tag(a) == Tag(b)
    ensures a == b
  {
    match a
    case Motivation => assert Tag(b)[0] == 'm';
    case GoalAdvice => assert Tag(b)[0] == 'g';
    case HabitFormation => assert Tag(b)[0] == 'h';
    case StrengthAnalysis => assert Tag(b)[..3] == "str";
    case TimeManagement => assert Tag(b)[0] == 't';
    case SelfDoubt => assert Tag(b)[..3] == "sel";
    case Unknown => assert Tag(b)[0] == 'u';
  }

  /** Any motivation keyword wins over every later group, so a message that
      mentions both a motivation word and a goal word is about motivation. */
  lemma MotivationFirst(message: string, k: nat)
    requires k < |IntentKeywords[0]| && Contains(Lower(message), IntentKeywords[0][k])
    ensures DetectIntent(message) == Motivation
  {
    assert AnyContains(Lower(message), IntentKeywords[0]);
    assert Decides(0, Lower(message));
  }

  /** A goal keyword decides only when no motivation keyword occurs. */
  lemma GoalWhenNoMotivation(message: string, k: nat)
    requires k < |IntentKeywords[1]| && Contains(Lower(message), IntentKeywords[1][k])
    ensures DetectIntent(message) == GoalAdvice <==> !AnyContains(Lower(message), IntentKeywords[0])
  {
    assert AnyContains(Lower(message), IntentKeywords[1]);
    assert Decides(1, Lower(message)) <==> !AnyContains(Lower(message), IntentKeywords[0]);
  }

  /** "目標達成のやる気が出ない" mentions a goal and motivation: motivation wins. */
  lemma MixedMessageIsMotivation()
    ensures DetectIntent("目標達成のやる気が出ない") == Motivation
  {
    var m := "目標達成のやる気が出ない";
    assert Lower(m) == m;
    assert IntentKeywords[0][1] <= Lower(m)[5..];
    MotivationFirst(m, 1);
  }
}
