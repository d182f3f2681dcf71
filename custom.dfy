/** `generate_custom_strategy`: which section the growth-strategy page puts
    together for the user's situation. Each section of the page's HTML is
    represented by the branch that selects it. */
module CustomStrategy {
  import opened Seqs
  import opened Text

  datatype TimePlan = ShortSessions | PomodoroSessions | StructuredBlocks
  datatype MotivationPlan = StartSmall | Sustain | Exploit
  datatype ObstaclePlan =
    | NoObstacle
    | TimeShortage
    | MotivationUpkeep
    | FocusTrouble
    | AnxietyFear
    | Generic(excerpt: string)
  datatype ProfilePlan = ShortTermPlan | LongTermPlan | NoProfilePlan

  datatype Plan = Plan(
    heading: string,
    minutes: int,
    time: TimePlan,
    motivation: MotivationPlan,
    focus: string,
    obstacle: ObstaclePlan,
    profile: ProfilePlan)

  /** The keys of the focus-area strategy table; "その他" is also the fallback. */
  const FocusAreas: seq<string> := ["仕事・キャリア", "学習・スキル", "健康・運動", "人間関係", "趣味・創作", "精神的充足", "その他"]
  const OtherArea: string := "その他"

  /** Obstacle keyword groups, in the order the page tests them. */
  const ObstacleGroups: seq<seq<string>> := [
    ["時間", "忙しい", "余裕"],
    ["モチベーション", "やる気", "意欲", "続かない"],
    ["集中", "気が散る", "誘惑", "注意散漫"],
    ["不安", "心配", "怖い", "恐れ"]
  ]
  const ObstaclePlans: seq<ObstaclePlan> := [TimeShortage, MotivationUpkeep, FocusTrouble, AnxietyFear]

  /** The time section, by the minutes available per day. */
  function TimePlanOf(minutes: int): (t: TimePlan)
    ensures t == ShortSessions <==> minutes <= 15
    ensures t == PomodoroSessions <==> 15 < minutes <= 45
    ensures t == StructuredBlocks <==> minutes > 45
  {
    if minutes <= 15 then ShortSessions
    else if minutes <= 45 then PomodoroSessions
    else StructuredBlocks
  }

  /** The motivation section, by the 1-10 motivation level. */
  function MotivationPlanOf(level: int): (m: MotivationPlan)
    ensures m == StartSmall <==> level <= 3
    ensures m == Sustain <==> 3 < level <= 7
    ensures m == Exploit <==> level > 7
  {
    if level <= 3 then StartSmall
    else if level <= 7 then Sustain
    else Exploit
  }

  function TimeRank(p: TimePlan): nat
  {
    match p
    case ShortSessions => 0
    case PomodoroSessions => 1
    case StructuredBlocks => 2
  }

  function MotivationRank(p: MotivationPlan): nat
  {
    match p
    case StartSmall => 0
    case Sustain => 1
    case Exploit => 2
  }

  /** More time available never selects a plan for less time. */
  lemma TimePlanMonotone(a: int, b: int)
    requires a <= b
    ensures TimeRank(TimePlanOf(a)) <= TimeRank(TimePlanOf(b))
  {
  }

  /** Higher motivation never selects a plan for lower motivation. */
  lemma MotivationPlanMonotone(a: int, b: int)
    requires a <= b
    ensures MotivationRank(MotivationPlanOf(a)) <= MotivationRank(MotivationPlanOf(b))
  {
  }

  /** `focus_strategies.get(focus_area, focus_strategies["その他"])`: the table
      key whose section is shown. */
  function FocusKey(area: string): (k: string)
    ensures k in FocusAreas
    ensures k == area <==> area in FocusAreas
    ensures area !in FocusAreas ==> k == OtherArea
  {
    if area in FocusAreas then area else OtherArea
  }

  /** The obstacle section: none for an empty obstacle, else the first keyword
      group found in the lower-cased text, else a generic section quoting the
      first 50 characters. */
  function ObstaclePlanOf(obstacle: string): (p: ObstaclePlan)
    ensures p == NoObstacle <==> obstacle == ""
    ensures forall g :: 0 <= g < |ObstaclePlans| ==>
      (p == ObstaclePlans[g] <==>
        obstacle != "" && AnyContains(Lower(obstacle), ObstacleGroups[g])
        && forall j :: 0 <= j < g ==> !AnyContains(Lower(obstacle), ObstacleGroups[j]))
    ensures p.Generic? <==>
      obstacle != "" && forall g :: 0 <= g < |ObstacleGroups| ==> !AnyContains(Lower(obstacle), ObstacleGroups[g])
    ensures p.Generic? ==> p.excerpt == Take(obstacle, 50)
    ensures p.Generic? ==> p.excerpt <= obstacle && |p.excerpt| == if |obstacle| < 50 then |obstacle| else 50
  {
    if obstacle == "" then NoObstacle
    else
      var k := FirstMatch(ObstacleGroups, Lower(obstacle));
      if k < |ObstaclePlans| then ObstaclePlans[k] else Generic(Take(obstacle, 50))
  }

  /** The profile section, from the stored `goal_pattern` ("unknown" when absent). */
  function ProfilePlanOf(goalPattern: string): (p: ProfilePlan)
    ensures p == ShortTermPlan <==> goalPattern == "short_term"
    ensures p == LongTermPlan <==> goalPattern == "long_term"
  {
    if goalPattern == "short_term" then ShortTermPlan
    else if goalPattern == "long_term" then LongTermPlan
    else NoProfilePlan
  }

  /** The whole selection. `goalPattern` is the value the page reads from the
      stored user profile. */
  function GenerateCustomStrategy(focusArea: string, minutes: int, level: int, obstacle: string, goalPattern: string)
    : (p: Plan)
    ensures p.heading == focusArea && p.minutes == minutes
    ensures p.focus in FocusAreas && (p.focus == focusArea || (focusArea !in FocusAreas && p.focus == OtherArea))
    ensures p.time == ShortSessions <==> minutes <= 15
    ensures p.time == StructuredBlocks <==> minutes > 45
    ensures p.motivation == StartSmall <==> level <= 3
    ensures p.motivation == Exploit <==> level > 7
    ensures p.obstacle == NoObstacle <==> obstacle == ""
    ensures forall g :: 0 <= g < |ObstaclePlans| ==>
      (p.obstacle == ObstaclePlans[g] <==>
        obstacle != "" && AnyContains(Lower(obstacle), ObstacleGroups[g])
        && forall j :: 0 <= j < g ==> !AnyContains(Lower(obstacle), ObstacleGroups[j]))
    ensures p.obstacle.Generic? <==>
      obstacle != "" && forall g :: 0 <= g < |ObstacleGroups| ==> !AnyContains(Lower(obstacle), ObstacleGroups[g])
    ensures p.obstacle.Generic? ==> p.obstacle.excerpt == Take(obstacle, 50)
    ensures p.profile == ShortTermPlan <==> goalPattern == "short_term"
    ensures p.profile == LongTermPlan <==> goalPattern == "long_term"
  {
    Plan(focusArea, minutes, TimePlanOf(minutes), MotivationPlanOf(level), FocusKey(focusArea),
         ObstaclePlanOf(obstacle), ProfilePlanOf(goalPattern))
  }
}
