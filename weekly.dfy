/** `generate_weekly_report` with its file loading replaced by the two input
    lists: the daily check-in logs and the recorded small wins. */
module WeeklyReport {
  import opened Seqs
  import opened Text
  import opened Calendar

  datatype DailyLog = DailyLog(date: int, mood: int, progress: int, insights: string, challenges: string)
  datatype SmallWin = SmallWin(date: int, description: string)

  /** A strategy proposal for next week, by the branch that produced it;
      `Default(i)` is entry `i` of the page's five default strategies. */
  datatype Strategy =
    | TimeBlocking
    | FiveMinuteRule
    | Pomodoro
    | Decompose(excerpt: string)
    | Default(index: nat)

  datatype Report = Report(
    weekRange: string,
    achievements: seq<string>,
    insights: seq<string>,
    challenges: seq<string>,
    strategies: seq<Strategy>,
    dailyData: seq<DailyLog>)

  /** How many entries each report list keeps. */
  const ReportLimit: nat := 5
  /** How many strategies a report proposes, and how many challenges get their own. */
  const StrategyCount: nat := 3
  const DefaultStrategyCount: nat := 5

  /** Keyword groups of the challenge strategies, in priority order. */
  const ChallengeGroups: seq<seq<string>> := [["時間"], ["モチベーション", "やる気"], ["集中"]]

  /** The strategy for one challenge: the first keyword group found in the
      lower-cased text decides; otherwise the first 20 characters are quoted. */
  function StrategyFor(challenge: string): (r: Strategy)
    ensures !r.Default?
    ensures r.Decompose? ==> r.excerpt <= challenge && |r.excerpt| == if |challenge| < 20 then |challenge| else 20
  {
    var k := FirstMatch(ChallengeGroups, Lower(challenge));
    if k == 0 then TimeBlocking
    else if k == 1 then FiveMinuteRule
    else if k == 2 then Pomodoro
    else Decompose(Take(challenge, 20))
  }

  /** The priority 時間 > モチベーション/やる気 > 集中 > generic, case by case. */
  lemma {:induction false} StrategyPriority(challenge: string)
    ensures var t := Lower(challenge);
      && (StrategyFor(challenge) == TimeBlocking <==> Contains(t, "時間"))
      && (StrategyFor(challenge) == FiveMinuteRule <==>
            !Contains(t, "時間") && (Contains(t, "モチベーション") || Contains(t, "やる気")))
      && (StrategyFor(challenge) == Pomodoro <==>
            !Contains(t, "時間") && !Contains(t, "モチベーション") && !Contains(t, "やる気") && Contains(t, "集中"))
      && (StrategyFor(challenge).Decompose? <==>
            !Contains(t, "時間") && !Contains(t, "モチベーション") && !Contains(t, "やる気") && !Contains(t, "集中"))
      && (StrategyFor(challenge).Decompose? ==> StrategyFor(challenge).excerpt == Take(challenge, 20))
  {
    var t := Lower(challenge);
    var g := ChallengeGroups;
    assert AnyContains(t, g[0]) <==> Contains(t, "時間") by {
      if Contains(t, "時間") { assert Contains(t, g[0][0]); }
    }
    assert AnyContains(t, g[1]) <==> Contains(t, "モチベーション") || Contains(t, "やる気") by {
      if Contains(t, "モチベーション") { assert Contains(t, g[1][0]); }
      if Contains(t, "やる気") { assert Contains(t, g[1][1]); }
    }
    assert AnyContains(t, g[2]) <==> Contains(t, "集中") by {
      if Contains(t, "集中") { assert Contains(t, g[2][0]); }
    }
    var k := FirstMatch(g, t);
    assert k <= 3;
  }

  /** The log entries in the week `start..end`, both ends included. */
  function InWeek(logs: seq<DailyLog>, start: int, end: int): (r: seq<DailyLog>)
    ensures forall k :: 0 <= k < |r| ==> start <= r[k].date <= end && r[k] in logs
    ensures forall k :: 0 <= k < |logs| && start <= logs[k].date <= end ==> logs[k] in r
    ensures IsSubseq(r, logs)
    ensures forall k :: 0 <= k < |logs| ==>
      multiset(r)[logs[k]] == if start <= logs[k].date <= end then multiset(logs)[logs[k]] else 0
  {
    var inRange := (l: DailyLog) => start <= l.date <= end;
    FilterIsSubseq(logs, inRange);
    FilterCount(logs, inRange);
    Filter(logs, inRange)
  }

  /** The small wins dated in the week `start..end`, both ends included. */
  function WinsInWeek(wins: seq<SmallWin>, start: int, end: int): (r: seq<SmallWin>)
    ensures forall k :: 0 <= k < |r| ==> start <= r[k].date <= end && r[k] in wins
    ensures forall k :: 0 <= k < |wins| && start <= wins[k].date <= end ==> wins[k] in r
    ensures IsSubseq(r, wins)
    ensures forall k :: 0 <= k < |wins| ==>
      multiset(r)[wins[k]] == if start <= wins[k].date <= end then multiset(wins)[wins[k]] else 0
  {
    var inRange := (w: SmallWin) => start <= w.date <= end;
    FilterIsSubseq(wins, inRange);
    FilterCount(wins, inRange);
    Filter(wins, inRange)
  }

  /** The non-empty values of one text field of the logs, in log order. */
  function NonEmptyField(logs: seq<DailyLog>, field: DailyLog -> string): (r: seq<string>)
    ensures forall k :: 0 <= k < |r| ==> r[k] != ""
  {
    if logs == [] then []
    else
      var last := field(logs[|logs| - 1]);
      NonEmptyField(logs[..|logs| - 1], field) + (if last != "" then [last] else [])
  }

  function Project(logs: seq<DailyLog>, field: DailyLog -> string): (r: seq<string>)
    ensures |r| == |logs| && forall k :: 0 <= k < |logs| ==> r[k] == field(logs[k])
  {
    seq(|logs|, k requires 0 <= k < |logs| => field(logs[k]))
  }

  /** Collecting the non-empty field values is the same as listing the field of
      every log and dropping the empty strings: so the collected list holds
      exactly the non-empty values, in log order (see `Seqs.FilterIsSubseq`). */
  lemma {:induction false} NonEmptyFieldIsFilter(logs: seq<DailyLog>, field: DailyLog -> string)
    ensures NonEmptyField(logs, field) == Filter(Project(logs, field), (s: string) => s != "")
  {
    if logs != [] {
      var init := logs[..|logs| - 1];
      NonEmptyFieldIsFilter(init, field);
      assert Project(logs, field)[..|logs| - 1] == Project(init, field);
    }
  }

  /** What a collected list holds: exactly the non-empty field values, in order. */
  lemma NonEmptyFieldExact(logs: seq<DailyLog>, field: DailyLog -> string)
    ensures forall x :: x in NonEmptyField(logs, field) <==>
      x != "" && exists k :: 0 <= k < |logs| && field(logs[k]) == x
    ensures IsSubseq(NonEmptyField(logs, field), Project(logs, field))
  {
    NonEmptyFieldIsFilter(logs, field);
    FilterIsSubseq(Project(logs, field), (s: string) => s != "");
  }

  /** No collected value is lost or merged: a non-empty value occurs in the
      collection once per log that carries it. */
  lemma NonEmptyFieldCount(logs: seq<DailyLog>, field: DailyLog -> string)
    ensures forall k :: 0 <= k < |logs| && field(logs[k]) != "" ==>
      multiset(NonEmptyField(logs, field))[field(logs[k])] == multiset(Project(logs, field))[field(logs[k])]
  {
    var values := Project(logs, field);
    var nonEmpty := (s: string) => s != "";
    NonEmptyFieldIsFilter(logs, field);
    FilterCount(values, nonEmpty);
    forall k | 0 <= k < |logs| && field(logs[k]) != ""
      ensures multiset(NonEmptyField(logs, field))[field(logs[k])] == multiset(values)[field(logs[k])]
    {
      assert values[k] == field(logs[k]);
      assert nonEmpty(values[k]);
    }
  }

  /** The insights (or challenges) of a report come from the non-empty entries
      of the logs dated inside the week, and every such entry is collected. */
  lemma WeekEntriesExact(logs: seq<DailyLog>, start: int, end: int, field: DailyLog -> string)
    ensures forall x :: x in NonEmptyField(InWeek(logs, start, end), field) <==>
      x != "" && exists k :: 0 <= k < |logs| && start <= logs[k].date <= end && field(logs[k]) == x
  {
    var week := InWeek(logs, start, end);
    NonEmptyFieldExact(week, field);
    forall x | x != "" && (exists k :: 0 <= k < |logs| && start <= logs[k].date <= end && field(logs[k]) == x)
      ensures x in NonEmptyField(week, field)
    {
      var k :| 0 <= k < |logs| && start <= logs[k].date <= end && field(logs[k]) == x;
      assert logs[k] in week;
      var j :| 0 <= j < |week| && week[j] == logs[k];
    }
    forall x | x in NonEmptyField(week, field)
      ensures exists k :: 0 <= k < |logs| && start <= logs[k].date <= end && field(logs[k]) == x
    {
      var j :| 0 <= j < |week| && field(week[j]) == x;
      assert week[j] in logs;
      var k :| 0 <= k < |logs| && logs[k] == week[j];
    }
  }

  function Descriptions(wins: seq<SmallWin>): (r: seq<string>)
    ensures |r| == |wins| && forall k :: 0 <= k < |wins| ==> r[k] == wins[k].description
  {
    seq(|wins|, k requires 0 <= k < |wins| => wins[k].description)
  }

  /** The strategy list: one strategy per challenge for the first three
      challenges, then default strategies in their order up to three entries. */
  method ProposeStrategies(challenges: seq<string>) returns (strategies: seq<Strategy>)
    ensures |strategies| == StrategyCount
    ensures forall i :: 0 <= i < |Take(challenges, StrategyCount)| ==> strategies[i] == StrategyFor(challenges[i])
    ensures forall i :: |Take(challenges, StrategyCount)| <= i < StrategyCount ==>
      strategies[i] == Default(i - |Take(challenges, StrategyCount)|)
  {
    strategies := [];
    var firstThree := Take(challenges, StrategyCount);
    if challenges != [] {
      for i := 0 to |firstThree|
        invariant |strategies| == i
        invariant forall j :: 0 <= j < i ==> strategies[j] == StrategyFor(challenges[j])
      {
        strategies := strategies + [StrategyFor(firstThree[i])];
      }
    }
    var own := |strategies|;
    if |strategies| < StrategyCount {
      for d := 0 to DefaultStrategyCount
        invariant own <= |strategies| <= StrategyCount
        invariant |strategies| == if own + d < StrategyCount then own + d else StrategyCount
        invariant forall j :: 0 <= j < own ==> strategies[j] == StrategyFor(challenges[j])
        invariant forall j :: own <= j < |strategies| ==> strategies[j] == Default(j - own)
      {
        if |strategies| < StrategyCount {
          strategies := strategies + [Default(d)];
        }
      }
    }
  }

  /** The loop `for log in week_logs: if log[field]: collected.append(log[field])`. */
  method CollectNonEmpty(logs: seq<DailyLog>, field: DailyLog -> string) returns (collected: seq<string>)
    ensures collected == NonEmptyField(logs, field)
  {
    collected := [];
    for i := 0 to |logs|
      invariant collected == NonEmptyField(logs[..i], field)
    {
      assert logs[..i + 1][..i] == logs[..i];
      if field(logs[i]) != "" {
        collected := collected + [field(logs[i])];
      }
    }
    assert logs[..|logs|] == logs;
  }

  /** The loop collecting the description of every small win of the week. */
  method CollectDescriptions(wins: seq<SmallWin>) returns (achievements: seq<string>)
    ensures achievements == Descriptions(wins)
  {
    achievements := [];
    for i := 0 to |wins|
      invariant achievements == Descriptions(wins[..i])
    {
      achievements := achievements + [wins[i].description];
    }
    assert wins[..|wins|] == wins;
  }

  /** Assembles the report for the week `start..end` as the page does. */
  method GenerateWeeklyReport(start: int, end: int, logs: seq<DailyLog>, wins: seq<SmallWin>)
    returns (report: Report)
    requires IsDate(start) && IsDate(end)
    ensures report.weekRange == WeekRange(start, end)
    ensures report.dailyData == InWeek(logs, start, end)
    ensures report.achievements == Take(Descriptions(WinsInWeek(wins, start, end)), ReportLimit)
    ensures report.insights ==
      Take(NonEmptyField(InWeek(logs, start, end), (l: DailyLog) => l.insights), ReportLimit)
    ensures report.challenges ==
      Take(NonEmptyField(InWeek(logs, start, end), (l: DailyLog) => l.challenges), ReportLimit)
    ensures var all := NonEmptyField(InWeek(logs, start, end), (l: DailyLog) => l.challenges);
      && |report.strategies| == StrategyCount
      && (forall i :: 0 <= i < |Take(all, StrategyCount)| ==> report.strategies[i] == StrategyFor(all[i]))
      && (forall i :: |Take(all, StrategyCount)| <= i < StrategyCount ==>
            report.strategies[i] == Default(i - |Take(all, StrategyCount)|))
  {
    var weekRange := WeekRange(start, end);
    var weekLogs := InWeek(logs, start, end);

    var achievements := CollectDescriptions(WinsInWeek(wins, start, end));
    var insights := CollectNonEmpty(weekLogs, (l: DailyLog) => l.insights);
    var challenges := CollectNonEmpty(weekLogs, (l: DailyLog) => l.challenges);
    var strategies := ProposeStrategies(challenges);

    report := Report(
      weekRange,
      Take(achievements, ReportLimit),
      Take(insights, ReportLimit),
      Take(challenges, ReportLimit),
      Take(strategies, ReportLimit),
      weekLogs);
  }
}
