/** `generate_daily_feedback`: the assistant's reply to a daily check-in, built
    sentence by sentence. Each sentence of the page's text is represented by
    the branch that produced it; the wording itself is not modelled. */
module DailyFeedback {
  import opened Text

  datatype Sentence =
    | MoodHigh | MoodSteady | MoodLow
    | ProgressHigh | ProgressSteady | ProgressLow
    | EarlyRising | Focus
    | TimePressure | MotivationDip
    | Advice(index: nat)
  {
    predicate IsMood() { MoodHigh? || MoodSteady? || MoodLow? }
    predicate IsProgress() { ProgressHigh? || ProgressSteady? || ProgressLow? }
    predicate IsKeywordSentence() { EarlyRising? || Focus? || TimePressure? || MotivationDip? }

    /** The position of a keyword sentence in the page's fixed order. */
    function Rank(): nat
    {
      match this
      case EarlyRising => 0
      case Focus => 1
      case TimePressure => 2
      case MotivationDip => 3
      case _ => 4
    }
  }

  const EarlyWords: seq<string> := ["早起き", "朝", "早い", "早朝"]
  const FocusWords: seq<string> := ["集中", "フォーカス", "没頭"]
  const TimeWords: seq<string> := ["時間", "忙しい", "余裕"]
  const MotivationWords: seq<string> := ["モチベーション", "やる気", "意欲"]

  /** The number of general-advice sentences `random.choice` picks from. */
  const AdviceCount: nat := 5

  /** Does some whitespace-separated token of the lower-cased `text` equal one of `words`? */
  predicate Mentions(text: string, words: seq<string>)
  {
    text != "" && AnyToken(Split(Lower(text)), words)
  }

  /** Matching is by whole token: "朝食" (breakfast) contains "朝" but is not
      the token "朝", so it prompts no early-rising remark. */
  lemma SubstringIsNoMention()
    ensures !Mentions("朝食", EarlyWords)
  {
    assert Lower("朝食") == "朝食";
    RunsOfWholeRun("朝食", c => !IsSpace(c));
    assert Split("朝食") == ["朝食"];
  }

  /** The keyword remarks that apply, in the page's fixed order, given which
      of the four word lists were mentioned. */
  function RemarksOf(early: bool, focus: bool, time: bool, dip: bool): (r: seq<Sentence>)
    ensures |r| <= 4
  {
    Pair(early, EarlyRising, focus, Focus) + Pair(time, TimePressure, dip, MotivationDip)
  }

  /** Every remark list is a strictly ordered list of keyword sentences, and
      each sentence appears exactly when its word list was mentioned. */
  lemma RemarksOfShape(early: bool, focus: bool, time: bool, dip: bool)
    ensures var r := RemarksOf(early, focus, time, dip);
      && (forall i :: 0 <= i < |r| ==> r[i].IsKeywordSentence())
      && (forall i, j :: 0 <= i < j < |r| ==> r[i].Rank() < r[j].Rank())
      && (EarlyRising in r <==> early) && (Focus in r <==> focus)
      && (TimePressure in r <==> time) && (MotivationDip in r <==> dip)
  {
    var a := Pair(early, EarlyRising, focus, Focus);
    var b := Pair(time, TimePressure, dip, MotivationDip);
    assert RemarksOf(early, focus, time, dip) == a + b;
    PairShape(early, EarlyRising, focus, Focus);
    PairShape(time, TimePressure, dip, MotivationDip);
    var r := a + b;
    forall i, j | 0 <= i < j < |r| ensures r[i].Rank() < r[j].Rank() {
      if j < |a| {
        assert r[i] == a[i] && r[j] == a[j];
      } else if i >= |a| {
        assert r[i] == b[i - |a|] && r[j] == b[j - |a|];
      } else {
        assert r[i] == a[i] && r[j] == b[j - |a|];
      }
    }
  }

  /** The sentences of two optional remarks, kept in this order. */
  function Pair(p: bool, x: Sentence, q: bool, y: Sentence): (r: seq<Sentence>)
    ensures |r| <= 2
  {
    (if p then [x] else []) + (if q then [y] else [])
  }

  lemma PairShape(p: bool, x: Sentence, q: bool, y: Sentence)
    requires x.IsKeywordSentence() && y.IsKeywordSentence() && x.Rank() < y.Rank()
    ensures var r := Pair(p, x, q, y);
      && (forall i :: 0 <= i < |r| ==> r[i] == x || r[i] == y)
      && (forall i, j :: 0 <= i < j < |r| ==> r[i] == x && r[j] == y)
      && (x in r <==> p) && (y in r <==> q)
  {
  }

  /** The remarks on the insights: whole-token matches of the early-rising and
      the focus words. */
  method InsightRemarks(insights: string) returns (remarks: seq<Sentence>)
    ensures remarks == RemarksOf(Mentions(insights, EarlyWords), Mentions(insights, FocusWords), false, false)
  {
    remarks := [];
    if insights != "" {
      var keywords := Split(Lower(insights));
      if AnyToken(keywords, EarlyWords) {
        remarks := remarks + [EarlyRising];
      }
      if AnyToken(keywords, FocusWords) {
        remarks := remarks + [Focus];
      }
    }
  }

  /** The remarks on the challenges: whole-token matches of the time and the
      motivation words. */
  method ChallengeRemarks(challenges: string) returns (remarks: seq<Sentence>)
    ensures remarks == RemarksOf(false, false, Mentions(challenges, TimeWords), Mentions(challenges, MotivationWords))
  {
    remarks := [];
    if challenges != "" {
      var keywords := Split(Lower(challenges));
      if AnyToken(keywords, TimeWords) {
        remarks := remarks + [TimePressure];
      }
      if AnyToken(keywords, MotivationWords) {
        remarks := remarks + [MotivationDip];
      }
    }
  }

  /** The optional sentences prompted by whole-token keyword matches, in the
      page's fixed order: insight remarks first, then challenge remarks. */
  method KeywordRemarks(insights: string, challenges: string) returns (remarks: seq<Sentence>)
    ensures forall i :: 0 <= i < |remarks| ==> remarks[i].IsKeywordSentence()
    ensures forall i, j :: 0 <= i < j < |remarks| ==> remarks[i].Rank() < remarks[j].Rank()
    ensures EarlyRising in remarks <==> Mentions(insights, EarlyWords)
    ensures Focus in remarks <==> Mentions(insights, FocusWords)
    ensures TimePressure in remarks <==> Mentions(challenges, TimeWords)
    ensures MotivationDip in remarks <==> Mentions(challenges, MotivationWords)
  {
    var fromInsights := InsightRemarks(insights);
    var fromChallenges := ChallengeRemarks(challenges);
    remarks := fromInsights + fromChallenges;
    var early, focus := Mentions(insights, EarlyWords), Mentions(insights, FocusWords);
    var time, dip := Mentions(challenges, TimeWords), Mentions(challenges, MotivationWords);
    assert remarks == RemarksOf(early, focus, time, dip);
    RemarksOfShape(early, focus, time, dip);
  }

  /** The two sentences every reply begins with: one on the mood, one on the progress. */
  method Opening(mood: int, progress: int) returns (feedback: seq<Sentence>)
    ensures |feedback| == 2
    ensures feedback[0] == if mood >= 8 then MoodHigh else if mood >= 5 then MoodSteady else MoodLow
    ensures feedback[1] == if progress >= 8 then ProgressHigh else if progress >= 5 then ProgressSteady else ProgressLow
  {
    feedback := [];
    if mood >= 8 {
      feedback := feedback + [MoodHigh];
    } else if mood >= 5 {
      feedback := feedback + [MoodSteady];
    } else {
      feedback := feedback + [MoodLow];
    }

    if progress >= 8 {
      feedback := feedback + [ProgressHigh];
    } else if progress >= 5 {
      feedback := feedback + [ProgressSteady];
    } else {
      feedback := feedback + [ProgressLow];
    }

  }

  /** Builds the reply; `choice` is the index `random.choice` would draw. */
  method GenerateDailyFeedback(mood: int, progress: int, insights: string, challenges: string, choice: nat)
    returns (feedback: seq<Sentence>)
    requires choice < AdviceCount
    ensures WellShaped(feedback)
    ensures feedback[0] == if mood >= 8 then MoodHigh else if mood >= 5 then MoodSteady else MoodLow
    ensures feedback[1] == if progress >= 8 then ProgressHigh else if progress >= 5 then ProgressSteady else ProgressLow
    ensures feedback[|feedback| - 1] == Advice(choice)
    ensures forall i, j :: 2 <= i < j < |feedback| - 1 ==> feedback[i].Rank() < feedback[j].Rank()
    ensures EarlyRising in feedback <==> Mentions(insights, EarlyWords)
    ensures Focus in feedback <==> Mentions(insights, FocusWords)
    ensures TimePressure in feedback <==> Mentions(challenges, TimeWords)
    ensures MotivationDip in feedback <==> Mentions(challenges, MotivationWords)
  {
    var opening := Opening(mood, progress);
    var remarks := KeywordRemarks(insights, challenges);
    feedback := opening;
    feedback := feedback + remarks;
    feedback := feedback + [Advice(choice)];
    assert feedback == opening + remarks + [Advice(choice)];
    assert forall i :: 2 <= i < |feedback| - 1 ==> feedback[i] == remarks[i - 2];
    assert feedback[..2] == opening && feedback[2..|feedback| - 1] == remarks;
    KeywordSentenceIn(feedback, EarlyRising);
    KeywordSentenceIn(feedback, Focus);
    KeywordSentenceIn(feedback, TimePressure);
    KeywordSentenceIn(feedback, MotivationDip);
  }

  /** The layout of every reply: a mood sentence, a progress sentence, the
      keyword remarks in the page's order, and one closing advice sentence. */
  predicate WellShaped(feedback: seq<Sentence>)
  {
    && |feedback| >= 3
    && feedback[0].IsMood() && feedback[1].IsProgress() && feedback[|feedback| - 1].Advice?
    && (forall i :: 2 <= i < |feedback| - 1 ==> feedback[i].IsKeywordSentence())
  }

  /** In a well-shaped reply the mood, the progress and the advice sentence
      each occur exactly once. */
  lemma OneOfEach(feedback: seq<Sentence>)
    requires WellShaped(feedback)
    ensures forall i :: 0 <= i < |feedback| && feedback[i].IsMood() ==> i == 0
    ensures forall i :: 0 <= i < |feedback| && feedback[i].IsProgress() ==> i == 1
    ensures forall i :: 0 <= i < |feedback| && feedback[i].Advice? ==> i == |feedback| - 1
  {
  }

  /** A keyword sentence occurs in a reply exactly when it occurs between the
      two opening sentences and the closing advice. */
  lemma KeywordSentenceIn(feedback: seq<Sentence>, x: Sentence)
    requires |feedback| >= 3 && x.IsKeywordSentence()
    requires !feedback[0].IsKeywordSentence() && !feedback[1].IsKeywordSentence()
    requires !feedback[|feedback| - 1].IsKeywordSentence()
    ensures x in feedback <==> x in feedback[2..|feedback| - 1]
  {
    if x in feedback {
      var i :| 0 <= i < |feedback| && feedback[i] == x;
      assert feedback[2..|feedback| - 1][i - 2] == x;
    }
  }
}
