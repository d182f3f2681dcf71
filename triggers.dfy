/** The part of `update_user_profile_from_daily_log` that learns motivation and
    demotivation triggers from a daily check-in: the insight (or challenge) text
    is lower-cased and tokenised, stop words and one-character tokens are
    dropped, and each remaining token that is not yet in the list is appended;
    whenever the list grows past ten entries its oldest entry is dropped. */
module Triggers {
  import opened Seqs
  import opened Text

  /** Words never kept as triggers. */
  const StopWords: seq<string> :=
    ["私", "わたし", "です", "ます", "した", "ので", "から", "ながら", "ている", "いる", "ある"]

  /** The length the lists are cut back to. */
  const MaxTriggers: nat := 10

  predicate IsKeyword(w: string)
  {
    w !in StopWords && |w| > 1
  }

  /** The candidate trigger words of one check-in text. */
  function Keywords(text: string, isWord: char -> bool): (r: seq<string>)
    ensures forall k :: 0 <= k < |r| ==> IsKeyword(r[k])
    ensures forall k :: 0 <= k < |r| ==> r[k] in Words(Lower(text), isWord)
    ensures forall w :: w in Words(Lower(text), isWord) && IsKeyword(w) ==> w in r
    ensures IsSubseq(r, Words(Lower(text), isWord))
    ensures var ws := Words(Lower(text), isWord);
      forall k :: 0 <= k < |ws| ==> multiset(r)[ws[k]] == if IsKeyword(ws[k]) then multiset(ws)[ws[k]] else 0
  {
    var ws := Words(Lower(text), isWord);
    FilterIsSubseq(ws, IsKeyword);
    FilterCount(ws, IsKeyword);
    Filter(ws, IsKeyword)
  }

  /** A trigger list the page keeps: no duplicates, at most ten entries. */
  predicate WellFormed(list: seq<string>)
  {
    Distinct(list) && |list| <= MaxTriggers
  }

  /** One step of the loop: append an absent keyword, then drop the oldest
      entry if the list became longer than ten. */
  function Push(list: seq<string>, k: string): (r: seq<string>)
    ensures k in list ==> r == list
    ensures k !in list ==> r != [] && r[|r| - 1] == k
    ensures k !in list ==> r[..|r| - 1] == if |list| >= MaxTriggers then list[1..] else list
    ensures k in r
    ensures forall x :: x in r ==> x in list || x == k
    ensures WellFormed(list) ==> WellFormed(r)
    ensures |list| <= MaxTriggers ==> |r| <= MaxTriggers
  {
    if k in list then list
    else
      var grown := list + [k];
      if |grown| > MaxTriggers then grown[1..] else grown
  }

  /** The whole loop over `keywords`, one `Push` per keyword in order. */
  function PushAll(list: seq<string>, keywords: seq<string>): (r: seq<string>)
    ensures WellFormed(list) ==> WellFormed(r)
    ensures |list| <= MaxTriggers ==> |r| <= MaxTriggers
    ensures forall x :: x in r ==> x in list || x in keywords
    ensures keywords != [] ==> keywords[|keywords| - 1] in r
  {
    if keywords == [] then list
    else Push(PushAll(list, keywords[..|keywords| - 1]), keywords[|keywords| - 1])
  }

  /** The loop as the page runs it, appending to and popping the front of the list. */
  method AppendTriggers(list: seq<string>, keywords: seq<string>) returns (r: seq<string>)
    ensures r == PushAll(list, keywords)
    ensures WellFormed(list) ==> WellFormed(r)
  {
    r := list;
    for i := 0 to |keywords|
      invariant r == PushAll(list, keywords[..i])
    {
      assert keywords[..i + 1][..i] == keywords[..i];
      var keyword := keywords[i];
      if keyword !in r {
        r := r + [keyword];
        if |r| > MaxTriggers {
          r := r[1..];
        }
      }
    }
    assert keywords[..|keywords|] == keywords;
  }

  /** A new trigger is always a keyword: stop words and one-character tokens
      of the text never enter the list. */
  lemma {:induction false} OnlyKeywordsAdded(list: seq<string>, text: string, isWord: char -> bool, x: string)
    requires x in PushAll(list, Keywords(text, isWord)) && x !in list
    ensures IsKeyword(x) && x in Words(Lower(text), isWord)
  {
    var ks := Keywords(text, isWord);
    assert x in ks;
    var k :| 0 <= k < |ks| && ks[k] == x;
  }

  /** The learned part of the user profile. */
  class UserProfile {
    var motivationTriggers: seq<string>
    var demotivationTriggers: seq<string>

    /** A fresh profile starts with both lists empty. */
    constructor ()
      ensures motivationTriggers == [] && demotivationTriggers == []
    {
      motivationTriggers := [];
      demotivationTriggers := [];
    }

    /** Updates the trigger lists from one check-in (`mood` is the 1-10 slider). */
    method UpdateFromDailyLog(mood: int, insights: string, challenges: string, isWord: char -> bool)
      modifies this
      ensures motivationTriggers ==
        if insights != "" && mood >= 7 then PushAll(old(motivationTriggers), Keywords(insights, isWord))
        else old(motivationTriggers)
      ensures demotivationTriggers ==
        if challenges != "" && mood <= 4 then PushAll(old(demotivationTriggers), Keywords(challenges, isWord))
        else old(demotivationTriggers)
      ensures WellFormed(old(motivationTriggers)) ==> WellFormed(motivationTriggers)
      ensures WellFormed(old(demotivationTriggers)) ==> WellFormed(demotivationTriggers)
    {
      if insights != "" {
        if mood >= 7 {
          var keywords := Keywords(insights, isWord);
          motivationTriggers := AppendTriggers(motivationTriggers, keywords);
        }
      }
      if challenges != "" {
        if mood <= 4 {
          var keywords := Keywords(challenges, isWord);
          demotivationTriggers := AppendTriggers(demotivationTriggers, keywords);
        }
      }
    }
  }

  /** On a middling day (mood 5 or 6) neither list is touched. */
  method MiddlingMoodChangesNothing(p: UserProfile, mood: int, insights: string, challenges: string, isWord: char -> bool)
    requires 5 <= mood <= 6
    modifies p
    ensures p.motivationTriggers == old(p.motivationTriggers)
    ensures p.demotivationTriggers == old(p.demotivationTriggers)
  {
    p.UpdateFromDailyLog(mood, insights, challenges, isWord);
  }
}
