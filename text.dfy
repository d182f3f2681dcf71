/** The string operations the assistant's keyword rules are made of:
    `str.lower()`, `str.split()`, the tokeniser `re.findall(r'\b\w+\b', ...)`,
    the substring test `word in text` and the "first keyword group that hits"
    cascade written as `if any(...) / elif any(...) / else`. */
module Text {
  import opened Seqs

  /** Lower-cases one character. Only ASCII A-Z and the full-width letters
      U+FF21..U+FF3A are mapped; every other character is left as it is. */
  function LowerChar(c: char): (d: char)
    ensures !('A' <= d <= 'Z') && !('\U{FF21}' <= d <= '\U{FF3A}')
    ensures d == c || ('A' <= c <= 'Z') || ('\U{FF21}' <= c <= '\U{FF3A}')
    ensures ('A' <= c <= 'Z' || '\U{FF21}' <= c <= '\U{FF3A}') ==> d as int == c as int + 32
  {
    if 'A' <= c <= 'Z' || '\U{FF21}' <= c <= '\U{FF3A}' then (c as int + 32) as char else c
  }

  /** `s.lower()`, character by character. */
  function Lower(s: string): (r: string)
    ensures |r| == |s|
    ensures forall i :: 0 <= i < |s| ==> r[i] == LowerChar(s[i])
  {
    seq(|s|, i requires 0 <= i < |s| => LowerChar(s[i]))
  }

  lemma LowerIdempotent(s: string)
    ensures Lower(Lower(s)) == Lower(s)
  {
    forall i | 0 <= i < |s| ensures Lower(Lower(s))[i] == Lower(s)[i] {
      var c := Lower(s)[i];
      assert c == LowerChar(s[i]);
    }
  }

  /** The characters Python's `str.isspace()` accepts, which are exactly the
      separators of `str.split()` without arguments. */
  const Whitespace: set<char> := {
    '\t', '\n', '\U{000B}', '\U{000C}', '\r', '\U{001C}', '\U{001D}', '\U{001E}', '\U{001F}', ' ',
    '\U{0085}', '\U{00A0}', '\U{1680}', '\U{2000}', '\U{2001}', '\U{2002}', '\U{2003}', '\U{2004}',
    '\U{2005}', '\U{2006}', '\U{2007}', '\U{2008}', '\U{2009}', '\U{200A}', '\U{2028}', '\U{2029}',
    '\U{202F}', '\U{205F}', '\U{3000}'
  }

  predicate IsSpace(c: char) { c in Whitespace }

  /** Length of the longest prefix of `s` whose characters all satisfy `p`. */
  function LeadingRun(s: string, p: char -> bool): (n: nat)
    ensures n <= |s|
    ensures forall i :: 0 <= i < n ==> p(s[i])
    ensures n < |s| ==> !p(s[n])
  {
    if s != [] && p(s[0]) then 1 + LeadingRun(s[1..], p) else 0
  }

  /** The maximal runs of characters satisfying `p`, left to right. */
  function Runs(s: string, p: char -> bool): (r: seq<string>)
    ensures forall k :: 0 <= k < |r| ==> r[k] != []
    ensures forall k, i :: 0 <= k < |r| && 0 <= i < |r[k]| ==> p(r[k][i])
    decreases |s|
  {
    if s == [] then []
    else
      var n := LeadingRun(s, p);
      if n == 0 then Runs(s[1..], p) else [s[..n]] + Runs(s[n..], p)
  }

  function Flatten(ws: seq<string>): string
  {
    if ws == [] then [] else ws[0] + Flatten(ws[1..])
  }

  /** Nothing is lost or invented by cutting into runs: gluing the runs back
      together gives `s` with exactly the characters outside `p` removed. */
  lemma {:induction false} RunsCoverText(s: string, p: char -> bool)
    ensures Flatten(Runs(s, p)) == Filter(s, p)
    decreases |s|
  {
    if s != [] {
      var n := LeadingRun(s, p);
      if n == 0 {
        assert s == [s[0]] + s[1..];
        FilterAppend([s[0]], s[1..], p);
        assert Filter([s[0]], p) == [];
        RunsCoverText(s[1..], p);
      } else {
        assert s == s[..n] + s[n..];
        FilterAppend(s[..n], s[n..], p);
        FilterAll(s[..n], p);
        RunsCoverText(s[n..], p);
        assert Runs(s, p) == [s[..n]] + Runs(s[n..], p);
        assert ([s[..n]] + Runs(s[n..], p))[1..] == Runs(s[n..], p);
      }
    }
  }

  /** A leading run stops at the first character outside the class. */
  lemma {:induction false} LeadingRunStops(a: string, c: char, b: string, p: char -> bool)
    requires !p(c)
    ensures LeadingRun(a + [c] + b, p) == LeadingRun(a, p)
  {
    var s := a + [c] + b;
    if a == [] {
      assert s[0] == c;
    } else {
      assert s[0] == a[0];
      if p(a[0]) {
        assert s[1..] == a[1..] + [c] + b;
        LeadingRunStops(a[1..], c, b, p);
      }
    }
  }

  /** Runs never reach across a character outside the class: the runs of
      `a + [c] + b` are the runs of `a` followed by the runs of `b`. */
  lemma {:induction false} RunsSplitAt(a: string, c: char, b: string, p: char -> bool)
    requires !p(c)
    ensures Runs(a + [c] + b, p) == Runs(a, p) + Runs(b, p)
    decreases |a|
  {
    var s := a + [c] + b;
    LeadingRunStops(a, c, b, p);
    var n := LeadingRun(s, p);
    if a == [] {
      assert s[1..] == b;
    } else if n == 0 {
      assert s[1..] == a[1..] + [c] + b;
      RunsSplitAt(a[1..], c, b, p);
    } else {
      assert s[..n] == a[..n];
      assert s[n..] == a[n..] + [c] + b;
      RunsSplitAt(a[n..], c, b, p);
    }
  }

  /** A non-empty stretch of class characters is one run, not several. */
  lemma RunsOfWholeRun(s: string, p: char -> bool)
    requires s != [] && forall i :: 0 <= i < |s| ==> p(s[i])
    ensures Runs(s, p) == [s]
  {
    assert LeadingRun(s, p) == |s|;
    assert s[..|s|] == s;
  }

  /** A filter that keeps every element returns its input. */
  lemma {:induction false} FilterAll(s: string, p: char -> bool)
    requires forall i :: 0 <= i < |s| ==> p(s[i])
    ensures Filter(s, p) == s
  {
    if s != [] {
      FilterAll(s[..|s| - 1], p);
    }
  }

  /** `s.split()`: the maximal runs of non-whitespace characters. */
  function Split(s: string): (r: seq<string>)
    ensures forall k, i :: 0 <= k < |r| && 0 <= i < |r[k]| ==> !IsSpace(r[k][i])
  {
    Runs(s, c => !IsSpace(c))
  }

  /** "早朝" is one token of `str.split()`: it holds no whitespace. */
  lemma SplitKeepsWordWhole()
    ensures Split("早朝") == ["早朝"]
  {
    RunsOfWholeRun("早朝", c => !IsSpace(c));
  }

  /** Two space-free words joined by one space split back into the two words. */
  lemma SplitTwoWords(a: string, b: string)
    requires a != [] && forall i :: 0 <= i < |a| ==> !IsSpace(a[i])
    requires b != [] && forall i :: 0 <= i < |b| ==> !IsSpace(b[i])
    ensures Split(a + " " + b) == [a, b]
  {
    var p := c => !IsSpace(c);
    assert !p(' ');
    assert a + " " + b == a + [' '] + b;
    RunsSplitAt(a, ' ', b, p);
    RunsOfWholeRun(a, p);
    RunsOfWholeRun(b, p);
  }

  /** `re.findall(r'\b\w+\b', s)`: between two word boundaries `\w+` matches a
      maximal run of word characters. Which characters are word characters
      (Unicode letters, digits and `_` in Python) is passed as `isWord`. */
  function Words(s: string, isWord: char -> bool): (r: seq<string>)
    ensures forall k :: 0 <= k < |r| ==> |r[k]| >= 1
  {
    Runs(s, isWord)
  }

  /** Python's `w in text` for two strings: `w` occurs in `text` at some offset. */
  predicate Contains(text: string, w: string)
  {
    exists i :: 0 <= i <= |text| && w <= text[i..]
  }

  /** `any(word in text for word in words)`. */
  predicate AnyContains(text: string, words: seq<string>)
  {
    exists k :: 0 <= k < |words| && Contains(text, words[k])
  }

  /** The cascade `if any(g0) ... elif any(g1) ... else`: the index of the first
      keyword group with a hit in `text`, or `|groups|` when none hits. */
  function FirstMatch(groups: seq<seq<string>>, text: string): (k: nat)
    ensures k <= |groups|
    ensures k < |groups| ==> AnyContains(text, groups[k])
    ensures forall j :: 0 <= j < k ==> !AnyContains(text, groups[j])
  {
    if groups == [] then 0
    else if AnyContains(text, groups[0]) then 0
    else 1 + FirstMatch(groups[1..], text)
  }

  /** `any(word in tokens for word in words)` where `tokens` is a list:
      a whole-token match, not a substring match. */
  predicate AnyToken(tokens: seq<string>, words: seq<string>)
  {
    exists k :: 0 <= k < |words| && words[k] in tokens
  }
}
