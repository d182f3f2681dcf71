# AI support rules of the emotion-log app, in Dafny

This project models the rule-based "AI support" of a Streamlit self-coaching
application, and the date filter of its emotion-log export script. The page
`pages/07_ai_support.py` answers chat messages by keyword-based intent
detection, comments on each daily check-in (mood, progress, insights,
challenges), assembles a weekly report from the check-ins and small wins of
the current Monday-to-Sunday week, builds a custom growth strategy from a
handful of selections, and learns motivation and demotivation "triggers" from
check-in text. The script `export_filtered_emotion_logs.py` keeps the emotion
log records dated on or after a start date.

The model keeps the decisions and drops the prose: each generated sentence or
HTML section is represented by a datatype constructor naming the branch that
produced it. What is proved is which branch fires for which input, in which
order the pieces appear, and what the collected lists hold.

Modules, one concern each:

- `Seqs` (`seqs.dfy`): filtering, subsequences, prefixes, distinctness.
- `Text` (`text.dfy`): lower-casing, `str.split()`, the runs found by
  `re.findall(r'\b\w+\b', …)`, substring and token membership, and the
  "first matching keyword group" rule shared by every `if/elif` chain of
  keyword tests on the page.
- `Intent` (`intent.dfy`): `detect_intent`.
- `Triggers` (`triggers.dfy`): the trigger lists of the user profile and the
  update made by `update_user_profile_from_daily_log` from one check-in.
- `DailyFeedback` (`feedback.dfy`): `generate_daily_feedback`.
- `Calendar` (`calendar.dfy`): the reporting week of `show_weekly_report`
  and the `%Y-%m-%d` formatting of its `week_range` key. Dates are Python's
  proleptic Gregorian ordinals (`date.toordinal()`), 0001-01-01 being day 1,
  a Monday.
- `WeeklyReport` (`weekly.dfy`): `generate_weekly_report`.
- `CustomStrategy` (`custom.dfy`): `generate_custom_strategy`.
- `EmotionExport` (`export.dfy`): `filter_by_date`.

Inputs the code reads from files or from the clock are parameters:
`generate_weekly_report` receives the check-in logs and small wins as lists,
`generate_custom_strategy` receives the stored `goal_pattern`, the daily
feedback receives the index `random.choice` would pick, and trigger
extraction receives the `\w` character class as a predicate `isWord`.

Modelling notes:

- `filter_by_date` converts the `date` column with `pd.to_datetime` and its
  default `errors='raise'`: a missing or null date becomes NaT and is
  dropped by the comparison, but a date string that cannot be parsed makes
  the whole call raise. `EmotionExport.FilterByDate` returns
  `DateParseError` for it.
- `str.lower()` on the page is modelled through `Text.LowerChar`, which maps
  ASCII and full-width Latin capitals only (see "Left out"); every keyword on
  the page is Japanese or lower-case, so the keyword decisions do not depend
  on the rest of Unicode case mapping except through the user's own text.

## Model

| member | source | states |
|---|---|---|
| Seqs.Filter | streamlit_app.py/export_filtered_emotion_logs.py:34 | the selected rows are input rows that satisfy the condition, and every input row that satisfies it is selected |
| Seqs.FilterCount | streamlit_app.py/export_filtered_emotion_logs.py:34 | every selected row occurs in the result as often as in the input, every other row not at all |
| Seqs.FilterIsSubseq | streamlit_app.py/export_filtered_emotion_logs.py:34 | boolean row selection keeps the input order: the result is a subsequence of the input |
| Seqs.Take | streamlit_app.py/pages/07_ai_support.py:2170-2173 | the slice `[:n]` is a prefix of length `min(n, len)` |
| Text.LowerChar | streamlit_app.py/pages/07_ai_support.py:1700 | a capital becomes its small letter (code point plus 32), every other character is kept, and the result is never a capital |
| Text.Lower | streamlit_app.py/pages/07_ai_support.py:1700 | lower-casing keeps the length and lower-cases each character in place |
| Text.LowerIdempotent | streamlit_app.py/pages/07_ai_support.py:1700 | lower-casing twice is lower-casing once |
| Text.Runs | streamlit_app.py/pages/07_ai_support.py:2476 | every run found is non-empty and consists of characters of the class |
| Text.RunsCoverText | streamlit_app.py/pages/07_ai_support.py:2476 | the runs, concatenated, are exactly the characters of the class in the text, in order |
| Text.RunsSplitAt | streamlit_app.py/pages/07_ai_support.py:2476 | a character outside the class ends a run: the runs of `a + [c] + b` are the runs of `a` then the runs of `b` |
| Text.RunsOfWholeRun | streamlit_app.py/pages/07_ai_support.py:2476 | a non-empty stretch of class characters is a single run |
| Text.Split | streamlit_app.py/pages/07_ai_support.py:2050 | `str.split()` yields tokens free of whitespace; they are maximal, by `Text.RunsSplitAt` and `Text.RunsOfWholeRun` |
| Text.SplitKeepsWordWhole | streamlit_app.py/pages/07_ai_support.py:2050 | "早朝" is one token, not "早" and "朝" |
| Text.SplitTwoWords | streamlit_app.py/pages/07_ai_support.py:2050 | two space-free words joined by a space split back into exactly those two tokens |
| Text.Words | streamlit_app.py/pages/07_ai_support.py:2476 | `findall(r'\b\w+\b')` yields non-empty matches; they are maximal, by `Text.RunsSplitAt` and `Text.RunsOfWholeRun` |
| Text.FirstMatch | streamlit_app.py/pages/07_ai_support.py:1703-1728 | the chosen group has a keyword in the text and no earlier group has; no group is chosen only when none hits |
| Intent.DetectIntent | streamlit_app.py/pages/07_ai_support.py:1698-1728 | the intent is a group's exactly when that group is the first whose keyword occurs in the lower-cased message; unknown exactly when no keyword occurs |
| Intent.Tag | streamlit_app.py/pages/07_ai_support.py:1704-1728 | every tag is non-empty, and the tag is "unknown" exactly for the unknown intent |
| Intent.TagInjective | streamlit_app.py/pages/07_ai_support.py:1704-1728 | the seven returned tags are distinct |
| Intent.MotivationFirst | streamlit_app.py/pages/07_ai_support.py:1703-1704 | any motivation keyword decides for motivation, whatever else the message mentions |
| Intent.GoalWhenNoMotivation | streamlit_app.py/pages/07_ai_support.py:1703-1708 | a message with a goal keyword is goal advice exactly when it has no motivation keyword |
| Intent.MixedMessageIsMotivation | streamlit_app.py/pages/07_ai_support.py:1703-1708 | "目標達成のやる気が出ない" is classified as motivation |
| Triggers.Keywords | streamlit_app.py/pages/07_ai_support.py:2476-2478 | the extracted keywords are the word runs of the lower-cased text that are neither stop words nor single characters, in their order and with their repetitions |
| Triggers.Push | streamlit_app.py/pages/07_ai_support.py:2482-2486 | a known keyword leaves the list alone; a new one is appended, the oldest entry dropped when the list would exceed ten; a duplicate-free list of at most ten stays so |
| Triggers.PushAll | streamlit_app.py/pages/07_ai_support.py:2481-2486 | after all keywords the list is still duplicate-free with at most ten entries, holds only old entries and keywords, and holds the last keyword |
| Triggers.AppendTriggers | streamlit_app.py/pages/07_ai_support.py:2481-2486 | the append-and-pop loop computes `PushAll` |
| Triggers.OnlyKeywordsAdded | streamlit_app.py/pages/07_ai_support.py:2476-2486 | an entry the update adds is a keyword of the text: neither a stop word nor a single character |
| Triggers.UserProfile.constructor | streamlit_app.py/pages/07_ai_support.py:264-268 | a fresh profile has empty trigger lists |
| Triggers.UserProfile.UpdateFromDailyLog | streamlit_app.py/pages/07_ai_support.py:2471-2502 | insights on a mood of 7 or more feed the motivation list, challenges on a mood of 4 or less feed the demotivation list, nothing else changes, and both lists stay duplicate-free with at most ten entries |
| Triggers.MiddlingMoodChangesNothing | streamlit_app.py/pages/07_ai_support.py:2472-2490 | a mood of 5 or 6 leaves both trigger lists unchanged |
| DailyFeedback.Opening | streamlit_app.py/pages/07_ai_support.py:2031-2045 | one mood sentence (8 or more, 5 or more, else) followed by one progress sentence with the same thresholds |
| DailyFeedback.InsightRemarks | streamlit_app.py/pages/07_ai_support.py:2048-2056 | the insight remarks are the early-rising and the focus remark, each present exactly when its words are whole tokens of the lower-cased non-empty insights |
| DailyFeedback.ChallengeRemarks | streamlit_app.py/pages/07_ai_support.py:2058-2066 | the challenge remarks are the time and the motivation remark, each present exactly when its words are whole tokens of the lower-cased non-empty challenges |
| DailyFeedback.RemarksOfShape | streamlit_app.py/pages/07_ai_support.py:2047-2066 | any combination of remarks comes out in the page's fixed order, each remark present exactly when its condition holds |
| DailyFeedback.KeywordRemarks | streamlit_app.py/pages/07_ai_support.py:2047-2066 | each keyword remark appears exactly when its word list meets a whitespace token of the lower-cased non-empty text, in the page's order |
| DailyFeedback.SubstringIsNoMention | streamlit_app.py/pages/07_ai_support.py:2050-2053 | "朝食" contains "朝" but is not the token "朝", so it prompts no early-rising remark |
| DailyFeedback.GenerateDailyFeedback | streamlit_app.py/pages/07_ai_support.py:2026-2079 | mood sentence, progress sentence, the keyword remarks that apply in order, and the chosen general advice last |
| DailyFeedback.OneOfEach | streamlit_app.py/pages/07_ai_support.py:2026-2079 | a feedback of that shape holds exactly one mood, one progress and one advice sentence |
| Calendar.Weekday | streamlit_app.py/pages/07_ai_support.py:1139 | `date.weekday()` lies in 0..6 |
| Calendar.WeekOf | streamlit_app.py/pages/07_ai_support.py:1138-1140 | the week starts on a Monday, contains today and spans seven days; it exists exactly when its Sunday is not after 9999-12-31 |
| Calendar.WeekStartUnique | streamlit_app.py/pages/07_ai_support.py:1139-1140 | any Monday within the six days up to today is the computed week start |
| Calendar.CivilFromOrdinal | streamlit_app.py/pages/07_ai_support.py:1142 | a date's year is 1..9999, month 1..12, day 1..31 |
| Calendar.IsoDate | streamlit_app.py/pages/07_ai_support.py:1142 | `%Y-%m-%d` is ten characters of digits and dashes; what the fields spell is `Calendar.IsoDateFields` |
| Calendar.Digits | streamlit_app.py/pages/07_ai_support.py:1142 | the decimal rendering is a non-empty string of digits, at most two for numbers below 100 and four below 10000 |
| Calendar.ZeroPad | streamlit_app.py/pages/07_ai_support.py:1142 | zero-padding gives digits only, of the requested width unless the number needs more |
| Calendar.DigitsValue | streamlit_app.py/pages/07_ai_support.py:1142 | the decimal digits of `n` spell `n` |
| Calendar.ZeroPadValue | streamlit_app.py/pages/07_ai_support.py:1142 | zero-padding leaves the number spelled unchanged |
| Calendar.IsoDateFields | streamlit_app.py/pages/07_ai_support.py:1142 | the year, month and day fields of the formatted date spell the civil date of the ordinal, separated by dashes |
| Calendar.WeekRange | streamlit_app.py/pages/07_ai_support.py:2084 | the key is the two formatted dates around the only underscore, so splitting at it recovers both |
| Calendar.IsoDateOfMinimum | streamlit_app.py/pages/07_ai_support.py:1142 | `date.min` formats as 0001-01-01 |
| Calendar.IsoDateOfExampleDay | streamlit_app.py/pages/07_ai_support.py:1139-1142 | ordinal 739903 formats as 2026-10-14 and is a Wednesday |
| WeeklyReport.StrategyPriority | streamlit_app.py/pages/07_ai_support.py:2144-2152 | 時間 beats モチベーション/やる気, which beat 集中; with none of them the first 20 characters are quoted |
| WeeklyReport.StrategyFor | streamlit_app.py/pages/07_ai_support.py:2144-2152 | never a default strategy; a generic strategy quotes the first 20 characters of the challenge |
| WeeklyReport.NonEmptyField | streamlit_app.py/pages/07_ai_support.py:2125-2137 | every collected insight or challenge is non-empty |
| WeeklyReport.InWeek | streamlit_app.py/pages/07_ai_support.py:2094 | the week's logs are the logs dated from start to end, both included, in log order, each as often as in the input |
| WeeklyReport.WinsInWeek | streamlit_app.py/pages/07_ai_support.py:2115 | the week's small wins are those dated from start to end, both included, in input order, each as often as in the input |
| WeeklyReport.NonEmptyFieldIsFilter | streamlit_app.py/pages/07_ai_support.py:2125-2137 | collecting non-empty values equals listing the field and dropping empty strings |
| WeeklyReport.NonEmptyFieldExact | streamlit_app.py/pages/07_ai_support.py:2125-2137 | the collection holds exactly the non-empty field values, as a subsequence of the field values in log order; their multiplicities are `WeeklyReport.NonEmptyFieldCount` |
| WeeklyReport.NonEmptyFieldCount | streamlit_app.py/pages/07_ai_support.py:2125-2137 | each non-empty value occurs in the collection once per log that carries it |
| WeeklyReport.WeekEntriesExact | streamlit_app.py/pages/07_ai_support.py:2094-2137 | a report entry is exactly a non-empty field value of a log dated within the week, both ends included |
| WeeklyReport.Descriptions | streamlit_app.py/pages/07_ai_support.py:2117-2119 | one description per small win, in order |
| WeeklyReport.ProposeStrategies | streamlit_app.py/pages/07_ai_support.py:2140-2165 | three strategies: one per challenge for the first three, then default strategies from the first |
| WeeklyReport.CollectNonEmpty | streamlit_app.py/pages/07_ai_support.py:2125-2128 | the collecting loop computes the non-empty field values |
| WeeklyReport.CollectDescriptions | streamlit_app.py/pages/07_ai_support.py:2112-2119 | the collecting loop computes the descriptions |
| WeeklyReport.GenerateWeeklyReport | streamlit_app.py/pages/07_ai_support.py:2081-2178 | the report's range key, the week's logs, at most five wins, insights and challenges, and the three strategies derived from the week's challenges |
| CustomStrategy.TimePlanMonotone | streamlit_app.py/pages/07_ai_support.py:2186-2214 | more available minutes never select a plan for less time |
| CustomStrategy.MotivationPlanMonotone | streamlit_app.py/pages/07_ai_support.py:2216-2245 | a higher motivation level never selects a plan for lower motivation |
| CustomStrategy.TimePlanOf | streamlit_app.py/pages/07_ai_support.py:2186-2214 | short sessions exactly for at most 15 minutes, Pomodoro sessions for 16 to 45, structured blocks above 45 |
| CustomStrategy.MotivationPlanOf | streamlit_app.py/pages/07_ai_support.py:2216-2245 | start small exactly for a level of at most 3, sustain for 4 to 7, exploit above 7 |
| CustomStrategy.FocusKey | streamlit_app.py/pages/07_ai_support.py:2247-2308 | a known focus area shows its own section, any other shows the "その他" section |
| CustomStrategy.ObstaclePlanOf | streamlit_app.py/pages/07_ai_support.py:2310-2359 | no section for an empty obstacle; else the first keyword group found; else a generic section quoting `obstacle[:50]` |
| CustomStrategy.ProfilePlanOf | streamlit_app.py/pages/07_ai_support.py:2364-2382 | the short-term section exactly for "short_term", the long-term section exactly for "long_term", none otherwise |
| CustomStrategy.GenerateCustomStrategy | streamlit_app.py/pages/07_ai_support.py:2180-2401 | the heading names the focus area; the time and motivation sections follow their thresholds; the obstacle section is none exactly for an empty obstacle, else the first keyword group found, else generic quoting the first 50 characters; the profile section matches the stored goal pattern |
| EmotionExport.FirstGarbled | streamlit_app.py/export_filtered_emotion_logs.py:30 | the first record whose date cannot be converted |
| EmotionExport.FilterByDate | streamlit_app.py/export_filtered_emotion_logs.py:18-36 | empty for no data or no date column; an error exactly when a date string cannot be parsed; otherwise the records dated on or after the start, each as often as in the input |
| EmotionExport.FilterByDateKeepsOrder | streamlit_app.py/export_filtered_emotion_logs.py:34 | the kept records keep their input order |
| EmotionExport.FilterByDateBoundary | streamlit_app.py/export_filtered_emotion_logs.py:34 | a record dated exactly at the start is kept, one dated just before is dropped |

## Left out

- Streamlit rendering, page navigation, forms, buttons and `st.session_state`: user interface only.
- Loading and saving the JSON data files, the CSV export, the summary printout and `main` of the export script: file I/O.
- `generate_ai_response` and the response generators it dispatches to: they pick texts with `random.choice`; only the intent decision is modelled.
- The random pick of the general advice: `GenerateDailyFeedback` takes the chosen index as a parameter.
- The wording of sentences and HTML sections: each is a constructor of a datatype.
- The rest of `update_user_profile_from_daily_log` (goal pattern, productive time, learning style, personality traits, strengths from habits and tasks, `last_updated`): pandas and floating-point statistics.
- The profile's `goal_pattern` classification: `GenerateCustomStrategy` receives the stored value as a parameter.
- The `generated_at` timestamp of a weekly report and `datetime.now()` in `show_weekly_report`: clock reads; today is a parameter of `Calendar.WeekOf`.
- The streak, achievement and points logic of the application: it is not in the two modelled files.
- `Text.LowerChar`: maps only ASCII and full-width Latin capitals; the rest of Python's Unicode case mapping is not modelled.
- `Triggers.Keywords`: the `\w` character class of Python's `re` is the parameter `isWord`, not a fixed table.
- `Calendar.IsoDate`: pads years below 1000 to four digits; glibc's `strftime('%Y')` prints them unpadded.
- `Calendar.CivilFromOrdinal`: only range bounds and two fixed dates are proved, not the inverse conversion.
- `WeeklyReport.GenerateWeeklyReport`: the daily entries keep dates as ordinals rather than re-formatted strings; pandas NaN cells and records missing a column are not modelled (the records are typed).
- `EmotionExport.FilterByDate`: dates are integer time points and the parsing of the start string is not modelled; the output table's columns and dtypes are not modelled.
- The stored profile's missing trigger keys (a `KeyError` in the source) are not modelled: `UserProfile` always has both lists.
- Filter (`Seqs.Filter`): its own ensures state membership in both directions only; how often each element is kept is the separate lemma `Seqs.FilterCount` and the order is `Seqs.FilterIsSubseq`, because one more clause on `Filter` puts the proofs that use it over the resource limit.
- NonEmptyFieldExact (`WeeklyReport.NonEmptyFieldExact`): states membership and order; the multiplicity of each collected value is the separate lemma `WeeklyReport.NonEmptyFieldCount`, for the same resource reason.
