/** Calendar arithmetic of the weekly report page. A date is Python's
    proleptic Gregorian ordinal (`date.toordinal()`): 0001-01-01 is day 1 and
    was a Monday, so `date.weekday()` is `(d + 6) % 7`. */
module Calendar {
  import opened Seqs

  /** `date.min` and `date.max` as ordinals: 0001-01-01 and 9999-12-31. */
  const MinOrdinal: int := 1
  const MaxOrdinal: int := 3652059

  datatype Option<T> = None | Some(value: T)

  predicate IsDate(d: int)
  {
    MinOrdinal <= d <= MaxOrdinal
  }

  /** `date.weekday()`: Monday is 0, Sunday is 6. */
  function Weekday(d: int): (w: nat)
    ensures w < 7
  {
    (d + 6) % 7
  }

  /** The week `show_weekly_report` reports on: `start = today - weekday(today)`,
      `end = start + 6`. Python's `date` raises `OverflowError` when `end`
      would fall after `date.max`; that week is `None` here. */
  function WeekOf(today: int): (w: Option<(int, int)>)
    requires IsDate(today)
    ensures w.Some? <==> today - Weekday(today) + 6 <= MaxOrdinal
    ensures w.Some? ==> var (start, end) := w.value;
      && start <= today <= end
      && end - start == 6
      && Weekday(start) == 0
      && IsDate(start) && IsDate(end)
  {
    var start := today - Weekday(today);
    var end := start + 6;
    if end <= MaxOrdinal then Some((start, end)) else None
  }

  /** There is only one such week: any Monday at most six days before `today`
      is the start that `WeekOf` computes. */
  lemma {:induction false} WeekStartUnique(today: int, monday: int)
    requires IsDate(today) && Weekday(monday) == 0 && monday <= today <= monday + 6
    requires today - Weekday(today) + 6 <= MaxOrdinal
    ensures WeekOf(today) == Some((monday, monday + 6))
  {
    var k := today - monday;
    assert 0 <= k <= 6;
    assert (monday + 6) % 7 == 0;
    assert today + 6 == (monday + 6) + k;
    assert (today + 6) % 7 == k;
  }

  /** The civil date (year, month, day) of an ordinal, by the days-from-civil
      inversion that counts years from 1 March so that the leap day comes last. */
  function CivilFromOrdinal(d: int): (ymd: (int, int, int))
    requires IsDate(d)
    ensures 1 <= ymd.1 <= 12 && 1 <= ymd.2 <= 31
    ensures 1 <= ymd.0 <= 9999
  {
    var z := d + 305;                       // days since 0000-03-01
    var era := z / 146097;                  // 400-year cycles
    var doe := z - era * 146097;            // day of the cycle, 0..146096
    var yoe := (doe - doe / 1460 + doe / 36524 - doe / 146096) / 365;
    var doy := doe - (365 * yoe + yoe / 4 - yoe / 100);
    var mp := (5 * doy + 2) / 153;          // month counted from March, 0..11
    var day := doy - (153 * mp + 2) / 5 + 1;
    var month := if mp < 10 then mp + 3 else mp - 9;
    var year := yoe + era * 400 + (if month <= 2 then 1 else 0);
    assert era <= 24 && (era == 24 ==> doe <= 146036);
    assert era == 24 && yoe == 399 ==> doy <= 305 && mp <= 9;
    assert era == 0 && yoe == 0 ==> doy >= 306 && mp >= 10;
    (year, month, day)
  }

  /** Decimal digits of `n` with no leading zeros ("0" for zero). */
  function Digits(n: nat): (s: string)
    ensures |s| >= 1
    ensures forall i :: 0 <= i < |s| ==> '0' <= s[i] <= '9'
    ensures n < 100 ==> |s| <= 2
    ensures n < 10000 ==> |s| <= 4
  {
    if n < 10 then [('0' as int + n) as char] else Digits(n / 10) + [('0' as int + n % 10) as char]
  }

  /** `%0<width>d`: left-padded with zeros to at least `width` characters. */
  function ZeroPad(n: nat, width: nat): (s: string)
    ensures |s| == if |Digits(n)| >= width then |Digits(n)| else width
    ensures forall i :: 0 <= i < |s| ==> '0' <= s[i] <= '9'
  {
    var ds := Digits(n);
    if |ds| >= width then ds else seq(width - |ds|, _ => '0') + ds
  }

  /** `strftime('%Y-%m-%d')`. */
  function IsoDate(d: int): (s: string)
    requires IsDate(d)
    ensures |s| == 10
    ensures forall i :: 0 <= i < |s| ==> s[i] == '-' || '0' <= s[i] <= '9'
  {
    var (y, m, day) := CivilFromOrdinal(d);
    ZeroPad(y, 4) + "-" + ZeroPad(m, 2) + "-" + ZeroPad(day, 2)
  }

  /** The number a string of decimal digits spells, most significant first. */
  function DecimalValue(s: string): (v: int)
    ensures s == [] ==> v == 0
  {
    if s == [] then 0 else DecimalValue(s[..|s| - 1]) * 10 + (s[|s| - 1] as int - '0' as int)
  }

  /** `Digits` spells its argument. */
  lemma {:induction false} DigitsValue(n: nat)
    ensures DecimalValue(Digits(n)) == n
  {
    if n >= 10 {
      var ds := Digits(n);
      assert ds[..|ds| - 1] == Digits(n / 10);
      DigitsValue(n / 10);
    }
  }

  lemma {:induction false} ZerosValue(k: nat)
    ensures DecimalValue(seq(k, _ => '0')) == 0
  {
    if k > 0 {
      assert seq(k, _ => '0')[..k - 1] == seq(k - 1, _ => '0');
      ZerosValue(k - 1);
    }
  }

  /** Leading zeros do not change the value. */
  lemma {:induction false} LeadingZerosValue(k: nat, ds: string)
    ensures DecimalValue(seq(k, _ => '0') + ds) == DecimalValue(ds)
  {
    var zs := seq(k, _ => '0');
    if ds == [] {
      assert zs + ds == zs;
      ZerosValue(k);
    } else {
      var s := zs + ds;
      assert s[..|s| - 1] == zs + ds[..|ds| - 1];
      LeadingZerosValue(k, ds[..|ds| - 1]);
    }
  }

  /** Padding keeps the number: `%0<width>d` spells `n`. */
  lemma ZeroPadValue(n: nat, width: nat)
    ensures DecimalValue(ZeroPad(n, width)) == n
  {
    DigitsValue(n);
    var ds := Digits(n);
    if |ds| < width {
      LeadingZerosValue(width - |ds|, ds);
    }
  }

  /** The fields of `%Y-%m-%d` spell the civil date: the year in the first four
      characters, the month and the day in the two-character fields after the
      dashes. */
  lemma IsoDateFields(d: int)
    requires IsDate(d)
    ensures var s := IsoDate(d);
      && DecimalValue(s[..4]) == CivilFromOrdinal(d).0
      && s[4] == '-'
      && DecimalValue(s[5..7]) == CivilFromOrdinal(d).1
      && s[7] == '-'
      && DecimalValue(s[8..]) == CivilFromOrdinal(d).2
  {
    var (y, m, day) := CivilFromOrdinal(d);
    var ys, ms, dd := ZeroPad(y, 4), ZeroPad(m, 2), ZeroPad(day, 2);
    ZeroPadValue(y, 4);
    ZeroPadValue(m, 2);
    ZeroPadValue(day, 2);
    var s := ys + "-" + ms + "-" + dd;
    assert IsoDate(d) == s;
    assert |ys| == 4 && |ms| == 2 && |dd| == 2;
    assert s[..4] == ys;
    assert s[5..7] == ms;
    assert s[8..] == dd;
  }

  /** The `week_range` key of a weekly report, `"<start>_<end>"`. Formatted dates
      hold no underscore, so the key splits back into the two formatted dates. */
  function WeekRange(start: int, end: int): (r: string)
    requires IsDate(start) && IsDate(end)
    ensures |r| == 21
    ensures forall i :: 0 <= i < |r| ==> (r[i] == '_' <==> i == 10)
    ensures r[..10] == IsoDate(start)
    ensures r[11..] == IsoDate(end)
  {
    var a, b := IsoDate(start), IsoDate(end);
    JoinAtUnderscore(a, b);
    a + "_" + b
  }

  lemma JoinAtUnderscore(a: string, b: string)
    requires forall i :: 0 <= i < |a| ==> a[i] != '_'
    requires forall i :: 0 <= i < |b| ==> b[i] != '_'
    ensures var r := a + "_" + b;
      && (forall i :: 0 <= i < |r| ==> (r[i] == '_' <==> i == |a|))
      && r[..|a|] == a && r[|a| + 1..] == b
  {
    var r := a + "_" + b;
    assert forall i :: |a| < i < |r| ==> r[i] == b[i - |a| - 1];
    assert r[|a| + 1..] == b;
  }

  /** `date.min` formats as 0001-01-01. */
  lemma IsoDateOfMinimum()
    ensures IsoDate(1) == "0001-01-01"
  {
    CivilOfMinimum();
    DigitsOfMinimum();
    assert ZeroPad(1, 4) + "-" + ZeroPad(1, 2) + "-" + ZeroPad(1, 2) == "0001-01-01";
  }

  lemma CivilOfMinimum()
    ensures CivilFromOrdinal(1) == (1, 1, 1)
  {
    assert 306 / 146097 == 0;
    assert 306 / 1460 == 0 && 306 / 36524 == 0 && 306 / 146096 == 0 && 306 / 365 == 0;
    assert (5 * 306 + 2) / 153 == 10;
    assert (153 * 10 + 2) / 5 == 306;
  }

  lemma DigitsOfMinimum()
    ensures ZeroPad(1, 4) == "0001" && ZeroPad(1, 2) == "01"
  {
    assert Digits(1) == "1";
  }

  /** Day 739903 is Wednesday 2026-10-14. */
  lemma IsoDateOfExampleDay()
    ensures IsoDate(739903) == "2026-10-14"
    ensures Weekday(739903) == 2
  {
    CivilOfExampleDay();
    DigitsOfExampleDay();
  }

  lemma CivilOfExampleDay()
    ensures CivilFromOrdinal(739903) == (2026, 10, 14)
  {
    assert 740208 / 146097 == 5 && 740208 - 5 * 146097 == 9723;
    assert 9723 / 1460 == 6 && 9723 / 36524 == 0 && 9723 / 146096 == 0;
    assert 9717 / 365 == 26 && 26 / 4 == 6 && 26 / 100 == 0;
    assert (5 * 227 + 2) / 153 == 7;
    assert (153 * 7 + 2) / 5 == 214;
  }

  lemma DigitsOfExampleDay()
    ensures ZeroPad(2026, 4) == "2026" && ZeroPad(10, 2) == "10" && ZeroPad(14, 2) == "14"
  {
    assert Digits(2026) == "2026";
    assert Digits(10) == "10";
    assert Digits(14) == "14";
  }
}
