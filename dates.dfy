/** The date operations the core relies on: the numeric tokens of date-fns
    `format` (`MM`, `dd`, `yyyy`), the three patterns the components use, and
    the `Date` values built by `parse` and `setHours`. */
module Dates {
  import opened Types

  predicate IsDigit(c: char)
  {
    '0' <= c <= '9'
  }

  predicate AllDigits(s: string)
  {
    forall i :: 0 <= i < |s| ==> IsDigit(s[i])
  }

  function DigitChar(n: nat): (c: char)
    requires n < 10
    ensures IsDigit(c) && c as int - '0' as int == n
  {
    ('0' as int + n) as char
  }

  /** The number a string of decimal digits denotes; the reading that the
      formatting functions below are proved against. */
  function DigitsValue(s: string): nat
    requires AllDigits(s)
  {
    if s == [] then 0
    else 10 * DigitsValue(s[..|s| - 1]) + (s[|s| - 1] as int - '0' as int)
  }

  function Pow10(w: nat): (p: nat)
    ensures p >= 1
  {
    if w == 0 then 1 else 10 * Pow10(w - 1)
  }

  /** `n` in decimal, left-padded with zeros to at least `width` digits (a
      numeric token of `format`: `MM` is width 2, `yyyy` width 4). A wider
      number gets no leading zero: a leading `0` on more than one digit
      means the field is exactly `width` long. */
  function Pad(n: nat, width: nat): (s: string)
    ensures AllDigits(s)
    ensures |s| >= 1 && |s| >= width
    ensures 1 <= width && n < Pow10(width) ==> |s| == width
    ensures |s| > 1 && s[0] == '0' ==> |s| == width
    decreases n, width
  {
    if n < 10 && width <= 1 then [DigitChar(n)]
    else
      assert 1 <= width && n < Pow10(width) ==> n / 10 < Pow10(width - 1);
      var w' := if width == 0 then 0 else width - 1;
      var head := Pad(n / 10, w');
      assert |head| == 1 && head[0] == '0' ==> n / 10 == 0 && w' == 1;
      head + [DigitChar(n % 10)]
  }

  /** Reading a padded number back gives the number: the leading zeros add
      nothing and no digit is lost. */
  lemma {:induction false} PadValue(n: nat, width: nat)
    ensures DigitsValue(Pad(n, width)) == n
    decreases n, width
  {
    var s := Pad(n, width);
    if n < 10 && width <= 1 {
      assert s[..0] == [];
    } else {
      var w' := if width == 0 then 0 else width - 1;
      PadValue(n / 10, w');
      assert s[..|s| - 1] == Pad(n / 10, w');
    }
  }

  /** A field of fixed width: exactly `width` digits that read back as `n`. */
  lemma PadField(n: nat, width: nat)
    requires 1 <= width && n < Pow10(width)
    ensures |Pad(n, width)| == width && DigitsValue(Pad(n, width)) == n
  {
    PadValue(n, width);
  }

  /** Two fixed-width fields that print the same hold the same number. */
  lemma PadInjective(m: nat, n: nat, width: nat)
    requires Pad(m, width) == Pad(n, width)
    ensures m == n
  {
    PadValue(m, width);
    PadValue(n, width);
  }

  /** A field is exactly `width` digits precisely when the number fits. */
  lemma {:induction false} PadWidth(n: nat, width: nat)
    requires 1 <= width
    ensures |Pad(n, width)| == width <==> n < Pow10(width)
    decreases n, width
  {
    if !(n < 10 && width <= 1) {
      if width > 1 {
        PadWidth(n / 10, width - 1);
        assert n / 10 < Pow10(width - 1) <==> n < 10 * Pow10(width - 1);
      }
    }
  }

  /** Three digit fields written one after the other, the last two of width
      two, can be cut apart again. */
  lemma DigitFields(a: string, b: string, c: string)
    requires AllDigits(a) && AllDigits(b) && AllDigits(c) && |b| == 2 && |c| == 2
    ensures var s := a + b + c;
      && AllDigits(s) && |s| == |a| + 4
      && s[..|s| - 4] == a && s[|s| - 4..|s| - 2] == b && s[|s| - 2..] == c
  {
    var s := a + b + c;
    assert s[..|s| - 4] == a;
    assert s[|s| - 4..|s| - 2] == b;
    assert s[|s| - 2..] == c;
  }

  /** Two two-character fields and a third, slash-separated, can be cut
      apart again. */
  lemma SlashFields(a: string, b: string, c: string)
    requires |a| == 2 && |b| == 2
    ensures var s := a + "/" + b + "/" + c;
      && |s| == |c| + 6 && s[2] == '/' && s[5] == '/'
      && s[0..2] == a && s[3..5] == b && s[6..] == c
  {
    var s := a + "/" + b + "/" + c;
    assert s[0..2] == a;
    assert s[3..5] == b;
    assert s[6..] == c;
  }

  /** A field, then two two-character fields, dash-separated, can be cut
      apart again. */
  lemma DashFields(a: string, b: string, c: string)
    requires |b| == 2 && |c| == 2
    ensures var s := a + "-" + b + "-" + c;
      && |s| == |a| + 6 && s[|s| - 6] == '-' && s[|s| - 3] == '-'
      && s[..|s| - 6] == a && s[|s| - 5..|s| - 3] == b && s[|s| - 2..] == c
  {
    var s := a + "-" + b + "-" + c;
    assert s[..|s| - 6] == a;
    assert s[|s| - 5..|s| - 3] == b;
    assert s[|s| - 2..] == c;
  }

  /** `format(d, 'MM/dd/yyyy')`: the one-based month and the day as two
      digits each, then the year with at least four digits, slash-separated;
      ten characters for a four-digit year, and no leading zero on a longer
      one. */
  function FormatMonthDayYear(d: CalendarDate): (s: string)
    ensures |s| >= 10 && s[2] == '/' && s[5] == '/'
    ensures AllDigits(s[0..2]) && DigitsValue(s[0..2]) == d.month + 1
    ensures AllDigits(s[3..5]) && DigitsValue(s[3..5]) == d.day
    ensures AllDigits(s[6..]) && DigitsValue(s[6..]) == d.year
    ensures d.year < 10000 <==> |s| == 10
    ensures |s| > 10 ==> s[6] != '0'
  {
    var m, dd, y := Pad(d.month + 1, 2), Pad(d.day, 2), Pad(d.year, 4);
    PadField(d.month + 1, 2);
    PadField(d.day, 2);
    PadValue(d.year, 4);
    PadWidth(d.year, 4);
    SlashFields(m, dd, y);
    m + "/" + dd + "/" + y
  }

  /** `format(d, 'yyyyMMdd')`: the year with at least four digits, then the
      one-based month and the day as two digits each; eight characters for
      a four-digit year, and no leading zero on a longer one. */
  function FormatCompact(d: CalendarDate): (s: string)
    ensures |s| >= 8 && AllDigits(s)
    ensures DigitsValue(s[..|s| - 4]) == d.year
    ensures DigitsValue(s[|s| - 4..|s| - 2]) == d.month + 1
    ensures DigitsValue(s[|s| - 2..]) == d.day
    ensures d.year < 10000 <==> |s| == 8
    ensures |s| > 8 ==> s[0] != '0'
  {
    var y, m, dd := Pad(d.year, 4), Pad(d.month + 1, 2), Pad(d.day, 2);
    PadField(d.month + 1, 2);
    PadField(d.day, 2);
    PadValue(d.year, 4);
    PadWidth(d.year, 4);
    DigitFields(y, m, dd);
    y + m + dd
  }

  /** `format(d, 'yyyy-MM-dd')`, the value of an `<input type="date">`: the
      year with at least four digits, then the one-based month and the day
      as two digits each, dash-separated; ten characters for a four-digit
      year, and no leading zero on a longer one. */
  function FormatIso(d: CalendarDate): (s: string)
    ensures |s| >= 10 && s[|s| - 6] == '-' && s[|s| - 3] == '-'
    ensures AllDigits(s[..|s| - 6]) && DigitsValue(s[..|s| - 6]) == d.year
    ensures AllDigits(s[|s| - 5..|s| - 3]) && DigitsValue(s[|s| - 5..|s| - 3]) == d.month + 1
    ensures AllDigits(s[|s| - 2..]) && DigitsValue(s[|s| - 2..]) == d.day
    ensures d.year < 10000 <==> |s| == 10
    ensures |s| > 10 ==> s[0] != '0'
  {
    var y, m, dd := Pad(d.year, 4), Pad(d.month + 1, 2), Pad(d.day, 2);
    PadField(d.month + 1, 2);
    PadField(d.day, 2);
    PadValue(d.year, 4);
    PadWidth(d.year, 4);
    DashFields(y, m, dd);
    y + "-" + m + "-" + dd
  }

  /** `yyyyMMdd` names a date uniquely. */
  lemma CompactInjective(a: CalendarDate, b: CalendarDate)
    requires FormatCompact(a) == FormatCompact(b)
    ensures a == b
  {
  }

  /** `parse(s, 'yyyy-MM-dd', ...)`: local midnight of the day. */
  function StartOfDay(d: CalendarDate): (t: Instant)
    ensures t.date == d
    ensures forall u: Instant :: u.date == d ==> InstantLe(t, u)
  {
    Instant(d, 0)
  }

  /** `t.setHours(h, m, s)`: same day, the clock set to h:m:s, the
      milliseconds left as they were. */
  function SetHours(t: Instant, h: nat, m: nat, s: nat): (r: Instant)
    requires h < 24 && m < 60 && s < 60
    ensures r.date == t.date
    ensures r.time / 1000 == (h * 60 + m) * 60 + s
    ensures r.time % 1000 == t.time % 1000
  {
    Instant(t.date, ((h * 60 + m) * 60 + s) * 1000 + t.time % 1000)
  }
}
