/**
 * `formatDateTime` (tinyChart.js) and `formatDate` (demo.js): a point's
 * local date as `year/month/day` or its time as `hh:mm:ss`. Turning a
 * timestamp into local calendar fields belongs to the JavaScript `Date`
 * object and is not modelled: the fields come in as a value.
 */
module Dates {

  import opened Decimal

  /** What `getFullYear`, `getMonth`, `getDate`, `getHours`, `getMinutes` and `getSeconds` return. */
  datatype DateFields = DateFields(year: int, month: int, day: int, hours: int, minutes: int, seconds: int)

  /** Fields a real local time can have; `month` counts from 0 as `getMonth` does. */
  predicate ValidFields(d: DateFields)
  {
    0 <= d.month < 12 && 1 <= d.day <= 31 && 0 <= d.hours < 24 && 0 <= d.minutes < 60 && 0 <= d.seconds < 60
  }

  /** `n < 10 ? '0' + n : n` */
  function Pad2(n: int): string
  {
    if n < 10 then "0" + IntToString(n) else IntToString(n)
  }

  /** `isDate ? `${year}/${month}/${day}` : `${hours}:${minutes}:${seconds}``, with the hour, minute and second padded. */
  function FormatDateTime(d: DateFields, isDate: bool): string
  {
    if isDate then IntToString(d.year) + "/" + IntToString(d.month) + "/" + IntToString(d.day)
    else Pad2(d.hours) + ":" + Pad2(d.minutes) + ":" + Pad2(d.seconds)
  }

  /** Any clock field from 0 to 99 prints as exactly two digits that read back as the field. */
  lemma Pad2TwoDigits(n: int)
    requires 0 <= n < 100
    ensures |Pad2(n)| == 2 && IsDigits(Pad2(n))
    ensures DigitsValue(Pad2(n)) == n
  {
    var s := Pad2(n);
    NatToStringRoundTrip(n);
    if n < 10 {
      assert s == "0" + NatToString(n);
      assert s[..1] == "0";
    } else {
      assert NatToString(n) == NatToString(n / 10) + [Digit(n % 10)];
    }
  }

  /**
   * A valid time prints as `hh:mm:ss`: eight characters, colons at 2 and 5,
   * and each two-digit group reads back as its field.
   */
  lemma TimeTextRoundTrip(d: DateFields)
    requires ValidFields(d)
    ensures var s := FormatDateTime(d, false);
            && |s| == 8 && s[2] == ':' && s[5] == ':'
            && IsDigits(s[0..2]) && IsDigits(s[3..5]) && IsDigits(s[6..8])
            && DigitsValue(s[0..2]) == d.hours
            && DigitsValue(s[3..5]) == d.minutes
            && DigitsValue(s[6..8]) == d.seconds
  {
    Pad2TwoDigits(d.hours);
    Pad2TwoDigits(d.minutes);
    Pad2TwoDigits(d.seconds);
    var s := FormatDateTime(d, false);
    assert s[0..2] == Pad2(d.hours);
    assert s[3..5] == Pad2(d.minutes);
    assert s[6..8] == Pad2(d.seconds);
  }

  /**
   * The date text is three integers joined by '/': cutting it at the two
   * separators gives back the printed year, month and day, unpadded, with the
   * month the zero-based one. DateYearReadsBack and its siblings read each
   * part back as its field.
   */
  lemma DateTextRoundTrip(d: DateFields)
    ensures var y, m, z := IntToString(d.year), IntToString(d.month), IntToString(d.day);
            var s := FormatDateTime(d, true);
            && |y| + 1 + |m| + 1 < |s|
            && s[|y|] == '/' && s[|y| + 1 + |m|] == '/'
            && s[..|y|] == y
            && s[|y| + 1..|y| + 1 + |m|] == m
            && s[|y| + 2 + |m|..] == z
  {
    JoinedParts(FormatDateTime(d, true), IntToString(d.year), IntToString(d.month), IntToString(d.day));
  }

  /** The text before the first '/' reads back as the year. */
  lemma DateYearReadsBack(d: DateFields)
    ensures var s := FormatDateTime(d, true);
            var a := |IntToString(d.year)|;
            a < |s| && s[a] == '/' && IntText(s[..a]) && ParseInt(s[..a]) == d.year
  {
    DateTextRoundTrip(d);
    IntToStringRoundTrip(d.year);
  }

  /** The text between the two '/' reads back as the zero-based month. */
  lemma DateMonthReadsBack(d: DateFields)
    ensures var s := FormatDateTime(d, true);
            var a := |IntToString(d.year)|;
            var b := |IntToString(d.month)|;
            a + 1 + b < |s| && s[a] == '/' && s[a + 1 + b] == '/'
            && IntText(s[a + 1..a + 1 + b]) && ParseInt(s[a + 1..a + 1 + b]) == d.month
  {
    DateTextRoundTrip(d);
    IntToStringRoundTrip(d.month);
  }

  /** The text after the second '/' reads back as the day. */
  lemma DateDayReadsBack(d: DateFields)
    ensures var s := FormatDateTime(d, true);
            var a := |IntToString(d.year)|;
            var b := |IntToString(d.month)|;
            a + 1 + b < |s| && s[a + 1 + b] == '/'
            && IntText(s[a + 2 + b..]) && ParseInt(s[a + 2 + b..]) == d.day
  {
    DateTextRoundTrip(d);
    IntToStringRoundTrip(d.day);
  }

  /** Three parts joined by '/', the last one nonempty, can be cut apart again at the two separators. */
  lemma JoinedParts(s: string, y: string, m: string, z: string)
    requires 1 <= |z| && s == y + "/" + m + "/" + z
    ensures && |y| + 1 + |m| + 1 < |s|
            && s[|y|] == '/' && s[|y| + 1 + |m|] == '/'
            && s[..|y|] == y
            && s[|y| + 1..|y| + 1 + |m|] == m
            && s[|y| + 2 + |m|..] == z
  {
    assert s[..|y|] == y;
    assert s[|y| + 1..|y| + 1 + |m|] == m;
    assert s[|y| + 2 + |m|..] == z;
  }

  /** 5 January 2020, 09:05:03 local time: the month shows as 0, the clock fields padded. */
  lemma JanuaryShowsAsZero()
    ensures FormatDateTime(DateFields(2020, 0, 5, 9, 5, 3), true) == "2020/0/5"
    ensures FormatDateTime(DateFields(2020, 0, 5, 9, 5, 3), false) == "09:05:03"
  {
    assert NatToString(2020) == "2020" by {
      assert NatToString(2) == "2";
      assert NatToString(20) == "20";
      assert NatToString(202) == "202";
    }
    assert IntToString(0) == "0";
  }
}
