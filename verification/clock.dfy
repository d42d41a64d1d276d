/**
 The hour labels of the per-hour grouping.

 The dashboard turns a booking's epoch-millisecond timestamp into a `Date`
 and formats `getHours()` followed by ":00". The local-time decomposition
 depends on the host's time zone, so it enters the model as a parameter
 `hourOf` that yields an hour of the day. A timestamp whose magnitude
 exceeds the largest time value makes an invalid date, whose hour reads
 as NaN, so such bookings land under the label "NaN:00".
 */
module Clock {
  import opened Wrappers

  /** An hour of the local day, as `Date.getHours()` reports it for a valid date. */
  type Hour = h: int | 0 <= h < 24

  /** Largest magnitude, in milliseconds, of a time value a `Date` can hold. */
  const MaxTimeValue: int := 8_640_000_000_000_000

  /** Every hour label ends with this suffix. */
  const Suffix: string := ":00"

  /** The label of a booking whose timestamp does not make a valid date. */
  const InvalidHourLabel: string := "NaN:00"

  /** True when `new Date(ts)` is a valid date. */
  predicate ValidTime(ts: int) {
    -MaxTimeValue <= ts <= MaxTimeValue
  }

  predicate IsDigit(c: char) {
    '0' <= c <= '9'
  }

  function Digit(d: int): (c: char)
    requires 0 <= d < 10
    ensures IsDigit(c)
  {
    ('0' as int + d) as char
  }

  function DigitValue(c: char): (d: int)
    requires IsDigit(c)
    ensures 0 <= d < 10
  {
    c as int - '0' as int
  }

  /** Decimal text of an hour, without a leading zero ("0" … "23"). */
  function HourText(h: Hour): string {
    if h < 10 then [Digit(h)] else [Digit(h / 10), Digit(h % 10)]
  }

  /** The key under which a booking made at `ts` is grouped. */
  function HourLabel(hourOf: int -> Hour, ts: int): string {
    if ValidTime(ts) then HourText(hourOf(ts)) + Suffix else InvalidHourLabel
  }

  /** Reads an hour label back: the decimal hour in front of ":00", with no leading zero. */
  function ParseHourLabel(s: string): Option<Hour> {
    if |s| < 4 || s[|s| - 3..] != Suffix then None
    else
      var ds := s[..|s| - 3];
      if |ds| == 1 && IsDigit(ds[0]) then
        Some(DigitValue(ds[0]))
      else if |ds| == 2 && IsDigit(ds[0]) && IsDigit(ds[1]) && ds[0] != '0'
              && DigitValue(ds[0]) * 10 + DigitValue(ds[1]) < 24 then
        Some(DigitValue(ds[0]) * 10 + DigitValue(ds[1]))
      else None
  }

  /** Every hour's label parses back to that hour. */
  lemma HourLabelRoundTrip(h: Hour)
    ensures ParseHourLabel(HourText(h) + Suffix) == Some(h)
  {
    var s := HourText(h) + Suffix;
    assert s[|s| - 3..] == Suffix;
    assert s[..|s| - 3] == HourText(h);
  }

  /** A label that parses is exactly the label of the hour it parses to. */
  lemma ParseHourLabelCanonical(s: string, h: Hour)
    requires ParseHourLabel(s) == Some(h)
    ensures s == HourText(h) + Suffix
  {
    var ds := s[..|s| - 3];
    assert s == ds + s[|s| - 3..];
    if |ds| == 1 {
      assert ds == [Digit(h)];
    } else {
      assert ds == [Digit(h / 10), Digit(h % 10)];
    }
  }

  /** Distinct hours get distinct labels. */
  lemma HourLabelInjective(h1: Hour, h2: Hour)
    requires HourText(h1) + Suffix == HourText(h2) + Suffix
    ensures h1 == h2
  {
    HourLabelRoundTrip(h1);
    HourLabelRoundTrip(h2);
  }

  /**
   A booking's label is the hour label of its local hour when its timestamp
   makes a valid date, and "NaN:00" (which is no hour's label) otherwise.
   */
  lemma HourLabelShape(hourOf: int -> Hour, ts: int)
    ensures ValidTime(ts) ==> ParseHourLabel(HourLabel(hourOf, ts)) == Some(hourOf(ts))
    ensures !ValidTime(ts) <==> HourLabel(hourOf, ts) == InvalidHourLabel
    ensures ParseHourLabel(InvalidHourLabel) == None
  {
    if ValidTime(ts) {
      HourLabelRoundTrip(hourOf(ts));
    }
    InvalidLabelIsNoHour();
  }

  /** The invalid-date label is not the label of any hour. */
  lemma InvalidLabelIsNoHour()
    ensures ParseHourLabel(InvalidHourLabel) == None
  {
    assert InvalidHourLabel[..3] == "NaN";
  }

  /** The labels the per-hour grouping can produce: an hour's label or the invalid-date label. */
  predicate WellFormedLabel(s: string) {
    s == InvalidHourLabel || ParseHourLabel(s).Some?
  }

  /** Position of a label among the 25 possible ones: its hour, or 24 for the invalid-date label. */
  function LabelCode(s: string): int {
    match ParseHourLabel(s)
    case Some(h) => h
    case None => 24
  }

  /** The code of a label is below 25, and below 24 when it parses to an hour. */
  lemma LabelCodeBound(s: string)
    ensures LabelCode(s) < 25
    ensures ParseHourLabel(s).Some? ==> LabelCode(s) < 24
  {
  }

  /** Well-formed labels are told apart by their code, so there are at most 25 of them. */
  lemma LabelCodeInjective(s1: string, s2: string)
    requires WellFormedLabel(s1) && WellFormedLabel(s2)
    requires LabelCode(s1) == LabelCode(s2)
    ensures s1 == s2
  {
    InvalidLabelIsNoHour();
    if ParseHourLabel(s1).Some? {
      ParseHourLabelCanonical(s1, ParseHourLabel(s1).value);
      ParseHourLabelCanonical(s2, ParseHourLabel(s2).value);
    }
  }
}
