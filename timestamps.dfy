/** A `datetime` value without time zone, its `isoformat()` text and the `fromisoformat()`
    parser that reads `created_at` and `updated_at` back. */
module Timestamps {
  import opened Wrappers
  import opened Text

  datatype Timestamp = Timestamp(
    year: int, month: int, day: int,
    hour: int, minute: int, second: int, microsecond: int)

  predicate IsLeapYear(y: int) {
    y % 4 == 0 && (y % 100 != 0 || y % 400 == 0)
  }

  function DaysInMonth(y: int, m: int): int
    requires 1 <= m <= 12
  {
    if m == 2 then (if IsLeapYear(y) then 29 else 28)
    else if m == 4 || m == 6 || m == 9 || m == 11 then 30
    else 31
  }

  /** The ranges `datetime` enforces on its fields. */
  predicate Valid(t: Timestamp) {
    && 1 <= t.year <= 9999
    && 1 <= t.month <= 12
    && 1 <= t.day <= DaysInMonth(t.year, t.month)
    && 0 <= t.hour < 24
    && 0 <= t.minute < 60
    && 0 <= t.second < 60
    && 0 <= t.microsecond < 1000000
  }

  /** The timestamps a `datetime` object can hold. */
  type DateTime = t: Timestamp | Valid(t) witness Timestamp(1, 1, 1, 0, 0, 0, 0)

  /** `YYYY-MM-DD` */
  function DateText(t: Timestamp): (s: string)
    requires Valid(t)
    ensures |s| == 10
  {
    Pad(t.year, 4) + "-" + Pad(t.month, 2) + "-" + Pad(t.day, 2)
  }

  /** `HH:MM:SS` */
  function ClockText(t: Timestamp): (s: string)
    requires Valid(t)
    ensures |s| == 8
  {
    Pad(t.hour, 2) + ":" + Pad(t.minute, 2) + ":" + Pad(t.second, 2)
  }

  /** `.ffffff`, or nothing for a zero microsecond. */
  function FractionText(t: Timestamp): (s: string)
    requires Valid(t)
    ensures |s| == (if t.microsecond == 0 then 0 else 7)
  {
    if t.microsecond == 0 then "" else "." + Pad(t.microsecond, 6)
  }

  /** `t.isoformat(sep)`: `YYYY-MM-DD<sep>HH:MM:SS`, followed by `.ffffff` only when the
      microsecond is not zero. */
  function Format(t: Timestamp, sep: char): (s: string)
    requires Valid(t)
    ensures |s| == (if t.microsecond == 0 then 19 else 26)
  {
    DateText(t) + [sep] + ClockText(t) + FractionText(t)
  }

  /** `t.isoformat()`, the text `to_dict` writes. */
  function Iso(t: Timestamp): string
    requires Valid(t)
  {
    Format(t, 'T')
  }

  /** The digits of `s[i..i + w]` as a number, or None if one of them is not a digit. */
  function Field(s: string, i: nat, w: nat): (r: Option<nat>)
    requires i + w <= |s|
    ensures r.Some? <==> AllDigits(s[i..i + w])
  {
    if AllDigits(s[i..i + w]) then Some(ParseNat(s[i..i + w])) else None
  }

  /** `datetime.fromisoformat(s)` for the two shapes `isoformat()` produces: the six fields
      with any single separator character between date and time, optionally followed by
      six fraction digits. Anything else, or a field out of range, is a ValueError (None). */
  function ParseIso(s: string): (r: Option<Timestamp>)
    ensures r.Some? ==> Valid(r.value)
    ensures r.Some? ==> |s| == 19 || |s| == 26
  {
    if !(|s| == 19 || (|s| == 26 && s[19] == '.')) then None
    else if !(s[4] == '-' && s[7] == '-' && s[13] == ':' && s[16] == ':') then None
    else
      var year, month, day := Field(s, 0, 4), Field(s, 5, 2), Field(s, 8, 2);
      var hour, minute, second := Field(s, 11, 2), Field(s, 14, 2), Field(s, 17, 2);
      var micro := if |s| == 26 then Field(s, 20, 6) else Some(0);
      if year.None? || month.None? || day.None? || hour.None? || minute.None?
         || second.None? || micro.None? then None
      else
        var t := Timestamp(year.value, month.value, day.value,
                           hour.value, minute.value, second.value, micro.value);
        if Valid(t) then Some(t) else None
  }

  lemma DateFields(t: Timestamp)
    requires Valid(t)
    ensures DateText(t)[0..4] == Pad(t.year, 4)
    ensures DateText(t)[4] == '-' && DateText(t)[7] == '-'
    ensures DateText(t)[5..7] == Pad(t.month, 2)
    ensures DateText(t)[8..10] == Pad(t.day, 2)
  {
  }

  lemma ClockFields(t: Timestamp)
    requires Valid(t)
    ensures ClockText(t)[0..2] == Pad(t.hour, 2)
    ensures ClockText(t)[2] == ':' && ClockText(t)[5] == ':'
    ensures ClockText(t)[3..5] == Pad(t.minute, 2)
    ensures ClockText(t)[6..8] == Pad(t.second, 2)
  {
  }

  /** A field written with `Pad` reads back as its number. */
  lemma FieldPad(s: string, i: nat, w: nat, n: nat)
    requires i + w <= |s| && n < Pow10(w) && s[i..i + w] == Pad(n, w)
    ensures Field(s, i, w) == Some(n)
  {
    ParsePad(n, w);
  }

  /** The date part of `Iso(t)` reads back as the year, the month and the day. */
  lemma IsoDate(t: Timestamp)
    requires Valid(t)
    ensures Iso(t)[4] == '-' && Iso(t)[7] == '-'
    ensures Field(Iso(t), 0, 4) == Some(t.year)
    ensures Field(Iso(t), 5, 2) == Some(t.month)
    ensures Field(Iso(t), 8, 2) == Some(t.day)
  {
    var s, date := Iso(t), DateText(t);
    assert s == date + ['T'] + ClockText(t) + FractionText(t);
    DateFields(t);
    assert s[0..4] == date[0..4];
    assert s[5..7] == date[5..7];
    assert s[8..10] == date[8..10];
    FieldPad(s, 0, 4, t.year);
    FieldPad(s, 5, 2, t.month);
    FieldPad(s, 8, 2, t.day);
  }

  /** The clock part of `Iso(t)` reads back as the hour, the minute and the second. */
  lemma IsoClock(t: Timestamp)
    requires Valid(t)
    ensures Iso(t)[13] == ':' && Iso(t)[16] == ':'
    ensures Field(Iso(t), 11, 2) == Some(t.hour)
    ensures Field(Iso(t), 14, 2) == Some(t.minute)
    ensures Field(Iso(t), 17, 2) == Some(t.second)
  {
    var s, clock := Iso(t), ClockText(t);
    assert s == DateText(t) + ['T'] + clock + FractionText(t);
    ClockFields(t);
    assert s[11..19] == clock;
    assert s[11..13] == clock[0..2];
    assert s[14..16] == clock[3..5];
    assert s[17..19] == clock[6..8];
    FieldPad(s, 11, 2, t.hour);
    FieldPad(s, 14, 2, t.minute);
    FieldPad(s, 17, 2, t.second);
  }

  /** A non-zero microsecond is written after a `.` and reads back. */
  lemma IsoFraction(t: Timestamp)
    requires Valid(t) && t.microsecond != 0
    ensures |Iso(t)| == 26 && Iso(t)[19] == '.'
    ensures Field(Iso(t), 20, 6) == Some(t.microsecond)
  {
    var s := Iso(t);
    assert s == DateText(t) + ['T'] + ClockText(t) + FractionText(t);
    assert s[19..] == FractionText(t);
    assert s[20..26] == Pad(t.microsecond, 6);
    FieldPad(s, 20, 6, t.microsecond);
  }

  /** Reading back a written timestamp gives the same timestamp:
      `datetime.fromisoformat(t.isoformat()) == t`. */
  lemma {:induction false} IsoRoundTrip(t: Timestamp)
    requires Valid(t)
    ensures ParseIso(Iso(t)) == Some(t)
  {
    IsoDate(t);
    IsoClock(t);
    if t.microsecond != 0 {
      IsoFraction(t);
    }
  }

  /** A time of day without a date is not ISO date-time text (a ValueError). */
  lemma NotIsoExample()
    ensures ParseIso("12:00:00") == None
  {
  }
}
