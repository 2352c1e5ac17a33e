/**
  The string layouts used by the scraper:
  - the query timestamp `%Y%m%dT%H:%M%z` written by `format_time`, and
  - the ISO date `YYYY-MM-DD` that `datetime.date()` contributes to the output file name.
  Time-zone localisation and conversion (pytz) is not modelled: a `Stamp` already
  carries the wall-clock fields and the UTC offset that the conversion produced.
  Each layout has a parser as its partner, and the round-trip lemmas show that the
  layout loses nothing for well-formed fields.
*/
module Times {
  import opened Wrappers

  datatype Date = Date(year: nat, month: nat, day: nat)

  /** A localised instant: calendar date, wall-clock hour and minute, and the UTC offset in minutes. */
  datatype Stamp = Stamp(date: Date, hour: nat, minute: nat, offset: int)

  predicate ValidDate(d: Date) {
    d.year <= 9999 && 1 <= d.month <= 12 && 1 <= d.day <= 31
  }

  predicate ValidStamp(t: Stamp) {
    ValidDate(t.date) && t.hour < 24 && t.minute < 60 && -1440 < t.offset < 1440
  }

  function Pow10(w: nat): (p: nat)
    ensures p >= 1
  {
    if w == 0 then 1 else 10 * Pow10(w - 1)
  }

  predicate IsDigit(c: char) {
    '0' <= c <= '9'
  }

  function DigitChar(d: nat): (c: char)
    requires d < 10
    ensures IsDigit(c) && c as int - '0' as int == d
  {
    (48 + d) as char
  }

  /** The `width` lowest decimal digits of `n`, most significant first, zero-padded. */
  function Digits(n: nat, width: nat): (s: string)
    ensures |s| == width
    ensures forall j :: 0 <= j < |s| ==> IsDigit(s[j])
  {
    if width == 0 then [] else Digits(n / 10, width - 1) + [DigitChar(n % 10)]
  }

  predicate AllDigits(s: string) {
    forall j :: 0 <= j < |s| ==> IsDigit(s[j])
  }

  /** The number a string of decimal digits denotes. */
  function ValueOf(s: string): (v: nat)
    requires AllDigits(s)
  {
    if s == [] then 0 else 10 * ValueOf(s[..|s| - 1]) + (s[|s| - 1] as int - '0' as int)
  }

  lemma {:induction false} DigitsRoundTrip(n: nat, width: nat)
    requires n < Pow10(width)
    ensures ValueOf(Digits(n, width)) == n
  {
    if width > 0 {
      var s := Digits(n, width);
      var prefix := Digits(n / 10, width - 1);
      assert s[..|s| - 1] == prefix;
      DigitsRoundTrip(n / 10, width - 1);
    }
  }

  /** `strftime("%Y%m%dT%H:%M%z")`: 19 characters, e.g. "20190101T00:00-0800". */
  function FormatTime(t: Stamp): (s: string)
  {
    var magnitude := if t.offset < 0 then -t.offset else t.offset;
    Digits(t.date.year, 4) + (Digits(t.date.month, 2) + (Digits(t.date.day, 2) + ("T"
    + (Digits(t.hour, 2) + (":" + (Digits(t.minute, 2)
    + ([if t.offset < 0 then '-' else '+'] + (Digits(magnitude / 60, 2) + Digits(magnitude % 60, 2)))))))))
  }

  predicate DigitsIn(s: string, lo: nat, hi: nat)
    requires lo <= hi <= |s|
  {
    AllDigits(s[lo..hi])
  }

  /** The shape of a `%Y%m%dT%H:%M%z` stamp: separators in place and digits in every field. */
  predicate TimeLayout(s: string) {
    && |s| == 19 && s[8] == 'T' && s[11] == ':' && (s[14] == '+' || s[14] == '-')
    && DigitsIn(s, 0, 4) && DigitsIn(s, 4, 6) && DigitsIn(s, 6, 8) && DigitsIn(s, 9, 11)
    && DigitsIn(s, 12, 14) && DigitsIn(s, 15, 17) && DigitsIn(s, 17, 19)
  }

  /** The fields of a string with the stamp layout. */
  function ReadStamp(s: string): Stamp
    requires TimeLayout(s)
  {
    var magnitude := 60 * ValueOf(s[15..17]) + ValueOf(s[17..19]);
    Stamp(Date(ValueOf(s[0..4]), ValueOf(s[4..6]), ValueOf(s[6..8])),
          ValueOf(s[9..11]), ValueOf(s[12..14]),
          if s[14] == '-' then -magnitude else magnitude)
  }

  /** Reads back the layout written by FormatTime. */
  function ParseTime(s: string): (r: Option<Stamp>)
    ensures r.Some? ==> |s| == 19
  {
    if TimeLayout(s) then Some(ReadStamp(s)) else None
  }

  /** Peels the field `b` off the part of `s` that starts at index `k`. */
  lemma Peel(s: string, k: nat, b: string, c: string)
    requires k <= |s| && s[k..] == b + c
    ensures k + |b| <= |s| && s[k..k + |b|] == b && s[k + |b|..] == c
  {
    assert s[k..][..|b|] == b;
    assert s[k..][|b|..] == c;
  }

  /** Where each field of FormatTime lands. */
  lemma FormatTimeFields(t: Stamp)
    ensures var s := FormatTime(t);
      var magnitude := if t.offset < 0 then -t.offset else t.offset;
      |s| == 19 && s[8] == 'T' && s[11] == ':' && s[14] == (if t.offset < 0 then '-' else '+')
      && s[0..4] == Digits(t.date.year, 4) && s[4..6] == Digits(t.date.month, 2)
      && s[6..8] == Digits(t.date.day, 2) && s[9..11] == Digits(t.hour, 2)
      && s[12..14] == Digits(t.minute, 2) && s[15..17] == Digits(magnitude / 60, 2)
      && s[17..19] == Digits(magnitude % 60, 2)
  {
    var magnitude := if t.offset < 0 then -t.offset else t.offset;
    var y, mo, d := Digits(t.date.year, 4), Digits(t.date.month, 2), Digits(t.date.day, 2);
    var h, mi := Digits(t.hour, 2), Digits(t.minute, 2);
    var oh, om := Digits(magnitude / 60, 2), Digits(magnitude % 60, 2);
    var sign := if t.offset < 0 then '-' else '+';
    var s := FormatTime(t);
    var r8 := [sign] + (oh + om);
    var r7 := mi + r8;
    var r6 := ":" + r7;
    var r5 := h + r6;
    var r4 := "T" + r5;
    var r3 := d + r4;
    var r2 := mo + r3;
    assert s[0..] == y + r2;
    Peel(s, 0, y, r2);
    Peel(s, 4, mo, r3);
    Peel(s, 6, d, r4);
    Peel(s, 8, "T", r5);
    Peel(s, 9, h, r6);
    Peel(s, 11, ":", r7);
    Peel(s, 12, mi, r8);
    Peel(s, 14, [sign], oh + om);
    Peel(s, 15, oh, om);
    Peel(s, 17, om, []);
  }

  /** The offset magnitude splits into two-digit hours and minutes. */
  lemma OffsetSplit(magnitude: nat)
    requires magnitude < 1440
    ensures magnitude / 60 < 100 && magnitude % 60 < 100
    ensures 60 * (magnitude / 60) + magnitude % 60 == magnitude
  {
  }

  /** A string laid out with the fields of a valid stamp parses back to that stamp. */
  lemma ParseTimeFields(s: string, t: Stamp)
    requires ValidStamp(t)
    requires var magnitude := if t.offset < 0 then -t.offset else t.offset;
      |s| == 19 && s[8] == 'T' && s[11] == ':' && s[14] == (if t.offset < 0 then '-' else '+')
      && s[0..4] == Digits(t.date.year, 4) && s[4..6] == Digits(t.date.month, 2)
      && s[6..8] == Digits(t.date.day, 2) && s[9..11] == Digits(t.hour, 2)
      && s[12..14] == Digits(t.minute, 2) && s[15..17] == Digits(magnitude / 60, 2)
      && s[17..19] == Digits(magnitude % 60, 2)
    ensures ParseTime(s) == Some(t)
  {
    var magnitude: nat := if t.offset < 0 then -t.offset else t.offset;
    assert TimeLayout(s);
    OffsetSplit(magnitude);
    assert Pow10(4) == 10000 && Pow10(2) == 100;
    DigitsRoundTrip(t.date.year, 4);
    DigitsRoundTrip(t.date.month, 2);
    DigitsRoundTrip(t.date.day, 2);
    DigitsRoundTrip(t.hour, 2);
    DigitsRoundTrip(t.minute, 2);
    DigitsRoundTrip(magnitude / 60, 2);
    DigitsRoundTrip(magnitude % 60, 2);
    assert ReadStamp(s) == t;
  }

  lemma FormatTimeRoundTrip(t: Stamp)
    requires ValidStamp(t)
    ensures ParseTime(FormatTime(t)) == Some(t)
  {
    FormatTimeFields(t);
    ParseTimeFields(FormatTime(t), t);
  }

  /** `str(datetime.date())`: 10 characters, e.g. "2019-06-01". */
  function FormatDate(d: Date): (s: string)
  {
    Digits(d.year, 4) + ("-" + (Digits(d.month, 2) + ("-" + Digits(d.day, 2))))
  }

  /** Reads back the layout written by FormatDate. */
  function ParseDate(s: string): (r: Option<Date>)
    ensures r.Some? ==> |s| == 10
  {
    if |s| != 10 || s[4] != '-' || s[7] != '-'
       || !DigitsIn(s, 0, 4) || !DigitsIn(s, 5, 7) || !DigitsIn(s, 8, 10)
    then None
    else Some(Date(ValueOf(s[0..4]), ValueOf(s[5..7]), ValueOf(s[8..10])))
  }

  lemma FormatDateRoundTrip(d: Date)
    requires ValidDate(d)
    ensures |FormatDate(d)| == 10
    ensures ParseDate(FormatDate(d)) == Some(d)
  {
    var s := FormatDate(d);
    var y, mo, dd := Digits(d.year, 4), Digits(d.month, 2), Digits(d.day, 2);
    assert s[0..] == y + ("-" + (mo + ("-" + dd)));
    Peel(s, 0, y, "-" + (mo + ("-" + dd)));
    Peel(s, 4, "-", mo + ("-" + dd));
    Peel(s, 5, mo, "-" + dd);
    Peel(s, 7, "-", dd);
    Peel(s, 8, dd, []);
    assert Pow10(4) == 10000 && Pow10(2) == 100;
    DigitsRoundTrip(d.year, 4);
    DigitsRoundTrip(d.month, 2);
    DigitsRoundTrip(d.day, 2);
  }
}
