/** Timestamps as the record store compares them: a calendar date and a
    clock time with microsecond precision, ordered field by field. Also the
    end-of-day adjustment the HTTP layer applies to the `end_date` of every
    date-range query before it reaches the store. */
module Timestamps {
  import opened Records
  import opened Strings

  datatype Timestamp = Timestamp(
    year: int, month: int, day: int,
    hour: int, minute: int, second: int, micro: int)

  /** A clock reading the store can hold: 00:00:00.000000 to 23:59:59.999999. */
  predicate ValidClock(t: Timestamp) {
    0 <= t.hour <= 23 && 0 <= t.minute <= 59 && 0 <= t.second <= 59
    && 0 <= t.micro <= 999999
  }

  /** `a <= b` on timestamps: the earlier field that differs decides. */
  predicate AtOrBefore(a: Timestamp, b: Timestamp) {
    if a.year != b.year then a.year < b.year
    else if a.month != b.month then a.month < b.month
    else if a.day != b.day then a.day < b.day
    else if a.hour != b.hour then a.hour < b.hour
    else if a.minute != b.minute then a.minute < b.minute
    else if a.second != b.second then a.second < b.second
    else a.micro <= b.micro
  }

  lemma AtOrBeforeReflexive(a: Timestamp)
    ensures AtOrBefore(a, a)
  {
  }

  lemma AtOrBeforeTransitive(a: Timestamp, b: Timestamp, c: Timestamp)
    ensures AtOrBefore(a, b) && AtOrBefore(b, c) ==> AtOrBefore(a, c)
  {
  }

  predicate SameDay(a: Timestamp, b: Timestamp) {
    a.year == b.year && a.month == b.month && a.day == b.day
  }

  /** The calendar day of `a` is not later than that of `b`. */
  predicate DayAtOrBefore(a: Timestamp, b: Timestamp) {
    if a.year != b.year then a.year < b.year
    else if a.month != b.month then a.month < b.month
    else a.day <= b.day
  }

  // ------------------------------------------------------------- parsing

  lemma {:induction false} Pow10Add(a: nat, b: nat)
    ensures Pow10(a) * Pow10(b) == Pow10(a + b)
  {
    if a > 0 { Pow10Add(a - 1, b); }
  }

  /** The microseconds of what follows the seconds field: nothing, or a
      zone designator, means a whole second; `.` and one to six digits are
      a fraction of a second. */
  function FractionMicros(rest: string): (us: Option<nat>)
    ensures us.Some? ==> us.value <= 999999
  {
    if rest == [] || rest[0] != '.' then Some(0)
    else
      var n := DigitRun(rest[1..]);
      if n == 0 || n > 6 then None
      else
        var digits := rest[1..][..n];
        Pow10Add(n, 6 - n);
        assert Pow10(6) == 1000000;
        assert DecimalValue(digits) * Pow10(6 - n) < Pow10(n) * Pow10(6 - n);
        Some(DecimalValue(digits) * Pow10(6 - n))
  }

  predicate DigitsAt(text: string, lo: nat, hi: nat)
    requires lo <= hi <= |text|
  {
    forall k :: lo <= k < hi ==> IsDigit(text[k])
  }

  /** The value of the digit at position `i`. */
  function DigitAt(text: string, i: nat): int
    requires i < |text|
  {
    text[i] as int - '0' as int
  }

  /** The value of the two-digit field at position `i`. */
  function Field2(text: string, i: nat): int
    requires i + 2 <= |text|
  {
    DigitAt(text, i) * 10 + DigitAt(text, i + 1)
  }

  /** Reads the store's text rendering `YYYY-MM-DDTHH:MM:SS[.ffffff][zone]`;
      anything else is not a timestamp. The zone designator is not read. */
  function ParseStamp(text: string): (t: Option<Timestamp>)
    ensures t.Some? ==> ValidClock(t.value)
  {
    if |text| < 19 || text[4] != '-' || text[7] != '-' || text[10] != 'T'
       || text[13] != ':' || text[16] != ':'
       || !DigitsAt(text, 0, 4) || !DigitsAt(text, 5, 7) || !DigitsAt(text, 8, 10)
       || !DigitsAt(text, 11, 13) || !DigitsAt(text, 14, 16) || !DigitsAt(text, 17, 19)
    then None
    else
      var micro := FractionMicros(text[19..]);
      var hour, minute, second := Field2(text, 11), Field2(text, 14), Field2(text, 17);
      if hour > 23 || minute > 59 || second > 59 || micro.None? then None
      else
        var year := Field2(text, 0) * 100 + Field2(text, 2);
        Some(Timestamp(year, Field2(text, 5), Field2(text, 8), hour, minute, second, micro.value))
  }

  /** A parsed timestamp's text begins with its date, `YYYY-MM-DD`, which
      has no `T` in it and is followed by the `T` that starts the clock. */
  lemma ParsedTextShape(text: string)
    requires ParseStamp(text).Some?
    ensures |text| >= 19 && text[10] == 'T'
    ensures forall i :: 0 <= i < 10 ==> text[i] != 'T'
  {
  }

  // ----------------------------------------------------------- rendering

  /** A timestamp the store can render in the fixed layout: a four-digit
      year, two-digit month and day, and a valid clock. */
  predicate Renderable(t: Timestamp) {
    0 <= t.year <= 9999 && 0 <= t.month <= 99 && 0 <= t.day <= 99 && ValidClock(t)
  }

  lemma Padded2(n: nat)
    ensures Padded(n, 2) == [DigitChar((n / 10) % 10), DigitChar(n % 10)]
  {
    assert Padded(n / 10, 1) == Padded(n / 10 / 10, 0) + [DigitChar((n / 10) % 10)];
  }

  /** `YYYY-MM-DD`. */
  function DayText(t: Timestamp): (text: string)
    requires Renderable(t)
    ensures |text| == 10 && text[4] == '-' && text[7] == '-'
  {
    Padded(t.year / 100, 2) + Padded(t.year % 100, 2) + "-" + Padded(t.month, 2) + "-" + Padded(t.day, 2)
  }

  /** `HH:MM:SS`. */
  function ClockText(t: Timestamp): (text: string)
    requires Renderable(t)
    ensures |text| == 8 && text[2] == ':' && text[5] == ':'
  {
    Padded(t.hour, 2) + ":" + Padded(t.minute, 2) + ":" + Padded(t.second, 2)
  }

  /** The store's rendering of a timestamp, `YYYY-MM-DDTHH:MM:SS.ffffff`,
      with all six digits of the fraction. */
  function StampText(t: Timestamp): (text: string)
    requires Renderable(t)
    ensures |text| == 26
  {
    DayText(t) + "T" + ClockText(t) + "." + Padded(t.micro, 6)
  }

  /** The two digits at `i` and `i + 1` read back a two-digit field. */
  lemma Field2Reads(text: string, i: nat, n: nat)
    requires i + 2 <= |text| && n <= 99
    requires text[i] == Padded(n, 2)[0] && text[i + 1] == Padded(n, 2)[1]
    ensures IsDigit(text[i]) && IsDigit(text[i + 1]) && Field2(text, i) == n
  {
    Padded2(n);
  }

  lemma DayTextReads(t: Timestamp, text: string)
    requires Renderable(t) && |text| >= 10 && text[..10] == DayText(t)
    ensures text[4] == '-' && text[7] == '-'
    ensures DigitsAt(text, 0, 4) && DigitsAt(text, 5, 7) && DigitsAt(text, 8, 10)
    ensures Field2(text, 0) * 100 + Field2(text, 2) == t.year
    ensures Field2(text, 5) == t.month && Field2(text, 8) == t.day
  {
    var d := DayText(t);
    assert forall k :: 0 <= k < 10 ==> text[k] == d[k];
    Field2Reads(text, 0, t.year / 100);
    Field2Reads(text, 2, t.year % 100);
    Field2Reads(text, 5, t.month);
    Field2Reads(text, 8, t.day);
  }

  lemma ClockTextReads(t: Timestamp, text: string)
    requires Renderable(t) && |text| >= 19 && text[11..19] == ClockText(t)
    ensures text[13] == ':' && text[16] == ':'
    ensures DigitsAt(text, 11, 13) && DigitsAt(text, 14, 16) && DigitsAt(text, 17, 19)
    ensures Field2(text, 11) == t.hour && Field2(text, 14) == t.minute && Field2(text, 17) == t.second
  {
    var c := ClockText(t);
    assert forall k :: 0 <= k < 8 ==> text[11 + k] == c[k];
    Field2Reads(text, 11, t.hour);
    Field2Reads(text, 14, t.minute);
    Field2Reads(text, 17, t.second);
  }

  /** Six fraction digits read back the microseconds. */
  lemma FractionReads(micro: nat)
    requires micro <= 999999
    ensures FractionMicros("." + Padded(micro, 6)) == Some(micro)
  {
    var rest := "." + Padded(micro, 6);
    assert rest[1..] == Padded(micro, 6);
    assert DigitRun(rest[1..]) == 6;
    assert rest[1..][..6] == Padded(micro, 6);
    assert Pow10(6) == 1000000;
    PaddedRoundTrip(micro, 6);
  }

  lemma StampPieces(t: Timestamp)
    requires Renderable(t)
    ensures StampText(t)[..10] == DayText(t) && StampText(t)[10] == 'T'
    ensures StampText(t)[11..19] == ClockText(t)
    ensures StampText(t)[19..] == "." + Padded(t.micro, 6)
  {
    var text := StampText(t);
    assert text == DayText(t) + "T" + ClockText(t) + ("." + Padded(t.micro, 6));
  }

  /** When the layout, the digits and the fraction all check out, the
      parse gives the fields read. */
  lemma ParseReads(text: string, t: Timestamp)
    requires |text| >= 19 && ValidClock(t)
    requires text[4] == '-' && text[7] == '-' && text[10] == 'T' && text[13] == ':' && text[16] == ':'
    requires DigitsAt(text, 0, 4) && DigitsAt(text, 5, 7) && DigitsAt(text, 8, 10)
    requires DigitsAt(text, 11, 13) && DigitsAt(text, 14, 16) && DigitsAt(text, 17, 19)
    requires Field2(text, 0) * 100 + Field2(text, 2) == t.year
    requires Field2(text, 5) == t.month && Field2(text, 8) == t.day
    requires Field2(text, 11) == t.hour && Field2(text, 14) == t.minute && Field2(text, 17) == t.second
    requires FractionMicros(text[19..]) == Some(t.micro)
    ensures ParseStamp(text) == Some(t)
  {
  }

  /** Parsing reads back every field of a rendered timestamp. */
  lemma StampRoundTrip(t: Timestamp)
    requires Renderable(t)
    ensures ParseStamp(StampText(t)) == Some(t)
  {
    var text := StampText(t);
    StampPieces(t);
    DayTextReads(t, text);
    ClockTextReads(t, text);
    FractionReads(t.micro);
    ParseReads(text, t);
  }

  // ------------------------------------------------------- end of the day

  /** The adjustment applied to every `end_date` before a range query:
      `datetime.combine(end.date(), time(23, 59, 59))`, which is the start of
      the last second of that day, not its last instant. */
  function EndOfDayAsWritten(end: Timestamp): (e: Timestamp)
    ensures SameDay(e, end) && ValidClock(e)
  {
    Timestamp(end.year, end.month, end.day, 23, 59, 59, 0)
  }

  /** The adjustment as intended, the last instant the store can represent
      on `end`'s day (`time.max`, 23:59:59.999999). */
  function EndOfDay(end: Timestamp): (e: Timestamp)
    ensures SameDay(e, end) && ValidClock(e)
  {
    Timestamp(end.year, end.month, end.day, 23, 59, 59, 999999)
  }

  /** With the intended adjustment a stored timestamp is at or before the end
      bound exactly when its day is not later than the end's day. */
  lemma EndOfDayCoversTheDay(t: Timestamp, end: Timestamp)
    requires ValidClock(t)
    ensures AtOrBefore(t, EndOfDay(end)) <==> DayAtOrBefore(t, end)
  {
  }

  /** With the adjustment as written the end's day is covered only up to
      23:59:59 sharp: a timestamp on that day passes exactly when it is a
      whole second or falls before the day's last second. */
  lemma EndOfDayAsWrittenCoversWholeSeconds(t: Timestamp, end: Timestamp)
    requires ValidClock(t) && SameDay(t, end)
    ensures AtOrBefore(t, EndOfDayAsWritten(end))
            <==> (t.micro == 0 || t.hour < 23 || t.minute < 59 || t.second < 59)
  {
  }
}
