/**
 The conversions on texts: the wall clock of a date input, "YYYY-MM-DDTHH:mm", and the texts
 the platform's formatter gives for an instant. `late` says whether the formatter writes
 midnight as 24 rather than 00.
 */
module WallClock {
  import opened Wrappers
  import opened Calendar
  import Text
  import Timezone

  datatype Parts = Parts(year: string, month: string, day: string, hour: string, minute: string, second: string)

  function TwoDigits(n: nat): string
    requires n < 100
  {
    [Text.HexChar(n / 10), Text.HexChar(n % 10)]
  }

  /** `Number` of a text of digits. */
  function Number(s: string): nat
    requires Text.AllDigits(s)
  {
    Text.Value(s, 10)
  }

  function Hour(shown: string): string {
    if shown == "24" then "00" else shown
  }

  /** The text is read as this number. */
  predicate Reads(s: string, n: int) {
    Text.AllDigits(s) && Number(s) == n
  }

  lemma TwoDigitsRead(n: nat)
    requires n < 100
    ensures Reads(TwoDigits(n), n) && (n < 24 ==> Hour(TwoDigits(n)) == TwoDigits(n))
  {
    var s := TwoDigits(n);
    assert s[..1] == [s[0]] && s[..1][..0] == "";
    assert Text.Value(s[..1], 10) == n / 10;
  }

  function HourText(hour: nat, late: bool): string
    requires hour < 24
  {
    if hour == 0 && late then "24" else TwoDigits(hour)
  }

  lemma MidnightRead(hour: nat, late: bool)
    requires hour < 24
    ensures Hour(HourText(hour, late)) == TwoDigits(hour)
  {
    TwoDigitsRead(hour);
    assert TwoDigits(0) == "00" by {
      assert Text.HexChar(0) == '0';
    }
  }

  /** The year as shown: years before the first come without their era. */
  function YearText(year: int): string {
    Text.Print(if year > 0 then year else 1 - year, 10)
  }

  lemma YearRead(year: int)
    ensures Reads(YearText(year), if year > 0 then year else 1 - year)
  {
    Text.ValueOfPrint(if year > 0 then year else 1 - year, 10);
  }

  function PartsOf(c: Civil, late: bool): Parts
    requires Valid(c)
  {
    Parts(YearText(c.year), TwoDigits(c.month + 1), TwoDigits(c.date),
          HourText(c.hour, late), TwoDigits(c.minute), TwoDigits(c.second))
  }

  /** Every part is a number, once midnight is written as 00. */
  predicate Numeric(p: Parts) {
    && Text.AllDigits(p.year) && Text.AllDigits(p.month) && Text.AllDigits(p.day)
    && Text.AllDigits(Hour(p.hour)) && Text.AllDigits(p.minute) && Text.AllDigits(p.second)
  }

  /** The parts are read as the calendar fields, the year if it is after the first. */
  predicate ReadAs(p: Parts, c: Civil) {
    && (c.year > 0 ==> Reads(p.year, c.year)) && Reads(p.month, c.month + 1) && Reads(p.day, c.date)
    && Reads(Hour(p.hour), c.hour) && Reads(p.minute, c.minute) && Reads(p.second, c.second)
  }

  lemma PartsRead(c: Civil, late: bool)
    requires Valid(c)
    ensures Numeric(PartsOf(c, late)) && ReadAs(PartsOf(c, late), c)
  {
    YearRead(c.year);
    TwoDigitsRead(c.month + 1);
    TwoDigitsRead(c.date);
    TwoDigitsRead(c.hour);
    TwoDigitsRead(c.minute);
    TwoDigitsRead(c.second);
    MidnightRead(c.hour, late);
  }

  /** What the formatter shows of a local time. */
  function FormatToParts(local: int, late: bool): (p: Parts)
    ensures Numeric(p)
  {
    FieldsGiveTime(local);
    PartsRead(CivilOf(local), late);
    PartsOf(CivilOf(local), late)
  }

  // ----- The conversions -----

  /** `Date.UTC` of texts. */
  function Utc(year: string, month: string, day: string, hour: string, minute: string, second: int): int
    requires Text.AllDigits(year) && Text.AllDigits(month) && Text.AllDigits(day)
    requires Text.AllDigits(hour) && Text.AllDigits(minute)
  {
    DateUTC(Number(year), Number(month) - 1, Number(day), Number(hour), Number(minute), second)
  }

  function AsUtc(p: Parts): int
    requires Numeric(p)
  {
    Utc(p.year, p.month, p.day, Hour(p.hour), p.minute, Number(p.second))
  }

  function OffsetMinutesAt(z: Timezone.Zone, instant: int, late: bool): int {
    Timezone.RoundToMinutes(AsUtc(FormatToParts(Timezone.Display(z, instant), late)) - instant)
  }

  /** The date and time parts of the text, as `Date.UTC` reads them. */
  function ReadWallClock(wallClock: string): Option<int> {
    var halves := Text.Split(wallClock, 'T');
    ReadNumbers(Text.Split(halves[0], '-'), Text.Split(if |halves| > 1 then halves[1] else "00:00", ':'))
  }

  function ReadNumbers(ds: seq<string>, ts: seq<string>): Option<int> {
    if
      && |ds| >= 3 && |ts| >= 2
      && Text.AllDigits(ds[0]) && Text.AllDigits(ds[1]) && Text.AllDigits(ds[2])
      && Text.AllDigits(ts[0]) && Text.AllDigits(ts[1])
    then Some(Utc(ds[0], ds[1], ds[2], ts[0], ts[1], 0))
    else None
  }

  function ZonedWallClockToUtc(wallClock: string, z: Timezone.Zone, late: bool): Option<int> {
    if wallClock == "" || ReadWallClock(wallClock).None? then None
    else Some(Corrected(z, ReadWallClock(wallClock).value, late))
  }

  /** The guess with its two corrections. */
  function Corrected(z: Timezone.Zone, guess: int, late: bool): int {
    Timezone.Back(guess, OffsetMinutesAt(z, Timezone.Back(guess, OffsetMinutesAt(z, guess, late)), late))
  }

  function TextOf(p: Parts): string {
    p.year + "-" + p.month + "-" + p.day + "T" + Hour(p.hour) + ":" + p.minute
  }

  function WallText(local: int, late: bool): string {
    TextOf(FormatToParts(local, late))
  }

  function UtcToZonedWallClock(z: Timezone.Zone, instant: int, late: bool): string {
    WallText(Timezone.Display(z, instant), late)
  }

  // ----- The same, step by step -----

  /** One entry of the formatter's list; separators are entries too. */
  datatype Part = Part(kind: string, value: string)

  /** The list has this value for this kind, and no other. */
  ghost predicate Once(parts: seq<Part>, kind: string, value: string) {
    Part(kind, value) in parts && forall x :: x in parts && x.kind == kind ==> x.value == value
  }

  /** The list, in whatever order the locale has it. */
  ghost predicate Gives(parts: seq<Part>, p: Parts, seconds: bool) {
    && Once(parts, "year", p.year) && Once(parts, "month", p.month) && Once(parts, "day", p.day)
    && Once(parts, "hour", p.hour) && Once(parts, "minute", p.minute) && (seconds ==> Once(parts, "second", p.second))
  }

  method Collect(parts: seq<Part>) returns (values: map<string, string>)
    ensures forall kind, value :: Once(parts, kind, value) ==> kind in values && values[kind] == value
  {
    values := map[];
    for i := 0 to |parts|
      invariant forall k :: k in values ==> Part(k, values[k]) in parts
      invariant forall j :: 0 <= j < i ==> parts[j].kind in values
    {
      values := values[parts[i].kind := parts[i].value];
    }
    forall kind, value | Once(parts, kind, value) ensures kind in values && values[kind] == value {
      var j :| 0 <= j < |parts| && parts[j] == Part(kind, value);
      assert parts[j].kind in values;
      assert Part(kind, values[kind]) in parts;
    }
  }

  method ReadAsUtc(parts: seq<Part>, ghost p: Parts) returns (asUtc: int)
    requires Gives(parts, p, true) && Numeric(p)
    ensures asUtc == AsUtc(p)
  {
    var values := Collect(parts);
    asUtc := Utc(values["year"], values["month"], values["day"],
                 Hour(values["hour"]), values["minute"], Number(values["second"]));
  }

  /** `parts`: what the formatter gives for the instant. */
  method ReadOffset(z: Timezone.Zone, instant: int, late: bool, parts: seq<Part>) returns (minutes: int)
    requires Gives(parts, FormatToParts(Timezone.Display(z, instant), late), true)
    ensures minutes == OffsetMinutesAt(z, instant, late)
  {
    var asUtc := ReadAsUtc(parts, FormatToParts(Timezone.Display(z, instant), late));
    minutes := Timezone.RoundToMinutes(asUtc - instant);
  }

  method ShowWallClock(z: Timezone.Zone, instant: int, late: bool, parts: seq<Part>) returns (wallClock: string)
    requires Gives(parts, FormatToParts(Timezone.Display(z, instant), late), false)
    ensures wallClock == UtcToZonedWallClock(z, instant, late)
  {
    var values := Collect(parts);
    var hour := Hour(values["hour"]);
    wallClock := values["year"] + "-" + values["month"] + "-" + values["day"] + "T" + hour + ":" + values["minute"];
  }

  // ----- What the texts mean -----

  /** From the first day of year `y` on. */
  predicate Since(y: int, ms: int) {
    DayFromYear(y) * 86400000 <= ms
  }

  lemma SinceYear(y: int, ms: int)
    requires Since(y, ms)
    ensures CivilOf(ms).year >= y
  {
    assert Day(ms) >= DayFromYear(y) by {
      var s := ms / 1000;
      assert s >= DayFromYear(y) * 86400;
      assert s / 60 >= DayFromYear(y) * 1440;
      assert s / 60 / 60 >= DayFromYear(y) * 24;
    }
    YearIsAtLeast(y, Day(ms));
  }

  lemma PartsAsUtc(c: Civil, late: bool)
    requires Valid(c) && c.year >= 100
    ensures Numeric(PartsOf(c, late)) && AsUtc(PartsOf(c, late)) == TimeOf(c)
  {
    PartsRead(c, late);
    DateUTCIsTime(c);
  }

  /** From the year 100 on, the offset read from the parts is the offset of the zone. */
  lemma OffsetFromParts(z: Timezone.Zone, instant: int, late: bool)
    requires Since(100, Timezone.Display(z, instant))
    ensures OffsetMinutesAt(z, instant, late) == Timezone.OffsetMinutesAt(z, instant)
  {
    var local := Timezone.Display(z, instant);
    SinceYear(100, local);
    FieldsGiveTime(local);
    PartsAsUtc(CivilOf(local), late);
  }

  lemma SplitTwo(a: string, b: string, c: char)
    requires c !in a && c !in b
    ensures Text.Split(a + [c] + b, c) == [a, b]
  {
    Text.SplitPrefix(a, b, c);
    Text.SplitWord(b, c);
  }

  lemma SplitThree(a: string, b: string, d: string, c: char)
    requires c !in a && c !in b && c !in d
    ensures Text.Split(a + [c] + b + [c] + d, c) == [a, b, d]
  {
    Text.SplitPrefix(a, b + [c] + d, c);
    SplitTwo(b, d, c);
    assert a + [c] + b + [c] + d == a + [c] + (b + [c] + d);
  }

  /** A date without a time is its midnight. */
  lemma DateAloneIsMidnight(date: string)
    requires 'T' !in date
    ensures ReadWallClock(date) == ReadWallClock(date + "T00:00")
  {
    assert date + "T00:00" == date + ['T'] + "00:00";
    SplitTwo(date, "00:00", 'T');
    Text.SplitWord(date, 'T');
  }

  /** Texts of digits, put together as a date and a time, are taken apart again. */
  lemma WallTextSplits(year: string, month: string, day: string, hour: string, minute: string)
    requires Text.AllDigits(year) && Text.AllDigits(month) && Text.AllDigits(day)
    requires Text.AllDigits(hour) && Text.AllDigits(minute)
    ensures var text := year + "-" + month + "-" + day + "T" + hour + ":" + minute;
      var halves := Text.Split(text, 'T');
      && |halves| == 2
      && Text.Split(halves[0], '-') == [year, month, day]
      && Text.Split(halves[1], ':') == [hour, minute]
  {
    var date, time := year + ['-'] + month + ['-'] + day, hour + [':'] + minute;
    SplitThree(year, month, day, '-');
    SplitTwo(hour, minute, ':');
    SplitTwo(date, time, 'T');
    assert year + "-" + month + "-" + day + "T" + hour + ":" + minute == date + ['T'] + time;
  }

  lemma NumbersOf(p: Parts)
    requires Numeric(p)
    ensures ReadNumbers([p.year, p.month, p.day], [Hour(p.hour), p.minute])
      == Some(Utc(p.year, p.month, p.day, Hour(p.hour), p.minute, 0))
  {
  }

  lemma NumbersAreRead(p: Parts)
    requires Numeric(p)
    ensures TextOf(p) != ""
    ensures ReadWallClock(TextOf(p))
      == Some(Utc(p.year, p.month, p.day, Hour(p.hour), p.minute, 0))
  {
    WallTextSplits(p.year, p.month, p.day, Hour(p.hour), p.minute);
    assert ReadWallClock(TextOf(p)) == ReadNumbers([p.year, p.month, p.day], [Hour(p.hour), p.minute]);
    NumbersOf(p);
  }

  /** A text put together of parts that are read as calendar fields is read as their time, to the minute. */
  lemma TextIsRead(p: Parts, c: Civil)
    requires Numeric(p) && ReadAs(p, c) && Valid(c) && c.year >= 100
    ensures TextOf(p) != "" && ReadWallClock(TextOf(p)) == Some(TimeOf(c.(second := 0)))
  {
    NumbersAreRead(p);
    var d := c.(second := 0);
    DateUTCIsTime(d);
    assert DateUTC(d.year, d.month, d.date, d.hour, d.minute, d.second) == TimeOf(d);
  }

  /** The text of a local time is read as that time, to the minute. */
  lemma WallTextIsRead(local: int, late: bool)
    requires Since(100, local)
    ensures WallText(local, late) != "" && ReadWallClock(WallText(local, late)) == Some(local / 60000 * 60000)
  {
    SinceYear(100, local);
    FieldsGiveTime(local);
    PartsRead(CivilOf(local), late);
    TextIsRead(PartsOf(CivilOf(local), late), CivilOf(local));
    WholeMinute(local);
  }

  lemma WholeMinute(local: int)
    ensures TimeOf(CivilOf(local).(second := 0)) == local / 60000 * 60000
  {
    FieldsGiveTime(local);
    var c := CivilOf(local);
    assert TimeOf(c) == TimeOf(c.(second := 0)) + c.second * 1000;
    var s := local / 1000;
    assert s % 60 == c.second && s == s / 60 * 60 + c.second;
    assert local / 60000 == s / 60;
  }

  /** Offsets of a day at most, as all zones have. */
  predicate WithinADay(lo: int, hi: int) {
    -1440 <= lo && hi <= 1440
  }

  /** At an instant at most 300 days before the year 101, the offset read from the parts is that of the zone. */
  lemma OffsetStaysRead(z: Timezone.Zone, lo: int, hi: int, t: int, late: bool)
    requires lo <= hi && WithinADay(lo, hi) && Timezone.OffsetsWithin(z, lo, hi) && Since(101, t + 300 * 86400000)
    ensures OffsetMinutesAt(z, t, late) == Timezone.OffsetMinutesAt(z, t) && lo <= Timezone.OffsetMinutesAt(z, t) <= hi
  {
    CenturyAndAYear();
    Timezone.OffsetBounds(z, lo, hi, t);
    assert Since(100, Timezone.Display(z, t));
    OffsetFromParts(z, t, late);
    Timezone.OffsetIsRead(z, t);
  }

  lemma FirstEstimateIsNear(z: Timezone.Zone, lo: int, hi: int, guess: int)
    requires lo <= hi && WithinADay(lo, hi) && Timezone.OffsetsWithin(z, lo, hi) && Since(101, guess)
    ensures Since(101, Timezone.FirstEstimate(z, guess) + 300 * 86400000)
  {
    Timezone.OffsetIsRead(z, guess);
    Timezone.OffsetBounds(z, lo, hi, guess);
  }

  /** From the year 101 on, both corrections use the offsets of the zone. */
  lemma CorrectedIsInstant(z: Timezone.Zone, lo: int, hi: int, guess: int, late: bool)
    requires lo <= hi && WithinADay(lo, hi) && Timezone.OffsetsWithin(z, lo, hi) && Since(101, guess)
    ensures Corrected(z, guess, late) == Timezone.ToInstant(z, guess)
  {
    var first := Timezone.FirstEstimate(z, guess);
    OffsetStaysRead(z, lo, hi, guess, late);
    FirstEstimateIsNear(z, lo, hi, guess);
    OffsetStaysRead(z, lo, hi, first, late);
    assert first == Timezone.Back(guess, OffsetMinutesAt(z, guess, late));
  }

  /** A text that is read as a time from the year 101 on is converted as that local time. */
  lemma TextConverts(z: Timezone.Zone, lo: int, hi: int, text: string, guess: int, late: bool)
    requires lo <= hi && WithinADay(lo, hi) && Timezone.OffsetsWithin(z, lo, hi)
    requires text != "" && ReadWallClock(text) == Some(guess) && Since(101, guess)
    ensures ZonedWallClockToUtc(text, z, late) == Some(Timezone.ToInstant(z, guess))
  {
    CorrectedIsInstant(z, lo, hi, guess, late);
  }

  lemma CenturyAndAYear()
    ensures DayFromYear(101) == DayFromYear(100) + 365
  {
  }

  /** Zeros in front, up to `width` characters. */
  function Padded(s: string, width: nat): string
    decreases width - |s|
  {
    if |s| >= width then s else Padded("0" + s, width)
  }

  lemma {:induction false} ZeroInFront(s: string)
    requires Text.AllDigits(s)
    ensures Text.AllDigits("0" + s) && Number("0" + s) == Number(s)
    decreases |s|
  {
    var t := "0" + s;
    if s == "" {
      assert t[..0] == "";
    } else {
      ZeroInFront(s[..|s| - 1]);
      assert t[..|t| - 1] == "0" + s[..|s| - 1];
    }
  }

  lemma {:induction false} PaddedReads(s: string, width: nat, n: int)
    requires Reads(s, n)
    ensures Reads(Padded(s, width), n)
    decreases width - |s|
  {
    if |s| < width {
      ZeroInFront(s);
      PaddedReads("0" + s, width, n);
    }
  }

  /** A date and a time of day, as a date input gives them: the year has four digits or more. */
  function DateInput(c: Civil): string
    requires Valid(c) && c.year > 0
  {
    Padded(Text.Print(c.year, 10), 4) + "-" + TwoDigits(c.month + 1) + "-" + TwoDigits(c.date)
      + "T" + TwoDigits(c.hour) + ":" + TwoDigits(c.minute)
  }

  lemma DateInputIsRead(c: Civil)
    requires Valid(c) && c.year >= 100
    ensures DateInput(c) != "" && ReadWallClock(DateInput(c)) == Some(TimeOf(c.(second := 0)))
  {
    var p := PartsOf(c, false);
    var padded := p.(year := Padded(p.year, 4));
    PartsRead(c, false);
    PaddedReads(p.year, 4, c.year);
    TwoDigitsRead(c.hour);
    TextIsRead(padded, c);
    assert DateInput(c) == TextOf(padded);
  }

  lemma SinceOfYear(c: Civil, y: int)
    requires Valid(c) && y <= c.year
    ensures Since(y, TimeOf(c))
  {
    YearsAreOrdered(y, c.year);
    MonthsStart(c.year, c.month);
    MonthInYear(c.year, c.month, c.date);
  }

  /** Every date and time from the year 101 on is converted as the local time it stands for. */
  lemma DateInputConverts(z: Timezone.Zone, lo: int, hi: int, c: Civil, late: bool)
    requires lo <= hi && WithinADay(lo, hi) && Timezone.OffsetsWithin(z, lo, hi)
    requires Valid(c) && c.second == 0 && c.year >= 101
    ensures ZonedWallClockToUtc(DateInput(c), z, late) == Some(Timezone.ToInstant(z, TimeOf(c)))
  {
    DateInputIsRead(c);
    SinceOfYear(c, 101);
    TextConverts(z, lo, hi, DateInput(c), TimeOf(c), late);
  }

  /** The result is shown in the year 100 or later too. */
  lemma ResultStaysModern(z: Timezone.Zone, lo: int, hi: int, guess: int)
    requires lo <= hi && WithinADay(lo, hi) && Timezone.OffsetsWithin(z, lo, hi) && Since(101, guess)
    ensures Since(100, Timezone.Display(z, Timezone.ToInstant(z, guess)))
  {
    CenturyAndAYear();
    Timezone.OffsetIsRead(z, Timezone.FirstEstimate(z, guess));
    Timezone.OffsetBounds(z, lo, hi, Timezone.FirstEstimate(z, guess));
    Timezone.OffsetBounds(z, lo, hi, Timezone.ToInstant(z, guess));
  }

  /**
   An instant on the minute, shown as text and converted back, is shown by the same text
   exactly when its wall clock is not misjudged, and then is itself or its twin across an overlap.
   */
  lemma TextRoundTripIffNotMisjudged(z: Timezone.Zone, lo: int, hi: int, t: int, late: bool)
    requires Timezone.SpreadSpaced(z, lo, hi) && WithinADay(lo, hi)
    requires t % Timezone.MINUTE == 0 && Since(101, Timezone.Display(z, t))
    ensures var text := UtcToZonedWallClock(z, t, late);
      var converted := ZonedWallClockToUtc(text, z, late);
      && converted == Some(Timezone.ToInstant(z, Timezone.ToWall(z, t)))
      && (UtcToZonedWallClock(z, converted.value, late) == text <==> !Timezone.Misjudged(z, Timezone.ToWall(z, t)))
      && (!Timezone.Misjudged(z, Timezone.ToWall(z, t)) ==>
            converted.value == t || Timezone.Overlaps(z, t, converted.value))
  {
    var local := Timezone.Display(z, t);
    ShownOnTheMinute(z, t);
    CenturyAndAYear();
    WallTextIsRead(local, late);
    TextConverts(z, lo, hi, WallText(local, late), local, late);
    Timezone.RoundTripIffNotMisjudged(z, lo, hi, t);
    var u := Timezone.ToInstant(z, local);
    ShownOnTheMinute(z, u);
    ResultStaysModern(z, lo, hi, local);
    WallTextIsRead(Timezone.Display(z, u), late);
  }

  /** With UTC among the offsets, it always is. */
  lemma TextRoundTrip(z: Timezone.Zone, lo: int, hi: int, t: int, late: bool)
    requires Timezone.WellSpaced(z, lo, hi) && WithinADay(lo, hi)
    requires t % Timezone.MINUTE == 0 && Since(101, Timezone.Display(z, t))
    ensures var text := UtcToZonedWallClock(z, t, late);
      var converted := ZonedWallClockToUtc(text, z, late);
      && converted.Some?
      && UtcToZonedWallClock(z, converted.value, late) == text
      && (converted.value == t || Timezone.Overlaps(z, t, converted.value))
  {
    Timezone.WellSpacedIsSpreadSpaced(z, lo, hi);
    TextRoundTripIffNotMisjudged(z, lo, hi, t, late);
    Timezone.RoundTrip(z, lo, hi, t);
    Timezone.RoundTripIffNotMisjudged(z, lo, hi, t);
  }

  lemma ShownOnTheMinute(z: Timezone.Zone, t: int)
    requires t % Timezone.MINUTE == 0
    ensures var local := Timezone.Display(z, t); Timezone.ToWall(z, t) == local == local / 60000 * 60000
  {
    Timezone.WholeMinutes(t, Timezone.OffsetAt(z, t));
  }
}
