/**
 The date-rotated audit files: how a file name carries its rotation window, how
 the window is read back out of the name, and what a retention sweep deletes.
 Windows and file dates are in seconds since the start of year 0, UTC; the clock
 reads nanoseconds.
 */
module Audit {
  import opened Options
  import opened Digits
  import opened Calendar

  type Granule = g: nat | 1 <= g witness 1

  datatype Rotation = Daily | Hourly | Weekly | Minutes(granule: Granule)

  const NANOS: nat := 1_000_000_000

  datatype Instant = Instant(year: nat, month: nat, day: nat, hour: nat, minute: nat, second: nat, nano: nat)

  /** A clock reading; four digits hold its year. */
  predicate IsInstant(at: Instant) {
    && at.year <= 9999 && IsDate(at.year, at.month, at.day)
    && at.hour < 24 && at.minute < 60 && at.second < 60 && at.nano < NANOS
  }

  function Seconds(day: int, hour: int, minute: int, second: int): int {
    86400 * day + 3600 * hour + 60 * minute + second
  }

  function Day(at: Instant): int
    requires IsInstant(at)
  {
    DayNumber(at.year, at.month, at.day)
  }

  /** A clock reading in nanoseconds. */
  function TimeOf(at: Instant): int
    requires IsInstant(at)
  {
    NANOS * Seconds(Day(at), at.hour, at.minute, at.second) + at.nano
  }

  // ----- windows and their stamps -----

  function Floored(at: Instant, granule: Granule): (r: nat)
    requires IsInstant(at)
    ensures r <= 60 * at.hour + at.minute < r + granule
  {
    var minutes := 60 * at.hour + at.minute;
    minutes - minutes % granule
  }

  function WindowLength(rotation: Rotation): nat {
    match rotation
    case Daily => 86400
    case Hourly => 3600
    case Weekly => 7 * 86400
    case Minutes(granule) => 60 * granule
  }

  /** Where the rotation window of an instant starts. */
  function WindowStart(rotation: Rotation, at: Instant): (r: int)
    requires IsInstant(at)
    ensures NANOS * r <= TimeOf(at) < NANOS * (r + WindowLength(rotation))
  {
    match rotation
    case Daily => Seconds(Day(at), 0, 0, 0)
    case Hourly => Seconds(Day(at), at.hour, 0, 0)
    case Weekly => Seconds(MondayOf(Day(at)), 0, 0, 0)
    case Minutes(granule) => Seconds(Day(at), 0, Floored(at, granule), 0)
  }

  /** A year in four places, the sign taking one of them. */
  function YearText(y: int): (r: string)
    requires -1 <= y <= 9999
    ensures |r| == 4
  {
    if y >= 0 then Pad4(y) else "-001"
  }

  function DateText(at: Instant): (r: string)
    requires IsInstant(at)
    ensures |r| == 10
  {
    Pad4(at.year) + "-" + Pad2(at.month) + "-" + Pad2(at.day)
  }

  /** The week a weekly stamp names. A week late in 9999 may belong to year 10000, which takes five places. */
  predicate HasStamp(rotation: Rotation, at: Instant) {
    && IsInstant(at)
    && (rotation.Weekly? ==> IsoWeekOf(at.year, Day(at)).year <= 9999)
  }

  function WeekText(at: Instant): (r: string)
    requires HasStamp(Weekly, at)
    ensures |r| == 8
  {
    var w := IsoWeekOf(at.year, Day(at));
    DateInYear(at.year, at.month, at.day);
    WeekRoundTrip(at.year, Day(at));
    YearText(w.year) + "-W" + Pad2(w.week)
  }

  function Stamp(rotation: Rotation, at: Instant): string
    requires HasStamp(rotation, at)
  {
    match rotation
    case Daily => DateText(at)
    case Hourly => DateText(at) + "-" + Pad2(at.hour)
    case Weekly => WeekText(at)
    case Minutes(granule) =>
      var floored := Floored(at, granule);
      DateText(at) + "-" + Pad2(floored / 60) + "-" + Pad2(floored % 60) + "-00"
  }

  /**
   Where windows start: at a midnight, at a full hour, at the midnight of a Monday, or at
   a multiple of the granule after a midnight; in each case not after the instant, on
   its day or, weekly, within six days of it.
   */
  lemma WindowsStartWhere(rotation: Rotation, at: Instant) returns (day: int, minute: nat)
    requires IsInstant(at)
    ensures WindowStart(rotation, at) == 86400 * day + 60 * minute && minute < 1440
    ensures match rotation
            case Daily => day == Day(at) && minute == 0
            case Hourly => day == Day(at) && minute == 60 * at.hour
            case Weekly => Weekday(day) == 0 && day <= Day(at) < day + 7 && minute == 0
            case Minutes(granule) => day == Day(at) && minute == granule * ((60 * at.hour + at.minute) / granule)
  {
    day, minute := Day(at), 0;
    match rotation
    case Daily =>
    case Hourly => minute := 60 * at.hour;
    case Weekly =>
      MondaysAreMondays(Day(at));
      day := MondayOf(Day(at));
    case Minutes(granule) =>
      FlooredIsMultiple(60 * at.hour + at.minute, granule);
      minute := Floored(at, granule);
  }

  lemma FlooredIsMultiple(minutes: nat, granule: Granule)
    ensures minutes - minutes % granule == granule * (minutes / granule)
  {
  }

  /** The digits of a text from `i` to before `j` spell `n`. */
  predicate Spells(s: string, i: nat, j: nat, n: int) {
    i <= j <= |s| && AllDigits(s[i..j]) && Value(s[i..j]) == n
  }

  lemma PadSpells(before: string, n: nat, w: nat)
    requires n < Power10(w)
    ensures Spells(before + Pad(n, w), |before|, |before| + w, n)
  {
    PadValue(n, w);
    assert (before + Pad(n, w))[|before|..|before| + w] == Pad(n, w);
  }

  /** A date is written as its year, month and day. */
  predicate DateAt(s: string, at: Instant) {
    && Spells(s, 0, 4, at.year) && Spells(s, 5, 7, at.month) && Spells(s, 8, 10, at.day) && s[4] == '-' && s[7] == '-'
  }

  lemma SpellsOn(s: string, i: nat, j: nat, n: int, after: string)
    requires Spells(s, i, j, n)
    ensures Spells(s + after, i, j, n)
  {
    assert (s + after)[i..j] == s[i..j];
  }

  /** What a daily stamp says, and any other but a weekly one begins with. */
  lemma DaySpells(at: Instant)
    requires IsInstant(at)
    ensures DateAt(Stamp(Daily, at), at) && |Stamp(Daily, at)| == 10
  {
    SmallPowers();
    var y := Pad4(at.year);
    var ym := y + "-" + Pad2(at.month);
    YearSpells(at);
    PadSpells(y + "-", at.month, 2);
    SpellsOn(ym, 5, 7, at.month, "-");
    SpellsOn(ym + "-", 5, 7, at.month, Pad2(at.day));
    PadSpells(ym + "-", at.day, 2);
  }

  lemma YearSpells(at: Instant)
    requires IsInstant(at)
    ensures Spells(DateText(at), 0, 4, at.year) && DateText(at)[4] == '-' && DateText(at)[7] == '-'
  {
    SmallPowers();
    var y := Pad4(at.year);
    PadSpells([], at.year, 4);
    assert [] + y == y;
    SpellsOn(y, 0, 4, at.year, "-");
    SpellsOn(y + "-", 0, 4, at.year, Pad2(at.month));
    SpellsOn(y + "-" + Pad2(at.month), 0, 4, at.year, "-");
    SpellsOn(y + "-" + Pad2(at.month) + "-", 0, 4, at.year, Pad2(at.day));
  }

  lemma DateStays(s: string, at: Instant, after: string)
    requires DateAt(s, at)
    ensures DateAt(s + after, at)
  {
    SpellsOn(s, 0, 4, at.year, after);
    SpellsOn(s, 5, 7, at.month, after);
    SpellsOn(s, 8, 10, at.day, after);
  }

  /** An hourly stamp adds the hour. */
  lemma HourSpells(at: Instant)
    requires IsInstant(at)
    ensures var s := Stamp(Hourly, at); |s| == 13 && DateAt(s, at) && s[10] == '-' && Spells(s, 11, 13, at.hour)
  {
    SmallPowers();
    DaySpells(at);
    DateStays(DateText(at), at, "-");
    DateStays(DateText(at) + "-", at, Pad2(at.hour));
    PadSpells(DateText(at) + "-", at.hour, 2);
  }

  /** A weekly stamp is the ISO year and week. */
  lemma WeekSpells(at: Instant)
    requires HasStamp(Weekly, at)
    ensures var s, w := WeekText(at), IsoWeekOf(at.year, Day(at));
            |s| == 8 && s[4..6] == "-W" && Spells(s, 6, 8, w.week) && (w.year >= 0 ==> Spells(s, 0, 4, w.year))
  {
    var w := IsoWeekOf(at.year, Day(at));
    DateInYear(at.year, at.month, at.day);
    WeekRoundTrip(at.year, Day(at));
    SmallPowers();
    var y := YearText(w.year);
    PadSpells(y + "-W", w.week, 2);
    assert (y + "-W" + Pad2(w.week))[4..6] == "-W";
    if w.year >= 0 {
      PadSpells([], w.year, 4);
      assert [] + y == y;
      SpellsOn(y, 0, 4, w.year, "-W");
      SpellsOn(y + "-W", 0, 4, w.year, Pad2(w.week));
    }
  }

  /** A stamp of minutes adds the hour and the minute its window starts at, and no seconds. */
  lemma MinutesSpell(at: Instant, granule: Granule)
    requires IsInstant(at)
    ensures var s, f := Stamp(Minutes(granule), at), Floored(at, granule);
            && |s| == 19 && DateAt(s, at) && s[10] == '-' && Spells(s, 11, 13, f / 60)
            && s[13] == '-' && Spells(s, 14, 16, f % 60) && s[16..] == "-00"
  {
    SmallPowers();
    var f := Floored(at, granule);
    var d, h, m := DateText(at) + "-", Pad2(f / 60), Pad2(f % 60);
    DaySpells(at);
    DateStays(DateText(at), at, "-");
    DateStays(d, at, h);
    DateStays(d + h, at, "-");
    DateStays(d + h + "-", at, m);
    DateStays(d + h + "-" + m, at, "-00");
    MinuteSpells(d, f / 60, f % 60);
  }

  lemma MinuteSpells(d: string, h: nat, m: nat)
    requires |d| == 11 && h < 100 && m < 100
    ensures var s := d + Pad2(h) + "-" + Pad2(m) + "-00";
            Spells(s, 11, 13, h) && s[13] == '-' && Spells(s, 14, 16, m) && s[16..] == "-00"
  {
    SmallPowers();
    var dh := d + Pad2(h);
    PadSpells(d, h, 2);
    SpellsOn(dh, 11, 13, h, "-");
    SpellsOn(dh + "-", 11, 13, h, Pad2(m));
    SpellsOn(dh + "-" + Pad2(m), 11, 13, h, "-00");
    PadSpells(dh + "-", m, 2);
    SpellsOn(dh + "-" + Pad2(m), 14, 16, m, "-00");
    assert (dh + "-" + Pad2(m) + "-00")[16..] == "-00";
  }

  datatype Category = Transitions | Heartbeat | General

  function CategoryOf(eventType: string): Category {
    if eventType == "workflow.transition" then Transitions
    else if eventType == "agent.heartbeat" then Heartbeat
    else General
  }

  function CategoryText(c: Category): (r: string)
    ensures |r| >= 5 && !IsDigit(r[0]) && r[0] != '-'
  {
    match c
    case Transitions => "transitions"
    case Heartbeat => "heartbeat"
    case General => "audit"
  }

  /** What follows the stamp and a dash. */
  function Tail(pid: nat, c: Category): string {
    Decimal(pid) + "-" + CategoryText(c) + ".log"
  }

  function LogName(stamp: string, pid: nat, c: Category): string {
    stamp + "-" + Tail(pid, c)
  }

  // ----- reading a stamp back -----

  /** A dash and then a number of up to `w` digits. */
  function ScanDashed(s: string, w: nat): Option<Scanned> {
    if s != [] && s[0] == '-' then Scan(s[1..], w) else None
  }

  datatype Dated = Dated(year: nat, month: nat, day: nat, rest: string)

  function ScanDate(s: string): Option<Dated> {
    var y := Scan(s, 4);
    if y.None? then None else
    var m := ScanDashed(y.value.rest, 2);
    if m.None? then None else
    var d := ScanDashed(m.value.rest, 2);
    if d.None? || !IsDate(y.value.value, m.value.value, d.value.value) then None
    else Some(Dated(y.value.value, m.value.value, d.value.value, d.value.rest))
  }

  /** The time a name is dated with, as it is spelled. */
  datatype Dating = OfWeek(week: IsoWeek) | OfTime(year: int, month: int, day: int, hour: int, minute: int, second: int)

  predicate IsDating(d: Dating) {
    d.OfTime? ==> IsDate(d.year, d.month, d.day)
  }

  function When(d: Dating): int
    requires IsDating(d)
  {
    match d
    case OfWeek(week) => Seconds(MondayOfWeek(week), 0, 0, 0)
    case OfTime(year, month, day, hour, minute, second) => Seconds(DayNumber(year, month, day), hour, minute, second)
  }

  /** Hours, minutes and seconds, separated by dashes, and nothing after them. */
  function ParseTime(date: Dated, s: string): Option<Dating> {
    var h := Scan(s, 2);
    if h.None? then None else
    var m := ScanDashed(h.value.rest, 2);
    if m.None? then None else
    var t := ScanDashed(m.value.rest, 2);
    if t.None? || t.value.rest != [] || h.value.value >= 24 || m.value.value >= 60 || t.value.value > 60 then None
    else Some(OfTime(date.year, date.month, date.day, h.value.value, m.value.value, t.value.value))
  }

  /** Reading an unsigned number, which may carry a plus. */
  function ParseUnsigned(s: string): Option<nat> {
    var t := if s != [] && s[0] == '+' then s[1..] else s;
    if t != [] && AllDigits(t) then Some(Value(t)) else None
  }

  function ParseSigned(s: string): Option<int> {
    if s != [] && s[0] == '-' then
      if s[1..] != [] && AllDigits(s[1..]) then Some(-(Value(s[1..]) as int)) else None
    else
      var n := ParseUnsigned(s);
      if n.Some? then Some(n.value) else None
  }

  function ParseWeek(year: string, week: string): Option<Dating> {
    var y, w := ParseSigned(year), ParseUnsigned(week);
    if y.None? || w.None? || !IsIsoWeek(IsoWeek(y.value, w.value)) then None
    else Some(OfWeek(IsoWeek(y.value, w.value)))
  }

  function ParseDateTime(s: string): Option<Dating> {
    var d := ScanDate(s);
    if d.None? || d.value.rest == [] || d.value.rest[0] != '-' then None else ParseTime(d.value, d.value.rest[1..])
  }

  function ParseHour(date: string, hour: string): Option<Dating> {
    var d, h := ScanDate(date), ParseUnsigned(hour);
    if d.None? || d.value.rest != [] || h.None? || h.value >= 24 then None
    else Some(OfTime(d.value.year, d.value.month, d.value.day, h.value, 0, 0))
  }

  function ParseDay(date: string): Option<Dating> {
    var d := ScanDate(date);
    if d.None? || d.value.rest != [] then None
    else Some(OfTime(d.value.year, d.value.month, d.value.day, 0, 0, 0))
  }

  /** The time a file name is dated with: weekly names first, then the longest form that parses. */
  function ParseStamp(name: string): (r: Option<Dating>)
    ensures r.Some? ==> IsDating(r.value)
  {
    if |name| > 8 && name[4] == '-' && name[5] == 'W' && name[8] == '-' then
      ParseWeek(name[..4], name[6..8])
    else if |name| > 19 && name[19] == '-' && ParseDateTime(name[..19]).Some? then
      ParseDateTime(name[..19])
    else if |name| > 13 && name[10] == '-' && name[13] == '-' && ParseHour(name[..10], name[11..13]).Some? then
      ParseHour(name[..10], name[11..13])
    else if |name| > 10 && name[10] == '-' then
      ParseDay(name[..10])
    else
      None
  }

  // ----- round trips -----

  lemma ScanDashedPad(n: nat, rest: string)
    requires n < 100
    ensures ScanDashed("-" + (Pad2(n) + rest), 2) == Some(Scanned(n, rest))
  {
    SmallPowers();
    assert ("-" + (Pad2(n) + rest))[1..] == Pad2(n) + rest;
    ScanPad(n, 2, rest);
  }

  lemma ScanYear(y: nat, rest: string)
    requires y < 10_000
    ensures Scan(Pad4(y) + rest, 4) == Some(Scanned(y, rest))
  {
    SmallPowers();
    ScanPad(y, 4, rest);
  }

  lemma ScanDateParts(s: string, y: Scanned, m: Scanned, d: Scanned)
    requires Scan(s, 4) == Some(y) && ScanDashed(y.rest, 2) == Some(m) && ScanDashed(m.rest, 2) == Some(d)
    requires IsDate(y.value, m.value, d.value)
    ensures ScanDate(s) == Some(Dated(y.value, m.value, d.value, d.rest))
  {
  }

  lemma ScanDateText(at: Instant, rest: string)
    requires IsInstant(at)
    ensures ScanDate(DateText(at) + rest) == Some(Dated(at.year, at.month, at.day, rest))
  {
    var afterMonth := "-" + (Pad2(at.day) + rest);
    var afterYear := "-" + (Pad2(at.month) + afterMonth);
    Reassociate(Pad4(at.year), Pad2(at.month), Pad2(at.day), rest);
    ScanYear(at.year, afterYear);
    ScanDashedPad(at.month, afterMonth);
    ScanDashedPad(at.day, rest);
    ScanDateParts(DateText(at) + rest, Scanned(at.year, afterYear), Scanned(at.month, afterMonth), Scanned(at.day, rest));
  }

  lemma Reassociate(y: string, m: string, d: string, rest: string)
    ensures y + "-" + m + "-" + d + rest == y + ("-" + (m + ("-" + (d + rest))))
  {
  }

  lemma ZeroSeconds()
    ensures ScanDashed("-00", 2) == Some(Scanned(0, []))
  {
    SmallPowers();
    ScanPad(0, 2, []);
    assert "-00"[1..] == Pad2(0) + [];
  }

  lemma ParseTimeText(date: Dated, h: nat, m: nat)
    requires h < 24 && m < 60
    ensures ParseTime(date, Pad2(h) + ("-" + (Pad2(m) + "-00")))
         == Some(OfTime(date.year, date.month, date.day, h, m, 0))
  {
    assert Scan(Pad2(h) + ("-" + (Pad2(m) + "-00")), 2) == Some(Scanned(h, "-" + (Pad2(m) + "-00"))) by {
      SmallPowers();
      ScanPad(h, 2, "-" + (Pad2(m) + "-00"));
    }
    ScanDashedPad(m, "-00");
    ZeroSeconds();
  }

  /** Digits, then a dash before something that is no digit: there is a first number and no second. */
  predicate OneNumber(t: string) {
    && |t| > 3 && IsDigit(t[0])
    && ( || (t[1] == '-' && !IsDigit(t[2]))
         || (IsDigit(t[1]) && t[2] == '-' && !IsDigit(t[3]))
         || (IsDigit(t[1]) && IsDigit(t[2])))
  }

  lemma OneNumberOnly(t: string)
    requires OneNumber(t)
    ensures Scan(t, 2).Some? && ScanDashed(Scan(t, 2).value.rest, 2).None?
  {
    assert LeadingDigits(t[1..], 1) == if IsDigit(t[1]) then 1 else 0;
  }

  lemma TailIsOneNumber(pid: nat, c: Category)
    ensures OneNumber(Tail(pid, c)) && |Tail(pid, c)| >= 11
  {
    var d := Decimal(pid);
    var t := Tail(pid, c);
    assert forall i | 0 <= i < |d| :: t[i] == d[i];
    assert t[|d|] == '-' && t[|d| + 1] == CategoryText(c)[0];
  }

  /** A pid and category after a date are not read as a time of day. */
  lemma PidIsNoTime(date: Dated, t: string)
    requires OneNumber(t)
    ensures ParseTime(date, t).None?
  {
    OneNumberOnly(t);
  }

  /** Nor after an hour are they read as minutes and seconds. */
  lemma PidIsNoMinutes(date: Dated, hour: nat, t: string)
    requires hour < 100 && OneNumber(t)
    ensures ParseTime(date, Pad2(hour) + ("-" + t)).None?
  {
    SmallPowers();
    ScanPad(hour, 2, "-" + t);
    assert ("-" + t)[1..] == t;
    OneNumberOnly(t);
  }

  lemma ParsePad2(n: nat)
    requires n < 100
    ensures ParseUnsigned(Pad2(n)) == Some(n)
  {
    ParseDigits(Pad2(n));
    SmallPowers();
    PadValue(n, 2);
  }

  /** What starts with a digit and is all digits reads as its value. */
  lemma ParseDigits(s: string)
    requires s != [] && AllDigits(s)
    ensures ParseUnsigned(s) == Some(Value(s)) && ParseSigned(s) == Some(Value(s))
  {
    assert IsDigit(s[0]) && s[0] != '+' && s[0] != '-';
  }

  lemma YearBeforeZero()
    ensures ParseSigned("-001") == Some(-1)
  {
    SmallPowers();
    PadValue(1, 3);
    assert "-001"[1..] == Pad(1, 3);
  }

  lemma ParseYearText(y: int)
    requires -1 <= y <= 9999
    ensures ParseSigned(YearText(y)) == Some(y)
  {
    if y >= 0 {
      ParseDigits(Pad4(y));
      SmallPowers();
      PadValue(y, 4);
    } else {
      YearBeforeZero();
    }
  }

  /** The start of a dated name: no week, and its first ten characters are a date. */
  lemma DatedName(at: Instant, rest: string)
    requires IsInstant(at)
    ensures var name := DateText(at) + rest;
            && name[..10] == DateText(at) && name[5] != 'W'
            && ScanDate(name[..10]) == Some(Dated(at.year, at.month, at.day, []))
  {
    var name := DateText(at) + rest;
    assert name[5] == Pad2(at.month)[0];
    assert name[..10] == DateText(at) + [];
    ScanDateText(at, []);
  }

  /** What follows the date, if it starts with a dash, is read as a time of day. */
  lemma DatedTime(at: Instant, rest: string)
    requires IsInstant(at)
    ensures ParseDateTime(DateText(at) + ("-" + rest)) == ParseTime(Dated(at.year, at.month, at.day, "-" + rest), rest)
  {
    ScanDateText(at, "-" + rest);
    assert ("-" + rest)[1..] == rest;
  }

  /** How the name of a window is dated; a daily name's pid may read as an hour. */
  function DatingOf(rotation: Rotation, at: Instant, pid: nat): Dating
    requires IsInstant(at)
  {
    match rotation
    case Daily => OfTime(at.year, at.month, at.day, if 10 <= pid < 24 then pid else 0, 0, 0)
    case Hourly => OfTime(at.year, at.month, at.day, at.hour, 0, 0)
    case Weekly => OfWeek(IsoWeekOf(at.year, Day(at)))
    case Minutes(granule) =>
      OfTime(at.year, at.month, at.day, Floored(at, granule) / 60, Floored(at, granule) % 60, 0)
  }

  lemma WeekShape(year: string, week: string, tail: string)
    requires |year| == 4 && |week| == 2
    ensures var name := year + "-W" + week + "-" + tail;
            && |name| > 8 && name[4] == '-' && name[5] == 'W' && name[8] == '-'
            && name[..4] == year && name[6..8] == week
  {
  }

  lemma WeekReadBack(y: int, week: nat)
    requires -1 <= y <= 9999 && week < 100 && IsIsoWeek(IsoWeek(y, week))
    ensures ParseWeek(YearText(y), Pad2(week)) == Some(OfWeek(IsoWeek(y, week)))
  {
    ParseYearText(y);
    ParsePad2(week);
  }

  lemma WeeklyName(at: Instant, tail: string)
    requires HasStamp(Weekly, at)
    ensures ParseStamp(WeekText(at) + "-" + tail) == Some(OfWeek(IsoWeekOf(at.year, Day(at))))
  {
    var w := IsoWeekOf(at.year, Day(at));
    DateInYear(at.year, at.month, at.day);
    WeekRoundTrip(at.year, Day(at));
    WeekShape(YearText(w.year), Pad2(w.week), tail);
    WeekReadBack(w.year, w.week);
  }

  lemma MinutesShape(date: string, h: string, m: string, tail: string)
    requires |date| == 10 && |h| == |m| == 2
    ensures var name := date + "-" + h + "-" + m + "-00" + "-" + tail;
            && |name| > 19 && name[19] == '-' && name == date + name[10..]
            && name[..19] == date + ("-" + (h + ("-" + (m + "-00"))))
  {
  }

  lemma MinutesTime(at: Instant, h: nat, m: nat)
    requires IsInstant(at) && h < 24 && m < 60
    ensures ParseDateTime(DateText(at) + ("-" + (Pad2(h) + ("-" + (Pad2(m) + "-00")))))
         == Some(OfTime(at.year, at.month, at.day, h, m, 0))
  {
    var time := Pad2(h) + ("-" + (Pad2(m) + "-00"));
    DatedTime(at, time);
    ParseTimeText(Dated(at.year, at.month, at.day, "-" + time), h, m);
  }

  lemma MinutesName(at: Instant, h: nat, m: nat, tail: string)
    requires IsInstant(at) && h < 24 && m < 60
    ensures ParseStamp(DateText(at) + "-" + Pad2(h) + "-" + Pad2(m) + "-00" + "-" + tail)
         == Some(OfTime(at.year, at.month, at.day, h, m, 0))
  {
    var name := DateText(at) + "-" + Pad2(h) + "-" + Pad2(m) + "-00" + "-" + tail;
    MinutesShape(DateText(at), Pad2(h), Pad2(m), tail);
    DatedName(at, name[10..]);
    MinutesTime(at, h, m);
  }

  lemma HourAndPid(at: Instant, t: string)
    requires IsInstant(at) && OneNumber(t)
    ensures ParseDateTime(DateText(at) + ("-" + (Pad2(at.hour) + ("-" + t)))).None?
  {
    var time := Pad2(at.hour) + ("-" + t);
    DatedTime(at, time);
    PidIsNoMinutes(Dated(at.year, at.month, at.day, "-" + time), at.hour, t);
  }

  lemma HourlyShape(date: string, h: string, tail: string)
    requires |date| == 10 && |h| == 2 && |tail| >= 11
    ensures var name := date + "-" + h + "-" + tail;
            && |name| > 19 && name[10] == '-' && name[13] == '-' && name == date + name[10..]
            && name[11..13] == h && name[..19] == date + ("-" + (h + ("-" + tail[..5])))
  {
  }

  lemma HourlyName(at: Instant, tail: string)
    requires IsInstant(at) && |tail| >= 11 && OneNumber(tail)
    ensures ParseStamp(DateText(at) + "-" + Pad2(at.hour) + "-" + tail)
         == Some(OfTime(at.year, at.month, at.day, at.hour, 0, 0))
  {
    var name := DateText(at) + "-" + Pad2(at.hour) + "-" + tail;
    HourlyShape(DateText(at), Pad2(at.hour), tail);
    DatedName(at, name[10..]);
    HourAndPid(at, tail[..5]);
    ParsePad2(at.hour);
  }

  lemma DailyShape(date: string, tail: string)
    requires |date| == 10 && |tail| >= 11
    ensures var name := date + "-" + tail;
            && |name| > 19 && name[10] == '-' && name[13] == tail[2] && name == date + name[10..]
            && name[11..13] == tail[..2] && name[..19] == date + ("-" + tail[..8])
  {
  }

  lemma DailyName(at: Instant, tail: string)
    requires IsInstant(at) && |tail| >= 11 && OneNumber(tail)
    ensures ParseStamp(DateText(at) + "-" + tail) == Some(OfTime(at.year, at.month, at.day, HourIn(tail), 0, 0))
  {
    var name := DateText(at) + "-" + tail;
    DailyShape(DateText(at), tail);
    DatedName(at, name[10..]);
    assert ParseDateTime(name[..19]).None? by {
      DatedTime(at, tail[..8]);
      PidIsNoTime(Dated(at.year, at.month, at.day, "-" + tail[..8]), tail[..8]);
    }
  }

  /** The hour the start of a tail reads as, or none: zero. */
  function HourIn(tail: string): nat
    requires |tail| >= 3
  {
    var hour := ParseUnsigned(tail[..2]);
    if tail[2] == '-' && hour.Some? && hour.value < 24 then hour.value else 0
  }

  /** The pid is read as an hour exactly when it has two digits and is below 24. */
  lemma PidAsHour(pid: nat, c: Category)
    ensures |Tail(pid, c)| >= 11 && HourIn(Tail(pid, c)) == if 10 <= pid < 24 then pid else 0
  {
    var d := Decimal(pid);
    var tail := Tail(pid, c);
    TailIsOneNumber(pid, c);
    SmallPowers();
    DecimalLength(pid, 1);
    DecimalLength(pid, 2);
    assert tail[2] == '-' <==> |d| == 2;
    if |d| == 2 {
      assert tail[..2] == d;
      DecimalValue(pid);
    }
  }

  /** Every name the sink generates is read back as its window's dating. */
  lemma NamesAreReadBack(rotation: Rotation, at: Instant, pid: nat, c: Category)
    requires HasStamp(rotation, at)
    ensures ParseStamp(LogName(Stamp(rotation, at), pid, c)) == Some(DatingOf(rotation, at, pid))
  {
    var tail := Tail(pid, c);
    TailIsOneNumber(pid, c);
    match rotation
    case Daily =>
      DailyName(at, tail);
      PidAsHour(pid, c);
    case Hourly =>
      HourlyName(at, tail);
    case Weekly =>
      WeeklyName(at, tail);
    case Minutes(granule) =>
      MinutesName(at, Floored(at, granule) / 60, Floored(at, granule) % 60, tail);
  }

  /** How far a name is dated after its window's start. */
  function Misreading(rotation: Rotation, pid: nat): (r: nat)
    ensures r <= 23 * 3600
  {
    if rotation.Daily? && 10 <= pid < 24 then 3600 * pid else 0
  }

  lemma DatingIsWindow(rotation: Rotation, at: Instant, pid: nat)
    requires IsInstant(at)
    ensures IsDating(DatingOf(rotation, at, pid))
    ensures When(DatingOf(rotation, at, pid)) == WindowStart(rotation, at) + Misreading(rotation, pid)
  {
    if rotation.Weekly? {
      DateInYear(at.year, at.month, at.day);
      WeekRoundTrip(at.year, Day(at));
    }
  }

  /** Every name the sink generates is dated with its window's start, or later, never earlier. */
  lemma NamesCarryTheirWindow(rotation: Rotation, at: Instant, pid: nat, c: Category)
    requires HasStamp(rotation, at)
    ensures var d := ParseStamp(LogName(Stamp(rotation, at), pid, c));
            d.Some? && When(d.value) == WindowStart(rotation, at) + Misreading(rotation, pid)
  {
    NamesAreReadBack(rotation, at, pid, c);
    DatingIsWindow(rotation, at, pid);
  }

  /** A stamp identifies its window. */
  lemma SameStampSameWindow(rotation: Rotation, a: Instant, b: Instant)
    requires HasStamp(rotation, a) && HasStamp(rotation, b)
    requires Stamp(rotation, a) == Stamp(rotation, b)
    ensures WindowStart(rotation, a) == WindowStart(rotation, b)
  {
    NamesCarryTheirWindow(rotation, a, 0, General);
    NamesCarryTheirWindow(rotation, b, 0, General);
  }
}
