/** Python `datetime` values as the library uses them: parsed from ISO 8601
    text, converted to UTC, stripped of microseconds and printed again.

    A value is a wall-clock reading plus, for an aware value, its UTC
    offset in whole minutes. Conversions between offsets move the wall
    clock by less than a day, so they are written as a shift of the
    minute of the day with a carry of one day either way; no day count
    since an epoch is needed. */
module IsoDates {
  import opened Errors
  import opened Numerals

  datatype Date = Date(year: int, month: int, day: int)

  /** `offset` is minutes east of UTC; None is a naive value. */
  datatype DateTime = DateTime(date: Date, hour: int, minute: int, second: int, micro: int, offset: Option<int>)

  const MinutesPerDay := 1440

  predicate IsLeap(y: int) {
    y % 4 == 0 && (y % 100 != 0 || y % 400 == 0)
  }

  function DaysInMonth(y: int, m: int): int
    requires 1 <= m <= 12
  {
    if m == 2 then (if IsLeap(y) then 29 else 28)
    else if m == 4 || m == 6 || m == 9 || m == 11 then 30
    else 31
  }

  /** A day of the proleptic Gregorian calendar, in any year. */
  predicate CalendarDate(d: Date) {
    1 <= d.month <= 12 && 1 <= d.day <= DaysInMonth(d.year, d.month)
  }

  /** `datetime.MINYEAR <= year <= datetime.MAXYEAR`. */
  predicate InRange(d: Date) {
    1 <= d.year <= 9999
  }

  predicate ValidClock(dt: DateTime) {
    0 <= dt.hour < 24 && 0 <= dt.minute < 60 && 0 <= dt.second < 60 && 0 <= dt.micro < 1000000
  }

  /** Python requires an offset strictly inside one day. */
  predicate ValidOffset(o: Option<int>) {
    o.Some? ==> -MinutesPerDay < o.value < MinutesPerDay
  }

  /** Everything a Python `datetime` object can hold (whole-minute offsets). */
  predicate Valid(dt: DateTime) {
    CalendarDate(dt.date) && InRange(dt.date) && ValidClock(dt) && ValidOffset(dt.offset)
  }

  /** An aware Python datetime. */
  type Aware = dt: DateTime | Valid(dt) && dt.offset.Some?
    witness DateTime(Date(1, 1, 1), 0, 0, 0, 0, Some(0))

  /** Any Python datetime, naive or aware. */
  type PyDateTime = dt: DateTime | Valid(dt)
    witness DateTime(Date(1, 1, 1), 0, 0, 0, 0, None)

  /** A reading that is a correct clock face, whatever its year. */
  predicate Reading(dt: DateTime) {
    CalendarDate(dt.date) && ValidClock(dt) && ValidOffset(dt.offset)
  }

  function NextDay(d: Date): (r: Date)
    requires CalendarDate(d)
    ensures CalendarDate(r)
  {
    if d.day < DaysInMonth(d.year, d.month) then d.(day := d.day + 1)
    else if d.month < 12 then Date(d.year, d.month + 1, 1)
    else Date(d.year + 1, 1, 1)
  }

  function PrevDay(d: Date): (r: Date)
    requires CalendarDate(d)
    ensures CalendarDate(r)
  {
    if d.day > 1 then d.(day := d.day - 1)
    else if d.month > 1 then Date(d.year, d.month - 1, DaysInMonth(d.year, d.month - 1))
    else Date(d.year - 1, 12, 31)
  }

  lemma PrevOfNext(d: Date)
    requires CalendarDate(d)
    ensures PrevDay(NextDay(d)) == d
  {
  }

  lemma NextOfPrev(d: Date)
    requires CalendarDate(d)
    ensures NextDay(PrevDay(d)) == d
  {
  }

  /** The wall clock `delta` minutes later, for a shift of less than a day. */
  function ShiftMinutes(dt: DateTime, delta: int): (r: DateTime)
    requires Reading(dt) && -MinutesPerDay < delta < MinutesPerDay
    ensures Reading(r)
    ensures r.second == dt.second && r.micro == dt.micro && r.offset == dt.offset
  {
    var m := dt.hour * 60 + dt.minute + delta;
    if m < 0 then
      dt.(date := PrevDay(dt.date), hour := (m + MinutesPerDay) / 60, minute := (m + MinutesPerDay) % 60)
    else if m >= MinutesPerDay then
      dt.(date := NextDay(dt.date), hour := (m - MinutesPerDay) / 60, minute := (m - MinutesPerDay) % 60)
    else
      dt.(hour := m / 60, minute := m % 60)
  }

  /** Shifting forth and back again gives the original reading. */
  lemma ShiftBack(dt: DateTime, delta: int)
    requires Reading(dt) && -MinutesPerDay < delta < MinutesPerDay
    ensures ShiftMinutes(ShiftMinutes(dt, delta), -delta) == dt
  {
    var m := dt.hour * 60 + dt.minute + delta;
    if m < 0 {
      NextOfPrev(dt.date);
    } else if m >= MinutesPerDay {
      PrevOfNext(dt.date);
    }
  }

  /** The same instant read at UTC; the year may leave 1..9999, which is
      what Python's comparisons of aware values allow. */
  function AsUtc(dt: DateTime): (u: DateTime)
    requires Reading(dt) && dt.offset.Some?
    ensures Reading(u) && u.offset == Some(0) && u.second == dt.second && u.micro == dt.micro
  {
    ShiftMinutes(dt, -dt.offset.value).(offset := Some(0))
  }

  /** `u.astimezone(timezone(timedelta(minutes=off)))` for a UTC reading. */
  function AtOffset(u: DateTime, off: int): (r: DateTime)
    requires Reading(u) && -MinutesPerDay < off < MinutesPerDay
    ensures Reading(r) && r.offset == Some(off)
  {
    ShiftMinutes(u, off).(offset := Some(off))
  }

  /** `_normalize_dt`: `dt.astimezone(UTC).replace(microsecond=0)`.
      astimezone raises OverflowError when the UTC reading leaves the
      years Python supports; the library lets it escape. */
  function Normalize(dt: DateTime): (r: Result<DateTime>)
    requires Valid(dt) && dt.offset.Some?
    ensures r.Ok? ==> Valid(r.value) && r.value.offset == Some(0) && r.value.micro == 0
    ensures r.Ok? ==> AtOffset(r.value, dt.offset.value) == dt.(micro := 0)
    ensures r.Err? <==> !InRange(AsUtc(dt).date)
    ensures r.Err? ==> r.error == Overflow
  {
    var u := AsUtc(dt);
    ShiftBack(dt, -dt.offset.value);
    if InRange(u.date) then Ok(u.(micro := 0)) else Err(Overflow)
  }

  /** Normalising a normalised value changes nothing. */
  lemma NormalizeIdempotent(dt: DateTime)
    requires Valid(dt) && dt.offset.Some?
    ensures Normalize(dt).Ok? ==> Normalize(Normalize(dt).value) == Normalize(dt)
  {
    if Normalize(dt).Ok? {
      var u := Normalize(dt).value;
      assert ShiftMinutes(u, 0) == u;
    }
  }

  /** Strict order of two readings at UTC, microseconds included. */
  predicate UtcBefore(a: DateTime, b: DateTime) {
    if a.date.year != b.date.year then a.date.year < b.date.year
    else if a.date.month != b.date.month then a.date.month < b.date.month
    else if a.date.day != b.date.day then a.date.day < b.date.day
    else if a.hour != b.hour then a.hour < b.hour
    else if a.minute != b.minute then a.minute < b.minute
    else if a.second != b.second then a.second < b.second
    else a.micro < b.micro
  }

  /** `a < b` for two aware datetimes: compares the instants. */
  predicate Earlier(a: DateTime, b: DateTime)
    requires Reading(a) && a.offset.Some? && Reading(b) && b.offset.Some?
  {
    UtcBefore(AsUtc(a), AsUtc(b))
  }

  lemma UtcBeforeTransitive(a: DateTime, b: DateTime, c: DateTime)
    requires UtcBefore(a, b) && UtcBefore(b, c)
    ensures UtcBefore(a, c)
  {
  }

  /** The calendar date of the instant `now` (a UTC reading) in the zone
      with offset `off`: `datetime.now(tz).date()`. */
  function TodayIn(now: DateTime, off: int): Date
    requires Reading(now) && -MinutesPerDay < off < MinutesPerDay
  {
    AtOffset(now, off).date
  }

  // ---------------------------------------------------------------------
  // isoformat

  function Pow10(n: nat): (p: nat)
    ensures p >= 1
  {
    if n == 0 then 1 else 10 * Pow10(n - 1)
  }

  /** `n` as exactly `width` decimal digits, zero-padded. */
  function Pad(n: nat, width: nat): (s: string)
    requires n < Pow10(width)
    ensures |s| == width && AllDigits(s)
  {
    if width == 0 then [] else Pad(n / 10, width - 1) + [DigitChar(n % 10)]
  }

  lemma {:induction false} PadValue(n: nat, width: nat)
    requires n < Pow10(width)
    ensures DigitsValue(Pad(n, width)) == n
  {
    if width > 0 {
      var s := Pad(n, width);
      assert s[..|s| - 1] == Pad(n / 10, width - 1);
      PadValue(n / 10, width - 1);
    }
  }

  function DateText(d: Date): (s: string)
    requires CalendarDate(d) && InRange(d)
    ensures |s| == 10
  {
    Pad(d.year, 4) + "-" + Pad(d.month, 2) + "-" + Pad(d.day, 2)
  }

  function ClockText(dt: DateTime): string
    requires ValidClock(dt)
  {
    Pad(dt.hour, 2) + ":" + Pad(dt.minute, 2) + ":" + Pad(dt.second, 2)
    + (if dt.micro != 0 then "." + Pad(dt.micro, 6) else "")
  }

  function OffsetText(o: Option<int>): string
    requires ValidOffset(o)
  {
    match o
    case None => ""
    case Some(m) =>
      var a := if m < 0 then -m else m;
      (if m < 0 then "-" else "+") + Pad(a / 60, 2) + ":" + Pad(a % 60, 2)
  }

  /** `datetime.isoformat()`: microseconds only when non-zero, the offset
      only for an aware value. */
  function IsoFormat(dt: DateTime): string
    requires Valid(dt)
  {
    DateText(dt.date) + "T" + ClockText(dt) + OffsetText(dt.offset)
  }

  // ---------------------------------------------------------------------
  // fromisoformat (the extended forms the API uses)

  /** A non-empty run of digits and its value. */
  function Number(s: string): (r: Option<nat>)
    ensures r.Some? <==> s != [] && AllDigits(s)
  {
    if s != [] && AllDigits(s) then Some(DigitsValue(s)) else None
  }

  /** `YYYY-MM-DD` naming a real day of years 1..9999. */
  function ParseDate(s: string): (r: Option<Date>)
    ensures r.Some? ==> CalendarDate(r.value) && InRange(r.value)
  {
    if |s| != 10 || s[4] != '-' || s[7] != '-' then None
    else
      var y :- Number(s[..4]);
      var m :- Number(s[5..7]);
      var d :- Number(s[8..]);
      var date := Date(y, m, d);
      if 1 <= m <= 12 && CalendarDate(date) && InRange(date) then Some(date) else None
  }

  /** Up to six fraction digits give the microseconds; further digits are
      read and dropped. */
  function FractionMicros(f: string): (us: nat)
    requires f != [] && AllDigits(f)
    ensures us < 1000000
  {
    if |f| >= 6 then
      assert AllDigits(f[..6]);
      Pad6Bound(f[..6]);
      DigitsValue(f[..6])
    else
      Pad6Bound(f);
      DigitsValue(f) * Pow10(6 - |f|)
  }

  lemma {:induction false} DigitsBound(s: string)
    requires AllDigits(s)
    ensures DigitsValue(s) < Pow10(|s|)
  {
    if s != [] {
      DigitsBound(s[..|s| - 1]);
    }
  }

  lemma Pad6Bound(s: string)
    requires AllDigits(s) && |s| <= 6
    ensures DigitsValue(s) * Pow10(6 - |s|) < 1000000
  {
    DigitsBound(s);
    var p := Pow10(|s|);
    var q := Pow10(6 - |s|);
    PowAdd(|s|, 6 - |s|);
    assert p * q == 1000000;
    assert DigitsValue(s) + 1 <= p;
    assert (DigitsValue(s) + 1) * q <= p * q;
  }

  lemma {:induction false} PowAdd(a: nat, b: nat)
    ensures Pow10(a) * Pow10(b) == Pow10(a + b)
  {
    if a > 0 {
      PowAdd(a - 1, b);
    }
  }

  /** `HH:MM`, `HH:MM:SS` or `HH:MM:SS` followed by `.` or `,` and digits. */
  function ParseClock(c: string): (r: Option<(int, int, int, int)>)
  {
    if |c| < 5 || c[2] != ':' then None
    else
      var h :- Number(c[..2]);
      var mi :- Number(c[3..5]);
      if h >= 24 || mi >= 60 then None
      else if |c| == 5 then Some((h, mi, 0, 0))
      else if |c| < 8 || c[5] != ':' then None
      else
        var se :- Number(c[6..8]);
        if se >= 60 then None
        else if |c| == 8 then Some((h, mi, se, 0))
        else if (c[8] != '.' && c[8] != ',') || |c| == 9 || !AllDigits(c[9..]) then None
        else Some((h, mi, se, FractionMicros(c[9..])))
  }

  /** Nothing (a naive value) or `+HH:MM` / `-HH:MM` strictly inside a day. */
  function ParseOffset(o: string): (r: Option<Option<int>>)
    ensures r.Some? ==> ValidOffset(r.value)
  {
    if o == [] then Some(None)
    else if |o| != 6 || (o[0] != '+' && o[0] != '-') || o[3] != ':' then None
    else
      var h :- Number(o[1..3]);
      var m :- Number(o[4..]);
      if h >= 24 || m >= 60 then None
      else Some(Some(if o[0] == '-' then -(h * 60 + m) else h * 60 + m))
  }

  /** The position of the first sign in a time text: where its offset starts. */
  function SignIndex(t: string): (k: nat)
    ensures k <= |t|
  {
    if t == [] || t[0] == '+' || t[0] == '-' then 0 else 1 + SignIndex(t[1..])
  }

  /** `datetime.fromisoformat` on `YYYY-MM-DD`, optionally followed by any
      one separator character, a clock reading and an offset. */
  function ParseIso(s: string): (r: Option<DateTime>)
    ensures r.Some? ==> Valid(r.value)
  {
    if |s| < 10 then None
    else
      var date :- ParseDate(s[..10]);
      if |s| == 10 then Some(DateTime(date, 0, 0, 0, 0, None))
      else
        var rest := s[11..];
        var k := SignIndex(rest);
        var clock :- ParseClock(rest[..k]);
        var off :- ParseOffset(rest[k..]);
        var dt := DateTime(date, clock.0, clock.1, clock.2, clock.3, off);
        if ValidClock(dt) then Some(dt) else None
  }

  /** `value.replace("Z", "+00:00")`. */
  function ReplaceZ(s: string): (r: string)
  {
    if s == [] then []
    else (if s[0] == 'Z' then "+00:00" else [s[0]]) + ReplaceZ(s[1..])
  }

  // ---------------------------------------------------------------------
  // Round trips

  lemma DateRoundTrip(d: Date)
    requires CalendarDate(d) && InRange(d)
    ensures ParseDate(DateText(d)) == Some(d)
  {
    var s := DateText(d);
    assert s[..4] == Pad(d.year, 4);
    assert s[5..7] == Pad(d.month, 2);
    assert s[8..] == Pad(d.day, 2);
    PadValue(d.year, 4);
    PadValue(d.month, 2);
    PadValue(d.day, 2);
  }

  lemma ClockRoundTrip(dt: DateTime)
    requires ValidClock(dt)
    ensures ParseClock(ClockText(dt)) == Some((dt.hour, dt.minute, dt.second, dt.micro))
  {
    var c := ClockText(dt);
    assert c[..2] == Pad(dt.hour, 2);
    assert c[3..5] == Pad(dt.minute, 2);
    assert c[6..8] == Pad(dt.second, 2);
    PadValue(dt.hour, 2);
    PadValue(dt.minute, 2);
    PadValue(dt.second, 2);
    if dt.micro != 0 {
      assert c[9..] == Pad(dt.micro, 6);
      assert c[9..][..6] == c[9..];
      PadValue(dt.micro, 6);
    }
  }

  lemma OffsetRoundTrip(o: Option<int>)
    requires ValidOffset(o)
    ensures ParseOffset(OffsetText(o)) == Some(o)
  {
    if o.Some? {
      var m := o.value;
      var a := if m < 0 then -m else m;
      var t := OffsetText(o);
      var h, n := a / 60, a % 60;
      assert h * 60 + n == a && h < 24;
      var sign := if m < 0 then '-' else '+';
      assert t == [sign] + Pad(h, 2) + ":" + Pad(n, 2);
      OffsetParsed(t, sign, h, n);
    }
  }

  /** `ParseOffset` reads back a sign, two padded hour digits, a colon and
      two padded minute digits. */
  lemma OffsetParsed(t: string, sign: char, h: nat, n: nat)
    requires h < 24 && n < 60 && (sign == '-' || sign == '+')
    requires t == [sign] + Pad(h, 2) + ":" + Pad(n, 2)
    ensures ParseOffset(t) == Some(Some(if sign == '-' then -(h * 60 + n) else h * 60 + n))
  {
    assert |t| == 6 && t[0] == sign && t[3] == ':';
    assert t[1..3] == Pad(h, 2);
    assert t[4..] == Pad(n, 2);
    PadValue(h, 2);
    PadValue(n, 2);
    assert Number(t[1..3]) == Some(h) && Number(t[4..]) == Some(n);
  }

  predicate NoSign(t: string) {
    forall i :: 0 <= i < |t| ==> t[i] != '+' && t[i] != '-'
  }

  lemma {:induction false} SignIndexAfter(a: string, b: string)
    requires NoSign(a) && (b == [] || b[0] == '+' || b[0] == '-')
    ensures SignIndex(a + b) == |a|
  {
    if a != [] {
      assert (a + b)[1..] == a[1..] + b;
      SignIndexAfter(a[1..], b);
    }
  }

  lemma ClockTextNoSign(dt: DateTime)
    requires ValidClock(dt)
    ensures NoSign(ClockText(dt))
  {
  }

  /** `datetime.fromisoformat(dt.isoformat()) == dt`. */
  lemma IsoRoundTrip(dt: DateTime)
    requires Valid(dt)
    ensures ParseIso(IsoFormat(dt)) == Some(dt)
  {
    var s := IsoFormat(dt);
    var c := ClockText(dt);
    var o := OffsetText(dt.offset);
    IsoPieces(s, DateText(dt.date), c, o);
    DateRoundTrip(dt.date);
    var rest := s[11..];
    ClockTextNoSign(dt);
    SignIndexAfter(c, o);
    assert rest[..|c|] == c;
    assert rest[|c|..] == o;
    ClockRoundTrip(dt);
    OffsetRoundTrip(dt.offset);
  }

  lemma IsoPieces(s: string, date: string, clock: string, offset: string)
    requires s == date + "T" + clock + offset && |date| == 10
    ensures |s| > 10 && s[..10] == date && s[11..] == clock + offset
  {
    assert s[..10] == date;
    assert s[11..] == clock + offset;
  }

  lemma {:induction false} ReplaceZConcat(a: string, b: string)
    ensures ReplaceZ(a + b) == ReplaceZ(a) + ReplaceZ(b)
  {
    if a == [] {
      assert a + b == b;
    } else {
      assert (a + b)[0] == a[0];
      assert (a + b)[1..] == a[1..] + b;
      ReplaceZConcat(a[1..], b);
    }
  }

  lemma {:induction false} ReplaceZNoZ(s: string)
    requires forall i :: 0 <= i < |s| ==> s[i] != 'Z'
    ensures ReplaceZ(s) == s
  {
    if s != [] {
      ReplaceZNoZ(s[1..]);
    }
  }

  lemma IsoFormatNoZ(dt: DateTime)
    requires Valid(dt)
    ensures forall i :: 0 <= i < |IsoFormat(dt)| ==> IsoFormat(dt)[i] != 'Z'
  {
  }

  /** An ISO text with an explicit `+00:00` is the naive text plus "+00:00". */
  lemma UtcText(dt: DateTime)
    requires Valid(dt) && dt.offset.None?
    ensures IsoFormat(dt.(offset := Some(0))) == IsoFormat(dt) + "+00:00"
  {
    assert Pad(0, 2) == "00";
  }
}
