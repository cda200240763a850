/** The entity parser: strict field accessors over decoded JSON and the
    record builders for accounts, reservations, favourites and zones.
    A ParseError carries the field (or shape) it objects to. */
module Models {
  import opened Errors
  import opened Json
  import opened Numerals
  import opened IsoDates

  // ---------------------------------------------------------------------
  // Field accessors

  /** `_parse_int`: Python `int(value)`; TypeError and ValueError become a
      ParseError naming the field. */
  function ParseIntField(value: Json, field: string): (r: Result<int>)
    ensures r.Ok? <==> PyInt(value).Some?
    ensures r.Ok? ==> r.value == PyInt(value).value
    ensures r.Err? ==> r.error == ParseError(field)
  {
    match PyInt(value)
    case Some(n) => Ok(n)
    case None => Err(ParseError(field))
  }

  /** Integers and their decimal text both parse to themselves; null,
      lists and objects never parse. */
  lemma ParseIntAccepts(n: int, field: string)
    ensures ParseIntField(JInt(n), field) == Ok(n)
    ensures ParseIntField(JStr(IntToString(n)), field) == Ok(n)
    ensures ParseIntField(JNull, field) == Err(ParseError(field))
  {
    IntRoundTrip(n);
  }

  /** `_parse_str`: the value itself when it is a string, never a coercion. */
  function ParseStr(value: Json, field: string): (r: Result<string>)
    ensures r.Ok? <==> value.JStr?
    ensures r.Ok? ==> value == JStr(r.value)
    ensures r.Err? ==> r.error == ParseError(field)
  {
    if value.JStr? then Ok(value.s) else Err(ParseError(field))
  }

  /** `_parse_optional_str`: null gives None, a string gives itself, any
      other value is an error. */
  function ParseOptionalStr(value: Json, field: string): (r: Result<Option<string>>)
    ensures r == Ok(None) <==> value.JNull?
    ensures forall s :: r == Ok(Some(s)) <==> value == JStr(s)
    ensures r.Err? <==> !value.JNull? && !value.JStr?
    ensures r.Err? ==> r.error == ParseError(field)
  {
    match value
    case JNull => Ok(None)
    case JStr(s) => Ok(Some(s))
    case _ => Err(ParseError(field))
  }

  // ---------------------------------------------------------------------
  // Datetimes

  /** `_parse_dt_value`: every "Z" becomes "+00:00", the text goes through
      `fromisoformat`, and a naive result is taken to be UTC. */
  function ParseDtValue(value: Json, field: string): (r: Result<Aware>)
    ensures !value.JStr? ==> r == Err(ParseError(field))
    ensures r.Err? ==> r.error == ParseError(field)
  {
    if !value.JStr? then Err(ParseError(field))
    else
      match ParseIso(ReplaceZ(value.s))
      case None => Err(ParseError(field))
      case Some(dt) => Ok(if dt.offset.None? then dt.(offset := Some(0)) else dt)
  }

  /** `_dt_to_client`: the normalised value in ISO 8601 text. */
  function DtToClient(dt: DateTime): (r: Result<string>)
    requires Valid(dt) && dt.offset.Some?
    ensures r.Ok? <==> Normalize(dt).Ok?
    ensures r.Ok? ==> ParseIso(r.value) == Some(Normalize(dt).value)
    ensures r.Err? ==> r.error == Overflow
  {
    var u :- Normalize(dt);
    IsoRoundTrip(u);
    Ok(IsoFormat(u))
  }

  /** `_parse_dt`: parse, then normalise to UTC whole seconds. */
  function ParseDt(value: Json, field: string): (r: Result<DateTime>)
    ensures r.Ok? ==> Valid(r.value) && r.value.offset == Some(0) && r.value.micro == 0
    ensures r.Ok? ==> ParseDtValue(value, field).Ok?
    ensures r.Err? <==> ParseDtValue(value, field).Err? || Normalize(ParseDtValue(value, field).value).Err?
    ensures r.Err? ==> r.error == ParseError(field) || r.error == Overflow
    ensures r.Ok? ==> var pv := ParseDtValue(value, field).value;
      AtOffset(r.value, pv.offset.value) == pv.(micro := 0)
  {
    var dt :- ParseDtValue(value, field);
    Normalize(dt)
  }

  /** An aware ISO text parses back to the value it was printed from. */
  lemma ParseDtValueAware(dt: DateTime, field: string)
    requires Valid(dt) && dt.offset.Some?
    ensures ParseDtValue(JStr(IsoFormat(dt)), field) == Ok(dt)
  {
    IsoFormatNoZ(dt);
    ReplaceZNoZ(IsoFormat(dt));
    IsoRoundTrip(dt);
  }

  /** A text without an offset is read as UTC. */
  lemma ParseDtValueNaive(dt: DateTime, field: string)
    requires Valid(dt) && dt.offset.None?
    ensures ParseDtValue(JStr(IsoFormat(dt)), field) == Ok(dt.(offset := Some(0)))
  {
    IsoFormatNoZ(dt);
    ReplaceZNoZ(IsoFormat(dt));
    IsoRoundTrip(dt);
  }

  /** A trailing "Z" is read as "+00:00". */
  lemma ParseDtValueZulu(dt: DateTime, field: string)
    requires Valid(dt) && dt.offset.None?
    ensures ParseDtValue(JStr(IsoFormat(dt) + "Z"), field) == Ok(dt.(offset := Some(0)))
  {
    var t := IsoFormat(dt);
    IsoFormatNoZ(dt);
    ReplaceZNoZ(t);
    ReplaceZConcat(t, "Z");
    assert ReplaceZ("Z") == "+00:00";
    UtcText(dt);
    IsoRoundTrip(dt.(offset := Some(0)));
  }

  /** Client text of a parsed value: a naive reading comes out as itself
      with "+00:00" appended, its microseconds dropped. */
  lemma NaiveClientText(dt: DateTime, field: string)
    requires Valid(dt) && dt.offset.None?
    ensures ParseDt(JStr(IsoFormat(dt)), field) == Ok(dt.(offset := Some(0), micro := 0))
    ensures DtToClient(dt.(offset := Some(0))) == Ok(IsoFormat(dt.(micro := 0)) + "+00:00")
  {
    ParseDtValueNaive(dt, field);
    var a := dt.(offset := Some(0));
    assert ShiftMinutes(a, 0) == a;
    UtcText(dt.(micro := 0));
  }

  /** "2025-12-23T00:47:00" is given to clients as "2025-12-23T00:47:00+00:00". */
  lemma ClientTextExample(text: string)
    requires text == "2025-12-23T00:47:00"
    ensures ParseDt(JStr(text), "reservation.ValidFrom").Ok?
    ensures DtToClient(ParseDt(JStr(text), "reservation.ValidFrom").value) == Ok(text + "+00:00")
  {
    var dt := DateTime(Date(2025, 12, 23), 0, 47, 0, 0, None);
    ExampleText(dt);
    NaiveClientText(dt, "reservation.ValidFrom");
    assert dt.(micro := 0) == dt;
  }

  lemma ExampleText(dt: DateTime)
    requires dt == DateTime(Date(2025, 12, 23), 0, 47, 0, 0, None)
    ensures Valid(dt) && IsoFormat(dt) == "2025-12-23T00:47:00"
  {
    ExampleDate(dt);
    ExampleClock(dt);
    NaiveIso(dt, "2025-12-23", "00:47:00");
    ExampleJoins();
  }

  /** A naive datetime's text is its date and its clock around the `T`. */
  lemma NaiveIso(dt: DateTime, date: string, clock: string)
    requires Valid(dt) && dt.offset.None? && DateText(dt.date) == date && ClockText(dt) == clock
    ensures IsoFormat(dt) == date + "T" + clock
  {
    assert OffsetText(dt.offset) == "";
  }

  lemma ExampleJoins()
    ensures "2025-12-23" + "T" + "00:47:00" == "2025-12-23T00:47:00"
    ensures "2025-12-23" + "T" + "23:59:00" == "2025-12-23T23:59:00"
  {
  }

  lemma ExampleDate(dt: DateTime)
    requires dt == DateTime(Date(2025, 12, 23), 0, 47, 0, 0, None)
    ensures Valid(dt) && DateText(dt.date) == "2025-12-23"
  {
    ExampleYear();
    ExampleMonthDay();
  }

  lemma ExampleYear()
    ensures Pad(2025, 4) == "2025"
  {
    assert Pad(2, 1) == "2";
    assert Pad(20, 2) == "20";
    assert Pad(202, 3) == "202";
  }

  lemma ExampleMonthDay()
    ensures Pad(12, 2) == "12" && Pad(23, 2) == "23"
  {
    assert Pad(1, 1) == "1";
    assert Pad(2, 1) == "2";
  }

  lemma ExampleClock(dt: DateTime)
    requires dt == DateTime(Date(2025, 12, 23), 0, 47, 0, 0, None)
    ensures Valid(dt) && ClockText(dt) == "00:47:00"
  {
    ExampleMonthDay();
    WholeSecondClock(dt);
    assert DigitChar(0) == '0' && DigitChar(4) == '4' && DigitChar(7) == '7';
  }

  /** Two digits, a leading zero included. */
  lemma PadTwo(n: nat)
    requires n < 100
    ensures Pad(n, 2) == [DigitChar(n / 10), DigitChar(n % 10)]
  {
    var h := n / 10;
    assert h < 10;
    assert Pad(h, 1) == [DigitChar(h)] by {
      assert h / 10 == 0 && h % 10 == h;
    }
  }

  /** The clock text of a time without microseconds, digit by digit. */
  lemma WholeSecondClock(dt: DateTime)
    requires ValidClock(dt) && dt.micro == 0
    ensures ClockText(dt) == [DigitChar(dt.hour / 10), DigitChar(dt.hour % 10), ':',
                              DigitChar(dt.minute / 10), DigitChar(dt.minute % 10), ':',
                              DigitChar(dt.second / 10), DigitChar(dt.second % 10)]
  {
    PadTwo(dt.hour);
    PadTwo(dt.minute);
    PadTwo(dt.second);
  }

  /** Normalising twice, as `Reservation.from_mapping` does, is the same
      as normalising once. */
  lemma ClientTextOfParsed(value: Json, field: string)
    requires ParseDt(value, field).Ok?
    ensures DtToClient(ParseDt(value, field).value) == DtToClient(ParseDtValue(value, field).value)
  {
    NormalizeIdempotent(ParseDtValue(value, field).value);
  }

  // ---------------------------------------------------------------------
  // Records

  datatype Account = Account(id: int, remainingTime: int, activeReservationCount: nat)
  datatype Reservation = Reservation(id: int, licensePlate: string, name: string, startTime: string, endTime: string)
  datatype Favorite = Favorite(licensePlate: string, name: Option<string>)
  datatype Zone = Zone(id: string, startTime: string, endTime: string)

  /** `Account.from_mapping`. */
  function AccountFrom(data: Obj): (r: Result<Account>)
    ensures r.Ok? <==>
      (Get(data, "ActiveReservations").JNull? || Get(data, "ActiveReservations").JList?)
      && PyInt(Get(data, "Code")).Some? && PyInt(Get(data, "Balance")).Some?
    ensures r.Ok? ==>
      r.value.id == PyInt(Get(data, "Code")).value
      && r.value.remainingTime == PyInt(Get(data, "Balance")).value
      && r.value.activeReservationCount ==
           (if Get(data, "ActiveReservations").JNull? then 0 else |Get(data, "ActiveReservations").items|)
    ensures !Get(data, "ActiveReservations").JNull? && !Get(data, "ActiveReservations").JList? ==>
      r == Err(ParseError("Expected permit_media.ActiveReservations list"))
  {
    var reservations := Get(data, "ActiveReservations");
    var count :-
      if reservations.JNull? then Ok(0)
      else if reservations.JList? then Ok(|reservations.items|)
      else Err(ParseError("Expected permit_media.ActiveReservations list"));
    var id :- ParseIntField(Get(data, "Code"), "permit_media.Code");
    var remaining :- ParseIntField(Get(data, "Balance"), "permit_media.Balance");
    Ok(Account(id, remaining, count))
  }

  /** A permit-media mapping that describes `a`. */
  function AccountMapping(a: Account): Obj {
    map["Code" := JInt(a.id), "Balance" := JInt(a.remainingTime),
        "ActiveReservations" := JList(seq(a.activeReservationCount, _ => JNull))]
  }

  lemma AccountRoundTrip(a: Account)
    ensures AccountFrom(AccountMapping(a)) == Ok(a)
  {
  }

  /** An absent reservation list counts as none. */
  lemma AccountWithoutReservations(data: Obj)
    requires "ActiveReservations" !in data
    requires PyInt(Get(data, "Code")).Some? && PyInt(Get(data, "Balance")).Some?
    ensures AccountFrom(data).Ok? && AccountFrom(data).value.activeReservationCount == 0
  {
  }

  /** `Reservation.from_mapping`; the fields are read in declaration order,
      so the first bad field decides the error. */
  function ReservationFrom(data: Obj): (r: Result<Reservation>)
    ensures !Get(data, "LicensePlate").JObj? ==> r == Err(ParseError("Expected reservation.LicensePlate object"))
    ensures r.Ok? <==>
      Get(data, "LicensePlate").JObj?
      && PyInt(Get(data, "ReservationID")).Some?
      && Get(Get(data, "LicensePlate").fields, "Value").JStr?
      && Get(Get(data, "LicensePlate").fields, "DisplayValue").JStr?
      && ParseDt(Get(data, "ValidFrom"), "reservation.ValidFrom").Ok?
      && DtToClient(ParseDt(Get(data, "ValidFrom"), "reservation.ValidFrom").value).Ok?
      && ParseDt(Get(data, "ValidUntil"), "reservation.ValidUntil").Ok?
      && DtToClient(ParseDt(Get(data, "ValidUntil"), "reservation.ValidUntil").value).Ok?
    ensures r.Ok? ==>
      var plate := Get(data, "LicensePlate").fields;
      Get(plate, "Value") == JStr(r.value.licensePlate)
      && Get(plate, "DisplayValue") == JStr(r.value.name)
      && PyInt(Get(data, "ReservationID")) == Some(r.value.id)
      && Ok(r.value.startTime) == DtToClient(ParseDt(Get(data, "ValidFrom"), "reservation.ValidFrom").value)
      && Ok(r.value.endTime) == DtToClient(ParseDt(Get(data, "ValidUntil"), "reservation.ValidUntil").value)
  {
    ReservationOf(Get(data, "LicensePlate"), Get(data, "ReservationID"), Get(data, "ValidFrom"), Get(data, "ValidUntil"))
  }

  /** The reservation built from the four values it reads, in source order. */
  function ReservationOf(plateValue: Json, idValue: Json, fromValue: Json, untilValue: Json): Result<Reservation> {
    var plate :- EnsureMapping(plateValue, ParseError("Expected reservation.LicensePlate object"));
    var id :- ParseIntField(idValue, "reservation.ReservationID");
    var value :- ParseStr(Get(plate, "Value"), "reservation.LicensePlate.Value");
    var name :- ParseStr(Get(plate, "DisplayValue"), "reservation.LicensePlate.DisplayValue");
    var start :- ParseDt(fromValue, "reservation.ValidFrom");
    var startText :- DtToClient(start);
    var end :- ParseDt(untilValue, "reservation.ValidUntil");
    var endText :- DtToClient(end);
    Ok(Reservation(id, value, name, startText, endText))
  }

  /** The reservation times are the client texts of the parsed values. */
  lemma ReservationTimes(data: Obj)
    requires ReservationFrom(data).Ok?
    ensures ParseDtValue(Get(data, "ValidFrom"), "reservation.ValidFrom").Ok?
    ensures ParseDtValue(Get(data, "ValidUntil"), "reservation.ValidUntil").Ok?
    ensures Ok(ReservationFrom(data).value.startTime)
         == DtToClient(ParseDtValue(Get(data, "ValidFrom"), "reservation.ValidFrom").value)
    ensures Ok(ReservationFrom(data).value.endTime)
         == DtToClient(ParseDtValue(Get(data, "ValidUntil"), "reservation.ValidUntil").value)
  {
    ClientTextOfParsed(Get(data, "ValidFrom"), "reservation.ValidFrom");
    ClientTextOfParsed(Get(data, "ValidUntil"), "reservation.ValidUntil");
  }

  /** A reservation mapping with naive whole-second times, as the service
      sends them. */
  function ReservationMapping(id: int, plate: string, name: string, from: DateTime, until: DateTime): Obj
    requires Valid(from) && Valid(until)
  {
    map["ReservationID" := JInt(id),
        "ValidFrom" := JStr(IsoFormat(from)), "ValidUntil" := JStr(IsoFormat(until)),
        "LicensePlate" := JObj(map["Value" := JStr(plate), "DisplayValue" := JStr(name)])]
  }

  /** Such a mapping builds the reservation whose times are the same texts
      marked as UTC. */
  lemma ReservationRoundTrip(id: int, plate: string, name: string, from: DateTime, until: DateTime)
    requires Valid(from) && from.offset.None? && from.micro == 0
    requires Valid(until) && until.offset.None? && until.micro == 0
    ensures ReservationFrom(ReservationMapping(id, plate, name, from, until))
         == Ok(Reservation(id, plate, name, IsoFormat(from) + "+00:00", IsoFormat(until) + "+00:00"))
  {
    var m := ReservationMapping(id, plate, name, from, until);
    var p := map["Value" := JStr(plate), "DisplayValue" := JStr(name)];
    assert Get(m, "ReservationID") == JInt(id);
    assert Get(m, "ValidFrom") == JStr(IsoFormat(from));
    assert Get(m, "ValidUntil") == JStr(IsoFormat(until));
    assert Get(m, "LicensePlate") == JObj(p);
    assert Get(p, "Value") == JStr(plate) && Get(p, "DisplayValue") == JStr(name);
    NaiveClientText(from, "reservation.ValidFrom");
    NaiveClientText(until, "reservation.ValidUntil");
    assert from.(micro := 0) == from && until.(micro := 0) == until;
  }

  /** The reservation item of the client's tests: extra keys are ignored
      and the naive times come out marked as UTC. */
  lemma ReservationExample(data: Obj)
    requires data == map["ReservationID" := JInt(1844553),
      "ValidFrom" := JStr("2025-12-23T00:47:00"), "ValidUntil" := JStr("2025-12-23T23:59:00"),
      "LicensePlate" := JObj(map["DisplayValue" := JStr("AA11BB"), "Value" := JStr("AA11BB")]),
      "Units" := JInt(359), "PermitMediaCode" := JStr("32600")]
    ensures ReservationFrom(data) == Ok(Reservation(1844553, "AA11BB", "AA11BB",
      "2025-12-23T00:47:00+00:00", "2025-12-23T23:59:00+00:00"))
  {
    var from := DateTime(Date(2025, 12, 23), 0, 47, 0, 0, None);
    var until := DateTime(Date(2025, 12, 23), 23, 59, 0, 0, None);
    ExampleTimes(from, until);
    ReservationRoundTrip(1844553, "AA11BB", "AA11BB", from, until);
    ExampleFields(data, ReservationMapping(1844553, "AA11BB", "AA11BB", from, until), from, until);
  }

  lemma ExampleTimes(from: DateTime, until: DateTime)
    requires from == DateTime(Date(2025, 12, 23), 0, 47, 0, 0, None)
    requires until == DateTime(Date(2025, 12, 23), 23, 59, 0, 0, None)
    ensures Valid(from) && Valid(until)
    ensures IsoFormat(from) == "2025-12-23T00:47:00" && IsoFormat(until) == "2025-12-23T23:59:00"
    ensures IsoFormat(from) + "+00:00" == "2025-12-23T00:47:00+00:00"
    ensures IsoFormat(until) + "+00:00" == "2025-12-23T23:59:00+00:00"
  {
    ExampleText(from);
    ExampleEndText(until);
    UtcSuffixes();
  }

  lemma UtcSuffixes()
    ensures "2025-12-23T00:47:00" + "+00:00" == "2025-12-23T00:47:00+00:00"
    ensures "2025-12-23T23:59:00" + "+00:00" == "2025-12-23T23:59:00+00:00"
  {
  }

  lemma ExampleFields(data: Obj, m: Obj, from: DateTime, until: DateTime)
    requires Valid(from) && Valid(until)
    requires IsoFormat(from) == "2025-12-23T00:47:00" && IsoFormat(until) == "2025-12-23T23:59:00"
    requires data == map["ReservationID" := JInt(1844553),
      "ValidFrom" := JStr("2025-12-23T00:47:00"), "ValidUntil" := JStr("2025-12-23T23:59:00"),
      "LicensePlate" := JObj(map["DisplayValue" := JStr("AA11BB"), "Value" := JStr("AA11BB")]),
      "Units" := JInt(359), "PermitMediaCode" := JStr("32600")]
    requires m == ReservationMapping(1844553, "AA11BB", "AA11BB", from, until)
    ensures ReservationFrom(data) == ReservationFrom(m)
  {
    assert map["DisplayValue" := JStr("AA11BB"), "Value" := JStr("AA11BB")]
        == map["Value" := JStr("AA11BB"), "DisplayValue" := JStr("AA11BB")];
    assert Get(data, "ReservationID") == Get(m, "ReservationID");
    assert Get(data, "ValidFrom") == Get(m, "ValidFrom");
    assert Get(data, "ValidUntil") == Get(m, "ValidUntil");
    assert Get(data, "LicensePlate") == Get(m, "LicensePlate");
  }

  lemma ExampleEndText(dt: DateTime)
    requires dt == DateTime(Date(2025, 12, 23), 23, 59, 0, 0, None)
    ensures Valid(dt) && IsoFormat(dt) == "2025-12-23T23:59:00"
  {
    ExampleDate(dt.(hour := 0, minute := 47));
    ExampleEndClock(dt);
    NaiveIso(dt, "2025-12-23", "23:59:00");
    ExampleJoins();
  }

  lemma ExampleEndClock(dt: DateTime)
    requires dt == DateTime(Date(2025, 12, 23), 23, 59, 0, 0, None)
    ensures Valid(dt) && ClockText(dt) == "23:59:00"
  {
    ExampleMonthDay();
    WholeSecondClock(dt);
    assert DigitChar(0) == '0' && DigitChar(2) == '2' && DigitChar(3) == '3';
    assert DigitChar(5) == '5' && DigitChar(9) == '9';
  }

  /** `Favorite.from_mapping`. */
  function FavoriteFrom(data: Obj): (r: Result<Favorite>)
    ensures r.Ok? <==> Get(data, "Value").JStr? && (Get(data, "Name").JNull? || Get(data, "Name").JStr?)
    ensures r.Ok? ==> Get(data, "Value") == JStr(r.value.licensePlate)
    ensures r.Ok? ==> r.value.name == (if Get(data, "Name").JStr? then Some(Get(data, "Name").s) else None)
  {
    var plate :- ParseStr(Get(data, "Value"), "favorite.Value");
    var name :- ParseOptionalStr(Get(data, "Name"), "favorite.Name");
    Ok(Favorite(plate, name))
  }

  function FavoriteMapping(f: Favorite): Obj {
    map["Value" := JStr(f.licensePlate), "Name" := if f.name.Some? then JStr(f.name.value) else JNull]
  }

  lemma FavoriteRoundTrip(f: Favorite)
    ensures FavoriteFrom(FavoriteMapping(f)) == Ok(f)
  {
  }

  // ---------------------------------------------------------------------
  // Zones

  /** A paid block as parsed, before normalisation. */
  datatype Block = Block(start: Aware, end: Aware)

  /** The block starts on the date that is today in its own offset. */
  predicate StartsToday(b: Block, now: DateTime)
    requires Reading(now)
  {
    b.start.date == TodayIn(now, b.start.offset.value)
  }

  predicate FreeItem(item: Json) {
    item.JObj? && Get(item.fields, "IsFree") == JBool(true)
  }

  /** One BlockTimes item: an error, nothing (free, or not today), or a
      paid block for today. `now` is the current instant read at UTC. */
  function BlockOf(item: Json, now: DateTime): (r: Result<seq<Block>>)
    requires Reading(now) && now.offset == Some(0)
    ensures !item.JObj? ==> r == Err(ParseError("Expected permit.BlockTimes item object"))
    ensures FreeItem(item) ==> r == Ok([])
    ensures item.JObj? && !FreeItem(item) ==>
      var s := ParseDtValue(Get(item.fields, "ValidFrom"), "block.ValidFrom");
      var e := ParseDtValue(Get(item.fields, "ValidUntil"), "block.ValidUntil");
      (r.Ok? <==> s.Ok? && e.Ok?)
      && (s.Err? ==> r == Err(ParseError("block.ValidFrom")))
      && (s.Ok? && e.Err? ==> r == Err(ParseError("block.ValidUntil")))
      && (s.Ok? && e.Ok? && StartsToday(Block(s.value, e.value), now) ==> r == Ok([Block(s.value, e.value)]))
      && (s.Ok? && e.Ok? && !StartsToday(Block(s.value, e.value), now) ==> r == Ok([]))
    ensures r.Ok? ==> |r.value| <= 1
    ensures r.Ok? ==> forall b :: b in r.value ==> StartsToday(b, now)
  {
    if !item.JObj? then Err(ParseError("Expected permit.BlockTimes item object"))
    else if Get(item.fields, "IsFree") == JBool(true) then Ok([])
    else
      var start :- ParseDtValue(Get(item.fields, "ValidFrom"), "block.ValidFrom");
      var end :- ParseDtValue(Get(item.fields, "ValidUntil"), "block.ValidUntil");
      if start.date != TodayIn(now, start.offset.value) then Ok([])
      else Ok([Block(start, end)])
  }

  /** The item is the paid block `b` of today. */
  predicate Collects(item: Json, now: DateTime, b: Block) {
    Reading(now) && now.offset == Some(0) && BlockOf(item, now) == Ok([b])
  }

  /** An item is collected as `b` exactly when it is a non-free object
      whose dates parse to those of `b` and `b` starts today; the blocks of
      one item are the blocks it collects. */
  lemma BlockOfMembers(item: Json, now: DateTime)
    requires Reading(now) && now.offset == Some(0)
    ensures forall b :: Collects(item, now, b) <==>
      item.JObj? && !FreeItem(item)
      && ParseDtValue(Get(item.fields, "ValidFrom"), "block.ValidFrom") == Ok(b.start)
      && ParseDtValue(Get(item.fields, "ValidUntil"), "block.ValidUntil") == Ok(b.end)
      && StartsToday(b, now)
    ensures BlockOf(item, now).Ok? ==> forall b :: b in BlockOf(item, now).value <==> Collects(item, now, b)
  {
  }

  /** The paid blocks of a prefix of BlockTimes, in list order; the first
      failing item decides the error. */
  function PaidBlocks(items: seq<Json>, now: DateTime): (r: Result<seq<Block>>)
    requires Reading(now) && now.offset == Some(0)
    ensures r.Ok? ==> |r.value| <= |items|
    decreases |items|
  {
    if items == [] then Ok([])
    else
      var earlier :- PaidBlocks(items[..|items| - 1], now);
      var last :- BlockOf(items[|items| - 1], now);
      Ok(earlier + last)
  }

  /** The last item's blocks follow those of the items before it. */
  lemma PaidBlocksLast(items: seq<Json>, now: DateTime)
    requires Reading(now) && now.offset == Some(0)
    requires items != []
    ensures var init := PaidBlocks(items[..|items| - 1], now);
      var last := BlockOf(items[|items| - 1], now);
      (PaidBlocks(items, now).Ok? <==> init.Ok? && last.Ok?)
      && (PaidBlocks(items, now).Ok? ==> PaidBlocks(items, now).value == init.value + last.value)
  {
  }

  /** The item yields a result (possibly no block) at `now`. */
  predicate Yields(item: Json, now: DateTime) {
    Reading(now) && now.offset == Some(0) && BlockOf(item, now).Ok?
  }

  /** The blocks are collected exactly when every item yields a result. */
  lemma {:induction false} PaidBlocksOk(items: seq<Json>, now: DateTime)
    requires Reading(now) && now.offset == Some(0)
    ensures PaidBlocks(items, now).Ok? <==> forall i :: 0 <= i < |items| ==> Yields(items[i], now)
    decreases |items|
  {
    if items != [] {
      var init := items[..|items| - 1];
      PaidBlocksLast(items, now);
      PaidBlocksOk(init, now);
      ForallSplit(items, init, x => Yields(x, now));
    }
  }

  /** Every element of a non-empty sequence satisfies `P` exactly when every
      element before the last does and the last does. */
  lemma ForallSplit<T>(items: seq<T>, init: seq<T>, P: T -> bool)
    requires items != [] && init == items[..|items| - 1]
    ensures (forall i :: 0 <= i < |items| ==> P(items[i])) <==>
      (forall i :: 0 <= i < |init| ==> P(init[i])) && P(items[|items| - 1])
  {
    if forall i :: 0 <= i < |init| ==> P(init[i]) {
      forall i | 0 <= i < |init|
        ensures P(items[i])
      {
        assert init[i] == items[i];
      }
    }
  }

  /** The collected blocks are exactly the blocks of today of the non-free
      items whose dates parse. */
  lemma {:induction false} PaidBlocksMembers(items: seq<Json>, now: DateTime)
    requires Reading(now) && now.offset == Some(0)
    requires PaidBlocks(items, now).Ok?
    ensures forall b :: b in PaidBlocks(items, now).value <==>
      exists i :: 0 <= i < |items| && Collects(items[i], now, b)
    decreases |items|
  {
    if items != [] {
      var n := |items| - 1;
      var init := items[..n];
      PaidBlocksLast(items, now);
      PaidBlocksMembers(init, now);
      BlockOfMembers(items[n], now);
      var earlier := PaidBlocks(init, now).value;
      var last := BlockOf(items[n], now).value;
      assert PaidBlocks(items, now).value == earlier + last;
      forall b
        ensures b in earlier + last <==> exists i :: 0 <= i < |items| && Collects(items[i], now, b)
      {
        ExistsSplit(items, init, x => Collects(x, now, b));
      }
    }
  }

  /** Some element of a non-empty sequence satisfies `P` exactly when some
      element before the last does or the last does. */
  lemma ExistsSplit<T>(items: seq<T>, init: seq<T>, P: T -> bool)
    requires items != [] && init == items[..|items| - 1]
    ensures (exists i :: 0 <= i < |items| && P(items[i])) <==>
      (exists i :: 0 <= i < |init| && P(init[i])) || P(items[|items| - 1])
  {
    var n := |items| - 1;
    if exists i :: 0 <= i < |items| && P(items[i]) {
      var i :| 0 <= i < |items| && P(items[i]);
      if i < n {
        assert init[i] == items[i];
      }
    }
    if exists i :: 0 <= i < |init| && P(init[i]) {
      var i :| 0 <= i < |init| && P(init[i]);
      assert init[i] == items[i];
    }
  }

  /** Every collected block starts today in its own offset. */
  lemma {:induction false} PaidBlocksToday(items: seq<Json>, now: DateTime)
    requires Reading(now) && now.offset == Some(0)
    requires PaidBlocks(items, now).Ok?
    ensures forall b :: b in PaidBlocks(items, now).value ==> StartsToday(b, now)
    decreases |items|
  {
    if items != [] {
      PaidBlocksToday(items[..|items| - 1], now);
    }
  }

  /** The blocks of a concatenation are those of the parts, in order. */
  lemma {:induction false} PaidBlocksAppend(a: seq<Json>, b: seq<Json>, now: DateTime)
    requires Reading(now) && now.offset == Some(0)
    ensures PaidBlocks(a + b, now) ==
      (match PaidBlocks(a, now)
       case Err(e) => Err(e)
       case Ok(x) => match PaidBlocks(b, now) case Err(e) => Err(e) case Ok(y) => Ok(x + y))
    decreases |b|
  {
    if b == [] {
      assert a + b == a;
      match PaidBlocks(a, now)
      case Err(e) =>
      case Ok(x) =>
        assert x + [] == x;
    } else {
      var b' := b[..|b| - 1];
      assert (a + b)[..|a + b| - 1] == a + b';
      assert (a + b)[|a + b| - 1] == b[|b| - 1];
      PaidBlocksAppend(a, b', now);
      match PaidBlocks(a, now)
      case Err(e) =>
      case Ok(x) =>
        match PaidBlocks(b', now)
        case Err(e) =>
        case Ok(y) =>
          match BlockOf(b[|b| - 1], now)
          case Err(e) =>
          case Ok(z) =>
            assert x + y + z == x + (y + z);
    }
  }

  lemma PaidBlocksSingle(item: Json, now: DateTime)
    requires Reading(now) && now.offset == Some(0)
    ensures PaidBlocks([item], now) == BlockOf(item, now)
  {
    assert [item][..0] == [];
    match BlockOf(item, now)
    case Err(e) =>
    case Ok(z) =>
      assert [] + z == z;
  }

  /** A free block is skipped before its dates are looked at: removing it
      changes nothing, whatever its ValidFrom and ValidUntil hold. */
  lemma FreeBlockIgnored(a: seq<Json>, free: Json, b: seq<Json>, now: DateTime)
    requires Reading(now) && now.offset == Some(0)
    requires FreeItem(free)
    ensures PaidBlocks(a + [free] + b, now) == PaidBlocks(a + b, now)
  {
    PaidBlocksAppend(a + [free], b, now);
    PaidBlocksAppend(a, [free], now);
    PaidBlocksSingle(free, now);
    PaidBlocksAppend(a, b, now);
    match PaidBlocks(a, now)
    case Err(e) =>
    case Ok(x) =>
      assert x + [] == x;
  }

  /** The first failing item decides the error of the whole list. */
  lemma ItemFails(a: seq<Json>, item: Json, b: seq<Json>, now: DateTime)
    requires Reading(now) && now.offset == Some(0)
    requires PaidBlocks(a, now).Ok? && BlockOf(item, now).Err?
    ensures PaidBlocks(a + [item] + b, now) == Err(BlockOf(item, now).error)
  {
    PaidBlocksAppend(a + [item], b, now);
    PaidBlocksAppend(a, [item], now);
    PaidBlocksSingle(item, now);
  }

  /** An item that is not an object fails the whole list unless an
      earlier item already failed. */
  lemma NonObjectItemFails(a: seq<Json>, item: Json, b: seq<Json>, now: DateTime)
    requires Reading(now) && now.offset == Some(0)
    requires !item.JObj? && PaidBlocks(a, now).Ok?
    ensures PaidBlocks(a + [item] + b, now) == Err(ParseError("Expected permit.BlockTimes item object"))
  {
    ItemFails(a, item, b, now);
  }

  /** A paid block for today is kept, in its place. */
  lemma PaidBlockKept(a: seq<Json>, item: Json, b: seq<Json>, now: DateTime)
    requires Reading(now) && now.offset == Some(0)
    requires PaidBlocks(a + [item] + b, now).Ok?
    requires BlockOf(item, now).Ok? && BlockOf(item, now).value != []
    ensures PaidBlocks(a, now).Ok?
    ensures var bs := PaidBlocks(a + [item] + b, now).value;
      |PaidBlocks(a, now).value| < |bs| && bs[|PaidBlocks(a, now).value|] == BlockOf(item, now).value[0]
  {
    PaidBlocksAppend(a + [item], b, now);
    PaidBlocksAppend(a, [item], now);
    PaidBlocksSingle(item, now);
  }

  /** Python `min(blocks, key=start)`: the first block whose start instant
      no other block precedes. */
  function EarliestIndex(bs: seq<Block>): (k: nat)
    requires bs != []
    ensures k < |bs|
    ensures forall j :: 0 <= j < |bs| ==> !Earlier(bs[j].start, bs[k].start)
    ensures forall j :: 0 <= j < k ==> Earlier(bs[k].start, bs[j].start)
    decreases |bs|
  {
    if |bs| == 1 then 0
    else
      var prefix := bs[..|bs| - 1];
      var k := EarliestIndex(prefix);
      EarliestExtend(bs, prefix, k);
      if Earlier(bs[|bs| - 1].start, bs[k].start) then |bs| - 1 else k
  }

  /** One more block either is strictly earlier than the earliest so far,
      and then than every block before it, or leaves it the earliest. */
  lemma EarliestExtend(bs: seq<Block>, prefix: seq<Block>, k: nat)
    requires |bs| >= 2 && prefix == bs[..|bs| - 1] && k < |prefix|
    requires forall j :: 0 <= j < |prefix| ==> !Earlier(prefix[j].start, prefix[k].start)
    requires forall j :: 0 <= j < k ==> Earlier(prefix[k].start, prefix[j].start)
    ensures var last := bs[|bs| - 1];
      if Earlier(last.start, bs[k].start) then
        (forall j :: 0 <= j < |bs| ==> !Earlier(bs[j].start, last.start))
        && (forall j :: 0 <= j < |bs| - 1 ==> Earlier(last.start, bs[j].start))
      else
        (forall j :: 0 <= j < |bs| ==> !Earlier(bs[j].start, bs[k].start))
        && (forall j :: 0 <= j < k ==> Earlier(bs[k].start, bs[j].start))
  {
    var n := |bs| - 1;
    var last := bs[n];
    forall j | 0 <= j < n
      ensures !Earlier(bs[j].start, bs[k].start)
    {
      assert prefix[j] == bs[j] && prefix[k] == bs[k];
    }
    forall j | 0 <= j < k
      ensures Earlier(bs[k].start, bs[j].start)
    {
      assert prefix[j] == bs[j] && prefix[k] == bs[k];
    }
    if Earlier(last.start, bs[k].start) {
      forall j | 0 <= j < n
        ensures Earlier(last.start, bs[j].start) && !Earlier(bs[j].start, last.start)
      {
        BeforeNotAfter(AsUtc(last.start), AsUtc(bs[k].start), AsUtc(bs[j].start));
      }
    }
  }

  lemma BeforeNotAfter(a: DateTime, b: DateTime, c: DateTime)
    requires UtcBefore(a, b) && !UtcBefore(c, b)
    ensures UtcBefore(a, c)
  {
  }

  /** The zone for the paid blocks of today: none without blocks, else the
      client texts of the earliest one. */
  function EarliestZone(code: string, paid: seq<Block>): (r: Result<Option<Zone>>)
    ensures r == Ok(None) <==> paid == []
    ensures r.Err? ==> r.error == Overflow
    ensures r.Ok? && r.value.Some? ==>
      r.value.value.id == code
      && (exists k :: 0 <= k < |paid|
           && Ok(r.value.value.startTime) == DtToClient(paid[k].start)
           && Ok(r.value.value.endTime) == DtToClient(paid[k].end)
           && (forall j :: 0 <= j < |paid| ==> !Earlier(paid[j].start, paid[k].start))
           && (forall j :: 0 <= j < k ==> Earlier(paid[k].start, paid[j].start)))
  {
    if paid == [] then Ok(None)
    else
      var k := EarliestIndex(paid);
      var b := paid[k];
      var start :- DtToClient(b.start);
      var end :- DtToClient(b.end);
      Ok(Some(Zone(code, start, end)))
  }

  /** `Zone.from_mapping`, stated on values. */
  function ZoneOf(data: Obj, now: DateTime): (r: Result<Option<Zone>>)
    requires Reading(now) && now.offset == Some(0)
    ensures !Get(data, "ZoneCode").JStr? ==> r == Err(ParseError("permit.ZoneCode"))
    ensures Get(data, "ZoneCode").JStr? && !Get(data, "BlockTimes").JList? ==>
      r == Err(ParseError("Expected permit.BlockTimes list"))
    ensures r.Ok? ==> Get(data, "BlockTimes").JList? && PaidBlocks(Get(data, "BlockTimes").items, now).Ok?
    ensures (Get(data, "ZoneCode").JStr? && Get(data, "BlockTimes").JList?
             && PaidBlocks(Get(data, "BlockTimes").items, now).Err?) ==>
      r == Err(PaidBlocks(Get(data, "BlockTimes").items, now).error)
    ensures r.Ok? && r.value.Some? ==> r.value.value.id == Get(data, "ZoneCode").s
  {
    var code :- ParseStr(Get(data, "ZoneCode"), "permit.ZoneCode");
    var blockTimes :- EnsureList(Get(data, "BlockTimes"), ParseError("Expected permit.BlockTimes list"));
    var paid :- PaidBlocks(blockTimes, now);
    EarliestZone(code, paid)
  }

  /** One more item extends the paid blocks of a prefix by its own. */
  lemma PaidBlocksStep(items: seq<Json>, i: nat, now: DateTime)
    requires Reading(now) && now.offset == Some(0)
    requires i < |items| && PaidBlocks(items[..i], now).Ok? && BlockOf(items[i], now).Ok?
    ensures PaidBlocks(items[..i + 1], now) == Ok(PaidBlocks(items[..i], now).value + BlockOf(items[i], now).value)
  {
    assert items[..i + 1][..i] == items[..i];
  }

  /** A failing item fails the zone. */
  lemma ZoneFailsAt(data: Obj, i: nat, now: DateTime)
    requires Reading(now) && now.offset == Some(0)
    requires Get(data, "ZoneCode").JStr? && Get(data, "BlockTimes").JList?
    requires var items := Get(data, "BlockTimes").items;
      i < |items| && PaidBlocks(items[..i], now).Ok? && BlockOf(items[i], now).Err?
    ensures ZoneOf(data, now) == Err(BlockOf(Get(data, "BlockTimes").items[i], now).error)
  {
    var items := Get(data, "BlockTimes").items;
    SplitAt(items, i);
    ItemFails(items[..i], items[i], items[i + 1..], now);
  }

  lemma SplitAt<T>(s: seq<T>, i: nat)
    requires i < |s|
    ensures s == s[..i] + [s[i]] + s[i + 1..]
  {
  }

  /** `Zone.from_mapping`: one pass over BlockTimes collecting the paid
      blocks of today, then the earliest of them. */
  method ZoneFromMapping(data: Obj, now: DateTime) returns (r: Result<Option<Zone>>)
    requires Reading(now) && now.offset == Some(0)
    ensures r == ZoneOf(data, now)
  {
    var zoneCode := ParseStr(Get(data, "ZoneCode"), "permit.ZoneCode");
    if zoneCode.Err? {
      return Err(zoneCode.error);
    }
    var blockTimes := Get(data, "BlockTimes");
    if !blockTimes.JList? {
      return Err(ParseError("Expected permit.BlockTimes list"));
    }
    var items := blockTimes.items;
    var paid: seq<Block> := [];
    var i := 0;
    while i < |items|
      invariant 0 <= i <= |items|
      invariant PaidBlocks(items[..i], now) == Ok(paid)
    {
      var item := items[i];
      if BlockOf(item, now).Err? {
        ZoneFailsAt(data, i, now);
      } else {
        PaidBlocksStep(items, i, now);
      }
      i := i + 1;
      if !item.JObj? {
        return Err(ParseError("Expected permit.BlockTimes item object"));
      }
      if Get(item.fields, "IsFree") == JBool(true) {
        assert BlockOf(item, now) == Ok([]);
        assert paid + [] == paid;
        continue;
      }
      var start := ParseDtValue(Get(item.fields, "ValidFrom"), "block.ValidFrom");
      if start.Err? {
        return Err(start.error);
      }
      var end := ParseDtValue(Get(item.fields, "ValidUntil"), "block.ValidUntil");
      if end.Err? {
        return Err(end.error);
      }
      var today := TodayIn(now, start.value.offset.value);
      if start.value.date != today {
        assert BlockOf(item, now) == Ok([]);
        assert paid + [] == paid;
        continue;
      }
      assert BlockOf(item, now) == Ok([Block(start.value, end.value)]);
      paid := paid + [Block(start.value, end.value)];
    }
    assert items[..i] == items;
    if paid == [] {
      return Ok(None);
    }
    var earliest := paid[EarliestIndex(paid)];
    var startText := DtToClient(earliest.start);
    if startText.Err? {
      return Err(startText.error);
    }
    var endText := DtToClient(earliest.end);
    if endText.Err? {
      return Err(endText.error);
    }
    return Ok(Some(Zone(zoneCode.value, startText.value, endText.value)));
  }

  /** BlockTimes that is not a list is an error (once ZoneCode is a string). */
  lemma ZoneNeedsList(data: Obj, now: DateTime)
    requires Reading(now) && now.offset == Some(0)
    requires Get(data, "ZoneCode").JStr? && !Get(data, "BlockTimes").JList?
    ensures ZoneOf(data, now) == Err(ParseError("Expected permit.BlockTimes list"))
  {
  }

  /** No zone exactly when no item of BlockTimes is a non-free block whose
      dates parse and whose start falls today. */
  lemma ZoneAbsent(data: Obj, now: DateTime)
    requires Reading(now) && now.offset == Some(0)
    requires Get(data, "ZoneCode").JStr? && Get(data, "BlockTimes").JList?
    requires PaidBlocks(Get(data, "BlockTimes").items, now).Ok?
    ensures ZoneOf(data, now) == Ok(None) <==> PaidBlocks(Get(data, "BlockTimes").items, now).value == []
    ensures var items := Get(data, "BlockTimes").items;
      ZoneOf(data, now) == Ok(None) <==>
        forall i, b :: 0 <= i < |items| ==> !Collects(items[i], now, b)
  {
    NoneCollected(Get(data, "BlockTimes").items, now);
  }

  lemma NoneCollected(items: seq<Json>, now: DateTime)
    requires Reading(now) && now.offset == Some(0)
    requires PaidBlocks(items, now).Ok?
    ensures PaidBlocks(items, now).value == [] <==> forall i, b :: 0 <= i < |items| ==> !Collects(items[i], now, b)
  {
    PaidBlocksMembers(items, now);
    var paid := PaidBlocks(items, now).value;
    if paid == [] {
      forall i, b | 0 <= i < |items|
        ensures !Collects(items[i], now, b)
      {
        assert b !in paid;
      }
    } else {
      var b := paid[0];
      assert b in paid;
      var i :| 0 <= i < |items| && Collects(items[i], now, b);
    }
  }

  /** The zone is computed exactly when ZoneCode is a string, BlockTimes a
      list whose every item yields a result, and the earliest block of
      today, if any, has client texts. */
  lemma ZoneComputed(data: Obj, now: DateTime)
    requires Reading(now) && now.offset == Some(0)
    requires Get(data, "ZoneCode").JStr? && Get(data, "BlockTimes").JList?
    ensures var items := Get(data, "BlockTimes").items;
      ZoneOf(data, now).Ok? <==>
        (forall i :: 0 <= i < |items| ==> Yields(items[i], now))
        && PaidBlocks(items, now).Ok?
        && EarliestZone(Get(data, "ZoneCode").s, PaidBlocks(items, now).value).Ok?
  {
    PaidBlocksOk(Get(data, "BlockTimes").items, now);
  }

  /** A zone is built from ZoneCode and the paid blocks of today found
      in BlockTimes, each of which starts on today's date in its own offset. */
  lemma ZoneIsEarliest(data: Obj, now: DateTime)
    requires Reading(now) && now.offset == Some(0)
    requires ZoneOf(data, now).Ok? && ZoneOf(data, now).value.Some?
    ensures Get(data, "ZoneCode").JStr? && Get(data, "BlockTimes").JList?
    ensures PaidBlocks(Get(data, "BlockTimes").items, now).Ok?
    ensures ZoneOf(data, now) == EarliestZone(Get(data, "ZoneCode").s, PaidBlocks(Get(data, "BlockTimes").items, now).value)
    ensures forall b :: b in PaidBlocks(Get(data, "BlockTimes").items, now).value ==> StartsToday(b, now)
  {
    PaidBlocksToday(Get(data, "BlockTimes").items, now);
  }
}
