/** The API facade: permit extraction, reservation picking and the
    permit-media defaults that `CityParkingPermitAPI` keeps between calls.
    Every network call goes through `Auth.Request`; its effect on the
    session is stated by `Auth.RequestSpec`. */
module Api {
  import opened Errors
  import opened Json
  import opened IsoDates
  import opened Numerals
  import opened Models
  import opened Auth

  // ---------------------------------------------------------------------
  // Datetimes sent to the API and compared with its answers

  /** `_dt_to_api`: ISO 8601 with whole seconds; a naive value stays naive. */
  function DtToApi(dt: PyDateTime): (s: string)
    ensures ParseIso(s) == Some(dt.(micro := 0))
  {
    var whole := dt.(micro := 0);
    IsoRoundTrip(whole);
    IsoFormat(whole)
  }

  /** `_normalize_date`: a naive value is taken as UTC, then converted to
      UTC whole seconds (astimezone may overflow, as in models.py). */
  function NormalizeDate(dt: PyDateTime): (r: Result<DateTime>)
    ensures dt.offset.Some? ==> r == Normalize(dt)
    ensures dt.offset.None? ==> r == Ok(dt.(offset := Some(0), micro := 0))
    ensures r.Ok? ==> Valid(r.value) && r.value.offset == Some(0) && r.value.micro == 0
  {
    var aware := if dt.offset.None? then dt.(offset := Some(0)) else dt;
    assert dt.offset.None? ==> ShiftMinutes(aware, 0) == aware;
    Normalize(aware)
  }

  /** The text `_matches` compares with is the one `Reservation.from_mapping`
      gives clients for the same aware value. */
  lemma NormalizedTextIsClientText(dt: PyDateTime)
    requires dt.offset.Some?
    ensures NormalizeDate(dt).Ok? ==> Ok(IsoFormat(NormalizeDate(dt).value)) == DtToClient(dt)
    ensures NormalizeDate(dt).Err? <==> DtToClient(dt).Err?
  {
  }

  // ---------------------------------------------------------------------
  // Responses

  /** `raise_for_status()` followed by `async_json(response, on_error=ParseError)`. */
  function ReadJson(resp: Response): (r: Result<Json>)
    ensures resp.status >= 400 ==> r == Err(HttpError(resp.status))
    ensures resp.status < 400 ==> r == AsyncJson(resp.body, ParseError("Response body is not valid JSON"))
  {
    if resp.status >= 400 then Err(HttpError(resp.status))
    else AsyncJson(resp.body, ParseError("Response body is not valid JSON"))
  }

  /** `value or []`: every falsy JSON value reads as the empty list. */
  function OrEmpty(v: Json): (r: Json)
    ensures Truthy(v) ==> r == v
    ensures !Truthy(v) ==> r == JList([])
  {
    if Truthy(v) then v else JList([])
  }

  /** `_ensure_list(value or [], label)`: a falsy value lists nothing. */
  function ListedItems(v: Json, err: Error): (r: Result<seq<Json>>)
    ensures !Truthy(v) ==> r == Ok([])
    ensures Truthy(v) && !v.JList? ==> r == Err(err)
    ensures v.JList? ==> r == Ok(v.items)
  {
    EnsureList(OrEmpty(v), err)
  }

  /** The permit object a response designates: "Permit" when present,
      otherwise the first element of "Permits". */
  predicate PermitAt(root: Obj, permit: Obj) {
    if "Permit" in root then root["Permit"] == JObj(permit)
    else "Permits" in root && root["Permits"].JList? && root["Permits"].items != []
         && root["Permits"].items[0] == JObj(permit)
  }

  /** The permit media object of a permit: the first of its PermitMedias. */
  predicate MediaAt(permit: Obj, media: Obj) {
    Get(permit, "PermitMedias").JList? && Get(permit, "PermitMedias").items != []
    && Get(permit, "PermitMedias").items[0] == JObj(media)
  }

  /** A permit object that has a first permit media object. */
  predicate MediaShaped(permit: Json) {
    permit.JObj? && Get(permit.fields, "PermitMedias").JList? && Get(permit.fields, "PermitMedias").items != []
    && Get(permit.fields, "PermitMedias").items[0].JObj?
  }

  /** The response shapes `_extract_permit_media` accepts. */
  predicate PermitShaped(data: Json) {
    data.JObj? &&
    if "Permit" in data.fields then MediaShaped(data.fields["Permit"])
    else "Permits" in data.fields && data.fields["Permits"].JList? && data.fields["Permits"].items != []
         && MediaShaped(data.fields["Permits"].items[0])
  }

  /** `_extract_permit_media`: both response shapes yield one
      (permit, permit media) pair; every other shape is a ParseError. */
  function ExtractPermitMedia(data: Json): (r: Result<(Obj, Obj)>)
    ensures r.Ok? <==> PermitShaped(data)
    ensures r.Ok? ==> data.JObj? && PermitAt(data.fields, r.value.0) && MediaAt(r.value.0, r.value.1)
    ensures !data.JObj? ==> r == Err(ParseError("Expected response object"))
    ensures data.JObj? && "Permit" !in data.fields && "Permits" !in data.fields ==>
      r == Err(ParseError("Expected permit data in response"))
    ensures data.JObj? && "Permit" in data.fields && !data.fields["Permit"].JObj? ==>
      r == Err(ParseError("Expected permit object"))
    ensures r.Err? ==> r.error.ParseError?
  {
    var root :- EnsureMapping(data, ParseError("Expected response object"));
    var permit :-
      if "Permit" in root then EnsureMapping(root["Permit"], ParseError("Expected permit object"))
      else if "Permits" in root then
        var permits :- EnsureList(root["Permits"], ParseError("Expected permits list"));
        if permits == [] then Err(ParseError("Expected permit list to have items"))
        else EnsureMapping(permits[0], ParseError("Expected permit object"))
      else Err(ParseError("Expected permit data in response"));
    var medias :- EnsureList(Get(permit, "PermitMedias"), ParseError("Expected permit.PermitMedias list"));
    if medias == [] then Err(ParseError("Expected permit media list to have items"))
    else
      var media :- EnsureMapping(medias[0], ParseError("Expected permit_media object"));
      Ok((permit, media))
  }

  /** "Permit" takes precedence: whatever "Permits" holds is never read,
      even when "Permit" itself is unusable. */
  lemma PermitTakesPrecedence(root: Obj, permits: Json)
    requires "Permit" in root
    ensures ExtractPermitMedia(JObj(root["Permits" := permits])) == ExtractPermitMedia(JObj(root))
  {
    var other := root["Permits" := permits];
    assert other["Permit"] == root["Permit"];
  }

  /** A singular permit and a permit list starting with it give the same pair. */
  lemma SingularAndPluralAgree(permit: Json, more: seq<Json>)
    ensures ExtractPermitMedia(JObj(map["Permit" := permit]))
         == ExtractPermitMedia(JObj(map["Permits" := JList([permit] + more)]))
  {
    assert ([permit] + more)[0] == permit;
  }

  // ---------------------------------------------------------------------
  // Lists of records

  /** `[build(_ensure_mapping(item, label)) for item in items]`: every item
      must be an object that builds; the first that does not decides the error. */
  function Records<T>(items: seq<Json>, notObject: Error, build: Obj -> Result<T>): (r: Result<seq<T>>)
    ensures r.Ok? <==> forall i :: 0 <= i < |items| ==> items[i].JObj? && build(items[i].fields).Ok?
    ensures r.Ok? ==> |r.value| == |items|
    ensures r.Ok? ==> forall i :: 0 <= i < |items| ==> build(items[i].fields) == Ok(r.value[i])
    ensures r.Err? ==>
      (exists i :: 0 <= i < |items|
         && (forall j :: 0 <= j < i ==> items[j].JObj? && build(items[j].fields).Ok?)
         && ((!items[i].JObj? && r.error == notObject) || (items[i].JObj? && build(items[i].fields) == Err(r.error))))
    decreases |items|
  {
    if items == [] then Ok([])
    else
      var first :- EnsureMapping(items[0], notObject);
      var x :- build(first);
      var rest :- Records(items[1..], notObject, build);
      assert forall i :: 1 <= i < |items| ==> items[i] == items[1..][i - 1];
      Ok([x] + rest)
  }

  /** The reservations listed in a permit media object. */
  function ReservationsOf(media: Obj): (r: Result<seq<Reservation>>)
    ensures !Truthy(Get(media, "ActiveReservations")) ==> r == Ok([])
    ensures Truthy(Get(media, "ActiveReservations")) && !Get(media, "ActiveReservations").JList? ==>
      r == Err(ParseError("Expected reservations list"))
    ensures Get(media, "ActiveReservations").JList? ==>
      r == Records(Get(media, "ActiveReservations").items, ParseError("Expected reservation object"), ReservationFrom)
  {
    var items :- ListedItems(Get(media, "ActiveReservations"), ParseError("Expected reservations list"));
    Records(items, ParseError("Expected reservation object"), ReservationFrom)
  }

  /** The favourites listed in a permit media object. */
  function FavoritesOf(media: Obj): (r: Result<seq<Favorite>>)
    ensures !Truthy(Get(media, "LicensePlates")) ==> r == Ok([])
    ensures Truthy(Get(media, "LicensePlates")) && !Get(media, "LicensePlates").JList? ==>
      r == Err(ParseError("Expected favorites list"))
    ensures Get(media, "LicensePlates").JList? ==>
      r == Records(Get(media, "LicensePlates").items, ParseError("Expected favorite object"), FavoriteFrom)
  {
    var items :- ListedItems(Get(media, "LicensePlates"), ParseError("Expected favorites list"));
    Records(items, ParseError("Expected favorite object"), FavoriteFrom)
  }

  /** An ActiveReservations list of reservation mappings with naive
      whole-second times reads back as the reservations they describe. */
  lemma ReservationsListed(rs: seq<Reservation>, froms: seq<DateTime>, untils: seq<DateTime>, media: Obj)
    requires |froms| == |rs| && |untils| == |rs|
    requires forall i :: 0 <= i < |rs| ==>
      Valid(froms[i]) && froms[i].offset.None? && froms[i].micro == 0
      && Valid(untils[i]) && untils[i].offset.None? && untils[i].micro == 0
      && rs[i].startTime == IsoFormat(froms[i]) + "+00:00" && rs[i].endTime == IsoFormat(untils[i]) + "+00:00"
    requires Get(media, "ActiveReservations") == JList(seq(|rs|, i requires 0 <= i < |rs| =>
      JObj(ReservationMapping(rs[i].id, rs[i].licensePlate, rs[i].name, froms[i], untils[i]))))
    ensures ReservationsOf(media) == Ok(rs)
  {
    var items := Get(media, "ActiveReservations").items;
    forall i | 0 <= i < |items|
      ensures items[i].JObj? && ReservationFrom(items[i].fields) == Ok(rs[i])
    {
      ReservationRoundTrip(rs[i].id, rs[i].licensePlate, rs[i].name, froms[i], untils[i]);
    }
    RecordsBuilt(items, ParseError("Expected reservation object"), ReservationFrom, rs);
  }

  /** Items that all build give exactly what they build. */
  lemma RecordsBuilt<T>(items: seq<Json>, notObject: Error, build: Obj -> Result<T>, xs: seq<T>)
    requires |xs| == |items|
    requires forall i :: 0 <= i < |items| ==> items[i].JObj? && build(items[i].fields) == Ok(xs[i])
    ensures Records(items, notObject, build) == Ok(xs)
  {
    var r := Records(items, notObject, build);
    assert r.Ok?;
    assert r.value == xs;
  }

  /** A LicensePlates list that is a list of well-formed favourites reads
      back as exactly those favourites. */
  lemma FavoritesListed(favs: seq<Favorite>, media: Obj)
    requires Get(media, "LicensePlates") == JList(seq(|favs|, i requires 0 <= i < |favs| => JObj(FavoriteMapping(favs[i]))))
    ensures FavoritesOf(media) == Ok(favs)
  {
    var items := Get(media, "LicensePlates").items;
    forall i | 0 <= i < |items|
      ensures items[i].JObj? && FavoriteFrom(items[i].fields) == Ok(favs[i])
    {
      FavoriteRoundTrip(favs[i]);
    }
    RecordsBuilt(items, ParseError("Expected favorite object"), FavoriteFrom, favs);
  }

  // ---------------------------------------------------------------------
  // Picking the created reservation

  /** `_matches`: the plate first; the normalised dates only when given,
      and only once the plate agrees (normalising may overflow). */
  function Matches(res: Reservation, plate: string, from: Option<PyDateTime>, until: Option<PyDateTime>): (r: Result<bool>)
    ensures res.licensePlate != plate ==> r == Ok(false)
    ensures r.Err? ==> r.error == Overflow
  {
    if res.licensePlate != plate then Ok(false)
    else
      var fromOk :-
        if from.Some? then
          var f :- NormalizeDate(from.value);
          Ok(res.startTime == IsoFormat(f))
        else Ok(true);
      if !fromOk then Ok(false)
      else if until.Some? then
        var u :- NormalizeDate(until.value);
        Ok(res.endTime == IsoFormat(u))
      else Ok(true)
  }

  /** A reservation matches exactly when the plate is the same and each
      given date, normalised, is its stored text. */
  lemma MatchesMeaning(res: Reservation, plate: string, from: Option<PyDateTime>, until: Option<PyDateTime>)
    ensures Matches(res, plate, from, until) == Ok(true) <==>
      res.licensePlate == plate
      && (from.Some? ==> NormalizeDate(from.value).Ok? && res.startTime == IsoFormat(NormalizeDate(from.value).value))
      && (until.Some? ==> NormalizeDate(until.value).Ok? && res.endTime == IsoFormat(NormalizeDate(until.value).value))
  {
  }

  /** The index of the first matching reservation, |rs| when none matches;
      an overflow while comparing stops the search. */
  function FirstMatch(rs: seq<Reservation>, plate: string, from: Option<PyDateTime>, until: Option<PyDateTime>): (r: Result<nat>)
    ensures r.Ok? ==> r.value <= |rs|
    ensures r.Ok? ==> forall j :: 0 <= j < r.value ==> Matches(rs[j], plate, from, until) == Ok(false)
    ensures r.Ok? && r.value < |rs| ==> Matches(rs[r.value], plate, from, until) == Ok(true)
    ensures r.Err? ==>
      (exists j :: 0 <= j < |rs|
         && (forall i :: 0 <= i < j ==> Matches(rs[i], plate, from, until) == Ok(false))
         && Matches(rs[j], plate, from, until) == Err(r.error))
    decreases |rs|
  {
    if rs == [] then Ok(0)
    else
      var m :- Matches(rs[0], plate, from, until);
      if m then Ok(0)
      else
        var k :- FirstMatch(rs[1..], plate, from, until);
        assert forall i :: 1 <= i < |rs| ==> rs[i] == rs[1..][i - 1];
        Ok(k + 1)
  }

  /** The search stops at the first reservation that does not plainly fail
      to match: there it has found it, or it has overflowed. */
  lemma {:induction false} FirstMatchStops(rs: seq<Reservation>, i: nat, plate: string,
                                           from: Option<PyDateTime>, until: Option<PyDateTime>)
    requires i <= |rs| && forall j :: 0 <= j < i ==> Matches(rs[j], plate, from, until) == Ok(false)
    requires i < |rs| ==> Matches(rs[i], plate, from, until) != Ok(false)
    ensures FirstMatch(rs, plate, from, until)
         == if i == |rs| then Ok(i)
            else if Matches(rs[i], plate, from, until).Err? then Err(Matches(rs[i], plate, from, until).error)
            else Ok(i)
    decreases i
  {
    if i > 0 {
      var tail := rs[1..];
      assert Matches(rs[0], plate, from, until) == Ok(false);
      assert forall j :: 0 <= j < i - 1 ==> tail[j] == rs[j + 1];
      assert i < |rs| ==> tail[i - 1] == rs[i];
      FirstMatchStops(tail, i - 1, plate, from, until);
      var k := FirstMatch(tail, plate, from, until);
      assert FirstMatch(rs, plate, from, until) == if k.Err? then Err(k.error) else Ok(k.value + 1);
    }
  }

  /** `_pick_reservation_from_permit`, stated on values. */
  function PickSpec(data: Json, plate: string, from: Option<PyDateTime>, until: Option<PyDateTime>): (r: Result<Reservation>)
    ensures ExtractPermitMedia(data).Err? ==> r == Err(ExtractPermitMedia(data).error)
    ensures ExtractPermitMedia(data).Ok? ==>
      var rs := ReservationsOf(ExtractPermitMedia(data).value.1);
      (rs.Err? ==> r == Err(rs.error))
      && (rs == Ok([]) ==> r == Err(ParseError("No active reservations in response")))
      && (rs.Ok? && rs.value != [] ==> r == PickAmong(rs.value, plate, from, until))
  {
    var (_, media) :- ExtractPermitMedia(data);
    var rs :- ReservationsOf(media);
    if rs == [] then Err(ParseError("No active reservations in response"))
    else PickAmong(rs, plate, from, until)
  }

  /** The first matching reservation, else the first one. */
  function PickAmong(rs: seq<Reservation>, plate: string, from: Option<PyDateTime>, until: Option<PyDateTime>)
    : (r: Result<Reservation>)
    requires rs != []
    ensures r.Ok? ==> r.value in rs
    ensures r.Ok? ==>
      exists k :: 0 <= k <= |rs|
        && (forall j :: 0 <= j < k ==> Matches(rs[j], plate, from, until) == Ok(false))
        && (k < |rs| ==> Matches(rs[k], plate, from, until) == Ok(true) && r.value == rs[k])
        && (k == |rs| ==> r.value == rs[0])
    ensures r.Err? ==>
      exists k :: 0 <= k < |rs|
        && (forall j :: 0 <= j < k ==> Matches(rs[j], plate, from, until) == Ok(false))
        && Matches(rs[k], plate, from, until) == Err(r.error)
  {
    var k :- FirstMatch(rs, plate, from, until);
    Ok(if k < |rs| then rs[k] else rs[0])
  }

  /** `_pick_reservation_from_permit`: the first reservation that matches,
      else the first one; never a reservation that is not in the response. */
  method PickReservation(data: Json, plate: string, from: Option<PyDateTime>, until: Option<PyDateTime>)
    returns (r: Result<Reservation>)
    ensures r == PickSpec(data, plate, from, until)
  {
    var pm := ExtractPermitMedia(data);
    if pm.Err? {
      return Err(pm.error);
    }
    var reservations := ReservationsOf(pm.value.1);
    if reservations.Err? {
      return Err(reservations.error);
    }
    var rs := reservations.value;
    if rs == [] {
      return Err(ParseError("No active reservations in response"));
    }
    r := PickAmongLoop(rs, plate, from, until);
  }

  /** The `for reservation in reservations` loop of `_pick_reservation_from_permit`. */
  method PickAmongLoop(rs: seq<Reservation>, plate: string, from: Option<PyDateTime>, until: Option<PyDateTime>)
    returns (r: Result<Reservation>)
    requires rs != []
    ensures r == PickAmong(rs, plate, from, until)
  {
    for i := 0 to |rs|
      invariant forall j :: 0 <= j < i ==> Matches(rs[j], plate, from, until) == Ok(false)
    {
      var m := Matches(rs[i], plate, from, until);
      if m.Err? {
        FirstMatchStops(rs, i, plate, from, until);
        return Err(m.error);
      }
      if m.value {
        FirstMatchStops(rs, i, plate, from, until);
        return Ok(rs[i]);
      }
      assert m == Ok(false);
    }
    FirstMatchStops(rs, |rs|, plate, from, until);
    return Ok(rs[0]);
  }

  /** The picked reservation is one the response listed, and it matches
      unless no listed reservation does. */
  lemma PickIsListed(data: Json, plate: string, from: Option<PyDateTime>, until: Option<PyDateTime>)
    requires PickSpec(data, plate, from, until).Ok?
    ensures ExtractPermitMedia(data).Ok? && ReservationsOf(ExtractPermitMedia(data).value.1).Ok?
    ensures var rs := ReservationsOf(ExtractPermitMedia(data).value.1).value;
      var p := PickSpec(data, plate, from, until).value;
      rs != [] && p in rs
      && (Matches(p, plate, from, until) == Ok(true)
          || forall j :: 0 <= j < |rs| ==> Matches(rs[j], plate, from, until) == Ok(false))
    ensures var rs := ReservationsOf(ExtractPermitMedia(data).value.1).value;
      var p := PickSpec(data, plate, from, until).value;
      (forall j :: 0 <= j < |rs| ==> Matches(rs[j], plate, from, until) == Ok(false)) ==> p == rs[0]
  {
    var rs := ReservationsOf(ExtractPermitMedia(data).value.1).value;
    assert rs != [] && PickSpec(data, plate, from, until) == PickAmong(rs, plate, from, until);
    AmongIsListed(rs, plate, from, until);
  }

  lemma AmongIsListed(rs: seq<Reservation>, plate: string, from: Option<PyDateTime>, until: Option<PyDateTime>)
    requires rs != [] && PickAmong(rs, plate, from, until).Ok?
    ensures var p := PickAmong(rs, plate, from, until).value;
      p in rs
      && (Matches(p, plate, from, until) == Ok(true)
          || forall j :: 0 <= j < |rs| ==> Matches(rs[j], plate, from, until) == Ok(false))
    ensures var p := PickAmong(rs, plate, from, until).value;
      (forall j :: 0 <= j < |rs| ==> Matches(rs[j], plate, from, until) == Ok(false)) ==> p == rs[0]
  {
    var p := PickAmong(rs, plate, from, until);
    var k :| 0 <= k <= |rs|
      && (forall j :: 0 <= j < k ==> Matches(rs[j], plate, from, until) == Ok(false))
      && (k < |rs| ==> Matches(rs[k], plate, from, until) == Ok(true) && p.value == rs[k])
      && (k == |rs| ==> p.value == rs[0]);
  }

  /** No reservation in the response is an error, whatever was asked for. */
  lemma PickNeedsReservations(data: Json, plate: string, from: Option<PyDateTime>, until: Option<PyDateTime>)
    requires ExtractPermitMedia(data).Ok? && !Truthy(Get(ExtractPermitMedia(data).value.1, "ActiveReservations"))
    ensures PickSpec(data, plate, from, until) == Err(ParseError("No active reservations in response"))
  {
  }

  // ---------------------------------------------------------------------
  // The permit-media defaults

  datatype Defaults = Defaults(typeId: Option<int>, code: Option<string>)

  /** `_update_defaults`: TypeID first, then Code; a bad Code leaves the
      new type id stored. */
  function UpdateDefaultsSpec(d: Defaults, media: Obj): (r: (Defaults, Outcome))
    ensures PyInt(Get(media, "TypeID")).None? ==> r == (d, Fail(ParseError("Invalid permit media TypeID")))
    ensures PyInt(Get(media, "TypeID")).Some? ==> r.0.typeId == PyInt(Get(media, "TypeID"))
    ensures r.1.Pass? <==> PyInt(Get(media, "TypeID")).Some? && Get(media, "Code").JStr?
    ensures r.1.Pass? ==> r.0.code == Some(Get(media, "Code").s)
    ensures r.1.Fail? ==> r.0.code == d.code
    ensures PyInt(Get(media, "TypeID")).Some? && !Get(media, "Code").JStr? ==>
      r.1 == Fail(ParseError("Invalid permit media Code"))
  {
    match PyInt(Get(media, "TypeID"))
    case None => (d, Fail(ParseError("Invalid permit media TypeID")))
    case Some(t) =>
      var d1 := d.(typeId := Some(t));
      match Get(media, "Code")
      case JStr(c) => (d1.(code := Some(c)), Pass)
      case _ => (d1, Fail(ParseError("Invalid permit media Code")))
  }

  /** Updating again from the same permit media changes nothing. */
  lemma UpdateDefaultsIdempotent(d: Defaults, media: Obj)
    ensures var r := UpdateDefaultsSpec(d, media);
      UpdateDefaultsSpec(r.0, media).0 == r.0 && UpdateDefaultsSpec(r.0, media).1 == r.1
  {
  }

  /** `_update_defaults_from_response`: the permit data must be there. */
  function UpdateFromResponseSpec(d: Defaults, data: Json): (r: (Defaults, Outcome))
    ensures ExtractPermitMedia(data).Err? ==> r == (d, Fail(ExtractPermitMedia(data).error))
    ensures ExtractPermitMedia(data).Ok? ==> r == UpdateDefaultsSpec(d, ExtractPermitMedia(data).value.1)
  {
    match ExtractPermitMedia(data)
    case Err(e) => (d, Fail(e))
    case Ok((_, media)) => UpdateDefaultsSpec(d, media)
  }

  /** A response that carries permit data at all. */
  predicate HasPermitData(data: Json) {
    data.JObj? && ("Permit" in data.fields || "Permits" in data.fields)
  }

  /** `_maybe_update_defaults_from_response`: only a response with permit
      data is looked at. */
  function MaybeUpdateSpec(d: Defaults, data: Json): (r: (Defaults, Outcome))
    ensures !HasPermitData(data) ==> r == (d, Pass)
    ensures HasPermitData(data) ==> r == UpdateFromResponseSpec(d, data)
    ensures r.1.Pass? ==> r.0 == d || (r.0.typeId.Some? && r.0.code.Some?)
  {
    if data.JNull? then (d, Pass)
    else if !data.JObj? then (d, Pass)
    else if "Permit" !in data.fields && "Permits" !in data.fields then (d, Pass)
    else UpdateFromResponseSpec(d, data)
  }

  /** Where the lenient update passes over a response, the strict one
      used after ending a reservation fails. */
  lemma StrictUpdateNeedsPermit(d: Defaults, data: Json)
    requires !HasPermitData(data)
    ensures MaybeUpdateSpec(d, data) == (d, Pass)
    ensures UpdateFromResponseSpec(d, data).1.Fail?
  {
  }

  // ---------------------------------------------------------------------
  // Payloads

  function OptStr(s: Option<string>): Json {
    if s.Some? then JStr(s.value) else JNull
  }

  /** `_build_media_payload`. */
  function MediaPayload(typeId: int, code: string): (p: Obj)
    ensures p.Keys == {"permitMediaTypeID", "permitMediaCode"}
    ensures Get(p, "permitMediaTypeID") == JInt(typeId) && Get(p, "permitMediaCode") == JStr(code)
  {
    map["permitMediaTypeID" := JInt(typeId), "permitMediaCode" := JStr(code)]
  }

  function PlateObject(plate: string, name: Option<string>): Json {
    JObj(map["Value" := JStr(plate), "Name" := OptStr(name)])
  }

  function CreatePayload(typeId: int, code: string, from: PyDateTime, plate: string, name: Option<string>,
                         until: Option<PyDateTime>): (p: Obj)
    ensures p.Keys == {"permitMediaTypeID", "permitMediaCode", "DateFrom", "LicensePlate"}
                     + (if until.Some? then {"DateUntil"} else {})
    ensures Get(p, "permitMediaTypeID") == JInt(typeId) && Get(p, "permitMediaCode") == JStr(code)
    ensures Get(p, "DateFrom") == JStr(DtToApi(from)) && Get(p, "LicensePlate") == PlateObject(plate, name)
    ensures until.Some? ==> Get(p, "DateUntil") == JStr(DtToApi(until.value))
  {
    var untilText := if until.Some? then Some(DtToApi(until.value)) else None;
    CreateFields(typeId, code, DtToApi(from), PlateObject(plate, name), untilText)
  }

  /** `CreatePayload` over the already formatted dates. */
  function CreateFields(typeId: int, code: string, fromText: string, plate: Json, untilText: Option<string>): (p: Obj)
    ensures p.Keys == {"permitMediaTypeID", "permitMediaCode", "DateFrom", "LicensePlate"}
                     + (if untilText.Some? then {"DateUntil"} else {})
    ensures Get(p, "permitMediaTypeID") == JInt(typeId) && Get(p, "permitMediaCode") == JStr(code)
    ensures Get(p, "DateFrom") == JStr(fromText) && Get(p, "LicensePlate") == plate
    ensures untilText.Some? ==> Get(p, "DateUntil") == JStr(untilText.value)
  {
    var base := MediaPayload(typeId, code)["DateFrom" := JStr(fromText)]["LicensePlate" := plate];
    if untilText.Some? then base["DateUntil" := JStr(untilText.value)] else base
  }

  /** `_build_media_payload` spread after the reservation id. */
  function EndPayload(id: int, typeId: int, code: string): (p: Obj)
    ensures p.Keys == {"ReservationID", "permitMediaTypeID", "permitMediaCode"}
    ensures Get(p, "ReservationID") == JInt(id)
    ensures Get(p, "permitMediaTypeID") == JInt(typeId) && Get(p, "permitMediaCode") == JStr(code)
  {
    map["ReservationID" := JInt(id)] + MediaPayload(typeId, code)
  }

  /** The media fields, the plate as a Value/Name object and a null
      `updateLicensePlate`. */
  function UpsertPayload(typeId: int, code: string, plate: string, name: Option<string>): (p: Obj)
    ensures p.Keys == {"permitMediaTypeID", "permitMediaCode", "licensePlate", "updateLicensePlate"}
    ensures Get(p, "permitMediaTypeID") == JInt(typeId) && Get(p, "permitMediaCode") == JStr(code)
    ensures Get(p, "licensePlate") == JObj(map["Value" := JStr(plate), "Name" := if name.Some? then JStr(name.value) else JNull])
    ensures Get(p, "updateLicensePlate") == JNull
  {
    MediaPayload(typeId, code)["licensePlate" := PlateObject(plate, name)]["updateLicensePlate" := JNull]
  }

  /** The media fields with the plate as bare text and the name, null when
      absent. */
  function RemovePayload(typeId: int, code: string, plate: string, name: Option<string>): (p: Obj)
    ensures p.Keys == {"permitMediaTypeID", "permitMediaCode", "licensePlate", "name"}
    ensures Get(p, "permitMediaTypeID") == JInt(typeId) && Get(p, "permitMediaCode") == JStr(code)
    ensures Get(p, "licensePlate") == JStr(plate)
    ensures Get(p, "name") == if name.Some? then JStr(name.value) else JNull
  {
    MediaPayload(typeId, code)["licensePlate" := JStr(plate)]["name" := OptStr(name)]
  }

  // ---------------------------------------------------------------------
  // The operations, stated on the session and the stored defaults

  /** `request("POST", path, json=payload)`, `raise_for_status()` and
      `async_json(...)`. */
  function PostSpec(cfg: Config, st: Session, path: string, payload: Option<Json>): (r: (Session, Result<Json>))
    ensures r.0 == RequestSpec(cfg, st, "POST", path, map[], payload, true).0
    ensures RequestSpec(cfg, st, "POST", path, map[], payload, true).1.Err? ==>
      r.1 == Err(RequestSpec(cfg, st, "POST", path, map[], payload, true).1.error)
    ensures RequestSpec(cfg, st, "POST", path, map[], payload, true).1.Ok? ==>
      r.1 == ReadJson(RequestSpec(cfg, st, "POST", path, map[], payload, true).1.value)
  {
    var (st1, reply) := RequestSpec(cfg, st, "POST", path, map[], payload, true);
    match reply
    case Err(e) => (st1, Err(e))
    case Ok(resp) => (st1, ReadJson(resp))
  }

  /** `_fetch_permit`: a successful fetch leaves both defaults set. */
  function FetchPermitSpec(cfg: Config, st: Session, d: Defaults): (r: (Session, Defaults, Result<(Obj, Obj)>))
    ensures r.0 == PostSpec(cfg, st, "/login/getbase", None).0
    ensures r.2.Ok? ==> r.1.typeId.Some? && r.1.code.Some?
    ensures r.2.Ok? ==>
      PostSpec(cfg, st, "/login/getbase", None).1.Ok?
      && ExtractPermitMedia(PostSpec(cfg, st, "/login/getbase", None).1.value) == r.2
    ensures r.2.Err? ==> r.1.code == d.code
    ensures r.2.Ok? ==> UpdateDefaultsSpec(d, r.2.value.1) == (r.1, Pass)
  {
    var (st1, data) := PostSpec(cfg, st, "/login/getbase", None);
    match data
    case Err(e) => (st1, d, Err(e))
    case Ok(doc) =>
      match ExtractPermitMedia(doc)
      case Err(e) => (st1, d, Err(e))
      case Ok(pm) =>
        var (d1, o) := UpdateDefaultsSpec(d, pm.1);
        if o.Fail? then (st1, d1, Err(o.error)) else (st1, d1, Ok(pm))
  }

  /** Each way `_fetch_permit` can end: the POST fails, the permit data is
      missing, or `_update_defaults` decides, its stored values kept even
      when it fails. */
  lemma FetchPermitOutcomes(cfg: Config, st: Session, d: Defaults)
    ensures var post := PostSpec(cfg, st, "/login/getbase", None).1;
      var r := FetchPermitSpec(cfg, st, d);
      (post.Err? ==> r.1 == d && r.2 == Err(post.error))
      && (post.Ok? && ExtractPermitMedia(post.value).Err? ==> r.1 == d && r.2 == Err(ExtractPermitMedia(post.value).error))
    ensures var post := PostSpec(cfg, st, "/login/getbase", None).1;
      var r := FetchPermitSpec(cfg, st, d);
      post.Ok? && ExtractPermitMedia(post.value).Ok? ==>
        var u := UpdateDefaultsSpec(d, ExtractPermitMedia(post.value).value.1);
        r.1 == u.0 && (u.1.Pass? <==> r.2.Ok?) && (u.1.Fail? ==> r.2 == Err(u.1.error))
  {
  }

  /** A fetch is needed when a value is missing and so is a stored default. */
  predicate NeedsFetch(d: Defaults, typeId: Option<int>, code: Option<string>) {
    (typeId.None? || code.None?) && (d.typeId.None? || d.code.None?)
  }

  /** The fetch of `_ensure_media_defaults`: `_fetch_permit` followed by a
      second `_update_defaults` from the same permit media. */
  function RefreshSpec(cfg: Config, st: Session, d: Defaults): (r: (Session, Defaults, Outcome))
    ensures r.0 == FetchPermitSpec(cfg, st, d).0
    ensures r.2.Pass? ==> r.1.typeId.Some? && r.1.code.Some?
    ensures r.2.Pass? <==> FetchPermitSpec(cfg, st, d).2.Ok?
  {
    var (st1, d1, p) := FetchPermitSpec(cfg, st, d);
    match p
    case Err(e) => (st1, d1, Fail(e))
    case Ok((_, media)) =>
      UpdateDefaultsIdempotent(d, media);
      var (d2, o) := UpdateDefaultsSpec(d1, media);
      (st1, d2, o)
  }

  /** `_ensure_media_defaults`. */
  function EnsureMediaDefaultsSpec(cfg: Config, st: Session, d: Defaults, typeId: Option<int>, code: Option<string>)
    : (r: (Session, Defaults, Result<(int, string)>))
    ensures !NeedsFetch(d, typeId, code) ==> r.0 == st && r.1 == d && r.2.Ok?
    ensures NeedsFetch(d, typeId, code) ==> r.0 == FetchPermitSpec(cfg, st, d).0
    ensures r.2.Ok? && typeId.Some? ==> r.2.value.0 == typeId.value
    ensures r.2.Ok? && code.Some? ==> r.2.value.1 == code.value
    ensures r.2.Ok? && typeId.None? ==> r.1.typeId == Some(r.2.value.0)
    ensures r.2.Ok? && code.None? ==> r.1.code == Some(r.2.value.1)
    ensures r.2.Err? ==> NeedsFetch(d, typeId, code) && RefreshSpec(cfg, st, d).2 == Fail(r.2.error)
  {
    if typeId.Some? && code.Some? then (st, d, Ok((typeId.value, code.value)))
    else
      var (st1, d1, o) := if d.typeId.None? || d.code.None? then RefreshSpec(cfg, st, d) else (st, d, Pass);
      if o.Fail? then (st1, d1, Err(o.error))
      else (st1, d1, FillIn(d1, typeId, code))
  }

  /** The given values, each missing one taken from the stored defaults. */
  function FillIn(d: Defaults, typeId: Option<int>, code: Option<string>): (r: Result<(int, string)>)
    ensures d.typeId.Some? && d.code.Some? ==> r.Ok?
    ensures r.Ok? && typeId.Some? ==> r.value.0 == typeId.value
    ensures r.Ok? && code.Some? ==> r.value.1 == code.value
    ensures r.Ok? && typeId.None? ==> d.typeId == Some(r.value.0)
    ensures r.Ok? && code.None? ==> d.code == Some(r.value.1)
  {
    var t := if typeId.None? then d.typeId else typeId;
    var c := if code.None? then d.code else code;
    if t.None? || c.None? then Err(ParseError("Missing permit media defaults"))
    else Ok((t.value, c.value))
  }

  function GetAccountSpec(cfg: Config, st: Session, d: Defaults): (r: (Session, Defaults, Result<Account>))
    ensures r.0 == FetchPermitSpec(cfg, st, d).0 && r.1 == FetchPermitSpec(cfg, st, d).1
    ensures r.2.Ok? ==> FetchPermitSpec(cfg, st, d).2.Ok? && AccountFrom(FetchPermitSpec(cfg, st, d).2.value.1) == r.2
    ensures FetchPermitSpec(cfg, st, d).2.Ok? ==> r.2 == AccountFrom(FetchPermitSpec(cfg, st, d).2.value.1)
    ensures FetchPermitSpec(cfg, st, d).2.Err? ==> r.2 == Err(FetchPermitSpec(cfg, st, d).2.error)
  {
    var (st1, d1, p) := FetchPermitSpec(cfg, st, d);
    match p
    case Err(e) => (st1, d1, Err(e))
    case Ok((_, media)) => (st1, d1, AccountFrom(media))
  }

  function GetZoneSpec(cfg: Config, st: Session, d: Defaults, now: DateTime): (r: (Session, Defaults, Result<Option<Zone>>))
    requires Reading(now) && now.offset == Some(0)
    ensures r.0 == FetchPermitSpec(cfg, st, d).0 && r.1 == FetchPermitSpec(cfg, st, d).1
    ensures r.2.Ok? ==> FetchPermitSpec(cfg, st, d).2.Ok? && ZoneOf(FetchPermitSpec(cfg, st, d).2.value.0, now) == r.2
    ensures FetchPermitSpec(cfg, st, d).2.Ok? ==> r.2 == ZoneOf(FetchPermitSpec(cfg, st, d).2.value.0, now)
    ensures FetchPermitSpec(cfg, st, d).2.Err? ==> r.2 == Err(FetchPermitSpec(cfg, st, d).2.error)
  {
    var (st1, d1, p) := FetchPermitSpec(cfg, st, d);
    match p
    case Err(e) => (st1, d1, Err(e))
    case Ok((permit, _)) => (st1, d1, ZoneOf(permit, now))
  }

  function ListReservationsSpec(cfg: Config, st: Session, d: Defaults): (r: (Session, Defaults, Result<seq<Reservation>>))
    ensures r.0 == FetchPermitSpec(cfg, st, d).0 && r.1 == FetchPermitSpec(cfg, st, d).1
    ensures r.2.Ok? ==> FetchPermitSpec(cfg, st, d).2.Ok? && ReservationsOf(FetchPermitSpec(cfg, st, d).2.value.1) == r.2
    ensures FetchPermitSpec(cfg, st, d).2.Ok? ==> r.2 == ReservationsOf(FetchPermitSpec(cfg, st, d).2.value.1)
    ensures FetchPermitSpec(cfg, st, d).2.Err? ==> r.2 == Err(FetchPermitSpec(cfg, st, d).2.error)
  {
    var (st1, d1, p) := FetchPermitSpec(cfg, st, d);
    match p
    case Err(e) => (st1, d1, Err(e))
    case Ok((_, media)) => (st1, d1, ReservationsOf(media))
  }

  function ListFavoritesSpec(cfg: Config, st: Session, d: Defaults): (r: (Session, Defaults, Result<seq<Favorite>>))
    ensures r.0 == FetchPermitSpec(cfg, st, d).0 && r.1 == FetchPermitSpec(cfg, st, d).1
    ensures r.2.Ok? ==> FetchPermitSpec(cfg, st, d).2.Ok? && FavoritesOf(FetchPermitSpec(cfg, st, d).2.value.1) == r.2
    ensures FetchPermitSpec(cfg, st, d).2.Ok? ==> r.2 == FavoritesOf(FetchPermitSpec(cfg, st, d).2.value.1)
    ensures FetchPermitSpec(cfg, st, d).2.Err? ==> r.2 == Err(FetchPermitSpec(cfg, st, d).2.error)
  {
    var (st1, d1, p) := FetchPermitSpec(cfg, st, d);
    match p
    case Err(e) => (st1, d1, Err(e))
    case Ok((_, media)) => (st1, d1, FavoritesOf(media))
  }

  /** `async_create_reservation`; `now` is what `datetime.now()` reads
      when no start is given. */
  function CreateReservationSpec(cfg: Config, st: Session, d: Defaults, plate: string, plateName: Option<string>,
                                 from: Option<PyDateTime>, until: Option<PyDateTime>,
                                 typeId: Option<int>, code: Option<string>, now: PyDateTime)
    : (r: (Session, Defaults, Result<Reservation>))
    ensures var m := EnsureMediaDefaultsSpec(cfg, st, d, typeId, code);
      m.2.Err? ==> r == (m.0, m.1, Err(m.2.error))
    ensures r.1 == EnsureMediaDefaultsSpec(cfg, st, d, typeId, code).1
    ensures var m := EnsureMediaDefaultsSpec(cfg, st, d, typeId, code);
      m.2.Ok? ==>
        var start := if from.Some? then from.value else now;
        var post := PostSpec(cfg, m.0, "/reservation/create",
                             Some(JObj(CreatePayload(m.2.value.0, m.2.value.1, start, plate, plateName, until))));
        r.0 == post.0
        && (post.1.Err? ==> r.2 == Err(post.1.error))
        && (post.1.Ok? ==> r.2 == PickSpec(post.1.value, plate, Some(start), until))
  {
    var m := EnsureMediaDefaultsSpec(cfg, st, d, typeId, code);
    var start := if from.Some? then from.value else now;
    if m.2.Err? then (m.0, m.1, Err(m.2.error))
    else CreatePost(cfg, m.0, m.1, CreatePayload(m.2.value.0, m.2.value.1, start, plate, plateName, until),
                    plate, start, until)
  }

  /** The create post of `async_create_reservation` and the pick from its answer. */
  function CreatePost(cfg: Config, st: Session, d: Defaults, payload: Obj, plate: string, start: PyDateTime,
                      until: Option<PyDateTime>): (r: (Session, Defaults, Result<Reservation>))
    ensures var post := PostSpec(cfg, st, "/reservation/create", Some(JObj(payload)));
      r.0 == post.0 && r.1 == d
      && (post.1.Err? ==> r.2 == Err(post.1.error))
      && (post.1.Ok? ==> r.2 == PickSpec(post.1.value, plate, Some(start), until))
  {
    var post := PostSpec(cfg, st, "/reservation/create", Some(JObj(payload)));
    (post.0, d, if post.1.Err? then Err(post.1.error) else PickSpec(post.1.value, plate, Some(start), until))
  }

  /** `async_end_reservation`: the answer must carry permit data. */
  function EndReservationSpec(cfg: Config, st: Session, d: Defaults, id: int, typeId: Option<int>, code: Option<string>)
    : (r: (Session, Defaults, Outcome))
    ensures var m := EnsureMediaDefaultsSpec(cfg, st, d, typeId, code);
      m.2.Err? ==> r == (m.0, m.1, Fail(m.2.error))
    ensures r.2.Pass? ==> r.1.typeId.Some? && r.1.code.Some?
    ensures var m := EnsureMediaDefaultsSpec(cfg, st, d, typeId, code);
      m.2.Ok? ==>
        var post := PostSpec(cfg, m.0, "/reservation/end", Some(JObj(EndPayload(id, m.2.value.0, m.2.value.1))));
        r.0 == post.0
        && (post.1.Err? ==> r.1 == m.1 && r.2 == Fail(post.1.error))
        && (post.1.Ok? ==> (r.1, r.2) == UpdateFromResponseSpec(m.1, post.1.value))
        && (post.1.Ok? && !HasPermitData(post.1.value) ==> r.2.Fail?)
  {
    var m := EnsureMediaDefaultsSpec(cfg, st, d, typeId, code);
    if m.2.Err? then (m.0, m.1, Fail(m.2.error))
    else EndPost(cfg, m.0, m.1, EndPayload(id, m.2.value.0, m.2.value.1))
  }

  /** The POST of `async_end_reservation` and the strict update of the
      defaults from its answer. */
  function EndPost(cfg: Config, st: Session, d: Defaults, payload: Obj): (r: (Session, Defaults, Outcome))
    ensures var post := PostSpec(cfg, st, "/reservation/end", Some(JObj(payload)));
      r.0 == post.0
      && (post.1.Err? ==> r.1 == d && r.2 == Fail(post.1.error))
      && (post.1.Ok? ==> (r.1, r.2) == UpdateFromResponseSpec(d, post.1.value))
      && (post.1.Ok? && !HasPermitData(post.1.value) ==> r.2.Fail?)
    ensures r.2.Pass? ==> r.1.typeId.Some? && r.1.code.Some?
  {
    var post := PostSpec(cfg, st, "/reservation/end", Some(JObj(payload)));
    var u := EndSettle(d, post.1);
    (post.0, u.0, u.1)
  }

  /** The strict update from the answer to ending a reservation, or the
      error that took the place of an answer. */
  function EndSettle(d: Defaults, data: Result<Json>): (r: (Defaults, Outcome))
    ensures data.Err? ==> r == (d, Fail(data.error))
    ensures data.Ok? ==> r == UpdateFromResponseSpec(d, data.value)
    ensures data.Ok? && !HasPermitData(data.value) ==> r.1.Fail?
    ensures r.1.Pass? ==> r.0.typeId.Some? && r.0.code.Some?
  {
    match data
    case Err(e) => (d, Fail(e))
    case Ok(doc) =>
      if !HasPermitData(doc) then
        StrictUpdateNeedsPermit(d, doc);
        UpdateFromResponseSpec(d, doc)
      else UpdateFromResponseSpec(d, doc)
  }

  /** The POST of a favourite change and the lenient update of the
      defaults from its answer. */
  function FavoritePost(cfg: Config, st: Session, d: Defaults, path: string, payload: Obj)
    : (r: (Session, Defaults, Outcome))
    ensures var post := PostSpec(cfg, st, path, Some(JObj(payload)));
      r.0 == post.0
      && (post.1.Err? ==> r.1 == d && r.2 == Fail(post.1.error))
      && (post.1.Ok? ==> (r.1, r.2) == MaybeUpdateSpec(d, post.1.value))
    ensures r.2.Pass? ==> r.1 == d || (r.1.typeId.Some? && r.1.code.Some?)
  {
    var (st1, data) := PostSpec(cfg, st, path, Some(JObj(payload)));
    match data
    case Err(e) => (st1, d, Fail(e))
    case Ok(doc) =>
      var (d1, o) := MaybeUpdateSpec(d, doc);
      (st1, d1, o)
  }

  /** `_upsert_favorite`. */
  function UpsertFavoriteSpec(cfg: Config, st: Session, d: Defaults, name: Option<string>, plate: string)
    : (r: (Session, Defaults, Outcome))
    ensures var m := EnsureMediaDefaultsSpec(cfg, st, d, None, None);
      m.2.Err? ==> r == (m.0, m.1, Fail(m.2.error))
    ensures r.2.Pass? ==> r.1.typeId.Some? && r.1.code.Some?
    ensures var m := EnsureMediaDefaultsSpec(cfg, st, d, None, None);
      m.2.Ok? ==>
        var post := PostSpec(cfg, m.0, "/permitmedialicenseplate/upsert", Some(JObj(UpsertPayload(m.2.value.0, m.2.value.1, plate, name))));
        r.0 == post.0
        && (post.1.Err? ==> r.1 == m.1 && r.2 == Fail(post.1.error))
        && (post.1.Ok? ==> (r.1, r.2) == MaybeUpdateSpec(m.1, post.1.value))
  {
    var m := EnsureMediaDefaultsSpec(cfg, st, d, None, None);
    if m.2.Err? then (m.0, m.1, Fail(m.2.error))
    else FavoritePost(cfg, m.0, m.1, "/permitmedialicenseplate/upsert", UpsertPayload(m.2.value.0, m.2.value.1, plate, name))
  }

  /** `async_delete_favorite`. */
  function DeleteFavoriteSpec(cfg: Config, st: Session, d: Defaults, name: Option<string>, plate: string)
    : (r: (Session, Defaults, Outcome))
    ensures var m := EnsureMediaDefaultsSpec(cfg, st, d, None, None);
      m.2.Err? ==> r == (m.0, m.1, Fail(m.2.error))
    ensures r.2.Pass? ==> r.1.typeId.Some? && r.1.code.Some?
    ensures var m := EnsureMediaDefaultsSpec(cfg, st, d, None, None);
      m.2.Ok? ==>
        var post := PostSpec(cfg, m.0, "/permitmedialicenseplate/remove", Some(JObj(RemovePayload(m.2.value.0, m.2.value.1, plate, name))));
        r.0 == post.0
        && (post.1.Err? ==> r.1 == m.1 && r.2 == Fail(post.1.error))
        && (post.1.Ok? ==> (r.1, r.2) == MaybeUpdateSpec(m.1, post.1.value))
  {
    var m := EnsureMediaDefaultsSpec(cfg, st, d, None, None);
    if m.2.Err? then (m.0, m.1, Fail(m.2.error))
    else FavoritePost(cfg, m.0, m.1, "/permitmedialicenseplate/remove", RemovePayload(m.2.value.0, m.2.value.1, plate, name))
  }

  /** `async_create_favorite`: upsert, then hand back what was asked for. */
  function CreateFavoriteSpec(cfg: Config, st: Session, d: Defaults, name: Option<string>, plate: string)
    : (r: (Session, Defaults, Result<Favorite>))
    ensures r.2.Ok? ==> r.2.value == Favorite(plate, name)
    ensures r.2.Ok? <==> UpsertFavoriteSpec(cfg, st, d, name, plate).2.Pass?
  {
    var (st1, d1, o) := UpsertFavoriteSpec(cfg, st, d, name, plate);
    if o.Fail? then (st1, d1, Err(o.error)) else (st1, d1, Ok(Favorite(plate, name)))
  }

  /** The first favourite with the plate, |favs| when there is none. */
  function FirstWithPlate(favs: seq<Favorite>, plate: string): (k: nat)
    ensures k <= |favs|
    ensures k < |favs| ==> favs[k].licensePlate == plate
    ensures forall j :: 0 <= j < k ==> favs[j].licensePlate != plate
    decreases |favs|
  {
    if favs == [] then 0
    else if favs[0].licensePlate == plate then 0
    else
      assert forall i :: 1 <= i < |favs| ==> favs[i] == favs[1..][i - 1];
      1 + FirstWithPlate(favs[1..], plate)
  }

  /** The for-break search of `async_update_favorite`: the first favourite
      with the plate, its position and its name. */
  method FindFavorite(favs: seq<Favorite>, plate: string) returns (found: bool, i: nat, existing: Option<string>)
    ensures found <==> FirstWithPlate(favs, plate) < |favs|
    ensures found ==> i == FirstWithPlate(favs, plate) && existing == favs[i].name
    ensures !found ==> existing.None?
  {
    existing := None;
    found := false;
    i := 0;
    while i < |favs|
      invariant 0 <= i <= |favs|
      invariant forall j :: 0 <= j < i ==> favs[j].licensePlate != plate
    {
      if favs[i].licensePlate == plate {
        existing := favs[i].name;
        found := true;
        break;
      }
      i := i + 1;
    }
  }

  /** `async_update_favorite`: list, remove the first favourite with the
      plate (under its existing name) when there is one, then upsert. */
  function UpdateFavoriteSpec(cfg: Config, st: Session, d: Defaults, name: Option<string>, plate: string)
    : (r: (Session, Defaults, Result<Favorite>))
    ensures r.2.Ok? ==> r.2.value == Favorite(plate, name)
  {
    var (st1, d1, listed) := ListFavoritesSpec(cfg, st, d);
    match listed
    case Err(e) => (st1, d1, Err(e))
    case Ok(favs) =>
      var k := FirstWithPlate(favs, plate);
      var (st2, d2, removed) :=
        if k < |favs| then DeleteFavoriteSpec(cfg, st1, d1, favs[k].name, plate) else (st1, d1, Pass);
      if removed.Fail? then (st2, d2, Err(removed.error))
      else CreateFavoriteSpec(cfg, st2, d2, name, plate)
  }

  /** Without a favourite for the plate, updating is creating: no remove. */
  lemma UpdateWithoutMatchCreates(cfg: Config, st: Session, d: Defaults, name: Option<string>, plate: string)
    requires ListFavoritesSpec(cfg, st, d).2.Ok?
    requires var favs := ListFavoritesSpec(cfg, st, d).2.value;
      forall j :: 0 <= j < |favs| ==> favs[j].licensePlate != plate
    ensures var (st1, d1, _) := ListFavoritesSpec(cfg, st, d);
      UpdateFavoriteSpec(cfg, st, d, name, plate) == CreateFavoriteSpec(cfg, st1, d1, name, plate)
  {
  }

  /** With a favourite for the plate, it is removed under its existing
      name first, and the upsert follows only when the remove succeeded. */
  lemma UpdateWithMatchRemovesFirst(cfg: Config, st: Session, d: Defaults, name: Option<string>, plate: string, k: nat)
    requires ListFavoritesSpec(cfg, st, d).2.Ok?
    requires var favs := ListFavoritesSpec(cfg, st, d).2.value;
      k < |favs| && favs[k].licensePlate == plate && forall j :: 0 <= j < k ==> favs[j].licensePlate != plate
    ensures var (st1, d1, listed) := ListFavoritesSpec(cfg, st, d);
      var (st2, d2, removed) := DeleteFavoriteSpec(cfg, st1, d1, listed.value[k].name, plate);
      UpdateFavoriteSpec(cfg, st, d, name, plate)
      == if removed.Fail? then (st2, d2, Err(removed.error)) else CreateFavoriteSpec(cfg, st2, d2, name, plate)
  {
    var favs := ListFavoritesSpec(cfg, st, d).2.value;
    assert FirstWithPlate(favs, plate) == k;
  }

  // ---------------------------------------------------------------------
  // The object

  class CityParkingPermitApi {
    const auth: Auth
    var defaultTypeId: Option<int>
    var defaultCode: Option<string>

    function Stored(): Defaults
      reads this
    {
      Defaults(defaultTypeId, defaultCode)
    }

    constructor (auth: Auth)
      ensures this.auth == auth && Stored() == Defaults(None, None)
    {
      this.auth := auth;
      defaultTypeId := None;
      defaultCode := None;
    }

    /** `_update_defaults`. */
    method UpdateDefaults(media: Obj) returns (o: Outcome)
      modifies this
      ensures (Stored(), o) == UpdateDefaultsSpec(old(Stored()), media)
    {
      var typeId := PyInt(Get(media, "TypeID"));
      if typeId.None? {
        return Fail(ParseError("Invalid permit media TypeID"));
      }
      defaultTypeId := typeId;
      var code := Get(media, "Code");
      if !code.JStr? {
        return Fail(ParseError("Invalid permit media Code"));
      }
      defaultCode := Some(code.s);
      return Pass;
    }

    /** `_update_defaults_from_response`. */
    method UpdateDefaultsFromResponse(data: Json) returns (o: Outcome)
      modifies this
      ensures (Stored(), o) == UpdateFromResponseSpec(old(Stored()), data)
    {
      var pm := ExtractPermitMedia(data);
      if pm.Err? {
        return Fail(pm.error);
      }
      o := UpdateDefaults(pm.value.1);
    }

    /** `_maybe_update_defaults_from_response`. */
    method MaybeUpdateDefaultsFromResponse(data: Json) returns (o: Outcome)
      modifies this
      ensures (Stored(), o) == MaybeUpdateSpec(old(Stored()), data)
    {
      if data.JNull? {
        return Pass;
      }
      if !data.JObj? {
        return Pass;
      }
      if "Permit" !in data.fields && "Permits" !in data.fields {
        return Pass;
      }
      o := UpdateDefaultsFromResponse(data);
    }

    /** A POST through the session, its status checked and its body decoded. */
    method Post(path: string, payload: Option<Json>) returns (r: Result<Json>)
      modifies auth, auth.transport
      ensures (auth.State(), r) == PostSpec(auth.config, old(auth.State()), path, payload)
    {
      var reply := auth.Request("POST", path, map[], payload, true);
      if reply.Err? {
        return Err(reply.error);
      }
      r := ReadJson(reply.value);
    }

    /** `_fetch_permit`. */
    method FetchPermit() returns (r: Result<(Obj, Obj)>)
      modifies this, auth, auth.transport
      ensures (auth.State(), Stored(), r) == FetchPermitSpec(auth.config, old(auth.State()), old(Stored()))
    {
      var data := Post("/login/getbase", None);
      if data.Err? {
        return Err(data.error);
      }
      var pm := ExtractPermitMedia(data.value);
      if pm.Err? {
        return Err(pm.error);
      }
      var o := UpdateDefaults(pm.value.1);
      if o.Fail? {
        return Err(o.error);
      }
      return Ok(pm.value);
    }

    /** The fetch of `_ensure_media_defaults` and its second update. */
    method Refresh() returns (o: Outcome)
      modifies this, auth, auth.transport
      ensures (auth.State(), Stored(), o) == RefreshSpec(auth.config, old(auth.State()), old(Stored()))
    {
      var p := FetchPermit();
      if p.Err? {
        return Fail(p.error);
      }
      o := UpdateDefaults(p.value.1);
    }

    /** `_ensure_media_defaults`. */
    method EnsureMediaDefaults(typeId: Option<int>, code: Option<string>) returns (r: Result<(int, string)>)
      modifies this, auth, auth.transport
      ensures (auth.State(), Stored(), r)
           == EnsureMediaDefaultsSpec(auth.config, old(auth.State()), old(Stored()), typeId, code)
    {
      if typeId.Some? && code.Some? {
        return Ok((typeId.value, code.value));
      }
      if defaultTypeId.None? || defaultCode.None? {
        var o := Refresh();
        if o.Fail? {
          return Err(o.error);
        }
      }
      r := FillIn(Stored(), typeId, code);
    }

    /** `async_get_account`. */
    method GetAccount() returns (r: Result<Account>)
      modifies this, auth, auth.transport
      ensures (auth.State(), Stored(), r) == GetAccountSpec(auth.config, old(auth.State()), old(Stored()))
    {
      var p := FetchPermit();
      if p.Err? {
        return Err(p.error);
      }
      r := AccountFrom(p.value.1);
    }

    /** `async_get_zone`; `now` is the clock's current instant at UTC. */
    method GetZone(now: DateTime) returns (r: Result<Option<Zone>>)
      requires Reading(now) && now.offset == Some(0)
      modifies this, auth, auth.transport
      ensures (auth.State(), Stored(), r) == GetZoneSpec(auth.config, old(auth.State()), old(Stored()), now)
    {
      var p := FetchPermit();
      if p.Err? {
        return Err(p.error);
      }
      r := ZoneFromMapping(p.value.0, now);
    }

    /** `async_list_reservations`. */
    method ListReservations() returns (r: Result<seq<Reservation>>)
      modifies this, auth, auth.transport
      ensures (auth.State(), Stored(), r) == ListReservationsSpec(auth.config, old(auth.State()), old(Stored()))
    {
      var p := FetchPermit();
      if p.Err? {
        return Err(p.error);
      }
      r := ReservationsOf(p.value.1);
    }

    /** `async_create_reservation`. */
    method CreateReservation(plate: string, plateName: Option<string>, from: Option<PyDateTime>,
                             until: Option<PyDateTime>, typeId: Option<int>, code: Option<string>, now: PyDateTime)
      returns (r: Result<Reservation>)
      modifies this, auth, auth.transport
      ensures (auth.State(), Stored(), r)
           == CreateReservationSpec(auth.config, old(auth.State()), old(Stored()), plate, plateName, from, until,
                                    typeId, code, now)
    {
      var media := EnsureMediaDefaults(typeId, code);
      if media.Err? {
        return Err(media.error);
      }
      var start := if from.Some? then from.value else now;
      var payload := CreatePayload(media.value.0, media.value.1, start, plate, plateName, until);
      var data := Post("/reservation/create", Some(JObj(payload)));
      if data.Err? {
        return Err(data.error);
      }
      r := PickReservation(data.value, plate, Some(start), until);
    }

    /** `async_end_reservation`. */
    method EndReservation(id: int, typeId: Option<int>, code: Option<string>) returns (o: Outcome)
      modifies this, auth, auth.transport
      ensures (auth.State(), Stored(), o)
           == EndReservationSpec(auth.config, old(auth.State()), old(Stored()), id, typeId, code)
    {
      var media := EnsureMediaDefaults(typeId, code);
      if media.Err? {
        return Fail(media.error);
      }
      var data := Post("/reservation/end", Some(JObj(EndPayload(id, media.value.0, media.value.1))));
      if data.Err? {
        return Fail(data.error);
      }
      o := UpdateDefaultsFromResponse(data.value);
    }

    /** `async_delete_reservation`: ending it with the stored defaults. */
    method DeleteReservation(id: int) returns (o: Outcome)
      modifies this, auth, auth.transport
      ensures (auth.State(), Stored(), o) == EndReservationSpec(auth.config, old(auth.State()), old(Stored()), id, None, None)
    {
      o := EndReservation(id, None, None);
    }

    /** `async_list_favorites`. */
    method ListFavorites() returns (r: Result<seq<Favorite>>)
      modifies this, auth, auth.transport
      ensures (auth.State(), Stored(), r) == ListFavoritesSpec(auth.config, old(auth.State()), old(Stored()))
    {
      var p := FetchPermit();
      if p.Err? {
        return Err(p.error);
      }
      r := FavoritesOf(p.value.1);
    }

    /** `_upsert_favorite`. */
    method UpsertFavorite(name: Option<string>, plate: string) returns (o: Outcome)
      modifies this, auth, auth.transport
      ensures (auth.State(), Stored(), o) == UpsertFavoriteSpec(auth.config, old(auth.State()), old(Stored()), name, plate)
    {
      var media := EnsureMediaDefaults(None, None);
      if media.Err? {
        return Fail(media.error);
      }
      var data := Post("/permitmedialicenseplate/upsert", Some(JObj(UpsertPayload(media.value.0, media.value.1, plate, name))));
      if data.Err? {
        return Fail(data.error);
      }
      o := MaybeUpdateDefaultsFromResponse(data.value);
    }

    /** `async_delete_favorite`. */
    method DeleteFavorite(name: Option<string>, plate: string) returns (o: Outcome)
      modifies this, auth, auth.transport
      ensures (auth.State(), Stored(), o) == DeleteFavoriteSpec(auth.config, old(auth.State()), old(Stored()), name, plate)
    {
      var media := EnsureMediaDefaults(None, None);
      if media.Err? {
        return Fail(media.error);
      }
      var data := Post("/permitmedialicenseplate/remove", Some(JObj(RemovePayload(media.value.0, media.value.1, plate, name))));
      if data.Err? {
        return Fail(data.error);
      }
      o := MaybeUpdateDefaultsFromResponse(data.value);
    }

    /** `async_create_favorite`. */
    method CreateFavorite(name: Option<string>, plate: string) returns (r: Result<Favorite>)
      modifies this, auth, auth.transport
      ensures (auth.State(), Stored(), r) == CreateFavoriteSpec(auth.config, old(auth.State()), old(Stored()), name, plate)
    {
      var o := UpsertFavorite(name, plate);
      if o.Fail? {
        return Err(o.error);
      }
      return Ok(Favorite(plate, name));
    }

    /** `async_update_favorite`: a for-break search for the plate, a remove
      when it was found, then the upsert. */
    method UpdateFavorite(name: Option<string>, plate: string) returns (r: Result<Favorite>)
      modifies this, auth, auth.transport
      ensures (auth.State(), Stored(), r) == UpdateFavoriteSpec(auth.config, old(auth.State()), old(Stored()), name, plate)
    {
      var listed := ListFavorites();
      if listed.Err? {
        return Err(listed.error);
      }
      var favs := listed.value;
      var found, i, existing := FindFavorite(favs, plate);
      if found {
        UpdateWithMatchRemovesFirst(auth.config, old(auth.State()), old(Stored()), name, plate, i);
        var o := DeleteFavorite(existing, plate);
        if o.Fail? {
          return Err(o.error);
        }
      } else {
        UpdateWithoutMatchCreates(auth.config, old(auth.State()), old(Stored()), name, plate);
      }
      r := CreateFavorite(name, plate);
    }
  }
}
