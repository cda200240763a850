/** The session manager: constructor validation, login, the lazily
    fetched permit media type, header merging and the request retry
    policy.

    The HTTP client is a scripted oracle: a `Transport` answers each call
    with the next entry of its script and records the call it was given.
    Every operation is first stated as a function over a `Session` value
    (the fields of `Auth` plus the transport's script and log); the methods
    of the `Auth` class are proved to compute exactly those functions. */
module Auth {
  import opened Errors
  import opened Json
  import opened Numerals

  const DefaultTimeout: real := 20.0

  /** `_get_user_agent` when the installed version is not known. */
  const UserAgent := "pyCityParkingPermit/0.0.0"

  // ---------------------------------------------------------------------
  // Transport

  datatype Response = Response(status: int, headers: map<string, string>, body: Body)

  /** One scripted answer: a response, or a timeout / client error. */
  datatype Exchange = Answer(response: Response) | Unreachable

  /** A header value; the Authorization value is `Token <base64 of token>`. */
  datatype HeaderValue = Text(text: string) | TokenCredential(token: string)

  type Headers = map<string, HeaderValue>

  datatype Call =
    | SessionRequest(verb: string, url: string, headers: Headers, payload: Option<Json>)
    | SessionGet(url: string, headers: Headers)
    | SessionPost(url: string, headers: Headers, credentials: Json)

  /** The connection-error texts of a request and of the two login calls. */
  const RequestLost := "Request failed"
  const LoginLost := "Login request failed"

  function LostText(call: Call): string {
    if call.SessionRequest? then RequestLost else LoginLost
  }

  /** The answer to the next call; an exhausted script fails like a lost
      connection, with the text the calling method raises. */
  function Reply(script: seq<Exchange>, lost: string): Result<Response> {
    if script == [] || script[0].Unreachable? then Err(ConnectionError(lost)) else Ok(script[0].response)
  }

  function Rest(script: seq<Exchange>): seq<Exchange> {
    if script == [] then [] else script[1..]
  }

  /** The HTTP client session shared with the caller. */
  class Transport {
    var script: seq<Exchange>
    var sent: seq<Call>

    constructor (script: seq<Exchange>)
      ensures this.script == script && sent == []
    {
      this.script := script;
      sent := [];
    }

    method Send(call: Call) returns (r: Result<Response>)
      modifies this
      ensures r == Reply(old(script), LostText(call)) && script == Rest(old(script)) && sent == old(sent) + [call]
    {
      r := Reply(script, LostText(call));
      script := Rest(script);
      sent := sent + [call];
    }
  }

  function Requests(cs: seq<Call>): nat {
    if cs == [] then 0 else Requests(cs[..|cs| - 1]) + (if cs[|cs| - 1].SessionRequest? then 1 else 0)
  }

  function Posts(cs: seq<Call>): nat {
    if cs == [] then 0 else Posts(cs[..|cs| - 1]) + (if cs[|cs| - 1].SessionPost? then 1 else 0)
  }

  function Gets(cs: seq<Call>): nat {
    if cs == [] then 0 else Gets(cs[..|cs| - 1]) + (if cs[|cs| - 1].SessionGet? then 1 else 0)
  }

  lemma CountSnoc(cs: seq<Call>, c: Call)
    ensures Requests(cs + [c]) == Requests(cs) + (if c.SessionRequest? then 1 else 0)
    ensures Posts(cs + [c]) == Posts(cs) + (if c.SessionPost? then 1 else 0)
    ensures Gets(cs + [c]) == Gets(cs) + (if c.SessionGet? then 1 else 0)
  {
    assert (cs + [c])[..|cs|] == cs;
  }

  // ---------------------------------------------------------------------
  // Constructor validation

  datatype Config = Config(identifier: string, password: string, baseUrl: string, timeout: real)

  /** The keyword arguments given: the two known ones and the names of any others. */
  datatype Kwargs = Kwargs(timeout: Option<real>, permitMediaTypeId: Option<int>, unexpected: set<string>)

  /** `not s or not s.strip()`. */
  predicate Blank(s: string) {
    Strip(s) == []
  }

  /** `s.rstrip("/")`. */
  function StripTrailingSlashes(s: string): (r: string)
    ensures r <= s
    ensures r == [] || r[|r| - 1] != '/'
    ensures forall i :: |r| <= i < |s| ==> s[i] == '/'
  {
    if s != [] && s[|s| - 1] == '/' then StripTrailingSlashes(s[..|s| - 1]) else s
  }

  function TimeoutOf(kw: Kwargs): real {
    if kw.timeout.Some? then kw.timeout.value else DefaultTimeout
  }

  /** `Auth.__init__` up to the assignments: the configuration and the
      initial permit media type id, or the first failing check. */
  function Configure(username: string, password: string, baseUrl: string, kw: Kwargs): (r: Result<(Config, Option<int>)>)
    ensures r.Ok? <==>
      kw.unexpected == {} && !Blank(username) && !Blank(password) && !Blank(baseUrl) && TimeoutOf(kw) > 0.0
    ensures kw.unexpected != {} ==> r == Err(TypeError("Unexpected keyword arguments"))
    ensures kw.unexpected == {} && Blank(username) ==> r == Err(ValueError("username must be a non-empty string"))
    ensures kw.unexpected == {} && !Blank(username) && Blank(password) ==>
      r == Err(ValueError("password must be a non-empty string"))
    ensures kw.unexpected == {} && !Blank(username) && !Blank(password) && Blank(baseUrl) ==>
      r == Err(ValueError("base_url must be a non-empty string"))
    ensures kw.unexpected == {} && !Blank(username) && !Blank(password) && !Blank(baseUrl) && TimeoutOf(kw) <= 0.0 ==>
      r == Err(ValueError("timeout must be greater than zero"))
    ensures r.Err? ==> r.error.TypeError? || r.error.ValueError?
    ensures r.Ok? ==>
      r.value.0.identifier == username && r.value.0.password == password
      && r.value.0.baseUrl == StripTrailingSlashes(baseUrl) && r.value.0.timeout == TimeoutOf(kw)
      && r.value.1 == kw.permitMediaTypeId
  {
    if kw.unexpected != {} then Err(TypeError("Unexpected keyword arguments"))
    else if Blank(username) then Err(ValueError("username must be a non-empty string"))
    else if Blank(password) then Err(ValueError("password must be a non-empty string"))
    else if Blank(baseUrl) then Err(ValueError("base_url must be a non-empty string"))
    else if TimeoutOf(kw) <= 0.0 then Err(ValueError("timeout must be greater than zero"))
    else Ok((Config(username, password, StripTrailingSlashes(baseUrl), TimeoutOf(kw)), kw.permitMediaTypeId))
  }

  /** Without a timeout argument the default of 20 seconds is used, and
      trailing slashes never reach the stored base URL. */
  lemma ConfigureDefaults(username: string, password: string, baseUrl: string)
    requires !Blank(username) && !Blank(password) && !Blank(baseUrl)
    ensures var r := Configure(username, password, baseUrl, Kwargs(None, None, {}));
      r.Ok? && r.value.0.timeout == 20.0 && r.value.1 == None
      && (r.value.0.baseUrl == [] || r.value.0.baseUrl[|r.value.0.baseUrl| - 1] != '/')
  {
  }

  // ---------------------------------------------------------------------
  // Headers

  /** `_build_default_headers`: JSON is asked for and the library names
      itself. */
  function DefaultHeaders(): Headers {
    map["accept" := Text("application/json"), "user-agent" := Text(UserAgent)]
  }

  lemma DefaultHeadersContents()
    ensures DefaultHeaders().Keys == {"accept", "user-agent"}
    ensures DefaultHeaders()["accept"] == Text("application/json")
    ensures DefaultHeaders()["user-agent"] == Text(UserAgent)
  {
  }

  /** `_build_authorization_header`. */
  function AuthorizationHeader(token: Option<string>): (r: Result<Headers>)
    ensures r.Err? <==> token.None?
  {
    if token.None? then Err(AuthError("Authentication token missing"))
    else Ok(map["Authorization" := TokenCredential(token.value)])
  }

  function TextHeaders(extra: map<string, string>): Headers {
    map k | k in extra :: Text(extra[k])
  }

  /** `_merge_headers`: the defaults, the Authorization header when auth is
      required, and the caller's headers on top. */
  function Merged(token: Option<string>, extra: map<string, string>, authRequired: bool): (r: Result<Headers>)
    ensures r.Err? <==> authRequired && token.None?
    ensures r.Err? ==> r.error == AuthError("Authentication token missing")
  {
    var base := DefaultHeaders();
    var withAuth :- WithAuthorization(base, token, authRequired);
    Ok(if |extra| > 0 then withAuth + TextHeaders(extra) else withAuth)
  }

  /** The merged headers always name accept and user-agent, name
      Authorization exactly when auth is required (or the caller sets it),
      and the caller's own headers win over every default. */
  lemma MergedContents(token: Option<string>, extra: map<string, string>, authRequired: bool)
    requires Merged(token, extra, authRequired).Ok?
    ensures var h := Merged(token, extra, authRequired).value;
      forall k :: k in h <==>
        k == "accept" || k == "user-agent" || (authRequired && k == "Authorization") || k in extra
    ensures var h := Merged(token, extra, authRequired).value;
      forall k :: k in extra ==> h[k] == Text(extra[k])
    ensures var h := Merged(token, extra, authRequired).value;
      "accept" !in extra ==> h["accept"] == Text("application/json")
    ensures var h := Merged(token, extra, authRequired).value;
      "user-agent" !in extra ==> h["user-agent"] == Text(UserAgent)
    ensures var h := Merged(token, extra, authRequired).value;
      authRequired && "Authorization" !in extra ==> h["Authorization"] == TokenCredential(token.value)
  {
    var base := DefaultHeaders();
    var withAuth := WithAuthorization(base, token, authRequired).value;
    assert forall k :: k in withAuth <==> k == "accept" || k == "user-agent" || (authRequired && k == "Authorization");
    if |extra| == 0 {
      assert extra == map[];
    }
  }

  function WithAuthorization(base: Headers, token: Option<string>, authRequired: bool): Result<Headers> {
    if authRequired then
      var a :- AuthorizationHeader(token);
      Ok(base + a)
    else Ok(base)
  }

  // ---------------------------------------------------------------------
  // Classifying responses

  /** `_parse_retry_after`. */
  function RetryAfter(headers: map<string, string>): Option<int> {
    if "Retry-After" !in headers then None
    else ParseInt(headers["Retry-After"])
  }

  /** A header is read as `int()` reads it: plain digits, surrounded by
      whitespace or not, give their value, and text that is neither
      grouped digits nor a sign followed by them gives None. */
  lemma RetryAfterMeaning(headers: map<string, string>)
    ensures RetryAfter(headers).Some? ==> "Retry-After" in headers
    ensures "Retry-After" in headers ==>
      var t := Strip(headers["Retry-After"]);
      (t != [] && AllDigits(t) ==> RetryAfter(headers) == Some(DigitsValue(t)))
      && (!WellGrouped(t) && !(|t| > 1 && (t[0] == '+' || t[0] == '-')) ==> RetryAfter(headers).None?)
  {
  }

  lemma RetryAfterNumber(n: int)
    ensures RetryAfter(map["Retry-After" := IntToString(n)]) == Some(n)
    ensures RetryAfter(map[]) == None
  {
    IntRoundTrip(n);
  }

  lemma RetryAfterText(text: string)
    requires text == "soon"
    ensures RetryAfter(map["Retry-After" := text]) == None
  {
    assert !IsSpace('s') && !IsSpace('n') && Strip(text) == text;
    assert !WellGrouped(text) by {
      assert !IsDigit(text[0]);
    }
  }

  /** `str(value)` for the scalar values JSON can hold; lists and objects
      are given a fixed text. */
  function PyStr(j: Json): (r: string)
    ensures j.JStr? ==> r == j.s
    ensures j.JInt? ==> ParseInt(r) == Some(j.i)
    ensures j.JBool? ==> r == (if j.b then "True" else "False")
    ensures j.JNull? ==> r == "None"
  {
    match j
    case JStr(s) => s
    case JInt(n) => IntRoundTrip(n); IntToString(n)
    case JBool(b) => if b then "True" else "False"
    case JNull => "None"
    case _ => "<container>"
  }

  const Rejected := AuthError("Authentication failed")
  const NotJson := AuthError("Response body is not valid JSON")

  /** `data.get("ErrorMessage", "Unknown authentication error")`, as text. */
  function LoginMessage(data: Obj): (r: string)
    ensures "ErrorMessage" !in data ==> r == "Unknown authentication error"
    ensures "ErrorMessage" in data && data["ErrorMessage"].JStr? ==> r == data["ErrorMessage"].s
    ensures "ErrorMessage" in data && data["ErrorMessage"].JInt? ==> ParseInt(r) == Some(data["ErrorMessage"].i)
  {
    if "ErrorMessage" in data then PyStr(data["ErrorMessage"]) else "Unknown authentication error"
  }

  /** The token a login response carries, or why it carries none
      (`_login` after the POST). */
  function LoginToken(resp: Response): (r: Result<string>)
    ensures resp.status == 429 ==> r == Err(RateLimitError(RetryAfter(resp.headers)))
    ensures resp.status >= 400 && resp.status != 429 ==> r == Err(Rejected)
    ensures r.Ok? <==>
      resp.status < 400 && resp.body.Decoded? && resp.body.doc.JObj?
      && Get(resp.body.doc.fields, "LoginStatus") != JInt(2)
      && Truthy(Get(resp.body.doc.fields, "Token"))
    ensures r.Ok? ==> r.value == PyStr(Get(resp.body.doc.fields, "Token"))
    ensures resp.status < 400 && resp.body.InvalidJson? ==> r == Err(NotJson)
    ensures (resp.status < 400 && resp.body.Decoded? && resp.body.doc.JObj?
             && Get(resp.body.doc.fields, "LoginStatus") == JInt(2)) ==>
      r == Err(AuthError("Authentication failed: " + LoginMessage(resp.body.doc.fields)))
    ensures r.Err? ==> r.error.AuthError? || r.error.RateLimitError?
  {
    if resp.status == 429 then Err(RateLimitError(RetryAfter(resp.headers)))
    else if resp.status == 401 || resp.status == 403 then Err(Rejected)
    else if resp.status >= 400 then Err(Rejected)
    else
      var data :- AsyncJson(resp.body, NotJson);
      if !data.JObj? then Err(Rejected)
      else if Get(data.fields, "LoginStatus") == JInt(2) then
        Err(AuthError("Authentication failed: " + LoginMessage(data.fields)))
      else
        var token := Get(data.fields, "Token");
        if !Truthy(token) then Err(Rejected) else Ok(PyStr(token))
  }

  predicate AllObjects(items: seq<Json>) {
    forall i :: 0 <= i < |items| ==> items[i].JObj?
  }

  /** `int(type_id)` for an ID that must be an int (a bool is one) or a str. */
  function TypeIdValue(id: Json): (r: Result<int>)
    ensures r.Ok? <==> (id.JInt? || id.JBool? || id.JStr?) && PyInt(id).Some?
    ensures r.Ok? ==> r.value == PyInt(id).value
    ensures r.Err? ==> r.error == AuthError("Invalid permit media type ID")
  {
    if id.JNull? then Err(AuthError("Invalid permit media type ID"))
    else if !(id.JInt? || id.JBool? || id.JStr?) then Err(AuthError("Invalid permit media type ID"))
    else match PyInt(id)
      case None => Err(AuthError("Invalid permit media type ID"))
      case Some(n) => Ok(n)
  }

  /** A login-types document the client accepts. */
  predicate UsableTypes(doc: Json) {
    doc.JObj? && Get(doc.fields, "PermitMediaTypes").JList?
    && Get(doc.fields, "PermitMediaTypes").items != []
    && AllObjects(Get(doc.fields, "PermitMediaTypes").items)
    && TypeIdValue(Get(Get(doc.fields, "PermitMediaTypes").items[0].fields, "ID")).Ok?
  }

  function FirstTypeId(doc: Json): Json
    requires doc.JObj? && Get(doc.fields, "PermitMediaTypes").JList?
    requires Get(doc.fields, "PermitMediaTypes").items != []
    requires Get(doc.fields, "PermitMediaTypes").items[0].JObj?
  {
    Get(Get(doc.fields, "PermitMediaTypes").items[0].fields, "ID")
  }

  /** The checks of `_fetch_default_type_id` on the GET response, in order. */
  function TypeIdOf(resp: Response): (r: Result<int>)
    ensures resp.status == 429 ==> r == Err(RateLimitError(RetryAfter(resp.headers)))
    ensures resp.status >= 400 && resp.status != 429 ==> r == Err(Rejected)
    ensures r.Ok? <==> resp.status < 400 && resp.body.Decoded? && UsableTypes(resp.body.doc)
    ensures r.Ok? ==> r.value == PyInt(FirstTypeId(resp.body.doc)).value
    ensures r.Err? ==> r.error.AuthError? || r.error.RateLimitError?
  {
    if resp.status == 429 then Err(RateLimitError(RetryAfter(resp.headers)))
    else if resp.status >= 400 then Err(Rejected)
    else
      var data :- AsyncJson(resp.body, NotJson);
      var m :- EnsureMapping(data, AuthError("Expected login object"));
      var raw :- EnsureList(Get(m, "PermitMediaTypes"), AuthError("Expected PermitMediaTypes list"));
      if raw == [] then Err(AuthError("No permit media types available"))
      else if !AllObjects(raw) then Err(AuthError("Invalid permit media type entry"))
      else TypeIdValue(Get(raw[0].fields, "ID"))
  }

  /** The body of the login POST: the identifier, the fixed login method
      "Pas", the password and the type id, null when none is known. */
  function LoginPayload(cfg: Config, typeId: Option<int>): Json {
    JObj(map[
      "identifier" := JStr(cfg.identifier),
      "loginMethod" := JStr("Pas"),
      "password" := JStr(cfg.password),
      "permitMediaTypeID" := if typeId.Some? then JInt(typeId.value) else JNull])
  }

  lemma LoginPayloadFields(cfg: Config, typeId: Option<int>)
    ensures var p := LoginPayload(cfg, typeId);
      p.JObj? && p.fields.Keys == {"identifier", "loginMethod", "password", "permitMediaTypeID"}
      && p.fields["identifier"] == JStr(cfg.identifier) && p.fields["password"] == JStr(cfg.password)
      && p.fields["loginMethod"] == JStr("Pas")
      && p.fields["permitMediaTypeID"] == if typeId.Some? then JInt(typeId.value) else JNull
  {
  }


  // ---------------------------------------------------------------------
  // Session state and its transitions

  datatype Session = Session(
    token: Option<string>, authenticated: bool, typeId: Option<int>,
    script: seq<Exchange>, sent: seq<Call>)

  /** Authenticated exactly when a token is held, and never without a
      permit media type id. */
  predicate Inv(st: Session) {
    (st.authenticated <==> st.token.Some?) && (st.authenticated ==> st.typeId.Some?)
  }

  /** The GET a missing type id still costs. */
  function GetBudget(st: Session): nat {
    if st.typeId.None? then 1 else 0
  }

  /** One call of the transport. */
  function Transmit(st: Session, call: Call): (r: (Session, Result<Response>))
    ensures r.0.token == st.token && r.0.authenticated == st.authenticated && r.0.typeId == st.typeId
    ensures r.0.sent == st.sent + [call]
    ensures Requests(r.0.sent) == Requests(st.sent) + (if call.SessionRequest? then 1 else 0)
    ensures Posts(r.0.sent) == Posts(st.sent) + (if call.SessionPost? then 1 else 0)
    ensures Gets(r.0.sent) == Gets(st.sent) + (if call.SessionGet? then 1 else 0)
  {
    CountSnoc(st.sent, call);
    (st.(script := Rest(st.script), sent := st.sent + [call]), Reply(st.script, LostText(call)))
  }

  /** `_invalidate_session`. */
  function Invalidated(st: Session): (r: Session)
    ensures !r.authenticated && r.token.None?
    ensures r.typeId == st.typeId && r.script == st.script && r.sent == st.sent
    ensures Inv(r)
  {
    st.(authenticated := false, token := None)
  }

  lemma InvalidateIdempotent(st: Session)
    ensures Invalidated(Invalidated(st)) == Invalidated(st)
  {
  }

  /** `_fetch_default_type_id`. */
  function FetchTypeIdSpec(cfg: Config, st: Session): (r: (Session, Outcome))
    ensures r.0.token == st.token && r.0.authenticated == st.authenticated
    ensures r.0.sent == st.sent + [SessionGet(cfg.baseUrl + "/login", DefaultHeaders())]
    ensures Requests(r.0.sent) == Requests(st.sent) && Posts(r.0.sent) == Posts(st.sent)
    ensures Gets(r.0.sent) == Gets(st.sent) + 1
    ensures r.1.Pass? <==> Reply(st.script, LoginLost).Ok? && TypeIdOf(Reply(st.script, LoginLost).value).Ok?
    ensures r.1.Pass? ==> r.0.typeId == Some(TypeIdOf(Reply(st.script, LoginLost).value).value)
    ensures r.1.Fail? ==> r.0.typeId == st.typeId
    ensures Reply(st.script, LoginLost).Err? ==> r.1 == Fail(ConnectionError("Login request failed"))
  {
    var (st1, reply) := Transmit(st, SessionGet(cfg.baseUrl + "/login", DefaultHeaders()));
    match reply
    case Err(e) => (st1, Fail(e))
    case Ok(resp) =>
      match TypeIdOf(resp)
      case Err(e) => (st1, Fail(e))
      case Ok(id) => (st1.(typeId := Some(id)), Pass)
  }

  /** The start of `_login`: the type id is fetched only when missing. */
  function FetchIfMissing(cfg: Config, st: Session): (r: (Session, Outcome))
    ensures st.typeId.None? ==> r == FetchTypeIdSpec(cfg, st)
    ensures st.typeId.Some? ==> r == (st, Pass)
    ensures r.0.token == st.token && r.0.authenticated == st.authenticated
    ensures r.1.Pass? ==> r.0.typeId.Some?
    ensures r.1.Fail? ==> r.0.typeId == st.typeId
    ensures st.sent <= r.0.sent
    ensures Requests(r.0.sent) == Requests(st.sent) && Posts(r.0.sent) == Posts(st.sent)
    ensures Gets(r.0.sent) == Gets(st.sent) + GetBudget(st)
  {
    if st.typeId.None? then FetchTypeIdSpec(cfg, st) else (st, Pass)
  }

  /** The login POST of `_login` and the token it keeps on success. */
  function LoginExchange(cfg: Config, st: Session): (r: (Session, Outcome))
    ensures r.0.sent == st.sent + [SessionPost(cfg.baseUrl + "/login", DefaultHeaders(), LoginPayload(cfg, st.typeId))]
    ensures r.1.Pass? <==> Reply(st.script, LoginLost).Ok? && LoginToken(Reply(st.script, LoginLost).value).Ok?
    ensures r.1.Pass? ==> r.0.token == Some(LoginToken(Reply(st.script, LoginLost).value).value) && r.0.authenticated
    ensures r.1.Fail? ==> r.0.token == st.token && r.0.authenticated == st.authenticated
    ensures Reply(st.script, LoginLost).Err? ==> r.1 == Fail(ConnectionError("Login request failed"))
    ensures r.0.typeId == st.typeId
    ensures Requests(r.0.sent) == Requests(st.sent) && Posts(r.0.sent) == Posts(st.sent) + 1
    ensures Gets(r.0.sent) == Gets(st.sent)
  {
    var (st1, reply) := Transmit(st, SessionPost(cfg.baseUrl + "/login", DefaultHeaders(), LoginPayload(cfg, st.typeId)));
    match reply
    case Err(e) => (st1, Fail(e))
    case Ok(resp) =>
      match LoginToken(resp)
      case Err(e) => (st1, Fail(e))
      case Ok(token) => (st1.(token := Some(token), authenticated := true), Pass)
  }

  /** `_login`: fetch the type id if missing, POST the credentials, keep
      the token only on success. */
  function LoginSpec(cfg: Config, st: Session): (r: (Session, Outcome))
    ensures var f := FetchIfMissing(cfg, st);
      f.1.Fail? ==> r == f
    ensures var f := FetchIfMissing(cfg, st);
      f.1.Pass? ==> r.0.sent == f.0.sent + [SessionPost(cfg.baseUrl + "/login", DefaultHeaders(), LoginPayload(cfg, f.0.typeId))]
    ensures var f := FetchIfMissing(cfg, st);
      r.1.Pass? <==> f.1.Pass? && Reply(f.0.script, LoginLost).Ok? && LoginToken(Reply(f.0.script, LoginLost).value).Ok?
    ensures var f := FetchIfMissing(cfg, st);
      r.1.Pass? ==> r.0.token == Some(LoginToken(Reply(f.0.script, LoginLost).value).value)
    ensures Inv(st) ==> Inv(r.0)
    ensures r.1.Pass? ==> r.0.authenticated && r.0.token.Some? && r.0.typeId.Some?
    ensures r.1.Fail? ==> r.0.token == st.token && r.0.authenticated == st.authenticated
    ensures st.typeId.Some? ==> r.0.typeId == st.typeId
    ensures st.sent <= r.0.sent
    ensures Requests(r.0.sent) == Requests(st.sent) && Posts(r.0.sent) <= Posts(st.sent) + 1
    ensures Gets(r.0.sent) <= Gets(st.sent) + GetBudget(st)
    ensures r.1.Pass? ==> Gets(r.0.sent) + GetBudget(r.0) <= Gets(st.sent) + GetBudget(st)
  {
    var f := FetchIfMissing(cfg, st);
    if f.1.Fail? then f else LoginExchange(cfg, f.0)
  }

  /** `_ensure_logged_in`; the second look at the flag under the lock sees
      the same value when calls do not interleave. */
  function EnsureLoggedInSpec(cfg: Config, st: Session): (r: (Session, Outcome))
    ensures Inv(st) ==> Inv(r.0)
    ensures r.1.Pass? ==> r.0.authenticated
    ensures st.authenticated ==> r == (st, Pass)
    ensures r.1.Fail? ==> r.0.token == st.token && r.0.authenticated == st.authenticated
    ensures st.typeId.Some? ==> r.0.typeId == st.typeId
    ensures st.sent <= r.0.sent
    ensures Requests(r.0.sent) == Requests(st.sent) && Posts(r.0.sent) <= Posts(st.sent) + 1
    ensures Gets(r.0.sent) <= Gets(st.sent) + GetBudget(st)
    ensures r.1.Pass? ==> Gets(r.0.sent) + GetBudget(r.0) <= Gets(st.sent) + GetBudget(st)
  {
    if st.authenticated then (st, Pass) else LoginSpec(cfg, st)
  }

  /** How `request` reads a status: 429 first, then 401/403, but only
      for a call that needed authentication. */
  datatype Verdict = Deliver | Limited(retryAfter: Option<int>) | SessionRejected

  function Classify(resp: Response, authRequired: bool): (v: Verdict)
    ensures v.Limited? <==> resp.status == 429
    ensures v.Limited? ==> v.retryAfter == RetryAfter(resp.headers)
    ensures v.SessionRejected? <==> authRequired && (resp.status == 401 || resp.status == 403)
  {
    if resp.status == 429 then Limited(RetryAfter(resp.headers))
    else if authRequired && (resp.status == 401 || resp.status == 403) then SessionRejected
    else Deliver
  }

  /** The second pass of the loop of `request`: a rejection is final. */
  function FinalAttempt(st: Session, verb: string, url: string, headers: Headers,
                        payload: Option<Json>, authRequired: bool): (r: (Session, Result<Response>))
    ensures Inv(st) ==> Inv(r.0)
    ensures r.0.sent == st.sent + [SessionRequest(verb, url, headers, payload)]
    ensures Requests(r.0.sent) == Requests(st.sent) + 1
    ensures Posts(r.0.sent) == Posts(st.sent) && Gets(r.0.sent) == Gets(st.sent)
    ensures r.1.Ok? <==> Reply(st.script, RequestLost).Ok? && Classify(Reply(st.script, RequestLost).value, authRequired).Deliver?
    ensures r.1.Ok? ==> r.1 == Reply(st.script, RequestLost)
    ensures Reply(st.script, RequestLost).Err? ==> r.1 == Err(ConnectionError("Request failed"))
  {
    var (st1, reply) := Transmit(st, SessionRequest(verb, url, headers, payload));
    match reply
    case Err(e) => (st1, Err(e))
    case Ok(resp) =>
      match Classify(resp, authRequired)
      case Deliver => (st1, Ok(resp))
      case Limited(wait) => (st1, Err(RateLimitError(wait)))
      case SessionRejected => (Invalidated(st1), Err(Rejected))
  }

  /** The first pass of the loop of `request`: a rejection invalidates the
      session, logs in again and makes the final attempt. */
  function FirstAttempt(cfg: Config, st: Session, verb: string, url: string, extra: map<string, string>,
                        payload: Option<Json>, authRequired: bool, headers: Headers): (r: (Session, Result<Response>))
    ensures Inv(st) ==> Inv(r.0)
    ensures st.sent <= r.0.sent
    ensures Requests(r.0.sent) <= Requests(st.sent) + 2
    ensures Posts(r.0.sent) <= Posts(st.sent) + 1
    ensures Gets(r.0.sent) <= Gets(st.sent) + GetBudget(st)
    ensures Reply(st.script, RequestLost).Err? ==>
      r == (Transmit(st, SessionRequest(verb, url, headers, payload)).0, Err(ConnectionError("Request failed")))
  {
    var (st1, reply) := Transmit(st, SessionRequest(verb, url, headers, payload));
    if reply.Err? then (st1, Err(reply.error))
    else Answered(cfg, st1, reply.value, verb, url, extra, payload, authRequired)
  }

  /** What the first pass does with the answer it got. */
  function Answered(cfg: Config, st: Session, resp: Response, verb: string, url: string, extra: map<string, string>,
                    payload: Option<Json>, authRequired: bool): (r: (Session, Result<Response>))
    ensures Inv(st) ==> Inv(r.0)
    ensures st.sent <= r.0.sent
    ensures Requests(r.0.sent) <= Requests(st.sent) + 1
    ensures Posts(r.0.sent) <= Posts(st.sent) + 1
    ensures Gets(r.0.sent) <= Gets(st.sent) + GetBudget(st)
  {
    match Classify(resp, authRequired)
    case Deliver => (st, Ok(resp))
    case Limited(wait) => (st, Err(RateLimitError(wait)))
    case SessionRejected => Reauthenticate(cfg, Invalidated(st), verb, url, extra, payload, authRequired)
  }

  /** After a first rejection: log in again, rebuild the headers and make
      the final attempt. */
  function Reauthenticate(cfg: Config, st: Session, verb: string, url: string, extra: map<string, string>,
                          payload: Option<Json>, authRequired: bool): (r: (Session, Result<Response>))
    ensures Inv(st) ==> Inv(r.0)
    ensures st.sent <= r.0.sent
    ensures Requests(r.0.sent) <= Requests(st.sent) + 1
    ensures Posts(r.0.sent) <= Posts(st.sent) + 1
    ensures Gets(r.0.sent) <= Gets(st.sent) + GetBudget(st)
  {
    var (st1, o) := EnsureLoggedInSpec(cfg, st);
    if o.Fail? then (st1, Err(o.error))
    else
      match Merged(st1.token, extra, authRequired)
      case Err(e) => (st1, Err(e))
      case Ok(h) => FinalAttempt(st1, verb, url, h, payload, authRequired)
  }

  /** `request`: log in if needed, send, and retry once after a rejected
      session. At most two requests, two logins and one type lookup. */
  function RequestSpec(cfg: Config, st: Session, verb: string, path: string, extra: map<string, string>,
                       payload: Option<Json>, authRequired: bool): (r: (Session, Result<Response>))
    ensures Inv(st) ==> Inv(r.0)
    ensures st.sent <= r.0.sent
    ensures Requests(r.0.sent) <= Requests(st.sent) + 2
    ensures Posts(r.0.sent) <= Posts(st.sent) + 2
    ensures Gets(r.0.sent) <= Gets(st.sent) + 1
  {
    var (st1, o) := if authRequired then EnsureLoggedInSpec(cfg, st) else (st, Pass);
    if o.Fail? then (st1, Err(o.error))
    else Dispatch(cfg, st1, verb, cfg.baseUrl + path, extra, payload, authRequired)
  }

  /** Once logged in: merge the headers and enter the loop. */
  function Dispatch(cfg: Config, st: Session, verb: string, url: string, extra: map<string, string>,
                    payload: Option<Json>, authRequired: bool): (r: (Session, Result<Response>))
    ensures Inv(st) ==> Inv(r.0)
    ensures st.sent <= r.0.sent
    ensures Requests(r.0.sent) <= Requests(st.sent) + 2
    ensures Posts(r.0.sent) <= Posts(st.sent) + 1
    ensures Gets(r.0.sent) <= Gets(st.sent) + GetBudget(st)
  {
    match Merged(st.token, extra, authRequired)
    case Err(e) => (st, Err(e))
    case Ok(h) => FirstAttempt(cfg, st, verb, url, extra, payload, authRequired, h)
  }

  // ---------------------------------------------------------------------
  // The policy, property by property

  /** 429 is answered with RateLimitError before anything else is looked
      at, whether or not the call needs authentication. */
  lemma RateLimitFirst(cfg: Config, st: Session, verb: string, url: string, extra: map<string, string>,
                       payload: Option<Json>, authRequired: bool, headers: Headers)
    requires Reply(st.script, RequestLost).Ok? && Reply(st.script, RequestLost).value.status == 429
    ensures FirstAttempt(cfg, st, verb, url, extra, payload, authRequired, headers).1
         == Err(RateLimitError(RetryAfter(Reply(st.script, RequestLost).value.headers)))
    ensures FinalAttempt(st, verb, url, headers, payload, authRequired).1
         == Err(RateLimitError(RetryAfter(Reply(st.script, RequestLost).value.headers)))
  {
  }

  /** Any status other than 429, and 401/403 when no authentication was
      asked for, is handed back unchanged. */
  lemma OtherStatusPassesThrough(cfg: Config, st: Session, verb: string, url: string, extra: map<string, string>,
                                 payload: Option<Json>, authRequired: bool, headers: Headers)
    requires Reply(st.script, RequestLost).Ok?
    requires var s := Reply(st.script, RequestLost).value.status; s != 429 && !(authRequired && (s == 401 || s == 403))
    ensures FirstAttempt(cfg, st, verb, url, extra, payload, authRequired, headers).1 == Reply(st.script, RequestLost)
  {
  }

  /** A rejection on the second attempt invalidates the session and
      raises AuthError. */
  lemma SecondRejectionFails(st: Session, verb: string, url: string, payload: Option<Json>, headers: Headers)
    requires Reply(st.script, RequestLost).Ok? && Reply(st.script, RequestLost).value.status in {401, 403}
    ensures var r := FinalAttempt(st, verb, url, headers, payload, true);
      r.1 == Err(Rejected) && !r.0.authenticated && r.0.token.None?
  {
  }

  /** An authenticated session sends the request itself first: no login. */
  lemma NoLoginWhenAuthenticated(cfg: Config, st: Session, verb: string, path: string, extra: map<string, string>,
                                 payload: Option<Json>, authRequired: bool)
    requires Inv(st) && st.authenticated
    ensures var r := RequestSpec(cfg, st, verb, path, extra, payload, authRequired);
      |st.sent| < |r.0.sent| && r.0.sent[|st.sent|].SessionRequest?
  {
    var h := Merged(st.token, extra, authRequired).value;
    assert RequestSpec(cfg, st, verb, path, extra, payload, authRequired)
        == FirstAttempt(cfg, st, verb, cfg.baseUrl + path, extra, payload, authRequired, h);
    FirstAttemptSendsFirst(cfg, st, verb, cfg.baseUrl + path, extra, payload, authRequired, h);
  }

  /** Whatever follows, the first call of the loop is the request itself. */
  lemma FirstAttemptSendsFirst(cfg: Config, st: Session, verb: string, url: string, extra: map<string, string>,
                               payload: Option<Json>, authRequired: bool, headers: Headers)
    ensures var r := FirstAttempt(cfg, st, verb, url, extra, payload, authRequired, headers);
      |st.sent| < |r.0.sent| && r.0.sent[|st.sent|] == SessionRequest(verb, url, headers, payload)
  {
    var first := SessionRequest(verb, url, headers, payload);
    var st1 := Transmit(st, first).0;
    assert st1.sent[|st.sent|] == first;
    assert st1.sent <= FirstAttempt(cfg, st, verb, url, extra, payload, authRequired, headers).0.sent;
  }

  function LoginAccepted(token: string): Response {
    Response(200, map[], Decoded(JObj(map["Token" := JStr(token)])))
  }

  function LoginPost(cfg: Config, typeId: Option<int>): Call {
    SessionPost(cfg.baseUrl + "/login", DefaultHeaders(), LoginPayload(cfg, typeId))
  }

  /** A login with a known type id and an accepted answer keeps the token. */
  lemma LoginAcceptedStep(cfg: Config, st: Session, t: string)
    requires !st.authenticated && st.typeId.Some? && t != []
    requires st.script != [] && st.script[0] == Answer(LoginAccepted(t))
    ensures EnsureLoggedInSpec(cfg, st)
         == (Session(Some(t), true, st.typeId, st.script[1..], st.sent + [LoginPost(cfg, st.typeId)]), Pass)
  {
    assert LoginToken(LoginAccepted(t)) == Ok(t);
  }

  /** A rejected first attempt followed by an accepted login and an answer
      that is not rejected delivers that answer. */
  lemma RejectedThenAccepted(cfg: Config, st: Session, t: string, rejectStatus: int, ok: Response,
                             verb: string, url: string, h: Headers)
    requires st.typeId.Some? && t != [] && rejectStatus in {401, 403}
    requires ok.status != 429 && ok.status != 401 && ok.status != 403
    requires |st.script| >= 3 && st.script[0] == Answer(Response(rejectStatus, map[], EmptyBody))
    requires st.script[1] == Answer(LoginAccepted(t)) && st.script[2] == Answer(ok)
    ensures var h2 := Merged(Some(t), map[], true).value;
      FirstAttempt(cfg, st, verb, url, map[], None, true, h)
      == (Session(Some(t), true, st.typeId, st.script[3..],
                  st.sent + [SessionRequest(verb, url, h, None), LoginPost(cfg, st.typeId), SessionRequest(verb, url, h2, None)]),
          Ok(ok))
  {
    var req1 := SessionRequest(verb, url, h, None);
    var s2 := Invalidated(Transmit(st, req1).0);
    assert s2.script == st.script[1..];
    LoginAcceptedStep(cfg, s2, t);
    assert st.script[1..][1..] == st.script[2..];
    assert st.script[2..][1..] == st.script[3..];
    var s3 := Session(Some(t), true, st.typeId, st.script[2..], st.sent + [req1] + [LoginPost(cfg, st.typeId)]);
    assert EnsureLoggedInSpec(cfg, s2) == (s3, Pass);
    var h2 := Merged(Some(t), map[], true).value;
    var req2 := SessionRequest(verb, url, h2, None);
    assert FinalAttempt(s3, verb, url, h2, None, true) == (s3.(script := st.script[3..], sent := s3.sent + [req2]), Ok(ok));
    assert Reauthenticate(cfg, s2, verb, url, map[], None, true) == (s3.(script := st.script[3..], sent := s3.sent + [req2]), Ok(ok));
    assert st.sent + [req1] + [LoginPost(cfg, st.typeId)] + [req2] == st.sent + [req1, LoginPost(cfg, st.typeId), req2];
  }

  /** A first 401/403 on a call that needs authentication invalidates the
      session and hands over to the recovery; nothing else happens first. */
  lemma FirstRejectionReauthenticates(cfg: Config, st: Session, verb: string, url: string,
                                      extra: map<string, string>, payload: Option<Json>, headers: Headers)
    requires Reply(st.script, RequestLost).Ok? && Reply(st.script, RequestLost).value.status in {401, 403}
    ensures FirstAttempt(cfg, st, verb, url, extra, payload, true, headers)
         == Reauthenticate(cfg, Invalidated(Transmit(st, SessionRequest(verb, url, headers, payload)).0),
                           verb, url, extra, payload, true)
  {
  }

  /** The recovery of an invalidated session: one login POST and no other
      request, then exactly one resend carrying the headers rebuilt from
      the new token. */
  lemma ReauthenticateResends(cfg: Config, st: Session, verb: string, url: string,
                              extra: map<string, string>, payload: Option<Json>)
    requires !st.authenticated
    requires LoginSpec(cfg, st).1.Pass? && Merged(LoginSpec(cfg, st).0.token, extra, true).Ok?
    ensures var s1 := LoginSpec(cfg, st).0;
      var r := Reauthenticate(cfg, st, verb, url, extra, payload, true);
      r.0.sent == s1.sent + [SessionRequest(verb, url, Merged(s1.token, extra, true).value, payload)]
      && Requests(r.0.sent) == Requests(st.sent) + 1 && Posts(r.0.sent) == Posts(st.sent) + 1
      && (r.1.Ok? <==> Reply(s1.script, RequestLost).Ok? && Classify(Reply(s1.script, RequestLost).value, true).Deliver?)
  {
    var f := FetchIfMissing(cfg, st);
    CountSnoc(f.0.sent, LoginPost(cfg, f.0.typeId));
  }

  /** On a first rejection whose re-login passes and whose headers merge,
      the call is sent twice with one login between: the original request
      first, the rebuilt one last. */
  lemma FirstRejectionRetriesOnce(cfg: Config, st: Session, verb: string, url: string,
                                  extra: map<string, string>, payload: Option<Json>, headers: Headers)
    requires Reply(st.script, RequestLost).Ok? && Reply(st.script, RequestLost).value.status in {401, 403}
    requires var s := Invalidated(Transmit(st, SessionRequest(verb, url, headers, payload)).0);
      LoginSpec(cfg, s).1.Pass? && Merged(LoginSpec(cfg, s).0.token, extra, true).Ok?
    ensures var s1 := LoginSpec(cfg, Invalidated(Transmit(st, SessionRequest(verb, url, headers, payload)).0)).0;
      var r := FirstAttempt(cfg, st, verb, url, extra, payload, true, headers);
      Requests(r.0.sent) == Requests(st.sent) + 2 && Posts(r.0.sent) == Posts(st.sent) + 1
      && r.0.sent[|st.sent|] == SessionRequest(verb, url, headers, payload)
      && r.0.sent[|r.0.sent| - 1] == SessionRequest(verb, url, Merged(s1.token, extra, true).value, payload)
  {
    var req := SessionRequest(verb, url, headers, payload);
    var s := Invalidated(Transmit(st, req).0);
    FirstRejectionReauthenticates(cfg, st, verb, url, extra, payload, headers);
    ReauthenticateResends(cfg, s, verb, url, extra, payload);
    var s1 := LoginSpec(cfg, s).0;
    var r := FirstAttempt(cfg, st, verb, url, extra, payload, true, headers);
    assert s.sent == st.sent + [req];
    assert s.sent <= s1.sent;
    assert s1.sent <= r.0.sent;
    assert r.0.sent[|st.sent|] == s.sent[|st.sent|];
  }

  /** The calls of the scenarios below add two logins and two requests. */
  lemma ScenarioCounts(sent: seq<Call>, pre: seq<Call>, post: Call, req1: Call, req2: Call)
    requires post.SessionPost? && req1.SessionRequest? && req2.SessionRequest?
    requires sent == pre + [post, req1, post, req2]
    ensures Posts(sent) == Posts(pre) + 2
    ensures Requests(sent) == Requests(pre) + 2
    ensures Gets(sent) == Gets(pre)
  {
    CountSnoc(pre, post);
    CountSnoc(pre + [post], req1);
    CountSnoc(pre + [post, req1], post);
    CountSnoc(pre + [post, req1, post], req2);
    assert pre + [post, req1] == pre + [post] + [req1];
    assert pre + [post, req1, post] == pre + [post, req1] + [post];
    assert pre + [post, req1, post, req2] == pre + [post, req1, post] + [req2];
  }

  lemma AppendOne<T>(pre: seq<T>, a: T, b: T, c: T, d: T)
    ensures pre + [a] + [b, c, d] == pre + [a, b, c, d]
  {
  }

  /** A logged-in session whose headers merge sends the first attempt. */
  lemma RequestAfterLogin(cfg: Config, st: Session, s1: Session, verb: string, path: string,
                          extra: map<string, string>, payload: Option<Json>, h: Headers)
    requires EnsureLoggedInSpec(cfg, st) == (s1, Pass) && Merged(s1.token, extra, true) == Ok(h)
    ensures RequestSpec(cfg, st, verb, path, extra, payload, true)
         == FirstAttempt(cfg, s1, verb, cfg.baseUrl + path, extra, payload, true, h)
  {
  }

  /** The expired-session scenario from any history of calls: log in, be
      rejected, log in again and succeed. */
  lemma RetryScenarioFrom(cfg: Config, st: Session, t1: string, t2: string, rejectStatus: int, ok: Response,
                          verb: string, path: string)
    requires !st.authenticated && st.typeId.Some?
    requires t1 != [] && t2 != [] && rejectStatus in {401, 403} && ok.status != 429 && ok.status != 401 && ok.status != 403
    requires |st.script| >= 4 && st.script[0] == Answer(LoginAccepted(t1))
    requires st.script[1] == Answer(Response(rejectStatus, map[], EmptyBody))
    requires st.script[2] == Answer(LoginAccepted(t2)) && st.script[3] == Answer(ok)
    ensures var r := RequestSpec(cfg, st, verb, path, map[], None, true);
      var post := LoginPost(cfg, st.typeId);
      var url := cfg.baseUrl + path;
      r.1 == Ok(ok) && r.0.token == Some(t2) && r.0.authenticated && r.0.script == st.script[4..]
      && r.0.typeId == st.typeId
      && r.0.sent == st.sent + [post, SessionRequest(verb, url, Merged(Some(t1), map[], true).value, None),
                                post, SessionRequest(verb, url, Merged(Some(t2), map[], true).value, None)]
    ensures var sent := RequestSpec(cfg, st, verb, path, map[], None, true).0.sent;
      Posts(sent) == Posts(st.sent) + 2 && Requests(sent) == Requests(st.sent) + 2 && Gets(sent) == Gets(st.sent)
  {
    var post := LoginPost(cfg, st.typeId);
    LoginAcceptedStep(cfg, st, t1);
    var s1 := Session(Some(t1), true, st.typeId, st.script[1..], st.sent + [post]);
    var h1 := Merged(Some(t1), map[], true).value;
    var url := cfg.baseUrl + path;
    RequestAfterLogin(cfg, st, s1, verb, path, map[], None, h1);
    RejectedThenAccepted(cfg, s1, t2, rejectStatus, ok, verb, url, h1);
    assert st.script[1..][3..] == st.script[4..];
    var h2 := Merged(Some(t2), map[], true).value;
    var req1 := SessionRequest(verb, url, h1, None);
    var req2 := SessionRequest(verb, url, h2, None);
    AppendOne(st.sent, post, req1, post, req2);
    ScenarioCounts(RequestSpec(cfg, st, verb, path, map[], None, true).0.sent, st.sent, post, req1, req2);
  }

  /** The answer of `GET /login` listing one permit media type. */
  function LoginTypes(id: int): Response {
    Response(200, map[], Decoded(JObj(map["PermitMediaTypes" := JList([JObj(map["ID" := JInt(id)])])])))
  }

  lemma LoginTypesRead(id: int)
    ensures TypeIdOf(LoginTypes(id)) == Ok(id)
  {
    var doc := LoginTypes(id).body.doc;
    var items := Get(doc.fields, "PermitMediaTypes").items;
    assert items == [JObj(map["ID" := JInt(id)])];
    assert AllObjects(items);
  }

  /** Without a type id the first login starts with `GET /login`; after it
      the login is the same as for a session that had the id already. */
  lemma FetchThenLogin(cfg: Config, st: Session, id: int)
    requires !st.authenticated && st.typeId.None?
    requires st.script != [] && st.script[0] == Answer(LoginTypes(id))
    ensures var s0 := st.(typeId := Some(id), script := st.script[1..],
                          sent := st.sent + [SessionGet(cfg.baseUrl + "/login", DefaultHeaders())]);
      FetchTypeIdSpec(cfg, st) == (s0, Pass)
      && EnsureLoggedInSpec(cfg, st) == EnsureLoggedInSpec(cfg, s0)
  {
    LoginTypesRead(id);
  }

  /** A call that needs authentication depends on the session only
      through the login it starts with. */
  lemma SameLoginSameRequest(cfg: Config, st: Session, s0: Session, verb: string, path: string,
                             extra: map<string, string>, payload: Option<Json>)
    requires EnsureLoggedInSpec(cfg, st) == EnsureLoggedInSpec(cfg, s0)
    ensures RequestSpec(cfg, st, verb, path, extra, payload, true) == RequestSpec(cfg, s0, verb, path, extra, payload, true)
  {
  }

  /** Without a type id, a call is the same call made after the type
      lookup. */
  lemma FreshRequest(cfg: Config, st: Session, id: int, verb: string, path: string)
    requires !st.authenticated && st.typeId.None?
    requires st.script != [] && st.script[0] == Answer(LoginTypes(id))
    ensures var s0 := st.(typeId := Some(id), script := st.script[1..],
                          sent := st.sent + [SessionGet(cfg.baseUrl + "/login", DefaultHeaders())]);
      RequestSpec(cfg, st, verb, path, map[], None, true) == RequestSpec(cfg, s0, verb, path, map[], None, true)
  {
    var s0 := st.(typeId := Some(id), script := st.script[1..],
                  sent := st.sent + [SessionGet(cfg.baseUrl + "/login", DefaultHeaders())]);
    FetchThenLogin(cfg, st, id);
    SameLoginSameRequest(cfg, st, s0, verb, path, map[], None);
  }

  /** The expired-session scenario of a client created without a type id:
      one `GET /login`, then as before. */
  lemma RetryScenarioFresh(cfg: Config, st: Session, id: int, t1: string, t2: string, rejectStatus: int,
                           ok: Response, verb: string, path: string)
    requires !st.authenticated && st.typeId.None?
    requires t1 != [] && t2 != [] && rejectStatus in {401, 403} && ok.status != 429 && ok.status != 401 && ok.status != 403
    requires |st.script| >= 5 && st.script[0] == Answer(LoginTypes(id)) && st.script[1] == Answer(LoginAccepted(t1))
    requires st.script[2] == Answer(Response(rejectStatus, map[], EmptyBody))
    requires st.script[3] == Answer(LoginAccepted(t2)) && st.script[4] == Answer(ok)
    ensures var r := RequestSpec(cfg, st, verb, path, map[], None, true);
      r.1 == Ok(ok) && r.0.token == Some(t2) && r.0.authenticated && r.0.typeId == Some(id)
      && r.0.script == st.script[5..]
      && Gets(r.0.sent) == Gets(st.sent) + 1 && Posts(r.0.sent) == Posts(st.sent) + 2
      && Requests(r.0.sent) == Requests(st.sent) + 2
  {
    var get := SessionGet(cfg.baseUrl + "/login", DefaultHeaders());
    var s0 := st.(typeId := Some(id), script := st.script[1..], sent := st.sent + [get]);
    FreshRequest(cfg, st, id, verb, path);
    assert s0.script[0] == st.script[1] && s0.script[1] == st.script[2];
    assert s0.script[2] == st.script[3] && s0.script[3] == st.script[4];
    CountSnoc(st.sent, get);
    RetryScenarioFrom(cfg, s0, t1, t2, rejectStatus, ok, verb, path);
    assert s0.script[4..] == st.script[5..];
  }

  // ---------------------------------------------------------------------
  // The object

  class Auth {
    const config: Config
    const transport: Transport
    var token: Option<string>
    var authenticated: bool
    var permitMediaTypeId: Option<int>

    function State(): Session
      reads this, transport
    {
      Session(token, authenticated, permitMediaTypeId, transport.script, transport.sent)
    }

    predicate Valid()
      reads this, transport
    {
      Inv(State())
    }

    constructor (config: Config, transport: Transport, permitMediaTypeId: Option<int>)
      ensures this.config == config && this.transport == transport
      ensures this.permitMediaTypeId == permitMediaTypeId && token.None? && !authenticated
      ensures Valid()
    {
      this.config := config;
      this.transport := transport;
      this.permitMediaTypeId := permitMediaTypeId;
      token := None;
      authenticated := false;
    }

    /** `Auth(session, username, password, base_url, **kwargs)`. */
    static method Create(transport: Transport, username: string, password: string, baseUrl: string, kw: Kwargs)
      returns (r: Result<Auth>)
      ensures r.Err? <==> Configure(username, password, baseUrl, kw).Err?
      ensures r.Err? ==> r.error == Configure(username, password, baseUrl, kw).error
      ensures r.Ok? ==>
        fresh(r.value) && r.value.Valid() && r.value.transport == transport
        && r.value.config == Configure(username, password, baseUrl, kw).value.0
        && r.value.permitMediaTypeId == kw.permitMediaTypeId
        && r.value.token.None? && !r.value.authenticated
    {
      var c := Configure(username, password, baseUrl, kw);
      if c.Err? {
        return Err(c.error);
      }
      var a := new Auth(c.value.0, transport, c.value.1);
      return Ok(a);
    }

    method InvalidateSession()
      modifies this
      ensures State() == Invalidated(old(State()))
      ensures Valid()
    {
      authenticated := false;
      token := None;
    }

    /** `invalidate`: the next request logs in again. */
    method Invalidate()
      modifies this
      ensures State() == Invalidated(old(State()))
      ensures Valid()
    {
      InvalidateSession();
    }

    /** `_merge_headers`, building the dictionary update by update. */
    method MergeHeaders(extra: map<string, string>, authRequired: bool) returns (r: Result<Headers>)
      ensures r == Merged(token, extra, authRequired)
    {
      var merged := DefaultHeaders();
      if authRequired {
        var authorization := AuthorizationHeader(token);
        if authorization.Err? {
          return Err(authorization.error);
        }
        merged := merged + authorization.value;
      }
      if |extra| > 0 {
        merged := merged + TextHeaders(extra);
      }
      return Ok(merged);
    }

    method FetchDefaultTypeId() returns (o: Outcome)
      modifies this, transport
      ensures (State(), o) == FetchTypeIdSpec(config, old(State()))
    {
      var reply := transport.Send(SessionGet(config.baseUrl + "/login", DefaultHeaders()));
      if reply.Err? {
        return Fail(reply.error);
      }
      var resp := reply.value;
      if resp.status == 429 {
        return Fail(RateLimitError(RetryAfter(resp.headers)));
      }
      if resp.status >= 400 {
        return Fail(Rejected);
      }
      var data := AsyncJson(resp.body, NotJson);
      if data.Err? {
        return Fail(data.error);
      }
      if !data.value.JObj? {
        return Fail(AuthError("Expected login object"));
      }
      var rawTypes := Get(data.value.fields, "PermitMediaTypes");
      if !rawTypes.JList? {
        return Fail(AuthError("Expected PermitMediaTypes list"));
      }
      var raw := rawTypes.items;
      if raw == [] {
        return Fail(AuthError("No permit media types available"));
      }
      var types: seq<Obj> := [];
      var i := 0;
      while i < |raw|
        invariant 0 <= i <= |raw| && |types| == i
        invariant AllObjects(raw[..i])
        invariant forall j :: 0 <= j < i ==> JObj(types[j]) == raw[j]
      {
        if !raw[i].JObj? {
          assert !AllObjects(raw);
          return Fail(AuthError("Invalid permit media type entry"));
        }
        types := types + [raw[i].fields];
        i := i + 1;
      }
      assert raw[..i] == raw;
      var id := TypeIdValue(Get(types[0], "ID"));
      if id.Err? {
        return Fail(id.error);
      }
      permitMediaTypeId := Some(id.value);
      return Pass;
    }

    method Login() returns (o: Outcome)
      modifies this, transport
      ensures (State(), o) == LoginSpec(config, old(State()))
    {
      if permitMediaTypeId.None? {
        var fetched := FetchDefaultTypeId();
        if fetched.Fail? {
          return fetched;
        }
      }
      var payload := LoginPayload(config, permitMediaTypeId);
      var reply := transport.Send(SessionPost(config.baseUrl + "/login", DefaultHeaders(), payload));
      if reply.Err? {
        return Fail(reply.error);
      }
      var issued := LoginToken(reply.value);
      if issued.Err? {
        return Fail(issued.error);
      }
      token := Some(issued.value);
      authenticated := true;
      return Pass;
    }

    method EnsureLoggedIn() returns (o: Outcome)
      modifies this, transport
      ensures (State(), o) == EnsureLoggedInSpec(config, old(State()))
    {
      if authenticated {
        return Pass;
      }
      if authenticated {
        return Pass;
      }
      o := Login();
    }

    /** `request(method, path, headers=extra, json=payload, auth_required=...)`. */
    method Request(verb: string, path: string, extra: map<string, string>, payload: Option<Json>, authRequired: bool)
      returns (r: Result<Response>)
      modifies this, transport
      ensures (State(), r) == RequestSpec(config, old(State()), verb, path, extra, payload, authRequired)
    {
      if authRequired {
        var o := EnsureLoggedIn();
        if o.Fail? {
          return Err(o.error);
        }
      }
      var url := config.baseUrl + path;
      var merged := MergeHeaders(extra, authRequired);
      if merged.Err? {
        return Err(AuthError("Authentication token missing"));
      }
      r := SendWithRetry(verb, url, extra, payload, authRequired, merged.value);
    }

    /** The `while True` loop of `request`: the first pass may log in
        again once after a rejection, the second pass may not. */
    method SendWithRetry(verb: string, url: string, extra: map<string, string>, payload: Option<Json>,
                         authRequired: bool, initial: Headers)
      returns (r: Result<Response>)
      modifies this, transport
      ensures (State(), r) == FirstAttempt(config, old(State()), verb, url, extra, payload, authRequired, initial)
    {
      var headers := initial;
      var attempt := 0;
      while true
        invariant 0 <= attempt <= 1
        invariant (if attempt == 0 then FirstAttempt(config, State(), verb, url, extra, payload, authRequired, headers)
                   else FinalAttempt(State(), verb, url, headers, payload, authRequired))
               == FirstAttempt(config, old(State()), verb, url, extra, payload, authRequired, initial)
        decreases 1 - attempt
      {
        attempt := attempt + 1;
        var reply := transport.Send(SessionRequest(verb, url, headers, payload));
        if reply.Err? {
          return Err(reply.error);
        }
        var resp := reply.value;
        if resp.status == 429 {
          return Err(RateLimitError(RetryAfter(resp.headers)));
        }
        if authRequired && (resp.status == 401 || resp.status == 403) {
          InvalidateSession();
          if attempt == 1 {
            var o := EnsureLoggedIn();
            if o.Fail? {
              return Err(o.error);
            }
            var merged := MergeHeaders(extra, authRequired);
            if merged.Err? {
              return Err(AuthError("Authentication token missing"));
            }
            headers := merged.value;
            continue;
          }
          return Err(Rejected);
        }
        return Ok(resp);
      }
    }
  }
}
