# pyCityParkingPermit, modelled in Dafny

pyCityParkingPermit is an asynchronous client for a municipal parking-permit
service. It logs in with an identifier and a password, reads the permit of
the account and turns its JSON into typed records (account, zone,
reservations, favourite licence plates). It also creates and ends
reservations and edits favourites. This project models three parts of that
client and proves properties about them:

- **The entity parser** (`models.py`), in `numerals.dfy`, `isodates.dfy` and `models.dfy`:
  - strict field readers over a decoded JSON value;
  - the ISO 8601 date-time handling the records rely on, via Python's `int()`, `datetime.fromisoformat`, `astimezone(UTC)` and `isoformat` on the subset the service uses;
  - the record builders, including the selection loop of `Zone.from_mapping`.
- **Permit extraction and the defaults state machine** (`api.py`), in `api.dfy`:
  - the normalisation of the singular `Permit` and plural `Permits` answer shapes;
  - the reservation pick after a create;
  - the two remembered media defaults (type id and code) and when they are refreshed;
  - the facade operations built on them, among them the list–remove–upsert sequence of `async_update_favorite`.
- **The session and its retry policy** (`auth.py`), in `auth.dfy`:
  - constructor validation;
  - header merging;
  - `Retry-After` parsing;
  - the login that first fetches a type id when none is known;
  - the request loop with its single re-authentication after 401/403 and its `RateLimitError` on 429.

`errors.dfy` holds `Option`, `Result`, `Outcome` and the error kinds of
`exceptions.py`. Besides these it has `HttpError` for `raise_for_status`,
`Overflow` for the `OverflowError` of `astimezone`, and `ValueError` and
`TypeError` for the constructor. `json.dfy` holds the decoded JSON value and
`async_json` of `_utils.py`.

Pure logic is written as functions and lemmas. The two stateful objects are
classes:

- `Auth.Auth` has the fields `token`, `authenticated` and `permitMediaTypeId`. It talks to the network through a `Transport` object that plays back a script of answers, one per call, and logs every call sent.
- `Api.CityParkingPermitApi` holds `defaultTypeId` and `defaultCode` and uses an `Auth`.

Each method is proved equal to a pure specification function over a
`Session` value (token, flag, type id, remaining script, calls sent) and a
`Defaults` value. The lemmas state the source's promises about those
functions:

- bounds on the number of calls;
- the invariant "authenticated exactly when a token is held";
- one re-login at most;
- a caller value is never overridden by a default.

Where Python loops, the model loops too:

- `Models.ZoneFromMapping` is the loop over `BlockTimes`.
- `Auth.Auth.FetchDefaultTypeId` is the loop collecting media types.
- `Auth.Auth.SendWithRetry` is the `while True` loop of `request`.
- `Api.PickAmongLoop` is the for-return search.
- `Api.FindFavorite` is the for-break search.

## Model

| member | source | states |
|---|---|---|
| Json.EnsureMapping | src/pyCityParkingPermit/api.py:258-262 | succeeds exactly on a JSON object and returns that object; otherwise fails with the given error (ParseError here, AuthError in the auth copy) |
| Json.EnsureList | src/pyCityParkingPermit/api.py:265-269 | succeeds exactly on a JSON list and returns its items; otherwise fails with the given error |
| Json.AsyncJson | src/pyCityParkingPermit/_utils.py:12-22 | an empty body reads as null, a decoded body as its document, and only an undecodable body fails, with the caller's error |
| Numerals.PyInt | src/pyCityParkingPermit/models.py:13-18 | the value `int()` sees: an int is itself and a boolean 0 or 1, a string is read as decimal text, and null, lists and objects are refused; the meaning of the text lies in ParseInt |
| Numerals.ParseInt | src/pyCityParkingPermit/models.py:16 | `int(text)`: after stripping whitespace, a value exactly for digits with single underscores between digits, optionally behind one `+` or `-`; plain digits read as their decimal value, with the sign applied; a negative result only from a leading `-` |
| Numerals.IntToString | src/pyCityParkingPermit/models.py:16 | `str(n)`: non-empty; a non-negative integer prints as digits of its value, a negative one as `-` and the digits of its magnitude; no leading zero except in `0` itself |
| Numerals.NatDigitsLeading | src/pyCityParkingPermit/models.py:16 | the digits of a natural number start with `0` only for zero |
| Numerals.IntRoundTrip | src/pyCityParkingPermit/models.py:16 | `int(str(n)) == n` for every integer, negative ones included (Python's 4300-digit conversion limit aside, see Left out) |
| Numerals.NaturalRoundTrip | src/pyCityParkingPermit/models.py:16 | the decimal text of a non-negative integer parses back to it |
| Numerals.NegativeRoundTrip | src/pyCityParkingPermit/models.py:16 | the text `-` followed by the digits of a negative integer's magnitude parses back to that integer |
| Numerals.Magnitude | src/pyCityParkingPermit/models.py:16 | unsigned text has a value exactly when it is digits with single underscores between digits; the value is never negative |
| Numerals.DigitsMagnitude | src/pyCityParkingPermit/models.py:16 | plain digits without underscores are read as their decimal value |
| IsoDates.Normalize | src/pyCityParkingPermit/models.py:43-45 | `astimezone(UTC).replace(microsecond=0)`: on success the result is valid, at offset 0 and without microseconds, and shifted back to the original offset it is the input truncated to seconds; it fails with Overflow exactly when the UTC date leaves years 1..9999 |
| IsoDates.NormalizeIdempotent | src/pyCityParkingPermit/models.py:43-45 | normalising a normalised value changes nothing |
| IsoDates.ShiftBack | src/pyCityParkingPermit/models.py:45 | shifting a wall-clock time by an offset and back by its negation returns the original time |
| IsoDates.PrevOfNext | src/pyCityParkingPermit/models.py:45 | the calendar day before the next day is the day itself |
| IsoDates.NextOfPrev | src/pyCityParkingPermit/models.py:45 | the calendar day after the previous day is the day itself |
| IsoDates.UtcBeforeTransitive | src/pyCityParkingPermit/models.py:99 | the instant order `min` compares by is transitive |
| IsoDates.ParseIso | src/pyCityParkingPermit/models.py:33 | whatever `fromisoformat` accepts is a valid date-time (calendar date, clock, offset strictly inside a day); the accepted forms are listed under Left out |
| IsoDates.IsoRoundTrip | src/pyCityParkingPermit/models.py:48-50 | `fromisoformat(isoformat(dt)) == dt` for every valid date-time, naive or aware; this is the partner of `isoformat` (IsoFormat), whose texts the three lemmas below pin down piece by piece |
| IsoDates.DateRoundTrip | src/pyCityParkingPermit/models.py:50 | the `YYYY-MM-DD` text of a date parses back to it |
| IsoDates.ClockRoundTrip | src/pyCityParkingPermit/models.py:50 | the clock text (with microseconds when non-zero) parses back to the same hour, minute, second and microsecond |
| IsoDates.OffsetRoundTrip | src/pyCityParkingPermit/models.py:50 | the `±HH:MM` suffix (or its absence) parses back to the same offset |
| IsoDates.UtcText | src/pyCityParkingPermit/models.py:37-38 | a naive value given UTC prints as its naive text followed by `+00:00` |
| IsoDates.PadValue | src/pyCityParkingPermit/models.py:50 | a zero-padded field of isoformat reads back as the number it prints |
| IsoDates.IsoFormatNoZ | src/pyCityParkingPermit/models.py:33 | the text `isoformat` prints contains no `Z`, so the `replace("Z", "+00:00")` applied before parsing leaves it unchanged |
| IsoDates.ReplaceZNoZ | src/pyCityParkingPermit/models.py:33 | `replace("Z", "+00:00")` does nothing to a text without `Z` |
| IsoDates.ReplaceZConcat | src/pyCityParkingPermit/models.py:33 | `replace("Z", "+00:00")` works piece by piece on a concatenation |
| Models.ParseIntField | src/pyCityParkingPermit/models.py:13-18 | succeeds exactly when Python `int()` accepts the value, with that integer; otherwise ParseError naming the field |
| Models.ParseIntAccepts | src/pyCityParkingPermit/models.py:13-18 | an int and its decimal text both parse to that int; null is a ParseError |
| Models.ParseStr | src/pyCityParkingPermit/models.py:21-25 | returns the value unchanged exactly when it is a string; any other JSON value is a ParseError naming the field |
| Models.ParseOptionalStr | src/pyCityParkingPermit/models.py:58-64 | null gives None, a string gives itself, and every other type is a ParseError: never a coercion |
| Models.ParseDtValue | src/pyCityParkingPermit/models.py:28-40 | a non-string is a ParseError naming the field; any success is an aware, valid date-time |
| Models.ParseDtValueAware | src/pyCityParkingPermit/models.py:28-40 | the isoformat text of an aware value parses to that value |
| Models.ParseDtValueNaive | src/pyCityParkingPermit/models.py:37-38 | a text without an offset is read as UTC |
| Models.ParseDtValueZulu | src/pyCityParkingPermit/models.py:33 | a trailing `Z` is read as `+00:00` |
| Models.DtToClient | src/pyCityParkingPermit/models.py:48-50 | succeeds exactly when normalisation does, and its text parses back to the normalised UTC value |
| Models.ParseDt | src/pyCityParkingPermit/models.py:53-55 | fails exactly when the raw parse or the normalisation fails, with the field's ParseError or Overflow; a result is valid, in UTC and without microseconds, and shifted back to the parsed offset it is the parsed value truncated to seconds: the same instant |
| Models.NaiveClientText | src/pyCityParkingPermit/models.py:48-55 | a naive timestamp parses to its UTC reading truncated to seconds, and its client text is its own text followed by `+00:00` |
| Models.ClientTextExample | tests/test_client.py:123-124 | `"2025-12-23T00:47:00"` parses and is served to clients as `"2025-12-23T00:47:00+00:00"` |
| Models.ClientTextOfParsed | src/pyCityParkingPermit/models.py:159-164 | normalising twice (`_parse_dt` and then `_dt_to_client`) gives the same text as normalising once |
| Models.AccountFrom | src/pyCityParkingPermit/models.py:116-130 | succeeds exactly when ActiveReservations is absent/null or a list and Code and Balance convert with `int()`; then id = int(Code), remaining time = int(Balance), count = 0 for null and the list length otherwise; any other ActiveReservations is a ParseError |
| Models.AccountRoundTrip | src/pyCityParkingPermit/models.py:116-130 | the mapping that describes an account builds back exactly that account |
| Models.AccountWithoutReservations | src/pyCityParkingPermit/models.py:118-120 | an absent ActiveReservations key counts as zero reservations |
| Models.ReservationFrom | src/pyCityParkingPermit/models.py:144-165 | a non-object LicensePlate is its ParseError; success exactly when LicensePlate is an object, int(ReservationID) converts, Value and DisplayValue are strings and both times parse and normalise; then the plate is Value, the name DisplayValue and the id int(ReservationID) |
| Models.ReservationTimes | src/pyCityParkingPermit/models.py:159-164 | a built reservation's start and end are the UTC client texts of ValidFrom and ValidUntil as parsed |
| Models.ReservationRoundTrip | src/pyCityParkingPermit/models.py:144-165 | the mapping that describes a reservation with naive whole-second times builds it back, its times marked as UTC |
| Models.ReservationExample | tests/test_client.py:21-31 | the test's reservation item builds reservation 1844553 of AA11BB from 2025-12-23T00:47:00+00:00 to 2025-12-23T23:59:00+00:00; the extra Units and PermitMediaCode keys are ignored |
| Models.FavoriteFrom | src/pyCityParkingPermit/models.py:176-181 | succeeds exactly when Value is a string and Name is null or a string; the plate is Value and the name is Name or None |
| Models.FavoriteRoundTrip | src/pyCityParkingPermit/models.py:176-181 | the mapping that describes a favourite builds back exactly that favourite |
| Models.BlockOf | src/pyCityParkingPermit/models.py:84-94 | a non-object item is the item ParseError; a free item yields nothing before any date is read; otherwise Ok exactly when both dates parse, the first bad date giving block.ValidFrom or block.ValidUntil, and the block comes out exactly when it starts today in its own offset |
| Models.BlockOfMembers | src/pyCityParkingPermit/models.py:84-94 | an item is collected as a block exactly when it is a non-free object whose dates parse to that block's and the block starts today |
| Models.PaidBlocks | src/pyCityParkingPermit/models.py:83-94 | never collects more blocks than there are items; its membership and success are stated by the two lemmas below |
| Models.PaidBlocksOk | src/pyCityParkingPermit/models.py:84-94 | the blocks are collected exactly when every item yields a result |
| Models.PaidBlocksMembers | src/pyCityParkingPermit/models.py:84-94 | a block is collected exactly when some item is a non-free object whose dates parse to it and that starts today |
| Models.PaidBlocksToday | src/pyCityParkingPermit/models.py:91-94 | every collected block starts on today's date in its own offset |
| Models.PaidBlocksAppend | src/pyCityParkingPermit/models.py:84-94 | the loop over a concatenation is the loop over the first part followed by the loop over the rest, with the first error winning |
| Models.PaidBlocksStep | src/pyCityParkingPermit/models.py:94 | one more accepted item appends its own blocks to those collected so far |
| Models.FreeBlockIgnored | src/pyCityParkingPermit/models.py:87-88 | inserting an item with `IsFree` true anywhere changes nothing, even when its dates are garbage |
| Models.ItemFails | src/pyCityParkingPermit/models.py:84-90 | the first failing item decides the error, whatever follows |
| Models.NonObjectItemFails | src/pyCityParkingPermit/models.py:85-86 | a non-object item after accepted ones is the "BlockTimes item" ParseError |
| Models.PaidBlockKept | src/pyCityParkingPermit/models.py:94 | a paid block of today is kept, in list order, after the blocks of the items before it |
| Models.EarliestIndex | src/pyCityParkingPermit/models.py:99 | `min` by start instant: no block starts strictly earlier than the chosen one, and every block before it starts strictly later, so it is the first minimal block |
| Models.EarliestZone | src/pyCityParkingPermit/models.py:96-104 | None exactly without paid blocks; otherwise the zone code plus the client texts of the first block with the earliest start; the only error is Overflow |
| Models.ZoneFromMapping | src/pyCityParkingPermit/models.py:76-104 | the loop over BlockTimes computes exactly the zone the value-level definition describes, error for error |
| Models.ZoneFailsAt | src/pyCityParkingPermit/models.py:84-90 | the zone fails with the error of the first failing item |
| Models.ZoneNeedsList | src/pyCityParkingPermit/models.py:79-81 | a BlockTimes that is not a list is a ParseError |
| Models.ZoneOf | src/pyCityParkingPermit/models.py:76-104 | a non-string ZoneCode is the permit.ZoneCode ParseError; a non-list BlockTimes is "Expected permit.BlockTimes list"; a failing block list is the zone's error; a zone carries the ZoneCode |
| Models.ZoneAbsent | src/pyCityParkingPermit/models.py:96-97 | the zone is None exactly when no paid block starts today |
| Models.ZoneIsEarliest | src/pyCityParkingPermit/models.py:89-104 | a returned zone has the zone code and the earliest of today's paid blocks, all of which start today |
| Auth.StripTrailingSlashes | src/pyCityParkingPermit/auth.py:66 | `rstrip("/")`: a prefix of the input with no trailing slash, having dropped only slashes |
| Auth.Configure | src/pyCityParkingPermit/auth.py:44-66 | succeeds exactly without unknown keywords, with non-blank username, password and base URL, and with a positive timeout; the checks run in source order, each raising its own TypeError or ValueError, the timeout check last with "timeout must be greater than zero"; on success the base URL has its trailing slashes stripped |
| Auth.ConfigureDefaults | src/pyCityParkingPermit/auth.py:44-45 | without keywords the timeout is the 20 s default and no type id is preset |
| Auth.Auth.Create | src/pyCityParkingPermit/auth.py:36-71 | a fresh, valid, logged-out object on success; the configuration error otherwise |
| Auth.Auth.constructor | src/pyCityParkingPermit/auth.py:63-71 | stores the configuration, no token, not authenticated |
| Auth.AuthorizationHeader | src/pyCityParkingPermit/auth.py:222-226 | fails exactly when no token is held |
| Auth.Merged | src/pyCityParkingPermit/auth.py:234-242 | fails exactly when authentication is required and no token is held, with "Authentication token missing" |
| Auth.MergedContents | src/pyCityParkingPermit/auth.py:228-242 | the merged headers have exactly accept, user-agent, Authorization when required, and the caller's keys; caller values win; the defaults hold otherwise |
| Auth.DefaultHeadersContents | src/pyCityParkingPermit/auth.py:228-232 | the default headers are exactly accept `application/json` and the package user agent |
| Auth.RetryAfterMeaning | src/pyCityParkingPermit/auth.py:245-252 | a value only with a Retry-After header; a stripped run of digits reads as its value; text that is neither digits nor a signed number reads as None |
| Auth.Auth.MergeHeaders | src/pyCityParkingPermit/auth.py:234-242 | building the dictionary update by update gives the merged headers |
| Auth.RetryAfterNumber | src/pyCityParkingPermit/auth.py:245-252 | an integer header reads as that integer; an absent header as None |
| Auth.RetryAfterText | src/pyCityParkingPermit/auth.py:249-252 | a non-integer header such as "soon" reads as None |
| Auth.LoginToken | src/pyCityParkingPermit/auth.py:154-176 | 429 is a RateLimitError with the parsed Retry-After; any other status ≥ 400 is AuthError; an undecodable body is AuthError("Response body is not valid JSON"); LoginStatus 2 is AuthError("Authentication failed: " + the ErrorMessage text); success exactly for a decoded object without LoginStatus 2 and with a truthy Token, whose `str` is the token |
| Auth.TypeIdValue | src/pyCityParkingPermit/auth.py:208-216 | the ID is adopted exactly when it is an int, bool or string that `int()` accepts; otherwise "Invalid permit media type ID" |
| Auth.TypeIdOf | src/pyCityParkingPermit/auth.py:188-216 | 429 is a RateLimitError, other statuses ≥ 400 AuthError; success exactly for a non-empty PermitMediaTypes list of objects whose first ID converts (UsableTypes), with that ID (FirstTypeId) as the value |
| Auth.LoginPayloadFields | src/pyCityParkingPermit/auth.py:137-142 | the login body holds exactly identifier, loginMethod "Pas", password and permitMediaTypeID, the last null when no type id is known |
| Auth.Transmit | src/pyCityParkingPermit/auth.py:93-101 | a call leaves token, flag and type id alone, logs the call, and adds one to the count of its kind |
| Auth.PyStr | src/pyCityParkingPermit/auth.py:168-175 | `str` of a JSON scalar: a string is itself, an int's text reads back as that int, booleans and null print as True, False and None |
| Auth.LoginMessage | src/pyCityParkingPermit/auth.py:168 | the ErrorMessage as text, a string as itself and an int as its decimal text, or "Unknown authentication error" when absent |
| Auth.Invalidated | src/pyCityParkingPermit/auth.py:218-220 | flag off and token gone together, nothing else touched, so the invariant holds |
| Auth.InvalidateIdempotent | src/pyCityParkingPermit/auth.py:218-220 | invalidating twice is invalidating once |
| Auth.Auth.InvalidateSession | src/pyCityParkingPermit/auth.py:218-220 | the object's new state is the invalidated session |
| Auth.Auth.Invalidate | src/pyCityParkingPermit/auth.py:118-120 | the object's new state is the invalidated session |
| Auth.FetchTypeIdSpec | src/pyCityParkingPermit/auth.py:178-216 | exactly one GET of `/login`; a lost connection is ParkingConnectionError("Login request failed"); the type id changes only on success, to the first media type's ID; token and flag untouched |
| Auth.FetchIfMissing | src/pyCityParkingPermit/auth.py:131-132 | the type id is fetched only when none is known; the fetch touches neither token nor flag, sends one GET at most and sets a type id when it passes |
| Auth.LoginExchange | src/pyCityParkingPermit/auth.py:133-176 | one login POST with the login body; a lost connection is ParkingConnectionError("Login request failed"); success exactly when the answer arrives and carries a token, which is stored as `str(Token)` with the flag; a failure changes neither |
| Auth.Auth.FetchDefaultTypeId | src/pyCityParkingPermit/auth.py:178-216 | the method, with its loop over the media types, does what the specification says |
| Auth.LoginSpec | src/pyCityParkingPermit/auth.py:130-176 | a failing fetch is the login's failure; otherwise one POST with the login body; success exactly when the fetch passed and the answer carries a token, whose `str` is stored; failure leaves token and flag; the invariant and the call counts are kept |
| Auth.Auth.Login | src/pyCityParkingPermit/auth.py:130-176 | the method does what the login specification says |
| Auth.EnsureLoggedInSpec | src/pyCityParkingPermit/auth.py:122-128 | an authenticated session is left exactly as it is; otherwise one login at most |
| Auth.Auth.EnsureLoggedIn | src/pyCityParkingPermit/auth.py:122-128 | the method, flag re-check included, does what the specification says |
| Auth.Classify | src/pyCityParkingPermit/auth.py:103-116 | 429 is rate limiting with the parsed Retry-After; 401/403 is a rejection only when authentication was required; anything else is delivered |
| Auth.FinalAttempt | src/pyCityParkingPermit/auth.py:93-116 | the last pass sends one request and delivers exactly the answers that are neither 429 nor a rejection; a lost connection is ParkingConnectionError("Request failed") |
| Auth.FirstAttempt | src/pyCityParkingPermit/auth.py:89-116 | keeps the invariant; at most two requests, one login POST and the GET budget; a lost first connection is ParkingConnectionError("Request failed") with nothing further sent; its exact course after a rejection is stated by the three lemmas after it |
| Auth.Answered | src/pyCityParkingPermit/auth.py:103-116 | what the first pass does with an answer: keeps the invariant, at most one more request, one login POST and the GET budget |
| Auth.Reauthenticate | src/pyCityParkingPermit/auth.py:106-113 | the recovery after a first rejection adds at most one request and one login |
| Auth.FirstRejectionReauthenticates | src/pyCityParkingPermit/auth.py:106-113 | a first 401/403 with authentication required is exactly: invalidate, log in again and make the final attempt |
| Auth.ReauthenticateResends | src/pyCityParkingPermit/auth.py:108-113 | when that login passes and the headers merge, one resend with the re-merged headers follows the login; one more request and one POST; the answer is delivered exactly when it is neither 429 nor a rejection |
| Auth.FirstRejectionRetriesOnce | src/pyCityParkingPermit/auth.py:89-113 | for any request: a first rejection costs exactly two requests and one login POST, the first request with the original headers and the last with the headers merged from the new token |
| Auth.RequestSpec | src/pyCityParkingPermit/auth.py:73-116 | keeps the invariant; at most two requests, two logins and one GET per call |
| Auth.Dispatch | src/pyCityParkingPermit/auth.py:80-88 | after the login check, the merged headers go to the first pass: the invariant and the call bounds hold |
| Auth.RateLimitFirst | src/pyCityParkingPermit/auth.py:103-105 | 429 is a RateLimitError on either pass, whether or not authentication is required |
| Auth.OtherStatusPassesThrough | src/pyCityParkingPermit/auth.py:103-116 | any other status is returned unchanged |
| Auth.SecondRejectionFails | src/pyCityParkingPermit/auth.py:106-114 | a second 401/403 invalidates the session and raises AuthError |
| Auth.NoLoginWhenAuthenticated | src/pyCityParkingPermit/auth.py:80-82 | an authenticated session sends the request itself first |
| Auth.FirstAttemptSendsFirst | src/pyCityParkingPermit/auth.py:89-101 | the first call a pass sends is the request with the headers it was given |
| Auth.LoginAcceptedStep | src/pyCityParkingPermit/auth.py:165-176 | an accepted login answer stores its token and sets the flag, after one POST |
| Auth.RejectedThenAccepted | src/pyCityParkingPermit/auth.py:106-113 | reject, re-login, retry: the retry carries fresh headers and its answer is delivered |
| Auth.RequestAfterLogin | src/pyCityParkingPermit/auth.py:80-86 | after a successful login the request goes out with the merged headers |
| Auth.RetryScenarioFrom | src/pyCityParkingPermit/auth.py:73-116 | with a type id known: login, request rejected, login again, request answered: the answer is returned, the second token kept, exactly two POSTs, two requests and no GET |
| Auth.LoginTypesRead | tests/test_client.py:18 | the test's login-types document yields its type id |
| Auth.FetchThenLogin | src/pyCityParkingPermit/auth.py:131-132 | a session without type id fetches it with one GET and then logs in as a session that had it |
| Auth.SameLoginSameRequest | src/pyCityParkingPermit/auth.py:80-86 | the request depends on the session only through the login check |
| Auth.FreshRequest | src/pyCityParkingPermit/auth.py:73-86 | a fresh session's request is the GET of the type id followed by the request of a session that had it |
| Auth.RetryScenarioFresh | tests/test_client.py:100-126 | the test's course from a fresh session: GET /login, login, rejection, login again, answer: the answer is returned, the second token and the type id kept, one GET, two login POSTs and two requests |
| Auth.Auth.Request | src/pyCityParkingPermit/auth.py:73-116 | the method does what the request specification says |
| Auth.Auth.SendWithRetry | src/pyCityParkingPermit/auth.py:89-116 | the `while True` loop, with its attempt counter and re-merged headers, does what the first pass specifies |
| Api.DtToApi | src/pyCityParkingPermit/api.py:15-17 | the text parses back to the value truncated to seconds |
| Api.NormalizeDate | src/pyCityParkingPermit/api.py:327-331 | a naive value is taken as UTC; an aware one is normalised; a result is in UTC without microseconds |
| Api.NormalizedTextIsClientText | src/pyCityParkingPermit/api.py:309-317 | for aware values, the text `_matches` compares against is the client text a parsed reservation carries, and both fail together |
| Api.ReadJson | src/pyCityParkingPermit/api.py:217-222 | status ≥ 400 is an HTTP error; otherwise the body as `async_json` reads it with ParseError |
| Api.OrEmpty | src/pyCityParkingPermit/api.py:299 | `x or []`: a truthy value is kept, a falsy one becomes the empty list |
| Api.ExtractPermitMedia | src/pyCityParkingPermit/api.py:272-288 | succeeds exactly on the two accepted shapes; returns the permit (`Permit`, else the first of `Permits`) and its first permit media; the listed ParseErrors for a non-object root, no permit key and a non-object Permit; every failure is a ParseError |
| Api.PermitTakesPrecedence | src/pyCityParkingPermit/api.py:274-276 | with a Permit key, whatever Permits holds is ignored, even when Permit is malformed |
| Api.SingularAndPluralAgree | src/pyCityParkingPermit/api.py:274-280 | a permit given alone or as the first of a Permits list extracts the same |
| Api.Records | src/pyCityParkingPermit/api.py:50-53 | the list builds exactly when every item is an object that builds; then element by element; otherwise the first failing item decides |
| Api.ReservationsOf | src/pyCityParkingPermit/api.py:44-53 | a falsy ActiveReservations gives no reservations, a truthy non-list is "Expected reservations list", and a list gives the reservations built element by element |
| Api.ReservationsListed | src/pyCityParkingPermit/api.py:44-53 | an ActiveReservations list of described reservations with naive whole-second times reads back as those reservations |
| Api.FavoritesOf | src/pyCityParkingPermit/api.py:125-128 | a falsy LicensePlates gives no favourites; a truthy non-list is ParseError("Expected favorites list"); a list is read item by item, a non-object item being ParseError("Expected favorite object") and a bad favourite its own error |
| Api.FavoritesListed | src/pyCityParkingPermit/api.py:122-128 | a list of described favourites reads back as those favourites |
| Api.Matches | src/pyCityParkingPermit/api.py:306-319 | another plate never matches; the only error is Overflow from normalising |
| Api.MatchesMeaning | src/pyCityParkingPermit/api.py:306-319 | a match is exactly: same plate, and when given, start and end equal the normalised texts |
| Api.FirstMatch | src/pyCityParkingPermit/api.py:321-323 | the index of the first match (or the length): everything before it does not match |
| Api.FirstMatchStops | src/pyCityParkingPermit/api.py:321-323 | the search stops at the first entry that does not reject |
| Api.PickAmong | src/pyCityParkingPermit/api.py:321-324 | on success the pick is the first reservation that matches, or reservations[0] when none does; an error comes from the first entry whose comparison fails, all before it not matching |
| Api.PickAmongLoop | src/pyCityParkingPermit/api.py:321-324 | the for-return loop picks what the specification picks |
| Api.PickReservation | src/pyCityParkingPermit/api.py:291-324 | the method picks exactly what `_pick_reservation_from_permit` specifies |
| Api.PickSpec | src/pyCityParkingPermit/api.py:291-324 | an extraction error or a reservation error passes through; no reservations is "No active reservations in response"; otherwise the pick among them |
| Api.PickIsListed | src/pyCityParkingPermit/api.py:298-324 | a picked reservation is one of the parsed reservations; it matches unless none does, and then it is the first of them |
| Api.AmongIsListed | src/pyCityParkingPermit/api.py:321-324 | a pick among a list is listed; it matches unless none does, and then it is the first entry |
| Api.PickNeedsReservations | src/pyCityParkingPermit/api.py:303-304 | no active reservations is the "No active reservations in response" ParseError |
| Api.UpdateDefaultsSpec | src/pyCityParkingPermit/api.py:228-239 | the type id becomes int(TypeID) or the update fails leaving everything; the code is set only from a string Code; a bad Code fails after the new type id is stored |
| Api.UpdateDefaultsIdempotent | src/pyCityParkingPermit/api.py:228-239 | applying the same permit media twice is applying it once |
| Api.UpdateFromResponseSpec | src/pyCityParkingPermit/api.py:241-243 | a malformed answer fails without touching the defaults; otherwise the first permit media updates them |
| Api.MaybeUpdateSpec | src/pyCityParkingPermit/api.py:245-252 | without permit data the defaults are untouched and nothing fails; otherwise it is the strict update |
| Api.StrictUpdateNeedsPermit | src/pyCityParkingPermit/api.py:241-252 | the same permit-less answer is ignored by the tolerant update and refused by the strict one |
| Api.CreatePayload | src/pyCityParkingPermit/api.py:70-79 | exactly the media fields, DateFrom and LicensePlate, plus DateUntil when an end is given, with the API texts of the dates |
| Api.MediaPayload | src/pyCityParkingPermit/api.py:254-255 | exactly permitMediaTypeID and permitMediaCode with the given values |
| Api.EndPayload | src/pyCityParkingPermit/api.py:106-109 | exactly ReservationID and the two media fields |
| Api.UpsertPayload | src/pyCityParkingPermit/api.py:180-187 | exactly the media fields, licensePlate as a Value/Name object and a null updateLicensePlate |
| Api.RemovePayload | src/pyCityParkingPermit/api.py:163-167 | exactly the media fields, licensePlate as the plate text and name or null |
| Api.PostSpec | src/pyCityParkingPermit/api.py:217-222 | the session after the authenticated POST; its errors pass through; a response is read as JSON |
| Api.FetchPermitSpec | src/pyCityParkingPermit/api.py:216-226 | one POST of `/login/getbase`; a success is the extracted permit and media of the answer, and the stored defaults are exactly those `_update_defaults` sets from that media, which passed |
| Api.FetchPermitOutcomes | src/pyCityParkingPermit/api.py:216-226 | a failed POST or extraction fails leaving the defaults; otherwise the defaults are those of the update, and the fetch fails exactly when the update does, with its error |
| Api.RefreshSpec | src/pyCityParkingPermit/api.py:204-206 | the fetch and its update succeed together and leave both defaults set |
| Api.EnsureMediaDefaultsSpec | src/pyCityParkingPermit/api.py:198-214 | no fetch when both values are given or both defaults are stored; a given value is never overridden; a missing one takes the stored default; failure only from the fetch |
| Api.GetAccountSpec | src/pyCityParkingPermit/api.py:34-37 | fetches the permit once; a fetch error passes through; a fetched permit gives the account built from its media |
| Api.GetZoneSpec | src/pyCityParkingPermit/api.py:39-42 | fetches the permit once; a fetch error passes through; a fetched permit gives the zone built from it at the clock reading |
| Api.ListReservationsSpec | src/pyCityParkingPermit/api.py:44-53 | fetches the permit once; a fetch error passes through; a fetched permit gives the reservations of its media |
| Api.ListFavoritesSpec | src/pyCityParkingPermit/api.py:122-128 | fetches the permit once; a fetch error passes through; a fetched permit gives the favourites of its media |
| Api.CreateReservationSpec | src/pyCityParkingPermit/api.py:55-93 | nothing is posted when the defaults cannot be resolved; otherwise the create payload with the start (now when none is given) is posted, a post error passes through, and the result is the pick from the answer; the defaults are those after resolving |
| Api.EndReservationSpec | src/pyCityParkingPermit/api.py:95-116 | nothing is posted when the defaults cannot be resolved; otherwise the end payload is posted, a post error passes through, the answer updates the defaults strictly, and an answer without permit data fails; a success leaves both defaults set |
| Api.EndPost | src/pyCityParkingPermit/api.py:110-116 | the end POST and the strict update from its answer; an answer without permit data fails |
| Api.UpsertFavoriteSpec | src/pyCityParkingPermit/api.py:178-196 | nothing is posted when the defaults cannot be resolved; otherwise the upsert payload is posted, a post error passes through, and the answer updates the defaults leniently; a success leaves both defaults set |
| Api.DeleteFavoriteSpec | src/pyCityParkingPermit/api.py:158-176 | nothing is posted when the defaults cannot be resolved; otherwise the remove payload is posted, a post error passes through, and the answer updates the defaults leniently; a success leaves both defaults set |
| Api.FavoritePost | src/pyCityParkingPermit/api.py:168-176 | the POST of a favourite change and the lenient update from its answer |
| Api.CreateFavoriteSpec | src/pyCityParkingPermit/api.py:130-135 | succeeds exactly when the upsert does, returning the favourite asked for |
| Api.FirstWithPlate | src/pyCityParkingPermit/api.py:144-148 | the position of the first favourite with the plate, or the length when there is none |
| Api.FindFavorite | src/pyCityParkingPermit/api.py:142-148 | the for-break search finds the first favourite with the plate and its existing name, or nothing without one |
| Api.UpdateFavoriteSpec | src/pyCityParkingPermit/api.py:137-156 | a success returns Favorite(plate, new name) |
| Api.UpdateWithoutMatchCreates | src/pyCityParkingPermit/api.py:150-156 | without a favourite for the plate no remove is issued: updating is listing then creating |
| Api.UpdateWithMatchRemovesFirst | src/pyCityParkingPermit/api.py:150-156 | with one, the first is removed under its existing name, and the upsert follows only after a successful remove |
| Api.CityParkingPermitApi.constructor | src/pyCityParkingPermit/api.py:23-27 | no defaults are stored initially |
| Api.CityParkingPermitApi.UpdateDefaults | src/pyCityParkingPermit/api.py:228-239 | the new defaults and outcome are those of the update specification |
| Api.CityParkingPermitApi.UpdateDefaultsFromResponse | src/pyCityParkingPermit/api.py:241-243 | as its specification |
| Api.CityParkingPermitApi.MaybeUpdateDefaultsFromResponse | src/pyCityParkingPermit/api.py:245-252 | as its specification |
| Api.CityParkingPermitApi.Post | src/pyCityParkingPermit/api.py:81-86 | the session and result of the POST specification |
| Api.CityParkingPermitApi.FetchPermit | src/pyCityParkingPermit/api.py:216-226 | session, defaults and result are those of the fetch specification |
| Api.CityParkingPermitApi.Refresh | src/pyCityParkingPermit/api.py:204-206 | session, defaults and outcome are those of the refresh specification |
| Api.CityParkingPermitApi.EnsureMediaDefaults | src/pyCityParkingPermit/api.py:198-214 | session, defaults and result are those of the specification |
| Api.CityParkingPermitApi.GetAccount | src/pyCityParkingPermit/api.py:34-37 | as its specification |
| Api.CityParkingPermitApi.GetZone | src/pyCityParkingPermit/api.py:39-42 | as its specification, with the clock reading as a parameter |
| Api.CityParkingPermitApi.ListReservations | src/pyCityParkingPermit/api.py:44-53 | as its specification |
| Api.CityParkingPermitApi.CreateReservation | src/pyCityParkingPermit/api.py:55-93 | as its specification, with `datetime.now()` as a parameter |
| Api.CityParkingPermitApi.EndReservation | src/pyCityParkingPermit/api.py:95-116 | as its specification |
| Api.CityParkingPermitApi.DeleteReservation | src/pyCityParkingPermit/api.py:118-120 | ending the reservation with the stored defaults |
| Api.CityParkingPermitApi.ListFavorites | src/pyCityParkingPermit/api.py:122-128 | as its specification |
| Api.CityParkingPermitApi.UpsertFavorite | src/pyCityParkingPermit/api.py:178-196 | as its specification |
| Api.CityParkingPermitApi.DeleteFavorite | src/pyCityParkingPermit/api.py:158-176 | as its specification |
| Api.CityParkingPermitApi.CreateFavorite | src/pyCityParkingPermit/api.py:130-135 | as its specification |
| Api.CityParkingPermitApi.UpdateFavorite | src/pyCityParkingPermit/api.py:137-156 | as its specification, through the for-break search |

## Left out

- The network is left out. aiohttp sessions, timeouts, `response.text()` and `response.release()` are replaced by `Auth.Transport`. It returns one scripted answer per call, with a status, headers and a body that is empty, undecodable or already-decoded JSON. An exhausted script counts as a connection failure.
- `json.loads` is left out. A body arrives already decoded, and a JSON document has no floats.
- `base64.b64encode` of the token is kept symbolic. The Authorization value is `TokenCredential(token)`.
- The user agent is the constant `pyCityParkingPermit/0.0.0`. `importlib.metadata` and `lru_cache` are not modelled.
- Header keys are compared exactly. aiohttp's case-insensitive header lookup is not modelled.
- The `asyncio.Lock` is left out, because it is concurrency. The second flag check in `_ensure_logged_in` is kept, but it can only see the same value when calls do not interleave.
- Logging is left out.
- Clocks become parameters. `datetime.now()` in `Zone.from_mapping` is the `now` of `Models.ZoneOf`, read at UTC. `datetime.now()` in `async_create_reservation` is the `now` of `Api.CreateReservationSpec`.
- Python `int()` is modelled on decimal text only. The model accepts whitespace, a sign and single underscores, but not non-ASCII digits. Float values are not modelled, because decoded JSON has no floats here.
- Numerals.IntRoundTrip: Python 3.11 and later refuse to convert text of more than 4300 digits to `int` (and back), raising ValueError, so `_parse_int` fails on such text while `Numerals.ParseInt` returns its value. The model has unbounded integers and no such limit.
- `Auth.PyStr`: `str(token)` and `str(ErrorMessage)` are modelled for string, integer, boolean and null values only. A list or object value gets a placeholder text instead of Python's repr.
- `datetime.fromisoformat` is modelled on the extended forms only. The model accepts `YYYY-MM-DD` alone or followed by any one separator character and a clock. The clock is `HH:MM` or `HH:MM:SS`. After the seconds may come `.` or `,` and any number of digits; digits past the sixth are dropped. An optional `±HH:MM` offset may follow. The basic (compact) forms, week and ordinal dates, an hour without minutes, and offsets with seconds are not modelled.
- Offsets are modelled in whole minutes. Offsets with seconds are not modelled.
- Error messages that interpolate values (`f"Invalid int for {field}: {value!r}"`) are reduced to the field label. Messages with fixed text, and the `Expected {label} object/list` messages of `_ensure_mapping` and `_ensure_list` with their labels filled in, are kept as written. This includes the two ParkingConnectionError texts, "Request failed" for a request and "Login request failed" for both login calls.
- A timeout passed explicitly as `None` is not modelled. The keyword is either given with a number or absent.
- Api.CityParkingPermitApi.EnsureMediaDefaults: the final "Missing permit media defaults" ParseError cannot be reached. A successful fetch always stores both defaults. The model keeps the check, in `Api.FillIn`, and proves it never fails after a successful refresh.
- Auth.Auth.EnsureLoggedIn: the re-check under the lock is the same test run twice, because there is no interleaving.
