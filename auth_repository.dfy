/**
 * The token store and the HTTP client policy of the authentication
 * repository: the three localStorage entries, the request interceptor that
 * attaches the bearer token, the response interceptor that refreshes once
 * and resends on a 401, and the four remote operations with their message
 * fallbacks.
 *
 * Every state change is first described on values (a `Storage`, a `Client`
 * snapshot of storage, redirect target and sent requests) and the methods of
 * `AuthRepository` are proved to perform exactly that change.
 */
module AuthRepository {
  import opened Js
  import opened Http
  import opened AuthDtos

  const AccessKey := "accessToken"
  const RefreshKey := "refreshToken"
  const ExpiryKey := "tokenExpiration"
  const TokenKeys: set<string> := {AccessKey, RefreshKey, ExpiryKey}

  const LoginUrl := "/auth/login"
  const RegisterUrl := "/auth/register"
  const RefreshUrl := "/auth/refresh-token"
  const VerifyUrl := "/auth/verify-token"
  const LoginPage := "/login"

  const LoginFallback := "Error al iniciar sesión"
  const RegisterFallback := "Error al registrar usuario"
  const RefreshFallback := "Error al refrescar token"
  const VerifyFallback := "Token inválido"
  const NoRefreshTokenMessage := "No hay refresh token"

  // ----- localStorage as a value --------------------------------------------

  type Storage = map<string, string>

  /** `localStorage.getItem(key)`: the string, or null. */
  function Item(st: Storage, key: string): Option<string> {
    if key in st then Some(st[key]) else None
  }

  /** `if (item)` on what getItem returned: present and non-empty. */
  predicate Present(item: Option<string>) {
    item.Some? && item.value != ""
  }

  /** `Date.now() + (expiresIn * 1000)`; None is NaN. */
  function ExpirationTime(now: int, expiresIn: JsValue): Option<int> {
    match ToNumber(expiresIn)
    case None => None
    case Some(seconds) => Some(now + seconds * 1000)
  }

  /** saveTokens: setItem writes each value converted to a string. */
  function Saved(st: Storage, now: int, access: JsValue, refresh: JsValue, expiresIn: JsValue): Storage {
    st[AccessKey := ToStr(access)][RefreshKey := ToStr(refresh)][ExpiryKey := NumberText(ExpirationTime(now, expiresIn))]
  }

  /** clearTokens */
  function Cleared(st: Storage): Storage {
    st - TokenKeys
  }

  /** isTokenExpired: a missing or empty entry counts as expired; otherwise
      `now >= parseInt(entry)`, which is false when the entry reads as NaN. */
  function Expired(st: Storage, now: int): bool {
    match Item(st, ExpiryKey)
    case None => true
    case Some(text) =>
      if text == "" then true
      else match ParseInt(text)
        case None => false
        case Some(at) => now >= at
  }

  lemma SavedReadsBack(st: Storage, now: int, access: JsValue, refresh: JsValue, expiresIn: JsValue)
    ensures Item(Saved(st, now, access, refresh, expiresIn), AccessKey) == Some(ToStr(access))
    ensures Item(Saved(st, now, access, refresh, expiresIn), RefreshKey) == Some(ToStr(refresh))
    ensures Item(Saved(st, now, access, refresh, expiresIn), ExpiryKey) == Some(NumberText(ExpirationTime(now, expiresIn)))
  {
  }

  /** After saving, the token is expired exactly from the computed
      expiration time on, and never when that time is NaN. */
  lemma {:induction false} ExpiredAfterSave(st: Storage, start: int, access: JsValue, refresh: JsValue, expiresIn: JsValue, now: int)
    ensures var at := ExpirationTime(start, expiresIn);
            Expired(Saved(st, start, access, refresh, expiresIn), now) == (at.Some? && now >= at.value)
  {
    var at := ExpirationTime(start, expiresIn);
    var saved := Saved(st, start, access, refresh, expiresIn);
    assert Item(saved, ExpiryKey) == Some(NumberText(at));
    ParseIntOfNumberText(at);
    if at.Some? {
      IntToStringShape(at.value);
    }
  }

  /** Saving at time `start` with `seconds` to live expires exactly from
      `start + seconds * 1000` on. */
  lemma SavedExpiresAt(st: Storage, start: int, access: JsValue, refresh: JsValue, seconds: int, now: int)
    ensures Expired(Saved(st, start, access, refresh, Num(seconds)), now) <==> now >= start + seconds * 1000
  {
    assert ExpirationTime(start, Num(seconds)) == Some(start + seconds * 1000);
    ExpiredAfterSave(st, start, access, refresh, Num(seconds), now);
  }

  /** A lifetime sent as decimal text is multiplied as the number it spells. */
  lemma SavedFromNumericText(st: Storage, start: int, access: JsValue, refresh: JsValue, seconds: int, now: int)
    ensures Expired(Saved(st, start, access, refresh, Str(IntToString(seconds))), now) <==> now >= start + seconds * 1000
  {
    StringToNumberOfIntToString(seconds);
    assert ExpirationTime(start, Str(IntToString(seconds))) == Some(start + seconds * 1000);
    ExpiredAfterSave(st, start, access, refresh, Str(IntToString(seconds)), now);
  }

  /** A fresh token with a positive lifetime is not expired at once; one
      hour after saving it is. */
  lemma FreshTokenLifetime(st: Storage, start: int, access: JsValue, refresh: JsValue)
    ensures !Expired(Saved(st, start, access, refresh, Num(3600)), start)
    ensures !Expired(Saved(st, start, access, refresh, Num(3600)), start + 3599 * 1000)
    ensures Expired(Saved(st, start, access, refresh, Num(3600)), start + 3601 * 1000)
  {
    SavedExpiresAt(st, start, access, refresh, 3600, start);
    SavedExpiresAt(st, start, access, refresh, 3600, start + 3599 * 1000);
    SavedExpiresAt(st, start, access, refresh, 3600, start + 3601 * 1000);
  }

  /** An expiry that is not a number is stored as "NaN" and never expires. */
  lemma SavedNaNNeverExpires(st: Storage, start: int, access: JsValue, refresh: JsValue, expiresIn: JsValue, now: int)
    requires ToNumber(expiresIn).None?
    ensures !Expired(Saved(st, start, access, refresh, expiresIn), now)
  {
    ExpiredAfterSave(st, start, access, refresh, expiresIn, now);
  }

  lemma MissingExpiryIsExpired(st: Storage, now: int)
    requires ExpiryKey !in st
    ensures Expired(st, now)
  {
  }

  /** clearTokens removes the three entries, is idempotent, and leaves an
      expired, token-less store. */
  lemma ClearedIsEmptyAndIdempotent(st: Storage, now: int)
    ensures Item(Cleared(st), AccessKey) == None
    ensures Item(Cleared(st), RefreshKey) == None
    ensures Item(Cleared(st), ExpiryKey) == None
    ensures Expired(Cleared(st), now)
    ensures Cleared(Cleared(st)) == Cleared(st)
  {
  }

  /** Neither operation touches entries other than the three token keys. */
  lemma OnlyTokenKeysChange(st: Storage, now: int, access: JsValue, refresh: JsValue, expiresIn: JsValue, key: string)
    requires key !in TokenKeys
    ensures Item(Saved(st, now, access, refresh, expiresIn), key) == Item(st, key)
    ensures Item(Cleared(st), key) == Item(st, key)
  {
  }

  // ----- the client pipeline as a value -------------------------------------

  /** What the repository can change: the store, the page's location, and
      the requests handed to the transport. */
  datatype Client = Client(storage: Storage, location: Option<string>, outbox: seq<Outgoing>)

  /** The settled promise, the client afterwards, and the request's final
      configuration. */
  datatype Delivery = Delivery(result: AxiosResult, client: Client, request: RequestState)

  /** The request interceptor: `Authorization: Bearer <token>` when a
      non-empty access token is stored; other headers unchanged. */
  function Authorize(headers: map<string, string>, token: Option<string>): (h: map<string, string>)
    ensures Present(token) ==> h == headers[AuthorizationHeader := Bearer(token.value)]
    ensures !Present(token) ==> h == headers
  {
    if Present(token) then headers[AuthorizationHeader := Bearer(token.value)] else headers
  }

  /** The refresh-token answer decoded as `RefreshTokenResponseDto.fromJson(response.data)`. */
  function RefreshReply(answer: Answer): (r: Result<RefreshTokenResponseDto, Thrown>)
    ensures r.Ok? <==> Settle(answer).Resolved? && !Nullish(answer.response.data)
  {
    match Settle(answer)
    case Rejected(t) => Err(t)
    case Resolved(resp) =>
      match RefreshTokenResponseFromJson(resp.data)
      case Err(e) => Err(Raised(e))
      case Ok(d) => Ok(d)
  }

  /** The refresh-token post: the stored refresh token, sent with the
      current bearer token. */
  function RefreshPost(st: Storage): Outgoing
    requires Present(Item(st, RefreshKey))
  {
    Outgoing("POST", RefreshUrl, RefreshTokenRequestToJson(RefreshTokenRequestDto(Item(st, RefreshKey).value)),
             Authorize(DefaultHeaders, Item(st, AccessKey)))
  }

  datatype ProcessRun = ProcessRun(outcome: Result<RefreshTokenResponseDto, Thrown>, client: Client)

  /** refreshTokenProcess with its request built from the imported DTO and
      the new tokens read from the response body. */
  function RefreshProcess(c: Client, now: int, answer: Answer): (run: ProcessRun)
    ensures !Present(Item(c.storage, RefreshKey)) ==> run.client == c && run.outcome.Err?
    ensures run.outcome.Ok? ==> run.client.storage == Saved(c.storage, now, run.outcome.value.accessToken,
                                                           run.outcome.value.refreshToken, run.outcome.value.expiresIn)
    ensures run.outcome.Err? ==> run.client.storage == c.storage
    ensures run.client.location == c.location
  {
    var token := Item(c.storage, RefreshKey);
    if !Present(token) then
      ProcessRun(Err(Raised(JsError(PlainError, NoRefreshTokenMessage))), c)
    else
      var sent := c.(outbox := c.outbox + [RefreshPost(c.storage)]);
      match RefreshReply(answer)
      case Err(t) => ProcessRun(Err(t), sent)
      case Ok(d) => ProcessRun(Ok(d), sent.(storage := Saved(c.storage, now, d.accessToken, d.refreshToken, d.expiresIn)))
  }

  /** The response interceptor's error handler for a request whose
      configuration is `req`. */
  function AfterError(c: Client, now: int, req: RequestState, error: Thrown, ex: Exchange): Delivery {
    if Status(error) != Some(401) || req.retry then
      Delivery(Rejected(error), c, req)
    else
      var marked := req.(retry := true);
      if !Present(Item(c.storage, RefreshKey)) then
        Delivery(Rejected(error), c, marked)
      else
        var run := RefreshProcess(c, now, ex.refresh);
        match run.outcome
        case Err(refreshError) =>
          Delivery(Rejected(refreshError), run.client.(storage := Cleared(run.client.storage), location := Some(LoginPage)), marked)
        case Ok(_) =>
          var token := Item(run.client.storage, AccessKey);
          var relabelled := marked.(headers := marked.headers[AuthorizationHeader := Bearer(ToStr(StoredValue(token)))]);
          var resent := relabelled.(headers := Authorize(relabelled.headers, token));
          Delivery(Settle(ex.resend), run.client.(outbox := run.client.outbox + [OnWire(resent)]), resent)
  }

  /** `this.axiosInstance(config)` for a fresh request: the request
      interceptor, the transport, and on failure the response interceptor. */
  function Pipeline(c: Client, now: int, verb: string, url: string, body: JsValue, ex: Exchange): Delivery {
    var req := RequestState(verb, url, body, Authorize(DefaultHeaders, Item(c.storage, AccessKey)), false);
    var sent := c.(outbox := c.outbox + [OnWire(req)]);
    match Settle(ex.first)
    case Resolved(resp) => Delivery(Resolved(resp), sent, req)
    case Rejected(error) => AfterError(sent, now, req, error, ex)
  }

  // ----- properties of the retry policy ---------------------------------------

  /** A retried request is rejected with its own error and changes nothing;
      a first 401 marks the request before anything else happens. */
  lemma RetryFlagPolicy(c: Client, now: int, req: RequestState, error: Thrown, ex: Exchange)
    ensures req.retry ==> AfterError(c, now, req, error, ex) == Delivery(Rejected(error), c, req)
    ensures Status(error) == Some(401) ==> AfterError(c, now, req, error, ex).request.retry
    ensures Status(error) != Some(401) ==> AfterError(c, now, req, error, ex) == Delivery(Rejected(error), c, req)
  {
  }

  /** A 401 without a stored refresh token rejects the original error and
      leaves the store, the location and the outbox alone. */
  lemma UnauthorizedWithoutRefreshToken(c: Client, now: int, req: RequestState, error: Thrown, ex: Exchange)
    requires Status(error) == Some(401) && !req.retry
    requires !Present(Item(c.storage, RefreshKey))
    ensures AfterError(c, now, req, error, ex).result == Rejected(error)
    ensures AfterError(c, now, req, error, ex).client == c
  {
  }

  /** A refresh that throws clears every token, redirects to the login page
      and rejects with the refresh error. */
  lemma RefreshFailureLogsOut(c: Client, now: int, req: RequestState, error: Thrown, ex: Exchange)
    requires Status(error) == Some(401) && !req.retry
    requires Present(Item(c.storage, RefreshKey))
    requires RefreshReply(ex.refresh).Err?
    ensures AfterError(c, now, req, error, ex).result == Rejected(RefreshReply(ex.refresh).error)
    ensures AfterError(c, now, req, error, ex).client.storage == Cleared(c.storage)
    ensures AfterError(c, now, req, error, ex).client.location == Some(LoginPage)
    ensures AfterError(c, now, req, error, ex).client.outbox == c.outbox + [RefreshPost(c.storage)]
  {
  }

  /** A refresh that succeeds stores the new tokens and resends the request
      once, with the new bearer token; its answer is final. */
  lemma RefreshSuccessResendsOnce(c: Client, now: int, req: RequestState, error: Thrown, ex: Exchange)
    requires Status(error) == Some(401) && !req.retry
    requires Present(Item(c.storage, RefreshKey))
    requires RefreshReply(ex.refresh).Ok?
    ensures var d := RefreshReply(ex.refresh).value;
            var st := Saved(c.storage, now, d.accessToken, d.refreshToken, d.expiresIn);
            && AfterError(c, now, req, error, ex).client.storage == st
            && AfterError(c, now, req, error, ex).client.location == c.location
            && AfterError(c, now, req, error, ex).client.outbox
               == c.outbox + [RefreshPost(c.storage),
                              Outgoing(req.verb, req.url, req.body, req.headers[AuthorizationHeader := Bearer(ToStr(d.accessToken))])]
            && AfterError(c, now, req, error, ex).result == Settle(ex.resend)
  {
    var d := RefreshReply(ex.refresh).value;
    var st := Saved(c.storage, now, d.accessToken, d.refreshToken, d.expiresIn);
    SavedReadsBack(c.storage, now, d.accessToken, d.refreshToken, d.expiresIn);
    var run := RefreshProcess(c, now, ex.refresh);
    assert run.outcome == Ok(d) && run.client == Client(st, c.location, c.outbox + [RefreshPost(c.storage)]);
    var token := Item(st, AccessKey);
    assert token == Some(ToStr(d.accessToken));
    var marked := req.(retry := true);
    var relabelled := marked.(headers := marked.headers[AuthorizationHeader := Bearer(ToStr(StoredValue(token)))]);
    assert relabelled.headers == req.headers[AuthorizationHeader := Bearer(ToStr(d.accessToken))];
    assert Authorize(relabelled.headers, token) == relabelled.headers;
  }

  /** One call sends at most three requests: the request, one refresh post,
      and one resend. */
  lemma PipelineSendsAtMostThree(c: Client, now: int, verb: string, url: string, body: JsValue, ex: Exchange)
    ensures var out := Pipeline(c, now, verb, url, body, ex).client.outbox;
            && |c.outbox| + 1 <= |out| <= |c.outbox| + 3
            && out[..|c.outbox|] == c.outbox
            && out[|c.outbox|] == Outgoing(verb, url, body, Authorize(DefaultHeaders, Item(c.storage, AccessKey)))
  {
  }

  // ----- remote operations as values -----------------------------------------

  /** How each remote operation turns the settled call into its result or
      the message of the Error it throws. */
  function Decoded<T>(a: AxiosResult, decode: JsValue -> Result<T, JsError>, fallback: string): (r: Result<T, string>)
    requires fallback != ""
    ensures r.Err? ==> r.error != ""
    ensures a.Rejected? ==> r == Err(FailureMessage(a.thrown, fallback))
    ensures a.Resolved? ==> (r.Ok? <==> decode(a.response.data).Ok?)
    ensures a.Resolved? && r.Ok? ==> r.value == decode(a.response.data).value
    ensures a.Resolved? && r.Err? ==> r.error == fallback
  {
    match a
    case Rejected(t) => Err(FailureMessage(t, fallback))
    case Resolved(resp) =>
      match decode(resp.data)
      case Err(e) => Err(FailureMessage(Raised(e), fallback))
      case Ok(v) => Ok(v)
  }

  /** Each operation fails with the server's message when it has one and
      with its own fallback otherwise. */
  lemma OperationMessages(t: Thrown)
    ensures Truthy(ServerMessage(t)) ==>
              && Decoded(Rejected(t), LoginResponseFromJson, LoginFallback) == Err(ToStr(ServerMessage(t)))
              && Decoded(Rejected(t), RegisterResponseFromJson, RegisterFallback) == Err(ToStr(ServerMessage(t)))
              && Decoded(Rejected(t), RefreshTokenResponseFromJson, RefreshFallback) == Err(ToStr(ServerMessage(t)))
              && Decoded(Rejected(t), VerifyTokenResponseFromJson, VerifyFallback) == Err(ToStr(ServerMessage(t)))
    ensures !Truthy(ServerMessage(t)) ==>
              && Decoded(Rejected(t), LoginResponseFromJson, LoginFallback) == Err(LoginFallback)
              && Decoded(Rejected(t), RegisterResponseFromJson, RegisterFallback) == Err(RegisterFallback)
              && Decoded(Rejected(t), RefreshTokenResponseFromJson, RefreshFallback) == Err(RefreshFallback)
              && Decoded(Rejected(t), VerifyTokenResponseFromJson, VerifyFallback) == Err(VerifyFallback)
  {
  }

  // ----- refreshTokenProcess as written ---------------------------------------

  /** refreshTokenProcess as written: line 99 names RefreshTokenRequestDto,
      which the file does not import, so with a refresh token stored it
      throws a ReferenceError before anything is posted or saved. */
  function RefreshProcessAsWritten(c: Client): (run: ProcessRun)
    ensures run.outcome.Err? && run.client == c
    ensures Present(Item(c.storage, RefreshKey)) ==> run.outcome.error == Raised(JsError(ReferenceError, "RefreshTokenRequestDto is not defined"))
  {
    if !Present(Item(c.storage, RefreshKey)) then
      ProcessRun(Err(Raised(JsError(PlainError, NoRefreshTokenMessage))), c)
    else
      ProcessRun(Err(Raised(JsError(ReferenceError, "RefreshTokenRequestDto is not defined"))), c)
  }

  /** The response interceptor's error handler with refreshTokenProcess as
      written: the ReferenceError lands in its `catch`. */
  function AfterErrorAsWritten(c: Client, req: RequestState, error: Thrown): Delivery {
    if Status(error) != Some(401) || req.retry then
      Delivery(Rejected(error), c, req)
    else
      var marked := req.(retry := true);
      if !Present(Item(c.storage, RefreshKey)) then
        Delivery(Rejected(error), c, marked)
      else
        var run := RefreshProcessAsWritten(c);
        Delivery(Rejected(run.outcome.error), run.client.(storage := Cleared(run.client.storage), location := Some(LoginPage)), marked)
  }

  /** As written, every first 401 while a refresh token is stored logs the
      user out: nothing is posted or resent, all tokens are removed, the page
      goes to `/login`, and the call rejects with the ReferenceError. */
  lemma AsWrittenUnauthorizedLogsOut(c: Client, req: RequestState, error: Thrown)
    requires Status(error) == Some(401) && !req.retry
    requires Present(Item(c.storage, RefreshKey))
    ensures var d := AfterErrorAsWritten(c, req, error);
            && d.result == Rejected(Raised(JsError(ReferenceError, "RefreshTokenRequestDto is not defined")))
            && d.client == Client(Cleared(c.storage), Some(LoginPage), c.outbox)
            && d.request.retry
  {
  }

  /** A refresh the server grants still fails as written. */
  lemma MissingImportDiscrepancy(now: int)
    ensures var c := Client(map[RefreshKey := "r1"], None, []);
            var answer := Answered(HttpResponse(200, RefreshTokenResponseBody(Str("a2"), Str("r2"), Num(3600))));
            && RefreshProcessAsWritten(c).outcome.Err?
            && RefreshProcess(c, now, answer).outcome.Ok?
            && Item(RefreshProcess(c, now, answer).client.storage, AccessKey) == Some("a2")
  {
  }

  /** The HTTP client's response object, which line 102 reads the tokens off:
      its own keys are data, status, statusText, headers, config, request. */
  function RawResponseObject(resp: HttpResponse): JsValue {
    Obj(map["data" := resp.data, "status" := Num(resp.status), "statusText" := Str(""),
            "headers" := Obj(map[]), "config" := Obj(map[]), "request" := Obj(map[])])
  }

  /** refreshTokenProcess with the import present but line 102 as written. */
  function RefreshProcessRawResponse(c: Client, now: int, answer: Answer): (run: ProcessRun)
    ensures Present(Item(c.storage, RefreshKey)) && Settle(answer).Resolved? ==>
              run.client.storage == Saved(c.storage, now, Undefined, Undefined, Undefined)
  {
    var token := Item(c.storage, RefreshKey);
    if !Present(token) then
      ProcessRun(Err(Raised(JsError(PlainError, NoRefreshTokenMessage))), c)
    else
      var sent := c.(outbox := c.outbox + [RefreshPost(c.storage)]);
      match Settle(answer)
      case Rejected(t) => ProcessRun(Err(t), sent)
      case Resolved(resp) =>
        var raw := RawResponseObject(resp);
        var d := RefreshTokenResponseDto(OptProp(raw, "accessToken"), OptProp(raw, "refreshToken"), OptProp(raw, "expiresIn"));
        ProcessRun(Ok(d), sent.(storage := Saved(c.storage, now, d.accessToken, d.refreshToken, d.expiresIn)))
  }

  /** Reading the raw response stores "undefined" tokens that never expire
      and are sent as `Bearer undefined`. */
  lemma RawResponseDiscrepancy(c: Client, now: int, later: int, access: string, refresh: string, seconds: int)
    requires Present(Item(c.storage, RefreshKey))
    ensures var answer := Answered(HttpResponse(200, RefreshTokenResponseBody(Str(access), Str(refresh), Num(seconds))));
            var wrong := RefreshProcessRawResponse(c, now, answer).client.storage;
            && Item(wrong, AccessKey) == Some("undefined")
            && Item(wrong, RefreshKey) == Some("undefined")
            && !Expired(wrong, later)
            && Authorize(DefaultHeaders, Item(wrong, AccessKey))[AuthorizationHeader] == "Bearer undefined"
  {
    var answer := Answered(HttpResponse(200, RefreshTokenResponseBody(Str(access), Str(refresh), Num(seconds))));
    var wrong := RefreshProcessRawResponse(c, now, answer).client.storage;
    assert wrong == Saved(c.storage, now, Undefined, Undefined, Undefined);
    SavedReadsBack(c.storage, now, Undefined, Undefined, Undefined);
    SavedNaNNeverExpires(c.storage, now, Undefined, Undefined, Undefined, later);
  }

  /** Reading the body, as corrected, stores the service's tokens and their
      expiry. */
  lemma RefreshProcessSavesBody(c: Client, now: int, later: int, access: string, refresh: string, seconds: int)
    requires Present(Item(c.storage, RefreshKey))
    ensures var answer := Answered(HttpResponse(200, RefreshTokenResponseBody(Str(access), Str(refresh), Num(seconds))));
            var right := RefreshProcess(c, now, answer).client.storage;
            && Item(right, AccessKey) == Some(access)
            && Item(right, RefreshKey) == Some(refresh)
            && (Expired(right, later) <==> later >= now + seconds * 1000)
  {
    var answer := Answered(HttpResponse(200, RefreshTokenResponseBody(Str(access), Str(refresh), Num(seconds))));
    RefreshTokenResponseDecodes(Str(access), Str(refresh), Num(seconds));
    assert RefreshReply(answer) == Ok(RefreshTokenResponseDto(Str(access), Str(refresh), Num(seconds)));
    var right := RefreshProcess(c, now, answer).client.storage;
    assert right == Saved(c.storage, now, Str(access), Str(refresh), Num(seconds));
    SavedReadsBack(c.storage, now, Str(access), Str(refresh), Num(seconds));
    SavedExpiresAt(c.storage, now, Str(access), Str(refresh), seconds, later);
  }

  // ----- the repository object -----------------------------------------------

  class AuthRepository {
    var storage: Storage
    var location: Option<string>
    var outbox: seq<Outgoing>

    constructor(storage: Storage)
      ensures Snapshot() == Client(storage, None, [])
    {
      this.storage := storage;
      location := None;
      outbox := [];
    }

    function Snapshot(): Client
      reads this
    {
      Client(storage, location, outbox)
    }

    /** getAccessToken */
    function GetAccessToken(): Option<string>
      reads this
    {
      Item(storage, AccessKey)
    }

    /** getRefreshToken */
    function GetRefreshToken(): Option<string>
      reads this
    {
      Item(storage, RefreshKey)
    }

    /** isTokenExpired, with the clock passed in. */
    function IsTokenExpired(now: int): (e: bool)
      reads this
      ensures ExpiryKey !in storage || storage[ExpiryKey] == "" ==> e
      ensures ExpiryKey in storage && storage[ExpiryKey] != "" && ParseInt(storage[ExpiryKey]).Some? ==>
                (e <==> now >= ParseInt(storage[ExpiryKey]).value)
      ensures ExpiryKey in storage && storage[ExpiryKey] != "" && ParseInt(storage[ExpiryKey]).None? ==> !e
    {
      Expired(storage, now)
    }

    /** saveTokens, with the clock passed in. */
    method SaveTokens(now: int, access: JsValue, refresh: JsValue, expiresIn: JsValue)
      modifies this`storage
      ensures storage == Saved(old(storage), now, access, refresh, expiresIn)
      ensures GetAccessToken() == Some(ToStr(access)) && GetRefreshToken() == Some(ToStr(refresh))
    {
      var expirationTime := ExpirationTime(now, expiresIn);
      storage := storage[AccessKey := ToStr(access)];
      storage := storage[RefreshKey := ToStr(refresh)];
      storage := storage[ExpiryKey := NumberText(expirationTime)];
    }

    /** clearTokens */
    method ClearTokens()
      modifies this`storage
      ensures storage == Cleared(old(storage))
      ensures GetAccessToken() == None && GetRefreshToken() == None
    {
      storage := storage - {AccessKey};
      storage := storage - {RefreshKey};
      storage := storage - {ExpiryKey};
    }

    /** The request interceptor. */
    method AuthorizeRequest(req: Request)
      modifies req`headers
      ensures req.headers == Authorize(old(req.headers), GetAccessToken())
    {
      var token := GetAccessToken();
      if Present(token) {
        req.headers := req.headers[AuthorizationHeader := Bearer(token.value)];
      }
    }

    /** Hands the request, as configured now, to the transport. */
    method Transmit(req: Request)
      modifies this`outbox
      ensures outbox == old(outbox) + [OnWire(req.State())]
    {
      outbox := outbox + [Outgoing(req.verb, req.url, req.body, req.headers)];
    }

    /** refreshTokenProcess, corrected: see RefreshProcess. */
    method RefreshTokenProcess(now: int, answer: Answer) returns (r: Result<RefreshTokenResponseDto, Thrown>)
      modifies this`storage, this`outbox
      ensures ProcessRun(r, Snapshot()) == RefreshProcess(old(Snapshot()), now, answer)
    {
      var token := GetRefreshToken();
      if !Present(token) {
        return Err(Raised(JsError(PlainError, NoRefreshTokenMessage)));
      }
      var request := new Request("POST", RefreshUrl, RefreshTokenRequestToJson(RefreshTokenRequestDto(token.value)));
      AuthorizeRequest(request);
      Transmit(request);
      var settled := Settle(answer);
      if settled.Rejected? {
        return Err(settled.thrown);
      }
      var decoded := RefreshTokenResponseFromJson(settled.response.data);
      if decoded.Err? {
        return Err(Raised(decoded.error));
      }
      var d := decoded.value;
      SaveTokens(now, d.accessToken, d.refreshToken, d.expiresIn);
      r := Ok(d);
    }

    /** The response interceptor's error handler. */
    method OnResponseError(now: int, req: Request, error: Thrown, ex: Exchange) returns (r: AxiosResult)
      modifies this, req
      ensures Delivery(r, Snapshot(), req.State()) == AfterError(old(Snapshot()), now, old(req.State()), error, ex)
      decreases if req.retry then 0 else 1
    {
      if Status(error) == Some(401) && !req.retry {
        req.retry := true;
        var refreshToken := GetRefreshToken();
        if Present(refreshToken) {
          var refreshed := RefreshTokenProcess(now, ex.refresh);
          if refreshed.Err? {
            ClearTokens();
            location := Some(LoginPage);
            return Rejected(refreshed.error);
          }
          var token := GetAccessToken();
          req.headers := req.headers[AuthorizationHeader := Bearer(ToStr(StoredValue(token)))];
          // resend: the request interceptor, the transport, the response interceptor
          AuthorizeRequest(req);
          Transmit(req);
          var settled := Settle(ex.resend);
          if settled.Resolved? {
            return settled;
          }
          r := OnResponseError(now, req, settled.thrown, ex);
          return;
        }
      }
      r := Rejected(error);
    }

    /** `this.axiosInstance(config)` for a new request. */
    method Send(now: int, verb: string, url: string, body: JsValue, ex: Exchange) returns (r: AxiosResult)
      modifies this
      ensures var d := Pipeline(old(Snapshot()), now, verb, url, body, ex);
              r == d.result && Snapshot() == d.client
    {
      var req := new Request(verb, url, body);
      AuthorizeRequest(req);
      Transmit(req);
      var settled := Settle(ex.first);
      if settled.Resolved? {
        return settled;
      }
      r := OnResponseError(now, req, settled.thrown, ex);
    }

    /** login */
    method Login(now: int, request: LoginRequestDto, ex: Exchange) returns (r: Result<LoginResponseDto, string>)
      modifies this
      ensures var d := Pipeline(old(Snapshot()), now, "POST", LoginUrl, LoginRequestToJson(request), ex);
              r == Decoded(d.result, LoginResponseFromJson, LoginFallback) && Snapshot() == d.client
    {
      var response := Send(now, "POST", LoginUrl, LoginRequestToJson(request), ex);
      r := Decoded(response, LoginResponseFromJson, LoginFallback);
    }

    /** register */
    method Register(now: int, request: RegisterRequestDto, ex: Exchange) returns (r: Result<RegisterResponseDto, string>)
      modifies this
      ensures var d := Pipeline(old(Snapshot()), now, "POST", RegisterUrl, RegisterRequestToJson(request), ex);
              r == Decoded(d.result, RegisterResponseFromJson, RegisterFallback) && Snapshot() == d.client
    {
      var response := Send(now, "POST", RegisterUrl, RegisterRequestToJson(request), ex);
      r := Decoded(response, RegisterResponseFromJson, RegisterFallback);
    }

    /** refreshToken */
    method RefreshToken(now: int, request: RefreshTokenRequestDto, ex: Exchange) returns (r: Result<RefreshTokenResponseDto, string>)
      modifies this
      ensures var d := Pipeline(old(Snapshot()), now, "POST", RefreshUrl, RefreshTokenRequestToJson(request), ex);
              r == Decoded(d.result, RefreshTokenResponseFromJson, RefreshFallback) && Snapshot() == d.client
    {
      var response := Send(now, "POST", RefreshUrl, RefreshTokenRequestToJson(request), ex);
      r := Decoded(response, RefreshTokenResponseFromJson, RefreshFallback);
    }

    /** verifyToken */
    method VerifyToken(now: int, ex: Exchange) returns (r: Result<VerifyTokenResponseDto, string>)
      modifies this
      ensures var d := Pipeline(old(Snapshot()), now, "GET", VerifyUrl, Undefined, ex);
              r == Decoded(d.result, VerifyTokenResponseFromJson, VerifyFallback) && Snapshot() == d.client
    {
      var response := Send(now, "GET", VerifyUrl, Undefined, ex);
      r := Decoded(response, VerifyTokenResponseFromJson, VerifyFallback);
    }
  }
}
