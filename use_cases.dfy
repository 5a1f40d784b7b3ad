/**
 * The four use cases: each calls one operation of the repository and turns
 * what it returns or throws into a result envelope `{success, data, error}`;
 * login and refresh also save the returned tokens, and refresh and verify
 * clear them when they fail.
 *
 * As in the repository, each use case is first described on values (`...Run`
 * functions over a `Client` snapshot) and its `Execute` method is proved to
 * do exactly that to the repository it was built with.
 */
module UseCases {
  import opened Js
  import opened Http
  import opened AuthDtos
  import opened AuthRepository

  const NoRefreshTokenAvailable := "No hay refresh token disponible"

  /** `{ success, data, error }`, with `null` as None. */
  datatype Envelope<T> = Envelope(success: bool, data: Option<T>, error: Option<string>)

  /** An envelope and the client after the use case. */
  datatype Run<T> = Run(envelope: Envelope<T>, client: Client)

  /** `error.message || fallback` */
  function Caught(message: string, fallback: string): string {
    if message != "" then message else fallback
  }

  /** The shape of the login, refresh and register envelopes: success with
      data and no error, or failure with no data and a non-empty error. */
  predicate Uniform<T>(e: Envelope<T>) {
    if e.success then e.data.Some? && e.error.None? else e.data.None? && e.error.Some? && e.error.value != ""
  }

  /** `{ isValid: false, user: null }` */
  const NotValid := VerifyTokenResponseDto(Bool(false), Null)

  // ----- login -------------------------------------------------------------

  function LoginCall(c: Client, now: int, cedula: string, password: string, ex: Exchange): Delivery {
    Pipeline(c, now, "POST", LoginUrl, LoginRequestToJson(LoginRequestDto(cedula, password)), ex)
  }

  /** LoginUseCase.execute */
  function LoginRun(c: Client, now: int, cedula: string, password: string, ex: Exchange): Run<LoginResponseDto> {
    var d := LoginCall(c, now, cedula, password, ex);
    match Decoded(d.result, LoginResponseFromJson, LoginFallback)
    case Err(m) => Run(Envelope(false, None, Some(Caught(m, LoginFallback))), d.client)
    case Ok(response) =>
      Run(Envelope(true, Some(response), None),
          d.client.(storage := Saved(d.client.storage, now, response.accessToken, response.refreshToken, response.expiresIn)))
  }

  /** Success saves the returned tokens and carries the response; failure
      carries the repository's message and neither saves nor clears. */
  lemma LoginOutcome(c: Client, now: int, cedula: string, password: string, ex: Exchange)
    ensures var run := LoginRun(c, now, cedula, password, ex);
            var d := LoginCall(c, now, cedula, password, ex);
            var reply := Decoded(d.result, LoginResponseFromJson, LoginFallback);
            && Uniform(run.envelope)
            && (run.envelope.success <==> reply.Ok?)
            && run.client.outbox == d.client.outbox && run.client.location == d.client.location
            && (run.envelope.success ==>
                  && run.envelope.data == Some(reply.value)
                  && run.client.storage == Saved(d.client.storage, now, reply.value.accessToken,
                                                 reply.value.refreshToken, reply.value.expiresIn))
            && (!run.envelope.success ==> run.envelope.error == Some(reply.error) && run.client == d.client)
  {
  }

  /** The first request of a login is the credentials, in that order, posted
      to the login endpoint. */
  lemma LoginPostsCredentials(c: Client, now: int, cedula: string, password: string, ex: Exchange)
    ensures var out := LoginCall(c, now, cedula, password, ex).client.outbox;
            |out| > |c.outbox| &&
            out[|c.outbox|] == Outgoing("POST", LoginUrl, Obj(map["cedula" := Str(cedula), "password" := Str(password)]),
                                        Authorize(DefaultHeaders, Item(c.storage, AccessKey)))
  {
    PipelineSendsAtMostThree(c, now, "POST", LoginUrl, LoginRequestToJson(LoginRequestDto(cedula, password)), ex);
  }

  /** A granted login stores the service's tokens and starts a session that
      is not yet expired. */
  lemma LoginGranted(c: Client, now: int, cedula: string, password: string, access: string, refresh: string, seconds: int, ex: Exchange)
    requires seconds > 0
    requires ex.first == Answered(HttpResponse(200, LoginResponseBody(Str(access), Str(refresh), Num(seconds))))
    ensures var run := LoginRun(c, now, cedula, password, ex);
            && run.envelope == Envelope(true, Some(LoginResponseDto(Str(access), Str(refresh), Num(seconds), Undefined)), None)
            && Item(run.client.storage, AccessKey) == Some(access)
            && Item(run.client.storage, RefreshKey) == Some(refresh)
            && !Expired(run.client.storage, now)
  {
    var d := LoginCall(c, now, cedula, password, ex);
    LoginResponseDecodes(Str(access), Str(refresh), Num(seconds));
    var st := d.client.storage;
    SavedReadsBack(st, now, Str(access), Str(refresh), Num(seconds));
    SavedExpiresAt(st, now, Str(access), Str(refresh), seconds, now);
  }

  /** A refused login (any status but 401) reports the server's message. */
  lemma LoginRefused(c: Client, now: int, cedula: string, password: string, status: int, message: string, ex: Exchange)
    requires !IsSuccessStatus(status) && status != 401 && message != ""
    requires ex.first == Answered(HttpResponse(status, Obj(map["message" := Str(message)])))
    ensures var run := LoginRun(c, now, cedula, password, ex);
            && run.envelope == Envelope(false, None, Some(message))
            && run.client.storage == c.storage
  {
  }

  class LoginUseCase {
    const repository: AuthRepository

    constructor(repository: AuthRepository)
      ensures this.repository == repository
    {
      this.repository := repository;
    }

    method Execute(now: int, cedula: string, password: string, ex: Exchange) returns (e: Envelope<LoginResponseDto>)
      modifies repository
      ensures Run(e, repository.Snapshot()) == LoginRun(old(repository.Snapshot()), now, cedula, password, ex)
    {
      var request := LoginRequestDto(cedula, password);
      var response := repository.Login(now, request, ex);
      if response.Err? {
        return Envelope(false, None, Some(Caught(response.error, LoginFallback)));
      }
      repository.SaveTokens(now, response.value.accessToken, response.value.refreshToken, response.value.expiresIn);
      e := Envelope(true, Some(response.value), None);
    }
  }

  // ----- refresh -----------------------------------------------------------

  function RefreshCall(c: Client, now: int, ex: Exchange): Delivery
    requires Present(Item(c.storage, RefreshKey))
  {
    Pipeline(c, now, "POST", RefreshUrl, RefreshTokenRequestToJson(RefreshTokenRequestDto(Item(c.storage, RefreshKey).value)), ex)
  }

  /** RefreshTokenUseCase.execute */
  function RefreshRun(c: Client, now: int, ex: Exchange): Run<RefreshTokenResponseDto> {
    if !Present(Item(c.storage, RefreshKey)) then
      Run(Envelope(false, None, Some(Caught(NoRefreshTokenAvailable, RefreshFallback))), c.(storage := Cleared(c.storage)))
    else
      var d := RefreshCall(c, now, ex);
      match Decoded(d.result, RefreshTokenResponseFromJson, RefreshFallback)
      case Err(m) => Run(Envelope(false, None, Some(Caught(m, RefreshFallback))), d.client.(storage := Cleared(d.client.storage)))
      case Ok(response) =>
        Run(Envelope(true, Some(response), None),
            d.client.(storage := Saved(d.client.storage, now, response.accessToken, response.refreshToken, response.expiresIn)))
  }

  /** Without a refresh token nothing is sent, the store is cleared and the
      failure names the missing token. */
  lemma RefreshWithoutToken(c: Client, now: int, ex: Exchange)
    requires !Present(Item(c.storage, RefreshKey))
    ensures RefreshRun(c, now, ex) == Run(Envelope(false, None, Some(NoRefreshTokenAvailable)), Client(Cleared(c.storage), c.location, c.outbox))
  {
  }

  /** Refresh fails closed: every failure leaves no token behind, and a
      success stores exactly what the service returned. With a refresh token
      stored, success is exactly the repository's reply decoding, and the
      envelope carries that reply or its message. */
  lemma RefreshOutcome(c: Client, now: int, ex: Exchange)
    ensures var run := RefreshRun(c, now, ex);
            && Uniform(run.envelope)
            && (Present(Item(c.storage, RefreshKey)) ==>
                  var d := RefreshCall(c, now, ex);
                  var reply := Decoded(d.result, RefreshTokenResponseFromJson, RefreshFallback);
                  && (run.envelope.success <==> reply.Ok?)
                  && run.client.outbox == d.client.outbox && run.client.location == d.client.location
                  && (run.envelope.success ==>
                        && run.envelope.data == Some(reply.value)
                        && run.client.storage == Saved(d.client.storage, now, reply.value.accessToken,
                                                       reply.value.refreshToken, reply.value.expiresIn))
                  && (!run.envelope.success ==>
                        run.envelope.error == Some(reply.error) && run.client.storage == Cleared(d.client.storage)))
            && (!run.envelope.success ==>
                  Item(run.client.storage, AccessKey) == None && Item(run.client.storage, RefreshKey) == None
                  && Expired(run.client.storage, now))
            && (run.envelope.success ==>
                  var r := run.envelope.data.value;
                  Item(run.client.storage, AccessKey) == Some(ToStr(r.accessToken))
                  && Item(run.client.storage, RefreshKey) == Some(ToStr(r.refreshToken)))
  {
    var run := RefreshRun(c, now, ex);
    if Present(Item(c.storage, RefreshKey)) {
      var d := RefreshCall(c, now, ex);
      ClearedIsEmptyAndIdempotent(d.client.storage, now);
      if run.envelope.success {
        var r := run.envelope.data.value;
        SavedReadsBack(d.client.storage, now, r.accessToken, r.refreshToken, r.expiresIn);
      }
    } else {
      ClearedIsEmptyAndIdempotent(c.storage, now);
    }
  }

  /** The refresh request carries the stored refresh token. */
  lemma RefreshPostsStoredToken(c: Client, now: int, ex: Exchange)
    requires Present(Item(c.storage, RefreshKey))
    ensures var out := RefreshCall(c, now, ex).client.outbox;
            |out| > |c.outbox| &&
            out[|c.outbox|].body == Obj(map["refreshToken" := Str(c.storage[RefreshKey])])
  {
    PipelineSendsAtMostThree(c, now, "POST", RefreshUrl, RefreshTokenRequestToJson(RefreshTokenRequestDto(Item(c.storage, RefreshKey).value)), ex);
  }

  class RefreshTokenUseCase {
    const repository: AuthRepository

    constructor(repository: AuthRepository)
      ensures this.repository == repository
    {
      this.repository := repository;
    }

    method Execute(now: int, ex: Exchange) returns (e: Envelope<RefreshTokenResponseDto>)
      modifies repository
      ensures Run(e, repository.Snapshot()) == RefreshRun(old(repository.Snapshot()), now, ex)
    {
      var refreshToken := repository.GetRefreshToken();
      var message: string;
      if !Present(refreshToken) {
        message := NoRefreshTokenAvailable;
      } else {
        var request := RefreshTokenRequestDto(refreshToken.value);
        var response := repository.RefreshToken(now, request, ex);
        if response.Ok? {
          repository.SaveTokens(now, response.value.accessToken, response.value.refreshToken, response.value.expiresIn);
          return Envelope(true, Some(response.value), None);
        }
        message := response.error;
      }
      repository.ClearTokens();
      e := Envelope(false, None, Some(Caught(message, RefreshFallback)));
    }
  }

  // ----- verify ------------------------------------------------------------

  function VerifyCall(c: Client, now: int, ex: Exchange): Delivery {
    Pipeline(c, now, "GET", VerifyUrl, Undefined, ex)
  }

  /** VerifyTokenUseCase.execute */
  function VerifyRun(c: Client, now: int, ex: Exchange): Run<VerifyTokenResponseDto> {
    if !Present(Item(c.storage, AccessKey)) then
      Run(Envelope(false, Some(NotValid), None), c)
    else
      var d := VerifyCall(c, now, ex);
      match Decoded(d.result, VerifyTokenResponseFromJson, VerifyFallback)
      case Err(m) => Run(Envelope(false, Some(NotValid), Some(Caught(m, VerifyFallback))), d.client.(storage := Cleared(d.client.storage)))
      case Ok(response) => Run(Envelope(true, Some(response), None), d.client)
  }

  /** Without an access token nothing is sent and nothing changes. */
  lemma VerifyWithoutToken(c: Client, now: int, ex: Exchange)
    requires !Present(Item(c.storage, AccessKey))
    ensures VerifyRun(c, now, ex) == Run(Envelope(false, Some(NotValid), None), c)
  {
  }

  /** `data` is never null; success carries the service's answer, which may
      itself say the token is not valid; a failure clears the store and
      carries the repository's message. */
  lemma VerifyOutcome(c: Client, now: int, ex: Exchange)
    ensures var run := VerifyRun(c, now, ex);
            && run.envelope.data.Some?
            && (run.envelope.success ==> run.envelope.error.None? && run.client == VerifyCall(c, now, ex).client)
            && (!run.envelope.success ==> run.envelope.data == Some(NotValid))
            && (run.envelope.error.Some? ==>
                  && !run.envelope.success
                  && run.envelope.error.value != ""
                  && Item(run.client.storage, AccessKey) == None
                  && Item(run.client.storage, RefreshKey) == None)
            && (Present(Item(c.storage, AccessKey)) ==>
                  var d := VerifyCall(c, now, ex);
                  var reply := Decoded(d.result, VerifyTokenResponseFromJson, VerifyFallback);
                  && (run.envelope.success <==> reply.Ok?)
                  && run.client.outbox == d.client.outbox && run.client.location == d.client.location
                  && (run.envelope.success ==> run.envelope.data == Some(reply.value))
                  && (!run.envelope.success ==>
                        run.envelope.error == Some(reply.error) && run.client.storage == Cleared(d.client.storage)))
  {
    var run := VerifyRun(c, now, ex);
    if Present(Item(c.storage, AccessKey)) {
      ClearedIsEmptyAndIdempotent(VerifyCall(c, now, ex).client.storage, now);
    }
  }

  /** A service answer `{isValid, user}` is passed through unchanged. */
  lemma VerifyPassesAnswer(c: Client, now: int, valid: JsValue, user: JsValue, ex: Exchange)
    requires Present(Item(c.storage, AccessKey))
    requires ex.first == Answered(HttpResponse(200, Obj(map["isValid" := valid, "user" := user])))
    ensures VerifyRun(c, now, ex).envelope == Envelope(true, Some(VerifyTokenResponseDto(valid, user)), None)
    ensures VerifyRun(c, now, ex).client.storage == c.storage
  {
    VerifyTokenResponseCopies(valid, user);
  }

  class VerifyTokenUseCase {
    const repository: AuthRepository

    constructor(repository: AuthRepository)
      ensures this.repository == repository
    {
      this.repository := repository;
    }

    method Execute(now: int, ex: Exchange) returns (e: Envelope<VerifyTokenResponseDto>)
      modifies repository
      ensures Run(e, repository.Snapshot()) == VerifyRun(old(repository.Snapshot()), now, ex)
    {
      var accessToken := repository.GetAccessToken();
      if !Present(accessToken) {
        return Envelope(false, Some(NotValid), None);
      }
      var response := repository.VerifyToken(now, ex);
      if response.Ok? {
        return Envelope(true, Some(response.value), None);
      }
      repository.ClearTokens();
      e := Envelope(false, Some(NotValid), Some(Caught(response.error, VerifyFallback)));
    }
  }

  // ----- register ----------------------------------------------------------

  function RegisterCall(c: Client, now: int, cedula: string, password: string, firstName: string,
                        lastName: string, phone: string, address: string, ex: Exchange): Delivery
  {
    Pipeline(c, now, "POST", RegisterUrl,
             RegisterRequestToJson(RegisterRequestDto(cedula, password, firstName, lastName, phone, address)), ex)
  }

  /** RegisterUseCase.execute */
  function RegisterRun(c: Client, now: int, cedula: string, password: string, firstName: string,
                       lastName: string, phone: string, address: string, ex: Exchange): Run<RegisterResponseDto>
  {
    var d := RegisterCall(c, now, cedula, password, firstName, lastName, phone, address, ex);
    match Decoded(d.result, RegisterResponseFromJson, RegisterFallback)
    case Err(m) => Run(Envelope(false, None, Some(Caught(m, RegisterFallback))), d.client)
    case Ok(response) => Run(Envelope(true, Some(response), None), d.client)
  }

  /** The use case itself never touches the store: the client afterwards is
      the one the call through the repository leaves. */
  lemma RegisterOutcome(c: Client, now: int, cedula: string, password: string, firstName: string,
                        lastName: string, phone: string, address: string, ex: Exchange)
    ensures var run := RegisterRun(c, now, cedula, password, firstName, lastName, phone, address, ex);
            var d := RegisterCall(c, now, cedula, password, firstName, lastName, phone, address, ex);
            var reply := Decoded(d.result, RegisterResponseFromJson, RegisterFallback);
            && Uniform(run.envelope)
            && run.client == d.client
            && (run.envelope.success <==> reply.Ok?)
            && (run.envelope.success ==> run.envelope.data == Some(reply.value))
            && (!run.envelope.success ==> run.envelope.error == Some(reply.error))
  {
  }

  /** The posted body holds the arguments in their declared roles, with the
      password repeated as its confirmation. */
  lemma RegisterPostsProfile(c: Client, now: int, cedula: string, password: string, firstName: string,
                             lastName: string, phone: string, address: string, ex: Exchange)
    ensures var out := RegisterCall(c, now, cedula, password, firstName, lastName, phone, address, ex).client.outbox;
            var body := out[|c.outbox|].body;
            && |out| > |c.outbox|
            && OptProp(body, "cedula") == Str(cedula) && OptProp(body, "password") == Str(password)
            && OptProp(body, "confirm_password") == Str(password)
            && OptProp(body, "first_name") == Str(firstName) && OptProp(body, "last_name") == Str(lastName)
            && OptProp(body, "phone") == Str(phone) && OptProp(body, "address") == Str(address)
  {
    var dto := RegisterRequestDto(cedula, password, firstName, lastName, phone, address);
    PipelineSendsAtMostThree(c, now, "POST", RegisterUrl, RegisterRequestToJson(dto), ex);
    RegisterRequestShape(dto);
  }

  class RegisterUseCase {
    const repository: AuthRepository

    constructor(repository: AuthRepository)
      ensures this.repository == repository
    {
      this.repository := repository;
    }

    method Execute(now: int, cedula: string, password: string, firstName: string, lastName: string,
                   phone: string, address: string, ex: Exchange) returns (e: Envelope<RegisterResponseDto>)
      modifies repository
      ensures Run(e, repository.Snapshot())
              == RegisterRun(old(repository.Snapshot()), now, cedula, password, firstName, lastName, phone, address, ex)
    {
      var request := RegisterRequestDto(cedula, password, firstName, lastName, phone, address);
      var response := repository.Register(now, request, ex);
      if response.Err? {
        return Envelope(false, None, Some(Caught(response.error, RegisterFallback)));
      }
      e := Envelope(true, Some(response.value), None);
    }
  }
}
