/**
 * The request and response objects exchanged with the identity service.
 * Request objects are built from the form's strings and serialised with
 * `toJson`; response objects are read from the body with `fromJson`, whose
 * property reads raise a TypeError when the body (or its `data`) is
 * undefined or null.
 */
module AuthDtos {
  import opened Js

  /** `json.outer.inner` */
  function Path(json: JsValue, outer: string, inner: string): (r: Result<JsValue, JsError>)
    ensures r.Err? <==> Nullish(json) || Nullish(OptProp(json, outer))
    ensures r.Ok? ==> r.value == OptProp(OptProp(json, outer), inner)
  {
    match Prop(json, outer)
    case Err(e) => Err(e)
    case Ok(v) => Prop(v, inner)
  }

  // ----- login ------------------------------------------------------------

  datatype LoginRequestDto = LoginRequestDto(cedula: string, password: string)

  /** `LoginRequestDto.toJson()` */
  function LoginRequestToJson(d: LoginRequestDto): JsValue {
    Obj(map["cedula" := Str(d.cedula), "password" := Str(d.password)])
  }

  /** The login body carries exactly the two credentials, unrenamed. */
  lemma LoginRequestShape(d: LoginRequestDto)
    ensures LoginRequestToJson(d).Obj?
    ensures LoginRequestToJson(d).props.Keys == {"cedula", "password"}
    ensures Prop(LoginRequestToJson(d), "cedula") == Ok(Str(d.cedula))
    ensures Prop(LoginRequestToJson(d), "password") == Ok(Str(d.password))
  {
  }

  datatype LoginResponseDto = LoginResponseDto(accessToken: JsValue, refreshToken: JsValue, expiresIn: JsValue, user: JsValue)

  /** `LoginResponseDto.fromJson(json)`: reads `json.data.access_token`,
      `refresh_token` and `expires_in`; no user is passed, so it is undefined. */
  function LoginResponseFromJson(json: JsValue): (r: Result<LoginResponseDto, JsError>)
    ensures r.Err? <==> Nullish(json) || Nullish(OptProp(json, "data"))
    ensures r.Ok? ==> r.value.user == Undefined
    ensures r.Ok? ==> r.value.accessToken == OptProp(OptProp(json, "data"), "access_token")
    ensures r.Ok? ==> r.value.refreshToken == OptProp(OptProp(json, "data"), "refresh_token")
    ensures r.Ok? ==> r.value.expiresIn == OptProp(OptProp(json, "data"), "expires_in")
  {
    match Path(json, "data", "access_token")
    case Err(e) => Err(e)
    case Ok(access) =>
      var data := OptProp(json, "data");
      Ok(LoginResponseDto(access, OptProp(data, "refresh_token"), OptProp(data, "expires_in"), Undefined))
  }

  /** The login answer of the identity service. */
  function LoginResponseBody(access: JsValue, refresh: JsValue, expiresIn: JsValue): JsValue {
    Obj(map["data" := Obj(map["access_token" := access, "refresh_token" := refresh, "expires_in" := expiresIn])])
  }

  lemma LoginResponseDecodes(access: JsValue, refresh: JsValue, expiresIn: JsValue)
    ensures LoginResponseFromJson(LoginResponseBody(access, refresh, expiresIn))
            == Ok(LoginResponseDto(access, refresh, expiresIn, Undefined))
  {
  }

  /** A body without `data` is a TypeError, not a response with undefined tokens. */
  lemma LoginResponseNeedsData(json: JsValue)
    requires json.Obj? && "data" !in json.props
    ensures LoginResponseFromJson(json).Err?
    ensures LoginResponseFromJson(json).error.kind == TypeError
  {
  }

  // ----- register ---------------------------------------------------------

  datatype RegisterRequestDto = RegisterRequestDto(
    cedula: string, password: string, firstName: string, lastName: string, phone: string, address: string)

  /** `RegisterRequestDto.toJson()` */
  function RegisterRequestToJson(d: RegisterRequestDto): JsValue {
    Obj(map[
      "cedula" := Str(d.cedula),
      "first_name" := Str(d.firstName),
      "last_name" := Str(d.lastName),
      "phone" := Str(d.phone),
      "address" := Str(d.address),
      "password" := Str(d.password),
      "confirm_password" := Str(d.password)])
  }

  /** The register body renames to snake_case and repeats the password. */
  lemma RegisterRequestShape(d: RegisterRequestDto)
    ensures RegisterRequestToJson(d).Obj?
    ensures RegisterRequestToJson(d).props.Keys
            == {"cedula", "first_name", "last_name", "phone", "address", "password", "confirm_password"}
    ensures OptProp(RegisterRequestToJson(d), "confirm_password") == OptProp(RegisterRequestToJson(d), "password")
    ensures OptProp(RegisterRequestToJson(d), "first_name") == Str(d.firstName)
    ensures OptProp(RegisterRequestToJson(d), "last_name") == Str(d.lastName)
    ensures OptProp(RegisterRequestToJson(d), "password") == Str(d.password)
    ensures OptProp(RegisterRequestToJson(d), "cedula") == Str(d.cedula)
    ensures OptProp(RegisterRequestToJson(d), "phone") == Str(d.phone)
    ensures OptProp(RegisterRequestToJson(d), "address") == Str(d.address)
  {
  }

  /** toJson loses no field: equal bodies come from equal requests. */
  lemma RegisterRequestInjective(d1: RegisterRequestDto, d2: RegisterRequestDto)
    requires RegisterRequestToJson(d1) == RegisterRequestToJson(d2)
    ensures d1 == d2
  {
    assert OptProp(RegisterRequestToJson(d1), "cedula") == OptProp(RegisterRequestToJson(d2), "cedula");
    assert OptProp(RegisterRequestToJson(d1), "password") == OptProp(RegisterRequestToJson(d2), "password");
    assert OptProp(RegisterRequestToJson(d1), "first_name") == OptProp(RegisterRequestToJson(d2), "first_name");
    assert OptProp(RegisterRequestToJson(d1), "last_name") == OptProp(RegisterRequestToJson(d2), "last_name");
    assert OptProp(RegisterRequestToJson(d1), "phone") == OptProp(RegisterRequestToJson(d2), "phone");
    assert OptProp(RegisterRequestToJson(d1), "address") == OptProp(RegisterRequestToJson(d2), "address");
  }

  datatype RegisterResponseDto = RegisterResponseDto(message: JsValue, user: JsValue)

  /** `RegisterResponseDto.fromJson(json)` */
  function RegisterResponseFromJson(json: JsValue): (r: Result<RegisterResponseDto, JsError>)
    ensures r.Err? <==> Nullish(json)
    ensures r.Ok? ==> r.value == RegisterResponseDto(OptProp(json, "message"), OptProp(json, "user"))
  {
    match Prop(json, "message")
    case Err(e) => Err(e)
    case Ok(message) => Ok(RegisterResponseDto(message, OptProp(json, "user")))
  }

  lemma RegisterResponseCopies(message: JsValue, user: JsValue)
    ensures RegisterResponseFromJson(Obj(map["message" := message, "user" := user]))
            == Ok(RegisterResponseDto(message, user))
  {
  }

  // ----- refresh ----------------------------------------------------------

  datatype RefreshTokenRequestDto = RefreshTokenRequestDto(refreshToken: string)

  /** `RefreshTokenRequestDto.toJson()` */
  function RefreshTokenRequestToJson(d: RefreshTokenRequestDto): JsValue {
    Obj(map["refreshToken" := Str(d.refreshToken)])
  }

  lemma RefreshTokenRequestShape(d: RefreshTokenRequestDto)
    ensures RefreshTokenRequestToJson(d).Obj?
    ensures RefreshTokenRequestToJson(d).props.Keys == {"refreshToken"}
    ensures Prop(RefreshTokenRequestToJson(d), "refreshToken") == Ok(Str(d.refreshToken))
  {
  }

  datatype RefreshTokenResponseDto = RefreshTokenResponseDto(accessToken: JsValue, refreshToken: JsValue, expiresIn: JsValue)

  /** `RefreshTokenResponseDto.fromJson(json)`: top-level camelCase fields. */
  function RefreshTokenResponseFromJson(json: JsValue): (r: Result<RefreshTokenResponseDto, JsError>)
    ensures r.Err? <==> Nullish(json)
    ensures r.Ok? ==> r.value == RefreshTokenResponseDto(
                        OptProp(json, "accessToken"), OptProp(json, "refreshToken"), OptProp(json, "expiresIn"))
  {
    match Prop(json, "accessToken")
    case Err(e) => Err(e)
    case Ok(access) => Ok(RefreshTokenResponseDto(access, OptProp(json, "refreshToken"), OptProp(json, "expiresIn")))
  }

  /** The refresh answer of the identity service. */
  function RefreshTokenResponseBody(access: JsValue, refresh: JsValue, expiresIn: JsValue): JsValue {
    Obj(map["accessToken" := access, "refreshToken" := refresh, "expiresIn" := expiresIn])
  }

  lemma RefreshTokenResponseDecodes(access: JsValue, refresh: JsValue, expiresIn: JsValue)
    ensures RefreshTokenResponseFromJson(RefreshTokenResponseBody(access, refresh, expiresIn))
            == Ok(RefreshTokenResponseDto(access, refresh, expiresIn))
  {
  }

  // ----- verify -----------------------------------------------------------

  datatype VerifyTokenResponseDto = VerifyTokenResponseDto(isValid: JsValue, user: JsValue)

  /** `VerifyTokenResponseDto.fromJson(json)` */
  function VerifyTokenResponseFromJson(json: JsValue): (r: Result<VerifyTokenResponseDto, JsError>)
    ensures r.Err? <==> Nullish(json)
    ensures r.Ok? ==> r.value == VerifyTokenResponseDto(OptProp(json, "isValid"), OptProp(json, "user"))
  {
    match Prop(json, "isValid")
    case Err(e) => Err(e)
    case Ok(valid) => Ok(VerifyTokenResponseDto(valid, OptProp(json, "user")))
  }

  lemma VerifyTokenResponseCopies(valid: JsValue, user: JsValue)
    ensures VerifyTokenResponseFromJson(Obj(map["isValid" := valid, "user" := user]))
            == Ok(VerifyTokenResponseDto(valid, user))
  {
  }
}
