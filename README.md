# Client session core of auth-roda-app, in Dafny

This project models the browser side of the application's sign-in machinery:

- **Form validation rules.** The zod schemas for cedula, password and names, the login and register forms, and the validators that group messages by field.
- **DTOs.** The request and response objects exchanged with the identity service, and the `User` profile value.
- **Authentication repository:**
  - the token store, three `localStorage` entries keyed `accessToken`, `refreshToken` and `tokenExpiration`;
  - the request interceptor, which attaches `Authorization: Bearer <token>`;
  - the response interceptor, which on a first 401 runs `refreshTokenProcess`, then resends the request or logs out. As written, that process always throws (see "## Findings"), so every first 401 while a refresh token is stored logs the user out and sends no refresh;
  - the four remote operations with their message fallbacks.
- **Use cases.** The four use cases (login, refresh, verify, register) and the result envelope `{success, data, error}` they return.
- **Session context.** The reducer over `AUTH_START`, `AUTH_SUCCESS`, `AUTH_ERROR`, `AUTH_LOGOUT` and `SET_LOADING`. It also covers the provider operations `checkAuthStatus`, `login`, `register` and `logout`.

## How the model is built

| file | module |
|---|---|
| `js.dfy` | `Js`: the JavaScript value semantics the code relies on. |
| `validation_rules.dfy` | `ValidationRules` |
| `auth_dtos.dfy` | `AuthDtos` |
| `user.dfy` | `UserModel` |
| `http.dfy` | `Http`: responses, HTTP client errors, and the mutable request configuration. |
| `auth_repository.dfy` | `AuthRepository` |
| `use_cases.dfy` | `UseCases` |
| `auth_context.dfy` | `AuthContext` |

### JavaScript values

- JavaScript values are a datatype: undefined, null, booleans, integer numbers, strings and objects.
- Reading a property off `undefined` or `null` is a TypeError `Result`. Reading one off anything else gives `undefined` for a missing key.
- Truthiness, `||`, `String(v)`, the numeric conversion of `expiresIn * 1000`, and `parseInt` on decimal text are written out.
- `localStorage` stores strings. So the expiry is written as decimal text (or `"NaN"`) and read back by `parseInt`, and the model proves the two agree.

### State and the network

- An object whose fields the code updates is a Dafny `class`:
  - the repository (`storage`, the page `location`, and an `outbox` of every request handed to the transport);
  - the request configuration (`headers` and the `_retry` flag);
  - the provider (`state` and the log of dispatched actions).
- Each state change is first written as a function on values: `Saved`, `Cleared`, `AfterError`, `Pipeline`, `LoginRun`, `RefreshRun`, `VerifyRun`, `RegisterRun`, `CheckStatus`, `LoginFlow`, `RegisterFlow`, `LogoutEffect`. Each method is then proved to do exactly that to its object. The properties are lemmas about those functions.
- `AfterError`, `Pipeline` and everything built on them model the corrected `refreshTokenProcess`: the four repository operations, the use cases, the status check and the login and register flows. The code as written is modelled by `RefreshProcessAsWritten` and `AfterErrorAsWritten` (see "## Findings").
- The network is a parameter. Each call receives an `Exchange`: the answers to the request itself, to a refresh, and to the resend. An answer is a response with a status, or no answer at all.
- The HTTP client resolves on statuses 200–299 and rejects otherwise.
- The clock is a parameter `now`, in milliseconds.

### Behaviour of the code worth knowing

- **The verify envelope.** A failed verification carries both data `{isValid: false, user: null}` and a message (`VerifyTokenUseCase.js:28-32`). Without an access token it carries that data and no error (`VerifyTokenUseCase.js:10-16`). The other three use cases return data or an error, never both.
- **The user after login.** `LoginResponseDto.fromJson` does not pass a user, so `login` dispatches `AUTH_SUCCESS` with an undefined user (`AuthContext.LoginFlowEffect`).
- **Register leaves loading set.** A successful `register` dispatches only `AUTH_START`, so `isLoading` stays true (`AuthContext.RegisterFlowEffect`).
- **Zod semantics.** These are zod 3's, as the code's use of `error.errors` implies:
  - every failing string check is reported, in declaration order;
  - the object refinement still runs when only string checks failed;
  - its issue comes last.

## Model

| member | source | states |
|---|---|---|
| Js.Prop | src/domain/models/AuthDtos.js:26-28 | A property read fails exactly when the value is undefined or null, and otherwise yields the property or undefined. |
| Js.StoredValue | src/infrastructure/repositories/AuthRepositoryImpl.js:118-124 | What `getItem` returns is truthy exactly when the entry exists and is not empty. |
| Js.ToNumber | src/infrastructure/repositories/AuthRepositoryImpl.js:111 | A number converts to itself, `null` to 0, a boolean to 1 or 0, a string by its numeric text, and `undefined` and objects to NaN. |
| Js.ToStr | src/infrastructure/repositories/AuthRepositoryImpl.js:113-114 | Specified by `TruthyToStrNonEmpty` and `StringToNumberOfIntToString`: `String(v)` as `setItem` stores it. |
| Js.StringToNumber | src/infrastructure/repositories/AuthRepositoryImpl.js:111 | Specified by `StringToNumberOfBlank`, `StringToNumberIgnoresPadding`, `StringToNumberSigned`, `DigitsValueLeadingZero` and `StringToNumberOfIntToString`. |
| Js.StringToNumberOfBlank | src/infrastructure/repositories/AuthRepositoryImpl.js:111 | Empty or all-white-space text converts to 0. |
| Js.StringToNumberIgnoresPadding | src/infrastructure/repositories/AuthRepositoryImpl.js:111 | White space before and after the text does not change the number it converts to. |
| Js.StringToNumberSigned | src/infrastructure/repositories/AuthRepositoryImpl.js:111 | A non-empty digit string converts to its value, with a `+` sign to its value, and with a `-` sign to its negation. |
| Js.DigitsValueLeadingZero | src/infrastructure/repositories/AuthRepositoryImpl.js:111 | A leading zero does not change the value of a digit string. |
| Js.IntToString | src/infrastructure/repositories/AuthRepositoryImpl.js:115 | Specified by `ParseIntOfIntToString` and `StringToNumberOfIntToString`: it prints the integer so that both conversions read it back. |
| Js.ParseInt | src/infrastructure/repositories/AuthRepositoryImpl.js:139 | Specified by `ParseIntOfIntToString` and `ParseIntOfNumberText`. |
| Js.TruthyToStrNonEmpty | src/infrastructure/repositories/AuthRepositoryImpl.js:61 | `new Error(v)` for a truthy `v` never has an empty message, for the values the model has (no arrays). |
| Js.ParseIntOfIntToString | src/infrastructure/repositories/AuthRepositoryImpl.js:115-139 | `parseInt` reads back exactly the integer that `toString` wrote, for the model's unbounded integers (see "## Left out" on number width). |
| Js.ParseIntOfNumberText | src/infrastructure/repositories/AuthRepositoryImpl.js:111-139 | The stored expiry reads back as the computed one, including NaN as NaN. |
| Js.StringToNumberOfIntToString | src/infrastructure/repositories/AuthRepositoryImpl.js:111 | A lifetime sent as decimal text converts to the integer it spells. |
| ValidationRules.FirstLineHasIsLookahead | src/domain/models/ValidationRules.js:10 | The scan for a class before the first line terminator decides exactly the lookahead `(?=.*[class])`. |
| ValidationRules.CedulaIssues | src/domain/models/ValidationRules.js:3-5 | The cedula schema's checks in order. Specified by `ValidateCedula`. |
| ValidationRules.ValidateCedula | src/domain/models/ValidationRules.js:38-47 | Valid exactly when 1 ≤ length ≤ 10. An invalid cedula gets exactly one message: the required message when empty, the too-long message when over 10. |
| ValidationRules.StrengthPattern | src/domain/models/ValidationRules.js:10 | The three lookaheads of the strength pattern. Specified by `FirstLineHasIsLookahead` and `ValidatePasswordMeansAcceptable`. |
| ValidationRules.PasswordIssues | src/domain/models/ValidationRules.js:7-10 | The password schema's checks in order. Specified by `ValidatePassword`. |
| ValidationRules.ValidatePassword | src/domain/models/ValidationRules.js:50-59 | Valid exactly when 8 ≤ length ≤ 128 and the strength pattern holds. An invalid one gets one or two messages: the too-short message exactly when under 8, the too-long one exactly when over 128, and the strength message exactly when the pattern fails. |
| ValidationRules.ValidatePasswordMeansAcceptable | src/domain/models/ValidationRules.js:7-10 | A password validates exactly when its length is in range and a lower-case letter, an upper-case letter and a digit each occur before the first line terminator. |
| ValidationRules.NameIssues | src/domain/models/ValidationRules.js:12-20 | The name schemas' checks in order. Specified by `NameIssuesCharacterised`. |
| ValidationRules.NameIssuesCharacterised | src/domain/models/ValidationRules.js:12-20 | A name has no issue exactly when it has 1 to 50 characters from the letter-and-space class; the empty name gets the required and the character messages. |
| ValidationRules.LoginFormIssues | src/domain/models/ValidationRules.js:22-25 | The login form schema's issues. Specified by `LoginFormIssuesEmpty` and `LoginAcceptsWeakPassword`. |
| ValidationRules.LoginFormIssuesEmpty | src/domain/models/ValidationRules.js:22-25 | The login form has no issue exactly when the cedula is acceptable and the password is non-empty. |
| ValidationRules.LoginAcceptsWeakPassword | src/domain/models/ValidationRules.js:24 | Login does not check password strength: any non-empty password passes. |
| ValidationRules.RegisterFormIssues | src/domain/models/ValidationRules.js:27-36 | The register form schema's issues, the refinement last. Specified by `RegisterFormIssuesEmpty`, `RegisterIgnoresContactFields` and `MismatchIsOnlyIssue`. |
| ValidationRules.RegisterFormIssuesEmpty | src/domain/models/ValidationRules.js:27-36 | The register form has no issue exactly when every field rule holds and the two passwords are equal. |
| ValidationRules.RegisterIgnoresContactFields | src/domain/models/ValidationRules.js:27-32 | Phone and address never affect the register issues. |
| ValidationRules.MismatchIsOnlyIssue | src/domain/models/ValidationRules.js:33-36 | With every field acceptable and the passwords different, the only issue is the mismatch, filed under `confirmPassword`. |
| ValidationRules.GroupByField | src/domain/models/ValidationRules.js:68-75 | The loop builds a dictionary whose keys are exactly the fields that have issues, each mapped to its messages in issue order. |
| ValidationRules.MessagesForAppend | src/domain/models/ValidationRules.js:69-75 | The messages of a field in concatenated issue lists are the concatenation of its messages in each. |
| ValidationRules.ValidateLoginForm | src/domain/models/ValidationRules.js:62-80 | The validity condition in both directions; an empty result when valid; otherwise the grouping of the issues, with non-empty lists and keys among `cedula` and `password`. |
| ValidationRules.ValidateRegisterForm | src/domain/models/ValidationRules.js:82-100 | The validity condition in both directions; an empty result when valid; otherwise the grouping of the issues, with non-empty lists. |
| ValidationRules.MismatchGrouped | src/domain/models/ValidationRules.js:33-36 | A mismatch alone is reported as `{confirmPassword: ['Las contraseñas no coinciden']}`. |
| AuthDtos.LoginRequestToJson | src/domain/models/AuthDtos.js:7-12 | Specified by `LoginRequestShape`. |
| AuthDtos.LoginRequestShape | src/domain/models/AuthDtos.js:7-12 | The login body has exactly the keys `cedula` and `password`, with the given values. |
| AuthDtos.LoginResponseFromJson | src/domain/models/AuthDtos.js:23-30 | Fails exactly when the body or its `data` is nullish; reads the three snake_case tokens from `data`; the user is undefined. |
| AuthDtos.LoginResponseDecodes | src/domain/models/AuthDtos.js:23-30 | The service's login answer decodes to its three tokens. |
| AuthDtos.LoginResponseNeedsData | src/domain/models/AuthDtos.js:26 | A body without `data` is a TypeError. |
| AuthDtos.RegisterRequestToJson | src/domain/models/AuthDtos.js:43-53 | Specified by `RegisterRequestShape` and `RegisterRequestInjective`. |
| AuthDtos.RegisterRequestShape | src/domain/models/AuthDtos.js:43-53 | The register body has exactly seven snake_case keys, and `confirm_password` equals `password`. |
| AuthDtos.RegisterRequestInjective | src/domain/models/AuthDtos.js:43-53 | The register body loses no field. |
| AuthDtos.RegisterResponseFromJson | src/domain/models/AuthDtos.js:62-67 | Copies `message` and `user` unchanged; fails only on a nullish body. |
| AuthDtos.RegisterResponseCopies | src/domain/models/AuthDtos.js:62-67 | `{message, user}` decodes to those two values. |
| AuthDtos.RefreshTokenRequestToJson | src/domain/models/AuthDtos.js:75-79 | Specified by `RefreshTokenRequestShape`. |
| AuthDtos.RefreshTokenRequestShape | src/domain/models/AuthDtos.js:75-79 | The refresh body is exactly `{refreshToken}`. |
| AuthDtos.RefreshTokenResponseFromJson | src/domain/models/AuthDtos.js:89-95 | Copies the top-level camelCase tokens unchanged; fails only on a nullish body. |
| AuthDtos.RefreshTokenResponseDecodes | src/domain/models/AuthDtos.js:89-95 | The service's refresh answer decodes to its three tokens. |
| AuthDtos.VerifyTokenResponseFromJson | src/domain/models/AuthDtos.js:104-109 | Copies `isValid` and `user` unchanged; fails only on a nullish body. |
| AuthDtos.VerifyTokenResponseCopies | src/domain/models/AuthDtos.js:104-109 | `{isValid, user}` decodes to those two values. |
| UserModel.FromJson | src/domain/models/User.js:12-22 | Fails exactly on a nullish input, and then with a TypeError. |
| UserModel.ToJson | src/domain/models/User.js:28-38 | The output has exactly the seven profile keys. |
| UserModel.FromJsonToJson | src/domain/models/User.js:12-38 | `fromJson(u.toJson())` reproduces all seven fields. |
| UserModel.ToJsonFromJson | src/domain/models/User.js:12-38 | `toJson(fromJson(j))` has the seven keys, each with the value `j` gives it. |
| UserModel.ToJsonFromJsonRestricts | src/domain/models/User.js:12-38 | `toJson(fromJson(j))` is `j` restricted to the seven keys when `j` has them all. |
| UserModel.FullName | src/domain/models/User.js:24-26 | Specified by `FullNameOfStrings` and `FullNameOfMissingNames`. |
| UserModel.FullNameOfStrings | src/domain/models/User.js:24-26 | The full name is first name, a space, then last name. |
| UserModel.FullNameOfMissingNames | src/domain/models/User.js:24-26 | Missing names print as `undefined`. |
| Http.Settle | src/infrastructure/repositories/AuthRepositoryImpl.js:7-13 | The client resolves exactly on a 2xx answer, with that response; otherwise it rejects with the response, if there was one. |
| Http.Status | src/infrastructure/repositories/AuthRepositoryImpl.js:33 | `error.response?.status`. Specified by `RetryFlagPolicy` and the interceptor lemmas. |
| Http.ServerMessage | src/infrastructure/repositories/AuthRepositoryImpl.js:61 | `error.response?.data?.message`. Specified by `FailureMessage`, `ServerStringSurfaces` and `FallbackWithoutServerMessage`. |
| Http.FailureMessage | src/infrastructure/repositories/AuthRepositoryImpl.js:61 | The rethrown message is the server's `message` when truthy and the fallback otherwise; it is never empty for the values the model has (no arrays). |
| Http.ServerStringSurfaces | src/infrastructure/repositories/AuthRepositoryImpl.js:70 | A non-empty server message is surfaced verbatim. |
| Http.FallbackWithoutServerMessage | src/infrastructure/repositories/AuthRepositoryImpl.js:88 | A network failure, a body without a message, and a script error all use the fallback. |
| Http.Request.constructor | src/infrastructure/repositories/AuthRepositoryImpl.js:10-12 | A new request starts with the JSON content type and without the retry flag. |
| AuthRepository.Saved | src/infrastructure/repositories/AuthRepositoryImpl.js:110-116 | Specified by `SavedReadsBack`, `SavedExpiresAt`, `SavedNaNNeverExpires` and `OnlyTokenKeysChange`. |
| AuthRepository.Cleared | src/infrastructure/repositories/AuthRepositoryImpl.js:126-130 | Specified by `ClearedIsEmptyAndIdempotent` and `OnlyTokenKeysChange`. |
| AuthRepository.Expired | src/infrastructure/repositories/AuthRepositoryImpl.js:132-140 | Specified by `SavedExpiresAt`, `SavedNaNNeverExpires`, `MissingExpiryIsExpired` and the contract of `AuthRepository.IsTokenExpired`. |
| AuthRepository.ExpirationTime | src/infrastructure/repositories/AuthRepositoryImpl.js:111 | `Date.now() + expiresIn * 1000`, NaN when the lifetime is not a number. Specified by `ExpiredAfterSave`, `SavedExpiresAt` and `SavedNaNNeverExpires`. |
| AuthRepository.ExpiredAfterSave | src/infrastructure/repositories/AuthRepositoryImpl.js:110-140 | After saving at time T with any lifetime, the token is expired at t exactly when the computed expiry is a number and t ≥ it. |
| AuthRepository.SavedReadsBack | src/infrastructure/repositories/AuthRepositoryImpl.js:110-124 | After `saveTokens(a, r, e)` all three keys are written, and the getters return `String(a)` and `String(r)`. |
| AuthRepository.SavedExpiresAt | src/infrastructure/repositories/AuthRepositoryImpl.js:110-140 | After saving at time T with lifetime e, the token is expired at t exactly when t ≥ T + e·1000. |
| AuthRepository.SavedFromNumericText | src/infrastructure/repositories/AuthRepositoryImpl.js:111 | The same holds when the lifetime arrives as decimal text. |
| AuthRepository.FreshTokenLifetime | src/infrastructure/repositories/AuthRepositoryImpl.js:111-139 | With `expiresIn = 3600` at T: not expired at T or at T+3599 s, expired at T+3601 s. |
| AuthRepository.SavedNaNNeverExpires | src/infrastructure/repositories/AuthRepositoryImpl.js:111-139 | A lifetime that is not a number is stored as "NaN" and never expires. |
| AuthRepository.MissingExpiryIsExpired | src/infrastructure/repositories/AuthRepositoryImpl.js:133-136 | With no expiry stored, the token is expired. |
| AuthRepository.ClearedIsEmptyAndIdempotent | src/infrastructure/repositories/AuthRepositoryImpl.js:126-136 | Clearing removes all three keys and is idempotent; both getters return null and the token is expired. |
| AuthRepository.OnlyTokenKeysChange | src/infrastructure/repositories/AuthRepositoryImpl.js:113-129 | Saving and clearing leave every other storage entry alone. |
| AuthRepository.Authorize | src/infrastructure/repositories/AuthRepositoryImpl.js:16-21 | Sets `Authorization` to `Bearer <token>` exactly when a non-empty access token is stored; otherwise the headers are unchanged. |
| AuthRepository.RefreshReply | src/infrastructure/repositories/AuthRepositoryImpl.js:100-102 | The refresh answer yields tokens exactly when it is a 2xx with a non-nullish body. |
| AuthRepository.RefreshProcess | src/infrastructure/repositories/AuthRepositoryImpl.js:92-108 | Corrected: with no refresh token it fails and changes nothing; a success saves the body's tokens; a failure saves nothing; the location never changes. |
| AuthRepository.AfterError | src/infrastructure/repositories/AuthRepositoryImpl.js:28-52 | The corrected response interceptor. Specified by `RetryFlagPolicy`, `UnauthorizedWithoutRefreshToken`, `RefreshFailureLogsOut` and `RefreshSuccessResendsOnce`. |
| AuthRepository.Pipeline | src/infrastructure/repositories/AuthRepositoryImpl.js:15-53 | One call through the interceptors and the transport, with the corrected refresh. Specified by `PipelineSendsAtMostThree`. |
| AuthRepository.RetryFlagPolicy | src/infrastructure/repositories/AuthRepositoryImpl.js:33-51 | A first 401 sets the retry flag before anything else. A retried request, or one that is not a 401, is rejected with its own error and changes nothing, so there is at most one refresh per request, given that the refresh post's own answer is final (see "## Left out"). |
| AuthRepository.UnauthorizedWithoutRefreshToken | src/infrastructure/repositories/AuthRepositoryImpl.js:37-51 | A 401 with no refresh token rejects the original error and changes no token, location or outbox. |
| AuthRepository.RefreshFailureLogsOut | src/infrastructure/repositories/AuthRepositoryImpl.js:44-48 | A refresh that throws clears all tokens, redirects to `/login`, rejects with the refresh error, and sends only the refresh post. |
| AuthRepository.RefreshSuccessResendsOnce | src/infrastructure/repositories/AuthRepositoryImpl.js:39-42 | A successful refresh stores the new tokens and resends the original request once with the new bearer token; the resend's answer is final. |
| AuthRepository.PipelineSendsAtMostThree | src/infrastructure/repositories/AuthRepositoryImpl.js:15-53 | One call sends the authorized request first and at most three requests in all, given that the refresh post's own answer is final (see "## Left out"). |
| AuthRepository.Decoded | src/infrastructure/repositories/AuthRepositoryImpl.js:56-90 | A remote operation returns the decoded body or throws a non-empty message: the server's, or its fallback when the body fails to decode. |
| AuthRepository.OperationMessages | src/infrastructure/repositories/AuthRepositoryImpl.js:61-88 | Each of the four operations fails with the server's message when present and with its own fallback otherwise. |
| AuthRepository.RefreshProcessAsWritten | src/infrastructure/repositories/AuthRepositoryImpl.js:99 | As written, it always throws and changes nothing: a ReferenceError whenever a refresh token is stored. |
| AuthRepository.AfterErrorAsWritten | src/infrastructure/repositories/AuthRepositoryImpl.js:28-52 | The response interceptor over `refreshTokenProcess` as written. Specified by `AsWrittenUnauthorizedLogsOut`. |
| AuthRepository.AsWrittenUnauthorizedLogsOut | src/infrastructure/repositories/AuthRepositoryImpl.js:33-48 | As written, a first 401 while a refresh token is stored sends nothing more, clears every token, redirects to `/login` and rejects with the ReferenceError. |
| AuthRepository.MissingImportDiscrepancy | src/infrastructure/repositories/AuthRepositoryImpl.js:99 | A refresh the server grants fails as written but stores the new token once corrected. |
| AuthRepository.RefreshProcessRawResponse | src/infrastructure/repositories/AuthRepositoryImpl.js:102 | The tokens read off the HTTP response object instead of its body are all undefined. |
| AuthRepository.RawResponseDiscrepancy | src/infrastructure/repositories/AuthRepositoryImpl.js:102 | As written, the store holds "undefined" tokens that never expire and are sent as `Bearer undefined`. |
| AuthRepository.RefreshProcessSavesBody | src/infrastructure/repositories/AuthRepositoryImpl.js:100-102 | Corrected, the store holds the service's tokens and the right expiry. |
| AuthRepository.AuthRepository.constructor | src/infrastructure/repositories/AuthRepositoryImpl.js:5-13 | A repository over a given store, with no redirect and nothing sent. |
| AuthRepository.AuthRepository.GetAccessToken | src/infrastructure/repositories/AuthRepositoryImpl.js:118-120 | `getItem('accessToken')`. Specified by the contracts of `SaveTokens` and `ClearTokens` and by `SavedReadsBack`. |
| AuthRepository.AuthRepository.GetRefreshToken | src/infrastructure/repositories/AuthRepositoryImpl.js:122-124 | `getItem('refreshToken')`. Specified by the contracts of `SaveTokens` and `ClearTokens` and by `SavedReadsBack`. |
| AuthRepository.AuthRepository.IsTokenExpired | src/infrastructure/repositories/AuthRepositoryImpl.js:132-140 | Expired when the entry is missing or empty, never when it reads as NaN, and otherwise exactly when now ≥ the stored time. |
| AuthRepository.AuthRepository.SaveTokens | src/infrastructure/repositories/AuthRepositoryImpl.js:110-116 | The store becomes `Saved(old store, ...)`, and the getters return the new tokens. |
| AuthRepository.AuthRepository.ClearTokens | src/infrastructure/repositories/AuthRepositoryImpl.js:126-130 | The store becomes `Cleared(old store)`, and both getters return null. |
| AuthRepository.AuthRepository.AuthorizeRequest | src/infrastructure/repositories/AuthRepositoryImpl.js:15-22 | The request's headers become `Authorize(old headers, stored token)`. |
| AuthRepository.AuthRepository.Transmit | src/infrastructure/repositories/AuthRepositoryImpl.js:42 | Handing a request to the transport appends exactly its current configuration to the outbox. |
| AuthRepository.AuthRepository.RefreshTokenProcess | src/infrastructure/repositories/AuthRepositoryImpl.js:92-108 | Performs exactly `RefreshProcess` on the repository. |
| AuthRepository.AuthRepository.OnResponseError | src/infrastructure/repositories/AuthRepositoryImpl.js:28-52 | Performs exactly `AfterError` (the corrected interceptor) on the repository and the request. |
| AuthRepository.AuthRepository.Send | src/infrastructure/repositories/AuthRepositoryImpl.js:15-53 | Performs exactly `Pipeline`: the interceptors, the transport and the retry policy, with the corrected refresh. |
| AuthRepository.AuthRepository.Login | src/infrastructure/repositories/AuthRepositoryImpl.js:56-63 | Posts the credentials through the pipeline and decodes the answer or the login fallback. |
| AuthRepository.AuthRepository.Register | src/infrastructure/repositories/AuthRepositoryImpl.js:65-72 | Posts the profile through the pipeline and decodes the answer or the register fallback. |
| AuthRepository.AuthRepository.RefreshToken | src/infrastructure/repositories/AuthRepositoryImpl.js:74-81 | Posts the refresh token through the pipeline and decodes the answer or the refresh fallback. |
| AuthRepository.AuthRepository.VerifyToken | src/infrastructure/repositories/AuthRepositoryImpl.js:83-90 | Sends the verify GET through the pipeline and decodes the answer or the verify fallback. |
| UseCases.LoginRun | src/application/use_cases/LoginUseCase.js:8-27 | The use case's envelope and the repository afterwards, over the corrected pipeline. Specified by `LoginOutcome`, `LoginGranted` and `LoginRefused`. |
| UseCases.Caught | src/application/use_cases/LoginUseCase.js:24 | The caught error's message, or the fallback when it is empty. Specified by `LoginOutcome`, `RefreshOutcome`, `VerifyOutcome` and `RegisterOutcome`, which show that the repository's message is never empty, so it is always the one used. |
| UseCases.LoginOutcome | src/application/use_cases/LoginUseCase.js:8-27 | Success exactly when the repository returns a response; it saves that response's tokens. A failure carries the repository's message and neither saves nor clears. |
| UseCases.LoginPostsCredentials | src/application/use_cases/LoginUseCase.js:10-11 | The login request is `{cedula, password}` from the arguments, in that order. |
| UseCases.LoginGranted | src/application/use_cases/LoginUseCase.js:11-19 | A granted login returns the tokens and stores them; with a positive lifetime the session is not expired at once. |
| UseCases.LoginRefused | src/application/use_cases/LoginUseCase.js:20-25 | A refusal other than 401 returns the server's message and leaves the store alone. |
| UseCases.LoginUseCase.constructor | src/application/use_cases/LoginUseCase.js:4-6 | The use case holds the given repository. |
| UseCases.LoginUseCase.Execute | src/application/use_cases/LoginUseCase.js:8-27 | Performs exactly `LoginRun` on the repository. |
| UseCases.RefreshRun | src/application/use_cases/RefreshTokenUseCase.js:8-35 | The use case's envelope and the repository afterwards, over the corrected pipeline. Specified by `RefreshWithoutToken`, `RefreshOutcome` and `RefreshPostsStoredToken`. |
| UseCases.RefreshWithoutToken | src/application/use_cases/RefreshTokenUseCase.js:10-33 | With no refresh token nothing is sent, the store is cleared, and the error is 'No hay refresh token disponible'. |
| UseCases.RefreshOutcome | src/application/use_cases/RefreshTokenUseCase.js:17-33 | The envelope has the failure-or-success shape. With a refresh token stored, success holds exactly when the repository's reply decodes. A success carries that reply and saves its three values; a failure carries the repository's message and clears the store. Any failure leaves no token and an expired store. The outbox and location are those of the call. |
| UseCases.RefreshPostsStoredToken | src/application/use_cases/RefreshTokenUseCase.js:16-17 | The refresh request carries the stored refresh token. |
| UseCases.RefreshTokenUseCase.constructor | src/application/use_cases/RefreshTokenUseCase.js:4-6 | The use case holds the given repository. |
| UseCases.RefreshTokenUseCase.Execute | src/application/use_cases/RefreshTokenUseCase.js:8-35 | Performs exactly `RefreshRun` on the repository. |
| UseCases.VerifyRun | src/application/use_cases/VerifyTokenUseCase.js:6-34 | The use case's envelope and the repository afterwards, over the corrected pipeline. Specified by `VerifyWithoutToken`, `VerifyOutcome` and `VerifyPassesAnswer`. |
| UseCases.VerifyWithoutToken | src/application/use_cases/VerifyTokenUseCase.js:8-16 | With no access token nothing is sent, nothing changes, and the result is `{false, {isValid: false, user: null}, null}`. |
| UseCases.VerifyOutcome | src/application/use_cases/VerifyTokenUseCase.js:8-32 | Data is never null. With an access token stored, success holds exactly when the repository's reply decodes. A success carries that reply and no error; a failure carries the repository's message and clears the store. Any error is a non-empty message. The outbox and location are those of the call. |
| UseCases.VerifyPassesAnswer | src/application/use_cases/VerifyTokenUseCase.js:18-24 | A service answer `{isValid, user}` is returned unchanged and the store is untouched. |
| UseCases.VerifyTokenUseCase.constructor | src/application/use_cases/VerifyTokenUseCase.js:2-4 | The use case holds the given repository. |
| UseCases.VerifyTokenUseCase.Execute | src/application/use_cases/VerifyTokenUseCase.js:6-34 | Performs exactly `VerifyRun` on the repository. |
| UseCases.RegisterRun | src/application/use_cases/RegisterUseCase.js:8-25 | The use case's envelope and the repository afterwards, over the corrected pipeline. Specified by `RegisterOutcome` and `RegisterPostsProfile`. |
| UseCases.RegisterOutcome | src/application/use_cases/RegisterUseCase.js:8-25 | Success exactly when the repository returns a response; a failure carries its message. The use case itself never touches the store. |
| UseCases.RegisterPostsProfile | src/application/use_cases/RegisterUseCase.js:10-11 | Every argument lands in its own body field, and the password is repeated as the confirmation. |
| UseCases.RegisterUseCase.constructor | src/application/use_cases/RegisterUseCase.js:4-6 | The use case holds the given repository. |
| UseCases.RegisterUseCase.Execute | src/application/use_cases/RegisterUseCase.js:8-25 | Performs exactly `RegisterRun` on the repository. |
| AuthContext.Reduce | src/presentation/contexts/AuthContext.jsx:16-56 | Every action preserves the session invariant. |
| AuthContext.ActionEffects | src/presentation/contexts/AuthContext.jsx:16-56 | Each action's effect on each field. `AUTH_START` keeps the user and the session. `SET_LOADING` changes only `isLoading`. An unknown action changes nothing. |
| AuthContext.Apply | src/presentation/contexts/AuthContext.jsx:61 | The provider's state after a log of dispatches. Specified by `ApplyKeepsInvariant` and `ApplyAppend`. |
| AuthContext.ReduceIdempotent | src/presentation/contexts/AuthContext.jsx:16-56 | Dispatching an action twice equals dispatching it once: every case overwrites the fields it touches and none accumulates, so a repeated dispatch (two status checks both starting with `AUTH_START`) is harmless. |
| AuthContext.ApplyKeepsInvariant | src/presentation/contexts/AuthContext.jsx:16-56 | Every action sequence preserves: no user without a session, and no error while signed in. |
| AuthContext.InitialStateKeepsInvariant | src/presentation/contexts/AuthContext.jsx:9-14 | Starting from the initial state, the invariant holds after any actions. |
| AuthContext.ApplyAppend | src/presentation/contexts/AuthContext.jsx:61 | Folding the reducer over two logs in turn equals folding it over their concatenation. The provider's operations use it to state their new state as their flow's actions applied to the old state. |
| AuthContext.CheckStatus | src/presentation/contexts/AuthContext.jsx:73-103 | The status check's actions and the repository afterwards. Specified by `CheckStatusShape`, `CheckStatusConfirmedFirst`, `CheckStatusSecondChance` and `CheckStatusWithoutTokens`. |
| AuthContext.CheckStatusShape | src/presentation/contexts/AuthContext.jsx:73-103 | The status check dispatches `AUTH_START` and then exactly one `AUTH_SUCCESS` or `AUTH_LOGOUT`, never `AUTH_ERROR`. It ends not loading, with no error, and signed in exactly on success. |
| AuthContext.CheckStatusConfirmedFirst | src/presentation/contexts/AuthContext.jsx:77-83 | A confirming first verification signs in with its user and never refreshes. |
| AuthContext.CheckStatusSecondChance | src/presentation/contexts/AuthContext.jsx:84-98 | After an unconfirmed first verification, sign-in happens exactly when the refresh succeeds and the second verification confirms. After a successful refresh, the actions and the repository are exactly those of the second verification, and the sign-in carries its user. |
| AuthContext.CheckStatusWithoutTokens | src/presentation/contexts/AuthContext.jsx:73-98 | With no token stored, nothing is sent, the store is cleared, and the state is signed out. |
| AuthContext.LoginFlow | src/presentation/contexts/AuthContext.jsx:105-129 | Specified by `LoginFlowEffect`. |
| AuthContext.LoginFlowEffect | src/presentation/contexts/AuthContext.jsx:105-122 | The outcome and the repository afterwards are those of the login use case. Success dispatches `AUTH_START` then `AUTH_SUCCESS` with an undefined user, returns `{success: true}` and signs in. Failure dispatches `AUTH_START` then `AUTH_ERROR` with the use case's error, returns that error and leaves it in the state, signed out. |
| AuthContext.RegisterFlow | src/presentation/contexts/AuthContext.jsx:131-151 | Specified by `RegisterFlowEffect`. |
| AuthContext.RegisterFlowEffect | src/presentation/contexts/AuthContext.jsx:131-144 | The outcome's success and error, and the repository afterwards, are those of the register use case. Success dispatches only `AUTH_START`, so `isLoading` stays true and the session is unchanged. Failure dispatches `AUTH_START` then `AUTH_ERROR` and signs out with the error. |
| AuthContext.LogoutEffect | src/presentation/contexts/AuthContext.jsx:153-157 | Specified by `LogoutSignsOut`. |
| AuthContext.LogoutSignsOut | src/presentation/contexts/AuthContext.jsx:153-157 | Logout removes every token, sends nothing, and leaves the signed-out, settled state. |
| AuthContext.AuthProvider.constructor | src/presentation/contexts/AuthContext.jsx:60-67 | The provider starts in the initial state, with an empty log, and its four use cases share its repository. |
| AuthContext.AuthProvider.Dispatch | src/presentation/contexts/AuthContext.jsx:61 | The state becomes the reducer's result, and the action is logged. |
| AuthContext.AuthProvider.CheckAuthStatus | src/presentation/contexts/AuthContext.jsx:73-103 | Dispatches exactly the `CheckStatus` actions, so the new state is those actions applied to the old one, and leaves the repository as `CheckStatus` says. |
| AuthContext.AuthProvider.Login | src/presentation/contexts/AuthContext.jsx:105-129 | Returns, dispatches and leaves the repository exactly as `LoginFlow` says; the new state is its actions applied to the old one. |
| AuthContext.AuthProvider.Register | src/presentation/contexts/AuthContext.jsx:131-151 | Returns, dispatches and leaves the repository exactly as `RegisterFlow` says; the new state is its actions applied to the old one. |
| AuthContext.AuthProvider.Logout | src/presentation/contexts/AuthContext.jsx:153-157 | Clears the tokens, then dispatches `AUTH_LOGOUT`; the new state is that action applied to the old one. |

## Left out

- **Asynchrony and concurrency.** Each operation runs to completion. Two requests that hit 401 at once, each with its own refresh, are not modelled.
- **The refresh post's own 401.** The post made by `refreshTokenProcess` (`AuthRepositoryImpl.js:100`) is a fresh request without `_retry`, so it passes through the response interceptor too (`AuthRepositoryImpl.js:33-41`). Once the import at line 99 is corrected, a 401 from `/auth/refresh-token` starts another `refreshTokenProcess` while the refresh token is still stored, and again on each further 401, with no bound. The model takes the refresh post's answer as final. So the bounds of `AuthRepository.RetryFlagPolicy` and `AuthRepository.PipelineSendsAtMostThree` (one refresh, at most three requests) hold only under that assumption. The code as written sends no refresh at all (`AuthRepository.AsWrittenUnauthorizedLogsOut`).
- **The clock.** It is a parameter and does not advance within one operation.
- **Timeouts and network failures.** These are an answer without a response. The base URL and the 10-second timeout are not modelled.
- **Storage and navigation.** `localStorage` quota errors and unavailability are not modelled. `window.location.href` is a field holding the redirect target; navigation itself is not modelled.
- **React.** The component tree, `useAuth`, the mount effect, and the new repository built on every render are not modelled. All repository state lives in storage, so one repository per provider behaves the same.
- **Toasts and console output.** These are user-interface and diagnostic output only.
- **Unreachable catch branches.** The `catch` branches of `checkAuthStatus`, `login` and `register` (`AuthContext.jsx:100-102`, `123-128`, `145-150`) are not modelled. The use cases never throw, and `CheckStatusShape` shows `AUTH_ERROR` cannot come from the status check.
- **The non-zod fallback.** The `'Error de validación'` fallback for non-zod exceptions (`ValidationRules.js:46`, `58`, `78`, `98`) is not modelled. The validators receive strings, for which zod raises only its own errors. Fields of the wrong type (zod's type issue) are not modelled either.
- ValidationRules.ValidateLoginForm: a valid form returns `errors: []` (an array), which the model represents as the empty map.
- ValidationRules.ValidateRegisterForm: a valid form returns `errors: []` (an array), which the model represents as the empty map.
- **Lengths and characters.** String lengths count code points, while zod counts UTF-16 code units. A character outside the Basic Multilingual Plane therefore counts once in the model and twice in the source.
- Js.ToNumber: only integers are modelled. Fractional numbers, exponent and hexadecimal text, and `Infinity` are outside the model: `"3600.5" * 1000` is NaN here but 3600500 in JavaScript.
- **Number width.** Numbers are unbounded integers. JavaScript numbers are doubles: integers above 2^53 in magnitude are rounded, and from 10^21 on `toString` prints exponent text such as `"1e+21"`.
- Js.ParseIntOfIntToString: holds for the model's unbounded integers only. From 10^21 on, `parseInt("1e+21")` reads back 1, and beyond 2^53 the stored value is already rounded. The same bound applies to Js.ParseIntOfNumberText and AuthRepository.SavedExpiresAt.
- **Arrays.** JavaScript arrays are not among the modelled values. A server `message: []` is truthy, yet `new Error([])` has the empty message.
- Js.TruthyToStrNonEmpty: holds for the modelled values only; the empty array is truthy and prints as the empty string.
- Http.FailureMessage: never empty for the modelled values only; a server `message` that is an empty array gives an empty message (`AuthRepositoryImpl.js:61`).
- Js.ParseInt: decimal text only. A `0x` or `0X` prefix, which JavaScript's `parseInt` reads as hexadecimal (`"0x10"` gives 16), reads as 0 here. `saveTokens` never writes such text, so only a hand-edited `tokenExpiration` entry would be read differently.
- Js.Prop: the TypeError's message text is the V8 wording; other engines word it differently.
- **The request interceptor's error handler.** This handler (`AuthRepositoryImpl.js:23-25`) is not modelled: it only rethrows, and nothing in the core makes a request configuration fail.

## Findings

| source | as written | input that shows it | evidently intended | confidence | as-written member | corrected member |
|---|---|---|---|---|---|---|
| src/infrastructure/repositories/AuthRepositoryImpl.js:99 | `new RefreshTokenRequestDto(...)`, but line 2 imports only the response DTOs, so this throws a ReferenceError; the interceptor catches it and logs out, so every first 401 with a refresh token stored clears all tokens and redirects to `/login` | any 401 while a refresh token is stored, e.g. store `{refreshToken: "r1"}` and a granted refresh answer | build the refresh request from the imported DTO and post it (the corrected code then re-enters the interceptor on a 401 from the refresh endpoint, see "## Left out") | high; not executed | AuthRepository.RefreshProcessAsWritten and AuthRepository.AfterErrorAsWritten (shown by AuthRepository.MissingImportDiscrepancy and AuthRepository.AsWrittenUnauthorizedLogsOut) | AuthRepository.RefreshProcess (with AuthRepository.RefreshSuccessResendsOnce) |
| src/infrastructure/repositories/AuthRepositoryImpl.js:102 | `response.accessToken` and the other tokens are read off the HTTP response object, not its body, so they are undefined | any granted refresh, e.g. answer 200 `{accessToken: "a2", refreshToken: "r2", expiresIn: 3600}` | read the tokens from `RefreshTokenResponseDto.fromJson(response.data)`, as `refreshToken` at line 77 does | high; not executed | AuthRepository.RefreshProcessRawResponse (shown by AuthRepository.RawResponseDiscrepancy: "undefined" tokens, never expiring, sent as `Bearer undefined`) | AuthRepository.RefreshProcess (with AuthRepository.RefreshProcessSavesBody) |
