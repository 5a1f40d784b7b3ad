/**
 * The session state that the application's screens read: the reducer over
 * authentication actions, its initial state, and the provider operations
 * that run the use cases and dispatch actions (status check, login,
 * register, logout).
 *
 * The provider keeps the log of every action it dispatched; its state is
 * always the reducer folded over that log from the initial state.
 */
module AuthContext {
  import opened Js
  import opened Http
  import opened AuthDtos
  import opened AuthRepository
  import opened UseCases

  datatype AuthState = AuthState(user: JsValue, isAuthenticated: bool, isLoading: bool, error: Option<string>)

  const InitialState := AuthState(Null, false, true, None)

  datatype Action =
    | AuthStart
    | AuthSuccess(user: JsValue)     // payload: { user }
    | AuthError(payload: string)
    | AuthLogout
    | SetLoading(loading: bool)
    | Unknown(kind: string)          // any other action type

  /** The two facts a screen may rely on: no user without a session, and an
      error only while signed out. */
  predicate SessionInvariant(s: AuthState) {
    (!s.isAuthenticated ==> s.user == Null) && (s.error.Some? ==> !s.isAuthenticated)
  }

  /** authReducer */
  function Reduce(s: AuthState, a: Action): (r: AuthState)
    ensures SessionInvariant(s) ==> SessionInvariant(r)
  {
    match a
    case AuthStart => s.(isLoading := true, error := None)
    case AuthSuccess(user) => s.(isLoading := false, isAuthenticated := true, user := user, error := None)
    case AuthError(payload) => s.(isLoading := false, isAuthenticated := false, user := Null, error := Some(payload))
    case AuthLogout => s.(isAuthenticated := false, user := Null, error := None, isLoading := false)
    case SetLoading(loading) => s.(isLoading := loading)
    case Unknown(_) => s
  }

  /** The state after dispatching `actions`, in order, from `s`. */
  function Apply(s: AuthState, actions: seq<Action>): AuthState {
    if actions == [] then s else Reduce(Apply(s, actions[..|actions| - 1]), actions[|actions| - 1])
  }

  /** What each action does to each field. */
  lemma ActionEffects(s: AuthState, a: Action)
    ensures a.AuthStart? ==> Reduce(s, a) == AuthState(s.user, s.isAuthenticated, true, None)
    ensures a.AuthSuccess? ==> Reduce(s, a) == AuthState(a.user, true, false, None)
    ensures a.AuthError? ==> Reduce(s, a) == AuthState(Null, false, false, Some(a.payload))
    ensures a.AuthLogout? ==> Reduce(s, a) == AuthState(Null, false, false, None)
    ensures a.SetLoading? ==> Reduce(s, a) == s.(isLoading := a.loading)
    ensures a.Unknown? ==> Reduce(s, a) == s
  {
  }

  /** Dispatching the same action twice is the same as dispatching it once. */
  lemma ReduceIdempotent(s: AuthState, a: Action)
    ensures Reduce(Reduce(s, a), a) == Reduce(s, a)
  {
  }

  /** From any state satisfying the invariant, every action sequence keeps it. */
  lemma {:induction false} ApplyKeepsInvariant(s: AuthState, actions: seq<Action>)
    requires SessionInvariant(s)
    ensures SessionInvariant(Apply(s, actions))
    decreases |actions|
  {
    if actions != [] {
      ApplyKeepsInvariant(s, actions[..|actions| - 1]);
    }
  }

  lemma InitialStateKeepsInvariant(actions: seq<Action>)
    ensures SessionInvariant(Apply(InitialState, actions))
  {
    ApplyKeepsInvariant(InitialState, actions);
  }

  /** Dispatching more actions continues the fold. */
  lemma {:induction false} ApplyAppend(s: AuthState, xs: seq<Action>, ys: seq<Action>)
    ensures Apply(s, xs + ys) == Apply(Apply(s, xs), ys)
    decreases |ys|
  {
    if ys == [] {
      assert xs + ys == xs;
    } else {
      var last := |ys| - 1;
      assert (xs + ys)[..|xs + ys| - 1] == xs + ys[..last];
      assert (xs + ys)[|xs + ys| - 1] == ys[last];
      ApplyAppend(s, xs, ys[..last]);
    }
  }

  // ----- provider operations as values ---------------------------------------

  /** `result.success && result.data.isValid` */
  predicate Confirmed(e: Envelope<VerifyTokenResponseDto>) {
    e.success && e.data.Some? && Truthy(e.data.value.isValid)
  }

  /** The user a confirmed verification carries. */
  function ConfirmedUser(e: Envelope<VerifyTokenResponseDto>): JsValue
    requires e.data.Some?
  {
    e.data.value.user
  }

  /** The dispatched actions and the client after one operation. */
  datatype Effect = Effect(actions: seq<Action>, client: Client)

  /** checkAuthStatus, with the answers to the first verification, the
      refresh and the second verification. */
  function CheckStatus(c: Client, now: int, first: Exchange, refresh: Exchange, second: Exchange): Effect {
    var v1 := VerifyRun(c, now, first);
    if Confirmed(v1.envelope) then
      Effect([AuthStart, AuthSuccess(ConfirmedUser(v1.envelope))], v1.client)
    else
      var r := RefreshRun(v1.client, now, refresh);
      if !r.envelope.success then
        Effect([AuthStart, AuthLogout], r.client)
      else
        var v2 := VerifyRun(r.client, now, second);
        if Confirmed(v2.envelope) then
          Effect([AuthStart, AuthSuccess(ConfirmedUser(v2.envelope))], v2.client)
        else
          Effect([AuthStart, AuthLogout], v2.client)
  }

  /** The status check dispatches AUTH_START and then exactly one of
      AUTH_SUCCESS or AUTH_LOGOUT, never AUTH_ERROR (no use case throws), and
      leaves a settled state. */
  lemma CheckStatusShape(c: Client, now: int, first: Exchange, refresh: Exchange, second: Exchange, s: AuthState)
    ensures var k := CheckStatus(c, now, first, refresh, second);
            && |k.actions| == 2 && k.actions[0] == AuthStart
            && (k.actions[1].AuthSuccess? || k.actions[1] == AuthLogout)
            && (forall a | a in k.actions :: !a.AuthError?)
            && !Apply(s, k.actions).isLoading
            && Apply(s, k.actions).error.None?
            && (Apply(s, k.actions).isAuthenticated <==> k.actions[1].AuthSuccess?)
  {
    var k := CheckStatus(c, now, first, refresh, second);
    assert k.actions[..1] == [AuthStart];
  }

  /** A first verification that confirms the token signs in with its user and
      never starts a refresh. */
  lemma CheckStatusConfirmedFirst(c: Client, now: int, first: Exchange, refresh: Exchange, second: Exchange)
    requires Confirmed(VerifyRun(c, now, first).envelope)
    ensures CheckStatus(c, now, first, refresh, second)
            == Effect([AuthStart, AuthSuccess(ConfirmedUser(VerifyRun(c, now, first).envelope))], VerifyRun(c, now, first).client)
  {
  }

  /** Signing in after an unconfirmed first verification needs both a
      successful refresh and a confirming second verification. */
  lemma CheckStatusSecondChance(c: Client, now: int, first: Exchange, refresh: Exchange, second: Exchange)
    requires !Confirmed(VerifyRun(c, now, first).envelope)
    ensures var v1 := VerifyRun(c, now, first);
            var r := RefreshRun(v1.client, now, refresh);
            var k := CheckStatus(c, now, first, refresh, second);
            && (k.actions[1].AuthSuccess? <==> r.envelope.success && Confirmed(VerifyRun(r.client, now, second).envelope))
            && (!r.envelope.success ==> k == Effect([AuthStart, AuthLogout], r.client))
            && (r.envelope.success ==>
                  var v2 := VerifyRun(r.client, now, second);
                  k == Effect([AuthStart, if Confirmed(v2.envelope) then AuthSuccess(ConfirmedUser(v2.envelope)) else AuthLogout],
                              v2.client))
  {
  }

  /** With no token stored at all, the status check sends nothing, clears the
      store and signs out. */
  lemma CheckStatusWithoutTokens(c: Client, now: int, first: Exchange, refresh: Exchange, second: Exchange)
    requires !Present(Item(c.storage, AccessKey)) && !Present(Item(c.storage, RefreshKey))
    ensures CheckStatus(c, now, first, refresh, second) == Effect([AuthStart, AuthLogout], c.(storage := Cleared(c.storage)))
  {
    VerifyWithoutToken(c, now, first);
    RefreshWithoutToken(c, now, refresh);
  }

  /** `{ success }` or `{ success, error }` as login and register return it. */
  datatype ActionOutcome = ActionOutcome(success: bool, error: Option<string>)

  datatype Flow = Flow(outcome: ActionOutcome, effect: Effect)

  /** login */
  function LoginFlow(c: Client, now: int, cedula: string, password: string, ex: Exchange): Flow {
    LoginOutcome(c, now, cedula, password, ex);
    var run := LoginRun(c, now, cedula, password, ex);
    if run.envelope.success then
      Flow(ActionOutcome(true, None), Effect([AuthStart, AuthSuccess(run.envelope.data.value.user)], run.client))
    else
      Flow(ActionOutcome(false, run.envelope.error), Effect([AuthStart, AuthError(run.envelope.error.value)], run.client))
  }

  /** A successful login signs in, but with an undefined user, since the
      login response carries none; a failed one signs out with the error it
      returns. */
  lemma LoginFlowEffect(c: Client, now: int, cedula: string, password: string, ex: Exchange, s: AuthState)
    ensures var f := LoginFlow(c, now, cedula, password, ex);
            var after := Apply(s, f.effect.actions);
            && f.effect.client == LoginRun(c, now, cedula, password, ex).client
            && f.effect.actions == (if f.outcome.success then [AuthStart, AuthSuccess(Undefined)]
                                    else [AuthStart, AuthError(f.outcome.error.value)])
            && (f.outcome.success <==> LoginRun(c, now, cedula, password, ex).envelope.success)
            && (f.outcome.success ==> f.outcome.error.None? && after == AuthState(Undefined, true, false, None))
            && (!f.outcome.success ==>
                  && f.outcome.error.Some? && f.outcome.error.value != ""
                  && f.outcome.error == LoginRun(c, now, cedula, password, ex).envelope.error
                  && after == AuthState(Null, false, false, f.outcome.error))
  {
    LoginOutcome(c, now, cedula, password, ex);
    var run := LoginRun(c, now, cedula, password, ex);
    if run.envelope.success {
      var d := LoginCall(c, now, cedula, password, ex);
      assert run.envelope.data.value == Decoded(d.result, LoginResponseFromJson, LoginFallback).value;
      assert run.envelope.data.value.user == Undefined;
    }
  }

  /** register */
  function RegisterFlow(c: Client, now: int, cedula: string, password: string, firstName: string,
                        lastName: string, phone: string, address: string, ex: Exchange): Flow
  {
    RegisterOutcome(c, now, cedula, password, firstName, lastName, phone, address, ex);
    var run := RegisterRun(c, now, cedula, password, firstName, lastName, phone, address, ex);
    if run.envelope.success then
      Flow(ActionOutcome(true, None), Effect([AuthStart], run.client))
    else
      Flow(ActionOutcome(false, run.envelope.error), Effect([AuthStart, AuthError(run.envelope.error.value)], run.client))
  }

  /** A successful registration dispatches nothing after AUTH_START, so the
      state stays loading and the session is as it was; a failed one signs
      out with the error. */
  lemma RegisterFlowEffect(c: Client, now: int, cedula: string, password: string, firstName: string,
                           lastName: string, phone: string, address: string, ex: Exchange, s: AuthState)
    ensures var f := RegisterFlow(c, now, cedula, password, firstName, lastName, phone, address, ex);
            var after := Apply(s, f.effect.actions);
            var run := RegisterRun(c, now, cedula, password, firstName, lastName, phone, address, ex);
            && f.effect.client == run.client
            && f.effect.actions == (if f.outcome.success then [AuthStart] else [AuthStart, AuthError(f.outcome.error.value)])
            && (f.outcome.success <==> run.envelope.success)
            && (!f.outcome.success ==> f.outcome.error == run.envelope.error)
            && (f.outcome.success ==>
                  after.isLoading && after.isAuthenticated == s.isAuthenticated && after.user == s.user && after.error.None?)
            && (!f.outcome.success ==>
                  f.outcome.error.Some? && after == AuthState(Null, false, false, f.outcome.error))
  {
    RegisterOutcome(c, now, cedula, password, firstName, lastName, phone, address, ex);
  }

  /** logout */
  function LogoutEffect(c: Client): Effect {
    Effect([AuthLogout], c.(storage := Cleared(c.storage)))
  }

  /** Logging out removes every token and signs out, whatever the state. */
  lemma LogoutSignsOut(c: Client, s: AuthState, now: int)
    ensures var k := LogoutEffect(c);
            && Apply(s, k.actions) == AuthState(Null, false, false, None)
            && Item(k.client.storage, AccessKey) == None && Item(k.client.storage, RefreshKey) == None
            && Expired(k.client.storage, now)
            && k.client.outbox == c.outbox
  {
    ClearedIsEmptyAndIdempotent(c.storage, now);
  }

  // ----- the provider --------------------------------------------------------

  class AuthProvider {
    var state: AuthState
    var dispatched: seq<Action>
    const repository: AuthRepository
    const loginUseCase: LoginUseCase
    const registerUseCase: RegisterUseCase
    const refreshTokenUseCase: RefreshTokenUseCase
    const verifyTokenUseCase: VerifyTokenUseCase

    /** The state is the reducer folded over the dispatch log, and the four
        use cases share the provider's repository. */
    predicate Valid()
      reads this
    {
      && state == Apply(InitialState, dispatched)
      && loginUseCase.repository == repository
      && registerUseCase.repository == repository
      && refreshTokenUseCase.repository == repository
      && verifyTokenUseCase.repository == repository
    }

    constructor(repository: AuthRepository)
      ensures Valid() && state == InitialState && dispatched == []
      ensures this.repository == repository
    {
      this.repository := repository;
      loginUseCase := new LoginUseCase(repository);
      registerUseCase := new RegisterUseCase(repository);
      refreshTokenUseCase := new RefreshTokenUseCase(repository);
      verifyTokenUseCase := new VerifyTokenUseCase(repository);
      state := InitialState;
      dispatched := [];
    }

    method Dispatch(a: Action)
      requires Valid()
      modifies this`state, this`dispatched
      ensures Valid()
      ensures state == Reduce(old(state), a) && dispatched == old(dispatched) + [a]
    {
      assert (dispatched + [a])[..|dispatched|] == dispatched;
      state := Reduce(state, a);
      dispatched := dispatched + [a];
    }

    method CheckAuthStatus(now: int, first: Exchange, refresh: Exchange, second: Exchange)
      requires Valid()
      modifies this, repository
      ensures Valid()
      ensures var k := CheckStatus(old(repository.Snapshot()), now, first, refresh, second);
              && dispatched == old(dispatched) + k.actions && repository.Snapshot() == k.client
              && state == Apply(old(state), k.actions)
    {
      ghost var d0 := dispatched;
      ghost var k := CheckStatus(repository.Snapshot(), now, first, refresh, second);
      Dispatch(AuthStart);
      var result := verifyTokenUseCase.Execute(now, first);
      if Confirmed(result) {
        Dispatch(AuthSuccess(ConfirmedUser(result)));
      } else {
        var refreshResult := refreshTokenUseCase.Execute(now, refresh);
        if refreshResult.success {
          var verifyResult := verifyTokenUseCase.Execute(now, second);
          if Confirmed(verifyResult) {
            Dispatch(AuthSuccess(ConfirmedUser(verifyResult)));
          } else {
            Dispatch(AuthLogout);
          }
        } else {
          Dispatch(AuthLogout);
        }
      }
      ApplyAppend(InitialState, d0, k.actions);
    }

    method Login(now: int, cedula: string, password: string, ex: Exchange) returns (outcome: ActionOutcome)
      requires Valid()
      modifies this, repository
      ensures Valid()
      ensures var f := LoginFlow(old(repository.Snapshot()), now, cedula, password, ex);
              && outcome == f.outcome && dispatched == old(dispatched) + f.effect.actions && repository.Snapshot() == f.effect.client
              && state == Apply(old(state), f.effect.actions)
    {
      ghost var c := repository.Snapshot();
      ghost var d0 := dispatched;
      LoginOutcome(c, now, cedula, password, ex);
      Dispatch(AuthStart);
      var result := loginUseCase.Execute(now, cedula, password, ex);
      if result.success {
        Dispatch(AuthSuccess(result.data.value.user));
        outcome := ActionOutcome(true, None);
      } else {
        Dispatch(AuthError(result.error.value));
        outcome := ActionOutcome(false, result.error);
      }
      ApplyAppend(InitialState, d0, dispatched[|d0|..]);
      assert d0 + dispatched[|d0|..] == dispatched;
    }

    method Register(now: int, cedula: string, password: string, firstName: string, lastName: string,
                    phone: string, address: string, ex: Exchange) returns (outcome: ActionOutcome)
      requires Valid()
      modifies this, repository
      ensures Valid()
      ensures var f := RegisterFlow(old(repository.Snapshot()), now, cedula, password, firstName, lastName, phone, address, ex);
              && outcome == f.outcome && dispatched == old(dispatched) + f.effect.actions && repository.Snapshot() == f.effect.client
              && state == Apply(old(state), f.effect.actions)
    {
      ghost var c := repository.Snapshot();
      ghost var d0 := dispatched;
      RegisterOutcome(c, now, cedula, password, firstName, lastName, phone, address, ex);
      Dispatch(AuthStart);
      var result := registerUseCase.Execute(now, cedula, password, firstName, lastName, phone, address, ex);
      if result.success {
        outcome := ActionOutcome(true, None);
      } else {
        Dispatch(AuthError(result.error.value));
        outcome := ActionOutcome(false, result.error);
      }
      ApplyAppend(InitialState, d0, dispatched[|d0|..]);
      assert d0 + dispatched[|d0|..] == dispatched;
    }

    method Logout()
      requires Valid()
      modifies this, repository
      ensures Valid()
      ensures var k := LogoutEffect(old(repository.Snapshot()));
              && dispatched == old(dispatched) + k.actions && repository.Snapshot() == k.client
              && state == Apply(old(state), k.actions)
    {
      ghost var d0 := dispatched;
      repository.ClearTokens();
      Dispatch(AuthLogout);
      ApplyAppend(InitialState, d0, dispatched[|d0|..]);
      assert d0 + dispatched[|d0|..] == dispatched;
    }
  }
}
