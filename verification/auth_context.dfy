/**
 * The authentication context (context/AuthContext.tsx): the reducer over the
 * four-field authentication state, the error classifier `handleError`, and
 * the provider's `login`, `logout`, `updateUser` and `refreshTokens`.
 *
 * The provider is the class `AuthProvider`. Its `effects` field is the log of
 * everything it does in order: dispatched actions, toasts, navigations and
 * `localStorage` writes. The reducer state is always the fold of the reducer
 * over the dispatched actions of that log. The HTTP requests are not
 * modelled: their outcomes are parameters.
 */
module AuthContext {
  import opened Wrappers
  import opened Interfaces

  type NullableString = Option<string>

  /** `Partial<UserInterface>`: a field is `None` when the payload does not
      carry it. */
  datatype UserPatch = UserPatch(
    id: Option<int>,
    username: Option<string>,
    email: Option<string>,
    firstName: Option<string>,
    lastName: Option<string>,
    isSuperuser: Option<bool>,
    isStaff: Option<bool>,
    isActive: Option<bool>,
    dateJoined: Option<string>,
    lastLogin: Option<NullableString>,
    profileImage: Option<NullableString>)

  /** The reducer's actions; `Unknown` is any other `type`, which the
      `default` branch handles. */
  datatype AuthAction =
    | SetUser(user: UserInfo)
    | SetTokens(tokens: AuthTokens)
    | SetLoading(loading: bool)
    | Logout
    | UpdateUser(patch: UserPatch)
    | Unknown

  const InitialState: AuthState := AuthState(None, None, false, false)

  /** `{ ...user, ...patch }`. */
  function Merge(u: UserInfo, p: UserPatch): UserInfo {
    UserInfo(
      p.id.GetOr(u.id), p.username.GetOr(u.username), p.email.GetOr(u.email),
      p.firstName.GetOr(u.firstName), p.lastName.GetOr(u.lastName),
      p.isSuperuser.GetOr(u.isSuperuser), p.isStaff.GetOr(u.isStaff), p.isActive.GetOr(u.isActive),
      p.dateJoined.GetOr(u.dateJoined), p.lastLogin.GetOr(u.lastLogin), p.profileImage.GetOr(u.profileImage))
  }

  /** `authReducer`. */
  function AuthReducer(state: AuthState, action: AuthAction): AuthState {
    match action
    case SetUser(u) => state.(user := Some(u), isAuthenticated := true, isLoading := false)
    case SetTokens(t) => state.(tokens := Some(t))
    case SetLoading(b) => state.(isLoading := b)
    case Logout => InitialState.(isLoading := false)
    case UpdateUser(p) => state.(user := if state.user.Some? then Some(Merge(state.user.value, p)) else None)
    case Unknown => state
  }

  /** `SET_USER` stores the user, signs in and stops loading; the tokens stay. */
  lemma SetUserEffect(state: AuthState, u: UserInfo)
    ensures var r := AuthReducer(state, SetUser(u));
      r.user == Some(u) && r.isAuthenticated && !r.isLoading && r.tokens == state.tokens
  {
  }

  /** `SET_TOKENS` changes only the tokens and `SET_LOADING` only the flag. */
  lemma SetTokensAndLoadingFrame(state: AuthState, t: AuthTokens, b: bool)
    ensures AuthReducer(state, SetTokens(t)) == state.(tokens := Some(t))
    ensures AuthReducer(state, SetLoading(b)) == state.(isLoading := b)
  {
  }

  /** `LOGOUT` leads to the initial state whatever the state before. */
  lemma LogoutResets(state: AuthState)
    ensures AuthReducer(state, Logout) == InitialState
    ensures InitialState.user.None? && InitialState.tokens.None? && !InitialState.isAuthenticated && !InitialState.isLoading
  {
  }

  /** `UPDATE_USER` overwrites exactly the fields the payload carries on a
      present user; an absent user stays absent; the rest of the state stays. */
  lemma UpdateUserEffect(state: AuthState, p: UserPatch)
    ensures var r := AuthReducer(state, UpdateUser(p));
      && r.tokens == state.tokens && r.isAuthenticated == state.isAuthenticated && r.isLoading == state.isLoading
      && (state.user.None? ==> r.user.None?)
      && (state.user.Some? ==> r.user.Some? && Merge(state.user.value, p) == r.user.value)
  {
  }

  /** The merge keeps every field the payload leaves out and takes every field
      it carries. */
  lemma MergeFields(u: UserInfo, p: UserPatch)
    ensures Merge(u, UserPatch(None, None, None, None, None, None, None, None, None, None, None)) == u
    ensures p.email.Some? ==> Merge(u, p).email == p.email.value
    ensures p.email.None? ==> Merge(u, p).email == u.email
    ensures p.id.None? ==> Merge(u, p).id == u.id
    ensures Merge(Merge(u, p), p) == Merge(u, p)
  {
  }

  /** An unknown action returns the state unchanged. */
  lemma UnknownIsIdentity(state: AuthState)
    ensures AuthReducer(state, Unknown) == state
  {
  }

  /** The state's invariant: signed in exactly when a user is present. */
  predicate Consistent(state: AuthState) {
    state.isAuthenticated <==> state.user.Some?
  }

  /** Every action keeps the invariant. */
  lemma ReducerKeepsConsistent(state: AuthState, action: AuthAction)
    requires Consistent(state)
    ensures Consistent(AuthReducer(state, action))
  {
  }

  /** The state after a list of actions, applied in order. */
  function Reduce(state: AuthState, actions: seq<AuthAction>): AuthState {
    if actions == [] then state else AuthReducer(Reduce(state, actions[..|actions| - 1]), actions[|actions| - 1])
  }

  /** Every state reachable from the initial state is consistent. */
  lemma {:induction false} ReachableIsConsistent(actions: seq<AuthAction>)
    ensures Consistent(Reduce(InitialState, actions))
    decreases |actions|
  {
    if actions != [] {
      ReachableIsConsistent(actions[..|actions| - 1]);
      ReducerKeepsConsistent(Reduce(InitialState, actions[..|actions| - 1]), actions[|actions| - 1]);
    }
  }

  /** A toast: title, description, and whether it is the destructive variant. */
  datatype Toast = Toast(title: string, description: string, destructive: bool)

  /** What the error handler is given: an axios error with its response
      (status and the `message` of its body, if any) or a bare request, or
      any other thrown value. */
  datatype ErrorResponse = ErrorResponse(status: int, message: Option<string>)
  datatype ErrorValue = AxiosError(response: Option<ErrorResponse>, requestSent: bool) | OtherError

  /** What a value written to `localStorage` holds. */
  datatype StoredValue = TextValue(text: string) | UserValue(user: UserInfo) | TokensValue(tokens: AuthTokens)

  /** One observable step of the provider. */
  datatype Effect =
    | Dispatched(action: AuthAction)
    | ShowToast(toast: Toast)
    | Navigate(path: string)
    | Store(key: string, value: StoredValue)
    | Remove(key: string)

  /** The state after one effect: a dispatch runs the reducer, anything
      else leaves the state alone. */
  function Step(state: AuthState, e: Effect): AuthState {
    if e.Dispatched? then AuthReducer(state, e.action) else state
  }

  /** The state after the dispatched actions among `effects`. */
  function Apply(state: AuthState, effects: seq<Effect>): AuthState
    decreases |effects|
  {
    if effects == [] then state else Apply(Step(state, effects[0]), effects[1..])
  }

  /** The dispatched actions among `effects`, in order. */
  function Actions(effects: seq<Effect>): seq<AuthAction> {
    if effects == [] then []
    else (if effects[0].Dispatched? then [effects[0].action] else []) + Actions(effects[1..])
  }

  /** Applying a log is reducing over its actions. */
  lemma {:induction false} ApplyIsReduce(state: AuthState, effects: seq<Effect>)
    ensures Apply(state, effects) == Reduce(state, Actions(effects))
    decreases |effects|
  {
    if effects != [] {
      ApplyIsReduce(Step(state, effects[0]), effects[1..]);
      var first := if effects[0].Dispatched? then [effects[0].action] else [];
      ReduceAppend(state, first, Actions(effects[1..]));
      assert first == [] || first[..0] == [];
    }
  }

  /** Reducing over two lists one after the other. */
  lemma {:induction false} ReduceAppend(state: AuthState, a: seq<AuthAction>, b: seq<AuthAction>)
    ensures Reduce(state, a + b) == Reduce(Reduce(state, a), b)
    decreases |b|
  {
    if b == [] {
      assert a + b == a;
    } else {
      ReduceAppend(state, a, b[..|b| - 1]);
      assert (a + b)[..|a + b| - 1] == a + b[..|b| - 1];
      assert (a + b)[|a + b| - 1] == b[|b| - 1];
    }
  }

  /** Applying two logs one after the other is applying their concatenation. */
  lemma {:induction false} ApplyAppend(state: AuthState, a: seq<Effect>, b: seq<Effect>)
    ensures Apply(state, a + b) == Apply(Apply(state, a), b)
    decreases |a|
  {
    if a == [] {
      assert a + b == b;
    } else {
      ApplyAppend(Step(state, a[0]), a[1..], b);
      assert (a + b)[0] == a[0];
      assert (a + b)[1..] == a[1..] + b;
    }
  }

  /** A log with no dispatch leaves the state alone. */
  lemma {:induction false} ApplyNoDispatch(state: AuthState, effects: seq<Effect>)
    requires forall k | 0 <= k < |effects| :: !effects[k].Dispatched?
    ensures Apply(state, effects) == state
    decreases |effects|
  {
    if effects != [] {
      assert !effects[0].Dispatched?;
      ApplyNoDispatch(state, effects[1..]);
    }
  }

  /** A single dispatch runs the reducer once. */
  lemma ApplyDispatch(state: AuthState, action: AuthAction)
    ensures Apply(state, [Dispatched(action)]) == AuthReducer(state, action)
  {
    assert [Dispatched(action)][1..] == [];
  }

  /** Appending one effect is taking one more step. */
  lemma ApplySnoc(state: AuthState, effects: seq<Effect>, e: Effect)
    ensures Apply(state, effects + [e]) == Step(Apply(state, effects), e)
  {
    ApplyAppend(state, effects, [e]);
    assert [e][1..] == [];
  }

  /** `handleSuccess(message)`. */
  function SuccessEffects(message: string): seq<Effect> {
    [ShowToast(Toast("Success", message, false))]
  }

  const GenericErrorText: string := "An unexpected error occurred"

  /** Only an axios error whose response has status 401 signs the user out. */
  predicate SignsOut(error: ErrorValue) {
    error.AxiosError? && error.response.Some? && error.response.value.status == 401
  }

  /** The toast `handleError` shows, if any: by status when there is a
      response (the body's non-empty `message` for a status other than 401
      and 403), "Network Error" for a request without response, nothing for
      an axios error with neither, and a generic toast for any other value. */
  function ErrorToast(error: ErrorValue): Option<Toast> {
    match error
    case OtherError => Some(Toast("Error", GenericErrorText, true))
    case AxiosError(response, requestSent) =>
      if response.Some? then
        var status := response.value.status;
        if status == 401 then Some(Toast("Authentication Error", "Your session has expired. Please log in again.", true))
        else if status == 403 then Some(Toast("Permission Denied", "You don't have permission to perform this action.", true))
        else
          var message := response.value.message;
          Some(Toast("Error", if message.Some? && message.value != [] then message.value else GenericErrorText, true))
      else if requestSent then
        Some(Toast("Network Error", "Unable to connect to the server. Please check your internet connection.", true))
      else None
  }

  /** `handleError(error)`: the toast, then for a 401 the `LOGOUT` dispatch
      and the redirect to the login page. */
  function ErrorEffects(error: ErrorValue): seq<Effect> {
    (if ErrorToast(error).Some? then [ShowToast(ErrorToast(error).value)] else [])
    + (if SignsOut(error) then [Dispatched(Logout), Navigate("/login")] else [])
  }

  /** The shape of the classification: a toast, always destructive, unless
      the axios error has neither response nor request; a 401 alone
      dispatches (`LOGOUT`, once) and redirects to the login page. */
  lemma ErrorClassification(error: ErrorValue)
    ensures var effects := ErrorEffects(error);
      && (effects == [] <==> error.AxiosError? && error.response.None? && !error.requestSent)
      && (effects != [] ==> effects[0].ShowToast? && effects[0].toast.destructive)
      && Actions(effects) == (if SignsOut(error) then [Logout] else [])
      && (Navigate("/login") in effects <==> SignsOut(error))
  {
    var toast := if ErrorToast(error).Some? then [ShowToast(ErrorToast(error).value)] else [];
    var tail := if SignsOut(error) then [Dispatched(Logout), Navigate("/login")] else [];
    ActionsAppend(toast, tail);
    assert toast == [] || toast[1..] == [];
    if SignsOut(error) {
      assert tail[1..][1..] == [];
    }
  }

  /** The dispatched actions of two logs one after the other. */
  lemma {:induction false} ActionsAppend(a: seq<Effect>, b: seq<Effect>)
    ensures Actions(a + b) == Actions(a) + Actions(b)
    decreases |a|
  {
    if a == [] {
      assert a + b == b;
    } else {
      ActionsAppend(a[1..], b);
      assert (a + b)[0] == a[0];
      assert (a + b)[1..] == a[1..] + b;
    }
  }

  /** The toast titles by case. */
  lemma ErrorTitles(error: ErrorValue)
    ensures error.OtherError? ==> ErrorToast(error) == Some(Toast("Error", GenericErrorText, true))
    ensures SignsOut(error) ==> ErrorToast(error).Some? && ErrorToast(error).value.title == "Authentication Error"
    ensures error.AxiosError? && error.response.Some? && error.response.value.status == 403 ==>
      ErrorToast(error).Some? && ErrorToast(error).value.title == "Permission Denied"
    ensures error.AxiosError? && error.response.Some? && error.response.value.status != 401 && error.response.value.status != 403 ==>
      && ErrorToast(error).Some? && ErrorToast(error).value.title == "Error"
      && ErrorToast(error).value.description == (match error.response.value.message
                                                 case Some(m) => if m == [] then GenericErrorText else m
                                                 case None => GenericErrorText)
    ensures error.AxiosError? && error.response.None? ==>
      (ErrorToast(error).Some? <==> error.requestSent)
      && (error.requestSent ==> ErrorToast(error).value.title == "Network Error")
  {
  }

  /** An error leaves the state as it was, or signs out on a 401. */
  lemma ErrorState(state: AuthState, error: ErrorValue)
    ensures Apply(state, ErrorEffects(error)) == if SignsOut(error) then InitialState else state
  {
    var toast := if ErrorToast(error).Some? then [ShowToast(ErrorToast(error).value)] else [];
    var tail := if SignsOut(error) then [Dispatched(Logout), Navigate("/login")] else [];
    ApplyAppend(state, toast, tail);
    ApplyNoDispatch(state, toast);
    if SignsOut(error) {
      assert tail[1..] == [Navigate("/login")];
      ApplyNoDispatch(InitialState, tail[1..]);
    }
  }

  /** The three `localStorage.removeItem` calls of `logout`. */
  const ClearStorage: seq<Effect> := [Remove("access-token"), Remove("refresh-token"), Remove("user")]

  /** `logout()`: clear the stored session, dispatch `LOGOUT`, show the
      success toast and go to the home page. */
  const LogoutEffects: seq<Effect> :=
    ClearStorage + [Dispatched(Logout)] + SuccessEffects("Successfully logged out") + [Navigate("/")]

  /** Logging out from any state ends in the initial state, and `LOGOUT` is
      its only dispatch. */
  lemma LogoutFromAnyState(state: AuthState)
    ensures Apply(state, LogoutEffects) == InitialState
    ensures Actions(LogoutEffects) == [Logout]
  {
    var after := SuccessEffects("Successfully logged out") + [Navigate("/")];
    assert LogoutEffects == ClearStorage + ([Dispatched(Logout)] + after);
    ApplyAppend(state, ClearStorage, [Dispatched(Logout)] + after);
    ApplyNoDispatch(state, ClearStorage);
    assert ([Dispatched(Logout)] + after)[1..] == after;
    ApplyNoDispatch(InitialState, after);
    ActionsAppend(ClearStorage, [Dispatched(Logout)] + after);
    NoDispatchNoActions(ClearStorage);
    NoDispatchNoActions(after);
  }

  /** A log without dispatches has no actions. */
  lemma {:induction false} NoDispatchNoActions(effects: seq<Effect>)
    requires forall k | 0 <= k < |effects| :: !effects[k].Dispatched?
    ensures Actions(effects) == []
    decreases |effects|
  {
    if effects != [] {
      assert !effects[0].Dispatched?;
      NoDispatchNoActions(effects[1..]);
    }
  }

  /** The login request's outcome: the token pair and user of the response
      body, or the error it threw. */
  datatype LoginOutcome = LoginOk(refresh: string, access: string, user: UserInfo) | LoginFailed(error: ErrorValue)

  /** What a successful login stores: both tokens and the user. */
  function SaveSession(refresh: string, access: string, user: UserInfo): seq<Effect> {
    [Store("access-token", TextValue(access)), Store("refresh-token", TextValue(refresh)), Store("user", UserValue(user))]
  }

  /** The body of `login`'s `try`/`catch`. */
  function LoginBody(outcome: LoginOutcome): seq<Effect> {
    match outcome
    case LoginOk(refresh, access, user) =>
      [Dispatched(SetTokens(AuthTokens(access, refresh))), Dispatched(SetUser(user))]
      + SaveSession(refresh, access, user) + SuccessEffects("Successfully logged in!") + [Navigate("/dashboard")]
    case LoginFailed(error) => ErrorEffects(error)
  }

  /** `login(email, password)`: loading on, the body, and (`finally`)
      loading off. */
  function LoginEffects(outcome: LoginOutcome): seq<Effect> {
    [Dispatched(SetLoading(true))] + LoginBody(outcome) + [Dispatched(SetLoading(false))]
  }

  /** The state after a successful login body: tokens and user stored, signed in. */
  lemma LoginBodyOk(state: AuthState, refresh: string, access: string, user: UserInfo)
    ensures Apply(state, LoginBody(LoginOk(refresh, access, user)))
         == AuthReducer(AuthReducer(state, SetTokens(AuthTokens(access, refresh))), SetUser(user))
  {
    var dispatches := [Dispatched(SetTokens(AuthTokens(access, refresh))), Dispatched(SetUser(user))];
    var rest := SaveSession(refresh, access, user) + SuccessEffects("Successfully logged in!") + [Navigate("/dashboard")];
    assert LoginBody(LoginOk(refresh, access, user)) == dispatches + rest;
    ApplyAppend(state, dispatches, rest);
    assert dispatches[1..] == [Dispatched(SetUser(user))];
    ApplyDispatch(AuthReducer(state, SetTokens(AuthTokens(access, refresh))), SetUser(user));
    ApplyNoDispatch(Apply(state, dispatches), rest);
  }

  /** A successful login stores the tokens and the user, signs in, and ends
      not loading; a failed one ends not loading with the state otherwise as
      before (or signed out, on a 401). */
  lemma LoginResult(state: AuthState, outcome: LoginOutcome)
    ensures var r := Apply(state, LoginEffects(outcome));
      && !r.isLoading
      && (outcome.LoginOk? ==>
            r.user == Some(outcome.user) && r.isAuthenticated
            && r.tokens == Some(AuthTokens(outcome.access, outcome.refresh)))
      && (outcome.LoginFailed? ==> r == (if SignsOut(outcome.error) then InitialState else state.(isLoading := false)))
  {
    var first := [Dispatched(SetLoading(true))];
    var last := [Dispatched(SetLoading(false))];
    var body := LoginBody(outcome);
    ApplyAppend(state, first + body, last);
    ApplyAppend(state, first, body);
    ApplyDispatch(state, SetLoading(true));
    var s1 := state.(isLoading := true);
    ApplyDispatch(Apply(s1, body), SetLoading(false));
    match outcome {
      case LoginOk(refresh, access, user) =>
        LoginBodyOk(s1, refresh, access, user);
      case LoginFailed(error) =>
        ErrorState(s1, error);
    }
  }

  /** The dispatches of a successful login body: the tokens, then the user. */
  lemma LoginBodyOkActions(refresh: string, access: string, user: UserInfo)
    ensures Actions(LoginBody(LoginOk(refresh, access, user))) == [SetTokens(AuthTokens(access, refresh)), SetUser(user)]
  {
    var dispatches := [Dispatched(SetTokens(AuthTokens(access, refresh))), Dispatched(SetUser(user))];
    var rest := SaveSession(refresh, access, user) + SuccessEffects("Successfully logged in!") + [Navigate("/dashboard")];
    assert LoginBody(LoginOk(refresh, access, user)) == dispatches + rest;
    ActionsAppend(dispatches, rest);
    NoDispatchNoActions(rest);
    assert dispatches[1..][1..] == [];
  }

  /** The dispatches of `login`, in order: loading on, then the tokens and
      the user on success (or the error's `LOGOUT`, on a 401), then loading
      off. */
  lemma LoginActions(outcome: LoginOutcome)
    ensures Actions(LoginEffects(outcome))
         == [SetLoading(true)]
            + (match outcome
               case LoginOk(refresh, access, user) => [SetTokens(AuthTokens(access, refresh)), SetUser(user)]
               case LoginFailed(error) => if SignsOut(error) then [Logout] else [])
            + [SetLoading(false)]
  {
    var first := [Dispatched(SetLoading(true))];
    var last := [Dispatched(SetLoading(false))];
    var body := LoginBody(outcome);
    ActionsAppend(first + body, last);
    ActionsAppend(first, body);
    assert first[1..] == [] && last[1..] == [];
    match outcome {
      case LoginOk(refresh, access, user) =>
        LoginBodyOkActions(refresh, access, user);
      case LoginFailed(error) =>
        ErrorClassification(error);
    }
  }

  /** The token-refresh request's outcome: the new access token, or the
      error it threw. */
  datatype RefreshOutcome = RefreshOk(access: string) | RefreshFailed(error: ErrorValue)

  /** `state.tokens?.refresh`, when it is present and not empty. */
  function RefreshToken(state: AuthState): Option<string> {
    if state.tokens.Some? && state.tokens.value.refresh != [] then Some(state.tokens.value.refresh) else None
  }

  /** `refreshTokens()` from `state`. Without a refresh token the request is
      not sent: the thrown `Error` takes the generic branch of the handler and
      the user is logged out. */
  function RefreshEffects(state: AuthState, outcome: RefreshOutcome): seq<Effect> {
    match RefreshToken(state)
    case None => ErrorEffects(OtherError) + LogoutEffects
    case Some(refresh) =>
      match outcome
      case RefreshOk(access) =>
        [Dispatched(SetTokens(AuthTokens(access, refresh))), Store("tokens", TokensValue(AuthTokens(access, refresh)))]
      case RefreshFailed(error) => ErrorEffects(error) + LogoutEffects
  }

  /** A missing refresh token ends in the signed-out initial state after the
      generic error toast. */
  lemma RefreshWithoutToken(state: AuthState, outcome: RefreshOutcome)
    requires RefreshToken(state).None?
    ensures Apply(state, RefreshEffects(state, outcome)) == InitialState
    ensures RefreshEffects(state, outcome)[0] == ShowToast(Toast("Error", GenericErrorText, true))
  {
    ApplyAppend(state, ErrorEffects(OtherError), LogoutEffects);
    LogoutFromAnyState(Apply(state, ErrorEffects(OtherError)));
  }

  /** A successful refresh replaces the access token, keeps the refresh
      token, and changes nothing else; a failed one signs out. */
  lemma RefreshResult(state: AuthState, outcome: RefreshOutcome)
    requires RefreshToken(state).Some?
    ensures outcome.RefreshOk? ==>
      Apply(state, RefreshEffects(state, outcome)) == state.(tokens := Some(AuthTokens(outcome.access, state.tokens.value.refresh)))
    ensures outcome.RefreshFailed? ==> Apply(state, RefreshEffects(state, outcome)) == InitialState
  {
    match outcome {
      case RefreshOk(access) =>
        var t := AuthTokens(access, state.tokens.value.refresh);
        var e := RefreshEffects(state, outcome);
        assert e == [Dispatched(SetTokens(t))] + [Store("tokens", TokensValue(t))];
        ApplyAppend(state, [Dispatched(SetTokens(t))], [Store("tokens", TokensValue(t))]);
        ApplyDispatch(state, SetTokens(t));
        ApplyNoDispatch(state.(tokens := Some(t)), [Store("tokens", TokensValue(t))]);
      case RefreshFailed(error) =>
        ApplyAppend(state, ErrorEffects(error), LogoutEffects);
        LogoutFromAnyState(Apply(state, ErrorEffects(error)));
    }
  }

  /** The provider: the reducer state and the log of what it has done. */
  class AuthProvider {
    var state: AuthState
    var effects: seq<Effect>

    /** The state is the reducer's fold over the log from the initial state. */
    predicate Valid()
      reads this
    {
      state == Apply(InitialState, effects)
    }

    constructor()
      ensures Valid() && effects == [] && state == InitialState
    {
      state := InitialState;
      effects := [];
    }

    /** Records a list of effects in order; each dispatch runs the reducer. */
    method EmitAll(es: seq<Effect>)
      requires Valid()
      modifies this
      ensures Valid() && effects == old(effects) + es
      ensures state == Apply(old(state), es)
    {
      for i := 0 to |es|
        invariant Valid() && effects == old(effects) + es[..i]
        invariant state == Apply(old(state), es[..i])
      {
        ApplySnoc(InitialState, effects, es[i]);
        ApplySnoc(old(state), es[..i], es[i]);
        assert es[..i + 1] == es[..i] + [es[i]];
        if es[i].Dispatched? {
          state := AuthReducer(state, es[i].action);
        }
        effects := effects + [es[i]];
      }
      assert es[..|es|] == es;
    }

    /** `handleError(error)`; the console output is not modelled. */
    method HandleError(error: ErrorValue)
      requires Valid()
      modifies this
      ensures Valid() && effects == old(effects) + ErrorEffects(error)
      ensures state == if SignsOut(error) then InitialState else old(state)
    {
      EmitAll(ErrorEffects(error));
      ErrorState(old(state), error);
    }

    /** `logout()`. */
    method LogOut()
      requires Valid()
      modifies this
      ensures Valid() && effects == old(effects) + LogoutEffects
      ensures state == InitialState
    {
      EmitAll(ClearStorage);
      EmitAll([Dispatched(Logout)]);
      EmitAll(SuccessEffects("Successfully logged out"));
      EmitAll([Navigate("/")]);
      LogoutFromAnyState(old(state));
      ApplyAppend(old(state), ClearStorage + [Dispatched(Logout)] + SuccessEffects("Successfully logged out"), [Navigate("/")]);
      ApplyAppend(old(state), ClearStorage + [Dispatched(Logout)], SuccessEffects("Successfully logged out"));
      ApplyAppend(old(state), ClearStorage, [Dispatched(Logout)]);
    }

    /** `updateUser(userData)`. */
    method UpdateUserData(patch: UserPatch)
      requires Valid()
      modifies this
      ensures Valid() && effects == old(effects) + [Dispatched(UpdateUser(patch))]
      ensures state == AuthReducer(old(state), UpdateUser(patch))
    {
      EmitAll([Dispatched(UpdateUser(patch))]);
      ApplyDispatch(old(state), UpdateUser(patch));
    }

    /** `login(email, password)`, whose request ended with `outcome`; `ok`
        is false when the error is rethrown. */
    method Login(outcome: LoginOutcome) returns (ok: bool)
      requires Valid()
      modifies this
      ensures Valid() && effects == old(effects) + LoginEffects(outcome)
      ensures ok <==> outcome.LoginOk?
    {
      ghost var before := effects;
      EmitAll([Dispatched(SetLoading(true))]);
      match outcome {
        case LoginOk(_, _, _) =>
          EmitAll(LoginBody(outcome));
          ok := true;
        case LoginFailed(error) =>
          HandleError(error);
          ok := false;
      }
      // `finally`
      EmitAll([Dispatched(SetLoading(false))]);
      assert effects == before + LoginEffects(outcome);
    }

    /** `refreshTokens()`, whose request (if sent) ended with `outcome`. */
    method RefreshTokens(outcome: RefreshOutcome)
      requires Valid()
      modifies this
      ensures Valid() && effects == old(effects) + RefreshEffects(old(state), outcome)
    {
      var refreshToken := if state.tokens.Some? then Some(state.tokens.value.refresh) else None;
      if refreshToken.None? || refreshToken.value == [] {
        HandleError(OtherError);
        LogOut();
        return;
      }
      match outcome {
        case RefreshOk(access) =>
          EmitAll([Dispatched(SetTokens(AuthTokens(access, refreshToken.value))),
                   Store("tokens", TokensValue(AuthTokens(access, refreshToken.value)))]);
        case RefreshFailed(error) =>
          HandleError(error);
          LogOut();
      }
    }
  }
}
