/** client/src/contexts/AuthContext/index.tsx: the `AuthProvider` state
    cells and the callbacks and effect subscriptions that set them. Each
    transition is a function on `AuthState` that also lists the outside
    effects it causes; the class `AuthProvider` holds the cells and its
    handlers follow those functions. Toasts and the 1500 ms timer itself are
    not modelled; the timer's expiry is its own transition. */
module AuthContext {
  import opened Wrappers
  import opened Json

  /** `session`, `sessionLoading` and `isLoggingOut`. `session` holds
      whatever value was last set: `null` at first, and not necessarily an
      object, since the initial load stores `data` unchecked. */
  datatype AuthState = AuthState(session: Value, sessionLoading: bool, isLoggingOut: bool)

  /** What a transition does outside the state: a `logoutUser()` request,
      a `'logout'` message posted on the broadcast channel, or the 1500 ms
      timer that resets `isLoggingOut` being started. */
  datatype Effect = ServerLogout | PostLogout | StartResetTimer

  datatype Step = Step(state: AuthState, effects: seq<Effect>)

  /** The cells' first values, with the layout effect's
      `setSessionLoading(true)` already applied. */
  const Initial: AuthState := AuthState(Null, true, false)

  /** `const isAuthenticated = session ? true : false` */
  predicate IsAuthenticated(s: AuthState) {
    Truthy(s.session)
  }

  /** The keys of the context value the provider exposes. */
  const ContextKeys: set<string> :=
    {"session", "sessionLoading", "isAuthenticated", "handleAuthSuccess", "logOut", "isLoggingOut"}

  /** The context value gives no way to set the session directly: a
      consumer that destructures `setSession` receives `undefined`. */
  lemma NoSetSession()
    ensures "setSession" !in ContextKeys
    ensures "handleAuthSuccess" in ContextKeys
  {
  }

  /** The initial `getSession()` settles. `result` is the resolved body, or
      `None` when the promise rejects. The session is set only when the body
      has `success === true`; loading ends in every case. */
  function SessionLoaded(s: AuthState, result: Option<Value>): (t: AuthState)
    ensures !t.sessionLoading
    ensures t.isLoggingOut == s.isLoggingOut
    ensures result.Some? && Prop(result.value, "success") == Bool(true) ==> t.session == Prop(result.value, "data")
    ensures result.None? || Prop(result.value, "success") != Bool(true) ==> t.session == s.session
  {
    var session :=
      if result.Some? && Prop(result.value, "success") == Bool(true) then Prop(result.value, "data")
      else s.session;
    AuthState(session, false, s.isLoggingOut)
  }

  /** `logOut()`: whatever the server answers, the session is cleared,
      `isLoggingOut` is set, `'logout'` is posted and the reset timer is
      started. */
  function LogOut(s: AuthState): (step: Step)
    ensures step.state == AuthState(Null, s.sessionLoading, true)
    ensures !IsAuthenticated(step.state)
    ensures step.effects == [ServerLogout, PostLogout, StartResetTimer]
  {
    Step(AuthState(Null, s.sessionLoading, true), [ServerLogout, PostLogout, StartResetTimer])
  }

  /** The timer started by `logOut` fires: `setIsLoggingOut(false)`. */
  function ResetTimerFired(s: AuthState): (t: AuthState)
    ensures t.session == s.session && t.sessionLoading == s.sessionLoading && !t.isLoggingOut
  {
    s.(isLoggingOut := false)
  }

  /** The `AUTH_FAILURE` listener. With no session it returns at once; with
      one it logs out on the server, clears the session and posts
      `'logout'`, but leaves `isLoggingOut` alone. */
  function AuthFailure(s: AuthState): (step: Step)
    ensures !IsAuthenticated(s) ==> step == Step(s, [])
    ensures IsAuthenticated(s) ==> step == Step(s.(session := Null), [ServerLogout, PostLogout])
  {
    if !Truthy(s.session) then Step(s, [])
    else Step(s.(session := Null), [ServerLogout, PostLogout])
  }

  /** A `'logout'` message from another tab: clear the session, nothing else. */
  function LogoutMessage(s: AuthState): (t: AuthState)
    ensures t == s.(session := Null)
    ensures !IsAuthenticated(t)
  {
    s.(session := Null)
  }

  /** `handleAuthSuccess(newSession)` */
  function AuthSucceeded(s: AuthState, newSession: Value): (t: AuthState)
    ensures t == s.(session := newSession)
    ensures IsAuthenticated(t) <==> Truthy(newSession)
  {
    s.(session := newSession)
  }

  /** A failed refresh reaching a signed-out provider causes no request. In
      particular, once the session has been cleared by any route, further
      `AUTH_FAILURE` events are silent. */
  lemma AuthFailureOnlyWhenSignedIn(s: AuthState)
    ensures ServerLogout in AuthFailure(s).effects <==> IsAuthenticated(s)
    ensures AuthFailure(LogOut(s).state).effects == []
    ensures AuthFailure(AuthFailure(s).state).effects == []
    ensures AuthFailure(LogoutMessage(s)).effects == []
  {
  }

  /** Loading ends after the first load whatever its outcome, and the
      provider is then signed in exactly when the load reported
      `success === true` with a truthy `data`. */
  lemma InitialLoad(result: Option<Value>)
    ensures var t := SessionLoaded(Initial, result);
            !t.sessionLoading && !t.isLoggingOut
            && (IsAuthenticated(t) <==>
                  result.Some? && Prop(result.value, "success") == Bool(true) && Truthy(Prop(result.value, "data")))
  {
  }

  /** The two routes to signing out differ only in `isLoggingOut` and in
      the reset timer: after either, the session is `null`. */
  lemma SignOutRoutesAgree(s: AuthState)
    requires IsAuthenticated(s)
    ensures LogOut(s).state.session == AuthFailure(s).state.session == Null
    ensures AuthFailure(s).state.isLoggingOut == s.isLoggingOut
    ensures LogOut(s).state.isLoggingOut
    ensures ResetTimerFired(LogOut(s).state) == AuthFailure(s).state.(isLoggingOut := false)
  {
  }

  /** `<AuthProvider>`: the three state cells and a log of outside effects. */
  class AuthProvider {
    var session: Value
    var sessionLoading: bool
    var isLoggingOut: bool
    var effects: seq<Effect>

    function State(): AuthState
      reads this
    {
      AuthState(session, sessionLoading, isLoggingOut)
    }

    /** Mounting: the cells' initial values, then the layout effect's
        `setSessionLoading(true)`. */
    constructor ()
      ensures State() == Initial && effects == []
    {
      session := Null;
      sessionLoading := true;
      isLoggingOut := false;
      effects := [];
    }

    method SessionSettled(result: Option<Value>)
      modifies this
      ensures State() == SessionLoaded(old(State()), result) && effects == old(effects)
    {
      if result.Some? {
        var success := Prop(result.value, "success");
        if success == Bool(true) {
          session := Prop(result.value, "data");
        }
      }
      sessionLoading := false;
    }

    method HandleLogOut()
      modifies this
      ensures State() == LogOut(old(State())).state
      ensures effects == old(effects) + LogOut(old(State())).effects
    {
      effects := effects + [ServerLogout];
      isLoggingOut := true;
      session := Null;
      effects := effects + [PostLogout, StartResetTimer];
    }

    method HandleResetTimer()
      modifies this
      ensures State() == ResetTimerFired(old(State())) && effects == old(effects)
    {
      isLoggingOut := false;
    }

    method HandleAuthFailure()
      modifies this
      ensures State() == AuthFailure(old(State())).state
      ensures effects == old(effects) + AuthFailure(old(State())).effects
    {
      if !Truthy(session) {
        return;
      }
      effects := effects + [ServerLogout];
      session := Null;
      effects := effects + [PostLogout];
    }

    method HandleLogoutMessage()
      modifies this
      ensures State() == LogoutMessage(old(State())) && effects == old(effects)
    {
      session := Null;
    }

    method HandleAuthSuccess(newSession: Value)
      modifies this
      ensures State() == AuthSucceeded(old(State()), newSession) && effects == old(effects)
    {
      session := newSession;
    }
  }
}
