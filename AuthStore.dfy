/** The authentication store (src/stores/authStore.ts): the current user,
    whether the session is authenticated, a loading flag and the last error
    message, changed by login, register, logout, the session check and
    clearError. The service calls are inputs: what each one returned, or
    the message of what it threw. */
module AuthStore {
  import opened Basics

  /** The user record; only the role is read elsewhere (by the route
      guards). */
  datatype User = User(id: string, name: string, email: string, role: string)

  /** An `ApiResponse<User>` as the store reads it: `isSuccess`, the
      optional `error.message` and the optional user. */
  datatype AuthResponse = AuthResponse(isSuccess: bool, errorMessage: Option<string>, data: Option<User>)

  /** An awaited service call: its response, or the message of the error
      it threw. */
  datatype Call = Returned(response: AuthResponse) | Threw(message: string)

  datatype AuthState = AuthState(user: Option<User>, isAuthenticated: bool, isLoading: bool, error: Option<string>)

  const Initial := AuthState(None, false, true, None)

  /** The state every failure path of logout and checkAuth ends in. */
  const Cleared := AuthState(None, false, false, None)

  const LoginDefault := "Error al iniciar sesión"
  const RegisterDefault := "Error al registrarse"

  /** `a || b` on strings. */
  function OrDefault(s: Option<string>, default: string): (r: string)
    ensures s.Some? && s.value != "" ==> r == s.value
    ensures s.None? || s.value == "" ==> r == default
  {
    if s.Some? && s.value != "" then s.value else default
  }

  /** The state `checkAuth` ends in: authenticated with the returned user
      exactly when the call succeeded and carried one, otherwise cleared. */
  function CheckAuth(me: Call): (s: AuthState)
    ensures !s.isLoading && s.error == None
    ensures s.isAuthenticated <==> me.Returned? && me.response.isSuccess && me.response.data.Some?
    ensures s.isAuthenticated ==> s.user == me.response.data
    ensures !s.isAuthenticated ==> s == Cleared
  {
    if me.Returned? && me.response.isSuccess && me.response.data.Some?
    then AuthState(me.response.data, true, false, None)
    else Cleared
  }

  /** What login and register share: the state they end in and the message
      of the error they rethrow, if any. A successful call hands over to
      `checkAuth`; a response without success throws its own error, which
      the catch block records like any other. */
  function SignIn(s: AuthState, call: Call, me: Call, default: string): (r: (AuthState, Option<string>))
    requires default != ""
    ensures call.Returned? && call.response.isSuccess ==> r == (CheckAuth(me), None)
    ensures !(call.Returned? && call.response.isSuccess) ==>
      && r.1.Some?
      && r.0 == s.(isLoading := false, isAuthenticated := false, error := Some(OrDefault(r.1, default)))
    ensures call.Returned? && !call.response.isSuccess ==>
      r.1 == Some(OrDefault(call.response.errorMessage, default)) && r.1.value != ""
    ensures call.Threw? ==> r.1 == Some(call.message)
  {
    match call
    case Threw(m) =>
      (s.(isLoading := false, isAuthenticated := false, error := Some(OrDefault(Some(m), default))), Some(m))
    case Returned(response) =>
      if response.isSuccess then (CheckAuth(me), None)
      else
        var message := OrDefault(response.errorMessage, default);
        (s.(isLoading := false, isAuthenticated := false, error := Some(message)), Some(message))
  }

  /** A failed sign-in never leaves the session authenticated or loading,
      always records a non-empty message, and leaves `user` as it was. */
  lemma FailedSignIn(s: AuthState, call: Call, me: Call, default: string)
    requires default != ""
    requires !(call.Returned? && call.response.isSuccess)
    ensures var (t, thrown) := SignIn(s, call, me, default);
      && !t.isAuthenticated && !t.isLoading && t.user == s.user
      && t.error.Some? && t.error.value != "" && thrown.Some?
  {
  }

  /** A successful sign-in response does not authenticate by itself: with a
      failed session check the store ends cleared. */
  lemma SignInNeedsSessionCheck(s: AuthState, user: User, me: Call)
    requires !(me.Returned? && me.response.isSuccess && me.response.data.Some?)
    ensures SignIn(s, Returned(AuthResponse(true, None, Some(user))), me, LoginDefault) == (Cleared, None)
  {
  }

  class Store {
    var user: Option<User>
    var isAuthenticated: bool
    var isLoading: bool
    var error: Option<string>

    function State(): AuthState
      reads this
    {
      AuthState(user, isAuthenticated, isLoading, error)
    }

    constructor ()
      ensures State() == Initial
    {
      user := None;
      isAuthenticated := false;
      isLoading := true;
      error := None;
    }

    /** `set(partial)` for the fields the store's actions pass. */
    method Set(s: AuthState)
      modifies this
      ensures State() == s
    {
      user, isAuthenticated, isLoading, error := s.user, s.isAuthenticated, s.isLoading, s.error;
    }

    method CheckAuthAction(me: Call)
      modifies this
      ensures State() == CheckAuth(me)
    {
      isLoading, error := true, None;
      if me.Returned? && me.response.isSuccess && me.response.data.Some? {
        Set(AuthState(me.response.data, true, false, None));
      } else {
        Set(Cleared);
      }
    }

    /** `login` and `register`; `thrown` is the message of the rethrown
        error. */
    method SignInAction(call: Call, me: Call, default: string) returns (thrown: Option<string>)
      requires default != ""
      modifies this
      ensures (State(), thrown) == SignIn(old(State()).(isLoading := true, error := None), call, me, default)
    {
      isLoading, error := true, None;
      match call {
        case Threw(m) =>
          var message := OrDefault(Some(m), default);
          isLoading, isAuthenticated, error := false, false, Some(message);
          thrown := Some(m);
        case Returned(response) =>
          if response.isSuccess {
            CheckAuthAction(me);
            thrown := None;
          } else {
            var message := OrDefault(response.errorMessage, default);
            error, isLoading := Some(message), false;
            // the Error thrown here is caught, recorded again and rethrown
            error, isLoading, isAuthenticated := Some(OrDefault(Some(message), default)), false, false;
            thrown := Some(message);
          }
      }
    }

    method Login(call: Call, me: Call) returns (thrown: Option<string>)
      modifies this
      ensures (State(), thrown) == SignIn(old(State()).(isLoading := true, error := None), call, me, LoginDefault)
    {
      thrown := SignInAction(call, me, LoginDefault);
    }

    method Register(call: Call, me: Call) returns (thrown: Option<string>)
      modifies this
      ensures (State(), thrown) == SignIn(old(State()).(isLoading := true, error := None), call, me, RegisterDefault)
    {
      thrown := SignInAction(call, me, RegisterDefault);
    }

    /** `logout` ends cleared whether the call succeeds or throws, so the
        call's outcome is not a parameter. */
    method Logout()
      modifies this
      ensures State() == Cleared
    {
      isLoading, error := true, None;
      Set(Cleared);
    }

    method ClearError()
      modifies this`error
      ensures error == None
    {
      error := None;
    }
  }

  /** A failed login while signed in keeps the old user record although the
      session is no longer authenticated. */
  method FailedLoginKeepsUser(u: User, message: string) returns (state: AuthState, thrown: Option<string>)
    requires message != ""
    ensures state == AuthState(Some(u), false, false, Some(message))
    ensures thrown == Some(message)
  {
    var store := new Store();
    store.Set(AuthState(Some(u), true, false, None));
    thrown := store.Login(Returned(AuthResponse(false, Some(message), None)), Threw(""));
    state := store.State();
  }
}
