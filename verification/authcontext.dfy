/** The authentication context (src/context/AuthContext.tsx): the shared
    auth state and how loading the current user, login, register, logout and
    a password-reset request change it. Each API call's outcome is an input;
    an `Err` outcome is a call that threw. */
module AuthContext {
  import opened Base
  import opened Types

  const LoadFailed := "Failed to load user"
  const LoginFailed := "Invalid email or password"
  const RegisterFailed := "Registration failed"
  const LogoutFailed := "Logout failed"
  const ResetFailed := "Password reset failed"

  /** The state before anything has loaded. */
  const Initial := AuthState(None, false, true, None)

  /** What an operation leaves behind: the new state, and what the caller
      sees — the call's value, or the error rethrown. */
  datatype Reply<T> = Reply(state: AuthState, result: Result<T>)

  /** The state agrees with itself: authenticated exactly when there is a user. */
  predicate Consistent(s: AuthState) {
    s.isAuthenticated <==> s.user.Some?
  }

  /** The state a failed call leaves: the state the call started from, with
      loading finished and the message set. */
  function Failed(s: AuthState, message: string): (r: AuthState)
    ensures r.user == s.user && r.isAuthenticated == s.isAuthenticated
    ensures !r.isLoading && r.error == Some(message)
  {
    s.(isLoading := false, error := Some(message))
  }

  /** The state after a successful login or registration. */
  function SignedIn(u: User): (r: AuthState)
    ensures r.user == Some(u) && r.isAuthenticated && !r.isLoading && r.error.None?
  {
    AuthState(Some(u), true, false, None)
  }

  /** The start-up load: `getCurrentUser` answers a user or null, or throws. */
  function Load(answer: Result<Option<User>>): (r: AuthState)
    ensures !r.isLoading
    ensures r.isAuthenticated <==> answer.Ok? && answer.value.Some?
    ensures answer.Ok? ==> r.user == answer.value && r.error.None?
    ensures answer.Err? ==> r.user.None? && r.error == Some(LoadFailed)
  {
    match answer
    case Ok(u) => AuthState(u, u.Some?, false, None)
    case Err(_) => AuthState(None, false, false, Some(LoadFailed))
  }

  /** `login` and `register` share one shape: success signs the user in, a
      failure keeps the user, sets the message and rethrows. */
  function SignIn(s: AuthState, answer: Result<User>, message: string): (r: Reply<()>)
    ensures answer.Ok? ==> r.state == SignedIn(answer.value) && r.result.Ok?
    ensures answer.Err? ==> r.state == Failed(s, message) && r.result == Err(answer.message)
  {
    match answer
    case Ok(u) => Reply(SignedIn(u), Ok(()))
    case Err(e) => Reply(Failed(s, message), Err(e))
  }

  function Login(s: AuthState, answer: Result<User>): (r: Reply<()>)
    ensures answer.Ok? ==> r.state.user == Some(answer.value) && r.state.isAuthenticated
    ensures answer.Ok? ==> !r.state.isLoading && r.state.error.None? && r.result.Ok?
    ensures answer.Err? ==> r.state == s.(isLoading := false, error := Some(LoginFailed))
    ensures answer.Err? ==> r.result.Err?
  {
    SignIn(s, answer, LoginFailed)
  }

  function Register(s: AuthState, answer: Result<User>): (r: Reply<()>)
    ensures answer.Ok? ==> r.state.user == Some(answer.value) && r.state.isAuthenticated
    ensures answer.Ok? ==> !r.state.isLoading && r.state.error.None? && r.result.Ok?
    ensures answer.Err? ==> r.state == s.(isLoading := false, error := Some(RegisterFailed))
    ensures answer.Err? ==> r.result.Err?
  {
    SignIn(s, answer, RegisterFailed)
  }

  /** `logout`: success clears the user; a failure keeps it and rethrows. */
  function Logout(s: AuthState, answer: Result<()>): (r: Reply<()>)
    ensures answer.Ok? ==> r.state.user.None? && !r.state.isAuthenticated
    ensures answer.Ok? ==> !r.state.isLoading && r.state.error.None? && r.result.Ok?
    ensures answer.Err? ==> r.state == s.(isLoading := false, error := Some(LogoutFailed))
    ensures answer.Err? ==> r.result.Err?
  {
    match answer
    case Ok(_) => Reply(AuthState(None, false, false, None), Ok(()))
    case Err(e) => Reply(Failed(s, LogoutFailed), Err(e))
  }

  /** `forgotPassword`: only loading and the error change; the API's answer
      (a success flag and a message) is handed back unchanged. */
  function ForgotPassword(s: AuthState, answer: Result<(bool, string)>): (r: Reply<(bool, string)>)
    ensures r.state.user == s.user && r.state.isAuthenticated == s.isAuthenticated
    ensures !r.state.isLoading
    ensures r.result == answer
    ensures answer.Ok? ==> r.state.error.None?
    ensures answer.Err? ==> r.state.error == Some(ResetFailed)
  {
    match answer
    case Ok(v) => Reply(s.(isLoading := false, error := None), Ok(v))
    case Err(e) => Reply(Failed(s, ResetFailed), Err(e))
  }

  /** Every operation keeps the state consistent. */
  lemma ConsistentAlways(s: AuthState, u: Result<Option<User>>, a: Result<User>, o: Result<()>, f: Result<(bool, string)>)
    requires Consistent(s)
    ensures Consistent(Initial) && Consistent(Load(u))
    ensures Consistent(Login(s, a).state) && Consistent(Register(s, a).state)
    ensures Consistent(Logout(s, o).state) && Consistent(ForgotPassword(s, f).state)
  {
  }

  /** Register differs from login only in its failure message. */
  lemma RegisterLikeLogin(s: AuthState, a: Result<User>)
    ensures Register(s, a).result == Login(s, a).result
    ensures Register(s, a).state.(error := None) == Login(s, a).state.(error := None)
    ensures a.Ok? ==> Register(s, a) == Login(s, a)
  {
  }

  /** Signing in and then out successfully leaves the state a load that found
      nobody gives. */
  lemma LoginThenLogout(s: AuthState, u: User)
    ensures Logout(Login(s, Ok(u)).state, Ok(())).state == Load(Ok(None))
  {
  }

  /** A failed sign-in does not sign out a user who was already signed in. */
  lemma FailedLoginKeepsSession(u: User)
    ensures Login(SignedIn(u), Err("network")).state.user == Some(u)
    ensures Login(SignedIn(u), Err("network")).state.isAuthenticated
  {
  }
}
