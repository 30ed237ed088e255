/** The sign-in form (`components/forms/auth/LoginForm.tsx`): where a successful sign-in leads. */
module LoginForm {
  import opened Wrappers
  import opened Types
  import AuthContext

  /** The page for a signed-in role: providers and admins have their own areas, everyone else the home page. */
  function RouteFor(role: UserRole): (route: string)
    ensures role == Provider ==> route == "/provider"
    ensures role == Admin ==> route == "/admin"
    ensures role == Client ==> route == "/"
  {
    if role == Provider then "/provider"
    else if role == Admin then "/admin"
    else "/"
  }

  /** Different roles lead to different pages. */
  lemma RoutesDistinct(r1: UserRole, r2: UserRole)
    ensures RouteFor(r1) == RouteFor(r2) <==> r1 == r2
  {
  }

  /** The navigation `handleSubmit` performs after `login` answers: none on failure or without a user. */
  function Navigation(success: bool, user: Option<User>): (route: Option<string>)
    ensures route.Some? <==> success && user.Some?
    ensures route.Some? ==> route.value == RouteFor(user.value.role)
  {
    if !success || user.None? then None else Some(RouteFor(user.value.role))
  }

  /**
   * `handleSubmit`: clear the error, sign in with what the server answers
   * (`reply`), then navigate by the returned user's role. The error is
   * cleared before the attempt starts.
   */
  method Submit(auth: AuthContext.AuthProvider, reply: AuthContext.LoginReply) returns (route: Option<string>)
    modifies auth
    ensures auth.state == AuthContext.LoginState(old(auth.state).(error := None), reply)
    ensures route == Navigation(reply.LoginAccepted?, if reply.LoginAccepted? then reply.user else None)
    ensures !reply.LoginAccepted? ==> route.None?
  {
    auth.ClearError();
    var success, user := auth.Login(reply);
    route := Navigation(success, user);
  }

  /** A rejected or failed sign-in never navigates, and leaves an error to show. */
  lemma FailedSignInStays(s: AuthContext.AuthState, reply: AuthContext.LoginReply)
    requires !reply.LoginAccepted?
    ensures AuthContext.LoginState(s.(error := None), reply).error.Some?
    ensures Navigation(false, None).None?
  {
    AuthContext.LoginStateSettles(s.(error := None), reply);
  }
}
