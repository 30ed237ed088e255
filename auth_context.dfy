/**
 * The client-side session: the five-action auth reducer, the in-memory
 * access token, and the request wrapper that refreshes once on a 401.
 * Network replies are parameters: each method receives what the server
 * answered.
 */
module AuthContext {
  import opened Wrappers
  import opened Types

  datatype AuthState = AuthState(
    user: Option<User>,
    isAuthenticated: bool,
    isLoading: bool,
    error: Option<string>)

  const InitialState := AuthState(None, false, false, None)

  /**
   * The declared actions. `LoginSuccess` carries `data.user`, which the
   * server may leave out; `Unrecognised` is an action of any other type.
   */
  datatype AuthAction =
    | LoginStart
    | LoginSuccess(user: Option<User>)
    | LoginFailure(message: string)
    | Logout
    | ClearError
    | Unrecognised(kind: string)

  /** `authReducer`. */
  function Reduce(s: AuthState, a: AuthAction): AuthState
  {
    match a
    case LoginStart => s.(isLoading := true, error := None)
    case LoginSuccess(u) => s.(isLoading := false, isAuthenticated := true, user := u, error := None)
    case LoginFailure(m) => s.(isLoading := false, isAuthenticated := false, user := None, error := Some(m))
    case Logout => s.(isLoading := false, isAuthenticated := false, user := None, error := None)
    case ClearError => s.(error := None)
    case Unrecognised(_) => s
  }

  /** Each action touches exactly the fields its case names. */
  lemma ReduceCases(s: AuthState, u: Option<User>, m: string, kind: string)
    ensures var r := Reduce(s, LoginStart);
      r.isLoading && r.error.None? && r.user == s.user && r.isAuthenticated == s.isAuthenticated
    ensures Reduce(s, LoginSuccess(u)) == AuthState(u, true, false, None)
    ensures Reduce(s, LoginFailure(m)) == AuthState(None, false, false, Some(m))
    ensures Reduce(s, Logout) == AuthState(None, false, false, None)
    ensures Reduce(s, ClearError) == s.(error := None)
    ensures Reduce(s, Unrecognised(kind)) == s
  {
  }

  /** A session is signed in exactly when it holds a user. */
  predicate Consistent(s: AuthState)
  {
    s.isAuthenticated <==> s.user.Some?
  }

  /** Every success payload carries a user. */
  predicate UserPayloads(actions: seq<AuthAction>)
  {
    forall i :: 0 <= i < |actions| && actions[i].LoginSuccess? ==> actions[i].user.Some?
  }

  /** The state after dispatching `actions` in order. */
  function ReduceAll(s: AuthState, actions: seq<AuthAction>): AuthState
    decreases |actions|
  {
    if actions == [] then s else ReduceAll(Reduce(s, actions[0]), actions[1..])
  }

  /**
   * From `initialState`, any run of actions whose success payloads are
   * users keeps `isAuthenticated` equal to "a user is present".
   */
  lemma {:induction false} ConsistentFromInitial(actions: seq<AuthAction>)
    requires UserPayloads(actions)
    ensures Consistent(ReduceAll(InitialState, actions))
  {
    ConsistentPreserved(InitialState, actions);
  }

  lemma {:induction false} ConsistentPreserved(s: AuthState, actions: seq<AuthAction>)
    requires Consistent(s) && UserPayloads(actions)
    ensures Consistent(ReduceAll(s, actions))
    decreases |actions|
  {
    if actions != [] {
      assert actions[0].LoginSuccess? ==> actions[0].user.Some?;
      assert UserPayloads(actions[1..]) by {
        forall i | 0 <= i < |actions[1..]| && actions[1..][i].LoginSuccess?
          ensures actions[1..][i].user.Some?
        {
          assert actions[1..][i] == actions[i + 1];
        }
      }
      ConsistentPreserved(Reduce(s, actions[0]), actions[1..]);
    }
  }

  /** A success whose reply has no user breaks the invariant, so the payload condition is needed. */
  lemma MissingUserBreaksConsistency()
    ensures !Consistent(Reduce(InitialState, LoginSuccess(None)))
  {
  }

  /** `data.accessToken || null`. */
  function TokenOrNull(t: Option<string>): (r: Option<string>)
    ensures r.Some? ==> r.value != "" && r == t
    ensures t.Some? && t.value != "" ==> r == t
  {
    if t.Some? && t.value != "" then t else None
  }

  /** The Authorization header a request carries: `Bearer <token>` when a token is held. */
  function AuthorizationHeader(token: Option<string>): (h: Option<string>)
    ensures h.Some? <==> token.Some? && token.value != ""
    ensures h.Some? ==> h.value == "Bearer " + token.value
  {
    if token.Some? && token.value != "" then Some("Bearer " + token.value) else None
  }

  /** What the login endpoint answered: a thrown fetch or body read, a non-ok reply, or an ok reply. */
  datatype LoginReply =
    | LoginThrew
    | LoginRejected(message: Option<string>)
    | LoginAccepted(accessToken: Option<string>, user: Option<User>)

  /** What the refresh endpoint answered. */
  datatype RefreshReply =
    | RefreshThrew
    | RefreshRejected
    | RefreshAccepted(accessToken: Option<string>, user: Option<User>)

  /** The failure message `login` dispatches for a non-ok reply. */
  function RejectionMessage(message: Option<string>): (m: string)
    ensures m != ""
    ensures message.Some? && message.value != "" ==> m == message.value
  {
    if message.Some? && message.value != "" then message.value else "Invalid credentials"
  }

  /** The state `login` leaves behind, starting from `s`. */
  function LoginState(s: AuthState, reply: LoginReply): AuthState
  {
    var started := Reduce(s, LoginStart);
    match reply
    case LoginThrew => Reduce(started, LoginFailure("Network error"))
    case LoginRejected(m) => Reduce(started, LoginFailure(RejectionMessage(m)))
    case LoginAccepted(_, u) => Reduce(started, LoginSuccess(u))
  }

  /** Whatever the reply, a login attempt ends with `isLoading` false; it signs in only on an ok reply. */
  lemma LoginStateSettles(s: AuthState, reply: LoginReply)
    ensures !LoginState(s, reply).isLoading
    ensures LoginState(s, reply).isAuthenticated <==> reply.LoginAccepted?
    ensures !reply.LoginAccepted? ==> LoginState(s, reply).user.None? && LoginState(s, reply).error.Some?
  {
  }

  datatype Response = Response(status: int, body: string)

  /** The `AuthProvider` component: the reducer state and `accessTokenRef`. */
  class AuthProvider {
    var state: AuthState
    var accessToken: Option<string>

    constructor ()
      ensures state == InitialState && accessToken.None?
    {
      state := InitialState;
      accessToken := None;
    }

    method Dispatch(a: AuthAction)
      modifies this
      ensures state == Reduce(old(state), a) && accessToken == old(accessToken)
    {
      state := Reduce(state, a);
    }

    /** `login`: start, then fail or succeed as the reply says; only an ok reply sets the token. */
    method Login(reply: LoginReply) returns (success: bool, user: Option<User>)
      modifies this
      ensures state == LoginState(old(state), reply)
      ensures success <==> reply.LoginAccepted?
      ensures user == if reply.LoginAccepted? then reply.user else None
      ensures accessToken == if reply.LoginAccepted? then TokenOrNull(reply.accessToken) else old(accessToken)
    {
      Dispatch(LoginStart);
      match reply {
        case LoginThrew =>
          Dispatch(LoginFailure("Network error"));
          success, user := false, None;
        case LoginRejected(m) =>
          Dispatch(LoginFailure(RejectionMessage(m)));
          success, user := false, None;
        case LoginAccepted(t, u) =>
          accessToken := TokenOrNull(t);
          Dispatch(LoginSuccess(u));
          success, user := true, u;
      }
    }

    /** `refresh`: only an ok reply changes anything. */
    method Refresh(reply: RefreshReply) returns (ok: bool)
      modifies this
      ensures ok <==> reply.RefreshAccepted?
      ensures ok ==> accessToken == TokenOrNull(reply.accessToken) && state == Reduce(old(state), LoginSuccess(reply.user))
      ensures !ok ==> accessToken == old(accessToken) && state == old(state)
    {
      match reply {
        case RefreshAccepted(t, u) =>
          accessToken := TokenOrNull(t);
          Dispatch(LoginSuccess(u));
          ok := true;
        case _ =>
          ok := false;
      }
    }

    /** `logout`: whatever the server says, the token is dropped and the session signed out. */
    method Logout()
      modifies this
      ensures accessToken.None?
      ensures state == Reduce(old(state), AuthAction.Logout)
      ensures !state.isAuthenticated && state.user.None?
    {
      accessToken := None;
      Dispatch(AuthAction.Logout);
    }

    method ClearError()
      modifies this
      ensures state == old(state).(error := None) && accessToken == old(accessToken)
    {
      Dispatch(AuthAction.ClearError);
    }

    /**
     * `fetchWithAuth`. `first` is the answer to the first request,
     * `refreshReply` the refresh endpoint's answer and `retry` the answer
     * to the repeated request; `sent` lists the Authorization header of
     * each request to the resource. A non-401 answer is returned at once;
     * a 401 triggers one refresh, and only a successful one a single retry.
     */
    method FetchWithAuth(first: Response, refreshReply: RefreshReply, retry: Response)
      returns (res: Response, sent: seq<Option<string>>, refreshed: bool)
      modifies this
      ensures 1 <= |sent| <= 2
      ensures sent[0] == AuthorizationHeader(old(accessToken))
      ensures first.status != 401 ==>
        res == first && |sent| == 1 && !refreshed && state == old(state) && accessToken == old(accessToken)
      ensures first.status == 401 ==> refreshed
      ensures first.status == 401 && !refreshReply.RefreshAccepted? ==>
        res == first && |sent| == 1 && state == old(state) && accessToken == old(accessToken)
      ensures first.status == 401 && refreshReply.RefreshAccepted? ==>
        res == retry && |sent| == 2 && sent[1] == AuthorizationHeader(TokenOrNull(refreshReply.accessToken))
        && accessToken == TokenOrNull(refreshReply.accessToken)
        && state == Reduce(old(state), LoginSuccess(refreshReply.user))
    {
      sent := [AuthorizationHeader(accessToken)];
      refreshed := false;
      if first.status != 401 {
        return first, sent, refreshed;
      }
      refreshed := true;
      var ok := Refresh(refreshReply);
      if !ok {
        return first, sent, refreshed;
      }
      sent := sent + [AuthorizationHeader(accessToken)];
      res := retry;
    }
  }
}
