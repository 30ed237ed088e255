/** `POST /api/auth/login` (`app/api/auth/login/route.ts`). */
module LoginRoute {
  import opened Wrappers
  import opened Json
  import opened Seqs
  import opened Jwt
  import opened MockData
  import opened AuthTokens

  /** `(u) => u.username === username && u.password === password`. */
  function Credentials(username: Option<Json>, password: Option<Json>): Record -> bool
  {
    (u: Record) => StrictEquals(Get(u, "username"), username) && StrictEquals(Get(u, "password"), password)
  }

  datatype LoginResult =
    | Rejected
    | Accepted(user: Record, accessToken: string, refreshToken: string, users: seq<Record>)

  /**
   * The decision the route takes on the body `{ username, password }`: the
   * first user with exactly these credentials is signed in, and the first user
   * sharing its `_id` gets the new refresh token stored.
   */
  function Login(c: Codec, cfg: Config, users: seq<Record>, body: Record, accessMs: nat, refreshMs: nat): (r: LoginResult)
    ensures r.Rejected? <==> forall u :: u in users ==> !Credentials(Get(body, "username"), Get(body, "password"))(u)
    ensures r.Accepted? ==>
      exists i :: 0 <= i < |users| && users[i] == r.user && Credentials(Get(body, "username"), Get(body, "password"))(users[i])
        && forall j :: 0 <= j < i ==> !Credentials(Get(body, "username"), Get(body, "password"))(users[j])
    ensures r.Accepted? ==>
      r.accessToken == AccessToken(c, cfg, r.user, accessMs) && r.refreshToken == RefreshToken(c, cfg, r.user, refreshMs)
      && r.users == UpdateFirst(users, HasId(Get(r.user, "_id")), WithRefreshToken(r.refreshToken))
  {
    match Find(users, Credentials(Get(body, "username"), Get(body, "password")))
    case None => Rejected
    case Some(user) =>
      var refreshToken := RefreshToken(c, cfg, user, refreshMs);
      Accepted(user, AccessToken(c, cfg, user, accessMs), refreshToken,
               UpdateFirst(users, HasId(Get(user, "_id")), WithRefreshToken(refreshToken)))
  }

  /**
   * The reply to a successful sign-in: the access token and the user without
   * secrets in the body, the refresh token only in the cookie.
   */
  function AcceptedReply(cfg: Config, r: LoginResult): (reply: Reply)
    requires r.Accepted?
    ensures reply.status == 200 && reply.setCookie == Some(RefreshCookie(cfg, r.refreshToken))
    ensures reply.body.JObject? && reply.body.fields.Keys == {"accessToken", "user"}
    ensures reply.body.fields["accessToken"] == JStr(r.accessToken)
    ensures reply.body.fields["user"] == JObject(SafeUser(r.user))
    ensures "password" !in reply.body.fields["user"].fields && "refreshToken" !in reply.body.fields["user"].fields
  {
    Reply(200, JObject(map["accessToken" := JStr(r.accessToken), "user" := JObject(SafeUser(r.user))]),
          Some(RefreshCookie(cfg, r.refreshToken)))
  }

  /**
   * Sign-in touches the refresh token of one user and nothing else: every
   * stored user is as before once that field is set aside.
   */
  lemma {:induction false} LoginChangesOnlyRefreshToken(c: Codec, cfg: Config, users: seq<Record>, body: Record, accessMs: nat, refreshMs: nat)
    requires Login(c, cfg, users, body, accessMs, refreshMs).Accepted?
    ensures var r := Login(c, cfg, users, body, accessMs, refreshMs);
      |r.users| == |users|
      && forall j :: 0 <= j < |users| ==> Without(r.users[j], {"refreshToken"}) == Without(users[j], {"refreshToken"})
  {
    var r := Login(c, cfg, users, body, accessMs, refreshMs);
    UpdateFirstOnlyRefreshToken(users, HasId(Get(r.user, "_id")), r.refreshToken);
  }

  /**
   * When every stored user has a string `_id`, the signed-in user's own row
   * (or an earlier row with the same `_id`) now holds the new refresh token.
   */
  lemma LoginStoresRefreshToken(c: Codec, cfg: Config, users: seq<Record>, body: Record, accessMs: nat, refreshMs: nat)
    requires forall u: Record :: u in users ==> "_id" in u && u["_id"].JStr?
    requires Login(c, cfg, users, body, accessMs, refreshMs).Accepted?
    ensures var r := Login(c, cfg, users, body, accessMs, refreshMs);
      exists i :: 0 <= i < |r.users| && Get(r.users[i], "_id") == Get(r.user, "_id")
        && Get(r.users[i], "refreshToken") == Some(JStr(r.refreshToken))
  {
    var r := Login(c, cfg, users, body, accessMs, refreshMs);
    assert r.user in users;
    var i := StoredById(users, r.user, r.refreshToken);

  }

  lemma StoredById(users: seq<Record>, user: Record, token: string) returns (i: nat)
    requires forall u: Record :: u in users ==> "_id" in u && u["_id"].JStr?
    requires user in users
    ensures var r := UpdateFirst(users, HasId(Get(user, "_id")), WithRefreshToken(token));
      i < |r| && Get(r[i], "_id") == Get(user, "_id") && Get(r[i], "refreshToken") == Some(JStr(token))
  {
    var p := HasId(Get(user, "_id"));
    var k :| 0 <= k < |users| && users[k] == user;
    assert p(users[k]);
    UpdateFirstStores(users, p, token, k);
    var r := UpdateFirst(users, p, WithRefreshToken(token));
    i :| 0 <= i <= k && p(users[i]) && r[i] == users[i]["refreshToken" := JStr(token)];
    assert users[i] in users;
    assert Get(users[i], "_id") == Get(user, "_id");
  }

  /**
   * Whoever sends a stored user's user name and password as strings is signed
   * in, as a user holding exactly these credentials. This includes an account
   * registered without credentials: its empty user name and password let
   * anyone who sends two empty strings in.
   */
  lemma StoredCredentialsSignIn(c: Codec, cfg: Config, users: seq<Record>, u: Record, body: Record,
                                name: string, password: string, accessMs: nat, refreshMs: nat)
    requires u in users
    requires Get(u, "username") == Some(JStr(name)) && Get(u, "password") == Some(JStr(password))
    requires Get(body, "username") == Some(JStr(name)) && Get(body, "password") == Some(JStr(password))
    ensures var r := Login(c, cfg, users, body, accessMs, refreshMs);
      r.Accepted? && Get(r.user, "username") == Some(JStr(name)) && Get(r.user, "password") == Some(JStr(password))
  {
    assert Credentials(Get(body, "username"), Get(body, "password"))(u);
  }

  /** The route: reject unknown credentials with 401, otherwise store the refresh token and reply with both tokens. */
  method PostLogin(file: JsonFile, c: Codec, cfg: Config, body: Record, accessMs: nat, refreshMs: nat) returns (reply: Reply)
    modifies file
    ensures var r := Login(c, cfg, old(file.data.users), body, accessMs, refreshMs);
      if r.Rejected? then
        file.data == old(file.data) && file.backup == old(file.backup) && reply == Message(401, "Invalid credentials")
      else
        file.backup == Some(old(file.data)) && file.data == old(file.data).(users := r.users)
        && reply == AcceptedReply(cfg, r)
  {
    var users := file.data.users;
    var found := Find(users, Credentials(Get(body, "username"), Get(body, "password")));
    if found.None? {
      reply := Message(401, "Invalid credentials");
      return;
    }
    var user := found.value;
    var accessToken := AccessToken(c, cfg, user, accessMs);
    var refreshToken := RefreshToken(c, cfg, user, refreshMs);
    var idx := FindIndex(users, HasId(Get(user, "_id")));
    if idx.Some? {
      users := users[idx.value := users[idx.value]["refreshToken" := JStr(refreshToken)]];
    }
    file.Commit(file.data.(users := users));
    reply := AcceptedReply(cfg, Accepted(user, accessToken, refreshToken, users));
  }
}
