/** `POST /api/auth/refresh` (`app/api/auth/refresh/route.ts`): refresh-token rotation. */
module RefreshRoute {
  import opened Wrappers
  import opened Strings
  import opened Json
  import opened Seqs
  import opened Jwt
  import opened MockData
  import opened AuthTokens
  import Cookies
  import LoginRoute

  /** `payload?.sub`. */
  function Subject(payload: Json): (sub: Option<Json>)
    ensures payload.JObject? ==> sub == Get(payload.fields, "sub")
  {
    if payload.JObject? then Get(payload.fields, "sub") else None
  }

  /** `(u) => u._id === sub && u.refreshToken === provided`. */
  function Holder(sub: Option<Json>, provided: string): Record -> bool
  {
    (u: Record) => StrictEquals(Get(u, "_id"), sub) && Get(u, "refreshToken") == Some(JStr(provided))
  }

  datatype RefreshResult =
    | NoToken
    | BadToken
    | UnknownToken
    | Rotated(user: Record, accessToken: string, refreshToken: string, users: seq<Record>)

  /** `cookies["refreshToken"]`, when present and non-empty. */
  function PresentedToken(header: Option<string>): (t: Option<string>)
    ensures t.Some? <==> Cookies.Cookie(header, "refreshToken").Some? && Cookies.Cookie(header, "refreshToken").value != ""
    ensures t.Some? ==> t.value == Cookies.Cookie(header, "refreshToken").value
  {
    var provided := Cookies.Cookie(header, "refreshToken");
    if provided.None? || provided.value == "" then None else provided
  }

  /** The route's decision on the request's `Cookie` header: no usable cookie is `NoToken`. */
  function Refresh(c: Codec, cfg: Config, users: seq<Record>, header: Option<string>,
                   verifyMs: nat, refreshMs: nat, accessMs: nat): (r: RefreshResult)
    ensures r.NoToken? <==> PresentedToken(header).None?
    ensures PresentedToken(header).Some? ==>
      r == Decide(c, cfg, users, PresentedToken(header).value, verifyMs, refreshMs, accessMs)
  {
    match PresentedToken(header)
    case None => NoToken
    case Some(provided) => Decide(c, cfg, users, provided, verifyMs, refreshMs, accessMs)
  }

  /**
   * The decision on a presented refresh token: it must verify, and the first
   * user whose `_id` is the token's subject and who holds exactly this token
   * gets a new refresh token in place of the old one.
   */
  function Decide(c: Codec, cfg: Config, users: seq<Record>, provided: string,
                  verifyMs: nat, refreshMs: nat, accessMs: nat): (r: RefreshResult)
    ensures !r.NoToken?
    ensures r.BadToken? <==> Verify(c, provided, cfg.secret, verifyMs).Err?
    ensures r.UnknownToken? <==>
      Verify(c, provided, cfg.secret, verifyMs).Ok?
      && forall u :: u in users ==> !Holder(Subject(Verify(c, provided, cfg.secret, verifyMs).value), provided)(u)
    ensures r.Rotated? ==>
      var payload := Verify(c, provided, cfg.secret, verifyMs);
      payload.Ok? && r.user in users && Holder(Subject(payload.value), provided)(r.user)
      && (exists i :: 0 <= i < |users| && users[i] == r.user
            && forall j :: 0 <= j < i ==> !Holder(Subject(payload.value), provided)(users[j]))
      && r.refreshToken == RefreshToken(c, cfg, r.user, refreshMs)
      && r.accessToken == AccessToken(c, cfg, r.user, accessMs)
      && r.users == UpdateFirst(users, HasId(Get(r.user, "_id")), WithRefreshToken(r.refreshToken))
  {
    match Verify(c, provided, cfg.secret, verifyMs)
    case Err(_) => BadToken
    case Ok(payload) =>
      match Find(users, Holder(Subject(payload), provided))
      case None => UnknownToken
      case Some(user) =>
        var refreshToken := RefreshToken(c, cfg, user, refreshMs);
        Rotated(user, AccessToken(c, cfg, user, accessMs), refreshToken,
                UpdateFirst(users, HasId(Get(user, "_id")), WithRefreshToken(refreshToken)))
  }

  /** The response: 401 with a message for every refusal, else the new access token, the safe user and the cookie. */
  function ResultReply(cfg: Config, r: RefreshResult): (reply: Reply)
    ensures r.Rotated? <==> reply.status == 200
    ensures !r.Rotated? ==> reply.status == 401 && reply.setCookie.None?
    ensures r.NoToken? ==> reply.body == JObject(map["message" := JStr("No refresh token")])
    ensures (r.BadToken? || r.UnknownToken?) ==> reply.body == JObject(map["message" := JStr("Invalid refresh token")])
    ensures r.Rotated? ==> reply.setCookie == Some(RefreshCookie(cfg, r.refreshToken))
    ensures r.Rotated? ==> reply.body.JObject? && reply.body.fields.Keys == {"accessToken", "user"}
    ensures r.Rotated? ==> reply.body.fields["accessToken"] == JStr(r.accessToken)
    ensures r.Rotated? ==> reply.body.fields["user"] == JObject(SafeUser(r.user))
    ensures r.Rotated? ==> "password" !in reply.body.fields["user"].fields && "refreshToken" !in reply.body.fields["user"].fields
  {
    match r
    case NoToken => Message(401, "No refresh token")
    case BadToken => Message(401, "Invalid refresh token")
    case UnknownToken => Message(401, "Invalid refresh token")
    case Rotated(user, accessToken, refreshToken, _) =>
      Reply(200, JObject(map["accessToken" := JStr(accessToken), "user" := JObject(SafeUser(user))]),
            Some(RefreshCookie(cfg, refreshToken)))
  }

  /** The route: answer 401 unless a stored refresh token is presented, then rotate it. */
  method PostRefresh(file: JsonFile, c: Codec, cfg: Config, header: Option<string>,
                     verifyMs: nat, refreshMs: nat, accessMs: nat) returns (reply: Reply)
    modifies file
    ensures var r := Refresh(c, cfg, old(file.data.users), header, verifyMs, refreshMs, accessMs);
      reply == ResultReply(cfg, r)
      && (if r.Rotated? then file.backup == Some(old(file.data)) && file.data == old(file.data).(users := r.users)
          else file.data == old(file.data) && file.backup == old(file.backup))
  {
    var r := Refresh(c, cfg, file.data.users, header, verifyMs, refreshMs, accessMs);
    reply := ResultReply(cfg, r);
    if r.Rotated? {
      var users := file.data.users;
      var idx := FindIndex(users, HasId(Get(r.user, "_id")));
      if idx.Some? {
        users := users[idx.value := users[idx.value]["refreshToken" := JStr(r.refreshToken)]];
      }
      file.Commit(file.data.(users := users));
    }
  }

  /**
   * Rotation retires the presented token: when user ids are unique and the
   * new token differs from the old one, presenting the old token again is
   * refused.
   */
  lemma RotatedTokenIsRetired(c: Codec, cfg: Config, users: seq<Record>, header: Option<string>,
                              verifyMs: nat, refreshMs: nat, accessMs: nat, laterMs: nat, ms2: nat, ms3: nat)
    requires forall i, j :: 0 <= i < j < |users| ==> Get(users[i], "_id") != Get(users[j], "_id")
    requires Refresh(c, cfg, users, header, verifyMs, refreshMs, accessMs).Rotated?
    requires var r := Refresh(c, cfg, users, header, verifyMs, refreshMs, accessMs);
      r.refreshToken != Cookies.Cookie(header, "refreshToken").value
    ensures !Refresh(c, cfg, Refresh(c, cfg, users, header, verifyMs, refreshMs, accessMs).users, header, laterMs, ms2, ms3).Rotated?
  {
    var r := Refresh(c, cfg, users, header, verifyMs, refreshMs, accessMs);
    var provided := Cookies.Cookie(header, "refreshToken").value;
    var sub := Subject(Verify(c, provided, cfg.secret, verifyMs).value);
    Retired(users, r.user, provided, r.refreshToken, sub);
    var again := Verify(c, provided, cfg.secret, laterMs);
    if again.Ok? {
      assert again.value == Verify(c, provided, cfg.secret, verifyMs).value;
    }
  }

  /** The seq-level core of `RotatedTokenIsRetired`: no stored user holds the presented token any more. */
  lemma Retired(users: seq<Record>, user: Record, provided: string, token: string, sub: Option<Json>)
    requires forall i, j :: 0 <= i < j < |users| ==> Get(users[i], "_id") != Get(users[j], "_id")
    requires user in users && Holder(sub, provided)(user) && token != provided
    ensures forall u :: u in UpdateFirst(users, HasId(Get(user, "_id")), WithRefreshToken(token)) ==> !Holder(sub, provided)(u)
  {
    var p := HasId(Get(user, "_id"));
    var r := UpdateFirst(users, p, WithRefreshToken(token));
    var k :| 0 <= k < |users| && users[k] == user;
    assert p(users[k]);
    var i := FindIndex(users, p).value;
    assert i == k;
    forall u | u in r
      ensures !Holder(sub, provided)(u)
    {
      var j :| 0 <= j < |r| && r[j] == u;
      if j == k {
        assert r[j] == users[k]["refreshToken" := JStr(token)];
      } else {
        assert r[j] == users[j];
        assert Get(users[j], "_id") != Get(user, "_id");
      }
    }
  }

  /** The browser sends a refresh token back as the only cookie; the route reads it as it was set. */
  lemma RefreshCookieEcho(c: Codec, cfg: Config, user: Record, refreshMs: nat)
    requires Base64Alphabet(c)
    ensures var t := RefreshToken(c, cfg, user, refreshMs);
      Cookies.Cookie(Some("refreshToken=" + t), "refreshToken") == Some(t) && t != ""
  {
    var t := RefreshToken(c, cfg, user, refreshMs);
    SignIsTokenText(c, RefreshClaims(user), cfg.secret, cfg.refreshExpiresSec, refreshMs);
    RefreshTokenNonEmpty(c, cfg, user, refreshMs);
    TokenCookie(t);
  }

  /** A signed token has three parts, so it is never empty. */
  lemma RefreshTokenNonEmpty(c: Codec, cfg: Config, user: Record, refreshMs: nat)
    requires Base64Alphabet(c)
    ensures RefreshToken(c, cfg, user, refreshMs) != ""
  {
    var t := RefreshToken(c, cfg, user, refreshMs);
    assert |Split(t, '.')| == 3;
  }

  /** A token's characters are neither blanks nor `;`, so a `refreshToken=<token>` header parses back to it. */
  lemma TokenCookie(t: string)
    requires IsTokenText(t)
    ensures Cookies.Cookie(Some("refreshToken=" + t), "refreshToken") == Some(t)
  {
    TokenIsPlain(t);
    CookieNameIsPlain();
    Cookies.SingleCookie("refreshToken", t);
    assert "refreshToken" + "=" + t == "refreshToken=" + t;
  }

  lemma TokenIsPlain(t: string)
    requires IsTokenText(t)
    ensures ';' !in t && forall i :: 0 <= i < |t| ==> !IsJsSpace(t[i])
  {
    forall i | 0 <= i < |t|
      ensures !IsJsSpace(t[i]) && t[i] != ';'
    {
      TokenCharIsPlain(t[i]);
    }
  }

  lemma CookieNameIsPlain()
    ensures '=' !in "refreshToken" && ';' !in "refreshToken"
    ensures forall i :: 0 <= i < |"refreshToken"| ==> !IsJsSpace("refreshToken"[i])
  {
  }

  lemma TokenCharIsPlain(ch: char)
    requires IsUrlSafeChar(ch) || ch == '.'
    ensures !IsJsSpace(ch) && ch != ';'
  {
  }

  /** Until it expires, a refresh token verifies and names its user as subject. */
  lemma RefreshTokenVerifies(c: Codec, cfg: Config, user: Record, refreshMs: nat, verifyMs: nat)
    requires Base64Alphabet(c) && RoundTrips(c)
    requires Seconds(verifyMs) <= Seconds(refreshMs) + cfg.refreshExpiresSec
    ensures var v := Verify(c, RefreshToken(c, cfg, user, refreshMs), cfg.secret, verifyMs);
      v.Ok? && Subject(v.value) == Get(user, "_id")
  {
    var claims := RefreshClaims(user);
    SignThenVerify(c, claims, cfg.secret, cfg.refreshExpiresSec, refreshMs, verifyMs);
    var payload := JObject(SignedBody(claims, refreshMs, cfg.refreshExpiresSec));
    assert Subject(payload) == Get(claims, "sub");
  }

  /**
   * The refresh token a sign-in issues is accepted by the refresh route: a
   * request carrying it as its `refreshToken` cookie before it expires
   * verifies, names the signed-in user and matches the token stored for that
   * user, so the token is rotated. `RefreshCookieEcho` shows that the header
   * a browser sends back for the sign-in cookie is such a request.
   */
  lemma LoginThenRefresh(c: Codec, cfg: Config, users: seq<Record>, body: Record, accessMs: nat, refreshMs: nat,
                         header: Option<string>, verifyMs: nat, ms2: nat, ms3: nat)
    requires Base64Alphabet(c) && RoundTrips(c)
    requires forall u: Record :: u in users ==> "_id" in u && u["_id"].JStr?
    requires LoginRoute.Login(c, cfg, users, body, accessMs, refreshMs).Accepted?
    requires Cookies.Cookie(header, "refreshToken") == Some(LoginRoute.Login(c, cfg, users, body, accessMs, refreshMs).refreshToken)
    requires Seconds(verifyMs) <= Seconds(refreshMs) + cfg.refreshExpiresSec
    ensures Refresh(c, cfg, LoginRoute.Login(c, cfg, users, body, accessMs, refreshMs).users, header, verifyMs, ms2, ms3).Rotated?
  {
    var l := LoginRoute.Login(c, cfg, users, body, accessMs, refreshMs);
    assert l.user in users;
    StoredTokenRotates(c, cfg, users, l.user, refreshMs, header, verifyMs, ms2, ms3);
  }

  /** The core of `LoginThenRefresh`, for any stored user given a fresh refresh token. */
  lemma StoredTokenRotates(c: Codec, cfg: Config, users: seq<Record>, user: Record, refreshMs: nat,
                           header: Option<string>, verifyMs: nat, ms2: nat, ms3: nat)
    requires Base64Alphabet(c) && RoundTrips(c)
    requires forall u: Record :: u in users ==> "_id" in u && u["_id"].JStr?
    requires user in users
    requires Cookies.Cookie(header, "refreshToken") == Some(RefreshToken(c, cfg, user, refreshMs))
    requires Seconds(verifyMs) <= Seconds(refreshMs) + cfg.refreshExpiresSec
    ensures var t := RefreshToken(c, cfg, user, refreshMs);
      Refresh(c, cfg, UpdateFirst(users, HasId(Get(user, "_id")), WithRefreshToken(t)), header, verifyMs, ms2, ms3).Rotated?
  {
    var t := RefreshToken(c, cfg, user, refreshMs);
    var i := HeldAfterSignIn(c, cfg, users, user, refreshMs, verifyMs);
    AcceptsHeldToken(c, cfg, UpdateFirst(users, HasId(Get(user, "_id")), WithRefreshToken(t)), header, verifyMs, ms2, ms3, t, i);
  }

  /** After storing a fresh refresh token for a user, some stored record holds it under the token's subject. */
  lemma HeldAfterSignIn(c: Codec, cfg: Config, users: seq<Record>, user: Record, refreshMs: nat, verifyMs: nat)
    returns (i: nat)
    requires Base64Alphabet(c) && RoundTrips(c)
    requires forall u: Record :: u in users ==> "_id" in u && u["_id"].JStr?
    requires user in users
    requires Seconds(verifyMs) <= Seconds(refreshMs) + cfg.refreshExpiresSec
    ensures var t := RefreshToken(c, cfg, user, refreshMs);
      var stored := UpdateFirst(users, HasId(Get(user, "_id")), WithRefreshToken(t));
      var v := Verify(c, t, cfg.secret, verifyMs);
      t != "" && v.Ok? && i < |stored| && Holder(Subject(v.value), t)(stored[i])
  {
    var t := RefreshToken(c, cfg, user, refreshMs);
    RefreshTokenNonEmpty(c, cfg, user, refreshMs);
    var v := Verify(c, t, cfg.secret, verifyMs);
    assert v.Ok? && Subject(v.value) == Get(user, "_id") by {
      RefreshTokenVerifies(c, cfg, user, refreshMs, verifyMs);
    }
    i := LoginRoute.StoredById(users, user, t);
  }

  /** A verified token that some stored user holds, under the token's subject as `_id`, is rotated. */
  lemma AcceptsHeldToken(c: Codec, cfg: Config, users: seq<Record>, header: Option<string>,
                         verifyMs: nat, refreshMs: nat, accessMs: nat, t: string, i: nat)
    requires Cookies.Cookie(header, "refreshToken") == Some(t) && t != ""
    requires Verify(c, t, cfg.secret, verifyMs).Ok?
    requires i < |users| && Holder(Subject(Verify(c, t, cfg.secret, verifyMs).value), t)(users[i])
    ensures Refresh(c, cfg, users, header, verifyMs, refreshMs, accessMs).Rotated?
  {
    assert PresentedToken(header) == Some(t);
    var holds := Holder(Subject(Verify(c, t, cfg.secret, verifyMs).value), t);
    assert users[i] in users && holds(users[i]);
    var r := Decide(c, cfg, users, t, verifyMs, refreshMs, accessMs);
    assert !r.BadToken? && !r.UnknownToken?;
  }
}
