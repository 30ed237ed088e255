/** `POST /api/auth/logout` (`app/api/auth/logout/route.ts`): refresh-token removal. */
module LogoutRoute {
  import opened Wrappers
  import opened Json
  import opened Seqs
  import opened Jwt
  import opened MockData
  import opened AuthTokens
  import Cookies
  import RefreshRoute

  /** `(u) => u.refreshToken === provided`. */
  function HoldsToken(provided: string): Record -> bool
  {
    (u: Record) => Get(u, "refreshToken") == Some(JStr(provided))
  }

  datatype LogoutResult =
    | NoToken
    | Unknown
    | Revoked(index: nat, users: seq<Record>)

  /**
   * The decision the route takes on the request's `Cookie` header: without a
   * `refreshToken` cookie nothing happens; otherwise the first user who holds
   * that token loses the `refreshToken` field.
   */
  function Logout(users: seq<Record>, header: Option<string>): (r: LogoutResult)
    ensures r.NoToken? <==> !(Cookies.Cookie(header, "refreshToken").Some? && Cookies.Cookie(header, "refreshToken").value != "")
    ensures r.Unknown? ==> forall u :: u in users ==> !HoldsToken(Cookies.Cookie(header, "refreshToken").value)(u)
    ensures r.Revoked? ==>
      var provided := Cookies.Cookie(header, "refreshToken").value;
      r.index < |users| && HoldsToken(provided)(users[r.index])
      && (forall j :: 0 <= j < r.index ==> !HoldsToken(provided)(users[j]))
      && |r.users| == |users|
      && r.users[r.index] == Without(users[r.index], {"refreshToken"})
      && (forall j :: 0 <= j < |users| && j != r.index ==> r.users[j] == users[j])
  {
    var provided := Cookies.Cookie(header, "refreshToken");
    if provided.None? || provided.value == "" then NoToken
    else Revoke(users, provided.value)
  }

  /** The store half of `Logout`, once a token was presented. */
  function Revoke(users: seq<Record>, provided: string): (r: LogoutResult)
    ensures !r.NoToken?
    ensures r.Unknown? ==> forall u :: u in users ==> !HoldsToken(provided)(u)
    ensures r.Revoked? ==>
      r.index < |users| && HoldsToken(provided)(users[r.index])
      && (forall j :: 0 <= j < r.index ==> !HoldsToken(provided)(users[j]))
      && |r.users| == |users|
      && r.users[r.index] == Without(users[r.index], {"refreshToken"})
      && (forall j :: 0 <= j < |users| && j != r.index ==> r.users[j] == users[j])
  {
    match FindIndex(users, HoldsToken(provided))
    case None =>
      assert forall u :: u in users ==> !HoldsToken(provided)(u);
      Unknown
    case Some(i) => Revoked(i, users[i := Without(users[i], {"refreshToken"})])
  }

  /** `{ message: "No refresh token" }` without a token, otherwise `{ ok: true }` with the cookie cleared. */
  function LogoutReply(production: bool, r: LogoutResult): (reply: Reply)
    ensures reply.status == 200
    ensures r.NoToken? ==> reply == Message(200, "No refresh token")
    ensures !r.NoToken? ==>
      reply.setCookie == Some(ClearedCookie(production)) && reply.body == JObject(map["ok" := JBool(true)])
  {
    if r.NoToken? then Message(200, "No refresh token")
    else Reply(200, JObject(map["ok" := JBool(true)]), Some(ClearedCookie(production)))
  }

  /** The route: remove the presented token from its holder, writing the file only when one holds it. */
  method PostLogout(file: JsonFile, production: bool, header: Option<string>) returns (reply: Reply)
    modifies file
    ensures var r := Logout(old(file.data.users), header);
      reply == LogoutReply(production, r)
      && (if r.Revoked? then file.backup == Some(old(file.data)) && file.data == old(file.data).(users := r.users)
          else file.data == old(file.data) && file.backup == old(file.backup))
  {
    var provided := Cookies.Cookie(header, "refreshToken");
    if provided.None? || provided.value == "" {
      return Message(200, "No refresh token");
    }
    var users := file.data.users;
    var idx := FindIndex(users, HoldsToken(provided.value));
    if idx.Some? {
      var copy := users[idx.value];
      copy := Without(copy, {"refreshToken"});
      users := users[idx.value := copy];
      file.Commit(file.data.(users := users));
    }
    reply := Reply(200, JObject(map["ok" := JBool(true)]), Some(ClearedCookie(production)));
  }

  /** Logout changes no field of any user except the removed `refreshToken`. */
  lemma LogoutOnlyRemovesToken(users: seq<Record>, header: Option<string>)
    requires Logout(users, header).Revoked?
    ensures var r := Logout(users, header);
      forall j :: 0 <= j < |users| ==> Without(r.users[j], {"refreshToken"}) == Without(users[j], {"refreshToken"})
  {
    var r := Logout(users, header);
    forall j | 0 <= j < |users|
      ensures Without(r.users[j], {"refreshToken"}) == Without(users[j], {"refreshToken"})
    {
      if j == r.index {
        assert r.users[j] == Without(users[j], {"refreshToken"});
      }
    }
  }

  /** At most one user holds a given refresh token, as the routes only ever store freshly signed ones. */
  ghost predicate TokensUnique(users: seq<Record>)
  {
    forall i, j :: 0 <= i < |users| && 0 <= j < |users| && i != j && Get(users[i], "refreshToken").Some?
      ==> Get(users[i], "refreshToken") != Get(users[j], "refreshToken")
  }

  /** When tokens are unique, after logout nobody holds the presented token any more. */
  lemma LogoutRevokesEverywhere(users: seq<Record>, header: Option<string>)
    requires TokensUnique(users)
    requires !Logout(users, header).NoToken?
    ensures var after := if Logout(users, header).Revoked? then Logout(users, header).users else users;
      forall j :: 0 <= j < |after| ==> !HoldsToken(Cookies.Cookie(header, "refreshToken").value)(after[j])
  {
    var r := Logout(users, header);
    var provided := Cookies.Cookie(header, "refreshToken").value;
    if r.Revoked? {
      forall j | 0 <= j < |r.users|
        ensures !HoldsToken(provided)(r.users[j])
      {
        if j != r.index {
          assert r.users[j] == users[j];
          assert Get(users[r.index], "refreshToken") == Some(JStr(provided));
        }
      }
    } else {
      forall j | 0 <= j < |users|
        ensures !HoldsToken(provided)(users[j])
      {
        assert users[j] in users;
      }
    }
  }

  /** Logging out twice: the second request finds no holder and writes nothing. */
  lemma LogoutTwice(users: seq<Record>, header: Option<string>)
    requires TokensUnique(users)
    requires Logout(users, header).Revoked?
    ensures Logout(Logout(users, header).users, header).Unknown?
  {
    LogoutRevokesEverywhere(users, header);
  }

  /** A refresh token that was logged out can no longer be exchanged at the refresh route. */
  lemma LogoutThenRefresh(c: Codec, cfg: Config, users: seq<Record>, header: Option<string>,
                          verifyMs: nat, refreshMs: nat, accessMs: nat)
    requires TokensUnique(users)
    requires Logout(users, header).Revoked?
    ensures !RefreshRoute.Refresh(c, cfg, Logout(users, header).users, header, verifyMs, refreshMs, accessMs).Rotated?
  {
    LogoutRevokesEverywhere(users, header);
  }
}
