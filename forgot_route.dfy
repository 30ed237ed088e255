/** `POST /api/auth/forgot` (`app/api/auth/forgot/route.ts`): reset-token issue. */
module ForgotRoute {
  import opened Wrappers
  import opened Strings
  import opened Json
  import opened Seqs
  import opened Jwt
  import opened MockData

  /** `(u) => u.email === email || u.username === email`. */
  function Named(email: Option<Json>): Record -> bool
  {
    (u: Record) => StrictEquals(Get(u, "email"), email) || StrictEquals(Get(u, "username"), email)
  }

  /** A reset token lives one hour: `Math.floor(Date.now() / 1000) + 60 * 60`. */
  function ResetExpires(nowMs: nat): (exp: int)
    ensures exp * 1000 > nowMs && (exp - 3600) * 1000 <= nowMs
  {
    Seconds(nowMs) + 60 * 60
  }

  /** `{ ...u, resetToken: token, resetExpires: expires }`. */
  function WithReset(u: Record, token: string, expires: int): (r: Record)
    ensures r.Keys == u.Keys + {"resetToken", "resetExpires"}
    ensures r["resetToken"] == JStr(token) && r["resetExpires"] == JNum(expires)
    ensures forall k :: k in u && k != "resetToken" && k != "resetExpires" ==> r[k] == u[k]
  {
    u["resetToken" := JStr(token)]["resetExpires" := JNum(expires)]
  }

  datatype ForgotResult =
    | NoEmail
    | NoAccount
    | Issued(index: nat, token: string, users: seq<Record>)

  /**
   * The decision on the request body `{ email }`, given the 20 random bytes
   * the route draws. A falsy email is refused; otherwise the first user whose
   * email or username is the input gets a reset token valid for one hour.
   */
  function Forgot(users: seq<Record>, body: Record, bytes: seq<bv8>, nowMs: nat): (r: ForgotResult)
    requires |bytes| == 20
    ensures r.NoEmail? <==> !Truthy(Get(body, "email"))
    ensures r.NoAccount? <==> Truthy(Get(body, "email")) && forall j :: 0 <= j < |users| ==> !Named(Get(body, "email"))(users[j])
    ensures r.Issued? ==>
      r.index < |users| && Named(Get(body, "email"))(users[r.index])
      && (forall j :: 0 <= j < r.index ==> !Named(Get(body, "email"))(users[j]))
      && r.token == Hex(bytes)
      && |r.users| == |users|
      && r.users[r.index] == WithReset(users[r.index], r.token, ResetExpires(nowMs))
      && (forall j :: 0 <= j < |users| && j != r.index ==> r.users[j] == users[j])
  {
    var email := Get(body, "email");
    if !Truthy(email) then NoEmail
    else match FindIndex(users, Named(email))
      case None => NoAccount
      case Some(i) =>
        var token := Hex(bytes);
        Issued(i, token, users[i := WithReset(users[i], token, ResetExpires(nowMs))])
  }

  function ForgotReply(r: ForgotResult): (reply: Reply)
    ensures r.NoEmail? <==> reply.status == 400
    ensures !r.NoEmail? ==> reply.status == 200
    ensures reply.setCookie.None?
    ensures r.Issued? ==> reply.body == JObject(map["message" := JStr("Reset token generated"), "token" := JStr(r.token)])
  {
    match r
    case NoEmail => Message(400, "Email required")
    case NoAccount => Message(200, "If that email exists, a reset token was generated.")
    case Issued(_, token, _) =>
      Reply(200, JObject(map["message" := JStr("Reset token generated"), "token" := JStr(token)]), None)
  }

  /** The route: find the account, stamp its reset token and expiry, write the file. */
  method PostForgot(file: JsonFile, body: Record, bytes: seq<bv8>, nowMs: nat) returns (reply: Reply)
    requires |bytes| == 20
    modifies file
    ensures var r := Forgot(old(file.data.users), body, bytes, nowMs);
      reply == ForgotReply(r)
      && (if r.Issued? then file.backup == Some(old(file.data)) && file.data == old(file.data).(users := r.users)
          else file.data == old(file.data) && file.backup == old(file.backup))
  {
    var email := Get(body, "email");
    if !Truthy(email) {
      return Message(400, "Email required");
    }
    var users := file.data.users;
    var idx := FindIndex(users, Named(email));
    if idx.None? {
      return Message(200, "If that email exists, a reset token was generated.");
    }
    var token := Hex(bytes);
    var expires := Seconds(nowMs) + 60 * 60;
    users := users[idx.value := WithReset(users[idx.value], token, expires)];
    file.Commit(file.data.(users := users));
    reply := Reply(200, JObject(map["message" := JStr("Reset token generated"), "token" := JStr(token)]), None);
  }

  /** The issued token is 40 lower-case hexadecimal characters. */
  lemma ResetTokenIsHex(users: seq<Record>, body: Record, bytes: seq<bv8>, nowMs: nat)
    requires |bytes| == 20
    requires Forgot(users, body, bytes, nowMs).Issued?
    ensures var t := Forgot(users, body, bytes, nowMs).token;
      |t| == 40 && forall i :: 0 <= i < |t| ==> '0' <= t[i] <= '9' || 'a' <= t[i] <= 'f'
  {
  }

  /**
   * Whether an account exists is hidden from the status code but not from the
   * body: the same request gets the same status whatever accounts are stored,
   * yet only a request that found an account gets a token back.
   */
  lemma StatusHidesAccountBodyDoesNot(users: seq<Record>, other: seq<Record>, body: Record, bytes: seq<bv8>, nowMs: nat)
    requires |bytes| == 20
    ensures ForgotReply(Forgot(users, body, bytes, nowMs)).status == ForgotReply(Forgot(other, body, bytes, nowMs)).status
    ensures Forgot(users, body, bytes, nowMs).Issued? && Forgot(other, body, bytes, nowMs).NoAccount? ==>
      ForgotReply(Forgot(users, body, bytes, nowMs)).body != ForgotReply(Forgot(other, body, bytes, nowMs)).body
  {
    var a := ForgotReply(Forgot(users, body, bytes, nowMs));
    var b := ForgotReply(Forgot(other, body, bytes, nowMs));
    if Forgot(users, body, bytes, nowMs).Issued? && Forgot(other, body, bytes, nowMs).NoAccount? {
      assert "token" in a.body.fields && "token" !in b.body.fields;
    }
  }

  /**
   * A username is accepted in place of an email address: the first stored
   * user whose username is the input receives the reset token.
   */
  lemma UsernameFindsAccount(users: seq<Record>, i: nat, name: string, bytes: seq<bv8>, nowMs: nat)
    requires i < |users| && name != "" && Get(users[i], "username") == Some(JStr(name))
    requires forall j :: 0 <= j < i ==> !Named(Some(JStr(name)))(users[j])
    requires |bytes| == 20
    ensures Forgot(users, map["email" := JStr(name)], bytes, nowMs) ==
      Issued(i, Hex(bytes), users[i := WithReset(users[i], Hex(bytes), ResetExpires(nowMs))])
  {
    assert Named(Some(JStr(name)))(users[i]);
  }
}
