/**
 * What the login and refresh routes share: their configuration, the claims
 * of the two tokens, the refresh cookie and the user record sent back.
 */
module AuthTokens {
  import opened Wrappers
  import opened Strings
  import opened Json
  import opened Seqs
  import opened Jwt

  /** The route constants; `production` stands for `NODE_ENV === "production"`. */
  datatype Config = Config(secret: string, accessExpiresSec: int, refreshExpiresSec: int, production: bool)

  /** `Number(env) || fallback`: a missing, non-numeric or zero setting leaves the default. */
  function NumberOr(env: Option<int>, fallback: int): (r: int)
    ensures env.Some? && env.value != 0 ==> r == env.value
    ensures env.None? || env.value == 0 ==> r == fallback
  {
    if env.Some? && env.value != 0 then env.value else fallback
  }

  /**
   * The configuration read from the environment: 15 minutes for access
   * tokens, 7 days for refresh tokens and the secret `dev_secret` unless set.
   */
  function ConfigFrom(accessEnv: Option<int>, refreshEnv: Option<int>, secretEnv: Option<string>, nodeEnv: Option<string>): (cfg: Config)
    ensures accessEnv.None? ==> cfg.accessExpiresSec == 900
    ensures refreshEnv.None? ==> cfg.refreshExpiresSec == 604800
    ensures secretEnv.None? || secretEnv.value == "" ==> cfg.secret == "dev_secret"
    ensures cfg.production <==> nodeEnv == Some("production")
  {
    Config(
      if secretEnv.Some? && secretEnv.value != "" then secretEnv.value else "dev_secret",
      NumberOr(accessEnv, 60 * 15),
      NumberOr(refreshEnv, 60 * 60 * 24 * 7),
      nodeEnv == Some("production"))
  }

  /** The claims of an access token: `{ sub: user._id, role: user.role, username: user.username }`. */
  function AccessClaims(user: Record): (claims: Record)
    ensures forall k :: k in claims ==> k == "sub" || k == "role" || k == "username"
    ensures Get(claims, "sub") == Get(user, "_id")
    ensures Get(claims, "role") == Get(user, "role")
    ensures Get(claims, "username") == Get(user, "username")
  {
    OptionalField("sub", Get(user, "_id")) + OptionalField("role", Get(user, "role"))
      + OptionalField("username", Get(user, "username"))
  }

  /** The claims of a refresh token: `{ sub: user._id, type: "refresh" }`. */
  function RefreshClaims(user: Record): (claims: Record)
    ensures forall k :: k in claims ==> k == "sub" || k == "type"
    ensures Get(claims, "sub") == Get(user, "_id")
    ensures Get(claims, "type") == Some(JStr("refresh"))
  {
    OptionalField("sub", Get(user, "_id"))["type" := JStr("refresh")]
  }

  /**
   * The access token both routes sign, `sign({ sub, role, username },
   * JWT_SECRET, ACCESS_EXPIRES_SEC)`: checked under the secret, it yields the
   * access claims with their `iat` and `exp` until its lifetime has passed.
   */
  function AccessToken(c: Codec, cfg: Config, user: Record, nowMs: nat): (token: string)
    ensures Base64Alphabet(c) && RoundTrips(c) ==>
      forall verifyMs: nat :: Seconds(verifyMs) <= Seconds(nowMs) + cfg.accessExpiresSec ==>
        Verify(c, token, cfg.secret, verifyMs) == Ok(JObject(SignedBody(AccessClaims(user), nowMs, cfg.accessExpiresSec)))
  {
    ValidUntilExpiry(c, AccessClaims(user), cfg.secret, cfg.accessExpiresSec, nowMs);
    Sign(c, AccessClaims(user), cfg.secret, cfg.accessExpiresSec, nowMs)
  }

  /**
   * The refresh token both routes sign, `sign({ sub, type: "refresh" },
   * JWT_SECRET, REFRESH_EXPIRES_SEC)`: checked under the secret, it yields
   * the refresh claims with their `iat` and `exp` until its lifetime has
   * passed.
   */
  function RefreshToken(c: Codec, cfg: Config, user: Record, nowMs: nat): (token: string)
    ensures Base64Alphabet(c) && RoundTrips(c) ==>
      forall verifyMs: nat :: Seconds(verifyMs) <= Seconds(nowMs) + cfg.refreshExpiresSec ==>
        Verify(c, token, cfg.secret, verifyMs) == Ok(JObject(SignedBody(RefreshClaims(user), nowMs, cfg.refreshExpiresSec)))
  {
    ValidUntilExpiry(c, RefreshClaims(user), cfg.secret, cfg.refreshExpiresSec, nowMs);
    Sign(c, RefreshClaims(user), cfg.secret, cfg.refreshExpiresSec, nowMs)
  }

  /** `SignThenVerify` for every moment up to the token's `exp` second. */
  lemma ValidUntilExpiry(c: Codec, payload: Record, secret: string, expiresInSec: int, signMs: nat)
    ensures Base64Alphabet(c) && RoundTrips(c) ==>
      forall verifyMs: nat :: Seconds(verifyMs) <= Seconds(signMs) + expiresInSec ==>
        Verify(c, Sign(c, payload, secret, expiresInSec, signMs), secret, verifyMs) == Ok(JObject(SignedBody(payload, signMs, expiresInSec)))
  {
    if Base64Alphabet(c) && RoundTrips(c) {
      forall verifyMs: nat | Seconds(verifyMs) <= Seconds(signMs) + expiresInSec
        ensures Verify(c, Sign(c, payload, secret, expiresInSec, signMs), secret, verifyMs) == Ok(JObject(SignedBody(payload, signMs, expiresInSec)))
      {
        SignThenVerify(c, payload, secret, expiresInSec, signMs, verifyMs);
      }
    }
  }

  /** The user as the routes return it: without its password and refresh token. */
  function SafeUser(user: Record): (safe: Record)
    ensures "password" !in safe && "refreshToken" !in safe
    ensures forall k :: k in user && k != "password" && k != "refreshToken" ==> k in safe && safe[k] == user[k]
  {
    Without(user, {"password", "refreshToken"})
  }

  /** The `;`-separated attributes of the refresh cookie; `Secure` is added in production only. */
  function CookieAttributes(value: string, maxAge: string, production: bool): seq<string>
  {
    ["refreshToken=" + value, " HttpOnly", " Path=/", " Max-Age=" + maxAge, " SameSite=Strict"]
      + (if production then [" Secure"] else [])
  }

  /** `a;b` where `a` holds no `;` splits into `a` and the pieces of `b`. */
  lemma SplitAttribute(a: string, b: string)
    requires ';' !in a
    ensures Split(a + ";" + b, ';') == [a] + Split(b, ';')
  {
    SplitAtFirst(a, ';', b);
  }

  /** Four attributes without `;`, then the rest: the four come back, then the rest's pieces. */
  lemma SplitFour(p0: string, p1: string, p2: string, p3: string, rest: string)
    requires ';' !in p0 && ';' !in p1 && ';' !in p2 && ';' !in p3
    ensures Split(p0 + ";" + (p1 + ";" + (p2 + ";" + (p3 + ";" + rest))), ';') == [p0, p1, p2, p3] + Split(rest, ';')
  {
    SplitAttribute(p3, rest);
    SplitAttribute(p2, p3 + ";" + rest);
    SplitAttribute(p1, p2 + ";" + (p3 + ";" + rest));
    SplitAttribute(p0, p1 + ";" + (p2 + ";" + (p3 + ";" + rest)));
  }

  lemma Regroup(a: string, v: string, h: string, p: string, m: string, n: string, s: string, t: string, d: string)
    ensures a + v + (d + h + d + p + d + m) + n + (d + s) + t
      == (a + v) + d + (h + d + (p + d + ((m + n) + d + (s + t))))
  {
  }

  /** The cookie text as its attributes, each followed by `;` and the ones after it. */
  lemma CookieNesting(value: string, maxAge: string, tail: string)
    ensures "refreshToken=" + value + "; HttpOnly; Path=/; Max-Age=" + maxAge + "; SameSite=Strict" + tail
      == ("refreshToken=" + value) + ";" + (" HttpOnly" + ";" + (" Path=/" + ";"
           + ((" Max-Age=" + maxAge) + ";" + (" SameSite=Strict" + tail))))
  {
    assert "; HttpOnly; Path=/; Max-Age=" == ";" + " HttpOnly" + ";" + " Path=/" + ";" + " Max-Age=";
    assert "; SameSite=Strict" == ";" + " SameSite=Strict";
    Regroup("refreshToken=", value, " HttpOnly", " Path=/", " Max-Age=", maxAge, " SameSite=Strict", tail, ";");
  }

  /** `x;y` with no `;` in either splits into the two. */
  lemma SplitPair(x: string, y: string)
    requires ';' !in x && ';' !in y
    ensures Split(x + ";" + y, ';') == [x, y]
  {
    SplitAttribute(x, y);
    SplitNoSeparator(y, ';');
  }

  /** The last attributes: `SameSite=Strict`, and `Secure` in production. */
  lemma SplitLast(production: bool)
    ensures Split(" SameSite=Strict" + (if production then "; Secure" else ""), ';')
      == [" SameSite=Strict"] + (if production then [" Secure"] else [])
  {
    var s, t := " SameSite=Strict", " Secure";
    assert ';' !in s && ';' !in t;
    if production {
      assert "; Secure" == ";" + t;
      assert s + "; Secure" == s + ";" + t;
      SplitPair(s, t);
      assert [s] + [t] == [s, t];
    } else {
      assert s + "" == s;
      SplitNoSeparator(s, ';');
    }
  }

  /** A cookie text built from attributes without `;` splits back into those attributes. */
  lemma SplitCookie(value: string, maxAge: string, production: bool)
    ensures var tail := if production then "; Secure" else "";
      ';' !in value && ';' !in maxAge ==>
      Split("refreshToken=" + value + "; HttpOnly; Path=/; Max-Age=" + maxAge + "; SameSite=Strict" + tail, ';')
      == CookieAttributes(value, maxAge, production)
  {
    if ';' !in value && ';' !in maxAge {
      var tail := if production then "; Secure" else "";
      CookieNesting(value, maxAge, tail);
      var a0, a3 := "refreshToken=" + value, " Max-Age=" + maxAge;
      assert ';' !in a0 && ';' !in a3;
      SplitFour(a0, " HttpOnly", " Path=/", a3, " SameSite=Strict" + tail);
      SplitLast(production);
    }
  }

  /**
   * The `Set-Cookie` value carrying a refresh token: `HttpOnly`, path `/`,
   * the refresh lifetime as `Max-Age`, `SameSite=Strict`, and `Secure` in
   * production.
   */
  function RefreshCookie(cfg: Config, token: string): (cookie: string)
    ensures "refreshToken=" + token + "; HttpOnly; Path=/; Max-Age=" + IntToString(cfg.refreshExpiresSec) <= cookie
    ensures ';' !in token ==>
      Split(cookie, ';') == CookieAttributes(token, IntToString(cfg.refreshExpiresSec), cfg.production)
  {
    var maxAge := IntToString(cfg.refreshExpiresSec);
    assert ';' !in maxAge;
    SplitCookie(token, maxAge, cfg.production);
    "refreshToken=" + token + "; HttpOnly; Path=/; Max-Age=" + maxAge
      + "; SameSite=Strict" + (if cfg.production then "; Secure" else "")
  }

  /** The `Set-Cookie` value with which logout clears the refresh token: empty, with `Max-Age=0`. */
  function ClearedCookie(production: bool): (cookie: string)
    ensures Split(cookie, ';') == CookieAttributes("", "0", production)
  {
    SplitCookie("", "0", production);
    assert "refreshToken=" + "" == "refreshToken=" && ';' !in "0";
    "refreshToken=" + "; HttpOnly; Path=/; Max-Age=" + "0" + "; SameSite=Strict"
      + (if production then "; Secure" else "")
  }

  /** `(u) => u._id === id`. */
  function HasId(id: Option<Json>): Record -> bool
  {
    (u: Record) => StrictEquals(Get(u, "_id"), id)
  }

  /**
   * `idx = users.findIndex(p); users[idx] = f(users[idx])`: the first user
   * passing `p` is replaced and no other. When none passes, JavaScript writes
   * the property `"-1"`, which `JSON.stringify` does not emit, so the stored
   * list is unchanged.
   */
  function UpdateFirst(users: seq<Record>, p: Record -> bool, f: Record -> Record): (r: seq<Record>)
    ensures |r| == |users|
    ensures FindIndex(users, p).None? ==> r == users
    ensures FindIndex(users, p).Some? ==>
      var i := FindIndex(users, p).value;
      r[i] == f(users[i]) && forall j :: 0 <= j < |users| && j != i ==> r[j] == users[j]
  {
    match FindIndex(users, p)
    case None => users
    case Some(i) => users[i := f(users[i])]
  }

  /** `{ ...u, refreshToken: token }`. */
  function WithRefreshToken(token: string): Record -> Record
  {
    (u: Record) => u["refreshToken" := JStr(token)]
  }

  /** Storing a refresh token changes that one field of one user and nothing else. */
  lemma UpdateFirstOnlyRefreshToken(users: seq<Record>, p: Record -> bool, token: string)
    ensures var r := UpdateFirst(users, p, WithRefreshToken(token));
      forall j :: 0 <= j < |users| ==> Without(r[j], {"refreshToken"}) == Without(users[j], {"refreshToken"})
  {
    var r := UpdateFirst(users, p, WithRefreshToken(token));
    forall j | 0 <= j < |users|
      ensures Without(r[j], {"refreshToken"}) == Without(users[j], {"refreshToken"})
    {
      if FindIndex(users, p) == Some(j) {
        assert r[j] == users[j]["refreshToken" := JStr(token)];
      }
    }
  }

  /** When some user passes `p`, the first one does and now carries the token. */
  lemma UpdateFirstStores(users: seq<Record>, p: Record -> bool, token: string, k: nat)
    requires k < |users| && p(users[k])
    ensures var r := UpdateFirst(users, p, WithRefreshToken(token));
      exists i :: 0 <= i <= k && p(users[i]) && r[i] == users[i]["refreshToken" := JStr(token)]
  {
    var i := FindIndex(users, p).value;
    assert i <= k;
  }
}
