/**
 * The HS256 JSON Web Tokens of `lib/jwt.ts`. Base64, HMAC-SHA256 and the
 * JSON text format are not modelled: they are the parameters of a `Codec`,
 * and the properties that depend on them take the laws they need as
 * preconditions.
 */
module Jwt {
  import opened Wrappers
  import opened Strings
  import opened Json

  datatype Codec = Codec(
    toBase64: string -> string,            // Buffer.from(text).toString("base64")
    fromBase64: string -> string,          // Buffer.from(b64, "base64").toString("utf8")
    hmacBase64: (string, string) -> string, // createHmac("sha256", secret).update(data).digest("base64")
    stringify: Json -> string,             // JSON.stringify
    parse: string -> Option<Json>)         // JSON.parse; None where it throws

  predicate IsAlphanumeric(ch: char)
  {
    'a' <= ch <= 'z' || 'A' <= ch <= 'Z' || '0' <= ch <= '9'
  }

  /** The alphabet of standard base64 text. */
  predicate IsBase64Char(ch: char)
  {
    IsAlphanumeric(ch) || ch == '+' || ch == '/' || ch == '='
  }

  /** The alphabet of base64url text. */
  predicate IsUrlSafeChar(ch: char)
  {
    IsAlphanumeric(ch) || ch == '-' || ch == '_'
  }

  /** Base64 made URL-safe: padding dropped, `+` becomes `-`, `/` becomes `_`. */
  function UrlSafe(s: string): (r: string)
    ensures '=' !in r && '+' !in r && '/' !in r
    ensures '.' !in s ==> '.' !in r
    ensures (forall i :: 0 <= i < |s| ==> IsBase64Char(s[i])) ==> forall i :: 0 <= i < |r| ==> IsUrlSafeChar(r[i])
    ensures |r| <= |s|
  {
    if s == [] then ""
    else
      var rest := UrlSafe(s[1..]);
      if s[0] == '=' then rest
      else if s[0] == '+' then "-" + rest
      else if s[0] == '/' then "_" + rest
      else [s[0]] + rest
  }

  /** The inverse substitution `verify` applies before decoding: `-` becomes `+`, `_` becomes `/`. */
  function Restore(s: string): (r: string)
    ensures |r| == |s|
    ensures forall i :: 0 <= i < |s| ==>
      r[i] == (if s[i] == '-' then '+' else if s[i] == '_' then '/' else s[i])
    ensures '-' !in r && '_' !in r
  {
    if s == [] then ""
    else
      var rest := Restore(s[1..]);
      if s[0] == '-' then "+" + rest
      else if s[0] == '_' then "/" + rest
      else [s[0]] + rest
  }

  /** Restoring a URL-safe string gives back the base64 text without its padding. */
  lemma {:induction false} RestoreUrlSafe(s: string)
    requires '-' !in s && '_' !in s
    ensures Restore(UrlSafe(s)) == DropPadding(s)
  {
    if s != [] {
      RestoreUrlSafe(s[1..]);
    }
  }

  function DropPadding(s: string): (r: string)
    ensures '=' !in r
  {
    if s == [] then "" else if s[0] == '=' then DropPadding(s[1..]) else [s[0]] + DropPadding(s[1..])
  }

  const Header: Json := JObject(map["alg" := JStr("HS256"), "typ" := JStr("JWT")])

  /** `Math.floor(Date.now() / 1000)`. */
  function Seconds(nowMs: nat): (sec: nat)
    ensures sec * 1000 <= nowMs < sec * 1000 + 1000
  {
    nowMs / 1000
  }

  /** The signed claims `{ ...payload, iat: now, exp: now + expiresInSec }`: the two time claims override the payload's own. */
  function SignedBody(payload: Record, nowMs: nat, expiresInSec: int): (body: Record)
    ensures forall k :: k in body <==> k in payload || k == "iat" || k == "exp"
    ensures body["iat"] == JNum(Seconds(nowMs)) && body["exp"] == JNum(Seconds(nowMs) + expiresInSec)
    ensures forall k :: k in payload && k != "iat" && k != "exp" ==> body[k] == payload[k]
  {
    payload["iat" := JNum(Seconds(nowMs))]["exp" := JNum(Seconds(nowMs) + expiresInSec)]
  }

  /** `header.body`, the text the signature covers. */
  function SigningInput(headerB64: string, bodyB64: string): string
  {
    headerB64 + "." + bodyB64
  }

  function Signature(c: Codec, secret: string, data: string): (sig: string)
    ensures '=' !in sig && '+' !in sig && '/' !in sig
  {
    UrlSafe(c.hmacBase64(secret, data))
  }

  /**
   * `sign(payload, secret, expiresInSec)` at clock reading `nowMs`: with a
   * base64 encoder, the token splits at `.` into exactly the encoded header,
   * the encoded claims and the signature of those two.
   */
  function Sign(c: Codec, payload: Record, secret: string, expiresInSec: int, nowMs: nat): (token: string)
    ensures Base64Alphabet(c) ==>
      var parts := Split(token, '.');
      |parts| == 3
      && parts[0] == UrlSafe(c.toBase64(c.stringify(Header)))
      && parts[1] == UrlSafe(c.toBase64(c.stringify(JObject(SignedBody(payload, nowMs, expiresInSec)))))
      && parts[2] == Signature(c, secret, SigningInput(parts[0], parts[1]))
  {
    var headerB64 := UrlSafe(c.toBase64(c.stringify(Header)));
    var bodyB64 := UrlSafe(c.toBase64(c.stringify(JObject(SignedBody(payload, nowMs, expiresInSec)))));
    var data := SigningInput(headerB64, bodyB64);
    TokenParts(c, secret, c.stringify(Header), c.stringify(JObject(SignedBody(payload, nowMs, expiresInSec))));
    data + "." + Signature(c, secret, data)
  }

  /** Two encoded texts and their signature, joined by dots, split back into those three. */
  lemma TokenParts(c: Codec, secret: string, headerText: string, bodyText: string)
    ensures var h, b := UrlSafe(c.toBase64(headerText)), UrlSafe(c.toBase64(bodyText));
      var sig := Signature(c, secret, SigningInput(h, b));
      Base64Alphabet(c) ==> Split(SigningInput(h, b) + "." + sig, '.') == [h, b, sig]
  {
    var h, b := UrlSafe(c.toBase64(headerText)), UrlSafe(c.toBase64(bodyText));
    var data := SigningInput(h, b);
    var sig := Signature(c, secret, data);
    if Base64Alphabet(c) {
      UrlSafeParts(c, headerText);
      UrlSafeParts(c, bodyText);
      SignatureUrlSafe(c, secret, data);
      assert data + "." + sig == h + "." + (b + "." + sig);
      SplitAtFirst(h, '.', b + "." + sig);
      SplitAtFirst(b, '.', sig);
      SplitNoSeparator(sig, '.');
    }
  }

  datatype JwtError = InvalidFormat | InvalidSignature | MalformedPayload | Expired

  /**
   * The number `now > payload.exp` compares against when `payload.exp` is
   * truthy, and 0 when the expiry check is skipped (no `exp`, a falsy one, or
   * one that is not a number or `true`).
   */
  function ExpiryOf(payload: Json): (exp: int)
    ensures exp != 0 ==> payload.JObject? && "exp" in payload.fields
    ensures payload.JObject? && "exp" in payload.fields && payload.fields["exp"].JNum? ==>
      exp == payload.fields["exp"].n
    ensures payload.JObject? && "exp" in payload.fields && payload.fields["exp"] == JBool(true) ==> exp == 1
    ensures !(payload.JObject? && "exp" in payload.fields && (payload.fields["exp"].JNum? || payload.fields["exp"] == JBool(true))) ==>
      exp == 0
  {
    if payload.JObject? then
      match Get(payload.fields, "exp")
      case Some(JNum(n)) => n
      case Some(JBool(true)) => 1
      case _ => 0
    else 0
  }

  /**
   * `verify(token, secret)` at clock reading `nowMs`: the token must have three
   * parts, its signature must be the HMAC of the first two, its body must parse
   * to something other than `null`, and a truthy `exp` must not lie in the past.
   */
  function Verify(c: Codec, token: string, secret: string, nowMs: nat): (r: Result<Json, JwtError>)
    ensures r.Ok? ==> |Split(token, '.')| == 3
    ensures r.Ok? ==>
      var parts := Split(token, '.');
      parts[2] == Signature(c, secret, SigningInput(parts[0], parts[1]))
      && c.parse(c.fromBase64(Restore(parts[1]))) == Some(r.value)
    ensures r.Ok? ==> r.value != JNull
    ensures r.Ok? && ExpiryOf(r.value) != 0 ==> Seconds(nowMs) <= ExpiryOf(r.value)
    ensures r == Err(InvalidFormat) <==> |Split(token, '.')| != 3
    ensures var parts := Split(token, '.');
      r == Err(InvalidSignature) <==>
        |parts| == 3 && parts[2] != Signature(c, secret, SigningInput(parts[0], parts[1]))
    ensures var parts := Split(token, '.');
      r == Err(MalformedPayload) <==>
        |parts| == 3 && parts[2] == Signature(c, secret, SigningInput(parts[0], parts[1]))
        && c.parse(c.fromBase64(Restore(parts[1]))) in {None, Some(JNull)}
    ensures var parts := Split(token, '.');
      |parts| == 3 && parts[2] == Signature(c, secret, SigningInput(parts[0], parts[1])) ==>
        var parsed := c.parse(c.fromBase64(Restore(parts[1])));
        parsed.Some? && parsed.value != JNull ==>
          (r == Err(Expired) <==> ExpiryOf(parsed.value) != 0 && Seconds(nowMs) > ExpiryOf(parsed.value))
          && (r.Ok? <==> ExpiryOf(parsed.value) == 0 || Seconds(nowMs) <= ExpiryOf(parsed.value))
          && (r.Ok? ==> r.value == parsed.value)
  {
    var parts := Split(token, '.');
    if |parts| != 3 then Err(InvalidFormat)
    else if parts[2] != Signature(c, secret, SigningInput(parts[0], parts[1])) then Err(InvalidSignature)
    else match c.parse(c.fromBase64(Restore(parts[1])))
      case None => Err(MalformedPayload)
      case Some(payload) =>
        if payload == JNull then Err(MalformedPayload)
        else if ExpiryOf(payload) != 0 && Seconds(nowMs) > ExpiryOf(payload) then Err(Expired)
        else Ok(payload)
  }

  /** Base64 text and base64 HMAC digests are written in the base64 alphabet. */
  ghost predicate Base64Alphabet(c: Codec)
  {
    (forall s, i :: 0 <= i < |c.toBase64(s)| ==> IsBase64Char(c.toBase64(s)[i]))
    && (forall k, d, i :: 0 <= i < |c.hmacBase64(k, d)| ==> IsBase64Char(c.hmacBase64(k, d)[i]))
  }

  /** A token is three base64url parts joined by dots. */
  predicate IsTokenText(t: string)
  {
    forall i :: 0 <= i < |t| ==> IsUrlSafeChar(t[i]) || t[i] == '.'
  }

  /** Decoding undoes encoding once the URL-safe substitution is reversed, and parsing undoes printing. */
  ghost predicate RoundTrips(c: Codec)
  {
    (forall s :: c.fromBase64(Restore(UrlSafe(c.toBase64(s)))) == s)
    && (forall j :: c.parse(c.stringify(j)) == Some(j))
  }

  lemma UrlSafeParts(c: Codec, text: string)
    requires Base64Alphabet(c)
    ensures forall i :: 0 <= i < |UrlSafe(c.toBase64(text))| ==> IsUrlSafeChar(UrlSafe(c.toBase64(text))[i])
    ensures '.' !in UrlSafe(c.toBase64(text))
  {
    var r := UrlSafe(c.toBase64(text));
    assert forall i :: 0 <= i < |r| ==> r[i] != '.';
  }

  lemma SignatureUrlSafe(c: Codec, secret: string, data: string)
    requires Base64Alphabet(c)
    ensures forall i :: 0 <= i < |Signature(c, secret, data)| ==> IsUrlSafeChar(Signature(c, secret, data)[i])
    ensures '.' !in Signature(c, secret, data)
  {
    var r := Signature(c, secret, data);
    assert forall i :: 0 <= i < |r| ==> r[i] != '.';
  }

  /** A signed token holds only base64url characters and the two dots, so it fits in a cookie as it is. */
  lemma SignIsTokenText(c: Codec, payload: Record, secret: string, expiresInSec: int, nowMs: nat)
    requires Base64Alphabet(c)
    ensures IsTokenText(Sign(c, payload, secret, expiresInSec, nowMs))
  {
    var h := UrlSafe(c.toBase64(c.stringify(Header)));
    var b := UrlSafe(c.toBase64(c.stringify(JObject(SignedBody(payload, nowMs, expiresInSec)))));
    var data := SigningInput(h, b);
    var sig := Signature(c, secret, data);
    UrlSafeParts(c, c.stringify(Header));
    UrlSafeParts(c, c.stringify(JObject(SignedBody(payload, nowMs, expiresInSec))));
    SignatureUrlSafe(c, secret, data);
    var t := data + "." + sig;
    forall i | 0 <= i < |t| ensures IsUrlSafeChar(t[i]) || t[i] == '.' {
      if i < |h| { assert t[i] == h[i]; }
      else if i == |h| { }
      else if i < |data| { assert t[i] == b[i - |h| - 1]; }
      else if i > |data| { assert t[i] == sig[i - |data| - 1]; }
    }
  }

  /** A token verifies, with the claims it was signed with, until its `exp` second has passed. */
  lemma SignThenVerify(c: Codec, payload: Record, secret: string, expiresInSec: int, signMs: nat, verifyMs: nat)
    requires Base64Alphabet(c) && RoundTrips(c)
    requires Seconds(verifyMs) <= Seconds(signMs) + expiresInSec
    ensures Verify(c, Sign(c, payload, secret, expiresInSec, signMs), secret, verifyMs)
      == Ok(JObject(SignedBody(payload, signMs, expiresInSec)))
  {
    var body := JObject(SignedBody(payload, signMs, expiresInSec));
    assert c.fromBase64(Restore(UrlSafe(c.toBase64(c.stringify(body))))) == c.stringify(body);
    assert c.parse(c.stringify(body)) == Some(body);
    assert ExpiryOf(body) == Seconds(signMs) + expiresInSec;
  }

  /** After its `exp` second the same token is rejected as expired (unless `exp` is 0, which is falsy). */
  lemma SignThenVerifyLate(c: Codec, payload: Record, secret: string, expiresInSec: int, signMs: nat, verifyMs: nat)
    requires Base64Alphabet(c) && RoundTrips(c)
    requires Seconds(signMs) + expiresInSec != 0
    requires Seconds(verifyMs) > Seconds(signMs) + expiresInSec
    ensures Verify(c, Sign(c, payload, secret, expiresInSec, signMs), secret, verifyMs) == Err(Expired)
  {
    var body := JObject(SignedBody(payload, signMs, expiresInSec));
    assert c.fromBase64(Restore(UrlSafe(c.toBase64(c.stringify(body))))) == c.stringify(body);
    assert c.parse(c.stringify(body)) == Some(body);
    assert ExpiryOf(body) == Seconds(signMs) + expiresInSec;
  }

  /** A token checked under another secret whose HMAC differs is rejected before its claims are read. */
  lemma VerifyOtherSecret(c: Codec, payload: Record, secret: string, other: string, expiresInSec: int, signMs: nat, verifyMs: nat)
    requires Base64Alphabet(c)
    requires var data := Sign(c, payload, secret, expiresInSec, signMs);
      var parts := Split(data, '.');
      |parts| == 3 ==> Signature(c, other, SigningInput(parts[0], parts[1])) != Signature(c, secret, SigningInput(parts[0], parts[1]))
    ensures Verify(c, Sign(c, payload, secret, expiresInSec, signMs), other, verifyMs) == Err(InvalidSignature)
  {
  }
}
