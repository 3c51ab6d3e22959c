/**
 * `JwtUtil`: the claims a login token carries and the validity decision
 * made for a token on each request. Signing, the compact serialization and
 * signature checking belong to the JSON Web Token library and stay outside
 * the model: a token is given by the claims its parse yields, or by the
 * parse failing (a bad signature, a malformed token, or one the library
 * itself finds expired).
 */
module JwtUtil {
  import opened Wrappers

  const EXPIRATION_MILLIS := 86_400_000

  /**
   * "sub", "iat" and "exp" of section 4.1 of RFC 7519, with the two dates as
   * NumericDate, whole seconds since the epoch, as the library stores them.
   */
  datatype Claims = Claims(extra: map<string, string>, subject: string, issuedAt: int, expiration: int)

  /** The library's `Date` to NumericDate conversion: milliseconds truncated to seconds. */
  function Seconds(millis: nat): nat {
    millis / 1000
  }

  /**
   * `generateToken(userDetails)`: no extra claims, the username as subject,
   * issued at the first clock reading and expiring 86 400 000 ms after the
   * second (`System.currentTimeMillis()` is read twice).
   */
  function GenerateToken(username: string, issuedMillis: nat, expiryBaseMillis: nat): (c: Claims)
    ensures c.extra == map[] && c.subject == username
    ensures c.issuedAt * 1000 <= issuedMillis < c.issuedAt * 1000 + 1000
    ensures c.expiration * 1000 <= expiryBaseMillis + EXPIRATION_MILLIS < c.expiration * 1000 + 1000
  {
    Claims(map[], username, Seconds(issuedMillis), Seconds(expiryBaseMillis + EXPIRATION_MILLIS))
  }

  /** `isTokenExpired`: the expiry, read back as a `Date`, is strictly before now. */
  predicate IsTokenExpired(c: Claims, nowMillis: int) {
    c.expiration * 1000 < nowMillis
  }

  /** A fresh token stays unexpired for a day less under a second, and is expired once the day has passed. */
  lemma {:induction false} TokenLifetime(username: string, issuedMillis: nat, expiryBaseMillis: nat, nowMillis: int)
    ensures nowMillis <= expiryBaseMillis + EXPIRATION_MILLIS - 999 ==>
      !IsTokenExpired(GenerateToken(username, issuedMillis, expiryBaseMillis), nowMillis)
    ensures nowMillis > expiryBaseMillis + EXPIRATION_MILLIS ==>
      IsTokenExpired(GenerateToken(username, issuedMillis, expiryBaseMillis), nowMillis)
  {
    var c := GenerateToken(username, issuedMillis, expiryBaseMillis);
    assert c.expiration * 1000 + 1000 > expiryBaseMillis + EXPIRATION_MILLIS;
  }

  /** What `isTokenValid` does: answer, or let the parse's exception out. */
  datatype Verdict = Decided(valid: bool) | ParseFailed

  /**
   * `isTokenValid(token, userDetails)`: the subject parsed from the token is
   * looked up in the blacklist (whose contents are `blacklisted`); a listed
   * subject is invalid, otherwise the subject must be the username and the
   * token unexpired.
   */
  function IsTokenValid(blacklisted: set<string>, parsed: Option<Claims>, username: string, nowMillis: int): (r: Verdict)
    ensures r.ParseFailed? <==> parsed.None?
    ensures parsed.Some? && parsed.value.subject in blacklisted ==> r == Decided(false)
    ensures r == Decided(true) <==>
      parsed.Some? && parsed.value.subject !in blacklisted && parsed.value.subject == username
      && !IsTokenExpired(parsed.value, nowMillis)
  {
    match parsed
    case None => ParseFailed
    case Some(c) =>
      if c.subject in blacklisted then Decided(false)
      else Decided(c.subject == username && !IsTokenExpired(c, nowMillis))
  }

  /**
   * Logout adds the raw token text to the blacklist, but `IsTokenValid` looks
   * up the subject: unless the token text is itself the subject, the token
   * is exactly as valid after logout as before.
   */
  lemma LogoutDoesNotRevoke(blacklisted: set<string>, token: string, parsed: Option<Claims>, username: string, nowMillis: int)
    requires parsed.Some? ==> parsed.value.subject != token
    ensures IsTokenValid(blacklisted + {token}, parsed, username, nowMillis)
         == IsTokenValid(blacklisted, parsed, username, nowMillis)
  {
  }

  /** The case above on a fresh login token: still accepted after its holder logged out. */
  lemma {:induction false} LoggedOutTokenStillAccepted(token: string, username: string, issuedMillis: nat, nowMillis: int)
    requires token != username
    requires issuedMillis <= nowMillis <= issuedMillis + EXPIRATION_MILLIS - 999
    ensures IsTokenValid({token}, Some(GenerateToken(username, issuedMillis, issuedMillis)), username, nowMillis)
         == Decided(true)
  {
    TokenLifetime(username, issuedMillis, issuedMillis, nowMillis);
  }

  /** The evidently intended check: the token itself is looked up, then the same subject and expiry test. */
  function IsTokenValidByToken(blacklisted: set<string>, token: string, parsed: Option<Claims>, username: string, nowMillis: int)
    : (r: Verdict)
    ensures r.ParseFailed? <==> parsed.None?
    ensures token in blacklisted ==> r != Decided(true)
    ensures r == Decided(true) <==>
      parsed.Some? && token !in blacklisted && parsed.value.subject == username && !IsTokenExpired(parsed.value, nowMillis)
  {
    match parsed
    case None => ParseFailed
    case Some(c) =>
      if token in blacklisted then Decided(false)
      else Decided(c.subject == username && !IsTokenExpired(c, nowMillis))
  }

  /** With the intended check, logging out revokes the token whatever it held. */
  lemma LogoutRevokes(blacklisted: set<string>, token: string, parsed: Option<Claims>, username: string, nowMillis: int)
    ensures IsTokenValidByToken(blacklisted + {token}, token, parsed, username, nowMillis) != Decided(true)
  {
  }

  /** Before any logout of either string, the two checks agree. */
  lemma ChecksAgreeWhenNothingListed(blacklisted: set<string>, token: string, parsed: Option<Claims>, username: string, nowMillis: int)
    requires token !in blacklisted && (parsed.Some? ==> parsed.value.subject !in blacklisted)
    ensures IsTokenValidByToken(blacklisted, token, parsed, username, nowMillis)
         == IsTokenValid(blacklisted, parsed, username, nowMillis)
  {
  }
}
