/**
 * The two libraries the auth service delegates its secrets to, kept abstract:
 * bcryptjs (password hashing) and jsonwebtoken (JSON Web Tokens, RFC 7519).
 * Each is a record of functions. What the model relies on is stated as a
 * predicate over the record and required only by the lemmas that need it.
 */
module Crypto {

  /** `bcrypt.hash(plain, rounds)` and `bcrypt.compare(plain, digest)`. */
  datatype Hasher = Hasher(hash: string -> string, compare: (string, string) -> bool)

  /** A digest always matches the password it was made from. */
  ghost predicate HasherSound(h: Hasher) {
    forall p :: h.compare(p, h.hash(p))
  }

  /** The claims `generateTokens` signs: `{id, email, role}` or `{id, type: 'refresh'}`. */
  datatype Claims =
    | AccessClaims(id: string, email: string, role: string)
    | RefreshClaims(id: string)

  /** A token's payload: the claims plus the `iat` and `exp` seconds jsonwebtoken adds. */
  datatype Payload = Payload(claims: Claims, iat: int, exp: int)

  /** The three ways `jwt.verify` can end: decoded, `TokenExpiredError`, any other error. */
  datatype Verified = Decoded(payload: Payload) | Expired | Invalid

  /** `jwt.sign` and `jwt.verify` with the process-wide secret; `verify` reads the clock second it is given. */
  datatype Jwt = Jwt(sign: Payload -> string, verify: (string, int) -> Verified)

  /**
   * What the model assumes of jsonwebtoken: a token it signed is a non-empty
   * compact serialization (no spaces), and it verifies back to its payload
   * while the clock is before `exp` and as expired from then on (section
   * 4.1.4 of RFC 7519).
   */
  ghost predicate JwtSound(jwt: Jwt) {
    && (forall p :: jwt.sign(p) != [] && ' ' !in jwt.sign(p))
    && (forall p, now :: jwt.verify(jwt.sign(p), now) == if now < p.exp then Decoded(p) else Expired)
  }

  /** JWT_EXPIRES_IN default '15m', in seconds. */
  const AccessTtl: int := 15 * 60

  /** JWT_REFRESH_EXPIRES_IN default '7d', in seconds. */
  const RefreshTtl: int := 7 * 24 * 60 * 60
}
