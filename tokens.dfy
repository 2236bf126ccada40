/** Token issuance: the JWT library as an abstract signer/decoder, the configuration read
    from the environment, and `_createToken`. */
module Tokens {
  import opened Wrappers

  /** What `_createToken` signs: `{ _id }` of the user, and nothing else. */
  datatype JwtUser = JwtUser(_id: string)

  /** A decoded token payload: the signed object plus the `iat` and `exp` (seconds) the
      JWT library adds. */
  datatype Claims = Claims(user: JwtUser, iat: int, exp: int)

  /** The JWT library, left abstract: encoding a payload under a secret, decoding a token
      without checking anything (`jwt.decode`), and checking a token's signature. */
  datatype Jwt = Jwt(
    encode: (Claims, string) -> string,
    decode: string -> Option<Claims>,
    signedWith: (string, string) -> bool)

  /** What an HMAC token scheme provides: a signed payload decodes back to itself, and its
      signature checks under its own secret and under no other. */
  ghost predicate Sound(jwt: Jwt) {
    && (forall c, s :: jwt.decode(jwt.encode(c, s)) == Some(c))
    && (forall c, s, s' :: jwt.signedWith(jwt.encode(c, s), s') <==> s == s')
  }

  /** The environment: secret and lifetime (seconds) of access and of refresh tokens, and
      the mail sender address. */
  datatype Config = Config(
    accessSecret: string,
    accessExpiresIn: int,
    refreshSecret: string,
    refreshExpiresIn: int,
    smtpUsername: string)

  /** A signed token with the lifetime it was issued for. */
  datatype TokenDto = TokenDto(expiresIn: int, token: string)

  /** `_createToken`: signs `{ _id }` and nothing else at time `now`, expiring `expiresIn`
      seconds later, and returns the token with that lifetime. */
  function CreateToken(jwt: Jwt, userId: string, expiresIn: int, secret: string, now: int): (r: TokenDto)
    ensures r.expiresIn == expiresIn
    ensures Sound(jwt) ==> jwt.decode(r.token) == Some(Claims(JwtUser(userId), now, now + expiresIn))
    ensures Sound(jwt) ==> jwt.signedWith(r.token, secret)
  {
    TokenDto(expiresIn, jwt.encode(Claims(JwtUser(userId), now, now + expiresIn), secret))
  }

  /** `jwtService.verify(token, { secret })` at time `now`: the token is present (an
      undefined one fails with "jwt must be provided"), is signed with `secret`, decodes,
      and has not expired. */
  predicate Verify(jwt: Jwt, token: Option<string>, secret: string, now: int) {
    && token.Some?
    && jwt.signedWith(token.value, secret)
    && jwt.decode(token.value).Some?
    && now < jwt.decode(token.value).value.exp
  }

  /** A token `_createToken` issued verifies under its own secret exactly until it expires,
      and never under another secret. */
  lemma VerifyCreatedToken(jwt: Jwt, userId: string, expiresIn: int, secret: string, now: int, secret': string, later: int)
    requires Sound(jwt)
    ensures Verify(jwt, Some(CreateToken(jwt, userId, expiresIn, secret, now).token), secret', later)
        <==> secret' == secret && later < now + expiresIn
  {
  }
}
