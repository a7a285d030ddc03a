/** JSON Web Tokens (`@nestjs/jwt`) as an abstract keyed signer and verifier. */
module Jwt {
  import opened Common

  /** The payload of a token (`IToken`): `isActive` and `type` may be missing. */
  datatype Claims = Claims(id: string, role: string, isActive: Option<bool>, typ: Option<string>)

  /** `expiresIn`: a number of minutes or of days. */
  datatype Lifetime = Minutes(minutes: int) | Days(days: int)

  /** `sign(secret, claims, lifetime)` and `verify(secret, token)`; `verify` gives
      `None` where the library throws (bad signature, expired, malformed). */
  datatype JwtService = JwtService(
    sign: (string, Claims, Lifetime) -> string,
    verify: (string, string) -> Option<Claims>)

  /** What the model relies on: a token verifies under the secret it was signed
      with and gives back its claims, and under any secret verification never
      yields claims other than the signed ones. Expiry is left to `verify`. */
  ghost predicate Sound(jwt: JwtService) {
    && (forall k, c, l :: jwt.verify(k, jwt.sign(k, c, l)) == Some(c))
    && (forall k, k', c, l {:trigger jwt.verify(k', jwt.sign(k, c, l))} ::
          jwt.verify(k', jwt.sign(k, c, l)) in {None, Some(c)})
  }
}
