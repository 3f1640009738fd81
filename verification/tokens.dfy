/** Claims and payloads of the signed access tokens; signing and verification are abstract functions. */
module Tokens {
  import opened Wrappers

  /** What a login route passes to `jwt.sign`. */
  datatype Claims = Claims(id: string, email: string, role: Option<string>)

  /** A verified payload: every claim may be missing except the expiry, in seconds since the epoch. */
  datatype Payload = Payload(id: Option<string>, email: Option<string>, role: Option<string>, exp: int)

  /** `jwt.verify` either returns the payload or throws an `Error` with a message. */
  datatype Verification = Decoded(payload: Payload) | VerifyError(message: string)

  /** `verify` gives back exactly the claims `sign` put into `token` (for a token not yet expired). */
  predicate RoundTrips(verify: string -> Verification, token: string, c: Claims) {
    verify(token).Decoded?
    && verify(token).payload.id == Some(c.id)
    && verify(token).payload.email == Some(c.email)
    && verify(token).payload.role == c.role
  }
}
