/**
 * Token verification as the authenticators call it. Verification itself (the signature check
 * done by src/TokenGenerator.ts over jsonwebtoken) is a parameter: a function from the token
 * and the options to the decoded payload, or None when verification rejects.
 */
module JwtVerification {
  import opened Wrappers

  /** `Buffer.from(key, 'base64')`, kept as the key it was decoded from. */
  datatype PublicKey = Base64Decoded(source: string)

  /** The options object `{ publicKey, algorithms }`. */
  datatype VerifyOptions = VerifyOptions(publicKey: PublicKey, algorithms: seq<string>)

  type Verifier<U> = (Option<string>, VerifyOptions) -> Option<U>

  /**
   * jsonwebtoken's `verify` rejects a missing or empty token ("jwt must be provided") whatever
   * the options, so `verifyJWT` rejects it too.
   */
  ghost predicate RejectsMissing<U>(verify: Verifier<U>) {
    forall o :: verify(None, o).None? && verify(Some(""), o).None?
  }

  /** The options every authenticator passes: its decoded key and an allow-list of exactly its algorithm. */
  function OptionsFor(key: PublicKey, algorithm: string): (o: VerifyOptions)
    ensures o.publicKey == key && o.algorithms == [algorithm]
  {
    VerifyOptions(key, [algorithm])
  }
}
