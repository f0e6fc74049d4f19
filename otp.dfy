/** Value types of the one-time-password library the form hands its result to.
    Only the shape of a token is modelled here; decoding base32 text and
    computing a password belong to that library and reach the form as
    functions given at construction (see TokenEntryForm). */
module Otp {

  newtype byte = x: int | 0 <= x < 256

  datatype Option<+T> = None | Some(value: T)

  datatype TokenType = Counter | Timer

  datatype Algorithm = SHA1 | SHA256 | SHA512

  /** The parameters the form assigns to a fresh token before asking it for a password. */
  datatype Token = Token(
    tokenType: TokenType,
    secret: seq<byte>,
    name: string,
    issuer: string,
    digits: nat,
    algorithm: Algorithm)
}
