/** Decoding the raw values held by the three segmented controls of the
    advanced section into a token type, a digit count and an algorithm.
    Every decoder is total: a raw value that matches no option falls back
    silently to a default. */
module FormOptions {
  import opened Otp

  /** The raw values of the option enumerations. Their concrete numbers are
      not part of this model; only their (in)equality matters. */
  datatype OptionCodes = OptionCodes(
    counter: int, timer: int,
    six: int, seven: int, eight: int,
    sha1: int, sha256: int, sha512: int)
  {
    /** The options of each enumeration have pairwise different raw values. */
    predicate Distinct() {
      counter != timer &&
      six != seven && six != eight && seven != eight &&
      sha1 != sha256 && sha1 != sha512 && sha256 != sha512
    }
  }

  predicate IsDigitCount(d: nat) { d == 6 || d == 7 || d == 8 }

  /** The token type selected by raw value `value`: Timer only for the Timer option. */
  function TokenTypeOf(codes: OptionCodes, value: int): (t: TokenType)
    ensures t == Timer <==> value == codes.timer
  {
    if value == codes.timer then Timer else Counter
  }

  /** The digit count selected by raw value `value`, 6 when it is not recognised. */
  function DigitCountOf(codes: OptionCodes, value: int): (d: nat)
    ensures IsDigitCount(d)
    ensures value != codes.six && value != codes.seven && value != codes.eight ==> d == 6
  {
    if value == codes.six then 6
    else if value == codes.seven then 7
    else if value == codes.eight then 8
    else 6
  }

  /** The algorithm selected by raw value `value`, SHA1 when it is not recognised. */
  function AlgorithmOf(codes: OptionCodes, value: int): (a: Algorithm)
    ensures value != codes.sha1 && value != codes.sha256 && value != codes.sha512 ==> a == SHA1
    ensures a == SHA256 ==> value == codes.sha256
    ensures a == SHA512 ==> value == codes.sha512
  {
    if value == codes.sha1 then SHA1
    else if value == codes.sha256 then SHA256
    else if value == codes.sha512 then SHA512
    else SHA1
  }

  /** The raw value a segmented control holds when token type `t` is selected. */
  function TokenTypeCode(codes: OptionCodes, t: TokenType): (v: int)
    ensures codes.Distinct() ==> TokenTypeOf(codes, v) == t
  {
    match t
    case Counter => codes.counter
    case Timer => codes.timer
  }

  /** The raw value a segmented control holds when digit count `d` is selected. */
  function DigitCountCode(codes: OptionCodes, d: nat): (v: int)
    requires IsDigitCount(d)
    ensures codes.Distinct() ==> DigitCountOf(codes, v) == d
  {
    if d == 6 then codes.six else if d == 7 then codes.seven else codes.eight
  }

  /** The raw value a segmented control holds when algorithm `a` is selected. */
  function AlgorithmCode(codes: OptionCodes, a: Algorithm): (v: int)
    ensures codes.Distinct() ==> AlgorithmOf(codes, v) == a
  {
    match a
    case SHA1 => codes.sha1
    case SHA256 => codes.sha256
    case SHA512 => codes.sha512
  }

  /** Decoding a recognised digit-count raw value and encoding the result gives the raw value back. */
  lemma DigitCountRecognised(codes: OptionCodes, value: int)
    requires value == codes.six || value == codes.seven || value == codes.eight
    ensures DigitCountCode(codes, DigitCountOf(codes, value)) == value
  {
  }

  /** Decoding a recognised algorithm raw value and encoding the result gives the raw value back. */
  lemma AlgorithmRecognised(codes: OptionCodes, value: int)
    requires value == codes.sha1 || value == codes.sha256 || value == codes.sha512
    ensures AlgorithmCode(codes, AlgorithmOf(codes, value)) == value
  {
  }

  /** Decoding a recognised token-type raw value and encoding the result gives the raw value back. */
  lemma TokenTypeRecognised(codes: OptionCodes, value: int)
    requires value == codes.counter || value == codes.timer
    ensures TokenTypeCode(codes, TokenTypeOf(codes, value)) == value
  {
  }
}
