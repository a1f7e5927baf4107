/** Small value types shared by every module. */
module Primitives {

  datatype Option<+T> = None | Some(value: T)

  datatype Result<+T, +E> = Ok(value: T) | Err(error: E)

  /** Instants are integers; the zero instant stands for an unset Go time. */
  type Time = int

  const ZERO_TIME: Time := 0

  predicate IsHexDigit(c: char) {
    '0' <= c <= '9' || 'a' <= c <= 'f' || 'A' <= c <= 'F'
  }

  /** A SHA-256 digest in text form, in either case. */
  predicate ValidSha(text: string) {
    |text| == 64 && forall i :: 0 <= i < |text| ==> IsHexDigit(text[i])
  }

  predicate IsLowerHex(c: char) {
    '0' <= c <= '9' || 'a' <= c <= 'f'
  }

  /** A digest as this system writes it: lower-case hex. */
  predicate ValidHash(h: string) {
    |h| == 64 && forall i :: 0 <= i < |h| ==> IsLowerHex(h[i])
  }

  /** An absolute path in slash form. */
  predicate IsAbsolute(path: string) {
    path != "" && path[0] == '/'
  }

  function Pow2(n: nat): (p: nat)
    ensures p > 0
  {
    if n == 0 then 1 else 2 * Pow2(n - 1)
  }

  function Min(a: int, b: int): int {
    if a <= b then a else b
  }
}
