/** What the other modules share: options, the shape of a token, and whole multiples of a real number. */
module Basics {

  datatype Option<+T> = None | Some(value: T)

  predicate UrlSafe(c: char) {
    'A' <= c <= 'Z' || 'a' <= c <= 'z' || '0' <= c <= '9' || c == '-' || c == '_'
  }

  /** What 32 random bytes look like in unpadded URL-safe Base64. */
  predicate TokenShaped(text: string) {
    |text| == 43 && forall i :: 0 <= i < |text| ==> UrlSafe(text[i])
  }

  /** n times x, added up. */
  function Times(n: nat, x: real): (r: real)
    ensures r == n as real * x
    ensures 0.0 <= x ==> 0.0 <= r
  {
    if n == 0 then 0.0 else Times(n - 1, x) + x
  }
}
