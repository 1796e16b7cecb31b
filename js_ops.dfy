/** The two JavaScript primitives whose meaning differs from Dafny's built-ins:
    the `%` operator on numbers and `String.prototype.toLowerCase`. */
module JsOps {

  /** JavaScript `a % 2` on an integer: the remainder of division truncated toward
      zero, so it takes the sign of the dividend (`-3 % 2 == -1`), unlike Dafny's `%`.
      The source only ever divides by 2. */
  function RemTwo(a: int): (r: int)
    ensures -1 <= r <= 1
    ensures r == 0 <==> a % 2 == 0
    ensures r == 1 <==> a % 2 == 1 && a > 0
    ensures r == -1 <==> a % 2 == 1 && a < 0
    ensures (a - r) % 2 == 0
  {
    if a >= 0 then a % 2 else -((-a) % 2)
  }

  /** The truncated remainder is an odd function of the dividend. */
  lemma RemTwoOdd(a: int)
    ensures RemTwo(-a) == -RemTwo(a)
  {
  }

  /** Consecutive integers always differ in truncated parity by exactly one. */
  lemma RemTwoStep(a: int)
    ensures RemTwo(a + 1) - RemTwo(a) == 1 || RemTwo(a + 1) - RemTwo(a) == -1
  {
  }

  function LowerChar(c: char): (d: char)
    ensures !('A' <= d <= 'Z')
    ensures !('A' <= c <= 'Z') ==> d == c
    ensures 'A' <= c <= 'Z' ==> d as int - c as int == 32
  {
    if 'A' <= c <= 'Z' then (c as int + 32) as char else c
  }

  /** `s.toLowerCase()` on the ASCII letters; other characters are kept. */
  function ToLower(s: string): (r: string)
    ensures |r| == |s|
    ensures forall k :: 0 <= k < |r| ==> r[k] == LowerChar(s[k])
  {
    if s == [] then [] else [LowerChar(s[0])] + ToLower(s[1..])
  }

  /** Lower-casing twice is lower-casing once. */
  lemma {:induction false} ToLowerIdempotent(s: string)
    ensures ToLower(ToLower(s)) == ToLower(s)
  {
    if s != [] {
      ToLowerIdempotent(s[1..]);
    }
  }
}
