/** The engine's only source of variety: a 31-multiplier string hash with
    32-bit signed wrap-around after every character, made non-negative
    by `Math.abs` at the end. */
module Hash {

  const Two31: int := 0x8000_0000
  const Two32: int := 0x1_0000_0000

  /** ECMAScript ToInt32: the signed 32-bit value congruent to x. */
  function ToInt32(x: int): (r: int)
    ensures -Two31 <= r < Two31
    ensures (x - r) % Two32 == 0
  {
    var m := x % Two32;
    if m >= Two31 then m - Two32 else m
  }

  /** ToInt32 only sees x modulo 2^32. */
  lemma ToInt32Periodic(x: int, k: int)
    ensures ToInt32(x + k * Two32) == ToInt32(x)
  {
    assert (x + k * Two32) % Two32 == x % Two32;
  }

  /** One step of the recurrence, as arithmetic: the wrapped value of 31*h + c. */
  function Step(h: int, c: char): int
  {
    ToInt32(31 * h + c as int)
  }

  /** The accumulator after every character of s has been folded in, from 0. */
  function Acc(s: string): (h: int)
    ensures -Two31 <= h < Two31
  {
    if |s| == 0 then 0 else Step(Acc(s[..|s| - 1]), s[|s| - 1])
  }

  /** `generateHash`: the absolute value of the final accumulator. */
  function Hash(s: string): (h: nat)
    ensures h <= Two31
    ensures |s| == 0 ==> h == 0
    ensures h == Acc(s) || h == -Acc(s)
  {
    var a := Acc(s);
    if a < 0 then -a else a
  }

  /** `h << 5` on a number that already holds a 32-bit signed value. */
  function ShiftLeft5(h: int): int
    requires -Two31 <= h < Two31
  {
    ToInt32(h * 32)
  }

  /** The source's statement pair `hash = ((hash << 5) - hash) + char;
      hash = hash & hash` is the wrapped 31*h + c, whatever h is. */
  lemma ShiftFormAgrees(h: int, c: char)
    requires -Two31 <= h < Two31
    ensures ToInt32(ShiftLeft5(h) - h + c as int) == Step(h, c)
  {
    var q := (h * 32 - ShiftLeft5(h)) / Two32;
    assert h * 32 - ShiftLeft5(h) == q * Two32;
    ToInt32Periodic(31 * h + c as int, -q);
    assert ShiftLeft5(h) - h + c as int == 31 * h + c as int + (-q) * Two32;
  }

  /** The loop of `generateHash`, written with the source's shift and mask. */
  method GenerateHash(s: string) returns (h: nat)
    ensures h == Hash(s)
    ensures h <= Two31
  {
    var acc := 0;
    var i := 0;
    while i < |s|
      invariant 0 <= i <= |s|
      invariant acc == Acc(s[..i])
    {
      ShiftFormAgrees(acc, s[i]);
      assert s[..i + 1][..i] == s[..i];
      acc := ToInt32(ShiftLeft5(acc) - acc + s[i] as int);
      i := i + 1;
    }
    assert s[..|s|] == s;
    h := if acc < 0 then -acc else acc;
  }
}
