/**
  The pieces of the .NET runtime that the build test application relies on:
  nullable strings, the `??` operator, `string.IsNullOrEmpty`,
  ordinal `string.Contains`, and unchecked 32-bit `int` addition.
 */
module DotNet {

  /** A `string` reference that may be null: `None` is null. */
  datatype Option<T> = None | Some(value: T)

  const INT32_MIN: int := -0x8000_0000
  const INT32_MAX: int := 0x7FFF_FFFF
  const INT32_MODULUS: int := 0x1_0000_0000

  /** C#'s `int`. */
  newtype Int32 = x: int | -0x8000_0000 <= x < 0x8000_0000

  /** Reduces a mathematical integer to the `int` that unchecked C# arithmetic yields. */
  function Wrap(x: int): (r: Int32)
    ensures INT32_MIN <= x <= INT32_MAX ==> r as int == x
    ensures (x - r as int) % INT32_MODULUS == 0
  {
    var q := (x - INT32_MIN) / INT32_MODULUS;
    var m := (x - INT32_MIN) % INT32_MODULUS;
    assert x - INT32_MIN == q * INT32_MODULUS + m;
    assert x - (m + INT32_MIN) == q * INT32_MODULUS;
    (m + INT32_MIN) as Int32
  }

  /** The `??` operator on a nullable string: only null is replaced by the fallback. */
  function Coalesce(v: Option<string>, fallback: string): (r: string)
    ensures v.Some? ==> r == v.value
    ensures v.None? ==> r == fallback
  {
    match v
    case Some(s) => s
    case None => fallback
  }

  /** `string.IsNullOrEmpty`. */
  predicate IsNullOrEmpty(v: Option<string>): (b: bool)
    ensures b <==> v == None || v == Some("")
  {
    v.None? || v.value == ""
  }

  /** `sub` occurs in `s` starting at index `i`. */
  ghost predicate OccursAt(s: string, sub: string, i: int)
  {
    0 <= i && i + |sub| <= |s| && s[i..i + |sub|] == sub
  }

  /** An occurrence past the first position of `s` is an occurrence in `s[1..]`, one index earlier. */
  lemma {:induction false} OccursInTail(s: string, sub: string)
    requires |s| > 0 && !OccursAt(s, sub, 0)
    ensures (exists i :: OccursAt(s, sub, i)) <==> (exists j :: OccursAt(s[1..], sub, j))
  {
    if i :| OccursAt(s, sub, i) {
      assert i != 0;
      assert s[1..][i - 1..i - 1 + |sub|] == s[i..i + |sub|];
      assert OccursAt(s[1..], sub, i - 1);
    }
    if j :| OccursAt(s[1..], sub, j) {
      assert s[j + 1..j + 1 + |sub|] == s[1..][j..j + |sub|];
      assert OccursAt(s, sub, j + 1);
    }
  }

  /** Ordinal `string.Contains(string)`: true exactly when `sub` occurs somewhere in `s`. */
  function Contains(s: string, sub: string): (b: bool)
    ensures b <==> exists i :: OccursAt(s, sub, i)
    decreases |s|
  {
    if |sub| > |s| then
      false
    else if s[..|sub|] == sub then
      assert OccursAt(s, sub, 0);
      true
    else
      assert !OccursAt(s, sub, 0);
      OccursInTail(s, sub);
      Contains(s[1..], sub)
  }
}
