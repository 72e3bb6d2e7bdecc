/** Small value types and JavaScript semantics shared by every module of the model. */
module Common {

  datatype Option<T> = None | Some(value: T)

  datatype Result<T, E> = Ok(value: T) | Err(error: E)

  /** A 2-D vector: positions, offsets, repeat factors, pointer coordinates. */
  datatype Vec2 = Vec2(x: real, y: real)

  /** A file chosen in an `<input type="file">`: its name and MIME type. */
  datatype FileInfo = FileInfo(name: string, mimeType: string)

  /** `s.includes(part)` */
  predicate Includes(s: string, part: string)
    decreases |s|
  {
    if |s| < |part| then false
    else s[..|part|] == part || Includes(s[1..], part)
  }

  /** A string lacking one of the characters of `part` cannot contain it. */
  lemma {:induction false} ExcludesMissingChar(s: string, part: string, i: int)
    requires 0 <= i < |part| && part[i] !in s
    ensures !Includes(s, part)
    decreases |s|
  {
    if |s| >= |part| {
      assert s[..|part|][i] == s[i];
      ExcludesMissingChar(s[1..], part, i);
    }
  }

  /** `file?.type.match('image.*')`: an unanchored regular expression, so it
      holds as soon as "image" occurs anywhere in the MIME type. */
  predicate IsImageFile(file: Option<FileInfo>) {
    file.Some? && Includes(file.value.mimeType, "image")
  }

  /** `Math.trunc(x)` */
  function Trunc(x: real): (k: int)
    ensures x >= 0.0 ==> 0 <= k && k as real <= x < k as real + 1.0
    ensures x < 0.0 ==> k <= 0 && k as real - 1.0 < x <= k as real
  {
    if x >= 0.0 then x.Floor else -((-x).Floor)
  }

  /** JavaScript's `a % 360`: the remainder of the division truncated toward
      zero, so it takes the sign of `a` (unlike a Euclidean or floored modulo). */
  function Rem360(a: real): (r: real)
    ensures -360.0 < r < 360.0
    ensures a >= 0.0 ==> 0.0 <= r
    ensures a <= 0.0 ==> r <= 0.0
    ensures -360.0 < a < 360.0 ==> r == a
    ensures a - r == Trunc(a / 360.0) as real * 360.0
  {
    var k := Trunc(a / 360.0);
    a - k as real * 360.0
  }

  /** `Math.max(lo, Math.min(hi, x))` */
  function Clamp(lo: real, hi: real, x: real): (r: real)
    requires lo <= hi
    ensures lo <= r <= hi
    ensures lo <= x <= hi ==> r == x
    ensures x < lo ==> r == lo
    ensures hi < x ==> r == hi
  {
    if x < lo then lo else if hi < x then hi else x
  }

  /** The number a string of decimal digits denotes. */
  function DigitsValue(s: string): int {
    if s == [] then 0 else DigitsValue(s[..|s| - 1]) * 10 + (s[|s| - 1] as int - '0' as int)
  }

  /** Decimal rendering of a natural number, as in a template literal: the
      digits denote `n`, with no leading zero. */
  function NatToString(n: nat): (s: string)
    ensures |s| >= 1
    ensures forall i :: 0 <= i < |s| ==> '0' <= s[i] <= '9'
    ensures DigitsValue(s) == n
    ensures s[0] == '0' ==> s == "0"
  {
    var digit := ['0' + (n % 10) as char];
    if n < 10 then digit
    else
      var t := NatToString(n / 10);
      assert (t + digit)[..|t|] == t;
      t + digit
  }

  /** Different numbers are rendered differently. */
  lemma NatToStringInjective(m: nat, n: nat)
    ensures NatToString(m) == NatToString(n) ==> m == n
  {
  }
}
