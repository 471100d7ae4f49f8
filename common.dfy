/*
 * Shared vocabulary of the model: Rust's Option and Result, the unsigned
 * byte, f32::clamp, the saturating float-to-usize cast, f32::round and
 * i32 division, and the decimal rendering that `format!` does for integers.
 */
module Common {

  datatype Option<T> = None | Some(value: T)

  /** Rust's `Result<T, String>` / `Result<T, &str>`: errors carry their message. */
  datatype Result<T> = Ok(value: T) | Err(error: string)

  /** Rust's unit type `()`. */
  datatype Unit = Unit

  type u8 = x: int | 0 <= x < 256

  const USIZE_MAX: int := 0x1_0000_0000_0000_0000 - 1

  /** `f32::clamp(x, lo, hi)`. */
  function Clamp(x: real, lo: real, hi: real): (r: real)
    requires lo <= hi
    ensures lo <= r <= hi
    ensures lo <= x <= hi <==> r == x
    ensures x < lo ==> r == lo
    ensures hi < x ==> r == hi
  {
    if x < lo then lo else if hi < x then hi else x
  }

  function Max(a: real, b: real): (r: real)
    ensures r >= a && r >= b && (r == a || r == b)
  {
    if a < b then b else a
  }

  function Min(a: real, b: real): (r: real)
    ensures r <= a && r <= b && (r == a || r == b)
  {
    if a < b then a else b
  }

  function Abs(x: real): (r: real)
    ensures r >= 0.0 && (r == x || r == -x)
  {
    if x < 0.0 then -x else x
  }

  /**
   * Rust's `x as usize` on a float: truncation toward zero, negative values
   * saturate to 0 and values beyond the type saturate to usize::MAX.
   */
  function CastToUsize(x: real): (r: nat)
    ensures r <= USIZE_MAX
    ensures 0.0 <= x < (USIZE_MAX + 1) as real ==> r as real <= x < r as real + 1.0
    ensures x <= 0.0 ==> r == 0
    ensures x >= (USIZE_MAX + 1) as real ==> r == USIZE_MAX
  {
    if x <= 0.0 then 0
    else if x >= (USIZE_MAX + 1) as real then USIZE_MAX
    else x.Floor
  }

  /** The cast never reverses the order of its arguments. */
  lemma CastToUsizeMonotone(x: real, y: real)
    requires x <= y
    ensures CastToUsize(x) <= CastToUsize(y)
  {
    if 0.0 < x && y < (USIZE_MAX + 1) as real {
      assert x.Floor as real <= x <= y;
      assert CastToUsize(x) as real <= y < CastToUsize(y) as real + 1.0;
    }
  }

  /** `f32::round`: to the nearest integer, halves away from zero. */
  function Round(x: real): (r: int)
    ensures -0.5 <= x - r as real <= 0.5
    ensures x - r as real == 0.5 ==> x < 0.0
    ensures x - r as real == -0.5 ==> x > 0.0
  {
    if x >= 0.0 then (x + 0.5).Floor else -((-x + 0.5).Floor)
  }

  /** |f·d| = f·|d| for a non-negative factor. */
  lemma AbsScale(f: real, d: real)
    requires 0.0 <= f
    ensures Abs(f * d) == f * Abs(d)
  {
    if d >= 0.0 {
      MulMono(0.0, d, f);
    } else {
      MulMono(0.0, -d, f);
      assert f * d == -(f * -d);
    }
  }

  /** `a.mul_add(b, c)`: a·b + c, the fused multiply-add taken as exact. */
  function MulAdd(a: real, b: real, c: real): real {
    a * b + c
  }

  /** Rust's integer `/`: the quotient truncated toward zero. */
  function TruncDiv(a: int, b: int): (q: int)
    requires b > 0
    ensures a >= 0 ==> 0 <= a - q * b < b
    ensures a < 0 ==> -b < a - q * b <= 0
  {
    if a >= 0 then a / b else -((-a) / b)
  }

  /** Rust's `i.rem_euclid(m)`: the remainder that is never negative. */
  function RemEuclid(a: int, m: int): (r: int)
    requires m > 0
    ensures 0 <= r < m
    ensures a == (a / m) * m + r
  {
    a % m
  }

  /** A value below twice the modulus wraps at most once. */
  lemma ModSmall(x: int, n: int)
    requires n > 0 && 0 <= x < 2 * n
    ensures x % n == if x < n then x else x - n
  {
    if x >= n {
      var q := x / n;
      assert x == n * q + x % n;
      assert q == 1;
    }
  }

  /** The quotient and remainder of a division are unique. */
  lemma ModUnique(a: int, n: int, q: int, r: int)
    requires n > 0 && a == q * n + r && 0 <= r < n
    ensures a % n == r && a / n == q
  {
    var d := q - a / n;
    assert d * n == a % n - r;
  }

  /** One more step of a count modulo n: the remainder moves on by one, wrapping to 0 on reaching n. */
  lemma ModSucc(x: nat, n: nat)
    requires n > 0
    ensures (x + 1) % n == (x % n + 1) % n
    ensures x % n + 1 < n ==> (x + 1) % n == x % n + 1 && (x + 1) / n == x / n
    ensures x % n + 1 == n ==> (x + 1) % n == 0 && (x + 1) / n == x / n + 1
  {
    var q := x / n;
    if x % n + 1 == n {
      ModUnique(x + 1, n, q + 1, 0);
      ModUnique(n, n, 1, 0);
    } else {
      ModUnique(x + 1, n, q, x % n + 1);
      ModUnique(x % n + 1, n, 0, x % n + 1);
    }
  }

  /** Multiplying by a non-negative factor keeps the order. */
  lemma MulMono(a: real, b: real, k: real)
    requires a <= b && k >= 0.0
    ensures a * k <= b * k
  {
    assert b * k - a * k == (b - a) * k;
  }

  // ----- decimal rendering of integers, as `format!("{}", n)` prints them -----

  function DigitChar(d: nat): (c: char)
    requires d < 10
    ensures '0' <= c <= '9' && (c as int) - ('0' as int) == d
  {
    ['0', '1', '2', '3', '4', '5', '6', '7', '8', '9'][d]
  }

  predicate IsDigits(s: string) {
    forall i :: 0 <= i < |s| ==> '0' <= s[i] <= '9'
  }

  /** The inverse reading: the value a string of decimal digits denotes. */
  function DigitsValue(s: string): nat
    requires IsDigits(s)
  {
    if s == [] then 0
    else DigitsValue(s[..|s| - 1]) * 10 + ((s[|s| - 1] as int) - ('0' as int))
  }

  function NatToString(n: nat): (s: string)
    ensures |s| >= 1 && IsDigits(s)
    ensures |s| > 1 ==> s[0] != '0'
    decreases n
  {
    if n < 10 then [DigitChar(n)] else NatToString(n / 10) + [DigitChar(n % 10)]
  }

  /** Reading back what `NatToString` wrote gives the number again. */
  lemma {:induction false} NatToStringRoundTrip(n: nat)
    ensures DigitsValue(NatToString(n)) == n
    decreases n
  {
    var s := NatToString(n);
    if n >= 10 {
      NatToStringRoundTrip(n / 10);
      assert s[..|s| - 1] == NatToString(n / 10);
    }
  }

  function IntToString(i: int): (s: string)
    ensures i >= 0 ==> s == NatToString(i)
    ensures i < 0 ==> s == ['-'] + NatToString(-i)
  {
    if i < 0 then ['-'] + NatToString(-i) else NatToString(i)
  }

  /** Distinct numbers print differently. */
  lemma NatToStringInjective(a: nat, b: nat)
    requires NatToString(a) == NatToString(b)
    ensures a == b
  {
    NatToStringRoundTrip(a);
    NatToStringRoundTrip(b);
  }
}
