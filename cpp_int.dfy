/** C++ integer semantics the window code relies on: the 32-bit range of `int`
    and `UINT`, division and remainder that truncate toward zero, and the
    wrap-around of unsigned arithmetic. Dafny's own `/` and `%` are Euclidean,
    so every C++ division in the model goes through `Div` or `Rem`. */
module CppInt {

  const INT32_MIN: int := -0x8000_0000
  const INT32_MAX: int := 0x7fff_ffff
  const UINT32_MODULUS: int := 0x1_0000_0000

  /** The values of a Win32 `UINT` / `DWORD`. */
  type uint32 = x: int | 0 <= x < UINT32_MODULUS

  /** `x` is representable as a C++ `int`; signed overflow is undefined, so the
      model asks for this wherever the source computes an `int`. */
  predicate InInt32(x: int) {
    INT32_MIN <= x <= INT32_MAX
  }

  function Abs(x: int): (r: int)
    ensures r >= 0 && (r == x || r == -x)
  {
    if x < 0 then -x else x
  }

  /** `a / b` on C++ integers: the quotient truncated toward zero, so the
      remainder `a - q * b` takes the sign of `a`. */
  function Div(a: int, b: int): (q: int)
    requires b != 0
    ensures a >= 0 ==> 0 <= a - q * b < Abs(b)
    ensures a < 0 ==> -Abs(b) < a - q * b <= 0
  {
    if a >= 0 then
      if b > 0 then a / b else -(a / -b)
    else
      if b > 0 then -((-a) / b) else (-a) / (-b)
  }

  /** `a % b` on C++ integers: the remainder that goes with `Div`. */
  function Rem(a: int, b: int): (r: int)
    requires b != 0
    ensures a == Div(a, b) * b + r
    ensures a >= 0 ==> 0 <= r < Abs(b)
    ensures a < 0 ==> -Abs(b) < r <= 0
  {
    a - Div(a, b) * b
  }

  /** Conversion to `UINT`: the value modulo 2^32. */
  function ToUint32(x: int): (u: uint32)
    ensures (x - u) % UINT32_MODULUS == 0
    ensures 0 <= x < UINT32_MODULUS ==> u == x
  {
    x % UINT32_MODULUS
  }

  /** Truncating division is symmetric in the sign of the dividend, unlike
      Dafny's Euclidean division (for which -7 / 2 == -4 but 7 / 2 == 3). */
  lemma DivNegate(a: int, b: int)
    requires b != 0
    ensures Div(-a, b) == -Div(a, b)
  {
  }

  /** On a non-negative dividend and positive divisor the two divisions agree. */
  lemma DivNonNegative(a: int, b: int)
    requires a >= 0 && b > 0
    ensures Div(a, b) == a / b
  {
  }

  /** `q` is the quotient of `a` by `b` once `q * b` is within the truncation window. */
  lemma DivUnique(a: int, b: int, q: int)
    requires b > 0
    requires a >= 0 ==> 0 <= a - q * b < b
    requires a < 0 ==> -b < a - q * b <= 0
    ensures Div(a, b) == q
  {
    var d := Div(a, b);
    assert d * b - q * b == (d - q) * b;
    if d < q {
      MulAtLeast(q - d, b);
    } else if d > q {
      MulAtLeast(d - q, b);
    }
  }

  lemma MulAtLeast(k: int, b: int)
    requires k >= 1 && b > 0
    ensures k * b >= b
  {
    assert k * b == (k - 1) * b + b;
  }
}
