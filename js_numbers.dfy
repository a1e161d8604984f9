/**
 * The parts of JavaScript number semantics that the generators depend on:
 * ToInt32 (applied by `<<` and `^`), the bitwise xor, the truncating `%`,
 * and the decimal rendering of integers used in template-literal ids.
 * Every value handled here is integral and below 2^53 in magnitude (the
 * largest, a * state + c, stays under 1664525 * 2^32 + 1013904223, about
 * 0.79 * 2^53), so a JS double holds it exactly and unbounded `int` is the
 * faithful model.
 */
module JsNumbers {
  const Two31: int := 0x8000_0000
  const Two32: int := 0x1_0000_0000

  predicate IsInt32(v: int) {
    -Two31 <= v < Two31
  }

  /** `a` and `b` agree modulo 2^32, i.e. denote the same 32-bit pattern. */
  predicate Congruent32(a: int, b: int) {
    (a - b) % Two32 == 0
  }

  /** ECMAScript ToInt32 on an integral number. */
  function ToInt32(v: int): (r: int)
    ensures IsInt32(r)
    ensures Congruent32(r, v)
    ensures IsInt32(v) ==> r == v
  {
    var u := v % Two32;
    if u >= Two31 then u - Two32 else u
  }

  /** ECMAScript ToUint32 on an integral number. */
  function ToUint32(v: int): (r: nat)
    ensures r < Two32
    ensures Congruent32(r, v)
  {
    v % Two32
  }

  function Pow(b: int, e: nat): (r: int)
    ensures b >= 1 ==> r >= 1
  {
    if e == 0 then 1 else b * Pow(b, e - 1)
  }

  function Pow2(n: nat): (r: nat)
    ensures r >= 1
  {
    if n == 0 then 1 else 2 * Pow2(n - 1)
  }

  lemma Pow2Of32()
    ensures Pow2(31) == Two31 && Pow2(32) == Two32
  {
    assert Pow2(8) == 0x100;
    assert Pow2(16) == 0x1_0000;
    assert Pow2(24) == 0x100_0000;
  }

  /** Bitwise exclusive or of the low `n` bits of `a` and `b`, least significant bit first. */
  function BitXor(a: nat, b: nat, n: nat): (r: nat)
    ensures r < Pow2(n)
  {
    if n == 0 then 0 else (a + b) % 2 + 2 * BitXor(a / 2, b / 2, n - 1)
  }

  /** One unfolding of BitXor, for computing a xor of given numbers bit by bit. */
  lemma BitXorStep(a: nat, b: nat, n: nat, r: nat)
    requires n >= 1 && BitXor(a / 2, b / 2, n - 1) == r
    ensures BitXor(a, b, n) == (a + b) % 2 + 2 * r
  {
  }

  /** When `b` has no bit at position n-1, the xor keeps that bit of `a`. */
  lemma {:induction false} BitXorTopBit(a: nat, b: nat, n: nat)
    requires n >= 1 && a < Pow2(n) && b < Pow2(n - 1)
    ensures BitXor(a, b, n) >= Pow2(n - 1) <==> a >= Pow2(n - 1)
  {
    if n > 1 {
      BitXorTopBit(a / 2, b / 2, n - 1);
    }
  }

  /** JS `x ^ y`: both operands go through ToInt32, the result is a signed 32-bit value. */
  function Xor32(x: int, y: int): (r: int)
    ensures IsInt32(r)
  {
    ToInt32(BitXor(ToUint32(x), ToUint32(y), 32))
  }

  /** The xor with a non-negative 32-bit operand keeps the sign of the other operand. */
  lemma XorKeepsSign(x: int, y: int)
    requires 0 <= y < Two31
    ensures Xor32(x, y) < 0 <==> ToInt32(x) < 0
  {
    Pow2Of32();
    BitXorTopBit(ToUint32(x), ToUint32(y), 32);
  }

  /** JS `a % m` on integral operands with `m > 0`: the remainder takes the dividend's sign. */
  function JsRem(a: int, m: int): (r: int)
    requires m > 0
    ensures -m < r < m
    ensures a >= 0 ==> r >= 0
    ensures a <= 0 ==> r <= 0
    ensures -m < a < m ==> r == a
  {
    if a >= 0 then a % m else -((-a) % m)
  }

  /** The truncating remainder by 2^32 changes a value by a multiple of 2^32. */
  lemma JsRemCongruent(a: int)
    ensures Congruent32(JsRem(a, Two32), a)
  {
    if a < 0 {
      var q := (-a) / Two32;
      assert -a == q * Two32 + (-a) % Two32;
      assert JsRem(a, Two32) - a == q * Two32;
    }
  }

  lemma CongruentScale(a: int, b: int, k: int)
    requires Congruent32(a, b)
    ensures Congruent32(k * a, k * b)
  {
    var q := (a - b) / Two32;
    assert a - b == q * Two32;
    assert k * a - k * b == (k * q) * Two32;
  }

  lemma CongruentChain(a: int, b: int, c: int)
    requires Congruent32(a, b) && Congruent32(b, c)
    ensures Congruent32(a, c)
  {
    var q1, q2 := (a - b) / Two32, (b - c) / Two32;
    assert a - c == (q1 + q2) * Two32;
  }

  /** A positive multiple of a positive number is at least that number. */
  lemma {:induction false} MulAtLeast(k: int, n: int)
    requires k >= 1 && n > 0
    ensures k * n >= n
  {
    if k > 1 {
      MulAtLeast(k - 1, n);
      assert k * n == (k - 1) * n + n;
    }
  }

  /** Euclidean division is unique: a quotient and remainder in range are the ones `/` and `%` give. */
  lemma DivModUnique(a: int, n: int, q: int, r: int)
    requires n > 0 && 0 <= r < n && a == q * n + r
    ensures a % n == r
  {
    var q', r' := a / n, a % n;
    assert a == q' * n + r' && 0 <= r' < n;
    var d := q - q';
    assert d * n == r' - r;
    if d >= 1 {
      MulAtLeast(d, n);
    } else if d <= -1 {
      assert (-d) * n == r - r';
      MulAtLeast(-d, n);
    }
  }

  lemma ModShift(a: nat, n: nat)
    requires n > 0
    ensures (a + n) % n == a % n
  {
    var q, r := a / n, a % n;
    assert a == q * n + r && 0 <= r < n;
    assert a + n == (q + 1) * n + r;
    DivModUnique(a + n, n, q + 1, r);
  }

  /** Two signed 32-bit values that agree modulo 2^32 are equal. */
  lemma Int32Unique(a: int, b: int)
    requires IsInt32(a) && IsInt32(b) && Congruent32(a, b)
    ensures a == b
  {
    var d := a - b;
    if d > 0 {
      DivModUnique(d, Two32, 0, d);
      assert false;
    } else if d < 0 {
      DivModUnique(d, Two32, -1, d + Two32);
      assert false;
    }
  }

  /** ToInt32 of `v` is `v - k * 2^32` for the `k` that brings it into the signed 32-bit range. */
  lemma ToInt32Shift(v: int, k: int)
    requires IsInt32(v - k * Two32)
    ensures ToInt32(v) == v - k * Two32
  {
    var w := v - k * Two32;
    DivModUnique(v - w, Two32, k, 0);
    CongruentChain(ToInt32(v), v, w);
    Int32Unique(ToInt32(v), w);
  }
}
