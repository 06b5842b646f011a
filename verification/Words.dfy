/** Unsigned machine words as natural numbers below a power of two, with the
    bitwise operators spelled out. */
module Words {

  type Byte = n: nat | n < 256

  function Pow2(n: nat): (r: nat)
    ensures r > 0
  {
    if n == 0 then 1 else 2 * Pow2(n - 1)
  }

  function Or(a: nat, b: nat): nat {
    if a == 0 then b else if b == 0 then a
    else 2 * Or(a / 2, b / 2) + if a % 2 == 1 || b % 2 == 1 then 1 else 0
  }

  function And(a: nat, b: nat): nat {
    if a == 0 || b == 0 then 0
    else 2 * And(a / 2, b / 2) + if a % 2 == 1 && b % 2 == 1 then 1 else 0
  }

  function Xor(a: nat, b: nat): nat {
    if a == 0 then b else if b == 0 then a
    else 2 * Xor(a / 2, b / 2) + if a % 2 != b % 2 then 1 else 0
  }

  /** `x << k` in a word of `width` bits: the high bits fall off. */
  function Shl(x: nat, k: nat, width: nat): nat { (x * Pow2(k)) % Pow2(width) }

  function Shr(x: nat, k: nat): nat { Quotient(x, Pow2(k)) }

  function Quotient(x: nat, d: nat): nat
    requires d > 0
  {
    x / d
  }

  lemma {:induction false} Pow2Sum(a: nat, b: nat)
    ensures Pow2(a + b) == Pow2(a) * Pow2(b)
  {
    if a > 0 { Pow2Sum(a - 1, b); }
  }

  lemma OrStep(y: nat, b: nat)
    requires Or(y, b / 2) == y + b / 2
    ensures Or(2 * y, b) == 2 * y + b
  {
    assert 2 * y / 2 == y && 2 * y % 2 == 0;
  }

  lemma Doubled(a: nat, m: nat)
    ensures a * (2 * m) == 2 * (a * m)
  {
  }

  /** Setting the bits below `k` of a multiple of 2^k is addition. */
  lemma {:induction false} OrDisjoint(a: nat, b: nat, k: nat)
    requires b < Pow2(k)
    ensures Or(a * Pow2(k), b) == a * Pow2(k) + b
  {
    if k > 0 {
      OrDisjoint(a, b / 2, k - 1);
      OrStep(a * Pow2(k - 1), b);
      Doubled(a, Pow2(k - 1));
    }
  }

  lemma {:induction false} AndMask(x: nat, k: nat)
    ensures And(x, Pow2(k) - 1) == x % Pow2(k)
  {
    if k > 0 {
      AndMask(x / 2, k - 1);
      ModHalf(x, Pow2(k - 1));
    }
  }

  lemma ModHalf(x: nat, m: nat)
    requires m > 0
    ensures x % (2 * m) == 2 * (x / 2 % m) + x % 2
  {
    var q, r := x / 2 / m, x / 2 % m;
    assert x / 2 == m * q + r;
    assert x == (2 * m) * q + (2 * r + x % 2);
    Remainder(x, 2 * m, q, 2 * r + x % 2);
  }

  /** Division with remainder is unique. */
  lemma Remainder(x: nat, m: nat, q: nat, r: nat)
    requires m > 0 && r < m && x == m * q + r
    ensures x / m == q && x % m == r
  {
    var d := x / m;
    assert x == m * d + x % m;
    MulOrder(m, d, q + 1);
    MulOrder(m, q, d + 1);
  }

  lemma MulOrder(w: nat, a: nat, b: nat)
    requires w * a < w * b
    ensures a < b
  {
    MulMonotone(w, b, a);
  }

  lemma MulMonotone(w: nat, a: nat, b: nat)
    ensures a <= b ==> w * a <= w * b
  {
  }

  lemma {:induction false} XorZero(a: nat, b: nat)
    ensures Xor(a, b) == 0 <==> a == b
    decreases a
  {
    if a != 0 && b != 0 { XorZero(a / 2, b / 2); }
  }

  lemma {:induction false} OrZero(a: nat, b: nat)
    ensures Or(a, b) == 0 <==> a == 0 && b == 0
    decreases a
  {
    if a != 0 && b != 0 { OrZero(a / 2, b / 2); }
  }

  // ----- words as bit strings -----

  type Bits = seq<bool>

  /** The low `n` bits of `v`, most significant first. */
  function Low(v: nat, n: nat): (r: Bits)
    ensures |r| == n
  {
    if n == 0 then [] else Low(v / 2, n - 1) + [v % 2 == 1]
  }

  function Zeros(n: nat): (r: Bits)
    ensures |r| == n
  {
    if n == 0 then [] else Zeros(n - 1) + [false]
  }

  lemma {:induction false} LowOfZero(n: nat)
    ensures Low(0, n) == Zeros(n)
  {
    if n > 0 { LowOfZero(n - 1); }
  }

  /** Reducing modulo 2^m leaves the low `n <= m` bits alone. */
  lemma {:induction false} LowOfMod(v: nat, n: nat, m: nat)
    requires n <= m
    ensures Low(v % Pow2(m), n) == Low(v, n)
    decreases n
  {
    if n > 0 {
      ModHalf(v, Pow2(m - 1));
      LowOfMod(v / 2, n - 1, m - 1);
    }
  }

  lemma {:induction false} LowAppend(v: nat, q: nat, n: nat, k: nat)
    requires q < Pow2(k)
    ensures Low(v * Pow2(k) + q, n + k) == Low(v, n) + Low(q, k)
  {
    if k > 0 {
      var w := v * Pow2(k - 1);
      assert v * Pow2(k) == 2 * w;
      assert (2 * w + q) / 2 == w + q / 2 && (2 * w + q) % 2 == q % 2;
      LowAppend(v, q / 2, n, k - 1);
    } else {
      assert v * Pow2(0) + q == v;
    }
  }

  lemma LowSplit(v: nat, n: nat, k: nat)
    ensures Low(v, n + k) == Low(Shr(v, k), n) + Low(v, k)
  {
    DivMod(v, Pow2(k));
    LowOfSum(Shr(v, k), v % Pow2(k), n, k, v);
  }

  lemma LowOfSum(q: nat, r: nat, n: nat, k: nat, v: nat)
    requires r < Pow2(k) && v == q * Pow2(k) + r
    ensures Low(v, n + k) == Low(q, n) + Low(v, k)
  {
    LowAppend(q, r, n, k);
    LowAppend(q, r, 0, k);
    assert Low(q, 0) + Low(r, k) == Low(r, k);
  }

  lemma DivMod(v: nat, m: nat)
    requires m > 0
    ensures v == (v / m) * m + v % m
    ensures v % m < m
  {
  }

  lemma {:induction false} LowInjective(a: nat, b: nat, n: nat)
    requires a < Pow2(n) && b < Pow2(n) && Low(a, n) == Low(b, n)
    ensures a == b
  {
    if n > 0 {
      var x, y := Low(a, n), Low(b, n);
      assert x[n - 1] == y[n - 1] && x[..n - 1] == y[..n - 1];
      assert x[..n - 1] == Low(a / 2, n - 1) && y[..n - 1] == Low(b / 2, n - 1);
      LowInjective(a / 2, b / 2, n - 1);
    }
  }

  // ----- a shift register that is never masked -----

  lemma ScaledModulo(x: nat, m: nat, c: nat)
    requires m > 0 && c > 0
    ensures m * c > 0 && (x * c) % (m * c) == (x % m) * c
  {
    DivMod(x, m);
    var q, r := x / m, x % m;
    ScaleRemainder(q, r, m, c, x);
    Remainder(x * c, m * c, q, r * c);
  }

  lemma ShlKeepsLow(x: nat, k: nat, width: nat)
    requires k <= width
    ensures Shl(x, k, width) == (x % Pow2(width - k)) * Pow2(k)
  {
    Pow2Sum(width - k, k);
    ScaledModulo(x, Pow2(width - k), Pow2(k));
  }

  lemma ScaleRemainder(q: nat, r: nat, m: nat, c: nat, x: nat)
    requires x == q * m + r && r < m && c > 0
    ensures x * c == (m * c) * q + r * c && r * c < m * c
  {
    assert (q * m + r) * c == (q * m) * c + r * c;
    assert (q * m) * c == (m * c) * q;
  }

  /** Shifting in `k` bits appends them to any window the word still holds. */
  lemma PushBits(buffer: nat, v: nat, n: nat, k: nat, width: nat)
    requires v < Pow2(k) && n + k <= width
    ensures Low(Or(Shl(buffer, k, width), v), n + k) == Low(buffer, n) + Low(v, k)
  {
    ShlKeepsLow(buffer, k, width);
    var kept := buffer % Pow2(width - k);
    OrDisjoint(kept, v, k);
    LowAppend(kept, v, n, k);
    LowOfMod(buffer, n, width - k);
  }

  /** Shifting down and masking reads the bits just above the window. */
  lemma TakeBits(buffer: nat, n: nat, k: nat)
    ensures Low(And(Shr(buffer, n), Pow2(k) - 1), k) + Low(buffer, n) == Low(buffer, k + n)
    ensures And(Shr(buffer, n), Pow2(k) - 1) < Pow2(k)
  {
    AndMask(Shr(buffer, n), k);
    DivMod(Shr(buffer, n), Pow2(k));
    LowOfMod(Shr(buffer, n), k, k);
    LowSplit(buffer, k, n);
  }

  /** Shifting up and masking fills the window with zeros. */
  lemma FillBits(buffer: nat, n: nat, k: nat, width: nat)
    requires n + k <= width
    ensures Low(And(Shl(buffer, k, width), Pow2(n + k) - 1), n + k) == Low(buffer, n) + Zeros(k)
    ensures And(Shl(buffer, k, width), Pow2(n + k) - 1) < Pow2(n + k)
  {
    var x := buffer * Pow2(k);
    AndMask(Shl(buffer, k, width), n + k);
    DivMod(Shl(buffer, k, width), Pow2(n + k));
    LowOfMod(Shl(buffer, k, width), n + k, n + k);
    LowOfMod(x, n + k, width);
    LowAppend(buffer, 0, n, k);
    LowOfZero(k);
  }
}
