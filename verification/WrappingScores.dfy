/** Multiplication of unsigned 64-bit integers, which wraps around, by a weight. */
module WrappingScores {

  const TWO64 := 0x1_0000_0000_0000_0000

  function WrappingProduct(x: int, w: int): (r: int)
    ensures 0 <= r < TWO64
  {
    (x * w) % TWO64
  }

  function Pow2(k: nat): (r: int)
    ensures r > 0
  {
    if k == 0 then 1 else 2 * Pow2(k - 1)
  }

  lemma {:induction false} Pow2Adds(j: nat, k: nat)
    ensures Pow2(j + k) == Pow2(j) * Pow2(k)
  {
    if j > 0 {
      Pow2Adds(j - 1, k);
      MulAssociates(2, Pow2(j - 1), Pow2(k));
    }
  }

  lemma Pow2Of64()
    ensures Pow2(64) == TWO64
  {
    assert Pow2(8) == 256;
    Pow2Adds(8, 8);
    Pow2Adds(16, 16);
    Pow2Adds(32, 32);
  }

  // ---------- a little arithmetic, one step at a time ----------

  lemma MulAssociates(a: int, b: int, c: int)
    ensures (a * b) * c == a * (b * c)
  {
  }

  lemma MulSubtracts(a: int, b: int, c: int)
    ensures (a - b) * c == a * c - b * c
  {
  }

  lemma MulBounds(d: int, n: int)
    requires n > 0
    ensures d >= 1 ==> d * n >= n
    ensures d <= -1 ==> d * n <= -n
  {
  }

  lemma MulCancels(a: int, b: int, n: int)
    requires n > 0 && a * n == b * n
    ensures a == b
  {
  }

  lemma DivMod(x: int, n: int)
    requires n > 0
    ensures x == (x / n) * n + x % n && 0 <= x % n < n
  {
  }

  /** n divides x */
  ghost predicate Divides(n: int, x: int) {
    exists q: int :: x == q * n
  }

  lemma CongruentIff(a: int, b: int, n: int)
    requires n > 0
    ensures a % n == b % n <==> Divides(n, a - b)
  {
    DivMod(a, n);
    DivMod(b, n);
    MulSubtracts(a / n, b / n, n);
    if Divides(n, a - b) {
      var q :| a - b == q * n;
      var d := q - (a / n - b / n);
      MulSubtracts(q, a / n - b / n, n);
      assert d * n == a % n - b % n;
      MulBounds(d, n);
    }
  }

  /** An odd factor does not help a power of two divide. */
  lemma {:induction false} OddFactor(k: nat, m: int, d: int)
    requires m % 2 == 1 && Divides(Pow2(k), d * m)
    ensures Divides(Pow2(k), d)
  {
    if k == 0 {
      assert d == d * Pow2(0);
    } else {
      var p := Pow2(k - 1);
      var q :| d * m == q * Pow2(k);
      var e := Halved(d, m, q, p);
      assert Divides(p, e * m);
      OddFactor(k - 1, m, e);
      var r :| e == r * p;
      assert d == r * Pow2(k) by { MulAssociates(r, 2, p); MulAssociates(2, r, p); }
    }
  }

  lemma Halved(d: int, m: int, q: int, p: int) returns (e: int)
    requires m % 2 == 1 && d * m == q * (2 * p)
    ensures d == 2 * e && e * m == q * p
  {
    var h := m / 2;
    assert m == 2 * h + 1;
    calc {
      d * m;
      d * (2 * h + 1);
      2 * (d * h) + d;
    }
    assert q * (2 * p) == 2 * (q * p);
    e := q * p - d * h;
    MulAssociates(2, e, m);
  }

  /** Under a weight of 2^k times an odd number, two hashes give the same product exactly when
      they agree in their low 64 - k bits. */
  lemma ProductsTieIff(a: int, b: int, k: nat, m: int)
    requires k <= 64 && m % 2 == 1
    ensures WrappingProduct(a, Pow2(k) * m) == WrappingProduct(b, Pow2(k) * m) <==> a % Pow2(64 - k) == b % Pow2(64 - k)
  {
    var low, p, d := Pow2(64 - k), Pow2(k), a - b;
    Pow2Of64();
    Pow2Adds(64 - k, k);
    CongruentIff(a * (p * m), b * (p * m), TWO64);
    CongruentIff(a, b, low);
    Regrouped(a, b, p, m);
    if Divides(TWO64, (d * m) * p) {
      var q :| (d * m) * p == q * TWO64;
      MulAssociates(q, low, p);
      MulCancels(d * m, q * low, p);
      OddFactor(64 - k, m, d);
    }
    if Divides(low, d) {
      var q :| d == q * low;
      ScaledUp(q, low, m, p);
    }
  }

  lemma Regrouped(a: int, b: int, p: int, m: int)
    ensures a * (p * m) - b * (p * m) == ((a - b) * m) * p
  {
  }

  lemma ScaledUp(q: int, low: int, m: int, p: int)
    ensures ((q * low) * m) * p == (q * m) * (low * p)
  {
  }

  /** A weight divisible by 2^k gives only products divisible by 2^k. */
  lemma ProductDivisible(x: int, w: int, k: nat)
    requires k <= 64 && w % Pow2(k) == 0
    ensures WrappingProduct(x, w) % Pow2(k) == 0
  {
    var n := Pow2(k);
    Pow2Of64();
    Pow2Adds(64 - k, k);
    DivMod(w, n);
    DivMod(x * w, TWO64);
    var q, y, high := w / n, x * w / TWO64, Pow2(64 - k);
    MulAssociates(x, q, n);
    MulAssociates(y, high, n);
    MulSubtracts(x * q, y * high, n);
    assert WrappingProduct(x, w) - 0 == (x * q - y * high) * n;
    CongruentIff(WrappingProduct(x, w), 0, n);
    DivMod(0, n);
    MulBounds(0 / n, n);
  }
}
