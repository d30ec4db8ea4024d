/** The integer square root of the ping statistics, in 32-bit arithmetic: every
    intermediate value of the type must be in range. */
module Isqrt {

  newtype U32 = x: int | 0 <= x < 0x1_0000_0000

  /** Powers of two, for the proof: the loop's `bit` is the square of one. */
  ghost function Pow2(k: nat): (p: int)
    ensures p >= 1
  {
    if k == 0 then 1 else 2 * Pow2(k - 1)
  }

  lemma Squares(k: nat)
    ensures Pow2(k) * Pow2(k) >= 1
    ensures k > 0 ==> Pow2(k) * Pow2(k) == 4 * (Pow2(k - 1) * Pow2(k - 1))
  {
  }

  lemma Fifteen()
    ensures Pow2(15) == 0x8000
  {
    assert Pow2(5) == 32;
    assert Pow2(10) == 1024;
    assert Pow2(15) == 0x8000;
  }

  /** One digit: with root so far `q` and digit value `b`, the remainder covers
      the step exactly when the square of `q + b` does not exceed `n`. */
  lemma Digit(n: int, q: int, b: int)
    requires 0 <= q && b >= 1
    ensures n - q * q >= 2 * q * b + b * b <==> n >= (q + b) * (q + b)
    ensures n - q * q - (2 * q * b + b * b) == n - (q + b) * (q + b)
  {
  }

  lemma Below(q: int, b: int)
    requires 0 <= q && b >= 1 && q + 2 * b <= 0x1_0000
    ensures 0 <= 2 * q * b && 2 * q * b + b * b < 0x1_0000_0000
  {
    assert (q + b) * (q + b) == q * q + 2 * q * b + b * b;
    Grows(q + b, 0xFFFF);
    Grows(0, q);
    assert q * b >= 0;
  }

  lemma Grows(a: int, b: int)
    requires 0 <= a <= b
    ensures a * a <= b * b
  {
    assert b * b - a * a == (b - a) * (b + a);
  }

  ghost predicate State(number: int, n: int, root: int, bit: int, q: int, j: int) {
    && 0 <= q && n == number - q * q >= 0
    && if j < 0 then bit == 0 && root == q && number < (q + 1) * (q + 1)
       else var b := Pow2(j);
            bit == b * b && root == 2 * q * b && number < (q + 2 * b) * (q + 2 * b) && q + 2 * b <= 0x1_0000
  }

  /** Products with a digit, in terms of half of it. */
  lemma Halves(q: int, b: int, h: int)
    requires b == 2 * h
    ensures b * b == 4 * (h * h) && (b * b) / 4 == h * h
    ensures (2 * q * b) / 2 == q * b == 2 * q * h
  {
    assert 2 * q * b == 2 * (q * b);
  }

  lemma Ones(q: int)
    ensures 2 * q * 1 == 2 * q && (2 * q * 1) / 2 == q && (q + 1) * (q + 1) == q * q + 2 * q + 1
  {
  }

  /** The digit is taken. */
  lemma Taken(number: int, n: int, root: int, bit: int, q: int, j: nat)
    requires State(number, n, root, bit, q, j) && n >= root + bit
    ensures State(number, n - (root + bit), root / 2 + bit, bit / 4, q + Pow2(j), j - 1)
  {
    var b := Pow2(j);
    Digit(number, q, b);
    if j > 0 {
      var h := Pow2(j - 1);
      hide Pow2;
      Halves(q, b, h);
      Rooted(q, b, h);
    } else {
      Ones(q);
    }
  }

  lemma Rooted(q: int, b: int, h: int)
    requires b == 2 * h
    ensures q * b + b * b == 2 * (q + b) * h
    ensures q + b + 2 * h == q + 2 * b
  {
    assert (q + b) * b == q * b + b * b;
    assert (q + b) * (2 * h) == 2 * (q + b) * h;
  }

  lemma Skipped(number: int, n: int, root: int, bit: int, q: int, j: nat)
    requires State(number, n, root, bit, q, j) && n < root + bit
    ensures State(number, n, root / 2, bit / 4, q, j - 1)
  {
    var b := Pow2(j);
    Digit(number, q, b);
    if j > 0 {
      var h := Pow2(j - 1);
      hide Pow2;
      Halves(q, b, h);
    } else {
      Ones(q);
    }
  }

  /** The root of every 32-bit number, rounded down. */
  method Root(number: U32) returns (root: U32)
    ensures root as int * root as int <= number as int < (root as int + 1) * (root as int + 1)
  {
    var n := number;
    var bit: U32 := 0x4000_0000;
    root := 0;
    ghost var j, q := 15, 0;
    Fifteen();
    while bit > n
      invariant -1 <= j <= 15 && State(number as int, n as int, root as int, bit as int, q, j)
      invariant q == 0 && root == 0 && n == number
      decreases bit
    {
      Squares(j);
      Skipped(number as int, n as int, 0, bit as int, 0, j);
      bit := bit / 4;
      j := j - 1;
    }
    while bit != 0
      invariant -1 <= j <= 15 && State(number as int, n as int, root as int, bit as int, q, j)
      decreases j
    {
      assert j >= 0;
      Below(q, Pow2(j));
      if n >= root + bit {
        Taken(number as int, n as int, root as int, bit as int, q, j);
        n := n - (root + bit);
        root := root / 2 + bit;
        q := q + Pow2(j);
      } else {
        Skipped(number as int, n as int, root as int, bit as int, q, j);
        root := root / 2;
      }
      bit := bit / 4;
      j := j - 1;
    }
    if j >= 0 { Squares(j); }
  }
}
