/** Facts about natural-number multiplication and division used by both the
    buffer layout and the register model. */
module Arith {

  /** Multiplication by a natural number is monotone. */
  lemma MulLeft(a: nat, b: nat, c: nat)
    requires a <= b
    ensures a * c <= b * c
  {
  }

  /** `q * n + s` with `s < n` determines `q` and `s`. */
  lemma {:induction false} DivModUnique(q1: nat, s1: nat, q2: nat, s2: nat, n: nat)
    requires s1 < n && s2 < n
    requires q1 * n + s1 == q2 * n + s2
    ensures q1 == q2 && s1 == s2
  {
    if q1 < q2 {
      MulLeft(q1 + 1, q2, n);
      assert false;
    } else if q2 < q1 {
      MulLeft(q2 + 1, q1, n);
      assert false;
    }
  }

  /** Quotient and remainder of a natural number by a positive divisor. */
  lemma DivMod(x: nat, n: nat)
    requires n > 0
    ensures x / n >= 0 && x == x / n * n + x % n && x % n < n
  {
  }

  /** A remainder by `b`, scaled by `a`, plus a remainder by `a` stays below
      `a * b`. */
  lemma RemainderBound(r: nat, b: nat, s: nat, a: nat)
    requires r < b && s < a
    ensures r * a + s < a * b
  {
    MulLeft(r, b - 1, a);
    assert (b - 1) * a == a * b - a;
  }

  /** Dividing by `a` and then by `b` is dividing by `a * b`. */
  lemma DivDiv(x: nat, a: nat, b: nat)
    requires a > 0 && b > 0
    ensures x / a / b == x / (a * b)
  {
    var y := x / a;
    DivMod(x, a);
    DivMod(y, b);
    var q, r, s := y / b, y % b, x % a;
    assert x == q * (a * b) + (r * a + s) by {
      assert x == (q * b + r) * a + s;
      assert (q * b + r) * a == q * (a * b) + r * a;
    }
    RemainderBound(r, b, s, a);
    DivMod(x, a * b);
    DivModUnique(q, r * a + s, x / (a * b), x % (a * b), a * b);
  }

  /** `x` splits around a digit of weight `m` in base 2: the part above it, the
      digit itself, and the part below it. */
  lemma SplitAround(x: nat, m: nat)
    requires m > 0
    ensures x == x / (2 * m) * (2 * m) + x / m % 2 * m + x % m
  {
    var y := x / m;
    DivMod(x, m);
    DivDiv(x, m, 2);
    assert m * 2 == 2 * m;
    assert y == y / 2 * 2 + y % 2;
    assert y * m == y / 2 * (2 * m) + y % 2 * m by {
      assert y * m == (y / 2 * 2 + y % 2) * m;
    }
  }

  /** Quotient and remainder by `m` of a value assembled around a digit of
      weight `m`. */
  lemma JoinBelow(h: nat, b: nat, l: nat, m: nat)
    requires m > 0 && l < m
    ensures (h * (2 * m) + b * m + l) / m == 2 * h + b
    ensures (h * (2 * m) + b * m + l) % m == l
  {
    var x := h * (2 * m) + b * m + l;
    assert x == (2 * h + b) * m + l;
    DivMod(x, m);
    DivModUnique(2 * h + b, l, x / m, x % m, m);
  }

  /** The three parts of `SplitAround` are determined by the value. */
  lemma JoinAround(h: nat, b: nat, l: nat, m: nat)
    requires m > 0 && b < 2 && l < m
    ensures (h * (2 * m) + b * m + l) / m % 2 == b
    ensures (h * (2 * m) + b * m + l) % m == l
    ensures (h * (2 * m) + b * m + l) / (2 * m) == h
  {
    var x := h * (2 * m) + b * m + l;
    JoinBelow(h, b, l, m);
    DivMod(2 * h + b, 2);
    DivModUnique(h, b, (2 * h + b) / 2, (2 * h + b) % 2, 2);
    DivDiv(x, m, 2);
    assert m * 2 == 2 * m;
  }

  /** A multiple of `d` leaves no remainder and gives back its factor. */
  lemma DivOfMultiple(q: nat, d: nat)
    requires d > 0
    ensures (q * d) % d == 0 && (q * d) / d == q
  {
    var n := q * d;
    assert n == (n / d) * d + n % d;
    DivModUnique(n / d, n % d, q, 0, d);
  }

  /** Dividing `a` multiples of `c * d`, plus `b`, by `d`. */
  lemma DivSplit(a: nat, c: nat, b: nat, d: nat)
    requires d > 0
    ensures (a * (c * d) + b) / d == a * c + b / d
  {
    var x := a * (c * d) + b;
    DivMod(b, d);
    assert x == (a * c + b / d) * d + b % d by {
      assert a * (c * d) == (a * c) * d;
      assert (a * c + b / d) * d == (a * c) * d + b / d * d;
    }
    DivMod(x, d);
    DivModUnique(a * c + b / d, b % d, x / d, x % d, d);
  }

  /** Adding an even number keeps the parity. */
  lemma ParityOfEvenPlus(t: nat, u: nat)
    ensures (2 * t + u) % 2 == u % 2
  {
    DivMod(u, 2);
    DivMod(2 * t + u, 2);
    DivModUnique(t + u / 2, u % 2, (2 * t + u) / 2, (2 * t + u) % 2, 2);
  }

  /** Adding multiples of an even multiple of `p` keeps the base-2 digit of
      weight `p`. */
  lemma DigitPastMultiples(h: nat, c: nat, l: nat, p: nat)
    requires p > 0
    ensures (h * ((2 * c) * p) + l) / p % 2 == l / p % 2
  {
    DivSplit(h, 2 * c, l, p);
    assert h * (2 * c) == 2 * (h * c);
    ParityOfEvenPlus(h * c, l / p);
  }

  /** The base-2 digit of weight `p` is the same in `x` and in its remainder
      by any even multiple of `p`. */
  lemma DigitOfRemainder(x: nat, p: nat, c: nat)
    requires p > 0 && c > 0
    ensures x / p % 2 == x % (2 * c * p) / p % 2
  {
    var n := 2 * c * p;
    DivMod(x, n);
    assert n == (2 * c) * p;
    DigitPastMultiples(x / n, c, x % n, p);
  }
}
