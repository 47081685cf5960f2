/** Prime numbers, as far as the table of primes needs them: every number has a prime
    factor, and between a number and its square there is a prime. */
module Primes {
  predicate Times(t: nat, d: nat, n: nat) {
    n == t * d
  }

  ghost predicate Divides(d: nat, n: nat) {
    exists t: nat :: Times(t, d, n)
  }

  ghost predicate IsPrime(p: nat) {
    p >= 2 && forall d | 2 <= d < p :: !Divides(d, p)
  }

  lemma MulLe(a: int, b: int, c: nat)
    requires a <= b
    ensures a * c <= b * c && c * a <= c * b
  {
    assert b * c == a * c + (b - a) * c;
  }

  lemma DividesMultiple(t: nat, d: nat)
    ensures Divides(d, t * d) && Divides(t, t * d)
  {
    assert Times(t, d, t * d) && Times(d, t, t * d);
  }

  /** Exact division gives the number back just when there is no remainder. */
  lemma DividesMeans(d: nat, n: nat)
    requires d > 0
    ensures Divides(d, n) <==> d * (n / d) == n
  {
    var q, r := n / d, n % d;
    assert n == d * q + r;
    if t: nat :| Times(t, d, n) {
      if t > q {
        MulLe(q + 1, t, d);
      } else {
        MulLe(t, q, d);
      }
    }
    if d * q == n { assert Times(q, d, n); }
  }

  lemma DividesOn(a: nat, b: nat, n: nat)
    requires Divides(a, b) && Divides(b, n)
    ensures Divides(a, n)
  {
    var s: nat :| Times(s, a, b);
    var t: nat :| Times(t, b, n);
    assert t * (s * a) == (t * s) * a;
    assert Times(t * s, a, n);
  }

  /** A number that is not prime has a prime factor up to its square root. */
  lemma {:induction false} PrimeFactor(n: nat) returns (p: nat)
    requires n >= 2
    ensures IsPrime(p) && Divides(p, n) && 2 <= p <= n
    ensures !IsPrime(n) ==> p * p <= n
    decreases n
  {
    if IsPrime(n) {
      p := n;
      assert Times(1, n, n);
    } else {
      var d :| 2 <= d < n && Divides(d, n);
      var s := SmallerFactor(n, d);
      p := PrimeFactor(s);
      DividesOn(p, s, n);
      MulLe(p, s, p);
      MulLe(p, s, s);
    }
  }

  lemma SmallerFactor(n: nat, d: nat) returns (s: nat)
    requires 2 <= d < n && Divides(d, n)
    ensures 2 <= s < n && Divides(s, n) && s * s <= n
  {
    var e: nat :| Times(e, d, n);
    assert e != 0 && e != 1;
    DividesMultiple(e, d);
    s := if d <= e then d else e;
    if d <= e { MulLe(d, e, d); } else { MulLe(e, d, e); }
  }

  // ----- Binomials -----

  function Choose(n: nat, k: nat): nat {
    if k == 0 then 1 else if n == 0 then 0 else Choose(n - 1, k - 1) + Choose(n - 1, k)
  }

  lemma {:induction false} Absorb(n: nat, k: nat)
    requires k <= n && n > 0
    ensures (k + 1) * Choose(n, k + 1) == (n - k) * Choose(n, k) == n * Choose(n - 1, k)
    decreases n
  {
    var c, q := Choose(n - 1, k), Choose(n - 1, k + 1);
    var p := if k > 0 then Choose(n - 1, k - 1) else 0;
    if n == 1 {
      assert Choose(0, 0) == 1 && Choose(0, 1) == 0 && Choose(0, 2) == 0;
    } else if k < n {
      Absorb(n - 1, k);
      if k > 0 { Absorb(n - 1, k - 1); }
      AbsorbStep(n, k, c, q, p);
    } else {
      NoneBeyond(n - 1, n);
      NoneBeyond(n - 1, n + 1);
    }
  }

  lemma AbsorbStep(n: nat, k: nat, c: nat, q: nat, p: nat)
    requires k < n && (k + 1) * q == (n - 1 - k) * c
    requires k > 0 ==> k * c == (n - 1 - (k - 1)) * p
    requires k == 0 ==> p == 0 && c == 1
    ensures (k + 1) * (c + q) == n * c
    ensures k > 0 ==> (n - k) * (p + c) == n * c
  {
    assert (k + 1) * (c + q) == (k + 1) * c + (k + 1) * q;
    assert (k + 1) * c + (n - 1 - k) * c == n * c;
    if k > 0 {
      assert (n - k) * (p + c) == (n - k) * p + (n - k) * c;
      assert k * c + (n - k) * c == n * c;
    }
  }

  lemma {:induction false} NoneBeyond(n: nat, k: nat)
    requires k > n
    ensures Choose(n, k) == 0
  {
    if n > 0 {
      NoneBeyond(n - 1, k - 1);
      NoneBeyond(n - 1, k);
    }
  }

  function Pow(b: nat, e: nat): nat {
    if e == 0 then 1 else b * Pow(b, e - 1)
  }

  lemma {:induction false} MiddleIsLarge(m: nat)
    requires m >= 1
    ensures 2 * m * Choose(2 * m, m) >= Pow(4, m)
  {
    if m == 1 {
      assert Choose(2, 1) == Choose(1, 0) + Choose(1, 1) && Choose(1, 1) == Choose(0, 0) + Choose(0, 1);
      assert Pow(4, 1) == 4 * Pow(4, 0);
    } else {
      var k := m - 1;
      MiddleIsLarge(k);
      Absorb(2 * m, k);
      Absorb(2 * m - 1, k);
      assert 2 * m - 1 - k == m && 2 * m - 2 == 2 * k;
      MiddleStep(m, Choose(2 * m, m), Choose(2 * m - 1, k), Choose(2 * k, k), Pow(4, k));
    }
  }

  lemma MiddleStep(m: nat, a: nat, b: nat, c: nat, power: nat)
    requires m >= 1 && m * a == 2 * m * b && m * b == (2 * m - 1) * c && 2 * (m - 1) * c >= power
    ensures 2 * m * a >= 4 * power
  {
    assert 2 * m * a == 2 * (m * a) == 4 * (m * b) == 4 * ((2 * m - 1) * c);
    MulLe(2 * (m - 1), 2 * m - 1, c);
  }

  /** A common multiple of 1, ..., m + d is a multiple of m times a binomial. */
  lemma {:induction false} BinomialDivides(l: nat, m: nat, d: nat) returns (t: int)
    requires m >= 1 && forall k | 1 <= k <= m + d :: Divides(k, l)
    ensures t * (m * Choose(m + d, m)) == l
    decreases d
  {
    if d == 0 {
      AllOfThem(m);
      assert Divides(m, l);
      var q: nat :| Times(q, m, l);
      t := q;
    } else {
      var t1 := BinomialDivides(l, m, d - 1);
      var t2 := BinomialDivides(l, m + 1, d - 1);
      t := t1 - t2;
      var x, y, z := Choose(m + d, m), Choose(m + d - 1, m), Choose(m + d, m + 1);
      Absorb(m + d, m);
      assert (m + 1) * z == d * x == (m + d) * y;
      assert (m + 1) + (d - 1) == m + d && m + (d - 1) == m + d - 1;
      Difference(l, m, d, x, y, z, t1, t2);
    }
  }

  lemma Difference(l: int, m: int, d: nat, x: int, y: int, z: int, t1: int, t2: int)
    requires d > 0 && (m + 1) * z == d * x == (m + d) * y
    requires t1 * (m * y) == l && t2 * ((m + 1) * z) == l
    ensures (t1 - t2) * (m * x) == l
  {
    assert l * (m + d) == t1 * m * ((m + d) * y) == t1 * m * (d * x) by {
      assert t1 * (m * y) * (m + d) == t1 * m * ((m + d) * y);
    }
    assert l == t2 * (d * x);
    assert d * ((t1 - t2) * (m * x)) == t1 * m * (d * x) - m * (t2 * (d * x));
    assert d * ((t1 - t2) * (m * x)) == l * (m + d) - m * l == d * l;
    Cancel(d, (t1 - t2) * (m * x), l);
  }

  lemma Cancel(d: nat, a: int, b: int)
    requires d > 0 && d * a == d * b
    ensures a == b
  {
    if a < b { MulLe(a + 1, b, d); } else if a > b { MulLe(b + 1, a, d); }
  }

  lemma {:induction false} AllOfThem(n: nat)
    ensures Choose(n, n) == 1
  {
    if n > 0 {
      AllOfThem(n - 1);
      NoneBeyond(n - 1, n);
    }
  }

  // ----- A common multiple made of few primes -----

  /** The exponent of the highest power of q that is at most n, from an exponent on. */
  function LogFrom(q: nat, n: nat, e: nat): nat
    requires q >= 2 && Pow(q, e) <= n
    decreases n - e
  {
    PowGrows(q, e);
    if Pow(q, e + 1) <= n then PowGrows(q, e + 1); LogFrom(q, n, e + 1) else e
  }

  function Log(q: nat, n: nat): nat
    requires q >= 2 && n >= 1
  {
    LogFrom(q, n, 0)
  }

  lemma {:induction false} PowGrows(q: nat, e: nat)
    requires q >= 2
    ensures Pow(q, e) > e
  {
    if e > 0 {
      PowGrows(q, e - 1);
      MulLe(2, q, Pow(q, e - 1));
    }
  }

  lemma {:induction false} PowClimbs(q: nat, e: nat, f: nat)
    requires q >= 2 && e <= f
    ensures Pow(q, e) <= Pow(q, f)
    decreases f
  {
    if e < f {
      PowClimbs(q, e, f - 1);
      MulLe(1, q, Pow(q, f - 1));
    }
  }

  lemma {:induction false} LogFromBounds(q: nat, n: nat, from: nat, e: nat)
    requires q >= 2 && Pow(q, from) <= n
    ensures Pow(q, LogFrom(q, n, from)) <= n
    ensures Pow(q, e) <= n ==> e <= LogFrom(q, n, from)
    decreases n - from
  {
    PowGrows(q, from);
    if Pow(q, from + 1) <= n {
      PowGrows(q, from + 1);
      LogFromBounds(q, n, from + 1, e);
    } else if e > from {
      PowClimbs(q, from + 1, e);
    }
  }

  lemma LogBounds(q: nat, n: nat, e: nat)
    requires q >= 2 && n >= 1
    ensures 1 <= Pow(q, Log(q, n)) <= n
    ensures Pow(q, e) <= n ==> e <= Log(q, n)
  {
    LogFromBounds(q, n, 0, e);
    PowPositive(q, Log(q, n));
  }

  lemma {:induction false} PowPositive(b: nat, e: nat)
    requires b >= 1
    ensures Pow(b, e) >= 1
  {
    if e > 0 { PowPositive(b, e - 1); }
  }

  lemma {:induction false} PowSum(b: nat, e: nat, f: nat)
    ensures Pow(b, e + f) == Pow(b, e) * Pow(b, f)
    decreases e
  {
    if e > 0 {
      PowSum(b, e - 1, f);
      assert Pow(b, e + f) == b * Pow(b, e - 1 + f);
    }
  }

  /** The product of the highest powers up to n of the primes up to j. */
  ghost function PrimePowers(n: nat, j: nat): nat
    requires n >= 1
  {
    if j < 2 then 1
    else if IsPrime(j) then Pow(j, Log(j, n)) * PrimePowers(n, j - 1)
    else PrimePowers(n, j - 1)
  }

  lemma {:induction false} PrimePowersBound(n: nat, j: nat)
    requires n >= 1 && j >= 1
    ensures 1 <= PrimePowers(n, j) <= Pow(n, j - 1)
    decreases j
  {
    if j >= 2 {
      PrimePowersBound(n, j - 1);
      LogBounds(j, n, 0);
      var power, rest, bound := Pow(j, Log(j, n)), PrimePowers(n, j - 1), Pow(n, j - 2);
      MulLe(power, n, rest);
      MulLe(rest, bound, n);
      MulLe(1, n, rest);
      MulLe(1, power, rest);
      assert Pow(n, j - 1) == n * bound;
    }
  }

  ghost predicate SmoothUpTo(k: nat, j: nat) {
    forall p | j < p :: !(IsPrime(p) && Divides(p, k))
  }

  lemma {:induction false} Strip(k: nat, q: nat) returns (e: nat, rest: nat)
    requires k >= 1 && q >= 2
    ensures k == Pow(q, e) * rest && 1 <= rest <= k && !Divides(q, rest) && Pow(q, e) <= k
    decreases k
  {
    if Divides(q, k) {
      var below: nat :| Times(below, q, k);
      assert below >= 1;
      MulLe(2, q, below);
      var f;
      f, rest := Strip(below, q);
      e := f + 1;
      assert k == q * (Pow(q, f) * rest) == (q * Pow(q, f)) * rest;
    } else {
      e, rest := 0, k;
    }
    PowPositive(q, e);
    MulLe(1, rest, Pow(q, e));
    MulLe(1, Pow(q, e), rest);
  }

  lemma SmoothIsOne(k: nat)
    requires k >= 1 && SmoothUpTo(k, 1)
    ensures k == 1
  {
    if k > 1 { var p := PrimeFactor(k); }
  }

  /** A number up to n without prime factors above j. */
  lemma {:induction false} SmoothDivides(n: nat, j: nat, k: nat)
    requires 1 <= k <= n && j >= 1 && SmoothUpTo(k, j)
    ensures Divides(k, PrimePowers(n, j))
    decreases j
  {
    hide Pow, Log, SmoothUpTo, Divides, IsPrime;
    if j == 1 {
      SmoothIsOne(k);
      OneDivides(PrimePowers(n, j));
    } else if IsPrime(j) {
      var e, rest := Strip(k, j);
      DividesMultiple(Pow(j, e), rest);
      StillSmooth(k, j, rest);
      SmoothDivides(n, j - 1, rest);
      LogBounds(j, n, e);
      PowSum(j, e, Log(j, n) - e);
      DividesMultiple(Pow(j, Log(j, n) - e), Pow(j, e));
      ProductDivides(Pow(j, e), rest, Pow(j, Log(j, n)), PrimePowers(n, j - 1));
    } else {
      NotAtAll(k, j);
      SmoothDivides(n, j - 1, k);
    }
  }

  lemma OneDivides(n: nat)
    ensures Divides(1, n)
  {
    assert Times(n, 1, n);
  }

  lemma NotAtAll(k: nat, j: nat)
    requires SmoothUpTo(k, j) && !IsPrime(j) && j >= 1
    ensures SmoothUpTo(k, j - 1)
  {
  }

  lemma StillSmooth(k: nat, j: nat, rest: nat)
    requires SmoothUpTo(k, j) && Divides(rest, k) && !Divides(j, rest) && j >= 1
    ensures SmoothUpTo(rest, j - 1)
  {
    forall p | j - 1 < p ensures !(IsPrime(p) && Divides(p, rest)) {
      if IsPrime(p) && Divides(p, rest) { DividesOn(p, rest, k); }
    }
  }

  lemma ProductDivides(a: nat, b: nat, m: nat, n: nat)
    requires Divides(a, m) && Divides(b, n)
    ensures Divides(a * b, m * n)
  {
    var s: nat :| Times(s, a, m);
    var t: nat :| Times(t, b, n);
    assert (s * a) * (t * b) == (s * t) * (a * b);
    assert Times(s * t, a * b, m * n);
  }

  // ----- A prime before the square -----

  lemma {:induction false} SquareBelowPower(n: nat)
    requires n >= 4
    ensures n * n <= Pow(2, n)
  {
    if n == 4 {
      assert Pow(2, 1) == 2 && Pow(2, 2) == 4 && Pow(2, 3) == 8 && Pow(2, 4) == 16;
    } else {
      SquareBelowPower(n - 1);
      assert Pow(2, n) == 2 * Pow(2, n - 1);
      assert n * n == (n - 1) * (n - 1) + 2 * (n - 1) + 1;
      assert (n - 1) * (n - 1) >= 4 * (n - 1);
    }
  }

  lemma {:induction false} PowMonotone(a: nat, b: nat, e: nat)
    requires a <= b
    ensures Pow(a, e) <= Pow(b, e)
  {
    if e > 0 {
      PowMonotone(a, b, e - 1);
      MulLe(a, b, Pow(a, e - 1));
      MulLe(Pow(a, e - 1), Pow(b, e - 1), b);
    }
  }

  lemma {:induction false} PowPow(b: nat, e: nat, f: nat)
    ensures Pow(Pow(b, e), f) == Pow(b, e * f)
    decreases f
  {
    if f > 0 {
      PowPow(b, e, f - 1);
      PowSum(b, e, e * (f - 1));
      assert e * f == e + e * (f - 1);
    } else {
      assert e * f == 0;
    }
  }

  lemma {:induction false} PowersOfTwoGrow(e: nat, f: nat)
    requires e < f
    ensures Pow(2, e) < Pow(2, f)
    decreases f
  {
    PowPositive(2, f - 1);
    if e < f - 1 { PowersOfTwoGrow(e, f - 1); }
  }

  lemma FourIsTwoTwice(m: nat)
    ensures Pow(4, m) == Pow(2, 2 * m)
  {
    assert Pow(2, 1) == 2 && Pow(2, 2) == 4;
    PowPow(2, 2, m);
  }

  /** If there were no primes between n and its square, the prime powers up to the square
      would be a common multiple of all the numbers up to it, and too small for that. */
  lemma PrimeBeforeSquare(n: nat) returns (q: nat)
    requires n >= 2
    ensures IsPrime(q) && n < q < n * n
  {
    if n == 2 {
      q := 3;
      forall d | 2 <= d < 3 ensures !Divides(d, 3) { DividesMeans(d, 3); }
    } else if n == 3 {
      q := 5;
      forall d | 2 <= d < 5 ensures !Divides(d, 5) { DividesMeans(d, 5); }
    } else if q' :| n < q' < n * n && IsPrime(q') {
      q := q';
    } else {
      q := 0;
      CommonMultiple(n);
      CommonMultipleIsLarge(n, PrimePowers(n * n, n));
      assert false;
    }
  }

  lemma CommonMultiple(n: nat)
    requires n >= 4 && forall q | n < q < n * n :: !IsPrime(q)
    ensures forall k | 1 <= k <= n * n :: Divides(k, PrimePowers(n * n, n))
    ensures 1 <= PrimePowers(n * n, n) <= Pow(n * n, n - 1)
  {
    var square := n * n;
    MulLe(1, n, n);
    forall k | 1 <= k <= square ensures Divides(k, PrimePowers(square, n)) {
      forall p | n < p ensures !(IsPrime(p) && Divides(p, k)) {
        if IsPrime(p) && Divides(p, k) {
          var t: nat :| Times(t, p, k);
          assert t >= 1;
          MulLe(1, t, p);
          DividesMultiple(n, n);
        }
      }
      SmoothDivides(square, n, k);
    }
    PrimePowersBound(square, n);
  }

  /** A common multiple of that many numbers is large. */
  lemma CommonMultipleIsLarge(n: nat, l: nat)
    requires n >= 4 && forall k | 1 <= k <= n * n :: Divides(k, l)
    requires l >= 1
    ensures l > Pow(n * n, n - 1)
  {
    var square := n * n;
    MulLe(4, n, n);
    var m := square / 2;
    var t := BinomialDivides(l, m, m);
    var x := Choose(2 * m, m);
    assert m + m == 2 * m;
    AtLeast(t, m * x, l);
    MiddleIsLarge(m);
    assert 2 * m * x == 2 * (m * x);
    FourIsTwoTwice(m);
    SquareBelowPower(n);
    PowMonotone(square, Pow(2, n), n - 1);
    PowPow(2, n, n - 1);
    assert n * (n - 1) == square - n;
    assert Pow(2, square - n + 1) == 2 * Pow(2, square - n);
    PowersOfTwoGrow(square - n + 1, 2 * m);
  }

  lemma AtLeast(t: int, x: nat, l: nat)
    requires t * x == l && l >= 1
    ensures l >= x
  {
    if t <= 0 { MulLe(t, 0, x); } else { MulLe(1, t, x); }
  }
}
