/** The hash of a class file: each number in turn, times the next prime. */
module HashGenerator {
  import opened Primes

  const MAX_PRIME_NUMBERS := 10000
  const HASH_LIMIT := 0x1_0000_0000

  ghost function PrimesBelow(p: nat): set<nat> {
    set q | 2 <= q < p && IsPrime(q)
  }

  /** The n-th prime, counting from 0: a prime with n primes below it. */
  ghost predicate IsNthPrime(p: nat, n: nat) {
    IsPrime(p) && |PrimesBelow(p)| == n
  }

  lemma NthPrimeIsUnique(p: nat, q: nat, n: nat)
    requires IsNthPrime(p, n) && IsNthPrime(q, n)
    ensures p == q
  {
    if p < q { FewerBelow(p, q); } else if q < p { FewerBelow(q, p); }
  }

  lemma FewerBelow(p: nat, q: nat)
    requires IsPrime(p) && p < q
    ensures |PrimesBelow(p)| < |PrimesBelow(q)|
  {
    Subset(PrimesBelow(p), PrimesBelow(q), p);
  }

  lemma {:induction false} Subset(a: set<nat>, b: set<nat>, x: nat)
    requires a <= b && x in b && x !in a
    ensures |a| < |b|
    decreases |a|
  {
    if a != {} {
      var y :| y in a;
      Subset(a - {y}, b - {y}, x);
    }
  }

  /** All the primes up to the last one, in order. */
  ghost predicate IsTable(primes: seq<nat>) {
    && primes != [] && Increasing(primes)
    && forall q: nat :: q in primes <==> IsPrime(q) && q <= primes[|primes|-1]
  }

  predicate Increasing(s: seq<nat>) {
    forall i, j | 0 <= i < j < |s| :: s[i] < s[j]
  }

  function Members(s: seq<nat>): set<nat> {
    if s == [] then {} else Members(s[..|s|-1]) + {s[|s|-1]}
  }

  lemma {:induction false} MembersAre(s: seq<nat>)
    ensures forall x :: x in Members(s) <==> x in s
    decreases |s|
  {
    if s != [] {
      MembersAre(s[..|s|-1]);
      assert s == s[..|s|-1] + [s[|s|-1]];
    }
  }

  /** An increasing list of numbers has as many different ones. */
  lemma {:induction false} CountOf(s: seq<nat>)
    requires Increasing(s)
    ensures |Members(s)| == |s|
    decreases |s|
  {
    if s != [] {
      var front, last := s[..|s|-1], s[|s|-1];
      assert forall k | 0 <= k < |front| :: front[k] == s[k] < last;
      assert last !in front;
      MembersAre(front);
      CountOf(front);
    }
  }

  /** The n-th entry is the n-th prime. */
  lemma TableHoldsNthPrime(primes: seq<nat>, n: nat)
    requires IsTable(primes) && n < |primes|
    ensures IsNthPrime(primes[n], n)
  {
    var p := primes[n];
    assert p in primes;
    var front := primes[..n];
    forall q: nat ensures q in front <==> q in PrimesBelow(p) {
      if q in front { var k :| 0 <= k < n && primes[k] == q; assert primes[k] in primes; }
      if q in PrimesBelow(p) {
        assert p <= primes[|primes|-1] && q in primes;
        var k :| 0 <= k < |primes| && primes[k] == q;
        assert k < n;
        assert front[k] == q;
      }
    }
    CountOf(front);
    MembersAre(front);
    assert Members(front) == PrimesBelow(p);
  }

  /** A candidate that none of the primes up to its square root divides. */
  lemma NoSmallFactor(primes: seq<nat>, candidate: nat, j: nat)
    requires IsTable(primes) && candidate > primes[|primes|-1] && j < |primes|
    requires forall q | primes[|primes|-1] < q < candidate :: !IsPrime(q)
    requires primes[j] * primes[j] > candidate
    requires forall i | 0 <= i < j :: !Divides(primes[i], candidate)
    ensures IsPrime(candidate)
  {
    assert primes[0] in primes;
    if !IsPrime(candidate) {
      var p := PrimeFactor(candidate);
      assert p < candidate;
      assert p in primes;
      var i :| 0 <= i < |primes| && primes[i] == p;
      if i >= j {
        MulLe(primes[j], p, p);
        MulLe(primes[j], p, primes[j]);
      }
    }
  }

  lemma TableGrows(primes: seq<nat>, candidate: nat)
    requires IsTable(primes) && candidate > primes[|primes|-1] && IsPrime(candidate)
    requires forall q | primes[|primes|-1] < q < candidate :: !IsPrime(q)
    ensures IsTable(primes + [candidate])
  {
    var more := primes + [candidate];
    forall q: nat ensures q in more <==> IsPrime(q) && q <= candidate {
    }
  }

  class PrimeNumberGenerator {
    var primes: seq<nat>

    constructor ()
      ensures IsTable(primes)
    {
      primes := [2];
      new;
      forall q: nat ensures q in primes <==> IsPrime(q) && q <= 2 { }
    }

    /** operator[]. The trial division never runs off the table, because there is a prime
        before the square of its last entry. */
    method At(n: nat) returns (p: nat)
      requires IsTable(primes)
      modifies this
      ensures IsTable(primes) && old(primes) <= primes
      ensures IsNthPrime(p, n)
    {
      var candidate := primes[|primes|-1] + 1;
      ghost var next := NextPrime(primes);
      while |primes| <= n
        invariant IsTable(primes) && old(primes) <= primes
        invariant |primes| <= n ==> primes[|primes|-1] < candidate <= next < primes[|primes|-1] * primes[|primes|-1] && IsPrime(next)
        invariant forall q | primes[|primes|-1] < q < candidate :: !IsPrime(q)
        decreases n + 1 - |primes|, if next >= candidate then next - candidate else 0
      {
        var isPrime := TryCandidate(candidate, next);
        if isPrime {
          TableGrows(primes, candidate);
          primes := primes + [candidate];
          next := NextPrime(primes);
        }
        candidate := candidate + 1;
      }
      p := primes[n];
      TableHoldsNthPrime(primes, n);
    }

    lemma NextPrime(primes: seq<nat>) returns (next: nat)
      requires IsTable(primes)
      ensures IsPrime(next) && primes[|primes|-1] < next < primes[|primes|-1] * primes[|primes|-1]
    {
      assert primes[|primes|-1] in primes;
      next := PrimeBeforeSquare(primes[|primes|-1]);
    }

    /** The inner loop: division by the primes found so far, up to the square root. */
    method TryCandidate(candidate: nat, ghost next: nat) returns (maybePrime: bool)
      requires IsTable(primes)
      requires primes[|primes|-1] < candidate <= next < primes[|primes|-1] * primes[|primes|-1]
      requires forall q | primes[|primes|-1] < q < candidate :: !IsPrime(q)
      ensures maybePrime <==> IsPrime(candidate)
    {
      hide IsPrime;
      maybePrime := true;
      var j := 0;
      while maybePrime && primes[j] * primes[j] <= candidate
        invariant j <= |primes|
        invariant maybePrime ==> j < |primes| && forall i | 0 <= i < j :: !Divides(primes[i], candidate)
        invariant !maybePrime ==> !IsPrime(candidate)
        decreases |primes| - j
      {
        assert primes[j] in primes;
        AtLeastTwo(primes[j]);
        DividesMeans(primes[j], candidate);
        if primes[j] * (candidate / primes[j]) == candidate {
          HasFactor(primes[j], candidate);
          maybePrime := false;
        }
        j := j + 1;
      }
      if maybePrime {
        NoSmallFactor(primes, candidate, j);
      }
    }
  }

  lemma AtLeastTwo(p: nat)
    requires IsPrime(p)
    ensures p >= 2
  {
  }

  lemma HasFactor(d: nat, n: nat)
    requires 2 <= d < n && Divides(d, n)
    ensures !IsPrime(n)
  {
  }

  // ----- The hash -----

  ghost function NthPrime(n: nat): (p: nat)
    ensures IsNthPrime(p, n)
  {
    var primes := SomeTable(n + 1);
    TableHoldsNthPrime(primes, n);
    primes[n]
  }

  ghost function SomeTable(n: nat): (primes: seq<nat>)
    ensures IsTable(primes) && |primes| >= n
  {
    TableExists(n);
    var primes :| IsTable(primes) && |primes| >= n;
    primes
  }

  lemma {:induction false} TableExists(n: nat)
    ensures exists primes :: IsTable(primes) && |primes| >= n
  {
    if n <= 1 {
      assert IsTable([2]) by { forall q: nat ensures q in [2] <==> IsPrime(q) && q <= 2 { } }
    } else {
      TableExists(n - 1);
      var primes :| IsTable(primes) && |primes| >= n - 1;
      assert primes[|primes|-1] in primes;
      var bound := PrimeBeforeSquare(primes[|primes|-1]);
      var next := Least(primes[|primes|-1], bound);
      TableGrows(primes, next);
      assert |primes + [next]| >= n;
    }
  }

  lemma {:induction false} Least(low: nat, bound: nat) returns (next: nat)
    requires low < bound && IsPrime(bound)
    ensures IsPrime(next) && low < next <= bound && forall q | low < q < next :: !IsPrime(q)
    decreases bound
  {
    if q :| low < q < bound && IsPrime(q) {
      next := Least(low, q);
    } else {
      next := bound;
    }
  }

  /** The sum of the numbers times the primes, which start again after so many. */
  ghost function WeightedSum(nums: seq<int>): int {
    if nums == [] then 0
    else WeightedSum(nums[..|nums|-1]) + NthPrime((|nums| - 1) % MAX_PRIME_NUMBERS) * nums[|nums|-1]
  }

  /** A character is a signed byte. */
  type Character = c: int | -128 <= c < 128

  function StringNumbers(str: seq<Character>): seq<int> {
    [|str|] + seq(|str|, i requires 0 <= i < |str| => str[i] as int)
  }

  class HashGenerator {
    const primes: PrimeNumberGenerator
    var hash: nat
    var index: nat
    ghost var added: seq<int>

    constructor (primes: PrimeNumberGenerator)
      requires IsTable(primes.primes)
      ensures Valid() && added == [] && this.primes == primes
    {
      this.primes := primes;
      hash, index, added := 0, 0, [];
    }

    /** The 32-bit sum of all that was added. */
    ghost predicate Valid()
      reads this, primes
    {
      && IsTable(primes.primes)
      && index == |added| % MAX_PRIME_NUMBERS
      && hash < HASH_LIMIT && hash == WeightedSum(added) % HASH_LIMIT
    }

    method AddInt(num: int)
      requires Valid()
      modifies this, primes
      ensures Valid() && added == old(added) + [num]
    {
      hide IsTable, WeightedSum, IsNthPrime;
      var p := primes.At(index);
      NthPrimeIsUnique(p, NthPrime(index), index);
      Reduced(WeightedSum(added), p * num);
      SumGrows(added, num);
      NextIndex(|added|);
      hash := (hash + p * num % HASH_LIMIT) % HASH_LIMIT;
      added := added + [num];
      index := (index + 1) % MAX_PRIME_NUMBERS;
    }

    method AddString(str: seq<Character>)
      requires Valid()
      modifies this, primes
      ensures Valid() && added == old(added) + StringNumbers(str)
    {
      AddInt(|str|);
      for i := 0 to |str|
        invariant Valid() && added == old(added) + StringNumbers(str)[..i + 1]
      {
        AddInt(str[i]);
        assert StringNumbers(str)[..i + 2] == StringNumbers(str)[..i + 1] + [StringNumbers(str)[i + 1]];
      }
      assert StringNumbers(str)[..|str| + 1] == StringNumbers(str);
    }

    method GetHash() returns (h: nat)
      requires Valid()
      ensures h == WeightedSum(added) % HASH_LIMIT
    {
      h := hash;
    }
  }

  lemma SumGrows(nums: seq<int>, num: int)
    ensures WeightedSum(nums + [num]) == WeightedSum(nums) + NthPrime(|nums| % MAX_PRIME_NUMBERS) * num
  {
    hide IsNthPrime;
    var all := nums + [num];
    assert all[..|all|-1] == nums && all[|all|-1] == num && |all| - 1 == |nums|;
  }

  lemma Reduced(a: int, b: int)
    ensures (a % HASH_LIMIT + b % HASH_LIMIT) % HASH_LIMIT == (a + b) % HASH_LIMIT
  {
  }

  lemma NextIndex(n: nat)
    ensures (n % MAX_PRIME_NUMBERS + 1) % MAX_PRIME_NUMBERS == (n + 1) % MAX_PRIME_NUMBERS
  {
  }
}
