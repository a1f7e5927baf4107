/** The sign test of a paired benchmark, over exact reals. */
module SignTest {
  import opened Primitives
  import opened CoinFlips

  // ---- The binomial tail ----

  function Half(n: nat): real {
    if n == 0 then 1.0 else 0.5 * Half(n - 1)
  }

  lemma {:induction false} HalfIsInverse(n: nat)
    ensures Half(n) * Pow2(n) as real == 1.0 && Half(n) > 0.0
  {
    if n > 0 {
      HalfIsInverse(n - 1);
    }
  }

  /** C(n, k) / 2^n + ... + C(n, n) / 2^n. */
  function Tail(n: nat, k: nat): real
    decreases n + 1 - k
  {
    if k > n then 0.0 else Choose(n, k) as real * Half(n) + Tail(n, k + 1)
  }

  /** The tail of the binomial distribution is the chance of that many heads. */
  lemma TailIsChance(n: nat, k: nat)
    ensures Tail(n, k) == Chance(n, k)
  {
    hide Tail, AtLeast, Half, Flips;
    TailCounts(n, k);
    FlipsAreMany(n);
    HalfIsInverse(n);
    DivideByPower(|AtLeast(n, k)|, Half(n), |Flips(n)|);
  }

  lemma DivideByPower(a: nat, half: real, power: nat)
    requires half * power as real == 1.0 && power > 0
    ensures a as real * half == a as real / power as real
  {
    var x, p := a as real, power as real;
    Associate(x, half, p);
    Cancel(x * half, x / p, p);
  }

  lemma Associate(x: real, half: real, p: real)
    requires half * p == 1.0
    ensures x * half * p == x
  {
    assert x * (half * p) == x;
  }

  lemma {:induction false} TailCounts(n: nat, k: nat)
    ensures Tail(n, k) == |AtLeast(n, k)| as real * Half(n)
    decreases n + 1 - k
  {
    hide AtLeast, Half, Choose;
    AtLeastSplits(n, k);
    if k <= n {
      TailCounts(n, k + 1);
      Distribute(Choose(n, k), |AtLeast(n, k + 1)|, Half(n));
    }
  }

  lemma Distribute(a: nat, b: nat, h: real)
    ensures a as real * h + b as real * h == (a + b) as real * h
  {
  }

  lemma AtLeastSplits(n: nat, k: nat)
    ensures k > n ==> |AtLeast(n, k)| == 0
    ensures |AtLeast(n, k)| == Choose(n, k) + |AtLeast(n, k + 1)|
  {
    hide Flips, Choose;
    ExactlyCounts(n, k);
    assert AtLeast(n, k) == Exactly(n, k) + AtLeast(n, k + 1);
    assert Exactly(n, k) !! AtLeast(n, k + 1);
    if k > n {
      assert AtLeast(n, k) == {};
    }
  }

  // ---- The computation ----

  lemma Pascal(n: nat, k: nat)
    ensures k == 0 ==> Choose(n, k) == 1
    ensures n >= 1 && k >= 1 ==> Choose(n, k) == Choose(n - 1, k - 1) + Choose(n - 1, k)
  {
  }

  lemma NoneToChoose(k: nat)
    requires k >= 1
    ensures Choose(0, k) == 0 && (k > 1 ==> Choose(0, k - 1) == 0) && Choose(0, 0) == 1
  {
  }

  lemma Combine(n: int, k: int, x: int, y: int, d: int)
    requires k * d == (n - 1) * y && (k - 1) * (x + y) == (n - 1) * x
    ensures k * (x + y + d) == n * (x + y)
  {
    assert (n - 1) * x + (n - 1) * y == (n - 1) * (x + y);
    assert k * (x + y + d) == (k - 1) * (x + y) + (x + y) + k * d;
    assert n * (x + y) == (n - 1) * (x + y) + (x + y);
  }

  /** k C(n, k) == n C(n - 1, k - 1). */
  lemma {:induction false} Absorption(n: nat, k: nat)
    requires n >= 1 && k >= 1
    ensures k * Choose(n, k) == n * Choose(n - 1, k - 1)
  {
    hide Choose;
    Pascal(n, k);
    if n == 1 {
      Pascal(1, k);
      NoneToChoose(k);
    } else {
      Absorption(n - 1, k);
      if k == 1 {
        Pascal(n - 2, 0);
        Pascal(n - 1, 0);
      } else {
        Absorption(n - 1, k - 1);
        Pascal(n - 1, k - 1);
        Combine(n, k, Choose(n - 2, k - 2), Choose(n - 2, k - 1), Choose(n - 1, k));
      }
    }
  }

  /** One step of the product that builds a coefficient. */
  lemma NextCoefficient(a: nat, factor: nat)
    requires factor >= 1
    ensures Coefficient(a, factor - 1) * ((a + factor) as real / factor as real) == Coefficient(a, factor)
  {
    Absorption(a + factor, factor);
    Quotient(Choose(a + factor - 1, factor - 1), a + factor, factor, Choose(a + factor, factor));
  }

  /** The product (a + 1) / 1 * ... * (a + m) / m. */
  function Coefficient(a: nat, m: nat): real {
    Choose(a + m, m) as real
  }

  lemma Quotient(c: nat, top: nat, bottom: nat, d: nat)
    requires bottom >= 1 && bottom * d == top * c
    ensures c as real * (top as real / bottom as real) == d as real
  {
    var C, T, B, D := c as real, top as real, bottom as real, d as real;
    assert (bottom * d) as real == B * D && (top * c) as real == T * C;
    var q := T / B;
    assert q * B == T;
    Cancel(C * q, D, B);
  }

  lemma Cancel(x: real, y: real, b: real)
    requires b > 0.0 && x * b == y * b
    ensures x == y
  {
    assert (x - y) * b == 0.0;
  }

  lemma TailStep(n: nat, k: nat)
    ensures k > n ==> Tail(n, k) == 0.0
    ensures k <= n ==> Tail(n, k) == Coefficient(n - k, k) * Half(n) + Tail(n, k + 1) && Coefficient(n - k, 0) == 1.0
  {
  }

  /** oneSidedSignTestP. It returns the chance that a fair coin favours the winner at least as often. */
  method OneSidedSignTestP(wins: nat, losses: nat) returns (p: real)
    ensures wins <= losses ==> p == 1.0
    ensures wins > losses ==> p == Tail(wins + losses, wins) == Chance(wins + losses, wins)
  {
    hide Choose, Chance, Half, Tail, Coefficient;
    var n := wins + losses;
    if n == 0 || wins <= losses {
      return 1.0;
    }
    TailIsChance(n, wins);
    TailStep(n, n + 1);
    p := 0.0;
    var successes := wins;
    while successes <= n
      invariant wins <= successes <= n + 1
      invariant p + Tail(n, successes) == Tail(n, wins)
    {
      TailStep(n, successes);
      var coefficient := 1.0;
      var factor := 1;
      while factor <= successes
        invariant 1 <= factor <= successes + 1
        invariant coefficient == Coefficient(n - successes, factor - 1)
      {
        NextCoefficient(n - successes, factor);
        coefficient := coefficient * ((n - successes + factor) as real / factor as real);
        factor := factor + 1;
      }
      p := p + coefficient * Half(n);
      successes := successes + 1;
    }
  }

  /** The p-value as a function of the two counts. */
  function PValue(wins: nat, losses: nat): real {
    if wins <= losses then 1.0 else Chance(wins + losses, wins)
  }

  lemma PValueIs(wins: nat, losses: nat)
    ensures wins <= losses ==> PValue(wins, losses) == 1.0
    ensures wins > losses ==> PValue(wins, losses) == Chance(wins + losses, wins)
  {
  }

  /** The p-value is a probability, at most a half when wins lead, and for a fixed number of discordant pairs more wins
      never raise it: they lower it strictly once wins lead. */
  lemma PValueLaws(n: nat, fewer: nat, more: nat)
    requires fewer <= more <= n
    ensures 0.0 < PValue(more, n - more) <= PValue(fewer, n - fewer) <= 1.0
    ensures more > n - more ==> PValue(more, n - more) <= 0.5
    ensures fewer < more && more > n - more ==> PValue(more, n - more) < PValue(fewer, n - fewer)
  {
    hide Chance;
    ChanceBounds(n, more);
    ChanceBounds(n, fewer);
    if fewer < more {
      ChanceFalls(n, fewer, more);
    }
  }

  /** For a fixed number of wins, one more loss never lowers the p-value. */
  lemma LossesWeigh(wins: nat, losses: nat)
    ensures PValue(wins, losses) <= PValue(wins, losses + 1)
  {
    hide Chance;
    ChanceBounds(wins + losses, wins);
    ChanceGrows(wins + losses, wins);
  }

  /** No p-value reaches the level of one in twenty with fewer than five wins. */
  lemma EnoughWins(wins: nat, losses: nat)
    requires PValue(wins, losses) <= 0.05
    ensures wins > losses && wins >= 5
  {
    hide Chance;
    if wins < 5 {
      ChanceOfAll(wins + losses, wins);
      FewWins(wins);
    }
  }

  lemma FewWins(wins: nat)
    requires wins < 5
    ensures Chance(wins, wins) > 0.05
  {
    hide AtLeast, Flips;
    FlipsAreMany(wins);
    AtLeastSize(wins, wins);
    assert Pow2(0) == 1 && Pow2(1) == 2 && Pow2(2) == 4 && Pow2(3) == 8 && Pow2(4) == 16;
    OverSixteen(|AtLeast(wins, wins)|, |Flips(wins)|);
  }

  lemma OverSixteen(a: nat, b: nat)
    requires a >= 1 && 1 <= b <= 16
    ensures a as real / b as real > 0.05
  {
    Quotients(a as real, b as real);
  }

  lemma Quotients(x: real, y: real)
    requires x >= 1.0 && 0.0 < y <= 16.0
    ensures x / y >= 0.0625
  {
    var q := x / y;
    assert q * y == x;
    assert x >= 0.0625 * y;
    assert (q - 0.0625) * y >= 0.0;
  }
}
