/** Fair coins: the outcomes of n flips, counted, and the chance of at least so many heads. */
module CoinFlips {
  import opened Primitives

  /** Every outcome of n flips of a coin. */
  function Flips(n: nat): (all: set<seq<bool>>)
    ensures forall s :: s in all <==> |s| == n
  {
    if n == 0 then {[]}
    else
      var shorter := Flips(n - 1);
      var all := Prepended(true, shorter) + Prepended(false, shorter);
      assert forall s: seq<bool> :: |s| == n ==> s[1..] in shorter && s == [s[0]] + s[1..];
      assert forall s: seq<bool> :: |s| == n ==> s in Prepended(s[0], shorter);
      all
  }

  function Heads(s: seq<bool>): (k: nat)
    ensures k <= |s|
  {
    if s == [] then 0 else Heads(s[1..]) + if s[0] then 1 else 0
  }

  /** The outcomes with exactly, and with at least, that many heads. */
  function Exactly(n: nat, k: int): set<seq<bool>> {
    set s | s in Flips(n) && Heads(s) == k
  }

  function AtLeast(n: nat, k: int): set<seq<bool>> {
    set s | s in Flips(n) && Heads(s) >= k
  }

  /** The probability that a fair coin shows at least that many heads. */
  function Chance(n: nat, k: int): real
  {
    FlipsAreMany(n);
    |AtLeast(n, k)| as real / |Flips(n)| as real
  }

  /** Binomial coefficients, by Pascal's rule. */
  function Choose(n: nat, k: nat): nat {
    if k == 0 then 1
    else if n == 0 then 0
    else Choose(n - 1, k - 1) + Choose(n - 1, k)
  }

  function Prepended(b: bool, tails: set<seq<bool>>): set<seq<bool>> {
    set s | s in tails :: [b] + s
  }

  lemma {:induction false} PrependedSize(b: bool, tails: set<seq<bool>>)
    ensures |Prepended(b, tails)| == |tails|
    decreases tails
  {
    if tails != {} {
      var s :| s in tails;
      PrependedSize(b, tails - {s});
      var rest := Prepended(b, tails - {s});
      assert [b] + s !in rest by {
        forall t | t in tails - {s}
          ensures [b] + t != [b] + s
        {
          assert ([b] + t)[1..] == t && ([b] + s)[1..] == s;
        }
      }
      assert Prepended(b, tails) == rest + {[b] + s};
    }
  }

  lemma {:induction false} FlipsAreMany(n: nat)
    ensures |Flips(n)| == Pow2(n) >= 1
  {
    if n > 0 {
      FlipsAreMany(n - 1);
      SplitSize(n, Flips(n), Flips(n - 1), Flips(n - 1));
    }
  }

  /** A set of outcomes counts as its outcomes after a head plus its outcomes after a tail. */
  lemma SplitSize(n: nat, all: set<seq<bool>>, heads: set<seq<bool>>, tails: set<seq<bool>>)
    requires n > 0 && all <= Flips(n)
    requires forall s :: s in heads <==> [true] + s in all
    requires forall s :: s in tails <==> [false] + s in all
    ensures |all| == |heads| + |tails|
  {
    var first, second := Prepended(true, heads), Prepended(false, tails);
    PrependedSize(true, heads);
    PrependedSize(false, tails);
    assert first !! second by {
      assert forall s :: s in first ==> s[0];
      assert forall s :: s in second ==> !s[0];
    }
    forall s | s in all
      ensures s in first + second
    {
      assert s == [s[0]] + s[1..];
    }
    assert all == first + second;
  }

  lemma HeadsOf(b: bool, s: seq<bool>)
    ensures Heads([b] + s) == Heads(s) + if b then 1 else 0
  {
    assert ([b] + s)[1..] == s;
  }

  lemma NoFlips(k: nat)
    ensures |Exactly(0, k)| == Choose(0, k)
  {
    assert Exactly(0, k) == if k == 0 then {[]} else {};
  }

  lemma NegativeHeads(n: nat)
    ensures Exactly(n, -1) == {} && Choose(n, 0) == 1
  {
  }

  lemma ExactlySplits(n: nat, k: nat)
    requires n > 0
    ensures |Exactly(n, k)| == |Exactly(n - 1, k - 1)| + |Exactly(n - 1, k)|
  {
    hide Heads;
    forall s
      ensures s in Exactly(n - 1, k - 1) <==> [true] + s in Exactly(n, k)
      ensures s in Exactly(n - 1, k) <==> [false] + s in Exactly(n, k)
    {
      HeadsOf(true, s);
      HeadsOf(false, s);
    }
    SplitSize(n, Exactly(n, k), Exactly(n - 1, k - 1), Exactly(n - 1, k));
  }

  /** The number of outcomes with exactly k heads is a binomial coefficient. */
  lemma {:induction false} ExactlyCounts(n: nat, k: nat)
    ensures |Exactly(n, k)| == Choose(n, k)
  {
    hide Exactly;
    if n == 0 {
      NoFlips(k);
    } else {
      ExactlySplits(n, k);
      ExactlyCounts(n - 1, k);
      if k == 0 {
        NegativeHeads(n - 1);
      } else {
        ExactlyCounts(n - 1, k - 1);
      }
    }
  }

  function Mirror(s: seq<bool>): (m: seq<bool>)
    ensures |m| == |s|
  {
    if s == [] then [] else [!s[0]] + Mirror(s[1..])
  }

  lemma {:induction false} MirrorHeads(s: seq<bool>)
    ensures Heads(Mirror(s)) == |s| - Heads(s) && Mirror(Mirror(s)) == s
  {
    if s != [] {
      MirrorHeads(s[1..]);
      HeadsOf(!s[0], Mirror(s[1..]));
      assert ([!s[0]] + Mirror(s[1..]))[1..] == Mirror(s[1..]);
    }
  }

  function Mirrored(some: set<seq<bool>>): set<seq<bool>> {
    set s | s in some :: Mirror(s)
  }

  lemma MirroredOne(some: set<seq<bool>>, s: seq<bool>)
    requires s in some
    ensures Mirror(s) !in Mirrored(some - {s}) && Mirrored(some) == Mirrored(some - {s}) + {Mirror(s)}
  {
    hide Mirror;
    forall t | t in some
      ensures Mirror(Mirror(t)) == t
    {
      MirrorHeads(t);
    }
  }

  lemma {:induction false} MirroredSize(some: set<seq<bool>>)
    ensures |Mirrored(some)| == |some|
    decreases some
  {
    hide Mirrored;
    if some == {} {
      NoneMirrored();
    } else {
      var s :| s in some;
      MirroredOne(some, s);
      MirroredSize(some - {s});
    }
  }

  lemma NoneMirrored()
    ensures Mirrored({}) == {}
  {
  }

  lemma MirroredFew(n: nat, k: nat, some: set<seq<bool>>, other: set<seq<bool>>)
    requires 2 * k > n && some == AtLeast(n, k) && other == Mirrored(some)
    ensures some !! other && some + other <= Flips(n)
  {
    forall s | s in some
      ensures Mirror(s) in Flips(n) && Heads(Mirror(s)) < k
    {
      MirrorHeads(s);
    }
  }

  /** An outcome with that many heads, for every possible number of them. */
  lemma AtLeastSize(n: nat, k: nat)
    requires k <= n
    ensures 0 < |AtLeast(n, k)| <= |Flips(n)| && AtLeast(n, k + 1) < AtLeast(n, k)
    ensures 2 * k > n ==> 2 * |AtLeast(n, k)| <= |Flips(n)|
  {
    hide Flips, Heads, Mirrored;
    var some := AtLeast(n, k);
    var s := SomeHeads(n, k);
    assert s in some && s !in AtLeast(n, k + 1);
    SubsetSize(some, Flips(n));
    if 2 * k > n {
      var other := Mirrored(some);
      MirroredSize(some);
      MirroredFew(n, k, some, other);
      SubsetSize(some + other, Flips(n));
    }
  }

  /** More than half heads has probability at most a half, and every count up to n has some. */
  lemma ChanceBounds(n: nat, k: nat)
    requires k <= n
    ensures 0.0 < Chance(n, k) <= 1.0
    ensures 2 * k > n ==> Chance(n, k) <= 0.5
  {
    hide Flips, AtLeast;
    FlipsAreMany(n);
    AtLeastSize(n, k);
    Ratio(|AtLeast(n, k)|, |Flips(n)|);
  }

  lemma Ratio(a: nat, b: nat)
    requires b > 0
    ensures a > 0 ==> a as real / b as real > 0.0
    ensures a <= b ==> a as real / b as real <= 1.0
    ensures 2 * a <= b ==> a as real / b as real <= 0.5
  {
    Bounded(a as real, b as real);
  }

  lemma Bounded(x: real, y: real)
    requires x >= 0.0 && y > 0.0
    ensures x > 0.0 ==> x / y > 0.0
    ensures x <= y ==> x / y <= 1.0
    ensures 2.0 * x <= y ==> x / y <= 0.5
  {
    assert x / y * y == x;
  }

  lemma SubsetSize<T>(a: set<T>, b: set<T>)
    requires a <= b
    ensures |a| <= |b|
    ensures a != b ==> |a| < |b|
  {
    assert b == a + (b - a);
    if a != b {
      assert b - a != {};
    }
  }

  /** More heads are strictly less likely. */
  lemma ChanceFalls(n: nat, j: nat, k: nat)
    requires j < k && j <= n
    ensures Chance(n, k) < Chance(n, j)
  {
    hide Flips, Heads;
    FlipsAreMany(n);
    AtLeastSize(n, j);
    assert AtLeast(n, k) <= AtLeast(n, j + 1);
    SubsetSize(AtLeast(n, k), AtLeast(n, j));
    LessOver(|AtLeast(n, k)|, |AtLeast(n, j)|, |Flips(n)|);
  }

  lemma LessOver(a: nat, b: nat, c: nat)
    requires a < b && c > 0
    ensures a as real / c as real < b as real / c as real
  {
  }

  /** One more flip never makes that many heads less likely. */
  lemma ChanceGrows(n: nat, k: nat)
    ensures Chance(n, k) <= Chance(n + 1, k)
  {
    hide Flips, AtLeast, Pow2;
    FlipsAreMany(n);
    FlipsAreMany(n + 1);
    AtLeastDoubles(n, k);
    assert |Flips(n + 1)| == 2 * |Flips(n)| by { PowerNext(n); }
    Doubled(|AtLeast(n, k)| as real, |AtLeast(n + 1, k)| as real, |Flips(n)| as real);
  }

  lemma PowerNext(n: nat)
    ensures Pow2(n + 1) == 2 * Pow2(n)
  {
  }

  lemma Doubled(a: real, b: real, c: real)
    requires c > 0.0 && b >= 2.0 * a
    ensures a / c <= b / (2.0 * c)
  {
    var x, y := a / c, b / (2.0 * c);
    assert x * c == a;
    assert y * (2.0 * c) == b;
    assert (y - x) * c >= 0.0;
  }

  lemma AtLeastDoubles(n: nat, k: nat)
    ensures |AtLeast(n + 1, k)| >= 2 * |AtLeast(n, k)|
  {
    hide Heads;
    forall s
      ensures s in AtLeast(n, k - 1) <==> [true] + s in AtLeast(n + 1, k)
      ensures s in AtLeast(n, k) <==> [false] + s in AtLeast(n + 1, k)
    {
      HeadsOf(true, s);
      HeadsOf(false, s);
    }
    SplitSize(n + 1, AtLeast(n + 1, k), AtLeast(n, k - 1), AtLeast(n, k));
    SubsetSize(AtLeast(n, k), AtLeast(n, k - 1));
  }

  lemma {:induction false} ChanceOfAll(n: nat, k: nat)
    requires k <= n
    ensures Chance(k, k) <= Chance(n, k)
  {
    hide Chance;
    if k < n {
      ChanceOfAll(n - 1, k);
      ChanceGrows(n - 1, k);
    }
  }

  function SomeHeads(n: nat, k: nat): (s: seq<bool>)
    requires k <= n
    ensures |s| == n && Heads(s) == k
  {
    if n == 0 then []
    else if k == 0 then
      HeadsOf(false, SomeHeads(n - 1, 0));
      [false] + SomeHeads(n - 1, 0)
    else
      HeadsOf(true, SomeHeads(n - 1, k - 1));
      [true] + SomeHeads(n - 1, k - 1)
  }
}
