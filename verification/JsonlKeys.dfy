/** Projection keys: how the projections of one line are told apart, and when that fails. */
module JsonlKeys {
  import opened Primitives

  predicate IsDigit(c: char) {
    '0' <= c <= '9'
  }

  function Digit(d: nat): char
    requires d < 10
  {
    '0' + d as char
  }

  /** strconv.Itoa of a count. */
  function Decimal(n: nat): (s: string)
    ensures s != "" && forall i :: 0 <= i < |s| ==> IsDigit(s[i])
  {
    if n < 10 then [Digit(n)] else Decimal(n / 10) + [Digit(n % 10)]
  }

  lemma {:induction false} DecimalInjective(a: nat, b: nat)
    requires Decimal(a) == Decimal(b)
    ensures a == b
  {
    var x, y := Decimal(a), Decimal(b);
    assert x[|x| - 1] == y[|y| - 1];
    if a >= 10 && b >= 10 {
      assert Decimal(a / 10) == x[..|x| - 1] == y[..|y| - 1] == Decimal(b / 10);
      DecimalInjective(a / 10, b / 10);
    }
  }

  const DUPLICATE := "-duplicate-"

  function Suffixed(base: string, n: nat): string {
    base + DUPLICATE + Decimal(n)
  }

  /** The number after the last dash and what precedes it can be read back. */
  lemma SuffixedUnique(a: string, n: nat, b: string, m: nat)
    requires Suffixed(a, n) == Suffixed(b, m)
    ensures a == b && n == m
  {
    var s, x, y := Suffixed(a, n), Decimal(n), Decimal(m);
    assert s[|s| - |x| - 1] == '-' && s[|s| - |y| - 1] == '-';
    assert forall i :: |s| - |x| <= i < |s| ==> IsDigit(s[i]) by {
      assert forall i :: |s| - |x| <= i < |s| ==> s[i] == x[i - (|s| - |x|)];
    }
    assert forall i :: |s| - |y| <= i < |s| ==> IsDigit(s[i]) by {
      assert forall i :: |s| - |y| <= i < |s| ==> s[i] == y[i - (|s| - |y|)];
    }
    assert |x| == |y|;
    assert x == s[|s| - |x|..] == y;
    DecimalInjective(n, m);
    assert a == s[..|a|] && b == s[..|b|];
  }

  /** How often the key at `i` occurs before `i`. */
  function Earlier(keys: seq<string>, key: string, i: nat): nat
    requires i <= |keys|
  {
    if i == 0 then 0 else Earlier(keys, key, i - 1) + if keys[i - 1] == key then 1 else 0
  }

  function KeyAt(keys: seq<string>, i: nat): string
    requires i < |keys|
  {
    var n := Earlier(keys, keys[i], i);
    if n == 0 then keys[i] else Suffixed(keys[i], n)
  }

  /** The keys as supplied, with a positional one for each blank. */
  function Effective(supplied: seq<string>): (keys: seq<string>)
    ensures |keys| == |supplied|
  {
    seq(|supplied|, i requires 0 <= i < |supplied| =>
      if supplied[i] == "" then "projection-" + Decimal(i) else supplied[i])
  }

  lemma KeyStep(keys: seq<string>, i: nat)
    requires i < |keys|
    ensures KeyAt(keys, i) ==
            if Earlier(keys, keys[i], i) == 0 then keys[i] else Suffixed(keys[i], Earlier(keys, keys[i], i))
    ensures forall key :: Earlier(keys, key, i + 1) == Earlier(keys, key, i) + if keys[i] == key then 1 else 0
  {
    hide Suffixed;
  }

  lemma EffectiveAt(supplied: seq<string>, i: nat)
    requires i < |supplied|
    ensures Effective(supplied)[i] == if supplied[i] == "" then "projection-" + Decimal(i) else supplied[i]
  {
    hide Decimal;
  }

  lemma NothingEarlier(keys: seq<string>)
    ensures forall key :: Earlier(keys, key, 0) == 0
  {
  }

  /** uniqueProjectionKeys. */
  method UniqueProjectionKeys(supplied: seq<string>) returns (keys: seq<string>)
    ensures |keys| == |supplied|
    ensures if supplied == [""] then keys == [""]
            else forall i :: 0 <= i < |keys| ==> keys[i] == KeyAt(Effective(supplied), i)
  {
    hide Suffixed, Decimal, KeyAt, Earlier, Effective;
    keys := [];
    var used: map<string, nat> := map[];
    ghost var effective := Effective(supplied);
    NothingEarlier(effective);
    var i := 0;
    while i < |supplied|
      invariant 0 <= i <= |supplied| && |keys| == i
      invariant supplied != [""] ==>
                  (forall j :: 0 <= j < i ==> keys[j] == KeyAt(effective, j)) &&
                  forall key :: (if key in used then used[key] else 0) == Earlier(effective, key, i)
      invariant supplied == [""] && i == 1 ==> keys == [""]
    {
      var key := supplied[i];
      if |supplied| == 1 && key == "" {
        keys := keys + [""];
      } else {
        if key == "" {
          key := "projection-" + Decimal(i);
        }
        EffectiveAt(supplied, i);
        KeyStep(effective, i);
        var count := if key in used then used[key] else 0;
        used := used[key := count + 1];
        if count > 0 {
          key := Suffixed(key, count);
        }
        keys := keys + [key];
      }
      i := i + 1;
    }
  }

  /** A supplied key that reads like the suffixed form of another, repeated key. */
  ghost predicate Clashes(keys: seq<string>, i: nat, j: nat)
    requires i < |keys| && j < |keys|
  {
    Earlier(keys, keys[i], i) == 0 && Earlier(keys, keys[j], j) > 0 &&
    keys[i] == Suffixed(keys[j], Earlier(keys, keys[j], j))
  }

  lemma {:induction false} EarlierGrows(keys: seq<string>, key: string, i: nat, j: nat)
    requires i <= j <= |keys|
    ensures Earlier(keys, key, i) <= Earlier(keys, key, j)
    ensures i < j && keys[i] == key ==> Earlier(keys, key, i) < Earlier(keys, key, j)
  {
    if i < j {
      EarlierGrows(keys, key, i, j - 1);
    }
  }

  /** The keys of a line are distinct exactly when no first key is the suffixed form of a repeated one. */
  lemma KeysDistinctExactly(keys: seq<string>)
    ensures (forall i: nat, j: nat :: i < j < |keys| ==> KeyAt(keys, i) != KeyAt(keys, j)) <==>
            (forall i: nat, j: nat :: i < |keys| && j < |keys| ==> !Clashes(keys, i, j))
  {
    if forall i: nat, j: nat :: i < |keys| && j < |keys| ==> !Clashes(keys, i, j) {
      forall i: nat, j: nat | i < j < |keys|
        ensures KeyAt(keys, i) != KeyAt(keys, j)
      {
        KeyCollision(keys, i, j);
      }
    }
    if forall i: nat, j: nat :: i < j < |keys| ==> KeyAt(keys, i) != KeyAt(keys, j) {
      forall i: nat, j: nat | i < |keys| && j < |keys|
        ensures !Clashes(keys, i, j)
      {
        assert i < j ==> KeyAt(keys, i) != KeyAt(keys, j);
        assert j < i ==> KeyAt(keys, j) != KeyAt(keys, i);
      }
    }
  }

  lemma KeyCollision(keys: seq<string>, i: nat, j: nat)
    requires i < j < |keys| && !Clashes(keys, i, j) && !Clashes(keys, j, i)
    ensures KeyAt(keys, i) != KeyAt(keys, j)
  {
    EarlierGrows(keys, keys[i], i, j);
    var m, n := Earlier(keys, keys[i], i), Earlier(keys, keys[j], j);
    if m > 0 && n > 0 && Suffixed(keys[i], m) == Suffixed(keys[j], n) {
      SuffixedUnique(keys[i], m, keys[j], n);
    }
  }

  predicate OccursAt(s: string, part: string, k: nat) {
    k + |part| <= |s| && s[k..k + |part|] == part
  }

  ghost predicate Contains(s: string, part: string) {
    exists k: nat :: OccursAt(s, part, k)
  }

  /** Three supplied keys, two of which end up the same: the third reads like the suffixed form of the repeated first. */
  const CLASHING := ["a", "a", "a-duplicate-1"]

  lemma ClashingKeys()
    ensures KeyAt(Effective(CLASHING), 1) == KeyAt(Effective(CLASHING), 2) == "a-duplicate-1"
  {
    var keys := Effective(CLASHING);
    assert keys == CLASHING;
    assert Earlier(keys, "a", 0) == 0 && Earlier(keys, "a", 1) == 1;
    assert Earlier(keys, "a-duplicate-1", 2) == 0;
    assert Decimal(1) == "1";
    assert Suffixed("a", 1) == "a-duplicate-1";
  }

  /** When no supplied key contains the marker, no projection of the line is lost. */
  lemma PlainKeysDistinct(supplied: seq<string>)
    requires forall key :: key in supplied ==> !Contains(key, DUPLICATE)
    ensures forall i: nat, j: nat :: i < j < |supplied| ==>
              KeyAt(Effective(supplied), i) != KeyAt(Effective(supplied), j)
  {
    var keys := Effective(supplied);
    forall i: nat, j: nat | i < |keys| && j < |keys|
      ensures !Clashes(keys, i, j)
    {
      var n := Earlier(keys, keys[j], j);
      var s := Suffixed(keys[j], n);
      assert OccursAt(s, DUPLICATE, |keys[j]|);
      if supplied[i] == "" {
        PositionalPlain(i);
      } else {
        assert supplied[i] in supplied;
      }
      assert Contains(s, DUPLICATE) && !Contains(keys[i], DUPLICATE);
    }
    KeysDistinctExactly(keys);
  }

  lemma PositionalPlain(i: nat)
    ensures !Contains("projection-" + Decimal(i), DUPLICATE)
  {
    var s := "projection-" + Decimal(i);
    forall k: nat | k + |DUPLICATE| <= |s|
      ensures !OccursAt(s, DUPLICATE, k)
    {
      var t := s[k..k + |DUPLICATE|];
      assert t[0] == s[k] && t[1] == s[k + 1] && DUPLICATE[0] == '-' && DUPLICATE[1] == 'd';
      assert k >= 10 ==> s[k + 1] == Decimal(i)[k - 10];
    }
  }
}
