/** The shards of a build: what a shard holds, and in which order the shards come. */
module CandidateShards {
  import opened Primitives
  import opened Ordering
  import opened Sorting
  import opened CandidateTypes
  import opened CandidateMerge
  import opened CandidateAggregate
  import opened CandidateDerive

  // ---- Shards ----

  /** bits.Len(n) - 1. */
  function ShardBits(n: nat): nat {
    if n <= 1 then 0 else 1 + ShardBits(n / 2)
  }

  function ShiftRight(x: nat, k: nat): nat {
    if k == 0 then x else ShiftRight(x / 2, k - 1)
  }

  /** A power of two between 1 and 256. */
  ghost predicate ValidShardCount(n: int) {
    exists b: nat :: b <= 8 && n == Pow2(b)
  }

  function HexValue(c: char): nat
    requires IsHexDigit(c)
  {
    if '0' <= c <= '9' then (c - '0') as nat
    else if 'a' <= c <= 'f' then (c - 'a') as nat + 10
    else (c - 'A') as nat + 10
  }

  function FirstByte(h: string): (byte: nat)
    requires ValidSha(h)
    ensures byte < 256
  {
    16 * HexValue(h[0]) + HexValue(h[1])
  }

  /** shardForHex: the leading bits of a digest. */
  function ShardForHex(value: string, count: nat): Option<nat> {
    if !ValidSha(value) then None
    else if count == 1 then Some(0)
    else if ShardBits(count) > 8 then None
    else Some(ShiftRight(FirstByte(value), 8 - ShardBits(count)))
  }

  function CandidateShard(id: string, count: nat): Option<nat> {
    ShardForHex(if CANDIDATE_PREFIX <= id then id[|CANDIDATE_PREFIX|..] else id, count)
  }

  lemma {:induction false} BitsOfPower(b: nat)
    ensures ShardBits(Pow2(b)) == b
  {
    if b > 0 {
      BitsOfPower(b - 1);
    }
  }

  lemma {:induction false} ShiftRange(x: nat, k: nat, b: nat)
    requires x < Pow2(k + b)
    ensures ShiftRight(x, k) < Pow2(b)
  {
    if k > 0 {
      ShiftRange(x / 2, k - 1, b);
    }
  }

  lemma {:induction false} ShiftMonotone(x: nat, y: nat, k: nat)
    requires x <= y
    ensures ShiftRight(x, k) <= ShiftRight(y, k)
  {
    if k > 0 {
      ShiftMonotone(x / 2, y / 2, k - 1);
    }
  }

  /** For a valid count, every digest has a shard below the count. */
  lemma ShardInRange(value: string, count: nat)
    requires ValidShardCount(count) && ValidSha(value)
    ensures ShardForHex(value, count).Some? && ShardForHex(value, count).value < count
  {
    var b: nat :| b <= 8 && count == Pow2(b);
    BitsOfPower(b);
    assert Pow2(8) == 256;
    ShiftRange(FirstByte(value), 8 - b, b);
  }

  lemma {:induction false} ShiftBounds(x: nat, k: nat)
    ensures ShiftRight(x, k) * Pow2(k) <= x < ShiftRight(x, k) * Pow2(k) + Pow2(k)
  {
    if k > 0 {
      ShiftBounds(x / 2, k - 1);
      Doubled(ShiftRight(x, k), Pow2(k - 1));
    }
  }

  lemma Doubled(y: nat, d: nat)
    ensures y * (2 * d) == 2 * (y * d)
  {
  }

  lemma PowersTo8()
    ensures Pow2(0) == 1 && Pow2(1) == 2 && Pow2(2) == 4 && Pow2(3) == 8 && Pow2(4) == 16
    ensures Pow2(5) == 32 && Pow2(6) == 64 && Pow2(7) == 128 && Pow2(8) == 256
  {
  }

  /** The shards cut the range of the first byte into `count` equal parts. */
  lemma ShardExactly(value: string, count: nat, k: nat)
    requires ValidShardCount(count) && ValidSha(value)
    ensures ShardForHex(value, count) == Some(k) <==> k * 256 <= FirstByte(value) * count < (k + 1) * 256
  {
    hide FirstByte, ValidSha, Pow2;
    var b: nat :| b <= 8 && count == Pow2(b);
    BitsOfPower(b);
    PowersTo8();
    var x := FirstByte(value);
    ShiftBounds(x, 8 - b);
    hide ShiftRight, ShardBits;
    PartIs(x, b, ShiftRight(x, 8 - b), k);
  }

  lemma PartIs(x: nat, b: nat, y: nat, k: nat)
    requires b <= 8 && y * Pow2(8 - b) <= x < y * Pow2(8 - b) + Pow2(8 - b)
    ensures y == k <==> k * 256 <= x * Pow2(b) < (k + 1) * 256
  {
    PowersTo8();
    hide Pow2;
    assert b == 0 || b == 1 || b == 2 || b == 3 || b == 4 || b == 5 || b == 6 || b == 7 || b == 8;
  }

  lemma HashIsSha(h: string)
    requires ValidHash(h)
    ensures ValidSha(h)
  {
  }

  lemma HexMonotone(c: char, d: char)
    requires IsLowerHex(c) && IsLowerHex(d)
    ensures HexValue(c) < HexValue(d) <==> c < d
    ensures HexValue(c) < 16
  {
  }

  /** The first byte follows the order of the digests. */
  lemma ByteOrder(a: string, b: string)
    requires ValidHash(a) && ValidHash(b) && ValidSha(a) && ValidSha(b) && FirstByte(a) < FirstByte(b)
    ensures Less(a, b)
  {
    HexMonotone(a[0], b[0]);
    HexMonotone(b[0], a[0]);
    HexMonotone(a[1], b[1]);
    assert a[0] <= b[0];
    if a[0] == b[0] {
      assert a[1..][0] == a[1] && b[1..][0] == b[1];
      assert Less(a[1..], b[1..]);
    }
  }

  lemma {:induction false} PrefixOrder(p: string, a: string, b: string)
    requires Less(a, b)
    ensures Less(p + a, p + b)
  {
    if p == [] {
      assert p + a == a && p + b == b;
    } else {
      assert (p + a)[1..] == p[1..] + a && (p + b)[1..] == p[1..] + b;
      PrefixOrder(p[1..], a, b);
    }
  }

  /** Ids in a lower shard come first. */
  lemma ShardOrder(rules: Rules, a: Staged, b: Staged, count: nat)
    requires RulesOk(rules) && StagedOk(rules, a) && StagedOk(rules, b) && ValidShardCount(count)
    requires CandidateShard(a.candidateID, count).Some? && CandidateShard(b.candidateID, count).Some?
    requires CandidateShard(a.candidateID, count).value < CandidateShard(b.candidateID, count).value
    ensures Less(a.candidateID, b.candidateID)
  {
    var x, y := rules.idHash(a.kind, a.agent, a.normalized), rules.idHash(b.kind, b.agent, b.normalized);
    assert a.candidateID[|CANDIDATE_PREFIX|..] == x && b.candidateID[|CANDIDATE_PREFIX|..] == y;
    assert ValidHash(x) && ValidHash(y);
    HashIsSha(x);
    HashIsSha(y);
    if FirstByte(y) <= FirstByte(x) {
      ShiftMonotone(FirstByte(y), FirstByte(x), 8 - ShardBits(count));
    }
    ByteOrder(x, y);
    PrefixOrder(CANDIDATE_PREFIX, x, y);
  }

  lemma StagedShards(rules: Rules, r: Staged, count: nat)
    requires RulesOk(rules) && StagedOk(rules, r) && ValidShardCount(count)
    ensures ShardForHex(r.key, count).Some? && ShardForHex(r.key, count).value < count
    ensures CandidateShard(r.candidateID, count).Some? && CandidateShard(r.candidateID, count).value < count
  {
    var h := rules.idHash(r.kind, r.agent, r.normalized);
    assert r.candidateID[|CANDIDATE_PREFIX|..] == h;
    assert ValidHash(h) && ValidHash(r.key);
    HashIsSha(h);
    HashIsSha(r.key);
    ShardInRange(h, count);
    ShardInRange(r.key, count);
  }

  // ---- A shard sees whole candidates and whole conflict groups ----

  /** The records whose semantic key belongs to shard `k`, in order. */
  function InShard(records: seq<Staged>, count: nat, k: nat): seq<Staged> {
    if records == [] then []
    else
      var n := |records| - 1;
      InShard(records[..n], count, k) + if ShardForHex(records[n].key, count) == Some(k) then [records[n]] else []
  }

  lemma {:induction false} InShardMembers(records: seq<Staged>, count: nat, k: nat)
    ensures forall r :: r in InShard(records, count, k) <==> r in records && ShardForHex(r.key, count) == Some(k)
  {
    hide ShardForHex;
    if records != [] {
      var n := |records| - 1;
      assert records == records[..n] + [records[n]];
      InShardMembers(records[..n], count, k);
    }
  }

  lemma {:induction false} OwnInShard(records: seq<Staged>, count: nat, k: nat, id: string, whole: bool)
    requires forall r :: r in records && r.candidateID == id ==> (ShardForHex(r.key, count) == Some(k) <==> whole)
    ensures Own(InShard(records, count, k), id) == if whole then Own(records, id) else []
  {
    hide ShardForHex;
    if records != [] {
      var n := |records| - 1;
      assert records == records[..n] + [records[n]];
      OwnInShard(records[..n], count, k, id, whole);
      OwnNext(InShard(records[..n], count, k), records[n]);
      assert InShard(records[..n], count, k) + [] == InShard(records[..n], count, k);
    }
  }

  /** Records as the derivation stages them. */
  ghost predicate WellStaged(rules: Rules, records: seq<Staged>) {
    RulesOk(rules) && forall r :: r in records ==> StagedOk(rules, r)
  }

  /** Records as the derivation stages them, without an identity collision. */
  ghost predicate AllDerived(rules: Rules, records: seq<Staged>) {
    WellStaged(rules, records) && !Collides(records)
  }

  function KeyShard(records: seq<Staged>, id: string, count: nat): Option<nat>
    requires id in IDs(records)
  {
    ShardForHex(Base(records, id).key, count)
  }

  lemma BaseStaged(rules: Rules, records: seq<Staged>, id: string)
    requires WellStaged(rules, records) && id in IDs(records)
    ensures Base(records, id) in records && Base(records, id).candidateID == id && StagedOk(rules, Base(records, id))
  {
    assert Base(records, id) in Own(records, id);
  }

  /** No candidate is split: a shard holds all records of a candidate or none. */
  lemma NoCandidateSplit(rules: Rules, records: seq<Staged>, count: nat, k: nat, id: string)
    requires AllDerived(rules, records) && id in IDs(records)
    ensures Own(InShard(records, count, k), id) == if KeyShard(records, id, count) == Some(k) then Own(records, id) else []
    ensures id in IDs(InShard(records, count, k)) <==> KeyShard(records, id, count) == Some(k)
  {
    hide RulesOk, StagedOk, ShardForHex, Own, IDs, Collides;
    BaseStaged(rules, records, id);
    forall r | r in records && r.candidateID == id
      ensures r.key == Base(records, id).key
    {
      SameIDSameIdentity(rules, records, r, Base(records, id));
    }
    OwnInShard(records, count, k, id, KeyShard(records, id, count) == Some(k));
  }

  lemma SameGroupSameKey(rules: Rules, records: seq<Staged>, x: string, y: string)
    requires AllDerived(rules, records) && x in IDs(records) && y in IDs(records)
    requires GroupOf(Base(records, x)) == GroupOf(Base(records, y))
    ensures Base(records, x).key == Base(records, y).key
  {
    hide RulesOk;
    BaseStaged(rules, records, x);
    BaseStaged(rules, records, y);
  }

  lemma ShardIDs(records: seq<Staged>, count: nat, k: nat)
    ensures IDs(InShard(records, count, k)) <= IDs(records)
  {
    hide ShardForHex;
    InShardMembers(records, count, k);
  }

  /** No conflict group is split: the shard of a candidate holds everything it is linked to. */
  lemma NoGroupSplit(rules: Rules, records: seq<Staged>, count: nat, k: nat, id: string)
    requires AllDerived(rules, records) && id in IDs(records) && KeyShard(records, id, count) == Some(k)
    ensures var shard := InShard(records, count, k);
            id in IDs(shard) && Base(shard, id) == Base(records, id) && Unlinked(shard, id) == Unlinked(records, id) &&
            RelatedTo(shard, id) == RelatedTo(records, id) && OpposedTo(shard, id) == OpposedTo(records, id)
  {
    hide RulesOk, StagedOk, ShardForHex, Own, IDs, InShard, AllDerived, Merged, Finalized, Gathered, GroupOf;
    var shard := InShard(records, count, k);
    NoCandidateSplit(rules, records, count, k, id);
    ShardIDs(records, count, k);
    forall y | y in IDs(records)
      ensures y in IDs(shard) ==> Base(shard, y) == Base(records, y)
      ensures GroupOf(Base(records, y)) == GroupOf(Base(records, id)) ==> y in IDs(shard)
    {
      NoCandidateSplit(rules, records, count, k, y);
      if GroupOf(Base(records, y)) == GroupOf(Base(records, id)) {
        SameGroupSameKey(rules, records, y, id);
      }
    }
  }

  function GroupShard(rules: Rules, g: Group, count: nat): Option<nat> {
    ShardForHex(rules.keyHash(g.0, g.1), count)
  }

  lemma ShardCandidate(rules: Rules, records: seq<Staged>, count: nat, k: nat, id: string)
    requires AllDerived(rules, records)
    ensures id in IDs(InShard(records, count, k)) <==> id in IDs(records) && KeyShard(records, id, count) == Some(k)
    ensures id in IDs(InShard(records, count, k)) ==>
              CandidateOf(rules, InShard(records, count, k), id) == CandidateOf(rules, records, id)
  {
    hide RulesOk, StagedOk, ShardForHex, Own, IDs, InShard, AllDerived, Unlinked, RelatedTo, OpposedTo, Linked,
         WithContent;
    ShardIDs(records, count, k);
    if id in IDs(records) {
      NoCandidateSplit(rules, records, count, k, id);
      if KeyShard(records, id, count) == Some(k) {
        NoGroupSplit(rules, records, count, k, id);
      }
    }
  }

  lemma ShardConflicts(rules: Rules, records: seq<Staged>, count: nat, k: nat)
    requires AllDerived(rules, records)
    ensures ConflictGroups(InShard(records, count, k)) ==
            set g | g in ConflictGroups(records) && GroupShard(rules, g, count) == Some(k)
  {
    hide RulesOk, StagedOk, ShardForHex, Own, IDs, InShard, Unlinked, RelatedTo, OpposedTo, Base;
    var shard := InShard(records, count, k);
    forall id | id in IDs(records)
      ensures GroupShard(rules, GroupOf(Base(records, id)), count) == KeyShard(records, id, count)
      ensures id in IDs(shard) <==> KeyShard(records, id, count) == Some(k)
      ensures id in IDs(shard) ==> Base(shard, id) == Base(records, id) && OpposedTo(shard, id) == OpposedTo(records, id)
    {
      BaseStaged(rules, records, id);
      KeyOfGroup(rules, Base(records, id));
      NoCandidateSplit(rules, records, count, k, id);
      if KeyShard(records, id, count) == Some(k) {
        NoGroupSplit(rules, records, count, k, id);
      }
    }
    ShardIDs(records, count, k);
  }

  lemma KeyOfGroup(rules: Rules, r: Staged)
    requires StagedOk(rules, r)
    ensures r.key == rules.keyHash(GroupOf(r).0, GroupOf(r).1)
  {
  }

  lemma ShardStaged(rules: Rules, records: seq<Staged>, count: nat, k: nat)
    requires WellStaged(rules, records)
    ensures WellStaged(rules, InShard(records, count, k)) && "" !in IDs(InShard(records, count, k))
    ensures !Collides(records) ==> !Collides(InShard(records, count, k))
  {
    hide RulesOk, ShardForHex;
    InShardMembers(records, count, k);
  }

  /** A shard notices an identity collision exactly when two colliding records have semantic keys of one shard; a
      collision across shards, which one aggregation of all records would refuse, goes unnoticed. */
  lemma CollisionSeenExactly(records: seq<Staged>, count: nat, k: nat)
    ensures Collides(InShard(records, count, k)) <==>
            exists r, q :: r in records && q in records && r.candidateID == q.candidateID && !SameIdentity(r, q) &&
              ShardForHex(r.key, count) == Some(k) && ShardForHex(q.key, count) == Some(k)
  {
    hide ShardForHex;
    InShardMembers(records, count, k);
  }
}
