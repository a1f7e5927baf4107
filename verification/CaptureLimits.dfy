/** A listing too large for one inventory: the run that meets it cannot close. */
module CaptureLimits {
  import opened Primitives
  import opened Sorting
  import opened CaptureTypes
  import opened CaptureInventory
  import opened CaptureState
  import opened CaptureSources
  import opened CaptureRunner

  // ---- More identities than an inventory holds ----

  function Power10(n: nat): (p: nat)
    ensures p >= 1
  {
    if n == 0 then 1 else 10 * Power10(n - 1)
  }

  /** The last `width` decimal digits of n. */
  function Digits(n: nat, width: nat): (s: string)
    ensures |s| == width && forall i :: 0 <= i < width ==> '0' <= s[i] <= '9'
  {
    if width == 0 then "" else Digits(n / 10, width - 1) + [('0' as int + n % 10) as char]
  }

  lemma {:induction false} DigitsInjective(a: nat, b: nat, width: nat)
    requires a < Power10(width) && b < Power10(width) && Digits(a, width) == Digits(b, width)
    ensures a == b
  {
    if width > 0 {
      var s, t := Digits(a, width), Digits(b, width);
      assert s[..width - 1] == Digits(a / 10, width - 1) && t[..width - 1] == Digits(b / 10, width - 1);
      assert s[width - 1] == ('0' as int + a % 10) as char && t[width - 1] == ('0' as int + b % 10) as char;
      DigitsInjective(a / 10, b / 10, width - 1);
    }
  }

  lemma {:induction false} Power10Grows(a: nat, b: nat)
    requires a <= b
    ensures Power10(a) <= Power10(b)
    decreases b - a
  {
    if a < b {
      Power10Grows(a + 1, b);
    }
  }

  function Identity(n: nat): string {
    Digits(n, 64)
  }

  lemma IdentityFacts(a: nat, b: nat)
    requires a <= MAX_ITEMS && b <= MAX_ITEMS
    ensures ValidSha(Identity(a)) && (a != b ==> Identity(a) != Identity(b))
  {
    assert Power10(7) == 10_000_000 by {
      assert Power10(1) == 10 && Power10(2) == 100 && Power10(3) == 1000 && Power10(4) == 10_000;
    }
    Power10Grows(7, 64);
    if a != b && Identity(a) == Identity(b) {
      DigitsInjective(a, b, 64);
    }
  }

  function Identities(n: nat): (ids: seq<string>)
    ensures |ids| == n
  {
    seq(n, i requires 0 <= i < n => Identity(i))
  }

  lemma {:induction false} AllListed(n: nat, runID: string)
    requires n <= MAX_ITEMS + 1
    ensures |Sessions(Identities(n), runID)| == n
  {
    hide Identity, ValidSha;
    if n > 0 {
      AllListed(n - 1, runID);
      var ids := Identities(n);
      assert ids[..n - 1] == Identities(n - 1);
      SessionsAre(ids[..n - 1], runID);
      forall i | 0 <= i < n - 1
        ensures ids[i] != ids[n - 1]
      {
        IdentityFacts(i, n - 1);
      }
      IdentityFacts(n - 1, n - 1);
    }
  }

  // ---- The run ----

  const NOTHING := Discovery([], [], true)

  /** Everything succeeds, and the listing names one session more than an inventory holds. */
  function OverlargeWorld(): SourceWorld {
    SourceWorld(false, false, false, NOTHING, {}, 0, {}, Identities(MAX_ITEMS + 1), Counts(0, 0, 0, 0, 0), Identity(0),
                Execution(Counts(0, 0, 0, 0, 0), [], {}), 0, NOTHING, {}, 0, {}, {}, "", 1, 2, 3)
  }

  lemma OverlargeListing(source: Source, runID: string, tooLong: InventoryBody -> bool)
    requires source.kind.OpenCodeNative?
    ensures WorldOk(OverlargeWorld()) && Oversized(source, OverlargeWorld(), runID, None, tooLong)
  {
    hide Identities, Identity, Finished, ItemLess, Sessions, ValidSha;
    var w := OverlargeWorld();
    IdentityFacts(0, 0);
    var items := ListedItems(w.sessions, runID, true, w.marker);
    assert items == Sessions(w.sessions, runID);
    AllListed(MAX_ITEMS + 1, runID);
    SessionsAre(w.sessions, runID);
    SessionKeys(w.sessions, runID);
    var body := FinishedExists(source, runID, w.preAt, PreCapture, items, true);
    assert IsPre(body, source, w, runID, None);
  }

  lemma {:induction false} SessionKeys(identities: seq<string>, runID: string)
    ensures |Keys(Sessions(identities, runID))| == |Sessions(identities, runID)|
    ensures forall item :: item in Sessions(identities, runID) ==> ItemValid(item)
  {
    hide ValidSha;
    SessionsAre(identities, runID);
    if identities != [] {
      var n := |identities| - 1;
      SessionKeys(identities[..n], runID);
      SessionsAre(identities[..n], runID);
      var before, entry := Sessions(identities[..n], runID), SessionEntry(identities[n], runID);
      KeysAppend(before, entry);
      if entry !in before {
        assert forall x :: x in before ==> Key(x) != Key(entry);
      }
    }
  }

  const OVERLARGE: nat -> SourceWorld := _ => OverlargeWorld()

  /** A run that meets such a listing first, without a predecessor, is stopped although storage never fails. */
  lemma OverlargeRun(basis: Basis, sources: seq<Source>)
    requires sources != [] && sources[0].kind.OpenCodeNative? && sources[0].id !in basis.details
    ensures (forall i: nat :: WorldOk(OVERLARGE(i))) && OversizedRun(basis, sources, OVERLARGE)
  {
    hide OverlargeWorld, Oversized, WorldOk;
    OverlargeListing(sources[0], basis.runID, basis.tooLong);
    NotCanceled();
    assert OversizedAt(basis, sources[0], OVERLARGE, 0);
  }

  lemma NotCanceled()
    ensures !CanceledAt(OVERLARGE, 0)
  {
    hide Identities;
  }

  // ---- Runs that fit ----

  lemma {:induction false} ElementsFew<T>(s: seq<T>)
    ensures |set x | x in s| <= |s|
  {
    if s != [] {
      var n := |s| - 1;
      ElementsFew(s[..n]);
      assert (set x | x in s) == (set x | x in s[..n]) + {s[n]};
    }
  }

  lemma {:induction false} CarriedFew(known: map<string, InventoryItem>, ids: set<string>, complete: bool)
    requires ids <= known.Keys
    ensures |set id | id in ids :: Carried(known, id, complete)| <= |ids|
    decreases ids
  {
    hide Carried;
    if ids != {} {
      var id :| id in ids;
      CarriedFew(known, ids - {id}, complete);
      assert (set x | x in ids :: Carried(known, x, complete)) ==
             (set x | x in ids - {id} :: Carried(known, x, complete)) + {Carried(known, id, complete)};
    }
  }

  lemma SizeOfUnion<T>(a: set<T>, b: set<T>, c: set<T>)
    requires a <= b + c
    ensures |a| <= |b| + |c|
  {
    var d := a * b;
    assert a == d + (a - d);
    Smaller(d, b);
    Smaller(a - d, c);
  }

  lemma Smaller<T>(a: set<T>, b: set<T>)
    requires a <= b
    ensures |a| <= |b|
  {
    assert b == a + (b - a);
  }

  lemma {:induction false} KeysWithin(items: seq<InventoryItem>)
    ensures |Keys(items)| <= |set x | x in items|
  {
    if items != [] {
      var n := |items| - 1;
      KeysWithin(items[..n]);
      assert items == items[..n] + [items[n]];
      KeysAppend(items[..n], items[n]);
      var before := set x | x in items[..n];
      assert (set x | x in items) == before + {items[n]};
      if items[n] in before {
        assert (set x | x in items) == before;
        assert Key(items[n]) in Keys(items[..n]);
      }
    }
  }

  /** A finished inventory holds no more than what was seen and what was known. */
  lemma FinishedSize(body: InventoryBody, source: Source, runID: string, at: Time, phase: Phase,
                     seen: seq<InventoryItem>, known: map<string, InventoryItem>, complete: bool)
    requires Finished(body, source, runID, at, phase, seen, known, complete)
    ensures |body.items| <= |seen| + |known|
  {
    hide Increasing, Total, ItemValid, Keys, Carried, Identities, Retained;
    var all, first := (set x | x in body.items), set x | x in seen;
    var second := set id | id in known.Keys :: Carried(known, id, complete);
    forall x | x in all
      ensures x in first + second
    {
      if x !in seen {
        CarriedIs(x, known, seen, complete);
      }
    }
    SizeOfUnion(all, first, second);
    ElementsFew(seen);
    CarriedFew(known, known.Keys, complete);
    KeysWithin(body.items);
  }

  lemma CarriedIs(x: InventoryItem, known: map<string, InventoryItem>, seen: seq<InventoryItem>, complete: bool)
    requires CarriedFrom(x, known, CaptureInventory.Identities(seen), complete)
    ensures x.identity in known && x == Carried(known, x.identity, complete)
  {
  }

  lemma KnownFew(items: seq<InventoryItem>)
    ensures |Known(items)| <= |items|
  {
    if items != [] {
      KnownFew(items[..|items| - 1]);
    }
  }

  /** How many items the inventories of a source can have at most. */
  function ItemBound(source: Source, w: SourceWorld, runID: string, prior: Option<Inventory>): nat {
    |SeenBefore(source, w, runID, KnownOf(prior))| + |KnownOf(prior)| +
    if source.kind.OpenCodeNative? then 0 else |w.discoveredAgain.files| + |w.discoveredAgain.issues|
  }

  /** Few enough items always fit, when their encodings do. */
  lemma FewItemsFit(source: Source, w: SourceWorld, runID: string, prior: Option<Inventory>,
                    tooLong: InventoryBody -> bool)
    requires ItemBound(source, w, runID, prior) <= MAX_ITEMS
    requires forall b: InventoryBody :: |b.items| <= MAX_ITEMS ==> !tooLong(b)
    ensures !Oversized(source, w, runID, prior, tooLong)
  {
    hide Finished, SeenBefore, CompleteBefore, Discovered;
    forall pre | IsPre(pre, source, w, runID, prior)
      ensures !Refused(pre, tooLong) && (!source.kind.OpenCodeNative? ==> !PostRefused(pre, source, w, runID, tooLong))
    {
      FinishedSize(pre, source, runID, w.preAt, PreCapture, SeenBefore(source, w, runID, KnownOf(prior)), KnownOf(prior),
                   CompleteBefore(source, w));
      if !source.kind.OpenCodeNative? {
        KnownFew(pre.items);
        DiscoveredLength(w.discoveredAgain, Known(pre.items), runID);
        forall post | IsPost(post, source, w, runID, pre)
          ensures !Refused(post, tooLong)
        {
          FinishedSize(post, source, runID, w.postAt, PostCapture,
                       Discovered(w.discoveredAgain, Known(pre.items), runID), Known(pre.items),
                       w.discoveredAgain.complete);
        }
      }
    }
  }
}
