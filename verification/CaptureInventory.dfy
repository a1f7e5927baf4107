/** Source inventories: building one from a discovery and its predecessor, finishing it, checking it. */
module CaptureInventory {
  import opened Primitives
  import opened CaptureTypes
  import opened Ordering
  import opened Sorting

  const MAX_ITEMS := 1_000_000

  // What the file system answered for one matching path.
  datatype FileSeen =
    | FileRead(identity: string, content: string, bytes: int, modifiedAt: Time, prefixMatches: bool)
    | FileFailed(identity: string, status: ItemStatus)

  datatype DiscoveryIssue = DiscoveryIssue(identity: string, status: ItemStatus, itemType: ItemType)

  datatype Discovery = Discovery(files: seq<FileSeen>, issues: seq<DiscoveryIssue>, complete: bool)

  // ---- Items, keys and totals ----

  /** The counter an item status belongs to; every status without its own counter is unreadable. */
  function Class(status: ItemStatus): ItemStatus {
    match status
    case Available => Available
    case Missing => Missing
    case Unverified => Unverified
    case _ => Unreadable
  }

  function Total(items: seq<InventoryItem>, tally: ItemStatus): nat {
    Count(items, (item: InventoryItem) => Class(item.status) == tally)
  }

  function Key(item: InventoryItem): (string, ItemType) {
    (item.identity, item.itemType)
  }

  function Keys(items: seq<InventoryItem>): set<(string, ItemType)> {
    set item | item in items :: Key(item)
  }

  function Identities(items: seq<InventoryItem>): set<string> {
    set item | item in items :: item.identity
  }

  predicate ItemValid(item: InventoryItem) {
    ValidSha(item.identity) &&
    (item.status.Available? ==>
       !item.itemType.SourceMarker? &&
       (item.itemType.FileItem? ==> ValidSha(item.content) && item.bytes >= 0 && item.modifiedAt.Some?))
  }

  /** Every item is well formed, no (identity, type) repeats, and the four counters recount the items. */
  ghost predicate Tallied(b: InventoryBody) {
    (forall item :: item in b.items ==> ItemValid(item)) &&
    |Keys(b.items)| == |b.items| &&
    b.available == Total(b.items, Available) && b.missing == Total(b.items, Missing) &&
    b.unreadable == Total(b.items, Unreadable) && b.unverified == Total(b.items, Unverified)
  }

  predicate HeaderValid(b: InventoryBody) {
    b.runID != "" && ValidSourceID(b.sourceID) && ValidDigest(b.sourceConfig) && b.observedAt != ZERO_TIME &&
    b.agent == AgentOfKind(b.kind) && |b.items| <= MAX_ITEMS
  }

  ghost predicate InventoryValid(inventory: Inventory) {
    HeaderValid(inventory.body) && inventory.sha == InventoryDigest(inventory.body) && Tallied(inventory.body)
  }

  lemma TotalAppend(items: seq<InventoryItem>, item: InventoryItem, tally: ItemStatus)
    ensures Total(items + [item], tally) == Total(items, tally) + if Class(item.status) == tally then 1 else 0
  {
    assert (items + [item])[..|items|] == items;
  }

  lemma KeysAppend(items: seq<InventoryItem>, item: InventoryItem)
    ensures Keys(items + [item]) == Keys(items) + {Key(item)}
    ensures Identities(items + [item]) == Identities(items) + {item.identity}
  {
  }

  ghost predicate Counted(items: seq<InventoryItem>, available: int, missing: int, unreadable: int, unverified: int) {
    available == Total(items, Available) && missing == Total(items, Missing) &&
    unreadable == Total(items, Unreadable) && unverified == Total(items, Unverified)
  }

  lemma CountedNext(items: seq<InventoryItem>, item: InventoryItem, available: int, missing: int, unreadable: int,
                    unverified: int)
    requires Counted(items, available, missing, unreadable, unverified)
    ensures match Class(item.status)
            case Available => Counted(items + [item], available + 1, missing, unreadable, unverified)
            case Missing => Counted(items + [item], available, missing + 1, unreadable, unverified)
            case Unverified => Counted(items + [item], available, missing, unreadable, unverified + 1)
            case _ => Counted(items + [item], available, missing, unreadable + 1, unverified)
  {
    hide Total;
    TotalAppend(items, item, Available);
    TotalAppend(items, item, Missing);
    TotalAppend(items, item, Unreadable);
    TotalAppend(items, item, Unverified);
  }

  lemma TalliedWhen(b: InventoryBody)
    ensures Tallied(b) <==> (forall item :: item in b.items ==> ItemValid(item)) && |Keys(b.items)| == |b.items| &&
                            Counted(b.items, b.available, b.missing, b.unreadable, b.unverified)
  {
    hide Total, Keys, ItemValid;
  }

  lemma CountedOnce(items: seq<InventoryItem>, a: int, m: int, u: int, v: int, a': int, m': int, u': int, v': int)
    requires Counted(items, a, m, u, v)
    ensures Counted(items, a', m', u', v') <==> a == a' && m == m' && u == u' && v == v'
  {
    hide Total;
  }

  /** validateInventory: the loop recounts the items and refuses a repeated key. */
  method ValidateInventory(inventory: Inventory) returns (ok: bool)
    ensures ok <==> InventoryValid(inventory)
  {
    hide Counted, Tallied, Keys, ItemValid, Key;
    var b := inventory.body;
    if !HeaderValid(b) || inventory.sha != InventoryDigest(b) {
      return false;
    }
    TalliedWhen(b);
    var available, missing, unreadable, unverified := 0, 0, 0, 0;
    var seen: set<(string, ItemType)> := {};
    NothingCounted();
    var i := 0;
    while i < |b.items|
      invariant 0 <= i <= |b.items|
      invariant forall item :: item in b.items[..i] ==> ItemValid(item)
      invariant seen == Keys(b.items[..i]) && |seen| == i
      invariant Counted(b.items[..i], available, missing, unreadable, unverified)
    {
      var item := b.items[i];
      assert b.items[..i + 1] == b.items[..i] + [item];
      KeysAppend(b.items[..i], item);
      if !ItemValid(item) {
        return false;
      }
      if Key(item) in seen {
        RepeatedKey(b.items, i);
        return false;
      }
      seen := seen + {Key(item)};
      CountedNext(b.items[..i], item, available, missing, unreadable, unverified);
      match Class(item.status) {
        case Available => available := available + 1;
        case Missing => missing := missing + 1;
        case Unverified => unverified := unverified + 1;
        case _ => unreadable := unreadable + 1;
      }
      i := i + 1;
    }
    assert b.items[..i] == b.items;
    CountedOnce(b.items, available, missing, unreadable, unverified,
                b.available, b.missing, b.unreadable, b.unverified);
    ok := available == b.available && missing == b.missing && unreadable == b.unreadable &&
          unverified == b.unverified;
  }

  lemma NothingCounted()
    ensures Counted([], 0, 0, 0, 0) && Keys([]) == {}
  {
  }

  lemma KeyCount(items: seq<InventoryItem>)
    ensures |Keys(items)| <= |items|
  {
    if items != [] {
      var n := |items| - 1;
      KeyCount(items[..n]);
      assert items == items[..n] + [items[n]];
      KeysAppend(items[..n], items[n]);
    }
  }

  lemma {:induction false} RepeatedKey(items: seq<InventoryItem>, i: nat)
    requires i < |items| && Key(items[i]) in Keys(items[..i])
    ensures |Keys(items)| < |items|
  {
    var rest := items[..i] + items[i + 1..];
    forall item | item in items
      ensures Key(item) in Keys(rest)
    {
      var j :| 0 <= j < |items| && items[j] == item;
      if j < i {
        assert rest[j] == item;
      } else if j > i {
        assert rest[j - 1] == item;
      } else {
        var other :| other in items[..i] && Key(other) == Key(item);
        assert other in rest;
      }
    }
    assert Keys(items) == Keys(rest) by {
      assert forall item :: item in rest ==> item in items;
    }
    KeyCount(rest);
  }

  // ---- Building ----

  function Blank(identity: string): InventoryItem {
    InventoryItem(identity, FileItem, Missing, "", 0, None, "")
  }

  function Previous(known: map<string, InventoryItem>, identity: string): InventoryItem {
    if identity in known then known[identity] else Blank(identity)
  }

  /** unavailableItem: a new status over what was last known of the identity. */
  function UnavailableItem(identity: string, itemType: ItemType, status: ItemStatus, previous: InventoryItem)
    : InventoryItem
  {
    InventoryItem(identity, itemType, status, previous.content, previous.bytes, previous.modifiedAt,
                  previous.lastSeenRunID)
  }

  function FileEntry(file: FileSeen, known: map<string, InventoryItem>, runID: string): InventoryItem {
    match file
    case FileRead(identity, content, bytes, modifiedAt, _) =>
      InventoryItem(identity, FileItem, Available, content, bytes, Some(modifiedAt), runID)
    case FileFailed(identity, status) => UnavailableItem(identity, FileItem, status, Previous(known, identity))
  }

  function IssueEntry(issue: DiscoveryIssue, known: map<string, InventoryItem>): InventoryItem {
    UnavailableItem(issue.identity, issue.itemType, issue.status, Previous(known, issue.identity))
  }

  function FileEntries(files: seq<FileSeen>, known: map<string, InventoryItem>, runID: string)
    : (r: seq<InventoryItem>)
    ensures |r| == |files|
  {
    seq(|files|, i requires 0 <= i < |files| => FileEntry(files[i], known, runID))
  }

  function IssueEntries(issues: seq<DiscoveryIssue>, known: map<string, InventoryItem>): (r: seq<InventoryItem>)
    ensures |r| == |issues|
  {
    seq(|issues|, i requires 0 <= i < |issues| => IssueEntry(issues[i], known))
  }

  /** What this discovery saw, before anything is carried over from the predecessor. */
  function Discovered(d: Discovery, known: map<string, InventoryItem>, runID: string): seq<InventoryItem> {
    FileEntries(d.files, known, runID) + IssueEntries(d.issues, known)
  }

  /** The answers of the file system: real hashes, no key twice, and nothing available among the failures. */
  ghost predicate DiscoveryOk(d: Discovery) {
    (forall f :: f in d.files ==>
       ValidSha(f.identity) &&
       match f
       case FileRead(_, content, bytes, _, _) => ValidSha(content) && bytes >= 0
       case FileFailed(_, status) => !status.Available?) &&
    (forall x :: x in d.issues ==> ValidSha(x.identity) && !x.status.Available?) &&
    |Keys(Discovered(d, map[], ""))| == |d.files| + |d.issues|
  }

  lemma DiscoveredKeys(d: Discovery, known: map<string, InventoryItem>, runID: string)
    ensures Keys(Discovered(d, known, runID)) == Keys(Discovered(d, map[], ""))
  {
    var a, b := Discovered(d, known, runID), Discovered(d, map[], "");
    assert |a| == |b| && forall i :: 0 <= i < |a| ==> Key(a[i]) == Key(b[i]);
    forall k
      ensures k in Keys(a) <==> k in Keys(b)
    {
      if k in Keys(a) {
        var i :| 0 <= i < |a| && Key(a[i]) == k;
        assert b[i] in b;
      }
      if k in Keys(b) {
        var i :| 0 <= i < |b| && Key(b[i]) == k;
        assert a[i] in a;
      }
    }
  }

  /** previousKnown: the last item of each identity. */
  function Known(items: seq<InventoryItem>): (known: map<string, InventoryItem>)
    ensures known.Keys == Identities(items)
    ensures forall id :: id in known ==> known[id] in items && known[id].identity == id
  {
    if items == [] then map[]
    else
      var n := |items| - 1;
      assert items == items[..n] + [items[n]];
      KeysAppend(items[..n], items[n]);
      Known(items[..n])[items[n].identity := items[n]]
  }

  method PreviousKnown(prior: Option<Inventory>) returns (known: map<string, InventoryItem>)
    ensures known == match prior case None => map[] case Some(p) => Known(p.body.items)
  {
    known := map[];
    if prior.Some? {
      var items := prior.value.body.items;
      var i := 0;
      while i < |items|
        invariant 0 <= i <= |items|
        invariant known == Known(items[..i])
      {
        assert items[..i + 1][..i] == items[..i];
        known := known[items[i].identity := items[i]];
        i := i + 1;
      }
      assert items[..i] == items;
    }
  }

  function CarryStatus(complete: bool): ItemStatus {
    if complete then Missing else Unverified
  }

  /** Whether an item last known as `item` is carried into an inventory that saw `seen`. */
  predicate Retained(item: InventoryItem, seen: set<string>, complete: bool) {
    item.identity !in seen && !(item.itemType.SourceMarker? && complete)
  }

  ghost predicate CarriedFrom(x: InventoryItem, known: map<string, InventoryItem>, seen: set<string>,
                              complete: bool)
  {
    x.identity in known && Retained(known[x.identity], seen, complete) &&
    x == UnavailableItem(x.identity, known[x.identity].itemType, CarryStatus(complete), known[x.identity])
  }

  /** The header fields, which adding and sorting items leave alone. */
  ghost predicate SameHeader(a: InventoryBody, b: InventoryBody) {
    a.runID == b.runID && a.sourceID == b.sourceID && a.sourceConfig == b.sourceConfig && a.agent == b.agent &&
    a.kind == b.kind && a.phase == b.phase && a.observedAt == b.observedAt
  }

  function AddItem(b: InventoryBody, item: InventoryItem): InventoryBody {
    var c := b.(items := b.items + [item]);
    match Class(item.status)
    case Available => c.(available := c.available + 1)
    case Missing => c.(missing := c.missing + 1)
    case Unverified => c.(unverified := c.unverified + 1)
    case _ => c.(unreadable := c.unreadable + 1)
  }

  lemma AddItemTallied(b: InventoryBody, item: InventoryItem)
    requires Tallied(b) && ItemValid(item) && Key(item) !in Keys(b.items)
    ensures Tallied(AddItem(b, item)) && SameHeader(AddItem(b, item), b)
    ensures AddItem(b, item).items == b.items + [item]
  {
    KeysAppend(b.items, item);
    TotalAppend(b.items, item, Available);
    TotalAppend(b.items, item, Missing);
    TotalAppend(b.items, item, Unreadable);
    TotalAppend(b.items, item, Unverified);
  }

  ghost predicate KnownOk(known: map<string, InventoryItem>) {
    forall id :: id in known ==> known[id].identity == id && ValidSha(id)
  }

  /** The items of an inventory: what was seen, and what is carried over from the predecessor. */
  ghost predicate Merged(items: seq<InventoryItem>, seen: seq<InventoryItem>, known: map<string, InventoryItem>,
                         complete: bool)
  {
    forall x :: x in items <==> x in seen || CarriedFrom(x, known, Identities(seen), complete)
  }

  /** The items once the identities outside `todo` have been carried over. */
  ghost predicate MergedSoFar(items: seq<InventoryItem>, start: seq<InventoryItem>, known: map<string, InventoryItem>,
                              complete: bool, todo: set<string>)
  {
    forall x :: x in items <==>
      x in start || (CarriedFrom(x, known, Identities(start), complete) && x.identity !in todo)
  }

  function Carried(known: map<string, InventoryItem>, identity: string, complete: bool): InventoryItem
    requires identity in known
  {
    UnavailableItem(identity, known[identity].itemType, CarryStatus(complete), known[identity])
  }

  lemma CarryFresh(items: seq<InventoryItem>, start: seq<InventoryItem>, known: map<string, InventoryItem>,
                   complete: bool, todo: set<string>, identity: string)
    requires KnownOk(known) && MergedSoFar(items, start, known, complete, todo)
    requires identity in todo && identity in known && Retained(known[identity], Identities(start), complete)
    ensures ItemValid(Carried(known, identity, complete))
    ensures Key(Carried(known, identity, complete)) !in Keys(items)
  {
    forall x | x in items
      ensures x.identity != identity
    {
      if x in start {
        assert x.identity in Identities(start);
      }
    }
  }

  lemma MergedNext(items: seq<InventoryItem>, more: seq<InventoryItem>, start: seq<InventoryItem>,
                   known: map<string, InventoryItem>, complete: bool, todo: set<string>, identity: string)
    requires KnownOk(known) && MergedSoFar(items, start, known, complete, todo) && identity in todo && identity in known
    requires more == if Retained(known[identity], Identities(start), complete)
                     then items + [Carried(known, identity, complete)] else items
    ensures MergedSoFar(more, start, known, complete, todo - {identity})
  {
    forall x
      ensures x in more <==>
              x in start || (CarriedFrom(x, known, Identities(start), complete) && x.identity !in todo - {identity})
    {
      if x.identity != identity {
        assert x in more <==> x in items;
      }
    }
  }

  /** mergeUnavailable: ranges over the predecessor's identities in no particular order. */
  method MergeUnavailable(manifest: InventoryBody, known: map<string, InventoryItem>, complete: bool)
    returns (m: InventoryBody)
    requires Tallied(manifest) && KnownOk(known)
    ensures Tallied(m) && SameHeader(m, manifest)
    ensures Merged(m.items, manifest.items, known, complete)
  {
    m := manifest;
    var seen := Identities(manifest.items);
    var todo := known.Keys;
    assert MergedSoFar(m.items, manifest.items, known, complete, todo);
    assert forall id :: id in known ==> known[id].identity == id;
    hide Tallied, KnownOk, MergedSoFar, Keys, Key, ItemValid, AddItem, Identities;
    while todo != {}
      invariant todo <= known.Keys
      invariant Tallied(m) && SameHeader(m, manifest)
      invariant MergedSoFar(m.items, manifest.items, known, complete, todo)
      decreases todo
    {
      var identity :| identity in todo;
      var item := known[identity];
      ghost var before := m.items;
      if identity !in seen && !(item.itemType.SourceMarker? && complete) {
        var carried := UnavailableItem(identity, item.itemType, CarryStatus(complete), item);
        CarryFresh(m.items, manifest.items, known, complete, todo, identity);
        AddItemTallied(m, carried);
        m := AddItem(m, carried);
      }
      MergedNext(before, m.items, manifest.items, known, complete, todo, identity);
      todo := todo - {identity};
    }
    MergedAll(m.items, manifest.items, known, complete);
  }

  lemma MergedAll(items: seq<InventoryItem>, start: seq<InventoryItem>, known: map<string, InventoryItem>,
                  complete: bool)
    requires MergedSoFar(items, start, known, complete, {})
    ensures Merged(items, start, known, complete)
  {
    hide CarriedFrom, Identities;
  }

  function TypeRank(t: ItemType): int {
    match t case FileItem => 0 case SessionItem => 1 case SourceMarker => 2
  }

  function StatusRank(s: ItemStatus): int {
    match s
    case Available => 0 case GitBoundaryRejected => 1 case LinkRejected => 2 case Missing => 3
    case NotRegularFile => 4 case NotRegularSource => 5 case PermissionDenied => 6 case Unreadable => 7
    case Unverified => 8
  }

  predicate ItemLess(a: InventoryItem, b: InventoryItem) {
    if a.identity != b.identity then Less(a.identity, b.identity)
    else if a.itemType != b.itemType then TypeRank(a.itemType) < TypeRank(b.itemType)
    else StatusRank(a.status) < StatusRank(b.status)
  }

  const ITEM_ORDER: (InventoryItem, InventoryItem) -> bool := (x, y) => ItemLess(x, y)

  lemma ItemOrder()
    ensures WeakOrder(ITEM_ORDER)
  {
    forall a: InventoryItem, b: InventoryItem, c: InventoryItem
      ensures !ItemLess(a, a)
      ensures ItemLess(a, b) && ItemLess(b, c) ==> ItemLess(a, c)
      ensures ItemLess(a, c) ==> ItemLess(a, b) || ItemLess(b, c)
    {
      ItemLessLaws(a, b, c);
    }
  }

  lemma ItemLessLaws(a: InventoryItem, b: InventoryItem, c: InventoryItem)
    ensures !ItemLess(a, a)
    ensures ItemLess(a, b) && ItemLess(b, c) ==> ItemLess(a, c)
    ensures ItemLess(a, c) ==> ItemLess(a, b) || ItemLess(b, c)
  {
    hide StatusRank;
    LessIrreflexive(a.identity);
    LessTotal(a.identity, b.identity);
    LessTotal(b.identity, c.identity);
    if Less(a.identity, b.identity) && Less(b.identity, c.identity) {
      LessTransitive(a.identity, b.identity, c.identity);
    }
    if Less(a.identity, c.identity) && Less(c.identity, b.identity) {
      LessTransitive(a.identity, c.identity, b.identity);
    }
    if Less(b.identity, a.identity) && Less(a.identity, c.identity) {
      LessTransitive(b.identity, a.identity, c.identity);
    }
    if Less(a.identity, b.identity) {
      LessAsymmetric(a.identity, b.identity);
    }
    if Less(b.identity, c.identity) {
      LessAsymmetric(b.identity, c.identity);
    }
  }

  /** Items with distinct keys are separated by the order. */
  lemma KeysSeparate(items: seq<InventoryItem>)
    requires |Keys(items)| == |items|
    ensures Increasing(SortBy(items, ITEM_ORDER), ITEM_ORDER)
  {
    hide StatusRank, Less, Keys, SortBy, WeakOrder;
    ItemOrder();
    forall i, j | 0 <= i < j < |items|
      ensures ITEM_ORDER(items[i], items[j]) || ITEM_ORDER(items[j], items[i])
    {
      KeyAtDiffers(items, i, j);
      LessTotal(items[i].identity, items[j].identity);
    }
    SortIncreasing(items, ITEM_ORDER);
  }

  lemma KeyAtDiffers(items: seq<InventoryItem>, i: nat, j: nat)
    requires |Keys(items)| == |items| && i < j < |items|
    ensures Key(items[i]) != Key(items[j])
  {
    if Key(items[i]) == Key(items[j]) {
      assert items[i] in items[..j];
      RepeatedKey(items, j);
    }
  }

  function FinalStatus(b: InventoryBody): InventoryStatus {
    if b.available == 0 && b.unverified > 0 then InvUnverified
    else if b.available == 0 && b.missing > 0 then InvMissing
    else if b.available == 0 && b.unreadable > 0 then InvUnreadable
    else if b.available == 0 then InvEmpty
    else if b.missing > 0 || b.unreadable > 0 || b.unverified > 0 then InvPartial
    else InvAvailable
  }

  function Finalize(b: InventoryBody): InventoryBody {
    b.(items := SortBy(b.items, ITEM_ORDER), status := FinalStatus(b))
  }

  /** finalizeInventory loses nothing and puts the items in their one order. */
  lemma FinalizeKeeps(b: InventoryBody)
    requires Tallied(b)
    ensures Tallied(Finalize(b)) && SameHeader(Finalize(b), b) && Increasing(Finalize(b).items, ITEM_ORDER)
    ensures forall x :: x in Finalize(b).items <==> x in b.items
    ensures forall seen, known, complete ::
              Merged(b.items, seen, known, complete) ==> Merged(Finalize(b).items, seen, known, complete)
  {
    hide ItemLess, WeakOrder, Increasing, Merged;
    KeysSeparate(b.items);
    FinalizeMembers(b);
    assert Keys(Finalize(b).items) == Keys(b.items);
    forall tally: ItemStatus
      ensures Total(Finalize(b).items, tally) == Total(b.items, tally)
    {
      CountPermutation(Finalize(b).items, b.items, (item: InventoryItem) => Class(item.status) == tally);
    }
  }

  lemma FinalizeMembers(b: InventoryBody)
    ensures |Finalize(b).items| == |b.items| && multiset(Finalize(b).items) == multiset(b.items)
    ensures forall x :: x in Finalize(b).items <==> x in b.items
    ensures forall seen, known, complete ::
              Merged(b.items, seen, known, complete) ==> Merged(Finalize(b).items, seen, known, complete)
  {
    hide ItemLess, CarriedFrom, Identities;
    SortMembers(b.items, ITEM_ORDER);
  }

  // ---- The inventory that a discovery and a predecessor determine ----

  /** The finished inventory of `source` over what was seen and what was known before. */
  ghost predicate Finished(body: InventoryBody, source: Source, runID: string, at: Time, phase: Phase,
                           seen: seq<InventoryItem>, known: map<string, InventoryItem>, complete: bool)
  {
    Tallied(body) && SameHeader(body, NewInventory(source, runID, at).(phase := phase)) &&
    Merged(body.items, seen, known, complete) && Increasing(body.items, ITEM_ORDER) && body.status == FinalStatus(body)
  }

  /** There is only one. */
  lemma FinishedUnique(a: InventoryBody, b: InventoryBody, source: Source, runID: string, at: Time, phase: Phase,
                       seen: seq<InventoryItem>, known: map<string, InventoryItem>, complete: bool)
    requires Finished(a, source, runID, at, phase, seen, known, complete)
    requires Finished(b, source, runID, at, phase, seen, known, complete)
    ensures a == b
  {
    hide ItemLess, CarriedFrom, Identities, Increasing, WeakOrder, Total, Keys;
    ItemOrder();
    WeakIsStrict();
    IncreasingUnique(a.items, b.items, ITEM_ORDER);
  }

  /** Without a predecessor there is one for any items with distinct keys, and it has all of them. */
  lemma FinishedExists(source: Source, runID: string, at: Time, phase: Phase, items: seq<InventoryItem>, complete: bool)
    returns (body: InventoryBody)
    requires (forall item :: item in items ==> ItemValid(item)) && |Keys(items)| == |items|
    ensures Finished(body, source, runID, at, phase, items, map[], complete) && |body.items| == |items|
  {
    hide ItemLess, ItemValid, Keys, Total, Increasing;
    var start := NewInventory(source, runID, at).(
      phase := phase, items := items, available := Total(items, Available), missing := Total(items, Missing),
      unreadable := Total(items, Unreadable), unverified := Total(items, Unverified));
    FinalizeKeeps(start);
    FinalizeMembers(start);
    body := Finalize(start);
  }

  lemma WeakIsStrict()
    requires WeakOrder(ITEM_ORDER)
    ensures StrictOrder(ITEM_ORDER)
  {
  }

  function NewInventory(source: Source, runID: string, observedAt: Time): InventoryBody {
    InventoryBody(runID, source.id, SourceDigest(source), source.agent, source.kind, PreCapture, observedAt,
                  InvEmpty, [], 0, 0, 0, 0)
  }

  function KnownOf(prior: Option<Inventory>): map<string, InventoryItem> {
    match prior case None => map[] case Some(p) => Known(p.body.items)
  }

  ghost predicate PriorOk(prior: Option<Inventory>) {
    prior.Some? ==> Tallied(prior.value.body)
  }

  /** Why the next capture has to read everything again. */
  ghost predicate NeedsFull(b: InventoryBody, d: Discovery, known: map<string, InventoryItem>) {
    b.available == 0 || b.missing > 0 || b.unreadable > 0 || b.unverified > 0 ||
    exists f :: f in d.files && ChangedInPlace(f, known)
  }

  predicate ChangedInPlace(f: FileSeen, known: map<string, InventoryItem>) {
    f.FileRead? && f.identity in known &&
    (!known[f.identity].status.Available? || (known[f.identity].content != f.content && !f.prefixMatches))
  }

  lemma BuildStarts(source: Source, runID: string, observedAt: Time, prior: Option<Inventory>)
    requires PriorOk(prior)
    ensures Tallied(NewInventory(source, runID, observedAt)) && KnownOk(KnownOf(prior))
  {
  }

  method AddFiles(start: InventoryBody, d: Discovery, known: map<string, InventoryItem>, runID: string)
    returns (manifest: InventoryBody, changed: bool)
    requires DiscoveryOk(d) && Tallied(start) && start.items == []
    ensures manifest.items == FileEntries(d.files, known, runID)
    ensures Tallied(manifest) && SameHeader(manifest, start)
    ensures changed <==> exists f :: f in d.files && ChangedInPlace(f, known)
  {
    hide Tallied, AddItem;
    manifest := start;
    ghost var all := Discovered(d, known, runID);
    changed := false;
    var i := 0;
    while i < |d.files|
      invariant 0 <= i <= |d.files|
      invariant manifest.items == all[..i]
      invariant Tallied(manifest) && SameHeader(manifest, start)
      invariant changed <==> exists f :: f in d.files[..i] && ChangedInPlace(f, known)
    {
      var f := d.files[i];
      assert d.files[..i + 1] == d.files[..i] + [f];
      AddDiscovered(d, known, runID, manifest, i);
      manifest := AddItem(manifest, FileEntry(f, known, runID));
      if ChangedInPlace(f, known) {
        changed := true;
      }
      i := i + 1;
    }
    assert d.files[..i] == d.files;
  }

  method AddIssues(start: InventoryBody, d: Discovery, known: map<string, InventoryItem>, runID: string)
    returns (manifest: InventoryBody)
    requires DiscoveryOk(d) && Tallied(start) && start.items == FileEntries(d.files, known, runID)
    ensures manifest.items == Discovered(d, known, runID)
    ensures Tallied(manifest) && SameHeader(manifest, start)
  {
    hide Tallied, AddItem;
    manifest := start;
    ghost var all := Discovered(d, known, runID);
    var n, k := |d.files|, 0;
    assert all[..n] == FileEntries(d.files, known, runID);
    while k < |d.issues|
      invariant 0 <= k <= |d.issues|
      invariant manifest.items == all[..n + k]
      invariant Tallied(manifest) && SameHeader(manifest, start)
    {
      AddDiscovered(d, known, runID, manifest, n + k);
      manifest := AddItem(manifest, IssueEntry(d.issues[k], known));
      k := k + 1;
    }
    assert all[..n + k] == all;
  }

  /** mergeUnavailable, then finalizeInventory. */
  method FinishInventory(b: InventoryBody, source: Source, runID: string, observedAt: Time,
                        known: map<string, InventoryItem>, complete: bool)
    returns (manifest: InventoryBody)
    requires Tallied(b) && SameHeader(b, NewInventory(source, runID, observedAt)) && KnownOk(known)
    ensures Finished(manifest, source, runID, observedAt, PreCapture, b.items, known, complete)
  {
    hide Tallied, KnownOk, Merged, Increasing;
    manifest := MergeUnavailable(b, known, complete);
    FinalizeKeeps(manifest);
    manifest := Finalize(manifest);
  }

  /** buildFileInventory. */
  method BuildFileInventory(source: Source, runID: string, observedAt: Time, d: Discovery, prior: Option<Inventory>)
    returns (manifest: InventoryBody, forceFull: bool)
    requires DiscoveryOk(d) && PriorOk(prior)
    ensures Finished(manifest, source, runID, observedAt, PreCapture, Discovered(d, KnownOf(prior), runID),
                     KnownOf(prior), d.complete)
    ensures forceFull <==> NeedsFull(manifest, d, KnownOf(prior))
  {
    hide Tallied, KnownOk, Merged, Increasing;
    BuildStarts(source, runID, observedAt, prior);
    var known := PreviousKnown(prior);
    manifest, forceFull := AddFiles(NewInventory(source, runID, observedAt), d, known, runID);
    manifest := AddIssues(manifest, d, known, runID);
    manifest := FinishInventory(manifest, source, runID, observedAt, known, d.complete);
    forceFull := forceFull || manifest.missing > 0 || manifest.unreadable > 0 || manifest.unverified > 0 ||
                 manifest.available == 0;
  }

  lemma DiscoveredValid(d: Discovery, known: map<string, InventoryItem>, runID: string, i: nat)
    requires DiscoveryOk(d) && i < |d.files| + |d.issues|
    ensures ItemValid(Discovered(d, known, runID)[i])
  {
    hide ValidSha;
    if i < |d.files| {
      assert d.files[i] in d.files;
    } else {
      assert d.issues[i - |d.files|] in d.issues;
    }
  }

  lemma DiscoveredFresh(d: Discovery, known: map<string, InventoryItem>, runID: string, i: nat)
    requires DiscoveryOk(d) && i < |d.files| + |d.issues|
    ensures Key(Discovered(d, known, runID)[i]) !in Keys(Discovered(d, known, runID)[..i])
  {
    hide Discovered, ItemValid, Keys, Key;
    DiscoveredKeys(d, known, runID);
    DiscoveredLength(d, known, runID);
    FreshKey(Discovered(d, known, runID), i);
  }

  lemma DiscoveredLength(d: Discovery, known: map<string, InventoryItem>, runID: string)
    ensures |Discovered(d, known, runID)| == |d.files| + |d.issues|
  {
  }

  lemma AddDiscovered(d: Discovery, known: map<string, InventoryItem>, runID: string, b: InventoryBody, i: nat)
    requires DiscoveryOk(d) && i < |d.files| + |d.issues|
    requires Tallied(b) && b.items == Discovered(d, known, runID)[..i]
    ensures var item := Discovered(d, known, runID)[i];
            Tallied(AddItem(b, item)) && SameHeader(AddItem(b, item), b) &&
            AddItem(b, item).items == Discovered(d, known, runID)[..i + 1]
  {
    hide Discovered, DiscoveryOk, ItemValid, Keys, Key, Tallied, AddItem, SameHeader;
    DiscoveredLength(d, known, runID);
    DiscoveredValid(d, known, runID, i);
    DiscoveredFresh(d, known, runID, i);
    AddItemTallied(b, Discovered(d, known, runID)[i]);
  }

  lemma FreshKey(items: seq<InventoryItem>, i: nat)
    requires i < |items| && |Keys(items)| == |items|
    ensures Key(items[i]) !in Keys(items[..i])
  {
    if Key(items[i]) in Keys(items[..i]) {
      RepeatedKey(items, i);
    }
  }

  function SessionEntry(identity: string, runID: string): InventoryItem {
    InventoryItem(identity, SessionItem, Available, "", 0, None, runID)
  }

  function MarkerEntry(identity: string): InventoryItem {
    InventoryItem(identity, SourceMarker, Unreadable, "", 0, None, "")
  }

  /** The sessions that a listing names: each valid digest once, in the order of its first mention. */
  function Sessions(identities: seq<string>, runID: string): seq<InventoryItem> {
    if identities == [] then []
    else
      var n := |identities| - 1;
      var before := Sessions(identities[..n], runID);
      if ValidSha(identities[n]) && SessionEntry(identities[n], runID) !in before
      then before + [SessionEntry(identities[n], runID)] else before
  }

  /** What a listing saw: its sessions and, when it failed, the digest that stands for the native source. */
  function ListedItems(identities: seq<string>, runID: string, complete: bool, marker: string): seq<InventoryItem> {
    Sessions(identities, runID) + if complete then [] else [MarkerEntry(marker)]
  }

  lemma {:induction false} SessionsAre(identities: seq<string>, runID: string)
    ensures forall x :: x in Sessions(identities, runID) <==>
              x.identity in identities && ValidSha(x.identity) && x == SessionEntry(x.identity, runID)
  {
    hide ValidSha;
    if identities != [] {
      var n := |identities| - 1;
      assert identities == identities[..n] + [identities[n]];
      SessionsAre(identities[..n], runID);
    }
  }

  /** buildSessionInventory; `marker` is the digest that stands for the native source as a whole. */
  method BuildSessionInventory(source: Source, runID: string, observedAt: Time, identities: seq<string>,
                               prior: Option<Inventory>, complete: bool, marker: string)
    returns (manifest: InventoryBody)
    requires PriorOk(prior) && ValidSha(marker)
    ensures Finished(manifest, source, runID, observedAt, PreCapture, ListedItems(identities, runID, complete, marker),
                     KnownOf(prior), complete)
  {
    hide Tallied, AddItem, KnownOk, Merged, Increasing, ValidSha, Sessions, Identities, SameHeader;
    manifest := NewInventory(source, runID, observedAt);
    BuildStarts(source, runID, observedAt, prior);
    NoSessions(runID, manifest);
    var known := PreviousKnown(prior);
    var listed: set<string> := {};
    var i := 0;
    while i < |identities|
      invariant 0 <= i <= |identities|
      invariant Tallied(manifest) && SameHeader(manifest, NewInventory(source, runID, observedAt))
      invariant listed == Identities(manifest.items) && manifest.items == Sessions(identities[..i], runID)
    {
      var identity := identities[i];
      SessionNext(manifest, identities, i, runID);
      if ValidSha(identity) && identity !in listed {
        listed := listed + {identity};
        SameHeaderThrough(AddItem(manifest, SessionEntry(identity, runID)), manifest,
                          NewInventory(source, runID, observedAt));
        manifest := AddItem(manifest, SessionEntry(identity, runID));
      }
      i := i + 1;
    }
    assert identities[..i] == identities;
    if !complete {
      MarkerNext(manifest, identities, runID, marker);
      SameHeaderThrough(AddItem(manifest, MarkerEntry(marker)), manifest, NewInventory(source, runID, observedAt));
      manifest := AddItem(manifest, MarkerEntry(marker));
    }
    assert manifest.items == ListedItems(identities, runID, complete, marker);
    manifest := FinishInventory(manifest, source, runID, observedAt, known, complete);
  }

  lemma NoSessions(runID: string, b: InventoryBody)
    requires b.items == []
    ensures Sessions([], runID) == [] && Identities(b.items) == {} && SameHeader(b, b)
  {
  }

  lemma SameHeaderThrough(a: InventoryBody, b: InventoryBody, c: InventoryBody)
    requires SameHeader(a, b) && SameHeader(b, c)
    ensures SameHeader(a, c)
  {
  }

  /** The loop body over one listed identity. */
  lemma SessionNext(b: InventoryBody, identities: seq<string>, i: nat, runID: string)
    requires i < |identities| && Tallied(b) && b.items == Sessions(identities[..i], runID)
    ensures var entry := SessionEntry(identities[i], runID);
            if ValidSha(identities[i]) && identities[i] !in Identities(b.items)
            then Tallied(AddItem(b, entry)) && SameHeader(AddItem(b, entry), b) &&
                 AddItem(b, entry).items == Sessions(identities[..i + 1], runID) &&
                 Identities(AddItem(b, entry).items) == Identities(b.items) + {identities[i]}
            else b.items == Sessions(identities[..i + 1], runID)
  {
    hide Tallied, AddItem, ValidSha, SameHeader;
    var entry := SessionEntry(identities[i], runID);
    assert identities[..i + 1][..i] == identities[..i];
    SessionsAre(identities[..i], runID);
    if ValidSha(identities[i]) && identities[i] !in Identities(b.items) {
      KeysAppend(b.items, entry);
      SessionFresh(b.items, identities[i], runID);
      AddItemTallied(b, entry);
    }
  }

  lemma MarkerNext(b: InventoryBody, identities: seq<string>, runID: string, marker: string)
    requires Tallied(b) && b.items == Sessions(identities, runID) && ValidSha(marker)
    ensures Tallied(AddItem(b, MarkerEntry(marker))) && SameHeader(AddItem(b, MarkerEntry(marker)), b)
    ensures AddItem(b, MarkerEntry(marker)).items == ListedItems(identities, runID, false, marker)
  {
    hide Tallied, AddItem, ValidSha, SameHeader;
    SessionsAre(identities, runID);
    MarkerFresh(b.items, marker);
    AddItemTallied(b, MarkerEntry(marker));
  }

  lemma SessionFresh(items: seq<InventoryItem>, identity: string, runID: string)
    requires identity !in Identities(items) && ValidSha(identity)
    ensures Key(SessionEntry(identity, runID)) !in Keys(items) && ItemValid(SessionEntry(identity, runID))
    ensures SessionEntry(identity, runID) !in items
  {
  }

  lemma MarkerFresh(items: seq<InventoryItem>, marker: string)
    requires ValidSha(marker) && forall x :: x in items ==> x.itemType.SessionItem?
    ensures Key(MarkerEntry(marker)) !in Keys(items) && ItemValid(MarkerEntry(marker))
  {
  }

  // ---- Chains of inventories never forget ----

  datatype Link = Link(seen: seq<InventoryItem>, complete: bool)

  /** Each inventory is built from what was seen and from its predecessor. */
  ghost predicate Chain(inventories: seq<seq<InventoryItem>>, links: seq<Link>) {
    |inventories| == |links| + 1 &&
    forall i :: 0 <= i < |links| ==>
      Merged(inventories[i + 1], links[i].seen, Known(inventories[i]), links[i].complete)
  }

  /** The one way an identity leaves: last known as a source marker, unseen by a complete discovery. */
  predicate Dropped(items: seq<InventoryItem>, link: Link, id: string) {
    id in Known(items) && Known(items)[id].itemType.SourceMarker? && link.complete && id !in Identities(link.seen)
  }

  lemma StepDropsExactly(prior: seq<InventoryItem>, next: seq<InventoryItem>, link: Link, id: string)
    requires Merged(next, link.seen, Known(prior), link.complete)
    requires id in Identities(prior)
    ensures id in Identities(next) <==> !Dropped(prior, link, id)
  {
    var known := Known(prior);
    if !Dropped(prior, link, id) {
      if id in Identities(link.seen) {
        var x :| x in link.seen && x.identity == id;
        assert x in next;
      } else {
        var x := UnavailableItem(id, known[id].itemType, CarryStatus(link.complete), known[id]);
        assert CarriedFrom(x, known, Identities(link.seen), link.complete);
        assert x in next;
      }
    } else {
      forall x | x in next
        ensures x.identity != id
      {
        assert x in link.seen || CarriedFrom(x, known, Identities(link.seen), link.complete);
      }
    }
  }

  /** An identity stays in every later inventory exactly when no step drops it. */
  lemma {:induction false} ChainForgetsOnlyMarkers(inventories: seq<seq<InventoryItem>>, links: seq<Link>, i: nat,
                                                   id: string)
    requires Chain(inventories, links) && i < |inventories| && id in Identities(inventories[i])
    ensures (forall j :: i <= j < |inventories| ==> id in Identities(inventories[j])) <==>
            (forall k :: i <= k < |links| ==> !Dropped(inventories[k], links[k], id))
    decreases |inventories| - i
  {
    if i < |links| {
      assert Merged(inventories[i + 1], links[i].seen, Known(inventories[i]), links[i].complete);
      StepDropsExactly(inventories[i], inventories[i + 1], links[i], id);
      if !Dropped(inventories[i], links[i], id) {
        ChainForgetsOnlyMarkers(inventories, links, i + 1, id);
      }
    }
  }

  /** No identity stands for a file or session in one inventory and for a source marker in another. */
  ghost predicate Unmixed(inventories: seq<seq<InventoryItem>>) {
    forall i, j, x, y ::
      0 <= i < |inventories| && 0 <= j < |inventories| && x in inventories[i] && y in inventories[j] ==>
        x.identity == y.identity ==> x.itemType.SourceMarker? == y.itemType.SourceMarker?
  }

  /** Every file or session ever recorded appears in each later inventory. */
  lemma ChainNeverForgets(inventories: seq<seq<InventoryItem>>, links: seq<Link>, i: nat, x: InventoryItem)
    requires Chain(inventories, links) && Unmixed(inventories)
    requires i < |inventories| && x in inventories[i] && !x.itemType.SourceMarker?
    ensures forall j :: i <= j < |inventories| ==> x.identity in Identities(inventories[j])
  {
    forall k | i <= k < |links|
      ensures !Dropped(inventories[k], links[k], x.identity)
    {
      var known := Known(inventories[k]);
      if x.identity in known {
        assert known[x.identity] in inventories[k];
      }
    }
    ChainForgetsOnlyMarkers(inventories, links, i, x.identity);
  }

  /** The identities that stand for source markers. */
  function Markers(items: seq<InventoryItem>): set<string> {
    set x | x in items && x.itemType.SourceMarker? :: x.identity
  }

  /** `later` is the last of a chain of inventories that starts with `prior`, and along which only `markers` were seen as
      source markers. */
  ghost predicate Descends(prior: seq<InventoryItem>, later: seq<InventoryItem>, markers: set<string>) {
    exists inventories, links :: Joins(inventories, links, prior, later, markers)
  }

  ghost predicate Joins(inventories: seq<seq<InventoryItem>>, links: seq<Link>, prior: seq<InventoryItem>,
                        later: seq<InventoryItem>, markers: set<string>)
  {
    Chain(inventories, links) && inventories[0] == prior && inventories[|inventories| - 1] == later &&
    forall i :: 0 <= i < |links| ==> Markers(links[i].seen) <= markers
  }

  lemma DescendsFromItself(items: seq<InventoryItem>, markers: set<string>)
    ensures Descends(items, items, markers)
  {
    assert Joins([items], [], items, items, markers);
  }

  /** One more inventory, built over the last one. */
  lemma DescendsNext(prior: seq<InventoryItem>, later: seq<InventoryItem>, next: seq<InventoryItem>,
                     seen: seq<InventoryItem>, complete: bool, markers: set<string>)
    requires Descends(prior, later, markers) && Merged(next, seen, Known(later), complete) && Markers(seen) <= markers
    ensures Descends(prior, next, markers)
  {
    hide Merged, Markers;
    var inventories, links :| Joins(inventories, links, prior, later, markers);
    var n := |links|;
    var more, joined := inventories + [next], links + [Link(seen, complete)];
    forall i | 0 <= i < |joined|
      ensures Merged(more[i + 1], joined[i].seen, Known(more[i]), joined[i].complete)
      ensures Markers(joined[i].seen) <= markers
    {
      if i < n {
        assert more[i] == inventories[i] && more[i + 1] == inventories[i + 1] && joined[i] == links[i];
        assert Merged(inventories[i + 1], links[i].seen, Known(inventories[i]), links[i].complete);
      }
    }
    assert Joins(more, joined, prior, next, markers);
  }

  lemma DescendsThrough(a: seq<InventoryItem>, b: seq<InventoryItem>, c: seq<InventoryItem>, markers: set<string>)
    requires Descends(a, b, markers) && Descends(b, c, markers)
    ensures Descends(a, c, markers)
  {
    hide Descends, Chain;
    var inventories, links := Joined(b, c, markers);
    assert |inventories| == |links| + 1 by { JoinedLength(inventories, links, b, c, markers); }
    DescendsAlong(a, b, c, inventories, links, |links|, markers);
  }

  lemma Joined(prior: seq<InventoryItem>, later: seq<InventoryItem>, markers: set<string>)
    returns (inventories: seq<seq<InventoryItem>>, links: seq<Link>)
    requires Descends(prior, later, markers)
    ensures Joins(inventories, links, prior, later, markers)
  {
    inventories, links :| Joins(inventories, links, prior, later, markers);
  }

  lemma JoinedLength(inventories: seq<seq<InventoryItem>>, links: seq<Link>, prior: seq<InventoryItem>,
                     later: seq<InventoryItem>, markers: set<string>)
    requires Joins(inventories, links, prior, later, markers)
    ensures |inventories| == |links| + 1
  {
  }

  lemma {:induction false} DescendsAlong(a: seq<InventoryItem>, b: seq<InventoryItem>, c: seq<InventoryItem>,
                                         inventories: seq<seq<InventoryItem>>, links: seq<Link>, n: nat,
                                         markers: set<string>)
    requires Descends(a, b, markers) && Joins(inventories, links, b, c, markers) && n <= |links|
    ensures Descends(a, inventories[n], markers)
  {
    hide Merged, Descends, Markers;
    if n > 0 {
      DescendsAlong(a, b, c, inventories, links, n - 1, markers);
      var i := n - 1;
      assert Merged(inventories[i + 1], links[i].seen, Known(inventories[i]), links[i].complete);
      DescendsNext(a, inventories[i], inventories[n], links[i].seen, links[i].complete, markers);
    }
  }

  lemma DescendsMore(prior: seq<InventoryItem>, later: seq<InventoryItem>, markers: set<string>, more: set<string>)
    requires Descends(prior, later, markers) && markers <= more
    ensures Descends(prior, later, more)
  {
    hide Chain, Markers;
    var inventories, links :| Joins(inventories, links, prior, later, markers);
    assert Joins(inventories, links, prior, later, more);
  }

  /** An identity that is never a source marker is in every later inventory, and never as a source marker. */
  lemma NeverForgotten(prior: seq<InventoryItem>, later: seq<InventoryItem>, markers: set<string>, id: string)
    requires Descends(prior, later, markers) && id in Identities(prior) && id !in Markers(prior) && id !in markers
    ensures id in Identities(later) && id !in Markers(later)
  {
    hide Descends, Chain, Identities, Markers;
    var inventories, links := Joined(prior, later, markers);
    JoinedLength(inventories, links, prior, later, markers);
    KeptAlong(inventories, links, prior, later, markers, id, |links|);
  }

  lemma {:induction false} KeptAlong(inventories: seq<seq<InventoryItem>>, links: seq<Link>, prior: seq<InventoryItem>,
                                     later: seq<InventoryItem>, markers: set<string>, id: string, n: nat)
    requires Joins(inventories, links, prior, later, markers) && n <= |links|
    requires id in Identities(prior) && id !in Markers(prior) && id !in markers
    ensures id in Identities(inventories[n]) && id !in Markers(inventories[n])
  {
    hide Merged, Identities, Markers, Dropped;
    if n > 0 {
      KeptAlong(inventories, links, prior, later, markers, id, n - 1);
      var i := n - 1;
      assert Merged(inventories[i + 1], links[i].seen, Known(inventories[i]), links[i].complete);
      StepKeeps(inventories[i], inventories[n], links[i], id);
    }
  }

  lemma StepKeeps(prior: seq<InventoryItem>, next: seq<InventoryItem>, link: Link, id: string)
    requires Merged(next, link.seen, Known(prior), link.complete)
    requires id in Identities(prior) && id !in Markers(prior) && id !in Markers(link.seen)
    ensures id in Identities(next) && id !in Markers(next)
  {
    StepDropsExactly(prior, next, link, id);
    assert Known(prior)[id] in prior;
  }

  /** Without that assumption a file is forgotten: its root goes missing and becomes a marker, and a later
      complete discovery that does not see the path drops the marker. */
  lemma RootTurnedMarkerIsForgotten(file: InventoryItem)
    requires file.itemType.FileItem?
    ensures var marker := UnavailableItem(file.identity, SourceMarker, Missing, file);
            Chain([[file], [marker], []], [Link([marker], true), Link([], true)]) &&
            file.identity !in Identities([])
  {
    var marker := UnavailableItem(file.identity, SourceMarker, Missing, file);
    var inventories, links := [[file], [marker], []], [Link([marker], true), Link([], true)];
    assert marker in links[0].seen;
    assert Known([marker]) == map[file.identity := marker] by { assert [marker][..0] == []; }
    forall x
      ensures !CarriedFrom(x, Known([file]), Identities([marker]), true)
      ensures !CarriedFrom(x, Known([marker]), Identities([]), true)
    {
      assert Known([file]).Keys == Identities([file]) == {file.identity};
    }
    assert Merged(inventories[1], links[0].seen, Known(inventories[0]), true);
    assert Merged(inventories[2], links[1].seen, Known(inventories[1]), true);
  }

  /** A finished inventory is accepted exactly when it is not too large. */
  lemma BuiltInventoryValid(source: Source, runID: string, observedAt: Time, b: InventoryBody)
    requires ValidSourceID(source.id) && source.agent == AgentOfKind(source.kind)
    requires runID != "" && observedAt != ZERO_TIME
    requires Tallied(b) && SameHeader(b, NewInventory(source, runID, observedAt).(phase := b.phase))
    ensures InventoryValid(Inventory(b, InventoryDigest(b))) <==> |b.items| <= MAX_ITEMS
  {
  }

  /** inventoriesEquivalent: same source, same status and totals, same items in the same order. */
  predicate Equivalent(a: InventoryBody, b: InventoryBody) {
    a.sourceID == b.sourceID && a.agent == b.agent && a.kind == b.kind && a.status == b.status &&
    a.available == b.available && a.missing == b.missing && a.unreadable == b.unreadable &&
    a.unverified == b.unverified && a.items == b.items
  }
}
