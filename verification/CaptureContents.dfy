/** What a finished inventory lists, told by the answers of the file system, by the listing and by the predecessor. */
module CaptureContents {
  import opened Primitives
  import opened Ordering
  import opened Sorting
  import opened CaptureTypes
  import opened CaptureInventory
  import opened CaptureState

  // ---- Items ----

  /** What was last known of an identity is kept; of an unknown one nothing is known. */
  predicate KeepsDetails(x: InventoryItem, known: map<string, InventoryItem>) {
    if x.identity in known then
      var last := known[x.identity];
      x.content == last.content && x.bytes == last.bytes && x.modifiedAt == last.modifiedAt &&
      x.lastSeenRunID == last.lastSeenRunID
    else x.content == "" && x.bytes == 0 && x.modifiedAt.None? && x.lastSeenRunID == ""
  }

  /** A file that was read is available as it was read in this run; one that failed keeps what was known of it. */
  predicate FileSaid(x: InventoryItem, f: FileSeen, known: map<string, InventoryItem>, runID: string) {
    match f
    case FileRead(identity, content, bytes, modifiedAt, _) =>
      x == InventoryItem(identity, FileItem, Available, content, bytes, Some(modifiedAt), runID)
    case FileFailed(identity, status) =>
      x.identity == identity && x.itemType.FileItem? && x.status == status && KeepsDetails(x, known)
  }

  predicate IssueSaid(x: InventoryItem, issue: DiscoveryIssue, known: map<string, InventoryItem>) {
    x.identity == issue.identity && x.itemType == issue.itemType && x.status == issue.status && KeepsDetails(x, known)
  }

  /** An item of the predecessor that was not seen is missing after a complete discovery, and unverified otherwise; a
      source marker is dropped after a complete one. */
  predicate CarriedOver(x: InventoryItem, known: map<string, InventoryItem>, complete: bool) {
    x.identity in known && x.itemType == known[x.identity].itemType && KeepsDetails(x, known) &&
    if complete then x.status.Missing? && !x.itemType.SourceMarker? else x.status.Unverified?
  }

  predicate Saw(d: Discovery, identity: string) {
    (exists f :: f in d.files && f.identity == identity) || exists issue :: issue in d.issues && issue.identity == identity
  }

  ghost predicate FileListed(x: InventoryItem, d: Discovery, known: map<string, InventoryItem>, runID: string) {
    (exists f :: f in d.files && FileSaid(x, f, known, runID)) ||
    exists issue :: issue in d.issues && IssueSaid(x, issue, known)
  }

  lemma EntrySays(x: InventoryItem, f: FileSeen, known: map<string, InventoryItem>, runID: string)
    ensures x == FileEntry(f, known, runID) <==> FileSaid(x, f, known, runID)
  {
  }

  lemma IssueSays(x: InventoryItem, issue: DiscoveryIssue, known: map<string, InventoryItem>)
    ensures x == IssueEntry(issue, known) <==> IssueSaid(x, issue, known)
  {
  }

  lemma DiscoveredListed(d: Discovery, known: map<string, InventoryItem>, runID: string, x: InventoryItem)
    ensures x in Discovered(d, known, runID) <==> FileListed(x, d, known, runID)
  {
    hide FileEntry, IssueEntry, FileSaid, IssueSaid;
    var files, issues := FileEntries(d.files, known, runID), IssueEntries(d.issues, known);
    if x in files {
      var i :| 0 <= i < |files| && files[i] == x;
      EntrySays(x, d.files[i], known, runID);
      assert d.files[i] in d.files;
    }
    if x in issues {
      var i :| 0 <= i < |issues| && issues[i] == x;
      IssueSays(x, d.issues[i], known);
      assert d.issues[i] in d.issues;
    }
    if f :| f in d.files && FileSaid(x, f, known, runID) {
      var i :| 0 <= i < |d.files| && d.files[i] == f;
      EntrySays(x, f, known, runID);
      assert files[i] == x;
    }
    if issue :| issue in d.issues && IssueSaid(x, issue, known) {
      var i :| 0 <= i < |d.issues| && d.issues[i] == issue;
      IssueSays(x, issue, known);
      assert issues[i] == x;
    }
  }

  lemma DiscoveredSaw(d: Discovery, known: map<string, InventoryItem>, runID: string, identity: string)
    ensures identity in Identities(Discovered(d, known, runID)) <==> Saw(d, identity)
  {
    var all := Discovered(d, known, runID);
    if x :| x in all && x.identity == identity {
      DiscoveredListed(d, known, runID, x);
    }
    if f :| f in d.files && f.identity == identity {
      EntrySays(FileEntry(f, known, runID), f, known, runID);
      DiscoveredListed(d, known, runID, FileEntry(f, known, runID));
    }
    if issue :| issue in d.issues && issue.identity == identity {
      IssueSays(IssueEntry(issue, known), issue, known);
      DiscoveredListed(d, known, runID, IssueEntry(issue, known));
    }
  }

  lemma CarriedSays(x: InventoryItem, known: map<string, InventoryItem>, seen: set<string>, complete: bool)
    requires forall id :: id in known ==> known[id].identity == id
    ensures CarriedFrom(x, known, seen, complete) <==> x.identity !in seen && CarriedOver(x, known, complete)
  {
  }

  /** An inventory of files lists what was read, what failed, and what was known before and is no longer seen. */
  lemma FileContents(body: InventoryBody, source: Source, runID: string, at: Time, phase: Phase, d: Discovery,
                     known: map<string, InventoryItem>, x: InventoryItem)
    requires forall id :: id in known ==> known[id].identity == id
    requires Finished(body, source, runID, at, phase, Discovered(d, known, runID), known, d.complete)
    ensures x in body.items <==>
            FileListed(x, d, known, runID) || (!Saw(d, x.identity) && CarriedOver(x, known, d.complete))
  {
    hide Discovered, CarriedFrom, CarriedOver, FileListed, Saw, Identities, Tallied, Increasing;
    DiscoveredListed(d, known, runID, x);
    DiscoveredSaw(d, known, runID, x.identity);
    CarriedSays(x, known, Identities(Discovered(d, known, runID)), d.complete);
  }

  /** What a listing of sessions shows: each valid digest as available in this run and, when the listing failed, the
      marker of the source as unreadable. */
  predicate SessionListed(x: InventoryItem, identities: seq<string>, runID: string, complete: bool, marker: string) {
    (x.identity in identities && ValidSha(x.identity) &&
     x == InventoryItem(x.identity, SessionItem, Available, "", 0, None, runID)) ||
    (!complete && x == InventoryItem(marker, SourceMarker, Unreadable, "", 0, None, ""))
  }

  predicate ListingSaw(identities: seq<string>, complete: bool, marker: string, identity: string) {
    (identity in identities && ValidSha(identity)) || (!complete && identity == marker)
  }

  lemma ListedSays(identities: seq<string>, runID: string, complete: bool, marker: string, x: InventoryItem)
    ensures x in ListedItems(identities, runID, complete, marker) <==>
            SessionListed(x, identities, runID, complete, marker)
  {
    hide ValidSha;
    SessionsAre(identities, runID);
  }

  lemma ListedSaw(identities: seq<string>, runID: string, complete: bool, marker: string, identity: string)
    ensures identity in Identities(ListedItems(identities, runID, complete, marker)) <==>
            ListingSaw(identities, complete, marker, identity)
  {
    hide ValidSha, ListedItems;
    var items := ListedItems(identities, runID, complete, marker);
    if x :| x in items && x.identity == identity {
      ListedSays(identities, runID, complete, marker, x);
    }
    ListedSays(identities, runID, complete, marker, InventoryItem(identity, SessionItem, Available, "", 0, None, runID));
    ListedSays(identities, runID, complete, marker, InventoryItem(identity, SourceMarker, Unreadable, "", 0, None, ""));
  }

  /** An inventory of sessions lists what the listing shows, and what was known before and is no longer seen. */
  lemma SessionContents(body: InventoryBody, source: Source, runID: string, at: Time, phase: Phase,
                        identities: seq<string>, complete: bool, marker: string, known: map<string, InventoryItem>,
                        x: InventoryItem)
    requires forall id :: id in known ==> known[id].identity == id
    requires Finished(body, source, runID, at, phase, ListedItems(identities, runID, complete, marker), known, complete)
    ensures x in body.items <==>
            SessionListed(x, identities, runID, complete, marker) ||
            (!ListingSaw(identities, complete, marker, x.identity) && CarriedOver(x, known, complete))
  {
    hide ListedItems, CarriedFrom, CarriedOver, SessionListed, ListingSaw, Identities, Tallied, Increasing;
    ListedSays(identities, runID, complete, marker, x);
    ListedSaw(identities, runID, complete, marker, x.identity);
    CarriedSays(x, known, Identities(ListedItems(identities, runID, complete, marker)), complete);
  }

  // ---- Status ----

  predicate Has(items: seq<InventoryItem>, status: ItemStatus) {
    exists x :: x in items && x.status == status
  }

  predicate AllAvailable(items: seq<InventoryItem>) {
    forall x :: x in items ==> x.status.Available?
  }

  lemma {:induction false} CountPositive<T>(s: seq<T>, p: T -> bool)
    ensures Count(s, p) > 0 <==> exists x :: x in s && p(x)
  {
    if s != [] {
      var n := |s| - 1;
      assert s == s[..n] + [s[n]];
      CountPositive(s[..n], p);
    }
  }

  lemma TotalPositive(items: seq<InventoryItem>, tally: ItemStatus)
    ensures Total(items, tally) > 0 <==> exists x :: x in items && Class(x.status) == tally
  {
    CountPositive(items, (x: InventoryItem) => Class(x.status) == tally);
  }

  lemma TotalsMean(b: InventoryBody)
    requires Tallied(b)
    ensures (b.available > 0 <==> Has(b.items, Available)) && (b.missing > 0 <==> Has(b.items, Missing))
    ensures b.unverified > 0 <==> Has(b.items, Unverified)
    ensures b.unreadable > 0 <==>
            exists x :: x in b.items && !x.status.Available? && !x.status.Missing? && !x.status.Unverified?
    ensures b.available >= 0 && b.missing >= 0 && b.unreadable >= 0 && b.unverified >= 0
  {
    hide Total, Keys;
    TotalPositive(b.items, Available);
    TotalPositive(b.items, Missing);
    TotalPositive(b.items, Unreadable);
    TotalPositive(b.items, Unverified);
  }

  /** The status of a finished inventory, told by its items. */
  lemma StatusMeans(b: InventoryBody)
    requires Tallied(b) && b.status == FinalStatus(b)
    ensures b.status.InvAvailable? <==> b.items != [] && AllAvailable(b.items)
    ensures b.status.InvEmpty? <==> b.items == []
    ensures b.status.InvPartial? <==> Has(b.items, Available) && !AllAvailable(b.items)
    ensures b.status.InvUnverified? <==> !Has(b.items, Available) && Has(b.items, Unverified)
    ensures b.status.InvMissing? <==>
            !Has(b.items, Available) && !Has(b.items, Unverified) && Has(b.items, Missing)
    ensures b.status.InvUnreadable? <==>
            b.items != [] && !Has(b.items, Available) && !Has(b.items, Unverified) && !Has(b.items, Missing)
  {
    hide Tallied;
    TotalsMean(b);
    SomeItem(b.items);
  }

  lemma SomeItem(items: seq<InventoryItem>)
    ensures items != [] <==> exists x :: x in items
  {
    if items != [] {
      assert items[0] in items;
    }
  }

  /** Two inventories of one source are equivalent exactly when they list the same items. */
  lemma EquivalentExactly(a: InventoryBody, b: InventoryBody)
    requires Tallied(a) && Tallied(b) && a.status == FinalStatus(a) && b.status == FinalStatus(b)
    requires a.sourceID == b.sourceID && a.agent == b.agent && a.kind == b.kind
    ensures Equivalent(a, b) <==> a.items == b.items
  {
  }

  /** The inventory of a source, finished. */
  ghost predicate FinishedFor(b: InventoryBody, source: Source) {
    Tallied(b) && b.status == FinalStatus(b) && b.sourceID == source.id && b.agent == source.agent && b.kind == source.kind
  }

  ghost predicate Complete(b: InventoryBody) {
    b.items != [] && AllAvailable(b.items)
  }

  /** The inventories of a source allow a success exactly when they list something and everything they list is available:
      one from before for a native source, and otherwise one from before and one from after that list the same. */
  lemma SuccessExactly(source: Source, inventories: seq<Inventory>)
    requires forall x :: x in inventories ==> FinishedFor(x.body, source)
    ensures SuccessfulInventories(source, inventories) <==>
            if source.kind.OpenCodeNative? then
              |inventories| == 1 && inventories[0].body.phase.PreCapture? && Complete(inventories[0].body)
            else
              |inventories| == 2 && inventories[0].body.phase.PreCapture? && inventories[1].body.phase.PostCapture? &&
              Complete(inventories[0].body) && inventories[1].body.items == inventories[0].body.items
  {
    hide Tallied, Equivalent, FinalStatus;
    forall x | x in inventories
      ensures x.body.status.InvAvailable? && x.body.available != 0 <==> Complete(x.body)
    {
      StatusMeans(x.body);
      TotalsMean(x.body);
      SomeItem(x.body.items);
    }
    if |inventories| == 2 {
      assert inventories[0] in inventories && inventories[1] in inventories;
      EquivalentExactly(inventories[0].body, inventories[1].body);
    }
    assert |inventories| > 0 ==> inventories[0] in inventories;
  }

  /** The next capture reads everything again exactly when something is not available, nothing is, or a known file
      reappeared or changed before its end. */
  lemma NeedsFullMeans(b: InventoryBody, d: Discovery, known: map<string, InventoryItem>)
    requires Tallied(b)
    ensures NeedsFull(b, d, known) <==>
            b.items == [] || !AllAvailable(b.items) ||
            exists f :: f in d.files && f.FileRead? && f.identity in known &&
                        (!known[f.identity].status.Available? ||
                         (known[f.identity].content != f.content && !f.prefixMatches))
  {
    hide Tallied;
    TotalsMean(b);
    SomeItem(b.items);
    if f :| f in d.files && f.FileRead? && f.identity in known &&
            (!known[f.identity].status.Available? || (known[f.identity].content != f.content && !f.prefixMatches))
    {
      assert ChangedInPlace(f, known);
    }
  }

  // ---- Acceptance ----

  /** What an item has to be; only files and sessions can be available, and an available file has a content. */
  predicate ItemSound(x: InventoryItem) {
    ValidSha(x.identity) &&
    match x.itemType
    case SourceMarker => !x.status.Available?
    case SessionItem => true
    case FileItem => x.status.Available? ==> ValidSha(x.content) && x.bytes >= 0 && x.modifiedAt.Some?
  }

  ghost predicate NoItemTwice(items: seq<InventoryItem>) {
    forall i, j :: 0 <= i < j < |items| ==> items[i].identity != items[j].identity || items[i].itemType != items[j].itemType
  }

  /** The four counters: three statuses have their own, all others share one. */
  predicate Recounted(b: InventoryBody) {
    b.available == Count(b.items, (x: InventoryItem) => x.status.Available?) &&
    b.missing == Count(b.items, (x: InventoryItem) => x.status.Missing?) &&
    b.unverified == Count(b.items, (x: InventoryItem) => x.status.Unverified?) &&
    b.available + b.missing + b.unverified + b.unreadable == |b.items|
  }

  lemma {:induction false} SameCount<T>(s: seq<T>, p: T -> bool, q: T -> bool)
    requires forall x :: p(x) == q(x)
    ensures Count(s, p) == Count(s, q)
  {
    if s != [] {
      SameCount(s[..|s| - 1], p, q);
    }
  }

  lemma {:induction false} TotalsAddUp(items: seq<InventoryItem>)
    ensures Total(items, Available) + Total(items, Missing) + Total(items, Unverified) + Total(items, Unreadable) == |items|
  {
    if items != [] {
      var n := |items| - 1;
      assert items == items[..n] + [items[n]];
      TotalsAddUp(items[..n]);
      TotalAppend(items[..n], items[n], Available);
      TotalAppend(items[..n], items[n], Missing);
      TotalAppend(items[..n], items[n], Unverified);
      TotalAppend(items[..n], items[n], Unreadable);
    }
  }

  lemma RecountedExactly(b: InventoryBody)
    ensures Counted(b.items, b.available, b.missing, b.unreadable, b.unverified) <==> Recounted(b)
  {
    TotalsAddUp(b.items);
    SameCount(b.items, (x: InventoryItem) => Class(x.status) == Available, (x: InventoryItem) => x.status.Available?);
    SameCount(b.items, (x: InventoryItem) => Class(x.status) == Missing, (x: InventoryItem) => x.status.Missing?);
    SameCount(b.items, (x: InventoryItem) => Class(x.status) == Unverified, (x: InventoryItem) => x.status.Unverified?);
  }

  lemma {:induction false} ManyKeys(items: seq<InventoryItem>)
    requires NoItemTwice(items)
    ensures |Keys(items)| == |items|
  {
    if items != [] {
      var n := |items| - 1;
      assert items == items[..n] + [items[n]];
      ManyKeys(items[..n]);
      KeysAppend(items[..n], items[n]);
    }
  }

  lemma DistinctExactly(items: seq<InventoryItem>)
    ensures |Keys(items)| == |items| <==> NoItemTwice(items)
  {
    hide Keys;
    if NoItemTwice(items) {
      ManyKeys(items);
    } else {
      var i, j :| 0 <= i < j < |items| && items[i].identity == items[j].identity && items[i].itemType == items[j].itemType;
      if |Keys(items)| == |items| {
        KeyAtDiffers(items, i, j);
      }
    }
  }

  /** An inventory is accepted exactly when it carries its own digest, names its run, its source and its configuration, was
      taken at some time by the agent of its kind, and lists at most a million sound items, none twice, with the right
      counters. */
  lemma AcceptedExactly(inventory: Inventory)
    ensures var b := inventory.body;
            InventoryValid(inventory) <==>
            inventory.sha == InventoryDigest(b) && b.runID != "" && ValidSourceID(b.sourceID) &&
            !b.sourceConfig.Absent? && !b.sourceConfig.Malformed? && b.observedAt != 0 && b.agent == AgentOfKind(b.kind) &&
            |b.items| <= 1_000_000 && (forall x :: x in b.items ==> ItemSound(x)) && NoItemTwice(b.items) && Recounted(b)
  {
    hide Keys, Total, Recounted, NoItemTwice, Counted, ValidSha, ValidSourceID;
    TalliedWhen(inventory.body);
    RecountedExactly(inventory.body);
    DistinctExactly(inventory.body.items);
    assert forall x :: ItemValid(x) <==> ItemSound(x);
  }
}
