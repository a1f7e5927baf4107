/** Evaluation snapshots: what they read, why their checks never fail, and why history cannot change them. */
module CaptureSnapshot {
  import opened Primitives
  import opened Ordering
  import opened Sorting
  import opened CaptureTypes
  import opened CaptureInventory
  import opened CaptureState
  import opened CaptureSafety

  datatype SnapshotSource = SnapshotSource(sourceID: string, agent: Agent, kind: SourceKind, sourceConfig: Digest,
                                           inventory: Digest, items: seq<InventoryItem>)

  datatype Snapshot = Snapshot(runID: string, config: Digest, audit: Digest, completedAt: Time,
                               fullReconcile: bool, sources: seq<SnapshotSource>)

  datatype SnapshotError =
    | NoSuccessfulRun | NotFullReconcile | SourceDidNotSucceed(id: string) | IncompleteInventories(id: string)
    | BlobUnavailable(id: string) | AgentMissing | NoRequiredSources

  /** The captured blobs that open and match their content hash and size. */
  type Blobs = set<(string, int)>

  predicate BlobsCover(items: seq<InventoryItem>, blobs: Blobs) {
    forall i :: 0 <= i < |items| && items[i].itemType.FileItem? && items[i].status.Available? ==>
      (items[i].content, items[i].bytes) in blobs
  }

  predicate ByIdentity(a: InventoryItem, b: InventoryItem) {
    if a.identity != b.identity then Less(a.identity, b.identity) else StatusRank(a.status) < StatusRank(b.status)
  }

  function SortedItems(items: seq<InventoryItem>): seq<InventoryItem> {
    SortBy(items, (a, b) => ByIdentity(a, b))
  }

  /** What one required source contributes. */
  function SourceEntry(c: Completed, id: string, blobs: Blobs): Result<SnapshotSource, SnapshotError>
    requires id in c.sources
  {
    var source, inventories := c.sources[id], Listed(c.inventories, id);
    if id !in c.results || !c.results[id].outcome.Success? || c.results[id].sourceConfig.Absent? then
      Err(SourceDidNotSucceed(id))
    else if !SuccessfulInventories(source, inventories) then Err(IncompleteInventories(id))
    else if !BlobsCover(SortedItems(inventories[0].body.items), blobs) then Err(BlobUnavailable(id))
    else Ok(SnapshotSource(id, source.agent, source.kind, c.results[id].sourceConfig, inventories[0].sha,
                           SortedItems(inventories[0].body.items)))
  }

  /** The entries of the required sources among `ids`, in order, or the first error. */
  function Entries(c: Completed, ids: seq<string>, blobs: Blobs): Result<seq<SnapshotSource>, SnapshotError>
    requires forall id :: id in ids ==> id in c.sources
  {
    if ids == [] then Ok([])
    else
      var n := |ids| - 1;
      match Entries(c, ids[..n], blobs)
      case Err(e) => Err(e)
      case Ok(done) =>
        if !c.sources[ids[n]].required then Ok(done)
        else
          match SourceEntry(c, ids[n], blobs)
          case Err(e) => Err(e)
          case Ok(entry) => Ok(done + [entry])
  }

  predicate AgentCovered(agent: Agent, sources: seq<SnapshotSource>) {
    exists i :: 0 <= i < |sources| && sources[i].agent == agent
  }

  ghost function SnapshotOf(c: Completed, agents: seq<Agent>, blobs: Blobs): Result<Snapshot, SnapshotError> {
    if c.runID == "" || !c.outcome.Success? then Err(NoSuccessfulRun)
    else if !c.fullReconcile then Err(NotFullReconcile)
    else
      match Entries(c, SortedSet(c.sources.Keys), blobs)
      case Err(e) => Err(e)
      case Ok(sources) =>
        if exists a :: a in agents && !AgentCovered(a, sources) then Err(AgentMissing)
        else if sources == [] then Err(NoRequiredSources)
        else Ok(Snapshot(c.runID, c.config, c.audit, c.at, c.fullReconcile, sources))
  }

  lemma {:induction false} FirstErrorStays(c: Completed, ids: seq<string>, k: nat, blobs: Blobs)
    requires forall id :: id in ids ==> id in c.sources
    requires k <= |ids| && Entries(c, ids[..k], blobs).Err?
    ensures Entries(c, ids, blobs) == Entries(c, ids[..k], blobs)
  {
    if k == |ids| {
      assert ids[..k] == ids;
    } else {
      var n := |ids| - 1;
      assert ids[..n][..k] == ids[..k];
      FirstErrorStays(c, ids[..n], k, blobs);
    }
  }

  lemma EntriesStep(c: Completed, ids: seq<string>, i: nat, blobs: Blobs)
    requires forall id :: id in ids ==> id in c.sources
    requires i < |ids| && Entries(c, ids[..i], blobs).Ok?
    ensures Entries(c, ids[..i + 1], blobs) ==
            if !c.sources[ids[i]].required then Entries(c, ids[..i], blobs)
            else
              match SourceEntry(c, ids[i], blobs)
              case Err(e) => Err(e)
              case Ok(entry) => Ok(Entries(c, ids[..i], blobs).value + [entry])
  {
    assert ids[..i + 1][..i] == ids[..i];
    hide SourceEntry;
  }

  // ---- What a snapshot says ----

  predicate InOrder(a: InventoryItem, b: InventoryItem) {
    Less(a.identity, b.identity) || (a.identity == b.identity && StatusRank(a.status) <= StatusRank(b.status))
  }

  /** The source was required and captured, and the entry lists the items of the first inventory that the run recorded
      of it. */
  ghost predicate EntryShows(c: Completed, entry: SnapshotSource) {
    var id := entry.sourceID;
    id in c.sources && c.sources[id].required && entry.agent == c.sources[id].agent && entry.kind == c.sources[id].kind &&
    id in c.results && c.results[id].outcome.Success? && entry.sourceConfig == c.results[id].sourceConfig != Absent &&
    id in c.inventories && SuccessfulInventories(c.sources[id], c.inventories[id]) && c.inventories[id] != [] &&
    entry.inventory == c.inventories[id][0].sha &&
    multiset(entry.items) == multiset(c.inventories[id][0].body.items) &&
    forall i, j :: 0 <= i < j < |entry.items| ==> InOrder(entry.items[i], entry.items[j])
  }

  /** Every file that an entry says was available verifies. */
  ghost predicate EntryVerified(entry: SnapshotSource, blobs: Blobs) {
    forall x :: x in entry.items && x.itemType.FileItem? && x.status.Available? ==> (x.content, x.bytes) in blobs
  }

  ghost predicate EntriesShow(c: Completed, entries: seq<SnapshotSource>, blobs: Blobs) {
    (forall i, j :: 0 <= i < j < |entries| ==> Less(entries[i].sourceID, entries[j].sourceID)) &&
    forall i :: 0 <= i < |entries| ==> EntryShows(c, entries[i]) && EntryVerified(entries[i], blobs)
  }

  ghost predicate Shows(entries: seq<SnapshotSource>, id: string) {
    exists i :: 0 <= i < |entries| && entries[i].sourceID == id
  }

  /** One entry for each required source, in the order of their ids, of the last completed run. */
  ghost predicate SnapshotShows(c: Completed, agents: seq<Agent>, blobs: Blobs, snapshot: Snapshot) {
    c.runID != "" && c.outcome.Success? && c.fullReconcile && snapshot.runID == c.runID && snapshot.config == c.config &&
    snapshot.audit == c.audit && snapshot.completedAt == c.at && snapshot.fullReconcile &&
    EntriesShow(c, snapshot.sources, blobs) && snapshot.sources != [] &&
    (forall id :: Shows(snapshot.sources, id) <==> id in c.sources && c.sources[id].required) &&
    forall a :: a in agents ==> exists id :: id in c.sources && c.sources[id].required && c.sources[id].agent == a
  }

  /** Each reason against a snapshot is a condition of it that fails. */
  ghost predicate Refused(c: Completed, agents: seq<Agent>, blobs: Blobs, e: SnapshotError) {
    match e
    case NoSuccessfulRun => c.runID == "" || !c.outcome.Success?
    case NotFullReconcile => c.runID != "" && c.outcome.Success? && !c.fullReconcile
    case SourceDidNotSucceed(id) =>
      RequiredAt(c, id) && (id in c.results && c.results[id].outcome.Success? ==> c.results[id].sourceConfig.Absent?)
    case IncompleteInventories(id) =>
      RequiredAt(c, id) && (id in c.inventories ==> !SuccessfulInventories(c.sources[id], c.inventories[id]))
    case BlobUnavailable(id) =>
      RequiredAt(c, id) && id in c.inventories && c.inventories[id] != [] &&
      exists x :: x in c.inventories[id][0].body.items && x.itemType.FileItem? && x.status.Available? &&
                  (x.content, x.bytes) !in blobs
    case AgentMissing =>
      exists a :: a in agents && forall id :: id in c.sources && c.sources[id].required ==> c.sources[id].agent != a
    case NoRequiredSources => forall id :: id in c.sources ==> !c.sources[id].required
  }

  lemma IdentityOrder()
    ensures WeakOrder((a: InventoryItem, b: InventoryItem) => ByIdentity(a, b))
  {
    forall a: InventoryItem, b: InventoryItem, c: InventoryItem
      ensures !ByIdentity(a, a)
      ensures ByIdentity(a, b) && ByIdentity(b, c) ==> ByIdentity(a, c)
      ensures ByIdentity(a, c) ==> ByIdentity(a, b) || ByIdentity(b, c)
    {
      ByIdentityLaws(a, b, c);
    }
  }

  lemma ByIdentityLaws(a: InventoryItem, b: InventoryItem, c: InventoryItem)
    ensures !ByIdentity(a, a)
    ensures ByIdentity(a, b) && ByIdentity(b, c) ==> ByIdentity(a, c)
    ensures ByIdentity(a, c) ==> ByIdentity(a, b) || ByIdentity(b, c)
    ensures !ByIdentity(b, a) ==> InOrder(a, b)
  {
    hide StatusRank, Less;
    var x, y := a.(itemType := FileItem), b.(itemType := FileItem);
    ItemLessLaws(x, y, c.(itemType := FileItem));
    LessTotal(a.identity, b.identity);
  }

  /** What a source contributes is its first inventory, sorted. */
  lemma SourceEntryShows(c: Completed, id: string, agents: seq<Agent>, blobs: Blobs)
    requires id in c.sources && c.sources[id].required
    ensures match SourceEntry(c, id, blobs)
            case Ok(entry) => entry.sourceID == id && EntryShows(c, entry) && EntryVerified(entry, blobs)
            case Err(e) => Refused(c, agents, blobs, e)
  {
    hide StatusRank, Less, ByIdentity, InOrder;
    var inventories := Listed(c.inventories, id);
    if inventories != [] {
      var items := inventories[0].body.items;
      BlobsCoverSorted(items, blobs);
      ItemsInOrder(items);
      SortMembers(items, (a, b) => ByIdentity(a, b));
      hide BlobsCover, SortedItems;
    }
  }

  lemma ItemsInOrder(items: seq<InventoryItem>)
    ensures var r := SortedItems(items);
            multiset(r) == multiset(items) && forall i, j :: 0 <= i < j < |r| ==> InOrder(r[i], r[j])
  {
    hide StatusRank, Less, ByIdentity, InOrder;
    var less := (a, b) => ByIdentity(a, b);
    IdentityOrder();
    SortNotDescending(items, less);
    var r := SortBy(items, less);
    forall i, j | 0 <= i < j < |r|
      ensures InOrder(r[i], r[j])
    {
      assert !less(r[j], r[i]);
      ByIdentityLaws(r[i], r[j], r[j]);
    }
  }

  lemma ShowsNext(entries: seq<SnapshotSource>, entry: SnapshotSource)
    ensures forall id :: Shows(entries + [entry], id) <==> Shows(entries, id) || id == entry.sourceID
  {
    var more := entries + [entry];
    assert more[|entries|] == entry;
    forall id | Shows(entries, id)
      ensures Shows(more, id)
    {
      var i :| 0 <= i < |entries| && entries[i].sourceID == id;
      assert more[i].sourceID == id;
    }
  }

  lemma EntriesShowNext(c: Completed, entries: seq<SnapshotSource>, entry: SnapshotSource, blobs: Blobs)
    requires EntriesShow(c, entries, blobs) && EntryShows(c, entry) && EntryVerified(entry, blobs)
    requires forall id :: Shows(entries, id) ==> Less(id, entry.sourceID)
    ensures EntriesShow(c, entries + [entry], blobs)
  {
    hide EntryShows, EntryVerified, Less;
    forall i | 0 <= i < |entries|
      ensures Less(entries[i].sourceID, entry.sourceID)
    {
      assert Shows(entries, entries[i].sourceID);
    }
  }

  lemma {:induction false} EntriesMean(c: Completed, ids: seq<string>, agents: seq<Agent>, blobs: Blobs)
    requires StrictlySorted(ids) && forall id :: id in ids ==> id in c.sources
    ensures match Entries(c, ids, blobs)
            case Err(e) => Refused(c, agents, blobs, e)
            case Ok(entries) =>
              EntriesShow(c, entries, blobs) && forall id :: Shows(entries, id) <==> id in ids && RequiredAt(c, id)
  {
    hide SourceEntry, Refused, Less, EntryShows, EntryVerified;
    if ids != [] {
      var n := |ids| - 1;
      var front := ids[..n];
      assert ids == front + [ids[n]];
      EntriesMean(c, front, agents, blobs);
      if Entries(c, front, blobs).Ok? && RequiredAt(c, ids[n]) {
        SourceEntryShows(c, ids[n], agents, blobs);
        if SourceEntry(c, ids[n], blobs).Ok? {
          var entries, entry := Entries(c, front, blobs).value, SourceEntry(c, ids[n], blobs).value;
          EntriesShowNext(c, entries, entry, blobs);
          ShowsNext(entries, entry);
        }
      }
    }
  }

  /** An agent is covered when one of its sources was required. */
  lemma CoveredByRequired(c: Completed, entries: seq<SnapshotSource>, blobs: Blobs, a: Agent)
    requires EntriesShow(c, entries, blobs)
    requires forall id :: Shows(entries, id) <==> id in c.sources && c.sources[id].required
    ensures AgentCovered(a, entries) <==> exists id :: id in c.sources && c.sources[id].required && c.sources[id].agent == a
  {
    hide EntryVerified;
    if i :| 0 <= i < |entries| && entries[i].agent == a {
      assert EntryShows(c, entries[i]);
    }
    if id :| id in c.sources && c.sources[id].required && c.sources[id].agent == a {
      assert Shows(entries, id);
      var i :| 0 <= i < |entries| && entries[i].sourceID == id;
      assert EntryShows(c, entries[i]);
    }
  }

  lemma SnapshotMeans(c: Completed, agents: seq<Agent>, blobs: Blobs)
    ensures match SnapshotOf(c, agents, blobs)
            case Ok(snapshot) => SnapshotShows(c, agents, blobs, snapshot)
            case Err(e) => Refused(c, agents, blobs, e)
  {
    hide Entries, AgentCovered, EntriesShow, Shows;
    var ids := SortedSet(c.sources.Keys);
    assert forall id :: id in ids <==> id in Elements(ids);
    EntriesMean(c, ids, agents, blobs);
    match Entries(c, ids, blobs)
    case Err(e) => assert Refused(c, agents, blobs, e);
    case Ok(entries) =>
      assert forall id :: Shows(entries, id) <==> id in c.sources && c.sources[id].required;
      forall a
        ensures AgentCovered(a, entries) <==>
                exists id :: id in c.sources && c.sources[id].required && c.sources[id].agent == a
      {
        CoveredByRequired(c, entries, blobs, a);
      }
      if entries == [] {
        NothingShown();
      }
  }

  lemma NothingShown()
    ensures forall id :: !Shows([], id)
  {
  }

  /** The loop over the sources in id order; every agent that a required source covers leaves `missing`. */
  method CollectEntries(c: Completed, ids: seq<string>, agents: seq<Agent>, blobs: Blobs)
    returns (r: Result<seq<SnapshotSource>, SnapshotError>, missing: set<Agent>)
    requires forall id :: id in ids ==> id in c.sources
    ensures r == Entries(c, ids, blobs)
    ensures r.Ok? ==> forall a :: a in missing <==> a in agents && !AgentCovered(a, r.value)
  {
    hide SourceEntry, Entries, AgentCovered;
    missing := set a | a in agents;
    var sources: seq<SnapshotSource> := [];
    NoEntries(c, blobs);
    var i := 0;
    while i < |ids|
      invariant 0 <= i <= |ids|
      invariant Entries(c, ids[..i], blobs) == Ok(sources)
      invariant forall a :: a in missing <==> a in agents && !AgentCovered(a, sources)
    {
      var id := ids[i];
      EntriesStep(c, ids, i, blobs);
      if c.sources[id].required {
        var entry := SourceEntry(c, id, blobs);
        if entry.Err? {
          FirstErrorStays(c, ids, i + 1, blobs);
          r := Err(entry.error);
          return;
        }
        EntryAgent(c, id, blobs);
        AddCovered(sources, entry.value);
        sources := sources + [entry.value];
        missing := missing - {c.sources[id].agent};
      }
      i := i + 1;
    }
    assert ids[..i] == ids;
    r := Ok(sources);
  }

  /** evaluationSnapshotFromState: the snapshot of the run, or a reason against it. */
  method EvaluationSnapshotFromState(c: Completed, agents: seq<Agent>, blobs: Blobs)
    returns (r: Result<Snapshot, SnapshotError>)
    ensures r == SnapshotOf(c, agents, blobs)
    ensures match r
            case Ok(snapshot) => SnapshotShows(c, agents, blobs, snapshot)
            case Err(e) => Refused(c, agents, blobs, e)
  {
    hide SourceEntry, Entries, AgentCovered, SnapshotShows, Refused;
    SnapshotMeans(c, agents, blobs);
    if c.runID == "" || !c.outcome.Success? {
      return Err(NoSuccessfulRun);
    }
    if !c.fullReconcile {
      return Err(NotFullReconcile);
    }
    var ids := ListSorted(c.sources.Keys);
    assert forall id :: id in ids ==> id in Elements(ids);
    var collected, missing := CollectEntries(c, ids, agents, blobs);
    if collected.Err? {
      return Err(collected.error);
    }
    if missing != {} {
      return Err(AgentMissing);
    }
    if collected.value == [] {
      return Err(NoRequiredSources);
    }
    r := Ok(Snapshot(c.runID, c.config, c.audit, c.at, c.fullReconcile, collected.value));
  }

  lemma EntryAgent(c: Completed, id: string, blobs: Blobs)
    requires id in c.sources && SourceEntry(c, id, blobs).Ok?
    ensures SourceEntry(c, id, blobs).value.agent == c.sources[id].agent
  {
    hide SuccessfulInventories, BlobsCover, SortedItems;
  }

  lemma NoEntries(c: Completed, blobs: Blobs)
    ensures Entries(c, [], blobs) == Ok([]) && forall a :: !AgentCovered(a, [])
  {
  }

  lemma AddCovered(sources: seq<SnapshotSource>, entry: SnapshotSource)
    ensures forall a :: AgentCovered(a, sources + [entry]) <==> AgentCovered(a, sources) || a == entry.agent
  {
    var more := sources + [entry];
    forall a
      ensures AgentCovered(a, more) <==> AgentCovered(a, sources) || a == entry.agent
    {
      if AgentCovered(a, sources) {
        var i :| 0 <= i < |sources| && sources[i].agent == a;
        assert more[i].agent == a;
      }
      assert more[|sources|] == entry;
    }
  }

  // ---- The checks never fail ----

  ghost predicate ItemsVerifiable(items: seq<InventoryItem>, blobs: Blobs) {
    forall x :: x in items && x.itemType.FileItem? && x.status.Available? ==> (x.content, x.bytes) in blobs
  }

  /** The outside conditions of a snapshot: every captured blob verifies and every agent has a required source. */
  ghost predicate Verifiable(c: Completed, agents: seq<Agent>, blobs: Blobs) {
    (forall id :: RequiredAt(c, id) ==> EntryVerifiable(c, id, blobs)) &&
    forall a :: a in agents ==> exists id :: RequiredAt(c, id) && c.sources[id].agent == a
  }

  lemma BlobsCoverSorted(items: seq<InventoryItem>, blobs: Blobs)
    ensures BlobsCover(SortedItems(items), blobs) <==> ItemsVerifiable(items, blobs)
  {
    var sorted := SortedItems(items);
    SortMembers(items, (a, b) => ByIdentity(a, b));
    if BlobsCover(sorted, blobs) {
      forall x | x in items && x.itemType.FileItem? && x.status.Available?
        ensures (x.content, x.bytes) in blobs
      {
        assert x in sorted;
      }
    } else {
      var i :| 0 <= i < |sorted| && sorted[i].itemType.FileItem? && sorted[i].status.Available? &&
               (sorted[i].content, sorted[i].bytes) !in blobs;
      assert sorted[i] in items;
    }
  }

  lemma SoundEntry(c: Completed, id: string, objects: set<Digest>, blobs: Blobs)
    requires CompletedSound(c, objects) && c.outcome.Success? && id in c.sources
    ensures |Listed(c.inventories, id)| > 0
    ensures match SourceEntry(c, id, blobs)
            case Err(e) => e == BlobUnavailable(id) && !BlobsCover(
              SortedItems(Listed(c.inventories, id)[0].body.items), blobs)
            case Ok(entry) => entry.agent == c.sources[id].agent && BlobsCover(
              SortedItems(Listed(c.inventories, id)[0].body.items), blobs)
  {
    hide Owned, HasRequired, BlobsCover, SortedItems;
  }

  predicate RequiredAt(c: Completed, id: string) {
    id in c.sources && c.sources[id].required
  }

  ghost predicate AgentRequired(c: Completed, ids: seq<string>, a: Agent) {
    exists id :: id in ids && RequiredAt(c, id) && c.sources[id].agent == a
  }

  /** Collecting entries succeeds exactly when every required source has one, and then covers their agents. */
  lemma {:induction false} CollectedEntries(c: Completed, ids: seq<string>, blobs: Blobs)
    requires forall id :: id in ids ==> id in c.sources
    requires forall id :: id in ids && RequiredAt(c, id) && SourceEntry(c, id, blobs).Ok? ==>
               SourceEntry(c, id, blobs).value.agent == c.sources[id].agent
    ensures Entries(c, ids, blobs).Ok? <==>
            forall id :: id in ids && RequiredAt(c, id) ==> SourceEntry(c, id, blobs).Ok?
    ensures Entries(c, ids, blobs).Err? ==>
              exists id :: id in ids && RequiredAt(c, id) && SourceEntry(c, id, blobs) == Err(Entries(c, ids, blobs).error)
    ensures Entries(c, ids, blobs).Ok? ==>
              forall a :: AgentCovered(a, Entries(c, ids, blobs).value) <==> AgentRequired(c, ids, a)
  {
    hide SourceEntry, AgentCovered;
    if ids == [] {
      assert forall a :: !AgentCovered(a, []) by { NothingCovered(); }
    } else {
      var n := |ids| - 1;
      CollectedEntries(c, ids[..n], blobs);
      assert ids == ids[..n] + [ids[n]];
      assert ids[n] in ids;
      if Entries(c, ids[..n], blobs).Ok? && RequiredAt(c, ids[n]) && SourceEntry(c, ids[n], blobs).Ok? {
        AddCovered(Entries(c, ids[..n], blobs).value, SourceEntry(c, ids[n], blobs).value);
      }
    }
  }

  lemma NothingCovered()
    ensures forall a :: !AgentCovered(a, [])
  {
  }

  ghost predicate EntryVerifiable(c: Completed, id: string, blobs: Blobs) {
    |Listed(c.inventories, id)| > 0 && ItemsVerifiable(Listed(c.inventories, id)[0].body.items, blobs)
  }

  lemma SoundEntries(c: Completed, objects: set<Digest>, blobs: Blobs)
    requires CompletedSound(c, objects) && c.outcome.Success?
    ensures forall id :: id in c.sources ==>
              (SourceEntry(c, id, blobs).Ok? <==> EntryVerifiable(c, id, blobs)) &&
              (SourceEntry(c, id, blobs).Ok? ==> SourceEntry(c, id, blobs).value.agent == c.sources[id].agent) &&
              (SourceEntry(c, id, blobs).Err? ==> SourceEntry(c, id, blobs).error.BlobUnavailable?)
  {
    forall id | id in c.sources
      ensures SourceEntry(c, id, blobs).Ok? <==> EntryVerifiable(c, id, blobs)
      ensures SourceEntry(c, id, blobs).Ok? ==> SourceEntry(c, id, blobs).value.agent == c.sources[id].agent
      ensures SourceEntry(c, id, blobs).Err? ==> SourceEntry(c, id, blobs).error.BlobUnavailable?
    {
      SoundEntry(c, id, objects, blobs);
      BlobsCoverSorted(Listed(c.inventories, id)[0].body.items, blobs);
      hide CompletedSound, SourceEntry, BlobsCover, SortedItems;
    }
  }

  /** For a sound completed run that succeeded with a full reconcile, a snapshot fails only on the outside
      conditions: it exists exactly when every blob verifies and every agent is covered. */
  lemma SnapshotExactly(c: Completed, objects: set<Digest>, agents: seq<Agent>, blobs: Blobs)
    requires CompletedSound(c, objects) && c.outcome.Success? && c.runID != "" && c.fullReconcile
    ensures SnapshotOf(c, agents, blobs).Ok? <==> Verifiable(c, agents, blobs)
    ensures SnapshotOf(c, agents, blobs).Err? ==>
              SnapshotOf(c, agents, blobs).error.BlobUnavailable? || SnapshotOf(c, agents, blobs).error.AgentMissing?
  {
    hide CompletedSound, SourceEntry, BlobsCover, Entries, EntryVerifiable, AgentCovered;
    var ids := SortedSet(c.sources.Keys);
    assert forall id :: id in ids <==> id in Elements(ids);
    SoundEntries(c, objects, blobs);
    CollectedEntries(c, ids, blobs);
    var required := SomeRequired(c, objects);
    match Entries(c, ids, blobs)
    case Err(e) =>
      var id :| id in ids && RequiredAt(c, id) && SourceEntry(c, id, blobs) == Err(e);
      assert !EntryVerifiable(c, id, blobs);
    case Ok(sources) =>
      assert AgentRequired(c, ids, c.sources[required].agent);
      SomethingCovered(c.sources[required].agent, sources);
      forall a | a in agents
        ensures AgentCovered(a, sources) <==> exists id :: RequiredAt(c, id) && c.sources[id].agent == a
      {
        assert AgentCovered(a, sources) <==> AgentRequired(c, ids, a);
      }
  }

  lemma SomethingCovered(a: Agent, sources: seq<SnapshotSource>)
    requires AgentCovered(a, sources)
    ensures sources != []
  {
  }

  lemma SomeRequired(c: Completed, objects: set<Digest>) returns (id: string)
    requires CompletedSound(c, objects) && c.outcome.Success?
    ensures RequiredAt(c, id)
  {
    id :| id in c.sources && c.sources[id].required;
  }

  // ---- History is stable ----

  /** The first event of the log with this hash. */
  ghost predicate EndsAt(log: seq<Event>, k: nat, target: Digest) {
    k < |log| && log[k].sha == target && forall j :: 0 <= j < k ==> log[j].sha != target
  }

  predicate SuccessfulFinish(e: Event) {
    e.body.action.RunFinished? && e.body.outcome.Success?
  }

  /** How the last event of a log bears on what was last completed. */
  lemma LastStep(log: seq<Event>, objects: set<Digest>)
    requires log != [] && Replay(log, objects).Some?
    ensures var n, s := |log| - 1, Replay(log, objects).value;
            Replay(log[..n], objects).Some? &&
            if log[n].body.action.RunFinished?
            then s.completed.audit == log[n].sha && s.completed.outcome == log[n].body.outcome
            else s.completed == Replay(log[..n], objects).value.completed
  {
    var n := |log| - 1;
    OnlyFinishChangesCompleted(Replay(log[..n], objects).value, log[n], objects);
    hide Step;
  }

  lemma NothingCompleted(objects: set<Digest>)
    ensures Replay([], objects).Some? && !Replay([], objects).value.completed.outcome.Success?
  {
  }

  /** What was last completed was completed by the event whose hash it records. */
  lemma {:induction false} CompletedOrigin(log: seq<Event>, objects: set<Digest>) returns (k: nat)
    requires Replay(log, objects).Some? && Replay(log, objects).value.completed.outcome.Success?
    ensures k < |log| && Replay(log[..k + 1], objects).Some?
    ensures Replay(log[..k + 1], objects).value.completed == Replay(log, objects).value.completed
    ensures log[k].sha == Replay(log, objects).value.completed.audit && SuccessfulFinish(log[k])
    ensures forall i :: k < i < |log| ==> !log[i].body.action.RunFinished?
  {
    hide Replay;
    NothingCompleted(objects);
    var n := |log| - 1;
    LastStep(log, objects);
    if log[n].body.action.RunFinished? {
      k := n;
      assert log[..k + 1] == log;
    } else {
      k := CompletedOrigin(log[..n], objects);
      assert log[..n][..k + 1] == log[..k + 1];
    }
  }

  /** Later events cannot change a snapshot: for any continuation of the log, the prefix ending at the event
      that the snapshot names replays to the same completed run, and so to the same snapshot. */
  lemma HistoryIsStable(log: seq<Event>, more: seq<Event>, objects: set<Digest>)
    requires Replay(log + more, objects).Some? && Replay(log, objects).Some?
    requires Replay(log, objects).value.completed.outcome.Success?
    ensures var target := Replay(log, objects).value.completed.audit;
            exists k: nat :: EndsAt(log + more, k, target) && SuccessfulFinish((log + more)[k]) &&
              Replay((log + more)[..k + 1], objects).Some? &&
              Replay((log + more)[..k + 1], objects).value.completed == Replay(log, objects).value.completed
  {
    var all := log + more;
    var k := CompletedOrigin(log, objects);
    assert all[..k + 1] == log[..k + 1];
    forall j | 0 <= j < k
      ensures all[j].sha != all[k].sha
    {
      HashesDistinct(all, objects, j, k);
    }
    assert EndsAt(all, k, Replay(log, objects).value.completed.audit);
  }
}
