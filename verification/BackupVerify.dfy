/** A backup manifest and the inspection of an archive against it. */
module BackupVerify {
  import opened Primitives
  import opened Ordering
  import P = BackupPath

  const MAX_INT64 := 0x7fff_ffff_ffff_ffff
  const STORE_PREFIX := "store/"
  const LEDGER_PATH := "evidence/events.jsonl"
  const STORE_PATH := "store.json"

  type Int64 = x: int | -MAX_INT64 - 1 <= x <= MAX_INT64

  /** Addition as the machine does it. */
  function Add64(a: Int64, b: Int64): Int64 {
    var sum := a + b;
    if sum > MAX_INT64 then sum - 2 * (MAX_INT64 + 1)
    else if sum < -MAX_INT64 - 1 then sum + 2 * (MAX_INT64 + 1)
    else sum
  }

  datatype FileEntry = FileEntry(path: string, sha: string, bytes: Int64)

  datatype Manifest = Manifest(backupID: string, createdAt: Time, deviceID: string, records: int, lastHash: string,
                               files: seq<FileEntry>, totalFiles: int, totalBytes: Int64)

  /** Which paths never belong in a backup, and the identity a manifest should carry. */
  datatype Rules = Rules(volatile: string -> bool, identity: Manifest -> string)

  predicate Envelope(m: Manifest) {
    m.backupID != "" && m.createdAt != ZERO_TIME && m.deviceID != "" && m.records >= 0 && m.totalFiles == |m.files| &&
    m.totalBytes >= 0 && if m.records == 0 then m.lastHash == "" else ValidHash(m.lastHash)
  }

  predicate EntryOk(rules: Rules, e: FileEntry) {
    P.ValidArchivePath(e.path) && ValidHash(e.sha) && e.bytes >= 0 && !rules.volatile(e.path) &&
    (e.path == STORE_PATH ==> e.bytes <= 0x10_0000)
  }

  /** The true sum of the sizes, with no width. */
  function TotalBytes(files: seq<FileEntry>): int {
    if files == [] then 0 else TotalBytes(files[..|files| - 1]) + files[|files| - 1].bytes
  }

  ghost predicate PathsAscend(files: seq<FileEntry>) {
    forall i, j :: 0 <= i < j < |files| ==> Less(files[i].path, files[j].path)
  }

  ghost predicate FilesOk(rules: Rules, files: seq<FileEntry>) {
    EntriesOk(rules, files) && PathsAscend(files)
  }

  predicate EntriesOk(rules: Rules, files: seq<FileEntry>) {
    forall i :: 0 <= i < |files| ==> EntryOk(rules, files[i])
  }

  /** What validateManifest finds of a manifest. */
  ghost predicate Passes(rules: Rules, m: Manifest, maxBytes: int, maxFiles: int) {
    Envelope(m) && FilesOk(rules, m.files) && HasStore(m.files) &&
    TotalBytes(m.files) == m.totalBytes <= maxBytes && m.totalFiles <= maxFiles && rules.identity(m) == m.backupID
  }

  predicate FileOk(rules: Rules, f: FileEntry) {
    P.ValidArchivePath(f.path) && ValidHash(f.sha) && f.bytes >= 0 && !rules.volatile(f.path) &&
    (f.path == "store.json" ==> f.bytes <= 1024 * 1024)
  }

  /** What an accepted manifest says: who made it when, which ledger it binds, and proper files in ascending order, the
      store manifest among them, whose true sum is its total and within the limit. */
  ghost predicate ManifestValid(rules: Rules, m: Manifest, maxBytes: int, maxFiles: int) {
    m.backupID != "" && rules.identity(m) == m.backupID && m.createdAt != ZERO_TIME && m.deviceID != "" &&
    (if m.records > 0 then ValidHash(m.lastHash) else m.records == 0 && m.lastHash == "") &&
    m.totalFiles == |m.files| <= maxFiles && 0 <= m.totalBytes == TotalBytes(m.files) <= maxBytes &&
    PathsAscend(m.files) && (forall f :: f in m.files ==> FileOk(rules, f)) &&
    exists f :: f in m.files && f.path == "store.json"
  }

  lemma PassesExactly(rules: Rules, m: Manifest, maxBytes: int, maxFiles: int)
    ensures Passes(rules, m, maxBytes, maxFiles) <==> ManifestValid(rules, m, maxBytes, maxFiles)
  {
    hide P.ValidArchivePath, ValidHash, PathsAscend, TotalBytes;
    assert forall i :: 0 <= i < |m.files| ==> m.files[i] in m.files;
    assert forall f :: EntryOk(rules, f) <==> FileOk(rules, f);
  }

  lemma {:induction false} TotalGrows(files: seq<FileEntry>, i: nat)
    requires i <= |files| && forall k :: 0 <= k < |files| ==> files[k].bytes >= 0
    ensures TotalBytes(files[..i]) <= TotalBytes(files)
    decreases |files| - i
  {
    if i < |files| {
      TotalGrows(files, i + 1);
      assert files[..i + 1][..i] == files[..i];
    } else {
      assert files[..i] == files;
    }
  }

  lemma AscendNext(files: seq<FileEntry>, i: nat)
    requires i < |files| && PathsAscend(files[..i])
    ensures PathsAscend(files[..i + 1]) <==> i == 0 || Less(files[i - 1].path, files[i].path)
    ensures PathsAscend(files) ==> PathsAscend(files[..i + 1])
  {
    var next := files[..i + 1];
    if i > 0 && Less(files[i - 1].path, files[i].path) {
      forall a | 0 <= a < i
        ensures Less(next[a].path, next[i].path)
      {
        if a < i - 1 {
          assert Less(files[..i][a].path, files[..i][i - 1].path);
          LessTransitive(files[a].path, files[i - 1].path, files[i].path);
        }
      }
      assert forall a, b :: 0 <= a < b < i ==> next[a] == files[..i][a] && next[b] == files[..i][b];
    }
    if PathsAscend(next) && i > 0 {
      assert next[i - 1] == files[i - 1] && next[i] == files[i];
    }
  }

  predicate HasStore(files: seq<FileEntry>) {
    exists i :: 0 <= i < |files| && files[i].path == STORE_PATH
  }

  /** One more entry of the list. */
  lemma FilesNext(rules: Rules, files: seq<FileEntry>, i: nat)
    requires i < |files| && FilesOk(rules, files[..i])
    ensures FilesOk(rules, files[..i + 1]) <==>
            EntryOk(rules, files[i]) && (i == 0 || Less(files[i - 1].path, files[i].path))
    ensures FilesOk(rules, files) ==> FilesOk(rules, files[..i + 1])
    ensures TotalBytes(files[..i + 1]) == TotalBytes(files[..i]) + files[i].bytes
    ensures HasStore(files[..i + 1]) <==> HasStore(files[..i]) || files[i].path == STORE_PATH
    ensures i > 0 ==> files[i - 1].path != ""
  {
    hide EntryOk, Less, PathsAscend, EntriesOk, HasStore;
    assert files[..i + 1][..i] == files[..i];
    AscendNext(files, i);
    EntriesNext(rules, files, i);
  }

  lemma EntriesNext(rules: Rules, files: seq<FileEntry>, i: nat)
    requires i < |files| && EntriesOk(rules, files[..i])
    ensures EntriesOk(rules, files[..i + 1]) <==> EntryOk(rules, files[i])
    ensures EntriesOk(rules, files) ==> EntryOk(rules, files[i])
    ensures HasStore(files[..i + 1]) <==> HasStore(files[..i]) || files[i].path == STORE_PATH
    ensures i > 0 ==> files[i - 1].path != ""
  {
    hide EntryOk, P.ValidArchivePath;
    var before, next := files[..i], files[..i + 1];
    assert forall k :: 0 <= k < i ==> before[k] == next[k] == files[k];
    assert next[i] == files[i];
    if HasStore(before) {
      var k :| 0 <= k < i && before[k].path == STORE_PATH;
      assert next[k].path == STORE_PATH;
    }
    if files[i].path == STORE_PATH {
      assert next[i].path == STORE_PATH;
    }
    if i > 0 {
      EntryFacts(rules, before[i - 1]);
    }
  }

  /** A total that left the machine range belongs to no manifest. */
  lemma TooLarge(rules: Rules, files: seq<FileEntry>, i: nat)
    requires i <= |files| && FilesOk(rules, files) && TotalBytes(files[..i]) > MAX_INT64
    ensures TotalBytes(files) > MAX_INT64
  {
    hide EntryOk, PathsAscend;
    forall k | 0 <= k < |files|
      ensures files[k].bytes >= 0
    {
      EntryFacts(rules, files[k]);
    }
    TotalGrows(files, i);
  }

  lemma Sizes(rules: Rules, files: seq<FileEntry>, i: nat)
    requires i < |files| && FilesOk(rules, files[..i + 1])
    ensures 0 <= files[i].bytes <= MAX_INT64
  {
    hide EntryOk;
    assert files[..i + 1][i] == files[i];
    EntryFacts(rules, files[i]);
  }

  /** validateManifest. The running total is a machine integer; the sign test catches every wrap-around, because two
      sizes that fit cannot wrap past zero again. */
  method ValidateManifest(rules: Rules, m: Manifest, maxBytes: int, maxFiles: int) returns (ok: bool)
    ensures ok <==> ManifestValid(rules, m, maxBytes, maxFiles)
  {
    hide EntryOk, FilesOk, TotalBytes, HasStore, Less, ManifestValid;
    PassesExactly(rules, m, maxBytes, maxFiles);
    if !Envelope(m) {
      return false;
    }
    var total: Int64 := 0;
    var previous, storeSeen := "", false;
    NoFiles(rules, m.files);
    var i := 0;
    while i < |m.files|
      invariant 0 <= i <= |m.files| && FilesOk(rules, m.files[..i])
      invariant total == TotalBytes(m.files[..i]) && total >= 0
      invariant previous == if i == 0 then "" else m.files[i - 1].path
      invariant storeSeen <==> HasStore(m.files[..i])
    {
      var e := m.files[i];
      FilesNext(rules, m.files, i);
      if !EntryOk(rules, e) || (previous != "" && !Less(previous, e.path)) {
        return false;
      }
      Sizes(rules, m.files, i);
      previous := e.path;
      total := Add64(total, e.bytes);
      if total < 0 {
        if FilesOk(rules, m.files) {
          TooLarge(rules, m.files, i + 1);
        }
        return false;
      }
      storeSeen := storeSeen || e.path == STORE_PATH;
      i := i + 1;
    }
    assert m.files[..i] == m.files;
    ok := storeSeen && total == m.totalBytes && m.totalBytes <= maxBytes && m.totalFiles <= maxFiles &&
          rules.identity(m) == m.backupID;
  }

  lemma NoFiles(rules: Rules, files: seq<FileEntry>)
    ensures FilesOk(rules, files[..0]) && TotalBytes(files[..0]) == 0 && !HasStore(files[..0])
  {
  }

  lemma EntryFacts(rules: Rules, e: FileEntry)
    requires EntryOk(rules, e)
    ensures e.bytes >= 0 && e.path != "" && P.ValidArchivePath(e.path)
  {
  }

  // ---- Archives ----

  datatype BlobRef = BlobRef(path: string, sha: string, bytes: Int64)

  /** What reading a ledger reports. */
  datatype Ledger = Ledger(clean: bool, records: int, lastHash: string, blobs: seq<BlobRef>)

  /** The content of an entry: its hash, and what it parses to as a store manifest or as a ledger. */
  datatype Content = Content(sha: string, device: Option<string>, ledger: Ledger)

  datatype ArchiveEntry = ArchiveEntry(regular: bool, name: string, size: Int64, content: Content)

  /** The entries after the manifest, whether they could be read to the end, and whether the archive ended there. */
  datatype Archive = Archive(entries: seq<ArchiveEntry>, readable: bool, endsCleanly: bool)

  datatype Issue =
    | InvalidManifest | ArchiveReadFailed | UnexpectedEntry(name: string) | InvalidFileEntry(path: string)
    | UnsafeRestorePath(path: string) | HashMismatch(path: string) | AuthenticationFailed | MissingFile(path: string)
    | InvalidStoreManifest | MissingLedger | InvalidLedger | TotalsMismatch

  datatype Inspection = Inspection(issues: seq<Issue>, filesChecked: int, bytes: Int64, ledgerVerified: bool)

  /** The manifest entry of each path. */
  function Expected(files: seq<FileEntry>): (m: map<string, FileEntry>)
    ensures forall p :: p in m ==> m[p] in files && m[p].path == p
    ensures forall f :: f in files ==> f.path in m
  {
    if files == [] then map[]
    else
      var n := |files| - 1;
      assert files == files[..n] + [files[n]];
      Expected(files[..n])[files[n].path := files[n]]
  }

  function RelativeName(e: ArchiveEntry): string {
    if STORE_PREFIX <= e.name then e.name[|STORE_PREFIX|..] else e.name
  }

  /** The entry stands for a declared file of that size. */
  predicate Declared(expected: map<string, FileEntry>, e: ArchiveEntry) {
    e.regular && STORE_PREFIX <= e.name && RelativeName(e) in expected &&
    P.ValidArchivePath(RelativeName(e)) && e.size == expected[RelativeName(e)].bytes
  }

  predicate HashOk(expected: map<string, FileEntry>, e: ArchiveEntry) {
    RelativeName(e) in expected && e.content.sha == expected[RelativeName(e)].sha
  }

  predicate LedgerClean(expected: map<string, FileEntry>, l: Ledger) {
    l.clean &&
    forall b :: b in l.blobs ==>
      b.path in expected && expected[b.path].sha == b.sha && expected[b.path].bytes == b.bytes
  }

  predicate LedgerBound(m: Manifest, l: Ledger) {
    LedgerClean(Expected(m.files), l) && l.records == m.records && l.lastHash == m.lastHash
  }

  ghost predicate NamesDistinct(entries: seq<ArchiveEntry>) {
    forall i, j :: 0 <= i < j < |entries| ==> RelativeName(entries[i]) != RelativeName(entries[j])
  }

  /** Every entry is a declared file with the declared size and hash, and none comes twice. */
  ghost predicate EntriesMatch(m: Manifest, entries: seq<ArchiveEntry>) {
    (forall e :: e in entries ==> Declared(Expected(m.files), e) && HashOk(Expected(m.files), e)) && NamesDistinct(entries)
  }

  /** The archive holds exactly the files of the manifest, a store manifest of the device, and the ledger. */
  ghost predicate Matches(m: Manifest, a: Archive) {
    a.readable && a.endsCleanly && EntriesMatch(m, a.entries) &&
    (forall f :: f in m.files ==> exists e :: e in a.entries && RelativeName(e) == f.path) &&
    (exists e :: e in a.entries && RelativeName(e) == STORE_PATH && e.content.device == Some(m.deviceID)) &&
    (forall e :: e in a.entries && RelativeName(e) == LEDGER_PATH ==> LedgerBound(m, e.content.ledger)) &&
    (m.records != 0 ==> exists e :: e in a.entries && RelativeName(e) == LEDGER_PATH)
  }

  // ---- What a clean inspection means ----

  function InStore(path: string): string {
    "store/" + path
  }

  /** The entry is the file: same name below the store, same size, same hash. */
  predicate Stands(e: ArchiveEntry, f: FileEntry) {
    e.regular && e.name == InStore(f.path) && e.size == f.bytes && e.content.sha == f.sha
  }

  ghost predicate EachStands(files: seq<FileEntry>, entries: seq<ArchiveEntry>) {
    forall e :: e in entries ==> exists f :: f in files && Stands(e, f)
  }

  ghost predicate EachFound(files: seq<FileEntry>, entries: seq<ArchiveEntry>) {
    forall f :: f in files ==> exists e :: e in entries && Stands(e, f)
  }

  ghost predicate NoNameTwice(entries: seq<ArchiveEntry>) {
    forall i, j :: 0 <= i < j < |entries| ==> entries[i].name != entries[j].name
  }

  /** One entry for each file, and nothing else. */
  ghost predicate SameFiles(files: seq<FileEntry>, entries: seq<ArchiveEntry>) {
    EachStands(files, entries) && EachFound(files, entries) && NoNameTwice(entries)
  }

  /** A ledger that reads cleanly, ends where the manifest says, and whose blobs are all files of the manifest. */
  ghost predicate LedgerFits(m: Manifest, l: Ledger) {
    l.clean && l.records == m.records && l.lastHash == m.lastHash &&
    forall b :: b in l.blobs ==> exists f :: f in m.files && f.path == b.path && f.sha == b.sha && f.bytes == b.bytes
  }

  /** The archive was read to its end, holds the files of the manifest, carries the store manifest of the device and,
      unless there are no records, a ledger that fits. */
  ghost predicate ArchiveHolds(m: Manifest, a: Archive) {
    a.readable && a.endsCleanly && SameFiles(m.files, a.entries) &&
    (exists e :: e in a.entries && e.name == InStore("store.json") && e.content.device == Some(m.deviceID)) &&
    (forall e :: e in a.entries && e.name == InStore("evidence/events.jsonl") ==> LedgerFits(m, e.content.ledger)) &&
    (m.records != 0 ==> exists e :: e in a.entries && e.name == InStore("evidence/events.jsonl"))
  }

  /** What a manifest guarantees of its paths. */
  ghost predicate PathsOk(files: seq<FileEntry>) {
    PathsAscend(files) && forall f :: f in files ==> P.ValidArchivePath(f.path)
  }

  lemma {:induction false} ExpectedAt(files: seq<FileEntry>, f: FileEntry)
    requires PathsAscend(files) && f in files
    ensures f.path in Expected(files) && Expected(files)[f.path] == f
  {
    hide PathsAscend;
    var n := |files| - 1;
    assert files == files[..n] + [files[n]];
    LastIsNew(files);
    ExpectedLast(files);
    if f != files[n] {
      ExpectedAt(files[..n], f);
    }
  }

  lemma NameUnder(e: ArchiveEntry, path: string)
    ensures e.name == InStore(path) <==> STORE_PREFIX <= e.name && RelativeName(e) == path
  {
    if e.name == InStore(path) {
      assert e.name[..|STORE_PREFIX|] == STORE_PREFIX;
    }
  }

  /** An entry is declared, with the right hash, exactly when it stands for a file, and then for the one of its name. */
  lemma StandsExactly(files: seq<FileEntry>, e: ArchiveEntry)
    requires PathsOk(files)
    ensures Meets(files, e) <==> exists f :: f in files && Stands(e, f)
    ensures Meets(files, e) ==>
              STORE_PREFIX <= e.name && forall f :: f in files ==> (RelativeName(e) == f.path <==> Stands(e, f))
  {
    hide PathsAscend, RelativeName, Expected, P.ValidArchivePath, InStore;
    forall f | f in files
      ensures f.path in Expected(files) && Expected(files)[f.path] == f
    {
      ExpectedAt(files, f);
    }
    forall path
      ensures e.name == InStore(path) <==> STORE_PREFIX <= e.name && RelativeName(e) == path
    {
      NameUnder(e, path);
    }
  }

  ghost predicate Meets(files: seq<FileEntry>, e: ArchiveEntry) {
    Declared(Expected(files), e) && HashOk(Expected(files), e)
  }

  lemma SameNames(a: ArchiveEntry, b: ArchiveEntry)
    requires STORE_PREFIX <= a.name && STORE_PREFIX <= b.name
    ensures RelativeName(a) == RelativeName(b) <==> a.name == b.name
  {
    NameUnder(a, RelativeName(b));
    NameUnder(b, RelativeName(b));
  }

  /** The names below the store are as distinct as the names. */
  lemma NamesAsDistinct(files: seq<FileEntry>, entries: seq<ArchiveEntry>)
    requires PathsOk(files) && forall e :: e in entries ==> Meets(files, e)
    ensures NamesDistinct(entries) <==> NoNameTwice(entries)
  {
    hide PathsOk, RelativeName, Meets, Stands;
    forall i, j | 0 <= i < j < |entries|
      ensures RelativeName(entries[i]) == RelativeName(entries[j]) <==> entries[i].name == entries[j].name
    {
      StandsExactly(files, entries[i]);
      StandsExactly(files, entries[j]);
      SameNames(entries[i], entries[j]);
    }
  }

  lemma AllMeet(files: seq<FileEntry>, entries: seq<ArchiveEntry>)
    requires PathsOk(files)
    ensures EachStands(files, entries) <==> forall e :: e in entries ==> Meets(files, e)
  {
    hide PathsOk, Meets, Stands, RelativeName;
    forall e | e in entries
      ensures Meets(files, e) <==> exists f :: f in files && Stands(e, f)
    {
      StandsExactly(files, e);
    }
  }

  ghost predicate AllNamed(files: seq<FileEntry>, entries: seq<ArchiveEntry>) {
    forall f :: f in files ==> exists e :: e in entries && RelativeName(e) == f.path
  }

  lemma AllFound(files: seq<FileEntry>, entries: seq<ArchiveEntry>)
    requires PathsOk(files) && forall e :: e in entries ==> Meets(files, e)
    ensures EachFound(files, entries) <==> AllNamed(files, entries)
    ensures forall e, path :: e in entries ==> (RelativeName(e) == path <==> e.name == InStore(path))
  {
    hide PathsOk, Meets, Stands, RelativeName, InStore;
    forall e | e in entries
      ensures forall f :: f in files ==> (RelativeName(e) == f.path <==> Stands(e, f))
      ensures forall path :: RelativeName(e) == path <==> e.name == InStore(path)
    {
      StandsExactly(files, e);
      forall path
        ensures RelativeName(e) == path <==> e.name == InStore(path)
      {
        NameUnder(e, path);
      }
    }
  }

  lemma SameFilesExactly(m: Manifest, entries: seq<ArchiveEntry>)
    requires PathsOk(m.files)
    ensures EntriesMatch(m, entries) && AllNamed(m.files, entries) <==> SameFiles(m.files, entries)
    ensures EntriesMatch(m, entries) ==>
              forall e, path :: e in entries ==> (RelativeName(e) == path <==> e.name == InStore(path))
  {
    hide Declared, HashOk, RelativeName, Expected, PathsOk, NamesDistinct, InStore, EachStands, EachFound, AllNamed,
         NoNameTwice;
    AllMeet(m.files, entries);
    if EachStands(m.files, entries) {
      AllFound(m.files, entries);
      NamesAsDistinct(m.files, entries);
    }
  }

  lemma LedgerFitsExactly(m: Manifest, l: Ledger)
    requires PathsOk(m.files)
    ensures LedgerBound(m, l) <==> LedgerFits(m, l)
  {
    hide PathsAscend, Expected, P.ValidArchivePath;
    forall f | f in m.files
      ensures f.path in Expected(m.files) && Expected(m.files)[f.path] == f
    {
      ExpectedAt(m.files, f);
    }
  }

  lemma HoldsExactly(m: Manifest, a: Archive)
    requires PathsOk(m.files)
    ensures Matches(m, a) <==> ArchiveHolds(m, a)
  {
    hide EntriesMatch, SameFiles, LedgerBound, LedgerFits, PathsOk, RelativeName, InStore;
    SameFilesExactly(m, a.entries);
    forall l
      ensures LedgerBound(m, l) <==> LedgerFits(m, l)
    {
      LedgerFitsExactly(m, l);
    }
  }

  // ---- Sums over the declared files ----

  ghost function SumOver(paths: set<string>, expected: map<string, FileEntry>): int
    requires paths <= expected.Keys
  {
    if paths == {} then 0
    else
      var p :| p in paths;
      expected[p].bytes + SumOver(paths - {p}, expected)
  }

  lemma {:induction false} SumAdd(paths: set<string>, p: string, expected: map<string, FileEntry>)
    requires paths <= expected.Keys && p in paths
    ensures SumOver(paths, expected) == expected[p].bytes + SumOver(paths - {p}, expected)
    decreases paths
  {
    var q :| q in paths && SumOver(paths, expected) == expected[q].bytes + SumOver(paths - {q}, expected);
    if p != q {
      SumAdd(paths - {q}, p, expected);
      SumAdd(paths - {p}, q, expected);
      assert paths - {q} - {p} == paths - {p} - {q};
    }
  }

  lemma {:induction false} SumSubset(some: set<string>, all: set<string>, expected: map<string, FileEntry>)
    requires some <= all <= expected.Keys && forall p :: p in expected ==> expected[p].bytes >= 0
    ensures 0 <= SumOver(some, expected) <= SumOver(all, expected)
    decreases all
  {
    if some == all {
      if all != {} {
        var p :| p in all;
        SumAdd(all, p, expected);
        SumSubset(all - {p}, all - {p}, expected);
      }
    } else {
      assert !(all <= some);
      var p :| p in all && p !in some;
      SumAdd(all, p, expected);
      SumSubset(some, all - {p}, expected);
    }
  }

  lemma {:induction false} SumAgrees(paths: set<string>, a: map<string, FileEntry>, b: map<string, FileEntry>)
    requires paths <= a.Keys && paths <= b.Keys && forall p :: p in paths ==> a[p] == b[p]
    ensures SumOver(paths, a) == SumOver(paths, b)
    decreases paths
  {
    if paths != {} {
      var p :| p in paths;
      SumAdd(paths, p, a);
      SumAdd(paths, p, b);
      SumAgrees(paths - {p}, a, b);
    }
  }

  /** The last path of an ascending list is new. */
  lemma LastIsNew(files: seq<FileEntry>)
    requires PathsAscend(files) && files != []
    ensures files[|files| - 1].path !in Expected(files[..|files| - 1])
    ensures PathsAscend(files[..|files| - 1])
  {
    var n := |files| - 1;
    LessIrreflexive(files[n].path);
    assert forall f :: f in files[..n] ==> f.path != files[n].path;
  }

  lemma ExpectedLast(files: seq<FileEntry>)
    requires files != []
    ensures var n := |files| - 1; Expected(files) == Expected(files[..n])[files[n].path := files[n]]
  {
  }

  lemma SumStep(before: map<string, FileEntry>, f: FileEntry)
    requires f.path !in before
    ensures var all := before[f.path := f]; SumOver(all.Keys, all) == SumOver(before.Keys, before) + f.bytes
  {
    var all := before[f.path := f];
    SumAdd(all.Keys, f.path, all);
    assert all.Keys - {f.path} == before.Keys;
    SumAgrees(before.Keys, all, before);
  }

  /** The total of the list is the sum over its paths. */
  lemma {:induction false} TotalIsSum(files: seq<FileEntry>)
    requires PathsAscend(files)
    ensures TotalBytes(files) == SumOver(Expected(files).Keys, Expected(files))
    ensures |Expected(files)| == |files|
  {
    hide PathsAscend, Expected, SumOver;
    if files == [] {
      NoneExpected(files);
    } else {
      var n := |files| - 1;
      LastIsNew(files);
      TotalIsSum(files[..n]);
      ExpectedLast(files);
      SumStep(Expected(files[..n]), files[n]);
    }
  }

  lemma NoneExpected(files: seq<FileEntry>)
    requires files == []
    ensures Expected(files) == map[] && SumOver(Expected(files).Keys, Expected(files)) == 0
  {
  }

  // ---- The inspection ----

  function Names(entries: seq<ArchiveEntry>): set<string> {
    set e | e in entries :: RelativeName(e)
  }

  /** The entries read so far are declared and distinct, and these are their names and sizes. */
  ghost predicate Covered(m: Manifest, done: seq<ArchiveEntry>, seen: set<string>, bytes: int) {
    (forall e :: e in done ==> Declared(Expected(m.files), e)) && NamesDistinct(done) &&
    seen == Names(done) && seen <= Expected(m.files).Keys && |seen| == |done| && bytes == SumOver(seen, Expected(m.files))
  }

  predicate HashesOk(m: Manifest, done: seq<ArchiveEntry>) {
    forall e :: e in done ==> HashOk(Expected(m.files), e)
  }

  ghost predicate StoreSeen(m: Manifest, done: seq<ArchiveEntry>) {
    exists e :: e in done && RelativeName(e) == STORE_PATH && e.content.device == Some(m.deviceID)
  }

  /** The ledger among the entries, if there is one. */
  ghost predicate LedgerIs(done: seq<ArchiveEntry>, found: Option<Ledger>) {
    match found
    case None => forall e :: e in done ==> RelativeName(e) != LEDGER_PATH
    case Some(l) => exists e :: e in done && RelativeName(e) == LEDGER_PATH && e.content.ledger == l
  }

  lemma CoveredNext(m: Manifest, done: seq<ArchiveEntry>, seen: set<string>, bytes: int, e: ArchiveEntry)
    requires Covered(m, done, seen, bytes) && Declared(Expected(m.files), e) && RelativeName(e) !in seen
    ensures var p := RelativeName(e);
            Covered(m, done + [e], seen + {p}, bytes + Expected(m.files)[p].bytes)
  {
    hide RelativeName, Expected, Declared, SumOver, NamesDistinct, Names;
    var p := RelativeName(e);
    DeclaredKnown(Expected(m.files), e);
    NamesNext(done, e);
    SumNext(seen, p, Expected(m.files));
    assert forall x :: x in done + [e] <==> x in done || x == e;
  }

  lemma NamesNext(done: seq<ArchiveEntry>, e: ArchiveEntry)
    requires NamesDistinct(done) && RelativeName(e) !in Names(done)
    ensures NamesDistinct(done + [e]) && Names(done + [e]) == Names(done) + {RelativeName(e)}
  {
    hide RelativeName;
    assert forall i :: 0 <= i < |done| ==> done[i] in done;
  }

  lemma SumNext(seen: set<string>, p: string, expected: map<string, FileEntry>)
    requires seen <= expected.Keys && p in expected && p !in seen
    ensures SumOver(seen + {p}, expected) == SumOver(seen, expected) + expected[p].bytes
  {
    SumAdd(seen + {p}, p, expected);
    assert seen + {p} - {p} == seen;
  }

  lemma DeclaredKnown(expected: map<string, FileEntry>, e: ArchiveEntry)
    requires Declared(expected, e)
    ensures RelativeName(e) in expected
  {
  }

  lemma StoreNext(m: Manifest, done: seq<ArchiveEntry>, seen: set<string>, e: ArchiveEntry)
    requires seen == Names(done) && RelativeName(e) !in seen
    ensures StoreSeen(m, done + [e]) <==>
            if RelativeName(e) == STORE_PATH then e.content.device == Some(m.deviceID) else StoreSeen(m, done)
  {
    hide RelativeName;
    assert forall x :: x in done + [e] <==> x in done || x == e;
  }

  lemma LedgerNext(done: seq<ArchiveEntry>, found: Option<Ledger>, e: ArchiveEntry)
    requires LedgerIs(done, found)
    ensures LedgerIs(done + [e], if RelativeName(e) == LEDGER_PATH then Some(e.content.ledger) else found)
  {
    hide RelativeName;
    assert e in done + [e];
  }

  lemma {:induction false} LoopKeepsMatching(m: Manifest, entries: seq<ArchiveEntry>, i: nat)
    requires i < |entries|
    requires !Declared(Expected(m.files), entries[i]) || RelativeName(entries[i]) in Names(entries[..i])
    ensures !EntriesMatch(m, entries)
  {
    hide Declared, HashOk, RelativeName, Expected;
    var e := entries[i];
    assert e in entries;
    if Declared(Expected(m.files), e) {
      var d :| d in entries[..i] && RelativeName(d) == RelativeName(e);
      var k :| 0 <= k < i && entries[k] == d;
      assert RelativeName(entries[k]) == RelativeName(entries[i]);
    }
  }

  /** What the loop reports of the entries. */
  datatype Report = Report(seen: set<string>, checked: int, bytes: Int64, store: bool, ledger: Option<Ledger>, fatal: bool,
                           issues: seq<Issue>)

  ghost predicate ReportOf(m: Manifest, entries: seq<ArchiveEntry>, r: Report) {
    if r.fatal then r.issues != [] && !EntriesMatch(m, entries)
    else Covered(m, entries, r.seen, r.bytes) && r.checked == |entries| && (r.issues == [] <==> HashesOk(m, entries)) &&
         (r.store <==> StoreSeen(m, entries)) && LedgerIs(entries, r.ledger)
  }

  /** What the report says while the loop goes on. */
  ghost predicate Inspected(m: Manifest, done: seq<ArchiveEntry>, r: Report) {
    !r.fatal && r.checked == |done| && Covered(m, done, r.seen, r.bytes) && (r.issues == [] <==> HashesOk(m, done)) &&
    (r.store <==> StoreSeen(m, done)) && LedgerIs(done, r.ledger)
  }

  /** The entry is new, and counting it keeps the total in the machine range. */
  ghost predicate Counted(m: Manifest, done: seq<ArchiveEntry>, r: Report, e: ArchiveEntry) {
    var p := RelativeName(e);
    p in Expected(m.files) && P.ValidArchivePath(p) && r.bytes >= 0 &&
    0 <= r.bytes + Expected(m.files)[p].bytes <= MAX_INT64 &&
    Covered(m, done + [e], r.seen + {p}, r.bytes + Expected(m.files)[p].bytes)
  }

  lemma InspectedStep(m: Manifest, done: seq<ArchiveEntry>, r: Report, e: ArchiveEntry)
    requires EntriesOkFor(m) && Inspected(m, done, r)
    ensures r.seen == Names(done) && !r.fatal
    ensures !Declared(Expected(m.files), e) || RelativeName(e) in r.seen ||
            Counted(m, done, r, e)
  {
    hide Declared, Covered, HashesOk, StoreSeen, LedgerIs, Expected, EntriesOkFor, RelativeName;
    CoveredFacts(m, done, r.seen, r.bytes);
    SeenSum(m, done, r.seen, r.bytes);
    if Declared(Expected(m.files), e) && RelativeName(e) !in r.seen {
      var p := RelativeName(e);
      DeclaredFacts(m, e);
      CoveredNext(m, done, r.seen, r.bytes, e);
      SeenSum(m, done + [e], r.seen + {p}, r.bytes + Expected(m.files)[p].bytes);
    }
  }

  lemma InspectedNext(m: Manifest, done: seq<ArchiveEntry>, r: Report, e: ArchiveEntry, next: Report)
    requires Inspected(m, done, r) && !next.fatal && next.checked == r.checked + 1
    requires RelativeName(e) !in r.seen && Covered(m, done + [e], next.seen, next.bytes)
    requires next.store == if RelativeName(e) == STORE_PATH then e.content.device == Some(m.deviceID) else r.store
    requires next.ledger == if RelativeName(e) == LEDGER_PATH then Some(e.content.ledger) else r.ledger
    requires next.issues == [] <==> r.issues == [] && HashOk(Expected(m.files), e)
    ensures Inspected(m, done + [e], next)
  {
    hide Covered, HashesOk, StoreSeen, LedgerIs, Expected, RelativeName, HashOk;
    CoveredFacts(m, done, r.seen, r.bytes);
    StoreNext(m, done, r.seen, e);
    LedgerNext(done, r.ledger, e);
    HashesNext(m, done, e);
  }

  lemma InspectedReport(m: Manifest, entries: seq<ArchiveEntry>, r: Report)
    requires Inspected(m, entries, r)
    ensures ReportOf(m, entries, r)
  {
    hide Covered, HashesOk, StoreSeen, LedgerIs;
  }

  /** The file of an entry is written to its own components below the destination. */
  predicate LandsInside(e: ArchiveEntry, destination: seq<string>)
  {
    P.JoinUnder(destination, RelativeName(e)) == destination + P.Split(RelativeName(e)) &&
    P.PathWithin(P.JoinUnder(destination, RelativeName(e)), destination)
  }

  predicate LandInside(entries: seq<ArchiveEntry>, destination: seq<string>) {
    forall i :: 0 <= i < |entries| ==> LandsInside(entries[i], destination)
  }

  lemma EntryLands(destination: seq<string>, e: ArchiveEntry)
    requires P.ValidArchivePath(RelativeName(e)) && P.CleanAbsolute(destination)
    ensures LandsInside(e, destination)
  {
    P.RestoreStaysInside(destination, RelativeName(e));
  }

  /** The entry loop. With a destination, every declared file lands inside it. */
  method InspectEntries(m: Manifest, entries: seq<ArchiveEntry>, destination: Option<seq<string>>)
    returns (r: Report)
    requires EntriesOkFor(m) && (destination.Some? ==> P.CleanAbsolute(destination.value))
    ensures ReportOf(m, entries, r)
    ensures !r.fatal && destination.Some? ==> LandInside(entries, destination.value)
  {
    hide LandsInside, Declared, HashOk, Inspected, Expected, EntriesMatch, EntriesOkFor, P.PathWithin, P.CleanAbsolute,
         P.JoinUnder, Covered, P.ValidArchivePath, RelativeName, LedgerIs, HashesOk, StoreSeen;
    var expected := Expected(m.files);
    r := Report({}, 0, 0, false, None, false, []);
    NothingInspected(m);
    var i := 0;
    while i < |entries|
      invariant 0 <= i <= |entries| && Inspected(m, entries[..i], r)
      invariant destination.Some? ==> LandInside(entries[..i], destination.value)
    {
      var e := entries[i];
      var path := RelativeName(e);
      assert entries[..i + 1] == entries[..i] + [e];
      InspectedStep(m, entries[..i], r, e);
      if !Declared(expected, e) || path in r.seen {
        LoopKeepsMatching(m, entries, i);
        r := r.(fatal := true, issues := r.issues + [
          if !e.regular || !(STORE_PREFIX <= e.name) then UnexpectedEntry(e.name) else InvalidFileEntry(path)]);
        return;
      }
      ghost var before := r;
      r := r.(seen := r.seen + {path}, checked := r.checked + 1, bytes := Add64(r.bytes, expected[path].bytes));
      if path == STORE_PATH {
        r := r.(store := e.content.device == Some(m.deviceID));
      }
      if path == LEDGER_PATH {
        r := r.(ledger := Some(e.content.ledger));
      }
      if destination.Some? {
        EntryLands(destination.value, e);
      }
      if !HashOk(expected, e) {
        r := r.(issues := r.issues + [HashMismatch(path)]);
      }
      InspectedNext(m, entries[..i], before, e, r);
      i := i + 1;
    }
    assert entries[..i] == entries;
    InspectedReport(m, entries, r);
  }

  /** What an accepted manifest guarantees about its files. */
  ghost predicate EntriesOkFor(m: Manifest) {
    PathsAscend(m.files) && (forall f :: f in m.files ==> f.bytes >= 0) && TotalBytes(m.files) == m.totalBytes &&
    m.totalFiles == |m.files|
  }

  lemma NothingInspected(m: Manifest)
    ensures Inspected(m, [], Report({}, 0, 0, false, None, false, []))
  {
  }

  lemma CoveredFacts(m: Manifest, done: seq<ArchiveEntry>, seen: set<string>, bytes: int)
    requires Covered(m, done, seen, bytes)
    ensures seen == Names(done) && seen <= Expected(m.files).Keys && bytes == SumOver(seen, Expected(m.files))
  {
  }

  lemma DeclaredFacts(m: Manifest, e: ArchiveEntry)
    requires Declared(Expected(m.files), e)
    ensures RelativeName(e) in Expected(m.files) && P.ValidArchivePath(RelativeName(e))
  {
  }

  /** The running total of the sizes never leaves the machine range. */
  lemma SeenSum(m: Manifest, done: seq<ArchiveEntry>, seen: set<string>, bytes: int)
    requires EntriesOkFor(m) && Covered(m, done, seen, bytes)
    ensures 0 <= bytes <= MAX_INT64
  {
    hide Declared, NamesDistinct;
    TotalIsSum(m.files);
    SumSubset(seen, Expected(m.files).Keys, Expected(m.files));
  }

  lemma HashesNext(m: Manifest, done: seq<ArchiveEntry>, e: ArchiveEntry)
    ensures HashesOk(m, done + [e]) <==> HashesOk(m, done) && HashOk(Expected(m.files), e)
  {
    hide HashOk;
    assert forall x :: x in done + [e] <==> x in done || x == e;
  }

  ghost predicate AllPresent(files: seq<FileEntry>, seen: set<string>) {
    forall f :: f in files ==> f.path in seen
  }

  /** The loop over the files that the archive did not bring. */
  method MissingFiles(files: seq<FileEntry>, seen: set<string>) returns (issues: seq<Issue>)
    ensures issues == [] <==> AllPresent(files, seen)
  {
    issues := [];
    var i := 0;
    while i < |files|
      invariant 0 <= i <= |files|
      invariant issues == [] <==> AllPresent(files[..i], seen)
    {
      assert files[..i + 1] == files[..i] + [files[i]];
      if files[i].path !in seen {
        issues := issues + [MissingFile(files[i].path)];
      }
      i := i + 1;
    }
    assert files[..i] == files;
  }

  predicate LedgerAccepted(m: Manifest, found: Option<Ledger>) {
    if found.None? then m.records == 0 else LedgerBound(m, found.value)
  }

  ghost predicate TotalsMatch(m: Manifest, r: Report) {
    r.checked == m.totalFiles && r.bytes == m.totalBytes
  }

  /** With every file present exactly once, the counters agree with the manifest. */
  lemma TotalsFollow(m: Manifest, entries: seq<ArchiveEntry>, r: Report)
    requires EntriesOkFor(m) && Covered(m, entries, r.seen, r.bytes) && r.checked == |entries| && AllPresent(m.files, r.seen)
    ensures TotalsMatch(m, r)
  {
    hide Declared, NamesDistinct, Names, SumOver;
    TotalIsSum(m.files);
    assert r.seen == Expected(m.files).Keys;
    assert |Expected(m.files).Keys| == |Expected(m.files)|;
  }

  ghost predicate LedgersBound(m: Manifest, entries: seq<ArchiveEntry>) {
    forall e :: e in entries && RelativeName(e) == LEDGER_PATH ==> LedgerBound(m, e.content.ledger)
  }

  lemma OneLedger(m: Manifest, entries: seq<ArchiveEntry>, found: Option<Ledger>)
    requires NamesDistinct(entries) && LedgerIs(entries, found)
    ensures LedgerAccepted(m, found) <==>
            LedgersBound(m, entries) && (m.records != 0 ==> exists e :: e in entries && RelativeName(e) == LEDGER_PATH)
  {
    hide RelativeName, LedgerBound;
    if found.Some? {
      var x :| x in entries && RelativeName(x) == LEDGER_PATH && x.content.ledger == found.value;
      forall e | e in entries && RelativeName(e) == LEDGER_PATH
        ensures e == x
      {
        OneName(entries, e, x);
      }
    }
  }

  lemma OneName(entries: seq<ArchiveEntry>, a: ArchiveEntry, b: ArchiveEntry)
    requires NamesDistinct(entries) && a in entries && b in entries && RelativeName(a) == RelativeName(b)
    ensures a == b
  {
    hide RelativeName;
    var i :| 0 <= i < |entries| && entries[i] == a;
    var j :| 0 <= j < |entries| && entries[j] == b;
    SameIndex(entries, i, j);
  }

  lemma SameIndex(entries: seq<ArchiveEntry>, i: nat, j: nat)
    requires NamesDistinct(entries) && i < |entries| && j < |entries|
    requires RelativeName(entries[i]) == RelativeName(entries[j])
    ensures i == j
  {
    hide RelativeName;
  }

  /** What the checks after the loop add up to. */
  lemma MatchesWhen(m: Manifest, a: Archive, r: Report)
    requires ReportOf(m, a.entries, r)
    ensures r.fatal ==> !Matches(m, a)
    ensures !r.fatal ==>
              (Matches(m, a) <==> a.readable && a.endsCleanly && r.issues == [] && AllPresent(m.files, r.seen) && r.store &&
                                  LedgerAccepted(m, r.ledger))
  {
    hide Declared, HashOk, LedgerIs, Expected, LedgerAccepted, RelativeName, SumOver, EntriesMatch, StoreSeen,
         LedgersBound;
    if !r.fatal {
      MatchParts(m, a.entries, r);
      OneLedger(m, a.entries, r.ledger);
      PresentParts(m, a.entries, r.seen);
      StoreParts(m, a);
    }
  }

  lemma MatchParts(m: Manifest, entries: seq<ArchiveEntry>, r: Report)
    requires ReportOf(m, entries, r) && !r.fatal
    ensures EntriesMatch(m, entries) <==> r.issues == []
    ensures NamesDistinct(entries) && r.seen == Names(entries)
  {
    hide Declared, HashOk, LedgerIs, StoreSeen, SumOver, Expected;
  }

  lemma PresentParts(m: Manifest, entries: seq<ArchiveEntry>, seen: set<string>)
    requires seen == Names(entries)
    ensures AllPresent(m.files, seen) <==>
            forall f :: f in m.files ==> exists e :: e in entries && RelativeName(e) == f.path
  {
    hide RelativeName;
  }

  lemma StoreParts(m: Manifest, a: Archive)
    ensures StoreSeen(m, a.entries) <==>
            exists e :: e in a.entries && RelativeName(e) == STORE_PATH && e.content.device == Some(m.deviceID)
    ensures LedgersBound(m, a.entries) <==>
            forall e :: e in a.entries && RelativeName(e) == LEDGER_PATH ==> LedgerBound(m, e.content.ledger)
  {
    hide RelativeName, LedgerBound;
  }

  lemma ManifestFiles(rules: Rules, m: Manifest, maxBytes: int, maxFiles: int)
    requires ManifestValid(rules, m, maxBytes, maxFiles)
    ensures EntriesOkFor(m) && PathsOk(m.files)
  {
    hide P.ValidArchivePath, ValidHash, PathsAscend;
  }

  /** inspectArchive. No issue is reported exactly when the manifest is valid and the archive is what it describes;
      restoring such an archive writes inside the destination only. */
  method InspectArchive(rules: Rules, m: Manifest, a: Archive, destination: Option<seq<string>>, maxBytes: int,
                        maxFiles: int)
    returns (result: Inspection)
    requires destination.Some? ==> P.CleanAbsolute(destination.value)
    ensures result.issues == [] <==> ManifestValid(rules, m, maxBytes, maxFiles) && ArchiveHolds(m, a)
    ensures result.issues == [] && destination.Some? ==> LandInside(a.entries, destination.value)
    ensures result.issues == [] ==>
              result.filesChecked == |m.files| && result.bytes == TotalBytes(m.files) <= maxBytes && result.ledgerVerified
  {
    hide LandInside, ManifestValid, Matches, ArchiveHolds, ReportOf, EntriesOkFor, LedgerAccepted, AllPresent,
         P.CleanAbsolute, PathsOk;
    result := Inspection([], 0, 0, false);
    var valid := ValidateManifest(rules, m, maxBytes, maxFiles);
    if !valid {
      result := result.(issues := [InvalidManifest]);
      return;
    }
    ManifestFiles(rules, m, maxBytes, maxFiles);
    ManifestTotals(rules, m, maxBytes, maxFiles);
    HoldsExactly(m, a);
    var r := InspectEntries(m, a.entries, destination);
    MatchesWhen(m, a, r);
    var issues := r.issues;
    if !r.fatal && !a.readable {
      issues := issues + [ArchiveReadFailed];
    }
    if !a.endsCleanly {
      issues := issues + [AuthenticationFailed];
    }
    var missing := MissingFiles(m.files, r.seen);
    issues := issues + missing;
    if !r.store {
      issues := issues + [InvalidStoreManifest];
    }
    var ledgerOk := LedgerAccepted(m, r.ledger);
    if !ledgerOk {
      issues := issues + [if r.ledger.None? then MissingLedger else InvalidLedger];
    }
    if r.checked != m.totalFiles || r.bytes != m.totalBytes {
      issues := issues + [TotalsMismatch];
    }
    if !r.fatal && missing == [] {
      CoveredReport(m, a.entries, r);
      TotalsFollow(m, a.entries, r);
    }
    FatalHasIssues(m, a.entries, r);
    result := Inspection(issues, r.checked, r.bytes, ledgerOk);
  }

  lemma ManifestTotals(rules: Rules, m: Manifest, maxBytes: int, maxFiles: int)
    requires ManifestValid(rules, m, maxBytes, maxFiles)
    ensures m.totalFiles == |m.files| && m.totalBytes == TotalBytes(m.files) <= maxBytes
  {
  }

  lemma CoveredReport(m: Manifest, entries: seq<ArchiveEntry>, r: Report)
    requires ReportOf(m, entries, r) && !r.fatal
    ensures Covered(m, entries, r.seen, r.bytes) && r.checked == |entries|
  {
    hide Covered;
  }

  lemma FatalHasIssues(m: Manifest, entries: seq<ArchiveEntry>, r: Report)
    requires ReportOf(m, entries, r)
    ensures r.fatal ==> r.issues != []
  {
  }
}
