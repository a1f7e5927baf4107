/** Archive paths: what the lexical check accepts, and why nothing it accepts leaves the restore directory. */
module BackupPath {

  // ---- Components ----

  /** The components between slashes; there is always at least one. */
  function Split(s: string): (r: seq<string>)
    ensures r != [] && forall i :: 0 <= i < |r| ==> NoSlash(r[i])
  {
    if s == "" then [""]
    else
      var r := Split(s[1..]);
      if s[0] == '/' then [""] + r else [[s[0]] + r[0]] + r[1..]
  }

  predicate NoSlash(s: string) {
    forall i :: 0 <= i < |s| ==> s[i] != '/'
  }

  function Join(cs: seq<string>): string {
    if cs == [] then ""
    else if |cs| == 1 then cs[0]
    else cs[0] + "/" + Join(cs[1..])
  }

  lemma {:induction false} JoinSplit(s: string)
    ensures Join(Split(s)) == s
  {
    if s != "" {
      JoinSplit(s[1..]);
      var r := Split(s[1..]);
      assert s == [s[0]] + s[1..];
      if s[0] == '/' {
        assert ([""] + r)[1..] == r;
      } else {
        assert ([[s[0]] + r[0]] + r[1..])[1..] == r[1..];
      }
    }
  }

  lemma {:induction false} SplitSlash(a: string, rest: string)
    requires NoSlash(a)
    ensures Split(a + "/" + rest) == [a] + Split(rest)
    decreases |a|
  {
    if a == "" {
      assert a + "/" + rest == "/" + rest && ("/" + rest)[1..] == rest;
    } else {
      assert (a + "/" + rest)[1..] == a[1..] + "/" + rest;
      SplitSlash(a[1..], rest);
      assert a == [a[0]] + a[1..];
    }
  }

  lemma {:induction false} SplitWhole(a: string)
    requires NoSlash(a)
    ensures Split(a) == [a]
    decreases |a|
  {
    if a != "" {
      SplitWhole(a[1..]);
      assert a == [a[0]] + a[1..];
    }
  }

  lemma {:induction false} SplitJoin(cs: seq<string>)
    requires cs != [] && forall i :: 0 <= i < |cs| ==> NoSlash(cs[i])
    ensures Split(Join(cs)) == cs
    decreases |cs|
  {
    if |cs| == 1 {
      SplitWhole(cs[0]);
    } else {
      SplitJoin(cs[1..]);
      SplitSlash(cs[0], Join(cs[1..]));
      assert cs == [cs[0]] + cs[1..];
    }
  }

  // ---- Lexical cleaning ----

  predicate Proper(c: string) {
    c != "" && c != "." && c != ".."
  }

  /** The components that remain once empty ones, dots and resolvable double dots are gone. At the root a double
      dot disappears. */
  function Reduce(cs: seq<string>, rooted: bool): seq<string> {
    if cs == [] then []
    else
      var n := |cs| - 1;
      var kept, c := Reduce(cs[..n], rooted), cs[n];
      if c == "" || c == "." then kept
      else if c == ".." then
        if kept != [] && kept[|kept| - 1] != ".." then kept[..|kept| - 1]
        else if rooted then kept
        else kept + [".."]
      else kept + [c]
  }

  /** filepath.Clean of a path that does not start with a slash. */
  function Clean(value: string): string {
    var kept := Reduce(Split(value), false);
    if kept == [] then "." else Join(kept)
  }

  predicate HasPrefix(s: string, prefix: string) {
    |prefix| <= |s| && s[..|prefix|] == prefix
  }

  predicate Lacks(s: string, c: char) {
    forall i :: 0 <= i < |s| ==> s[i] != c
  }

  /** The checks before cleaning. */
  predicate Printable(value: string) {
    value != "" && |value| <= 8192 && Lacks(value, '\\') && !HasPrefix(value, "/") && Lacks(Split(value)[0], ':') &&
    Lacks(value, 0 as char)
  }

  /** validArchivePath. */
  predicate ValidArchivePath(value: string) {
    Printable(value) &&
    var clean := Clean(value);
    clean == value && clean != "." && clean != ".." && !HasPrefix(clean, "../")
  }

  lemma {:induction false} ReduceProper(cs: seq<string>, rooted: bool)
    requires forall i :: 0 <= i < |cs| ==> Proper(cs[i])
    ensures Reduce(cs, rooted) == cs
  {
    if cs != [] {
      ReduceProper(cs[..|cs| - 1], rooted);
    }
  }

  /** At the root nothing but proper components remains. */
  lemma {:induction false} RootedProper(cs: seq<string>)
    ensures forall i :: 0 <= i < |Reduce(cs, true)| ==> Proper(Reduce(cs, true)[i])
  {
    if cs != [] {
      RootedProper(cs[..|cs| - 1]);
    }
  }

  /** Elsewhere double dots at the front are kept. */
  lemma {:induction false} ParentsStay(cs: seq<string>)
    requires forall i :: 0 <= i < |cs| ==> cs[i] == ".."
    ensures Reduce(cs, false) == cs
  {
    if cs != [] {
      var n := |cs| - 1;
      ParentsStay(cs[..n]);
      assert n > 0 ==> cs[..n][n - 1] == cs[n - 1];
      assert cs == cs[..n] + [".."];
    }
  }

  predicate IsParent(c: string) {
    c == ".."
  }

  /** No empty component and no dot, and double dots only at the front. */
  ghost predicate Reduced(r: seq<string>) {
    (forall i :: 0 <= i < |r| ==> r[i] != "" && r[i] != "." && NoSlash(r[i])) &&
    forall i, j :: 0 <= i < j < |r| && IsParent(r[j]) ==> IsParent(r[i])
  }

  lemma {:induction false} ReduceShape(cs: seq<string>)
    requires forall i :: 0 <= i < |cs| ==> NoSlash(cs[i])
    ensures Reduced(Reduce(cs, false))
  {
    if cs != [] {
      var n := |cs| - 1;
      ReduceShape(cs[..n]);
      ReduceStep(Reduce(cs[..n], false), cs[n]);
    }
  }

  lemma ReduceStep(kept: seq<string>, c: string)
    requires Reduced(kept) && NoSlash(c)
    ensures c != "" && c != "." && !IsParent(c) ==> Reduced(kept + [c])
    ensures kept != [] ==> Reduced(kept[..|kept| - 1])
    ensures (kept == [] || IsParent(kept[|kept| - 1])) && IsParent(c) ==> Reduced(kept + [c])
  {
    assert c == ".." ==> IsParent(c);
    if (kept == [] || IsParent(kept[|kept| - 1])) && IsParent(c) {
      var more := kept + [c];
      forall i, j | 0 <= i < j < |more| && IsParent(more[j])
        ensures IsParent(more[i])
      {
        if j == |kept| && i < |kept| - 1 {
          assert IsParent(kept[|kept| - 1]);
        }
      }
    }
  }

  lemma ParentPrefix(value: string)
    requires HasPrefix(value, "../")
    ensures Split(value)[0] == ".."
  {
    assert value == ".." + "/" + value[3..];
    SplitSlash("..", value[3..]);
  }

  lemma FirstParent(cs: seq<string>)
    requires cs != [] && cs[0] == ".."
    ensures Join(cs) == ".." || HasPrefix(Join(cs), "../")
  {
  }

  /** The lexical check accepts exactly the paths of at most 8192 characters without backslash or zero whose components
      are all proper, the first one without a colon. */
  lemma ValidPathExactly(value: string)
    ensures ValidArchivePath(value) <==>
            |value| <= 8192 && (forall i :: 0 <= i < |value| ==> value[i] != '\\' && value[i] as int != 0) &&
            (forall i :: 0 <= i < |Split(value)[0]| ==> Split(value)[0][i] != ':') &&
            forall i :: 0 <= i < |Split(value)| ==> Proper(Split(value)[i])
  {
    hide Split, Join, HasPrefix, Printable, NoSlash;
    PrintableMeans(value);
    var cs := Split(value);
    SplitIs(value);
    JoinSplit(value);
    if forall i :: 0 <= i < |cs| ==> Proper(cs[i]) {
      ReduceProper(cs, false);
      ProperPath(value);
    }
    if ValidArchivePath(value) {
      var kept := Reduce(cs, false);
      ReduceShape(cs);
      SplitJoin(kept);
      assert kept == cs;
      assert forall i :: 0 < i < |cs| && IsParent(cs[i]) ==> IsParent(cs[0]);
      if cs[0] == ".." {
        FirstParent(cs);
      }
    }
  }

  lemma PrintableMeans(value: string)
    ensures Printable(value) <==>
            value != "" && |value| <= 8192 && (forall i :: 0 <= i < |value| ==> value[i] != '\\' && value[i] as int != 0) &&
            (forall i :: 0 <= i < |Split(value)[0]| ==> Split(value)[0][i] != ':') && Split(value)[0] != ""
    ensures Proper(Split(value)[0]) ==> value != ""
  {
    assert Split(value)[0] == "" <==> value == "" || value[0] == '/';
  }

  lemma SplitIs(value: string)
    ensures Split(value) != [] && forall i :: 0 <= i < |Split(value)| ==> NoSlash(Split(value)[i])
  {
  }

  lemma ProperPath(value: string)
    requires forall i :: 0 <= i < |Split(value)| ==> Proper(Split(value)[i])
    ensures value != "." && value != ".." && !HasPrefix(value, "../")
  {
    if value == "." || value == ".." {
      SplitWhole(value);
    }
    if HasPrefix(value, "../") {
      ParentPrefix(value);
    }
  }

  // ---- Staying inside ----

  /** An absolute clean path, as its components. */
  predicate CleanAbsolute(cs: seq<string>) {
    forall i :: 0 <= i < |cs| ==> Proper(cs[i]) && NoSlash(cs[i])
  }

  function CommonPrefix(a: seq<string>, b: seq<string>): (n: nat)
    ensures n <= |a| && n <= |b| && a[..n] == b[..n] && (n < |a| && n < |b| ==> a[n] != b[n])
  {
    if a == [] || b == [] || a[0] != b[0] then 0
    else
      var n := CommonPrefix(a[1..], b[1..]);
      assert a[..n + 1] == [a[0]] + a[1..][..n] && b[..n + 1] == [b[0]] + b[1..][..n];
      n + 1
  }

  function Parents(n: nat): (r: seq<string>)
    ensures |r| == n && forall i :: 0 <= i < n ==> r[i] == ".."
  {
    seq(n, _ => "..")
  }

  /** filepath.Rel: up from the root to the common part, then down. */
  function Relative(root: seq<string>, path: seq<string>): seq<string> {
    var n := CommonPrefix(root, path);
    Parents(|root| - n) + path[n..]
  }

  /** pathWithin. */
  predicate PathWithin(path: seq<string>, root: seq<string>) {
    var relative := Relative(root, path);
    relative == [] || relative[0] != ".."
  }

  lemma WithinExactly(path: seq<string>, root: seq<string>)
    requires CleanAbsolute(path)
    ensures PathWithin(path, root) <==> root <= path
  {
    var n := CommonPrefix(root, path);
    var relative := Relative(root, path);
    if n == |root| {
      assert root == root[..n] == path[..n];
      assert relative == path[n..];
    } else {
      assert relative[0] == "..";
    }
  }

  /** filepath.Join of an absolute directory and a relative path. */
  function JoinUnder(directory: seq<string>, value: string): seq<string> {
    Reduce(directory + Split(value), true)
  }

  /** A restored file lands at its own components below the destination, and the escape check never fires. */
  lemma RestoreStaysInside(destination: seq<string>, value: string)
    requires ValidArchivePath(value) && CleanAbsolute(destination)
    ensures JoinUnder(destination, value) == destination + Split(value)
    ensures PathWithin(JoinUnder(destination, value), destination)
  {
    hide Split, Reduce, NoSlash, ValidArchivePath;
    ValidPathExactly(value);
    SplitIs(value);
    var all := destination + Split(value);
    assert CleanAbsolute(all);
    ReduceProper(all, true);
    WithinExactly(all, destination);
  }
}
