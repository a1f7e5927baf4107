/** Quoting of Windows command-line arguments, and the parser that reads them back. */
module WindowsQuoting {
  import opened Primitives

  // ---- The parser: CommandLineToArgvW after the program name ----

  /** Where the parser stands: inside quotes or not, the argument read so far, and the backslashes whose meaning
      depends on the next character. */
  datatype Scan = Scan(quoted: bool, current: Option<string>, backslashes: nat, done: seq<string>)

  function Backslashes(n: nat): (s: string)
    ensures |s| == n && forall i :: 0 <= i < n ==> s[i] == '\\'
  {
    seq(n, _ => '\\')
  }

  function Text(st: Scan): string {
    if st.current.None? then "" else st.current.value
  }

  /** The argument as read so far, with the pending backslashes taken literally. */
  function Read(st: Scan): string {
    Text(st) + Backslashes(st.backslashes)
  }

  predicate Started(st: Scan) {
    st.current.Some? || st.backslashes > 0
  }

  predicate Separates(c: char) {
    c == ' ' || c == '\t'
  }

  function Flush(st: Scan): Scan {
    if Started(st) then Scan(st.quoted, None, 0, st.done + [Read(st)]) else st
  }

  function Step(st: Scan, c: char): Scan {
    if c == '\\' then st.(backslashes := st.backslashes + 1)
    else if c == '"' then
      var text := Text(st) + Backslashes(st.backslashes / 2);
      if st.backslashes % 2 == 0 then st.(quoted := !st.quoted, current := Some(text), backslashes := 0)
      else st.(current := Some(text + "\""), backslashes := 0)
    else if Separates(c) && !st.quoted then Flush(st)
    else st.(current := Some(Read(st) + [c]), backslashes := 0)
  }

  function Run(st: Scan, s: string): Scan
    decreases |s|
  {
    if s == "" then st else Run(Step(st, s[0]), s[1..])
  }

  function Parse(s: string): seq<string> {
    Flush(Run(Scan(false, None, 0, []), s)).done
  }

  // ---- The quoter ----

  predicate Special(c: char) {
    c == ' ' || c == '\t' || c == '\n' || c == 11 as char || c == '"'
  }

  predicate Plain(argument: string) {
    argument != "" && forall i :: 0 <= i < |argument| ==> !Special(argument[i])
  }

  /** What is written for the rest of an argument after `pending` backslashes. */
  function Escape(s: string, pending: nat): string {
    if s == "" then Backslashes(2 * pending)
    else if s[0] == '\\' then Escape(s[1..], pending + 1)
    else if s[0] == '"' then Backslashes(2 * pending + 1) + "\"" + Escape(s[1..], 0)
    else Backslashes(pending) + [s[0]] + Escape(s[1..], 0)
  }

  function Quoted(argument: string): string {
    if Plain(argument) then argument else "\"" + Escape(argument, 0) + "\""
  }

  /** quoteWindowsArgument: a builder and a counter of backslashes. */
  method QuoteWindowsArgument(argument: string) returns (r: string)
    ensures r == Quoted(argument)
  {
    if Plain(argument) {
      return argument;
    }
    hide Escape;
    r := "\"";
    var backslashes := 0;
    var i := 0;
    assert argument[i..] == argument;
    while i < |argument|
      invariant 0 <= i <= |argument|
      invariant r + Escape(argument[i..], backslashes) == "\"" + Escape(argument, 0)
    {
      var c := argument[i];
      EscapeStep(argument[i..], backslashes);
      assert argument[i..][1..] == argument[i + 1..];
      if c == '\\' {
        backslashes := backslashes + 1;
      } else if c == '"' {
        r := r + (Backslashes(2 * backslashes + 1) + "\"");
        backslashes := 0;
      } else {
        r := r + (Backslashes(backslashes) + [c]);
        backslashes := 0;
      }
      i := i + 1;
    }
    EscapeEnd(backslashes);
    r := r + Backslashes(2 * backslashes) + "\"";
  }

  lemma EscapeStep(s: string, pending: nat)
    requires s != ""
    ensures Escape(s, pending) ==
            if s[0] == '\\' then Escape(s[1..], pending + 1)
            else if s[0] == '"' then (Backslashes(2 * pending + 1) + "\"") + Escape(s[1..], 0)
            else (Backslashes(pending) + [s[0]]) + Escape(s[1..], 0)
  {
  }

  lemma EscapeEnd(pending: nat)
    ensures Escape("", pending) == Backslashes(2 * pending)
  {
  }

  // ---- Quoting round-trips ----

  lemma {:induction false} RunConcat(st: Scan, a: string, b: string)
    ensures Run(st, a + b) == Run(Run(st, a), b)
    decreases |a|
  {
    if a == "" {
      assert a + b == b;
    } else {
      assert (a + b)[1..] == a[1..] + b;
      RunConcat(Step(st, a[0]), a[1..], b);
    }
  }

  lemma {:induction false} RunBackslashes(st: Scan, n: nat)
    ensures Run(st, Backslashes(n)) == st.(backslashes := st.backslashes + n)
    decreases n
  {
    if n > 0 {
      assert Backslashes(n)[1..] == Backslashes(n - 1);
      RunBackslashes(st.(backslashes := st.backslashes + 1), n - 1);
    }
  }

  lemma RunOne(st: Scan, c: char)
    ensures Run(st, [c]) == Step(st, c)
  {
    assert [c][1..] == "";
  }

  lemma RunRun(st: Scan, n: nat, c: char)
    requires st.backslashes == 0
    ensures Run(st, Backslashes(n) + [c]) == Step(st.(backslashes := n), c)
  {
    RunConcat(st, Backslashes(n), [c]);
    RunBackslashes(st, n);
    RunOne(st.(backslashes := n), c);
  }

  lemma BackslashNext(x: string, n: nat)
    ensures x + Backslashes(n) + "\\" == x + Backslashes(n + 1)
  {
  }

  /** Inside quotes, the escaped text and the closing quote read back as the text. */
  lemma {:induction false} RunEscape(done: seq<string>, x: string, s: string, pending: nat)
    ensures Run(Scan(true, Some(x), 0, done), Escape(s, pending) + "\"") ==
            Scan(false, Some(x + Backslashes(pending) + s), 0, done)
    decreases |s|
  {
    hide Step, Run, Escape;
    var st := Scan(true, Some(x), 0, done);
    if s == "" {
      EscapeEnd(pending);
      RunRun(st, 2 * pending, '"');
      QuoteStep(st, 2 * pending);
      assert x + Backslashes(pending) + s == x + Backslashes(pending);
    } else {
      EscapeStep(s, pending);
      var c, rest := s[0], s[1..];
      assert s == [c] + rest;
      if c == '\\' {
        RunEscape(done, x, rest, pending + 1);
        BackslashNext(x, pending);
        assert (x + Backslashes(pending) + "\\") + rest == x + Backslashes(pending) + s;
      } else {
        var n := if c == '"' then 2 * pending + 1 else pending;
        var head, next := Backslashes(n) + [c], x + Backslashes(pending) + [c];
        RunRun(st, n, c);
        QuoteStep(st, n);
        if c != '"' {
          LiteralStep(st, n, c);
        }
        RunEscape(done, next, rest, 0);
        assert Escape(s, pending) + "\"" == head + (Escape(rest, 0) + "\"");
        RunConcat(st, head, Escape(rest, 0) + "\"");
        assert next + Backslashes(0) + rest == x + Backslashes(pending) + s;
      }
    }
  }

  lemma QuoteStep(st: Scan, n: nat)
    ensures Step(st.(backslashes := n), '"') ==
            if n % 2 == 0 then st.(quoted := !st.quoted, current := Some(Text(st) + Backslashes(n / 2)), backslashes := 0)
            else st.(current := Some(Text(st) + Backslashes(n / 2) + "\""), backslashes := 0)
  {
  }

  lemma LiteralStep(st: Scan, n: nat, c: char)
    requires st.quoted && c != '\\' && c != '"'
    ensures Step(st.(backslashes := n), c) == st.(current := Some(Text(st) + Backslashes(n) + [c]), backslashes := 0)
  {
  }

  /** A plain argument reads as itself. */
  lemma {:induction false} RunPlain(st: Scan, s: string)
    requires !st.quoted && forall i :: 0 <= i < |s| ==> !Special(s[i])
    ensures var after := Run(st, s);
            !after.quoted && after.done == st.done && Read(after) == Read(st) + s && (s != "" || Started(st) ==> Started(after))
    decreases |s|
  {
    if s != "" {
      var next := Step(st, s[0]);
      assert !Special(s[0]);
      if s[0] == '\\' {
        BackslashNext(Text(st), st.backslashes);
      } else {
        assert Read(next) == Read(st) + [s[0]];
      }
      RunPlain(next, s[1..]);
      assert s == [s[0]] + s[1..];
    }
  }

  /** From a clean state, a quoted argument leaves exactly that argument to be flushed. */
  lemma QuotedReads(done: seq<string>, argument: string)
    ensures var after := Run(Scan(false, None, 0, done), Quoted(argument));
            !after.quoted && Started(after) && Read(after) == argument && after.done == done
  {
    var clean := Scan(false, None, 0, done);
    if Plain(argument) {
      RunPlain(clean, argument);
    } else {
      RunOne(clean, '"');
      assert "" + Backslashes(0) == "";
      assert Step(clean, '"') == Scan(true, Some(""), 0, done);
      RunEscape(done, "", argument, 0);
      assert Quoted(argument) == "\"" + (Escape(argument, 0) + "\"");
      RunConcat(clean, "\"", Escape(argument, 0) + "\"");
      assert "" + Backslashes(0) + argument == argument;
    }
  }

  /** The quoted arguments joined by single spaces. */
  function Joined(arguments: seq<string>): string {
    if arguments == [] then ""
    else if |arguments| == 1 then Quoted(arguments[0])
    else Quoted(arguments[0]) + " " + Joined(arguments[1..])
  }

  lemma {:induction false} JoinedReads(done: seq<string>, arguments: seq<string>)
    ensures Flush(Run(Scan(false, None, 0, done), Joined(arguments))).done == done + arguments
    decreases |arguments|
  {
    hide Step, Quoted;
    var clean := Scan(false, None, 0, done);
    if arguments == [] {
      assert Run(clean, "") == clean;
    } else {
      var first := arguments[0];
      var after := Run(clean, Quoted(first));
      QuotedReads(done, first);
      if |arguments| > 1 {
        var rest := Joined(arguments[1..]);
        assert Joined(arguments) == Quoted(first) + (" " + rest);
        RunConcat(clean, Quoted(first), " " + rest);
        RunConcat(after, " ", rest);
        RunOne(after, ' ');
        SpaceStep(after);
        JoinedReads(done + [first], arguments[1..]);
        assert done + [first] + arguments[1..] == done + arguments;
      } else {
        assert done + [first] == done + arguments;
      }
    }
  }

  lemma SpaceStep(st: Scan)
    requires !st.quoted && Started(st)
    ensures Step(st, ' ') == Scan(false, None, 0, st.done + [Read(st)])
  {
  }

  /** For every list of arguments, parsing the joined quoted arguments returns the list. */
  lemma QuotingRoundTrips(arguments: seq<string>)
    ensures Parse(Joined(arguments)) == arguments
  {
    JoinedReads([], arguments);
  }

  // ---- The whole command ----

  function IndexFrom(s: string, i: nat, stop: char -> bool): (k: nat)
    requires i <= |s|
    ensures i <= k <= |s| && (k < |s| ==> stop(s[k])) && forall j :: i <= j < k ==> !stop(s[j])
    decreases |s| - i
  {
    if i == |s| || stop(s[i]) then i else IndexFrom(s, i + 1, stop)
  }

  /** The program name has rules of its own: up to the next quote when it starts with one, else up to a space;
      backslashes mean nothing. */
  function ParseCommand(s: string): (string, seq<string>) {
    if s != "" && s[0] == '"' then
      var k := IndexFrom(s, 1, c => c == '"');
      (s[1..k], Parse(s[if k < |s| then k + 1 else k..]))
    else
      var k := IndexFrom(s, 0, c => Separates(c));
      (s[..k], Parse(s[k..]))
  }

  /** windowsTaskCommand: the executable and its arguments, all quoted the same way. */
  function TaskCommand(executable: string, arguments: seq<string>): string {
    Joined([executable] + arguments)
  }

  predicate NoQuote(s: string) {
    forall i :: 0 <= i < |s| ==> s[i] != '"'
  }

  predicate EndsWithBackslash(s: string) {
    s != "" && s[|s| - 1] == '\\'
  }

  lemma {:induction false} EscapeNoQuote(s: string, pending: nat)
    requires NoQuote(s)
    ensures NoQuote(Escape(s, pending))
    decreases |s|
  {
    hide Escape;
    if s == "" {
      EscapeEnd(pending);
    } else {
      EscapeStep(s, pending);
      EscapeNoQuote(s[1..], if s[0] == '\\' then pending + 1 else 0);
    }
  }

  predicate Doubles(s: string, pending: nat) {
    EndsWithBackslash(s) || (s == "" && pending > 0)
  }

  /** Without quotes, only backslashes at the very end are written twice. */
  lemma {:induction false} EscapePlain(s: string, pending: nat)
    requires NoQuote(s)
    ensures if Doubles(s, pending) then |Escape(s, pending)| > pending + |s|
            else Escape(s, pending) == Backslashes(pending) + s
    decreases |s|
  {
    hide Escape;
    if s == "" {
      EscapeEnd(pending);
    } else {
      var rest := s[1..];
      assert s == [s[0]] + rest && s[0] != '"';
      assert rest != "" ==> rest[|rest| - 1] == s[|s| - 1];
      EscapeStep(s, pending);
      if s[0] == '\\' {
        EscapePlain(rest, pending + 1);
        assert Backslashes(pending) + s == Backslashes(pending + 1) + rest;
      } else {
        EscapePlain(rest, 0);
        assert Backslashes(pending) + s == (Backslashes(pending) + [s[0]]) + rest && Backslashes(0) + rest == rest;
      }
    }
  }

  /** When the name of the program survives: it holds no quote, and if it has to be quoted it does not end in a
      backslash, which the quoter doubles and the program-name rule takes literally. */
  predicate NameSurvives(executable: string) {
    NoQuote(executable) && (Plain(executable) || !EndsWithBackslash(executable))
  }

  lemma IndexIs(s: string, i: nat, k: nat, stop: char -> bool)
    requires i <= k <= |s| && (forall j :: i <= j < k ==> !stop(s[j])) && (k < |s| ==> stop(s[k]))
    ensures IndexFrom(s, i, stop) == k
  {
  }

  /** The text after the program name. */
  function Tail(arguments: seq<string>): string {
    if arguments == [] then "" else " " + Joined(arguments)
  }

  lemma CommandShape(executable: string, arguments: seq<string>)
    ensures TaskCommand(executable, arguments) == Quoted(executable) + Tail(arguments)
  {
    var all := [executable] + arguments;
    assert all[1..] == arguments && all[0] == executable;
    assert Quoted(executable) + "" == Quoted(executable);
    assert Quoted(executable) + " " + Joined(arguments) == Quoted(executable) + (" " + Joined(arguments));
  }

  /** The separator before the arguments changes nothing. */
  lemma TailParses(arguments: seq<string>)
    ensures Parse(Tail(arguments)) == arguments
  {
    var clean := Scan(false, None, 0, []);
    QuotingRoundTrips(arguments);
    if arguments != [] {
      assert Tail(arguments)[0] == ' ' && Tail(arguments)[1..] == Joined(arguments);
      assert Step(clean, ' ') == clean;
    }
  }

  /** The command line of the scheduled task is read back as the executable and its arguments exactly when the name
      of the executable survives. */
  lemma CommandRoundTripsExactly(executable: string, arguments: seq<string>)
    ensures ParseCommand(TaskCommand(executable, arguments)) == (executable, arguments) <==> NameSurvives(executable)
  {
    hide Escape, Parse, Joined;
    var command, tail := TaskCommand(executable, arguments), Tail(arguments);
    CommandShape(executable, arguments);
    TailParses(arguments);
    if Plain(executable) {
      assert forall j :: 0 <= j < |executable| ==> command[j] == executable[j] && !Special(executable[j]);
      assert |executable| < |command| ==> command[|executable|] == tail[0] == ' ';
      IndexIs(command, 0, |executable|, c => Separates(c));
      assert command[..|executable|] == executable && command[|executable|..] == tail;
    } else {
      QuotedCommand(executable, arguments);
    }
  }

  /** A file name of Windows holds no quote, and the path of a file does not end in a backslash: such a command is always
      read back. */
  lemma ScheduledCommandReads(executable: string, arguments: seq<string>)
    requires NoQuote(executable) && !EndsWithBackslash(executable)
    ensures ParseCommand(TaskCommand(executable, arguments)) == (executable, arguments)
  {
    CommandRoundTripsExactly(executable, arguments);
  }

  /** A name that is not one of a file does break it. */
  lemma TrailingBackslashBreaks(arguments: seq<string>)
    ensures ParseCommand(TaskCommand("C:\\a b\\", arguments)) != ("C:\\a b\\", arguments)
  {
    var name := "C:\\a b\\";
    assert Special(name[4]) && EndsWithBackslash(name);
    CommandRoundTripsExactly(name, arguments);
  }

  lemma QuotedCommand(executable: string, arguments: seq<string>)
    requires !Plain(executable)
    ensures ParseCommand(TaskCommand(executable, arguments)) == (executable, arguments) <==> NameSurvives(executable)
  {
    hide Escape, Parse, Joined, Plain;
    var command, tail, body := TaskCommand(executable, arguments), Tail(arguments), Escape(executable, 0);
    CommandShape(executable, arguments);
    TailParses(arguments);
    assert command == "\"" + body + "\"" + tail;
    assert command[0] == '"';
    var k := IndexFrom(command, 1, c => c == '"');
    if NoQuote(executable) {
      EscapePlain(executable, 0);
      EscapeNoQuote(executable, 0);
      assert forall j :: 1 <= j < 1 + |body| ==> command[j] == body[j - 1] != '"';
      assert command[1 + |body|] == '"';
      IndexIs(command, 1, 1 + |body|, c => c == '"');
      assert command[1..k] == body && command[k + 1..] == tail;
      assert Backslashes(0) + executable == executable;
      if executable == "" {
        EscapeEnd(0);
      }
    } else {
      assert forall j :: 0 <= j < k - 1 ==> command[1..k][j] == command[j + 1] != '"';
    }
  }
}
