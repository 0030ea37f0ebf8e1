// The strict flow-file readers: `parse_flow_file` of src/mix.cpp (289-360),
// src/mix2.cpp (463-563) and src/mix4.cpp (251-350), and of flow7.1.cpp
// (`parse_node` 203-233, `parse_pipe` 236-270, `parse_flow_file` 273-285).
// A record header demands its follow-up lines with their exact prefixes; a
// missing or malformed one ends the program with an error.

module StrictParser {
  import opened Wrappers
  import opened Text
  import opened Flow
  import Toggle = ToggleTokenizer
  import Strict = StrictTokenizer

  /**
   * Mix: src/mix.cpp, which knows nodes, pipes and concatenations.
   * Mix2: src/mix2.cpp and src/mix4.cpp, which add stderr captures and file nodes.
   * Flow71: flow7.1.cpp, which knows nodes and pipes and rejects unbalanced quotes.
   */
  datatype Dialect = Mix | Mix2 | Flow71

  function KindsOf(d: Dialect): Kinds
  {
    Kinds(d != Flow71, d == Mix2)
  }

  /** The fatal errors, one per `[ERROR]` message of the readers. */
  datatype ParseError =
    | MissingCommand(node: string)
    | InvalidCommand(node: string)
    | MismatchedQuotes
    | MissingFromTo(pipe: string)
    | InvalidFromTo(pipe: string)
    | MissingParts(concat: string)
    | BadPartCount(concat: string)
    | MissingPart(concat: string, index: nat)
    | InvalidPart(concat: string, index: nat)
    | MissingCaptureSource(capture: string)
    | MissingFileName(file: string)

  /** The argument vector of a `command=` text. */
  function Argv(d: Dialect, text: string): Result<seq<string>, ParseError>
  {
    if d == Flow71 then
      match Strict.Tokenize(text)
      case Ok(a) => Ok(a)
      case Err(_) => Err(MismatchedQuotes)
    else Ok(Toggle.Tokens(text))
  }

  /** The name of a `stderr` record: the text after `stderr`, one leading `=` removed. */
  function CaptureName(line: string): string
    requires |line| >= 6
  {
    var rest := line[6..];
    if |rest| > 0 && rest[0] == '=' then rest[1..] else rest
  }

  /** `std::stoi` of the count; the part loop runs zero times for a negative one. */
  function PartCount(v: int): nat
  {
    if v < 0 then 0 else v
  }

  /**
   * Parts `i` up to `n` of a concatenation, read from `ls`, after the parts
   * already collected in `acc`.  Each line must start with `part_<i>=`.
   */
  function ReadParts(name: string, ls: seq<string>, i: nat, n: nat, acc: seq<string>)
    : (r: Result<seq<string>, ParseError>)
    ensures r.Ok? ==> i + |ls| >= n && |r.value| == |acc| + (if i < n then n - i else 0)
    decreases n - i
  {
    if i >= n then Ok(acc)
    else if |ls| == 0 then Err(MissingPart(name, i))
    else if !StartsWith(ls[0], PartPrefix(i)) then Err(InvalidPart(name, i))
    else ReadParts(name, ls[1..], i + 1, n, acc + [ls[0][|PartPrefix(i)|..]])
  }

  /** A `node=` header and its `command=` line. */
  function NodeRecord(d: Dialect, ls: seq<string>, t: Tables): (n: Next<ParseError>)
    requires |ls| > 0 && StartsWith(ls[0], "node=")
    ensures Takes(n, ls)
  {
    var name := ls[0][5..];
    if |ls| < 2 then Fail(MissingCommand(name))
    else if !StartsWith(ls[1], "command=") then
      Fail(if d == Flow71 then InvalidCommand(name) else MissingCommand(name))
    else
      match Argv(d, ls[1][8..])
      case Err(e) => Fail(e)
      case Ok(a) => Go(2, t.(nodes := t.nodes[name := a]))
  }

  /** A `pipe=` header and its `from=` and `to=` lines. */
  function PipeRecord(ls: seq<string>, t: Tables): (n: Next<ParseError>)
    requires |ls| > 0 && StartsWith(ls[0], "pipe=")
    ensures Takes(n, ls)
  {
    var name := ls[0][5..];
    if |ls| < 3 then Fail(MissingFromTo(name))
    else if !StartsWith(ls[1], "from=") || !StartsWith(ls[2], "to=") then Fail(InvalidFromTo(name))
    else Go(3, t.(pipes := t.pipes[name := Pipe(ls[1][5..], ls[2][3..])]))
  }

  /** A `concatenate=` header, its `parts=` count and that many `part_<i>=` lines. */
  function ConcatRecord(ls: seq<string>, t: Tables): (n: Next<ParseError>)
    requires |ls| > 0 && StartsWith(ls[0], "concatenate=")
    ensures Takes(n, ls)
  {
    var name := ls[0][12..];
    if |ls| < 2 || !StartsWith(ls[1], "parts=") then Fail(MissingParts(name))
    else
      match LeadingInt(ls[1][6..])
      case None => Fail(BadPartCount(name))
      case Some(v) =>
        var k := PartCount(v);
        match ReadParts(name, ls[2..], 0, k, [])
        case Err(e) => Fail(e)
        case Ok(ps) => Go(2 + k, t.(concats := t.concats[name := ps]))
  }

  /** A `stderr` header and its `from=` line. */
  function CaptureRecord(ls: seq<string>, t: Tables): (n: Next<ParseError>)
    requires |ls| > 0 && StartsWith(ls[0], "stderr")
    ensures Takes(n, ls)
  {
    var name := CaptureName(ls[0]);
    if |ls| < 2 || !StartsWith(ls[1], "from=") then Fail(MissingCaptureSource(name))
    else Go(2, t.(captures := t.captures[name := ls[1][5..]]))
  }

  /** A `file=` header and its `name=` line. */
  function FileRecord(ls: seq<string>, t: Tables): (n: Next<ParseError>)
    requires |ls| > 0 && StartsWith(ls[0], "file=")
    ensures Takes(n, ls)
  {
    var name := ls[0][5..];
    if |ls| < 2 || !StartsWith(ls[1], "name=") then Fail(MissingFileName(name))
    else Go(2, t.(files := t.files[name := ls[1][5..]]))
  }

  /** One turn of the line loop, chosen by the first line's prefix; other lines are skipped. */
  function Record(d: Dialect, ls: seq<string>, t: Tables): (n: Next<ParseError>)
    requires |ls| > 0
    ensures Takes(n, ls)
  {
    var line := ls[0];
    if line == "" then Go(1, t)
    else if StartsWith(line, "node=") then NodeRecord(d, ls, t)
    else if StartsWith(line, "pipe=") then PipeRecord(ls, t)
    else if d != Flow71 && StartsWith(line, "concatenate=") then ConcatRecord(ls, t)
    else if d == Mix2 && StartsWith(line, "stderr") then CaptureRecord(ls, t)
    else if d == Mix2 && StartsWith(line, "file=") then FileRecord(ls, t)
    else Go(1, t)
  }

  /** The tables after reading the remaining lines `ls` into `t`, or the first fatal error. */
  function ParseFrom(d: Dialect, ls: seq<string>, t: Tables): Result<Tables, ParseError>
    decreases |ls|
  {
    if |ls| == 0 then Ok(t)
    else
      match Record(d, ls, t)
      case Fail(e) => Err(e)
      case Go(k, t') => ParseFrom(d, ls[k..], t')
  }

  function Parse(d: Dialect, lines: seq<string>): Result<Tables, ParseError>
  {
    ParseFrom(d, lines, Empty)
  }

  // ---------------------------------------------------------------
  // The reading loops
  // ---------------------------------------------------------------

  /** The part loop of a concatenation whose first part line is `lines[start]`. */
  method ReadPartLines(name: string, lines: seq<string>, start: nat, n: nat)
    returns (r: Result<seq<string>, ParseError>)
    requires start <= |lines|
    ensures r == ReadParts(name, lines[start..], 0, n, [])
  {
    var parts: seq<string> := [];
    var i := 0;
    while i < n
      invariant 0 <= i <= n && start + i <= |lines|
      invariant ReadParts(name, lines[start + i..], i, n, parts) == ReadParts(name, lines[start..], 0, n, [])
      decreases n - i
    {
      if start + i == |lines| {
        return Err(MissingPart(name, i));
      }
      var partLine := lines[start + i];
      var prefix := PartPrefix(i);
      if !StartsWith(partLine, prefix) {
        return Err(InvalidPart(name, i));
      }
      assert lines[start + i..][1..] == lines[start + i + 1..];
      parts := parts + [partLine[|prefix|..]];
      i := i + 1;
    }
    return Ok(parts);
  }

  /** `parse_node`: the node header at `lines[i]`. */
  method ReadNode(d: Dialect, lines: seq<string>, i: nat, t: Tables) returns (n: Next<ParseError>)
    requires i < |lines| && StartsWith(lines[i], "node=")
    ensures n == NodeRecord(d, lines[i..], t)
  {
    var name := lines[i][5..];
    if i + 1 == |lines| {
      return Fail(MissingCommand(name));
    }
    var commandLine := lines[i + 1];
    if !StartsWith(commandLine, "command=") {
      return Fail(if d == Flow71 then InvalidCommand(name) else MissingCommand(name));
    }
    var argv: seq<string>;
    if d == Flow71 {
      var tokens := Strict.TokenizeCommand(commandLine[8..]);
      if tokens.Err? {
        return Fail(MismatchedQuotes);
      }
      argv := tokens.value;
    } else {
      argv := Toggle.TokenizeCommand(commandLine[8..]);
    }
    return Go(2, t.(nodes := t.nodes[name := argv]));
  }

  /** `parse_pipe`: the pipe header at `lines[i]`. */
  method ReadPipe(lines: seq<string>, i: nat, t: Tables) returns (n: Next<ParseError>)
    requires i < |lines| && StartsWith(lines[i], "pipe=")
    ensures n == PipeRecord(lines[i..], t)
  {
    var name := lines[i][5..];
    if i + 2 >= |lines| {
      return Fail(MissingFromTo(name));
    }
    var fromLine := lines[i + 1];
    var toLine := lines[i + 2];
    if !StartsWith(fromLine, "from=") || !StartsWith(toLine, "to=") {
      return Fail(InvalidFromTo(name));
    }
    return Go(3, t.(pipes := t.pipes[name := Pipe(fromLine[5..], toLine[3..])]));
  }

  /** The concatenation header at `lines[i]`. */
  method ReadConcat(lines: seq<string>, i: nat, t: Tables) returns (n: Next<ParseError>)
    requires i < |lines| && StartsWith(lines[i], "concatenate=")
    ensures n == ConcatRecord(lines[i..], t)
  {
    var name := lines[i][12..];
    if i + 1 == |lines| || !StartsWith(lines[i + 1], "parts=") {
      return Fail(MissingParts(name));
    }
    var count := LeadingInt(lines[i + 1][6..]);
    if count.None? {
      return Fail(BadPartCount(name));
    }
    var k := PartCount(count.value);
    assert lines[i..][2..] == lines[i + 2..];
    var parts := ReadPartLines(name, lines, i + 2, k);
    if parts.Err? {
      return Fail(parts.error);
    }
    return Go(2 + k, t.(concats := t.concats[name := parts.value]));
  }

  /** The stderr-capture header at `lines[i]`. */
  method ReadCapture(lines: seq<string>, i: nat, t: Tables) returns (n: Next<ParseError>)
    requires i < |lines| && StartsWith(lines[i], "stderr")
    ensures n == CaptureRecord(lines[i..], t)
  {
    var name := CaptureName(lines[i]);
    if i + 1 == |lines| || !StartsWith(lines[i + 1], "from=") {
      return Fail(MissingCaptureSource(name));
    }
    return Go(2, t.(captures := t.captures[name := lines[i + 1][5..]]));
  }

  /** The file-node header at `lines[i]`. */
  method ReadFile(lines: seq<string>, i: nat, t: Tables) returns (n: Next<ParseError>)
    requires i < |lines| && StartsWith(lines[i], "file=")
    ensures n == FileRecord(lines[i..], t)
  {
    var name := lines[i][5..];
    if i + 1 == |lines| || !StartsWith(lines[i + 1], "name=") {
      return Fail(MissingFileName(name));
    }
    return Go(2, t.(files := t.files[name := lines[i + 1][5..]]));
  }

  /** One turn of the line loop: the record that starts at `lines[i]`. */
  method ReadRecord(d: Dialect, lines: seq<string>, i: nat, t: Tables) returns (n: Next<ParseError>)
    requires i < |lines|
    ensures n == Record(d, lines[i..], t)
  {
    var line := lines[i];
    assert lines[i..][0] == line;
    if line == "" {
      n := Go(1, t);
    } else if StartsWith(line, "node=") {
      n := ReadNode(d, lines, i, t);
    } else if StartsWith(line, "pipe=") {
      n := ReadPipe(lines, i, t);
    } else if d != Flow71 && StartsWith(line, "concatenate=") {
      n := ReadConcat(lines, i, t);
    } else if d == Mix2 && StartsWith(line, "stderr") {
      n := ReadCapture(lines, i, t);
    } else if d == Mix2 && StartsWith(line, "file=") {
      n := ReadFile(lines, i, t);
    } else {
      n := Go(1, t);
    }
  }

  /** The parse after one record: it stops with the record's error, or goes on after the lines it took. */
  lemma ParseStep(d: Dialect, lines: seq<string>, i: nat, t: Tables)
    requires i < |lines|
    ensures Record(d, lines[i..], t).Fail? ==> ParseFrom(d, lines[i..], t) == Err(Record(d, lines[i..], t).error)
    ensures Record(d, lines[i..], t).Go? ==>
      var n := Record(d, lines[i..], t);
      i + n.taken <= |lines| && ParseFrom(d, lines[i..], t) == ParseFrom(d, lines[i + n.taken..], n.tables)
  {
    var n := Record(d, lines[i..], t);
    if n.Go? {
      assert lines[i..][n.taken..] == lines[i + n.taken..];
    }
  }

  lemma ParseFromEnd(d: Dialect, ls: seq<string>, t: Tables)
    requires |ls| == 0
    ensures ParseFrom(d, ls, t) == Ok(t)
  {
  }

  /** The loop invariant of `parse_flow_file`: parsing on from line `i` with tables `t` gives `goal`, the parse of the whole file. */
  ghost predicate Resumes(d: Dialect, lines: seq<string>, i: nat, t: Tables, goal: Result<Tables, ParseError>)
    requires i <= |lines|
  {
    ParseFrom(d, lines[i..], t) == goal
  }

  /** After a turn at line `i`: a fatal error is the parse's error, otherwise the parse resumes after the lines taken. */
  ghost predicate Continues(d: Dialect, lines: seq<string>, i: nat, n: Next<ParseError>, goal: Result<Tables, ParseError>)
  {
    if n.Fail? then goal == Err(n.error)
    else i < i + n.taken <= |lines| && Resumes(d, lines, i + n.taken, n.tables, goal)
  }

  lemma ContinuesGo(d: Dialect, lines: seq<string>, i: nat, n: Next<ParseError>, goal: Result<Tables, ParseError>, i': nat, t': Tables)
    requires Continues(d, lines, i, n, goal) && n.Go?
    requires i' == i + n.taken && t' == n.tables
    ensures i < i' <= |lines| && Resumes(d, lines, i', t', goal)
  {
  }

  lemma ContinuesFail(d: Dialect, lines: seq<string>, i: nat, n: Next<ParseError>, goal: Result<Tables, ParseError>)
    requires Continues(d, lines, i, n, goal) && n.Fail?
    ensures goal == Err(n.error)
  {
  }

  /** One turn of the loop: the record at line `i`, and what it leaves of the parse. */
  method NextRecord(d: Dialect, lines: seq<string>, i: nat, t: Tables, ghost goal: Result<Tables, ParseError>) returns (n: Next<ParseError>)
    requires i < |lines| && Resumes(d, lines, i, t, goal)
    ensures Continues(d, lines, i, n, goal)
  {
    n := ReadRecord(d, lines, i, t);
    ParseStep(d, lines, i, t);
  }

  /** `parse_flow_file`: the getline loop, proved to compute `Parse`. */
  method ParseFlowFile(d: Dialect, lines: seq<string>) returns (r: Result<Tables, ParseError>)
    ensures r == Parse(d, lines)
  {
    assert lines[0..] == lines;
    r := ReadLines(d, lines, Parse(d, lines));
  }

  /** The line loop, from the first line with empty tables. */
  method ReadLines(d: Dialect, lines: seq<string>, ghost goal: Result<Tables, ParseError>) returns (r: Result<Tables, ParseError>)
    requires Resumes(d, lines, 0, Empty, goal)
    ensures r == goal
  {
    var t := Empty;
    var i := 0;
    while i < |lines|
      invariant 0 <= i <= |lines|
      invariant Resumes(d, lines, i, t, goal)
      decreases |lines| - i
    {
      var n := NextRecord(d, lines, i, t, goal);
      if n.Fail? {
        ContinuesFail(d, lines, i, n, goal);
        return Err(n.error);
      }
      ghost var i0 := i;
      t, i := n.tables, i + n.taken;
      ContinuesGo(d, lines, i0, n, goal, i, t);
    }
    ParseFromEnd(d, lines[i..], t);
    return Ok(t);
  }

  // ---------------------------------------------------------------
  // Printed records read back
  // ---------------------------------------------------------------

  lemma ReadOnePart(name: string, p: string, i: nat, n: nat, tail: seq<string>, acc: seq<string>)
    requires i < n
    ensures ReadParts(name, [PartPrefix(i) + p] + tail, i, n, acc) == ReadParts(name, tail, i + 1, n, acc + [p])
  {
    var ls := [PartPrefix(i) + p] + tail;
    StartsWithConcat(PartPrefix(i), p);
    assert ls[0] == PartPrefix(i) + p;
    assert ls[1..] == tail;
  }

  lemma {:induction false} ReadPrintedParts(name: string, ps: seq<string>, i: nat, n: nat, rest: seq<string>, acc: seq<string>)
    requires i + |ps| <= n
    ensures ReadParts(name, PartLines(ps, i) + rest, i, n, acc) == ReadParts(name, rest, i + |ps|, n, acc + ps)
    decreases |ps|
  {
    var ls := PartLines(ps, i) + rest;
    if |ps| == 0 {
      assert ls == rest;
      assert acc + ps == acc;
    } else {
      var line := PartPrefix(i) + ps[0];
      var tail := PartLines(ps[1..], i + 1) + rest;
      assert PartLines(ps, i) == [line] + PartLines(ps[1..], i + 1);
      assert ls == [line] + tail;
      ReadOnePart(name, ps[0], i, n, tail, acc);
      ReadPrintedParts(name, ps[1..], i + 1, n, rest, acc + [ps[0]]);
      assert acc + [ps[0]] + ps[1..] == acc + ps;
    }
  }

  /** flow7.1.cpp passes over part lines. */
  lemma {:induction false} SkipPartLines(ps: seq<string>, i: nat, rest: seq<string>, t: Tables)
    ensures ParseFrom(Flow71, PartLines(ps, i) + rest, t) == ParseFrom(Flow71, rest, t)
    decreases |ps|
  {
    var ls := PartLines(ps, i) + rest;
    if |ps| == 0 {
      assert ls == rest;
    } else {
      assert ls[0] == "part_" + (NatToString(i) + "=" + ps[0]);
      NotStartsWith(ls[0], "node=", 0);
      NotStartsWith(ls[0], "pipe=", 1);
      assert ls[1..] == PartLines(ps[1..], i + 1) + rest;
      SkipPartLines(ps[1..], i + 1, rest, t);
    }
  }

  lemma ReadNodeBack(d: Dialect, n: string, a: seq<string>, rest: seq<string>, t: Tables)
    requires PlainWords(a)
    ensures ParseFrom(d, Print(NodeRec(n, a)) + rest, t) == ParseFrom(d, rest, t.(nodes := t.nodes[n := a]))
  {
    var ls := Print(NodeRec(n, a)) + rest;
    assert ls[0] == "node=" + n && ls[1] == "command=" + Join(a, " ");
    StartsWithConcat("node=", n);
    StartsWithConcat("command=", Join(a, " "));
    Toggle.PlainRoundTrip(a);
    Strict.PlainRoundTrip(a);
    assert ls[2..] == rest;
  }

  lemma ReadPipeBack(d: Dialect, n: string, f: string, to: string, rest: seq<string>, t: Tables)
    ensures ParseFrom(d, Print(PipeRec(n, f, to)) + rest, t) == ParseFrom(d, rest, t.(pipes := t.pipes[n := Pipe(f, to)]))
  {
    var ls := Print(PipeRec(n, f, to)) + rest;
    assert ls[0] == "pipe=" + n && ls[1] == "from=" + f && ls[2] == "to=" + to;
    StartsWithConcat("pipe=", n);
    StartsWithConcat("from=", f);
    StartsWithConcat("to=", to);
    NotStartsWith(ls[0], "node=", 0);
    assert ls[3..] == rest;
  }

  lemma ReadConcatBack(d: Dialect, n: string, ps: seq<string>, rest: seq<string>, t: Tables)
    ensures ParseFrom(d, Print(ConcatRec(n, ps)) + rest, t) == ParseFrom(d, rest, Apply(KindsOf(d), t, ConcatRec(n, ps)))
  {
    var ls := Print(ConcatRec(n, ps)) + rest;
    ConcatLayout(n, ps, rest, ls);
    if d == Flow71 {
      SkipConcatLines(n, ps, rest, t, ls);
    } else {
      ConcatLinesRead(d, n, ps, rest, t, ls);
    }
  }

  /** flow7.1.cpp passes over every line of a concatenation. */
  lemma SkipConcatLines(n: string, ps: seq<string>, rest: seq<string>, t: Tables, ls: seq<string>)
    requires |ls| >= 2 && ls[0] == "concatenate=" + n && ls[1] == "parts=" + NatToString(|ps|)
    requires ls[2..] == PartLines(ps, 0) + rest
    ensures ParseFrom(Flow71, ls, t) == ParseFrom(Flow71, rest, t)
  {
    NotStartsWith(ls[0], "node=", 0);
    NotStartsWith(ls[0], "pipe=", 0);
    NotStartsWith(ls[1], "node=", 1);
    NotStartsWith(ls[1], "pipe=", 1);
    assert ls[1..][1..] == ls[2..];
    SkipPartLines(ps, 0, rest, t);
  }

  /** The other strict readers store the concatenation and go on after its last part. */
  lemma ConcatLinesRead(d: Dialect, n: string, ps: seq<string>, rest: seq<string>, t: Tables, ls: seq<string>)
    requires d != Flow71
    requires |ls| >= 2 + |ps| && ls[0] == "concatenate=" + n && ls[1] == "parts=" + NatToString(|ps|)
    requires ls[2..] == PartLines(ps, 0) + rest && ls[2 + |ps|..] == rest
    ensures ParseFrom(d, ls, t) == ParseFrom(d, rest, Apply(KindsOf(d), t, ConcatRec(n, ps)))
  {
    NotStartsWith(ls[0], "node=", 0);
    NotStartsWith(ls[0], "pipe=", 0);
    ConcatRecordRead(n, ps, rest, t, ls);
    assert Record(d, ls, t) == Go(2 + |ps|, t.(concats := t.concats[n := ps]));
  }

  lemma ConcatRecordRead(n: string, ps: seq<string>, rest: seq<string>, t: Tables, ls: seq<string>)
    requires |ls| >= 2 && ls[0] == "concatenate=" + n && ls[1] == "parts=" + NatToString(|ps|)
    requires ls[2..] == PartLines(ps, 0) + rest
    ensures StartsWith(ls[0], "concatenate=")
    ensures ConcatRecord(ls, t) == Go(2 + |ps|, t.(concats := t.concats[n := ps]))
  {
    StartsWithConcat("concatenate=", n);
    StartsWithConcat("parts=", NatToString(|ps|));
    ReadsBackDecimal(|ps|);
    assert ls[0][12..] == n;
    assert LeadingInt(ls[1][6..]) == Some(|ps|);
    PrintedPartsOk(n, ps, rest);
  }

  lemma PrintedPartsOk(n: string, ps: seq<string>, rest: seq<string>)
    ensures ReadParts(n, PartLines(ps, 0) + rest, 0, |ps|, []) == Ok(ps)
  {
    ReadPrintedParts(n, ps, 0, |ps|, rest, []);
    assert [] + ps == ps;
  }

  lemma ReadCaptureBack(d: Dialect, n: string, f: string, rest: seq<string>, t: Tables)
    ensures ParseFrom(d, Print(CaptureRec(n, f)) + rest, t) == ParseFrom(d, rest, Apply(KindsOf(d), t, CaptureRec(n, f)))
  {
    var ls := Print(CaptureRec(n, f)) + rest;
    var header := "stderr=" + n;
    var source := "from=" + f;
    assert ls[0] == header && ls[1] == source;
    NotStartsWith(header, "node=", 0);
    NotStartsWith(header, "pipe=", 0);
    NotStartsWith(header, "concatenate=", 0);
    if d == Mix2 {
      assert header == "stderr" + ("=" + n);
      StartsWithConcat("stderr", "=" + n);
      StartsWithConcat("from=", f);
      assert ls[2..] == rest;
    } else {
      NotStartsWith(source, "node=", 0);
      NotStartsWith(source, "pipe=", 0);
      NotStartsWith(source, "concatenate=", 0);
      assert ls[1..][1..] == rest;
    }
  }

  lemma ReadFileBack(d: Dialect, n: string, path: string, rest: seq<string>, t: Tables)
    ensures ParseFrom(d, Print(FileRec(n, path)) + rest, t) == ParseFrom(d, rest, Apply(KindsOf(d), t, FileRec(n, path)))
  {
    var ls := Print(FileRec(n, path)) + rest;
    var header := "file=" + n;
    var source := "name=" + path;
    assert ls[0] == header && ls[1] == source;
    NotStartsWith(header, "node=", 0);
    NotStartsWith(header, "pipe=", 0);
    NotStartsWith(header, "concatenate=", 0);
    NotStartsWith(header, "stderr", 0);
    if d == Mix2 {
      StartsWithConcat("file=", n);
      StartsWithConcat("name=", path);
      assert ls[2..] == rest;
    } else {
      NotStartsWith(source, "node=", 1);
      NotStartsWith(source, "pipe=", 0);
      NotStartsWith(source, "concatenate=", 0);
      assert ls[1..][1..] == rest;
    }
  }

  lemma ReadFreeBack(d: Dialect, text: string, rest: seq<string>, t: Tables)
    requires Free(text)
    ensures ParseFrom(d, [text] + rest, t) == ParseFrom(d, rest, t)
  {
    assert "node" + "=" == "node=" && "pipe" + "=" == "pipe=" && "concatenate" + "=" == "concatenate=";
    NotStartsWithLonger(text, "node", "=");
    NotStartsWithLonger(text, "pipe", "=");
    NotStartsWithLonger(text, "concatenate", "=");
    assert ([text] + rest)[1..] == rest;
  }

  lemma ReadRecordBack(d: Dialect, r: Record, rest: seq<string>, t: Tables)
    requires Plain(r)
    ensures ParseFrom(d, Print(r) + rest, t) == ParseFrom(d, rest, Apply(KindsOf(d), t, r))
  {
    match r
    case NodeRec(n, a) => ReadNodeBack(d, n, a, rest, t);
    case PipeRec(n, f, to) => ReadPipeBack(d, n, f, to, rest, t);
    case ConcatRec(n, ps) => ReadConcatBack(d, n, ps, rest, t);
    case CaptureRec(n, f) => ReadCaptureBack(d, n, f, rest, t);
    case FileRec(n, path) => ReadFileBack(d, n, path, rest, t);
    case Blank => assert (Print(r) + rest)[1..] == rest;
    case Other(text) => ReadFreeBack(d, text, rest, t);
  }

  lemma {:induction false} ReadLinesBack(d: Dialect, rs: seq<Record>, rest: seq<string>, t: Tables)
    requires AllPlain(rs)
    ensures ParseFrom(d, Lines(rs) + rest, t) == ParseFrom(d, rest, Fill(KindsOf(d), t, rs))
    decreases |rs|
  {
    if |rs| == 0 {
      assert Lines(rs) + rest == rest;
    } else {
      assert Lines(rs) + rest == Print(rs[0]) + (Lines(rs[1..]) + rest);
      assert Plain(rs[0]);
      ReadRecordBack(d, rs[0], Lines(rs[1..]) + rest, t);
      ReadLinesBack(d, rs[1..], rest, Apply(KindsOf(d), t, rs[0]));
    }
  }

  /**
   * Printing plain records and reading the lines back gives the tables the
   * records describe, with the kinds this dialect does not know passed over.
   */
  lemma RoundTrip(d: Dialect, rs: seq<Record>)
    requires AllPlain(rs)
    ensures Parse(d, Lines(rs)) == Ok(Build(KindsOf(d), rs))
  {
    ReadLinesBack(d, rs, [], Empty);
    assert Lines(rs) + [] == Lines(rs);
  }

  /** Of two node records with the same name, the later one is read. */
  lemma LastNodeKept(d: Dialect, rs: seq<Record>, n: string, a: seq<string>)
    requires AllPlain(rs) && PlainWords(a)
    ensures Parse(d, Lines(rs + [NodeRec(n, a)])).Ok?
    ensures n in Parse(d, Lines(rs + [NodeRec(n, a)])).value.nodes
    ensures Parse(d, Lines(rs + [NodeRec(n, a)])).value.nodes[n] == a
  {
    assert Plain(NodeRec(n, a));
    assert AllPlain(rs + [NodeRec(n, a)]);
    RoundTrip(d, rs + [NodeRec(n, a)]);
    LaterNodeWins(KindsOf(d), rs, n, a);
  }

  // ---------------------------------------------------------------
  // Fatal errors
  // ---------------------------------------------------------------

  /** A node header must be followed by its `command=` line. */
  lemma NodeNeedsCommand(d: Dialect, rs: seq<Record>, n: string, rest: seq<string>)
    requires AllPlain(rs)
    requires |rest| == 0 || !StartsWith(rest[0], "command=")
    ensures Parse(d, Lines(rs) + (["node=" + n] + rest))
         == Err(if |rest| > 0 && d == Flow71 then InvalidCommand(n) else MissingCommand(n))
  {
    var ls := ["node=" + n] + rest;
    ReadLinesBack(d, rs, ls, Empty);
    StartsWithConcat("node=", n);
    assert ls[0] == "node=" + n;
    assert |rest| > 0 ==> ls[1] == rest[0];
  }

  /** A pipe header must be followed by a `from=` line and a `to=` line. */
  lemma PipeNeedsEnds(d: Dialect, rs: seq<Record>, n: string, rest: seq<string>)
    requires AllPlain(rs)
    requires |rest| < 2 || !StartsWith(rest[0], "from=") || !StartsWith(rest[1], "to=")
    ensures Parse(d, Lines(rs) + (["pipe=" + n] + rest))
         == Err(if |rest| < 2 then MissingFromTo(n) else InvalidFromTo(n))
  {
    var ls := ["pipe=" + n] + rest;
    ReadLinesBack(d, rs, ls, Empty);
    StartsWithConcat("pipe=", n);
    assert ls[0] == "pipe=" + n;
    NotStartsWith(ls[0], "node=", 0);
    assert |rest| >= 2 ==> ls[1] == rest[0] && ls[2] == rest[1];
  }

  /** A part count `std::stoi` cannot read ends the program. */
  lemma CountMustBeNumber(d: Dialect, rs: seq<Record>, n: string, text: string, rest: seq<string>)
    requires d != Flow71 && AllPlain(rs) && LeadingInt(text).None?
    ensures Parse(d, Lines(rs) + (["concatenate=" + n, "parts=" + text] + rest)) == Err(BadPartCount(n))
  {
    var ls := ["concatenate=" + n, "parts=" + text] + rest;
    ReadLinesBack(d, rs, ls, Empty);
    StartsWithConcat("concatenate=", n);
    StartsWithConcat("parts=", text);
    NotStartsWith(ls[0], "node=", 0);
    NotStartsWith(ls[0], "pipe=", 0);
  }

  /** The count line the printer writes reads back as the count. */
  lemma CountLine(k: nat)
    ensures StartsWith("parts=" + NatToString(k), "parts=")
    ensures LeadingInt(("parts=" + NatToString(k))[6..]) == Some(k as int)
  {
    StartsWithConcat("parts=", NatToString(k));
    ReadsBackDecimal(k);
  }

  /** A concatenation whose part lines fail to read fails with the part reader's error. */
  lemma ConcatPartsFail(n: string, count: string, k: nat, body: seq<string>, t: Tables)
    requires StartsWith(count, "parts=") && LeadingInt(count[6..]) == Some(k as int)
    requires ReadParts(n, body, 0, k, []).Err?
    ensures ConcatRecord(["concatenate=" + n, count] + body, t) == Fail(ReadParts(n, body, 0, k, []).error)
  {
    var ls := ["concatenate=" + n, count] + body;
    assert ls[0] == "concatenate=" + n && ls[1] == count;
    StartsWithConcat("concatenate=", n);
    assert ls[2..] == body;
  }

  lemma ConcatHeader(d: Dialect, n: string, count: string, body: seq<string>, t: Tables)
    requires d != Flow71
    ensures ConcatRecord(["concatenate=" + n, count] + body, t).Fail? ==>
      ParseFrom(d, ["concatenate=" + n, count] + body, t) == Err(ConcatRecord(["concatenate=" + n, count] + body, t).error)
  {
    var ls := ["concatenate=" + n, count] + body;
    assert ls[0] == "concatenate=" + n;
    StartsWithConcat("concatenate=", n);
    NotStartsWith(ls[0], "node=", 0);
    NotStartsWith(ls[0], "pipe=", 0);
  }

  lemma TooFewParts(n: string, ps: seq<string>, k: nat, rest: seq<string>)
    requires |ps| < k
    requires |rest| == 0 || !StartsWith(rest[0], PartPrefix(|ps|))
    ensures ReadParts(n, PartLines(ps, 0) + rest, 0, k, [])
         == Err(if |rest| == 0 then MissingPart(n, |ps|) else InvalidPart(n, |ps|))
  {
    ReadPrintedParts(n, ps, 0, k, rest, []);
    assert [] + ps == ps;
  }

  /**
   * Part lines are numbered from 0: when fewer than the announced count
   * follow in order, the first missing number is reported.
   */
  lemma PartsInOrder(d: Dialect, rs: seq<Record>, n: string, ps: seq<string>, k: nat, rest: seq<string>)
    requires d != Flow71 && AllPlain(rs) && |ps| < k
    requires |rest| == 0 || !StartsWith(rest[0], PartPrefix(|ps|))
    ensures Parse(d, Lines(rs) + (["concatenate=" + n, "parts=" + NatToString(k)] + PartLines(ps, 0) + rest))
         == Err(if |rest| == 0 then MissingPart(n, |ps|) else InvalidPart(n, |ps|))
  {
    var count := "parts=" + NatToString(k);
    var body := PartLines(ps, 0) + rest;
    var t := Build(KindsOf(d), rs);
    assert ["concatenate=" + n, count] + PartLines(ps, 0) + rest == ["concatenate=" + n, count] + body;
    ReadLinesBack(d, rs, ["concatenate=" + n, count] + body, Empty);
    CountLine(k);
    TooFewParts(n, ps, k, rest);
    ConcatPartsFail(n, count, k, body, t);
    ConcatHeader(d, n, count, body, t);
  }

  /**
   * The part reader succeeds exactly when the next `n - i` lines start with
   * `part_<i>=`, `part_<i+1>=` and so on.
   */
  lemma {:induction false} ReadPartsAccepts(name: string, ls: seq<string>, i: nat, n: nat, acc: seq<string>)
    requires i <= n
    ensures ReadParts(name, ls, i, n, acc).Ok? <==>
      |ls| >= n - i && forall j :: 0 <= j < n - i ==> StartsWith(ls[j], PartPrefix(i + j))
    decreases n - i
  {
    if i < n && |ls| > 0 && StartsWith(ls[0], PartPrefix(i)) {
      var tail := ls[1..];
      ReadPartsAccepts(name, tail, i + 1, n, acc + [ls[0][|PartPrefix(i)|..]]);
      if |ls| >= n - i && forall j :: 0 <= j < n - i ==> StartsWith(ls[j], PartPrefix(i + j)) {
        forall j | 0 <= j < n - (i + 1)
          ensures StartsWith(tail[j], PartPrefix(i + 1 + j))
        {
          assert tail[j] == ls[j + 1];
          assert StartsWith(ls[j + 1], PartPrefix(i + (j + 1)));
        }
      }
      if |tail| >= n - (i + 1) && forall j :: 0 <= j < n - (i + 1) ==> StartsWith(tail[j], PartPrefix(i + 1 + j)) {
        forall j | 0 < j < n - i
          ensures StartsWith(ls[j], PartPrefix(i + j))
        {
          assert ls[j] == tail[j - 1];
          assert StartsWith(tail[j - 1], PartPrefix(i + 1 + (j - 1)));
        }
      }
    }
  }

  /** What the part reader appends: line `j`'s value after its `part_<i+j>=` prefix, in order. */
  lemma {:induction false} ReadPartsValues(name: string, ls: seq<string>, i: nat, n: nat, acc: seq<string>)
    requires i <= n && ReadParts(name, ls, i, n, acc).Ok?
    ensures |ls| >= n - i
    ensures ReadParts(name, ls, i, n, acc).value[..|acc|] == acc
    ensures forall j :: 0 <= j < n - i ==>
      StartsWith(ls[j], PartPrefix(i + j)) && ReadParts(name, ls, i, n, acc).value[|acc| + j] == ls[j][|PartPrefix(i + j)|..]
    decreases n - i
  {
    if i < n {
      var tail := ls[1..];
      var acc' := acc + [ls[0][|PartPrefix(i)|..]];
      ReadPartsValues(name, tail, i + 1, n, acc');
      var v := ReadParts(name, ls, i, n, acc).value;
      assert v == ReadParts(name, tail, i + 1, n, acc').value;
      assert v[..|acc|] == v[..|acc'|][..|acc|];
      assert v[|acc|] == v[..|acc'|][|acc|];
      forall j | 0 < j < n - i
        ensures StartsWith(ls[j], PartPrefix(i + j)) && v[|acc| + j] == ls[j][|PartPrefix(i + j)|..]
      {
        assert ls[j] == tail[j - 1];
        assert v[|acc'| + (j - 1)] == tail[j - 1][|PartPrefix(i + 1 + (j - 1))|..];
      }
    }
  }

  /**
   * A concatenation the strict readers accept stores, under the header's
   * name, one part per announced `part_<i>=` line, in the order of the
   * lines, and takes the header, the count line and those lines.
   */
  lemma StoredPartsInOrder(ls: seq<string>, t: Tables)
    requires |ls| > 0 && StartsWith(ls[0], "concatenate=") && ConcatRecord(ls, t).Go?
    ensures |ls| >= ConcatRecord(ls, t).taken >= 2
    ensures var k := ConcatRecord(ls, t).taken - 2;
      var ps := ConcatRecord(ls, t).tables.concats[ls[0][12..]];
      StartsWith(ls[1], "parts=") && LeadingInt(ls[1][6..]).Some? && k == PartCount(LeadingInt(ls[1][6..]).value) &&
      |ps| == k &&
      (forall j :: 0 <= j < k ==> StartsWith(ls[2 + j], PartPrefix(j)) && ps[j] == ls[2 + j][|PartPrefix(j)|..]) &&
      ConcatRecord(ls, t).tables == t.(concats := t.concats[ls[0][12..] := ps])
  {
    var k := PartCount(LeadingInt(ls[1][6..]).value);
    ReadPartsAccepts(ls[0][12..], ls[2..], 0, k, []);
    ReadPartsValues(ls[0][12..], ls[2..], 0, k, []);
    assert forall j :: 0 <= j < k ==> ls[2..][j] == ls[2 + j];
  }

  /**
   * A command with an unclosed quote is fatal only to flow7.1.cpp; the mix
   * programs keep the toggle tokeniser's reading of it.
   */
  lemma UnclosedQuote(d: Dialect, rs: seq<Record>, n: string, text: string, rest: seq<string>)
    requires AllPlain(rs) && Strict.Tokenize(text).Err?
    ensures d == Flow71 ==> Parse(d, Lines(rs) + (["node=" + n, "command=" + text] + rest)) == Err(MismatchedQuotes)
    ensures d != Flow71 ==>
      var t := Build(KindsOf(d), rs);
      Parse(d, Lines(rs) + (["node=" + n, "command=" + text] + rest))
        == ParseFrom(d, rest, t.(nodes := t.nodes[n := Toggle.Tokens(text)]))
  {
    var ls := ["node=" + n, "command=" + text] + rest;
    ReadLinesBack(d, rs, ls, Empty);
    StartsWithConcat("node=", n);
    StartsWithConcat("command=", text);
    assert ls[2..] == rest;
  }

  /** `stderr` need not be followed by `=`: `stderrlog` and `stderr=log` name the same capture. */
  lemma CaptureHeaderForms(rs: seq<Record>, n: string, f: string, rest: seq<string>)
    requires AllPlain(rs) && (|n| == 0 || n[0] != '=')
    ensures Parse(Mix2, Lines(rs) + (["stderr" + n, "from=" + f] + rest))
         == Parse(Mix2, Lines(rs) + (["stderr=" + n, "from=" + f] + rest))
  {
    var ls := ["stderr" + n, "from=" + f] + rest;
    ReadLinesBack(Mix2, rs, ls, Empty);
    ReadLinesBack(Mix2, rs, Print(CaptureRec(n, f)) + rest, Empty);
    ReadCaptureBack(Mix2, n, f, rest, Build(KindsOf(Mix2), rs));
    StartsWithConcat("stderr", n);
    StartsWithConcat("from=", f);
    NotStartsWith(ls[0], "node=", 0);
    NotStartsWith(ls[0], "pipe=", 0);
    NotStartsWith(ls[0], "concatenate=", 0);
    assert ls[2..] == rest;
  }
}
