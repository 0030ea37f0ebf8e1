// The lenient flow-file readers: `parse_node`, `parse_pipe`,
// `parse_concatenation` and the line loop of flow4.cpp (244-339) and
// flow3.cpp (63-174), their node-and-pipe subsets in flow5.cpp (185-249),
// flow6.cpp (183-247) and src/flow3.cpp (127-195), the whitespace-tokenising
// flow2.cpp (45-137, 216-225), and flow.cpp (55-123, 201-211), which reads
// record names as the third word of the header line.  A follow-up line is
// taken as it comes; a line missing at the end of the file reads as empty.

module LenientParser {
  import opened Wrappers
  import opened Text
  import opened Flow
  import W = Words
  import QJ = QuoteJoin

  /**
   * quoteJoining: the command is tokenised by quote re-joining (else by a
   * whitespace split); concat: `concatenate=` records are read; headerWords:
   * the name is the third word of the header and the command line is kept
   * whole, as in flow.cpp.
   */
  datatype Dialect = Dialect(quoteJoining: bool, concat: bool, headerWords: bool)

  /** flow3.cpp and flow4.cpp. */
  const Flow4 := Dialect(true, true, false)
  /** flow5.cpp, flow6.cpp and src/flow3.cpp. */
  const Flow5 := Dialect(true, false, false)
  /** flow2.cpp. */
  const Flow2 := Dialect(false, true, false)
  /** flow.cpp as written. */
  const FlowCpp := Dialect(false, true, true)
  /** flow.cpp as its comments describe it (`node=echo_foo` names `echo_foo`). */
  const FlowCppIntended := Dialect(false, true, false)

  /** `sscanf("parts=%d")` matched nothing, so the loop bound is an uninitialised `int`. */
  datatype ParseError = UndefinedCount(concat: string)

  /** Line `i`, or the empty string `std::getline` leaves once the file is exhausted. */
  function Line(ls: seq<string>, i: nat): string
  {
    if i < |ls| then ls[i] else ""
  }

  function Taken(ls: seq<string>, k: nat): nat
  {
    if k <= |ls| then k else |ls|
  }

  /** `iss >> kind >> equal_sign >> name`: the third word, or empty when there is none. */
  function ThirdWord(line: string): string
  {
    var ws := W.Words(line);
    if |ws| >= 3 then ws[2] else ""
  }

  /** The record name on a header line whose prefix has length `prefix`. */
  function Name(d: Dialect, header: string, prefix: nat): string
    requires prefix <= |header|
  {
    if d.headerWords then ThirdWord(header) else header[prefix..]
  }

  /** The argument vector read from a node's second line; `command=` is optional. */
  function Argv(d: Dialect, commandLine: string): seq<string>
  {
    var text := if !d.headerWords && StartsWith(commandLine, "command=") then commandLine[8..] else commandLine;
    if d.quoteJoining then QJ.Tokens(text) else W.Words(text)
  }

  /** `sscanf(line, "parts=%d", &n)` when it matches; a negative count runs the loop zero times. */
  function PartCount(line: string): Option<nat>
  {
    if !StartsWith(line, "parts=") then None
    else
      match LeadingInt(line[6..])
      case None => None
      case Some(v) => Some(if v < 0 then 0 else v)
  }

  /** The `k` parts on the lines from `start`: each the text after its first `=`. */
  function Parts(ls: seq<string>, start: nat, k: nat): (r: seq<string>)
    ensures |r| == k
  {
    if k == 0 then [] else Parts(ls, start, k - 1) + [After(Line(ls, start + k - 1), '=')]
  }

  function NodeRecord(d: Dialect, ls: seq<string>, t: Tables): (n: Next<ParseError>)
    requires |ls| > 0 && StartsWith(ls[0], "node=")
    ensures Takes(n, ls)
  {
    Go(Taken(ls, 2), t.(nodes := t.nodes[Name(d, ls[0], 5) := Argv(d, Line(ls, 1))]))
  }

  function PipeRecord(d: Dialect, ls: seq<string>, t: Tables): (n: Next<ParseError>)
    requires |ls| > 0 && StartsWith(ls[0], "pipe=")
    ensures Takes(n, ls)
  {
    var p := Pipe(After(Line(ls, 1), '='), After(Line(ls, 2), '='));
    Go(Taken(ls, 3), t.(pipes := t.pipes[Name(d, ls[0], 5) := p]))
  }

  function ConcatRecord(d: Dialect, ls: seq<string>, t: Tables): (n: Next<ParseError>)
    requires |ls| > 0 && StartsWith(ls[0], "concatenate=")
    ensures Takes(n, ls)
  {
    var name := Name(d, ls[0], 12);
    match PartCount(Line(ls, 1))
    case None => Fail(UndefinedCount(name))
    case Some(k) => Go(Taken(ls, 2 + k), t.(concats := t.concats[name := Parts(ls, 2, k)]))
  }

  /** One turn of the line loop: a header found at position 0 decides the record. */
  function Record(d: Dialect, ls: seq<string>, t: Tables): (n: Next<ParseError>)
    requires |ls| > 0
    ensures Takes(n, ls)
  {
    if StartsWith(ls[0], "node=") then NodeRecord(d, ls, t)
    else if StartsWith(ls[0], "pipe=") then PipeRecord(d, ls, t)
    else if d.concat && StartsWith(ls[0], "concatenate=") then ConcatRecord(d, ls, t)
    else Go(1, t)
  }

  function ParseFrom(d: Dialect, ls: seq<string>, t: Tables): Result<Tables, ParseError>
    decreases |ls|
  {
    if |ls| == 0 then Ok(t)
    else
      match Record(d, ls, t)
      case Fail(e) => Err(e)
      case Go(k, t') => ParseFrom(d, ls[k..], t')
  }

  function Parse(d: Dialect, lines: seq<string>): Result<Tables, ParseError>
  {
    ParseFrom(d, lines, Empty)
  }

  // ---------------------------------------------------------------
  // The reading loops
  // ---------------------------------------------------------------

  method ReadName(d: Dialect, header: string, prefix: nat) returns (name: string)
    requires prefix <= |header|
    ensures name == Name(d, header, prefix)
  {
    if d.headerWords {
      var ws := W.Split(header);
      name := if |ws| >= 3 then ws[2] else "";
    } else {
      name := header[prefix..];
    }
  }

  /** `parse_node`. */
  method ReadNode(d: Dialect, lines: seq<string>, i: nat, t: Tables) returns (n: Next<ParseError>)
    requires i < |lines| && StartsWith(lines[i], "node=")
    ensures n == NodeRecord(d, lines[i..], t)
  {
    var name := ReadName(d, lines[i], 5);
    var commandLine := if i + 1 < |lines| then lines[i + 1] else "";
    if !d.headerWords && StartsWith(commandLine, "command=") {
      commandLine := commandLine[8..];
    }
    var argv: seq<string>;
    if d.quoteJoining {
      argv := QJ.TokenizeCommand(commandLine);
    } else {
      argv := W.Split(commandLine);
    }
    n := Go(if i + 2 <= |lines| then 2 else |lines| - i, t.(nodes := t.nodes[name := argv]));
  }

  /** `parse_pipe`. */
  method ReadPipe(d: Dialect, lines: seq<string>, i: nat, t: Tables) returns (n: Next<ParseError>)
    requires i < |lines| && StartsWith(lines[i], "pipe=")
    ensures n == PipeRecord(d, lines[i..], t)
  {
    var name := ReadName(d, lines[i], 5);
    var from := if i + 1 < |lines| then lines[i + 1] else "";
    from := After(from, '=');
    var to := if i + 2 < |lines| then lines[i + 2] else "";
    to := After(to, '=');
    n := Go(if i + 3 <= |lines| then 3 else |lines| - i, t.(pipes := t.pipes[name := Pipe(from, to)]));
  }

  /** The part loop: `k` lines from `start`, each cut after its first `=`. */
  method ReadParts(lines: seq<string>, start: nat, k: nat) returns (parts: seq<string>)
    ensures parts == Parts(lines, start, k)
  {
    parts := [];
    var j := 0;
    while j < k
      invariant 0 <= j <= k
      invariant parts == Parts(lines, start, j)
    {
      var part := if start + j < |lines| then lines[start + j] else "";
      parts := parts + [After(part, '=')];
      j := j + 1;
    }
  }

  lemma {:induction false} PartsShift(lines: seq<string>, i: nat, start: nat, k: nat)
    requires i <= |lines|
    ensures Parts(lines[i..], start, k) == Parts(lines, i + start, k)
    decreases k
  {
    if k > 0 {
      PartsShift(lines, i, start, k - 1);
      assert Line(lines[i..], start + k - 1) == Line(lines, i + start + k - 1);
    }
  }

  /** `parse_concatenation`. */
  method ReadConcat(d: Dialect, lines: seq<string>, i: nat, t: Tables) returns (n: Next<ParseError>)
    requires i < |lines| && StartsWith(lines[i], "concatenate=")
    ensures n == ConcatRecord(d, lines[i..], t)
  {
    var name := ReadName(d, lines[i], 12);
    var count := PartCount(Line(lines, i + 1));
    if count.None? {
      LinesFrom(lines, i, 2);
      return Fail(UndefinedCount(name));
    }
    var k: nat := count.value;
    var parts := ReadParts(lines, i + 2, k);
    PartsShift(lines, i, 2, k);
    LinesFrom(lines, i, 2 + k);
    n := Go(if i + 2 + k <= |lines| then 2 + k else |lines| - i, t.(concats := t.concats[name := parts]));
  }

  /** The lines from `i` on, seen from line `i`: the first two, and how many of `k` lines remain. */
  lemma LinesFrom(lines: seq<string>, i: nat, k: nat)
    requires i < |lines|
    ensures lines[i..][0] == lines[i]
    ensures Line(lines[i..], 1) == Line(lines, i + 1)
    ensures Taken(lines[i..], k) == if i + k <= |lines| then k else |lines| - i
  {
  }

  method ReadRecord(d: Dialect, lines: seq<string>, i: nat, t: Tables) returns (n: Next<ParseError>)
    requires i < |lines|
    ensures n == Record(d, lines[i..], t)
  {
    var line := lines[i];
    assert lines[i..][0] == line;
    if StartsWith(line, "node=") {
      n := ReadNode(d, lines, i, t);
    } else if StartsWith(line, "pipe=") {
      n := ReadPipe(d, lines, i, t);
    } else if d.concat && StartsWith(line, "concatenate=") {
      n := ReadConcat(d, lines, i, t);
    } else {
      n := Go(1, t);
    }
  }

  /** The parse after one record: it stops with the record's error, or goes on after the lines it took. */
  lemma ParseStep(d: Dialect, lines: seq<string>, i: nat, t: Tables)
    requires i < |lines|
    ensures Record(d, lines[i..], t).Fail? ==> ParseFrom(d, lines[i..], t) == Err(Record(d, lines[i..], t).error)
    ensures Record(d, lines[i..], t).Go? ==>
      var n := Record(d, lines[i..], t);
      i + n.taken <= |lines| && ParseFrom(d, lines[i..], t) == ParseFrom(d, lines[i + n.taken..], n.tables)
  {
    var n := Record(d, lines[i..], t);
    if n.Go? {
      assert lines[i..][n.taken..] == lines[i + n.taken..];
    }
  }

  lemma ParseFromEnd(d: Dialect, ls: seq<string>, t: Tables)
    requires |ls| == 0
    ensures ParseFrom(d, ls, t) == Ok(t)
  {
  }

  /** The loop invariant of `parse_flow_file`: parsing on from line `i` with tables `t` gives `goal`, the parse of the whole file. */
  ghost predicate Resumes(d: Dialect, lines: seq<string>, i: nat, t: Tables, goal: Result<Tables, ParseError>)
    requires i <= |lines|
  {
    ParseFrom(d, lines[i..], t) == goal
  }

  /** After a turn at line `i`: a fatal error is the parse's error, otherwise the parse resumes after the lines taken. */
  ghost predicate Continues(d: Dialect, lines: seq<string>, i: nat, n: Next<ParseError>, goal: Result<Tables, ParseError>)
  {
    if n.Fail? then goal == Err(n.error)
    else i < i + n.taken <= |lines| && Resumes(d, lines, i + n.taken, n.tables, goal)
  }

  lemma ContinuesGo(d: Dialect, lines: seq<string>, i: nat, n: Next<ParseError>, goal: Result<Tables, ParseError>, i': nat, t': Tables)
    requires Continues(d, lines, i, n, goal) && n.Go?
    requires i' == i + n.taken && t' == n.tables
    ensures i < i' <= |lines| && Resumes(d, lines, i', t', goal)
  {
  }

  lemma ContinuesFail(d: Dialect, lines: seq<string>, i: nat, n: Next<ParseError>, goal: Result<Tables, ParseError>)
    requires Continues(d, lines, i, n, goal) && n.Fail?
    ensures goal == Err(n.error)
  {
  }

  /** One turn of the loop: the record at line `i`, and what it leaves of the parse. */
  method NextRecord(d: Dialect, lines: seq<string>, i: nat, t: Tables, ghost goal: Result<Tables, ParseError>) returns (n: Next<ParseError>)
    requires i < |lines| && Resumes(d, lines, i, t, goal)
    ensures Continues(d, lines, i, n, goal)
  {
    n := ReadRecord(d, lines, i, t);
    ParseStep(d, lines, i, t);
  }

  /** `parse_flow_file`: the getline loop, proved to compute `Parse`. */
  method ParseFlowFile(d: Dialect, lines: seq<string>) returns (r: Result<Tables, ParseError>)
    ensures r == Parse(d, lines)
  {
    assert lines[0..] == lines;
    r := ReadLines(d, lines, Parse(d, lines));
  }

  /** The line loop, from the first line with empty tables. */
  method ReadLines(d: Dialect, lines: seq<string>, ghost goal: Result<Tables, ParseError>) returns (r: Result<Tables, ParseError>)
    requires Resumes(d, lines, 0, Empty, goal)
    ensures r == goal
  {
    var t := Empty;
    var i := 0;
    while i < |lines|
      invariant 0 <= i <= |lines|
      invariant Resumes(d, lines, i, t, goal)
      decreases |lines| - i
    {
      var n := NextRecord(d, lines, i, t, goal);
      if n.Fail? {
        ContinuesFail(d, lines, i, n, goal);
        return Err(n.error);
      }
      ghost var i0 := i;
      t, i := n.tables, i + n.taken;
      ContinuesGo(d, lines, i0, n, goal, i, t);
    }
    ParseFromEnd(d, lines[i..], t);
    return Ok(t);
  }

  // ---------------------------------------------------------------
  // Printed records read back
  // ---------------------------------------------------------------

  /** Only well-behaved dialects read names after the prefix. */
  predicate Prefixed(d: Dialect)
  {
    !d.headerWords
  }

  function KindsOf(d: Dialect): Kinds
  {
    Kinds(d.concat, false)
  }

  /** A line that starts with none of the headers this dialect reads is passed over. */
  lemma SkipLine(d: Dialect, ls: seq<string>, t: Tables)
    requires |ls| > 0 && !StartsWith(ls[0], "node=") && !StartsWith(ls[0], "pipe=")
    requires d.concat ==> !StartsWith(ls[0], "concatenate=")
    ensures ParseFrom(d, ls, t) == ParseFrom(d, ls[1..], t)
  {
  }

  lemma ArgvBack(d: Dialect, a: seq<string>)
    requires Prefixed(d) && PlainWords(a)
    ensures Argv(d, "command=" + Join(a, " ")) == a
  {
    StartsWithConcat("command=", Join(a, " "));
    QJ.PlainRoundTrip(a);
    W.PlainRoundTrip(a);
  }

  lemma ReadNodeBack(d: Dialect, n: string, a: seq<string>, rest: seq<string>, t: Tables)
    requires Prefixed(d) && PlainWords(a)
    ensures ParseFrom(d, Print(NodeRec(n, a)) + rest, t) == ParseFrom(d, rest, t.(nodes := t.nodes[n := a]))
  {
    var ls := Print(NodeRec(n, a)) + rest;
    assert ls[0] == "node=" + n && Line(ls, 1) == "command=" + Join(a, " ");
    StartsWithConcat("node=", n);
    ArgvBack(d, a);
    assert ls[2..] == rest;
  }

  /** A `key=value` line whose key has no `=` yields `value`. */
  lemma ValueOf(key: string, value: string)
    requires HasNo(key, '=')
    ensures After(key + "=" + value, '=') == value
  {
    assert key + "=" + value == key + ['='] + value;
    AfterKey(key, '=', value);
  }

  lemma ReadPipeBack(d: Dialect, n: string, f: string, to: string, rest: seq<string>, t: Tables)
    requires Prefixed(d)
    ensures ParseFrom(d, Print(PipeRec(n, f, to)) + rest, t) == ParseFrom(d, rest, t.(pipes := t.pipes[n := Pipe(f, to)]))
  {
    var ls := Print(PipeRec(n, f, to)) + rest;
    assert ls[0] == "pipe=" + n && Line(ls, 1) == "from=" + f && Line(ls, 2) == "to=" + to;
    StartsWithConcat("pipe=", n);
    NotStartsWith(ls[0], "node=", 0);
    assert "from=" + f == "from" + "=" + f && "to=" + to == "to" + "=" + to;
    ValueOf("from", f);
    ValueOf("to", to);
    assert |ls| >= 3 && ls[3..] == rest;
  }

  lemma {:induction false} PrintedParts(ls: seq<string>, ps: seq<string>, rest: seq<string>, k: nat)
    requires ls == PartLines(ps, 0) + rest && k <= |ps|
    ensures Parts(ls, 0, k) == ps[..k]
    decreases k
  {
    if k > 0 {
      PrintedParts(ls, ps, rest, k - 1);
      PartLineAt(ps, 0, k - 1);
      assert Line(ls, k - 1) == PartPrefix(k - 1) + ps[k - 1];
      PartValue(k - 1, ps[k - 1]);
      assert ps[..k] == ps[..k - 1] + [ps[k - 1]];
    }
  }

  /** flow5.cpp and its kin pass over part lines. */
  lemma {:induction false} SkipPartLines(d: Dialect, ps: seq<string>, i: nat, rest: seq<string>, t: Tables)
    requires !d.concat
    ensures ParseFrom(d, PartLines(ps, i) + rest, t) == ParseFrom(d, rest, t)
    decreases |ps|
  {
    var ls := PartLines(ps, i) + rest;
    if |ps| == 0 {
      assert ls == rest;
    } else {
      assert ls[0] == "part_" + (NatToString(i) + "=" + ps[0]);
      NotStartsWith(ls[0], "node=", 0);
      NotStartsWith(ls[0], "pipe=", 1);
      assert ls[1..] == PartLines(ps[1..], i + 1) + rest;
      SkipPartLines(d, ps[1..], i + 1, rest, t);
    }
  }

  lemma CountBack(k: nat)
    ensures PartCount("parts=" + NatToString(k)) == Some(k)
  {
    StartsWithConcat("parts=", NatToString(k));
    ReadsBackDecimal(k);
  }

  /** The part lines of a printed concatenation, seen from its header. */
  lemma ConcatPartsBack(n: string, ps: seq<string>, rest: seq<string>)
    ensures Parts(Print(ConcatRec(n, ps)) + rest, 2, |ps|) == ps
  {
    var ls := Print(ConcatRec(n, ps)) + rest;
    ConcatLayout(n, ps, rest, ls);
    PrintedParts(ls[2..], ps, rest, |ps|);
    PartsShift(ls, 2, 0, |ps|);
    assert ps[..|ps|] == ps;
  }

  lemma ReadConcatBack(d: Dialect, n: string, ps: seq<string>, rest: seq<string>, t: Tables)
    requires Prefixed(d)
    ensures ParseFrom(d, Print(ConcatRec(n, ps)) + rest, t) == ParseFrom(d, rest, Apply(KindsOf(d), t, ConcatRec(n, ps)))
  {
    var ls := Print(ConcatRec(n, ps)) + rest;
    var header := "concatenate=" + n;
    var count := "parts=" + NatToString(|ps|);
    ConcatLayout(n, ps, rest, ls);
    NotStartsWith(header, "node=", 0);
    NotStartsWith(header, "pipe=", 0);
    if d.concat {
      StartsWithConcat("concatenate=", n);
      CountBack(|ps|);
      ConcatPartsBack(n, ps, rest);
    } else {
      NotStartsWith(count, "node=", 1);
      NotStartsWith(count, "pipe=", 1);
      assert ls[1..][1..] == ls[2..];
      SkipPartLines(d, ps, 0, rest, t);
    }
  }

  /** Stderr-capture and file records are not read: their lines are passed over. */
  lemma SkipTwo(d: Dialect, a: string, b: string, rest: seq<string>, t: Tables)
    requires |a| > 0 && |b| > 0 && a[0] != 'n' && a[0] != 'p' && a[0] != 'c' && b[0] != 'p' && b[0] != 'c'
    requires b[0] == 'n' ==> |b| > 1 && b[1] != 'o'
    ensures ParseFrom(d, [a, b] + rest, t) == ParseFrom(d, rest, t)
  {
    var ls := [a, b] + rest;
    NotStartsWith(a, "node=", 0);
    NotStartsWith(a, "pipe=", 0);
    NotStartsWith(a, "concatenate=", 0);
    if b[0] == 'n' {
      NotStartsWith(b, "node=", 1);
    } else {
      NotStartsWith(b, "node=", 0);
    }
    NotStartsWith(b, "pipe=", 0);
    NotStartsWith(b, "concatenate=", 0);
    assert ls[1..] == [b] + rest;
    assert ls[1..][1..] == rest;
  }

  lemma ReadFreeBack(d: Dialect, text: string, rest: seq<string>, t: Tables)
    requires Free(text)
    ensures ParseFrom(d, [text] + rest, t) == ParseFrom(d, rest, t)
  {
    assert "node" + "=" == "node=" && "pipe" + "=" == "pipe=" && "concatenate" + "=" == "concatenate=";
    NotStartsWithLonger(text, "node", "=");
    NotStartsWithLonger(text, "pipe", "=");
    NotStartsWithLonger(text, "concatenate", "=");
    assert ([text] + rest)[1..] == rest;
  }

  lemma ReadRecordBack(d: Dialect, r: Record, rest: seq<string>, t: Tables)
    requires Prefixed(d) && Plain(r)
    ensures ParseFrom(d, Print(r) + rest, t) == ParseFrom(d, rest, Apply(KindsOf(d), t, r))
  {
    match r
    case NodeRec(n, a) => ReadNodeBack(d, n, a, rest, t);
    case PipeRec(n, f, to) => ReadPipeBack(d, n, f, to, rest, t);
    case ConcatRec(n, ps) => ReadConcatBack(d, n, ps, rest, t);
    case CaptureRec(n, f) =>
      assert Print(r) + rest == ["stderr=" + n, "from=" + f] + rest;
      SkipTwo(d, "stderr=" + n, "from=" + f, rest, t);
    case FileRec(n, path) =>
      assert Print(r) + rest == ["file=" + n, "name=" + path] + rest;
      SkipTwo(d, "file=" + n, "name=" + path, rest, t);
    case Blank => ReadFreeBack(d, "", rest, t);
    case Other(text) => ReadFreeBack(d, text, rest, t);
  }

  lemma {:induction false} ReadLinesBack(d: Dialect, rs: seq<Record>, rest: seq<string>, t: Tables)
    requires Prefixed(d) && AllPlain(rs)
    ensures ParseFrom(d, Lines(rs) + rest, t) == ParseFrom(d, rest, Fill(KindsOf(d), t, rs))
    decreases |rs|
  {
    if |rs| == 0 {
      assert Lines(rs) + rest == rest;
    } else {
      assert Lines(rs) + rest == Print(rs[0]) + (Lines(rs[1..]) + rest);
      assert Plain(rs[0]);
      ReadRecordBack(d, rs[0], Lines(rs[1..]) + rest, t);
      ReadLinesBack(d, rs[1..], rest, Apply(KindsOf(d), t, rs[0]));
    }
  }

  /**
   * Printing plain records and reading the lines back gives the tables the
   * records describe; stderr-capture and file records, and concatenations
   * in the node-and-pipe programs, are passed over.
   */
  lemma RoundTrip(d: Dialect, rs: seq<Record>)
    requires Prefixed(d) && AllPlain(rs)
    ensures Parse(d, Lines(rs)) == Ok(Build(KindsOf(d), rs))
  {
    ReadLinesBack(d, rs, [], Empty);
    assert Lines(rs) + [] == Lines(rs);
  }

  // ---------------------------------------------------------------
  // What the lenient readers accept
  // ---------------------------------------------------------------

  /** The `command=` prefix is optional: a bare command line is read the same way. */
  lemma CommandPrefixOptional(d: Dialect, n: string, c: string, rest: seq<string>, t: Tables)
    requires Prefixed(d) && !StartsWith(c, "command=")
    ensures ParseFrom(d, ["node=" + n, "command=" + c] + rest, t) == ParseFrom(d, ["node=" + n, c] + rest, t)
  {
    var ls := ["node=" + n, "command=" + c] + rest;
    var ms := ["node=" + n, c] + rest;
    StartsWithConcat("node=", n);
    StartsWithConcat("command=", c);
    assert ls[0] == ms[0] == "node=" + n;
    assert Line(ls, 1) == "command=" + c && Line(ms, 1) == c;
    assert ls[2..] == ms[2..];
  }

  /**
   * A pipe end is the text after the first `=` of its line, whatever the key,
   * and the whole line when it holds no `=`.
   */
  lemma PipeEnds(d: Dialect, n: string, k1: string, v1: string, k2: string, v2: string, rest: seq<string>, t: Tables)
    requires Prefixed(d) && HasNo(k1, '=') && HasNo(k2, '=')
    ensures ParseFrom(d, ["pipe=" + n, k1 + "=" + v1, k2 + "=" + v2] + rest, t)
         == ParseFrom(d, rest, t.(pipes := t.pipes[n := Pipe(v1, v2)]))
    ensures ParseFrom(d, ["pipe=" + n, k1, k2] + rest, t)
         == ParseFrom(d, rest, t.(pipes := t.pipes[n := Pipe(k1, k2)]))
  {
    var ls := ["pipe=" + n, k1 + "=" + v1, k2 + "=" + v2] + rest;
    var ms := ["pipe=" + n, k1, k2] + rest;
    StartsWithConcat("pipe=", n);
    assert ls[0] == ms[0] == "pipe=" + n;
    NotStartsWith(ls[0], "node=", 0);
    ValueOf(k1, v1);
    ValueOf(k2, v2);
    assert Line(ls, 1) == k1 + "=" + v1 && Line(ls, 2) == k2 + "=" + v2;
    assert Line(ms, 1) == k1 && Line(ms, 2) == k2;
    assert ls[3..] == rest && ms[3..] == rest;
  }

  /** A record cut off by the end of the file reads its missing lines as empty. */
  lemma TruncatedNodeAndPipe(d: Dialect, rs: seq<Record>, n: string)
    requires Prefixed(d) && AllPlain(rs)
    ensures var t := Build(KindsOf(d), rs);
      Parse(d, Lines(rs) + ["node=" + n]) == Ok(t.(nodes := t.nodes[n := []]))
    ensures var t := Build(KindsOf(d), rs);
      Parse(d, Lines(rs) + ["pipe=" + n]) == Ok(t.(pipes := t.pipes[n := Pipe("", "")]))
  {
    ReadLinesBack(d, rs, ["node=" + n], Empty);
    ReadLinesBack(d, rs, ["pipe=" + n], Empty);
    StartsWithConcat("node=", n);
    StartsWithConcat("pipe=", n);
    NotStartsWith("pipe=" + n, "node=", 0);
    assert W.Words("") == [];
    assert QJ.Tokens("") == [];
  }

  lemma {:induction false} PartsPastEnd(ls: seq<string>, start: nat, k: nat)
    requires start >= |ls|
    ensures Parts(ls, start, k) == seq(k, _ => "")
    decreases k
  {
    if k > 0 {
      PartsPastEnd(ls, start, k - 1);
    }
  }

  /** Parts announced but missing at the end of the file are empty names. */
  lemma TruncatedConcat(d: Dialect, rs: seq<Record>, n: string, k: nat)
    requires Prefixed(d) && d.concat && AllPlain(rs)
    ensures var t := Build(KindsOf(d), rs);
      Parse(d, Lines(rs) + ["concatenate=" + n, "parts=" + NatToString(k)])
        == Ok(t.(concats := t.concats[n := seq(k, _ => "")]))
  {
    var ls := ["concatenate=" + n, "parts=" + NatToString(k)];
    ReadLinesBack(d, rs, ls, Empty);
    StartsWithConcat("concatenate=", n);
    NotStartsWith(ls[0], "node=", 0);
    NotStartsWith(ls[0], "pipe=", 0);
    CountBack(k);
    PartsPastEnd(ls, 2, k);
  }

  /** A count line `sscanf` cannot match leaves the part count undefined. */
  lemma UnreadableCount(d: Dialect, rs: seq<Record>, n: string, c: string, rest: seq<string>)
    requires Prefixed(d) && d.concat && AllPlain(rs)
    requires !StartsWith(c, "parts=") || LeadingInt(c[6..]).None?
    ensures Parse(d, Lines(rs) + (["concatenate=" + n, c] + rest)) == Err(UndefinedCount(n))
  {
    var ls := ["concatenate=" + n, c] + rest;
    ReadLinesBack(d, rs, ls, Empty);
    StartsWithConcat("concatenate=", n);
    assert ls[0] == "concatenate=" + n && Line(ls, 1) == c;
    NotStartsWith(ls[0], "node=", 0);
    NotStartsWith(ls[0], "pipe=", 0);
  }

  /** Without concatenations nothing can fail: every file is read. */
  lemma {:induction false} NodeAndPipeNeverFail(d: Dialect, ls: seq<string>, t: Tables)
    requires !d.concat
    ensures ParseFrom(d, ls, t).Ok?
    decreases |ls|
  {
    if |ls| > 0 {
      var n := Record(d, ls, t);
      NodeAndPipeNeverFail(d, ls[n.taken..], n.tables);
    }
  }

  // ---------------------------------------------------------------
  // flow.cpp
  // ---------------------------------------------------------------

  lemma OneWord(w: string)
    requires W.IsWord(w)
    ensures W.Words(w) == [w]
  {
    W.JoinRoundTrip([w], " ");
  }

  /**
   * flow.cpp reads the name as the third word of the header, so a header
   * without spaces, as the printer writes it, names the record "", and the
   * node's arguments keep the `command=` prefix.
   */
  lemma FlowCppLosesNames(n: string, a: seq<string>)
    requires NoSpace(n) && PlainWords(a) && |a| > 0
    ensures Parse(FlowCpp, Print(NodeRec(n, a)))
         == Ok(Empty.(nodes := map["" := ["command=" + a[0]] + a[1..]]))
  {
    var h, c := "node=" + n, "command=" + Join(a, " ");
    FlowCppHeaderName(n);
    FlowCppCommand(a);
    TwoLineNode(FlowCpp, h, c, "", ["command=" + a[0]] + a[1..]);
  }

  /** flow.cpp reads the name of a header with no spaces as the empty third word. */
  lemma FlowCppHeaderName(n: string)
    requires NoSpace(n)
    ensures StartsWith("node=" + n, "node=") && Name(FlowCpp, "node=" + n, 5) == ""
  {
    StartsWithConcat("node=", n);
    var h := "node=" + n;
    assert NoSpace(h) by {
      forall i | 0 <= i < |h| ensures !IsSpace(h[i]) {
        if i >= 5 { assert h[i] == n[i - 5]; }
      }
    }
    OneWord(h);
  }

  /** flow.cpp keeps `command=` glued to the first word of the command. */
  lemma FlowCppCommand(a: seq<string>)
    requires PlainWords(a) && |a| > 0
    ensures Argv(FlowCpp, "command=" + Join(a, " ")) == ["command=" + a[0]] + a[1..]
  {
    var b := ["command=" + a[0]] + a[1..];
    GluedWords(a, b);
    W.PlainRoundTrip(b);
    assert Argv(FlowCpp, "command=" + Join(a, " ")) == W.Words(Join(b, " "));
  }

  lemma GluedWords(a: seq<string>, b: seq<string>)
    requires PlainWords(a) && |a| > 0 && b == ["command=" + a[0]] + a[1..]
    ensures PlainWords(b) && Join(b, " ") == "command=" + Join(a, " ")
  {
    var g := "command=" + a[0];
    PlainConcat("command=", a[0]);
    assert forall i :: 1 <= i < |b| ==> b[i] == a[i];
    assert b[0] == g;
    if |a| > 1 {
      assert b[1..] == a[1..];
    }
  }

  lemma PlainConcat(u: string, v: string)
    requires PlainText(u) && PlainText(v)
    ensures PlainText(u + v)
  {
    assert forall i :: |u| <= i < |u + v| ==> (u + v)[i] == v[i - |u|];
  }

  /** A file of one node record: the node's name and argument vector as the dialect reads them. */
  lemma TwoLineNode(d: Dialect, h: string, c: string, name: string, argv: seq<string>)
    requires StartsWith(h, "node=") && Name(d, h, 5) == name && Argv(d, c) == argv
    ensures Parse(d, [h, c]) == Ok(Empty.(nodes := map[name := argv]))
  {
    var ls := [h, c];
    var t := Empty.(nodes := Empty.nodes[name := argv]);
    assert Record(d, ls, Empty) == Go(2, t);
    ParseFromEnd(d, ls[2..], t);
    assert t == Empty.(nodes := map[name := argv]);
  }

  /** The example in flow.cpp's own comment: `node=echo_foo` is stored under "". */
  lemma FlowCppEchoFoo()
    ensures Parse(FlowCpp, ["node=echo_foo", "command=echo foo"])
         == Ok(Empty.(nodes := map["" := ["command=echo", "foo"]]))
  {
    EchoFooRead("echo_foo", ["echo", "foo"], "node=echo_foo", "command=echo foo");
  }

  lemma EchoFooRead(n: string, a: seq<string>, h: string, c: string)
    requires n == "echo_foo" && a == ["echo", "foo"] && h == "node=echo_foo" && c == "command=echo foo"
    ensures Parse(FlowCpp, [h, c]) == Ok(Empty.(nodes := map["" := ["command=echo", "foo"]]))
  {
    assert Join(a, " ") == "echo foo" by {
      assert a[1..] == ["foo"];
    }
    assert NoSpace(n) && PlainWords(a);
    FlowCppHeaderName(n);
    FlowCppCommand(a);
    assert "command=" + a[0] == "command=echo";
    assert ["command=" + a[0]] + a[1..] == ["command=echo", "foo"] by {
      assert a[1..] == ["foo"];
    }
    assert c == "command=" + Join(a, " ");
    assert h == "node=" + n;
    TwoLineNode(FlowCpp, h, c, "", ["command=echo", "foo"]);
  }

  /** Read as intended, flow.cpp's files give back the records they describe. */
  lemma FlowCppIntendedRoundTrip(rs: seq<Record>)
    requires AllPlain(rs)
    ensures Parse(FlowCppIntended, Lines(rs)) == Ok(Build(Kinds(true, false), rs))
  {
    RoundTrip(FlowCppIntended, rs);
  }
}
