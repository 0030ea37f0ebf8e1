// src/flow.cpp: `parseFlowFile` (31-95) splits every line into a key and a
// value at its first `=` and keeps the pending node name in the global
// `current_node` from one line to the next; `prepareArgs` (98-108) builds the
// argument vector handed to execvp; `main` (231-238) chooses the action.

module KeyValueParser {
  import opened Wrappers
  import opened Text
  import opened Flow
  import W = Words

  /** A node: the program, then its arguments. */
  datatype Node = Node(command: string, args: seq<string>)

  /** A concatenation: the count read from its second line and the part names. */
  datatype Concatenation = Concatenation(count: int, parts: seq<string>)

  /** The three global maps and `current_node` ("" when no node is pending). */
  datatype State = State(
    nodes: map<string, Node>,
    pipes: map<string, Pipe>,
    concats: map<string, Concatenation>,
    current: string)

  const Start := State(map[], map[], map[], "")

  /**
   * `part_line >> key >> concat.parts` with fewer than two words leaves the
   * uninitialised count unchanged; the part loop then has no defined bound.
   */
  datatype ParseError = UndefinedCount(concat: string)

  /** What reading one record leaves: a fatal error, or the lines it took and the new state. */
  datatype Turn = Halt(error: ParseError) | Advance(taken: nat, state: State)

  predicate TakesLines(n: Turn, ls: seq<string>)
  {
    n.Advance? ==> 1 <= n.taken <= |ls|
  }

  /** Line `i`, or "" once the file is exhausted. */
  function Line(ls: seq<string>, i: nat): string
  {
    if i < |ls| then ls[i] else ""
  }

  function Taken(ls: seq<string>, k: nat): nat
  {
    if k <= |ls| then k else |ls|
  }

  /** `line.find_first_not_of(' ') == npos`: empty, or spaces only (tabs count as text). */
  predicate Spaces(line: string)
  {
    forall i :: 0 <= i < |line| ==> line[i] == ' '
  }

  /**
   * `getline(iss, key, '=') && getline(iss, value)`: both succeed exactly when
   * the line has an `=` with at least one character after it.
   */
  function KeyValue(line: string): (r: Option<(string, string)>)
    ensures r.Some? <==> exists k :: 0 <= k < |line| - 1 && line[k] == '=' && HasNo(line[..k], '=')
    ensures r.Some? ==> line == r.value.0 + "=" + r.value.1 && HasNo(r.value.0, '=') && r.value.1 != ""
  {
    match Find(line, '=')
    case None => None
    case Some(k) =>
      if k + 1 == |line| then None
      else
        assert line == line[..k] + "=" + line[k + 1..];
        Some((line[..k], line[k + 1..]))
  }

  /** A pipe end: `getline(s, key, '='); getline(s, end)`, which leaves "" when nothing follows the `=`. */
  function End(line: string): string
  {
    match KeyValue(line)
    case None => ""
    case Some(kv) => kv.1
  }

  /** The node a `command=` value describes: its first word and the words after it. */
  function NodeOf(value: string): Node
  {
    var ws := W.Words(value);
    if |ws| == 0 then Node("", []) else Node(ws[0], ws[1..])
  }

  /** The count on a concatenation's second line: the second word read as an `int`, 0 when it is not a number. */
  function Count(line: string): Option<int>
  {
    var ws := W.Words(line);
    if |ws| < 2 then None else Some(LeadingIntOrZero(ws[1]))
  }

  /** The second word of a part line, or "". */
  function SecondWord(line: string): string
  {
    var ws := W.Words(line);
    if |ws| >= 2 then ws[1] else ""
  }

  function PartNames(ls: seq<string>, start: nat, k: nat): (r: seq<string>)
    ensures |r| == k
  {
    if k == 0 then [] else PartNames(ls, start, k - 1) + [SecondWord(Line(ls, start + k - 1))]
  }

  function ConcatRecord(ls: seq<string>, s: State, name: string): (n: Turn)
    requires |ls| > 0
    ensures TakesLines(n, ls)
  {
    match Count(Line(ls, 1))
    case None => Halt(UndefinedCount(name))
    case Some(c) =>
      var k: nat := if c < 0 then 0 else c;
      Advance(Taken(ls, 2 + k), s.(concats := s.concats[name := Concatenation(c, PartNames(ls, 2, k))]))
  }

  /** One turn of the getline loop. */
  function Record(ls: seq<string>, s: State): (n: Turn)
    requires |ls| > 0
    ensures TakesLines(n, ls)
  {
    if Spaces(ls[0]) then Advance(1, s)
    else
      match KeyValue(ls[0])
      case None => Advance(1, s)
      case Some(kv) =>
        var (key, value) := kv;
        if StartsWith(key, "node") then Advance(1, s.(current := value))
        else if key == "command" && s.current != "" then
          Advance(1, s.(nodes := s.nodes[s.current := NodeOf(value)], current := ""))
        else if key == "pipe" then
          Advance(Taken(ls, 3), s.(pipes := s.pipes[value := Pipe(End(Line(ls, 1)), End(Line(ls, 2)))]))
        else if key == "concatenate" then ConcatRecord(ls, s, value)
        else Advance(1, s)
  }

  function ParseFrom(ls: seq<string>, s: State): Result<State, ParseError>
    decreases |ls|
  {
    if |ls| == 0 then Ok(s)
    else
      match Record(ls, s)
      case Halt(e) => Err(e)
      case Advance(k, s') => ParseFrom(ls[k..], s')
  }

  function Parse(lines: seq<string>): Result<State, ParseError>
  {
    ParseFrom(lines, Start)
  }

  // ---------------------------------------------------------------
  // The reading loops
  // ---------------------------------------------------------------

  /** The program is the first word of the command; every later word is appended as an argument. */
  method ReadNode(value: string) returns (node: Node)
    ensures node == NodeOf(value)
  {
    var ws := W.Split(value);
    if |ws| == 0 {
      return Node("", []);
    }
    var args: seq<string> := [];
    var j := 1;
    while j < |ws|
      invariant 1 <= j <= |ws|
      invariant args == ws[1..j]
    {
      args := args + [ws[j]];
      j := j + 1;
    }
    assert ws[1..j] == ws[1..];
    node := Node(ws[0], args);
  }

  method ReadPartNames(lines: seq<string>, start: nat, k: nat) returns (parts: seq<string>)
    ensures parts == PartNames(lines, start, k)
  {
    parts := [];
    var j := 0;
    while j < k
      invariant 0 <= j <= k
      invariant parts == PartNames(lines, start, j)
    {
      var line := if start + j < |lines| then lines[start + j] else "";
      var ws := W.Split(line);
      parts := parts + [if |ws| >= 2 then ws[1] else ""];
      j := j + 1;
    }
  }

  lemma {:induction false} PartNamesShift(lines: seq<string>, i: nat, start: nat, k: nat)
    requires i <= |lines|
    ensures PartNames(lines[i..], start, k) == PartNames(lines, i + start, k)
    decreases k
  {
    if k > 0 {
      PartNamesShift(lines, i, start, k - 1);
      assert Line(lines[i..], start + k - 1) == Line(lines, i + start + k - 1);
    }
  }

  method ReadConcat(lines: seq<string>, i: nat, s: State, name: string) returns (n: Turn)
    requires i < |lines|
    ensures n == ConcatRecord(lines[i..], s, name)
  {
    var countLine := if i + 1 < |lines| then lines[i + 1] else "";
    assert countLine == Line(lines[i..], 1);
    var count := Count(countLine);
    if count.None? {
      return Halt(UndefinedCount(name));
    }
    var c := count.value;
    var k: nat := if c < 0 then 0 else c;
    var parts := ReadPartNames(lines, i + 2, k);
    PartNamesShift(lines, i, 2, k);
    n := Advance(if i + 2 + k <= |lines| then 2 + k else |lines| - i, s.(concats := s.concats[name := Concatenation(c, parts)]));
  }

  method ReadRecord(lines: seq<string>, i: nat, s: State) returns (n: Turn)
    requires i < |lines|
    ensures n == Record(lines[i..], s)
  {
    var line := lines[i];
    assert lines[i..][0] == line;
    var kv := KeyValue(line);
    if Spaces(line) || kv.None? {
      n := Advance(1, s);
    } else {
      var (key, value) := kv.value;
      if StartsWith(key, "node") {
        n := Advance(1, s.(current := value));
      } else if key == "command" && s.current != "" {
        var node := ReadNode(value);
        n := Advance(1, s.(nodes := s.nodes[s.current := node], current := ""));
      } else if key == "pipe" {
        var from := End(if i + 1 < |lines| then lines[i + 1] else "");
        var to := End(if i + 2 < |lines| then lines[i + 2] else "");
        n := Advance(if i + 3 <= |lines| then 3 else |lines| - i, s.(pipes := s.pipes[value := Pipe(from, to)]));
      } else if key == "concatenate" {
        n := ReadConcat(lines, i, s, value);
      } else {
        n := Advance(1, s);
      }
    }
  }

  /** The parse after one record: it stops with the record's error, or goes on after the lines it took. */
  lemma ParseStep(lines: seq<string>, i: nat, s: State)
    requires i < |lines|
    ensures Record(lines[i..], s).Halt? ==> ParseFrom(lines[i..], s) == Err(Record(lines[i..], s).error)
    ensures Record(lines[i..], s).Advance? ==>
      var n := Record(lines[i..], s);
      i + n.taken <= |lines| && ParseFrom(lines[i..], s) == ParseFrom(lines[i + n.taken..], n.state)
  {
    var n := Record(lines[i..], s);
    if n.Advance? {
      assert lines[i..][n.taken..] == lines[i + n.taken..];
    }
  }

  /** The loop invariant of `parseFlowFile`: parsing on from line `i` in state `s` gives `goal`, the parse of the whole file. */
  ghost predicate Resumes(lines: seq<string>, i: nat, s: State, goal: Result<State, ParseError>)
    requires i <= |lines|
  {
    ParseFrom(lines[i..], s) == goal
  }

  /** After a turn at line `i`: a fatal error is the parse's error, otherwise the parse resumes after the lines taken. */
  ghost predicate Continues(lines: seq<string>, i: nat, n: Turn, goal: Result<State, ParseError>)
  {
    if n.Halt? then goal == Err(n.error)
    else i < i + n.taken <= |lines| && Resumes(lines, i + n.taken, n.state, goal)
  }

  lemma ContinuesAdvance(lines: seq<string>, i: nat, n: Turn, goal: Result<State, ParseError>, i': nat, s': State)
    requires Continues(lines, i, n, goal) && n.Advance?
    requires i' == i + n.taken && s' == n.state
    ensures i < i' <= |lines| && Resumes(lines, i', s', goal)
  {
  }

  lemma ContinuesHalt(lines: seq<string>, i: nat, n: Turn, goal: Result<State, ParseError>)
    requires Continues(lines, i, n, goal) && n.Halt?
    ensures goal == Err(n.error)
  {
  }

  /** One turn of the loop: the record at line `i`, and what it leaves of the parse. */
  method NextRecord(lines: seq<string>, i: nat, s: State, ghost goal: Result<State, ParseError>) returns (n: Turn)
    requires i < |lines| && Resumes(lines, i, s, goal)
    ensures Continues(lines, i, n, goal)
  {
    n := ReadRecord(lines, i, s);
    ParseStep(lines, i, s);
  }

  lemma ParseEnd(ls: seq<string>, s: State)
    requires |ls| == 0
    ensures ParseFrom(ls, s) == Ok(s)
  {
  }

  /** `parseFlowFile` after the file is open, proved to compute `Parse`. */
  method ParseFlowFile(lines: seq<string>) returns (r: Result<State, ParseError>)
    ensures r == Parse(lines)
  {
    assert lines[0..] == lines;
    r := ReadLines(lines, Parse(lines));
  }

  /** The getline loop, from the first line in the empty state. */
  method ReadLines(lines: seq<string>, ghost goal: Result<State, ParseError>) returns (r: Result<State, ParseError>)
    requires Resumes(lines, 0, Start, goal)
    ensures r == goal
  {
    var s := Start;
    var i := 0;
    while i < |lines|
      invariant 0 <= i <= |lines|
      invariant Resumes(lines, i, s, goal)
      decreases |lines| - i
    {
      var n := NextRecord(lines, i, s, goal);
      if n.Halt? {
        ContinuesHalt(lines, i, n, goal);
        return Err(n.error);
      }
      ghost var i0 := i;
      s, i := n.state, i + n.taken;
      ContinuesAdvance(lines, i0, n, goal, i, s);
    }
    ParseEnd(lines[i..], s);
    return Ok(s);
  }

  // ---------------------------------------------------------------
  // prepareArgs
  // ---------------------------------------------------------------

  /** An entry of the `char *` vector handed to execvp. */
  datatype CArg = Str(text: string) | Null

  /** The program, its arguments in order, then the terminating `NULL`. */
  method PrepareArgs(node: Node) returns (argv: seq<CArg>)
    ensures |argv| == |node.args| + 2
    ensures argv[0] == Str(node.command) && argv[|argv| - 1] == Null
    ensures forall j :: 0 <= j < |node.args| ==> argv[j + 1] == Str(node.args[j])
  {
    argv := [Str(node.command)];
    var j := 0;
    while j < |node.args|
      invariant 0 <= j <= |node.args|
      invariant |argv| == j + 1 && argv[0] == Str(node.command)
      invariant forall i :: 0 <= i < j ==> argv[i + 1] == Str(node.args[i])
    {
      argv := argv + [Str(node.args[j])];
      j := j + 1;
    }
    argv := argv + [Null];
  }

  /** The words of a command line, which `prepareArgs` passes on in order. */
  function Argv(node: Node): seq<string>
  {
    [node.command] + node.args
  }

  /** A command line with at least one word is run as exactly its words. */
  lemma NodeArgv(value: string)
    requires |W.Words(value)| > 0
    ensures Argv(NodeOf(value)) == W.Words(value)
  {
  }

  // ---------------------------------------------------------------
  // What one line does
  // ---------------------------------------------------------------

  /** Lines without a value are skipped, and so are lines of spaces. */
  lemma SkippedLines(line: string, rest: seq<string>, s: State)
    requires Spaces(line) || HasNo(line, '=') || (|line| > 0 && line[|line| - 1] == '=' && HasNo(line[..|line| - 1], '='))
    ensures ParseFrom([line] + rest, s) == ParseFrom(rest, s)
  {
    var ls := [line] + rest;
    if !Spaces(line) && !HasNo(line, '=') {
      FindFirst(line, '=', |line| - 1);
    }
    assert ls[1..] == rest;
  }

  lemma KeyValueOf(key: string, value: string)
    requires HasNo(key, '=') && value != ""
    ensures KeyValue(key + "=" + value) == Some((key, value))
  {
    assert key + "=" + value == key + ['='] + value;
    AfterKey(key, '=', value);
  }

  /** Any key that starts with `node` names the pending node. */
  lemma NodeKey(key: string, value: string, rest: seq<string>, s: State)
    requires StartsWith(key, "node") && HasNo(key, '=') && value != ""
    ensures ParseFrom([key + "=" + value] + rest, s) == ParseFrom(rest, s.(current := value))
  {
    KeyValueOf(key, value);
    var line := key + "=" + value;
    assert !Spaces(line) by {
      assert line[0] == 'n';
    }
    assert ([line] + rest)[1..] == rest;
  }

  /** A `command` line binds to the pending node and clears it; with none pending it is ignored. */
  lemma CommandKey(value: string, rest: seq<string>, s: State)
    requires value != ""
    ensures ParseFrom(["command=" + value] + rest, s)
         == if s.current == "" then ParseFrom(rest, s)
            else ParseFrom(rest, s.(nodes := s.nodes[s.current := NodeOf(value)], current := ""))
  {
    KeyValueOf("command", value);
    var line := "command=" + value;
    assert "command" + "=" + value == line;
    assert !Spaces(line) by {
      assert line[0] == 'c';
    }
    NotStartsWith("command", "node", 0);
    assert ([line] + rest)[1..] == rest;
  }

  // ---------------------------------------------------------------
  // Printed records read back
  // ---------------------------------------------------------------

  /**
   * The records this reader gives back: every value non-empty, since a line
   * ending in `=` is skipped, and no concatenation, whose `parts=N` line is
   * a single word.
   */
  predicate Readable(r: Record)
  {
    match r
    case NodeRec(n, a) => n != "" && |a| > 0 && PlainWords(a)
    case PipeRec(n, _, _) => n != ""
    case ConcatRec(_, _) => false
    case Other(text) => Free(text)
    case _ => true
  }

  predicate AllReadable(rs: seq<Record>)
  {
    forall i :: 0 <= i < |rs| ==> Readable(rs[i])
  }

  /** Node argument vectors as the program sees them. */
  function ArgvMap(nodes: map<string, Node>): map<string, seq<string>>
  {
    map n | n in nodes :: Argv(nodes[n])
  }

  /** The state matches tables `t` when nothing is pending. */
  predicate Matches(s: State, t: Tables)
  {
    ArgvMap(s.nodes) == t.nodes && s.pipes == t.pipes && s.concats == map[] && s.current == ""
  }

  lemma ArgvMapUpdate(nodes: map<string, Node>, n: string, node: Node)
    ensures ArgvMap(nodes[n := node]) == ArgvMap(nodes)[n := Argv(node)]
  {
  }

  lemma NoSpaceAt(line: string, i: nat)
    requires i < |line| && line[i] != ' '
    ensures !Spaces(line)
  {
  }

  lemma ReadNodeBack(n: string, a: seq<string>, rest: seq<string>, s: State, t: Tables)
    requires Matches(s, t) && n != "" && |a| > 0 && PlainWords(a)
    ensures exists s' :: Matches(s', t.(nodes := t.nodes[n := a])) && ParseFrom(Print(NodeRec(n, a)) + rest, s) == ParseFrom(rest, s')
  {
    var ls := Print(NodeRec(n, a)) + rest;
    assert "node" + "=" == "node=";
    assert ls == ["node" + "=" + n] + (["command=" + Join(a, " ")] + rest);
    assert StartsWith("node", "node");
    NodeKey("node", n, ["command=" + Join(a, " ")] + rest, s);
    assert Join(a, " ") != "" by {
      W.PlainRoundTrip(a);
    }
    var s1 := s.(current := n);
    CommandKey(Join(a, " "), rest, s1);
    var node := NodeOf(Join(a, " "));
    W.PlainRoundTrip(a);
    NodeArgv(Join(a, " "));
    ArgvMapUpdate(s.nodes, n, node);
    var s' := s1.(nodes := s1.nodes[n := node], current := "");
    assert Matches(s', t.(nodes := t.nodes[n := a]));
  }

  lemma EndOf(key: string, value: string)
    requires HasNo(key, '=')
    ensures End(key + "=" + value) == value
  {
    if value != "" {
      KeyValueOf(key, value);
    } else {
      assert key + "=" + value == key + ['='];
      AfterKey(key, '=', value);
    }
  }

  lemma ReadPipeBack(n: string, f: string, to: string, rest: seq<string>, s: State)
    requires n != ""
    ensures ParseFrom(Print(PipeRec(n, f, to)) + rest, s) == ParseFrom(rest, s.(pipes := s.pipes[n := Pipe(f, to)]))
  {
    var ls := Print(PipeRec(n, f, to)) + rest;
    PipeLayout(n, f, to, rest, ls);
    PipeRecordRead(n, f, to, ls, s);
  }

  /** Where the three lines of a printed pipe sit among the lines that follow it. */
  lemma PipeLayout(n: string, f: string, to: string, rest: seq<string>, ls: seq<string>)
    requires ls == Print(PipeRec(n, f, to)) + rest
    ensures |ls| == 3 + |rest| && ls[3..] == rest
    ensures ls[0] == "pipe" + "=" + n && ls[1] == "from" + "=" + f && ls[2] == "to" + "=" + to
  {
    assert ls[3..] == rest;
  }

  /** A `pipe=` line and the two lines after it, read as one pipe. */
  lemma PipeRecordRead(n: string, f: string, to: string, ls: seq<string>, s: State)
    requires n != "" && |ls| >= 3
    requires ls[0] == "pipe" + "=" + n && ls[1] == "from" + "=" + f && ls[2] == "to" + "=" + to
    ensures Record(ls, s) == Advance(3, s.(pipes := s.pipes[n := Pipe(f, to)]))
  {
    KeyValueOf("pipe", n);
    NoSpaceAt(ls[0], 0);
    NotStartsWith("pipe", "node", 0);
    EndOf("from", f);
    EndOf("to", to);
  }

  /** A line whose key is none the reader acts on. */
  lemma OtherKey(key: string, value: string, rest: seq<string>, s: State)
    requires HasNo(key, '=') && |key| > 0 && key[0] != ' '
    requires !StartsWith(key, "node") && key != "command" && key != "pipe" && key != "concatenate"
    ensures ParseFrom([key + "=" + value] + rest, s) == ParseFrom(rest, s)
  {
    var line := key + "=" + value;
    NoSpaceAt(line, 0);
    if value != "" {
      KeyValueOf(key, value);
    } else {
      assert line == key + ['='] + value;
      AfterKey(key, '=', value);
    }
    assert ([line] + rest)[1..] == rest;
  }

  /** A prefix of `text` cannot start with what `text` does not start with. */
  lemma PrefixKeeps(text: string, key: string, p: string)
    requires StartsWith(text, key) && !StartsWith(text, p)
    ensures !StartsWith(key, p)
  {
    if |p| <= |key| {
      assert text[..|p|] == key[..|p|];
    }
  }

  lemma ReadFreeBack(text: string, rest: seq<string>, s: State)
    requires Free(text)
    ensures ParseFrom([text] + rest, s) == ParseFrom(rest, s)
  {
    var ls := [text] + rest;
    match KeyValue(text)
    case None =>
      assert ls[1..] == rest;
    case Some(kv) =>
      var (key, value) := kv;
      assert text == key + "=" + value;
      assert StartsWith(text, key) by {
        assert text[..|key|] == key;
      }
      PrefixKeeps(text, key, "node");
      PrefixKeeps(text, key, "command");
      PrefixKeeps(text, key, "pipe");
      PrefixKeeps(text, key, "concatenate");
      assert ls[1..] == rest;
  }

  lemma ReadCaptureBack(n: string, f: string, rest: seq<string>, s: State)
    ensures ParseFrom(Print(CaptureRec(n, f)) + rest, s) == ParseFrom(rest, s)
  {
    assert "stderr" + "=" == "stderr=" && "from" + "=" == "from=";
    assert Print(CaptureRec(n, f)) + rest == ["stderr" + "=" + n] + (["from" + "=" + f] + rest);
    NotStartsWith("stderr", "node", 0);
    OtherKey("stderr", n, ["from" + "=" + f] + rest, s);
    NotStartsWith("from", "node", 0);
    OtherKey("from", f, rest, s);
  }

  lemma ReadFileBack(n: string, path: string, rest: seq<string>, s: State)
    ensures ParseFrom(Print(FileRec(n, path)) + rest, s) == ParseFrom(rest, s)
  {
    assert "file" + "=" == "file=" && "name" + "=" == "name=";
    assert Print(FileRec(n, path)) + rest == ["file" + "=" + n] + (["name" + "=" + path] + rest);
    NotStartsWith("file", "node", 0);
    OtherKey("file", n, ["name" + "=" + path] + rest, s);
    NotStartsWith("name", "node", 1);
    OtherKey("name", path, rest, s);
  }

  lemma ReadRecordBack(r: Record, rest: seq<string>, s: State, t: Tables)
    requires Matches(s, t) && Readable(r)
    ensures exists s' :: Matches(s', Apply(Kinds(false, false), t, r)) && ParseFrom(Print(r) + rest, s) == ParseFrom(rest, s')
  {
    match r
    case NodeRec(n, a) => ReadNodeBack(n, a, rest, s, t);
    case PipeRec(n, f, to) =>
      ReadPipeBack(n, f, to, rest, s);
      assert Matches(s.(pipes := s.pipes[n := Pipe(f, to)]), Apply(Kinds(false, false), t, r));
    case CaptureRec(n, f) =>
      ReadCaptureBack(n, f, rest, s);
      assert Apply(Kinds(false, false), t, r) == t;
    case FileRec(n, path) =>
      ReadFileBack(n, path, rest, s);
      assert Apply(Kinds(false, false), t, r) == t;
    case Blank =>
      assert (Print(r) + rest)[1..] == rest;
      assert Apply(Kinds(false, false), t, r) == t;
    case Other(text) =>
      ReadFreeBack(text, rest, s);
      assert Apply(Kinds(false, false), t, r) == t;
  }

  lemma {:induction false} ReadLinesBack(rs: seq<Record>, rest: seq<string>, s: State, t: Tables)
    requires Matches(s, t) && AllReadable(rs)
    ensures exists s' :: Matches(s', Fill(Kinds(false, false), t, rs)) && ParseFrom(Lines(rs) + rest, s) == ParseFrom(rest, s')
    decreases |rs|
  {
    if |rs| == 0 {
      assert Lines(rs) + rest == rest;
      assert Fill(Kinds(false, false), t, rs) == t;
    } else {
      assert Readable(rs[0]);
      assert Lines(rs) + rest == Print(rs[0]) + (Lines(rs[1..]) + rest);
      ReadRecordBack(rs[0], Lines(rs[1..]) + rest, s, t);
      var s1 :| Matches(s1, Apply(Kinds(false, false), t, rs[0])) && ParseFrom(Print(rs[0]) + (Lines(rs[1..]) + rest), s) == ParseFrom(Lines(rs[1..]) + rest, s1);
      ReadLinesBack(rs[1..], rest, s1, Apply(Kinds(false, false), t, rs[0]));
    }
  }

  /**
   * Printed node, pipe, capture, file and free records read back as the
   * nodes, with the argument vectors `prepareArgs` builds, and the pipes
   * they describe.
   */
  lemma RoundTrip(rs: seq<Record>)
    requires AllReadable(rs)
    ensures Parse(Lines(rs)).Ok?
    ensures var s := Parse(Lines(rs)).value; var t := Build(Kinds(false, false), rs);
      ArgvMap(s.nodes) == t.nodes && s.pipes == t.pipes && s.current == ""
  {
    assert ArgvMap(map[]) == map[];
    ReadLinesBack(rs, [], Start, Empty);
    assert Lines(rs) + [] == Lines(rs);
  }

  lemma OneWord(w: string)
    requires W.IsWord(w)
    ensures W.Words(w) == [w]
  {
    W.JoinRoundTrip([w], " ");
  }

  lemma DigitsAreWord(k: nat, key: string)
    requires NoSpace(key)
    ensures W.IsWord(key + NatToString(k))
  {
    var w := key + NatToString(k);
    forall i | 0 <= i < |w|
      ensures !IsSpace(w[i])
    {
      if i >= |key| {
        assert w[i] == NatToString(k)[i - |key|];
      }
    }
  }

  /** `parts=N` is a single word, so no count can be read from it. */
  lemma PrintedCountLine(k: nat)
    ensures Count("parts=" + NatToString(k)) == None
  {
    assert NoSpace("parts=") by {
      assert forall i :: 0 <= i < 6 ==> "parts="[i] in "parts=";
    }
    DigitsAreWord(k, "parts=");
    OneWord("parts=" + NatToString(k));
  }

  lemma ConcatHeaderStops(n: string, ps: seq<string>, rest: seq<string>, s: State)
    requires n != ""
    ensures ParseFrom(Print(ConcatRec(n, ps)) + rest, s) == Err(UndefinedCount(n))
  {
    var ls := Print(ConcatRec(n, ps)) + rest;
    assert "concatenate" + "=" == "concatenate=";
    assert ls[0] == "concatenate" + "=" + n;
    KeyValueOf("concatenate", n);
    NoSpaceAt(ls[0], 0);
    NotStartsWith("concatenate", "node", 0);
    assert Line(ls, 1) == "parts=" + NatToString(|ps|);
    PrintedCountLine(|ps|);
  }

  /** A concatenation in the printed format stops the parse: `parts=N` is one word, so the count is never set. */
  lemma PrintedCountUndefined(rs: seq<Record>, n: string, ps: seq<string>, rest: seq<string>)
    requires AllReadable(rs) && n != ""
    ensures Parse(Lines(rs) + (Print(ConcatRec(n, ps)) + rest)) == Err(UndefinedCount(n))
  {
    var ls := Print(ConcatRec(n, ps)) + rest;
    assert ArgvMap(map[]) == map[];
    ReadLinesBack(rs, ls, Start, Empty);
    var s :| Matches(s, Build(Kinds(false, false), rs)) && ParseFrom(Lines(rs) + ls, Start) == ParseFrom(ls, s);
    ConcatHeaderStops(n, ps, rest, s);
  }

  /** The count is the second word of its line: a space-separated count is read. */
  lemma SpacedCount(key: string, k: nat)
    requires W.IsWord(key)
    ensures Count(key + " " + NatToString(k)) == Some(k as int)
  {
    DigitsAreWord(k, "");
    assert "" + NatToString(k) == NatToString(k);
    assert W.AllSpace(" ");
    W.JoinRoundTrip([key, NatToString(k)], " ");
    assert Join([key, NatToString(k)], " ") == key + " " + NatToString(k) by {
      assert [key, NatToString(k)][1..] == [NatToString(k)];
    }
    ReadsBackDecimal(k);
  }

  // ---------------------------------------------------------------
  // main
  // ---------------------------------------------------------------

  /** The action `main` runs: a pipe before a concatenation; None exits with 1. */
  function Target(s: State, action: string): (r: Option<Kind>)
    ensures r == Some(PipeKind) <==> action in s.pipes
    ensures r == Some(ConcatKind) <==> action !in s.pipes && action in s.concats
    ensures r == None <==> action !in s.pipes && action !in s.concats
  {
    if action in s.pipes then Some(PipeKind)
    else if action in s.concats then Some(ConcatKind)
    else None
  }
}
