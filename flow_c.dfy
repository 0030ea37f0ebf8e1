// flow.c: the earliest C attempt.  Nodes and pipes are stored in global
// arrays of 100 with counters (31-35) while the flow file is read line by
// line (204-213); nodes are found by a linear search that returns the first
// index with the name (38-48).  The target named on the command line is
// matched against the stored pipes by either end, then against the
// concatenations by name, and both matches run (215-238); a concatenation
// runs only the parts that are nodes (186-195).

module CFlow {
  import opened Wrappers
  import opened Text
  import opened Process
  import Words
  import Strtok
  import Flowc

  type NodeEntry = Flowc.NodeEntry
  type Concatenate = Flowc.ConcatEntry

  /** A stored pipe: its two ends (the pipe's own name is skipped by `%*s`). */
  datatype FlowPipe = FlowPipe(from: string, to: string)

  /** `MAX_NODES`: the length of each global array. */
  const MaxNodes: nat := 100
  /** `MAX_COMMANDS`: the argument slots of a node, the terminating NULL included. */
  const MaxCommand: nat := 100

  /** Inputs on which flow.c copies an uninitialised buffer or writes past an array. */
  datatype Undefined =
    | UninitialisedName
    | UninitialisedCommand
    | UninitialisedEnd
    | TooManyWords
    | TooManyNodes
    | TooManyPipes

  /** The filled prefixes of the node and pipe arrays. */
  datatype Tables = Tables(nodes: seq<NodeEntry>, pipes: seq<FlowPipe>)

  const NoTables := Tables([], [])

  // ---------------------------------------------------------------
  // sscanf conversions over the words of a line
  // ---------------------------------------------------------------

  /** `sscanf(line, "node=%s", name)`: the first word after `node=`, if there is one. */
  function HeaderName(line: string): Option<string>
  {
    if StartsWith(line, "node=") && |Words.Words(line[5..])| > 0 then Some(Words.Words(line[5..])[0]) else None
  }

  /** `sscanf(line, "command=%[^\n]", command)`: the rest of the line, which must not be empty. */
  function CommandText(line: string): Option<string>
  {
    if StartsWith(line, "command=") && |line| > 8 then Some(line[8..]) else None
  }

  /**
   * A literal directive followed by `%s`, read against the remaining words:
   * the literal must open the next word, and `%s` takes the rest of that
   * word or, when nothing follows the literal, skips to the next word.
   */
  function Conversion(ws: seq<string>, lit: string): (r: Option<(string, seq<string>)>)
    requires lit != ""
    ensures r.Some? ==> |r.value.1| < |ws|
  {
    if |ws| == 0 || !StartsWith(ws[0], lit) || (|ws[0]| == |lit| && |ws| == 1) then None
    else if |ws[0]| > |lit| then Some((ws[0][|lit|..], ws[1..]))
    else Some((ws[1], ws[2..]))
  }

  /** `sscanf(line, "pipe=%*s from=%s to=%s", from, to)` with both ends assigned. */
  function ScanPipe(line: string): Option<FlowPipe>
  {
    if !StartsWith(line, "pipe=") then None
    else
      var ws := Words.Words(line[5..]);
      if |ws| == 0 then None
      else
        match Conversion(ws[1..], "from=")
        case None => None
        case Some((from, rest)) =>
          match Conversion(rest, "to=")
          case None => None
          case Some((to, _)) => Some(FlowPipe(from, to))
  }

  // ---------------------------------------------------------------
  // Reading the flow file
  // ---------------------------------------------------------------

  /** One turn of the file loop: the lines it took and the tables after it, or undefined behaviour. */
  datatype Turn = Broken(why: Undefined) | Took(taken: nat, tables: Tables)

  predicate Takes(t: Turn, ls: seq<string>)
  {
    t.Took? ==> 0 < t.taken <= |ls|
  }

  /**
   * `parse_node`: a line starting `node` and the next line.  At the end of
   * the file nothing is stored; otherwise the name and the command must have
   * been scanned, and the command is cut at spaces by `strtok`.
   */
  function NodeRecord(ls: seq<string>, t: Tables): (r: Turn)
    requires |ls| > 0
    ensures Takes(r, ls)
  {
    if |ls| < 2 then Took(1, t)
    else
      match HeaderName(ls[0])
      case None => Broken(UninitialisedName)
      case Some(name) =>
        match CommandText(ls[1])
        case None => Broken(UninitialisedCommand)
        case Some(command) =>
          var argv := Strtok.Fields(command, ' ');
          if |argv| >= MaxCommand then Broken(TooManyWords)
          else if |t.nodes| >= MaxNodes then Broken(TooManyNodes)
          else Took(2, t.(nodes := t.nodes + [Flowc.NodeEntry(name, argv)]))
  }

  /** `parse_pipe`: one line, whose two ends must both have been scanned. */
  function PipeRecord(line: string, t: Tables): (r: Turn)
    ensures Takes(r, [line])
  {
    match ScanPipe(line)
    case None => Broken(UninitialisedEnd)
    case Some(p) =>
      if |t.pipes| >= MaxNodes then Broken(TooManyPipes)
      else Took(1, t.(pipes := t.pipes + [p]))
  }

  /**
   * One turn of the `fgets` loop of `parse_and_execute_flow_file`.  A
   * `concatenate` line reads its parts from standard input, so it takes one
   * line of the file, like a line the loop ignores.
   */
  function Record(ls: seq<string>, t: Tables): (r: Turn)
    requires |ls| > 0
    ensures Takes(r, ls)
  {
    if StartsWith(ls[0], "node") then NodeRecord(ls, t)
    else if StartsWith(ls[0], "pipe") then PipeRecord(ls[0], t)
    else Took(1, t)
  }

  function ReadFrom(ls: seq<string>, t: Tables): Result<Tables, Undefined>
    decreases |ls|
  {
    if |ls| == 0 then Ok(t)
    else
      match Record(ls, t)
      case Broken(why) => Err(why)
      case Took(k, t') => ReadFrom(ls[k..], t')
  }

  // ---------------------------------------------------------------
  // Running the target
  // ---------------------------------------------------------------

  /** `find_node_by_name` on the stored nodes. */
  function FindNode(nodes: seq<NodeEntry>, name: string): int
  {
    Flowc.First(Flowc.Names(nodes, Flowc.NodeName), name)
  }

  predicate HasEnd(x: FlowPipe, target: string)
  {
    x.to == target || x.from == target
  }

  /** The pipe loop of `parse_and_execute_flow_file`: the first pipe with the target at either end, or -1. */
  function FirstPipe(pipes: seq<FlowPipe>, target: string): (r: int)
    ensures -1 <= r < |pipes|
    ensures r >= 0 ==> HasEnd(pipes[r], target) && forall m :: 0 <= m < r ==> !HasEnd(pipes[m], target)
    ensures r == -1 <==> forall m :: 0 <= m < |pipes| ==> !HasEnd(pipes[m], target)
    decreases |pipes|
  {
    if |pipes| == 0 then -1
    else if HasEnd(pipes[0], target) then 0
    else
      var r := FirstPipe(pipes[1..], target);
      if r == -1 then -1 else r + 1
  }

  /** `execute_node`: no redirection; the parent waits without looking at the status. */
  function Terminal(argv: seq<string>): Launch
  {
    Launch(argv, Stdin, Stdout, Stderr, true)
  }

  /**
   * `execute_pipe`: the first child writes the pipe and runs the `from` node,
   * the second reads it and runs the `to` node; an end that is not a node
   * starts nothing.
   */
  function PipeLaunches(nodes: seq<NodeEntry>, x: FlowPipe): seq<Launch>
  {
    var f := FindNode(nodes, x.from);
    var g := FindNode(nodes, x.to);
    (if f >= 0 then [Launch(nodes[f].argv, Stdin, PipeWrite(0), Stderr, true)] else [])
    + (if g >= 0 then [Launch(nodes[g].argv, PipeRead(0), Stdout, Stderr, true)] else [])
  }

  /** `execute_concatenate`: the parts that are nodes, in order, each run to completion. */
  function ConcatLaunches(nodes: seq<NodeEntry>, parts: seq<string>): seq<Launch>
    decreases |parts|
  {
    if |parts| == 0 then []
    else
      var i := FindNode(nodes, parts[0]);
      (if i >= 0 then [Terminal(nodes[i].argv)] else []) + ConcatLaunches(nodes, parts[1..])
  }

  /** The target matched neither a pipe nor a concatenation: `exit(1)`. */
  datatype Missing = NotFound

  /** Both searches run; the target is missing only if neither matched. */
  function Select(nodes: seq<NodeEntry>, pipes: seq<FlowPipe>, concats: seq<Concatenate>, target: string): Result<seq<Launch>, Missing>
  {
    var p := FirstPipe(pipes, target);
    var c := Flowc.First(Flowc.Names(concats, Flowc.ConcatName), target);
    if p < 0 && c < 0 then Err(NotFound)
    else Ok((if p >= 0 then PipeLaunches(nodes, pipes[p]) else [])
          + (if c >= 0 then ConcatLaunches(nodes, concats[c].parts) else []))
  }

  /** Why flow.c runs nothing: undefined behaviour while reading, or a missing target. */
  datatype Failure = Broke(why: Undefined) | Missed

  /** The program: read the file, then run the target; the concatenations are given. */
  function Run(lines: seq<string>, concats: seq<Concatenate>, target: string): Result<seq<Launch>, Failure>
  {
    match ReadFrom(lines, NoTables)
    case Err(why) => Err(Broke(why))
    case Ok(t) =>
      match Select(t.nodes, t.pipes, concats, target)
      case Err(_) => Err(Missed)
      case Ok(ls) => Ok(ls)
  }

  /** The concatenation loop, proved to compute `ConcatLaunches`. */
  method ExecuteConcatenate(nodes: seq<NodeEntry>, parts: seq<string>) returns (launched: seq<Launch>)
    ensures launched == ConcatLaunches(nodes, parts)
  {
    launched := [];
    var i := 0;
    while i < |parts|
      invariant 0 <= i <= |parts|
      invariant launched + ConcatLaunches(nodes, parts[i..]) == ConcatLaunches(nodes, parts)
    {
      var k := FindNode(nodes, parts[i]);
      assert parts[i..][1..] == parts[i + 1..];
      if k >= 0 {
        launched := launched + [Terminal(nodes[k].argv)];
      }
      i := i + 1;
    }
  }

  // ---------------------------------------------------------------
  // What reading and running promise
  // ---------------------------------------------------------------

  /** Reading only appends: the nodes and pipes stored before stay in place, in order. */
  lemma {:induction false} ReadFromGrows(ls: seq<string>, t: Tables)
    requires ReadFrom(ls, t).Ok?
    ensures t.nodes <= ReadFrom(ls, t).value.nodes && t.pipes <= ReadFrom(ls, t).value.pipes
    decreases |ls|
  {
    if |ls| > 0 {
      var r := Record(ls, t);
      ReadFromGrows(ls[r.taken..], r.tables);
    }
  }

  /** A word on its own reads back as that one word. */
  lemma OneWord(w: string)
    requires Words.IsWord(w)
    ensures Words.Words(w) == [w]
  {
    Words.RunWord(Words.Scan([], ""), w);
    assert "" + w == w;
  }

  /** A node line with a one-word name and a non-empty command line store the node with the command's `strtok` fields. */
  lemma NodeLinesStore(name: string, command: string, rest: seq<string>, t: Tables)
    requires Words.IsWord(name) && command != ""
    requires |Strtok.Fields(command, ' ')| < MaxCommand && |t.nodes| < MaxNodes
    ensures Record(["node=" + name, "command=" + command] + rest, t)
         == Took(2, t.(nodes := t.nodes + [Flowc.NodeEntry(name, Strtok.Fields(command, ' '))]))
  {
    var ls := ["node=" + name, "command=" + command] + rest;
    StartsWithConcat("node=", name);
    StartsWithConcat("command=", command);
    assert StartsWith(ls[0], "node") by {
      assert ls[0][..4] == "node";
    }
    OneWord(name);
  }

  /** A node line that is the last line of the file stores nothing. */
  lemma NodeAtEndStoresNothing(line: string, t: Tables)
    requires StartsWith(line, "node")
    ensures ReadFrom([line], t) == Ok(t)
  {
    assert [line][1..] == [];
  }

  /** `node` not followed by `=` leaves the name unscanned. */
  lemma NodeNeedsEquals(x: string, command: string, rest: seq<string>, t: Tables)
    requires |x| > 0 && x[0] != '='
    ensures Record(["node" + x, command] + rest, t) == Broken(UninitialisedName)
  {
    var line := "node" + x;
    StartsWithConcat("node", x);
    NotStartsWith(line, "node=", 4);
  }

  /** The one-line pipe form this parser scans. */
  function PipeLine(name: string, from: string, to: string): string
  {
    "pipe=" + name + " from=" + from + " to=" + to
  }

  lemma LiteralWord(lit: string, w: string)
    requires Words.IsWord(w) && NoSpace(lit)
    ensures Words.IsWord(lit + w) && StartsWith(lit + w, lit) && (lit + w)[|lit|..] == w
  {
    assert forall k :: 0 <= k < |w| ==> (lit + w)[|lit| + k] == w[k];
    assert forall k :: 0 <= k < |lit| ==> (lit + w)[k] == lit[k];
    StartsWithConcat(lit, w);
  }

  lemma PipeLineWords(name: string, from: string, to: string)
    requires Words.IsWord(name) && Words.IsWord(from) && Words.IsWord(to)
    ensures StartsWith(PipeLine(name, from, to), "pipe=")
    ensures Words.Words(PipeLine(name, from, to)[5..]) == [name, "from=" + from, "to=" + to]
  {
    var ws := [name, "from=" + from, "to=" + to];
    var tail := name + " from=" + from + " to=" + to;
    assert PipeLine(name, from, to) == "pipe=" + tail;
    StartsWithConcat("pipe=", tail);
    LiteralWord("from=", from);
    LiteralWord("to=", to);
    JoinThree(name, "from=" + from, "to=" + to);
    PipeTail(name, from, to);
    Words.JoinRoundTrip(ws, " ");
  }

  lemma JoinThree(a: string, b: string, c: string)
    ensures Join([a, b, c], " ") == a + " " + b + " " + c
  {
    assert [a, b, c][1..] == [b, c];
    assert [b, c][1..] == [c];
    assert Join([b, c], " ") == b + " " + c;
    assert Join([a, b, c], " ") == a + " " + (b + " " + c);
  }

  lemma PipeTail(name: string, from: string, to: string)
    ensures name + " from=" + from + " to=" + to == name + " " + ("from=" + from) + " " + ("to=" + to)
  {
    assert " from=" == " " + "from=" && " to=" == " " + "to=";
  }

  /** The one-line pipe form is scanned into its two ends. */
  lemma ScanPipeLine(name: string, from: string, to: string)
    requires Words.IsWord(name) && Words.IsWord(from) && Words.IsWord(to)
    ensures ScanPipe(PipeLine(name, from, to)) == Some(FlowPipe(from, to))
  {
    PipeLineWords(name, from, to);
    var ws := [name, "from=" + from, "to=" + to];
    LiteralWord("from=", from);
    LiteralWord("to=", to);
    assert ws[1..] == ["from=" + from, "to=" + to];
    assert Conversion(ws[1..], "from=") == Some((from, ["to=" + to]));
    assert Conversion(["to=" + to], "to=") == Some((to, []));
  }

  /** A one-line pipe with word-shaped name and ends is stored with those ends. */
  lemma PipeLineStores(name: string, from: string, to: string, t: Tables)
    requires Words.IsWord(name) && Words.IsWord(from) && Words.IsWord(to) && |t.pipes| < MaxNodes
    ensures Record([PipeLine(name, from, to)], t) == Took(1, t.(pipes := t.pipes + [FlowPipe(from, to)]))
  {
    var line := PipeLine(name, from, to);
    ScanPipeLine(name, from, to);
    PipeLineWords(name, from, to);
    assert StartsWith(line, "pipe") by {
      assert line[..4] == line[..5][..4];
    }
    NotStartsWith(line, "node", 0);
  }

  /**
   * A file of two nodes and a one-line pipe between them: asking for either
   * end runs the `from` node into the pipe and the `to` node out of it.
   */
  lemma PipeFileRuns(a: string, ca: string, b: string, cb: string, p: string, target: string)
    requires Words.IsWord(a) && Words.IsWord(b) && Words.IsWord(p) && a != b
    requires ca != "" && cb != "" && |Strtok.Fields(ca, ' ')| < MaxCommand && |Strtok.Fields(cb, ' ')| < MaxCommand
    requires target == a || target == b
    ensures Run(["node=" + a, "command=" + ca, "node=" + b, "command=" + cb, PipeLine(p, a, b)], [], target)
         == Ok([Launch(Strtok.Fields(ca, ' '), Stdin, PipeWrite(0), Stderr, true),
                Launch(Strtok.Fields(cb, ' '), PipeRead(0), Stdout, Stderr, true)])
  {
    var ls := ["node=" + a, "command=" + ca, "node=" + b, "command=" + cb, PipeLine(p, a, b)];
    var na := Flowc.NodeEntry(a, Strtok.Fields(ca, ' '));
    var nb := Flowc.NodeEntry(b, Strtok.Fields(cb, ' '));
    var t1 := Tables([na], []);
    var t2 := Tables([na, nb], []);
    var t3 := Tables([na, nb], [FlowPipe(a, b)]);
    assert ls == ["node=" + a, "command=" + ca] + ls[2..];
    NodeLinesStore(a, ca, ls[2..], NoTables);
    assert ls[2..] == ["node=" + b, "command=" + cb] + ls[4..];
    NodeLinesStore(b, cb, ls[4..], t1);
    assert ls[4..] == [PipeLine(p, a, b)];
    PipeLineStores(p, a, b, t2);
    assert ls[2..][2..] == ls[4..] && ls[4..][1..] == [];
    assert [] + [na] == [na] && [na] + [nb] == [na, nb] && [] + [FlowPipe(a, b)] == [FlowPipe(a, b)];
    assert ReadFrom(ls[4..], t2) == Ok(t3);
    assert ReadFrom(ls[2..], t1) == Ok(t3);
    assert ReadFrom(ls, NoTables) == Ok(t3);
    FirstNodeWins([], a, na.argv, [nb]);
    FirstNodeWins([na], b, nb.argv, []);
    assert [] + [na] + [nb] == [na, nb] && [na] + [nb] + [] == [na, nb];
    assert FindNode([na, nb], a) == 0 && FindNode([na, nb], b) == 1;
    assert FirstPipe(t3.pipes, target) == 0;
    assert Flowc.First(Flowc.Names([], Flowc.ConcatName), target) == -1;
    var launched := PipeLaunches([na, nb], FlowPipe(a, b));
    assert launched == [Launch(na.argv, Stdin, PipeWrite(0), Stderr, true), Launch(nb.argv, PipeRead(0), Stdout, Stderr, true)];
    assert Select(t3.nodes, t3.pipes, [], target) == Ok(launched + []);
    assert launched + [] == launched;
  }

  /** A pipe whose ends follow on lines of their own, as the other programs write it, is never scanned. */
  lemma PipeHeaderAloneUndefined(name: string, rest: seq<string>, t: Tables)
    requires Words.IsWord(name)
    ensures Record(["pipe=" + name] + rest, t) == Broken(UninitialisedEnd)
  {
    var ls := ["pipe=" + name] + rest;
    StartsWithConcat("pipe=", name);
    assert StartsWith(ls[0], "pipe") by {
      assert ls[0][..4] == "pipe";
    }
    NotStartsWith(ls[0], "node", 0);
    OneWord(name);
  }

  /** A duplicated node name is resolved to its first definition. */
  lemma FirstNodeWins(nodes: seq<NodeEntry>, name: string, argv: seq<string>, later: seq<NodeEntry>)
    requires forall m :: 0 <= m < |nodes| ==> nodes[m].name != name
    ensures FindNode(nodes + [Flowc.NodeEntry(name, argv)] + later, name) == |nodes|
  {
    var all := nodes + [Flowc.NodeEntry(name, argv)] + later;
    Flowc.FirstAfterAbsent(Flowc.Names(nodes, Flowc.NodeName), name, Flowc.Names(later, Flowc.NodeName));
    assert Flowc.Names(all, Flowc.NodeName)
        == Flowc.Names(nodes, Flowc.NodeName) + [name] + Flowc.Names(later, Flowc.NodeName);
  }

  /** Both ends nodes: the writer runs `from` into the pipe, the reader runs `to` from it. */
  lemma PipeOfNodes(nodes: seq<NodeEntry>, x: FlowPipe)
    requires FindNode(nodes, x.from) >= 0 && FindNode(nodes, x.to) >= 0
    ensures PipeLaunches(nodes, x)
         == [Launch(nodes[FindNode(nodes, x.from)].argv, Stdin, PipeWrite(0), Stderr, true),
             Launch(nodes[FindNode(nodes, x.to)].argv, PipeRead(0), Stdout, Stderr, true)]
  {
  }

  /** An end that is not a node starts nothing; the other end still uses the pipe. */
  lemma PipeWithUnknownEnd(nodes: seq<NodeEntry>, x: FlowPipe)
    requires FindNode(nodes, x.from) < 0 || FindNode(nodes, x.to) < 0
    ensures |PipeLaunches(nodes, x)| <= 1
    ensures FindNode(nodes, x.from) < 0 && FindNode(nodes, x.to) >= 0 ==>
      PipeLaunches(nodes, x) == [Launch(nodes[FindNode(nodes, x.to)].argv, PipeRead(0), Stdout, Stderr, true)]
  {
  }

  predicate NamesNode(nodes: seq<NodeEntry>, part: string)
  {
    FindNode(nodes, part) >= 0
  }

  /** The parts that name a node, in order. */
  function NodeParts(nodes: seq<NodeEntry>, parts: seq<string>): (r: seq<string>)
    ensures |r| <= |parts|
    ensures forall k :: 0 <= k < |r| ==> NamesNode(nodes, r[k])
  {
    if |parts| == 0 then []
    else (if NamesNode(nodes, parts[0]) then [parts[0]] else []) + NodeParts(nodes, parts[1..])
  }

  /**
   * A concatenation starts one process per part that names a node, in the
   * order of the parts, each with the argv of the node's first definition.
   */
  lemma {:induction false} ConcatRunsNodeParts(nodes: seq<NodeEntry>, parts: seq<string>)
    ensures |ConcatLaunches(nodes, parts)| == |NodeParts(nodes, parts)|
    ensures forall k :: 0 <= k < |NodeParts(nodes, parts)| ==>
      ConcatLaunches(nodes, parts)[k] == Terminal(nodes[FindNode(nodes, NodeParts(nodes, parts)[k])].argv)
    decreases |parts|
  {
    if |parts| > 0 {
      ConcatRunsNodeParts(nodes, parts[1..]);
    }
  }

  /** When every part is a node, every part runs. */
  lemma {:induction false} ConcatOfNodes(nodes: seq<NodeEntry>, parts: seq<string>)
    requires forall k :: 0 <= k < |parts| ==> NamesNode(nodes, parts[k])
    ensures NodeParts(nodes, parts) == parts
    ensures |ConcatLaunches(nodes, parts)| == |parts|
    decreases |parts|
  {
    if |parts| > 0 {
      ConcatOfNodes(nodes, parts[1..]);
      assert [parts[0]] + parts[1..] == parts;
    }
    ConcatRunsNodeParts(nodes, parts);
  }

  /** Parts that are not nodes are skipped without stopping the concatenation. */
  lemma {:induction false} ConcatSkipsUnknown(nodes: seq<NodeEntry>, before: seq<string>, part: string, after: seq<string>)
    requires !NamesNode(nodes, part)
    ensures ConcatLaunches(nodes, before + [part] + after) == ConcatLaunches(nodes, before + after)
    decreases |before|
  {
    if |before| == 0 {
      assert [part] + after == before + [part] + after;
      assert (before + [part] + after)[1..] == after;
      assert before + after == after;
    } else {
      ConcatSkipsUnknown(nodes, before[1..], part, after);
      assert (before + [part] + after)[1..] == before[1..] + [part] + after;
      assert (before + after)[1..] == before[1..] + after;
    }
  }

  /** The target is reported missing exactly when no pipe has it at an end and no concatenation bears its name. */
  lemma NotFoundIff(nodes: seq<NodeEntry>, pipes: seq<FlowPipe>, concats: seq<Concatenate>, target: string)
    ensures Select(nodes, pipes, concats, target).Err? <==>
      (forall m :: 0 <= m < |pipes| ==> !HasEnd(pipes[m], target))
      && (forall m :: 0 <= m < |concats| ==> concats[m].name != target)
  {
    var names := Flowc.Names(concats, Flowc.ConcatName);
    assert forall m :: 0 <= m < |concats| ==> names[m] == concats[m].name;
  }

  /** A target that names both a pipe end and a concatenation runs both, the pipe first. */
  lemma PipeAndConcatBothRun(nodes: seq<NodeEntry>, pipes: seq<FlowPipe>, concats: seq<Concatenate>, target: string, p: nat, c: nat)
    requires p < |pipes| && HasEnd(pipes[p], target) && forall m :: 0 <= m < p ==> !HasEnd(pipes[m], target)
    requires c < |concats| && concats[c].name == target && forall m :: 0 <= m < c ==> concats[m].name != target
    ensures Select(nodes, pipes, concats, target)
         == Ok(PipeLaunches(nodes, pipes[p]) + ConcatLaunches(nodes, concats[c].parts))
  {
    var names := Flowc.Names(concats, Flowc.ConcatName);
    FirstPipeIs(pipes, target, p);
    FirstNameIs(names, target, c);
  }

  lemma FirstPipeIs(pipes: seq<FlowPipe>, target: string, p: nat)
    requires p < |pipes| && HasEnd(pipes[p], target) && forall m :: 0 <= m < p ==> !HasEnd(pipes[m], target)
    ensures FirstPipe(pipes, target) == p
  {
  }

  lemma FirstNameIs(names: seq<string>, name: string, c: nat)
    requires c < |names| && names[c] == name && forall m :: 0 <= m < c ==> names[m] != name
    ensures Flowc.First(names, name) == c
  {
  }

  // ---------------------------------------------------------------
  // The global arrays
  // ---------------------------------------------------------------

  class FlowFile {
    const nodes: array<NodeEntry>
    const pipes: array<FlowPipe>
    var nodeCount: nat
    var pipeCount: nat

    ghost predicate Valid()
      reads this
    {
      nodes.Length == MaxNodes && pipes.Length == MaxNodes
      && nodeCount <= MaxNodes && pipeCount <= MaxNodes
    }

    function Contents(): Tables
      requires Valid()
      reads this, nodes, pipes
    {
      Tables(nodes[..nodeCount], pipes[..pipeCount])
    }

    constructor ()
      ensures Valid() && Contents() == NoTables && fresh(nodes) && fresh(pipes)
    {
      nodes := new NodeEntry[MaxNodes](_ => Flowc.NodeEntry("", []));
      pipes := new FlowPipe[MaxNodes](_ => FlowPipe("", ""));
      nodeCount := 0;
      pipeCount := 0;
    }

    /** `find_node_by_name`. */
    method FindNodeByName(name: string) returns (i: int)
      requires Valid()
      ensures i == FindNode(Contents().nodes, name)
    {
      i := Flowc.FindIn(nodes, nodeCount, Flowc.NodeName, name);
    }

    /** `parse_node`, with `fgets` giving the next line, if any. */
    method ReadNode(lines: seq<string>, i: nat) returns (r: Turn)
      requires Valid() && i < |lines|
      modifies this, nodes
      ensures Valid() && pipeCount == old(pipeCount)
      ensures r == NodeRecord(lines[i..], old(Contents()))
      ensures r.Took? ==> Contents() == r.tables
    {
      if i + 1 == |lines| {
        return Took(1, Contents());
      }
      var name := HeaderName(lines[i]);
      if name.None? {
        return Broken(UninitialisedName);
      }
      var command := CommandText(lines[i + 1]);
      if command.None? {
        return Broken(UninitialisedCommand);
      }
      var argv := Strtok.Split(command.value, ' ');
      if |argv| >= MaxCommand {
        return Broken(TooManyWords);
      }
      if nodeCount >= MaxNodes {
        return Broken(TooManyNodes);
      }
      nodes[nodeCount] := Flowc.NodeEntry(name.value, argv);
      nodeCount := nodeCount + 1;
      assert nodes[..nodeCount] == old(nodes[..nodeCount]) + [Flowc.NodeEntry(name.value, argv)];
      return Took(2, Contents());
    }

    /** `parse_pipe`. */
    method ReadPipe(line: string) returns (r: Turn)
      requires Valid()
      modifies this, pipes
      ensures Valid() && nodeCount == old(nodeCount)
      ensures r == PipeRecord(line, old(Contents()))
      ensures r.Took? ==> Contents() == r.tables
    {
      var p := ScanPipe(line);
      if p.None? {
        return Broken(UninitialisedEnd);
      }
      if pipeCount >= MaxNodes {
        return Broken(TooManyPipes);
      }
      pipes[pipeCount] := p.value;
      pipeCount := pipeCount + 1;
      assert pipes[..pipeCount] == old(pipes[..pipeCount]) + [p.value];
      return Took(1, Contents());
    }

    /** One turn of the file loop. */
    method ReadRecord(lines: seq<string>, i: nat) returns (r: Turn)
      requires Valid() && i < |lines|
      modifies this, nodes, pipes
      ensures Valid()
      ensures r == Record(lines[i..], old(Contents()))
      ensures r.Took? ==> Contents() == r.tables
    {
      if StartsWith(lines[i], "node") {
        r := ReadNode(lines, i);
      } else if StartsWith(lines[i], "pipe") {
        r := ReadPipe(lines[i]);
      } else {
        r := Took(1, Contents());
      }
    }

    /** The line loop of `parse_and_execute_flow_file`, one `fgets` line per turn. */
    method ReadLines(lines: seq<string>) returns (r: Result<Tables, Undefined>)
      requires Valid()
      modifies this, nodes, pipes
      ensures Valid()
      ensures r == ReadFrom(lines, old(Contents()))
      ensures r.Ok? ==> Contents() == r.value
    {
      var i := 0;
      assert lines[i..] == lines;
      while i < |lines|
        invariant 0 <= i <= |lines| && Valid()
        invariant ReadFrom(lines[i..], Contents()) == ReadFrom(lines, old(Contents()))
        decreases |lines| - i
      {
        var t := ReadRecord(lines, i);
        if t.Broken? {
          return Err(t.why);
        }
        assert lines[i..][t.taken..] == lines[i + t.taken..];
        i := i + t.taken;
      }
      return Ok(Contents());
    }

    /** The two target searches of `parse_and_execute_flow_file`, over the stored pipes. */
    method Execute(concats: seq<Concatenate>, target: string) returns (r: Result<seq<Launch>, Missing>)
      requires Valid()
      ensures r == Select(Contents().nodes, Contents().pipes, concats, target)
    {
      var i := 0;
      while i < pipeCount
        invariant 0 <= i <= pipeCount
        invariant forall m :: 0 <= m < i ==> !HasEnd(pipes[m], target)
      {
        if target == pipes[i].to || target == pipes[i].from {
          break;
        }
        i := i + 1;
      }
      ghost var p := FirstPipe(pipes[..pipeCount], target);
      var piped: seq<Launch> := [];
      if i < pipeCount {
        assert p == i;
        piped := PipeLaunches(nodes[..nodeCount], pipes[i]);
      } else {
        assert p == -1;
      }
      var names := Flowc.Names(concats, Flowc.ConcatName);
      var j := 0;
      while j < |concats|
        invariant 0 <= j <= |concats|
        invariant forall m :: 0 <= m < j ==> names[m] != target
      {
        if target == concats[j].name {
          break;
        }
        j := j + 1;
      }
      ghost var c := Flowc.First(names, target);
      var joined: seq<Launch> := [];
      if j < |concats| {
        assert c == j;
        joined := ExecuteConcatenate(nodes[..nodeCount], concats[j].parts);
      } else {
        assert c == -1;
      }
      if i == pipeCount && j == |concats| {
        return Err(NotFound);
      }
      return Ok(piped + joined);
    }
  }

  /** `main` after opening the file: read it into fresh globals, then run the target. */
  method ParseAndExecute(lines: seq<string>, concats: seq<Concatenate>, target: string) returns (r: Result<seq<Launch>, Failure>)
    ensures r == Run(lines, concats, target)
  {
    var file := new FlowFile();
    var t := file.ReadLines(lines);
    if t.Err? {
      return Err(Broke(t.error));
    }
    var s := file.Execute(concats, target);
    if s.Err? {
      return Err(Missed);
    }
    return Ok(s.value);
  }
}
