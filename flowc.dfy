// src/flowc.c: the C version.  Records are appended to five fixed arrays of
// 100 entries with a counter each (48-61), looked up by a linear search that
// returns the first entry with the name (347-390), read by a strict line
// reader (92-193), and run by a recursive `execute_action` (195-344).

module Flowc {
  import opened Wrappers
  import opened Text
  import opened Process
  import F = Flow
  import Strtok

  /** `MAX_NODES`, `MAX_PIPES`, `MAX_CONCATENATIONS`, `MAX_STDERR_CAPTURES`, `MAX_FILE_NODES`. */
  const MaxEntries: nat := 100
  /** `MAX_PARTS`. */
  const MaxParts: nat := 10
  /** The size of the buffer the flow file is read into; one byte is kept for the terminator. */
  const BufferSize: nat := 4096

  datatype NodeEntry = NodeEntry(name: string, argv: seq<string>)
  datatype PipeEntry = PipeEntry(name: string, from: string, to: string)
  datatype ConcatEntry = ConcatEntry(name: string, parts: seq<string>)
  datatype CaptureEntry = CaptureEntry(name: string, from: string)
  datatype FileEntry = FileEntry(name: string, filename: string)

  /** The filled prefixes of the five arrays, in the order the records were read. */
  datatype Entries = Entries(
    nodes: seq<NodeEntry>,
    pipes: seq<PipeEntry>,
    concats: seq<ConcatEntry>,
    captures: seq<CaptureEntry>,
    files: seq<FileEntry>)

  const NoEntries := Entries([], [], [], [], [])

  function NodeName(x: NodeEntry): string { x.name }
  function PipeName(x: PipeEntry): string { x.name }
  function ConcatName(x: ConcatEntry): string { x.name }
  function CaptureName(x: CaptureEntry): string { x.name }
  function FileName(x: FileEntry): string { x.name }

  function Names<T>(s: seq<T>, key: T -> string): (r: seq<string>)
    ensures |r| == |s| && forall m :: 0 <= m < |s| ==> r[m] == key(s[m])
  {
    seq(|s|, m requires 0 <= m < |s| => key(s[m]))
  }

  // ---------------------------------------------------------------
  // First-match lookup
  // ---------------------------------------------------------------

  /** The index the `find_*` loop stops at: the first equal name, or -1 (NULL). */
  function First(names: seq<string>, name: string): (r: int)
    ensures -1 <= r < |names|
    ensures r >= 0 ==> names[r] == name && forall m :: 0 <= m < r ==> names[m] != name
    ensures r == -1 <==> forall m :: 0 <= m < |names| ==> names[m] != name
    decreases |names|
  {
    if |names| == 0 then -1
    else if names[0] == name then 0
    else
      var r := First(names[1..], name);
      if r == -1 then -1 else r + 1
  }

  /** Entries added after the first one with a name do not change what the lookup finds. */
  lemma FirstIgnoresLater(names: seq<string>, more: seq<string>, name: string)
    requires First(names, name) >= 0
    ensures First(names + more, name) == First(names, name)
  {
    var r := First(names, name);
    assert (names + more)[r] == name;
    assert forall m :: 0 <= m < |names| ==> (names + more)[m] == names[m];
  }

  /** A name not among the earlier entries is found at the position of its first entry. */
  lemma FirstAfterAbsent(names: seq<string>, name: string, more: seq<string>)
    requires forall m :: 0 <= m < |names| ==> names[m] != name
    ensures First(names + [name] + more, name) == |names|
  {
    var all := names + [name] + more;
    assert all[|names|] == name;
    assert forall m :: 0 <= m < |names| ==> all[m] != name;
  }

  /** The lookup loop: the first of the `count` stored entries whose name equals `name`, or -1. */
  method FindIn<T>(a: array<T>, count: nat, key: T -> string, name: string) returns (i: int)
    requires count <= a.Length
    ensures i == First(Names(a[..count], key), name)
  {
    ghost var names := Names(a[..count], key);
    var j := 0;
    while j < count
      invariant 0 <= j <= count
      invariant forall m :: 0 <= m < j ==> names[m] != name
    {
      if key(a[j]) == name {
        assert names[j] == name;
        return j;
      }
      j := j + 1;
    }
    return -1;
  }

  // ---------------------------------------------------------------
  // The global arrays
  // ---------------------------------------------------------------

  /** `nodes[]`/`num_nodes` and the other four array-and-counter pairs. */
  class Store {
    const nodes: array<NodeEntry>
    const pipes: array<PipeEntry>
    const concats: array<ConcatEntry>
    const captures: array<CaptureEntry>
    const files: array<FileEntry>
    var nodeCount: nat
    var pipeCount: nat
    var concatCount: nat
    var captureCount: nat
    var fileCount: nat

    ghost predicate Valid()
      reads this
    {
      nodes.Length == MaxEntries && pipes.Length == MaxEntries && concats.Length == MaxEntries
      && captures.Length == MaxEntries && files.Length == MaxEntries
      && nodeCount <= MaxEntries && pipeCount <= MaxEntries && concatCount <= MaxEntries
      && captureCount <= MaxEntries && fileCount <= MaxEntries
    }

    /** The entries stored so far. */
    function Contents(): Entries
      requires Valid()
      reads this, nodes, pipes, concats, captures, files
    {
      Entries(nodes[..nodeCount], pipes[..pipeCount], concats[..concatCount],
              captures[..captureCount], files[..fileCount])
    }

    /** The zero-initialised globals. */
    constructor ()
      ensures Valid() && Contents() == NoEntries
      ensures fresh(nodes) && fresh(pipes) && fresh(concats) && fresh(captures) && fresh(files)
    {
      nodes := new NodeEntry[MaxEntries](_ => NodeEntry("", []));
      pipes := new PipeEntry[MaxEntries](_ => PipeEntry("", "", ""));
      concats := new ConcatEntry[MaxEntries](_ => ConcatEntry("", []));
      captures := new CaptureEntry[MaxEntries](_ => CaptureEntry("", ""));
      files := new FileEntry[MaxEntries](_ => FileEntry("", ""));
      nodeCount, pipeCount, concatCount, captureCount, fileCount := 0, 0, 0, 0, 0;
    }

    /** `nodes[num_nodes++] = node;` */
    method AddNode(x: NodeEntry)
      requires Valid() && nodeCount < MaxEntries
      modifies this, nodes
      ensures Valid()
      ensures Contents() == old(Contents()).(nodes := old(Contents()).nodes + [x])
    {
      nodes[nodeCount] := x;
      nodeCount := nodeCount + 1;
      assert nodes[..nodeCount] == old(nodes[..nodeCount]) + [x];
    }

    method AddPipe(x: PipeEntry)
      requires Valid() && pipeCount < MaxEntries
      modifies this, pipes
      ensures Valid()
      ensures Contents() == old(Contents()).(pipes := old(Contents()).pipes + [x])
    {
      pipes[pipeCount] := x;
      pipeCount := pipeCount + 1;
      assert pipes[..pipeCount] == old(pipes[..pipeCount]) + [x];
    }

    method AddConcat(x: ConcatEntry)
      requires Valid() && concatCount < MaxEntries
      modifies this, concats
      ensures Valid()
      ensures Contents() == old(Contents()).(concats := old(Contents()).concats + [x])
    {
      concats[concatCount] := x;
      concatCount := concatCount + 1;
      assert concats[..concatCount] == old(concats[..concatCount]) + [x];
    }

    method AddCapture(x: CaptureEntry)
      requires Valid() && captureCount < MaxEntries
      modifies this, captures
      ensures Valid()
      ensures Contents() == old(Contents()).(captures := old(Contents()).captures + [x])
    {
      captures[captureCount] := x;
      captureCount := captureCount + 1;
      assert captures[..captureCount] == old(captures[..captureCount]) + [x];
    }

    method AddFile(x: FileEntry)
      requires Valid() && fileCount < MaxEntries
      modifies this, files
      ensures Valid()
      ensures Contents() == old(Contents()).(files := old(Contents()).files + [x])
    {
      files[fileCount] := x;
      fileCount := fileCount + 1;
      assert files[..fileCount] == old(files[..fileCount]) + [x];
    }

    // The five `find_*` functions.

    method FindNode(name: string) returns (i: int)
      requires Valid()
      ensures i == First(Names(Contents().nodes, NodeName), name)
    {
      i := FindIn(nodes, nodeCount, NodeName, name);
    }

    method FindPipe(name: string) returns (i: int)
      requires Valid()
      ensures i == First(Names(Contents().pipes, PipeName), name)
    {
      i := FindIn(pipes, pipeCount, PipeName, name);
    }

    method FindConcatenation(name: string) returns (i: int)
      requires Valid()
      ensures i == First(Names(Contents().concats, ConcatName), name)
    {
      i := FindIn(concats, concatCount, ConcatName, name);
    }

    method FindCapture(name: string) returns (i: int)
      requires Valid()
      ensures i == First(Names(Contents().captures, CaptureName), name)
    {
      i := FindIn(captures, captureCount, CaptureName, name);
    }

    method FindFileNode(name: string) returns (i: int)
      requires Valid()
      ensures i == First(Names(Contents().files, FileName), name)
    {
      i := FindIn(files, fileCount, FileName, name);
    }

    /** `execute_action`'s chain of lookups, proved to agree with `Choose`. */
    method Lookup(name: string) returns (r: Option<Action>)
      requires Valid()
      ensures r == Choose(Contents(), name)
    {
      var i := FindNode(name);
      if i >= 0 {
        return Some(NodeAction(nodes[i]));
      }
      i := FindPipe(name);
      if i >= 0 {
        return Some(PipeAction(pipes[i]));
      }
      i := FindConcatenation(name);
      if i >= 0 {
        return Some(ConcatAction(concats[i]));
      }
      i := FindCapture(name);
      if i >= 0 {
        return Some(CaptureAction(captures[i]));
      }
      i := FindFileNode(name);
      if i >= 0 {
        return Some(FileAction(files[i]));
      }
      return None;
    }

    // ---------------------------------------------------------------
    // The reader
    // ---------------------------------------------------------------

    method ReadNode(lines: seq<string>, i: nat) returns (t: Turn)
      requires Valid() && i < |lines| && StartsWith(lines[i], "node=")
      modifies this, nodes
      ensures Valid()
      ensures t == NodeLines(lines[i..], old(Contents()))
      ensures t.Read? ==> Contents() == t.entries
    {
      var name := lines[i][5..];
      if i + 1 == |lines| || !StartsWith(lines[i + 1], "command=") {
        return Fatal(MissingCommand);
      }
      if nodeCount == MaxEntries {
        return Fatal(TableFull);
      }
      var argv := Strtok.TokenizeCommand(lines[i + 1][8..]);
      AddNode(NodeEntry(name, argv));
      return Read(2, Contents());
    }

    method ReadPipe(lines: seq<string>, i: nat) returns (t: Turn)
      requires Valid() && i < |lines| && StartsWith(lines[i], "pipe=")
      modifies this, pipes
      ensures Valid()
      ensures t == PipeLines(lines[i..], old(Contents()))
      ensures t.Read? ==> Contents() == t.entries
    {
      var name := lines[i][5..];
      if i + 1 == |lines| || !StartsWith(lines[i + 1], "from=") {
        return Fatal(MissingFrom);
      }
      if i + 2 == |lines| || !StartsWith(lines[i + 2], "to=") {
        return Fatal(MissingTo);
      }
      if pipeCount == MaxEntries {
        return Fatal(TableFull);
      }
      AddPipe(PipeEntry(name, lines[i + 1][5..], lines[i + 2][3..]));
      return Read(3, Contents());
    }

    method ReadConcat(lines: seq<string>, i: nat) returns (t: Turn)
      requires Valid() && i < |lines| && StartsWith(lines[i], "concatenate=")
      modifies this, concats
      ensures Valid()
      ensures t == ConcatLines(lines[i..], old(Contents()))
      ensures t.Read? ==> Contents() == t.entries
    {
      var name := lines[i][12..];
      if i + 1 == |lines| || !StartsWith(lines[i + 1], "parts=") {
        return Fatal(MissingParts);
      }
      var count := LeadingIntOrZero(lines[i + 1][6..]);
      assert lines[i..][2..] == lines[i + 2..];
      var parts := ReadPartLines(lines, i + 2, count);
      if parts.Err? {
        return Fatal(parts.error);
      }
      if concatCount == MaxEntries {
        return Fatal(TableFull);
      }
      AddConcat(ConcatEntry(name, parts.value));
      return Read(2 + |parts.value|, Contents());
    }

    method ReadCapture(lines: seq<string>, i: nat) returns (t: Turn)
      requires Valid() && i < |lines| && StartsWith(lines[i], "stderr")
      modifies this, captures
      ensures Valid()
      ensures t == CaptureLines(lines[i..], old(Contents()))
      ensures t.Read? ==> Contents() == t.entries
    {
      var name := CaptureHeaderName(lines[i]);
      if i + 1 == |lines| || !StartsWith(lines[i + 1], "from=") {
        return Fatal(MissingCaptureSource);
      }
      if captureCount == MaxEntries {
        return Fatal(TableFull);
      }
      AddCapture(CaptureEntry(name, lines[i + 1][5..]));
      return Read(2, Contents());
    }

    method ReadFile(lines: seq<string>, i: nat) returns (t: Turn)
      requires Valid() && i < |lines| && StartsWith(lines[i], "file=")
      modifies this, files
      ensures Valid()
      ensures t == FileNodeLines(lines[i..], old(Contents()))
      ensures t.Read? ==> Contents() == t.entries
    {
      var name := lines[i][5..];
      if i + 1 == |lines| || !StartsWith(lines[i + 1], "name=") {
        return Fatal(MissingFileName);
      }
      if fileCount == MaxEntries {
        return Fatal(TableFull);
      }
      AddFile(FileEntry(name, lines[i + 1][5..]));
      return Read(2, Contents());
    }

    /** One turn of the line loop, which runs while lines are left. */
    method ReadRecord(lines: seq<string>, i: nat) returns (t: Turn)
      requires Valid() && i < |lines|
      modifies this, nodes, pipes, concats, captures, files
      ensures Valid()
      ensures t.Read? ==> 1 <= t.taken <= |lines| - i
      ensures t.Fatal? ==> ParseFrom(lines[i..], old(Contents())) == Err(t.error)
      ensures t.Read? ==> ParseFrom(lines[i..], old(Contents())) == ParseFrom(lines[i + t.taken..], Contents())
    {
      var line := lines[i];
      assert lines[i..][0] == line;
      if StartsWith(line, "node=") {
        t := ReadNode(lines, i);
      } else if StartsWith(line, "pipe=") {
        t := ReadPipe(lines, i);
      } else if StartsWith(line, "concatenate=") {
        t := ReadConcat(lines, i);
      } else if StartsWith(line, "stderr") {
        t := ReadCapture(lines, i);
      } else if StartsWith(line, "file=") {
        t := ReadFile(lines, i);
      } else {
        t := Read(1, Contents());
      }
      if t.Read? {
        assert lines[i..][t.taken..] == lines[i + t.taken..];
      }
    }

    /** The line loop of `parse_flow_file`, proved to compute `ParseFrom`. */
    method ParseLines(lines: seq<string>) returns (err: Option<ParseError>)
      requires Valid()
      modifies this, nodes, pipes, concats, captures, files
      ensures Valid()
      ensures Outcome(err, Contents()) == ParseFrom(lines, old(Contents()))
    {
      var i := 0;
      assert lines[i..] == lines;
      while i < |lines|
        invariant 0 <= i <= |lines| && Valid()
        invariant ParseFrom(lines[i..], Contents()) == ParseFrom(lines, old(Contents()))
        decreases |lines| - i
      {
        var t := ReadRecord(lines, i);
        if t.Fatal? {
          return Some(t.error);
        }
        i := i + t.taken;
      }
      assert lines[i..] == [];
      return None;
    }

    /** `parse_flow_file`: one `read` into the buffer, then the line loop over its newline-separated lines. */
    method ParseFlowFile(file: string) returns (err: Option<ParseError>)
      requires Valid()
      modifies this, nodes, pipes, concats, captures, files
      ensures Valid()
      ensures Outcome(err, Contents()) == ParseFrom(FileLines(file), old(Contents()))
    {
      var buffer := Buffer(file);
      var lines := Strtok.Split(buffer, '\n');
      err := ParseLines(lines);
    }
  }

  /** `main` after the argument check: parse, then plan `execute_action(argv[2], STDOUT_FILENO, 0)`. */
  method RunFlowFile(file: string, action: string, fuel: nat) returns (r: Result<Plan, ParseError>)
    ensures r == Run(file, action, fuel)
  {
    var store := new Store();
    var err := store.ParseFlowFile(file);
    if err.Some? {
      return Err(err.value);
    }
    return Ok(Act(store.Contents(), action, Terminal, false, 0, fuel));
  }

  // ---------------------------------------------------------------
  // The reader, as functions
  // ---------------------------------------------------------------

  /** The fatal errors of `parse_flow_file`, and the overflow of a fixed array. */
  datatype ParseError =
    | MissingCommand
    | MissingFrom
    | MissingTo
    | MissingParts
    | MissingPart
    | InvalidPart
    | MissingCaptureSource
    | MissingFileName
    | TableFull
    | TooManyParts

  /** A fatal error, or the number of lines one record took and the entries after it. */
  datatype Turn = Fatal(error: ParseError) | Read(taken: nat, entries: Entries)

  predicate TakesLines(t: Turn, ls: seq<string>)
  {
    t.Read? ==> 1 <= t.taken <= |ls|
  }

  function Outcome(err: Option<ParseError>, e: Entries): Result<Entries, ParseError>
  {
    if err.Some? then Err(err.value) else Ok(e)
  }

  /** What one `read(fd, buffer, sizeof(buffer) - 1)` of the file leaves in the buffer. */
  function Buffer(file: string): (r: string)
    ensures |r| <= BufferSize - 1 && |r| <= |file| && r == file[..|r|]
    ensures |file| < BufferSize ==> r == file
  {
    if |file| < BufferSize then file else file[..BufferSize - 1]
  }

  /** The lines the newline `strtok` scan hands out: empty lines never appear. */
  function FileLines(file: string): seq<string>
  {
    Strtok.Fields(Buffer(file), '\n')
  }

  /** The name of a `stderr` record: the text after `stderr=`, or empty when no `=` follows `stderr`. */
  function CaptureHeaderName(line: string): string
    requires StartsWith(line, "stderr")
  {
    if |line| > 6 && line[6] == '=' then line[7..] else ""
  }

  /**
   * Part lines `i` up to `count` of a concatenation: each must hold a `=` and
   * gives the text after the first one.  A part past `MAX_PARTS` would be
   * written outside `concat.parts`.
   */
  function ReadParts(ls: seq<string>, i: nat, count: int, acc: seq<string>): (r: Result<seq<string>, ParseError>)
    ensures r.Ok? ==> |r.value| == |acc| + (if i < count then count - i else 0)
    ensures r.Ok? && i < count ==> count - i <= |ls|
    decreases if i < count then count - i else 0
  {
    if i >= count then Ok(acc)
    else if |ls| == 0 then Err(MissingPart)
    else if Find(ls[0], '=').None? then Err(InvalidPart)
    else if i >= MaxParts then Err(TooManyParts)
    else ReadParts(ls[1..], i + 1, count, acc + [After(ls[0], '=')])
  }

  /** `node=NAME`, then a `command=` line cut into at most 19 arguments. */
  function NodeLines(ls: seq<string>, e: Entries): (t: Turn)
    requires |ls| > 0 && StartsWith(ls[0], "node=")
    ensures TakesLines(t, ls)
  {
    if |ls| < 2 || !StartsWith(ls[1], "command=") then Fatal(MissingCommand)
    else if |e.nodes| >= MaxEntries then Fatal(TableFull)
    else Read(2, e.(nodes := e.nodes + [NodeEntry(ls[0][5..], Strtok.CappedArgs(ls[1][8..]))]))
  }

  /** `pipe=NAME`, then `from=` and `to=` lines. */
  function PipeLines(ls: seq<string>, e: Entries): (t: Turn)
    requires |ls| > 0 && StartsWith(ls[0], "pipe=")
    ensures TakesLines(t, ls)
  {
    if |ls| < 2 || !StartsWith(ls[1], "from=") then Fatal(MissingFrom)
    else if |ls| < 3 || !StartsWith(ls[2], "to=") then Fatal(MissingTo)
    else if |e.pipes| >= MaxEntries then Fatal(TableFull)
    else Read(3, e.(pipes := e.pipes + [PipeEntry(ls[0][5..], ls[1][5..], ls[2][3..])]))
  }

  /** `concatenate=NAME`, then `parts=N` read by `atoi`, then N part lines. */
  function ConcatLines(ls: seq<string>, e: Entries): (t: Turn)
    requires |ls| > 0 && StartsWith(ls[0], "concatenate=")
    ensures TakesLines(t, ls)
  {
    if |ls| < 2 || !StartsWith(ls[1], "parts=") then Fatal(MissingParts)
    else
      match ReadParts(ls[2..], 0, LeadingIntOrZero(ls[1][6..]), [])
      case Err(x) => Fatal(x)
      case Ok(ps) =>
        if |e.concats| >= MaxEntries then Fatal(TableFull)
        else Read(2 + |ps|, e.(concats := e.concats + [ConcatEntry(ls[0][12..], ps)]))
  }

  /** A line starting `stderr`, then a `from=` line. */
  function CaptureLines(ls: seq<string>, e: Entries): (t: Turn)
    requires |ls| > 0 && StartsWith(ls[0], "stderr")
    ensures TakesLines(t, ls)
  {
    if |ls| < 2 || !StartsWith(ls[1], "from=") then Fatal(MissingCaptureSource)
    else if |e.captures| >= MaxEntries then Fatal(TableFull)
    else Read(2, e.(captures := e.captures + [CaptureEntry(CaptureHeaderName(ls[0]), ls[1][5..])]))
  }

  /** `file=NAME`, then a `name=` line. */
  function FileNodeLines(ls: seq<string>, e: Entries): (t: Turn)
    requires |ls| > 0 && StartsWith(ls[0], "file=")
    ensures TakesLines(t, ls)
  {
    if |ls| < 2 || !StartsWith(ls[1], "name=") then Fatal(MissingFileName)
    else if |e.files| >= MaxEntries then Fatal(TableFull)
    else Read(2, e.(files := e.files + [FileEntry(ls[0][5..], ls[1][5..])]))
  }

  /** One turn of the line loop, chosen by `strncmp` on the line's head; other lines are skipped. */
  function Record(ls: seq<string>, e: Entries): (t: Turn)
    requires |ls| > 0
    ensures TakesLines(t, ls)
  {
    var line := ls[0];
    if StartsWith(line, "node=") then NodeLines(ls, e)
    else if StartsWith(line, "pipe=") then PipeLines(ls, e)
    else if StartsWith(line, "concatenate=") then ConcatLines(ls, e)
    else if StartsWith(line, "stderr") then CaptureLines(ls, e)
    else if StartsWith(line, "file=") then FileNodeLines(ls, e)
    else Read(1, e)
  }

  function ParseFrom(ls: seq<string>, e: Entries): Result<Entries, ParseError>
    decreases |ls|
  {
    if |ls| == 0 then Ok(e)
    else
      match Record(ls, e)
      case Fatal(x) => Err(x)
      case Read(k, e') => ParseFrom(ls[k..], e')
  }

  // The part loop, as `parse_flow_file` runs it.
  method ReadPartLines(lines: seq<string>, start: nat, count: int) returns (r: Result<seq<string>, ParseError>)
    requires start <= |lines|
    ensures r == ReadParts(lines[start..], 0, count, [])
  {
    var parts: seq<string> := [];
    var i: nat := 0;
    while i < count
      invariant start + i <= |lines|
      invariant ReadParts(lines[start + i..], i, count, parts) == ReadParts(lines[start..], 0, count, [])
      decreases count - i
    {
      if start + i == |lines| {
        return Err(MissingPart);
      }
      var line := lines[start + i];
      var eq := Find(line, '=');
      if eq.None? {
        return Err(InvalidPart);
      }
      if i >= MaxParts {
        return Err(TooManyParts);
      }
      assert lines[start + i..][1..] == lines[start + i + 1..];
      parts := parts + [line[eq.value + 1..]];
      i := i + 1;
    }
    return Ok(parts);
  }

  // ---------------------------------------------------------------
  // execute_action, as a plan
  // ---------------------------------------------------------------

  /** What `execute_action` found for a name. */
  datatype Action =
    | NodeAction(node: NodeEntry)
    | PipeAction(pipe: PipeEntry)
    | ConcatAction(concat: ConcatEntry)
    | CaptureAction(capture: CaptureEntry)
    | FileAction(file: FileEntry)

  function KindOf(a: Action): F.Kind
  {
    match a
    case NodeAction(_) => F.NodeKind
    case PipeAction(_) => F.PipeKind
    case ConcatAction(_) => F.ConcatKind
    case CaptureAction(_) => F.CaptureKind
    case FileAction(_) => F.FileKind
  }

  function ActionName(a: Action): string
  {
    match a
    case NodeAction(x) => x.name
    case PipeAction(x) => x.name
    case ConcatAction(x) => x.name
    case CaptureAction(x) => x.name
    case FileAction(x) => x.name
  }

  /** Whether some entry of kind `k` carries `name`. */
  predicate Knows(e: Entries, k: F.Kind, name: string)
  {
    match k
    case NodeKind => name in Names(e.nodes, NodeName)
    case PipeKind => name in Names(e.pipes, PipeName)
    case ConcatKind => name in Names(e.concats, ConcatName)
    case CaptureKind => name in Names(e.captures, CaptureName)
    case FileKind => name in Names(e.files, FileName)
  }

  /** The position of a kind in the order `execute_action` tries them. */
  function Rank(k: F.Kind): nat
  {
    match k
    case NodeKind => 0
    case PipeKind => 1
    case ConcatKind => 2
    case CaptureKind => 3
    case FileKind => 4
  }

  /**
   * `find_node`, then `find_pipe`, `find_concatenation`, `find_stderr_capture`
   * and `find_file_node`: the first entry with the name, of the first kind
   * that has one.
   */
  function Choose(e: Entries, name: string): (r: Option<Action>)
    ensures r.None? <==> forall k: F.Kind :: !Knows(e, k, name)
    ensures r.Some? ==> ActionName(r.value) == name && Knows(e, KindOf(r.value), name)
    ensures r.Some? ==> forall k: F.Kind :: Rank(k) < Rank(KindOf(r.value)) ==> !Knows(e, k, name)
  {
    var n := First(Names(e.nodes, NodeName), name);
    if n >= 0 then assert Knows(e, F.NodeKind, name); Some(NodeAction(e.nodes[n]))
    else
      var p := First(Names(e.pipes, PipeName), name);
      if p >= 0 then assert Knows(e, F.PipeKind, name); Some(PipeAction(e.pipes[p]))
      else
        var c := First(Names(e.concats, ConcatName), name);
        if c >= 0 then assert Knows(e, F.ConcatKind, name); Some(ConcatAction(e.concats[c]))
        else
          var s := First(Names(e.captures, CaptureName), name);
          if s >= 0 then assert Knows(e, F.CaptureKind, name); Some(CaptureAction(e.captures[s]))
          else
            var f := First(Names(e.files, FileName), name);
            if f >= 0 then assert Knows(e, F.FileKind, name); Some(FileAction(e.files[f])) else None
  }


  /**
   * `execute_node(node, STDIN_FILENO, output_fd, redirect)`: the child's input
   * and output are the current ones; with `redirect` set its standard error
   * joins its output, and the parent keeps quiet about its exit code.
   */
  function NodeLaunch(argv: seq<string>, s: Streams, redirect: bool): (l: Launch)
    ensures l.input == s.input && l.output == s.output && l.quiet == redirect
    ensures l.errors == (if redirect then s.output else s.errors)
  {
    Launch(argv, s.input, s.output, if redirect then s.output else s.errors, redirect)
  }

  /**
   * `execute_action(name, output_fd, suppress)` in a process whose streams are
   * `s`, `k` pipes having been created before.  Pipe ends and the capture run
   * in forked children, so an unknown name there ends only the child;
   * concatenation parts run in the same process, so it ends the rest of them.
   * The source has no cycle check: `fuel` bounds the nesting.
   */
  function Act(e: Entries, name: string, s: Streams, suppress: bool, k: nat, fuel: nat): (p: Plan)
    ensures p.pipes >= k
    decreases fuel, 0
  {
    if fuel == 0 then Plan([], k, Some(OutOfFuel))
    else
      match Choose(e, name)
      case None => Plan([], k, Some(UnknownAction(name)))
      case Some(NodeAction(x)) => Plan([NodeLaunch(x.argv, s, suppress)], k, None)
      case Some(PipeAction(x)) =>
        var from := Act(e, x.from, s.(output := PipeWrite(k)), suppress, k + 1, fuel - 1);
        var to := Act(e, x.to, s.(input := PipeRead(k)), suppress, from.pipes, fuel - 1);
        Plan(from.launches + to.launches, to.pipes, ContainedBoth(from.fault, to.fault))
      case Some(ConcatAction(x)) => Parts(e, x.parts, s, suppress, k, fuel - 1)
      case Some(CaptureAction(x)) =>
        var inner := Act(e, x.from, Streams(s.input, PipeWrite(k), PipeWrite(k)), true, k + 1, fuel - 1);
        Plan(inner.launches + [NodeLaunch(CatArgv, s.(input := PipeRead(k)), false)], inner.pipes, Contained(inner.fault))
      case Some(FileAction(x)) => Plan([NodeLaunch(CatArgv, s.(input := FileRead(x.filename)), false)], k, None)
  }

  /** `execute_concatenation`: the parts in order, with the same streams and flag. */
  function Parts(e: Entries, ps: seq<string>, s: Streams, suppress: bool, k: nat, fuel: nat): (p: Plan)
    ensures p.pipes >= k
    decreases fuel, 1, |ps|
  {
    if |ps| == 0 then Plan([], k, None)
    else
      var first := Act(e, ps[0], s, suppress, k, fuel);
      if first.fault.Some? then first
      else
        var rest := Parts(e, ps[1..], s, suppress, first.pipes, fuel);
        Plan(first.launches + rest.launches, rest.pipes, rest.fault)
  }

  /** The whole program: a parse error, or the plan of the action named on the command line. */
  function Run(file: string, action: string, fuel: nat): Result<Plan, ParseError>
  {
    match ParseFrom(FileLines(file), NoEntries)
    case Err(x) => Err(x)
    case Ok(e) => Ok(Act(e, action, Terminal, false, 0, fuel))
  }

  // ---------------------------------------------------------------
  // Printed records read back
  // ---------------------------------------------------------------

  /** The arrays after storing one record as `parse_flow_file` does: appended, never replaced. */
  function Add(e: Entries, r: F.Record): Entries
  {
    match r
    case NodeRec(n, a) => e.(nodes := e.nodes + [NodeEntry(n, a)])
    case PipeRec(n, f, to) => e.(pipes := e.pipes + [PipeEntry(n, f, to)])
    case ConcatRec(n, ps) => e.(concats := e.concats + [ConcatEntry(n, ps)])
    case CaptureRec(n, f) => e.(captures := e.captures + [CaptureEntry(n, f)])
    case FileRec(n, path) => e.(files := e.files + [FileEntry(n, path)])
    case Blank => e
    case Other(_) => e
  }

  function Collect(e: Entries, rs: seq<F.Record>): Entries
    decreases |rs|
  {
    if |rs| == 0 then e else Collect(Add(e, rs[0]), rs[1..])
  }

  /** No array is filled past its 100 entries. */
  predicate Fits(e: Entries)
  {
    |e.nodes| <= MaxEntries && |e.pipes| <= MaxEntries && |e.concats| <= MaxEntries
    && |e.captures| <= MaxEntries && |e.files| <= MaxEntries
  }

  /** A record whose printed lines this reader takes back: at most 19 space-free words, at most 10 parts. */
  predicate Readable(r: F.Record)
  {
    match r
    case NodeRec(_, a) => |a| <= Strtok.MaxArgs && Strtok.AllFields(a, ' ')
    case ConcatRec(_, ps) => |ps| <= MaxParts
    case Other(text) => F.Free(text)
    case _ => true
  }

  predicate AllReadable(rs: seq<F.Record>)
  {
    forall j :: 0 <= j < |rs| ==> Readable(rs[j])
  }

  lemma {:induction false} CollectGrows(e: Entries, rs: seq<F.Record>)
    ensures |Collect(e, rs).nodes| >= |e.nodes| && |Collect(e, rs).pipes| >= |e.pipes|
    ensures |Collect(e, rs).concats| >= |e.concats| && |Collect(e, rs).captures| >= |e.captures|
    ensures |Collect(e, rs).files| >= |e.files|
    decreases |rs|
  {
    if |rs| > 0 {
      CollectGrows(Add(e, rs[0]), rs[1..]);
    }
  }

  lemma ReadNodeBack(n: string, a: seq<string>, rest: seq<string>, e: Entries)
    requires |a| <= Strtok.MaxArgs && Strtok.AllFields(a, ' ') && |e.nodes| < MaxEntries
    ensures ParseFrom(F.Print(F.NodeRec(n, a)) + rest, e) == ParseFrom(rest, Add(e, F.NodeRec(n, a)))
  {
    var ls := F.Print(F.NodeRec(n, a)) + rest;
    assert ls[0] == "node=" + n && ls[1] == "command=" + Join(a, " ");
    StartsWithConcat("node=", n);
    StartsWithConcat("command=", Join(a, " "));
    assert " " == [' '];
    Strtok.JoinRoundTrip(a, ' ');
    assert ls[2..] == rest;
  }

  lemma ReadPipeBack(n: string, f: string, to: string, rest: seq<string>, e: Entries)
    requires |e.pipes| < MaxEntries
    ensures ParseFrom(F.Print(F.PipeRec(n, f, to)) + rest, e) == ParseFrom(rest, Add(e, F.PipeRec(n, f, to)))
  {
    var ls := F.Print(F.PipeRec(n, f, to)) + rest;
    assert ls[0] == "pipe=" + n && ls[1] == "from=" + f && ls[2] == "to=" + to;
    StartsWithConcat("pipe=", n);
    StartsWithConcat("from=", f);
    StartsWithConcat("to=", to);
    NotStartsWith(ls[0], "node=", 0);
    assert ls[3..] == rest;
  }

  lemma ReadOnePart(p: string, i: nat, count: int, tail: seq<string>, acc: seq<string>)
    requires i < count && i < MaxParts
    ensures ReadParts([F.PartPrefix(i) + p] + tail, i, count, acc) == ReadParts(tail, i + 1, count, acc + [p])
  {
    var ls := [F.PartPrefix(i) + p] + tail;
    assert ls[0] == F.PartPrefix(i) + p;
    F.PartValue(i, p);
    assert |F.PartPrefix(i)| > 0;
    assert ls[1..] == tail;
  }

  lemma {:induction false} ReadPrintedParts(ps: seq<string>, i: nat, count: int, rest: seq<string>, acc: seq<string>)
    requires count == i + |ps| && count <= MaxParts
    ensures ReadParts(F.PartLines(ps, i) + rest, i, count, acc) == Ok(acc + ps)
    decreases |ps|
  {
    if |ps| == 0 {
      assert acc + ps == acc;
    } else {
      var tail := F.PartLines(ps[1..], i + 1) + rest;
      PartLinesCons(ps, i, rest);
      ReadOnePart(ps[0], i, count, tail, acc);
      ReadPrintedParts(ps[1..], i + 1, count, rest, acc + [ps[0]]);
      HeadThenTail(acc, ps);
    }
  }

  lemma PartLinesCons(ps: seq<string>, i: nat, rest: seq<string>)
    requires |ps| > 0
    ensures F.PartLines(ps, i) + rest == [F.PartPrefix(i) + ps[0]] + (F.PartLines(ps[1..], i + 1) + rest)
  {
  }

  lemma HeadThenTail(acc: seq<string>, ps: seq<string>)
    requires |ps| > 0
    ensures acc + [ps[0]] + ps[1..] == acc + ps
  {
    assert [ps[0]] + ps[1..] == ps;
  }

  lemma ReadConcatBack(n: string, ps: seq<string>, rest: seq<string>, e: Entries)
    requires |ps| <= MaxParts && |e.concats| < MaxEntries
    ensures ParseFrom(F.Print(F.ConcatRec(n, ps)) + rest, e) == ParseFrom(rest, Add(e, F.ConcatRec(n, ps)))
  {
    var ls := F.Print(F.ConcatRec(n, ps)) + rest;
    ConcatRecordBack(n, ps, rest, e, ls);
    assert ls[2 + |ps|..] == rest;
  }

  /** The printed concatenation is read as one record that takes its header, count and part lines. */
  lemma ConcatRecordBack(n: string, ps: seq<string>, rest: seq<string>, e: Entries, ls: seq<string>)
    requires |ps| <= MaxParts && |e.concats| < MaxEntries
    requires ls == F.Print(F.ConcatRec(n, ps)) + rest
    ensures |ls| >= 2 + |ps|
    ensures Record(ls, e) == Read(2 + |ps|, Add(e, F.ConcatRec(n, ps)))
  {
    var header := "concatenate=" + n;
    assert ls[0] == header;
    NotStartsWith(header, "node=", 0);
    NotStartsWith(header, "pipe=", 0);
    ConcatLinesBack(n, ps, rest, e, ls);
  }

  lemma ConcatLinesBack(n: string, ps: seq<string>, rest: seq<string>, e: Entries, ls: seq<string>)
    requires |ps| <= MaxParts && |e.concats| < MaxEntries
    requires ls == F.Print(F.ConcatRec(n, ps)) + rest
    ensures |ls| >= 2 + |ps| && StartsWith(ls[0], "concatenate=")
    ensures ConcatLines(ls, e) == Read(2 + |ps|, Add(e, F.ConcatRec(n, ps)))
  {
    F.ConcatLayout(n, ps, rest, ls);
    ConcatLinesOf(n, ps, rest, e, ls);
  }

  lemma ConcatLinesOf(n: string, ps: seq<string>, rest: seq<string>, e: Entries, ls: seq<string>)
    requires |ps| <= MaxParts && |e.concats| < MaxEntries
    requires |ls| >= 2 && ls[0] == "concatenate=" + n && ls[1] == "parts=" + NatToString(|ps|)
    requires ls[2..] == F.PartLines(ps, 0) + rest
    ensures |ls| >= 2 + |ps| && StartsWith(ls[0], "concatenate=")
    ensures ConcatLines(ls, e) == Read(2 + |ps|, Add(e, F.ConcatRec(n, ps)))
  {
    StartsWithConcat("concatenate=", n);
    CountLineValue(|ps|, ls[1]);
    PrintedPartsRead(ps, rest, ls[2..]);
    AddConcat(e, n, ps, ls[0][12..]);
  }

  lemma CountLineValue(k: nat, line: string)
    requires line == "parts=" + NatToString(k)
    ensures StartsWith(line, "parts=") && LeadingIntOrZero(line[6..]) == k
  {
    StartsWithConcat("parts=", NatToString(k));
    ReadsBackDecimal(k);
  }

  lemma PrintedPartsRead(ps: seq<string>, rest: seq<string>, ls: seq<string>)
    requires |ps| <= MaxParts && ls == F.PartLines(ps, 0) + rest
    ensures ReadParts(ls, 0, |ps|, []) == Ok(ps)
  {
    ReadPrintedParts(ps, 0, |ps|, rest, []);
    assert [] + ps == ps;
  }

  lemma AddConcat(e: Entries, n: string, ps: seq<string>, name: string)
    requires name == n
    ensures e.(concats := e.concats + [ConcatEntry(name, ps)]) == Add(e, F.ConcatRec(n, ps))
  {
  }

  lemma ReadCaptureBack(n: string, f: string, rest: seq<string>, e: Entries)
    requires |e.captures| < MaxEntries
    ensures ParseFrom(F.Print(F.CaptureRec(n, f)) + rest, e) == ParseFrom(rest, Add(e, F.CaptureRec(n, f)))
  {
    var ls := F.Print(F.CaptureRec(n, f)) + rest;
    var header := "stderr=" + n;
    assert ls[0] == header && ls[1] == "from=" + f;
    NotStartsWith(header, "node=", 0);
    NotStartsWith(header, "pipe=", 0);
    NotStartsWith(header, "concatenate=", 0);
    assert header == "stderr" + ("=" + n);
    StartsWithConcat("stderr", "=" + n);
    assert header[6] == '=' && header[7..] == n;
    StartsWithConcat("from=", f);
    assert ls[2..] == rest;
  }

  lemma ReadFileBack(n: string, path: string, rest: seq<string>, e: Entries)
    requires |e.files| < MaxEntries
    ensures ParseFrom(F.Print(F.FileRec(n, path)) + rest, e) == ParseFrom(rest, Add(e, F.FileRec(n, path)))
  {
    var ls := F.Print(F.FileRec(n, path)) + rest;
    var header := "file=" + n;
    assert ls[0] == header && ls[1] == "name=" + path;
    NotStartsWith(header, "node=", 0);
    NotStartsWith(header, "pipe=", 0);
    NotStartsWith(header, "concatenate=", 0);
    NotStartsWith(header, "stderr", 0);
    StartsWithConcat("file=", n);
    StartsWithConcat("name=", path);
    assert ls[2..] == rest;
  }

  lemma ReadFreeBack(text: string, rest: seq<string>, e: Entries)
    requires F.Free(text)
    ensures ParseFrom([text] + rest, e) == ParseFrom(rest, e)
  {
    assert "node" + "=" == "node=" && "pipe" + "=" == "pipe=" && "concatenate" + "=" == "concatenate=";
    NotStartsWithLonger(text, "node", "=");
    NotStartsWithLonger(text, "pipe", "=");
    NotStartsWithLonger(text, "concatenate", "=");
    assert ([text] + rest)[1..] == rest;
  }

  lemma ReadRecordBack(r: F.Record, rest: seq<string>, e: Entries)
    requires Readable(r) && Fits(Add(e, r))
    ensures ParseFrom(F.Print(r) + rest, e) == ParseFrom(rest, Add(e, r))
  {
    match r
    case NodeRec(n, a) => ReadNodeBack(n, a, rest, e);
    case PipeRec(n, f, to) => ReadPipeBack(n, f, to, rest, e);
    case ConcatRec(n, ps) => ReadConcatBack(n, ps, rest, e);
    case CaptureRec(n, f) => ReadCaptureBack(n, f, rest, e);
    case FileRec(n, path) => ReadFileBack(n, path, rest, e);
    case Blank => assert (F.Print(r) + rest)[1..] == rest;
    case Other(text) => ReadFreeBack(text, rest, e);
  }

  lemma {:induction false} ReadLinesBack(rs: seq<F.Record>, rest: seq<string>, e: Entries)
    requires AllReadable(rs) && Fits(Collect(e, rs))
    ensures ParseFrom(F.Lines(rs) + rest, e) == ParseFrom(rest, Collect(e, rs))
    decreases |rs|
  {
    if |rs| == 0 {
      assert F.Lines(rs) + rest == rest;
    } else {
      assert F.Lines(rs) + rest == F.Print(rs[0]) + (F.Lines(rs[1..]) + rest);
      assert Readable(rs[0]);
      CollectGrows(Add(e, rs[0]), rs[1..]);
      ReadRecordBack(rs[0], F.Lines(rs[1..]) + rest, e);
      ReadLinesBack(rs[1..], rest, Add(e, rs[0]));
    }
  }

  /**
   * Printing records that fit the arrays and reading the lines back stores
   * every record, in file order.
   */
  lemma RoundTrip(rs: seq<F.Record>)
    requires AllReadable(rs) && Fits(Collect(NoEntries, rs))
    ensures ParseFrom(F.Lines(rs), NoEntries) == Ok(Collect(NoEntries, rs))
  {
    ReadLinesBack(rs, [], NoEntries);
    assert F.Lines(rs) + [] == F.Lines(rs);
  }

  /** The same through the file: lines joined by newlines, within the one `read`, are cut back apart. */
  lemma FileRoundTrip(rs: seq<F.Record>)
    requires AllReadable(rs) && Fits(Collect(NoEntries, rs))
    requires Strtok.AllFields(F.Lines(rs), '\n') && |Join(F.Lines(rs), "\n")| < BufferSize
    ensures ParseFrom(FileLines(Join(F.Lines(rs), "\n")), NoEntries) == Ok(Collect(NoEntries, rs))
  {
    assert "\n" == ['\n'];
    Strtok.JoinRoundTrip(F.Lines(rs), '\n');
    RoundTrip(rs);
  }

  // ---------------------------------------------------------------
  // What the reader and the lookup promise
  // ---------------------------------------------------------------

  lemma {:induction false} CollectAppend(e: Entries, xs: seq<F.Record>, ys: seq<F.Record>)
    ensures Collect(e, xs + ys) == Collect(Collect(e, xs), ys)
    decreases |xs|
  {
    if |xs| == 0 {
      assert xs + ys == ys;
    } else {
      assert (xs + ys)[1..] == xs[1..] + ys;
      CollectAppend(Add(e, xs[0]), xs[1..], ys);
    }
  }

  /** Storing more records keeps the nodes stored so far at the front. */
  lemma {:induction false} CollectKeepsNodes(e: Entries, rs: seq<F.Record>)
    ensures |Collect(e, rs).nodes| >= |e.nodes| && Collect(e, rs).nodes[..|e.nodes|] == e.nodes
    decreases |rs|
  {
    if |rs| == 0 {
      assert e.nodes[..|e.nodes|] == e.nodes;
    } else {
      CollectKeepsNodes(Add(e, rs[0]), rs[1..]);
      assert Add(e, rs[0]).nodes[..|e.nodes|] == e.nodes;
    }
  }

  predicate NoNodeNamed(rs: seq<F.Record>, n: string)
  {
    forall j :: 0 <= j < |rs| ==> !(rs[j].NodeRec? && rs[j].name == n)
  }

  lemma {:induction false} CollectWithoutName(e: Entries, rs: seq<F.Record>, n: string)
    requires forall m :: 0 <= m < |e.nodes| ==> e.nodes[m].name != n
    requires NoNodeNamed(rs, n)
    ensures forall m :: 0 <= m < |Collect(e, rs).nodes| ==> Collect(e, rs).nodes[m].name != n
    decreases |rs|
  {
    if |rs| > 0 {
      assert !(rs[0].NodeRec? && rs[0].name == n);
      CollectWithoutName(Add(e, rs[0]), rs[1..], n);
    }
  }

  /**
   * The first node record with a name is the one `execute_action` runs:
   * later records with the same name are stored too but never found.
   */
  lemma FirstNodeWins(rs: seq<F.Record>, n: string, a: seq<string>, later: seq<F.Record>)
    requires NoNodeNamed(rs, n)
    ensures Choose(Collect(NoEntries, rs + [F.NodeRec(n, a)] + later), n) == Some(NodeAction(NodeEntry(n, a)))
  {
    var before := Collect(NoEntries, rs);
    var here := Add(before, F.NodeRec(n, a));
    CollectAppend(NoEntries, rs, [F.NodeRec(n, a)]);
    assert Collect(before, [F.NodeRec(n, a)]) == here;
    CollectAppend(NoEntries, rs + [F.NodeRec(n, a)], later);
    var all := Collect(here, later);
    CollectWithoutName(NoEntries, rs, n);
    CollectKeepsNodes(here, later);
    assert all.nodes[..|here.nodes|] == here.nodes;
    var names := Names(all.nodes, NodeName);
    var j := |before.nodes|;
    assert all.nodes[j] == here.nodes[j] == NodeEntry(n, a);
    assert names[j] == n;
    assert forall m :: 0 <= m < j ==> all.nodes[m] == before.nodes[m];
    assert First(names, n) == j;
  }

  /**
   * A `stderr` record's name is what follows `stderr=`; with anything but `=`
   * after `stderr` the name is empty.
   */
  lemma CaptureHeaderNames(x: string, f: string, e: Entries)
    requires |e.captures| < MaxEntries
    ensures ParseFrom(["stderr" + x, "from=" + f], e)
         == Ok(e.(captures := e.captures + [CaptureEntry(if |x| > 0 && x[0] == '=' then x[1..] else "", f)]))
  {
    var ls := ["stderr" + x, "from=" + f];
    var header := "stderr" + x;
    NotStartsWith(header, "node=", 0);
    NotStartsWith(header, "pipe=", 0);
    NotStartsWith(header, "concatenate=", 0);
    StartsWithConcat("stderr", x);
    StartsWithConcat("from=", f);
    if |x| > 0 {
      assert header[6] == x[0];
      assert header[7..] == x[1..];
    }
    assert ls[2..] == [];
  }

  /** A part line must hold a `=`: without one the whole parse stops. */
  lemma PartNeedsEquals(n: string, count: string, p: string, rest: seq<string>, e: Entries)
    requires HasNo(p, '=') && LeadingIntOrZero(count) >= 1
    ensures ParseFrom(["concatenate=" + n, "parts=" + count, p] + rest, e) == Err(InvalidPart)
  {
    var ls := ["concatenate=" + n, "parts=" + count, p] + rest;
    NotStartsWith(ls[0], "node=", 0);
    NotStartsWith(ls[0], "pipe=", 0);
    StartsWithConcat("concatenate=", n);
    StartsWithConcat("parts=", count);
    assert ls[1][6..] == count;
    assert ls[2..][0] == p;
    assert Find(p, '=').None?;
    assert ReadParts(ls[2..], 0, LeadingIntOrZero(count), []) == Err(InvalidPart);
    assert ConcatLines(ls, e) == Fatal(InvalidPart);
    assert Record(ls, e) == Fatal(InvalidPart);
  }

  /** A concatenation header without its `parts=` line is fatal. */
  lemma ConcatNeedsCount(n: string, line: string, rest: seq<string>, e: Entries)
    requires !StartsWith(line, "parts=")
    ensures ParseFrom(["concatenate=" + n, line] + rest, e) == Err(MissingParts)
  {
    var ls := ["concatenate=" + n, line] + rest;
    NotStartsWith(ls[0], "node=", 0);
    NotStartsWith(ls[0], "pipe=", 0);
    StartsWithConcat("concatenate=", n);
  }

  /** A node's arguments are its command's space-separated words: runs of spaces collapse, at most 19 are kept. */
  lemma NodeArgv(n: string, command: string, rest: seq<string>, e: Entries)
    requires |e.nodes| < MaxEntries
    ensures ParseFrom(["node=" + n, "command=" + command] + rest, e)
         == ParseFrom(rest, e.(nodes := e.nodes + [NodeEntry(n, Strtok.CappedArgs(command))]))
  {
    var ls := ["node=" + n, "command=" + command] + rest;
    StartsWithConcat("node=", n);
    StartsWithConcat("command=", command);
    assert ls[2..] == rest;
  }

  // ---------------------------------------------------------------
  // What the plan promises
  // ---------------------------------------------------------------

  predicate AllNodes(e: Entries, ps: seq<string>)
  {
    forall j :: 0 <= j < |ps| ==> Choose(e, ps[j]).Some? && Choose(e, ps[j]).value.NodeAction?
  }

  /**
   * A concatenation of nodes starts them one after the other, each with the
   * concatenation's streams and suppress flag.
   */
  lemma {:induction false} PartsOfNodes(e: Entries, ps: seq<string>, s: Streams, suppress: bool, k: nat, fuel: nat)
    requires fuel >= 1 && AllNodes(e, ps)
    ensures Parts(e, ps, s, suppress, k, fuel).fault.None?
    ensures Parts(e, ps, s, suppress, k, fuel).pipes == k
    ensures |Parts(e, ps, s, suppress, k, fuel).launches| == |ps|
    ensures forall j :: 0 <= j < |ps| ==>
      Parts(e, ps, s, suppress, k, fuel).launches[j] == NodeLaunch(Choose(e, ps[j]).value.node.argv, s, suppress)
    decreases |ps|
  {
    if |ps| > 0 {
      assert Choose(e, ps[0]).Some? && Choose(e, ps[0]).value.NodeAction?;
      var first := Act(e, ps[0], s, suppress, k, fuel);
      assert first.launches == [NodeLaunch(Choose(e, ps[0]).value.node.argv, s, suppress)];
      assert AllNodes(e, ps[1..]) by {
        forall j | 0 <= j < |ps[1..]|
          ensures Choose(e, ps[1..][j]).Some? && Choose(e, ps[1..][j]).value.NodeAction?
        {
          assert ps[1..][j] == ps[j + 1];
        }
      }
      PartsOfNodes(e, ps[1..], s, suppress, k, fuel);
      var rest := Parts(e, ps[1..], s, suppress, k, fuel);
      forall j | 0 <= j < |ps|
        ensures (first.launches + rest.launches)[j] == NodeLaunch(Choose(e, ps[j]).value.node.argv, s, suppress)
      {
        if j > 0 {
          assert ps[1..][j - 1] == ps[j];
        }
      }
    }
  }

  /**
   * An unknown part ends the process running the concatenation: the parts
   * before it have run, no later part starts, and the process exits.
   */
  lemma {:induction false} UnknownPartStops(e: Entries, ps: seq<string>, j: nat, s: Streams, suppress: bool, k: nat, fuel: nat)
    requires fuel >= 1 && j < |ps| && AllNodes(e, ps[..j]) && Choose(e, ps[j]).None?
    ensures Parts(e, ps, s, suppress, k, fuel).fault == Some(UnknownAction(ps[j]))
    ensures |Parts(e, ps, s, suppress, k, fuel).launches| == j
    decreases j
  {
    if j > 0 {
      assert ps[..j][0] == ps[0];
      assert ps[1..][..j - 1] == ps[..j][1..];
      assert AllNodes(e, ps[..j][1..]) by {
        forall m | 0 <= m < j - 1
          ensures Choose(e, ps[..j][1..][m]).Some? && Choose(e, ps[..j][1..][m]).value.NodeAction?
        {
          assert ps[..j][1..][m] == ps[..j][m + 1];
        }
      }
      assert ps[1..][j - 1] == ps[j];
      UnknownPartStops(e, ps[1..], j - 1, s, suppress, k, fuel);
    }
  }

  /**
   * A pipe of two nodes: `from` writes into the new pipe and keeps the input,
   * `to` reads from it and keeps the output; both get the caller's flag.
   * An unknown end exits only its own child, so the pipe returns normally.
   */
  lemma PipeOfNodes(e: Entries, name: string, x: PipeEntry, s: Streams, suppress: bool, k: nat, fuel: nat)
    requires fuel >= 2 && Choose(e, name) == Some(PipeAction(x))
    requires Choose(e, x.from).Some? && Choose(e, x.from).value.NodeAction?
    requires Choose(e, x.to).Some? && Choose(e, x.to).value.NodeAction?
    ensures Act(e, name, s, suppress, k, fuel) == Plan(
      [NodeLaunch(Choose(e, x.from).value.node.argv, s.(output := PipeWrite(k)), suppress),
       NodeLaunch(Choose(e, x.to).value.node.argv, s.(input := PipeRead(k)), suppress)], k + 1, None)
  {
  }

  /** An unknown `from` ends the writing child; the reading side still runs, and the caller goes on. */
  lemma PipeWithUnknownFrom(e: Entries, name: string, x: PipeEntry, s: Streams, suppress: bool, k: nat, fuel: nat)
    requires fuel >= 2 && Choose(e, name) == Some(PipeAction(x)) && Choose(e, x.from).None?
    ensures Act(e, name, s, suppress, k, fuel).fault == Contained(Act(e, x.to, s.(input := PipeRead(k)), suppress, k + 1, fuel - 1).fault)
    ensures Act(e, name, s, suppress, k, fuel).launches == Act(e, x.to, s.(input := PipeRead(k)), suppress, k + 1, fuel - 1).launches
  {
    assert [] + Act(e, x.to, s.(input := PipeRead(k)), suppress, k + 1, fuel - 1).launches
        == Act(e, x.to, s.(input := PipeRead(k)), suppress, k + 1, fuel - 1).launches;
  }

  /** A launch inside a stderr capture: both its output streams go into pipes, and apart from `cat` the parent keeps quiet about it. */
  predicate Captured(l: Launch)
  {
    l.output.PipeWrite? && l.errors.PipeWrite? && (l.quiet || l.argv == CatArgv)
  }

  predicate AllCaptured(ls: seq<Launch>)
  {
    forall j :: 0 <= j < |ls| ==> Captured(ls[j])
  }

  lemma AllCapturedAppend(a: seq<Launch>, b: seq<Launch>)
    requires AllCaptured(a) && AllCaptured(b)
    ensures AllCaptured(a + b)
  {
    forall j | 0 <= j < |a + b|
      ensures Captured((a + b)[j])
    {
      if j >= |a| {
        assert (a + b)[j] == b[j - |a|];
      }
    }
  }

  lemma {:induction false} ActCaptured(e: Entries, name: string, s: Streams, k: nat, fuel: nat)
    requires s.output.PipeWrite? && s.errors.PipeWrite?
    ensures AllCaptured(Act(e, name, s, true, k, fuel).launches)
    decreases fuel, 1
  {
    if fuel > 0 {
      match Choose(e, name)
      case None =>
      case Some(NodeAction(x)) =>
        assert Captured(NodeLaunch(x.argv, s, true));
      case Some(PipeAction(x)) =>
        PipeCaptured(e, name, x, s, k, fuel - 1);
      case Some(ConcatAction(x)) =>
        PartsCaptured(e, x.parts, s, k, fuel - 1);
      case Some(CaptureAction(x)) =>
        InnerCaptured(e, name, x, s, k, fuel - 1);
      case Some(FileAction(x)) =>
    }
  }

  lemma {:induction false} PipeCaptured(e: Entries, name: string, x: PipeEntry, s: Streams, k: nat, fuel: nat)
    requires s.output.PipeWrite? && s.errors.PipeWrite?
    requires Choose(e, name) == Some(PipeAction(x))
    ensures AllCaptured(Act(e, name, s, true, k, fuel + 1).launches)
    decreases fuel, 2
  {
    var from := Act(e, x.from, s.(output := PipeWrite(k)), true, k + 1, fuel);
    var to := Act(e, x.to, s.(input := PipeRead(k)), true, from.pipes, fuel);
    assert Act(e, name, s, true, k, fuel + 1).launches == from.launches + to.launches;
    ActCaptured(e, x.from, s.(output := PipeWrite(k)), k + 1, fuel);
    ActCaptured(e, x.to, s.(input := PipeRead(k)), from.pipes, fuel);
    AllCapturedAppend(from.launches, to.launches);
  }

  lemma {:induction false} InnerCaptured(e: Entries, name: string, x: CaptureEntry, s: Streams, k: nat, fuel: nat)
    requires s.output.PipeWrite? && s.errors.PipeWrite?
    requires Choose(e, name) == Some(CaptureAction(x))
    ensures AllCaptured(Act(e, name, s, true, k, fuel + 1).launches)
    decreases fuel, 2
  {
    var inner := Act(e, x.from, Streams(s.input, PipeWrite(k), PipeWrite(k)), true, k + 1, fuel);
    var cat := [NodeLaunch(CatArgv, s.(input := PipeRead(k)), false)];
    assert Act(e, name, s, true, k, fuel + 1).launches == inner.launches + cat;
    ActCaptured(e, x.from, Streams(s.input, PipeWrite(k), PipeWrite(k)), k + 1, fuel);
    AllCapturedAppend(inner.launches, cat);
  }

  lemma {:induction false} PartsCaptured(e: Entries, ps: seq<string>, s: Streams, k: nat, fuel: nat)
    requires s.output.PipeWrite? && s.errors.PipeWrite?
    ensures AllCaptured(Parts(e, ps, s, true, k, fuel).launches)
    decreases fuel, 2, |ps|
  {
    if |ps| > 0 {
      var first := Act(e, ps[0], s, true, k, fuel);
      ActCaptured(e, ps[0], s, k, fuel);
      if first.fault.None? {
        PartsCaptured(e, ps[1..], s, first.pipes, fuel);
        AllCapturedAppend(first.launches, Parts(e, ps[1..], s, true, first.pipes, fuel).launches);
      }
    }
  }

  /**
   * `execute_stderr_capture`: the inner action runs with output and errors on
   * a new pipe and the suppress flag set, and everything it starts writes
   * into pipes; then `cat` copies the pipe to the caller's output.
   */
  lemma CaptureRunsInside(e: Entries, name: string, x: CaptureEntry, s: Streams, suppress: bool, k: nat, fuel: nat)
    requires fuel >= 1 && Choose(e, name) == Some(CaptureAction(x))
    ensures var inner := Act(e, x.from, Streams(s.input, PipeWrite(k), PipeWrite(k)), true, k + 1, fuel - 1);
      Act(e, name, s, suppress, k, fuel).launches
        == inner.launches + [Launch(CatArgv, PipeRead(k), s.output, s.errors, false)]
      && AllCaptured(inner.launches)
  {
    ActCaptured(e, x.from, Streams(s.input, PipeWrite(k), PipeWrite(k)), k + 1, fuel - 1);
  }

  /** `execute_file_node`: `cat` with the file as its input and the caller's output. */
  lemma FileNodeRunsCat(e: Entries, name: string, x: FileEntry, s: Streams, suppress: bool, k: nat, fuel: nat)
    requires fuel >= 1 && Choose(e, name) == Some(FileAction(x))
    ensures Act(e, name, s, suppress, k, fuel) == Plan([Launch(CatArgv, FileRead(x.filename), s.output, s.errors, false)], k, None)
  {
  }
}
