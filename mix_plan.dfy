// `execute_action` of src/mix.cpp (127-284) and src/mix2.cpp (121-458), as a
// plan: the programs each forks, with their streams.  Every node is reported
// when it fails; the only program started without a report is the `cat` of a
// src/mix2.cpp file node, whose status the parent collects and ignores.  Every
// `output_fd` they pass is the current standard output, so an action runs with
// the streams of the process that runs it.  A pipe forks its `to` side before its `from` side, and every side
// of a pipe, a stderr capture and a file node runs in a child of its own.

module MixPlan {
  import opened Wrappers
  import opened Process
  import opened Text
  import opened F = Flow
  import SP = StrictParser

  /** src/mix.cpp: nodes, pipes and concatenations; src/mix2.cpp adds stderr captures and file nodes. */
  datatype Program = Mix | Mix2

  /** The lookup order of `execute_action`. */
  function Order(p: Program): seq<F.Kind>
  {
    if p == Mix then F.MixOrder else F.FullOrder
  }

  /** The reader each program uses. */
  function DialectOf(p: Program): SP.Dialect
  {
    if p == Mix then SP.Mix else SP.Mix2
  }

  /** `execute_single_node`: the parent always reports a failure. */
  function NodeLaunch(argv: seq<string>, s: Streams): (l: Launch)
    ensures l.input == s.input && l.output == s.output && l.errors == s.errors && !l.quiet
  {
    Launch(argv, s.input, s.output, s.errors, false)
  }

  /** src/mix2.cpp `execute_file_node`: `cat` reads the file, and the parent waits without looking at the status. */
  function FileLaunch(path: string, s: Streams): (l: Launch)
    ensures l.argv == CatArgv && l.input == FileRead(path) && l.output == s.output && l.errors == s.errors && l.quiet
  {
    Launch(CatArgv, FileRead(path), s.output, s.errors, true)
  }

  function Act(p: Program, t: F.Tables, name: string, s: Streams, k: nat, fuel: nat): (r: Plan)
    ensures r.pipes >= k
    decreases fuel, 0
  {
    if fuel == 0 then Plan([], k, Some(OutOfFuel))
    else
      match F.Resolve(t, name, Order(p))
      case None => Plan([], k, Some(UnknownAction(name)))
      case Some(NodeKind) => Plan([NodeLaunch(t.nodes[name], s)], k, None)
      case Some(PipeKind) => PipePlan(p, t, name, t.pipes[name], s, k, fuel - 1)
      case Some(ConcatKind) => Parts(p, t, t.concats[name], s, k, fuel - 1)
      case Some(CaptureKind) =>
        // The child points its standard error at its standard output.
        var inner := Act(p, t, t.captures[name], s.(errors := s.output), k, fuel - 1);
        Plan(inner.launches, inner.pipes, Contained(inner.fault))
      case Some(FileKind) => Plan([FileLaunch(t.files[name], s)], k, None)
  }

  /**
   * `execute_pipe`.  src/mix2.cpp first rejects a pipe between two file nodes,
   * then runs the other end in a child with the file as its input or output;
   * src/mix.cpp has no file nodes.
   */
  function PipePlan(p: Program, t: F.Tables, name: string, x: F.Pipe, s: Streams, k: nat, fuel: nat): (r: Plan)
    ensures r.pipes >= k
    decreases fuel, 1
  {
    var fromFile := p == Mix2 && x.from in t.files;
    var toFile := p == Mix2 && x.to in t.files;
    if fromFile && toFile then Plan([], k, Some(BothEndsFiles(name)))
    else if fromFile then
      var to := Act(p, t, x.to, s.(input := FileRead(t.files[x.from])), k, fuel);
      Plan(to.launches, to.pipes, Contained(to.fault))
    else if toFile then
      var from := Act(p, t, x.from, s.(output := FileWrite(t.files[x.to])), k, fuel);
      Plan(from.launches, from.pipes, Contained(from.fault))
    else
      var to := Act(p, t, x.to, s.(input := PipeRead(k)), k + 1, fuel);
      var from := Act(p, t, x.from, s.(output := PipeWrite(k)), to.pipes, fuel);
      Plan(to.launches + from.launches, from.pipes, ContainedBoth(to.fault, from.fault))
  }

  /**
   * `execute_concatenation`: the parts in order in the same process; a part
   * that stops the process stops the rest.  src/mix.cpp looks a part up
   * itself, in the same order as `execute_action`.
   */
  function Parts(p: Program, t: F.Tables, ps: seq<string>, s: Streams, k: nat, fuel: nat): (r: Plan)
    ensures r.pipes >= k
    decreases fuel, 1, |ps|
  {
    if |ps| == 0 then Plan([], k, None)
    else
      var first := Act(p, t, ps[0], s, k, fuel);
      if first.fault.Some? then first
      else
        var rest := Parts(p, t, ps[1..], s, first.pipes, fuel);
        Plan(first.launches + rest.launches, rest.pipes, rest.fault)
  }

  /** `main`: read the flow file, then run the action with the terminal's streams. */
  function Run(p: Program, lines: seq<string>, action: string, fuel: nat): Result<Plan, SP.ParseError>
  {
    match SP.Parse(DialectOf(p), lines)
    case Err(x) => Err(x)
    case Ok(t) => Ok(Act(p, t, action, Terminal, 0, fuel))
  }

  // ---------------------------------------------------------------
  // Properties
  // ---------------------------------------------------------------

  /** A node name in a mix-family table: found, and found as a node. */
  predicate IsNode(p: Program, t: F.Tables, name: string)
  {
    F.Resolve(t, name, Order(p)) == Some(F.NodeKind)
  }

  /**
   * A regular pipe between two nodes: the `to` node is forked first and
   * reads the new pipe with the caller's output; the `from` node keeps the
   * caller's input and writes the pipe.
   */
  lemma PipeOfNodes(p: Program, t: F.Tables, name: string, s: Streams, k: nat, fuel: nat)
    requires fuel >= 2 && F.Resolve(t, name, Order(p)) == Some(F.PipeKind)
    requires IsNode(p, t, t.pipes[name].from) && IsNode(p, t, t.pipes[name].to)
    requires p == Mix2 ==> t.pipes[name].from !in t.files && t.pipes[name].to !in t.files
    ensures Act(p, t, name, s, k, fuel) == Plan(
      [Launch(t.nodes[t.pipes[name].to], PipeRead(k), s.output, s.errors, false),
       Launch(t.nodes[t.pipes[name].from], s.input, PipeWrite(k), s.errors, false)], k + 1, None)
  {
    var x := t.pipes[name];
    var to := Act(p, t, x.to, s.(input := PipeRead(k)), k + 1, fuel - 1);
    assert to == Plan([NodeLaunch(t.nodes[x.to], s.(input := PipeRead(k)))], k + 1, None);
    var from := Act(p, t, x.from, s.(output := PipeWrite(k)), to.pipes, fuel - 1);
    assert from == Plan([NodeLaunch(t.nodes[x.from], s.(output := PipeWrite(k)))], k + 1, None);
    assert Act(p, t, name, s, k, fuel) == PipePlan(p, t, name, x, s, k, fuel - 1);
  }

  /** src/mix2.cpp: a pipe between two file nodes ends the process before anything is opened or forked. */
  lemma BothFileEnds(t: F.Tables, name: string, s: Streams, k: nat, fuel: nat)
    requires fuel >= 1 && F.Resolve(t, name, F.FullOrder) == Some(F.PipeKind)
    requires t.pipes[name].from in t.files && t.pipes[name].to in t.files
    ensures Act(Mix2, t, name, s, k, fuel) == Plan([], k, Some(BothEndsFiles(name)))
  {
  }

  /**
   * src/mix2.cpp: a pipe from a file node runs `to` alone, in a child, with
   * the file as its input; a pipe into one runs `from` with the file as its
   * output.  No pipe is created.
   */
  lemma FileEnds(t: F.Tables, name: string, s: Streams, k: nat, fuel: nat)
    requires fuel >= 1 && F.Resolve(t, name, F.FullOrder) == Some(F.PipeKind)
    ensures var x := t.pipes[name];
      (x.from in t.files && x.to !in t.files ==>
        Act(Mix2, t, name, s, k, fuel).launches == Act(Mix2, t, x.to, s.(input := FileRead(t.files[x.from])), k, fuel - 1).launches)
      && (x.to in t.files && x.from !in t.files ==>
        Act(Mix2, t, name, s, k, fuel).launches == Act(Mix2, t, x.from, s.(output := FileWrite(t.files[x.to])), k, fuel - 1).launches)
  {
  }

  /**
   * src/mix2.cpp `execute_stderr_capture`: standard error is pointed at the
   * caller's output and standard output is left alone, so a captured node
   * writes both streams to the caller's output, and nothing else is started.
   */
  lemma CaptureOfNode(t: F.Tables, name: string, s: Streams, k: nat, fuel: nat)
    requires fuel >= 2 && F.Resolve(t, name, F.FullOrder) == Some(F.CaptureKind)
    requires IsNode(Mix2, t, t.captures[name])
    ensures Act(Mix2, t, name, s, k, fuel) == Plan([Launch(t.nodes[t.captures[name]], s.input, s.output, s.output, false)], k, None)
  {
  }

  /**
   * A file node used as an action in src/mix2.cpp starts one `cat` on the
   * file, writing to the caller's streams, and its failure is never reported.
   */
  lemma FileNodeUnreported(t: F.Tables, name: string, s: Streams, k: nat, fuel: nat)
    requires fuel >= 1 && F.Resolve(t, name, F.FullOrder) == Some(F.FileKind)
    ensures Act(Mix2, t, name, s, k, fuel) == Plan([Launch(CatArgv, FileRead(t.files[name]), s.output, s.errors, true)], k, None)
    ensures !AllLoud(Act(Mix2, t, name, s, k, fuel).launches)
  {
    assert Act(Mix2, t, name, s, k, fuel).launches[0].quiet;
  }

  /** Every program src/mix.cpp starts is reported when it fails: none is quiet. */
  predicate AllLoud(ls: seq<Launch>)
  {
    forall j :: 0 <= j < |ls| ==> !ls[j].quiet
  }

  /** In src/mix.cpp no stream but standard error is ever where the errors go: the streams a launch writes errors to are the caller's. */
  predicate ErrorsTo(ls: seq<Launch>, errors: Fd)
  {
    forall j :: 0 <= j < |ls| ==> ls[j].errors == errors
  }

  lemma AppendKeeps(a: seq<Launch>, b: seq<Launch>, errors: Fd)
    requires AllLoud(a) && AllLoud(b) && ErrorsTo(a, errors) && ErrorsTo(b, errors)
    ensures AllLoud(a + b) && ErrorsTo(a + b, errors)
  {
    forall j | |a| <= j < |a + b|
      ensures !(a + b)[j].quiet && (a + b)[j].errors == errors
    {
      assert (a + b)[j] == b[j - |a|];
    }
  }

  /**
   * src/mix.cpp keeps every child's standard error where the caller's is,
   * and reports every failure.
   */
  lemma {:induction false} MixKeepsErrors(t: F.Tables, name: string, s: Streams, k: nat, fuel: nat)
    ensures AllLoud(Act(Mix, t, name, s, k, fuel).launches)
    ensures ErrorsTo(Act(Mix, t, name, s, k, fuel).launches, s.errors)
    decreases fuel, 0
  {
    if fuel > 0 {
      match F.Resolve(t, name, F.MixOrder)
      case None =>
      case Some(NodeKind) =>
      case Some(PipeKind) => MixPipeKeepsErrors(t, name, t.pipes[name], s, k, fuel - 1);
      case Some(ConcatKind) => MixPartsKeepErrors(t, t.concats[name], s, k, fuel - 1);
    }
  }

  lemma {:induction false} MixPipeKeepsErrors(t: F.Tables, name: string, x: F.Pipe, s: Streams, k: nat, fuel: nat)
    ensures AllLoud(PipePlan(Mix, t, name, x, s, k, fuel).launches)
    ensures ErrorsTo(PipePlan(Mix, t, name, x, s, k, fuel).launches, s.errors)
    decreases fuel, 1
  {
    var to := Act(Mix, t, x.to, s.(input := PipeRead(k)), k + 1, fuel);
    var from := Act(Mix, t, x.from, s.(output := PipeWrite(k)), to.pipes, fuel);
    MixKeepsErrors(t, x.to, s.(input := PipeRead(k)), k + 1, fuel);
    MixKeepsErrors(t, x.from, s.(output := PipeWrite(k)), to.pipes, fuel);
    AppendKeeps(to.launches, from.launches, s.errors);
  }

  lemma {:induction false} MixPartsKeepErrors(t: F.Tables, ps: seq<string>, s: Streams, k: nat, fuel: nat)
    ensures AllLoud(Parts(Mix, t, ps, s, k, fuel).launches)
    ensures ErrorsTo(Parts(Mix, t, ps, s, k, fuel).launches, s.errors)
    decreases fuel, 1, |ps|
  {
    if |ps| > 0 {
      var first := Act(Mix, t, ps[0], s, k, fuel);
      MixKeepsErrors(t, ps[0], s, k, fuel);
      if first.fault.None? {
        var rest := Parts(Mix, t, ps[1..], s, first.pipes, fuel);
        MixPartsKeepErrors(t, ps[1..], s, first.pipes, fuel);
        AppendKeeps(first.launches, rest.launches, s.errors);
      }
    }
  }

  /** src/mix.cpp ignores `stderr` and `file=` records: its tables never hold a capture or a file node. */
  lemma {:induction false} MixStoresNoCaptures(ls: seq<string>, t: F.Tables)
    requires SP.ParseFrom(SP.Mix, ls, t).Ok?
    ensures SP.ParseFrom(SP.Mix, ls, t).value.captures == t.captures
    ensures SP.ParseFrom(SP.Mix, ls, t).value.files == t.files
    decreases |ls|
  {
    if |ls| > 0 {
      var n := SP.Record(SP.Mix, ls, t);
      assert n.Go?;
      MixRecordKeeps(ls, t);
      assert SP.ParseFrom(SP.Mix, ls, t) == SP.ParseFrom(SP.Mix, ls[n.taken..], n.tables);
      MixStoresNoCaptures(ls[n.taken..], n.tables);
    }
  }

  lemma MixRecordKeeps(ls: seq<string>, t: F.Tables)
    requires |ls| > 0
    ensures SP.Record(SP.Mix, ls, t).Go? ==>
      SP.Record(SP.Mix, ls, t).tables.captures == t.captures && SP.Record(SP.Mix, ls, t).tables.files == t.files
  {
    var line := ls[0];
    if line == "" {
    } else if StartsWith(line, "node=") {
      assert SP.Record(SP.Mix, ls, t) == SP.NodeRecord(SP.Mix, ls, t);
    } else if StartsWith(line, "pipe=") {
      assert SP.Record(SP.Mix, ls, t) == SP.PipeRecord(ls, t);
    } else if StartsWith(line, "concatenate=") {
      assert SP.Record(SP.Mix, ls, t) == SP.ConcatRecord(ls, t);
    }
  }

  /**
   * On tables without captures and file nodes, which are the only tables
   * src/mix.cpp builds, src/mix.cpp and src/mix2.cpp start the same programs
   * with the same streams and stop in the same way.
   */
  lemma {:induction false} MixAgrees(t: F.Tables, name: string, s: Streams, k: nat, fuel: nat)
    requires t.captures == map[] && t.files == map[]
    ensures Act(Mix, t, name, s, k, fuel) == Act(Mix2, t, name, s, k, fuel)
    decreases fuel, 0
  {
    if fuel > 0 {
      OrdersAgree(t, name);
      match F.Resolve(t, name, F.MixOrder)
      case None =>
      case Some(NodeKind) =>
      case Some(PipeKind) => PipeActAgrees(t, name, s, k, fuel - 1);
      case Some(ConcatKind) => ConcatActAgrees(t, name, s, k, fuel - 1);
    }
  }

  lemma {:induction false} PipeActAgrees(t: F.Tables, name: string, s: Streams, k: nat, fuel: nat)
    requires t.captures == map[] && t.files == map[]
    requires F.Resolve(t, name, F.MixOrder) == Some(PipeKind) == F.Resolve(t, name, F.FullOrder)
    ensures Act(Mix, t, name, s, k, fuel + 1) == Act(Mix2, t, name, s, k, fuel + 1)
    decreases fuel, 2
  {
    PipesAgree(t, name, t.pipes[name], s, k, fuel);
  }

  lemma {:induction false} ConcatActAgrees(t: F.Tables, name: string, s: Streams, k: nat, fuel: nat)
    requires t.captures == map[] && t.files == map[]
    requires F.Resolve(t, name, F.MixOrder) == Some(ConcatKind) == F.Resolve(t, name, F.FullOrder)
    ensures Act(Mix, t, name, s, k, fuel + 1) == Act(Mix2, t, name, s, k, fuel + 1)
    decreases fuel, 2
  {
    PartsAgree(t, t.concats[name], s, k, fuel);
  }

  /** With no captures and no file nodes, the three-kind and the five-kind lookups agree. */
  lemma OrdersAgree(t: F.Tables, name: string)
    requires t.captures == map[] && t.files == map[]
    ensures F.Resolve(t, name, F.MixOrder) == F.Resolve(t, name, F.FullOrder)
  {
    assert F.MixOrder[1..][1..][1..] == [];
    assert F.FullOrder[1..][1..][1..] == [F.CaptureKind, F.FileKind];
  }

  lemma {:induction false} PipesAgree(t: F.Tables, name: string, x: F.Pipe, s: Streams, k: nat, fuel: nat)
    requires t.captures == map[] && t.files == map[]
    ensures PipePlan(Mix, t, name, x, s, k, fuel) == PipePlan(Mix2, t, name, x, s, k, fuel)
    decreases fuel, 1
  {
    MixAgrees(t, x.to, s.(input := PipeRead(k)), k + 1, fuel);
    var to := Act(Mix, t, x.to, s.(input := PipeRead(k)), k + 1, fuel);
    MixAgrees(t, x.from, s.(output := PipeWrite(k)), to.pipes, fuel);
  }

  lemma {:induction false} PartsAgree(t: F.Tables, ps: seq<string>, s: Streams, k: nat, fuel: nat)
    requires t.captures == map[] && t.files == map[]
    ensures Parts(Mix, t, ps, s, k, fuel) == Parts(Mix2, t, ps, s, k, fuel)
    decreases fuel, 1, |ps|
  {
    if |ps| > 0 {
      MixAgrees(t, ps[0], s, k, fuel);
      var first := Act(Mix, t, ps[0], s, k, fuel);
      if first.fault.None? {
        PartsAgree(t, ps[1..], s, first.pipes, fuel);
      }
    }
  }

  /** src/mix.cpp runs whatever it reads as src/mix2.cpp would run the same tables. */
  lemma MixRunsAsMix2(lines: seq<string>, action: string, fuel: nat)
    requires SP.Parse(SP.Mix, lines).Ok?
    ensures Run(Mix, lines, action, fuel) == Ok(Act(Mix2, SP.Parse(SP.Mix, lines).value, action, Terminal, 0, fuel))
  {
    MixStoresNoCaptures(lines, F.Empty);
    MixAgrees(SP.Parse(SP.Mix, lines).value, action, Terminal, 0, fuel);
  }
}
