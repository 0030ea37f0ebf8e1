// `execute_action` of src/mix4.cpp (137-246), as a plan.  Unlike its
// predecessors it passes the input and output descriptors down explicitly,
// together with a flag that silences the status report; a pipe end that is a
// file node is replaced by the opened file and the other end runs in the same
// process, and a stderr capture sends the inner action's output and errors
// into a pipe that `cat` copies to the caller's output.

module Mix4Plan {
  import opened Wrappers
  import opened Process
  import opened F = Flow
  import SP = StrictParser

  /** `execute_command(argv, input_fd, output_fd, false, suppress)`: standard error is inherited. */
  function Command(argv: seq<string>, s: Streams, suppress: bool): (l: Launch)
    ensures l.argv == argv && l.input == s.input && l.output == s.output && l.errors == s.errors
    ensures l.quiet == suppress
  {
    Launch(argv, s.input, s.output, s.errors, suppress)
  }

  function Act(t: F.Tables, name: string, s: Streams, suppress: bool, k: nat, fuel: nat): (r: Plan)
    ensures r.pipes >= k
    decreases fuel, 0
  {
    if fuel == 0 then Plan([], k, Some(OutOfFuel))
    else
      match F.Resolve(t, name, F.FullOrder)
      case None => Plan([], k, Some(UnknownAction(name)))
      case Some(NodeKind) => Plan([Command(t.nodes[name], s, suppress)], k, None)
      case Some(PipeKind) => PipePlan(t, name, t.pipes[name], s, suppress, k, fuel - 1)
      case Some(ConcatKind) => Parts(t, t.concats[name], s, suppress, k, fuel - 1)
      case Some(CaptureKind) => CapturePlan(t, t.captures[name], s, suppress, k, fuel - 1)
      case Some(FileKind) => Plan([Command(CatArgv, s.(input := FileRead(t.files[name])), suppress)], k, None)
  }

  /**
   * The pipe branch: two file ends are rejected before anything is opened; a
   * file end becomes the other end's input or output, in this process; a
   * regular pipe runs `from` in a child and `to` in this process.
   */
  function PipePlan(t: F.Tables, name: string, x: F.Pipe, s: Streams, suppress: bool, k: nat, fuel: nat): (r: Plan)
    ensures r.pipes >= k
    decreases fuel, 1
  {
    var fromFile := x.from in t.files;
    var toFile := x.to in t.files;
    if fromFile && toFile then Plan([], k, Some(BothEndsFiles(name)))
    else if fromFile then Act(t, x.to, s.(input := FileRead(t.files[x.from])), suppress, k, fuel)
    else if toFile then Act(t, x.from, s.(output := FileWrite(t.files[x.to])), suppress, k, fuel)
    else
      var from := Act(t, x.from, s.(output := PipeWrite(k)), suppress, k + 1, fuel);
      var to := Act(t, x.to, s.(input := PipeRead(k)), suppress, from.pipes, fuel);
      Plan(from.launches + to.launches, to.pipes, ChildThenParent(from.fault, to.fault))
  }

  /**
   * The capture branch: `inner` runs with suppress set and with its output and
   * errors on pipe `k`; `cat` then copies the pipe to the caller's output.
   */
  function CapturePlan(t: F.Tables, inner: string, s: Streams, suppress: bool, k: nat, fuel: nat): (r: Plan)
    ensures r.pipes >= k
    decreases fuel, 1
  {
    var i := Act(t, inner, Streams(s.input, PipeWrite(k), PipeWrite(k)), true, k + 1, fuel);
    Plan(i.launches + [Command(CatArgv, s.(input := PipeRead(k)), suppress)], i.pipes, Contained(i.fault))
  }

  /** The concatenation branch: every part with the same descriptors and flag, in this process. */
  function Parts(t: F.Tables, ps: seq<string>, s: Streams, suppress: bool, k: nat, fuel: nat): (r: Plan)
    ensures r.pipes >= k
    decreases fuel, 1, |ps|
  {
    if |ps| == 0 then Plan([], k, None)
    else
      var first := Act(t, ps[0], s, suppress, k, fuel);
      if first.fault.Some? then first
      else
        var rest := Parts(t, ps[1..], s, suppress, first.pipes, fuel);
        Plan(first.launches + rest.launches, rest.pipes, rest.fault)
  }

  /** `main`: the src/mix2.cpp reader, then `execute_action(action)` with its default arguments. */
  function Run(lines: seq<string>, action: string, fuel: nat): Result<Plan, SP.ParseError>
  {
    match SP.Parse(SP.Mix2, lines)
    case Err(x) => Err(x)
    case Ok(t) => Ok(Act(t, action, Terminal, false, 0, fuel))
  }

  // ---------------------------------------------------------------
  // Properties
  // ---------------------------------------------------------------

  predicate IsNode(t: F.Tables, name: string)
  {
    F.Resolve(t, name, F.FullOrder) == Some(NodeKind)
  }

  predicate IsPipe(t: F.Tables, name: string)
  {
    F.Resolve(t, name, F.FullOrder) == Some(PipeKind)
  }

  /**
   * A pipe from a file node: `to` runs, in this process, with the file as
   * its input and everything else the caller's.
   */
  lemma FromFileEnd(t: F.Tables, name: string, s: Streams, suppress: bool, k: nat, fuel: nat)
    requires fuel >= 1 && IsPipe(t, name)
    requires t.pipes[name].from in t.files && t.pipes[name].to !in t.files
    ensures Act(t, name, s, suppress, k, fuel)
         == Act(t, t.pipes[name].to, s.(input := FileRead(t.files[t.pipes[name].from])), suppress, k, fuel - 1)
  {
  }

  /**
   * A pipe into a file node: `from` runs, in this process, with the file as
   * its output and everything else the caller's.
   */
  lemma ToFileEnd(t: F.Tables, name: string, s: Streams, suppress: bool, k: nat, fuel: nat)
    requires fuel >= 1 && IsPipe(t, name)
    requires t.pipes[name].to in t.files && t.pipes[name].from !in t.files
    ensures Act(t, name, s, suppress, k, fuel)
         == Act(t, t.pipes[name].from, s.(output := FileWrite(t.files[t.pipes[name].to])), suppress, k, fuel - 1)
  {
  }

  /** A pipe between two file nodes ends the process before anything is opened or started. */
  lemma BothFileEnds(t: F.Tables, name: string, s: Streams, suppress: bool, k: nat, fuel: nat)
    requires fuel >= 1 && IsPipe(t, name)
    requires t.pipes[name].from in t.files && t.pipes[name].to in t.files
    ensures Act(t, name, s, suppress, k, fuel) == Plan([], k, Some(BothEndsFiles(name)))
  {
  }

  /**
   * A regular pipe: `from` gets the caller's input and the new pipe's write
   * end, `to` its read end and the caller's output, both the caller's flag.
   * A fault in `from` ends only its child; one in `to` ends this process.
   */
  lemma RegularPipe(t: F.Tables, name: string, s: Streams, suppress: bool, k: nat, fuel: nat)
    requires fuel >= 1 && IsPipe(t, name)
    requires t.pipes[name].from !in t.files && t.pipes[name].to !in t.files
    ensures var x := t.pipes[name];
      var from := Act(t, x.from, s.(output := PipeWrite(k)), suppress, k + 1, fuel - 1);
      var to := Act(t, x.to, s.(input := PipeRead(k)), suppress, from.pipes, fuel - 1);
      Act(t, name, s, suppress, k, fuel) == Plan(from.launches + to.launches, to.pipes, ChildThenParent(from.fault, to.fault))
  {
  }

  /** The same for two nodes, written out. */
  lemma PipeOfNodes(t: F.Tables, name: string, s: Streams, suppress: bool, k: nat, fuel: nat)
    requires fuel >= 2 && IsPipe(t, name)
    requires t.pipes[name].from !in t.files && t.pipes[name].to !in t.files
    requires IsNode(t, t.pipes[name].from) && IsNode(t, t.pipes[name].to)
    ensures Act(t, name, s, suppress, k, fuel) == Plan(
      [Launch(t.nodes[t.pipes[name].from], s.input, PipeWrite(k), s.errors, suppress),
       Launch(t.nodes[t.pipes[name].to], PipeRead(k), s.output, s.errors, suppress)], k + 1, None)
  {
    var x := t.pipes[name];
    var from := Act(t, x.from, s.(output := PipeWrite(k)), suppress, k + 1, fuel - 1);
    assert from == Plan([Command(t.nodes[x.from], s.(output := PipeWrite(k)), suppress)], k + 1, None);
    var to := Act(t, x.to, s.(input := PipeRead(k)), suppress, from.pipes, fuel - 1);
    assert to == Plan([Command(t.nodes[x.to], s.(input := PipeRead(k)), suppress)], k + 1, None);
    RegularPipe(t, name, s, suppress, k, fuel);
  }

  predicate AllNodes(t: F.Tables, ps: seq<string>)
  {
    forall j :: 0 <= j < |ps| ==> IsNode(t, ps[j])
  }

  /** A concatenation of nodes runs them in order, every one with the concatenation's descriptors and flag. */
  lemma {:induction false} PartsOfNodes(t: F.Tables, ps: seq<string>, s: Streams, suppress: bool, k: nat, fuel: nat)
    requires fuel >= 1 && AllNodes(t, ps)
    ensures Parts(t, ps, s, suppress, k, fuel).fault.None?
    ensures Parts(t, ps, s, suppress, k, fuel).pipes == k
    ensures |Parts(t, ps, s, suppress, k, fuel).launches| == |ps|
    ensures forall j :: 0 <= j < |ps| ==>
      Parts(t, ps, s, suppress, k, fuel).launches[j] == Launch(t.nodes[ps[j]], s.input, s.output, s.errors, suppress)
    decreases |ps|
  {
    if |ps| > 0 {
      assert IsNode(t, ps[0]);
      var first := Act(t, ps[0], s, suppress, k, fuel);
      assert first.launches == [Command(t.nodes[ps[0]], s, suppress)];
      assert AllNodes(t, ps[1..]) by {
        forall j | 0 <= j < |ps[1..]|
          ensures IsNode(t, ps[1..][j])
        {
          assert ps[1..][j] == ps[j + 1];
        }
      }
      PartsOfNodes(t, ps[1..], s, suppress, k, fuel);
      var rest := Parts(t, ps[1..], s, suppress, k, fuel);
      forall j | 0 <= j < |ps|
        ensures (first.launches + rest.launches)[j] == Launch(t.nodes[ps[j]], s.input, s.output, s.errors, suppress)
      {
        if j > 0 {
          assert ps[1..][j - 1] == ps[j];
        }
      }
    }
  }

  /**
   * A stderr capture: the inner action runs in a child with suppress set and
   * with output and errors on a new pipe; this process then runs `cat` from
   * the pipe to its own output, with its own flag.
   */
  lemma CaptureRunsInside(t: F.Tables, name: string, s: Streams, suppress: bool, k: nat, fuel: nat)
    requires fuel >= 1 && F.Resolve(t, name, F.FullOrder) == Some(CaptureKind)
    ensures var inner := Act(t, t.captures[name], Streams(s.input, PipeWrite(k), PipeWrite(k)), true, k + 1, fuel - 1);
      Act(t, name, s, suppress, k, fuel)
        == Plan(inner.launches + [Launch(CatArgv, PipeRead(k), s.output, s.errors, suppress)], inner.pipes, Contained(inner.fault))
  {
  }

  predicate AllQuiet(ls: seq<Launch>)
  {
    forall j :: 0 <= j < |ls| ==> ls[j].quiet
  }

  lemma AllQuietAppend(a: seq<Launch>, b: seq<Launch>)
    requires AllQuiet(a) && AllQuiet(b)
    ensures AllQuiet(a + b)
  {
    forall j | |a| <= j < |a + b|
      ensures (a + b)[j].quiet
    {
      assert (a + b)[j] == b[j - |a|];
    }
  }

  /**
   * Once suppressed, always suppressed: every program an action started with
   * the flag set starts, down to the leaves, is one whose failure is not
   * reported.
   */
  lemma {:induction false} SuppressReachesLeaves(t: F.Tables, name: string, s: Streams, k: nat, fuel: nat)
    ensures AllQuiet(Act(t, name, s, true, k, fuel).launches)
    decreases fuel, 0, 1
  {
    if fuel > 0 {
      match F.Resolve(t, name, F.FullOrder)
      case None =>
      case Some(NodeKind) =>
      case Some(PipeKind) => PipeActQuiet(t, name, s, k, fuel);
      case Some(ConcatKind) => ConcatActQuiet(t, name, s, k, fuel);
      case Some(CaptureKind) => CaptureActQuiet(t, name, s, k, fuel);
      case Some(FileKind) =>
    }
  }

  lemma PipeActQuiet(t: F.Tables, name: string, s: Streams, k: nat, fuel: nat)
    requires fuel > 0 && F.Resolve(t, name, F.FullOrder) == Some(F.PipeKind)
    ensures AllQuiet(Act(t, name, s, true, k, fuel).launches)
    decreases fuel, 0, 0
  {
    assert Act(t, name, s, true, k, fuel) == PipePlan(t, name, t.pipes[name], s, true, k, fuel - 1);
    PipeQuiet(t, name, t.pipes[name], s, k, fuel - 1);
  }

  lemma ConcatActQuiet(t: F.Tables, name: string, s: Streams, k: nat, fuel: nat)
    requires fuel > 0 && F.Resolve(t, name, F.FullOrder) == Some(F.ConcatKind)
    ensures AllQuiet(Act(t, name, s, true, k, fuel).launches)
    decreases fuel, 0, 0
  {
    assert Act(t, name, s, true, k, fuel) == Parts(t, t.concats[name], s, true, k, fuel - 1);
    PartsQuiet(t, t.concats[name], s, k, fuel - 1);
  }

  lemma CaptureActQuiet(t: F.Tables, name: string, s: Streams, k: nat, fuel: nat)
    requires fuel > 0 && F.Resolve(t, name, F.FullOrder) == Some(F.CaptureKind)
    ensures AllQuiet(Act(t, name, s, true, k, fuel).launches)
    decreases fuel, 0, 0
  {
    assert Act(t, name, s, true, k, fuel) == CapturePlan(t, t.captures[name], s, true, k, fuel - 1);
    CaptureQuiet(t, t.captures[name], s, true, k, fuel - 1);
  }

  lemma {:induction false} PipeQuiet(t: F.Tables, name: string, x: F.Pipe, s: Streams, k: nat, fuel: nat)
    ensures AllQuiet(PipePlan(t, name, x, s, true, k, fuel).launches)
    decreases fuel, 1
  {
    if x.from in t.files && x.to in t.files {
    } else if x.from in t.files {
      SuppressReachesLeaves(t, x.to, s.(input := FileRead(t.files[x.from])), k, fuel);
    } else if x.to in t.files {
      SuppressReachesLeaves(t, x.from, s.(output := FileWrite(t.files[x.to])), k, fuel);
    } else {
      var from := Act(t, x.from, s.(output := PipeWrite(k)), true, k + 1, fuel);
      var to := Act(t, x.to, s.(input := PipeRead(k)), true, from.pipes, fuel);
      SuppressReachesLeaves(t, x.from, s.(output := PipeWrite(k)), k + 1, fuel);
      SuppressReachesLeaves(t, x.to, s.(input := PipeRead(k)), from.pipes, fuel);
      AllQuietAppend(from.launches, to.launches);
    }
  }

  lemma {:induction false} PartsQuiet(t: F.Tables, ps: seq<string>, s: Streams, k: nat, fuel: nat)
    ensures AllQuiet(Parts(t, ps, s, true, k, fuel).launches)
    decreases fuel, 1, |ps|
  {
    if |ps| > 0 {
      var first := Act(t, ps[0], s, true, k, fuel);
      SuppressReachesLeaves(t, ps[0], s, k, fuel);
      if first.fault.None? {
        PartsQuiet(t, ps[1..], s, first.pipes, fuel);
        AllQuietAppend(first.launches, Parts(t, ps[1..], s, true, first.pipes, fuel).launches);
      }
    }
  }

  /**
   * Every program a stderr capture starts before its final `cat` runs inside
   * the capture, and its failure is never reported, whatever its status.
   */
  lemma CapturedFailuresSilent(t: F.Tables, name: string, s: Streams, suppress: bool, k: nat, fuel: nat, j: nat, status: Status)
    requires fuel >= 1 && F.Resolve(t, name, F.FullOrder) == Some(CaptureKind)
    requires j + 1 < |Act(t, name, s, suppress, k, fuel).launches|
    ensures ReportMix4(status, Act(t, name, s, suppress, k, fuel).launches[j].quiet).None?
  {
    CaptureInnerQuiet(t, name, s, suppress, k, fuel);
  }

  /** Every launch but the last is quiet. */
  predicate QuietButLast(ls: seq<Launch>)
  {
    forall j :: 0 <= j < |ls| - 1 ==> ls[j].quiet
  }

  lemma CaptureInnerQuiet(t: F.Tables, name: string, s: Streams, suppress: bool, k: nat, fuel: nat)
    requires fuel >= 1 && F.Resolve(t, name, F.FullOrder) == Some(CaptureKind)
    ensures QuietButLast(Act(t, name, s, suppress, k, fuel).launches)
  {
    assert Act(t, name, s, suppress, k, fuel) == CapturePlan(t, t.captures[name], s, suppress, k, fuel - 1);
    CaptureQuiet(t, t.captures[name], s, suppress, k, fuel - 1);
  }

  /** Everything the captured action starts is quiet; only the final `cat` carries the caller's flag. */
  lemma {:induction false} CaptureQuiet(t: F.Tables, inner: string, s: Streams, suppress: bool, k: nat, fuel: nat)
    ensures QuietButLast(CapturePlan(t, inner, s, suppress, k, fuel).launches)
    ensures suppress ==> AllQuiet(CapturePlan(t, inner, s, suppress, k, fuel).launches)
    decreases fuel, 1
  {
    var i := Act(t, inner, Streams(s.input, PipeWrite(k), PipeWrite(k)), true, k + 1, fuel);
    SuppressReachesLeaves(t, inner, Streams(s.input, PipeWrite(k), PipeWrite(k)), k + 1, fuel);
    QuietBeforeLast(i.launches, Command(CatArgv, s.(input := PipeRead(k)), suppress));
  }

  lemma QuietBeforeLast(inner: seq<Launch>, last: Launch)
    requires AllQuiet(inner)
    ensures QuietButLast(inner + [last])
    ensures last.quiet ==> AllQuiet(inner + [last])
  {
    var ls := inner + [last];
    assert forall j :: 0 <= j < |inner| ==> ls[j] == inner[j];
  }

  /** At the top level a node runs on the terminal and its failures are reported. */
  lemma TopLevelNode(lines: seq<string>, action: string, fuel: nat)
    requires fuel >= 1 && SP.Parse(SP.Mix2, lines).Ok? && IsNode(SP.Parse(SP.Mix2, lines).value, action)
    ensures Run(lines, action, fuel)
         == Ok(Plan([Launch(SP.Parse(SP.Mix2, lines).value.nodes[action], Stdin, Stdout, Stderr, false)], 0, None))
  {
  }
}
