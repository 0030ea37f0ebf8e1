// The top level of the lenient programs: which action the target names in
// flow2.cpp (228-237), flow.cpp (223-229), flow4.cpp (358-367), flow5.cpp
// (269-276), flow6.cpp (267-274) and src/flow3.cpp (217-222), and the
// processes flow2.cpp's `execute_pipe` (155-187) and `execute_concatenation`
// (190-203) start.

module LenientMain {
  import opened Wrappers
  import opened Process
  import opened Flow
  import LP = LenientParser

  datatype Program = Flow2 | FlowCpp | Flow4 | Flow5 | Flow6 | SrcFlow3

  function DialectOf(p: Program): LP.Dialect
  {
    match p
    case Flow2 => LP.Flow2
    case FlowCpp => LP.FlowCpp
    case Flow4 => LP.Flow4
    case _ => LP.Flow5
  }

  /** flow2, flow.cpp and flow4 try a pipe, then a concatenation; the others run pipes only. */
  function OrderOf(p: Program): seq<Kind>
  {
    if p == Flow2 || p == FlowCpp || p == Flow4 then PipeThenConcat else PipeOnly
  }

  /** What `main` does after reading the file. */
  datatype Outcome =
    | ParseFailed(error: LP.ParseError)
    | UnknownTarget
    | Chosen(kind: Kind)

  /** The process exit status `main` gives an unknown target. */
  const ExitUnknown := 1

  function Main(p: Program, lines: seq<string>, target: string): (o: Outcome)
    ensures o.Chosen? ==> o.kind in OrderOf(p)
    ensures o.Chosen? ==> LP.Parse(DialectOf(p), lines).Ok? && Defines(LP.Parse(DialectOf(p), lines).value, o.kind, target)
  {
    match LP.Parse(DialectOf(p), lines)
    case Err(e) => ParseFailed(e)
    case Ok(t) =>
      match Resolve(t, target, OrderOf(p))
      case None => UnknownTarget
      case Some(k) => Chosen(k)
  }

  /** A pipe name is always run as the pipe, in every lenient program. */
  lemma PipeFirst(p: Program, lines: seq<string>, target: string)
    requires LP.Parse(DialectOf(p), lines).Ok? && target in LP.Parse(DialectOf(p), lines).value.pipes
    ensures Main(p, lines, target) == Chosen(PipeKind)
  {
    var t := LP.Parse(DialectOf(p), lines).value;
    ResolveFirst(t, target, OrderOf(p), 0);
  }

  /** A concatenation that is not also a pipe runs in flow2, flow.cpp and flow4. */
  lemma ConcatSecond(p: Program, lines: seq<string>, target: string)
    requires p == Flow2 || p == FlowCpp || p == Flow4
    requires LP.Parse(DialectOf(p), lines).Ok?
    requires target !in LP.Parse(DialectOf(p), lines).value.pipes && target in LP.Parse(DialectOf(p), lines).value.concats
    ensures Main(p, lines, target) == Chosen(ConcatKind)
  {
    var t := LP.Parse(DialectOf(p), lines).value;
    ResolveFirst(t, target, PipeThenConcat, 1);
  }

  /** flow5, flow6 and src/flow3 reject every target that is not a pipe, nodes included. */
  lemma PipesOnly(p: Program, lines: seq<string>, target: string)
    requires p == Flow5 || p == Flow6 || p == SrcFlow3
    requires LP.Parse(DialectOf(p), lines).Ok?
    ensures Main(p, lines, target) == UnknownTarget <==> target !in LP.Parse(DialectOf(p), lines).value.pipes
  {
  }

  /** In any lenient program the target is unknown exactly when no table tried holds it. */
  lemma UnknownIff(p: Program, lines: seq<string>, target: string)
    requires LP.Parse(DialectOf(p), lines).Ok?
    ensures Main(p, lines, target) == UnknownTarget <==>
      target !in LP.Parse(DialectOf(p), lines).value.pipes
      && (ConcatKind in OrderOf(p) ==> target !in LP.Parse(DialectOf(p), lines).value.concats)
  {
    var t := LP.Parse(DialectOf(p), lines).value;
    if target !in t.pipes && (ConcatKind in OrderOf(p) ==> target !in t.concats) {
      assert forall j :: 0 <= j < |OrderOf(p)| ==> !Defines(t, OrderOf(p)[j], target);
    }
  }

  // ---------------------------------------------------------------
  // flow2.cpp: the processes a target starts
  // ---------------------------------------------------------------

  /** Launches in start order and the number of pipes created. */
  datatype Spawned = Spawned(launches: seq<Launch>, pipes: nat)

  /** `nodes[name]`: a missing node is inserted empty, so its `execvp` fails. */
  function Argv(t: Tables, name: string): seq<string>
  {
    if name in t.nodes then t.nodes[name] else []
  }

  /** `execute_pipe`, creating pipe `k`: `from` writes it, `to` reads it. */
  function PipeLaunches(t: Tables, x: Pipe, k: nat): seq<Launch>
  {
    [Launch(Argv(t, x.from), Stdin, PipeWrite(k), Stderr, true),
     Launch(Argv(t, x.to), PipeRead(k), Stdout, Stderr, true)]
  }

  /** One part of a concatenation: tried as a pipe, then as a node, else skipped. */
  function Part(t: Tables, part: string, k: nat): (s: Spawned)
    ensures s.pipes == k || s.pipes == k + 1
  {
    if part in t.pipes then Spawned(PipeLaunches(t, t.pipes[part], k), k + 1)
    else if part in t.nodes then Spawned([Launch(t.nodes[part], Stdin, Stdout, Stderr, true)], k)
    else Spawned([], k)
  }

  /** `execute_concatenation`: the parts one after the other, each waited for. */
  function ConcatPlan(t: Tables, parts: seq<string>): (s: Spawned)
    ensures s.pipes <= |parts|
    decreases |parts|
  {
    if |parts| == 0 then Spawned([], 0)
    else
      var s := ConcatPlan(t, parts[..|parts| - 1]);
      var p := Part(t, parts[|parts| - 1], s.pipes);
      Spawned(s.launches + p.launches, p.pipes)
  }

  /** The processes flow2.cpp starts for a target, or why it starts none. */
  function Flow2Run(lines: seq<string>, target: string): Result<Spawned, Outcome>
  {
    match LP.Parse(LP.Flow2, lines)
    case Err(e) => Err(ParseFailed(e))
    case Ok(t) =>
      if target in t.pipes then Ok(Spawned(PipeLaunches(t, t.pipes[target], 0), 1))
      else if target in t.concats then Ok(ConcatPlan(t, t.concats[target]))
      else Err(UnknownTarget)
  }

  /** The part loop, proved to compute `ConcatPlan`. */
  method ExecuteConcatenation(t: Tables, parts: seq<string>) returns (s: Spawned)
    ensures s == ConcatPlan(t, parts)
  {
    s := Spawned([], 0);
    var i := 0;
    while i < |parts|
      invariant 0 <= i <= |parts|
      invariant s == ConcatPlan(t, parts[..i])
    {
      assert parts[..i + 1][..i] == parts[..i];
      var part := parts[i];
      if part in t.pipes {
        s := Spawned(s.launches + PipeLaunches(t, t.pipes[part], s.pipes), s.pipes + 1);
      } else if part in t.nodes {
        s := Spawned(s.launches + [Launch(t.nodes[part], Stdin, Stdout, Stderr, true)], s.pipes);
      }
      i := i + 1;
    }
    assert parts[..i] == parts;
  }

  /** flow2's main agrees with the lenient dispatch on which action runs. */
  lemma Flow2RunsChosen(lines: seq<string>, target: string)
    ensures Flow2Run(lines, target).Err? <==> !Main(Flow2, lines, target).Chosen?
    ensures Flow2Run(lines, target).Err? ==> Flow2Run(lines, target).error == Main(Flow2, lines, target)
  {
    if LP.Parse(LP.Flow2, lines).Ok? {
      var t := LP.Parse(LP.Flow2, lines).value;
      if target in t.pipes {
        PipeFirst(Flow2, lines, target);
      } else if target in t.concats {
        ConcatSecond(Flow2, lines, target);
      } else {
        UnknownIff(Flow2, lines, target);
      }
    }
  }

  /** A part that is both a pipe and a node runs as the pipe. */
  lemma PipePartFirst(t: Tables, part: string, k: nat)
    requires part in t.pipes && part in t.nodes
    ensures Part(t, part, k).launches == PipeLaunches(t, t.pipes[part], k)
  {
  }

  /** A part that is neither a pipe nor a node leaves the rest of the concatenation as it was. */
  lemma {:induction false} SkipsUnknown(t: Tables, before: seq<string>, part: string, after: seq<string>)
    requires part !in t.pipes && part !in t.nodes
    ensures ConcatPlan(t, before + [part] + after) == ConcatPlan(t, before + after)
    decreases |after|
  {
    var all := before + [part] + after;
    if |after| == 0 {
      assert all[..|all| - 1] == before;
      assert before + after == before;
    } else {
      var init := after[..|after| - 1];
      SkipsUnknown(t, before, part, init);
      assert all[..|all| - 1] == before + [part] + init;
      assert (before + after)[..|before + after| - 1] == before + init;
      assert all[|all| - 1] == (before + after)[|before + after| - 1];
    }
  }

  predicate AllNodes(t: Tables, parts: seq<string>)
  {
    forall j :: 0 <= j < |parts| ==> parts[j] !in t.pipes && parts[j] in t.nodes
  }

  /** A concatenation of nodes runs every part in order, on the terminal, with no pipe. */
  lemma {:induction false} ConcatOfNodes(t: Tables, parts: seq<string>)
    requires AllNodes(t, parts)
    ensures ConcatPlan(t, parts).pipes == 0
    ensures |ConcatPlan(t, parts).launches| == |parts|
    ensures forall j :: 0 <= j < |parts| ==>
      ConcatPlan(t, parts).launches[j] == Launch(t.nodes[parts[j]], Stdin, Stdout, Stderr, true)
    decreases |parts|
  {
    if |parts| > 0 {
      var init := parts[..|parts| - 1];
      assert AllNodes(t, init) by {
        assert forall j :: 0 <= j < |init| ==> init[j] == parts[j];
      }
      ConcatOfNodes(t, init);
    }
  }

  /** Each pipe part gets a pipe of its own: pipes are numbered in the order the parts run. */
  lemma {:induction false} PipesNumbered(t: Tables, parts: seq<string>, j: nat)
    requires j < |parts| && parts[j] in t.pipes
    ensures ConcatPlan(t, parts[..j]).pipes < ConcatPlan(t, parts[..j + 1]).pipes
    ensures ConcatPlan(t, parts[..j + 1]).launches
         == ConcatPlan(t, parts[..j]).launches + PipeLaunches(t, t.pipes[parts[j]], ConcatPlan(t, parts[..j]).pipes)
  {
    assert parts[..j + 1][..j] == parts[..j];
  }
}
