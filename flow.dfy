// The data every flow program reads: node, pipe, concatenation, stderr
// capture and file records, kept in name-indexed tables, and the priority
// order in which a name is looked up in them.  The record printer is the
// reference every parser is checked against: printing well-formed records
// and parsing the lines back gives the tables the records describe.

module Flow {
  import opened Wrappers
  import opened Text

  datatype Pipe = Pipe(from: string, to: string)

  /** The tables a flow file fills; a later record with the same name replaces an earlier one. */
  datatype Tables = Tables(
    nodes: map<string, seq<string>>,
    pipes: map<string, Pipe>,
    concats: map<string, seq<string>>,
    captures: map<string, string>,
    files: map<string, string>)

  const Empty := Tables(map[], map[], map[], map[], map[])

  /** One record of a flow file, as its author means it. */
  datatype Record =
    | NodeRec(name: string, argv: seq<string>)
    | PipeRec(name: string, from: string, to: string)
    | ConcatRec(name: string, parts: seq<string>)
    | CaptureRec(name: string, source: string)
    | FileRec(name: string, path: string)
    | Blank
    | Other(text: string)

  /** Which record kinds a program stores; nodes and pipes are always stored. */
  datatype Kinds = Kinds(concat: bool, captureAndFile: bool)

  /** The effect of one record on the tables. */
  function Apply(k: Kinds, t: Tables, r: Record): Tables
  {
    match r
    case NodeRec(n, a) => t.(nodes := t.nodes[n := a])
    case PipeRec(n, f, to) => t.(pipes := t.pipes[n := Pipe(f, to)])
    case ConcatRec(n, ps) => if k.concat then t.(concats := t.concats[n := ps]) else t
    case CaptureRec(n, f) => if k.captureAndFile then t.(captures := t.captures[n := f]) else t
    case FileRec(n, p) => if k.captureAndFile then t.(files := t.files[n := p]) else t
    case Blank => t
    case Other(_) => t
  }

  /** The tables after the records `rs`, in order, starting from `t`. */
  function Fill(k: Kinds, t: Tables, rs: seq<Record>): Tables
    decreases |rs|
  {
    if |rs| == 0 then t else Fill(k, Apply(k, t, rs[0]), rs[1..])
  }

  function Build(k: Kinds, rs: seq<Record>): Tables
  {
    Fill(k, Empty, rs)
  }

  lemma {:induction false} FillSnoc(k: Kinds, t: Tables, rs: seq<Record>, r: Record)
    ensures Fill(k, t, rs + [r]) == Apply(k, Fill(k, t, rs), r)
    decreases |rs|
  {
    if |rs| == 0 {
      assert rs + [r] == [r];
    } else {
      assert (rs + [r])[1..] == rs[1..] + [r];
      FillSnoc(k, Apply(k, t, rs[0]), rs[1..], r);
    }
  }

  /** The last node record with a given name decides that node's command. */
  lemma LaterNodeWins(k: Kinds, rs: seq<Record>, n: string, a: seq<string>)
    ensures n in Build(k, rs + [NodeRec(n, a)]).nodes
    ensures Build(k, rs + [NodeRec(n, a)]).nodes[n] == a
  {
    FillSnoc(k, Empty, rs, NodeRec(n, a));
  }

  /** The last pipe record with a given name decides that pipe's ends. */
  lemma LaterPipeWins(k: Kinds, rs: seq<Record>, n: string, f: string, to: string)
    ensures n in Build(k, rs + [PipeRec(n, f, to)]).pipes
    ensures Build(k, rs + [PipeRec(n, f, to)]).pipes[n] == Pipe(f, to)
  {
    FillSnoc(k, Empty, rs, PipeRec(n, f, to));
  }

  /** What reading one record leaves: a fatal error, or the lines it took and the new tables. */
  datatype Next<E> = Fail(error: E) | Go(taken: nat, tables: Tables)

  /** A record takes at least its header line and no more lines than remain. */
  predicate Takes<E>(n: Next<E>, ls: seq<string>)
  {
    n.Go? ==> 1 <= n.taken <= |ls|
  }

  // ---------------------------------------------------------------
  // The printer
  // ---------------------------------------------------------------

  /** `part_<i>=`: the exact prefix the strict parsers demand of part `i`. */
  function PartPrefix(i: nat): string
  {
    "part_" + NatToString(i) + "="
  }

  function PartLines(ps: seq<string>, i: nat): (r: seq<string>)
    ensures |r| == |ps|
    decreases |ps|
  {
    if |ps| == 0 then [] else [PartPrefix(i) + ps[0]] + PartLines(ps[1..], i + 1)
  }

  lemma {:induction false} PartLineAt(ps: seq<string>, i: nat, j: nat)
    requires j < |ps|
    ensures PartLines(ps, i)[j] == PartPrefix(i + j) + ps[j]
    decreases j
  {
    if j > 0 {
      PartLineAt(ps[1..], i + 1, j - 1);
    }
  }

  /** The text after the first `=` of a part line is the part's name. */
  lemma PartValue(j: nat, p: string)
    ensures After(PartPrefix(j) + p, '=') == p
  {
    var key := "part_" + NatToString(j);
    forall k | 0 <= k < |key|
      ensures key[k] != '='
    {
      if k >= 5 {
        assert key[k] == NatToString(j)[k - 5];
      }
    }
    assert PartPrefix(j) + p == key + ['='] + p;
    AfterKey(key, '=', p);
  }

  /** The lines of one record in the flow-file format. */
  function Print(r: Record): seq<string>
  {
    match r
    case NodeRec(n, a) => ["node=" + n, "command=" + Join(a, " ")]
    case PipeRec(n, f, to) => ["pipe=" + n, "from=" + f, "to=" + to]
    case ConcatRec(n, ps) => ["concatenate=" + n, "parts=" + NatToString(|ps|)] + PartLines(ps, 0)
    case CaptureRec(n, f) => ["stderr=" + n, "from=" + f]
    case FileRec(n, p) => ["file=" + n, "name=" + p]
    case Blank => [""]
    case Other(text) => [text]
  }

  /** Where the lines of a printed concatenation sit among the lines that follow it. */
  lemma ConcatLayout(n: string, ps: seq<string>, rest: seq<string>, ls: seq<string>)
    requires ls == Print(ConcatRec(n, ps)) + rest
    ensures |ls| == 2 + |ps| + |rest|
    ensures ls[0] == "concatenate=" + n && ls[1] == "parts=" + NatToString(|ps|)
    ensures ls[2..] == PartLines(ps, 0) + rest && ls[2 + |ps|..] == rest
  {
    HeaderLines("concatenate=" + n, "parts=" + NatToString(|ps|), PartLines(ps, 0), rest, ls);
  }

  lemma HeaderLines(a: string, b: string, body: seq<string>, rest: seq<string>, ls: seq<string>)
    requires ls == ([a, b] + body) + rest
    ensures |ls| == 2 + |body| + |rest| && ls[0] == a && ls[1] == b
    ensures ls[2..] == body + rest && ls[2 + |body|..] == rest
  {
    assert ls[2..] == body + rest;
    assert ls[2 + |body|..] == rest;
  }

  function Lines(rs: seq<Record>): seq<string>
    decreases |rs|
  {
    if |rs| == 0 then [] else Print(rs[0]) + Lines(rs[1..])
  }

  /** A line no program reads as part of a record. */
  predicate Free(text: string)
  {
    !StartsWith(text, "node") && !StartsWith(text, "pipe") && !StartsWith(text, "concatenate")
    && !StartsWith(text, "stderr") && !StartsWith(text, "file=") && !StartsWith(text, "command")
    && !StartsWith(text, "part")
  }

  /** A record whose lines read back as the record: plain command words, no header in a free line. */
  predicate Plain(r: Record)
  {
    match r
    case NodeRec(_, a) => PlainWords(a)
    case Other(text) => Free(text)
    case _ => true
  }

  predicate AllPlain(rs: seq<Record>)
  {
    forall i :: 0 <= i < |rs| ==> Plain(rs[i])
  }

  // ---------------------------------------------------------------
  // Lookup in priority order
  // ---------------------------------------------------------------

  datatype Kind = NodeKind | PipeKind | ConcatKind | CaptureKind | FileKind

  predicate Defines(t: Tables, k: Kind, name: string)
  {
    match k
    case NodeKind => name in t.nodes
    case PipeKind => name in t.pipes
    case ConcatKind => name in t.concats
    case CaptureKind => name in t.captures
    case FileKind => name in t.files
  }

  /**
   * The first kind in `order` whose table holds `name`: the `find(...) !=
   * end()` chains of the dispatch functions.  None means an unknown action.
   */
  function Resolve(t: Tables, name: string, order: seq<Kind>): (r: Option<Kind>)
    ensures r.Some? ==> r.value in order && Defines(t, r.value, name)
    ensures r.None? <==> forall j :: 0 <= j < |order| ==> !Defines(t, order[j], name)
    decreases |order|
  {
    if |order| == 0 then None
    else if Defines(t, order[0], name) then Some(order[0])
    else Resolve(t, name, order[1..])
  }

  /** Every kind tried before the chosen one lacks the name. */
  lemma {:induction false} ResolveFirst(t: Tables, name: string, order: seq<Kind>, i: nat)
    requires i < |order| && Defines(t, order[i], name)
    requires forall j :: 0 <= j < i ==> !Defines(t, order[j], name)
    ensures Resolve(t, name, order) == Some(order[i])
    decreases i
  {
    if i > 0 {
      ResolveFirst(t, name, order[1..], i - 1);
    }
  }

  /** src/mix2.cpp and src/mix4.cpp: node, pipe, concatenation, stderr capture, file node. */
  const FullOrder := [NodeKind, PipeKind, ConcatKind, CaptureKind, FileKind]
  /** src/mix.cpp: node, pipe, concatenation. */
  const MixOrder := [NodeKind, PipeKind, ConcatKind]
  /** flow7.1.cpp: pipe, then node. */
  const PipeThenNode := [PipeKind, NodeKind]
  /** flow8.cpp: concatenation, then node. */
  const ConcatThenNode := [ConcatKind, NodeKind]
  /** flow.cpp, flow2.cpp, flow4.cpp, src/flow.cpp: pipe, then concatenation. */
  const PipeThenConcat := [PipeKind, ConcatKind]
  /** flow5.cpp, flow6.cpp, src/flow3.cpp: pipes only. */
  const PipeOnly := [PipeKind]

  /** A name that is both a node and a pipe runs as the node in the mix family and as the pipe in flow7.1. */
  lemma NodeShadowsPipe(t: Tables, name: string)
    requires name in t.nodes && name in t.pipes
    ensures Resolve(t, name, FullOrder) == Some(NodeKind)
    ensures Resolve(t, name, MixOrder) == Some(NodeKind)
    ensures Resolve(t, name, PipeThenNode) == Some(PipeKind)
  {
  }

  /** In the full order a file node is chosen only when no other kind has the name. */
  lemma FileNodeLast(t: Tables, name: string)
    ensures Resolve(t, name, FullOrder) == Some(FileKind)
        <==> name in t.files && name !in t.nodes && name !in t.pipes
             && name !in t.concats && name !in t.captures
  {
    if name in t.files && name !in t.nodes && name !in t.pipes && name !in t.concats && name !in t.captures {
      ResolveFirst(t, name, FullOrder, 4);
    }
  }
}
