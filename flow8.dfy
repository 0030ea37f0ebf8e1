// flow8.cpp: a parser that remembers the pending node and the current
// concatenation from line to line (`parseFlowFile`, 35-79), the
// short-circuiting concatenation runner (`executeConcatenation`, 122-150)
// and `main`'s choice of action (155-189).  A node's command is kept as
// text and split into words when it runs (`executeNode`, 84-117); running
// it is an oracle from the argument vector to the status `waitpid` reports.

module Flow8 {
  import opened Wrappers
  import opened Text
  import opened Flow
  import W = Words

  /** The two global maps: node commands as text, concatenations as part lists. */
  datatype Maps = Maps(nodes: map<string, string>, concats: map<string, seq<string>>)

  /** The maps together with `currentNode` and `currentConcat`; "" means none. */
  datatype State = State(maps: Maps, node: string, concat: string)

  const Start := State(Maps(map[], map[]), "", "")

  datatype ParseError = CommandWithoutNode | PartWithoutConcatenation | PartWithoutEquals

  /** `concatenations[name].parts`, an empty list when `operator[]` has to create the entry. */
  function PartsOf(m: map<string, seq<string>>, name: string): seq<string>
  {
    if name in m then m[name] else []
  }

  /** One line of the parse loop. */
  function Step(s: State, line: string): Result<State, ParseError>
  {
    if line == "" then Ok(s)
    else if StartsWith(line, "node=") then Ok(s.(node := line[5..]))
    else if StartsWith(line, "command=") then
      if s.node == "" then Err(CommandWithoutNode)
      else Ok(State(s.maps.(nodes := s.maps.nodes[s.node := line[8..]]), "", s.concat))
    else if StartsWith(line, "concatenate=") then
      Ok(State(s.maps.(concats := s.maps.concats[line[12..] := []]), s.node, line[12..]))
    else if StartsWith(line, "parts=") then Ok(s)
    else if StartsWith(line, "part_") then
      if s.concat == "" then Err(PartWithoutConcatenation)
      else if Find(line, '=').None? then Err(PartWithoutEquals)
      else
        var ps := PartsOf(s.maps.concats, s.concat) + [After(line, '=')];
        Ok(s.(maps := s.maps.(concats := s.maps.concats[s.concat := ps])))
    else Ok(s)
  }

  /** The loop from state `s` over the lines `ls`; the first error ends it. */
  function Run(s: State, ls: seq<string>): Result<State, ParseError>
    decreases |ls|
  {
    if |ls| == 0 then Ok(s)
    else
      match Step(s, ls[0])
      case Err(e) => Err(e)
      case Ok(s') => Run(s', ls[1..])
  }

  function Parse(lines: seq<string>): Result<Maps, ParseError>
  {
    match Run(Start, lines)
    case Err(e) => Err(e)
    case Ok(s) => Ok(s.maps)
  }

  /** `parseFlowFile` after the file is open. */
  method ParseFlowFile(lines: seq<string>) returns (r: Result<Maps, ParseError>)
    ensures r == Parse(lines)
  {
    var nodes: map<string, string> := map[];
    var concats: map<string, seq<string>> := map[];
    var currentNode := "";
    var currentConcat := "";
    var i := 0;
    assert lines[i..] == lines;
    while i < |lines|
      invariant 0 <= i <= |lines|
      invariant Run(State(Maps(nodes, concats), currentNode, currentConcat), lines[i..]) == Run(Start, lines)
    {
      var next := ReadLine(nodes, concats, currentNode, currentConcat, lines[i]);
      RunCons(State(Maps(nodes, concats), currentNode, currentConcat), lines, i);
      if next.Err? {
        return Err(next.error);
      }
      nodes, concats := next.value.maps.nodes, next.value.maps.concats;
      currentNode, currentConcat := next.value.node, next.value.concat;
      i := i + 1;
    }
    assert lines[i..] == [];
    return Ok(Maps(nodes, concats));
  }

  /** The body of the loop of `parseFlowFile`, proved to compute `Step`. */
  method ReadLine(nodes: map<string, string>, concats: map<string, seq<string>>, currentNode: string,
      currentConcat: string, line: string) returns (r: Result<State, ParseError>)
    ensures r == Step(State(Maps(nodes, concats), currentNode, currentConcat), line)
  {
    if line == "" {
    } else if StartsWith(line, "node=") {
      return Ok(State(Maps(nodes, concats), line[5..], currentConcat));
    } else if StartsWith(line, "command=") {
      if currentNode == "" {
        return Err(CommandWithoutNode);
      }
      return Ok(State(Maps(nodes[currentNode := line[8..]], concats), "", currentConcat));
    } else if StartsWith(line, "concatenate=") {
      return Ok(State(Maps(nodes, concats[line[12..] := []]), currentNode, line[12..]));
    } else if StartsWith(line, "parts=") {
    } else if StartsWith(line, "part_") {
      if currentConcat == "" {
        return Err(PartWithoutConcatenation);
      }
      var pos := Find(line, '=');
      if pos.None? {
        return Err(PartWithoutEquals);
      }
      var parts := if currentConcat in concats then concats[currentConcat] else [];
      return Ok(State(Maps(nodes, concats[currentConcat := parts + [line[pos.value + 1..]]]), currentNode, currentConcat));
    }
    return Ok(State(Maps(nodes, concats), currentNode, currentConcat));
  }

  lemma RunCons(s: State, lines: seq<string>, i: nat)
    requires i < |lines|
    ensures Step(s, lines[i]).Err? ==> Run(s, lines[i..]) == Err(Step(s, lines[i]).error)
    ensures Step(s, lines[i]).Ok? ==> Run(s, lines[i..]) == Run(Step(s, lines[i]).value, lines[i + 1..])
  {
    assert lines[i..][1..] == lines[i + 1..];
  }

  // ---------------------------------------------------------------
  // What one line does
  // ---------------------------------------------------------------

  /** A `command=` line with no pending node ends the parse. */
  lemma CommandNeedsNode(s: State, c: string, rest: seq<string>)
    requires s.node == ""
    ensures Run(s, ["command=" + c] + rest) == Err(CommandWithoutNode)
  {
    StartsWithConcat("command=", c);
    NotStartsWith("command=" + c, "node=", 0);
  }

  /** Otherwise the command is bound to the pending node, which is then cleared. */
  lemma CommandBindsNode(s: State, c: string, rest: seq<string>)
    requires s.node != ""
    ensures Run(s, ["command=" + c] + rest)
         == Run(State(s.maps.(nodes := s.maps.nodes[s.node := c]), "", s.concat), rest)
  {
    StartsWithConcat("command=", c);
    NotStartsWith("command=" + c, "node=", 0);
    assert (["command=" + c] + rest)[1..] == rest;
  }

  /** `concatenate=` starts an empty part list, replacing any earlier one, and makes it current. */
  lemma ConcatenateResets(s: State, n: string, rest: seq<string>)
    ensures Run(s, ["concatenate=" + n] + rest)
         == Run(State(s.maps.(concats := s.maps.concats[n := []]), s.node, n), rest)
  {
    StartsWithConcat("concatenate=", n);
    NotStartsWith("concatenate=" + n, "node=", 0);
    NotStartsWith("concatenate=" + n, "command=", 2);
    assert (["concatenate=" + n] + rest)[1..] == rest;
  }

  /** The count line is ignored: the part list grows with the part lines. */
  lemma CountIgnored(s: State, c: string, rest: seq<string>)
    ensures Run(s, ["parts=" + c] + rest) == Run(s, rest)
  {
    StartsWithConcat("parts=", c);
    NotStartsWith("parts=" + c, "node=", 0);
    NotStartsWith("parts=" + c, "command=", 0);
    NotStartsWith("parts=" + c, "concatenate=", 0);
    assert (["parts=" + c] + rest)[1..] == rest;
  }

  /**
   * A part line appends the text after its first `=` to the current
   * concatenation; with no current concatenation, or no `=`, the parse fails.
   */
  lemma PartLine(s: State, tail: string, rest: seq<string>)
    ensures var line := "part_" + tail;
      Run(s, [line] + rest)
        == if s.concat == "" then Err(PartWithoutConcatenation)
           else if HasNo(line, '=') then Err(PartWithoutEquals)
           else Run(s.(maps := s.maps.(concats := s.maps.concats[s.concat := PartsOf(s.maps.concats, s.concat) + [After(line, '=')]])), rest)
  {
    var line := "part_" + tail;
    StartsWithConcat("part_", tail);
    NotStartsWith(line, "node=", 1);
    NotStartsWith(line, "command=", 0);
    NotStartsWith(line, "concatenate=", 0);
    NotStartsWith(line, "parts=", 4);
    if Find(line, '=').Some? {
      assert !HasNo(line, '=');
    }
    assert ([line] + rest)[1..] == rest;
  }

  // ---------------------------------------------------------------
  // Printed records read back
  // ---------------------------------------------------------------

  /** A node or concatenation record with an empty name cannot be read back. */
  predicate Named(r: Record)
  {
    match r
    case NodeRec(n, _) => n != ""
    case ConcatRec(n, _) => n != ""
    case Other(text) => Free(text)
    case _ => true
  }

  predicate AllNamed(rs: seq<Record>)
  {
    forall i :: 0 <= i < |rs| ==> Named(rs[i])
  }

  /** flow8.cpp stores node commands as text. */
  function Commands(nodes: map<string, seq<string>>): map<string, string>
  {
    map n | n in nodes :: Join(nodes[n], " ")
  }

  /** The parser state after reading one printed record with no node pending. */
  function After8(s: State, r: Record): State
  {
    match r
    case NodeRec(n, a) => s.(maps := s.maps.(nodes := s.maps.nodes[n := Join(a, " ")]))
    case ConcatRec(n, ps) => State(s.maps.(concats := s.maps.concats[n := ps]), s.node, n)
    case _ => s
  }

  /** The current concatenation with `ps` appended. */
  function AddParts(s: State, ps: seq<string>): State
    requires s.concat in s.maps.concats
  {
    s.(maps := s.maps.(concats := s.maps.concats[s.concat := s.maps.concats[s.concat] + ps]))
  }

  lemma AddPartsTwice(s: State, p: string, ps: seq<string>)
    requires s.concat in s.maps.concats
    ensures AddParts(AddParts(s, [p]), ps) == AddParts(s, [p] + ps)
  {
    assert s.maps.concats[s.concat] + [p] + ps == s.maps.concats[s.concat] + ([p] + ps);
  }

  lemma {:induction false} ReadPartsBack(s: State, ps: seq<string>, j: nat, rest: seq<string>)
    requires s.concat != "" && s.concat in s.maps.concats
    ensures Run(s, PartLines(ps, j) + rest) == Run(AddParts(s, ps), rest)
    decreases |ps|
  {
    if |ps| == 0 {
      assert PartLines(ps, j) + rest == rest;
      assert s.maps.concats[s.concat] + ps == s.maps.concats[s.concat];
      assert s.maps.concats[s.concat := s.maps.concats[s.concat]] == s.maps.concats;
      assert AddParts(s, ps) == s;
    } else {
      assert PartLines(ps, j) + rest == [PartPrefix(j) + ps[0]] + (PartLines(ps[1..], j + 1) + rest);
      OnePartBack(s, j, ps[0], PartLines(ps[1..], j + 1) + rest);
      ReadPartsBack(AddParts(s, [ps[0]]), ps[1..], j + 1, rest);
      AddPartsTwice(s, ps[0], ps[1..]);
      assert [ps[0]] + ps[1..] == ps;
    }
  }

  lemma OnePartBack(s: State, j: nat, p: string, rest: seq<string>)
    requires s.concat != "" && s.concat in s.maps.concats
    ensures Run(s, [PartPrefix(j) + p] + rest) == Run(AddParts(s, [p]), rest)
  {
    var tail := NatToString(j) + "=" + p;
    assert PartPrefix(j) + p == "part_" + tail;
    PartValue(j, p);
    assert !HasNo("part_" + tail, '=') by {
      assert ("part_" + tail)[5 + |NatToString(j)|] == '=';
    }
    PartLine(s, tail, rest);
  }

  /** A line that starts with no key flow8.cpp reads leaves the state alone. */
  lemma Ignored(s: State, line: string, rest: seq<string>)
    requires !StartsWith(line, "node=") && !StartsWith(line, "command=") && !StartsWith(line, "concatenate=")
    requires !StartsWith(line, "parts=") && !StartsWith(line, "part_")
    ensures Run(s, [line] + rest) == Run(s, rest)
  {
    assert ([line] + rest)[1..] == rest;
  }

  /** Pipe, stderr-capture and file lines, which begin with other letters. */
  lemma IgnoredByLetter(s: State, line: string, rest: seq<string>)
    requires |line| > 1 && line[0] != 'n' && line[0] != 'c' && (line[0] == 'p' ==> line[1] != 'a')
    ensures Run(s, [line] + rest) == Run(s, rest)
  {
    NotStartsWith(line, "node=", 0);
    NotStartsWith(line, "command=", 0);
    NotStartsWith(line, "concatenate=", 0);
    if line[0] == 'p' {
      NotStartsWith(line, "parts=", 1);
      NotStartsWith(line, "part_", 1);
    } else {
      NotStartsWith(line, "parts=", 0);
      NotStartsWith(line, "part_", 0);
    }
    Ignored(s, line, rest);
  }

  lemma ReadNodeBack(s: State, n: string, a: seq<string>, rest: seq<string>)
    requires s.node == "" && n != ""
    ensures Run(s, Print(NodeRec(n, a)) + rest) == Run(After8(s, NodeRec(n, a)), rest)
  {
    var ls := Print(NodeRec(n, a)) + rest;
    StartsWithConcat("node=", n);
    assert ls[0] == "node=" + n && ls[1..] == ["command=" + Join(a, " ")] + rest;
    CommandBindsNode(s.(node := n), Join(a, " "), rest);
  }

  lemma ReadConcatBack(s: State, n: string, ps: seq<string>, rest: seq<string>)
    requires n != ""
    ensures Run(s, Print(ConcatRec(n, ps)) + rest) == Run(After8(s, ConcatRec(n, ps)), rest)
  {
    var a, b, body := "concatenate=" + n, "parts=" + NatToString(|ps|), PartLines(ps, 0);
    var s1 := State(s.maps.(concats := s.maps.concats[n := []]), s.node, n);
    calc {
      Run(s, Print(ConcatRec(n, ps)) + rest);
      { assert Print(ConcatRec(n, ps)) == [a, b] + body; Unstack(a, b, body, rest); }
      Run(s, [a] + ([b] + (body + rest)));
      { ConcatenateResets(s, n, [b] + (body + rest)); }
      Run(s1, [b] + (body + rest));
      { CountIgnored(s1, NatToString(|ps|), body + rest); }
      Run(s1, body + rest);
      { ReadPartsBack(s1, ps, 0, rest); }
      Run(AddParts(s1, ps), rest);
      { assert s1.maps.concats[n] + ps == ps; assert AddParts(s1, ps) == After8(s, ConcatRec(n, ps)); }
      Run(After8(s, ConcatRec(n, ps)), rest);
    }
  }

  lemma Unstack(a: string, b: string, body: seq<string>, rest: seq<string>)
    ensures ([a, b] + body) + rest == [a] + ([b] + (body + rest))
  {
  }

  lemma ReadOtherBack(s: State, text: string, rest: seq<string>)
    requires Free(text)
    ensures Run(s, [text] + rest) == Run(s, rest)
  {
    assert "node" + "=" == "node=" && "command" + "=" == "command=";
    assert "concatenate" + "=" == "concatenate=" && "part" + "s=" == "parts=" && "part" + "_" == "part_";
    NotStartsWithLonger(text, "node", "=");
    NotStartsWithLonger(text, "command", "=");
    NotStartsWithLonger(text, "concatenate", "=");
    NotStartsWithLonger(text, "part", "s=");
    NotStartsWithLonger(text, "part", "_");
    Ignored(s, text, rest);
  }

  lemma ReadRecordBack(s: State, r: Record, rest: seq<string>)
    requires s.node == "" && Named(r)
    ensures Run(s, Print(r) + rest) == Run(After8(s, r), rest)
  {
    match r
    case NodeRec(n, a) => ReadNodeBack(s, n, a, rest);
    case PipeRec(n, f, to) =>
      assert Print(r) + rest == ["pipe=" + n] + (["from=" + f] + (["to=" + to] + rest));
      IgnoredByLetter(s, "pipe=" + n, ["from=" + f] + (["to=" + to] + rest));
      IgnoredByLetter(s, "from=" + f, ["to=" + to] + rest);
      IgnoredByLetter(s, "to=" + to, rest);
    case ConcatRec(n, ps) => ReadConcatBack(s, n, ps, rest);
    case CaptureRec(n, f) =>
      assert Print(r) + rest == ["stderr=" + n] + (["from=" + f] + rest);
      IgnoredByLetter(s, "stderr=" + n, ["from=" + f] + rest);
      IgnoredByLetter(s, "from=" + f, rest);
    case FileRec(n, path) =>
      assert Print(r) + rest == ["file=" + n] + (["name=" + path] + rest);
      IgnoredByLetter(s, "file=" + n, ["name=" + path] + rest);
      NotStartsWith("name=" + path, "node=", 1);
      NotStartsWith("name=" + path, "command=", 0);
      NotStartsWith("name=" + path, "concatenate=", 0);
      NotStartsWith("name=" + path, "parts=", 0);
      NotStartsWith("name=" + path, "part_", 0);
      Ignored(s, "name=" + path, rest);
    case Blank =>
      assert (Print(r) + rest)[1..] == rest;
    case Other(text) => ReadOtherBack(s, text, rest);
  }

  /** The parser state after a run of printed records. */
  function AfterAll(s: State, rs: seq<Record>): State
    decreases |rs|
  {
    if |rs| == 0 then s else AfterAll(After8(s, rs[0]), rs[1..])
  }

  lemma {:induction false} ReadLinesBack(s: State, rs: seq<Record>)
    requires s.node == "" && AllNamed(rs)
    ensures Run(s, Lines(rs)) == Ok(AfterAll(s, rs))
    decreases |rs|
  {
    if |rs| > 0 {
      assert Named(rs[0]);
      ReadRecordBack(s, rs[0], Lines(rs[1..]));
      ReadLinesBack(After8(s, rs[0]), rs[1..]);
    }
  }

  /** The maps of `AfterAll` are the printed records' tables, with commands as text. */
  lemma {:induction false} AfterAllMaps(s: State, t: Tables, rs: seq<Record>)
    requires s.maps == Maps(Commands(t.nodes), t.concats)
    ensures AfterAll(s, rs).maps == Maps(Commands(Fill(Kinds(true, false), t, rs).nodes), Fill(Kinds(true, false), t, rs).concats)
    decreases |rs|
  {
    if |rs| > 0 {
      var t1 := Apply(Kinds(true, false), t, rs[0]);
      var s1 := After8(s, rs[0]);
      if rs[0].NodeRec? {
        CommandsUpdate(t.nodes, rs[0].name, rs[0].argv);
      }
      assert s1.maps == Maps(Commands(t1.nodes), t1.concats);
      AfterAllMaps(s1, t1, rs[1..]);
    }
  }

  lemma CommandsUpdate(nodes: map<string, seq<string>>, n: string, a: seq<string>)
    ensures Commands(nodes[n := a]) == Commands(nodes)[n := Join(a, " ")]
  {
  }

  /**
   * Reading printed records gives the node commands, as text, and the
   * concatenations they describe; the other kinds are passed over.
   */
  lemma RoundTrip(rs: seq<Record>)
    requires AllNamed(rs)
    ensures var t := Build(Kinds(true, false), rs);
      Parse(Lines(rs)) == Ok(Maps(Commands(t.nodes), t.concats))
  {
    ReadLinesBack(Start, rs);
    assert Commands(Empty.nodes) == map[];
    AfterAllMaps(Start, Empty, rs);
  }

  /** The words of a stored plain command are the node's arguments. */
  lemma RunsStoredArgv(rs: seq<Record>, n: string)
    requires AllNamed(rs) && AllPlain(rs)
    requires n in Build(Kinds(true, false), rs).nodes
    ensures Parse(Lines(rs)).Ok? && n in Parse(Lines(rs)).value.nodes
    ensures W.Words(Parse(Lines(rs)).value.nodes[n]) == Build(Kinds(true, false), rs).nodes[n]
  {
    RoundTrip(rs);
    PlainNodes(Kinds(true, false), Empty, rs, n);
    W.PlainRoundTrip(Build(Kinds(true, false), rs).nodes[n]);
  }

  lemma {:induction false} PlainNodes(k: Kinds, t: Tables, rs: seq<Record>, n: string)
    requires AllPlain(rs) && (forall m :: m in t.nodes ==> PlainWords(t.nodes[m]))
    requires n in Fill(k, t, rs).nodes
    ensures PlainWords(Fill(k, t, rs).nodes[n])
    decreases |rs|
  {
    if |rs| == 0 {
    } else {
      assert Plain(rs[0]);
      var t1 := Apply(k, t, rs[0]);
      assert forall m :: m in t1.nodes ==> PlainWords(t1.nodes[m]);
      PlainNodes(k, t1, rs[1..], n);
    }
  }

  // ---------------------------------------------------------------
  // Running a concatenation
  // ---------------------------------------------------------------

  /**
   * What a run did: the status, and the argument vectors launched in order;
   * or a recursion deeper than the fuel allows, where flow8.cpp, which has no
   * cycle check, would exhaust its stack.
   */
  datatype Outcome = Ran(status: int, launched: seq<seq<string>>) | TooDeep

  /** Running `b` after `a`, unless `a` failed. */
  function Then(a: Outcome, b: Outcome): Outcome
  {
    match a
    case TooDeep => TooDeep
    case Ran(c, l) =>
      if c != 0 then a
      else match b
        case TooDeep => TooDeep
        case Ran(c2, l2) => Ran(c2, l + l2)
  }

  /** `executeNode` of a node that exists. */
  function Node(m: Maps, exec: seq<string> -> int, name: string): Outcome
    requires name in m.nodes
  {
    var argv := W.Words(m.nodes[name]);
    Ran(exec(argv), [argv])
  }

  /** `executeConcatenation(name)`; each nesting level costs one unit of fuel. */
  function Concat(m: Maps, exec: seq<string> -> int, name: string, fuel: nat): Outcome
    decreases fuel, 0
  {
    if name !in m.concats then Ran(-1, [])
    else if fuel == 0 then TooDeep
    else Parts(m, exec, m.concats[name], fuel - 1)
  }

  /** One part: a node first, then a nested concatenation, else an unknown part. */
  function Part(m: Maps, exec: seq<string> -> int, p: string, fuel: nat): Outcome
    decreases fuel, 1
  {
    if p in m.nodes then Node(m, exec, p)
    else if p in m.concats then Concat(m, exec, p, fuel)
    else Ran(-1, [])
  }

  /** The parts in order, stopping at the first non-zero status. */
  function Parts(m: Maps, exec: seq<string> -> int, ps: seq<string>, fuel: nat): Outcome
    decreases fuel, 2 + |ps|
  {
    if |ps| == 0 then Ran(0, []) else Then(Part(m, exec, ps[0], fuel), Parts(m, exec, ps[1..], fuel))
  }

  method ExecuteConcatenation(m: Maps, exec: seq<string> -> int, name: string, fuel: nat) returns (o: Outcome)
    ensures o == Concat(m, exec, name, fuel)
    decreases fuel
  {
    if name !in m.concats {
      return Ran(-1, []);
    }
    if fuel == 0 {
      return TooDeep;
    }
    var ps := m.concats[name];
    var launched: seq<seq<string>> := [];
    var i := 0;
    assert ps[i..] == ps;
    while i < |ps|
      invariant 0 <= i <= |ps|
      invariant Then(Ran(0, launched), Parts(m, exec, ps[i..], fuel - 1)) == Parts(m, exec, ps, fuel - 1)
    {
      var p := ps[i];
      PartsCons(m, exec, ps, i, fuel - 1);
      var r;
      if p in m.nodes {
        var argv := W.Split(m.nodes[p]);
        r := Ran(exec(argv), [argv]);
      } else if p in m.concats {
        r := ExecuteConcatenation(m, exec, p, fuel - 1);
      } else {
        r := Ran(-1, []);
      }
      assert r == Part(m, exec, p, fuel - 1);
      ThenStep(launched, r, Parts(m, exec, ps[i + 1..], fuel - 1), Parts(m, exec, ps, fuel - 1));
      if r.TooDeep? {
        return TooDeep;
      }
      if r.status != 0 {
        return Ran(r.status, launched + r.launched);
      }
      launched := launched + r.launched;
      i := i + 1;
    }
    ThenUnit(Ran(0, launched));
    return Ran(0, launched);
  }

  lemma PartsCons(m: Maps, exec: seq<string> -> int, ps: seq<string>, i: nat, fuel: nat)
    requires i < |ps|
    ensures Parts(m, exec, ps[i..], fuel) == Then(Part(m, exec, ps[i], fuel), Parts(m, exec, ps[i + 1..], fuel))
  {
    assert ps[i..][1..] == ps[i + 1..];
  }

  /** One part run after the ones before it: a failure ends the run, a success joins the launches. */
  lemma ThenStep(launched: seq<seq<string>>, r: Outcome, rest: Outcome, whole: Outcome)
    requires Then(Ran(0, launched), Then(r, rest)) == whole
    ensures r.TooDeep? ==> whole == TooDeep
    ensures r.Ran? && r.status != 0 ==> whole == Ran(r.status, launched + r.launched)
    ensures r.Ran? && r.status == 0 ==> Then(Ran(0, launched + r.launched), rest) == whole
  {
    ThenAssociative(Ran(0, launched), r, rest);
  }

  lemma ThenUnit(a: Outcome)
    ensures Then(Ran(0, []), a) == a
    ensures Then(a, Ran(0, [])) == a
  {
  }

  lemma ThenAssociative(a: Outcome, b: Outcome, c: Outcome)
    ensures Then(Then(a, b), c) == Then(a, Then(b, c))
  {
    if a.Ran? && a.status == 0 && b.Ran? && b.status == 0 && c.Ran? {
      assert a.launched + b.launched + c.launched == a.launched + (b.launched + c.launched);
    }
  }

  /** Running `ps + qs` is running `ps`, then `qs` unless `ps` failed. */
  lemma {:induction false} PartsAppend(m: Maps, exec: seq<string> -> int, ps: seq<string>, qs: seq<string>, fuel: nat)
    ensures Parts(m, exec, ps + qs, fuel) == Then(Parts(m, exec, ps, fuel), Parts(m, exec, qs, fuel))
    decreases |ps|
  {
    if |ps| == 0 {
      assert ps + qs == qs;
      ThenUnit(Parts(m, exec, qs, fuel));
    } else {
      assert (ps + qs)[0] == ps[0] && (ps + qs)[1..] == ps[1..] + qs;
      PartsAppend(m, exec, ps[1..], qs, fuel);
      ThenAssociative(Part(m, exec, ps[0], fuel), Parts(m, exec, ps[1..], fuel), Parts(m, exec, qs, fuel));
    }
  }

  /** The first failing part ends the run with its status: later parts are not started. */
  lemma FirstFailureStops(m: Maps, exec: seq<string> -> int, pre: seq<string>, p: string, post: seq<string>, fuel: nat)
    requires Parts(m, exec, pre, fuel).Ran? && Parts(m, exec, pre, fuel).status == 0
    requires Part(m, exec, p, fuel).Ran? && Part(m, exec, p, fuel).status != 0
    ensures Parts(m, exec, pre + [p] + post, fuel)
         == Ran(Part(m, exec, p, fuel).status, Parts(m, exec, pre, fuel).launched + Part(m, exec, p, fuel).launched)
  {
    PartsAppend(m, exec, pre + [p], post, fuel);
    PartsAppend(m, exec, pre, [p], fuel);
    ThenUnit(Part(m, exec, p, fuel));
  }

  /** Nodes that all succeed run in declaration order, and the concatenation succeeds. */
  lemma {:induction false} NodesInOrder(m: Maps, exec: seq<string> -> int, ps: seq<string>, fuel: nat)
    requires forall i :: 0 <= i < |ps| ==> ps[i] in m.nodes && exec(W.Words(m.nodes[ps[i]])) == 0
    ensures Parts(m, exec, ps, fuel) == Ran(0, seq(|ps|, i requires 0 <= i < |ps| => W.Words(m.nodes[ps[i]])))
    decreases |ps|
  {
    if |ps| > 0 {
      NodesInOrder(m, exec, ps[1..], fuel);
      var all := seq(|ps|, i requires 0 <= i < |ps| => W.Words(m.nodes[ps[i]]));
      var tail := seq(|ps| - 1, i requires 0 <= i < |ps| - 1 => W.Words(m.nodes[ps[1..][i]]));
      assert all == [W.Words(m.nodes[ps[0]])] + tail;
    }
  }

  /** An unknown concatenation gives -1; one without parts succeeds without running anything. */
  lemma ConcatEdges(m: Maps, exec: seq<string> -> int, name: string, fuel: nat)
    ensures name !in m.concats ==> Concat(m, exec, name, fuel) == Ran(-1, [])
    ensures name in m.concats && m.concats[name] == [] && fuel > 0 ==> Concat(m, exec, name, fuel) == Ran(0, [])
  {
  }

  /** An unknown part after successful ones stops the run with -1. */
  lemma UnknownPartStops(m: Maps, exec: seq<string> -> int, pre: seq<string>, p: string, post: seq<string>, fuel: nat)
    requires Parts(m, exec, pre, fuel).Ran? && Parts(m, exec, pre, fuel).status == 0
    requires p !in m.nodes && p !in m.concats
    ensures Parts(m, exec, pre + [p] + post, fuel) == Ran(-1, Parts(m, exec, pre, fuel).launched)
  {
    FirstFailureStops(m, exec, pre, p, post, fuel);
  }

  /** A concatenation whose first part is itself never finishes, whatever the fuel. */
  lemma {:induction false} SelfFirstNeverEnds(m: Maps, exec: seq<string> -> int, name: string, fuel: nat)
    requires name in m.concats && name !in m.nodes
    requires |m.concats[name]| > 0 && m.concats[name][0] == name
    ensures Concat(m, exec, name, fuel) == TooDeep
    decreases fuel
  {
    if fuel > 0 {
      var ps := m.concats[name];
      SelfFirstNeverEnds(m, exec, name, fuel - 1);
      assert Part(m, exec, ps[0], fuel - 1) == TooDeep;
      assert Parts(m, exec, ps, fuel - 1) == Then(TooDeep, Parts(m, exec, ps[1..], fuel - 1));
    }
  }

  /** Fuel only bounds the depth: a run that finishes gives the same outcome with more fuel. */
  lemma {:induction false} ConcatFuel(m: Maps, exec: seq<string> -> int, name: string, fuel: nat, more: nat)
    requires fuel <= more && Concat(m, exec, name, fuel).Ran?
    ensures Concat(m, exec, name, more) == Concat(m, exec, name, fuel)
    decreases fuel, 0
  {
    if name in m.concats {
      PartsFuel(m, exec, m.concats[name], fuel - 1, more - 1);
    }
  }

  lemma {:induction false} PartsFuel(m: Maps, exec: seq<string> -> int, ps: seq<string>, fuel: nat, more: nat)
    requires fuel <= more && Parts(m, exec, ps, fuel).Ran?
    ensures Parts(m, exec, ps, more) == Parts(m, exec, ps, fuel)
    decreases fuel, 1 + |ps|
  {
    if |ps| > 0 {
      var a := Part(m, exec, ps[0], fuel);
      assert a.Ran?;
      if ps[0] !in m.nodes && ps[0] in m.concats {
        ConcatFuel(m, exec, ps[0], fuel, more);
      }
      if a.status == 0 {
        PartsFuel(m, exec, ps[1..], fuel, more);
      }
    }
  }

  // ---------------------------------------------------------------
  // main
  // ---------------------------------------------------------------

  const ExitSuccess := 0
  const ExitFailure := 1

  /**
   * `main` after the argument count check: a concatenation is tried before a
   * node, and an unknown action, a parse error or a non-zero status fails.
   */
  function Main(lines: seq<string>, action: string, exec: seq<string> -> int, fuel: nat): Outcome
  {
    match Parse(lines)
    case Err(_) => Ran(ExitFailure, [])
    case Ok(m) =>
      var o :=
        if action in m.concats then Concat(m, exec, action, fuel)
        else if action in m.nodes then Node(m, exec, action)
        else Ran(-1, []);
      match o
      case TooDeep => TooDeep
      case Ran(c, l) => Ran(if c != 0 then ExitFailure else ExitSuccess, l)
  }

  /** The exit status is success exactly when the chosen action reports status 0. */
  lemma MainExit(lines: seq<string>, action: string, exec: seq<string> -> int, fuel: nat)
    requires Main(lines, action, exec, fuel).Ran?
    ensures Main(lines, action, exec, fuel).status == ExitSuccess
        <==> (Parse(lines).Ok? && Succeeds(Parse(lines).value, action, exec, fuel))
    ensures Main(lines, action, exec, fuel).status in {ExitSuccess, ExitFailure}
  {
  }

  /** The action that `main` chooses reports status 0. */
  predicate Succeeds(m: Maps, action: string, exec: seq<string> -> int, fuel: nat)
  {
    if action in m.concats then Concat(m, exec, action, fuel).Ran? && Concat(m, exec, action, fuel).status == 0
    else action in m.nodes && exec(W.Words(m.nodes[action])) == 0
  }

  /** A name that is both runs as the concatenation. */
  lemma ConcatBeforeNode(lines: seq<string>, action: string, exec: seq<string> -> int, fuel: nat)
    requires Parse(lines).Ok? && action in Parse(lines).value.concats && action in Parse(lines).value.nodes
    requires Concat(Parse(lines).value, exec, action, fuel).Ran?
    ensures Main(lines, action, exec, fuel).launched == Concat(Parse(lines).value, exec, action, fuel).launched
  {
  }
}
