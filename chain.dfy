// flow7.1.cpp runs a pipe by flattening it: `build_command_chain` (107-123)
// walks the `from` and then the `to` side of every nested pipe, collecting
// the nodes it reaches in a vector and every name it visits in a set, and
// `execute_pipe` (96-188) then starts the collected nodes as one chain in
// which neighbours share a pipe.  `main` (286-340) runs a pipe, else a node.

module PipeChain {
  import opened Wrappers
  import opened Process
  import opened F = Flow
  import SP = StrictParser

  /** What stops the walk: a name reached a second time, or a name that is neither node nor pipe. */
  datatype ChainError = Circular(name: string) | UnknownName(name: string)

  /** The collected nodes' argument vectors and the names visited so far. */
  datatype Walk = Walk(leaves: seq<seq<string>>, visited: set<string>)

  lemma FewerUnvisited(keys: set<string>, v: set<string>, w: set<string>, x: string)
    requires x in keys && x !in v && v + {x} <= w
    ensures |keys - w| < |keys - v|
  {
    var small, big := keys - w, keys - v;
    assert big == small + (big - small);
    assert x in big - small;
  }

  /**
   * The walk from `name`: a visited name is a circular dependency; a node is
   * appended; a pipe walks its `from` side, then its `to` side.  Every walk
   * that succeeds has visited more names and appended at least one node,
   * and appends only nodes' argument vectors.
   */
  function Chain(t: F.Tables, name: string, w: Walk): (r: Result<Walk, ChainError>)
    ensures r.Ok? ==> w.visited + {name} <= r.value.visited
    ensures r.Ok? ==> |r.value.leaves| > |w.leaves| && r.value.leaves[..|w.leaves|] == w.leaves
    ensures r.Ok? ==> forall i :: |w.leaves| <= i < |r.value.leaves| ==> r.value.leaves[i] in t.nodes.Values
    decreases |t.pipes.Keys - w.visited|
  {
    if name in w.visited then Err(Circular(name))
    else
      var w1 := w.(visited := w.visited + {name});
      if name in t.nodes then Ok(w1.(leaves := w1.leaves + [t.nodes[name]]))
      else if name in t.pipes then
        FewerUnvisited(t.pipes.Keys, w.visited, w1.visited, name);
        match Chain(t, t.pipes[name].from, w1)
        case Err(e) => Err(e)
        case Ok(w2) =>
          FewerUnvisited(t.pipes.Keys, w.visited, w2.visited, name);
          match Chain(t, t.pipes[name].to, w2)
          case Err(e) => Err(e)
          case Ok(w3) =>
            LeavesGrow(t, w.leaves, w2.leaves, w3.leaves);
            Ok(w3)
      else Err(UnknownName(name))
  }

  /** Two extensions by nodes' argument vectors make one. */
  lemma LeavesGrow(t: F.Tables, a: seq<seq<string>>, b: seq<seq<string>>, c: seq<seq<string>>)
    requires |a| < |b| < |c| && b[..|a|] == a && c[..|b|] == b
    requires forall i :: |a| <= i < |b| ==> b[i] in t.nodes.Values
    requires forall i :: |b| <= i < |c| ==> c[i] in t.nodes.Values
    ensures c[..|a|] == a
    ensures forall i :: |a| <= i < |c| ==> c[i] in t.nodes.Values
  {
    assert forall i :: |a| <= i < |b| ==> c[i] == b[i];
  }

  /** `build_command_chain(from)` then `build_command_chain(to)`, sharing one visited set; the pipe itself is not visited. */
  function PipeLeaves(t: F.Tables, x: F.Pipe): Result<seq<seq<string>>, ChainError>
  {
    match Chain(t, x.from, Walk([], {}))
    case Err(e) => Err(e)
    case Ok(w) =>
      match Chain(t, x.to, w)
      case Err(e) => Err(e)
      case Ok(w2) => Ok(w2.leaves)
  }

  // ---------------------------------------------------------------
  // The walk without its visited set
  // ---------------------------------------------------------------

  /** The names a walk meets, in the order it meets them, and the nodes it collects. */
  datatype Flat = Flat(names: seq<string>, leaves: seq<seq<string>>)

  /**
   * A reference for `Chain` that forgets what other branches visited: a pipe
   * lists itself, then what its `from` side meets, then what its `to` side
   * meets.  Only a pipe that contains itself (`path` holds the pipes above)
   * is circular.
   */
  function Flatten(t: F.Tables, name: string, path: set<string>): (r: Result<Flat, ChainError>)
    ensures r.Ok? ==> |r.value.names| > 0 && r.value.names[0] == name && |r.value.leaves| > 0
    ensures r.Ok? ==> forall i :: 0 <= i < |r.value.leaves| ==> r.value.leaves[i] in t.nodes.Values
    ensures r.Ok? ==> forall i :: 0 <= i < |r.value.names| ==> r.value.names[i] in t.nodes || r.value.names[i] in t.pipes
    decreases |t.pipes.Keys - path|
  {
    if name in path then Err(Circular(name))
    else if name in t.nodes then Ok(Flat([name], [t.nodes[name]]))
    else if name in t.pipes then
      FewerUnvisited(t.pipes.Keys, path, path + {name}, name);
      match Flatten(t, t.pipes[name].from, path + {name})
      case Err(e) => Err(e)
      case Ok(f1) =>
        match Flatten(t, t.pipes[name].to, path + {name})
        case Err(e) => Err(e)
        case Ok(f2) =>
          FlatJoin(t, name, f1, f2);
          Ok(Flat([name] + (f1.names + f2.names), f1.leaves + f2.leaves))
    else Err(UnknownName(name))
  }

  /** Joining both sides of a pipe keeps every name a node or a pipe, and every leaf a node's vector. */
  lemma FlatJoin(t: F.Tables, name: string, f1: Flat, f2: Flat)
    requires name in t.pipes
    requires forall i :: 0 <= i < |f1.leaves| ==> f1.leaves[i] in t.nodes.Values
    requires forall i :: 0 <= i < |f2.leaves| ==> f2.leaves[i] in t.nodes.Values
    requires forall i :: 0 <= i < |f1.names| ==> f1.names[i] in t.nodes || f1.names[i] in t.pipes
    requires forall i :: 0 <= i < |f2.names| ==> f2.names[i] in t.nodes || f2.names[i] in t.pipes
    ensures forall i :: 0 <= i < |f1.leaves + f2.leaves| ==> (f1.leaves + f2.leaves)[i] in t.nodes.Values
    ensures forall i :: 0 <= i < |[name] + (f1.names + f2.names)| ==>
      ([name] + (f1.names + f2.names))[i] in t.nodes || ([name] + (f1.names + f2.names))[i] in t.pipes
  {
    var names := [name] + (f1.names + f2.names);
    assert forall i :: 1 <= i < 1 + |f1.names| ==> names[i] == f1.names[i - 1];
    assert forall i :: 1 + |f1.names| <= i < |names| ==> names[i] == f2.names[i - 1 - |f1.names|];
    var leaves := f1.leaves + f2.leaves;
    assert forall i :: |f1.leaves| <= i < |leaves| ==> leaves[i] == f2.leaves[i - |f1.leaves|];
  }

  /** The names in a sequence. */
  function NameSet(ns: seq<string>): set<string>
  {
    set n | n in ns
  }

  /** Meeting the names in order, none has been met or visited before. */
  predicate Fresh(ns: seq<string>, v: set<string>)
    decreases |ns|
  {
    |ns| == 0 || (ns[0] !in v && Fresh(ns[1..], v + {ns[0]}))
  }

  /** No name occurs twice, and none is in `v`. */
  predicate Unrepeated(ns: seq<string>, v: set<string>)
  {
    (forall i :: 0 <= i < |ns| ==> ns[i] !in v) &&
    (forall i, j :: 0 <= i < j < |ns| ==> ns[i] != ns[j])
  }

  lemma {:induction false} FreshMeans(ns: seq<string>, v: set<string>)
    ensures Fresh(ns, v) <==> Unrepeated(ns, v)
    decreases |ns|
  {
    if |ns| > 0 {
      var tail := ns[1..];
      FreshMeans(tail, v + {ns[0]});
      assert forall i :: 0 <= i < |tail| ==> tail[i] == ns[i + 1];
      if Unrepeated(ns, v) {
        forall i | 0 <= i < |tail|
          ensures tail[i] !in v + {ns[0]}
        {
          assert ns[0] != ns[i + 1];
        }
        forall i, j | 0 <= i < j < |tail|
          ensures tail[i] != tail[j]
        {
          assert ns[i + 1] != ns[j + 1];
        }
      }
      if ns[0] !in v && Unrepeated(tail, v + {ns[0]}) {
        forall i, j | 0 <= i < j < |ns|
          ensures ns[i] != ns[j]
        {
          assert ns[j] == tail[j - 1];
          if i > 0 {
            assert ns[i] == tail[i - 1];
          }
        }
        forall i | 0 <= i < |ns|
          ensures ns[i] !in v
        {
          if i > 0 {
            assert ns[i] == tail[i - 1];
          }
        }
      }
    }
  }

  lemma {:induction false} FreshAppend(a: seq<string>, b: seq<string>, v: set<string>)
    ensures Fresh(a + b, v) <==> Fresh(a, v) && Fresh(b, v + NameSet(a))
    decreases |a|
  {
    if |a| == 0 {
      assert a + b == b && NameSet(a) == {};
      assert v + NameSet(a) == v;
    } else {
      FreshAppend(a[1..], b, v + {a[0]});
      assert (a + b)[0] == a[0] && (a + b)[1..] == a[1..] + b;
      assert NameSet(a) == {a[0]} + NameSet(a[1..]);
      assert v + {a[0]} + NameSet(a[1..]) == v + NameSet(a);
    }
  }

  /** `[x] + a` is fresh exactly when `x` is new and `a` is fresh once `x` is visited. */
  lemma FreshCons(x: string, a: seq<string>, v: set<string>)
    ensures Fresh([x] + a, v) <==> x !in v && Fresh(a, v + {x})
  {
    assert ([x] + a)[1..] == a;
  }

  /** A pipe `Flatten` lists: itself, then both sides' names and nodes. */
  lemma FlattenPipe(t: F.Tables, name: string, path: set<string>, f: Flat)
    requires name !in t.nodes && name in t.pipes && Flatten(t, name, path) == Ok(f)
    ensures name !in path
    ensures Flatten(t, t.pipes[name].from, path + {name}).Ok? && Flatten(t, t.pipes[name].to, path + {name}).Ok?
    ensures f.names == [name] + (Flatten(t, t.pipes[name].from, path + {name}).value.names + Flatten(t, t.pipes[name].to, path + {name}).value.names)
    ensures f.leaves == Flatten(t, t.pipes[name].from, path + {name}).value.leaves + Flatten(t, t.pipes[name].to, path + {name}).value.leaves
  {
  }

  lemma LeavesJoin(a: seq<seq<string>>, b: seq<seq<string>>, c: seq<seq<string>>)
    ensures a + b + c == a + (b + c)
  {
  }

  lemma NamesJoin(x: string, a: seq<string>, b: seq<string>)
    ensures NameSet([x] + (a + b)) == {x} + NameSet(a) + NameSet(b)
  {
  }

  /** A pipe not yet visited walks its `from` side, then its `to` side, with itself visited. */
  lemma ChainPipe(t: F.Tables, name: string, w: Walk, w2: Walk, w3: Walk)
    requires name !in w.visited && name !in t.nodes && name in t.pipes
    requires Chain(t, t.pipes[name].from, w.(visited := w.visited + {name})) == Ok(w2)
    requires Chain(t, t.pipes[name].to, w2) == Ok(w3)
    ensures Chain(t, name, w) == Ok(w3)
  {
  }

  /**
   * Where no name is met twice and none was visited before, `Chain` collects
   * exactly the nodes of `Flatten`, in order, and visits exactly its names.
   */
  lemma {:induction false} ChainFlattens(t: F.Tables, name: string, path: set<string>, w: Walk, f: Flat)
    requires path <= w.visited && Flatten(t, name, path) == Ok(f) && Fresh(f.names, w.visited)
    ensures Chain(t, name, w) == Ok(Walk(w.leaves + f.leaves, w.visited + NameSet(f.names)))
    decreases |t.pipes.Keys - path|, 1
  {
    assert f.names[0] == name;
    if name in t.nodes {
      assert f == Flat([name], [t.nodes[name]]);
      assert NameSet(f.names) == {name};
      NodeWalk(t, name, w);
    } else {
      FlattenPipe(t, name, path, f);
      var f1 := Flatten(t, t.pipes[name].from, path + {name}).value;
      var f2 := Flatten(t, t.pipes[name].to, path + {name}).value;
      ChainFlattensPipe(t, name, path, w, f1, f2);
    }
  }

  /** The pipe case of `ChainFlattens`, with both sides' flattenings given. */
  lemma {:induction false} ChainFlattensPipe(t: F.Tables, name: string, path: set<string>, w: Walk, f1: Flat, f2: Flat)
    requires name !in path && name !in t.nodes && name in t.pipes && path <= w.visited
    requires Flatten(t, t.pipes[name].from, path + {name}) == Ok(f1)
    requires Flatten(t, t.pipes[name].to, path + {name}) == Ok(f2)
    requires Fresh([name] + (f1.names + f2.names), w.visited)
    ensures Chain(t, name, w) == Ok(Walk(w.leaves + (f1.leaves + f2.leaves), w.visited + NameSet([name] + (f1.names + f2.names))))
    decreases |t.pipes.Keys - path|, 0
  {
    var w1 := w.(visited := w.visited + {name});
    var w2 := Walk(w.leaves + f1.leaves, w1.visited + NameSet(f1.names));
    var w3 := Walk(w2.leaves + f2.leaves, w2.visited + NameSet(f2.names));
    assert Chain(t, name, w) == Ok(w3) by {
      var x := t.pipes[name];
      FewerUnvisited(t.pipes.Keys, path, path + {name}, name);
      assert Fresh(f1.names, w1.visited) && Fresh(f2.names, w2.visited) by {
        FreshCons(name, f1.names + f2.names, w.visited);
        FreshAppend(f1.names, f2.names, w.visited + {name});
      }
      ChainFlattens(t, x.from, path + {name}, w1, f1);
      ChainFlattens(t, x.to, path + {name}, w2, f2);
      ChainPipe(t, name, w, w2, w3);
    }
    assert w3.leaves == w.leaves + (f1.leaves + f2.leaves) by {
      LeavesJoin(w.leaves, f1.leaves, f2.leaves);
    }
    assert w3.visited == w.visited + NameSet([name] + (f1.names + f2.names)) by {
      NamesJoin(name, f1.names, f2.names);
    }
  }

  /** Where `Flatten` meets some name twice, or one visited before, `Chain` stops with a circular dependency. */
  lemma {:induction false} ChainReachedTwice(t: F.Tables, name: string, path: set<string>, w: Walk, f: Flat)
    requires path <= w.visited && Flatten(t, name, path) == Ok(f) && !Fresh(f.names, w.visited)
    ensures Chain(t, name, w).Err? && Chain(t, name, w).error.Circular?
    decreases |t.pipes.Keys - path|
  {
    assert f.names[0] == name;
    if name in w.visited {
    } else if name in t.nodes {
      // A single fresh name: `Flatten` met nothing twice.
      assert false;
    } else {
      var x := t.pipes[name];
      FlattenPipe(t, name, path, f);
      FewerUnvisited(t.pipes.Keys, path, path + {name}, name);
      var f1 := Flatten(t, x.from, path + {name}).value;
      var f2 := Flatten(t, x.to, path + {name}).value;
      FreshCons(name, f1.names + f2.names, w.visited);
      FreshAppend(f1.names, f2.names, w.visited + {name});
      var w1 := w.(visited := w.visited + {name});
      if !Fresh(f1.names, w1.visited) {
        ChainReachedTwice(t, x.from, path + {name}, w1, f1);
      } else {
        ChainFlattens(t, x.from, path + {name}, w1, f1);
        var w2 := Walk(w.leaves + f1.leaves, w1.visited + NameSet(f1.names));
        ChainReachedTwice(t, x.to, path + {name}, w2, f2);
      }
    }
  }

  /** Where `Flatten` fails, so does `Chain`; where it finds a pipe inside itself, `Chain` reports a circular dependency. */
  lemma {:induction false} ChainFailsWithFlatten(t: F.Tables, name: string, path: set<string>, w: Walk)
    requires path <= w.visited && Flatten(t, name, path).Err?
    ensures Chain(t, name, w).Err?
    ensures Flatten(t, name, path).error.Circular? ==> Chain(t, name, w).error.Circular?
    decreases |t.pipes.Keys - path|
  {
    if name in w.visited || name in path {
    } else if name in t.pipes && name !in t.nodes {
      var x := t.pipes[name];
      FewerUnvisited(t.pipes.Keys, path, path + {name}, name);
      var w1 := w.(visited := w.visited + {name});
      var r1 := Flatten(t, x.from, path + {name});
      if r1.Err? {
        ChainFailsWithFlatten(t, x.from, path + {name}, w1);
      } else if !Fresh(r1.value.names, w1.visited) {
        ChainReachedTwice(t, x.from, path + {name}, w1, r1.value);
      } else {
        ChainFlattens(t, x.from, path + {name}, w1, r1.value);
        var w2 := Walk(w.leaves + r1.value.leaves, w1.visited + NameSet(r1.value.names));
        ChainFailsWithFlatten(t, x.to, path + {name}, w2);
      }
    }
  }

  /**
   * `Chain` succeeds exactly when `Flatten` does and meets no name twice and
   * none visited before; it then appends `Flatten`'s nodes in order.
   */
  lemma ChainIsFlatten(t: F.Tables, name: string, w: Walk)
    ensures Chain(t, name, w).Ok? <==> Flatten(t, name, {}).Ok? && Fresh(Flatten(t, name, {}).value.names, w.visited)
    ensures Chain(t, name, w).Ok? ==>
      Chain(t, name, w).value == Walk(w.leaves + Flatten(t, name, {}).value.leaves, w.visited + NameSet(Flatten(t, name, {}).value.names))
  {
    var r := Flatten(t, name, {});
    if r.Err? {
      ChainFailsWithFlatten(t, name, {}, w);
    } else if Fresh(r.value.names, w.visited) {
      ChainFlattens(t, name, {}, w, r.value);
    } else {
      ChainReachedTwice(t, name, {}, w, r.value);
    }
  }

  /**
   * A pipe's leaves are its `from` side's flattened nodes followed by its
   * `to` side's, exactly when both flatten and no name is met twice across
   * the two sides.
   */
  lemma PipeLeavesFlatten(t: F.Tables, x: F.Pipe)
    ensures PipeLeaves(t, x).Ok? <==>
      Flatten(t, x.from, {}).Ok? && Flatten(t, x.to, {}).Ok? &&
      Fresh(Flatten(t, x.from, {}).value.names + Flatten(t, x.to, {}).value.names, {})
    ensures PipeLeaves(t, x).Ok? ==>
      PipeLeaves(t, x).value == Flatten(t, x.from, {}).value.leaves + Flatten(t, x.to, {}).value.leaves
  {
    var r1, r2 := Flatten(t, x.from, {}), Flatten(t, x.to, {});
    ChainIsFlatten(t, x.from, Walk([], {}));
    if r1.Ok? && Fresh(r1.value.names, {}) {
      var w := Walk([] + r1.value.leaves, {} + NameSet(r1.value.names));
      ChainIsFlatten(t, x.to, w);
      if r2.Ok? {
        FreshAppend(r1.value.names, r2.value.names, {});
        assert {} + NameSet(r1.value.names) == NameSet(r1.value.names);
      }
    } else if r1.Ok? && r2.Ok? {
      FreshAppend(r1.value.names, r2.value.names, {});
    }
  }

  /** Any name that `Flatten` meets twice makes the walk stop with a circular dependency. */
  lemma RepeatedNameIsCircular(t: F.Tables, name: string, w: Walk, i: nat, j: nat)
    requires Flatten(t, name, {}).Ok?
    requires i < j < |Flatten(t, name, {}).value.names|
    requires Flatten(t, name, {}).value.names[i] == Flatten(t, name, {}).value.names[j]
    ensures Chain(t, name, w).Err? && Chain(t, name, w).error.Circular?
  {
    var f := Flatten(t, name, {}).value;
    FreshMeans(f.names, w.visited);
    ChainReachedTwice(t, name, {}, w, f);
  }

  /** A name met by both sides of a pipe, or twice by one side, makes the pipe circular. */
  lemma PipeRepeatedNameIsCircular(t: F.Tables, x: F.Pipe, i: nat, j: nat)
    requires Flatten(t, x.from, {}).Ok? && Flatten(t, x.to, {}).Ok?
    requires i < j < |Flatten(t, x.from, {}).value.names + Flatten(t, x.to, {}).value.names|
    requires (Flatten(t, x.from, {}).value.names + Flatten(t, x.to, {}).value.names)[i] ==
      (Flatten(t, x.from, {}).value.names + Flatten(t, x.to, {}).value.names)[j]
    ensures PipeLeaves(t, x).Err? && PipeLeaves(t, x).error.Circular?
  {
    var f1, f2 := Flatten(t, x.from, {}).value, Flatten(t, x.to, {}).value;
    var w := Walk([] + f1.leaves, {} + NameSet(f1.names));
    assert !Fresh(f1.names, {}) || !Fresh(f2.names, w.visited) by {
      assert !Unrepeated(f1.names + f2.names, {});
      FreshMeans(f1.names + f2.names, {});
      FreshAppend(f1.names, f2.names, {});
    }
    if Fresh(f1.names, {}) {
      ChainFlattens(t, x.from, {}, Walk([], {}), f1);
      ChainReachedTwice(t, x.to, {}, w, f2);
    } else {
      ChainReachedTwice(t, x.from, {}, Walk([], {}), f1);
    }
  }

  /** The walk, with the captured set and vector as the fields it updates. */
  class ChainBuilder {
    const tables: F.Tables
    var visited: set<string>
    var commands: seq<seq<string>>

    constructor (tables: F.Tables)
      ensures this.tables == tables && visited == {} && commands == []
    {
      this.tables := tables;
      visited := {};
      commands := [];
    }

    function Current(): Walk
      reads this
    {
      Walk(commands, visited)
    }

    method Build(name: string) returns (err: Option<ChainError>)
      modifies this
      ensures match err
        case None => Chain(tables, name, old(Current())) == Ok(Current())
        case Some(e) => Chain(tables, name, old(Current())) == Err(e)
      decreases |tables.pipes.Keys - visited|
    {
      if name in visited {
        return Some(Circular(name));
      }
      visited := visited + {name};
      if name in tables.nodes {
        commands := commands + [tables.nodes[name]];
        return None;
      } else if name in tables.pipes {
        ghost var start := old(Current());
        FewerUnvisited(tables.pipes.Keys, start.visited, visited, name);
        err := Build(tables.pipes[name].from);
        if err.Some? {
          return;
        }
        FewerUnvisited(tables.pipes.Keys, start.visited, visited, name);
        ghost var middle := Current();
        err := Build(tables.pipes[name].to);
        assert Chain(tables, name, start) == Chain(tables, tables.pipes[name].to, middle);
      } else {
        return Some(UnknownName(name));
      }
    }
  }

  // ---------------------------------------------------------------
  // The chain's descriptors
  // ---------------------------------------------------------------

  /** `pipefds` holds pipe `j`'s read end at `2j` and its write end at `2j + 1`. */
  function SlotFd(slot: nat): Fd
  {
    if slot % 2 == 0 then PipeRead(slot / 2) else PipeWrite(slot / 2)
  }

  /** Command `i > 0` reads `pipefds[(i - 1) * 2]`. */
  function InputSlot(i: nat): nat
    requires i > 0
  {
    (i - 1) * 2
  }

  /** Command `i < n - 1` writes `pipefds[i * 2 + 1]`. */
  function OutputSlot(i: nat): nat
  {
    i * 2 + 1
  }

  /** The `i`-th child of the fork loop. */
  function ChainLaunch(leaves: seq<seq<string>>, i: nat): Launch
    requires i < |leaves|
  {
    Launch(leaves[i],
      if i > 0 then SlotFd(InputSlot(i)) else Stdin,
      if i < |leaves| - 1 then SlotFd(OutputSlot(i)) else Stdout,
      Stderr, false)
  }

  function Layout(leaves: seq<seq<string>>): (ls: seq<Launch>)
    ensures |ls| == |leaves|
  {
    seq(|leaves|, i requires 0 <= i < |leaves| => ChainLaunch(leaves, i))
  }

  /** `num_commands - 1` pipes, none for an empty chain. */
  function PipeCount(n: nat): nat
  {
    if n == 0 then 0 else n - 1
  }

  /** The fork loop of `execute_pipe`, proved to start the chain `Layout` describes. */
  method ForkChain(leaves: seq<seq<string>>) returns (ls: seq<Launch>)
    ensures ls == Layout(leaves)
  {
    ls := [];
    var i := 0;
    while i < |leaves|
      invariant 0 <= i <= |leaves|
      invariant ls == Layout(leaves)[..i]
    {
      var input := Stdin;
      if i > 0 {
        input := SlotFd((i - 1) * 2);
      }
      var output := Stdout;
      if i < |leaves| - 1 {
        output := SlotFd(i * 2 + 1);
      }
      ls := ls + [Launch(leaves[i], input, output, Stderr, false)];
      i := i + 1;
    }
  }

  /**
   * Neighbours share a pipe: command `i` writes pipe `i` and command `i + 1`
   * reads it; every slot used is one of the `2(n - 1)` created; the first
   * command keeps standard input and the last standard output; every
   * command keeps standard error and is reported when it fails.
   */
  lemma ChainConnected(leaves: seq<seq<string>>)
    ensures forall i :: 0 <= i < |leaves| - 1 ==>
      Layout(leaves)[i].output == PipeWrite(i) && Layout(leaves)[i + 1].input == PipeRead(i)
    ensures forall i :: 0 < i < |leaves| ==> InputSlot(i) < 2 * PipeCount(|leaves|)
    ensures forall i :: 0 <= i < |leaves| - 1 ==> OutputSlot(i) < 2 * PipeCount(|leaves|)
    ensures |leaves| > 0 ==> Layout(leaves)[0].input == Stdin && Layout(leaves)[|leaves| - 1].output == Stdout
    ensures forall i :: 0 <= i < |leaves| ==>
      Layout(leaves)[i].argv == leaves[i] && Layout(leaves)[i].errors == Stderr && !Layout(leaves)[i].quiet
  {
    forall i | 0 <= i < |leaves| - 1
      ensures Layout(leaves)[i].output == PipeWrite(i) && Layout(leaves)[i + 1].input == PipeRead(i)
    {
      assert OutputSlot(i) % 2 == 1 && OutputSlot(i) / 2 == i;
      assert InputSlot(i + 1) % 2 == 0 && InputSlot(i + 1) / 2 == i;
    }
  }

  /** `execute_pipe`: the walk, then the chain of its nodes. */
  function PipePlan(t: F.Tables, x: F.Pipe): Result<Plan, ChainError>
  {
    match PipeLeaves(t, x)
    case Err(e) => Err(e)
    case Ok(leaves) => Ok(Plan(Layout(leaves), PipeCount(|leaves|), None))
  }

  method ExecutePipe(t: F.Tables, x: F.Pipe) returns (r: Result<Plan, ChainError>)
    ensures r == PipePlan(t, x)
  {
    var builder := new ChainBuilder(t);
    var err := builder.Build(x.from);
    if err.Some? {
      return Err(err.value);
    }
    err := builder.Build(x.to);
    if err.Some? {
      return Err(err.value);
    }
    var ls := ForkChain(builder.commands);
    return Ok(Plan(ls, PipeCount(|builder.commands|), None));
  }

  /** Why flow7.1.cpp ends without running anything. */
  datatype RunError = ReadError(error: SP.ParseError) | ChainFailed(reason: ChainError) | NoSuchAction(name: string)

  /** `main`: a pipe is looked up before a node; a node runs alone on the terminal. */
  function Run(lines: seq<string>, action: string): Result<Plan, RunError>
  {
    match SP.Parse(SP.Flow71, lines)
    case Err(e) => Err(ReadError(e))
    case Ok(t) =>
      if action in t.pipes then
        match PipePlan(t, t.pipes[action])
        case Err(e) => Err(ChainFailed(e))
        case Ok(p) => Ok(p)
      else if action in t.nodes then Ok(Plan([Launch(t.nodes[action], Stdin, Stdout, Stderr, false)], 0, None))
      else Err(NoSuchAction(action))
  }

  // ---------------------------------------------------------------
  // Properties
  // ---------------------------------------------------------------

  /** A pipe flattens into at least two nodes: its `from` side's, then its `to` side's. */
  lemma PipeHasTwoLeaves(t: F.Tables, x: F.Pipe)
    requires PipeLeaves(t, x).Ok?
    ensures |PipeLeaves(t, x).value| >= 2
    ensures forall i :: 0 <= i < |PipeLeaves(t, x).value| ==> PipeLeaves(t, x).value[i] in t.nodes.Values
  {
  }

  /** A pipe between two nodes flattens into those two, `from` first. */
  lemma PipeOfNodes(t: F.Tables, x: F.Pipe)
    requires x.from in t.nodes && x.to in t.nodes && x.from != x.to
    ensures PipeLeaves(t, x) == Ok([t.nodes[x.from], t.nodes[x.to]])
  {
    NodeWalk(t, x.from, Walk([], {}));
    var w := Walk([t.nodes[x.from]], {x.from});
    NodeWalk(t, x.to, w);
    assert w.leaves + [t.nodes[x.to]] == [t.nodes[x.from], t.nodes[x.to]];
  }

  /** A node not yet visited is appended and marked. */
  lemma NodeWalk(t: F.Tables, name: string, w: Walk)
    requires name in t.nodes && name !in w.visited
    ensures Chain(t, name, w) == Ok(Walk(w.leaves + [t.nodes[name]], w.visited + {name}))
  {
  }

  /** A name reached twice is reported even when it is only shared, not a true cycle. */
  lemma SharedNodeIsCircular(t: F.Tables, x: F.Pipe)
    requires x.from in t.nodes && x.to == x.from
    ensures PipeLeaves(t, x) == Err(Circular(x.from))
  {
  }

  /** A pipe whose `from` is itself is reported as circular when the walk comes back to it. */
  lemma SelfPipeIsCircular(t: F.Tables, name: string)
    requires name in t.pipes && name !in t.nodes && t.pipes[name].from == name
    ensures PipeLeaves(t, t.pipes[name]) == Err(Circular(name))
  {
    var w1 := Walk([], {name});
    assert Chain(t, name, Walk([], {})) == Chain(t, name, w1);
  }

  /** A name that is neither a node nor a pipe stops the walk. */
  lemma UnknownNameStops(t: F.Tables, x: F.Pipe)
    requires x.from !in t.nodes && x.from !in t.pipes
    ensures PipeLeaves(t, x) == Err(UnknownName(x.from))
  {
  }

  /** A pipe of two nodes runs as two commands joined by pipe 0. */
  lemma TwoNodeChain(t: F.Tables, x: F.Pipe)
    requires x.from in t.nodes && x.to in t.nodes && x.from != x.to
    ensures PipePlan(t, x) == Ok(Plan(
      [Launch(t.nodes[x.from], Stdin, PipeWrite(0), Stderr, false),
       Launch(t.nodes[x.to], PipeRead(0), Stdout, Stderr, false)], 1, None))
  {
    PipeOfNodes(t, x);
    var leaves := [t.nodes[x.from], t.nodes[x.to]];
    ChainConnected(leaves);
    assert Layout(leaves)[0] == Launch(t.nodes[x.from], Stdin, PipeWrite(0), Stderr, false);
    assert Layout(leaves)[1] == Launch(t.nodes[x.to], PipeRead(0), Stdout, Stderr, false);
    assert Layout(leaves) == [Layout(leaves)[0], Layout(leaves)[1]];
  }

  /** A name that is both runs as the pipe at the top level, but as the node inside a walk. */
  lemma PipeBeforeNode(lines: seq<string>, action: string)
    requires SP.Parse(SP.Flow71, lines).Ok?
    requires action in SP.Parse(SP.Flow71, lines).value.pipes && action in SP.Parse(SP.Flow71, lines).value.nodes
    ensures var t := SP.Parse(SP.Flow71, lines).value;
      Run(lines, action) == (match PipePlan(t, t.pipes[action]) case Err(e) => Err(ChainFailed(e)) case Ok(p) => Ok(p))
      && Chain(t, action, Walk([], {})) == Ok(Walk([t.nodes[action]], {action}))
  {
    var t := SP.Parse(SP.Flow71, lines).value;
    NodeWalk(t, action, Walk([], {}));
    assert [] + [t.nodes[action]] == [t.nodes[action]];
    assert {} + {action} == {action};
  }
}
