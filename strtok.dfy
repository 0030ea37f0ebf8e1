// `strtok` with a one-character delimiter: the non-empty fields between
// delimiters, in order.  src/flowc.c cuts its buffer into lines with it
// (109, 191) and a node's command into arguments (120-125), keeping at most
// 19 of them; flow.c splits a node's command the same way, without a cap
// (66-72).

module Strtok {
  import opened Text

  /** Finished fields and the field being read. */
  datatype Scan = Scan(fields: seq<string>, field: string)

  function Step(st: Scan, c: char, sep: char): Scan
  {
    if c == sep then
      if st.field == "" then st else Scan(st.fields + [st.field], "")
    else st.(field := st.field + [c])
  }

  function RunFrom(st: Scan, s: string, sep: char): Scan
    decreases |s|
  {
    if |s| == 0 then st else Step(RunFrom(st, s[..|s| - 1], sep), s[|s| - 1], sep)
  }

  function Finish(st: Scan): seq<string>
  {
    if st.field == "" then st.fields else st.fields + [st.field]
  }

  /** The tokens successive `strtok` calls return until the first NULL. */
  function Fields(s: string, sep: char): seq<string>
  {
    Finish(RunFrom(Scan([], ""), s, sep))
  }

  /** The `strtok` loop, one field per call until none is left, proved to compute `Fields`. */
  method Split(s: string, sep: char) returns (fields: seq<string>)
    ensures fields == Fields(s, sep)
  {
    fields := [];
    var field := "";
    var i := 0;
    while i < |s|
      invariant 0 <= i <= |s|
      invariant Scan(fields, field) == RunFrom(Scan([], ""), s[..i], sep)
    {
      assert s[..i + 1][..i] == s[..i];
      if s[i] == sep {
        if field != "" {
          fields := fields + [field];
          field := "";
        }
      } else {
        field := field + [s[i]];
      }
      i := i + 1;
    }
    assert s[..i] == s;
    if field != "" {
      fields := fields + [field];
    }
  }

  // ---------------------------------------------------------------
  // Properties
  // ---------------------------------------------------------------

  /** A token `strtok` can return: non-empty, without the delimiter. */
  predicate IsField(w: string, sep: char)
  {
    w != "" && HasNo(w, sep)
  }

  predicate AllFields(ws: seq<string>, sep: char)
  {
    forall i :: 0 <= i < |ws| ==> IsField(ws[i], sep)
  }

  lemma {:induction false} RunKeepsFields(st: Scan, s: string, sep: char)
    requires AllFields(st.fields, sep) && HasNo(st.field, sep)
    ensures AllFields(RunFrom(st, s, sep).fields, sep) && HasNo(RunFrom(st, s, sep).field, sep)
    decreases |s|
  {
    if |s| > 0 {
      RunKeepsFields(st, s[..|s| - 1], sep);
    }
  }

  /** No field is empty, and none holds the delimiter: runs of delimiters separate like one. */
  lemma FieldsAreFields(s: string, sep: char)
    ensures AllFields(Fields(s, sep), sep)
  {
    RunKeepsFields(Scan([], ""), s, sep);
  }

  lemma {:induction false} RunField(st: Scan, w: string, sep: char)
    requires HasNo(w, sep)
    ensures RunFrom(st, w, sep) == st.(field := st.field + w)
    decreases |w|
  {
    if |w| > 0 {
      RunField(st, w[..|w| - 1], sep);
      assert w[..|w| - 1] + [w[|w| - 1]] == w;
    }
  }

  lemma {:induction false} RunAppend(st: Scan, a: string, b: string, sep: char)
    ensures RunFrom(st, a + b, sep) == RunFrom(RunFrom(st, a, sep), b, sep)
    decreases |b|
  {
    if |b| == 0 {
      assert a + b == a;
    } else {
      assert (a + b)[..|a + b| - 1] == a + b[..|b| - 1];
      RunAppend(st, a, b[..|b| - 1], sep);
    }
  }

  lemma FieldThenSep(ws: seq<string>, w: string, sep: char, rest: string)
    requires IsField(w, sep)
    ensures RunFrom(Scan(ws, ""), w + [sep] + rest, sep) == RunFrom(Scan(ws + [w], ""), rest, sep)
  {
    var st := Scan(ws, "");
    RunField(st, w, sep);
    assert "" + w == w;
    RunAppend(st, w, [sep], sep);
    assert RunFrom(Scan(ws, w), [sep], sep) == Step(Scan(ws, w), sep, sep);
    RunAppend(st, w + [sep], rest, sep);
  }

  lemma {:induction false} JoinRun(ws: seq<string>, xs: seq<string>, sep: char)
    requires |xs| > 0 && AllFields(xs, sep)
    ensures RunFrom(Scan(ws, ""), Join(xs, [sep]), sep) == Scan(ws + xs[..|xs| - 1], xs[|xs| - 1])
    decreases |xs|
  {
    if |xs| == 1 {
      RunField(Scan(ws, ""), xs[0], sep);
      assert "" + xs[0] == xs[0];
    } else {
      FieldThenSep(ws, xs[0], sep, Join(xs[1..], [sep]));
      JoinRun(ws + [xs[0]], xs[1..], sep);
      assert ws + [xs[0]] + xs[1..][..|xs| - 2] == ws + xs[..|xs| - 1];
    }
  }

  /** Fields joined by single delimiters are cut back into the same fields. */
  lemma JoinRoundTrip(xs: seq<string>, sep: char)
    requires AllFields(xs, sep)
    ensures Fields(Join(xs, [sep]), sep) == xs
  {
    if |xs| > 0 {
      JoinRun([], xs, sep);
      assert xs[..|xs| - 1] + [xs[|xs| - 1]] == xs;
    }
  }

  // ---------------------------------------------------------------
  // src/flowc.c's argument vector
  // ---------------------------------------------------------------

  /** `MAX_COMMAND_ARGS - 1`: the slots before the terminating NULL. */
  const MaxArgs := 19

  /** The arguments src/flowc.c keeps: the first 19 fields of the command. */
  function CappedArgs(command: string): (r: seq<string>)
    ensures |r| <= MaxArgs && |r| <= |Fields(command, ' ')|
    ensures r == Fields(command, ' ')[..|r|]
    ensures |Fields(command, ' ')| <= MaxArgs ==> r == Fields(command, ' ')
    ensures |Fields(command, ' ')| > MaxArgs ==> |r| == MaxArgs
  {
    var fs := Fields(command, ' ');
    if |fs| <= MaxArgs then fs else fs[..MaxArgs]
  }

  /**
   * The command's argument loop of src/flowc.c: the first field, then one
   * field after another while fewer than 19 are stored and a field is left.
   */
  method TokenizeCommand(command: string) returns (args: seq<string>)
    ensures args == CappedArgs(command)
  {
    var fs := Split(command, ' ');
    args := [];
    var i := 0;
    while i < |fs| && i < MaxArgs
      invariant 0 <= i <= |fs| && i <= MaxArgs
      invariant args == fs[..i]
    {
      args := args + [fs[i]];
      i := i + 1;
    }
    assert i == |fs| ==> fs[..i] == fs;
  }
}
