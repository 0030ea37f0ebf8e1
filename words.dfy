// Whitespace word extraction, one `>>` read after another from an
// std::istringstream: flow8.cpp `split` (22-30), the `tokenize_command` of
// flow2.cpp (35-43) and flow.cpp (45-53), and the word reads of src/flow.cpp
// (50-59).  The quote-joining tokeniser reads its input the same way.

module Words {
  import opened Text
  import Toggle = ToggleTokenizer

  /** Finished words and the word being read. */
  datatype Scan = Scan(words: seq<string>, word: string)

  function Step(st: Scan, c: char): Scan
  {
    if IsSpace(c) then
      if st.word == "" then st else Scan(st.words + [st.word], "")
    else st.(word := st.word + [c])
  }

  function RunFrom(st: Scan, s: string): Scan
    decreases |s|
  {
    if |s| == 0 then st else Step(RunFrom(st, s[..|s| - 1]), s[|s| - 1])
  }

  function Finish(st: Scan): seq<string>
  {
    if st.word == "" then st.words else st.words + [st.word]
  }

  /** The words `iss >> token` extracts from `s`, in order. */
  function Words(s: string): seq<string>
  {
    Finish(RunFrom(Scan([], ""), s))
  }

  /** The extraction loop, proved to compute `Words`. */
  method Split(s: string) returns (words: seq<string>)
    ensures words == Words(s)
  {
    words := [];
    var word := "";
    var i := 0;
    while i < |s|
      invariant 0 <= i <= |s|
      invariant Scan(words, word) == RunFrom(Scan([], ""), s[..i])
    {
      assert s[..i + 1][..i] == s[..i];
      if IsSpace(s[i]) {
        if word != "" {
          words := words + [word];
          word := "";
        }
      } else {
        word := word + [s[i]];
      }
      i := i + 1;
    }
    assert s[..i] == s;
    if word != "" {
      words := words + [word];
    }
  }

  // ---------------------------------------------------------------
  // Properties
  // ---------------------------------------------------------------

  predicate IsWord(w: string)
  {
    w != "" && NoSpace(w)
  }

  predicate AllWords(ws: seq<string>)
  {
    forall i :: 0 <= i < |ws| ==> IsWord(ws[i])
  }

  lemma {:induction false} RunKeepsWords(st: Scan, s: string)
    requires AllWords(st.words) && NoSpace(st.word)
    ensures AllWords(RunFrom(st, s).words) && NoSpace(RunFrom(st, s).word)
    decreases |s|
  {
    if |s| > 0 {
      RunKeepsWords(st, s[..|s| - 1]);
    }
  }

  /** Every word is non-empty and free of white space. */
  lemma WordsAreWords(s: string)
    ensures AllWords(Words(s))
  {
    RunKeepsWords(Scan([], ""), s);
  }

  /** The non-space characters of `s`, in order. */
  function NonSpace(s: string): string
  {
    if |s| == 0 then "" else (if IsSpace(s[0]) then "" else [s[0]]) + NonSpace(s[1..])
  }

  lemma {:induction false} NonSpaceAppend(a: string, b: string)
    ensures NonSpace(a + b) == NonSpace(a) + NonSpace(b)
    decreases |a|
  {
    if |a| == 0 {
      assert a + b == b;
    } else {
      assert (a + b)[1..] == a[1..] + b;
      NonSpaceAppend(a[1..], b);
    }
  }

  lemma StepContent(st: Scan, c: char)
    ensures Toggle.Concat(Finish(Step(st, c))) == Toggle.Concat(Finish(st)) + NonSpace([c])
  {
    assert [c][1..] == [];
    assert NonSpace([c]) == if IsSpace(c) then "" else [c];
    Toggle.ConcatAppend(st.words, [st.word]);
    Toggle.ConcatOne(st.word);
    if IsSpace(c) {
      if st.word != "" {
        Toggle.ConcatAppend(st.words + [st.word], []);
      }
    } else {
      Toggle.ConcatAppend(st.words, [st.word + [c]]);
      Toggle.ConcatOne(st.word + [c]);
      if st.word == "" {
        assert st.word + [c] == [c];
      }
    }
  }

  lemma {:induction false} RunContent(st: Scan, s: string)
    ensures Toggle.Concat(Finish(RunFrom(st, s))) == Toggle.Concat(Finish(st)) + NonSpace(s)
    decreases |s|
  {
    if |s| > 0 {
      var s' := s[..|s| - 1];
      var c := s[|s| - 1];
      RunContent(st, s');
      assert s' + [c] == s;
      NonSpaceAppend(s', [c]);
      StepContent(RunFrom(st, s'), c);
    }
  }

  /** The words, laid end to end, are exactly the non-space characters of `s`. */
  lemma WordsKeepContent(s: string)
    ensures Toggle.Concat(Words(s)) == NonSpace(s)
  {
    RunContent(Scan([], ""), s);
  }

  predicate AllSpace(g: string)
  {
    forall i :: 0 <= i < |g| ==> IsSpace(g[i])
  }

  lemma {:induction false} RunWord(st: Scan, w: string)
    requires NoSpace(w)
    ensures RunFrom(st, w) == st.(word := st.word + w)
    decreases |w|
  {
    if |w| > 0 {
      RunWord(st, w[..|w| - 1]);
      assert w[..|w| - 1] + [w[|w| - 1]] == w;
    }
  }

  lemma {:induction false} RunGap(ws: seq<string>, w: string, g: string)
    requires w != "" && |g| > 0 && AllSpace(g)
    ensures RunFrom(Scan(ws, w), g) == Scan(ws + [w], "")
    decreases |g|
  {
    if |g| > 1 {
      RunGap(ws, w, g[..|g| - 1]);
    }
  }

  lemma {:induction false} RunAppend(st: Scan, a: string, b: string)
    ensures RunFrom(st, a + b) == RunFrom(RunFrom(st, a), b)
    decreases |b|
  {
    if |b| == 0 {
      assert a + b == a;
    } else {
      assert (a + b)[..|a + b| - 1] == a + b[..|b| - 1];
      RunAppend(st, a, b[..|b| - 1]);
    }
  }

  lemma WordThenGap(ws: seq<string>, w: string, g: string, rest: string)
    requires IsWord(w) && |g| > 0 && AllSpace(g)
    ensures RunFrom(Scan(ws, ""), w + g + rest) == RunFrom(Scan(ws + [w], ""), rest)
  {
    var st := Scan(ws, "");
    RunWord(st, w);
    assert "" + w == w;
    RunGap(ws, w, g);
    RunAppend(st, w, g);
    RunAppend(st, w + g, rest);
  }

  lemma {:induction false} JoinRun(ws: seq<string>, xs: seq<string>, g: string)
    requires |xs| > 0 && AllWords(xs) && |g| > 0 && AllSpace(g)
    ensures RunFrom(Scan(ws, ""), Join(xs, g)) == Scan(ws + xs[..|xs| - 1], xs[|xs| - 1])
    decreases |xs|
  {
    if |xs| == 1 {
      RunWord(Scan(ws, ""), xs[0]);
      assert "" + xs[0] == xs[0];
    } else {
      WordThenGap(ws, xs[0], g, Join(xs[1..], g));
      JoinRun(ws + [xs[0]], xs[1..], g);
      assert ws + [xs[0]] + xs[1..][..|xs| - 2] == ws + xs[..|xs| - 1];
    }
  }

  /** Words separated by any run of white space are read back as they were. */
  lemma JoinRoundTrip(xs: seq<string>, g: string)
    requires AllWords(xs) && |g| > 0 && AllSpace(g)
    ensures Words(Join(xs, g)) == xs
  {
    if |xs| > 0 {
      JoinRun([], xs, g);
      assert xs[..|xs| - 1] + [xs[|xs| - 1]] == xs;
    }
  }

  lemma PlainAreWords(xs: seq<string>)
    requires PlainWords(xs)
    ensures AllWords(xs)
  {
    forall i | 0 <= i < |xs|
      ensures IsWord(xs[i])
    {
      assert PlainText(xs[i]);
    }
  }

  /** Plain words joined by single spaces split back to themselves. */
  lemma PlainRoundTrip(xs: seq<string>)
    requires PlainWords(xs)
    ensures Words(Join(xs, " ")) == xs
  {
    PlainAreWords(xs);
    JoinRoundTrip(xs, " ");
  }

  predicate QuoteFree(s: string)
  {
    HasNo(s, '\'') && HasNo(s, '"')
  }

  /** The two scans describe the same position. */
  predicate Same(t: Toggle.Scan, u: Scan)
  {
    t.tokens == u.words && t.token == u.word && Toggle.Closed(t)
  }

  lemma {:induction false} RunsAgree(s: string)
    requires QuoteFree(s)
    ensures Same(Toggle.RunFrom(Toggle.Start, s), RunFrom(Scan([], ""), s))
    decreases |s|
  {
    if |s| > 0 {
      RunsAgree(s[..|s| - 1]);
    }
  }

  /** On text without quotes the quote-toggle tokeniser is exactly this split. */
  lemma AgreesWithToggleWithoutQuotes(s: string)
    requires QuoteFree(s)
    ensures Toggle.Tokens(s) == Words(s)
  {
    RunsAgree(s);
  }
}
