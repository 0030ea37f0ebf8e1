// The quote-toggle command tokeniser shared by src/mix.cpp, src/mix2.cpp and
// src/mix4.cpp (`tokenize_command`): a single pass over the characters
// with one flag per quote kind.

module ToggleTokenizer {
  import opened Text

  /** The loop state of `tokenize_command`. */
  datatype Scan = Scan(tokens: seq<string>, token: string, inSingle: bool, inDouble: bool)

  const Start := Scan([], "", false, false)

  predicate Closed(st: Scan)
  {
    !st.inSingle && !st.inDouble
  }

  /** One iteration of the character loop. */
  function Step(st: Scan, c: char): Scan
  {
    if c == '\'' && !st.inDouble then st.(inSingle := !st.inSingle)
    else if c == '"' && !st.inSingle then st.(inDouble := !st.inDouble)
    else if IsSpace(c) && Closed(st) then
      if st.token == "" then st else st.(tokens := st.tokens + [st.token], token := "")
    else st.(token := st.token + [c])
  }

  /** The state after feeding `s` to the loop, starting from `st`. */
  function RunFrom(st: Scan, s: string): Scan
    decreases |s|
  {
    if |s| == 0 then st else Step(RunFrom(st, s[..|s| - 1]), s[|s| - 1])
  }

  /** The pending token is emitted when it is not empty. */
  function Finish(st: Scan): seq<string>
  {
    if st.token == "" then st.tokens else st.tokens + [st.token]
  }

  /** The token list `tokenize_command` returns for `line`. */
  function Tokens(line: string): seq<string>
  {
    Finish(RunFrom(Start, line))
  }

  /** `tokenize_command`: the loop itself, proved to compute `Tokens`. */
  method TokenizeCommand(line: string) returns (tokens: seq<string>)
    ensures tokens == Tokens(line)
  {
    tokens := [];
    var token := "";
    var inSingle := false;
    var inDouble := false;
    var i := 0;
    while i < |line|
      invariant 0 <= i <= |line|
      invariant Scan(tokens, token, inSingle, inDouble) == RunFrom(Start, line[..i])
    {
      var c := line[i];
      assert line[..i + 1][..i] == line[..i];
      if c == '\'' && !inDouble {
        inSingle := !inSingle;
      } else if c == '"' && !inSingle {
        inDouble := !inDouble;
      } else if IsSpace(c) && !inSingle && !inDouble {
        if token != "" {
          tokens := tokens + [token];
          token := "";
        }
      } else {
        token := token + [c];
      }
      i := i + 1;
    }
    assert line[..i] == line;
    if token != "" {
      tokens := tokens + [token];
    }
  }

  // ---------------------------------------------------------------
  // Composition of the loop
  // ---------------------------------------------------------------

  lemma {:induction false} RunAppend(st: Scan, a: string, b: string)
    ensures RunFrom(st, a + b) == RunFrom(RunFrom(st, a), b)
    decreases |b|
  {
    if |b| == 0 {
      assert a + b == a;
    } else {
      assert (a + b)[..|a + b| - 1] == a + b[..|b| - 1];
      RunAppend(st, a, b[..|b| - 1]);
    }
  }

  lemma RunOne(st: Scan, c: char)
    ensures RunFrom(st, [c]) == Step(st, c)
  {
    assert [c][..0] == [];
  }

  /** Characters that are neither quotes nor white space only grow the token. */
  lemma {:induction false} RunPlain(st: Scan, w: string)
    requires Closed(st) && PlainText(w)
    ensures RunFrom(st, w) == st.(token := st.token + w)
    decreases |w|
  {
    if |w| > 0 {
      var w' := w[..|w| - 1];
      assert PlainText(w');
      RunPlain(st, w');
      assert w' + [w[|w| - 1]] == w;
    }
  }

  /** Inside an open single-quoted span every character except `'` is kept. */
  lemma {:induction false} RunInSingle(st: Scan, b: string)
    requires st.inSingle && !st.inDouble && HasNo(b, '\'')
    ensures RunFrom(st, b) == st.(token := st.token + b)
    decreases |b|
  {
    if |b| > 0 {
      var b' := b[..|b| - 1];
      RunInSingle(st, b');
      assert b' + [b[|b| - 1]] == b;
    }
  }

  /** Inside an open double-quoted span every character except `"` is kept. */
  lemma {:induction false} RunInDouble(st: Scan, b: string)
    requires st.inDouble && !st.inSingle && HasNo(b, '"')
    ensures RunFrom(st, b) == st.(token := st.token + b)
    decreases |b|
  {
    if |b| > 0 {
      var b' := b[..|b| - 1];
      RunInDouble(st, b');
      assert b' + [b[|b| - 1]] == b;
    }
  }

  // ---------------------------------------------------------------
  // Properties of the tokeniser
  // ---------------------------------------------------------------

  predicate AllNonEmpty(ts: seq<string>)
  {
    forall i :: 0 <= i < |ts| ==> ts[i] != ""
  }

  lemma {:induction false} RunKeepsNonEmpty(st: Scan, s: string)
    requires AllNonEmpty(st.tokens)
    ensures AllNonEmpty(RunFrom(st, s).tokens)
    decreases |s|
  {
    if |s| > 0 {
      RunKeepsNonEmpty(st, s[..|s| - 1]);
    }
  }

  /** No token the tokeniser returns is empty. */
  lemma NoEmptyToken(line: string)
    ensures AllNonEmpty(Tokens(line))
  {
    RunKeepsNonEmpty(Start, line);
  }

  /**
   * The characters that survive, in order: a quote that opens or closes a
   * span is dropped, white space outside quotes is dropped, and everything
   * else (white space and the other quote kind inside a span) is kept.
   */
  function Kept(inSingle: bool, inDouble: bool, s: string): string
    decreases |s|
  {
    if |s| == 0 then ""
    else
      var c := s[0];
      if c == '\'' && !inDouble then Kept(!inSingle, inDouble, s[1..])
      else if c == '"' && !inSingle then Kept(inSingle, !inDouble, s[1..])
      else if IsSpace(c) && !inSingle && !inDouble then Kept(inSingle, inDouble, s[1..])
      else [c] + Kept(inSingle, inDouble, s[1..])
  }

  function Concat(ts: seq<string>): string
  {
    if |ts| == 0 then "" else ts[0] + Concat(ts[1..])
  }

  lemma {:induction false} ConcatAppend(ts: seq<string>, us: seq<string>)
    ensures Concat(ts + us) == Concat(ts) + Concat(us)
    decreases |ts|
  {
    if |ts| == 0 {
      assert ts + us == us;
    } else {
      assert (ts + us)[1..] == ts[1..] + us;
      ConcatAppend(ts[1..], us);
    }
  }

  lemma ConcatOne(t: string)
    ensures Concat([t]) == t
  {
  }

  lemma {:induction false} KeptRun(st: Scan, s: string)
    ensures Concat(Finish(RunFrom(st, s)))
         == Concat(st.tokens) + st.token + Kept(st.inSingle, st.inDouble, s)
    decreases |s|
  {
    if |s| == 0 {
      ConcatAppend(st.tokens, [st.token]);
    } else {
      RunCons(st, s);
      KeptRun(Step(st, s[0]), s[1..]);
      KeptStep(st, s);
    }
  }

  lemma RunCons(st: Scan, s: string)
    requires |s| > 0
    ensures RunFrom(st, s) == RunFrom(Step(st, s[0]), s[1..])
  {
    RunOne(st, s[0]);
    RunAppend(st, [s[0]], s[1..]);
    assert [s[0]] + s[1..] == s;
  }

  /** One step of the loop moves its first character from `Kept`'s input into the tokens. */
  lemma KeptStep(st: Scan, s: string)
    requires |s| > 0
    ensures Concat(Step(st, s[0]).tokens) + Step(st, s[0]).token
              + Kept(Step(st, s[0]).inSingle, Step(st, s[0]).inDouble, s[1..])
         == Concat(st.tokens) + st.token + Kept(st.inSingle, st.inDouble, s)
  {
    var c := s[0];
    var k := Kept(st.inSingle, st.inDouble, s[1..]);
    if c == '\'' && !st.inDouble {
      assert Kept(st.inSingle, st.inDouble, s) == Kept(!st.inSingle, st.inDouble, s[1..]);
    } else if c == '"' && !st.inSingle {
      assert Kept(st.inSingle, st.inDouble, s) == Kept(st.inSingle, !st.inDouble, s[1..]);
    } else if IsSpace(c) && Closed(st) {
      assert Kept(st.inSingle, st.inDouble, s) == k;
      if st.token != "" {
        var ts := st.tokens + [st.token];
        assert Step(st, c) == Scan(ts, "", st.inSingle, st.inDouble);
        ConcatAppend(st.tokens, [st.token]);
        ConcatOne(st.token);
        Regroup(Concat(st.tokens), st.token, "", k);
      }
    } else {
      assert Step(st, c) == st.(token := st.token + [c]);
      assert Kept(st.inSingle, st.inDouble, s) == [c] + k;
      Regroup(Concat(st.tokens), st.token, [c], k);
    }
  }

  lemma Regroup(a: string, t: string, c: string, k: string)
    ensures a + (t + c) + k == a + t + (c + k)
  {
  }

  /** The tokens laid end to end are exactly the characters `Kept` keeps. */
  lemma TokensKeepContent(line: string)
    ensures Concat(Tokens(line)) == Kept(false, false, line)
  {
    KeptRun(Start, line);
  }

  /**
   * A quoted span glues onto the text around it: `a'b'c` is one token
   * `abc`, whatever white space or double quotes `b` holds, and `''` alone
   * yields no token.
   */
  lemma SingleQuotedSpanGlues(a: string, b: string, c: string)
    requires PlainText(a) && PlainText(c) && HasNo(b, '\'')
    ensures Tokens(a + "'" + b + "'" + c) == if a + b + c == "" then [] else [a + b + c]
  {
    var st1 := RunFrom(Start, a);
    RunPlain(Start, a);
    var st2 := RunFrom(st1, "'");
    RunOne(st1, '\'');
    var st3 := RunFrom(st2, b);
    RunInSingle(st2, b);
    var st4 := RunFrom(st3, "'");
    RunOne(st3, '\'');
    var st5 := RunFrom(st4, c);
    RunPlain(st4, c);
    assert st5 == Scan([], a + b + c, false, false);
    RunAppend(Start, a, "'");
    RunAppend(Start, a + "'", b);
    RunAppend(Start, a + "'" + b, "'");
    RunAppend(Start, a + "'" + b + "'", c);
  }

  /** The same gluing for a double-quoted span. */
  lemma DoubleQuotedSpanGlues(a: string, b: string, c: string)
    requires PlainText(a) && PlainText(c) && HasNo(b, '"')
    ensures Tokens(a + "\"" + b + "\"" + c) == if a + b + c == "" then [] else [a + b + c]
  {
    var st1 := RunFrom(Start, a);
    RunPlain(Start, a);
    var st2 := RunFrom(st1, "\"");
    RunOne(st1, '"');
    var st3 := RunFrom(st2, b);
    RunInDouble(st2, b);
    var st4 := RunFrom(st3, "\"");
    RunOne(st3, '"');
    var st5 := RunFrom(st4, c);
    RunPlain(st4, c);
    assert st5 == Scan([], a + b + c, false, false);
    RunAppend(Start, a, "\"");
    RunAppend(Start, a + "\"", b);
    RunAppend(Start, a + "\"" + b, "\"");
    RunAppend(Start, a + "\"" + b + "\"", c);
  }

  /** `a'b c'd` is the single token `ab cd`; `''` and `""` alone yield nothing. */
  lemma GlueExamples()
    ensures Tokens("a'b c'd") == ["ab cd"]
    ensures Tokens("''") == []
    ensures Tokens("\"\"") == []
  {
    SingleQuotedSpanGlues("a", "b c", "d");
    assert "a" + "'" + "b c" + "'" + "d" == "a'b c'd";
    assert "a" + "b c" + "d" == "ab cd";
    SingleQuotedSpanGlues("", "", "");
    assert "" + "'" + "" + "'" + "" == "''";
    DoubleQuotedSpanGlues("", "", "");
    assert "" + "\"" + "" + "\"" + "" == "\"\"";
  }

  /**
   * An unterminated quote is no error: when the scan before it is outside
   * quotes, everything after the quote, white space included, joins the
   * pending token.
   */
  lemma UnterminatedQuoteJoinsRest(pre: string, rest: string)
    requires Closed(RunFrom(Start, pre)) && HasNo(rest, '\'')
    ensures Tokens(pre + "'" + rest)
         == Finish(RunFrom(Start, pre).(token := RunFrom(Start, pre).token + rest))
  {
    var st := RunFrom(Start, pre);
    RunOne(st, '\'');
    RunInSingle(Step(st, '\''), rest);
    RunAppend(Start, pre, "'");
    RunAppend(Start, pre + "'", rest);
  }

  /** One word followed by a space: the word becomes a finished token. */
  lemma WordThenSpace(tokens: seq<string>, w: string, rest: string)
    requires w != "" && PlainText(w)
    ensures RunFrom(Scan(tokens, "", false, false), w + " " + rest)
         == RunFrom(Scan(tokens + [w], "", false, false), rest)
  {
    var st := Scan(tokens, "", false, false);
    RunPlain(st, w);
    assert "" + w == w;
    assert RunFrom(st, w) == Scan(tokens, w, false, false);
    RunOne(RunFrom(st, w), ' ');
    RunAppend(st, w, " ");
    RunAppend(st, w + " ", rest);
  }

  lemma {:induction false} PlainJoinRun(tokens: seq<string>, words: seq<string>)
    requires |words| > 0 && PlainWords(words)
    ensures RunFrom(Scan(tokens, "", false, false), Join(words, " "))
         == Scan(tokens + words[..|words| - 1], words[|words| - 1], false, false)
    decreases |words|
  {
    if |words| == 1 {
      RunPlain(Scan(tokens, "", false, false), words[0]);
    } else {
      WordThenSpace(tokens, words[0], Join(words[1..], " "));
      PlainJoinRun(tokens + [words[0]], words[1..]);
      assert tokens + [words[0]] + words[1..][..|words| - 2] == tokens + words[..|words| - 1];
    }
  }

  /** Plain words joined by single spaces tokenise back to themselves. */
  lemma PlainRoundTrip(words: seq<string>)
    requires PlainWords(words)
    ensures Tokens(Join(words, " ")) == words
  {
    if |words| > 0 {
      PlainJoinRun([], words);
      assert words[..|words| - 1] + [words[|words| - 1]] == words;
    }
  }

  function SingleQuote(a: string): string
  {
    "'" + a + "'"
  }

  function QuoteAll(args: seq<string>): (r: seq<string>)
    ensures |r| == |args|
    ensures forall i :: 0 <= i < |args| ==> r[i] == SingleQuote(args[i])
  {
    if |args| == 0 then [] else [SingleQuote(args[0])] + QuoteAll(args[1..])
  }

  lemma QuotedThenSpace(tokens: seq<string>, a: string, rest: string)
    requires HasNo(a, '\'')
    ensures RunFrom(Scan(tokens, "", false, false), SingleQuote(a) + rest)
         == RunFrom(Scan(tokens, a, false, false), rest)
  {
    var st := Scan(tokens, "", false, false);
    RunOne(st, '\'');
    RunInSingle(Step(st, '\''), a);
    assert "" + a == a;
    assert RunFrom(Step(st, '\''), a) == Scan(tokens, a, true, false);
    RunOne(RunFrom(Step(st, '\''), a), '\'');
    RunAppend(st, "'", a);
    RunAppend(st, "'" + a, "'");
    RunAppend(st, SingleQuote(a), rest);
  }

  predicate Quotable(args: seq<string>)
  {
    forall i :: 0 <= i < |args| ==> args[i] != "" && HasNo(args[i], '\'')
  }

  lemma QuotedWordThenSpace(tokens: seq<string>, a: string, rest: string)
    requires a != "" && HasNo(a, '\'')
    ensures RunFrom(Scan(tokens, "", false, false), SingleQuote(a) + " " + rest)
         == RunFrom(Scan(tokens + [a], "", false, false), rest)
  {
    QuotedThenSpace(tokens, a, " " + rest);
    assert SingleQuote(a) + " " + rest == SingleQuote(a) + (" " + rest);
    var st := Scan(tokens, a, false, false);
    RunOne(st, ' ');
    RunAppend(st, " ", rest);
  }

  lemma {:induction false} QuotedJoinRun(tokens: seq<string>, args: seq<string>)
    requires |args| > 0 && Quotable(args)
    ensures RunFrom(Scan(tokens, "", false, false), Join(QuoteAll(args), " "))
         == Scan(tokens + args[..|args| - 1], args[|args| - 1], false, false)
    decreases |args|
  {
    if |args| == 1 {
      QuotedThenSpace(tokens, args[0], "");
      assert SingleQuote(args[0]) + "" == SingleQuote(args[0]);
    } else {
      var tail := args[1..];
      var r := Join(QuoteAll(tail), " ");
      QuotableTail(args);
      calc {
        RunFrom(Scan(tokens, "", false, false), Join(QuoteAll(args), " "));
        { QuotedJoinCons(args); }
        RunFrom(Scan(tokens, "", false, false), SingleQuote(args[0]) + " " + r);
        { QuotedWordThenSpace(tokens, args[0], r); }
        RunFrom(Scan(tokens + [args[0]], "", false, false), r);
        { QuotedJoinRun(tokens + [args[0]], tail); }
        Scan(tokens + [args[0]] + tail[..|tail| - 1], tail[|tail| - 1], false, false);
        { ShiftFirst(tokens, args); }
        Scan(tokens + args[..|args| - 1], args[|args| - 1], false, false);
      }
    }
  }

  lemma QuotableTail(args: seq<string>)
    requires |args| > 0 && Quotable(args)
    ensures Quotable(args[1..]) && args[0] != "" && HasNo(args[0], '\'')
  {
    assert forall i :: 0 <= i < |args| - 1 ==> args[1..][i] == args[i + 1];
  }

  /** The quoted line of several arguments is the first one quoted, a space, then the rest. */
  lemma QuotedJoinCons(args: seq<string>)
    requires |args| > 1
    ensures Join(QuoteAll(args), " ") == SingleQuote(args[0]) + " " + Join(QuoteAll(args[1..]), " ")
  {
    var q := QuoteAll(args);
    assert q[1..] == QuoteAll(args[1..]);
  }

  lemma ShiftFirst(tokens: seq<string>, args: seq<string>)
    requires |args| > 1
    ensures tokens + [args[0]] + args[1..][..|args[1..]| - 1] == tokens + args[..|args| - 1]
    ensures args[1..][|args[1..]| - 1] == args[|args| - 1]
  {
    assert [args[0]] + args[1..][..|args| - 2] == args[..|args| - 1];
  }

  /**
   * Non-empty arguments without `'`, each wrapped in single quotes and
   * joined by spaces, tokenise back to the same arguments: white space and
   * double quotes inside a span are literal text.
   */
  lemma QuotedRoundTrip(args: seq<string>)
    requires Quotable(args)
    ensures Tokens(Join(QuoteAll(args), " ")) == args
  {
    if |args| > 0 {
      QuotedJoinRun([], args);
      assert args[..|args| - 1] + [args[|args| - 1]] == args;
    }
  }

  /** The quoting cases of the test script: `echo 'f o o'` keeps one spaced argument. */
  lemma ToggleSpacedQuote()
    ensures Tokens("echo 'f o o'") == ["echo", "f o o"]
  {
    var q := SingleQuote("f o o");
    assert PlainText("echo");
    WordThenSpace([], "echo", q);
    QuotedThenSpace(["echo"], "f o o", "");
    assert q + "" == q;
    assert [] + ["echo"] == ["echo"];
    assert RunFrom(Start, "echo" + " " + q) == Scan(["echo"], "f o o", false, false);
    assert "echo 'f o o'" == "echo" + " " + q;
  }

  /** `echo 'foo'` passes `foo` without its quotes. */
  lemma ScriptSingleQuotedWord()
    ensures Tokens("echo 'foo'") == ["echo", "foo"]
  {
    var q := SingleQuote("foo");
    assert PlainText("echo");
    WordThenSpace([], "echo", q);
    QuotedThenSpace(["echo"], "foo", "");
    assert q + "" == q;
    assert [] + ["echo"] == ["echo"];
    assert RunFrom(Start, "echo" + " " + q) == Scan(["echo"], "foo", false, false);
    assert "echo 'foo'" == "echo" + " " + q;
  }

  lemma DoubleQuotedUnit(tokens: seq<string>, a: string)
    requires HasNo(a, '"')
    ensures RunFrom(Scan(tokens, "", false, false), "\"" + a + "\"") == Scan(tokens, a, false, false)
  {
    var st := Scan(tokens, "", false, false);
    var st1 := Step(st, '"');
    RunOne(st, '"');
    RunInDouble(st1, a);
    assert "" + a == a;
    RunOne(RunFrom(st1, a), '"');
    RunAppend(st, "\"", a);
    RunAppend(st, "\"" + a, "\"");
  }

  /** `echo "foo"` passes `foo` without its quotes. */
  lemma ScriptDoubleQuotedWord()
    ensures Tokens("echo \"foo\"") == ["echo", "foo"]
  {
    var d := "\"" + "foo" + "\"";
    assert PlainText("echo");
    WordThenSpace([], "echo", d);
    assert [] + ["echo"] == ["echo"];
    DoubleQuotedUnit(["echo"], "foo");
    assert RunFrom(Start, "echo" + " " + d) == Scan(["echo"], "foo", false, false);
    assert "echo \"foo\"" == "echo" + " " + d;
  }
}
