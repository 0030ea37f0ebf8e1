// The command tokeniser of flow7.1.cpp (`tokenize_command`, lines 31-76): a
// character state machine that remembers which quote opened the current
// span and rejects a line that ends inside one.

module StrictTokenizer {
  import opened Wrappers
  import opened Text
  import Toggle = ToggleTokenizer

  datatype TokenError = MismatchedQuotes

  /** The loop state: finished tokens, the pending token and the open quote, if any. */
  datatype Scan = Scan(tokens: seq<string>, token: string, inQuotes: bool, quote: char)

  const Start := Scan([], "", false, '\0')

  /** One character read by `iss.get()` before end of input. */
  function Step(st: Scan, c: char): Scan
  {
    if st.inQuotes then
      if c == st.quote then st.(inQuotes := false) else st.(token := st.token + [c])
    else if c == '\'' || c == '"' then st.(inQuotes := true, quote := c)
    else if IsSpace(c) then
      if st.token == "" then st else st.(tokens := st.tokens + [st.token], token := "")
    else st.(token := st.token + [c])
  }

  function RunFrom(st: Scan, s: string): Scan
    decreases |s|
  {
    if |s| == 0 then st else Step(RunFrom(st, s[..|s| - 1]), s[|s| - 1])
  }

  /** What `tokenize_command` returns for `line`, or the fatal mismatched-quote error. */
  function Tokenize(line: string): Result<seq<string>, TokenError>
  {
    var st := RunFrom(Start, line);
    if st.inQuotes then Err(MismatchedQuotes)
    else Ok(if st.token == "" then st.tokens else st.tokens + [st.token])
  }

  /** `tokenize_command`: the character loop, proved to compute `Tokenize`. */
  method TokenizeCommand(line: string) returns (r: Result<seq<string>, TokenError>)
    ensures r == Tokenize(line)
  {
    var tokens: seq<string> := [];
    var token := "";
    var quote := '\0';
    var inQuotes := false;
    var i := 0;
    while i < |line|
      invariant 0 <= i <= |line|
      invariant Scan(tokens, token, inQuotes, quote) == RunFrom(Start, line[..i])
    {
      var c := line[i];
      assert line[..i + 1][..i] == line[..i];
      if inQuotes {
        if c == quote {
          inQuotes := false;
        } else {
          token := token + [c];
        }
      } else {
        if c == '\'' || c == '"' {
          inQuotes := true;
          quote := c;
        } else if IsSpace(c) {
          if token != "" {
            tokens := tokens + [token];
            token := "";
          }
        } else {
          token := token + [c];
        }
      }
      i := i + 1;
    }
    assert line[..i] == line;
    // End of input: the pending token is emitted, then an open quote is fatal.
    if token != "" {
      tokens := tokens + [token];
      token := "";
    }
    if inQuotes {
      return Err(MismatchedQuotes);
    }
    return Ok(tokens);
  }

  // ---------------------------------------------------------------
  // Agreement with the quote-toggle tokeniser
  // ---------------------------------------------------------------

  /** A toggle-tokeniser state and a state of this machine that describe the same scan. */
  predicate Same(t: Toggle.Scan, u: Scan)
  {
    t.tokens == u.tokens && t.token == u.token && !(t.inSingle && t.inDouble)
    && (u.inQuotes <==> (t.inSingle || t.inDouble))
    && (t.inSingle ==> u.quote == '\'')
    && (t.inDouble ==> u.quote == '"')
  }

  lemma {:induction false} RunsAgree(s: string)
    ensures Same(Toggle.RunFrom(Toggle.Start, s), RunFrom(Start, s))
    decreases |s|
  {
    if |s| > 0 {
      RunsAgree(s[..|s| - 1]);
    }
  }

  /**
   * The two tokenisers agree: this one fails exactly when the toggle
   * tokeniser ends inside a quote, and otherwise returns the same tokens.
   */
  lemma AgreesWithToggle(line: string)
    ensures Tokenize(line)
         == if Toggle.Closed(Toggle.RunFrom(Toggle.Start, line)) then Ok(Toggle.Tokens(line))
            else Err(MismatchedQuotes)
  {
    RunsAgree(line);
  }

  // ---------------------------------------------------------------
  // Properties
  // ---------------------------------------------------------------

  /** Only non-empty tokens are emitted. */
  lemma NoEmptyToken(line: string)
    requires Tokenize(line).Ok?
    ensures Toggle.AllNonEmpty(Tokenize(line).value)
  {
    AgreesWithToggle(line);
    Toggle.NoEmptyToken(line);
  }

  /** Inside a span only the opening quote closes it; every other character is kept. */
  lemma {:induction false} RunInQuote(st: Scan, b: string)
    requires st.inQuotes && HasNo(b, st.quote)
    ensures RunFrom(st, b) == st.(token := st.token + b)
    decreases |b|
  {
    if |b| > 0 {
      var b' := b[..|b| - 1];
      RunInQuote(st, b');
      assert b' + [b[|b| - 1]] == b;
    }
  }

  lemma {:induction false} RunAppend(st: Scan, a: string, b: string)
    ensures RunFrom(st, a + b) == RunFrom(RunFrom(st, a), b)
    decreases |b|
  {
    if |b| == 0 {
      assert a + b == a;
    } else {
      assert (a + b)[..|a + b| - 1] == a + b[..|b| - 1];
      RunAppend(st, a, b[..|b| - 1]);
    }
  }

  lemma RunOne(st: Scan, c: char)
    ensures RunFrom(st, [c]) == Step(st, c)
  {
    assert [c][..0] == [];
  }

  /**
   * Reaching the end of the line inside a span is fatal, whatever the span
   * holds (the other quote kind and white space included).
   */
  lemma UnclosedQuoteFails(pre: string, q: char, rest: string)
    requires q == '\'' || q == '"'
    requires !RunFrom(Start, pre).inQuotes && HasNo(rest, q)
    ensures Tokenize(pre + [q] + rest) == Err(MismatchedQuotes)
  {
    var st := RunFrom(Start, pre);
    RunOne(st, q);
    RunInQuote(Step(st, q), rest);
    RunAppend(Start, pre, [q]);
    RunAppend(Start, pre + [q], rest);
  }

  /**
   * Outside quotes a quote opens a span and is dropped: `a'b'c` is the one
   * token `abc` whatever white space or other quotes `b` holds, and `''`
   * alone yields nothing.
   */
  lemma QuotedSpanGlues(a: string, q: char, b: string, c: string)
    requires q == '\'' || q == '"'
    requires PlainText(a) && PlainText(c) && HasNo(b, q)
    ensures Tokenize(a + [q] + b + [q] + c) == Ok(if a + b + c == "" then [] else [a + b + c])
  {
    AgreesWithToggle(a + [q] + b + [q] + c);
    if q == '\'' {
      Toggle.SingleQuotedSpanGlues(a, b, c);
      ToggleEndsClosedSingle(a, b, c);
    } else {
      Toggle.DoubleQuotedSpanGlues(a, b, c);
      ToggleEndsClosedDouble(a, b, c);
    }
  }

  lemma ToggleEndsClosedSingle(a: string, b: string, c: string)
    requires PlainText(a) && PlainText(c) && HasNo(b, '\'')
    ensures Toggle.Closed(Toggle.RunFrom(Toggle.Start, a + "'" + b + "'" + c))
  {
    var st1 := Toggle.RunFrom(Toggle.Start, a);
    Toggle.RunPlain(Toggle.Start, a);
    var st2 := Toggle.RunFrom(st1, "'");
    Toggle.RunOne(st1, '\'');
    var st3 := Toggle.RunFrom(st2, b);
    Toggle.RunInSingle(st2, b);
    var st4 := Toggle.RunFrom(st3, "'");
    Toggle.RunOne(st3, '\'');
    Toggle.RunPlain(st4, c);
    Toggle.RunAppend(Toggle.Start, a, "'");
    Toggle.RunAppend(Toggle.Start, a + "'", b);
    Toggle.RunAppend(Toggle.Start, a + "'" + b, "'");
    Toggle.RunAppend(Toggle.Start, a + "'" + b + "'", c);
  }

  lemma ToggleEndsClosedDouble(a: string, b: string, c: string)
    requires PlainText(a) && PlainText(c) && HasNo(b, '"')
    ensures Toggle.Closed(Toggle.RunFrom(Toggle.Start, a + "\"" + b + "\"" + c))
  {
    var st1 := Toggle.RunFrom(Toggle.Start, a);
    Toggle.RunPlain(Toggle.Start, a);
    var st2 := Toggle.RunFrom(st1, "\"");
    Toggle.RunOne(st1, '"');
    var st3 := Toggle.RunFrom(st2, b);
    Toggle.RunInDouble(st2, b);
    var st4 := Toggle.RunFrom(st3, "\"");
    Toggle.RunOne(st3, '"');
    Toggle.RunPlain(st4, c);
    Toggle.RunAppend(Toggle.Start, a, "\"");
    Toggle.RunAppend(Toggle.Start, a + "\"", b);
    Toggle.RunAppend(Toggle.Start, a + "\"" + b, "\"");
    Toggle.RunAppend(Toggle.Start, a + "\"" + b + "\"", c);
  }

  /** Plain words joined by single spaces tokenise back to themselves. */
  lemma PlainRoundTrip(words: seq<string>)
    requires PlainWords(words)
    ensures Tokenize(Join(words, " ")) == Ok(words)
  {
    AgreesWithToggle(Join(words, " "));
    Toggle.PlainRoundTrip(words);
    if |words| > 0 {
      Toggle.PlainJoinRun([], words);
    }
  }

  /** Single-quoted arguments joined by spaces tokenise back to the arguments. */
  lemma QuotedRoundTrip(args: seq<string>)
    requires Toggle.Quotable(args)
    ensures Tokenize(Join(Toggle.QuoteAll(args), " ")) == Ok(args)
  {
    AgreesWithToggle(Join(Toggle.QuoteAll(args), " "));
    Toggle.QuotedRoundTrip(args);
    if |args| > 0 {
      Toggle.QuotedJoinRun([], args);
    }
  }
}
