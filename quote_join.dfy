// The quote re-joining command tokeniser of flow3.cpp (32-62), flow4.cpp
// (33-59), flow5.cpp (31-57), flow6.cpp (30-56) and src/flow3.cpp (27-57):
// the line is read word by word with `iss >> token`, and a word that starts
// with a quote is glued to the following words with single spaces until the
// glued text ends with that quote.

module QuoteJoin {
  import opened Wrappers
  import opened Text
  import W = Words

  predicate IsQuote(c: char)
  {
    c == '\'' || c == '"'
  }

  predicate EndsWith(w: string, q: char)
  {
    |w| > 0 && w[|w| - 1] == q
  }

  /** `quoted_token.substr(1, length - 2)`: the outer characters removed. */
  function Strip(t: string): string
  {
    if |t| < 2 then "" else t[1..|t| - 1]
  }

  /** The first word of `xs` that ends with `q`. */
  function FirstEnding(xs: seq<string>, q: char): (r: Option<nat>)
    ensures r.Some? ==> r.value < |xs| && EndsWith(xs[r.value], q)
                        && forall j :: 0 <= j < r.value ==> !EndsWith(xs[j], q)
    ensures r.None? ==> forall j :: 0 <= j < |xs| ==> !EndsWith(xs[j], q)
  {
    if |xs| == 0 then None
    else if EndsWith(xs[0], q) then Some(0)
    else
      match FirstEnding(xs[1..], q)
      case None => None
      case Some(k) => Some(k + 1)
  }

  /**
   * The tokens for a stream of words: a word that does not start with a
   * quote is kept; a quoted word that closes itself (longer than 1 and
   * ending with its quote) is stripped; otherwise it is glued up to the
   * first later word ending with the quote and stripped, and when no such
   * word exists the tokens gathered so far are all there is.
   */
  function QuoteJoin(ws: seq<string>): seq<string>
    requires W.AllWords(ws)
    decreases |ws|
  {
    if |ws| == 0 then []
    else
      var w := ws[0];
      if IsQuote(w[0]) then
        if |w| > 1 && EndsWith(w, w[0]) then [Strip(w)] + QuoteJoin(ws[1..])
        else
          match FirstEnding(ws[1..], w[0])
          case None => []
          case Some(k) => [Strip(Join(ws[..k + 2], " "))] + QuoteJoin(ws[k + 2..])
      else [w] + QuoteJoin(ws[1..])
  }

  /** The tokens `tokenize_command` returns for `line`. */
  function Tokens(line: string): seq<string>
  {
    W.WordsAreWords(line);
    QuoteJoin(W.Words(line))
  }

  /** Whether the glued text for words `start..j` ends the quoted argument. */
  predicate ClosesAt(ws: seq<string>, start: nat, j: nat, q: char)
    requires start <= j < |ws|
  {
    if j == start then |ws[start]| > 1 && EndsWith(ws[start], q) else EndsWith(ws[j], q)
  }

  lemma JoinFacts(xs: seq<string>)
    requires |xs| > 0 && W.AllWords(xs)
    ensures |Join(xs, " ")| >= |xs[|xs| - 1]|
    ensures Join(xs, " ")[|Join(xs, " ")| - 1] == xs[|xs| - 1][|xs[|xs| - 1]| - 1]
    ensures |xs| > 1 ==> |Join(xs, " ")| > 1
  {
    if |xs| > 1 {
      var xs' := xs[..|xs| - 1];
      assert xs' + [xs[|xs| - 1]] == xs;
      JoinSnoc(xs', xs[|xs| - 1], " ");
    }
  }

  lemma UnquotedStep(ws: seq<string>, i: nat)
    requires W.AllWords(ws) && i < |ws| && !IsQuote(ws[i][0])
    ensures QuoteJoin(ws[i..]) == [ws[i]] + QuoteJoin(ws[i + 1..])
  {
    assert ws[i..][1..] == ws[i + 1..];
  }

  /** The first word ending with `q` is the one the search finds. */
  lemma FirstEndingIs(xs: seq<string>, q: char, k: nat)
    requires k < |xs| && EndsWith(xs[k], q)
    requires forall j :: 0 <= j < k ==> !EndsWith(xs[j], q)
    ensures FirstEnding(xs, q) == Some(k)
  {
  }

  lemma QuotedChunk(ws: seq<string>, start: nat, e: nat)
    requires W.AllWords(ws) && start <= e < |ws| && IsQuote(ws[start][0])
    requires ClosesAt(ws, start, e, ws[start][0])
    requires forall j :: start <= j < e ==> !ClosesAt(ws, start, j, ws[start][0])
    ensures QuoteJoin(ws[start..]) == [Strip(Join(ws[start..e + 1], " "))] + QuoteJoin(ws[e + 1..])
  {
    if e == start {
      assert ws[start..][1..] == ws[e + 1..];
      assert ws[start..e + 1] == [ws[start]];
    } else {
      assert !ClosesAt(ws, start, start, ws[start][0]);
      GluedChunk(ws, start, e);
    }
  }

  lemma GluedChunk(ws: seq<string>, start: nat, e: nat)
    requires W.AllWords(ws) && start < e < |ws| && IsQuote(ws[start][0])
    requires !(|ws[start]| > 1 && EndsWith(ws[start], ws[start][0]))
    requires EndsWith(ws[e], ws[start][0])
    requires forall j :: start < j < e ==> !ClosesAt(ws, start, j, ws[start][0])
    ensures QuoteJoin(ws[start..]) == [Strip(Join(ws[start..e + 1], " "))] + QuoteJoin(ws[e + 1..])
  {
    var xs := ws[start..];
    var q := ws[start][0];
    var k := e - start - 1;
    assert xs[1..][k] == ws[e];
    forall j | 0 <= j < k
      ensures !EndsWith(xs[1..][j], q)
    {
      assert xs[1..][j] == ws[start + 1 + j];
      assert !ClosesAt(ws, start, start + 1 + j, q);
    }
    FirstEndingIs(xs[1..], q, k);
    assert xs[..k + 2] == ws[start..e + 1];
    assert xs[k + 2..] == ws[e + 1..];
  }

  lemma QuotedUnclosed(ws: seq<string>, start: nat)
    requires W.AllWords(ws) && start < |ws| && IsQuote(ws[start][0])
    requires forall j :: start <= j < |ws| ==> !ClosesAt(ws, start, j, ws[start][0])
    ensures QuoteJoin(ws[start..]) == []
  {
    var xs := ws[start..];
    var q := ws[start][0];
    assert !ClosesAt(ws, start, start, q);
    forall j | 0 <= j < |xs[1..]|
      ensures !EndsWith(xs[1..][j], q)
    {
      assert xs[1..][j] == ws[start + 1 + j];
      assert !ClosesAt(ws, start, start + 1 + j, q);
    }
  }

  /**
   * The inner loop of `tokenize_command`: glue the words after the quoted
   * word at `start` until the glued text ends with quote `q`; `end` is the
   * index of the last word used, or None when the words ran out first.
   */
  method GlueQuoted(ws: seq<string>, start: nat, q: char) returns (end: Option<nat>, quoted: string)
    requires W.AllWords(ws) && start < |ws| && ws[start][0] == q
    ensures end.Some? ==> start <= end.value < |ws| && ClosesAt(ws, start, end.value, q)
                          && quoted == Join(ws[start..end.value + 1], " ")
    ensures end.Some? ==> forall j :: start <= j < end.value ==> !ClosesAt(ws, start, j, q)
    ensures end.None? ==> forall j :: start <= j < |ws| ==> !ClosesAt(ws, start, j, q)
  {
    var i := start + 1;
    quoted := ws[start];
    assert ws[start..i] == [ws[start]];
    while quoted[|quoted| - 1] != q || |quoted| == 1
      invariant start < i <= |ws|
      invariant quoted == Join(ws[start..i], " ")
      invariant forall j :: start <= j < i - 1 ==> !ClosesAt(ws, start, j, q)
      decreases |ws| - i
    {
      JoinFacts(ws[start..i]);
      assert ws[start..i][i - 1 - start] == ws[i - 1];
      assert !ClosesAt(ws, start, i - 1, q);
      if i >= |ws| {
        return None, quoted;
      }
      assert ws[start..i + 1] == ws[start..i] + [ws[i]];
      JoinSnoc(ws[start..i], ws[i], " ");
      quoted := quoted + " " + ws[i];
      i := i + 1;
    }
    JoinFacts(ws[start..i]);
    assert ws[start..i][i - 1 - start] == ws[i - 1];
    return Some(i - 1), quoted;
  }

  lemma Carry(tokens: seq<string>, x: string, rest: seq<string>, total: seq<string>)
    requires tokens + ([x] + rest) == total
    ensures (tokens + [x]) + rest == total
  {
  }

  /** The loop invariant of `tokenize_command`: `tokens` and the tokens of the words from `i` on make up all the tokens. */
  ghost predicate Joined(ws: seq<string>, i: nat, tokens: seq<string>)
    requires W.AllWords(ws) && i <= |ws|
  {
    tokens + QuoteJoin(ws[i..]) == QuoteJoin(ws)
  }

  lemma JoinedStart(ws: seq<string>)
    requires W.AllWords(ws)
    ensures Joined(ws, 0, [])
  {
    assert ws[0..] == ws;
  }

  lemma JoinedEnd(ws: seq<string>, tokens: seq<string>)
    requires W.AllWords(ws) && Joined(ws, |ws|, tokens)
    ensures tokens == QuoteJoin(ws)
  {
    assert ws[|ws|..] == [];
    assert tokens + [] == tokens;
  }

  /** A quoted argument that never closes ends the tokens. */
  lemma UnclosedEnds(ws: seq<string>, i: nat, tokens: seq<string>)
    requires W.AllWords(ws) && i < |ws| && IsQuote(ws[i][0])
    requires forall j :: i <= j < |ws| ==> !ClosesAt(ws, i, j, ws[i][0])
    requires Joined(ws, i, tokens)
    ensures tokens == QuoteJoin(ws)
  {
    QuotedUnclosed(ws, i);
    assert tokens + [] == tokens;
  }

  /** One unquoted word of the loop: it is kept, and the loop invariant carries over. */
  lemma UnquotedKeeps(ws: seq<string>, i: nat, tokens: seq<string>)
    requires W.AllWords(ws) && i < |ws| && !IsQuote(ws[i][0])
    requires Joined(ws, i, tokens)
    ensures Joined(ws, i + 1, tokens + [ws[i]])
  {
    UnquotedStep(ws, i);
    Carry(tokens, ws[i], QuoteJoin(ws[i + 1..]), QuoteJoin(ws));
  }

  /** One quoted argument of the loop: its glued text is kept, and the loop invariant carries over. */
  lemma QuotedKeeps(ws: seq<string>, start: nat, e: nat, quoted: string, tokens: seq<string>)
    requires W.AllWords(ws) && start <= e < |ws| && IsQuote(ws[start][0])
    requires ClosesAt(ws, start, e, ws[start][0])
    requires forall j :: start <= j < e ==> !ClosesAt(ws, start, j, ws[start][0])
    requires quoted == Join(ws[start..e + 1], " ")
    requires Joined(ws, start, tokens)
    ensures Joined(ws, e + 1, tokens + [Strip(quoted)])
  {
    QuotedChunk(ws, start, e);
    Carry(tokens, Strip(quoted), QuoteJoin(ws[e + 1..]), QuoteJoin(ws));
  }

  /**
   * One quoted word of the `tokenize_command` loop: glued up to the word
   * that closes it and kept, or, when none does, the end of the tokens.
   */
  method TakeQuoted(ws: seq<string>, i: nat, tokens: seq<string>) returns (closed: bool, next: nat, tokens': seq<string>)
    requires W.AllWords(ws) && i < |ws| && IsQuote(ws[i][0]) && Joined(ws, i, tokens)
    ensures !closed ==> tokens == QuoteJoin(ws)
    ensures closed ==> i < next <= |ws| && Joined(ws, next, tokens')
  {
    var end, quoted := GlueQuoted(ws, i, ws[i][0]);
    if end.None? {
      UnclosedEnds(ws, i, tokens);
      return false, i, tokens;
    }
    QuotedKeeps(ws, i, end.value, quoted, tokens);
    return true, end.value + 1, tokens + [Strip(quoted)];
  }

  /** `tokenize_command`: the extraction loop, proved to compute `Tokens`. */
  method TokenizeCommand(line: string) returns (tokens: seq<string>)
    ensures tokens == Tokens(line)
  {
    var ws := W.Split(line);
    W.WordsAreWords(line);
    tokens := [];
    var i := 0;
    JoinedStart(ws);
    while i < |ws|
      invariant 0 <= i <= |ws|
      invariant Joined(ws, i, tokens)
    {
      var token := ws[i];
      if token[0] == '"' || token[0] == '\'' {
        var closed, next, tokens' := TakeQuoted(ws, i, tokens);
        if !closed {
          return tokens;
        }
        tokens, i := tokens', next;
      } else {
        UnquotedKeeps(ws, i, tokens);
        tokens := tokens + [token];
        i := i + 1;
      }
    }
    JoinedEnd(ws, tokens);
  }

  // ---------------------------------------------------------------
  // Properties
  // ---------------------------------------------------------------

  predicate NoQuoteStart(ws: seq<string>)
    requires W.AllWords(ws)
  {
    forall i :: 0 <= i < |ws| ==> !IsQuote(ws[i][0])
  }

  /** Words that do not start with a quote pass through unchanged. */
  lemma {:induction false} UnquotedPassThrough(ws: seq<string>)
    requires W.AllWords(ws) && NoQuoteStart(ws)
    ensures QuoteJoin(ws) == ws
    decreases |ws|
  {
    if |ws| > 0 {
      UnquotedStep(ws, 0);
      assert ws[0..] == ws;
      UnquotedPassThrough(ws[1..]);
    }
  }

  /** A word `""` or `''` ends its own span at once and yields an empty argument. */
  lemma EmptyQuotedArgument(q: char, rest: seq<string>)
    requires IsQuote(q) && W.AllWords(rest)
    ensures W.AllWords([[q, q]] + rest)
    ensures QuoteJoin([[q, q]] + rest) == [""] + QuoteJoin(rest)
  {
    var ws := [[q, q]] + rest;
    assert ws[0] == [q, q];
    assert W.AllWords(ws) by {
      assert forall i :: 1 <= i < |ws| ==> ws[i] == rest[i - 1];
    }
    assert ws[1..] == rest;
    assert EndsWith(ws[0], ws[0][0]) && Strip(ws[0]) == "";
  }

  /**
   * An unclosed quote drops the partial argument and everything after it:
   * the tokens before it are the whole result.
   */
  lemma UnclosedQuoteDropsRest(pre: seq<string>, post: seq<string>)
    requires W.AllWords(pre) && W.AllWords(post) && NoQuoteStart(pre)
    requires |post| > 0 && IsQuote(post[0][0])
    requires !(|post[0]| > 1 && EndsWith(post[0], post[0][0]))
    requires forall j :: 1 <= j < |post| ==> !EndsWith(post[j], post[0][0])
    ensures W.AllWords(pre + post)
    ensures QuoteJoin(pre + post) == pre
  {
    var ws := pre + post;
    forall j | |pre| <= j < |ws|
      ensures !ClosesAt(ws, |pre|, j, ws[|pre|][0])
    {
      assert ws[j] == post[j - |pre|];
    }
    QuotedUnclosed(ws, |pre|);
    assert ws[|pre|..] == post;
    PrefixThenRest(pre, post);
  }

  lemma ConsPrefix(pre: seq<string>, rest: seq<string>)
    requires |pre| > 0
    ensures [pre[0]] + (pre[1..] + rest) == pre + rest
  {
    assert [pre[0]] + pre[1..] == pre;
  }

  lemma {:induction false} PrefixThenRest(pre: seq<string>, post: seq<string>)
    requires W.AllWords(pre) && W.AllWords(post) && NoQuoteStart(pre)
    ensures W.AllWords(pre + post)
    ensures QuoteJoin(pre + post) == pre + QuoteJoin(post)
    decreases |pre|
  {
    if |pre| > 0 {
      var ws := pre + post;
      assert ws[0] == pre[0];
      assert ws[1..] == pre[1..] + post;
      PrefixThenRest(pre[1..], post);
      ConsPrefix(pre, QuoteJoin(post));
    } else {
      assert pre + post == post;
    }
  }

  /** Plain words joined by single spaces tokenise back to themselves. */
  lemma PlainRoundTrip(xs: seq<string>)
    requires PlainWords(xs)
    ensures Tokens(Join(xs, " ")) == xs
  {
    W.PlainRoundTrip(xs);
    W.PlainAreWords(xs);
    forall i | 0 <= i < |xs|
      ensures !IsQuote(xs[i][0])
    {
      assert PlainText(xs[i]);
    }
    UnquotedPassThrough(xs);
  }

  /** The words of a single-quoted argument as the stream delivers them. */
  function QuoteWrap(xs: seq<string>): seq<string>
    requires |xs| > 0
  {
    if |xs| == 1 then ["'" + xs[0] + "'"]
    else ["'" + xs[0]] + xs[1..|xs| - 1] + [xs[|xs| - 1] + "'"]
  }

  lemma {:induction false} JoinAround(xs: seq<string>, g: string)
    requires |xs| > 1
    ensures Join(QuoteWrap(xs), g) == "'" + Join(xs, g) + "'"
    decreases |xs|
  {
    var w := QuoteWrap(xs);
    var xs' := xs[..|xs| - 1];
    var last := xs[|xs| - 1];
    assert xs' + [last] == xs;
    JoinSnoc(xs', last, g);
    var front := ["'" + xs[0]] + xs[1..|xs| - 1];
    assert w == front + [last + "'"];
    JoinSnoc(front, last + "'", g);
    JoinFirst(xs', g);
    assert front == [("'" + xs'[0])] + xs'[1..];
  }

  /** Prefixing the first word prefixes the joined text. */
  lemma JoinFirst(xs: seq<string>, g: string)
    requires |xs| > 0
    ensures Join([("'" + xs[0])] + xs[1..], g) == "'" + Join(xs, g)
  {
    var ys := [("'" + xs[0])] + xs[1..];
    if |xs| > 1 {
      assert ys[1..] == xs[1..];
    }
  }

  lemma WrapAreWords(xs: seq<string>)
    requires |xs| > 0 && PlainWords(xs)
    ensures W.AllWords(QuoteWrap(xs))
  {
    var ws := QuoteWrap(xs);
    W.PlainAreWords(xs);
    forall i | 0 <= i < |ws|
      ensures W.IsWord(ws[i])
    {
      if |xs| == 1 {
        assert ws[0] == "'" + xs[0] + "'";
        assert PlainText(xs[0]);
      } else if i == 0 {
        assert ws[0] == "'" + xs[0];
        assert PlainText(xs[0]);
      } else if i == |ws| - 1 {
        assert ws[i] == xs[|xs| - 1] + "'";
        assert PlainText(xs[|xs| - 1]);
      } else {
        assert ws[i] == xs[i];
      }
    }
  }

  lemma WrapOpenUntilLast(xs: seq<string>)
    requires |xs| > 1 && PlainWords(xs)
    ensures W.AllWords(QuoteWrap(xs))
    ensures forall j :: 0 <= j < |xs| - 1 ==> !ClosesAt(QuoteWrap(xs), 0, j, '\'')
    ensures ClosesAt(QuoteWrap(xs), 0, |xs| - 1, '\'')
  {
    WrapAreWords(xs);
    var ws := QuoteWrap(xs);
    forall j | 0 <= j < |xs| - 1
      ensures !ClosesAt(ws, 0, j, '\'')
    {
      if j == 0 {
        assert ws[0] == "'" + xs[0];
        assert ws[0][|ws[0]| - 1] == xs[0][|xs[0]| - 1];
        assert PlainText(xs[0]);
      } else {
        assert ws[j] == xs[j];
        assert PlainText(xs[j]);
      }
    }
  }

  /** The stream of a quoted argument glues back to its words joined by single spaces. */
  lemma WrapJoins(xs: seq<string>)
    requires |xs| > 0 && PlainWords(xs)
    ensures W.AllWords(QuoteWrap(xs))
    ensures QuoteJoin(QuoteWrap(xs)) == [Join(xs, " ")]
  {
    WrapAreWords(xs);
    var ws := QuoteWrap(xs);
    if |xs| == 1 {
      assert Strip(ws[0]) == xs[0];
      assert ws[1..] == [];
    } else {
      WrapOpenUntilLast(xs);
      JoinAround(xs, " ");
      var e := |ws| - 1;
      QuotedChunk(ws, 0, e);
      assert ws[0..] == ws && ws[0..e + 1] == ws && ws[e + 1..] == [];
      assert Strip("'" + Join(xs, " ") + "'") == Join(xs, " ");
    }
  }

  /** The quoted text is read as the wrapped words, whatever white space separates them. */
  lemma WrapRead(xs: seq<string>, g: string)
    requires |xs| > 0 && PlainWords(xs) && |g| > 0 && W.AllSpace(g)
    ensures W.Words("'" + Join(xs, g) + "'") == QuoteWrap(xs)
  {
    WrapAreWords(xs);
    W.JoinRoundTrip(QuoteWrap(xs), g);
    if |xs| > 1 {
      JoinAround(xs, g);
    }
  }

  /**
   * Inside a quoted argument any run of white space between words becomes
   * one space: `'a   b'` is the single argument `a b`.
   */
  lemma QuotedSpanCollapses(xs: seq<string>, g: string)
    requires |xs| > 0 && PlainWords(xs) && |g| > 0 && W.AllSpace(g)
    ensures Tokens("'" + Join(xs, g) + "'") == [Join(xs, " ")]
  {
    WrapRead(xs, g);
    WrapJoins(xs);
  }

  /** The quoting case of the test script: `echo 'f o o'` has the argument `f o o`. */
  lemma JoinSpacedQuote()
    ensures Tokens("echo 'f o o'") == ["echo", "f o o"]
  {
    SpacedQuoteWords();
    SpacedQuoteJoined(["echo", "'f", "o", "o'"]);
  }

  lemma SpacedQuoteJoined(ws: seq<string>)
    requires ws == ["echo", "'f", "o", "o'"]
    ensures W.AllWords(ws)
    ensures QuoteJoin(ws) == ["echo", "f o o"]
  {
    assert W.AllWords(ws);
    UnquotedStep(ws, 0);
    assert ws[0..] == ws;
    QuotedChunk(ws, 1, 3);
    SpacedQuoteGlued();
    assert ws[4..] == [];
  }

  lemma SpacedQuoteWords()
    ensures W.Words("echo 'f o o'") == ["echo", "'f", "o", "o'"]
  {
    var ws := ["echo", "'f", "o", "o'"];
    assert W.AllWords(ws);
    W.JoinRoundTrip(ws, " ");
    assert Join(ws, " ") == "echo 'f o o'";
  }

  lemma SpacedQuoteGlued()
    ensures Strip(Join(["echo", "'f", "o", "o'"][1..4], " ")) == "f o o"
  {
    assert ["echo", "'f", "o", "o'"][1..4] == ["'f", "o", "o'"];
    assert Join(["'f", "o", "o'"], " ") == "'f o o'";
    assert Strip("'f o o'") == "f o o";
  }

}
