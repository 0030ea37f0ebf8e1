// Character classes, prefixes, the std::string searches and the decimal
// conversions that the flow programs rely on.

module Wrappers {
  datatype Option<T> = None | Some(value: T)

  datatype Result<T, E> = Ok(value: T) | Err(error: E)
}

module Text {
  import opened Wrappers

  /** The characters isspace() accepts in the C locale. */
  predicate IsSpace(c: char)
  {
    c == ' ' || c == '\t' || c == '\n' || c == '\r' || c == '\U{B}' || c == '\U{C}'
  }

  predicate IsDigit(c: char)
  {
    '0' <= c <= '9'
  }

  predicate NoSpace(s: string)
  {
    forall i :: 0 <= i < |s| ==> !IsSpace(s[i])
  }

  /** Text with neither white space nor a quote character in it. */
  predicate PlainText(w: string)
  {
    forall i :: 0 <= i < |w| ==> !IsSpace(w[i]) && w[i] != '\'' && w[i] != '"'
  }

  /** Non-empty plain words: what every tokeniser reads back unchanged. */
  predicate PlainWords(ws: seq<string>)
  {
    forall i :: 0 <= i < |ws| ==> ws[i] != "" && PlainText(ws[i])
  }

  predicate HasNo(s: string, c: char)
  {
    forall i :: 0 <= i < |s| ==> s[i] != c
  }

  /** `s.substr(0, p.size()) == p`, `s.find(p) == 0` and `strncmp(s, p, |p|) == 0`. */
  predicate StartsWith(s: string, p: string)
  {
    |p| <= |s| && s[..|p|] == p
  }

  lemma StartsWithConcat(p: string, rest: string)
    ensures StartsWith(p + rest, p)
    ensures (p + rest)[|p|..] == rest
  {
    assert (p + rest)[..|p|] == p;
  }

  /** A string without prefix `p` has no longer prefix that extends `p`. */
  lemma NotStartsWithLonger(s: string, p: string, q: string)
    requires !StartsWith(s, p)
    ensures !StartsWith(s, p + q)
  {
    if |p + q| <= |s| {
      assert s[..|p + q|][..|p|] == s[..|p|];
      assert (p + q)[..|p|] == p;
    }
  }

  /** A first char that differs rules a prefix out. */
  lemma NotStartsWith(s: string, p: string, i: nat)
    requires i < |p| && i < |s| && s[i] != p[i]
    ensures !StartsWith(s, p)
  {
    if |p| <= |s| {
      assert s[..|p|][i] == s[i];
    }
  }

  /** Position of the first occurrence of `c`, as std::string::find returns it. */
  function Find(s: string, c: char): (r: Option<nat>)
    ensures r.Some? ==> r.value < |s| && s[r.value] == c && HasNo(s[..r.value], c)
    ensures r.None? ==> HasNo(s, c)
  {
    if |s| == 0 then None
    else if s[0] == c then Some(0)
    else
      match Find(s[1..], c)
      case None => None
      case Some(k) => assert s[1..][..k] == s[1..k + 1]; Some(k + 1)
  }

  /**
   * `s.substr(s.find(c) + 1)`: the text after the first `c`, or the whole
   * string when there is none (npos + 1 wraps to 0).
   */
  function After(s: string, c: char): string
  {
    match Find(s, c)
    case None => s
    case Some(k) => s[k + 1..]
  }

  /** The text before the first `c`, or all of `s` (std::getline with a delimiter). */
  function Before(s: string, c: char): string
  {
    match Find(s, c)
    case None => s
    case Some(k) => s[..k]
  }

  lemma AfterKey(key: string, c: char, value: string)
    requires HasNo(key, c)
    ensures Find(key + [c] + value, c) == Some(|key|)
    ensures After(key + [c] + value, c) == value
    ensures Before(key + [c] + value, c) == key
  {
    var s := key + [c] + value;
    FindFirst(s, c, |key|);
    assert s[|key| + 1..] == value;
    assert s[..|key|] == key;
  }

  lemma {:induction false} FindFirst(s: string, c: char, k: nat)
    requires k < |s| && s[k] == c && HasNo(s[..k], c)
    ensures Find(s, c) == Some(k)
    decreases k
  {
    if k > 0 {
      assert s[..k][0] == s[0];
      assert s[1..][..k - 1] == s[1..k];
      FindFirst(s[1..], c, k - 1);
    }
  }

  /** Joins `xs` with `sep` between neighbours. */
  function Join(xs: seq<string>, sep: string): string
  {
    if |xs| == 0 then ""
    else if |xs| == 1 then xs[0]
    else xs[0] + sep + Join(xs[1..], sep)
  }

  lemma {:induction false} JoinSnoc(xs: seq<string>, x: string, sep: string)
    requires |xs| > 0
    ensures Join(xs + [x], sep) == Join(xs, sep) + sep + x
    decreases |xs|
  {
    if |xs| > 1 {
      assert (xs + [x])[1..] == xs[1..] + [x];
      JoinSnoc(xs[1..], x, sep);
    }
  }

  // ---------------------------------------------------------------
  // Decimal numbers
  // ---------------------------------------------------------------

  function DigitChar(d: nat): char
    requires d < 10
  {
    "0123456789"[d]
  }

  function DigitValue(c: char): nat
    requires IsDigit(c)
  {
    (c as int - '0' as int) as nat
  }

  /** `std::to_string` of a non-negative number. */
  function NatToString(n: nat): (r: string)
    ensures |r| > 0
    ensures forall i :: 0 <= i < |r| ==> IsDigit(r[i])
  {
    if n < 10 then [DigitChar(n)] else NatToString(n / 10) + [DigitChar(n % 10)]
  }

  /** The value of a run of decimal digits, most significant first. */
  function DigitsValue(ds: string): nat
    requires forall i :: 0 <= i < |ds| ==> IsDigit(ds[i])
  {
    if |ds| == 0 then 0 else DigitsValue(ds[..|ds| - 1]) * 10 + DigitValue(ds[|ds| - 1])
  }

  /** The longest prefix of `s` made of digits. */
  function DigitPrefix(s: string): (r: string)
    ensures |r| <= |s| && r == s[..|r|]
    ensures forall i :: 0 <= i < |r| ==> IsDigit(r[i])
    ensures |r| < |s| ==> !IsDigit(s[|r|])
  {
    if |s| == 0 || !IsDigit(s[0]) then ""
    else
      var rest := DigitPrefix(s[1..]);
      assert [s[0]] + rest == s[..|rest| + 1];
      [s[0]] + rest
  }

  function DropSpaces(s: string): (r: string)
    ensures |r| <= |s| && r == s[|s| - |r|..]
    ensures |r| > 0 ==> !IsSpace(r[0])
  {
    if |s| > 0 && IsSpace(s[0]) then DropSpaces(s[1..]) else s
  }

  /**
   * The integer the usual C and C++ conversions read from the front of `s`:
   * leading white space, an optional sign, then at least one digit.  None when
   * there is no digit; `std::stoi` then throws, `sscanf` matches nothing, and
   * `atoi` and `>> int` yield 0.  Overflow is not modelled.
   */
  function LeadingInt(s: string): Option<int>
  {
    SignedDigits(DropSpaces(s))
  }

  /** An optional sign followed by at least one digit, at the front of `t`. */
  function SignedDigits(t: string): Option<int>
  {
    if |t| > 0 && (t[0] == '-' || t[0] == '+') then
      var ds := DigitPrefix(t[1..]);
      if |ds| == 0 then None
      else if t[0] == '-' then Some(-(DigitsValue(ds) as int))
      else Some(DigitsValue(ds) as int)
    else
      var ds := DigitPrefix(t);
      if |ds| == 0 then None else Some(DigitsValue(ds) as int)
  }

  /** `atoi`, and `>> int` on a stream: 0 when no number can be read. */
  function LeadingIntOrZero(s: string): int
  {
    match LeadingInt(s)
    case None => 0
    case Some(v) => v
  }

  lemma DigitCharValue(d: nat)
    requires d < 10
    ensures IsDigit(DigitChar(d)) && DigitValue(DigitChar(d)) == d
  {
  }

  lemma {:induction false} NatToStringValue(n: nat)
    ensures DigitsValue(NatToString(n)) == n
    decreases n
  {
    var r := NatToString(n);
    DigitCharValue(n % 10);
    if n >= 10 {
      NatToStringValue(n / 10);
      assert r[..|r| - 1] == NatToString(n / 10);
    }
  }

  lemma {:induction false} DigitPrefixAllDigits(s: string)
    requires forall i :: 0 <= i < |s| ==> IsDigit(s[i])
    ensures DigitPrefix(s) == s
    decreases |s|
  {
    if |s| > 0 {
      DigitPrefixAllDigits(s[1..]);
    }
  }

  lemma ReadsDigits(s: string)
    requires |s| > 0 && forall i :: 0 <= i < |s| ==> IsDigit(s[i])
    ensures LeadingInt(s) == Some(DigitsValue(s) as int)
  {
    assert !IsSpace(s[0]);
    assert DropSpaces(s) == s;
    assert s[0] != '-' && s[0] != '+';
    DigitPrefixAllDigits(s);
    assert SignedDigits(s) == Some(DigitsValue(s) as int);
  }

  /** Decimal printing and reading are inverse: `stoi(to_string(n)) == n`. */
  lemma ReadsBackDecimal(n: nat)
    ensures LeadingInt(NatToString(n)) == Some(n as int)
  {
    ReadsDigits(NatToString(n));
    NatToStringValue(n);
  }

  /** Decimal printing is injective on the naturals. */
  lemma NatToStringInjective(m: nat, n: nat)
    requires NatToString(m) == NatToString(n)
    ensures m == n
  {
    NatToStringValue(m);
    NatToStringValue(n);
  }
}
