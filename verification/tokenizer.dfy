/**
  The splitting done by `java.util.StringTokenizer` with the delimiter set ":":
  a token is a maximal run of non-delimiter characters, so leading, trailing and
  repeated delimiters produce no empty tokens.
 */
module Tokenizer {

  const Delim: char := ':'

  /** What the tokenizer can hand out: a non-empty run without delimiters. */
  predicate IsToken(t: string) {
    |t| > 0 && Delim !in t
  }

  /** All tokens glued together, without separators. */
  function Concat(ts: seq<string>): string {
    if ts == [] then [] else ts[0] + Concat(ts[1..])
  }

  /** The string with every delimiter deleted. */
  function Strip(s: string): string {
    if s == [] then [] else (if s[0] == Delim then [] else [s[0]]) + Strip(s[1..])
  }

  /** The tokens separated by single delimiters; the inverse of `Tokenize` on tokens. */
  function Join(ts: seq<string>): string {
    if |ts| == 0 then []
    else if |ts| == 1 then ts[0]
    else ts[0] + [Delim] + Join(ts[1..])
  }

  /** Index of the first delimiter in `s`, or `|s|` when there is none. */
  function DelimIndex(s: string): (k: nat)
    ensures k <= |s|
    ensures forall i :: 0 <= i < k ==> s[i] != Delim
    ensures k < |s| ==> s[k] == Delim
  {
    if s == [] || s[0] == Delim then 0 else 1 + DelimIndex(s[1..])
  }

  /**
    The tokens of `s`, in order. Every token is a non-empty run free of
    delimiters, and together they hold exactly the non-delimiter characters of `s`.
   */
  function Tokenize(s: string): (toks: seq<string>)
    ensures forall i :: 0 <= i < |toks| ==> IsToken(toks[i])
    ensures Concat(toks) == Strip(s)
    decreases |s|
  {
    if s == [] then []
    else if s[0] == Delim then Tokenize(s[1..])
    else
      var k := DelimIndex(s);
      var rest := Tokenize(s[k..]);
      StripAppend(s[..k], s[k..]);
      StripNoDelim(s[..k]);
      assert s[..k] + s[k..] == s;
      assert ([s[..k]] + rest)[1..] == rest;
      [s[..k]] + rest
  }

  lemma {:induction false} StripAppend(a: string, b: string)
    ensures Strip(a + b) == Strip(a) + Strip(b)
  {
    if a == [] {
      assert a + b == b;
    } else {
      assert (a + b)[1..] == a[1..] + b;
      StripAppend(a[1..], b);
    }
  }

  lemma {:induction false} StripNoDelim(a: string)
    requires forall i :: 0 <= i < |a| ==> a[i] != Delim
    ensures Strip(a) == a
  {
    if a != [] {
      StripNoDelim(a[1..]);
      assert a == [a[0]] + a[1..];
    }
  }

  lemma DelimIndexAt(s: string, k: nat)
    requires k <= |s|
    requires forall i :: 0 <= i < k ==> s[i] != Delim
    requires k < |s| ==> s[k] == Delim
    ensures DelimIndex(s) == k
  {
  }

  /** A single token tokenizes to itself. */
  lemma TokenizeToken(t: string)
    requires IsToken(t)
    ensures Tokenize(t) == [t]
  {
    DelimIndexAt(t, |t|);
    assert t[..|t|] == t;
    assert t[|t|..] == [];
  }

  /** A delimiter separates: what lies before it and what lies after it tokenize independently. */
  lemma {:induction false} TokenizeSplit(a: string, b: string)
    ensures Tokenize(a + [Delim] + b) == Tokenize(a) + Tokenize(b)
    decreases |a|
  {
    var s := a + [Delim] + b;
    if a == [] {
      assert s[1..] == b;
    } else if a[0] == Delim {
      assert s[1..] == a[1..] + [Delim] + b;
      TokenizeSplit(a[1..], b);
    } else {
      var k := DelimIndex(a);
      DelimIndexAt(s, k);
      assert s[..k] == a[..k];
      if k < |a| {
        assert s[k..] == a[k..] + [Delim] + b;
        TokenizeSplit(a[k..], b);
      } else {
        assert s[..k] == a;
        assert s[k..] == [Delim] + b;
        assert s[k..][1..] == b;
        assert a[k..] == [];
      }
    }
  }

  /** Round trip: joining tokens with the delimiter and tokenizing gives them back. */
  lemma {:induction false} TokenizeJoin(ts: seq<string>)
    requires forall i :: 0 <= i < |ts| ==> IsToken(ts[i])
    ensures Tokenize(Join(ts)) == ts
  {
    if |ts| == 1 {
      TokenizeToken(ts[0]);
    } else if |ts| > 1 {
      TokenizeSplit(ts[0], Join(ts[1..]));
      TokenizeToken(ts[0]);
      TokenizeJoin(ts[1..]);
      assert ts == [ts[0]] + ts[1..];
    }
  }

  /** Two adjacent delimiters yield no empty token: they act as one. */
  lemma EmptyTokensSkipped(a: string, b: string)
    ensures Tokenize(a + [Delim, Delim] + b) == Tokenize(a + [Delim] + b)
  {
    assert a + [Delim, Delim] + b == a + [Delim] + ([Delim] + b);
    TokenizeSplit(a, [Delim] + b);
    TokenizeSplit(a, b);
    assert ([Delim] + b)[1..] == b;
  }
}
