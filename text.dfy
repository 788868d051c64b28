/**
 * The two string operations the handlers rely on: Python's argument-less
 * `str.split()` (split on runs of whitespace, drop empty pieces) and
 * `str.lower()` as far as the bot's menu labels need it.
 */
module Text {

  /** The characters Python's `str.split()` treats as whitespace. */
  predicate IsSpace(c: char)
  {
    || c == ' '
    || ('\t' <= c <= '\r')
    || ('\U{1C}' <= c <= '\U{1F}')
    || c == '\U{85}' || c == '\U{A0}' || c == '\U{1680}'
    || ('\U{2000}' <= c <= '\U{200A}')
    || c == '\U{2028}' || c == '\U{2029}' || c == '\U{202F}' || c == '\U{205F}' || c == '\U{3000}'
  }

  predicate NoSpace(s: string)
  {
    forall i :: 0 <= i < |s| ==> !IsSpace(s[i])
  }

  /** A piece `str.split()` can return: non-empty and free of whitespace. */
  predicate IsToken(s: string)
  {
    s != [] && NoSpace(s)
  }

  /** Length of the longest whitespace-free prefix of `s`. */
  function TokenEnd(s: string): (n: nat)
    ensures n <= |s|
    ensures NoSpace(s[..n])
    ensures n < |s| ==> IsSpace(s[n])
  {
    if s == [] || IsSpace(s[0]) then 0
    else
      var m := TokenEnd(s[1..]);
      assert s[..1 + m] == [s[0]] + s[1..][..m];
      1 + m
  }

  /** Python's `s.split()`: the maximal whitespace-free runs of `s`, in order. */
  function Split(s: string): (r: seq<string>)
    ensures forall i :: 0 <= i < |r| ==> IsToken(r[i])
    decreases |s|
  {
    if s == [] then []
    else if IsSpace(s[0]) then Split(s[1..])
    else
      var n := TokenEnd(s);
      [s[..n]] + Split(s[n..])
  }

  lemma {:induction false} TokenEndOfToken(t: string, rest: string)
    requires NoSpace(t)
    requires rest == [] || IsSpace(rest[0])
    ensures TokenEnd(t + rest) == |t|
    decreases |t|
  {
    if t == [] {
      assert t + rest == rest;
    } else {
      assert (t + rest)[1..] == t[1..] + rest;
      TokenEndOfToken(t[1..], rest);
    }
  }

  /** A token followed by whitespace (or nothing) is split off whole. */
  lemma SplitTokenThen(t: string, rest: string)
    requires IsToken(t)
    requires rest == [] || IsSpace(rest[0])
    ensures Split(t + rest) == [t] + Split(rest)
  {
    TokenEndOfToken(t, rest);
    var s := t + rest;
    assert s[0] == t[0];
    assert s[..|t|] == t;
    assert s[|t|..] == rest;
  }

  /** Leading whitespace is dropped. */
  lemma SplitSpaceThen(rest: string)
    ensures Split(" " + rest) == Split(rest)
  {
    assert (" " + rest)[1..] == rest;
  }

  /** A token, a space and more text: the token comes first, then the rest's tokens. */
  lemma SplitTokenSpace(t: string, rest: string)
    requires IsToken(t)
    ensures Split(t + " " + rest) == [t] + Split(rest)
  {
    assert t + " " + rest == t + (" " + rest);
    SplitTokenThen(t, " " + rest);
    SplitSpaceThen(rest);
  }

  /**
   * Joining three tokens with single spaces and splitting again gives the
   * three tokens back: the record format's only invariant.
   */
  lemma SplitJoin3(a: string, b: string, c: string)
    requires IsToken(a) && IsToken(b) && IsToken(c)
    ensures Split(a + " " + b + " " + c) == [a, b, c]
  {
    var tail := b + " " + c;
    SplitTokenThen(c, []);
    assert c + [] == c;
    SplitTokenSpace(b, c);
    assert Split(tail) == [b, c];
    assert a + " " + b + " " + c == a + " " + tail;
    SplitTokenSpace(a, tail);
  }

  predicate AllSpace(s: string)
  {
    forall i :: 0 <= i < |s| ==> IsSpace(s[i])
  }

  /** The whitespace runs of `s` around its tokens: before the first, between each two, after the last. */
  function Gaps(s: string): (g: seq<string>)
    ensures g != []
    decreases |s|
  {
    if s == [] then [""]
    else if IsSpace(s[0]) then
      var rest := Gaps(s[1..]);
      [[s[0]] + rest[0]] + rest[1..]
    else
      [""] + Gaps(s[TokenEnd(s)..])
  }

  /** `g[0] + t[0] + g[1] + t[1] + ... + t[n-1] + g[n]`. */
  function Interleave(g: seq<string>, t: seq<string>): string
    requires |g| == |t| + 1
  {
    if t == [] then g[0] else g[0] + t[0] + Interleave(g[1..], t[1..])
  }

  /** Every gap is whitespace only. */
  predicate AllGapsSpace(g: seq<string>)
  {
    forall i :: 0 <= i < |g| ==> AllSpace(g[i])
  }

  /** Every gap but the first and the last is non-empty. */
  predicate InnerGapsNonEmpty(g: seq<string>)
  {
    forall i :: 0 < i < |g| - 1 ==> g[i] != []
  }

  /**
   * `Split` loses nothing but whitespace: the input is its tokens with
   * whitespace-only gaps around them, and two neighbouring tokens are
   * always separated by some whitespace.
   */
  lemma {:induction false} SplitRebuilds(s: string)
    ensures |Gaps(s)| == |Split(s)| + 1
    ensures AllGapsSpace(Gaps(s))
    ensures InnerGapsNonEmpty(Gaps(s))
    ensures s == Interleave(Gaps(s), Split(s))
    decreases |s|
  {
    if s == [] {
    } else if IsSpace(s[0]) {
      var g, t := Gaps(s[1..]), Split(s[1..]);
      SplitRebuilds(s[1..]);
      assert Gaps(s) == [[s[0]] + g[0]] + g[1..];
      assert Split(s) == t;
      SpaceGapsStep(s[0], g);
      InterleaveSpace(s[0], g, t);
      assert s == [s[0]] + s[1..];
    } else {
      var n := TokenEnd(s);
      var g, t := Gaps(s[n..]), Split(s[n..]);
      SplitRebuilds(s[n..]);
      assert Gaps(s) == [""] + g;
      assert Split(s) == [s[..n]] + t;
      if |g| > 1 {
        assert s[n..] != [] && IsSpace(s[n..][0]);
      }
      TokenGapsStep(g);
      InterleaveToken(s[..n], g, t);
      assert s == s[..n] + s[n..];
    }
  }

  lemma SpaceGapsStep(c: char, g: seq<string>)
    requires IsSpace(c) && g != []
    requires AllGapsSpace(g) && InnerGapsNonEmpty(g)
    ensures AllGapsSpace([[c] + g[0]] + g[1..])
    ensures InnerGapsNonEmpty([[c] + g[0]] + g[1..])
  {
    var h := [[c] + g[0]] + g[1..];
    assert forall i :: 1 <= i < |h| ==> h[i] == g[i];
    assert AllSpace(h[0]) by {
      assert forall i :: 1 <= i < |h[0]| ==> h[0][i] == g[0][i - 1];
    }
  }

  lemma TokenGapsStep(g: seq<string>)
    requires AllGapsSpace(g) && InnerGapsNonEmpty(g)
    requires |g| > 1 ==> g[0] != []
    ensures AllGapsSpace([""] + g)
    ensures InnerGapsNonEmpty([""] + g)
  {
    var h := [""] + g;
    assert forall i :: 1 <= i < |h| ==> h[i] == g[i - 1];
  }

  lemma InterleaveSpace(c: char, g: seq<string>, t: seq<string>)
    requires |g| == |t| + 1
    ensures Interleave([[c] + g[0]] + g[1..], t) == [c] + Interleave(g, t)
  {
    var h := [[c] + g[0]] + g[1..];
    assert h[0] == [c] + g[0] && h[1..] == g[1..];
  }

  lemma InterleaveToken(w: string, g: seq<string>, t: seq<string>)
    requires |g| == |t| + 1
    ensures Interleave([""] + g, [w] + t) == w + Interleave(g, t)
  {
    var h, u := [""] + g, [w] + t;
    assert h[0] == "" && h[1..] == g && u[0] == w && u[1..] == t;
  }

  /** Python's `str.lower()` on ASCII letters and the basic Cyrillic alphabet. */
  function LowerChar(c: char): char
  {
    if 'A' <= c <= 'Z' then (c as int + 32) as char
    else if '\U{0410}' <= c <= '\U{042F}' then (c as int + 32) as char
    else if '\U{0400}' <= c <= '\U{040F}' then (c as int + 80) as char
    else c
  }

  function Lower(s: string): (r: string)
    ensures |r| == |s|
    ensures forall i :: 0 <= i < |s| ==> r[i] == LowerChar(s[i])
  {
    if s == [] then [] else [LowerChar(s[0])] + Lower(s[1..])
  }
}
