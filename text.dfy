/**
 * The two Python string primitives that parse_size is built on:
 * str.upper() and the argument-less str.split().
 */
module Text {

  /** Python's notion of whitespace for str.split() and str.isspace(). */
  predicate IsSpace(c: char)
  {
    ('\t' <= c <= '\r') || ('\U{1C}' <= c <= '\U{1F}') || c == ' ' || c == '\U{85}' || c == '\U{A0}'
    || c == '\U{1680}' || ('\U{2000}' <= c <= '\U{200A}') || c == '\U{2028}' || c == '\U{2029}'
    || c == '\U{202F}' || c == '\U{205F}' || c == '\U{3000}'
  }

  predicate NoSpace(s: string)
  {
    forall i :: 0 <= i < |s| ==> !IsSpace(s[i])
  }

  /** The upper-case form of an ASCII letter; every other character is left alone. */
  function UpperChar(c: char): (u: char)
    ensures 'a' <= c <= 'z' ==> u as int == c as int - 32
    ensures !('a' <= c <= 'z') ==> u == c
    ensures !('a' <= u <= 'z')
  {
    if 'a' <= c <= 'z' then (c as int - 32) as char else c
  }

  /** str.upper(), restricted to ASCII letters: same length, every character upper-cased. */
  function Upper(s: string): (u: string)
    ensures |u| == |s|
    ensures forall i :: 0 <= i < |s| ==> u[i] == UpperChar(s[i])
  {
    if s == [] then [] else [UpperChar(s[0])] + Upper(s[1..])
  }

  lemma UpperConcat(a: string, b: string)
    ensures Upper(a + b) == Upper(a) + Upper(b)
  {
    assert forall i :: 0 <= i < |a + b| ==> Upper(a + b)[i] == (Upper(a) + Upper(b))[i];
  }

  /** A string without lower-case ASCII letters is its own upper-case form. */
  lemma UpperUnchanged(s: string)
    requires forall i :: 0 <= i < |s| ==> !('a' <= s[i] <= 'z')
    ensures Upper(s) == s
  {
  }

  /** Length of the run of non-whitespace characters that starts s. */
  function TokenLength(s: string): (n: nat)
    ensures n <= |s|
    ensures forall i :: 0 <= i < n ==> !IsSpace(s[i])
    ensures n < |s| ==> IsSpace(s[n])
  {
    if s == [] || IsSpace(s[0]) then 0 else 1 + TokenLength(s[1..])
  }

  /** str.split() with no argument: the maximal runs of non-whitespace, in order. */
  function Split(s: string): (tokens: seq<string>)
    ensures forall t :: t in tokens ==> t != [] && NoSpace(t)
    ensures tokens == [] <==> forall i :: 0 <= i < |s| ==> IsSpace(s[i])
    decreases |s|
  {
    if s == [] then []
    else if IsSpace(s[0]) then Split(s[1..])
    else
      var n := TokenLength(s);
      [s[..n]] + Split(s[n..])
  }

  /** ' '.join(tokens), the inverse of Split on tokens without whitespace. */
  function Join(tokens: seq<string>): (s: string)
  {
    if tokens == [] then []
    else if |tokens| == 1 then tokens[0]
    else tokens[0] + " " + Join(tokens[1..])
  }

  lemma JoinPair(a: string, b: string)
    ensures Join([a, b]) == a + " " + b
  {
    assert [a, b][1..] == [b];
  }

  /** Leading whitespace is skipped by Split. */
  lemma SplitLeadingSpace(c: char, s: string)
    requires IsSpace(c)
    ensures Split([c] + s) == Split(s)
  {
    assert ([c] + s)[1..] == s;
  }

  /** A non-blank word followed by whitespace (or nothing) is split off as one token. */
  lemma SplitAfterToken(p: string, rest: string)
    requires p != [] && NoSpace(p)
    requires rest == [] || IsSpace(rest[0])
    ensures Split(p + rest) == [p] + Split(rest)
  {
    var s := p + rest;
    var n := TokenLength(s);
    assert forall i :: 0 <= i < |p| ==> s[i] == p[i];
    assert forall i :: 0 <= i < |rest| ==> s[|p| + i] == rest[i];
    assert n == |p|;
    assert s[..n] == p && s[n..] == rest;
  }

  /** Splitting a space-joined list of words gives the words back. */
  lemma {:induction false} SplitJoin(tokens: seq<string>)
    requires forall t :: t in tokens ==> t != [] && NoSpace(t)
    ensures Split(Join(tokens)) == tokens
    decreases |tokens|
  {
    if tokens == [] {
    } else if |tokens| == 1 {
      assert tokens[0] in tokens && tokens[0] + [] == tokens[0];
      SplitAfterToken(tokens[0], []);
    } else {
      assert tokens[0] in tokens;
      var rest := Join(tokens[1..]);
      assert tokens[0] + " " + rest == tokens[0] + ([' '] + rest);
      SplitAfterToken(tokens[0], [' '] + rest);
      SplitLeadingSpace(' ', rest);
      assert forall t :: t in tokens[1..] ==> t in tokens;
      SplitJoin(tokens[1..]);
    }
  }
}
