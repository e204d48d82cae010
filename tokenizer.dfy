/** The tokenizer: a line is cut into the words that repeated
    `iss >> std::skipws >> word` extracts from it, in order. */
module Tokenizer {

  /** isspace in the classic locale: blank, tab, newline, vertical tab, form feed, return. */
  predicate IsSpace(c: char) {
    c == ' ' || c == '\t' || c == '\n' || c == '\U{B}' || c == '\U{C}' || c == '\r'
  }

  predicate AllSpace(s: string) {
    forall i :: 0 <= i < |s| ==> IsSpace(s[i])
  }

  /** A token: non-empty and free of whitespace. */
  predicate IsWord(w: string) {
    |w| > 0 && forall i :: 0 <= i < |w| ==> !IsSpace(w[i])
  }

  /** The length of the run of non-space characters that starts s. */
  function WordLength(s: string): (n: nat)
    ensures n <= |s|
    ensures forall i :: 0 <= i < n ==> !IsSpace(s[i])
    ensures n < |s| ==> IsSpace(s[n])
  {
    if s == [] || IsSpace(s[0]) then 0 else 1 + WordLength(s[1..])
  }

  /** The run of non-space characters of length n that starts s is the one WordLength finds. */
  lemma WordLengthIs(s: string, n: nat)
    requires n <= |s|
    requires forall i :: 0 <= i < n ==> !IsSpace(s[i])
    requires n < |s| ==> IsSpace(s[n])
    ensures WordLength(s) == n
  {
  }

  /** The tokens of s: leading whitespace is skipped, then a maximal word is taken. */
  function Tokens(s: string): (ts: seq<string>)
    ensures forall i :: 0 <= i < |ts| ==> IsWord(ts[i])
    ensures ts == [] <==> AllSpace(s)
    decreases |s|
  {
    if s == [] then []
    else if IsSpace(s[0]) then
      var rest := Tokens(s[1..]);
      assert AllSpace(s) <==> AllSpace(s[1..]) by {
        if AllSpace(s[1..]) {
          forall i | 0 <= i < |s| ensures IsSpace(s[i]) {
            if i > 0 { assert s[i] == s[1..][i - 1]; }
          }
        }
      }
      rest
    else
      var n := WordLength(s);
      [s[..n]] + Tokens(s[n..])
  }

  /** tokenize: the words of s, collected into a fresh sequence. */
  method Tokenize(s: string) returns (tokens: seq<string>)
    ensures tokens == Tokens(s)
  {
    tokens := [];
    var i := 0;
    while i < |s|
      invariant 0 <= i <= |s|
      invariant tokens + Tokens(s[i..]) == Tokens(s)
    {
      if IsSpace(s[i]) {
        assert s[i..][1..] == s[i + 1..];
        i := i + 1;
      } else {
        var j := WordEnd(s, i);
        TokensAtWord(s, i, j);
        assert tokens + Tokens(s[i..]) == (tokens + [s[i..j]]) + Tokens(s[j..]);
        tokens := tokens + [s[i..j]];
        i := j;
      }
    }
  }

  /** Where the word that starts at i ends: the first blank after it, or the end. */
  method WordEnd(s: string, i: nat) returns (j: nat)
    requires i <= |s|
    ensures i <= j <= |s| && j - i == WordLength(s[i..])
  {
    j := i;
    while j < |s| && !IsSpace(s[j])
      invariant i <= j <= |s|
      invariant forall k :: i <= k < j ==> !IsSpace(s[k])
    {
      j := j + 1;
    }
    WordLengthIs(s[i..], j - i);
  }

  /** The tokens of a suffix that starts with a word: that word, then the tokens after it. */
  lemma TokensAtWord(s: string, i: nat, j: nat)
    requires i < |s| && !IsSpace(s[i])
    requires i <= j <= |s| && j - i == WordLength(s[i..])
    ensures Tokens(s[i..]) == [s[i..j]] + Tokens(s[j..])
  {
    assert s[i..][..j - i] == s[i..j];
    assert s[i..][j - i..] == s[j..];
  }

  /** The words joined, each followed by one blank. */
  function Join(ws: seq<string>): string {
    if ws == [] then [] else ws[0] + " " + Join(ws[1..])
  }

  /** Tokenizing words joined by blanks gives the words back. */
  lemma {:induction false} TokensOfJoin(ws: seq<string>)
    requires forall i :: 0 <= i < |ws| ==> IsWord(ws[i])
    ensures Tokens(Join(ws)) == ws
  {
    if ws != [] {
      var w, rest := ws[0], Join(ws[1..]);
      var s := w + " " + rest;
      assert s == Join(ws);
      WordLengthIs(s, |w|);
      assert s[..|w|] == w;
      assert s[|w|..] == " " + rest;
      assert (" " + rest)[1..] == rest;
      TokensOfJoin(ws[1..]);
    }
  }
}
