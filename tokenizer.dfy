/** The whitespace tokenizer shared by both calculator versions: the
    `while (ss >> token)` loop over a string stream. Extracting a string from
    a stream skips a run of whitespace and then reads the longest run of
    non-whitespace characters; it fails once only whitespace is left. */
module Tokenizer {

  /** The characters the C locale's `isspace` accepts: space, \t, \n, \v, \f, \r. */
  predicate IsSpace(c: char) {
    c == ' ' || ('\t' <= c <= '\r')
  }

  predicate AllSpace(s: string) {
    forall i :: 0 <= i < |s| ==> IsSpace(s[i])
  }

  /** A token as the stream hands it out: non-empty, without whitespace. */
  predicate IsWord(w: string) {
    |w| > 0 && forall i :: 0 <= i < |w| ==> !IsSpace(w[i])
  }

  /** The length of the run of non-whitespace characters that starts `s`. */
  function WordLen(s: string): (n: nat)
    ensures n <= |s|
    ensures forall i :: 0 <= i < n ==> !IsSpace(s[i])
    ensures n < |s| ==> IsSpace(s[n])
  {
    if s == [] || IsSpace(s[0]) then 0 else 1 + WordLen(s[1..])
  }

  /** The tokens that successive `ss >> token` extractions produce, in order. */
  function Tokens(s: string): seq<string>
    decreases |s|
  {
    if s == [] then []
    else if IsSpace(s[0]) then Tokens(s[1..])
    else
      var n := WordLen(s);
      [s[..n]] + Tokens(s[n..])
  }

  /** Every token is non-empty and free of whitespace, and there are no
      tokens exactly when the input is empty or all whitespace. */
  lemma {:induction false} TokensAreWords(s: string)
    ensures forall k :: 0 <= k < |Tokens(s)| ==> IsWord(Tokens(s)[k])
    ensures Tokens(s) == [] <==> AllSpace(s)
    decreases |s|
  {
    if s == [] {
    } else if IsSpace(s[0]) {
      TokensAreWords(s[1..]);
      if AllSpace(s[1..]) {
        forall i | 0 < i < |s| ensures IsSpace(s[i]) { assert s[i] == s[1..][i - 1]; }
      }
    } else {
      var n := WordLen(s);
      TokensAreWords(s[n..]);
      assert !AllSpace(s);
      forall k | 0 <= k < |Tokens(s)| ensures IsWord(Tokens(s)[k]) {
        if k > 0 { assert Tokens(s)[k] == Tokens(s[n..])[k - 1]; }
      }
    }
  }

  /** A leading whitespace character does not change the tokens. */
  lemma TokensSkipSpace(s: string)
    requires s != [] && IsSpace(s[0])
    ensures Tokens(s) == Tokens(s[1..])
  {
  }

  /** A word followed by whitespace is read as exactly that word. */
  lemma TokensOfWord(w: string, rest: string)
    requires IsWord(w)
    ensures Tokens(w + " " + rest) == [w] + Tokens(rest)
  {
    var s := w + " " + rest;
    assert s[|w|] == ' ';
    var n := WordLen(s);
    assert n == |w|;
    assert s[..n] == w;
    assert s[n..] == " " + rest;
    TokensSkipSpace(s[n..]);
    assert s[n..][1..] == rest;
  }

  /** Joins tokens with a single space after each; Tokens undoes it. */
  function Join(ts: seq<string>): string {
    if ts == [] then "" else ts[0] + " " + Join(ts[1..])
  }

  /** Splitting the space-joined words gives back exactly those words. */
  lemma {:induction false} TokensOfJoin(ts: seq<string>)
    requires forall k :: 0 <= k < |ts| ==> IsWord(ts[k])
    ensures Tokens(Join(ts)) == ts
  {
    if ts != [] {
      TokensOfWord(ts[0], Join(ts[1..]));
      TokensOfJoin(ts[1..]);
    }
  }

  /** The tokens from a word boundary `i` whose word ends at `j`. */
  lemma TokensAtWord(s: string, i: nat, j: nat)
    requires i < j <= |s| && WordLen(s[i..]) == j - i
    ensures Tokens(s[i..]) == [s[i..j]] + Tokens(s[j..])
  {
    assert s[i..][..j - i] == s[i..j];
    assert s[i..][j - i..] == s[j..];
  }

  /** The first half of an extraction: skip whitespace from `pos`. */
  method SkipSpace(s: string, pos: nat) returns (i: nat)
    requires pos <= |s|
    ensures pos <= i <= |s| && (i < |s| ==> !IsSpace(s[i]))
    ensures Tokens(s[pos..]) == Tokens(s[i..])
  {
    i := pos;
    while i < |s| && IsSpace(s[i])
      invariant pos <= i <= |s|
      invariant Tokens(s[pos..]) == Tokens(s[i..])
    {
      TokensSkipSpace(s[i..]);
      assert s[i..][1..] == s[i + 1..];
      i := i + 1;
    }
  }

  /** The second half: read up to the next whitespace or the end. */
  method ScanWord(s: string, i: nat) returns (j: nat)
    requires i < |s| && !IsSpace(s[i])
    ensures i < j <= |s| && WordLen(s[i..]) == j - i
  {
    j := i;
    while j < |s| && !IsSpace(s[j])
      invariant i <= j <= |s|
      invariant WordLen(s[i..]) == (j - i) + WordLen(s[j..])
    {
      assert s[j..][1..] == s[j + 1..];
      j := j + 1;
    }
  }

  /** One `ss >> token` extraction from position `pos` of the stream: skip
      whitespace, then read up to the next whitespace or the end. `ok` is
      false when only whitespace remained (the stream fails). */
  method NextToken(s: string, pos: nat) returns (token: string, next: nat, ok: bool)
    requires pos <= |s|
    ensures ok <==> Tokens(s[pos..]) != []
    ensures ok ==> pos < next <= |s| && Tokens(s[pos..]) == [token] + Tokens(s[next..])
    ensures !ok ==> next == |s|
  {
    var i := SkipSpace(s, pos);
    if i == |s| {
      assert s[i..] == [];
      return "", |s|, false;
    }
    var j := ScanWord(s, i);
    TokensAtWord(s, i, j);
    token, next, ok := s[i..j], j, true;
  }
}
