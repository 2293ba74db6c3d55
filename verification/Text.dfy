/** Display text, paths and whitespace as the runtime normalises them. */
module Text {

  // The characters that `str.split` and `str.strip` treat as whitespace.
  predicate IsSpace(c: char) {
    var u := c as int;
    || 9 <= u <= 13 || 28 <= u <= 32 || u == 133 || u == 160 || u == 5760
    || 8192 <= u <= 8202 || u == 8232 || u == 8233 || u == 8239 || u == 8287 || u == 12288
  }

  predicate NoSpace(s: string) {
    forall i :: 0 <= i < |s| ==> !IsSpace(s[i])
  }

  /******* Collapsing whitespace *******/

  function WordEnd(s: string): (n: nat)
    ensures n <= |s| && NoSpace(s[..n])
    ensures n < |s| ==> IsSpace(s[n])
    ensures s != "" && !IsSpace(s[0]) ==> n > 0
  {
    if s == "" || IsSpace(s[0]) then 0
    else
      assert forall i :: 0 < i <= WordEnd(s[1..]) ==> s[i] == s[1..][i - 1];
      1 + WordEnd(s[1..])
  }

  function Words(s: string): seq<string>
    decreases |s|
  {
    if s == "" then []
    else if IsSpace(s[0]) then Words(s[1..])
    else [s[..WordEnd(s)]] + Words(s[WordEnd(s)..])
  }

  function Join(words: seq<string>): string {
    if words == [] then ""
    else if |words| == 1 then words[0]
    else words[0] + " " + Join(words[1..])
  }

  predicate AreWords(words: seq<string>) {
    forall w :: w in words ==> w != "" && NoSpace(w)
  }

  lemma {:induction false} WordsAreWords(s: string)
    ensures AreWords(Words(s))
    decreases |s|
  {
    if s == "" {
    } else if IsSpace(s[0]) {
      WordsAreWords(s[1..]);
    } else {
      WordsAreWords(s[WordEnd(s)..]);
    }
  }

  lemma {:induction false} WordEndOf(w: string, rest: string)
    requires NoSpace(w) && (rest == "" || IsSpace(rest[0]))
    ensures WordEnd(w + rest) == |w|
    decreases |w|
  {
    if w == "" {
      assert w + rest == rest;
    } else {
      assert (w + rest)[1..] == w[1..] + rest;
      assert NoSpace(w[1..]);
      WordEndOf(w[1..], rest);
    }
  }

  lemma {:induction false} WordsOfJoin(words: seq<string>)
    requires AreWords(words)
    ensures Words(Join(words)) == words
    decreases |words|
  {
    if words != [] {
      var w := words[0];
      assert w in words;
      if |words| == 1 {
        WordEndOf(w, "");
        assert w + "" == w && w[..|w|] == w && w[|w|..] == "";
        assert Words("") == [];
      } else {
        var rest := " " + Join(words[1..]);
        WordEndOf(w, rest);
        var line := w + rest;
        assert Join(words) == line;
        assert line[..|w|] == w && line[|w|..] == rest && rest[1..] == Join(words[1..]);
        WordsOfJoin(words[1..]);
        assert words == [w] + words[1..];
      }
    }
  }

  function Collapse(s: string): string {
    Join(Words(s))
  }

  lemma CollapseIdempotent(s: string)
    ensures Collapse(Collapse(s)) == Collapse(s)
  {
    WordsAreWords(s);
    WordsOfJoin(Words(s));
  }

  /******* Stripping *******/

  function StripLeft(s: string): (r: string)
    ensures |r| <= |s| && r == s[|s| - |r|..]
    ensures r != "" ==> !IsSpace(r[0])
  {
    if s != "" && IsSpace(s[0]) then StripLeft(s[1..]) else s
  }

  function StripRight(s: string): (r: string)
    ensures r <= s
    ensures r != "" ==> !IsSpace(r[|r| - 1])
  {
    if s != "" && IsSpace(s[|s| - 1]) then StripRight(s[..|s| - 1]) else s
  }

  function Strip(s: string): string {
    StripRight(StripLeft(s))
  }

  // Neither end is whitespace.
  predicate Trimmed(s: string) {
    s != "" ==> !IsSpace(s[0]) && !IsSpace(s[|s| - 1])
  }

  lemma StripTrims(s: string)
    ensures Trimmed(Strip(s)) && |Strip(s)| <= |s|
    ensures Strip(s) == s <==> Trimmed(s)
  {
    if Trimmed(s) {
      assert StripLeft(s) == s;
    }
  }

  /******* Paths and hashes *******/

  function Slashes(s: string): (r: string)
    ensures |r| == |s|
    ensures forall i :: 0 <= i < |s| ==> r[i] == if s[i] == '\\' then '/' else s[i]
  {
    seq(|s|, i requires 0 <= i < |s| => if s[i] == '\\' then '/' else s[i])
  }

  function NormalizePath(s: string): string {
    Strip(Slashes(s))
  }

  predicate NoBackslash(s: string) {
    forall i :: 0 <= i < |s| ==> s[i] != '\\'
  }

  lemma SlashesIdentity(s: string)
    requires NoBackslash(s)
    ensures Slashes(s) == s
  {
  }

  lemma StripKeepsNoBackslash(s: string)
    requires NoBackslash(s)
    ensures NoBackslash(Strip(s))
  {
    hide NoBackslash, StripLeft, StripRight;
    var l := StripLeft(s);
    SuffixKeepsNoBackslash(s, |s| - |l|);
    PrefixKeepsNoBackslash(l, StripRight(l));
  }

  lemma SuffixKeepsNoBackslash(s: string, n: nat)
    requires n <= |s| && NoBackslash(s)
    ensures NoBackslash(s[n..])
  {
  }

  lemma PrefixKeepsNoBackslash(s: string, r: string)
    requires r <= s && NoBackslash(s)
    ensures NoBackslash(r)
  {
  }

  lemma NormalizePathIdempotent(s: string)
    ensures NormalizePath(NormalizePath(s)) == NormalizePath(s)
  {
    hide Strip;
    StripKeepsNoBackslash(Slashes(s));
    SlashesIdentity(NormalizePath(s));
    StripTrims(Slashes(s));
    StripTrims(NormalizePath(s));
  }

  function LowerChar(c: char): char {
    if 'A' <= c <= 'Z' then (c as int + 32) as char else c
  }

  function Lower(s: string): string {
    seq(|s|, i requires 0 <= i < |s| => LowerChar(s[i]))
  }

  lemma LowerIdempotent(s: string)
    ensures Lower(Lower(s)) == Lower(s)
  {
  }
}
