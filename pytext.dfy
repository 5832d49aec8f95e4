/** The Python `str` methods the mailer applies to names, titles and the
    social-links footer: `upper()`, `split()`, `rstrip(chars)` and `sep.join`. */
module PyText {

  /** The characters `str.split()` with no argument treats as whitespace. */
  const Whitespace: set<char> := {
    '\t', '\n', '\U{0B}', '\U{0C}', '\r', '\U{1C}', '\U{1D}', '\U{1E}', '\U{1F}', ' ',
    '\U{85}', '\U{A0}', '\U{1680}',
    '\U{2000}', '\U{2001}', '\U{2002}', '\U{2003}', '\U{2004}', '\U{2005}',
    '\U{2006}', '\U{2007}', '\U{2008}', '\U{2009}', '\U{200A}',
    '\U{2028}', '\U{2029}', '\U{202F}', '\U{205F}', '\U{3000}'}

  predicate IsSpace(c: char) {
    c in Whitespace
  }

  predicate Blank(s: string) {
    forall k :: 0 <= k < |s| ==> IsSpace(s[k])
  }

  predicate NoSpace(s: string) {
    forall k :: 0 <= k < |s| ==> !IsSpace(s[k])
  }

  predicate IsLower(c: char) {
    'a' <= c <= 'z'
  }

  function UpperChar(c: char): char {
    if IsLower(c) then (c as int - 32) as char else c
  }

  /** `s.upper()` for ASCII letters; every other character is kept. */
  function Upper(s: string): (r: string)
    ensures |r| == |s|
    ensures forall k :: 0 <= k < |r| ==> !IsLower(r[k])
    ensures forall k :: 0 <= k < |r| ==> r[k] == s[k] || (IsLower(s[k]) && r[k] as int == s[k] as int - 32)
  {
    if s == [] then [] else [UpperChar(s[0])] + Upper(s[1..])
  }

  /** Number of whitespace characters in front of the first word. */
  function LeadingSpace(s: string): (n: nat)
    ensures n <= |s| && Blank(s[..n])
    ensures n == |s| || !IsSpace(s[n])
  {
    if s == [] || !IsSpace(s[0]) then 0 else 1 + LeadingSpace(s[1..])
  }

  /** Length of the run of non-whitespace that starts `s`. */
  function WordLength(s: string): (n: nat)
    ensures n <= |s| && NoSpace(s[..n])
    ensures n == |s| || IsSpace(s[n])
  {
    if s == [] || IsSpace(s[0]) then 0 else 1 + WordLength(s[1..])
  }

  /** `s.split()`: the maximal runs of non-whitespace, in order. */
  function Split(s: string): (r: seq<string>)
    ensures forall k :: 0 <= k < |r| ==> r[k] != [] && NoSpace(r[k])
    ensures r == [] <==> Blank(s)
    decreases |s|
  {
    var n := LeadingSpace(s);
    var t := s[n..];
    if t == [] then
      assert Blank(s) by { assert s == s[..n]; }
      []
    else
      assert !Blank(s) && !IsSpace(t[0]) by { assert t[0] == s[n]; }
      var w := WordLength(t);
      var rest := Split(t[w..]);
      var r := [t[..w]] + rest;
      assert forall k :: 0 <= k < |r| ==> r[k] != [] && NoSpace(r[k]) by {
        assert r[0] == t[..w] && w > 0;
        assert forall k :: 0 < k < |r| ==> r[k] == rest[k - 1];
      }
      r
  }

  /** `sep.join(parts)`. */
  function Join(parts: seq<string>, sep: string): string {
    if parts == [] then ""
    else if |parts| == 1 then parts[0]
    else parts[0] + sep + Join(parts[1..], sep)
  }

  lemma LeadingSpaceOfWord(s: string)
    requires s != [] && !IsSpace(s[0])
    ensures LeadingSpace(s) == 0
  {
  }

  lemma {:induction false} WordLengthOfWord(w: string, rest: string)
    requires NoSpace(w)
    requires rest == [] || IsSpace(rest[0])
    ensures WordLength(w + rest) == |w|
    decreases |w|
  {
    if w != [] {
      assert (w + rest)[1..] == w[1..] + rest;
      WordLengthOfWord(w[1..], rest);
    } else {
      assert w + rest == rest;
    }
  }

  /** A whitespace character in front changes nothing. */
  lemma SplitAfterSpace(c: char, x: string)
    requires IsSpace(c)
    ensures Split([c] + x) == Split(x)
  {
    var s := [c] + x;
    assert s[1..] == x;
    assert LeadingSpace(s) == 1 + LeadingSpace(x);
    assert s[LeadingSpace(s)..] == x[LeadingSpace(x)..];
  }

  /** Leading whitespace of any kind and length changes nothing. */
  lemma {:induction false} SplitAfterBlank(pre: string, x: string)
    requires Blank(pre)
    ensures Split(pre + x) == Split(x)
    decreases |pre|
  {
    if pre != [] {
      assert pre + x == [pre[0]] + (pre[1..] + x);
      SplitAfterSpace(pre[0], pre[1..] + x);
      SplitAfterBlank(pre[1..], x);
    } else {
      assert pre + x == x;
    }
  }

  lemma JoinCons(parts: seq<string>, sep: string)
    requires |parts| > 1
    ensures Join(parts, sep) == parts[0] + (sep + Join(parts[1..], sep))
  {
  }

  /** A word at the very front is the first item of the split. */
  lemma SplitOfLeadingWord(w: string, rest: string)
    requires w != [] && NoSpace(w)
    requires rest == [] || IsSpace(rest[0])
    ensures Split(w + rest) == [w] + Split(rest)
  {
    var s := w + rest;
    assert s[0] == w[0];
    LeadingSpaceOfWord(s);
    assert s[LeadingSpace(s)..] == s;
    WordLengthOfWord(w, rest);
    assert s[..|w|] == w;
    assert s[|w|..] == rest;
  }

  lemma SplitOfWordThenSpace(w: string, tail: string)
    requires w != [] && NoSpace(w)
    ensures Split(w + (" " + tail)) == [w] + Split(tail)
  {
    var rest := " " + tail;
    assert rest[0] == ' ';
    SplitOfLeadingWord(w, rest);
    assert rest == [' '] + tail;
    SplitAfterSpace(' ', tail);
  }

  /** The first item of the split is the first maximal run of
      non-whitespace, wherever it starts and whatever whitespace follows it;
      the other items are the split of what follows that run. */
  lemma SplitFirstWord(s: string, i: nat, j: nat)
    requires i < j <= |s|
    requires Blank(s[..i]) && NoSpace(s[i..j])
    requires j == |s| || IsSpace(s[j])
    ensures Split(s) == [s[i..j]] + Split(s[j..])
  {
    var pre, word, rest := s[..i], s[i..j], s[j..];
    assert Split(s) == Split(word + rest) by {
      assert s == pre + (word + rest);
      SplitAfterBlank(pre, word + rest);
    }
    assert Split(word + rest) == [word] + Split(rest) by {
      assert rest == [] || rest[0] == s[j];
      SplitOfLeadingWord(word, rest);
    }
  }

  /** One step of the round trip: the first word, a space, and the join of
      the rest, whose split is already known. */
  lemma SplitOfJoinStep(words: seq<string>)
    requires |words| > 1 && words[0] != [] && NoSpace(words[0])
    requires Split(Join(words[1..], " ")) == words[1..]
    ensures Split(Join(words, " ")) == words
  {
    var tail := Join(words[1..], " ");
    assert Join(words, " ") == words[0] + (" " + tail) by { JoinCons(words, " "); }
    SplitOfWordThenSpace(words[0], tail);
    assert words == [words[0]] + words[1..];
  }

  /** Joining whitespace-free words with single spaces and splitting again
      gives the words back. */
  lemma {:induction false} SplitOfJoin(words: seq<string>)
    requires forall k :: 0 <= k < |words| ==> words[k] != [] && NoSpace(words[k])
    ensures Split(Join(words, " ")) == words
    decreases |words|
  {
    if |words| == 1 {
      assert Join(words, " ") == words[0] + "";
      SplitOfLeadingWord(words[0], "");
    } else if |words| > 1 {
      SplitOfJoin(words[1..]);
      SplitOfJoinStep(words);
    }
  }

  /** `s.rstrip(chars)`: drop trailing characters that belong to the set
      `cs`; the argument is a set of characters, not a suffix. */
  function RStrip(s: string, cs: set<char>): (r: string)
    ensures r <= s
    ensures r == [] || r[|r| - 1] !in cs
    ensures forall k :: |r| <= k < |s| ==> s[k] in cs
  {
    if s != [] && s[|s| - 1] in cs then RStrip(s[..|s| - 1], cs) else s
  }

  /** The three properties of RStrip's contract pin its result down. */
  lemma RStripUnique(x: string, y: string, cs: set<char>)
    requires x == [] || x[|x| - 1] !in cs
    requires forall k :: 0 <= k < |y| ==> y[k] in cs
    ensures RStrip(x + y, cs) == x
  {
    var s := x + y;
    var r := RStrip(s, cs);
    assert x == s[..|x|];
  }
}
