/** The string operations of Python that the core relies on, on decoded text. */
module Text {

  // ---- str.split(sep) for a one-character separator ----

  /** `s.split(sep)`: the pieces between separators, empty pieces included. */
  function Split(s: string, sep: char): (r: seq<string>)
    ensures |r| >= 1
    decreases |s|
  {
    if |s| == 0 then [""]
    else if s[0] == sep then [""] + Split(s[1..], sep)
    else
      var rest := Split(s[1..], sep);
      [[s[0]] + rest[0]] + rest[1..]
  }

  /** `sep.join(parts)`. */
  function Join(parts: seq<string>, sep: char): string
  {
    if parts == [] then ""
    else if |parts| == 1 then parts[0]
    else parts[0] + [sep] + Join(parts[1..], sep)
  }

  /** Joining the pieces with the separator gives the text back. */
  lemma {:induction false} JoinSplit(s: string, sep: char)
    ensures Join(Split(s, sep), sep) == s
    decreases |s|
  {
    if |s| == 0 {
    } else if s[0] == sep {
      JoinSplit(s[1..], sep);
      var rest := Split(s[1..], sep);
      assert Split(s, sep) == [""] + rest;
      assert s == [sep] + s[1..];
    } else {
      JoinSplit(s[1..], sep);
      var rest := Split(s[1..], sep);
      var r := [[s[0]] + rest[0]] + rest[1..];
      assert Split(s, sep) == r;
      if |rest| == 1 {
        assert s == [s[0]] + s[1..];
      } else {
        assert r[1..] == rest[1..];
        assert Join(rest, sep) == rest[0] + [sep] + Join(rest[1..], sep);
        assert s == [s[0]] + s[1..];
      }
    }
  }

  /** No piece holds the separator. */
  lemma {:induction false} SplitPiecesHaveNoSeparator(s: string, sep: char)
    ensures forall i :: 0 <= i < |Split(s, sep)| ==> sep !in Split(s, sep)[i]
    decreases |s|
  {
    if |s| > 0 {
      SplitPiecesHaveNoSeparator(s[1..], sep);
      var rest := Split(s[1..], sep);
      if s[0] != sep {
        var r := [[s[0]] + rest[0]] + rest[1..];
        assert forall i :: 1 <= i < |r| ==> r[i] == rest[i];
      }
    }
  }

  // ---- readline ----

  /** Length of the first line of `s` as readline returns it: up to and including the first newline. */
  function LineEnd(s: string): (k: nat)
    requires |s| > 0
    ensures 1 <= k <= |s|
    ensures '\n' !in s[..k - 1]
    ensures k < |s| ==> s[k - 1] == '\n'
  {
    if s[0] == '\n' || |s| == 1 then 1
    else
      var k := 1 + LineEnd(s[1..]);
      assert s[..k - 1] == [s[0]] + s[1..][..k - 2];
      k
  }

  /** The lines successive readline calls return, each with its newline; the last may lack one. */
  function Lines(s: string): (r: seq<string>)
    decreases |s|
  {
    if |s| == 0 then [] else [s[..LineEnd(s)]] + Lines(s[LineEnd(s)..])
  }

  function Concat(parts: seq<string>): string
  {
    if parts == [] then "" else parts[0] + Concat(parts[1..])
  }

  /** Reading every line gives the whole text back. */
  lemma {:induction false} LinesConcat(s: string)
    ensures Concat(Lines(s)) == s
    decreases |s|
  {
    if |s| > 0 {
      var k := LineEnd(s);
      LinesConcat(s[k..]);
      ConcatCons(s[..k], Lines(s[k..]));
      assert s == s[..k] + s[k..];
    }
  }

  lemma ConcatCons(a: string, rest: seq<string>)
    ensures Concat([a] + rest) == a + Concat(rest)
  {
    assert ([a] + rest)[1..] == rest;
  }

  /** Every line is non-empty, holds a newline at most as its last character, and every line but the last ends with one. */
  lemma {:induction false} LinesShape(s: string)
    ensures forall i :: 0 <= i < |Lines(s)| ==> Lines(s)[i] != ""
    ensures forall i :: 0 <= i < |Lines(s)| ==> '\n' !in Lines(s)[i][..|Lines(s)[i]| - 1]
    ensures forall i :: 0 <= i < |Lines(s)| - 1 ==> Lines(s)[i][|Lines(s)[i]| - 1] == '\n'
    decreases |s|
  {
    if |s| > 0 {
      var k := LineEnd(s);
      var rest := Lines(s[k..]);
      LinesShape(s[k..]);
      var r := Lines(s);
      assert r == [s[..k]] + rest;
      assert r[0] == s[..k] && |r[0]| == k;
      assert r[0][..k - 1] == s[..k - 1];
      assert forall i :: 1 <= i < |r| ==> r[i] == rest[i - 1];
      assert |r| > 1 ==> k < |s|;
    }
  }

  /** A text made of a newline-free line, its newline and more text starts with that line. */
  lemma LinesOfLine(a: string, rest: string)
    requires '\n' !in a
    ensures Lines(a + "\n" + rest) == [a + "\n"] + Lines(rest)
  {
    var s := a + "\n" + rest;
    LineEndOfLine(a, rest);
    assert s[..|a| + 1] == a + "\n";
    assert s[|a| + 1..] == rest;
  }

  lemma {:induction false} LineEndOfLine(a: string, rest: string)
    requires '\n' !in a
    ensures LineEnd(a + "\n" + rest) == |a| + 1
    decreases |a|
  {
    var s := a + "\n" + rest;
    if |a| > 0 {
      assert s[1..] == a[1..] + "\n" + rest;
      LineEndOfLine(a[1..], rest);
    }
  }

  // ---- str.strip ----

  /** The characters Python's str.isspace accepts. */
  const Whitespace: set<char> :=
    {'\t', '\n', '\U{0B}', '\U{0C}', '\r', '\U{1C}', '\U{1D}', '\U{1E}', '\U{1F}', ' ',
     '\U{85}', '\U{A0}', '\U{1680}', '\U{2000}', '\U{2001}', '\U{2002}', '\U{2003}', '\U{2004}',
     '\U{2005}', '\U{2006}', '\U{2007}', '\U{2008}', '\U{2009}', '\U{200A}', '\U{2028}',
     '\U{2029}', '\U{202F}', '\U{205F}', '\U{3000}'}

  function DropLeading(s: string, cs: set<char>): (r: string)
    ensures |r| <= |s| && r == s[|s| - |r|..]
    ensures forall k :: 0 <= k < |s| - |r| ==> s[k] in cs
    ensures r != [] ==> r[0] !in cs
  {
    if |s| > 0 && s[0] in cs then DropLeading(s[1..], cs) else s
  }

  function DropTrailing(s: string, cs: set<char>): (r: string)
    ensures |r| <= |s| && r == s[..|r|]
    ensures forall k :: |r| <= k < |s| ==> s[k] in cs
    ensures r != [] ==> r[|r| - 1] !in cs
  {
    if |s| > 0 && s[|s| - 1] in cs then DropTrailing(s[..|s| - 1], cs) else s
  }

  /** `s.strip(chars)`: the middle of `s` left once the characters of `cs` are removed from both ends. */
  function StripChars(s: string, cs: set<char>): (r: string)
    ensures exists i, j :: 0 <= i <= j <= |s| && r == s[i..j]
                           && (forall k :: 0 <= k < i ==> s[k] in cs)
                           && (forall k :: j <= k < |s| ==> s[k] in cs)
    ensures r != [] ==> r[0] !in cs && r[|r| - 1] !in cs
  {
    var t := DropLeading(s, cs);
    var r := DropTrailing(t, cs);
    var i := |s| - |t|;
    assert r == s[i..i + |r|];
    r
  }

  /** `s.strip()`. */
  function Strip(s: string): string
  {
    StripChars(s, Whitespace)
  }

  /** `s.strip("\n")`. */
  function StripNewlines(s: string): string
  {
    StripChars(s, {'\n'})
  }

  // ---- case ----

  function UpperChar(c: char): char
  {
    if 'a' <= c <= 'z' then (c as int - 32) as char else c
  }

  function UpperAscii(s: string): (r: string)
    ensures |r| == |s|
    ensures forall k :: 0 <= k < |s| ==> r[k] == UpperChar(s[k])
  {
    if s == [] then [] else [UpperChar(s[0])] + UpperAscii(s[1..])
  }

  /** `word.upper() == "FROM"`. */
  predicate IsFromKeyword(word: string)
  {
    UpperAscii(word) == "FROM"
  }
}
