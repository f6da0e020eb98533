/** The string primitives the scene reader and writer rely on, as Python
    defines them for `str`: whitespace, `strip()`, `split()` with no
    argument, `lower()` and `capitalize()`. */
module Text {

  /** A code point Python's `str.isspace()` accepts; `split()` and `strip()`
      without arguments separate on exactly these. */
  predicate IsSpace(c: char) {
    var n := c as int;
    || (9 <= n <= 13)              // \t \n \v \f \r
    || (28 <= n <= 32)             // file/group/record/unit separators, space
    || n == 0x85 || n == 0xA0 || n == 0x1680
    || (0x2000 <= n <= 0x200A)
    || n == 0x2028 || n == 0x2029 || n == 0x202F || n == 0x205F || n == 0x3000
  }

  /** Only whitespace (possibly nothing at all). */
  predicate IsBlank(s: string) {
    forall i :: 0 <= i < |s| ==> IsSpace(s[i])
  }

  /** A non-empty run of non-whitespace characters: what `split()` yields. */
  predicate IsToken(s: string) {
    |s| > 0 && forall i :: 0 <= i < |s| ==> !IsSpace(s[i])
  }

  /** Number of whitespace characters at the front of `s`. */
  function LeadingSpaces(s: string): (k: nat)
    ensures k <= |s|
    ensures IsBlank(s[..k])
    ensures k < |s| ==> !IsSpace(s[k])
  {
    if |s| == 0 || !IsSpace(s[0]) then 0
    else
      var k := 1 + LeadingSpaces(s[1..]);
      assert s[..k] == [s[0]] + s[1..][..k - 1];
      k
  }

  /** Number of whitespace characters at the back of `s`. */
  function TrailingSpaces(s: string): (k: nat)
    ensures k <= |s|
    ensures IsBlank(s[|s| - k..])
    ensures k < |s| ==> !IsSpace(s[|s| - k - 1])
  {
    if |s| == 0 || !IsSpace(s[|s| - 1]) then 0
    else
      var init := s[..|s| - 1];
      var k := 1 + TrailingSpaces(init);
      assert s[|s| - k..] == init[|init| - (k - 1)..] + [s[|s| - 1]];
      k
  }

  /** `str.strip()`: `s` without its leading and trailing whitespace. */
  function Strip(s: string): (r: string)
    ensures |r| <= |s|
    ensures r == [] <==> IsBlank(s)
    ensures r != [] ==> !IsSpace(r[0]) && !IsSpace(r[|r| - 1])
  {
    var i := LeadingSpaces(s);
    var rest := s[i..];
    var j := |rest| - TrailingSpaces(rest);
    if i == |s| then
      assert s == s[..i];
      []
    else
      assert rest[0] == s[i] && !IsSpace(s[i]);
      rest[..j]
  }

  /** Length of the maximal whitespace-free prefix of `s`, which starts
      with a non-whitespace character. */
  function TokenEnd(s: string): (n: nat)
    requires |s| > 0 && !IsSpace(s[0])
    ensures 1 <= n <= |s|
    ensures IsToken(s[..n])
    ensures n < |s| ==> IsSpace(s[n])
  {
    if |s| == 1 || IsSpace(s[1]) then 1
    else
      var n := 1 + TokenEnd(s[1..]);
      assert s[..n] == [s[0]] + s[1..][..n - 1];
      n
  }

  /** `str.split()` with no separator: the maximal whitespace-free runs of
      `s`, left to right. */
  function Split(s: string): (r: seq<string>)
    ensures forall i :: 0 <= i < |r| ==> IsToken(r[i])
    ensures r == [] <==> IsBlank(s)
    decreases |s|
  {
    if |s| == 0 then []
    else if IsSpace(s[0]) then
      var r := Split(s[1..]);
      assert IsBlank(s) <==> IsBlank(s[1..]) by {
        if IsBlank(s[1..]) {
          forall i | 0 <= i < |s| ensures IsSpace(s[i]) {
            if i > 0 { assert s[i] == s[1..][i - 1]; }
          }
        }
      }
      r
    else
      var n := TokenEnd(s);
      [s[..n]] + Split(s[n..])
  }

  /** `split()` drops whitespace in front of a word. */
  lemma SplitSkipsSpace(c: char, s: string)
    requires IsSpace(c)
    ensures Split([c] + s) == Split(s)
  {
    assert ([c] + s)[1..] == s;
  }

  /** A whitespace-free word splits into itself alone. */
  lemma SplitToken(t: string)
    requires IsToken(t)
    ensures Split(t) == [t]
  {
    TokenEndOf(t, "");
    assert t + "" == t;
    assert t[|t|..] == "";
  }

  /** Every token followed by exactly one space: the shape of a line the
      writer emits before its newline. */
  function Spaced(toks: seq<string>): string {
    if |toks| == 0 then "" else toks[0] + " " + Spaced(toks[1..])
  }

  /** A token ends at the first whitespace character after it. */
  lemma {:induction false} TokenEndOf(t: string, rest: string)
    requires IsToken(t)
    requires rest == [] || IsSpace(rest[0])
    ensures TokenEnd(t + rest) == |t|
    decreases |t|
  {
    var s := t + rest;
    if |t| == 1 {
      assert |s| == 1 || s[1] == rest[0];
    } else {
      assert s[1] == t[1];
      assert s[1..] == t[1..] + rest;
      TokenEndOf(t[1..], rest);
    }
  }

  /** `split()` reads a token and then carries on after it. */
  lemma SplitTokenThen(t: string, rest: string)
    requires IsToken(t)
    requires |rest| > 0 && IsSpace(rest[0])
    ensures Split(t + rest) == [t] + Split(rest)
  {
    var s := t + rest;
    TokenEndOf(t, rest);
    assert s[..|t|] == t;
    assert s[|t|..] == rest;
  }

  /** Splitting a line of single-space-terminated tokens followed by any
      whitespace gives back exactly those tokens. */
  lemma {:induction false} SplitSpaced(toks: seq<string>, tail: string)
    requires forall i :: 0 <= i < |toks| ==> IsToken(toks[i])
    requires IsBlank(tail)
    ensures Split(Spaced(toks) + tail) == toks
    decreases |toks|
  {
    if |toks| == 0 {
      assert Spaced(toks) + tail == tail;
    } else {
      var rest := Spaced(toks[1..]) + tail;
      assert Spaced(toks) + tail == toks[0] + (" " + rest);
      SplitTokenThen(toks[0], " " + rest);
      assert (" " + rest)[1..] == rest;
      SplitSpaced(toks[1..], tail);
    }
  }

  /** Appending a token appends it and its space. */
  lemma {:induction false} SpacedSnoc(toks: seq<string>, t: string)
    ensures Spaced(toks + [t]) == Spaced(toks) + t + " "
    decreases |toks|
  {
    if |toks| == 0 {
      assert toks + [t] == [t];
    } else {
      assert (toks + [t])[1..] == toks[1..] + [t];
      SpacedSnoc(toks[1..], t);
    }
  }

  /** The first character of a spaced line is the first character of its
      first token. */
  lemma SpacedHead(toks: seq<string>)
    requires |toks| > 0 && |toks[0]| > 0
    ensures |Spaced(toks)| > 0 && Spaced(toks)[0] == toks[0][0]
  {
    assert Spaced(toks) == toks[0] + (" " + Spaced(toks[1..]));
  }

  /** No line break occurs inside a spaced run of tokens. */
  lemma {:induction false} SpacedHasNoNewline(toks: seq<string>)
    requires forall i :: 0 <= i < |toks| ==> IsToken(toks[i])
    ensures forall i :: 0 <= i < |Spaced(toks)| ==> Spaced(toks)[i] != '\n'
    decreases |toks|
  {
    if |toks| > 0 {
      SpacedHasNoNewline(toks[1..]);
      var s := Spaced(toks);
      var t := toks[0];
      assert s == t + " " + Spaced(toks[1..]);
      forall i | 0 <= i < |s| ensures s[i] != '\n' {
        if i < |t| {
          assert s[i] == t[i] && !IsSpace(t[i]);
        } else if i > |t| {
          assert s[i] == Spaced(toks[1..])[i - |t| - 1];
        }
      }
    }
  }

  /** The text of a file made of the given lines, in order. */
  function Concat(lines: seq<string>): string {
    if |lines| == 0 then "" else lines[0] + Concat(lines[1..])
  }

  /** Length of the first line of a non-empty text: up to and including its
      first newline, or the whole text when it has none. */
  function LineEnd(s: string): (n: nat)
    requires |s| > 0
    ensures 1 <= n <= |s|
    ensures forall i :: 0 <= i < n - 1 ==> s[i] != '\n'
    ensures n < |s| ==> s[n - 1] == '\n'
  {
    if s[0] == '\n' || |s| == 1 then 1 else 1 + LineEnd(s[1..])
  }

  /** No newline occurs in `line` except possibly as its last character. */
  predicate NewlineOnlyAtEnd(line: string) {
    forall i :: 0 <= i < |line| - 1 ==> line[i] != '\n'
  }

  /** A line as iterating over a file yields it: non-empty, a newline at
      its end and nowhere else. */
  predicate IsFullLine(line: string) {
    && |line| > 0
    && line[|line| - 1] == '\n'
    && NewlineOnlyAtEnd(line)
  }

  /** Iterating over a file opened in text mode: the lines of `s`, each
      keeping its newline, the last one possibly without. The lines give
      back the text, and every line but the last is a full line. */
  function SplitLines(s: string): (r: seq<string>)
    ensures Concat(r) == s
    ensures forall i :: 0 <= i < |r| ==> |r[i]| > 0
    ensures forall i :: 0 <= i < |r| - 1 ==> IsFullLine(r[i])
    ensures |r| > 0 ==> NewlineOnlyAtEnd(r[|r| - 1])
    decreases |s|
  {
    if |s| == 0 then []
    else
      var n := LineEnd(s);
      var line, rest := s[..n], SplitLines(s[n..]);
      var r := [line] + rest;
      assert r[1..] == rest;
      assert Concat(r) == line + Concat(rest);
      assert line + s[n..] == s;
      assert forall i :: 1 <= i < |r| ==> r[i] == rest[i - 1];
      assert n < |s| ==> IsFullLine(line);
      r
  }

  lemma {:induction false} LineEndOf(line: string, rest: string)
    requires IsFullLine(line)
    ensures LineEnd(line + rest) == |line|
    decreases |line|
  {
    var s := line + rest;
    if s[0] != '\n' && |s| > 1 {
      assert s[1..] == line[1..] + rest;
      LineEndOf(line[1..], rest);
    }
  }

  /** Splitting the text of full lines gives back exactly those lines. */
  lemma {:induction false} SplitLinesConcat(lines: seq<string>)
    requires forall i :: 0 <= i < |lines| ==> IsFullLine(lines[i])
    ensures SplitLines(Concat(lines)) == lines
    decreases |lines|
  {
    if |lines| > 0 {
      var s := Concat(lines);
      LineEndOf(lines[0], Concat(lines[1..]));
      assert s[..|lines[0]|] == lines[0];
      assert s[|lines[0]|..] == Concat(lines[1..]);
      SplitLinesConcat(lines[1..]);
    }
  }

  /** ASCII letters are folded; every other character is kept. */
  function LowerChar(c: char): char {
    if 'A' <= c <= 'Z' then (c as int + 32) as char else c
  }

  function UpperChar(c: char): char {
    if 'a' <= c <= 'z' then (c as int - 32) as char else c
  }

  /** `str.lower()` restricted to the ASCII letters. */
  function Lower(s: string): (r: string)
    ensures |r| == |s|
    ensures forall i :: 0 <= i < |s| ==> r[i] == LowerChar(s[i])
  {
    if |s| == 0 then "" else [LowerChar(s[0])] + Lower(s[1..])
  }

  /** `str.capitalize()` restricted to the ASCII letters: first character
      upper-cased, the rest lower-cased. */
  function Capitalize(s: string): (r: string)
    ensures |r| == |s|
    ensures forall i :: 0 <= i < |s| ==> r[i] == if i == 0 then UpperChar(s[i]) else LowerChar(s[i])
  {
    if |s| == 0 then "" else [UpperChar(s[0])] + Lower(s[1..])
  }
}
