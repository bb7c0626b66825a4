/** The two Python string operations the binary transport relies on:
    `str.strip()` and `str.splitlines()`, over Python's own whitespace and
    line-boundary character sets. */
module Text {

  /** `c.isspace()` */
  predicate IsSpace(c: char)
  {
    || c == ' ' || c == '\t' || c == '\n' || c == '\r'
    || c == '\U{0B}' || c == '\U{0C}'
    || ('\U{1C}' <= c <= '\U{1F}')
    || c == '\U{85}' || c == '\U{A0}' || c == '\U{1680}'
    || ('\U{2000}' <= c <= '\U{200A}')
    || c == '\U{2028}' || c == '\U{2029}' || c == '\U{202F}'
    || c == '\U{205F}' || c == '\U{3000}'
  }

  /** The characters at which `str.splitlines()` ends a line. */
  predicate IsLineBreak(c: char)
  {
    || c == '\n' || c == '\r' || c == '\U{0B}' || c == '\U{0C}'
    || c == '\U{1C}' || c == '\U{1D}' || c == '\U{1E}'
    || c == '\U{85}' || c == '\U{2028}' || c == '\U{2029}'
  }

  predicate NoLineBreak(s: string)
  {
    forall k :: 0 <= k < |s| ==> !IsLineBreak(s[k])
  }

  predicate AllSpace(s: string)
  {
    forall k :: 0 <= k < |s| ==> IsSpace(s[k])
  }

  /** `s.lstrip()`: the result is the suffix of `s` left after dropping the
      leading whitespace, and it does not itself start with whitespace. */
  function TrimStart(s: string): (r: string)
    ensures |r| <= |s| && r == s[|s| - |r|..]
    ensures AllSpace(s[..|s| - |r|])
    ensures r == [] || !IsSpace(r[0])
  {
    if s != [] && IsSpace(s[0]) then TrimStart(s[1..]) else s
  }

  /** `s.rstrip()`: the prefix left after dropping trailing whitespace. */
  function TrimEnd(s: string): (r: string)
    ensures |r| <= |s| && r == s[..|r|]
    ensures AllSpace(s[|r|..])
    ensures r == [] || !IsSpace(r[|r| - 1])
  {
    if s != [] && IsSpace(s[|s| - 1]) then TrimEnd(s[..|s| - 1]) else s
  }

  /** Trimming both ends gives the empty string exactly when `s` is all
      whitespace. */
  lemma TrimmedEmptyIffAllSpace(s: string)
    ensures TrimEnd(TrimStart(s)) == [] <==> AllSpace(s)
  {
    if !AllSpace(s) {
      var t := TrimStart(s);
      var k :| 0 <= k < |s| && !IsSpace(s[k]);
      assert s[..|s| - |t|] + t == s;
      assert k >= |s| - |t|;
      assert t[k - (|s| - |t|)] == s[k];
    }
  }

  /** `r` sits at offset `i` of `s` with only whitespace around it. */
  predicate SpaceFramed(s: string, i: int, r: string)
  {
    0 <= i <= |s| - |r| && r == s[i..i + |r|] && AllSpace(s[..i]) && AllSpace(s[i + |r|..])
  }

  lemma StripFraming(s: string)
    ensures SpaceFramed(s, |s| - |TrimStart(s)|, TrimEnd(TrimStart(s)))
  {
    var t := TrimStart(s);
    var i := |s| - |t|;
    var r := TrimEnd(t);
    assert r == s[i..i + |r|];
    assert s[i + |r|..] == t[|r|..];
  }

  /** `s.strip()`: a slice of `s` with only whitespace on either side of it,
      neither starting nor ending with whitespace, and empty exactly when `s`
      is all whitespace. */
  function Strip(s: string): (r: string)
    ensures r == [] <==> AllSpace(s)
    ensures r != [] ==> !IsSpace(r[0]) && !IsSpace(r[|r| - 1])
    ensures exists i :: SpaceFramed(s, i, r)
  {
    StripFraming(s);
    TrimmedEmptyIffAllSpace(s);
    TrimEnd(TrimStart(s))
  }

  /** Whitespace in front of text that starts with a non-space is dropped,
      and the text itself kept. */
  lemma {:induction false} TrimStartAppend(x: string, y: string)
    requires y != [] && !IsSpace(y[0])
    ensures TrimStart(x + y) == TrimStart(x) + y
  {
    if x == [] {
      assert x + y == y;
    } else {
      assert (x + y)[0] == x[0];
      assert (x + y)[1..] == x[1..] + y;
      if IsSpace(x[0]) {
        TrimStartAppend(x[1..], y);
      }
    }
  }

  /** Index of the first line break in `s`, or `|s|` if there is none. */
  function FirstBreak(s: string): (i: nat)
    ensures i <= |s|
    ensures NoLineBreak(s[..i])
    ensures i < |s| ==> IsLineBreak(s[i])
  {
    if s == [] then 0
    else if IsLineBreak(s[0]) then 0
    else
      var j := FirstBreak(s[1..]);
      assert s[..j + 1] == [s[0]] + s[1..][..j];
      j + 1
  }

  /** The index just past the line break at `i`: a "\r\n" pair is one break. */
  function BreakEnd(s: string, i: nat): (e: nat)
    requires i < |s| && IsLineBreak(s[i])
    ensures i < e <= |s| && IsLineBreak(s[e - 1])
  {
    if s[i] == '\r' && i + 1 < |s| && s[i + 1] == '\n' then i + 2 else i + 1
  }

  /** The text after the last line break of `s`. */
  function LastLine(s: string): (r: string)
    ensures |r| <= |s| && r == s[|s| - |r|..]
    ensures NoLineBreak(r)
    ensures |r| < |s| ==> IsLineBreak(s[|s| - |r| - 1])
  {
    if s == [] then []
    else if IsLineBreak(s[|s| - 1]) then []
    else LastLine(s[..|s| - 1]) + [s[|s| - 1]]
  }

  lemma {:induction false} LastLineOfUnbroken(s: string)
    requires NoLineBreak(s)
    ensures LastLine(s) == s
  {
    if s != [] {
      LastLineOfUnbroken(s[..|s| - 1]);
      assert s[..|s| - 1] + [s[|s| - 1]] == s;
    }
  }

  /** Whatever comes before a line break has no effect on the last line. */
  lemma {:induction false} LastLineAfterBreak(u: string, t: string)
    requires u == [] || IsLineBreak(u[|u| - 1])
    ensures LastLine(u + t) == LastLine(t)
    decreases |t|
  {
    if t == [] {
      assert u + t == u;
    } else {
      var c := t[|t| - 1];
      assert (u + t)[|u + t| - 1] == c;
      assert (u + t)[..|u + t| - 1] == u + t[..|t| - 1];
      LastLineAfterBreak(u, t[..|t| - 1]);
    }
  }

  /** `s.splitlines()`: the lines between breaks, with no empty line after a
      final break. No line holds a break, there are lines exactly when there
      is text, and on text that does not end in a break the last line is the
      text after the last break. */
  function SplitLines(s: string): (r: seq<string>)
    ensures r == [] <==> s == []
    ensures forall k :: 0 <= k < |r| ==> NoLineBreak(r[k])
    ensures s != [] && !IsLineBreak(s[|s| - 1]) ==> r[|r| - 1] == LastLine(s)
    decreases |s|
  {
    if s == [] then []
    else
      var i := FirstBreak(s);
      if i == |s| then
        assert s[..i] == s;
        LastLineOfUnbroken(s);
        [s]
      else
        var e := BreakEnd(s, i);
        var t := s[e..];
        assert s == s[..e] + t;
        LastLineAfterBreak(s[..e], t);
        [s[..i]] + SplitLines(t)
  }

  /** Trailing whitespace has no effect on what `rstrip` keeps. */
  lemma {:induction false} TrimEndSpaceTail(x: string, t: string)
    requires AllSpace(t)
    ensures TrimEnd(x + t) == TrimEnd(x)
    decreases |t|
  {
    if t == [] {
      assert x + t == x;
    } else {
      assert (x + t)[|x + t| - 1] == t[|t| - 1];
      assert (x + t)[..|x + t| - 1] == x + t[..|t| - 1];
      TrimEndSpaceTail(x, t[..|t| - 1]);
    }
  }

  lemma ConcatAssoc(a: string, b: string, c: string)
    ensures a + b + c == a + (b + c)
  {
  }

  /** A word followed only by whitespace keeps the word under `rstrip`. */
  lemma TrimEndAfterWord(y: string, trailing: string)
    requires y != [] && !IsSpace(y[|y| - 1])
    requires AllSpace(trailing)
    ensures TrimEnd(y + trailing) == y
  {
    TrimEndSpaceTail(y, trailing);
  }

  /** Stripping text that ends in a word and then whitespace keeps the word
      and drops only leading whitespace before it. */
  lemma StripAroundWord(x: string, w: string, trailing: string)
    requires w != [] && !IsSpace(w[0]) && !IsSpace(w[|w| - 1])
    requires AllSpace(trailing)
    ensures Strip(x + w + trailing) == TrimStart(x) + w
  {
    var u := TrimStart(x);
    ConcatAssoc(x, w, trailing);
    ConcatAssoc(u, w, trailing);
    TrimStartAppend(x, w + trailing);
    assert (u + w)[|u + w| - 1] == w[|w| - 1];
    TrimEndAfterWord(u + w, trailing);
  }

  /** Only the text after the last break survives as the last line of the
      stripped output, whatever precedes that break and whatever whitespace
      follows the text. */
  lemma LastLineIgnoresEarlierLines(earlier: string, b: char, last: string, trailing: string)
    requires IsLineBreak(b)
    requires last != [] && NoLineBreak(last)
    requires !IsSpace(last[0]) && !IsSpace(last[|last| - 1])
    requires AllSpace(trailing)
    ensures Strip(earlier + [b] + last + trailing) != []
    ensures LastLine(Strip(earlier + [b] + last + trailing)) == last
  {
    var e := earlier + [b];
    StripAroundWord(e, last, trailing);
    var u := TrimStart(e);
    assert u == [] || u[|u| - 1] == e[|e| - 1];
    LastLineAfterBreak(u, last);
    LastLineOfUnbroken(last);
  }

  /** A single line followed by a newline strips to that line. */
  lemma StripLineAndNewline(line: string)
    requires line != [] && !IsSpace(line[0]) && !IsSpace(line[|line| - 1])
    ensures Strip(line + "\n") == line
  {
  }
}
