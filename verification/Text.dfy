/**
 The pieces of Python's `str` the text-handling components use: whitespace, `strip`, `splitlines`, `"\n".join`.
 A string is a sequence of Unicode scalar values.
 */
module Text {
  /** `str.isspace` of one character. */
  predicate IsSpace(c: char) {
    var n := c as int;
    || 0x09 <= n <= 0x0D || 0x1C <= n <= 0x20 || n == 0x85 || n == 0xA0 || n == 0x1680
    || 0x2000 <= n <= 0x200A || n == 0x2028 || n == 0x2029 || n == 0x202F || n == 0x205F || n == 0x3000
  }

  /** The characters `str.splitlines` ends a line at. */
  predicate IsBreak(c: char) {
    var n := c as int;
    0x0A <= n <= 0x0D || 0x1C <= n <= 0x1E || n == 0x85 || n == 0x2028 || n == 0x2029
  }

  /** Every line end is a blank, and these are all the blanks and all the line ends. */
  lemma BlanksAndLineEnds(c: char)
    ensures IsBreak(c) ==> IsSpace(c)
    ensures (c as int) < 0x100 ==>
              (IsSpace(c) <==> c as int in [9, 10, 11, 12, 13, 28, 29, 30, 31, 32, 133, 160])
              && (IsBreak(c) <==> c as int in [10, 11, 12, 13, 28, 29, 30, 133])
    ensures (c as int) >= 0x100 ==>
              (IsSpace(c) <==> c as int in [0x1680, 0x2000, 0x2001, 0x2002, 0x2003, 0x2004, 0x2005, 0x2006, 0x2007,
                                            0x2008, 0x2009, 0x200A, 0x2028, 0x2029, 0x202F, 0x205F, 0x3000])
              && (IsBreak(c) <==> c as int in [0x2028, 0x2029])
  {
  }

  predicate AllSpace(s: string) { forall i :: 0 <= i < |s| ==> IsSpace(s[i]) }

  predicate BreakFree(s: string) { forall i :: 0 <= i < |s| ==> !IsBreak(s[i]) }

  predicate LinesBreakFree(ls: seq<string>) { forall i :: 0 <= i < |ls| ==> BreakFree(ls[i]) }

  lemma BreakFreeConcat(a: string, b: string)
    ensures BreakFree(a + b) <==> BreakFree(a) && BreakFree(b)
  {
    assert forall i :: 0 <= i < |a| ==> (a + b)[i] == a[i];
    assert forall i :: 0 <= i < |b| ==> (a + b)[|a| + i] == b[i];
  }

  // ----- strip -----

  function StripLeft(s: string): (r: string)
    ensures r != "" ==> !IsSpace(r[0])
  {
    if s != "" && IsSpace(s[0]) then StripLeft(s[1..]) else s
  }

  function StripRight(s: string): (r: string)
    ensures r <= s
    ensures r != "" ==> !IsSpace(r[|r| - 1])
  {
    if s != "" && IsSpace(s[|s| - 1]) then StripRight(s[..|s| - 1]) else s
  }

  function Strip(s: string): string { StripRight(StripLeft(s)) }

  lemma {:induction false} StripLeftOfIndented(indent: string, s: string)
    requires AllSpace(indent)
    ensures StripLeft(indent + s) == StripLeft(s)
  {
    if indent == "" {
      assert indent + s == s;
    } else {
      assert (indent + s)[1..] == indent[1..] + s;
      StripLeftOfIndented(indent[1..], s);
    }
  }

  lemma {:induction false} StripRightKeepsStart(s: string, k: nat)
    requires k < |s| && !IsSpace(s[k])
    ensures k < |StripRight(s)|
  {
    if IsSpace(s[|s| - 1]) {
      StripRightKeepsStart(s[..|s| - 1], k);
    }
  }

  /** A line of blanks and then a solid character strips to something that starts with that character. */
  lemma StripStartsWith(indent: string, s: string)
    requires AllSpace(indent) && s != "" && !IsSpace(s[0])
    ensures Strip(indent + s) != "" && Strip(indent + s)[0] == s[0]
  {
    StripLeftOfIndented(indent, s);
    StripRightKeepsStart(s, 0);
  }

  /** Text solid at both ends is all that is left of it indented. */
  lemma StripIndented(indent: string, s: string)
    requires AllSpace(indent) && s != "" && !IsSpace(s[0]) && !IsSpace(s[|s| - 1])
    ensures Strip(indent + s) == s
  {
    StripLeftOfIndented(indent, s);
  }

  // ----- Lines -----

  function FirstBreak(s: string): (i: nat)
    ensures i <= |s| && BreakFree(s[..i])
    ensures i < |s| ==> IsBreak(s[i])
  {
    if s == "" || IsBreak(s[0]) then 0
    else
      var i := 1 + FirstBreak(s[1..]);
      assert forall k :: 1 <= k < i ==> s[..i][k] == s[1..][..i - 1][k - 1];
      i
  }

  /** `\r\n` is one line end. */
  function BreakLength(s: string, i: nat): nat
    requires i < |s|
  {
    if s[i] == '\r' && i + 1 < |s| && s[i + 1] == '\n' then 2 else 1
  }

  function SplitLines(s: string): (ls: seq<string>)
    ensures LinesBreakFree(ls)
    decreases |s|
  {
    var i := FirstBreak(s);
    if s == "" then []
    else if i == |s| then
      assert s[..i] == s;
      [s]
    else [s[..i]] + SplitLines(s[i + BreakLength(s, i)..])
  }

  function Join(ls: seq<string>): string {
    if ls == [] then "" else if |ls| == 1 then ls[0] else ls[0] + "\n" + Join(ls[1..])
  }

  lemma {:induction false} FirstBreakAfter(line: string, rest: string)
    requires BreakFree(line) && rest != "" && IsBreak(rest[0])
    ensures FirstBreak(line + rest) == |line|
  {
    if line == "" {
      assert line + rest == rest;
    } else {
      assert (line + rest)[1..] == line[1..] + rest;
      FirstBreakAfter(line[1..], rest);
    }
  }

  lemma SplitFirst(line: string, rest: string)
    requires BreakFree(line)
    ensures SplitLines(line + "\n" + rest) == [line] + SplitLines(rest)
  {
    var s := line + "\n" + rest;
    assert s == line + ("\n" + rest);
    FirstBreakAfter(line, "\n" + rest);
    assert s[..|line|] == line && s[|line| + 1..] == rest;
  }

  /** A carriage return and a newline end one line together. */
  lemma SplitFirstCrLf(line: string, rest: string)
    requires BreakFree(line)
    ensures SplitLines(line + "\r\n" + rest) == [line] + SplitLines(rest)
  {
    var s := line + "\r\n" + rest;
    assert s == line + ("\r\n" + rest);
    FirstBreakAfter(line, "\r\n" + rest);
    assert s[..|line|] == line && s[|line|] == '\r' && s[|line| + 1] == '\n' && s[|line| + 2..] == rest;
  }

  /** Lines written one per line come back as the same lines. */
  lemma {:induction false} SplitOfJoin(ls: seq<string>, tail: string)
    requires ls != [] && LinesBreakFree(ls)
    ensures SplitLines(Join(ls) + "\n" + tail) == ls + SplitLines(tail)
  {
    if |ls| == 1 {
      SplitFirst(ls[0], tail);
      assert ls == [ls[0]];
    } else {
      var rest, text := Join(ls[1..]) + "\n" + tail, Join(ls) + "\n" + tail;
      SplitOfJoin(ls[1..], tail);
      calc {
        SplitLines(text);
        { JoinStep(ls, tail); }
        SplitLines(ls[0] + "\n" + rest);
        { SplitFirst(ls[0], rest); }
        [ls[0]] + SplitLines(rest);
        [ls[0]] + (ls[1..] + SplitLines(tail));
        { Reassemble(ls, SplitLines(tail)); }
        ls + SplitLines(tail);
      }
    }
  }

  lemma Reassemble(ls: seq<string>, more: seq<string>)
    requires ls != []
    ensures [ls[0]] + (ls[1..] + more) == ls + more
  {
  }

  lemma JoinStep(ls: seq<string>, tail: string)
    requires |ls| > 1
    ensures Join(ls) + "\n" + tail == ls[0] + "\n" + (Join(ls[1..]) + "\n" + tail)
  {
  }

  lemma {:induction false} JoinConcat(a: seq<string>, b: seq<string>)
    requires a != [] && b != []
    ensures Join(a + b) == Join(a) + "\n" + Join(b)
  {
    if |a| == 1 {
      assert (a + b)[1..] == b;
    } else {
      assert (a + b)[1..] == a[1..] + b;
      JoinConcat(a[1..], b);
    }
  }
}
