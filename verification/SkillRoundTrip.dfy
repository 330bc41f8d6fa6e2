/** What Pi reads out of a rendered skill: the name and the description that were put in. */
module SkillRoundTrip {
  import opened AgentKit
  import opened JsonStrings
  import opened Options
  import opened Text
  import Slugs

  /** The line ends a JSON string is written with as they are: the others are control characters and escaped. */
  predicate IsWide(c: char) {
    var n := c as int;
    n == 0x85 || n == 0x2028 || n == 0x2029
  }

  predicate WideFree(s: string) { forall i :: 0 <= i < |s| ==> !IsWide(s[i]) }

  // ----- Escaped text and line ends -----

  lemma EscapedCharBreaks(c: char)
    ensures BreakFree(EscapeChar(c)) <==> !IsWide(c)
    ensures IsWide(c) ==> EscapeChar(c) == [c]
  {
    var e := EscapeChar(c);
    if e == [c] {
      assert IsBreak(e[0]) <==> IsWide(c);
    }
  }

  lemma {:induction false} WideFreeEscapes(s: string)
    requires WideFree(s)
    ensures BreakFree(Escape(s))
  {
    if s != "" {
      EscapedCharBreaks(s[0]);
      WideFreeEscapes(s[1..]);
      BreakFreeConcat(EscapeChar(s[0]), Escape(s[1..]));
    }
  }

  lemma {:induction false} EscapeConcat(a: string, b: string)
    ensures Escape(a + b) == Escape(a) + Escape(b)
  {
    if a == "" {
      assert a + b == b;
    } else {
      assert (a + b)[1..] == a[1..] + b;
      EscapeConcat(a[1..], b);
    }
  }

  lemma EscapeOfOne(c: char)
    ensures Escape([c]) == EscapeChar(c)
  {
    assert [c][1..] == "";
  }

  function FirstWide(s: string): (i: nat)
    ensures i <= |s| && WideFree(s[..i])
    ensures i < |s| ==> IsWide(s[i])
    ensures i == |s| ==> WideFree(s)
  {
    if s == "" || IsWide(s[0]) then 0
    else
      var i := 1 + FirstWide(s[1..]);
      assert forall k :: 1 <= k < i ==> s[k] == s[1..][..i - 1][k - 1];
      i
  }

  lemma EscapeParts(a: string, c: char, b: string)
    requires IsWide(c)
    ensures Escape(a + [c] + b) == Escape(a) + [c] + Escape(b)
  {
    calc {
      Escape(a + [c] + b);
      { EscapeConcat(a + [c], b); }
      Escape(a + [c]) + Escape(b);
      { EscapeConcat(a, [c]); }
      Escape(a) + Escape([c]) + Escape(b);
      { EscapeOfOne(c); EscapedCharBreaks(c); }
      Escape(a) + [c] + Escape(b);
    }
  }

  /** The first wide line end of a text, and what stands before and behind it. */
  lemma AtFirstWide(s: string) returns (a: string, c: char, b: string)
    requires !WideFree(s)
    ensures s == a + [c] + b && WideFree(a) && IsWide(c) && |b| < |s|
  {
    var i := FirstWide(s);
    a, c, b := s[..i], s[i], s[i + 1..];
  }

  // ----- The round trip -----

  lemma ColonBehindKey(key: string, value: string)
    requires Slugs.AllKept(key)
    ensures var line := key + ": " + value;
      FirstColon(line) == |key| < |line| && line[..|key|] == key && line[|key| + 1..] == " " + value
  {
    var line := key + ": " + value;
    assert line[|key|] == ':';
    assert line[..|key|] == key;
    assert line[|key| + 1..] == " " + value;
  }

  /** A line `key: value` sets that key and is no fence. */
  lemma KeyLine(fields: map<string, string>, key: string, value: string)
    requires key != "" && Slugs.AllKept(key)
    ensures WithLine(fields, key + ": " + value) == fields[key := Unquote(Strip(" " + value))]
    ensures Strip(key + ": " + value) != "---"
  {
    ColonBehindKey(key, value);
    SolidStrip(key, key + ": " + value);
  }

  lemma SolidStrip(key: string, line: string)
    requires key != "" && Slugs.AllKept(key) && line != "" && line[0] == key[0]
    ensures Strip(key) == key && Strip(line) != "---"
  {
    assert "" + key == key && "" + line == line;
    StripIndented("", key);
    StripStartsWith("", line);
  }

  lemma KeyLineBreakFree(key: string, value: string)
    requires Slugs.AllKept(key) && BreakFree(value)
    ensures BreakFree(key + ": " + value)
  {
    BreakFreeConcat(key, ": ");
    BreakFreeConcat(key + ": ", value);
  }

  /** A name is its own unquoted, stripped self. */
  lemma PlainStrip(name: string)
    requires Slugs.Qualifies(name, 64)
    ensures Unquote(Strip(" " + name)) == name && BreakFree(name)
  {
    if name == "" {
      assert (" " + name)[1..] == "";
      assert StripLeft(" ") == StripLeft("") == "";
    } else {
      StripIndented(" ", name);
    }
  }

  lemma DumpedValue(d: string)
    ensures Unquote(Strip(" " + Dumps(d))) == d
  {
    StripIndented(" ", Dumps(d));
    LoadsDumps(d);
  }

  lemma KeysAreKept()
    ensures Slugs.AllKept(NAME) && Slugs.AllKept(DESCRIPTION)
  {
  }

  lemma FenceStrips()
    ensures Strip("---") == "---" && BreakFree("---")
  {
  }

  /** The lines of a head read one by one. */
  lemma HeadOfThree(name: string, shown: string, rest: seq<string>)
    requires Slugs.Qualifies(name, 64)
    ensures Head(map[], [NAME + ": " + name, DESCRIPTION + ": " + shown, "---"] + rest)
         == Some((map[NAME := name, DESCRIPTION := Unquote(Strip(" " + shown))], rest))
  {
    var one, two := NAME + ": " + name, DESCRIPTION + ": " + shown;
    KeysAreKept();
    FenceStrips();
    KeyLine(map[], NAME, name);
    PlainStrip(name);
    KeyLine(map[NAME := name], DESCRIPTION, shown);
    HeadThrough(map[], one, two, rest);
  }

  lemma HeadThrough(fields: map<string, string>, one: string, two: string, rest: seq<string>)
    requires Strip(one) != "---" && Strip(two) != "---"
    ensures Head(fields, [one, two, "---"] + rest) == Some((WithLine(WithLine(fields, one), two), rest))
  {
    FenceStrips();
    var lines, fenced := [one, two, "---"] + rest, ["---"] + rest;
    assert lines[1..] == [two] + fenced && ([two] + fenced)[1..] == fenced && fenced[1..] == rest;
    calc {
      Head(fields, lines);
      Head(WithLine(fields, one), [two] + fenced);
      Head(WithLine(WithLine(fields, one), two), fenced);
    }
  }

  lemma FrontmatterOf(text: string, lines: seq<string>)
    requires SplitLines(text) == ["---"] + lines
    ensures Frontmatter(text)
         == var head := Head(map[], lines);
            if head.None? then (map[], text) else (head.value.0, DropNewlines(Join(head.value.1)))
  {
    FenceStrips();
    assert (["---"] + lines)[1..] == lines;
  }

  lemma FourBreakFree(a: string, b: string, c: string, d: string)
    requires BreakFree(a) && BreakFree(b) && BreakFree(c) && BreakFree(d)
    ensures LinesBreakFree([a, b, c, d])
  {
  }

  lemma HeadLinesBreakFree(name: string, d: string)
    requires Slugs.Qualifies(name, 64) && WideFree(d)
    ensures LinesBreakFree(HeadLines(name, d))
    ensures HeadLines(name, d) == ["---", NAME + ": " + name, DESCRIPTION + ": " + Dumps(d), "---"]
  {
    WideFreeEscapes(d);
    BreakFreeConcat("\"" + Escape(d), "\"");
    PlainStrip(name);
    KeysAreKept();
    FenceStrips();
    KeyLineBreakFree(NAME, name);
    KeyLineBreakFree(DESCRIPTION, Dumps(d));
    FourBreakFree("---", NAME + ": " + name, DESCRIPTION + ": " + Dumps(d), "---");
  }

  lemma SplitHead(name: string, d: string, rest: string)
    requires Slugs.Qualifies(name, 64) && WideFree(d)
    ensures SplitLines(Join(HeadLines(name, d)) + "\n" + rest)
         == ["---"] + ([NAME + ": " + name, DESCRIPTION + ": " + Dumps(d), "---"] + SplitLines(rest))
  {
    HeadLinesBreakFree(name, d);
    SplitOfJoin(HeadLines(name, d), rest);
    SplitFour("---", NAME + ": " + name, DESCRIPTION + ": " + Dumps(d), "---", SplitLines(rest));
  }

  lemma SplitFour(a: string, b: string, c: string, d: string, rest: seq<string>)
    ensures [a, b, c, d] + rest == [a] + ([b, c, d] + rest)
  {
  }

  /** Reading back what was written, for every description without a wide line end and every text behind the head. */
  lemma {:induction false} SkillReadsBack(name: string, d: string, rest: string)
    requires Slugs.Qualifies(name, 64) && WideFree(d)
    ensures Frontmatter(Join(HeadLines(name, d)) + "\n" + rest)
         == (map[NAME := name, DESCRIPTION := d], DropNewlines(Join(SplitLines(rest))))
  {
    SplitHead(name, d, rest);
    HeadOfThree(name, Dumps(d), SplitLines(rest));
    DumpedValue(d);
    FrontmatterOf(Join(HeadLines(name, d)) + "\n" + rest,
                  [NAME + ": " + name, DESCRIPTION + ": " + Dumps(d), "---"] + SplitLines(rest));
  }

  // ----- And for no other description -----

  /** Whatever a line of this kind sets, its value has no line end in it. */
  ghost predicate Plain(line: string) {
    var k := FirstColon(line);
    k < |line| ==> BreakFree(Unquote(Strip(line[k + 1..])))
  }

  ghost predicate AllPlain(fields: map<string, string>) { forall k :: k in fields ==> BreakFree(fields[k]) }

  lemma UndoubledBreakFree(s: string)
    requires BreakFree(s)
    ensures BreakFree(Undoubled(s))
    decreases |s|
  {
    if |s| >= 2 && s[0] == s[1] == '\'' {
      UndoubledBreakFree(s[2..]);
      assert BreakFree("'");
      BreakFreeConcat("'", Undoubled(s[2..]));
    } else if s != "" {
      UndoubledBreakFree(s[1..]);
      BreakFreeConcat([s[0]], Undoubled(s[1..]));
    }
  }

  /** Only a JSON string can bring in a line end that its text does not have. */
  lemma UnquotedBreakFree(v: string)
    requires BreakFree(v)
    requires |v| >= 2 && v[0] == v[|v| - 1] == '"' ==> Loads(v) == None
    ensures BreakFree(Unquote(v))
  {
    if |v| >= 2 {
      UndoubledBreakFree(v[1..|v| - 1]);
    }
  }

  /** Where the stripped text sits in the text: behind nothing but blanks. */
  lemma StripIsInside(s: string) returns (i: nat, j: nat)
    ensures i <= j <= |s| && Strip(s) == s[i..j] && AllSpace(s[..i])
  {
    i := StripLeftAt(s);
    var t := StripLeft(s);
    j := i + |StripRight(t)|;
    assert StripRight(t) == t[..j - i];
  }

  lemma {:induction false} StripLeftAt(s: string) returns (i: nat)
    ensures i <= |s| && StripLeft(s) == s[i..] && AllSpace(s[..i])
  {
    if s != "" && IsSpace(s[0]) {
      var k := StripLeftAt(s[1..]);
      i := k + 1;
      assert forall n :: 1 <= n < i ==> s[n] == s[1..][..k][n - 1];
    } else {
      i := 0;
    }
  }

  lemma QuoteBehindBackslash(e: string, closing: string, p: nat)
    requires QuotesEscaped(e) && (closing == "" || closing == "\"") && 0 < p < |e + closing| - 1
    ensures (e + closing)[p] == '"' ==> (e + closing)[p - 1] == '\\'
  {
    assert (e + closing)[p] == e[p] && (e + closing)[p - 1] == e[p - 1];
  }

  /** A line of escaped text, with or without the closing quote behind it, holds no JSON string of its own. */
  lemma EscapedLineIsPlain(e: string, closing: string)
    requires BreakFree(e) && QuotesEscaped(e) && (closing == "" || closing == "\"")
    ensures Plain(e + closing)
  {
    var line := e + closing;
    var k := FirstColon(line);
    if k < |line| {
      var value := line[k + 1..];
      BreakFreeConcat(e, closing);
      var p := StrippedValueAt(line, k);
      if |Strip(value)| >= 2 {
        QuoteBehindBackslash(e, closing, p);
      }
      UnquotedBreakFree(Strip(value));
    }
  }

  /** The value of a line without line ends, stripped, has none, and begins behind the colon or a blank. */
  lemma StrippedValueAt(line: string, k: nat) returns (p: nat)
    requires k < |line| && line[k] == ':' && BreakFree(line)
    ensures var v := Strip(line[k + 1..]);
            && BreakFree(v) && 0 < p <= |line| - |v| && line[p - 1] != '\\'
            && (v != "" ==> v[0] == line[p])
  {
    var value := line[k + 1..];
    var i, j := StripIsInside(value);
    p := k + 1 + i;
    assert i > 0 ==> value[..i][i - 1] == line[p - 1];
  }

  lemma EscapeLast(front: string, c: char)
    ensures Escape(front + [c]) == Escape(front) + EscapeChar(c)
  {
    EscapeConcat(front, [c]);
    EscapeOfOne(c);
  }

  lemma EscapedCharEndsSolid(c: char)
    ensures EscapeChar(c) == [c] || !IsSpace(EscapeChar(c)[|EscapeChar(c)| - 1])
  {
  }

  /** Escaped text that ends in a blank ends in a character that stands for itself. */
  lemma BlankEnd(front: string, c: char)
    ensures Escape(front + [c]) != "" && var e := Escape(front + [c]); IsSpace(e[|e| - 1]) ==> e == Escape(front) + [c]
  {
    EscapeLast(front, c);
    EscapedCharEndsSolid(c);
    var e := EscapeChar(c);
    assert (Escape(front) + e)[|Escape(front) + e| - 1] == e[|e| - 1];
  }

  lemma StripOne(s: string, c: char)
    requires IsSpace((s + [c])[|s|])
    ensures StripRight(s + [c]) == StripRight(s)
  {
    assert (s + [c])[..|s + [c]| - 1] == s;
  }

  lemma StripBehind(quote: string, front: string, c: char)
    requires IsSpace(c)
    ensures StripRight(quote + (front + [c])) == StripRight(quote + front)
  {
    assert quote + (front + [c]) == quote + front + [c];
    StripOne(quote + front, c);
  }

  /** What is left of escaped text stripped on the right is escaped text. */
  lemma {:induction false} StrippedEscape(s: string) returns (t: string)
    ensures StripRight("\"" + Escape(s)) == "\"" + Escape(t)
    decreases |s|
  {
    t := s;
    if s != "" {
      var front, c := LastChar(s);
      BlankEnd(front, c);
      var e := Escape(s);
      if IsSpace(e[|e| - 1]) {
        t := StrippedEscape(front);
        StripBehind("\"", Escape(front), c);
      } else {
        SolidEnd("\"", e);
      }
    }
  }

  lemma LastChar(s: string) returns (front: string, c: char)
    requires s != ""
    ensures s == front + [c] && |front| < |s|
  {
    front, c := s[..|s| - 1], s[|s| - 1];
  }

  lemma SolidEnd(a: string, b: string)
    requires b != "" && !IsSpace(b[|b| - 1])
    ensures StripRight(a + b) == a + b
  {
  }

  /** The first line of a description broken in two: the quote is opened and not closed. */
  lemma OpenedValue(s: string)
    requires BreakFree(Escape(s))
    ensures BreakFree(Unquote(Strip(" " + ("\"" + Escape(s)))))
  {
    var shown := "\"" + Escape(s);
    StripLeftOfIndented(" ", shown);
    BreakFreeConcat("\"", Escape(s));
    var v := Strip(" " + shown);
    assert v == StripRight(shown) <= shown;
    var t := StrippedEscape(s);
    NotClosed(v, t);
    UnquotedBreakFree(v);
  }

  lemma NotClosed(v: string, t: string)
    requires v == "\"" + Escape(t)
    ensures |v| >= 2 && v[|v| - 1] == '"' ==> Loads(v) == None
  {
    assert v[1..] == Escape(t);
    NoClosingQuote(t);
  }

  lemma WithPlainLine(fields: map<string, string>, line: string)
    requires AllPlain(fields) && Plain(line)
    ensures AllPlain(WithLine(fields, line))
  {
  }

  /** From the second line of a broken description on, up to the fence. */
  lemma {:induction false} BrokenRest(fields: map<string, string>, s: string, rest: string)
    requires AllPlain(fields)
    ensures var head := Head(fields, SplitLines(Escape(s) + "\"" + "\n" + ("---" + "\n" + rest)));
      head.Some? ==> AllPlain(head.value.0)
    decreases |s|
  {
    var tail := "---" + "\n" + rest;
    if WideFree(s) {
      LastLine(fields, s, rest);
    } else {
      var a, c, b := AtFirstWide(s);
      var line := Escape(a);
      EscapeParts(a, c, b);
      var more := Escape(b) + "\"" + "\n" + tail;
      Regroup(line, c, Escape(b), "\"", "\n", tail);
      WideFreeEscapes(a);
      SplitAtWide(line, c, more);
      EscapeEscapesQuotes(a);
      EscapedLineIsPlain(line, "");
      assert line + "" == line;
      WithPlainLine(fields, line);
      BrokenRest(WithLine(fields, line), b, rest);
      HeadStep(fields, line, SplitLines(more));
    }
  }

  lemma Regroup(ea: string, c: char, eb: string, quote: string, end: string, tail: string)
    ensures (ea + [c] + eb) + quote + end + tail == ea + ([c] + (eb + quote + end + tail))
  {
  }

  lemma HeadStep(fields: map<string, string>, line: string, lines: seq<string>)
    ensures Head(fields, [line] + lines)
         == if Strip(line) == "---" then Some((fields, lines)) else Head(WithLine(fields, line), lines)
  {
    assert ([line] + lines)[1..] == lines;
  }

  lemma SplitAtWide(line: string, c: char, more: string)
    requires BreakFree(line) && IsWide(c)
    ensures SplitLines(line + ([c] + more)) == [line] + SplitLines(more)
  {
    var s := line + ([c] + more);
    FirstBreakAfter(line, [c] + more);
    assert s[|line|] == c && s[..|line|] == line && s[|line| + 1..] == more;
  }

  /** The last line of a broken description and the fence behind it. */
  lemma LastLine(fields: map<string, string>, s: string, rest: string)
    requires AllPlain(fields) && WideFree(s)
    ensures var head := Head(fields, SplitLines(Escape(s) + "\"" + "\n" + ("---" + "\n" + rest)));
      head.Some? && AllPlain(head.value.0)
  {
    var line := Escape(s) + "\"";
    WideFreeEscapes(s);
    BreakFreeConcat(Escape(s), "\"");
    SplitFirst(line, "---" + "\n" + rest);
    FenceStrips();
    SplitFirst("---", rest);
    EscapeEscapesQuotes(s);
    EscapedLineIsPlain(Escape(s), "\"");
    WithPlainLine(fields, line);
    HeadStep(fields, line, ["---"] + SplitLines(rest));
    HeadStep(WithLine(fields, line), "---", SplitLines(rest));
  }

  /** A description with a wide line end in it is broken over lines, and nothing read back contains one. */
  lemma BrokenDescription(name: string, d: string, rest: string)
    requires Slugs.Qualifies(name, 64) && !WideFree(d)
    ensures AllPlain(Frontmatter(Join(HeadLines(name, d)) + "\n" + rest).0)
  {
    var a, c, b := AtFirstWide(d);
    var text := Join(HeadLines(name, d)) + "\n" + rest;
    var one, two := NAME + ": " + name, DESCRIPTION + ": " + ("\"" + Escape(a));
    var more := Escape(b) + "\"" + "\n" + ("---" + "\n" + rest);
    BrokenText(name, d, a, c, b, rest);
    KeysAreKept();
    FenceStrips();
    PlainStrip(name);
    KeyLineBreakFree(NAME, name);
    WideFreeEscapes(a);
    BreakFreeConcat("\"", Escape(a));
    KeyLineBreakFree(DESCRIPTION, "\"" + Escape(a));
    SplitFirst("---", one + "\n" + (two + ([c] + more)));
    SplitFirst(one, two + ([c] + more));
    SplitAtWide(two, c, more);
    var lines := [one] + ([two] + SplitLines(more));
    FrontmatterOf(text, lines);
    KeyLine(map[], NAME, name);
    HeadStep(map[], one, [two] + SplitLines(more));
    KeyLine(map[NAME := name], DESCRIPTION, "\"" + Escape(a));
    HeadStep(map[NAME := name], two, SplitLines(more));
    OpenedValue(a);
    BrokenRest(WithLine(map[NAME := name], two), b, rest);
  }

  lemma BrokenText(name: string, d: string, a: string, c: char, b: string, rest: string)
    requires d == a + [c] + b && IsWide(c)
    ensures Join(HeadLines(name, d)) + "\n" + rest
         == "---" + "\n" + (NAME + ": " + name + "\n" + (DESCRIPTION + ": " + ("\"" + Escape(a))
            + ([c] + (Escape(b) + "\"" + "\n" + ("---" + "\n" + rest)))))
  {
    var one, key := NAME + ": " + name, DESCRIPTION + ": ";
    var shown, tail := key + Dumps(d), "---" + "\n" + rest;
    FourJoined("---", one, shown, "---", rest);
    EscapeParts(a, c, b);
    Broken(key, "\"", Escape(a), c, Escape(b), "\n", tail);
  }

  lemma Broken(key: string, quote: string, ea: string, c: char, eb: string, end: string, tail: string)
    ensures key + (quote + (ea + [c] + eb) + quote) + end + tail
         == key + (quote + ea) + ([c] + (eb + quote + end + tail))
  {
    Regroup(key + (quote + ea), c, eb, quote, end, tail);
    assert key + (quote + (ea + [c] + eb) + quote) == (key + (quote + ea) + [c] + eb) + quote;
  }

  lemma FourJoined(a: string, b: string, c: string, d: string, tail: string)
    ensures Join([a, b, c, d]) + "\n" + tail == a + "\n" + (b + "\n" + (c + "\n" + (d + "\n" + tail)))
  {
    JoinStep([a, b, c, d], tail);
    JoinStep([b, c, d], tail);
    JoinStep([c, d], tail);
    assert [a, b, c, d][1..] == [b, c, d] && [b, c, d][1..] == [c, d] && [c, d][1..] == [d];
  }

  /** The description Pi reads is the one written exactly when it has no wide line end in it. */
  lemma DescriptionReadsBackIff(name: string, d: string, rest: string)
    requires Slugs.Qualifies(name, 64)
    ensures var fields := Frontmatter(Join(HeadLines(name, d)) + "\n" + rest).0;
      DESCRIPTION in fields && fields[DESCRIPTION] == d <==> WideFree(d)
  {
    if WideFree(d) {
      SkillReadsBack(name, d, rest);
    } else {
      BrokenDescription(name, d, rest);
      WideIsBreak(d);
    }
  }

  lemma WideIsBreak(d: string)
    requires !WideFree(d)
    ensures !BreakFree(d)
  {
  }

  // ----- The whole renderer -----

  /** The file in full: the head with the name and the description, the notice with the id as given, and the entry's
      body without the blanks at its end. */
  lemma RenderedText(id: string, lowered: string, text: string)
    requires RenderSkill(id, lowered, text).Some?
    ensures var (fields, body) := Frontmatter(text);
      RenderSkill(id, lowered, text).value
      == "---" + "\n" + ("name" + ": " + Slugs.SkillName(lowered) + "\n"
         + ("description" + ": " + Dumps(SkillDescription(fields)) + "\n" + ("---" + "\n" + Behind(id, body))))
  {
    var (fields, body) := Frontmatter(text);
    FourJoined("---", NAME + ": " + Slugs.SkillName(lowered), DESCRIPTION + ": " + Dumps(SkillDescription(fields)),
               "---", Behind(id, body));
  }

  /** What stands behind the head of a skill. */
  function Behind(id: string, body: string): string {
    "<!-- Generated from " + "the ServiceBay assist " + "catalog: assists/" + id + ".md.\n"
    + "     Edit it in mdopp/" + "servicebay; this copy " + "is rewritten on every " + "pod start. -->\n\n"
    + StripRight(body) + "\n"
  }

  /** Every skill that is rendered has a valid name and a description of 300 characters at most, and reads back. */
  lemma RenderedSkillReadsBack(id: string, lowered: string, text: string)
    ensures var d := SkillDescription(Frontmatter(text).0);
      var skill := RenderSkill(id, lowered, text);
      && (skill.Some? <==> d != "")
      && |d| <= 300 && Slugs.Qualifies(Slugs.SkillName(lowered), 64)
      && (skill.Some? && WideFree(d)
          ==> Frontmatter(skill.value) == (map["name" := Slugs.SkillName(lowered), "description" := d],
                                           DropNewlines(Join(SplitLines(Behind(id, Frontmatter(text).1))))))
      && (skill.Some? && !WideFree(d)
          ==> Frontmatter(skill.value).0 != map["name" := Slugs.SkillName(lowered), "description" := d])
  {
    var (fields, body) := Frontmatter(text);
    var d := SkillDescription(fields);
    var name := Slugs.SkillName(lowered);
    Slugs.SkillNameQualifies(lowered);
    var rest := Notice(id) + StripRight(body) + "\n";
    DescriptionReadsBackIff(name, d, rest);
    if WideFree(d) {
      SkillReadsBack(name, d, rest);
    }
  }
}
