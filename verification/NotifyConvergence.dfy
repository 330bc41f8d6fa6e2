/**
 What the notify patch is for: deploys converge, nothing outside the managed block is lost, there is
 never a second `notify:` key, and a merged entry lands inside the operator's own section.
 */
module NotifyConvergence {
  import opened Options
  import opened Text
  import opened NotifyPatch

  // ----- The indent taken over from the list -----

  lemma {:induction false} SkipBlanksDropsBlanks(s: string)
    ensures |SkipBlanks(s)| <= |s|
    ensures forall i :: 0 <= i < |s| - |SkipBlanks(s)| ==> IsBlank(s[i])
    ensures s[|s| - |SkipBlanks(s)|..] == SkipBlanks(s)
  {
    if s != "" && IsBlank(s[0]) {
      SkipBlanksDropsBlanks(s[1..]);
      assert forall i :: 1 <= i < |s| - |SkipBlanks(s)| ==> s[i] == s[1..][i - 1];
    }
  }

  /** A line with an item indent starts with that many blanks and is not an empty line. */
  lemma ItemIndentIsBlank(line: string)
    requires ItemIndent(line).Some?
    ensures var indent := ItemIndent(line).value;
            indent != "" && AllSpace(indent) && BreakFree(indent) && Strip(line) != ""
  {
    SkipBlanksDropsBlanks(line);
    var indent, rest := ItemIndent(line).value, SkipBlanks(line);
    assert line == indent + rest;
    StripStartsWith(indent, rest);
  }

  lemma {:induction false} LastIndentIsBlank(section: seq<string>)
    requires LastIndent(section).Some?
    ensures var indent := LastIndent(section).value;
            indent != "" && AllSpace(indent) && BreakFree(indent)
    ensures SolidLength(section) > 0
  {
    var last := section[|section| - 1];
    if ItemIndent(last).Some? {
      ItemIndentIsBlank(last);
    } else {
      LastIndentIsBlank(section[..|section| - 1]);
    }
  }

  /** The spot is behind a line of the section's own that is not blank, and the indent is real. */
  lemma InsertAtIsInside(lines: seq<string>, key: nat)
    requires key < |lines| && IsNotifyKey(lines[key]) && InsertAt(lines, key).Some?
    ensures var (at, indent) := InsertAt(lines, key).value;
            && indent != "" && AllSpace(indent) && BreakFree(indent)
            && key + 1 < at <= SectionEnd(lines, key + 1)
            && Strip(lines[at - 1]) != ""
  {
    LastIndentIsBlank(lines[key + 1..SectionEnd(lines, key + 1)]);
  }

  // ----- Merging -----

  function MergedLines(stripped: seq<string>, at: nat, port: string, indent: string): seq<string>
    requires at <= |stripped|
  {
    stripped[..at] + MergedBlock(port, indent) + stripped[at..]
  }

  lemma MergedLinesStripBack(stripped: seq<string>, at: nat, port: string, indent: string)
    requires at <= |stripped| && NoBegin(stripped) && AllSpace(indent)
    ensures Outside(MergedLines(stripped, at, port, indent), false) == Some(stripped)
  {
    var before, after := stripped[..at], stripped[at..];
    var block := MergedBlock(port, indent);
    calc {
      Outside(MergedLines(stripped, at, port, indent), false);
      { assert MergedLines(stripped, at, port, indent) == before + (block + after); }
      Outside(before + (block + after), false);
      { OutsideOfPlain(before, block + after); }
      Prepend(before, Outside(block + after, false));
      { MergedBlockIsStripped(port, indent, after); }
      Prepend(before, Outside(after, false));
      { OutsideOfAllPlain(after); }
      Some(before + after);
      { assert before + after == stripped; }
      Some(stripped);
    }
  }

  lemma OutsideOfAllPlain(lines: seq<string>)
    requires NoBegin(lines)
    ensures Outside(lines, false) == Some(lines)
  {
    OutsideOfPlain(lines, []);
    assert lines + [] == lines;
  }

  lemma MergedTextRereads(stripped: seq<string>, at: nat, port: string, indent: string)
    requires at <= |stripped| && LinesBreakFree(stripped) && BreakFree(port) && BreakFree(indent)
    ensures SplitLines(Join(MergedLines(stripped, at, port, indent)) + "\n") == MergedLines(stripped, at, port, indent)
  {
    var out := MergedLines(stripped, at, port, indent);
    BlockLinesBreakFree(port, indent);
    assert LinesBreakFree(out);
    SplitOfJoin(out, "");
    assert Join(out) + "\n" + "" == Join(out) + "\n" && out + [] == out;
  }

  // ----- Appending -----

  /** The lines without trailing empty ones. */
  function TrimEmpty(ls: seq<string>): (r: seq<string>)
    ensures r <= ls
    ensures r != [] ==> r[|r| - 1] != ""
  {
    if ls != [] && ls[|ls| - 1] == "" then TrimEmpty(ls[..|ls| - 1]) else ls
  }

  lemma {:induction false} StripNewlinesOfJoin(ls: seq<string>)
    requires LinesBreakFree(ls)
    ensures StripNewlines(Join(ls)) == Join(TrimEmpty(ls))
    ensures Join(TrimEmpty(ls)) == "" <==> TrimEmpty(ls) == []
  {
    if ls != [] {
      var n := |ls| - 1;
      var front, last := ls[..n], ls[n];
      assert ls == front + [last];
      if n > 0 {
        JoinConcat(front, [last]);
      }
      if last == "" {
        if n > 0 {
          assert Join(ls) == Join(front) + "\n";
          assert Join(ls)[..|Join(ls)| - 1] == Join(front);
          StripNewlinesOfJoin(front);
        }
      } else {
        assert Join(ls)[|Join(ls)| - 1] == last[|last| - 1];
      }
    }
  }

  /** What is left outside the block once it stands at the end. */
  function AppendedRest(stripped: seq<string>): seq<string> {
    var kept := TrimEmpty(stripped);
    if kept == [] then [] else kept + [""]
  }

  function AppendedLines(stripped: seq<string>, port: string): seq<string> {
    AppendedRest(stripped) + StandaloneBlock(port)
  }

  lemma JoinAppended(kept: seq<string>, block: seq<string>)
    requires kept != [] && block != []
    ensures Join(kept + [""] + block) == Join(kept) + "\n\n" + Join(block)
  {
    calc {
      Join(kept + [""] + block);
      { assert kept + [""] + block == kept + ([""] + block); }
      Join(kept + ([""] + block));
      { JoinConcat(kept, [""] + block); }
      Join(kept) + "\n" + Join([""] + block);
      { assert ([""] + block)[1..] == block; }
      Join(kept) + "\n" + ("" + "\n" + Join(block));
      Join(kept) + "\n\n" + Join(block);
    }
  }

  lemma AppendedText(src: string, stripped: seq<string>, port: string)
    requires TopIndex(stripped).None? && LinesBreakFree(stripped)
    ensures PatchedLines(src, stripped, port) == (Join(AppendedLines(stripped, port)) + "\n", Appended)
  {
    StripNewlinesOfJoin(stripped);
    var kept, block := TrimEmpty(stripped), StandaloneBlock(port);
    if kept == [] {
      assert AppendedLines(stripped, port) == block && "" + Join(block) == Join(block);
    } else {
      JoinAppended(kept, block);
    }
  }

  lemma AppendedTextRereads(stripped: seq<string>, port: string)
    requires LinesBreakFree(stripped) && BreakFree(port)
    ensures SplitLines(Join(AppendedLines(stripped, port)) + "\n") == AppendedLines(stripped, port)
  {
    var out := AppendedLines(stripped, port);
    BlockLinesBreakFree(port, "");
    assert LinesBreakFree(out);
    SplitOfJoin(out, "");
    assert Join(out) + "\n" + "" == Join(out) + "\n" && out + [] == out;
  }

  lemma EmptyLineIsPlain()
    ensures !IsBegin("") && !IsNotifyKey("")
  {
    assert MARK_BEGIN[0] == '#';
  }

  lemma AppendedLinesStripBack(stripped: seq<string>, port: string)
    requires NoBegin(stripped)
    ensures NoBegin(AppendedRest(stripped))
    ensures Outside(AppendedLines(stripped, port), false) == Some(AppendedRest(stripped))
  {
    EmptyLineIsPlain();
    OutsideOfPlain(AppendedRest(stripped), StandaloneBlock(port));
    StandaloneBlockIsStripped(port);
    assert AppendedRest(stripped) + [] == AppendedRest(stripped);
  }

  lemma AppendedRestIsStable(stripped: seq<string>)
    requires TopIndex(stripped).None?
    ensures TopIndex(AppendedRest(stripped)).None? && AppendedRest(AppendedRest(stripped)) == AppendedRest(stripped)
    ensures TrimEmpty(AppendedRest(stripped)) == TrimEmpty(stripped)
  {
    EmptyLineIsPlain();
    var kept := TrimEmpty(stripped);
    if kept != [] {
      assert (kept + [""])[..|kept|] == kept;
      assert TrimEmpty(kept + [""]) == TrimEmpty(kept) == kept;
    }
  }

  // ----- The theorems -----

  /** Every line outside managed blocks is kept, in order; appending may change trailing empty lines only.
      A file the patch refuses stays byte for byte. */
  lemma {:induction false} OutsideLinesSurvive(src: string, port: string)
    requires BreakFree(port)
    ensures var outside := Outside(SplitLines(src), false);
            var (text, outcome) := Patched(src, port);
            && (outcome == UnterminatedMarker || outcome == ForeignNotify ==> text == src)
            && (outcome == UnterminatedMarker <==> outside == None)
            && (outcome == Merged ==> Outside(SplitLines(text), false) == outside)
            && (outcome == Appended ==>
                  && Outside(SplitLines(text), false) == Some(AppendedRest(outside.value))
                  && TrimEmpty(AppendedRest(outside.value)) == TrimEmpty(outside.value))
  {
    if Outside(SplitLines(src), false).None? {
      return;
    }
    var stripped := Outside(SplitLines(src), false).value;
    OutsideHasNoBegin(SplitLines(src), false);
    if TopIndex(stripped).None? {
      AppendedRestIsStable(stripped);
      AppendedReads(src, stripped, port);
    } else if InsertAt(stripped, TopIndex(stripped).value).Some? {
      MergedReads(src, stripped, port);
    }
  }

  lemma AppendedReads(src: string, stripped: seq<string>, port: string)
    requires BreakFree(port) && NoBegin(stripped) && LinesBreakFree(stripped) && TopIndex(stripped).None?
    ensures var (text, outcome) := PatchedLines(src, stripped, port);
            && outcome == Appended
            && SplitLines(text) == AppendedLines(stripped, port)
            && Outside(SplitLines(text), false) == Some(AppendedRest(stripped))
  {
    AppendedText(src, stripped, port);
    AppendedTextRereads(stripped, port);
    AppendedLinesStripBack(stripped, port);
  }

  lemma MergedReads(src: string, stripped: seq<string>, port: string)
    requires BreakFree(port) && NoBegin(stripped) && LinesBreakFree(stripped) && TopIndex(stripped).Some?
    requires InsertAt(stripped, TopIndex(stripped).value).Some?
    ensures var (text, outcome) := PatchedLines(src, stripped, port);
            var (at, indent) := InsertAt(stripped, TopIndex(stripped).value).value;
            && outcome == Merged
            && SplitLines(text) == MergedLines(stripped, at, port, indent)
            && Outside(SplitLines(text), false) == Some(stripped)
  {
    var key := TopIndex(stripped).value;
    var (at, indent) := InsertAt(stripped, key).value;
    InsertAtIsInside(stripped, key);
    MergedTextRereads(stripped, at, port, indent);
    MergedLinesStripBack(stripped, at, port, indent);
  }

  /** Convergence: whatever the file, patching for one port and then another is patching once for the other. */
  lemma PatchConverges(src: string, port1: string, port2: string)
    requires BreakFree(port1)
    ensures Patched(Patched(src, port1).0, port2) == Patched(src, port2)
  {
    if Outside(SplitLines(src), false).Some? {
      var stripped := Outside(SplitLines(src), false).value;
      OutsideLinesSurvive(src, port1);
      OutsideHasNoBegin(SplitLines(src), false);
      if TopIndex(stripped).None? {
        var text := Patched(src, port1).0;
        AppendedText(src, stripped, port1);
        AppendedText(src, stripped, port2);
        AppendedRestIsStable(stripped);
        OutsideHasNoBegin(SplitLines(text), false);
        AppendedText(text, AppendedRest(stripped), port2);
      }
    }
  }

  // ----- One key -----

  function CountKeys(lines: seq<string>): nat {
    if lines == [] then 0 else (if IsNotifyKey(lines[0]) then 1 else 0) + CountKeys(lines[1..])
  }

  lemma {:induction false} CountKeysConcat(a: seq<string>, b: seq<string>)
    ensures CountKeys(a + b) == CountKeys(a) + CountKeys(b)
  {
    if a == [] {
      assert a + b == b;
    } else {
      assert (a + b)[1..] == a[1..] + b;
      CountKeysConcat(a[1..], b);
    }
  }

  lemma {:induction false} NoKeysNoCount(lines: seq<string>)
    requires forall i :: 0 <= i < |lines| ==> !IsNotifyKey(lines[i])
    ensures CountKeys(lines) == 0
  {
    if lines != [] {
      NoKeysNoCount(lines[1..]);
    }
  }

  lemma KeysStartWithN(line: string)
    requires IsNotifyKey(line)
    ensures line != "" && line[0] == 'n'
  {
    assert NOTIFY[0] == 'n' && line[..6] == NOTIFY;
  }

  /** Every line of a merged block is indented, so it is part of the section and no key. */
  lemma MergedBlockIsIndented(port: string, indent: string)
    requires indent != "" && AllSpace(indent)
    ensures forall i :: 0 <= i < 12 ==>
              InSection(MergedBlock(port, indent)[i]) && !IsNotifyKey(MergedBlock(port, indent)[i])
  {
    forall i | 0 <= i < 12
      ensures InSection(MergedBlock(port, indent)[i]) && !IsNotifyKey(MergedBlock(port, indent)[i])
    {
      var line := MergedBlock(port, indent)[i];
      assert line[0] == indent[0];
      if IsNotifyKey(line) {
        KeysStartWithN(line);
      }
    }
  }

  lemma StandaloneBlockHasOneKey(port: string)
    ensures CountKeys(StandaloneBlock(port)) == 1
  {
    var items := Indented(MARGIN, Item(port));
    assert MARK_BEGIN[0] == '#' && MARK_END[0] == '#' && MARGIN[0] == ' ';
    forall i | 0 <= i < |items| ensures !IsNotifyKey(items[i]) {
      if IsNotifyKey(items[i]) {
        KeysStartWithN(items[i]);
      }
    }
    NoKeysNoCount(items);
    NotifyKeyIsOne();
    MarksAreNoKeys();
    CountKeysConcat([NOTIFY_KEY], items);
    CountKeysConcat([MARK_BEGIN], StandaloneInner(port));
    CountKeysConcat([MARK_BEGIN] + StandaloneInner(port), [MARK_END]);
  }

  lemma NotifyKeyIsOne()
    ensures IsNotifyKey(NOTIFY_KEY)
  {
    assert NOTIFY_KEY[..6] == NOTIFY && NOTIFY_KEY[6..] == ":";
  }

  lemma MarksAreNoKeys()
    ensures !IsNotifyKey(MARK_BEGIN) && !IsNotifyKey(MARK_END)
  {
    assert MARK_BEGIN[0] == '#' && MARK_END[0] == '#' && NOTIFY[0] == 'n';
  }

  /** A file never gains a second `notify:` key: appending makes the only one, merging adds none. */
  lemma {:induction false} NeverASecondKey(src: string, port: string)
    requires BreakFree(port)
    ensures var (text, outcome) := Patched(src, port);
            && (outcome == Appended ==> CountKeys(SplitLines(text)) == 1)
            && (outcome == Merged ==>
                  CountKeys(SplitLines(text)) == CountKeys(Outside(SplitLines(src), false).value) >= 1)
  {
    if Outside(SplitLines(src), false).Some? {
      var stripped := Outside(SplitLines(src), false).value;
      OutsideHasNoBegin(SplitLines(src), false);
      if TopIndex(stripped).None? {
        AppendedReads(src, stripped, port);
        AppendedRestIsStable(stripped);
        NoKeysNoCount(AppendedRest(stripped));
        StandaloneBlockHasOneKey(port);
        CountKeysConcat(AppendedRest(stripped), StandaloneBlock(port));
      } else if InsertAt(stripped, TopIndex(stripped).value).Some? {
        var (at, indent) := InsertAt(stripped, TopIndex(stripped).value).value;
        MergedReads(src, stripped, port);
        InsertAtIsInside(stripped, TopIndex(stripped).value);
        MergedBlockIsIndented(port, indent);
        NoKeysNoCount(MergedBlock(port, indent));
        SplicedKeys(stripped, at, MergedBlock(port, indent));
        CountKeysHas(stripped, TopIndex(stripped).value);
      }
    }
  }

  lemma {:induction false} CountKeysHas(lines: seq<string>, k: nat)
    requires k < |lines| && IsNotifyKey(lines[k])
    ensures CountKeys(lines) >= 1
  {
    if k > 0 {
      CountKeysHas(lines[1..], k - 1);
    }
  }

  lemma SplicedKeys(lines: seq<string>, at: nat, block: seq<string>)
    requires at <= |lines| && CountKeys(block) == 0
    ensures CountKeys(lines[..at] + block + lines[at..]) == CountKeys(lines)
  {
    CountKeysConcat(lines[..at], block);
    CountKeysConcat(lines[..at] + block, lines[at..]);
    CountKeysConcat(lines[..at], lines[at..]);
    assert lines[..at] + lines[at..] == lines;
  }

  // ----- Inside the operator's section -----

  lemma {:induction false} SectionEndIs(lines: seq<string>, from: nat, end: nat)
    requires from <= end <= |lines|
    requires forall i :: from <= i < end ==> InSection(lines[i])
    requires end < |lines| ==> !InSection(lines[end])
    ensures SectionEnd(lines, from) == end
    decreases end - from
  {
    if from < end {
      SectionEndIs(lines, from + 1, end);
    }
  }

  lemma {:induction false} TopIndexIs(lines: seq<string>, k: nat)
    requires k < |lines| && IsNotifyKey(lines[k]) && forall i :: 0 <= i < k ==> !IsNotifyKey(lines[i])
    ensures TopIndex(lines) == Some(k)
  {
  }

  /** `lines` is `stripped` with the block under the same key, inside its section, behind a line of content. */
  ghost predicate PlacedInside(stripped: seq<string>, lines: seq<string>, key: nat, at: nat, block: seq<string>) {
    && TopIndex(stripped) == Some(key)
    && key + 1 < at <= SectionEnd(stripped, key + 1)
    && Strip(stripped[at - 1]) != ""
    && lines == stripped[..at] + block + stripped[at..]
    && TopIndex(lines) == Some(key)
    && SectionEnd(lines, key + 1) == SectionEnd(stripped, key + 1) + |block|
  }

  lemma MergedIsPlacedInside(stripped: seq<string>, key: nat, port: string)
    requires TopIndex(stripped) == Some(key) && InsertAt(stripped, key).Some?
    ensures var (at, indent) := InsertAt(stripped, key).value;
            PlacedInside(stripped, MergedLines(stripped, at, port, indent), key, at, MergedBlock(port, indent))
  {
    var (at, indent) := InsertAt(stripped, key).value;
    InsertAtIsInside(stripped, key);
    MergedBlockIsIndented(port, indent);
    SplicedSection(stripped, key, at, MergedBlock(port, indent));
  }

  /** Where a merged entry goes. */
  lemma {:induction false} EntryIsInsideTheSection(src: string, port: string)
    returns (key: nat, at: nat, indent: string)
    requires BreakFree(port) && Patched(src, port).1 == Merged
    ensures PlacedInside(Outside(SplitLines(src), false).value, SplitLines(Patched(src, port).0),
                         key, at, MergedBlock(port, indent))
  {
    var stripped := Outside(SplitLines(src), false).value;
    OutsideHasNoBegin(SplitLines(src), false);
    key := TopIndex(stripped).value;
    var spot := InsertAt(stripped, key).value;
    at, indent := spot.0, spot.1;
    MergedIsPlacedInside(stripped, key, port);
    MergedReads(src, stripped, port);
  }

  lemma SplicedSection(stripped: seq<string>, key: nat, at: nat, block: seq<string>)
    requires TopIndex(stripped) == Some(key) && key + 1 < at <= SectionEnd(stripped, key + 1)
    requires forall i :: 0 <= i < |block| ==> InSection(block[i])
    ensures var lines := stripped[..at] + block + stripped[at..];
            TopIndex(lines) == Some(key) && SectionEnd(lines, key + 1) == SectionEnd(stripped, key + 1) + |block|
  {
    var lines := stripped[..at] + block + stripped[at..];
    forall i | 0 <= i <= key
      ensures lines[i] == stripped[i]
    {
      SplicedLine(stripped, at, block, i);
    }
    TopIndexIs(lines, key);
    SplicedEnd(stripped, key + 1, at, block, SectionEnd(stripped, key + 1));
  }

  lemma SplicedEnd(stripped: seq<string>, from: nat, at: nat, block: seq<string>, end: nat)
    requires from <= at <= end <= |stripped|
    requires forall i :: from <= i < end ==> InSection(stripped[i])
    requires end < |stripped| ==> !InSection(stripped[end])
    requires forall i :: 0 <= i < |block| ==> InSection(block[i])
    ensures SectionEnd(stripped[..at] + block + stripped[at..], from) == end + |block|
  {
    var lines := stripped[..at] + block + stripped[at..];
    forall i | from <= i < end + |block|
      ensures InSection(lines[i])
    {
      SplicedLine(stripped, at, block, i);
    }
    if end < |stripped| {
      SplicedLine(stripped, at, block, end + |block|);
    }
    SectionEndIs(lines, from, end + |block|);
  }

  lemma SplicedLine(stripped: seq<string>, at: nat, block: seq<string>, i: nat)
    requires at <= |stripped| && i < |stripped| + |block|
    ensures (stripped[..at] + block + stripped[at..])[i]
         == if i < at then stripped[i] else if i < at + |block| then block[i - at] else stripped[i - |block|]
  {
  }
}
