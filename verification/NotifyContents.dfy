/** What the managed block says, spelled out, and what the outcomes of a patch say about the file it met. */
module NotifyContents {
  import opened Options
  import opened Text
  import opened NotifyPatch
  import opened NotifyConvergence

  // ----- The text of the block -----

  const BEGIN_TEXT := "# >>> solaris notify." + ("solaris — managed by " + "the post-deploy >>>")
  const END_TEXT := "# <<< solaris " + "notify.solaris <<<"

  function ResourceLine(port: string): string { "resource: \"http://127.0.0.1:" + (port + "/api/ha/notify\"") }

  /** A template of the message's data, under the same name, with a default. */
  function TemplateText(key: string, default: string): string {
    key + (": \"{{ (data or {}).get('" + (key + (default + "') }}\"")))
  }

  /** The ten lines of the entry, each at its depth. */
  function EntryText(port: string, indent: string): (lines: seq<string>)
    ensures |lines| == 10
  {
    [indent + "- name: solaris",
     indent + ("  " + "platform: rest"),
     indent + ("  " + ResourceLine(port)),
     indent + ("  " + "method: POST_JSON"),
     indent + ("  " + "message_param_name: body"),
     indent + ("  " + "title_param_name: title"),
     indent + ("  " + "target_param_name: target"),
     indent + ("  " + "data_template:"),
     indent + ("  " + ("  " + TemplateText("category", "', 'house"))),
     indent + ("  " + ("  " + TemplateText("urgency", "', 'normal")))]
  }

  lemma EntryIsText(port: string, indent: string)
    ensures Indented(indent, Item(port)) == EntryText(port, indent)
  {
  }

  /** Where the block stands in a text: its marks, the entry between them, and the entry's indent. */
  ghost predicate BlockAt(lines: seq<string>, at: nat, port: string, mark: string, key: seq<string>, indent: string) {
    && at + 12 + |key| <= |lines|
    && lines[at] == mark + BEGIN_TEXT
    && lines[at + 1..at + 1 + |key|] == key
    && lines[at + 1 + |key|..at + 11 + |key|] == EntryText(port, indent)
    && lines[at + 11 + |key|] == mark + END_TEXT
  }

  lemma BlockInLines(before: seq<string>, begin: string, key: seq<string>, entry: seq<string>, end: string,
                     after: seq<string>)
    requires |entry| == 10
    ensures var lines, at := before + ([begin] + (key + entry) + [end]) + after, |before|;
            && at + 12 + |key| <= |lines| && lines[at] == begin && lines[at + 1..at + 1 + |key|] == key
            && lines[at + 1 + |key|..at + 11 + |key|] == entry && lines[at + 11 + |key|] == end
  {
  }

  lemma MergedBlockAt(stripped: seq<string>, at: nat, port: string, indent: string)
    requires at <= |stripped|
    ensures BlockAt(MergedLines(stripped, at, port, indent), at, port, indent, [], indent)
  {
    EntryIsText(port, indent);
    var entry := EntryText(port, indent);
    assert [] + entry == entry;
    BlockInLines(stripped[..at], indent + MARK_BEGIN, [], entry, indent + MARK_END, stripped[at..]);
  }

  lemma AppendedBlockAt(stripped: seq<string>, port: string)
    ensures BlockAt(AppendedLines(stripped, port), |AppendedRest(stripped)|, port, "", ["notify:"], "  ")
  {
    EntryIsText(port, "  ");
    var rest := AppendedRest(stripped);
    BlockInLines(rest, MARK_BEGIN, ["notify:"], EntryText(port, "  "), MARK_END, []);
    assert "" + BEGIN_TEXT == BEGIN_TEXT && "" + END_TEXT == END_TEXT;
    assert rest + StandaloneBlock(port) + [] == rest + StandaloneBlock(port);
  }

  /** What a patch writes, line by line: into a list at the indent of its items, or on its own under a new key. */
  lemma WrittenBlock(src: string, port: string) returns (at: nat, mark: string, key: seq<string>, indent: string)
    requires BreakFree(port) && Patched(src, port).1 in [Merged, Appended]
    ensures BlockAt(SplitLines(Patched(src, port).0), at, port, mark, key, indent)
    ensures AllSpace(mark) && AllSpace(indent) && indent != ""
    ensures if Patched(src, port).1 == Merged then mark == indent && key == []
            else mark == "" && key == ["notify:"] && indent == "  "
  {
    var stripped := Outside(SplitLines(src), false).value;
    OutsideHasNoBegin(SplitLines(src), false);
    assert Patched(src, port) == PatchedLines(src, stripped, port);
    if TopIndex(stripped).None? {
      at := AppendedWrites(src, stripped, port);
      mark, key, indent := "", ["notify:"], "  ";
    } else {
      at, indent := MergedWrites(src, stripped, port);
      mark, key := indent, [];
    }
  }

  lemma AppendedWrites(src: string, stripped: seq<string>, port: string) returns (at: nat)
    requires BreakFree(port) && NoBegin(stripped) && LinesBreakFree(stripped) && TopIndex(stripped).None?
    ensures var (text, outcome) := PatchedLines(src, stripped, port);
            outcome == Appended && BlockAt(SplitLines(text), at, port, "", ["notify:"], "  ")
  {
    AppendedReads(src, stripped, port);
    AppendedBlockAt(stripped, port);
    at := |AppendedRest(stripped)|;
  }

  lemma MergedWrites(src: string, stripped: seq<string>, port: string) returns (at: nat, indent: string)
    requires BreakFree(port) && NoBegin(stripped) && LinesBreakFree(stripped)
    requires TopIndex(stripped).Some? && InsertAt(stripped, TopIndex(stripped).value).Some?
    ensures var (text, outcome) := PatchedLines(src, stripped, port);
            outcome == Merged && BlockAt(SplitLines(text), at, port, indent, [], indent)
    ensures AllSpace(indent) && indent != ""
  {
    MergedReads(src, stripped, port);
    InsertAtIsInside(stripped, TopIndex(stripped).value);
    var spot := InsertAt(stripped, TopIndex(stripped).value).value;
    at, indent := spot.0, spot.1;
    MergedBlockAt(stripped, at, port, indent);
  }

  // ----- The port -----

  lemma ResourceLineStrips(port: string, indent: string)
    requires AllSpace(indent)
    ensures Strip(indent + ResourceLine(port)) == ResourceLine(port)
  {
    var line, close := ResourceLine(port), "/api/ha/notify\"";
    assert line[|line| - 1] == close[|close| - 1] == '"' && line[0] == 'r';
    StripIndented(indent, line);
  }

  lemma DeepLineStarts(indent: string, margin: string, text: string)
    requires AllSpace(indent) && AllSpace(margin) && text != "" && !IsSpace(text[0])
    ensures Strip(indent + (margin + text)) != "" && Strip(indent + (margin + text))[0] == text[0]
  {
    StripStartsWith(indent + margin, text);
    assert indent + margin + text == indent + (margin + text);
  }

  predicate StartsWith(line: string, c: char) { Strip(line) != "" && Strip(line)[0] == c }

  lemma EntryLinesStart(port: string, indent: string)
    requires AllSpace(indent)
    ensures forall i :: 0 <= i < 10 && i != 2 ==> Strip(EntryText(port, indent)[i]) != ""
                                                  && Strip(EntryText(port, indent)[i])[0] != 'r'
  {
    assert AllSpace("  ");
    StripStartsWith(indent, "- name: solaris");
    DeepLineStarts(indent, "  ", "platform: rest");
    DeepLineStarts(indent, "  ", "method: POST_JSON");
    ParameterLinesStart(indent);
    TemplateLineStarts(indent, "category", "', 'house");
    TemplateLineStarts(indent, "urgency", "', 'normal");
  }

  lemma ParameterLinesStart(indent: string)
    requires AllSpace(indent)
    ensures StartsWith(indent + ("  " + "message_param_name: body"), 'm')
    ensures StartsWith(indent + ("  " + "title_param_name: title"), 't')
    ensures StartsWith(indent + ("  " + "target_param_name: target"), 't')
    ensures StartsWith(indent + ("  " + "data_template:"), 'd')
  {
    assert AllSpace("  ");
    DeepLineStarts(indent, "  ", "message_param_name: body");
    DeepLineStarts(indent, "  ", "title_param_name: title");
    DeepLineStarts(indent, "  ", "target_param_name: target");
    DeepLineStarts(indent, "  ", "data_template:");
  }

  lemma TemplateLineStarts(indent: string, key: string, default: string)
    requires AllSpace(indent) && key != "" && !IsSpace(key[0])
    ensures StartsWith(indent + ("  " + ("  " + TemplateText(key, default))), key[0])
  {
    assert AllSpace("  ");
    var text := TemplateText(key, default);
    assert text[0] == key[0];
    DeepLineStarts(indent + "  ", "  ", text);
    assert indent + "  " + ("  " + text) == indent + ("  " + ("  " + text));
  }

  /** Of the lines of an entry exactly one, stripped, is the resource line of any port, and it is the third with that
      of the port given. */
  lemma OneResourceLine(port: string, indent: string, other: string, i: nat)
    requires AllSpace(indent) && i < 10
    ensures Strip(EntryText(port, indent)[i]) == ResourceLine(other) <==> i == 2 && other == port
  {
    if i == 2 {
      assert AllSpace(indent + "  ");
      ResourceLineStrips(port, indent + "  ");
      assert indent + "  " + ResourceLine(port) == EntryText(port, indent)[2];
      SameResource(port, other);
    } else {
      EntryLinesStart(port, indent);
      assert ResourceLine(other)[0] == 'r';
    }
  }

  lemma SameResource(a: string, b: string)
    ensures ResourceLine(a) == ResourceLine(b) <==> a == b
  {
    var open, close := "resource: \"http://127.0.0.1:", "/api/ha/notify\"";
    assert ResourceLine(a)[|open|..] == a + close && ResourceLine(b)[|open|..] == b + close;
    assert (a + close)[..|a|] == a && (b + close)[..|b|] == b;
  }

  /** Of all the lines of a block, marks and key included, exactly one, stripped, is a resource line, and it is that of
      the port. */
  lemma BlockNamesOnePort(lines: seq<string>, at: nat, port: string, mark: string, key: seq<string>, indent: string,
                          other: string, i: nat)
    requires BlockAt(lines, at, port, mark, key, indent) && AllSpace(mark) && AllSpace(indent)
    requires (key == [] || key == ["notify:"]) && i < 12 + |key|
    ensures Strip(lines[at + i]) == ResourceLine(other) <==> i == 3 + |key| && other == port
  {
    assert ResourceLine(other)[0] == 'r';
    if i == 0 {
      StripStartsWith(mark, BEGIN_TEXT);
      assert BEGIN_TEXT[0] == '#';
    } else if i <= |key| {
      assert lines[at + 1] == lines[at + 1..at + 1 + |key|][0] == "notify:" && "" + "notify:" == "notify:";
      StripStartsWith("", "notify:");
    } else if i < 11 + |key| {
      OneResourceLine(port, indent, other, i - 1 - |key|);
      assert lines[at + i] == lines[at + 1 + |key|..at + 11 + |key|][i - 1 - |key|];
    } else {
      StripStartsWith(mark, END_TEXT);
      assert END_TEXT[0] == '#';
    }
  }

  /** Whenever a block is written, the port given lands in it: two ports leave the same text only if they are the same
      one. */
  lemma PortLands(src: string, port: string, other: string)
    requires BreakFree(port) && BreakFree(other) && Patched(src, port).1 in [Merged, Appended]
    ensures Patched(src, port).0 == Patched(src, other).0 <==> port == other
  {
    var stripped := Outside(SplitLines(src), false).value;
    OutsideHasNoBegin(SplitLines(src), false);
    if TopIndex(stripped).None? {
      AppendedPortLands(src, stripped, port, other);
    } else {
      MergedPortLands(src, stripped, port, other);
    }
  }

  lemma AppendedPortLands(src: string, stripped: seq<string>, port: string, other: string)
    requires BreakFree(port) && BreakFree(other) && NoBegin(stripped) && LinesBreakFree(stripped)
    requires TopIndex(stripped).None?
    ensures PatchedLines(src, stripped, port).0 == PatchedLines(src, stripped, other).0 <==> port == other
  {
    AppendedReads(src, stripped, port);
    AppendedReads(src, stripped, other);
    AppendedTextsDiffer(stripped, port, other);
  }

  lemma AppendedTextsDiffer(stripped: seq<string>, port: string, other: string)
    ensures AppendedLines(stripped, port) == AppendedLines(stripped, other) ==> port == other
  {
    AppendedBlockAt(stripped, port);
    AppendedBlockAt(stripped, other);
    SameBlockSamePort(AppendedLines(stripped, port), AppendedLines(stripped, other), |AppendedRest(stripped)|,
                      port, other, "", ["notify:"], "  ");
  }

  lemma MergedPortLands(src: string, stripped: seq<string>, port: string, other: string)
    requires BreakFree(port) && BreakFree(other) && NoBegin(stripped) && LinesBreakFree(stripped)
    requires TopIndex(stripped).Some? && InsertAt(stripped, TopIndex(stripped).value).Some?
    ensures PatchedLines(src, stripped, port).0 == PatchedLines(src, stripped, other).0 <==> port == other
  {
    MergedReads(src, stripped, port);
    MergedReads(src, stripped, other);
    var (at, indent) := InsertAt(stripped, TopIndex(stripped).value).value;
    InsertAtIsInside(stripped, TopIndex(stripped).value);
    MergedBlockAt(stripped, at, port, indent);
    MergedBlockAt(stripped, at, other, indent);
    SameBlockSamePort(MergedLines(stripped, at, port, indent), MergedLines(stripped, at, other, indent), at,
                      port, other, indent, [], indent);
  }

  lemma SameBlockSamePort(a: seq<string>, b: seq<string>, at: nat, port: string, other: string, mark: string,
                          key: seq<string>, indent: string)
    requires BlockAt(a, at, port, mark, key, indent) && BlockAt(b, at, other, mark, key, indent) && AllSpace(indent)
    ensures a == b ==> port == other
  {
    if a == b {
      assert EntryText(port, indent) == EntryText(other, indent);
      OneResourceLine(port, indent, port, 2);
      OneResourceLine(other, indent, port, 2);
    }
  }

  // ----- The list it joins -----

  predicate Blank(c: char) { c == ' ' || c == '\t' }

  /** A list item at `indent`: the indent, a dash and a blank. */
  predicate IsItem(line: string, indent: string) {
    && indent != "" && (forall i :: 0 <= i < |indent| ==> Blank(indent[i]))
    && indent + "-" <= line && |indent| + 1 < |line| && Blank(line[|indent| + 1])
  }

  lemma {:induction false} BlanksSkipped(s: string, k: nat)
    requires k <= |s| && (forall i :: 0 <= i < k ==> Blank(s[i])) && (k < |s| ==> !Blank(s[k]))
    ensures SkipBlanks(s) == s[k..]
  {
    if k > 0 {
      BlanksSkipped(s[1..], k - 1);
    }
  }

  lemma ItemIndentIs(line: string, indent: string)
    ensures ItemIndent(line) == Some(indent) <==> IsItem(line, indent)
  {
    SkipBlanksDropsBlanks(line);
    var rest := SkipBlanks(line);
    var k := |line| - |rest|;
    if IsItem(line, indent) {
      assert line[..|indent|] == indent && line[|indent|] == (indent + "-")[|indent|] == '-';
      BlanksSkipped(line, |indent|);
    }
    if ItemIndent(line) == Some(indent) {
      assert line[k..] == rest && line[k] == '-';
      assert line[..k + 1] == indent + "-";
    }
  }

  lemma SomeItem(line: string)
    ensures ItemIndent(line).Some? <==> exists indent :: IsItem(line, indent)
  {
    if ItemIndent(line).Some? {
      ItemIndentIs(line, ItemIndent(line).value);
    }
    forall indent | IsItem(line, indent)
      ensures ItemIndent(line).Some?
    {
      ItemIndentIs(line, indent);
    }
  }

  /** The last item of a section stands in line `j`, at `indent`. */
  ghost predicate LastItem(section: seq<string>, j: nat, indent: string) {
    j < |section| && IsItem(section[j], indent) && forall i, x :: j < i < |section| ==> !IsItem(section[i], x)
  }

  lemma {:induction false} LastIndentIs(section: seq<string>) returns (j: nat)
    ensures LastIndent(section).Some? ==> LastItem(section, j, LastIndent(section).value)
    ensures LastIndent(section).None? ==> forall i, x :: 0 <= i < |section| ==> !IsItem(section[i], x)
  {
    j := 0;
    if section != [] {
      var n := |section| - 1;
      SomeItem(section[n]);
      if ItemIndent(section[n]).Some? {
        ItemIndentIs(section[n], ItemIndent(section[n]).value);
        j := n;
      } else {
        j := LastIndentIs(section[..n]);
        assert forall i :: 0 <= i < n ==> section[..n][i] == section[i];
      }
    }
  }

  lemma {:induction false} BlankBehindSolid(section: seq<string>)
    ensures forall i :: SolidLength(section) <= i < |section| ==> Strip(section[i]) == ""
  {
    if section != [] && Strip(section[|section| - 1]) == "" {
      BlankBehindSolid(section[..|section| - 1]);
    }
  }

  /** The spot in a section: behind its last line of content, at the indent of its last item. */
  ghost predicate JoinsAt(lines: seq<string>, key: nat, at: nat, item: nat, indent: string)
    requires key < |lines|
  {
    var end := SectionEnd(lines, key + 1);
    && key + 1 < at <= end && Strip(lines[at - 1]) != "" && (forall i :: at <= i < end ==> Strip(lines[i]) == "")
    && LastItem(lines[key + 1..end], item, indent)
  }

  lemma InsertAtJoins(lines: seq<string>, key: nat) returns (item: nat)
    requires key < |lines| && IsNotifyKey(lines[key]) && InsertAt(lines, key).Some?
    ensures JoinsAt(lines, key, InsertAt(lines, key).value.0, item, InsertAt(lines, key).value.1)
  {
    var end := SectionEnd(lines, key + 1);
    var section := lines[key + 1..end];
    var at := InsertAt(lines, key).value.0;
    InsertAtIsInside(lines, key);
    item := LastIndentIs(section);
    BlankBehindSolid(section);
    forall i | at <= i < end
      ensures Strip(lines[i]) == ""
    {
      assert lines[i] == section[i - key - 1];
    }
  }

  /** A merged entry stands behind the last line of content of the section under the key, at the indent of the section's
      last item. */
  lemma EntryJoinsTheList(src: string, port: string) returns (key: nat, at: nat, item: nat, indent: string)
    requires BreakFree(port) && Patched(src, port).1 == Merged
    ensures var stripped := Outside(SplitLines(src), false).value;
            && TopIndex(stripped) == Some(key) && JoinsAt(stripped, key, at, item, indent)
            && BlockAt(SplitLines(Patched(src, port).0), at, port, indent, [], indent)
  {
    var stripped := Outside(SplitLines(src), false).value;
    OutsideHasNoBegin(SplitLines(src), false);
    key := TopIndex(stripped).value;
    var spot := InsertAt(stripped, key).value;
    at, indent := spot.0, spot.1;
    item := InsertAtJoins(stripped, key);
    MergedReads(src, stripped, port);
    MergedBlockAt(stripped, at, port, indent);
  }

  // ----- What the outcomes say -----

  /** A begin marker with no end marker behind it. */
  ghost predicate Unended(lines: seq<string>, i: nat) {
    && i < |lines| && Strip(lines[i]) == BEGIN_TEXT
    && forall j :: i < j < |lines| ==> Strip(lines[j]) != END_TEXT
  }

  lemma MarksDiffer(line: string)
    ensures !(IsBegin(line) && IsEnd(line))
  {
    assert MARK_BEGIN[2] == '>' && MARK_END[2] == '<';
  }

  lemma {:induction false} UnterminatedIs(lines: seq<string>, skipping: bool)
    ensures Outside(lines, skipping).None? <==>
            || (skipping && forall j :: 0 <= j < |lines| ==> !IsEnd(lines[j]))
            || exists i: nat :: Unended(lines, i)
  {
    if lines != [] {
      var rest := lines[1..];
      var next := if !skipping && IsBegin(lines[0]) then true else skipping && !IsEnd(lines[0]);
      UnterminatedIs(rest, next);
      MarksDiffer(lines[0]);
      UnendedStep(lines);
      assert (forall j :: 0 <= j < |lines| ==> !IsEnd(lines[j]))
        <==> !IsEnd(lines[0]) && forall j :: 0 <= j < |rest| ==> !IsEnd(rest[j]) by {
        assert forall j :: 0 <= j < |rest| ==> rest[j] == lines[j + 1];
      }
    }
  }

  lemma UnendedStep(lines: seq<string>)
    requires lines != []
    ensures (exists i: nat :: Unended(lines, i)) <==> Unended(lines, 0) || exists i: nat :: Unended(lines[1..], i)
    ensures Unended(lines, 0) <==> IsBegin(lines[0]) && forall j :: 0 <= j < |lines[1..]| ==> !IsEnd(lines[1..][j])
  {
    var rest := lines[1..];
    assert forall j :: 0 <= j < |rest| ==> rest[j] == lines[j + 1];
    forall i: nat | Unended(lines, i) && i > 0
      ensures Unended(rest, i - 1)
    {
    }
    forall i: nat | Unended(rest, i)
      ensures Unended(lines, i + 1)
    {
      assert forall j :: i + 1 < j < |lines| ==> lines[j] == rest[j - 1];
    }
  }

  /** A column-0 `notify:` key, blanks before its colon allowed; `k` is where the colon stands. */
  predicate KeyAt(line: string, k: nat) {
    && 6 <= k < |line| && line[..6] == "notify" && line[k] == ':'
    && forall i :: 6 <= i < k ==> Blank(line[i])
  }

  lemma NotifyValueIs(line: string, k: nat)
    ensures KeyAt(line, k) ==> NotifyValue(line) == Some(line[k + 1..])
  {
    if KeyAt(line, k) {
      BlanksSkipped(line[6..], k - 6);
    }
  }

  lemma KeyHasColon(line: string) returns (k: nat)
    requires IsNotifyKey(line)
    ensures KeyAt(line, k) && NotifyValue(line) == Some(line[k + 1..])
  {
    var after := line[6..];
    SkipBlanksDropsBlanks(after);
    k := |line| - |SkipBlanks(after)|;
    assert after[k - 6..] == line[k..];
    forall i | 6 <= i < k
      ensures Blank(line[i])
    {
      assert line[i] == after[i - 6];
    }
  }

  /** A key with a value of its own on its line: an include, a mapping, a flow list. */
  predicate HasValue(line: string, k: nat)
    requires k < |line|
  {
    Strip(line[k + 1..]) != "" && Strip(line[k + 1..])[0] != '#'
  }

  ghost predicate HasItem(section: seq<string>) { exists i, x :: 0 <= i < |section| && IsItem(section[i], x) }

  ghost predicate NoKey(lines: seq<string>) { forall i, k: nat :: 0 <= i < |lines| ==> !KeyAt(lines[i], k) }

  /** The first key has no value on its line, and a list item stands under it. */
  ghost predicate Joinable(lines: seq<string>) {
    exists key: nat, k: nat :: FirstKey(lines, key, k) && JoinableAt(lines, key, k)
  }

  ghost predicate JoinableAt(lines: seq<string>, key: nat, k: nat)
    requires key < |lines| && k < |lines[key]|
  {
    !HasValue(lines[key], k) && HasItem(lines[key + 1..SectionEnd(lines, key + 1)])
  }

  lemma JoinableIs(lines: seq<string>, key: nat)
    requires TopIndex(lines) == Some(key)
    ensures InsertAt(lines, key).Some? <==> Joinable(lines)
    ensures !NoKey(lines)
  {
    var k := KeyHasColon(lines[key]);
    FirstKeyIs(lines, key, k);
    var j := LastIndentIs(lines[key + 1..SectionEnd(lines, key + 1)]);
    forall other: nat, c: nat | FirstKey(lines, other, c)
      ensures other == key && (JoinableAt(lines, other, c) <==> InsertAt(lines, key).Some?)
    {
      assert !(other < key) by {
        NotifyValueIs(lines[other], c);
      }
      assert !(key < other);
      NotifyValueIs(lines[key], c);
    }
  }

  /** Each outcome by what the file holds: a begin marker that never ends; and of the lines outside the blocks, no key;
      a key over a list; a key whose value is on its line or under which no list item stands. */
  lemma OutcomeSays(src: string, port: string)
    ensures Patched(src, port).1 == UnterminatedMarker <==> exists i: nat :: Unended(SplitLines(src), i)
    ensures Outside(SplitLines(src), false).Some? ==>
              var stripped, outcome := Outside(SplitLines(src), false).value, Patched(src, port).1;
              && (outcome == Appended <==> NoKey(stripped)) && (outcome == Merged <==> Joinable(stripped))
              && (outcome == ForeignNotify <==> !NoKey(stripped) && !Joinable(stripped))
  {
    UnterminatedIs(SplitLines(src), false);
    UnterminatedExactly(src, port);
    if Outside(SplitLines(src), false).Some? {
      var stripped := Outside(SplitLines(src), false).value;
      assert Patched(src, port) == PatchedLines(src, stripped, port);
      if TopIndex(stripped).None? {
        NoKeyAnywhere(stripped);
      } else {
        JoinableIs(stripped, TopIndex(stripped).value);
      }
    }
  }

  lemma UnterminatedExactly(src: string, port: string)
    ensures Patched(src, port).1 == UnterminatedMarker <==> Outside(SplitLines(src), false).None?
  {
  }

  /** The first column-0 `notify:` key stands in line `key`, its colon at `k`. */
  ghost predicate FirstKey(lines: seq<string>, key: nat, k: nat) {
    key < |lines| && KeyAt(lines[key], k) && forall i, c: nat :: 0 <= i < key ==> !KeyAt(lines[i], c)
  }

  lemma NoKeyAnywhere(lines: seq<string>)
    requires TopIndex(lines).None?
    ensures NoKey(lines) && !Joinable(lines)
  {
    forall i, k: nat | 0 <= i < |lines| && KeyAt(lines[i], k)
      ensures false
    {
      NotifyValueIs(lines[i], k);
    }
  }

  lemma FirstKeyIs(lines: seq<string>, key: nat, k: nat)
    requires TopIndex(lines) == Some(key) && KeyAt(lines[key], k)
    ensures FirstKey(lines, key, k)
  {
    forall i, c: nat | 0 <= i < key && KeyAt(lines[i], c)
      ensures false
    {
      NotifyValueIs(lines[i], c);
    }
  }
}
