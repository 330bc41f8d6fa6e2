/**
 The managed `notify.solaris` block in Home Assistant's `configuration.yaml`: strip what an earlier
 deploy wrote, then write it again, into the operator's own `notify:` list where there is one.
 */
module NotifyPatch {
  import opened Options
  import opened Text

  const BEGIN_OPEN := "# >>> solaris notify."
  const BEGIN_MIDDLE := "solaris — managed by "
  const BEGIN_CLOSE := "the post-deploy >>>"
  const END_OPEN := "# <<< solaris "
  const END_CLOSE := "notify.solaris <<<"
  const MARK_BEGIN := BEGIN_OPEN + (BEGIN_MIDDLE + BEGIN_CLOSE)
  const MARK_END := END_OPEN + END_CLOSE

  predicate IsBegin(line: string) { Strip(line) == MARK_BEGIN }
  predicate IsEnd(line: string) { Strip(line) == MARK_END }

  // ----- Outside the managed blocks -----

  /** The lines outside managed blocks; nothing when a begin marker never ends. */
  function Outside(lines: seq<string>, skipping: bool): Option<seq<string>> {
    if lines == [] then if skipping then None else Some([])
    else if !skipping && IsBegin(lines[0]) then Outside(lines[1..], true)
    else if skipping then Outside(lines[1..], !IsEnd(lines[0]))
    else
      match Outside(lines[1..], false)
      case None => None
      case Some(rest) => Some([lines[0]] + rest)
  }

  /** Lines already kept, in front of what is still to come. */
  function Prepend(kept: seq<string>, rest: Option<seq<string>>): Option<seq<string>> {
    if rest.Some? then Some(kept + rest.value) else None
  }

  method StripManagedNotify(lines: seq<string>) returns (out: Option<seq<string>>)
    ensures out == Outside(lines, false)
  {
    var kept: seq<string> := [];
    var skipping := false;
    assert lines[0..] == lines;
    PrependNothing(Outside(lines, false));
    for i := 0 to |lines|
      invariant Prepend(kept, Outside(lines[i..], skipping)) == Outside(lines, false)
    {
      assert lines[i..][1..] == lines[i + 1..];
      ghost var rest := Outside(lines[i + 1..], false);
      if !skipping && IsBegin(lines[i]) {
        skipping := true;
      } else if skipping {
        if IsEnd(lines[i]) {
          skipping := false;
        }
      } else {
        assert rest.Some? ==> kept + ([lines[i]] + rest.value) == kept + [lines[i]] + rest.value;
        kept := kept + [lines[i]];
      }
    }
    assert lines[|lines|..] == [] && kept + [] == kept;
    out := if skipping then None else Some(kept);
  }

  lemma PrependNothing(rest: Option<seq<string>>)
    ensures Prepend([], rest) == rest
  {
    if rest.Some? {
      assert [] + rest.value == rest.value;
    }
  }

  predicate NoBegin(lines: seq<string>) { forall i :: 0 <= i < |lines| ==> !IsBegin(lines[i]) }

  lemma {:induction false} OutsideHasNoBegin(lines: seq<string>, skipping: bool)
    requires Outside(lines, skipping).Some?
    ensures NoBegin(Outside(lines, skipping).value)
    ensures LinesBreakFree(lines) ==> LinesBreakFree(Outside(lines, skipping).value)
  {
    if lines != [] {
      var next := if !skipping && IsBegin(lines[0]) then true else skipping && !IsEnd(lines[0]);
      OutsideHasNoBegin(lines[1..], next);
    }
  }

  /** Lines without a begin marker are all outside, whatever follows them. */
  lemma {:induction false} OutsideOfPlain(a: seq<string>, b: seq<string>)
    requires NoBegin(a)
    ensures Outside(a + b, false) == Prepend(a, Outside(b, false))
  {
    if a == [] {
      assert a + b == b;
      PrependNothing(Outside(b, false));
    } else {
      assert (a + b)[1..] == a[1..] + b;
      OutsideOfPlain(a[1..], b);
      PrependOneMore(a, Outside(b, false));
    }
  }

  lemma PrependOneMore(a: seq<string>, rest: Option<seq<string>>)
    requires a != []
    ensures Prepend(a, rest) == Prepend([a[0]], Prepend(a[1..], rest))
  {
    if rest.Some? {
      assert a + rest.value == [a[0]] + (a[1..] + rest.value);
    }
  }

  /** A whole block is skipped. */
  lemma {:induction false} OutsideOfInner(inner: seq<string>, end: string, b: seq<string>)
    requires forall i :: 0 <= i < |inner| ==> !IsEnd(inner[i])
    requires IsEnd(end)
    ensures Outside(inner + [end] + b, true) == Outside(b, false)
  {
    if inner == [] {
      assert (inner + [end] + b)[1..] == b;
    } else {
      assert (inner + [end] + b)[1..] == inner[1..] + [end] + b;
      OutsideOfInner(inner[1..], end, b);
    }
  }

  // ----- The entry and its block -----

  const NOTIFY_KEY := "notify:"
  const MARGIN := "  "
  const NAME_LINE := "- name: solaris"
  const PLATFORM_LINE := "platform: rest"
  const RESOURCE_OPEN := "resource: \"http://127.0.0.1:"
  const RESOURCE_CLOSE := "/api/ha/notify\""
  const METHOD_LINE := "method: POST_JSON"
  const MESSAGE_LINE := "message_param_name: body"
  const TITLE_LINE := "title_param_name: title"
  const TARGET_LINE := "target_param_name: target"
  const DATA_LINE := "data_template:"
  const TEMPLATE_OPEN := ": \"{{ (data or {}).get('"
  const TEMPLATE_CLOSE := "') }}\""
  const CATEGORY := "category"
  const HOUSE := "', 'house"
  const URGENCY := "urgency"
  const NORMAL := "', 'normal"

  function DataTemplate(key: string, default: string): string {
    key + (TEMPLATE_OPEN + (key + (default + TEMPLATE_CLOSE)))
  }

  function Resource(port: string): string { RESOURCE_OPEN + (port + RESOURCE_CLOSE) }

  function Item(port: string): (lines: seq<string>)
    ensures |lines| == 10
  {
    [NAME_LINE,
     MARGIN + PLATFORM_LINE,
     MARGIN + Resource(port),
     MARGIN + METHOD_LINE,
     MARGIN + MESSAGE_LINE,
     MARGIN + TITLE_LINE,
     MARGIN + TARGET_LINE,
     MARGIN + DATA_LINE,
     MARGIN + (MARGIN + DataTemplate(CATEGORY, HOUSE)),
     MARGIN + (MARGIN + DataTemplate(URGENCY, NORMAL))]
  }

  function Indented(indent: string, lines: seq<string>): (r: seq<string>)
    ensures |r| == |lines|
  {
    seq(|lines|, i requires 0 <= i < |lines| => indent + lines[i])
  }

  /** The block as merged into an existing list, every line at that list's indent. */
  function MergedBlock(port: string, indent: string): seq<string> {
    [indent + MARK_BEGIN] + Indented(indent, Item(port)) + [indent + MARK_END]
  }

  /** The block on its own, with its own `notify:` key. */
  function StandaloneBlock(port: string): seq<string> {
    [MARK_BEGIN] + StandaloneInner(port) + [MARK_END]
  }

  function StandaloneInner(port: string): seq<string> { [NOTIFY_KEY] + Indented(MARGIN, Item(port)) }

  // ----- Where it goes -----

  predicate IsBlank(c: char) { c == ' ' || c == '\t' }

  function SkipBlanks(s: string): string {
    if s != "" && IsBlank(s[0]) then SkipBlanks(s[1..]) else s
  }

  const NOTIFY := "notify"

  /** What follows the colon of a column-0 `notify:` key. */
  function NotifyValue(line: string): Option<string> {
    if !(NOTIFY <= line) then None
    else
      var rest := SkipBlanks(line[6..]);
      if rest != "" && rest[0] == ':' then Some(rest[1..]) else None
  }

  predicate IsNotifyKey(line: string) { NotifyValue(line).Some? }

  /** The first column-0 `notify:` key. */
  function TopIndex(lines: seq<string>): (r: Option<nat>)
    ensures r.Some? ==> r.value < |lines| && IsNotifyKey(lines[r.value])
    ensures r.Some? ==> forall i :: 0 <= i < r.value ==> !IsNotifyKey(lines[i])
    ensures r.None? ==> forall i :: 0 <= i < |lines| ==> !IsNotifyKey(lines[i])
  {
    if lines == [] then None
    else if IsNotifyKey(lines[0]) then Some(0)
    else
      match TopIndex(lines[1..])
      case None => None
      case Some(i) => Some(i + 1)
  }

  method TopLevelNotifyIndex(lines: seq<string>) returns (index: int)
    ensures index == match TopIndex(lines) case Some(i) => i case None => -1
  {
    for i := 0 to |lines|
      invariant forall k :: 0 <= k < i ==> !IsNotifyKey(lines[k])
    {
      if IsNotifyKey(lines[i]) {
        return i;
      }
    }
    index := -1;
  }

  /** Whether `line` belongs to the section of the key above it: blank, or indented. */
  predicate InSection(line: string) { Strip(line) == "" || (line != "" && IsSpace(line[0])) }

  function SectionEnd(lines: seq<string>, from: nat): (end: nat)
    requires from <= |lines|
    ensures from <= end <= |lines|
    ensures forall i :: from <= i < end ==> InSection(lines[i])
    ensures end < |lines| ==> !InSection(lines[end])
    decreases |lines| - from
  {
    if from == |lines| || !InSection(lines[from]) then from else SectionEnd(lines, from + 1)
  }

  /** The indent of a block-sequence item: blanks, a dash, a blank. */
  function ItemIndent(line: string): Option<string> {
    var rest := SkipBlanks(line);
    if |rest| < |line| && 2 <= |rest| && rest[0] == '-' && IsBlank(rest[1])
    then Some(line[..|line| - |rest|]) else None
  }

  function LastIndent(section: seq<string>): Option<string> {
    if section == [] then None
    else
      var last := ItemIndent(section[|section| - 1]);
      if last.Some? then last else LastIndent(section[..|section| - 1])
  }

  /** How many lines of the section are left without its trailing blank ones. */
  function SolidLength(section: seq<string>): (n: nat)
    ensures n <= |section|
    ensures n > 0 ==> Strip(section[n - 1]) != ""
  {
    if section == [] then 0
    else if Strip(section[|section| - 1]) != "" then |section|
    else SolidLength(section[..|section| - 1])
  }

  /** The line and the indent at which an entry joins the sequence under the key. */
  function InsertAt(lines: seq<string>, key: nat): (spot: Option<(nat, string)>)
    requires key < |lines| && IsNotifyKey(lines[key])
    ensures spot.Some? ==> key < spot.value.0 <= SectionEnd(lines, key + 1)
  {
    var value := Strip(NotifyValue(lines[key]).value);
    if value != "" && value[0] != '#' then None
    else
      var section := lines[key + 1..SectionEnd(lines, key + 1)];
      match LastIndent(section)
      case None => None
      case Some(indent) => Some((key + 1 + SolidLength(section), indent))
  }

  // ----- The patch -----

  datatype Outcome = UnterminatedMarker | ForeignNotify | Merged | Appended

  function StripNewlines(s: string): string {
    if s != "" && s[|s| - 1] == '\n' then StripNewlines(s[..|s| - 1]) else s
  }

  function Patched(src: string, port: string): (string, Outcome) {
    match Outside(SplitLines(src), false)
    case None => (src, UnterminatedMarker)
    case Some(stripped) => PatchedLines(src, stripped, port)
  }

  function PatchedLines(src: string, stripped: seq<string>, port: string): (string, Outcome) {
    match TopIndex(stripped)
    case Some(key) =>
      (match InsertAt(stripped, key)
       case None => (src, ForeignNotify)
       case Some((at, indent)) =>
         (Join(stripped[..at] + MergedBlock(port, indent) + stripped[at..]) + "\n", Merged))
    case None =>
      var body := StripNewlines(Join(stripped));
      var head := if body != "" then body + "\n\n" else "";
      (head + Join(StandaloneBlock(port)) + "\n", Appended)
  }

  // ----- The block is found again -----

  /** The text of an item line starts with a character that is neither blank nor the mark's. */
  predicate Solid(text: string) { text != "" && !IsSpace(text[0]) && text[0] != '#' }

  lemma SolidIsNoMark(indent: string, text: string)
    requires AllSpace(indent) && Solid(text)
    ensures !IsEnd(indent + text)
  {
    StripStartsWith(indent, text);
    assert MARK_END[0] == '#';
  }

  lemma DeeperIsNoMark(indent: string, margin: string, text: string)
    requires AllSpace(indent) && AllSpace(margin) && Solid(text)
    ensures !IsEnd(indent + (margin + text))
  {
    SolidIsNoMark(indent + margin, text);
    assert indent + margin + text == indent + (margin + text);
  }

  lemma ItemIsNoMark(port: string, indent: string)
    requires AllSpace(indent)
    ensures forall i :: 0 <= i < 10 ==> !IsEnd(indent + Item(port)[i])
  {
    assert AllSpace(MARGIN);
    SolidIsNoMark(indent, NAME_LINE);
    DeeperIsNoMark(indent, MARGIN, PLATFORM_LINE);
    DeeperIsNoMark(indent, MARGIN, Resource(port));
    ParametersAreNoMark(indent);
    TemplateIsNoMark(indent, CATEGORY, HOUSE);
    TemplateIsNoMark(indent, URGENCY, NORMAL);
  }

  lemma ParametersAreNoMark(indent: string)
    requires AllSpace(indent)
    ensures !IsEnd(indent + (MARGIN + METHOD_LINE)) && !IsEnd(indent + (MARGIN + MESSAGE_LINE))
    ensures !IsEnd(indent + (MARGIN + TITLE_LINE)) && !IsEnd(indent + (MARGIN + TARGET_LINE))
    ensures !IsEnd(indent + (MARGIN + DATA_LINE))
  {
    assert AllSpace(MARGIN);
    DeeperIsNoMark(indent, MARGIN, METHOD_LINE);
    DeeperIsNoMark(indent, MARGIN, MESSAGE_LINE);
    DeeperIsNoMark(indent, MARGIN, TITLE_LINE);
    DeeperIsNoMark(indent, MARGIN, TARGET_LINE);
    DeeperIsNoMark(indent, MARGIN, DATA_LINE);
  }

  lemma TemplateIsNoMark(indent: string, key: string, default: string)
    requires AllSpace(indent) && Solid(key)
    ensures !IsEnd(indent + (MARGIN + (MARGIN + DataTemplate(key, default))))
  {
    assert AllSpace(MARGIN);
    var text := DataTemplate(key, default);
    assert text[0] == key[0];
    DeeperIsNoMark(indent + MARGIN, MARGIN, text);
    assert indent + MARGIN + (MARGIN + text) == indent + (MARGIN + (MARGIN + text));
  }

  lemma MarksAreFound(indent: string)
    requires AllSpace(indent)
    ensures IsBegin(indent + MARK_BEGIN) && IsEnd(indent + MARK_END)
  {
    var n, m := |MARK_BEGIN| - 1, |MARK_END| - 1;
    assert |BEGIN_CLOSE| == 19 && BEGIN_CLOSE[18] == '>';
    assert |END_CLOSE| == 18 && END_CLOSE[17] == '<';
    assert MARK_BEGIN[n] == BEGIN_CLOSE[18] && MARK_END[m] == END_CLOSE[17];
    StripIndented(indent, MARK_BEGIN);
    StripIndented(indent, MARK_END);
  }

  /** A merged block disappears again, whatever its port. */
  lemma MergedBlockIsStripped(port: string, indent: string, rest: seq<string>)
    requires AllSpace(indent)
    ensures Outside(MergedBlock(port, indent) + rest, false) == Outside(rest, false)
  {
    MarksAreFound(indent);
    ItemIsNoMark(port, indent);
    BlockIsStripped(indent + MARK_BEGIN, Indented(indent, Item(port)), indent + MARK_END, rest);
  }

  lemma StandaloneInnerIsNoMark(port: string)
    ensures forall i :: 0 <= i < |StandaloneInner(port)| ==> !IsEnd(StandaloneInner(port)[i])
  {
    assert AllSpace(MARGIN);
    ItemIsNoMark(port, MARGIN);
    SolidIsNoMark("", NOTIFY_KEY);
    assert "" + NOTIFY_KEY == NOTIFY_KEY;
    assert forall i :: 1 <= i < |StandaloneInner(port)| ==> StandaloneInner(port)[i] == MARGIN + Item(port)[i - 1];
  }

  lemma StandaloneBlockIsStripped(port: string)
    ensures Outside(StandaloneBlock(port), false) == Some([])
  {
    MarksAreFound("");
    assert "" + MARK_BEGIN == MARK_BEGIN && "" + MARK_END == MARK_END;
    StandaloneInnerIsNoMark(port);
    BlockIsStripped(MARK_BEGIN, StandaloneInner(port), MARK_END, []);
    assert StandaloneBlock(port) + [] == StandaloneBlock(port);
  }

  lemma BlockIsStripped(begin: string, inner: seq<string>, end: string, rest: seq<string>)
    requires IsBegin(begin) && IsEnd(end) && forall i :: 0 <= i < |inner| ==> !IsEnd(inner[i])
    ensures Outside([begin] + inner + [end] + rest, false) == Outside(rest, false)
  {
    OutsideOfInner(inner, end, rest);
    assert ([begin] + inner + [end] + rest)[1..] == inner + [end] + rest;
  }

  // ----- The block is written in whole lines -----

  lemma WordsBreakFree()
    ensures BreakFree(NOTIFY_KEY) && BreakFree(MARGIN) && BreakFree(NAME_LINE) && BreakFree(PLATFORM_LINE)
    ensures BreakFree(METHOD_LINE) && BreakFree(DATA_LINE) && BreakFree(RESOURCE_CLOSE)
  {
  }

  lemma MessageLineBreakFree()
    ensures BreakFree(MESSAGE_LINE)
  {
  }

  lemma TitleLineBreakFree()
    ensures BreakFree(TITLE_LINE)
  {
  }

  lemma TargetLineBreakFree()
    ensures BreakFree(TARGET_LINE)
  {
  }

  lemma BeginPartsBreakFree()
    ensures BreakFree(BEGIN_OPEN) && BreakFree(BEGIN_MIDDLE) && BreakFree(BEGIN_CLOSE)
  {
  }

  lemma EndPartsBreakFree()
    ensures BreakFree(END_OPEN) && BreakFree(END_CLOSE)
  {
  }

  lemma MarksBreakFree()
    ensures BreakFree(MARK_BEGIN) && BreakFree(MARK_END)
  {
    BeginPartsBreakFree();
    EndPartsBreakFree();
    BreakFreeConcat(BEGIN_MIDDLE, BEGIN_CLOSE);
    BreakFreeConcat(BEGIN_OPEN, BEGIN_MIDDLE + BEGIN_CLOSE);
    BreakFreeConcat(END_OPEN, END_CLOSE);
  }

  lemma TemplateBreakFree(key: string, default: string)
    requires BreakFree(key) && BreakFree(default)
    ensures BreakFree(DataTemplate(key, default))
  {
    assert BreakFree(TEMPLATE_OPEN) && BreakFree(TEMPLATE_CLOSE);
    BreakFreeConcat(default, TEMPLATE_CLOSE);
    BreakFreeConcat(key, default + TEMPLATE_CLOSE);
    BreakFreeConcat(TEMPLATE_OPEN, key + (default + TEMPLATE_CLOSE));
    BreakFreeConcat(key, TEMPLATE_OPEN + (key + (default + TEMPLATE_CLOSE)));
  }

  lemma DataTemplatesBreakFree()
    ensures BreakFree(DataTemplate(CATEGORY, HOUSE)) && BreakFree(DataTemplate(URGENCY, NORMAL))
  {
    assert BreakFree(CATEGORY) && BreakFree(HOUSE) && BreakFree(URGENCY) && BreakFree(NORMAL);
    TemplateBreakFree(CATEGORY, HOUSE);
    TemplateBreakFree(URGENCY, NORMAL);
  }

  lemma ResourceBreakFree(port: string)
    requires BreakFree(port)
    ensures BreakFree(Resource(port))
  {
    assert BreakFree(RESOURCE_OPEN);
    WordsBreakFree();
    BreakFreeConcat(port, RESOURCE_CLOSE);
    BreakFreeConcat(RESOURCE_OPEN, port + RESOURCE_CLOSE);
  }

  lemma ItemBreakFree(port: string)
    requires BreakFree(port)
    ensures LinesBreakFree(Item(port))
  {
    WordsBreakFree();
    MessageLineBreakFree();
    TitleLineBreakFree();
    TargetLineBreakFree();
    ResourceBreakFree(port);
    DataTemplatesBreakFree();
  }

  lemma BlockLinesBreakFree(port: string, indent: string)
    requires BreakFree(port) && BreakFree(indent)
    ensures LinesBreakFree(MergedBlock(port, indent)) && LinesBreakFree(StandaloneBlock(port))
  {
    WordsBreakFree();
    MarksBreakFree();
    ItemBreakFree(port);
  }
}
