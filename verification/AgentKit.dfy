/** From one assist of the catalog to the `SKILL.md` Pi loads: the head is read, cut down, and written again. */
module AgentKit {
  import opened JsonStrings
  import opened Options
  import opened Text
  import Slugs

  // ----- Reading a head -----

  /** `value.replace("''", "'")`. */
  function Undoubled(s: string): string
    decreases |s|
  {
    if |s| >= 2 && s[0] == s[1] == '\'' then "'" + Undoubled(s[2..])
    else if s == "" then ""
    else [s[0]] + Undoubled(s[1..])
  }

  /** How a single-quoted YAML scalar writes its own quotes. */
  function Doubled(s: string): string {
    if s == "" then "" else (if s[0] == '\'' then "''" else [s[0]]) + Doubled(s[1..])
  }

  lemma {:induction false} UndoubledDoubled(s: string)
    ensures Undoubled(Doubled(s)) == s
  {
    if s != "" {
      var rest := Doubled(s[1..]);
      UndoubledDoubled(s[1..]);
      if s[0] == '\'' {
        assert ("''" + rest)[2..] == rest;
      } else {
        assert ([s[0]] + rest)[1..] == rest;
      }
    }
  }

  /** A scalar in single quotes reads back, quotes inside it included. */
  lemma SingleQuotedReadsBack(s: string)
    ensures Unquote("'" + Doubled(s) + "'") == s
  {
    var value := "'" + Doubled(s) + "'";
    assert value[1..|value| - 1] == Doubled(s);
    UndoubledDoubled(s);
  }

  function Unquote(value: string): string {
    if |value| >= 2 && value[0] == value[|value| - 1] == '"' then
      var decoded := Loads(value);
      if decoded.Some? then decoded.value else value[1..|value| - 1]
    else if |value| >= 2 && value[0] == value[|value| - 1] == '\'' then Undoubled(value[1..|value| - 1])
    else value
  }

  /** `line.partition(":")` splits here; at the end when there is no colon. */
  function FirstColon(line: string): (k: nat)
    ensures k <= |line| && (k < |line| ==> line[k] == ':')
    ensures forall i :: 0 <= i < k ==> line[i] != ':'
  {
    if line == "" || line[0] == ':' then 0 else 1 + FirstColon(line[1..])
  }

  /** The fields with one more line of the head read. */
  function WithLine(fields: map<string, string>, line: string): map<string, string> {
    var k := FirstColon(line);
    if k < |line| && Strip(line[..k]) != "" && line[0] != ' ' && line[0] != '\t' then
      fields[Strip(line[..k]) := Unquote(Strip(line[k + 1..]))]
    else fields
  }

  /** What a line `key:value` of a head sets: its key, stripped, to its value, stripped and unquoted; an indented line
      and one without a key set nothing. */
  lemma HeadLineSets(fields: map<string, string>, key: string, value: string)
    requires ':' !in key
    ensures WithLine(fields, key + ":" + value)
         == if Strip(key) == "" || key[0] == ' ' || key[0] == '\t' then fields
            else fields[Strip(key) := Unquote(Strip(value))]
  {
    var line := key + ":" + value;
    assert line[|key|] == ':';
    assert forall i :: 0 <= i < |key| ==> line[i] == key[i] && key[i] in key;
    assert line[..|key|] == key && line[|key| + 1..] == value;
    assert key == "" ==> StripLeft(key) == "";
  }

  lemma ColonlessLineSetsNothing(fields: map<string, string>, line: string)
    requires ':' !in line
    ensures WithLine(fields, line) == fields
  {
    assert forall i :: 0 <= i < |line| ==> line[i] in line;
  }

  /** A value that is not quoted is its own text, and one in double quotes that is no JSON string loses just these. */
  lemma OtherScalars(value: string, inner: string)
    requires |value| < 2 || value[0] != value[|value| - 1] || (value[0] != '"' && value[0] != '\'')
    ensures Unquote(value) == value
    ensures Loads("\"" + inner + "\"") == None ==> Unquote("\"" + inner + "\"") == inner
  {
    var quoted := "\"" + inner + "\"";
    assert quoted[1..|quoted| - 1] == inner;
  }

  /** The fields up to the closing `---` and the lines behind it. */
  function Head(fields: map<string, string>, lines: seq<string>): Option<(map<string, string>, seq<string>)>
    decreases |lines|
  {
    if lines == [] then None
    else if Strip(lines[0]) == "---" then Some((fields, lines[1..]))
    else Head(WithLine(fields, lines[0]), lines[1..])
  }

  /** `s.lstrip("\n")`. */
  function DropNewlines(s: string): string { if s != "" && s[0] == '\n' then DropNewlines(s[1..]) else s }

  lemma {:induction false} LeadingNewlinesGo(s: string, n: nat)
    requires n <= |s| && (forall i :: 0 <= i < n ==> s[i] == '\n') && (n < |s| ==> s[n] != '\n')
    ensures DropNewlines(s) == s[n..]
  {
    if n > 0 {
      LeadingNewlinesGo(s[1..], n - 1);
    }
  }

  /** What the method below finds: fields and body, or no fields and the text itself when there is no head. */
  function Frontmatter(text: string): (map<string, string>, string) {
    var lines := SplitLines(text);
    if lines == [] || Strip(lines[0]) != "---" then (map[], text)
    else
      var head := Head(map[], lines[1..]);
      if head.None? then (map[], text) else (head.value.0, DropNewlines(Join(head.value.1)))
  }

  method ParseFrontmatter(text: string) returns (fields: map<string, string>, body: string)
    ensures (fields, body) == Frontmatter(text)
  {
    fields, body := map[], text;
    var lines := SplitLines(text);
    if lines == [] || Strip(lines[0]) != "---" {
      return;
    }
    var i := 1;
    while i < |lines|
      invariant 1 <= i <= |lines|
      invariant Head(fields, lines[i..]) == Head(map[], lines[1..])
    {
      assert lines[i..][0] == lines[i] && lines[i..][1..] == lines[i + 1..];
      if Strip(lines[i]) == "---" {
        body := DropNewlines(Join(lines[i + 1..]));
        return;
      }
      fields := WithLine(fields, lines[i]);
      i := i + 1;
    }
    fields := map[];
  }

  // ----- Writing a skill -----

  lemma {:induction false} StripRightCutsBlanks(s: string)
    ensures forall i :: |StripRight(s)| <= i < |s| ==> IsSpace(s[i])
  {
    if s != "" && IsSpace(s[|s| - 1]) {
      StripRightCutsBlanks(s[..|s| - 1]);
    }
  }

  /** At most `limit` characters, the last an ellipsis when something was cut, and no blank before that. */
  function Clip(text: string, limit: nat): (r: string)
    requires limit > 0
    ensures |r| <= limit && (|text| <= limit ==> r == text)
    ensures |text| > limit ==> r != "" && r[|r| - 1] == '\U{2026}' && r[..|r| - 1] <= text
    ensures |text| > limit && |r| > 1 ==> !IsSpace(r[|r| - 2])
    ensures |text| > limit ==> forall i :: |r| - 1 <= i < limit - 1 ==> IsSpace(text[i])
  {
    if |text| <= limit then text
    else
      StripRightCutsBlanks(text[..limit - 1]);
      StripRight(text[..limit - 1]) + "\U{2026}"
  }

  /** `text.split(sep, 1)[0]`. */
  function Before(text: string, sep: string): (r: string)
    ensures r <= text && (r != text ==> sep <= text[|r|..])
    ensures forall i :: 0 <= i < |r| ==> !(sep <= text[i..])
  {
    if sep <= text || text == "" then
      assert text[0..] == text;
      ""
    else
      var r := Before(text[1..], sep);
      assert text[0..] == text && forall i :: 1 <= i <= |text| ==> text[i..] == text[1..][i - 1..];
      [text[0]] + r
  }

  function Field(fields: map<string, string>, key: string): string { if key in fields then fields[key] else "" }

  const DASH := " \U{2014} "

  function SkillDescription(fields: map<string, string>): (r: string)
    ensures |r| <= 300
  {
    var trigger := Strip(Before(Strip(Field(fields, "whenToUse")), DASH));
    Clip(if trigger != "" then trigger else Strip(Field(fields, "title")), 300)
  }

  function Stripped(fields: map<string, string>, key: string): string {
    if key in fields then Strip(fields[key]) else ""
  }

  /** The description is what stands in `whenToUse` in front of the first dash, or the title when nothing does; whole up
      to 300 characters. */
  lemma DescriptionSays(fields: map<string, string>)
    ensures var trigger := Strip(Before(Stripped(fields, "whenToUse"), " \U{2014} "));
            var whole := if trigger != "" then trigger else Stripped(fields, "title");
            SkillDescription(fields) == Clip(whole, 300) && (|whole| <= 300 ==> SkillDescription(fields) == whole)
  {
    assert StripLeft("") == "" && Strip("") == "";
  }

  const NAME := "name"
  const DESCRIPTION := "description"

  function HeadLines(name: string, description: string): seq<string> {
    ["---", NAME + ": " + name, DESCRIPTION + ": " + Dumps(description), "---"]
  }

  function Notice(id: string): string {
    "<!-- Generated from " + "the ServiceBay assist " + "catalog: assists/" + id + ".md.\n"
    + "     Edit it in mdopp/" + "servicebay; this copy " + "is rewritten on every " + "pod start. -->\n\n"
  }

  /** Nothing without a description. `lowered` is the id in lower case. */
  function RenderSkill(id: string, lowered: string, text: string): Option<string> {
    var (fields, body) := Frontmatter(text);
    var description := SkillDescription(fields);
    if description == "" then None
    else Some(Join(HeadLines(Slugs.SkillName(lowered), description)) + "\n" + (Notice(id) + StripRight(body) + "\n"))
  }
}
