/**
 Names cut down to lower-case letters, digits and single hyphens: `slug` of the autoloop and `skill_name` of
 the agent kit. Both take text already put through `str.lower`.
 */
module Slugs {
  predicate Kept(c: char) { 'a' <= c <= 'z' || '0' <= c <= '9' }

  /** `re.sub(r"[^a-z0-9]+", "-", s)`: every run of other characters becomes one hyphen. */
  function Collapse(s: string): string
    decreases |s|
  {
    if s == "" then ""
    else if Kept(s[0]) then [s[0]] + Collapse(s[1..])
    else "-" + Collapse(SkipOthers(s))
  }

  function SkipOthers(s: string): (r: string)
    ensures |r| <= |s|
    ensures s != "" && !Kept(s[0]) ==> |r| < |s|
    ensures r != "" ==> Kept(r[0])
  {
    if s != "" && !Kept(s[0]) then SkipOthers(s[1..]) else s
  }

  /** `re.sub(r"-+", "-", s)`. */
  function Squeeze(s: string): string {
    if s == "" then ""
    else if s[0] == '-' && |s| > 1 && s[1] == '-' then Squeeze(s[1..])
    else [s[0]] + Squeeze(s[1..])
  }

  /** `s.lstrip("-")`. */
  function TrimLeft(s: string): string { if s != "" && s[0] == '-' then TrimLeft(s[1..]) else s }

  /** `s.rstrip("-")`. */
  function TrimRight(s: string): string { if s != "" && s[|s| - 1] == '-' then TrimRight(s[..|s| - 1]) else s }

  function Trim(s: string): string { TrimRight(TrimLeft(s)) }

  /** Lower-case letters and digits. */
  lemma KeptIsAlphanumeric(c: char)
    ensures Kept(c) <==> c in "abcdefghijklmnopqrstuvwxyz" || c in "0123456789"
  {
    Letter(c);
    if '0' <= c <= '9' {
      assert "0123456789"[(c - '0') as int] == c;
    }
  }

  lemma Letter(c: char)
    ensures 'a' <= c <= 'z' <==> c in "abcdefghijklmnopqrstuvwxyz"
  {
    if 'a' <= c <= 'z' {
      assert "abcdefghijklmnopqrstuvwxyz"[(c - 'a') as int] == c;
    }
  }

  function Cut(s: string, max: nat): string { if |s| <= max then s else s[..max] }

  function Slug(lowered: string): string {
    var name := Trim(Cut(Trim(Collapse(lowered)), 40));
    if name == "" then "ticket" else name
  }

  function SkillName(lowered: string): string { Trim(Cut(Squeeze(Trim(Collapse(lowered))), 64)) }

  // ----- What such a name is -----

  /** The runs of kept characters, in order: the words the text is made of. */
  function Words(s: string): (ws: seq<string>)
    ensures forall i :: 0 <= i < |ws| ==> Word(ws[i])
    decreases |s|
  {
    var rest := SkipOthers(s);
    if rest == "" then []
    else
      var n := FirstOther(rest);
      [rest[..n]] + Words(rest[n..])
  }

  predicate Word(w: string) { w != "" && AllKept(w) }

  predicate AllKept(s: string) { forall i :: 0 <= i < |s| ==> Kept(s[i]) }

  function FirstOther(s: string): (n: nat)
    ensures n <= |s| && AllKept(s[..n])
    ensures n < |s| ==> !Kept(s[n])
    ensures s != "" && Kept(s[0]) ==> n > 0
  {
    if s == "" || !Kept(s[0]) then 0
    else
      var n := 1 + FirstOther(s[1..]);
      assert s[..n] == [s[0]] + s[1..][..n - 1];
      n
  }

  function Hyphenated(ws: seq<string>): string {
    if ws == [] then "" else if |ws| == 1 then ws[0] else ws[0] + "-" + Hyphenated(ws[1..])
  }

  /** Letters, digits and hyphens, no hyphen at an edge, none doubled, at most `max` characters. */
  predicate Qualifies(s: string, max: nat) {
    && |s| <= max
    && (forall i :: 0 <= i < |s| ==> Kept(s[i]) || s[i] == '-')
    && (s != "" ==> s[0] != '-' && s[|s| - 1] != '-')
    && NoDouble(s)
  }

  predicate NoDouble(s: string) { forall i :: 0 <= i < |s| - 1 ==> !DoubleAt(s, i) }

  predicate DoubleAt(s: string, i: nat)
    requires i + 1 < |s|
  {
    s[i] == '-' && s[i + 1] == '-'
  }

  // ----- Collapsing and trimming gives the words, hyphenated -----

  lemma {:induction false} CollapseOfRun(run: string, rest: string)
    requires AllKept(run)
    ensures Collapse(run + rest) == run + Collapse(rest)
  {
    if run == "" {
      assert run + rest == rest;
    } else {
      assert (run + rest)[1..] == run[1..] + rest;
      CollapseOfRun(run[1..], rest);
      assert run + Collapse(rest) == [run[0]] + (run[1..] + Collapse(rest));
    }
  }

  /** Text that starts with a kept character collapses to its words, with a hyphen behind if it ends in others. */
  lemma {:induction false} CollapseFromWord(s: string)
    requires s != "" && Kept(s[0])
    ensures Words(s) != []
    ensures Collapse(s) == Hyphenated(Words(s)) || Collapse(s) == Hyphenated(Words(s)) + "-"
    decreases |s|
  {
    var n := FirstOther(s);
    var run, rest := s[..n], s[n..];
    assert s == run + rest;
    CollapseOfRun(run, rest);
    assert Words(s) == [run] + Words(rest);
    if rest != "" {
      var next := SkipOthers(rest);
      if next != "" {
        CollapseFromWord(next);
        assert SkipOthers(next) == next;
        assert Words(rest) == Words(next);
        Glue(run, Words(next), Collapse(next));
      }
    }
  }

  lemma Glue(run: string, ws: seq<string>, collapsed: string)
    requires ws != []
    requires collapsed == Hyphenated(ws) || collapsed == Hyphenated(ws) + "-"
    ensures run + ("-" + collapsed) == Hyphenated([run] + ws) || run + ("-" + collapsed) == Hyphenated([run] + ws) + "-"
  {
    assert ([run] + ws)[1..] == ws;
    assert Hyphenated([run] + ws) == run + "-" + Hyphenated(ws);
    if collapsed == Hyphenated(ws) {
      assert run + ("-" + collapsed) == Hyphenated([run] + ws);
    } else {
      assert run + ("-" + collapsed) == Hyphenated([run] + ws) + "-";
    }
  }

  /** Hyphenated words are solid at both ends. */
  lemma {:induction false} HyphenatedEdges(ws: seq<string>)
    requires ws != [] && forall i :: 0 <= i < |ws| ==> Word(ws[i])
    ensures var h := Hyphenated(ws); h != "" && Kept(h[0]) && Kept(h[|h| - 1])
  {
    assert Word(ws[0]);
    if |ws| > 1 {
      HyphenatedEdges(ws[1..]);
    }
  }

  /** Trimming takes the hyphen off that a run of other characters left at an edge. */
  lemma TrimOfEdges(h: string)
    requires h != "" && h[0] != '-' && h[|h| - 1] != '-'
    ensures Trim(h) == h && Trim("-" + h) == h && Trim(h + "-") == h && Trim("-" + (h + "-")) == h
  {
    assert ("-" + h)[1..] == h && ("-" + (h + "-"))[1..] == h + "-";
    assert (h + "-")[..|h + "-"| - 1] == h;
    assert TrimLeft("-" + (h + "-")) == TrimLeft(h + "-") == h + "-";
  }

  /** Collapsing, then trimming, is joining the words with single hyphens. */
  lemma CollapsedIsHyphenated(s: string)
    ensures Trim(Collapse(s)) == Hyphenated(Words(s))
  {
    var t := SkipOthers(s);
    if t == "" {
      NothingKept(s);
    } else {
      CollapseFromWord(t);
      HyphenatedEdges(Words(t));
      TrimOfEdges(Hyphenated(Words(t)));
      SkipBoth(s);
    }
  }

  lemma NothingKept(s: string)
    requires SkipOthers(s) == ""
    ensures Trim(Collapse(s)) == ""
  {
    if s != "" {
      assert Collapse(s) == "-" + Collapse("") == "-";
      assert TrimLeft("-") == TrimLeft("-"[1..]) == "";
    }
  }

  /** Characters to skip in front add a hyphen to the collapsed text and nothing to the words. */
  lemma SkipBoth(s: string)
    requires SkipOthers(s) != ""
    ensures Words(SkipOthers(s)) == Words(s)
    ensures Collapse(s) == Collapse(SkipOthers(s)) || Collapse(s) == "-" + Collapse(SkipOthers(s))
  {
    assert SkipOthers(SkipOthers(s)) == SkipOthers(s);
  }

  // ----- The shape -----

  lemma {:induction false} HyphenatedQualifies(ws: seq<string>)
    requires forall i :: 0 <= i < |ws| ==> Word(ws[i])
    ensures Qualifies(Hyphenated(ws), |Hyphenated(ws)|)
  {
    if |ws| == 1 {
      assert Word(ws[0]);
    } else if ws != [] {
      HyphenatedQualifies(ws[1..]);
      HyphenatedEdges(ws[1..]);
      assert Word(ws[0]);
      var w, rest := ws[0], Hyphenated(ws[1..]);
      var h := w + "-" + rest;
      forall i | 0 <= i < |h| - 1
        ensures !DoubleAt(h, i)
      {
        if i > |w| {
          var k := i - |w| - 1;
          assert h[i] == rest[k] && h[i + 1] == rest[k + 1];
          assert !DoubleAt(rest, k);
        }
      }
    }
  }

  lemma {:induction false} TrimRightQualifies(s: string)
    requires forall i :: 0 <= i < |s| ==> Kept(s[i]) || s[i] == '-'
    requires NoDouble(s) && (s != "" ==> s[0] != '-')
    ensures Qualifies(TrimRight(s), |s|) && TrimRight(s) <= s
  {
    if s != "" && s[|s| - 1] == '-' {
      var t := s[..|s| - 1];
      forall i | 0 <= i < |t| - 1
        ensures !DoubleAt(t, i)
      {
        assert !DoubleAt(s, i);
      }
      TrimRightQualifies(t);
    }
  }

  /** A prefix of a name, trimmed again, is a name. */
  lemma CutQualifies(s: string, max: nat)
    requires Qualifies(s, |s|)
    ensures Qualifies(Trim(Cut(s, max)), max) && Trim(Cut(s, max)) <= s
    ensures |s| <= max ==> Trim(Cut(s, max)) == s
    ensures |s| > max > 1 ==> |Trim(Cut(s, max))| == if s[max - 1] == '-' then max - 1 else max
    ensures s != "" && max > 0 ==> Trim(Cut(s, max)) != ""
  {
    var t := Cut(s, max);
    forall i | 0 <= i < |t| - 1
      ensures !DoubleAt(t, i)
    {
      assert !DoubleAt(s, i);
    }
    TrimRightQualifies(t);
    if |s| > max > 1 && s[max - 1] == '-' {
      assert !DoubleAt(s, max - 2);
      assert TrimLeft(t) == t && t[..|t| - 1][|t| - 2] != '-';
    }
    if s != "" && max > 0 {
      TrimRightKeepsFront(t);
    }
  }

  lemma {:induction false} TrimRightKeepsFront(s: string)
    requires s != "" && s[0] != '-'
    ensures TrimRight(s) != ""
  {
    if s[|s| - 1] == '-' {
      TrimRightKeepsFront(s[..|s| - 1]);
    }
  }

  lemma {:induction false} SqueezeOfSingle(s: string)
    requires NoDouble(s)
    ensures Squeeze(s) == s
  {
    if s != "" {
      assert |s| > 1 ==> !DoubleAt(s, 0);
      forall i | 0 <= i < |s[1..]| - 1
        ensures !DoubleAt(s[1..], i)
      {
        assert !DoubleAt(s, i + 1);
      }
      SqueezeOfSingle(s[1..]);
    }
  }

  /**
   The skill name is the words of the id with single hyphens, cut to 64 characters at most; the second
   substitution never finds anything to do, and an id with a letter or digit in it has a name.
   */
  lemma SkillNameQualifies(id: string)
    ensures Qualifies(SkillName(id), 64) && SkillName(id) <= Hyphenated(Words(id))
    ensures |Hyphenated(Words(id))| <= 64 ==> SkillName(id) == Hyphenated(Words(id))
    ensures |Hyphenated(Words(id))| > 64 ==> |SkillName(id)| == if Hyphenated(Words(id))[63] == '-' then 63 else 64
    ensures SkillName(id) == "" <==> Words(id) == []
  {
    var h := Hyphenated(Words(id));
    CollapsedIsHyphenated(id);
    HyphenatedQualifies(Words(id));
    SqueezeOfSingle(h);
    CutQualifies(h, 64);
    if Words(id) != [] {
      HyphenatedEdges(Words(id));
    }
  }

  lemma SlugQualifies(title: string)
    ensures Qualifies(Slug(title), 40) && Slug(title) != ""
    ensures Words(title) == [] ==> Slug(title) == "ticket"
    ensures Words(title) != [] ==> Slug(title) <= Hyphenated(Words(title))
    ensures Words(title) != [] && |Hyphenated(Words(title))| <= 40 ==> Slug(title) == Hyphenated(Words(title))
    ensures |Hyphenated(Words(title))| > 40 ==> |Slug(title)| == if Hyphenated(Words(title))[39] == '-' then 39 else 40
  {
    var h := Hyphenated(Words(title));
    CollapsedIsHyphenated(title);
    HyphenatedQualifies(Words(title));
    CutQualifies(h, 40);
    if Words(title) != [] {
      HyphenatedEdges(Words(title));
    }
  }

  /** An id that already qualifies is its own name. */
  lemma QualifiedNameStays(id: string)
    requires Qualifies(id, 64)
    ensures SkillName(id) == id
  {
    CollapseOfQualified(id);
    SqueezeOfSingle(id);
    assert TrimRight(id) == id && TrimLeft(id) == id;
  }

  lemma {:induction false} CollapseOfQualified(s: string)
    requires forall i :: 0 <= i < |s| ==> Kept(s[i]) || s[i] == '-'
    requires NoDouble(s)
    ensures Collapse(s) == s
  {
    if s != "" {
      forall i | 0 <= i < |s[1..]| - 1
        ensures !DoubleAt(s[1..], i)
      {
        assert !DoubleAt(s, i + 1);
      }
      CollapseOfQualified(s[1..]);
      if s[0] == '-' {
        assert |s| > 1 ==> !DoubleAt(s, 0);
        assert SkipOthers(s) == s[1..];
      }
    }
  }
}
