/** JSON string literals as Python's `json` writes them with `ensure_ascii=False` and reads them back. */
module JsonStrings {
  import opened Options

  function HexDigit(d: nat): char
    requires d < 16
  {
    if d < 10 then '0' + d as char else 'a' + (d - 10) as char
  }

  function HexValue(c: char): Option<nat> {
    if '0' <= c <= '9' then Some((c - '0') as nat)
    else if 'a' <= c <= 'f' then Some(10 + (c - 'a') as nat)
    else if 'A' <= c <= 'F' then Some(10 + (c - 'A') as nat)
    else None
  }

  // ----- Writing -----

  function EscapeChar(c: char): (r: string)
    ensures r != ""
  {
    if c == '"' then "\\\""
    else if c == '\\' then "\\\\"
    else if c == '\n' then "\\n"
    else if c == '\r' then "\\r"
    else if c == '\t' then "\\t"
    else if c as int == 0x08 then "\\b"
    else if c as int == 0x0C then "\\f"
    else if (c as int) < 0x20 then "\\u00" + [HexDigit(c as int / 16), HexDigit(c as int % 16)]
    else [c]
  }

  function Escape(s: string): string { if s == "" then "" else EscapeChar(s[0]) + Escape(s[1..]) }

  /** `json.dumps(s, ensure_ascii=False)`. */
  function Dumps(s: string): string { "\"" + Escape(s) + "\"" }

  // ----- Reading -----

  /** The value of four hexadecimal digits. */
  function Unit(s: string): Option<nat>
    requires |s| >= 4
  {
    var a, b, c, d := HexValue(s[0]), HexValue(s[1]), HexValue(s[2]), HexValue(s[3]);
    if a.Some? && b.Some? && c.Some? && d.Some? then Some(4096 * a.value + 256 * b.value + 16 * c.value + d.value)
    else None
  }

  /** What an escape stands for and how many characters it takes, `s` being at the backslash. */
  function Unescape(s: string): (r: Option<(char, nat)>)
    requires s != "" && s[0] == '\\'
    ensures r.Some? ==> 2 <= r.value.1 <= |s|
  {
    if |s| < 2 then None
    else match s[1]
      case '"' => Some(('"', 2))
      case '\\' => Some(('\\', 2))
      case '/' => Some(('/', 2))
      case 'n' => Some(('\n', 2))
      case 'r' => Some(('\r', 2))
      case 't' => Some(('\t', 2))
      case 'b' => Some((0x08 as char, 2))
      case 'f' => Some((0x0C as char, 2))
      case 'u' => UnescapeUnit(s)
      case _ => None
  }

  /** `\uXXXX`, or two of them for a character beyond the first plane. A lone surrogate is no character here. */
  function UnescapeUnit(s: string): (r: Option<(char, nat)>)
    requires |s| >= 2
    ensures r.Some? ==> 6 <= r.value.1 <= |s|
  {
    var unit := if |s| >= 6 then Unit(s[2..6]) else None;
    if unit.None? || unit.value > 0xFFFF then None
    else if unit.value < 0xD800 || unit.value >= 0xE000 then Some((unit.value as char, 6))
    else if unit.value >= 0xDC00 || |s| < 12 || s[6] != '\\' || s[7] != 'u' then None
    else
      var low := Unit(s[8..12]);
      if low.Some? && 0xDC00 <= low.value < 0xE000 then
        Some(((0x10000 + (unit.value - 0xD800) * 0x400 + (low.value - 0xDC00)) as char, 12))
      else None
  }

  /** From behind the opening quote: the string read, and what follows its closing quote. */
  function Scan(s: string): Option<(string, string)>
    decreases |s|
  {
    if s == "" then None
    else if s[0] == '"' then Some(("", s[1..]))
    else if (s[0] as int) < 0x20 then None
    else if s[0] == '\\' then
      var e := Unescape(s);
      if e.None? then None else Prepend([e.value.0], Scan(s[e.value.1..]))
    else Prepend([s[0]], Scan(s[1..]))
  }

  function Prepend(front: string, scanned: Option<(string, string)>): Option<(string, string)> {
    if scanned.None? then None else Some((front + scanned.value.0, scanned.value.1))
  }

  /** `json.loads` of text that begins and ends with a double quote. */
  function Loads(value: string): Option<string>
    requires |value| >= 2 && value[0] == '"' && value[|value| - 1] == '"'
  {
    var scanned := Scan(value[1..]);
    if scanned.None? || scanned.value.1 != "" then None else Some(scanned.value.0)
  }

  // ----- Escapes of any kind -----

  /** The four digits of a unit, in lower or upper case. */
  function FourDigits(n: nat, upper: bool): string
    requires n < 0x10000
  {
    [Hex(n / 4096, upper), Hex(n / 256 % 16, upper), Hex(n / 16 % 16, upper), Hex(n % 16, upper)]
  }

  function Hex(d: nat, upper: bool): char
    requires d < 16
  {
    (if upper then "0123456789ABCDEF" else "0123456789abcdef")[d]
  }

  lemma HexReads(d: nat, upper: bool)
    requires d < 16
    ensures HexValue(Hex(d, upper)) == Some(d)
  {
  }

  lemma DigitsRead(a: nat, b: nat, c: nat, d: nat, upper: bool)
    requires a < 16 && b < 16 && c < 16 && d < 16
    ensures Unit([Hex(a, upper), Hex(b, upper), Hex(c, upper), Hex(d, upper)])
         == Some(4096 * a + 256 * b + 16 * c + d)
  {
    HexReads(a, upper);
    HexReads(b, upper);
    HexReads(c, upper);
    HexReads(d, upper);
  }

  lemma UnitReads(n: nat, upper: bool)
    requires n < 0x10000
    ensures Unit(FourDigits(n, upper)) == Some(n)
  {
    DigitsRead(n / 4096, n / 256 % 16, n / 16 % 16, n % 16, upper);
    FourParts(n);
  }

  lemma FourParts(n: nat)
    ensures n == 4096 * (n / 4096) + 256 * (n / 256 % 16) + 16 * (n / 16 % 16) + n % 16
  {
    assert n / 16 / 16 == n / 256 && n / 256 / 16 == n / 4096;
  }

  /** Every character of the first plane reads back from its own `\uXXXX` (section 7 of RFC 8259). */
  lemma UnicodeEscapeReads(c: char, upper: bool, t: string)
    requires (c as int) < 0x10000
    ensures Unescape("\\u" + FourDigits(c as int, upper) + t) == Some((c, 6))
  {
    UnitReads(c as int, upper);
    OneUnit(FourDigits(c as int, upper), c as int, t);
  }

  /** The surrogates of a character beyond it, counted from 0x10000. */
  function HighUnit(n: nat): (u: nat)
    requires n < 0x100000
    ensures u < 0xDC00
  {
    0xD800 + n / 0x400
  }

  function LowUnit(n: nat): (u: nat)
    ensures u < 0xE000
  {
    0xDC00 + n % 0x400
  }

  /** And one beyond it from the two of its surrogates. */
  lemma SurrogatePairReads(n: nat, upper: bool, t: string)
    requires n < 0x100000
    ensures Unescape("\\u" + FourDigits(HighUnit(n), upper) + ("\\u" + FourDigits(LowUnit(n), upper)) + t)
         == Some(((0x10000 + n) as char, 12))
  {
    UnitReads(HighUnit(n), upper);
    UnitReads(LowUnit(n), upper);
    TwoUnits(FourDigits(HighUnit(n), upper), FourDigits(LowUnit(n), upper), n, t);
  }

  lemma OneUnit(digits: string, n: nat, t: string)
    requires |digits| == 4 && Unit(digits) == Some(n) && (n < 0xD800 || 0xE000 <= n < 0x10000)
    ensures Unescape("\\u" + digits + t) == Some((n as char, 6))
  {
    var s := "\\u" + digits + t;
    assert s[2..6] == digits;
  }

  lemma TwoUnits(high: string, low: string, n: nat, t: string)
    requires |high| == 4 && |low| == 4 && n < 0x100000
    requires Unit(high) == Some(0xD800 + n / 0x400) && Unit(low) == Some(0xDC00 + n % 0x400)
    ensures Unescape("\\u" + high + ("\\u" + low) + t) == Some(((0x10000 + n) as char, 12))
  {
    var s := "\\u" + high + ("\\u" + low) + t;
    assert s[2..6] == high && s[8..12] == low && s[6] == '\\' && s[7] == 'u';
  }

  /** The escapes that are one letter, read and written; a slash is only read so. */
  lemma ShortEscapes(t: string)
    ensures Unescape("\\/" + t) == Some(('/', 2)) && EscapeChar('/') == "/"
    ensures EscapeChar('\n') == "\\n" && EscapeChar('\r') == "\\r" && EscapeChar('\t') == "\\t"
    ensures EscapeChar(8 as char) == "\\b" && EscapeChar(12 as char) == "\\f"
    ensures EscapeChar('"') == "\\\"" && EscapeChar('\\') == "\\\\"
  {
  }

  // ----- Round trip -----

  lemma ControlCharacter(n: nat, s: string)
    requires n < 0x20 && |s| == 4 && s[0] == '0' && s[1] == '0' && s[2] == HexDigit(n / 16) && s[3] == HexDigit(n % 16)
    ensures Unit(s) == Some(n)
  {
    assert HexValue(HexDigit(n / 16)) == Some(n / 16);
    assert HexValue(HexDigit(n % 16)) == Some(n % 16);
  }

  lemma ScanOfEscapedChar(c: char, t: string)
    ensures Scan(EscapeChar(c) + t) == Prepend([c], Scan(t))
  {
    var e := EscapeChar(c);
    var s := e + t;
    assert s[|e|..] == t;
    if |e| == 6 {
      assert s[1] == 'u' && s[2..6] == "00" + [HexDigit(c as int / 16), HexDigit(c as int % 16)];
      ControlCharacter(c as int, s[2..6]);
    } else if |e| == 2 {
      assert s[0] == '\\' && s[1] == e[1];
    }
  }

  lemma PrependTwice(c: char, rest: string, after: Option<(string, string)>)
    ensures Prepend([c], Prepend(rest, after)) == Prepend([c] + rest, after)
  {
    if after.Some? {
      assert [c] + (rest + after.value.0) == [c] + rest + after.value.0;
    }
  }

  lemma PrependNothing(after: Option<(string, string)>)
    ensures Prepend("", after) == after
  {
    if after.Some? {
      assert "" + after.value.0 == after.value.0;
    }
  }

  lemma EscapeStep(s: string, t: string)
    requires s != ""
    ensures Escape(s) + t == EscapeChar(s[0]) + (Escape(s[1..]) + t)
  {
  }

  /** Escaped text reads back as itself, whatever follows. */
  lemma {:induction false} ScanOfEscaped(s: string, t: string)
    ensures Scan(Escape(s) + t) == Prepend(s, Scan(t))
  {
    if s == "" {
      assert Escape(s) + t == t;
      PrependNothing(Scan(t));
    } else {
      var rest := Escape(s[1..]) + t;
      calc {
        Scan(Escape(s) + t);
        { EscapeStep(s, t); }
        Scan(EscapeChar(s[0]) + rest);
        { ScanOfEscapedChar(s[0], rest); }
        Prepend([s[0]], Scan(rest));
        { ScanOfEscaped(s[1..], t); }
        Prepend([s[0]], Prepend(s[1..], Scan(t)));
        { PrependTwice(s[0], s[1..], Scan(t)); assert [s[0]] + s[1..] == s; }
        Prepend(s, Scan(t));
      }
    }
  }

  /** `json.loads(json.dumps(s))` is `s`. */
  lemma LoadsDumps(s: string)
    ensures Loads(Dumps(s)) == Some(s)
  {
    ScanOfEscaped(s, "\"");
    assert Dumps(s)[1..] == Escape(s) + "\"";
    assert "\""[1..] == "";
    assert Scan("\"") == Some(("", ""));
    assert s + "" == s;
  }

  /** Without its closing quote, escaped text is no JSON string, even where it happens to end in a quote. */
  lemma NoClosingQuote(s: string)
    ensures Scan(Escape(s)) == None
  {
    ScanOfEscaped(s, "");
    assert Escape(s) + "" == Escape(s);
  }

  /** Every quote in escaped text stands behind a backslash. */
  predicate QuotesEscaped(s: string) { forall p :: 0 <= p < |s| && s[p] == '"' ==> p > 0 && s[p - 1] == '\\' }

  lemma {:induction false} EscapeEscapesQuotes(s: string)
    ensures QuotesEscaped(Escape(s))
  {
    if s != "" {
      EscapeEscapesQuotes(s[1..]);
      var e, rest := EscapeChar(s[0]), Escape(s[1..]);
      forall p | 0 <= p < |e + rest| && (e + rest)[p] == '"'
        ensures p > 0 && (e + rest)[p - 1] == '\\'
      {
        if p >= |e| {
          assert rest[p - |e|] == '"';
        }
      }
    }
  }
}
