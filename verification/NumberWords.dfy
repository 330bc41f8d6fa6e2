/**
 German numbers as they are spoken: cardinals, ordinals with their dative and weak forms, and years.
 The functions are the normalizer's; the parser at the end is the inverse of the cardinals.
 */
module NumberWords {
  import opened Options
  import opened Decimals

  predicate InTable(n: int) { 0 <= n <= 20 || (n % 10 == 0 && 30 <= n <= 90) }

  function Word(n: int): (w: string)
    requires InTable(n)
  {
    if n == 0 then "null" else if n == 1 then "eins" else if n == 2 then "zwei" else if n == 3 then "drei"
    else if n == 4 then "vier" else if n == 5 then "fünf" else if n == 6 then "sechs" else if n == 7 then "sieben"
    else if n == 8 then "acht" else if n == 9 then "neun" else if n == 10 then "zehn" else if n == 11 then "elf"
    else if n == 12 then "zwölf" else if n == 13 then "dreizehn" else if n == 14 then "vierzehn"
    else if n == 15 then "fünfzehn" else if n == 16 then "sechzehn" else if n == 17 then "siebzehn"
    else if n == 18 then "achtzehn" else if n == 19 then "neunzehn" else if n == 20 then "zwanzig"
    else if n == 30 then "dreißig" else if n == 40 then "vierzig" else if n == 50 then "fünfzig"
    else if n == 60 then "sechzig" else if n == 70 then "siebzig" else if n == 80 then "achtzig" else "neunzig"
  }

  const EIN := "ein"
  const UND := "und"
  const HUNDERT := "hundert"
  const TAUSEND := "tausend"
  const MINUS := "minus "
  const MILLION: int := 1_000_000

  /** How a one is said in front of another part. */
  function OneWord(ones: int): string
    requires 1 <= ones <= 9
  {
    if ones == 1 then EIN else Word(ones)
  }

  function NumberToWords(n: int): string
    decreases if n < 0 then 1 else 0, if n < 0 then -n else n
  {
    if n < 0 then MINUS + NumberToWords(-n)
    else if InTable(n) then Word(n)
    else if n < 100 then OneWord(n % 10) + UND + Word(n - n % 10)
    else if n < 1000 then
      var prefix := (if n / 100 == 1 then EIN else NumberToWords(n / 100)) + HUNDERT;
      if n % 100 == 0 then prefix else prefix + NumberToWords(n % 100)
    else if n < MILLION then
      var prefix := (if n / 1000 == 1 then EIN else NumberToWords(n / 1000)) + TAUSEND;
      if n % 1000 == 0 then prefix else prefix + NumberToWords(n % 1000)
    else Decimal(n)
  }

  /** The table is regular from thirteen on: units with "zehn" and with "zig", "sechs" and "sieben" cut to four letters;
      and a one in front of another part is "eins" without its end. */
  lemma TableIsRegular(k: int)
    requires 2 <= k <= 9
    ensures |Word(6)| >= 4 && |Word(7)| >= 4
    ensures k > 2 ==> Word(10 + k) == (if k == 6 || k == 7 then Word(k)[..4] else Word(k)) + "zehn"
    ensures Word(10 * k) == if k == 2 then "zwanzig" else if k == 3 then Word(3) + "ßig"
                            else (if k == 6 || k == 7 then Word(k)[..4] else Word(k)) + "zig"
  {
    if k < 6 {
      assert k > 2 ==> Word(10 + k) == Word(k) + "zehn";
    }
  }

  /** Some numbers in full: the zero, a one alone and in front, and how the parts are joined. */
  lemma SomeNumbers()
    ensures NumberToWords(0) == "null" && NumberToWords(-1) == "minus eins"
    ensures NumberToWords(21) == "einundzwanzig" && NumberToWords(100) == "einhundert"
    ensures NumberToWords(1000) == "eintausend"
  {
    assert NumberToWords(1) == Word(1) == "eins";
    assert NumberToWords(21) == EIN + UND + Word(20);
  }

  // ----- Reading the table -----

  /** Length and first two letters tell the table words apart. */
  function Guess(length: nat, a: char, b: char): int {
    if length == 3 then 11
    else if length == 4 then
      if a == 'n' then if b == 'u' then 0 else 9
      else if a == 'e' then 1 else if a == 'z' then if b == 'w' then 2 else 10
      else if a == 'd' then 3 else if a == 'v' then 4 else if a == 'f' then 5 else 8
    else if length == 5 then if a == 's' then 6 else 12
    else if length == 6 then 7
    else if length == 7 then
      if a == 'z' then 20 else if a == 'd' then 30 else if a == 'v' then 40 else if a == 'f' then 50
      else if a == 's' then if b == 'e' then 60 else 70
      else if a == 'a' then 80 else 90
    else
    if a == 'd' then 13 else if a == 'v' then 14 else if a == 'f' then 15
    else if a == 's' then if b == 'e' then 16 else 17
    else if a == 'a' then 18 else 19
  }

  /** The first table entry from `n` on that is said `s`. */
  function Search(s: string, n: int): Option<int>
    requires 0 <= n
    decreases 91 - n
  {
    if n > 90 then None else if InTable(n) && Word(n) == s then Some(n) else Search(s, n + 1)
  }

  function Lookup(s: string): Option<int> { Search(s, 0) }

  lemma {:induction false} SearchIsSound(s: string, n: int)
    requires 0 <= n && Search(s, n).Some?
    ensures InTable(Search(s, n).value) && Word(Search(s, n).value) == s
    decreases 91 - n
  {
    if n <= 90 && !(InTable(n) && Word(n) == s) {
      SearchIsSound(s, n + 1);
    }
  }

  lemma GuessSmall(n: int)
    requires 0 <= n <= 9
    ensures |Word(n)| >= 2 && Guess(|Word(n)|, Word(n)[0], Word(n)[1]) == n
  {
  }

  lemma GuessTeens(n: int)
    requires 10 <= n <= 19
    ensures |Word(n)| >= 2 && Guess(|Word(n)|, Word(n)[0], Word(n)[1]) == n
  {
  }

  lemma GuessTens(n: int)
    requires InTable(n) && 20 <= n
    ensures |Word(n)| >= 2 && Guess(|Word(n)|, Word(n)[0], Word(n)[1]) == n
  {
  }

  lemma GuessWord(n: int)
    requires InTable(n)
    ensures |Word(n)| >= 2 && Guess(|Word(n)|, Word(n)[0], Word(n)[1]) == n
  {
    if n <= 9 {
      GuessSmall(n);
    } else if n <= 19 {
      GuessTeens(n);
    } else {
      GuessTens(n);
    }
  }

  lemma {:induction false} SearchFinds(n: int, from: int)
    requires InTable(n) && 0 <= from <= n
    ensures Search(Word(n), from) == Some(n)
    decreases n - from
  {
    if from < n {
      SearchFinds(n, from + 1);
      if InTable(from) {
        GuessWord(from);
        GuessWord(n);
      }
    }
  }

  lemma LookupWord(n: int)
    requires InTable(n)
    ensures Lookup(Word(n)) == Some(n)
  {
    SearchFinds(n, 0);
  }

  // ----- Letter pairs -----

  predicate PairAt(s: string, k: int, a: char, b: char) { 0 <= k < |s| - 1 && s[k] == a && s[k + 1] == b }

  ghost predicate NoPair(s: string, a: char, b: char) { forall k :: !PairAt(s, k, a, b) }

  /** The first place where `a` is followed by `b`. */
  function FindPair(s: string, a: char, b: char): (i: nat)
    ensures i <= |s|
    ensures forall k :: 0 <= k < i ==> !PairAt(s, k, a, b)
    ensures i < |s| ==> PairAt(s, i, a, b)
  {
    if |s| < 2 then |s|
    else if s[0] == a && s[1] == b then 0
    else
      var i := FindPair(s[1..], a, b);
      assert forall k :: 1 <= k < i + 1 ==> PairAt(s, k, a, b) == PairAt(s[1..], k - 1, a, b);
      i + 1
  }

  lemma NoPairConcat(s: string, t: string, a: char, b: char)
    requires NoPair(s, a, b) && NoPair(t, a, b)
    requires s == "" || t == "" || s[|s| - 1] != a || t[0] != b
    ensures NoPair(s + t, a, b)
  {
    forall k ensures !PairAt(s + t, k, a, b) {
      assert 0 <= k < |s| - 1 ==> PairAt(s + t, k, a, b) == PairAt(s, k, a, b);
      assert |s| <= k ==> PairAt(s + t, k, a, b) == PairAt(t, k - |s|, a, b);
    }
  }

  lemma FindPairAt(s: string, at: nat, a: char, b: char)
    requires PairAt(s, at, a, b) && NoPair(s[..at + 1], a, b)
    ensures FindPair(s, a, b) == at
  {
    forall k | 0 <= k < at ensures !PairAt(s, k, a, b) {
      assert PairAt(s[..at + 1], k, a, b) == PairAt(s, k, a, b);
    }
  }

  lemma FindPairNone(s: string, a: char, b: char)
    requires NoPair(s, a, b)
    ensures FindPair(s, a, b) == |s|
  {
  }

  // ----- What every word has in common -----

  /** A word, or words run together, without the pairs that mark `tausend` and `hundert`. */
  ghost predicate Below1000(s: string) { NoPair(s, 'a', 'u') && NoPair(s, 'h', 'u') && Bounded(s) }

  /** No mark begins or ends at the edges of the text, and it starts like no `minus` and no digit. */
  predicate Bounded(s: string) {
    |s| >= 3 && s[0] != 'u' && s[0] != 'm' && !IsDigit(s[0]) && s[|s| - 1] != 'a' && s[|s| - 1] != 'h'
  }

  lemma SmallWords(n: int)
    requires 0 <= n <= 9
    ensures Below1000(Word(n)) && NoPair(Word(n), 'n', 'd') && Word(n) != EIN
  {
  }

  lemma TeenWordsLow(n: int)
    requires 10 <= n <= 14
    ensures Below1000(Word(n)) && NoPair(Word(n), 'n', 'd')
  {
  }

  lemma TeenWordsHigh(n: int)
    requires 15 <= n <= 19
    ensures Below1000(Word(n)) && NoPair(Word(n), 'n', 'd')
  {
  }

  lemma TenWords(n: int)
    requires InTable(n) && 20 <= n
    ensures Below1000(Word(n)) && NoPair(Word(n), 'n', 'd')
  {
  }

  lemma ElevenIsNotEin()
    ensures Word(11) != EIN
  {
    assert Word(11)[1] == 'l' && EIN[1] == 'i';
  }

  lemma TableWords(n: int)
    requires InTable(n)
    ensures Below1000(Word(n)) && NoPair(Word(n), 'n', 'd') && Word(n) != EIN
  {
    if n <= 9 {
      SmallWords(n);
    } else if n <= 19 {
      if n <= 14 {
        TeenWordsLow(n);
      } else {
        TeenWordsHigh(n);
      }
      ElevenIsNotEin();
      GuessTeens(n);
    } else {
      TenWords(n);
      GuessTens(n);
    }
  }

  lemma EinIsBelow1000()
    ensures Below1000(EIN) && NoPair(EIN, 'n', 'd')
  {
  }

  lemma OneWords(ones: int)
    requires 1 <= ones <= 9
    ensures Below1000(OneWord(ones)) && NoPair(OneWord(ones), 'n', 'd')
  {
    EinIsBelow1000();
    TableWords(ones);
  }

  lemma Joined(s: string, t: string, a: char, b: char)
    requires NoPair(s, a, b) && NoPair(t, a, b) && NoPair(UND, a, b)
    requires s != "" && t != "" && s[|s| - 1] != a && UND[2] != a
    ensures NoPair(s + UND + t, a, b)
  {
    assert |UND| == 3;
    NoPairConcat(s, UND, a, b);
    NoPairConcat(s + UND, t, a, b);
  }

  lemma JoinedBelow1000(s: string, t: string)
    requires Below1000(s) && Below1000(t)
    ensures Below1000(s + UND + t)
  {
    assert |UND| == 3 && UND[0] == 'u' && UND[1] == 'n' && UND[2] == 'd';
    Joined(s, t, 'a', 'u');
    Joined(s, t, 'h', 'u');
  }

  /** What stands in front of `und` or `hundert`: `ein` there, or a word of the table. */
  function ParseOnes(s: string): Option<int> { if s == EIN then Some(1) else Lookup(s) }

  function Sum(a: Option<int>, b: Option<int>): Option<int> {
    if a.Some? && b.Some? then Some(a.value + b.value) else None
  }

  function Times(k: int, a: Option<int>): Option<int> {
    if a.Some? then Some(k * a.value) else None
  }

  function Parse100(s: string): Option<int> {
    var i := FindPair(s, 'n', 'd');
    if Lookup(s).Some? then Lookup(s) else if 1 <= i < |s| then ParseAround(s, i) else None
  }

  /** `i` is where the `nd` of an `und` stands. */
  function ParseAround(s: string, i: nat): Option<int>
    requires 1 <= i < |s| - 1
  {
    Sum(ParseOnes(s[..i - 1]), Lookup(s[i + 2..]))
  }

  function Parse1000(s: string): Option<int> {
    var i := FindPair(s, 'h', 'u');
    if i == |s| then Parse100(s)
    else if i + 7 > |s| then None
    else Sum(Times(100, ParseOnes(s[..i])), if i + 7 == |s| then Some(0) else Parse100(s[i + 7..]))
  }

  function ParseThousands(s: string): Option<int> { if s == EIN then Some(1) else Parse1000(s) }

  function ParseMillion(s: string): Option<int> {
    var i := FindPair(s, 'a', 'u');
    if i == |s| then Parse1000(s)
    else if i == 0 || i + 6 > |s| then None
    else Sum(Times(1000, ParseThousands(s[..i - 1])), if i + 6 == |s| then Some(0) else Parse1000(s[i + 6..]))
  }

  function ParseNatural(s: string): Option<int> {
    if s != "" && AllDigits(s) then Some(FromDecimal(s)) else ParseMillion(s)
  }

  // ----- The inverse, bottom up -----

  lemma ParseOnesWord(ones: int)
    requires 1 <= ones <= 9
    ensures ParseOnes(OneWord(ones)) == Some(ones)
  {
    TableWords(ones);
    LookupWord(ones);
  }

  /** Two parts joined by `und`, whatever the parts say. */
  lemma ParseJoined(one: string, ten: string)
    requires one != "" && ten != "" && NoPair(one, 'n', 'd')
    ensures Parse100(one + UND + ten) == Sum(Times(1, ParseOnes(one)), Lookup(ten))
  {
    var s, at := one + UND + ten, |one| + 1;
    JoinedMark(one, ten);
    ParseAroundUnd(one, ten);
    NotInTable(s);
    Parse100At(s, at);
  }

  lemma Parse100At(s: string, at: nat)
    requires 1 <= at < |s| - 1 && FindPair(s, 'n', 'd') == at && Lookup(s).None?
    ensures Parse100(s) == ParseAround(s, at)
  {
  }

  lemma JoinedIsNotEin(one: string, ten: string)
    requires one != "" && ten != ""
    ensures one + UND + ten != EIN
  {
    assert |UND| == 3 && |EIN| == 3;
  }

  lemma ParseAroundUnd(one: string, ten: string)
    requires one != "" && ten != ""
    ensures |UND| == 3
    ensures ParseAround(one + UND + ten, |one| + 1) == Sum(ParseOnes(one), Lookup(ten))
  {
    var s := one + UND + ten;
    assert |UND| == 3;
    assert s[..|one|] == one && s[|one| + 3..] == ten;
  }

  lemma JoinedMark(one: string, ten: string)
    requires one != "" && NoPair(one, 'n', 'd')
    ensures FindPair(one + UND + ten, 'n', 'd') == |one| + 1
  {
    var s, un := one + UND + ten, "un";
    assert |UND| == 3 && UND[0] == 'u' && UND[1] == 'n' && UND[2] == 'd';
    assert s[..|one| + 2] == one + un;
    NoPairConcat(one, un, 'n', 'd');
    FindPairAt(s, |one| + 1, 'n', 'd');
  }

  lemma NotInTable(s: string)
    requires FindPair(s, 'n', 'd') < |s|
    ensures Lookup(s).None?
  {
    if Lookup(s).Some? {
      SearchIsSound(s, 0);
      TableWords(Lookup(s).value);
      FindPairNone(s, 'n', 'd');
      assert false;
    }
  }

  ghost predicate Reads100(s: string, n: int) { Parse100(s) == Some(n) && Below1000(s) && s != EIN }

  lemma TableWordReads(w: string, n: int)
    requires InTable(n) && w == Word(n)
    ensures Reads100(w, n)
  {
    TableWords(n);
    LookupWord(n);
  }

  lemma JoinedReads(w: string, n: int, one: string, ones: int, ten: string, tens: int)
    requires Below1000(one) && NoPair(one, 'n', 'd') && ParseOnes(one) == Some(ones)
    requires Below1000(ten) && Lookup(ten) == Some(tens)
    requires w == one + UND + ten && n == tens + ones
    ensures Reads100(w, n)
  {
    ParseJoined(one, ten);
    SumUp(Parse100(w), 1, ParseOnes(one), ones, Lookup(ten), tens, false);
    JoinedBelow1000(one, ten);
    JoinedIsNotEin(one, ten);
  }

  lemma CompoundReads(w: string, n: int, ones: int, tens: int)
    requires 1 <= ones <= 9 && InTable(tens) && 20 <= tens && n == tens + ones
    requires w == OneWord(ones) + UND + Word(tens)
    ensures Reads100(w, n)
  {
    OneWords(ones);
    ParseOnesWord(ones);
    TableWords(tens);
    LookupWord(tens);
    JoinedReads(w, n, OneWord(ones), ones, Word(tens), tens);
  }

  lemma Parse100Words(n: int)
    requires 0 <= n < 100
    ensures Reads100(NumberToWords(n), n)
  {
    if InTable(n) {
      TableWordReads(NumberToWords(n), n);
    } else {
      CompoundReads(NumberToWords(n), n, n % 10, n - n % 10);
    }
  }

  // ----- Hundreds -----

  /** Words below a thousand: no `tausend` in them or at their edges. */
  ghost predicate NoTausend(s: string) { NoPair(s, 'a', 'u') && Bounded(s) }

  lemma Hundert()
    ensures |HUNDERT| == 7 && HUNDERT[0] == 'h' && HUNDERT[1] == 'u' && HUNDERT[6] == 't' && NoPair(HUNDERT, 'a', 'u')
  {
  }

  /** The two halves of a reading put together. */
  lemma SumUp(x: Option<int>, unit: int, a: Option<int>, k: int, b: Option<int>, rest: int, empty: bool)
    requires x == Sum(Times(unit, a), if empty then Some(0) else b)
    requires a == Some(k) && if empty then rest == 0 else b == Some(rest)
    ensures x == Some(unit * k + rest)
  {
  }

  lemma HundertMark(h: string, r: string)
    requires h != "" && NoPair(h, 'h', 'u')
    ensures FindPair(h + HUNDERT + r, 'h', 'u') == |h| && |HUNDERT| == 7
  {
    var s := h + HUNDERT + r;
    Hundert();
    assert s[..|h| + 1] == h + "h";
    NoPairConcat(h, "h", 'h', 'u');
    FindPairAt(s, |h|, 'h', 'u');
  }

  lemma ParseHundreds(h: string, r: string)
    requires h != "" && NoPair(h, 'h', 'u')
    ensures Parse1000(h + HUNDERT + r) == Sum(Times(100, ParseOnes(h)), if r == "" then Some(0) else Parse100(r))
  {
    var s := h + HUNDERT + r;
    HundertMark(h, r);
    assert s[..|h|] == h && s[|h| + 7..] == r;
  }

  lemma HundredsNoTausend(h: string, r: string)
    requires NoTausend(h) && (r == "" || NoTausend(r))
    ensures NoTausend(h + HUNDERT + r) && h + HUNDERT + r != EIN
  {
    Hundert();
    NoPairConcat(h, HUNDERT, 'a', 'u');
    NoPairConcat(h + HUNDERT, r, 'a', 'u');
    assert |EIN| == 3;
  }

  ghost predicate Reads1000(s: string, n: int) { Parse1000(s) == Some(n) && NoTausend(s) && s != EIN }

  lemma SmallReads1000(s: string, n: int)
    requires Reads100(s, n)
    ensures Reads1000(s, n)
  {
    FindPairNone(s, 'h', 'u');
  }

  /** What a hundred is counted with, as the code writes it. */
  lemma HundredsWord(k: int)
    requires 1 <= k <= 9
    ensures (if k == 1 then EIN else NumberToWords(k)) == OneWord(k)
  {
  }

  lemma HundredsRead(w: string, n: int, k: int, r: string, rest: int)
    requires 1 <= k <= 9 && (if rest == 0 then r == "" else Reads100(r, rest))
    requires w == OneWord(k) + HUNDERT + r && n == 100 * k + rest
    ensures Reads1000(w, n)
  {
    OneWords(k);
    ParseOnesWord(k);
    HundredsReadAs(w, n, OneWord(k), k, r, rest);
  }

  lemma HundredsReadAs(w: string, n: int, h: string, k: int, r: string, rest: int)
    requires ParseOnes(h) == Some(k) && Below1000(h) && if rest == 0 then r == "" else Reads100(r, rest)
    requires w == h + HUNDERT + r && n == 100 * k + rest
    ensures Reads1000(w, n)
  {
    HundredsValue(w, n, h, k, r, rest);
    HundredsNoTausend(h, r);
  }

  lemma HundredsValue(w: string, n: int, h: string, k: int, r: string, rest: int)
    requires h != "" && NoPair(h, 'h', 'u') && ParseOnes(h) == Some(k)
    requires if rest == 0 then r == "" else r != "" && Parse100(r) == Some(rest)
    requires w == h + HUNDERT + r && n == 100 * k + rest
    ensures Parse1000(w) == Some(n)
  {
    ParseHundreds(h, r);
    SumUp(Parse1000(w), 100, ParseOnes(h), k, Parse100(r), rest, r == "");
  }

  /** The words of a number from a hundred on, taken apart. */
  lemma HundredsParts(n: int) returns (r: string)
    requires 100 <= n < 1000
    ensures NumberToWords(n) == OneWord(n / 100) + HUNDERT + r
    ensures if n % 100 == 0 then r == "" else r == NumberToWords(n % 100)
  {
    HundredsWord(n / 100);
    r := if n % 100 == 0 then "" else NumberToWords(n % 100);
  }

  lemma HundredsTail(n: int, r: string)
    requires 100 <= n < 1000 && if n % 100 == 0 then r == "" else r == NumberToWords(n % 100)
    ensures if n % 100 == 0 then r == "" else Reads100(r, n % 100)
  {
    if n % 100 != 0 {
      Parse100Words(n % 100);
    }
  }

  lemma Parse1000Words(n: int)
    requires 0 <= n < 1000
    ensures Reads1000(NumberToWords(n), n)
  {
    var w := NumberToWords(n);
    if n < 100 {
      Parse100Words(n);
      SmallReads1000(w, n);
    } else {
      var r := HundredsParts(n);
      HundredsTail(n, r);
      HundredsRead(w, n, n / 100, r, n % 100);
    }
  }

  // ----- Thousands -----

  lemma Tausend()
    ensures |TAUSEND| == 7 && TAUSEND[..2] == "ta" && TAUSEND[1] == 'a' && TAUSEND[2] == 'u'
  {
  }

  lemma TausendMark(k: string, r: string)
    requires k != "" && NoPair(k, 'a', 'u')
    ensures FindPair(k + TAUSEND + r, 'a', 'u') == |k| + 1 && |TAUSEND| == 7
  {
    var s, ta := k + TAUSEND + r, "ta";
    Tausend();
    assert s[..|k| + 2] == k + ta;
    NoPairConcat(k, ta, 'a', 'u');
    FindPairAt(s, |k| + 1, 'a', 'u');
  }

  lemma ParseThousandsOf(k: string, r: string)
    requires k != "" && NoPair(k, 'a', 'u')
    ensures ParseMillion(k + TAUSEND + r)
            == Sum(Times(1000, ParseThousands(k)), if r == "" then Some(0) else Parse1000(r))
  {
    var s := k + TAUSEND + r;
    TausendMark(k, r);
    assert s[..|k|] == k && s[|k| + 7..] == r;
  }

  ghost predicate ReadsMillion(s: string, n: int) {
    ParseMillion(s) == Some(n) && s != "" && s[0] != 'm' && !IsDigit(s[0])
  }

  lemma ThousandsValue(w: string, n: int, count: string, k: int, r: string, rest: int)
    requires count != "" && NoPair(count, 'a', 'u') && ParseThousands(count) == Some(k)
    requires if rest == 0 then r == "" else r != "" && Parse1000(r) == Some(rest)
    requires w == count + TAUSEND + r && n == 1000 * k + rest
    ensures ParseMillion(w) == Some(n)
  {
    calc {
      ParseMillion(w);
      { ParseThousandsOf(count, r); }
      Sum(Times(1000, ParseThousands(count)), if r == "" then Some(0) else Parse1000(r));
      { SumOfRead(ParseThousands(count), k, if r == "" then Some(0) else Parse1000(r), rest); }
      Some(n);
    }
  }

  lemma SumOfRead(a: Option<int>, k: int, b: Option<int>, rest: int)
    requires a == Some(k) && b == Some(rest)
    ensures Sum(Times(1000, a), b) == Some(1000 * k + rest)
  {
  }

  lemma StartsLikeItsCount(w: string, count: string, r: string)
    requires Bounded(count) && w == count + TAUSEND + r
    ensures w != "" && w[0] != 'm' && !IsDigit(w[0])
  {
  }

  lemma NotEmpty(r: string, rest: int)
    requires Reads1000(r, rest)
    ensures r != "" && Parse1000(r) == Some(rest)
  {
  }

  lemma CountWord(k: int) returns (count: string)
    requires 1 <= k < 1000
    ensures count == if k == 1 then EIN else NumberToWords(k)
    ensures ParseThousands(count) == Some(k) && NoPair(count, 'a', 'u') && Bounded(count)
  {
    if k == 1 {
      EinIsBelow1000();
      count := EIN;
    } else {
      Parse1000Words(k);
      count := NumberToWords(k);
    }
  }

  lemma TailWord(rest: int) returns (r: string)
    requires 0 <= rest < 1000
    ensures r == if rest == 0 then "" else NumberToWords(rest)
    ensures if rest == 0 then r == "" else r != "" && Parse1000(r) == Some(rest)
  {
    if rest == 0 {
      r := "";
    } else {
      Parse1000Words(rest);
      r := NumberToWords(rest);
      NotEmpty(r, rest);
    }
  }

  lemma ThousandsParts(n: int, count: string, r: string)
    requires 1000 <= n < MILLION
    requires count == if n / 1000 == 1 then EIN else NumberToWords(n / 1000)
    requires r == if n % 1000 == 0 then "" else NumberToWords(n % 1000)
    ensures NumberToWords(n) == count + TAUSEND + r
  {
  }

  lemma SmallReadsMillion(s: string, n: int)
    requires Reads1000(s, n)
    ensures ReadsMillion(s, n)
  {
    FindPairNone(s, 'a', 'u');
  }

  lemma ParseMillionWords(n: int)
    requires 0 <= n < MILLION
    ensures ReadsMillion(NumberToWords(n), n)
  {
    if n < 1000 {
      Parse1000Words(n);
      SmallReadsMillion(NumberToWords(n), n);
    } else {
      ParseThousandsWords(n);
    }
  }

  /** The words of a number from a thousand on, as their count and what follows. */
  lemma TakenApart(n: int) returns (count: string, k: int, r: string, rest: int)
    requires 1000 <= n < MILLION
    ensures NumberToWords(n) == count + TAUSEND + r && n == 1000 * k + rest
    ensures ThousandsAndRest(count, k, r, rest)
  {
    k, rest := n / 1000, n % 1000;
    count := CountWord(k);
    r := TailWord(rest);
    ThousandsParts(n, count, r);
  }

  ghost predicate ThousandsAndRest(count: string, k: int, r: string, rest: int) {
    && ParseThousands(count) == Some(k) && NoPair(count, 'a', 'u') && Bounded(count)
    && if rest == 0 then r == "" else r != "" && Parse1000(r) == Some(rest)
  }

  lemma ThousandsReadMillion(w: string, n: int, count: string, k: int, r: string, rest: int)
    requires ThousandsAndRest(count, k, r, rest)
    requires w == count + TAUSEND + r && n == 1000 * k + rest
    ensures ReadsMillion(w, n)
  {
    ThousandsValue(w, n, count, k, r, rest);
    StartsLikeItsCount(w, count, r);
  }

  lemma ParseThousandsWords(n: int)
    requires 1000 <= n < MILLION
    ensures ReadsMillion(NumberToWords(n), n)
  {
    var count, k, r, rest := TakenApart(n);
    ThousandsReadMillion(NumberToWords(n), n, count, k, r, rest);
  }

  // ----- Every integer -----

  ghost predicate ReadsNatural(s: string, n: int) { ParseNatural(s) == Some(n) && !(MINUS <= s) }

  lemma WordReadsNatural(s: string, n: int)
    requires ReadsMillion(s, n)
    ensures ReadsNatural(s, n)
  {
    assert MINUS[0] == 'm';
  }

  lemma DigitsReadNatural(n: nat)
    ensures ReadsNatural(Decimal(n), n)
  {
    DecimalRoundTrip(n);
    assert MINUS[0] == 'm' && IsDigit(Decimal(n)[0]);
  }

  lemma ParseNaturalWords(n: nat)
    ensures ReadsNatural(NumberToWords(n), n)
  {
    if n < MILLION {
      ParseMillionWords(n);
      WordReadsNatural(NumberToWords(n), n);
    } else {
      DigitsReadNatural(n);
    }
  }

  /** The value `Parse` settles on before it checks that the words are exactly its own. */
  function Candidate(s: string): Option<int> {
    if MINUS <= s && 6 <= |s| then Times(-1, ParseNatural(s[6..])) else ParseNatural(s)
  }

  lemma CandidateOfMinus(w: string, n: int)
    requires ReadsNatural(w, n)
    ensures Candidate(MINUS + w) == Some(-n)
  {
    MinusOff(w);
  }

  lemma CandidateOfWords(n: int)
    ensures Candidate(NumberToWords(n)) == Some(n)
  {
    if n < 0 {
      ParseNaturalWords(-n);
      CandidateOfMinus(NumberToWords(-n), -n);
    } else {
      ParseNaturalWords(n);
    }
  }

  lemma MinusOff(w: string)
    ensures |MINUS| == 6 && MINUS <= MINUS + w && (MINUS + w)[6..] == w
  {
    assert |MINUS| == 6;
  }

  /** The number a text is the spoken form of. */
  function Parse(s: string): Option<int> {
    var n := Candidate(s);
    if n.Some? && NumberToWords(n.value) == s then n else None
  }

  /** Every integer, negative and beyond a million included, is recovered from its words, and nothing else is read. */
  lemma {:induction false} ParseIsTheInverse(s: string, n: int)
    ensures Parse(s) == Some(n) <==> s == NumberToWords(n)
  {
    CandidateOfWords(n);
  }

  /** No two integers are spoken alike. */
  lemma {:induction false} NoTwoNumbersSoundAlike(m: int, n: int)
    ensures NumberToWords(m) == NumberToWords(n) <==> m == n
  {
    ParseIsTheInverse(NumberToWords(m), m);
    ParseIsTheInverse(NumberToWords(m), n);
  }
}
