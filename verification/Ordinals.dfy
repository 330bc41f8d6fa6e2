/** German ordinals with their inflected forms, and years, over the cardinals of `NumberWords`. */
module Ordinals {
  import opened Decimals
  import opened NumberWords

  const STER := "ster"
  const ER := "er"

  predicate InOrdinalTable(n: int) { 1 <= n <= 20 || n == 30 }

  function OrdinalWord(n: int): string
    requires InOrdinalTable(n)
  {
    if n == 1 then "erster" else if n == 2 then "zweiter" else if n == 3 then "dritter" else if n == 4 then "vierter"
    else if n == 5 then "fünfter" else if n == 6 then "sechster" else if n == 7 then "siebter"
    else if n == 8 then "achter" else if n == 9 then "neunter" else if n == 10 then "zehnter"
    else if n == 11 then "elfter" else if n == 12 then "zwölfter" else if n == 13 then "dreizehnter"
    else if n == 14 then "vierzehnter" else if n == 15 then "fünfzehnter" else if n == 16 then "sechzehnter"
    else if n == 17 then "siebzehnter" else if n == 18 then "achtzehnter" else if n == 19 then "neunzehnter"
    else if n == 20 then "zwanzigster" else "dreißigster"
  }

  predicate EndsWith(s: string, t: string) { |t| <= |s| && s[|s| - |t|..] == t }

  /** `s` without the last `n` characters. */
  function Drop(s: string, n: nat): string { if n <= |s| then s[..|s| - n] else "" }

  function OrdinalToWords(n: int): string
    decreases n >= 100
  {
    if InOrdinalTable(n) then OrdinalWord(n)
    else if n < 100 then NumberToWords(n) + STER
    else if n < MILLION then
      var cardinal, suffix := NumberToWords(n), NumberToWords(n % 100);
      if n % 100 == 0 || !EndsWith(cardinal, suffix) then cardinal + STER
      else Drop(cardinal, |suffix|) + OrdinalToWords(n % 100)
    else Decimal(n) + "."
  }

  function OrdinalDative(n: int): string {
    var word := OrdinalToWords(n);
    if EndsWith(word, ER) || EndsWith(word, STER) then Drop(word, 2) + "en" else word
  }

  function OrdinalWeak(n: int): string {
    var word := OrdinalToWords(n);
    if EndsWith(word, ER) then Drop(word, 1) else word
  }

  function YearToWords(year: int): string {
    if 2000 <= year < 2100 then
      if year == 2000 then "zweitausend" else "zweitausend" + NumberToWords(year - 2000)
    else if year < MILLION then NumberToWords(year)
    else Decimal(year)
  }

  // ----- The last two digits are the end of the cardinal -----

  lemma EndsWithAppended(s: string, stem: string, t: string)
    requires s == stem + t
    ensures EndsWith(s, t) && Drop(s, |t|) == stem
  {
  }

  lemma HundredsSplit(n: int) returns (stem: string)
    requires 100 <= n < 1000 && n % 100 != 0
    ensures NumberToWords(n) == stem + NumberToWords(n % 100)
  {
    stem := (if n / 100 == 1 then EIN else NumberToWords(n / 100)) + HUNDERT;
  }

  lemma ThousandsSplit(n: int) returns (head: string)
    requires 1000 <= n < MILLION && n % 1000 != 0
    ensures NumberToWords(n) == head + NumberToWords(n % 1000)
  {
    head := (if n / 1000 == 1 then EIN else NumberToWords(n / 1000)) + TAUSEND;
  }

  /** The cardinal split before the words of its last two digits. */
  lemma CardinalSplits(n: int) returns (stem: string)
    requires 100 <= n < MILLION && n % 100 != 0
    ensures NumberToWords(n) == stem + NumberToWords(n % 100)
  {
    if n < 1000 {
      stem := HundredsSplit(n);
    } else {
      LastTwoDigits(n);
      var head := ThousandsSplit(n);
      var inner := TailSplits(n % 1000);
      stem := head + inner;
      Regroup(NumberToWords(n), head, NumberToWords(n % 1000), inner, NumberToWords(n % 100));
    }
  }

  lemma LastTwoDigits(n: int)
    ensures n % 1000 % 100 == n % 100
  {
  }

  lemma TailSplits(rest: int) returns (stem: string)
    requires 0 < rest < 1000 && rest % 100 != 0
    ensures NumberToWords(rest) == stem + NumberToWords(rest % 100)
  {
    if rest < 100 {
      stem := "";
      assert rest % 100 == rest;
      NothingInFront(NumberToWords(rest));
    } else {
      stem := HundredsSplit(rest);
    }
  }

  lemma NothingInFront(s: string)
    ensures "" + s == s
  {
  }

  lemma Regroup(s: string, head: string, rest: string, inner: string, tail: string)
    requires s == head + rest && rest == inner + tail
    ensures s == head + inner + tail
  {
  }

  /** From a hundred to a million an ordinal is its cardinal with the last two digits made ordinal;
      the fallback for a cardinal that ends differently is never taken. */
  lemma OrdinalReplacesTheTail(n: int) returns (stem: string)
    requires 100 <= n < MILLION && n % 100 != 0
    ensures NumberToWords(n) == stem + NumberToWords(n % 100)
    ensures EndsWith(NumberToWords(n), NumberToWords(n % 100))
    ensures OrdinalToWords(n) == stem + OrdinalToWords(n % 100)
  {
    stem := CardinalSplits(n);
    EndsWithAppended(NumberToWords(n), stem, NumberToWords(n % 100));
  }

  // ----- How an ordinal is made of its cardinal -----

  /** The table is regular but for four: up to nineteen the cardinal with "ter", from twenty on with "ster". */
  lemma TableIsRegular(n: int)
    requires InOrdinalTable(n)
    ensures OrdinalWord(n) == if n == 1 then "erster" else if n == 3 then "dritter" else if n == 7 then "siebter"
                              else if n == 8 then "achter" else NumberToWords(n) + (if n < 20 then "ter" else "ster")
  {
    if n in [1, 3, 7, 8] {
    } else if n <= 10 {
      LowTableIsRegular(n);
    } else if n < 20 {
      TeenTableIsRegular(n);
    }
  }

  lemma LowTableIsRegular(n: int)
    requires 1 <= n <= 10 && n !in [1, 3, 7, 8]
    ensures OrdinalWord(n) == NumberToWords(n) + "ter"
  {
  }

  lemma TeenTableIsRegular(n: int)
    requires 11 <= n < 20
    ensures OrdinalWord(n) == NumberToWords(n) + "ter"
  {
  }

  /** Outside the table, and with nothing of it at the end, an ordinal is the cardinal with "ster"; from a million on
      the figure with a dot. */
  lemma OrdinalsWithSter(n: int)
    ensures n < 100 && !InOrdinalTable(n) ==> OrdinalToWords(n) == NumberToWords(n) + "ster"
    ensures 100 <= n < 1_000_000 && n % 100 == 0 ==> OrdinalToWords(n) == NumberToWords(n) + "ster"
    ensures n >= 1_000_000 ==> OrdinalToWords(n) == Decimal(n) + "."
  {
  }

  // ----- Every ordinal ends in "er" -----

  lemma LowTableEndsInEr(n: int)
    requires 1 <= n <= 10
    ensures EndsWith(OrdinalWord(n), ER)
  {
  }

  lemma HighTableEndsInEr(n: int)
    requires InOrdinalTable(n) && n > 10
    ensures EndsWith(OrdinalWord(n), ER)
  {
  }

  lemma SterEndsInEr(s: string)
    ensures EndsWith(s + STER, ER)
  {
    assert |STER| == 4 && STER[2..] == ER;
  }

  lemma AppendEndsInEr(s: string, t: string)
    requires EndsWith(t, ER)
    ensures EndsWith(s + t, ER)
  {
  }

  lemma OrdinalEndsInEr(n: int)
    ensures EndsWith(OrdinalToWords(n), ER) <==> n < MILLION
    decreases n >= 100
  {
    if InOrdinalTable(n) {
      if n <= 10 {
        LowTableEndsInEr(n);
      } else {
        HighTableEndsInEr(n);
      }
    } else if n < 100 || (n % 100 == 0 && n < MILLION) {
      SterEndsInEr(NumberToWords(n));
    } else if n < MILLION {
      var stem := OrdinalReplacesTheTail(n);
      OrdinalEndsInEr(n % 100);
      AppendEndsInEr(stem, OrdinalToWords(n % 100));
    } else {
      assert ER[1] == 'r';
    }
  }

  /** Below a million the three forms share one stem: -er, -en, -e. */
  lemma InflectedForms(n: int) returns (stem: string)
    requires n < MILLION
    ensures OrdinalToWords(n) == stem + ER && OrdinalDative(n) == stem + "en" && OrdinalWeak(n) == stem + "e"
  {
    OrdinalEndsInEr(n);
    var word := OrdinalToWords(n);
    stem := Drop(word, 2);
    assert |ER| == 2 && ER[..1] == "e";
    assert word == stem + ER;
    assert Drop(word, 1) == stem + "e";
  }

  // ----- Years -----

  /** A year is said as the number it is. */
  lemma YearsAreNumbers(year: int)
    ensures YearToWords(year) == NumberToWords(year)
  {
    if 2000 <= year < 2100 {
      TwoThousand(year, year - 2000);
    }
  }

  lemma TwoThousand(year: int, rest: int)
    requires year == 2000 + rest && 0 <= rest < 100
    ensures NumberToWords(year) == if rest == 0 then "zweitausend" else "zweitausend" + NumberToWords(rest)
  {
    assert year / 1000 == 2 && year % 1000 == rest;
    assert NumberToWords(2) == Word(2) == "zwei";
    assert "zwei" + TAUSEND == "zweitausend";
  }
}
