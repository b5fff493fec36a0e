/** How a tax invoice number is spelled, and why two of them never collide. */
module InvoiceNumber {
  import opened Common

  const SERIES := "INV"
  const LONGEST := 16

  function Digit(d: nat): (c: char)
    requires d < 10
    ensures '0' <= c <= '9'
  {
    '0' + (d as char)
  }

  function DigitValue(c: char): nat {
    if '0' <= c <= '9' then (c - '0') as nat else 0
  }

  function TwoDigits(n: nat): (s: string)
    requires n < 100
    ensures |s| == 2
  {
    [Digit(n / 10), Digit(n % 10)]
  }

  function CodeOf(start: nat): (code: string)
    ensures |code| == 4
  {
    TwoDigits(start % 100) + TwoDigits((start + 1) % 100)
  }

  function StartYear(year: nat, month: nat): nat
    requires year >= 1
  {
    if month >= 4 then year else year - 1
  }

  /** "2627" for the year that starts in April 2026. */
  function FinancialYearCode(year: nat, month: nat): (code: string)
    requires year >= 1 && 1 <= month <= 12
    ensures |code| == 4
  {
    CodeOf(StartYear(year, month))
  }

  function Decimal(n: nat): (s: string)
    ensures |s| >= 1 && forall c :: c in s ==> '0' <= c <= '9'
  {
    if n < 10 then [Digit(n)] else Decimal(n / 10) + [Digit(n % 10)]
  }

  function Zeros(k: nat): (s: string)
    ensures |s| == k && forall c :: c in s ==> c == '0'
  {
    if k == 0 then "" else "0" + Zeros(k - 1)
  }

  /** At least six digits, never truncated. */
  function Padded(n: nat): string {
    var s := Decimal(n);
    if |s| < 6 then Zeros(6 - |s|) + s else s
  }

  function Format(series: string, year: string, sequence: nat): string {
    if year != "" then series + "/" + year + "/" + Padded(sequence) else series + "/" + Padded(sequence)
  }

  // ---------- Reading a number back ----------

  function Value(s: string): nat {
    if s == "" then 0 else 10 * Value(s[..|s| - 1]) + DigitValue(s[|s| - 1])
  }

  function Parse(series: string, number: string): Option<(string, nat)> {
    if |number| <= |series| || number[..|series|] != series || number[|series|] != '/' then None
    else
      var rest := number[|series| + 1..];
      if |rest| > 4 && rest[4] == '/' then Some((rest[..4], Value(rest[5..]))) else Some(("", Value(rest)))
  }

  predicate YearCode(year: string) { year == "" || |year| == 4 }

  lemma {:induction false} ValueOfDecimal(n: nat)
    ensures Value(Decimal(n)) == n
  {
    if n < 10 {
      assert Decimal(n)[..0] == "";
      assert Value(Decimal(n)) == 10 * Value("") + DigitValue(Digit(n));
    } else {
      ValueOfDecimal(n / 10);
      assert Decimal(n)[..|Decimal(n)| - 1] == Decimal(n / 10);
    }
  }

  lemma {:induction false} ValueOfZeros(z: string)
    requires forall i :: 0 <= i < |z| ==> z[i] == '0'
    ensures Value(z) == 0
  {
    if z == "" {
    } else {
      ValueOfZeros(z[..|z| - 1]);
    }
  }

  lemma {:induction false} ValueOfPadded(k: nat, s: string)
    ensures Value(Zeros(k) + s) == Value(s)
  {
    if s == "" {
      assert Zeros(k) + s == Zeros(k);
      assert forall i :: 0 <= i < k ==> Zeros(k)[i] in Zeros(k);
      ValueOfZeros(Zeros(k));
    } else {
      ValueOfPadded(k, s[..|s| - 1]);
      assert (Zeros(k) + s)[..|Zeros(k) + s| - 1] == Zeros(k) + s[..|s| - 1];
    }
  }

  lemma ValueOfPaddedDecimal(n: nat)
    ensures Value(Padded(n)) == n && |Padded(n)| >= 6 && Padded(n)[4] != '/'
  {
    ValueOfDecimal(n);
    if |Decimal(n)| < 6 {
      ValueOfPadded(6 - |Decimal(n)|, Decimal(n));
    }
    assert Padded(n)[4] in Padded(n);
  }

  /** The parser inverts the formatter, on every sequence and every year code. */
  lemma ParseInvertsFormat(series: string, year: string, sequence: nat)
    requires YearCode(year)
    ensures Parse(series, Format(series, year, sequence)) == Some((year, sequence))
  {
    var p := Padded(sequence);
    ValueOfPaddedDecimal(sequence);
    var number := Format(series, year, sequence);
    assert number[..|series|] == series && number[|series|] == '/';
    var rest := number[|series| + 1..];
    if year != "" {
      assert rest == year + "/" + p;
      assert rest[..4] == year && rest[5..] == p;
    } else {
      assert rest == p;
    }
  }

  /** So formatting is injective: with or without a year, in any century. */
  lemma FormatInjective(series: string, y1: string, n1: nat, y2: string, n2: nat)
    requires YearCode(y1) && YearCode(y2)
    requires Format(series, y1, n1) == Format(series, y2, n2)
    ensures y1 == y2 && n1 == n2
  {
    ParseInvertsFormat(series, y1, n1);
    ParseInvertsFormat(series, y2, n2);
  }

  // ---------- The sixteen-character limit ----------

  function Pow10(k: nat): nat {
    if k == 0 then 1 else 10 * Pow10(k - 1)
  }

  lemma {:induction false} Pow10Grows(k: nat)
    requires k >= 1
    ensures Pow10(k) >= 10
  {
    if k == 1 {
    } else {
      Pow10Grows(k - 1);
    }
  }

  lemma {:induction false} DecimalLength(n: nat, k: nat)
    requires k >= 1
    ensures |Decimal(n)| <= k <==> n < Pow10(k)
  {
    if n < 10 {
      Pow10Grows(k);
    } else if k == 1 {
      assert Pow10(1) == 10 * Pow10(0);
    } else {
      DecimalLength(n / 10, k - 1);
    }
  }

  /** The service refuses a number longer than sixteen characters. With a year in
      the number that happens at ten million, without one at a million million. */
  lemma LegalIff(year: string, sequence: nat)
    requires YearCode(year)
    ensures |Format(SERIES, year, sequence)| <= LONGEST
      <==> sequence < if year == "" then 1_000_000_000_000 else 10_000_000
  {
    DecimalLength(sequence, 7);
    DecimalLength(sequence, 12);
    assert Pow10(7) == 10_000_000;
    assert Pow10(12) == 1_000_000_000_000;
  }

  lemma TwoDigitsSpell(n: nat)
    requires n < 100
    ensures 10 * DigitValue(TwoDigits(n)[0]) + DigitValue(TwoDigits(n)[1]) == n
  {
  }

  /** The code spells the last two digits of the year that started in the latest
      April, and of the one after it. */
  lemma CodeNamesYear(year: nat, month: nat)
    requires year >= 1 && 1 <= month <= 12
    ensures var code := FinancialYearCode(year, month); var start := if month < 4 then year - 1 else year;
      && |code| == 4
      && 10 * DigitValue(code[0]) + DigitValue(code[1]) == start % 100
      && 10 * DigitValue(code[2]) + DigitValue(code[3]) == (start + 1) % 100
  {
    TwoDigitsSpell(StartYear(year, month) % 100);
    TwoDigitsSpell((StartYear(year, month) + 1) % 100);
  }

  lemma NextInCentury(a: nat)
    ensures (a + 1) % 100 == if a % 100 == 99 then 0 else a % 100 + 1
  {
  }

  lemma TwoDigitsInjective(a: nat, b: nat)
    requires a < 100 && b < 100 && TwoDigits(a) == TwoDigits(b)
    ensures a == b
  {
  }

  lemma SameCodeIff(a: nat, b: nat)
    ensures CodeOf(a) == CodeOf(b) <==> a % 100 == b % 100
  {
    if CodeOf(a) == CodeOf(b) {
      assert TwoDigits(a % 100) == CodeOf(a)[..2];
      assert TwoDigits(b % 100) == CodeOf(b)[..2];
      TwoDigitsInjective(a % 100, b % 100);
    }
    NextInCentury(a);
    NextInCentury(b);
  }

  /** Year codes repeat every century, and only then. */
  lemma YearCodesRepeat(y1: nat, m1: nat, y2: nat, m2: nat)
    requires y1 >= 1 && y2 >= 1 && 1 <= m1 <= 12 && 1 <= m2 <= 12
    ensures FinancialYearCode(y1, m1) == FinancialYearCode(y2, m2)
      <==> StartYear(y1, m1) % 100 == StartYear(y2, m2) % 100
  {
    SameCodeIff(StartYear(y1, m1), StartYear(y2, m2));
  }
}
