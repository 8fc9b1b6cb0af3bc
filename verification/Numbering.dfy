/** From an allocated number to the text on the invoice to the payment reference: no two
    numbers of four-digit years ever meet. */
module Numbering {
  import opened Text
  import opened Ledger
  import opened Reports
  import opened Ocr
  import opened Workflow
  import opened Guarantees

  predicate FourDigitYear(number: Number) {
    1000 <= number.year <= 9999
  }

  lemma {:induction false} DigitsOfAppend(a: string, b: string)
    ensures DigitsOf(a + b) == DigitsOf(a) + DigitsOf(b)
  {
    if a == [] {
      assert a + b == b;
    } else {
      assert (a + b)[1..] == a[1..] + b;
      DigitsOfAppend(a[1..], b);
    }
  }

  lemma {:induction false} DigitsOfDigits(s: string)
    requires AllDigits(s)
    ensures DigitsOf(s) == s
  {
    if s != [] {
      DigitsOfDigits(s[1..]);
      assert [s[0]] + s[1..] == s;
    }
  }

  lemma FourDigits(year: nat)
    requires 1000 <= year <= 9999
    ensures |Decimal(year)| == 4
  {
    assert |Decimal(year / 10 / 10 / 10)| == 1;
    assert |Decimal(year / 10 / 10)| == 2;
    assert |Decimal(year / 10)| == 3;
  }

  lemma DigitsAround(year: string, dash: string, count: string)
    requires AllDigits(year) && AllDigits(count) && DigitsOf(dash) == []
    ensures DigitsOf(year + dash + count) == year + count
  {
    DigitsOfAppend(year + dash, count);
    DigitsOfAppend(year, dash);
    DigitsOfDigits(year);
    DigitsOfDigits(count);
    assert year + [] == year;
  }

  lemma DashHasNoDigits()
    ensures DigitsOf("-") == []
  {
    assert "-"[1..] == [];
  }

  /** The year's four digits and the padded count, with nothing between them. */
  lemma DigitsOfNumber(number: Number)
    requires FourDigitYear(number)
    ensures DigitsOf(NumberText(number)) == Decimal(number.year) + PadStart(Decimal(number.n), 4, '0')
  {
    PaddedReadsBack(number.n, 4);
    DashHasNoDigits();
    DigitsAround(Decimal(number.year), "-", PadStart(Decimal(number.n), 4, '0'));
  }

  /** What a printed number says: the year, a dash, and the count in at least four digits. */
  lemma NumberReadsBack(number: Number)
    requires FourDigitYear(number)
    ensures var text := NumberText(number);
      && |text| >= 9 && text[4] == '-'
      && AllDigits(text[..4]) && DecimalValue(text[..4]) == number.year
      && AllDigits(text[5..]) && DecimalValue(text[5..]) == number.n
      && (|text| > 9 ==> text[5] != '0')
  {
    var year, count := Decimal(number.year), PadStart(Decimal(number.n), 4, '0');
    FourDigits(number.year);
    DecimalReadsBack(number.year);
    PaddedReadsBack(number.n, 4);
    NoLeadingZero(number.n);
    CutAtDash(year, count);
  }

  lemma CutAtDash(year: string, count: string)
    requires |year| == 4 && |count| >= 4
    ensures var text := year + "-" + count;
      |text| == 5 + |count| && text[..4] == year && text[4] == '-' && text[5..] == count && text[5] == count[0]
  {
  }

  lemma {:induction false} NoLeadingZero(n: nat)
    ensures |Decimal(n)| > 1 ==> Decimal(n)[0] != '0'
  {
    if n >= 10 {
      NoLeadingZero(n / 10);
      if n < 100 {
        assert Decimal(n / 10) == [DigitChar(n / 10)];
      }
    }
  }

  /** Number, invoice text and reference determine each other. */
  lemma ReferencesAreUnique(a: Number, b: Number)
    requires FourDigitYear(a) && FourDigitYear(b)
    ensures OcrReference(NumberText(a)).Ok? && OcrReference(NumberText(b)).Ok?
    ensures OcrReference(NumberText(a)) == OcrReference(NumberText(b)) <==> a == b
    ensures NumberText(a) == NumberText(b) <==> a == b
  {
    DigitsOfNumber(a);
    DigitsOfNumber(b);
    ReferenceIsInjective(DigitsOf(NumberText(a)), DigitsOf(NumberText(b)));
    if DigitsOf(NumberText(a)) == DigitsOf(NumberText(b)) {
      SameDigitsSameNumber(a, b);
    }
  }

  /** After any run, two live documents of four-digit years print different numbers and ask to be paid
      under different references. */
  lemma PaymentReferencesAreUnique(es: seq<Event>, a: Id, b: Id)
    requires Live(Run(es).db, a) && Live(Run(es).db, b) && a != b
    requires FourDigitYear(At(Run(es).db, a).number) && FourDigitYear(At(Run(es).db, b).number)
    ensures var x, y := NumberText(At(Run(es).db, a).number), NumberText(At(Run(es).db, b).number);
      x != y && OcrReference(x).Ok? && OcrReference(y).Ok? && OcrReference(x) != OcrReference(y)
  {
    NumbersAreUnique(es, a, b);
    ReferencesAreUnique(At(Run(es).db, a).number, At(Run(es).db, b).number);
  }

  lemma SameDigitsSameNumber(a: Number, b: Number)
    requires FourDigitYear(a) && FourDigitYear(b)
    requires Decimal(a.year) + PadStart(Decimal(a.n), 4, '0') == Decimal(b.year) + PadStart(Decimal(b.n), 4, '0')
    ensures a == b
  {
    FourDigits(a.year);
    FourDigits(b.year);
    CutSame(Decimal(a.year), PadStart(Decimal(a.n), 4, '0'), Decimal(b.year), PadStart(Decimal(b.n), 4, '0'));
    DecimalReadsBack(a.year);
    DecimalReadsBack(b.year);
    PaddedReadsBack(a.n, 4);
    PaddedReadsBack(b.n, 4);
  }

  lemma CutSame(a: string, x: string, b: string, y: string)
    requires |a| == |b| && a + x == b + y
    ensures a == b && x == y
  {
    assert (a + x)[..|a|] == a && (b + y)[..|b|] == b;
    assert (a + x)[|a|..] == x && (b + y)[|b|..] == y;
  }

  lemma SumOfOneMore(digits: string, c: char, double: bool)
    requires AllDigits(digits) && IsDigit(c)
    ensures LuhnSum(digits + [c], double) == Weighed(DigitValue(c), double) + LuhnSum(digits, !double)
  {
    assert (digits + [c])[..|digits|] == digits;
  }

  lemma ExampleYear() returns (year: string)
    ensures year == "2026" && LuhnSum(year, false) == 14
  {
    year := ['2'];
    assert LuhnSum([], false) == 0;
    SumOfOneMore([], '2', true);
    SumOfOneMore(['2'], '0', false);
    SumOfOneMore(['2', '0'], '2', true);
    SumOfOneMore(['2', '0', '2'], '6', false);
    year := ['2', '0', '2', '6'];
    assert ['2', '0', '2'] + ['6'] == year && ['2', '0'] + ['2'] == ['2', '0', '2'] && ['2'] + ['0'] == ['2', '0'];
  }

  /** The example in the source's own comment, invoice 2026-0007: its check digit is 9, not 8. */
  lemma DocumentedExample()
    ensures CheckDigit("2026" + "0007" + "0") == 9
  {
    var year := ExampleYear();
    SumOfOneMore(year, '0', true);
    SumOfOneMore(year + ['0'], '0', false);
    SumOfOneMore(year + ['0'] + ['0'], '0', true);
    SumOfOneMore(year + ['0'] + ['0'] + ['0'], '7', false);
    SumOfOneMore(year + ['0'] + ['0'] + ['0'] + ['7'], '0', true);
    assert "2026" + "0007" + "0" == year + ['0'] + ['0'] + ['0'] + ['7'] + ['0'];
  }
}
