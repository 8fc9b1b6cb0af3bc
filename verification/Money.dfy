/** backend/src/lib/money.ts: every calculation on öre.
    Amounts are mathematical integers; the quotients that are rounded are exact
    rationals, written as `real`. That is what binary64 computes as long as net times rate stays below
    2^53 in absolute value. */
module Money {
  datatype LineInput = LineInput(quantity: int, unitPriceOre: int, vatRate: int)

  datatype CalculatedLine = CalculatedLine(netOre: int, vatOre: int, grossOre: int)

  datatype Totals = Totals(netTotalOre: int, vatTotalOre: int, grossTotalOre: int)

  const VALID_VAT_RATES: set<int> := {2500, 1200, 600, 0}

  const REFERENCE_RATE_BASIS_POINTS := 200

  const LATE_INTEREST_MARKUP_BASIS_POINTS := 800

  const REMINDER_FEE_ORE := 6000

  const MS_PER_DAY := 24 * 60 * 60 * 1000

  /** JavaScript's Math.round: half goes toward positive infinity. */
  function MathRound(value: real): int {
    (value + 0.5).Floor
  }

  function RoundOre(value: real): int {
    if value < 0.0 then -MathRound(-value) else MathRound(value)
  }

  function CalculateLine(line: LineInput): CalculatedLine {
    var netOre := line.quantity * line.unitPriceOre;
    var vatOre := RoundOre((netOre * line.vatRate) as real / 10000.0);
    CalculatedLine(netOre, vatOre, netOre + vatOre)
  }

  function SumNet(lines: seq<CalculatedLine>): int {
    if lines == [] then 0 else SumNet(lines[..|lines| - 1]) + lines[|lines| - 1].netOre
  }

  function SumVat(lines: seq<CalculatedLine>): int {
    if lines == [] then 0 else SumVat(lines[..|lines| - 1]) + lines[|lines| - 1].vatOre
  }

  function SumGross(lines: seq<CalculatedLine>): int {
    if lines == [] then 0 else SumGross(lines[..|lines| - 1]) + lines[|lines| - 1].grossOre
  }

  function TotalsOf(lines: seq<CalculatedLine>): Totals {
    Totals(SumNet(lines), SumVat(lines), SumNet(lines) + SumVat(lines))
  }

  /** The loop of sumLines, against the three independent sums. */
  method SumLines(lines: seq<CalculatedLine>) returns (totals: Totals)
    ensures totals == TotalsOf(lines)
  {
    var netTotalOre, vatTotalOre := 0, 0;
    for i := 0 to |lines|
      invariant netTotalOre == SumNet(lines[..i]) && vatTotalOre == SumVat(lines[..i])
    {
      assert lines[..i + 1][..i] == lines[..i];
      netTotalOre := netTotalOre + lines[i].netOre;
      vatTotalOre := vatTotalOre + lines[i].vatOre;
    }
    assert lines[..|lines|] == lines;
    totals := Totals(netTotalOre, vatTotalOre, netTotalOre + vatTotalOre);
  }

  function TotalDueOre(grossTotalOre: int, lateFeeOre: int, reminderFeeOre: int): int {
    grossTotalOre + lateFeeOre + reminderFeeOre
  }

  function CalculateLateInterest(outstandingOre: int, daysLate: int, referenceRateBasisPoints: int): int {
    if daysLate <= 0 || outstandingOre <= 0 then
      0
    else
      var annualRate := referenceRateBasisPoints + LATE_INTEREST_MARKUP_BASIS_POINTS;
      RoundOre((outstandingOre * annualRate * daysLate) as real / 10000.0 / 365.0)
  }

  /** Whole days between two instants in milliseconds, floored, never negative. */
  function DaysBetween(from: int, to: int): nat {
    var days := (to - from) / MS_PER_DAY;
    if days < 0 then 0 else days
  }

  // --- What rounding means ---

  /** RoundOre is the nearest integer, and of two equally near the one farther from zero. */
  ghost predicate NearestAwayFromZero(value: real, r: int) {
    var d := r as real - value;
    || -0.5 < d < 0.5
    || (d == 0.5 && value > 0.0)
    || (d == -0.5 && value < 0.0)
  }

  lemma RoundOreIsNearest(value: real, r: int)
    ensures r == RoundOre(value) <==> NearestAwayFromZero(value, r)
  {
    if value < 0.0 {
      var f := (-value + 0.5).Floor;
      assert f as real <= -value + 0.5 < f as real + 1.0;
    } else {
      var f := (value + 0.5).Floor;
      assert f as real <= value + 0.5 < f as real + 1.0;
    }
  }

  lemma RoundOreIsOdd(value: real)
    ensures RoundOre(-value) == -RoundOre(value)
  {
    if value == 0.0 {
      assert (0.0 + 0.5).Floor == 0;
    }
  }

  lemma RoundOreIsMonotone(a: real, b: real)
    requires a <= b
    ensures RoundOre(a) <= RoundOre(b)
  {
    RoundOreIsNearest(a, RoundOre(a));
    RoundOreIsNearest(b, RoundOre(b));
  }

  // --- What the figures are ---

  /** Prices exclude VAT: the net of a line is quantity times unit price, its VAT is the rate's share of
      that in basis points, rounded, and its gross is the two together. */
  lemma LineInFigures(line: LineInput)
    ensures var c := CalculateLine(line);
      && c.netOre == line.quantity * line.unitPriceOre
      && NearestAwayFromZero((line.quantity * line.unitPriceOre * line.vatRate) as real / 10000.0, c.vatOre)
      && c.grossOre == line.quantity * line.unitPriceOre + c.vatOre
  {
    RoundOreIsNearest((line.quantity * line.unitPriceOre * line.vatRate) as real / 10000.0, CalculateLine(line).vatOre);
  }

  /** What was asked for, at the prices asked. */
  function Prices(lines: seq<LineInput>): int {
    if lines == [] then 0
    else
      var last := lines[|lines| - 1];
      Prices(lines[..|lines| - 1]) + last.quantity * last.unitPriceOre
  }

  /** The net total of any lines is the sum of quantity times unit price. */
  lemma {:induction false} NetTotalIsThePrices(lines: seq<LineInput>)
    ensures TotalsOf(Calculated(lines)).netTotalOre == Prices(lines)
  {
    if lines != [] {
      var n := |lines| - 1;
      assert Calculated(lines)[..n] == Calculated(lines[..n]);
      NetTotalIsThePrices(lines[..n]);
      LineInFigures(lines[n]);
    }
  }

  /** Late interest is simple interest by the day: the reference rate plus eight percentage points, in
      basis points a year of 365 days, on the amount, rounded; nothing before a day has passed. */
  lemma InterestInFigures(amountOre: int, days: int, rate: int)
    ensures var r := CalculateLateInterest(amountOre, days, rate);
      if amountOre > 0 && days > 0
      then NearestAwayFromZero((amountOre * (rate + 800) * days) as real / 3650000.0, r)
      else r == 0
  {
    if amountOre > 0 && days > 0 {
      var product := amountOre * (rate + 800) * days;
      assert product as real / 10000.0 / 365.0 == product as real / 3650000.0;
      RoundOreIsNearest(product as real / 3650000.0, CalculateLateInterest(amountOre, days, rate));
    }
  }

  /** A day is 86 400 000 milliseconds, and only whole ones count. */
  lemma DaysInMilliseconds(from: int, to: int)
    ensures var d := DaysBetween(from, to);
      && (from <= to ==> d * 86400000 <= to - from < (d + 1) * 86400000)
      && (to < from ==> d == 0)
  {
  }

  // --- Credit notes mirror invoices ---

  function NegatedQuantity(line: LineInput): LineInput {
    line.(quantity := -line.quantity)
  }

  function Negated(c: CalculatedLine): CalculatedLine {
    CalculatedLine(-c.netOre, -c.vatOre, -c.grossOre)
  }

  /** Negating the quantity of a line negates its net, VAT and gross exactly. */
  lemma MirroredLine(line: LineInput)
    ensures CalculateLine(NegatedQuantity(line)) == Negated(CalculateLine(line))
  {
    var net := line.quantity * line.unitPriceOre;
    assert (-line.quantity) * line.unitPriceOre == -net;
    assert (-net) * line.vatRate == -(net * line.vatRate);
    RoundOreIsOdd((net * line.vatRate) as real / 10000.0);
  }

  function Calculated(lines: seq<LineInput>): (cs: seq<CalculatedLine>)
    ensures |cs| == |lines|
    ensures forall i :: 0 <= i < |lines| ==> cs[i] == CalculateLine(lines[i])
  {
    seq(|lines|, i requires 0 <= i < |lines| => CalculateLine(lines[i]))
  }

  function Mirrored(lines: seq<LineInput>): (ms: seq<LineInput>)
    ensures |ms| == |lines|
    ensures forall i :: 0 <= i < |lines| ==> ms[i] == NegatedQuantity(lines[i])
  {
    seq(|lines|, i requires 0 <= i < |lines| => NegatedQuantity(lines[i]))
  }

  lemma {:induction false} NegatedSums(a: seq<CalculatedLine>, b: seq<CalculatedLine>)
    requires |a| == |b|
    requires forall i :: 0 <= i < |a| ==> b[i] == Negated(a[i])
    ensures SumNet(b) == -SumNet(a) && SumVat(b) == -SumVat(a)
  {
    if a == [] {
    } else {
      NegatedSums(a[..|a| - 1], b[..|b| - 1]);
    }
  }

  /** The totals of the mirrored document are minus the original's, for any lines at all. */
  lemma MirroredTotals(lines: seq<LineInput>)
    ensures var t, m := TotalsOf(Calculated(lines)), TotalsOf(Calculated(Mirrored(lines)));
            m == Totals(-t.netTotalOre, -t.vatTotalOre, -t.grossTotalOre)
  {
    forall i | 0 <= i < |lines|
      ensures Calculated(Mirrored(lines))[i] == Negated(Calculated(lines)[i])
    {
      MirroredLine(lines[i]);
    }
    NegatedSums(Calculated(lines), Calculated(Mirrored(lines)));
  }

  /** The gross total, computed as net plus VAT, is also the sum of the line gross figures. */
  lemma {:induction false} GrossIsSumOfLineGross(lines: seq<LineInput>)
    ensures TotalsOf(Calculated(lines)).grossTotalOre == SumGross(Calculated(lines))
  {
    if lines == [] {
    } else {
      var n := |lines| - 1;
      assert Calculated(lines)[..n] == Calculated(lines[..n]);
      GrossIsSumOfLineGross(lines[..n]);
    }
  }

  // --- The rounding bound ---

  /** Sum of net times rate: ten thousand times the VAT before rounding. */
  function UnroundedVat(lines: seq<LineInput>): int {
    if lines == [] then 0
    else
      var last := lines[|lines| - 1];
      UnroundedVat(lines[..|lines| - 1]) + last.quantity * last.unitPriceOre * last.vatRate
  }

  /** Rounding each line moves the VAT total by at most half an öre a line. */
  lemma {:induction false} RoundingBound(lines: seq<LineInput>)
    ensures -5000 * |lines|
            <= 10000 * TotalsOf(Calculated(lines)).vatTotalOre - UnroundedVat(lines)
            <= 5000 * |lines|
  {
    if lines == [] {
    } else {
      var n := |lines| - 1;
      assert Calculated(lines)[..n] == Calculated(lines[..n]);
      RoundingBound(lines[..n]);
      var x := lines[n].quantity * lines[n].unitPriceOre * lines[n].vatRate;
      LineRoundingBound(x);
    }
  }

  lemma LineRoundingBound(x: int)
    ensures -5000 <= 10000 * RoundOre(x as real / 10000.0) - x <= 5000
  {
    var r := RoundOre(x as real / 10000.0);
    RoundOreIsNearest(x as real / 10000.0, r);
    assert -0.5 <= r as real - x as real / 10000.0 <= 0.5;
    assert -5000.0 <= 10000.0 * r as real - x as real <= 5000.0;
    assert (10000 * r - x) as real == 10000.0 * r as real - x as real;
  }

  // --- Interest grows with time ---

  lemma DaysBetweenIsMonotone(from: int, a: int, b: int)
    requires a <= b
    ensures DaysBetween(from, a) <= DaysBetween(from, b)
  {
  }

  /** The rounded interest for a product of amount, rate and days. */
  function RoundedInterest(product: int): int {
    RoundOre(product as real / 10000.0 / 365.0)
  }

  lemma RoundedInterestIsMonotone(x: int, y: int)
    requires 0 <= x <= y
    ensures 0 <= RoundedInterest(x) <= RoundedInterest(y)
  {
    var a, b := x as real / 10000.0 / 365.0, y as real / 10000.0 / 365.0;
    assert RoundOre(0.0) == 0;
    RoundOreIsMonotone(0.0, a);
    RoundOreIsMonotone(a, b);
  }

  lemma ProductIsMonotone(amount: int, rate: int, a: int, b: int)
    requires 0 <= amount && 0 <= rate && 0 <= a <= b
    ensures 0 <= amount * rate * a <= amount * rate * b
  {
    assert 0 <= amount * rate;
  }

  /** Interest is never negative and never falls as days pass. */
  lemma LateInterestIsMonotone(outstandingOre: int, a: int, b: int)
    requires a <= b
    ensures 0 <= CalculateLateInterest(outstandingOre, a, REFERENCE_RATE_BASIS_POINTS)
              <= CalculateLateInterest(outstandingOre, b, REFERENCE_RATE_BASIS_POINTS)
  {
    var rate := REFERENCE_RATE_BASIS_POINTS + LATE_INTEREST_MARKUP_BASIS_POINTS;
    if outstandingOre > 0 && b > 0 {
      var from := if a > 0 then a else 0;
      ProductIsMonotone(outstandingOre, rate, from, b);
      RoundedInterestIsMonotone(outstandingOre * rate * from, outstandingOre * rate * b);
    }
  }
}
