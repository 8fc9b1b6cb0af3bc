/** backend/src/lib/ocr.ts: payment references with a length digit and a Luhn check digit
    (ISO/IEC 7812-1, Annex B). */
module Ocr {
  import opened Wrappers
  import opened Text

  datatype OcrError = NOT_DIGITS | NO_DIGITS

  // --- Luhn ---

  /** A digit's contribution: doubled, and then with its own digits summed. */
  function Weighed(d: nat, double: bool): nat
    requires d < 10
  {
    if !double then d else if 2 * d > 9 then 2 * d - 9 else 2 * d
  }

  /** The sum from the right, every second digit doubled; the rightmost as `double` says. */
  function LuhnSum(digits: string, double: bool): nat
    requires AllDigits(digits)
  {
    if digits == [] then 0
    else Weighed(DigitValue(digits[|digits| - 1]), double) + LuhnSum(digits[..|digits| - 1], !double)
  }

  function CheckDigit(digits: string): (c: nat)
    requires AllDigits(digits)
    ensures c < 10
  {
    (10 - LuhnSum(digits, true) % 10) % 10
  }

  /** The backward loop. */
  method LuhnCheckDigit(digits: string) returns (r: Result<nat, OcrError>)
    ensures r.Ok? <==> digits != [] && AllDigits(digits)
    ensures r.Ok? ==> r.value == CheckDigit(digits)
  {
    if digits == [] || !AllDigits(digits) {
      return Err(NOT_DIGITS);
    }
    var sum, double := 0, true;
    var i := |digits| - 1;
    assert digits[..i + 1] == digits;
    while i >= 0
      invariant -1 <= i < |digits|
      invariant sum + LuhnSum(digits[..i + 1], double) == LuhnSum(digits, true)
      decreases i
    {
      var value := DigitValue(digits[i]);
      if double {
        value := value * 2;
        if value > 9 {
          value := value - 9;
        }
      }
      assert digits[..i + 1][..i] == digits[..i];
      sum := sum + value;
      double := !double;
      i := i - 1;
    }
    r := Ok((10 - sum % 10) % 10);
  }

  predicate IsValidLuhn(digits: string) {
    && |digits| >= 2
    && AllDigits(digits)
    && CheckDigit(digits[..|digits| - 1]) == DigitValue(digits[|digits| - 1])
  }

  function DigitsOf(text: string): (digits: string)
    ensures AllDigits(digits)
  {
    if text == [] then []
    else (if IsDigit(text[0]) then [text[0]] else []) + DigitsOf(text[1..])
  }

  function LengthDigit(n: nat): char {
    DigitChar((n + 2) % 10)
  }

  function Reference(digits: string): (r: string)
    requires AllDigits(digits)
    ensures AllDigits(r) && |r| == |digits| + 2
  {
    var withLength := digits + [LengthDigit(|digits|)];
    withLength + [DigitChar(CheckDigit(withLength))]
  }

  function OcrReference(invoiceNumber: string): Result<string, OcrError> {
    var digits := DigitsOf(invoiceNumber);
    if digits == [] then Err(NO_DIGITS) else Ok(Reference(digits))
  }

  // --- What the check digit detects ---

  /** A number is valid exactly when its full sum, check digit undoubled, is a multiple of ten. */
  lemma ValidIff(digits: string)
    requires AllDigits(digits) && |digits| >= 2
    ensures IsValidLuhn(digits) <==> LuhnSum(digits, false) % 10 == 0
  {
    var n := |digits| - 1;
    var sum, c := LuhnSum(digits[..n], true), DigitValue(digits[n]);
    assert LuhnSum(digits, false) == c + sum;
    CompletesToTen(sum, c);
  }

  lemma CompletesToTen(sum: nat, c: nat)
    requires c < 10
    ensures (10 - sum % 10) % 10 == c <==> (c + sum) % 10 == 0
  {
  }

  /** What a doubled digit comes to, by ISO/IEC 7812-1, Annex B. */
  const DOUBLED: seq<nat> := [0, 2, 4, 6, 8, 1, 3, 5, 7, 9]

  /** The whole number from the left: every second digit counted from the right end, not the end itself,
      goes through the table. */
  function TableSum(ref: string): nat
    requires AllDigits(ref)
  {
    if ref == [] then 0
    else
      var d := DigitValue(ref[0]);
      (if (|ref| - 1) % 2 == 0 then d else DOUBLED[d]) + TableSum(ref[1..])
  }

  lemma {:induction false} SumFromTheFront(c: char, rest: string, double: bool)
    requires IsDigit(c) && AllDigits(rest)
    ensures LuhnSum([c] + rest, double)
         == Weighed(DigitValue(c), double == (|rest| % 2 == 0)) + LuhnSum(rest, double)
    decreases |rest|
  {
    if rest == [] {
      assert ([c] + rest)[..|rest|] == [];
    } else {
      var n := |rest| - 1;
      SumFromTheFront(c, rest[..n], !double);
      assert |rest[..n]| % 2 == 0 <==> |rest| % 2 != 0;
      assert ([c] + rest)[..|rest|] == [c] + rest[..n];
    }
  }

  lemma {:induction false} SumByTable(ref: string)
    requires AllDigits(ref)
    ensures LuhnSum(ref, false) == TableSum(ref)
  {
    if ref != [] {
      assert ref == [ref[0]] + ref[1..];
      SumByTable(ref[1..]);
      SumFromTheFront(ref[0], ref[1..], false);
    }
  }

  /** Valid numbers are those whose sum by the table is a multiple of ten. */
  lemma ValidByTheTable(ref: string)
    ensures IsValidLuhn(ref) <==> |ref| >= 2 && AllDigits(ref) && TableSum(ref) % 10 == 0
  {
    if |ref| >= 2 && AllDigits(ref) {
      ValidIff(ref);
      SumByTable(ref);
    }
  }

  /** Doubling and digit-summing is a permutation of the ten digits. */
  lemma WeighedIsInjective(a: nat, b: nat, double: bool)
    requires a < 10 && b < 10 && a != b
    ensures Weighed(a, double) != Weighed(b, double) && Weighed(a, double) < 10 && Weighed(b, double) < 10
  {
  }

  /** What the digit at k contributes to the full sum. */
  function WeightAt(ref: string, k: nat): nat
    requires AllDigits(ref) && k < |ref|
  {
    Weighed(DigitValue(ref[k]), (|ref| - 1 - k) % 2 != 0)
  }

  lemma {:induction false} SumAfterUpdate(digits: string, k: nat, c: char, double: bool)
    requires AllDigits(digits) && k < |digits| && IsDigit(c)
    ensures AllDigits(digits[k := c])
    ensures var here := double == ((|digits| - 1 - k) % 2 == 0);
            LuhnSum(digits[k := c], double) + Weighed(DigitValue(digits[k]), here)
            == LuhnSum(digits, double) + Weighed(DigitValue(c), here)
    decreases |digits|
  {
    var n := |digits| - 1;
    assert AllDigits(digits[k := c]);
    if k == n {
      assert digits[k := c][..n] == digits[..n];
    } else {
      assert digits[k := c][..n] == digits[..n][k := c];
      SumAfterUpdate(digits[..n], k, c, !double);
    }
  }

  /** One changed digit changes the full sum by the difference of the two weights. */
  lemma UpdateWeighs(ref: string, k: nat, c: char)
    requires AllDigits(ref) && k < |ref| && IsDigit(c)
    ensures AllDigits(ref[k := c])
    ensures LuhnSum(ref[k := c], false) + WeightAt(ref, k) == LuhnSum(ref, false) + WeightAt(ref[k := c], k)
    ensures c != ref[k] ==> WeightAt(ref, k) != WeightAt(ref[k := c], k)
    ensures WeightAt(ref, k) < 10
    ensures WeightAt(ref[k := c], k) < 10
  {
    SumAfterUpdate(ref, k, c, false);
    if c != ref[k] {
      WeighedIsInjective(DigitValue(ref[k]), DigitValue(c), (|ref| - 1 - k) % 2 != 0);
    }
  }

  /** Every single wrong digit is caught. */
  lemma SubstitutionIsCaught(ref: string, k: nat, c: char)
    requires IsValidLuhn(ref) && k < |ref| && IsDigit(c) && c != ref[k]
    ensures AllDigits(ref[k := c]) && !IsValidLuhn(ref[k := c])
  {
    UpdateWeighs(ref, k, c);
    ValidIff(ref);
    ValidIff(ref[k := c]);
    DifferentRemainder(LuhnSum(ref, false), LuhnSum(ref[k := c], false), WeightAt(ref, k), WeightAt(ref[k := c], k));
  }

  lemma DifferentRemainder(before: nat, after: nat, was: nat, now: nat)
    requires after + was == before + now && before % 10 == 0
    requires was < 10 && now < 10 && was != now
    ensures after % 10 != 0
  {
  }

  function Swapped(ref: string, k: nat): string
    requires k + 1 < |ref|
  {
    ref[k := ref[k + 1]][k + 1 := ref[k]]
  }

  /** The pair 0 and 9, in either order. */
  predicate ZeroNine(a: char, b: char) {
    (a == '0' && b == '9') || (a == '9' && b == '0')
  }

  /** Swapping two adjacent digits changes the sum, modulo ten, unless they are equal or 0 and 9. */
  lemma SwapWeighs(a: nat, b: nat)
    requires a < 10 && b < 10
    ensures (Weighed(a, false) + Weighed(b, true)) % 10 == (Weighed(b, false) + Weighed(a, true)) % 10
       <==> a == b || (a == 0 && b == 9) || (a == 9 && b == 0)
  {
  }

  /** The swap changes the sum by what the two digits weigh in the two places. */
  lemma SumAfterSwap(ref: string, k: nat)
    requires AllDigits(ref) && k + 1 < |ref|
    ensures AllDigits(Swapped(ref, k))
    ensures LuhnSum(Swapped(ref, k), false) + WeightAt(ref, k) + WeightAt(ref, k + 1)
         == LuhnSum(ref, false) + WeightAt(Swapped(ref, k), k) + WeightAt(Swapped(ref, k), k + 1)
  {
    var half := ref[k := ref[k + 1]];
    UpdateWeighs(ref, k, ref[k + 1]);
    UpdateWeighs(half, k + 1, ref[k]);
    SameWeight(ref, half, k + 1);
    SameWeight(half, Swapped(ref, k), k);
  }

  lemma SameWeight(a: string, b: string, k: nat)
    requires AllDigits(a) && AllDigits(b) && k < |a| == |b| && a[k] == b[k]
    ensures WeightAt(a, k) == WeightAt(b, k)
  {
  }

  lemma WeightsAfterSwap(ref: string, k: nat)
    requires AllDigits(ref) && k + 1 < |ref| && AllDigits(Swapped(ref, k))
    ensures var a, b := DigitValue(ref[k]), DigitValue(ref[k + 1]);
            (WeightAt(ref, k) + WeightAt(ref, k + 1)) % 10
              == (WeightAt(Swapped(ref, k), k) + WeightAt(Swapped(ref, k), k + 1)) % 10
            <==> a == b || (a == 0 && b == 9) || (a == 9 && b == 0)
  {
    SwapWeighs(DigitValue(ref[k]), DigitValue(ref[k + 1]));
    assert (|ref| - 1 - k) % 2 != 0 <==> (|ref| - 1 - (k + 1)) % 2 == 0;
  }

  /** A swap of two different neighbours is caught, except for the pair 0 and 9, which never is. */
  lemma TranspositionIsCaughtIff(ref: string, k: nat)
    requires IsValidLuhn(ref) && k + 1 < |ref| && ref[k] != ref[k + 1]
    ensures AllDigits(Swapped(ref, k))
    ensures !IsValidLuhn(Swapped(ref, k)) <==> !ZeroNine(ref[k], ref[k + 1])
  {
    SumAfterSwap(ref, k);
    WeightsAfterSwap(ref, k);
    ValidIff(ref);
    ValidIff(Swapped(ref, k));
    SameRemainder(LuhnSum(ref, false), LuhnSum(Swapped(ref, k), false),
                  WeightAt(ref, k) + WeightAt(ref, k + 1),
                  WeightAt(Swapped(ref, k), k) + WeightAt(Swapped(ref, k), k + 1));
  }

  lemma SameRemainder(before: nat, after: nat, was: nat, now: nat)
    requires after + was == before + now && before % 10 == 0
    ensures after % 10 == 0 <==> was % 10 == now % 10
  {
  }

  // --- The reference ---

  /** The bank's hard control: a valid check digit, and the length digit before it right. */
  predicate HardControl(ref: string) {
    && IsValidLuhn(ref)
    && DigitValue(ref[|ref| - 2]) == |ref| % 10
  }

  /** Every reference the program prints passes the bank's control, and starts with the digits
      of the invoice number. */
  lemma ReferencesAreValid(invoiceNumber: string)
    ensures OcrReference(invoiceNumber).Ok? <==> DigitsOf(invoiceNumber) != []
    ensures OcrReference(invoiceNumber).Ok? ==>
              && HardControl(OcrReference(invoiceNumber).value)
              && DigitsOf(invoiceNumber) <= OcrReference(invoiceNumber).value
  {
    var digits := DigitsOf(invoiceNumber);
    if digits != [] {
      var ref := Reference(digits);
      var withLength := digits + [LengthDigit(|digits|)];
      assert ref[..|ref| - 1] == withLength;
      assert ref[|ref| - 2] == LengthDigit(|digits|);
    }
  }

  /** And it is the only one that does both and has two digits more. */
  lemma OnlyOneReference(invoiceNumber: string, ref: string)
    requires OcrReference(invoiceNumber).Ok?
    ensures ref == OcrReference(invoiceNumber).value <==>
              && DigitsOf(invoiceNumber) <= ref
              && |ref| == |DigitsOf(invoiceNumber)| + 2
              && HardControl(ref)
  {
    ReferencesAreValid(invoiceNumber);
    var digits, right := DigitsOf(invoiceNumber), OcrReference(invoiceNumber).value;
    var n := |digits|;
    if digits <= ref && |ref| == n + 2 && HardControl(ref) {
      assert DigitValue(ref[n]) == DigitValue(right[n]);
      assert ref[..n + 1] == right[..n + 1];
      assert ref == ref[..n + 1] + [ref[n + 1]] && right == right[..n + 1] + [right[n + 1]];
    }
  }

  /** Inserting a digit in the invoice-number part leaves a length digit that is wrong. */
  lemma InsertionIsCaught(digits: string, k: nat, c: char)
    requires AllDigits(digits) && k <= |digits| && IsDigit(c)
    ensures !HardControl(Reference(digits)[..k] + [c] + Reference(digits)[k..])
  {
    var ref := Reference(digits);
    var wrong := ref[..k] + [c] + ref[k..];
    assert wrong[|wrong| - 2] == ref[|ref| - 2];
  }

  /** So does leaving one out. */
  lemma DeletionIsCaught(digits: string, k: nat)
    requires AllDigits(digits) && k < |digits|
    ensures !HardControl(Reference(digits)[..k] + Reference(digits)[k + 1..])
  {
    var ref := Reference(digits);
    var wrong := ref[..k] + ref[k + 1..];
    assert wrong[|wrong| - 2] == ref[|ref| - 2];
  }

  /** Different digits give different references. */
  lemma ReferenceIsInjective(a: string, b: string)
    requires AllDigits(a) && AllDigits(b)
    ensures Reference(a) == Reference(b) <==> a == b
  {
    assert Reference(a)[..|a|] == a;
    assert Reference(b)[..|b|] == b;
  }
}
