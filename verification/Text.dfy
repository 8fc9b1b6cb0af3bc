/** Numbers as text, the way JavaScript's String(n) and padStart write them, strings put together from
    parts, and the small readers that take them apart again. Printers and readers of SIE, CSV, payment
    references and addresses are built from these. The lemmas about concatenation are stated over
    variables only, so that no proof about a file has to look into its literals. */
module Text {
  import opened Wrappers

  predicate IsDigit(c: char) {
    '0' <= c <= '9'
  }

  predicate AllDigits(s: string) {
    forall i :: 0 <= i < |s| ==> IsDigit(s[i])
  }

  function DigitChar(d: nat): (c: char)
    requires d < 10
    ensures IsDigit(c) && DigitValue(c) == d
  {
    '0' + d as char
  }

  function DigitValue(c: char): (d: nat)
    requires IsDigit(c)
    ensures d < 10 && '0' + d as char == c
  {
    c as int - '0' as int
  }

  /** String(n). */
  function Decimal(n: nat): (s: string)
    ensures s != [] && AllDigits(s)
  {
    if n < 10 then [DigitChar(n)] else Decimal(n / 10) + [DigitChar(n % 10)]
  }

  function IntText(n: int): string {
    if n < 0 then "-" + Decimal(-n) else Decimal(n)
  }

  function DecimalValue(s: string): nat
    requires AllDigits(s)
  {
    if s == [] then 0 else 10 * DecimalValue(s[..|s| - 1]) + DigitValue(s[|s| - 1])
  }

  function Repeat(c: char, n: nat): (s: string)
    ensures |s| == n
    ensures forall i :: 0 <= i < n ==> s[i] == c
  {
    seq(n, _ => c)
  }

  function PadStart(s: string, width: nat, c: char): string {
    if |s| >= width then s else Repeat(c, width - |s|) + s
  }

  lemma {:induction false} DecimalReadsBack(n: nat)
    ensures DecimalValue(Decimal(n)) == n
  {
    if n >= 10 {
      DecimalReadsBack(n / 10);
      assert Decimal(n)[..|Decimal(n)| - 1] == Decimal(n / 10);
    }
  }

  lemma IntTextReadsBack(n: int)
    ensures var text := IntText(n);
      if n < 0 then text[0] == '-' && AllDigits(text[1..]) && DecimalValue(text[1..]) + n == 0
      else AllDigits(text) && DecimalValue(text) == n
  {
    if n < 0 {
      var m: nat := -n;
      DecimalReadsBack(m);
      assert IntText(n)[1..] == Decimal(m);
    } else {
      DecimalReadsBack(n);
    }
  }

  lemma DecimalStep(n: nat, d: nat)
    requires n > 0 && d < 10
    ensures Decimal(10 * n + d) == Decimal(n) + [DigitChar(d)]
  {
    assert (10 * n + d) / 10 == n && (10 * n + d) % 10 == d;
  }

  /** Digits without a leading zero are how their number is written. */
  lemma {:induction false} DecimalOfValue(s: string)
    requires s != [] && AllDigits(s) && s[0] != '0'
    ensures DecimalValue(s) > 0 && Decimal(DecimalValue(s)) == s
  {
    var n := |s| - 1;
    var last := DigitValue(s[n]);
    assert s == s[..n] + [s[n]];
    if n > 0 {
      DecimalOfValue(s[..n]);
      DecimalStep(DecimalValue(s[..n]), last);
    } else {
      assert DecimalValue(s[..n]) == 0;
    }
  }

  lemma {:induction false} LeadingZeros(k: nat, s: string)
    requires AllDigits(s)
    ensures AllDigits(Repeat('0', k) + s) && DecimalValue(Repeat('0', k) + s) == DecimalValue(s)
  {
    var t := Repeat('0', k) + s;
    if s != [] {
      assert t[..|t| - 1] == Repeat('0', k) + s[..|s| - 1];
      LeadingZeros(k, s[..|s| - 1]);
    } else if k > 0 {
      assert t[..|t| - 1] == Repeat('0', k - 1) + s;
      LeadingZeros(k - 1, s);
    }
  }

  /** Zero padding changes neither the digits' value nor that they are digits. */
  lemma PaddedReadsBack(n: nat, width: nat)
    ensures AllDigits(PadStart(Decimal(n), width, '0'))
    ensures DecimalValue(PadStart(Decimal(n), width, '0')) == n
  {
    DecimalReadsBack(n);
    if |Decimal(n)| < width {
      LeadingZeros(width - |Decimal(n)|, Decimal(n));
    }
  }

  /** Whole kronor, a decimal mark and exactly two decimals. */
  function Unsigned(ore: nat, mark: char): string {
    Decimal(ore / 100) + [mark] + PadStart(Decimal(ore % 100), 2, '0')
  }

  /** The shape sieAmount and csvAmount share. */
  function Amount(ore: int, mark: char): string {
    if ore < 0 then "-" + Unsigned(-ore, mark) else Unsigned(ore, mark)
  }

  lemma DecimalWidth(n: nat)
    requires n < 100
    ensures |PadStart(Decimal(n), 2, '0')| == 2
  {
  }

  // --- Reading ---

  /** The length of the longest prefix that satisfies p. */
  function Span(s: string, p: char -> bool): (n: nat)
    ensures n <= |s|
  {
    if s == [] || !p(s[0]) then 0 else 1 + Span(s[1..], p)
  }

  lemma {:induction false} SpanOfPrefix(a: string, rest: string, p: char -> bool)
    requires forall i :: 0 <= i < |a| ==> p(a[i])
    requires rest == [] || !p(rest[0])
    ensures Span(a + rest, p) == |a|
  {
    if a == [] {
      assert a + rest == rest;
    } else {
      assert (a + rest)[1..] == a[1..] + rest;
      SpanOfPrefix(a[1..], rest, p);
    }
  }

  /** What a reader hands on: a value and the text after it. */
  datatype Read<+T> = Read(value: T, rest: string)

  function Skip(literal: string, s: string): (r: Option<string>)
    ensures r.Some? ==> |r.value| + |literal| == |s|
  {
    if literal <= s then Some(s[|literal|..]) else None
  }

  lemma SkipLiteral(literal: string, rest: string)
    ensures Skip(literal, literal + rest) == Some(rest)
  {
    assert (literal + rest)[..|literal|] == literal;
    assert (literal + rest)[|literal|..] == rest;
  }

  // --- Strings built from parts ---

  const CRLF := "\r\n"

  /** String.replace with a global one-character pattern. */
  function ReplaceAll(text: string, c: char, replacement: string): string {
    if text == [] then []
    else (if text[0] == c then replacement else [text[0]]) + ReplaceAll(text[1..], c, replacement)
  }

  lemma {:induction false} ReplaceAppend(a: string, b: string, c: char, replacement: string)
    ensures ReplaceAll(a + b, c, replacement) == ReplaceAll(a, c, replacement) + ReplaceAll(b, c, replacement)
  {
    if a == [] {
      assert a + b == b;
    } else {
      assert (a + b)[1..] == a[1..] + b;
      ReplaceAppend(a[1..], b, c, replacement);
    }
  }

  /** Array.join. */
  function Join(lines: seq<string>, separator: string): string {
    if lines == [] then []
    else if |lines| == 1 then lines[0]
    else lines[0] + separator + Join(lines[1..], separator)
  }

  /** Every line followed by its line end. */
  function Flat(lines: seq<string>): string {
    if lines == [] then [] else lines[0] + CRLF + Flat(lines[1..])
  }

  lemma {:induction false} JoinIsFlat(lines: seq<string>)
    requires lines != []
    ensures Join(lines, CRLF) + CRLF == Flat(lines)
  {
    if |lines| == 1 {
      assert Flat(lines[1..]) == [];
    } else {
      JoinIsFlat(lines[1..]);
      assert lines[0] + CRLF + Join(lines[1..], CRLF) + CRLF == lines[0] + CRLF + (Join(lines[1..], CRLF) + CRLF);
    }
  }

  lemma {:induction false} FlatAppend(a: seq<string>, b: seq<string>)
    ensures Flat(a + b) == Flat(a) + Flat(b)
  {
    if a == [] {
      assert a + b == b;
    } else {
      assert (a + b)[1..] == a[1..] + b;
      FlatAppend(a[1..], b);
    }
  }

  lemma FlatCons(line: string, lines: seq<string>, rest: string)
    ensures Flat([line] + lines) + rest == line + CRLF + (Flat(lines) + rest)
  {
    assert ([line] + lines)[1..] == lines;
    Assoc3(line, CRLF, Flat(lines), rest);
  }

  lemma Assoc3(a: string, b: string, c: string, rest: string)
    ensures a + b + c + rest == a + (b + (c + rest))
  {
  }

  lemma Assoc5(a: string, b: string, c: string, d: string, e: string, rest: string)
    ensures a + b + c + d + e + rest == a + (b + (c + (d + (e + rest))))
  {
  }

  lemma Assoc7(a: string, b: string, c: string, d: string, e: string, f: string, g: string, rest: string)
    ensures a + b + c + d + e + f + g + rest == a + (b + (c + (d + (e + (f + (g + rest))))))
  {
    Assoc5(a, b, c, d, e, f);
    Assoc3(a + b + c + d + e, f, g, rest);
    Assoc5(a, b, c, d, e, f + (g + rest));
  }

  lemma SameElements<T>(a: seq<T>, b: seq<T>)
    requires |a| == |b|
    ensures a == b <==> forall i :: 0 <= i < |a| ==> a[i] == b[i]
  {
  }

  lemma PrefixAssoc(a: string, b: string, rest: string)
    ensures a + b + rest == a + (b + rest)
  {
  }
}
