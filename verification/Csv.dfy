/** backend/src/lib/csv.ts: CSV for Swedish Excel, and an RFC 4180 section 2 reader with
    the semicolon for separator. */
module Csv {
  import opened Wrappers
  import opened Text

  datatype CsvCell = Null | Words(text: string) | Number(n: int)

  const BOM := "\U{FEFF}"

  // --- Printing ---

  function StringOf(cell: CsvCell): string {
    match cell
    case Null => ""
    case Words(text) => text
    case Number(n) => IntText(n)
  }

  function WithoutMinus(text: string): string {
    if text != [] && text[0] == '-' then text[1..] else text
  }

  /** The pattern ^-?\d+,\d{2}$. */
  predicate IsAmount(text: string) {
    var t := WithoutMinus(text);
    && |t| >= 4
    && t[|t| - 3] == ','
    && AllDigits(t[..|t| - 3])
    && AllDigits(t[|t| - 2..])
  }

  predicate StartsFormula(text: string) {
    text != [] && (text[0] == '=' || text[0] == '+' || text[0] == '-' || text[0] == '@')
  }

  predicate NeedsGuard(text: string) {
    !IsAmount(text) && StartsFormula(text)
  }

  /** The cell's text behind its tab, if it must have one. */
  function Guarded(cell: CsvCell): string {
    if NeedsGuard(StringOf(cell)) then "\t" + StringOf(cell) else StringOf(cell)
  }

  predicate Plain(c: char) {
    c != ';' && c != '\"' && c != '\r' && c != '\n'
  }

  predicate AllPlain(text: string) {
    forall i :: 0 <= i < |text| ==> Plain(text[i])
  }

  function EscapeCell(cell: CsvCell): string {
    var text := Guarded(cell);
    if AllPlain(text) then text else "\"" + ReplaceAll(text, '\"', "\"\"") + "\""
  }

  function CsvAmount(ore: int): string {
    Amount(ore, ',')
  }

  function EscapeCells(row: seq<CsvCell>): (cells: seq<string>)
    ensures |cells| == |row|
  {
    seq(|row|, i requires 0 <= i < |row| => EscapeCell(row[i]))
  }

  function RowText(row: seq<CsvCell>): string {
    Join(EscapeCells(row), ";")
  }

  function RowTexts(rows: seq<seq<CsvCell>>): (lines: seq<string>)
    ensures |lines| == |rows|
  {
    seq(|rows|, i requires 0 <= i < |rows| => RowText(rows[i]))
  }

  function HeaderRow(header: seq<string>): (row: seq<CsvCell>)
    ensures |row| == |header|
  {
    seq(|header|, i requires 0 <= i < |header| => Words(header[i]))
  }

  function ToCsv(header: seq<string>, rows: seq<seq<CsvCell>>): string {
    BOM + Join(RowTexts([HeaderRow(header)] + rows), CRLF) + CRLF
  }

  // --- Reading ---

  /** The inside of a quoted cell: two quotes are one, and one quote ends it. */
  function ReadQuotes(s: string): (r: Option<Read<string>>)
    ensures r.Some? ==> |r.value.rest| < |s|
  {
    if s == [] then None
    else if s[0] != '\"' then
      var more :- ReadQuotes(s[1..]);
      Some(Read([s[0]] + more.value, more.rest))
    else if |s| >= 2 && s[1] == '\"' then
      var more :- ReadQuotes(s[2..]);
      Some(Read("\"" + more.value, more.rest))
    else Some(Read([], s[1..]))
  }

  function ReadCell(s: string): (r: Option<Read<string>>)
    ensures r.Some? ==> |r.value.rest| <= |s|
  {
    if s != [] && s[0] == '\"' then ReadQuotes(s[1..])
    else
      var n := Span(s, Plain);
      Some(Read(s[..n], s[n..]))
  }

  /** Cells up to the end of the record. */
  function ReadRow(s: string): (r: Option<Read<seq<string>>>)
    ensures r.Some? ==> |r.value.rest| < |s|
    decreases |s|
  {
    var first :- ReadCell(s);
    if first.rest != [] && first.rest[0] == ';' then
      var more :- ReadRow(first.rest[1..]);
      Some(Read([first.value] + more.value, more.rest))
    else
      var rest :- Skip(CRLF, first.rest);
      Some(Read([first.value], rest))
  }

  function ReadRows(s: string): Option<seq<seq<string>>>
    decreases |s|
  {
    if s == [] then Some([])
    else
      var first :- ReadRow(s);
      var more :- ReadRows(first.rest);
      Some([first.value] + more)
  }

  function ReadCsv(s: string): Option<seq<seq<string>>> {
    var rest :- Skip(BOM, s);
    ReadRows(rest)
  }

  // --- What comes back ---

  /** A row without cells prints as an empty line, which reads as one empty cell. */
  function DecodedRow(row: seq<CsvCell>): seq<string> {
    if row == [] then [""] else GuardedRow(row)
  }

  function GuardedRow(row: seq<CsvCell>): (texts: seq<string>)
    ensures |texts| == |row|
  {
    seq(|row|, i requires 0 <= i < |row| => Guarded(row[i]))
  }

  function Decoded(rows: seq<seq<CsvCell>>): (d: seq<seq<string>>)
    ensures |d| == |rows|
  {
    seq(|rows|, i requires 0 <= i < |rows| => DecodedRow(rows[i]))
  }

  lemma {:induction false} ReadQuotesBack(text: string, rest: string)
    requires rest == [] || rest[0] != '\"'
    ensures ReadQuotes(ReplaceAll(text, '\"', "\"\"") + ("\"" + rest)) == Some(Read(text, rest))
  {
    var end := "\"" + rest;
    if text == [] {
      assert ReplaceAll(text, '\"', "\"\"") + end == end;
      assert end[1..] == rest;
    } else {
      var tail := ReplaceAll(text[1..], '\"', "\"\"") + end;
      ReadQuotesBack(text[1..], rest);
      ReadOneQuoted(text[0], ReplaceAll(text[1..], '\"', "\"\""), end, tail);
      assert [text[0]] + text[1..] == text;
    }
  }

  lemma ReadOneQuoted(c: char, escaped: string, end: string, tail: string)
    requires tail == escaped + end && ReadQuotes(tail).Some?
    ensures var first := if c == '\"' then "\"\"" else [c];
            var more := ReadQuotes(tail).value;
            ReadQuotes(first + escaped + end) == Some(Read([c] + more.value, more.rest))
  {
    var first := if c == '\"' then "\"\"" else [c];
    var s := first + escaped + end;
    assert s == first + tail;
    if c == '\"' {
      assert s[2..] == tail;
    } else {
      assert s[1..] == tail;
    }
  }

  /** Any cell at all comes back as its guarded text, before a separator or a line end. */
  lemma ReadCellBack(cell: CsvCell, rest: string)
    requires rest != [] && (rest[0] == ';' || rest[0] == '\r')
    ensures ReadCell(EscapeCell(cell) + rest) == Some(Read(Guarded(cell), rest))
  {
    var text := Guarded(cell);
    if AllPlain(text) {
      SpanOfPrefix(text, rest, Plain);
      assert (text + rest)[..|text|] == text && (text + rest)[|text|..] == rest;
      assert (text + rest)[0] == if text == [] then rest[0] else text[0];
    } else {
      var inside := ReplaceAll(text, '\"', "\"\"");
      Assoc3("\"", inside, "\"", rest);
      assert ("\"" + (inside + ("\"" + rest)))[1..] == inside + ("\"" + rest);
      ReadQuotesBack(text, rest);
    }
  }

  lemma RowTextStep(row: seq<CsvCell>, rest: string)
    requires |row| >= 2
    ensures RowText(row) + rest == EscapeCell(row[0]) + (";" + (RowText(row[1..]) + rest))
  {
    assert EscapeCells(row)[1..] == EscapeCells(row[1..]);
    Assoc3(EscapeCell(row[0]), ";", RowText(row[1..]), rest);
  }

  lemma LastCell(s: string, cell: string, rest: string)
    requires ReadCell(s) == Some(Read(cell, CRLF + rest))
    ensures ReadRow(s) == Some(Read([cell], rest))
  {
    SkipLiteral(CRLF, rest);
  }

  lemma OneCellMore(s: string, cell: string, tail: string, more: seq<string>, rest: string)
    requires ReadCell(s) == Some(Read(cell, ";" + tail)) && |tail| < |s|
    requires ReadRow(tail) == Some(Read(more, rest))
    ensures ReadRow(s) == Some(Read([cell] + more, rest))
  {
    assert (";" + tail)[1..] == tail;
  }

  lemma DecodedRowStep(row: seq<CsvCell>)
    requires |row| >= 2
    ensures DecodedRow(row) == [Guarded(row[0])] + DecodedRow(row[1..])
  {
    assert GuardedRow(row) == [Guarded(row[0])] + GuardedRow(row[1..]);
  }

  lemma {:induction false} ReadRowBack(row: seq<CsvCell>, rest: string)
    requires row != []
    ensures ReadRow(RowText(row) + (CRLF + rest)) == Some(Read(DecodedRow(row), rest))
  {
    if |row| == 1 {
      ReadCellBack(row[0], CRLF + rest);
      LastCell(EscapeCell(row[0]) + (CRLF + rest), Guarded(row[0]), rest);
      assert DecodedRow(row) == [Guarded(row[0])];
    } else {
      var tail := RowText(row[1..]) + (CRLF + rest);
      RowTextStep(row, CRLF + rest);
      ReadCellBack(row[0], ";" + tail);
      ReadRowBack(row[1..], rest);
      OneCellMore(EscapeCell(row[0]) + (";" + tail), Guarded(row[0]), tail, DecodedRow(row[1..]), rest);
      DecodedRowStep(row);
    }
  }

  lemma ReadEmptyRowBack(rest: string)
    ensures ReadRow(RowText([]) + (CRLF + rest)) == Some(Read([""], rest))
  {
    var s := RowText([]) + (CRLF + rest);
    assert s == CRLF + rest;
    assert Span(s, Plain) == 0;
    assert s[..0] == "" && s[0..] == s;
    SkipLiteral(CRLF, rest);
  }

  lemma OneRowMore(s: string, row: seq<string>, rest: string, more: seq<seq<string>>)
    requires ReadRow(s) == Some(Read(row, rest)) && ReadRows(rest) == Some(more)
    ensures ReadRows(s) == Some([row] + more)
  {
  }

  lemma ReadAnyRowBack(row: seq<CsvCell>, rest: string)
    ensures ReadRow(RowText(row) + (CRLF + rest)) == Some(Read(DecodedRow(row), rest))
  {
    if row == [] {
      ReadEmptyRowBack(rest);
    } else {
      ReadRowBack(row, rest);
    }
  }

  lemma RowTextsFromFront(rows: seq<seq<CsvCell>>)
    requires rows != []
    ensures RowTexts(rows) == [RowText(rows[0])] + RowTexts(rows[1..])
  {
    var a, b := RowTexts(rows), [RowText(rows[0])] + RowTexts(rows[1..]);
    forall i | 0 <= i < |a| ensures a[i] == b[i] {
      assert i > 0 ==> rows[1..][i - 1] == rows[i];
    }
    SameElements(a, b);
  }

  lemma DecodedFromFront(rows: seq<seq<CsvCell>>)
    requires rows != []
    ensures Decoded(rows) == [DecodedRow(rows[0])] + Decoded(rows[1..])
  {
    assert forall i :: 0 <= i < |rows| - 1 ==> Decoded(rows)[i + 1] == Decoded(rows[1..])[i];
  }

  lemma FlatOneMore(line: string, lines: seq<string>)
    ensures Flat([line] + lines) == line + (CRLF + Flat(lines))
  {
    assert ([line] + lines)[1..] == lines;
    PrefixAssoc(line, CRLF, Flat(lines));
  }

  lemma FlatRows(rows: seq<seq<CsvCell>>)
    requires rows != []
    ensures Flat(RowTexts(rows)) == RowText(rows[0]) + (CRLF + Flat(RowTexts(rows[1..])))
    ensures Decoded(rows) == [DecodedRow(rows[0])] + Decoded(rows[1..])
  {
    RowTextsFromFront(rows);
    DecodedFromFront(rows);
    FlatOneMore(RowText(rows[0]), RowTexts(rows[1..]));
  }

  lemma {:induction false} ReadRowsBack(rows: seq<seq<CsvCell>>)
    ensures ReadRows(Flat(RowTexts(rows))) == Some(Decoded(rows))
  {
    if rows == [] {
      assert RowTexts(rows) == [];
    } else {
      var tail := Flat(RowTexts(rows[1..]));
      FlatRows(rows);
      ReadAnyRowBack(rows[0], tail);
      ReadRowsBack(rows[1..]);
      OneRowMore(RowText(rows[0]) + (CRLF + tail), DecodedRow(rows[0]), tail, Decoded(rows[1..]));
    }
  }

  /** Every cell of every row comes back, whatever separators, quotes and line breaks it holds. */
  lemma CsvReadsBack(header: seq<string>, rows: seq<seq<CsvCell>>)
    ensures ReadCsv(ToCsv(header, rows)) == Some(Decoded([HeaderRow(header)] + rows))
  {
    var all := [HeaderRow(header)] + rows;
    var text := Flat(RowTexts(all));
    JoinIsFlat(RowTexts(all));
    PrefixAssoc(BOM, Join(RowTexts(all), CRLF), CRLF);
    SkipLiteral(BOM, text);
    ReadRowsBack(all);
  }

  /** The file begins with the byte order mark that Excel looks for and ends with a line end. */
  lemma FileHasMarkAndEnd(header: seq<string>, rows: seq<seq<CsvCell>>)
    ensures var text := ToCsv(header, rows);
      && |text| >= 3 && text[0] as int == 0xFEFF
      && text[|text| - 2] as int == 13 && text[|text| - 1] as int == 10
  {
    MarkedAndEnded(BOM, Join(RowTexts([HeaderRow(header)] + rows), CRLF), CRLF);
  }

  lemma MarkedAndEnded(mark: string, lines: string, end: string)
    requires |mark| == 1 && |end| == 2
    ensures var text := mark + lines + end;
      |text| >= 3 && text[0] == mark[0] && text[|text| - 2] == end[0] && text[|text| - 1] == end[1]
  {
  }

  /** Only a cell that holds a separator, a quote or a line break is written in quotes. */
  lemma QuotedIff(cell: CsvCell)
    ensures EscapeCell(cell) != Guarded(cell) <==>
              ';' in Guarded(cell) || '\"' in Guarded(cell) || '\r' in Guarded(cell) || '\n' in Guarded(cell)
  {
    var text := Guarded(cell);
    if !AllPlain(text) {
      QuotesAreLonger(text);
    }
  }

  lemma {:induction false} QuotesAreLonger(text: string)
    ensures |ReplaceAll(text, '\"', "\"\"")| >= |text|
  {
    if text != [] {
      QuotesAreLonger(text[1..]);
    }
  }

  /** What was put in: the text of every cell, header row first. */
  function Texts(row: seq<CsvCell>): (texts: seq<string>)
    ensures |texts| == |row|
  {
    seq(|row|, i requires 0 <= i < |row| => StringOf(row[i]))
  }

  function AllTexts(rows: seq<seq<CsvCell>>): (texts: seq<seq<string>>)
    ensures |texts| == |rows|
  {
    seq(|rows|, i requires 0 <= i < |rows| => Texts(rows[i]))
  }

  predicate Unguarded(row: seq<CsvCell>) {
    forall j :: 0 <= j < |row| ==> !NeedsGuard(StringOf(row[j]))
  }

  lemma RowUnchangedIff(row: seq<CsvCell>)
    ensures DecodedRow(row) == Texts(row) <==> row != [] && Unguarded(row)
  {
    if row != [] {
      if DecodedRow(row) == Texts(row) {
        forall j | 0 <= j < |row|
          ensures !NeedsGuard(StringOf(row[j]))
        {
          assert GuardedRow(row)[j] == Texts(row)[j];
        }
      }
    }
  }

  /** The whole table reads back as it was put in exactly when no row is empty, the header included,
      and no cell needs a guard. */
  lemma RoundTripIff(header: seq<string>, rows: seq<seq<CsvCell>>)
    ensures var all := [HeaderRow(header)] + rows;
      ReadCsv(ToCsv(header, rows)) == Some(AllTexts(all))
      <==> forall i :: 0 <= i < |all| ==> all[i] != [] && Unguarded(all[i])
  {
    var all := [HeaderRow(header)] + rows;
    CsvReadsBack(header, rows);
    forall i | 0 <= i < |all|
      ensures Decoded(all)[i] == AllTexts(all)[i] <==> all[i] != [] && Unguarded(all[i])
    {
      RowUnchangedIff(all[i]);
    }
    SameElements(Decoded(all), AllTexts(all));
  }

  /** The printed table reads back with as many cells in every row as were put in exactly when no row
      is empty. */
  lemma RowsKeepTheirWidthIff(header: seq<string>, rows: seq<seq<CsvCell>>)
    ensures ReadCsv(ToCsv(header, rows)).Some?
    ensures var all, read := [HeaderRow(header)] + rows, ReadCsv(ToCsv(header, rows)).value;
      |read| == |all|
      && ((forall i :: 0 <= i < |all| ==> |read[i]| == |all[i]|) <==> (forall i :: 0 <= i < |all| ==> all[i] != []))
  {
    CsvReadsBack(header, rows);
  }

  /** A printed cell reads back as its own text, whatever follows the line end, exactly when it needs
      no guard; if it does, it comes back with one tab more. */
  lemma CellUnchangedIff(cell: CsvCell, rest: string)
    ensures var read := ReadCell(EscapeCell(cell) + (CRLF + rest));
      && (read == Some(Read(StringOf(cell), CRLF + rest)) <==> !NeedsGuard(StringOf(cell)))
      && (NeedsGuard(StringOf(cell)) ==> read == Some(Read("\t" + StringOf(cell), CRLF + rest)))
  {
    ReadCellBack(cell, CRLF + rest);
  }

  /** No cell that is read back starts with a character that Excel takes for a formula, except an
      amount. */
  lemma NoFormulas(header: seq<string>, rows: seq<seq<CsvCell>>, i: nat, j: nat)
    requires ReadCsv(ToCsv(header, rows)).Some?
    requires i < |ReadCsv(ToCsv(header, rows)).value|
    requires j < |ReadCsv(ToCsv(header, rows)).value[i]|
    ensures var cell := ReadCsv(ToCsv(header, rows)).value[i][j];
            cell == [] || (cell[0] != '=' && cell[0] != '+' && cell[0] != '-' && cell[0] != '@') || IsAmount(cell)
  {
    CsvReadsBack(header, rows);
    var all := [HeaderRow(header)] + rows;
    if all[i] != [] {
      assert Decoded(all)[i][j] == Guarded(all[i][j]);
    }
  }

  /** The pattern lets through just the texts that are put together like this. */
  ghost predicate AmountParts(text: string, minus: string, whole: string, cents: string) {
    && text == minus + whole + [','] + cents
    && (minus == [] || minus == ['-'])
    && whole != [] && AllDigits(whole)
    && |cents| == 2 && AllDigits(cents)
  }

  lemma IsAmountIff(text: string)
    ensures IsAmount(text) <==> exists minus, whole, cents :: AmountParts(text, minus, whole, cents)
  {
    if IsAmount(text) {
      var t := WithoutMinus(text);
      assert AmountParts(text, text[..|text| - |t|], t[..|t| - 3], t[|t| - 2..]);
    }
    forall minus, whole, cents | AmountParts(text, minus, whole, cents) ensures IsAmount(text) {
      PartsAreAmount(text, minus, whole, cents);
    }
  }

  lemma PartsAreAmount(text: string, minus: string, whole: string, cents: string)
    requires AmountParts(text, minus, whole, cents)
    ensures IsAmount(text)
  {
    CutThree(whole, cents);
    assert WithoutMinus(text) == whole + [','] + cents;
  }

  /** What an amount in a cell says: kronor before the comma, öre after it, less than nothing behind a
      minus. */
  function AmountValue(text: string): int
    requires IsAmount(text)
  {
    var t := WithoutMinus(text);
    var ore := 100 * DecimalValue(t[..|t| - 3]) + DecimalValue(t[|t| - 2..]);
    if text[0] == '-' then -ore else ore
  }

  lemma PartsOfUnsigned(n: nat)
    ensures var t, whole, cents := Unsigned(n, ','), Decimal(n / 100), PadStart(Decimal(n % 100), 2, '0');
      && |t| >= 4 && t[|t| - 3] == ',' && t[..|t| - 3] == whole && t[|t| - 2..] == cents && IsDigit(t[0])
      && AllDigits(cents) && 100 * DecimalValue(whole) + DecimalValue(cents) == n
  {
    var whole, cents := Decimal(n / 100), PadStart(Decimal(n % 100), 2, '0');
    DecimalWidth(n % 100);
    DecimalReadsBack(n / 100);
    PaddedReadsBack(n % 100, 2);
    CutThree(whole, cents);
  }

  lemma CutThree(whole: string, cents: string)
    requires whole != [] && |cents| == 2
    ensures var t := whole + [','] + cents;
            t[..|t| - 3] == whole && t[|t| - 3] == ',' && t[|t| - 2..] == cents && t[0] == whole[0]
  {
  }

  predicate Says(text: string, ore: int) {
    IsAmount(text) && AmountValue(text) == ore
  }

  lemma PositiveReadsBack(n: nat, text: string)
    requires text == Unsigned(n, ',')
    ensures Says(text, n)
  {
    PartsOfUnsigned(n);
  }

  lemma NegativeReadsBack(n: nat, unsigned: string, text: string, ore: int)
    requires ore + n == 0 && unsigned == Unsigned(n, ',') && text == "-" + unsigned
    ensures Says(text, ore)
  {
    PartsOfUnsigned(n);
    assert WithoutMinus(text) == unsigned;
  }

  lemma AmountOfSign(ore: int)
    ensures ore >= 0 ==> CsvAmount(ore) == Unsigned(ore, ',')
    ensures ore < 0 ==> CsvAmount(ore) == "-" + Unsigned(-ore, ',')
  {
  }

  /** Every amount reads as just the öre it was printed from. */
  lemma AmountsReadBack(ore: int)
    ensures Says(CsvAmount(ore), ore)
  {
    AmountOfSign(ore);
    if ore < 0 {
      NegativeReadsBack(-ore, Unsigned(-ore, ','), CsvAmount(ore), ore);
    } else {
      PositiveReadsBack(ore, CsvAmount(ore));
    }
  }

  /** Every amount has the shape the guard lets through, so credits stay numbers. */
  lemma AmountsAreNotGuarded(ore: int)
    ensures IsAmount(CsvAmount(ore)) && Guarded(Words(CsvAmount(ore))) == CsvAmount(ore)
  {
    AmountsReadBack(ore);
  }
}
