/** backend/src/lib/sie.ts: the SIE 4 file as text, printed line by line, a reader for such files,
    and the bytes of code page 437 they become. */
module Sie {
  import opened Wrappers
  import opened Text

  datatype SieAccount = SieAccount(number: string, name: string)

  datatype SieTransaction = SieTransaction(account: string, amountOre: int)

  /** The date is the eight digits sieDate makes of it. */
  datatype SieVerification = SieVerification(date: string, text: string, transactions: seq<SieTransaction>)

  datatype SieDocument = SieDocument(companyName: string, orgNumber: string, year: nat, generatedAt: string,
                                     accounts: seq<SieAccount>, verifications: seq<SieVerification>)

  // --- Printing ---

  function SieAmount(ore: int): string {
    Amount(ore, '.')
  }

  function Quote(text: string): string {
    "\"" + ReplaceAll(ReplaceAll(text, '\\', "\\\\"), '\"', "\\\"") + "\""
  }

  function AccountLine(a: SieAccount): string {
    "#KONTO " + a.number + " " + Quote(a.name)
  }

  function TransactionLine(t: SieTransaction): string {
    "   #TRANS " + t.account + " {} " + SieAmount(t.amountOre)
  }

  function VerificationHead(v: SieVerification, number: nat): string {
    "#VER \"A\" " + Decimal(number) + " " + v.date + " " + Quote(v.text)
  }

  function TransactionLines(ts: seq<SieTransaction>): seq<string> {
    if ts == [] then [] else TransactionLines(ts[..|ts| - 1]) + [TransactionLine(ts[|ts| - 1])]
  }

  function VerificationLines(v: SieVerification, number: nat): seq<string> {
    [VerificationHead(v, number), "{"] + TransactionLines(v.transactions) + ["}"]
  }

  function RarText(year: string): string {
    year + "0101" + " " + year + "1231"
  }

  function HeadLines(d: SieDocument): seq<string> {
    ["#FLAGGA 0", "#PROGRAM \"Fakturly\" 1.0", "#FORMAT PC8", "#GEN " + d.generatedAt, "#SIETYP 4",
     "#FNAMN " + Quote(d.companyName), "#ORGNR " + d.orgNumber,
     "#RAR 0 " + RarText(Decimal(d.year)), "#VALUTA SEK"]
  }

  function AccountLines(accounts: seq<SieAccount>): seq<string> {
    if accounts == [] then [] else AccountLines(accounts[..|accounts| - 1]) + [AccountLine(accounts[|accounts| - 1])]
  }

  function AllVerificationLines(vs: seq<SieVerification>): seq<string> {
    if vs == [] then [] else AllVerificationLines(vs[..|vs| - 1]) + VerificationLines(vs[|vs| - 1], |vs|)
  }

  function DocumentLines(d: SieDocument): seq<string> {
    HeadLines(d) + AccountLines(d.accounts) + AllVerificationLines(d.verifications)
  }

  function BalanceOf(ts: seq<SieTransaction>): int {
    if ts == [] then 0 else BalanceOf(ts[..|ts| - 1]) + ts[|ts| - 1].amountOre
  }

  predicate IsBalanced(v: SieVerification) {
    BalanceOf(v.transactions) == 0
  }

  predicate AllBalanced(vs: seq<SieVerification>, n: nat)
    requires n <= |vs|
  {
    forall i :: 0 <= i < n ==> IsBalanced(vs[i])
  }

  predicate Balanced(d: SieDocument) {
    AllBalanced(d.verifications, |d.verifications|)
  }

  /** The error names the first verification that does not balance, counting from one. */
  predicate FirstUnbalanced(vs: seq<SieVerification>, number: nat) {
    1 <= number <= |vs| && !IsBalanced(vs[number - 1]) && AllBalanced(vs, number - 1)
  }

  method BuildSie(d: SieDocument) returns (r: Result<string, nat>)
    ensures r.Ok? <==> Balanced(d)
    ensures r.Ok? ==> r.value == Join(DocumentLines(d), CRLF) + CRLF
    ensures r.Err? ==> FirstUnbalanced(d.verifications, r.error)
  {
    var lines := PushLines(HeadLines(d), d);
    match lines {
      case Err(number) => r := Err(number);
      case Ok(all) => r := Ok(Join(all, CRLF) + CRLF);
    }
  }

  /** The two loops that push onto the lines array, onto whatever is there already. */
  method PushLines(head: seq<string>, d: SieDocument) returns (r: Result<seq<string>, nat>)
    ensures r.Ok? <==> Balanced(d)
    ensures r.Ok? ==> r.value == head + AccountLines(d.accounts) + AllVerificationLines(d.verifications)
    ensures r.Err? ==> FirstUnbalanced(d.verifications, r.error)
  {
    var lines := PushAccounts(head, d.accounts);
    r := PushVerifications(lines, d.verifications);
  }

  method PushAccounts(head: seq<string>, accounts: seq<SieAccount>) returns (lines: seq<string>)
    ensures lines == head + AccountLines(accounts)
  {
    lines := head;
    for i := 0 to |accounts|
      invariant lines == head + AccountLines(accounts[..i])
    {
      assert accounts[..i + 1][..i] == accounts[..i];
      PushOne(head, AccountLines(accounts[..i]), [AccountLine(accounts[i])]);
      lines := lines + [AccountLine(accounts[i])];
    }
    assert accounts[..|accounts|] == accounts;
  }

  lemma PushOne(head: seq<string>, body: seq<string>, more: seq<string>)
    ensures head + body + more == head + (body + more)
  {
  }

  lemma OneVerification(vs: seq<SieVerification>, i: nat)
    requires i < |vs|
    ensures AllVerificationLines(vs[..i + 1]) == AllVerificationLines(vs[..i]) + VerificationLines(vs[i], i + 1)
  {
    assert vs[..i + 1][..i] == vs[..i];
  }

  method PushVerifications(head: seq<string>, vs: seq<SieVerification>) returns (r: Result<seq<string>, nat>)
    ensures r.Ok? <==> AllBalanced(vs, |vs|)
    ensures r.Ok? ==> r.value == head + AllVerificationLines(vs)
    ensures r.Err? ==> FirstUnbalanced(vs, r.error)
  {
    var lines := head;
    for i := 0 to |vs|
      invariant lines == head + AllVerificationLines(vs[..i])
      invariant AllBalanced(vs, i)
    {
      var balance := SumAmounts(vs[i].transactions);
      if balance != 0 {
        assert !IsBalanced(vs[i]);
        return Err(i + 1);
      }
      lines := PushVerification(head, lines, vs, i);
    }
    assert vs[..|vs|] == vs;
    r := Ok(lines);
  }

  method PushVerification(ghost head: seq<string>, lines: seq<string>, vs: seq<SieVerification>, i: nat)
    returns (longer: seq<string>)
    requires i < |vs| && lines == head + AllVerificationLines(vs[..i])
    ensures longer == head + AllVerificationLines(vs[..i + 1])
  {
    var body := PrintVerification(vs[i], i + 1);
    OneVerification(vs, i);
    PushOne(head, AllVerificationLines(vs[..i]), body);
    longer := lines + body;
  }

  method SumAmounts(ts: seq<SieTransaction>) returns (sum: int)
    ensures sum == BalanceOf(ts)
  {
    sum := 0;
    for i := 0 to |ts|
      invariant sum == BalanceOf(ts[..i])
    {
      assert ts[..i + 1][..i] == ts[..i];
      sum := sum + ts[i].amountOre;
    }
    assert ts[..|ts|] == ts;
  }

  method PrintVerification(v: SieVerification, number: nat) returns (lines: seq<string>)
    ensures lines == VerificationLines(v, number)
  {
    lines := [VerificationHead(v, number), "{"];
    var ts := v.transactions;
    for i := 0 to |ts|
      invariant lines == [VerificationHead(v, number), "{"] + TransactionLines(ts[..i])
    {
      assert ts[..i + 1][..i] == ts[..i];
      lines := lines + [TransactionLine(ts[i])];
    }
    assert ts[..|ts|] == ts;
    lines := lines + ["}"];
  }

  // --- Reading ---

  predicate InWord(c: char) {
    c != ' ' && c != '\r'
  }

  predicate InLine(c: char) {
    c != '\r'
  }

  predicate IsWord(s: string) {
    forall i :: 0 <= i < |s| ==> InWord(s[i])
  }

  predicate IsLine(s: string) {
    forall i :: 0 <= i < |s| ==> InLine(s[i])
  }

  function ReadWord(s: string): (r: Read<string>)
    ensures |r.rest| <= |s|
  {
    var n := Span(s, InWord);
    Read(s[..n], s[n..])
  }

  function ReadLine(s: string): (r: Read<string>)
    ensures |r.rest| <= |s|
  {
    var n := Span(s, InLine);
    Read(s[..n], s[n..])
  }

  /** The inside of a quoted field, up to the first quote that no backslash precedes. */
  function ReadEscaped(s: string): (r: Option<Read<string>>)
    ensures r.Some? ==> |r.value.rest| < |s|
  {
    if s == [] then None
    else if s[0] == '\"' then Some(Read([], s[1..]))
    else if s[0] == '\\' then
      if |s| < 2 then None
      else
        var more :- ReadEscaped(s[2..]);
        Some(Read([s[1]] + more.value, more.rest))
    else
      var more :- ReadEscaped(s[1..]);
      Some(Read([s[0]] + more.value, more.rest))
  }

  function ReadQuoted(s: string): (r: Option<Read<string>>)
    ensures r.Some? ==> |r.value.rest| < |s|
  {
    var inside :- Skip("\"", s);
    ReadEscaped(inside)
  }

  function ReadNat(s: string): (r: Option<Read<nat>>)
    ensures r.Some? ==> |r.value.rest| < |s|
  {
    var n := Span(s, IsDigit);
    if n == 0 then None
    else
      SpanIsPrefix(s, IsDigit);
      Some(Read(DecimalValue(s[..n]), s[n..]))
  }

  lemma {:induction false} SpanIsPrefix(s: string, p: char -> bool)
    ensures forall i :: 0 <= i < Span(s, p) ==> p(s[i])
  {
    if s != [] && p(s[0]) {
      SpanIsPrefix(s[1..], p);
      forall i | 0 <= i < Span(s, p) ensures p(s[i]) {
        if i > 0 {
          assert s[i] == s[1..][i - 1];
        }
      }
    }
  }

  /** Kronor, a dot and two decimals, no more and no fewer. */
  function ReadUnsigned(s: string): (r: Option<Read<int>>)
    ensures r.Some? ==> |r.value.rest| < |s|
  {
    var whole :- ReadNat(s);
    var point :- Skip(".", whole.rest);
    var cents :- ReadNat(point);
    if |point| - |cents.rest| != 2 then None else Some(Read(100 * whole.value + cents.value, cents.rest))
  }

  function ReadAmount(s: string): (r: Option<Read<int>>)
    ensures r.Some? ==> |r.value.rest| < |s|
  {
    if s != [] && s[0] == '-' then
      var ore :- ReadUnsigned(s[1..]);
      Some(Read(-ore.value, ore.rest))
    else
      var ore :- ReadUnsigned(s);
      Some(Read(ore.value, ore.rest))
  }

  function ReadAccount(s: string): (r: Option<Read<SieAccount>>)
    ensures r.Some? ==> |r.value.rest| < |s|
  {
    var s1 :- Skip("#KONTO ", s);
    var number := ReadWord(s1);
    var s2 :- Skip(" ", number.rest);
    var name :- ReadQuoted(s2);
    var s3 :- Skip(CRLF, name.rest);
    Some(Read(SieAccount(number.value, name.value), s3))
  }

  function ReadAccounts(s: string): Read<seq<SieAccount>>
    decreases |s|
  {
    var first := ReadAccount(s);
    if first.None? then Read([], s)
    else
      var more := ReadAccounts(first.value.rest);
      Read([first.value.value] + more.value, more.rest)
  }

  function ReadTransaction(s: string): (r: Option<Read<SieTransaction>>)
    ensures r.Some? ==> |r.value.rest| < |s|
  {
    var s1 :- Skip("   #TRANS ", s);
    var account := ReadWord(s1);
    var s2 :- Skip(" {} ", account.rest);
    var amount :- ReadAmount(s2);
    var s3 :- Skip(CRLF, amount.rest);
    Some(Read(SieTransaction(account.value, amount.value), s3))
  }

  function ReadTransactions(s: string): (r: Read<seq<SieTransaction>>)
    ensures |r.rest| <= |s|
    decreases |s|
  {
    var first := ReadTransaction(s);
    if first.None? then Read([], s)
    else
      var more := ReadTransactions(first.value.rest);
      Read([first.value.value] + more.value, more.rest)
  }

  function SkipLine(literal: string, s: string): (r: Option<string>)
    ensures r.Some? ==> |r.value| < |s|
  {
    var s1 :- Skip(literal, s);
    Skip(CRLF, s1)
  }

  /** The head of a #VER record: its number, date and text. */
  function ReadVerificationHead(s: string, number: nat): (r: Option<Read<(string, string)>>)
    ensures r.Some? ==> |r.value.rest| < |s|
  {
    var s1 :- Skip("#VER \"A\" ", s);
    var n :- ReadNat(s1);
    if n.value != number then None
    else
      var s2 :- Skip(" ", n.rest);
      var date := ReadWord(s2);
      var s3 :- Skip(" ", date.rest);
      var text :- ReadQuoted(s3);
      var s4 :- Skip(CRLF, text.rest);
      Some(Read((date.value, text.value), s4))
  }

  /** One #VER record, which must carry the expected number. */
  function ReadVerification(s: string, number: nat): (r: Option<Read<SieVerification>>)
    ensures r.Some? ==> |r.value.rest| < |s|
  {
    var head :- ReadVerificationHead(s, number);
    var s1 :- SkipLine("{", head.rest);
    var ts := ReadTransactions(s1);
    var s2 :- SkipLine("}", ts.rest);
    Some(Read(SieVerification(head.value.0, head.value.1, ts.value), s2))
  }

  /** Records numbered from `number` on, to the end of the file. */
  function ReadVerifications(s: string, number: nat): Option<seq<SieVerification>>
    decreases |s|
  {
    if s == [] then Some([])
    else
      var first :- ReadVerification(s, number);
      var more :- ReadVerifications(first.rest, number + 1);
      Some([first.value] + more)
  }

  /** A tag and the rest of its line. */
  function ReadField(tag: string, s: string): Option<Read<string>> {
    var s1 :- Skip(tag, s);
    var value := ReadLine(s1);
    var s2 :- Skip(CRLF, value.rest);
    Some(Read(value.value, s2))
  }

  function ReadQuotedField(tag: string, s: string): Option<Read<string>> {
    var s1 :- Skip(tag, s);
    var value :- ReadQuoted(s1);
    var s2 :- Skip(CRLF, value.rest);
    Some(Read(value.value, s2))
  }

  /** The year of "20260101 20261231": the calendar year, from its first day to its last. */
  function YearOf(rar: string): Option<nat> {
    var from := ReadWord(rar).value;
    if |from| < 5 || !AllDigits(from) then None
    else
      var year := from[..|from| - 4];
      if from[|from| - 4..] == "0101" && rar[|from|..] == " " + year + "1231" then Some(DecimalValue(year)) else None
  }

  function ReadHead(s: string): Option<Read<SieDocument>> {
    var s1 :- SkipLine("#FLAGGA 0", s);
    var s2 :- SkipLine("#PROGRAM \"Fakturly\" 1.0", s1);
    var s3 :- SkipLine("#FORMAT PC8", s2);
    var generatedAt :- ReadField("#GEN ", s3);
    var s4 :- SkipLine("#SIETYP 4", generatedAt.rest);
    var companyName :- ReadQuotedField("#FNAMN ", s4);
    var orgNumber :- ReadField("#ORGNR ", companyName.rest);
    var rar :- ReadField("#RAR 0 ", orgNumber.rest);
    var year :- YearOf(rar.value);
    var s5 :- SkipLine("#VALUTA SEK", rar.rest);
    Some(Read(SieDocument(companyName.value, orgNumber.value, year, generatedAt.value, [], []), s5))
  }

  function ReadSie(s: string): Option<SieDocument> {
    var head :- ReadHead(s);
    var accounts := ReadAccounts(head.rest);
    var verifications :- ReadVerifications(accounts.rest, 1);
    Some(head.value.(accounts := accounts.value, verifications := verifications))
  }

  // --- Fields read back ---

  lemma ReadWordBack(word: string, rest: string)
    requires IsWord(word) && (rest == [] || !InWord(rest[0]))
    ensures ReadWord(word + rest) == Read(word, rest)
  {
    SpanOfPrefix(word, rest, InWord);
    assert (word + rest)[..|word|] == word && (word + rest)[|word|..] == rest;
  }

  lemma ReadLineBack(line: string, rest: string)
    requires IsLine(line) && (rest == [] || !InLine(rest[0]))
    ensures ReadLine(line + rest) == Read(line, rest)
  {
    SpanOfPrefix(line, rest, InLine);
    assert (line + rest)[..|line|] == line && (line + rest)[|line|..] == rest;
  }

  lemma ReadNatBack(digits: string, rest: string)
    requires digits != [] && AllDigits(digits) && (rest == [] || !IsDigit(rest[0]))
    ensures ReadNat(digits + rest) == Some(Read(DecimalValue(digits), rest))
  {
    SpanOfPrefix(digits, rest, IsDigit);
    assert (digits + rest)[..|digits|] == digits && (digits + rest)[|digits|..] == rest;
  }

  lemma UnsignedFromParts(s: string, w: nat, point: string, cents: string, c: nat, rest: string)
    requires ReadNat(s) == Some(Read(w, point)) && Skip(".", point) == Some(cents)
    requires ReadNat(cents) == Some(Read(c, rest)) && |cents| - |rest| == 2
    ensures ReadUnsigned(s) == Some(Read(100 * w + c, rest))
  {
  }

  lemma ReadUnsignedBack(whole: string, w: nat, cents: string, c: nat, rest: string)
    requires whole != [] && AllDigits(whole) && DecimalValue(whole) == w
    requires |cents| == 2 && AllDigits(cents) && DecimalValue(cents) == c
    requires rest == [] || !IsDigit(rest[0])
    ensures ReadUnsigned(whole + ("." + (cents + rest))) == Some(Read(100 * w + c, rest))
  {
    var point := "." + (cents + rest);
    ReadNatBack(whole, point);
    SkipLiteral(".", cents + rest);
    ReadNatBack(cents, rest);
    UnsignedFromParts(whole + point, w, point, cents + rest, c, rest);
  }

  lemma MinusReadsBack(unsigned: string, n: nat, ore: int, rest: string)
    requires ReadUnsigned(unsigned) == Some(Read(n, rest)) && ore + n == 0
    ensures ReadAmount("-" + unsigned) == Some(Read(ore, rest))
  {
    assert ("-" + unsigned)[0] == '-' && ("-" + unsigned)[1..] == unsigned;
  }

  lemma PlusReadsBack(unsigned: string, n: int, rest: string)
    requires ReadUnsigned(unsigned) == Some(Read(n, rest))
    requires unsigned != [] && unsigned[0] != '-'
    ensures ReadAmount(unsigned) == Some(Read(n, rest))
  {
  }

  lemma UnsignedReadsBack(n: nat, rest: string)
    requires rest == [] || !IsDigit(rest[0])
    ensures ReadUnsigned(Unsigned(n, '.') + rest) == Some(Read(n, rest))
  {
    var whole, cents := Decimal(n / 100), PadStart(Decimal(n % 100), 2, '0');
    DecimalReadsBack(n / 100);
    PaddedReadsBack(n % 100, 2);
    DecimalWidth(n % 100);
    ReadUnsignedBack(whole, n / 100, cents, n % 100, rest);
    Assoc3(whole, ".", cents, rest);
  }

  lemma UnsignedStartsWithDigit(n: nat, rest: string)
    ensures Unsigned(n, '.') + rest != [] && IsDigit((Unsigned(n, '.') + rest)[0])
  {
    assert (Unsigned(n, '.') + rest)[0] == Decimal(n / 100)[0];
  }

  lemma NegativeReadsBack(n: nat, ore: int, rest: string)
    requires ore + n == 0
    requires rest == [] || !IsDigit(rest[0])
    ensures ReadAmount("-" + (Unsigned(n, '.') + rest)) == Some(Read(ore, rest))
  {
    UnsignedReadsBack(n, rest);
    MinusReadsBack(Unsigned(n, '.') + rest, n, ore, rest);
  }

  lemma PositiveReadsBack(n: nat, rest: string)
    requires rest == [] || !IsDigit(rest[0])
    ensures ReadAmount(Unsigned(n, '.') + rest) == Some(Read(n, rest))
  {
    UnsignedReadsBack(n, rest);
    UnsignedStartsWithDigit(n, rest);
    PlusReadsBack(Unsigned(n, '.') + rest, n, rest);
  }

  /** Exact öre come back, sign and all. */
  lemma ReadAmountBack(ore: int, rest: string)
    requires rest == [] || !IsDigit(rest[0])
    ensures ReadAmount(SieAmount(ore) + rest) == Some(Read(ore, rest))
  {
    if ore < 0 {
      var n: nat := -ore;
      assert SieAmount(ore) == "-" + Unsigned(n, '.');
      PrefixAssoc("-", Unsigned(n, '.'), rest);
      NegativeReadsBack(n, ore, rest);
    } else {
      PositiveReadsBack(ore, rest);
    }
  }

  /** The two replacements in a row, character by character. */
  function Escaped(text: string): string {
    if text == [] then []
    else
      (if text[0] == '\\' then "\\\\" else if text[0] == '\"' then "\\\"" else [text[0]]) + Escaped(text[1..])
  }

  /** Doubling backslashes before escaping quotes escapes each character once. */
  lemma {:induction false} TwoReplacementsEscape(text: string)
    ensures ReplaceAll(ReplaceAll(text, '\\', "\\\\"), '\"', "\\\"") == Escaped(text)
  {
    if text != [] {
      TwoReplacementsEscape(text[1..]);
      var first := if text[0] == '\\' then "\\\\" else [text[0]];
      ReplaceAppend(first, ReplaceAll(text[1..], '\\', "\\\\"), '\"', "\\\"");
      if text[0] == '\\' {
        assert first[1..] == "\\" && first[1..][1..] == "";
        assert ReplaceAll(first, '\"', "\\\"") == "\\\\";
      } else {
        assert first[1..] == "";
      }
    }
  }

  lemma {:induction false} ReadEscapedBack(text: string, rest: string)
    ensures ReadEscaped(Escaped(text) + ("\"" + rest)) == Some(Read(text, rest))
  {
    if text == [] {
      assert Escaped(text) + ("\"" + rest) == "\"" + rest;
    } else {
      var tail := Escaped(text[1..]) + ("\"" + rest);
      ReadEscapedBack(text[1..], rest);
      ReadOneEscaped(text[0], Escaped(text[1..]), "\"" + rest, tail);
      assert [text[0]] + text[1..] == text;
    }
  }

  /** One character of the text, escaped if it must be, then the tail. */
  lemma ReadOneEscaped(c: char, escaped: string, rest: string, tail: string)
    requires tail == escaped + rest
    requires ReadEscaped(tail).Some?
    ensures var first := if c == '\\' then "\\\\" else if c == '\"' then "\\\"" else [c];
            var more := ReadEscaped(tail).value;
            ReadEscaped(first + escaped + rest) == Some(Read([c] + more.value, more.rest))
  {
    var first := if c == '\\' then "\\\\" else if c == '\"' then "\\\"" else [c];
    var s := first + escaped + rest;
    assert s == first + tail;
    if c == '\\' || c == '\"' {
      assert s[2..] == tail;
    } else {
      assert s[1..] == tail;
    }
  }

  /** Any text at all survives quoting. */
  lemma ReadQuotedBack(text: string, rest: string)
    ensures ReadQuoted(Quote(text) + rest) == Some(Read(text, rest))
  {
    TwoReplacementsEscape(text);
    Assoc3("\"", Escaped(text), "\"", rest);
    SkipLiteral("\"", Escaped(text) + ("\"" + rest));
    ReadEscapedBack(text, rest);
  }

  // --- Records read back ---

  lemma ReadAccountBack(a: SieAccount, rest: string)
    requires IsWord(a.number)
    ensures ReadAccount(AccountLine(a) + CRLF + rest) == Some(Read(a, rest))
  {
    var r2 := Quote(a.name) + (CRLF + rest);
    Assoc5("#KONTO ", a.number, " ", Quote(a.name), CRLF, rest);
    SkipLiteral("#KONTO ", a.number + (" " + r2));
    ReadWordBack(a.number, " " + r2);
    SkipLiteral(" ", r2);
    ReadQuotedBack(a.name, CRLF + rest);
    SkipLiteral(CRLF, rest);
  }

  lemma ReadTransactionBack(t: SieTransaction, rest: string)
    requires IsWord(t.account)
    ensures ReadTransaction(TransactionLine(t) + CRLF + rest) == Some(Read(t, rest))
  {
    var r2 := SieAmount(t.amountOre) + (CRLF + rest);
    Assoc5("   #TRANS ", t.account, " {} ", SieAmount(t.amountOre), CRLF, rest);
    SkipLiteral("   #TRANS ", t.account + (" {} " + r2));
    ReadWordBack(t.account, " {} " + r2);
    SkipLiteral(" {} ", r2);
    ReadAmountBack(t.amountOre, CRLF + rest);
    SkipLiteral(CRLF, rest);
  }

  /** The same lines, built from the front. */
  function AccountLinesFrom(accounts: seq<SieAccount>): seq<string> {
    if accounts == [] then [] else [AccountLine(accounts[0])] + AccountLinesFrom(accounts[1..])
  }

  lemma {:induction false} AccountLinesAppend(accounts: seq<SieAccount>, a: SieAccount)
    ensures AccountLinesFrom(accounts + [a]) == AccountLinesFrom(accounts) + [AccountLine(a)]
  {
    if accounts == [] {
      assert (accounts + [a])[1..] == [];
    } else {
      assert (accounts + [a])[1..] == accounts[1..] + [a];
      AccountLinesAppend(accounts[1..], a);
    }
  }

  lemma {:induction false} AccountLinesFromFront(accounts: seq<SieAccount>)
    ensures AccountLines(accounts) == AccountLinesFrom(accounts)
  {
    if accounts != [] {
      var n := |accounts| - 1;
      AccountLinesFromFront(accounts[..n]);
      AccountLinesAppend(accounts[..n], accounts[n]);
      assert accounts[..n] + [accounts[n]] == accounts;
    }
  }

  lemma {:induction false} ReadAccountsBack(accounts: seq<SieAccount>, rest: string)
    requires forall i :: 0 <= i < |accounts| ==> IsWord(accounts[i].number)
    requires ReadAccount(rest).None?
    ensures ReadAccounts(Flat(AccountLinesFrom(accounts)) + rest) == Read(accounts, rest)
  {
    if accounts == [] {
      assert Flat(AccountLinesFrom(accounts)) + rest == rest;
    } else {
      var more := Flat(AccountLinesFrom(accounts[1..])) + rest;
      FlatCons(AccountLine(accounts[0]), AccountLinesFrom(accounts[1..]), rest);
      ReadAccountBack(accounts[0], more);
      ReadAccountsBack(accounts[1..], rest);
      OneAccountMore(AccountLine(accounts[0]) + CRLF + more, accounts[0], more);
      assert [accounts[0]] + accounts[1..] == accounts;
    }
  }

  lemma OneAccountMore(s: string, a: SieAccount, rest: string)
    requires ReadAccount(s) == Some(Read(a, rest))
    ensures ReadAccounts(s) == Read([a] + ReadAccounts(rest).value, ReadAccounts(rest).rest)
  {
  }

  function TransactionLinesFrom(ts: seq<SieTransaction>): seq<string> {
    if ts == [] then [] else [TransactionLine(ts[0])] + TransactionLinesFrom(ts[1..])
  }

  lemma {:induction false} TransactionLinesAppend(ts: seq<SieTransaction>, t: SieTransaction)
    ensures TransactionLinesFrom(ts + [t]) == TransactionLinesFrom(ts) + [TransactionLine(t)]
  {
    if ts == [] {
      assert (ts + [t])[1..] == [];
    } else {
      assert (ts + [t])[1..] == ts[1..] + [t];
      TransactionLinesAppend(ts[1..], t);
    }
  }

  lemma {:induction false} TransactionLinesFromFront(ts: seq<SieTransaction>)
    ensures TransactionLines(ts) == TransactionLinesFrom(ts)
  {
    if ts != [] {
      var n := |ts| - 1;
      TransactionLinesFromFront(ts[..n]);
      TransactionLinesAppend(ts[..n], ts[n]);
      assert ts[..n] + [ts[n]] == ts;
    }
  }

  lemma {:induction false} ReadTransactionsBack(ts: seq<SieTransaction>, rest: string)
    requires forall i :: 0 <= i < |ts| ==> IsWord(ts[i].account)
    requires ReadTransaction(rest).None?
    ensures ReadTransactions(Flat(TransactionLinesFrom(ts)) + rest) == Read(ts, rest)
  {
    if ts == [] {
      assert Flat(TransactionLinesFrom(ts)) + rest == rest;
    } else {
      var more := Flat(TransactionLinesFrom(ts[1..])) + rest;
      FlatCons(TransactionLine(ts[0]), TransactionLinesFrom(ts[1..]), rest);
      ReadTransactionBack(ts[0], more);
      ReadTransactionsBack(ts[1..], rest);
      OneTransactionMore(TransactionLine(ts[0]) + CRLF + more, ts[0], more);
      assert [ts[0]] + ts[1..] == ts;
    }
  }

  lemma OneTransactionMore(s: string, t: SieTransaction, rest: string)
    requires ReadTransaction(s) == Some(Read(t, rest))
    ensures ReadTransactions(s) == Read([t] + ReadTransactions(rest).value, ReadTransactions(rest).rest)
  {
  }

  /** Fields that are printed bare must fit on a line, and all but two within a word. */
  predicate PrintableVerification(v: SieVerification) {
    && IsWord(v.date)
    && forall i :: 0 <= i < |v.transactions| ==> IsWord(v.transactions[i].account)
  }

  predicate Printable(d: SieDocument) {
    && IsLine(d.orgNumber)
    && IsLine(d.generatedAt)
    && (forall i :: 0 <= i < |d.accounts| ==> IsWord(d.accounts[i].number))
    && (forall i :: 0 <= i < |d.verifications| ==> PrintableVerification(d.verifications[i]))
  }

  lemma SkipLineBack(literal: string, rest: string)
    ensures SkipLine(literal, literal + CRLF + rest) == Some(rest)
  {
    assert literal + CRLF + rest == literal + (CRLF + rest);
    SkipLiteral(literal, CRLF + rest);
    SkipLiteral(CRLF, rest);
  }

  lemma ReadVerificationHeadBack(v: SieVerification, number: nat, rest: string)
    requires IsWord(v.date)
    ensures ReadVerificationHead(VerificationHead(v, number) + CRLF + rest, number)
         == Some(Read((v.date, v.text), rest))
  {
    var r2 := Quote(v.text) + (CRLF + rest);
    var r1 := v.date + (" " + r2);
    Assoc7("#VER \"A\" ", Decimal(number), " ", v.date, " ", Quote(v.text), CRLF, rest);
    SkipLiteral("#VER \"A\" ", Decimal(number) + (" " + r1));
    ReadNatBack(Decimal(number), " " + r1);
    DecimalReadsBack(number);
    SkipLiteral(" ", r1);
    ReadWordBack(v.date, " " + r2);
    SkipLiteral(" ", r2);
    ReadQuotedBack(v.text, CRLF + rest);
    SkipLiteral(CRLF, rest);
  }

  /** A record as the reader meets it: head, brace, transactions, brace. */
  lemma FlatRecord(head: string, body: seq<string>, rest: string)
    ensures Flat([head, "{"] + body + ["}"]) + rest
         == head + CRLF + ("{" + CRLF + (Flat(body) + ("}" + CRLF + rest)))
  {
    assert [head, "{"] + body + ["}"] == [head] + (["{"] + (body + ["}"]));
    FlatCons(head, ["{"] + (body + ["}"]), rest);
    FlatCons("{", body + ["}"], rest);
    FlatAppend(body, ["}"]);
    assert ["}"] + [] == ["}"];
    FlatCons("}", [], rest);
    assert Flat([]) + rest == rest;
    assert Flat(body) + Flat(["}"]) + rest == Flat(body) + (Flat(["}"]) + rest);
  }

  lemma NoTransactionAtBrace(rest: string)
    ensures ReadTransaction("}" + CRLF + rest).None?
  {
    assert ("}" + CRLF + rest)[0] == '}';
  }

  lemma ReadVerificationBack(v: SieVerification, number: nat, rest: string)
    requires PrintableVerification(v)
    ensures ReadVerification(Flat(VerificationLines(v, number)) + rest, number) == Some(Read(v, rest))
  {
    var body := TransactionLinesFrom(v.transactions);
    var r3 := "}" + CRLF + rest;
    var r2 := Flat(body) + r3;
    TransactionLinesFromFront(v.transactions);
    FlatRecord(VerificationHead(v, number), body, rest);
    ReadVerificationHeadBack(v, number, "{" + CRLF + r2);
    SkipLineBack("{", r2);
    NoTransactionAtBrace(rest);
    ReadTransactionsBack(v.transactions, r3);
    SkipLineBack("}", rest);
  }

  function VerificationLinesFrom(vs: seq<SieVerification>, number: nat): seq<string> {
    if vs == [] then [] else VerificationLines(vs[0], number) + VerificationLinesFrom(vs[1..], number + 1)
  }

  lemma {:induction false} VerificationLinesAppend(vs: seq<SieVerification>, v: SieVerification, number: nat)
    ensures VerificationLinesFrom(vs + [v], number)
         == VerificationLinesFrom(vs, number) + VerificationLines(v, number + |vs|)
  {
    if vs == [] {
      assert (vs + [v])[1..] == [];
      assert VerificationLinesFrom(vs, number) + VerificationLines(v, number) == VerificationLines(v, number) + [];
    } else {
      assert (vs + [v])[1..] == vs[1..] + [v];
      VerificationLinesAppend(vs[1..], v, number + 1);
    }
  }

  lemma {:induction false} VerificationLinesFromFront(vs: seq<SieVerification>)
    ensures AllVerificationLines(vs) == VerificationLinesFrom(vs, 1)
  {
    if vs != [] {
      var n := |vs| - 1;
      VerificationLinesFromFront(vs[..n]);
      VerificationLinesAppend(vs[..n], vs[n], 1);
      assert vs[..n] + [vs[n]] == vs;
    }
  }

  lemma OneVerificationMore(s: string, number: nat, v: SieVerification, rest: string,
                                               more: seq<SieVerification>)
    requires ReadVerification(s, number) == Some(Read(v, rest))
    requires ReadVerifications(rest, number + 1) == Some(more)
    ensures ReadVerifications(s, number) == Some([v] + more)
  {
  }

  lemma {:induction false} ReadVerificationsBack(vs: seq<SieVerification>, number: nat)
    requires forall i :: 0 <= i < |vs| ==> PrintableVerification(vs[i])
    ensures ReadVerifications(Flat(VerificationLinesFrom(vs, number)), number) == Some(vs)
  {
    if vs != [] {
      var more := VerificationLinesFrom(vs[1..], number + 1);
      FlatAppend(VerificationLines(vs[0], number), more);
      ReadVerificationBack(vs[0], number, Flat(more));
      ReadVerificationsBack(vs[1..], number + 1);
      OneVerificationMore(Flat(VerificationLines(vs[0], number)) + Flat(more), number, vs[0], Flat(more), vs[1..]);
      assert [vs[0]] + vs[1..] == vs;
    }
  }

  // --- The whole file read back ---

  lemma ReadFieldBack(tag: string, value: string, rest: string)
    requires IsLine(value)
    ensures ReadField(tag, tag + value + CRLF + rest) == Some(Read(value, rest))
  {
    Assoc3(tag, value, CRLF, rest);
    SkipLiteral(tag, value + (CRLF + rest));
    ReadLineBack(value, CRLF + rest);
    SkipLiteral(CRLF, rest);
  }

  lemma ReadQuotedFieldBack(tag: string, value: string, rest: string)
    ensures ReadQuotedField(tag, tag + Quote(value) + CRLF + rest) == Some(Read(value, rest))
  {
    Assoc3(tag, Quote(value), CRLF, rest);
    SkipLiteral(tag, Quote(value) + (CRLF + rest));
    ReadQuotedBack(value, CRLF + rest);
    SkipLiteral(CRLF, rest);
  }

  lemma RarIsLine(year: string)
    requires AllDigits(year)
    ensures IsLine(RarText(year))
  {
    var rar := RarText(year);
    forall i | 0 <= i < |rar| ensures InLine(rar[i]) {
      assert rar == year + ("0101" + " " + year + "1231");
    }
  }

  lemma RarReadsBack(year: string)
    requires AllDigits(year) && year != []
    ensures YearOf(RarText(year)) == Some(DecimalValue(year))
  {
    var from := year + "0101";
    Assoc3(from, " ", year, "1231");
    ReadWordBack(from, " " + (year + "1231"));
    assert from[..|from| - 4] == year;
  }

  /** Nine lines and what follows them, one at a time. */
  lemma FlatNine(a: string, b: string, c: string, d: string, e: string, f: string, g: string, h: string, i: string,
                 rest: string)
    ensures Flat([a, b, c, d, e, f, g, h, i]) + rest
         == a + CRLF + (b + CRLF + (c + CRLF + (d + CRLF
            + (e + CRLF + (f + CRLF + (g + CRLF + (h + CRLF + (i + CRLF + rest))))))))
  {
    assert [a, b, c, d, e, f, g, h, i] == [a] + [b, c, d, e, f, g, h, i];
    FlatCons(a, [b, c, d, e, f, g, h, i], rest);
    assert [b, c, d, e, f, g, h, i] == [b] + [c, d, e, f, g, h, i];
    FlatCons(b, [c, d, e, f, g, h, i], rest);
    assert [c, d, e, f, g, h, i] == [c] + [d, e, f, g, h, i];
    FlatCons(c, [d, e, f, g, h, i], rest);
    FlatSix(d, e, f, g, h, i, rest);
  }

  lemma FlatSix(d: string, e: string, f: string, g: string, h: string, i: string, rest: string)
    ensures Flat([d, e, f, g, h, i]) + rest
         == d + CRLF + (e + CRLF + (f + CRLF + (g + CRLF + (h + CRLF + (i + CRLF + rest)))))
  {
    assert [d, e, f, g, h, i] == [d] + [e, f, g, h, i];
    FlatCons(d, [e, f, g, h, i], rest);
    assert [e, f, g, h, i] == [e] + [f, g, h, i];
    FlatCons(e, [f, g, h, i], rest);
    assert [f, g, h, i] == [f] + [g, h, i];
    FlatCons(f, [g, h, i], rest);
    FlatThree(g, h, i, rest);
  }

  lemma FlatThree(g: string, h: string, i: string, rest: string)
    ensures Flat([g, h, i]) + rest == g + CRLF + (h + CRLF + (i + CRLF + rest))
  {
    assert [g, h, i] == [g] + [h, i];
    FlatCons(g, [h, i], rest);
    assert [h, i] == [h] + [i];
    FlatCons(h, [i], rest);
    assert [i] == [i] + [];
    FlatCons(i, [], rest);
    assert Flat([]) + rest == rest;
  }

  lemma ReadHeadBack(d: SieDocument, rest: string)
    requires IsLine(d.orgNumber) && IsLine(d.generatedAt)
    ensures ReadHead(Flat(HeadLines(d)) + rest)
         == Some(Read(SieDocument(d.companyName, d.orgNumber, d.year, d.generatedAt, [], []), rest))
  {
    var rar := RarText(Decimal(d.year));
    RarIsLine(Decimal(d.year));
    RarReadsBack(Decimal(d.year));
    DecimalReadsBack(d.year);
    var r9 := "#VALUTA SEK" + CRLF + rest;
    var r8 := "#RAR 0 " + rar + CRLF + r9;
    var r7 := "#ORGNR " + d.orgNumber + CRLF + r8;
    var r6 := "#FNAMN " + Quote(d.companyName) + CRLF + r7;
    var r5 := "#SIETYP 4" + CRLF + r6;
    var r4 := "#GEN " + d.generatedAt + CRLF + r5;
    var r3 := "#FORMAT PC8" + CRLF + r4;
    var r2 := "#PROGRAM \"Fakturly\" 1.0" + CRLF + r3;
    FlatNine("#FLAGGA 0", "#PROGRAM \"Fakturly\" 1.0", "#FORMAT PC8", "#GEN " + d.generatedAt, "#SIETYP 4",
             "#FNAMN " + Quote(d.companyName), "#ORGNR " + d.orgNumber, "#RAR 0 " + rar, "#VALUTA SEK", rest);
    SkipLineBack("#FLAGGA 0", r2);
    SkipLineBack("#PROGRAM \"Fakturly\" 1.0", r3);
    SkipLineBack("#FORMAT PC8", r4);
    ReadFieldBack("#GEN ", d.generatedAt, r5);
    SkipLineBack("#SIETYP 4", r6);
    ReadQuotedFieldBack("#FNAMN ", d.companyName, r7);
    ReadFieldBack("#ORGNR ", d.orgNumber, r8);
    ReadFieldBack("#RAR 0 ", rar, r9);
    SkipLineBack("#VALUTA SEK", rest);
  }

  lemma NotAnAccount(s: string)
    requires |s| >= 2 && s[1] != 'K'
    ensures ReadAccount(s).None?
  {
  }

  lemma StartsWithVer(v: SieVerification, number: nat, rest: string)
    ensures |VerificationHead(v, number) + rest| >= 2 && (VerificationHead(v, number) + rest)[1] == 'V'
  {
  }

  lemma NoAccountAtVerification(vs: seq<SieVerification>, number: nat)
    ensures ReadAccount(Flat(VerificationLinesFrom(vs, number))).None?
  {
    if vs != [] {
      var more := Flat(VerificationLinesFrom(vs[1..], number + 1));
      var head, body := VerificationHead(vs[0], number), TransactionLines(vs[0].transactions);
      FlatAppend(VerificationLines(vs[0], number), VerificationLinesFrom(vs[1..], number + 1));
      FlatRecord(head, body, more);
      var tail := "{" + CRLF + (Flat(body) + ("}" + CRLF + more));
      assert head + CRLF + tail == head + (CRLF + tail);
      StartsWithVer(vs[0], number, CRLF + tail);
      NotAnAccount(head + (CRLF + tail));
    }
  }

  /** The three parts of the file, whatever its head is. */
  lemma FlatParts(head: seq<string>, accounts: seq<string>, verifications: seq<string>)
    ensures Flat(head + accounts + verifications) == Flat(head) + (Flat(accounts) + Flat(verifications))
  {
    FlatAppend(head + accounts, verifications);
    FlatAppend(head, accounts);
  }

  /** Reading a built file gives back the document: names and texts through the quoting,
      verifications numbered 1 to n, every amount to the öre. */
  lemma SieReadsBack(d: SieDocument)
    requires Printable(d)
    ensures ReadSie(Join(DocumentLines(d), CRLF) + CRLF) == Some(d)
  {
    var accounts, verifications := AccountLinesFrom(d.accounts), VerificationLinesFrom(d.verifications, 1);
    AccountLinesFromFront(d.accounts);
    VerificationLinesFromFront(d.verifications);
    JoinIsFlat(DocumentLines(d));
    FlatParts(HeadLines(d), accounts, verifications);
    ReadHeadBack(d, Flat(accounts) + Flat(verifications));
    NoAccountAtVerification(d.verifications, 1);
    ReadAccountsBack(d.accounts, Flat(verifications));
    ReadVerificationsBack(d.verifications, 1);
  }

  // --- The bytes ---

  type Byte = n: int | 0 <= n < 256

  const CP437: map<char, Byte> :=
    map['å' := 0x86, 'ä' := 0x84, 'ö' := 0x94, 'Å' := 0x8f, 'Ä' := 0x8e, 'Ö' := 0x99,
        'é' := 0x82, 'É' := 0x90, 'ü' := 0x81, 'Ü' := 0x9a]

  function ByteOf(c: char): Byte {
    if c as int < 0x80 then c as int else if c in CP437 then CP437[c] else 0x3f
  }

  /** JavaScript's length of a character: two code units beyond the basic plane. */
  function Units(text: string): nat {
    if text == [] then 0 else Units(text[..|text| - 1]) + if text[|text| - 1] as int < 0x10000 then 1 else 2
  }

  lemma {:induction false} UnitsCoverCharacters(text: string)
    ensures |text| <= Units(text)
  {
    if text != [] {
      UnitsCoverCharacters(text[..|text| - 1]);
    }
  }

  function BytesOf(text: string): (bytes: seq<Byte>)
    ensures |bytes| == |text|
  {
    seq(|text|, i requires 0 <= i < |text| => ByteOf(text[i]))
  }

  /** One byte a character, into a buffer sized by code units: the index never leaves it. */
  method EncodeCp437(text: string) returns (encoded: seq<Byte>)
    ensures encoded == BytesOf(text)
  {
    UnitsCoverCharacters(text);
    var bytes := new Byte[Units(text)](_ => 0);
    var i := 0;
    while i < |text|
      invariant 0 <= i <= |text| <= bytes.Length
      invariant bytes[..i] == BytesOf(text)[..i]
    {
      bytes[i] := ByteOf(text[i]);
      i := i + 1;
    }
    encoded := bytes[..i];
  }

  function CharOf(b: Byte): char {
    if b < 0x80 then b as char
    else match b
      case 0x86 => 'å' case 0x84 => 'ä' case 0x94 => 'ö'
      case 0x8f => 'Å' case 0x8e => 'Ä' case 0x99 => 'Ö'
      case 0x82 => 'é' case 0x90 => 'É' case 0x81 => 'ü' case 0x9a => 'Ü'
      case _ => '?'
  }

  function Decode(bytes: seq<Byte>): (text: string)
    ensures |text| == |bytes|
  {
    seq(|bytes|, i requires 0 <= i < |bytes| => CharOf(bytes[i]))
  }

  predicate Encodable(c: char) {
    c as int < 0x80 || c in CP437
  }

  /** Code page 437 from 0x80 on, as IBM drew it up. */
  const CODE_PAGE := "ÇüéâäàåçêëèïîìÄÅÉæÆôöòûùÿÖÜ"

  /** The table sends every character it has to its own place in the code page. */
  lemma TableIsTheCodePage(c: char)
    requires c in CP437
    ensures 0x80 <= ByteOf(c) < 0x80 + |CODE_PAGE| && CODE_PAGE[ByteOf(c) - 0x80] == c
  {
  }

  lemma EncodableIff(c: char)
    ensures CharOf(ByteOf(c)) == c <==> Encodable(c)
  {
  }

  /** The bytes give the text back exactly when every character is ASCII or in the table. */
  lemma Cp437InvertsIff(text: string)
    ensures Decode(BytesOf(text)) == text <==> forall i :: 0 <= i < |text| ==> Encodable(text[i])
  {
    forall i | 0 <= i < |text|
      ensures Decode(BytesOf(text))[i] == text[i] <==> Encodable(text[i])
    {
      EncodableIff(text[i]);
    }
  }
}
