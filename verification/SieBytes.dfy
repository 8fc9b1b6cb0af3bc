/** The SIE file as the bytes that are handed over. encodeCp437 works on the finished text, record marks,
    quotes and all, and a reader gets to see only what it left of them. What it loses is lost from the
    fields, character by character, and nothing else of the file is harmed: losing characters commutes
    with quoting, with printing a record, and with printing the document. */
module SieBytes {
  import opened Wrappers
  import opened Text
  import opened Sie

  /** A text after encoding and decoding: characters without a byte have become question marks. */
  function AsRead(text: string): (s: string)
    ensures |s| == |text|
  {
    Decode(BytesOf(text))
  }

  predicate AllEncodable(text: string) {
    forall i :: 0 <= i < |text| ==> Encodable(text[i])
  }

  lemma AsReadIff(text: string)
    ensures AsRead(text) == text <==> AllEncodable(text)
  {
    Cp437InvertsIff(text);
  }

  lemma AsReadAppend(a: string, b: string)
    ensures AsRead(a + b) == AsRead(a) + AsRead(b)
  {
  }

  lemma AsReadFour(a: string, b: string, c: string, d: string)
    ensures AsRead(a + b + c + d) == AsRead(a) + AsRead(b) + AsRead(c) + AsRead(d)
  {
    AsReadAppend(a + b + c, d);
    AsReadAppend(a + b, c);
    AsReadAppend(a, b);
  }

  /** Escaping and losing characters can be done in either order. */
  lemma {:induction false} AsReadReplace(text: string, c: char, replacement: string)
    requires c as int < 0x80 && c != '?' && AllEncodable(replacement)
    ensures AsRead(ReplaceAll(text, c, replacement)) == ReplaceAll(AsRead(text), c, replacement)
  {
    if text != [] {
      AsReadReplace(text[1..], c, replacement);
      AsReadIff(replacement);
      var first := if text[0] == c then replacement else [text[0]];
      AsReadAppend(first, ReplaceAll(text[1..], c, replacement));
      assert AsRead(text)[1..] == AsRead(text[1..]);
      assert AsRead(text)[0] == c <==> text[0] == c;
      assert AsRead([text[0]]) == [AsRead(text)[0]];
    }
  }

  lemma AsReadQuote(text: string)
    ensures AsRead(Quote(text)) == Quote(AsRead(text))
  {
    AsReadReplace(text, '\\', "\\\\");
    AsReadReplace(ReplaceAll(text, '\\', "\\\\"), '\"', "\\\"");
    var inner := ReplaceAll(ReplaceAll(text, '\\', "\\\\"), '\"', "\\\"");
    AsReadAppend("\"" + inner, "\"");
    AsReadAppend("\"", inner);
    AsReadIff("\"");
  }

  // --- The document as it is read from the bytes ---

  function AccountAsRead(a: SieAccount): SieAccount {
    SieAccount(AsRead(a.number), AsRead(a.name))
  }

  function TransactionAsRead(t: SieTransaction): SieTransaction {
    t.(account := AsRead(t.account))
  }

  function TransactionsAsRead(ts: seq<SieTransaction>): (r: seq<SieTransaction>)
    ensures |r| == |ts|
  {
    seq(|ts|, i requires 0 <= i < |ts| => TransactionAsRead(ts[i]))
  }

  function VerificationAsRead(v: SieVerification): SieVerification {
    SieVerification(AsRead(v.date), AsRead(v.text), TransactionsAsRead(v.transactions))
  }

  function AccountsAsRead(accounts: seq<SieAccount>): (r: seq<SieAccount>)
    ensures |r| == |accounts|
  {
    seq(|accounts|, i requires 0 <= i < |accounts| => AccountAsRead(accounts[i]))
  }

  function VerificationsAsRead(vs: seq<SieVerification>): (r: seq<SieVerification>)
    ensures |r| == |vs|
  {
    seq(|vs|, i requires 0 <= i < |vs| => VerificationAsRead(vs[i]))
  }

  function DocumentAsRead(d: SieDocument): SieDocument {
    SieDocument(AsRead(d.companyName), AsRead(d.orgNumber), d.year, AsRead(d.generatedAt),
                AccountsAsRead(d.accounts), VerificationsAsRead(d.verifications))
  }

  predicate EncodableAccount(a: SieAccount) {
    AllEncodable(a.number) && AllEncodable(a.name)
  }

  predicate EncodableVerification(v: SieVerification) {
    && AllEncodable(v.date) && AllEncodable(v.text)
    && forall i :: 0 <= i < |v.transactions| ==> AllEncodable(v.transactions[i].account)
  }

  predicate EncodableDocument(d: SieDocument) {
    && AllEncodable(d.companyName) && AllEncodable(d.orgNumber) && AllEncodable(d.generatedAt)
    && (forall i :: 0 <= i < |d.accounts| ==> EncodableAccount(d.accounts[i]))
    && (forall i :: 0 <= i < |d.verifications| ==> EncodableVerification(d.verifications[i]))
  }

  lemma TransactionsAsReadIff(ts: seq<SieTransaction>)
    ensures TransactionsAsRead(ts) == ts <==> forall i :: 0 <= i < |ts| ==> AllEncodable(ts[i].account)
  {
    forall i | 0 <= i < |ts|
      ensures TransactionsAsRead(ts)[i] == ts[i] <==> AllEncodable(ts[i].account)
    {
      AsReadIff(ts[i].account);
    }
    SameElements(TransactionsAsRead(ts), ts);
  }

  lemma VerificationAsReadIff(v: SieVerification)
    ensures VerificationAsRead(v) == v <==> EncodableVerification(v)
  {
    AsReadIff(v.date);
    AsReadIff(v.text);
    TransactionsAsReadIff(v.transactions);
  }

  lemma AccountsAsReadIff(accounts: seq<SieAccount>)
    ensures AccountsAsRead(accounts) == accounts <==> forall i :: 0 <= i < |accounts| ==> EncodableAccount(accounts[i])
  {
    forall i | 0 <= i < |accounts|
      ensures AccountsAsRead(accounts)[i] == accounts[i] <==> EncodableAccount(accounts[i])
    {
      AsReadIff(accounts[i].number);
      AsReadIff(accounts[i].name);
    }
    SameElements(AccountsAsRead(accounts), accounts);
  }

  lemma VerificationsAsReadIff(vs: seq<SieVerification>)
    ensures VerificationsAsRead(vs) == vs <==> forall i :: 0 <= i < |vs| ==> EncodableVerification(vs[i])
  {
    forall i | 0 <= i < |vs|
      ensures VerificationsAsRead(vs)[i] == vs[i] <==> EncodableVerification(vs[i])
    {
      VerificationAsReadIff(vs[i]);
    }
    SameElements(VerificationsAsRead(vs), vs);
  }

  lemma DocumentAsReadIff(d: SieDocument)
    ensures DocumentAsRead(d) == d <==> EncodableDocument(d)
  {
    AsReadIff(d.companyName);
    AsReadIff(d.orgNumber);
    AsReadIff(d.generatedAt);
    AccountsAsReadIff(d.accounts);
    VerificationsAsReadIff(d.verifications);
  }

  // --- The lines ---

  function LinesAsRead(lines: seq<string>): (r: seq<string>)
    ensures |r| == |lines|
  {
    seq(|lines|, i requires 0 <= i < |lines| => AsRead(lines[i]))
  }

  lemma LinesAsReadAppend(a: seq<string>, b: seq<string>)
    ensures LinesAsRead(a + b) == LinesAsRead(a) + LinesAsRead(b)
  {
  }

  lemma {:induction false} FlatAsRead(lines: seq<string>)
    ensures AsRead(Flat(lines)) == Flat(LinesAsRead(lines))
  {
    if lines != [] {
      FlatAsRead(lines[1..]);
      AsReadAppend(lines[0] + CRLF, Flat(lines[1..]));
      AsReadAppend(lines[0], CRLF);
      AsReadIff(CRLF);
      assert LinesAsRead(lines)[1..] == LinesAsRead(lines[1..]);
    }
  }

  lemma DigitsAsRead(s: string)
    requires AllDigits(s)
    ensures AllEncodable(s) && AsRead(s) == s
  {
    AsReadIff(s);
  }

  lemma AmountAsRead(ore: int)
    ensures AsRead(SieAmount(ore)) == SieAmount(ore)
  {
    var n: nat := if ore < 0 then -ore else ore;
    PaddedReadsBack(n % 100, 2);
    assert AllEncodable(Unsigned(n, '.'));
    AsReadIff(SieAmount(ore));
  }

  lemma FieldBetween(before: string, field: string, after: string, last: string)
    requires AllEncodable(before) && AllEncodable(after)
    ensures AsRead(before + field + after + last) == before + AsRead(field) + after + AsRead(last)
  {
    AsReadFour(before, field, after, last);
    AsReadIff(before);
    AsReadIff(after);
  }

  lemma AccountLineAsRead(a: SieAccount)
    ensures AsRead(AccountLine(a)) == AccountLine(AccountAsRead(a))
  {
    FieldBetween("#KONTO ", a.number, " ", Quote(a.name));
    AsReadQuote(a.name);
  }

  lemma TransactionTags()
    ensures AllEncodable("   #TRANS ") && AllEncodable(" {} ")
  {
  }

  lemma TransactionLineAsRead(t: SieTransaction)
    ensures AsRead(TransactionLine(t)) == TransactionLine(TransactionAsRead(t))
  {
    TransactionTags();
    FieldBetween("   #TRANS ", t.account, " {} ", SieAmount(t.amountOre));
    AmountAsRead(t.amountOre);
  }

  lemma HeadAsRead(v: SieVerification, number: nat)
    ensures AsRead(VerificationHead(v, number)) == VerificationHead(VerificationAsRead(v), number)
  {
    AsReadFour("#VER \"A\" " + Decimal(number) + " ", v.date, " ", Quote(v.text));
    AsReadAppend("#VER \"A\" " + Decimal(number), " ");
    AsReadAppend("#VER \"A\" ", Decimal(number));
    AsReadIff("#VER \"A\" ");
    AsReadIff(" ");
    DigitsAsRead(Decimal(number));
    AsReadQuote(v.text);
  }

  lemma OneLineAsRead(lines: seq<string>, line: string)
    ensures LinesAsRead(lines + [line]) == LinesAsRead(lines) + [AsRead(line)]
  {
  }

  lemma OneTransactionAsRead(ts: seq<SieTransaction>)
    requires ts != []
    ensures var n := |ts| - 1;
      TransactionLines(TransactionsAsRead(ts))
      == TransactionLines(TransactionsAsRead(ts[..n])) + [TransactionLine(TransactionAsRead(ts[n]))]
  {
    assert TransactionsAsRead(ts)[..|ts| - 1] == TransactionsAsRead(ts[..|ts| - 1]);
  }

  lemma {:induction false} TransactionLinesAsRead(ts: seq<SieTransaction>)
    ensures LinesAsRead(TransactionLines(ts)) == TransactionLines(TransactionsAsRead(ts))
  {
    if ts != [] {
      var n := |ts| - 1;
      TransactionLinesAsRead(ts[..n]);
      TransactionLineAsRead(ts[n]);
      OneLineAsRead(TransactionLines(ts[..n]), TransactionLine(ts[n]));
      OneTransactionAsRead(ts);
    }
  }

  lemma OneAccountAsRead(accounts: seq<SieAccount>)
    requires accounts != []
    ensures var n := |accounts| - 1;
      AccountLines(AccountsAsRead(accounts))
      == AccountLines(AccountsAsRead(accounts[..n])) + [AccountLine(AccountAsRead(accounts[n]))]
  {
    assert AccountsAsRead(accounts)[..|accounts| - 1] == AccountsAsRead(accounts[..|accounts| - 1]);
  }

  lemma {:induction false} AccountLinesAsRead(accounts: seq<SieAccount>)
    ensures LinesAsRead(AccountLines(accounts)) == AccountLines(AccountsAsRead(accounts))
  {
    if accounts != [] {
      var n := |accounts| - 1;
      AccountLinesAsRead(accounts[..n]);
      AccountLineAsRead(accounts[n]);
      OneLineAsRead(AccountLines(accounts[..n]), AccountLine(accounts[n]));
      OneAccountAsRead(accounts);
    }
  }

  lemma RecordAsRead(v: SieVerification, number: nat)
    ensures LinesAsRead(VerificationLines(v, number)) == VerificationLines(VerificationAsRead(v), number)
  {
    HeadAsRead(v, number);
    TransactionLinesAsRead(v.transactions);
    AsReadIff("{");
    AsReadIff("}");
    var head := [VerificationHead(v, number), "{"];
    LinesAsReadAppend(head + TransactionLines(v.transactions), ["}"]);
    LinesAsReadAppend(head, TransactionLines(v.transactions));
    assert LinesAsRead(head) == [AsRead(VerificationHead(v, number)), AsRead("{")];
    assert LinesAsRead(["}"]) == [AsRead("}")];
  }

  lemma {:induction false} RecordsAsRead(vs: seq<SieVerification>)
    ensures LinesAsRead(AllVerificationLines(vs)) == AllVerificationLines(VerificationsAsRead(vs))
  {
    if vs != [] {
      var n := |vs| - 1;
      RecordsAsRead(vs[..n]);
      RecordAsRead(vs[n], |vs|);
      LinesAsReadAppend(AllVerificationLines(vs[..n]), VerificationLines(vs[n], |vs|));
      assert VerificationsAsRead(vs)[..n] == VerificationsAsRead(vs[..n]);
    }
  }

  lemma TaggedAsRead(tag: string, field: string)
    requires AllEncodable(tag)
    ensures AsRead(tag + field) == tag + AsRead(field)
  {
    AsReadAppend(tag, field);
    AsReadIff(tag);
  }

  lemma RarAsRead(year: nat)
    ensures AsRead("#RAR 0 " + RarText(Decimal(year))) == "#RAR 0 " + RarText(Decimal(year))
  {
    TaggedAsRead("#RAR 0 ", RarText(Decimal(year)));
    AsReadIff(RarText(Decimal(year)));
  }

  lemma NineAsRead(a: string, b: string, c: string, d: string, e: string, f: string, g: string, h: string, i: string)
    ensures LinesAsRead([a, b, c, d, e, f, g, h, i])
         == [AsRead(a), AsRead(b), AsRead(c), AsRead(d), AsRead(e), AsRead(f), AsRead(g), AsRead(h), AsRead(i)]
  {
  }

  lemma FixedLinesAsRead()
    ensures AsRead("#FLAGGA 0") == "#FLAGGA 0"
    ensures AsRead("#PROGRAM \"Fakturly\" 1.0") == "#PROGRAM \"Fakturly\" 1.0"
    ensures AsRead("#FORMAT PC8") == "#FORMAT PC8"
    ensures AsRead("#SIETYP 4") == "#SIETYP 4"
    ensures AsRead("#VALUTA SEK") == "#VALUTA SEK"
  {
    AsReadIff("#FLAGGA 0");
    AsReadIff("#PROGRAM \"Fakturly\" 1.0");
    AsReadIff("#FORMAT PC8");
    AsReadIff("#SIETYP 4");
    AsReadIff("#VALUTA SEK");
  }

  lemma FieldLinesAsRead(d: SieDocument)
    ensures AsRead("#GEN " + d.generatedAt) == "#GEN " + AsRead(d.generatedAt)
    ensures AsRead("#FNAMN " + Quote(d.companyName)) == "#FNAMN " + Quote(AsRead(d.companyName))
    ensures AsRead("#ORGNR " + d.orgNumber) == "#ORGNR " + AsRead(d.orgNumber)
  {
    TaggedAsRead("#GEN ", d.generatedAt);
    TaggedAsRead("#FNAMN ", Quote(d.companyName));
    AsReadQuote(d.companyName);
    TaggedAsRead("#ORGNR ", d.orgNumber);
  }

  lemma HeadLinesAsRead(d: SieDocument)
    ensures LinesAsRead(HeadLines(d)) == HeadLines(DocumentAsRead(d))
  {
    NineAsRead("#FLAGGA 0", "#PROGRAM \"Fakturly\" 1.0", "#FORMAT PC8", "#GEN " + d.generatedAt, "#SIETYP 4",
               "#FNAMN " + Quote(d.companyName), "#ORGNR " + d.orgNumber,
               "#RAR 0 " + RarText(Decimal(d.year)), "#VALUTA SEK");
    FixedLinesAsRead();
    FieldLinesAsRead(d);
    RarAsRead(d.year);
  }

  lemma DocumentLinesAsRead(d: SieDocument)
    ensures LinesAsRead(DocumentLines(d)) == DocumentLines(DocumentAsRead(d))
  {
    HeadLinesAsRead(d);
    AccountLinesAsRead(d.accounts);
    RecordsAsRead(d.verifications);
    LinesAsReadAppend(HeadLines(d) + AccountLines(d.accounts), AllVerificationLines(d.verifications));
    LinesAsReadAppend(HeadLines(d), AccountLines(d.accounts));
  }

  // --- Reading the bytes ---

  function FileText(d: SieDocument): string {
    Join(DocumentLines(d), CRLF) + CRLF
  }

  lemma FieldsStayPrintable(s: string)
    ensures IsWord(AsRead(s)) <==> IsWord(s)
    ensures IsLine(AsRead(s)) <==> IsLine(s)
  {
    forall i | 0 <= i < |s|
      ensures AsRead(s)[i] == ' ' <==> s[i] == ' '
      ensures AsRead(s)[i] == '\r' <==> s[i] == '\r'
    {
    }
  }

  lemma StaysPrintable(d: SieDocument)
    requires Printable(d)
    ensures Printable(DocumentAsRead(d))
  {
    FieldsStayPrintable(d.orgNumber);
    FieldsStayPrintable(d.generatedAt);
    forall i | 0 <= i < |d.accounts|
      ensures IsWord(DocumentAsRead(d).accounts[i].number)
    {
      FieldsStayPrintable(d.accounts[i].number);
    }
    forall i | 0 <= i < |d.verifications|
      ensures PrintableVerification(DocumentAsRead(d).verifications[i])
    {
      VerificationStaysPrintable(d.verifications[i]);
    }
  }

  lemma VerificationStaysPrintable(v: SieVerification)
    requires PrintableVerification(v)
    ensures PrintableVerification(VerificationAsRead(v))
  {
    FieldsStayPrintable(v.date);
    forall i | 0 <= i < |v.transactions|
      ensures IsWord(TransactionsAsRead(v.transactions)[i].account)
    {
      FieldsStayPrintable(v.transactions[i].account);
    }
  }

  /** The bytes of any printable document read back as the document with its unencodable characters
      replaced, and so as the document itself exactly when every field is encodable. */
  lemma BytesReadBack(d: SieDocument)
    requires Printable(d)
    ensures ReadSie(Decode(BytesOf(FileText(d)))) == Some(DocumentAsRead(d))
    ensures ReadSie(Decode(BytesOf(FileText(d)))) == Some(d) <==> EncodableDocument(d)
  {
    JoinIsFlat(DocumentLines(d));
    FlatAsRead(DocumentLines(d));
    DocumentLinesAsRead(d);
    JoinIsFlat(DocumentLines(DocumentAsRead(d)));
    StaysPrintable(d);
    SieReadsBack(DocumentAsRead(d));
    DocumentAsReadIff(d);
  }
}
