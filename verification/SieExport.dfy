/** sieExport in backend/src/services/report.service.ts: the ledger of a period handed over as a SIE
    file. The whole chain from invoice lines over stored totals, ledger rows and journal entries to the
    text of the file and its bytes, and back. The platform's calendar is a parameter; the company's name
    and organisation number come from its surroundings. */
module SieExport {
  import opened Wrappers
  import opened Ledger
  import opened Workflow
  import opened Text
  import opened Reports
  import opened Reconciliation
  import opened Sie
  import opened SieBytes

  /** The chart of accounts, in the order it is written down. */
  const ACCOUNTS: seq<SieAccount> :=
    [SieAccount("1510", "Kundfordringar"), SieAccount("1930", "Företagskonto"),
     SieAccount("3001", "Försäljning 25 % moms"), SieAccount("3002", "Försäljning 12 % moms"),
     SieAccount("3003", "Försäljning 6 % moms"), SieAccount("3004", "Försäljning momsfri"),
     SieAccount("2611", "Utgående moms 25 %"), SieAccount("2621", "Utgående moms 12 %"),
     SieAccount("2631", "Utgående moms 6 %"), SieAccount("8313", "Ränteintäkter kundfordringar"),
     SieAccount("3590", "Påminnelseavgifter")]

  function SieTransactions(postings: seq<Posting>): seq<SieTransaction> {
    if postings == [] then []
    else
      var last := postings[|postings| - 1];
      SieTransactions(postings[..|postings| - 1]) + [SieTransaction(Decimal(last.account), last.amountOre)]
  }

  /** `day` is the platform's calendar: an instant to its eight digits. */
  function SieJournal(journal: seq<Verification>, day: Time -> string): (vs: seq<SieVerification>)
    ensures |vs| == |journal|
  {
    seq(|journal|, i requires 0 <= i < |journal| =>
      SieVerification(day(journal[i].at), journal[i].text, SieTransactions(journal[i].transactions)))
  }

  /** Everything the export reads from its surroundings. */
  datatype Letterhead = Letterhead(companyName: string, orgNumber: string, year: nat, generatedAt: string)

  function ExportDocument(h: Letterhead, journal: seq<Verification>, day: Time -> string): SieDocument {
    SieDocument(h.companyName, h.orgNumber, h.year, h.generatedAt, ACCOUNTS, SieJournal(journal, day))
  }

  // --- What a file posts ---

  function TransactionsPosted(ts: seq<SieTransaction>, account: string): int {
    if ts == [] then 0
    else
      var last := ts[|ts| - 1];
      TransactionsPosted(ts[..|ts| - 1], account) + if last.account == account then last.amountOre else 0
  }

  function FilePosted(vs: seq<SieVerification>, account: string): int {
    if vs == [] then 0
    else FilePosted(vs[..|vs| - 1], account) + TransactionsPosted(vs[|vs| - 1].transactions, account)
  }

  lemma DecimalIsInjective(a: nat, b: nat)
    ensures Decimal(a) == Decimal(b) <==> a == b
  {
    DecimalReadsBack(a);
    DecimalReadsBack(b);
  }

  lemma {:induction false} TransactionsCarryOver(postings: seq<Posting>, account: Account)
    ensures TransactionsPosted(SieTransactions(postings), Decimal(account)) == PostedTo(postings, account)
    ensures BalanceOf(SieTransactions(postings)) == SumPostings(postings)
    ensures |SieTransactions(postings)| == |postings|
    ensures forall i :: 0 <= i < |postings| ==> AllDigits(SieTransactions(postings)[i].account)
  {
    if postings != [] {
      var last, rest := postings[|postings| - 1], postings[..|postings| - 1];
      TransactionsCarryOver(rest, account);
      DecimalIsInjective(last.account, account);
      var t := SieTransaction(Decimal(last.account), last.amountOre);
      assert (SieTransactions(rest) + [t])[..|rest|] == SieTransactions(rest);
    }
  }

  lemma {:induction false} JournalCarriesOver(journal: seq<Verification>, day: Time -> string, account: Account)
    ensures FilePosted(SieJournal(journal, day), Decimal(account)) == JournalPosted(journal, account)
  {
    if journal != [] {
      var n := |journal| - 1;
      assert SieJournal(journal, day)[..n] == SieJournal(journal[..n], day);
      JournalCarriesOver(journal[..n], day, account);
      TransactionsCarryOver(journal[n].transactions, account);
    }
  }

  lemma ChartIsPrintable()
    ensures forall i :: 0 <= i < |ACCOUNTS| ==> IsWord(ACCOUNTS[i].number)
  {
  }

  lemma DigitsAreAWord(s: string)
    requires AllDigits(s)
    ensures IsWord(s)
  {
  }

  /** Whatever ran before, the export never throws, and a reader of the file finds the chart,
      every entry under consecutive numbers, and on each account exactly what the journal
      posts to it. */
  lemma ExportReadsBack(es: seq<Event>, from: Time, to: Time, h: Letterhead, day: Time -> string)
    requires IsLine(h.orgNumber) && IsLine(h.generatedAt)
    requires forall t :: IsWord(day(t))
    ensures RowsHaveInvoices(Run(es).db, RowsBetween(Run(es).db.ledger, from, to))
    ensures var journal := Verifications(Run(es).db, RowsBetween(Run(es).db.ledger, from, to));
            var d := ExportDocument(h, journal, day);
            && Balanced(d)
            && ReadSie(Join(DocumentLines(d), CRLF) + CRLF) == Some(d)
            && (forall account: Account ::
                  FilePosted(d.verifications, Decimal(account)) == JournalPosted(journal, account))
  {
    EveryVerificationBalances(es, from, to);
    var journal := Verifications(Run(es).db, RowsBetween(Run(es).db.ledger, from, to));
    var d := ExportDocument(h, journal, day);
    JournalIsPrintable(journal, day);
    ChartIsPrintable();
    SieReadsBack(d);
    forall account: Account
      ensures FilePosted(d.verifications, Decimal(account)) == JournalPosted(journal, account)
    {
      JournalCarriesOver(journal, day, account);
    }
  }

  lemma JournalIsPrintable(journal: seq<Verification>, day: Time -> string)
    requires forall i :: 0 <= i < |journal| ==> SumPostings(journal[i].transactions) == 0
    requires forall t :: IsWord(day(t))
    ensures AllBalanced(SieJournal(journal, day), |journal|)
    ensures forall i :: 0 <= i < |journal| ==> PrintableVerification(SieJournal(journal, day)[i])
  {
    forall i | 0 <= i < |journal|
      ensures IsBalanced(SieJournal(journal, day)[i]) && PrintableVerification(SieJournal(journal, day)[i])
    {
      var postings := journal[i].transactions;
      TransactionsCarryOver(postings, 0);
      forall k | 0 <= k < |postings| ensures IsWord(SieTransactions(postings)[k].account) {
        DigitsAreAWord(SieTransactions(postings)[k].account);
      }
    }
  }

  // --- The file entry by entry ---

  /** The entry of this ledger row: its day, what it says it is, and its postings one by one. */
  predicate IsEntryFor(v: SieVerification, row: Row, inv: Invoice, day: Time -> string) {
    && v.date == day(row.createdAt)
    && IsTextOf(v.text, row.rowType, inv.number)
    && |v.transactions| == |PostingsOf(row, inv)|
    && forall k :: 0 <= k < |v.transactions| ==>
         && v.transactions[k].amountOre == PostingsOf(row, inv)[k].amountOre
         && v.transactions[k].account == Decimal(PostingsOf(row, inv)[k].account)
  }

  lemma {:induction false} TransactionsOneByOne(postings: seq<Posting>)
    ensures var ts := SieTransactions(postings);
      && |ts| == |postings|
      && forall k :: 0 <= k < |ts| ==>
           ts[k].amountOre == postings[k].amountOre && ts[k].account == Decimal(postings[k].account)
  {
    if postings != [] {
      TransactionsOneByOne(postings[..|postings| - 1]);
    }
  }

  lemma EntryIsForRow(row: Row, inv: Invoice, day: Time -> string)
    requires VerificationOf(row, inv).Some?
    ensures var v := VerificationOf(row, inv).value;
      IsEntryFor(SieVerification(day(v.at), v.text, SieTransactions(v.transactions)), row, inv, day)
  {
    EntryTextIsTextOf(row.rowType, inv.number);
    TransactionsOneByOne(PostingsOf(row, inv));
  }

  /** The row made this entry. */
  predicate MadeEntry(db: Db, row: Row, v: Verification) {
    Live(db, row.invoiceId) && VerificationOf(row, At(db, row.invoiceId)) == Some(v)
  }

  lemma {:induction false} EntriesOfPrefix(db: Db, rows: seq<Row>, journal: seq<Verification>, k: nat)
    requires RowsHaveInvoices(db, rows) && journal == Verifications(db, rows)
    requires |journal| == |rows| && k <= |rows|
    ensures RowsHaveInvoices(db, rows[..k]) && Verifications(db, rows[..k]) == journal[..k]
  {
    if k == |rows| {
      assert rows[..k] == rows && journal[..k] == journal;
    } else {
      var rest, before := LastEntry(db, rows, journal);
      EntriesOfPrefix(db, rest, before, k);
      assert rest[..k] == rows[..k] && before[..k] == journal[..k];
    }
  }

  lemma EntryOfRow(db: Db, rows: seq<Row>, journal: seq<Verification>, i: nat)
    requires RowsHaveInvoices(db, rows) && journal == Verifications(db, rows)
    requires |journal| == |rows| && i < |rows|
    ensures MadeEntry(db, rows[i], journal[i])
  {
    EntriesOfPrefix(db, rows, journal, i + 1);
    var rest, before := LastEntry(db, rows[..i + 1], journal[..i + 1]);
  }

  lemma LastEntry(db: Db, rows: seq<Row>, journal: seq<Verification>)
    returns (rest: seq<Row>, before: seq<Verification>)
    requires rows != [] && RowsHaveInvoices(db, rows)
    requires journal == Verifications(db, rows) && |journal| == |rows|
    ensures rest == rows[..|rows| - 1] && RowsHaveInvoices(db, rest)
    ensures before == Verifications(db, rest) && |before| == |rest| && before == journal[..|rest|]
    ensures MadeEntry(db, rows[|rest|], journal[|rest|])
  {
    rest := rows[..|rows| - 1];
    before := Verifications(db, rest);
    NoMoreEntriesThanRows(db, rest);
  }

  lemma {:induction false} NoMoreEntriesThanRows(db: Db, rows: seq<Row>)
    requires RowsHaveInvoices(db, rows)
    ensures |Verifications(db, rows)| <= |rows|
  {
    if rows != [] {
      NoMoreEntriesThanRows(db, rows[..|rows| - 1]);
    }
  }

  /** Whatever ran before, the file has one entry for each ledger row of the period, in the order of the
      ledger, under the company's own name and number. */
  lemma FileFollowsTheLedger(es: seq<Event>, from: Time, to: Time, h: Letterhead, day: Time -> string)
    ensures RowsHaveInvoices(Run(es).db, RowsBetween(Run(es).db.ledger, from, to))
    ensures var db, rows := Run(es).db, RowsBetween(Run(es).db.ledger, from, to);
      var d := ExportDocument(h, Verifications(db, rows), day);
      && d.companyName == h.companyName && d.orgNumber == h.orgNumber
      && d.year == h.year && d.generatedAt == h.generatedAt
      && |d.verifications| == |rows|
      && forall i :: 0 <= i < |rows| ==> IsEntryFor(d.verifications[i], rows[i], At(db, rows[i].invoiceId), day)
  {
    EveryVerificationBalances(es, from, to);
    var db, rows := Run(es).db, RowsBetween(Run(es).db.ledger, from, to);
    forall i | 0 <= i < |rows|
      ensures IsEntryFor(SieJournal(Verifications(db, rows), day)[i], rows[i], At(db, rows[i].invoiceId), day)
    {
      EntryOfRow(db, rows, Verifications(db, rows), i);
      EntryIsForRow(rows[i], At(db, rows[i].invoiceId), day);
    }
  }

  // --- The chart of accounts ---

  /** The account is in the chart, under a number that reads as it. */
  predicate InChart(account: Account) {
    exists i :: 0 <= i < |ACCOUNTS| && ACCOUNTS[i].number == Decimal(account)
  }

  lemma ListedAs(k: nat, account: Account)
    requires k < |ACCOUNTS| && |ACCOUNTS[k].number| == 4 && AllDigits(ACCOUNTS[k].number)
    requires ACCOUNTS[k].number[0] != '0' && ValueOfFour(ACCOUNTS[k].number) == account
    ensures InChart(account)
  {
    var s := ACCOUNTS[k].number;
    FourDigitsValue(s);
    DecimalOfValue(s);
  }

  function ValueOfFour(s: string): nat
    requires |s| == 4 && AllDigits(s)
  {
    1000 * DigitValue(s[0]) + 100 * DigitValue(s[1]) + 10 * DigitValue(s[2]) + DigitValue(s[3])
  }

  lemma FourDigitsValue(s: string)
    requires |s| == 4 && AllDigits(s)
    ensures DecimalValue(s) == ValueOfFour(s)
  {
    assert s[..3][..2] == s[..2] && s[..2][..1] == s[..1] && s[..1][..0] == [];
    assert DecimalValue(s[..1]) == DigitValue(s[0]);
    assert DecimalValue(s[..2]) == 10 * DecimalValue(s[..1]) + DigitValue(s[1]);
    assert DecimalValue(s[..3]) == 10 * DecimalValue(s[..2]) + DigitValue(s[2]);
  }

  lemma ChartHasReceivables()
    ensures InChart(1510) && InChart(1930)
  {
    ListedAs(0, 1510);
    ListedAs(1, 1930);
  }

  lemma ChartHasFees()
    ensures InChart(8313) && InChart(3590)
  {
    ListedAs(9, 8313);
    ListedAs(10, 3590);
  }

  lemma ChartHasSales()
    ensures InChart(3001) && InChart(3002)
  {
    ListedAs(2, 3001);
    ListedAs(3, 3002);
  }

  lemma ChartHasLowSales()
    ensures InChart(3003) && InChart(3004)
  {
    ListedAs(4, 3003);
    ListedAs(5, 3004);
  }

  lemma ChartHasVat()
    ensures InChart(2611) && InChart(2621) && InChart(2631)
  {
    ListedAs(6, 2611);
    ListedAs(7, 2621);
    ListedAs(8, 2631);
  }

  lemma ChartHasRevenue(account: Account)
    requires RevenueOrVat(account)
    ensures InChart(account)
  {
    ChartHasSales();
    ChartHasLowSales();
    ChartHasVat();
  }

  lemma {:induction false} GroupsPostToRevenue(groups: seq<Group>)
    ensures forall k :: 0 <= k < |GroupPostings(groups)| ==> RevenueOrVat(GroupPostings(groups)[k].account)
  {
    if groups != [] {
      var n := |groups| - 1;
      GroupsPostToRevenue(groups[..n]);
      assert forall k :: 0 <= k < |GroupPosting(groups[n])| ==> RevenueOrVat(GroupPosting(groups[n])[k].account);
    }
  }

  lemma DocumentIsInChart(first: Posting, groups: seq<Group>, k: nat)
    requires first.account == RECEIVABLES && k < 1 + |GroupPostings(groups)|
    ensures InChart(([first] + GroupPostings(groups))[k].account)
  {
    var postings := GroupPostings(groups);
    if k == 0 {
      ChartHasReceivables();
    } else {
      GroupsPostToRevenue(groups);
      ChartHasRevenue(postings[k - 1].account);
    }
  }

  lemma PostingsAreInChart(row: Row, inv: Invoice, k: nat)
    requires k < |PostingsOf(row, inv)|
    ensures InChart(PostingsOf(row, inv)[k].account)
  {
    if row.rowType == INVOICE_CREATED {
      DocumentIsInChart(Posting(RECEIVABLES, row.amountOre), GroupByRate(inv.items, 1), k);
    } else if row.rowType == CREDIT_NOTE_ISSUED {
      DocumentIsInChart(Posting(RECEIVABLES, row.amountOre), GroupByRate(inv.items, -1), k);
    } else {
      ChartHasReceivables();
      ChartHasFees();
    }
  }

  /** Every account that an entry of the file moves is in the chart at its head, as an importer demands. */
  lemma EveryAccountIsInChart(es: seq<Event>, from: Time, to: Time, h: Letterhead, day: Time -> string)
    ensures RowsHaveInvoices(Run(es).db, RowsBetween(Run(es).db.ledger, from, to))
    ensures var db := Run(es).db;
      var d := ExportDocument(h, Verifications(db, RowsBetween(db.ledger, from, to)), day);
      forall i, k :: 0 <= i < |d.verifications| && 0 <= k < |d.verifications[i].transactions| ==>
        ChartListed(d, d.verifications[i].transactions[k].account)
  {
    FileFollowsTheLedger(es, from, to, h, day);
    var db, rows := Run(es).db, RowsBetween(Run(es).db.ledger, from, to);
    var d := ExportDocument(h, Verifications(db, rows), day);
    forall i, k | 0 <= i < |d.verifications| && 0 <= k < |d.verifications[i].transactions|
      ensures ChartListed(d, d.verifications[i].transactions[k].account)
    {
      var inv := At(db, rows[i].invoiceId);
      assert IsEntryFor(d.verifications[i], rows[i], inv, day);
      PostingsAreInChart(rows[i], inv, k);
    }
  }

  predicate ChartListed(d: SieDocument, account: string) {
    exists j :: 0 <= j < |d.accounts| && d.accounts[j].number == account
  }

  /** The chart names sales and VAT accounts after the rate in per cent. */
  predicate NamedAfterRate(sales: SieAccount, vat: SieAccount, percent: string) {
    && sales.name == "Försäljning " + percent + " % moms"
    && vat.name == "Utgående moms " + percent + " %"
  }

  lemma AccountsAreNamedAfterRates()
    ensures NamedAfterRate(ACCOUNTS[2], ACCOUNTS[6], "25")
    ensures NamedAfterRate(ACCOUNTS[3], ACCOUNTS[7], "12")
    ensures NamedAfterRate(ACCOUNTS[4], ACCOUNTS[8], "6")
  {
  }

  // --- The file as it is handed over, in bytes ---

  lemma NumberIsEncodable(number: Number)
    ensures AllEncodable(NumberText(number))
  {
    PaddedReadsBack(number.n, 4);
    assert AllEncodable(IntText(number.year));
  }

  predicate Swedish(text: string) {
    forall i :: 0 <= i < |text| ==> text[i] as int < 0x80 || text[i] == 'å' || text[i] == 'ä' || text[i] == 'ö'
  }

  lemma SwedishIsEncodable(text: string)
    requires Swedish(text)
    ensures AllEncodable(text)
  {
  }

  lemma BothEncodable(a: string, b: string)
    requires AllEncodable(a) && AllEncodable(b)
    ensures AllEncodable(a + b)
  {
  }

  lemma DocumentPrefixes()
    ensures Swedish("Faktura ") && Swedish("Kreditering av faktura ") && Swedish("Betalning faktura ")
  {
  }

  lemma InterestPrefixes()
    ensures Swedish("Dröjsmålsränta faktura ") && Swedish("Ränta avskriven faktura ")
  {
  }

  lemma FeePrefixes()
    ensures Swedish("Påminnelseavgift faktura ") && Swedish("Avgift avskriven faktura ")
  {
  }

  lemma PrefixIsSwedish(rowType: RowType)
    ensures Swedish(EntryPrefix(rowType))
  {
    DocumentPrefixes();
    InterestPrefixes();
    FeePrefixes();
    assert Swedish("");
  }

  /** The Swedish letters of the entry texts are all in the table. */
  lemma EntryIsEncodable(rowType: RowType, number: Number)
    ensures AllEncodable(EntryText(rowType, number))
  {
    NumberIsEncodable(number);
    PrefixIsSwedish(rowType);
    SwedishIsEncodable(EntryPrefix(rowType));
    BothEncodable(EntryPrefix(rowType), NumberText(number));
  }

  lemma {:induction false} JournalTextsAreEncodable(db: Db, rows: seq<Row>)
    requires RowsHaveInvoices(db, rows)
    ensures forall i :: 0 <= i < |Verifications(db, rows)| ==> AllEncodable(Verifications(db, rows)[i].text)
  {
    if rows != [] {
      var last := rows[|rows| - 1];
      JournalTextsAreEncodable(db, rows[..|rows| - 1]);
      EntryIsEncodable(last.rowType, At(db, last.invoiceId).number);
    }
  }

  predicate SwedishAccount(a: SieAccount) {
    Swedish(a.number) && Swedish(a.name)
  }

  lemma ChartReceivablesAndBank()
    ensures SwedishAccount(SieAccount("1510", "Kundfordringar"))
    ensures SwedishAccount(SieAccount("1930", "Företagskonto"))
  {
  }

  lemma ChartSalesAtHighRates()
    ensures SwedishAccount(SieAccount("3001", "Försäljning 25 % moms"))
    ensures SwedishAccount(SieAccount("3002", "Försäljning 12 % moms"))
  {
  }

  lemma ChartSalesAtLowRates()
    ensures SwedishAccount(SieAccount("3003", "Försäljning 6 % moms"))
    ensures SwedishAccount(SieAccount("3004", "Försäljning momsfri"))
  {
  }

  lemma ChartVatAtHighRates()
    ensures SwedishAccount(SieAccount("2611", "Utgående moms 25 %"))
    ensures SwedishAccount(SieAccount("2621", "Utgående moms 12 %"))
  {
  }

  lemma ChartLowVatAndInterest()
    ensures SwedishAccount(SieAccount("2631", "Utgående moms 6 %"))
    ensures SwedishAccount(SieAccount("8313", "Ränteintäkter kundfordringar"))
  {
  }

  lemma ChartReminderFees()
    ensures SwedishAccount(SieAccount("3590", "Påminnelseavgifter"))
  {
  }

  lemma ChartIsSwedish()
    ensures forall i :: 0 <= i < |ACCOUNTS| ==> SwedishAccount(ACCOUNTS[i])
  {
    ChartReceivablesAndBank();
    ChartSalesAtHighRates();
    ChartSalesAtLowRates();
    ChartVatAtHighRates();
    ChartLowVatAndInterest();
    ChartReminderFees();
  }

  lemma ChartIsEncodable()
    ensures forall i :: 0 <= i < |ACCOUNTS| ==> EncodableAccount(ACCOUNTS[i])
  {
    ChartIsSwedish();
    forall i | 0 <= i < |ACCOUNTS|
      ensures EncodableAccount(ACCOUNTS[i])
    {
      assert SwedishAccount(ACCOUNTS[i]);
      SwedishIsEncodable(ACCOUNTS[i].number);
      SwedishIsEncodable(ACCOUNTS[i].name);
    }
  }

  predicate EncodableLetterhead(h: Letterhead) {
    AllEncodable(h.companyName) && AllEncodable(h.orgNumber) && AllEncodable(h.generatedAt)
  }

  predicate EncodableDays(journal: seq<Verification>, day: Time -> string) {
    forall i :: 0 <= i < |journal| ==> AllEncodable(day(journal[i].at))
  }

  lemma ExportIsEncodableIff(h: Letterhead, journal: seq<Verification>, day: Time -> string)
    requires forall i :: 0 <= i < |journal| ==> AllEncodable(journal[i].text)
    ensures EncodableDocument(ExportDocument(h, journal, day))
       <==> EncodableLetterhead(h) && EncodableDays(journal, day)
  {
    ChartIsEncodable();
    var vs := SieJournal(journal, day);
    forall i | 0 <= i < |journal|
      ensures EncodableVerification(vs[i]) <==> AllEncodable(day(journal[i].at))
    {
      TransactionsCarryOver(journal[i].transactions, 0);
      forall k | 0 <= k < |vs[i].transactions|
        ensures AllEncodable(vs[i].transactions[k].account)
      {
        DigitsAsRead(vs[i].transactions[k].account);
      }
    }
  }

  /** Whatever ran before: the bytes of the export, decoded and read, are the document, entries,
      accounts and amounts and all, exactly when company name, organisation number and dates are in the
      character set. What the program writes itself always is. */
  lemma ExportBytesReadBackIff(es: seq<Event>, from: Time, to: Time, h: Letterhead, day: Time -> string)
    requires IsLine(h.orgNumber) && IsLine(h.generatedAt)
    requires forall t :: IsWord(day(t))
    ensures RowsHaveInvoices(Run(es).db, RowsBetween(Run(es).db.ledger, from, to))
    ensures var journal := Verifications(Run(es).db, RowsBetween(Run(es).db.ledger, from, to));
            var d := ExportDocument(h, journal, day);
            ReadSie(Decode(BytesOf(FileText(d)))) == Some(d) <==> EncodableLetterhead(h) && EncodableDays(journal, day)
  {
    EveryVerificationBalances(es, from, to);
    var journal := Verifications(Run(es).db, RowsBetween(Run(es).db.ledger, from, to));
    JournalTextsAreEncodable(Run(es).db, RowsBetween(Run(es).db.ledger, from, to));
    JournalIsPrintable(journal, day);
    ChartIsPrintable();
    BytesReadBack(ExportDocument(h, journal, day));
    ExportIsEncodableIff(h, journal, day);
  }
}
