/** The reports are separate readings of one history. After any run of events they
    balance and agree with each other. */
module Reconciliation {
  import opened Wrappers
  import opened Money
  import opened Ledger
  import opened Books
  import opened Workflow
  import opened Interleavings
  import opened Guarantees
  import opened Reports
  import opened Aging

  // --- Sums of postings ---

  lemma {:induction false} PostingsAppend(a: seq<Posting>, b: seq<Posting>, account: Account)
    ensures PostedTo(a + b, account) == PostedTo(a, account) + PostedTo(b, account)
    ensures SumPostings(a + b) == SumPostings(a) + SumPostings(b)
  {
    if b == [] {
      assert a + b == a;
    } else {
      var n := |b| - 1;
      assert (a + b)[..|a| + n] == a + b[..n];
      PostingsAppend(a, b[..n], account);
    }
  }

  /** What a group posts to an account, and in all. */
  lemma GroupPosts(g: Group, account: Account)
    ensures PostedTo(GroupPosting(g), account)
         == -(if SalesAccount(g.vatRate) == account then g.net else 0)
            - (if VatAccount(g.vatRate) == Some(account) then g.vat else 0)
    ensures SumPostings(GroupPosting(g)) == -g.net - (if VatAccount(g.vatRate).Some? then g.vat else 0)
  {
    var sales := [Posting(SalesAccount(g.vatRate), -g.net)];
    if VatAccount(g.vatRate).Some? && g.vat != 0 {
      PostingsAppend(sales, [Posting(VatAccount(g.vatRate).value, -g.vat)], account);
    } else {
      assert GroupPosting(g) == sales;
    }
  }

  lemma {:induction false} GroupUpdatePosts(groups: seq<Group>, k: nat, g: Group, account: Account)
    requires k < |groups| && g.vatRate == groups[k].vatRate
    ensures PostedTo(GroupPostings(groups[k := g]), account)
         == PostedTo(GroupPostings(groups), account)
            - PostedTo(GroupPosting(groups[k]), account) + PostedTo(GroupPosting(g), account)
    ensures SumPostings(GroupPostings(groups[k := g]))
         == SumPostings(GroupPostings(groups)) - SumPostings(GroupPosting(groups[k])) + SumPostings(GroupPosting(g))
  {
    var n := |groups| - 1;
    PostingsAppend(GroupPostings(groups[..n]), GroupPosting(groups[n]), account);
    if k == n {
      assert groups[k := g][..n] == groups[..n];
      PostingsAppend(GroupPostings(groups[..n]), GroupPosting(g), account);
    } else {
      assert groups[k := g][..n] == groups[..n][k := g];
      GroupUpdatePosts(groups[..n], k, g, account);
      PostingsAppend(GroupPostings(groups[..n][k := g]), GroupPosting(groups[n]), account);
    }
  }

  /** From one list of groups to another, a line's net and VAT have been posted. */
  predicate LinePosted(before: seq<Group>, after: seq<Group>, vatRate: int, net: int, vat: int, account: Account) {
    && PostedTo(GroupPostings(after), account)
       == PostedTo(GroupPostings(before), account)
          - (if SalesAccount(vatRate) == account then net else 0)
          - (if VatAccount(vatRate) == Some(account) then vat else 0)
    && SumPostings(GroupPostings(after))
       == SumPostings(GroupPostings(before)) - net - (if VatAccount(vatRate).Some? then vat else 0)
  }

  lemma NewGroupPosts(groups: seq<Group>, vatRate: int, net: int, vat: int, account: Account)
    ensures LinePosted(groups, groups + [Group(vatRate, net, vat)], vatRate, net, vat, account)
  {
    var g := Group(vatRate, net, vat);
    GroupPosts(g, account);
    assert (groups + [g])[..|groups|] == groups;
    PostingsAppend(GroupPostings(groups), GroupPosting(g), account);
  }

  lemma GrownGroupPosts(groups: seq<Group>, k: nat, net: int, vat: int, account: Account)
    requires k < |groups|
    ensures var g := groups[k];
      LinePosted(groups, groups[k := Group(g.vatRate, g.net + net, g.vat + vat)], g.vatRate, net, vat, account)
  {
    var g := groups[k];
    var grown := Group(g.vatRate, g.net + net, g.vat + vat);
    GroupPosts(g, account);
    GroupPosts(grown, account);
    GroupUpdatePosts(groups, k, grown, account);
  }

  lemma AddToGroupsPosts(groups: seq<Group>, vatRate: int, net: int, vat: int, account: Account)
    ensures LinePosted(groups, AddToGroups(groups, vatRate, net, vat), vatRate, net, vat, account)
  {
    var k := FindGroup(groups, vatRate);
    if k == |groups| {
      NewGroupPosts(groups, vatRate, net, vat, account);
    } else {
      GrownGroupPosts(groups, k, net, vat, account);
    }
  }

  /** An item's part of an account: its net on the sales account, its VAT on the VAT account. */
  function Share(items: seq<Item>, account: Account): int {
    if items == [] then 0
    else
      var last := items[|items| - 1];
      Share(items[..|items| - 1], account)
      + (if SalesAccount(last.vatRate) == account then last.netOre else 0)
      + (if VatAccount(last.vatRate) == Some(account) then last.vatOre else 0)
  }

  /** Everything on the lines that has an account to go to. */
  function Postable(items: seq<Item>): int {
    if items == [] then 0
    else
      var last := items[|items| - 1];
      Postable(items[..|items| - 1]) + last.netOre + (if VatAccount(last.vatRate).Some? then last.vatOre else 0)
  }

  function Signed(x: int, sign: int): int {
    if sign == 1 then x else -x
  }

  lemma {:induction false} GroupingConserves(items: seq<Item>, sign: int, account: Account)
    requires sign == 1 || sign == -1
    ensures PostedTo(GroupPostings(GroupByRate(items, sign)), account) == -Signed(Share(items, account), sign)
    ensures SumPostings(GroupPostings(GroupByRate(items, sign))) == -Signed(Postable(items), sign)
  {
    if items != [] {
      var last, rest := items[|items| - 1], items[..|items| - 1];
      GroupingConserves(rest, sign, account);
      AddToGroupsPosts(GroupByRate(rest, sign), last.vatRate, last.netOre * sign, last.vatOre * sign, account);
      assert last.netOre * sign == Signed(last.netOre, sign);
      assert last.vatOre * sign == Signed(last.vatOre, sign);
    }
  }

  lemma TwoPostings(a: Posting, b: Posting, account: Account)
    ensures SumPostings([a, b]) == a.amountOre + b.amountOre
    ensures PostedTo([a, b], account)
         == (if a.account == account then a.amountOre else 0) + (if b.account == account then b.amountOre else 0)
  {
    assert [a, b] == [a] + [b];
    PostingsAppend([a], [b], account);
  }

  /** The entry of a document row, in sum and account by account. */
  lemma DocumentEntry(row: Row, inv: Invoice, account: Account)
    requires row.rowType == INVOICE_CREATED || row.rowType == CREDIT_NOTE_ISSUED
    ensures SumPostings(PostingsOf(row, inv)) == row.amountOre - Signed(Postable(inv.items), SignOf(row.rowType))
    ensures PostedTo(PostingsOf(row, inv), account)
         == (if account == RECEIVABLES then row.amountOre else 0)
            - Signed(Share(inv.items, account), SignOf(row.rowType))
  {
    var sign := SignOf(row.rowType);
    GroupingConserves(inv.items, sign, account);
    PostingsAppend([Posting(RECEIVABLES, row.amountOre)], GroupPostings(GroupByRate(inv.items, sign)), account);
  }

  /** The two sides of every other mapped row. */
  lemma OtherEntry(row: Row, inv: Invoice, account: Account)
    requires row.rowType != INVOICE_CREATED && row.rowType != CREDIT_NOTE_ISSUED
    ensures SumPostings(PostingsOf(row, inv)) == 0
    ensures account == RECEIVABLES ==> PostedTo(PostingsOf(row, inv), account) == Effect(row)
    ensures RevenueOrVat(account) ==> PostedTo(PostingsOf(row, inv), account) == 0
  {
    if row.rowType != REFUND && row.rowType != ADJUSTMENT {
      var p := PostingsOf(row, inv);
      TwoPostings(p[0], p[1], account);
    }
  }

  /** An issued document's journal entry balances exactly when the row carries what its
      lines post; every other mapped row balances by its own two sides. */
  lemma BalancesIff(row: Row, inv: Invoice)
    ensures row.rowType == INVOICE_CREATED || row.rowType == CREDIT_NOTE_ISSUED ==>
              (SumPostings(PostingsOf(row, inv)) == 0
               <==> row.amountOre == Signed(Postable(inv.items), SignOf(row.rowType)))
    ensures row.rowType != INVOICE_CREATED && row.rowType != CREDIT_NOTE_ISSUED ==>
              SumPostings(PostingsOf(row, inv)) == 0
  {
    if row.rowType == INVOICE_CREATED || row.rowType == CREDIT_NOTE_ISSUED {
      DocumentEntry(row, inv, RECEIVABLES);
    } else {
      OtherEntry(row, inv, RECEIVABLES);
    }
  }

  /** The stored gross is what the lines post: at rate zero there is no VAT to lose. */
  lemma {:induction false} GrossIsPostable(items: seq<Item>)
    requires forall i :: 0 <= i < |items| ==> items[i].vatRate in VALID_VAT_RATES
    requires Figures(items) == Calculated(LinesOf(items))
    ensures TotalsOf(Figures(items)).grossTotalOre == Postable(items)
  {
    if items != [] {
      var n := |items| - 1;
      var last := items[n];
      assert Figures(items)[..n] == Figures(items[..n]);
      assert LinesOf(items)[..n] == LinesOf(items[..n]);
      assert Figures(items[..n]) == Calculated(LinesOf(items[..n])) by {
        assert Calculated(LinesOf(items))[..n] == Calculated(LinesOf(items[..n]));
      }
      GrossIsPostable(items[..n]);
      assert Figures(items)[n] == CalculateLine(LineOf(last));
      if last.vatRate == 0 {
        assert (last.quantity * last.unitPriceOre) * 0 == 0;
        RoundOreIsNearest(0.0, 0);
      }
    }
  }

  /** Every entry of every journal balances, and no row is left out: buildSie never throws. */
  lemma EveryVerificationBalances(es: seq<Event>, from: Time, to: Time)
    ensures RowsHaveInvoices(Run(es).db, RowsBetween(Run(es).db.ledger, from, to))
    ensures var rows := RowsBetween(Run(es).db.ledger, from, to);
            var journal := Verifications(Run(es).db, rows);
            && |journal| == |rows|
            && (forall i :: 0 <= i < |journal| ==> SumPostings(journal[i].transactions) == 0)
  {
    RunIsSound(es);
    var db, rows := Run(es).db, RowsBetween(Run(es).db.ledger, from, to);
    forall i | 0 <= i < |rows|
      ensures RowSound(db, rows[i])
    {
      assert rows[i] in db.ledger;
      var k :| 0 <= k < |db.ledger| && db.ledger[k] == rows[i];
      assert RowSound(db, db.ledger[k]);
    }
    SoundRowsBalance(db, rows);
  }

  lemma SoundRowBalances(db: Db, row: Row)
    requires Sound(db) && RowSound(db, row)
    ensures SumPostings(PostingsOf(row, At(db, row.invoiceId))) == 0
  {
    assert Entry(db, row.invoiceId);
    GrossIsPostable(At(db, row.invoiceId).items);
    BalancesIff(row, At(db, row.invoiceId));
  }

  lemma {:induction false} SoundRowsBalance(db: Db, rows: seq<Row>)
    requires Sound(db)
    requires forall i :: 0 <= i < |rows| ==> RowSound(db, rows[i])
    ensures RowsHaveInvoices(db, rows)
    ensures var journal := Verifications(db, rows);
            && |journal| == |rows|
            && (forall i :: 0 <= i < |journal| ==> SumPostings(journal[i].transactions) == 0)
  {
    if rows != [] {
      var last := rows[|rows| - 1];
      SoundRowsBalance(db, rows[..|rows| - 1]);
      SoundRowBalances(db, last);
    }
  }

  // --- The journal as a sum over the ledger ---

  function RowPosted(db: Db, row: Row, account: Account): int {
    if Live(db, row.invoiceId) then PostedTo(PostingsOf(row, At(db, row.invoiceId)), account) else 0
  }

  function LedgerPosted(db: Db, ledger: seq<Row>, account: Account, from: Time, to: Time): int {
    if ledger == [] then 0
    else
      var last := ledger[|ledger| - 1];
      LedgerPosted(db, ledger[..|ledger| - 1], account, from, to)
      + if Within(last.createdAt, from, to) then RowPosted(db, last, account) else 0
  }

  lemma JournalOfOneMore(db: Db, earlier: seq<Row>, last: Row, account: Account)
    requires RowsHaveInvoices(db, earlier) && Live(db, last.invoiceId)
    ensures RowsHaveInvoices(db, earlier + [last])
    ensures JournalPosted(Verifications(db, earlier + [last]), account)
         == JournalPosted(Verifications(db, earlier), account) + RowPosted(db, last, account)
  {
    var rows, journal := earlier + [last], Verifications(db, earlier);
    var v := VerificationOf(last, At(db, last.invoiceId));
    assert rows[..|rows| - 1] == earlier;
    if v.Some? {
      assert Verifications(db, rows) == journal + [v.value];
      assert (journal + [v.value])[..|journal|] == journal;
    } else {
      assert Verifications(db, rows) == journal;
    }
  }

  lemma {:induction false} JournalSumsTheLedger(db: Db, ledger: seq<Row>, account: Account, from: Time, to: Time)
    requires RowsHaveInvoices(db, RowsBetween(ledger, from, to))
    ensures JournalPosted(Verifications(db, RowsBetween(ledger, from, to)), account)
         == LedgerPosted(db, ledger, account, from, to)
  {
    if ledger != [] {
      var last, rest := ledger[|ledger| - 1], ledger[..|ledger| - 1];
      var rows, earlier := RowsBetween(ledger, from, to), RowsBetween(rest, from, to);
      if Within(last.createdAt, from, to) {
        EarlierRowsHaveInvoices(db, earlier, last);
        JournalSumsTheLedger(db, rest, account, from, to);
        JournalOfOneMore(db, earlier, last, account);
      } else {
        assert rows == earlier;
        JournalSumsTheLedger(db, rest, account, from, to);
      }
    }
  }

  lemma EarlierRowsHaveInvoices(db: Db, earlier: seq<Row>, last: Row)
    requires RowsHaveInvoices(db, earlier + [last])
    ensures RowsHaveInvoices(db, earlier) && Live(db, last.invoiceId)
  {
    var rows := earlier + [last];
    assert rows[|earlier|] == last;
    assert forall i :: 0 <= i < |earlier| ==> rows[i] == earlier[i];
  }

  // --- VAT: the journal against the VAT report ---

  lemma {:induction false} ShareOfRate(items: seq<Item>, vatRate: int)
    requires forall i :: 0 <= i < |items| ==> items[i].vatRate in VALID_VAT_RATES
    requires vatRate in VALID_VAT_RATES
    ensures Share(items, SalesAccount(vatRate)) == NetAt(items, vatRate)
    ensures VatAccount(vatRate).Some? ==> Share(items, VatAccount(vatRate).value) == VatAt(items, vatRate)
  {
    if items != [] {
      ShareOfRate(items[..|items| - 1], vatRate);
      assert items[|items| - 1].vatRate in VALID_VAT_RATES;
    }
  }

  /** The accounts the two views have in common. */
  predicate RevenueOrVat(account: Account) {
    account in {3001, 3002, 3003, 3004, 2611, 2621, 2631}
  }

  /** Only the two document rows post to revenue and VAT accounts. */
  lemma RowPosts(row: Row, inv: Invoice, account: Account)
    requires RevenueOrVat(account)
    ensures PostedTo(PostingsOf(row, inv), account)
         == if row.rowType == INVOICE_CREATED then -Share(inv.items, account)
            else if row.rowType == CREDIT_NOTE_ISSUED then Share(inv.items, account)
            else 0
  {
    if row.rowType == INVOICE_CREATED || row.rowType == CREDIT_NOTE_ISSUED {
      DocumentEntry(row, inv, account);
    } else {
      OtherEntry(row, inv, account);
    }
  }

  function DocumentShare(slot: Option<Invoice>, account: Account, from: Time, to: Time): int {
    if IssuedWithin(slot, from, to) then Share(slot.value.items, account) else 0
  }

  /** The VAT report's side, account by account: the lines of every document issued in the period. */
  function IssuedShare(invoices: seq<Option<Invoice>>, account: Account, from: Time, to: Time): int {
    if invoices == [] then 0
    else
      IssuedShare(invoices[..|invoices| - 1], account, from, to)
      + DocumentShare(invoices[|invoices| - 1], account, from, to)
  }

  ghost predicate AllFormed(invoices: seq<Option<Invoice>>) {
    forall id :: 0 <= id < |invoices| && invoices[id].Some? ==> WellFormed(invoices[id].value)
  }

  lemma {:induction false} ReportIsShare(invoices: seq<Option<Invoice>>, vatRate: int, from: Time, to: Time)
    requires vatRate in VALID_VAT_RATES
    requires AllFormed(invoices)
    ensures var row := VatRowOf(invoices, vatRate, from, to);
            && row.netOre == IssuedShare(invoices, SalesAccount(vatRate), from, to)
            && (VatAccount(vatRate).Some? ==> row.vatOre == IssuedShare(invoices, VatAccount(vatRate).value, from, to))
  {
    if invoices != [] {
      var last := invoices[|invoices| - 1];
      ReportIsShare(invoices[..|invoices| - 1], vatRate, from, to);
      if last.Some? {
        assert WellFormed(last.value);
        ShareOfRate(last.value.items, vatRate);
      }
    }
  }

  lemma {:induction false} IssuedShareUpdate(invoices: seq<Option<Invoice>>, k: nat, slot: Option<Invoice>,
                                             account: Account, from: Time, to: Time)
    requires k < |invoices|
    ensures IssuedShare(invoices[k := slot], account, from, to)
         == IssuedShare(invoices, account, from, to)
            - DocumentShare(invoices[k], account, from, to) + DocumentShare(slot, account, from, to)
  {
    var n := |invoices| - 1;
    if k == n {
      assert invoices[k := slot][..n] == invoices[..n];
    } else {
      assert invoices[k := slot][..n] == invoices[..n][k := slot];
      IssuedShareUpdate(invoices[..n], k, slot, account, from, to);
    }
  }

  lemma IssuedShareInsert(invoices: seq<Option<Invoice>>, slot: Option<Invoice>, account: Account, from: Time, to: Time)
    ensures IssuedShare(invoices + [slot], account, from, to)
         == IssuedShare(invoices, account, from, to) + DocumentShare(slot, account, from, to)
  {
    assert (invoices + [slot])[..|invoices|] == invoices;
  }

  /** Entries already in the journal do not change when the tables evolve. */
  lemma {:induction false} OldEntriesStay(before: Db, after: Db, ledger: seq<Row>,
                                          account: Account, from: Time, to: Time)
    requires Evolves(before, after)
    requires forall k :: 0 <= k < |ledger| ==> Issued(before, ledger[k].invoiceId)
    ensures LedgerPosted(after, ledger, account, from, to) == LedgerPosted(before, ledger, account, from, to)
  {
    if ledger != [] {
      var last := ledger[|ledger| - 1];
      OldEntriesStay(before, after, ledger[..|ledger| - 1], account, from, to);
      assert Issued(before, last.invoiceId);
      assert SlotEvolves(before.invoices[last.invoiceId], after.invoices[last.invoiceId]);
    }
  }

  /** The two views agree on an account. */
  ghost predicate Agree(db: Db, account: Account, from: Time, to: Time) {
    LedgerPosted(db, db.ledger, account, from, to) == -IssuedShare(db.invoices, account, from, to)
  }

  lemma RowAdded(db: Db, ledger: seq<Row>, row: Row, account: Account, from: Time, to: Time)
    requires RevenueOrVat(account) && Live(db, row.invoiceId)
    ensures LedgerPosted(db, ledger + [row], account, from, to)
         == LedgerPosted(db, ledger, account, from, to)
            + if !Within(row.createdAt, from, to) then 0
              else if row.rowType == INVOICE_CREATED then -Share(At(db, row.invoiceId).items, account)
              else if row.rowType == CREDIT_NOTE_ISSUED then Share(At(db, row.invoiceId).items, account)
              else 0
  {
    assert (ledger + [row])[..|ledger|] == ledger;
    RowPosts(row, At(db, row.invoiceId), account);
  }

  /** A write that issues nothing and posts at most one row of another kind. */
  lemma QuietWriteKeepsAgreement(db: Db, id: Id, inv: Invoice, after: Db, row: Row,
                                 account: Account, from: Time, to: Time)
    requires Sound(db) && Evolves(db, after) && Agree(db, account, from, to) && RevenueOrVat(account)
    requires Live(db, id) && row.invoiceId == id
    requires after.invoices == db.invoices[id := Some(inv)]
    requires after.ledger == db.ledger || after.ledger == db.ledger + [row]
    requires inv.status != DRAFT && At(db, id).status != DRAFT
    requires row.rowType != INVOICE_CREATED && row.rowType != CREDIT_NOTE_ISSUED
    ensures Agree(after, account, from, to)
  {
    LedgerIsIssued(db);
    OldEntriesStay(db, after, db.ledger, account, from, to);
    IssuedShareUpdate(db.invoices, id, Some(inv), account, from, to);
    assert SlotEvolves(db.invoices[id], after.invoices[id]);
    if after.ledger != db.ledger {
      RowAdded(after, db.ledger, row, account, from, to);
    }
  }

  lemma LedgerIsIssued(db: Db)
    requires Sound(db)
    ensures forall k :: 0 <= k < |db.ledger| ==> Issued(db, db.ledger[k].invoiceId)
  {
    forall k | 0 <= k < |db.ledger| ensures Issued(db, db.ledger[k].invoiceId) {
      assert RowSound(db, db.ledger[k]);
    }
  }

  lemma SendKeepsAgreement(db: Db, id: Id, now: Time, account: Account, from: Time, to: Time)
    requires Sound(db) && Agree(db, account, from, to) && RevenueOrVat(account)
    ensures Agree(MarkSent(db, id, now), account, from, to)
  {
    if IsDraft(db, id) {
      var after := MarkSent(db, id, now);
      var inv := At(db, id).(status := SENT, sentAt := Some(now));
      MarkSentKeepsSound(db, id, now);
      LedgerIsIssued(db);
      OldEntriesStay(db, after, db.ledger, account, from, to);
      RowAdded(after, db.ledger, Row(id, INVOICE_CREATED, inv.totals.grossTotalOre, now), account, from, to);
      IssuedShareUpdate(db.invoices, id, Some(inv), account, from, to);
    }
  }

  lemma {:induction false} MirroredShare(items: seq<Item>, account: Account)
    requires forall i :: 0 <= i < |items| ==> FiguresOf(MirroredItems(items)[i]) == Negated(FiguresOf(items[i]))
    ensures Share(MirroredItems(items), account) == -Share(items, account)
  {
    if items != [] {
      var n := |items| - 1;
      assert MirroredItems(items)[..n] == MirroredItems(items[..n]);
      forall i | 0 <= i < n ensures FiguresOf(MirroredItems(items[..n])[i]) == Negated(FiguresOf(items[..n][i])) {
        assert FiguresOf(MirroredItems(items)[i]) == Negated(FiguresOf(items[i]));
      }
      MirroredShare(items[..n], account);
      assert FiguresOf(MirroredItems(items)[n]) == Negated(FiguresOf(items[n]));
    }
  }

  lemma WaiverIsQuiet(db: Db, tables: Db, id: Id, rowType: RowType, feeOre: int, now: Time,
                      account: Account, from: Time, to: Time)
    requires RevenueOrVat(account) && Live(db, id)
    requires rowType == LATE_FEE_WAIVED || rowType == REMINDER_FEE_WAIVED
    ensures LedgerPosted(db, Waive(tables, id, rowType, feeOre, now).ledger, account, from, to)
         == LedgerPosted(db, tables.ledger, account, from, to)
  {
    RowAdded(db, tables.ledger, Row(id, rowType, -feeOre, now), account, from, to);
  }

  /** The ledger side of a credit note: its rows of other kinds post to other accounts. */
  lemma CreditPosts(db: Db, data: CreditData, now: Time, account: Account, from: Time, to: Time)
    requires Sound(db) && MirrorsOriginal(db, data) && IsOpen(db, data.originalId) && RevenueOrVat(account)
    ensures var after := CreateCreditNote(db, data, now);
            LedgerPosted(after, after.ledger, account, from, to)
            == LedgerPosted(db, db.ledger, account, from, to)
               + if Within(now, from, to) then Share(At(db, data.originalId).items, account) else 0
  {
    var id := data.originalId;
    var before := At(db, id);
    var after := CreateCreditNote(db, data, now);
    CreditInvoices(db, data, now);
    var cancelled := Insert(Put(db, id, before.(status := CREDITED)), NewCreditNote(data, now));
    var credited := Post(cancelled, id, CREDIT_NOTE_ISSUED, data.totals.grossTotalOre, now);
    var waived := Waive(credited, id, LATE_FEE_WAIVED, before.lateFeeOre, now);
    WaiverIsQuiet(after, waived, id, REMINDER_FEE_WAIVED, before.reminderFeeOre, now, account, from, to);
    WaiverIsQuiet(after, credited, id, LATE_FEE_WAIVED, before.lateFeeOre, now, account, from, to);
    RowAdded(after, db.ledger, Row(id, CREDIT_NOTE_ISSUED, data.totals.grossTotalOre, now), account, from, to);
    assert LedgerPosted(after, db.ledger, account, from, to) == LedgerPosted(db, db.ledger, account, from, to) by {
      CreditKeepsSound(db, data, now);
      LedgerIsIssued(db);
      OldEntriesStay(db, after, db.ledger, account, from, to);
    }
  }

  lemma CreditKeepsAgreement(db: Db, data: CreditData, now: Time, account: Account, from: Time, to: Time)
    requires Sound(db) && MirrorsOriginal(db, data) && Agree(db, account, from, to) && RevenueOrVat(account)
    ensures Agree(CreateCreditNote(db, data, now), account, from, to)
  {
    if IsOpen(db, data.originalId) {
      var id := data.originalId;
      assert Entry(db, id);
      CreditPosts(db, data, now, account, from, to);
      CreditInvoices(db, data, now);
      var put := db.invoices[id := Some(At(db, id).(status := CREDITED))];
      IssuedShareUpdate(db.invoices, id, put[id], account, from, to);
      IssuedShareInsert(put, Some(NewCreditNote(data, now)), account, from, to);
      MirroredFigures(At(db, id).items, At(db, id).totals);
      MirroredShare(At(db, id).items, account);
    }
  }

  /** Tables whose issued documents and ledger are the same, and whose drafts are anything. */
  lemma CreateKeepsAgreement(db: Db, number: Number, clientId: nat, dueDate: Time, items: seq<Item>,
                             account: Account, from: Time, to: Time)
    requires Sound(db) && Figured(items, TotalsOf(Figures(items)))
    requires Agree(db, account, from, to)
    ensures Agree(CreateInvoiceWithItems(db, number, clientId, dueDate, items), account, from, to)
  {
    CreateKeepsSound(db, number, clientId, dueDate, items);
    LedgerIsIssued(db);
    OldEntriesStay(db, CreateInvoiceWithItems(db, number, clientId, dueDate, items), db.ledger, account, from, to);
    IssuedShareInsert(db.invoices, Some(NewDraft(number, clientId, dueDate, items)), account, from, to);
  }

  lemma DeleteKeepsAgreement(db: Db, id: Id, account: Account, from: Time, to: Time)
    requires Sound(db) && Agree(db, account, from, to)
    ensures Agree(DeleteDraftInvoice(db, id), account, from, to)
  {
    if IsDraft(db, id) {
      DeleteDraftKeepsSound(db, id);
      LedgerIsIssued(db);
      OldEntriesStay(db, DeleteDraftInvoice(db, id), db.ledger, account, from, to);
      IssuedShareUpdate(db.invoices, id, None, account, from, to);
    }
  }

  lemma UnchangedDocumentsAgree(before: Db, after: Db, account: Account, from: Time, to: Time)
    requires Sound(before) && Evolves(before, after) && Agree(before, account, from, to)
    requires after.invoices == before.invoices && after.ledger == before.ledger
    ensures Agree(after, account, from, to)
  {
    LedgerIsIssued(before);
    OldEntriesStay(before, after, before.ledger, account, from, to);
  }

  lemma RemindKeepsAgreement(db: Db, id: Id, at: Time, account: Account, from: Time, to: Time)
    requires Sound(db) && Agree(db, account, from, to) && RevenueOrVat(account)
    ensures Agree(ChargeReminderFee(db, id, REMINDER_FEE_ORE, at), account, from, to)
  {
    var after := ChargeReminderFee(db, id, REMINDER_FEE_ORE, at);
    if after != db {
      ReminderKeepsSound(db, id, at);
      QuietWriteKeepsAgreement(db, id, At(after, id), after, Row(id, REMINDER_FEE_ADDED, REMINDER_FEE_ORE, at),
                               account, from, to);
    }
  }

  lemma FinishKeepsAgreement(w: World, e: Event, account: Account, from: Time, to: Time)
    requires Inv(w) && Agree(w.db, account, from, to) && RevenueOrVat(account)
    requires e.FinishCreate? || e.FinishCredit?
    ensures Agree(Step(w, e).db, account, from, to)
  {
    if e.ticket in w.tasks {
      var t := w.tasks[e.ticket];
      assert TaskSound(w.db, t);
      if e.FinishCreate? && t.Creating? {
        CreateKeepsAgreement(w.db, t.number, t.clientId, t.dueDate, t.items, account, from, to);
      } else if e.FinishCredit? && t.Crediting? && t.creditNumber.Some? {
        CreditKeepsAgreement(w.db, CreditDataOf(t), e.at, account, from, to);
      }
    }
  }

  lemma StepKeepsAgreement(w: World, e: Event, account: Account, from: Time, to: Time)
    requires Inv(w) && Agree(w.db, account, from, to) && RevenueOrVat(account)
    ensures Agree(Step(w, e).db, account, from, to)
  {
    StepKeepsBooks(w, e);
    match e
    case FinishCreate(_) => FinishKeepsAgreement(w, e, account, from, to);
    case FinishCredit(_, _) => FinishKeepsAgreement(w, e, account, from, to);
    case Send(id, at) => SendKeepsAgreement(w.db, id, at, account, from, to);
    case DeleteDraft(id) => DeleteKeepsAgreement(w.db, id, account, from, to);
    case Remind(id, at) => RemindKeepsAgreement(w.db, id, at, account, from, to);
    case CommitPayment(ticket, at) => PaymentKeepsAgreement(w, ticket, at, account, from, to);
    case NextCandidate(at) => AccrualKeepsAgreement(w, at, account, from, to);
    case _ => UnchangedDocumentsAgree(w.db, Step(w, e).db, account, from, to);
  }

  lemma PaymentKeepsAgreement(w: World, ticket: Ticket, at: Time, account: Account, from: Time, to: Time)
    requires Inv(w) && Agree(w.db, account, from, to) && RevenueOrVat(account)
    requires Evolves(w.db, CommitPaying(w, ticket, at).db)
    ensures Agree(CommitPaying(w, ticket, at).db, account, from, to)
  {
    var after := CommitPaying(w, ticket, at).db;
    if && ticket in w.tasks && w.tasks[ticket].Paying?
       && OutcomeOf(w.db, w.tasks[ticket].event, w.tasks[ticket].invoiceId) == HANDLED {
      var t := w.tasks[ticket];
      QuietWriteKeepsAgreement(w.db, t.invoiceId, At(after, t.invoiceId), after,
                               Row(t.invoiceId, PAYMENT_RECEIVED, t.amountOre, at), account, from, to);
    } else {
      UnchangedDocumentsAgree(w.db, after, account, from, to);
    }
  }

  lemma AccrualKeepsAgreement(w: World, at: Time, account: Account, from: Time, to: Time)
    requires Inv(w) && Agree(w.db, account, from, to) && RevenueOrVat(account)
    requires Evolves(w.db, NextOverdue(w, at).db)
    ensures Agree(NextOverdue(w, at).db, account, from, to)
  {
    var after := NextOverdue(w, at).db;
    if w.run.Some? && w.run.value.queue != [] && after != w.db {
      var c := w.run.value.queue[0];
      var owed := InterestAt(c.grossTotalOre, c.dueDate, w.run.value.now);
      QuietWriteKeepsAgreement(w.db, c.id, At(after, c.id), after,
                               Row(c.id, LATE_FEE_ADDED, Max(0, owed - c.lateFeeOre), at), account, from, to);
    }
  }

  lemma {:induction false} ViewsAgree(es: seq<Event>, account: Account, from: Time, to: Time)
    requires RevenueOrVat(account)
    ensures Agree(Run(es).db, account, from, to)
  {
    if es != [] {
      ViewsAgree(es[..|es| - 1], account, from, to);
      RunIsSound(es[..|es| - 1]);
      StepKeepsAgreement(Run(es[..|es| - 1]), es[|es| - 1], account, from, to);
    }
  }

  lemma JournalIsIssuedShare(es: seq<Event>, account: Account, from: Time, to: Time)
    requires RevenueOrVat(account)
    ensures RowsHaveInvoices(Run(es).db, RowsBetween(Run(es).db.ledger, from, to))
    ensures -JournalPosted(Verifications(Run(es).db, RowsBetween(Run(es).db.ledger, from, to)), account)
         == IssuedShare(Run(es).db.invoices, account, from, to)
  {
    EveryVerificationBalances(es, from, to);
    ViewsAgree(es, account, from, to);
    JournalSumsTheLedger(Run(es).db, Run(es).db.ledger, account, from, to);
  }

  lemma AllWellFormed(db: Db)
    requires Sound(db)
    ensures AllFormed(db.invoices)
  {
    forall id | 0 <= id < |db.invoices| && db.invoices[id].Some?
      ensures WellFormed(db.invoices[id].value)
    {
      assert Entry(db, id);
    }
  }

  /** For any period, the negated journal postings on a rate's revenue and VAT accounts are the
      VAT report's net and VAT at that rate, though one negates the original's lines and the
      other adds the credit note's own. */
  lemma {:induction false} VatReportAgreesWithJournal(es: seq<Event>, vatRate: int, from: Time, to: Time)
    requires vatRate in VALID_VAT_RATES
    ensures RowsHaveInvoices(Run(es).db, RowsBetween(Run(es).db.ledger, from, to))
    ensures var journal := Verifications(Run(es).db, RowsBetween(Run(es).db.ledger, from, to));
            var row := VatRowOf(Run(es).db.invoices, vatRate, from, to);
            && -JournalPosted(journal, SalesAccount(vatRate)) == row.netOre
            && (VatAccount(vatRate).Some? ==> -JournalPosted(journal, VatAccount(vatRate).value) == row.vatOre)
            && (VatAccount(vatRate).None? ==> row.vatOre == 0)
  {
    ReportOfRunIsShare(es, vatRate, from, to);
    JournalOfSales(es, vatRate, from, to);
    if VatAccount(vatRate).Some? {
      JournalOfVat(es, vatRate, from, to);
    }
  }

  lemma JournalOfSales(es: seq<Event>, vatRate: int, from: Time, to: Time)
    ensures RowsHaveInvoices(Run(es).db, RowsBetween(Run(es).db.ledger, from, to))
    ensures -JournalPosted(Verifications(Run(es).db, RowsBetween(Run(es).db.ledger, from, to)), SalesAccount(vatRate))
         == IssuedShare(Run(es).db.invoices, SalesAccount(vatRate), from, to)
  {
    JournalIsIssuedShare(es, SalesAccount(vatRate), from, to);
  }

  lemma JournalOfVat(es: seq<Event>, vatRate: int, from: Time, to: Time)
    requires VatAccount(vatRate).Some?
    ensures RowsHaveInvoices(Run(es).db, RowsBetween(Run(es).db.ledger, from, to))
    ensures var account := VatAccount(vatRate).value;
      -JournalPosted(Verifications(Run(es).db, RowsBetween(Run(es).db.ledger, from, to)), account)
      == IssuedShare(Run(es).db.invoices, account, from, to)
  {
    JournalIsIssuedShare(es, VatAccount(vatRate).value, from, to);
  }

  lemma ReportOfRunIsShare(es: seq<Event>, vatRate: int, from: Time, to: Time)
    requires vatRate in VALID_VAT_RATES
    ensures var invoices := Run(es).db.invoices;
      var row := VatRowOf(invoices, vatRate, from, to);
      && row.netOre == IssuedShare(invoices, SalesAccount(vatRate), from, to)
      && (VatAccount(vatRate).Some? ==> row.vatOre == IssuedShare(invoices, VatAccount(vatRate).value, from, to))
      && (VatAccount(vatRate).None? ==> row.vatOre == 0)
  {
    RunIsSound(es);
    AllWellFormed(Run(es).db);
    ReportIsIssuedShare(Run(es).db.invoices, vatRate, from, to);
  }

  lemma ReportIsIssuedShare(invoices: seq<Option<Invoice>>, vatRate: int, from: Time, to: Time)
    requires vatRate in VALID_VAT_RATES && AllFormed(invoices)
    ensures var row := VatRowOf(invoices, vatRate, from, to);
      && row.netOre == IssuedShare(invoices, SalesAccount(vatRate), from, to)
      && (VatAccount(vatRate).Some? ==> row.vatOre == IssuedShare(invoices, VatAccount(vatRate).value, from, to))
      && (VatAccount(vatRate).None? ==> row.vatOre == 0)
  {
    ReportIsShare(invoices, vatRate, from, to);
    if VatAccount(vatRate).None? {
      ExemptLinesCarryNoVat(invoices, from, to);
    }
  }

  lemma {:induction false} ExemptLinesCarryNoVat(invoices: seq<Option<Invoice>>, from: Time, to: Time)
    requires AllFormed(invoices)
    ensures VatRowOf(invoices, 0, from, to).vatOre == 0
  {
    if invoices != [] {
      var last := invoices[|invoices| - 1];
      ExemptLinesCarryNoVat(invoices[..|invoices| - 1], from, to);
      if last.Some? {
        assert WellFormed(last.value);
        NoVatAtZero(last.value.items);
      }
    }
  }

  lemma {:induction false} NoVatAtZero(items: seq<Item>)
    requires Figures(items) == Calculated(LinesOf(items))
    ensures VatAt(items, 0) == 0
  {
    if items != [] {
      var n := |items| - 1;
      assert Figures(items[..n]) == Calculated(LinesOf(items[..n])) by {
        assert Figures(items)[..n] == Figures(items[..n]);
        assert Calculated(LinesOf(items))[..n] == Calculated(LinesOf(items[..n]));
      }
      NoVatAtZero(items[..n]);
      assert Figures(items)[n] == CalculateLine(LineOf(items[n]));
      if items[n].vatRate == 0 {
        assert (items[n].quantity * items[n].unitPriceOre) * 0 == 0;
        RoundOreIsNearest(0.0, 0);
      }
    }
  }

  lemma {:induction false} NoLinesNoAmounts(items: seq<Item>, vatRate: int)
    requires LinesAt(items, vatRate) == 0
    ensures NetAt(items, vatRate) == 0 && VatAt(items, vatRate) == 0
  {
    if items != [] {
      NoLinesNoAmounts(items[..|items| - 1], vatRate);
    }
  }

  lemma {:induction false} AbsentRateIsZero(invoices: seq<Option<Invoice>>, vatRate: int, from: Time, to: Time)
    requires VatRowOf(invoices, vatRate, from, to).lineCount == 0
    ensures VatRowOf(invoices, vatRate, from, to) == VatRow(vatRate, 0, 0, 0)
  {
    if invoices != [] {
      AbsentRateIsZero(invoices[..|invoices| - 1], vatRate, from, to);
      if IssuedWithin(invoices[|invoices| - 1], from, to) {
        NoLinesNoAmounts(invoices[|invoices| - 1].value.items, vatRate);
      }
    }
  }

  lemma {:induction false} VatRowsAppend(a: seq<VatRow>, b: seq<VatRow>)
    ensures SumVatRows(a + b) == (SumVatRows(a).0 + SumVatRows(b).0, SumVatRows(a).1 + SumVatRows(b).1)
  {
    if b == [] {
      assert a + b == a;
    } else {
      assert (a + b)[..|a| + |b| - 1] == a + b[..|b| - 1];
      VatRowsAppend(a, b[..|b| - 1]);
    }
  }

  lemma PresentSums(invoices: seq<Option<Invoice>>, vatRate: int, from: Time, to: Time)
    ensures var row := VatRowOf(invoices, vatRate, from, to);
            SumVatRows(Present(row)) == (row.netOre, row.vatOre)
  {
    var row := VatRowOf(invoices, vatRate, from, to);
    if row.lineCount == 0 {
      AbsentRateIsZero(invoices, vatRate, from, to);
    } else {
      assert [row][..0] == [];
    }
  }

  /** The totals line of the VAT report is the whole journal's revenue and output VAT. */
  lemma VatTotalsAgreeWithJournal(es: seq<Event>, from: Time, to: Time)
    ensures RowsHaveInvoices(Run(es).db, RowsBetween(Run(es).db.ledger, from, to))
    ensures var journal := Verifications(Run(es).db, RowsBetween(Run(es).db.ledger, from, to));
            var (net, vat) := SumVatRows(SumVatByRate(Run(es).db.invoices, from, to));
            && net == -(JournalPosted(journal, 3001) + JournalPosted(journal, 3002)
                        + JournalPosted(journal, 3003) + JournalPosted(journal, 3004))
            && vat == -(JournalPosted(journal, 2611) + JournalPosted(journal, 2621) + JournalPosted(journal, 2631))
  {
    var invoices := Run(es).db.invoices;
    VatReportAgreesWithJournal(es, 2500, from, to);
    VatReportAgreesWithJournal(es, 1200, from, to);
    VatReportAgreesWithJournal(es, 600, from, to);
    VatReportAgreesWithJournal(es, 0, from, to);
    var a, b := Present(VatRowOf(invoices, 2500, from, to)), Present(VatRowOf(invoices, 1200, from, to));
    var c, d := Present(VatRowOf(invoices, 600, from, to)), Present(VatRowOf(invoices, 0, from, to));
    PresentSums(invoices, 2500, from, to);
    PresentSums(invoices, 1200, from, to);
    PresentSums(invoices, 600, from, to);
    PresentSums(invoices, 0, from, to);
    VatRowsAppend(a, b);
    VatRowsAppend(a + b, c);
    VatRowsAppend(a + b + c, d);
  }

  // --- Receivables: account 1510 against the aging report ---

  /** Every row moves 1510 by its effect on the balance of its invoice. */
  lemma RowMovesReceivables(row: Row, inv: Invoice)
    ensures PostedTo(PostingsOf(row, inv), RECEIVABLES) == Effect(row)
  {
    if row.rowType == INVOICE_CREATED || row.rowType == CREDIT_NOTE_ISSUED {
      DocumentEntry(row, inv, RECEIVABLES);
      NothingElsewhere(inv.items, RECEIVABLES);
    } else {
      OtherEntry(row, inv, RECEIVABLES);
    }
  }

  lemma {:induction false} NothingElsewhere(items: seq<Item>, account: Account)
    requires !RevenueOrVat(account)
    ensures Share(items, account) == 0
  {
    if items != [] {
      NothingElsewhere(items[..|items| - 1], account);
    }
  }

  function SumBalances(ledger: seq<Row>, n: nat): int {
    if n == 0 then 0 else SumBalances(ledger, n - 1) + Balance(ledger, n - 1)
  }

  lemma {:induction false} BalancesOfAppend(ledger: seq<Row>, row: Row, n: nat)
    ensures SumBalances(ledger + [row], n) == SumBalances(ledger, n) + if row.invoiceId < n then Effect(row) else 0
  {
    if n > 0 {
      BalancesOfAppend(ledger, row, n - 1);
      assert (ledger + [row])[..|ledger|] == ledger;
    }
  }

  lemma {:induction false} NoRowsNoBalances(n: nat)
    ensures SumBalances([], n) == 0
  {
    if n > 0 {
      NoRowsNoBalances(n - 1);
    }
  }

  /** Postings to 1510 over a ledger are the balances of all invoices added up. */
  lemma {:induction false} ReceivablesAreBalances(db: Db, ledger: seq<Row>, from: Time, to: Time)
    requires forall k :: 0 <= k < |ledger| ==> Live(db, ledger[k].invoiceId) && Within(ledger[k].createdAt, from, to)
    ensures LedgerPosted(db, ledger, RECEIVABLES, from, to) == SumBalances(ledger, |db.invoices|)
  {
    if ledger == [] {
      NoRowsNoBalances(|db.invoices|);
    } else {
      var last, rest := ledger[|ledger| - 1], ledger[..|ledger| - 1];
      ReceivablesAreBalances(db, rest, from, to);
      assert ledger == rest + [last];
      assert Live(db, last.invoiceId);
      BalancesOfAppend(rest, last, |db.invoices|);
      RowMovesReceivables(last, At(db, last.invoiceId));
    }
  }

  /** What PAID invoices were short of, or paid beyond, what was due. */
  function PaidGap(db: Db, log: seq<Answer>, n: nat): int
    requires n <= |db.invoices|
  {
    if n == 0 then 0
    else
      PaidGap(db, log, n - 1)
      + if Live(db, n - 1) && At(db, n - 1).status == PAID
        then TotalDue(At(db, n - 1)) - ReceivedFor(log, n - 1)
        else 0
  }

  /** What one slot of the invoice table contributes to receivables. */
  function SlotBalance(w: World, id: Id): int {
    if IsOpen(w.db, id) then TotalDue(At(w.db, id))
    else if Live(w.db, id) && At(w.db, id).status == PAID then TotalDue(At(w.db, id)) - ReceivedFor(w.log, id)
    else 0
  }

  lemma BalanceOfSlot(es: seq<Event>, id: Id)
    ensures Balance(Run(es).db.ledger, id) == SlotBalance(Run(es), id)
  {
    RunIsSound(es);
    assert Entry(Run(es).db, id);
    if Live(Run(es).db, id) {
      LedgerBalances(es, id);
    } else {
      BalanceFromTally(Run(es).db.ledger, id);
    }
  }

  lemma OpenBelowStep(db: Db, n: nat)
    requires 0 < n <= |db.invoices|
    ensures SumDue(OpenBelow(db, n))
         == SumDue(OpenBelow(db, n - 1)) + if IsOpen(db, n - 1) then TotalDue(At(db, n - 1)) else 0
  {
    var open := OpenBelow(db, n - 1);
    if IsOpen(db, n - 1) {
      assert OpenBelow(db, n)[..|open|] == open;
    } else {
      assert OpenBelow(db, n) == open;
    }
  }

  lemma {:induction false} BalancesAreOpenPlusGap(w: World, n: nat)
    requires n <= |w.db.invoices|
    requires forall id: Id :: Balance(w.db.ledger, id) == SlotBalance(w, id)
    ensures SumBalances(w.db.ledger, n) == SumDue(OpenBelow(w.db, n)) + PaidGap(w.db, w.log, n)
  {
    if n > 0 {
      BalancesAreOpenPlusGap(w, n - 1);
      BalanceOneMore(w, n);
    }
  }

  lemma BalanceOneMore(w: World, n: nat)
    requires 0 < n <= |w.db.invoices| && Balance(w.db.ledger, n - 1) == SlotBalance(w, n - 1)
    requires SumBalances(w.db.ledger, n - 1) == SumDue(OpenBelow(w.db, n - 1)) + PaidGap(w.db, w.log, n - 1)
    ensures SumBalances(w.db.ledger, n) == SumDue(OpenBelow(w.db, n)) + PaidGap(w.db, w.log, n)
  {
    OpenBelowStep(w.db, n);
  }

  /** Over a period that covers the whole ledger, account 1510 is the aging report's total for
      any date, plus what paid invoices fell short of their due amount. */
  lemma ReceivablesAgreeWithAging(es: seq<Event>, from: Time, to: Time, asOf: Time)
    requires forall k :: 0 <= k < |Run(es).db.ledger| ==> Within(Run(es).db.ledger[k].createdAt, from, to)
    ensures RowsHaveInvoices(Run(es).db, RowsBetween(Run(es).db.ledger, from, to))
    ensures JournalPosted(Verifications(Run(es).db, RowsBetween(Run(es).db.ledger, from, to)), RECEIVABLES)
         == AmountsOf(OpenInvoices(Run(es).db), asOf).totalOre
            + PaidGap(Run(es).db, Run(es).log, |Run(es).db.invoices|)
  {
    var db := Run(es).db;
    RunIsSound(es);
    EveryVerificationBalances(es, from, to);
    JournalSumsTheLedger(db, db.ledger, RECEIVABLES, from, to);
    LedgerIsIssued(db);
    ReceivablesAreBalances(db, db.ledger, from, to);
    forall id: Id ensures Balance(db.ledger, id) == SlotBalance(Run(es), id) {
      BalanceOfSlot(es, id);
    }
    BalancesAreOpenPlusGap(Run(es), |db.invoices|);
    BucketsPartitionTheDebt(OpenInvoices(db), asOf);
  }
}
