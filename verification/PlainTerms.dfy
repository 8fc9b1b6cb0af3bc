/** Results over runs, in öre, milliseconds and account numbers. */
module PlainTerms {
  import opened Wrappers
  import opened Money
  import opened Ledger
  import opened Books
  import opened Workflow
  import opened Interleavings
  import opened Guarantees
  import opened Reports
  import opened Reconciliation

  // --- What documents say ---

  /** Prices exclude VAT; VAT is the rate's share, rounded line by line. */
  ghost predicate LineAddsUp(item: Item) {
    && (item.vatRate == 2500 || item.vatRate == 1200 || item.vatRate == 600 || item.vatRate == 0)
    && item.netOre == item.quantity * item.unitPriceOre
    && NearestAwayFromZero((item.quantity * item.unitPriceOre * item.vatRate) as real / 10000.0, item.vatOre)
    && item.grossOre == item.netOre + item.vatOre
  }

  /** Quantity times unit price, over all lines. */
  function NetOf(items: seq<Item>): int {
    if items == [] then 0
    else
      var last := items[|items| - 1];
      NetOf(items[..|items| - 1]) + last.quantity * last.unitPriceOre
  }

  function VatOf(items: seq<Item>): int {
    if items == [] then 0 else VatOf(items[..|items| - 1]) + items[|items| - 1].vatOre
  }

  /** On every document there ever is, draft, invoice or credit note, each line's figures follow from its
      quantity, price and rate, and the totals from the lines. */
  lemma DocumentsAddUp(es: seq<Event>, id: Id)
    requires Live(Run(es).db, id)
    ensures var inv := At(Run(es).db, id);
      && inv.items != []
      && (forall i :: 0 <= i < |inv.items| ==> LineAddsUp(inv.items[i]))
      && inv.totals.netTotalOre == NetOf(inv.items)
      && inv.totals.vatTotalOre == VatOf(inv.items)
      && inv.totals.grossTotalOre == NetOf(inv.items) + VatOf(inv.items)
  {
    RunIsSound(es);
    assert Entry(Run(es).db, id);
    var items := At(Run(es).db, id).items;
    forall i | 0 <= i < |items| ensures LineAddsUp(items[i]) {
      LineFollows(items, i);
    }
    TotalsFollow(items);
  }

  lemma LineFollows(items: seq<Item>, i: nat)
    requires i < |items| && items[i].vatRate in VALID_VAT_RATES
    requires Figures(items) == Calculated(LinesOf(items))
    ensures LineAddsUp(items[i])
  {
    assert Figures(items)[i] == CalculateLine(LineOf(items[i]));
    LineInFigures(LineOf(items[i]));
  }

  lemma {:induction false} TotalsFollow(items: seq<Item>)
    requires forall i :: 0 <= i < |items| ==> LineAddsUp(items[i])
    ensures TotalsOf(Figures(items)) == Totals(NetOf(items), VatOf(items), NetOf(items) + VatOf(items))
  {
    if items != [] {
      var n := |items| - 1;
      assert Figures(items)[..n] == Figures(items[..n]);
      TotalsFollow(items[..n]);
      assert LineAddsUp(items[n]);
    }
  }

  /** The same goods at the same prices, taken back: the quantity and every figure with the other sign. */
  predicate TakesBack(a: Item, b: Item) {
    && a.quantity == -b.quantity && a.unitPriceOre == b.unitPriceOre && a.vatRate == b.vatRate
    && a.netOre == -b.netOre && a.vatOre == -b.vatOre && a.grossOre == -b.grossOre
    && a.position == b.position
  }

  /** Every credit note takes back its invoice line by line, and in sum. */
  lemma NotesTakeBack(es: seq<Event>, id: Id)
    requires Live(Run(es).db, id) && At(Run(es).db, id).kind == CREDIT_NOTE
    ensures var db, note := Run(es).db, At(Run(es).db, id);
      && note.credits.Some? && Live(db, note.credits.value)
      && var inv := At(db, note.credits.value);
      && inv.kind == INVOICE && inv.status == CREDITED
      && |note.items| == |inv.items|
      && (forall i :: 0 <= i < |inv.items| ==> TakesBack(note.items[i], inv.items[i]))
      && note.totals.netTotalOre == -inv.totals.netTotalOre
      && note.totals.vatTotalOre == -inv.totals.vatTotalOre
      && note.totals.grossTotalOre == -inv.totals.grossTotalOre
  {
    RunIsSound(es);
    var db := Run(es).db;
    assert Entry(db, id);
    var o := At(db, id).credits.value;
    assert Entry(db, o);
    var items, mirrored := At(db, o).items, At(db, id).items;
    MirroredFigures(items, At(db, o).totals);
    forall i | 0 <= i < |items| ensures TakesBack(mirrored[i], items[i]) {
      assert FiguresOf(mirrored[i]) == Negated(FiguresOf(items[i]));
    }
  }

  // --- What late payers owe ---

  /** By the whole day of 86 400 000 milliseconds, at ten per cent a year of 365 days: the reference rate
      of two and eight points more. */
  ghost predicate Owes(amountOre: int, dueDate: Time, now: Time, r: int) {
    if amountOre <= 0 || now - dueDate < 86400000 then
      r == 0
    else
      NearestAwayFromZero((amountOre * 1000 * ((now - dueDate) / 86400000)) as real / 3650000.0, r)
  }

  lemma OwesIsInterest(amountOre: int, dueDate: Time, now: Time, r: int)
    ensures Owes(amountOre, dueDate, now, r) <==> r == InterestAt(amountOre, dueDate, now)
  {
    DaysInMilliseconds(dueDate, now);
    var days := DaysBetween(dueDate, now);
    InterestInFigures(amountOre, days, 200);
    if amountOre > 0 && now - dueDate >= 86400000 {
      assert days == (now - dueDate) / 86400000;
      var exact := (amountOre * 1000 * days) as real / 3650000.0;
      RoundOreIsNearest(exact, r);
      RoundOreIsNearest(exact, InterestAt(amountOre, dueDate, now));
    }
  }

  /** With clocks that do not run backward, the fee on an invoice is what its total, left unpaid since the
      due date, owed at the last run that found it open; nothing if none did. */
  lemma FeeInFigures(es: seq<Event>, id: Id)
    requires Issued(Run(es).db, id)
    requires NonDecreasing(EffectiveRuns(Run(es).log, id))
    ensures var inv, times := At(Run(es).db, id), EffectiveRuns(Run(es).log, id);
      if times == [] then inv.lateFeeOre == 0
      else Owes(inv.totals.grossTotalOre, inv.dueDate, times[|times| - 1], inv.lateFeeOre)
  {
    InterestIsTheMaximum(es, id);
    InterestIsTheLastRuns(es, id);
    var inv, times := At(Run(es).db, id), EffectiveRuns(Run(es).log, id);
    if times != [] {
      OwesIsInterest(inv.totals.grossTotalOre, inv.dueDate, times[|times| - 1], inv.lateFeeOre);
    }
  }

  /** No run that found the invoice open owed more than the fee, and one of them owed just that. */
  ghost predicate LargestOwed(fee: int, amountOre: int, dueDate: Time, times: seq<Time>) {
    && (forall k, r :: 0 <= k < |times| && Owes(amountOre, dueDate, times[k], r) ==> r <= fee)
    && (if times == [] then fee == 0
        else exists k :: 0 <= k < |times| && Owes(amountOre, dueDate, times[k], fee))
  }

  /** Whatever the clocks do, the fee is the largest interest any run owed that found the invoice open. */
  lemma FeeIsTheLargestOwed(es: seq<Event>, id: Id)
    requires Issued(Run(es).db, id)
    ensures var inv := At(Run(es).db, id);
      LargestOwed(inv.lateFeeOre, inv.totals.grossTotalOre, inv.dueDate, EffectiveRuns(Run(es).log, id))
  {
    InterestIsTheMaximum(es, id);
    var inv := At(Run(es).db, id);
    SoFarIsLargest(Run(es).log, id, inv.totals.grossTotalOre, inv.dueDate);
  }

  lemma {:induction false} SoFarIsLargest(log: seq<Answer>, id: Id, amountOre: int, dueDate: Time)
    ensures LargestOwed(InterestSoFar(log, id, amountOre, dueDate), amountOre, dueDate, EffectiveRuns(log, id))
    ensures InterestSoFar(log, id, amountOre, dueDate) >= 0
  {
    if log != [] {
      var last, rest := log[|log| - 1], log[..|log| - 1];
      SoFarIsLargest(rest, id, amountOre, dueDate);
      if last.Accrual? && last.id == id && last.open {
        var before := InterestSoFar(rest, id, amountOre, dueDate);
        OneMoreRun(before, amountOre, dueDate, EffectiveRuns(rest, id), last.runAt);
      } else {
        assert EffectiveRuns(log, id) == EffectiveRuns(rest, id);
      }
    }
  }

  lemma OneMoreRun(fee: int, amountOre: int, dueDate: Time, times: seq<Time>, now: Time)
    requires fee >= 0 && LargestOwed(fee, amountOre, dueDate, times)
    ensures var owed := InterestAt(amountOre, dueDate, now);
      LargestOwed(Max(fee, owed), amountOre, dueDate, times + [now]) && Max(fee, owed) >= 0
  {
    var owed, all := InterestAt(amountOre, dueDate, now), times + [now];
    var largest := Max(fee, owed);
    forall k, r | 0 <= k < |all| && Owes(amountOre, dueDate, all[k], r) ensures r <= largest {
      if k == |times| {
        OwesIsInterest(amountOre, dueDate, now, r);
      } else {
        assert all[k] == times[k];
      }
    }
    OwesIsInterest(amountOre, dueDate, now, owed);
    LateInterestIsMonotone(amountOre, DaysBetween(dueDate, now), DaysBetween(dueDate, now));
    if owed >= fee {
      assert all[|times|] == now && Owes(amountOre, dueDate, all[|times|], largest);
    } else {
      var k :| 0 <= k < |times| && Owes(amountOre, dueDate, times[k], fee);
      assert all[k] == times[k] && Owes(amountOre, dueDate, all[k], largest);
    }
  }

  // --- What the books say ---

  /** An invoice that has been sent and not credited. */
  predicate Stands(slot: Option<Invoice>) {
    && slot.Some? && slot.value.kind == INVOICE
    && (slot.value.status == SENT || slot.value.status == OVERDUE || slot.value.status == PAID)
  }

  function InterestCharged(invoices: seq<Option<Invoice>>): int {
    if invoices == [] then 0
    else
      var last := invoices[|invoices| - 1];
      InterestCharged(invoices[..|invoices| - 1]) + if Stands(last) then last.value.lateFeeOre else 0
  }

  function RemindersCharged(invoices: seq<Option<Invoice>>): int {
    if invoices == [] then 0
    else
      var last := invoices[|invoices| - 1];
      RemindersCharged(invoices[..|invoices| - 1]) + if Stands(last) then last.value.reminderFeeOre else 0
  }

  /** Every payment that a delivery was told it had made. */
  function PaymentsMade(log: seq<Answer>): int {
    if log == [] then 0
    else
      var last := log[|log| - 1];
      PaymentsMade(log[..|log| - 1]) + if last.Payment? && last.outcome == HANDLED then last.amountOre else 0
  }

  /** What an invoice's rows move on the accounts of the bank, of interest and of reminder fees. */
  function Moved(t: Tally, account: Account): int {
    match account
    case 1930 => t.paidOre
    case 8313 => -(t.interestOre + t.interestWaivedOre)
    case 3590 => -(t.reminderOre + t.reminderWaivedOre)
    case _ => 0
  }

  predicate MoneyAccount(account: Account) {
    account == 1930 || account == 8313 || account == 3590
  }

  lemma RowMoves(row: Row, inv: Invoice, t: Tally, account: Account)
    requires MoneyAccount(account)
    ensures PostedTo(PostingsOf(row, inv), account) == Moved(Count(t, row), account) - Moved(t, account)
  {
    if row.rowType == INVOICE_CREATED || row.rowType == CREDIT_NOTE_ISSUED {
      DocumentEntry(row, inv, account);
      NothingElsewhere(inv.items, account);
    } else if row.rowType != REFUND && row.rowType != ADJUSTMENT {
      var p := PostingsOf(row, inv);
      TwoPostings(p[0], p[1], account);
    }
  }

  function SumMoved(ledger: seq<Row>, n: nat, account: Account): int {
    if n == 0 then 0 else SumMoved(ledger, n - 1, account) + Moved(TallyOf(ledger, n - 1), account)
  }

  lemma {:induction false} MovedByOneMore(ledger: seq<Row>, row: Row, n: nat, account: Account)
    ensures var t := TallyOf(ledger, row.invoiceId);
      SumMoved(ledger + [row], n, account)
      == SumMoved(ledger, n, account)
         + if row.invoiceId < n then Moved(Count(t, row), account) - Moved(t, account) else 0
  {
    if n > 0 {
      MovedByOneMore(ledger, row, n - 1, account);
      assert (ledger + [row])[..|ledger|] == ledger;
    }
  }

  lemma {:induction false} NothingMovedYet(n: nat, account: Account)
    ensures SumMoved([], n, account) == 0
  {
    if n > 0 {
      NothingMovedYet(n - 1, account);
    }
  }

  lemma {:induction false} PostingsAreMoves(db: Db, ledger: seq<Row>, account: Account, from: Time, to: Time)
    requires MoneyAccount(account)
    requires forall k :: 0 <= k < |ledger| ==> Live(db, ledger[k].invoiceId) && from <= ledger[k].createdAt < to
    ensures LedgerPosted(db, ledger, account, from, to) == SumMoved(ledger, |db.invoices|, account)
  {
    if ledger == [] {
      NothingMovedYet(|db.invoices|, account);
    } else {
      var last, rest := ledger[|ledger| - 1], ledger[..|ledger| - 1];
      PostingsAreMoves(db, rest, account, from, to);
      assert ledger == rest + [last];
      assert Live(db, last.invoiceId);
      MovedByOneMore(rest, last, |db.invoices|, account);
      RowMoves(last, At(db, last.invoiceId), TallyOf(rest, last.invoiceId), account);
    }
  }

  lemma {:induction false} FeesMoved(db: Db, n: nat)
    requires Sound(db) && n <= |db.invoices|
    ensures SumMoved(db.ledger, n, 8313) == -InterestCharged(db.invoices[..n])
    ensures SumMoved(db.ledger, n, 3590) == -RemindersCharged(db.invoices[..n])
  {
    if n > 0 {
      FeesMoved(db, n - 1);
      assert db.invoices[..n][..n - 1] == db.invoices[..n - 1];
      assert Entry(db, n - 1);
    }
  }

  /** What was received for the first n invoices. */
  function ReceivedBelow(log: seq<Answer>, n: nat): int {
    if n == 0 then 0 else ReceivedBelow(log, n - 1) + ReceivedFor(log, n - 1)
  }

  lemma {:induction false} ReceivedByOneMore(log: seq<Answer>, answer: Answer, n: nat)
    ensures ReceivedBelow(log + [answer], n)
         == ReceivedBelow(log, n)
            + if answer.Payment? && answer.outcome == HANDLED && answer.invoiceId < n then answer.amountOre else 0
  {
    if n > 0 {
      ReceivedByOneMore(log, answer, n - 1);
      assert (log + [answer])[..|log|] == log;
    }
  }

  lemma {:induction false} NothingReceivedYet(n: nat)
    ensures ReceivedBelow([], n) == 0
  {
    if n > 0 {
      NothingReceivedYet(n - 1);
    }
  }

  lemma {:induction false} AllIsReceived(log: seq<Answer>, n: nat)
    requires forall id: Id :: id >= n ==> HandledFor(log, id) == 0
    ensures ReceivedBelow(log, n) == PaymentsMade(log)
  {
    if log == [] {
      NothingReceivedYet(n);
    } else {
      var last, rest := log[|log| - 1], log[..|log| - 1];
      forall id: Id | id >= n ensures HandledFor(rest, id) == 0 {
        assert HandledFor(log, id) == 0;
      }
      AllIsReceived(rest, n);
      ReceivedByOneMore(rest, last, n);
      assert log == rest + [last];
      assert last.Payment? && last.invoiceId >= n ==> HandledFor(log, last.invoiceId) == 0;
    }
  }

  lemma {:induction false} MoneyMoved(w: World, n: nat)
    requires PaymentsSound(w)
    ensures SumMoved(w.db.ledger, n, 1930) == ReceivedBelow(w.log, n)
  {
    if n > 0 {
      MoneyMoved(w, n - 1);
      assert ReceivedFor(w.log, n - 1) == TallyOf(w.db.ledger, n - 1).paidOre;
    }
  }

  lemma PaymentsAreForInvoices(w: World, id: Id)
    requires Sound(w.db) && PaymentsSound(w) && id >= |w.db.invoices|
    ensures HandledFor(w.log, id) == 0
  {
    assert Entry(w.db, id);
    assert HandledFor(w.log, id) == TallyOf(w.db.ledger, id).payments;
  }

  /** Over a period with every row in it, interest income is the interest on all invoices sent and not
      credited, fee income their reminder fees, and the bank has every payment made. */
  lemma BooksInFigures(es: seq<Event>, from: Time, to: Time)
    requires forall k :: 0 <= k < |Run(es).db.ledger| ==> from <= Run(es).db.ledger[k].createdAt < to
    ensures RowsHaveInvoices(Run(es).db, RowsBetween(Run(es).db.ledger, from, to))
    ensures var journal := Verifications(Run(es).db, RowsBetween(Run(es).db.ledger, from, to));
      && JournalPosted(journal, 8313) == -InterestCharged(Run(es).db.invoices)
      && JournalPosted(journal, 3590) == -RemindersCharged(Run(es).db.invoices)
      && JournalPosted(journal, 1930) == PaymentsMade(Run(es).log)
  {
    JournalOnMoneyAccount(es, 8313, from, to);
    JournalOnMoneyAccount(es, 3590, from, to);
    JournalOnMoneyAccount(es, 1930, from, to);
    var w := Run(es);
    RunIsSound(es);
    FeesMoved(w.db, |w.db.invoices|);
    assert w.db.invoices[..|w.db.invoices|] == w.db.invoices;
    MoneyMoved(w, |w.db.invoices|);
    forall id: Id | id >= |w.db.invoices| ensures HandledFor(w.log, id) == 0 {
      PaymentsAreForInvoices(w, id);
    }
    AllIsReceived(w.log, |w.db.invoices|);
  }

  lemma JournalOnMoneyAccount(es: seq<Event>, account: Account, from: Time, to: Time)
    requires MoneyAccount(account)
    requires forall k :: 0 <= k < |Run(es).db.ledger| ==> from <= Run(es).db.ledger[k].createdAt < to
    ensures RowsHaveInvoices(Run(es).db, RowsBetween(Run(es).db.ledger, from, to))
    ensures JournalPosted(Verifications(Run(es).db, RowsBetween(Run(es).db.ledger, from, to)), account)
         == SumMoved(Run(es).db.ledger, |Run(es).db.invoices|, account)
  {
    var db := Run(es).db;
    RunIsSound(es);
    JournalIsLedger(es, account, from, to);
    LedgerIsIssued(db);
    PostingsAreMoves(db, db.ledger, account, from, to);
  }

  /** What the journal of the period posts to the account, and what the VAT report has at the rate. */
  predicate OnAccounts(es: seq<Event>, vatRate: int, sales: Account, vat: Option<Account>, from: Time, to: Time) {
    var db := Run(es).db;
    && RowsHaveInvoices(db, RowsBetween(db.ledger, from, to))
    && var journal := Verifications(db, RowsBetween(db.ledger, from, to));
    && var row := VatRowOf(db.invoices, vatRate, from, to);
    && JournalPosted(journal, sales) == -row.netOre
    && (if vat.Some? then JournalPosted(journal, vat.value) == -row.vatOre else row.vatOre == 0)
  }

  lemma OnItsAccounts(es: seq<Event>, vatRate: int, from: Time, to: Time)
    requires vatRate in VALID_VAT_RATES
    ensures OnAccounts(es, vatRate, SalesAccount(vatRate), VatAccount(vatRate), from, to)
  {
    VatReportAgreesWithJournal(es, vatRate, from, to);
  }

  /** The VAT report, rate by rate, is on these accounts, over any period. */
  lemma VatInFigures(es: seq<Event>, from: Time, to: Time)
    ensures OnAccounts(es, 2500, 3001, Some(2611), from, to)
    ensures OnAccounts(es, 1200, 3002, Some(2621), from, to)
    ensures OnAccounts(es, 600, 3003, Some(2631), from, to)
    ensures OnAccounts(es, 0, 3004, None, from, to)
  {
    OnItsAccounts(es, 2500, from, to);
    OnItsAccounts(es, 1200, from, to);
    OnItsAccounts(es, 600, from, to);
    OnItsAccounts(es, 0, from, to);
  }

  // --- Periods ---

  lemma {:induction false} PostingsOfPeriods(db: Db, ledger: seq<Row>, account: Account,
                                             from: Time, mid: Time, to: Time)
    requires from <= mid <= to
    ensures LedgerPosted(db, ledger, account, from, to)
         == LedgerPosted(db, ledger, account, from, mid) + LedgerPosted(db, ledger, account, mid, to)
  {
    if ledger != [] {
      PostingsOfPeriods(db, ledger[..|ledger| - 1], account, from, mid, to);
    }
  }

  /** The VAT report of a period is the two reports of its parts added up, rate by rate. */
  lemma {:induction false} VatOfPeriods(invoices: seq<Option<Invoice>>, vatRate: int, from: Time, mid: Time, to: Time)
    requires from <= mid <= to
    ensures var whole, first := VatRowOf(invoices, vatRate, from, to), VatRowOf(invoices, vatRate, from, mid);
      var second := VatRowOf(invoices, vatRate, mid, to);
      && whole.netOre == first.netOre + second.netOre
      && whole.vatOre == first.vatOre + second.vatOre
      && whole.lineCount == first.lineCount + second.lineCount
  {
    if invoices != [] {
      VatOfPeriods(invoices[..|invoices| - 1], vatRate, from, mid, to);
    }
  }

  lemma JournalIsLedger(es: seq<Event>, account: Account, from: Time, to: Time)
    ensures RowsHaveInvoices(Run(es).db, RowsBetween(Run(es).db.ledger, from, to))
    ensures JournalPosted(Verifications(Run(es).db, RowsBetween(Run(es).db.ledger, from, to)), account)
         == LedgerPosted(Run(es).db, Run(es).db.ledger, account, from, to)
  {
    EveryVerificationBalances(es, from, to);
    JournalSumsTheLedger(Run(es).db, Run(es).db.ledger, account, from, to);
  }

  /** The journals of two consecutive periods post to every account what the journal of both together
      posts. So a month that is reported twice, or an instant that no month reports, cannot be. */
  lemma JournalsAddUp(es: seq<Event>, account: Account, from: Time, mid: Time, to: Time)
    requires from <= mid <= to
    ensures var db := Run(es).db;
      && RowsHaveInvoices(db, RowsBetween(db.ledger, from, to))
      && RowsHaveInvoices(db, RowsBetween(db.ledger, from, mid))
      && RowsHaveInvoices(db, RowsBetween(db.ledger, mid, to))
    ensures var db := Run(es).db;
      JournalPosted(Verifications(db, RowsBetween(db.ledger, from, to)), account)
      == JournalPosted(Verifications(db, RowsBetween(db.ledger, from, mid)), account)
         + JournalPosted(Verifications(db, RowsBetween(db.ledger, mid, to)), account)
  {
    JournalIsLedger(es, account, from, to);
    JournalIsLedger(es, account, from, mid);
    JournalIsLedger(es, account, mid, to);
    PostingsOfPeriods(Run(es).db, Run(es).db.ledger, account, from, mid, to);
  }
}
