/** The tables behind invoicing and what each database transaction does to them.
    Every function named after a repository function is that transaction as one
    atomic step: the WHERE clause is its guard, and a guard that matches no row
    leaves the tables as they were. */
module Ledger {
  import opened Wrappers
  import opened Money

  type Id = nat

  type Time = int

  type EventId = string

  datatype Kind = INVOICE | CREDIT_NOTE

  datatype Status = DRAFT | SENT | PAID | OVERDUE | CREDITED

  datatype Item = Item(quantity: int, unitPriceOre: int, vatRate: int,
                       netOre: int, vatOre: int, grossOre: int, position: nat)

  /** An allocated invoice number: the n-th of its year. */
  datatype Number = Number(year: int, n: nat)

  datatype Invoice = Invoice(number: Number, clientId: nat, kind: Kind, status: Status,
                             credits: Option<Id>, totals: Totals,
                             lateFeeOre: int, reminderFeeOre: int,
                             dueDate: Time, sentAt: Option<Time>, items: seq<Item>)

  datatype RowType =
    | INVOICE_CREATED
    | PAYMENT_RECEIVED
    | LATE_FEE_ADDED
    | REMINDER_FEE_ADDED
    | CREDIT_NOTE_ISSUED
    | LATE_FEE_WAIVED
    | REMINDER_FEE_WAIVED
    | REFUND
    | ADJUSTMENT

  datatype Row = Row(invoiceId: Id, rowType: RowType, amountOre: int, createdAt: Time)

  /** The tables. An invoice id is a position, so ids are fresh by construction;
      a deleted draft leaves None behind. */
  datatype Db = Db(invoices: seq<Option<Invoice>>, ledger: seq<Row>,
                   claimed: set<EventId>, series: map<int, nat>)

  const EMPTY := Db([], [], {}, map[])

  // --- Reading ---

  predicate Live(db: Db, id: Id) {
    id < |db.invoices| && db.invoices[id].Some?
  }

  function At(db: Db, id: Id): Invoice
    requires Live(db, id)
  {
    db.invoices[id].value
  }

  predicate IsDraft(db: Db, id: Id) {
    Live(db, id) && At(db, id).status == DRAFT
  }

  /** The guard `type: INVOICE, status in (SENT, OVERDUE)` shared by five transactions. */
  predicate Open(inv: Invoice) {
    inv.kind == INVOICE && (inv.status == SENT || inv.status == OVERDUE)
  }

  predicate IsOpen(db: Db, id: Id) {
    Live(db, id) && Open(At(db, id))
  }

  function TotalDue(inv: Invoice): int {
    TotalDueOre(inv.totals.grossTotalOre, inv.lateFeeOre, inv.reminderFeeOre)
  }

  // --- Documents ---

  function LineOf(item: Item): LineInput {
    LineInput(item.quantity, item.unitPriceOre, item.vatRate)
  }

  function FiguresOf(item: Item): CalculatedLine {
    CalculatedLine(item.netOre, item.vatOre, item.grossOre)
  }

  function LinesOf(items: seq<Item>): (lines: seq<LineInput>)
    ensures |lines| == |items|
  {
    seq(|items|, i requires 0 <= i < |items| => LineOf(items[i]))
  }

  function Figures(items: seq<Item>): (figures: seq<CalculatedLine>)
    ensures |figures| == |items|
  {
    seq(|items|, i requires 0 <= i < |items| => FiguresOf(items[i]))
  }

  function CalculatedItem(line: LineInput, position: nat): Item {
    var c := CalculateLine(line);
    Item(line.quantity, line.unitPriceOre, line.vatRate, c.netOre, c.vatOre, c.grossOre, position)
  }

  /** The submitted lines with every figure derived, as createInvoice stores them. */
  function ItemsOf(lines: seq<LineInput>): (items: seq<Item>)
    ensures |items| == |lines|
  {
    seq(|lines|, i requires 0 <= i < |lines| => CalculatedItem(lines[i], i))
  }

  /** The mirror image that issueCreditNote derives from the original's items. */
  function MirroredItems(items: seq<Item>): (mirrored: seq<Item>)
    ensures |mirrored| == |items|
  {
    seq(|items|, i requires 0 <= i < |items| =>
      CalculatedItem(NegatedQuantity(LineOf(items[i])), items[i].position))
  }

  // --- Writing ---

  function Put(db: Db, id: Id, inv: Invoice): Db
    requires id < |db.invoices|
  {
    db.(invoices := db.invoices[id := Some(inv)])
  }

  function Insert(db: Db, inv: Invoice): Db {
    db.(invoices := db.invoices + [Some(inv)])
  }

  function Post(db: Db, id: Id, rowType: RowType, amountOre: int, now: Time): Db {
    db.(ledger := db.ledger + [Row(id, rowType, amountOre, now)])
  }

  function NewDraft(number: Number, clientId: nat, dueDate: Time, items: seq<Item>): Invoice {
    Invoice(number, clientId, INVOICE, DRAFT, None, TotalsOf(Figures(items)), 0, 0, dueDate, None, items)
  }

  function CreateInvoiceWithItems(db: Db, number: Number, clientId: nat, dueDate: Time, items: seq<Item>): Db {
    Insert(db, NewDraft(number, clientId, dueDate, items))
  }

  function MarkSent(db: Db, id: Id, now: Time): Db {
    if !IsDraft(db, id) then db
    else
      var inv := At(db, id).(status := SENT, sentAt := Some(now));
      Post(Put(db, id, inv), id, INVOICE_CREATED, inv.totals.grossTotalOre, now)
  }

  function MarkPaidWithin(db: Db, id: Id, amountOre: int, now: Time): Db {
    if !IsOpen(db, id) then db
    else Post(Put(db, id, At(db, id).(status := PAID)), id, PAYMENT_RECEIVED, amountOre, now)
  }

  function DeleteDraftInvoice(db: Db, id: Id): Db {
    if !IsDraft(db, id) then db else db.(invoices := db.invoices[id := None])
  }

  /** What issueCreditNote hands to createCreditNote, all of it computed from an
      earlier read of the original. */
  datatype CreditData = CreditData(originalId: Id, number: Number, clientId: nat, totals: Totals, items: seq<Item>)

  function NewCreditNote(data: CreditData, now: Time): Invoice {
    Invoice(data.number, data.clientId, CREDIT_NOTE, SENT, Some(data.originalId), data.totals, 0, 0,
            now, Some(now), data.items)
  }

  /** A row that is written only when the fee it cancels is positive. */
  function Waive(db: Db, id: Id, rowType: RowType, feeOre: int, now: Time): Db {
    if feeOre > 0 then Post(db, id, rowType, -feeOre, now) else db
  }

  function CreateCreditNote(db: Db, data: CreditData, now: Time): Db {
    if !IsOpen(db, data.originalId) then db
    else
      var id := data.originalId;
      var before := At(db, id);
      var cancelled := Insert(Put(db, id, before.(status := CREDITED)), NewCreditNote(data, now));
      var credited := Post(cancelled, id, CREDIT_NOTE_ISSUED, data.totals.grossTotalOre, now);
      Waive(Waive(credited, id, LATE_FEE_WAIVED, before.lateFeeOre, now),
            id, REMINDER_FEE_WAIVED, before.reminderFeeOre, now)
  }

  function ChargeReminderFee(db: Db, id: Id, feeOre: int, now: Time): Db {
    if !IsOpen(db, id) || At(db, id).reminderFeeOre != 0 then db
    else Post(Put(db, id, At(db, id).(reminderFeeOre := feeOre)), id, REMINDER_FEE_ADDED, feeOre, now)
  }

  function ApplyOverdue(db: Db, id: Id, newLateFeeOre: int, incrementOre: int, now: Time): Db {
    if !IsOpen(db, id) then db
    else
      var updated := Put(db, id, At(db, id).(status := OVERDUE, lateFeeOre := newLateFeeOre));
      if incrementOre > 0 then Post(updated, id, LATE_FEE_ADDED, incrementOre, now) else updated
  }

  function LastNumber(db: Db, year: int): nat {
    if year in db.series then db.series[year] else 0
  }

  /** INSERT 1, or ON CONFLICT increment. */
  function AllocateNumber(db: Db, year: int): Db {
    db.(series := db.series[year := LastNumber(db, year) + 1])
  }

  function NextNumber(db: Db, year: int): Number {
    Number(year, LastNumber(db, year) + 1)
  }

  /** claimEventAndRun with markPaidWithin as its work: both or neither. */
  function ClaimAndPay(db: Db, event: EventId, id: Id, amountOre: int, now: Time): Db {
    if event in db.claimed then db
    else MarkPaidWithin(db.(claimed := db.claimed + {event}), id, amountOre, now)
  }

  /** Where a transaction that has claimed its event may still break off. */
  datatype Fault = AFTER_CLAIM | AFTER_WORK

  /** What the transaction has written by then. */
  function Underway(db: Db, event: EventId, id: Id, amountOre: int, now: Time, fault: Fault): Db {
    var claimed := db.(claimed := db.claimed + {event});
    match fault
    case AFTER_CLAIM => claimed
    case AFTER_WORK => MarkPaidWithin(claimed, id, amountOre, now)
  }

  /** The rollback: the tables the transaction writes to are what they were when it began. */
  function Restored(before: Db, underway: Db): Db {
    underway.(invoices := before.invoices, ledger := before.ledger, claimed := before.claimed)
  }

  /** The transaction had written the claim, and perhaps the payment; nothing of it is left. */
  lemma RollbackLeavesNothing(db: Db, event: EventId, id: Id, amountOre: int, now: Time, fault: Fault)
    requires event !in db.claimed
    ensures var underway := Underway(db, event, id, amountOre, now, fault);
      && event in underway.claimed
      && (fault == AFTER_WORK && IsOpen(db, id) ==>
            underway.ledger == db.ledger + [Row(id, PAYMENT_RECEIVED, amountOre, now)])
      && Restored(db, underway) == db
  {
  }

  // --- The declared transition table ---

  function AllowedTransitions(from: Status): set<Status> {
    match from
    case DRAFT => {SENT}
    case SENT => {PAID, OVERDUE, CREDITED}
    case OVERDUE => {PAID, CREDITED}
    case PAID => {}
    case CREDITED => {}
  }

  predicate CanTransition(from: Status, to: Status) {
    to in AllowedTransitions(from)
  }

  // --- Reading the ledger of one invoice ---

  /** What an invoice's ledger rows add up to, by type. */
  datatype Tally = Tally(created: nat, createdOre: int, payments: nat, paidOre: int, interestOre: int,
                         reminders: nat, reminderOre: int, credits: nat, creditOre: int,
                         interestWaivedOre: int, reminderWaivedOre: int, others: nat)

  const NO_ROWS := Tally(0, 0, 0, 0, 0, 0, 0, 0, 0, 0, 0, 0)

  function Count(t: Tally, row: Row): Tally {
    match row.rowType
    case INVOICE_CREATED => t.(created := t.created + 1, createdOre := t.createdOre + row.amountOre)
    case PAYMENT_RECEIVED => t.(payments := t.payments + 1, paidOre := t.paidOre + row.amountOre)
    case LATE_FEE_ADDED => t.(interestOre := t.interestOre + row.amountOre)
    case REMINDER_FEE_ADDED => t.(reminders := t.reminders + 1, reminderOre := t.reminderOre + row.amountOre)
    case CREDIT_NOTE_ISSUED => t.(credits := t.credits + 1, creditOre := t.creditOre + row.amountOre)
    case LATE_FEE_WAIVED => t.(interestWaivedOre := t.interestWaivedOre + row.amountOre)
    case REMINDER_FEE_WAIVED => t.(reminderWaivedOre := t.reminderWaivedOre + row.amountOre)
    case REFUND => t.(others := t.others + 1)
    case ADJUSTMENT => t.(others := t.others + 1)
  }

  function TallyOf(ledger: seq<Row>, id: Id): Tally {
    if ledger == [] then NO_ROWS
    else
      var last := ledger[|ledger| - 1];
      var before := TallyOf(ledger[..|ledger| - 1], id);
      if last.invoiceId == id then Count(before, last) else before
  }

  /** How a row moves the receivable: a payment reduces it, every other row carries its own sign. */
  function Effect(row: Row): int {
    match row.rowType
    case PAYMENT_RECEIVED => -row.amountOre
    case REFUND => 0
    case ADJUSTMENT => 0
    case _ => row.amountOre
  }

  /** Charges and waivers minus payments. */
  function Balance(ledger: seq<Row>, id: Id): int {
    if ledger == [] then 0
    else
      var last := ledger[|ledger| - 1];
      Balance(ledger[..|ledger| - 1], id) + (if last.invoiceId == id then Effect(last) else 0)
  }

  lemma TallyOfPost(db: Db, id: Id, rowType: RowType, amountOre: int, now: Time, other: Id)
    ensures TallyOf(Post(db, id, rowType, amountOre, now).ledger, other)
         == if other == id then Count(TallyOf(db.ledger, id), Row(id, rowType, amountOre, now))
            else TallyOf(db.ledger, other)
  {
    assert Post(db, id, rowType, amountOre, now).ledger[..|db.ledger|] == db.ledger;
  }

  lemma {:induction false} BalanceFromTally(ledger: seq<Row>, id: Id)
    ensures var t := TallyOf(ledger, id);
            Balance(ledger, id) == t.createdOre + t.interestOre + t.reminderOre + t.creditOre
                                   + t.interestWaivedOre + t.reminderWaivedOre - t.paidOre
  {
    if ledger == [] {
    } else {
      BalanceFromTally(ledger[..|ledger| - 1], id);
    }
  }
}
