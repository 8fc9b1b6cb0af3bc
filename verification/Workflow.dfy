/** The services running against the shared tables, as labelled atomic events.
    A service that reads before its transaction keeps what it read in a task, so
    any other event may come in between and make the read stale. */
module Workflow {
  import opened Wrappers
  import opened Money
  import opened Ledger

  type Ticket = nat

  /** What a service call holds on to between two of its database steps. */
  datatype Task =
    | Creating(number: Number, clientId: nat, dueDate: Time, items: seq<Item>)
    | Crediting(originalId: Id, seen: Invoice, creditNumber: Option<Number>)
    | Paying(event: EventId, invoiceId: Id, amountOre: int)

  /** A candidate row as runOverdueCheck read it. */
  datatype Candidate = Candidate(id: Id, status: Status, dueDate: Time, grossTotalOre: int, lateFeeOre: int)

  /** The one overdue run in progress: its clock and the candidates still to do. */
  datatype OverdueRun = OverdueRun(now: Time, queue: seq<Candidate>)

  datatype StripeEvent = StripeEvent(id: EventId, completed: bool, invoiceId: Option<Id>,
                                     settled: bool, amountTotal: Option<int>)

  datatype PaymentOutcome = HANDLED | DUPLICATE_EVENT | INVOICE_NOT_PAYABLE

  /** What callers were told, oldest first. */
  datatype Answer =
    | Allocated(number: Number)
    | Payment(event: EventId, invoiceId: Id, amountOre: int, outcome: PaymentOutcome)
    | Accrual(id: Id, runAt: Time, open: bool)

  datatype World = World(db: Db, tasks: map<Ticket, Task>, run: Option<OverdueRun>, log: seq<Answer>)

  datatype Event =
    | BeginCreate(ticket: Ticket, clientId: nat, dueDate: Time, lines: seq<LineInput>, year: int)
    | FinishCreate(ticket: Ticket)
    | Send(id: Id, at: Time)
    | DeleteDraft(id: Id)
    | Remind(id: Id, at: Time)
    | LookupCredit(ticket: Ticket, id: Id)
    | NumberCredit(ticket: Ticket, year: int)
    | FinishCredit(ticket: Ticket, at: Time)
    | LookupPayment(ticket: Ticket, event: StripeEvent)
    | CommitPayment(ticket: Ticket, at: Time)
    | BreakOffPayment(ticket: Ticket, at: Time, fault: Fault)
    | Fail(ticket: Ticket)
    | BeginRun(now: Time)
    | NextCandidate(at: Time)
    | FailRun

  const START := World(EMPTY, map[], None, [])

  // --- Creating an invoice ---

  /** The item rules of the validator together with the refusal of a zero total. */
  predicate Acceptable(lines: seq<LineInput>) {
    && lines != []
    && (forall i :: 0 <= i < |lines| ==> lines[i].vatRate in VALID_VAT_RATES)
    && TotalsOf(Figures(ItemsOf(lines))).grossTotalOre != 0
  }

  /** The number is allocated in a transaction of its own, before the insert. */
  function BeginCreating(w: World, ticket: Ticket, clientId: nat, dueDate: Time, lines: seq<LineInput>, year: int)
    : World
  {
    if ticket in w.tasks || !Acceptable(lines) then w
    else
      var number := NextNumber(w.db, year);
      w.(db := AllocateNumber(w.db, year),
         tasks := w.tasks[ticket := Creating(number, clientId, dueDate, ItemsOf(lines))],
         log := w.log + [Allocated(number)])
  }

  function FinishCreating(w: World, ticket: Ticket): World {
    if ticket !in w.tasks || !w.tasks[ticket].Creating? then w
    else
      var t := w.tasks[ticket];
      w.(db := CreateInvoiceWithItems(w.db, t.number, t.clientId, t.dueDate, t.items), tasks := w.tasks - {ticket})
  }

  // --- Issuing a credit note ---

  function LookUpCredit(w: World, ticket: Ticket, id: Id): World {
    if ticket in w.tasks || !Live(w.db, id) then w
    else
      var original := At(w.db, id);
      if original.kind == CREDIT_NOTE || !CanTransition(original.status, CREDITED) then w
      else w.(tasks := w.tasks[ticket := Crediting(id, original, None)])
  }

  function NumberCreditNote(w: World, ticket: Ticket, year: int): World {
    if ticket !in w.tasks || !w.tasks[ticket].Crediting? || w.tasks[ticket].creditNumber.Some? then w
    else
      var number := NextNumber(w.db, year);
      w.(db := AllocateNumber(w.db, year),
         tasks := w.tasks[ticket := w.tasks[ticket].(creditNumber := Some(number))],
         log := w.log + [Allocated(number)])
  }

  /** The data of the credit note, all of it from the earlier read. */
  function CreditDataOf(t: Task): CreditData
    requires t.Crediting? && t.creditNumber.Some?
  {
    var mirrored := MirroredItems(t.seen.items);
    CreditData(t.originalId, t.creditNumber.value, t.seen.clientId, TotalsOf(Figures(mirrored)), mirrored)
  }

  function FinishCrediting(w: World, ticket: Ticket, at: Time): World {
    if ticket !in w.tasks || !w.tasks[ticket].Crediting? || w.tasks[ticket].creditNumber.None? then w
    else w.(db := CreateCreditNote(w.db, CreditDataOf(w.tasks[ticket]), at), tasks := w.tasks - {ticket})
  }

  // --- Applying a payment ---

  /** handleStripeEvent up to its transaction: every early return leaves no task behind.
      Without an amount on the session, the amount is what was due at this read. */
  function LookUpPayment(w: World, ticket: Ticket, event: StripeEvent): World {
    if ticket in w.tasks || !event.completed || event.invoiceId.None? || !event.settled then w
    else if !Live(w.db, event.invoiceId.value) then w
    else
      var invoice := At(w.db, event.invoiceId.value);
      var amountOre := if event.amountTotal.Some? then event.amountTotal.value else TotalDue(invoice);
      w.(tasks := w.tasks[ticket := Paying(event.id, event.invoiceId.value, amountOre)])
  }

  function OutcomeOf(db: Db, event: EventId, id: Id): PaymentOutcome {
    if event in db.claimed then DUPLICATE_EVENT
    else if IsOpen(db, id) then HANDLED
    else INVOICE_NOT_PAYABLE
  }

  function CommitPaying(w: World, ticket: Ticket, at: Time): World {
    if ticket !in w.tasks || !w.tasks[ticket].Paying? then w
    else
      var t := w.tasks[ticket];
      w.(db := ClaimAndPay(w.db, t.event, t.invoiceId, t.amountOre, at),
         tasks := w.tasks - {ticket},
         log := w.log + [Payment(t.event, t.invoiceId, t.amountOre, OutcomeOf(w.db, t.event, t.invoiceId))])
  }

  /** The same transaction when it throws after its claim: what it wrote by then is rolled back, and
      the caller is left to the retry. */
  function BreakOffPaying(w: World, ticket: Ticket, at: Time, fault: Fault): World {
    if ticket !in w.tasks || !w.tasks[ticket].Paying? || w.tasks[ticket].event in w.db.claimed then w
    else
      var t := w.tasks[ticket];
      w.(db := Restored(w.db, Underway(w.db, t.event, t.invoiceId, t.amountOre, at, fault)),
         tasks := w.tasks - {ticket})
  }

  // --- The overdue run ---

  predicate IsCandidate(db: Db, id: Id, now: Time) {
    IsOpen(db, id) && At(db, id).dueDate < now
  }

  function CandidateOf(id: Id, inv: Invoice): Candidate {
    Candidate(id, inv.status, inv.dueDate, inv.totals.grossTotalOre, inv.lateFeeOre)
  }

  /** The candidate query over the first n rows. */
  function CandidatesBelow(db: Db, n: nat, now: Time): seq<Candidate>
    requires n <= |db.invoices|
  {
    if n == 0 then []
    else
      CandidatesBelow(db, n - 1, now)
      + if IsCandidate(db, n - 1, now) then [CandidateOf(n - 1, At(db, n - 1))] else []
  }

  function Candidates(db: Db, now: Time): seq<Candidate> {
    CandidatesBelow(db, |db.invoices|, now)
  }

  function InterestAt(grossTotalOre: int, dueDate: Time, now: Time): int {
    CalculateLateInterest(grossTotalOre, DaysBetween(dueDate, now), REFERENCE_RATE_BASIS_POINTS)
  }

  function Max(a: int, b: int): int {
    if a < b then b else a
  }

  /** Already overdue and nothing more to charge: the loop's `continue`. */
  predicate Skips(c: Candidate, now: Time) {
    c.status != SENT && InterestAt(c.grossTotalOre, c.dueDate, now) - c.lateFeeOre <= 0
  }

  /** One turn of the loop, from the candidate as it was read. */
  function Accrue(db: Db, c: Candidate, now: Time, at: Time): Db {
    if Skips(c, now) then db
    else
      var owed := InterestAt(c.grossTotalOre, c.dueDate, now);
      ApplyOverdue(db, c.id, Max(c.lateFeeOre, owed), Max(0, owed - c.lateFeeOre), at)
  }

  /** What the run's summary counts for a candidate. */
  function ReportedOre(c: Candidate, now: Time): int {
    if Skips(c, now) then 0 else Max(0, InterestAt(c.grossTotalOre, c.dueDate, now) - c.lateFeeOre)
  }

  function BeginOverdue(w: World, now: Time): World {
    if w.run.Some? then w else w.(run := Some(OverdueRun(now, Candidates(w.db, now))))
  }

  function NextOverdue(w: World, at: Time): World {
    if w.run.None? then w
    else if w.run.value.queue == [] then w.(run := None)
    else
      var run := w.run.value;
      var c := run.queue[0];
      w.(db := Accrue(w.db, c, run.now, at),
         run := Some(run.(queue := run.queue[1..])),
         log := w.log + [Accrual(c.id, run.now, IsOpen(w.db, c.id))])
  }

  // --- Events and runs ---

  function Step(w: World, e: Event): World {
    match e
    case BeginCreate(ticket, clientId, dueDate, lines, year) => BeginCreating(w, ticket, clientId, dueDate, lines, year)
    case FinishCreate(ticket) => FinishCreating(w, ticket)
    case Send(id, at) => w.(db := MarkSent(w.db, id, at))
    case DeleteDraft(id) => w.(db := DeleteDraftInvoice(w.db, id))
    case Remind(id, at) => w.(db := ChargeReminderFee(w.db, id, REMINDER_FEE_ORE, at))
    case LookupCredit(ticket, id) => LookUpCredit(w, ticket, id)
    case NumberCredit(ticket, year) => NumberCreditNote(w, ticket, year)
    case FinishCredit(ticket, at) => FinishCrediting(w, ticket, at)
    case LookupPayment(ticket, event) => LookUpPayment(w, ticket, event)
    case CommitPayment(ticket, at) => CommitPaying(w, ticket, at)
    case BreakOffPayment(ticket, at, fault) => BreakOffPaying(w, ticket, at, fault)
    case Fail(ticket) => w.(tasks := w.tasks - {ticket})
    case BeginRun(now) => BeginOverdue(w, now)
    case NextCandidate(at) => NextOverdue(w, at)
    case FailRun => w.(run := None)
  }

  /** Any interleaving of the services is a sequence of events. */
  function Run(es: seq<Event>): World {
    if es == [] then START else Step(Run(es[..|es| - 1]), es[|es| - 1])
  }
}
