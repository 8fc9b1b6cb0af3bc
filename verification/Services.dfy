/** The service calls, each running through without interference. What interference does
    to them is the subject of Interleavings. */
module Services {
  import opened Wrappers
  import opened Money
  import opened Ledger
  import opened Workflow
  import opened Database

  datatype Refusal =
    | NOT_FOUND
    | ZERO_TOTAL
    | IS_CREDIT_NOTE
    | WRONG_STATUS(status: Status)
    | CHANGED_BY_SOMEONE_ELSE

  /** Why a call that needs another status is refused. */
  function Reason(db: Db, id: Id): Refusal {
    if Live(db, id) then WRONG_STATUS(At(db, id).status) else NOT_FOUND
  }

  /** The same where credit notes are turned away first. */
  function InvoiceReason(db: Db, id: Id): Refusal {
    if Live(db, id) && At(db, id).kind == CREDIT_NOTE then IS_CREDIT_NOTE else Reason(db, id)
  }

  // --- invoice.service.ts ---

  /** The draft as it was asked for: an invoice to this client, due on this day, with these lines in
      this order, under a number of this year, and no fees. */
  predicate DraftOf(inv: Invoice, clientId: nat, dueDate: Time, lines: seq<LineInput>, year: int) {
    && inv.kind == INVOICE && inv.status == DRAFT && inv.credits == None && inv.sentAt == None
    && inv.clientId == clientId && inv.dueDate == dueDate
    && inv.number.year == year
    && inv.lateFeeOre == 0 && inv.reminderFeeOre == 0
    && |inv.items| == |lines|
    && forall i :: 0 <= i < |lines| ==>
         && inv.items[i].quantity == lines[i].quantity
         && inv.items[i].unitPriceOre == lines[i].unitPriceOre
         && inv.items[i].vatRate == lines[i].vatRate
         && inv.items[i].position == i
  }

  method CreateInvoice(db: Tables, clientId: nat, dueDate: Time, lines: seq<LineInput>, year: int)
    returns (r: Result<Id, Refusal>)
    modifies db
    ensures var before := old(db.Contents());
            if TotalsOf(Figures(ItemsOf(lines))).grossTotalOre == 0 then
              r == Err(ZERO_TOTAL) && db.Contents() == before
            else
              && r == Ok(|before.invoices|)
              && db.Contents() == Ledger.CreateInvoiceWithItems(
                   AllocateNumber(before, year), NextNumber(before, year), clientId, dueDate, ItemsOf(lines))
    ensures r.Ok? ==> Live(db.Contents(), r.value)
    ensures r.Ok? ==> DraftOf(At(db.Contents(), r.value), clientId, dueDate, lines, year)
    ensures r.Ok? ==> db.Contents().ledger == old(db.Contents()).ledger
  {
    var calculated := ItemsOf(lines);
    var totals := SumLines(Figures(calculated));
    if totals.grossTotalOre == 0 {
      return Err(ZERO_TOTAL);
    }
    var number := db.AllocateInvoiceNumber(year);
    var id := db.CreateInvoiceWithItems(number, clientId, dueDate, totals, calculated);
    r := Ok(id);
  }

  /** One invoice is replaced and one row appended; nothing else. */
  predicate Replaced(before: Db, after: Db, id: Id, inv: Invoice, row: Row) {
    && id < |before.invoices|
    && after == before.(invoices := before.invoices[id := Some(inv)], ledger := before.ledger + [row])
  }

  /** Sending dates the draft and puts its gross total on the ledger. */
  predicate SentAs(before: Db, after: Db, id: Id, now: Time) {
    && Live(before, id)
    && var inv := At(before, id);
    && Replaced(before, after, id, inv.(status := SENT, sentAt := Some(now)),
                Row(id, INVOICE_CREATED, inv.totals.grossTotalOre, now))
  }

  method SendInvoice(db: Tables, id: Id, now: Time) returns (r: Result<Invoice, Refusal>)
    modifies db
    ensures db.Contents() == Ledger.MarkSent(old(db.Contents()), id, now)
    ensures r.Ok? <==> old(IsDraft(db.Contents(), id))
    ensures r.Ok? ==> r.value == old(At(db.Contents(), id)).(status := SENT, sentAt := Some(now))
    ensures r.Ok? ==> SentAs(old(db.Contents()), db.Contents(), id, now)
    ensures r.Err? ==> db.Contents() == old(db.Contents()) && r.error == Reason(old(db.Contents()), id)
  {
    var invoice := db.FindInvoiceById(id);
    if invoice.None? {
      return Err(NOT_FOUND);
    }
    if !CanTransition(invoice.value.status, SENT) {
      return Err(WRONG_STATUS(invoice.value.status));
    }
    var updated := db.MarkSent(id, now);
    if updated.None? {
      assert false;
      return Err(CHANGED_BY_SOMEONE_ELSE);
    }
    r := Ok(updated.value);
  }

  method DeleteDraft(db: Tables, id: Id) returns (r: Result<(), Refusal>)
    modifies db
    ensures db.Contents() == Ledger.DeleteDraftInvoice(old(db.Contents()), id)
    ensures r.Ok? <==> old(IsDraft(db.Contents(), id))
    ensures var before := old(db.Contents());
            if r.Ok? then db.Contents() == before.(invoices := before.invoices[id := None])
            else db.Contents() == before && r.error == Reason(before, id)
  {
    var invoice := db.FindInvoiceById(id);
    if invoice.None? {
      return Err(NOT_FOUND);
    }
    if invoice.value.status != DRAFT {
      return Err(WRONG_STATUS(invoice.value.status));
    }
    var deleted := db.DeleteDraftInvoice(id);
    r := if deleted then Ok(()) else Err(CHANGED_BY_SOMEONE_ELSE);
  }

  /** The note says minus what the invoice said, line by line: the sign is on the quantity. */
  predicate NoteOn(note: Invoice, inv: Invoice, id: Id, year: int, now: Time) {
    && note.kind == CREDIT_NOTE && note.status == SENT && note.credits == Some(id)
    && note.clientId == inv.clientId
    && note.dueDate == now && note.sentAt == Some(now)
    && note.number.year == year
    && note.lateFeeOre == 0 && note.reminderFeeOre == 0
    && |note.items| == |inv.items|
    && forall i :: 0 <= i < |inv.items| ==>
         && note.items[i].quantity == -inv.items[i].quantity
         && note.items[i].unitPriceOre == inv.items[i].unitPriceOre
         && note.items[i].vatRate == inv.items[i].vatRate
         && note.items[i].position == inv.items[i].position
  }

  /** The invoice is credited, the note stands behind all other documents, and the invoice's ledger has
      the note's total and minus each fee that was on it. */
  predicate CreditedAs(before: Db, after: Db, id: Id, year: int, now: Time) {
    && Live(before, id)
    && var n, inv := |before.invoices|, At(before, id);
    && Live(after, n) && NoteOn(At(after, n), inv, id, year, now)
    && after.invoices == before.invoices[id := Some(inv.(status := CREDITED))] + [Some(At(after, n))]
    && after.ledger == before.ledger + [Row(id, CREDIT_NOTE_ISSUED, At(after, n).totals.grossTotalOre, now)]
         + (if inv.lateFeeOre > 0 then [Row(id, LATE_FEE_WAIVED, -inv.lateFeeOre, now)] else [])
         + (if inv.reminderFeeOre > 0 then [Row(id, REMINDER_FEE_WAIVED, -inv.reminderFeeOre, now)] else [])
    && after.claimed == before.claimed
    && after.series == before.series[year := At(after, n).number.n]
  }

  /** The checks of the service let through exactly the invoices the guard lets through. */
  method IssueCreditNote(db: Tables, id: Id, year: int, now: Time) returns (r: Result<Id, Refusal>)
    modifies db
    ensures var before := old(db.Contents());
            if !IsOpen(before, id) then
              r.Err? && db.Contents() == before
            else
              var mirrored := MirroredItems(At(before, id).items);
              && r == Ok(|before.invoices|)
              && db.Contents() == Ledger.CreateCreditNote(
                   AllocateNumber(before, year),
                   CreditData(id, NextNumber(before, year), At(before, id).clientId,
                              TotalsOf(Figures(mirrored)), mirrored),
                   now)
    ensures r.Ok? ==> CreditedAs(old(db.Contents()), db.Contents(), id, year, now)
    ensures r.Err? ==> r.error == InvoiceReason(old(db.Contents()), id)
  {
    var original := db.FindInvoiceById(id);
    if original.None? {
      return Err(NOT_FOUND);
    }
    if original.value.kind == CREDIT_NOTE {
      return Err(IS_CREDIT_NOTE);
    }
    if original.value.status == PAID || !CanTransition(original.value.status, CREDITED) {
      return Err(WRONG_STATUS(original.value.status));
    }
    var mirrored := MirroredItems(original.value.items);
    var totals := SumLines(Figures(mirrored));
    var number := db.AllocateInvoiceNumber(year);
    var note := db.CreateCreditNote(CreditData(id, number, original.value.clientId, totals, mirrored), now);
    r := if note.Some? then Ok(note.value) else Err(CHANGED_BY_SOMEONE_ELSE);
  }

  /** Sixty kronor, once. */
  predicate RemindedAs(before: Db, after: Db, id: Id, now: Time) {
    && Live(before, id)
    && var inv := At(before, id);
    if inv.reminderFeeOre == 0
    then Replaced(before, after, id, inv.(reminderFeeOre := 6000), Row(id, REMINDER_FEE_ADDED, 6000, now))
    else after == before
  }

  /** The first reminder charges the fee; any later one changes nothing that is owed. */
  method SendReminder(db: Tables, id: Id, now: Time) returns (r: Result<bool, Refusal>)
    modifies db
    ensures db.Contents() == Ledger.ChargeReminderFee(old(db.Contents()), id, REMINDER_FEE_ORE, now)
    ensures r.Ok? <==> old(IsOpen(db.Contents(), id))
    ensures r.Ok? ==> r.value == old(At(db.Contents(), id).reminderFeeOre == 0)
    ensures r.Ok? ==> RemindedAs(old(db.Contents()), db.Contents(), id, now)
    ensures r.Err? ==> db.Contents() == old(db.Contents()) && r.error == InvoiceReason(old(db.Contents()), id)
  {
    var invoice := db.FindInvoiceById(id);
    if invoice.None? {
      return Err(NOT_FOUND);
    }
    if invoice.value.kind == CREDIT_NOTE {
      return Err(IS_CREDIT_NOTE);
    }
    if invoice.value.status != SENT && invoice.value.status != OVERDUE {
      return Err(WRONG_STATUS(invoice.value.status));
    }
    var feeCharged := db.ChargeReminderFee(id, REMINDER_FEE_ORE, now);
    r := Ok(feeCharged);
  }

  // --- payment.service.ts ---

  datatype WebhookOutcome =
    | Handled(invoiceId: Id)
    | UnhandledType
    | MissingInvoiceMetadata
    | NotSettled
    | UnknownInvoice
    | DuplicateEvent
    | InvoiceNotPayable
    | Failed

  /** What was received: the session's amount, or what is due where it names none. */
  function AmountOf(event: StripeEvent, inv: Invoice): int {
    if event.amountTotal.Some? then event.amountTotal.value else TotalDue(inv)
  }

  /** The event gets as far as the transaction. */
  predicate Reaches(db: Db, event: StripeEvent) {
    event.completed && event.invoiceId.Some? && event.settled && Live(db, event.invoiceId.value)
  }

  /** The payment as it is booked: the session's amount, or all that is due where it names none, on one
      new row; the invoice PAID and otherwise as it was, and so is everything else but the claim. */
  predicate PaidAs(before: Db, after: Db, event: StripeEvent, now: Time) {
    && event.invoiceId.Some? && Live(before, event.invoiceId.value)
    && var id := event.invoiceId.value;
    && var inv := At(before, id);
    && var due := inv.totals.grossTotalOre + inv.lateFeeOre + inv.reminderFeeOre;
    && Replaced(before.(claimed := before.claimed + {event.id}), after, id, inv.(status := PAID),
                Row(id, PAYMENT_RECEIVED, if event.amountTotal == None then due else event.amountTotal.value, now))
  }

  /** The outcome is Handled exactly for the first delivery of a settled session for an open
      invoice; everything that returns early, and a transaction that fails (Failed is its error thrown
      on, answered with a 500), leaves the event unclaimed. */
  method HandleStripeEvent(db: Tables, event: StripeEvent, now: Time, fault: Option<Fault>)
    returns (outcome: WebhookOutcome)
    modifies db
    ensures var before := old(db.Contents());
            var first := Reaches(before, event) && event.id !in before.claimed;
            && (outcome == UnhandledType <==> !event.completed)
            && (outcome == MissingInvoiceMetadata <==> event.completed && event.invoiceId == None)
            && (outcome == NotSettled <==> event.completed && event.invoiceId != None && !event.settled)
            && (outcome == UnknownInvoice <==>
                  event.completed && event.invoiceId != None && event.settled && !Live(before, event.invoiceId.value))
            && (outcome.Failed? <==> first && fault.Some?)
            && (outcome.Handled? <==> first && fault.None? && IsOpen(before, event.invoiceId.value))
            && (outcome.Handled? ==>
                  && outcome == Handled(event.invoiceId.value)
                  && PaidAs(before, db.Contents(), event, now))
            && (outcome.InvoiceNotPayable? <==> first && fault.None? && !IsOpen(before, event.invoiceId.value))
            && (outcome.DuplicateEvent? <==> Reaches(before, event) && event.id in before.claimed)
            && db.Contents() ==
                 if !first || outcome.Failed? then before
                 else
                   var id := event.invoiceId.value;
                   ClaimAndPay(before, event.id, id, AmountOf(event, At(before, id)), now)
  {
    if !event.completed {
      return UnhandledType;
    }
    if event.invoiceId.None? {
      return MissingInvoiceMetadata;
    }
    if !event.settled {
      return NotSettled;
    }
    var id := event.invoiceId.value;
    var invoice := db.FindInvoiceById(id);
    if invoice.None? {
      return UnknownInvoice;
    }
    var expectedOre := TotalDue(invoice.value);
    var amountOre := if event.amountTotal.Some? then event.amountTotal.value else expectedOre;
    var claim := db.ClaimEventAndRun(event.id, id, amountOre, now, fault);
    if claim.None? {
      return Failed;
    }
    match claim.value {
      case DUPLICATE_EVENT => outcome := DuplicateEvent;
      case INVOICE_NOT_PAYABLE => outcome := InvoiceNotPayable;
      case HANDLED => outcome := Handled(id);
    }
  }

  // --- overdue.service.ts ---

  datatype OverdueSummary = OverdueSummary(checked: nat, markedOverdue: nat, interestAccruedOre: int)

  /** Every candidate of a run, in order, with nothing in between. */
  function AccrueAll(db: Db, queue: seq<Candidate>, now: Time, at: Time): Db {
    if queue == [] then db
    else Accrue(AccrueAll(db, queue[..|queue| - 1], now, at), queue[|queue| - 1], now, at)
  }

  function Newly(queue: seq<Candidate>): nat {
    if queue == [] then 0
    else Newly(queue[..|queue| - 1]) + if queue[|queue| - 1].status == SENT then 1 else 0
  }

  /** The amounts reported over the whole queue. */
  function Charged(queue: seq<Candidate>, now: Time): int {
    if queue == [] then 0 else Charged(queue[..|queue| - 1], now) + ReportedOre(queue[|queue| - 1], now)
  }

  // --- The summary, read off the tables before and after ---

  /** What the rows from position k on amount to. */
  function AmountFrom(ledger: seq<Row>, k: nat): int {
    if |ledger| <= k then 0 else AmountFrom(ledger[..|ledger| - 1], k) + ledger[|ledger| - 1].amountOre
  }

  /** An invoice that has been sent, is neither paid nor credited, and whose due date has passed. */
  predicate PastDue(slot: Option<Invoice>, now: Time) {
    && slot.Some? && slot.value.kind == INVOICE
    && (slot.value.status == SENT || slot.value.status == OVERDUE)
    && slot.value.dueDate < now
  }

  function CountPastDue(invoices: seq<Option<Invoice>>, now: Time): nat {
    if invoices == [] then 0
    else CountPastDue(invoices[..|invoices| - 1], now) + if PastDue(invoices[|invoices| - 1], now) then 1 else 0
  }

  predicate BecameOverdue(before: Option<Invoice>, after: Option<Invoice>) {
    before.Some? && after.Some? && before.value.status == SENT && after.value.status == OVERDUE
  }

  function CountBecameOverdue(before: seq<Option<Invoice>>, after: seq<Option<Invoice>>): nat
    requires |before| == |after|
  {
    if before == [] then 0
    else
      var n := |before| - 1;
      CountBecameOverdue(before[..n], after[..n]) + if BecameOverdue(before[n], after[n]) then 1 else 0
  }

  /** The summary says how many invoices were past due, how many of them went from SENT to OVERDUE, and
      what the ledger rows that the run appended amount to. */
  predicate Summarises(summary: OverdueSummary, before: Db, after: Db, now: Time) {
    && |before.invoices| == |after.invoices|
    && summary.checked == CountPastDue(before.invoices, now)
    && summary.markedOverdue == CountBecameOverdue(before.invoices, after.invoices)
    && summary.interestAccruedOre == AmountFrom(after.ledger, |before.ledger|)
  }

  /** The loop of runOverdueCheck. `at` is the database clock that stamps the rows. */
  method RunOverdueCheck(db: Tables, now: Time, at: Time) returns (summary: OverdueSummary)
    modifies db
    ensures db.Contents() == AccrueAll(old(db.Contents()), Candidates(old(db.Contents()), now), now, at)
    ensures var queue := Candidates(old(db.Contents()), now);
            summary == OverdueSummary(|queue|, Newly(queue), Charged(queue, now))
    ensures Summarises(summary, old(db.Contents()), db.Contents(), now)
  {
    var candidates := Candidates(db.Contents(), now);
    var markedOverdue, interestAccruedOre := 0, 0;
    for i := 0 to |candidates|
      invariant db.Contents() == AccrueAll(old(db.Contents()), candidates[..i], now, at)
      invariant markedOverdue == Newly(candidates[..i])
      invariant interestAccruedOre == Charged(candidates[..i], now)
    {
      assert candidates[..i + 1][..i] == candidates[..i];
      var invoice := candidates[i];
      var totalOwed := InterestAt(invoice.grossTotalOre, invoice.dueDate, now);
      var increment := totalOwed - invoice.lateFeeOre;
      var newlyOverdue := invoice.status == SENT;
      if !newlyOverdue && increment <= 0 {
        continue;
      }
      db.ApplyOverdue(invoice.id, Max(invoice.lateFeeOre, totalOwed), Max(0, increment), at);
      if newlyOverdue {
        markedOverdue := markedOverdue + 1;
      }
      interestAccruedOre := interestAccruedOre + Max(0, increment);
    }
    assert candidates[..|candidates|] == candidates;
    summary := OverdueSummary(|candidates|, markedOverdue, interestAccruedOre);
    RunSummarises(old(db.Contents()), now, at);
  }

  // --- What an undisturbed run leaves behind ---

  /** The invoice after its turn. */
  function Accrued(inv: Invoice, now: Time): Invoice {
    inv.(status := OVERDUE,
         lateFeeOre := Max(inv.lateFeeOre, InterestAt(inv.totals.grossTotalOre, inv.dueDate, now)))
  }

  /** One turn on a candidate that still is as it was read. */
  lemma AccrueOne(db: Db, id: Id, now: Time, at: Time, other: Id)
    requires IsOpen(db, id)
    ensures var after := Accrue(db, CandidateOf(id, At(db, id)), now, at);
            && after.invoices == db.invoices[id := Some(Accrued(At(db, id), now))]
            && after == db.(invoices := after.invoices, ledger := after.ledger)
            && TallyOf(after.ledger, other).interestOre - TallyOf(db.ledger, other).interestOre
               == if other == id then Accrued(At(db, id), now).lateFeeOre - At(db, id).lateFeeOre else 0
  {
    var inv := At(db, id);
    var owed := InterestAt(inv.totals.grossTotalOre, inv.dueDate, now);
    TallyOfPost(Put(db, id, Accrued(inv, now)), id, LATE_FEE_ADDED, Max(0, owed - inv.lateFeeOre), at, other);
  }

  /** Claims and counters stay, rows stay, and what is added is interest at this clock. */
  ghost predicate OnlyInterestAdded(db: Db, after: Db, at: Time) {
    && after == db.(invoices := after.invoices, ledger := after.ledger)
    && db.ledger <= after.ledger
    && forall k :: |db.ledger| <= k < |after.ledger| ==>
         after.ledger[k].rowType == LATE_FEE_ADDED && after.ledger[k].amountOre > 0 && after.ledger[k].createdAt == at
  }

  /** Past due at the run's clock, and so touched by it: written out. */
  ghost predicate BroughtUpToDate(db: Db, after: Db, n: nat, now: Time, id: Id) {
    var touched := id < n && id < |db.invoices| && PastDue(db.invoices[id], now);
    && |after.invoices| == |db.invoices|
    && (id < |db.invoices| ==>
          after.invoices[id] == if touched then Some(Accrued(At(db, id), now)) else db.invoices[id])
    && TallyOf(after.ledger, id).interestOre - TallyOf(db.ledger, id).interestOre
       == if touched then Accrued(At(db, id), now).lateFeeOre - At(db, id).lateFeeOre else 0
  }

  /** Whatever the candidates were when they were read. */
  lemma {:induction false} RunAddsOnlyInterest(db: Db, queue: seq<Candidate>, now: Time, at: Time)
    ensures OnlyInterestAdded(db, AccrueAll(db, queue, now, at), at)
  {
    if queue != [] {
      var before := AccrueAll(db, queue[..|queue| - 1], now, at);
      RunAddsOnlyInterest(db, queue[..|queue| - 1], now, at);
      TurnAddsOnlyInterest(before, queue[|queue| - 1], now, at);
    }
  }

  lemma TurnAddsOnlyInterest(db: Db, c: Candidate, now: Time, at: Time)
    ensures OnlyInterestAdded(db, Accrue(db, c, now, at), at)
  {
  }

  lemma {:induction false} TurnsBringUpToDate(db: Db, n: nat, now: Time, at: Time, id: Id)
    requires n <= |db.invoices|
    ensures BroughtUpToDate(db, AccrueAll(db, CandidatesBelow(db, n, now), now, at), n, now, id)
  {
    if n > 0 {
      var last := n - 1;
      var queue := CandidatesBelow(db, last, now);
      var before := AccrueAll(db, queue, now, at);
      TurnsBringUpToDate(db, last, now, at, id);
      TurnsBringUpToDate(db, last, now, at, last);
      if IsCandidate(db, last, now) {
        var c := CandidateOf(last, At(db, last));
        assert CandidatesBelow(db, n, now) == queue + [c];
        assert (queue + [c])[..|queue|] == queue;
        assert AccrueAll(db, queue + [c], now, at) == Accrue(before, c, now, at);
        AccrueOne(before, last, now, at, id);
      } else {
        assert CandidatesBelow(db, n, now) == queue;
      }
    }
  }

  /** Every candidate is brought up to date with rows for exactly the difference, and nothing else is
      touched. */
  lemma RunBringsUpToDate(db: Db, now: Time, at: Time)
    ensures var after := AccrueAll(db, Candidates(db, now), now, at);
      && OnlyInterestAdded(db, after, at)
      && forall id: Id :: BroughtUpToDate(db, after, |db.invoices|, now, id)
  {
    RunAddsOnlyInterest(db, Candidates(db, now), now, at);
    forall id: Id
      ensures BroughtUpToDate(db, AccrueAll(db, Candidates(db, now), now, at), |db.invoices|, now, id)
    {
      TurnsBringUpToDate(db, |db.invoices|, now, at, id);
    }
  }

  /** The tables after the first n invoices have had their turns, and what the summary says of them. */
  lemma {:induction false} TurnsSummarise(db: Db, n: nat, now: Time, at: Time)
    requires n <= |db.invoices|
    ensures var queue := CandidatesBelow(db, n, now);
      var after := AccrueAll(db, queue, now, at);
      && |after.invoices| == |db.invoices|
      && |queue| == CountPastDue(db.invoices[..n], now)
      && Newly(queue) == CountBecameOverdue(db.invoices[..n], after.invoices[..n])
      && Charged(queue, now) == AmountFrom(after.ledger, |db.ledger|)
      && |db.ledger| <= |after.ledger|
  {
    if n > 0 {
      var last := n - 1;
      var queue := CandidatesBelow(db, last, now);
      var before := AccrueAll(db, queue, now, at);
      TurnsSummarise(db, last, now, at);
      assert db.invoices[..n][..last] == db.invoices[..last];
      TurnsBringUpToDate(db, last, now, at, last);
      if IsCandidate(db, last, now) {
        var c := CandidateOf(last, At(db, last));
        OneMoreInQueue(db, queue, c, now, at);
        assert CandidatesBelow(db, n, now) == queue + [c];
        OneTurnSummarises(db, before, last, now, at);
      } else {
        assert CandidatesBelow(db, n, now) == queue;
        NotOverdueYet(db, before, last);
      }
    }
  }

  lemma OneMoreInQueue(db: Db, queue: seq<Candidate>, c: Candidate, now: Time, at: Time)
    ensures AccrueAll(db, queue + [c], now, at) == Accrue(AccrueAll(db, queue, now, at), c, now, at)
    ensures Newly(queue + [c]) == Newly(queue) + if c.status == SENT then 1 else 0
    ensures Charged(queue + [c], now) == Charged(queue, now) + ReportedOre(c, now)
  {
    assert (queue + [c])[..|queue|] == queue;
  }

  lemma OneTurnSummarises(db: Db, before: Db, id: Id, now: Time, at: Time)
    requires IsOpen(db, id) && |before.invoices| == |db.invoices| && before.invoices[id] == db.invoices[id]
    requires |db.ledger| <= |before.ledger|
    ensures var c := CandidateOf(id, At(db, id));
      var after := Accrue(before, c, now, at);
      && |after.invoices| == |db.invoices| && |db.ledger| <= |after.ledger|
      && AmountFrom(after.ledger, |db.ledger|) == AmountFrom(before.ledger, |db.ledger|) + ReportedOre(c, now)
      && CountBecameOverdue(db.invoices[..id + 1], after.invoices[..id + 1])
         == CountBecameOverdue(db.invoices[..id], before.invoices[..id]) + if c.status == SENT then 1 else 0
  {
    var c := CandidateOf(id, At(db, id));
    var after := Accrue(before, c, now, at);
    if after.ledger != before.ledger {
      assert after.ledger[..|before.ledger|] == before.ledger;
    }
    assert db.invoices[..id + 1][..id] == db.invoices[..id];
    assert after.invoices[..id + 1][..id] == before.invoices[..id];
  }

  lemma NotOverdueYet(db: Db, after: Db, id: Id)
    requires id < |db.invoices| == |after.invoices| && after.invoices[id] == db.invoices[id]
    ensures CountBecameOverdue(db.invoices[..id + 1], after.invoices[..id + 1])
         == CountBecameOverdue(db.invoices[..id], after.invoices[..id])
  {
    assert db.invoices[..id + 1][..id] == db.invoices[..id];
    assert after.invoices[..id + 1][..id] == after.invoices[..id];
  }

  /** The summary of an undisturbed run is right about the tables. */
  lemma RunSummarises(db: Db, now: Time, at: Time)
    ensures var queue := Candidates(db, now);
      Summarises(OverdueSummary(|queue|, Newly(queue), Charged(queue, now)),
                 db, AccrueAll(db, queue, now, at), now)
  {
    var n := |db.invoices|;
    TurnsSummarise(db, n, now, at);
    var after := AccrueAll(db, Candidates(db, now), now, at);
    assert db.invoices[..n] == db.invoices && after.invoices[..n] == after.invoices;
  }

  lemma {:induction false} NothingLeftToAccrue(db: Db, queue: seq<Candidate>, now: Time, at: Time)
    requires forall i :: 0 <= i < |queue| ==> Skips(queue[i], now)
    ensures AccrueAll(db, queue, now, at) == db
  {
    if queue == [] {
    } else {
      NothingLeftToAccrue(db, queue[..|queue| - 1], now, at);
    }
  }

  lemma {:induction false} SettledCandidatesSkip(db: Db, n: nat, now: Time)
    requires n <= |db.invoices|
    requires forall id :: 0 <= id < n && IsCandidate(db, id, now) ==> Skips(CandidateOf(id, At(db, id)), now)
    ensures forall i :: 0 <= i < |CandidatesBelow(db, n, now)| ==> Skips(CandidatesBelow(db, n, now)[i], now)
  {
    if n > 0 {
      SettledCandidatesSkip(db, n - 1, now);
    }
  }

  /** A second run on the same day charges nothing and changes nothing. */
  lemma SecondRunChangesNothing(db: Db, now: Time, at: Time, later: Time)
    ensures var once := AccrueAll(db, Candidates(db, now), now, at);
            AccrueAll(once, Candidates(once, now), now, later) == once
  {
    var once := AccrueAll(db, Candidates(db, now), now, at);
    RunBringsUpToDate(db, now, at);
    assert BroughtUpToDate(db, once, |db.invoices|, now, 0);
    forall id | 0 <= id < |once.invoices| && IsCandidate(once, id, now)
      ensures Skips(CandidateOf(id, At(once, id)), now)
    {
      assert BroughtUpToDate(db, once, |db.invoices|, now, id);
    }
    SettledCandidatesSkip(once, |once.invoices|, now);
    NothingLeftToAccrue(once, Candidates(once, now), now, later);
  }
}
