/** The invariant of the whole system, kept by every event in every order: stale
    reads, abandoned tasks and failed runs included. */
module Interleavings {
  import opened Wrappers
  import opened Money
  import opened Ledger
  import opened Books
  import opened Workflow

  // --- Stale reads ---

  /** What a task has read is still true where it matters when it writes. */
  ghost predicate TaskSound(db: Db, t: Task) {
    match t
    case Creating(_, _, _, items) => Figured(items, TotalsOf(Figures(items)))
    case Crediting(id, seen, _) => Issued(db, id) && SameDocument(seen, At(db, id))
    case Paying(_, _, _) => true
  }

  ghost predicate TasksSound(w: World) {
    forall k :: k in w.tasks ==> TaskSound(w.db, w.tasks[k])
  }

  /** The candidate's fee is the invoice's fee, even when the invoice has since been settled. */
  predicate CandidateSound(db: Db, c: Candidate) {
    && Issued(db, c.id)
    && At(db, c.id).totals.grossTotalOre == c.grossTotalOre
    && At(db, c.id).dueDate == c.dueDate
    && At(db, c.id).lateFeeOre == c.lateFeeOre
    && (c.status == SENT ==> At(db, c.id).status != OVERDUE)
    && (c.status == OVERDUE ==> At(db, c.id).status != SENT)
    && (c.status == SENT || c.status == OVERDUE)
  }

  ghost predicate QueueSound(db: Db, queue: seq<Candidate>) {
    && (forall i :: 0 <= i < |queue| ==> CandidateSound(db, queue[i]))
    && (forall i, j :: 0 <= i < j < |queue| ==> queue[i].id != queue[j].id)
  }

  ghost predicate RunSound(w: World) {
    w.run.Some? ==> QueueSound(w.db, w.run.value.queue)
  }

  ghost predicate Inv(w: World) {
    Sound(w.db) && TasksSound(w) && RunSound(w)
  }

  // --- The tables under every event ---

  lemma ItemsAreFigured(lines: seq<LineInput>)
    requires Acceptable(lines)
    ensures Figured(ItemsOf(lines), TotalsOf(Figures(ItemsOf(lines))))
  {
    assert LinesOf(ItemsOf(lines)) == lines;
    assert Figures(ItemsOf(lines)) == Calculated(lines);
  }

  lemma AccrueKeepsSound(db: Db, c: Candidate, now: Time, at: Time)
    requires Sound(db) && CandidateSound(db, c)
    ensures StepOf(db, Accrue(db, c, now, at))
  {
    if !Skips(c, now) {
      var owed := InterestAt(c.grossTotalOre, c.dueDate, now);
      OverdueKeepsSound(db, c.id, Max(c.lateFeeOre, owed), Max(0, owed - c.lateFeeOre), at);
    }
  }

  lemma FinishKeepsBooks(w: World, e: Event)
    requires Inv(w) && (e.FinishCreate? || e.FinishCredit? || e.CommitPayment?)
    ensures StepOf(w.db, Step(w, e).db)
  {
    if e.ticket in w.tasks {
      var t := w.tasks[e.ticket];
      assert TaskSound(w.db, t);
      if e.FinishCreate? && t.Creating? {
        CreateKeepsSound(w.db, t.number, t.clientId, t.dueDate, t.items);
      } else if e.FinishCredit? && t.Crediting? && t.creditNumber.Some? {
        CreditKeepsSound(w.db, CreditDataOf(t), e.at);
      } else if e.CommitPayment? && t.Paying? {
        ClaimAndPayKeepsSound(w.db, t.event, t.invoiceId, t.amountOre, e.at);
      }
    }
  }

  /** Every event keeps the books, changes statuses only as the table allows and rewrites nothing. */
  lemma StepKeepsBooks(w: World, e: Event)
    requires Inv(w)
    ensures StepOf(w.db, Step(w, e).db)
  {
    match e
    case BeginCreate(_, _, _, _, year) => AllocateKeepsSound(w.db, year);
    case Send(id, at) => MarkSentKeepsSound(w.db, id, at);
    case DeleteDraft(id) => DeleteDraftKeepsSound(w.db, id);
    case Remind(id, at) => ReminderKeepsSound(w.db, id, at);
    case NumberCredit(_, year) => AllocateKeepsSound(w.db, year);
    case FinishCreate(_) => FinishKeepsBooks(w, e);
    case FinishCredit(_, _) => FinishKeepsBooks(w, e);
    case CommitPayment(_, _) => FinishKeepsBooks(w, e);
    case NextCandidate(at) =>
      if w.run.Some? && w.run.value.queue != [] {
        AccrueKeepsSound(w.db, w.run.value.queue[0], w.run.value.now, at);
      }
    case _ =>
      assert Step(w, e).db == w.db;
  }

  lemma TaskStaysSound(before: Db, after: Db, t: Task)
    requires TaskSound(before, t) && Evolves(before, after)
    ensures TaskSound(after, t)
  {
    if t.Crediting? {
      assert SlotEvolves(before.invoices[t.originalId], after.invoices[t.originalId]);
    }
  }

  lemma StepKeepsTasks(w: World, e: Event)
    requires Inv(w)
    ensures TasksSound(Step(w, e))
  {
    StepKeepsBooks(w, e);
    var after := Step(w, e);
    forall k | k in after.tasks
      ensures TaskSound(after.db, after.tasks[k])
    {
      if k in w.tasks {
        TaskStaysSound(w.db, after.db, w.tasks[k]);
      } else if e.BeginCreate? {
        ItemsAreFigured(e.lines);
      }
    }
  }

  // --- Only the overdue run touches late fees ---

  /** The event is the run's next candidate, and it is this invoice. */
  predicate AccruesOn(w: World, e: Event, id: Id) {
    e.NextCandidate? && w.run.Some? && w.run.value.queue != [] && w.run.value.queue[0].id == id
  }

  lemma CreditLeavesFees(db: Db, data: CreditData, now: Time, id: Id)
    requires Live(CreateCreditNote(db, data, now), id)
    ensures Live(db, id) || (id == |db.invoices| && At(CreateCreditNote(db, data, now), id).lateFeeOre == 0)
    ensures Live(db, id) ==>
              var a, b := At(db, id), At(CreateCreditNote(db, data, now), id);
              b.lateFeeOre == a.lateFeeOre && (b.status == a.status || b.status == CREDITED)
  {
    if IsOpen(db, data.originalId) {
      CreditInvoices(db, data, now);
    }
  }

  lemma FeesUntouched(w: World, e: Event, id: Id)
    requires Inv(w) && !AccruesOn(w, e, id)
    requires Live(Step(w, e).db, id)
    ensures Live(w.db, id) || (id == |w.db.invoices| && At(Step(w, e).db, id).lateFeeOre == 0)
    ensures Live(w.db, id) ==>
              var a, b := At(w.db, id), At(Step(w, e).db, id);
              && b.lateFeeOre == a.lateFeeOre
              && (b.status == a.status || a.status == DRAFT || (b.status != SENT && b.status != OVERDUE))
  {
    match e
    case FinishCredit(ticket, at) =>
      if ticket in w.tasks && w.tasks[ticket].Crediting? && w.tasks[ticket].creditNumber.Some? {
        CreditLeavesFees(w.db, CreditDataOf(w.tasks[ticket]), at, id);
      }
    case _ =>
  }

  lemma CandidateStaysSound(w: World, e: Event, c: Candidate)
    requires Inv(w) && CandidateSound(w.db, c) && !AccruesOn(w, e, c.id)
    ensures CandidateSound(Step(w, e).db, c)
  {
    StepKeepsBooks(w, e);
    assert SlotEvolves(w.db.invoices[c.id], Step(w, e).db.invoices[c.id]);
    FeesUntouched(w, e, c.id);
  }

  lemma {:induction false} CandidatesAreSound(db: Db, n: nat, now: Time)
    requires n <= |db.invoices|
    ensures QueueSound(db, CandidatesBelow(db, n, now))
    ensures forall i :: 0 <= i < |CandidatesBelow(db, n, now)| ==> CandidatesBelow(db, n, now)[i].id < n
  {
    if n > 0 {
      CandidatesAreSound(db, n - 1, now);
    }
  }

  lemma StepKeepsRun(w: World, e: Event)
    requires Inv(w)
    ensures RunSound(Step(w, e))
  {
    var after := Step(w, e);
    if e.BeginRun? && w.run.None? {
      CandidatesAreSound(w.db, |w.db.invoices|, e.now);
    } else if after.run.Some? {
      var queue := w.run.value.queue;
      var rest := after.run.value.queue;
      forall i | 0 <= i < |rest|
        ensures CandidateSound(after.db, rest[i])
      {
        if e.NextCandidate? {
          CandidateStaysSound(w, e, queue[i + 1]);
        } else {
          CandidateStaysSound(w, e, queue[i]);
        }
      }
    }
  }

  lemma StepKeepsInv(w: World, e: Event)
    requires Inv(w)
    ensures Inv(Step(w, e)) && StepOf(w.db, Step(w, e).db)
  {
    StepKeepsBooks(w, e);
    StepKeepsTasks(w, e);
    StepKeepsRun(w, e);
  }

  // --- Interest ---

  /** The largest interest any run owed the invoice when it got to it and found it open. */
  function InterestSoFar(log: seq<Answer>, id: Id, grossTotalOre: int, dueDate: Time): int {
    if log == [] then 0
    else
      var last := log[|log| - 1];
      var before := InterestSoFar(log[..|log| - 1], id, grossTotalOre, dueDate);
      if last.Accrual? && last.id == id && last.open
      then Max(before, InterestAt(grossTotalOre, dueDate, last.runAt))
      else before
  }

  ghost predicate InterestSound(w: World) {
    && (forall id: Id :: Live(w.db, id) ==>
          At(w.db, id).lateFeeOre
          == InterestSoFar(w.log, id, At(w.db, id).totals.grossTotalOre, At(w.db, id).dueDate))
    && (forall k :: 0 <= k < |w.log| && w.log[k].Accrual? ==> w.log[k].id < |w.db.invoices|)
  }

  lemma {:induction false} NoAccrualNoInterest(log: seq<Answer>, id: Id, grossTotalOre: int, dueDate: Time)
    requires forall k :: 0 <= k < |log| && log[k].Accrual? ==> log[k].id != id
    ensures InterestSoFar(log, id, grossTotalOre, dueDate) == 0
  {
    if log != [] {
      NoAccrualNoInterest(log[..|log| - 1], id, grossTotalOre, dueDate);
    }
  }

  /** Every event extends the log by at most one answer. */
  lemma LogGrows(w: World, e: Event)
    ensures var log := Step(w, e).log;
            || log == w.log
            || (|log| == |w.log| + 1 && log[..|w.log|] == w.log)
    ensures Step(w, e).log != w.log && Step(w, e).log[|w.log|].Accrual? ==>
              && e.NextCandidate? && w.run.Some? && w.run.value.queue != []
              && var c := w.run.value.queue[0];
              && Step(w, e).log[|w.log|] == Accrual(c.id, w.run.value.now, IsOpen(w.db, c.id))
  {
  }

  lemma AccruedFee(w: World, e: Event, id: Id)
    requires Inv(w) && AccruesOn(w, e, id)
    ensures Live(w.db, id) && Live(Step(w, e).db, id)
    ensures var a, b := At(w.db, id), At(Step(w, e).db, id);
            b.lateFeeOre
            == if Open(a) then Max(a.lateFeeOre, InterestAt(a.totals.grossTotalOre, a.dueDate, w.run.value.now))
               else a.lateFeeOre
  {
    assert CandidateSound(w.db, w.run.value.queue[0]);
  }

  lemma StepKeepsInterest(w: World, e: Event)
    requires Inv(w) && InterestSound(w)
    ensures InterestSound(Step(w, e))
  {
    var after := Step(w, e);
    StepKeepsBooks(w, e);
    LogGrows(w, e);
    forall id: Id | Live(after.db, id)
      ensures At(after.db, id).lateFeeOre
           == InterestSoFar(after.log, id, At(after.db, id).totals.grossTotalOre, At(after.db, id).dueDate)
    {
      if AccruesOn(w, e, id) {
        AccruedFee(w, e, id);
        assert SlotEvolves(w.db.invoices[id], after.db.invoices[id]);
      } else {
        FeesUntouched(w, e, id);
        if Live(w.db, id) {
          assert SlotEvolves(w.db.invoices[id], after.db.invoices[id]);
        } else {
          NoAccrualNoInterest(w.log, id, At(after.db, id).totals.grossTotalOre, At(after.db, id).dueDate);
        }
      }
    }
    forall k | 0 <= k < |after.log| && after.log[k].Accrual?
      ensures after.log[k].id < |after.db.invoices|
    {
      if k < |w.log| {
        assert after.log[k] == w.log[k];
      } else {
        assert CandidateSound(w.db, w.run.value.queue[0]);
      }
    }
  }

  // --- Payments ---

  /** How often an event id was committed: handled, or claimed for an invoice that was not open. */
  function Commits(log: seq<Answer>, event: EventId): nat {
    if log == [] then 0
    else
      var last := log[|log| - 1];
      Commits(log[..|log| - 1], event)
      + if last.Payment? && last.event == event && last.outcome != DUPLICATE_EVENT then 1 else 0
  }

  function HandledFor(log: seq<Answer>, id: Id): nat {
    if log == [] then 0
    else
      var last := log[|log| - 1];
      HandledFor(log[..|log| - 1], id)
      + if last.Payment? && last.invoiceId == id && last.outcome == HANDLED then 1 else 0
  }

  function ReceivedFor(log: seq<Answer>, id: Id): int {
    if log == [] then 0
    else
      var last := log[|log| - 1];
      ReceivedFor(log[..|log| - 1], id)
      + if last.Payment? && last.invoiceId == id && last.outcome == HANDLED then last.amountOre else 0
  }

  ghost predicate PaymentsSound(w: World) {
    && (forall event :: Commits(w.log, event) == if event in w.db.claimed then 1 else 0)
    && (forall id: Id :: HandledFor(w.log, id) == TallyOf(w.db.ledger, id).payments)
    && (forall id: Id :: ReceivedFor(w.log, id) == TallyOf(w.db.ledger, id).paidOre)
  }

  /** The event commits a payment for this invoice. */
  predicate PaysFor(w: World, e: Event, id: Id) {
    && e.CommitPayment? && e.ticket in w.tasks && w.tasks[e.ticket].Paying?
    && w.tasks[e.ticket].invoiceId == id
    && OutcomeOf(w.db, w.tasks[e.ticket].event, id) == HANDLED
  }

  predicate SamePayments(before: Db, after: Db, id: Id) {
    && TallyOf(after.ledger, id).payments == TallyOf(before.ledger, id).payments
    && TallyOf(after.ledger, id).paidOre == TallyOf(before.ledger, id).paidOre
  }

  lemma NotAPayment(db: Db, id: Id, rowType: RowType, amountOre: int, now: Time, other: Id)
    requires rowType != PAYMENT_RECEIVED
    ensures SamePayments(db, Post(db, id, rowType, amountOre, now), other)
  {
    TallyOfPost(db, id, rowType, amountOre, now, other);
  }

  lemma CreditIsNotAPayment(db: Db, data: CreditData, now: Time, other: Id)
    requires Sound(db)
    ensures SamePayments(db, CreateCreditNote(db, data, now), other)
  {
    if IsOpen(db, data.originalId) {
      assert Entry(db, data.originalId);
      CreditTally(db, data, now, other);
    }
  }

  lemma AccrualIsNotAPayment(db: Db, c: Candidate, now: Time, at: Time, other: Id)
    ensures SamePayments(db, Accrue(db, c, now, at), other)
  {
    if IsOpen(db, c.id) {
      var owed := InterestAt(c.grossTotalOre, c.dueDate, now);
      NotAPayment(Put(db, c.id, At(db, c.id).(status := OVERDUE, lateFeeOre := Max(c.lateFeeOre, owed))),
                  c.id, LATE_FEE_ADDED, Max(0, owed - c.lateFeeOre), at, other);
    }
  }

  lemma ClaimPaymentRows(db: Db, event: EventId, i: Id, amountOre: int, at: Time, id: Id)
    ensures var t, t' := TallyOf(db.ledger, id), TallyOf(ClaimAndPay(db, event, i, amountOre, at).ledger, id);
            var pays := i == id && OutcomeOf(db, event, i) == HANDLED;
            && t'.payments == t.payments + (if pays then 1 else 0)
            && t'.paidOre == t.paidOre + (if pays then amountOre else 0)
  {
    if event !in db.claimed && IsOpen(db, i) {
      var claimed := db.(claimed := db.claimed + {event});
      TallyOfPost(Put(claimed, i, At(db, i).(status := PAID)), i, PAYMENT_RECEIVED, amountOre, at, id);
    }
  }

  /** PAYMENT_RECEIVED rows appear exactly when a delivery is handled, with its amount. */
  lemma PaymentRows(w: World, e: Event, id: Id)
    requires Inv(w)
    ensures !PaysFor(w, e, id) ==> SamePayments(w.db, Step(w, e).db, id)
    ensures PaysFor(w, e, id) ==>
              var t, t' := TallyOf(w.db.ledger, id), TallyOf(Step(w, e).db.ledger, id);
              && t'.payments == t.payments + 1
              && t'.paidOre == t.paidOre + w.tasks[e.ticket].amountOre
  {
    match e
    case Send(i, at) =>
      if IsDraft(w.db, i) {
        var inv := At(w.db, i).(status := SENT, sentAt := Some(at));
        NotAPayment(Put(w.db, i, inv), i, INVOICE_CREATED, inv.totals.grossTotalOre, at, id);
      }
    case Remind(i, at) =>
      if IsOpen(w.db, i) && At(w.db, i).reminderFeeOre == 0 {
        var inv := At(w.db, i).(reminderFeeOre := REMINDER_FEE_ORE);
        NotAPayment(Put(w.db, i, inv), i, REMINDER_FEE_ADDED, REMINDER_FEE_ORE, at, id);
      }
    case BreakOffPayment(_, _, _) =>
      assert Step(w, e).db == w.db;
    case FinishCredit(ticket, at) =>
      if ticket in w.tasks && w.tasks[ticket].Crediting? && w.tasks[ticket].creditNumber.Some? {
        CreditIsNotAPayment(w.db, CreditDataOf(w.tasks[ticket]), at, id);
      }
    case CommitPayment(ticket, at) =>
      if ticket in w.tasks && w.tasks[ticket].Paying? {
        var t := w.tasks[ticket];
        ClaimPaymentRows(w.db, t.event, t.invoiceId, t.amountOre, at, id);
      }
    case NextCandidate(at) =>
      if w.run.Some? && w.run.value.queue != [] {
        AccrualIsNotAPayment(w.db, w.run.value.queue[0], w.run.value.now, at, id);
      }
    case _ =>
  }

  lemma StepKeepsPayments(w: World, e: Event)
    requires Inv(w) && PaymentsSound(w)
    ensures PaymentsSound(Step(w, e))
  {
    var after := Step(w, e);
    LogGrows(w, e);
    assert after.log[..|w.log|] == w.log;
    forall id: Id
      ensures HandledFor(after.log, id) == TallyOf(after.db.ledger, id).payments
      ensures ReceivedFor(after.log, id) == TallyOf(after.db.ledger, id).paidOre
    {
      PaymentRows(w, e, id);
      assert HandledFor(w.log, id) == TallyOf(w.db.ledger, id).payments;
      assert ReceivedFor(w.log, id) == TallyOf(w.db.ledger, id).paidOre;
    }
    ClaimsStep(w, e);
  }

  lemma ClaimsStep(w: World, e: Event)
    requires forall event :: Commits(w.log, event) == if event in w.db.claimed then 1 else 0
    ensures forall event :: Commits(Step(w, e).log, event) == if event in Step(w, e).db.claimed then 1 else 0
  {
    var after := Step(w, e);
    LogGrows(w, e);
    assert after.log[..|w.log|] == w.log;
    forall event
      ensures Commits(after.log, event) == if event in after.db.claimed then 1 else 0
    {
      assert Commits(w.log, event) == if event in w.db.claimed then 1 else 0;
    }
  }

  // --- Numbers ---

  /** Whoever holds an allocated number: a document, or a task on its way to one. */
  datatype Holder = Document(id: Id) | InHand(ticket: Ticket)

  function NumberOf(w: World, h: Holder): Option<Number> {
    match h
    case Document(id) => if Live(w.db, id) then Some(At(w.db, id).number) else None
    case InHand(ticket) =>
      if ticket !in w.tasks then None
      else match w.tasks[ticket]
        case Creating(number, _, _, _) => Some(number)
        case Crediting(_, _, number) => number
        case Paying(_, _, _) => None
  }

  ghost predicate NumbersSound(w: World) {
    && (forall h :: NumberOf(w, h).Some? ==>
          1 <= NumberOf(w, h).value.n <= LastNumber(w.db, NumberOf(w, h).value.year))
    && (forall h, h' :: NumberOf(w, h).Some? && NumberOf(w, h) == NumberOf(w, h') ==> h == h')
    && (forall year :: AllocatedIn(w.log, year) == UpTo(LastNumber(w.db, year)))
  }

  function AllocatedIn(log: seq<Answer>, year: int): seq<nat> {
    if log == [] then []
    else
      var last := log[|log| - 1];
      AllocatedIn(log[..|log| - 1], year)
      + if last.Allocated? && last.number.year == year then [last.number.n] else []
  }

  /** 1, 2, ..., k. */
  function UpTo(k: nat): seq<nat> {
    seq(k, i => i + 1)
  }

  /** Where a holder's number was before the event: with the same holder, with a
      task that became the document, or nowhere because it is newly allocated. */
  function CameFrom(w: World, e: Event, h: Holder): Holder {
    if h == Document(|w.db.invoices|) && (e.FinishCreate? || e.FinishCredit?) then InHand(e.ticket) else h
  }

  lemma DocumentCameFrom(w: World, e: Event, id: Id)
    requires Inv(w)
    requires Live(Step(w, e).db, id)
    ensures NumberOf(w, CameFrom(w, e, Document(id))) == NumberOf(Step(w, e), Document(id))
  {
    if id < |w.db.invoices| {
      StepKeepsBooks(w, e);
      assert SlotEvolves(w.db.invoices[id], Step(w, e).db.invoices[id]);
    } else if e.FinishCredit? {
      NewDocumentOfCredit(w, e.ticket, e.at);
    }
  }

  lemma NumberCameFrom(w: World, e: Event, h: Holder)
    requires Inv(w)
    requires NumberOf(Step(w, e), h).Some?
    ensures NumberOf(w, CameFrom(w, e, h)) == NumberOf(Step(w, e), h)
         || (&& (e.BeginCreate? || e.NumberCredit?)
             && h == InHand(e.ticket)
             && NumberOf(Step(w, e), h) == Some(NextNumber(w.db, e.year))
             && Step(w, e).db == AllocateNumber(w.db, e.year))
  {
    match h
    case Document(id) => DocumentCameFrom(w, e, id);
    case InHand(_) =>
  }

  lemma NewDocumentOfCredit(w: World, ticket: Ticket, at: Time)
    requires |FinishCrediting(w, ticket, at).db.invoices| > |w.db.invoices|
    ensures |FinishCrediting(w, ticket, at).db.invoices| == |w.db.invoices| + 1
    ensures ticket in w.tasks && w.tasks[ticket].Crediting? && w.tasks[ticket].creditNumber.Some?
    ensures Live(FinishCrediting(w, ticket, at).db, |w.db.invoices|)
    ensures Some(At(FinishCrediting(w, ticket, at).db, |w.db.invoices|).number) == w.tasks[ticket].creditNumber
  {
    var data := CreditDataOf(w.tasks[ticket]);
    assert IsOpen(w.db, data.originalId);
    CreditInvoices(w.db, data, at);
  }

  /** A task that became a document no longer holds its number. */
  lemma FinishedTaskIsGone(w: World, e: Event)
    requires Inv(w)
    requires e.FinishCreate? || e.FinishCredit?
    requires |Step(w, e).db.invoices| > |w.db.invoices|
    ensures NumberOf(Step(w, e), InHand(e.ticket)).None?
  {
  }

  lemma StepKeepsNumbers(w: World, e: Event)
    requires Inv(w) && NumbersSound(w)
    ensures NumbersSound(Step(w, e))
  {
    var after := Step(w, e);
    StepKeepsBooks(w, e);
    forall h | NumberOf(after, h).Some?
      ensures 1 <= NumberOf(after, h).value.n <= LastNumber(after.db, NumberOf(after, h).value.year)
    {
      NumberCameFrom(w, e, h);
      var number := NumberOf(after, h).value;
      assert LastNumber(w.db, number.year) <= LastNumber(after.db, number.year);
    }
    forall h, h' | NumberOf(after, h).Some? && NumberOf(after, h) == NumberOf(after, h')
      ensures h == h'
    {
      HoldersStayDistinct(w, e, h, h');
    }
    AllocationsStep(w, e);
  }

  lemma HoldersStayDistinct(w: World, e: Event, h: Holder, h': Holder)
    requires Inv(w) && NumbersSound(w)
    requires NumberOf(Step(w, e), h).Some? && NumberOf(Step(w, e), h) == NumberOf(Step(w, e), h')
    ensures h == h'
  {
    NumberCameFrom(w, e, h);
    NumberCameFrom(w, e, h');
    if (e.FinishCreate? || e.FinishCredit?) && |Step(w, e).db.invoices| > |w.db.invoices| {
      FinishedTaskIsGone(w, e);
    }
  }

  lemma AllocatedInOneMore(log: seq<Answer>, answer: Answer, year: int)
    ensures AllocatedIn(log + [answer], year)
         == AllocatedIn(log, year) + if answer.Allocated? && answer.number.year == year then [answer.number.n] else []
  {
    assert (log + [answer])[..|log|] == log;
  }

  /** What an event allocates, if it does. */
  function NewNumber(w: World, e: Event): Option<Number> {
    if Step(w, e).log != w.log && |w.log| < |Step(w, e).log| && Step(w, e).log[|w.log|].Allocated?
    then Some(Step(w, e).log[|w.log|].number) else None
  }

  lemma CountersFollow(w: World, e: Event, year: int)
    ensures var number := NewNumber(w, e);
      if number.Some? && number.value.year == year
      then number.value.n == LastNumber(w.db, year) + 1 == LastNumber(Step(w, e).db, year)
      else LastNumber(Step(w, e).db, year) == LastNumber(w.db, year)
  {
  }

  /** A step's log and counters move together, one number at a time. */
  lemma AllocationLogged(w: World, e: Event, year: int)
    ensures var log, last := Step(w, e).log, LastNumber(w.db, year);
      AllocatedIn(log, year) == AllocatedIn(w.log, year)
        + if LastNumber(Step(w, e).db, year) == last then [] else [last + 1]
    ensures LastNumber(Step(w, e).db, year) in {LastNumber(w.db, year), LastNumber(w.db, year) + 1}
  {
    LogGrows(w, e);
    CountersFollow(w, e, year);
    var log := Step(w, e).log;
    if log != w.log {
      assert log == w.log + [log[|w.log|]];
      AllocatedInOneMore(w.log, log[|w.log|], year);
    }
  }

  lemma UpToOneMore(k: nat)
    ensures UpTo(k + 1) == UpTo(k) + [k + 1]
  {
  }

  lemma AllocationsStep(w: World, e: Event)
    requires forall year :: AllocatedIn(w.log, year) == UpTo(LastNumber(w.db, year))
    ensures forall year :: AllocatedIn(Step(w, e).log, year) == UpTo(LastNumber(Step(w, e).db, year))
  {
    forall year
      ensures AllocatedIn(Step(w, e).log, year) == UpTo(LastNumber(Step(w, e).db, year))
    {
      AllocationLogged(w, e, year);
      assert AllocatedIn(w.log, year) == UpTo(LastNumber(w.db, year));
      UpToOneMore(LastNumber(w.db, year));
    }
  }

  // --- Numbers that no document gets ---

  ghost predicate Held(w: World, number: Number) {
    exists h :: NumberOf(w, h) == Some(number)
  }

  /** The event lets go of the number: a call fails that holds it, a credit note is refused at its write
      because the original is no longer open, or the draft that carries it is deleted. */
  predicate Drops(w: World, e: Event, number: Number) {
    || (e.Fail? && NumberOf(w, InHand(e.ticket)) == Some(number))
    || (e.FinishCredit? && NumberOf(w, InHand(e.ticket)) == Some(number)
        && w.tasks[e.ticket].Crediting? && !IsOpen(w.db, w.tasks[e.ticket].originalId))
    || (e.DeleteDraft? && IsDraft(w.db, e.id) && At(w.db, e.id).number == number)
  }

  /** Where a number goes that is not dropped: it stays, or its task becomes a document. */
  function GoesTo(w: World, e: Event, h: Holder): Holder {
    if (e.FinishCreate? || e.FinishCredit?) && h == InHand(e.ticket) && |Step(w, e).db.invoices| > |w.db.invoices|
    then Document(|w.db.invoices|) else h
  }

  lemma KeptNumberStays(w: World, e: Event, h: Holder, number: Number)
    requires Inv(w) && NumberOf(w, h) == Some(number) && !Drops(w, e, number)
    ensures NumberOf(Step(w, e), GoesTo(w, e, h)) == Some(number)
  {
    match h
    case Document(id) =>
      StepKeepsBooks(w, e);
      assert SlotEvolves(w.db.invoices[id], Step(w, e).db.invoices[id]);
      DocumentStays(w, e, id);
    case InHand(ticket) => NumberInHandStays(w, e, ticket, number);
  }

  lemma NumberInHandStays(w: World, e: Event, ticket: Ticket, number: Number)
    requires NumberOf(w, InHand(ticket)) == Some(number) && !Drops(w, e, number)
    ensures NumberOf(Step(w, e), GoesTo(w, e, InHand(ticket))) == Some(number)
  {
    if e.FinishCredit? && e.ticket == ticket && w.tasks[ticket].Crediting? {
      CreditInvoices(w.db, CreditDataOf(w.tasks[ticket]), e.at);
    }
  }

  lemma DocumentStays(w: World, e: Event, id: Id)
    requires Live(w.db, id) && Evolves(w.db, Step(w, e).db)
    requires !(e.DeleteDraft? && e.id == id && IsDraft(w.db, id))
    ensures Live(Step(w, e).db, id)
  {
    if e.FinishCredit? && e.ticket in w.tasks && w.tasks[e.ticket].Crediting?
       && w.tasks[e.ticket].creditNumber.Some? && IsOpen(w.db, w.tasks[e.ticket].originalId) {
      CreditInvoices(w.db, CreditDataOf(w.tasks[e.ticket]), e.at);
    }
  }

  lemma DroppedNumberGoes(w: World, e: Event, number: Number)
    requires Inv(w) && NumbersSound(w) && Drops(w, e, number)
    ensures !Held(Step(w, e), number)
  {
    forall h
      ensures NumberOf(Step(w, e), h) != Some(number)
    {
      if NumberOf(Step(w, e), h) == Some(number) {
        NumberCameFrom(w, e, h);
        DroppedHolder(w, e, number);
      }
    }
  }

  /** Whoever dropped it was its only holder. */
  lemma DroppedHolder(w: World, e: Event, number: Number)
    requires NumbersSound(w) && Drops(w, e, number)
    ensures var h := if e.DeleteDraft? then Document(e.id) else InHand(e.ticket);
      && NumberOf(w, h) == Some(number)
      && NumberOf(Step(w, e), h).None?
      && |Step(w, e).db.invoices| == |w.db.invoices|
      && forall other :: NumberOf(w, other) == Some(number) ==> other == h
    ensures 1 <= number.n <= LastNumber(w.db, number.year)
  {
  }

  /** Of the numbers allocated so far, an event drops or keeps each. */
  lemma HeldUnlessDropped(w: World, e: Event, number: Number)
    requires Inv(w) && NumbersSound(w) && number.n <= LastNumber(w.db, number.year)
    ensures Held(Step(w, e), number) <==> Held(w, number) && !Drops(w, e, number)
  {
    if Drops(w, e, number) {
      DroppedNumberGoes(w, e, number);
    } else if Held(w, number) {
      var h :| NumberOf(w, h) == Some(number);
      KeptNumberStays(w, e, h, number);
    } else if Held(Step(w, e), number) {
      var h :| NumberOf(Step(w, e), h) == Some(number);
      NumberCameFrom(w, e, h);
    }
  }

  /** A number allocated by the event is in somebody's hand. */
  lemma NewNumberIsHeld(w: World, e: Event, number: Number)
    requires LastNumber(w.db, number.year) < number.n <= LastNumber(Step(w, e).db, number.year)
    ensures Held(Step(w, e), number)
  {
    CountersFollow(w, e, number.year);
    assert NumberOf(Step(w, e), InHand(e.ticket)) == Some(number);
  }
}
