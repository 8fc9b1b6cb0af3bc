/** A service call with nothing in between is its events in a row: the events of Workflow and the methods
    of Services are one program. */
module Calls {
  import opened Wrappers
  import opened Money
  import opened Ledger
  import opened Workflow
  import opened Services

  /** What the validator lets through: at least one line, and Swedish VAT rates. */
  predicate Validated(lines: seq<LineInput>) {
    && lines != []
    && forall i :: 0 <= i < |lines| ==>
         lines[i].vatRate == 2500 || lines[i].vatRate == 1200 || lines[i].vatRate == 600 || lines[i].vatRate == 0
  }

  predicate OnlyTables(w: World, w': World) {
    w'.tasks == w.tasks && w'.run == w.run
  }

  /** Services.CreateInvoice: refused on a total of nothing, and otherwise a number and then a draft. */
  lemma CreateIsItsEvents(w: World, ticket: Ticket, clientId: nat, dueDate: Time, lines: seq<LineInput>, year: int)
    requires ticket !in w.tasks
    ensures var after := Step(Step(w, BeginCreate(ticket, clientId, dueDate, lines, year)), FinishCreate(ticket));
      && OnlyTables(w, after)
      && after.db ==
           if !Validated(lines) || TotalsOf(Figures(ItemsOf(lines))).grossTotalOre == 0 then w.db
           else CreateInvoiceWithItems(AllocateNumber(w.db, year), NextNumber(w.db, year), clientId, dueDate,
                                       ItemsOf(lines))
  {
    RatesAreValid(lines);
  }

  lemma RatesAreValid(lines: seq<LineInput>)
    ensures Acceptable(lines) <==> Validated(lines) && TotalsOf(Figures(ItemsOf(lines))).grossTotalOre != 0
  {
    if Acceptable(lines) {
      forall i | 0 <= i < |lines|
        ensures lines[i].vatRate == 2500 || lines[i].vatRate == 1200 || lines[i].vatRate == 600 || lines[i].vatRate == 0
      {
        assert lines[i].vatRate in VALID_VAT_RATES;
      }
    }
  }

  /** Services.IssueCreditNote. */
  lemma CreditIsItsEvents(w: World, ticket: Ticket, id: Id, year: int, now: Time)
    requires ticket !in w.tasks
    ensures var after := Step(Step(Step(w, LookupCredit(ticket, id)), NumberCredit(ticket, year)),
                              FinishCredit(ticket, now));
      && OnlyTables(w, after)
      && after.db ==
           if !IsOpen(w.db, id) then w.db
           else
             var mirrored := MirroredItems(At(w.db, id).items);
             CreateCreditNote(AllocateNumber(w.db, year),
                              CreditData(id, NextNumber(w.db, year), At(w.db, id).clientId,
                                         TotalsOf(Figures(mirrored)), mirrored),
                              now)
  {
  }

  /** Services.HandleStripeEvent, with and without a fault. */
  lemma PaymentIsItsEvents(w: World, ticket: Ticket, event: StripeEvent, now: Time)
    requires ticket !in w.tasks
    ensures var after := Step(Step(w, LookupPayment(ticket, event)), CommitPayment(ticket, now));
      && OnlyTables(w, after)
      && (Reaches(w.db, event) && event.id !in w.db.claimed && IsOpen(w.db, event.invoiceId.value) ==>
            PaidAs(w.db, after.db, event, now))
      && after.db ==
           if !Reaches(w.db, event) then w.db
           else
             var id := event.invoiceId.value;
             ClaimAndPay(w.db, event.id, id, AmountOf(event, At(w.db, id)), now)
  {
  }

  lemma BrokenPaymentIsItsEvents(w: World, ticket: Ticket, event: StripeEvent, now: Time, fault: Fault)
    requires ticket !in w.tasks && event.id !in w.db.claimed
    ensures Step(Step(w, LookupPayment(ticket, event)), BreakOffPayment(ticket, now, fault)) == w
  {
    if Reaches(w.db, event) {
      var id := event.invoiceId.value;
      RollbackLeavesNothing(w.db, event.id, id, AmountOf(event, At(w.db, id)), now, fault);
    }
  }

  /** Services.SendInvoice, SendReminder and DeleteDraft are one event each. */
  lemma OtherCallsAreOneEvent(w: World, id: Id, at: Time)
    ensures IsDraft(w.db, id) ==> SentAs(w.db, Step(w, Send(id, at)).db, id, at)
    ensures !IsDraft(w.db, id) ==> Step(w, Send(id, at)) == w && Step(w, DeleteDraft(id)) == w
    ensures IsDraft(w.db, id) ==> Step(w, DeleteDraft(id)).db == w.db.(invoices := w.db.invoices[id := None])
    ensures IsOpen(w.db, id) ==> RemindedAs(w.db, Step(w, Remind(id, at)).db, id, at)
    ensures !IsOpen(w.db, id) ==> Step(w, Remind(id, at)) == w
  {
  }

  /** The first n turns of the run that has begun. */
  function Turns(w: World, at: Time, n: nat): World {
    if n == 0 then w else Step(Turns(w, at, n - 1), NextCandidate(at))
  }

  lemma {:induction false} TurnsAccrue(w: World, at: Time, n: nat)
    requires w.run.Some? && n <= |w.run.value.queue|
    ensures var after, run := Turns(w, at, n), w.run.value;
      && after.db == AccrueAll(w.db, run.queue[..n], run.now, at)
      && after.tasks == w.tasks
      && after.run == Some(run.(queue := run.queue[n..]))
  {
    if n > 0 {
      TurnsAccrue(w, at, n - 1);
      assert w.run.value.queue[..n][..n - 1] == w.run.value.queue[..n - 1];
    }
  }

  /** Services.RunOverdueCheck: the query, a turn for each candidate, and the end of the loop. */
  lemma OverdueIsItsEvents(w: World, now: Time, at: Time)
    requires w.run.None?
    ensures var queue := Candidates(w.db, now);
      var after := Turns(Step(w, BeginRun(now)), at, |queue| + 1);
      && after.db == AccrueAll(w.db, queue, now, at)
      && OnlyTables(w, after)
      && Summarises(OverdueSummary(|queue|, Newly(queue), Charged(queue, now)), w.db, after.db, now)
  {
    var queue := Candidates(w.db, now);
    TurnsAccrue(Step(w, BeginRun(now)), at, |queue|);
    assert queue[..|queue|] == queue;
    RunSummarises(w.db, now, at);
  }
}
