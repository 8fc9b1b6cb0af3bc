/** What holds of the receivables ledger after any run of events. */
module Guarantees {
  import opened Wrappers
  import opened Money
  import opened Ledger
  import opened Books
  import opened Workflow
  import opened Interleavings

  // --- Every run keeps every invariant ---

  lemma {:induction false} RunIsSound(es: seq<Event>)
    ensures Inv(Run(es)) && InterestSound(Run(es)) && PaymentsSound(Run(es)) && NumbersSound(Run(es))
  {
    if es == [] {
      EmptyIsSound();
      assert UpTo(0) == [];
    } else {
      var w, e := Run(es[..|es| - 1]), es[|es| - 1];
      RunIsSound(es[..|es| - 1]);
      StepKeepsInv(w, e);
      StepKeepsInterest(w, e);
      StepKeepsPayments(w, e);
      StepKeepsNumbers(w, e);
    }
  }

  // --- The ledger explains every amount ---

  /** An invoice's ledger balance is what is due on it while it is open, nothing once it is
      credited, and what was due minus what came in once it is paid. */
  lemma LedgerBalances(es: seq<Event>, id: Id)
    requires Live(Run(es).db, id)
    ensures var inv, balance := At(Run(es).db, id), Balance(Run(es).db.ledger, id);
            && (Open(inv) ==> balance == TotalDue(inv))
            && (inv.status == PAID ==> balance == TotalDue(inv) - ReceivedFor(Run(es).log, id))
            && (inv.status == CREDITED || inv.status == DRAFT || inv.kind == CREDIT_NOTE ==> balance == 0)
  {
    RunIsSound(es);
    assert Entry(Run(es).db, id);
    BalanceFromTally(Run(es).db.ledger, id);
    assert ReceivedFor(Run(es).log, id) == TallyOf(Run(es).db.ledger, id).paidOre;
  }

  /** Every ledger row belongs to a live, issued invoice: drafts, credit notes and deleted
      documents own none. */
  lemma OnlyIssuedInvoicesOwnRows(es: seq<Event>, k: nat)
    requires k < |Run(es).db.ledger|
    ensures Issued(Run(es).db, Run(es).db.ledger[k].invoiceId)
  {
    RunIsSound(es);
    assert RowSound(Run(es).db, Run(es).db.ledger[k]);
  }

  // --- Statuses, documents and history ---

  /** Every status change any event commits is in the declared table, whatever was read before it. */
  lemma StatusesFollowTheTable(es: seq<Event>, e: Event, id: Id)
    requires Live(Run(es).db, id) && Live(Run(es + [e]).db, id)
    ensures var from, to := At(Run(es).db, id).status, At(Run(es + [e]).db, id).status;
            from == to || CanTransition(from, to)
    ensures MayBecome(At(Run(es).db, id).status, At(Run(es + [e]).db, id).status)
  {
    RunIsSound(es);
    StepKeepsInv(Run(es), e);
    assert (es + [e])[..|es|] == es;
    assert StatusStep(Run(es).db, Run(es + [e]).db, id);
    TableInWords(At(Run(es).db, id).status, At(Run(es + [e]).db, id).status);
  }

  predicate MayBecome(from: Status, to: Status) {
    || from == to
    || (from == DRAFT && to == SENT)
    || (from == SENT && (to == PAID || to == OVERDUE || to == CREDITED))
    || (from == OVERDUE && (to == PAID || to == CREDITED))
  }

  lemma TableInWords(from: Status, to: Status)
    ensures MayBecome(from, to) <==> from == to || CanTransition(from, to)
  {
  }

  /** Rows are only ever appended, documents never rewritten, PAID and CREDITED never left,
      issued documents never deleted. */
  lemma {:induction false} HistoryOnlyGrows(es: seq<Event>, more: seq<Event>)
    ensures Evolves(Run(es).db, Run(es + more).db)
  {
    if more == [] {
      assert es + more == es;
      StandingStill(Run(es).db);
    } else {
      var n := |more| - 1;
      HistoryOnlyGrows(es, more[..n]);
      OneMoreEventGrows(es + more[..n], more[n]);
      assert es + more == es + more[..n] + [more[n]];
      EvolvesIsTransitive(Run(es).db, Run(es + more[..n]).db, Run(es + more).db);
    }
  }

  lemma OneMoreEventGrows(es: seq<Event>, e: Event)
    ensures Evolves(Run(es).db, Run(es + [e]).db)
  {
    RunIsSound(es);
    StepKeepsInv(Run(es), e);
    assert (es + [e])[..|es|] == es;
  }

  lemma StandingStill(db: Db)
    ensures Evolves(db, db)
  {
  }

  /** An invoice is credited exactly when one credit note names it, that note mirrors it,
      and no second one ever does. */
  lemma CreditedOnce(es: seq<Event>, id: Id)
    ensures var db := Run(es).db;
            CreditNotesOf(db.invoices, id) == if Live(db, id) && At(db, id).status == CREDITED then 1 else 0
    ensures var db := Run(es).db;
            Live(db, id) && At(db, id).kind == CREDIT_NOTE ==>
              && At(db, id).credits.Some?
              && var o := At(db, id).credits.value;
              && Live(db, o)
              && At(db, o).status == CREDITED
              && At(db, id).items == MirroredItems(At(db, o).items)
              && At(db, id).totals.grossTotalOre == -At(db, o).totals.grossTotalOre
  {
    RunIsSound(es);
    var db := Run(es).db;
    assert Entry(db, id);
    if Live(db, id) && At(db, id).kind == CREDIT_NOTE {
      var o := At(db, id).credits.value;
      assert Entry(db, o);
      MirroredFigures(At(db, o).items, At(db, o).totals);
    }
  }

  /** The reminder fee is on the ledger once if it is on the invoice, and never otherwise. */
  lemma RemindedAtMostOnce(es: seq<Event>, id: Id)
    requires Live(Run(es).db, id)
    ensures var inv, t := At(Run(es).db, id), TallyOf(Run(es).db.ledger, id);
            && t.reminders == (if inv.reminderFeeOre == 0 then 0 else 1)
            && t.reminderOre == inv.reminderFeeOre
            && (inv.reminderFeeOre == 0 || inv.reminderFeeOre == 6000)
  {
    RunIsSound(es);
    assert Entry(Run(es).db, id);
  }

  // --- Interest ---

  /** LATE_FEE_ADDED rows sum to the fee on the invoice, and the fee is the largest interest
      owed at any run that found the invoice open: never an öre twice. */
  lemma InterestIsTheMaximum(es: seq<Event>, id: Id)
    requires Issued(Run(es).db, id)
    ensures var inv := At(Run(es).db, id);
            && TallyOf(Run(es).db.ledger, id).interestOre == inv.lateFeeOre
            && inv.lateFeeOre == InterestSoFar(Run(es).log, id, inv.totals.grossTotalOre, inv.dueDate)
  {
    RunIsSound(es);
    assert Entry(Run(es).db, id);
  }

  /** The runs that found the invoice open, by their clocks. */
  function EffectiveRuns(log: seq<Answer>, id: Id): seq<Time> {
    if log == [] then []
    else
      var last := log[|log| - 1];
      EffectiveRuns(log[..|log| - 1], id)
      + if last.Accrual? && last.id == id && last.open then [last.runAt] else []
  }

  predicate NonDecreasing(times: seq<Time>) {
    forall i, j :: 0 <= i < j < |times| ==> times[i] <= times[j]
  }

  lemma {:induction false} InterestOfLastRun(log: seq<Answer>, id: Id, grossTotalOre: int, dueDate: Time)
    requires NonDecreasing(EffectiveRuns(log, id))
    ensures var times := EffectiveRuns(log, id);
            InterestSoFar(log, id, grossTotalOre, dueDate)
            == if times == [] then 0 else InterestAt(grossTotalOre, dueDate, times[|times| - 1])
  {
    if log == [] {
    } else {
      var last, rest := log[|log| - 1], log[..|log| - 1];
      var times, earlier := EffectiveRuns(log, id), EffectiveRuns(rest, id);
      if last.Accrual? && last.id == id && last.open {
        assert times[..|earlier|] == earlier;
        assert NonDecreasing(earlier) by {
          forall i, j | 0 <= i < j < |earlier| ensures earlier[i] <= earlier[j] {
            assert times[i] <= times[j];
          }
        }
        InterestOfLastRun(rest, id, grossTotalOre, dueDate);
        LateInterestIsMonotone(grossTotalOre, DaysBetween(dueDate, last.runAt), DaysBetween(dueDate, last.runAt));
        if earlier != [] {
          var previous := earlier[|earlier| - 1];
          assert times[|earlier| - 1] <= times[|earlier|];
          DaysBetweenIsMonotone(dueDate, previous, last.runAt);
          LateInterestIsMonotone(grossTotalOre, DaysBetween(dueDate, previous), DaysBetween(dueDate, last.runAt));
        }
      } else {
        assert times == earlier;
        InterestOfLastRun(rest, id, grossTotalOre, dueDate);
      }
    }
  }

  /** With clocks that do not run backward, the fee is the interest at the last effective
      run, however many runs came before it. */
  lemma InterestIsTheLastRuns(es: seq<Event>, id: Id)
    requires Issued(Run(es).db, id)
    requires NonDecreasing(EffectiveRuns(Run(es).log, id))
    ensures var inv, times := At(Run(es).db, id), EffectiveRuns(Run(es).log, id);
            TallyOf(Run(es).db.ledger, id).interestOre
            == if times == [] then 0
               else InterestAt(inv.totals.grossTotalOre, inv.dueDate, times[|times| - 1])
  {
    InterestIsTheMaximum(es, id);
    var inv := At(Run(es).db, id);
    InterestOfLastRun(Run(es).log, id, inv.totals.grossTotalOre, inv.dueDate);
  }

  /** Why there must be one runner: a turn that writes leaves the ledger explaining the invoice
      exactly when the fee it read is still the fee on the row. */
  lemma AccrualNeedsCurrentFee(db: Db, c: Candidate, now: Time, at: Time)
    requires Entry(db, c.id) && IsOpen(db, c.id) && !Skips(c, now)
    ensures Explained(Accrue(db, c, now, at), c.id) <==> c.lateFeeOre == At(db, c.id).lateFeeOre
  {
    var owed := InterestAt(c.grossTotalOre, c.dueDate, now);
    var inv := At(db, c.id).(status := OVERDUE, lateFeeOre := Max(c.lateFeeOre, owed));
    TallyOfPost(Put(db, c.id, inv), c.id, LATE_FEE_ADDED, Max(0, owed - c.lateFeeOre), at, c.id);
  }

  /** With two runners that had both read the invoice before either wrote, the second write is such a
      turn: the interest is on the ledger twice and on the invoice once. */
  lemma TwoRunnersChargeTwice(db: Db, id: Id, now: Time, at: Time)
    requires Sound(db) && IsOpen(db, id)
    requires InterestAt(At(db, id).totals.grossTotalOre, At(db, id).dueDate, now) > At(db, id).lateFeeOre
    ensures var c, inv := CandidateOf(id, At(db, id)), At(db, id);
      var owed := InterestAt(inv.totals.grossTotalOre, inv.dueDate, now);
      var twice := Accrue(Accrue(db, c, now, at), c, now, at);
      && !Explained(twice, id)
      && At(twice, id).lateFeeOre == owed
      && TallyOf(twice.ledger, id).interestOre == owed + (owed - inv.lateFeeOre)
  {
    var c := CandidateOf(id, At(db, id));
    FirstTurn(db, id, now, at);
    AccrualNeedsCurrentFee(Accrue(db, c, now, at), c, now, at);
    OneTurn(db, c, now, at);
    OneTurn(Accrue(db, c, now, at), c, now, at);
    InterestExplained(db, id);
  }

  lemma InterestExplained(db: Db, id: Id)
    requires Sound(db) && IsOpen(db, id)
    ensures TallyOf(db.ledger, id).interestOre == At(db, id).lateFeeOre
  {
    assert Entry(db, id);
  }

  lemma FirstTurn(db: Db, id: Id, now: Time, at: Time)
    requires Sound(db) && IsOpen(db, id)
    requires InterestAt(At(db, id).totals.grossTotalOre, At(db, id).dueDate, now) > At(db, id).lateFeeOre
    ensures Entry(Accrue(db, CandidateOf(id, At(db, id)), now, at), id)
  {
    var owed := InterestAt(At(db, id).totals.grossTotalOre, At(db, id).dueDate, now);
    OneTurn(db, CandidateOf(id, At(db, id)), now, at);
    OverdueKeepsSound(db, id, owed, owed - At(db, id).lateFeeOre, at);
  }

  /** What a turn that finds more interest than it read writes on an open invoice. */
  lemma OneTurn(db: Db, c: Candidate, now: Time, at: Time)
    requires IsOpen(db, c.id) && InterestAt(c.grossTotalOre, c.dueDate, now) > c.lateFeeOre
    ensures var after, owed := Accrue(db, c, now, at), InterestAt(c.grossTotalOre, c.dueDate, now);
      && after == ApplyOverdue(db, c.id, owed, owed - c.lateFeeOre, at)
      && after.invoices == db.invoices[c.id := Some(At(db, c.id).(status := OVERDUE, lateFeeOre := owed))]
      && TallyOf(after.ledger, c.id).interestOre == TallyOf(db.ledger, c.id).interestOre + (owed - c.lateFeeOre)
  {
    var owed := InterestAt(c.grossTotalOre, c.dueDate, now);
    TallyOfPost(Put(db, c.id, At(db, c.id).(status := OVERDUE, lateFeeOre := owed)), c.id, LATE_FEE_ADDED,
                owed - c.lateFeeOre, at, c.id);
  }

  /** The run reports interest for a candidate even when its guarded write matched nothing.
      The report agrees with the ledger exactly when there was nothing to charge or the
      invoice was still open at the write. */
  lemma ReportMatchesLedgerIffOpen(es: seq<Event>, at: Time)
    requires Run(es).run.Some? && Run(es).run.value.queue != []
    ensures var c, now := Run(es).run.value.queue[0], Run(es).run.value.now;
            var before, after := Run(es).db, Run(es + [NextCandidate(at)]).db;
            ReportedOre(c, now)
            == TallyOf(after.ledger, c.id).interestOre - TallyOf(before.ledger, c.id).interestOre
            <==> ReportedOre(c, now) == 0 || IsOpen(before, c.id)
  {
    RunIsSound(es);
    var w, e := Run(es), NextCandidate(at);
    assert (es + [e])[..|es|] == es;
    var c := w.run.value.queue[0];
    StepKeepsInv(w, e);
    AccruedFee(w, e, c.id);
    assert CandidateSound(w.db, c);
    assert Entry(w.db, c.id) && Entry(Step(w, e).db, c.id);
    assert SlotEvolves(w.db.invoices[c.id], Step(w, e).db.invoices[c.id]);
  }

  /** A payment committed between the run's read and its turn: the run reports the interest, and the
      ledger gains none of it. */
  lemma PaidBeforeItsTurn(es: seq<Event>, ticket: Ticket, event: StripeEvent, paid: Time, at: Time)
    requires Run(es).run.Some? && Run(es).run.value.queue != []
    requires var c := Run(es).run.value.queue[0];
      && ReportedOre(c, Run(es).run.value.now) > 0
      && IsOpen(Run(es).db, c.id)
      && event.invoiceId == Some(c.id)
    requires ticket !in Run(es).tasks && event.id !in Run(es).db.claimed && event.completed && event.settled
    ensures var before := es + [LookupPayment(ticket, event), CommitPayment(ticket, paid)];
      var run, after := Run(before).run, Run(before + [NextCandidate(at)]).db;
      && run == Run(es).run
      && ReportedOre(run.value.queue[0], run.value.now) > 0
      && after == Run(before).db
      && TallyOf(after.ledger, event.invoiceId.value).interestOre
         == TallyOf(Run(es).db.ledger, event.invoiceId.value).interestOre
  {
    var before := es + [LookupPayment(ticket, event), CommitPayment(ticket, paid)];
    RunTwo(es, LookupPayment(ticket, event), CommitPayment(ticket, paid));
    PaymentLeavesRun(Run(es), ticket, event, paid);
    assert (before + [NextCandidate(at)])[..|before|] == before;
    TurnOnSettled(Run(before), at);
  }

  lemma PaymentLeavesRun(w: World, ticket: Ticket, event: StripeEvent, paid: Time)
    requires ticket !in w.tasks && event.id !in w.db.claimed && event.completed && event.settled
    requires event.invoiceId.Some? && IsOpen(w.db, event.invoiceId.value)
    ensures var v := Step(Step(w, LookupPayment(ticket, event)), CommitPayment(ticket, paid));
      && v.run == w.run && !IsOpen(v.db, event.invoiceId.value)
      && TallyOf(v.db.ledger, event.invoiceId.value).interestOre
         == TallyOf(w.db.ledger, event.invoiceId.value).interestOre
  {
    RetryCommits(w, ticket, event, paid);
    var id := event.invoiceId.value;
    PaymentIsNoInterest(w.db.ledger, Row(id, PAYMENT_RECEIVED, Received(w.db, event), paid));
  }

  lemma PaymentIsNoInterest(ledger: seq<Row>, row: Row)
    requires row.rowType == PAYMENT_RECEIVED
    ensures TallyOf(ledger + [row], row.invoiceId).interestOre == TallyOf(ledger, row.invoiceId).interestOre
  {
    assert (ledger + [row])[..|ledger|] == ledger;
  }

  lemma TurnOnSettled(w: World, at: Time)
    requires w.run.Some? && w.run.value.queue != [] && !IsOpen(w.db, w.run.value.queue[0].id)
    ensures Step(w, NextCandidate(at)).db == w.db
  {
  }

  // --- Webhooks ---

  /** Duplicated, reordered and failing deliveries: an event id is committed once if it is
      claimed and never otherwise, an invoice has a payment row exactly when it is paid, and
      never two, and the row is the one delivery that was answered as handled. */
  lemma ExactlyOnce(es: seq<Event>, event: EventId, id: Id)
    ensures Commits(Run(es).log, event) == if event in Run(es).db.claimed then 1 else 0
    ensures var paid := Live(Run(es).db, id) && At(Run(es).db, id).status == PAID;
            && HandledFor(Run(es).log, id) == (if paid then 1 else 0)
            && TallyOf(Run(es).db.ledger, id).payments == (if paid then 1 else 0)
            && TallyOf(Run(es).db.ledger, id).paidOre == ReceivedFor(Run(es).log, id)
  {
    RunIsSound(es);
    assert HandledFor(Run(es).log, id) == TallyOf(Run(es).db.ledger, id).payments;
    assert ReceivedFor(Run(es).log, id) == TallyOf(Run(es).db.ledger, id).paidOre;
    assert Entry(Run(es).db, id);
  }

  /** What a commit of this delivery did, and what it answered. */
  predicate AnsweredRightly(w: World, w': World, event: EventId, id: Id, amountOre: int, at: Time) {
    && |w'.log| == |w.log| + 1
    && w'.log[|w.log|].Payment?
    && event in w'.db.claimed
    && match w'.log[|w.log|].outcome
       case HANDLED =>
         && event !in w.db.claimed
         && IsOpen(w.db, id)
         && w'.db.ledger == w.db.ledger + [Row(id, PAYMENT_RECEIVED, amountOre, at)]
         && Live(w'.db, id) && At(w'.db, id).status == PAID
         && Balance(w'.db.ledger, id) == TotalDue(At(w.db, id)) - amountOre
       case INVOICE_NOT_PAYABLE =>
         && event !in w.db.claimed
         && !IsOpen(w.db, id)
         && w'.db == w.db.(claimed := w.db.claimed + {event})
       case DUPLICATE_EVENT =>
         && event in w.db.claimed
         && w'.db == w.db
  }

  /** A committed delivery either writes one payment row and leaves the invoice PAID with what
      was due minus what came in, or met an invoice that was not open, or was a repeat: and in
      the last two cases no ledger row and no invoice changes. */
  lemma CommitOutcomes(es: seq<Event>, ticket: Ticket, at: Time)
    requires ticket in Run(es).tasks && Run(es).tasks[ticket].Paying?
    ensures var t := Run(es).tasks[ticket];
      AnsweredRightly(Run(es), Run(es + [CommitPayment(ticket, at)]), t.event, t.invoiceId, t.amountOre, at)
  {
    var t := Run(es).tasks[ticket];
    assert (es + [CommitPayment(ticket, at)])[..|es|] == es;
    if IsOpen(Run(es).db, t.invoiceId) {
      LedgerBalances(es, t.invoiceId);
    }
    CommitStep(Run(es), ticket, at);
  }

  lemma CommitStep(w: World, ticket: Ticket, at: Time)
    requires ticket in w.tasks && w.tasks[ticket].Paying?
    requires var id := w.tasks[ticket].invoiceId;
      IsOpen(w.db, id) ==> Balance(w.db.ledger, id) == TotalDue(At(w.db, id))
    ensures var t := w.tasks[ticket];
      AnsweredRightly(w, Step(w, CommitPayment(ticket, at)), t.event, t.invoiceId, t.amountOre, at)
  {
    var ledger := Step(w, CommitPayment(ticket, at)).db.ledger;
    assert |ledger| > |w.db.ledger| ==> ledger[..|w.db.ledger|] == w.db.ledger;
  }

  /** A session that names no amount is booked at what was due when the delivery looked. What the paid
      invoice then still owes is the fees added since, and nothing if and only if none was. */
  lemma PaidShortByTheFees(es: seq<Event>, between: seq<Event>, ticket: Ticket, event: StripeEvent, at: Time)
    requires Admitted(Run(es).db, event) && event.amountTotal.None?
    requires var w, id := Run(es + between), event.invoiceId.value;
      && ticket in w.tasks
      && w.tasks[ticket] == Paying(event.id, id, TotalDue(At(Run(es).db, id)))
      && OutcomeOf(w.db, event.id, id) == HANDLED
    ensures var id, after := event.invoiceId.value, Run(es + between + [CommitPayment(ticket, at)]).db;
      && Live(after, id) && At(after, id).status == PAID
      && var seen, paid := At(Run(es).db, id), At(after, id);
      && Balance(after.ledger, id)
         == (paid.lateFeeOre - seen.lateFeeOre) + (paid.reminderFeeOre - seen.reminderFeeOre)
      && 0 <= Balance(after.ledger, id)
      && (Balance(after.ledger, id) == 0
          <==> paid.lateFeeOre == seen.lateFeeOre && paid.reminderFeeOre == seen.reminderFeeOre)
  {
    var id, w := event.invoiceId.value, Run(es + between);
    CommitOutcomes(es + between, ticket, at);
    HistoryOnlyGrows(es, between);
    assert SlotEvolves(Run(es).db.invoices[id], w.db.invoices[id]);
    RemindedAtMostOnce(es, id);
    RemindedAtMostOnce(es + between, id);
    assert (es + between + [CommitPayment(ticket, at)])[..|es + between|] == es + between;
    PaymentKeepsFees(w, ticket, at);
  }

  lemma PaymentKeepsFees(w: World, ticket: Ticket, at: Time)
    requires ticket in w.tasks && w.tasks[ticket].Paying? && IsOpen(w.db, w.tasks[ticket].invoiceId)
    ensures var id, after := w.tasks[ticket].invoiceId, Step(w, CommitPayment(ticket, at)).db;
      && Live(after, id)
      && At(after, id).lateFeeOre == At(w.db, id).lateFeeOre
      && At(after, id).reminderFeeOre == At(w.db, id).reminderFeeOre
  {
  }

  /** A delivery that breaks off after its claim, or after its payment, leaves neither behind. */
  lemma BreakingOffLeavesNothing(es: seq<Event>, ticket: Ticket, at: Time, fault: Fault)
    ensures var w, e := Run(es), BreakOffPayment(ticket, at, fault);
      && Run(es + [e]).db == w.db
      && Run(es + [e]).log == w.log
      && (Run(es + [e]) != w ==>
            && ticket in w.tasks && w.tasks[ticket].Paying?
            && var t := w.tasks[ticket];
            && t.event in Underway(w.db, t.event, t.invoiceId, t.amountOre, at, fault).claimed
            && t.event !in w.db.claimed)
  {
    var w, e := Run(es), BreakOffPayment(ticket, at, fault);
    assert Run(es + [e]) == Step(w, e) by {
      assert (es + [e])[..|es|] == es;
    }
    BreakOffStep(w, ticket, at, fault);
  }

  lemma BreakOffStep(w: World, ticket: Ticket, at: Time, fault: Fault)
    ensures var v := BreakOffPaying(w, ticket, at, fault);
      && v.db == w.db && v.log == w.log
      && (v != w ==>
            && ticket in w.tasks && w.tasks[ticket].Paying?
            && var t := w.tasks[ticket];
            && t.event in Underway(w.db, t.event, t.invoiceId, t.amountOre, at, fault).claimed
            && t.event !in w.db.claimed)
  {
    if ticket in w.tasks && w.tasks[ticket].Paying? && w.tasks[ticket].event !in w.db.claimed {
      var t := w.tasks[ticket];
      RollbackLeavesNothing(w.db, t.event, t.invoiceId, t.amountOre, at, fault);
    }
  }

  /** A settled session for a live invoice: what the early returns let through. */
  predicate Admitted(db: Db, event: StripeEvent) {
    event.completed && event.settled && event.invoiceId.Some? && Live(db, event.invoiceId.value)
  }

  /** A retry of a delivery that broke off, after anything else that may have happened: it is handled,
      and writes its one row, exactly when no delivery of the event was committed in between and the
      invoice is still open. Otherwise it moves nothing. */
  lemma RetryAfterRollback(es: seq<Event>, ticket: Ticket, broke: Time, fault: Fault, more: seq<Event>,
                           retry: Ticket, event: StripeEvent, at: Time)
    requires ticket in Run(es).tasks && Run(es).tasks[ticket].Paying?
    requires Run(es).tasks[ticket].event == event.id && event.id !in Run(es).db.claimed
    requires var before := Run(es + [BreakOffPayment(ticket, broke, fault)] + more);
             retry !in before.tasks && Admitted(before.db, event)
    ensures Run(es + [BreakOffPayment(ticket, broke, fault)]).db == Run(es).db
    ensures var failed := es + [BreakOffPayment(ticket, broke, fault)] + more;
      var before, after := Run(failed), Run(failed + [LookupPayment(retry, event), CommitPayment(retry, at)]);
      var id := event.invoiceId.value;
      var uncommitted := Commits(before.log, event.id) == Commits(Run(es).log, event.id);
      && |after.log| == |before.log| + 1 && after.log[|before.log|].Payment?
      && (after.log[|before.log|].outcome == HANDLED <==> uncommitted && IsOpen(before.db, id))
      && (if uncommitted && IsOpen(before.db, id)
          then Paid(before.db, after.db, id, Received(before.db, event), at)
          else after.db.ledger == before.db.ledger && after.db.invoices == before.db.invoices)
  {
    var failed := es + [BreakOffPayment(ticket, broke, fault)] + more;
    var before := Run(failed);
    BreakingOffLeavesNothing(es, ticket, broke, fault);
    RunTwo(failed, LookupPayment(retry, event), CommitPayment(retry, at));
    ExactlyOnce(es, event.id, event.invoiceId.value);
    ExactlyOnce(failed, event.id, event.invoiceId.value);
    RetryCommits(before, retry, event, at);
  }

  function Received(db: Db, event: StripeEvent): int
    requires Admitted(db, event)
  {
    if event.amountTotal.Some? then event.amountTotal.value else TotalDue(At(db, event.invoiceId.value))
  }

  predicate Paid(before: Db, after: Db, id: Id, amountOre: int, at: Time) {
    && after.ledger == before.ledger + [Row(id, PAYMENT_RECEIVED, amountOre, at)]
    && Live(after, id) && At(after, id).status == PAID
  }

  lemma RetryCommits(w: World, retry: Ticket, event: StripeEvent, at: Time)
    requires retry !in w.tasks && Admitted(w.db, event)
    ensures var after := Step(Step(w, LookupPayment(retry, event)), CommitPayment(retry, at));
      var id := event.invoiceId.value;
      && after.log == w.log + [Payment(event.id, id, Received(w.db, event), OutcomeOf(w.db, event.id, id))]
      && (if event.id !in w.db.claimed && IsOpen(w.db, id)
          then Paid(w.db, after.db, id, Received(w.db, event), at)
          else after.db.ledger == w.db.ledger && after.db.invoices == w.db.invoices)
  {
  }

  lemma RunTwo(es: seq<Event>, a: Event, b: Event)
    ensures Run(es + [a, b]) == Step(Step(Run(es), a), b)
  {
    assert (es + [a])[..|es|] == es;
    assert (es + [a] + [b])[..|es| + 1] == es + [a];
    assert es + [a, b] == es + [a] + [b];
  }

  // --- Numbers ---

  /** The numbers handed out for a year are 1, 2, ..., k in that order, whatever failed or was
      deleted in between. */
  lemma NumbersAreUnbroken(es: seq<Event>, year: int)
    ensures AllocatedIn(Run(es).log, year) == UpTo(LastNumber(Run(es).db, year))
  {
    RunIsSound(es);
  }

  /** Two documents never share a number. */
  lemma NumbersAreUnique(es: seq<Event>, a: Id, b: Id)
    requires Live(Run(es).db, a) && Live(Run(es).db, b) && a != b
    ensures At(Run(es).db, a).number != At(Run(es).db, b).number
  {
    RunIsSound(es);
    assert NumberOf(Run(es), Document(a)).Some? && NumberOf(Run(es), Document(b)).Some?;
    assert Document(a) != Document(b);
  }

  /** One of the events dropped the number. */
  ghost predicate Dropped(es: seq<Event>, number: Number) {
    exists i :: 0 <= i < |es| && Drops(Run(es[..i]), es[i], number)
  }

  /** Which allocated numbers a document or a call in progress still holds, after any run: all but those
      dropped by a failed call, a refused credit note or a deleted draft. These are the gaps in the
      series of documents, and there are no others. */
  lemma {:induction false} GapsAreDroppedNumbers(es: seq<Event>, number: Number)
    requires 1 <= number.n <= LastNumber(Run(es).db, number.year)
    ensures Held(Run(es), number) <==> !Dropped(es, number)
  {
    if es == [] {
    } else {
      var n := |es| - 1;
      var w := Run(es[..n]);
      RunIsSound(es[..n]);
      DroppedOneMore(es, number);
      if number.n <= LastNumber(w.db, number.year) {
        GapsAreDroppedNumbers(es[..n], number);
        HeldUnlessDropped(w, es[n], number);
      } else {
        NewNumberIsHeld(w, es[n], number);
        if Drops(w, es[n], number) {
          DroppedHolder(w, es[n], number);
        }
        if Dropped(es[..n], number) {
          DroppedWasAllocated(es[..n], number);
        }
      }
    }
  }

  lemma DroppedOneMore(es: seq<Event>, number: Number)
    requires es != []
    ensures var n := |es| - 1;
      Dropped(es, number) <==> Dropped(es[..n], number) || Drops(Run(es[..n]), es[n], number)
  {
    var n := |es| - 1;
    assert forall i :: 0 <= i < n ==> es[..n][..i] == es[..i] && es[..n][i] == es[i];
  }

  lemma {:induction false} DroppedWasAllocated(es: seq<Event>, number: Number)
    requires Dropped(es, number)
    ensures number.n <= LastNumber(Run(es).db, number.year)
  {
    var i :| 0 <= i < |es| && Drops(Run(es[..i]), es[i], number);
    RunIsSound(es[..i]);
    DroppedHolder(Run(es[..i]), es[i], number);
    CountersOnlyGrow(es, i, number.year);
  }

  lemma {:induction false} CountersOnlyGrow(es: seq<Event>, i: nat, year: int)
    requires i <= |es|
    ensures LastNumber(Run(es[..i]).db, year) <= LastNumber(Run(es).db, year)
  {
    HistoryOnlyGrows(es[..i], es[i..]);
    assert es[..i] + es[i..] == es;
  }
}
