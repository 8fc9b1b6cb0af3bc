/** What every transaction keeps about the tables, whichever order they run in. */
module Books {
  import opened Wrappers
  import opened Money
  import opened Ledger

  // --- One document ---

  /** Every figure is derived from quantity, price and a Swedish VAT rate. */
  ghost predicate Figured(items: seq<Item>, totals: Totals) {
    && items != []
    && (forall i :: 0 <= i < |items| ==> items[i].vatRate in VALID_VAT_RATES)
    && Figures(items) == Calculated(LinesOf(items))
    && totals == TotalsOf(Figures(items))
  }

  ghost predicate WellFormed(inv: Invoice) {
    && Figured(inv.items, inv.totals)
    && (inv.sentAt.None? <==> inv.status == DRAFT)
    && (inv.credits.None? <==> inv.kind == INVOICE)
    && (inv.kind == CREDIT_NOTE ==> inv.status == SENT && inv.reminderFeeOre == 0)
    && (inv.status == DRAFT ==> inv.reminderFeeOre == 0)
    && (inv.status == DRAFT || inv.status == SENT ==> inv.lateFeeOre == 0)
    && inv.lateFeeOre >= 0
    && (inv.reminderFeeOre == 0 || inv.reminderFeeOre == REMINDER_FEE_ORE)
  }

  // --- The ledger explains the document ---

  /** The rows an invoice must own, given its columns. Only the amount received is free. */
  function Expected(inv: Invoice, paidOre: int): Tally {
    if inv.status == DRAFT || inv.kind == CREDIT_NOTE then NO_ROWS
    else
      Tally(1, inv.totals.grossTotalOre,
            if inv.status == PAID then 1 else 0, if inv.status == PAID then paidOre else 0,
            inv.lateFeeOre,
            if inv.reminderFeeOre > 0 then 1 else 0, inv.reminderFeeOre,
            if inv.status == CREDITED then 1 else 0,
            if inv.status == CREDITED then -inv.totals.grossTotalOre else 0,
            if inv.status == CREDITED then -inv.lateFeeOre else 0,
            if inv.status == CREDITED then -inv.reminderFeeOre else 0,
            0)
  }

  ghost predicate Explained(db: Db, id: Id) {
    var t := TallyOf(db.ledger, id);
    t == if Live(db, id) then Expected(At(db, id), t.paidOre) else NO_ROWS
  }

  // --- Credit notes point at what they credit ---

  function CreditNotesOf(invoices: seq<Option<Invoice>>, id: Id): nat {
    if invoices == [] then 0
    else
      CreditNotesOf(invoices[..|invoices| - 1], id) + CreditsOne(invoices[|invoices| - 1], id)
  }

  function CreditsOne(slot: Option<Invoice>, id: Id): nat {
    if slot.Some? && slot.value.credits == Some(id) then 1 else 0
  }

  ghost predicate Linked(db: Db, id: Id) {
    && CreditNotesOf(db.invoices, id) == (if Live(db, id) && At(db, id).status == CREDITED then 1 else 0)
    && (Live(db, id) && At(db, id).credits.Some? ==>
          var o := At(db, id).credits.value;
          && Live(db, o)
          && At(db, o).kind == INVOICE
          && At(db, o).status == CREDITED
          && At(db, id).items == MirroredItems(At(db, o).items))
  }

  ghost predicate Entry(db: Db, id: Id) {
    && Explained(db, id)
    && Linked(db, id)
    && (Live(db, id) ==> WellFormed(At(db, id)))
  }

  /** An invoice somebody has been sent. */
  predicate Issued(db: Db, id: Id) {
    Live(db, id) && At(db, id).kind == INVOICE && At(db, id).status != DRAFT
  }

  /** A row belongs to an issued invoice, and the two document rows carry its gross. */
  predicate RowSound(db: Db, row: Row) {
    && Issued(db, row.invoiceId)
    && row.rowType != REFUND
    && row.rowType != ADJUSTMENT
    && (row.rowType == INVOICE_CREATED ==> row.amountOre == At(db, row.invoiceId).totals.grossTotalOre)
    && (row.rowType == CREDIT_NOTE_ISSUED ==> row.amountOre == -At(db, row.invoiceId).totals.grossTotalOre)
  }

  ghost predicate RowsSound(db: Db) {
    forall k :: 0 <= k < |db.ledger| ==> RowSound(db, db.ledger[k])
  }

  ghost predicate Entries(db: Db) {
    forall id: Id :: Entry(db, id)
  }

  /** The invariant of the tables. */
  ghost predicate Sound(db: Db) {
    Entries(db) && RowsSound(db)
  }

  // --- What may change from one state of the tables to a later one ---

  /** The columns no transaction writes after the insert. */
  predicate SameDocument(a: Invoice, b: Invoice) {
    b == a.(status := b.status, sentAt := b.sentAt, lateFeeOre := b.lateFeeOre, reminderFeeOre := b.reminderFeeOre)
  }

  ghost predicate SlotEvolves(before: Option<Invoice>, after: Option<Invoice>) {
    match (before, after)
    case (None, _) => after.None?
    case (Some(a), None) => a.status == DRAFT
    case (Some(a), Some(b)) =>
      && SameDocument(a, b)
      && (a.status == PAID || a.status == CREDITED ==> b == a)
      && (a.status != DRAFT ==> b.status != DRAFT && b.sentAt == a.sentAt)
      && (a.reminderFeeOre != 0 ==> b.reminderFeeOre == a.reminderFeeOre)
      && a.lateFeeOre <= b.lateFeeOre
  }

  ghost predicate Evolves(before: Db, after: Db) {
    && |before.invoices| <= |after.invoices|
    && (forall id :: 0 <= id < |before.invoices| ==> SlotEvolves(before.invoices[id], after.invoices[id]))
    && before.ledger <= after.ledger
    && before.claimed <= after.claimed
    && (forall year :: LastNumber(before, year) <= LastNumber(after, year))
  }

  lemma EvolvesIsTransitive(a: Db, b: Db, c: Db)
    requires Evolves(a, b) && Evolves(b, c)
    ensures Evolves(a, c)
  {
    forall id | 0 <= id < |a.invoices|
      ensures SlotEvolves(a.invoices[id], c.invoices[id])
    {
      assert SlotEvolves(a.invoices[id], b.invoices[id]);
      assert SlotEvolves(b.invoices[id], c.invoices[id]);
    }
  }

  lemma OldRowsStaySound(before: Db, after: Db)
    requires RowsSound(before) && Evolves(before, after)
    ensures forall k :: 0 <= k < |before.ledger| ==> RowSound(after, after.ledger[k])
  {
    forall k | 0 <= k < |before.ledger|
      ensures RowSound(after, after.ledger[k])
    {
      assert RowSound(before, before.ledger[k]);
      assert SlotEvolves(before.invoices[before.ledger[k].invoiceId], after.invoices[before.ledger[k].invoiceId]);
    }
  }

  /** One committed change of status: a move of the table, or OVERDUE written over itself. */
  ghost predicate StatusStep(before: Db, after: Db, id: Id) {
    Live(before, id) && Live(after, id) ==>
      var a, b := At(before, id).status, At(after, id).status;
      a == b || CanTransition(a, b)
  }

  ghost predicate StepOf(before: Db, after: Db) {
    && Evolves(before, after)
    && Sound(after)
    && (forall id: Id :: StatusStep(before, after, id))
  }

  // --- Folds over the invoice table ---

  lemma {:induction false} CreditNotesOfUpdate(invoices: seq<Option<Invoice>>, k: nat, slot: Option<Invoice>, id: Id)
    requires k < |invoices|
    ensures CreditNotesOf(invoices[k := slot], id)
         == CreditNotesOf(invoices, id) - CreditsOne(invoices[k], id) + CreditsOne(slot, id)
  {
    var n := |invoices| - 1;
    if k == n {
      assert invoices[k := slot][..n] == invoices[..n];
    } else {
      assert invoices[k := slot][..n] == invoices[..n][k := slot];
      CreditNotesOfUpdate(invoices[..n], k, slot, id);
    }
  }

  lemma CreditNotesOfInsert(invoices: seq<Option<Invoice>>, slot: Option<Invoice>, id: Id)
    ensures CreditNotesOf(invoices + [slot], id) == CreditNotesOf(invoices, id) + CreditsOne(slot, id)
  {
    assert (invoices + [slot])[..|invoices|] == invoices;
  }

  // --- Each transaction keeps the invariant ---

  lemma EmptyIsSound()
    ensures Sound(EMPTY)
  {
    forall id: Id ensures Entry(EMPTY, id) {}
  }

  /** An entry survives when its row, its tally and the invoice it credits do. */
  lemma EntryFrame(db: Db, after: Db, id: Id)
    requires Entry(db, id)
    requires Live(after, id) <==> Live(db, id)
    requires Live(db, id) ==> At(after, id) == At(db, id)
    requires TallyOf(after.ledger, id) == TallyOf(db.ledger, id)
    requires CreditNotesOf(after.invoices, id) == CreditNotesOf(db.invoices, id)
    requires Live(db, id) && At(db, id).credits.Some? ==>
               var o := At(db, id).credits.value;
               Live(after, o) && At(after, o) == At(db, o)
    ensures Entry(after, id)
  {
    assert Explained(after, id);
    assert Linked(after, id);
  }

  /** Writing a row's columns and posting to its ledger touches no other entry. */
  lemma OtherEntries(db: Db, id: Id, inv: Invoice, rowType: RowType, amountOre: int, now: Time, other: Id)
    requires Entry(db, other) && Live(db, id) && other != id
    requires SameDocument(At(db, id), inv)
    requires At(db, id).status != CREDITED
    ensures Entry(Put(db, id, inv), other)
    ensures Entry(Post(Put(db, id, inv), id, rowType, amountOre, now), other)
  {
    var put := Put(db, id, inv);
    CreditNotesOfUpdate(db.invoices, id, Some(inv), other);
    EntryFrame(db, put, other);
    TallyOfPost(put, id, rowType, amountOre, now, other);
    EntryFrame(put, Post(put, id, rowType, amountOre, now), other);
  }

  lemma CreateKeepsSound(db: Db, number: Number, clientId: nat, dueDate: Time, items: seq<Item>)
    requires Sound(db) && Figured(items, TotalsOf(Figures(items)))
    ensures StepOf(db, CreateInvoiceWithItems(db, number, clientId, dueDate, items))
  {
    var after := CreateInvoiceWithItems(db, number, clientId, dueDate, items);
    var draft := Some(NewDraft(number, clientId, dueDate, items));
    forall id: Id ensures Entry(after, id) {
      assert Entry(db, id);
      CreditNotesOfInsert(db.invoices, draft, id);
      if Live(db, id) && At(db, id).credits.Some? {
        assert Entry(db, At(db, id).credits.value);
      }
    }
    OldRowsStaySound(db, after);
  }

  /** The shape of most transactions: one row's columns change and, perhaps, a ledger row explains it. */
  lemma WriteKeepsSound(db: Db, id: Id, inv: Invoice, after: Db, rowType: RowType, amountOre: int, now: Time)
    requires Sound(db) && Live(db, id)
    requires after == Put(db, id, inv) || after == Post(Put(db, id, inv), id, rowType, amountOre, now)
    requires SlotEvolves(db.invoices[id], Some(inv))
    requires At(db, id).status != CREDITED
    requires At(db, id).status == inv.status || CanTransition(At(db, id).status, inv.status)
    requires RowSound(after, Row(id, rowType, amountOre, now))
    requires Entry(after, id)
    ensures StepOf(db, after)
  {
    assert Entries(after) by {
      forall other: Id ensures Entry(after, other) {
        assert Entry(db, other);
        if other != id {
          OtherEntries(db, id, inv, rowType, amountOre, now, other);
        }
      }
    }
    forall other | 0 <= other < |db.invoices|
      ensures SlotEvolves(db.invoices[other], after.invoices[other])
    {
    }
    OldRowsStaySound(db, after);
  }

  lemma NoWriteKeepsSound(db: Db)
    requires Sound(db)
    ensures StepOf(db, db)
  {
  }

  lemma SentEntry(db: Db, id: Id, now: Time)
    requires Sound(db) && IsDraft(db, id)
    ensures Entry(MarkSent(db, id, now), id)
  {
    assert Entry(db, id);
    var inv := At(db, id).(status := SENT, sentAt := Some(now));
    CreditNotesOfUpdate(db.invoices, id, Some(inv), id);
    TallyOfPost(Put(db, id, inv), id, INVOICE_CREATED, inv.totals.grossTotalOre, now, id);
    assert WellFormed(inv);
  }

  lemma MarkSentKeepsSound(db: Db, id: Id, now: Time)
    requires Sound(db)
    ensures StepOf(db, MarkSent(db, id, now))
  {
    if IsDraft(db, id) {
      var inv := At(db, id).(status := SENT, sentAt := Some(now));
      SentEntry(db, id, now);
      assert Entry(db, id);
      assert CanTransition(DRAFT, SENT);
      WriteKeepsSound(db, id, inv, MarkSent(db, id, now), INVOICE_CREATED, inv.totals.grossTotalOre, now);
    } else {
      NoWriteKeepsSound(db);
    }
  }

  lemma PaidEntry(db: Db, id: Id, amountOre: int, now: Time)
    requires Sound(db) && IsOpen(db, id)
    ensures Entry(MarkPaidWithin(db, id, amountOre, now), id)
  {
    assert Entry(db, id);
    var inv := At(db, id).(status := PAID);
    CreditNotesOfUpdate(db.invoices, id, Some(inv), id);
    TallyOfPost(Put(db, id, inv), id, PAYMENT_RECEIVED, amountOre, now, id);
    assert WellFormed(inv);
  }

  lemma MarkPaidKeepsSound(db: Db, id: Id, amountOre: int, now: Time)
    requires Sound(db)
    ensures StepOf(db, MarkPaidWithin(db, id, amountOre, now))
  {
    if IsOpen(db, id) {
      PaidEntry(db, id, amountOre, now);
      WriteKeepsSound(db, id, At(db, id).(status := PAID), MarkPaidWithin(db, id, amountOre, now),
                      PAYMENT_RECEIVED, amountOre, now);
    } else {
      NoWriteKeepsSound(db);
    }
  }

  /** Claiming an event writes nothing the invariant speaks of. */
  lemma ClaimKeepsSound(db: Db, event: EventId)
    requires Sound(db)
    ensures Sound(db.(claimed := db.claimed + {event}))
  {
    var claimed := db.(claimed := db.claimed + {event});
    forall other: Id ensures Entry(claimed, other) {
      assert Entry(db, other);
      EntryFrame(db, claimed, other);
    }
    forall k | 0 <= k < |claimed.ledger| ensures RowSound(claimed, claimed.ledger[k]) {
      assert RowSound(db, db.ledger[k]);
    }
  }

  lemma ClaimAndPayKeepsSound(db: Db, event: EventId, id: Id, amountOre: int, now: Time)
    requires Sound(db)
    ensures StepOf(db, ClaimAndPay(db, event, id, amountOre, now))
  {
    var claimed := db.(claimed := db.claimed + {event});
    ClaimKeepsSound(db, event);
    MarkPaidKeepsSound(claimed, id, amountOre, now);
    var after := MarkPaidWithin(claimed, id, amountOre, now);
    forall other: Id ensures StatusStep(db, after, other) {
      assert StatusStep(claimed, after, other);
    }
    assert forall other :: 0 <= other < |db.invoices| ==> SlotEvolves(claimed.invoices[other], after.invoices[other]);
    assert forall year :: LastNumber(claimed, year) <= LastNumber(after, year);
  }

  lemma EntriesAfterDelete(db: Db, id: Id)
    requires Sound(db) && IsDraft(db, id)
    ensures Entries(DeleteDraftInvoice(db, id))
  {
    var after := DeleteDraftInvoice(db, id);
    assert Entry(db, id);
    forall other: Id
      ensures Entry(after, other)
    {
      assert Entry(db, other);
      CreditNotesOfUpdate(db.invoices, id, None, other);
    }
  }

  lemma DeleteDraftKeepsSound(db: Db, id: Id)
    requires Sound(db)
    ensures StepOf(db, DeleteDraftInvoice(db, id))
  {
    if IsDraft(db, id) {
      var after := DeleteDraftInvoice(db, id);
      EntriesAfterDelete(db, id);
      forall other | 0 <= other < |db.invoices|
        ensures SlotEvolves(db.invoices[other], after.invoices[other])
      {
      }
      OldRowsStaySound(db, after);
    } else {
      NoWriteKeepsSound(db);
    }
  }

  lemma RemindedEntry(db: Db, id: Id, now: Time)
    requires Sound(db) && IsOpen(db, id) && At(db, id).reminderFeeOre == 0
    ensures Entry(ChargeReminderFee(db, id, REMINDER_FEE_ORE, now), id)
  {
    assert Entry(db, id);
    var inv := At(db, id).(reminderFeeOre := REMINDER_FEE_ORE);
    CreditNotesOfUpdate(db.invoices, id, Some(inv), id);
    TallyOfPost(Put(db, id, inv), id, REMINDER_FEE_ADDED, REMINDER_FEE_ORE, now, id);
    assert WellFormed(inv);
  }

  lemma ReminderKeepsSound(db: Db, id: Id, now: Time)
    requires Sound(db)
    ensures StepOf(db, ChargeReminderFee(db, id, REMINDER_FEE_ORE, now))
  {
    if IsOpen(db, id) && At(db, id).reminderFeeOre == 0 {
      var inv := At(db, id).(reminderFeeOre := REMINDER_FEE_ORE);
      RemindedEntry(db, id, now);
      WriteKeepsSound(db, id, inv, ChargeReminderFee(db, id, REMINDER_FEE_ORE, now),
                      REMINDER_FEE_ADDED, REMINDER_FEE_ORE, now);
    } else {
      NoWriteKeepsSound(db);
    }
  }

  lemma OverdueEntry(db: Db, id: Id, newLateFeeOre: int, incrementOre: int, now: Time)
    requires Sound(db) && IsOpen(db, id)
    requires incrementOre >= 0 && newLateFeeOre == At(db, id).lateFeeOre + incrementOre
    ensures Entry(ApplyOverdue(db, id, newLateFeeOre, incrementOre, now), id)
  {
    assert Entry(db, id);
    var inv := At(db, id).(status := OVERDUE, lateFeeOre := newLateFeeOre);
    CreditNotesOfUpdate(db.invoices, id, Some(inv), id);
    TallyOfPost(Put(db, id, inv), id, LATE_FEE_ADDED, incrementOre, now, id);
    assert WellFormed(inv);
  }

  lemma OverdueKeepsSound(db: Db, id: Id, newLateFeeOre: int, incrementOre: int, now: Time)
    requires Sound(db)
    requires incrementOre >= 0
    requires IsOpen(db, id) ==> newLateFeeOre == At(db, id).lateFeeOre + incrementOre
    ensures StepOf(db, ApplyOverdue(db, id, newLateFeeOre, incrementOre, now))
  {
    if IsOpen(db, id) {
      OverdueEntry(db, id, newLateFeeOre, incrementOre, now);
      WriteKeepsSound(db, id, At(db, id).(status := OVERDUE, lateFeeOre := newLateFeeOre),
                      ApplyOverdue(db, id, newLateFeeOre, incrementOre, now), LATE_FEE_ADDED, incrementOre, now);
    } else {
      NoWriteKeepsSound(db);
    }
  }

  lemma AllocateKeepsSound(db: Db, year: int)
    requires Sound(db)
    ensures StepOf(db, AllocateNumber(db, year))
  {
    var after := AllocateNumber(db, year);
    forall id: Id ensures Entry(after, id) {
      assert Entry(db, id);
      EntryFrame(db, after, id);
    }
    OldRowsStaySound(db, after);
  }

  /** The credit note's figures are the original's with the sign turned, to the öre. */
  lemma MirroredFigures(items: seq<Item>, totals: Totals)
    requires Figured(items, totals)
    ensures var m := TotalsOf(Figures(MirroredItems(items)));
            && Figured(MirroredItems(items), m)
            && m == Totals(-totals.netTotalOre, -totals.vatTotalOre, -totals.grossTotalOre)
    ensures forall i :: 0 <= i < |items| ==>
              FiguresOf(MirroredItems(items)[i]) == Negated(FiguresOf(items[i]))
  {
    var mirrored := MirroredItems(items);
    assert LinesOf(mirrored) == Mirrored(LinesOf(items));
    assert Figures(mirrored) == Calculated(Mirrored(LinesOf(items)));
    MirroredTotals(LinesOf(items));
    forall i | 0 <= i < |items|
      ensures FiguresOf(mirrored[i]) == Negated(FiguresOf(items[i]))
    {
      MirroredLine(LineOf(items[i]));
      assert Figures(items)[i] == Calculated(LinesOf(items))[i];
    }
  }

  /** The rows of a credit note bring the original's tally to what CREDITED expects. */
  lemma CreditTally(db: Db, data: CreditData, now: Time, other: Id)
    requires IsOpen(db, data.originalId)
    requires At(db, data.originalId).lateFeeOre >= 0 && At(db, data.originalId).reminderFeeOre >= 0
    ensures var before := At(db, data.originalId);
            var t := TallyOf(db.ledger, other);
            TallyOf(CreateCreditNote(db, data, now).ledger, other)
            == if other != data.originalId then t
               else t.(credits := t.credits + 1, creditOre := t.creditOre + data.totals.grossTotalOre,
                       interestWaivedOre := t.interestWaivedOre - before.lateFeeOre,
                       reminderWaivedOre := t.reminderWaivedOre - before.reminderFeeOre)
  {
    var id := data.originalId;
    var before := At(db, id);
    var cancelled := Insert(Put(db, id, before.(status := CREDITED)), NewCreditNote(data, now));
    var credited := Post(cancelled, id, CREDIT_NOTE_ISSUED, data.totals.grossTotalOre, now);
    var waived := Waive(credited, id, LATE_FEE_WAIVED, before.lateFeeOre, now);
    TallyOfPost(cancelled, id, CREDIT_NOTE_ISSUED, data.totals.grossTotalOre, now, other);
    TallyOfInterestWaiver(credited, id, before.lateFeeOre, now, other);
    TallyOfReminderWaiver(waived, id, before.reminderFeeOre, now, other);
    assert CreateCreditNote(db, data, now) == Waive(waived, id, REMINDER_FEE_WAIVED, before.reminderFeeOre, now);
  }

  lemma TallyOfInterestWaiver(db: Db, id: Id, feeOre: int, now: Time, other: Id)
    requires feeOre >= 0
    ensures var t := TallyOf(db.ledger, other);
      TallyOf(Waive(db, id, LATE_FEE_WAIVED, feeOre, now).ledger, other)
      == if other != id then t else t.(interestWaivedOre := t.interestWaivedOre - feeOre)
  {
    TallyOfPost(db, id, LATE_FEE_WAIVED, -feeOre, now, other);
  }

  lemma TallyOfReminderWaiver(db: Db, id: Id, feeOre: int, now: Time, other: Id)
    requires feeOre >= 0
    ensures var t := TallyOf(db.ledger, other);
      TallyOf(Waive(db, id, REMINDER_FEE_WAIVED, feeOre, now).ledger, other)
      == if other != id then t else t.(reminderWaivedOre := t.reminderWaivedOre - feeOre)
  {
    TallyOfPost(db, id, REMINDER_FEE_WAIVED, -feeOre, now, other);
  }

  /** The invoice table after a credit note. */
  lemma CreditInvoices(db: Db, data: CreditData, now: Time)
    requires IsOpen(db, data.originalId)
    ensures CreateCreditNote(db, data, now).invoices
         == db.invoices[data.originalId := Some(At(db, data.originalId).(status := CREDITED))]
            + [Some(NewCreditNote(data, now))]
    ensures db.ledger <= CreateCreditNote(db, data, now).ledger
    ensures CreateCreditNote(db, data, now).claimed == db.claimed
    ensures CreateCreditNote(db, data, now).series == db.series
  {
  }

  /** A stale read is harmless because what it read cannot have changed. */
  ghost predicate MirrorsOriginal(db: Db, data: CreditData) {
    Live(db, data.originalId) ==>
      && data.items == MirroredItems(At(db, data.originalId).items)
      && data.totals == TotalsOf(Figures(data.items))
  }

  /** The invoices that credit an invoice, after one more is credited. */
  lemma CreditLinks(db: Db, data: CreditData, now: Time, other: Id)
    requires IsOpen(db, data.originalId) && At(db, data.originalId).credits.None?
    ensures CreditNotesOf(CreateCreditNote(db, data, now).invoices, other)
         == CreditNotesOf(db.invoices, other) + if other == data.originalId then 1 else 0
  {
    var id := data.originalId;
    CreditInvoices(db, data, now);
    var put := db.invoices[id := Some(At(db, id).(status := CREDITED))];
    CreditNotesOfUpdate(db.invoices, id, put[id], other);
    CreditNotesOfInsert(put, Some(NewCreditNote(data, now)), other);
  }

  lemma CreditNoteEntry(db: Db, data: CreditData, now: Time)
    requires Sound(db) && MirrorsOriginal(db, data) && IsOpen(db, data.originalId)
    ensures Entry(CreateCreditNote(db, data, now), |db.invoices|)
  {
    var id, note := data.originalId, |db.invoices|;
    var after := CreateCreditNote(db, data, now);
    assert Entry(db, id) && Entry(db, note);
    CreditInvoices(db, data, now);
    CreditTally(db, data, now, note);
    CreditLinks(db, data, now, note);
    MirroredFigures(At(db, id).items, At(db, id).totals);
    assert At(after, note) == NewCreditNote(data, now);
    assert Explained(after, note);
    assert Linked(after, note);
  }

  lemma CreditedEntry(db: Db, data: CreditData, now: Time)
    requires Sound(db) && MirrorsOriginal(db, data) && IsOpen(db, data.originalId)
    ensures Entry(CreateCreditNote(db, data, now), data.originalId)
  {
    var id := data.originalId;
    var after := CreateCreditNote(db, data, now);
    assert Entry(db, id);
    CreditInvoices(db, data, now);
    CreditTally(db, data, now, id);
    CreditLinks(db, data, now, id);
    MirroredFigures(At(db, id).items, At(db, id).totals);
    assert Explained(after, id);
    assert Linked(after, id);
  }

  lemma CreditLeavesOthers(db: Db, data: CreditData, now: Time, other: Id)
    requires Sound(db) && IsOpen(db, data.originalId)
    requires other != data.originalId && other != |db.invoices|
    ensures Entry(CreateCreditNote(db, data, now), other)
  {
    var id := data.originalId;
    var after := CreateCreditNote(db, data, now);
    assert Entry(db, id) && Entry(db, other);
    CreditInvoices(db, data, now);
    CreditTally(db, data, now, other);
    CreditLinks(db, data, now, other);
    EntryFrame(db, after, other);
  }

  lemma CreditKeepsSound(db: Db, data: CreditData, now: Time)
    requires Sound(db) && MirrorsOriginal(db, data)
    ensures StepOf(db, CreateCreditNote(db, data, now))
  {
    var id := data.originalId;
    if IsOpen(db, id) {
      var after := CreateCreditNote(db, data, now);
      assert Entries(after) by {
        forall other: Id ensures Entry(after, other) {
          if other == |db.invoices| {
            CreditNoteEntry(db, data, now);
          } else if other == id {
            CreditedEntry(db, data, now);
          } else {
            CreditLeavesOthers(db, data, now, other);
          }
        }
      }
      CreditInvoices(db, data, now);
      assert Evolves(db, after) by {
        assert Entry(db, id);
        forall other | 0 <= other < |db.invoices|
          ensures SlotEvolves(db.invoices[other], after.invoices[other])
        {
        }
      }
      CreditRows(db, data, now);
    }
  }

  /** The rows a credit note posts are sound ones, all on the original. */
  lemma CreditRows(db: Db, data: CreditData, now: Time)
    requires Sound(db) && MirrorsOriginal(db, data) && IsOpen(db, data.originalId)
    requires Evolves(db, CreateCreditNote(db, data, now))
    ensures RowsSound(CreateCreditNote(db, data, now))
  {
    var id := data.originalId;
    var after := CreateCreditNote(db, data, now);
    OldRowsStaySound(db, after);
    assert Entry(db, id);
    MirroredFigures(At(db, id).items, At(db, id).totals);
    CreditInvoices(db, data, now);
  }
}
