/** The repositories as they are written: guarded updates and inserts in sequence on
    tables that change in place. Each transaction is proved against its function on
    table contents in Ledger. */
module Database {
  import opened Wrappers
  import opened Money
  import opened Ledger
  import opened Workflow

  class Tables {
    var invoices: seq<Option<Invoice>>
    var ledger: seq<Row>
    var claimed: set<EventId>
    var series: map<int, nat>

    constructor ()
      ensures Contents() == EMPTY
    {
      invoices, ledger, claimed, series := [], [], {}, map[];
    }

    function Contents(): Db
      reads this
    {
      Db(invoices, ledger, claimed, series)
    }

    /** One atomic INSERT ... ON CONFLICT DO UPDATE ... RETURNING. */
    method AllocateInvoiceNumber(year: int) returns (number: Number)
      modifies this`series
      ensures Contents() == Ledger.AllocateNumber(old(Contents()), year)
      ensures number == NextNumber(old(Contents()), year)
    {
      if year in series {
        series := series[year := series[year] + 1];
      } else {
        series := series[year := 1];
      }
      number := Number(year, series[year]);
    }

    method CreateInvoiceWithItems(number: Number, clientId: nat, dueDate: Time, totals: Totals, items: seq<Item>)
      returns (id: Id)
      modifies this`invoices
      ensures totals == TotalsOf(Figures(items)) ==>
                Contents() == Ledger.CreateInvoiceWithItems(old(Contents()), number, clientId, dueDate, items)
      ensures Contents() == Insert(old(Contents()),
                Invoice(number, clientId, INVOICE, DRAFT, None, totals, 0, 0, dueDate, None, items))
      ensures id == |old(invoices)|
    {
      id := |invoices|;
      var draft := Invoice(number, clientId, INVOICE, DRAFT, None, totals, 0, 0, dueDate, None, items);
      invoices := invoices + [Some(draft)];
    }

    method FindInvoiceById(id: Id) returns (found: Option<Invoice>)
      ensures found == if Live(Contents(), id) then Some(At(Contents(), id)) else None
    {
      found := if id < |invoices| then invoices[id] else None;
    }

    method MarkSent(id: Id, now: Time) returns (invoice: Option<Invoice>)
      modifies this`invoices, this`ledger
      ensures Contents() == Ledger.MarkSent(old(Contents()), id, now)
      ensures invoice.Some? <==> old(IsDraft(Contents(), id))
      ensures invoice.Some? ==> Live(Contents(), id) && invoice.value == At(Contents(), id)
    {
      var updated := id < |invoices| && invoices[id].Some? && invoices[id].value.status == DRAFT;
      if !updated {
        return None;
      }
      invoices := invoices[id := Some(invoices[id].value.(status := SENT, sentAt := Some(now)))];
      invoice := invoices[id];
      ledger := ledger + [Row(id, INVOICE_CREATED, invoice.value.totals.grossTotalOre, now)];
    }

    method MarkPaidWithin(id: Id, amountOre: int, now: Time) returns (invoice: Option<Invoice>)
      modifies this`invoices, this`ledger
      ensures Contents() == Ledger.MarkPaidWithin(old(Contents()), id, amountOre, now)
      ensures invoice.Some? <==> old(IsOpen(Contents(), id))
      ensures invoice.Some? ==> Live(Contents(), id) && invoice.value == At(Contents(), id)
    {
      var updated := id < |invoices| && invoices[id].Some? && Open(invoices[id].value);
      if !updated {
        return None;
      }
      invoices := invoices[id := Some(invoices[id].value.(status := PAID))];
      invoice := invoices[id];
      ledger := ledger + [Row(id, PAYMENT_RECEIVED, amountOre, now)];
    }

    method DeleteDraftInvoice(id: Id) returns (deleted: bool)
      modifies this`invoices
      ensures Contents() == Ledger.DeleteDraftInvoice(old(Contents()), id)
      ensures deleted <==> old(IsDraft(Contents(), id))
    {
      deleted := id < |invoices| && invoices[id].Some? && invoices[id].value.status == DRAFT;
      if deleted {
        invoices := invoices[id := None];
      }
    }

    /** Reads the fees, cancels the original under its guard, inserts the note, posts up to three rows. */
    method CreateCreditNote(data: CreditData, now: Time) returns (note: Option<Id>)
      modifies this`invoices, this`ledger
      ensures Contents() == Ledger.CreateCreditNote(old(Contents()), data, now)
      ensures note.Some? <==> old(IsOpen(Contents(), data.originalId))
      ensures note.Some? ==> note.value == |old(invoices)|
    {
      var id := data.originalId;
      if id >= |invoices| || invoices[id].None? {
        return None;
      }
      var before := invoices[id].value;
      if !Open(before) {
        return None;
      }
      invoices := invoices[id := Some(before.(status := CREDITED))];
      note := Some(|invoices|);
      invoices := invoices + [Some(NewCreditNote(data, now))];
      ledger := ledger + [Row(id, CREDIT_NOTE_ISSUED, data.totals.grossTotalOre, now)];
      if before.lateFeeOre > 0 {
        ledger := ledger + [Row(id, LATE_FEE_WAIVED, -before.lateFeeOre, now)];
      }
      if before.reminderFeeOre > 0 {
        ledger := ledger + [Row(id, REMINDER_FEE_WAIVED, -before.reminderFeeOre, now)];
      }
    }

    method ChargeReminderFee(id: Id, feeOre: int, now: Time) returns (charged: bool)
      modifies this`invoices, this`ledger
      ensures Contents() == Ledger.ChargeReminderFee(old(Contents()), id, feeOre, now)
      ensures charged <==> old(IsOpen(Contents(), id) && At(Contents(), id).reminderFeeOre == 0)
    {
      charged := && id < |invoices| && invoices[id].Some?
                 && Open(invoices[id].value) && invoices[id].value.reminderFeeOre == 0;
      if charged {
        invoices := invoices[id := Some(invoices[id].value.(reminderFeeOre := feeOre))];
        ledger := ledger + [Row(id, REMINDER_FEE_ADDED, feeOre, now)];
      }
    }

    method ApplyOverdue(id: Id, newLateFeeOre: int, incrementOre: int, now: Time)
      modifies this`invoices, this`ledger
      ensures Contents() == Ledger.ApplyOverdue(old(Contents()), id, newLateFeeOre, incrementOre, now)
    {
      if id >= |invoices| || invoices[id].None? || !Open(invoices[id].value) {
        return;
      }
      invoices := invoices[id := Some(invoices[id].value.(status := OVERDUE, lateFeeOre := newLateFeeOre))];
      if incrementOre > 0 {
        ledger := ledger + [Row(id, LATE_FEE_ADDED, incrementOre, now)];
      }
    }

    /** The unique insert: false when the id is there already. */
    method ClaimEvent(event: EventId) returns (isNew: bool)
      modifies this`claimed
      ensures isNew <==> event !in old(claimed)
      ensures claimed == old(claimed) + {event}
    {
      isNew := event !in claimed;
      claimed := claimed + {event};
    }

    /** The transaction: claim, then work, each written as it happens; a fault after the claim throws
        and puts the tables back. A repeat ends at its claim, before any fault. */
    method ClaimEventAndRun(event: EventId, id: Id, amountOre: int, now: Time, fault: Option<Fault>)
      returns (outcome: Option<PaymentOutcome>)
      modifies this
      ensures var broken := fault.Some? && event !in old(claimed);
        && (broken ==> outcome == None && Contents() == old(Contents()))
        && (!broken ==> outcome == Some(OutcomeOf(old(Contents()), event, id)))
        && (!broken ==> Contents() == ClaimAndPay(old(Contents()), event, id, amountOre, now))
    {
      ghost var before := Contents();
      var invoicesBefore, ledgerBefore, claimedBefore := invoices, ledger, claimed;
      var claim := ClaimEvent(event);
      if !claim {
        assert claimed == old(claimed);
        return Some(DUPLICATE_EVENT);
      }
      if fault == Some(AFTER_CLAIM) {
        assert Contents() == Underway(before, event, id, amountOre, now, AFTER_CLAIM);
        RollBack(invoicesBefore, ledgerBefore, claimedBefore);
        return None;
      }
      var paid := MarkPaidWithin(id, amountOre, now);
      if fault.Some? {
        assert Contents() == Underway(before, event, id, amountOre, now, AFTER_WORK);
        RollBack(invoicesBefore, ledgerBefore, claimedBefore);
        return None;
      }
      outcome := Some(if paid.Some? then HANDLED else INVOICE_NOT_PAYABLE);
    }

    method RollBack(invoicesBefore: seq<Option<Invoice>>, ledgerBefore: seq<Row>, claimedBefore: set<EventId>)
      modifies this`invoices, this`ledger, this`claimed
      ensures invoices == invoicesBefore && ledger == ledgerBefore && claimed == claimedBefore
    {
      invoices, ledger, claimed := invoicesBefore, ledgerBefore, claimedBefore;
    }
  }
}
