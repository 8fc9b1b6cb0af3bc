/** agingReport: who owes what, and how late. */
module Aging {
  import opened Wrappers
  import opened Money
  import opened Ledger

  datatype OpenInvoice = OpenInvoice(id: Id, clientId: nat, dueDate: Time, dueOre: int)

  datatype Bucket = CURRENT | DAYS_1_TO_30 | DAYS_31_TO_60 | DAYS_61_TO_90 | OVER_90

  datatype Amounts = Amounts(current: int, days1to30: int, days31to60: int, days61to90: int, over90: int, totalOre: int)

  datatype AgingRow = AgingRow(clientId: nat, amounts: Amounts, invoiceCount: nat, oldestDueDate: Time)

  const NOTHING := Amounts(0, 0, 0, 0, 0, 0)

  /** Upper bounds are inclusive; 90 days is the last one. */
  function AgingBucket(daysLate: int): Bucket {
    if daysLate <= 0 then CURRENT
    else if daysLate <= 30 then DAYS_1_TO_30
    else if daysLate <= 60 then DAYS_31_TO_60
    else if daysLate <= 90 then DAYS_61_TO_90
    else OVER_90
  }

  function AddTo(a: Amounts, bucket: Bucket, ore: int): Amounts {
    var b := match bucket
      case CURRENT => a.(current := a.current + ore)
      case DAYS_1_TO_30 => a.(days1to30 := a.days1to30 + ore)
      case DAYS_31_TO_60 => a.(days31to60 := a.days31to60 + ore)
      case DAYS_61_TO_90 => a.(days61to90 := a.days61to90 + ore)
      case OVER_90 => a.(over90 := a.over90 + ore);
    b.(totalOre := b.totalOre + ore)
  }

  function Plus(a: Amounts, b: Amounts): Amounts {
    Amounts(a.current + b.current, a.days1to30 + b.days1to30, a.days31to60 + b.days31to60,
            a.days61to90 + b.days61to90, a.over90 + b.over90, a.totalOre + b.totalOre)
  }

  function BucketOf(inv: OpenInvoice, asOf: Time): Bucket {
    AgingBucket(DaysBetween(inv.dueDate, asOf))
  }

  /** findOpenInvoices over the first n rows. */
  function OpenBelow(db: Db, n: nat): seq<OpenInvoice>
    requires n <= |db.invoices|
  {
    if n == 0 then []
    else
      OpenBelow(db, n - 1)
      + if IsOpen(db, n - 1)
        then [OpenInvoice(n - 1, At(db, n - 1).clientId, At(db, n - 1).dueDate, TotalDue(At(db, n - 1)))]
        else []
  }

  function OpenInvoices(db: Db): seq<OpenInvoice> {
    OpenBelow(db, |db.invoices|)
  }

  // --- What the report means, client by client ---

  /** Everything owed, by bucket. */
  function AmountsOf(open: seq<OpenInvoice>, asOf: Time): Amounts {
    if open == [] then NOTHING
    else
      var last := open[|open| - 1];
      AddTo(AmountsOf(open[..|open| - 1], asOf), BucketOf(last, asOf), last.dueOre)
  }

  function OfClient(open: seq<OpenInvoice>, clientId: nat): seq<OpenInvoice> {
    if open == [] then []
    else
      OfClient(open[..|open| - 1], clientId)
      + if open[|open| - 1].clientId == clientId then [open[|open| - 1]] else []
  }

  function Oldest(open: seq<OpenInvoice>): Time
    requires open != []
  {
    var last := open[|open| - 1].dueDate;
    if |open| == 1 then last
    else
      var before := Oldest(open[..|open| - 1]);
      if last < before then last else before
  }

  /** Oldest is the due date of one of the invoices, and no later than any of them. */
  lemma {:induction false} OldestIsEarliest(open: seq<OpenInvoice>)
    requires open != []
    ensures forall i :: 0 <= i < |open| ==> Oldest(open) <= open[i].dueDate
    ensures exists i :: 0 <= i < |open| && open[i].dueDate == Oldest(open)
  {
    var n := |open| - 1;
    assert open[n].dueDate == open[|open| - 1].dueDate;
    if n > 0 {
      OldestIsEarliest(open[..n]);
      var k :| 0 <= k < n && open[..n][k].dueDate == Oldest(open[..n]);
      assert open[k].dueDate == Oldest(open[..n]);
      forall i | 0 <= i < n ensures Oldest(open[..n]) <= open[i].dueDate {
        assert open[..n][i] == open[i];
      }
    }
  }

  /** The row is about exactly this client's open invoices. */
  predicate IsRowOf(row: AgingRow, open: seq<OpenInvoice>, asOf: Time) {
    var own := OfClient(open, row.clientId);
    && own != []
    && row.amounts == AmountsOf(own, asOf)
    && row.invoiceCount == |own|
    && row.oldestDueDate == Oldest(own)
  }

  function FindRow(rows: seq<AgingRow>, clientId: nat): (k: nat)
    ensures k <= |rows|
    ensures k < |rows| ==> rows[k].clientId == clientId
    ensures forall i :: 0 <= i < k ==> rows[i].clientId != clientId
  {
    if rows == [] || rows[0].clientId == clientId then 0 else 1 + FindRow(rows[1..], clientId)
  }

  predicate DistinctClients(rows: seq<AgingRow>) {
    forall i, j :: 0 <= i < j < |rows| ==> rows[i].clientId != rows[j].clientId
  }

  function SumRows(rows: seq<AgingRow>): Amounts {
    if rows == [] then NOTHING else Plus(SumRows(rows[..|rows| - 1]), rows[|rows| - 1].amounts)
  }

  function SumCounts(rows: seq<AgingRow>): nat {
    if rows == [] then 0 else SumCounts(rows[..|rows| - 1]) + rows[|rows| - 1].invoiceCount
  }

  predicate HasRow(rows: seq<AgingRow>, clientId: nat) {
    exists k :: 0 <= k < |rows| && rows[k].clientId == clientId
  }

  predicate RowsOfClients(rows: seq<AgingRow>, open: seq<OpenInvoice>, asOf: Time) {
    forall k :: 0 <= k < |rows| ==> IsRowOf(rows[k], open, asOf)
  }

  predicate EveryDebtorHasRow(rows: seq<AgingRow>, open: seq<OpenInvoice>) {
    forall j :: 0 <= j < |open| ==> HasRow(rows, open[j].clientId)
  }

  /** One row for each client that owes something, and for nobody else. */
  predicate RowsAreRight(rows: seq<AgingRow>, open: seq<OpenInvoice>, asOf: Time) {
    DistinctClients(rows) && RowsOfClients(rows, open, asOf) && EveryDebtorHasRow(rows, open)
  }

  /** The rows sum to the totals, bucket by bucket, and count every invoice once. */
  predicate SumsAreRight(rows: seq<AgingRow>, open: seq<OpenInvoice>, asOf: Time) {
    SumRows(rows) == AmountsOf(open, asOf) && SumCounts(rows) == |open|
  }

  // --- The same in instants ---

  /** The invoice is this client's; None stands for everybody. */
  predicate Owns(who: Option<nat>, inv: OpenInvoice) {
    who == None || who == Some(inv.clientId)
  }

  /** Due from invoices that are late by at least `low` and less than `high` milliseconds. */
  function DueBetween(open: seq<OpenInvoice>, who: Option<nat>, asOf: Time, low: int, high: int): int {
    if open == [] then 0
    else
      var last := open[|open| - 1];
      DueBetween(open[..|open| - 1], who, asOf, low, high)
      + if Owns(who, last) && low <= asOf - last.dueDate < high then last.dueOre else 0
  }

  /** Due from invoices that are late by less, or not at all. */
  function DueBefore(open: seq<OpenInvoice>, who: Option<nat>, asOf: Time, high: int): int {
    if open == [] then 0
    else
      var last := open[|open| - 1];
      DueBefore(open[..|open| - 1], who, asOf, high)
      + if Owns(who, last) && asOf - last.dueDate < high then last.dueOre else 0
  }

  /** Due from invoices that are late by at least so much. */
  function DueFrom(open: seq<OpenInvoice>, who: Option<nat>, asOf: Time, low: int): int {
    if open == [] then 0
    else
      var last := open[|open| - 1];
      DueFrom(open[..|open| - 1], who, asOf, low)
      + if Owns(who, last) && low <= asOf - last.dueDate then last.dueOre else 0
  }

  function DueOf(open: seq<OpenInvoice>, who: Option<nat>): int {
    if open == [] then 0
    else DueOf(open[..|open| - 1], who) + if Owns(who, open[|open| - 1]) then open[|open| - 1].dueOre else 0
  }

  function CountOf(open: seq<OpenInvoice>, who: Option<nat>): nat {
    if open == [] then 0
    else CountOf(open[..|open| - 1], who) + if Owns(who, open[|open| - 1]) then 1 else 0
  }

  /** The amounts, bucket by bucket, by how many milliseconds past due. */
  predicate InInstants(a: Amounts, open: seq<OpenInvoice>, who: Option<nat>, asOf: Time) {
    && a.current == DueBefore(open, who, asOf, 86400000)
    && a.days1to30 == DueBetween(open, who, asOf, 86400000, 31 * 86400000)
    && a.days31to60 == DueBetween(open, who, asOf, 31 * 86400000, 61 * 86400000)
    && a.days61to90 == DueBetween(open, who, asOf, 61 * 86400000, 91 * 86400000)
    && a.over90 == DueFrom(open, who, asOf, 91 * 86400000)
    && a.totalOre == DueOf(open, who)
  }

  /** Which bucket an invoice goes to, by how many milliseconds past due. */
  lemma BucketInInstants(inv: OpenInvoice, asOf: Time)
    ensures var late, bucket := asOf - inv.dueDate, BucketOf(inv, asOf);
      && (bucket == CURRENT <==> late < 86400000)
      && (bucket == DAYS_1_TO_30 <==> 86400000 <= late < 31 * 86400000)
      && (bucket == DAYS_31_TO_60 <==> 31 * 86400000 <= late < 61 * 86400000)
      && (bucket == DAYS_61_TO_90 <==> 61 * 86400000 <= late < 91 * 86400000)
      && (bucket == OVER_90 <==> 91 * 86400000 <= late)
  {
    DaysInMilliseconds(inv.dueDate, asOf);
  }

  lemma DueOneMore(open: seq<OpenInvoice>, inv: OpenInvoice, who: Option<nat>, asOf: Time, low: int, high: int)
    ensures var due := if Owns(who, inv) then inv.dueOre else 0;
      && DueBetween(open + [inv], who, asOf, low, high)
         == DueBetween(open, who, asOf, low, high) + (if low <= asOf - inv.dueDate < high then due else 0)
      && DueBefore(open + [inv], who, asOf, high)
         == DueBefore(open, who, asOf, high) + (if asOf - inv.dueDate < high then due else 0)
      && DueFrom(open + [inv], who, asOf, low)
         == DueFrom(open, who, asOf, low) + (if low <= asOf - inv.dueDate then due else 0)
      && DueOf(open + [inv], who) == DueOf(open, who) + due
      && CountOf(open + [inv], who) == CountOf(open, who) + (if Owns(who, inv) then 1 else 0)
  {
    assert (open + [inv])[..|open|] == open;
  }

  lemma InstantsOneMore(a: Amounts, open: seq<OpenInvoice>, inv: OpenInvoice, who: Option<nat>, asOf: Time)
    requires InInstants(a, open, who, asOf)
    ensures InInstants(if Owns(who, inv) then AddTo(a, BucketOf(inv, asOf), inv.dueOre) else a,
                       open + [inv], who, asOf)
  {
    BucketInInstants(inv, asOf);
    DueOneMore(open, inv, who, asOf, 0, 86400000);
    DueOneMore(open, inv, who, asOf, 86400000, 31 * 86400000);
    DueOneMore(open, inv, who, asOf, 31 * 86400000, 61 * 86400000);
    DueOneMore(open, inv, who, asOf, 61 * 86400000, 91 * 86400000);
    DueOneMore(open, inv, who, asOf, 91 * 86400000, 91 * 86400000);
  }

  lemma {:induction false} AmountsInInstants(open: seq<OpenInvoice>, asOf: Time)
    ensures InInstants(AmountsOf(open, asOf), open, None, asOf)
  {
    if open != [] {
      var last, rest := open[|open| - 1], open[..|open| - 1];
      AmountsInInstants(rest, asOf);
      InstantsOneMore(AmountsOf(rest, asOf), rest, last, None, asOf);
      assert rest + [last] == open;
    }
  }

  lemma {:induction false} ClientInInstants(open: seq<OpenInvoice>, clientId: nat, asOf: Time)
    ensures InInstants(AmountsOf(OfClient(open, clientId), asOf), open, Some(clientId), asOf)
    ensures |OfClient(open, clientId)| == CountOf(open, Some(clientId))
  {
    if open != [] {
      var last, rest := open[|open| - 1], open[..|open| - 1];
      assert open == rest + [last];
      ClientInInstants(rest, clientId, asOf);
      ClientOneMore(rest, last, clientId, asOf);
    }
  }

  lemma ClientOneMore(rest: seq<OpenInvoice>, last: OpenInvoice, clientId: nat, asOf: Time)
    requires InInstants(AmountsOf(OfClient(rest, clientId), asOf), rest, Some(clientId), asOf)
    requires |OfClient(rest, clientId)| == CountOf(rest, Some(clientId))
    ensures InInstants(AmountsOf(OfClient(rest + [last], clientId), asOf), rest + [last], Some(clientId), asOf)
    ensures |OfClient(rest + [last], clientId)| == CountOf(rest + [last], Some(clientId))
  {
    var before, own := OfClient(rest, clientId), OfClient(rest + [last], clientId);
    assert (rest + [last])[..|rest|] == rest;
    if last.clientId == clientId {
      assert own == before + [last] && own[..|before|] == before;
    } else {
      assert own == before;
    }
    InstantsOneMore(AmountsOf(before, asOf), rest, last, Some(clientId), asOf);
    DueOneMore(rest, last, Some(clientId), asOf, 0, 0);
  }

  lemma {:induction false} OfClientIff(open: seq<OpenInvoice>, clientId: nat, inv: OpenInvoice)
    ensures inv in OfClient(open, clientId) <==> inv in open && inv.clientId == clientId
  {
    if open != [] {
      OfClientIff(open[..|open| - 1], clientId, inv);
      assert open == open[..|open| - 1] + [open[|open| - 1]];
    }
  }

  /** A row says what its client owes, how much of it how late, on how many invoices, since when. */
  predicate RowInInstants(row: AgingRow, open: seq<OpenInvoice>, asOf: Time) {
    && InInstants(row.amounts, open, Some(row.clientId), asOf)
    && row.invoiceCount == CountOf(open, Some(row.clientId))
    && (forall i :: 0 <= i < |open| && open[i].clientId == row.clientId ==> row.oldestDueDate <= open[i].dueDate)
    && (exists i :: 0 <= i < |open| && open[i].clientId == row.clientId && row.oldestDueDate == open[i].dueDate)
  }

  lemma RightRowInInstants(row: AgingRow, open: seq<OpenInvoice>, asOf: Time)
    requires IsRowOf(row, open, asOf)
    ensures RowInInstants(row, open, asOf)
  {
    var own := OfClient(open, row.clientId);
    ClientInInstants(open, row.clientId, asOf);
    OldestIsEarliest(own);
    forall i | 0 <= i < |open| && open[i].clientId == row.clientId
      ensures row.oldestDueDate <= open[i].dueDate
    {
      OfClientIff(open, row.clientId, open[i]);
      var k :| 0 <= k < |own| && own[k] == open[i];
    }
    var k :| 0 <= k < |own| && own[k].dueDate == Oldest(own);
    OfClientIff(open, row.clientId, own[k]);
    var i :| 0 <= i < |open| && open[i] == own[k];
  }

  // --- Which invoices are open ---

  predicate Outstanding(db: Db, id: Id) {
    && id < |db.invoices| && db.invoices[id].Some?
    && db.invoices[id].value.kind == INVOICE
    && (db.invoices[id].value.status == SENT || db.invoices[id].value.status == OVERDUE)
  }

  /** An entry is an invoice that has been sent and neither paid nor credited, with its client, its due
      date and all that is due on it. */
  predicate IsEntryOf(entry: OpenInvoice, db: Db) {
    && Outstanding(db, entry.id)
    && var inv := At(db, entry.id);
    && entry.clientId == inv.clientId && entry.dueDate == inv.dueDate
    && entry.dueOre == inv.totals.grossTotalOre + inv.lateFeeOre + inv.reminderFeeOre
  }

  predicate AreEntriesOf(open: seq<OpenInvoice>, db: Db, n: nat) {
    && (forall k :: 0 <= k < |open| ==> IsEntryOf(open[k], db) && open[k].id < n)
    && (forall j, k :: 0 <= j < k < |open| ==> open[j].id < open[k].id)
  }

  /** The report is made from every open invoice, each of them once, and from nothing else. */
  lemma {:induction false} OpenInvoicesAreOpen(db: Db, n: nat)
    requires n <= |db.invoices|
    ensures AreEntriesOf(OpenBelow(db, n), db, n)
    ensures forall id :: 0 <= id < n && Outstanding(db, id) ==> Listed(OpenBelow(db, n), id)
  {
    if n > 0 {
      OpenInvoicesAreOpen(db, n - 1);
      var before, open := OpenBelow(db, n - 1), OpenBelow(db, n);
      if IsOpen(db, n - 1) {
        assert open == before + [open[|before|]];
        OneMoreEntry(before, open[|before|], db, n);
      } else {
        assert open == before;
      }
      forall id | 0 <= id < n && Outstanding(db, id)
        ensures Listed(open, id)
      {
        if id < n - 1 {
          ListedLonger(before, open, id);
        } else {
          assert open[|before|].id == id;
        }
      }
    }
  }

  lemma ListedLonger(before: seq<OpenInvoice>, open: seq<OpenInvoice>, id: Id)
    requires Listed(before, id) && before <= open
    ensures Listed(open, id)
  {
    var k :| 0 <= k < |before| && before[k].id == id;
    assert open[k].id == id;
  }

  lemma OneMoreEntry(before: seq<OpenInvoice>, entry: OpenInvoice, db: Db, n: nat)
    requires n > 0 && AreEntriesOf(before, db, n - 1) && IsEntryOf(entry, db) && entry.id == n - 1
    ensures AreEntriesOf(before + [entry], db, n)
  {
    var open := before + [entry];
    assert forall k :: 0 <= k < |before| ==> open[k] == before[k];
  }

  predicate Listed(open: seq<OpenInvoice>, id: Id) {
    exists k :: 0 <= k < |open| && open[k].id == id
  }

  // --- The loop ---

  /** What one invoice does to its client's row. */
  function Extended(row: AgingRow, inv: OpenInvoice, asOf: Time): AgingRow {
    AgingRow(row.clientId, AddTo(row.amounts, BucketOf(inv, asOf), inv.dueOre), row.invoiceCount + 1,
             if inv.dueDate < row.oldestDueDate then inv.dueDate else row.oldestDueDate)
  }

  lemma OldestOfAppend(open: seq<OpenInvoice>, inv: OpenInvoice)
    ensures Oldest(open + [inv])
         == if open == [] || inv.dueDate < Oldest(open) then inv.dueDate else Oldest(open)
  {
    assert (open + [inv])[..|open|] == open;
    assert (open + [inv])[|open|] == inv;
  }

  lemma ExtendedIsRow(row: AgingRow, open: seq<OpenInvoice>, inv: OpenInvoice, asOf: Time)
    requires inv.clientId == row.clientId
    requires IsRowOf(row, open, asOf)
          || (OfClient(open, row.clientId) == [] && row == AgingRow(inv.clientId, NOTHING, 0, inv.dueDate))
    ensures IsRowOf(Extended(row, inv, asOf), open + [inv], asOf)
  {
    var own := OfClient(open, row.clientId);
    assert (open + [inv])[..|open|] == open;
    assert OfClient(open + [inv], row.clientId) == own + [inv];
    assert (own + [inv])[..|own|] == own;
    OldestOfAppend(own, inv);
  }

  lemma OtherRowsStay(row: AgingRow, open: seq<OpenInvoice>, inv: OpenInvoice, asOf: Time)
    requires inv.clientId != row.clientId && IsRowOf(row, open, asOf)
    ensures IsRowOf(row, open + [inv], asOf)
  {
    assert (open + [inv])[..|open|] == open;
    assert OfClient(open + [inv], row.clientId) == OfClient(open, row.clientId);
  }

  lemma {:induction false} NoRowNoInvoice(rows: seq<AgingRow>, open: seq<OpenInvoice>, clientId: nat)
    requires EveryDebtorHasRow(rows, open) && !HasRow(rows, clientId)
    ensures OfClient(open, clientId) == []
  {
    if open != [] {
      var n := |open| - 1;
      assert HasRow(rows, open[n].clientId);
      forall j | 0 <= j < n ensures HasRow(rows, open[..n][j].clientId) {
        assert open[..n][j] == open[j];
      }
      NoRowNoInvoice(rows, open[..n], clientId);
    }
  }

  lemma {:induction false} SumsOfUpdate(rows: seq<AgingRow>, k: nat, row: AgingRow, bucket: Bucket, ore: int)
    requires k < |rows|
    requires row.amounts == AddTo(rows[k].amounts, bucket, ore) && row.invoiceCount == rows[k].invoiceCount + 1
    ensures SumRows(rows[k := row]) == AddTo(SumRows(rows), bucket, ore)
    ensures SumCounts(rows[k := row]) == SumCounts(rows) + 1
  {
    var n := |rows| - 1;
    if k == n {
      assert rows[k := row][..n] == rows[..n];
    } else {
      assert rows[k := row][..n] == rows[..n][k := row];
      SumsOfUpdate(rows[..n], k, row, bucket, ore);
    }
  }

  lemma SumsOfAppend(rows: seq<AgingRow>, row: AgingRow)
    ensures SumRows(rows + [row]) == Plus(SumRows(rows), row.amounts)
    ensures SumCounts(rows + [row]) == SumCounts(rows) + row.invoiceCount
  {
    assert (rows + [row])[..|rows|] == rows;
  }

  /** The map from client to row after one more invoice. */
  function AddInvoice(rows: seq<AgingRow>, inv: OpenInvoice, asOf: Time): seq<AgingRow> {
    var k := FindRow(rows, inv.clientId);
    if k == |rows| then rows + [Extended(AgingRow(inv.clientId, NOTHING, 0, inv.dueDate), inv, asOf)]
    else rows[k := Extended(rows[k], inv, asOf)]
  }

  lemma AddInvoiceKeepsRows(rows: seq<AgingRow>, open: seq<OpenInvoice>, inv: OpenInvoice, asOf: Time)
    requires RowsAreRight(rows, open, asOf)
    ensures RowsOfClients(AddInvoice(rows, inv, asOf), open + [inv], asOf)
  {
    var k, rows' := FindRow(rows, inv.clientId), AddInvoice(rows, inv, asOf);
    if k == |rows| {
      NoRowNoInvoice(rows, open, inv.clientId);
      ExtendedIsRow(AgingRow(inv.clientId, NOTHING, 0, inv.dueDate), open, inv, asOf);
    } else {
      assert IsRowOf(rows[k], open, asOf);
      ExtendedIsRow(rows[k], open, inv, asOf);
    }
    forall i | 0 <= i < |rows'|
      ensures IsRowOf(rows'[i], open + [inv], asOf)
    {
      if i != k {
        assert IsRowOf(rows[i], open, asOf);
        OtherRowsStay(rows[i], open, inv, asOf);
      }
    }
  }

  lemma AddInvoiceKeepsClients(rows: seq<AgingRow>, open: seq<OpenInvoice>, inv: OpenInvoice, asOf: Time)
    requires DistinctClients(rows) && EveryDebtorHasRow(rows, open)
    ensures DistinctClients(AddInvoice(rows, inv, asOf))
    ensures EveryDebtorHasRow(AddInvoice(rows, inv, asOf), open + [inv])
  {
    var k, rows' := FindRow(rows, inv.clientId), AddInvoice(rows, inv, asOf);
    forall i | 0 <= i < |rows| ensures rows'[i].clientId == rows[i].clientId {}
    assert rows'[k].clientId == inv.clientId;
    forall j | 0 <= j < |open + [inv]|
      ensures HasRow(rows', (open + [inv])[j].clientId)
    {
      if j < |open| {
        assert HasRow(rows, open[j].clientId);
        var i :| 0 <= i < |rows| && rows[i].clientId == open[j].clientId;
        assert rows'[i].clientId == open[j].clientId;
      }
    }
  }

  lemma AddInvoiceKeepsSums(rows: seq<AgingRow>, open: seq<OpenInvoice>, inv: OpenInvoice, asOf: Time)
    requires SumsAreRight(rows, open, asOf)
    ensures SumsAreRight(AddInvoice(rows, inv, asOf), open + [inv], asOf)
  {
    var k := FindRow(rows, inv.clientId);
    assert (open + [inv])[..|open|] == open;
    if k == |rows| {
      SumsOfAppend(rows, Extended(AgingRow(inv.clientId, NOTHING, 0, inv.dueDate), inv, asOf));
    } else {
      SumsOfUpdate(rows, k, Extended(rows[k], inv, asOf), BucketOf(inv, asOf), inv.dueOre);
    }
  }

  // --- The order in which clients are met ---

  /** The place of a client's first invoice, or the end. */
  function FirstSeen(open: seq<OpenInvoice>, clientId: nat): (k: nat)
    ensures k <= |open|
    ensures k < |open| ==> open[k].clientId == clientId
    ensures forall i :: 0 <= i < k ==> open[i].clientId != clientId
  {
    if open == [] || open[0].clientId == clientId then 0 else 1 + FirstSeen(open[1..], clientId)
  }

  /** Rows stand as their clients were met. */
  predicate AsMet(rows: seq<AgingRow>, open: seq<OpenInvoice>) {
    && (forall i :: 0 <= i < |rows| ==> FirstSeen(open, rows[i].clientId) < |open|)
    && (forall i, j :: 0 <= i < j < |rows| ==>
          FirstSeen(open, rows[i].clientId) < FirstSeen(open, rows[j].clientId))
  }

  lemma SeenStays(open: seq<OpenInvoice>, inv: OpenInvoice, clientId: nat)
    ensures var k := FirstSeen(open, clientId);
      FirstSeen(open + [inv], clientId)
      == if k < |open| || inv.clientId == clientId then k else k + 1
  {
    var k, longer := FirstSeen(open, clientId), open + [inv];
    assert forall i :: 0 <= i < |open| ==> longer[i] == open[i];
    assert longer[|open|] == inv;
  }

  lemma NewClientIsUnseen(rows: seq<AgingRow>, open: seq<OpenInvoice>, clientId: nat)
    requires EveryDebtorHasRow(rows, open) && !HasRow(rows, clientId)
    ensures FirstSeen(open, clientId) == |open|
  {
    assert forall j :: 0 <= j < |open| ==> HasRow(rows, open[j].clientId);
  }

  lemma AddInvoiceKeepsOrder(rows: seq<AgingRow>, open: seq<OpenInvoice>, inv: OpenInvoice, asOf: Time)
    requires EveryDebtorHasRow(rows, open) && AsMet(rows, open)
    ensures AsMet(AddInvoice(rows, inv, asOf), open + [inv])
  {
    var k, rows' := FindRow(rows, inv.clientId), AddInvoice(rows, inv, asOf);
    forall i | 0 <= i < |rows|
      ensures rows'[i].clientId == rows[i].clientId
      ensures FirstSeen(open + [inv], rows[i].clientId) == FirstSeen(open, rows[i].clientId)
    {
      SeenStays(open, inv, rows[i].clientId);
    }
    if k == |rows| {
      NewClientIsUnseen(rows, open, inv.clientId);
      SeenStays(open, inv, inv.clientId);
    }
  }

  // --- Sorting, largest debt first, equal debts in the order they were met ---

  predicate LargestFirst(rows: seq<AgingRow>) {
    forall i, j :: 0 <= i < j < |rows| ==> rows[i].amounts.totalOre >= rows[j].amounts.totalOre
  }

  function InsertRow(sorted: seq<AgingRow>, row: AgingRow): seq<AgingRow> {
    if sorted == [] || sorted[|sorted| - 1].amounts.totalOre >= row.amounts.totalOre then sorted + [row]
    else InsertRow(sorted[..|sorted| - 1], row) + [sorted[|sorted| - 1]]
  }

  function SortRows(rows: seq<AgingRow>): seq<AgingRow> {
    if rows == [] then [] else InsertRow(SortRows(rows[..|rows| - 1]), rows[|rows| - 1])
  }

  lemma {:induction false} InsertRowPermutes(sorted: seq<AgingRow>, row: AgingRow)
    ensures multiset(InsertRow(sorted, row)) == multiset(sorted + [row])
  {
    if sorted == [] || sorted[|sorted| - 1].amounts.totalOre >= row.amounts.totalOre {
    } else {
      var n := |sorted| - 1;
      InsertRowPermutes(sorted[..n], row);
      assert sorted == sorted[..n] + [sorted[n]];
    }
  }

  lemma {:induction false} InsertRowSums(sorted: seq<AgingRow>, row: AgingRow)
    ensures SumRows(InsertRow(sorted, row)) == Plus(SumRows(sorted), row.amounts)
    ensures SumCounts(InsertRow(sorted, row)) == SumCounts(sorted) + row.invoiceCount
  {
    if sorted == [] || sorted[|sorted| - 1].amounts.totalOre >= row.amounts.totalOre {
      SumsOfAppend(sorted, row);
    } else {
      var n := |sorted| - 1;
      InsertRowSums(sorted[..n], row);
      SumsOfAppend(InsertRow(sorted[..n], row), sorted[n]);
      PlusSwaps(SumRows(sorted[..n]), row.amounts, sorted[n].amounts);
    }
  }

  lemma PlusSwaps(a: Amounts, b: Amounts, c: Amounts)
    ensures Plus(Plus(a, b), c) == Plus(Plus(a, c), b)
  {
  }

  /** The larger debt first, and of equal debts the one that was met first. */
  predicate Precedes(open: seq<OpenInvoice>, a: AgingRow, b: AgingRow) {
    || a.amounts.totalOre > b.amounts.totalOre
    || (a.amounts.totalOre == b.amounts.totalOre && FirstSeen(open, a.clientId) < FirstSeen(open, b.clientId))
  }

  predicate InReportOrder(rows: seq<AgingRow>, open: seq<OpenInvoice>) {
    forall i, j :: 0 <= i < j < |rows| ==> Precedes(open, rows[i], rows[j])
  }

  predicate AllPrecede(rows: seq<AgingRow>, open: seq<OpenInvoice>, row: AgingRow) {
    forall i :: 0 <= i < |rows| ==> Precedes(open, rows[i], row)
  }

  /** Every row was met before this one. */
  predicate AllMetBefore(rows: seq<AgingRow>, open: seq<OpenInvoice>, row: AgingRow) {
    forall i :: 0 <= i < |rows| ==> FirstSeen(open, rows[i].clientId) < FirstSeen(open, row.clientId)
  }

  lemma InReportOrderOneMore(rows: seq<AgingRow>, open: seq<OpenInvoice>, row: AgingRow)
    requires InReportOrder(rows, open) && AllPrecede(rows, open, row)
    ensures InReportOrder(rows + [row], open)
  {
  }

  /** Inserting keeps the order, and stays in front of whatever all rows were in front of. */
  lemma {:induction false} InsertRowInOrder(sorted: seq<AgingRow>, row: AgingRow, open: seq<OpenInvoice>)
    requires InReportOrder(sorted, open) && AllMetBefore(sorted, open, row)
    ensures InReportOrder(InsertRow(sorted, row), open)
    ensures forall last :: AllPrecede(sorted, open, last) && Precedes(open, row, last) ==>
              AllPrecede(InsertRow(sorted, row), open, last)
  {
    var n := |sorted| - 1;
    if sorted == [] || sorted[n].amounts.totalOre >= row.amounts.totalOre {
      forall i | 0 <= i < |sorted| ensures Precedes(open, sorted[i], row) {
        assert i < n ==> Precedes(open, sorted[i], sorted[n]);
      }
      InReportOrderOneMore(sorted, open, row);
    } else {
      var last := sorted[n];
      InsertRowInOrder(sorted[..n], row, open);
      assert AllPrecede(sorted[..n], open, last);
      InReportOrderOneMore(InsertRow(sorted[..n], row), open, last);
      assert forall other :: AllPrecede(sorted, open, other) ==>
               AllPrecede(sorted[..n], open, other) && Precedes(open, sorted[n], other);
    }
  }

  lemma MetBeforeLast(rows: seq<AgingRow>, open: seq<OpenInvoice>)
    requires rows != [] && AsMet(rows, open)
    ensures AsMet(rows[..|rows| - 1], open) && AllMetBefore(rows[..|rows| - 1], open, rows[|rows| - 1])
  {
  }

  lemma MetBeforeInAnyOrder(rows: seq<AgingRow>, sorted: seq<AgingRow>, open: seq<OpenInvoice>, row: AgingRow)
    requires multiset(sorted) == multiset(rows) && AllMetBefore(rows, open, row)
    ensures AllMetBefore(sorted, open, row)
  {
    forall i | 0 <= i < |sorted|
      ensures FirstSeen(open, sorted[i].clientId) < FirstSeen(open, row.clientId)
    {
      assert sorted[i] in multiset(rows);
      var k :| 0 <= k < |rows| && rows[k] == sorted[i];
    }
  }

  lemma {:induction false} SortRowsInOrder(rows: seq<AgingRow>, open: seq<OpenInvoice>)
    requires AsMet(rows, open)
    ensures InReportOrder(SortRows(rows), open)
  {
    if rows != [] {
      var n := |rows| - 1;
      MetBeforeLast(rows, open);
      SortRowsInOrder(rows[..n], open);
      SortRowsPermutes(rows[..n]);
      MetBeforeInAnyOrder(rows[..n], SortRows(rows[..n]), open, rows[n]);
      InsertRowInOrder(SortRows(rows[..n]), rows[n], open);
    }
  }

  lemma {:induction false} SortRowsPermutes(rows: seq<AgingRow>)
    ensures multiset(SortRows(rows)) == multiset(rows)
  {
    if rows != [] {
      var n := |rows| - 1;
      SortRowsPermutes(rows[..n]);
      InsertRowPermutes(SortRows(rows[..n]), rows[n]);
      assert rows == rows[..n] + [rows[n]];
    }
  }

  lemma {:induction false} SortRowsSums(rows: seq<AgingRow>)
    ensures SumRows(SortRows(rows)) == SumRows(rows)
    ensures SumCounts(SortRows(rows)) == SumCounts(rows)
  {
    if rows != [] {
      var n := |rows| - 1;
      SortRowsSums(rows[..n]);
      InsertRowSums(SortRows(rows[..n]), rows[n]);
    }
  }

  /** A different order of the rows is as right as the first. */
  lemma PermutedRowsAreRight(rows: seq<AgingRow>, sorted: seq<AgingRow>, open: seq<OpenInvoice>, asOf: Time)
    requires RowsAreRight(rows, open, asOf)
    requires multiset(sorted) == multiset(rows)
    ensures RowsAreRight(sorted, open, asOf)
  {
    forall k | 0 <= k < |sorted|
      ensures IsRowOf(sorted[k], open, asOf)
    {
      assert sorted[k] in multiset(rows);
      var m :| 0 <= m < |rows| && rows[m] == sorted[k];
      assert IsRowOf(rows[m], open, asOf);
    }
    forall j | 0 <= j < |open|
      ensures HasRow(sorted, open[j].clientId)
    {
      assert HasRow(rows, open[j].clientId);
      var k :| 0 <= k < |rows| && rows[k].clientId == open[j].clientId;
      assert rows[k] in multiset(sorted);
      var m :| 0 <= m < |sorted| && sorted[m] == rows[k];
    }
    forall i, j | 0 <= i < j < |sorted|
      ensures sorted[i].clientId != sorted[j].clientId
    {
      TwoRowsTwoClients(rows, sorted, i, j);
    }
  }

  lemma TwoRowsTwoClients(rows: seq<AgingRow>, sorted: seq<AgingRow>, i: nat, j: nat)
    requires DistinctClients(rows) && multiset(sorted) == multiset(rows)
    requires i < j < |sorted|
    ensures sorted[i].clientId != sorted[j].clientId
  {
    assert sorted[i] in multiset(rows) && sorted[j] in multiset(rows);
    OnceEach(rows, sorted[i]);
    if sorted[i] == sorted[j] {
      TwiceAtLeast(sorted, i, j);
    }
    var k :| 0 <= k < |rows| && rows[k] == sorted[i];
    var m :| 0 <= m < |rows| && rows[m] == sorted[j];
    assert k != m;
  }

  lemma TwiceAtLeast(rows: seq<AgingRow>, i: nat, j: nat)
    requires i < j < |rows| && rows[i] == rows[j]
    ensures multiset(rows)[rows[i]] >= 2
  {
    assert rows == rows[..i] + [rows[i]] + rows[i + 1..j] + [rows[j]] + rows[j + 1..];
  }

  lemma {:induction false} OnceEach(rows: seq<AgingRow>, row: AgingRow)
    requires DistinctClients(rows)
    ensures multiset(rows)[row] <= 1
  {
    if rows != [] {
      var n := |rows| - 1;
      assert rows == rows[..n] + [rows[n]];
      OnceEach(rows[..n], row);
      if rows[n] == row {
        forall k | 0 <= k < n ensures rows[..n][k] != row {
          assert rows[k].clientId != rows[n].clientId;
        }
      }
    }
  }

  /** Rows and totals after these invoices. */
  predicate SoFar(rows: seq<AgingRow>, totals: Amounts, open: seq<OpenInvoice>, asOf: Time) {
    && RowsAreRight(rows, open, asOf) && SumsAreRight(rows, open, asOf) && AsMet(rows, open)
    && totals == AmountsOf(open, asOf)
  }

  lemma AddInvoiceKeepsAll(rows: seq<AgingRow>, totals: Amounts, open: seq<OpenInvoice>, inv: OpenInvoice, asOf: Time)
    requires SoFar(rows, totals, open, asOf)
    ensures SoFar(AddInvoice(rows, inv, asOf), AddTo(totals, BucketOf(inv, asOf), inv.dueOre), open + [inv], asOf)
  {
    AddInvoiceKeepsRows(rows, open, inv, asOf);
    AddInvoiceKeepsClients(rows, open, inv, asOf);
    AddInvoiceKeepsSums(rows, open, inv, asOf);
    AddInvoiceKeepsOrder(rows, open, inv, asOf);
    assert (open + [inv])[..|open|] == open;
  }

  lemma SortedRowsAreRight(rows: seq<AgingRow>, open: seq<OpenInvoice>, asOf: Time)
    requires RowsAreRight(rows, open, asOf) && SumsAreRight(rows, open, asOf) && AsMet(rows, open)
    ensures var sorted := SortRows(rows);
      && RowsAreRight(sorted, open, asOf) && SumsAreRight(sorted, open, asOf)
      && LargestFirst(sorted) && InReportOrder(sorted, open)
      && forall k :: 0 <= k < |sorted| ==> RowInInstants(sorted[k], open, asOf)
  {
    var sorted := SortRows(rows);
    SortRowsInOrder(rows, open);
    SortRowsPermutes(rows);
    SortRowsSums(rows);
    PermutedRowsAreRight(rows, sorted, open, asOf);
    forall i, j | 0 <= i < j < |sorted|
      ensures sorted[i].amounts.totalOre >= sorted[j].amounts.totalOre
    {
      assert Precedes(open, sorted[i], sorted[j]);
    }
    forall k | 0 <= k < |sorted|
      ensures RowInInstants(sorted[k], open, asOf)
    {
      assert IsRowOf(sorted[k], open, asOf);
      RightRowInInstants(sorted[k], open, asOf);
    }
  }

  /** The report: a right row for each debtor, largest first, summing to the totals bucket by bucket. */
  method AgingReport(open: seq<OpenInvoice>, asOf: Time) returns (rows: seq<AgingRow>, totals: Amounts)
    ensures totals == AmountsOf(open, asOf)
    ensures RowsAreRight(rows, open, asOf)
    ensures SumsAreRight(rows, open, asOf)
    ensures LargestFirst(rows) && InReportOrder(rows, open)
    ensures InInstants(totals, open, None, asOf)
    ensures forall k :: 0 <= k < |rows| ==> RowInInstants(rows[k], open, asOf)
  {
    var byClient, sums := AgeAll(open, asOf);
    rows, totals := SortRows(byClient), sums;
    SortedRowsAreRight(byClient, open, asOf);
    AmountsInInstants(open, asOf);
  }

  lemma NothingSoFar(open: seq<OpenInvoice>, asOf: Time)
    ensures SoFar([], NOTHING, open[..0], asOf)
  {
  }

  lemma OneTurnKeepsAll(rows: seq<AgingRow>, totals: Amounts, open: seq<OpenInvoice>, i: nat, asOf: Time)
    requires i < |open| && SoFar(rows, totals, open[..i], asOf)
    ensures SoFar(AddInvoice(rows, open[i], asOf), AddTo(totals, BucketOf(open[i], asOf), open[i].dueOre),
                  open[..i + 1], asOf)
  {
    assert open[..i + 1] == open[..i] + [open[i]];
    AddInvoiceKeepsAll(rows, totals, open[..i], open[i], asOf);
  }

  /** The loop. */
  method AgeAll(open: seq<OpenInvoice>, asOf: Time) returns (byClient: seq<AgingRow>, totals: Amounts)
    ensures SoFar(byClient, totals, open, asOf)
  {
    byClient, totals := [], NOTHING;
    NothingSoFar(open, asOf);
    for i := 0 to |open|
      invariant SoFar(byClient, totals, open[..i], asOf)
    {
      var invoice := open[i];
      OneTurnKeepsAll(byClient, totals, open, i, asOf);
      byClient, totals := AgeOne(byClient, totals, invoice, asOf);
    }
    assert open[..|open|] == open;
  }

  /** The body of the loop. */
  method AgeOne(byClient: seq<AgingRow>, totals: Amounts, invoice: OpenInvoice, asOf: Time)
    returns (byClient': seq<AgingRow>, totals': Amounts)
    ensures byClient' == AddInvoice(byClient, invoice, asOf)
    ensures totals' == AddTo(totals, BucketOf(invoice, asOf), invoice.dueOre)
  {
    var bucket := BucketOf(invoice, asOf);
    var k := FindRow(byClient, invoice.clientId);
    var row := if k == |byClient| then AgingRow(invoice.clientId, NOTHING, 0, invoice.dueDate) else byClient[k];
    row := row.(amounts := AddTo(row.amounts, bucket, invoice.dueOre), invoiceCount := row.invoiceCount + 1);
    if invoice.dueDate < row.oldestDueDate {
      row := row.(oldestDueDate := invoice.dueDate);
    }
    byClient' := if k == |byClient| then byClient + [row] else byClient[k := row];
    totals' := AddTo(totals, bucket, invoice.dueOre);
  }

  // --- The total does not depend on the date ---

  function SumDue(open: seq<OpenInvoice>): int {
    if open == [] then 0 else SumDue(open[..|open| - 1]) + open[|open| - 1].dueOre
  }

  /** Buckets move with the date; their sum is what is owed. */
  lemma {:induction false} BucketsPartitionTheDebt(open: seq<OpenInvoice>, asOf: Time)
    ensures var a := AmountsOf(open, asOf);
            && a.totalOre == SumDue(open)
            && a.totalOre == a.current + a.days1to30 + a.days31to60 + a.days61to90 + a.over90
  {
    if open != [] {
      BucketsPartitionTheDebt(open[..|open| - 1], asOf);
    }
  }
}
