/** backend/src/services/report.service.ts and the selections under it: journal entries,
    VAT per rate, and the aging of open invoices. */
module Reports {
  import opened Wrappers
  import opened Ledger
  import opened Text

  // --- Accounts ---

  /** A BAS account by its number. */
  type Account = nat

  const RECEIVABLES: Account := 1510

  const BANK: Account := 1930

  const INTEREST: Account := 8313

  const FEES: Account := 3590

  function SalesAccount(vatRate: int): Account {
    match vatRate
    case 2500 => 3001
    case 1200 => 3002
    case 600 => 3003
    case _ => 3004
  }

  function VatAccount(vatRate: int): Option<Account> {
    match vatRate
    case 2500 => Some(2611)
    case 1200 => Some(2621)
    case 600 => Some(2631)
    case _ => None
  }

  // --- Journal entries ---

  datatype Posting = Posting(account: Account, amountOre: int)

  datatype Verification = Verification(at: Time, text: string, transactions: seq<Posting>)

  /** One entry of the byRate map; the sequence of groups is the map in insertion order. */
  datatype Group = Group(vatRate: int, net: int, vat: int)

  function FindGroup(groups: seq<Group>, vatRate: int): (k: nat)
    ensures k <= |groups|
    ensures k < |groups| ==> groups[k].vatRate == vatRate
    ensures forall i :: 0 <= i < k ==> groups[i].vatRate != vatRate
  {
    if groups == [] || groups[0].vatRate == vatRate then 0 else 1 + FindGroup(groups[1..], vatRate)
  }

  function AddToGroups(groups: seq<Group>, vatRate: int, net: int, vat: int): seq<Group> {
    var k := FindGroup(groups, vatRate);
    if k == |groups| then groups + [Group(vatRate, net, vat)]
    else groups[k := Group(vatRate, groups[k].net + net, groups[k].vat + vat)]
  }

  function GroupByRate(items: seq<Item>, sign: int): seq<Group> {
    if items == [] then []
    else
      var last := items[|items| - 1];
      AddToGroups(GroupByRate(items[..|items| - 1], sign), last.vatRate, last.netOre * sign, last.vatOre * sign)
  }

  function GroupPosting(group: Group): seq<Posting> {
    var vat := VatAccount(group.vatRate);
    [Posting(SalesAccount(group.vatRate), -group.net)]
    + if vat.Some? && group.vat != 0 then [Posting(vat.value, -group.vat)] else []
  }

  function GroupPostings(groups: seq<Group>): seq<Posting> {
    if groups == [] then [] else GroupPostings(groups[..|groups| - 1]) + GroupPosting(groups[|groups| - 1])
  }

  function NumberText(number: Number): string {
    IntText(number.year) + "-" + PadStart(Decimal(number.n), 4, '0')
  }

  function EntryPrefix(rowType: RowType): string {
    match rowType
    case INVOICE_CREATED => "Faktura "
    case CREDIT_NOTE_ISSUED => "Kreditering av faktura "
    case PAYMENT_RECEIVED => "Betalning faktura "
    case LATE_FEE_ADDED => "Dröjsmålsränta faktura "
    case LATE_FEE_WAIVED => "Ränta avskriven faktura "
    case REMINDER_FEE_ADDED => "Påminnelseavgift faktura "
    case REMINDER_FEE_WAIVED => "Avgift avskriven faktura "
    case _ => ""
  }

  function EntryText(rowType: RowType, number: Number): string {
    EntryPrefix(rowType) + NumberText(number)
  }

  function SignOf(rowType: RowType): int {
    if rowType == CREDIT_NOTE_ISSUED then -1 else 1
  }

  /** The postings of a row on this invoice; a generic adjustment or refund has none. */
  function PostingsOf(row: Row, inv: Invoice): seq<Posting> {
    match row.rowType
    case INVOICE_CREATED => [Posting(RECEIVABLES, row.amountOre)] + GroupPostings(GroupByRate(inv.items, 1))
    case CREDIT_NOTE_ISSUED => [Posting(RECEIVABLES, row.amountOre)] + GroupPostings(GroupByRate(inv.items, -1))
    case PAYMENT_RECEIVED => [Posting(BANK, row.amountOre), Posting(RECEIVABLES, -row.amountOre)]
    case LATE_FEE_ADDED => [Posting(RECEIVABLES, row.amountOre), Posting(INTEREST, -row.amountOre)]
    case LATE_FEE_WAIVED => [Posting(RECEIVABLES, row.amountOre), Posting(INTEREST, -row.amountOre)]
    case REMINDER_FEE_ADDED => [Posting(RECEIVABLES, row.amountOre), Posting(FEES, -row.amountOre)]
    case REMINDER_FEE_WAIVED => [Posting(RECEIVABLES, row.amountOre), Posting(FEES, -row.amountOre)]
    case REFUND => []
    case ADJUSTMENT => []
  }

  function VerificationOf(row: Row, inv: Invoice): Option<Verification> {
    if row.rowType == REFUND || row.rowType == ADJUSTMENT then None
    else Some(Verification(row.createdAt, EntryText(row.rowType, inv.number), PostingsOf(row, inv)))
  }

  /** What the entry says it is, and the number of the invoice. */
  predicate IsTextOf(text: string, rowType: RowType, number: Number) {
    && (rowType == INVOICE_CREATED ==> text == "Faktura " + NumberText(number))
    && (rowType == CREDIT_NOTE_ISSUED ==> text == "Kreditering av faktura " + NumberText(number))
    && (rowType == PAYMENT_RECEIVED ==> text == "Betalning faktura " + NumberText(number))
    && (rowType == LATE_FEE_ADDED ==> text == "Dröjsmålsränta faktura " + NumberText(number))
    && (rowType == LATE_FEE_WAIVED ==> text == "Ränta avskriven faktura " + NumberText(number))
    && (rowType == REMINDER_FEE_ADDED ==> text == "Påminnelseavgift faktura " + NumberText(number))
    && (rowType == REMINDER_FEE_WAIVED ==> text == "Avgift avskriven faktura " + NumberText(number))
  }

  lemma EntryTextIsTextOf(rowType: RowType, number: Number)
    ensures IsTextOf(EntryText(rowType, number), rowType, number)
  {
  }

  /** The map over rates, filled in a loop and then read in a loop. */
  method ToVerification(row: Row, inv: Invoice) returns (v: Option<Verification>)
    ensures v == VerificationOf(row, inv)
    ensures v.None? <==> row.rowType == REFUND || row.rowType == ADJUSTMENT
    ensures v.Some? ==> v.value.at == row.createdAt && IsTextOf(v.value.text, row.rowType, inv.number)
    ensures row.rowType == INVOICE_CREATED || row.rowType == CREDIT_NOTE_ISSUED ==>
              v.Some? && v.value.transactions != [] && v.value.transactions[0] == Posting(1510, row.amountOre)
    ensures row.rowType == PAYMENT_RECEIVED ==>
              v.Some? && v.value.transactions == [Posting(1930, row.amountOre), Posting(1510, -row.amountOre)]
    ensures row.rowType == LATE_FEE_ADDED || row.rowType == LATE_FEE_WAIVED ==>
              v.Some? && v.value.transactions == [Posting(1510, row.amountOre), Posting(8313, -row.amountOre)]
    ensures row.rowType == REMINDER_FEE_ADDED || row.rowType == REMINDER_FEE_WAIVED ==>
              v.Some? && v.value.transactions == [Posting(1510, row.amountOre), Posting(3590, -row.amountOre)]
  {
    EntryTextIsTextOf(row.rowType, inv.number);
    match row.rowType {
      case INVOICE_CREATED =>
        var transactions := SplitAcrossAccounts(row, inv.items, 1);
        v := Some(Verification(row.createdAt, EntryText(row.rowType, inv.number), transactions));
      case CREDIT_NOTE_ISSUED =>
        var transactions := SplitAcrossAccounts(row, inv.items, -1);
        v := Some(Verification(row.createdAt, EntryText(row.rowType, inv.number), transactions));
      case REFUND => v := None;
      case ADJUSTMENT => v := None;
      case _ => v := Some(Verification(row.createdAt, EntryText(row.rowType, inv.number), PostingsOf(row, inv)));
    }
  }

  /** The first loop: net and VAT per rate, in the order the rates are met. */
  method CollectByRate(items: seq<Item>, sign: int) returns (byRate: seq<Group>)
    ensures byRate == GroupByRate(items, sign)
  {
    byRate := [];
    for i := 0 to |items|
      invariant byRate == GroupByRate(items[..i], sign)
    {
      assert items[..i + 1][..i] == items[..i];
      var item := items[i];
      var k := FindGroup(byRate, item.vatRate);
      if k == |byRate| {
        byRate := byRate + [Group(item.vatRate, item.netOre * sign, item.vatOre * sign)];
      } else {
        var group := byRate[k];
        byRate := byRate[k := Group(item.vatRate, group.net + item.netOre * sign, group.vat + item.vatOre * sign)];
      }
    }
    assert items[..|items|] == items;
  }

  method SplitAcrossAccounts(row: Row, items: seq<Item>, sign: int) returns (transactions: seq<Posting>)
    ensures transactions == [Posting(RECEIVABLES, row.amountOre)] + GroupPostings(GroupByRate(items, sign))
  {
    var byRate := CollectByRate(items, sign);
    transactions := [Posting(RECEIVABLES, row.amountOre)];
    for i := 0 to |byRate|
      invariant transactions == [Posting(RECEIVABLES, row.amountOre)] + GroupPostings(byRate[..i])
    {
      assert byRate[..i + 1][..i] == byRate[..i];
      var sums := byRate[i];
      transactions := transactions + [Posting(SalesAccount(sums.vatRate), -sums.net)];
      var vat := VatAccount(sums.vatRate);
      if vat.Some? && sums.vat != 0 {
        transactions := transactions + [Posting(vat.value, -sums.vat)];
      }
    }
    assert byRate[..|byRate|] == byRate;
  }

  // --- What the groups and their postings are ---

  /** The place of the first line at the rate, or the end. */
  function FirstAt(items: seq<Item>, vatRate: int): (k: nat)
    ensures k <= |items|
    ensures k < |items| ==> items[k].vatRate == vatRate
    ensures forall i :: 0 <= i < k ==> items[i].vatRate != vatRate
  {
    if items == [] || items[0].vatRate == vatRate then 0 else 1 + FirstAt(items[1..], vatRate)
  }

  /** A group for each rate on the lines, in the order the rates are met, with net and VAT at the rate. */
  predicate GroupsOf(groups: seq<Group>, items: seq<Item>, sign: int) {
    && (forall k :: 0 <= k < |groups| ==> IsGroupOf(groups[k], items, sign))
    && (forall j, k :: 0 <= j < k < |groups| ==> FirstAt(items, groups[j].vatRate) < FirstAt(items, groups[k].vatRate))
    && (forall i :: 0 <= i < |items| ==> HasGroup(groups, items[i].vatRate))
  }

  predicate IsGroupOf(group: Group, items: seq<Item>, sign: int) {
    && FirstAt(items, group.vatRate) < |items|
    && group.net == NetAt(items, group.vatRate) * sign
    && group.vat == VatAt(items, group.vatRate) * sign
  }

  predicate HasGroup(groups: seq<Group>, vatRate: int) {
    exists k :: 0 <= k < |groups| && groups[k].vatRate == vatRate
  }

  lemma FirstStays(items: seq<Item>, item: Item, vatRate: int)
    ensures var k := FirstAt(items, vatRate);
      FirstAt(items + [item], vatRate) == if k < |items| || item.vatRate == vatRate then k else k + 1
  {
    var longer := items + [item];
    assert forall i :: 0 <= i < |items| ==> longer[i] == items[i];
    assert longer[|items|] == item;
  }

  lemma RateOneMore(items: seq<Item>, item: Item, vatRate: int, sign: int)
    ensures NetAt(items + [item], vatRate) * sign
         == NetAt(items, vatRate) * sign + if item.vatRate == vatRate then item.netOre * sign else 0
    ensures VatAt(items + [item], vatRate) * sign
         == VatAt(items, vatRate) * sign + if item.vatRate == vatRate then item.vatOre * sign else 0
  {
    assert (items + [item])[..|items|] == items;
  }

  lemma {:induction false} AbsentRate(items: seq<Item>, vatRate: int)
    requires FirstAt(items, vatRate) == |items|
    ensures NetAt(items, vatRate) == 0 && VatAt(items, vatRate) == 0
  {
    if items != [] {
      var n := |items| - 1;
      assert items == items[..n] + [items[n]];
      FirstStays(items[..n], items[n], vatRate);
      AbsentRate(items[..n], vatRate);
    }
  }

  lemma UngroupedIsAbsent(groups: seq<Group>, items: seq<Item>, vatRate: int)
    requires (forall i :: 0 <= i < |items| ==> HasGroup(groups, items[i].vatRate)) && !HasGroup(groups, vatRate)
    ensures FirstAt(items, vatRate) == |items|
  {
    assert forall i :: 0 <= i < |items| ==> HasGroup(groups, items[i].vatRate);
  }

  lemma GroupStays(group: Group, items: seq<Item>, item: Item, sign: int)
    requires IsGroupOf(group, items, sign) && group.vatRate != item.vatRate
    ensures IsGroupOf(group, items + [item], sign)
    ensures FirstAt(items + [item], group.vatRate) == FirstAt(items, group.vatRate)
  {
    FirstStays(items, item, group.vatRate);
    RateOneMore(items, item, group.vatRate, sign);
  }

  lemma GroupGrows(group: Group, items: seq<Item>, item: Item, sign: int)
    requires IsGroupOf(group, items, sign) && group.vatRate == item.vatRate
    ensures IsGroupOf(Group(item.vatRate, group.net + item.netOre * sign, group.vat + item.vatOre * sign),
                      items + [item], sign)
    ensures FirstAt(items + [item], item.vatRate) == FirstAt(items, item.vatRate)
  {
    FirstStays(items, item, item.vatRate);
    RateOneMore(items, item, item.vatRate, sign);
  }

  lemma NewGroup(items: seq<Item>, item: Item, sign: int)
    requires FirstAt(items, item.vatRate) == |items|
    ensures IsGroupOf(Group(item.vatRate, item.netOre * sign, item.vatOre * sign), items + [item], sign)
    ensures FirstAt(items + [item], item.vatRate) == |items|
  {
    FirstStays(items, item, item.vatRate);
    AbsentRate(items, item.vatRate);
    assert (items + [item])[..|items|] == items;
    assert NetAt(items + [item], item.vatRate) == item.netOre && VatAt(items + [item], item.vatRate) == item.vatOre;
  }

  /** What adding does to the groups themselves: each keeps its place and its rate. */
  lemma AddedGroupIsOf(groups: seq<Group>, items: seq<Item>, item: Item, sign: int, j: nat)
    requires GroupsOf(groups, items, sign) && j < |groups|
    ensures var added := AddToGroups(groups, item.vatRate, item.netOre * sign, item.vatOre * sign);
      && j < |added| && added[j].vatRate == groups[j].vatRate
      && IsGroupOf(added[j], items + [item], sign)
      && FirstAt(items + [item], groups[j].vatRate) == FirstAt(items, groups[j].vatRate)
  {
    var k := FindGroup(groups, item.vatRate);
    assert IsGroupOf(groups[j], items, sign);
    if j == k {
      GroupGrows(groups[k], items, item, sign);
    } else {
      OtherRate(groups, items, sign, j, k, item.vatRate);
      GroupStays(groups[j], items, item, sign);
    }
  }

  lemma AddedGroups(groups: seq<Group>, items: seq<Item>, item: Item, sign: int)
    requires GroupsOf(groups, items, sign)
    ensures GroupsOf(AddToGroups(groups, item.vatRate, item.netOre * sign, item.vatOre * sign), items + [item], sign)
  {
    var k := FindGroup(groups, item.vatRate);
    var added := AddToGroups(groups, item.vatRate, item.netOre * sign, item.vatOre * sign);
    forall j | 0 <= j < |groups|
      ensures added[j].vatRate == groups[j].vatRate && IsGroupOf(added[j], items + [item], sign)
      ensures FirstAt(items + [item], groups[j].vatRate) == FirstAt(items, groups[j].vatRate)
    {
      AddedGroupIsOf(groups, items, item, sign, j);
    }
    if k == |groups| {
      UngroupedIsAbsent(groups, items, item.vatRate);
      NewGroup(items, item, sign);
    }
    EveryRateHasGroup(groups, added, items, item, k);
  }

  lemma EveryRateHasGroup(groups: seq<Group>, added: seq<Group>, items: seq<Item>, item: Item, k: nat)
    requires |groups| <= |added| && forall j :: 0 <= j < |groups| ==> added[j].vatRate == groups[j].vatRate
    requires k < |added| && added[k].vatRate == item.vatRate
    requires forall i :: 0 <= i < |items| ==> HasGroup(groups, items[i].vatRate)
    ensures forall i :: 0 <= i < |items + [item]| ==> HasGroup(added, (items + [item])[i].vatRate)
  {
    forall i | 0 <= i < |items + [item]|
      ensures HasGroup(added, (items + [item])[i].vatRate)
    {
      if i < |items| {
        assert HasGroup(groups, items[i].vatRate);
        var j :| 0 <= j < |groups| && groups[j].vatRate == items[i].vatRate;
        assert added[j].vatRate == items[i].vatRate;
      } else {
        assert added[k].vatRate == item.vatRate;
      }
    }
  }

  lemma OtherRate(groups: seq<Group>, items: seq<Item>, sign: int, j: nat, k: nat, vatRate: int)
    requires GroupsOf(groups, items, sign) && j < |groups| && j != k
    requires k <= |groups| && (k < |groups| ==> groups[k].vatRate == vatRate)
    requires k == |groups| ==> !HasGroup(groups, vatRate)
    ensures groups[j].vatRate != vatRate
  {
  }

  /** The byRate map, whatever the lines: nothing about it depends on how it was filled. */
  lemma {:induction false} GroupsAreOfLines(items: seq<Item>, sign: int)
    ensures GroupsOf(GroupByRate(items, sign), items, sign)
  {
    if items != [] {
      var n := |items| - 1;
      GroupsAreOfLines(items[..n], sign);
      AddedGroups(GroupByRate(items[..n], sign), items[..n], items[n], sign);
      assert items[..n] + [items[n]] == items;
    }
  }

  function NetAndVat(sales: Account, net: int, output: Account, vat: int): seq<Posting> {
    [Posting(sales, -net)] + if vat == 0 then [] else [Posting(output, -vat)]
  }

  /** A group posts its net, and its VAT right after it unless that is nothing. */
  lemma GroupInFigures(net: int, vat: int)
    ensures GroupPosting(Group(2500, net, vat)) == NetAndVat(3001, net, 2611, vat)
    ensures GroupPosting(Group(1200, net, vat)) == NetAndVat(3002, net, 2621, vat)
    ensures GroupPosting(Group(600, net, vat)) == NetAndVat(3003, net, 2631, vat)
    ensures GroupPosting(Group(0, net, vat)) == [Posting(3004, -net)]
  {
  }

  // --- The journal of a period ---

  predicate Within(t: Time, from: Time, to: Time) {
    from <= t < to
  }

  /** Ledger rows created in [from, to), oldest first. */
  function RowsBetween(ledger: seq<Row>, from: Time, to: Time): (rows: seq<Row>)
    ensures forall i :: 0 <= i < |rows| ==> rows[i] in ledger
    ensures forall row :: row in rows <==> row in ledger && from <= row.createdAt < to
  {
    if ledger == [] then []
    else
      var last := ledger[|ledger| - 1];
      RowsBetween(ledger[..|ledger| - 1], from, to) + if Within(last.createdAt, from, to) then [last] else []
  }

  /** Consecutive periods split the ledger: every row of the whole is in exactly one of the two, as often
      as it is in the whole. */
  lemma {:induction false} PeriodsSplitTheLedger(ledger: seq<Row>, from: Time, mid: Time, to: Time)
    requires from <= mid <= to
    ensures multiset(RowsBetween(ledger, from, to))
         == multiset(RowsBetween(ledger, from, mid)) + multiset(RowsBetween(ledger, mid, to))
    ensures forall row :: row in RowsBetween(ledger, from, mid) ==> row !in RowsBetween(ledger, mid, to)
  {
    if ledger != [] {
      PeriodsSplitTheLedger(ledger[..|ledger| - 1], from, mid, to);
    }
  }

  predicate RowsHaveInvoices(db: Db, rows: seq<Row>) {
    forall i :: 0 <= i < |rows| ==> Live(db, rows[i].invoiceId)
  }

  function Verifications(db: Db, rows: seq<Row>): seq<Verification>
    requires RowsHaveInvoices(db, rows)
  {
    if rows == [] then []
    else
      var last := rows[|rows| - 1];
      var v := VerificationOf(last, At(db, last.invoiceId));
      Verifications(db, rows[..|rows| - 1]) + if v.Some? then [v.value] else []
  }

  /** The collecting loop of sieExport. */
  method CollectVerifications(db: Db, rows: seq<Row>) returns (verifications: seq<Verification>, skipped: nat)
    requires RowsHaveInvoices(db, rows)
    ensures verifications == Verifications(db, rows)
    ensures |verifications| + skipped == |rows|
  {
    verifications, skipped := [], 0;
    for i := 0 to |rows|
      invariant verifications == Verifications(db, rows[..i])
      invariant |verifications| + skipped == i
    {
      assert rows[..i + 1][..i] == rows[..i];
      var verification := ToVerification(rows[i], At(db, rows[i].invoiceId));
      if verification.Some? {
        verifications := verifications + [verification.value];
      } else {
        skipped := skipped + 1;
      }
    }
    assert rows[..|rows|] == rows;
  }

  // --- Sums over postings ---

  function SumPostings(postings: seq<Posting>): int {
    if postings == [] then 0 else SumPostings(postings[..|postings| - 1]) + postings[|postings| - 1].amountOre
  }

  function PostedTo(postings: seq<Posting>, account: Account): int {
    if postings == [] then 0
    else
      var last := postings[|postings| - 1];
      PostedTo(postings[..|postings| - 1], account) + if last.account == account then last.amountOre else 0
  }

  function JournalPosted(journal: seq<Verification>, account: Account): int {
    if journal == [] then 0
    else JournalPosted(journal[..|journal| - 1], account) + PostedTo(journal[|journal| - 1].transactions, account)
  }

  // --- VAT per rate ---

  function NetAt(items: seq<Item>, vatRate: int): int {
    if items == [] then 0
    else
      var last := items[|items| - 1];
      NetAt(items[..|items| - 1], vatRate) + if last.vatRate == vatRate then last.netOre else 0
  }

  function VatAt(items: seq<Item>, vatRate: int): int {
    if items == [] then 0
    else
      var last := items[|items| - 1];
      VatAt(items[..|items| - 1], vatRate) + if last.vatRate == vatRate then last.vatOre else 0
  }

  function LinesAt(items: seq<Item>, vatRate: int): nat {
    if items == [] then 0
    else LinesAt(items[..|items| - 1], vatRate) + if items[|items| - 1].vatRate == vatRate then 1 else 0
  }

  /** A document counts in the period it was sent in; a draft in none. */
  predicate IssuedWithin(slot: Option<Invoice>, from: Time, to: Time) {
    slot.Some? && slot.value.status != DRAFT && slot.value.sentAt.Some? && Within(slot.value.sentAt.value, from, to)
  }

  datatype VatRow = VatRow(vatRate: int, netOre: int, vatOre: int, lineCount: nat)

  function VatRowOf(invoices: seq<Option<Invoice>>, vatRate: int, from: Time, to: Time): VatRow {
    if invoices == [] then VatRow(vatRate, 0, 0, 0)
    else
      var before := VatRowOf(invoices[..|invoices| - 1], vatRate, from, to);
      var last := invoices[|invoices| - 1];
      if !IssuedWithin(last, from, to) then before
      else
        VatRow(vatRate, before.netOre + NetAt(last.value.items, vatRate),
               before.vatOre + VatAt(last.value.items, vatRate),
               before.lineCount + LinesAt(last.value.items, vatRate))
  }

  /** SUM ... GROUP BY vatRate ORDER BY vatRate DESC, over the rates an item can have. */
  function SumVatByRate(invoices: seq<Option<Invoice>>, from: Time, to: Time): seq<VatRow> {
    Present(VatRowOf(invoices, 2500, from, to)) + Present(VatRowOf(invoices, 1200, from, to))
    + Present(VatRowOf(invoices, 600, from, to)) + Present(VatRowOf(invoices, 0, from, to))
  }

  function Present(row: VatRow): seq<VatRow> {
    if row.lineCount == 0 then [] else [row]
  }

  /** Which lines are at the rate. */
  function PlacesAt(items: seq<Item>, vatRate: int): (places: set<nat>)
    ensures forall i: nat :: i in places <==> i < |items| && items[i].vatRate == vatRate
  {
    set i: nat | i < |items| && items[i].vatRate == vatRate
  }

  lemma PlacesOneMore(items: seq<Item>, vatRate: int)
    requires items != []
    ensures var n := |items| - 1;
      PlacesAt(items, vatRate)
      == PlacesAt(items[..n], vatRate) + if items[n].vatRate == vatRate then {n} else {}
  {
  }

  /** The lines at a rate are counted one by one. */
  lemma {:induction false} LinesAreCounted(items: seq<Item>, vatRate: int)
    ensures LinesAt(items, vatRate) == |PlacesAt(items, vatRate)|
  {
    if items == [] {
      assert PlacesAt(items, vatRate) == {};
    } else {
      var n := |items| - 1;
      LinesAreCounted(items[..n], vatRate);
      PlacesOneMore(items, vatRate);
      assert n !in PlacesAt(items[..n], vatRate);
    }
  }

  /** Every line of every document sent in the period. */
  function LinesIssued(invoices: seq<Option<Invoice>>, from: Time, to: Time): seq<Item> {
    if invoices == [] then []
    else
      var last := invoices[|invoices| - 1];
      LinesIssued(invoices[..|invoices| - 1], from, to)
      + if && last.Some? && last.value.status != DRAFT && last.value.sentAt.Some?
           && from <= last.value.sentAt.value < to
        then last.value.items else []
  }

  lemma {:induction false} RatesAppend(a: seq<Item>, b: seq<Item>, vatRate: int)
    ensures NetAt(a + b, vatRate) == NetAt(a, vatRate) + NetAt(b, vatRate)
    ensures VatAt(a + b, vatRate) == VatAt(a, vatRate) + VatAt(b, vatRate)
    ensures LinesAt(a + b, vatRate) == LinesAt(a, vatRate) + LinesAt(b, vatRate)
  {
    if b == [] {
      assert a + b == a;
    } else {
      assert (a + b)[..|a| + |b| - 1] == a + b[..|b| - 1];
      RatesAppend(a, b[..|b| - 1], vatRate);
    }
  }

  /** A row of the report is about all these lines together. */
  lemma {:induction false} RowIsOfLines(invoices: seq<Option<Invoice>>, vatRate: int, from: Time, to: Time)
    ensures var lines := LinesIssued(invoices, from, to);
      VatRowOf(invoices, vatRate, from, to)
      == VatRow(vatRate, NetAt(lines, vatRate), VatAt(lines, vatRate), |PlacesAt(lines, vatRate)|)
  {
    LinesAreCounted(LinesIssued(invoices, from, to), vatRate);
    if invoices != [] {
      var n := |invoices| - 1;
      RowIsOfLines(invoices[..n], vatRate, from, to);
      LinesAreCounted(LinesIssued(invoices[..n], from, to), vatRate);
      if invoices[n].Some? {
        RatesAppend(LinesIssued(invoices[..n], from, to), invoices[n].value.items, vatRate);
      }
      assert LinesIssued(invoices[..n], from, to) + [] == LinesIssued(invoices[..n], from, to);
    }
  }

  /** The report has a row for each rate that was invoiced, the highest first, and no others. */
  predicate RatesInOrder(rows: seq<VatRow>) {
    && (forall i :: 0 <= i < |rows| ==> rows[i].lineCount > 0)
    && (forall i, j :: 0 <= i < j < |rows| ==> rows[i].vatRate > rows[j].vatRate)
  }

  lemma ReportHasItsRows(invoices: seq<Option<Invoice>>, from: Time, to: Time)
    ensures var rows := SumVatByRate(invoices, from, to);
      && RatesInOrder(rows)
      && forall row :: row in rows <==>
           && (row.vatRate == 2500 || row.vatRate == 1200 || row.vatRate == 600 || row.vatRate == 0)
           && row == VatRowOf(invoices, row.vatRate, from, to) && row.lineCount > 0
  {
    RateOfRow(invoices, 2500, from, to);
    RateOfRow(invoices, 1200, from, to);
    RateOfRow(invoices, 600, from, to);
    RateOfRow(invoices, 0, from, to);
  }

  lemma RateOfRow(invoices: seq<Option<Invoice>>, vatRate: int, from: Time, to: Time)
    ensures VatRowOf(invoices, vatRate, from, to).vatRate == vatRate
  {
  }

  function SumVatRows(rows: seq<VatRow>): (int, int) {
    if rows == [] then (0, 0)
    else
      var (net, vat) := SumVatRows(rows[..|rows| - 1]);
      (net + rows[|rows| - 1].netOre, vat + rows[|rows| - 1].vatOre)
  }
}
