# Fakturly: a verified model

Fakturly issues invoices, collects payments and reports on both. This project models the parts of
it where money, numbers or sessions could go wrong, and proves what they promise: for every input,
every order of events and every reachable state.

Five parts, each with its own modules.

1. **The receivables ledger** (`Money`, `Ledger`, `Books`, `Workflow`, `Interleavings`,
   `Guarantees`, `PlainTerms`, `Witnesses`, `Database`, `Services`, `Calls`). `Ledger` states each database transaction as a function on
   the tables' contents; `Database.Tables` is the repositories as written, guarded updates and
   inserts on tables that change in place, each method proved against its function; `Services` is the
   service code on top of it. `Workflow` lets the services run against each other: a service that
   reads outside its transaction keeps what it read in a task, and any other event may come in
   between, so every guard meets stale reads. `Calls` proves that a service call with nothing in
   between is its events in a row. `Guarantees` holds the results over all runs, and `PlainTerms` says
   what they come to in öre, milliseconds and account numbers.
2. **Reports** (`Reports`, `Aging`, `Reconciliation`, `Sie`, `SieBytes`, `SieExport`, `Csv`,
   `Text`). Journal, VAT
   report and aging report are computed separately from the same tables and proved to agree on every
   reachable state; the SIE and CSV printers are proved against readers.
3. **Sessions** (`Tokens`, `Browser`). Refresh-token rotation with theft detection on the server, under
   requests from anyone; and one browser tab with its single-flight refresh, any number of concurrent
   calls, late 401s, logins, logouts, reloads and a network that delays, reorders and loses.
4. **The gate in front of expensive work** (`Gate`).
5. **References and addresses** (`Ocr`, `Numbering`, `ClientIp`).

## Where the code and its comments part

The model follows the code. These results say exactly how far.

- The comment on `refresh` says a legitimate client never presents a spent token. A lost answer can make
  it. `Browser.AlarmIffPresentedAgain` says over whole runs when the server takes the browser for a
  thief: if and only if two requests with one token arrive, the first is exchanged, and the login is not
  revoked before the second. `Browser.AlarmsNeedALoss` says that this takes a lost answer, and
  `Browser.LossRaisesTheAlarmIff` that one loss and one retry are enough, if and only if the lost
  request reaches the server at all, be it after the retry. `Browser.QuietStateIsReached` shows that
  such states occur.
- The rotation write looks neither at `rotatedAt` nor at `revokedAt`. `Tokens.RotationNeedsALiveToken`:
  it keeps the rules of families if and only if the token is still live at the write. On a token spent
  since the lookup it leaves two live tokens (`Tokens.RotationDoublesIff`), on one revoked since the
  lookup it brings a dead login back (`Tokens.RotationRevivesADeadFamily`). `Tokens.LateWriteIsSafeIff`
  states the condition over runs, with anything between a lookup that granted the token and the write;
  `Tokens.TwoWritesDouble` and `Tokens.LogoutIsUndone` are such runs.
- The comment on the client's `logout` says the user is left signed out whatever happens. A refresh under
  way at the time signs the client in again when its answer is read, and that is the only way without
  beginning anything new: `Browser.LogoutSticksIff`, and `Browser.LogoutComesUndone` for a run.
- A session that names no amount is booked at what was due when the delivery looked.
  `Guarantees.PaidShortByTheFees`: the paid invoice then still owes exactly the fees added since.
- The number series has gaps, as its comments admit. `Guarantees.GapsAreDroppedNumbers` says which: a
  number has no holder if and only if a call failed with it in hand, a credit note was refused with it, or
  the draft that carried it was deleted. `Witnesses.DeletedDraftLeavesGap` is a run with one.
- The overdue run adds a candidate's interest to its summary even if the guarded write matched nothing.
  Undisturbed, its sum is the ledger's (`Services.RunOverdueCheck`); with events in between,
  `Guarantees.ReportMatchesLedgerIffOpen` says of the same amounts when they are, and `Witnesses.ReportExceedsLedger` is a run in
  which ten kronor are reported and none are on the ledger.
- The overdue write is an absolute fee computed from what was read:
  `Guarantees.AccrualNeedsCurrentFee` says exactly when the ledger still explains it, and why there is
  one runner; with two, `Guarantees.TwoRunnersChargeTwice` and `Witnesses.TwoRunnersMeet` put the same
  interest on the ledger twice.
- The worked reference in the comment of backend/src/lib/ocr.ts ends in 8; the code gives 9:
  `Numbering.DocumentedExample`.
- The comment in backend/src/lib/clientIp.ts says an IPv4 client seen through an IPv6 socket does not
  share a bucket with every other one. `ClientIp.Ipv4KeyIffRecognised`: it has the key of its IPv4 address
  if and only if its text is the dotted form the code recognises; every other spelling of every such
  address has one and the same key, which is no IPv4 address's.
- The journal of a credit note negates the original's lines; its comment says it uses the note's own.
  The two agree (`Reconciliation.VatReportAgreesWithJournal`).
- A CSV row without cells reads back as a row with one empty cell, and a guarded cell with a tab in
  front. `Csv.RoundTripIff`: nothing else stands between a table and its round trip.
- A SIE file loses what its character set does not have. `SieExport.ExportBytesReadBackIff`: that is
  never anything the program writes itself.
- A gate with `maxActive` below one never runs anything: `Gate.WorkRunsIff`.

## Model

| member | source | states |
|---|---|---|
| Money.SumLines | backend/src/lib/money.ts:96-113 | the loop returns the sum of nets, the sum of VAT and their sum |
| Money.RoundOreIsNearest | backend/src/lib/money.ts:52-54 | r is the rounding of a value if and only if it is the nearest integer, and of two equally near the one farther from zero |
| Money.RoundOreIsOdd | backend/src/lib/money.ts:52-54 | rounding minus a value is minus rounding it |
| Money.RoundOreIsMonotone | backend/src/lib/money.ts:52-54 | a larger value never rounds lower |
| Money.MirroredLine | backend/src/lib/money.ts:63-72 | negating the quantity of a line negates its net, VAT and gross exactly |
| Money.LineInFigures | backend/src/lib/money.ts:63-72 | the net of a line is quantity times unit price, its VAT the rate's share of that to the nearest öre (half away from zero), and its gross the two together |
| Money.NetTotalIsThePrices | backend/src/lib/money.ts:96-113 | the net total of any lines is the sum of quantity times unit price |
| Money.MirroredTotals | backend/src/services/invoice.service.ts:336-355 | the totals of the mirrored lines are minus the original totals, for any lines |
| Money.GrossIsSumOfLineGross | backend/src/lib/money.ts:80-113 | gross computed as net plus VAT equals the sum of the line gross figures |
| Money.RoundingBound | backend/src/lib/money.ts:80-113 | over n lines, rounding moves the VAT total by at most n halves of an öre |
| Money.DaysBetweenIsMonotone | backend/src/lib/money.ts:256-259 | a later instant is never fewer days late |
| Money.LateInterestIsMonotone | backend/src/lib/money.ts:228-241 | interest is never negative and never falls as days pass |
| Money.InterestInFigures | backend/src/lib/money.ts:228-241 | on a positive amount after at least one day, interest is the nearest öre to amount times (reference rate + 8 points) times days over a 365-day year; otherwise it is zero |
| Money.DaysInMilliseconds | backend/src/lib/money.ts:256-259 | d days late means at least d and less than d + 1 times 86 400 000 milliseconds, and none means not late |
| PlainTerms.DocumentsAddUp | backend/src/services/invoice.service.ts:46-66 | after any run, on every draft, invoice and credit note: each line's net is quantity times price at a Swedish rate, its VAT the nearest öre to the rate's share, its gross the sum; and the totals are those of the lines |
| PlainTerms.NotesTakeBack | backend/src/services/invoice.service.ts:334-355 | after any run every credit note has its invoice's lines in their places at the same prices and rates, with quantity and every figure negated, and minus its totals |
| PlainTerms.FeeInFigures | backend/src/services/overdue.service.ts:39-116 | with clocks that do not run backward, the fee on an invoice is ten per cent a year on its gross total for the whole days of 86 400 000 milliseconds from the due date to the last run that found it open, to the nearest öre, and nothing before a day has passed |
| PlainTerms.FeeIsTheLargestOwed | backend/src/services/overdue.service.ts:39-116 | whatever the clocks do, no run that found the invoice open owed more than the fee, and one owed just that |
| PlainTerms.BooksInFigures | backend/src/services/report.service.ts:234-303 | after any run and over all years: account 8313 is minus the late fees of the invoices sent and not credited, 3590 minus their reminder fees, and 1930 every payment that was answered as handled |
| PlainTerms.VatInFigures | backend/src/services/report.service.ts:198-215 | for every run and period: 3001 and 2611 are minus the report's net and VAT at 25 %, 3002 and 2621 at 12 %, 3003 and 2631 at 6 %, and 3004 minus the net at 0 %, which carries no VAT |
| PlainTerms.JournalsAddUp | backend/src/repositories/report.repository.ts:118-140 | for every run: the journals of two consecutive periods post to each account what the journal of both together posts |
| PlainTerms.VatOfPeriods | backend/src/repositories/report.repository.ts:71-91 | the VAT report of a period is the reports of its two parts added up, in net, VAT and lines, rate by rate |
| Books.CreateKeepsSound | backend/src/repositories/invoice.repository.ts:148-166 | inserting a draft keeps the books: it owns no ledger row and its totals are those of its lines |
| Books.MarkSentKeepsSound | backend/src/repositories/invoice.repository.ts:184-214 | sending keeps the books and moves only a draft, whatever the caller read before |
| Books.MarkPaidKeepsSound | backend/src/repositories/invoice.repository.ts:287-326 | paying keeps the books and moves only an open invoice |
| Books.ClaimAndPayKeepsSound | backend/src/repositories/webhookEvent.repository.ts:62-72 | claim and payment in one transaction keep the books, whether claimed before or not |
| Books.DeleteDraftKeepsSound | backend/src/repositories/invoice.repository.ts:340-345 | deleting keeps the books: only drafts go, so no ledger row loses its invoice |
| Books.CreditKeepsSound | backend/src/repositories/invoice.repository.ts:387-465 | a credit note keeps the books: the original is credited and balanced to zero, fees waived, the note linked and owning no row, at most one note per invoice |
| Books.ReminderKeepsSound | backend/src/repositories/invoice.repository.ts:481-507 | charging the reminder fee keeps the books: one row for one fee, once |
| Books.OverdueKeepsSound | backend/src/services/overdue.service.ts:129-171 | writing an absolute fee with a row for the increment keeps the books when the increment is from the fee on the row |
| Books.AllocateKeepsSound | backend/src/repositories/invoiceNumber.repository.ts:31-48 | allocating a number touches nothing but its year's counter |
| Interleavings.StepKeepsInv | backend/src/services/invoice.service.ts:214-224 | every event of every service, with whatever stale reads it holds, keeps the books sound, rewrites no history and changes statuses only as the table allows |
| Interleavings.StepKeepsRun | backend/src/services/overdue.service.ts:39-116 | what the overdue run read of its candidates stays a safe basis for its writes under all other events |
| Interleavings.StepKeepsInterest | backend/src/services/overdue.service.ts:129-171 | the fee on an invoice stays the largest interest of the runs that took effect |
| Interleavings.StepKeepsPayments | backend/src/services/payment.service.ts:130-213 | payments answered as handled, payment rows and claims stay in step |
| Interleavings.StepKeepsNumbers | backend/src/repositories/invoiceNumber.repository.ts:31-48 | no two holders of a number, documents or calls in progress, ever have the same one |
| Guarantees.RunIsSound | backend/src/repositories/invoice.repository.ts:184-507 | every invariant holds after every run |
| Guarantees.LedgerBalances | backend/src/repositories/invoice.repository.ts:184-507 | an invoice's ledger balance is what is due while open, zero when credited, due minus received when paid, zero for drafts and credit notes |
| Guarantees.OnlyIssuedInvoicesOwnRows | backend/src/repositories/invoice.repository.ts:130-147 | every ledger row belongs to a live, issued invoice |
| Guarantees.StatusesFollowTheTable | backend/src/services/invoice.service.ts:214-224 | every committed status change, in any interleaving, is a move of the declared table: DRAFT to SENT, SENT to PAID, OVERDUE or CREDITED, OVERDUE to PAID or CREDITED, and no other |
| Guarantees.HistoryOnlyGrows | backend/src/repositories/invoice.repository.ts:184-507 | rows are only appended, documents never rewritten, paid and credited final, issued documents never deleted, counters and claims only grow |
| Guarantees.CreditedOnce | backend/src/repositories/invoice.repository.ts:387-465 | an invoice is credited if and only if exactly one note names it, and the note mirrors its lines and negates its total |
| Guarantees.RemindedAtMostOnce | backend/src/repositories/invoice.repository.ts:481-507 | the reminder fee, sixty kronor, is on the ledger once if it is on the invoice, and never otherwise |
| Guarantees.InterestIsTheMaximum | backend/src/services/overdue.service.ts:39-171 | LATE_FEE_ADDED rows sum to the fee, and the fee is the largest interest at any run that found the invoice open |
| Guarantees.InterestIsTheLastRuns | backend/src/services/overdue.service.ts:39-171 | with clocks that do not run backward it is the interest of the last effective run, however many came before |
| Guarantees.AccrualNeedsCurrentFee | backend/src/services/overdue.service.ts:129-171 | a turn that writes leaves the ledger explaining the invoice if and only if the fee it read is still on the row |
| Guarantees.TwoRunnersChargeTwice | backend/src/services/overdue.service.ts:76-98 | two runners that read an open invoice with interest to charge before either wrote put the increment on the ledger twice and on the invoice once |
| Witnesses.TwoRunnersMeet | backend/src/services/overdue.service.ts:76-98 | a run reaches a state in which two runners do that |
| Guarantees.ReportMatchesLedgerIffOpen | backend/src/services/overdue.service.ts:77-116 | what the run reports for a candidate is what it wrote if and only if there was nothing to charge or the invoice was open at the write |
| Guarantees.PaidBeforeItsTurn | backend/src/services/overdue.service.ts:88-99 | after any run, a payment committed between the candidate query and the candidate's turn makes the run report interest while the ledger's interest rows for the invoice stay as they were |
| Witnesses.ReportExceedsLedger | backend/src/services/overdue.service.ts:88-99 | a run from the empty tables that reports 1000 öre of interest while the ledger holds none for the invoice |
| Guarantees.ExactlyOnce | backend/src/services/payment.service.ts:130-213 | over duplicated, reordered and failing deliveries an event is committed at most once, and an invoice has one payment row if it is paid and none otherwise |
| Guarantees.CommitOutcomes | backend/src/services/payment.service.ts:130-213 | a committed delivery wrote one payment for an open invoice, or met one that was not open, or was a repeat; the last two move no money |
| Guarantees.RetryAfterRollback | backend/src/repositories/webhookEvent.repository.ts:49-72 | a delivery that throws after its claim leaves the tables as they were; after it and anything else, a retry is handled and writes its one row if and only if no delivery of the event was committed in between and the invoice is still open, and otherwise moves nothing |
| Guarantees.PaidShortByTheFees | backend/src/services/payment.service.ts:164-187 | where the session names no amount, a paid invoice still owes exactly the fees added between the delivery's lookup and its commit, and nothing if and only if none were |
| Guarantees.NumbersAreUnbroken | backend/src/repositories/invoiceNumber.repository.ts:31-48 | the numbers handed out for a year are 1 to k in order, whatever failed or was deleted; which of them documents carry is the next row's subject |
| Guarantees.GapsAreDroppedNumbers | backend/src/repositories/invoice.repository.ts:142-147 | after any run an allocated number is held by a document or a call in progress if and only if no event dropped it: a failed call that had it in hand, a credit note refused at its write, a deleted draft |
| Witnesses.DeletedDraftLeavesGap | backend/src/repositories/invoice.repository.ts:340-345 | a run after which number 1 is allocated and nobody holds it |
| Guarantees.NumbersAreUnique | backend/src/repositories/invoiceNumber.repository.ts:31-48 | two documents never share a number |
| Database.Tables.AllocateInvoiceNumber | backend/src/repositories/invoiceNumber.repository.ts:31-48 | insert or increment of the year's counter, returning the new number |
| Database.Tables.CreateInvoiceWithItems | backend/src/repositories/invoice.repository.ts:148-166 | inserts a draft with its items and nothing else |
| Database.Tables.MarkSent | backend/src/repositories/invoice.repository.ts:184-214 | compare-and-set on DRAFT, then one ledger row; nothing at all otherwise |
| Database.Tables.MarkPaidWithin | backend/src/repositories/invoice.repository.ts:287-326 | compare-and-set on SENT or OVERDUE, then one payment row of the amount received |
| Database.Tables.DeleteDraftInvoice | backend/src/repositories/invoice.repository.ts:340-345 | deletes a draft and reports whether there was one |
| Database.Tables.CreateCreditNote | backend/src/repositories/invoice.repository.ts:387-465 | credits an open original, inserts the note, posts the credit and the waivers of the fees the original carried |
| Database.Tables.ChargeReminderFee | backend/src/repositories/invoice.repository.ts:481-507 | charges an open invoice without a fee, once |
| Database.Tables.ApplyOverdue | backend/src/services/overdue.service.ts:129-171 | writes status and absolute fee on an open invoice and a row for a positive increment |
| Database.Tables.ClaimEvent | backend/src/repositories/webhookEvent.repository.ts:26-47 | inserts the event id if absent and reports whether it did |
| Database.Tables.ClaimEventAndRun | backend/src/repositories/webhookEvent.repository.ts:62-72 | claims and pays as one step, with the outcome the service reports; thrown out of after the claim or after the work, it has put the tables back |
| Services.CreateInvoice | backend/src/services/invoice.service.ts:35-101 | a zero total is refused before a number is spent; otherwise a number of the year is taken and a draft inserted with the client, due date and lines asked for, no fees and no ledger row |
| Services.SendInvoice | backend/src/services/invoice.service.ts:234-285 | succeeds exactly on drafts, and then dates the invoice and puts its gross total on the ledger; refused, it changes nothing and says why |
| Services.DeleteDraft | backend/src/services/invoice.service.ts:469-499 | succeeds exactly on drafts, and then nothing but the draft is gone |
| Services.IssueCreditNote | backend/src/services/invoice.service.ts:312-388 | undisturbed, succeeds exactly on open invoices and spends a number only then; the note has the invoice's client and lines with negated quantities, and the invoice's ledger its total and minus each fee |
| Services.SendReminder | backend/src/services/invoice.service.ts:413-459 | succeeds exactly on open invoices; the first reminder puts 6000 öre on invoice and ledger and reports it, and no other changes anything |
| Services.HandleStripeEvent | backend/src/services/payment.service.ts:130-236 | every one of the eight outcomes has its exact condition; a handled event is for the invoice it names and books the session's amount, or all that is due where it names none; every early return, and a transaction that throws, leaves the tables as they were and the event unclaimed |
| Services.RunOverdueCheck | backend/src/services/overdue.service.ts:39-116 | read off the tables before and after: the summary counts the invoices SENT or OVERDUE whose due date had passed and those that went from SENT to OVERDUE, and its interest is the sum of the ledger rows appended |
| Services.RunBringsUpToDate | backend/src/services/overdue.service.ts:39-116 | an undisturbed run brings every invoice SENT or OVERDUE with a due date before the run up to date with rows for exactly the difference, adds no row but positive LATE_FEE_ADDED ones, and touches no other invoice, claim or counter |
| Services.SecondRunChangesNothing | backend/src/services/overdue.service.ts:76-86 | a second run at the same time charges and changes nothing |
| Calls.CreateIsItsEvents | backend/src/services/invoice.service.ts:35-101 | from any state, the two events of a creation in a row do what `Services.CreateInvoice` does, for lines that the validator lets through and no others |
| Calls.CreditIsItsEvents | backend/src/services/invoice.service.ts:312-388 | the three events of a credit note in a row do what `Services.IssueCreditNote` does |
| Calls.PaymentIsItsEvents | backend/src/services/payment.service.ts:130-213 | lookup and commit in a row do what `Services.HandleStripeEvent` does |
| Calls.BrokenPaymentIsItsEvents | backend/src/repositories/webhookEvent.repository.ts:49-72 | lookup and a transaction that throws leave the whole state as it was |
| Calls.OverdueIsItsEvents | backend/src/services/overdue.service.ts:39-116 | a run begun and given all its turns does what `Services.RunOverdueCheck` does, with a summary that is right about the tables |
| Calls.OtherCallsAreOneEvent | backend/src/services/invoice.service.ts:234-285 | sending, reminding and deleting are one event each, with the effects that `Services` states and no effect where it refuses |
| Reports.ToVerification | backend/src/services/report.service.ts:234-303 | the entry of each kind of ledger row, dated by the row and named after it: payments move 1930 and 1510, interest added or waived 1510 and 8313, reminder fees 1510 and 3590, documents 1510 and their lines grouped by rate; refunds and adjustments have none |
| Reports.SplitAcrossAccounts | backend/src/services/report.service.ts:239-272 | the posting loop turns the groups into sales and VAT postings, and leaves out a VAT of zero |
| Reports.CollectByRate | backend/src/services/report.service.ts:239-265 | the grouping loop sums net and VAT per rate in order of first appearance |
| Reports.GroupsAreOfLines | backend/src/services/report.service.ts:239-265 | for any lines: one group for each rate on them, in the order the rates are met, with net and VAT at the rate and the row's sign |
| Reports.GroupInFigures | backend/src/services/report.service.ts:260-265 | a group at 25, 12 or 6 % posts minus its net to 3001, 3002 or 3003 and right after it minus its VAT to 2611, 2621 or 2631 unless that is nothing; one at 0 % posts to 3004 only |
| Reports.CollectVerifications | backend/src/services/report.service.ts:312-353 | the collecting loop keeps every entry and counts every row it skips |
| Reports.PeriodsSplitTheLedger | backend/src/repositories/report.repository.ts:118-140 | the ledger rows of a period are those of its two parts, each as often, and no row is in both |
| Reports.RowIsOfLines | backend/src/repositories/report.repository.ts:71-91 | a row of the VAT report is net, VAT and count of the lines at its rate, over all documents sent in the period and not drafts |
| Reports.ReportHasItsRows | backend/src/repositories/report.repository.ts:71-91 | the VAT report has a row for each rate that occurs and no others, the highest first |
| Aging.AgingReport | backend/src/services/report.service.ts:37-97 | exactly one row for each client that owes; in the totals and in every row each bucket is the sum over the invoices late by less than one day, 1 to 31, 31 to 61, 61 to 91, or at least 91 days of 86 400 000 milliseconds; with count and earliest due date; rows sum to the totals, largest first and equal debts in the order in which their clients were met |
| Aging.OpenInvoicesAreOpen | backend/src/repositories/report.repository.ts:25-51 | the report is made from every invoice SENT or OVERDUE, each once and nothing else, with its client, its due date and all that is due on it |
| Aging.AgeOne | backend/src/services/report.service.ts:68-91 | one turn of the loop adds one invoice to one row and one bucket, and keeps the earlier due date |
| Aging.BucketsPartitionTheDebt | backend/src/services/report.service.ts:57-97 | the five buckets sum to the total, and the total is what is owed on any date |
| Aging.OldestIsEarliest | backend/src/services/report.service.ts:64-97 | the oldest due date is that of some invoice and no later than any |
| Reconciliation.BalancesIff | backend/src/services/report.service.ts:234-303 | a document entry balances if and only if its row carries what its lines post; every other mapped entry always does |
| Reconciliation.GroupingConserves | backend/src/services/report.service.ts:239-265 | grouping by rate neither loses nor moves an öre, in sum and account by account |
| Reconciliation.EveryVerificationBalances | backend/src/lib/sie.ts:96-105 | on every reachable ledger every row becomes a zero-sum entry and none is skipped |
| Reconciliation.JournalSumsTheLedger | backend/src/services/report.service.ts:312-353 | the journal's total on an account is the sum over the ledger rows of the period |
| Reconciliation.StepKeepsAgreement | backend/src/repositories/report.repository.ts:71-91 | every event keeps journal and issued lines equal on every revenue and VAT account, for every period |
| Reconciliation.VatReportAgreesWithJournal | backend/src/services/report.service.ts:147-159 | for every run, period and rate, the VAT report's net and VAT are minus the journal's postings on that rate's accounts |
| Reconciliation.VatTotalsAgreeWithJournal | backend/src/services/report.service.ts:147-159 | the VAT report's totals are the whole journal's revenue and output VAT |
| Reconciliation.RowMovesReceivables | backend/src/services/report.service.ts:234-303 | each row moves account 1510 by exactly its effect on the invoice's balance |
| Reconciliation.ReceivablesAgreeWithAging | backend/src/services/report.service.ts:64-97 | account 1510 over all years is the aging total for any date plus what paid invoices fell short |
| Sie.BuildSie | backend/src/lib/sie.ts:79-116 | prints the document's lines if every verification balances, and otherwise names the first that does not |
| Sie.SieReadsBack | backend/src/lib/sie.ts:64-116 | a reader of the printed file recovers accounts, texts, dates, numbers 1 to n and exact amounts |
| Sie.ReadAmountBack | backend/src/lib/sie.ts:64-68 | every amount reads back to the öre, sign included, by a reader that takes exactly two decimals |
| Sie.ReadQuotedBack | backend/src/lib/sie.ts:71-73 | any text survives quoting |
| Sie.TwoReplacementsEscape | backend/src/lib/sie.ts:71-73 | doubling backslashes and then escaping quotes escapes each character once |
| Sie.EncodeCp437 | backend/src/lib/sie.ts:138-149 | the buffer, sized by code units, is never overrun, and the bytes are the characters' |
| Sie.Cp437InvertsIff | backend/src/lib/sie.ts:125-149 | the bytes give the text back if and only if every character is ASCII or in the table |
| Sie.TableIsTheCodePage | backend/src/lib/sie.ts:125-136 | every character of the table goes to its own place in IBM code page 437 |
| SieExport.ExportReadsBack | backend/src/services/report.service.ts:312-353 | after any run the export does not throw, and its text read back holds the chart, every entry under consecutive numbers and on each account what the journal posts |
| SieExport.FileFollowsTheLedger | backend/src/services/report.service.ts:312-353 | after any run the file has one entry for each ledger row of the period, in the order of the ledger, with the row's date, its text and its postings one by one |
| SieExport.EveryAccountIsInChart | backend/src/services/report.service.ts:184-196 | after any run every account that an entry moves is in the chart at the head of the file |
| SieExport.AccountsAreNamedAfterRates | backend/src/services/report.service.ts:184-196 | the sales and VAT accounts of the three rates are named after them |
| SieBytes.BytesReadBack | backend/src/lib/sie.ts:119-149 | the bytes of any printable document, decoded and read, are the document with its unencodable characters replaced, and the document itself if and only if every field is encodable |
| SieExport.ExportBytesReadBackIff | backend/src/services/report.service.ts:312-353 | after any run the exported bytes, decoded and read, are the document if and only if company name, organisation number and dates are encodable |
| Csv.CsvReadsBack | backend/src/lib/csv.ts:65-68 | a reader (section 2 of RFC 4180 with semicolons) of any printed table returns every cell, guarded text for guarded text |
| Csv.FileHasMarkAndEnd | backend/src/lib/csv.ts:65-68 | the file begins with U+FEFF and ends with CR LF |
| Csv.QuotedIff | backend/src/lib/csv.ts:32-50 | a cell is written in quotes if and only if it holds a separator, a quote or a line break |
| Csv.ReadCellBack | backend/src/lib/csv.ts:32-50 | any cell reads back, whatever separators, quotes and line breaks it holds |
| Csv.RoundTripIff | backend/src/lib/csv.ts:32-68 | reading a printed table gives back the text of every cell if and only if no row, the header included, is empty and no cell needs a guard |
| Csv.RowsKeepTheirWidthIff | backend/src/lib/csv.ts:65-68 | a printed table reads back with as many cells in every row as were put in if and only if no row is empty |
| Csv.CellUnchangedIff | backend/src/lib/csv.ts:32-50 | a printed cell reads back as its own text if and only if it needs no guard, and otherwise with one tab in front |
| Csv.NoFormulas | backend/src/lib/csv.ts:32-50 | no cell read back starts with =, +, - or @ unless it is an amount |
| Csv.AmountsAreNotGuarded | backend/src/lib/csv.ts:58-62 | every printed amount has the shape the guard lets through |
| Csv.AmountsReadBack | backend/src/lib/csv.ts:58-62 | every printed amount reads as just the öre it was printed from |
| Csv.IsAmountIff | backend/src/lib/csv.ts:38-41 | the pattern lets a text through if and only if it is an optional minus, digits, a comma and two digits |
| Text.IntTextReadsBack | backend/src/lib/csv.ts:35 | a whole number printed in a cell reads back as itself |
| Tokens.HandleKeepsSound | backend/src/services/auth.service.ts:213-336 | every request, from anyone, keeps the family rules and every stamp once set |
| Tokens.RunsAreSound | backend/src/services/auth.service.ts:213-336 | after every run each family has at most one live token, and no stamp has been cleared or changed |
| Tokens.RefreshHandsOn | backend/src/services/auth.service.ts:213-278 | a refresh succeeds if and only if the token is live, unexpired and its user exists; its successor is then the family's only live token |
| Tokens.RefreshChangesNothingIff | backend/src/services/auth.service.ts:213-278 | a refresh leaves every token as it was if and only if the token is unknown, revoked, or unspent and expired |
| Tokens.RemovedUserIsOut | backend/src/services/auth.service.ts:255-260 | with a token that would have been good a removed user gets nothing, and the login is dead |
| Tokens.UnrevokedHasLive | backend/src/services/auth.service.ts:262-266 | a family that is not revoked has a live token, so an honest holder is not locked out |
| Tokens.RotationNeedsALiveToken | backend/src/repositories/refreshToken.repository.ts:23-38 | the unconditional rotation write keeps the rules of families if and only if the token is live at the write |
| Tokens.RotationDoublesIff | backend/src/repositories/refreshToken.repository.ts:23-38 | it leaves two live tokens in a family if and only if the token was spent and not revoked at the write |
| Tokens.RotationRevivesADeadFamily | backend/src/repositories/refreshToken.repository.ts:23-38 | on a token whose family was revoked it puts a live token into the dead family |
| Tokens.LateWriteIsSafeIff | backend/src/services/auth.service.ts:217-266 | for every run whose lookup grants the token and anything between lookup and write, the write keeps the family rules if and only if the token is still live |
| Tokens.TwoWritesDouble | backend/src/services/auth.service.ts:217-266 | two refreshes of a fresh login, both past their lookups, leave two live tokens |
| Tokens.LogoutIsUndone | backend/src/services/auth.service.ts:217-266 | a logout between lookup and write is undone by the write |
| Tokens.SecondUseEndsTheFamily | backend/src/services/auth.service.ts:198-249 | a token once exchanged gets nothing the second time, and its family has no live token from then on, whatever follows |
| Tokens.LogoutIsForEver | backend/src/services/auth.service.ts:295-314 | logging out with any token of a chain, even a spent one, ends the chain for good |
| Tokens.DeadIsRefusedQuietly | backend/src/services/auth.service.ts:224-230 | after any further requests a dead family has gained no token, and each of its tokens is refused without a further alarm and without a change |
| Tokens.AuthService.CreateRefreshToken | backend/src/repositories/refreshToken.repository.ts:23-38 | one new row, and the rotated one stamped, and nothing else |
| Tokens.AuthService.RevokeFamilyOf | backend/src/repositories/refreshToken.repository.ts:97-103 | token by token: the family's are revoked, stamps already set kept, all others unchanged; the family is dead |
| Tokens.AuthService.RefreshWith | backend/src/services/auth.service.ts:213-278 | the checks in their order do what the outcome function says |
| Tokens.AuthService.LoginAs | backend/src/services/auth.service.ts:127-187 | a new family for an existing user with the right password, nothing otherwise |
| Tokens.AuthService.LogoutWith | backend/src/services/auth.service.ts:295-336 | revokes the family if the token is known, and names in the log row whom the token or else the access token names |
| Tokens.AuthService.RevokeAll | backend/src/repositories/refreshToken.repository.ts:106-112 | token by token: the user's are revoked, stamps already set kept, all others unchanged; with the family rules kept, every login of the user is dead |
| Browser.RunIsSafe | frontend/src/lib/api.ts:84-159 | after every run of calls, refreshes, losses and other people's requests, the client's and the tokens' invariants hold |
| Browser.OneRefreshAtATime | frontend/src/lib/api.ts:84-159 | at most one refresh under way, nobody waiting for one that is over, at most two fetches a call |
| Browser.WaiterGoesOnIff | frontend/src/lib/api.ts:86-112 | in every safe state a call that waits for a refresh goes on exactly at the event that ends that refresh, told truly whether there is a new token |
| Browser.ResumedCallRetriesIff | frontend/src/lib/api.ts:140-145 | it then fetches a second time, with the cookie of the moment, if and only if there is a new token |
| Browser.AnswerEndsCallUnless | frontend/src/lib/api.ts:134-158 | an answer ends its call unless it is a 401 to the first fetch, which waits for the refresh under way |
| Browser.LoginAndLogoutAreServed | backend/src/services/auth.service.ts:127-336 | a served login with the right password is answered with the token of a new family and any other with a 401; a served logout clears the cookie and ends the login it named |
| Browser.AlarmsNeedALoss | backend/src/services/auth.service.ts:232-249 | the server takes the browser for a thief only over a token whose refresh went unanswered, and never where no answer is lost on the way or by a reload |
| Browser.HoldsTheNewest | backend/src/services/auth.service.ts:201-204 | between refreshes, absent a loss, the browser's cookie is the only live token of its login unless the login is over |
| Browser.AlarmIffPresentedAgain | backend/src/services/auth.service.ts:232-249 | in every run and for every token: the server takes the browser for a thief over it if and only if two requests with it arrived, the first was exchanged, and the login was not revoked when the second arrived |
| Browser.LossRaisesTheAlarmIff | frontend/src/lib/api.ts:86-112 | from any quiet state with a usable cookie, one answer lost, by the network or by a reload, and one retry end the login if and only if the lost request reaches the server at all: before the loss, before the retry or after it |
| Browser.QuietStateIsReached | frontend/src/lib/auth.tsx:90-96 | logging in leads to a quiet state with a usable cookie |
| Browser.HoldsTokenIff | frontend/src/lib/api.ts:24-28 | after any run the client holds an access token if and only if an answered login or refresh set one and no failed refresh, logout or reload has dropped it since |
| Browser.TokenGoesWithCookie | frontend/src/lib/api.ts:104-106 | the access token is the one that was handed out with the cookie, and stays until an event sets or drops it |
| Browser.LogoutSticksIff | frontend/src/lib/auth.tsx:98-109 | a concluded logout leaves the client without a token, as long as nothing new is begun, if and only if no refresh was under way whose answer is still read |
| Browser.LogoutComesUndone | frontend/src/lib/auth.tsx:98-109 | from any quiet state with a usable cookie, a logout answered during a refresh clears token and cookie, and the refresh brings both back |
| Browser.ApiClient.RefreshAccessToken | frontend/src/lib/api.ts:86-115 | sends one refresh if none is under way, and otherwise joins it |
| Browser.ApiClient.StartRequest | frontend/src/lib/api.ts:117-132 | one fetch, carrying the cookie of the moment |
| Browser.ApiClient.OnResponse | frontend/src/lib/api.ts:134-158 | a first 401 waits for a refresh; every other answer ends the call |
| Browser.ApiClient.OnRefreshed | frontend/src/lib/api.ts:96-111 | keeps or drops the token, clears the promise, and gives every waiting call the same answer |
| Browser.ApiClient.Continue | frontend/src/lib/api.ts:140-145 | one retry after a refresh that worked, none after one that did not |
| Browser.ApiClient.Finish | frontend/src/lib/auth.tsx:90-109 | a login keeps its token, a logout drops it however it went |
| Gate.RunIsRight | backend/src/lib/concurrency.ts:17-45 | after every run the counter equals the slot holders, and the line is the tasks that wait, in order |
| Gate.GateKeepsItsLimits | backend/src/lib/concurrency.ts:17-45 | never more holders or waiters than allowed, nobody waits while a slot is free, slots are granted in the order of arrival |
| Gate.ArrivalsAreTreatedFairly | backend/src/lib/concurrency.ts:25-34 | a newcomer runs if and only if a slot is free, and then nobody was waiting; it is refused if and only if slots and line are full |
| Gate.FinishHandsOver | backend/src/lib/concurrency.ts:36-44 | a task that returns or throws gives up exactly its own slot, to the first in line if there is one |
| Gate.NobodyIsForgotten | backend/src/lib/concurrency.ts:25-44 | whoever was let in and has not ended holds a slot or waits for one that somebody holds |
| Gate.IdleGateIsEmpty | backend/src/lib/concurrency.ts:17-45 | once every task has ended the gate is back at zero and zero |
| Gate.WorkRunsIff | backend/src/lib/concurrency.ts:20-23 | some task can ever get a slot if and only if the first limit is at least one |
| Gate.BoundedConcurrency.Enter | backend/src/lib/concurrency.ts:25-34 | takes a slot if one is free, else the last place in line if there is room, else refuses and changes nothing |
| Gate.BoundedConcurrency.Leave | backend/src/lib/concurrency.ts:36-44 | wakes the first in line and keeps the count, or with nobody waiting frees one slot |
| Ocr.LuhnCheckDigit | backend/src/lib/ocr.ts:25-46 | the backward loop throws exactly on empty or non-digit input and otherwise completes the weighted sum to a multiple of ten |
| Ocr.ValidIff | backend/src/lib/ocr.ts:49-54 | a number is valid if and only if its full weighted sum (ISO/IEC 7812-1, Annex B) is a multiple of ten |
| Ocr.ValidByTheTable | backend/src/lib/ocr.ts:25-54 | a number is valid if and only if, counted from the left with every second digit from the right through the table 0246813579, its sum is a multiple of ten |
| Ocr.SubstitutionIsCaught | backend/src/lib/ocr.ts:49-54 | every single wrong digit in a valid number of any length is caught |
| Ocr.TranspositionIsCaughtIff | backend/src/lib/ocr.ts:49-54 | a swap of two different neighbours is caught if and only if they are not 0 and 9 |
| Ocr.ReferencesAreValid | backend/src/lib/ocr.ts:72-83 | a reference is made if and only if there is a digit; it starts with the digits and passes check digit and length digit |
| Ocr.OnlyOneReference | backend/src/lib/ocr.ts:72-83 | a text is the reference if and only if it is the number's digits and two more, and passes check digit and length digit |
| Ocr.InsertionIsCaught | backend/src/lib/ocr.ts:66-83 | one digit more in the number part breaks the control |
| Ocr.DeletionIsCaught | backend/src/lib/ocr.ts:66-83 | one digit less in the number part breaks the control |
| Ocr.ReferenceIsInjective | backend/src/lib/ocr.ts:72-83 | two references are equal if and only if the digits are |
| Numbering.NumberReadsBack | backend/src/repositories/invoiceNumber.repository.ts:46-48 | for four-digit years a printed number is the year, a dash and the count in at least four digits, with no zeros in front beyond those |
| Numbering.ReferencesAreUnique | backend/src/lib/ocr.ts:72-83 | for four-digit years, number, printed number and payment reference determine each other |
| Numbering.PaymentReferencesAreUnique | backend/src/repositories/invoiceNumber.repository.ts:31-48 | after any run two live documents of four-digit years have different printed numbers and different payment references |
| ClientIp.PrintExpands | backend/src/lib/clientIp.ts:64-85 | every way of writing an address, "::" anywhere, IPv4 tail, zone and case included, expands to its eight groups |
| ClientIp.KeyOfSpelling | backend/src/lib/clientIp.ts:55-62 | the key is the first four groups in shortest lower-case form |
| ClientIp.PrintedGroupIff | backend/src/lib/clientIp.ts:81-84 | a group is printed as the one shortest lower-case hexadecimal text of its value |
| ClientIp.IsDottedIff | backend/src/lib/clientIp.ts:59 | the pattern's tail is four runs of one to three digits with dots between |
| ClientIp.OthersAreTheirOwnKey | backend/src/lib/clientIp.ts:55-62 | a text that is no IPv6 address is its own key if and only if it is not taken for a mapped one |
| ClientIp.SameBucketIffSameNetwork | backend/src/lib/clientIp.ts:55-85 | two spellings (section 2.2 of RFC 4291) outside the dotted mapped form share a bucket if and only if the first 64 bits are equal |
| ClientIp.MappedMeetsIpv4 | backend/src/lib/clientIp.ts:56-61 | the dotted mapped form has the key of the IPv4 address itself |
| ClientIp.OtherMappedSpellingsMeet | backend/src/lib/clientIp.ts:56-62 | every other spelling of a mapped address has one and the same key |
| ClientIp.RecognisedTail | backend/src/lib/clientIp.ts:56-60 | what the pattern recognises in a valid address is the IPv4 tail it was written with |
| ClientIp.Ipv4KeyIffRecognised | backend/src/lib/clientIp.ts:55-62 | a mapped address has the key of its IPv4 address if and only if its text is a recognised one, and otherwise a key that is no IPv4 address's |

## Left out

Assumptions the results rest on:

- A `$transaction` is one atomic step, an `updateMany` with its count a compare-and-set, a unique insert an insert-if-absent. Statement-level isolation is not modelled; in particular `createCreditNote` reads the fees before its guarded update and is taken as atomic.
- One overdue runner at a time (backend/src/jobs/workers/overdue.worker.ts:59), for the interest results and for the ledger invariant.
- One refresh request is one atomic step, for the session results. `Tokens.RotationNeedsALiveToken` says what depends on it.
- One timestamp per event: the rows of a transaction and `sentAt` carry the same instant.
- One browser tab, reloaded as often as one likes. A run starts from a page whose cookie, if any, is unspent; an answer that a reload cuts off stores no cookie.
- Amounts are mathematical integers and quotients exact rationals. In binary64 this is faithful while |net times rate| is below 2^53, which the validator's caps alone do not guarantee. A value beyond a 32-bit column is a failed transaction.
- Item rates are the four valid ones and an invoice has at least one line, as the validator demands of requests.

What the model does not have:

- Guarantees.RetryAfterRollback: nothing comes between the retry's own lookup and its commit; `Guarantees.CommitOutcomes` speaks of a commit after any run.
- Services.RunBringsUpToDate: speaks of a run with nothing in between; runs with other events in between are the subject of `Guarantees`.
- Sie.SieReadsBack: the fields printed bare (organisation number, dates, account numbers) must fit on a line and most within a word; quoted texts may be anything.
- Browser.HoldsTokenIff: a page that restores a session also drops the new token if the profile cannot be fetched with it; that call is a plain one here.
- Tokens.AuthService.RevokeFamilyOf: the number of rows it stamped, which its callers do not use.
- Tokens.AuthService.RevokeAll: the number of rows it stamped, which `logoutEverywhere` hands on.
- SieExport.ExportReadsBack: the calendar that turns an instant into eight digits is a parameter, and the year is given as its first and last instant.
- ClientIp.SameBucketIffSameNetwork: what `isIP` answers is a parameter, 6 for a valid IPv6 text; `parseInt` is modelled on digits, without leading blanks, signs or `0x`, none of which a valid address contains.
- Gate.GateKeepsItsLimits: slots are granted in order; a woken task's own code may still go on later than that of a task admitted after it.
- Browser.AlarmsNeedALoss: speaks of this browser's tokens; nobody else presents them. Requests with other people's tokens are arbitrary.
- Email, audit rows, Redis, queues, the access-token denylist, Argon2, JWT, HMAC, the Stripe SDK and HTTP: not part of this model. A delivered webhook event counts as verified.
- Login attempt counters, lockout, progressive delay and rehashing: the outcome of a password check is a parameter.
- The existence of the client of an invoice, access rights and all listing queries.
- Descriptions, currency, `paidAt`, `stripePaymentId`, `reminderSentAt`, client names and checkout sessions: carried along by the source, never decided on by the modelled code.
- The aging and VAT reports as CSV: tables of cells for `toCsv` and `csvAmount`, which are modelled; and the count of documents behind the VAT report.
- REFUND and ADJUSTMENT rows and partial credit notes: no code path writes them.
- The order of the open invoices query, and of ledger rows beyond insertion order.
- `Intl`, the Stockholm calendar, password tokens, validators and everything shown on a screen.
