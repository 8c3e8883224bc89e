# Service dispatch: verified model

A Dafny model of the parts of the service-dispatch system that handle dates, money and order
state, with proofs of what they promise. Money is in whole rials; percentages and quantities
carry two decimals and are held times 100. Every service of the original is one transaction: a
raised error leaves the state as it was.

| file | models |
|---|---|
| `Calendars.dfy`, `JalaliConversion.dfy`, `MonthWindow.dfy` | naive day counting in both calendars, the two closed-form converters and their loops, the date parser, the dashboard's month window |
| `WageSplit.dfy`, `EscrowAgreement.dfy` | category totals, wage and discount split, invoice totals, platform commission, and how settlement and escrow compare |
| `Ledgers.dfy`, `LedgerRace.dfy` | the two append-only ledgers with running balances, and concurrent writers |
| `Escrows.dfy` | the escrow record state machine |
| `PaymentFlow.dfy`, `PaymentSafety.dfy` | payments, invoices and everything that follows a payment, as steps on one state with a fault per non-blocking write; what every run keeps |
| `PaymentOutcomes.dfy`, `PaymentWrites.dfy` | what each answer to a callback leaves for ever, what every paid invoice was paid with, and what each write after a payment books |
| `RetryConvergence.dfy`, `ConvergenceLimits.dfy`, `FailingRuns.dfy`, `PaymentBooks.dfy` | what the retry queue repairs, exactly when, runs that reach what it does not repair, and what a verified payment leaves in the books |
| `Refunds.dfy`, `RefundDocuments.dfy` | correction documents and full refunds, among payments, retries and settlements; the life of a document and what its execution writes |
| `RefundLimits.dfy`, `QueuedWrites.dfy`, `RefundRuns.dfy` | what a second refund takes again, which queued writes a refund does not reach, and runs from empty tables to each |
| `Store.dfy`, `RefundDesk.dfy` | the services themselves, updating tables in place with roll-back, against those steps |
| `Visibility.dfy`, `OrderEngine.dfy`, `OrderEffects.dfy`, `OrderAudit.dfy`, `OrderDesk.dfy` | order visibility in its three forms and what its rules mean, the order services as steps, what each leaves, their audit log, and the services as methods |
| `OrderItems.dfy`, `OrderWages.dfy` | dynamic item values saved from a form, and the wage a completed order earns |
| `InvoiceNumbers.dfy`, `InvoiceBook.dfy` | the number counter, its seeding from old numbers, and the guard against a second open invoice |
| `Reconciliation.dfy` | comparing a provider's report with internal payments |

Where the original works by updating rows in place, there is a method or a class whose
postcondition is its exact new state, written with specification functions; the lemmas are about
those functions and about runs of them.

## What turned out not to hold

The code is modelled as it is. Where a natural property fails, a lemma gives an input and another
the exact condition, for all inputs, under which it holds.

- Three writes of a verification are not repaired by the retry queue. The escrow record of a platform
  payment whose invoice no longer waits for it: its task also reserves and distributes what the
  failure-free run only holds. The same record, or a direct settlement, while an earlier payment of
  the same invoice still has a task of that kind: `create_task` goes by company, kind and invoice, so
  the second failure gets no task. And a direct settlement whose split snapshot could not be saved:
  nothing posts it later. `ConvergenceLimits.RepairedIff` says exactly for which payments, in every
  state next to its failure-free counterpart, open tasks and all.
  `FailingRuns.LateApprovalIsMisrepaired` and `FailingRuns.SecondApprovalIsMisrepaired` reach the
  first two from empty tables.
- `create_invoice_entries` returns before booking collected cash when the wage is zero, so a cash
  invoice moves the technician's balance by wage minus total only if there is a wage or nothing was
  collected: `Ledgers.CashInvoiceMovesByWageMinusTotalIff`; reached by
  `FailingRuns.CollectedCashIsNotOwed`.
- A public service request is stored without a log row, so its log does not start from a creation:
  `OrderAudit.StartsFromCreationIff`, with `OrderAudit.PublicRequestIsNotLogged` as the input.
- Rejecting a cancel request reads the newest log row, and an edit of a requested order writes one.
  After such an edit IN_PROGRESS is lost: `OrderAudit.RejectRestoresIff`; reached by
  `OrderAudit.EditedRequestLosesProgress`.
- Overlapping writes of a technician can store a wrong running balance, as the comment in the code
  concedes. The stored balances are right exactly when every writer inserts the balance its owner
  still has: `LedgerRace.StoredBalancesAreSumsIff`, for credits exactly when no row of the same owner
  came between: `LedgerRace.StoredBalancesAreSumsIfUndisturbed`. Any two first credits can be
  interleaved the other way: `LedgerRace.StoredBalanceMayBeStale`.
- The date parser reads an impossible Jalali date, month 0 and day 0 among them, as another day:
  `MonthWindow.ParsedDateIsTypedDateIffReal`.
- An invoice total need not be the total of its stored prices, because rows are rounded one by one.
  `EscrowAgreement.TotalIsPricedIff` gives the exact drift it can bear, for either rule the database
  may round by: PostgreSQL (`config/settings/base.py`) rounds halves away from zero, on SQLite
  (`config/settings/local.py`) they go to even. Under both, two rows of 0.4 rials are stored as zero
  each and total one rial: `EscrowAgreement.FractionalRowsDisagree`. Two half-rial rows total one rial
  too, with stored prices of two on PostgreSQL and of zero on SQLite: `EscrowAgreement.TiesDecide`.
  Settlement and escrow agree when the drift vanishes, as it does on rows of whole rials.
- A row typed with more decimals than its columns hold need not have the price its columns would
  give, under either rule: `EscrowAgreement.TypedFractionsAreNotFresh`.
- Closing an escrow record for a refund and retrying its distribution do not commute:
  `Escrows.CloseBeforeRetryIff`.
- A refund does not reach writes that are still queued. A platform fee retried later is charged for
  the refunded invoice; a refunded invoice is never charged again exactly when no fee of it waits to
  be retried at the time of the refund: `QueuedWrites.NeverChargedIff`. An escrow record retried later
  is distributed for the refunded invoice, exactly when its split fits and it is not the record the
  refund closed: `QueuedWrites.QueuedEscrowOutlivesRefundIff`. `RefundRuns.QueuedFeeRun` and
  `RefundRuns.QueuedEscrowRun` reach both from empty tables.
- Nothing but its escrow record tells that an invoice was refunded, and an invoice has one per platform
  payment. A second document passes without any record, or through another open record of the
  invoice: `Refunds.SecondRefundIff`. It takes the wage back and credits the fee again. After any run
  the invoice is charged its fee less that fee once per document that reversed it, so nothing exactly
  when there is no fee or one document reversed it: `RefundLimits.EveryRunNetsFees`.
  `RefundRuns.DoubleCreditRun` credits a fee twice through two records, `RefundRuns.DoubleWageRun` takes
  the wage of a cash invoice back twice, both from empty tables. Neither is a full refund's amount
  compared with what it reverses; the runs have documents over one rial.
- A legacy order without a category can be visible and permitted and is still refused by the accept
  transaction: `Visibility.AcceptMatchesPermission`.

## Model

| member | source | states |
|---|---|---|
| `Calendars.GregorianYearCount` | apps/common/jalali.py:28-31 | 365 days a year and a day per fourth, less per hundredth, plus per four-hundredth year is the sum of the year lengths |
| `Calendars.JalaliYearCount` | apps/common/jalali.py:65-72 | the same for Jalali years and the 33-year rule |
| `Calendars.GregorianOrder` | apps/common/jalali.py:28-37 | a valid Gregorian date is earlier exactly when its day number is smaller |
| `Calendars.JalaliOrder` | apps/common/jalali.py:65-76 | a valid Jalali date is earlier exactly when its day number is smaller |
| `JalaliConversion.GregorianToJalali` | apps/common/jalali.py:19-55 | the converter with its updates in place computes the specified date, for every year |
| `JalaliConversion.SpendDaysJalali` | apps/common/jalali.py:39-55 | spending days on 33-year, 4-year and 1-year cycles and then months |
| `JalaliConversion.JalaliToGregorian` | apps/common/jalali.py:58-116 | the other converter, for every year |
| `JalaliConversion.SpendDaysGregorian` | apps/common/jalali.py:78-94 | spending days on 400-, 100-, 4- and 1-year cycles |
| `JalaliConversion.MonthLoop` | apps/common/jalali.py:94-116 | for every day of a year the month loop ends because the day fits its month, not through the month bound |
| `JalaliConversion.DaysFromGregorianIsCount` | apps/common/jalali.py:28-37 | the closed-form Gregorian day count is the naive one |
| `JalaliConversion.DaysFromJalaliIsCount` | apps/common/jalali.py:65-76 | the closed-form Jalali day count is the naive one |
| `JalaliConversion.JalaliFromDaysIsTheDay` | apps/common/jalali.py:39-55 | every day number becomes the valid Jalali date with that number |
| `JalaliConversion.GregorianFromDaysIsTheDay` | apps/common/jalali.py:78-116 | every day number becomes the valid Gregorian date with that number |
| `JalaliConversion.PeelMonthsKeepsTheDay` | apps/common/jalali.py:111-116 | peeling months off a day of the year ends in the month that holds it |
| `JalaliConversion.ToJalaliKeepsTheDay` | apps/common/jalali.py:19-55 | converting keeps the day and gives a valid Jalali date |
| `JalaliConversion.ToGregorianKeepsTheDay` | apps/common/jalali.py:58-116 | from 980 on, converting keeps the counted day and gives a valid Gregorian date, also from a Jalali day outside its month, month 0 and day 0 among them |
| `JalaliConversion.JalaliRoundTrip` | apps/common/jalali.py:58-116 | from 980/1/1 on, Jalali to Gregorian and back is the identity, through a valid Gregorian date |
| `JalaliConversion.JalaliRoundTripIffValid` | apps/common/jalali.py:58-116 | a typed Jalali date, from month 0 and day 0 on, survives the round trip exactly when it is a real date under the 33-year rule |
| `JalaliConversion.GregorianRoundTrip` | apps/common/jalali.py:19-55 | from 1601-03-21 on, Gregorian to Jalali and back is the identity, through a valid Jalali date |
| `JalaliConversion.ConversionKeepsOrder` | apps/common/jalali.py:19-55 | earlier dates convert to earlier dates, and only they do |
| `JalaliConversion.NextDayConverts` | apps/common/jalali.py:19-55 | the next Gregorian day converts to the next Jalali day |
| `JalaliConversion.EarlyGregorianIsShifted` | apps/common/jalali.py:19-55 | from 622 to 1600 the first converter does what it does 979 years later |
| `JalaliConversion.EarlyJalaliIsShifted` | apps/common/jalali.py:58-116 | so does the second from 1 to 979, with the day of the year kept and the months those of the earlier year |
| `MonthWindow.ParsedDateIsTypedDateIffReal` | apps/common/jalali.py:119-135 | the parser returns the date typed, from month 0 and day 0 on, exactly when that date is real; otherwise the day the count of the typed numbers falls on |
| `MonthWindow.CurrentMonth` | apps/dashboard/selectors.py:167-175 | the window computed with both converters |
| `MonthWindow.WindowIsTheMonth` | apps/dashboard/selectors.py:170-175 | a day is in the window exactly when it is of the same Jalali month |
| `MonthWindow.WindowsTile` | apps/dashboard/selectors.py:170-175 | the window holds today, is as long as its month, and is followed without gap by the next month's, also into a new year |
| `WageSplit.CollectCategoryTotals` | apps/invoices/services_wage.py:72-99 | the loop puts every row under one category or skips it, and loses nothing |
| `WageSplit.NothingLost` | apps/invoices/services_wage.py:72-99 | the three totals and the skipped rows add up to all stored prices |
| `WageSplit.AllocationConserves` | apps/invoices/services_wage.py:114-144 | the two parts of an allocated discount are non-negative and add up to it, under every policy |
| `WageSplit.SplitConserves` | apps/invoices/services_wage.py:147-223 | gross shares add up to the net total, absorbed parts to the discounts, and the final split lies between net less discounts and net, so the settlement's error guard (apps/invoices/services_settlement.py:92-105) never fires |
| `WageSplit.SplitExactIffUnclamped` | apps/invoices/services_wage.py:188-192 | the final split is exactly net less discounts if and only if neither floor at zero was needed, and otherwise misses by what the floors add |
| `WageSplit.ProportionalRounding` | apps/invoices/services_wage.py:136-192 | with proportional policies rounding never clamps the company and gives away at most one rial |
| `WageSplit.ProportionalRoundingIsTight` | apps/invoices/services_wage.py:136-192 | an invoice on which that rial occurs |
| `WageSplit.WageIsWeighted` | apps/invoices/services_wage.py:147-164 | for every bill the technician's gross wage is the sum of each row's stored price by the percentage of its own type, to one and a half rials; the legacy description decides for an unknown type |
| `WageSplit.PolicyAbsorbs` | apps/invoices/services_wage.py:114-144 | of a discount the technician absorbs all, none, half rounded up, or the rounded share of the gross, as the policy says |
| `WageSplit.SplitIsFair` | apps/invoices/services_wage.py:147-223 | every valid bill is split that way, the extra discount under its policy and the campaign discount under its own, and both final parts are what is left, never below zero |
| `EscrowAgreement.ReplaceItems` | apps/invoices/services.py:256-290 | rows built from a form, with amounts of any number of decimals and halves rounded either way, have a non-negative stored price and are never skipped by the split; what the columns hold as typed has the price a later save would compute |
| `EscrowAgreement.BuiltRows` | apps/invoices/services.py:256-290 | the same for every list of submitted rows, none of them of an unknown type |
| `EscrowAgreement.RoundedIsNearest` | apps/invoices/models.py:341-344 | a decimal is stored as the nearest whole number, and a half away from zero or to even, as the database has it |
| `EscrowAgreement.RowIsAsTyped` | apps/invoices/services.py:261-290 | a stored row has the submitted type, a service if that is unknown, the submitted quantity, one if that is not positive, and the nearest prices; a negative net price becomes zero |
| `EscrowAgreement.RowsAreDescribed` | apps/invoices/services.py:261-290 | the rows are those with a description, in the order of the form |
| `EscrowAgreement.PlatformFeeIsFloor` | apps/payouts/services_platform_fee.py:83-97 | the commission is the percentage of the total rounded down, and within the total up to a hundred percent |
| `EscrowAgreement.WholeSubtotal` | apps/invoices/models.py:255-288 | on whole-rial rows the recalculated subtotal is the sum of the stored prices |
| `EscrowAgreement.TotalIsPricedIff` | apps/invoices/models.py:255-288 | under either rounding of halves, the invoice total is the stored prices plus tax less discounts exactly when that is not negative and the rounding of the rows drifts by less than half a rial, by a half that rounds back, or below zero |
| `EscrowAgreement.WholeRowsDoNotDrift` | apps/invoices/models.py:255-288 | rows of whole rials never drift |
| `EscrowAgreement.TypedFractionsAreNotFresh` | apps/invoices/services.py:256-290 | under either rounding of halves, a typed row whose stored price is not the one its stored columns give |
| `EscrowAgreement.EscrowGap` | apps/invoices/services.py:382-395 | for every invoice with valid percentages, how far the organization's escrow share lies from its frozen share less commission: the total's distance from the stored prices, tax, skipped rows and negative discounts less the two clamps |
| `EscrowAgreement.SettlementAndEscrowAgree` | apps/invoices/services.py:382-424 | without tax, skipped rows or a drift that shows and with discounts the rows cover, the escrow gives the organization at most its frozen share less commission, exactly that if and only if nothing was clamped, and then overflows exactly when the commission exceeds the share |
| `EscrowAgreement.FractionalRowsDisagree` | apps/invoices/models.py:341-344 | under either rounding of halves, an invoice of fractional rows whose total is one rial and whose split is zero |
| `EscrowAgreement.TiesDecide` | apps/invoices/models.py:255-288 | an invoice of half-rial rows whose total is one rial and whose split is two rials or none, as halves are rounded |
| `Ledgers.Ledger.WriteEntry` | apps/payouts/services.py:309-388 | one entry is appended with its balance unless its key is taken or its amount is negative |
| `Ledgers.Ledger.RecordManualSettlement` | apps/payouts/services.py:232-301 | which way each direction moves the balance, which kind and source its entry has, and that other amounts and directions change nothing |
| `Ledgers.GetBalanceIsSignedSum` | apps/payouts/services.py:34-51 | credits less debits is the sum of the signed entries |
| `Ledgers.PostKeepsLaw` | apps/payouts/services_platform_fee.py:99-147 | one write keeps keys unique and every stored balance the signed prefix sum, in both ledgers |
| `Ledgers.EveryRunIsLawful` | apps/payouts/services.py:309-388 | every serial run only appends, keeps keys unique and stores signed prefix sums |
| `Ledgers.BalanceIsLatest` | apps/payouts/services.py:34-51 | the recomputed balance is the one stored with the owner's last entry |
| `Ledgers.ReplayChangesNothing` | apps/payouts/services.py:326-332 | writing a whole run again leaves the table as it is |
| `Ledgers.InvoiceIsBookedAs` | apps/payouts/services.py:141-228 | a settled invoice with a technician and a wage books the wage as a credit, by how it was paid, and the cash the technician kept as a debit, each under the invoice's own key; any other books nothing |
| `Ledgers.InvoiceMovesBalance` | apps/payouts/services.py:141-228 | an invoice moves its technician's balance by wage less collected cash and nobody else's |
| `Ledgers.CashInvoiceMovesByWageMinusTotalIff` | apps/payouts/services.py:141-228 | a collected cash invoice moves the balance by wage minus total exactly when there is a wage or no total |
| `LedgerRace.EveryScheduleKeepsInvariant` | apps/payouts/services.py:326-388 | under any interleaving of check, balance and insert keys stay unique and finished writers' entries are in the table |
| `LedgerRace.InterleavingMatchesSerialRun` | apps/payouts/services.py:326-388 | any interleaving ends with the entries and recomputed balances of the serial run |
| `LedgerRace.StoredBalancesAreSumsIff` | apps/payouts/services.py:354-388 | under any interleaving, from any table of right balances, all stored balances are prefix sums exactly when at each insert the owner's sum is still the one that was read |
| `LedgerRace.StoredBalancesAreSumsIfUndisturbed` | apps/payouts/services.py:354-388 | they are when no row of the same owner is inserted between a read and its insert, and when all entries raise their balance only then |
| `LedgerRace.StoredBalanceMayBeStale` | apps/payouts/services.py:354-361 | for any two first credits of a technician, an interleaving after which a stored running balance is not the prefix sum |
| `Escrows.EscrowTable.CreateForPayment` | apps/payouts/services_escrow.py:64-92 | one HELD record per eligible payment, an existing one returned as it is |
| `Escrows.EscrowTable.ReserveForInvoice` | apps/payouts/services_escrow.py:95-114 | only HELD becomes RESERVED |
| `Escrows.EscrowTable.MarkDistributed` | apps/payouts/services_escrow.py:117-169 | only RESERVED with shares that add up becomes DISTRIBUTED; a refusal changes no share |
| `Escrows.EscrowTable.MarkPendingSettlement` | apps/payouts/services_escrow.py:172-191 | only DISTRIBUTED joins a batch |
| `Escrows.EscrowTable.SettleRecord` | apps/payouts/services_escrow.py:194-219 | only a pending record settles |
| `Escrows.EscrowTable.CloseRecord` | apps/payouts/services_escrow.py:222-253 | which records can be closed |
| `Escrows.EscrowTable.ReserveAndDistributeFor` | apps/invoices/services.py:335-424 | the composite step on the table, with a write that may raise at either half |
| `Escrows.EveryRunIsSafe` | apps/payouts/services_escrow.py:64-253 | over every run shares are zero before distribution and add up to the amount after it, and the status only moves forward |
| `Escrows.SharesAreFinal` | apps/payouts/services_escrow.py:117-253 | after distribution no call changes a share, and reserving and distributing again is a no-op |
| `Escrows.SplitGuard` | apps/invoices/services.py:390-424 | the composite step distributes exactly when commission and wage fit, and an overflow sets no share |
| `Escrows.CloseBeforeRetryIff` | apps/payouts/services_escrow.py:222-253 | closing before a retry of the composite step or after it gives the same record exactly when the step had nothing left to reserve or share |
| `Escrows.HeldRecordIs` | apps/payouts/services_escrow.py:64-92 | a new record holds the whole amount and shares nothing |
| `Escrows.CallLeaves` | apps/payouts/services_escrow.py:95-253 | the one status each call asks for and the one change it makes then; shares are taken only if they are natural and add up to the amount |
| `Escrows.CompositeLeaves` | apps/invoices/services.py:335-424 | what the composite step leaves and when it raises, for every status, split and failing write |
| `Escrows.SettledWasSplit` | apps/payouts/services_escrow.py:64-253 | over every run from a new record, money that is distributed, pending or settled was split and its shares make up the whole amount |
| `PaymentSafety.PostPaidTouchesNoInvoice` | apps/invoices/services.py:487-585 | the non-blocking writes leave invoices and payments alone, whatever fails |
| `PaymentSafety.MarkPaidSettlesOne` | apps/invoices/services.py:432-585 | marking paid settles that invoice and no other |
| `PaymentSafety.VerifiedIs` | apps/payments/services.py:285-413 | a confirmed verification either changes nothing or pays its payment and settles at most its invoice |
| `PaymentSafety.EveryRunIsSafe` | apps/payments/services.py:226-476 | over every interleaving final payments and settled invoices never change again, and an invoice is paid exactly when it is settled |
| `PaymentSafety.StepIsSafe` | apps/payments/services_expiration.py:105-125 | each single step, expiration and cash receipts among them, keeps that |
| `PaymentSafety.PaidOnlyWhenVerified` | apps/payments/services.py:226-300 | a payment becomes paid only by an approved callback in time, with its own reference and no other amount |
| `PaymentSafety.FoundHasReference` | apps/payments/services.py:432-476 | a callback finds the newest payment of its company and reference |
| `PaymentSafety.ReplayedCallbackIsNoOp` | apps/payments/services.py:416-476 | after a callback that changed anything every replay changes nothing, whatever the provider now answers |
| `PaymentSafety.TechnicianCashClosesPayments` | apps/invoices/views_technician.py:764-837 | a cash receipt pays the invoice, leaves none of its payments unfinished and no finished payment changed |
| `PaymentSafety.EveryRunKeepsTotals` | apps/invoices/models.py:255-288 | over every run each invoice's total is the one its rows, tax and discounts recalculate to |
| `PaymentSafety.InvoiceSteps` | apps/invoices/services.py:230-332 | what editing, issuing, discounting and cancelling do to an invoice: only drafts take rows, tax and discount, percentages are taken over once, a campaign discount adds up and never raises the total |
| `PaymentSafety.NewInvoiceIs` | apps/invoices/services.py:118-227 | a new invoice is a draft of the submitted rows, tax and discount and nothing else |
| `PaymentOutcomes.CallbackLeaves` | apps/payments/services.py:226-476 | every answer to every callback and all it leaves: too late or approved for another amount the payment needs reconciliation, declined it has failed, unanswered nothing changes, approved it is paid and its waiting invoice with it, unless that is settled, of another company or of another total |
| `PaymentOutcomes.UnknownCallbackLeaves` | apps/payments/services.py:440-458 | a callback without a reference or without a payment leaves everything |
| `PaymentOutcomes.AnswerIsFinal` | apps/payments/services.py:244-300 | whatever happens after the callback, a payment approved for another amount or too late stays in need of reconciliation, a declined one failed, an accepted one paid, and none is otherwise changed |
| `PaymentOutcomes.CleanupIsFinal` | apps/payments/services_expiration.py:105-125 | an unfinished gateway payment older than the limit is put aside for ever, and nothing else changes |
| `PaymentOutcomes.StartLeaves` | apps/payments/services.py:90-209 | when a start adds a payment, and that it is over the invoice's whole total, pending under its reference or failed |
| `PaymentOutcomes.AdminCashLeaves` | apps/tenants/views_admin.py:1030-1080 | an administrator's receipt is taken exactly for an issued, unsettled invoice; it adds one cash payment of the whole total and pays that invoice alone |
| `PaymentOutcomes.TechnicianCashLeaves` | apps/invoices/views_technician.py:764-837 | so is a technician's, unless a cancellation is under review; it also cancels exactly the invoice's unfinished payments |
| `PaymentOutcomes.StepSettles` | apps/invoices/services.py:432-484 | an invoice a step settles was paid by a paid payment of its company and whole total, split fairly under the company's two policies, with that payment's means and reference |
| `PaymentOutcomes.EveryRunSettlesFairly` | apps/invoices/services_settlement.py:22-80 | over every interleaving every settled invoice was settled that way |
| `PaymentOutcomes.WageIsFair` | apps/invoices/services_settlement.py:22-80 | so the wage that escrow, ledger and refunds read is the fair one |
| `PaymentWrites.CommissionIsFee` | apps/payouts/services_platform_fee.py:34-97 | the commission of an invoice is its company's percentage of the total rounded down, nothing without a policy |
| `PaymentWrites.FeeLeaves` | apps/payouts/services_platform_fee.py:150-211 | the fee is debited to the company once, for a paid platform payment, if it is positive; it raises only when its write fails |
| `PaymentWrites.EscrowLeaves` | apps/payouts/services_escrow.py:48-92 | a platform payment without a record gets one over its whole amount |
| `PaymentWrites.DistributionLeaves` | apps/invoices/services.py:335-424 | it is split into the fee, the frozen wage and the rest |
| `PaymentWrites.LedgerLeaves` | apps/payouts/services.py:141-228 | the frozen wage is credited, then the cash the technician kept debited; a failed debit leaves the credit |
| `PaymentWrites.DirectLeaves` | apps/payouts/services_direct_settlement.py:27-132 | who is debited for a direct payout, how much and when |
| `PaymentWrites.TaskLeaves` | apps/payouts/services_backfill.py:24-69 | a failed write gets one waiting task unless one of its kind, company and invoice is unresolved; no other gets any |
| `PaymentWrites.RetryLeaves` | apps/payouts/services_backfill.py:177-298 | a retry is the write again, and raises when the task lost what it needs |
| `PaymentWrites.ProcessLeaves` | apps/payouts/services_backfill.py:107-175 | a task is resolved together with what its retry wrote, or the writes are taken back and the attempt counted, or nothing changes |
| `PaymentWrites.PaidWritesLeave` | apps/invoices/services.py:487-585 | the three writes after marking paid leave what each would leave alone, and a task of each kind is open exactly if one was or its write raised |
| `PaymentWrites.AcceptLeaves` | apps/payments/services.py:302-349 | accepting pays the payment and holds it, with a task if the record failed |
| `PaymentWrites.PostDirectLeaves` | apps/payments/services.py:351-406 | the last write and its task |
| `PaymentWrites.MeansAre` | apps/invoices/services.py:446-470 | how the invoice is recorded as paid |
| `RetryConvergence.RetriesConverge` | apps/payouts/services_backfill.py:107-298 | whichever writes fail and however tasks are retried, once all are resolved invoices, payments, escrow records, ledger entries and balances are those of the failure-free run; of the writes only three may not fail, those `GuardedPayment` names: the escrow record of a platform payment whose invoice does not wait for it, the snapshot of a direct settlement that is due, and such a settlement while an earlier one of the invoice is queued |
| `RetryConvergence.RunLinked` | apps/invoices/services.py:432-585 | along the way of every such run, what the state holds together with what its open tasks still intend is what the failure-free state holds |
| `RetryConvergence.StepLinked` | apps/payments/services.py:226-413 | every step keeps that link, unless one of those three writes fails in it |
| `RetryConvergence.ProcessLinked` | apps/payouts/services_backfill.py:107-175 | processing a task keeps it, whether the retry succeeds, fails or fails to be recorded |
| `RetryConvergence.OnlineLinked` | apps/payments/services.py:318-406 | a verified payment that pays its invoice keeps it, with any of its six writes failing, and the snapshot too if no direct settlement is due |
| `RetryConvergence.HoldLinked` | apps/payments/services.py:297-342 | so does holding the money of a payment whose invoice does not wait for it |
| `RetryConvergence.DirectLinked` | apps/payments/services.py:381-406 | so does the direct settlement, written or queued |
| `RetryConvergence.DirectRetried` | apps/payouts/services_backfill.py:272-298 | so does a retry of it |
| `RetryConvergence.CashLinked` | apps/invoices/services.py:432-585 | a cash receipt keeps it, also when the debit fails after the credit |
| `ConvergenceLimits.RepairedIff` | apps/payouts/services_backfill.py:24-69 | in any state linked to a failure-free one, a verified payment is always repaired to the failure-free outcome exactly when it is none of these, or some open task can never succeed: a platform payment of an invoice that does not wait for it, which has an open escrow task or whose split fits; or one with a direct settlement due, whose own escrow would not block for ever |
| `ConvergenceLimits.EscrowIsLost` | apps/payouts/services_backfill.py:247-270 | in the first of those branches one failed record and clean retries of everything end without the held record |
| `ConvergenceLimits.DirectIsLost` | apps/payments/services.py:351-385 | in the second one lost snapshot and clean retries of everything end without the debit |
| `ConvergenceLimits.StuckForever` | apps/payouts/services_backfill.py:107-175 | an escrow task whose split does not fit stays open under every sequence of retries |
| `ConvergenceLimits.ResolveAll` | apps/payouts/services_backfill.py:72-104 | open tasks that would each succeed now can all be resolved one after the other |
| `FailingRuns.LateApprovalIsMisrepaired` | apps/payments/services.py:297-349 | a run from empty tables to the first branch: an online payment started, cash taken, the payment then approved |
| `FailingRuns.SecondApprovalIsMisrepaired` | apps/payouts/services_backfill.py:45-57 | a run from empty tables to two payments of one invoice, the second of which gets no escrow task because the first one has it |
| `FailingRuns.CollectedCashIsNotOwed` | apps/payouts/services.py:141-228 | a run from empty tables after which a technician without a wage has collected cash and owes nothing |
| `PaymentBooks.VerifiedPaymentIsBooked` | apps/payments/services.py:285-406 | a platform payment that pays its invoice leaves an escrow record of the invoice total, split exactly when wage and fee fit; the technician's balance moves by the wage less kept cash and less what the gateway paid out directly, the platform's by the fee, and nobody else's moves |
| `PaymentBooks.DirectBooked` | apps/payouts/services_direct_settlement.py:27-132 | the direct payout is debited once, from the technician it was paid to |
| `Refunds.EveryRunReconciles` | apps/payouts/services_refund_execution.py:213-275 | over every run, payments, retries and batch settlements among refunds, documents and reversal entries correspond one to one in both ledgers, and every balance is that of the other entries and of what documents reversed |
| `Refunds.ReconciledBalances` | apps/payouts/services.py:34-51 | then the recomputed balances are those sums |
| `Refunds.StepReconciles` | apps/payouts/services_adjustment.py:62-243 | every step keeps that, each move of a document among them |
| `Refunds.PaymentContinues` | apps/payments/services.py:226-476 | no payment step writes a reversal, loses a row or an escrow record, or changes a closed one |
| `Refunds.ExecuteMoves` | apps/payouts/services_refund_execution.py:247-275 | an execution that is not refused takes the settled wage from the technician and the recorded fee from the company's debt, closes the record with its shares, and moves nothing else |
| `Refunds.RefundIsFinal` | apps/payouts/services_refund_execution.py:213-227 | whatever happens later, its document, reversals and closed record stay, and executing it again changes nothing |
| `Refunds.SecondRefundIff` | apps/payouts/services_refund_execution.py:277-324 | at any later time another approved document of the invoice is executed exactly when the invoice has no record, or through another record of it that is open |
| `RefundDocuments.MovesAreMade` | apps/payouts/services_adjustment.py:112-243 | each status of a document is reached by its own step from one earlier status |
| `RefundDocuments.StepMovesDocuments` | apps/payouts/services_adjustment.py:64-243 | no step moves a document further than that or changes what it corrects, and new ones are drafts |
| `RefundDocuments.DraftIff` | apps/payouts/services_adjustment.py:64-109 | which requests become a draft |
| `RefundDocuments.ExecutedIff` | apps/payouts/services_refund_execution.py:213-324 | which documents are executed: approved full refunds whose record, if any, is open and was not split directly |
| `RefundDocuments.ReversalsAre` | apps/payouts/services_refund_execution.py:327-403 | the two entries an execution writes, and that the document refers to exactly those |
| `RefundDocuments.FoundIff` | apps/payouts/services_refund_execution.py:288-293 | which records a refund may meet |
| `RefundDocuments.EveryRunKeepsCorrectable` | apps/payouts/services_adjustment.py:64-109 | over every run documents correct settled invoices by positive amounts, refunds within the total |
| `RefundDocuments.FeeIsFirstDebit` | apps/payouts/services_refund_execution.py:327-341 | the recorded fee is the first debit under the invoice's key |
| `RefundLimits.NetFeeIs` | apps/payouts/services_refund_execution.py:327-365 | in reconciled books an invoice is charged its recorded fee less that fee once per document that reversed it: nothing exactly when there is no fee or one document reversed it, and at most nothing when any did |
| `RefundLimits.EveryRunNetsFees` | apps/payouts/services_refund_execution.py:327-365 | the same after every run |
| `RefundLimits.FeeIsCreditedTwice` | apps/payouts/services_refund_execution.py:277-365 | a refund through one record and whenever later one through another record of the invoice: the fee is credited twice, and the company is owed at least what it was charged |
| `RefundLimits.UnheldInvoiceIsRefundedTwice` | apps/payouts/services_refund_execution.py:368-403 | two documents of an invoice without a record take its wage back twice |
| `RefundLimits.RefundTwiceRun` | apps/payouts/services_adjustment.py:64-157 | from any books with such an invoice, the run that does so |
| `QueuedWrites.NeverChargedIff` | apps/payouts/services_refund_execution.py:327-365 | a refunded invoice is never charged a fee, at the end of any run after the refund, exactly when at the refund no waiting task has a fee of it to write |
| `QueuedWrites.QueuedFeeOutlivesRefund` | apps/payouts/services_backfill.py:216-225 | a refund while the fee is queued, then the retry: the whole fee is charged |
| `QueuedWrites.ActionPaysFee` | apps/invoices/services.py:432-585 | a step that is no retry writes or queues a fee only for an invoice it settles, by a payment that then is paid |
| `QueuedWrites.RunKeepsNoFeeDue` | apps/payouts/services_backfill.py:107-175 | a settled invoice with no fee recorded and none waiting stays so over every run |
| `QueuedWrites.EveryRunIsOrderly` | apps/payouts/services_adjustment.py:62-243 | over every run queued fees are those of paid payments, documents those of settled invoices, and books reconciled |
| `QueuedWrites.NothingIsOrderly` | apps/payouts/services_refund_execution.py:213-275 | empty tables under any policies are, so every run from them is |
| `QueuedWrites.QueuedEscrowOutlivesRefundIff` | apps/payouts/services_backfill.py:247-270 | a refund while an escrow record is queued, then the retry: the record ends distributed exactly when it is not the one the refund closed and was distributed already or can be created or reserved and split |
| `RefundRuns.QueuedFeeRun` | apps/payouts/services_backfill.py:216-225 | from empty tables: a payment whose fee fails, the refund, the retry; the refunded invoice is charged |
| `RefundRuns.QueuedEscrowRun` | apps/payouts/services_backfill.py:247-270 | from empty tables: a payment whose escrow record fails, the refund, the retry; the record is distributed |
| `RefundRuns.DoubleCreditRun` | apps/payouts/services_refund_execution.py:277-365 | from empty tables: a refund, a second payment of the invoice approved late, a second refund through its record; the fee is credited twice |
| `RefundRuns.DoubleWageRun` | apps/payouts/services_refund_execution.py:368-403 | from empty tables: a cash invoice refunded twice, and the technician owes a whole wage |
| `Store.Tables.CreateTask` | apps/payouts/services_backfill.py:24-69 | no second open task of the same company, kind and invoice |
| `Store.Tables.CreateEscrow` | apps/payouts/services_escrow.py:48-92 | escrow for platform payments only, once |
| `Store.Tables.DistributeEscrow` | apps/invoices/services.py:335-424 | the escrow table and whether it raised, as specified |
| `Store.Tables.CreateInvoiceEntries` | apps/payouts/services.py:141-228 | credit, then debit, with a failure possible before and between them |
| `Store.Tables.RecordInvoiceFee` | apps/payouts/services_platform_fee.py:150-211 | the fee entry under its four conditions |
| `Store.Tables.PostDirectSettlement` | apps/payouts/services_direct_settlement.py:27-132 | the debit of a direct payout under its conditions |
| `Store.Tables.SettleDirectly` | apps/payments/services.py:351-406 | that debit after the snapshot, with a task when it raises |
| `Store.Tables.SettleInvoice` | apps/invoices/services_settlement.py:22-80 | the frozen settlement |
| `Store.Tables.MarkPaid` | apps/invoices/services.py:432-484 | refused under each of its checks, otherwise the paid state with its writes |
| `Store.Tables.PayOut` | apps/invoices/services.py:487-585 | the three non-blocking writes, each with its task when it raises |
| `Store.Tables.StartPayment` | apps/payments/services.py:90-209 | the payment recorded for an accepted or refused start |
| `Store.Tables.Verify` | apps/payments/services.py:226-413 | every branch of verification, and the whole of it undone when the invoice cannot be marked paid; success exactly when the payment is paid |
| `Store.Tables.AcceptPayment` | apps/payments/services.py:297-342 | the payment half, with an escrow task if the record could not be created |
| `Store.Tables.HandleCallback` | apps/payments/services.py:432-476 | the newest payment with the reference is verified, if any; success exactly when it is paid |
| `Store.Tables.ExpireAll` | apps/payments/services_expiration.py:80-141 | each old unfinished gateway payment expires, and as many are counted as stop being unfinished |
| `Store.Tables.RegisterAdminCash` | apps/tenants/views_admin.py:1030-1080 | an administrator's cash receipt, undone when marking paid is refused; registered exactly when there is one payment more |
| `Store.Tables.RegisterTechnicianCash` | apps/invoices/views_technician.py:764-837 | the technician's, also refused under a pending cancellation and cancelling unfinished payments; registered exactly when there is one payment more |
| `Store.Tables.CancelUnfinished` | apps/invoices/views_technician.py:822-837 | exactly the invoice's other unfinished payments are cancelled |
| `Store.Tables.Dispatch` | apps/payouts/services_backfill.py:177-298 | the retry handler of each modelled task kind |
| `Store.Tables.AttemptTask` | apps/payouts/services_backfill.py:122-147 | phase one: the retry's writes and the resolved task, or nothing |
| `Store.Tables.ProcessOne` | apps/payouts/services_backfill.py:107-175 | two phases: resolved with its writes, or rolled back and counted |
| `Store.Tables.ProcessPending` | apps/payouts/services_backfill.py:72-104 | the waiting tasks up to the limit, one transaction each, with counts that add up |
| `Store.Tables.CreateInvoice` | apps/invoices/services.py:131-165 | a draft with the submitted rows and its recalculated total |
| `Store.Tables.UpdateInvoice` | apps/invoices/services.py:230-253 | only drafts change |
| `Store.Tables.Issue` | apps/invoices/services.py:293-316 | only drafts with a positive total are issued, with the percentages snapshotted once |
| `Store.Tables.Cancel` | apps/invoices/services.py:319-332 | only open invoices are cancelled |
| `RefundDesk.Desk.CreateDraft` | apps/payouts/services_adjustment.py:64-109 | a draft for a paid invoice, a positive amount within the total, and a reason, or nothing |
| `RefundDesk.Desk.Advance` | apps/payouts/services_adjustment.py:112-208 | each move of a document is made from one status only |
| `RefundDesk.Desk.Execute` | apps/payouts/services_refund_execution.py:213-275 | applied already, refused, executed, or taken back as a whole |
| `RefundDesk.Desk.Reverse` | apps/payouts/services_refund_execution.py:247-262 | both reversals and the closed record, unless it is in a batch |
| `RefundDesk.Desk.ReverseFee` | apps/payouts/services_refund_execution.py:327-365 | the recorded fee credited once, and the document referring to it |
| `RefundDesk.Desk.ReverseWage` | apps/payouts/services_refund_execution.py:368-403 | the settled wage debited once, and the document referring to it |
| `Visibility.DateClausesAreFutureVisible` | apps/orders/selectors.py:277-299 | the date clauses of the query are the per-order date rule |
| `Visibility.QueryMatchesPredicate` | apps/orders/selectors.py:171-301 | an order is listed exactly when it has a category, is visible and its priority is one of the three |
| `Visibility.AcceptMatchesPermission` | apps/orders/services.py:864-935 | the transaction accepts exactly what the permission allows and that has a category |
| `Visibility.AcceptableIsListed` | apps/orders/services.py:864-935 | what can be accepted is listed |
| `Visibility.AcceptDateIsMonotone` | apps/orders/eligibility.py:259-286 | the accept gate stays open once open and implies visibility of the date |
| `Visibility.FutureVisibilityComesAndGoes` | apps/orders/eligibility.py:92-123 | a future order visible in the evening is hidden at midnight |
| `Visibility.ActiveCountIs` | apps/orders/selectors.py:158-168 | the count behind every limit is the number of orders of the company that wait for the technician or are in progress with them |
| `Visibility.FullTechnicianGetsNothing` | apps/orders/eligibility.py:126-136 | a technician at the limit sees no order, is permitted none and is given none, and no order without a category from five on |
| `Visibility.AcceptGateIsAMoment` | apps/orders/eligibility.py:259-286 | an order can be accepted by date exactly from the gate on its service day on, midnight without a gate |
| `Visibility.FutureVisibleIs` | apps/orders/eligibility.py:92-123 | an order shows from midnight of its day on, before only where future orders are shown and the day is past the gate |
| `Visibility.CategoryVisibleIff` | apps/orders/eligibility.py:139-175 | which orders with a category a technician sees |
| `Visibility.LegacyVisibleIff` | apps/orders/eligibility.py:178-209 | which orders without one |
| `Visibility.RefusalIsReason` | apps/orders/services.py:864-935 | the reason a refusal gives holds |
| `OrderEffects.CreateLeaves` | apps/orders/services.py:41-124 | a new order is NEW and nobody's, with one log row and nothing else changed |
| `OrderEffects.CreateByAdminLeaves` | apps/orders/services.py:624-807 | an administrator's order has a category and any status, or waits with its technician |
| `OrderEffects.PublicRequestLeaves` | apps/tenants/services.py:147-182 | a public request is under review and not logged |
| `OrderEffects.AcceptLeaves` | apps/orders/services.py:831-958 | an accepted order was NEW and nobody's and is WAITING with that technician from now on |
| `OrderEffects.AssignLeaves` | apps/orders/services.py:503-568 | so is an assigned one, from NEW or PENDING_REVIEW |
| `OrderEffects.UnassignLeaves` | apps/orders/services.py:581-608 | a waiting order released is NEW and nobody's |
| `OrderEffects.EditAssignLeaves` | apps/orders/services.py:986-1061 | an order assigned on the edit page waits, and keeps when it was accepted |
| `OrderEffects.EditLeaves` | apps/orders/services.py:379-488 | an edit changes exactly what was submitted, never a finished order, and finishes none |
| `OrderEffects.CompleteLeaves` | apps/orders/services.py:163-238 | a completed order was IN_PROGRESS and is DONE |
| `OrderEffects.RequestCancelLeaves` | apps/orders/services.py:266-312 | a cancel request of an active order is CANCEL_REQUESTED |
| `OrderEffects.ForceCancelLeaves` | apps/orders/services.py:316-363 | a forced cancellation ends CANCELLED and releases the technician |
| `OrderEffects.ReviewLeaves` | apps/orders/cancel_review_service.py:25-125 | an approved request ends CANCELLED, a rejected one active, with everything else kept |
| `OrderEffects.RecycleLeaves` | apps/orders/recycle_service.py:33-124 | a recycled order ends CANCELLED and released, with a NEW successor of its business data |
| `OrderEffects.ReturnToCycleLeaves` | apps/orders/recycle_service.py:163-285 | one returned to the cycle ends CANCELLED with its technician, its successor keeping the date |
| `OrderEffects.TechnicianMoveLeaves` | apps/orders/services.py:1089-1177 | the assigned technician starts, finishes or asks to cancel, and nothing else |
| `OrderEffects.EndingsAreFinal` | apps/orders/services.py:163-363 | over every run a completed order is DONE and a cancelled one CANCELLED for ever, with the technician it had or released, and with no later log row |
| `OrderAudit.EveryRunIsAudited` | apps/orders/services.py:163-1177 | over every run each order's log is an unbroken chain to its status, from its creation or, for a public request, from PENDING_REVIEW, and done and cancelled orders never change |
| `OrderAudit.StepKeepsAudit` | apps/orders/services.py:379-488 | every service keeps that, edits that keep the status among them |
| `OrderAudit.NothingIsAudited` | apps/orders/services.py:41-124 | the empty board has this property, so every run from it does |
| `OrderAudit.StartsFromCreationIff` | apps/tenants/services.py:171-182 | an order's log starts from its creation exactly when it was not a public request |
| `OrderAudit.PublicRequestIsNotLogged` | apps/tenants/services.py:171-182 | a public request has no log row, and its approval logs a first row from PENDING_REVIEW |
| `OrderAudit.RejectLandsActive` | apps/orders/cancel_review_service.py:128-159 | a rejection lands in NEW, WAITING or IN_PROGRESS |
| `OrderAudit.RejectLands` | apps/orders/cancel_review_service.py:128-159 | it lands in the status the order's newest log row came from if that is active, otherwise in WAITING with a technician and NEW without |
| `OrderAudit.RejectRestoresIff` | apps/orders/cancel_review_service.py:128-159 | it restores the status the request came from exactly when that was active and either nothing was logged since or the fallback is that status |
| `OrderAudit.RequestThenReject` | apps/orders/cancel_review_service.py:73-125 | a request, steps that log nothing for the order, and a rejection restore the exact status |
| `OrderAudit.EditedRequestLosesProgress` | apps/orders/cancel_review_service.py:128-159 | a run from an empty board: work begins, a cancel is requested, the order edited, and the rejection puts it back to WAITING |
| `OrderAudit.RecyclingConserves` | apps/orders/recycle_service.py:33-137 | recycling either changes nothing or trades one open order for one new one with exactly its item values, everything else unchanged |
| `OrderAudit.ValuesAlwaysBelong` | apps/orders/recycle_service.py:126-137 | over every run item values belong to existing orders |
| `OrderAudit.AcceptTakesOne` | apps/orders/services.py:831-958 | an accepted order is nobody else's to accept or see, and its technician's active orders, waiting or in progress, are those before and this one, never more than the limit |
| `OrderAudit.WorkKeepsOrLowersCount` | apps/orders/selectors.py:158-168 | starting work keeps a technician's active orders, finishing it takes exactly that order off |
| `OrderDesk.Desk.Create` | apps/orders/services.py:41-124 | a NEW order and its first log row |
| `OrderDesk.Desk.CreateByAdmin` | apps/orders/services.py:624-807 | an order in any status, or WAITING with an available technician |
| `OrderDesk.Desk.CreatePublicRequest` | apps/tenants/services.py:147-182 | an order under review and no log row, or nothing without a category |
| `OrderDesk.Desk.Accept` | apps/orders/services.py:831-958 | every check, then the assignment and its log row |
| `OrderDesk.Desk.Assign` | apps/orders/services.py:503-568 | which orders an administrator can assign, and the new row |
| `OrderDesk.Desk.Unassign` | apps/orders/services.py:581-608 | only a waiting order without an invoice is released |
| `OrderDesk.Desk.EditAssign` | apps/orders/services.py:986-1061 | assignment from the edit page |
| `OrderDesk.Desk.Edit` | apps/orders/services.py:379-488 | an edit never enters or leaves a final status and is always logged |
| `OrderDesk.Desk.Complete` | apps/orders/services.py:163-238 | only an order in progress is completed, and it is DONE then |
| `OrderDesk.Desk.RequestCancel` | apps/orders/services.py:266-312 | only an active order is requested, and it is CANCEL_REQUESTED then |
| `OrderDesk.Desk.ForceCancel` | apps/orders/services.py:316-363 | any open order is cancelled and released |
| `OrderDesk.Desk.Approve` | apps/orders/cancel_review_service.py:25-69 | a request of the reviewer's company is cancelled |
| `OrderDesk.Desk.DetermineRestoreStatus` | apps/orders/cancel_review_service.py:128-159 | the status read from the log, or the fallback |
| `OrderDesk.Desk.Reject` | apps/orders/cancel_review_service.py:73-125 | a request goes back to that status |
| `OrderDesk.Desk.CopyItemValues` | apps/orders/recycle_service.py:126-137 | the loop copies exactly the source order's values |
| `OrderDesk.Desk.Recycle` | apps/orders/recycle_service.py:33-124 | cancel, insert, copy and log |
| `OrderDesk.Desk.ReturnToCycle` | apps/orders/recycle_service.py:163-285 | the same, keeping the technician on the cancelled order |
| `OrderDesk.Desk.TechnicianMove` | apps/orders/services.py:1089-1177 | the technician's transitions, a cancel request that recycles at once among them |
| `OrderItems.ItemTable.SaveItemsFromPost` | apps/orders/item_services.py:115-191 | raises exactly when an active definition has a number the column refuses, and then changes nothing; otherwise, from any prior rows: one row per active definition whose value parses, equal to it, no other rows of the order, other orders untouched |
| `OrderItems.ItemTable.SaveItem` | apps/orders/item_services.py:151-191 | one turn of the loop sets that definition's row and no other, or raises over a number the column refuses |
| `OrderItems.SavedIsDetermined` | apps/orders/item_services.py:115-191 | the form alone determines an order's rows, whatever they were before |
| `OrderItems.SavingTwiceIsSavingOnce` | apps/orders/item_services.py:115-191 | saving the same form again changes nothing |
| `OrderItems.SavedRows` | apps/orders/item_services.py:81-113 | rows are of active definitions of the order's category, each with exactly one typed field, which is what was typed: a number the one parsed, text trimmed, a checkbox always there; other text leaves none |
| `OrderItems.RefusedIff` | apps/orders/item_services.py:115-191 | a save raises exactly over a number of such a definition that the column refuses |
| `OrderWages.PostForOrder` | apps/payouts/services_order_wages.py:64-189 | at most one credit of the total, with the paid and the rateless items |
| `OrderWages.ItemsArePaidOrMissing` | apps/payouts/services_order_wages.py:98-135 | every item with a positive quantity is paid or reported missing, never both |
| `OrderWages.TruncationLoss` | apps/payouts/services_order_wages.py:129-137 | truncating item by item loses less than one rial per paid item |
| `OrderWages.WageIsEarned` | apps/payouts/services_order_wages.py:98-137 | the total is the sum over the items of quantity by active rate, each rounded down |
| `OrderWages.MissingItemsAre` | apps/payouts/services_order_wages.py:98-128 | reported missing are exactly the wage items with a positive quantity and no active rate |
| `OrderWages.WagePostedIff` | apps/payouts/services_order_wages.py:137-189 | exactly when an order's wage is posted, and as which entry |
| `OrderWages.WageIsPostedOnce` | apps/payouts/services_order_wages.py:172-189 | posting again changes nothing, also with other quantities, rates or technician |
| `OrderWages.WageRaisesBalance` | apps/payouts/services_order_wages.py:137-189 | a first posting raises that technician's balance by the total and nobody else's |
| `InvoiceNumbers.ExtractInvertsFormat` | scripts/seed_invoice_counter.py:48-65 | the number read from a formatted number is the one formatted, for every number |
| `InvoiceNumbers.NumbersAreDistinct` | apps/invoices/models.py:450-457 | different numbers are formatted differently |
| `InvoiceNumbers.PaddedIs` | apps/invoices/models.py:450-457 | numbers are padded with zeros to five digits, longer ones left as they are |
| `InvoiceNumbers.Counter.Generate` | apps/invoices/models.py:427-457 | the skip loop ends and gives the first free number after the counter |
| `InvoiceNumbers.IssuedNumbersIncrease` | apps/invoices/models.py:427-457 | all numbers a counter ever issues are increasing and different |
| `InvoiceNumbers.GenerateEach` | apps/invoices/models.py:427-457 | calling the generator again and again, whatever numbers exist in between, gives increasing, hence different numbers |
| `InvoiceNumbers.CollectMaxima` | scripts/seed_invoice_counter.py:75-97 | the dictionary holds each company's largest parsed number |
| `InvoiceNumbers.UnparseableIs` | scripts/seed_invoice_counter.py:88-97 | the count of skipped numbers is that of the numbers the parser makes nothing of |
| `InvoiceNumbers.SkippedIff` | scripts/seed_invoice_counter.py:48-65 | those are the ones that do not end in a digit, blanks at the end aside |
| `InvoiceNumbers.Seed` | scripts/seed_invoice_counter.py:68-126 | counters are created or raised to that maximum and never lowered, and each reported count is the number of companies it happened to |
| `InvoiceNumbers.RaiseCounters` | scripts/seed_invoice_counter.py:101-116 | the loop over the companies, in any order |
| `InvoiceNumbers.SequenceBelowMax` | scripts/seed_invoice_counter.py:88-97 | no number of a company parses to more than its maximum |
| `InvoiceNumbers.SeededCounterSkipsNothing` | apps/invoices/models.py:450-453 | a counter at or above the maximum finds its next number free |
| `InvoiceNumbers.GenerateAfterSeeding` | apps/invoices/models.py:427-457 | right after seeding the next number is the counter plus one |
| `InvoiceBook.Book.GetActive` | apps/invoices/services.py:57-71 | finds an open invoice of the order exactly when there is one |
| `InvoiceBook.Book.Create` | apps/invoices/services.py:131-165 | for any company and order: a draft with the first free number, or nothing at all when the order has an open invoice in any company; numbers stay unique in a company |
| `InvoiceBook.Book.GetOrCreateForOrder` | apps/invoices/services.py:202-227 | afterwards the order has exactly one open invoice, in its company, created only if there was none; refused only when an open invoice of the order is another company's, which cannot be while callers pass orders of their own company |
| `InvoiceBook.Book.Advance` | apps/invoices/models.py:188-203 | issuing, paying and cancelling never break the constraints |
| `InvoiceBook.ConstraintsAre` | apps/invoices/services.py:44-83 | what the constraints forbid: two open invoices of one order, and one number twice in a company |
| `InvoiceBook.GuardAndMovesAre` | apps/invoices/services.py:44-83 | the guard looks for invoices of the order in its company that are neither paid nor cancelled; which status follows which |
| `InvoiceBook.FirstFreeIs` | apps/invoices/models.py:427-457 | the number given is the company's next one that none of its own invoices has |
| `Reconciliation.Reconcile` | apps/payments/services_reconciliation.py:124-286 | the records; scanned, matched and each counter as the number of reported references that come to it, from the rows and the payments alone; and there are issues exactly when there are records |
| `Reconciliation.GroupRows` | apps/payments/services_reconciliation.py:145-159 | rows grouped by trimmed reference, a record for each row without one |
| `Reconciliation.ReportDuplicates` | apps/payments/services_reconciliation.py:161-171 | a record per reference reported more than once |
| `Reconciliation.MatchRows` | apps/payments/services_reconciliation.py:173-251 | every reference is matched or recorded with one issue |
| `Reconciliation.VerdictIff` | apps/payments/services_reconciliation.py:176-251 | what a reported reference comes to: missing when no payment in scope bears it, otherwise its first row against the first such payment, another amount first, then paid against not paid, then failed against pending |
| `Reconciliation.RecordsMean` | apps/payments/services_reconciliation.py:124-286 | each stage's records are as many as the references, blank rows or payments it is about |
| `Reconciliation.RecordedIff` | apps/payments/services_reconciliation.py:187-247 | a mismatch is recorded exactly for the references that come to it, with the payment compared |
| `Reconciliation.ReportMissing` | apps/payments/services_reconciliation.py:253-284 | a record per unmatched payment whose reference is not reported, up to the limit |
| `Reconciliation.ReferencesAre` | apps/payments/services_reconciliation.py:145-159 | the references scanned are the non-empty ones reported, each once |
| `Reconciliation.MissingIsUnmatched` | apps/payments/services_reconciliation.py:253-284 | under any limit, a payment reported missing is a known gateway payment in scope, matched with no reference, whose reference the report lacks |
| `Reconciliation.MissingIffUnmatched` | apps/payments/services_reconciliation.py:253-284 | when the unmatched payments are within the limit, a payment is reported missing exactly when it is such a payment |
| `Reconciliation.CountsSum` | apps/payments/services_reconciliation.py:63-85 | every record has exactly one issue |

## Left out

- Views, templates, URL routing, serializers, forms, permissions by role: request plumbing. Of the views only the two cash receipts are modelled.
- Notifications, SMS, logging and provider I/O: external effects. A provider's answer is an arbitrary input.
- Payment attempts, discount-code lookups and settlement batches: they write tables that nothing modelled here reads. What a batch does to an escrow record is modelled.
- `Store.Tables.SettleDirectly`: split snapshots are no table of the model. Whether a technician is paid out directly is an arbitrary policy per company, fixed over a run; a snapshot that fails means no debit, and the task that only saves the snapshot again is not modelled.
- `Refunds.ExecuteMoves`: the technician is the one the invoice was created with; the original reads the order's technician when it executes, so a technician changed in between would be the one debited.
- `QueuedWrites.NeverChargedIff`: fee policies are fixed over a run; one raised from zero between the refund and the retry would give a waiting task a fee to write.
- `Refunds.EveryRunReconciles`: which of an invoice's escrow records is newest, and what a split snapshot says, are inputs of an execution. `RetryConvergence.RetriesConverge` is about runs without refunds; `Escrows.CloseBeforeRetryIff` says how one meets a retry.
- `Store.Tables.CreateInvoice`: the number is modelled in `InvoiceBook`; customer checks and snapshots of names are not.
- `EscrowAgreement.ReplaceItems`: tax and extra discount are whole rials, only row amounts are typed with decimals; amounts that are no finite number or too long for their columns, whose save raises, are not modelled.
- `LedgerRace.StoredBalancesAreSumsIff`: each insert is seen at once; rows an outer transaction has not committed yet, and the lock on the owner's last row, are not modelled.
- `RetryConvergence.RetriesConverge`: a failure to create the retry task itself, a change of fee or payout policy or of the order's technician between failure and retry, are not modelled; the system has no second queue for them.
- `JalaliConversion.JalaliRoundTrip`, `JalaliConversion.GregorianRoundTrip`: stated from 980/1/1 and 1601-03-21 on. The converters are modelled for all years; before those dates the code uses a base year that is off its cycles, and what it computes is `JalaliConversion.EarlyGregorianIsShifted` from 622 on and `JalaliConversion.EarlyJalaliIsShifted` from 1 on.
- `MonthWindow.ParsedDateIsTypedDateIffReal`: starts from the three numbers; splitting the text and other digit scripts are not modelled.
- `InvoiceNumbers.ExtractInvertsFormat`: the prefix is any text; upper-casing of the company code is not modelled.
- `Ledgers.Ledger.WriteEntry`: only the amount, owner, key and balance of a row; `LedgerRace` alone models its statements one by one, and for the technician ledger only.
- `PaymentSafety.EveryRunIsSafe`: one step is one transaction; row locks are not modelled, and neither is the expiration query's order and limit.
- `OrderDesk.Desk.Edit`: category, dates, required skill, status and the log; descriptive fields and customer resolution are not modelled.
- `OrderDesk.Desk.Complete`: the wage posting is modelled on its own in `OrderWages`, the invoice placeholder not at all.
- `OrderItems.SavedRows`: which text is a number, and which number the column refuses, is a parameter, since decimal parsing is the library's.
- `Visibility.QueryMatchesPredicate`: local time is seconds on one clock, so changes of the time zone offset are not modelled.
- Blanks and letter case are those of ASCII text.
- Immutability guards on saved ledger rows: no modelled step updates a row, so they never fire.
- Reading the fee policy: the original takes a failing read as a fee of zero; here the policy is always readable.
- Financial reports, closing readiness, password and OTP flows, middleware, maintenance scripts other than counter seeding: plain aggregates or one-branch guards, easy members only.
