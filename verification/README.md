# Verification of the agency-credit protocol

A travel agency books hotels on credit. Its debt, `outstandingBalance`, is raised by a conditional
update before the supplier is called, lowered again if the supplier fails, and lowered by
cancellations; its ledger is written separately, and `scripts/verify-ledger.ts` says what should
stay true of the two. This project models that protocol as a state machine whose requests
interleave freely and whose writes may fail at any point, proves what holds over every run, and
shows by concrete reachable states what does not.

`dafny verify dfyconfig.toml` checks everything.

## How it is organised

* `Protocol` - the world (companies, bookings, ledger, year counters, requests with program
  counters) and its steps. A step is one atomic update, one transaction commit, or one external
  answer. Write failures are flags of the step: a write may take effect without being acknowledged.
  Administrator operations that read a balance and save it later carry the balance they read as a
  parameter, so lost updates are part of the model.
* `Conservation`, `Debt`, `Overpayment`, `Compensation`, `CreditCap`, `BookingNumbers` -
  theorems over all runs.
* `Services` - `createBooking`, `cancelBooking` and the administrator's operations over stored
  collections. Each part between two awaits is a method that takes exactly one step of the
  protocol; each whole operation is a run of it. `Companies` has the conditional and unconditional
  updates themselves.
* `VerifyLedger`, `OutstandingReport` - the two programs that read the world: their loops are
  proved against what they should report, and the reports are compared with what the protocol
  guarantees.
* `Findings` - reachable states that show which assumptions are needed.
* `Payments`, `Loyalty`, `Lockout`, `Interceptor`, `SearchCache`, `Csv`, `Template`, `Money` -
  smaller cores, each with its own state machine or reference definition.
* `Wrappers`, `Sums`, `BookingRefs` - options and outcomes of writes; sums over sequences; printing of
  booking references.

## What turned out false, and what holds instead

* `creditBack` can make a debt negative: two cancel requests of one booking can both get past the
  status check (`Findings.DoubleReturnMakesDebtNegative`). `Debt.DebtIsOwed` gives the debt exactly
  in every case, `Debt.NeverNegativeExactly` says exactly when it stays non-negative, and
  `Overpayment.NeverOverpaidExactly` exactly when no booking is overpaid. `Debt.DebtNonNegative`
  needs the supplier to accept a cancellation at most once per reference and to charge no negative
  fee.
* A ledger without requests in flight can still fail assertion 1: after an administrator's refund,
  which raises the wallet but logs a CREDIT_REFUND (`Findings.AdminRefundBreaksAssertion1`).
  `VerifyLedger.WhenMismatched` says exactly when the assertion fails, and
  `VerifyLedger.QuiescentMismatch` that at rest a stored row of such a refund is the only cause.
* The outstanding report can exceed the debt, when the last save of a cancellation fails
  (`Findings.FailedSaveOverstatesReport`). `OutstandingReport.ReportGap` gives the exact difference
  in every reachable state, `OutstandingReport.WithinDebtExactly` when it is not negative.
* Available credit can go below zero (`Findings.LimitCutOverdraws`), exactly when:
  `CreditCap.NeverOverdrawnExactly`.
* A top-up whose `createOrder` failed can be credited (`Payments.FailedOrderCanStillCredit`, with
  the exact condition), and a refunded one can be credited again, directly or through FAILED
  (`Payments.CreditedTwiceAfterRefund`, `Payments.CreditedTwiceThroughFailed`; exactly when:
  `Payments.CreditedAtMostOnceExactly`).
* Refunds can take more from the wallet than a payment brought in (`Payments.RefundTakesMore`;
  exactly when not: `Payments.NeverOvertakenExactly`).
* Exported CSV comes back exactly when the header names are plain (`Csv.RoundTripExactly`):
  `exportToCsv` escapes cells but not headers.
* A rendered template can depend on the order of its variables (`Template.PlaceholderInValue`;
  exactly when: `Template.OrderMattersExactly`), or get a placeholder back (`Template.DollarInValue`;
  exactly when: `Template.InsertedVerbatim`).
* Loyalty points can go negative (`Loyalty.ParallelRedemptionsOverdraw`; exactly when:
  `Loyalty.NeverNegativeExactly`), and the stored rows need not be a running account of them
  (`Loyalty.LateRow`; exactly when they are: `Loyalty.StoredOrderExactly`).
* Requests can wait for ever after a failed token refresh (`Interceptor.FailedRefreshForgets`,
  `Interceptor.ForgottenWaiters`; exactly how long: `Interceptor.WaitsUntilRefreshed`).
* A second token refresh can start beside a running one, after the replay of an earlier owner
  failed (`Interceptor.StaleFailureAllowsTwoRefreshes`); `Interceptor.AlwaysSingleExactly` shows that
  nothing else breaks the rule.
* Documentation and code differ: docs/ARCHITECTURE.md line 44 has settlements change the
  outstanding balance, but recordSettlement changes no balance; line 92 of the repository's README.md
  says that all credit operations use Mongo transactions, but cancelBooking uses none, and the deduct
  runs before the transaction. The model follows the code.

## Model

| member | source | states |
|---|---|---|
| `Conservation.LedgerIdentity` | server/src/modules/bookings/bookings.service.ts:126-266 | In every state any interleaving reaches, per company: outstandingBalance = CREDIT_USE debits - CREDIT_REFUND credits + credit held by requests in flight + credit stranded + administrator refund rows - credit given back on cancels but not logged. |
| `Conservation.Invariant` | server/src/modules/bookings/bookings.service.ts:126-266 | The invariant behind it, for every run: only credit requests of known companies hold credit, every CREDIT_USE row is a booking debit, committed sagas and stored credit bookings add up to the same amount, and logged cancel credits are exactly the refund rows without a balance. |
| `Conservation.BalancedStep` | server/src/modules/bookings/bookings.service.ts:126-266 | Every single step keeps the debt equation, whichever request or administrator takes it. |
| `Conservation.SagaBalanced` | server/src/modules/bookings/bookings.service.ts:138-256 | What a saga adds to the debt it adds to the credit held, stranded or committed, for each of its acts, acknowledged or not. |
| `Conservation.CancelBalanced` | server/src/modules/bookings/bookings.service.ts:515-552 | What creditBack takes off the debt is recorded as credited, and is logged exactly when its ledger row is stored. |
| `Conservation.OfficeBalanced` | server/src/modules/admin/admin.service.ts:166-343 | No operation of administration, payments or loyalty moves the debt, the debits or the refunds that cancellations logged. |
| `Conservation.OfficeMoves` | server/src/modules/admin/admin.service.ts:166-343 | Limit, wallet and points of a company after each act of administration, payments and loyalty: what the act names, by how much, and nothing else. |
| `Conservation.OfficeWrites` | server/src/modules/payments/payments.service.ts:207-219 | Gateway top-ups, wallet deductions and status overrides write no ledger row; a redemption logs what it paid. |
| `Conservation.OfficeAllowed` | server/src/modules/companies/companies.service.ts:113-135 | When gateway top-ups, wallet deductions and redemptions may happen. |
| `Conservation.Grows` | server/src/modules/bookings/bookings.service.ts:183-252 | Companies, bookings and ledger rows are never removed, and a booking keeps its company, method, total and supplier reference through every later step. |
| `Debt.DebtIsOwed` | server/src/modules/bookings/bookings.service.ts:469-552 | In every reachable state the debt is held + stranded + the sum over credit bookings of (total - credited back). |
| `Debt.DebtNonNegative` | server/src/modules/companies/companies.service.ts:105-111 | The unguarded decrement never makes the debt negative, if fees are non-negative and the supplier returns normally at most once per reference: each of the terms is non-negative too. |
| `Debt.NeverNegativeExactly` | server/src/modules/companies/companies.service.ts:105-111 | Over any run, with any supplier, a company's debt never goes below zero if and only if every compensation and every cancel credit that takes effect is at most the debt of that moment: the guard creditBack does not have. |
| `Debt.StepCovered` | server/src/modules/companies/companies.service.ts:105-111 | The same for one step from a state with a non-negative debt. |
| `Debt.HonestInvariant` | server/src/modules/bookings/bookings.service.ts:493-541 | Under that assumption at most one cancel request per booking gets past the supplier and gives back at most the total, however many requests passed the status check. |
| `Debt.OwedNonNegative` | server/src/modules/bookings/bookings.service.ts:516-520 | What all the cancel requests of a credit booking together gave back lies between zero and its total. |
| `Debt.Exchange` | server/src/modules/bookings/bookings.service.ts:515-520 | What cancel requests gave back to a company, added per request, is the same amount added per booking. |
| `Overpayment.NeverOverpaidExactly` | server/src/modules/bookings/bookings.service.ts:516-520 | Over any run, with any supplier, no booking ever gets back more than its total if and only if each credit given back fits in what its booking still owes at that moment: the guard creditBack does not have. |
| `Overpayment.StepFits` | server/src/modules/bookings/bookings.service.ts:516-520 | The same for one step from any state without an overpaid booking. |
| `Overpayment.FittingKeepsDebt` | server/src/modules/companies/companies.service.ts:105-111 | When every credit fits, the debt never falls below what is held and stranded, with no assumption about the supplier. |
| `Overpayment.HonestFits` | server/src/modules/bookings/bookings.service.ts:493-520 | An honest supplier makes every credit fit, although several requests of one booking may pass the status check. |
| `Overpayment.GivenMoves` | server/src/modules/bookings/bookings.service.ts:515-520 | Only a creditBack that took effect adds to what a booking got back, and it adds the refundable amount. |
| `Compensation.FailuresLeaveNoTrace` | server/src/modules/bookings/bookings.service.ts:138-177 | All refused and compensated sagas can be erased at once, together with every refusal: the run that is left is possible, ends with the same companies, bookings, ledger, cancel requests and counters, and leaves every other saga where it was, whatever ran between a deduct and its compensation. |
| `Compensation.EraseFailures` | server/src/modules/bookings/bookings.service.ts:138-177 | The same for any part of them; refusals are erased in any case, since with less credit held they might not be refusals. |
| `Compensation.FailedSagaLeavesNoTrace` | server/src/modules/bookings/bookings.service.ts:151-177 | The same for one such saga, erased with every refusal. |
| `Compensation.TwinRun` | server/src/modules/bookings/bookings.service.ts:151-177 | The same at every point before the saga books: erasing it changes nothing but the credit it holds right now. |
| `Compensation.OnlyCommittedCount` | server/src/modules/bookings/bookings.service.ts:126-266 | Once no saga is in flight or stranded, the debt is what the committed sagas charged less what cancellations gave back. |
| `CreditCap.CreditCap` | server/src/modules/companies/companies.service.ts:73-100 | Over any interleaving outstandingBalance <= creditLimit + walletBalance + all limit cuts and wallet reductions so far. |
| `CreditCap.NeverOverspent` | server/src/modules/companies/companies.service.ts:73-100 | With no cut, all the credit held, stranded or owed fits in limit plus wallet: parallel bookings never jointly overspend. |
| `CreditCap.ClampNeverActs` | server/src/modules/companies/companies.service.ts:56-61 | With no cut, the clamp in getAvailableCredit never acts. |
| `CreditCap.NeverOverdrawnExactly` | docs/RUNBOOK.md:106-110 | Over any run the available credit of a company never goes below zero if and only if each step that lowers limit plus wallet leaves them at or above the debt of that moment: the guard that updateCreditLimit, deductWallet and outdated wallet saves lack. |
| `CreditCap.StepOverdraws` | docs/RUNBOOK.md:106-110 | The same for one step from a company within its ceiling. |
| `CreditCap.LetThroughExactly` | server/src/modules/companies/companies.service.ts:73-100 | In any state of any interleaving a priced credit request is let through if and only if its amount is positive and limit plus wallet less debt covers it, and refused if and only if not; then only that debt moves, by the amount. |
| `CreditCap.WhatCuts` | server/src/modules/admin/admin.service.ts:166-207 | Only a lower limit, a wallet deduction, or an administrator write computed from an outdated wallet read can lower the ceiling. |
| `CreditCap.StepUnderCap` | server/src/modules/companies/companies.service.ts:73-100 | A step that raises a debt ends within limit plus wallet and leaves both alone. |
| `BookingNumbers.ReferencesUnique` | server/src/modules/bookings/bookings.service.ts:42-51 | No reference is issued twice and no two bookings share one, over any interleaving, including numbers drawn by retried or aborted transactions. |
| `BookingNumbers.NumbersInvariant` | server/src/modules/bookings/bookings.service.ts:42-51 | In every reachable state the numbers drawn are distinct and within their year's counter, and each booking prints a drawn number that no request in flight holds. |
| `BookingNumbers.NumbersConsecutive` | server/src/modules/bookings/bookings.service.ts:42-48 | In every reachable state the numbers drawn for a year are exactly 1 up to its counter: the first is 1 and none is skipped. |
| `BookingRefs.Format` | server/src/modules/bookings/bookings.service.ts:49-50 | A reference is BK, the year, and the counter in decimal, in six digits with leading zeros or in more without. |
| `BookingRefs.PrintInjective` | server/src/modules/bookings/bookings.service.ts:49-50 | Two references are equal exactly when year and counter are, also beyond six digits. |
| `BookingRefs.ValueOfPadded` | server/src/modules/bookings/bookings.service.ts:49 | Padding keeps the value: the padded text reads back as the counter. |
| `BookingNumbers.OneDebitPerBooking` | server/src/modules/bookings/bookings.service.ts:182-253 | In every reachable state, after any status override too, a credit booking has exactly one debit row, of its own company and total; an online booking has none. |
| `BookingNumbers.CommitRows` | server/src/modules/bookings/bookings.service.ts:182-253 | A commit stores the one debit of its own booking; nothing referred to that booking before. |
| `BookingNumbers.NewRows` | server/src/modules/admin/admin.service.ts:174-235 | No step but a commit writes a debit that refers to a booking. |
| `VerifyLedger.Verifier.CheckCompanies` | scripts/verify-ledger.ts:77-103 | The loop of assertion 1 appends one violation per mismatched company, in order, and counts companies and mismatches. |
| `VerifyLedger.Verifier.CheckBookings` | scripts/verify-ledger.ts:116-134 | The loop of assertion 2 appends one violation per offending booking, of the right kind, and counts. |
| `VerifyLedger.Verifier.VerifyAll` | scripts/verify-ledger.ts:73-135 | Both loops pass if and only if every company's ledger equals its stored debt and every confirmed or completed credit booking has exactly one debit row, of its total. |
| `VerifyLedger.ExactlyOffendingCompanies` | scripts/verify-ledger.ts:77-103 | A violation is reported if and only if it is that of a listed company whose ledger and debt differ. |
| `VerifyLedger.ExactlyOffendingBookings` | scripts/verify-ledger.ts:116-134 | A violation is reported if and only if it is that of a listed booking without exactly one debit row of its total. |
| `VerifyLedger.NoViolations` | scripts/verify-ledger.ts:77-134 | Nothing is reported if and only if nothing listed offends. |
| `VerifyLedger.LedgerSaysExactly` | scripts/verify-ledger.ts:80-98 | Assertion 1 compares the credit_use debits less the credit_refund credits of a company with its stored debt, written out on the rows. |
| `VerifyLedger.BadDebitsExactly` | scripts/verify-ledger.ts:121-132 | Assertion 2 objects to a booking unless exactly one row of the ledger is a debit that refers to it and its amount is the total. |
| `VerifyLedger.CompanyViolationSays` | scripts/verify-ledger.ts:99 | What a violation of assertion 1 names. |
| `VerifyLedger.BookingViolationSays` | scripts/verify-ledger.ts:126-132 | What a violation of assertion 2 names: a count other than one, or the amount of the sole debit against the total. |
| `VerifyLedger.WhenMismatched` | scripts/verify-ledger.ts:98-101 | In every reachable state assertion 1 reports a company if and only if held + stranded + administrator refunds differs from the unlogged cancel credit. |
| `VerifyLedger.DebitsNeverBad` | scripts/verify-ledger.ts:126-132 | In every reachable state, quiescent or not, assertion 2 has nothing to report. |
| `VerifyLedger.QuiescentMismatch` | scripts/verify-ledger.ts:98-101 | In a reachable state without requests in flight, stranded or unlogged credit, assertion 1 accepts a company if and only if no administrator refund row of it is stored. |
| `VerifyLedger.QuiescentPasses` | scripts/verify-ledger.ts:77-135 | Such a state passes both assertions if and only if no administrator refund row is stored; assertion 2 passes in any case. |
| `VerifyLedger.AdminRowsInvariant` | server/src/modules/admin/admin.service.ts:323-338 | Every administrator refund row is a positive credit. |
| `Companies.DeductExactly` | server/src/modules/companies/companies.service.ts:73-100 | A deduct is accepted if and only if the amount is positive and creditLimit + walletBalance - outstandingBalance covers it, and then moves that one balance by the amount. |
| `Companies.AddedExactly` | server/src/modules/companies/companies.service.ts:105-111 | An increment of a debt moves that one balance of a known company and nothing else. |
| `Companies.CompaniesService.AtomicDeductCredit` | server/src/modules/companies/companies.service.ts:73-100 | Succeeds if and only if the amount is positive and creditLimit + walletBalance - outstandingBalance of a known company covers it; then that debt grows by the amount and nothing else changes, otherwise nothing changes. |
| `Companies.CompaniesService.CreditBack` | server/src/modules/companies/companies.service.ts:105-111 | Takes the amount off the debt without any guard; an unknown company is left alone. |
| `Companies.CompaniesService.TopUpWallet` | server/src/modules/companies/companies.service.ts:113-119 | Adds the amount to the wallet. |
| `Companies.CompaniesService.DeductWallet` | server/src/modules/companies/companies.service.ts:124-135 | Reduces the wallet exactly when it covers the amount. |
| `Companies.CompaniesService.UpdateCreditLimit` | server/src/modules/companies/companies.service.ts:47-50 | Refuses a negative limit, otherwise stores it. |
| `Companies.CompaniesService.GetAvailableCredit` | server/src/modules/companies/companies.service.ts:56-61 | The available credit clamped at zero; not found for an unknown company. |
| `Services.Store.TakeCredit` | server/src/modules/bookings/bookings.service.ts:140 | One step of the protocol: the deduct takes effect, acknowledged or not, or is refused. |
| `Services.Store.RollBack` | server/src/modules/bookings/bookings.service.ts:162-175 | One step: the compensation, whether or not it took effect. |
| `Services.Store.GenerateBookingRef` | server/src/modules/bookings/bookings.service.ts:42-51 | One step: the counter of the year grows by one outside any session and the reference prints it. |
| `Services.Store.Persist` | server/src/modules/bookings/bookings.service.ts:182-253 | One step: the booking and, for credit, its debit row are stored together. |
| `Protocol.RefundableExactly` | server/src/modules/bookings/bookings.service.ts:516-518 | For a credit booking what is given back and the fee make up the total, unless the fee is more, when nothing is given back; nothing for an online booking. |
| `Services.Store.ReturnCredit` | server/src/modules/bookings/bookings.service.ts:516-526 | One step: the refundable part of a credit booking leaves the debt; the row is due if and only if the write was acknowledged and the fee is less than the total of a credit booking. |
| `Services.Store.WriteRefundRow` | server/src/modules/bookings/bookings.service.ts:528-536 | One step: the CREDIT_REFUND row, if its write worked. |
| `Services.Store.SaveBooking` | server/src/modules/bookings/bookings.service.ts:506-513 | One step: the cancelled booking with its fee, refund and refund status, if the save worked. |
| `Services.BookingsService.Begin` | server/src/modules/bookings/bookings.service.ts:138-140 | The deduct as a run of one saga: a refusal changes no account, an update that took effect but threw leaves the credit deducted and fails the request. |
| `Services.BookingsService.Charge` | server/src/modules/bookings/bookings.service.ts:138-177 | Deduct, supplier call and compensation: a run of one saga; no booking and no row; the exact answer for every way the deduct, the supplier and the rollback can go; on a refusal, on an unconfirmed answer, and on an exception whose rollback took effect, the accounts are as before. |
| `Services.BookingsService.Supply` | server/src/modules/bookings/bookings.service.ts:153-177 | The supplier call with its compensation, for a rollback lost, unseen or seen: after an exception a failing rollback is swallowed, after an unconfirmed answer it surfaces, and the debt drops exactly if it took effect. |
| `Services.BookingsService.DrawReferences` | server/src/modules/bookings/bookings.service.ts:183-184 | Every attempt of the transaction draws a reference; the last one's is used and nothing else is stored. |
| `Services.BookingsService.Transact` | server/src/modules/bookings/bookings.service.ts:180-256 | The retried transaction: booking and row are stored together exactly if an attempt was made and the commit took effect, and the id is returned exactly if it was also acknowledged. |
| `Services.BookingsService.CreateCreditBooking` | server/src/modules/bookings/bookings.service.ts:126-266 | The whole credit booking, from the quoted total on, is a run of one saga; a failing prebook leaves everything alone; with the deduct seen it is refused if and only if limit plus wallet less debt does not cover a positive total; once the supplier confirmed, the debt has grown by the total and booking and debit are stored, both or neither; the request succeeds, and starts a loyalty award it does not await, exactly if it saw the commit, so one that failed on an unacknowledged commit still leaves both stored; on any other rejection no booking and no row. |
| `Services.BookingsService.BeginOnline` | server/src/modules/bookings/bookings.service.ts:268-292 | Asking the supplier stores nothing and moves no balance. |
| `Services.BookingsService.CreateOnlineBooking` | server/src/modules/bookings/bookings.service.ts:270-404 | The whole online booking is a run that moves no balance and writes no row; a missing payment or a failing prebook leaves everything alone; a booking is stored exactly if its write took effect: confirmed if and only if the supplier confirmed and else failed, with the full amount to be refunded if and only if the call threw; the answer depends on whether the write was acknowledged; only a confirmed booking starts a loyalty award. |
| `Services.BookingsService.Refusal` | server/src/modules/bookings/bookings.service.ts:475-491 | The checks before cancelling, in the order they are made, each refusal if and only if its check fails and those before it did not. |
| `Services.BookingsService.CallSupplier` | server/src/modules/bookings/bookings.service.ts:493-503 | Asking the supplier writes nothing, whatever it answers. |
| `Services.BookingsService.Log` | server/src/modules/bookings/bookings.service.ts:527-536 | The ledger row of a cancellation, if it is due: company, kind, amount and booking. |
| `Services.BookingsService.Record` | server/src/modules/bookings/bookings.service.ts:527-551 | The ledger row if it is due, then the booking. |
| `Services.BookingsService.GiveCredit` | server/src/modules/bookings/bookings.service.ts:516-526 | The refundable part leaves the debt exactly if creditBack took effect, and the row is due exactly if it was also acknowledged and not zero. |
| `Services.BookingsService.Refund` | server/src/modules/bookings/bookings.service.ts:505-551 | After the supplier returned: the debt drops by the refundable part if creditBack took effect, and the booking is cancelled if its save took effect. |
| `Services.BookingsService.CancelBooking` | server/src/modules/bookings/bookings.service.ts:469-552 | The whole cancellation is a run of one cancel request; if creditBack took effect, the debt of the company drops by total less fee for a credit booking with a fee below its total and by nothing otherwise; exactly that amount is logged if it was acknowledged and the row is not lost; the booking is cancelled with fee, refund and refund status if the save took effect; it succeeds exactly when the supplier returned and the save was acknowledged. |
| `Services.EffectOf` | server/src/modules/bookings/bookings.service.ts:505-551 | The same effect, from the amounts and rows the protocol names. |
| `Overpayment.FeeIsKept` | server/src/modules/bookings/bookings.service.ts:516-520 | Once the creditBack of a request took effect on a credit booking, exactly the fee, or the total if that is less, stays uncredited by that request through every continuation of the run. |
| `Services.OfficeService.UpdateCreditLimit` | server/src/modules/admin/admin.service.ts:166-186 | Saves the limit unless it equals the one read, and logs an ADJUSTMENT of the difference to the limit read, with the wallet read, for every way the save and the row can go; both values may be outdated by then. |
| `Services.OfficeService.AdminTopUpWallet` | server/src/modules/admin/admin.service.ts:188-207 | Overwrites the wallet with the balance read earlier plus the amount, logs a TOPUP once the save was acknowledged, and returns the new balance if the row was too. |
| `Services.OfficeService.UpdateBookingStatus` | server/src/modules/admin/admin.service.ts:302-310 | Overrides the status of any booking and changes nothing else. |
| `Services.OfficeService.RefundBooking` | server/src/modules/admin/admin.service.ts:312-343 | Marks the refund on an existing cancellation, then raises the wallet, not the debt, then logs a CREDIT_REFUND; each write only after the one before was acknowledged. |
| `Services.OfficeService.RecordSettlementOf` | server/src/modules/admin/admin.service.ts:209-238 | Logs a SETTLEMENT with the wallet read and changes no balance. |
| `Services.OfficeService.AddLoyaltyPoints` | server/src/modules/wallet/wallet.service.ts:283-308 | The award a booking started, as a step of the protocol: points and a LOYALTY_EARN row, no other balance. |
| `Findings.DoubleReturnMakesDebtNegative` | server/src/modules/bookings/bookings.service.ts:483-520 | A reachable state with a debt of -100: two cancel requests of one booking both pass the status check and the supplier returns for both. |
| `Findings.AdminRefundBreaksAssertion1` | server/src/modules/admin/admin.service.ts:323-338 | A reachable quiescent state that assertion 1 reports, after one administrator refund. |
| `Findings.FailedSaveOverstatesReport` | server/src/modules/bookings/bookings.service.ts:515-551 | A reachable quiescent state whose outstanding report shows 100 while the debt is 0: the last save of a cancellation failed. |
| `Findings.LimitCutOverdraws` | docs/RUNBOOK.md:106-110 | A reachable state with negative available credit, after the limit was cut below the debt. |
| `OutstandingReport.Group` | server/src/modules/admin/admin.service.ts:532-565 | The grouping loop: one entry per company met, whose total and four buckets are the sums over its bookings. |
| `OutstandingReport.GetOutstanding` | server/src/modules/admin/admin.service.ts:518-575 | The report lists each company with a booking found exactly once, filtered by a non-empty bucket if one is asked for; on the timestamps, a booking counts in 0-30 below 31 full days of age, in 31-60 below 61, in 61-90 below 91, and in 90+ from there. |
| `OutstandingReport.AgeByTime` | server/src/modules/admin/admin.service.ts:544-564 | The bucket of a booking by the milliseconds since it was created. |
| `OutstandingReport.NeverYounger` | server/src/modules/admin/admin.service.ts:544-564 | Time only moves a booking to older buckets. |
| `OutstandingReport.FoundExactly` | server/src/modules/admin/admin.service.ts:522-527 | The query finds each confirmed credit booking as often as it is stored, and nothing else. |
| `OutstandingReport.BucketsAddUp` | server/src/modules/admin/admin.service.ts:559-564 | The four buckets of an entry add up to its total. |
| `OutstandingReport.OrderIrrelevant` | server/src/modules/admin/admin.service.ts:541-567 | Reports over the same bookings in any order have the same entries. |
| `OutstandingReport.TotalsAddUp` | server/src/modules/admin/admin.service.ts:559-574 | The totals of the unfiltered report add up to all bookings found. |
| `OutstandingReport.EntryShows` | server/src/modules/admin/admin.service.ts:521-559 | The total shown for a company is the sum of its confirmed credit bookings in the database, in whatever order the query lists them. |
| `OutstandingReport.ReportGap` | server/src/modules/admin/admin.service.ts:518-575 | In every reachable state: debt - total shown = held + stranded + owed on bookings no longer confirmed - credit given back on bookings still confirmed. |
| `OutstandingReport.WithinDebtExactly` | server/src/modules/admin/admin.service.ts:518-575 | In every reachable state the total shown is within the debt if and only if the credit given back on bookings still confirmed is at most what is held, stranded or owed on the others. |
| `OutstandingReport.NoEarlyRefundsExactly` | server/src/modules/bookings/bookings.service.ts:515-551 | In every reachable state that credit is zero if and only if every cancel request that gave credit back has a booking no longer confirmed. |
| `OutstandingReport.GapWhenSaved` | server/src/modules/admin/admin.service.ts:518-575 | Without status overrides, if no credit was given back by a request that did not save its booking, the gap is held + stranded + what is retained on bookings no longer confirmed. |
| `OutstandingReport.ReportWithinDebt` | server/src/modules/admin/admin.service.ts:518-575 | With an honest supplier as well, the total shown never exceeds the debt. |
| `Payments.PaymentsService.CreateOrder` | server/src/modules/payments/payments.service.ts:43-97 | The stored payment after each way the gateway call and the saves can end, a save that throws after taking effect included; an id is returned only when all went well. |
| `Payments.PaymentsService.HandlePostPaymentSuccess` | server/src/modules/payments/payments.service.ts:207-219 | Tops up the wallet of a wallet_topup payment, and only of that kind. |
| `Payments.PaymentsService.VerifyPayment` | server/src/modules/payments/payments.service.ts:103-129 | Status, wallet and answer after a verification, for every answer and write failure: SUCCESS if approved and FAILED if declined, once the save took effect on a payment not yet successful, and unchanged otherwise. |
| `Payments.PaymentsService.HandleWebhook` | server/src/modules/payments/payments.service.ts:160-199 | Status, events and wallet after a webhook with a valid signature: SUCCESS if approved and FAILED if declined, once the save took effect on a payment not yet successful, and unchanged otherwise; the event is kept whatever the status. |
| `Payments.DeclinedIsFailed` | server/src/modules/payments/payments.service.ts:122-126 | Over any run, right after a declining handler whose save took effect, a payment with an order id that has not succeeded is FAILED, and one that has still is. |
| `Payments.PaymentsService.ProcessRefund` | server/src/modules/payments/payments.service.ts:224-253 | Only a successful payment is refunded; the status is saved before the wallet is charged, by the refund's amount if the wallet covers it; the answer for every way the writes can go. |
| `Payments.PaymentsCounted` | server/src/modules/payments/payments.service.ts:103-253 | For any number and order of handlers: entries into SUCCESS - refunds is 1 if the status is SUCCESS and else 0, top-ups never exceed entries, and each credits the payment's amount. |
| `Payments.CreditedAtMostOnce` | server/src/modules/payments/payments.service.ts:103-219 | A payment never refunded is credited at most once, a booking payment never, a payment without a stored order id never. |
| `Payments.WalletFlow` | server/src/modules/payments/payments.service.ts:207-249 | Conservation: a wallet holds what it started with, plus each payment's amount once per credit, less what refunds took. |
| `Payments.CreditStep` | server/src/modules/payments/payments.service.ts:207-249 | One handler changes the wallet by exactly the change of its payment's tally. |
| `Payments.EnteredAtMostOnceExactly` | server/src/modules/payments/payments.service.ts:103-253 | Over any run a payment enters SUCCESS at most once if and only if no approving verification or webhook meets it unsuccessful once it was refunded, whatever its status is by then. |
| `Payments.CreditedAtMostOnceExactly` | server/src/modules/payments/payments.service.ts:103-253 | Over any run a payment is credited at most once if and only if no such handler credits it again. |
| `Payments.NeverOvertakenExactly` | server/src/modules/payments/payments.service.ts:224-249 | Over any run, refunds never take more from the wallet for a payment than was credited for it if and only if each refund that reaches the wallet is at most what is left of the credit: the comparison processRefund does not make. |
| `Payments.RefundTakesMore` | server/src/modules/payments/payments.service.ts:236-249 | A run for every excess that the wallet covers: an order, its approval, and a refund of more than was paid. |
| `Payments.CreditedTwiceAfterRefund` | server/src/modules/payments/payments.service.ts:172-188 | A run for every amount: order, approval, refund, and a repeated webhook that credits again. |
| `Payments.CreditedTwiceThroughFailed` | server/src/modules/payments/payments.service.ts:172-196 | A run in which a declining webhook turns REFUNDED into FAILED before the second credit. |
| `Payments.FailedOrderCanStillCredit` | server/src/modules/payments/payments.service.ts:65-96 | After any run, an order that createOrder reports as failed can ever be credited, by any later handlers, if and only if it is a top-up whose order id was stored: by a save that threw after taking effect, or by the save in the catch block. |
| `Payments.PaymentStays` | server/src/modules/payments/payments.service.ts:103-253 | No later handler changes the company, kind, amount or order id of a payment. |
| `Loyalty.WalletService.IncrementPoints` | server/src/modules/wallet/wallet.service.ts:283-293 | One update of the points; the row it gives rise to shows the balances that update returned. |
| `Loyalty.WalletService.SaveRow` | server/src/modules/wallet/wallet.service.ts:295-308 | The row is stored later and on its own, or lost. |
| `Loyalty.WalletService.AddLoyaltyPoints` | server/src/modules/wallet/wallet.service.ts:276-311 | The update, then its row. |
| `Loyalty.WalletService.AwardLoyaltyPoints` | server/src/modules/bookings/bookings.service.ts:78-113 | Grants the points of the rule, or nothing when the booking does not qualify. |
| `Loyalty.WalletService.ReadPoints` | server/src/modules/wallet/wallet.service.ts:317 | The balance a redemption reads, as a step of its own. |
| `Loyalty.WalletService.TakePoints` | server/src/modules/wallet/wallet.service.ts:319-343 | Refused or carried out by the balance read earlier; then points leave and their value reaches the wallet in one update that checks nothing. |
| `Loyalty.WalletService.RedeemLoyaltyPoints` | server/src/modules/wallet/wallet.service.ts:316-363 | Read, decision, update and row, when nothing comes between them. |
| `Loyalty.PointsConserved` | server/src/modules/wallet/wallet.service.ts:276-363 | In every run points + redeemed = awarded, the wallet credit is the value of the points redeemed, and awards are within pointsPerAed of the bookings' amounts. |
| `Loyalty.PointsNonNegative` | server/src/modules/wallet/wallet.service.ts:316-337 | When redemptions are serialised, each going on with the latest read and no other redemption between that read and its update, the points never go negative, whatever awards come between. |
| `Loyalty.ReadStillCovered` | server/src/modules/wallet/wallet.service.ts:317-330 | From a read to the next redemption the balance read stays covered: the points only grow. |
| `Loyalty.NeverNegativeExactly` | server/src/modules/wallet/wallet.service.ts:316-337 | Over any run the points never go negative if and only if no redemption that passed its check takes more points than there are when it updates: the guard the update does not have. |
| `Loyalty.RedeemedWithinEarned` | server/src/modules/wallet/wallet.service.ts:276-372 | With redemptions serialised in that sense, the wallet credit ever redeemed is at most pointsPerAed * pointValueFils / 100 of the awarded bookings' AED amounts. |
| `Loyalty.PointsExactly` | server/src/modules/bookings/bookings.service.ts:87-102 | A booking earns the whole points its amount in AED times pointsPerAed is worth, if its hotel is eligible and the amount reaches the minimum, and nothing otherwise; the AED amount of a USD booking is the integer nearest to 3.67 times its total. |
| `Loyalty.AwardBound` | server/src/modules/wallet/wallet.service.ts:369-372 | The points of one award are at most pointsPerAed times the amount in AED. |
| `Loyalty.PrefixSums` | server/src/modules/wallet/wallet.service.ts:283-353 | For every interleaving of updates and row writes, rows lost or late included: in the order of the updates each row's pointsBalanceAfter is the sum of the signed points up to and including it, the stored points are the sum of all, and what is stored are rows of distinct updates. |
| `Loyalty.StoredOrderExactly` | server/src/modules/wallet/wallet.service.ts:283-353 | The stored rows, in the order stored, are a running account if and only if, each time a row is stored, the points of earlier updates not stored yet equal those of later updates stored already. |
| `Loyalty.AwardsInOrder` | server/src/modules/wallet/wallet.service.ts:276-311 | When points are only awarded, that is if and only if the rows are stored in the order of the updates, none before a stored one lost. |
| `Loyalty.LateRow` | server/src/modules/bookings/bookings.service.ts:258-263 | A run of two awards whose rows are stored the other way round, so that they are no running account. |
| `Loyalty.ParallelRedemptionsOverdraw` | server/src/modules/wallet/wallet.service.ts:317-337 | A run for every rule that grants points: one award, two reads, and then the two updates, which take the points below zero. |
| `Lockout.AuthService.Login` | server/src/modules/auth/auth.service.ts:83-130 | Exactly when each answer is given; a wrong password adds one failure, and locks for 15 minutes from the fifth on; a success clears both; any other answer changes nothing. |
| `Lockout.CounterIsFailures` | server/src/modules/auth/auth.service.ts:85-130 | failedLoginAttempts is the number of wrong passwords since the last success, and the lock ends a lockout after the last of them from the fifth on, also after the lock expired. |
| `Lockout.FailuresApart` | server/src/modules/auth/auth.service.ts:85-98 | From the fifth on, wrong passwords are at least a lockout apart. |
| `Lockout.RateBound` | server/src/modules/auth/auth.service.ts:73-100 | n >= 5 wrong passwords at times t1..tn satisfy n <= 5 + (tn - t5) / 15 minutes. |
| `Lockout.LockedIgnoresEverything` | server/src/modules/auth/auth.service.ts:86-89 | While locked, even the right password changes nothing. |
| `Money.RoundTripExactly` | server/src/modules/integrations/paytabs/paytabs.service.ts:77-86 | Rounding within the relative bound of binary64 guarantees toMinor(toDecimal(x)) = x exactly for the integers with abs(x) < 2^51, which includes every amount up to 2^50. |
| `Money.DecimalExactly` | server/src/modules/integrations/paytabs/paytabs.service.ts:77-79 | The decimal sent is the amount divided by 100, up to one rounding. |
| `Money.RoundExactly` | server/src/modules/integrations/paytabs/paytabs.service.ts:84-86 | Math.round takes the nearest integer, halves up. |
| `Money.RoundTrip` | server/src/modules/integrations/paytabs/paytabs.service.ts:77-86 | The guarantee below the limit, whichever way the division and the product round. |
| `Money.Drifts` | server/src/modules/integrations/paytabs/paytabs.service.ts:77-86 | From the limit on, two roundings within the bound that change the amount. |
| `Money.ErrorBound` | server/src/modules/integrations/paytabs/paytabs.service.ts:77-86 | The two roundings together move the amount by at most abs(x) (2u + u^2), u = 2^-53. |
| `Csv.RoundTripExactly` | server/src/modules/reports/reports.service.ts:295-308 | For a non-empty list of records, the table read back has the header row and, for each record and header, the record's text under that header or nothing, if and only if there is a column and no header name contains a comma, quote or LF; cells may contain anything. |
| `Csv.NoData` | server/src/modules/reports/reports.service.ts:296 | What an empty list exports as. |
| `Csv.EscapedIfNeeded` | server/src/modules/reports/reports.service.ts:299-304 | A cell is printed as it is if and only if it has no comma, quote or LF, and is quoted otherwise. |
| `Csv.RoundTrip` | server/src/modules/reports/reports.service.ts:295-308 | The sufficient direction, for any cells. |
| `Csv.ReadEscaped` | server/src/modules/reports/reports.service.ts:299-304 | An escaped cell reads back as the cell, whatever follows it. |
| `Csv.NotItsOwnQuoting` | server/src/modules/reports/reports.service.ts:298-307 | A header that starts with a quote never happens to be its own quoted form. |
| `Csv.QuotedField` | server/src/modules/reports/reports.service.ts:299-304 | A quoted field that is read as g was printed as g with its quotes doubled, and closed. |
| `Csv.HeadersComeBack` | server/src/modules/reports/reports.service.ts:298-307 | With a special header name the header row never comes back. |
| `Template.RenderEmailTemplate` | server/src/modules/cms/cms.service.ts:197-204 | The loop is the left-to-right composition of global replacements; none for a missing template. |
| `Template.SequentialIsSimultaneous` | server/src/modules/cms/cms.service.ts:199-203 | Replacing variable by variable over the text equals substituting all at once in the parsed template, for values that are inserted verbatim and inert for other names; unknown placeholders stay. |
| `Template.OrderIrrelevant` | server/src/modules/cms/cms.service.ts:200-202 | The order of the variables does not matter. |
| `Template.ReplaceFillsOne` | server/src/modules/cms/cms.service.ts:201 | One global replacement fills the holes of its name and nothing else. |
| `Template.InsertedVerbatim` | server/src/modules/cms/cms.service.ts:201 | For every name: a value is inserted as it is, wherever the placeholder stands, if and only if no dollar sign in it is followed by a dollar sign, an ampersand, a backtick or an apostrophe; the template that is the placeholder alone already shows the difference. |
| `Template.OrderMattersExactly` | server/src/modules/cms/cms.service.ts:200-202 | For a value inserted verbatim: its order against any other well-behaved variable never matters, whatever the template, if and only if the value neither contains a placeholder of another name nor ends in the beginning of one. |
| `Template.NotQuietMatters` | server/src/modules/cms/cms.service.ts:200-202 | For any other value, a template and a second variable for which the order matters. |
| `Template.SpecialPairs` | server/src/modules/cms/cms.service.ts:201 | Between texts quiet for the name: a doubled dollar gives one dollar, and the other pairs give the placeholder, what stands before it, and what stands after it. |
| `Template.PlaceholderInValue` | server/src/modules/cms/cms.service.ts:200-202 | For any two names and any value inserted verbatim: a value that is the other variable's placeholder is substituted again, or not, depending on the order. |
| `Template.DollarInValue` | server/src/modules/cms/cms.service.ts:201 | A dollar sign in a value can put the placeholder back. |
| `Interceptor.AuthInterceptor.OnAnswer` | apps/client/src/app/core/interceptors/auth.interceptor.ts:25-44 | What a first answer does: pass on, wait, replay at once, or start the refresh, and when. |
| `Interceptor.LoggedOutExactly` | apps/client/src/app/core/interceptors/auth.interceptor.ts:52-58 | Over any run the user is logged out if and only if a refresh, or the replay of a request that owned one, failed. |
| `Interceptor.AuthInterceptor.OnRefreshed` | apps/client/src/app/core/interceptors/auth.interceptor.ts:47-51 | The subject emits: every waiting request is replayed in the order of subscription, then the owner. |
| `Interceptor.AuthInterceptor.OnOwnerError` | apps/client/src/app/core/interceptors/auth.interceptor.ts:52-58 | The owner's error handler, which covers the refresh and the owner's own replay. |
| `Interceptor.AlwaysCoherent` | apps/client/src/app/core/interceptors/auth.interceptor.ts:20-60 | In every interleaving: isRefreshing implies refreshDone is false, a waiting request implies refreshDone is false, each request is sent once or twice. |
| `Interceptor.RefreshReplaysEachWaiterOnce` | apps/client/src/app/core/interceptors/auth.interceptor.ts:47-51 | A successful refresh sends each waiting request and the owner exactly once more, and nobody else. |
| `Interceptor.AtMostOneRefresh` | apps/client/src/app/core/interceptors/auth.interceptor.ts:34-59 | At most one refresh is in flight, and isRefreshing says whether one is, as long as no owner's replay fails under a newer refresh. |
| `Interceptor.SingleRefreshStep` | apps/client/src/app/core/interceptors/auth.interceptor.ts:34-59 | A step keeps that property if and only if it is not such a failure. |
| `Interceptor.AlwaysSingleExactly` | apps/client/src/app/core/interceptors/auth.interceptor.ts:34-59 | Over any run there is at most one refresh at any time, the flag saying so, if and only if no owner's replay fails under a newer refresh. |
| `Interceptor.StaleFailureAllowsTwoRefreshes` | apps/client/src/app/core/interceptors/auth.interceptor.ts:52-58 | A run of three requests that ends with two refreshes in flight after such a failure. |
| `Interceptor.WaitsUntilRefreshed` | apps/client/src/app/core/interceptors/auth.interceptor.ts:35-51 | Over any continuation of any run, a waiting request has been let go if and only if a refresh succeeded meanwhile; a failed one lets nobody go. |
| `Interceptor.ForgottenWaiters` | apps/client/src/app/core/interceptors/auth.interceptor.ts:52-58 | Once no refresh is in flight, a request still waiting is never answered unless another request meets a 401. |
| `Interceptor.FailedRefreshForgets` | apps/client/src/app/core/interceptors/auth.interceptor.ts:34-58 | A run of two requests that gets there: both meet a 401 and the refresh of the first fails. |
| `SearchCache.KeyDeterminesCriteria` | server/src/modules/hotels/hotels.service.ts:47-105 | Requests whose key texts are equal ask the supplier the same question, although the key is built from the raw request, with missing and null properties, and the question from its defaults. |
| `SearchCache.KeyExactly` | server/src/modules/hotels/hotels.service.ts:47-58 | Two requests have the same key text if and only if they agree in destination, city, dates, rooms, and in nationality and currency after the defaults. |
| `SearchCache.CriteriaExactly` | server/src/modules/hotels/hotels.service.ts:93-105 | What the supplier is asked, with every default written out. |
| `SearchCache.StoredIsFound` | server/src/modules/hotels/hotels.service.ts:60-78 | A stored answer is found by every request with its key for 300 s, unless it is null. |
| `SearchCache.JsonFormExactly` | server/src/modules/hotels/hotels.service.ts:65-74 | A value survives the cache unchanged if and only if JSON can write all of it. |
| `SearchCache.Layout` | server/src/modules/hotels/hotels.service.ts:48-56 | The punctuation of the JSON text. |
| `SearchCache.SameTextSameForm` | server/src/modules/hotels/hotels.service.ts:48-56 | Two values are written as the same JSON text if and only if they have the same JSON form. |
| `SearchCache.ShowInjective` | server/src/modules/hotels/hotels.service.ts:48-56 | The JSON text of a value determines the value and where it ends, whatever follows. |
| `SearchCache.JsonFormTwice` | server/src/modules/hotels/hotels.service.ts:60-74 | What was read back from the cache is unchanged by a further round trip. |
| `SearchCache.CacheTransparent` | server/src/modules/hotels/hotels.service.ts:82-111 | However answers, stores, failed writes and evictions interleave, a hit is the supplier's answer to the same criteria, up to JSON form, stored at most 300 s ago. |
| `SearchCache.HitIsGenuine` | server/src/modules/hotels/hotels.service.ts:85-89 | The same for one lookup, from the invariant of the cache. |
| `SearchCache.RunKeepsCache` | server/src/modules/hotels/hotels.service.ts:60-78 | Every entry of the cache, in every interleaving, is a supplier's answer stored under the key of its own request. |
| `SearchCache.HotelsService.GetFromCache` | server/src/modules/hotels/hotels.service.ts:60-69 | A miss without Redis, on an error, after the time to live, and on null. |
| `SearchCache.HotelsService.SetInCache` | server/src/modules/hotels/hotels.service.ts:71-78 | Stores the JSON form, or nothing without Redis or on an error. |
| `SearchCache.HotelsService.Search` | server/src/modules/hotels/hotels.service.ts:82-111 | A hit returns the cached answer and changes nothing; a miss returns what the supplier says and stores it. |

## Left out

- In the protocol an update by an administrator or of loyalty points and its ledger row are one step, in which the row may be lost; `Loyalty` has the two apart.
- Money as floating point: amounts of the protocol, payments and loyalty are integers in minor units; fractional amounts and integers beyond 2^53 are not modelled, except in `Money`.
- Prices: prebook, markup percentages, nights, guests, rooms and hotel details; the total of a booking is any integer.
- Soft deletion: no code in the modelled services sets `deletedAt`, and queries that filter by it are modelled without it.
- cancelBooking ignores the `success` flag of the supplier's answer; so does the model, which carries the flag and never reads it.
- The supplier's honesty (at most one normal return of cancel per reference, fees not negative) is an assumption of `Debt.DebtNonNegative` and `OutstandingReport.ReportWithinDebt` only.
- The refund status PROCESSED that cancelBooking stores even when creditBack failed is modelled as stored; nothing is proved about refund statuses.
- The administrator's refund is one step; the booking and the company it saves are not interleaved with each other, only with a stale wallet read.
- The manual corrections of docs/RUNBOOK.md are not steps of the protocol.
- Assertion 3 of verify-ledger: no code maintains it.
- Sums and finds of verify-ledger and getOutstanding are taken over one state of the database: their queries are not interleaved with running requests.
- Payments.PaymentsCounted: a payment whose very first save has no effect does not exist; handlers of one payment are serialised; two concurrent handlers that both read the payment before either saves are not modelled. Signatures, gateway selection and missing order ids in a webhook are checks before the modelled part.
- Loyalty.RedeemedWithinEarned: one fixed active rule, points per AED and the USD rate as real numbers, expiry not modelled (no code expires points); for this bound redemptions do not overlap each other; without that, `Loyalty.NeverNegativeExactly`.
- Lockout.RateBound: logins of one user are serialised and the clock does not run backwards; password comparison is a boolean, and unknown users, tokens and password resets are left out.
- Money.RoundTripExactly: rounding is bounded by section 4.3.1 of IEEE 754-2019 relative to the exact result; which of the two neighbours binary64 picks is not modelled, so an amount from 2^51 on may still come back.
- Csv.RoundTripExactly: a record is its keys and the text of its values; LF separates records and is not expected after the last one; the placeholder line for an empty list is printed but not read back.
- Template.SequentialIsSimultaneous: names are identifiers, so no name is special in a regular expression; texts may contain braces as long as none is doubled or last; values may contain any that make no placeholder of another name, and no special dollar pair.
- Interceptor.AlwaysCoherent: callbacks run to completion; unsubscribed and retried requests are not modelled, and neither are HTTP details beyond a 401 outside /auth/.
- SearchCache.CacheTransparent: hashes do not collide; numbers in requests are integers and characters are Unicode scalar values, so lone surrogates are not modelled; Redis may drop entries early but does not keep them past their time to live.
- SOAP, HTTP, PDF, Excel, e-mail, bcrypt, JWT and HMAC: each call is only its outcome.
- Aggregation reports, list queries, statements, notifications, support tickets, CMS editing, roles and guards: no invariant of interest.
- `incrementOutstanding` and `decrementOutstanding` of the companies service have no caller in these services.
