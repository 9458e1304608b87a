# The tenancy, billing and payment ledger

A model of the store behind the rental back end (rooms, tenants, room assignments, bills, payments,
gateway checkouts, payment-proof submissions) and of every operation that moves it: `AssignRoom` and
onboarding `Cancel`, `GenerateMonthly` and `MarkOverdue`, `RecordManual`, `PayBill`, `Submit`, `Approve`,
`Reject` and submission `Cancel`, and the owner's room and tenant create, patch and delete.

The rules of `docs/business-rules.md` are not local to one function. They follow from how these operations
couple four status machines (bill, assignment, room and tenant, submission), and several updates
(`MarkBillPaid`, `ActivateAssignment`, `SetBillGatewayPending`, `MarkApproved`) check no status themselves:
they are safe because of an earlier lock and because of what holds in every reachable state. So the model
has three layers and the proofs connect them.

1. **Operations** (`Operations.dfy`): what each operation does to the tables when it runs alone, as a
   function from tables and request to an error or the committed tables. `Op` is the alphabet of everything
   the database commits at once; `Replay` is a run. `Enabled` collects what holds whenever the code takes a
   step: the request bindings (rent at least 1, due day 1 to 31, the statuses a create or patch accepts), a
   clock that does not go back inside one `PayBill`, and, for the two services that write on the strength
   of an earlier read, what that read established. `Protocol.StaleListStillOpens` and
   `Protocol.StaleClaimStillFits` prove that the last kind costs nothing: it holds however long ago the read
   was. `Protocol.StaleReject` does the same for `Reject`, which reads first and updates on a condition.
2. **Invariant and runs** (`Invariants.dfy`, `Preservation.dfy`, `Runs.dfy`, `Occupancies.dfy`,
   `Generation.dfy`, `Money.dfy`, `Isolation.dfy`): one invariant over all tables, kept by every operation,
   and the properties of runs that follow from it. `Tenancies.dfy`, `Checkouts.dfy`, `Charges.dfy`,
   `Causes.dfy`, `Refusals.dfy` and `Directory.dfy` follow what a request says into the tables: which rows hold
   its values, for how long and in what sums they count, when it is accepted, what an error says about the
   tables, and which request may move which status.
3. **Statements and interleavings** (`Statements.dfy`, `Refinement.dfy`, `Stability.dfy`, `Coverage.dfy`,
   `Protocol.dfy`, `Contention.dfy`): each transaction as its sequence of SQL statements. A statement reads the latest
   committed tables and the transaction's own writes, takes row locks and unique-index entries, and keeps
   them to the end; writes are published at commit. Any number of requests are in flight, any request may
   stop at any point (an error, a deadlock victim, a lost connection), and single statements run in between.
   `Refinement.RunsAsSpecified` says that a transaction alone does what layer 1 says, errors included, and
   `Protocol.Serializable` says that every interleaving commits what its operations would commit one after
   another in commit order, `Protocol.FailureIsOperation` that a request that fails reports the error its
   operation has on the tables of that moment, and `Protocol.ReplyIsOperation` that one that commits returns
   what its operation returns there. Everything proved about runs, errors and results therefore holds of
   interleavings.

`Store.dfy` is the services' own form: a class with a map per table whose methods change rows in place,
return early, and roll back to the tables they started from. Each method's new state and result are those of
layer 1, and each keeps `Valid()`: the tables are those of some run.

`Calendar.dfy` has the proleptic Gregorian calendar (section 5.7 and Appendix C of RFC 3339) and billing
periods, `MonthText.dfy` the text of months and bill numbers.

Row ids, clock readings, the outcome of a proof upload and the parse of a request's dates are parameters.
A row id is the 128-bit value of its UUID, an instant is in microseconds, a day is counted from 0000-01-01;
clocks show no earlier one.

Where the code and its documentation disagree the model follows the code:

* The comment on `buildBillNumber` calls the number unique per owner. It keeps eight digits of the
  assignment id, so it is not; `Generation.RefusedIffPrefixTaken` and
  `Generation.FirstBillRefusedIffPrefixTaken` give the exact condition under which billing is refused for it,
  and `Generation.RandomIdsRefused` and `Generation.BillingRefusedForDigits` ledgers in which it is.
* BR-018 lets a bill in the gateway become overdue, BR-009 describes moving out. No code does either.
* An owner may patch a room to any status, so the room table need not tell who lives where;
  `Occupancies.PatchKeepsOccupancyIff` says exactly which patches keep it telling, and
  `Occupancies.PatchBreaksOccupancy` is a run that does not.
* The room service's delete checks the status in one statement and deletes in another;
  `Occupancies.DeleteVacantIffUncounted`, `Occupancies.StaleDeleteVacantIff` and `Occupancies.DeleteRace` say
  exactly when that deletes a room somebody holds, and `Occupancies.PatchedThenDeleted` is a run without any
  race in which it does.
* The column lists used at `internal/repository/tenant_portal_repository.go:117` and
  `internal/repository/manual_payment_submission_repository.go:109` carry table aliases the statements do
  not declare. The model has the rows those statements are meant to return.

## Model

| member | source | states |
|---|---|---|
| `Calendar.MonthEndIsLastDay` | internal/service/bill_service.go:126-129 | the first of the next month minus one day is the last day of the same month, for every year and month, across December and leap Februaries |
| `Calendar.MonthStep` | internal/service/bill_service.go:126-136 | a month begins where the one before it ends and has 28 to 31 days |
| `Calendar.EveryDayHasAMonth` | internal/service/bill_service.go:131-136 | consecutive full-month periods leave no day out |
| `Calendar.MonthsAreDisjoint` | internal/service/bill_service.go:131-136 | and no day lies in two of them |
| `Calendar.MonthFrom` | internal/service/bill_service.go:49-52 | every day is in the month the clock's day is given |
| `Calendar.DayOf` | internal/service/bill_service.go:112 | the day of an instant is the one whose UTC midnights it lies between, in microseconds |
| `Calendar.ClockMonthIsNow` | internal/service/bill_service.go:49-52 | the month the clock shows has opened and the next one has not |
| `Calendar.CalendarCycle` | internal/service/bill_service.go:126-129 | four hundred years later the same date is 146097 days later |
| `Calendar.FirstPeriodInMonth` | internal/service/onboarding_service.go:186-203 | the first period is billed for the start date's month, starts on the start date, ends with that month, and is due on the due day clamped to the month |
| `Calendar.MonthlyPeriodIsMonth` | internal/service/bill_service.go:123-137 | a later period is exactly its calendar month, due on the clamped due day |
| `MonthText.ParseFormat` | internal/service/bill_service.go:49-56 | reading a month's YYYY-MM text gives the month back |
| `MonthText.FormatParse` | internal/service/bill_service.go:53-56 | only the text of a month is read as one |
| `MonthText.FormatInjective` | migrations/000008_create_bills.up.sql:20-21 | a unique index on the month text is one on the month |
| `MonthText.RequestedIsMeant` | internal/service/bill_service.go:49-56 | a request means month k exactly if its text is that of k or, without a text, if the clock is in k; years have four digits |
| `MonthText.NumberTextInjective` | migrations/000008_create_bills.up.sql:19 | a unique index on the bill-number text is one on month and eight-digit prefix |
| `Generation.NumberIsItsText` | internal/service/onboarding_service.go:206-212 | the model's bill number is the text the service builds from the month and the assignment id |
| `Preservation.AssignKeeps` | internal/service/onboarding_service.go:40-135 | an onboarding keeps the whole invariant |
| `Preservation.CancelKeeps` | internal/service/onboarding_service.go:137-172 | cancelling an onboarding keeps it, all its bills cancelled with it |
| `Preservation.GenerateKeeps` | internal/service/bill_service.go:71-107 | a billing run keeps it |
| `Preservation.OverdueKeeps` | internal/repository/bill_repository.go:213-227 | marking any of the past-due unpaid bills keeps it |
| `Preservation.SettleSettles` | internal/repository/payment_repository.go:168-243 | a successful payment adds one payment of the bill's amount, parties and owner, pays that bill and no other, and activates exactly a pending tenancy |
| `Preservation.SettleKeeps` | internal/service/payment_service.go:87-143 | the unguarded paid mark and activation keep it |
| `Preservation.ApproveKeeps` | internal/service/manual_payment_service.go:181-258 | an approval keeps it |
| `Preservation.PayBillOpens` | internal/service/tenant_portal_service.go:95-115 | when PayBill opens a checkout, every earlier checkout of the bill has expired, although it looks for one only if the bill is in the gateway |
| `Preservation.PayBillKeeps` | internal/service/tenant_portal_service.go:79-175 | opening or reusing a checkout keeps the invariant |
| `Preservation.SubmissionStepKeeps` | internal/repository/manual_payment_submission_repository.go:102-182 | the insert, the proof key, the deletion, the rejection and the cancellation of a submission keep it |
| `Preservation.RowStepKeeps` | internal/repository/room_repository.go:175-246 | whatever owners patch or delete among rooms and tenants keeps it |
| `Preservation.Keeps` | internal/service/payment_service.go:67-150 | every enabled operation keeps it |
| `Runs.RunKeeps` | internal/service/onboarding_service.go:40-172 | and so does every run of operations of any owners |
| `Runs.ReachableInv` | internal/service/onboarding_service.go:40-172 | the invariant holds in every state reachable from empty tables |
| `Runs.StatusesAgree` | internal/service/payment_service.go:122-143 | a pending assignment has exactly one bill and it is still to be collected; an assignment is active iff one of its bills is paid; a bill is cancelled iff its assignment is |
| `Runs.ActiveTenantsHavePaid` | internal/service/payment_service.go:133-139 | in every reachable state an active tenant holds an active assignment with a paid bill (BR-008) |
| `Runs.StepAdvances` | internal/repository/bill_repository.go:213-220 | no step removes a bill, assignment, payment or checkout, changes its terms, or moves a status back |
| `Runs.RunAdvances` | internal/service/bill_service.go:84-92 | over any run the rent of an assignment and the amount of a bill stay what they were (BR-012) |
| `Runs.ChangesBounded` | internal/service/payment_service.go:94-99 | in any run a bill changes status at most three times and an assignment at most once |
| `Runs.SubmissionMovesOnce` | internal/repository/manual_payment_submission_repository.go:280-310 | a submission leaves pending review once and its claim never changes |
| `Runs.OneReviewTakesEffect` | internal/service/manual_payment_service.go:130-284 | of all approvals, rejections and cancellations under one submission id at most one takes effect for each row inserted under it, and none while the row is still pending, also in runs where the clean-up after a failed upload deletes it |
| `Runs.SubmissionSince` | internal/repository/manual_payment_submission_repository.go:140-146 | with an id inserted at most once, however a run goes on, a submission still there makes the same claim and stays as it was decided |
| `Runs.PeriodsDisjoint` | internal/service/onboarding_service.go:97-112 | two bills of one assignment never cover the same day |
| `Runs.ApproveNeverMismatches` | internal/service/manual_payment_service.go:207-210 | the amount re-check of an approval never fires |
| `Runs.PaymentIndexSilent` | internal/repository/payment_repository.go:181-184 | a payment that passed the status checks is never refused by unique (bill_id) |
| `Runs.LiveIndexesSilent` | internal/repository/onboarding_repository.go:101-127 | the two counts find exactly what the partial unique indexes would refuse |
| `Runs.BillOfTenancy` | internal/service/onboarding_service.go:97-112 | a bill is its assignment's owner's and for its rent, which is positive |
| `Runs.CheckoutTerms` | internal/service/tenant_portal_service.go:139-173 | every checkout is for its bill's amount (BR-022), and an unpaid or overdue bill has none |
| `Runs.OneLiveCheckout` | internal/repository/gateway_repository.go:93-111 | at any instant a bill has at most one live checkout (BR-021) |
| `Runs.ExpiriesIncrease` | internal/gateway/sandbox.go:33-58 | of two checkouts of a bill the later one expires later |
| `Runs.OverdueIsPastDue` | internal/service/bill_service.go:111-118 | in every run whose clock has not passed a day, an overdue bill was due before that day |
| `Runs.MarkOverdueComplete` | internal/repository/bill_repository.go:213-227 | after MarkOverdue no unpaid bill of the owner is due before today, other bills are untouched, and a rerun finds nothing |
| `Runs.SettleErased` | internal/service/payment_service.go:102-124 | notes and the paid_at stamp are stored and decide nothing |
| `Runs.ReferenceText` | internal/service/manual_payment_service.go:286-293 | every stored reference is what some request text is stored as, so every claim can be recorded by hand |
| `Runs.ApproveSimulatesRecord` | internal/service/manual_payment_service.go:177-258 | approving a pending submission succeeds, fails and leaves the tables exactly as recording its claim by hand would, but for submissions, notes and paid_at |
| `Occupancies.RunKeepsAgreement` | internal/service/onboarding_service.go:117-166 | in every run whose patches of a room neither enter nor leave occupied or reserved, the room is occupied iff it has an active assignment and reserved iff it has a pending one |
| `Occupancies.RunKeepsOccupancy` | internal/service/payment_service.go:133-143 | so in a run without status patches the rooms table tells who lives where |
| `Occupancies.InterleavedAgreement` | internal/repository/payment_repository.go:238-243 | the same for every interleaving |
| `Occupancies.PatchKeepsOccupancyIff` | internal/repository/room_repository.go:196-200 | a patch keeps that exactly when it neither enters nor leaves occupied and neither enters nor leaves reserved |
| `Occupancies.PatchBreaksOccupancy` | internal/repository/room_repository.go:196-200 | creating a room and patching it to occupied is a run that breaks it |
| `Occupancies.DeleteVacantIffUncounted` | internal/service/room_service.go:79-88 | in every reachable state, patched or not, a delete leaves nobody without a room exactly when the count AssignRoom makes of the room's live assignments is zero |
| `Occupancies.PatchedThenDeleted` | internal/service/room_service.go:79-88 | a reachable ledger in which the delete of a pending tenant's room, patched to available, goes through |
| `Occupancies.DeletedRoomIsVacant` | internal/service/room_service.go:79-88 | the status check alone means that nobody is left without a room, if no patch changed the room's use |
| `Occupancies.StaleDeleteVacantIff` | internal/service/room_service.go:79-88 | in every interleaving between check and delete, the deleted room has a live assignment exactly when it was assigned after the check, which is when its status has become occupied or reserved |
| `Occupancies.DeleteRace` | internal/service/room_service.go:80-87 | every assignment made right after the check loses its room to the delete |
| `Generation.RunBillsEveryone` | internal/service/bill_service.go:77-101 | a run gives every listed assignment a bill for the month and adds nothing but one unpaid bill for each that had none |
| `Generation.RerunAddsNothing` | internal/repository/bill_repository.go:188-211 | running the month again for the same assignments changes nothing (BR-016) |
| `Generation.MonthsCommute` | internal/service/bill_service.go:48-108 | billing two months commutes, refused runs included |
| `Generation.RefusedIffPrefixTaken` | internal/service/onboarding_service.go:206-212 | with new row ids a run is refused iff two of the owner's assignments to be billed for the month share the eight digits |
| `Generation.FirstBillRefusedIffPrefixTaken` | internal/repository/onboarding_repository.go:184-187 | an onboarding that passed its other checks is refused for its bill iff another assignment with those digits was billed for the month |
| `Generation.RandomIdsCollide` | internal/service/onboarding_service.go:205-212 | two version 4 UUIDs whose assignments have one bill number |
| `Generation.OnboardingRefusedForDigits` | internal/repository/onboarding_repository.go:184-187 | for any two ids with the same eight digits, a reachable ledger in which the second onboarding is refused for its bill |
| `Generation.RandomIdsRefused` | migrations/000007_create_room_assignments.up.sql:2 | the same with two ids the database can draw |
| `Generation.BillingRefusedForDigits` | internal/service/bill_service.go:77-95 | for any two such ids, a reachable ledger with those two active assignments in which every month but their first two is refused, for every list of the owner's active assignments |
| `Money.WindowEndsAtNextMonth` | internal/service/dashboard_service.go:51-54 | a month's half-open window ends where the next one starts |
| `Money.DashboardIsWindow` | internal/service/dashboard_service.go:45-56 | the dashboard answers for the month its request means, from the opening of that month to the opening of the next |
| `Money.MonthsAreTheSpan` | internal/service/dashboard_service.go:45-55 | sums and counts of consecutive months are those of the whole span |
| `Money.PaymentsArePaidBills` | internal/service/payment_service.go:102-124 | an owner's payments and paid bills are the same money and the same number |
| `Money.CollectedIsPaid` | internal/repository/dashboard_repository.go:55-58 | in every reachable state the collected amounts of months covering the owner's payment dates add up to the owner's paid bills, and so do the counts |
| `Money.CollectedMoves` | internal/repository/dashboard_repository.go:31-37 | only the two payment operations change a window, by exactly the bill's amount, for its owner, where the date falls |
| `Tenancies.OnboardingStores` | internal/service/onboarding_service.go:84-123 | an onboarding stores the rent, due day, start date and parties of its request in the assignment and, with the clamped due day, in the first bill; it reserves the room, sends the tenant to pending payment and changes nothing else |
| `Tenancies.TenancyTerms` | internal/service/bill_service.go:77-95 | however a run goes on, the assignment has the terms of its request and so has every bill of it: the rent, its whole month or what the start date leaves of it, the clamped due day |
| `Tenancies.CancelUndoes` | internal/service/onboarding_service.go:144-166 | cancelling an onboarding leaves every room as it was before it, and otherwise only the assignment and its bill, both cancelled, and the tenant awaiting payment |
| `Tenancies.CancelAccepted` | internal/service/onboarding_service.go:144-166 | in every reachable state an onboarding can be cancelled iff it is the owner's and pending and its room and tenant are not deleted |
| `Tenancies.OnboardingAccepted` | internal/service/onboarding_service.go:53-83 | in every reachable state, with new ids, an onboarding succeeds iff the date is one, the room is the owner's and available, the tenant is the owner's, nobody's live assignment has either (BR-010, BR-011), and the bill number is free |
| `Checkouts.CheckoutStores` | internal/service/tenant_portal_service.go:152-175 | a PayBill that changes anything stores one checkout of the bill's amount and parties, opened when the provider read the clock and expiring the configured lifetime later, or a day later if that is not positive |
| `Checkouts.CheckoutReused` | internal/service/tenant_portal_service.go:102-115 | a PayBill that changes nothing found a live checkout of a bill in the gateway |
| `Checkouts.PayAccepted` | internal/service/tenant_portal_service.go:79-127 | in every reachable state, with a new id, PayBill succeeds iff the provider is known and the bill is that tenant's and neither paid nor cancelled |
| `Checkouts.Renewal` | internal/service/tenant_portal_service.go:102-126 | after an opening, and any run whose PayBills of the bill read the clock within the lifetime, the next PayBill hands out the same checkout iff its clock is before the expiry, and otherwise opens a new one, then the only live one |
| `Charges.RecordStores` | internal/service/payment_service.go:72-124 | a manual payment has the amount, method and texts of its request, the date it was given or the clock's, and the bill is stamped with that date |
| `Charges.ApproveStores` | internal/service/manual_payment_service.go:212-235 | an approval stores the claim as a payment without notes and stamps bill and submission with the time of the review |
| `Charges.RecordAccepted` | internal/service/payment_service.go:67-143 | in every reachable state, with a new id, RecordManual succeeds iff the method is one of seven, the date can be read, and the bill is the owner's, still to be collected and of that amount, its room and tenant not deleted if it is a first payment |
| `Charges.ApproveAccepted` | internal/service/manual_payment_service.go:181-252 | and Approve iff the submission is the owner's and under review and its bill is payable in that sense |
| `Charges.PaidIsStamped` | internal/repository/payment_repository.go:191-205 | in every reachable state a bill has a payment time iff it is paid, and every payment is by one of the seven methods |
| `Charges.SubmitStores` | internal/service/manual_payment_service.go:115-145 | a successful Submit stores the amount, method, transfer date and reference of the claim, under review, with the key of its proof, and nothing else |
| `Charges.SubmitLeaves` | internal/service/manual_payment_service.go:76-146 | a refused one changes nothing unless the upload and its clean-up both fail, and then leaves the claim without a proof |
| `Charges.SubmitAccepted` | internal/service/manual_payment_service.go:76-128 | in every reachable state, with a new id and a working upload, Submit succeeds iff method, date and proof are good, the bill is that tenant's, unpaid or overdue, of that amount, and has no submission under review |
| `Charges.ClaimReachesPayment` | internal/service/manual_payment_service.go:214-224 | from request to money: a claim checked at one time, inserted later and approved after any further run becomes a payment by that tenant of that bill with the amount, method, date and reference of the request, if its id is not drawn again |
| `Charges.PaymentCounts` | internal/service/payment_service.go:72-79 | a payment by hand raises sum and count of exactly the owner's windows that hold the date it was given or the moment it was recorded |
| `Charges.UndatedPaymentShows` | internal/service/dashboard_service.go:45-56 | one without a date shows in the dashboard of the month in which it was recorded and of no other, asked by name or by the clock |
| `Refusals.BillMeans` | internal/service/payment_service.go:94-104 | in every reachable state a bill is for its tenancy's rent, is paid iff it has a payment, cancelled iff its onboarding is, and in the gateway only with a checkout |
| `Refusals.RecordRefused` | internal/service/payment_service.go:67-143 | so a refused RecordManual tells the truth: already paid means there is a payment, not payable that the onboarding was cancelled, an amount mismatch that the amount is not the rent; a payment under a new id has no other refusal |
| `Refusals.ApproveRefused` | internal/service/manual_payment_service.go:188-210 | the same for Approve, which never reports a mismatch or a duplicate |
| `Refusals.PayRefused` | internal/service/tenant_portal_service.go:79-127 | the same for PayBill under a new id, which never reports a rejected or duplicate checkout |
| `Refusals.SubmitRefused` | internal/service/manual_payment_service.go:76-146 | the same for Submit: a bill that takes no submission has a payment or a checkout or is of a cancelled onboarding |
| `Refusals.OnboardingRefused` | internal/service/onboarding_service.go:40-115 | the same for AssignRoom: a room or tenant reported as taken has a live assignment, a duplicate bill is a taken number |
| `Refusals.CancelRefused` | internal/service/onboarding_service.go:144-166 | the same for onboarding Cancel: one that cannot be cancelled has a paid bill or was cancelled before |
| `Causes.BillMover` | internal/repository/payment_repository.go:191-205 | a bill becomes overdue only by its owner's marking after its due day, enters the gateway only by its own tenant's PayBill, is paid only by its owner's recording or approval of a payment of it, and is cancelled only with its onboarding |
| `Causes.SubmissionMover` | internal/repository/manual_payment_submission_repository.go:166-182 | a submission under review is approved or, for a reason, rejected only by its owner and cancelled only by the tenant who made it; apart from that only its proof key is ever set |
| `Causes.AssignmentMover` | internal/service/payment_service.go:126-143 | in every reachable state an assignment becomes active only by the payment of a bill of it and is cancelled only by its own cancellation |
| `Directory.RowsStore` | internal/repository/room_repository.go:175-230 | a create or patch of a room or tenant leaves the given columns in that row and every other column and row as it was |
| `Directory.DeletedStays` | internal/repository/tenant_repository.go:190-245 | over any run no room or tenant disappears or changes owner, and a soft-deleted one never changes again |
| `Directory.NamesAreUnique` | migrations/000006_add_tenants_email_unique.up.sql:4-6 | in every reachable state an owner's room numbers differ, deleted rooms included, and so do the emails of tenants not deleted |
| `Directory.SameEmailIsCaseBlind` | migrations/000006_add_tenants_email_unique.up.sql:4-6 | two emails count as one iff they differ at most in the case of ASCII letters |
| `Isolation.StepMirrors` | internal/service/bill_service.go:48-118 | every operation gives an owner the outcome and the rows it would give on that owner's rows alone (BR-001) |
| `Isolation.StepSpares` | internal/service/payment_service.go:67-150 | and leaves every other owner's rows as they were |
| `Isolation.OwnersAreIndependent` | internal/service/onboarding_service.go:40-172 | after any run that draws new ids, an owner's rows are what that owner's own operations make of empty tables |
| `Isolation.OwnersAreIndependentInterleaved` | internal/service/onboarding_service.go:40-172 | the same after any interleaving |
| `Isolation.FailureIsOwn` | internal/service/payment_service.go:89-143 | a request that fails in an interleaving reports the error it would have on its owner's rows alone |
| `Contention.RunOwns` | internal/repository/onboarding_repository.go:67-99 | every row and index entry a request holds belongs to its own owner |
| `Contention.OwnersNeverWait` | internal/repository/payment_repository.go:142-243 | in every interleaving, requests of different owners that drew different ids never wait for each other |
| `Refinement.RefineAssign` | internal/service/onboarding_service.go:46-127 | AssignRoom statement by statement is the operation, errors included |
| `Refinement.RefineCancel` | internal/service/onboarding_service.go:138-171 | the same for onboarding Cancel |
| `Refinement.RefineRecord` | internal/service/payment_service.go:81-147 | the same for RecordManual |
| `Refinement.RefineApprove` | internal/service/manual_payment_service.go:182-257 | the same for Approve |
| `Refinement.RefinePayBill` | internal/service/tenant_portal_service.go:84-126 | the same for PayBill and createCheckout |
| `Refinement.GenerateLoop` | internal/service/bill_service.go:77-101 | after n iterations the loop has billed the missing ones of the first n listed assignments, or stopped at the first clash |
| `Refinement.GenerateCounts` | internal/service/bill_service.go:96-100 | and its two counters are the number of those and of the rest |
| `Refinement.RefineGenerate` | internal/service/bill_service.go:71-107 | the row-by-row loop is the set-level operation |
| `Refinement.RunsAsSpecified` | internal/service/payment_service.go:81-147 | every transaction alone is its operation |
| `Stability.ExecStable` | internal/repository/payment_repository.go:142-243 | a statement comes out the same after anything others commit around the rows and index entries it holds |
| `Coverage.ProgramProtected` | internal/repository/onboarding_repository.go:67-127 | each statement runs with the locks held that make its reads last: the counts under the room and tenant locks, the unguarded updates under the lock of their row |
| `Coverage.RunStable` | internal/repository/onboarding_repository.go:224-267 | the part of a transaction that has run comes out the same after anything others commit around what it holds |
| `Coverage.RunCovers` | internal/repository/payment_repository.go:191-243 | a transaction writes only rows it has locked |
| `Coverage.EnabledStays` | internal/service/bill_service.go:58-77 | what a step was allowed on stays true whatever others commit |
| `Protocol.CommitIsOperation` | internal/service/payment_service.go:145-147 | a commit publishes exactly what the operation makes of the tables of that moment |
| `Protocol.Serializable` | internal/service/payment_service.go:81-147 | every interleaving commits what its operations commit one after another in commit order, and every request in flight is where it would be had it run on the committed tables of the moment |
| `Protocol.FailureIsOperation` | internal/service/payment_service.go:89-143 | in every interleaving, a request whose next statement fails reports the error its operation has on the committed tables of that moment |
| `Protocol.ReplyIsOperation` | internal/service/tenant_portal_service.go:102-126 | in every interleaving, a request about to commit returns the payment it stores, or the newest live checkout of the bill for the bill's amount, or the number of bills the commit adds and of listed assignments it skips |
| `Protocol.RefusedUnopened` | internal/service/payment_service.go:68-79 | a request refused before its transaction opens is refused on any tables with the same error |
| `Protocol.ApprovalNeverMismatches` | internal/service/manual_payment_service.go:207-210 | in every interleaving no statement of an approval reports an amount mismatch |
| `Protocol.PaymentNeverDuplicate` | internal/repository/payment_repository.go:181-184 | in every interleaving no payment under a new id is refused as the bill's second |
| `Protocol.InterleavedInv` | internal/service/onboarding_service.go:46-127 | in every interleaving the committed tables satisfy the invariant |
| `Protocol.OnePaymentPerBill` | migrations/000010_create_payments.up.sql:16-17 | in every interleaving a bill is paid iff it has a payment, it has one, and it is of the bill's amount |
| `Protocol.OneRequestCharges` | internal/repository/payment_repository.go:142-166 | of any number of concurrent payments of a bill at most one is past the bill's lock |
| `Protocol.OneReachesInsert` | internal/service/payment_service.go:87-120 | so at most one, by hand or by approval, reaches the payment insert |
| `Protocol.PaymentInsertNeverRefused` | internal/repository/payment_repository.go:168-189 | a payment at its insert under a new id can take that step: unique (bill_id) neither refuses nor delays it |
| `Protocol.OneLiveAssignment` | migrations/000007_create_room_assignments.up.sql:21-29 | in every interleaving no room and no tenant has two live assignments |
| `Protocol.AssignmentInsertNeverRefused` | internal/repository/onboarding_repository.go:142-160 | the partial unique indexes never refuse or delay an assignment that passed the two counts |
| `Protocol.ListedStillActive` | internal/service/bill_service.go:58-77 | until GenerateMonthly commits, every assignment it listed is still active and as it was read |
| `Protocol.StaleListStillOpens` | internal/service/bill_service.go:58-75 | a list read before the transaction can be used after any number of steps |
| `Protocol.StaleClaimStillFits` | internal/service/manual_payment_service.go:96-128 | a claim checked against a bill still fits it when it is inserted any number of steps later |
| `Protocol.OneReviewWins` | internal/service/manual_payment_service.go:130-284 | of concurrent approvals, rejections and cancellations under one submission id at most one takes effect for each row inserted under it, whatever deletions intervene |
| `Protocol.StaleReject` | internal/service/manual_payment_service.go:262-284 | for a submission found by the first read, under an id inserted at most once: with any steps between its read and its update, Reject leaves the tables its update alone leaves, succeeds exactly when that does, and reports a submission deleted meanwhile as no longer pending |
| `Protocol.ApprovedIsPaid` | internal/service/manual_payment_service.go:214-235 | in every interleaving an approved submission's bill is paid by a payment with its amount, method, date and reference, and no other submission of the bill is approved |
| `Protocol.StatusesMoveForward` | internal/service/tenant_portal_service.go:95-115 | in every interleaving a bill changes status at most three times, an assignment at most once |
| `Store.Ledger.constructor` | migrations/000008_create_bills.up.sql:1-22 | empty tables are where every run starts |
| `Store.Ledger.AssignRoom` | internal/service/onboarding_service.go:40-135 | the method's tables and result are the operation's, rolled back on every early return, and the rows stored have the terms of the request |
| `Store.Ledger.AssignInTransaction` | internal/service/onboarding_service.go:53-123 | the statements up to the commit |
| `Store.Ledger.CancelOnboarding` | internal/service/onboarding_service.go:137-172 | the same for onboarding Cancel |
| `Store.Ledger.CancelInTransaction` | internal/service/onboarding_service.go:144-166 | its statements up to the commit |
| `Store.Ledger.ActiveAssignments` | internal/repository/bill_repository.go:157-182 | the list has every active assignment of the owner once, nothing else, oldest first |
| `Store.Ledger.InsertBillIfAbsent` | internal/repository/bill_repository.go:188-211 | a bill for a billed month is skipped, a taken number is an error, anything else is inserted |
| `Store.Ledger.GenerateInTransaction` | internal/service/bill_service.go:77-101 | the loop makes the set-level change; created is the number of listed assignments without the month and created plus skipped is the length of the list |
| `Store.Ledger.GenerateMonthly` | internal/service/bill_service.go:48-108 | the month is the one of the request's text or, without one, the one the clock is in; anything else is an error; the list is the owner's active assignments; a refused run leaves the tables as they were |
| `Store.Ledger.MarkOverdue` | internal/service/bill_service.go:111-118 | exactly the owner's unpaid bills whose due day has ended at the clock's instant become overdue, none is left, and the count is their number |
| `Store.Ledger.RecordManual` | internal/service/payment_service.go:67-150 | the tables are the operation's; the result is the stored payment, dated as asked or by the clock, with the request's texts, and the bill is stamped with its date |
| `Store.Ledger.RecordInTransaction` | internal/service/payment_service.go:89-143 | its statements up to the commit |
| `Store.Ledger.Approve` | internal/service/manual_payment_service.go:181-258 | the same for Approve: the payment is the claim, the stamp the time of the review |
| `Store.Ledger.ApproveInTransaction` | internal/service/manual_payment_service.go:188-252 | its statements up to the commit |
| `Store.Ledger.PayBill` | internal/service/tenant_portal_service.go:79-127 | the tables are the operation's; the checkout handed out is the newest live one and for the bill's amount and, if none was opened later than the clock now shows, the only live one; a new one expires the lifetime after the provider's clock |
| `Store.Ledger.PayInTransaction` | internal/service/tenant_portal_service.go:90-175 | its statements up to the commit |
| `Store.Ledger.Submit` | internal/service/manual_payment_service.go:75-146 | every check, the insert, the upload and the clean-up after a failed one; a stored submission states the claim and has the key of its proof |
| `Store.Ledger.MarkRejected` | internal/repository/manual_payment_submission_repository.go:296-310 | one owned, pending row or none is rejected |
| `Store.Ledger.Reject` | internal/service/manual_payment_service.go:262-284 | only a pending submission is rejected and only with a reason |
| `Store.Ledger.CancelSubmission` | internal/repository/manual_payment_submission_repository.go:166-182 | only the tenant's own pending submission is cancelled |
| `Store.Ledger.CreateRoom` | internal/repository/room_repository.go:39-65 | a new room with the given number, rent and status, unless the owner has the number |
| `Store.Ledger.UpdateRoom` | internal/repository/room_repository.go:175-230 | the patched number, rent and status change and nothing else does, unless the owner has the number |
| `Store.Ledger.DeleteRoom` | internal/service/room_service.go:79-88 | an occupied or reserved room is not deleted |
| `Store.Ledger.CreateTenant` | internal/repository/tenant_repository.go:58-85 | a new tenant awaits payment, unless an undeleted tenant of any owner has the email |
| `Store.Ledger.UpdateTenant` | internal/repository/tenant_repository.go:190-245 | the patched email and status change and nothing else does, unless an undeleted tenant of any owner has the email |
| `Store.Ledger.DeleteTenant` | internal/service/tenant_service.go:92-98 | the tenant is soft-deleted and the row stays |
| `Store.Ledger.SetRoomStatus` | internal/repository/onboarding_repository.go:194-207 | one owned, undeleted row or none is updated |
| `Store.Ledger.SetTenantStatus` | internal/repository/onboarding_repository.go:209-222 | the same for a tenant |
| `Store.Ledger.SetAssignmentStatus` | internal/repository/onboarding_repository.go:241-254 | the same for an assignment |
| `Store.Ledger.InsertPayment` | internal/repository/payment_repository.go:168-189 | a second payment of a bill is refused |
| `Store.Ledger.MarkBillPaid` | internal/repository/payment_repository.go:191-205 | one owned bill or none becomes paid |

## Left out

- HTTP handlers, authentication, configuration, object storage and presigned URLs: owner and tenant ids arrive as trusted parameters, an upload only works or fails.
- The seed command: it inserts active assignments directly, so its states are not states of the services.
- Webhooks, move-out and gateway expiry: described in the documentation, not in the code, so BR-009 and BR-024 to BR-027 have no step here.
- Isolation.OwnersAreIndependent: assumes, with Isolation.StepMirrors, that no request uses an email an undeleted tenant of another owner has, because that one unique index spans owners; whether a tenant is created then depends on others.
- Text columns nothing decides on: names, notes, phone and identity columns of rooms and tenants, the sender name, tenant notes, the reviewing user and the notes of a review, the raw provider response; and columns the services fill with constants: payment source, bill type, currency.
- The 32-bit INTEGER range of amounts: amounts are unbounded; the services only copy and compare them.
- The status and provider of a checkout: every stored one is pending and has an expiry, because the code that would change it does not exist yet.
- The order id of a checkout: its unique index is folded into the checkout's row id.
- The dashboard's current-state counts and preview lists, search and pagination: each follows from its one query.
- The payment list's month filter: it depends on the session time zone; the windows here are the UTC ones of the summary.
- Foreign-key share locks, and soft-deleted bills and assignments, which no code writes.
- Deadlock freedom: onboarding Cancel locks the assignment before its bill, a payment locks the bill before its assignment; a deadlock victim is an abort here.
- Calls into the random source: the id each new row would get is a parameter.
- MarkOverdue: one statement that updates many rows is one step on any set of due rows nobody has locked.
- Store.Ledger.CreateTenant: takes no password, and the index compares emails with only ASCII letters in lower case.
- Store.Ledger.UpdateTenant: takes no password either.
