/** What a payment or a payment-proof request becomes: the payment it stores, the claim that waits for review and
    the payment that approving it makes, and the money that counts for it. */
module Charges {
  import opened Types
  import opened Calendar
  import opened MonthText
  import opened Operations
  import opened Invariants
  import opened Preservation
  import opened Runs
  import opened Money

  /** The column holds the text; an empty text is stored as NULL. */
  predicate Holds(column: Option<string>, text: string) {
    (column.None? <==> text == "") && (column.Some? ==> column.value == text)
  }

  lemma OptionalHolds(text: string)
    ensures Holds(Optional(text), text)
  {
  }

  // ----- recording by hand

  /** A successful RecordManual stores one payment with the request's amount, method and texts, dated as asked or
      by the clock, stamps the bill with that date, and otherwise only activates a pending tenancy. */
  lemma RecordStores(db: Db, o: OwnerId, i: ManualInput, now: Instant, p: PaymentId)
    requires RecordManual(db, o, i, now, p).Ok?
    ensures var d := RecordManual(db, o, i, now, p).value;
            && p in d.payments && Settled(db, d, i.bill, p, d.payments[p])
            && Activated(db, d, db.bills[i.bill].assignment, db.bills[i.bill].tenant, db.bills[i.bill].room)
            && (var x := d.payments[p];
                && x.owner == o && x.amount == i.amount && x.payMethod == i.payMethod
                && Holds(x.reference, i.reference) && Holds(x.notes, i.notes)
                && (i.date == Omitted ==> x.date == now)
                && (i.date.Given? ==> x.date == i.date.at)
                && i.date != Malformed
                && i.bill in d.bills && d.bills[i.bill].paidAt == Some(x.date))
  {
    hide Settled, Activated, Settle;
    var at := PaymentDate(i.date, now).value;
    OptionalHolds(i.reference);
    OptionalHolds(i.notes);
    SettleSettles(db, o, i.bill, i.amount, at, i.payMethod, Optional(i.reference), Optional(i.notes), at, p);
    SettleRows(db, o, i.bill, i.amount, at, i.payMethod, Optional(i.reference), Optional(i.notes), at, p);
  }

  lemma SettleRows(db: Db, o: OwnerId, b: BillId, amount: int, date: Instant, payMethod: string,
                   reference: Option<string>, notes: Option<string>, paidAt: Instant, p: PaymentId)
    requires Settle(db, o, b, amount, date, payMethod, reference, notes, paidAt, p).Ok?
    ensures var d := Settle(db, o, b, amount, date, payMethod, reference, notes, paidAt, p).value;
            && b in db.bills && p in d.payments
            && d.payments[p] == Payment(o, b, db.bills[b].tenant, db.bills[b].room, amount, date, payMethod, reference, notes)
            && b in d.bills && d.bills[b].paidAt == Some(paidAt)
  {
    hide PaymentIndexed;
  }

  /** A successful Approve stores one payment of the claim, stamps the bill and the submission with the time of the
      review, and otherwise only activates a pending tenancy. */
  lemma ApproveStores(db: Db, o: OwnerId, s: SubmissionId, now: Instant, p: PaymentId)
    requires Approve(db, o, s, now, p).Ok?
    ensures HasSubmission(db, s, o) && db.submissions[s].status == PendingReview
    ensures var d, sub := Approve(db, o, s, now, p).value, db.submissions[s];
            && d.submissions == db.submissions[s := sub.(status := Approved, reviewedAt := Some(now))]
            && p in d.payments && Settled(db, d.(submissions := db.submissions), sub.bill, p, d.payments[p])
            && Activated(db, d, db.bills[sub.bill].assignment, db.bills[sub.bill].tenant, db.bills[sub.bill].room)
            && PaysClaim(d.payments[p], sub) && d.payments[p].owner == o && d.payments[p].notes == None
            && sub.bill in d.bills && d.bills[sub.bill].paidAt == Some(now)
  {
    hide Settle;
    var sub := db.submissions[s];
    SettleSettles(db, o, sub.bill, sub.amount, sub.transferDate, sub.payMethod, sub.reference, None, now, p);
    SettleRows(db, o, sub.bill, sub.amount, sub.transferDate, sub.payMethod, sub.reference, None, now, p);
  }

  // ----- when a payment is accepted

  /** The owner has the bill, it still awaits this amount, and a tenancy it would activate can be. */
  ghost predicate Payable(db: Db, o: OwnerId, b: BillId, amount: int) {
    && b in db.bills && db.bills[b].owner == o && db.bills[b].amount == amount
    && (db.bills[b].status == Unpaid || db.bills[b].status == Overdue || db.bills[b].status == GatewayPending)
    && (db.bills[b].assignment in db.assignments && db.assignments[db.bills[b].assignment].status == Pending ==>
          && db.bills[b].tenant in db.tenants && !db.tenants[db.bills[b].tenant].deleted
          && db.bills[b].room in db.rooms && !db.rooms[db.bills[b].room].deleted)
  }

  lemma SettleAccepted(db: Db, o: OwnerId, b: BillId, amount: int, date: Instant, payMethod: string,
                       reference: Option<string>, notes: Option<string>, paidAt: Instant, p: PaymentId)
    requires Reachable(db) && p !in db.payments
    ensures Settle(db, o, b, amount, date, payMethod, reference, notes, paidAt, p).Ok? <==> Payable(db, o, b, amount)
  {
    hide Reachable, Claiming, CheckoutsLinked, CheckoutsApart, OneLive, TenantsEarned, PeriodFits, NumberOf;
    hide BillKeys, StatusCoupled, ActiveHavePaid, PendingHaveOne;
    ReachableInv(db);
  }

  /** With a new id, RecordManual succeeds exactly when the method is one of seven, the date can be read and the
      bill is payable with this amount. */
  lemma RecordAccepted(db: Db, o: OwnerId, i: ManualInput, now: Instant, p: PaymentId)
    requires Reachable(db) && p !in db.payments
    ensures RecordManual(db, o, i, now, p).Ok? <==> IsMethod(i.payMethod) && i.date != Malformed && Payable(db, o, i.bill, i.amount)
  {
    hide Reachable, Settle, Payable;
    if i.date != Malformed {
      var at := PaymentDate(i.date, now).value;
      SettleAccepted(db, o, i.bill, i.amount, at, i.payMethod, Optional(i.reference), Optional(i.notes), at, p);
    }
  }

  predicate IsMethod(m: string) {
    || m == "cash" || m == "bank_transfer" || m == "e_wallet" || m == "virtual_account" || m == "credit_card"
    || m == "qris" || m == "other"
  }

  /** With a new id, Approve succeeds exactly for an owned submission still under review whose bill is payable. */
  lemma ApproveAccepted(db: Db, o: OwnerId, s: SubmissionId, now: Instant, p: PaymentId)
    requires Reachable(db) && p !in db.payments
    ensures Approve(db, o, s, now, p).Ok? <==>
              && s in db.submissions && db.submissions[s].owner == o && db.submissions[s].status == PendingReview
              && Payable(db, o, db.submissions[s].bill, db.submissions[s].amount)
  {
    hide Reachable, Settle, Payable;
    if HasSubmission(db, s, o) {
      var sub := db.submissions[s];
      SettleAccepted(db, o, sub.bill, sub.amount, sub.transferDate, sub.payMethod, sub.reference, None, now, p);
    }
  }

  // ----- stamps and methods over runs

  /** A bill has a payment stamp iff it is paid, and every payment is by one of the seven methods. */
  ghost predicate Stamped(db: Db) {
    && (forall b :: b in db.bills ==> (db.bills[b].paidAt.Some? <==> db.bills[b].status == Paid))
    && (forall p :: p in db.payments ==> IsMethod(db.payments[p].payMethod))
  }

  lemma PaymentStepStamps(db: Db, op: Op)
    requires Inv(db) && Stamped(db) && (op.RecordOp? || op.ApproveOp?) && Perform(db, op).Ok?
    ensures Stamped(Apply(db, op))
  {
    hide Tenancy, Billing, Paying, SubmissionsApart, ClaimPaid, RecordManual, Approve, Activated, PaymentIndexed;
    match op
    case RecordOp(o, i, now, p) =>
      RecordStores(db, o, i, now, p);
      RecordIsMethod(db, o, i, now, p);
    case ApproveOp(o, s, now, p) =>
      ApproveStores(db, o, s, now, p);
  }

  lemma RecordIsMethod(db: Db, o: OwnerId, i: ManualInput, now: Instant, p: PaymentId)
    requires RecordManual(db, o, i, now, p).Ok?
    ensures IsMethod(i.payMethod)
  {
    hide Settle;
  }

  lemma BillingStepStamps(db: Db, op: Op)
    requires Stamped(db) && !op.RecordOp? && !op.ApproveOp? && Enabled(db, op)
    ensures Stamped(Apply(db, op))
  {
    hide Stamped, AssignRoom, CancelOnboarding, GenerateMonthly, PayBill, WithStatus;
    if op.AssignOp? || op.GenerateOp? {
      NewBillsUnstamped(db, op);
    } else if op.CancelOp? || op.OverdueOp? || op.PayBillOp? {
      StatusesUnstamped(db, op);
    } else {
      StampedAlone(db, Apply(db, op));
    }
  }

  lemma StampedAlone(db: Db, d: Db)
    requires Stamped(db) && d.bills == db.bills && d.payments == db.payments
    ensures Stamped(d)
  {
  }

  lemma NewBillsUnstamped(db: Db, op: Op)
    requires Stamped(db) && (op.AssignOp? || op.GenerateOp?)
    ensures Stamped(Apply(db, op))
  {
    hide RoomCounted, TenantCounted, RoomIndexed, TenantIndexed, NumberIndexed, MonthIndexed, FirstPeriod, MonthlyPeriod;
    hide NumberOf, Date, Clashes, IsMethod;
  }

  lemma StatusesUnstamped(db: Db, op: Op)
    requires Stamped(db) && (op.CancelOp? || op.OverdueOp? || op.PayBillOp?) && Enabled(db, op)
    ensures Stamped(Apply(db, op))
  {
    hide LiveCheckouts, IsMethod;
  }

  lemma {:induction false} StampedRun(ops: seq<Op>)
    requires Legal(EMPTY, ops)
    ensures Stamped(Replay(EMPTY, ops))
  {
    hide Stamped, Enabled, Perform, Inv;
    if ops == [] {
      NothingStamped();
    } else {
      var before, op := ops[..|ops| - 1], ops[|ops| - 1];
      StampedRun(before);
      EmptyInv();
      RunKeeps(EMPTY, before);
      if !op.RecordOp? && !op.ApproveOp? {
        BillingStepStamps(Replay(EMPTY, before), op);
      } else if Perform(Replay(EMPTY, before), op).Ok? {
        PaymentStepStamps(Replay(EMPTY, before), op);
      }
    }
  }

  lemma NothingStamped()
    ensures Stamped(EMPTY)
  {
  }

  /** In every reachable state a bill says when it was paid iff it is paid, and every payment is by one of the
      seven methods. */
  lemma PaidIsStamped(db: Db, b: BillId, p: PaymentId)
    requires Reachable(db)
    ensures b in db.bills ==> (db.bills[b].paidAt.Some? <==> db.bills[b].status == Paid)
    ensures p in db.payments ==> IsMethod(db.payments[p].payMethod)
  {
    hide Legal, Replay, IsMethod;
    var ops :| Legal(EMPTY, ops) && Replay(EMPTY, ops) == db;
    StampedRun(ops);
  }

  // ----- submissions

  /** The row is tenant t's claim on bill b with the request's amount, method, transfer date and reference. */
  predicate StatesClaim(x: Submission, o: OwnerId, t: TenantId, b: BillId, c: Claim) {
    && x.owner == o && x.tenant == t && x.bill == b && x.amount == c.amount && x.payMethod == c.payMethod
    && c.transferDate.Given? && x.transferDate == c.transferDate.at && Holds(x.reference, c.reference)
  }

  lemma CheckedStates(db: Db, o: OwnerId, t: TenantId, b: BillId, c: Claim)
    requires CheckClaim(db, o, t, b, c).Ok?
    ensures var sub := CheckClaim(db, o, t, b, c).value;
            && StatesClaim(sub, o, t, b, c) && sub.status == PendingReview && sub.proof == None && sub.reviewedAt == None
            && Enabled(db, InsertSubmissionOp(o, sub, 0))
    ensures c.proof.Recognised?
  {
    OptionalHolds(c.reference);
  }

  /** A successful Submit adds one submission: the claim, under review, with the key of its proof. */
  lemma SubmitStores(db: Db, o: OwnerId, t: TenantId, b: BillId, c: Claim, s: SubmissionId, stored: bool, cleaned: bool)
    requires Submit(db, o, t, b, c, s, stored, cleaned).1.Ok?
    ensures stored && s !in db.submissions && c.proof.Recognised?
    ensures var d := Submit(db, o, t, b, c, s, stored, cleaned).0;
            && s in d.submissions && d == db.(submissions := db.submissions[s := d.submissions[s]])
            && StatesClaim(d.submissions[s], o, t, b, c) && d.submissions[s].status == PendingReview
            && d.submissions[s].proof == Some(c.proof.key) && d.submissions[s].reviewedAt == None
  {
    hide PendingIndexed, CheckClaim, DeleteSubmission, Enabled, Holds;
    CheckedStates(db, o, t, b, c);
  }

  /** A refused one leaves the tables as they were, unless both the upload and its clean-up failed: then the claim
      stays, under review and without a proof. */
  lemma SubmitLeaves(db: Db, o: OwnerId, t: TenantId, b: BillId, c: Claim, s: SubmissionId, stored: bool, cleaned: bool)
    requires Submit(db, o, t, b, c, s, stored, cleaned).1.Err?
    ensures var (d, r) := Submit(db, o, t, b, c, s, stored, cleaned);
            d == db || (!stored && !cleaned && r == Err(ProofStoreFailed) && s !in db.submissions && s in d.submissions
                        && d == db.(submissions := db.submissions[s := d.submissions[s]])
                        && StatesClaim(d.submissions[s], o, t, b, c) && d.submissions[s].status == PendingReview
                        && d.submissions[s].proof == None)
  {
    hide PendingIndexed, CheckClaim, Enabled, StatesClaim;
    if CheckClaim(db, o, t, b, c).Ok? && s !in db.submissions {
      CheckedStates(db, o, t, b, c);
      assert db.submissions[s := CheckClaim(db, o, t, b, c).value] - {s} == db.submissions;
    }
  }

  /** With a new id and a working upload, Submit succeeds exactly for a recognised proof of a full payment, by a
      known method and at a readable date, of a bill of the tenant that is unpaid or overdue and has no claim
      under review. */
  lemma SubmitAccepted(db: Db, o: OwnerId, t: TenantId, b: BillId, c: Claim, s: SubmissionId, cleaned: bool)
    requires Reachable(db) && s !in db.submissions
    ensures Submit(db, o, t, b, c, s, true, cleaned).1.Ok? <==>
              && IsMethod(c.payMethod) && c.transferDate.Given? && c.proof.Recognised?
              && b in db.bills && db.bills[b].owner == o && db.bills[b].tenant == t && db.bills[b].amount == c.amount
              && (db.bills[b].status == Unpaid || db.bills[b].status == Overdue)
              && !(exists r :: r in db.submissions && db.submissions[r].bill == b && db.submissions[r].status == PendingReview)
  {
    hide Reachable, OneLive, TenantsEarned, Paying, Claiming, NumberOf, PeriodFits, BillKeys, StatusCoupled;
    hide ActiveHavePaid, PendingHaveOne;
    ReachableInv(db);
  }

  lemma {:induction false} ClaimStays(db: Db, ops: seq<Op>, s: SubmissionId)
    requires Legal(db, ops) && s in db.submissions && Inserts(ops, s) == 0
    ensures var e, x := Replay(db, ops), db.submissions[s];
            s in e.submissions ==>
              var y := e.submissions[s];
              y == x.(status := y.status, proof := y.proof, reviewedAt := y.reviewedAt)
  {
    hide Enabled, Apply;
    if ops != [] {
      var before, op := ops[..|ops| - 1], ops[|ops| - 1];
      ClaimStays(db, before, s);
      var e := Replay(db, before);
      assert Replay(db, ops) == Apply(e, op);
      if s in Apply(e, op).submissions {
        if s !in e.submissions { SubmissionAppears(e, op, s); }
        SubmissionMovesOnce(e, op, s);
      }
    }
  }

  /** From request to money. A claim checked against the bill as read, inserted later, and approved after any
      further run that does not draw its id again, becomes a payment by that tenant of that bill with the claim's
      amount, method, transfer date and reference text, however much time and whatever else lies in between. */
  lemma ClaimReachesPayment(read: Db, o: OwnerId, t: TenantId, b: BillId, c: Claim, db: Db, s: SubmissionId,
                            ops: seq<Op>, o': OwnerId, now: Instant, p: PaymentId)
    requires CheckClaim(read, o, t, b, c).Ok? && Reachable(db)
    requires var op := InsertSubmissionOp(o, CheckClaim(read, o, t, b, c).value, s);
             && Enabled(db, op) && Perform(db, op).Ok? && Legal(Apply(db, op), ops) && Inserts(ops, s) == 0
             && Approve(Replay(Apply(db, op), ops), o', s, now, p).Ok?
    ensures var op := InsertSubmissionOp(o, CheckClaim(read, o, t, b, c).value, s);
            var d := Approve(Replay(Apply(db, op), ops), o', s, now, p).value;
            && o' == o && p in d.payments && c.transferDate.Given?
            && var x := d.payments[p];
               && x.owner == o && x.tenant == t && x.bill == b && x.amount == c.amount && x.payMethod == c.payMethod
               && x.date == c.transferDate.at && Holds(x.reference, c.reference) && x.notes == None
  {
    hide Reachable, CheckClaim, Enabled, Approve, Settled, Activated, Legal, Replay;
    var sub := CheckClaim(read, o, t, b, c).value;
    var op := InsertSubmissionOp(o, sub, s);
    CheckedStates(read, o, t, b, c);
    var d := Apply(db, op);
    ReachableStep(db, op);
    ReachableRun(d, ops);
    ClaimStays(d, ops, s);
    ApproveStores(Replay(d, ops), o', s, now, p);
    PayerIsClaimant(Replay(d, ops), s);
    PaymentOfBill(Replay(d, ops), o', s, now, p);
  }

  lemma PayerIsClaimant(db: Db, s: SubmissionId)
    requires Reachable(db) && s in db.submissions
    ensures db.submissions[s].bill in db.bills && db.bills[db.submissions[s].bill].tenant == db.submissions[s].tenant
  {
    hide Reachable, Tenancy, Billing, Paying, SubmissionsApart, ClaimPaid;
    ReachableInv(db);
  }

  lemma PaymentOfBill(db: Db, o: OwnerId, s: SubmissionId, now: Instant, p: PaymentId)
    requires Approve(db, o, s, now, p).Ok?
    ensures var d, b := Approve(db, o, s, now, p).value, db.submissions[s].bill;
            b in db.bills && p in d.payments && d.payments[p].tenant == db.bills[b].tenant
  {
    hide Approve, Activated, PaymentIndexed;
    ApproveStores(db, o, s, now, p);
  }

  // ----- payments in the dashboard

  /** A payment recorded by hand counts, once and in full, in exactly the owner's windows that hold the date it
      was given or, without one, the moment it was recorded. */
  lemma PaymentCounts(db: Db, o: OwnerId, i: ManualInput, now: Instant, p: PaymentId, lo: Instant, hi: Instant)
    requires RecordManual(db, o, i, now, p).Ok?
    ensures var d := RecordManual(db, o, i, now, p).value;
            var hit := if i.date == Omitted then lo <= now < hi else i.date.Given? && lo <= i.date.at < hi;
            && Sum(PaymentsIn(d, o, lo, hi)) == Sum(PaymentsIn(db, o, lo, hi)) + (if hit then i.amount else 0)
            && |PaymentsIn(d, o, lo, hi)| == |PaymentsIn(db, o, lo, hi)| + (if hit then 1 else 0)
  {
    hide RecordManual, Settled, Activated, Sum, PaymentsIn;
    RecordStores(db, o, i, now, p);
    CollectedMoves(db, RecordOp(o, i, now, p), o, lo, hi);
  }

  /** So one recorded without a date is in the dashboard of the month in which it was recorded, asked for by name
      or at any moment of that month, and in no other. */
  lemma UndatedPaymentShows(db: Db, o: OwnerId, i: ManualInput, now: Instant, p: PaymentId, month: string, later: Instant)
    requires i.date == Omitted && RecordManual(db, o, i, now, p).Ok? && 0 <= now && 0 <= later
    ensures var x, y := Dashboard(db, o, month, later), Dashboard(RecordManual(db, o, i, now, p).value, o, month, later);
            && (x.Some? <==> y.Some?)
            && (x.Some? ==> y.value == if Means(month, later, ClockMonth(now))
                                       then Summary(x.value.collected + i.amount, x.value.paidBills + 1) else x.value)
  {
    hide RecordManual, RequestedMonth, MonthSummary, Means, ClockMonth;
    RequestedIsMeant(month, later, ClockMonth(now));
    if RequestedMonth(month, later).Some? {
      PaymentInSummary(db, o, i, now, p, RequestedMonth(month, later).value);
    }
  }

  lemma PaymentInSummary(db: Db, o: OwnerId, i: ManualInput, now: Instant, p: PaymentId, k: Month)
    requires i.date == Omitted && RecordManual(db, o, i, now, p).Ok? && 0 <= now
    ensures var x, y := MonthSummary(db, o, k), MonthSummary(RecordManual(db, o, i, now, p).value, o, k);
            y == if k == ClockMonth(now) then Summary(x.collected + i.amount, x.paidBills + 1) else x
  {
    hide RecordManual, Sum, PaymentsIn, MonthSummary, MonthOpens, ClockMonth;
    MonthIsItsWindow(db, o, k);
    MonthIsItsWindow(RecordManual(db, o, i, now, p).value, o, k);
    PaymentCounts(db, o, i, now, p, MonthOpens(k), MonthOpens(k + 1));
    InClockMonth(now, k);
  }
}
