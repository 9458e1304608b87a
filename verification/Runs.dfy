/** Properties of whole runs: every sequence of enabled operations, of any owners, from empty tables. */
module Runs {
  import opened Types
  import opened Calendar
  import opened Operations
  import opened Invariants
  import opened Preservation

  lemma {:induction false} RunKeeps(db: Db, ops: seq<Op>)
    requires Inv(db) && Legal(db, ops)
    ensures Inv(Replay(db, ops))
  {
    hide Inv, Enabled, Apply;
    if ops != [] {
      var before, op := ops[..|ops| - 1], ops[|ops| - 1];
      RunKeeps(db, before);
      Keeps(Replay(db, before), op);
    }
  }

  lemma LegalAppend(db: Db, ops: seq<Op>, op: Op)
    requires Legal(db, ops) && Enabled(Replay(db, ops), op)
    ensures Legal(db, ops + [op]) && Replay(db, ops + [op]) == Apply(Replay(db, ops), op)
  {
    hide Enabled, Apply;
    assert (ops + [op])[..|ops + [op]| - 1] == ops;
  }

  ghost predicate Reachable(db: Db) {
    exists ops :: Legal(EMPTY, ops) && Replay(EMPTY, ops) == db
  }

  lemma ReachableInv(db: Db)
    requires Reachable(db)
    ensures Inv(db)
  {
    hide Inv;
    EmptyInv();
    var ops :| Legal(EMPTY, ops) && Replay(EMPTY, ops) == db;
    RunKeeps(EMPTY, ops);
  }

  lemma EmptyReachable()
    ensures Reachable(EMPTY)
  {
    assert Legal(EMPTY, []) && Replay(EMPTY, []) == EMPTY;
  }

  lemma ReachableStep(db: Db, op: Op)
    requires Reachable(db) && Enabled(db, op)
    ensures Reachable(Apply(db, op))
  {
    hide Legal, Replay, Enabled, Apply;
    var ops :| Legal(EMPTY, ops) && Replay(EMPTY, ops) == db;
    LegalAppend(EMPTY, ops, op);
  }

  lemma {:induction false} ReachableRun(db: Db, ops: seq<Op>)
    requires Reachable(db) && Legal(db, ops)
    ensures Reachable(Replay(db, ops))
  {
    hide Reachable, Enabled, Apply;
    if ops != [] {
      ReachableRun(db, ops[..|ops| - 1]);
      ReachableStep(Replay(db, ops[..|ops| - 1]), ops[|ops| - 1]);
    }
  }

  // ----- statuses only move forward

  function BillRank(s: BillStatus): nat {
    match s
    case Unpaid => 0
    case Overdue => 1
    case GatewayPending => 2
    case Paid => 3
    case CancelledBill => 3
  }

  function AssignmentRank(s: AssignmentStatus): nat { if s == Pending then 0 else 1 }

  /** Bills, assignments, payments and checkouts are never removed, their terms never change,
      and a status that changes moves up in rank. */
  ghost predicate Advances(db: Db, d: Db) {
    && (forall b :: b in db.bills ==>
          && b in d.bills && SameBill(db.bills[b], d.bills[b])
          && (d.bills[b].status == db.bills[b].status || BillRank(db.bills[b].status) < BillRank(d.bills[b].status)))
    && (forall a :: a in db.assignments ==>
          && a in d.assignments && SameAssignment(db.assignments[a], d.assignments[a])
          && (d.assignments[a].status == db.assignments[a].status || db.assignments[a].status == Pending))
    && (forall p :: p in db.payments ==> p in d.payments && d.payments[p] == db.payments[p])
    && (forall c :: c in db.checkouts ==> c in d.checkouts && d.checkouts[c] == db.checkouts[c])
  }

  lemma GenerateAdvances(db: Db, o: OwnerId, k: Month, list: seq<Listed>)
    requires GenerateMonthly(db, o, k, list).Ok?
    ensures Advances(db, GenerateMonthly(db, o, k, list).value)
  {
    hide MonthlyBill, NumberOf;
  }

  lemma PayBillAdvances(db: Db, o: OwnerId, i: PayInput, c: CheckoutId)
    requires PayBill(db, o, i, c).Ok?
    ensures Advances(db, PayBill(db, o, i, c).value)
  {
    hide Lifetime, LiveCheckouts, Advances, NewCheckout;
    if PayBill(db, o, i, c).value == db {
      AloneAdvances(db, db);
    } else {
      CheckoutAdvances(db, i.bill, c, NewCheckout(o, db.bills[i.bill], i));
    }
  }

  lemma CheckoutAdvances(db: Db, b: BillId, c: CheckoutId, x: Checkout)
    requires b in db.bills && IsCollectible(db.bills[b].status) && c !in db.checkouts
    ensures Advances(db, db.(checkouts := db.checkouts[c := x], bills := db.bills[b := db.bills[b].(status := GatewayPending)]))
  {
  }

  lemma OverdueAdvances(db: Db, o: OwnerId, today: Day, ids: set<BillId>)
    requires ids <= OverdueRows(db, o, today)
    ensures Advances(db, db.(bills := WithStatus(db.bills, ids, Overdue)))
  {
  }

  lemma OnboardingStepAdvances(db: Db, op: Op)
    requires (op.AssignOp? || op.CancelOp?) && Perform(db, op).Ok?
    ensures Advances(db, Perform(db, op).value)
  {
    hide FirstPeriod, NumberOf, Date;
  }

  lemma SettledAdvances(db: Db, d: Db, b: BillId, p: PaymentId, x: Payment)
    requires Settled(db, d, b, p, x) && Activated(db, d, db.bills[b].assignment, db.bills[b].tenant, db.bills[b].room)
    ensures Advances(db, d)
  {
    hide PaymentIndexed;
  }

  lemma PaymentStepAdvances(db: Db, op: Op)
    requires (op.RecordOp? || op.ApproveOp?) && Perform(db, op).Ok?
    ensures Advances(db, Perform(db, op).value)
  {
    hide Settle, Settled, Activated, Advances;
    match op
    case RecordOp(o, i, now, p) =>
      var at := PaymentDate(i.date, now).value;
      var d := Settle(db, o, i.bill, i.amount, at, i.payMethod, Optional(i.reference), Optional(i.notes), at, p).value;
      SettleSettles(db, o, i.bill, i.amount, at, i.payMethod, Optional(i.reference), Optional(i.notes), at, p);
      SettledAdvances(db, d, i.bill, p, Payment(o, i.bill, db.bills[i.bill].tenant, db.bills[i.bill].room, i.amount, at,
                                                i.payMethod, Optional(i.reference), Optional(i.notes)));
    case ApproveOp(o, s, now, p) =>
      var sub := db.submissions[s];
      var d := Settle(db, o, sub.bill, sub.amount, sub.transferDate, sub.payMethod, sub.reference, None, now, p).value;
      SettleSettles(db, o, sub.bill, sub.amount, sub.transferDate, sub.payMethod, sub.reference, None, now, p);
      SettledAdvances(db, d, sub.bill, p, Payment(o, sub.bill, db.bills[sub.bill].tenant, db.bills[sub.bill].room,
                                                  sub.amount, sub.transferDate, sub.payMethod, sub.reference, None));
      SubmissionsAside(db, d, Perform(db, op).value);
  }

  lemma SubmissionsAside(db: Db, d: Db, e: Db)
    requires Advances(db, d) && e == d.(submissions := e.submissions)
    ensures Advances(db, e)
  {
  }

  lemma AloneAdvances(db: Db, d: Db)
    requires d.bills == db.bills && d.assignments == db.assignments && d.payments == db.payments && d.checkouts == db.checkouts
    ensures Advances(db, d)
  {
  }

  lemma StepAdvances(db: Db, op: Op)
    requires Enabled(db, op)
    ensures Advances(db, Apply(db, op))
  {
    hide Advances, AssignRoom, CancelOnboarding, GenerateMonthly, RecordManual, Approve, PayBill, WithStatus, OverdueRows;
    if Perform(db, op).Err? {
      AloneAdvances(db, db);
    } else if op.GenerateOp? {
      GenerateAdvances(db, op.owner, op.month, op.list);
    } else if op.OverdueOp? {
      OverdueAdvances(db, op.owner, op.today, op.ids);
    } else if op.PayBillOp? {
      PayBillAdvances(db, op.owner, op.pay, op.c);
    } else if op.AssignOp? || op.CancelOp? {
      OnboardingStepAdvances(db, op);
    } else if op.RecordOp? || op.ApproveOp? {
      PaymentStepAdvances(db, op);
    } else {
      AloneAdvances(db, Apply(db, op));
    }
  }

  lemma AdvancesChain(db: Db, d: Db, e: Db)
    requires Advances(db, d) && Advances(d, e)
    ensures Advances(db, e)
  {
  }

  lemma {:induction false} RunAdvances(db: Db, ops: seq<Op>)
    requires Legal(db, ops)
    ensures Advances(db, Replay(db, ops))
  {
    hide Advances, Enabled, Apply;
    if ops == [] {
      AloneAdvances(db, db);
    } else {
      var before, op := ops[..|ops| - 1], ops[|ops| - 1];
      RunAdvances(db, before);
      StepAdvances(Replay(db, before), op);
      AdvancesChain(db, Replay(db, before), Replay(db, ops));
    }
  }

  /** How often bill b's status changed during a run. */
  ghost function BillChanges(ops: seq<Op>, b: BillId): nat {
    if ops == [] then 0
    else
      var before, after := Replay(EMPTY, ops[..|ops| - 1]), Replay(EMPTY, ops);
      BillChanges(ops[..|ops| - 1], b)
      + if b in before.bills && b in after.bills && before.bills[b].status != after.bills[b].status then 1 else 0
  }

  ghost function AssignmentChanges(ops: seq<Op>, a: AssignmentId): nat {
    if ops == [] then 0
    else
      var before, after := Replay(EMPTY, ops[..|ops| - 1]), Replay(EMPTY, ops);
      AssignmentChanges(ops[..|ops| - 1], a)
      + if a in before.assignments && a in after.assignments && before.assignments[a].status != after.assignments[a].status
        then 1 else 0
  }

  /** In any run a bill changes status at most three times and an assignment at most once. */
  lemma {:induction false} ChangesBounded(ops: seq<Op>, b: BillId, a: AssignmentId)
    requires Legal(EMPTY, ops)
    ensures var d := Replay(EMPTY, ops);
            && BillChanges(ops, b) <= (if b in d.bills then BillRank(d.bills[b].status) else 0) <= 3
            && AssignmentChanges(ops, a) <= (if a in d.assignments then AssignmentRank(d.assignments[a].status) else 0) <= 1
  {
    hide Enabled, Apply;
    if ops != [] {
      var before, op := ops[..|ops| - 1], ops[|ops| - 1];
      ChangesBounded(before, b, a);
      StepAdvances(Replay(EMPTY, before), op);
      assert Replay(EMPTY, ops) == Apply(Replay(EMPTY, before), op);
    }
  }

  /** A submission leaves pending review once and never moves again while its row exists,
      and its claim never changes. */
  lemma SubmissionMovesOnce(db: Db, op: Op, s: SubmissionId)
    requires Enabled(db, op) && s in db.submissions && s in Apply(db, op).submissions
    ensures var x, y := db.submissions[s], Apply(db, op).submissions[s];
            && y == x.(status := y.status, proof := y.proof, reviewedAt := y.reviewedAt)
            && (y.status == x.status || x.status == PendingReview)
  {
    hide AssignRoom, CancelOnboarding, GenerateMonthly, PayBill, Settle, WithStatus;
    match op
    case AssignOp(o, i, a, b) => OnboardingKeepsSubmissions(db, op);
    case CancelOp(o, a) => OnboardingKeepsSubmissions(db, op);
    case GenerateOp(o, k, list) => OnboardingKeepsSubmissions(db, op);
    case PayBillOp(o, i, c) => OnboardingKeepsSubmissions(db, op);
    case RecordOp(o, i, now, p) =>
      if Perform(db, op).Ok? {
        var at := PaymentDate(i.date, now).value;
        SettleSettles(db, o, i.bill, i.amount, at, i.payMethod, Optional(i.reference), Optional(i.notes), at, p);
      }
    case ApproveOp(o, r, now, p) =>
      if Perform(db, op).Ok? {
        var sub := db.submissions[r];
        SettleSettles(db, o, sub.bill, sub.amount, sub.transferDate, sub.payMethod, sub.reference, None, now, p);
      }
    case _ =>
  }

  ghost function SubmissionChanges(ops: seq<Op>, s: SubmissionId): nat {
    if ops == [] then 0
    else
      var before, after := Replay(EMPTY, ops[..|ops| - 1]), Replay(EMPTY, ops);
      SubmissionChanges(ops[..|ops| - 1], s)
      + if s in before.submissions && s in after.submissions && before.submissions[s].status != after.submissions[s].status
        then 1 else 0
  }

  /** How often a run inserts a submission under id s. */
  ghost function Inserts(ops: seq<Op>, s: SubmissionId): nat {
    if ops == [] then 0
    else
      var op := ops[|ops| - 1];
      Inserts(ops[..|ops| - 1], s) + if op.InsertSubmissionOp? && op.s == s then 1 else 0
  }

  function Unreviewed(db: Db, s: SubmissionId): nat {
    if s in db.submissions && db.submissions[s].status == PendingReview then 1 else 0
  }

  /** Of all approvals, rejections and cancellations under one submission id, at most one takes effect for
      each row inserted under it, whatever the clean-ups after failed uploads delete in between. Ids are
      drawn once, so at most one takes effect at all. */
  lemma {:induction false} OneReviewTakesEffect(ops: seq<Op>, s: SubmissionId)
    requires Legal(EMPTY, ops)
    ensures SubmissionChanges(ops, s) + Unreviewed(Replay(EMPTY, ops), s) <= Inserts(ops, s)
  {
    hide Enabled, Apply;
    if ops != [] {
      var before, op := ops[..|ops| - 1], ops[|ops| - 1];
      var db := Replay(EMPTY, before);
      OneReviewTakesEffect(before, s);
      assert Replay(EMPTY, ops) == Apply(db, op);
      if s in Apply(db, op).submissions {
        if s in db.submissions {
          SubmissionMovesOnce(db, op, s);
        } else {
          SubmissionAppears(db, op, s);
        }
      }
    }
  }

  /** Only an insert brings a submission into the table. */
  lemma SubmissionAppears(db: Db, op: Op, s: SubmissionId)
    requires s !in db.submissions && s in Apply(db, op).submissions
    ensures op.InsertSubmissionOp? && op.s == s
  {
    hide AssignRoom, CancelOnboarding, GenerateMonthly, PayBill, Settle, WithStatus;
    match op
    case AssignOp(o, i, a, b) => OnboardingKeepsSubmissions(db, op);
    case CancelOp(o, a) => OnboardingKeepsSubmissions(db, op);
    case GenerateOp(o, k, list) => OnboardingKeepsSubmissions(db, op);
    case PayBillOp(o, i, c) => OnboardingKeepsSubmissions(db, op);
    case RecordOp(o, i, now, p) =>
      var at := PaymentDate(i.date, now).value;
      SettleSettles(db, o, i.bill, i.amount, at, i.payMethod, Optional(i.reference), Optional(i.notes), at, p);
    case ApproveOp(o, r, now, p) =>
      var sub := db.submissions[r];
      SettleSettles(db, o, sub.bill, sub.amount, sub.transferDate, sub.payMethod, sub.reference, None, now, p);
    case _ =>
  }

  lemma {:induction false} PresentWasInserted(ops: seq<Op>, s: SubmissionId)
    requires Legal(EMPTY, ops) && s in Replay(EMPTY, ops).submissions
    ensures Inserts(ops, s) >= 1
  {
    hide Enabled, Apply;
    var before, op := ops[..|ops| - 1], ops[|ops| - 1];
    if s in Replay(EMPTY, before).submissions {
      PresentWasInserted(before, s);
    } else {
      assert Replay(EMPTY, ops) == Apply(Replay(EMPTY, before), op);
      SubmissionAppears(Replay(EMPTY, before), op, s);
    }
  }

  /** However a run goes on, a submission that is still there makes the same claim, and if it was decided it
      is as it was decided. */
  lemma {:induction false} SubmissionSince(ops: seq<Op>, more: seq<Op>, s: SubmissionId)
    requires Legal(EMPTY, ops + more) && Inserts(ops + more, s) <= 1
    ensures Legal(EMPTY, ops) && Inserts(ops, s) <= Inserts(ops + more, s)
    ensures var db, d := Replay(EMPTY, ops), Replay(EMPTY, ops + more);
            s in db.submissions && s in d.submissions ==>
              var x, y := db.submissions[s], d.submissions[s];
              && y == x.(status := y.status, proof := y.proof, reviewedAt := y.reviewedAt)
              && (y.status == x.status || x.status == PendingReview)
    decreases |more|
  {
    hide Enabled, Apply;
    if more == [] {
      assert ops + more == ops;
    } else {
      var before, op := more[..|more| - 1], more[|more| - 1];
      assert (ops + more)[..|ops + more| - 1] == ops + before;
      SubmissionSince(ops, before, s);
      var db := Replay(EMPTY, ops + before);
      assert Replay(EMPTY, ops + more) == Apply(db, op);
      if s in Replay(EMPTY, ops).submissions && s in Apply(db, op).submissions {
        PresentWasInserted(ops, s);
        if s !in db.submissions { SubmissionAppears(db, op, s); }
        SubmissionMovesOnce(db, op, s);
      }
    }
  }

  lemma OnboardingKeepsSubmissions(db: Db, op: Op)
    requires op.AssignOp? || op.CancelOp? || op.GenerateOp? || op.PayBillOp?
    ensures Apply(db, op).submissions == db.submissions
  {
  }

  // ----- what the invariant means to a reader

  /** Bill and assignment statuses in every reachable state: a pending assignment has one bill and it is
      still to be collected, an active one is one with a paid bill, and cancelling covers every bill. */
  lemma StatusesAgree(db: Db, a: AssignmentId)
    requires Reachable(db) && a in db.assignments
    ensures db.assignments[a].status == Pending ==>
              exists b :: b in db.bills && db.bills[b].assignment == a && IsCollectible(db.bills[b].status)
                          && forall c :: c in db.bills && db.bills[c].assignment == a ==> c == b
    ensures db.assignments[a].status == Active <==> HasPaidBill(db, a)
    ensures forall b :: b in db.bills && db.bills[b].assignment == a ==>
              (db.bills[b].status == CancelledBill <==> db.assignments[a].status == CancelledAssignment)
  {
    hide Reachable, Tenancy, Paying, Claiming, BillsLinked, BillKeys;
    ReachableInv(db);
    assert IsBilled(db, a);
    var b :| b in db.bills && db.bills[b].assignment == a;
    if db.assignments[a].status == Pending {
      assert forall c :: c in db.bills && db.bills[c].assignment == a ==> c == b;
    }
  }

  /** A tenant is active only while holding an active assignment with a paid bill (BR-008). */
  lemma ActiveTenantsHavePaid(db: Db, t: TenantId)
    requires Reachable(db) && t in db.tenants && db.tenants[t].status == ActiveTenant
    ensures exists a :: a in db.assignments && db.assignments[a].tenant == t && db.assignments[a].status == Active
                        && HasPaidBill(db, a)
  {
    hide Reachable, OneLive, AssignmentsLinked, BillsLinked, BillKeys, StatusCoupled, PendingHaveOne, Paying, Claiming;
    ReachableInv(db);
    assert HoldsActive(db, t);
    var a :| a in db.assignments && db.assignments[a].tenant == t && db.assignments[a].status == Active;
    assert HasPaidBill(db, a);
  }

  /** Two bills of one assignment never cover the same day. */
  lemma PeriodsDisjoint(db: Db, b: BillId, c: BillId, day: Day)
    requires Reachable(db) && b in db.bills && c in db.bills && b != c && db.bills[b].assignment == db.bills[c].assignment
    ensures !(db.bills[b].periodStart <= day <= db.bills[b].periodEnd && db.bills[c].periodStart <= day <= db.bills[c].periodEnd)
  {
    hide Reachable, Tenancy, Paying, Claiming, StatusCoupled, ActiveHavePaid, PendingHaveOne;
    hide MonthFirst, LengthOf, DueIn, NumberOf;
    ReachableInv(db);
    var j, k := db.bills[b].month, db.bills[c].month;
    MonthStep(j);
    MonthStep(k);
    if j < k { MonthsAscend(j, k); } else { MonthsAscend(k, j); }
  }

  /** The amount check of Approve never fires: rents and claims are snapshots of one amount. */
  lemma ApproveNeverMismatches(db: Db, o: OwnerId, s: SubmissionId, now: Instant, p: PaymentId)
    requires Reachable(db)
    ensures Approve(db, o, s, now, p) != Err(PaymentAmountMismatch)
  {
    hide Reachable, Tenancy, Billing, Paying, SubmissionsApart, ClaimPaid;
    ReachableInv(db);
  }

  /** unique (bill_id) on payments never rejects a fresh payment that passed the status checks. */
  lemma PaymentIndexSilent(db: Db, o: OwnerId, b: BillId, amount: int, date: Instant, payMethod: string,
                           reference: Option<string>, notes: Option<string>, paidAt: Instant, p: PaymentId)
    requires Reachable(db) && p !in db.payments
    ensures Settle(db, o, b, amount, date, payMethod, reference, notes, paidAt, p) != Err(DuplicatePayment)
  {
    hide Reachable, Tenancy, Billing, Claiming, CheckoutsLinked, CheckoutsApart;
    ReachableInv(db);
  }

  /** The live-assignment indexes never reject an assignment that passed the two counts. */
  lemma LiveIndexesSilent(db: Db, r: RoomId, t: TenantId, o: OwnerId)
    requires Inv(db) && HasRoom(db, r, o) && HasTenant(db, t, o)
    ensures RoomIndexed(db, r) <==> RoomCounted(db, r, o)
    ensures TenantIndexed(db, t) <==> TenantCounted(db, t, o)
  {
    hide Billing, Paying, Claiming, OneLive, TenantsEarned;
  }

  /** A bill is its assignment's owner's and for its rent, which is positive. */
  lemma BillOfTenancy(db: Db, b: BillId)
    requires Reachable(db) && b in db.bills
    ensures var a := db.bills[b].assignment;
            && a in db.assignments && db.assignments[a].owner == db.bills[b].owner
            && db.bills[b].amount == db.assignments[a].rent >= 1
  {
    hide Reachable, OneLive, TenantsEarned, Paying, Claiming, NumberOf, PeriodFits, BillKeys, StatusCoupled;
    hide ActiveHavePaid, PendingHaveOne;
    ReachableInv(db);
  }

  /** Every checkout attempt is for its bill's amount (BR-022), and a bill that has one is neither unpaid
      nor overdue. */
  lemma CheckoutTerms(db: Db, c: CheckoutId)
    requires Reachable(db) && c in db.checkouts
    ensures var x := db.checkouts[c];
            && x.openedAt < x.expiresAt && x.bill in db.bills && x.amount == db.bills[x.bill].amount
            && db.bills[x.bill].status != Unpaid && db.bills[x.bill].status != Overdue
  {
    hide Reachable, Tenancy, Billing, Claiming, PaymentsLinked, PaidOnce, CheckoutsApart;
    ReachableInv(db);
  }

  /** A new checkout is opened only when the bill has no live one. */
  lemma NewIsOnlyLive(db: Db, o: OwnerId, i: PayInput, c: CheckoutId, d: Db)
    requires Reachable(db) && PayBill(db, o, i, c) == Ok(d) && d != db && i.lookupAt <= i.openAt
    ensures LiveCheckouts(d, i.bill, o, i.lookupAt) == {c} && NewestLive(d, o, i.bill, i.lookupAt, c)
  {
    hide Reachable;
    var live := LiveCheckouts(d, i.bill, o, i.lookupAt);
    assert c in live;
    forall e | e in live ensures e == c {
      if e != c {
        assert e in LiveCheckouts(db, i.bill, o, i.lookupAt);
        CheckoutTerms(db, e);
      }
    }
  }

  /** At any instant a bill has at most one live checkout (BR-021). */
  lemma OneLiveCheckout(db: Db, c: CheckoutId, d: CheckoutId, at: Instant)
    requires Reachable(db) && c in db.checkouts && d in db.checkouts && db.checkouts[c].bill == db.checkouts[d].bill
    requires db.checkouts[c].openedAt <= at < db.checkouts[c].expiresAt
    requires db.checkouts[d].openedAt <= at < db.checkouts[d].expiresAt
    ensures c == d
  {
    hide Reachable, Tenancy, Billing, Claiming, PaymentsLinked, PaidOnce, HasCheckout;
    ReachableInv(db);
  }

  /** Of two checkouts of one bill the one opened later also expires later. */
  lemma ExpiriesIncrease(db: Db, c: CheckoutId, d: CheckoutId)
    requires Reachable(db) && c in db.checkouts && d in db.checkouts && c != d
    requires db.checkouts[c].bill == db.checkouts[d].bill
    ensures db.checkouts[c].openedAt < db.checkouts[d].openedAt <==> db.checkouts[c].expiresAt < db.checkouts[d].expiresAt
    ensures db.checkouts[c].expiresAt != db.checkouts[d].expiresAt
  {
    hide Reachable, Tenancy, Billing, Claiming, PaymentsLinked, PaidOnce, HasCheckout;
    ReachableInv(db);
  }

  // ----- overdue

  ghost predicate MarkedBy(ops: seq<Op>, day: Day) {
    forall op :: op in ops && op.OverdueOp? ==> op.today <= day
  }

  /** If no MarkOverdue of the run saw a later day, every overdue bill was due before that day. */
  lemma {:induction false} OverdueIsPastDue(ops: seq<Op>, day: Day, b: BillId)
    requires Legal(EMPTY, ops) && MarkedBy(ops, day)
    requires var d := Replay(EMPTY, ops); b in d.bills && d.bills[b].status == Overdue
    ensures Replay(EMPTY, ops).bills[b].due < day
  {
    hide AssignRoom, CancelOnboarding, GenerateMonthly, RecordManual, Approve, PayBill;
    var before, op := ops[..|ops| - 1], ops[|ops| - 1];
    var db := Replay(EMPTY, before);
    assert op in ops;
    StepAdvances(db, op);
    if b in db.bills && db.bills[b].status == Overdue {
      OverdueIsPastDue(before, day, b);
    } else if !op.OverdueOp? {
      OnlyMarkingMakesOverdue(db, op, b);
    }
  }

  lemma OnlyMarkingMakesOverdue(db: Db, op: Op, b: BillId)
    requires !op.OverdueOp? && b in Apply(db, op).bills && Apply(db, op).bills[b].status == Overdue
    ensures b in db.bills && db.bills[b].status == Overdue
  {
    hide AssignRoom, CancelOnboarding, GenerateMonthly, RecordManual, Approve, PayBill;
    if op.AssignOp? || op.CancelOp? || op.GenerateOp? || op.PayBillOp? {
      BillingMakesNoneOverdue(db, op, b);
    } else if (op.RecordOp? || op.ApproveOp?) && Perform(db, op).Ok? {
      PayingMakesNoneOverdue(db, op, b);
    }
  }

  lemma BillingMakesNoneOverdue(db: Db, op: Op, b: BillId)
    requires op.AssignOp? || op.CancelOp? || op.GenerateOp? || op.PayBillOp?
    requires b in Apply(db, op).bills && Apply(db, op).bills[b].status == Overdue
    ensures b in db.bills && db.bills[b].status == Overdue
  {
    hide FirstPeriod, MonthlyPeriod, NumberOf, Date, LiveCheckouts, RoomCounted, TenantCounted, RoomIndexed;
    hide TenantIndexed;
    hide NumberIndexed, MonthIndexed;
  }

  lemma PayingMakesNoneOverdue(db: Db, op: Op, b: BillId)
    requires (op.RecordOp? || op.ApproveOp?) && Perform(db, op).Ok?
    requires b in Apply(db, op).bills && Apply(db, op).bills[b].status == Overdue
    ensures b in db.bills && db.bills[b].status == Overdue
  {
    hide Settle, Activated;
    match op
    case RecordOp(o, i, now, p) =>
      var at := PaymentDate(i.date, now).value;
      SettleSettles(db, o, i.bill, i.amount, at, i.payMethod, Optional(i.reference), Optional(i.notes), at, p);
    case ApproveOp(o, s, now, p) =>
      var sub := db.submissions[s];
      SettleSettles(db, o, sub.bill, sub.amount, sub.transferDate, sub.payMethod, sub.reference, None, now, p);
  }

  /** After MarkOverdue the owner has no unpaid bill due before today, every other bill is as it was,
      and marking again on the same day finds nothing. */
  lemma MarkOverdueComplete(db: Db, o: OwnerId, today: Day)
    ensures var op := OverdueOp(o, today, OverdueRows(db, o, today));
            && Enabled(db, op)
            && OverdueRows(Apply(db, op), o, today) == {}
            && forall b :: b in db.bills && b !in op.ids ==> Apply(db, op).bills[b] == db.bills[b]
  {
  }

  // ----- the two ways to pay agree

  /** Everything but submissions, payment notes and paid_at. */
  function Erased(db: Db): Db {
    db.(submissions := map[],
        payments := map p | p in db.payments :: db.payments[p].(notes := None),
        bills := map b | b in db.bills :: db.bills[b].(paidAt := None))
  }

  /** The notes and the payment stamp are copied into their columns and used nowhere else. */
  lemma SettleCopies(db: Db, o: OwnerId, b: BillId, amount: int, date: Instant, payMethod: string, reference: Option<string>,
                     notes: Option<string>, paidAt: Instant, notes': Option<string>, paidAt': Instant, p: PaymentId)
    ensures var x := Settle(db, o, b, amount, date, payMethod, reference, notes, paidAt, p);
            var y := Settle(db, o, b, amount, date, payMethod, reference, notes', paidAt', p);
            && (x.Err? ==> x == y)
            && (x.Ok? ==>
                  && y.Ok? && p in x.value.payments && b in x.value.bills
                  && y.value == x.value.(payments := x.value.payments[p := x.value.payments[p].(notes := notes')],
                                         bills := x.value.bills[b := x.value.bills[b].(paidAt := Some(paidAt'))]))
  {
    hide PaymentIndexed, HasAssignment, HasTenant, HasRoom;
    var x := Settle(db, o, b, amount, date, payMethod, reference, notes, paidAt, p);
    var y := Settle(db, o, b, amount, date, payMethod, reference, notes', paidAt', p);
    if x.Ok? {
      Rewritten(db.payments, p, x.value.payments[p], y.value.payments[p]);
      Rewritten(db.bills, b, x.value.bills[b], y.value.bills[b]);
    }
  }

  lemma Rewritten<T>(m: map<nat, T>, k: nat, v: T, w: T)
    ensures m[k := v][k := w] == m[k := w]
  {
  }

  lemma SettleErased(db: Db, o: OwnerId, b: BillId, amount: int, date: Instant, payMethod: string, reference: Option<string>,
                     notes: Option<string>, paidAt: Instant, notes': Option<string>, paidAt': Instant, p: PaymentId)
    ensures var x := Settle(db, o, b, amount, date, payMethod, reference, notes, paidAt, p);
            var y := Settle(db, o, b, amount, date, payMethod, reference, notes', paidAt', p);
            && (x.Err? ==> x == y)
            && (x.Ok? ==> y.Ok? && Erased(x.value) == Erased(y.value))
  {
    hide Settle, Erased;
    var x := Settle(db, o, b, amount, date, payMethod, reference, notes, paidAt, p);
    SettleCopies(db, o, b, amount, date, payMethod, reference, notes, paidAt, notes', paidAt', p);
    if x.Ok? {
      ErasedIgnores(x.value, p, x.value.payments[p].(notes := notes'), b, x.value.bills[b].(paidAt := Some(paidAt')));
    }
  }

  lemma ErasedIgnores(d: Db, p: PaymentId, v: Payment, b: BillId, w: Bill)
    requires p in d.payments && v == d.payments[p].(notes := v.notes)
    requires b in d.bills && w == d.bills[b].(paidAt := w.paidAt)
    ensures Erased(d.(payments := d.payments[p := v], bills := d.bills[b := w])) == Erased(d)
  {
  }

  /** Approving a pending submission succeeds, fails and pays exactly as recording its claim by hand. */
  lemma ApproveSimulatesRecord(db: Db, o: OwnerId, s: SubmissionId, now: Instant, now': Instant, reference: string,
                               notes: string, p: PaymentId)
    requires Reachable(db) && HasSubmission(db, s, o) && db.submissions[s].status == PendingReview
    requires Optional(reference) == db.submissions[s].reference
    ensures var sub := db.submissions[s];
            var i := ManualInput(sub.bill, sub.amount, Given(sub.transferDate), sub.payMethod, reference, notes);
            var x, y := Approve(db, o, s, now, p), RecordManual(db, o, i, now', p);
            && (x.Err? <==> y.Err?) && (x.Err? ==> x == y)
            && (x.Ok? ==> Erased(x.value) == Erased(y.value))
  {
    hide Reachable, Tenancy, Billing, Paying, SubmissionsApart, ClaimPaid, Settle;
    ReachableInv(db);
    var sub := db.submissions[s];
    SettleErased(db, o, sub.bill, sub.amount, sub.transferDate, sub.payMethod, sub.reference, None, now,
                 Optional(notes), sub.transferDate, p);
  }

  /** Every claim has such a reference text. */
  lemma ReferenceText(db: Db, s: SubmissionId) returns (reference: string)
    requires Reachable(db) && s in db.submissions
    ensures Optional(reference) == db.submissions[s].reference
  {
    hide Reachable, Tenancy, Billing, Paying, SubmissionsApart, ClaimPaid;
    ReachableInv(db);
    match db.submissions[s].reference
    case None => reference := "";
    case Some(text) => reference := text;
  }
}
