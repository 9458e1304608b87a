/** What an onboarding's request becomes: the rows it stores, the bills of the tenancy however a run goes on,
    and what cancelling takes back. */
module Tenancies {
  import opened Types
  import opened Calendar
  import opened Operations
  import opened Invariants
  import opened Preservation
  import opened Runs

  /** The tenancy a request asks for, as an assignment row. */
  predicate AsRequested(x: Assignment, o: OwnerId, i: AssignInput)
    requires i.start.Some?
  {
    var s := i.start.value;
    && x.owner == o && x.tenant == i.tenant && x.room == i.room && x.rent == i.rent && x.dueDay == i.dueDay
    && x.start == Date(s.year, s.month, s.day) && x.createdAt == i.now
  }

  /** A bill of that tenancy: the rent, from the start date or the first of the month to the end of the month,
      due on the due day or on the last day of a shorter month. */
  predicate BilledAsRequested(y: Bill, o: OwnerId, i: AssignInput, a: AssignmentId)
    requires i.start.Some?
  {
    var s := i.start.value;
    && y.owner == o && y.tenant == i.tenant && y.room == i.room && y.assignment == a && y.amount == i.rent
    && y.periodStart == (if y.month == MonthIndex(s.year, s.month) then Date(s.year, s.month, s.day) else MonthFirst(y.month))
    && y.periodEnd == MonthFirst(y.month + 1) - 1 && y.due == DueIn(y.month, i.dueDay)
  }

  /** An onboarding adds one pending assignment and one unpaid bill with the request's terms, reserves the room,
      sends the tenant to pending payment, and changes nothing else. */
  lemma OnboardingStores(db: Db, o: OwnerId, i: AssignInput, a: AssignmentId, b: BillId)
    requires AssignRoom(db, o, i, a, b).Ok? && 1 <= i.dueDay <= 31
    ensures i.start.Some? && i.room in db.rooms && i.tenant in db.tenants && a !in db.assignments && b !in db.bills
    ensures var d := AssignRoom(db, o, i, a, b).value;
            && a in d.assignments && b in d.bills
            && d == Db(db.rooms[i.room := db.rooms[i.room].(status := Reserved)],
                       db.tenants[i.tenant := db.tenants[i.tenant].(status := AwaitingPayment)],
                       db.assignments[a := d.assignments[a]], db.bills[b := d.bills[b]],
                       db.payments, db.checkouts, db.submissions)
            && AsRequested(d.assignments[a], o, i) && d.assignments[a].status == Pending
            && BilledAsRequested(d.bills[b], o, i, a) && d.bills[b].status == Unpaid && d.bills[b].paidAt == None
            && d.bills[b].month == MonthIndex(i.start.value.year, i.start.value.month)
  {
    hide RoomCounted, TenantCounted, RoomIndexed, TenantIndexed, NumberIndexed, MonthIndexed, FirstPeriod, NumberOf, Date;
    hide MonthFirst, DueIn, MonthIndex;
    FirstPeriodInMonth(i.start.value, i.dueDay);
  }

  // ----- the tenancy over any further run

  /** Assignment a and all its bills have the request's terms. */
  ghost predicate TermsKept(db: Db, o: OwnerId, i: AssignInput, a: AssignmentId)
    requires i.start.Some?
  {
    && a in db.assignments && AsRequested(db.assignments[a], o, i)
    && MonthIndexed(db, a, MonthIndex(i.start.value.year, i.start.value.month))
    && forall b :: b in db.bills && db.bills[b].assignment == a ==> BilledAsRequested(db.bills[b], o, i, a)
  }

  /** A bill no other row of the table was before this step is an onboarding's or a billing run's. */
  lemma NewBill(db: Db, op: Op, b: BillId)
    requires b !in db.bills && b in Apply(db, op).bills
    ensures (op.AssignOp? && op.b == b && op.assign.start.Some? && op.a !in db.assignments
             && Apply(db, op).bills[b] == FirstBill(op.owner, op.assign, op.a))
            || (op.GenerateOp? && exists x :: x in op.list && !MonthIndexed(db, x.id, op.month)
                                              && Apply(db, op).bills[b] == MonthlyBill(op.owner, op.month, x))
  {
    hide FirstBill, MonthlyBill, RoomCounted, TenantCounted, RoomIndexed, TenantIndexed, NumberIndexed, MonthIndexed;
    hide Settle, Activated, LiveCheckouts;
    if op.GenerateOp? {
      hide Clashes;
      var x :| x in Missing(db, op.month, op.list) && x.bill == b;
    } else if (op.RecordOp? || op.ApproveOp?) && Perform(db, op).Ok? {
      PaymentStepBills(db, op);
    }
  }

  lemma PaymentStepBills(db: Db, op: Op)
    requires (op.RecordOp? || op.ApproveOp?) && Perform(db, op).Ok?
    ensures Apply(db, op).bills.Keys == db.bills.Keys
  {
    hide Settle, Activated, PaymentIndexed;
    match op
    case RecordOp(o, i, now, p) =>
      var at := PaymentDate(i.date, now).value;
      SettleSettles(db, o, i.bill, i.amount, at, i.payMethod, Optional(i.reference), Optional(i.notes), at, p);
    case ApproveOp(o, s, now, p) =>
      var sub := db.submissions[s];
      SettleSettles(db, o, sub.bill, sub.amount, sub.transferDate, sub.payMethod, sub.reference, None, now, p);
  }

  lemma MonthlyBillTerms(o: OwnerId, i: AssignInput, k: Month, x: Listed)
    requires i.start.Some? && AsRequested(x.row, o, i) && 1 <= i.dueDay <= 31
    requires k != MonthIndex(i.start.value.year, i.start.value.month)
    ensures BilledAsRequested(MonthlyBill(o, k, x), o, i, x.id)
  {
    hide MonthlyPeriod, NumberOf, MonthFirst, DueIn, MonthIndex, Date;
    MonthlyPeriodIsMonth(k, i.dueDay);
  }

  lemma TermsStep(db: Db, op: Op, o: OwnerId, i: AssignInput, a: AssignmentId)
    requires Enabled(db, op) && i.start.Some? && 1 <= i.dueDay <= 31 && TermsKept(db, o, i, a)
    ensures TermsKept(Apply(db, op), o, i, a)
  {
    hide Apply, Enabled, MonthFirst, DueIn, MonthIndex, Date, FirstBill, MonthlyBill;
    var d := Apply(db, op);
    StepAdvances(db, op);
    forall b | b in d.bills && d.bills[b].assignment == a ensures BilledAsRequested(d.bills[b], o, i, a) {
      if b !in db.bills {
        NewBill(db, op, b);
        NewBillTerms(db, op, b, o, i, a);
      }
    }
    var b :| b in db.bills && db.bills[b].assignment == a
             && db.bills[b].month == MonthIndex(i.start.value.year, i.start.value.month);
    assert b in d.bills && d.bills[b].assignment == a && d.bills[b].month == db.bills[b].month;
  }

  lemma NewBillTerms(db: Db, op: Op, b: BillId, o: OwnerId, i: AssignInput, a: AssignmentId)
    requires Enabled(db, op) && i.start.Some? && 1 <= i.dueDay <= 31 && TermsKept(db, o, i, a)
    requires b !in db.bills && b in Apply(db, op).bills && Apply(db, op).bills[b].assignment == a
    ensures BilledAsRequested(Apply(db, op).bills[b], o, i, a)
  {
    hide Apply, MonthFirst, DueIn, MonthIndex, Date, FirstPeriod, MonthlyPeriod, NumberOf, AsRequested, MonthIndexed;
    hide BilledAsRequested;
    NewBill(db, op, b);
    if op.GenerateOp? {
      var x :| x in op.list && !MonthIndexed(db, x.id, op.month) && Apply(db, op).bills[b] == MonthlyBill(op.owner, op.month, x);
      RequestedOwner(x.row, o, i);
      MonthlyBillTerms(o, i, op.month, x);
    }
  }

  lemma RequestedOwner(x: Assignment, o: OwnerId, i: AssignInput)
    requires i.start.Some? && AsRequested(x, o, i)
    ensures x.owner == o
  {
    hide Date;
  }

  lemma {:induction false} TermsRun(db: Db, ops: seq<Op>, o: OwnerId, i: AssignInput, a: AssignmentId)
    requires Legal(db, ops) && i.start.Some? && 1 <= i.dueDay <= 31 && TermsKept(db, o, i, a)
    ensures TermsKept(Replay(db, ops), o, i, a)
  {
    hide TermsKept, Enabled, Apply;
    if ops != [] {
      var before, op := ops[..|ops| - 1], ops[|ops| - 1];
      TermsRun(db, before, o, i, a);
      TermsStep(Replay(db, before), op, o, i, a);
    }
  }

  /** However a run goes on after an onboarding, the assignment has the request's rent, due day and start date,
      and so has every bill of it, of whatever month and by whichever request. */
  lemma TenancyTerms(db: Db, o: OwnerId, i: AssignInput, a: AssignmentId, b: BillId, ops: seq<Op>)
    requires Reachable(db) && AssignRoom(db, o, i, a, b).Ok? && i.rent >= 1 && 1 <= i.dueDay <= 31
    requires Legal(AssignRoom(db, o, i, a, b).value, ops)
    ensures i.start.Some?
    ensures var e := Replay(AssignRoom(db, o, i, a, b).value, ops);
            && a in e.assignments && AsRequested(e.assignments[a], o, i)
            && forall c :: c in e.bills && e.bills[c].assignment == a ==> BilledAsRequested(e.bills[c], o, i, a)
  {
    hide Reachable, AssignRoom, Legal, Replay, AsRequested, BilledAsRequested, MonthIndex, Tenancy, Paying, Claiming;
    hide BillFits, BillKeys, StatusCoupled, ActiveHavePaid, PendingHaveOne;
    ReachableInv(db);
    OnboardingStores(db, o, i, a, b);
    var d := AssignRoom(db, o, i, a, b).value;
    BillOfRequest(d.bills[b], o, i, a);
    assert MonthIndexed(d, a, MonthIndex(i.start.value.year, i.start.value.month));
    TermsRun(d, ops, o, i, a);
  }

  lemma BillOfRequest(y: Bill, o: OwnerId, i: AssignInput, a: AssignmentId)
    requires i.start.Some? && BilledAsRequested(y, o, i, a)
    ensures y.assignment == a && y.owner == o
  {
    hide Date, MonthFirst, DueIn, MonthIndex;
  }

  // ----- cancelling

  /** Cancelling an onboarding gives the rooms back as they were and leaves a cancelled assignment with a
      cancelled bill and a tenant who awaits payment; nothing else differs from before the onboarding. */
  lemma CancelUndoes(db: Db, o: OwnerId, i: AssignInput, a: AssignmentId, b: BillId)
    requires Reachable(db) && AssignRoom(db, o, i, a, b).Ok?
    ensures i.tenant in db.tenants
    ensures var d := AssignRoom(db, o, i, a, b).value;
            && a in d.assignments && b in d.bills
            && CancelOnboarding(d, o, a) == Ok(db.(
                 assignments := db.assignments[a := d.assignments[a].(status := CancelledAssignment)],
                 bills := db.bills[b := d.bills[b].(status := CancelledBill)],
                 tenants := db.tenants[i.tenant := db.tenants[i.tenant].(status := AwaitingPayment)]))
  {
    hide Reachable, FirstPeriod, Date, NumberOf, RoomCounted, TenantCounted, RoomIndexed, TenantIndexed, NumberIndexed;
    hide MonthIndexed, Tenancy, Paying, Claiming, BillFits, BillKeys, StatusCoupled, ActiveHavePaid, PendingHaveOne;
    ReachableInv(db);
    var d := AssignRoom(db, o, i, a, b).value;
    assert CollectibleBills(d, a, o) == {b};
    Rewritten(db.assignments, a, d.assignments[a], d.assignments[a].(status := CancelledAssignment));
    Rewritten(db.rooms, i.room, d.rooms[i.room], db.rooms[i.room]);
    Rewritten(db.tenants, i.tenant, d.tenants[i.tenant], d.tenants[i.tenant]);
    assert WithStatus(d.bills, {b}, CancelledBill) == db.bills[b := d.bills[b].(status := CancelledBill)];
    assert db.rooms[i.room := db.rooms[i.room]] == db.rooms;
  }

  /** An onboarding can be cancelled exactly while it awaits its first payment and its room and tenant are
      not deleted. */
  lemma CancelAccepted(db: Db, o: OwnerId, a: AssignmentId)
    requires Reachable(db)
    ensures CancelOnboarding(db, o, a).Ok? <==>
              && a in db.assignments && db.assignments[a].owner == o && db.assignments[a].status == Pending
              && db.assignments[a].room in db.rooms && !db.rooms[db.assignments[a].room].deleted
              && db.assignments[a].tenant in db.tenants && !db.tenants[db.assignments[a].tenant].deleted
  {
    hide Reachable, WithStatus, CollectibleBills, Billing, Paying, Claiming, OneLive, TenantsEarned;
    ReachableInv(db);
  }

  // ----- accepting

  /** Somebody lives, or is about to, in the room or as the tenant. */
  ghost predicate Held(db: Db, r: RoomId, t: TenantId) {
    exists a :: a in db.assignments && (db.assignments[a].room == r || db.assignments[a].tenant == t)
                && (db.assignments[a].status == Pending || db.assignments[a].status == Active)
  }

  /** The owner has a bill for the month whose number has the same eight digits. */
  ghost predicate DigitsTaken(db: Db, o: OwnerId, k: Month, a: AssignmentId) {
    exists b :: b in db.bills && db.bills[b].owner == o && db.bills[b].number == NumberOf(k, a)
  }

  /** With new ids, an onboarding succeeds exactly when the start date is one, the owner has the room and the
      tenant, the room is available, neither has a live assignment, and the bill number is free. */
  lemma OnboardingAccepted(db: Db, o: OwnerId, i: AssignInput, a: AssignmentId, b: BillId)
    requires Reachable(db) && a !in db.assignments && b !in db.bills
    ensures AssignRoom(db, o, i, a, b).Ok? <==>
              && i.start.Some?
              && i.room in db.rooms && db.rooms[i.room].owner == o && !db.rooms[i.room].deleted
              && db.rooms[i.room].status == Available
              && i.tenant in db.tenants && db.tenants[i.tenant].owner == o && !db.tenants[i.tenant].deleted
              && !Held(db, i.room, i.tenant)
              && !DigitsTaken(db, o, MonthIndex(i.start.value.year, i.start.value.month), a)
  {
    hide Reachable, Tenancy, Paying, Claiming, BillFits, BillKeys, StatusCoupled, ActiveHavePaid, PendingHaveOne;
    hide Date, NumberOf, MonthIndex;
    ReachableInv(db);
    var x := HasRoom(db, i.room, o) && HasTenant(db, i.tenant, o);
    if x {
      LiveIndexesSilent(db, i.room, i.tenant, o);
      assert Held(db, i.room, i.tenant) <==> RoomIndexed(db, i.room) || TenantIndexed(db, i.tenant);
    }
  }
}
