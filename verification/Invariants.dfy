/** What holds of the tables after every run. */
module Invariants {
  import opened Types
  import opened Calendar
  import opened Operations

  /** An assignment's room and tenant exist and belong to its owner. */
  ghost predicate AssignmentsLinked(db: Db) {
    forall a :: a in db.assignments ==>
      var x := db.assignments[a];
      && x.room in db.rooms && db.rooms[x.room].owner == x.owner
      && x.tenant in db.tenants && db.tenants[x.tenant].owner == x.owner
      && x.rent >= 1 && 1 <= x.dueDay <= 31
  }

  /** The period lies in the bill's month, ends with it, and the due day is the clamped one. */
  predicate PeriodFits(b: Bill, dueDay: int) {
    && MonthFirst(b.month) <= b.periodStart <= b.periodEnd == MonthFirst(b.month + 1) - 1
    && b.due == DueIn(b.month, dueDay)
  }

  /** A bill copies its assignment's parties and rent. */
  predicate BillFits(b: Bill, x: Assignment) {
    && b.owner == x.owner && b.tenant == x.tenant && b.room == x.room && b.amount == x.rent
    && b.number == NumberOf(b.month, b.assignment) && PeriodFits(b, x.dueDay)
  }

  ghost predicate BillsLinked(db: Db) {
    forall b :: b in db.bills ==>
      db.bills[b].assignment in db.assignments && BillFits(db.bills[b], db.assignments[db.bills[b].assignment])
  }

  /** At most one live assignment per room (BR-010) and per tenant (BR-011). */
  ghost predicate OneLive(db: Db) {
    forall a, c :: a in db.assignments && c in db.assignments
      && IsLive(db.assignments[a]) && IsLive(db.assignments[c])
      && (db.assignments[a].room == db.assignments[c].room || db.assignments[a].tenant == db.assignments[c].tenant)
      ==> a == c
  }

  /** unique (assignment, month) and unique (owner, number). */
  ghost predicate BillKeys(db: Db) {
    forall b, c :: b in db.bills && c in db.bills
      && ((db.bills[b].assignment == db.bills[c].assignment && db.bills[b].month == db.bills[c].month)
          || (db.bills[b].owner == db.bills[c].owner && db.bills[b].number == db.bills[c].number))
      ==> b == c
  }

  /** Bill and assignment statuses agree. */
  ghost predicate StatusCoupled(db: Db) {
    forall b :: b in db.bills && db.bills[b].assignment in db.assignments ==>
      && (db.bills[b].status == CancelledBill <==> db.assignments[db.bills[b].assignment].status == CancelledAssignment)
      && (db.bills[b].status == Paid ==> db.assignments[db.bills[b].assignment].status == Active)
  }

  ghost predicate HasPaidBill(db: Db, a: AssignmentId) {
    exists b :: b in db.bills && db.bills[b].assignment == a && db.bills[b].status == Paid
  }

  ghost predicate IsBilled(db: Db, a: AssignmentId) {
    exists b :: b in db.bills && db.bills[b].assignment == a
  }

  /** Every assignment has a bill, an active one a paid bill. */
  ghost predicate ActiveHavePaid(db: Db) {
    forall a :: a in db.assignments ==>
      IsBilled(db, a) && (db.assignments[a].status == Active ==> HasPaidBill(db, a))
  }

  /** A pending assignment has no second bill. */
  ghost predicate PendingHaveOne(db: Db) {
    forall b, c :: b in db.bills && c in db.bills && db.bills[b].assignment == db.bills[c].assignment
      && db.bills[b].assignment in db.assignments && db.assignments[db.bills[b].assignment].status == Pending
      ==> b == c
  }

  /** A payment copies its paid bill. */
  ghost predicate PaymentsLinked(db: Db) {
    forall p :: p in db.payments ==>
      var x := db.payments[p];
      && x.bill in db.bills && db.bills[x.bill].status == Paid && x.amount == db.bills[x.bill].amount
      && x.owner == db.bills[x.bill].owner && x.tenant == db.bills[x.bill].tenant && x.room == db.bills[x.bill].room
  }

  /** A bill is paid iff it has a payment, and then it has one payment (BR-029, BR-030). */
  ghost predicate PaidOnce(db: Db) {
    && (forall b :: b in db.bills && db.bills[b].status == Paid ==> PaymentIndexed(db, b))
    && (forall p, q :: p in db.payments && q in db.payments && db.payments[p].bill == db.payments[q].bill ==> p == q)
  }

  ghost predicate HasCheckout(db: Db, b: BillId) {
    exists c :: c in db.checkouts && db.checkouts[c].bill == b
  }

  /** A checkout is for its bill's amount, and its bill has left unpaid and overdue. */
  ghost predicate CheckoutsLinked(db: Db) {
    forall c :: c in db.checkouts ==>
      var x := db.checkouts[c];
      && x.bill in db.bills && x.openedAt < x.expiresAt && x.amount == db.bills[x.bill].amount
      && x.owner == db.bills[x.bill].owner && x.tenant == db.bills[x.bill].tenant
      && db.bills[x.bill].status != Unpaid && db.bills[x.bill].status != Overdue
  }

  predicate Apart(c: Checkout, d: Checkout) {
    c.expiresAt <= d.openedAt || d.expiresAt <= c.openedAt
  }

  /** The checkouts of one bill follow one another in time. */
  ghost predicate CheckoutsApart(db: Db) {
    && (forall b :: b in db.bills && db.bills[b].status == GatewayPending ==> HasCheckout(db, b))
    && (forall c, d :: c in db.checkouts && d in db.checkouts && c != d && db.checkouts[c].bill == db.checkouts[d].bill
          ==> Apart(db.checkouts[c], db.checkouts[d]))
  }

  /** p is the payment that approving sub makes. */
  predicate PaysClaim(p: Payment, sub: Submission) {
    && p.bill == sub.bill && p.amount == sub.amount && p.payMethod == sub.payMethod
    && p.date == sub.transferDate && p.reference == sub.reference
  }

  ghost predicate ClaimPaid(db: Db, sub: Submission) {
    exists p :: p in db.payments && PaysClaim(db.payments[p], sub)
  }

  /** A submission is for its bill's amount; an approved one is paid by the payment it claims. */
  ghost predicate SubmissionsLinked(db: Db) {
    forall s :: s in db.submissions ==>
      var x := db.submissions[s];
      && x.bill in db.bills && x.amount == db.bills[x.bill].amount && x.payMethod in ALLOWED_METHODS
      && x.reference != Some("")
      && x.owner == db.bills[x.bill].owner && x.tenant == db.bills[x.bill].tenant
      && (x.status == Approved ==> db.bills[x.bill].status == Paid && ClaimPaid(db, x))
  }

  /** One bill has at most one pending and at most one approved submission. */
  ghost predicate SubmissionsApart(db: Db) {
    forall s, r :: s in db.submissions && r in db.submissions
      && db.submissions[s].bill == db.submissions[r].bill && db.submissions[s].status == db.submissions[r].status
      && (db.submissions[s].status == PendingReview || db.submissions[s].status == Approved)
      ==> s == r
  }

  ghost predicate HoldsActive(db: Db, t: TenantId) {
    exists a :: a in db.assignments && db.assignments[a].tenant == t && db.assignments[a].status == Active
  }

  /** A tenant is active only while holding an active assignment (BR-008). */
  ghost predicate TenantsEarned(db: Db) {
    forall t :: t in db.tenants && db.tenants[t].status == ActiveTenant ==> HoldsActive(db, t)
  }

  ghost predicate Tenancy(db: Db) {
    AssignmentsLinked(db) && OneLive(db) && TenantsEarned(db)
  }

  ghost predicate Billing(db: Db) {
    BillsLinked(db) && BillKeys(db) && StatusCoupled(db) && ActiveHavePaid(db) && PendingHaveOne(db)
  }

  ghost predicate Paying(db: Db) {
    PaymentsLinked(db) && PaidOnce(db) && CheckoutsLinked(db) && CheckoutsApart(db)
  }

  ghost predicate Claiming(db: Db) {
    SubmissionsLinked(db) && SubmissionsApart(db)
  }

  ghost predicate Inv(db: Db) {
    Tenancy(db) && Billing(db) && Paying(db) && Claiming(db)
  }

  // ----- what no operation ever changes in a row

  predicate SameBill(b: Bill, c: Bill) {
    c == b.(status := c.status, paidAt := c.paidAt)
  }

  predicate SameAssignment(x: Assignment, y: Assignment) {
    y == x.(status := y.status)
  }

  ghost predicate BillsStay(db: Db, d: Db) {
    forall b :: b in db.bills ==>
      && b in d.bills && SameBill(db.bills[b], d.bills[b])
      && (db.bills[b].status == Paid ==> d.bills[b].status == Paid)
  }

  ghost predicate AssignmentsStay(db: Db, d: Db) {
    forall a :: a in db.assignments ==>
      && a in d.assignments && SameAssignment(db.assignments[a], d.assignments[a])
      && (db.assignments[a].status == Active ==> d.assignments[a].status == Active)
  }
}
