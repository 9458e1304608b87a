/** Every enabled operation keeps the invariant. */
module Preservation {
  import opened Types
  import opened Calendar
  import opened Operations
  import opened Invariants

  // ----- the small changes the operations are made of

  /** Bills that keep their assignment, and paid bills that stay paid, keep an assignment billed. */
  lemma BilledStays(db: Db, d: Db, a: AssignmentId)
    requires BillsStay(db, d)
    ensures IsBilled(db, a) ==> IsBilled(d, a)
    ensures HasPaidBill(db, a) ==> HasPaidBill(d, a)
  {
  }

  /** A new assignment with its first bill. */
  lemma NewTenancyBilling(db: Db, d: Db, a: AssignmentId, x: Assignment, b: BillId, y: Bill)
    requires Billing(db)
    requires a !in db.assignments && d.assignments == db.assignments[a := x] && x.status == Pending
    requires b !in db.bills && d.bills == db.bills[b := y] && y.assignment == a && y.status == Unpaid && BillFits(y, x)
    requires !NumberIndexed(db, y.owner, y.number)
    ensures Billing(d)
  {
    hide BillFits;
    NewTenancyKeys(db, d, a, x, b, y);
    forall c | c in d.assignments
      ensures IsBilled(d, c) && (d.assignments[c].status == Active ==> HasPaidBill(d, c))
    {
      hide BillsLinked, BillKeys, StatusCoupled, PendingHaveOne;
      if c == a {
        assert b in d.bills && d.bills[b].assignment == a;
      } else {
        BilledStays(db, d, c);
      }
    }
  }

  lemma NewTenancyKeys(db: Db, d: Db, a: AssignmentId, x: Assignment, b: BillId, y: Bill)
    requires BillsLinked(db) && BillKeys(db) && StatusCoupled(db) && PendingHaveOne(db)
    requires a !in db.assignments && d.assignments == db.assignments[a := x] && x.status == Pending
    requires b !in db.bills && d.bills == db.bills[b := y] && y.assignment == a && y.status == Unpaid && BillFits(y, x)
    requires !NumberIndexed(db, y.owner, y.number)
    ensures BillsLinked(d) && BillKeys(d) && StatusCoupled(d) && PendingHaveOne(d)
  {
    hide BillFits;
  }

  /** Rooms and tenants keep their owners, no assignment comes alive, and new activity is earned. */
  ghost predicate TenancyCalm(db: Db, d: Db) {
    && AssignmentsStay(db, d) && d.assignments.Keys == db.assignments.Keys
    && (forall a :: a in db.assignments && IsLive(d.assignments[a]) ==> IsLive(db.assignments[a]))
    && (forall r :: r in db.rooms ==> r in d.rooms && d.rooms[r].owner == db.rooms[r].owner)
    && (forall t :: t in db.tenants ==> t in d.tenants && d.tenants[t].owner == db.tenants[t].owner)
    && (forall t :: t in d.tenants && d.tenants[t].status == ActiveTenant ==>
          HoldsActive(d, t) || (t in db.tenants && db.tenants[t].status == ActiveTenant))
  }

  lemma TenancyStays(db: Db, d: Db)
    requires Tenancy(db) && TenancyCalm(db, d)
    ensures Tenancy(d)
  {
    assert forall t :: HoldsActive(db, t) ==> HoldsActive(d, t);
  }

  /** The same bills and assignments with statuses that still agree. */
  ghost predicate BillingCalm(db: Db, d: Db) {
    && BillsStay(db, d) && d.bills.Keys == db.bills.Keys
    && AssignmentsStay(db, d) && d.assignments.Keys == db.assignments.Keys
    && (forall a :: a in d.assignments && d.assignments[a].status == Active ==>
          db.assignments[a].status == Active || HasPaidBill(d, a))
    && (forall a :: a in d.assignments && d.assignments[a].status == Pending ==> db.assignments[a].status == Pending)
  }

  lemma BillingStays(db: Db, d: Db)
    requires Billing(db) && StatusCoupled(d) && BillingCalm(db, d)
    ensures Billing(d)
  {
    hide BillsLinked, StatusCoupled, ActiveHavePaid, BillKeys, PendingHaveOne, BillsStay, AssignmentsStay;
    BillsLinkedStays(db, d);
    ActiveHavePaidStays(db, d);
    BillKeysStay(db, d);
  }

  lemma BillKeysStay(db: Db, d: Db)
    requires BillKeys(db) && PendingHaveOne(db) && BillingCalm(db, d)
    ensures BillKeys(d) && PendingHaveOne(d)
  {
  }

  lemma ActiveHavePaidStays(db: Db, d: Db)
    requires ActiveHavePaid(db) && BillingCalm(db, d)
    ensures ActiveHavePaid(d)
  {
    forall a | a in d.assignments
      ensures IsBilled(d, a) && (d.assignments[a].status == Active ==> HasPaidBill(d, a))
    {
      BilledStays(db, d, a);
    }
  }

  lemma BillsLinkedStays(db: Db, d: Db)
    requires BillsLinked(db) && BillsStay(db, d) && d.bills.Keys == db.bills.Keys && AssignmentsStay(db, d)
    ensures BillsLinked(d)
  {
    hide PeriodFits;
    forall b | b in d.bills
      ensures d.bills[b].assignment in d.assignments && BillFits(d.bills[b], d.assignments[d.bills[b].assignment])
    {
      FitStays(db.bills[b], d.bills[b], db.assignments[db.bills[b].assignment], d.assignments[db.bills[b].assignment]);
    }
  }

  lemma FitStays(b: Bill, c: Bill, x: Assignment, y: Assignment)
    requires BillFits(b, x) && SameBill(b, c) && SameAssignment(x, y)
    ensures BillFits(c, y)
  {
    hide MonthFirst, DueIn, NumberOf;
  }

  /** No payment or checkout is made, no bill is paid or leaves or enters the gateway by a side door. */
  ghost predicate PayingCalm(db: Db, d: Db) {
    && BillsStay(db, d) && d.payments == db.payments && d.checkouts == db.checkouts
    && (forall b :: b in d.bills && b !in db.bills ==> d.bills[b].status == Unpaid)
    && (forall b :: b in db.bills && d.bills[b].status != db.bills[b].status ==>
          d.bills[b].status == CancelledBill || (d.bills[b].status == Overdue && db.bills[b].status == Unpaid))
  }

  lemma PayingStays(db: Db, d: Db)
    requires Paying(db) && PayingCalm(db, d)
    ensures Paying(d)
  {
    forall b | b in d.bills && d.bills[b].status == Paid ensures PaymentIndexed(d, b) {
      assert PaymentIndexed(db, b);
      var p :| p in db.payments && db.payments[p].bill == b;
      assert p in d.payments;
    }
    forall b | b in d.bills && d.bills[b].status == GatewayPending ensures HasCheckout(d, b) {
      assert HasCheckout(db, b);
      var c :| c in db.checkouts && db.checkouts[c].bill == b;
      assert c in d.checkouts;
    }
  }

  /** The same submissions over bills and payments that stay. */
  lemma ClaimingStays(db: Db, d: Db)
    requires Claiming(db) && BillsStay(db, d) && d.submissions == db.submissions
    requires forall p :: p in db.payments ==> p in d.payments && d.payments[p] == db.payments[p]
    ensures Claiming(d)
  {
    forall s | s in db.submissions && db.submissions[s].status == Approved ensures ClaimPaid(d, db.submissions[s]) {
      assert ClaimPaid(db, db.submissions[s]);
      var p :| p in db.payments && PaysClaim(db.payments[p], db.submissions[s]);
      assert p in d.payments && PaysClaim(d.payments[p], db.submissions[s]);
    }
  }

  /** Nothing but statuses moves, and no status moves into payment, activity or the gateway. */
  lemma CalmKeeps(db: Db, d: Db)
    requires Inv(db) && TenancyCalm(db, d) && BillingCalm(db, d) && StatusCoupled(d) && PayingCalm(db, d)
    requires d.submissions == db.submissions
    ensures Inv(d)
  {
    hide Tenancy, Billing, Paying, Claiming, TenancyCalm, StatusCoupled, BillsStay, AssignmentsStay;
    TenancyStays(db, d);
    BillingStays(db, d);
    PayingStays(db, d);
    ClaimingStays(db, d);
  }

  // ----- onboarding

  lemma FirstBillFits(o: OwnerId, i: AssignInput, a: AssignmentId)
    requires i.start.Some? && 1 <= i.dueDay <= 31
    ensures NewAssignment(o, i).status == Pending
    ensures BillFits(FirstBill(o, i, a), NewAssignment(o, i))
    ensures FirstBill(o, i, a).owner == o && FirstBill(o, i, a).assignment == a && FirstBill(o, i, a).status == Unpaid
  {
    hide FirstPeriod, NumberOf, MonthFirst, DueIn, Date;
    FirstPeriodInMonth(i.start.value, i.dueDay);
  }

  lemma AssignKeepsTenancy(db: Db, o: OwnerId, i: AssignInput, a: AssignmentId, b: BillId)
    requires Tenancy(db) && AssignRoom(db, o, i, a, b).Ok? && i.rent >= 1 && 1 <= i.dueDay <= 31
    ensures Tenancy(AssignRoom(db, o, i, a, b).value)
  {
    hide FirstPeriod, NumberOf, Date;
    var d := AssignRoom(db, o, i, a, b).value;
    forall t | t in d.tenants && d.tenants[t].status == ActiveTenant ensures HoldsActive(d, t) {
      assert HoldsActive(db, t);
      var x :| x in db.assignments && db.assignments[x].tenant == t && db.assignments[x].status == Active;
      assert x in d.assignments && d.assignments[x] == db.assignments[x];
    }
  }

  lemma AssignKeepsBilling(db: Db, o: OwnerId, i: AssignInput, a: AssignmentId, b: BillId)
    requires Billing(db) && AssignRoom(db, o, i, a, b).Ok? && 1 <= i.dueDay <= 31
    ensures Billing(AssignRoom(db, o, i, a, b).value)
  {
    hide FirstBill, BillFits, Billing, NewAssignment;
    FirstBillFits(o, i, a);
    NewTenancyBilling(db, AssignRoom(db, o, i, a, b).value, a, NewAssignment(o, i), b, FirstBill(o, i, a));
  }

  lemma AssignAddsUnpaid(db: Db, o: OwnerId, i: AssignInput, a: AssignmentId, b: BillId)
    requires AssignRoom(db, o, i, a, b).Ok?
    ensures PayingCalm(db, AssignRoom(db, o, i, a, b).value)
    ensures AssignRoom(db, o, i, a, b).value.submissions == db.submissions
  {
    hide FirstPeriod, NewAssignment, NumberOf;
  }

  lemma AssignKeeps(db: Db, o: OwnerId, i: AssignInput, a: AssignmentId, b: BillId)
    requires Inv(db) && AssignRoom(db, o, i, a, b).Ok? && i.rent >= 1 && 1 <= i.dueDay <= 31
    ensures Inv(AssignRoom(db, o, i, a, b).value)
  {
    hide Tenancy, Billing, Paying, Claiming, AssignRoom, BillsStay;
    AssignKeepsTenancy(db, o, i, a, b);
    AssignKeepsBilling(db, o, i, a, b);
    AssignAddsUnpaid(db, o, i, a, b);
    var d := AssignRoom(db, o, i, a, b).value;
    PayingStays(db, d);
    ClaimingStays(db, d);
  }

  lemma CancelCalm(db: Db, o: OwnerId, a: AssignmentId)
    requires Billing(db) && CancelOnboarding(db, o, a).Ok?
    ensures var d := CancelOnboarding(db, o, a).value;
            StatusCoupled(d) && TenancyCalm(db, d) && BillingCalm(db, d) && PayingCalm(db, d)
  {
    hide BillsLinked, BillKeys, StatusCoupled, ActiveHavePaid, PendingHaveOne, CancelOnboarding, TenancyCalm;
    hide BillingCalm, PayingCalm;
    CancelCouples(db, o, a);
    CancelLeavesTenancy(db, o, a);
    CancelLeavesBills(db, o, a);
  }

  lemma CancelCouples(db: Db, o: OwnerId, a: AssignmentId)
    requires BillsLinked(db) && StatusCoupled(db) && CancelOnboarding(db, o, a).Ok?
    ensures StatusCoupled(CancelOnboarding(db, o, a).value)
  {
    hide PeriodFits;
  }

  lemma CancelLeavesTenancy(db: Db, o: OwnerId, a: AssignmentId)
    requires CancelOnboarding(db, o, a).Ok?
    ensures TenancyCalm(db, CancelOnboarding(db, o, a).value)
  {
    hide WithStatus, CollectibleBills;
  }

  lemma CancelLeavesBills(db: Db, o: OwnerId, a: AssignmentId)
    requires CancelOnboarding(db, o, a).Ok?
    ensures BillingCalm(db, CancelOnboarding(db, o, a).value) && PayingCalm(db, CancelOnboarding(db, o, a).value)
  {
  }

  lemma CancelKeeps(db: Db, o: OwnerId, a: AssignmentId)
    requires Inv(db) && CancelOnboarding(db, o, a).Ok?
    ensures Inv(CancelOnboarding(db, o, a).value)
  {
    hide Tenancy, Billing, Paying, Claiming, StatusCoupled;
    CancelCalm(db, o, a);
    hide TenancyCalm, BillingCalm, PayingCalm;
    CalmKeeps(db, CancelOnboarding(db, o, a).value);
  }

  // ----- monthly billing

  lemma OverdueCalm(db: Db, o: OwnerId, today: Day, ids: set<BillId>)
    requires StatusCoupled(db) && ids <= OverdueRows(db, o, today)
    ensures var d := db.(bills := WithStatus(db.bills, ids, Overdue));
            StatusCoupled(d) && TenancyCalm(db, d) && BillingCalm(db, d) && PayingCalm(db, d)
  {
  }

  lemma OverdueKeeps(db: Db, o: OwnerId, today: Day, ids: set<BillId>)
    requires Inv(db) && ids <= OverdueRows(db, o, today)
    ensures Inv(db.(bills := WithStatus(db.bills, ids, Overdue)))
  {
    OverdueCalm(db, o, today, ids);
    hide Tenancy, Billing, Paying, Claiming, StatusCoupled, TenancyCalm, BillingCalm, PayingCalm;
    CalmKeeps(db, db.(bills := WithStatus(db.bills, ids, Overdue)));
  }

  /** The listed assignments lack the month, are active as listed, and their new rows do not clash. */
  ghost predicate Billable(db: Db, o: OwnerId, k: Month, new': set<Listed>) {
    && !Clashes(db, o, k, new')
    && (forall x :: x in new' ==>
          && x.id in db.assignments && db.assignments[x.id] == x.row && x.row.owner == o && x.row.status == Active
          && 1 <= x.row.dueDay <= 31 && !MonthIndexed(db, x.id, k))
    && (forall x, y :: x in new' && y in new' && x.id == y.id ==> x == y)
  }

  ghost predicate IsNew(b: BillId, y: Bill, o: OwnerId, k: Month, x: Listed) {
    && x.bill == b && y.owner == o && y.assignment == x.id && y.month == k && y.number == NumberOf(k, x.id)
    && y.status == Unpaid && BillFits(y, x.row)
  }

  /** Generated is db with the new rows, each traced to the listed assignment it is for. */
  ghost predicate Generated(db: Db, d: Db, o: OwnerId, k: Month, new': set<Listed>) {
    && d.assignments == db.assignments
    && (forall b :: b in db.bills ==> b in d.bills && d.bills[b] == db.bills[b])
    && (forall b :: b in d.bills && b !in db.bills ==> exists x :: x in new' && IsNew(b, d.bills[b], o, k, x))
  }

  lemma GenerateAdds(db: Db, d: Db, o: OwnerId, k: Month, new': set<Listed>)
    requires Billable(db, o, k, new') && d.assignments == db.assignments
    requires d.bills == db.bills + NewBills(o, k, new')
    ensures Generated(db, d, o, k, new')
  {
    hide BillFits, NumberOf, MonthlyBill;
    var news := NewBills(o, k, new');
    forall b | b in d.bills && b !in db.bills ensures exists x :: x in new' && IsNew(b, d.bills[b], o, k, x) {
      var x :| x in new' && x.bill == b;
      MonthlyBillFits(o, k, x);
      assert IsNew(b, d.bills[b], o, k, x);
    }
    forall b | b in db.bills ensures d.bills[b] == db.bills[b] {
      assert b !in news;
    }
  }

  lemma GeneratedKeys(db: Db, d: Db, o: OwnerId, k: Month, new': set<Listed>)
    requires Billable(db, o, k, new') && Generated(db, d, o, k, new') && BillKeys(db)
    ensures BillKeys(d)
  {
    hide BillFits, NumberOf;
    forall b, c | b in d.bills && c in d.bills && b != c
      ensures !(d.bills[b].assignment == d.bills[c].assignment && d.bills[b].month == d.bills[c].month)
      ensures !(d.bills[b].owner == d.bills[c].owner && d.bills[b].number == d.bills[c].number)
    {
      if b !in db.bills {
        var x :| x in new' && IsNew(b, d.bills[b], o, k, x);
        NewKeyFree(db, d, o, k, new', b, x, c);
      } else if c !in db.bills {
        var x :| x in new' && IsNew(c, d.bills[c], o, k, x);
        NewKeyFree(db, d, o, k, new', c, x, b);
      }
    }
  }

  /** No other row shares a new row's keys. */
  lemma NewKeyFree(db: Db, d: Db, o: OwnerId, k: Month, new': set<Listed>, b: BillId, x: Listed, c: BillId)
    requires Billable(db, o, k, new') && Generated(db, d, o, k, new')
    requires b in d.bills && b !in db.bills && x in new' && IsNew(b, d.bills[b], o, k, x) && c in d.bills && c != b
    ensures !(d.bills[b].assignment == d.bills[c].assignment && d.bills[b].month == d.bills[c].month)
    ensures !(d.bills[b].owner == d.bills[c].owner && d.bills[b].number == d.bills[c].number)
  {
    hide BillFits, NumberOf;
    if c !in db.bills {
      var y :| y in new' && IsNew(c, d.bills[c], o, k, y);
      assert x != y;
    }
  }

  lemma GeneratedLinks(db: Db, d: Db, o: OwnerId, k: Month, new': set<Listed>)
    requires Billing(db) && Billable(db, o, k, new') && Generated(db, d, o, k, new')
    ensures BillsLinked(d) && StatusCoupled(d) && PendingHaveOne(d)
  {
    hide BillFits, NumberOf, Clashes, BillKeys, ActiveHavePaid;
    forall b | b in d.bills && b !in db.bills
      ensures && d.bills[b].status == Unpaid && d.bills[b].assignment in d.assignments
              && d.assignments[d.bills[b].assignment].status == Active
              && BillFits(d.bills[b], d.assignments[d.bills[b].assignment])
    {
      var x :| x in new' && IsNew(b, d.bills[b], o, k, x);
    }
  }

  lemma GeneratedKeepsBilling(db: Db, d: Db, o: OwnerId, k: Month, new': set<Listed>)
    requires Billing(db) && Billable(db, o, k, new') && Generated(db, d, o, k, new')
    ensures Billing(d)
  {
    hide BillsLinked, StatusCoupled, PendingHaveOne, BillKeys, Billable, IsNew;
    GeneratedKeys(db, d, o, k, new');
    GeneratedLinks(db, d, o, k, new');
    forall a | a in d.assignments
      ensures IsBilled(d, a) && (d.assignments[a].status == Active ==> HasPaidBill(d, a))
    {
      BilledStays(db, d, a);
    }
  }

  lemma MonthlyBillFits(o: OwnerId, k: Month, x: Listed)
    requires x.row.owner == o && 1 <= x.row.dueDay <= 31
    ensures IsNew(x.bill, MonthlyBill(o, k, x), o, k, x)
  {
    hide NumberOf, MonthlyPeriod, MonthFirst, DueIn;
    MonthlyPeriodIsMonth(k, x.row.dueDay);
  }

  lemma MissingBillable(db: Db, o: OwnerId, k: Month, list: seq<Listed>)
    requires AssignmentsLinked(db) && ListedActive(db, o, list) && GenerateMonthly(db, o, k, list).Ok?
    ensures Billable(db, o, k, Missing(db, k, list))
  {
    hide Clashes;
  }

  lemma GenerateKeeps(db: Db, o: OwnerId, k: Month, list: seq<Listed>)
    requires Inv(db) && ListedActive(db, o, list) && GenerateMonthly(db, o, k, list).Ok?
    ensures Inv(GenerateMonthly(db, o, k, list).value)
  {
    hide Billing, Paying, Claiming, Billable, Generated, OneLive, TenantsEarned, BillsStay, AssignmentsLinked;
    var d, new' := GenerateMonthly(db, o, k, list).value, Missing(db, k, list);
    MissingBillable(db, o, k, list);
    GenerateAdds(db, d, o, k, new');
    GeneratedKeepsBilling(db, d, o, k, new');
    GeneratedCalm(db, d, o, k, new');
    hide Clashes, NewBills, Tenancy, PayingCalm, TenancyCalm;
    TenancyStays(db, d);
    PayingStays(db, d);
    ClaimingStays(db, d);
  }

  lemma GeneratedCalm(db: Db, d: Db, o: OwnerId, k: Month, new': set<Listed>)
    requires Generated(db, d, o, k, new') && d == db.(bills := d.bills)
    ensures TenancyCalm(db, d) && PayingCalm(db, d)
  {
    hide BillFits, NumberOf;
  }

  // ----- payments

  /** Settling pays one unpaid, overdue or gateway-pending bill by one new payment. */
  ghost predicate Settled(db: Db, d: Db, b: BillId, p: PaymentId, x: Payment) {
    && b in db.bills && p !in db.payments && !PaymentIndexed(db, b) && IsCollectible(db.bills[b].status)
    && d.payments == db.payments[p := x] && x.bill == b
    && x.owner == db.bills[b].owner && x.tenant == db.bills[b].tenant && x.room == db.bills[b].room
    && x.amount == db.bills[b].amount
    && b in d.bills && d.bills[b].status == Paid && SameBill(db.bills[b], d.bills[b])
    && d.bills == db.bills[b := d.bills[b]]
    && d.checkouts == db.checkouts && d.submissions == db.submissions
  }

  /** A pending assignment a becomes active with its tenant and room; any other is left alone. */
  ghost predicate Activated(db: Db, d: Db, a: AssignmentId, t: TenantId, r: RoomId) {
    && a in db.assignments
    && (if db.assignments[a].status == Pending then
          && t in db.tenants && r in db.rooms
          && d.assignments == db.assignments[a := db.assignments[a].(status := Active)]
          && d.tenants == db.tenants[t := db.tenants[t].(status := ActiveTenant)]
          && d.rooms == db.rooms[r := db.rooms[r].(status := Occupied)]
        else
          d.assignments == db.assignments && d.tenants == db.tenants && d.rooms == db.rooms)
  }

  lemma SettleSettles(db: Db, o: OwnerId, b: BillId, amount: int, date: Instant, payMethod: string,
                      reference: Option<string>, notes: Option<string>, paidAt: Instant, p: PaymentId)
    requires Settle(db, o, b, amount, date, payMethod, reference, notes, paidAt, p).Ok?
    ensures var d := Settle(db, o, b, amount, date, payMethod, reference, notes, paidAt, p).value;
            && HasBill(db, b, o)
            && Activated(db, d, db.bills[b].assignment, db.bills[b].tenant, db.bills[b].room)
            && Settled(db, d, b, p, Payment(o, b, db.bills[b].tenant, db.bills[b].room, amount, date, payMethod, reference, notes))
  {
  }

  lemma SettledCoupled(db: Db, d: Db, b: BillId, p: PaymentId, x: Payment)
    requires StatusCoupled(db) && PendingHaveOne(db) && Settled(db, d, b, p, x)
    requires Activated(db, d, db.bills[b].assignment, db.bills[b].tenant, db.bills[b].room)
    ensures StatusCoupled(d)
  {
    hide PaymentIndexed;
  }

  lemma SettledTenancyCalm(db: Db, d: Db, b: BillId, p: PaymentId, x: Payment)
    requires BillsLinked(db) && Settled(db, d, b, p, x)
    requires Activated(db, d, db.bills[b].assignment, db.bills[b].tenant, db.bills[b].room)
    ensures TenancyCalm(db, d)
  {
    hide PeriodFits, NumberOf, PaymentIndexed;
    var a := db.bills[b].assignment;
    if db.assignments[a].status == Pending {
      assert a in d.assignments && d.assignments[a].tenant == db.bills[b].tenant && d.assignments[a].status == Active;
      assert HoldsActive(d, db.bills[b].tenant);
    }
  }

  lemma SettledBillingCalm(db: Db, d: Db, b: BillId, p: PaymentId, x: Payment)
    requires Settled(db, d, b, p, x)
    requires Activated(db, d, db.bills[b].assignment, db.bills[b].tenant, db.bills[b].room)
    ensures BillingCalm(db, d)
  {
    hide PaymentIndexed;
    assert b in d.bills && d.bills[b].assignment == db.bills[b].assignment && d.bills[b].status == Paid;
    assert HasPaidBill(d, db.bills[b].assignment);
  }

  lemma SettledKeepsPayments(db: Db, d: Db, b: BillId, p: PaymentId, x: Payment)
    requires PaymentsLinked(db) && PaidOnce(db) && Settled(db, d, b, p, x)
    ensures PaymentsLinked(d) && PaidOnce(d)
  {
    forall c | c in d.bills && d.bills[c].status == Paid ensures PaymentIndexed(d, c) {
      if c == b {
        assert d.payments[p].bill == c;
      } else {
        assert PaymentIndexed(db, c);
        var q :| q in db.payments && db.payments[q].bill == c;
        assert q in d.payments && d.payments[q].bill == c;
      }
    }
  }

  lemma SettledKeepsPaying(db: Db, d: Db, b: BillId, p: PaymentId, x: Payment)
    requires Paying(db) && Settled(db, d, b, p, x)
    ensures Paying(d)
  {
    hide PaymentsLinked, PaidOnce, PaymentIndexed;
    SettledKeepsPayments(db, d, b, p, x);
    forall c | c in d.bills && d.bills[c].status == GatewayPending ensures HasCheckout(d, c) {
      assert HasCheckout(db, c);
    }
  }

  lemma SettledKeepsClaiming(db: Db, d: Db, b: BillId, p: PaymentId, x: Payment)
    requires Claiming(db) && Settled(db, d, b, p, x)
    ensures Claiming(d)
  {
    hide Claiming, PaymentIndexed;
    ClaimingStays(db, d);
  }

  lemma SettleKeeps(db: Db, o: OwnerId, b: BillId, amount: int, date: Instant, payMethod: string,
                    reference: Option<string>, notes: Option<string>, paidAt: Instant, p: PaymentId)
    requires Inv(db)
    requires Settle(db, o, b, amount, date, payMethod, reference, notes, paidAt, p).Ok?
    ensures Inv(Settle(db, o, b, amount, date, payMethod, reference, notes, paidAt, p).value)
  {
    hide Tenancy, Paying, Claiming, Settle, Settled, Activated, TenancyCalm, BillingCalm;
    hide BillsLinked, StatusCoupled, PendingHaveOne, BillKeys, ActiveHavePaid;
    var d := Settle(db, o, b, amount, date, payMethod, reference, notes, paidAt, p).value;
    SettleSettles(db, o, b, amount, date, payMethod, reference, notes, paidAt, p);
    var x := Payment(o, b, db.bills[b].tenant, db.bills[b].room, amount, date, payMethod, reference, notes);
    SettledCoupled(db, d, b, p, x);
    SettledTenancyCalm(db, d, b, p, x);
    SettledBillingCalm(db, d, b, p, x);
    TenancyStays(db, d);
    BillingStays(db, d);
    SettledKeepsPaying(db, d, b, p, x);
    SettledKeepsClaiming(db, d, b, p, x);
  }

  lemma RecordKeeps(db: Db, o: OwnerId, i: ManualInput, now: Instant, p: PaymentId)
    requires Inv(db) && RecordManual(db, o, i, now, p).Ok?
    ensures Inv(RecordManual(db, o, i, now, p).value)
  {
    hide Inv, Settle;
    var at := PaymentDate(i.date, now).value;
    SettleKeeps(db, o, i.bill, i.amount, at, i.payMethod, Optional(i.reference), Optional(i.notes), at, p);
  }

  lemma ApproveKeeps(db: Db, o: OwnerId, s: SubmissionId, now: Instant, p: PaymentId)
    requires Inv(db) && Approve(db, o, s, now, p).Ok?
    ensures Inv(Approve(db, o, s, now, p).value)
  {
    hide Tenancy, Billing, Paying, Claiming, Settle, Settled;
    var sub := db.submissions[s];
    var d := Settle(db, o, sub.bill, sub.amount, sub.transferDate, sub.payMethod, sub.reference, None, now, p).value;
    SettleSettles(db, o, sub.bill, sub.amount, sub.transferDate, sub.payMethod, sub.reference, None, now, p);
    SettleKeeps(db, o, sub.bill, sub.amount, sub.transferDate, sub.payMethod, sub.reference, None, now, p);
    var x := Payment(o, sub.bill, db.bills[sub.bill].tenant, db.bills[sub.bill].room, sub.amount, sub.transferDate,
                     sub.payMethod, sub.reference, None);
    SettledSubmissions(db, d, sub.bill, p, x);
    assert d.submissions == db.submissions && p in d.payments && PaysClaim(d.payments[p], sub) by {
      SettledPays(db, d, sub.bill, p, x);
    }
    var e := Approve(db, o, s, now, p).value;
    SubmissionsOnly(d, e);
    ApprovedClaiming(db, d, s, p, e.submissions[s], e);
  }

  lemma SettledPays(db: Db, d: Db, b: BillId, p: PaymentId, x: Payment)
    requires Settled(db, d, b, p, x)
    ensures d.submissions == db.submissions && p in d.payments && d.payments[p] == x
  {
  }

  /** No approved submission claims a bill that has just been settled. */
  lemma SettledSubmissions(db: Db, d: Db, b: BillId, p: PaymentId, x: Payment)
    requires Claiming(db) && Settled(db, d, b, p, x)
    ensures b in d.bills && d.bills[b].status == Paid
    ensures forall s :: s in db.submissions && db.submissions[s].bill == b ==> db.submissions[s].status != Approved
  {
  }

  lemma ApprovedClaiming(db: Db, d: Db, s: SubmissionId, p: PaymentId, sub: Submission, e: Db)
    requires Claiming(d) && d.submissions == db.submissions && e == d.(submissions := d.submissions[s := sub])
    requires s in db.submissions && sub == db.submissions[s].(status := Approved, reviewedAt := sub.reviewedAt)
    requires sub.bill in d.bills ==> d.bills[sub.bill].status == Paid
    requires forall r :: r in db.submissions && db.submissions[r].bill == sub.bill ==> db.submissions[r].status != Approved
    requires p in d.payments && PaysClaim(d.payments[p], sub)
    ensures Claiming(e)
  {
    assert ClaimPaid(e, sub);
    forall r | r in d.submissions && d.submissions[r].status == Approved ensures ClaimPaid(e, d.submissions[r]) {
      assert ClaimPaid(d, d.submissions[r]);
    }
  }

  /** The other groups of the invariant do not look at submissions. */
  lemma SubmissionsOnly(db: Db, d: Db)
    requires Tenancy(db) && Billing(db) && Paying(db) && d == db.(submissions := d.submissions)
    ensures Tenancy(d) && Billing(d) && Paying(d)
  {
    hide Tenancy, Paying, TenancyCalm, BillingCalm, PayingCalm;
    hide BillsLinked, StatusCoupled, PendingHaveOne, BillKeys, ActiveHavePaid;
    SameCalm(db, d);
    TenancyStays(db, d);
    BillingStays(db, d);
    PayingStays(db, d);
  }

  lemma SameCalm(db: Db, d: Db)
    requires d.rooms == db.rooms && d.tenants == db.tenants && d.assignments == db.assignments
    requires d.bills == db.bills && d.payments == db.payments && d.checkouts == db.checkouts
    ensures TenancyCalm(db, d) && BillingCalm(db, d) && PayingCalm(db, d)
    ensures StatusCoupled(db) ==> StatusCoupled(d)
  {
  }

  // ----- gateway checkouts

  /** One new checkout for a bill that no live checkout covers, and the bill in the gateway. */
  ghost predicate Opened(db: Db, d: Db, b: BillId, c: CheckoutId, x: Checkout) {
    && b in db.bills && c !in db.checkouts && IsCollectible(db.bills[b].status)
    && d == db.(checkouts := db.checkouts[c := x], bills := db.bills[b := db.bills[b].(status := GatewayPending)])
    && x.bill == b && x.owner == db.bills[b].owner && x.tenant == db.bills[b].tenant
    && x.amount == db.bills[b].amount && x.openedAt < x.expiresAt
    && (forall e :: e in db.checkouts && db.checkouts[e].bill == b ==> db.checkouts[e].expiresAt <= x.openedAt)
  }

  /** The lookup covers every earlier checkout, because an unpaid or overdue bill has none. */
  lemma PayBillOpens(db: Db, o: OwnerId, i: PayInput, c: CheckoutId)
    requires CheckoutsLinked(db) && i.lookupAt <= i.openAt
    requires PayBill(db, o, i, c).Ok? && PayBill(db, o, i, c).value != db
    ensures Opened(db, PayBill(db, o, i, c).value, i.bill, c, NewCheckout(o, db.bills[i.bill], i))
  {
    forall e | e in db.checkouts && db.checkouts[e].bill == i.bill
      ensures db.checkouts[e].expiresAt <= i.lookupAt
    {
      var live := e in LiveCheckouts(db, i.bill, o, i.lookupAt);
    }
  }

  lemma OpenedCoupled(db: Db, d: Db, b: BillId, c: CheckoutId, x: Checkout)
    requires StatusCoupled(db) && Opened(db, d, b, c, x)
    ensures StatusCoupled(d) && TenancyCalm(db, d) && BillingCalm(db, d)
  {
  }

  lemma OpenedKeepsCheckouts(db: Db, d: Db, b: BillId, c: CheckoutId, x: Checkout)
    requires CheckoutsLinked(db) && CheckoutsApart(db) && Opened(db, d, b, c, x)
    ensures CheckoutsLinked(d) && CheckoutsApart(d)
  {
    assert HasCheckout(d, b) by { assert d.checkouts[c].bill == b; }
    forall e | e in d.bills && d.bills[e].status == GatewayPending ensures HasCheckout(d, e) {
      if e != b {
        assert HasCheckout(db, e);
        var f :| f in db.checkouts && db.checkouts[f].bill == e;
        assert f in d.checkouts && d.checkouts[f].bill == e;
      }
    }
  }

  lemma OpenedKeepsPaying(db: Db, d: Db, b: BillId, c: CheckoutId, x: Checkout)
    requires Paying(db) && Opened(db, d, b, c, x)
    ensures Paying(d)
  {
    hide CheckoutsLinked, CheckoutsApart;
    OpenedKeepsCheckouts(db, d, b, c, x);
    forall e | e in d.bills && d.bills[e].status == Paid ensures PaymentIndexed(d, e) {
      assert PaymentIndexed(db, e);
    }
  }

  lemma PayBillKeeps(db: Db, o: OwnerId, i: PayInput, c: CheckoutId)
    requires Inv(db) && i.lookupAt <= i.openAt && PayBill(db, o, i, c).Ok?
    ensures Inv(PayBill(db, o, i, c).value)
  {
    hide Tenancy, Claiming, PayBill, Opened, TenancyCalm, BillingCalm, NewCheckout;
    hide BillsLinked, StatusCoupled, PendingHaveOne, BillKeys, ActiveHavePaid;
    hide CheckoutsLinked, CheckoutsApart, PaidOnce, PaymentsLinked;
    var d := PayBill(db, o, i, c).value;
    if d != db {
      PayBillOpens(db, o, i, c);
      var x := NewCheckout(o, db.bills[i.bill], i);
      OpenedCoupled(db, d, i.bill, c, x);
      TenancyStays(db, d);
      BillingStays(db, d);
      OpenedKeepsPaying(db, d, i.bill, c, x);
      OpenedKeepsClaiming(db, d, i.bill, c, x);
    }
  }

  lemma OpenedKeepsClaiming(db: Db, d: Db, b: BillId, c: CheckoutId, x: Checkout)
    requires Claiming(db) && Opened(db, d, b, c, x)
    ensures Claiming(d)
  {
    hide Claiming;
    ClaimingStays(db, d);
  }

  // ----- submissions

  /** A new pending submission, or changes that approve nothing and reopen nothing. */
  ghost predicate ClaimsCalm(db: Db, d: Db) {
    && (forall s :: s in d.submissions && s !in db.submissions ==>
          SubmissionFits(db, d.submissions[s]) && !PendingIndexed(db, d.submissions[s].bill))
    && (forall s, r :: s in d.submissions && r in d.submissions && s !in db.submissions && r !in db.submissions ==> s == r)
    && (forall s :: s in d.submissions && s in db.submissions ==>
          var x, y := db.submissions[s], d.submissions[s];
          && y == x.(status := y.status, proof := y.proof, reviewedAt := y.reviewedAt)
          && (y.status == x.status || y.status == Rejected || y.status == CancelledSubmission))
  }

  lemma ClaimsCalmKeeps(db: Db, d: Db)
    requires Inv(db) && d == db.(submissions := d.submissions) && ClaimsCalm(db, d)
    ensures Inv(d)
  {
    hide Tenancy, Billing, Paying, ClaimsCalm;
    ClaimsCalmClaiming(db, d);
    SubmissionsOnly(db, d);
  }

  lemma ClaimsCalmClaiming(db: Db, d: Db)
    requires Claiming(db) && d == db.(submissions := d.submissions) && ClaimsCalm(db, d)
    ensures Claiming(d)
  {
    forall s | s in d.submissions && d.submissions[s].status == Approved ensures ClaimPaid(d, d.submissions[s]) {
      assert ClaimPaid(db, db.submissions[s]);
      var p :| p in db.payments && PaysClaim(db.payments[p], db.submissions[s]);
      assert PaysClaim(d.payments[p], d.submissions[s]);
    }
    assert SubmissionsApart(d);
  }

  predicate IsSubmissionStep(op: Op) {
    op.InsertSubmissionOp? || op.SetProofOp? || op.DeleteSubmissionOp? || op.RejectOp? || op.CancelSubmissionOp?
  }

  lemma SubmissionStepCalm(db: Db, op: Op)
    requires IsSubmissionStep(op) && Enabled(db, op) && Perform(db, op).Ok?
    ensures var d := Perform(db, op).value; d == db.(submissions := d.submissions) && ClaimsCalm(db, d)
  {
    hide SubmissionFits, PendingIndexed;
  }

  /** An insert, a proof key, a deletion, a rejection or a cancellation of a submission keeps the invariant. */
  lemma SubmissionStepKeeps(db: Db, op: Op)
    requires Inv(db) && IsSubmissionStep(op) && Enabled(db, op) && Perform(db, op).Ok?
    ensures Inv(Perform(db, op).value)
  {
    hide Inv, ClaimsCalm, Perform, Enabled;
    SubmissionStepCalm(db, op);
    ClaimsCalmKeeps(db, Perform(db, op).value);
  }

  // ----- rooms and tenants

  predicate IsRowStep(op: Op) {
    op.CreateRoomOp? || op.PatchRoomOp? || op.SoftDeleteRoomOp? || op.CreateTenantOp? || op.PatchTenantOp?
    || op.SoftDeleteTenantOp?
  }

  lemma RoomStepCalm(db: Db, op: Op)
    requires (op.CreateRoomOp? || op.PatchRoomOp? || op.SoftDeleteRoomOp?) && Perform(db, op).Ok?
    ensures var d := Perform(db, op).value; d == db.(rooms := d.rooms) && TenancyCalm(db, d)
  {
  }

  lemma TenantStepCalm(db: Db, op: Op)
    requires op.CreateTenantOp? || op.PatchTenantOp? || op.SoftDeleteTenantOp?
    requires Enabled(db, op) && Perform(db, op).Ok?
    ensures var d := Perform(db, op).value; d == db.(tenants := d.tenants) && TenancyCalm(db, d)
  {
  }

  lemma RowsOnlyCalm(db: Db, d: Db)
    requires d == db.(rooms := d.rooms, tenants := d.tenants)
    ensures BillingCalm(db, d) && PayingCalm(db, d) && (StatusCoupled(db) ==> StatusCoupled(d))
    ensures d.submissions == db.submissions
  {
  }

  lemma RowStepKeeps(db: Db, op: Op)
    requires Inv(db) && IsRowStep(op) && Enabled(db, op) && Perform(db, op).Ok?
    ensures Inv(Perform(db, op).value)
  {
    hide Tenancy, Paying, Claiming, Perform, TenancyCalm, BillingCalm, PayingCalm;
    hide BillsLinked, StatusCoupled, PendingHaveOne, BillKeys, ActiveHavePaid;
    if op.CreateRoomOp? || op.PatchRoomOp? || op.SoftDeleteRoomOp? {
      RoomStepCalm(db, op);
    } else {
      TenantStepCalm(db, op);
    }
    RowsOnlyCalm(db, Perform(db, op).value);
    CalmKeeps(db, Perform(db, op).value);
  }

  // ----- all of them

  lemma EmptyInv()
    ensures Inv(EMPTY)
  {
  }

  /** Every enabled operation keeps the invariant. */
  lemma Keeps(db: Db, op: Op)
    requires Inv(db) && Enabled(db, op)
    ensures Inv(Apply(db, op))
  {
    hide Inv, AssignRoom, CancelOnboarding, GenerateMonthly, RecordManual, Approve, PayBill, WithStatus, OverdueRows;
    hide InsertSubmission, SetProof, DeleteSubmission, Reject, CancelSubmission;
    hide CreateRoom, PatchRoom, SoftDeleteRoom, CreateTenant, PatchTenant, SoftDeleteTenant;
    if Perform(db, op).Ok? {
      if IsSubmissionStep(op) {
        SubmissionStepKeeps(db, op);
      } else if IsRowStep(op) {
        RowStepKeeps(db, op);
      } else if op.AssignOp? {
        AssignKeeps(db, op.owner, op.assign, op.a, op.b);
      } else if op.CancelOp? {
        CancelKeeps(db, op.owner, op.a);
      } else if op.GenerateOp? {
        GenerateKeeps(db, op.owner, op.month, op.list);
      } else if op.OverdueOp? {
        OverdueKeeps(db, op.owner, op.today, op.ids);
      } else if op.RecordOp? {
        RecordKeeps(db, op.owner, op.manual, op.now, op.p);
      } else if op.ApproveOp? {
        ApproveKeeps(db, op.owner, op.s, op.now, op.p);
      } else {
        PayBillKeeps(db, op.owner, op.pay, op.c);
      }
    }
  }
}
