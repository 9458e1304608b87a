/** Why a transaction's earlier reads still hold when it commits: others change only what it has
    not locked, and the unlocked facts it relied on never become false. */
module Stability {
  import opened Types
  import opened Operations
  import opened Invariants
  import opened Runs
  import opened Statements

  predicate SameRow<V(==)>(m: map<nat, V>, n: map<nat, V>, k: nat) {
    (k in m <==> k in n) && (k in m ==> m[k] == n[k])
  }

  /** A change from db to d made by others leaves the held rows alone. */
  ghost predicate RowsRespected(db: Db, d: Db, held: set<Key>) {
    && (forall r :: RoomRow(r) in held ==> SameRow(db.rooms, d.rooms, r))
    && (forall t :: TenantRow(t) in held ==> SameRow(db.tenants, d.tenants, t))
    && (forall a :: AssignmentRow(a) in held ==> SameRow(db.assignments, d.assignments, a))
    && (forall b :: BillRow(b) in held ==> SameRow(db.bills, d.bills, b))
    && (forall p :: PaymentRow(p) in held ==> SameRow(db.payments, d.payments, p))
    && (forall c :: CheckoutRow(c) in held ==> SameRow(db.checkouts, d.checkouts, c))
    && (forall s :: SubmissionRow(s) in held ==> SameRow(db.submissions, d.submissions, s))
  }

  /** No row that others add belongs to a held room, tenant, bill, pending assignment or index key. */
  ghost predicate AbsencesRespected(db: Db, d: Db, held: set<Key>) {
    && (forall a :: a in d.assignments && a !in db.assignments ==>
          RoomRow(d.assignments[a].room) !in held && TenantRow(d.assignments[a].tenant) !in held)
    && (forall b :: b in d.bills && b !in db.bills ==>
          && NumberKey(d.bills[b].owner, d.bills[b].number) !in held
          && MonthKey(d.bills[b].assignment, d.bills[b].month) !in held
          && (d.bills[b].assignment in db.assignments ==> db.assignments[d.bills[b].assignment].status != Pending))
    && (forall p :: p in d.payments && p !in db.payments ==> PaidKey(d.payments[p].bill) !in held)
    && (forall c :: c in d.checkouts && c !in db.checkouts ==> BillRow(d.checkouts[c].bill) !in held)
  }

  /** What the statement relies on besides the keys it takes itself. */
  ghost predicate Protected(s: Stmt, db: Db, t: Tx) {
    match s
    case CountRoom(o, r) => RoomRow(r) in t.held
    case CountTenant(o, n) => TenantRow(n) in t.held
    case InsertAssignment(a, x) => RoomRow(x.room) in t.held && TenantRow(x.tenant) in t.held
    case InsertBill(b, y) => y.assignment !in db.assignments
    case CancelBills(o, a) => AssignmentRow(a) in t.held && a in db.assignments && db.assignments[a].status == Pending
    case FindCheckout(o, i) => BillRow(i.bill) in t.held
    case InsertCheckout(o, i, c) => BillRow(i.bill) in t.held
    case InsertIfAbsent(o, k, x) => x.id in db.assignments && db.assignments[x.id].status == Active
    case LockClaim(o, s, at) => t.locals.bill.None?
    case _ => true
  }

  /** The hypotheses of every stability lemma: statement s ran on db and left the transaction with u. */
  ghost predicate Undisturbed(db: Db, d: Db, u: Tx, held: set<Key>) {
    Advances(db, d) && RowsRespected(db, d, held) && AbsencesRespected(db, d, held) && u.held <= held
  }

  lemma PutRoomStable(db: Db, d: Db, t: Tx, o: OwnerId, r: RoomId, status: RoomStatus)
    requires PutRoom(db, t, o, r, status).Ok? && SameRow(db.rooms, d.rooms, r)
    ensures PutRoom(d, t, o, r, status) == PutRoom(db, t, o, r, status)
    ensures PutRoom(db, t, o, r, status).value.held == t.held + {RoomRow(r)}
  {
  }

  lemma PutTenantStable(db: Db, d: Db, t: Tx, o: OwnerId, n: TenantId, status: TenantStatus)
    requires PutTenant(db, t, o, n, status).Ok? && SameRow(db.tenants, d.tenants, n)
    ensures PutTenant(d, t, o, n, status) == PutTenant(db, t, o, n, status)
    ensures PutTenant(db, t, o, n, status).value.held == t.held + {TenantRow(n)}
  {
  }

  lemma PutAssignmentStable(db: Db, d: Db, t: Tx, o: OwnerId, a: AssignmentId, status: AssignmentStatus)
    requires PutAssignment(db, t, o, a, status).Ok? && SameRow(db.assignments, d.assignments, a)
    ensures PutAssignment(d, t, o, a, status) == PutAssignment(db, t, o, a, status)
    ensures PutAssignment(db, t, o, a, status).value.held == t.held + {AssignmentRow(a)}
  {
  }

  /** An assignment the transaction sees as live in the new tables it saw as live before, unless it is new. */
  lemma LiveSeenBefore(db: Db, d: Db, w: Db, a: AssignmentId)
    requires Advances(db, d) && a in View(d, w).assignments && IsLive(View(d, w).assignments[a])
    requires a in db.assignments || a in w.assignments
    ensures a in View(db, w).assignments && IsLive(View(db, w).assignments[a])
    ensures SameAssignment(View(db, w).assignments[a], View(d, w).assignments[a])
  {
  }

  /** A live assignment of a held room or tenant was seen before, as it is seen now. */
  lemma HeldLiveSeen(db: Db, d: Db, w: Db, a: AssignmentId, held: set<Key>)
    requires Advances(db, d) && AbsencesRespected(db, d, held)
    requires a in View(d, w).assignments && IsLive(View(d, w).assignments[a])
    requires RoomRow(View(d, w).assignments[a].room) in held || TenantRow(View(d, w).assignments[a].tenant) in held
    ensures a in View(db, w).assignments && IsLive(View(db, w).assignments[a])
    ensures SameAssignment(View(db, w).assignments[a], View(d, w).assignments[a])
  {
    hide Advances;
    LiveSeenBefore(db, d, w, a);
  }

  lemma RoomCountStays(db: Db, d: Db, w: Db, r: RoomId, o: OwnerId, held: set<Key>)
    requires Advances(db, d) && AbsencesRespected(db, d, held) && RoomRow(r) in held
    ensures RoomCounted(View(d, w), r, o) ==> RoomCounted(View(db, w), r, o)
    ensures RoomIndexed(View(d, w), r) ==> RoomIndexed(View(db, w), r)
  {
    hide Advances, AbsencesRespected, View;
    forall a | a in View(d, w).assignments && View(d, w).assignments[a].room == r && IsLive(View(d, w).assignments[a])
      ensures a in View(db, w).assignments && IsLive(View(db, w).assignments[a])
      ensures SameAssignment(View(db, w).assignments[a], View(d, w).assignments[a])
    {
      HeldLiveSeen(db, d, w, a, held);
    }
  }

  lemma TenantCountStays(db: Db, d: Db, w: Db, n: TenantId, o: OwnerId, held: set<Key>)
    requires Advances(db, d) && AbsencesRespected(db, d, held) && TenantRow(n) in held
    ensures TenantCounted(View(d, w), n, o) ==> TenantCounted(View(db, w), n, o)
    ensures TenantIndexed(View(d, w), n) ==> TenantIndexed(View(db, w), n)
  {
    hide Advances, AbsencesRespected, View;
    forall a | a in View(d, w).assignments && View(d, w).assignments[a].tenant == n && IsLive(View(d, w).assignments[a])
      ensures a in View(db, w).assignments && IsLive(View(db, w).assignments[a])
      ensures SameAssignment(View(db, w).assignments[a], View(d, w).assignments[a])
    {
      HeldLiveSeen(db, d, w, a, held);
    }
  }

  lemma BillSeen(db: Db, d: Db, w: Db, b: BillId)
    requires Advances(db, d) && (b in db.bills || b in w.bills)
    ensures b in View(db, w).bills && b in View(d, w).bills && SameBill(View(db, w).bills[b], View(d, w).bills[b])
  {
  }

  lemma NewBillSeen(db: Db, d: Db, w: Db, b: BillId)
    requires b in View(d, w).bills && b !in db.bills && b !in w.bills
    ensures b in d.bills && View(d, w).bills[b] == d.bills[b]
  {
  }

  lemma NumberStays(db: Db, d: Db, w: Db, o: OwnerId, n: BillNumber, held: set<Key>)
    requires Advances(db, d) && AbsencesRespected(db, d, held) && NumberKey(o, n) in held
    ensures NumberIndexed(View(d, w), o, n) ==> NumberIndexed(View(db, w), o, n)
  {
    hide View, Advances;
    if NumberIndexed(View(d, w), o, n) {
      var b :| b in View(d, w).bills && View(d, w).bills[b].owner == o && View(d, w).bills[b].number == n;
      if b in db.bills || b in w.bills { BillSeen(db, d, w, b); } else { NewBillSeen(db, d, w, b); }
    }
  }

  lemma MonthStays(db: Db, d: Db, w: Db, a: AssignmentId, k: Month, held: set<Key>)
    requires Advances(db, d) && AbsencesRespected(db, d, held) && MonthKey(a, k) in held
    ensures MonthIndexed(View(d, w), a, k) ==> MonthIndexed(View(db, w), a, k)
  {
    hide View, Advances;
    if MonthIndexed(View(d, w), a, k) {
      var b :| b in View(d, w).bills && View(d, w).bills[b].assignment == a && View(d, w).bills[b].month == k;
      if b in db.bills || b in w.bills { BillSeen(db, d, w, b); } else { NewBillSeen(db, d, w, b); }
    }
  }

  /** A month that is billed stays billed, so skipping it needs no lock. */
  lemma MonthBilledStays(db: Db, d: Db, w: Db, a: AssignmentId, k: Month)
    requires Advances(db, d)
    ensures MonthIndexed(View(db, w), a, k) ==> MonthIndexed(View(d, w), a, k)
  {
    hide Advances;
    if MonthIndexed(View(db, w), a, k) {
      var b :| b in View(db, w).bills && View(db, w).bills[b].assignment == a && View(db, w).bills[b].month == k;
      BillSeen(db, d, w, b);
    }
  }

  lemma RowLocksStable(s: Stmt, db: Db, d: Db, t: Tx, u: Tx, held: set<Key>)
    requires s.LockRoom? || s.LockTenant? || s.LockOnboarding? || s.LockTenancy?
    requires Exec(s, db, t) == Ok(u) && RowsRespected(db, d, held) && u.held <= held
    ensures Exec(s, d, t) == Ok(u)
  {
    hide PutRoom, PutTenant, PutAssignment;
  }

  lemma BillLocksStable(s: Stmt, db: Db, d: Db, t: Tx, u: Tx, held: set<Key>)
    requires s.LockTenantBill? || s.LockClaim? || s.LockBill?
    requires Exec(s, db, t) == Ok(u) && RowsRespected(db, d, held) && u.held <= held
    ensures Exec(s, d, t) == Ok(u)
  {
    hide Exec, RowsRespected;
    if s.LockTenantBill? {
      TenantBillLockStable(s, db, d, t, u, held);
    } else {
      PaymentLocksStable(s, db, d, t, u, held);
    }
  }

  lemma TenantBillLockStable(s: Stmt, db: Db, d: Db, t: Tx, u: Tx, held: set<Key>)
    requires s.LockTenantBill? && Exec(s, db, t) == Ok(u) && RowsRespected(db, d, held) && u.held <= held
    ensures Exec(s, d, t) == Ok(u)
  {
    hide ExecOnboarding, ExecCancel, ExecPayment, ExecActivation;
  }

  lemma PaymentLocksStable(s: Stmt, db: Db, d: Db, t: Tx, u: Tx, held: set<Key>)
    requires (s.LockClaim? || s.LockBill?) && Exec(s, db, t) == Ok(u) && RowsRespected(db, d, held) && u.held <= held
    ensures Exec(s, d, t) == Ok(u)
  {
    hide ExecOnboarding, ExecCancel, ExecActivation, ExecCheckout;
  }

  lemma CountsStable(s: Stmt, db: Db, d: Db, t: Tx, u: Tx, held: set<Key>)
    requires s.CountRoom? || s.CountTenant?
    requires Exec(s, db, t) == Ok(u) && Protected(s, db, t) && Undisturbed(db, d, u, held)
    ensures Exec(s, d, t) == Ok(u)
  {
    hide View, Advances, AbsencesRespected, RowsRespected, RoomCounted, TenantCounted;
    if s.CountRoom? {
      RoomCountStays(db, d, t.w, s.r, s.o, held);
    } else {
      TenantCountStays(db, d, t.w, s.t, s.o, held);
    }
  }

  lemma InsertAssignmentStable(s: Stmt, db: Db, d: Db, t: Tx, u: Tx, held: set<Key>)
    requires s.InsertAssignment? && Exec(s, db, t) == Ok(u) && Protected(s, db, t) && Undisturbed(db, d, u, held)
    ensures Exec(s, d, t) == Ok(u)
  {
    hide Advances, AbsencesRespected, RoomIndexed, TenantIndexed;
    RoomCountStays(db, d, t.w, s.assignment.room, 0, held);
    TenantCountStays(db, d, t.w, s.assignment.tenant, 0, held);
    assert AssignmentRow(s.a) in held;
  }

  lemma InsertBillStable(s: Stmt, db: Db, d: Db, t: Tx, u: Tx, held: set<Key>)
    requires s.InsertBill? && Exec(s, db, t) == Ok(u) && Undisturbed(db, d, u, held)
    ensures Exec(s, d, t) == Ok(u)
  {
    hide Advances, AbsencesRespected, NumberIndexed, MonthIndexed;
    assert BillRow(s.b) in held && NumberKey(s.bill.owner, s.bill.number) in held && MonthKey(s.bill.assignment, s.bill.month) in held;
    NumberStays(db, d, t.w, s.bill.owner, s.bill.number, held);
    MonthStays(db, d, t.w, s.bill.assignment, s.bill.month, held);
  }

  lemma InsertIfAbsentStable(s: Stmt, db: Db, d: Db, t: Tx, u: Tx, held: set<Key>)
    requires s.InsertIfAbsent? && Exec(s, db, t) == Ok(u) && Undisturbed(db, d, u, held)
    ensures Exec(s, d, t) == Ok(u)
  {
    hide Advances, AbsencesRespected, NumberIndexed, MonthIndexed, NumberOf, MonthlyBill;
    if MonthIndexed(View(db, t.w), s.x.id, s.month) {
      MonthBilledStays(db, d, t.w, s.x.id, s.month);
    } else {
      var y := MonthlyBill(s.o, s.month, s.x);
      MonthlyBillKeys(s.o, s.month, s.x);
      assert BillRow(s.x.bill) in u.held && NumberKey(y.owner, y.number) in u.held && MonthKey(y.assignment, y.month) in u.held;
      NumberStays(db, d, t.w, s.o, NumberOf(s.month, s.x.id), held);
      MonthStays(db, d, t.w, s.x.id, s.month, held);
    }
  }

  lemma MonthlyBillKeys(o: OwnerId, k: Month, x: Listed)
    ensures var y := MonthlyBill(o, k, x); y.owner == o && y.number == NumberOf(k, x.id) && y.assignment == x.id && y.month == k
  {
    hide NumberOf;
  }

  lemma PutsStable(s: Stmt, db: Db, d: Db, t: Tx, u: Tx, held: set<Key>)
    requires s.SetRoom? || s.SetTenant? || s.ReleaseRoom? || s.RevertTenant? || s.CancelAssignment?
    requires Exec(s, db, t) == Ok(u) && RowsRespected(db, d, held) && u.held <= held
    ensures Exec(s, d, t) == Ok(u)
  {
    hide View, PutRoom, PutTenant, PutAssignment;
    match s
    case SetRoom(o, r, status) =>
      PutRoomLocks(db, t, o, r, status);
      PutRoomStable(db, d, t, o, r, status);
    case SetTenant(o, n, status) =>
      PutTenantLocks(db, t, o, n, status);
      PutTenantStable(db, d, t, o, n, status);
    case ReleaseRoom(o) =>
      PutRoomLocks(db, t, o, t.locals.assignment.value.room, Available);
      PutRoomStable(db, d, t, o, t.locals.assignment.value.room, Available);
    case RevertTenant(o) =>
      PutTenantLocks(db, t, o, t.locals.assignment.value.tenant, AwaitingPayment);
      PutTenantStable(db, d, t, o, t.locals.assignment.value.tenant, AwaitingPayment);
    case CancelAssignment(o, a) =>
      PutAssignmentLocks(db, t, o, a, CancelledAssignment);
      PutAssignmentStable(db, d, t, o, a, CancelledAssignment);
  }

  lemma PutRoomLocks(db: Db, t: Tx, o: OwnerId, r: RoomId, status: RoomStatus)
    ensures PutRoom(db, t, o, r, status).Ok? ==> RoomRow(r) in PutRoom(db, t, o, r, status).value.held
  {
  }

  lemma PutTenantLocks(db: Db, t: Tx, o: OwnerId, n: TenantId, status: TenantStatus)
    ensures PutTenant(db, t, o, n, status).Ok? ==> TenantRow(n) in PutTenant(db, t, o, n, status).value.held
  {
  }

  lemma PutAssignmentLocks(db: Db, t: Tx, o: OwnerId, a: AssignmentId, status: AssignmentStatus)
    ensures PutAssignment(db, t, o, a, status).Ok? ==> AssignmentRow(a) in PutAssignment(db, t, o, a, status).value.held
  {
  }

  lemma ActivationStable(s: Stmt, db: Db, d: Db, t: Tx, u: Tx, held: set<Key>)
    requires s.ActivateAssignment? || s.ActivateTenantRow? || s.OccupyRoom?
    requires Exec(s, db, t) == Ok(u) && RowsRespected(db, d, held) && u.held <= held
    ensures Exec(s, d, t) == Ok(u)
  {
    hide View, PutRoom, PutTenant, PutAssignment;
    if t.locals.assignment.value.status == Pending {
      var y := t.locals.bill.value;
      match s
      case ActivateAssignment(o) =>
        PutAssignmentLocks(db, t, o, y.assignment, Active);
        PutAssignmentStable(db, d, t, o, y.assignment, Active);
      case ActivateTenantRow(o) =>
        PutTenantLocks(db, t, o, y.tenant, ActiveTenant);
        PutTenantStable(db, d, t, o, y.tenant, ActiveTenant);
      case OccupyRoom(o) =>
        PutRoomLocks(db, t, o, y.room, Occupied);
        PutRoomStable(db, d, t, o, y.room, Occupied);
    }
  }

  lemma InsertPaymentStable(s: Stmt, db: Db, d: Db, t: Tx, u: Tx, held: set<Key>)
    requires s.InsertPayment? && Exec(s, db, t) == Ok(u) && Undisturbed(db, d, u, held)
    ensures Exec(s, d, t) == Ok(u)
  {
    hide Advances, AbsencesRespected, PaymentIndexed;
    assert PaymentRow(s.p) in held && PaidKey(t.locals.terms.value.bill) in held;
    PaidStays(db, d, t.w, t.locals.terms.value.bill, held);
  }

  lemma PaymentSeenBefore(db: Db, d: Db, w: Db, p: PaymentId, held: set<Key>)
    requires Advances(db, d) && AbsencesRespected(db, d, held)
    requires p in View(d, w).payments && PaidKey(View(d, w).payments[p].bill) in held
    ensures p in View(db, w).payments && View(db, w).payments[p] == View(d, w).payments[p]
  {
  }

  lemma PaidStays(db: Db, d: Db, w: Db, b: BillId, held: set<Key>)
    requires Advances(db, d) && AbsencesRespected(db, d, held) && PaidKey(b) in held
    ensures PaymentIndexed(View(d, w), b) ==> PaymentIndexed(View(db, w), b)
  {
    hide View, Advances, AbsencesRespected;
    if PaymentIndexed(View(d, w), b) {
      var p :| p in View(d, w).payments && View(d, w).payments[p].bill == b;
      PaymentSeenBefore(db, d, w, p, held);
    }
  }

  lemma MarksStable(s: Stmt, db: Db, d: Db, t: Tx, u: Tx, held: set<Key>)
    requires s.MarkPaid? || s.MarkApproved?
    requires Exec(s, db, t) == Ok(u) && RowsRespected(db, d, held) && u.held <= held
    ensures Exec(s, d, t) == Ok(u)
  {
  }

  lemma CheckoutStable(s: Stmt, db: Db, d: Db, t: Tx, u: Tx, held: set<Key>)
    requires s.InsertCheckout? || s.SetGatewayPending?
    requires Exec(s, db, t) == Ok(u) && RowsRespected(db, d, held) && u.held <= held
    ensures Exec(s, d, t) == Ok(u)
  {
    hide NewCheckout;
  }

  lemma CheckoutSeen(db: Db, d: Db, w: Db, c: CheckoutId)
    requires Advances(db, d) && c in View(db, w).checkouts
    ensures c in View(d, w).checkouts && View(d, w).checkouts[c] == View(db, w).checkouts[c]
  {
  }

  lemma CheckoutSeenBefore(db: Db, d: Db, w: Db, c: CheckoutId, held: set<Key>)
    requires AbsencesRespected(db, d, held) && c in View(d, w).checkouts && BillRow(View(d, w).checkouts[c].bill) in held
    ensures c in View(db, w).checkouts
  {
  }

  /** While a bill is locked nobody else opens a checkout for it. */
  lemma CheckoutsSame(db: Db, d: Db, w: Db, b: BillId, o: OwnerId, at: Instant, held: set<Key>)
    requires Advances(db, d) && AbsencesRespected(db, d, held) && BillRow(b) in held
    ensures LiveCheckouts(View(d, w), b, o, at) == LiveCheckouts(View(db, w), b, o, at)
    ensures LiveRows(View(d, w), b, o, at) == LiveRows(View(db, w), b, o, at)
  {
    hide View, Advances, AbsencesRespected;
    forall c | c in LiveCheckouts(View(d, w), b, o, at) ensures c in LiveCheckouts(View(db, w), b, o, at) {
      CheckoutSeenBefore(db, d, w, c, held);
      CheckoutSeen(db, d, w, c);
    }
    forall c | c in LiveCheckouts(View(db, w), b, o, at)
      ensures c in LiveCheckouts(View(d, w), b, o, at) && View(d, w).checkouts[c] == View(db, w).checkouts[c]
    {
      CheckoutSeen(db, d, w, c);
    }
    assert LiveCheckouts(View(d, w), b, o, at) == LiveCheckouts(View(db, w), b, o, at);
  }

  lemma FindCheckoutStable(s: Stmt, db: Db, d: Db, t: Tx, u: Tx, held: set<Key>)
    requires s.FindCheckout? && Exec(s, db, t) == Ok(u) && Protected(s, db, t) && t.held <= held && Undisturbed(db, d, u, held)
    ensures Exec(s, d, t) == Ok(u)
  {
    hide View, LiveCheckouts, LiveRows, Advances, AbsencesRespected, RowsRespected;
    CheckoutsSame(db, d, t.w, s.pay.bill, s.o, s.pay.lookupAt, held);
  }

  /** While a pending assignment and its collectible bills are locked, the bills to cancel stay the same. */
  lemma CollectedSame(db: Db, d: Db, w: Db, o: OwnerId, a: AssignmentId, held: set<Key>)
    requires Advances(db, d) && RowsRespected(db, d, held) && AbsencesRespected(db, d, held)
    requires a in db.assignments && db.assignments[a].status == Pending
    requires forall b :: b in CollectibleBills(View(db, w), a, o) ==> BillRow(b) in held
    ensures CollectibleBills(View(d, w), a, o) == CollectibleBills(View(db, w), a, o)
    ensures forall b :: b in CollectibleBills(View(db, w), a, o) ==>
              b in View(db, w).bills && b in View(d, w).bills && View(d, w).bills[b] == View(db, w).bills[b]
  {
    hide View, Advances, AbsencesRespected, RowsRespected;
    forall b | b in CollectibleBills(View(db, w), a, o)
      ensures b in View(d, w).bills && View(d, w).bills[b] == View(db, w).bills[b]
    {
      HeldBillSeen(db, d, w, b, held);
    }
    forall b | b in CollectibleBills(View(d, w), a, o) ensures b in CollectibleBills(View(db, w), a, o) {
      CollectibleSeen(db, d, w, o, a, b, held);
    }
  }

  lemma HeldBillSeen(db: Db, d: Db, w: Db, b: BillId, held: set<Key>)
    requires RowsRespected(db, d, held) && BillRow(b) in held && b in View(db, w).bills
    ensures b in View(d, w).bills && View(d, w).bills[b] == View(db, w).bills[b]
  {
  }

  lemma CollectibleSeen(db: Db, d: Db, w: Db, o: OwnerId, a: AssignmentId, b: BillId, held: set<Key>)
    requires Advances(db, d) && AbsencesRespected(db, d, held)
    requires a in db.assignments && db.assignments[a].status == Pending && b in CollectibleBills(View(d, w), a, o)
    ensures b in CollectibleBills(View(db, w), a, o)
  {
    assert b in db.bills || b in w.bills;
  }

  lemma CancelBillsStable(s: Stmt, db: Db, d: Db, t: Tx, u: Tx, held: set<Key>)
    requires s.CancelBills? && Exec(s, db, t) == Ok(u) && Protected(s, db, t) && Undisturbed(db, d, u, held)
    ensures Exec(s, d, t) == Ok(u)
  {
    hide View, CollectibleBills, Advances, AbsencesRespected, RowsRespected;
    var v, v' := View(db, t.w), View(d, t.w);
    var ids := CollectibleBills(v, s.a, s.o);
    forall b | b in ids ensures BillRow(b) in held {
      assert BillRow(b) in u.held;
    }
    CollectedSame(db, d, t.w, s.o, s.a, held);
    assert (map b | b in ids :: v.bills[b].(status := CancelledBill))
        == (map b | b in ids :: v'.bills[b].(status := CancelledBill));
  }

  /** A statement that ran on db runs on d with the same outcome. */
  lemma ExecStable(s: Stmt, db: Db, d: Db, t: Tx, u: Tx, held: set<Key>)
    requires Exec(s, db, t) == Ok(u) && Protected(s, db, t) && t.held <= u.held && Undisturbed(db, d, u, held)
    ensures Exec(s, d, t) == Ok(u)
  {
    hide Exec, Protected, RowsRespected, AbsencesRespected, Advances;
    if s.LockRoom? || s.LockTenant? || s.LockOnboarding? || s.LockTenancy? { RowLocksStable(s, db, d, t, u, held); }
    else if s.LockTenantBill? || s.LockClaim? || s.LockBill? { BillLocksStable(s, db, d, t, u, held); }
    else if s.CountRoom? || s.CountTenant? { CountsStable(s, db, d, t, u, held); }
    else if s.InsertAssignment? { InsertAssignmentStable(s, db, d, t, u, held); }
    else if s.InsertBill? { InsertBillStable(s, db, d, t, u, held); }
    else if s.InsertIfAbsent? { InsertIfAbsentStable(s, db, d, t, u, held); }
    else if s.SetRoom? || s.SetTenant? || s.ReleaseRoom? || s.RevertTenant? || s.CancelAssignment? {
      PutsStable(s, db, d, t, u, held);
    }
    else if s.ActivateAssignment? || s.ActivateTenantRow? || s.OccupyRoom? { ActivationStable(s, db, d, t, u, held); }
    else if s.InsertPayment? { InsertPaymentStable(s, db, d, t, u, held); }
    else if s.MarkPaid? || s.MarkApproved? { MarksStable(s, db, d, t, u, held); }
    else if s.InsertCheckout? || s.SetGatewayPending? { CheckoutStable(s, db, d, t, u, held); }
    else if s.FindCheckout? { FindCheckoutStable(s, db, d, t, u, held); }
    else { CancelBillsStable(s, db, d, t, u, held); }
  }
}
