/** Who waits for whom: a request locks only what belongs to its own owner, so requests of different owners
    never wait for each other. */
module Contention {
  import opened Types
  import opened Operations
  import opened Statements
  import opened Refinement
  import opened Stability
  import opened Coverage
  import opened Protocol

  /** The row or index entry k belongs to owner o, in tables v. */
  predicate Mine(v: Db, k: Key, o: OwnerId) {
    match k
    case RoomRow(r) => r in v.rooms && v.rooms[r].owner == o
    case TenantRow(n) => n in v.tenants && v.tenants[n].owner == o
    case AssignmentRow(a) => a in v.assignments && v.assignments[a].owner == o
    case BillRow(b) => b in v.bills && v.bills[b].owner == o
    case PaymentRow(p) => p in v.payments && v.payments[p].owner == o
    case CheckoutRow(c) => c in v.checkouts && v.checkouts[c].owner == o
    case SubmissionRow(s) => s in v.submissions && v.submissions[s].owner == o
    case LiveRoomKey(r) => r in v.rooms && v.rooms[r].owner == o
    case LiveTenantKey(n) => n in v.tenants && v.tenants[n].owner == o
    case NumberKey(owner, n) => owner == o
    case MonthKey(a, m) => a in v.assignments && v.assignments[a].owner == o
    case PaidKey(b) => b in v.bills && v.bills[b].owner == o
  }

  /** The rows whose ids op draws. */
  function Draws(op: Op): set<Key> {
    match op
    case AssignOp(o, i, a, b) => {AssignmentRow(a), BillRow(b)}
    case RecordOp(o, i, now, p) => {PaymentRow(p)}
    case ApproveOp(o, s, now, p) => {PaymentRow(p)}
    case PayBillOp(o, i, c) => {CheckoutRow(c)}
    case GenerateOp(o, k, list) => set x | x in list :: BillRow(x.bill)
    case _ => {}
  }

  /** The rows a transaction sees are committed ones, with their owners, or have an id it drew. */
  ghost predicate Kept(db: Db, v: Db, drawn: set<Key>) {
    && (forall r :: r in v.rooms ==> r in db.rooms && v.rooms[r].owner == db.rooms[r].owner)
    && (forall n :: n in v.tenants ==> n in db.tenants && v.tenants[n].owner == db.tenants[n].owner)
    && (forall a :: a in v.assignments ==>
          if a in db.assignments then v.assignments[a].owner == db.assignments[a].owner else AssignmentRow(a) in drawn)
    && (forall b :: b in v.bills ==> if b in db.bills then v.bills[b].owner == db.bills[b].owner else BillRow(b) in drawn)
    && (forall p :: p in v.payments ==>
          if p in db.payments then v.payments[p].owner == db.payments[p].owner else PaymentRow(p) in drawn)
    && (forall c :: c in v.checkouts ==>
          if c in db.checkouts then v.checkouts[c].owner == db.checkouts[c].owner else CheckoutRow(c) in drawn)
    && (forall s :: s in v.submissions ==> s in db.submissions && v.submissions[s].owner == db.submissions[s].owner)
  }

  ghost predicate HoldsOwn(db: Db, v: Db, held: set<Key>, o: OwnerId, drawn: set<Key>) {
    Kept(db, v, drawn) && forall k :: k in held ==> Mine(v, k, o)
  }

  /** Rows stay, with their owners. */
  ghost predicate OwnersStay(v: Db, w: Db) {
    && (forall r :: r in v.rooms ==> r in w.rooms && w.rooms[r].owner == v.rooms[r].owner)
    && (forall n :: n in v.tenants ==> n in w.tenants && w.tenants[n].owner == v.tenants[n].owner)
    && (forall a :: a in v.assignments ==> a in w.assignments && w.assignments[a].owner == v.assignments[a].owner)
    && (forall b :: b in v.bills ==> b in w.bills && w.bills[b].owner == v.bills[b].owner)
    && (forall p :: p in v.payments ==> p in w.payments && w.payments[p].owner == v.payments[p].owner)
    && (forall c :: c in v.checkouts ==> c in w.checkouts && w.checkouts[c].owner == v.checkouts[c].owner)
    && (forall s :: s in v.submissions ==> s in w.submissions && w.submissions[s].owner == v.submissions[s].owner)
  }

  lemma MineStays(v: Db, w: Db, k: Key, o: OwnerId)
    requires Mine(v, k, o) && OwnersStay(v, w)
    ensures Mine(w, k, o)
  {
  }

  lemma StillOwn(db: Db, v: Db, w: Db, held: set<Key>, new': set<Key>, o: OwnerId, drawn: set<Key>)
    requires HoldsOwn(db, v, held, o, drawn) && OwnersStay(v, w) && Kept(db, w, drawn)
    requires forall k :: k in new' ==> Mine(w, k, o)
    ensures HoldsOwn(db, w, held + new', o, drawn)
  {
    hide Mine, OwnersStay, Kept;
    forall k | k in held ensures Mine(w, k, o) {
      MineStays(v, w, k, o);
    }
  }

  // ----- one row written

  lemma RoomWritten(db: Db, v: Db, r: RoomId, x: Room, drawn: set<Key>)
    requires Kept(db, v, drawn) && r in v.rooms && x.owner == v.rooms[r].owner
    ensures var w := v.(rooms := v.rooms[r := x]); OwnersStay(v, w) && Kept(db, w, drawn)
  {
  }

  lemma TenantWritten(db: Db, v: Db, n: TenantId, x: Tenant, drawn: set<Key>)
    requires Kept(db, v, drawn) && n in v.tenants && x.owner == v.tenants[n].owner
    ensures var w := v.(tenants := v.tenants[n := x]); OwnersStay(v, w) && Kept(db, w, drawn)
  {
  }

  lemma AssignmentWritten(db: Db, v: Db, a: AssignmentId, x: Assignment, drawn: set<Key>)
    requires Kept(db, v, drawn)
    requires if a in v.assignments then x.owner == v.assignments[a].owner else a !in db.assignments && AssignmentRow(a) in drawn
    ensures var w := v.(assignments := v.assignments[a := x]); OwnersStay(v, w) && Kept(db, w, drawn)
  {
  }

  lemma BillWritten(db: Db, v: Db, b: BillId, x: Bill, drawn: set<Key>)
    requires Kept(db, v, drawn)
    requires if b in v.bills then x.owner == v.bills[b].owner else b !in db.bills && BillRow(b) in drawn
    ensures var w := v.(bills := v.bills[b := x]); OwnersStay(v, w) && Kept(db, w, drawn)
  {
  }

  lemma PaymentWritten(db: Db, v: Db, p: PaymentId, x: Payment, drawn: set<Key>)
    requires Kept(db, v, drawn) && p !in v.payments && p !in db.payments && PaymentRow(p) in drawn
    ensures var w := v.(payments := v.payments[p := x]); OwnersStay(v, w) && Kept(db, w, drawn)
  {
  }

  lemma CheckoutWritten(db: Db, v: Db, c: CheckoutId, x: Checkout, drawn: set<Key>)
    requires Kept(db, v, drawn) && c !in v.checkouts && c !in db.checkouts && CheckoutRow(c) in drawn
    ensures var w := v.(checkouts := v.checkouts[c := x]); OwnersStay(v, w) && Kept(db, w, drawn)
  {
  }

  lemma SubmissionWritten(db: Db, v: Db, s: SubmissionId, x: Submission, drawn: set<Key>)
    requires Kept(db, v, drawn) && s in v.submissions && x.owner == v.submissions[s].owner
    ensures var w := v.(submissions := v.submissions[s := x]); OwnersStay(v, w) && Kept(db, w, drawn)
  {
  }

  lemma StatusesWritten(db: Db, v: Db, ids: set<BillId>, status: BillStatus, drawn: set<Key>)
    requires Kept(db, v, drawn)
    ensures var w := v.(bills := WithStatus(v.bills, ids, status)); OwnersStay(v, w) && Kept(db, w, drawn)
  {
  }

  lemma SeesCommitted(db: Db, w: Db)
    ensures forall a :: a in db.assignments ==> a in View(db, w).assignments
    ensures forall b :: b in db.bills ==> b in View(db, w).bills
    ensures forall p :: p in db.payments ==> p in View(db, w).payments
    ensures forall c :: c in db.checkouts ==> c in View(db, w).checkouts
  {
  }

  // ----- one statement

  /** The statement is issued for owner o, and the ids it inserts are drawn by the request. */
  predicate Belongs(s: Stmt, db: Db, o: OwnerId, drawn: set<Key>) {
    match s
    case InsertAssignment(a, x) => x.owner == o && AssignmentRow(a) in drawn
    case InsertBill(b, y) => y.owner == o && BillRow(b) in drawn
    case InsertPayment(owner, p) => owner == o && PaymentRow(p) in drawn
    case InsertCheckout(owner, i, c) => owner == o && CheckoutRow(c) in drawn
    case InsertIfAbsent(owner, k, x) =>
      owner == o && BillRow(x.bill) in drawn && x.id in db.assignments && db.assignments[x.id].owner == o
    case _ => s.o == o
  }

  predicate IsRead(s: Stmt) {
    s.LockRoom? || s.LockTenant? || s.CountRoom? || s.CountTenant? || s.LockOnboarding? || s.LockClaim? || s.LockBill?
    || s.LockTenancy? || s.LockTenantBill? || s.FindCheckout?
  }

  lemma ReadOwns(s: Stmt, db: Db, t: Tx, u: Tx, o: OwnerId, drawn: set<Key>)
    requires IsRead(s) && Exec(s, db, t) == Ok(u) && Belongs(s, db, o, drawn)
    requires HoldsOwn(db, View(db, t.w), t.held, o, drawn)
    ensures HoldsOwn(db, View(db, u.w), u.held, o, drawn)
  {
    hide Exec, View, HoldsOwn, Mine;
    if s.LockRoom? || s.LockTenant? || s.CountRoom? || s.CountTenant? || s.LockOnboarding? {
      OnboardingReads(s, db, t, u);
    } else {
      OtherReads(s, db, t, u);
    }
    LocksOwn(s, db, t, u, o, drawn);
  }

  /** What a read leaves: the same writes, and at most locks on rows of its owner. */
  ghost predicate ReadOnly(s: Stmt, db: Db, t: Tx, u: Tx)
    requires IsRead(s)
  {
    u.w == t.w && forall k :: k in u.held ==> k in t.held || Mine(View(db, t.w), k, s.o)
  }

  lemma OnboardingReads(s: Stmt, db: Db, t: Tx, u: Tx)
    requires s.LockRoom? || s.LockTenant? || s.CountRoom? || s.CountTenant? || s.LockOnboarding?
    requires Exec(s, db, t) == Ok(u)
    ensures ReadOnly(s, db, t, u)
  {
    hide View, RoomCounted, TenantCounted, ExecPayment, ExecActivation, ExecCheckout;
  }

  lemma OtherReads(s: Stmt, db: Db, t: Tx, u: Tx)
    requires s.LockClaim? || s.LockBill? || s.LockTenancy? || s.LockTenantBill? || s.FindCheckout?
    requires Exec(s, db, t) == Ok(u)
    ensures ReadOnly(s, db, t, u)
  {
    hide View, LiveRows, ExecOnboarding, ExecCancel;
  }

  lemma LocksOwn(s: Stmt, db: Db, t: Tx, u: Tx, o: OwnerId, drawn: set<Key>)
    requires IsRead(s) && s.o == o && ReadOnly(s, db, t, u) && HoldsOwn(db, View(db, t.w), t.held, o, drawn)
    ensures HoldsOwn(db, View(db, u.w), u.held, o, drawn)
  {
    hide View, Mine, Kept;
  }

  lemma PutRoomOwns(db: Db, t: Tx, o: OwnerId, r: RoomId, status: RoomStatus, drawn: set<Key>)
    requires PutRoom(db, t, o, r, status).Ok? && HoldsOwn(db, View(db, t.w), t.held, o, drawn)
    ensures var u := PutRoom(db, t, o, r, status).value; HoldsOwn(db, View(db, u.w), u.held, o, drawn)
  {
    hide View, Kept, OwnersStay;
    var v := View(db, t.w);
    PutRoomView(db, t, o, r, status);
    RoomWritten(db, v, r, v.rooms[r].(status := status), drawn);
    StillOwn(db, v, v.(rooms := v.rooms[r := v.rooms[r].(status := status)]), t.held, {RoomRow(r)}, o, drawn);
  }

  lemma PutTenantOwns(db: Db, t: Tx, o: OwnerId, n: TenantId, status: TenantStatus, drawn: set<Key>)
    requires PutTenant(db, t, o, n, status).Ok? && HoldsOwn(db, View(db, t.w), t.held, o, drawn)
    ensures var u := PutTenant(db, t, o, n, status).value; HoldsOwn(db, View(db, u.w), u.held, o, drawn)
  {
    hide View, Kept, OwnersStay;
    var v := View(db, t.w);
    PutTenantView(db, t, o, n, status);
    TenantWritten(db, v, n, v.tenants[n].(status := status), drawn);
    StillOwn(db, v, v.(tenants := v.tenants[n := v.tenants[n].(status := status)]), t.held, {TenantRow(n)}, o, drawn);
  }

  lemma PutAssignmentOwns(db: Db, t: Tx, o: OwnerId, a: AssignmentId, status: AssignmentStatus, drawn: set<Key>)
    requires PutAssignment(db, t, o, a, status).Ok? && HoldsOwn(db, View(db, t.w), t.held, o, drawn)
    ensures var u := PutAssignment(db, t, o, a, status).value; HoldsOwn(db, View(db, u.w), u.held, o, drawn)
  {
    hide View, Kept, OwnersStay;
    var v := View(db, t.w);
    PutAssignmentView(db, t, o, a, status);
    AssignmentWritten(db, v, a, v.assignments[a].(status := status), drawn);
    StillOwn(db, v, v.(assignments := v.assignments[a := v.assignments[a].(status := status)]), t.held,
             {AssignmentRow(a)}, o, drawn);
  }

  predicate IsPut(s: Stmt) {
    s.SetRoom? || s.SetTenant? || s.CancelAssignment? || s.ReleaseRoom? || s.RevertTenant?
    || s.ActivateAssignment? || s.ActivateTenantRow? || s.OccupyRoom?
  }

  lemma PutOwns(s: Stmt, db: Db, t: Tx, u: Tx, o: OwnerId, drawn: set<Key>)
    requires IsPut(s) && Exec(s, db, t) == Ok(u) && s.o == o && HoldsOwn(db, View(db, t.w), t.held, o, drawn)
    ensures HoldsOwn(db, View(db, u.w), u.held, o, drawn)
  {
    hide View, HoldsOwn, PutRoom, PutTenant, PutAssignment, ExecPayment, ExecCheckout;
    if s.SetRoom? {
      PutRoomOwns(db, t, o, s.r, s.roomStatus, drawn);
    } else if s.SetTenant? {
      PutTenantOwns(db, t, o, s.t, s.tenantStatus, drawn);
    } else if s.CancelAssignment? {
      PutAssignmentOwns(db, t, o, s.a, CancelledAssignment, drawn);
    } else if s.ReleaseRoom? {
      PutRoomOwns(db, t, o, t.locals.assignment.value.room, Available, drawn);
    } else if s.RevertTenant? {
      PutTenantOwns(db, t, o, t.locals.assignment.value.tenant, AwaitingPayment, drawn);
    } else if t.locals.assignment.value.status == Pending {
      var y := t.locals.bill.value;
      if s.ActivateAssignment? {
        PutAssignmentOwns(db, t, o, y.assignment, Active, drawn);
      } else if s.ActivateTenantRow? {
        PutTenantOwns(db, t, o, y.tenant, ActiveTenant, drawn);
      } else {
        PutRoomOwns(db, t, o, y.room, Occupied, drawn);
      }
    }
  }

  lemma MarkOwns(s: Stmt, db: Db, t: Tx, u: Tx, o: OwnerId, drawn: set<Key>)
    requires (s.MarkPaid? || s.MarkApproved? || s.SetGatewayPending?) && Exec(s, db, t) == Ok(u) && s.o == o
    requires HoldsOwn(db, View(db, t.w), t.held, o, drawn)
    ensures HoldsOwn(db, View(db, u.w), u.held, o, drawn)
  {
    hide View, Kept, OwnersStay, ExecOnboarding, ExecCancel, ExecActivation;
    var v := View(db, t.w);
    if s.MarkPaid? {
      var m := t.locals.terms.value;
      BillMarked(db, t, m.bill, v.bills[m.bill].(status := Paid, paidAt := Some(m.paidAt)), o, drawn);
    } else if s.MarkApproved? {
      var x := v.submissions[s.s].(status := Approved, reviewedAt := Some(s.at));
      SubmissionView(db, t, s.s, x);
      SubmissionWritten(db, v, s.s, x, drawn);
      StillOwn(db, v, v.(submissions := v.submissions[s.s := x]), t.held, {SubmissionRow(s.s)}, o, drawn);
    } else if !t.locals.reuse {
      BillMarked(db, t, s.pay.bill, v.bills[s.pay.bill].(status := GatewayPending), o, drawn);
    }
  }

  lemma BillMarked(db: Db, t: Tx, b: BillId, x: Bill, o: OwnerId, drawn: set<Key>)
    requires HoldsOwn(db, View(db, t.w), t.held, o, drawn) && HasBill(View(db, t.w), b, o) && x.owner == o
    ensures HoldsOwn(db, View(db, t.w.(bills := t.w.bills[b := x])), t.held + {BillRow(b)}, o, drawn)
  {
    hide View, Kept, OwnersStay;
    var v := View(db, t.w);
    BillView(db, t, b, x);
    BillWritten(db, v, b, x, drawn);
    StillOwn(db, v, v.(bills := v.bills[b := x]), t.held, {BillRow(b)}, o, drawn);
  }

  lemma CancelBillsOwns(s: Stmt, db: Db, t: Tx, u: Tx, o: OwnerId, drawn: set<Key>)
    requires s.CancelBills? && Exec(s, db, t) == Ok(u) && s.o == o && HoldsOwn(db, View(db, t.w), t.held, o, drawn)
    ensures HoldsOwn(db, View(db, u.w), u.held, o, drawn)
  {
    hide View, Kept, OwnersStay, WithStatus, CollectibleBills;
    var v := View(db, t.w);
    var ids := CollectibleBills(v, s.a, o);
    CancelBillsView(db, t, o, s.a);
    StatusesWritten(db, v, ids, CancelledBill, drawn);
    CollectedOwn(v, s.a, o);
    StillOwn(db, v, v.(bills := WithStatus(v.bills, ids, CancelledBill)), t.held, set b | b in ids :: BillRow(b), o, drawn);
  }

  lemma CollectedOwn(v: Db, a: AssignmentId, o: OwnerId)
    ensures var ids := CollectibleBills(v, a, o);
            forall b :: b in ids ==> Mine(v.(bills := WithStatus(v.bills, ids, CancelledBill)), BillRow(b), o)
  {
  }

  lemma AssignmentInsertOwns(s: Stmt, db: Db, t: Tx, u: Tx, o: OwnerId, drawn: set<Key>)
    requires s.InsertAssignment? && Exec(s, db, t) == Ok(u) && Belongs(s, db, o, drawn) && Protected(s, db, t)
    requires HoldsOwn(db, View(db, t.w), t.held, o, drawn)
    ensures HoldsOwn(db, View(db, u.w), u.held, o, drawn)
  {
    hide View, Kept, OwnersStay, RoomIndexed, TenantIndexed, ExecCancel, ExecPayment, ExecActivation, ExecCheckout;
    var v := View(db, t.w);
    var w := v.(assignments := v.assignments[s.a := s.assignment]);
    SeesCommitted(db, t.w);
    InsertAssignmentView(db, t, s.a, s.assignment);
    AssignmentWritten(db, v, s.a, s.assignment, drawn);
    assert Mine(v, RoomRow(s.assignment.room), o) && Mine(v, TenantRow(s.assignment.tenant), o);
    StillOwn(db, v, w, t.held, {AssignmentRow(s.a), LiveRoomKey(s.assignment.room), LiveTenantKey(s.assignment.tenant)}, o, drawn);
  }

  /** A new bill of an assignment the owner has. */
  lemma NewBillOwns(db: Db, t: Tx, b: BillId, y: Bill, o: OwnerId, drawn: set<Key>)
    requires HoldsOwn(db, View(db, t.w), t.held, o, drawn) && b !in View(db, t.w).bills && BillRow(b) in drawn
    requires y.owner == o && Mine(View(db, t.w), AssignmentRow(y.assignment), o)
    ensures var u := AddBill(t, b, y); HoldsOwn(db, View(db, u.w), u.held, o, drawn)
  {
    hide View, Kept, OwnersStay;
    var v := View(db, t.w);
    SeesCommitted(db, t.w);
    AddBillView(db, t, b, y);
    BillWritten(db, v, b, y, drawn);
    StillOwn(db, v, v.(bills := v.bills[b := y]), t.held,
             {BillRow(b), NumberKey(y.owner, y.number), MonthKey(y.assignment, y.month)}, o, drawn);
  }

  lemma BillInsertOwns(s: Stmt, db: Db, t: Tx, u: Tx, o: OwnerId, drawn: set<Key>)
    requires s.InsertBill? && Exec(s, db, t) == Ok(u) && Belongs(s, db, o, drawn)
    requires AssignmentRow(s.bill.assignment) in t.held && HoldsOwn(db, View(db, t.w), t.held, o, drawn)
    ensures HoldsOwn(db, View(db, u.w), u.held, o, drawn)
  {
    hide View, Kept, OwnersStay, NumberIndexed, MonthIndexed, AddBill, ExecCancel, ExecPayment, ExecActivation, ExecCheckout;
    NewBillOwns(db, t, s.b, s.bill, o, drawn);
  }

  lemma IfAbsentOwns(s: Stmt, db: Db, t: Tx, u: Tx, o: OwnerId, drawn: set<Key>)
    requires s.InsertIfAbsent? && Exec(s, db, t) == Ok(u) && Belongs(s, db, o, drawn)
    requires HoldsOwn(db, View(db, t.w), t.held, o, drawn)
    ensures HoldsOwn(db, View(db, u.w), u.held, o, drawn)
  {
    hide View, OwnersStay, NumberIndexed, MonthIndexed, NumberOf, MonthlyBill, AddBill;
    hide ExecOnboarding, ExecCancel, ExecPayment, ExecActivation;
    if !MonthIndexed(View(db, t.w), s.x.id, s.month) {
      SeesCommitted(db, t.w);
      MonthlyBillKeys(s.o, s.month, s.x);
      NewBillOwns(db, t, s.x.bill, MonthlyBill(s.o, s.month, s.x), o, drawn);
    }
  }

  lemma PaymentInsertOwns(s: Stmt, db: Db, t: Tx, u: Tx, o: OwnerId, drawn: set<Key>)
    requires s.InsertPayment? && Exec(s, db, t) == Ok(u) && Belongs(s, db, o, drawn) && KeysPaired(t)
    requires HoldsOwn(db, View(db, t.w), t.held, o, drawn)
    ensures HoldsOwn(db, View(db, u.w), u.held, o, drawn)
  {
    hide View, Kept, OwnersStay, PaymentIndexed, ExecOnboarding, ExecCancel, ExecActivation, ExecCheckout;
    var v, m, y := View(db, t.w), t.locals.terms.value, t.locals.bill.value;
    var x := Payment(o, m.bill, y.tenant, y.room, m.amount, m.date, m.payMethod, m.reference, m.notes);
    SeesCommitted(db, t.w);
    PaymentView(db, t, s.p, x);
    PaymentWritten(db, v, s.p, x, drawn);
    assert Mine(v, BillRow(m.bill), o);
    StillOwn(db, v, v.(payments := v.payments[s.p := x]), t.held, {PaymentRow(s.p), PaidKey(m.bill)}, o, drawn);
  }

  lemma CheckoutInsertOwns(s: Stmt, db: Db, t: Tx, u: Tx, o: OwnerId, drawn: set<Key>)
    requires s.InsertCheckout? && Exec(s, db, t) == Ok(u) && Belongs(s, db, o, drawn)
    requires HoldsOwn(db, View(db, t.w), t.held, o, drawn)
    ensures HoldsOwn(db, View(db, u.w), u.held, o, drawn)
  {
    hide View, Kept, OwnersStay, Lifetime, ExecOnboarding, ExecCancel, ExecPayment, ExecActivation;
    if !t.locals.reuse {
      var v, x := View(db, t.w), NewCheckout(o, t.locals.bill.value, s.pay);
      SeesCommitted(db, t.w);
      CheckoutView(db, t, s.c, x);
      CheckoutWritten(db, v, s.c, x, drawn);
      StillOwn(db, v, v.(checkouts := v.checkouts[s.c := x]), t.held, {CheckoutRow(s.c)}, o, drawn);
    }
  }

  lemma ExecOwns(s: Stmt, db: Db, t: Tx, u: Tx, o: OwnerId, drawn: set<Key>)
    requires Exec(s, db, t) == Ok(u) && Belongs(s, db, o, drawn) && Protected(s, db, t) && KeysPaired(t)
    requires s.InsertBill? ==> AssignmentRow(s.bill.assignment) in t.held
    requires HoldsOwn(db, View(db, t.w), t.held, o, drawn)
    ensures HoldsOwn(db, View(db, u.w), u.held, o, drawn)
  {
    hide Exec, View, HoldsOwn, Protected, KeysPaired;
    if IsRead(s) { ReadOwns(s, db, t, u, o, drawn); }
    else if IsPut(s) { PutOwns(s, db, t, u, o, drawn); }
    else if s.MarkPaid? || s.MarkApproved? || s.SetGatewayPending? { MarkOwns(s, db, t, u, o, drawn); }
    else if s.CancelBills? { CancelBillsOwns(s, db, t, u, o, drawn); }
    else if s.InsertAssignment? { AssignmentInsertOwns(s, db, t, u, o, drawn); }
    else if s.InsertBill? { BillInsertOwns(s, db, t, u, o, drawn); }
    else if s.InsertIfAbsent? { IfAbsentOwns(s, db, t, u, o, drawn); }
    else if s.InsertPayment? { PaymentInsertOwns(s, db, t, u, o, drawn); }
    else { CheckoutInsertOwns(s, db, t, u, o, drawn); }
  }

  // ----- a whole request

  lemma ProgramBelongs(op: Op, n: nat, db: Db)
    requires Opens(op) && Enabled(db, op) && n < |Program(op)|
    ensures Belongs(Program(op)[n], db, op.owner, Draws(op))
    ensures Program(op)[n].InsertBill? ==> op.AssignOp? && n == 5 && Program(op)[n].bill.assignment == op.a
  {
    hide RentBill;
    match op
    case AssignOp(o, i, a, b) => NewAssignmentParties(o, i, a);
    case GenerateOp(o, k, list) => assert Program(op)[n] == InsertIfAbsent(o, k, list[n]) && list[n] in list;
    case _ =>
  }

  lemma AssignmentHeld(op: Op, db: Db)
    requires op.AssignOp? && Opens(op) && Run(op, 5, db).Ok?
    ensures AssignmentRow(op.a) in Run(op, 5, db).value.held
  {
    hide Run, FirstBill, NewAssignment, RoomIndexed, TenantIndexed, View;
    StillHeld(op, 4, 5, db);
  }

  /** All that a request holds belongs to its owner. */
  lemma {:induction false} RunOwns(op: Op, n: nat, db: Db)
    requires Opens(op) && Enabled(db, op) && n <= |Program(op)| && Run(op, n, db).Ok?
    ensures var t := Run(op, n, db).value; HoldsOwn(db, View(db, t.w), t.held, op.owner, Draws(op))
  {
    hide Exec, Program, Protected, Enabled, HoldsOwn, Belongs, KeysPaired, View, Draws;
    if n == 0 {
      BeginOwns(op, db);
    } else {
      RunStep(op, n - 1, db);
      RunOwns(op, n - 1, db);
      RunPairs(op, n - 1, db);
      ProgramProtected(op, n - 1, db);
      ProgramBelongs(op, n - 1, db);
      hide Run;
      if Program(op)[n - 1].InsertBill? { AssignmentHeld(op, db); }
      ExecOwns(Program(op)[n - 1], db, Run(op, n - 1, db).value, Run(op, n, db).value, op.owner, Draws(op));
    }
  }

  lemma BeginOwns(op: Op, db: Db)
    requires Opens(op)
    ensures Run(op, 0, db).Ok?
    ensures var t := Run(op, 0, db).value; HoldsOwn(db, View(db, t.w), t.held, op.owner, Draws(op))
  {
    hide View, Draws;
    ViewNothing(db);
  }

  // ----- two requests

  /** Nothing belongs to two owners, unless both drew the same id. */
  lemma NothingShared(db: Db, v: Db, w: Db, held: set<Key>, held': set<Key>, o: OwnerId, o': OwnerId, drawn: set<Key>, drawn': set<Key>)
    requires HoldsOwn(db, v, held, o, drawn) && HoldsOwn(db, w, held', o', drawn') && o != o' && drawn !! drawn'
    ensures held !! held'
  {
    hide HoldsOwn;
    forall k | k in held && k in held' ensures false {
      NotBoth(db, v, w, held, held', o, o', drawn, drawn', k);
    }
  }

  lemma NotBoth(db: Db, v: Db, w: Db, held: set<Key>, held': set<Key>, o: OwnerId, o': OwnerId,
                drawn: set<Key>, drawn': set<Key>, k: Key)
    requires HoldsOwn(db, v, held, o, drawn) && HoldsOwn(db, w, held', o', drawn') && o != o' && drawn !! drawn'
    requires k in held
    ensures k !in held'
  {
    assert Mine(v, k, o);
  }

  /** In every interleaving, requests of different owners that drew different ids never wait for each other:
      a request's next statement takes no lock and no index entry that a request of another owner holds. */
  lemma OwnersNeverWait(ls: seq<Label>, x: TxId, y: TxId)
    requires Schedule(ls) && x in After(ls).inFlight && y in After(ls).inFlight
    requires var q := After(ls).inFlight[x]; Opens(q.op) && q.pc < |Program(q.op)|
    requires After(ls).inFlight[x].op.owner != After(ls).inFlight[y].op.owner
    requires Draws(After(ls).inFlight[x].op) !! Draws(After(ls).inFlight[y].op)
    ensures var g := After(ls);
            var q := g.inFlight[x];
            var next := Exec(Program(q.op)[q.pc], g.db, q.tx);
            next.Ok? ==> next.value.held !! g.inFlight[y].tx.held
  {
    hide Schedule, After, CommitOrder, Enabled, Program, Exec, Run, HoldsOwn, View, Draws;
    Serializable(ls);
    var g := After(ls);
    var q, p := g.inFlight[x], g.inFlight[y];
    RunStep(q.op, q.pc, g.db);
    var next := Exec(Program(q.op)[q.pc], g.db, q.tx);
    if next.Ok? {
      RunOwns(q.op, q.pc + 1, g.db);
      RunOwns(p.op, p.pc, g.db);
      NothingShared(g.db, View(g.db, next.value.w), View(g.db, p.tx.w), next.value.held, p.tx.held,
                    q.op.owner, p.op.owner, Draws(q.op), Draws(p.op));
    }
  }
}
