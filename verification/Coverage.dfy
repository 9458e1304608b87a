/** A transaction writes only what it has locked, and it relies only on what its locks protect. */
module Coverage {
  import opened Types
  import opened Operations
  import opened Runs
  import opened Statements
  import opened Refinement
  import opened Stability

  // ----- locks are kept until the end

  lemma HeldGrows(s: Stmt, db: Db, t: Tx, u: Tx)
    requires Exec(s, db, t) == Ok(u)
    ensures t.held <= u.held
  {
    hide View, FirstBill, NewCheckout, MonthlyBill, RoomCounted, TenantCounted, RoomIndexed, TenantIndexed;
    hide NumberIndexed, MonthIndexed;
    hide LiveCheckouts, CollectibleBills, PaymentIndexed, HasRoom, HasTenant, HasBill, HasAssignment, HasSubmission;
  }

  lemma {:induction false} RunBack(op: Op, m: nat, n: nat, db: Db)
    requires Opens(op) && m <= n <= |Program(op)| && Run(op, n, db).Ok?
    ensures Run(op, m, db).Ok? && Run(op, m, db).value.held <= Run(op, n, db).value.held
    decreases n - m
  {
    hide Exec, Program;
    if m < n {
      RunBack(op, m + 1, n, db);
      RunStep(op, m, db);
      HeldGrows(Program(op)[m], db, Run(op, m, db).value, Run(op, m + 1, db).value);
    }
  }

  /** The keys the m-th statement took are still held n statements in. */
  lemma StillHeld(op: Op, m: nat, n: nat, db: Db)
    requires Opens(op) && m < n <= |Program(op)| && Run(op, n, db).Ok?
    ensures Run(op, m, db).Ok? && Run(op, m + 1, db).Ok?
    ensures Exec(Program(op)[m], db, Run(op, m, db).value) == Ok(Run(op, m + 1, db).value)
    ensures Run(op, m + 1, db).value.held <= Run(op, n, db).value.held
  {
    hide Exec, Program;
    RunBack(op, m, n, db);
    RunBack(op, m + 1, n, db);
    RunStep(op, m, db);
  }

  // ----- every statement of every program is protected where it stands

  lemma AssignLocks(op: Op, n: nat, db: Db)
    requires op.AssignOp? && Opens(op) && n < 8 && Run(op, n, db).Ok?
    ensures 0 < n ==> RoomRow(op.assign.room) in Run(op, n, db).value.held
    ensures 1 < n ==> TenantRow(op.assign.tenant) in Run(op, n, db).value.held
  {
    hide Run, FirstBill, NewAssignment, View;
    if 0 < n { StillHeld(op, 0, n, db); }
    if 1 < n { StillHeld(op, 1, n, db); }
  }

  lemma AssignInserts(op: Op, n: nat, db: Db)
    requires op.AssignOp? && Opens(op) && 4 < n < 8 && Run(op, n, db).Ok?
    ensures op.a !in db.assignments
  {
    hide Run, FirstBill, NewAssignment, RoomIndexed, TenantIndexed;
    StillHeld(op, 4, n, db);
  }

  lemma AssignProtected(op: Op, n: nat, db: Db)
    requires op.AssignOp? && Opens(op) && n < 8 && Run(op, n, db).Ok?
    ensures Protected(Program(op)[n], db, Run(op, n, db).value)
  {
    hide Run, FirstBill, NewAssignment;
    NewAssignmentParties(op.owner, op.assign, op.a);
    AssignLocks(op, n, db);
    if 4 < n { AssignInserts(op, n, db); }
  }

  lemma CancelLocks(op: Op, n: nat, db: Db)
    requires op.CancelOp? && 0 < n < 5 && Run(op, n, db).Ok?
    ensures op.a in db.assignments && db.assignments[op.a].status == Pending
    ensures AssignmentRow(op.a) in Run(op, n, db).value.held
  {
    hide View;
    assert Run(op, 0, db) == Ok(Begin(op));
    hide Run;
    StillHeld(op, 0, n, db);
    ViewNothing(db);
  }

  lemma CancelProtected(op: Op, n: nat, db: Db)
    requires op.CancelOp? && n < 5 && Run(op, n, db).Ok?
    ensures Protected(Program(op)[n], db, Run(op, n, db).value)
  {
    hide Run, View;
    if 0 < n { CancelLocks(op, n, db); }
  }

  lemma PayBillProtected(op: Op, n: nat, db: Db)
    requires op.PayBillOp? && Opens(op) && n < |Program(op)| && Run(op, n, db).Ok?
    ensures Protected(Program(op)[n], db, Run(op, n, db).value)
  {
    hide Run, View;
    if 0 < n { StillHeld(op, 0, n, db); }
  }

  lemma BeginsAlone(op: Op, db: Db)
    requires Opens(op)
    ensures Run(op, 0, db) == Ok(Begin(op))
  {
  }

  lemma ProgramProtected(op: Op, n: nat, db: Db)
    requires Opens(op) && Enabled(db, op) && n < |Program(op)| && Run(op, n, db).Ok?
    ensures Protected(Program(op)[n], db, Run(op, n, db).value)
  {
    hide Run, FirstBill, NewAssignment;
    match op
    case AssignOp(o, i, a, b) => AssignProtected(op, n, db);
    case CancelOp(o, a) => CancelProtected(op, n, db);
    case PayBillOp(o, i, c) => PayBillProtected(op, n, db);
    case GenerateOp(o, k, list) => assert Program(op)[n] == InsertIfAbsent(o, k, list[n]) && list[n] in list;
    case ApproveOp(o, s, now, p) => if n == 0 { BeginsAlone(op, db); }
    case _ =>
  }

  lemma EnabledStays(db: Db, d: Db, op: Op)
    requires Opens(op) && Enabled(db, op) && Advances(db, d)
    ensures Enabled(d, op)
  {
  }

  /** What a transaction has done so far would come out the same on the changed tables. */
  lemma {:induction false} RunStable(op: Op, n: nat, db: Db, d: Db, held: set<Key>)
    requires Opens(op) && Enabled(db, op) && n <= |Program(op)| && Run(op, n, db).Ok?
    requires Undisturbed(db, d, Run(op, n, db).value, held)
    ensures Run(op, n, d) == Run(op, n, db)
  {
    hide Exec, Program, Protected, Enabled, RowsRespected, AbsencesRespected, Advances;
    if n > 0 {
      StillHeld(op, n - 1, n, db);
      var t, u := Run(op, n - 1, db).value, Run(op, n, db).value;
      HeldGrows(Program(op)[n - 1], db, t, u);
      RunStable(op, n - 1, db, d, held);
      ProgramProtected(op, n - 1, db);
      ExecStable(Program(op)[n - 1], db, d, t, u, held);
    }
  }

  // ----- writes are covered by locks

  /** Every row image belongs to a locked row. */
  ghost predicate RowsCovered(t: Tx) {
    && (forall r :: r in t.w.rooms ==> RoomRow(r) in t.held)
    && (forall n :: n in t.w.tenants ==> TenantRow(n) in t.held)
    && (forall a :: a in t.w.assignments ==> AssignmentRow(a) in t.held)
    && (forall b :: b in t.w.bills ==> BillRow(b) in t.held)
    && (forall p :: p in t.w.payments ==> PaymentRow(p) in t.held)
    && (forall c :: c in t.w.checkouts ==> CheckoutRow(c) in t.held)
    && (forall s :: s in t.w.submissions ==> SubmissionRow(s) in t.held)
  }

  /** Every new row comes with the locks that keep others from relying on its absence. */
  ghost predicate NewCovered(db: Db, t: Tx) {
    && (forall a :: a in t.w.assignments && a !in db.assignments ==>
          RoomRow(t.w.assignments[a].room) in t.held && TenantRow(t.w.assignments[a].tenant) in t.held)
    && (forall b :: b in t.w.bills && b !in db.bills ==>
          && NumberKey(t.w.bills[b].owner, t.w.bills[b].number) in t.held
          && MonthKey(t.w.bills[b].assignment, t.w.bills[b].month) in t.held
          && (t.w.bills[b].assignment in db.assignments ==> db.assignments[t.w.bills[b].assignment].status != Pending))
    && (forall p :: p in t.w.payments && p !in db.payments ==> PaidKey(t.w.payments[p].bill) in t.held)
    && (forall c :: c in t.w.checkouts && c !in db.checkouts ==> BillRow(t.w.checkouts[c].bill) in t.held)
  }

  lemma OnboardingCovers(s: Stmt, db: Db, t: Tx, u: Tx)
    requires IsOnboarding(s) && Exec(s, db, t) == Ok(u) && Protected(s, db, t)
    requires RowsCovered(t) && NewCovered(db, t)
    ensures RowsCovered(u) && NewCovered(db, u)
  {
    hide Exec, Protected, RowsCovered, NewCovered;
    if s.SetRoom? || s.SetTenant? { OnboardingPutsCover(s, db, t, u); }
    else if s.InsertAssignment? || s.InsertBill? { OnboardingInsertsCover(s, db, t, u); }
    else { OnboardingReadsCover(s, db, t, u); }
  }

  lemma OnboardingReadsCover(s: Stmt, db: Db, t: Tx, u: Tx)
    requires (s.LockRoom? || s.LockTenant? || s.CountRoom? || s.CountTenant?) && Exec(s, db, t) == Ok(u)
    requires RowsCovered(t) && NewCovered(db, t)
    ensures RowsCovered(u) && NewCovered(db, u)
  {
    hide View, RoomCounted, TenantCounted, RowsCovered, NewCovered;
    LocksCover(db, t, u);
  }

  lemma OnboardingPutsCover(s: Stmt, db: Db, t: Tx, u: Tx)
    requires (s.SetRoom? || s.SetTenant?) && Exec(s, db, t) == Ok(u)
    requires RowsCovered(t) && NewCovered(db, t)
    ensures RowsCovered(u) && NewCovered(db, u)
  {
    hide View, PutRoom, PutTenant, RowsCovered, NewCovered;
    if s.SetRoom? { PutRoomCovers(db, t, s.o, s.r, s.roomStatus); } else { PutTenantCovers(db, t, s.o, s.t, s.tenantStatus); }
  }

  lemma OnboardingInsertsCover(s: Stmt, db: Db, t: Tx, u: Tx)
    requires (s.InsertAssignment? || s.InsertBill?) && Exec(s, db, t) == Ok(u) && Protected(s, db, t)
    requires RowsCovered(t) && NewCovered(db, t)
    ensures RowsCovered(u) && NewCovered(db, u)
  {
    hide View, RoomIndexed, TenantIndexed, NumberIndexed, MonthIndexed, ExecCancel, ExecPayment, ExecActivation, ExecCheckout;
  }

  /** A statement that writes nothing and only adds locks. */
  lemma LocksCover(db: Db, t: Tx, u: Tx)
    requires RowsCovered(t) && NewCovered(db, t) && u.w == t.w && t.held <= u.held
    ensures RowsCovered(u) && NewCovered(db, u)
  {
  }

  lemma PutRoomCovers(db: Db, t: Tx, o: OwnerId, r: RoomId, status: RoomStatus)
    requires PutRoom(db, t, o, r, status).Ok? && RowsCovered(t) && NewCovered(db, t)
    ensures RowsCovered(PutRoom(db, t, o, r, status).value) && NewCovered(db, PutRoom(db, t, o, r, status).value)
  {
    hide View;
  }

  lemma PutTenantCovers(db: Db, t: Tx, o: OwnerId, n: TenantId, status: TenantStatus)
    requires PutTenant(db, t, o, n, status).Ok? && RowsCovered(t) && NewCovered(db, t)
    ensures RowsCovered(PutTenant(db, t, o, n, status).value) && NewCovered(db, PutTenant(db, t, o, n, status).value)
  {
    hide View;
  }

  lemma PutAssignmentCovers(db: Db, t: Tx, o: OwnerId, a: AssignmentId, status: AssignmentStatus)
    requires PutAssignment(db, t, o, a, status).Ok? && RowsCovered(t) && NewCovered(db, t)
    ensures RowsCovered(PutAssignment(db, t, o, a, status).value) && NewCovered(db, PutAssignment(db, t, o, a, status).value)
  {
  }

  lemma LockOnboardingCovers(s: Stmt, db: Db, t: Tx, u: Tx)
    requires s.LockOnboarding? && Exec(s, db, t) == Ok(u)
    requires RowsCovered(t) && NewCovered(db, t)
    ensures RowsCovered(u) && NewCovered(db, u)
  {
    hide View;
  }

  lemma CancelPutsCover(s: Stmt, db: Db, t: Tx, u: Tx)
    requires (s.CancelAssignment? || s.ReleaseRoom? || s.RevertTenant?) && Exec(s, db, t) == Ok(u)
    requires RowsCovered(t) && NewCovered(db, t)
    ensures RowsCovered(u) && NewCovered(db, u)
  {
    hide View, PutRoom, PutTenant, PutAssignment, RowsCovered, NewCovered;
    match s
    case CancelAssignment(o, a) => PutAssignmentCovers(db, t, o, a, CancelledAssignment);
    case ReleaseRoom(o) => PutRoomCovers(db, t, o, t.locals.assignment.value.room, Available);
    case RevertTenant(o) => PutTenantCovers(db, t, o, t.locals.assignment.value.tenant, AwaitingPayment);
  }

  lemma CancelBillsRows(s: Stmt, db: Db, t: Tx, u: Tx)
    requires s.CancelBills? && Exec(s, db, t) == Ok(u) && RowsCovered(t)
    ensures RowsCovered(u)
  {
    hide CollectibleBills;
  }

  lemma CancelBillsNew(s: Stmt, db: Db, t: Tx, u: Tx)
    requires s.CancelBills? && Exec(s, db, t) == Ok(u) && NewCovered(db, t)
    ensures NewCovered(db, u)
  {
    hide ExecOnboarding, ExecPayment, ExecActivation, ExecCheckout;
  }

  lemma InsertPaymentCovers(s: Stmt, db: Db, t: Tx, u: Tx)
    requires s.InsertPayment? && Exec(s, db, t) == Ok(u)
    requires RowsCovered(t) && NewCovered(db, t)
    ensures RowsCovered(u) && NewCovered(db, u)
  {
    hide PaymentIndexed, View;
  }

  lemma PaymentLocksCover(s: Stmt, db: Db, t: Tx, u: Tx)
    requires (s.LockClaim? || s.LockBill?) && Exec(s, db, t) == Ok(u)
    requires RowsCovered(t) && NewCovered(db, t)
    ensures RowsCovered(u) && NewCovered(db, u)
  {
    hide View, RowsCovered, NewCovered;
    LocksCover(db, t, u);
  }

  lemma MarkApprovedCovers(s: Stmt, db: Db, t: Tx, u: Tx)
    requires s.MarkApproved? && Exec(s, db, t) == Ok(u)
    requires RowsCovered(t) && NewCovered(db, t)
    ensures RowsCovered(u) && NewCovered(db, u)
  {
    hide View;
  }

  /** Rewriting the status of a bill the transaction sees. */
  lemma BillPutCovers(db: Db, t: Tx, b: BillId, status: BillStatus, paidAt: Option<Instant>, u: Tx)
    requires b in View(db, t.w).bills
    requires u.w == t.w.(bills := t.w.bills[b := View(db, t.w).bills[b].(status := status, paidAt := paidAt)])
    requires u.held == t.held + {BillRow(b)} && RowsCovered(t) && NewCovered(db, t)
    ensures RowsCovered(u) && NewCovered(db, u)
  {
    hide View, RowsCovered, NewCovered;
    BillPutRows(t, b, u);
    BillPutNew(db, t, b, u);
  }

  lemma BillPutRows(t: Tx, b: BillId, u: Tx)
    requires b in u.w.bills && u.w == t.w.(bills := t.w.bills[b := u.w.bills[b]])
    requires u.held == t.held + {BillRow(b)} && RowsCovered(t)
    ensures RowsCovered(u)
  {
  }

  lemma BillPutNew(db: Db, t: Tx, b: BillId, u: Tx)
    requires b in u.w.bills && u.w == t.w.(bills := t.w.bills[b := u.w.bills[b]])
    requires && b in View(db, t.w).bills
             && var x, y := View(db, t.w).bills[b], u.w.bills[b];
                y == x.(status := y.status, paidAt := y.paidAt)
    requires u.held == t.held + {BillRow(b)} && NewCovered(db, t)
    ensures NewCovered(db, u)
  {
  }

  lemma BillMarksCover(s: Stmt, db: Db, t: Tx, u: Tx)
    requires (s.MarkPaid? || s.SetGatewayPending?) && Exec(s, db, t) == Ok(u)
    requires RowsCovered(t) && NewCovered(db, t)
    ensures RowsCovered(u) && NewCovered(db, u)
  {
    hide View, RowsCovered, NewCovered;
    if s.MarkPaid? {
      var m := t.locals.terms.value;
      BillPutCovers(db, t, m.bill, Paid, Some(m.paidAt), u);
    } else if !t.locals.reuse {
      BillPutCovers(db, t, s.pay.bill, GatewayPending, View(db, t.w).bills[s.pay.bill].paidAt, u);
    }
  }

  lemma LockTenancyCovers(s: Stmt, db: Db, t: Tx, u: Tx)
    requires s.LockTenancy? && Exec(s, db, t) == Ok(u)
    requires RowsCovered(t) && NewCovered(db, t)
    ensures RowsCovered(u) && NewCovered(db, u)
  {
    hide View;
  }

  lemma ActivationCovers(s: Stmt, db: Db, t: Tx, u: Tx)
    requires (s.ActivateAssignment? || s.ActivateTenantRow? || s.OccupyRoom?) && Exec(s, db, t) == Ok(u)
    requires RowsCovered(t) && NewCovered(db, t)
    ensures RowsCovered(u) && NewCovered(db, u)
  {
    hide View, PutRoom, PutTenant, PutAssignment, RowsCovered, NewCovered;
    if t.locals.assignment.value.status == Pending {
      var y := t.locals.bill.value;
      match s
      case ActivateAssignment(o) => PutAssignmentCovers(db, t, o, y.assignment, Active);
      case ActivateTenantRow(o) => PutTenantCovers(db, t, o, y.tenant, ActiveTenant);
      case OccupyRoom(o) => PutRoomCovers(db, t, o, y.room, Occupied);
    }
  }

  lemma CheckoutLocksCover(s: Stmt, db: Db, t: Tx, u: Tx)
    requires (s.LockTenantBill? || s.FindCheckout?) && Exec(s, db, t) == Ok(u)
    requires RowsCovered(t) && NewCovered(db, t)
    ensures RowsCovered(u) && NewCovered(db, u)
  {
    hide LiveCheckouts, LiveRows, View, RowsCovered, NewCovered, ExecOnboarding, ExecCancel, ExecPayment, ExecActivation;
    LocksCover(db, t, u);
  }

  lemma InsertCheckoutCovers(s: Stmt, db: Db, t: Tx, u: Tx)
    requires s.InsertCheckout? && Exec(s, db, t) == Ok(u) && Protected(s, db, t)
    requires RowsCovered(t) && NewCovered(db, t)
    ensures RowsCovered(u) && NewCovered(db, u)
  {
    hide View, Lifetime;
  }

  lemma GenerateCovers(s: Stmt, db: Db, t: Tx, u: Tx)
    requires s.InsertIfAbsent? && Exec(s, db, t) == Ok(u) && Protected(s, db, t)
    requires RowsCovered(t) && NewCovered(db, t)
    ensures RowsCovered(u) && NewCovered(db, u)
  {
    hide View, NumberOf, MonthlyBill, NumberIndexed, MonthIndexed, RowsCovered, NewCovered;
    MonthlyBillKeys(s.o, s.month, s.x);
    if MonthIndexed(View(db, t.w), s.x.id, s.month) {
      LocksCover(db, t, u);
    } else {
      NewBillCovers(db, t, s.x.bill, MonthlyBill(s.o, s.month, s.x), u);
    }
  }

  lemma NewBillCovers(db: Db, t: Tx, b: BillId, y: Bill, u: Tx)
    requires RowsCovered(t) && NewCovered(db, t)
    requires u.w == t.w.(bills := t.w.bills[b := y])
    requires u.held == t.held + {BillRow(b), NumberKey(y.owner, y.number), MonthKey(y.assignment, y.month)}
    requires y.assignment in db.assignments ==> db.assignments[y.assignment].status != Pending
    ensures RowsCovered(u) && NewCovered(db, u)
  {
  }

  lemma ExecCovers(s: Stmt, db: Db, t: Tx, u: Tx)
    requires Exec(s, db, t) == Ok(u) && Protected(s, db, t)
    requires RowsCovered(t) && NewCovered(db, t)
    ensures RowsCovered(u) && NewCovered(db, u)
  {
    hide Exec, Protected, RowsCovered, NewCovered;
    if IsOnboarding(s) { OnboardingCovers(s, db, t, u); }
    else if s.CancelBills? { CancelBillsRows(s, db, t, u); CancelBillsNew(s, db, t, u); }
    else if s.LockOnboarding? { LockOnboardingCovers(s, db, t, u); }
    else if IsCancel(s) { CancelPutsCover(s, db, t, u); }
    else if s.InsertPayment? { InsertPaymentCovers(s, db, t, u); }
    else if s.LockClaim? || s.LockBill? { PaymentLocksCover(s, db, t, u); }
    else if s.MarkApproved? { MarkApprovedCovers(s, db, t, u); }
    else if s.MarkPaid? || s.SetGatewayPending? { BillMarksCover(s, db, t, u); }
    else if s.LockTenancy? { LockTenancyCovers(s, db, t, u); }
    else if IsActivation(s) { ActivationCovers(s, db, t, u); }
    else if s.LockTenantBill? || s.FindCheckout? { CheckoutLocksCover(s, db, t, u); }
    else if s.InsertCheckout? { InsertCheckoutCovers(s, db, t, u); }
    else { GenerateCovers(s, db, t, u); }
  }

  lemma {:induction false} RunCovers(op: Op, n: nat, db: Db)
    requires Opens(op) && Enabled(db, op) && n <= |Program(op)| && Run(op, n, db).Ok?
    ensures RowsCovered(Run(op, n, db).value) && NewCovered(db, Run(op, n, db).value)
  {
    hide Exec, Program, Protected, Enabled;
    if n > 0 {
      StillHeld(op, n - 1, n, db);
      RunCovers(op, n - 1, db);
      ProgramProtected(op, n - 1, db);
      hide RowsCovered, NewCovered;
      ExecCovers(Program(op)[n - 1], db, Run(op, n - 1, db).value, Run(op, n, db).value);
    }
  }

  /** Publishing covered writes disturbs nobody who holds other keys. */
  lemma PublishRespects(db: Db, t: Tx, held: set<Key>)
    requires RowsCovered(t) && NewCovered(db, t) && t.held !! held
    ensures RowsRespected(db, View(db, t.w), held) && AbsencesRespected(db, View(db, t.w), held)
  {
    PublishRespectsRows(db, t, held);
    PublishRespectsAbsences(db, t, held);
  }

  lemma PublishRespectsRows(db: Db, t: Tx, held: set<Key>)
    requires RowsCovered(t) && t.held !! held
    ensures RowsRespected(db, View(db, t.w), held)
  {
  }

  lemma PublishRespectsAbsences(db: Db, t: Tx, held: set<Key>)
    requires NewCovered(db, t) && t.held !! held
    ensures AbsencesRespected(db, View(db, t.w), held)
  {
  }

  // ----- index keys come with row locks

  /** Whoever holds an entry of a payment or live-assignment index holds the row that guards it. */
  ghost predicate KeysPaired(t: Tx) {
    && (t.locals.terms.Some? && t.locals.bill.Some? ==> BillRow(t.locals.terms.value.bill) in t.held)
    && (forall b :: PaidKey(b) in t.held ==> BillRow(b) in t.held)
    && (forall r :: LiveRoomKey(r) in t.held ==> RoomRow(r) in t.held)
    && (forall n :: LiveTenantKey(n) in t.held ==> TenantRow(n) in t.held)
  }

  lemma ExecPairs(s: Stmt, db: Db, t: Tx, u: Tx)
    requires Exec(s, db, t) == Ok(u) && Protected(s, db, t) && KeysPaired(t)
    requires s.LockTenantBill? ==> t.locals.terms.None?
    ensures KeysPaired(u)
  {
    hide Exec, KeysPaired, Protected;
    if IsOnboarding(s) || IsCancel(s) {
      TenancyPairs(s, db, t, u);
    } else if IsPayment(s) {
      PaymentPairs(s, db, t, u);
    } else {
      OtherPairs(s, db, t, u);
    }
  }

  lemma TenancyPairs(s: Stmt, db: Db, t: Tx, u: Tx)
    requires (IsOnboarding(s) || IsCancel(s)) && Exec(s, db, t) == Ok(u) && Protected(s, db, t) && KeysPaired(t)
    ensures KeysPaired(u)
  {
    hide View, RoomCounted, TenantCounted, RoomIndexed, TenantIndexed, NumberIndexed, MonthIndexed;
    hide CollectibleBills, HasRoom, HasTenant, HasBill, HasAssignment, HasSubmission;
    hide ExecPayment, ExecActivation, ExecCheckout;
  }

  lemma PaymentPairs(s: Stmt, db: Db, t: Tx, u: Tx)
    requires IsPayment(s) && Exec(s, db, t) == Ok(u) && Protected(s, db, t) && KeysPaired(t)
    ensures KeysPaired(u)
  {
    hide View, PaymentIndexed, HasBill, HasSubmission, ExecOnboarding, ExecCancel, ExecActivation, ExecCheckout;
  }

  lemma OtherPairs(s: Stmt, db: Db, t: Tx, u: Tx)
    requires !IsOnboarding(s) && !IsCancel(s) && !IsPayment(s) && Exec(s, db, t) == Ok(u) && KeysPaired(t)
    requires s.LockTenantBill? ==> t.locals.terms.None?
    ensures KeysPaired(u)
  {
    hide View, NewCheckout, MonthlyBill, NumberIndexed, MonthIndexed, LiveCheckouts, HasRoom, HasTenant, HasBill;
    hide HasAssignment;
    hide ExecOnboarding, ExecCancel, ExecPayment;
  }

  lemma TermsComeFrom(op: Op, n: nat, db: Db)
    requires op.PayBillOp? && Opens(op) && n < 4 && Run(op, n, db).Ok? && Program(op)[n].LockTenantBill?
    ensures Run(op, n, db).value.locals.terms.None?
  {
    hide Exec;
    BeginsAlone(op, db);
  }

  lemma OnlyPayBillLocksTenantBills(op: Op, n: nat)
    requires Opens(op) && n < |Program(op)| && Program(op)[n].LockTenantBill?
    ensures op.PayBillOp?
  {
    hide FirstBill, NewAssignment;
  }

  lemma {:induction false} RunPairs(op: Op, n: nat, db: Db)
    requires Opens(op) && Enabled(db, op) && n <= |Program(op)| && Run(op, n, db).Ok?
    ensures KeysPaired(Run(op, n, db).value)
  {
    hide Exec, Program, Protected, Enabled, KeysPaired;
    if n == 0 {
      BeginPairs(op, db);
    } else {
      StillHeld(op, n - 1, n, db);
      RunPairs(op, n - 1, db);
      ProgramProtected(op, n - 1, db);
      if Program(op)[n - 1].LockTenantBill? {
        OnlyPayBillLocksTenantBills(op, n - 1);
        PayBillLength(op);
        TermsComeFrom(op, n - 1, db);
      }
      ExecPairs(Program(op)[n - 1], db, Run(op, n - 1, db).value, Run(op, n, db).value);
    }
  }

  lemma BeginPairs(op: Op, db: Db)
    requires Opens(op)
    ensures Run(op, 0, db).Ok? && KeysPaired(Run(op, 0, db).value)
  {
  }

  lemma PayBillLength(op: Op)
    requires op.PayBillOp? && Opens(op)
    ensures |Program(op)| == 4
  {
  }
}
