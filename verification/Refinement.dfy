/** Run alone, the statements of a transaction do what its operation says, errors included. */
module Refinement {
  import opened Types
  import opened Operations
  import opened Statements
  import opened Generation

  lemma RunStep(op: Op, n: nat, db: Db)
    requires Opens(op) && n < |Program(op)|
    ensures Run(op, n + 1, db) ==
            match Run(op, n, db) case Err(e) => Err(e) case Ok(t) => Exec(Program(op)[n], db, t)
  {
    hide Exec, Program, Begin;
  }

  lemma MergeNothing<T>(m: map<nat, T>)
    ensures m + map[] == m
  {
  }

  lemma ViewNothing(db: Db)
    ensures View(db, EMPTY) == db
  {
    MergeNothing(db.rooms); MergeNothing(db.tenants); MergeNothing(db.assignments); MergeNothing(db.bills);
    MergeNothing(db.payments); MergeNothing(db.checkouts); MergeNothing(db.submissions);
  }

  lemma MergePut<T>(m: map<nat, T>, n: map<nat, T>, k: nat, x: T)
    ensures m + n[k := x] == (m + n)[k := x]
  {
  }

  // ----- each statement through the view

  lemma PutRoomView(db: Db, t: Tx, o: OwnerId, r: RoomId, status: RoomStatus)
    ensures var v := View(db, t.w);
            match PutRoom(db, t, o, r, status)
            case Err(e) => e == NotFound && !HasRoom(v, r, o)
            case Ok(u) => HasRoom(v, r, o) && u.locals == t.locals
                          && View(db, u.w) == v.(rooms := v.rooms[r := v.rooms[r].(status := status)])
  {
    var v := View(db, t.w);
    if HasRoom(v, r, o) {
      var x := v.rooms[r].(status := status);
      MergePut(db.rooms, t.w.rooms, r, x);
    }
  }

  lemma PutTenantView(db: Db, t: Tx, o: OwnerId, n: TenantId, status: TenantStatus)
    ensures var v := View(db, t.w);
            match PutTenant(db, t, o, n, status)
            case Err(e) => e == NotFound && !HasTenant(v, n, o)
            case Ok(u) => HasTenant(v, n, o) && u.locals == t.locals
                          && View(db, u.w) == v.(tenants := v.tenants[n := v.tenants[n].(status := status)])
  {
    var v := View(db, t.w);
    if HasTenant(v, n, o) {
      var x := v.tenants[n].(status := status);
      MergePut(db.tenants, t.w.tenants, n, x);
    }
  }

  lemma PutAssignmentView(db: Db, t: Tx, o: OwnerId, a: AssignmentId, status: AssignmentStatus)
    ensures var v := View(db, t.w);
            match PutAssignment(db, t, o, a, status)
            case Err(e) => e == NotFound && !HasAssignment(v, a, o)
            case Ok(u) => HasAssignment(v, a, o) && u.locals == t.locals
                          && View(db, u.w) == v.(assignments := v.assignments[a := v.assignments[a].(status := status)])
  {
    var v := View(db, t.w);
    if HasAssignment(v, a, o) {
      var x := v.assignments[a].(status := status);
      MergePut(db.assignments, t.w.assignments, a, x);
    }
  }

  lemma AddBillView(db: Db, t: Tx, b: BillId, y: Bill)
    ensures View(db, AddBill(t, b, y).w) == View(db, t.w).(bills := View(db, t.w).bills[b := y])
    ensures AddBill(t, b, y).locals == t.locals
  {
    MergePut(db.bills, t.w.bills, b, y);
  }

  /** The four reads and checks of AssignRoom write nothing. */
  lemma AssignChecks(op: Op, db: Db)
    requires op.AssignOp? && Opens(op)
    ensures var i, o := op.assign, op.owner;
            match Run(op, 4, db)
            case Err(e) => Perform(db, op) == Err(e)
            case Ok(t) =>
              && t.w == EMPTY && HasRoom(db, i.room, o) && db.rooms[i.room].status == Available && HasTenant(db, i.tenant, o)
              && !RoomCounted(db, i.room, o) && !TenantCounted(db, i.tenant, o)
  {
    hide View, FirstBill, RoomCounted, TenantCounted, NewAssignment;
    ViewNothing(db);
    RunStep(op, 0, db);
    RunStep(op, 1, db);
    RunStep(op, 2, db);
    RunStep(op, 3, db);
  }

  lemma AssignProgram(op: Op)
    requires op.AssignOp? && Opens(op)
    ensures var o, i := op.owner, op.assign;
            && |Program(op)| == 8
            && Program(op)[4] == InsertAssignment(op.a, NewAssignment(o, i)) && Program(op)[5] == InsertBill(op.b, FirstBill(o, i, op.a))
            && Program(op)[6] == SetRoom(o, i.room, Reserved) && Program(op)[7] == SetTenant(o, i.tenant, AwaitingPayment)
  {
    hide NewAssignment, FirstBill;
  }

  /** The tables after an onboarding has inserted its two rows. */
  function Assigned(db: Db, op: Op): Db
    requires op.AssignOp? && Opens(op)
  {
    db.(assignments := db.assignments[op.a := NewAssignment(op.owner, op.assign)],
        bills := db.bills[op.b := FirstBill(op.owner, op.assign, op.a)])
  }

  lemma AssignInsertsView(op: Op, db: Db)
    requires op.AssignOp? && Opens(op)
    ensures var i, o := op.assign, op.owner;
            var r := Run(op, 6, db);
            && (r.Err? ==> Perform(db, op) == Err(r.error))
            && (r.Ok? ==>
                  && View(db, r.value.w) == Assigned(db, op) && HasRoom(db, i.room, o) && HasTenant(db, i.tenant, o)
                  && Perform(db, op) == Ok(Assigned(db, op).(
                                             rooms := db.rooms[i.room := db.rooms[i.room].(status := Reserved)],
                                             tenants := db.tenants[i.tenant := db.tenants[i.tenant].(status := AwaitingPayment)])))
  {
    hide View, FirstBill, NewAssignment, RoomCounted, TenantCounted, NumberIndexed, MonthIndexed, RoomIndexed;
    hide TenantIndexed, AddBill, ExecCancel, ExecPayment, ExecActivation, ExecCheckout, Program;
    AssignProgram(op);
    ViewNothing(db);
    AssignChecks(op, db);
    NewAssignmentParties(op.owner, op.assign, op.a);
    RunStep(op, 4, db); RunStep(op, 5, db);
    hide Run;
    if Run(op, 4, db).Ok? && Run(op, 5, db).Ok? {
      var t4, t5 := Run(op, 4, db).value, Run(op, 5, db).value;
      var x, y := NewAssignment(op.owner, op.assign), FirstBill(op.owner, op.assign, op.a);
      InsertAssignmentView(db, t4, op.a, x);
      BillIndexes(db, View(db, t5.w), y);
      if Run(op, 6, db).Ok? { AddBillView(db, t5, op.b, y); }
    }
  }

  lemma RefineAssign(op: Op, db: Db)
    requires op.AssignOp? && Opens(op)
    ensures RunAlone(op, db) == Perform(db, op)
  {
    hide View, FirstBill, NewAssignment, PutRoom, PutTenant, ExecCancel, ExecPayment, ExecActivation, ExecCheckout;
    hide Program, AssignRoom;
    var i, o := op.assign, op.owner;
    AssignProgram(op);
    AssignInsertsView(op, db);
    RunStep(op, 6, db); RunStep(op, 7, db);
    hide Run;
    if Run(op, 6, db).Ok? {
      PutRoomView(db, Run(op, 6, db).value, o, i.room, Reserved);
      if Run(op, 7, db).Ok? {
        PutTenantView(db, Run(op, 7, db).value, o, i.tenant, AwaitingPayment);
      }
    }
  }

  lemma NewAssignmentParties(o: OwnerId, i: AssignInput, a: AssignmentId)
    requires i.start.Some?
    ensures NewAssignment(o, i).room == i.room && NewAssignment(o, i).tenant == i.tenant
    ensures FirstBill(o, i, a).owner == o && FirstBill(o, i, a).assignment == a
  {
  }

  lemma InsertAssignmentView(db: Db, t: Tx, a: AssignmentId, x: Assignment)
    ensures View(db, t.w.(assignments := t.w.assignments[a := x]))
            == View(db, t.w).(assignments := View(db, t.w).assignments[a := x])
  {
    MergePut(db.assignments, t.w.assignments, a, x);
  }

  lemma BillIndexes(db: Db, v: Db, y: Bill)
    requires v.bills == db.bills
    ensures NumberIndexed(v, y.owner, y.number) == NumberIndexed(db, y.owner, y.number)
    ensures MonthIndexed(v, y.assignment, y.month) == MonthIndexed(db, y.assignment, y.month)
  {
  }

  lemma CollectsOwn(db: Db, a: AssignmentId, o: OwnerId)
    ensures CollectibleBills(db, a, o) <= db.bills.Keys
  {
  }

  lemma StatusByMerge(m: map<BillId, Bill>, n: map<BillId, Bill>, ids: set<BillId>, s: BillStatus)
    requires ids <= (m + n).Keys
    ensures m + (n + map b | b in ids :: (m + n)[b].(status := s)) == WithStatus(m + n, ids, s)
  {
  }

  lemma CancelBillsView(db: Db, t: Tx, o: OwnerId, a: AssignmentId)
    requires IsCancel(CancelBills(o, a))
    ensures var v := View(db, t.w);
            match ExecCancel(CancelBills(o, a), db, t)
            case Err(_) => false
            case Ok(u) => u.locals == t.locals
                          && View(db, u.w) == v.(bills := WithStatus(v.bills, CollectibleBills(v, a, o), CancelledBill))
  {
    hide CollectibleBills;
    var v := View(db, t.w);
    var ids := CollectibleBills(v, a, o);
    assert ids <= v.bills.Keys by { CollectsOwn(v, a, o); }
    StatusByMerge(db.bills, t.w.bills, ids, CancelledBill);
  }

  /** The tables after an onboarding cancellation has dealt with the assignment and its bills. */
  function CancelledFront(db: Db, o: OwnerId, a: AssignmentId): Db
    requires a in db.assignments
  {
    db.(assignments := db.assignments[a := db.assignments[a].(status := CancelledAssignment)],
        bills := WithStatus(db.bills, CollectibleBills(db, a, o), CancelledBill))
  }

  lemma CancelFront(op: Op, db: Db)
    requires op.CancelOp?
    ensures Run(op, 3, db).Err? ==> Perform(db, op) == Err(Run(op, 3, db).error)
    ensures Run(op, 3, db).Ok? ==>
              var o, a, t := op.owner, op.a, Run(op, 3, db).value;
              && HasAssignment(db, a, o) && db.assignments[a].status == Pending
              && t.locals.assignment == Some(db.assignments[a])
              && View(db, t.w) == CancelledFront(db, o, a)
  {
    hide View, PutAssignment, WithStatus, CollectibleBills, ExecOnboarding, ExecPayment, ExecActivation, ExecCheckout;
    ViewNothing(db);
    RunStep(op, 0, db); RunStep(op, 1, db); RunStep(op, 2, db);
    var o, a := op.owner, op.a;
    if Run(op, 1, db).Ok? {
      PutAssignmentView(db, Run(op, 1, db).value, o, a, CancelledAssignment);
      if Run(op, 2, db).Ok? {
        CancelBillsView(db, Run(op, 2, db).value, o, a);
        CollectsSame(db, View(db, Run(op, 2, db).value.w), a, o);
      }
    }
  }

  /** The two releases that end a cancellation, for the tenancy it locked. */
  lemma ReleasesExec(db: Db, t: Tx, o: OwnerId, x: Assignment)
    requires t.locals.assignment == Some(x)
    ensures Exec(ReleaseRoom(o), db, t) == PutRoom(db, t, o, x.room, Available)
    ensures Exec(RevertTenant(o), db, t) == PutTenant(db, t, o, x.tenant, AwaitingPayment)
  {
    hide View, PutRoom, PutTenant, ExecOnboarding, ExecPayment, ExecActivation, ExecCheckout;
  }

  lemma RefineCancel(op: Op, db: Db)
    requires op.CancelOp?
    ensures RunAlone(op, db) == Perform(db, op)
  {
    hide View, PutRoom, PutTenant, WithStatus, CollectibleBills, Exec;
    CancelFront(op, db);
    RunStep(op, 3, db); RunStep(op, 4, db);
    hide Run;
    if Run(op, 3, db).Ok? {
      var t, x := Run(op, 3, db).value, db.assignments[op.a];
      ReleasesExec(db, t, op.owner, x);
      PutRoomView(db, t, op.owner, x.room, Available);
      if Run(op, 4, db).Ok? {
        ReleasesExec(db, Run(op, 4, db).value, op.owner, x);
        PutTenantView(db, Run(op, 4, db).value, op.owner, x.tenant, AwaitingPayment);
      }
    }
  }

  lemma CollectsSame(db: Db, v: Db, a: AssignmentId, o: OwnerId)
    requires v.bills == db.bills
    ensures CollectibleBills(v, a, o) == CollectibleBills(db, a, o)
  {
  }

  // ----- payments

  /** The bill part of Settle: checks, payment row, paid mark. */
  function Charged(db: Db, o: OwnerId, m: Terms, p: PaymentId): Result<Db> {
    if !HasBill(db, m.bill, o) then Err(NotFound)
    else
      var y := db.bills[m.bill];
      if y.status == Paid then Err(BillAlreadyPaid)
      else if y.status == CancelledBill then Err(BillNotPayable)
      else if m.amount != y.amount then Err(PaymentAmountMismatch)
      else if p in db.payments || PaymentIndexed(db, m.bill) then Err(DuplicatePayment)
      else Ok(db.(
        payments := db.payments[p := Payment(o, m.bill, y.tenant, y.room, m.amount, m.date, m.payMethod, m.reference, m.notes)],
        bills := db.bills[m.bill := y.(status := Paid, paidAt := Some(m.paidAt))]))
  }

  /** The bill lock and its checks, on the committed tables. */
  lemma LockBillExec(db: Db, t: Tx, o: OwnerId, m: Terms)
    requires t.w == EMPTY && t.locals.terms == Some(m)
    ensures var r, b := Exec(LockBill(o), db, t), m.bill;
            if !HasBill(db, b, o) then r == Err(NotFound)
            else if db.bills[b].status == Paid then r == Err(BillAlreadyPaid)
            else if db.bills[b].status == CancelledBill then r == Err(BillNotPayable)
            else if m.amount != db.bills[b].amount then r == Err(PaymentAmountMismatch)
            else r.Ok? && r.value.w == EMPTY && r.value.locals.terms == Some(m) && r.value.locals.bill == Some(db.bills[b])
  {
    hide View, ExecOnboarding, ExecCancel, ExecActivation, ExecCheckout;
    ViewNothing(db);
  }

  /** The lock and the insert of a charge. */
  lemma ChargeFront(op: Op, n: nat, db: Db, o: OwnerId, m: Terms, p: PaymentId)
    requires Opens(op) && n + 2 <= |Program(op)|
    requires Program(op)[n] == LockBill(o) && Program(op)[n + 1] == InsertPayment(o, p)
    requires Run(op, n, db).Ok? && Run(op, n, db).value.w == EMPTY && Run(op, n, db).value.locals.terms == Some(m)
    ensures var r := Run(op, n + 2, db);
            && (r.Err? ==> Charged(db, o, m, p) == Err(r.error))
            && (r.Ok? ==>
                  && Charged(db, o, m, p).Ok? && r.value.locals.terms == Some(m)
                  && HasBill(db, m.bill, o) && r.value.locals.bill == Some(db.bills[m.bill])
                  && View(db, r.value.w) == db.(payments := Charged(db, o, m, p).value.payments))
  {
    hide View, Program, Exec, PaymentIndexed;
    RunStep(op, n, db); RunStep(op, n + 1, db);
    LockBillExec(db, Run(op, n, db).value, o, m);
    hide Run;
    if Run(op, n + 1, db).Ok? { InsertPaymentExec(db, Run(op, n + 1, db).value, o, m, db.bills[m.bill], p); }
  }

  lemma InsertPaymentExec(db: Db, t: Tx, o: OwnerId, m: Terms, y: Bill, p: PaymentId)
    requires t.w == EMPTY && t.locals.terms == Some(m) && t.locals.bill == Some(y)
    ensures var r, x := Exec(InsertPayment(o, p), db, t),
                        Payment(o, m.bill, y.tenant, y.room, m.amount, m.date, m.payMethod, m.reference, m.notes);
            if p in db.payments || PaymentIndexed(db, m.bill) then r == Err(DuplicatePayment)
            else
              && r.Ok? && r.value.locals.terms == Some(m) && r.value.locals.bill == Some(y)
              && View(db, r.value.w) == db.(payments := db.payments[p := x])
  {
    hide View, PaymentIndexed, ExecOnboarding, ExecCancel, ExecActivation, ExecCheckout;
    ViewNothing(db);
    PaymentView(db, t, p, Payment(o, m.bill, y.tenant, y.room, m.amount, m.date, m.payMethod, m.reference, m.notes));
  }

  /** Three statements from position n on charge the bill named by the terms. */
  lemma ChargeView(op: Op, n: nat, db: Db, o: OwnerId, m: Terms, p: PaymentId)
    requires Opens(op) && n + 3 <= |Program(op)|
    requires Program(op)[n] == LockBill(o) && Program(op)[n + 1] == InsertPayment(o, p) && Program(op)[n + 2] == MarkPaid(o)
    requires Run(op, n, db).Ok? && Run(op, n, db).value.w == EMPTY && Run(op, n, db).value.locals.terms == Some(m)
    ensures var r := Run(op, n + 3, db);
            && (r.Err? ==> Charged(db, o, m, p) == Err(r.error))
            && (r.Ok? ==>
                  && Charged(db, o, m, p) == Ok(View(db, r.value.w))
                  && HasBill(db, m.bill, o) && r.value.locals.bill == Some(db.bills[m.bill]))
  {
    hide View, Program, Charged, Exec;
    ChargeFront(op, n, db, o, m, p);
    RunStep(op, n + 2, db);
    hide Run;
    if Run(op, n + 2, db).Ok? {
      MarkPaidExec(db, Run(op, n + 2, db).value, o, m);
      ChargedParts(db, o, m, p);
    }
  }

  lemma MarkPaidExec(db: Db, t: Tx, o: OwnerId, m: Terms)
    requires t.locals.terms == Some(m) && HasBill(View(db, t.w), m.bill, o)
    ensures var v, r := View(db, t.w), Exec(MarkPaid(o), db, t);
            && r.Ok? && r.value.locals == t.locals
            && View(db, r.value.w) == v.(bills := v.bills[m.bill := v.bills[m.bill].(status := Paid, paidAt := Some(m.paidAt))])
  {
    hide View;
    BillView(db, t, m.bill, View(db, t.w).bills[m.bill].(status := Paid, paidAt := Some(m.paidAt)));
  }

  lemma ChargedParts(db: Db, o: OwnerId, m: Terms, p: PaymentId)
    requires Charged(db, o, m, p).Ok?
    ensures var d := Charged(db, o, m, p).value;
            && HasBill(db, m.bill, o)
            && d == db.(payments := d.payments,
                        bills := db.bills[m.bill := db.bills[m.bill].(status := Paid, paidAt := Some(m.paidAt))])
  {
  }

  lemma PaymentView(db: Db, t: Tx, p: PaymentId, y: Payment)
    ensures View(db, t.w.(payments := t.w.payments[p := y])) == View(db, t.w).(payments := View(db, t.w).payments[p := y])
  {
    MergePut(db.payments, t.w.payments, p, y);
  }

  lemma BillView(db: Db, t: Tx, b: BillId, x: Bill)
    ensures View(db, t.w.(bills := t.w.bills[b := x])) == View(db, t.w).(bills := View(db, t.w).bills[b := x])
  {
    MergePut(db.bills, t.w.bills, b, x);
  }

  /** The activation part of Settle, for the bill y that was locked, on tables v. */
  function Activating(v: Db, o: OwnerId, y: Bill): Result<Db> {
    if !HasAssignment(v, y.assignment, o) then Err(NotFound)
    else
      var x := v.assignments[y.assignment];
      if x.status != Pending then Ok(v)
      else if !HasTenant(v, y.tenant, o) then Err(NotFound)
      else if !HasRoom(v, y.room, o) then Err(NotFound)
      else Ok(v.(assignments := v.assignments[y.assignment := x.(status := Active)],
                 tenants := v.tenants[y.tenant := v.tenants[y.tenant].(status := ActiveTenant)],
                 rooms := v.rooms[y.room := v.rooms[y.room].(status := Occupied)]))
  }

  lemma ActivationFront(op: Op, n: nat, db: Db, o: OwnerId, y: Bill)
    requires Opens(op) && n + 2 <= |Program(op)|
    requires Program(op)[n] == LockTenancy(o) && Program(op)[n + 1] == ActivateAssignment(o)
    requires Run(op, n, db).Ok? && Run(op, n, db).value.locals.bill == Some(y)
    ensures var r, v := Run(op, n + 2, db), View(db, Run(op, n, db).value.w);
            && (r.Err? ==> r.error == NotFound && !HasAssignment(v, y.assignment, o))
            && (r.Ok? ==>
                  && HasAssignment(v, y.assignment, o) && r.value.locals.bill == Some(y)
                  && r.value.locals.assignment == Some(v.assignments[y.assignment])
                  && View(db, r.value.w) ==
                     if v.assignments[y.assignment].status != Pending then v
                     else v.(assignments := v.assignments[y.assignment := v.assignments[y.assignment].(status := Active)]))
  {
    hide View, Program, PutAssignment;
    RunStep(op, n, db); RunStep(op, n + 1, db);
    hide Run;
    if Run(op, n + 1, db).Ok? {
      PutAssignmentView(db, Run(op, n + 1, db).value, o, y.assignment, Active);
    }
  }

  lemma ActivationView(op: Op, n: nat, db: Db, o: OwnerId, y: Bill)
    requires Opens(op) && n + 4 <= |Program(op)|
    requires Program(op)[n] == LockTenancy(o) && Program(op)[n + 1] == ActivateAssignment(o)
    requires Program(op)[n + 2] == ActivateTenantRow(o) && Program(op)[n + 3] == OccupyRoom(o)
    requires Run(op, n, db).Ok? && Run(op, n, db).value.locals.bill == Some(y)
    ensures var r, v := Run(op, n + 4, db), View(db, Run(op, n, db).value.w);
            && (r.Err? ==> Activating(v, o, y) == Err(r.error))
            && (r.Ok? ==> Activating(v, o, y) == Ok(View(db, r.value.w)))
  {
    hide View, Program, Exec;
    ActivationFront(op, n, db, o, y);
    RunStep(op, n + 2, db); RunStep(op, n + 3, db);
    hide Run;
    if Run(op, n + 2, db).Ok? {
      OccupantsExec(db, Run(op, n + 2, db).value, o, y);
    }
  }

  /** The last two statements of an activation. */
  lemma OccupantsExec(db: Db, t: Tx, o: OwnerId, y: Bill)
    requires t.locals.bill == Some(y) && t.locals.assignment.Some?
    ensures var v := View(db, t.w);
            var r := Exec(ActivateTenantRow(o), db, t);
            var q := if r.Err? then r else Exec(OccupyRoom(o), db, r.value);
            if t.locals.assignment.value.status != Pending then q == Ok(t)
            else if !HasTenant(v, y.tenant, o) || !HasRoom(v, y.room, o) then q == Err(NotFound)
            else q.Ok? && View(db, q.value.w) ==
                   v.(tenants := v.tenants[y.tenant := v.tenants[y.tenant].(status := ActiveTenant)],
                      rooms := v.rooms[y.room := v.rooms[y.room].(status := Occupied)])
  {
    hide View, PutRoom, PutTenant;
    if t.locals.assignment.value.status == Pending {
      PutTenantView(db, t, o, y.tenant, ActiveTenant);
      if PutTenant(db, t, o, y.tenant, ActiveTenant).Ok? {
        PutRoomView(db, PutTenant(db, t, o, y.tenant, ActiveTenant).value, o, y.room, Occupied);
      }
    }
  }

  /** Settle is charging and then activating. */
  lemma SettleIsBoth(db: Db, o: OwnerId, m: Terms, p: PaymentId)
    ensures Settle(db, o, m.bill, m.amount, m.date, m.payMethod, m.reference, m.notes, m.paidAt, p)
            == if Charged(db, o, m, p).Err? then Charged(db, o, m, p)
               else Activating(Charged(db, o, m, p).value, o, db.bills[m.bill])
  {
    hide PaymentIndexed;
  }

  lemma RefineRecord(op: Op, db: Db)
    requires op.RecordOp? && Opens(op)
    ensures RunAlone(op, db) == Perform(db, op)
  {
    hide View, Charged, Activating, Settle, Exec;
    var o, m, p := op.owner, Begin(op).locals.terms.value, op.p;
    assert Run(op, 0, db) == Ok(Begin(op));
    hide Run;
    ChargeView(op, 0, db, o, m, p);
    SettleIsBoth(db, o, m, p);
    if Run(op, 3, db).Ok? {
      ActivationView(op, 3, db, o, db.bills[m.bill]);
    } else {
      ErrStays(op, 3, 7, db);
    }
  }

  lemma {:induction false} ErrStays(op: Op, m: nat, n: nat, db: Db)
    requires Opens(op) && m <= n <= |Program(op)| && Run(op, m, db).Err?
    ensures Run(op, n, db) == Run(op, m, db)
  {
    hide Exec, Program;
    if m < n {
      ErrStays(op, m, n - 1, db);
    }
  }

  lemma ClaimView(op: Op, db: Db)
    requires op.ApproveOp?
    ensures var r, o, s := Run(op, 1, db), op.owner, op.s;
            && (r.Err? ==> Perform(db, op) == Err(r.error))
            && (r.Ok? ==>
                  && HasSubmission(db, s, o) && db.submissions[s].status == PendingReview && r.value.w == EMPTY
                  && var x := db.submissions[s];
                     r.value.locals.terms == Some(Terms(x.bill, x.amount, x.transferDate, x.payMethod, x.reference, None, op.now)))
  {
    hide View;
    ViewNothing(db);
    RunStep(op, 0, db);
  }

  /** Marking the claim neither reads nor writes what activation reads and writes. */
  lemma ApprovedAside(v: Db, o: OwnerId, y: Bill, s: SubmissionId, x: Submission)
    ensures var w := v.(submissions := v.submissions[s := x]);
            && (Activating(v, o, y).Err? <==> Activating(w, o, y).Err?)
            && (Activating(v, o, y).Err? ==> Activating(w, o, y) == Activating(v, o, y))
            && (Activating(v, o, y).Ok? ==>
                  && Activating(v, o, y).value.submissions == v.submissions
                  && Activating(w, o, y).value == Activating(v, o, y).value.(submissions := v.submissions[s := x]))
  {
  }

  lemma MarkApprovedView(op: Op, db: Db)
    requires op.ApproveOp? && Run(op, 4, db).Ok?
    requires HasSubmission(View(db, Run(op, 4, db).value.w), op.s, op.owner)
    ensures var r, t, s := Run(op, 5, db), Run(op, 4, db).value, op.s;
            && r.Ok? && r.value.locals == t.locals
            && var v := View(db, t.w);
               View(db, r.value.w)
               == v.(submissions := v.submissions[s := v.submissions[s].(status := Approved, reviewedAt := Some(op.now))])
  {
    hide View;
    RunStep(op, 4, db);
    hide Run;
    var t, s := Run(op, 4, db).value, op.s;
    SubmissionView(db, t, s, View(db, t.w).submissions[s].(status := Approved, reviewedAt := Some(op.now)));
  }

  lemma SubmissionView(db: Db, t: Tx, s: SubmissionId, x: Submission)
    ensures View(db, t.w.(submissions := t.w.submissions[s := x]))
            == View(db, t.w).(submissions := View(db, t.w).submissions[s := x])
  {
    MergePut(db.submissions, t.w.submissions, s, x);
  }

  lemma ChargedAside(db: Db, o: OwnerId, m: Terms, p: PaymentId)
    requires Charged(db, o, m, p).Ok?
    ensures Charged(db, o, m, p).value.submissions == db.submissions
  {
  }

  lemma ApproveProgram(op: Op)
    requires op.ApproveOp?
    ensures Opens(op) && |Program(op)| == 9
    ensures var o := op.owner;
            && Program(op)[1] == LockBill(o) && Program(op)[2] == InsertPayment(o, op.p) && Program(op)[3] == MarkPaid(o)
            && Program(op)[5] == LockTenancy(o) && Program(op)[6] == ActivateAssignment(o)
            && Program(op)[7] == ActivateTenantRow(o) && Program(op)[8] == OccupyRoom(o)
  {
  }

  lemma RefineApprove(op: Op, db: Db)
    requires op.ApproveOp?
    ensures RunAlone(op, db) == Perform(db, op)
  {
    hide View, Charged, Activating, Settle, Exec, Run, Program;
    var o, s, p := op.owner, op.s, op.p;
    ApproveProgram(op);
    ClaimView(op, db);
    if Run(op, 1, db).Err? {
      ErrStays(op, 1, 9, db);
    } else {
      var x := db.submissions[s];
      var m := Terms(x.bill, x.amount, x.transferDate, x.payMethod, x.reference, None, op.now);
      ChargeView(op, 1, db, o, m, p);
      SettleIsBoth(db, o, m, p);
      if Run(op, 4, db).Err? {
        ErrStays(op, 4, 9, db);
      } else {
        ChargedAside(db, o, m, p);
        MarkApprovedView(op, db);
        ApprovedAside(Charged(db, o, m, p).value, o, db.bills[m.bill], s, x.(status := Approved, reviewedAt := Some(op.now)));
        ActivationView(op, 5, db, o, db.bills[m.bill]);
      }
    }
  }

  lemma PayBillFront(op: Op, db: Db)
    requires op.PayBillOp? && Opens(op)
    ensures var r, o, i := Run(op, 2, db), op.owner, op.pay;
            && (r.Err? ==> Perform(db, op) == Err(r.error))
            && (r.Ok? ==>
                  && HasBill(db, i.bill, o) && db.bills[i.bill].tenant == i.tenant && IsCollectible(db.bills[i.bill].status)
                  && r.value.w == EMPTY && r.value.locals.bill == Some(db.bills[i.bill])
                  && r.value.locals.reuse ==
                     (db.bills[i.bill].status == GatewayPending && LiveCheckouts(db, i.bill, o, i.lookupAt) != {})
                  && (r.value.locals.reuse ==>
                        && r.value.locals.reply.checkout.Some?
                        && NewestLive(db, o, i.bill, i.lookupAt, r.value.locals.reply.checkout.value)))
  {
    hide View, NewCheckout, LiveCheckouts, LiveRows, NewestLive, Run, ExecOnboarding, ExecCancel, ExecPayment, ExecActivation;
    ViewNothing(db);
    BeginsEmpty(op, db);
    RunStep(op, 0, db); RunStep(op, 1, db);
    NewestIsLive(db, op.owner, op.pay.bill, op.pay.lookupAt);
  }

  lemma BeginsEmpty(op: Op, db: Db)
    requires op.PayBillOp? && Opens(op)
    ensures Run(op, 0, db) == Ok(Begin(op))
  {
  }

  /** The insert and the status change of a checkout. */
  lemma CheckoutExec(db: Db, t: Tx, o: OwnerId, i: PayInput, c: CheckoutId)
    requires HasBill(db, i.bill, o) && t.w == EMPTY && t.locals.bill == Some(db.bills[i.bill]) && !t.locals.reuse
    ensures var y := db.bills[i.bill];
            var r := Exec(InsertCheckout(o, i, c), db, t);
            var q := if r.Err? then r else Exec(SetGatewayPending(o, i), db, r.value);
            if y.amount <= 0 then q == Err(CheckoutRejected)
            else if c in db.checkouts then q == Err(DuplicateGatewayTransaction)
            else
              && q.Ok? && q.value.locals.reply.checkout == Some(c)
              && View(db, q.value.w) == db.(checkouts := db.checkouts[c := NewCheckout(o, y, i)],
                                            bills := db.bills[i.bill := y.(status := GatewayPending)])
  {
    hide View, NewCheckout, ExecOnboarding, ExecCancel, ExecPayment, ExecActivation;
    ViewNothing(db);
    var y := db.bills[i.bill];
    CheckoutView(db, t, c, NewCheckout(o, y, i));
    var r := Exec(InsertCheckout(o, i, c), db, t);
    if r.Ok? {
      BillView(db, r.value, i.bill, y.(status := GatewayPending));
    }
  }

  lemma RefinePayBill(op: Op, db: Db)
    requires op.PayBillOp? && Opens(op)
    ensures RunAlone(op, db) == Perform(db, op)
  {
    hide View, NewCheckout, LiveCheckouts, Exec;
    PayBillFront(op, db);
    RunStep(op, 2, db); RunStep(op, 3, db);
    hide Run;
    if Run(op, 2, db).Ok? {
      ViewNothing(db);
      var t := Run(op, 2, db).value;
      if t.locals.reuse {
        ReuseExec(db, t, op.owner, op.pay, op.c);
      } else {
        CheckoutExec(db, t, op.owner, op.pay, op.c);
      }
    }
  }

  /** What PayBill has to hand out when it is about to commit. */
  lemma PayBillReply(op: Op, db: Db)
    requires op.PayBillOp? && Opens(op) && Run(op, 4, db).Ok?
    ensures var o, i, reply := op.owner, op.pay, Run(op, 4, db).value.locals.reply;
            && reply.checkout.Some?
            && if Perform(db, op) == Ok(db) then NewestLive(db, o, i.bill, i.lookupAt, reply.checkout.value)
               else reply.checkout.value == op.c
  {
    hide View, NewCheckout, LiveCheckouts, Exec, NewestLive;
    PayBillFront(op, db);
    RunStep(op, 2, db); RunStep(op, 3, db);
    hide Run;
    ViewNothing(db);
    var t := Run(op, 2, db).value;
    if t.locals.reuse {
      ReuseExec(db, t, op.owner, op.pay, op.c);
    } else {
      CheckoutExec(db, t, op.owner, op.pay, op.c);
    }
  }

  lemma ReuseExec(db: Db, t: Tx, o: OwnerId, i: PayInput, c: CheckoutId)
    requires t.locals.bill.Some? && t.locals.reuse
    ensures Exec(InsertCheckout(o, i, c), db, t) == Ok(t) && Exec(SetGatewayPending(o, i), db, t) == Ok(t)
  {
  }

  lemma CheckoutView(db: Db, t: Tx, c: CheckoutId, x: Checkout)
    ensures View(db, t.w.(checkouts := t.w.checkouts[c := x])) == View(db, t.w).(checkouts := View(db, t.w).checkouts[c := x])
  {
    MergePut(db.checkouts, t.w.checkouts, c, x);
  }

  // ----- monthly billing

  lemma WithNewIsView(db: Db, o: OwnerId, k: Month, new': set<Listed>)
    requires !Clashes(db, o, k, new')
    ensures View(db, EMPTY.(bills := NewBills(o, k, new'))) == WithNew(db, o, k, new')
  {
    hide Clashes, NewBills;
    MergeNothing(db.rooms); MergeNothing(db.tenants); MergeNothing(db.assignments);
    MergeNothing(db.payments); MergeNothing(db.checkouts); MergeNothing(db.submissions);
  }

  /** The loop after n iterations: the listed prefix's missing bills, or the first clash. */
  lemma {:induction false} GenerateLoop(op: Op, n: nat, db: Db)
    requires op.GenerateOp? && n <= |op.list|
    requires forall x, y :: x in op.list && y in op.list && x.id == y.id ==> x == y
    ensures var o, k := op.owner, op.month;
            var new' := Missing(db, k, op.list[..n]);
            if Clashes(db, o, k, new') then Run(op, n, db) == Err(BillNumberTaken)
            else Run(op, n, db).Ok? && Run(op, n, db).value.w == EMPTY.(bills := NewBills(o, k, new'))
  {
    hide NewBills, WithNew, View, NumberOf, Clashes, MonthlyBill, MonthIndexed, NumberIndexed;
    var o, k, list := op.owner, op.month, op.list;
    if n == 0 {
      GenerateStart(op, db);
    } else {
      var x, old' := list[n - 1], Missing(db, k, list[..n - 1]);
      GenerateLoop(op, n - 1, db);
      RunStep(op, n - 1, db);
      hide Run, Missing;
      MissingNext(db, k, list, n);
      if Clashes(db, o, k, old') {
        ClashGrows(db, o, k, old', Missing(db, k, list[..n]));
      } else {
        InsertIfAbsentExec(db, Run(op, n - 1, db).value, o, k, old', x);
      }
    }
  }

  /** And its two counters. */
  lemma {:induction false} GenerateCounts(op: Op, n: nat, db: Db)
    requires op.GenerateOp? && n <= |op.list| && Run(op, n, db).Ok?
    requires forall x, y :: x in op.list && y in op.list && x.id == y.id ==> x == y
    ensures var reply := Run(op, n, db).value.locals.reply;
            reply.created == |Missing(db, op.month, op.list[..n])| && reply.created + reply.skipped == n
  {
    hide NewBills, View, NumberOf, Clashes, MonthlyBill, MonthIndexed, NumberIndexed, Exec;
    var o, k, list := op.owner, op.month, op.list;
    if n == 0 {
      GenerateStart(op, db);
    } else {
      var x, old' := list[n - 1], Missing(db, k, list[..n - 1]);
      RunStep(op, n - 1, db);
      GenerateLoop(op, n - 1, db);
      GenerateCounts(op, n - 1, db);
      hide Run, Missing;
      MissingNext(db, k, list, n);
      InsertIfAbsentExec(db, Run(op, n - 1, db).value, o, k, old', x);
    }
  }

  lemma GenerateStart(op: Op, db: Db)
    requires op.GenerateOp?
    ensures Missing(db, op.month, op.list[..0]) == {} && !Clashes(db, op.owner, op.month, {})
    ensures Run(op, 0, db).Ok? && Run(op, 0, db).value.w == EMPTY.(bills := NewBills(op.owner, op.month, {}))
  {
    hide NumberOf, MonthlyBill, MonthIndexed;
    assert NewBills(op.owner, op.month, {}) == map[];
  }

  /** One iteration of the loop. */
  lemma InsertIfAbsentExec(db: Db, t: Tx, o: OwnerId, k: Month, new': set<Listed>, x: Listed)
    requires !Clashes(db, o, k, new') && t.w == EMPTY.(bills := NewBills(o, k, new'))
    requires forall y :: y in new' && y.id == x.id ==> y == x
    ensures var r := Exec(InsertIfAbsent(o, k, x), db, t);
            if MonthIndexed(db, x.id, k) || x in new' then
              r.Ok? && r.value.w == t.w && r.value.locals.reply == t.locals.reply.(skipped := t.locals.reply.skipped + 1)
            else if Clashes(db, o, k, new' + {x}) then r == Err(BillNumberTaken)
            else
              && r.Ok? && r.value.w == EMPTY.(bills := NewBills(o, k, new' + {x}))
              && r.value.locals.reply == t.locals.reply.(created := t.locals.reply.created + 1)
  {
    hide NewBills, WithNew, View, NumberOf, Clashes, MonthlyBill, MonthIndexed, NumberIndexed;
    WithNewIsView(db, o, k, new');
    MonthInside(db, o, k, new', x);
    if !MonthIndexed(db, x.id, k) && x !in new' {
      ClashInside(db, o, k, new', x);
      if !Clashes(db, o, k, new' + {x}) {
        NewBillsAdd(db, o, k, new', x);
      }
    }
  }

  lemma RefineGenerate(op: Op, db: Db)
    requires op.GenerateOp?
    requires forall x, y :: x in op.list && y in op.list && x.id == y.id ==> x == y
    ensures RunAlone(op, db) == Perform(db, op)
  {
    hide NewBills, View, Clashes, Run, Missing, Exec;
    GenerateLoop(op, |op.list|, db);
    assert op.list[..|op.list|] == op.list;
    if !Clashes(db, op.owner, op.month, Missing(db, op.month, op.list)) {
      WithNewIsView(db, op.owner, op.month, Missing(db, op.month, op.list));
    }
  }

  /** Every transaction, statement by statement and alone, does what its operation says. */
  lemma RunsAsSpecified(op: Op, db: Db)
    requires Opens(op) && Enabled(db, op)
    ensures RunAlone(op, db) == Perform(db, op)
  {
    hide RunAlone, Perform;
    match op
    case AssignOp(o, i, a, b) => RefineAssign(op, db);
    case CancelOp(o, a) => RefineCancel(op, db);
    case GenerateOp(o, k, list) => RefineGenerate(op, db);
    case RecordOp(o, i, now, p) => RefineRecord(op, db);
    case ApproveOp(o, s, now, p) => RefineApprove(op, db);
    case PayBillOp(o, i, c) => RefinePayBill(op, db);
  }
}
