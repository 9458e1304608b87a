/** The transactions statement by statement. A statement reads the latest committed tables plus the
    transaction's own writes, takes row locks and unique-index keys, and adds private row images. */
module Statements {
  import opened Types
  import opened Operations

  /** What a transaction can hold until it ends: a row, or an entry of a unique index. */
  datatype Key =
    | RoomRow(r: RoomId)
    | TenantRow(t: TenantId)
    | AssignmentRow(a: AssignmentId)
    | BillRow(b: BillId)
    | PaymentRow(p: PaymentId)
    | CheckoutRow(c: CheckoutId)
    | SubmissionRow(s: SubmissionId)
    | LiveRoomKey(room: RoomId)
    | LiveTenantKey(tenant: TenantId)
    | NumberKey(owner: OwnerId, number: BillNumber)
    | MonthKey(assignment: AssignmentId, month: Month)
    | PaidKey(bill: BillId)

  /** What a payment transaction is going to record. */
  datatype Terms = Terms(
    bill: BillId, amount: int, date: Instant, payMethod: string,
    reference: Option<string>, notes: Option<string>, paidAt: Instant)

  /** What a service function has so far to return: the stored payment, the checkout to hand out, how many
      bills it created and skipped. */
  datatype Reply = Reply(payment: Option<Payment>, checkout: Option<CheckoutId>, created: nat, skipped: nat)

  /** The variables a service function keeps between its statements. */
  datatype Locals = Locals(
    terms: Option<Terms>, bill: Option<Bill>, assignment: Option<Assignment>, reuse: bool, reply: Reply)

  /** A transaction in flight: private row images, local variables, locks. */
  datatype Tx = Tx(w: Db, locals: Locals, held: set<Key>)

  datatype Stmt =
    | LockRoom(o: OwnerId, r: RoomId)
    | LockTenant(o: OwnerId, t: TenantId)
    | CountRoom(o: OwnerId, r: RoomId)
    | CountTenant(o: OwnerId, t: TenantId)
    | InsertAssignment(a: AssignmentId, assignment: Assignment)
    | InsertBill(b: BillId, bill: Bill)
    | SetRoom(o: OwnerId, r: RoomId, roomStatus: RoomStatus)
    | SetTenant(o: OwnerId, t: TenantId, tenantStatus: TenantStatus)
    | LockOnboarding(o: OwnerId, a: AssignmentId)
    | CancelAssignment(o: OwnerId, a: AssignmentId)
    | CancelBills(o: OwnerId, a: AssignmentId)
    | ReleaseRoom(o: OwnerId)
    | RevertTenant(o: OwnerId)
    | LockClaim(o: OwnerId, s: SubmissionId, at: Instant)
    | LockBill(o: OwnerId)
    | InsertPayment(o: OwnerId, p: PaymentId)
    | MarkPaid(o: OwnerId)
    | MarkApproved(o: OwnerId, s: SubmissionId, at: Instant)
    | LockTenancy(o: OwnerId)
    | ActivateAssignment(o: OwnerId)
    | ActivateTenantRow(o: OwnerId)
    | OccupyRoom(o: OwnerId)
    | LockTenantBill(o: OwnerId, pay: PayInput)
    | FindCheckout(o: OwnerId, pay: PayInput)
    | InsertCheckout(o: OwnerId, pay: PayInput, c: CheckoutId)
    | SetGatewayPending(o: OwnerId, pay: PayInput)
    | InsertIfAbsent(o: OwnerId, month: Month, x: Listed)

  /** The tables as the transaction sees them. */
  function View(db: Db, w: Db): Db {
    Db(db.rooms + w.rooms, db.tenants + w.tenants, db.assignments + w.assignments, db.bills + w.bills,
       db.payments + w.payments, db.checkouts + w.checkouts, db.submissions + w.submissions)
  }

  // ----- onboarding statements

  function PutRoom(db: Db, t: Tx, o: OwnerId, r: RoomId, status: RoomStatus): Result<Tx> {
    var v := View(db, t.w);
    if !HasRoom(v, r, o) then Err(NotFound)
    else Ok(t.(w := t.w.(rooms := t.w.rooms[r := v.rooms[r].(status := status)]), held := t.held + {RoomRow(r)}))
  }

  function PutTenant(db: Db, t: Tx, o: OwnerId, n: TenantId, status: TenantStatus): Result<Tx> {
    var v := View(db, t.w);
    if !HasTenant(v, n, o) then Err(NotFound)
    else Ok(t.(w := t.w.(tenants := t.w.tenants[n := v.tenants[n].(status := status)]), held := t.held + {TenantRow(n)}))
  }

  function PutAssignment(db: Db, t: Tx, o: OwnerId, a: AssignmentId, status: AssignmentStatus): Result<Tx> {
    var v := View(db, t.w);
    if !HasAssignment(v, a, o) then Err(NotFound)
    else Ok(t.(w := t.w.(assignments := t.w.assignments[a := v.assignments[a].(status := status)]),
               held := t.held + {AssignmentRow(a)}))
  }

  function AddBill(t: Tx, b: BillId, y: Bill): Tx {
    t.(w := t.w.(bills := t.w.bills[b := y]),
       held := t.held + {BillRow(b), NumberKey(y.owner, y.number), MonthKey(y.assignment, y.month)})
  }

  function ExecOnboarding(s: Stmt, db: Db, t: Tx): Result<Tx> {
    var v := View(db, t.w);
    match s
    case LockRoom(o, r) =>
      if !HasRoom(v, r, o) then Err(NotFound)
      else if v.rooms[r].status != Available then Err(RoomNotAvailable)
      else Ok(t.(held := t.held + {RoomRow(r)}))
    case LockTenant(o, n) =>
      if !HasTenant(v, n, o) then Err(NotFound) else Ok(t.(held := t.held + {TenantRow(n)}))
    case CountRoom(o, r) =>
      if RoomCounted(v, r, o) then Err(RoomHasActiveAssignment) else Ok(t)
    case CountTenant(o, n) =>
      if TenantCounted(v, n, o) then Err(TenantHasActiveAssignment) else Ok(t)
    case InsertAssignment(a, x) =>
      if a in v.assignments || RoomIndexed(v, x.room) then Err(RoomHasActiveAssignment)
      else if TenantIndexed(v, x.tenant) then Err(TenantHasActiveAssignment)
      else Ok(t.(w := t.w.(assignments := t.w.assignments[a := x]),
                 held := t.held + {AssignmentRow(a), LiveRoomKey(x.room), LiveTenantKey(x.tenant)}))
    case InsertBill(b, y) =>
      if b in v.bills || NumberIndexed(v, y.owner, y.number) || MonthIndexed(v, y.assignment, y.month)
      then Err(DuplicateBill)
      else Ok(AddBill(t, b, y))
    case SetRoom(o, r, status) => PutRoom(db, t, o, r, status)
    case SetTenant(o, n, status) => PutTenant(db, t, o, n, status)
    case _ => Err(NotFound)
  }

  function ExecCancel(s: Stmt, db: Db, t: Tx): Result<Tx> {
    var v := View(db, t.w);
    match s
    case LockOnboarding(o, a) =>
      if !HasAssignment(v, a, o) then Err(NotFound)
      else if v.assignments[a].status != Pending then Err(OnboardingNotCancelable)
      else Ok(t.(locals := t.locals.(assignment := Some(v.assignments[a])), held := t.held + {AssignmentRow(a)}))
    case CancelAssignment(o, a) => PutAssignment(db, t, o, a, CancelledAssignment)
    case CancelBills(o, a) =>
      var ids := CollectibleBills(v, a, o);
      Ok(t.(w := t.w.(bills := t.w.bills + map b | b in ids :: v.bills[b].(status := CancelledBill)),
            held := t.held + set b | b in ids :: BillRow(b)))
    case ReleaseRoom(o) =>
      if t.locals.assignment.None? then Err(NotFound) else PutRoom(db, t, o, t.locals.assignment.value.room, Available)
    case RevertTenant(o) =>
      if t.locals.assignment.None? then Err(NotFound)
      else PutTenant(db, t, o, t.locals.assignment.value.tenant, AwaitingPayment)
    case _ => Err(NotFound)
  }

  // ----- payment statements

  function ExecPayment(s: Stmt, db: Db, t: Tx): Result<Tx> {
    var v := View(db, t.w);
    match s
    case LockClaim(o, s, at) =>
      if !HasSubmission(v, s, o) then Err(NotFound)
      else
        var x := v.submissions[s];
        if x.status != PendingReview then Err(SubmissionNotPending)
        else
          var terms := Terms(x.bill, x.amount, x.transferDate, x.payMethod, x.reference, None, at);
          Ok(t.(locals := t.locals.(terms := Some(terms)), held := t.held + {SubmissionRow(s)}))
    case LockBill(o) =>
      if t.locals.terms.None? || !HasBill(v, t.locals.terms.value.bill, o) then Err(NotFound)
      else
        var b := t.locals.terms.value.bill;
        if v.bills[b].status == Paid then Err(BillAlreadyPaid)
        else if v.bills[b].status == CancelledBill then Err(BillNotPayable)
        else if t.locals.terms.value.amount != v.bills[b].amount then Err(PaymentAmountMismatch)
        else Ok(t.(locals := t.locals.(bill := Some(v.bills[b])), held := t.held + {BillRow(b)}))
    case InsertPayment(o, p) =>
      if t.locals.terms.None? || t.locals.bill.None? then Err(NotFound)
      else
        var m, y := t.locals.terms.value, t.locals.bill.value;
        if p in v.payments || PaymentIndexed(v, m.bill) then Err(DuplicatePayment)
        else
          var x := Payment(o, m.bill, y.tenant, y.room, m.amount, m.date, m.payMethod, m.reference, m.notes);
          Ok(t.(w := t.w.(payments := t.w.payments[p := x]), held := t.held + {PaymentRow(p), PaidKey(m.bill)},
                locals := t.locals.(reply := t.locals.reply.(payment := Some(x)))))
    case MarkPaid(o) =>
      if t.locals.terms.None? || !HasBill(v, t.locals.terms.value.bill, o) then Err(NotFound)
      else
        var m := t.locals.terms.value;
        Ok(t.(w := t.w.(bills := t.w.bills[m.bill := v.bills[m.bill].(status := Paid, paidAt := Some(m.paidAt))]),
              held := t.held + {BillRow(m.bill)}))
    case MarkApproved(o, s, at) =>
      if !HasSubmission(v, s, o) then Err(NotFound)
      else Ok(t.(w := t.w.(submissions := t.w.submissions[s := v.submissions[s].(status := Approved, reviewedAt := Some(at))]),
                 held := t.held + {SubmissionRow(s)}))
    case _ => Err(NotFound)
  }

  /** Reads the assignment of the locked bill; the next three run only when it was pending. */
  function ExecActivation(s: Stmt, db: Db, t: Tx): Result<Tx> {
    var v := View(db, t.w);
    if t.locals.bill.None? then Err(NotFound)
    else
      var y := t.locals.bill.value;
      if s.LockTenancy? then
        if !HasAssignment(v, y.assignment, s.o) then Err(NotFound)
        else Ok(t.(locals := t.locals.(assignment := Some(v.assignments[y.assignment])),
                   held := t.held + {AssignmentRow(y.assignment)}))
      else if t.locals.assignment.None? then Err(NotFound)
      else if t.locals.assignment.value.status != Pending then Ok(t)
      else
        match s
        case ActivateAssignment(o) => PutAssignment(db, t, o, y.assignment, Active)
        case ActivateTenantRow(o) => PutTenant(db, t, o, y.tenant, ActiveTenant)
        case OccupyRoom(o) => PutRoom(db, t, o, y.room, Occupied)
        case _ => Err(NotFound)
  }

  // ----- checkout and billing statements

  ghost function ExecCheckout(s: Stmt, db: Db, t: Tx): Result<Tx> {
    var v := View(db, t.w);
    match s
    case LockTenantBill(o, i) =>
      if !HasBill(v, i.bill, o) || v.bills[i.bill].tenant != i.tenant then Err(NotFound)
      else if v.bills[i.bill].status == Paid then Err(BillAlreadyPaid)
      else if v.bills[i.bill].status == CancelledBill then Err(BillNotPayable)
      else Ok(t.(locals := t.locals.(bill := Some(v.bills[i.bill])), held := t.held + {BillRow(i.bill)}))
    case FindCheckout(o, i) =>
      if t.locals.bill.None? then Err(NotFound)
      else
        var rows := LiveRows(v, i.bill, o, i.lookupAt);
        if t.locals.bill.value.status != GatewayPending || rows == map[] then Ok(t.(locals := t.locals.(reuse := false)))
        else Ok(t.(locals := t.locals.(reuse := true, reply := t.locals.reply.(checkout := Some(NewestOf(rows))))))
    case InsertCheckout(o, i, c) =>
      if t.locals.bill.None? then Err(NotFound)
      else if t.locals.reuse then Ok(t)
      else if t.locals.bill.value.amount <= 0 then Err(CheckoutRejected)
      else if c in v.checkouts then Err(DuplicateGatewayTransaction)
      else Ok(t.(w := t.w.(checkouts := t.w.checkouts[c := NewCheckout(o, t.locals.bill.value, i)]),
                 held := t.held + {CheckoutRow(c)},
                 locals := t.locals.(reply := t.locals.reply.(checkout := Some(c)))))
    case SetGatewayPending(o, i) =>
      if t.locals.reuse then Ok(t)
      else if !HasBill(v, i.bill, o) then Err(NotFound)
      else Ok(t.(w := t.w.(bills := t.w.bills[i.bill := v.bills[i.bill].(status := GatewayPending)]),
                 held := t.held + {BillRow(i.bill)}))
    case InsertIfAbsent(o, k, x) =>
      var n := t.locals.reply;
      if MonthIndexed(v, x.id, k) then Ok(t.(locals := t.locals.(reply := n.(skipped := n.skipped + 1))))
      else if x.bill in v.bills || NumberIndexed(v, o, NumberOf(k, x.id)) then Err(BillNumberTaken)
      else
        var u := AddBill(t, x.bill, MonthlyBill(o, k, x));
        Ok(u.(locals := u.locals.(reply := n.(created := n.created + 1))))
    case _ => Err(NotFound)
  }

  predicate IsOnboarding(s: Stmt) {
    s.LockRoom? || s.LockTenant? || s.CountRoom? || s.CountTenant? || s.InsertAssignment? || s.InsertBill?
    || s.SetRoom? || s.SetTenant?
  }

  predicate IsCancel(s: Stmt) {
    s.LockOnboarding? || s.CancelAssignment? || s.CancelBills? || s.ReleaseRoom? || s.RevertTenant?
  }

  predicate IsPayment(s: Stmt) {
    s.LockClaim? || s.LockBill? || s.InsertPayment? || s.MarkPaid? || s.MarkApproved?
  }

  predicate IsActivation(s: Stmt) {
    s.LockTenancy? || s.ActivateAssignment? || s.ActivateTenantRow? || s.OccupyRoom?
  }

  ghost function Exec(s: Stmt, db: Db, t: Tx): Result<Tx> {
    if IsOnboarding(s) then ExecOnboarding(s, db, t)
    else if IsCancel(s) then ExecCancel(s, db, t)
    else if IsPayment(s) then ExecPayment(s, db, t)
    else if IsActivation(s) then ExecActivation(s, db, t)
    else ExecCheckout(s, db, t)
  }

  // ----- the transaction of each operation

  /** The operations that open a transaction of several statements, once the checks before it pass. */
  predicate Opens(op: Op) {
    match op
    case AssignOp(o, i, a, b) => i.start.Some?
    case CancelOp(o, a) => true
    case GenerateOp(o, k, list) => true
    case RecordOp(o, i, now, p) => i.payMethod in ALLOWED_METHODS && i.date != Malformed
    case ApproveOp(o, s, now, p) => true
    case PayBillOp(o, i, c) => i.known
    case _ => false
  }

  function Activation(o: OwnerId): seq<Stmt> {
    [LockTenancy(o), ActivateAssignment(o), ActivateTenantRow(o), OccupyRoom(o)]
  }

  function Program(op: Op): seq<Stmt>
    requires Opens(op)
  {
    match op
    case AssignOp(o, i, a, b) =>
      [LockRoom(o, i.room), LockTenant(o, i.tenant), CountRoom(o, i.room), CountTenant(o, i.tenant),
       InsertAssignment(a, NewAssignment(o, i)), InsertBill(b, FirstBill(o, i, a)),
       SetRoom(o, i.room, Reserved), SetTenant(o, i.tenant, AwaitingPayment)]
    case CancelOp(o, a) =>
      [LockOnboarding(o, a), CancelAssignment(o, a), CancelBills(o, a), ReleaseRoom(o), RevertTenant(o)]
    case GenerateOp(o, k, list) =>
      seq(|list|, n requires 0 <= n < |list| => InsertIfAbsent(o, k, list[n]))
    case RecordOp(o, i, now, p) =>
      [LockBill(o), InsertPayment(o, p), MarkPaid(o)] + Activation(o)
    case ApproveOp(o, s, now, p) =>
      [LockClaim(o, s, now), LockBill(o), InsertPayment(o, p), MarkPaid(o), MarkApproved(o, s, now)] + Activation(o)
    case PayBillOp(o, i, c) =>
      [LockTenantBill(o, i), FindCheckout(o, i), InsertCheckout(o, i, c), SetGatewayPending(o, i)]
    case _ => []
  }

  /** A transaction before its first statement; RecordManual brings its terms with the request. */
  function Begin(op: Op): Tx
    requires Opens(op)
  {
    var terms :=
      match op
      case RecordOp(o, i, now, p) =>
        var at := PaymentDate(i.date, now).value;
        Some(Terms(i.bill, i.amount, at, i.payMethod, Optional(i.reference), Optional(i.notes), at))
      case _ => None;
    Tx(EMPTY, Locals(terms, None, None, false, Reply(None, None, 0, 0)), {})
  }

  /** The first n statements of op, one after another on the committed tables db. */
  ghost function Run(op: Op, n: nat, db: Db): Result<Tx>
    requires Opens(op) && n <= |Program(op)|
  {
    if n == 0 then Ok(Begin(op))
    else
      match Run(op, n - 1, db)
      case Err(e) => Err(e)
      case Ok(t) => Exec(Program(op)[n - 1], db, t)
  }

  /** The whole transaction alone: all its statements, then commit. */
  ghost function RunAlone(op: Op, db: Db): Result<Db>
    requires Opens(op)
  {
    match Run(op, |Program(op)|, db)
    case Err(e) => Err(e)
    case Ok(t) => Ok(View(db, t.w))
  }
}
