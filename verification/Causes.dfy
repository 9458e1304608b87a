/** Which request moves which status: whose it is and what it names. */
module Causes {
  import opened Types
  import opened Operations
  import opened Preservation
  import opened Runs

  /** The request that may take bill y, known as b, to status s. */
  ghost predicate MayMoveBill(db: Db, op: Op, b: BillId, y: Bill, s: BillStatus) {
    op.owner == y.owner &&
    match s
    case Unpaid => false
    case Overdue => op.OverdueOp? && y.status == Unpaid && y.due < op.today
    case GatewayPending => op.PayBillOp? && op.pay.known && op.pay.bill == b && op.pay.tenant == y.tenant && y.status != GatewayPending
    case Paid => (op.RecordOp? && op.manual.bill == b) || (op.ApproveOp? && op.s in db.submissions && db.submissions[op.s].bill == b)
    case CancelledBill => op.CancelOp? && op.a == y.assignment
  }

  /** A bill becomes overdue only by its owner's marking after its due day, enters the gateway only by its own
      tenant's PayBill, is paid only by its owner recording or approving a payment of it, and is cancelled only
      with its own onboarding. */
  lemma BillMover(db: Db, op: Op, b: BillId)
    requires Enabled(db, op) && b in db.bills && b in Apply(db, op).bills && Apply(db, op).bills[b].status != db.bills[b].status
    ensures MayMoveBill(db, op, b, db.bills[b], Apply(db, op).bills[b].status)
  {
    hide Settle, Activated, AssignRoom, CancelOnboarding, GenerateMonthly, PayBill, WithStatus;
    match op
    case CancelOp(o, a) => StatusMover(db, op, b);
    case OverdueOp(o, today, ids) => StatusMover(db, op, b);
    case PayBillOp(o, i, c) => StatusMover(db, op, b);
    case AssignOp(o, i, a, c) => BillingKeepsBills(db, op, b);
    case GenerateOp(o, k, list) => BillingKeepsBills(db, op, b);
    case RecordOp(o, i, now, p) =>
      var at := PaymentDate(i.date, now).value;
      SettleSettles(db, o, i.bill, i.amount, at, i.payMethod, Optional(i.reference), Optional(i.notes), at, p);
    case ApproveOp(o, s, now, p) =>
      var sub := db.submissions[s];
      SettleSettles(db, o, sub.bill, sub.amount, sub.transferDate, sub.payMethod, sub.reference, None, now, p);
    case _ =>
  }

  lemma StatusMover(db: Db, op: Op, b: BillId)
    requires op.CancelOp? || op.OverdueOp? || op.PayBillOp?
    requires Enabled(db, op) && b in db.bills && b in Apply(db, op).bills && Apply(db, op).bills[b].status != db.bills[b].status
    ensures MayMoveBill(db, op, b, db.bills[b], Apply(db, op).bills[b].status)
  {
    hide LiveCheckouts, NewCheckout;
  }

  lemma BillingKeepsBills(db: Db, op: Op, b: BillId)
    requires (op.AssignOp? || op.GenerateOp?) && b in db.bills
    ensures b in Apply(db, op).bills && Apply(db, op).bills[b] == db.bills[b]
  {
    hide FirstBill, MonthlyBill, NumberOf, NumberIndexed, MonthIndexed;
  }

  /** The request that may take submission x, known as s, to status t, and the review stamp it then has. */
  predicate MayDecide(op: Op, s: SubmissionId, x: Submission, t: SubmissionStatus, stamp: Option<Instant>) {
    op.owner == x.owner && x.status == PendingReview &&
    match t
    case PendingReview => false
    case Approved => op.ApproveOp? && op.s == s && stamp == Some(op.now)
    case Rejected => op.RejectOp? && op.s == s && op.reason != "" && stamp == Some(op.now)
    case CancelledSubmission => op.CancelSubmissionOp? && op.s == s && op.t == x.tenant && stamp == x.reviewedAt
  }

  /** A submission is decided only by its owner, approving it or rejecting it for a reason, or cancelled by the
      tenant who made it; nothing else touches it but the key of its proof. */
  lemma SubmissionMover(db: Db, op: Op, s: SubmissionId)
    requires Enabled(db, op) && s in db.submissions && s in Apply(db, op).submissions
    ensures var x, y := db.submissions[s], Apply(db, op).submissions[s];
            if y.status != x.status then MayDecide(op, s, x, y.status, y.reviewedAt) && y.proof == x.proof
            else y == x || (op.SetProofOp? && op.owner == x.owner && op.s == s && y == x.(proof := Some(op.key)))
  {
    hide AssignRoom, CancelOnboarding, GenerateMonthly, PayBill, Settle, Activated, WithStatus;
    match op
    case AssignOp(o, i, a, b) => OnboardingKeepsSubmissions(db, op);
    case CancelOp(o, a) => OnboardingKeepsSubmissions(db, op);
    case GenerateOp(o, k, list) => OnboardingKeepsSubmissions(db, op);
    case PayBillOp(o, i, c) => OnboardingKeepsSubmissions(db, op);
    case RecordOp(o, i, now, p) =>
      if Perform(db, op).Ok? {
        var at := PaymentDate(i.date, now).value;
        SettleSettles(db, o, i.bill, i.amount, at, i.payMethod, Optional(i.reference), Optional(i.notes), at, p);
      }
    case ApproveOp(o, r, now, p) =>
      if Perform(db, op).Ok? {
        var sub := db.submissions[r];
        SettleSettles(db, o, sub.bill, sub.amount, sub.transferDate, sub.payMethod, sub.reference, None, now, p);
      }
    case _ =>
  }

  /** The request that may take assignment x, known as a, to status s. */
  ghost predicate MayMoveAssignment(db: Db, op: Op, a: AssignmentId, x: Assignment, s: AssignmentStatus) {
    op.owner == x.owner && x.status == Pending &&
    match s
    case Pending => false
    case Active => exists b :: b in db.bills && db.bills[b].assignment == a
                               && b in Apply(db, op).bills && MayMoveBill(db, op, b, db.bills[b], Paid) && Apply(db, op).bills[b].status == Paid
    case CancelledAssignment => op.CancelOp? && op.a == a
  }

  /** An assignment becomes active only by the payment of a bill of it, and is cancelled only by its own
      onboarding's cancellation. */
  lemma AssignmentMover(db: Db, op: Op, a: AssignmentId)
    requires Reachable(db) && Enabled(db, op) && a in db.assignments && a in Apply(db, op).assignments
    requires Apply(db, op).assignments[a].status != db.assignments[a].status
    ensures MayMoveAssignment(db, op, a, db.assignments[a], Apply(db, op).assignments[a].status)
  {
    hide Reachable, Settle, AssignRoom, GenerateMonthly, LiveCheckouts, PaymentIndexed, WithStatus;
    match op
    case AssignOp(o, i, x, c) => AssignKeepsOthers(db, op, a);
    case GenerateOp(o, k, list) => AssignKeepsOthers(db, op, a);
    case RecordOp(o, i, now, p) => ActivatedByPayment(db, op, a, i.bill);
    case ApproveOp(o, s, now, p) => ActivatedByPayment(db, op, a, db.submissions[s].bill);
    case _ =>
  }

  lemma AssignKeepsOthers(db: Db, op: Op, a: AssignmentId)
    requires (op.AssignOp? || op.GenerateOp?) && a in db.assignments
    ensures a in Apply(db, op).assignments && Apply(db, op).assignments[a] == db.assignments[a]
  {
    hide FirstBill, NumberIndexed, MonthIndexed, Clashes, Missing;
  }

  lemma ActivatedByPayment(db: Db, op: Op, a: AssignmentId, b: BillId)
    requires Reachable(db) && a in db.assignments && a in Apply(db, op).assignments
    requires Apply(db, op).assignments[a].status != db.assignments[a].status
    requires (op.RecordOp? && b == op.manual.bill) || (op.ApproveOp? && op.s in db.submissions && b == db.submissions[op.s].bill)
    ensures MayMoveAssignment(db, op, a, db.assignments[a], Apply(db, op).assignments[a].status)
  {
    hide Reachable, Settle, PaymentIndexed;
    if b in db.bills { BillOfTenancy(db, b); }
    if op.RecordOp? {
      var i, at := op.manual, PaymentDate(op.manual.date, op.now).value;
      SettleSettles(db, op.owner, b, i.amount, at, i.payMethod, Optional(i.reference), Optional(i.notes), at, op.p);
    } else {
      var sub := db.submissions[op.s];
      SettleSettles(db, op.owner, b, sub.amount, sub.transferDate, sub.payMethod, sub.reference, None, op.now, op.p);
    }
    assert b in db.bills && db.bills[b].assignment == a;
  }
}
