/** What a refusal tells its caller about the tables: every error an operation can report in a reachable state, each
    with what is then the case, and no other error. */
module Refusals {
  import opened Types
  import opened Calendar
  import opened Operations
  import opened Invariants
  import opened Runs
  import opened Charges
  import opened Tenancies

  /** The bill is not the owner's, or the tenancy its payment would activate has lost its room or tenant. */
  ghost predicate BillLost(db: Db, o: OwnerId, b: BillId) {
    !HasBill(db, b, o) || (
      && db.bills[b].assignment in db.assignments && db.assignments[db.bills[b].assignment].status == Pending
      && (!HasTenant(db, db.bills[b].tenant, o) || !HasRoom(db, db.bills[b].room, o)))
  }

  /** There is a payment of the bill. */
  ghost predicate HasPayment(db: Db, b: BillId) {
    exists p :: p in db.payments && db.payments[p].bill == b
  }

  /** The bill is of an onboarding that was cancelled. */
  ghost predicate TenancyCancelled(db: Db, b: BillId) {
    && b in db.bills && db.bills[b].assignment in db.assignments
    && db.assignments[db.bills[b].assignment].status == CancelledAssignment
  }

  /** The amount is not the rent of the bill's tenancy. */
  ghost predicate NotTheRent(db: Db, b: BillId, amount: int) {
    b in db.bills && db.bills[b].assignment in db.assignments && db.assignments[db.bills[b].assignment].rent != amount
  }

  /** What the status of a bill means for its payments, its checkouts and its tenancy. */
  lemma BillMeans(db: Db, b: BillId)
    requires Reachable(db) && b in db.bills
    ensures db.bills[b].assignment in db.assignments && db.bills[b].amount == db.assignments[db.bills[b].assignment].rent
    ensures db.bills[b].status == Paid <==> HasPayment(db, b)
    ensures db.bills[b].status == CancelledBill <==> TenancyCancelled(db, b)
    ensures db.bills[b].status == GatewayPending ==> HasCheckout(db, b)
  {
    hide Reachable, Tenancy, Claiming, PeriodFits, NumberOf, BillKeys, ActiveHavePaid, PendingHaveOne, CheckoutsLinked;
    ReachableInv(db);
    assert PaymentIndexed(db, b) <==> HasPayment(db, b);
  }

  lemma RecordRefused(db: Db, o: OwnerId, i: ManualInput, now: Instant, p: PaymentId)
    requires Reachable(db) && p !in db.payments && RecordManual(db, o, i, now, p).Err?
    ensures match RecordManual(db, o, i, now, p).error
            case InvalidPaymentMethod => !IsMethod(i.payMethod)
            case InvalidPaymentDate => i.date == Malformed
            case NotFound => BillLost(db, o, i.bill)
            case BillAlreadyPaid => HasPayment(db, i.bill)
            case BillNotPayable => TenancyCancelled(db, i.bill)
            case PaymentAmountMismatch => NotTheRent(db, i.bill, i.amount)
            case _ => false
  {
    hide Reachable, Settle, BillLost, HasPayment, TenancyCancelled, NotTheRent;
    if i.payMethod in ALLOWED_METHODS && i.date != Malformed {
      var at := PaymentDate(i.date, now).value;
      SettleRefused(db, o, i.bill, i.amount, at, i.payMethod, Optional(i.reference), Optional(i.notes), at, p);
    }
  }

  lemma SettleRefused(db: Db, o: OwnerId, b: BillId, amount: int, date: Instant, payMethod: string,
                      reference: Option<string>, notes: Option<string>, paidAt: Instant, p: PaymentId)
    requires Reachable(db) && p !in db.payments
    requires Settle(db, o, b, amount, date, payMethod, reference, notes, paidAt, p).Err?
    ensures match Settle(db, o, b, amount, date, payMethod, reference, notes, paidAt, p).error
            case NotFound => BillLost(db, o, b)
            case BillAlreadyPaid => HasPayment(db, b)
            case BillNotPayable => TenancyCancelled(db, b)
            case PaymentAmountMismatch => NotTheRent(db, b, amount)
            case _ => false
  {
    hide Reachable, HasPayment, TenancyCancelled, PaymentIndexed;
    if b in db.bills {
      BillMeans(db, b);
      BillOfTenancy(db, b);
      PaymentIndexSilent(db, o, b, amount, date, payMethod, reference, notes, paidAt, p);
    }
  }

  lemma ApproveRefused(db: Db, o: OwnerId, s: SubmissionId, now: Instant, p: PaymentId)
    requires Reachable(db) && p !in db.payments && Approve(db, o, s, now, p).Err?
    ensures match Approve(db, o, s, now, p).error
            case NotFound => !HasSubmission(db, s, o) || BillLost(db, o, db.submissions[s].bill)
            case SubmissionNotPending => s in db.submissions && db.submissions[s].status != PendingReview
            case BillAlreadyPaid => s in db.submissions && HasPayment(db, db.submissions[s].bill)
            case BillNotPayable => s in db.submissions && TenancyCancelled(db, db.submissions[s].bill)
            case _ => false
  {
    hide Reachable, Settle, BillLost, HasPayment, TenancyCancelled, NotTheRent;
    ApproveNeverMismatches(db, o, s, now, p);
    if HasSubmission(db, s, o) && db.submissions[s].status == PendingReview {
      var sub := db.submissions[s];
      SettleRefused(db, o, sub.bill, sub.amount, sub.transferDate, sub.payMethod, sub.reference, None, now, p);
    }
  }

  lemma PayRefused(db: Db, o: OwnerId, i: PayInput, c: CheckoutId)
    requires Reachable(db) && c !in db.checkouts && PayBill(db, o, i, c).Err?
    ensures match PayBill(db, o, i, c).error
            case UnsupportedProvider => !i.known
            case NotFound => !HasBill(db, i.bill, o) || db.bills[i.bill].tenant != i.tenant
            case BillAlreadyPaid => HasPayment(db, i.bill)
            case BillNotPayable => TenancyCancelled(db, i.bill)
            case _ => false
  {
    hide Reachable, LiveCheckouts, HasPayment, TenancyCancelled;
    if i.bill in db.bills {
      BillMeans(db, i.bill);
      BillOfTenancy(db, i.bill);
    }
  }

  /** A bill that takes no submission is paid, in the gateway with a checkout, or of a cancelled onboarding. */
  lemma SubmitRefused(db: Db, o: OwnerId, t: TenantId, b: BillId, c: Claim, s: SubmissionId, stored: bool, cleaned: bool)
    requires Reachable(db) && s !in db.submissions && Submit(db, o, t, b, c, s, stored, cleaned).1.Err?
    ensures match Submit(db, o, t, b, c, s, stored, cleaned).1.error
            case SubmissionAmountMismatch => c.amount <= 0 || NotTheRent(db, b, c.amount)
            case InvalidPaymentMethod => !IsMethod(c.payMethod)
            case InvalidPaymentDate => !c.transferDate.Given?
            case ProofRequired => c.proof == NoProof
            case ProofUnsupported => c.proof == UnknownType
            case NotFound => !HasBill(db, b, o) || db.bills[b].tenant != t
            case BillNotSubmittable => HasPayment(db, b) || HasCheckout(db, b) || TenancyCancelled(db, b)
            case DuplicatePendingSubmission =>
              exists r :: r in db.submissions && db.submissions[r].bill == b && db.submissions[r].status == PendingReview
            case ProofStoreFailed => !stored
            case _ => false
  {
    hide Reachable, HasPayment, HasCheckout, TenancyCancelled, DeleteSubmission;
    if b in db.bills { BillMeans(db, b); }
  }

  lemma OnboardingRefused(db: Db, o: OwnerId, i: AssignInput, a: AssignmentId, b: BillId)
    requires Reachable(db) && a !in db.assignments && b !in db.bills && AssignRoom(db, o, i, a, b).Err?
    ensures match AssignRoom(db, o, i, a, b).error
            case InvalidStartDate => i.start.None?
            case NotFound => !HasRoom(db, i.room, o) || !HasTenant(db, i.tenant, o)
            case RoomNotAvailable => i.room in db.rooms && db.rooms[i.room].status != Available
            case RoomHasActiveAssignment => exists x :: x in db.assignments && db.assignments[x].room == i.room && IsLive(db.assignments[x])
            case TenantHasActiveAssignment => exists x :: x in db.assignments && db.assignments[x].tenant == i.tenant && IsLive(db.assignments[x])
            case DuplicateBill => i.start.Some? && DigitsTaken(db, o, MonthIndex(i.start.value.year, i.start.value.month), a)
            case _ => false
  {
    hide Reachable, Tenancy, Paying, Claiming, BillFits, BillKeys, StatusCoupled, ActiveHavePaid, PendingHaveOne;
    hide NumberOf, Date, MonthIndex;
    ReachableInv(db);
  }

  /** An onboarding that cannot be cancelled any more was paid for or cancelled before. */
  lemma CancelRefused(db: Db, o: OwnerId, a: AssignmentId)
    requires Reachable(db) && CancelOnboarding(db, o, a).Err?
    ensures match CancelOnboarding(db, o, a).error
            case NotFound => !HasAssignment(db, a, o) || (
                               && db.assignments[a].room in db.rooms && db.assignments[a].tenant in db.tenants
                               && (db.rooms[db.assignments[a].room].deleted || db.tenants[db.assignments[a].tenant].deleted))
            case OnboardingNotCancelable => a in db.assignments && (HasPaidBill(db, a) || db.assignments[a].status == CancelledAssignment)
            case _ => false
  {
    hide Reachable, OneLive, TenantsEarned, BillsLinked, BillKeys, StatusCoupled, PendingHaveOne, Paying, Claiming;
    hide WithStatus, CollectibleBills;
    ReachableInv(db);
  }
}
