/** Rows, statuses and tables of the tenancy ledger. */
module Types {

  datatype Option<+T> = None | Some(value: T)

  datatype Result<+T> = Ok(value: T) | Err(error: Error)

  /** The outcomes a service call reports instead of a result. */
  datatype Error =
    | NotFound
    | InvalidStartDate
    | RoomNotAvailable
    | RoomHasActiveAssignment
    | TenantHasActiveAssignment
    | DuplicateBill
    | OnboardingNotCancelable
    | InvalidBillingMonth
    | BillNumberTaken
    | InvalidPaymentMethod
    | InvalidPaymentDate
    | BillAlreadyPaid
    | BillNotPayable
    | PaymentAmountMismatch
    | DuplicatePayment
    | UnsupportedProvider
    | CheckoutRejected
    | DuplicateGatewayTransaction
    | SubmissionAmountMismatch
    | ProofRequired
    | ProofUnsupported
    | BillNotSubmittable
    | DuplicatePendingSubmission
    | ProofStoreFailed
    | SubmissionNotPending
    | RejectReasonRequired
    | RoomNotDeletable
    | RoomNumberTaken
    | TenantEmailTaken

  // A row id is the 128-bit value of its UUID.
  type OwnerId = nat
  type RoomId = nat
  type TenantId = nat
  type AssignmentId = nat
  type BillId = nat
  type PaymentId = nat
  type CheckoutId = nat
  type SubmissionId = nat

  /** A calendar day, counted from 0000-01-01. */
  type Day = int

  /** A UTC instant in microseconds since the start of day 0. */
  type Instant = int

  /** A calendar month, counted from January of year 0. */
  type Month = nat

  datatype RoomStatus = Available | Reserved | Occupied | Maintenance | Inactive

  datatype TenantStatus = AwaitingPayment | ActiveTenant | MovedOut | CancelledTenant

  datatype AssignmentStatus = Pending | Active | CancelledAssignment

  datatype BillStatus = Unpaid | Overdue | GatewayPending | Paid | CancelledBill

  datatype SubmissionStatus = PendingReview | Approved | Rejected | CancelledSubmission

  datatype Room = Room(owner: OwnerId, number: string, rent: int, status: RoomStatus, deleted: bool)

  datatype Tenant = Tenant(owner: OwnerId, email: Option<string>, status: TenantStatus, deleted: bool)

  datatype Assignment = Assignment(
    owner: OwnerId, tenant: TenantId, room: RoomId,
    start: Day, rent: int, dueDay: int, createdAt: Instant, status: AssignmentStatus)

  /** INV-<month>-<first eight hexadecimal digits of the assignment id>. */
  datatype BillNumber = BillNumber(month: Month, prefix: nat)

  datatype Bill = Bill(
    owner: OwnerId, tenant: TenantId, room: RoomId, assignment: AssignmentId,
    number: BillNumber, month: Month, periodStart: Day, periodEnd: Day,
    amount: int, due: Day, status: BillStatus, paidAt: Option<Instant>)

  datatype Payment = Payment(
    owner: OwnerId, bill: BillId, tenant: TenantId, room: RoomId,
    amount: int, date: Instant, payMethod: string,
    reference: Option<string>, notes: Option<string>)

  /** One gateway checkout attempt, valid from openedAt up to but excluding expiresAt; createdAt is the start
      of the transaction that stored it. */
  datatype Checkout = Checkout(
    owner: OwnerId, bill: BillId, tenant: TenantId,
    amount: int, openedAt: Instant, expiresAt: Instant, createdAt: Instant)

  datatype Submission = Submission(
    owner: OwnerId, bill: BillId, tenant: TenantId,
    amount: int, payMethod: string, transferDate: Instant, reference: Option<string>,
    status: SubmissionStatus, proof: Option<string>, reviewedAt: Option<Instant>)

  /** All tables at one moment. */
  datatype Db = Db(
    rooms: map<RoomId, Room>,
    tenants: map<TenantId, Tenant>,
    assignments: map<AssignmentId, Assignment>,
    bills: map<BillId, Bill>,
    payments: map<PaymentId, Payment>,
    checkouts: map<CheckoutId, Checkout>,
    submissions: map<SubmissionId, Submission>)

  const EMPTY := Db(map[], map[], map[], map[], map[], map[], map[])

  const ALLOWED_METHODS: set<string> :=
    {"cash", "bank_transfer", "e_wallet", "virtual_account", "credit_card", "qris", "other"}

  /** Empty optional text is stored as NULL. */
  function Optional(s: string): Option<string> {
    if s == "" then None else Some(s)
  }

  predicate IsLive(a: Assignment) {
    a.status == Pending || a.status == Active
  }

  /** The statuses an onboarding cancellation still collects. */
  predicate IsCollectible(s: BillStatus) {
    s == Unpaid || s == Overdue || s == GatewayPending
  }
}
