/** What each ledger operation does to the tables when it runs alone: which error it reports,
    or the tables it commits. An error leaves the tables as they were. */
module Operations {
  import opened Types
  import opened Calendar

  // ----- lookups: every one is scoped to the owner and skips soft-deleted rows

  predicate HasRoom(db: Db, r: RoomId, o: OwnerId) {
    r in db.rooms && db.rooms[r].owner == o && !db.rooms[r].deleted
  }

  predicate HasTenant(db: Db, t: TenantId, o: OwnerId) {
    t in db.tenants && db.tenants[t].owner == o && !db.tenants[t].deleted
  }

  predicate HasAssignment(db: Db, a: AssignmentId, o: OwnerId) {
    a in db.assignments && db.assignments[a].owner == o
  }

  predicate HasBill(db: Db, b: BillId, o: OwnerId) {
    b in db.bills && db.bills[b].owner == o
  }

  predicate HasSubmission(db: Db, s: SubmissionId, o: OwnerId) {
    s in db.submissions && db.submissions[s].owner == o
  }

  /** The live-assignment counts, as "is the count positive". */
  predicate RoomCounted(db: Db, r: RoomId, o: OwnerId) {
    exists a :: a in db.assignments && db.assignments[a].room == r && db.assignments[a].owner == o && IsLive(db.assignments[a])
  }

  predicate TenantCounted(db: Db, t: TenantId, o: OwnerId) {
    exists a :: a in db.assignments && db.assignments[a].tenant == t && db.assignments[a].owner == o && IsLive(db.assignments[a])
  }

  // ----- unique indexes: does the table already hold the key?

  predicate RoomIndexed(db: Db, r: RoomId) {
    exists a :: a in db.assignments && db.assignments[a].room == r && IsLive(db.assignments[a])
  }

  predicate TenantIndexed(db: Db, t: TenantId) {
    exists a :: a in db.assignments && db.assignments[a].tenant == t && IsLive(db.assignments[a])
  }

  predicate NumberIndexed(db: Db, o: OwnerId, n: BillNumber) {
    exists b :: b in db.bills && db.bills[b].owner == o && db.bills[b].number == n
  }

  predicate MonthIndexed(db: Db, a: AssignmentId, k: Month) {
    exists b :: b in db.bills && db.bills[b].assignment == a && db.bills[b].month == k
  }

  predicate PaymentIndexed(db: Db, b: BillId) {
    exists p :: p in db.payments && db.payments[p].bill == b
  }

  predicate PendingIndexed(db: Db, b: BillId) {
    exists s :: s in db.submissions && db.submissions[s].bill == b && db.submissions[s].status == PendingReview
  }

  // ----- onboarding

  /** The first eight of the 32 hexadecimal digits of an id. */
  function NumberPrefix(a: AssignmentId): nat { a / 0x1_0000_0000_0000_0000_0000_0000 }

  function NumberOf(k: Month, a: AssignmentId): BillNumber { BillNumber(k, NumberPrefix(a)) }

  /** start is None when the text is not a date; now is the database's clock. */
  datatype AssignInput = AssignInput(
    tenant: TenantId, room: RoomId, start: Option<Civil>, rent: int, dueDay: int, now: Instant)

  function NewAssignment(o: OwnerId, i: AssignInput): Assignment
    requires i.start.Some?
  {
    var s := i.start.value;
    Assignment(o, i.tenant, i.room, Date(s.year, s.month, s.day), i.rent, i.dueDay, i.now, Pending)
  }

  function RentBill(o: OwnerId, t: TenantId, r: RoomId, a: AssignmentId, rent: int, p: Period): Bill {
    Bill(o, t, r, a, NumberOf(p.month, a), p.month, p.start, p.end, rent, p.due, Unpaid, None)
  }

  function FirstBill(o: OwnerId, i: AssignInput, a: AssignmentId): Bill
    requires i.start.Some?
  {
    RentBill(o, i.tenant, i.room, a, i.rent, FirstPeriod(i.start.value, i.dueDay))
  }

  function AssignRoom(db: Db, o: OwnerId, i: AssignInput, a: AssignmentId, b: BillId): Result<Db> {
    if i.start.None? then Err(InvalidStartDate)
    else if !HasRoom(db, i.room, o) then Err(NotFound)
    else if db.rooms[i.room].status != Available then Err(RoomNotAvailable)
    else if !HasTenant(db, i.tenant, o) then Err(NotFound)
    else if RoomCounted(db, i.room, o) then Err(RoomHasActiveAssignment)
    else if TenantCounted(db, i.tenant, o) then Err(TenantHasActiveAssignment)
    else if a in db.assignments || RoomIndexed(db, i.room) then Err(RoomHasActiveAssignment)
    else if TenantIndexed(db, i.tenant) then Err(TenantHasActiveAssignment)
    else
      var bill := FirstBill(o, i, a);
      if b in db.bills || NumberIndexed(db, o, bill.number) || MonthIndexed(db, a, bill.month) then Err(DuplicateBill)
      else Ok(db.(assignments := db.assignments[a := NewAssignment(o, i)],
                  bills := db.bills[b := bill],
                  rooms := db.rooms[i.room := db.rooms[i.room].(status := Reserved)],
                  tenants := db.tenants[i.tenant := db.tenants[i.tenant].(status := AwaitingPayment)]))
  }

  /** The bills an onboarding cancellation collects. */
  function CollectibleBills(db: Db, a: AssignmentId, o: OwnerId): set<BillId> {
    set b | b in db.bills && db.bills[b].assignment == a && db.bills[b].owner == o && IsCollectible(db.bills[b].status)
  }

  function WithStatus(bills: map<BillId, Bill>, ids: set<BillId>, s: BillStatus): (r: map<BillId, Bill>)
    ensures r.Keys == bills.Keys
    ensures forall b :: b in bills ==> r[b] == if b in ids then bills[b].(status := s) else bills[b]
  {
    map b | b in bills :: if b in ids then bills[b].(status := s) else bills[b]
  }

  function CancelOnboarding(db: Db, o: OwnerId, a: AssignmentId): Result<Db> {
    if !HasAssignment(db, a, o) then Err(NotFound)
    else
      var x := db.assignments[a];
      if x.status != Pending then Err(OnboardingNotCancelable)
      else if !HasRoom(db, x.room, o) then Err(NotFound)
      else if !HasTenant(db, x.tenant, o) then Err(NotFound)
      else Ok(db.(assignments := db.assignments[a := x.(status := CancelledAssignment)],
                  bills := WithStatus(db.bills, CollectibleBills(db, a, o), CancelledBill),
                  rooms := db.rooms[x.room := db.rooms[x.room].(status := Available)],
                  tenants := db.tenants[x.tenant := db.tenants[x.tenant].(status := AwaitingPayment)]))
  }

  // ----- monthly billing

  /** An assignment row as the list query returned it, with the id its new bill would get. */
  datatype Listed = Listed(id: AssignmentId, row: Assignment, bill: BillId)

  function MonthlyBill(o: OwnerId, k: Month, x: Listed): Bill {
    RentBill(o, x.row.tenant, x.row.room, x.id, x.row.rent, MonthlyPeriod(k, x.row.dueDay))
  }

  /** The listed assignments that have no bill for the month. */
  function Missing(db: Db, k: Month, list: seq<Listed>): set<Listed> {
    set x | x in list && !MonthIndexed(db, x.id, k)
  }

  /** One of the new rows would break unique (owner, bill_number) or the primary key. */
  predicate Clashes(db: Db, o: OwnerId, k: Month, new': set<Listed>) {
    || (exists x :: x in new' && (x.bill in db.bills || NumberIndexed(db, o, NumberOf(k, x.id))))
    || (exists x, y :: x in new' && y in new' && x != y && (x.bill == y.bill || NumberOf(k, x.id) == NumberOf(k, y.id)))
  }

  function NewBills(o: OwnerId, k: Month, new': set<Listed>): map<BillId, Bill>
    requires forall x, y :: x in new' && y in new' && x != y ==> x.bill != y.bill
  {
    map x | x in new' :: x.bill := MonthlyBill(o, k, x)
  }

  function GenerateMonthly(db: Db, o: OwnerId, k: Month, list: seq<Listed>): Result<Db> {
    var new' := Missing(db, k, list);
    if Clashes(db, o, k, new') then Err(BillNumberTaken)
    else Ok(db.(bills := db.bills + NewBills(o, k, new')))
  }

  /** The bills MarkOverdue moves. */
  function OverdueRows(db: Db, o: OwnerId, today: Day): set<BillId> {
    set b | b in db.bills && db.bills[b].owner == o && db.bills[b].status == Unpaid && db.bills[b].due < today
  }

  // ----- payments

  /** The optional RFC 3339 text of a request. */
  datatype DateInput = Omitted | Malformed | Given(at: Instant)

  datatype ManualInput = ManualInput(
    bill: BillId, amount: int, date: DateInput, payMethod: string, reference: string, notes: string)

  /** Pays bill b in full and, for a pending assignment, activates the tenancy. */
  function Settle(db: Db, o: OwnerId, b: BillId, amount: int, date: Instant, payMethod: string,
                  reference: Option<string>, notes: Option<string>, paidAt: Instant, p: PaymentId): Result<Db> {
    if !HasBill(db, b, o) then Err(NotFound)
    else
      var bill := db.bills[b];
      if bill.status == Paid then Err(BillAlreadyPaid)
      else if bill.status == CancelledBill then Err(BillNotPayable)
      else if amount != bill.amount then Err(PaymentAmountMismatch)
      else if p in db.payments || PaymentIndexed(db, b) then Err(DuplicatePayment)
      else if !HasAssignment(db, bill.assignment, o) then Err(NotFound)
      else
        var paid := db.(
          payments := db.payments[p := Payment(o, b, bill.tenant, bill.room, amount, date, payMethod, reference, notes)],
          bills := db.bills[b := bill.(status := Paid, paidAt := Some(paidAt))]);
        var x := db.assignments[bill.assignment];
        if x.status != Pending then Ok(paid)
        else if !HasTenant(db, bill.tenant, o) then Err(NotFound)
        else if !HasRoom(db, bill.room, o) then Err(NotFound)
        else Ok(paid.(
                assignments := db.assignments[bill.assignment := x.(status := Active)],
                tenants := db.tenants[bill.tenant := db.tenants[bill.tenant].(status := ActiveTenant)],
                rooms := db.rooms[bill.room := db.rooms[bill.room].(status := Occupied)]))
  }

  function PaymentDate(d: DateInput, now: Instant): Option<Instant> {
    match d
    case Omitted => Some(now)
    case Malformed => None
    case Given(at) => Some(at)
  }

  function RecordManual(db: Db, o: OwnerId, i: ManualInput, now: Instant, p: PaymentId): Result<Db> {
    if i.payMethod !in ALLOWED_METHODS then Err(InvalidPaymentMethod)
    else
      match PaymentDate(i.date, now)
      case None => Err(InvalidPaymentDate)
      case Some(at) => Settle(db, o, i.bill, i.amount, at, i.payMethod, Optional(i.reference), Optional(i.notes), at, p)
  }

  function Approve(db: Db, o: OwnerId, s: SubmissionId, now: Instant, p: PaymentId): Result<Db> {
    if !HasSubmission(db, s, o) then Err(NotFound)
    else
      var sub := db.submissions[s];
      if sub.status != PendingReview then Err(SubmissionNotPending)
      else
        match Settle(db, o, sub.bill, sub.amount, sub.transferDate, sub.payMethod, sub.reference, None, now, p)
        case Err(e) => Err(e)
        case Ok(d) => Ok(d.(submissions := d.submissions[s := sub.(status := Approved, reviewedAt := Some(now))]))
  }

  // ----- gateway checkouts

  /** A provider's checkout lifetime; a configured value that is not positive means one day. */
  function Lifetime(ttl: int): (t: int)
    ensures t > 0
  {
    if ttl <= 0 then DAY_TICKS else ttl
  }

  function LiveCheckouts(db: Db, b: BillId, o: OwnerId, at: Instant): set<CheckoutId> {
    set c | c in db.checkouts && db.checkouts[c].bill == b && db.checkouts[c].owner == o && db.checkouts[c].expiresAt > at
  }

  function LiveRows(db: Db, b: BillId, o: OwnerId, at: Instant): map<CheckoutId, Checkout> {
    map c | c in LiveCheckouts(db, b, o, at) :: db.checkouts[c]
  }

  lemma {:induction false} SomeNewest(table: map<CheckoutId, Checkout>, ids: set<CheckoutId>) returns (c: CheckoutId)
    requires ids != {} && ids <= table.Keys
    ensures c in ids && forall e :: e in ids ==> table[e].createdAt <= table[c].createdAt
    decreases ids
  {
    c :| c in ids;
    if ids != {c} {
      var d := SomeNewest(table, ids - {c});
      if table[c].createdAt < table[d].createdAt { c := d; }
    }
  }

  lemma HasNewest(rows: map<CheckoutId, Checkout>)
    requires rows != map[]
    ensures exists c :: c in rows && forall e :: e in rows ==> rows[e].createdAt <= rows[c].createdAt
  {
    assert rows.Keys != {} by { var k :| k in rows; }
    var c := SomeNewest(rows, rows.Keys);
  }

  /** The first row in the order of creation, newest first. */
  ghost function NewestOf(rows: map<CheckoutId, Checkout>): (c: CheckoutId)
    requires rows != map[]
    ensures c in rows && forall e :: e in rows ==> rows[e].createdAt <= rows[c].createdAt
  {
    HasNewest(rows);
    var c :| c in rows && forall e :: e in rows ==> rows[e].createdAt <= rows[c].createdAt;
    c
  }

  /** c is a live checkout of the bill, and none was created later. */
  ghost predicate NewestLive(db: Db, o: OwnerId, b: BillId, at: Instant, c: CheckoutId) {
    && c in LiveCheckouts(db, b, o, at)
    && forall e :: e in LiveCheckouts(db, b, o, at) ==> db.checkouts[e].createdAt <= db.checkouts[c].createdAt
  }

  lemma NewestIsLive(db: Db, o: OwnerId, b: BillId, at: Instant)
    ensures var rows := LiveRows(db, b, o, at);
            && (rows == map[] <==> LiveCheckouts(db, b, o, at) == {})
            && (rows != map[] ==> NewestLive(db, o, b, at, NewestOf(rows)))
  {
    var rows, live := LiveRows(db, b, o, at), LiveCheckouts(db, b, o, at);
    assert rows.Keys == live;
    if rows != map[] { assert NewestOf(rows) in rows; }
  }

  /** known says that the request names no provider or the configured one. The clock is read once to look
      for a live checkout and again by the provider; the transaction began at startAt. */
  datatype PayInput = PayInput(
    tenant: TenantId, bill: BillId, known: bool, startAt: Instant, lookupAt: Instant, openAt: Instant, ttl: int)

  function NewCheckout(o: OwnerId, bill: Bill, i: PayInput): Checkout {
    Checkout(o, i.bill, bill.tenant, bill.amount, i.openAt, i.openAt + Lifetime(i.ttl), i.startAt)
  }

  function PayBill(db: Db, o: OwnerId, i: PayInput, c: CheckoutId): Result<Db> {
    if !i.known then Err(UnsupportedProvider)
    else if !HasBill(db, i.bill, o) || db.bills[i.bill].tenant != i.tenant then Err(NotFound)
    else
      var bill := db.bills[i.bill];
      if bill.status == Paid then Err(BillAlreadyPaid)
      else if bill.status == CancelledBill then Err(BillNotPayable)
      else if bill.status == GatewayPending && LiveCheckouts(db, i.bill, o, i.lookupAt) != {} then Ok(db)
      else if bill.amount <= 0 then Err(CheckoutRejected)
      else if c in db.checkouts then Err(DuplicateGatewayTransaction)
      else Ok(db.(checkouts := db.checkouts[c := NewCheckout(o, bill, i)],
                  bills := db.bills[i.bill := bill.(status := GatewayPending)]))
  }

  // ----- payment-proof submissions

  datatype ProofInput = NoProof | UnknownType | Recognised(key: string)

  datatype Claim = Claim(amount: int, payMethod: string, transferDate: DateInput, reference: string, proof: ProofInput)

  /** The checks Submit makes before it writes, against the bill it has just read. */
  function CheckClaim(db: Db, o: OwnerId, t: TenantId, b: BillId, c: Claim): Result<Submission> {
    if c.amount <= 0 then Err(SubmissionAmountMismatch)
    else if c.payMethod !in ALLOWED_METHODS then Err(InvalidPaymentMethod)
    else if !c.transferDate.Given? then Err(InvalidPaymentDate)
    else if c.proof == NoProof then Err(ProofRequired)
    else if c.proof == UnknownType then Err(ProofUnsupported)
    else if !HasBill(db, b, o) || db.bills[b].tenant != t then Err(NotFound)
    else if db.bills[b].status != Unpaid && db.bills[b].status != Overdue then Err(BillNotSubmittable)
    else if c.amount != db.bills[b].amount then Err(SubmissionAmountMismatch)
    else Ok(Submission(o, b, t, c.amount, c.payMethod, c.transferDate.at, Optional(c.reference), PendingReview, None, None))
  }

  function InsertSubmission(db: Db, sub: Submission, s: SubmissionId): Result<Db> {
    if s in db.submissions || PendingIndexed(db, sub.bill) then Err(DuplicatePendingSubmission)
    else Ok(db.(submissions := db.submissions[s := sub]))
  }

  function SetProof(db: Db, o: OwnerId, s: SubmissionId, key: string): Result<Db> {
    if !HasSubmission(db, s, o) then Err(NotFound)
    else Ok(db.(submissions := db.submissions[s := db.submissions[s].(proof := Some(key))]))
  }

  /** The clean-up after a failed upload; it checks no status and succeeds on a missing row. */
  function DeleteSubmission(db: Db, o: OwnerId, s: SubmissionId): Db {
    if HasSubmission(db, s, o) then db.(submissions := db.submissions - {s}) else db
  }

  /** A whole Submit call with nothing in between: stored says whether the upload worked,
      cleaned whether the clean-up after a failed upload did. */
  function Submit(db: Db, o: OwnerId, t: TenantId, b: BillId, c: Claim, s: SubmissionId, stored: bool, cleaned: bool)
    : (Db, Result<SubmissionId>)
  {
    match CheckClaim(db, o, t, b, c)
    case Err(e) => (db, Err(e))
    case Ok(sub) =>
      match InsertSubmission(db, sub, s)
      case Err(e) => (db, Err(e))
      case Ok(d) =>
        if !stored then (if cleaned then DeleteSubmission(d, o, s) else d, Err(ProofStoreFailed))
        else
          match SetProof(d, o, s, c.proof.key)
          case Err(e) => (d, Err(e))
          case Ok(d') => (d', Ok(s))
  }

  function Reject(db: Db, o: OwnerId, s: SubmissionId, reason: string, now: Instant): Result<Db> {
    if reason == "" then Err(RejectReasonRequired)
    else if !HasSubmission(db, s, o) then Err(NotFound)
    else if db.submissions[s].status != PendingReview then Err(SubmissionNotPending)
    else Ok(db.(submissions := db.submissions[s := db.submissions[s].(status := Rejected, reviewedAt := Some(now))]))
  }

  /** What a Reject call reports and leaves when it looked at the submission in the tables read and updates it
      in the tables db: no row updated means that the submission is no longer pending. */
  function RejectAfterRead(read: Db, db: Db, o: OwnerId, s: SubmissionId, reason: string, now: Instant): (Db, Result<()>) {
    if reason == "" then (db, Err(RejectReasonRequired))
    else if !HasSubmission(read, s, o) then (db, Err(NotFound))
    else if read.submissions[s].status != PendingReview then (db, Err(SubmissionNotPending))
    else
      match Reject(db, o, s, reason, now)
      case Ok(d) => (d, Ok(()))
      case Err(_) => (db, Err(SubmissionNotPending))
  }

  function CancelSubmission(db: Db, o: OwnerId, t: TenantId, s: SubmissionId): Result<Db> {
    if !HasSubmission(db, s, o) || db.submissions[s].tenant != t || db.submissions[s].status != PendingReview
    then Err(NotFound)
    else Ok(db.(submissions := db.submissions[s := db.submissions[s].(status := CancelledSubmission)]))
  }

  // ----- rooms and tenants

  /** Another room of the owner, deleted or not, has the number. */
  predicate RoomNumberIndexed(db: Db, o: OwnerId, number: string, r: RoomId) {
    exists x :: x in db.rooms && x != r && db.rooms[x].owner == o && db.rooms[x].number == number
  }

  function LowerCase(s: string): string {
    seq(|s|, i requires 0 <= i < |s| => if 'A' <= s[i] <= 'Z' then 'a' + (s[i] - 'A') else s[i])
  }

  /** The unique index on emails compares them in lower case. */
  predicate SameEmail(e: Option<string>, f: Option<string>) {
    e.Some? && f.Some? && LowerCase(e.value) == LowerCase(f.value)
  }

  /** Another tenant of any owner, not deleted, has the email. */
  predicate EmailIndexed(db: Db, email: Option<string>, t: TenantId) {
    exists x :: x in db.tenants && x != t && !db.tenants[x].deleted && SameEmail(db.tenants[x].email, email)
  }

  datatype RoomPatch = RoomPatch(number: Option<string>, rent: Option<int>, status: Option<RoomStatus>)

  /** An empty email text clears the column. */
  datatype TenantPatch = TenantPatch(email: Option<string>, status: Option<TenantStatus>)

  function CreateRoom(db: Db, o: OwnerId, number: string, rent: int, status: RoomStatus, r: RoomId): Result<Db> {
    if r in db.rooms || RoomNumberIndexed(db, o, number, r) then Err(RoomNumberTaken)
    else Ok(db.(rooms := db.rooms[r := Room(o, number, rent, status, false)]))
  }

  function Patched<T>(old': T, patch: Option<T>): T {
    match patch case None => old' case Some(v) => v
  }

  function PatchRoom(db: Db, o: OwnerId, r: RoomId, p: RoomPatch): Result<Db> {
    if !HasRoom(db, r, o) then Err(NotFound)
    else
      var x := db.rooms[r];
      if p.number.Some? && RoomNumberIndexed(db, o, p.number.value, r) then Err(RoomNumberTaken)
      else Ok(db.(rooms := db.rooms[r := x.(number := Patched(x.number, p.number), rent := Patched(x.rent, p.rent),
                                           status := Patched(x.status, p.status))]))
  }

  function SoftDeleteRoom(db: Db, o: OwnerId, r: RoomId): Result<Db> {
    if !HasRoom(db, r, o) then Err(NotFound)
    else Ok(db.(rooms := db.rooms[r := db.rooms[r].(deleted := true)]))
  }

  /** The room service's Delete with nothing between its check and its update. */
  function DeleteRoom(db: Db, o: OwnerId, r: RoomId): Result<Db> {
    if !HasRoom(db, r, o) then Err(NotFound)
    else if db.rooms[r].status == Occupied || db.rooms[r].status == Reserved then Err(RoomNotDeletable)
    else SoftDeleteRoom(db, o, r)
  }

  function CreateTenant(db: Db, o: OwnerId, email: string, t: TenantId): Result<Db> {
    if t in db.tenants || EmailIndexed(db, Optional(email), t) then Err(TenantEmailTaken)
    else Ok(db.(tenants := db.tenants[t := Tenant(o, Optional(email), AwaitingPayment, false)]))
  }

  function PatchTenant(db: Db, o: OwnerId, t: TenantId, p: TenantPatch): Result<Db> {
    if !HasTenant(db, t, o) then Err(NotFound)
    else
      var x := db.tenants[t];
      var email := if p.email.Some? then Optional(p.email.value) else x.email;
      if p.email.Some? && EmailIndexed(db, email, t) then Err(TenantEmailTaken)
      else Ok(db.(tenants := db.tenants[t := x.(email := email, status := Patched(x.status, p.status))]))
  }

  function SoftDeleteTenant(db: Db, o: OwnerId, t: TenantId): Result<Db> {
    if !HasTenant(db, t, o) then Err(NotFound)
    else Ok(db.(tenants := db.tenants[t := db.tenants[t].(deleted := true)]))
  }

  // ----- the alphabet of committed steps

  /** Every unit the database commits at once: the service transactions and the single statements.
      Generate carries the rows its list query returned earlier, InsertSubmission the row Submit
      built from the bill it read earlier, Overdue the rows one MarkOverdue statement reached. */
  datatype Op =
    | AssignOp(owner: OwnerId, assign: AssignInput, a: AssignmentId, b: BillId)
    | CancelOp(owner: OwnerId, a: AssignmentId)
    | GenerateOp(owner: OwnerId, month: Month, list: seq<Listed>)
    | OverdueOp(owner: OwnerId, today: Day, ids: set<BillId>)
    | RecordOp(owner: OwnerId, manual: ManualInput, now: Instant, p: PaymentId)
    | ApproveOp(owner: OwnerId, s: SubmissionId, now: Instant, p: PaymentId)
    | PayBillOp(owner: OwnerId, pay: PayInput, c: CheckoutId)
    | InsertSubmissionOp(owner: OwnerId, sub: Submission, s: SubmissionId)
    | SetProofOp(owner: OwnerId, s: SubmissionId, key: string)
    | DeleteSubmissionOp(owner: OwnerId, s: SubmissionId)
    | RejectOp(owner: OwnerId, s: SubmissionId, reason: string, now: Instant)
    | CancelSubmissionOp(owner: OwnerId, t: TenantId, s: SubmissionId)
    | CreateRoomOp(owner: OwnerId, number: string, rent: int, status: RoomStatus, r: RoomId)
    | PatchRoomOp(owner: OwnerId, r: RoomId, room: RoomPatch)
    | SoftDeleteRoomOp(owner: OwnerId, r: RoomId)
    | CreateTenantOp(owner: OwnerId, email: string, t: TenantId)
    | PatchTenantOp(owner: OwnerId, t: TenantId, tenant: TenantPatch)
    | SoftDeleteTenantOp(owner: OwnerId, t: TenantId)

  function Perform(db: Db, op: Op): Result<Db> {
    match op
    case AssignOp(o, i, a, b) => AssignRoom(db, o, i, a, b)
    case CancelOp(o, a) => CancelOnboarding(db, o, a)
    case GenerateOp(o, k, list) => GenerateMonthly(db, o, k, list)
    case OverdueOp(o, today, ids) => Ok(db.(bills := WithStatus(db.bills, ids, Overdue)))
    case RecordOp(o, i, now, p) => RecordManual(db, o, i, now, p)
    case ApproveOp(o, s, now, p) => Approve(db, o, s, now, p)
    case PayBillOp(o, i, c) => PayBill(db, o, i, c)
    case InsertSubmissionOp(o, sub, s) => InsertSubmission(db, sub, s)
    case SetProofOp(o, s, key) => SetProof(db, o, s, key)
    case DeleteSubmissionOp(o, s) => Ok(DeleteSubmission(db, o, s))
    case RejectOp(o, s, reason, now) => Reject(db, o, s, reason, now)
    case CancelSubmissionOp(o, t, s) => CancelSubmission(db, o, t, s)
    case CreateRoomOp(o, number, rent, status, r) => CreateRoom(db, o, number, rent, status, r)
    case PatchRoomOp(o, r, patch) => PatchRoom(db, o, r, patch)
    case SoftDeleteRoomOp(o, r) => SoftDeleteRoom(db, o, r)
    case CreateTenantOp(o, email, t) => CreateTenant(db, o, email, t)
    case PatchTenantOp(o, t, patch) => PatchTenant(db, o, t, patch)
    case SoftDeleteTenantOp(o, t) => SoftDeleteTenant(db, o, t)
  }

  function Apply(db: Db, op: Op): Db {
    match Perform(db, op)
    case Ok(d) => d
    case Err(_) => db
  }

  /** A listed row is this owner's, still as it was read, and no assignment is listed twice. */
  predicate ListedActive(db: Db, o: OwnerId, list: seq<Listed>) {
    && (forall x :: x in list ==>
          x.id in db.assignments && db.assignments[x.id] == x.row && x.row.owner == o && x.row.status == Active)
    && (forall x, y :: x in list && y in list && x.id == y.id ==> x == y)
  }

  /** The submission names a bill of its owner and tenant, for the full amount. */
  predicate SubmissionFits(db: Db, sub: Submission) {
    && HasBill(db, sub.bill, sub.owner) && db.bills[sub.bill].tenant == sub.tenant
    && sub.amount == db.bills[sub.bill].amount && sub.payMethod in ALLOWED_METHODS
    && sub.status == PendingReview && sub.reference != Some("")
  }

  /** What holds whenever the code takes such a step: the request bindings, and what the code
      checked against an earlier read. */
  predicate Enabled(db: Db, op: Op) {
    match op
    case AssignOp(o, i, a, b) => i.rent >= 1 && 1 <= i.dueDay <= 31
    case GenerateOp(o, k, list) => ListedActive(db, o, list)
    case OverdueOp(o, today, ids) => ids <= OverdueRows(db, o, today)
    case PayBillOp(o, i, c) => i.lookupAt <= i.openAt
    case InsertSubmissionOp(o, sub, s) => sub.owner == o && SubmissionFits(db, sub)
    case CreateRoomOp(o, number, rent, status, r) =>
      rent >= 1 && (status == Available || status == Maintenance || status == Inactive)
    case PatchTenantOp(o, t, patch) =>
      patch.status.Some? ==> patch.status.value == MovedOut || patch.status.value == CancelledTenant
    case _ => true
  }

  // ----- runs

  ghost function Replay(db: Db, ops: seq<Op>): Db {
    if ops == [] then db else Apply(Replay(db, ops[..|ops| - 1]), ops[|ops| - 1])
  }

  ghost predicate Legal(db: Db, ops: seq<Op>) {
    ops == [] || (Legal(db, ops[..|ops| - 1]) && Enabled(Replay(db, ops[..|ops| - 1]), ops[|ops| - 1]))
  }
}
