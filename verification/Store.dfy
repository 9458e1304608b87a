/** The services as they run one at a time: one store whose tables the methods update row by row.
    A transaction that returns early is rolled back to the tables it started from. */
module Store {
  import opened Types
  import opened Calendar
  import opened MonthText
  import opened Operations
  import opened Invariants
  import opened Preservation
  import opened Runs
  import opened Generation
  import opened Tenancies
  import opened Checkouts
  import opened Charges

  function Outcome<T>(x: Result<Db>, value: T): Result<T> {
    match x
    case Ok(_) => Ok(value)
    case Err(e) => Err(e)
  }

  /** A transaction body has done what x says, or has stopped with x's error and left its writes to be
      rolled back. */
  ghost predicate Did<T>(x: Result<Db>, after: Db, r: Result<T>) {
    match x
    case Ok(d) => r.Ok? && after == d
    case Err(e) => r == Err(e)
  }

  /** The owner's unpaid bills whose due day has ended at the instant now. */
  function PastDue(bills: map<BillId, Bill>, o: OwnerId, now: Instant): set<BillId> {
    set b | b in bills && bills[b].owner == o && bills[b].status == Unpaid && (bills[b].due + 1) * 86_400_000_000 <= now
  }

  lemma PastDueRows(db: Db, o: OwnerId, now: Instant)
    ensures OverdueRows(db, o, DayOf(now)) == PastDue(db.bills, o, now)
  {
    hide DayOf;
  }

  class Ledger {
    var rooms: map<RoomId, Room>
    var tenants: map<TenantId, Tenant>
    var assignments: map<AssignmentId, Assignment>
    var bills: map<BillId, Bill>
    var payments: map<PaymentId, Payment>
    var checkouts: map<CheckoutId, Checkout>
    var submissions: map<SubmissionId, Submission>

    function State(): Db
      reads this
    {
      Db(rooms, tenants, assignments, bills, payments, checkouts, submissions)
    }

    /** The tables are those of some run of the operations, so whatever holds in every reachable state
        holds of them. */
    ghost predicate Valid()
      reads this
    {
      Reachable(State())
    }

    constructor ()
      ensures Valid() && State() == EMPTY
    {
      rooms, tenants, assignments, bills := map[], map[], map[], map[];
      payments, checkouts, submissions := map[], map[], map[];
      new;
      EmptyReachable();
    }

    method Rollback(saved: Db)
      modifies this
      ensures State() == saved
    {
      rooms, tenants, assignments, bills := saved.rooms, saved.tenants, saved.assignments, saved.bills;
      payments, checkouts, submissions := saved.payments, saved.checkouts, saved.submissions;
    }

    // ----- row updates

    method SetRoomStatus(r: RoomId, o: OwnerId, status: RoomStatus) returns (ok: bool)
      modifies `rooms
      ensures ok == old(HasRoom(State(), r, o))
      ensures rooms == if ok then old(rooms)[r := old(rooms)[r].(status := status)] else old(rooms)
    {
      ok := HasRoom(State(), r, o);
      if ok { rooms := rooms[r := rooms[r].(status := status)]; }
    }

    method SetTenantStatus(t: TenantId, o: OwnerId, status: TenantStatus) returns (ok: bool)
      modifies `tenants
      ensures ok == old(HasTenant(State(), t, o))
      ensures tenants == if ok then old(tenants)[t := old(tenants)[t].(status := status)] else old(tenants)
    {
      ok := HasTenant(State(), t, o);
      if ok { tenants := tenants[t := tenants[t].(status := status)]; }
    }

    method SetAssignmentStatus(a: AssignmentId, o: OwnerId, status: AssignmentStatus) returns (ok: bool)
      modifies `assignments
      ensures ok == old(HasAssignment(State(), a, o))
      ensures assignments == if ok then old(assignments)[a := old(assignments)[a].(status := status)] else old(assignments)
    {
      ok := HasAssignment(State(), a, o);
      if ok { assignments := assignments[a := assignments[a].(status := status)]; }
    }

    method InsertPayment(p: PaymentId, x: Payment) returns (ok: bool)
      modifies `payments
      ensures ok == old(p !in payments && !PaymentIndexed(State(), x.bill))
      ensures payments == if ok then old(payments)[p := x] else old(payments)
    {
      ok := p !in payments && !PaymentIndexed(State(), x.bill);
      if ok { payments := payments[p := x]; }
    }

    method MarkBillPaid(b: BillId, o: OwnerId, paidAt: Instant) returns (ok: bool)
      modifies `bills
      ensures ok == old(HasBill(State(), b, o))
      ensures bills == if ok then old(bills)[b := old(bills)[b].(status := Paid, paidAt := Some(paidAt))] else old(bills)
    {
      ok := HasBill(State(), b, o);
      if ok { bills := bills[b := bills[b].(status := Paid, paidAt := Some(paidAt))]; }
    }

    // ----- onboarding

    method AssignInTransaction(o: OwnerId, i: AssignInput, a: AssignmentId, b: BillId)
      returns (r: Result<(AssignmentId, BillId)>)
      requires i.start.Some?
      modifies this
      ensures Did(Operations.AssignRoom(old(State()), o, i, a, b), State(), r) && (r.Ok? ==> r.value == (a, b))
    {
      hide RoomCounted, TenantCounted, RoomIndexed, TenantIndexed, NumberIndexed, MonthIndexed, FirstPeriod, NumberOf;
      hide Date;
      if !HasRoom(State(), i.room, o) { return Err(NotFound); }
      if rooms[i.room].status != Available { return Err(RoomNotAvailable); }
      if !HasTenant(State(), i.tenant, o) { return Err(NotFound); }
      if RoomCounted(State(), i.room, o) { return Err(RoomHasActiveAssignment); }
      if TenantCounted(State(), i.tenant, o) { return Err(TenantHasActiveAssignment); }
      if a in assignments || RoomIndexed(State(), i.room) { return Err(RoomHasActiveAssignment); }
      if TenantIndexed(State(), i.tenant) { return Err(TenantHasActiveAssignment); }
      assignments := assignments[a := NewAssignment(o, i)];
      var bill := FirstBill(o, i, a);
      if b in bills || NumberIndexed(State(), o, bill.number) || MonthIndexed(State(), a, bill.month) {
        BillIndexesOnly(old(State()), State(), o, a, bill.number, bill.month);
        return Err(DuplicateBill);
      }
      BillIndexesOnly(old(State()), State(), o, a, bill.number, bill.month);
      bills := bills[b := bill];
      var ok := SetRoomStatus(i.room, o, Reserved);
      if !ok { return Err(NotFound); }
      ok := SetTenantStatus(i.tenant, o, AwaitingPayment);
      if !ok { return Err(NotFound); }
      return Ok((a, b));
    }

    method AssignRoom(o: OwnerId, i: AssignInput, a: AssignmentId, b: BillId) returns (r: Result<(AssignmentId, BillId)>)
      requires Valid() && i.rent >= 1 && 1 <= i.dueDay <= 31
      modifies this
      ensures Valid() && State() == Apply(old(State()), AssignOp(o, i, a, b))
      ensures r == Outcome(Perform(old(State()), AssignOp(o, i, a, b)), (a, b))
      ensures r.Ok? ==>
                && i.start.Some? && a in assignments && AsRequested(assignments[a], o, i)
                && b in bills && BilledAsRequested(bills[b], o, i, a)
    {
      hide Reachable, AsRequested, BilledAsRequested;
      ReachableStep(State(), AssignOp(o, i, a, b));
      if Operations.AssignRoom(State(), o, i, a, b).Ok? { OnboardingStores(State(), o, i, a, b); }
      if i.start.None? { return Err(InvalidStartDate); }
      hide Operations.AssignRoom;
      var saved := State();
      r := AssignInTransaction(o, i, a, b);
      if r.Err? { Rollback(saved); }
    }

    method CancelInTransaction(o: OwnerId, a: AssignmentId) returns (r: Result<()>)
      modifies this
      ensures Did(Operations.CancelOnboarding(old(State()), o, a), State(), r) && (r.Ok? ==> r.value == ())
    {
      hide WithStatus, CollectibleBills;
      if !HasAssignment(State(), a, o) { return Err(NotFound); }
      var x := assignments[a];
      if x.status != Pending { return Err(OnboardingNotCancelable); }
      var ok := SetAssignmentStatus(a, o, CancelledAssignment);
      if !ok { return Err(NotFound); }
      CollectibleOnly(old(State()), State(), a, o);
      bills := WithStatus(bills, CollectibleBills(State(), a, o), CancelledBill);
      ok := SetRoomStatus(x.room, o, Available);
      if !ok { return Err(NotFound); }
      ok := SetTenantStatus(x.tenant, o, AwaitingPayment);
      if !ok { return Err(NotFound); }
      return Ok(());
    }

    method CancelOnboarding(o: OwnerId, a: AssignmentId) returns (r: Result<()>)
      requires Valid()
      modifies this
      ensures Valid() && State() == Apply(old(State()), CancelOp(o, a))
      ensures r == Outcome(Perform(old(State()), CancelOp(o, a)), ())
    {
      hide Reachable, Operations.CancelOnboarding;
      ReachableStep(State(), CancelOp(o, a));
      var saved := State();
      r := CancelInTransaction(o, a);
      if r.Err? { Rollback(saved); }
    }

    // ----- monthly billing

    /** The rows of the list query, oldest first, each with the id its new bill would be given. */
    method ActiveAssignments(o: OwnerId, draw: AssignmentId -> BillId) returns (list: seq<Listed>)
      ensures ListedActive(State(), o, list)
      ensures forall a :: a in assignments && assignments[a].owner == o && assignments[a].status == Active ==>
                Listed(a, assignments[a], draw(a)) in list
      ensures OldestFirst(list)
    {
      list := [];
      assert OldestFirst(list);
      hide OldestFirst;
      var rest := assignments.Keys;
      while rest != {}
        invariant rest <= assignments.Keys
        invariant ListedActive(State(), o, list)
        invariant forall x :: x in list ==> x.id !in rest && x.bill == draw(x.id)
        invariant forall x, a :: x in list && a in rest ==> x.row.createdAt <= assignments[a].createdAt
        invariant forall a :: a in assignments && a !in rest && assignments[a].owner == o && assignments[a].status == Active ==>
                    Listed(a, assignments[a], draw(a)) in list
        invariant OldestFirst(list)
        decreases rest
      {
        ghost var oldest := Oldest(assignments, rest);
        var a :| a in rest && forall c :: c in rest ==> assignments[a].createdAt <= assignments[c].createdAt;
        rest := rest - {a};
        if assignments[a].owner == o && assignments[a].status == Active {
          OldestFirstAppend(list, Listed(a, assignments[a], draw(a)));
          list := list + [Listed(a, assignments[a], draw(a))];
        }
      }
    }

    method InsertBillIfAbsent(o: OwnerId, k: Month, x: Listed) returns (r: Result<bool>)
      modifies `bills
      ensures var before, n := old(State()), NumberOf(k, x.id);
              if MonthIndexed(before, x.id, k) then r == Ok(false) && bills == before.bills
              else if x.bill in before.bills || NumberIndexed(before, o, n) then r == Err(BillNumberTaken) && bills == before.bills
              else r == Ok(true) && bills == before.bills[x.bill := MonthlyBill(o, k, x)]
    {
      hide MonthIndexed, NumberIndexed, NumberOf, MonthlyPeriod;
      if MonthIndexed(State(), x.id, k) { return Ok(false); }
      if x.bill in bills || NumberIndexed(State(), o, NumberOf(k, x.id)) { return Err(BillNumberTaken); }
      bills := bills[x.bill := MonthlyBill(o, k, x)];
      return Ok(true);
    }

    /** The loop: created counts the listed assignments that had no bill for the month, skipped the others. */
    method GenerateInTransaction(o: OwnerId, k: Month, list: seq<Listed>) returns (r: Result<(nat, nat)>)
      requires DistinctIds(list) && forall i, j :: 0 <= i < j < |list| ==> list[i] != list[j]
      modifies this
      ensures Did(Operations.GenerateMonthly(old(State()), o, k, list), State(), r)
      ensures r.Ok? ==> r.value.0 == |Missing(old(State()), k, list)| && r.value.0 + r.value.1 == |list|
    {
      hide Missing, Clashes, NewBills, WithNew, MonthIndexed, NumberIndexed, NumberOf, MonthlyBill;
      ghost var before := State();
      var created, skipped := 0, 0;
      NothingNew(before, o, k, list);
      for n := 0 to |list|
        invariant !Clashes(before, o, k, Missing(before, k, list[..n]))
        invariant State() == WithNew(before, o, k, Missing(before, k, list[..n]))
        invariant created == |Missing(before, k, list[..n])| && created + skipped == n
      {
        var x := list[n];
        ghost var done := Missing(before, k, list[..n]);
        OneMore(before, o, k, list, n);
        var inserted := InsertBillIfAbsent(o, k, x);
        if inserted.Err? { return Err(inserted.error); }
        if inserted.value { created := created + 1; } else { skipped := skipped + 1; }
      }
      assert list[..|list|] == list;
      WithNewIsRun(before, o, k, list);
      return Ok((created, skipped));
    }

    /** billingMonth is the request's text; an empty one means the clock's month. */
    method GenerateMonthly(o: OwnerId, billingMonth: string, now: Instant, draw: AssignmentId -> BillId)
      returns (r: Result<(nat, nat)>, ghost list: seq<Listed>)
      requires Valid() && 0 <= now
      modifies this
      ensures Valid()
      ensures (forall k :: !Means(billingMonth, now, k)) ==> r == Err(InvalidBillingMonth) && State() == old(State())
      ensures forall k :: Means(billingMonth, now, k) ==>
                && ListedActive(old(State()), o, list) && |list| == |ActiveIds(old(State()), o)|
                && State() == Apply(old(State()), GenerateOp(o, k, list))
                && r == Outcome(Perform(old(State()), GenerateOp(o, k, list)),
                                (|Missing(old(State()), k, list)|, |list| - |Missing(old(State()), k, list)|))
    {
      hide Reachable, Operations.GenerateMonthly, Missing, Format, Parse, MonthFirst, YearOf, Means;
      list := [];
      forall k: Month { RequestedIsMeant(billingMonth, now, k); }
      var text := billingMonth;
      if text == "" {
        var current := ClockMonth(now);
        if YearOf(current) > 9999 { return Err(InvalidBillingMonth), list; }
        text := Format(current);
        ParseFormat(current);
      }
      var month := Parse(text);
      if month.None? { return Err(InvalidBillingMonth), list; }
      var k := month.value;
      var listed := ActiveAssignments(o, draw);
      list := listed;
      ListCounts(State(), o, draw, listed);
      assert DistinctIds(listed);
      ReachableStep(State(), GenerateOp(o, k, listed));
      var saved := State();
      r := GenerateInTransaction(o, k, listed);
      if r.Err? { Rollback(saved); }
    }

    /** The owner's unpaid bills become overdue once the day they are due is over, by the clock's UTC day. */
    method MarkOverdue(o: OwnerId, now: Instant) returns (updated: nat)
      requires Valid()
      modifies this
      ensures Valid() && State() == old(State()).(bills := bills) && bills.Keys == old(bills).Keys
      ensures forall b :: b in bills ==> bills[b] == if b in PastDue(old(bills), o, now) then old(bills)[b].(status := Overdue) else old(bills)[b]
      ensures updated == |PastDue(old(bills), o, now)| && PastDue(bills, o, now) == {}
    {
      hide Reachable, DayOf;
      var today := DayOf(now);
      var ids := OverdueRows(State(), o, today);
      PastDueRows(State(), o, now);
      ReachableStep(State(), OverdueOp(o, today, ids));
      bills := WithStatus(bills, ids, Overdue);
      updated := |ids|;
    }

    // ----- payments

    method RecordInTransaction(o: OwnerId, i: ManualInput, now: Instant, at: Instant, p: PaymentId)
      returns (r: Result<Payment>)
      requires i.payMethod in ALLOWED_METHODS && PaymentDate(i.date, now) == Some(at)
      modifies this
      ensures Did(Operations.RecordManual(old(State()), o, i, now, p), State(), r)
      ensures r.Ok? ==> p in payments && r.value == payments[p]
    {
      hide PaymentIndexed;
      if !HasBill(State(), i.bill, o) { return Err(NotFound); }
      var bill := bills[i.bill];
      if bill.status == Paid { return Err(BillAlreadyPaid); }
      if bill.status == CancelledBill { return Err(BillNotPayable); }
      if i.amount != bill.amount { return Err(PaymentAmountMismatch); }
      var payment := Payment(o, i.bill, bill.tenant, bill.room, i.amount, at, i.payMethod,
                             Optional(i.reference), Optional(i.notes));
      var ok := InsertPayment(p, payment);
      if !ok { return Err(DuplicatePayment); }
      ok := MarkBillPaid(i.bill, o, at);
      if !ok { return Err(NotFound); }
      if !HasAssignment(State(), bill.assignment, o) { return Err(NotFound); }
      if assignments[bill.assignment].status == Pending {
        ok := SetAssignmentStatus(bill.assignment, o, Active);
        if !ok { return Err(NotFound); }
        ok := SetTenantStatus(bill.tenant, o, ActiveTenant);
        if !ok { return Err(NotFound); }
        ok := SetRoomStatus(bill.room, o, Occupied);
        if !ok { return Err(NotFound); }
      }
      return Ok(payment);
    }

    method RecordManual(o: OwnerId, i: ManualInput, now: Instant, p: PaymentId) returns (r: Result<Payment>)
      requires Valid()
      modifies this
      ensures Valid() && State() == Apply(old(State()), RecordOp(o, i, now, p))
      ensures match Perform(old(State()), RecordOp(o, i, now, p))
              case Err(e) => r == Err(e)
              case Ok(d) => p in d.payments && r == Ok(d.payments[p])
      ensures r.Ok? ==>
                && (i.date == Omitted ==> r.value.date == now) && (i.date.Given? ==> r.value.date == i.date.at)
                && i.bill in bills && bills[i.bill].paidAt == Some(r.value.date)
                && Holds(r.value.reference, i.reference) && Holds(r.value.notes, i.notes)
    {
      hide Reachable, Settle, Settled, Activated, Holds;
      ReachableStep(State(), RecordOp(o, i, now, p));
      if Operations.RecordManual(State(), o, i, now, p).Ok? { RecordStores(State(), o, i, now, p); }
      if i.payMethod !in ALLOWED_METHODS { return Err(InvalidPaymentMethod); }
      var at := now;
      match i.date {
        case Omitted =>
        case Malformed => return Err(InvalidPaymentDate);
        case Given(given) => at := given;
      }
      hide Operations.RecordManual;
      var saved := State();
      r := RecordInTransaction(o, i, now, at, p);
      if r.Err? { Rollback(saved); }
    }

    method ApproveInTransaction(o: OwnerId, s: SubmissionId, now: Instant, p: PaymentId) returns (r: Result<Payment>)
      modifies this
      ensures Did(Operations.Approve(old(State()), o, s, now, p), State(), r)
      ensures r.Ok? ==> p in payments && r.value == payments[p]
    {
      hide PaymentIndexed;
      if !HasSubmission(State(), s, o) { return Err(NotFound); }
      var sub := submissions[s];
      if sub.status != PendingReview { return Err(SubmissionNotPending); }
      if !HasBill(State(), sub.bill, o) { return Err(NotFound); }
      var bill := bills[sub.bill];
      if bill.status == Paid { return Err(BillAlreadyPaid); }
      if bill.status == CancelledBill { return Err(BillNotPayable); }
      if sub.amount != bill.amount { return Err(PaymentAmountMismatch); }
      var payment := Payment(o, sub.bill, bill.tenant, bill.room, sub.amount, sub.transferDate, sub.payMethod,
                             sub.reference, None);
      var ok := InsertPayment(p, payment);
      if !ok { return Err(DuplicatePayment); }
      ok := MarkBillPaid(sub.bill, o, now);
      if !ok { return Err(NotFound); }
      submissions := submissions[s := submissions[s].(status := Approved, reviewedAt := Some(now))];
      if !HasAssignment(State(), bill.assignment, o) { return Err(NotFound); }
      if assignments[bill.assignment].status == Pending {
        ok := SetAssignmentStatus(bill.assignment, o, Active);
        if !ok { return Err(NotFound); }
        ok := SetTenantStatus(bill.tenant, o, ActiveTenant);
        if !ok { return Err(NotFound); }
        ok := SetRoomStatus(bill.room, o, Occupied);
        if !ok { return Err(NotFound); }
      }
      return Ok(payment);
    }

    method Approve(o: OwnerId, s: SubmissionId, now: Instant, p: PaymentId) returns (r: Result<Payment>)
      requires Valid()
      modifies this
      ensures Valid() && State() == Apply(old(State()), ApproveOp(o, s, now, p))
      ensures match Perform(old(State()), ApproveOp(o, s, now, p))
              case Err(e) => r == Err(e)
              case Ok(d) => p in d.payments && r == Ok(d.payments[p])
      ensures r.Ok? ==>
                && s in old(submissions) && PaysClaim(r.value, old(submissions)[s])
                && r.value.bill in bills && bills[r.value.bill].paidAt == Some(now)
    {
      hide Reachable, Operations.Approve, Settled, Activated;
      ReachableStep(State(), ApproveOp(o, s, now, p));
      if Operations.Approve(State(), o, s, now, p).Ok? { ApproveStores(State(), o, s, now, p); }
      var saved := State();
      r := ApproveInTransaction(o, s, now, p);
      if r.Err? { Rollback(saved); }
    }

    // ----- gateway checkouts

    method PayInTransaction(o: OwnerId, i: PayInput, c: CheckoutId) returns (r: Result<CheckoutId>)
      requires i.known && i.lookupAt <= i.openAt
      modifies this
      ensures Did(Operations.PayBill(old(State()), o, i, c), State(), r)
      ensures r.Ok? ==> r.value in checkouts && r.value in LiveCheckouts(State(), i.bill, o, i.lookupAt)
      ensures r.Ok? && r.value in old(checkouts) ==> checkouts == old(checkouts) && NewestLive(State(), o, i.bill, i.lookupAt, r.value)
    {
      if !HasBill(State(), i.bill, o) || bills[i.bill].tenant != i.tenant { return Err(NotFound); }
      var bill := bills[i.bill];
      if bill.status == Paid { return Err(BillAlreadyPaid); }
      if bill.status == CancelledBill { return Err(BillNotPayable); }
      if bill.status == GatewayPending {
        var live := LiveCheckouts(State(), i.bill, o, i.lookupAt);
        if live != {} {
          NewestIsLive(State(), o, i.bill, i.lookupAt);
          ghost var newest := NewestOf(LiveRows(State(), i.bill, o, i.lookupAt));
          var existing :| existing in live && forall e :: e in live ==> checkouts[e].createdAt <= checkouts[existing].createdAt;
          return Ok(existing);
        }
      }
      if bill.amount <= 0 { return Err(CheckoutRejected); }
      if c in checkouts { return Err(DuplicateGatewayTransaction); }
      checkouts := checkouts[c := NewCheckout(o, bill, i)];
      bills := bills[i.bill := bills[i.bill].(status := GatewayPending)];
      return Ok(c);
    }

    /** The checkout handed out is the newest live one and for the bill's amount (BR-022); if no checkout was
        opened later than the clock now shows, the bill has no other live one (BR-021). */
    method PayBill(o: OwnerId, i: PayInput, c: CheckoutId) returns (r: Result<CheckoutId>)
      requires Valid() && i.lookupAt <= i.openAt
      modifies this
      ensures Valid() && State() == Apply(old(State()), PayBillOp(o, i, c))
      ensures r.Err? == Perform(old(State()), PayBillOp(o, i, c)).Err?
      ensures r.Err? ==> r.error == Perform(old(State()), PayBillOp(o, i, c)).error
      ensures r.Ok? ==>
                && NewestLive(State(), o, i.bill, i.lookupAt, r.value)
                && i.bill in bills && checkouts[r.value].amount == bills[i.bill].amount
                && (OpenedBy(old(checkouts), i.lookupAt) ==>
                      && LiveCheckouts(State(), i.bill, o, i.lookupAt) == {r.value}
                      && LiveCheckouts(State(), i.bill, o, i.openAt) <= {r.value})
      ensures r.Ok? && r.value !in old(checkouts) ==>
                checkouts[r.value].openedAt == i.openAt && checkouts[r.value].expiresAt == ExpiryOf(i)
    {
      hide Reachable, Operations.PayBill, OpenedBy, LiveCheckouts, NewestLive;
      ReachableStep(State(), PayBillOp(o, i, c));
      if !i.known { UnknownProvider(State(), o, i, c); return Err(UnsupportedProvider); }
      ghost var went := Perform(State(), PayBillOp(o, i, c)).Ok?;
      if went { PayBillAddsOne(State(), o, i, c); }
      if went && Apply(State(), PayBillOp(o, i, c)) != State() { CheckoutStores(State(), o, i, c); }
      hide Lifetime;
      var saved := State();
      r := PayInTransaction(o, i, c);
      if r.Err? {
        Rollback(saved);
      } else {
        if r.value !in saved.checkouts { NewIsOnlyLive(saved, o, i, c, State()); }
        CheckoutOfBill(State(), o, i, r.value);
        if OpenedBy(saved.checkouts, i.lookupAt) { OnlyLive(saved.checkouts, State(), o, i, c, r.value); }
      }
    }

    // ----- submissions

    /** stored and cleaned are the outcomes of the upload and of the clean-up after a failed upload. */
    method Submit(o: OwnerId, t: TenantId, b: BillId, c: Claim, s: SubmissionId, stored: bool, cleaned: bool)
      returns (r: Result<SubmissionId>)
      requires Valid()
      modifies this
      ensures Valid() && (State(), r) == Operations.Submit(old(State()), o, t, b, c, s, stored, cleaned)
      ensures r.Ok? ==>
                && s in submissions && StatesClaim(submissions[s], o, t, b, c)
                && c.proof.Recognised? && submissions[s].proof == Some(c.proof.key)
    {
      hide Reachable, PendingIndexed;
      if c.amount <= 0 { return Err(SubmissionAmountMismatch); }
      if c.payMethod !in ALLOWED_METHODS { return Err(InvalidPaymentMethod); }
      if !c.transferDate.Given? { return Err(InvalidPaymentDate); }
      if c.proof == NoProof { return Err(ProofRequired); }
      if c.proof == UnknownType { return Err(ProofUnsupported); }
      if !HasBill(State(), b, o) || bills[b].tenant != t { return Err(NotFound); }
      if bills[b].status != Unpaid && bills[b].status != Overdue { return Err(BillNotSubmittable); }
      if c.amount != bills[b].amount { return Err(SubmissionAmountMismatch); }
      var sub := Submission(o, b, t, c.amount, c.payMethod, c.transferDate.at, Optional(c.reference), PendingReview,
                            None, None);
      if s in submissions || PendingIndexed(State(), b) { return Err(DuplicatePendingSubmission); }
      ReachableStep(State(), InsertSubmissionOp(o, sub, s));
      submissions := submissions[s := sub];
      if !stored {
        ReachableStep(State(), DeleteSubmissionOp(o, s));
        if cleaned { submissions := submissions - {s}; }
        return Err(ProofStoreFailed);
      }
      ReachableStep(State(), SetProofOp(o, s, c.proof.key));
      submissions := submissions[s := sub.(proof := Some(c.proof.key))];
      return Ok(s);
    }

    /** The update itself: only a row still pending matches. */
    method MarkRejected(s: SubmissionId, o: OwnerId, now: Instant) returns (ok: bool)
      modifies `submissions
      ensures ok == old(HasSubmission(State(), s, o) && submissions[s].status == PendingReview)
      ensures submissions ==
              if ok then old(submissions)[s := old(submissions)[s].(status := Rejected, reviewedAt := Some(now))] else old(submissions)
    {
      ok := HasSubmission(State(), s, o) && submissions[s].status == PendingReview;
      if ok { submissions := submissions[s := submissions[s].(status := Rejected, reviewedAt := Some(now))]; }
    }

    /** The read and the update; StaleReject is about steps between them. */
    method Reject(o: OwnerId, s: SubmissionId, reason: string, now: Instant) returns (r: Result<()>)
      requires Valid()
      modifies this
      ensures Valid() && (State(), r) == RejectAfterRead(old(State()), old(State()), o, s, reason, now)
      ensures State() == Apply(old(State()), RejectOp(o, s, reason, now))
      ensures r == Outcome(Perform(old(State()), RejectOp(o, s, reason, now)), ())
    {
      hide Reachable;
      ReachableStep(State(), RejectOp(o, s, reason, now));
      if reason == "" { return Err(RejectReasonRequired); }
      if !HasSubmission(State(), s, o) { return Err(NotFound); }
      if submissions[s].status != PendingReview { return Err(SubmissionNotPending); }
      var ok := MarkRejected(s, o, now);
      if !ok { return Err(SubmissionNotPending); }
      return Ok(());
    }

    method CancelSubmission(o: OwnerId, t: TenantId, s: SubmissionId) returns (r: Result<()>)
      requires Valid()
      modifies this
      ensures Valid() && State() == Apply(old(State()), CancelSubmissionOp(o, t, s))
      ensures r == Outcome(Perform(old(State()), CancelSubmissionOp(o, t, s)), ())
    {
      hide Reachable;
      ReachableStep(State(), CancelSubmissionOp(o, t, s));
      if !HasSubmission(State(), s, o) || submissions[s].tenant != t || submissions[s].status != PendingReview {
        return Err(NotFound);
      }
      submissions := submissions[s := submissions[s].(status := CancelledSubmission)];
      return Ok(());
    }

    // ----- rooms and tenants

    method CreateRoom(o: OwnerId, number: string, rent: int, status: RoomStatus, r: RoomId) returns (result: Result<RoomId>)
      requires Valid() && rent >= 1 && (status == Available || status == Maintenance || status == Inactive)
      modifies this
      ensures Valid() && State() == Apply(old(State()), CreateRoomOp(o, number, rent, status, r))
      ensures result == Outcome(Perform(old(State()), CreateRoomOp(o, number, rent, status, r)), r)
    {
      hide Reachable, RoomNumberIndexed;
      ReachableStep(State(), CreateRoomOp(o, number, rent, status, r));
      if r in rooms || RoomNumberIndexed(State(), o, number, r) { return Err(RoomNumberTaken); }
      rooms := rooms[r := Room(o, number, rent, status, false)];
      return Ok(r);
    }

    method UpdateRoom(o: OwnerId, r: RoomId, patch: RoomPatch) returns (result: Result<RoomId>)
      requires Valid()
      modifies this
      ensures Valid() && State() == Apply(old(State()), PatchRoomOp(o, r, patch))
      ensures result == Outcome(Perform(old(State()), PatchRoomOp(o, r, patch)), r)
    {
      hide Reachable, RoomNumberIndexed;
      ReachableStep(State(), PatchRoomOp(o, r, patch));
      if !HasRoom(State(), r, o) { return Err(NotFound); }
      var room := rooms[r];
      if patch.number.Some? {
        if RoomNumberIndexed(State(), o, patch.number.value, r) { return Err(RoomNumberTaken); }
        room := room.(number := patch.number.value);
      }
      if patch.rent.Some? { room := room.(rent := patch.rent.value); }
      if patch.status.Some? { room := room.(status := patch.status.value); }
      rooms := rooms[r := room];
      return Ok(r);
    }

    method DeleteRoom(o: OwnerId, r: RoomId) returns (result: Result<()>)
      requires Valid()
      modifies this
      ensures Valid()
      ensures result == Outcome(Operations.DeleteRoom(old(State()), o, r), ())
      ensures State() == if result.Ok? then Apply(old(State()), SoftDeleteRoomOp(o, r)) else old(State())
    {
      hide Reachable;
      ReachableStep(State(), SoftDeleteRoomOp(o, r));
      if !HasRoom(State(), r, o) { return Err(NotFound); }
      if rooms[r].status == Occupied || rooms[r].status == Reserved { return Err(RoomNotDeletable); }
      rooms := rooms[r := rooms[r].(deleted := true)];
      return Ok(());
    }

    method CreateTenant(o: OwnerId, email: string, t: TenantId) returns (result: Result<TenantId>)
      requires Valid()
      modifies this
      ensures Valid() && State() == Apply(old(State()), CreateTenantOp(o, email, t))
      ensures result == Outcome(Perform(old(State()), CreateTenantOp(o, email, t)), t)
    {
      hide Reachable, EmailIndexed;
      ReachableStep(State(), CreateTenantOp(o, email, t));
      if t in tenants || EmailIndexed(State(), Optional(email), t) { return Err(TenantEmailTaken); }
      tenants := tenants[t := Tenant(o, Optional(email), AwaitingPayment, false)];
      return Ok(t);
    }

    method UpdateTenant(o: OwnerId, t: TenantId, patch: TenantPatch) returns (result: Result<TenantId>)
      requires Valid() && (patch.status.Some? ==> patch.status.value == MovedOut || patch.status.value == CancelledTenant)
      modifies this
      ensures Valid() && State() == Apply(old(State()), PatchTenantOp(o, t, patch))
      ensures result == Outcome(Perform(old(State()), PatchTenantOp(o, t, patch)), t)
    {
      hide Reachable, EmailIndexed;
      ReachableStep(State(), PatchTenantOp(o, t, patch));
      if !HasTenant(State(), t, o) { return Err(NotFound); }
      var tenant := tenants[t];
      if patch.email.Some? {
        if EmailIndexed(State(), Optional(patch.email.value), t) { return Err(TenantEmailTaken); }
        tenant := tenant.(email := Optional(patch.email.value));
      }
      if patch.status.Some? { tenant := tenant.(status := patch.status.value); }
      tenants := tenants[t := tenant];
      return Ok(t);
    }

    method DeleteTenant(o: OwnerId, t: TenantId) returns (ok: bool)
      requires Valid()
      modifies this
      ensures Valid() && State() == Apply(old(State()), SoftDeleteTenantOp(o, t))
      ensures ok == Perform(old(State()), SoftDeleteTenantOp(o, t)).Ok?
    {
      hide Reachable;
      ReachableStep(State(), SoftDeleteTenantOp(o, t));
      ok := HasTenant(State(), t, o);
      if ok { tenants := tenants[t := tenants[t].(deleted := true)]; }
    }
  }

  function ActiveIds(db: Db, o: OwnerId): set<AssignmentId> {
    set a | a in db.assignments && db.assignments[a].owner == o && db.assignments[a].status == Active
  }

  lemma ListCounts(db: Db, o: OwnerId, draw: AssignmentId -> BillId, list: seq<Listed>)
    requires ListedActive(db, o, list)
    requires forall a :: a in ActiveIds(db, o) ==> Listed(a, db.assignments[a], draw(a)) in list
    requires forall i, j :: 0 <= i < j < |list| ==> list[i] != list[j]
    ensures |list| == |ActiveIds(db, o)|
  {
    forall i, j | 0 <= i < j < |list| ensures list[i].id != list[j].id {
      assert list[i] in list && list[j] in list;
    }
    forall a | a in ActiveIds(db, o) ensures Names(list, a) {
      var n :| 0 <= n < |list| && list[n] == Listed(a, db.assignments[a], draw(a));
    }
    NamedOnce(list, ActiveIds(db, o));
  }

  ghost predicate Names(list: seq<Listed>, a: AssignmentId) {
    exists n :: 0 <= n < |list| && list[n].id == a
  }

  lemma {:induction false} NamedOnce(list: seq<Listed>, ids: set<AssignmentId>)
    requires forall i, j :: 0 <= i < j < |list| ==> list[i].id != list[j].id
    requires forall i :: 0 <= i < |list| ==> list[i].id in ids
    requires forall a :: a in ids ==> Names(list, a)
    ensures |list| == |ids|
  {
    if list == [] {
      assert ids == {};
    } else {
      var front, last := list[..|list| - 1], list[|list| - 1].id;
      forall a | a in ids - {last} ensures Names(front, a) {
        var n :| 0 <= n < |list| && list[n].id == a;
        assert front[n].id == a;
      }
      NamedOnce(front, ids - {last});
    }
  }

  lemma UnknownProvider(db: Db, o: OwnerId, i: PayInput, c: CheckoutId)
    requires !i.known
    ensures Perform(db, PayBillOp(o, i, c)) == Err(UnsupportedProvider)
  {
  }

  /** No row twice, in the order of their creation. */
  ghost predicate OldestFirst(list: seq<Listed>) {
    forall i, j :: 0 <= i < j < |list| ==> list[i] != list[j] && list[i].row.createdAt <= list[j].row.createdAt
  }

  lemma OldestFirstAppend(list: seq<Listed>, x: Listed)
    requires OldestFirst(list) && forall y :: y in list ==> y != x && y.row.createdAt <= x.row.createdAt
    ensures OldestFirst(list + [x])
  {
  }

  lemma {:induction false} Oldest(table: map<AssignmentId, Assignment>, rest: set<AssignmentId>) returns (a: AssignmentId)
    requires rest != {} && rest <= table.Keys
    ensures a in rest && forall c :: c in rest ==> table[a].createdAt <= table[c].createdAt
    decreases rest
  {
    a :| a in rest;
    if rest != {a} {
      var b := Oldest(table, rest - {a});
      if table[b].createdAt < table[a].createdAt { a := b; }
    }
  }

  lemma CheckoutOfBill(db: Db, o: OwnerId, i: PayInput, c: CheckoutId)
    requires Reachable(db) && NewestLive(db, o, i.bill, i.lookupAt, c)
    ensures c in db.checkouts && i.bill in db.bills && db.checkouts[c].amount == db.bills[i.bill].amount
  {
    hide Reachable;
    CheckoutTerms(db, c);
  }

  ghost predicate OpenedBy(table: map<CheckoutId, Checkout>, at: Instant) {
    forall c :: c in table ==> table[c].openedAt <= at
  }

  lemma PayBillAddsOne(db: Db, o: OwnerId, i: PayInput, c: CheckoutId)
    requires Perform(db, PayBillOp(o, i, c)).Ok?
    ensures var table := Perform(db, PayBillOp(o, i, c)).value.checkouts;
            forall x :: x in table && x !in db.checkouts ==> x == c && table[x].openedAt == i.openAt
    ensures var table := Perform(db, PayBillOp(o, i, c)).value.checkouts;
            forall x :: x in db.checkouts ==> x in table && table[x] == db.checkouts[x]
  {
    hide LiveCheckouts, Lifetime;
  }

  /** Any other live checkout would overlap r. */
  lemma OnlyLive(before: map<CheckoutId, Checkout>, d: Db, o: OwnerId, i: PayInput, c: CheckoutId, r: CheckoutId)
    requires Reachable(d) && i.lookupAt <= i.openAt && OpenedBy(before, i.lookupAt) && NewestLive(d, o, i.bill, i.lookupAt, r)
    requires forall x :: x in before ==> x in d.checkouts && d.checkouts[x] == before[x]
    requires forall x :: x in d.checkouts && x !in before ==> x == c && d.checkouts[x].openedAt == i.openAt
    requires if r in before then d.checkouts == before else LiveCheckouts(d, i.bill, o, i.lookupAt) == {r}
    ensures LiveCheckouts(d, i.bill, o, i.lookupAt) == {r} && LiveCheckouts(d, i.bill, o, i.openAt) <= {r}
  {
    hide Reachable;
    CheckoutTerms(d, r);
    forall x | x in LiveCheckouts(d, i.bill, o, i.lookupAt) ensures x == r {
      if r in before { OneLiveCheckout(d, x, r, i.lookupAt); }
    }
    assert LiveCheckouts(d, i.bill, o, i.openAt) <= LiveCheckouts(d, i.bill, o, i.lookupAt);
  }

  lemma CollectibleOnly(db: Db, d: Db, a: AssignmentId, o: OwnerId)
    requires d.bills == db.bills
    ensures CollectibleBills(d, a, o) == CollectibleBills(db, a, o)
  {
  }

  lemma NothingNew(db: Db, o: OwnerId, k: Month, list: seq<Listed>)
    ensures Missing(db, k, list[..0]) == {} && !Clashes(db, o, k, {}) && WithNew(db, o, k, {}) == db
  {
    hide NumberOf, MonthlyBill, MonthIndexed;
    assert db.bills + NewBills(o, k, {}) == db.bills;
  }

  lemma WithNewIsRun(db: Db, o: OwnerId, k: Month, list: seq<Listed>)
    requires !Clashes(db, o, k, Missing(db, k, list))
    ensures GenerateMonthly(db, o, k, list) == Ok(WithNew(db, o, k, Missing(db, k, list)))
  {
    hide Missing, NewBills;
  }

  /** What the insert of the n-th listed row meets, and what the tables are after it. */
  lemma OneMore(db: Db, o: OwnerId, k: Month, list: seq<Listed>, n: nat)
    requires n < |list| && DistinctIds(list) && forall i, j :: 0 <= i < j < |list| ==> list[i] != list[j]
    requires !Clashes(db, o, k, Missing(db, k, list[..n]))
    ensures var x, done, next := list[n], Missing(db, k, list[..n]), Missing(db, k, list[..n + 1]);
            var d := WithNew(db, o, k, done);
            if MonthIndexed(d, x.id, k) then next == done
            else
              && next == done + {x} && x !in done && |next| == |done| + 1
              && (x.bill in d.bills || NumberIndexed(d, o, NumberOf(k, x.id)) <==> Clashes(db, o, k, next))
              && (Clashes(db, o, k, next) ==> GenerateMonthly(db, o, k, list) == Err(BillNumberTaken))
              && (!Clashes(db, o, k, next) ==>
                    WithNew(db, o, k, next) == d.(bills := d.bills[x.bill := MonthlyBill(o, k, x)]))
  {
    hide Clashes, NewBills, WithNew, MonthIndexed, NumberIndexed, NumberOf, MonthlyBill, Missing;
    var x, done, next := list[n], Missing(db, k, list[..n]), Missing(db, k, list[..n + 1]);
    MissingGrows(db, k, list, n + 1);
    assert x !in list[..n];
    forall y | y in done ensures y in list && y != x { IsListed(db, k, list[..n], y); }
    MonthInside(db, o, k, done, x);
    if !MonthIndexed(WithNew(db, o, k, done), x.id, k) {
      ClashInside(db, o, k, done, x);
      if Clashes(db, o, k, next) {
        PrefixMissing(db, k, list, n + 1);
        ClashGrows(db, o, k, next, Missing(db, k, list));
        ClashRefuses(db, o, k, list);
      } else {
        NewBillsAdd(db, o, k, done, x);
        WithOneMore(db, o, k, done, x);
      }
    }
  }

  lemma PrefixMissing(db: Db, k: Month, list: seq<Listed>, n: nat)
    requires n <= |list|
    ensures Missing(db, k, list[..n]) <= Missing(db, k, list)
  {
  }

  lemma ClashRefuses(db: Db, o: OwnerId, k: Month, list: seq<Listed>)
    requires Clashes(db, o, k, Missing(db, k, list))
    ensures GenerateMonthly(db, o, k, list) == Err(BillNumberTaken)
  {
  }

  lemma WithOneMore(db: Db, o: OwnerId, k: Month, done: set<Listed>, x: Listed)
    requires !Clashes(db, o, k, done) && !Clashes(db, o, k, done + {x})
    requires NewBills(o, k, done + {x}) == NewBills(o, k, done)[x.bill := MonthlyBill(o, k, x)]
    ensures var d := WithNew(db, o, k, done);
            WithNew(db, o, k, done + {x}) == d.(bills := d.bills[x.bill := MonthlyBill(o, k, x)])
  {
    hide Clashes, NewBills, MonthlyBill;
  }

  lemma BillIndexesOnly(db: Db, d: Db, o: OwnerId, a: AssignmentId, n: BillNumber, k: Month)
    requires d.bills == db.bills
    ensures NumberIndexed(d, o, n) == NumberIndexed(db, o, n) && MonthIndexed(d, a, k) == MonthIndexed(db, a, k)
  {
  }
}
