/** Owners do not see each other (BR-001): the ledger is a product of one ledger per owner. */
module Isolation {
  import opened Types
  import opened Calendar
  import opened Operations
  import opened Invariants
  import opened Preservation
  import opened Runs
  import Protocol

  function Own<V>(m: map<nat, V>, f: V -> bool): map<nat, V> {
    map k | k in m && f(m[k]) :: m[k]
  }

  function OfRoom(o: OwnerId): Room -> bool { (x: Room) => x.owner == o }
  function OfTenant(o: OwnerId): Tenant -> bool { (x: Tenant) => x.owner == o }
  function OfAssignment(o: OwnerId): Assignment -> bool { (x: Assignment) => x.owner == o }
  function OfBill(o: OwnerId): Bill -> bool { (x: Bill) => x.owner == o }
  function OfPayment(o: OwnerId): Payment -> bool { (x: Payment) => x.owner == o }
  function OfCheckout(o: OwnerId): Checkout -> bool { (x: Checkout) => x.owner == o }
  function OfSubmission(o: OwnerId): Submission -> bool { (x: Submission) => x.owner == o }

  /** One owner's rows. */
  function Project(db: Db, o: OwnerId): Db {
    Db(Own(db.rooms, OfRoom(o)), Own(db.tenants, OfTenant(o)), Own(db.assignments, OfAssignment(o)),
       Own(db.bills, OfBill(o)), Own(db.payments, OfPayment(o)), Own(db.checkouts, OfCheckout(o)),
       Own(db.submissions, OfSubmission(o)))
  }

  lemma OwnPut<V>(m: map<nat, V>, f: V -> bool, k: nat, v: V)
    ensures f(v) ==> Own(m[k := v], f) == Own(m, f)[k := v]
    ensures !f(v) && (k in m ==> !f(m[k])) ==> Own(m[k := v], f) == Own(m, f)
  {
  }

  lemma OwnDrop<V>(m: map<nat, V>, f: V -> bool, k: nat)
    ensures Own(m - {k}, f) == Own(m, f) - {k}
    ensures k in m && !f(m[k]) ==> Own(m - {k}, f) == Own(m, f)
  {
  }

  lemma OwnMerge<V>(m: map<nat, V>, n: map<nat, V>, f: V -> bool)
    requires m.Keys !! n.Keys
    ensures (forall k :: k in n ==> f(n[k])) ==> Own(m + n, f) == Own(m, f) + n
    ensures (forall k :: k in n ==> !f(n[k])) ==> Own(m + n, f) == Own(m, f)
  {
  }

  lemma OwnStatus(m: map<BillId, Bill>, o: OwnerId, ids: set<BillId>, s: BillStatus, o': OwnerId)
    requires forall b :: b in ids ==> b in m && m[b].owner == o'
    ensures o == o' ==> Own(WithStatus(m, ids, s), OfBill(o)) == WithStatus(Own(m, OfBill(o)), ids, s)
    ensures o != o' ==> Own(WithStatus(m, ids, s), OfBill(o)) == Own(m, OfBill(o))
  {
  }

  /** A tenant of another owner, not deleted, has the email. */
  predicate EmailElsewhere(db: Db, o: OwnerId, email: Option<string>) {
    exists x :: x in db.tenants && db.tenants[x].owner != o && !db.tenants[x].deleted
                && SameEmail(db.tenants[x].email, email)
  }

  /** The ids an operation is about to give out are new to every owner, and so is an email, whose index
      is the one that spans owners. */
  predicate Fresh(db: Db, op: Op) {
    match op
    case AssignOp(o, i, a, b) => a !in db.assignments && b !in db.bills
    case GenerateOp(o, k, list) => forall x :: x in list ==> x.bill !in db.bills
    case RecordOp(o, i, now, p) => p !in db.payments
    case ApproveOp(o, s, now, p) => p !in db.payments
    case PayBillOp(o, i, c) => c !in db.checkouts
    case InsertSubmissionOp(o, sub, s) => s !in db.submissions
    case CreateRoomOp(o, number, rent, status, r) => r !in db.rooms
    case CreateTenantOp(o, email, t) => t !in db.tenants && !EmailElsewhere(db, o, Optional(email))
    case PatchTenantOp(o, t, patch) => patch.email.Some? ==> !EmailElsewhere(db, o, Optional(patch.email.value))
    case _ => true
  }

  // ----- an owner's lookups and index checks see only the owner's rows

  lemma SameLookups(db: Db, o: OwnerId, r: RoomId, t: TenantId, a: AssignmentId, b: BillId, s: SubmissionId)
    ensures var p := Project(db, o);
            && HasRoom(p, r, o) == HasRoom(db, r, o) && HasTenant(p, t, o) == HasTenant(db, t, o)
            && HasAssignment(p, a, o) == HasAssignment(db, a, o) && HasBill(p, b, o) == HasBill(db, b, o)
            && HasSubmission(p, s, o) == HasSubmission(db, s, o)
    ensures HasRoom(db, r, o) ==> Project(db, o).rooms[r] == db.rooms[r]
    ensures HasTenant(db, t, o) ==> Project(db, o).tenants[t] == db.tenants[t]
    ensures HasAssignment(db, a, o) ==> Project(db, o).assignments[a] == db.assignments[a]
    ensures HasBill(db, b, o) ==> Project(db, o).bills[b] == db.bills[b]
    ensures HasSubmission(db, s, o) ==> Project(db, o).submissions[s] == db.submissions[s]
  {
  }

  lemma SameCounts(db: Db, o: OwnerId, r: RoomId, t: TenantId)
    requires AssignmentsLinked(db) && r in db.rooms && db.rooms[r].owner == o && t in db.tenants && db.tenants[t].owner == o
    ensures var p := Project(db, o);
            && RoomCounted(p, r, o) == RoomCounted(db, r, o) && TenantCounted(p, t, o) == TenantCounted(db, t, o)
            && RoomIndexed(p, r) == RoomIndexed(db, r) && TenantIndexed(p, t) == TenantIndexed(db, t)
  {
    var p := Project(db, o);
    forall a | a in db.assignments
               && (db.assignments[a].room == r || db.assignments[a].tenant == t || db.assignments[a].owner == o)
      ensures a in p.assignments && p.assignments[a] == db.assignments[a]
    {
    }
    forall a | a in p.assignments ensures a in db.assignments && p.assignments[a] == db.assignments[a] {
    }
  }

  lemma SameBillIndexes(db: Db, o: OwnerId, n: BillNumber, a: AssignmentId, k: Month)
    requires BillsLinked(db) && (a in db.assignments ==> db.assignments[a].owner == o)
    ensures NumberIndexed(Project(db, o), o, n) == NumberIndexed(db, o, n)
    ensures MonthIndexed(Project(db, o), a, k) == MonthIndexed(db, a, k)
  {
    hide PeriodFits, NumberOf;
    var p := Project(db, o);
    forall b | b in db.bills && (db.bills[b].owner == o || db.bills[b].assignment == a)
      ensures b in p.bills && p.bills[b] == db.bills[b]
    {
    }
    forall b | b in p.bills ensures b in db.bills && p.bills[b] == db.bills[b] {
    }
  }

  lemma SamePaymentIndex(db: Db, o: OwnerId, b: BillId)
    requires PaymentsLinked(db) && b in db.bills && db.bills[b].owner == o
    ensures PaymentIndexed(Project(db, o), b) == PaymentIndexed(db, b)
  {
    var p := Project(db, o);
    forall x | x in db.payments && db.payments[x].bill == b ensures x in p.payments && p.payments[x] == db.payments[x] {
    }
  }

  lemma SamePendingIndex(db: Db, o: OwnerId, b: BillId)
    requires SubmissionsLinked(db) && b in db.bills && db.bills[b].owner == o
    ensures PendingIndexed(Project(db, o), b) == PendingIndexed(db, b)
  {
    hide ClaimPaid;
    var p := Project(db, o);
    forall x | x in db.submissions && db.submissions[x].bill == b
      ensures x in p.submissions && p.submissions[x] == db.submissions[x]
    {
    }
  }

  // ----- one step

  /** op on everybody's tables does to o's rows what it does on o's rows alone, error for error. */
  ghost predicate Mirrors(db: Db, op: Op) {
    var o := op.owner;
    var x, y := Perform(db, op), Perform(Project(db, o), op);
    && (x.Err? ==> y == x)
    && (x.Ok? ==> y == Ok(Project(x.value, o)))
  }

  /** op leaves every other owner's rows alone. */
  ghost predicate SparesOthers(db: Db, op: Op) {
    forall o: OwnerId :: o != op.owner ==> Project(Apply(db, op), o) == Project(db, o)
  }

  // ----- one row written for owner o, seen by owner q

  lemma PutRoom(db: Db, o: OwnerId, r: RoomId, x: Room, q: OwnerId)
    requires x.owner == o && (r in db.rooms ==> db.rooms[r].owner == o)
    ensures var p := Project(db, q);
            Project(db.(rooms := db.rooms[r := x]), q) == if q == o then p.(rooms := p.rooms[r := x]) else p
  {
    OwnPut(db.rooms, OfRoom(q), r, x);
    hide Own;
  }

  lemma PutTenant(db: Db, o: OwnerId, t: TenantId, x: Tenant, q: OwnerId)
    requires x.owner == o && (t in db.tenants ==> db.tenants[t].owner == o)
    ensures var p := Project(db, q);
            Project(db.(tenants := db.tenants[t := x]), q) == if q == o then p.(tenants := p.tenants[t := x]) else p
  {
    OwnPut(db.tenants, OfTenant(q), t, x);
    hide Own;
  }

  lemma PutAssignment(db: Db, o: OwnerId, a: AssignmentId, x: Assignment, q: OwnerId)
    requires x.owner == o && (a in db.assignments ==> db.assignments[a].owner == o)
    ensures var p := Project(db, q);
            Project(db.(assignments := db.assignments[a := x]), q)
            == if q == o then p.(assignments := p.assignments[a := x]) else p
  {
    OwnPut(db.assignments, OfAssignment(q), a, x);
    hide Own;
  }

  lemma PutBill(db: Db, o: OwnerId, b: BillId, x: Bill, q: OwnerId)
    requires x.owner == o && (b in db.bills ==> db.bills[b].owner == o)
    ensures var p := Project(db, q);
            Project(db.(bills := db.bills[b := x]), q) == if q == o then p.(bills := p.bills[b := x]) else p
  {
    OwnPut(db.bills, OfBill(q), b, x);
    hide Own;
  }

  lemma PutPayment(db: Db, o: OwnerId, k: PaymentId, x: Payment, q: OwnerId)
    requires x.owner == o && k !in db.payments
    ensures var p := Project(db, q);
            Project(db.(payments := db.payments[k := x]), q) == if q == o then p.(payments := p.payments[k := x]) else p
  {
    OwnPut(db.payments, OfPayment(q), k, x);
    hide Own;
  }

  lemma PutCheckout(db: Db, o: OwnerId, k: CheckoutId, x: Checkout, q: OwnerId)
    requires x.owner == o && k !in db.checkouts
    ensures var p := Project(db, q);
            Project(db.(checkouts := db.checkouts[k := x]), q) == if q == o then p.(checkouts := p.checkouts[k := x]) else p
  {
    OwnPut(db.checkouts, OfCheckout(q), k, x);
    hide Own;
  }

  lemma PutSubmission(db: Db, o: OwnerId, s: SubmissionId, x: Submission, q: OwnerId)
    requires x.owner == o && (s in db.submissions ==> db.submissions[s].owner == o)
    ensures var p := Project(db, q);
            Project(db.(submissions := db.submissions[s := x]), q)
            == if q == o then p.(submissions := p.submissions[s := x]) else p
  {
    OwnPut(db.submissions, OfSubmission(q), s, x);
    hide Own;
  }

  // ----- onboarding

  lemma AssignProjects(db: Db, o: OwnerId, i: AssignInput, a: AssignmentId, b: BillId, q: OwnerId)
    requires AssignRoom(db, o, i, a, b).Ok?
    ensures var d, p, y := AssignRoom(db, o, i, a, b).value, Project(db, q), FirstBill(o, i, a);
            Project(d, q) ==
            if q != o then p
            else p.(assignments := p.assignments[a := NewAssignment(o, i)],
                    bills := p.bills[b := y],
                    rooms := p.rooms[i.room := db.rooms[i.room].(status := Reserved)],
                    tenants := p.tenants[i.tenant := db.tenants[i.tenant].(status := AwaitingPayment)])
  {
    hide Project, FirstPeriod, NumberOf, Date, RoomCounted, TenantCounted, RoomIndexed, TenantIndexed, NumberIndexed;
    hide MonthIndexed;
    var x, y := NewAssignment(o, i), FirstBill(o, i, a);
    var d1 := db.(assignments := db.assignments[a := x]);
    var d2 := d1.(bills := d1.bills[b := y]);
    var d3 := d2.(rooms := d2.rooms[i.room := db.rooms[i.room].(status := Reserved)]);
    PutAssignment(db, o, a, x, q);
    PutBill(d1, o, b, y, q);
    PutRoom(d2, o, i.room, db.rooms[i.room].(status := Reserved), q);
    PutTenant(d3, o, i.tenant, db.tenants[i.tenant].(status := AwaitingPayment), q);
  }

  lemma AssignMirrors(db: Db, op: Op)
    requires op.AssignOp? && AssignmentsLinked(db) && BillsLinked(db) && Fresh(db, op)
    ensures Mirrors(db, op)
  {
    hide Own, FirstPeriod, NumberOf, Date, RoomCounted, TenantCounted, RoomIndexed, TenantIndexed, NumberIndexed;
    hide MonthIndexed;
    hide AssignmentsLinked, BillsLinked, Project, HasRoom, HasTenant;
    var o, i, a, b := op.owner, op.assign, op.a, op.b;
    ProjectKeys(db, o);
    SameLookups(db, o, i.room, i.tenant, a, b, 0);
    if i.start.Some? && HasRoom(db, i.room, o) && HasTenant(db, i.tenant, o) {
      RowsOfOwner(db, i.room, i.tenant, o);
      SameCounts(db, o, i.room, i.tenant);
      SameBillIndexes(db, o, FirstBill(o, i, a).number, a, FirstBill(o, i, a).month);
      if Perform(db, op).Ok? { AssignProjects(db, o, i, a, b, o); }
    }
  }

  lemma ProjectKeys(db: Db, o: OwnerId)
    ensures var p := Project(db, o);
            && p.rooms.Keys <= db.rooms.Keys && p.tenants.Keys <= db.tenants.Keys
            && p.assignments.Keys <= db.assignments.Keys && p.bills.Keys <= db.bills.Keys
            && p.payments.Keys <= db.payments.Keys && p.checkouts.Keys <= db.checkouts.Keys
            && p.submissions.Keys <= db.submissions.Keys
  {
  }

  lemma RowsOfOwner(db: Db, r: RoomId, t: TenantId, o: OwnerId)
    requires HasRoom(db, r, o) && HasTenant(db, t, o)
    ensures r in db.rooms && db.rooms[r].owner == o && t in db.tenants && db.tenants[t].owner == o
  {
  }

  lemma CancelProjects(db: Db, o: OwnerId, a: AssignmentId, q: OwnerId)
    requires CancelOnboarding(db, o, a).Ok?
    ensures var d, p, x, ids := CancelOnboarding(db, o, a).value, Project(db, q), db.assignments[a], CollectibleBills(db, a, o);
            Project(d, q) ==
            if q != o then p
            else p.(assignments := p.assignments[a := x.(status := CancelledAssignment)],
                    bills := WithStatus(p.bills, ids, CancelledBill),
                    rooms := p.rooms[x.room := db.rooms[x.room].(status := Available)],
                    tenants := p.tenants[x.tenant := db.tenants[x.tenant].(status := AwaitingPayment)])
  {
    hide Project, WithStatus;
    var x, ids := db.assignments[a], CollectibleBills(db, a, o);
    var d1 := db.(assignments := db.assignments[a := x.(status := CancelledAssignment)]);
    var d2 := d1.(bills := WithStatus(d1.bills, ids, CancelledBill));
    var d3 := d2.(rooms := d2.rooms[x.room := db.rooms[x.room].(status := Available)]);
    PutAssignment(db, o, a, x.(status := CancelledAssignment), q);
    PutStatus(d1, o, ids, CancelledBill, q);
    hide CollectibleBills;
    PutRoom(d2, o, x.room, db.rooms[x.room].(status := Available), q);
    PutTenant(d3, o, x.tenant, db.tenants[x.tenant].(status := AwaitingPayment), q);
  }

  lemma PutStatus(db: Db, o: OwnerId, ids: set<BillId>, s: BillStatus, q: OwnerId)
    requires forall b :: b in ids ==> b in db.bills && db.bills[b].owner == o
    ensures var p := Project(db, q);
            Project(db.(bills := WithStatus(db.bills, ids, s)), q)
            == if q == o then p.(bills := WithStatus(p.bills, ids, s)) else p
  {
    hide Own, WithStatus;
    OwnStatus(db.bills, q, ids, s, o);
  }

  lemma SameCollectible(db: Db, a: AssignmentId, o: OwnerId)
    ensures CollectibleBills(Project(db, o), a, o) == CollectibleBills(db, a, o)
  {
  }

  lemma CancelMirrors(db: Db, op: Op)
    requires op.CancelOp?
    ensures Mirrors(db, op)
  {
    hide Own, Project, HasRoom, HasTenant, HasAssignment, CollectibleBills, WithStatus;
    var o, a := op.owner, op.a;
    SameLookups(db, o, 0, 0, a, 0, 0);
    if HasAssignment(db, a, o) {
      OwnAssignment(db, o, a);
      var x := db.assignments[a];
      SameLookups(db, o, x.room, x.tenant, a, 0, 0);
      SameCollectible(db, a, o);
      if Perform(db, op).Ok? { CancelProjects(db, o, a, o); }
    }
  }

  lemma OwnAssignment(db: Db, o: OwnerId, a: AssignmentId)
    requires HasAssignment(db, a, o)
    ensures a in db.assignments && db.assignments[a].owner == o
    ensures a in Project(db, o).assignments && Project(db, o).assignments[a] == db.assignments[a]
  {
  }

  // ----- monthly billing

  lemma GenerateProjects(db: Db, o: OwnerId, k: Month, list: seq<Listed>, q: OwnerId)
    requires GenerateMonthly(db, o, k, list).Ok?
    ensures var p := Project(db, q);
            Project(GenerateMonthly(db, o, k, list).value, q)
            == if q == o then p.(bills := p.bills + NewBills(o, k, Missing(db, k, list))) else p
  {
    hide Own, Missing, MonthIndexed, NumberIndexed, NumberOf, MonthlyPeriod;
    var new' := Missing(db, k, list);
    OwnMerge(db.bills, NewBills(o, k, new'), OfBill(q));
  }

  lemma SameMissing(db: Db, o: OwnerId, k: Month, list: seq<Listed>)
    requires BillsLinked(db) && ListedActive(db, o, list)
    ensures Missing(Project(db, o), k, list) == Missing(db, k, list)
  {
    hide BillsLinked, Project, MonthIndexed, NumberIndexed, NumberOf;
    forall x | x in list ensures MonthIndexed(Project(db, o), x.id, k) == MonthIndexed(db, x.id, k) {
      SameBillIndexes(db, o, NumberOf(k, x.id), x.id, k);
    }
  }

  lemma SameClashes(db: Db, o: OwnerId, k: Month, new': set<Listed>)
    requires BillsLinked(db) && forall x :: x in new' ==> x.bill !in db.bills
    ensures Clashes(Project(db, o), o, k, new') == Clashes(db, o, k, new')
  {
    hide BillsLinked, Project, MonthIndexed, NumberIndexed, NumberOf;
    ProjectKeys(db, o);
    forall n ensures NumberIndexed(Project(db, o), o, n) == NumberIndexed(db, o, n) {
      SameNumberIndex(db, o, n);
    }
  }

  lemma SameNumberIndex(db: Db, o: OwnerId, n: BillNumber)
    ensures NumberIndexed(Project(db, o), o, n) == NumberIndexed(db, o, n)
  {
    var p := Project(db, o);
    forall b | b in db.bills && db.bills[b].owner == o ensures b in p.bills && p.bills[b] == db.bills[b] {
    }
    forall b | b in p.bills ensures b in db.bills && p.bills[b] == db.bills[b] {
    }
  }

  lemma GenerateMirrors(db: Db, op: Op)
    requires op.GenerateOp? && BillsLinked(db) && Enabled(db, op) && Fresh(db, op)
    ensures Mirrors(db, op)
  {
    hide Own, Project, BillsLinked, Clashes, NewBills, ListedActive, MonthIndexed;
    var o, k, list := op.owner, op.month, op.list;
    SameMissing(db, o, k, list);
    SameClashes(db, o, k, Missing(db, k, list));
    if Perform(db, op).Ok? { GenerateProjects(db, o, k, list, o); }
  }

  lemma OverdueMirrors(db: Db, op: Op)
    requires op.OverdueOp? && Enabled(db, op)
    ensures Mirrors(db, op) && Enabled(Project(db, op.owner), op)
  {
    hide WithStatus;
    PutStatus(db, op.owner, op.ids, Overdue, op.owner);
  }

  // ----- payments

  /** Settling, in terms of one owner's rows. */
  lemma SettleProjects(db: Db, o: OwnerId, b: BillId, amount: int, date: Instant, payMethod: string,
                       reference: Option<string>, notes: Option<string>, paidAt: Instant, k: PaymentId, q: OwnerId)
    requires Settle(db, o, b, amount, date, payMethod, reference, notes, paidAt, k).Ok?
    ensures var d, p := Settle(db, o, b, amount, date, payMethod, reference, notes, paidAt, k).value, Project(db, q);
            var y := db.bills[b];
            var x := db.assignments[y.assignment];
            var paid := p.(payments := p.payments[k := Payment(o, b, y.tenant, y.room, amount, date, payMethod, reference, notes)],
                           bills := p.bills[b := y.(status := Paid, paidAt := Some(paidAt))]);
            Project(d, q) ==
            if q != o then p
            else if x.status != Pending then paid
            else paid.(assignments := p.assignments[y.assignment := x.(status := Active)],
                       tenants := p.tenants[y.tenant := db.tenants[y.tenant].(status := ActiveTenant)],
                       rooms := p.rooms[y.room := db.rooms[y.room].(status := Occupied)])
  {
    hide Project, PaymentIndexed;
    var y := db.bills[b];
    var x := db.assignments[y.assignment];
    var pay := Payment(o, b, y.tenant, y.room, amount, date, payMethod, reference, notes);
    var d1 := db.(payments := db.payments[k := pay]);
    var d2 := d1.(bills := d1.bills[b := y.(status := Paid, paidAt := Some(paidAt))]);
    PutPayment(db, o, k, pay, q);
    PutBill(d1, o, b, y.(status := Paid, paidAt := Some(paidAt)), q);
    if x.status == Pending {
      var d3 := d2.(assignments := d2.assignments[y.assignment := x.(status := Active)]);
      var d4 := d3.(tenants := d3.tenants[y.tenant := db.tenants[y.tenant].(status := ActiveTenant)]);
      PutAssignment(d2, o, y.assignment, x.(status := Active), q);
      PutTenant(d3, o, y.tenant, db.tenants[y.tenant].(status := ActiveTenant), q);
      PutRoom(d4, o, y.room, db.rooms[y.room].(status := Occupied), q);
    }
  }

  lemma SettleMirrors(db: Db, o: OwnerId, b: BillId, amount: int, date: Instant, payMethod: string,
                      reference: Option<string>, notes: Option<string>, paidAt: Instant, k: PaymentId)
    requires PaymentsLinked(db) && k !in db.payments
    ensures var x := Settle(db, o, b, amount, date, payMethod, reference, notes, paidAt, k);
            var y := Settle(Project(db, o), o, b, amount, date, payMethod, reference, notes, paidAt, k);
            (x.Err? ==> y == x) && (x.Ok? ==> y == Ok(Project(x.value, o)))
  {
    hide Project, PaymentIndexed, PaymentsLinked, HasAssignment, HasTenant, HasRoom;
    ProjectKeys(db, o);
    SameLookups(db, o, 0, 0, 0, b, 0);
    if HasBill(db, b, o) {
      var y := db.bills[b];
      SameLookups(db, o, y.room, y.tenant, y.assignment, b, 0);
      SamePaymentIndex(db, o, b);
      if Settle(db, o, b, amount, date, payMethod, reference, notes, paidAt, k).Ok? {
        SettleProjects(db, o, b, amount, date, payMethod, reference, notes, paidAt, k, o);
      }
    }
  }

  lemma RecordMirrors(db: Db, op: Op)
    requires op.RecordOp? && PaymentsLinked(db) && Fresh(db, op)
    ensures Mirrors(db, op)
  {
    hide Project, Settle, PaymentsLinked;
    var o, i := op.owner, op.manual;
    var at := PaymentDate(i.date, op.now);
    if at.Some? {
      SettleMirrors(db, o, i.bill, i.amount, at.value, i.payMethod, Optional(i.reference), Optional(i.notes), at.value, op.p);
    }
  }

  lemma ApproveProjects(db: Db, op: Op, q: OwnerId)
    requires op.ApproveOp? && Perform(db, op).Ok?
    ensures var o, s, sub := op.owner, op.s, db.submissions[op.s];
            var d := Settle(db, o, sub.bill, sub.amount, sub.transferDate, sub.payMethod, sub.reference, None, op.now, op.p).value;
            var p := Project(d, q);
            && d.submissions == db.submissions
            && Project(Perform(db, op).value, q)
               == if q == o then p.(submissions := p.submissions[s := sub.(status := Approved, reviewedAt := Some(op.now))]) else p
  {
    hide Project, Settle, Settled, Activated;
    var o, s, sub := op.owner, op.s, db.submissions[op.s];
    var d := Settle(db, o, sub.bill, sub.amount, sub.transferDate, sub.payMethod, sub.reference, None, op.now, op.p).value;
    SettleSettles(db, o, sub.bill, sub.amount, sub.transferDate, sub.payMethod, sub.reference, None, op.now, op.p);
    SettledPays(db, d, sub.bill, op.p, Payment(o, sub.bill, db.bills[sub.bill].tenant, db.bills[sub.bill].room, sub.amount,
                                               sub.transferDate, sub.payMethod, sub.reference, None));
    PutSubmission(d, o, s, sub.(status := Approved, reviewedAt := Some(op.now)), q);
  }

  lemma ApproveMirrors(db: Db, op: Op)
    requires op.ApproveOp? && PaymentsLinked(db) && Fresh(db, op)
    ensures Mirrors(db, op)
  {
    hide Project, Settle, PaymentsLinked;
    var o, s := op.owner, op.s;
    SameLookups(db, o, 0, 0, 0, 0, s);
    if HasSubmission(db, s, o) {
      var sub := db.submissions[s];
      SettleMirrors(db, o, sub.bill, sub.amount, sub.transferDate, sub.payMethod, sub.reference, None, op.now, op.p);
      if Perform(db, op).Ok? { ApproveProjects(db, op, o); }
    }
  }

  // ----- gateway checkouts

  lemma PayBillProjects(db: Db, o: OwnerId, i: PayInput, c: CheckoutId, q: OwnerId)
    requires PayBill(db, o, i, c).Ok? && c !in db.checkouts
    ensures var d, p := PayBill(db, o, i, c).value, Project(db, q);
            Project(d, q) ==
            if q != o || d == db then p
            else p.(checkouts := p.checkouts[c := NewCheckout(o, db.bills[i.bill], i)],
                    bills := p.bills[i.bill := db.bills[i.bill].(status := GatewayPending)])
  {
    hide Project, LiveCheckouts, Lifetime;
    if PayBill(db, o, i, c).value != db {
      var d1 := db.(checkouts := db.checkouts[c := NewCheckout(o, db.bills[i.bill], i)]);
      PutCheckout(db, o, c, NewCheckout(o, db.bills[i.bill], i), q);
      PutBill(d1, o, i.bill, db.bills[i.bill].(status := GatewayPending), q);
    }
  }

  lemma SameLive(db: Db, b: BillId, o: OwnerId, at: Instant)
    ensures LiveCheckouts(Project(db, o), b, o, at) == LiveCheckouts(db, b, o, at)
  {
  }

  lemma PayBillMirrors(db: Db, op: Op)
    requires op.PayBillOp? && Fresh(db, op)
    ensures Mirrors(db, op)
  {
    hide Project, LiveCheckouts, NewCheckout;
    var o, i := op.owner, op.pay;
    ProjectKeys(db, o);
    SameLookups(db, o, 0, 0, 0, i.bill, 0);
    if HasBill(db, i.bill, o) {
      SameLive(db, i.bill, o, i.lookupAt);
      if Perform(db, op).Ok? { PayBillProjects(db, o, i, op.c, o); }
    }
  }

  // ----- single statements

  lemma SubmissionStepProjects(db: Db, op: Op, q: OwnerId)
    requires IsSubmissionStep(op) && !op.DeleteSubmissionOp? && Enabled(db, op) && Fresh(db, op) && Perform(db, op).Ok?
    ensures var d, p, s := Perform(db, op).value, Project(db, q), op.s;
            && s in d.submissions
            && Project(d, q) == if q == op.owner then p.(submissions := p.submissions[s := d.submissions[s]]) else p
  {
    hide Project, PendingIndexed;
    PutSubmission(db, op.owner, op.s, Perform(db, op).value.submissions[op.s], q);
  }

  lemma SubmissionStepMirrors(db: Db, op: Op)
    requires IsSubmissionStep(op) && !op.DeleteSubmissionOp? && SubmissionsLinked(db) && Enabled(db, op) && Fresh(db, op)
    ensures Mirrors(db, op)
  {
    hide Project, SubmissionsLinked, PendingIndexed;
    var o, s := op.owner, op.s;
    ProjectKeys(db, o);
    SameLookups(db, o, 0, 0, 0, 0, s);
    if op.InsertSubmissionOp? { SamePendingIndex(db, o, op.sub.bill); }
    if Perform(db, op).Ok? { SubmissionStepProjects(db, op, o); }
  }

  lemma DeleteProjects(db: Db, o: OwnerId, s: SubmissionId, q: OwnerId)
    ensures Project(DeleteSubmission(db, o, s), q)
            == if q == o then DeleteSubmission(Project(db, o), o, s) else Project(db, q)
  {
    SameLookups(db, o, 0, 0, 0, 0, s);
    hide Own;
    OwnDrop(db.submissions, OfSubmission(q), s);
  }

  lemma RowStepProjects(db: Db, op: Op, q: OwnerId)
    requires IsRowStep(op) && Fresh(db, op) && Perform(db, op).Ok?
    ensures var d, p := Perform(db, op).value, Project(db, q);
            if op.CreateRoomOp? || op.PatchRoomOp? || op.SoftDeleteRoomOp? then
              op.r in d.rooms && Project(d, q) == if q == op.owner then p.(rooms := p.rooms[op.r := d.rooms[op.r]]) else p
            else
              op.t in d.tenants && Project(d, q) == if q == op.owner then p.(tenants := p.tenants[op.t := d.tenants[op.t]]) else p
  {
    hide Project, RoomNumberIndexed, EmailIndexed, EmailElsewhere;
    var d := Perform(db, op).value;
    if op.CreateRoomOp? || op.PatchRoomOp? || op.SoftDeleteRoomOp? {
      PutRoom(db, op.owner, op.r, d.rooms[op.r], q);
    } else {
      PutTenant(db, op.owner, op.t, d.tenants[op.t], q);
    }
  }

  lemma RowStepMirrors(db: Db, op: Op)
    requires IsRowStep(op) && Fresh(db, op)
    ensures Mirrors(db, op)
  {
    hide Mirrors, Fresh;
    if op.CreateRoomOp? || op.PatchRoomOp? || op.SoftDeleteRoomOp? {
      RoomStepMirrors(db, op);
    } else {
      TenantStepMirrors(db, op);
    }
  }

  lemma RoomStepMirrors(db: Db, op: Op)
    requires (op.CreateRoomOp? || op.PatchRoomOp? || op.SoftDeleteRoomOp?) && Fresh(db, op)
    ensures Mirrors(db, op)
  {
    hide Project, RoomNumberIndexed, EmailIndexed, EmailElsewhere;
    var o := op.owner;
    ProjectKeys(db, o);
    SameLookups(db, o, op.r, 0, 0, 0, 0);
    if op.CreateRoomOp? { SameRoomNumber(db, o, op.number, op.r); }
    if op.PatchRoomOp? && op.room.number.Some? { SameRoomNumber(db, o, op.room.number.value, op.r); }
    if Perform(db, op).Ok? { RowStepProjects(db, op, o); }
  }

  lemma TenantStepMirrors(db: Db, op: Op)
    requires (op.CreateTenantOp? || op.PatchTenantOp? || op.SoftDeleteTenantOp?) && Fresh(db, op)
    ensures Mirrors(db, op)
  {
    hide Project, RoomNumberIndexed, EmailIndexed, EmailElsewhere;
    var o := op.owner;
    ProjectKeys(db, o);
    SameLookups(db, o, 0, op.t, 0, 0, 0);
    if op.CreateTenantOp? { SameEmailIndex(db, o, Optional(op.email), op.t); }
    if op.PatchTenantOp? && op.tenant.email.Some? { SameEmailIndex(db, o, Optional(op.tenant.email.value), op.t); }
    if Perform(db, op).Ok? { RowStepProjects(db, op, o); }
  }

  lemma SameRoomNumber(db: Db, o: OwnerId, number: string, r: RoomId)
    ensures RoomNumberIndexed(Project(db, o), o, number, r) == RoomNumberIndexed(db, o, number, r)
  {
    var p := Project(db, o);
    forall x | x in db.rooms && db.rooms[x].owner == o ensures x in p.rooms && p.rooms[x] == db.rooms[x] {
    }
    forall x | x in p.rooms ensures x in db.rooms && p.rooms[x] == db.rooms[x] {
    }
  }

  lemma SameEmailIndex(db: Db, o: OwnerId, email: Option<string>, t: TenantId)
    requires !EmailElsewhere(db, o, email)
    ensures EmailIndexed(Project(db, o), email, t) == EmailIndexed(db, email, t)
  {
    var p := Project(db, o);
    forall x | x in db.tenants && db.tenants[x].owner == o ensures x in p.tenants && p.tenants[x] == db.tenants[x] {
    }
    forall x | x in p.tenants ensures x in db.tenants && p.tenants[x] == db.tenants[x] {
    }
  }

  // ----- every step

  /** For every operation of owner o: the same outcome, and the same rows of o, as on o's rows alone. */
  lemma StepMirrors(db: Db, op: Op)
    requires Inv(db) && Enabled(db, op) && Fresh(db, op)
    ensures Mirrors(db, op)
  {
    hide Mirrors, Inv, AssignmentsLinked, BillsLinked, PaymentsLinked, SubmissionsLinked, Perform, Enabled, Fresh;
    Linked(db);
    if op.DeleteSubmissionOp? {
      DeleteMirrors(db, op);
    } else if IsSubmissionStep(op) {
      SubmissionStepMirrors(db, op);
    } else if IsRowStep(op) {
      RowStepMirrors(db, op);
    } else if op.AssignOp? {
      AssignMirrors(db, op);
    } else if op.CancelOp? {
      CancelMirrors(db, op);
    } else if op.GenerateOp? {
      GenerateMirrors(db, op);
    } else if op.OverdueOp? {
      OverdueMirrors(db, op);
    } else if op.RecordOp? {
      RecordMirrors(db, op);
    } else if op.ApproveOp? {
      ApproveMirrors(db, op);
    } else {
      PayBillMirrors(db, op);
    }
  }

  lemma Linked(db: Db)
    requires Inv(db)
    ensures AssignmentsLinked(db) && BillsLinked(db) && PaymentsLinked(db) && SubmissionsLinked(db)
  {
    hide AssignmentsLinked, BillsLinked, PaymentsLinked, SubmissionsLinked;
  }

  lemma DeleteMirrors(db: Db, op: Op)
    requires op.DeleteSubmissionOp?
    ensures Mirrors(db, op)
  {
    hide Project, DeleteSubmission;
    DeleteProjects(db, op.owner, op.s, op.owner);
  }

  lemma StepSpares(db: Db, op: Op)
    requires Enabled(db, op) && Fresh(db, op)
    ensures SparesOthers(db, op)
  {
    forall q: OwnerId | q != op.owner ensures Project(Apply(db, op), q) == Project(db, q) {
      StepSparesOne(db, op, q);
    }
  }

  lemma StepSparesOne(db: Db, op: Op, q: OwnerId)
    requires Enabled(db, op) && Fresh(db, op) && q != op.owner
    ensures Project(Apply(db, op), q) == Project(db, q)
  {
    hide Project, AssignRoom, CancelOnboarding, GenerateMonthly, Settle, PayBill, WithStatus, OverdueRows;
    hide InsertSubmission, SetProof, DeleteSubmission, Reject, CancelSubmission, ListedActive, SubmissionFits;
    hide CreateRoom, PatchRoom, SoftDeleteRoom, CreateTenant, PatchTenant, SoftDeleteTenant;
    if Perform(db, op).Ok? {
      if op.DeleteSubmissionOp? {
        DeleteProjects(db, op.owner, op.s, q);
      } else if IsSubmissionStep(op) {
        SubmissionStepProjects(db, op, q);
      } else if IsRowStep(op) {
        RowStepProjects(db, op, q);
      } else {
        ServiceStepSpares(db, op, q);
      }
    }
  }

  lemma ServiceStepSpares(db: Db, op: Op, q: OwnerId)
    requires !IsSubmissionStep(op) && !IsRowStep(op)
    requires Enabled(db, op) && Fresh(db, op) && q != op.owner && Perform(db, op).Ok?
    ensures Project(Perform(db, op).value, q) == Project(db, q)
  {
    hide Project, AssignRoom, CancelOnboarding, GenerateMonthly, Settle, PayBill, WithStatus, OverdueRows, ListedActive;
    if op.AssignOp? {
      AssignProjects(db, op.owner, op.assign, op.a, op.b, q);
    } else if op.CancelOp? {
      CancelProjects(db, op.owner, op.a, q);
    } else if op.GenerateOp? {
      GenerateProjects(db, op.owner, op.month, op.list, q);
    } else if op.OverdueOp? {
      OverdueOwned(db, op);
      PutStatus(db, op.owner, op.ids, Overdue, q);
    } else if op.RecordOp? {
      var i := op.manual;
      var at := PaymentDate(i.date, op.now).value;
      SettleProjects(db, op.owner, i.bill, i.amount, at, i.payMethod, Optional(i.reference), Optional(i.notes), at, op.p, q);
    } else if op.ApproveOp? {
      var sub := db.submissions[op.s];
      ApproveProjects(db, op, q);
      SettleProjects(db, op.owner, sub.bill, sub.amount, sub.transferDate, sub.payMethod, sub.reference, None, op.now, op.p, q);
    } else {
      PayBillProjects(db, op.owner, op.pay, op.c, q);
    }
  }

  lemma OverdueOwned(db: Db, op: Op)
    requires op.OverdueOp? && Enabled(db, op)
    ensures forall b :: b in op.ids ==> b in db.bills && db.bills[b].owner == op.owner
  {
  }

  lemma ProjectEnabled(db: Db, op: Op)
    requires Enabled(db, op)
    ensures Enabled(Project(db, op.owner), op)
  {
    var o := op.owner;
    match op
    case OverdueOp(_, today, ids) => OverdueMirrors(db, op);
    case GenerateOp(_, k, list) =>
      forall x | x in list
        ensures HasAssignment(db, x.id, o) && x.id in Project(db, o).assignments && Project(db, o).assignments[x.id] == x.row
      {
        OwnAssignment(db, o, x.id);
      }
    case InsertSubmissionOp(_, sub, s) => SameLookups(db, o, 0, 0, 0, sub.bill, 0);
    case _ =>
  }

  // ----- every run

  /** Every id given out during the run was new to the whole store. */
  ghost predicate FreshRun(ops: seq<Op>) {
    ops == [] || (FreshRun(ops[..|ops| - 1]) && Fresh(Replay(EMPTY, ops[..|ops| - 1]), ops[|ops| - 1]))
  }

  /** The operations of one owner, in order. */
  function OpsOf(ops: seq<Op>, o: OwnerId): seq<Op> {
    if ops == [] then []
    else OpsOf(ops[..|ops| - 1], o) + if ops[|ops| - 1].owner == o then [ops[|ops| - 1]] else []
  }

  lemma ProjectEmpty(o: OwnerId)
    ensures Project(EMPTY, o) == EMPTY
  {
  }

  /** The store of all owners is the product of one store per owner: after any run, an owner's rows are
      what that owner's own operations make of empty tables, whatever anybody else did in between. */
  lemma {:induction false} OwnersAreIndependent(ops: seq<Op>, o: OwnerId)
    requires Legal(EMPTY, ops) && FreshRun(ops)
    ensures Legal(EMPTY, OpsOf(ops, o))
    ensures Replay(EMPTY, OpsOf(ops, o)) == Project(Replay(EMPTY, ops), o)
  {
    hide Inv, Enabled, Fresh, Project, Perform;
    if ops == [] {
      ProjectEmpty(o);
    } else {
      var before, op := ops[..|ops| - 1], ops[|ops| - 1];
      var db := Replay(EMPTY, before);
      OwnersAreIndependent(before, o);
      EmptyInv();
      RunKeeps(EMPTY, before);
      if op.owner == o {
        ProjectEnabled(db, op);
        StepMirrors(db, op);
        LegalAppend(EMPTY, OpsOf(before, o), op);
      } else {
        StepSpares(db, op);
        assert OpsOf(ops, o) == OpsOf(before, o);
      }
    }
  }

  /** The same for interleaved requests. */
  lemma OwnersAreIndependentInterleaved(ls: seq<Protocol.Label>, o: OwnerId)
    requires Protocol.Schedule(ls) && FreshRun(Protocol.CommitOrder(ls))
    ensures Project(Protocol.After(ls).db, o) == Replay(EMPTY, OpsOf(Protocol.CommitOrder(ls), o))
  {
    hide Project, FreshRun, Protocol.MachineInv, Protocol.CommitOrder, Protocol.After, Protocol.Schedule;
    Protocol.Serializable(ls);
    OwnersAreIndependent(Protocol.CommitOrder(ls), o);
  }

  /** And a request that fails in an interleaving reports the error it would have on its owner's rows alone. */
  lemma FailureIsOwn(ls: seq<Protocol.Label>, id: Protocol.TxId, e: Error)
    requires Protocol.Schedule(ls) && Protocol.Fails(Protocol.After(ls), id, e)
    requires Fresh(Protocol.After(ls).db, Protocol.After(ls).inFlight[id].op)
    ensures var g := Protocol.After(ls);
            var op := g.inFlight[id].op;
            Perform(Project(g.db, op.owner), op) == Err(e)
  {
    hide Project, Fresh, Inv, Enabled, Perform, Protocol.Fails, Protocol.CommitOrder, Protocol.After, Protocol.Schedule;
    var g := Protocol.After(ls);
    Protocol.FailureIsOperation(ls, id, e);
    Protocol.Serializable(ls);
    InFlight(g, id, e);
    StepMirrors(g.db, g.inFlight[id].op);
  }

  lemma InFlight(g: Protocol.Machine, id: Protocol.TxId, e: Error)
    requires Protocol.MachineInv(g) && Protocol.Fails(g, id, e)
    ensures id in g.inFlight && Inv(g.db) && Enabled(g.db, g.inFlight[id].op)
  {
    hide Inv, Enabled;
  }
}
