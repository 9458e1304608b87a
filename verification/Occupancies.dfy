/** Room statuses against assignments. */
module Occupancies {
  import opened Types
  import opened Calendar
  import opened Operations
  import opened Invariants
  import opened Preservation
  import opened Runs
  import opened Generation
  import Protocol

  predicate Holds(db: Db, r: RoomId, s: AssignmentStatus) {
    exists a :: a in db.assignments && db.assignments[a].room == r && db.assignments[a].status == s
  }

  predicate RoomAgrees(db: Db, r: RoomId, status: RoomStatus) {
    (status == Occupied <==> Holds(db, r, Active)) && (status == Reserved <==> Holds(db, r, Pending))
  }

  /** Room r is occupied iff it has an active assignment and reserved iff it has a pending one. */
  ghost predicate Agrees(db: Db, r: RoomId) {
    r in db.rooms ==> RoomAgrees(db, r, db.rooms[r].status)
  }

  ghost predicate Occupancy(db: Db) {
    forall r :: r in db.rooms ==> Agrees(db, r)
  }

  /** Assignment a of room r moved to status s, and r's status with it; nothing else did. */
  ghost predicate RoomMoved(db: Db, d: Db, a: AssignmentId, r: RoomId, status: RoomStatus) {
    && a in d.assignments && d.assignments[a].room == r && d.assignments == db.assignments[a := d.assignments[a]]
    && (a in db.assignments ==> db.assignments[a].room == r)
    && r in db.rooms && d.rooms == db.rooms[r := db.rooms[r].(status := status)]
  }

  /** Such a move keeps every room agreeing when r holds no other live assignment. */
  lemma MoveKeepsAgreement(db: Db, d: Db, a: AssignmentId, r: RoomId, status: RoomStatus, q: RoomId)
    requires Agrees(db, q) && RoomMoved(db, d, a, r, status)
    requires forall c :: c in db.assignments && db.assignments[c].room == r && c != a ==> !IsLive(db.assignments[c])
    requires status == Occupied <==> d.assignments[a].status == Active
    requires status == Reserved <==> d.assignments[a].status == Pending
    ensures Agrees(d, q)
  {
    if q == r {
      assert Holds(d, q, d.assignments[a].status);
    } else {
      OthersHold(db, d, a, r, q, Active);
      OthersHold(db, d, a, r, q, Pending);
    }
  }

  lemma OthersHold(db: Db, d: Db, a: AssignmentId, r: RoomId, q: RoomId, s: AssignmentStatus)
    requires r in d.rooms && RoomMoved(db, d, a, r, d.rooms[r].status) && q != r
    ensures Holds(db, q, s) <==> Holds(d, q, s)
  {
    assert forall c :: c in db.assignments && db.assignments[c].room == q ==>
             c in d.assignments && d.assignments[c] == db.assignments[c];
    assert forall c :: c in d.assignments && d.assignments[c].room == q ==>
             c in db.assignments && d.assignments[c] == db.assignments[c];
  }

  lemma AssignKeepsAgreement(db: Db, o: OwnerId, i: AssignInput, a: AssignmentId, b: BillId, q: RoomId)
    requires Agrees(db, q) && AssignRoom(db, o, i, a, b).Ok?
    ensures Agrees(AssignRoom(db, o, i, a, b).value, q)
  {
    hide FirstBill, Agrees, Date;
    MoveKeepsAgreement(db, AssignRoom(db, o, i, a, b).value, a, i.room, Reserved, q);
  }

  lemma CancelKeepsAgreement(db: Db, o: OwnerId, a: AssignmentId, q: RoomId)
    requires OneLive(db) && Agrees(db, q) && CancelOnboarding(db, o, a).Ok?
    ensures Agrees(CancelOnboarding(db, o, a).value, q)
  {
    hide Agrees, WithStatus, CollectibleBills;
    MoveKeepsAgreement(db, CancelOnboarding(db, o, a).value, a, db.assignments[a].room, Available, q);
  }

  lemma SameKeepsAgreement(db: Db, d: Db, q: RoomId)
    requires Agrees(db, q) && d.assignments == db.assignments
    requires q in d.rooms ==> q in db.rooms && d.rooms[q].status == db.rooms[q].status
    ensures Agrees(d, q)
  {
    assert forall s :: Holds(d, q, s) <==> Holds(db, q, s);
  }

  lemma ActivatedKeepsAgreement(db: Db, d: Db, b: BillId, q: RoomId)
    requires OneLive(db) && BillsLinked(db) && Agrees(db, q) && b in db.bills
    requires Activated(db, d, db.bills[b].assignment, db.bills[b].tenant, db.bills[b].room)
    ensures Agrees(d, q)
  {
    hide Agrees, PeriodFits, NumberOf;
    var a := db.bills[b].assignment;
    if db.assignments[a].status == Pending {
      MoveKeepsAgreement(db, d, a, db.bills[b].room, Occupied, q);
    } else {
      SameKeepsAgreement(db, d, q);
    }
  }

  lemma PaymentKeepsAgreement(db: Db, op: Op, q: RoomId)
    requires OneLive(db) && BillsLinked(db) && Agrees(db, q) && (op.RecordOp? || op.ApproveOp?) && Perform(db, op).Ok?
    ensures Agrees(Perform(db, op).value, q)
  {
    hide Agrees, OneLive, BillsLinked, Settle, Activated, Settled;
    match op
    case RecordOp(o, i, now, p) =>
      var at := PaymentDate(i.date, now).value;
      SettleSettles(db, o, i.bill, i.amount, at, i.payMethod, Optional(i.reference), Optional(i.notes), at, p);
      ActivatedKeepsAgreement(db, Perform(db, op).value, i.bill, q);
    case ApproveOp(o, s, now, p) =>
      var sub := db.submissions[s];
      SettleSettles(db, o, sub.bill, sub.amount, sub.transferDate, sub.payMethod, sub.reference, None, now, p);
      var d := Settle(db, o, sub.bill, sub.amount, sub.transferDate, sub.payMethod, sub.reference, None, now, p).value;
      ActivatedKeepsAgreement(db, d, sub.bill, q);
      SameKeepsAgreement(d, Perform(db, op).value, q);
  }

  lemma CreateKeepsAgreement(db: Db, op: Op, q: RoomId)
    requires AssignmentsLinked(db) && Agrees(db, q) && op.CreateRoomOp? && Enabled(db, op) && Perform(db, op).Ok?
    ensures Agrees(Perform(db, op).value, q)
  {
    hide RoomNumberIndexed;
    var d := Perform(db, op).value;
    assert forall s :: Holds(d, q, s) <==> Holds(db, q, s);
  }

  // ----- the owner's patches

  /** A patch that neither enters nor leaves occupied, and neither enters nor leaves reserved. */
  predicate SameUse(before: RoomStatus, after: RoomStatus) {
    (after == Occupied <==> before == Occupied) && (after == Reserved <==> before == Reserved)
  }

  /** op is not a patch of room r that changes its use. */
  predicate Benign(db: Db, op: Op, r: RoomId) {
    op.PatchRoomOp? && op.r == r && HasRoom(db, r, op.owner) && op.room.status.Some? ==>
      SameUse(db.rooms[r].status, op.room.status.value)
  }

  lemma PatchKeepsAgreementIff(db: Db, o: OwnerId, r: RoomId, p: RoomPatch)
    requires Agrees(db, r) && PatchRoom(db, o, r, p).Ok?
    ensures Agrees(PatchRoom(db, o, r, p).value, r) <==> Benign(db, PatchRoomOp(o, r, p), r)
  {
    hide RoomNumberIndexed;
    var d := PatchRoom(db, o, r, p).value;
    assert forall s :: Holds(d, r, s) <==> Holds(db, r, s);
  }

  /** An owner's patch keeps the rooms table telling who lives where exactly when it neither enters nor
      leaves occupied and neither enters nor leaves reserved. */
  lemma PatchKeepsOccupancyIff(db: Db, o: OwnerId, r: RoomId, p: RoomPatch)
    requires Occupancy(db) && PatchRoom(db, o, r, p).Ok?
    ensures Occupancy(PatchRoom(db, o, r, p).value)
            <==> (p.status.Some? ==> SameUse(db.rooms[r].status, p.status.value))
  {
    hide Agrees, RoomNumberIndexed;
    var d := PatchRoom(db, o, r, p).value;
    PatchKeepsAgreementIff(db, o, r, p);
    forall q | q in d.rooms && q != r ensures Agrees(d, q) {
      SameKeepsAgreement(db, d, q);
    }
    assert Occupancy(d) ==> Agrees(d, r);
  }

  /** Such a run: any owner creates a room and patches it to occupied. */
  lemma PatchBreaksOccupancy(o: OwnerId, number: string, rent: int, r: RoomId)
    requires rent >= 1
    ensures var ops := [CreateRoomOp(o, number, rent, Available, r), PatchRoomOp(o, r, RoomPatch(None, None, Some(Occupied)))];
            Legal(EMPTY, ops) && !Occupancy(Replay(EMPTY, ops))
  {
    hide Legal, Replay, Occupancy;
    var first, second := CreateRoomOp(o, number, rent, Available, r), PatchRoomOp(o, r, RoomPatch(None, None, Some(Occupied)));
    NoSteps(EMPTY);
    LegalAppend(EMPTY, [], first);
    assert [] + [first] == [first];
    LegalAppend(EMPTY, [first], second);
    assert [first] + [second] == [first, second];
    NotLivedIn(Replay(EMPTY, [first, second]), r);
  }

  lemma NoSteps(db: Db)
    ensures Legal(db, []) && Replay(db, []) == db
  {
  }

  lemma NotLivedIn(db: Db, r: RoomId)
    requires db.assignments == map[] && r in db.rooms && db.rooms[r].status == Occupied
    ensures !Occupancy(db)
  {
    assert !Agrees(db, r);
  }

  // ----- every run

  lemma StepKeepsAgreement(db: Db, op: Op, r: RoomId)
    requires Inv(db) && Enabled(db, op) && Agrees(db, r) && Benign(db, op, r)
    ensures Agrees(Apply(db, op), r)
  {
    hide Agrees, Tenancy, Billing, Paying, Claiming, AssignRoom, CancelOnboarding, RecordManual, Approve, Settle;
    hide GenerateMonthly, PayBill, RoomNumberIndexed, EmailIndexed, WithStatus, Enabled, Benign;
    Linked(db);
    if Perform(db, op).Ok? {
      if op.AssignOp? {
        AssignKeepsAgreement(db, op.owner, op.assign, op.a, op.b, r);
      } else if op.CancelOp? {
        CancelKeepsAgreement(db, op.owner, op.a, r);
      } else if op.RecordOp? || op.ApproveOp? {
        PaymentKeepsAgreement(db, op, r);
      } else if op.CreateRoomOp? {
        CreateKeepsAgreement(db, op, r);
      } else if op.PatchRoomOp? && op.r == r {
        PatchKeepsAgreementIff(db, op.owner, r, op.room);
      } else {
        OtherRoomsStay(db, op, r);
        SameKeepsAgreement(db, Apply(db, op), r);
      }
    }
  }

  lemma Linked(db: Db)
    requires Inv(db)
    ensures OneLive(db) && BillsLinked(db) && AssignmentsLinked(db)
  {
    hide OneLive, BillsLinked, AssignmentsLinked, Paying, Claiming;
  }

  lemma OtherRoomsStay(db: Db, op: Op, r: RoomId)
    requires !op.AssignOp? && !op.CancelOp? && !op.RecordOp? && !op.ApproveOp? && !op.CreateRoomOp?
    requires op.PatchRoomOp? ==> op.r != r
    ensures var d := Apply(db, op);
            d.assignments == db.assignments && (r in d.rooms ==> r in db.rooms && d.rooms[r].status == db.rooms[r].status)
  {
    hide RoomNumberIndexed, EmailIndexed, WithStatus, Missing, Clashes, NewBills, LiveCheckouts, PendingIndexed;
  }

  /** No step of the run is a patch of room r that changes its use. */
  ghost predicate BenignRun(ops: seq<Op>, r: RoomId) {
    ops == [] || (BenignRun(ops[..|ops| - 1], r) && Benign(Replay(EMPTY, ops[..|ops| - 1]), ops[|ops| - 1], r))
  }

  /** In every run whose patches of a room do not change its use, the room is occupied iff it has an active
      assignment and reserved iff it has a pending one. */
  lemma {:induction false} RunKeepsAgreement(ops: seq<Op>, r: RoomId)
    requires Legal(EMPTY, ops) && BenignRun(ops, r)
    ensures Agrees(Replay(EMPTY, ops), r)
  {
    hide Inv, Enabled, Apply, Benign;
    if ops != [] {
      var before, op := ops[..|ops| - 1], ops[|ops| - 1];
      RunKeepsAgreement(before, r);
      EmptyInv();
      RunKeeps(EMPTY, before);
      StepKeepsAgreement(Replay(EMPTY, before), op, r);
    }
  }

  lemma {:induction false} UnpatchedIsBenign(ops: seq<Op>, r: RoomId)
    requires forall op :: op in ops && op.PatchRoomOp? ==> op.room.status.None?
    ensures BenignRun(ops, r)
  {
    hide Replay;
    if ops != [] {
      assert ops[|ops| - 1] in ops && forall x :: x in ops[..|ops| - 1] ==> x in ops;
      UnpatchedIsBenign(ops[..|ops| - 1], r);
    }
  }

  /** In every run without a room-status patch the rooms table tells who lives where. */
  lemma RunKeepsOccupancy(ops: seq<Op>)
    requires Legal(EMPTY, ops)
    requires forall op :: op in ops && op.PatchRoomOp? ==> op.room.status.None?
    ensures Occupancy(Replay(EMPTY, ops))
  {
    hide Legal, Replay, Agrees, BenignRun;
    forall r | r in Replay(EMPTY, ops).rooms ensures Agrees(Replay(EMPTY, ops), r) {
      UnpatchedIsBenign(ops, r);
      RunKeepsAgreement(ops, r);
    }
  }

  /** The same in every interleaving. */
  lemma InterleavedAgreement(ls: seq<Protocol.Label>, r: RoomId)
    requires Protocol.Schedule(ls) && BenignRun(Protocol.CommitOrder(ls), r)
    ensures Agrees(Protocol.After(ls).db, r)
  {
    hide Agrees, BenignRun, Protocol.MachineInv, Protocol.CommitOrder, Protocol.After, Protocol.Schedule;
    Protocol.Serializable(ls);
    RunKeepsAgreement(Protocol.CommitOrder(ls), r);
  }

  // ----- the room service's delete

  predicate Vacant(db: Db, r: RoomId) {
    forall a :: a in db.assignments && db.assignments[a].room == r ==> !IsLive(db.assignments[a])
  }

  lemma VacantIff(db: Db, r: RoomId)
    ensures Vacant(db, r) <==> !Holds(db, r, Active) && !Holds(db, r, Pending)
  {
  }

  /** In every reachable state, patched or not, a delete leaves nobody without a room exactly when the
      count AssignRoom makes of the room's live assignments would be zero. */
  lemma DeleteVacantIffUncounted(db: Db, o: OwnerId, r: RoomId)
    requires Reachable(db) && DeleteRoom(db, o, r).Ok?
    ensures Vacant(DeleteRoom(db, o, r).value, r) <==> !RoomCounted(db, r, o)
  {
    hide Inv, Reachable;
    ReachableInv(db);
    Linked(db);
  }

  /** It happens with nothing in between: the room of a pending tenant is patched to available and deleted. */
  lemma PatchedThenDeleted(o: OwnerId, r: RoomId, s: RoomId, t: TenantId, u: TenantId, start: Civil, now: Instant,
                           a: AssignmentId, b: BillId) returns (db: Db)
    requires r != s && t != u
    ensures Reachable(db) && RoomCounted(db, r, o)
    ensures DeleteRoom(db, o, r).Ok? && !Vacant(DeleteRoom(db, o, r).value, r)
  {
    hide Reachable, AssignRoom, NewAssignment, FirstBill, RoomCounted, Vacant, RoomNumberIndexed;
    var d0, i := TwoRooms(o, r, s, t, u), AssignInput(t, r, Some(start), 1, 1, now);
    var d1 := Apply(d0, AssignOp(o, i, a, b));
    TwoRoomsReachable(o, r, s, t, u);
    ReachableStep(d0, AssignOp(o, i, a, b));
    FirstOnboarding(d0, o, i, a, b);
    ReachableStep(d1, PatchRoomOp(o, r, RoomPatch(None, None, Some(Available))));
    db := Apply(d1, PatchRoomOp(o, r, RoomPatch(None, None, Some(Available))));
    StillCounted(db, o, i, a);
    DeleteVacantIffUncounted(db, o, r);
  }

  lemma StillCounted(db: Db, o: OwnerId, i: AssignInput, a: AssignmentId)
    requires i.start.Some? && db.assignments == map[a := NewAssignment(o, i)]
    ensures RoomCounted(db, i.room, o)
  {
    hide Date;
    assert a in db.assignments;
  }

  /** The status check alone means that nobody lives there, if no patch changed the room's use. */
  lemma DeletedRoomIsVacant(ops: seq<Op>, o: OwnerId, r: RoomId)
    requires Legal(EMPTY, ops) && BenignRun(ops, r) && DeleteRoom(Replay(EMPTY, ops), o, r).Ok?
    ensures Vacant(DeleteRoom(Replay(EMPTY, ops), o, r).value, r)
  {
    hide Legal, Replay, BenignRun;
    RunKeepsAgreement(ops, r);
    VacantIff(Replay(EMPTY, ops), r);
  }

  /** Somebody was given room r after the check. */
  ghost predicate AssignedSince(db: Db, d: Db, r: RoomId) {
    exists a :: a in d.assignments && a !in db.assignments && d.assignments[a].room == r && IsLive(d.assignments[a])
  }

  lemma LiveIsNew(db: Db, d: Db, r: RoomId)
    requires Vacant(db, r) && Advances(db, d)
    ensures Vacant(d, r) <==> !AssignedSince(db, d, r)
  {
  }

  /** With other steps between the check and the soft delete, the deleted room has a live assignment exactly
      when it was assigned in between, which its status would have told. */
  lemma StaleDeleteVacantIff(ls: seq<Protocol.Label>, more: seq<Protocol.Label>, o: OwnerId, r: RoomId)
    requires Protocol.Schedule(ls + more) && BenignRun(Protocol.CommitOrder(ls + more), r)
    requires Protocol.Schedule(ls) && DeleteRoom(Protocol.After(ls).db, o, r).Ok? && HasRoom(Protocol.After(ls + more).db, r, o)
    ensures var db, d := Protocol.After(ls).db, Protocol.After(ls + more).db;
            var e := Apply(d, SoftDeleteRoomOp(o, r));
            && r in e.rooms && e.rooms[r].deleted
            && (!Vacant(e, r) <==> AssignedSince(db, d, r))
            && (!Vacant(e, r) <==> d.rooms[r].status == Occupied || d.rooms[r].status == Reserved)
  {
    hide Protocol.Schedule, Protocol.After, Protocol.CommitOrder, BenignRun, Advances, Vacant, AssignedSince, Agrees;
    var db, d := Protocol.After(ls).db, Protocol.After(ls + more).db;
    Protocol.LaterAdvances(ls, more);
    InterleavedAgreement(ls + more, r);
    BenignBefore(ls, more, r);
    InterleavedAgreement(ls, r);
    StatusTells(db, r);
    StatusTells(d, r);
    LiveIsNew(db, d, r);
    SameVacancy(d, Apply(d, SoftDeleteRoomOp(o, r)), r);
  }

  lemma StatusTells(db: Db, r: RoomId)
    requires Agrees(db, r) && r in db.rooms
    ensures Vacant(db, r) <==> db.rooms[r].status != Occupied && db.rooms[r].status != Reserved
  {
    VacantIff(db, r);
  }

  lemma SameVacancy(db: Db, d: Db, r: RoomId)
    requires d.assignments == db.assignments
    ensures Vacant(d, r) <==> Vacant(db, r)
  {
  }

  lemma BenignBefore(ls: seq<Protocol.Label>, more: seq<Protocol.Label>, r: RoomId)
    requires Protocol.Schedule(ls + more) && BenignRun(Protocol.CommitOrder(ls + more), r)
    ensures Protocol.Schedule(ls) && BenignRun(Protocol.CommitOrder(ls), r)
  {
    hide Protocol.Schedule, Protocol.CommitOrder, BenignRun;
    var tail := Protocol.CommitOrderGrows(ls, more);
    BenignPrefix(Protocol.CommitOrder(ls), tail, r);
  }

  lemma {:induction false} BenignPrefix(ops: seq<Op>, tail: seq<Op>, r: RoomId)
    requires BenignRun(ops + tail, r)
    ensures BenignRun(ops, r)
    decreases |tail|
  {
    hide Benign, Replay;
    if tail == [] {
      assert ops + tail == ops;
    } else {
      assert (ops + tail)[..|ops + tail| - 1] == ops + tail[..|tail| - 1];
      BenignPrefix(ops, tail[..|tail| - 1], r);
    }
  }

  /** It can always happen: a delete that checked just before an assignment still removes the room of the
      now pending tenant. */
  lemma DeleteRace(db: Db, o: OwnerId, i: AssignInput, a: AssignmentId, b: BillId)
    requires AssignRoom(db, o, i, a, b).Ok?
    ensures DeleteRoom(db, o, i.room).Ok?
    ensures var e := Apply(AssignRoom(db, o, i, a, b).value, SoftDeleteRoomOp(o, i.room));
            i.room in e.rooms && e.rooms[i.room].deleted && !Vacant(e, i.room)
  {
    hide FirstBill, Date;
    var e := Apply(AssignRoom(db, o, i, a, b).value, SoftDeleteRoomOp(o, i.room));
    assert a in e.assignments && e.assignments[a].room == i.room && IsLive(e.assignments[a]);
  }
}
