/** The owner's rooms and tenants: a create or patch stores what it was asked to, numbers and emails stay unique,
    and a deleted row is never touched again. */
module Directory {
  import opened Types
  import opened Operations
  import opened Runs

  // ----- what one request stores

  /** A column after a patch: the patch's value if it has one, the old value otherwise. */
  predicate Takes<T(==)>(now: T, before: T, patch: Option<T>) {
    (patch.Some? ==> now == patch.value) && (patch.None? ==> now == before)
  }

  /** An email column after the text was given; an empty text clears it. */
  predicate TakesEmail(now: Option<string>, before: Option<string>, patch: Option<string>) {
    && (patch.None? ==> now == before)
    && (patch.Some? ==> (now.None? <==> patch.value == "") && (now.Some? ==> now.value == patch.value))
  }

  /** A successful create or patch of a room or tenant leaves exactly the given columns in exactly that row. */
  lemma RowsStore(db: Db, op: Op)
    requires Perform(db, op).Ok?
    ensures var d := Perform(db, op).value;
            match op
            case CreateRoomOp(o, number, rent, status, r) =>
              && r !in db.rooms && r in d.rooms && d == db.(rooms := db.rooms[r := d.rooms[r]])
              && d.rooms[r].owner == o && d.rooms[r].number == number && d.rooms[r].rent == rent
              && d.rooms[r].status == status && !d.rooms[r].deleted
            case PatchRoomOp(o, r, p) =>
              && r in db.rooms && r in d.rooms && d == db.(rooms := db.rooms[r := d.rooms[r]])
              && db.rooms[r].owner == o == d.rooms[r].owner && !db.rooms[r].deleted && !d.rooms[r].deleted
              && Takes(d.rooms[r].number, db.rooms[r].number, p.number) && Takes(d.rooms[r].rent, db.rooms[r].rent, p.rent)
              && Takes(d.rooms[r].status, db.rooms[r].status, p.status)
            case CreateTenantOp(o, email, t) =>
              && t !in db.tenants && t in d.tenants && d == db.(tenants := db.tenants[t := d.tenants[t]])
              && d.tenants[t].owner == o && d.tenants[t].status == AwaitingPayment && !d.tenants[t].deleted
              && TakesEmail(d.tenants[t].email, None, Some(email))
            case PatchTenantOp(o, t, p) =>
              && t in db.tenants && t in d.tenants && d == db.(tenants := db.tenants[t := d.tenants[t]])
              && db.tenants[t].owner == o == d.tenants[t].owner && !db.tenants[t].deleted && !d.tenants[t].deleted
              && TakesEmail(d.tenants[t].email, db.tenants[t].email, p.email)
              && Takes(d.tenants[t].status, db.tenants[t].status, p.status)
            case _ => true
  {
    hide AssignRoom, CancelOnboarding, GenerateMonthly, RecordManual, Approve, PayBill, RoomNumberIndexed, EmailIndexed;
  }

  // ----- what stays

  /** Rooms and tenants are never removed and never change owner, and a deleted one is as it was deleted. */
  ghost predicate DeletedStay(db: Db, d: Db) {
    && (forall r :: r in db.rooms ==>
          r in d.rooms && d.rooms[r].owner == db.rooms[r].owner && (db.rooms[r].deleted ==> d.rooms[r] == db.rooms[r]))
    && (forall t :: t in db.tenants ==>
          t in d.tenants && d.tenants[t].owner == db.tenants[t].owner && (db.tenants[t].deleted ==> d.tenants[t] == db.tenants[t]))
  }

  /** The same rooms with the same numbers, the same tenants with the same emails. */
  ghost predicate NamesStay(db: Db, d: Db) {
    && d.rooms.Keys == db.rooms.Keys && d.tenants.Keys == db.tenants.Keys
    && (forall r :: r in db.rooms ==> d.rooms[r] == db.rooms[r].(status := d.rooms[r].status))
    && (forall t :: t in db.tenants ==> d.tenants[t] == db.tenants[t].(status := d.tenants[t].status))
  }

  predicate IsDirectoryStep(op: Op) {
    || op.CreateRoomOp? || op.PatchRoomOp? || op.SoftDeleteRoomOp? || op.CreateTenantOp? || op.PatchTenantOp?
    || op.SoftDeleteTenantOp?
  }

  lemma LedgerStep(db: Db, op: Op)
    requires !IsDirectoryStep(op)
    ensures DeletedStay(db, Apply(db, op)) && NamesStay(db, Apply(db, op))
  {
    hide Apply, DeletedStay, NamesStay;
    if op.AssignOp? || op.CancelOp? {
      OnboardingRows(db, op);
    } else if op.RecordOp? || op.ApproveOp? {
      PaymentRows(db, op);
    } else {
      OtherRows(db, op);
      SameRowsStay(db, Apply(db, op));
    }
  }

  lemma SameRowsStay(db: Db, d: Db)
    requires d.rooms == db.rooms && d.tenants == db.tenants
    ensures DeletedStay(db, d) && NamesStay(db, d)
  {
  }

  lemma OnboardingRows(db: Db, op: Op)
    requires op.AssignOp? || op.CancelOp?
    ensures DeletedStay(db, Apply(db, op)) && NamesStay(db, Apply(db, op))
  {
    hide RoomCounted, TenantCounted, RoomIndexed, TenantIndexed, NumberIndexed, MonthIndexed, FirstBill, NewAssignment;
    hide WithStatus, CollectibleBills;
  }

  lemma OtherRows(db: Db, op: Op)
    requires !IsDirectoryStep(op) && !op.AssignOp? && !op.CancelOp? && !op.RecordOp? && !op.ApproveOp?
    ensures Apply(db, op).rooms == db.rooms && Apply(db, op).tenants == db.tenants
  {
  }

  lemma PaymentRows(db: Db, op: Op)
    requires op.RecordOp? || op.ApproveOp?
    ensures DeletedStay(db, Apply(db, op)) && NamesStay(db, Apply(db, op))
  {
    hide Settle, PaymentDate;
    match op
    case RecordOp(o, i, now, p) =>
      if Perform(db, op).Ok? {
        var at := PaymentDate(i.date, now).value;
        SettleTouches(db, o, i.bill, i.amount, at, i.payMethod, Optional(i.reference), Optional(i.notes), at, p);
      }
    case ApproveOp(o, s, now, p) =>
      if Perform(db, op).Ok? {
        var sub := db.submissions[s];
        SettleTouches(db, o, sub.bill, sub.amount, sub.transferDate, sub.payMethod, sub.reference, None, now, p);
      }
  }

  lemma SettleTouches(db: Db, o: OwnerId, b: BillId, amount: int, date: int, payMethod: string, reference: Option<string>,
                      notes: Option<string>, paidAt: int, p: PaymentId)
    requires Settle(db, o, b, amount, date, payMethod, reference, notes, paidAt, p).Ok?
    ensures var d := Settle(db, o, b, amount, date, payMethod, reference, notes, paidAt, p).value;
            DeletedStay(db, d) && NamesStay(db, d)
  {
    hide PaymentIndexed;
  }

  lemma DirectoryStep(db: Db, op: Op)
    requires IsDirectoryStep(op)
    ensures DeletedStay(db, Apply(db, op))
  {
    hide RoomNumberIndexed, EmailIndexed;
    if op.CreateRoomOp? || op.PatchRoomOp? || op.SoftDeleteRoomOp? {
      RoomStep(db, op);
    } else {
      TenantStep(db, op);
    }
    hide Apply;
  }

  lemma RoomStep(db: Db, op: Op)
    requires op.CreateRoomOp? || op.PatchRoomOp? || op.SoftDeleteRoomOp?
    ensures DeletedStay(db, Apply(db, op)) && Apply(db, op).tenants == db.tenants
  {
    hide RoomNumberIndexed;
  }

  lemma TenantStep(db: Db, op: Op)
    requires op.CreateTenantOp? || op.PatchTenantOp? || op.SoftDeleteTenantOp?
    ensures DeletedStay(db, Apply(db, op)) && Apply(db, op).rooms == db.rooms
  {
    hide EmailIndexed;
  }

  /** Over any run no room or tenant disappears or changes hands, and a deleted one never changes again. */
  lemma {:induction false} DeletedStays(db: Db, ops: seq<Op>)
    requires Legal(db, ops)
    ensures DeletedStay(db, Replay(db, ops))
  {
    hide Apply, Enabled;
    if ops != [] {
      var before, op := ops[..|ops| - 1], ops[|ops| - 1];
      DeletedStays(db, before);
      if IsDirectoryStep(op) { DirectoryStep(Replay(db, before), op); } else { LedgerStep(Replay(db, before), op); }
    }
  }

  // ----- unique numbers and emails

  /** unique (owner, room_number), deleted rooms included. */
  ghost predicate NumbersUnique(db: Db) {
    forall r, x :: r in db.rooms && x in db.rooms && db.rooms[r].owner == db.rooms[x].owner
      && db.rooms[r].number == db.rooms[x].number
      ==> r == x
  }

  /** unique (lower(email)) among the tenants that are not deleted. */
  ghost predicate EmailsUnique(db: Db) {
    forall t, x :: t in db.tenants && x in db.tenants && !db.tenants[t].deleted && !db.tenants[x].deleted
      && SameEmail(db.tenants[t].email, db.tenants[x].email)
      ==> t == x
  }

  lemma NumbersStep(db: Db, op: Op)
    requires NumbersUnique(db)
    ensures NumbersUnique(Apply(db, op))
  {
    hide EmailIndexed;
    if !IsDirectoryStep(op) { LedgerStep(db, op); hide Apply; }
  }

  lemma EmailsStep(db: Db, op: Op)
    requires EmailsUnique(db)
    ensures EmailsUnique(Apply(db, op))
  {
    hide RoomNumberIndexed, SameEmail;
    forall e, f { SameEmailSymmetric(e, f); }
    if !IsDirectoryStep(op) { LedgerStep(db, op); hide Apply; }
  }

  lemma SameEmailSymmetric(e: Option<string>, f: Option<string>)
    ensures SameEmail(e, f) == SameEmail(f, e)
  {
    hide LowerCase;
  }

  lemma {:induction false} UniqueRun(ops: seq<Op>)
    requires Legal(EMPTY, ops)
    ensures NumbersUnique(Replay(EMPTY, ops)) && EmailsUnique(Replay(EMPTY, ops))
  {
    hide Apply, Enabled, SameEmail;
    if ops != [] {
      UniqueRun(ops[..|ops| - 1]);
      NumbersStep(Replay(EMPTY, ops[..|ops| - 1]), ops[|ops| - 1]);
      EmailsStep(Replay(EMPTY, ops[..|ops| - 1]), ops[|ops| - 1]);
    }
  }

  /** In every reachable state an owner's rooms have different numbers, and the emails of tenants that are not
      deleted differ in more than the case of their letters. */
  lemma NamesAreUnique(db: Db)
    requires Reachable(db)
    ensures NumbersUnique(db) && EmailsUnique(db)
  {
    hide Legal, Replay, NumbersUnique, EmailsUnique;
    var ops :| Legal(EMPTY, ops) && Replay(EMPTY, ops) == db;
    UniqueRun(ops);
  }

  /** The same letter, or its lower-case or upper-case form. */
  predicate SameLetter(c: char, d: char) {
    || c == d
    || ('A' <= c <= 'Z' && d as int == c as int + 32)
    || ('A' <= d <= 'Z' && c as int == d as int + 32)
  }

  lemma SameEmailIsCaseBlind(e: string, f: string)
    ensures SameEmail(Some(e), Some(f)) <==> |e| == |f| && forall k :: 0 <= k < |e| ==> SameLetter(e[k], f[k])
  {
    if LowerCase(e) == LowerCase(f) {
      forall k | 0 <= k < |e| ensures SameLetter(e[k], f[k]) {
        assert LowerCase(e)[k] == LowerCase(f)[k];
      }
    }
  }
}
