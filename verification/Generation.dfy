/** Monthly billing: the row-by-row loop against its set-level meaning, and what a month's run adds. */
module Generation {
  import opened Types
  import opened Calendar
  import opened MonthText
  import opened Operations
  import opened Invariants
  import opened Runs

  /** The tables after the new bills of the set were inserted. */
  function WithNew(db: Db, o: OwnerId, k: Month, new': set<Listed>): Db
    requires !Clashes(db, o, k, new')
  {
    db.(bills := db.bills + NewBills(o, k, new'))
  }

  lemma NewRow(db: Db, o: OwnerId, k: Month, new': set<Listed>, y: Listed)
    requires !Clashes(db, o, k, new') && y in new'
    ensures y.bill in WithNew(db, o, k, new').bills && WithNew(db, o, k, new').bills[y.bill] == MonthlyBill(o, k, y)
    ensures var z := MonthlyBill(o, k, y); z.owner == o && z.assignment == y.id && z.month == k && z.number == NumberOf(k, y.id)
  {
    hide NumberOf;
    assert y.bill in NewBills(o, k, new');
  }

  lemma OldOrNew(db: Db, o: OwnerId, k: Month, new': set<Listed>, b: BillId)
    requires !Clashes(db, o, k, new') && b in WithNew(db, o, k, new').bills
    ensures (b in db.bills && WithNew(db, o, k, new').bills[b] == db.bills[b]) || exists y :: y in new' && y.bill == b
  {
    hide NumberOf, MonthlyBill;
  }

  lemma OldRow(db: Db, o: OwnerId, k: Month, new': set<Listed>, b: BillId)
    requires !Clashes(db, o, k, new') && b in db.bills
    ensures b in WithNew(db, o, k, new').bills && WithNew(db, o, k, new').bills[b] == db.bills[b]
  {
    hide NumberOf, MonthlyBill;
  }

  /** An assignment has the month in the middle of the loop iff it had it before or was just billed. */
  lemma MonthInside(db: Db, o: OwnerId, k: Month, new': set<Listed>, x: Listed)
    requires !Clashes(db, o, k, new')
    requires forall y :: y in new' && y.id == x.id ==> y == x
    ensures MonthIndexed(WithNew(db, o, k, new'), x.id, k) <==> MonthIndexed(db, x.id, k) || x in new'
  {
    hide WithNew, Clashes, NumberOf, MonthlyBill;
    var v := WithNew(db, o, k, new');
    if x in new' { NewRow(db, o, k, new', x); }
    if MonthIndexed(db, x.id, k) {
      var b :| b in db.bills && db.bills[b].assignment == x.id && db.bills[b].month == k;
      OldRow(db, o, k, new', b);
    }
    if MonthIndexed(v, x.id, k) {
      var b :| b in v.bills && v.bills[b].assignment == x.id && v.bills[b].month == k;
      OldOrNew(db, o, k, new', b);
      if y :| y in new' && y.bill == b { NewRow(db, o, k, new', y); }
    }
  }

  /** The insert in the middle of the loop is refused iff the set with it clashes. */
  lemma ClashInside(db: Db, o: OwnerId, k: Month, new': set<Listed>, x: Listed)
    requires !Clashes(db, o, k, new') && x !in new'
    ensures var v := WithNew(db, o, k, new');
            x.bill in v.bills || NumberIndexed(v, o, NumberOf(k, x.id)) <==> Clashes(db, o, k, new' + {x})
  {
    hide WithNew, NumberOf, MonthlyBill;
    var v, n := WithNew(db, o, k, new'), NumberOf(k, x.id);
    if x.bill in v.bills || NumberIndexed(v, o, n) {
      var b := if x.bill in v.bills then x.bill else (var c :| c in v.bills && v.bills[c].owner == o && v.bills[c].number == n; c);
      OldOrNew(db, o, k, new', b);
      if b !in db.bills || v.bills[b] != db.bills[b] {
        var y :| y in new' && y.bill == b;
        NewRow(db, o, k, new', y);
        assert y in new' + {x} && x in new' + {x} && x != y;
      } else {
        assert x in new' + {x};
      }
    }
    if Clashes(db, o, k, new' + {x}) {
      ClashComesFrom(db, o, k, new', x);
      forall b | b in db.bills ensures b in v.bills && v.bills[b] == db.bills[b] { OldRow(db, o, k, new', b); }
      forall y | y in new'
        ensures y.bill in v.bills && v.bills[y.bill].owner == o && v.bills[y.bill].number == NumberOf(k, y.id)
      {
        NewRow(db, o, k, new', y);
      }
    }
  }

  lemma ClashComesFrom(db: Db, o: OwnerId, k: Month, new': set<Listed>, x: Listed)
    requires !Clashes(db, o, k, new') && Clashes(db, o, k, new' + {x})
    ensures || x.bill in db.bills || NumberIndexed(db, o, NumberOf(k, x.id))
            || exists y :: y in new' && (x.bill == y.bill || NumberOf(k, x.id) == NumberOf(k, y.id))
  {
    hide NumberOf;
  }

  lemma ClashGrows(db: Db, o: OwnerId, k: Month, new': set<Listed>, more: set<Listed>)
    requires Clashes(db, o, k, new') && new' <= more
    ensures Clashes(db, o, k, more)
  {
    hide NumberOf;
  }

  lemma NewBillsAdd(db: Db, o: OwnerId, k: Month, new': set<Listed>, x: Listed)
    requires !Clashes(db, o, k, new') && !Clashes(db, o, k, new' + {x})
    ensures NewBills(o, k, new' + {x}) == NewBills(o, k, new')[x.bill := MonthlyBill(o, k, x)]
  {
    hide NumberOf, MonthlyBill;
  }

  lemma MissingGrows(db: Db, k: Month, list: seq<Listed>, n: nat)
    requires 0 < n <= |list|
    ensures Missing(db, k, list[..n])
            == Missing(db, k, list[..n - 1]) + if MonthIndexed(db, list[n - 1].id, k) then {} else {list[n - 1]}
  {
    hide MonthIndexed;
    assert list[..n] == list[..n - 1] + [list[n - 1]];
  }

  /** In a list that names no assignment twice, the next row is missing iff its month is. */
  lemma MissingNext(db: Db, k: Month, list: seq<Listed>, n: nat)
    requires 0 < n <= |list| && DistinctIds(list)
    ensures var x, done := list[n - 1], Missing(db, k, list[..n - 1]);
            && Missing(db, k, list[..n]) == (if MonthIndexed(db, x.id, k) || x in done then done else done + {x})
            && (forall y :: y in done && y.id == x.id ==> y == x)
  {
    hide MonthIndexed;
    MissingGrows(db, k, list, n);
    forall y | y in Missing(db, k, list[..n - 1]) ensures y in list { IsListed(db, k, list[..n - 1], y); }
  }

  // ----- what one run adds

  ghost predicate DistinctIds(list: seq<Listed>) {
    forall x, y :: x in list && y in list && x.id == y.id ==> x == y
  }

  /** A successful run gives every listed assignment a bill for the month and adds only unpaid bills
      of that month, one for each listed assignment that had none. */
  lemma RunBillsEveryone(db: Db, o: OwnerId, k: Month, list: seq<Listed>)
    requires DistinctIds(list) && GenerateMonthly(db, o, k, list).Ok?
    ensures var d, new' := GenerateMonthly(db, o, k, list).value, Missing(db, k, list);
            && d == db.(bills := d.bills)
            && (forall x :: x in list ==> MonthIndexed(d, x.id, k))
            && (forall b :: b in db.bills ==> b in d.bills && d.bills[b] == db.bills[b])
            && d.bills.Keys - db.bills.Keys == (set x | x in new' :: x.bill)
            && |d.bills| == |db.bills| + |new'|
            && (forall x :: x in new' ==> x.bill in d.bills && d.bills[x.bill] == MonthlyBill(o, k, x))
  {
    hide NumberOf, MonthlyBill, NumberIndexed, MonthIndexed, WithNew, Clashes, Missing, NewBills, GenerateMonthly;
    var new' := Missing(db, k, list);
    RunIsWithNew(db, o, k, list);
    var d := WithNew(db, o, k, new');
    forall x | x in list ensures MonthIndexed(d, x.id, k) {
      IsMissing(db, k, list, x);
      forall y | y in new' ensures y in list { IsListed(db, k, list, y); }
      MonthInside(db, o, k, new', x);
    }
    forall b | b in db.bills ensures b in d.bills && d.bills[b] == db.bills[b] { OldRow(db, o, k, new', b); }
    forall x | x in new' ensures x.bill in d.bills && d.bills[x.bill] == MonthlyBill(o, k, x) { NewRow(db, o, k, new', x); }
    NewKeys(db, o, k, new');
  }

  lemma RunIsWithNew(db: Db, o: OwnerId, k: Month, list: seq<Listed>)
    requires GenerateMonthly(db, o, k, list).Ok?
    ensures !Clashes(db, o, k, Missing(db, k, list))
    ensures GenerateMonthly(db, o, k, list).value == WithNew(db, o, k, Missing(db, k, list))
  {
    hide Missing, NumberOf, MonthlyBill;
  }

  lemma IsMissing(db: Db, k: Month, list: seq<Listed>, x: Listed)
    requires x in list
    ensures x in Missing(db, k, list) <==> !MonthIndexed(db, x.id, k)
  {
  }

  lemma IsListed(db: Db, k: Month, list: seq<Listed>, x: Listed)
    requires x in Missing(db, k, list)
    ensures x in list
  {
  }

  lemma NewKeys(db: Db, o: OwnerId, k: Month, new': set<Listed>)
    requires !Clashes(db, o, k, new')
    ensures var d := WithNew(db, o, k, new');
            d == db.(bills := d.bills) && d.bills.Keys - db.bills.Keys == (set x | x in new' :: x.bill)
            && |d.bills| == |db.bills| + |new'|
  {
    hide NumberOf, MonthlyBill;
    var ids := set x | x in new' :: x.bill;
    var news := NewBills(o, k, new');
    assert news.Keys == ids;
    assert (db.bills + news).Keys == db.bills.Keys + ids;
    IdsCount(new');
  }

  lemma {:induction false} IdsCount(new': set<Listed>)
    requires forall x, y :: x in new' && y in new' && x != y ==> x.bill != y.bill
    ensures |set x | x in new' :: x.bill| == |new'|
  {
    var ids := set x | x in new' :: x.bill;
    if new' != {} {
      var x :| x in new';
      IdsCount(new' - {x});
      assert ids == (set y | y in new' - {x} :: y.bill) + {x.bill};
    }
  }

  /** Running the same month again adds nothing, whatever list of the same assignments it reads (BR-016). */
  lemma RerunAddsNothing(db: Db, o: OwnerId, k: Month, list: seq<Listed>, again: seq<Listed>)
    requires DistinctIds(list) && GenerateMonthly(db, o, k, list).Ok?
    requires forall y :: y in again ==> exists x :: x in list && x.id == y.id
    ensures var d := GenerateMonthly(db, o, k, list).value; GenerateMonthly(d, o, k, again) == Ok(d)
  {
    hide NumberOf, MonthlyBill, MonthIndexed, NumberIndexed, GenerateMonthly, Clashes, Missing;
    var d := GenerateMonthly(db, o, k, list).value;
    RunBillsEveryone(db, o, k, list);
    NothingMissing(d, o, k, again);
  }

  lemma NothingMissing(d: Db, o: OwnerId, k: Month, list: seq<Listed>)
    requires forall x :: x in list ==> MonthIndexed(d, x.id, k)
    ensures GenerateMonthly(d, o, k, list) == Ok(d)
  {
    hide NumberOf, MonthlyBill, MonthIndexed, NumberIndexed;
    assert Missing(d, k, list) == {};
    assert d.bills + NewBills(o, k, {}) == d.bills;
  }

  // ----- runs of different months

  lemma OtherMonthSame(db: Db, o: OwnerId, j: Month, new': set<Listed>, k: Month, a: AssignmentId, n: BillNumber)
    requires !Clashes(db, o, j, new') && j != k && n.month == k
    ensures MonthIndexed(WithNew(db, o, j, new'), a, k) == MonthIndexed(db, a, k)
    ensures NumberIndexed(WithNew(db, o, j, new'), o, n) == NumberIndexed(db, o, n)
  {
    hide WithNew, Clashes, MonthlyBill, NumberPrefix;
    var d := WithNew(db, o, j, new');
    forall b | b in d.bills && (d.bills[b].month == k || d.bills[b].number.month == k)
      ensures b in db.bills && d.bills[b] == db.bills[b]
    {
      OldOrNew(db, o, j, new', b);
      if y :| y in new' && y.bill == b { NewRow(db, o, j, new', y); }
    }
    forall b | b in db.bills ensures b in d.bills && d.bills[b] == db.bills[b] { OldRow(db, o, j, new', b); }
  }

  /** What billing month k does is not affected by having billed another month first. */
  lemma OtherMonthFirst(db: Db, o: OwnerId, j: Month, list: seq<Listed>, k: Month, later: seq<Listed>)
    requires j != k && GenerateMonthly(db, o, j, list).Ok?
    requires forall x, y :: x in list && y in later ==> x.bill != y.bill
    ensures var d := GenerateMonthly(db, o, j, list).value;
            && Missing(d, k, later) == Missing(db, k, later)
            && Clashes(d, o, k, Missing(d, k, later)) == Clashes(db, o, k, Missing(db, k, later))
  {
    hide Clashes, MonthlyBill, NumberPrefix, MonthIndexed, NumberIndexed, NewBills;
    var new' := Missing(db, j, list);
    var d := WithNew(db, o, j, new');
    forall x | x in later
      ensures MonthIndexed(d, x.id, k) == MonthIndexed(db, x.id, k)
      ensures NumberIndexed(d, o, NumberOf(k, x.id)) == NumberIndexed(db, o, NumberOf(k, x.id))
      ensures x.bill in d.bills <==> x.bill in db.bills
    {
      OtherMonthSame(db, o, j, new', k, x.id, NumberOf(k, x.id));
      if x.bill in db.bills { OldRow(db, o, j, new', x.bill); }
      if x.bill in d.bills { OldOrNew(db, o, j, new', x.bill); }
    }
    hide WithNew;
    SameIndexesSameClashes(db, d, o, k, Missing(db, k, later));
  }

  lemma SameIndexesSameClashes(db: Db, d: Db, o: OwnerId, k: Month, new': set<Listed>)
    requires forall x :: x in new' ==>
               (x.bill in d.bills <==> x.bill in db.bills)
               && NumberIndexed(d, o, NumberOf(k, x.id)) == NumberIndexed(db, o, NumberOf(k, x.id))
    ensures Clashes(d, o, k, new') == Clashes(db, o, k, new')
  {
    hide NumberOf, NumberIndexed;
  }

  /** Billing two different months commutes, refused runs included. */
  lemma MonthsCommute(db: Db, o: OwnerId, j: Month, list: seq<Listed>, k: Month, later: seq<Listed>)
    requires j != k && forall x, y :: x in list && y in later ==> x.bill != y.bill
    ensures var f, g := GenerateOp(o, j, list), GenerateOp(o, k, later);
            Apply(Apply(db, f), g) == Apply(Apply(db, g), f)
  {
    hide Missing, Clashes, MonthlyBill;
    if GenerateMonthly(db, o, j, list).Ok? { OtherMonthFirst(db, o, j, list, k, later); }
    if GenerateMonthly(db, o, k, later).Ok? { OtherMonthFirst(db, o, k, later, j, list); }
    if GenerateMonthly(db, o, j, list).Ok? && GenerateMonthly(db, o, k, later).Ok? {
      MergesCommute(db, o, j, list, k, later);
    }
  }

  lemma MergesCommute(db: Db, o: OwnerId, j: Month, list: seq<Listed>, k: Month, later: seq<Listed>)
    requires GenerateMonthly(db, o, j, list).Ok? && GenerateMonthly(db, o, k, later).Ok?
    requires forall x, y :: x in list && y in later ==> x.bill != y.bill
    ensures var m, n := NewBills(o, j, Missing(db, j, list)), NewBills(o, k, Missing(db, k, later));
            db.bills + m + n == db.bills + n + m
  {
    hide MonthlyBill, MonthIndexed, NumberIndexed, NumberOf, NewBills, Clashes, GenerateMonthly, Missing;
    RunIsWithNew(db, o, j, list);
    RunIsWithNew(db, o, k, later);
    var f, g := Missing(db, j, list), Missing(db, k, later);
    forall x | x in f ensures x in list { IsListed(db, j, list, x); }
    forall y | y in g ensures y in later { IsListed(db, k, later, y); }
    BillIds(db, o, j, f);
    BillIds(db, o, k, g);
    DisjointMerge(db.bills, NewBills(o, j, f), NewBills(o, k, g));
  }

  lemma BillIds(db: Db, o: OwnerId, k: Month, new': set<Listed>)
    requires !Clashes(db, o, k, new')
    ensures forall x, y :: x in new' && y in new' && x != y ==> x.bill != y.bill
    ensures forall b :: b in NewBills(o, k, new') ==> exists x :: x in new' && x.bill == b
  {
    hide NumberOf, MonthlyBill;
  }

  lemma DisjointMerge<V>(m: map<nat, V>, n: map<nat, V>, q: map<nat, V>)
    requires n.Keys !! q.Keys
    ensures m + n + q == m + q + n
  {
  }

  // ----- when a bill number is taken

  /** Another assignment of the owner with the same first eight digits has, or is getting, a bill for the month. */
  ghost predicate PrefixTaken(db: Db, o: OwnerId, k: Month, new': set<Listed>, x: Listed) {
    || (exists b :: b in db.bills && db.bills[b].owner == o && db.bills[b].month == k && db.bills[b].assignment != x.id
                    && NumberPrefix(db.bills[b].assignment) == NumberPrefix(x.id))
    || (exists y :: y in new' && y.id != x.id && NumberPrefix(y.id) == NumberPrefix(x.id))
  }

  /** With new row ids, a run is refused exactly when two of the owner's assignments to be billed for
      the month share the eight digits a bill number keeps. */
  lemma RefusedIffPrefixTaken(db: Db, o: OwnerId, k: Month, list: seq<Listed>)
    requires BillsLinked(db) && DistinctIds(list)
    requires forall x :: x in list ==> x.bill !in db.bills
    requires forall x, y :: x in list && y in list && x != y ==> x.bill != y.bill
    ensures var new' := Missing(db, k, list);
            GenerateMonthly(db, o, k, list).Err? <==> exists x :: x in new' && PrefixTaken(db, o, k, new', x)
  {
    hide PeriodFits, NumberPrefix;
    var new' := Missing(db, k, list);
    if Clashes(db, o, k, new') {
      if x :| x in new' && NumberIndexed(db, o, NumberOf(k, x.id)) {
        assert PrefixTaken(db, o, k, new', x);
      } else {
        var x, y :| x in new' && y in new' && x != y && NumberOf(k, x.id) == NumberOf(k, y.id);
        assert PrefixTaken(db, o, k, new', x);
      }
    }
    if x :| x in new' && PrefixTaken(db, o, k, new', x) {
      if !NumberIndexed(db, o, NumberOf(k, x.id)) {
        var y :| y in new' && y.id != x.id && NumberPrefix(y.id) == NumberPrefix(x.id);
        assert x != y && NumberOf(k, x.id) == NumberOf(k, y.id);
      }
    }
  }

  ghost predicate BilledPrefix(db: Db, o: OwnerId, k: Month, prefix: nat) {
    exists b :: b in db.bills && db.bills[b].owner == o && db.bills[b].month == k
                && NumberPrefix(db.bills[b].assignment) == prefix
  }

  /** An onboarding that passed its other checks is refused for its bill exactly when another assignment
      of the owner with the same eight digits was billed for the start month. */
  lemma FirstBillRefusedIffPrefixTaken(db: Db, o: OwnerId, i: AssignInput, a: AssignmentId, b: BillId)
    requires BillsLinked(db) && a !in db.assignments && b !in db.bills
    requires var r := AssignRoom(db, o, i, a, b); r.Ok? || r == Err(DuplicateBill)
    ensures AssignRoom(db, o, i, a, b).Err? <==>
              i.start.Some? && BilledPrefix(db, o, MonthIndex(i.start.value.year, i.start.value.month), NumberPrefix(a))
  {
    hide PeriodFits, NumberPrefix, Date, MonthIndex, RoomCounted, TenantCounted, RoomIndexed, TenantIndexed;
  }

  // ----- it happens: two assignments with one bill number

  /** The 128-bit values that random (version 4) UUIDs take. */
  predicate IsRandomUuid(n: nat) {
    n < 0x1_0000_0000_0000_0000_0000_0000_0000_0000
    && n / 0x1000_0000_0000_0000_0000 % 16 == 4 && n / 0x4000_0000_0000_0000 % 4 == 2
  }

  const ONE_ID: AssignmentId := 0xC0FF_EE00_0000_4000_8000_0000_0000_0001

  const OTHER_ID: AssignmentId := 0xC0FF_EE00_0000_4000_8000_0000_0000_0002

  /** Two ids the database can draw whose assignments have the same bill number in every month. */
  lemma RandomIdsCollide(k: Month)
    ensures IsRandomUuid(ONE_ID) && IsRandomUuid(OTHER_ID) && ONE_ID != OTHER_ID
    ensures NumberPrefix(ONE_ID) == NumberPrefix(OTHER_ID) && NumberOf(k, ONE_ID) == NumberOf(k, OTHER_ID)
  {
  }

  /** Two available rooms and two tenants of one owner. */
  function TwoRooms(o: OwnerId, r: RoomId, s: RoomId, t: TenantId, u: TenantId): Db {
    EMPTY.(rooms := map[r := Room(o, "1", 1, Available, false), s := Room(o, "2", 1, Available, false)],
           tenants := map[t := Tenant(o, None, AwaitingPayment, false), u := Tenant(o, None, AwaitingPayment, false)])
  }

  lemma TwoRoomsReachable(o: OwnerId, r: RoomId, s: RoomId, t: TenantId, u: TenantId)
    requires r != s && t != u
    ensures Reachable(TwoRooms(o, r, s, t, u))
  {
    hide Reachable;
    var d2 := EMPTY.(rooms := map[r := Room(o, "1", 1, Available, false), s := Room(o, "2", 1, Available, false)]);
    RoomsReachable(o, r, s);
    var d3 := d2.(tenants := map[t := Tenant(o, None, AwaitingPayment, false)]);
    ReachableStep(d2, CreateTenantOp(o, "", t));
    assert d3 == Apply(d2, CreateTenantOp(o, "", t));
    ReachableStep(d3, CreateTenantOp(o, "", u));
    assert TwoRooms(o, r, s, t, u) == Apply(d3, CreateTenantOp(o, "", u));
  }

  lemma RoomsReachable(o: OwnerId, r: RoomId, s: RoomId)
    requires r != s
    ensures Reachable(EMPTY.(rooms := map[r := Room(o, "1", 1, Available, false), s := Room(o, "2", 1, Available, false)]))
  {
    hide Reachable;
    var d1 := EMPTY.(rooms := map[r := Room(o, "1", 1, Available, false)]);
    EmptyReachable();
    ReachableStep(EMPTY, CreateRoomOp(o, "1", 1, Available, r));
    assert d1 == Apply(EMPTY, CreateRoomOp(o, "1", 1, Available, r));
    ReachableStep(d1, CreateRoomOp(o, "2", 1, Available, s));
    assert d1.(rooms := d1.rooms[s := Room(o, "2", 1, Available, false)]) == Apply(d1, CreateRoomOp(o, "2", 1, Available, s));
  }

  /** What one successful onboarding into an empty ledger leaves, and that others can follow. */
  lemma FirstOnboarding(db: Db, o: OwnerId, i: AssignInput, a: AssignmentId, b: BillId)
    requires db.assignments == map[] && db.bills == map[] && HasRoom(db, i.room, o) && HasTenant(db, i.tenant, o)
    requires db.rooms[i.room].status == Available && i.start.Some?
    ensures AssignRoom(db, o, i, a, b).Ok?
    ensures var d := AssignRoom(db, o, i, a, b).value;
            && d.assignments == map[a := NewAssignment(o, i)] && d.bills == map[b := FirstBill(o, i, a)]
            && d.payments == db.payments
            && (forall r :: r != i.room && HasRoom(db, r, o) ==> HasRoom(d, r, o) && d.rooms[r] == db.rooms[r])
            && (forall t :: t != i.tenant && HasTenant(db, t, o) ==> HasTenant(d, t, o))
            && HasRoom(d, i.room, o) && HasTenant(d, i.tenant, o)
  {
    hide FirstPeriod, NumberOf, Date;
  }

  /** A second onboarding in the same month: refused for the bill, if the eight digits are the same. */
  lemma SecondOnboardingRefused(db: Db, o: OwnerId, i: AssignInput, a: AssignmentId, b: BillId,
                                j: AssignInput, c: AssignmentId, d: BillId)
    requires i.start.Some? && i.start == j.start && i.room != j.room && i.tenant != j.tenant && a != c && b != d
    requires NumberPrefix(a) == NumberPrefix(c)
    requires db.assignments == map[a := NewAssignment(o, i)] && db.bills == map[b := FirstBill(o, i, a)]
    requires HasRoom(db, j.room, o) && db.rooms[j.room].status == Available && HasTenant(db, j.tenant, o)
    ensures AssignRoom(db, o, j, c, d) == Err(DuplicateBill)
  {
    hide NumberPrefix, Date;
    assert b in db.bills && db.bills[b].number == FirstBill(o, j, c).number;
  }

  /** In any owner's ledger with two rooms and two tenants, an onboarding can be refused only because the
      database drew an id with the same eight digits as another. */
  lemma OnboardingRefusedForDigits(o: OwnerId, r: RoomId, s: RoomId, t: TenantId, u: TenantId, start: Civil, now: Instant,
                                   a: AssignmentId, b: BillId, c: AssignmentId, d: BillId)
    requires r != s && t != u && a != c && b != d && NumberPrefix(a) == NumberPrefix(c)
    ensures var i, j := AssignInput(t, r, Some(start), 1, 1, now), AssignInput(u, s, Some(start), 1, 1, now);
            var db := Apply(TwoRooms(o, r, s, t, u), AssignOp(o, i, a, b));
            Reachable(db) && AssignRoom(db, o, j, c, d) == Err(DuplicateBill)
  {
    hide Reachable, AssignRoom, NumberPrefix, NewAssignment, FirstBill;
    var i, j := AssignInput(t, r, Some(start), 1, 1, now), AssignInput(u, s, Some(start), 1, 1, now);
    var db := TwoRooms(o, r, s, t, u);
    TwoRoomsReachable(o, r, s, t, u);
    ReachableStep(db, AssignOp(o, i, a, b));
    FirstOnboarding(db, o, i, a, b);
    SecondOnboardingRefused(Apply(db, AssignOp(o, i, a, b)), o, i, a, b, j, c, d);
  }

  /** With ids the database can draw: the second of these two assignments is refused. */
  lemma RandomIdsRefused(o: OwnerId, r: RoomId, s: RoomId, t: TenantId, u: TenantId, start: Civil, now: Instant,
                         b: BillId, d: BillId)
    requires r != s && t != u && b != d
    ensures var i, j := AssignInput(t, r, Some(start), 1, 1, now), AssignInput(u, s, Some(start), 1, 1, now);
            var db := Apply(TwoRooms(o, r, s, t, u), AssignOp(o, i, ONE_ID, b));
            && IsRandomUuid(ONE_ID) && IsRandomUuid(OTHER_ID)
            && Reachable(db) && AssignRoom(db, o, j, OTHER_ID, d) == Err(DuplicateBill)
  {
    hide Reachable, AssignRoom, TwoRooms;
    RandomIdsCollide(0);
    OnboardingRefusedForDigits(o, r, s, t, u, start, now, ONE_ID, b, OTHER_ID, d);
  }

  /** The second onboarding goes through in another month. */
  lemma SecondOnboarding(db: Db, o: OwnerId, i: AssignInput, a: AssignmentId, b: BillId,
                         j: AssignInput, c: AssignmentId, d: BillId)
    requires i.start.Some? && j.start.Some? && i.room != j.room && i.tenant != j.tenant && a != c && b != d
    requires MonthIndex(i.start.value.year, i.start.value.month) != MonthIndex(j.start.value.year, j.start.value.month)
    requires db.assignments == map[a := NewAssignment(o, i)] && db.bills == map[b := FirstBill(o, i, a)]
    requires HasRoom(db, i.room, o) && HasTenant(db, i.tenant, o)
    requires HasRoom(db, j.room, o) && db.rooms[j.room].status == Available && HasTenant(db, j.tenant, o)
    ensures AssignRoom(db, o, j, c, d).Ok?
    ensures Tenanted(AssignRoom(db, o, j, c, d).value, o, i, a, b) && Tenanted(AssignRoom(db, o, j, c, d).value, o, j, c, d)
    ensures var e := AssignRoom(db, o, j, c, d).value;
            && e.bills.Keys == {b, d} && e.payments == db.payments && e.assignments.Keys == {a, c}
            && a in e.assignments && c in e.assignments
            && e.assignments[a].status == Pending && e.assignments[c].status == Pending
            && e.bills[b].status == Unpaid && e.bills[d].status == Unpaid
  {
    hide NumberPrefix, Date, MonthIndex;
  }

  /** Assignment a, as made from input i, with its first bill b; both may have moved on. */
  predicate Tenanted(db: Db, o: OwnerId, i: AssignInput, a: AssignmentId, b: BillId)
    requires i.start.Some?
  {
    && a in db.assignments && db.assignments[a] == NewAssignment(o, i).(status := db.assignments[a].status)
    && b in db.bills && db.bills[b] == FirstBill(o, i, a).(status := db.bills[b].status, paidAt := db.bills[b].paidAt)
    && HasRoom(db, i.room, o) && HasTenant(db, i.tenant, o)
  }

  function PayInFull(db: Db, b: BillId, at: Instant): ManualInput
    requires b in db.bills
  {
    ManualInput(b, db.bills[b].amount, Given(at), "cash", "", "")
  }

  /** The first payment of a pending tenancy, next to another one. */
  lemma FirstPayment(db: Db, o: OwnerId, i: AssignInput, a: AssignmentId, b: BillId,
                     j: AssignInput, c: AssignmentId, d: BillId, at: Instant, p: PaymentId)
    requires i.start.Some? && j.start.Some? && a != c && b != d && Tenanted(db, o, i, a, b) && Tenanted(db, o, j, c, d)
    requires db.assignments[a].status == Pending && db.bills[b].status == Unpaid && p !in db.payments
    requires forall q :: q in db.payments ==> db.payments[q].bill != b
    ensures var op := RecordOp(o, PayInFull(db, b, at), at, p);
            var e := Apply(db, op);
            && Tenanted(e, o, i, a, b) && Tenanted(e, o, j, c, d) && a in e.assignments && c in e.assignments
            && e.assignments.Keys == db.assignments.Keys && e.assignments[a].status == Active
            && e.assignments[c] == db.assignments[c] && e.bills[d] == db.bills[d] && e.bills.Keys == db.bills.Keys
            && e.payments.Keys == db.payments.Keys + {p} && e.payments[p].bill == b
            && (forall q :: q in db.payments ==> e.payments[q] == db.payments[q])
  {
    hide FirstPeriod, NumberOf, Date;
  }

  /** Two listed assignments with the same eight digits, neither billed for month k: the run is refused. */
  lemma TwinsRefused(db: Db, o: OwnerId, k: Month, list: seq<Listed>, x: Listed, y: Listed)
    requires x in list && y in list && x.id != y.id && NumberPrefix(x.id) == NumberPrefix(y.id)
    requires forall b :: b in db.bills ==> db.bills[b].month != k
    ensures GenerateMonthly(db, o, k, list) == Err(BillNumberTaken)
  {
    hide NumberPrefix;
    assert x in Missing(db, k, list) && y in Missing(db, k, list);
    assert NumberOf(k, x.id) == NumberOf(k, y.id);
  }

  /** Two tenants onboarded in different months, neither has paid. */
  lemma TwoPending(o: OwnerId, i: AssignInput, a: AssignmentId, b: BillId, j: AssignInput, c: AssignmentId, d: BillId)
    returns (db: Db)
    requires i.start.Some? && j.start.Some? && i.room != j.room && i.tenant != j.tenant && a != c && b != d
    requires i.rent >= 1 && 1 <= i.dueDay <= 31 && j.rent >= 1 && 1 <= j.dueDay <= 31
    requires MonthIndex(i.start.value.year, i.start.value.month) != MonthIndex(j.start.value.year, j.start.value.month)
    ensures Reachable(db) && Tenanted(db, o, i, a, b) && Tenanted(db, o, j, c, d)
    ensures db.bills.Keys == {b, d} && db.payments == map[] && db.assignments.Keys == {a, c}
    ensures a in db.assignments && c in db.assignments
    ensures db.assignments[a].status == Pending && db.assignments[c].status == Pending
    ensures db.bills[b].status == Unpaid && db.bills[d].status == Unpaid
  {
    hide Reachable, AssignRoom, NumberPrefix, NewAssignment, FirstBill, MonthIndex, Tenanted;
    var d0 := TwoRooms(o, i.room, j.room, i.tenant, j.tenant);
    TwoRoomsReachable(o, i.room, j.room, i.tenant, j.tenant);
    ReachableStep(d0, AssignOp(o, i, a, b));
    FirstOnboarding(d0, o, i, a, b);
    var d1 := Apply(d0, AssignOp(o, i, a, b));
    ReachableStep(d1, AssignOp(o, j, c, d));
    SecondOnboarding(d1, o, i, a, b, j, c, d);
    db := Apply(d1, AssignOp(o, j, c, d));
  }

  /** The list names every active assignment of the owner. */
  ghost predicate ListsEvery(db: Db, o: OwnerId, list: seq<Listed>) {
    forall a :: a in db.assignments && db.assignments[a].owner == o && db.assignments[a].status == Active ==>
      exists x :: x in list && x.id == a
  }

  /** A ledger, reached by two onboardings in different months and their first payments, in which no other
      month can be billed: the run over the owner's active assignments is refused. */
  lemma BillingRefusedForDigits(o: OwnerId, r: RoomId, s: RoomId, t: TenantId, u: TenantId, start: Civil, later: Civil,
                                now: Instant, a: AssignmentId, b: BillId, c: AssignmentId, d: BillId,
                                p: PaymentId, q: PaymentId) returns (db: Db)
    requires r != s && t != u && a != c && b != d && p != q && NumberPrefix(a) == NumberPrefix(c)
    requires MonthIndex(start.year, start.month) != MonthIndex(later.year, later.month)
    ensures Reachable(db) && db.assignments.Keys == {a, c} && a in db.assignments && c in db.assignments
    ensures db.assignments[a].owner == db.assignments[c].owner == o
    ensures db.assignments[a].status == db.assignments[c].status == Active
    ensures forall k: Month, list: seq<Listed> ::
              k != MonthIndex(start.year, start.month) && k != MonthIndex(later.year, later.month)
              && ListedActive(db, o, list) && ListsEvery(db, o, list) ==>
                GenerateMonthly(db, o, k, list) == Err(BillNumberTaken)
  {
    hide Reachable, RecordManual, NumberPrefix, NewAssignment, FirstBill, MonthIndex, Tenanted, GenerateMonthly, ListedActive;
    var i, j := AssignInput(t, r, Some(start), 1, 1, now), AssignInput(u, s, Some(later), 1, 1, now);
    var d2 := TwoPending(o, i, a, b, j, c, d);
    ReachableStep(d2, RecordOp(o, PayInFull(d2, b, now), now, p));
    FirstPayment(d2, o, i, a, b, j, c, d, now, p);
    var d3 := Apply(d2, RecordOp(o, PayInFull(d2, b, now), now, p));
    ReachableStep(d3, RecordOp(o, PayInFull(d3, d, now), now, q));
    FirstPayment(d3, o, j, c, d, i, a, b, now, q);
    db := Apply(d3, RecordOp(o, PayInFull(d3, d, now), now, q));
    TwinsActive(db, o, i, a, b, j, c, d);
    forall k: Month, list: seq<Listed>
      | k != MonthIndex(start.year, start.month) && k != MonthIndex(later.year, later.month)
        && ListedActive(db, o, list) && ListsEvery(db, o, list)
      ensures GenerateMonthly(db, o, k, list) == Err(BillNumberTaken)
    {
      var x :| x in list && x.id == a;
      var y :| y in list && y.id == c;
      TwinsRefused(db, o, k, list, x, y);
    }
  }

  lemma TwinsActive(db: Db, o: OwnerId, i: AssignInput, a: AssignmentId, b: BillId,
                    j: AssignInput, c: AssignmentId, d: BillId)
    requires i.start.Some? && j.start.Some? && a != c && Tenanted(db, o, i, a, b) && Tenanted(db, o, j, c, d)
    requires db.bills.Keys == {b, d}
    ensures a in db.assignments && c in db.assignments && db.assignments[a].owner == o && db.assignments[c].owner == o
    ensures forall e :: e in db.bills ==>
              || db.bills[e].month == MonthIndex(i.start.value.year, i.start.value.month)
              || db.bills[e].month == MonthIndex(j.start.value.year, j.start.value.month)
  {
    hide NumberPrefix, Date, MonthIndex;
  }

  // ----- the text of bill numbers

  /** The model's number is the text the service builds: the month and the first eight digits of the id. */
  lemma NumberIsItsText(k: Month, a: AssignmentId)
    requires YearOf(k) <= 9999 && a < Power16(32)
    ensures NumberText(NumberOf(k, a)) == "INV-" + Format(k) + "-" + Hex(a, 32)[..8]
  {
    hide Format, Hex, Power16, Shifted;
    PowerOf24();
    HexCut(a, 32, 24);
    ShiftDivides(a, 24);
    PrefixDivides(a);
    QuotientUnique(a, Power16(24), NumberPrefix(a), Shifted(a, 24));
  }

  lemma PrefixDivides(a: AssignmentId)
    ensures var m := 0x1_0000_0000_0000_0000_0000_0000; m * NumberPrefix(a) <= a < m * NumberPrefix(a) + m
  {
  }

  lemma PowerOf24()
    ensures Power16(24) == 0x1_0000_0000_0000_0000_0000_0000
  {
    assert Power16(1) == 16;
    Power16Adds(1, 1);
    Power16Adds(2, 2);
    Power16Adds(4, 4);
    Power16Adds(8, 8);
    Power16Adds(8, 16);
  }
}
