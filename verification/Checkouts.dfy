/** What a PayBill request becomes: the checkout it opens, how long it is handed out again, and when the next
    one is opened. */
module Checkouts {
  import opened Types
  import opened Operations
  import opened Invariants
  import opened Preservation
  import opened Runs

  /** When a checkout opened by the request expires: after the configured lifetime, or after a day. */
  function ExpiryOf(i: PayInput): Instant {
    i.openAt + if i.ttl > 0 then i.ttl else 86_400_000_000
  }

  /** The request opened checkout c instead of handing out another. */
  ghost predicate OpensNew(db: Db, d: Db, o: OwnerId, i: PayInput, c: CheckoutId) {
    c !in db.checkouts && PayBill(db, o, i, c) == Ok(d) && d != db
  }

  /** A PayBill that changes anything adds one checkout with the request's clock readings and the bill's amount
      and parties, sends the bill to the gateway, and changes nothing else. */
  lemma CheckoutStores(db: Db, o: OwnerId, i: PayInput, c: CheckoutId)
    requires PayBill(db, o, i, c).Ok? && PayBill(db, o, i, c).value != db
    ensures var d := PayBill(db, o, i, c).value;
            && OpensNew(db, d, o, i, c) && c in d.checkouts && i.bill in db.bills && i.known
            && d == db.(checkouts := db.checkouts[c := d.checkouts[c]],
                        bills := db.bills[i.bill := db.bills[i.bill].(status := GatewayPending)])
            && (var x := d.checkouts[c];
                && x.owner == o == db.bills[i.bill].owner && x.tenant == i.tenant == db.bills[i.bill].tenant
                && x.bill == i.bill && x.amount == db.bills[i.bill].amount && x.createdAt == i.startAt
                && x.openedAt == i.openAt && x.expiresAt == ExpiryOf(i))
  {
    hide LiveCheckouts;
  }

  /** A PayBill that changes nothing found a live checkout of a bill in the gateway. */
  lemma CheckoutReused(db: Db, o: OwnerId, i: PayInput, c: CheckoutId)
    requires PayBill(db, o, i, c) == Ok(db)
    ensures i.bill in db.bills && db.bills[i.bill].status == GatewayPending && LiveCheckouts(db, i.bill, o, i.lookupAt) != {}
  {
    hide LiveCheckouts;
    assert c in db.checkouts || db.checkouts[c := NewCheckout(o, db.bills[i.bill], i)] != db.checkouts;
  }

  /** With a new id, PayBill succeeds exactly when the provider is known and the bill is the tenant's and neither
      paid nor cancelled. */
  lemma PayAccepted(db: Db, o: OwnerId, i: PayInput, c: CheckoutId)
    requires Reachable(db) && c !in db.checkouts
    ensures PayBill(db, o, i, c).Ok? <==>
              && i.known && i.bill in db.bills && db.bills[i.bill].owner == o && db.bills[i.bill].tenant == i.tenant
              && db.bills[i.bill].status != Paid && db.bills[i.bill].status != CancelledBill
  {
    hide Reachable, LiveCheckouts;
    if i.bill in db.bills { BillOfTenancy(db, i.bill); }
  }

  // ----- from one opening to the next

  /** Every PayBill of the bill reads the clock between the opening and the expiry. */
  ghost predicate WithinLife(ops: seq<Op>, b: BillId, from: Instant, until: Instant) {
    forall op :: op in ops && op.PayBillOp? && op.pay.bill == b ==> from <= op.pay.lookupAt < until
  }

  /** c is the one checkout of the bill valid after the instant from, and it expires at until. */
  ghost predicate LastCheckout(db: Db, o: OwnerId, b: BillId, c: CheckoutId, from: Instant, until: Instant) {
    && b in db.bills && db.bills[b].owner == o && IsOpened(db.bills[b].status)
    && c in db.checkouts && db.checkouts[c].bill == b && db.checkouts[c].owner == o && db.checkouts[c].expiresAt == until
    && forall x :: x in db.checkouts && db.checkouts[x].bill == b && x != c ==> db.checkouts[x].expiresAt <= from
  }

  predicate IsOpened(s: BillStatus) { s != Unpaid && s != Overdue }

  lemma LastIsLive(db: Db, o: OwnerId, b: BillId, c: CheckoutId, from: Instant, until: Instant, at: Instant)
    requires LastCheckout(db, o, b, c, from, until) && from <= at
    ensures LiveCheckouts(db, b, o, at) == if at < until then {c} else {}
  {
  }

  lemma OpeningIsLast(db: Db, o: OwnerId, i: PayInput, c: CheckoutId, d: Db)
    requires Reachable(db) && OpensNew(db, d, o, i, c) && i.lookupAt <= i.openAt
    ensures LastCheckout(d, o, i.bill, c, i.openAt, ExpiryOf(i))
  {
    hide Reachable, PayBill, NewCheckout, Tenancy, Billing, Claiming, PaymentsLinked, PaidOnce, CheckoutsApart;
    CheckoutStores(db, o, i, c);
    ReachableInv(db);
    PayBillOpens(db, o, i, c);
  }

  lemma OtherStepKeepsCheckouts(db: Db, op: Op)
    requires !op.PayBillOp?
    ensures Apply(db, op).checkouts == db.checkouts
  {
  }

  /** A PayBill of another bill adds no checkout of this one, and one of this bill within its checkout's life
      changes nothing. */
  lemma LastStep(db: Db, op: Op, o: OwnerId, b: BillId, c: CheckoutId, from: Instant, until: Instant)
    requires Enabled(db, op) && LastCheckout(db, o, b, c, from, until) && WithinLife([op], b, from, until)
    ensures LastCheckout(Apply(db, op), o, b, c, from, until)
  {
    hide Apply, Enabled, LiveCheckouts, PayBill;
    StepAdvances(db, op);
    if op.PayBillOp? {
      PayStep(db, op, o, b, c, from, until);
    } else {
      OtherStepKeepsCheckouts(db, op);
    }
  }

  lemma PayStep(db: Db, op: Op, o: OwnerId, b: BillId, c: CheckoutId, from: Instant, until: Instant)
    requires op.PayBillOp? && LastCheckout(db, o, b, c, from, until) && WithinLife([op], b, from, until)
    ensures forall x :: x in Apply(db, op).checkouts && Apply(db, op).checkouts[x].bill == b ==> x in db.checkouts
  {
    hide LiveCheckouts, LastCheckout;
    if op.pay.bill == b {
      assert op in [op];
      PayWithinLife(db, op, o, b, c, from, until);
    } else if Apply(db, op) != db {
      CheckoutStores(db, op.owner, op.pay, op.c);
    }
  }

  lemma PayWithinLife(db: Db, op: Op, o: OwnerId, b: BillId, c: CheckoutId, from: Instant, until: Instant)
    requires op.PayBillOp? && LastCheckout(db, o, b, c, from, until) && op.pay.bill == b && from <= op.pay.lookupAt < until
    ensures Apply(db, op) == db
  {
    hide LiveCheckouts;
    LastIsLive(db, o, b, c, from, until, op.pay.lookupAt);
  }

  lemma {:induction false} LastRun(db: Db, ops: seq<Op>, o: OwnerId, b: BillId, c: CheckoutId, from: Instant, until: Instant)
    requires Legal(db, ops) && LastCheckout(db, o, b, c, from, until) && WithinLife(ops, b, from, until)
    ensures LastCheckout(Replay(db, ops), o, b, c, from, until)
  {
    hide LastCheckout, Enabled, Apply;
    if ops != [] {
      var before, op := ops[..|ops| - 1], ops[|ops| - 1];
      LastRun(db, before, o, b, c, from, until);
      LastStep(Replay(db, before), op, o, b, c, from, until);
    }
  }

  lemma OpeningReachable(db: Db, o: OwnerId, i: PayInput, c: CheckoutId, d: Db)
    requires Reachable(db) && OpensNew(db, d, o, i, c) && i.lookupAt <= i.openAt
    ensures Reachable(d) && i.bill in d.bills && d.bills[i.bill].tenant == i.tenant
  {
    hide Reachable, PayBill;
    CheckoutStores(db, o, i, c);
    ReachableStep(db, PayBillOp(o, i, c));
  }

  /** What a PayBill makes of the last checkout of its bill. */
  lemma NextPay(db: Db, o: OwnerId, b: BillId, c: CheckoutId, from: Instant, until: Instant, j: PayInput, n: CheckoutId)
    requires Reachable(db) && LastCheckout(db, o, b, c, from, until) && IsCollectible(db.bills[b].status) && n !in db.checkouts
    requires j.bill == b && j.tenant == db.bills[b].tenant && j.known && from <= j.lookupAt <= j.openAt
    ensures var r := PayBill(db, o, j, n);
            if j.lookupAt < until then
              && r == Ok(db) && NewestLive(db, o, b, j.lookupAt, c)
              && forall x :: NewestLive(db, o, b, j.lookupAt, x) ==> x == c
            else
              r.Ok? && OpensNew(db, r.value, o, j, n) && LiveCheckouts(r.value, b, o, j.lookupAt) == {n}
  {
    hide Reachable, LiveCheckouts, Tenancy, Paying, Claiming, NumberOf, PeriodFits;
    LastIsLive(db, o, b, c, from, until, j.lookupAt);
    if j.lookupAt >= until {
      BillOfTenancy(db, b);
      var d := PayBill(db, o, j, n).value;
      assert n in d.checkouts && n !in db.checkouts;
      NewIsOnlyLive(db, o, j, n, d);
    }
  }

  /** Renewal. After an opening, and any further run in which every PayBill of the bill reads the clock within
      the checkout's life, a later PayBill on the bill hands out that same checkout while the clock shows less
      than the opening plus the lifetime, and from then on opens a new one, the only live one. */
  lemma Renewal(db: Db, o: OwnerId, i: PayInput, c: CheckoutId, d: Db, ops: seq<Op>, j: PayInput, n: CheckoutId)
    requires Reachable(db) && OpensNew(db, d, o, i, c) && i.lookupAt <= i.openAt
    requires Legal(d, ops) && WithinLife(ops, i.bill, i.openAt, ExpiryOf(i))
    requires j.bill == i.bill && j.tenant == i.tenant && j.known && i.openAt <= j.lookupAt <= j.openAt
    requires var e := Replay(d, ops); n !in e.checkouts && HasBill(e, i.bill, o) && IsCollectible(e.bills[i.bill].status)
    ensures var e, r := Replay(d, ops), PayBill(Replay(d, ops), o, j, n);
            if j.lookupAt < ExpiryOf(i) then
              && r == Ok(e) && NewestLive(e, o, i.bill, j.lookupAt, c)
              && forall x :: NewestLive(e, o, i.bill, j.lookupAt, x) ==> x == c
            else
              r.Ok? && OpensNew(e, r.value, o, j, n) && LiveCheckouts(r.value, i.bill, o, j.lookupAt) == {n}
  {
    hide Reachable, PayBill, Legal, Replay, LiveCheckouts, WithinLife, ExpiryOf, LastCheckout, OpensNew;
    var e := Replay(d, ops);
    OpeningIsLast(db, o, i, c, d);
    LastRun(d, ops, o, i.bill, c, i.openAt, ExpiryOf(i));
    LastIsLive(e, o, i.bill, c, i.openAt, ExpiryOf(i), j.lookupAt);
    OpeningReachable(db, o, i, c, d);
    ReachableRun(d, ops);
    RunAdvances(d, ops);
    NextPay(e, o, i.bill, c, i.openAt, ExpiryOf(i), j, n);
  }
}
