/** The dashboard's collected money: month windows, sums over payments, and what they add up to. */
module Money {
  import opened Types
  import opened Calendar
  import opened MonthText
  import opened Operations
  import opened Invariants
  import opened Preservation
  import opened Runs

  // ----- finite sums

  /** The sum of a table column. */
  ghost function Sum(m: map<nat, int>): int {
    if m == map[] then 0
    else
      var k :| k in m;
      m[k] + Sum(m - {k})
  }

  /** The sum does not depend on which row is taken first. */
  lemma {:induction false} SumWithout(m: map<nat, int>, k: nat)
    requires k in m
    ensures Sum(m) == m[k] + Sum(m - {k})
    decreases |m|
  {
    var j :| j in m && Sum(m) == m[j] + Sum(m - {j});
    if j != k {
      assert k in m - {j} && j in m - {k};
      Shrinks(m, j);
      Shrinks(m, k);
      SumWithout(m - {j}, k);
      SumWithout(m - {k}, j);
      assert (m - {j}) - {k} == (m - {k}) - {j};
    }
  }

  lemma Shrinks<V>(m: map<nat, V>, k: nat)
    requires k in m
    ensures |m - {k}| == |m| - 1
  {
    assert (m - {k}).Keys == m.Keys - {k};
    assert |m| == |m.Keys| && |m - {k}| == |(m - {k}).Keys|;
  }

  lemma SumOfNone()
    ensures Sum(map[]) == 0
  {
  }

  lemma {:induction false} SumOfUnion(m: map<nat, int>, n: map<nat, int>)
    requires m.Keys !! n.Keys
    ensures Sum(m + n) == Sum(m) + Sum(n)
    decreases |n|
  {
    hide Sum;
    if n == map[] {
      SumOfNone();
      assert m + n == m;
    } else {
      var k :| k in n;
      UnionWithout(m, n, k);
      Shrinks(n, k);
      SumOfUnion(m, n - {k});
      SumWithout(n, k);
      SumWithout(m + n, k);
    }
  }

  lemma UnionWithout(m: map<nat, int>, n: map<nat, int>, k: nat)
    requires m.Keys !! n.Keys && k in n
    ensures k in m + n && (m + n)[k] == n[k] && (m + n) - {k} == m + (n - {k}) && m.Keys !! (n - {k}).Keys
  {
    hide Sum;
  }

  lemma CountOfUnion(m: map<nat, int>, n: map<nat, int>)
    requires m.Keys !! n.Keys
    ensures |m + n| == |m| + |n|
  {
    assert (m + n).Keys == m.Keys + n.Keys;
  }

  /** Columns of two tables agree along a one-to-one link from the rows of m onto the rows of n. */
  ghost predicate Linked(m: map<nat, int>, n: map<nat, int>, link: map<nat, nat>) {
    && link.Keys == m.Keys
    && (forall k :: k in m ==> link[k] in n && n[link[k]] == m[k])
    && (forall j, k :: j in m && k in m && link[j] == link[k] ==> j == k)
    && (forall i :: i in n ==> exists k :: k in m && link[k] == i)
  }

  lemma {:induction false} SumOfLinked(m: map<nat, int>, n: map<nat, int>, link: map<nat, nat>)
    requires Linked(m, n, link)
    ensures Sum(m) == Sum(n) && |m| == |n|
    decreases |m|
  {
    hide Sum;
    if m == map[] {
      assert n == map[];
    } else {
      var k :| k in m;
      Shrinks(m, k);
      Shrinks(n, link[k]);
      DropLinked(m, n, link, k);
      SumOfLinked(m - {k}, n - {link[k]}, link - {k});
      SumWithout(m, k);
      SumWithout(n, link[k]);
    }
  }

  lemma DropLinked(m: map<nat, int>, n: map<nat, int>, link: map<nat, nat>, k: nat)
    requires Linked(m, n, link) && k in m
    ensures Linked(m - {k}, n - {link[k]}, link - {k})
  {
    forall i | i in n - {link[k]} ensures exists j :: j in m - {k} && (link - {k})[j] == i {
      var j :| j in m && link[j] == i;
      assert j in m - {k} && (link - {k})[j] == i;
    }
  }

  // ----- what the dashboard reports

  /** The owner's payments dated in [lo, hi), as amounts. */
  ghost function PaymentsIn(db: Db, o: OwnerId, lo: Instant, hi: Instant): map<PaymentId, int> {
    map p | p in db.payments && db.payments[p].owner == o && lo <= db.payments[p].date < hi :: db.payments[p].amount
  }

  /** collected_amount_this_month and paid_bills_this_month. */
  datatype Summary = Summary(collected: int, paidBills: nat)

  /** The window the service asks for: the first of the month up to one month later. */
  ghost function MonthSummary(db: Db, o: OwnerId, k: Month): Summary {
    var lo, hi := Date(YearOf(k), MonthOf(k), 1) * DAY_TICKS, Date(YearOf(k), MonthOf(k) + 1, 1) * DAY_TICKS;
    Summary(Sum(PaymentsIn(db, o, lo, hi)), |PaymentsIn(db, o, lo, hi)|)
  }

  /** What the dashboard answers for a month's text, or without one for the month the clock shows; None for a text
      that is no month. */
  ghost function Dashboard(db: Db, o: OwnerId, month: string, now: Instant): Option<Summary>
    requires 0 <= now
  {
    match RequestedMonth(month, now)
    case None => None
    case Some(k) => Some(MonthSummary(db, o, k))
  }

  /** The summaries of months j to k - 1 added up. */
  ghost function Months(db: Db, o: OwnerId, j: Month, k: Month): Summary
    requires j <= k
  {
    if j == k then Summary(0, 0)
    else
      var s, t := Months(db, o, j, k - 1), MonthSummary(db, o, k - 1);
      Summary(s.collected + t.collected, s.paidBills + t.paidBills)
  }

  /** The owner's paid bills, as amounts. */
  ghost function PaidBills(db: Db, o: OwnerId): map<BillId, int> {
    map b | b in db.bills && db.bills[b].owner == o && db.bills[b].status == Paid :: db.bills[b].amount
  }

  /** A month's window is where the next one starts. */
  lemma WindowEndsAtNextMonth(k: Month)
    ensures Date(YearOf(k), MonthOf(k) + 1, 1) * DAY_TICKS == MonthOpens(k + 1)
    ensures MonthOpens(k) < MonthOpens(k + 1)
  {
    MonthStep(k);
    MonthEndIsLastDay(YearOf(k), MonthOf(k));
    DateShift(YearOf(k), MonthOf(k), LengthOf(k));
  }

  /** Consecutive month windows partition time: their sums and counts are those of the whole span. */
  lemma {:induction false} MonthsAreTheSpan(db: Db, o: OwnerId, j: Month, k: Month)
    requires j <= k
    ensures Months(db, o, j, k) == Summary(Sum(PaymentsIn(db, o, MonthOpens(j), MonthOpens(k))),
                                           |PaymentsIn(db, o, MonthOpens(j), MonthOpens(k))|)
    decreases k
  {
    hide Sum, PaymentsIn, MonthOpens, Date, YearOf, MonthOf;
    if j == k {
      EmptySpan(db, o, MonthOpens(j));
    } else {
      MonthsAreTheSpan(db, o, j, k - 1);
      MonthIsItsWindow(db, o, k - 1);
      MonthOpensAscend(j, k - 1);
      MonthOpensAscend(k - 1, k);
      SpansJoin(db, o, MonthOpens(j), MonthOpens(k - 1), MonthOpens(k));
      assert k - 1 + 1 == k;
    }
  }

  lemma EmptySpan(db: Db, o: OwnerId, at: Instant)
    ensures Sum(PaymentsIn(db, o, at, at)) == 0 && |PaymentsIn(db, o, at, at)| == 0
  {
    assert PaymentsIn(db, o, at, at) == map[];
  }

  lemma MonthIsItsWindow(db: Db, o: OwnerId, k: Month)
    ensures var m := PaymentsIn(db, o, MonthOpens(k), MonthOpens(k + 1));
            MonthSummary(db, o, k) == Summary(Sum(m), |m|)
  {
    hide Sum, PaymentsIn;
    WindowEndsAtNextMonth(k);
  }

  /** The dashboard sums the payments dated from the opening of the month it is asked for up to the next. */
  lemma DashboardIsWindow(db: Db, o: OwnerId, month: string, now: Instant, k: Month)
    requires 0 <= now && Means(month, now, k)
    ensures var m := PaymentsIn(db, o, MonthOpens(k), MonthOpens(k + 1));
            Dashboard(db, o, month, now) == Some(Summary(Sum(m), |m|))
  {
    hide Sum, PaymentsIn, MonthSummary, RequestedMonth, Means, MonthOpens;
    RequestedIsMeant(month, now, k);
    MonthIsItsWindow(db, o, k);
  }

  lemma SpansJoin(db: Db, o: OwnerId, lo: Instant, mid: Instant, hi: Instant)
    requires lo <= mid <= hi
    ensures Sum(PaymentsIn(db, o, lo, hi)) == Sum(PaymentsIn(db, o, lo, mid)) + Sum(PaymentsIn(db, o, mid, hi))
    ensures |PaymentsIn(db, o, lo, hi)| == |PaymentsIn(db, o, lo, mid)| + |PaymentsIn(db, o, mid, hi)|
  {
    hide Sum, PaymentsIn;
    SpanIsUnion(db, o, lo, mid, hi);
    SumOfUnion(PaymentsIn(db, o, lo, mid), PaymentsIn(db, o, mid, hi));
    CountOfUnion(PaymentsIn(db, o, lo, mid), PaymentsIn(db, o, mid, hi));
  }

  lemma SpanIsUnion(db: Db, o: OwnerId, lo: Instant, mid: Instant, hi: Instant)
    requires lo <= mid <= hi
    ensures var m, n := PaymentsIn(db, o, lo, mid), PaymentsIn(db, o, mid, hi);
            m.Keys !! n.Keys && m + n == PaymentsIn(db, o, lo, hi)
  {
    hide Sum;
  }

  /** Months j to k - 1 cover every date on which the owner was paid. */
  ghost predicate Covers(db: Db, o: OwnerId, j: Month, k: Month) {
    forall p :: p in db.payments && db.payments[p].owner == o ==> MonthOpens(j) <= db.payments[p].date < MonthOpens(k)
  }

  /** Payments and paid bills are the same money: one payment a paid bill, of its amount. */
  lemma PaymentsArePaidBills(db: Db, o: OwnerId, lo: Instant, hi: Instant)
    requires PaymentsLinked(db) && PaidOnce(db)
    requires forall p :: p in db.payments && db.payments[p].owner == o ==> lo <= db.payments[p].date < hi
    ensures Sum(PaymentsIn(db, o, lo, hi)) == Sum(PaidBills(db, o)) && |PaymentsIn(db, o, lo, hi)| == |PaidBills(db, o)|
  {
    var m, n := PaymentsIn(db, o, lo, hi), PaidBills(db, o);
    var link := map p | p in m :: db.payments[p].bill;
    forall b | b in n ensures exists p :: p in m && link[p] == b {
      assert PaymentIndexed(db, b);
      var p :| p in db.payments && db.payments[p].bill == b;
      assert p in m && link[p] == b;
    }
    assert Linked(m, n, link);
    SumOfLinked(m, n, link);
  }

  /** Conservation: in every reachable state the collected amounts of consecutive months that cover the
      owner's payment dates add up to the amounts of the owner's paid bills, and so do the counts. */
  lemma CollectedIsPaid(db: Db, o: OwnerId, j: Month, k: Month)
    requires Reachable(db) && j <= k && Covers(db, o, j, k)
    ensures Months(db, o, j, k) == Summary(Sum(PaidBills(db, o)), |PaidBills(db, o)|)
  {
    hide Reachable, Tenancy, Billing, Claiming, PaymentsLinked, PaidOnce, CheckoutsLinked, CheckoutsApart, MonthOpens;
    ReachableInv(db);
    MonthsAreTheSpan(db, o, j, k);
    PaymentsArePaidBills(db, o, MonthOpens(j), MonthOpens(k));
  }

  // ----- what each operation does to the collected money

  /** The payment an operation makes, if it makes one. */
  ghost function NewPayment(db: Db, op: Op): Option<Payment> {
    if (op.RecordOp? || op.ApproveOp?) && Perform(db, op).Ok? && op.p in Perform(db, op).value.payments
    then Some(Perform(db, op).value.payments[op.p]) else None
  }

  /** Only RecordManual and Approve move money, each exactly its bill's amount into the one window that
      holds its date, and only for the bill's owner. */
  lemma CollectedMoves(db: Db, op: Op, o: OwnerId, lo: Instant, hi: Instant)
    ensures var x := NewPayment(db, op);
            var hit := x.Some? && x.value.owner == o && lo <= x.value.date < hi;
            && Sum(PaymentsIn(Apply(db, op), o, lo, hi)) == Sum(PaymentsIn(db, o, lo, hi)) + (if hit then x.value.amount else 0)
            && |PaymentsIn(Apply(db, op), o, lo, hi)| == |PaymentsIn(db, o, lo, hi)| + (if hit then 1 else 0)
    ensures var x := NewPayment(db, op);
            x.Some? ==> x.value.bill in db.bills && x.value.owner == op.owner && x.value.amount == db.bills[x.value.bill].amount
  {
    hide Perform;
    if NewPayment(db, op).Some? {
      PaymentAdded(db, op);
      AddedToWindow(db, Apply(db, op), op.p, NewPayment(db, op).value, o, lo, hi);
    } else {
      NoPaymentAdded(db, op);
      assert PaymentsIn(Apply(db, op), o, lo, hi) == PaymentsIn(db, o, lo, hi);
    }
  }

  lemma PaymentAdded(db: Db, op: Op)
    requires NewPayment(db, op).Some?
    ensures var x := NewPayment(db, op).value;
            && op.p !in db.payments && Apply(db, op).payments == db.payments[op.p := x]
            && x.bill in db.bills && x.owner == op.owner && x.amount == db.bills[x.bill].amount
  {
    hide Settle, Activated;
    match op
    case RecordOp(o, i, now, p) =>
      var at := PaymentDate(i.date, now).value;
      SettleSettles(db, o, i.bill, i.amount, at, i.payMethod, Optional(i.reference), Optional(i.notes), at, p);
    case ApproveOp(o, s, now, p) =>
      var sub := db.submissions[s];
      SettleSettles(db, o, sub.bill, sub.amount, sub.transferDate, sub.payMethod, sub.reference, None, now, p);
  }

  lemma NoPaymentAdded(db: Db, op: Op)
    requires NewPayment(db, op).None?
    ensures Apply(db, op).payments == db.payments
  {
    hide Settle, Activated, Settled, AssignRoom, CancelOnboarding, GenerateMonthly, PayBill, WithStatus;
    match op
    case AssignOp(o, i, a, b) => OthersKeepPayments(db, op);
    case CancelOp(o, a) => OthersKeepPayments(db, op);
    case GenerateOp(o, k, list) => OthersKeepPayments(db, op);
    case PayBillOp(o, i, c) => OthersKeepPayments(db, op);
    case RecordOp(o, i, now, p) => SettleAddsIt(db, op);
    case ApproveOp(o, s, now, p) => SettleAddsIt(db, op);
    case _ =>
  }

  lemma OthersKeepPayments(db: Db, op: Op)
    requires op.AssignOp? || op.CancelOp? || op.GenerateOp? || op.PayBillOp?
    ensures Apply(db, op).payments == db.payments
  {
  }

  lemma SettleAddsIt(db: Db, op: Op)
    requires (op.RecordOp? || op.ApproveOp?) && NewPayment(db, op).None?
    ensures Perform(db, op).Err?
  {
    hide Settle, Activated;
    if Perform(db, op).Ok? {
      match op
      case RecordOp(o, i, now, p) =>
        var at := PaymentDate(i.date, now).value;
        SettleSettles(db, o, i.bill, i.amount, at, i.payMethod, Optional(i.reference), Optional(i.notes), at, p);
      case ApproveOp(o, s, now, p) =>
        var sub := db.submissions[s];
        SettleSettles(db, o, sub.bill, sub.amount, sub.transferDate, sub.payMethod, sub.reference, None, now, p);
    }
  }

  lemma AddedToWindow(db: Db, d: Db, p: PaymentId, x: Payment, o: OwnerId, lo: Instant, hi: Instant)
    requires p !in db.payments && d.payments == db.payments[p := x]
    ensures var hit := x.owner == o && lo <= x.date < hi;
            && Sum(PaymentsIn(d, o, lo, hi)) == Sum(PaymentsIn(db, o, lo, hi)) + (if hit then x.amount else 0)
            && |PaymentsIn(d, o, lo, hi)| == |PaymentsIn(db, o, lo, hi)| + (if hit then 1 else 0)
  {
    hide Sum;
    var m, n := PaymentsIn(db, o, lo, hi), PaymentsIn(d, o, lo, hi);
    WindowAfter(db, d, p, x, o, lo, hi);
    if p in n {
      SumWithout(n, p);
      Shrinks(n, p);
    }
  }

  lemma WindowAfter(db: Db, d: Db, p: PaymentId, x: Payment, o: OwnerId, lo: Instant, hi: Instant)
    requires p !in db.payments && d.payments == db.payments[p := x]
    ensures var m, n := PaymentsIn(db, o, lo, hi), PaymentsIn(d, o, lo, hi);
            if x.owner == o && lo <= x.date < hi then p in n && n[p] == x.amount && n - {p} == m else p !in n && n == m
  {
  }
}
