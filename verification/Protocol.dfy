/** Any number of requests in flight at once, under row locks and read-committed statements.
    The main theorem: whatever the interleaving, the committed tables are those of running the
    committed operations one after another in commit order. */
module Protocol {
  import opened Types
  import opened Operations
  import opened Invariants
  import opened Preservation
  import opened Runs
  import opened Statements
  import opened Generation
  import opened Refinement
  import opened Stability
  import opened Coverage

  type TxId = nat

  /** A transaction: its operation, how many statements it has run, its private state. */
  datatype Request = Request(op: Op, pc: nat, tx: Tx)

  datatype Machine = Machine(db: Db, inFlight: map<TxId, Request>)

  const IDLE := Machine(EMPTY, map[])

  /** Open begins a transaction, Step runs its next statement, Commit publishes its writes, Abort
      drops it (an error, a deadlock victim, a lost connection), Single is one statement on its own. */
  datatype Label =
    | Open(id: TxId, op: Op)
    | Step(id: TxId)
    | Commit(id: TxId)
    | Abort(id: TxId)
    | Single(op: Op)

  /** The operations that are one statement outside any transaction. */
  predicate IsSingle(op: Op) {
    op.OverdueOp? || IsSubmissionStep(op) || IsRowStep(op)
  }

  /** The rows such a statement locks. */
  function Footprint(op: Op): set<Key>
    requires IsSingle(op)
  {
    match op
    case OverdueOp(o, today, ids) => set b | b in ids :: BillRow(b)
    case InsertSubmissionOp(o, sub, s) => {SubmissionRow(s)}
    case SetProofOp(o, s, key) => {SubmissionRow(s)}
    case DeleteSubmissionOp(o, s) => {SubmissionRow(s)}
    case RejectOp(o, s, reason, now) => {SubmissionRow(s)}
    case CancelSubmissionOp(o, t, s) => {SubmissionRow(s)}
    case CreateRoomOp(o, number, rent, status, r) => {RoomRow(r)}
    case PatchRoomOp(o, r, patch) => {RoomRow(r)}
    case SoftDeleteRoomOp(o, r) => {RoomRow(r)}
    case CreateTenantOp(o, email, t) => {TenantRow(t)}
    case PatchTenantOp(o, t, patch) => {TenantRow(t)}
    case SoftDeleteTenantOp(o, t) => {TenantRow(t)}
  }

  /** Nobody but id holds any of the keys. */
  ghost predicate FreeFor(g: Machine, id: TxId, keys: set<Key>) {
    forall y :: y in g.inFlight && y != id ==> keys !! g.inFlight[y].tx.held
  }

  ghost predicate CanTake(g: Machine, l: Label) {
    match l
    case Open(id, op) => id !in g.inFlight && Opens(op) && Enabled(g.db, op)
    case Step(id) =>
      && id in g.inFlight && Opens(g.inFlight[id].op) && g.inFlight[id].pc < |Program(g.inFlight[id].op)|
      && var q := g.inFlight[id];
         var r := Exec(Program(q.op)[q.pc], g.db, q.tx);
         r.Ok? && FreeFor(g, id, r.value.held)
    case Commit(id) =>
      id in g.inFlight && Opens(g.inFlight[id].op) && g.inFlight[id].pc == |Program(g.inFlight[id].op)|
    case Abort(id) => id in g.inFlight
    case Single(op) =>
      IsSingle(op) && Enabled(g.db, op) && forall y :: y in g.inFlight ==> Footprint(op) !! g.inFlight[y].tx.held
  }

  ghost function Next(g: Machine, l: Label): Machine
    requires CanTake(g, l)
  {
    match l
    case Open(id, op) => g.(inFlight := g.inFlight[id := Request(op, 0, Begin(op))])
    case Step(id) =>
      var q := g.inFlight[id];
      g.(inFlight := g.inFlight[id := Request(q.op, q.pc + 1, Exec(Program(q.op)[q.pc], g.db, q.tx).value)])
    case Commit(id) => Machine(View(g.db, g.inFlight[id].tx.w), g.inFlight - {id})
    case Abort(id) => g.(inFlight := g.inFlight - {id})
    case Single(op) => g.(db := Apply(g.db, op))
  }

  /** The operation a step commits, if any. */
  ghost function Committed(g: Machine, l: Label): seq<Op>
    requires CanTake(g, l)
  {
    match l
    case Commit(id) => [g.inFlight[id].op]
    case Single(op) => [op]
    case _ => []
  }

  // ----- schedules

  ghost predicate Schedule(ls: seq<Label>)
    decreases |ls|, 1
  {
    ls == [] || (Schedule(ls[..|ls| - 1]) && CanTake(After(ls[..|ls| - 1]), ls[|ls| - 1]))
  }

  ghost function After(ls: seq<Label>): Machine
    requires Schedule(ls)
    decreases |ls|, 2
  {
    if ls == [] then IDLE else Next(After(ls[..|ls| - 1]), ls[|ls| - 1])
  }

  /** The committed operations in commit order. */
  ghost function CommitOrder(ls: seq<Label>): seq<Op>
    requires Schedule(ls)
  {
    if ls == [] then []
    else CommitOrder(ls[..|ls| - 1]) + Committed(After(ls[..|ls| - 1]), ls[|ls| - 1])
  }

  // ----- the simulation invariant

  /** The statements a request has run would come out the same, run now on the committed tables. */
  ghost predicate UpToDate(db: Db, q: Request) {
    && Opens(q.op) && Enabled(db, q.op) && q.pc <= |Program(q.op)|
    && Run(q.op, q.pc, db) == Ok(q.tx)
  }

  ghost predicate MachineInv(g: Machine) {
    && Inv(g.db)
    && (forall x :: x in g.inFlight ==> UpToDate(g.db, g.inFlight[x]))
    && (forall x, y :: x in g.inFlight && y in g.inFlight && x != y ==> g.inFlight[x].tx.held !! g.inFlight[y].tx.held)
  }

  lemma StaysUpToDate(db: Db, d: Db, q: Request)
    requires UpToDate(db, q) && Undisturbed(db, d, q.tx, q.tx.held)
    ensures UpToDate(d, q)
  {
    hide Run, Program, Enabled, Undisturbed;
    RunStable(q.op, q.pc, db, d, q.tx.held);
    assert Advances(db, d) by { UndisturbedAdvances(db, d, q.tx, q.tx.held); }
    EnabledStays(db, d, q.op);
  }

  lemma UndisturbedAdvances(db: Db, d: Db, u: Tx, held: set<Key>)
    requires Undisturbed(db, d, u, held)
    ensures Advances(db, d)
  {
    hide Advances;
  }

  lemma SingleRespects(db: Db, op: Op, held: set<Key>)
    requires IsSingle(op) && Footprint(op) !! held
    ensures RowsRespected(db, Apply(db, op), held) && AbsencesRespected(db, Apply(db, op), held)
  {
    if op.OverdueOp? {
      OverdueRespects(db, op, held);
    } else if IsSubmissionStep(op) {
      SubmissionRespects(db, op, held);
    } else if op.CreateRoomOp? || op.PatchRoomOp? || op.SoftDeleteRoomOp? {
      RoomStepRespects(db, op, held);
    } else {
      TenantStepRespects(db, op, held);
    }
  }

  lemma OverdueRespects(db: Db, op: Op, held: set<Key>)
    requires op.OverdueOp? && Footprint(op) !! held
    ensures RowsRespected(db, Apply(db, op), held) && AbsencesRespected(db, Apply(db, op), held)
  {
  }

  lemma SubmissionRespects(db: Db, op: Op, held: set<Key>)
    requires IsSubmissionStep(op) && Footprint(op) !! held
    ensures RowsRespected(db, Apply(db, op), held) && AbsencesRespected(db, Apply(db, op), held)
  {
    hide PendingIndexed;
    var d := Apply(db, op);
    assert d == db.(submissions := d.submissions) && SubmissionRow(op.s) !in held;
    SubmissionsRespected(db, d, op.s, held);
  }

  lemma SubmissionsRespected(db: Db, d: Db, s: SubmissionId, held: set<Key>)
    requires d == db.(submissions := d.submissions) && SubmissionRow(s) !in held
    requires forall r :: r != s ==> SameRow(db.submissions, d.submissions, r)
    ensures RowsRespected(db, d, held) && AbsencesRespected(db, d, held)
  {
  }

  lemma RoomStepRespects(db: Db, op: Op, held: set<Key>)
    requires (op.CreateRoomOp? || op.PatchRoomOp? || op.SoftDeleteRoomOp?) && RoomRow(op.r) !in held
    ensures RowsRespected(db, Apply(db, op), held) && AbsencesRespected(db, Apply(db, op), held)
  {
    hide RowsRespected, AbsencesRespected, Perform;
    if Perform(db, op).Ok? { RoomStepShape(db, op); }
    OthersRespected(db, Apply(db, op), held);
  }

  lemma RoomStepShape(db: Db, op: Op)
    requires (op.CreateRoomOp? || op.PatchRoomOp? || op.SoftDeleteRoomOp?) && Perform(db, op).Ok?
    ensures var d := Perform(db, op).value; op.r in d.rooms && d == db.(rooms := db.rooms[op.r := d.rooms[op.r]])
  {
    hide RoomNumberIndexed;
  }

  lemma TenantStepRespects(db: Db, op: Op, held: set<Key>)
    requires (op.CreateTenantOp? || op.PatchTenantOp? || op.SoftDeleteTenantOp?) && TenantRow(op.t) !in held
    ensures RowsRespected(db, Apply(db, op), held) && AbsencesRespected(db, Apply(db, op), held)
  {
    hide RowsRespected, AbsencesRespected, Perform;
    if Perform(db, op).Ok? { TenantStepShape(db, op); }
    OthersRespected(db, Apply(db, op), held);
  }

  lemma TenantStepShape(db: Db, op: Op)
    requires (op.CreateTenantOp? || op.PatchTenantOp? || op.SoftDeleteTenantOp?) && Perform(db, op).Ok?
    ensures var d := Perform(db, op).value; op.t in d.tenants && d == db.(tenants := db.tenants[op.t := d.tenants[op.t]])
  {
    hide EmailIndexed;
  }

  lemma OthersRespected(db: Db, d: Db, held: set<Key>)
    requires d == db.(rooms := d.rooms, tenants := d.tenants)
    requires forall r :: RoomRow(r) in held ==> SameRow(db.rooms, d.rooms, r)
    requires forall t :: TenantRow(t) in held ==> SameRow(db.tenants, d.tenants, t)
    ensures RowsRespected(db, d, held) && AbsencesRespected(db, d, held)
  {
  }

  /** A commit publishes exactly what the operation says, on the tables of that moment. */
  lemma CommitIsOperation(db: Db, q: Request)
    requires UpToDate(db, q) && q.pc == |Program(q.op)|
    ensures Perform(db, q.op) == Ok(View(db, q.tx.w)) && Apply(db, q.op) == View(db, q.tx.w)
  {
    hide Run, Program, Enabled, Perform;
    RunsAsSpecified(q.op, db);
  }

  lemma CommitKeeps(g: Machine, id: TxId)
    requires MachineInv(g) && CanTake(g, Commit(id))
    ensures MachineInv(Next(g, Commit(id))) && Next(g, Commit(id)).db == Apply(g.db, g.inFlight[id].op)
    ensures Enabled(g.db, g.inFlight[id].op)
  {
    hide Inv, Run, Program, Enabled, Apply, Undisturbed, RowsRespected, AbsencesRespected, Advances, View;
    hide RowsCovered, NewCovered;
    var q := g.inFlight[id];
    var d := View(g.db, q.tx.w);
    CommitIsOperation(g.db, q);
    Keeps(g.db, q.op);
    StepAdvances(g.db, q.op);
    RunCovers(q.op, q.pc, g.db);
    forall y | y in g.inFlight && y != id ensures UpToDate(d, g.inFlight[y]) {
      PublishRespects(g.db, q.tx, g.inFlight[y].tx.held);
      MakeUndisturbed(g.db, d, g.inFlight[y].tx);
      StaysUpToDate(g.db, d, g.inFlight[y]);
    }
  }

  lemma MakeUndisturbed(db: Db, d: Db, u: Tx)
    requires Advances(db, d) && RowsRespected(db, d, u.held) && AbsencesRespected(db, d, u.held)
    ensures Undisturbed(db, d, u, u.held)
  {
    hide Advances, RowsRespected, AbsencesRespected;
  }

  lemma SingleKeeps(g: Machine, op: Op)
    requires MachineInv(g) && CanTake(g, Single(op))
    ensures MachineInv(Next(g, Single(op)))
  {
    hide Inv, Run, Program, Enabled, Apply, Undisturbed, RowsRespected, AbsencesRespected, Advances, Footprint;
    hide IsSingle, UpToDate;
    var d := Apply(g.db, op);
    Keeps(g.db, op);
    StepAdvances(g.db, op);
    forall y | y in g.inFlight ensures UpToDate(d, g.inFlight[y]) {
      SingleRespects(g.db, op, g.inFlight[y].tx.held);
      MakeUndisturbed(g.db, d, g.inFlight[y].tx);
      StaysUpToDate(g.db, d, g.inFlight[y]);
    }
  }

  lemma OpenKeeps(g: Machine, id: TxId, op: Op)
    requires MachineInv(g) && CanTake(g, Open(id, op))
    ensures MachineInv(Next(g, Open(id, op)))
  {
    hide Inv, Enabled, Program, Exec;
    BeginsAlone(op, g.db);
  }

  lemma StepKeeps(g: Machine, id: TxId)
    requires MachineInv(g) && CanTake(g, Step(id))
    ensures MachineInv(Next(g, Step(id)))
  {
    hide Inv, Enabled, Program, Exec, Run;
    var q := g.inFlight[id];
    RunStep(q.op, q.pc, g.db);
  }

  lemma NextKeeps(g: Machine, l: Label)
    requires MachineInv(g) && CanTake(g, l)
    ensures MachineInv(Next(g, l))
    ensures Committed(g, l) == [] ==> Next(g, l).db == g.db
    ensures Committed(g, l) != [] ==>
              && Committed(g, l) == [Committed(g, l)[0]] && Enabled(g.db, Committed(g, l)[0])
              && Next(g, l).db == Apply(g.db, Committed(g, l)[0])
  {
    match l
    case Commit(id) => hide Inv, Enabled, Program, Exec, Run, Apply; CommitKeeps(g, id);
    case Single(op) => hide Inv, Enabled, Program, Exec, Run, Apply; SingleKeeps(g, op);
    case Open(id, op) => hide Inv, Enabled, Program, Exec, Run; OpenKeeps(g, id, op);
    case Step(id) => hide Inv, Enabled, Program, Exec, Run; StepKeeps(g, id);
    case Abort(id) => hide Inv, Enabled, Program, Exec, Run;
  }

  /** Every interleaving is equivalent to its commit order: the committed tables are those of a legal
      serial run, and every request in flight is up to date with them. */
  lemma {:induction false} Serializable(ls: seq<Label>)
    requires Schedule(ls)
    ensures Legal(EMPTY, CommitOrder(ls))
    ensures After(ls).db == Replay(EMPTY, CommitOrder(ls))
    ensures MachineInv(After(ls))
  {
    hide Inv, Enabled, Apply, CanTake, Next, Committed, UpToDate;
    if ls == [] {
      EmptyInv();
    } else {
      var before, l := ls[..|ls| - 1], ls[|ls| - 1];
      Serializable(before);
      hide MachineInv;
      NextKeeps(After(before), l);
      var new' := Committed(After(before), l);
      if new' == [] {
        assert CommitOrder(ls) == CommitOrder(before);
      } else {
        assert CommitOrder(ls) == CommitOrder(before) + [new'[0]];
        LegalAppend(EMPTY, CommitOrder(before), new'[0]);
      }
    }
  }

  // ----- what a request reports when it fails

  /** The next statement of request id fails with e. */
  ghost predicate Fails(g: Machine, id: TxId, e: Error) {
    && id in g.inFlight && Opens(g.inFlight[id].op) && g.inFlight[id].pc < |Program(g.inFlight[id].op)|
    && Exec(Program(g.inFlight[id].op)[g.inFlight[id].pc], g.db, g.inFlight[id].tx) == Err(e)
  }

  /** Whatever the interleaving, a request that fails reports the error its operation has on the committed
      tables of that moment. */
  lemma FailureIsOperation(ls: seq<Label>, id: TxId, e: Error)
    requires Schedule(ls) && Fails(After(ls), id, e)
    ensures var g := After(ls); Perform(g.db, g.inFlight[id].op) == Err(e)
  {
    hide Schedule, After, CommitOrder, Inv, Enabled, Perform, Program, Exec, Run;
    Serializable(ls);
    UpToDateFails(After(ls).db, After(ls).inFlight[id], e);
  }

  lemma UpToDateFails(db: Db, q: Request, e: Error)
    requires UpToDate(db, q) && q.pc < |Program(q.op)| && Exec(Program(q.op)[q.pc], db, q.tx) == Err(e)
    ensures Perform(db, q.op) == Err(e)
  {
    hide Run, Program, Enabled, Perform, Exec;
    RunStep(q.op, q.pc, db);
    ErrStays(q.op, q.pc + 1, |Program(q.op)|, db);
    RunsAsSpecified(q.op, db);
  }

  /** A request refused before its transaction opens is refused on any tables, with the same error. */
  lemma RefusedUnopened(op: Op, db: Db, d: Db)
    requires !Opens(op) && !IsSingle(op)
    ensures Perform(db, op).Err? && Perform(d, op) == Perform(db, op)
  {
  }

  /** In every interleaving, no statement of an approval ever finds the amounts different. */
  lemma ApprovalNeverMismatches(ls: seq<Label>, id: TxId)
    requires Schedule(ls) && id in After(ls).inFlight && After(ls).inFlight[id].op.ApproveOp?
    ensures !Fails(After(ls), id, PaymentAmountMismatch)
  {
    hide Schedule, After, Inv, Reachable, Approve, Fails;
    var g := After(ls);
    var op := g.inFlight[id].op;
    InterleavedInv(ls);
    ApproveNeverMismatches(g.db, op.owner, op.s, op.now, op.p);
    if Fails(g, id, PaymentAmountMismatch) { FailureIsOperation(ls, id, PaymentAmountMismatch); }
  }

  /** In every interleaving, no payment under a new id is refused as the bill's second. */
  lemma PaymentNeverDuplicate(ls: seq<Label>, id: TxId)
    requires Schedule(ls) && id in After(ls).inFlight
    requires var op := After(ls).inFlight[id].op; (op.RecordOp? || op.ApproveOp?) && op.p !in After(ls).db.payments
    ensures !Fails(After(ls), id, DuplicatePayment)
  {
    hide Schedule, After, Inv, Reachable, Settle, Fails;
    var g := After(ls);
    var op := g.inFlight[id].op;
    InterleavedInv(ls);
    if Fails(g, id, DuplicatePayment) {
      FailureIsOperation(ls, id, DuplicatePayment);
      SettleOnlyDuplicates(g.db, op);
    }
  }

  lemma SettleOnlyDuplicates(db: Db, op: Op)
    requires Reachable(db) && (op.RecordOp? || op.ApproveOp?) && op.p !in db.payments
    ensures Perform(db, op) != Err(DuplicatePayment)
  {
    hide Settle, Reachable;
    match op
    case RecordOp(o, i, now, p) =>
      if PaymentDate(i.date, now).Some? {
        var at := PaymentDate(i.date, now).value;
        PaymentIndexSilent(db, o, i.bill, i.amount, at, i.payMethod, Optional(i.reference), Optional(i.notes), at, p);
      }
    case ApproveOp(o, s, now, p) =>
      if HasSubmission(db, s, o) {
        var sub := db.submissions[s];
        PaymentIndexSilent(db, o, sub.bill, sub.amount, sub.transferDate, sub.payMethod, sub.reference, None, now, p);
      }
  }

  // ----- what a request returns when it commits

  /** The answer op gives when it commits on the tables db: the payment it stored; the newest live checkout of
      its bill, for the bill's amount; the number of bills it adds and of listed assignments it skips. */
  ghost predicate Answers(db: Db, op: Op, reply: Reply) {
    Perform(db, op).Ok? &&
    var d := Perform(db, op).value;
    match op
    case RecordOp(o, i, now, p) => p in d.payments && reply.payment == Some(d.payments[p])
    case ApproveOp(o, s, now, p) => p in d.payments && reply.payment == Some(d.payments[p])
    case PayBillOp(o, i, c) =>
      && reply.checkout.Some? && NewestLive(d, o, i.bill, i.lookupAt, reply.checkout.value)
      && i.bill in d.bills && d.checkouts[reply.checkout.value].amount == d.bills[i.bill].amount
    case GenerateOp(o, k, list) =>
      reply.created == |d.bills| - |db.bills| == |Missing(db, k, list)| && reply.created + reply.skipped == |list|
    case _ => true
  }

  /** In every interleaving a request that is about to commit has the answer its operation gives on the
      committed tables of that moment. */
  lemma ReplyIsOperation(ls: seq<Label>, id: TxId)
    requires Schedule(ls) && CanTake(After(ls), Commit(id))
    ensures var g := After(ls); Answers(g.db, g.inFlight[id].op, g.inFlight[id].tx.locals.reply)
  {
    hide Schedule, After, CommitOrder, Inv, Enabled, Perform, Program, Exec, Run, Answers, Reachable;
    InterleavedInv(ls);
    Serializable(ls);
    var g := After(ls);
    var q := g.inFlight[id];
    CommitIsOperation(g.db, q);
    if q.op.RecordOp? || q.op.ApproveOp? {
      PaymentAnswers(g.db, q);
    } else if q.op.PayBillOp? {
      CheckoutAnswers(g.db, q);
    } else if q.op.GenerateOp? {
      BillingAnswers(g.db, q);
    } else {
      OthersAnswer(g.db, q.op, q.tx.locals.reply);
    }
  }

  lemma OthersAnswer(db: Db, op: Op, reply: Reply)
    requires Perform(db, op).Ok? && !op.RecordOp? && !op.ApproveOp? && !op.PayBillOp? && !op.GenerateOp?
    ensures Answers(db, op, reply)
  {
    hide Perform;
  }

  lemma PaymentAnswers(db: Db, q: Request)
    requires (q.op.RecordOp? || q.op.ApproveOp?) && UpToDate(db, q) && q.pc == |Program(q.op)|
    requires Perform(db, q.op) == Ok(View(db, q.tx.w))
    ensures Answers(db, q.op, q.tx.locals.reply)
  {
    hide Perform, Run, Enabled, Program;
    PaymentPlace(q.op);
    PaymentKept(q.op, q.pc, db);
  }

  /** After its insert a payment request keeps the payment it will return. */
  lemma {:induction false} PaymentKept(op: Op, n: nat, db: Db)
    requires (op.RecordOp? || op.ApproveOp?) && Opens(op) && InsertAt(op) < n <= |Program(op)| && Run(op, n, db).Ok?
    ensures var t := Run(op, n, db).value;
            t.locals.reply.payment.Some? && op.p in t.w.payments && t.w.payments[op.p] == t.locals.reply.payment.value
  {
    hide Exec, Program;
    RunStep(op, n - 1, db);
    PaymentPlace(op);
    LateStatements(op, n - 1);
    hide Run;
    if n == InsertAt(op) + 1 {
      InsertKeepsPayment(op.owner, op.p, db, Run(op, n - 1, db).value, Run(op, n, db).value);
    } else {
      PaymentKept(op, n - 1, db);
      OnlyOneInsert(op, n - 1);
      LateKeepsPayments(Program(op)[n - 1], db, Run(op, n - 1, db).value, Run(op, n, db).value);
    }
  }

  lemma OnlyOneInsert(op: Op, n: nat)
    requires (op.RecordOp? || op.ApproveOp?) && Opens(op) && InsertAt(op) < n < |Program(op)|
    ensures !Program(op)[n].InsertPayment?
  {
  }

  lemma InsertKeepsPayment(o: OwnerId, p: PaymentId, db: Db, t: Tx, u: Tx)
    requires Exec(InsertPayment(o, p), db, t) == Ok(u)
    ensures u.locals.reply.payment.Some? && p in u.w.payments && u.w.payments[p] == u.locals.reply.payment.value
  {
    hide View, PaymentIndexed;
  }

  lemma LateKeepsPayments(s: Stmt, db: Db, t: Tx, u: Tx)
    requires IsLate(s) && !s.InsertPayment? && Exec(s, db, t) == Ok(u)
    ensures u.w.payments == t.w.payments && u.locals.reply == t.locals.reply
  {
    hide View, ExecOnboarding, ExecCancel, ExecCheckout;
  }

  lemma CheckoutAnswers(db: Db, q: Request)
    requires q.op.PayBillOp? && Reachable(db) && UpToDate(db, q) && q.pc == |Program(q.op)|
    requires Perform(db, q.op) == Ok(View(db, q.tx.w))
    ensures Answers(db, q.op, q.tx.locals.reply)
  {
    hide Reachable, Perform, Run, NewestLive, View, LiveCheckouts;
    var d := Perform(db, q.op).value;
    PayBillLength(q.op);
    PayBillReply(q.op, db);
    if d != db {
      OpensAlone(db, q.op, d);
    }
    ReachableStep(db, q.op);
    NewestTerms(d, q.op.owner, q.op.pay, q.tx.locals.reply.checkout.value);
  }

  lemma OpensAlone(db: Db, op: Op, d: Db)
    requires op.PayBillOp? && Reachable(db) && Enabled(db, op) && Perform(db, op) == Ok(d) && d != db
    ensures NewestLive(d, op.owner, op.pay.bill, op.pay.lookupAt, op.c)
  {
    hide Reachable, PayBill, NewestLive, LiveCheckouts;
    NewIsOnlyLive(db, op.owner, op.pay, op.c, d);
  }

  lemma NewestTerms(d: Db, o: OwnerId, i: PayInput, c: CheckoutId)
    requires Reachable(d) && NewestLive(d, o, i.bill, i.lookupAt, c)
    ensures c in d.checkouts && i.bill in d.bills && d.checkouts[c].amount == d.bills[i.bill].amount
  {
    hide Reachable;
    CheckoutTerms(d, c);
  }

  lemma BillingAnswers(db: Db, q: Request)
    requires q.op.GenerateOp? && UpToDate(db, q) && q.pc == |Program(q.op)|
    requires Perform(db, q.op) == Ok(View(db, q.tx.w))
    ensures Answers(db, q.op, q.tx.locals.reply)
  {
    hide View, Run, GenerateMonthly, Missing, MonthlyBill, MonthIndexed;
    GenerateCounts(q.op, |q.op.list|, db);
    assert q.op.list[..|q.op.list|] == q.op.list;
    RunBillsEveryone(db, q.op.owner, q.op.month, q.op.list);
  }

  // ----- what interleaved requests can rely on

  /** In every interleaving the committed tables satisfy the whole invariant. */
  lemma InterleavedInv(ls: seq<Label>)
    requires Schedule(ls)
    ensures Inv(After(ls).db) && Reachable(After(ls).db)
  {
    hide Inv, Schedule, After;
    Serializable(ls);
  }

  /** In every interleaving a bill is paid iff one payment row exists for it, of the bill's amount. */
  lemma OnePaymentPerBill(ls: seq<Label>, b: BillId)
    requires Schedule(ls) && b in After(ls).db.bills
    ensures var d := After(ls).db;
            && (d.bills[b].status == Paid <==> PaymentIndexed(d, b))
            && (forall p, q :: p in d.payments && q in d.payments && d.payments[p].bill == b && d.payments[q].bill == b
                  ==> p == q && d.payments[p].amount == d.bills[b].amount)
  {
    hide Schedule, After, Tenancy, Billing, Claiming, CheckoutsLinked, CheckoutsApart, CommitOrder;
    InterleavedInv(ls);
  }

  /** In every interleaving no room and no tenant has two live assignments. */
  lemma OneLiveAssignment(ls: seq<Label>, a: AssignmentId, c: AssignmentId)
    requires Schedule(ls) && a in After(ls).db.assignments && c in After(ls).db.assignments
    requires var d := After(ls).db;
             && IsLive(d.assignments[a]) && IsLive(d.assignments[c])
             && (d.assignments[a].room == d.assignments[c].room || d.assignments[a].tenant == d.assignments[c].tenant)
    ensures a == c
  {
    hide Schedule, After, Billing, Paying, Claiming, AssignmentsLinked, TenantsEarned, CommitOrder;
    InterleavedInv(ls);
  }

  /** The request pays bill b and has locked it. */
  predicate Charges(q: Request, b: BillId) {
    q.tx.locals.terms.Some? && q.tx.locals.bill.Some? && q.tx.locals.terms.value.bill == b
  }

  /** Of any number of concurrent payments of one bill, at most one is past the bill's lock. */
  lemma OneRequestCharges(ls: seq<Label>, x: TxId, y: TxId, b: BillId)
    requires Schedule(ls) && x in After(ls).inFlight && y in After(ls).inFlight
    requires Charges(After(ls).inFlight[x], b) && Charges(After(ls).inFlight[y], b)
    ensures x == y
  {
    hide Schedule, After, Inv, Enabled, Run, UpToDate, CommitOrder;
    Serializable(ls);
    PairedRequest(After(ls).db, After(ls).inFlight[x]);
    PairedRequest(After(ls).db, After(ls).inFlight[y]);
    assert BillRow(b) in After(ls).inFlight[x].tx.held && BillRow(b) in After(ls).inFlight[y].tx.held;
  }

  /** The position of the payment insert. */
  function InsertAt(op: Op): nat { if op.RecordOp? then 1 else 2 }

  /** A payment that has come as far as its insert. */
  predicate ReachedInsert(q: Request) {
    (q.op.RecordOp? || q.op.ApproveOp?) && q.pc >= InsertAt(q.op)
  }

  /** Of any number of concurrent payments of one bill, by hand or by approval, at most one reaches the insert. */
  lemma OneReachesInsert(ls: seq<Label>, x: TxId, y: TxId)
    requires Schedule(ls) && x in After(ls).inFlight && y in After(ls).inFlight
    requires ReachedInsert(After(ls).inFlight[x]) && ReachedInsert(After(ls).inFlight[y])
    ensures var l, m := After(ls).inFlight[x].tx.locals, After(ls).inFlight[y].tx.locals;
            l.terms.Some? && m.terms.Some? && (l.terms.value.bill == m.terms.value.bill ==> x == y)
  {
    hide Schedule, After, Inv, Enabled, Run, CommitOrder, Program;
    Serializable(ls);
    var g := After(ls);
    StillLocked(g.inFlight[x].op, g.inFlight[x].pc, g.db);
    StillLocked(g.inFlight[y].op, g.inFlight[y].pc, g.db);
    if g.inFlight[x].tx.locals.terms.value.bill == g.inFlight[y].tx.locals.terms.value.bill {
      OneRequestCharges(ls, x, y, g.inFlight[x].tx.locals.terms.value.bill);
    }
  }

  /** A payment insert never waits for and is never refused by unique (bill_id). */
  lemma PaymentInsertNeverRefused(ls: seq<Label>, id: TxId)
    requires Schedule(ls) && id in After(ls).inFlight
    requires var q := After(ls).inFlight[id];
             && (q.op.RecordOp? || q.op.ApproveOp?) && Opens(q.op) && q.pc == InsertAt(q.op)
             && q.op.p !in After(ls).db.payments && FreeFor(After(ls), id, {PaymentRow(q.op.p)})
    ensures CanTake(After(ls), Step(id))
  {
    hide Schedule, After, Inv, Enabled, Run, UpToDate, Exec, Program, KeysPaired;
    Serializable(ls);
    var g := After(ls);
    var q := g.inFlight[id];
    PaymentPlace(q.op);
    AtPaymentInsert(g.db, q);
    var r := Exec(Program(q.op)[q.pc], g.db, q.tx);
    forall y | y in g.inFlight && y != id ensures r.value.held !! g.inFlight[y].tx.held {
      PairedRequest(g.db, g.inFlight[y]);
      PaidKeyGuarded(q.tx, g.inFlight[y].tx, q.tx.locals.terms.value.bill);
    }
  }

  lemma {:induction false} StillLocked(op: Op, n: nat, db: Db)
    requires (op.RecordOp? || op.ApproveOp?) && Opens(op) && InsertAt(op) <= n <= |Program(op)| && Run(op, n, db).Ok?
    ensures Run(op, n, db).value.locals.terms.Some? && Run(op, n, db).value.locals.bill.Some?
  {
    hide Exec, Program;
    RunStep(op, n - 1, db);
    LateStatements(op, n - 1);
    hide Run;
    if n == InsertAt(op) {
      LockKeepsTerms(Program(op)[n - 1], db, Run(op, n - 1, db).value, Run(op, n, db).value);
    } else {
      StillLocked(op, n - 1, db);
      LateKeepsLocals(Program(op)[n - 1], db, Run(op, n - 1, db).value, Run(op, n, db).value);
    }
  }

  predicate IsLate(s: Stmt) {
    s.InsertPayment? || s.MarkPaid? || s.MarkApproved? || IsActivation(s)
  }

  lemma LateStatements(op: Op, n: nat)
    requires (op.RecordOp? || op.ApproveOp?) && Opens(op) && InsertAt(op) - 1 <= n < |Program(op)|
    ensures if n == InsertAt(op) - 1 then Program(op)[n].LockBill? else IsLate(Program(op)[n])
  {
  }

  lemma LockKeepsTerms(s: Stmt, db: Db, t: Tx, u: Tx)
    requires s.LockBill? && Exec(s, db, t) == Ok(u)
    ensures u.locals.terms.Some? && u.locals.bill.Some?
  {
    hide View;
  }

  lemma LateKeepsLocals(s: Stmt, db: Db, t: Tx, u: Tx)
    requires IsLate(s) && Exec(s, db, t) == Ok(u)
    ensures u.locals.terms == t.locals.terms && u.locals.bill == t.locals.bill
  {
    hide View, ExecOnboarding, ExecCancel, ExecCheckout;
  }

  lemma PairedRequest(db: Db, q: Request)
    requires UpToDate(db, q)
    ensures KeysPaired(q.tx)
  {
    hide Enabled, Program, KeysPaired, Run;
    RunPairs(q.op, q.pc, db);
  }

  lemma PaidKeyGuarded(t: Tx, u: Tx, b: BillId)
    requires BillRow(b) in t.held && t.held !! u.held && KeysPaired(u)
    ensures PaidKey(b) !in u.held
  {
  }

  /** Where a payment transaction stands when it is about to insert. */
  lemma AtPaymentInsert(db: Db, q: Request)
    requires (q.op.RecordOp? || q.op.ApproveOp?) && q.pc == InsertAt(q.op)
    requires Inv(db) && UpToDate(db, q) && q.op.p !in db.payments
    ensures q.tx.locals.terms.Some? && BillRow(q.tx.locals.terms.value.bill) in q.tx.held
    ensures var r := Exec(Program(q.op)[q.pc], db, q.tx);
            r.Ok? && r.value.held == q.tx.held + {PaymentRow(q.op.p), PaidKey(q.tx.locals.terms.value.bill)}
  {
    hide Inv, Exec;
    if q.op.RecordOp? {
      BeginsAlone(q.op, db);
      RunStep(q.op, 0, db);
      LockedBill(db, q.op, 0, Begin(q.op), q.tx);
    } else {
      StillHeld(q.op, 0, 2, db);
      ClaimLeavesNothing(db, q.op);
      RunStep(q.op, 1, db);
      LockedBill(db, q.op, 1, Run(q.op, 1, db).value, q.tx);
    }
    FreshPaymentInserts(db, q.tx, q.op.owner, q.op.p);
  }

  lemma PaymentPlace(op: Op)
    requires (op.RecordOp? || op.ApproveOp?) && Opens(op)
    ensures var n := InsertAt(op);
            n < |Program(op)| && Program(op)[n] == InsertPayment(op.owner, op.p)
  {
  }

  lemma ClaimLeavesNothing(db: Db, op: Op)
    requires op.ApproveOp? && Run(op, 1, db).Ok?
    ensures Run(op, 1, db).value.w == EMPTY
  {
    hide View;
    BeginsAlone(op, db);
    RunStep(op, 0, db);
  }

  lemma LockedBill(db: Db, op: Op, n: nat, t: Tx, u: Tx)
    requires Exec(LockBill(op.owner), db, t) == Ok(u) && t.w == EMPTY
    ensures u.w == EMPTY && u.locals.terms.Some? && u.locals.bill.Some?
    ensures var b := u.locals.terms.value.bill;
            BillRow(b) in u.held && b in db.bills && db.bills[b].status != Paid
  {
    hide View;
    ViewNothing(db);
  }

  lemma FreshPaymentInserts(db: Db, t: Tx, o: OwnerId, p: PaymentId)
    requires Inv(db) && t.w == EMPTY && t.locals.terms.Some? && t.locals.bill.Some? && p !in db.payments
    requires var b := t.locals.terms.value.bill; b in db.bills && db.bills[b].status != Paid
    ensures var r := Exec(InsertPayment(o, p), db, t);
            r.Ok? && r.value.held == t.held + {PaymentRow(p), PaidKey(t.locals.terms.value.bill)}
  {
    hide View, Tenancy, Billing, Claiming, PaidOnce, CheckoutsLinked, CheckoutsApart;
    ViewNothing(db);
  }

  /** An assignment insert never waits for and is never refused by the live-assignment indexes. */
  lemma AssignmentInsertNeverRefused(ls: seq<Label>, id: TxId)
    requires Schedule(ls) && id in After(ls).inFlight
    requires var q := After(ls).inFlight[id];
             q.op.AssignOp? && Opens(q.op) && q.pc == 4
             && q.op.a !in After(ls).db.assignments && FreeFor(After(ls), id, {AssignmentRow(q.op.a)})
    ensures CanTake(After(ls), Step(id))
  {
    hide Schedule, After, Inv, Enabled, Run, UpToDate, Exec, KeysPaired, FirstBill, NewAssignment;
    Serializable(ls);
    var g := After(ls);
    var q := g.inFlight[id];
    AtAssignmentInsert(g.db, q);
    var r := Exec(Program(q.op)[4], g.db, q.tx);
    forall y | y in g.inFlight && y != id ensures r.value.held !! g.inFlight[y].tx.held {
      PairedRequest(g.db, g.inFlight[y]);
      LiveKeysGuarded(q.tx, g.inFlight[y].tx, q.op.assign.room, q.op.assign.tenant);
    }
  }

  lemma LiveKeysGuarded(t: Tx, u: Tx, r: RoomId, n: TenantId)
    requires RoomRow(r) in t.held && TenantRow(n) in t.held && t.held !! u.held && KeysPaired(u)
    ensures LiveRoomKey(r) !in u.held && LiveTenantKey(n) !in u.held
  {
  }

  lemma AtAssignmentInsert(db: Db, q: Request)
    requires Inv(db) && UpToDate(db, q) && q.op.AssignOp? && q.pc == 4 && q.op.a !in db.assignments
    ensures RoomRow(q.op.assign.room) in q.tx.held && TenantRow(q.op.assign.tenant) in q.tx.held
    ensures var r, i := Exec(Program(q.op)[4], db, q.tx), q.op.assign;
            r.Ok? && r.value.held == q.tx.held + {AssignmentRow(q.op.a), LiveRoomKey(i.room), LiveTenantKey(i.tenant)}
  {
    hide Inv, Exec, Run, FirstBill, NewAssignment, View, RoomCounted, TenantCounted, RoomIndexed, TenantIndexed;
    AssignLocks(q.op, 4, db);
    AssignChecks(q.op, db);
    LiveIndexesSilent(db, q.op.assign.room, q.op.assign.tenant, q.op.owner);
    NewAssignmentParties(q.op.owner, q.op.assign, q.op.a);
    FreshAssignmentInserts(db, q.tx, q.op.a, NewAssignment(q.op.owner, q.op.assign));
  }

  lemma FreshAssignmentInserts(db: Db, t: Tx, a: AssignmentId, x: Assignment)
    requires t.w == EMPTY && a !in db.assignments && !RoomIndexed(db, x.room) && !TenantIndexed(db, x.tenant)
    ensures var r := Exec(InsertAssignment(a, x), db, t);
            r.Ok? && r.value.held == t.held + {AssignmentRow(a), LiveRoomKey(x.room), LiveTenantKey(x.tenant)}
  {
    hide View;
    ViewNothing(db);
  }

  /** GenerateMonthly reads its list before its transaction; at every moment until commit each listed
      assignment is still active and as it was read. */
  lemma ListedStillActive(ls: seq<Label>, id: TxId, x: Listed)
    requires Schedule(ls) && id in After(ls).inFlight
    requires After(ls).inFlight[id].op.GenerateOp? && x in After(ls).inFlight[id].op.list
    ensures var d := After(ls).db; x.id in d.assignments && d.assignments[x.id] == x.row && x.row.status == Active
  {
    hide Schedule, After, Inv, Run, Program, Exec;
    Serializable(ls);
    assert UpToDate(After(ls).db, After(ls).inFlight[id]);
  }

  /** Of any number of concurrent approvals, rejections and cancellations under one submission id, at most
      one takes effect for each row inserted under it; an id is drawn once. */
  lemma OneReviewWins(ls: seq<Label>, s: SubmissionId)
    requires Schedule(ls)
    ensures SubmissionChanges(CommitOrder(ls), s) + Unreviewed(After(ls).db, s) <= Inserts(CommitOrder(ls), s)
  {
    hide MachineInv, SubmissionChanges, Inserts, Legal, Replay;
    Serializable(ls);
    OneReviewTakesEffect(CommitOrder(ls), s);
  }

  /** In every interleaving an approved submission's bill is paid by a payment with its amount, method,
      transfer date and reference, and no other submission of the bill is approved. */
  lemma ApprovedIsPaid(ls: seq<Label>, s: SubmissionId)
    requires Schedule(ls) && s in After(ls).db.submissions && After(ls).db.submissions[s].status == Approved
    ensures var d := After(ls).db;
            && d.submissions[s].bill in d.bills && d.bills[d.submissions[s].bill].status == Paid
            && (exists p :: p in d.payments && PaysClaim(d.payments[p], d.submissions[s]))
            && (forall r :: r in d.submissions && d.submissions[r].status == Approved
                            && d.submissions[r].bill == d.submissions[s].bill ==>
                  r == s)
  {
    hide Schedule, After, Tenancy, Billing, Paying, CommitOrder;
    InterleavedInv(ls);
    assert ClaimPaid(After(ls).db, After(ls).db.submissions[s]);
  }

  /** In every interleaving a bill changes status at most three times, an assignment at most once. */
  lemma StatusesMoveForward(ls: seq<Label>, b: BillId, a: AssignmentId)
    requires Schedule(ls)
    ensures BillChanges(CommitOrder(ls), b) <= 3 && AssignmentChanges(CommitOrder(ls), a) <= 1
  {
    hide MachineInv, BillChanges, AssignmentChanges, Legal, Replay;
    Serializable(ls);
    ChangesBounded(CommitOrder(ls), b, a);
  }

  // ----- reads made before the transaction that relies on them

  lemma {:induction false} LaterAdvances(ls: seq<Label>, more: seq<Label>)
    requires Schedule(ls + more)
    ensures Schedule(ls) && Advances(After(ls).db, After(ls + more).db)
    decreases |more|
  {
    hide Advances, CanTake, Next, Inv, Enabled, Apply;
    if more == [] {
      assert ls + more == ls;
      AloneAdvances(After(ls).db, After(ls).db);
    } else {
      var before, l := more[..|more| - 1], more[|more| - 1];
      assert (ls + more)[..|ls + more| - 1] == ls + before;
      LaterAdvances(ls, before);
      Serializable(ls + before);
      hide MachineInv;
      var g := After(ls + before);
      NextKeeps(g, l);
      if Committed(g, l) == [] {
        AloneAdvances(g.db, g.db);
      } else {
        StepAdvances(g.db, Committed(g, l)[0]);
      }
      AdvancesChain(After(ls).db, g.db, After(ls + more).db);
    }
  }

  /** GenerateMonthly reads its list first and opens its transaction any number of steps later:
      whatever ran in between, the transaction can open with that list. */
  lemma StaleListStillOpens(ls: seq<Label>, more: seq<Label>, id: TxId, o: OwnerId, k: Month, list: seq<Listed>)
    requires Schedule(ls + more) && id !in After(ls + more).inFlight
    requires Schedule(ls) && ListedActive(After(ls).db, o, list)
    ensures CanTake(After(ls + more), Open(id, GenerateOp(o, k, list)))
  {
    hide Schedule, After;
    LaterAdvances(ls, more);
  }

  /** Submit reads the bill first and inserts the submission any number of steps later: whatever ran in
      between, the claim it checked is still for a bill of that tenant and for its full amount. */
  lemma StaleClaimStillFits(ls: seq<Label>, more: seq<Label>, o: OwnerId, t: TenantId, b: BillId, c: Claim, s: SubmissionId)
    requires Schedule(ls + more)
    requires Schedule(ls) && CheckClaim(After(ls).db, o, t, b, c).Ok?
    ensures Enabled(After(ls + more).db, InsertSubmissionOp(o, CheckClaim(After(ls).db, o, t, b, c).value, s))
  {
    hide Schedule, After;
    LaterAdvances(ls, more);
  }

  lemma {:induction false} CommitOrderGrows(ls: seq<Label>, more: seq<Label>) returns (tail: seq<Op>)
    requires Schedule(ls + more)
    ensures Schedule(ls) && CommitOrder(ls + more) == CommitOrder(ls) + tail
    decreases |more|
  {
    hide CanTake, Next, Committed, CommitOrder, After;
    if more == [] {
      assert ls + more == ls;
      tail := [];
    } else {
      var before, l := more[..|more| - 1], more[|more| - 1];
      assert (ls + more)[..|ls + more| - 1] == ls + before;
      var front := CommitOrderGrows(ls, before);
      CommitOrderStep(ls + more);
      tail := front + Committed(After(ls + before), l);
    }
  }

  lemma CommitOrderStep(ls: seq<Label>)
    requires Schedule(ls) && ls != []
    ensures CommitOrder(ls) == CommitOrder(ls[..|ls| - 1]) + Committed(After(ls[..|ls| - 1]), ls[|ls| - 1])
  {
    hide CanTake, Next, Committed;
  }

  /** Reject reads first and updates any number of steps later. It leaves the tables that its update alone
      would leave, succeeds exactly when the update does, and reports the update's error, except that a
      submission deleted in between is reported as no longer pending. */
  lemma StaleReject(ls: seq<Label>, more: seq<Label>, o: OwnerId, s: SubmissionId, reason: string, now: Instant)
    requires Schedule(ls + more) && Inserts(CommitOrder(ls + more), s) <= 1
    requires Schedule(ls) && HasSubmission(After(ls).db, s, o)
    ensures var d := After(ls + more).db;
            var called, alone := RejectAfterRead(After(ls).db, d, o, s, reason, now), Reject(d, o, s, reason, now);
            && called.0 == Apply(d, RejectOp(o, s, reason, now))
            && (called.1.Ok? <==> alone.Ok?)
            && (called.1.Err? ==>
                  called.1.error == if reason != "" && s !in d.submissions then SubmissionNotPending else alone.error)
  {
    hide Schedule, After, CommitOrder, MachineInv, Legal, Replay, Inserts;
    var tail := CommitOrderGrows(ls, more);
    Serializable(ls);
    Serializable(ls + more);
    SubmissionSince(CommitOrder(ls), tail, s);
  }
}
