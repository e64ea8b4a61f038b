/** The payment protocol as a state machine. Any number of clients interleave; each step is one unlocked
    read with its pre-check, one acquirer answer, or one database transaction that commits whole or not at all. */
module Protocol {
  import opened Sums
  import opened Money
  import opened Domain
  import opened Ledger
  import opened Reconciliation

  datatype EventKind =
    PaymentAuthorized | PaymentCaptured | PaymentFailed | PaymentRefunded | PaymentVoided | PaymentSettled

  /** An outbox row: the event and the transaction as it was announced. */
  datatype Event = Event(txn: Id, kind: EventKind, row: Row)

  datatype Kind = AuthorizeOp | CaptureOp | RefundOp | VoidOp

  datatype Phase =
    | Called                                              // the acquirer has been asked
    | Approved(ref: string, last4: string, brand: string) // it said yes, the write-back is pending
    | Declined(code: string)                              // it refused the card, the failure is not yet recorded
    | Booked(bookedRef: string)                           // the write-back committed
    | Recorded(failure: string)                           // the failure was committed
    | Orphaned(error: Error)                              // it acted, the write-back did not commit
    | Superseded                                          // a decline that found the row already resolved
    | Refused                                             // it did not act
    | Unknown(executed: bool)                             // no answer came back

  /** One client call past its pre-check, with the row it read. */
  datatype Op = Op(kind: Kind, merchant: Id, txn: Id, amount: int, seen: Row, startedAt: int, phase: Phase)

  /** One action the acquirer performed. */
  datatype Call = Call(kind: Kind, txn: Id, amount: int, ref: string)

  /** A reconciliation run that passed its gate: the scanned rows, those still to visit, the ones counted as settled,
      and how many of those it moved itself. */
  datatype Job = Job(scanned: seq<Row>, todo: seq<Row>, counted: seq<Id>, moved: nat)

  /** The three tables, with the fee rate in force. */
  datatype Database = Database(bps: int, rows: map<Id, Row>, journal: seq<Entry>, outbox: seq<Event>)

  datatype State = State(db: Database, clock: int, ops: seq<Op>, calls: seq<Call>, jobs: seq<Job>)

  datatype Answer =
    | Yes(ref: string, last4: string, brand: string)
    | No(code: string)
    | Malformed
    | Lost(executed: bool)

  datatype Step =
    | BeginAuthorize(id: Id, merchant: Id, reference: string, amount: int, currency: Currency)
    | BeginCapture(merchant: Id, txn: Id, amount: int)
    | BeginRefund(merchant: Id, txn: Id, amount: int)
    | BeginVoid(merchant: Id, txn: Id)
    | AcquirerAnswers(op: nat, answer: Answer)
    | Finish(op: nat, group: Id)
    | FinishFails(op: nat)
    | Scan(from: int, to: int, txns: seq<Row>)
    | SettleNext(job: nat, group: Id)
    | SettleFails(job: nat)
    | SetClock(now: int)

  function Initial(bps: int): State {
    State(Database(bps, map[], [], []), 0, [], [], [])
  }

  // ---- the transactions table ----

  /** The CHECK constraints of the table. */
  predicate TableChecks(r: Row) {
    0 < r.amount && 0 <= r.captured <= r.amount && 0 <= r.refunded <= r.captured
  }

  predicate HasReference(rows: map<Id, Row>, id: Id, merchant: Id, reference: string) {
    id in rows && rows[id].merchant == merchant && rows[id].reference == reference
  }

  predicate ReferenceTaken(rows: map<Id, Row>, merchant: Id, reference: string) {
    exists id | id in rows :: HasReference(rows, id, merchant, reference)
  }

  /** The stored row after an UPDATE from the in-memory copy t: identifying columns are not written. */
  function Written(r: Row, t: Row, now: int): Row {
    r.(status := t.status, captured := t.captured, refunded := t.refunded, cardLast4 := t.cardLast4,
       cardBrand := t.cardBrand, acquirerRef := t.acquirerRef, failureCode := t.failureCode,
       authorizedAt := t.authorizedAt, capturedAt := t.capturedAt, settledAt := t.settledAt,
       version := r.version + 1, updatedAt := now)
  }

  /** The version-guarded UPDATE. */
  function Updated(rows: map<Id, Row>, t: Row, now: int): Result<Row, Error> {
    if t.id !in rows || rows[t.id].version != t.version then Err(ConcurrentModification)
    else
      var w := Written(rows[t.id], t, now);
      if !TableChecks(w) then Err(Validation) else Ok(w)
  }

  // ---- one committed database transaction ----

  /** The journal lines a move books: none where no money moves. */
  function GroupFor(w: Row, m: Move, bps: int, group: Id, now: int): Result<seq<Entry>, Error> {
    match m
    case Capture(amount) => CaptureGroup(w, amount, Fee(amount, bps), group, now)
    case Refund(amount) => RefundGroup(w, amount, group, now)
    case Settle => if NetPayable(w, bps) > 0 then SettlementGroup(w, NetPayable(w, bps), group, now) else Ok([])
    case Authorize(_, _, _) => Ok([])
    case Fail(_) => Ok([])
    case Void => Ok([])
  }

  function EventFor(m: Move): EventKind {
    match m
    case Authorize(_, _, _) => PaymentAuthorized
    case Fail(_) => PaymentFailed
    case Void => PaymentVoided
    case Capture(_) => PaymentCaptured
    case Refund(_) => PaymentRefunded
    case Settle => PaymentSettled
  }

  /** Lock the row, apply the rule to it as it is now, update it, book the group, queue the webhook; or nothing. */
  function Transact(d: Database, now: int, id: Id, m: Move, group: Id): Result<Database, Error> {
    if id !in d.rows then Err(NotFound)
    else
      var t :- Moved(d.rows[id], m, now);
      var w :- Updated(d.rows, t, now);
      var g :- GroupFor(w, m, d.bps, group, now);
      Ok(d.(rows := d.rows[id := w], journal := d.journal + g, outbox := d.outbox + [Event(id, EventFor(m), w)]))
  }

  /** The reason a call is refused, if it is. */
  function ErrorOf<T>(r: Result<T, Error>): Option<Error> {
    if r.Ok? then None else Some(r.error)
  }

  // ---- client operations ----

  function Lookup(s: State, merchant: Id, txn: Id): Result<Row, Error> {
    if txn in s.db.rows && s.db.rows[txn].merchant == merchant then Ok(s.db.rows[txn]) else Err(NotFound)
  }

  function PreCapture(s: State, merchant: Id, txn: Id, amount: int): Result<Op, Error> {
    var r :- Lookup(s, merchant, txn);
    var a := if amount == 0 then r.amount - r.captured else amount;
    var _ :- Capturing(r, a, s.clock);
    Ok(Op(CaptureOp, merchant, txn, a, r, s.clock, Called))
  }

  function PreRefund(s: State, merchant: Id, txn: Id, amount: int): Result<Op, Error> {
    var r :- Lookup(s, merchant, txn);
    var a := if amount == 0 then r.captured - r.refunded else amount;
    var _ :- Refunding(r, a, s.clock);
    Ok(Op(RefundOp, merchant, txn, a, r, s.clock, Called))
  }

  function PreVoid(s: State, merchant: Id, txn: Id): Result<Op, Error> {
    var r :- Lookup(s, merchant, txn);
    var _ :- Voiding(r, s.clock);
    Ok(Op(VoidOp, merchant, txn, 0, r, s.clock, Called))
  }

  /** Insert the row first; a taken reference continues the payment stored under it if that one is still
      created and asks for the same money, and is a duplicate otherwise. */
  ghost function Authorizations(s: State, id: Id, merchant: Id, reference: string, amount: int, currency: Currency)
    : Result<State, Error>
  {
    var r :- NewTransaction(id, merchant, reference, amount, currency, s.clock);
    if id in s.db.rows then Err(DatabaseFailure)
    else if ReferenceTaken(s.db.rows, merchant, reference) then
      var x :| HasReference(s.db.rows, x, merchant, reference);
      if s.db.rows[x].status == Created && s.db.rows[x].amount == amount && s.db.rows[x].currency == currency then
        Ok(s.(ops := s.ops + [Op(AuthorizeOp, merchant, x, amount, s.db.rows[x], s.clock, Called)]))
      else Err(DuplicateReference)
    else Ok(s.(db := s.db.(rows := s.db.rows[id := r]),
              ops := s.ops + [Op(AuthorizeOp, merchant, id, amount, r, s.clock, Called)]))
  }

  function WithOp(s: State, op: Result<Op, Error>): State {
    if op.Ok? then s.(ops := s.ops + [op.value]) else s
  }

  function SetPhase(s: State, i: nat, p: Phase): State
    requires i < |s.ops|
  {
    s.(ops := s.ops[i := s.ops[i].(phase := p)])
  }

  /** The acquirer acted and the caller knows it or may not. */
  predicate Executed(p: Phase) {
    p.Approved? || p.Booked? || p.Orphaned? || (p.Unknown? && p.executed)
  }

  function Answered(s: State, i: nat, a: Answer): State
    requires i < |s.ops|
  {
    var op := s.ops[i];
    match a
    case Yes(ref, last4, brand) =>
      SetPhase(s, i, Approved(ref, last4, brand)).(calls := s.calls + [Call(op.kind, op.txn, op.amount, ref)])
    case No(code) => SetPhase(s, i, if op.kind == AuthorizeOp then Declined(code) else Refused)
    case Malformed => SetPhase(s, i, Refused)
    case Lost(executed) =>
      var u := SetPhase(s, i, Unknown(executed));
      if executed then u.(calls := s.calls + [Call(op.kind, op.txn, op.amount, "")]) else u
  }

  /** An operation the acquirer has answered and the database has not. */
  predicate Pending(p: Phase) {
    p.Approved? || p.Declined?
  }

  /** The rule a pending operation is about to write back. */
  function MoveOf(op: Op): Move
    requires Pending(op.phase)
  {
    if op.phase.Declined? then Fail(op.phase.code)
    else
      match op.kind
      case AuthorizeOp => Authorize(op.phase.ref, op.phase.last4, op.phase.brand)
      case CaptureOp => Capture(op.amount)
      case RefundOp => Refund(op.amount)
      case VoidOp => Void
  }

  /** The write-back of an approved call: the same rules, on the row as it is now. */
  function WriteBack(s: State, op: Op, group: Id): Result<Database, Error>
    requires op.phase.Approved?
  {
    if op.txn !in s.db.rows then Err(NotFound)
    else if op.kind == AuthorizeOp && s.db.rows[op.txn].status != Created then Err(ConcurrentModification)
    else if op.kind != AuthorizeOp && s.db.rows[op.txn].merchant != op.merchant then Err(NotFound)
    else Transact(s.db, s.clock, op.txn, MoveOf(op), group)
  }

  /** The tables and the operation's phase after its last database transaction. */
  function Outcome(s: State, op: Op, group: Id): (Database, Phase)
    requires Pending(op.phase)
  {
    if op.phase.Approved? then
      match WriteBack(s, op, group)
      case Ok(d) => (d, Booked(op.phase.ref))
      case Err(e) => (s.db, Orphaned(e))
    else if op.txn !in s.db.rows then (s.db, Refused)
    else if s.db.rows[op.txn].status != Created then (s.db, Superseded)
    else
      match Transact(s.db, s.clock, op.txn, MoveOf(op), group)
      case Ok(d) => (d, Recorded(op.phase.code))
      case Err(_) => (s.db, Refused)
  }

  function Finished(s: State, i: nat, group: Id): State
    requires i < |s.ops|
  {
    if !Pending(s.ops[i].phase) then s
    else
      var (d, p) := Outcome(s, s.ops[i], group);
      SetPhase(s.(db := d), i, p)
  }

  function FinishFailed(s: State, i: nat): State
    requires i < |s.ops|
  {
    if s.ops[i].phase.Approved? then SetPhase(s, i, Orphaned(DatabaseFailure))
    else if s.ops[i].phase.Declined? then SetPhase(s, i, Refused)
    else s
  }

  // ---- settlement ----

  function SetJob(s: State, k: nat, job: Job): State
    requires k < |s.jobs|
  {
    s.(jobs := s.jobs[k := job])
  }

  /** The job after its first row, counted as settled or passed over. */
  function Visited(job: Job, counts: bool, moves: bool): Job
    requires job.todo != []
  {
    job.(todo := job.todo[1..], counted := if counts then job.counted + [job.todo[0].id] else job.counted,
         moved := if moves then job.moved + 1 else job.moved)
  }

  function SettledNext(s: State, k: nat, group: Id): State
    requires k < |s.jobs| && s.jobs[k].todo != []
  {
    var job := s.jobs[k];
    var t := job.todo[0];
    if t.status != Captured then SetJob(s, k, Visited(job, false, false))
    else if t.id !in s.db.rows then SetJob(s, k, job.(todo := []))
    else if s.db.rows[t.id].status != Captured then SetJob(s, k, Visited(job, true, false))
    else
      match Transact(s.db, s.clock, t.id, Settle, group)
      case Ok(d) => SetJob(s.(db := d), k, Visited(job, true, true))
      case Err(_) => SetJob(s, k, job.(todo := []))
  }

  // ---- runs ----

  /** A new group id has not been used before. */
  predicate FreshGroup(j: seq<Entry>, group: Id) {
    forall e | e in j :: e.group != group
  }

  /** One step; a step that is not enabled changes nothing. */
  ghost function Apply(s: State, step: Step): State {
    match step
    case BeginAuthorize(id, merchant, reference, amount, currency) =>
      var r := Authorizations(s, id, merchant, reference, amount, currency);
      if r.Ok? then r.value else s
    case BeginCapture(merchant, txn, amount) => WithOp(s, PreCapture(s, merchant, txn, amount))
    case BeginRefund(merchant, txn, amount) => WithOp(s, PreRefund(s, merchant, txn, amount))
    case BeginVoid(merchant, txn) => WithOp(s, PreVoid(s, merchant, txn))
    case AcquirerAnswers(i, a) => if i < |s.ops| && s.ops[i].phase == Called then Answered(s, i, a) else s
    case Finish(i, group) => if i < |s.ops| && FreshGroup(s.db.journal, group) then Finished(s, i, group) else s
    case FinishFails(i) => if i < |s.ops| then FinishFailed(s, i) else s
    case Scan(from, to, txns) =>
      if Lists(s.db.rows, from, to, txns) && Agrees(s.db.rows, s.db.journal, s.db.bps, from, to, txns)
      then s.(jobs := s.jobs + [Job(txns, txns, [], 0)]) else s
    case SettleNext(k, group) =>
      if k < |s.jobs| && s.jobs[k].todo != [] && FreshGroup(s.db.journal, group) then SettledNext(s, k, group) else s
    case SettleFails(k) => if k < |s.jobs| then SetJob(s, k, s.jobs[k].(todo := [])) else s
    case SetClock(now) => s.(clock := now)
  }

  /** The state after a whole run, whatever its steps and their order. */
  ghost function Exec(bps: int, run: seq<Step>): State {
    if run == [] then Initial(bps) else Apply(Exec(bps, run[..|run| - 1]), run[|run| - 1])
  }
}
