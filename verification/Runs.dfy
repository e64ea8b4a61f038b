/** What holds after every run of the payment protocol, however its steps interleave. */
module Runs {
  import opened Sums
  import opened Money
  import opened Domain
  import opened Ledger
  import opened Reconciliation
  import opened Protocol
  import opened Books
  import opened Agreement

  // ---- the invariant over operations, acquirer calls and jobs ----

  /** The pre-check that let the operation through, on the row it read. */
  predicate Passed(op: Op) {
    match op.kind
    case AuthorizeOp => op.seen.status == Created && op.amount == op.seen.amount
    case CaptureOp => Capturing(op.seen, op.amount, op.startedAt).Ok?
    case RefundOp => Refunding(op.seen, op.amount, op.startedAt).Ok?
    case VoidOp => op.amount == 0 && Voiding(op.seen, op.startedAt).Ok?
  }

  predicate OpFits(op: Op, rows: map<Id, Row>) {
    && op.txn in rows && rows[op.txn].merchant == op.merchant
    && RowOk(op.seen) && Forward(op.seen, rows[op.txn]) && Passed(op)
    && (op.phase.Declined? || op.phase.Recorded? ==> op.kind == AuthorizeOp)
    && (op.phase.Booked? && op.kind == AuthorizeOp ==>
          rows[op.txn].status !in {Created, Failed} && rows[op.txn].acquirerRef == op.phase.bookedRef)
    && (op.phase.Recorded? ==> rows[op.txn].status == Failed && rows[op.txn].failureCode == op.phase.failure)
  }

  predicate OpsInv(ops: seq<Op>, rows: map<Id, Row>) {
    forall op | op in ops :: OpFits(op, rows)
  }

  function BookedAmount(kind: Kind, id: Id): Op -> int {
    (op: Op) => if op.kind == kind && op.txn == id && op.phase.Booked? then op.amount else 0
  }

  /** The operation that took the row out of created. */
  function Resolution(id: Id): Op -> int {
    (op: Op) => if op.txn == id && op.kind == AuthorizeOp && (op.phase.Booked? || op.phase.Recorded?) then 1 else 0
  }

  predicate SumsInv(ops: seq<Op>, rows: map<Id, Row>) {
    forall id | id in rows :: OpSums(ops, id, rows[id])
  }

  predicate OpSums(ops: seq<Op>, id: Id, r: Row) {
    && Sum(ops, BookedAmount(CaptureOp, id)) == r.captured
    && Sum(ops, BookedAmount(RefundOp, id)) == r.refunded
    && Sum(ops, Resolution(id)) == (if r.status == Created then 0 else 1)
  }

  function ExecutedAmount(kind: Kind, id: Id): Op -> int {
    (op: Op) => if op.kind == kind && op.txn == id && Executed(op.phase) then op.amount else 0
  }

  function CallAmount(kind: Kind, id: Id): Call -> int {
    (c: Call) => if c.kind == kind && c.txn == id then c.amount else 0
  }

  ghost predicate CallsInv(ops: seq<Op>, calls: seq<Call>) {
    forall kind: Kind, id: Id :: Sum(calls, CallAmount(kind, id)) == Sum(ops, ExecutedAmount(kind, id))
  }

  /** The scan vouches for the row's booked fees: its key was exact in 64 bits, and nothing was captured since. */
  predicate FeesStand(job: Job, t: Row, d: Database) {
    t.id in d.rows && d.rows[t.id].captured == t.captured && KeyFits(job.scanned, d.bps, KeyOf(t))
  }

  ghost predicate JobFits(job: Job, d: Database) {
    && (forall t | t in job.todo :: t in job.scanned && t.id in d.rows && Forward(t, d.rows[t.id]))
    && (forall id | id in job.counted :: id in d.rows && d.rows[id].status in {Settled, Refunded})
    && job.moved <= |job.counted|
    && (forall t | t in job.todo && FeesStand(job, t, d) ::
          ViewOf(d.journal, t.id, d.bps).fees == Fee(t.captured, d.bps))
  }

  ghost predicate JobsInv(jobs: seq<Job>, d: Database) {
    forall job | job in jobs :: JobFits(job, d)
  }

  ghost predicate ClientsInv(s: State) {
    OpsInv(s.ops, s.db.rows) && SumsInv(s.ops, s.db.rows) && CallsInv(s.ops, s.calls) && JobsInv(s.jobs, s.db)
  }

  ghost predicate Inv(s: State) {
    BooksInv(s.db) && ClientsInv(s)
  }

  // ---- moving forward ----

  /** From d to u rows only move forward and the journal is only added to; the journal of an unmoved row stays as it
      was, and without a capture no fee is booked. */
  ghost predicate Advance(d: Database, u: Database) {
    && u.bps == d.bps && d.journal <= u.journal
    && (forall id | id in d.rows :: id in u.rows && Forward(d.rows[id], u.rows[id]))
    && (forall id | id in d.rows && u.rows[id] == d.rows[id] ::
          ViewOf(u.journal, id, d.bps) == ViewOf(d.journal, id, d.bps))
    && (forall id | id in d.rows && u.rows[id].captured == d.rows[id].captured ::
          ViewOf(u.journal, id, d.bps).fees == ViewOf(d.journal, id, d.bps).fees)
  }

  lemma OpsAdvance(ops: seq<Op>, d: Database, u: Database)
    requires OpsInv(ops, d.rows) && Advance(d, u)
    ensures OpsInv(ops, u.rows)
  {
  }

  lemma JobsAdvance(jobs: seq<Job>, d: Database, u: Database)
    requires JobsInv(jobs, d) && Advance(d, u)
    ensures JobsInv(jobs, u)
  {
    forall job | job in jobs
      ensures JobFits(job, u)
    {
      assert JobFits(job, d);
      forall t | t in job.todo && FeesStand(job, t, u)
        ensures ViewOf(u.journal, t.id, u.bps).fees == Fee(t.captured, u.bps)
      {
        assert Forward(t, d.rows[t.id]) && Forward(d.rows[t.id], u.rows[t.id]);
        assert FeesStand(job, t, d);
      }
    }
  }

  // ---- operations ----

  lemma AppendOpSums(ops: seq<Op>, op: Op, rows: map<Id, Row>)
    requires SumsInv(ops, rows) && op.phase == Called
    ensures SumsInv(ops + [op], rows)
  {
    forall id | id in rows
      ensures OpSums(ops + [op], id, rows[id])
    {
      assert OpSums(ops, id, rows[id]);
      SumSnoc(ops, op, BookedAmount(CaptureOp, id));
      SumSnoc(ops, op, BookedAmount(RefundOp, id));
      SumSnoc(ops, op, Resolution(id));
    }
  }

  lemma AppendOpCalls(ops: seq<Op>, op: Op, calls: seq<Call>)
    requires CallsInv(ops, calls) && op.phase == Called
    ensures CallsInv(ops + [op], calls)
  {
    forall kind: Kind, id: Id
      ensures Sum(calls, CallAmount(kind, id)) == Sum(ops + [op], ExecutedAmount(kind, id))
    {
      SumSnoc(ops, op, ExecutedAmount(kind, id));
    }
  }

  lemma UpdateOpSums(ops: seq<Op>, i: nat, op: Op, id: Id, r: Row, w: Row)
    requires i < |ops| && OpSums(ops, id, r)
    requires w.captured - r.captured == BookedAmount(CaptureOp, id)(op) - BookedAmount(CaptureOp, id)(ops[i])
    requires w.refunded - r.refunded == BookedAmount(RefundOp, id)(op) - BookedAmount(RefundOp, id)(ops[i])
    requires (if w.status == Created then 0 else 1) - (if r.status == Created then 0 else 1)
             == Resolution(id)(op) - Resolution(id)(ops[i])
    ensures OpSums(ops[i := op], id, w)
  {
    SumUpdate(ops, i, op, BookedAmount(CaptureOp, id));
    SumUpdate(ops, i, op, BookedAmount(RefundOp, id));
    SumUpdate(ops, i, op, Resolution(id));
  }

  /** What the acquirer did is unchanged, or logged by the added call. */
  ghost predicate CallsMatch(op: Op, p: Phase, added: seq<Call>) {
    if Executed(op.phase) == Executed(p) then added == []
    else Executed(p) && exists ref :: added == [Call(op.kind, op.txn, op.amount, ref)]
  }

  /** The two sides of CallsInv for one kind of operation on one transaction. */
  lemma PhaseCallSums(ops: seq<Op>, i: nat, op: Op, calls: seq<Call>, added: seq<Call>, kind: Kind, id: Id)
    requires i < |ops| && Sum(calls, CallAmount(kind, id)) == Sum(ops, ExecutedAmount(kind, id))
    requires Sum(added, CallAmount(kind, id)) == ExecutedAmount(kind, id)(op) - ExecutedAmount(kind, id)(ops[i])
    ensures Sum(calls + added, CallAmount(kind, id)) == Sum(ops[i := op], ExecutedAmount(kind, id))
  {
    SumUpdate(ops, i, op, ExecutedAmount(kind, id));
    SumConcat(calls, added, CallAmount(kind, id));
  }

  lemma AddedCalls(op: Op, p: Phase, added: seq<Call>, kind: Kind, id: Id)
    requires CallsMatch(op, p, added)
    ensures Sum(added, CallAmount(kind, id))
            == ExecutedAmount(kind, id)(op.(phase := p)) - ExecutedAmount(kind, id)(op)
  {
    if added != [] {
      assert added == [] + [added[0]];
      SumSnoc([], added[0], CallAmount(kind, id));
    }
  }

  lemma PhaseCalls(ops: seq<Op>, i: nat, p: Phase, calls: seq<Call>, added: seq<Call>)
    requires CallsInv(ops, calls) && i < |ops| && CallsMatch(ops[i], p, added)
    ensures CallsInv(ops[i := ops[i].(phase := p)], calls + added)
  {
    var op := ops[i].(phase := p);
    forall kind: Kind, id: Id
      ensures Sum(calls + added, CallAmount(kind, id)) == Sum(ops[i := op], ExecutedAmount(kind, id))
    {
      AddedCalls(ops[i], p, added, kind, id);
      PhaseCallSums(ops, i, op, calls, added, kind, id);
    }
  }

  predicate Writing(p: Phase) { p.Booked? || p.Recorded? }

  lemma PhaseOps(ops: seq<Op>, i: nat, p: Phase, rows: map<Id, Row>)
    requires OpsInv(ops, rows) && SumsInv(ops, rows) && i < |ops| && !Writing(ops[i].phase) && !Writing(p)
    requires p.Declined? ==> ops[i].kind == AuthorizeOp
    ensures OpsInv(ops[i := ops[i].(phase := p)], rows) && SumsInv(ops[i := ops[i].(phase := p)], rows)
  {
    var op := ops[i].(phase := p);
    assert OpFits(ops[i], rows);
    assert OpFits(op, rows);
    forall id | id in rows
      ensures OpSums(ops[i := op], id, rows[id])
    {
      assert OpSums(ops, id, rows[id]);
      UpdateOpSums(ops, i, op, id, rows[id], rows[id]);
    }
  }

  /** A phase change that books nothing. */
  lemma PhaseKeeps(s: State, i: nat, p: Phase, added: seq<Call>)
    requires Inv(s) && i < |s.ops| && !Writing(s.ops[i].phase) && !Writing(p)
    requires p.Declined? ==> s.ops[i].kind == AuthorizeOp
    requires CallsMatch(s.ops[i], p, added)
    ensures Inv(SetPhase(s, i, p).(calls := s.calls + added))
  {
    PhaseOps(s.ops, i, p, s.db.rows);
    PhaseCalls(s.ops, i, p, s.calls, added);
  }

  // ---- committing an operation ----

  lemma PostForward(d: Database, u: Database, id: Id, w: Row, g: seq<Entry>, kind: EventKind)
    requires Posted(d, u, id, w, g, kind) && Forward(d.rows[id], w)
    ensures forall x | x in d.rows :: x in u.rows && Forward(d.rows[x], u.rows[x])
  {
  }

  lemma PostViews(d: Database, u: Database, id: Id, w: Row, g: seq<Entry>, kind: EventKind)
    requires Posted(d, u, id, w, g, kind) && w.id == id && forall e | e in g :: EntryFits(e, w)
    requires w.captured == d.rows[id].captured ==> ViewOf(g, id, d.bps).fees == 0
    ensures forall x | x in d.rows && x != id :: ViewOf(u.journal, x, d.bps) == ViewOf(d.journal, x, d.bps)
    ensures w.captured == d.rows[id].captured ==>
              ViewOf(u.journal, id, d.bps).fees == ViewOf(d.journal, id, d.bps).fees
  {
    forall x | x in d.rows && x != id
      ensures ViewOf(u.journal, x, d.bps) == ViewOf(d.journal, x, d.bps)
    {
      PostKeepsOtherViews(d, u, id, w, g, kind, x);
    }
    ViewConcat(d.journal, g, id, d.bps);
  }

  lemma PostAdvances(d: Database, u: Database, id: Id, w: Row, g: seq<Entry>, kind: EventKind)
    requires Posted(d, u, id, w, g, kind) && w.id == id && Forward(d.rows[id], w)
    requires w.version == d.rows[id].version + 1 && forall e | e in g :: EntryFits(e, w)
    requires w.captured == d.rows[id].captured ==> ViewOf(g, id, d.bps).fees == 0
    ensures Advance(d, u)
  {
    PostForward(d, u, id, w, g, kind);
    PostViews(d, u, id, w, g, kind);
  }

  /** A pending operation whose write-back committed. */
  predicate Writes(op: Op, p: Phase) {
    || (op.phase.Approved? && p == Booked(op.phase.ref))
    || (op.phase.Declined? && p == Recorded(op.phase.code))
  }

  lemma BookingOps(ops: seq<Op>, i: nat, p: Phase, rows: map<Id, Row>, w: Row)
    requires i < |ops| && OpsInv(ops, rows) && ops[i].txn in rows && Writes(ops[i], p)
    requires OpsInv(ops, rows[ops[i].txn := w]) && Effect(rows[ops[i].txn], w, MoveOf(ops[i]))
    ensures OpsInv(ops[i := ops[i].(phase := p)], rows[ops[i].txn := w])
  {
    assert ops[i] in ops;
  }

  lemma BookingSums(ops: seq<Op>, i: nat, p: Phase, rows: map<Id, Row>, w: Row)
    requires i < |ops| && OpsInv(ops, rows) && SumsInv(ops, rows) && ops[i].txn in rows && Writes(ops[i], p)
    requires Effect(rows[ops[i].txn], w, MoveOf(ops[i]))
    ensures SumsInv(ops[i := ops[i].(phase := p)], rows[ops[i].txn := w])
  {
    var op, now := ops[i].(phase := p), rows[ops[i].txn := w];
    assert ops[i] in ops;
    forall id | id in now
      ensures OpSums(ops[i := op], id, now[id])
    {
      assert OpSums(ops, id, rows[id]);
      UpdateOpSums(ops, i, op, id, rows[id], now[id]);
    }
  }

  /** Once the books hold the move of operation i, marking it booked keeps everything. */
  lemma BookingKeeps(s: State, u: Database, i: nat, p: Phase, w: Row)
    requires ClientsInv(s) && Advance(s.db, u)
    requires i < |s.ops| && Writes(s.ops[i], p) && s.ops[i].txn in s.db.rows
    requires u.rows == s.db.rows[s.ops[i].txn := w] && Effect(s.db.rows[s.ops[i].txn], w, MoveOf(s.ops[i]))
    ensures ClientsInv(SetPhase(s.(db := u), i, p))
  {
    BookingClients(s.ops, s.calls, s.jobs, i, p, s.db, u, w);
  }

  lemma BookingClients(ops: seq<Op>, calls: seq<Call>, jobs: seq<Job>, i: nat, p: Phase, d: Database, u: Database,
                       w: Row)
    requires OpsInv(ops, d.rows) && SumsInv(ops, d.rows) && CallsInv(ops, calls) && JobsInv(jobs, d) && Advance(d, u)
    requires i < |ops| && Writes(ops[i], p) && ops[i].txn in d.rows
    requires u.rows == d.rows[ops[i].txn := w] && Effect(d.rows[ops[i].txn], w, MoveOf(ops[i]))
    ensures var done := ops[i := ops[i].(phase := p)];
            OpsInv(done, u.rows) && SumsInv(done, u.rows) && CallsInv(done, calls) && JobsInv(jobs, u)
  {
    BookingRows(ops, i, p, d, u, w);
    JobsAdvance(jobs, d, u);
    BookingCalls(ops, i, p, calls);
  }

  lemma BookingRows(ops: seq<Op>, i: nat, p: Phase, d: Database, u: Database, w: Row)
    requires OpsInv(ops, d.rows) && SumsInv(ops, d.rows) && Advance(d, u)
    requires i < |ops| && Writes(ops[i], p) && ops[i].txn in d.rows
    requires u.rows == d.rows[ops[i].txn := w] && Effect(d.rows[ops[i].txn], w, MoveOf(ops[i]))
    ensures OpsInv(ops[i := ops[i].(phase := p)], u.rows) && SumsInv(ops[i := ops[i].(phase := p)], u.rows)
  {
    OpsAdvance(ops, d, u);
    BookingOps(ops, i, p, d.rows, w);
    BookingSums(ops, i, p, d.rows, w);
  }

  lemma BookingCalls(ops: seq<Op>, i: nat, p: Phase, calls: seq<Call>)
    requires CallsInv(ops, calls) && i < |ops| && Executed(ops[i].phase) == Executed(p)
    ensures CallsInv(ops[i := ops[i].(phase := p)], calls)
  {
    PhaseCalls(ops, i, p, calls, []);
    assert calls + [] == calls;
  }

  lemma CommitKeeps(d: Database, now: int, id: Id, m: Move, group: Id, u: Database) returns (w: Row)
    requires BooksInv(d) && id in d.rows && ServiceMove(d.rows[id], m) && FreshGroup(d.journal, group)
    requires Transact(d, now, id, m, group) == Ok(u)
    ensures BooksInv(u) && Advance(d, u) && u.rows == d.rows[id := w] && Effect(d.rows[id], w, m)
  {
    var g;
    w, g := TransactPosts(d, now, id, m, group);
    PostKeepsBooks(d, u, id, w, g, m, group);
    PostAdvances(d, u, id, w, g, EventFor(m));
  }

  // ---- the steps ----

  lemma BeginKeeps(s: State, op: Op)
    requires Inv(s) && OpFits(op, s.db.rows) && op.phase == Called
    ensures Inv(s.(ops := s.ops + [op]))
  {
    AppendOpSums(s.ops, op, s.db.rows);
    AppendOpCalls(s.ops, op, s.calls);
  }

  lemma NoOpsNoSums(ops: seq<Op>, rows: map<Id, Row>, r: Row)
    requires OpsInv(ops, rows) && r.id !in rows && r == Origin(r)
    ensures OpSums(ops, r.id, r)
  {
    SumZero(ops, BookedAmount(CaptureOp, r.id));
    SumZero(ops, BookedAmount(RefundOp, r.id));
    SumZero(ops, Resolution(r.id));
  }

  lemma InsertAdvances(d: Database, u: Database, r: Row)
    requires RowsInv(d) && RefsInv(d) && EntriesInv(d) && Inserted(d, u, r)
    ensures Advance(d, u)
  {
    InsertKeepsRows(d, u, r);
  }

  lemma InsertSums(ops: seq<Op>, rows: map<Id, Row>, r: Row)
    requires OpsInv(ops, rows) && SumsInv(ops, rows) && r.id !in rows && r == Origin(r)
    ensures SumsInv(ops, rows[r.id := r])
  {
    NoOpsNoSums(ops, rows, r);
  }

  lemma InsertKeeps(s: State, u: Database, r: Row)
    requires Inv(s) && Inserted(s.db, u, r)
    ensures Inv(s.(db := u)) && Advance(s.db, u)
  {
    InsertKeepsBooks(s.db, u, r);
    InsertAdvances(s.db, u, r);
    OpsAdvance(s.ops, s.db, u);
    InsertSums(s.ops, s.db.rows, r);
    JobsAdvance(s.jobs, s.db, u);
  }

  /** Resuming an unfinished payment adds one operation on its row. */
  lemma Resumes(s: State, id: Id, merchant: Id, reference: string, amount: int, currency: Currency) returns (op: Op)
    requires RowsInv(s.db) && ReferenceTaken(s.db.rows, merchant, reference)
    requires Authorizations(s, id, merchant, reference, amount, currency).Ok?
    ensures Authorizations(s, id, merchant, reference, amount, currency) == Ok(s.(ops := s.ops + [op]))
    ensures OpFits(op, s.db.rows) && op.phase == Called
  {
    op := Authorizations(s, id, merchant, reference, amount, currency).value.ops[|s.ops|];
  }

  /** A new reference adds one row and one operation on it. */
  lemma Inserts(s: State, id: Id, merchant: Id, reference: string, amount: int, currency: Currency)
    returns (u: Database, op: Op)
    requires !ReferenceTaken(s.db.rows, merchant, reference)
    requires Authorizations(s, id, merchant, reference, amount, currency).Ok?
    ensures Authorizations(s, id, merchant, reference, amount, currency) == Ok(s.(db := u, ops := s.ops + [op]))
    ensures Inserted(s.db, u, op.seen) && OpFits(op, u.rows) && op.phase == Called
  {
    var r := NewRow(id, merchant, reference, amount, currency, s.clock);
    u := s.db.(rows := s.db.rows[id := r]);
    op := Op(AuthorizeOp, merchant, id, amount, r, s.clock, Called);
  }

  lemma AuthorizeKeeps(s: State, id: Id, merchant: Id, reference: string, amount: int, currency: Currency)
    requires Inv(s) && Authorizations(s, id, merchant, reference, amount, currency).Ok?
    ensures var u := Authorizations(s, id, merchant, reference, amount, currency).value;
            Inv(u) && Advance(s.db, u.db)
  {
    if ReferenceTaken(s.db.rows, merchant, reference) {
      var op := Resumes(s, id, merchant, reference, amount, currency);
      BeginKeeps(s, op);
      AdvanceSelf(s.db);
    } else {
      var u, op := Inserts(s, id, merchant, reference, amount, currency);
      InsertKeeps(s, u, op.seen);
      BeginKeeps(s.(db := u), op);
    }
  }

  /** An answer changes one phase and logs what the acquirer did. */
  lemma AnswerCases(s: State, i: nat, a: Answer) returns (p: Phase, added: seq<Call>)
    requires i < |s.ops| && s.ops[i].phase == Called
    ensures Answered(s, i, a) == SetPhase(s, i, p).(calls := s.calls + added)
    ensures !Writing(p) && (p.Declined? ==> s.ops[i].kind == AuthorizeOp) && CallsMatch(s.ops[i], p, added)
  {
    var op, u := s.ops[i], Answered(s, i, a);
    p, added := u.ops[i].phase, u.calls[|s.calls|..];
    assert u.calls == s.calls + added;
    if Executed(p) {
      assert added == [Call(op.kind, op.txn, op.amount, added[0].ref)];
    }
  }

  lemma AnswerKeeps(s: State, i: nat, a: Answer)
    requires Inv(s) && i < |s.ops| && s.ops[i].phase == Called
    ensures Inv(Answered(s, i, a)) && Answered(s, i, a).db == s.db
  {
    var p, added := AnswerCases(s, i, a);
    PhaseKeeps(s, i, p, added);
  }

  lemma StillPhase(s: State, i: nat, p: Phase)
    requires Inv(s) && i < |s.ops| && !Writing(s.ops[i].phase) && !Writing(p) && !p.Declined?
    requires Executed(s.ops[i].phase) == Executed(p)
    ensures Inv(SetPhase(s, i, p))
  {
    PhaseKeeps(s, i, p, []);
    assert s.calls + [] == s.calls;
  }

  lemma AdvanceSelf(d: Database)
    ensures Advance(d, d)
  {
  }

  /** A write-back commits the operation's own move or leaves the tables alone. */
  lemma OutcomeCases(s: State, op: Op, group: Id)
    requires Pending(op.phase) && op.txn in s.db.rows && (op.phase.Declined? ==> op.kind == AuthorizeOp)
    ensures var (d, p) := Outcome(s, op, group);
            if Writing(p) then
              Writes(op, p) && ServiceMove(s.db.rows[op.txn], MoveOf(op))
              && Transact(s.db, s.clock, op.txn, MoveOf(op), group) == Ok(d)
            else d == s.db && !p.Declined? && Executed(p) == Executed(op.phase)
  {
  }

  lemma FinishWrites(s: State, i: nat, group: Id, u: Database, p: Phase)
    requires Inv(s) && i < |s.ops| && FreshGroup(s.db.journal, group) && s.ops[i].txn in s.db.rows
    requires Writes(s.ops[i], p) && ServiceMove(s.db.rows[s.ops[i].txn], MoveOf(s.ops[i]))
    requires Transact(s.db, s.clock, s.ops[i].txn, MoveOf(s.ops[i]), group) == Ok(u)
    ensures BooksInv(u) && Advance(s.db, u) && ClientsInv(SetPhase(s.(db := u), i, p))
  {
    var w := CommitKeeps(s.db, s.clock, s.ops[i].txn, MoveOf(s.ops[i]), group, u);
    BookingKeeps(s, u, i, p, w);
  }

  /** Whatever the last section of operation i made of the tables and its phase, u keeps the invariant. */
  lemma FinishKeeps(s: State, i: nat, group: Id, d: Database, p: Phase, u: State)
    requires Inv(s) && i < |s.ops| && FreshGroup(s.db.journal, group) && Pending(s.ops[i].phase)
    requires (d, p) == Outcome(s, s.ops[i], group) && u == SetPhase(s.(db := d), i, p)
    ensures Inv(u) && Advance(s.db, u.db)
  {
    assert s.ops[i] in s.ops;
    OutcomeCases(s, s.ops[i], group);
    if Writing(p) {
      FinishWrites(s, i, group, d, p);
    } else {
      StillPhase(s, i, p);
      AdvanceSelf(d);
    }
  }

  lemma ScanFits(d: Database, from: int, to: int, txns: seq<Row>)
    requires RowsInv(d) && EntriesInv(d) && LedgerInv(d) && Lists(d.rows, from, to, txns)
    requires Agrees(d.rows, d.journal, d.bps, from, to, txns)
    ensures JobFits(Job(txns, txns, [], 0), d)
  {
    forall t | t in txns && KeyFits(txns, d.bps, KeyOf(t))
      ensures ViewOf(d.journal, t.id, d.bps).fees == Fee(t.captured, d.bps)
    {
      AgreementIsPerTransaction(d, from, to, txns, t);
    }
  }

  lemma SettleSums(ops: seq<Op>, rows: map<Id, Row>, id: Id, w: Row)
    requires SumsInv(ops, rows) && id in rows && Effect(rows[id], w, Settle)
    ensures SumsInv(ops, rows[id := w])
  {
    assert OpSums(ops, id, rows[id]);
  }

  /** A shorter list of rows to visit, with a row at or past settlement counted, still makes a sound job. */
  lemma VisitedFits(job: Job, d: Database, counts: bool, moves: bool)
    requires JobFits(job, d) && job.todo != [] && (moves ==> counts)
    requires counts ==> job.todo[0].id in d.rows && d.rows[job.todo[0].id].status in {Settled, Refunded}
    ensures JobFits(Visited(job, counts, moves), d)
  {
  }

  lemma SettledClients(s: State, u: Database, k: nat, w: Row)
    requires ClientsInv(s) && Advance(s.db, u) && k < |s.jobs| && s.jobs[k].todo != []
    requires s.jobs[k].todo[0].id in s.db.rows
    requires u.rows == s.db.rows[s.jobs[k].todo[0].id := w] && Effect(s.db.rows[s.jobs[k].todo[0].id], w, Settle)
    ensures ClientsInv(SetJob(s.(db := u), k, Visited(s.jobs[k], true, true)))
  {
    OpsAdvance(s.ops, s.db, u);
    SettleSums(s.ops, s.db.rows, s.jobs[k].todo[0].id, w);
    JobsAdvance(s.jobs, s.db, u);
    assert s.jobs[k] in s.jobs;
    VisitedFits(s.jobs[k], u, true, true);
  }

  lemma SettleMoves(s: State, k: nat, group: Id, u: Database)
    requires Inv(s) && k < |s.jobs| && s.jobs[k].todo != [] && FreshGroup(s.db.journal, group)
    requires s.jobs[k].todo[0].id in s.db.rows
    requires Transact(s.db, s.clock, s.jobs[k].todo[0].id, Settle, group) == Ok(u)
    ensures BooksInv(u) && Advance(s.db, u) && ClientsInv(SetJob(s.(db := u), k, Visited(s.jobs[k], true, true)))
  {
    var w := CommitKeeps(s.db, s.clock, s.jobs[k].todo[0].id, Settle, group, u);
    SettledClients(s, u, k, w);
  }

  lemma SettleSkips(s: State, k: nat)
    requires Inv(s) && k < |s.jobs| && s.jobs[k].todo != []
    requires s.jobs[k].todo[0].id in s.db.rows
    requires s.jobs[k].todo[0].status != Captured || s.db.rows[s.jobs[k].todo[0].id].status != Captured
    ensures ClientsInv(SetJob(s, k, Visited(s.jobs[k], s.jobs[k].todo[0].status == Captured, false)))
  {
    var t := s.jobs[k].todo[0];
    assert s.jobs[k] in s.jobs && t in s.jobs[k].todo;
    VisitedFits(s.jobs[k], s.db, t.status == Captured, false);
  }

  lemma SettleKeeps(s: State, k: nat, group: Id)
    requires Inv(s) && k < |s.jobs| && s.jobs[k].todo != [] && FreshGroup(s.db.journal, group)
    ensures Inv(SettledNext(s, k, group)) && Advance(s.db, SettledNext(s, k, group).db)
  {
    var t := s.jobs[k].todo[0];
    assert s.jobs[k] in s.jobs && t in s.jobs[k].todo;
    if t.status == Captured && s.db.rows[t.id].status == Captured {
      SettleCommits(s.db, s.clock, t.id, group);
      SettleMoves(s, k, group, Transact(s.db, s.clock, t.id, Settle, group).value);
    } else {
      SettleSkips(s, k);
      AdvanceSelf(s.db);
    }
  }

  /** What passed a pre-check fits the row it was checked on. */
  predicate PreFits(op: Result<Op, Error>, rows: map<Id, Row>) {
    op.Ok? ==> op.value.phase == Called && OpFits(op.value, rows)
  }

  lemma PreCaptureFits(s: State, merchant: Id, txn: Id, amount: int)
    requires RowsInv(s.db)
    ensures PreFits(PreCapture(s, merchant, txn, amount), s.db.rows)
  {
  }

  lemma PreRefundFits(s: State, merchant: Id, txn: Id, amount: int)
    requires RowsInv(s.db)
    ensures PreFits(PreRefund(s, merchant, txn, amount), s.db.rows)
  {
  }

  lemma PreVoidFits(s: State, merchant: Id, txn: Id)
    requires RowsInv(s.db)
    ensures PreFits(PreVoid(s, merchant, txn), s.db.rows)
  {
  }

  lemma PreKeeps(s: State, op: Result<Op, Error>, u: State)
    requires Inv(s) && PreFits(op, s.db.rows) && u == WithOp(s, op)
    ensures Inv(u) && u.db == s.db
  {
    if op.Ok? {
      BeginKeeps(s, op.value);
    }
  }

  lemma ClientStepKeeps(s: State, step: Step, u: State)
    requires Inv(s) && u == Apply(s, step)
    requires step.BeginCapture? || step.BeginRefund? || step.BeginVoid? || step.AcquirerAnswers?
    ensures Inv(u) && u.db == s.db
  {
    match step
    case BeginCapture(merchant, txn, amount) =>
      PreCaptureFits(s, merchant, txn, amount);
      PreKeeps(s, PreCapture(s, merchant, txn, amount), u);
    case BeginRefund(merchant, txn, amount) =>
      PreRefundFits(s, merchant, txn, amount);
      PreKeeps(s, PreRefund(s, merchant, txn, amount), u);
    case BeginVoid(merchant, txn) =>
      PreVoidFits(s, merchant, txn);
      PreKeeps(s, PreVoid(s, merchant, txn), u);
    case AcquirerAnswers(i, a) => if i < |s.ops| && s.ops[i].phase == Called { AnswerKeeps(s, i, a); }
  }

  lemma ScanKeeps(s: State, from: int, to: int, txns: seq<Row>)
    requires Inv(s) && Lists(s.db.rows, from, to, txns) && Agrees(s.db.rows, s.db.journal, s.db.bps, from, to, txns)
    ensures Inv(s.(jobs := s.jobs + [Job(txns, txns, [], 0)]))
  {
    ScanFits(s.db, from, to, txns);
  }

  lemma StopKeeps(s: State, k: nat)
    requires Inv(s) && k < |s.jobs|
    ensures Inv(SetJob(s, k, s.jobs[k].(todo := [])))
  {
    assert s.jobs[k] in s.jobs;
  }

  lemma FaultKeeps(s: State, i: nat)
    requires Inv(s) && i < |s.ops|
    ensures Inv(FinishFailed(s, i)) && FinishFailed(s, i).db == s.db
  {
    if s.ops[i].phase.Approved? {
      StillPhase(s, i, Orphaned(DatabaseFailure));
    } else if s.ops[i].phase.Declined? {
      StillPhase(s, i, Refused);
    }
  }

  /** The steps that leave the tables alone. */
  lemma QuietStepKeeps(s: State, step: Step, u: State)
    requires Inv(s) && u == Apply(s, step) && !(step.BeginAuthorize? || step.Finish? || step.SettleNext?)
    ensures Inv(u) && u.db == s.db
  {
    match step
    case FinishFails(i) => if i < |s.ops| { FaultKeeps(s, i); }
    case Scan(from, to, txns) =>
      if Lists(s.db.rows, from, to, txns) && Agrees(s.db.rows, s.db.journal, s.db.bps, from, to, txns) {
        ScanKeeps(s, from, to, txns);
      }
    case SettleFails(k) => if k < |s.jobs| { StopKeeps(s, k); }
    case SetClock(_) =>
    case _ => ClientStepKeeps(s, step, u);
  }

  /** A last section takes place on a pending operation only. */
  lemma FinishCases(s: State, i: nat, group: Id) returns (d: Database, p: Phase)
    ensures var u := Apply(s, Finish(i, group));
            if i < |s.ops| && FreshGroup(s.db.journal, group) && Pending(s.ops[i].phase) then
              (d, p) == Outcome(s, s.ops[i], group) && u == SetPhase(s.(db := d), i, p)
            else u == s
  {
    d, p := s.db, Refused;
    if i < |s.ops| && Pending(s.ops[i].phase) {
      d, p := Outcome(s, s.ops[i], group).0, Outcome(s, s.ops[i], group).1;
    }
  }

  lemma FinishStepKeeps(s: State, i: nat, group: Id, u: State)
    requires Inv(s) && u == Apply(s, Finish(i, group))
    ensures Inv(u) && Advance(s.db, u.db)
  {
    var d, p := FinishCases(s, i, group);
    if i < |s.ops| && FreshGroup(s.db.journal, group) && Pending(s.ops[i].phase) {
      FinishKeeps(s, i, group, d, p, u);
    } else {
      SameKeeps(s, u);
    }
  }

  lemma SameKeeps(s: State, u: State)
    requires Inv(s) && u == s
    ensures Inv(u) && Advance(s.db, u.db)
  {
    AdvanceSelf(s.db);
  }

  lemma SettleCases(s: State, k: nat, group: Id)
    ensures var u := Apply(s, SettleNext(k, group));
            if k < |s.jobs| && s.jobs[k].todo != [] && FreshGroup(s.db.journal, group) then
              u == SettledNext(s, k, group)
            else u == s
  {
  }

  lemma SettleStepKeeps(s: State, k: nat, group: Id, u: State)
    requires Inv(s) && u == Apply(s, SettleNext(k, group))
    ensures Inv(u) && Advance(s.db, u.db)
  {
    SettleCases(s, k, group);
    if k < |s.jobs| && s.jobs[k].todo != [] && FreshGroup(s.db.journal, group) {
      SettleKeeps(s, k, group);
    } else {
      SameKeeps(s, u);
    }
  }

  lemma AuthorizeStepKeeps(s: State, id: Id, merchant: Id, reference: string, amount: int, currency: Currency, u: State)
    requires Inv(s) && u == Apply(s, BeginAuthorize(id, merchant, reference, amount, currency))
    ensures Inv(u) && Advance(s.db, u.db)
  {
    if Authorizations(s, id, merchant, reference, amount, currency).Ok? {
      AuthorizeKeeps(s, id, merchant, reference, amount, currency);
    } else {
      SameKeeps(s, u);
    }
  }

  lemma TakenStepKeeps(s: State, step: Step, u: State)
    requires Inv(s) && u == Apply(s, step)
    ensures Inv(u) && Advance(s.db, u.db)
  {
    match step
    case BeginAuthorize(id, merchant, reference, amount, currency) =>
      AuthorizeStepKeeps(s, id, merchant, reference, amount, currency, u);
    case Finish(i, group) => FinishStepKeeps(s, i, group, u);
    case SettleNext(k, group) => SettleStepKeeps(s, k, group, u);
    case _ =>
      QuietStepKeeps(s, step, u);
      AdvanceSelf(s.db);
  }

  /** Every step, of whichever client, keeps the invariant and moves the rows forward. */
  lemma StepKeeps(s: State, step: Step)
    requires Inv(s)
    ensures Inv(Apply(s, step)) && Advance(s.db, Apply(s, step).db)
  {
    TakenStepKeeps(s, step, Apply(s, step));
  }

  /** After every run, whatever the clients, the acquirer, the clock and the database did. */
  lemma {:induction false} RunsKeepInv(bps: int, run: seq<Step>)
    ensures Inv(Exec(bps, run))
  {
    if run != [] {
      RunsKeepInv(bps, run[..|run| - 1]);
      StepKeeps(Exec(bps, run[..|run| - 1]), run[|run| - 1]);
    }
  }
}
