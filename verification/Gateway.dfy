/** The running service: objects and tables updated in place. Each atomic section of the payment and reconciliation
    services is a method that takes exactly one step of the protocol. */
module Gateway {
  import opened Sums
  import opened Money
  import opened Domain
  import opened Ledger
  import opened Reconciliation
  import opened Protocol
  import opened Books
  import opened Agreement
  import opened Runs
  import opened Operations
  import opened Theorems
  import opened Days

  class Service {
    const bps: int
    var clock: int
    var rows: map<Id, Row>
    var journal: seq<Entry>
    var outbox: seq<Event>
    var ops: seq<Op>
    var calls: seq<Call>
    var jobs: seq<Job>
    ghost var run: seq<Step>

    function Db(): Database
      reads this
    {
      Database(bps, rows, journal, outbox)
    }

    function Now(): State
      reads this
    {
      State(Db(), clock, ops, calls, jobs)
    }

    /** The object is where the steps it took lead: everything proved of runs is true of it. The atomic sections
        below keep this; the repositories and transaction bodies are the parts they are made of. */
    ghost predicate Valid()
      reads this
    {
      Now() == Exec(bps, run)
    }

    lemma ValidAdmits()
      requires Valid()
      ensures RowsInv(Db()) && RefsInv(Db())
      ensures forall op | op in ops :: op.txn in rows
      ensures forall job, t | job in jobs && t in job.todo :: t.id in rows
    {
      RunsKeepInv(bps, run);
    }

    /** Notes the step that led here from before. */
    ghost method Took(before: State, step: Step)
      requires before == Exec(bps, run) && Now() == Apply(before, step)
      modifies this`run
      ensures Valid() && run == old(run) + [step]
    {
      ExecSnoc(bps, run, step, before);
      run := run + [step];
    }

    constructor (bps: int)
      ensures Now() == Initial(bps) && Valid() && run == []
    {
      this.bps, clock := bps, 0;
      rows, journal, outbox, ops, calls, jobs, run := map[], [], [], [], [], [], [];
    }

    // ---- repositories ----

    /** INSERT INTO transactions: the CHECK constraints come first, then the primary key and the unique reference. */
    method Create(t: Row) returns (err: Option<Error>)
      modifies this`rows
      ensures err == (if !TableChecks(t) then Some(Validation)
                      else if t.id in old(rows) then Some(DatabaseFailure)
                      else if ReferenceTaken(old(rows), t.merchant, t.reference) then Some(DuplicateReference)
                      else None)
      ensures rows == if err.None? then old(rows)[t.id := t] else old(rows)
    {
      if !TableChecks(t) {
        return Some(Validation);
      }
      if t.id in rows {
        return Some(DatabaseFailure);
      }
      if exists id | id in rows :: HasReference(rows, id, t.merchant, t.reference) {
        return Some(DuplicateReference);
      }
      rows := rows[t.id := t];
      return None;
    }

    /** The version-guarded UPDATE; the object is told its new version. */
    method Update(t: Transaction) returns (err: Option<Error>)
      modifies this`rows, t
      ensures match Updated(old(rows), old(t.Value()), clock)
              case Ok(w) =>
                && err == None && rows == old(rows)[t.id := w]
                && t.Value() == old(t.Value()).(version := w.version, updatedAt := clock)
              case Err(e) => err == Some(e) && rows == old(rows) && t.Value() == old(t.Value())
    {
      if t.id !in rows || rows[t.id].version != t.version {
        return Some(ConcurrentModification);
      }
      var w := Written(rows[t.id], t.Value(), clock);
      if !TableChecks(w) {
        return Some(Validation);
      }
      rows := rows[t.id := w];
      t.version := w.version;
      t.updatedAt := w.updatedAt;
      return None;
    }

    /** Validates once more, then appends the lines one by one. */
    method InsertGroup(es: seq<Entry>) returns (err: Option<Error>)
      modifies this`journal
      ensures err == GroupError(es)
      ensures journal == if err.None? then old(journal) + es else old(journal)
    {
      err := Validate(es);
      if err.Some? {
        return;
      }
      for i := 0 to |es|
        invariant journal == old(journal) + es[..i]
      {
        journal := journal + [es[i]];
      }
      assert es[..|es|] == es;
    }

    method QueueWebhook(t: Transaction, kind: EventKind)
      modifies this`outbox
      ensures outbox == old(outbox) + [Event(t.id, kind, t.Value())]
    {
      outbox := outbox + [Event(t.id, kind, t.Value())];
    }

    // ---- the body of each database transaction ----

    /** The caller sees the commit or the reason there is none. */
    ghost predicate Reports(want: Result<Database, Error>, err: Option<Error>)
      reads this
    {
      match want
      case Ok(d) => err == None && Db() == d
      case Err(e) => err == Some(e)
    }

    method AuthorizeTx(op: Op) returns (err: Option<Error>)
      requires RowsInv(Db()) && op.phase.Approved? && op.kind == AuthorizeOp
      modifies this`rows, this`outbox
      ensures forall group: Id :: Reports(WriteBack(old(Now()), op, group), err)
    {
      if op.txn !in rows {
        return Some(NotFound);
      }
      var locked := new Transaction(rows[op.txn]);
      if locked.status != Created {
        return Some(ConcurrentModification);
      }
      err := locked.Authorize(op.phase.ref, op.phase.last4, op.phase.brand, clock);
      if err.None? {
        OneMoveForward(rows[op.txn], MoveOf(op), clock);
        err := Update(locked);
        if err.None? {
          QueueWebhook(locked, PaymentAuthorized);
        }
      }
      assert journal + [] == journal;
    }

    /** finalizeFailure: nothing to do when someone else has resolved the payment. */
    method FailTx(op: Op) returns (err: Option<Error>, resolved: bool)
      requires RowsInv(Db()) && op.phase.Declined? && op.txn in rows
      modifies this`rows, this`outbox
      ensures resolved <==> old(rows)[op.txn].status != Created
      ensures resolved ==> err == None && Db() == old(Db())
      ensures !resolved ==> forall group: Id :: Reports(Transact(old(Db()), clock, op.txn, MoveOf(op), group), err)
    {
      var locked := new Transaction(rows[op.txn]);
      resolved := locked.status != Created;
      if resolved {
        return None, true;
      }
      err := locked.Fail(op.phase.code, clock);
      if err.None? {
        OneMoveForward(rows[op.txn], MoveOf(op), clock);
        err := Update(locked);
        if err.None? {
          QueueWebhook(locked, PaymentFailed);
        }
      }
      assert journal + [] == journal;
    }

    method CaptureTx(op: Op, group: Id) returns (err: Option<Error>)
      requires RowsInv(Db()) && op.phase.Approved? && op.kind == CaptureOp
      modifies this`rows, this`journal, this`outbox
      ensures Reports(WriteBack(old(Now()), op, group), err)
    {
      if op.txn !in rows {
        return Some(NotFound);
      }
      var locked := new Transaction(rows[op.txn]);
      if locked.merchant != op.merchant {
        return Some(NotFound);
      }
      err := locked.Capture(op.amount, clock);
      if err.None? {
        OneMoveForward(rows[op.txn], MoveOf(op), clock);
        err := Update(locked);
        if err.None? {
          var fee := Fee(op.amount, bps);
          var booking := CaptureGroup(locked.Value(), op.amount, fee, group, clock);
          if booking.Err? {
            return Some(booking.error);
          }
          err := InsertGroup(booking.value);
          if err.None? {
            QueueWebhook(locked, PaymentCaptured);
          }
        }
      }
    }

    method RefundTx(op: Op, group: Id) returns (err: Option<Error>)
      requires RowsInv(Db()) && op.phase.Approved? && op.kind == RefundOp
      modifies this`rows, this`journal, this`outbox
      ensures Reports(WriteBack(old(Now()), op, group), err)
    {
      if op.txn !in rows {
        return Some(NotFound);
      }
      var locked := new Transaction(rows[op.txn]);
      if locked.merchant != op.merchant {
        return Some(NotFound);
      }
      err := locked.Refund(op.amount, clock);
      if err.None? {
        OneMoveForward(rows[op.txn], MoveOf(op), clock);
        err := Update(locked);
        if err.None? {
          TwoLegGroupsOk(locked.Value(), op.amount, group, clock);
          var booking := RefundGroup(locked.Value(), op.amount, group, clock);
          err := InsertGroup(booking.value);
          if err.None? {
            QueueWebhook(locked, PaymentRefunded);
          }
        }
      }
    }

    method VoidTx(op: Op) returns (err: Option<Error>)
      requires RowsInv(Db()) && op.phase.Approved? && op.kind == VoidOp
      modifies this`rows, this`outbox
      ensures forall group: Id :: Reports(WriteBack(old(Now()), op, group), err)
    {
      if op.txn !in rows {
        return Some(NotFound);
      }
      var locked := new Transaction(rows[op.txn]);
      if locked.merchant != op.merchant {
        return Some(NotFound);
      }
      err := locked.Void(clock);
      if err.None? {
        OneMoveForward(rows[op.txn], MoveOf(op), clock);
        err := Update(locked);
        if err.None? {
          QueueWebhook(locked, PaymentVoided);
        }
      }
      assert journal + [] == journal;
    }

    /** One turn of the settlement loop, on the row as it is now. */
    method SettleTx(id: Id, group: Id) returns (err: Option<Error>, moved: bool)
      requires RowsInv(Db()) && id in rows
      modifies this`rows, this`journal, this`outbox
      ensures moved <==> old(rows)[id].status == Captured
      ensures !moved ==> err == None && Db() == old(Db())
      ensures moved ==> Reports(Transact(old(Db()), clock, id, Settle, group), err)
    {
      var locked := new Transaction(rows[id]);
      moved := locked.status == Captured;
      if !moved {
        return None, false;
      }
      err := locked.Settle(clock);
      if err.None? {
        OneMoveForward(rows[id], Settle, clock);
        err := Update(locked);
        if err.None? {
          var net := NetPayable(locked.Value(), bps);
          assert journal + [] == journal;
          if net > 0 {
            TwoLegGroupsOk(locked.Value(), net, group, clock);
            var booking := SettlementGroup(locked.Value(), net, group, clock);
            err := InsertGroup(booking.value);
          }
          if err.None? {
            QueueWebhook(locked, PaymentSettled);
          }
        }
      }
    }

    // ---- the atomic sections of the services ----

    /** WithTx: the body ran on the tables; an error puts them back as they were. */
    method Rollback(saved: Database)
      requires saved.bps == bps
      modifies this`rows, this`journal, this`outbox
      ensures Db() == saved
    {
      rows, journal, outbox := saved.rows, saved.journal, saved.outbox;
    }

    method Close(i: nat, p: Phase)
      requires i < |ops|
      modifies this`ops
      ensures Now() == SetPhase(old(Now()), i, p)
    {
      ops := ops[i := ops[i].(phase := p)];
    }

    /** What the last section of an operation reports: the reason nothing was committed, if so. */
    static function FinishError(s: State, op: Op, group: Id): Option<Error>
      requires Pending(op.phase)
    {
      if op.phase.Approved? then ErrorOf(WriteBack(s, op, group))
      else if op.txn in s.db.rows && s.db.rows[op.txn].status != Created then None
      else ErrorOf(Transact(s.db, s.clock, op.txn, MoveOf(op), group))
    }

    method WriteBackTx(op: Op, group: Id) returns (err: Option<Error>)
      requires RowsInv(Db()) && op.phase.Approved?
      modifies this`rows, this`journal, this`outbox
      ensures Reports(WriteBack(old(Now()), op, group), err)
    {
      match op.kind {
        case AuthorizeOp => err := AuthorizeTx(op);
        case CaptureOp => err := CaptureTx(op, group);
        case RefundOp => err := RefundTx(op, group);
        case VoidOp => err := VoidTx(op);
      }
    }

    method FinishApproved(i: nat, group: Id) returns (err: Option<Error>)
      requires RowsInv(Db()) && i < |ops| && ops[i].phase.Approved?
      modifies this`rows, this`journal, this`outbox, this`ops
      ensures Now() == Finished(old(Now()), i, group)
      ensures err == FinishError(old(Now()), old(ops[i]), group)
    {
      var op, saved := ops[i], Db();
      err := WriteBackTx(op, group);
      if err.None? {
        Close(i, Booked(op.phase.ref));
      } else {
        Rollback(saved);
        Close(i, Orphaned(err.value));
      }
    }

    method FinishDeclined(i: nat, group: Id) returns (err: Option<Error>)
      requires RowsInv(Db()) && i < |ops| && ops[i].phase.Declined? && ops[i].txn in rows
      modifies this`rows, this`journal, this`outbox, this`ops
      ensures Now() == Finished(old(Now()), i, group)
      ensures err == FinishError(old(Now()), old(ops[i]), group)
    {
      var op, saved, resolved := ops[i], Db(), false;
      err, resolved := FailTx(op);
      if resolved {
        Close(i, Superseded);
      } else if err.None? {
        Close(i, Recorded(op.phase.code));
      } else {
        Rollback(saved);
        Close(i, Refused);
      }
    }

    method FinishPending(i: nat, group: Id) returns (err: Option<Error>)
      requires RowsInv(Db()) && i < |ops| && Pending(ops[i].phase) && ops[i].txn in rows && FreshGroup(journal, group)
      modifies this`rows, this`journal, this`outbox, this`ops
      ensures Now() == Apply(old(Now()), Step.Finish(i, group))
      ensures err == FinishError(old(Now()), old(ops[i]), group)
    {
      if ops[i].phase.Approved? {
        err := FinishApproved(i, group);
      } else {
        err := FinishDeclined(i, group);
      }
    }

    /** The last section of Authorize, Capture, Refund and Void, and the recording of a decline. */
    method Finish(i: nat, group: Id) returns (err: Option<Error>)
      requires Valid() && i < |ops| && Pending(ops[i].phase) && FreshGroup(journal, group)
      modifies this
      ensures Valid() && run == old(run) + [Step.Finish(i, group)]
      ensures Now() == Apply(old(Now()), Step.Finish(i, group))
      ensures err == FinishError(old(Now()), old(ops[i]), group)
    {
      ValidAdmits();
      assert ops[i] in ops;
      err := FinishPending(i, group);
      Took(old(Now()), Step.Finish(i, group));
    }

    /** The database failed during the last section: the acquirer acted and nothing was written. */
    method FinishFault(i: nat)
      requires Valid() && i < |ops| && Pending(ops[i].phase)
      modifies this
      ensures Valid() && run == old(run) + [FinishFails(i)]
      ensures Now() == Apply(old(Now()), FinishFails(i)) && Db() == old(Db())
    {
      Close(i, if ops[i].phase.Approved? then Orphaned(DatabaseFailure) else Refused);
      Took(old(Now()), FinishFails(i));
    }

    /** The acquirer's answer to operation i arrives, or its deadline passes. */
    method Answer(i: nat, a: Protocol.Answer)
      requires Valid() && i < |ops| && ops[i].phase == Called
      modifies this
      ensures Valid() && run == old(run) + [AcquirerAnswers(i, a)]
      ensures Now() == Apply(old(Now()), AcquirerAnswers(i, a)) && Db() == old(Db())
    {
      var op := ops[i];
      match a {
        case Yes(ref, last4, brand) =>
          Close(i, Approved(ref, last4, brand));
          calls := calls + [Call(op.kind, op.txn, op.amount, ref)];
        case No(code) => Close(i, if op.kind == AuthorizeOp then Declined(code) else Refused);
        case Malformed => Close(i, Refused);
        case Lost(executed) =>
          Close(i, Unknown(executed));
          if executed {
            calls := calls + [Call(op.kind, op.txn, op.amount, "")];
          }
      }
      Took(old(Now()), AcquirerAnswers(i, a));
    }

    method Wait(now: int)
      requires Valid()
      modifies this
      ensures Valid() && run == old(run) + [SetClock(now)] && Now() == old(Now()).(clock := now)
    {
      clock := now;
      Took(old(Now()), SetClock(now));
    }

    method BeginAuthorize(id: Id, merchant: Id, reference: string, amount: int, currency: Currency)
      returns (err: Option<Error>)
      requires Valid()
      modifies this
      ensures Valid() && run == old(run) + [Step.BeginAuthorize(id, merchant, reference, amount, currency)]
      ensures Now() == Apply(old(Now()), Step.BeginAuthorize(id, merchant, reference, amount, currency))
      ensures err == ErrorOf(Authorizations(old(Now()), id, merchant, reference, amount, currency))
    {
      ValidAdmits();
      err := OpenOrResume(id, merchant, reference, amount, currency);
      Took(old(Now()), Step.BeginAuthorize(id, merchant, reference, amount, currency));
    }

    method BeginCapture(merchant: Id, txn: Id, amount: int) returns (err: Option<Error>)
      requires Valid()
      modifies this
      ensures Valid() && run == old(run) + [Step.BeginCapture(merchant, txn, amount)]
      ensures Now() == Apply(old(Now()), Step.BeginCapture(merchant, txn, amount)) && Db() == old(Db())
      ensures err == ErrorOf(PreCapture(old(Now()), merchant, txn, amount))
    {
      err := CheckCapture(merchant, txn, amount);
      Took(old(Now()), Step.BeginCapture(merchant, txn, amount));
    }

    method BeginRefund(merchant: Id, txn: Id, amount: int) returns (err: Option<Error>)
      requires Valid()
      modifies this
      ensures Valid() && run == old(run) + [Step.BeginRefund(merchant, txn, amount)]
      ensures Now() == Apply(old(Now()), Step.BeginRefund(merchant, txn, amount)) && Db() == old(Db())
      ensures err == ErrorOf(PreRefund(old(Now()), merchant, txn, amount))
    {
      err := CheckRefund(merchant, txn, amount);
      Took(old(Now()), Step.BeginRefund(merchant, txn, amount));
    }

    method BeginVoid(merchant: Id, txn: Id) returns (err: Option<Error>)
      requires Valid()
      modifies this
      ensures Valid() && run == old(run) + [Step.BeginVoid(merchant, txn)]
      ensures Now() == Apply(old(Now()), Step.BeginVoid(merchant, txn)) && Db() == old(Db())
      ensures err == ErrorOf(PreVoid(old(Now()), merchant, txn))
    {
      err := CheckVoid(merchant, txn);
      Took(old(Now()), Step.BeginVoid(merchant, txn));
    }

    /** The first section of Authorize: validate, insert the row or find the payment to resume. */
    method OpenOrResume(id: Id, merchant: Id, reference: string, amount: int, currency: Currency)
      returns (err: Option<Error>)
      requires RowsInv(Db()) && RefsInv(Db())
      modifies this`rows, this`ops
      ensures Now() == Apply(old(Now()), Step.BeginAuthorize(id, merchant, reference, amount, currency))
      ensures err == ErrorOf(Authorizations(old(Now()), id, merchant, reference, amount, currency))
    {
      var built := NewTransaction(id, merchant, reference, amount, currency, clock);
      if built.Err? {
        return Some(built.error);
      }
      var txn := built.value;
      err := Create(txn);
      if err.Some? {
        if err.value != DuplicateReference {
          return;
        }
        var x :| x in rows && HasReference(rows, x, merchant, reference);
        ReferenceIsUnique(Db(), x, merchant, reference);
        var existing := rows[x];
        if existing.status != Created || existing.amount != amount || existing.currency != currency {
          return;
        }
        txn := existing;
      }
      ops := ops + [Op(AuthorizeOp, merchant, txn.id, amount, txn, clock, Called)];
      err := None;
    }

    /** The first section of Capture: an unlocked read and the domain rules on a copy of the row. */
    method CheckCapture(merchant: Id, txn: Id, amount: int) returns (err: Option<Error>)
      modifies this`ops
      ensures Now() == Apply(old(Now()), Step.BeginCapture(merchant, txn, amount))
      ensures err == ErrorOf(PreCapture(old(Now()), merchant, txn, amount))
    {
      if txn !in rows || rows[txn].merchant != merchant {
        return Some(NotFound);
      }
      var r := rows[txn];
      var wanted := amount;
      if wanted == 0 {
        wanted := r.amount - r.captured;
      }
      var preview := new Transaction(r);
      err := preview.Capture(wanted, clock);
      if err.None? {
        ops := ops + [Op(CaptureOp, merchant, txn, wanted, r, clock, Called)];
      }
    }

    method CheckRefund(merchant: Id, txn: Id, amount: int) returns (err: Option<Error>)
      modifies this`ops
      ensures Now() == Apply(old(Now()), Step.BeginRefund(merchant, txn, amount))
      ensures err == ErrorOf(PreRefund(old(Now()), merchant, txn, amount))
    {
      if txn !in rows || rows[txn].merchant != merchant {
        return Some(NotFound);
      }
      var r := rows[txn];
      var wanted := amount;
      if wanted == 0 {
        wanted := r.captured - r.refunded;
      }
      var preview := new Transaction(r);
      err := preview.Refund(wanted, clock);
      if err.None? {
        ops := ops + [Op(RefundOp, merchant, txn, wanted, r, clock, Called)];
      }
    }

    method CheckVoid(merchant: Id, txn: Id) returns (err: Option<Error>)
      modifies this`ops
      ensures Now() == Apply(old(Now()), Step.BeginVoid(merchant, txn))
      ensures err == ErrorOf(PreVoid(old(Now()), merchant, txn))
    {
      if txn !in rows || rows[txn].merchant != merchant {
        return Some(NotFound);
      }
      var r := rows[txn];
      var preview := new Transaction(r);
      err := preview.Void(clock);
      if err.None? {
        ops := ops + [Op(VoidOp, merchant, txn, 0, r, clock, Called)];
      }
    }

    // ---- reconciliation ----

    /** The report of one day, which opens a settlement job if it is clean and changes nothing otherwise. */
    method Scan(from: int, to: int, txns: seq<Row>, aggs: seq<Totals>) returns (report: Report)
      requires Valid() && Lists(rows, from, to, txns) && Aggregates(rows, journal, from, to, aggs)
      modifies this
      ensures Valid() && run == old(run) + [Step.Scan(from, to, txns)]
      ensures Now() == Apply(old(Now()), Step.Scan(from, to, txns)) && Db() == old(Db())
      ensures report.OK() <==> Agrees(rows, journal, bps, from, to, txns)
      ensures jobs == old(jobs) + if report.OK() then [Job(txns, txns, [], 0)] else []
    {
      report := Run(rows, journal, bps, from, to, txns, aggs);
      if report.OK() {
        jobs := jobs + [Job(txns, txns, [], 0)];
      }
      Took(old(Now()), Step.Scan(from, to, txns));
    }

    /** The body of one turn of the settlement loop of job k. */
    method SettleFirst(k: nat, group: Id)
      requires RowsInv(Db()) && k < |jobs| && jobs[k].todo != [] && jobs[k].todo[0].id in rows
      requires FreshGroup(journal, group)
      modifies this`rows, this`journal, this`outbox, this`jobs
      ensures Now() == Apply(old(Now()), Step.SettleNext(k, group))
    {
      var job := jobs[k];
      var t := job.todo[0];
      if t.status != Captured {
        jobs := jobs[k := Visited(job, false, false)];
        return;
      }
      var saved := Db();
      var err, moved := SettleTx(t.id, group);
      if err.Some? {
        Rollback(saved);
        jobs := jobs[k := job.(todo := [])];
        return;
      }
      jobs := jobs[k := Visited(job, true, moved)];
    }

    method SettleNext(k: nat, group: Id)
      requires Valid() && k < |jobs| && jobs[k].todo != [] && FreshGroup(journal, group)
      modifies this
      ensures Valid() && run == old(run) + [Step.SettleNext(k, group)]
      ensures Now() == Apply(old(Now()), Step.SettleNext(k, group))
    {
      ValidAdmits();
      assert jobs[k] in jobs && jobs[k].todo[0] in jobs[k].todo;
      SettleFirst(k, group);
      Took(old(Now()), Step.SettleNext(k, group));
    }

    method SettleFault(k: nat)
      requires Valid() && k < |jobs|
      modifies this
      ensures Valid() && run == old(run) + [SettleFails(k)]
      ensures Now() == Apply(old(Now()), SettleFails(k)) && Db() == old(Db())
    {
      jobs := jobs[k := jobs[k].(todo := [])];
      Took(old(Now()), SettleFails(k));
    }

    /** An id no journal line uses yet. */
    method NewGroup() returns (group: Id)
      ensures FreshGroup(journal, group)
    {
      group := 0;
      for i := 0 to |journal|
        invariant forall e | e in journal[..i] :: e.group < group
      {
        assert journal[..i + 1] == journal[..i] + [journal[i]];
        if journal[i].group >= group {
          group := journal[i].group + 1;
        }
      }
      assert journal[..|journal|] == journal;
    }

    /** A whole reconciliation of one day with nothing else running: one scan and, if it is clean, one settlement step
        for each row listed. A report that is not clean changes no table. A clean one settles exactly the captured rows
        of the day, counts them, and touches no other row. */
    method Reconcile(from: int, to: int)
      returns (report: Report, settled: nat, ghost txns: seq<Row>, ghost groups: seq<Id>)
      requires Valid()
      modifies this
      ensures Valid() && run == old(run) + [Step.Scan(from, to, txns)] + Settles(|old(jobs)|, groups)
      ensures DayOutcome(old(Db()), Db(), from, to, txns)
      ensures report.OK() <==> Agrees(old(rows), old(journal), bps, from, to, txns)
      ensures settled == (if report.OK() then Sum(txns, IsCaptured) else 0)
      ensures |groups| == if report.OK() then |txns| else 0
      ensures OnlyWithin(old(rows), rows, from, to) && (report.OK() ==> AllWithin(old(rows), rows, from, to))
    {
      ValidAdmits();
      var listed, aggs := Query(from, to);
      txns := listed;
      report, settled, groups := ReconcileListed(from, to, listed, aggs);
      OutcomeWithin(old(Db()), Db(), from, to, txns);
    }

    method Query(from: int, to: int) returns (txns: seq<Row>, aggs: seq<Totals>)
      requires Valid()
      ensures Lists(rows, from, to, txns) && Aggregates(rows, journal, from, to, aggs)
    {
      ValidAdmits();
      txns := ListCapturedBetween(rows, from, to);
      aggs := AggregateByMerchant(rows, journal, from, to);
    }

    method ReconcileListed(from: int, to: int, txns: seq<Row>, aggs: seq<Totals>)
      returns (report: Report, settled: nat, ghost groups: seq<Id>)
      requires Valid() && Lists(rows, from, to, txns) && Aggregates(rows, journal, from, to, aggs)
      modifies this
      ensures Valid() && run == old(run) + [Step.Scan(from, to, txns)] + Settles(|old(jobs)|, groups)
      ensures DayOutcome(old(Db()), Db(), from, to, txns)
      ensures report.OK() <==> Agrees(old(rows), old(journal), bps, from, to, txns)
      ensures settled == (if report.OK() then Sum(txns, IsCaptured) else 0)
      ensures |groups| == if report.OK() then |txns| else 0
    {
      report := Scan(from, to, txns, aggs);
      settled, groups := 0, [];
      if report.OK() {
        settled, groups := SettleDay(|jobs| - 1, from, to, txns);
      } else {
        SettlesNone(run, |old(jobs)|);
      }
    }

    method SettleDay(k: nat, from: int, to: int, txns: seq<Row>) returns (settled: nat, ghost groups: seq<Id>)
      requires Valid() && k < |jobs| && jobs[k].todo == txns
      requires Lists(rows, from, to, txns) && Agrees(rows, journal, bps, from, to, txns)
      modifies this
      ensures Valid() && |groups| == |txns| && run == old(run) + Settles(k, groups)
      ensures settled == Sum(txns, IsCaptured) && DayOutcome(old(Db()), Db(), from, to, txns)
    {
      settled, groups := SettleAll(k, txns);
      OutcomeIs(old(Db()), Db(), from, to, txns, settled);
    }

    /** Reconciling the day twice in a row: whichever way the rows come back from each query, the second run changes no
        table, and it fails if the first one failed. */
    method ReconcileTwice(from: int, to: int) returns (first: Report, second: Report, ghost between: Database)
      requires Valid()
      modifies this
      ensures Valid() && Db() == between
      ensures exists txns :: DayOutcome(old(Db()), between, from, to, txns)
      ensures !first.OK() ==> !second.OK() && between == old(Db())
    {
      var settled: nat;
      ghost var a, b, groups;
      first, settled, a, groups := Reconcile(from, to);
      between := Db();
      second, settled, b, groups := Reconcile(from, to);
      SecondRunIsIdle(old(Db()), between, Db(), from, to, a, b);
    }

    /** One turn of the loop over the listed rows: a captured row is settled, any other is skipped. */
    method SettleListed(ghost was: map<Id, Row>, k: nat, txns: seq<Row>, i: nat) returns (ghost group: Id)
      requires Valid() && k < |jobs| && i < |txns| && jobs[k].todo == txns[i..]
      requires DistinctIds(txns) && AllSettled(was, rows, txns[..i])
      requires txns[i].id in was && was[txns[i].id] == txns[i]
      modifies this
      ensures Valid() && run == old(run) + [Step.SettleNext(k, group)]
      ensures |jobs| == |old(jobs)| && jobs[k].todo == txns[i + 1..]
      ensures AllSettled(was, rows, txns[..i + 1])
      ensures txns[i].status != Captured ==> Db() == old(Db())
    {
      var g := NewGroup();
      ValidAdmits();
      TurnSettles(was, Now(), k, txns, i, g);
      SettleNext(k, g);
      group := g;
    }

    method SettleAll(k: nat, txns: seq<Row>) returns (settled: nat, ghost groups: seq<Id>)
      requires Valid() && k < |jobs| && jobs[k].todo == txns && DistinctIds(txns)
      requires forall i | 0 <= i < |txns| :: txns[i].id in rows && rows[txns[i].id] == txns[i]
      modifies this
      ensures Valid() && |groups| == |txns| && run == old(run) + Settles(k, groups)
      ensures settled == Sum(txns, IsCaptured)
      ensures AllSettled(old(rows), rows, txns)
      ensures settled == 0 ==> Db() == old(Db())
    {
      settled, groups := 0, [];
      for i := 0 to |txns|
        invariant Valid() && |groups| == i && run == old(run) + Settles(k, groups)
        invariant k < |jobs| && jobs[k].todo == txns[i..]
        invariant settled == Sum(txns[..i], IsCaptured)
        invariant settled == 0 ==> Db() == old(Db())
        invariant AllSettled(old(rows), rows, txns[..i])
      {
        CountNext(txns, i);
        ghost var group := SettleListed(old(rows), k, txns, i);
        SettlesSnoc(old(run), k, groups, group);
        groups := groups + [group];
        if txns[i].status == Captured {
          settled := settled + 1;
        }
      }
      assert txns[..|txns|] == txns;
    }
  }

  /** One settlement step of job k for each group id. */
  function Settles(k: nat, groups: seq<Id>): seq<Step> {
    seq(|groups|, i requires 0 <= i < |groups| => SettleNext(k, groups[i]))
  }

  lemma SettlesNone(run: seq<Step>, k: nat)
    ensures run + Settles(k, []) == run
  {
  }

  lemma OutcomeIs(d: Database, u: Database, from: int, to: int, txns: seq<Row>, settled: int)
    requires Lists(d.rows, from, to, txns) && u.bps == d.bps && Agrees(d.rows, d.journal, d.bps, from, to, txns)
    requires AllSettled(d.rows, u.rows, txns) && settled == Sum(txns, IsCaptured) && (settled == 0 ==> u == d)
    ensures DayOutcome(d, u, from, to, txns)
  {
  }

  lemma SettlesSnoc(run: seq<Step>, k: nat, groups: seq<Id>, group: Id)
    ensures run + Settles(k, groups + [group]) == run + Settles(k, groups) + [SettleNext(k, group)]
  {
  }

  lemma CountNext(txns: seq<Row>, i: nat)
    requires i < |txns|
    ensures Sum(txns[..i + 1], IsCaptured) == Sum(txns[..i], IsCaptured) + IsCaptured(txns[i])
    ensures Sum(txns[..i], IsCaptured) >= 0
  {
    Prefix(txns, i);
    SumSnoc(txns[..i], txns[i], IsCaptured);
    SumNonNegative(txns[..i], IsCaptured);
  }

  /** What the next settlement step of job k does when only this job has moved rows since they were listed. */
  lemma TurnSettles(was: map<Id, Row>, s: State, k: nat, txns: seq<Row>, i: nat, group: Id)
    requires RowsInv(s.db) && FreshGroup(s.db.journal, group)
    requires k < |s.jobs| && i < |txns| && s.jobs[k].todo == txns[i..]
    requires DistinctIds(txns) && AllSettled(was, s.db.rows, txns[..i])
    requires txns[i].id in was && was[txns[i].id] == txns[i]
    ensures var u := Apply(s, SettleNext(k, group));
            && |u.jobs| == |s.jobs| && u.jobs[k].todo == txns[i + 1..]
            && AllSettled(was, u.db.rows, txns[..i + 1])
            && (txns[i].status != Captured ==> u.db == s.db)
  {
    Untouched(was, s.db.rows, txns, i);
    Prefix(txns, i);
    if txns[i].status == Captured {
      TurnMoves(was, s, k, txns[i], txns[i + 1..], txns[..i], group);
    } else {
      TurnSkips(s, k, txns[i], txns[i + 1..], group);
      AllSettledSkip(was, s.db.rows, txns[..i], txns[i]);
    }
  }

  lemma TurnSkips(s: State, k: nat, t: Row, rest: seq<Row>, group: Id)
    requires k < |s.jobs| && s.jobs[k].todo == [t] + rest && t.status != Captured && FreshGroup(s.db.journal, group)
    ensures var u := Apply(s, SettleNext(k, group));
            u.db == s.db && |u.jobs| == |s.jobs| && u.jobs[k].todo == rest
  {
    assert s.jobs[k].todo[1..] == rest;
  }

  lemma TurnMoves(was: map<Id, Row>, s: State, k: nat, t: Row, rest: seq<Row>, done: seq<Row>, group: Id)
    requires RowsInv(s.db) && FreshGroup(s.db.journal, group) && k < |s.jobs| && s.jobs[k].todo == [t] + rest
    requires t.status == Captured && t.id in s.db.rows && s.db.rows[t.id] == t
    requires AllSettled(was, s.db.rows, done) && t.id !in IdSet(done)
    ensures var u := Apply(s, SettleNext(k, group));
            |u.jobs| == |s.jobs| && u.jobs[k].todo == rest && AllSettled(was, u.db.rows, done + [t])
  {
    assert s.jobs[k].todo[1..] == rest;
    SettleCommits(s.db, s.clock, t.id, group);
    var d := Transact(s.db, s.clock, t.id, Settle, group).value;
    SettleStep(s, k, group, d);
    SettledRow(s.db, s.clock, t.id, group, d);
    AllSettledSnoc(was, s.db.rows, d.rows, done, t);
  }

  lemma ReferenceIsUnique(d: Database, x: Id, merchant: Id, reference: string)
    requires RefsInv(d) && HasReference(d.rows, x, merchant, reference)
    ensures forall y | HasReference(d.rows, y, merchant, reference) :: y == x
  {
  }

  function IsCaptured(t: Row): int { if t.status == Captured then 1 else 0 }

  function IdSet(txns: seq<Row>): set<Id> { set t | t in txns :: t.id }

  function CapturedIds(txns: seq<Row>): set<Id> { set t | t in txns && t.status == Captured :: t.id }

  predicate SettledFrom(rows: map<Id, Row>, t: Row) {
    && t.id in rows && rows[t.id].status == Settled
    && rows[t.id].captured == t.captured && rows[t.id].refunded == t.refunded
  }

  /** The captured rows among txns are settled with their money untouched; every other row is as it was. */
  ghost predicate AllSettled(was: map<Id, Row>, rows: map<Id, Row>, txns: seq<Row>) {
    && rows.Keys == was.Keys
    && (forall t | t in txns && t.status == Captured :: SettledFrom(rows, t))
    && (forall id | id in was && id !in CapturedIds(txns) :: rows[id] == was[id])
  }

  /** What a reconciliation that listed txns makes of the tables: nothing if the sides disagree or no row is captured,
      and otherwise the captured rows settled. */
  ghost predicate DayOutcome(d: Database, u: Database, from: int, to: int, txns: seq<Row>) {
    && Lists(d.rows, from, to, txns) && u.bps == d.bps
    && (if Agrees(d.rows, d.journal, d.bps, from, to, txns) then AllSettled(d.rows, u.rows, txns) else u == d)
    && (Sum(txns, IsCaptured) == 0 ==> u == d)
  }

  /** No row captured before the start of the period, or at its end or later, or not at all, was changed. */
  ghost predicate OnlyWithin(was: map<Id, Row>, rows: map<Id, Row>, from: int, to: int) {
    forall id | id in was ::
      && id in rows
      && (was[id].capturedAt.None? || was[id].capturedAt.value < from || was[id].capturedAt.value >= to ==>
            rows[id] == was[id])
  }

  /** Every captured row of the period is settled. */
  ghost predicate AllWithin(was: map<Id, Row>, rows: map<Id, Row>, from: int, to: int) {
    forall id | id in was && was[id].status == Captured && was[id].capturedAt.Some?
                && from <= was[id].capturedAt.value < to :: id in rows && rows[id].status == Settled
  }

  lemma OutcomeWithin(d: Database, u: Database, from: int, to: int, txns: seq<Row>)
    requires RowsInv(d) && DayOutcome(d, u, from, to, txns)
    ensures OnlyWithin(d.rows, u.rows, from, to)
    ensures Agrees(d.rows, d.journal, d.bps, from, to, txns) ==> AllWithin(d.rows, u.rows, from, to)
  {
    forall id | id in d.rows
      ensures d.rows[id] in txns <==> d.rows[id].capturedAt.Some? && from <= d.rows[id].capturedAt.value < to
    {
      ListedIffWithin(d, from, to, txns, id);
    }
    if Agrees(d.rows, d.journal, d.bps, from, to, txns) {
      forall id | id in d.rows
        ensures id in u.rows && (d.rows[id] !in txns ==> u.rows[id] == d.rows[id])
        ensures d.rows[id] in txns && d.rows[id].status == Captured ==> u.rows[id].status == Settled
      {
        if d.rows[id] in txns && d.rows[id].status == Captured {
          assert SettledFrom(u.rows, d.rows[id]);
        }
        if d.rows[id] !in txns {
          assert id !in CapturedIds(txns);
        }
      }
    }
  }

  lemma NoneLeft(was: map<Id, Row>, rows: map<Id, Row>, from: int, to: int, txns: seq<Row>, again: seq<Row>)
    requires Lists(was, from, to, txns) && AllSettled(was, rows, txns) && Lists(rows, from, to, again)
    ensures Sum(again, IsCaptured) == 0
  {
    forall t | t in again
      ensures IsCaptured(t) == 0
    {
      if t.id !in CapturedIds(txns) {
        assert rows[t.id] == was[t.id];
      }
    }
    SumZero(again, IsCaptured);
  }

  /** A second reconciliation straight after the first changes nothing, clean or not, whatever the two listings. */
  lemma SecondRunIsIdle(d: Database, u: Database, v: Database, from: int, to: int, a: seq<Row>, b: seq<Row>)
    requires DayOutcome(d, u, from, to, a) && DayOutcome(u, v, from, to, b)
    ensures v == u
    ensures !Agrees(d.rows, d.journal, d.bps, from, to, a) ==>
              u == d && !Agrees(u.rows, u.journal, u.bps, from, to, b)
  {
    if Agrees(d.rows, d.journal, d.bps, from, to, a) {
      NoneLeft(d.rows, u.rows, from, to, a, b);
    } else {
      VerdictIgnoresOrder(d.rows, d.journal, d.bps, from, to, a, b);
    }
  }

  /** A row not yet reached by the loop is as it was listed. */
  lemma Untouched(was: map<Id, Row>, rows: map<Id, Row>, txns: seq<Row>, i: nat)
    requires i < |txns| && DistinctIds(txns) && AllSettled(was, rows, txns[..i])
    requires txns[i].id in was && was[txns[i].id] == txns[i]
    ensures txns[i].id !in IdSet(txns[..i]) && txns[i].id in rows && rows[txns[i].id] == txns[i]
  {
    assert forall t | t in txns[..i] :: t.id != txns[i].id;
  }

  lemma AllSettledSkip(was: map<Id, Row>, rows: map<Id, Row>, done: seq<Row>, t: Row)
    requires AllSettled(was, rows, done) && t.status != Captured
    ensures AllSettled(was, rows, done + [t])
  {
    assert CapturedIds(done + [t]) == CapturedIds(done);
  }

  lemma AllSettledSnoc(was: map<Id, Row>, mid: map<Id, Row>, rows: map<Id, Row>, done: seq<Row>, t: Row)
    requires AllSettled(was, mid, done) && t.id in mid && t.id !in IdSet(done) && t.status == Captured
    requires rows.Keys == mid.Keys && (forall x | x in mid && x != t.id :: rows[x] == mid[x]) && SettledFrom(rows, t)
    ensures AllSettled(was, rows, done + [t])
  {
    CapturedIdsSnoc(done, t);
    forall x | x in done && x.status == Captured
      ensures SettledFrom(rows, x)
    {
      assert x.id in IdSet(done) && SettledFrom(mid, x);
    }
    forall id | id in was && id !in CapturedIds(done + [t])
      ensures rows[id] == was[id]
    {
      assert id !in CapturedIds(done) && id != t.id;
    }
  }

  lemma CapturedIdsSnoc(done: seq<Row>, t: Row)
    requires t.status == Captured
    ensures CapturedIds(done + [t]) == CapturedIds(done) + {t.id}
  {
    assert forall x | x in done :: x in done + [t];
    assert t in done + [t];
  }

  lemma Prefix(txns: seq<Row>, i: nat)
    requires i < |txns|
    ensures txns[..i + 1] == txns[..i] + [txns[i]]
  {
  }
}
