/** The promises of the payment core, stated for the state after an arbitrary run. */
module Theorems {
  import opened Sums
  import opened Money
  import opened Domain
  import opened Ledger
  import opened Reconciliation
  import opened Protocol
  import opened Books
  import opened Agreement
  import opened Runs
  import opened Operations
  import opened Laws

  /** Every row satisfies the table's constraints, agrees with its own status and timestamps, and its captured and
      refunded amounts are the sums of its capture debits and refund credits in the journal. */
  lemma RowsMatchJournal(bps: int, run: seq<Step>, id: Id)
    requires id in Exec(bps, run).db.rows
    ensures var d := Exec(bps, run).db; var r := d.rows[id];
            && TableChecks(r) && RowOk(r)
            && r.captured == Sum(d.journal, CaptureDebit(id))
            && r.refunded == Sum(d.journal, RefundCredit(id))
  {
    RunsKeepInv(bps, run);
    var d := Exec(bps, run).db;
    ViewIsSums(d.journal, id, d.bps);
    assert Tallies(d.rows[id], ViewOf(d.journal, id, d.bps), d.bps);
  }

  /** At most one payout is ever booked for a transaction, over any number of concurrent reconciliation jobs. */
  lemma AtMostOnePayout(bps: int, run: seq<Step>, id: Id)
    ensures 0 <= Sum(Exec(bps, run).db.journal, PayoutCount(id)) <= 1
  {
    RunsKeepInv(bps, run);
    var d := Exec(bps, run).db;
    ViewIsSums(d.journal, id, d.bps);
    if id in d.rows {
      assert Tallies(d.rows[id], ViewOf(d.journal, id, d.bps), d.bps);
    } else {
      ViewOfOthers(d.journal, id, d.bps);
    }
  }

  /** No group is unbalanced, every currency nets to zero, and both ways of computing a balance agree. */
  lemma JournalStaysBalanced(bps: int, run: seq<Step>, merchant: Id, currency: Currency)
    ensures JournalBalanced(Exec(bps, run).db.journal)
    ensures var j := Exec(bps, run).db.journal;
            && Sum(j, SqlDebit(merchant, currency)) == Sum(j, DebitOn(MerchantPayable(merchant), currency))
            && Sum(j, SqlCredit(merchant, currency)) == Sum(j, CreditOn(MerchantPayable(merchant), currency))
  {
    RunsKeepInv(bps, run);
    BooksBalance(Exec(bps, run).db);
    BalancesAgree(Exec(bps, run).db, merchant, currency);
  }

  // ---- histories ----

  /** The outbox holds one event for every committed update of a row, each the result of one lifecycle rule on the
      state before it, and there are never more than 2 * amount + 4 of them. */
  lemma HistoryIsChain(bps: int, run: seq<Step>, id: Id)
    requires id in Exec(bps, run).db.rows
    ensures var d := Exec(bps, run).db; var r := d.rows[id]; var h := History(d.outbox, id);
            && |h| == r.version <= 2 * r.amount + 4
            && (h != [] ==> h[|h| - 1] == r)
            && Chain(h, Origin(r), OneMove)
  {
    RunsKeepInv(bps, run);
    MeasureNonNegative(Exec(bps, run).db.rows[id]);
  }

  lemma MeasureNonNegative(r: Row)
    requires RowOk(r)
    ensures 0 <= Measure(r)
  {
  }

  lemma AdvanceTransitive(a: Database, b: Database, c: Database)
    requires Advance(a, b) && Advance(b, c)
    ensures Advance(a, c)
  {
    forall id | id in a.rows
      ensures id in c.rows && Forward(a.rows[id], c.rows[id])
      ensures c.rows[id] == a.rows[id] ==> ViewOf(c.journal, id, a.bps) == ViewOf(a.journal, id, a.bps)
    {
      assert Forward(a.rows[id], b.rows[id]) && Forward(b.rows[id], c.rows[id]);
    }
  }

  lemma StepAdvances(bps: int, run: seq<Step>, step: Step)
    ensures Advance(Exec(bps, run).db, Exec(bps, run + [step]).db)
  {
    RunsKeepInv(bps, run);
    StepKeeps(Exec(bps, run), step);
    ExecSnoc(bps, run, step, Exec(bps, run));
  }

  /** Rows only move forward over any continuation of a run, and an unmoved row keeps its journal. */
  lemma {:induction false} RunsAdvance(bps: int, run: seq<Step>, more: seq<Step>)
    ensures Advance(Exec(bps, run).db, Exec(bps, run + more).db)
  {
    if more == [] {
      assert run + more == run;
      AdvanceSelf(Exec(bps, run).db);
    } else {
      var init, last := more[..|more| - 1], more[|more| - 1];
      RunsAdvance(bps, run, init);
      StepAdvances(bps, run + init, last);
      SplitsLast(run, more);
      AdvanceTransitive(Exec(bps, run).db, Exec(bps, run + init).db, Exec(bps, run + more).db);
    }
  }

  /** A version-guarded update built from a row read at any earlier point of the run, with or without the lock, passes
      its guard exactly when the row is still the one that was read: no update is ever lost. */
  lemma NoLostUpdate(bps: int, run: seq<Step>, more: seq<Step>, id: Id, t: Row, now: int)
    requires id in Exec(bps, run).db.rows
    requires t.id == id && t.version == Exec(bps, run).db.rows[id].version
    ensures var rows := Exec(bps, run + more).db.rows;
            && id in rows
            && (Updated(rows, t, now) == Err(ConcurrentModification) <==> rows[id] != Exec(bps, run).db.rows[id])
  {
    RunsAdvance(bps, run, more);
  }

  // ---- the acquirer ----

  function PendingAmount(kind: Kind, id: Id): Op -> int {
    (op: Op) => if op.kind == kind && op.txn == id && op.phase.Approved? then op.amount else 0
  }

  function OrphanedAmount(kind: Kind, id: Id): Op -> int {
    (op: Op) => if op.kind == kind && op.txn == id && op.phase.Orphaned? then op.amount else 0
  }

  function UnknownAmount(kind: Kind, id: Id): Op -> int {
    (op: Op) => if op.kind == kind && op.txn == id && op.phase.Unknown? && op.phase.executed then op.amount else 0
  }

  lemma {:induction false} ExecutedSplits(ops: seq<Op>, kind: Kind, id: Id)
    ensures Sum(ops, ExecutedAmount(kind, id)) ==
            Sum(ops, BookedAmount(kind, id)) + Sum(ops, PendingAmount(kind, id))
            + Sum(ops, OrphanedAmount(kind, id)) + Sum(ops, UnknownAmount(kind, id))
  {
    if ops != [] {
      ExecutedSplits(ops[..|ops| - 1], kind, id);
    }
  }

  /** Everything the acquirer captured or refunded is booked, in flight, orphaned or of unknown outcome; so the
      books never claim more than the acquirer did. */
  lemma AcquirerConservation(bps: int, run: seq<Step>, id: Id)
    requires id in Exec(bps, run).db.rows
    ensures var s := Exec(bps, run); var r := s.db.rows[id];
            && Sum(s.calls, CallAmount(CaptureOp, id)) ==
               r.captured + Sum(s.ops, PendingAmount(CaptureOp, id)) + Sum(s.ops, OrphanedAmount(CaptureOp, id))
               + Sum(s.ops, UnknownAmount(CaptureOp, id))
            && Sum(s.calls, CallAmount(RefundOp, id)) ==
               r.refunded + Sum(s.ops, PendingAmount(RefundOp, id)) + Sum(s.ops, OrphanedAmount(RefundOp, id))
               + Sum(s.ops, UnknownAmount(RefundOp, id))
            && r.captured <= Sum(s.calls, CallAmount(CaptureOp, id))
            && r.refunded <= Sum(s.calls, CallAmount(RefundOp, id))
  {
    RunsKeepInv(bps, run);
    var s := Exec(bps, run);
    assert OpSums(s.ops, id, s.db.rows[id]);
    ExecutedSplits(s.ops, CaptureOp, id);
    ExecutedSplits(s.ops, RefundOp, id);
    forall op | op in s.ops
      ensures op.kind in {CaptureOp, RefundOp} ==> 0 <= op.amount
    {
      assert OpFits(op, s.db.rows);
    }
    UnbookedNonNegative(s.ops, CaptureOp, id);
    UnbookedNonNegative(s.ops, RefundOp, id);
  }

  lemma UnbookedNonNegative(ops: seq<Op>, kind: Kind, id: Id)
    requires forall op | op in ops && op.kind == kind :: 0 <= op.amount
    ensures 0 <= Sum(ops, PendingAmount(kind, id))
    ensures 0 <= Sum(ops, OrphanedAmount(kind, id))
    ensures 0 <= Sum(ops, UnknownAmount(kind, id))
  {
    SumNonNegative(ops, PendingAmount(kind, id));
    SumNonNegative(ops, OrphanedAmount(kind, id));
    SumNonNegative(ops, UnknownAmount(kind, id));
  }

  /** The write-back of a capture commits exactly when the row as it is now can still be captured by that amount, no
      more than seven days after its authorization, and the fee leaves the merchant a positive leg. */
  lemma CaptureBooksIff(s: State, i: nat, group: Id)
    requires RowsInv(s.db) && OpsInv(s.ops, s.db.rows) && i < |s.ops|
    requires s.ops[i].kind == CaptureOp && s.ops[i].phase.Approved?
    ensures var op := s.ops[i];
            && op.txn in s.db.rows
            && var r := s.db.rows[op.txn];
               Finished(s, i, group).ops[i].phase.Booked? <==>
               (r.status == Authorized || r.status == Captured) && op.amount <= r.amount - r.captured
               && r.authorizedAt.Some? && s.clock - r.authorizedAt.value <= SEVEN_DAYS
               && 0 <= Fee(op.amount, s.db.bps) < op.amount
  {
    assert s.ops[i] in s.ops;
    CaptureCommitsIff(s.db, s.clock, s.ops[i].txn, s.ops[i].amount, group);
  }

  lemma {:induction false} RateIsFixed(bps: int, run: seq<Step>)
    ensures Exec(bps, run).db.bps == bps
  {
    RunsAdvance(bps, [], run);
    assert [] + run == run;
  }

  /** The write-back of an operation whose row is still as it was read commits, unless it is a capture that came too
      late or whose fee is out of range. */
  lemma UnchangedCommits(s: State, op: Op, group: Id)
    requires RowsInv(s.db) && OpFits(op, s.db.rows) && op.phase.Approved? && s.db.rows[op.txn] == op.seen
    requires op.kind == CaptureOp ==> !AuthExpired(op.seen, s.clock) && 0 <= Fee(op.amount, s.db.bps) < op.amount
    ensures WriteBack(s, op, group).Ok?
  {
    var r, m := op.seen, MoveOf(op);
    assert Moved(r, m, s.clock).Ok?;
    if op.kind == CaptureOp {
      CaptureCommitsIff(s.db, s.clock, op.txn, op.amount, group);
    } else {
      ChecksAreRedundant(s.db, s.clock, op.txn, m);
      TwoLegGroupsOk(Written(r, Moved(r, m, s.clock).value, s.clock), op.amount, group, s.clock);
    }
  }

  /** Without a database failure, what the acquirer did for an authorization, capture, refund or void is orphaned only
      if the row was changed between the pre-check and the write-back; or, for a capture, if the authorization window
      closed or the fee is out of range. */
  lemma OrphanNeedsChange(bps: int, run: seq<Step>, i: nat, group: Id)
    requires i < |Exec(bps, run).ops| && Exec(bps, run).ops[i].phase.Approved?
    requires Finished(Exec(bps, run), i, group).ops[i].phase.Orphaned?
    ensures var s := Exec(bps, run); var op := s.ops[i];
            && op.txn in s.db.rows
            && (|| op.seen.version < s.db.rows[op.txn].version
                || (op.kind == CaptureOp && AuthExpired(s.db.rows[op.txn], s.clock))
                || (op.kind == CaptureOp && !(bps < BPS_UNIT && FeeFits(op.amount, bps))))
  {
    RunsKeepInv(bps, run);
    RateIsFixed(bps, run);
    var s := Exec(bps, run);
    var op := s.ops[i];
    assert op in s.ops;
    if s.db.rows[op.txn] == op.seen {
      if op.kind == CaptureOp && 0 <= bps < BPS_UNIT && FeeFits(op.amount, bps) {
        FeeIsFloor(op.amount, bps);
      }
      OrphanRefused(s, i, group);
    }
  }

  lemma OrphanRefused(s: State, i: nat, group: Id)
    requires RowsInv(s.db) && OpsInv(s.ops, s.db.rows) && i < |s.ops| && s.ops[i].phase.Approved?
    requires Finished(s, i, group).ops[i].phase.Orphaned?
    requires s.ops[i].txn in s.db.rows && s.db.rows[s.ops[i].txn] == s.ops[i].seen
    ensures s.ops[i].kind == CaptureOp
    ensures AuthExpired(s.ops[i].seen, s.clock) || !(0 <= Fee(s.ops[i].amount, s.db.bps) < s.ops[i].amount)
  {
    var op := s.ops[i];
    assert op in s.ops;
    if op.kind == CaptureOp ==> !AuthExpired(op.seen, s.clock) && 0 <= Fee(op.amount, s.db.bps) < op.amount {
      UnchangedCommits(s, op, group);
    }
  }

  /** One row per reference; it leaves created at most once, with the answer of one acquirer call, however many
      attempts were approved; a recorded reference is that of a call in the acquirer's log. */
  lemma AuthorizedOnce(bps: int, run: seq<Step>, id: Id)
    requires id in Exec(bps, run).db.rows
    ensures var s := Exec(bps, run); var r := s.db.rows[id];
            && (forall x | x in s.db.rows && s.db.rows[x].merchant == r.merchant
                           && s.db.rows[x].reference == r.reference :: x == id)
            && Sum(s.ops, Resolution(id)) == (if r.status == Created then 0 else 1)
            && (forall op | op in s.ops && op.txn == id && op.kind == AuthorizeOp && op.phase.Booked? ::
                  r.status !in {Created, Failed} && r.acquirerRef == op.phase.bookedRef
                  && Call(AuthorizeOp, id, r.amount, r.acquirerRef) in s.calls)
            && (forall op | op in s.ops && op.txn == id && op.phase.Recorded? ::
                  r.status == Failed && r.failureCode == op.phase.failure)
  {
    RunsKeepInv(bps, run);
    ApprovalsAreLogged(bps, run);
    var s := Exec(bps, run);
    assert OpSums(s.ops, id, s.db.rows[id]);
    AnswersOf(s.ops, s.calls, s.db.rows, id);
  }

  lemma AnswersOf(ops: seq<Op>, calls: seq<Call>, rows: map<Id, Row>, id: Id)
    requires OpsInv(ops, rows) && id in rows && forall op | op in ops :: Logged(op, calls)
    ensures forall op | op in ops && op.txn == id && op.kind == AuthorizeOp && op.phase.Booked? ::
              rows[id].status !in {Created, Failed} && rows[id].acquirerRef == op.phase.bookedRef
              && Call(AuthorizeOp, id, rows[id].amount, rows[id].acquirerRef) in calls
    ensures forall op | op in ops && op.txn == id && op.phase.Recorded? ::
              rows[id].status == Failed && rows[id].failureCode == op.phase.failure
  {
    forall op | op in ops && op.txn == id && op.kind == AuthorizeOp
      ensures OpFits(op, rows) && Logged(op, calls)
    {
    }
  }

  // ---- reconciliation ----

  /** After n >= 1 captures of a transaction its booked fees fall short of the fee on the total by less than n units,
      and the shortfall is the number of whole units hidden in the truncated remainders. */
  lemma BookedFeesDrift(bps: int, run: seq<Step>, id: Id)
    requires 0 <= bps && id in Exec(bps, run).db.rows
    requires 0 < Exec(bps, run).db.rows[id].captured && FeeFits(Exec(bps, run).db.rows[id].captured, bps)
    ensures var d := Exec(bps, run).db; var r := d.rows[id];
            var booked, n, lost := Sum(d.journal, FeeCredit(id)), Sum(d.journal, CaptureCount(id)),
                                   Sum(d.journal, FeeRemainder(id, bps));
            && booked <= Fee(r.captured, bps) <= booked + n - 1
            && (Fee(r.captured, bps) == booked <==> lost < BPS_UNIT)
  {
    RunsKeepInv(bps, run);
    RateIsFixed(bps, run);
    var d := Exec(bps, run).db;
    ViewIsSums(d.journal, id, bps);
    FeeDrift(d.rows[id], ViewOf(d.journal, id, bps), bps);
  }

  /** A day reconciles exactly when no transaction captured in it lost a whole unit to truncation. */
  lemma DayReconcilesIff(bps: int, run: seq<Step>, from: int, to: int, txns: seq<Row>)
    requires Lists(Exec(bps, run).db.rows, from, to, txns) && AllFit(txns, bps)
    ensures var d := Exec(bps, run).db;
            Agrees(d.rows, d.journal, bps, from, to, txns)
            <==> forall t | t in txns :: Sum(d.journal, FeeRemainder(t.id, bps)) < BPS_UNIT
  {
    RunsKeepInv(bps, run);
    RateIsFixed(bps, run);
    var d := Exec(bps, run).db;
    AgreesIff(d, from, to, txns);
    forall t | t in txns
      ensures ViewOf(d.journal, t.id, bps).lost == Sum(d.journal, FeeRemainder(t.id, bps))
    {
      ViewIsSums(d.journal, t.id, bps);
    }
  }

  /** What truncation dropped from a transaction's fees is never recovered. */
  lemma LossesStay(j: seq<Entry>, later: seq<Entry>, id: Id, bps: int)
    requires j <= later
    ensures Sum(j, FeeRemainder(id, bps)) <= Sum(later, FeeRemainder(id, bps))
  {
    var added := later[|j|..];
    assert later == j + added;
    SumConcat(j, added, FeeRemainder(id, bps));
    forall e | e in added
      ensures 0 <= FeeRemainder(id, bps)(e)
    {
      assert 0 <= Remainder(e.amount, bps);
    }
    SumNonNegative(added, FeeRemainder(id, bps));
  }

  /** A row listed for a day is listed for it ever after, as it then is. */
  lemma StaysListed(d: Database, u: Database, from: int, to: int, txns: seq<Row>, again: seq<Row>, t: Row)
    requires RowsInv(u) && Advance(d, u) && Lists(d.rows, from, to, txns) && Lists(u.rows, from, to, again)
    requires t in txns
    ensures t.id in u.rows && u.rows[t.id] in again && u.rows[t.id].id == t.id
  {
    assert Forward(t, u.rows[t.id]);
    assert Listed(u.rows[t.id], from, to);
  }

  /** A transaction of the day has lost a whole unit. */
  ghost predicate LostUnit(j: seq<Entry>, bps: int, txns: seq<Row>) {
    exists t | t in txns :: Sum(j, FeeRemainder(t.id, bps)) >= BPS_UNIT
  }

  lemma LostUnitStays(d: Database, u: Database, bps: int, from: int, to: int, txns: seq<Row>, again: seq<Row>)
    requires RowsInv(u) && Advance(d, u) && Lists(d.rows, from, to, txns) && Lists(u.rows, from, to, again)
    requires LostUnit(d.journal, bps, txns)
    ensures LostUnit(u.journal, bps, again)
  {
    var t :| t in txns && Sum(d.journal, FeeRemainder(t.id, bps)) >= BPS_UNIT;
    StaysListed(d, u, from, to, txns, again, t);
    LossesStay(d.journal, u.journal, t.id, bps);
    assert u.rows[t.id] in again;
  }

  lemma FailsIff(bps: int, run: seq<Step>, d: Database, from: int, to: int, txns: seq<Row>)
    requires d == Exec(bps, run).db && Lists(d.rows, from, to, txns) && AllFit(txns, bps)
    ensures !Agrees(d.rows, d.journal, bps, from, to, txns) <==> LostUnit(d.journal, bps, txns)
  {
    DayReconcilesIff(bps, run, from, to, txns);
  }

  lemma AdvancesTo(bps: int, run: seq<Step>, more: seq<Step>, d: Database, u: Database)
    requires d == Exec(bps, run).db && u == Exec(bps, run + more).db
    ensures Advance(d, u) && RowsInv(u) && u.bps == bps
  {
    RunsAdvance(bps, run, more);
    RunsKeepInv(bps, run + more);
    RateIsFixed(bps, run + more);
  }

  /** A day that fails its gate fails it for good: however the run goes on, no later scan of that day opens a job. */
  lemma FailedDayNeverSettles(bps: int, run: seq<Step>, more: seq<Step>, d: Database, s: State, from: int, to: int,
                              txns: seq<Row>, again: seq<Row>)
    requires d == Exec(bps, run).db && s == Exec(bps, run + more)
    requires Lists(d.rows, from, to, txns) && AllFit(txns, bps)
    requires Lists(s.db.rows, from, to, again) && AllFit(again, bps)
    requires !Agrees(d.rows, d.journal, bps, from, to, txns)
    ensures !Agrees(s.db.rows, s.db.journal, bps, from, to, again) && Apply(s, Scan(from, to, again)) == s
  {
    FailsIff(bps, run, d, from, to, txns);
    AdvancesTo(bps, run, more, d, s.db);
    LostUnitStays(d, s.db, bps, from, to, txns, again);
    FailsIff(bps, run + more, s.db, from, to, again);
    ScanRefuses(s, from, to, again);
  }

  lemma ScanRefuses(s: State, from: int, to: int, txns: seq<Row>)
    requires !Agrees(s.db.rows, s.db.journal, s.db.bps, from, to, txns)
    ensures Apply(s, Scan(from, to, txns)) == s
  {
  }

  lemma SettlesExactly(s: State, k: nat, group: Id, r: Row)
    requires RowsInv(s.db) && LedgerInv(s.db) && FreshGroup(s.db.journal, group)
    requires k < |s.jobs| && s.jobs[k].todo != [] && JobFits(s.jobs[k], s.db)
    requires var t := s.jobs[k].todo[0];
             t.status == Captured && t.id in s.db.rows && s.db.rows[t.id] == r
             && r.status == Captured && FeesStand(s.jobs[k], t, s.db)
    ensures var u := Apply(s, SettleNext(k, group));
            && r.id in u.db.rows && u.db.rows[r.id].status == Settled
            && u.jobs[k].moved == s.jobs[k].moved + 1 && u.jobs[k].counted == s.jobs[k].counted + [r.id]
            && ViewOf(u.db.journal, r.id, s.db.bps).payable == Min(NetPayable(r, s.db.bps), 0)
  {
    var t := s.jobs[k].todo[0];
    assert t in s.jobs[k].todo;
    SettlementDischarges(s.db, s.clock, t.id, group);
    var u := Transact(s.db, s.clock, t.id, Settle, group).value;
    SettledRow(s.db, s.clock, t.id, group, u);
    SettleStep(s, k, group, u);
  }

  lemma SettleStep(s: State, k: nat, group: Id, u: Database)
    requires k < |s.jobs| && s.jobs[k].todo != [] && FreshGroup(s.db.journal, group)
    requires var t := s.jobs[k].todo[0];
             && t.status == Captured && t.id in s.db.rows && s.db.rows[t.id].status == Captured
             && Transact(s.db, s.clock, t.id, Settle, group) == Ok(u)
    ensures Apply(s, SettleNext(k, group)) == SetJob(s.(db := u), k, Visited(s.jobs[k], true, true))
  {
  }

  /** A job that settles a row from which nothing was captured since its scan leaves that transaction's payable at
      exactly min(net, 0), refunds in between included, whatever other clients and jobs did. Only the captured amounts
      scanned for the row's own merchant and currency need to be small enough for exact fees. */
  lemma SettlingPaysExactly(bps: int, run: seq<Step>, k: nat, group: Id)
    requires k < |Exec(bps, run).jobs| && Exec(bps, run).jobs[k].todo != []
    requires FreshGroup(Exec(bps, run).db.journal, group)
    requires var s := Exec(bps, run); var t := s.jobs[k].todo[0];
             && t.status == Captured && KeyFits(s.jobs[k].scanned, bps, KeyOf(t))
             && t.id in s.db.rows && s.db.rows[t.id].status == Captured && s.db.rows[t.id].captured == t.captured
    ensures var s := Exec(bps, run); var id := s.jobs[k].todo[0].id;
            var u := Apply(s, SettleNext(k, group));
            && id in s.db.rows && id in u.db.rows
            && u.db.rows[id].status == Settled
            && u.jobs[k].moved == s.jobs[k].moved + 1 && u.jobs[k].counted == s.jobs[k].counted + [id]
            && Sum(u.db.journal, PayableNet(id)) == Min(NetPayable(s.db.rows[id], bps), 0)
  {
    RunsKeepInv(bps, run);
    RateIsFixed(bps, run);
    var s := Exec(bps, run);
    var t := s.jobs[k].todo[0];
    assert s.jobs[k] in s.jobs && t in s.jobs[k].todo;
    SettlesExactly(s, k, group, s.db.rows[t.id]);
    ViewIsSums(Apply(s, SettleNext(k, group)).db.journal, t.id, bps);
  }

  /** The loop counts a row exactly when the scan saw it captured, and moves it exactly when it still is: the reported
      count is the number of rows moved unless one was settled or fully refunded between scan and lock. */
  lemma CountedAndMovedIff(bps: int, run: seq<Step>, k: nat, group: Id)
    requires k < |Exec(bps, run).jobs| && Exec(bps, run).jobs[k].todo != []
    requires FreshGroup(Exec(bps, run).db.journal, group)
    ensures var s := Exec(bps, run); var job := s.jobs[k]; var t := job.todo[0];
            var next := SettledNext(s, k, group).jobs[k];
            && t.id in s.db.rows
            && next.counted == (if t.status == Captured then job.counted + [t.id] else job.counted)
            && next.moved == job.moved + (if t.status == s.db.rows[t.id].status == Captured then 1 else 0)
            && next.todo == job.todo[1..]
  {
    RunsKeepInv(bps, run);
    var s := Exec(bps, run);
    assert s.jobs[k] in s.jobs && s.jobs[k].todo[0] in s.jobs[k].todo;
    NextVisits(s, k, group);
  }

  lemma NextVisits(s: State, k: nat, group: Id)
    requires RowsInv(s.db) && k < |s.jobs| && s.jobs[k].todo != [] && s.jobs[k].todo[0].id in s.db.rows
    ensures var scanned := s.jobs[k].todo[0].status == Captured;
            SettledNext(s, k, group).jobs ==
            s.jobs[k := Visited(s.jobs[k], scanned, scanned && s.db.rows[s.jobs[k].todo[0].id].status == Captured)]
  {
    var t := s.jobs[k].todo[0];
    if t.status == s.db.rows[t.id].status == Captured {
      SettleCommits(s.db, s.clock, t.id, group);
    }
  }

  /** Every row a job counted as settled is settled, or has been refunded since; it never counts fewer than it moved. */
  lemma CountedRowsAreSettled(bps: int, run: seq<Step>, k: nat)
    requires k < |Exec(bps, run).jobs|
    ensures var s := Exec(bps, run);
            && s.jobs[k].moved <= |s.jobs[k].counted|
            && forall id | id in s.jobs[k].counted :: id in s.db.rows && s.db.rows[id].status in {Settled, Refunded}
  {
    RunsKeepInv(bps, run);
    assert Exec(bps, run).jobs[k] in Exec(bps, run).jobs;
  }

  /** A merchant's balance after any run is the sum, over its transactions, of captured less booked fees, refunds and
      payouts. */
  lemma BalanceFromTransactions(bps: int, run: seq<Step>, k: Key, txns: seq<Row>)
    requires ListsKey(Exec(bps, run).db.rows, k, txns)
    ensures var j := Exec(bps, run).db.journal;
            Balance(MerchantPayable(k.merchant), k.currency, Sum(j, SqlDebit(k.merchant, k.currency)),
                    Sum(j, SqlCredit(k.merchant, k.currency))).Available() == Sum(txns, Owed(j))
  {
    RunsKeepInv(bps, run);
    var d := Exec(bps, run).db;
    BalancesAgree(d, k.merchant, k.currency);
    BalanceIsSumOfTransactions(d, k, txns);
  }
}
