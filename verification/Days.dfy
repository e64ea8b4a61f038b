/** Which day a payment belongs to: when its capture time is set, which listings it is in, and what a reconciliation of
    a day leaves alone. */
module Days {
  import opened Sums
  import opened Money
  import opened Domain
  import opened Ledger
  import opened Reconciliation
  import opened Protocol
  import opened Books
  import opened Runs
  import opened Laws

  // ---- what a step does to the tables ----

  datatype Change = Same | Insert(r: Row) | Commit(id: Id, m: Move, group: Id)

  /** u is d after the change, at the given time. */
  ghost predicate Changed(d: Database, u: Database, now: int, c: Change) {
    match c
    case Same => u == d
    case Insert(r) => Inserted(d, u, r)
    case Commit(id, m, group) => id in d.rows && ServiceMove(d.rows[id], m) && Transact(d, now, id, m, group) == Ok(u)
  }

  lemma FinishChange(s: State, i: nat, group: Id) returns (c: Change)
    requires i < |s.ops| && Pending(s.ops[i].phase) && OpsInv(s.ops, s.db.rows)
    ensures Changed(s.db, Outcome(s, s.ops[i], group).0, s.clock, c)
  {
    var op := s.ops[i];
    assert op in s.ops;
    OutcomeCases(s, op, group);
    var (d, p) := Outcome(s, op, group);
    c := if Writing(p) then Commit(op.txn, MoveOf(op), group) else Same;
  }

  lemma SettleChange(s: State, k: nat, group: Id) returns (c: Change)
    requires k < |s.jobs| && s.jobs[k].todo != []
    ensures Changed(s.db, SettledNext(s, k, group).db, s.clock, c)
  {
    var t := s.jobs[k].todo[0];
    c := Same;
    if t.status == Captured && t.id in s.db.rows && s.db.rows[t.id].status == Captured
       && Transact(s.db, s.clock, t.id, Settle, group).Ok? {
      c := Commit(t.id, Settle, group);
    }
  }

  lemma AuthorizeChange(s: State, id: Id, merchant: Id, reference: string, amount: int, currency: Currency)
    returns (c: Change)
    requires RowsInv(s.db)
    ensures Changed(s.db, Apply(s, BeginAuthorize(id, merchant, reference, amount, currency)).db, s.clock, c)
  {
    c := Same;
    if Authorizations(s, id, merchant, reference, amount, currency).Ok? {
      if ReferenceTaken(s.db.rows, merchant, reference) {
        var op := Resumes(s, id, merchant, reference, amount, currency);
      } else {
        var u, op := Inserts(s, id, merchant, reference, amount, currency);
        c := Insert(op.seen);
      }
    }
  }

  /** Every step leaves the tables alone, inserts one new row, or commits one rule on one row. */
  lemma StepChange(s: State, step: Step) returns (c: Change)
    requires RowsInv(s.db) && OpsInv(s.ops, s.db.rows)
    ensures Changed(s.db, Apply(s, step).db, s.clock, c)
  {
    c := Same;
    match step
    case BeginAuthorize(id, merchant, reference, amount, currency) =>
      c := AuthorizeChange(s, id, merchant, reference, amount, currency);
    case Finish(i, group) =>
      var d, p := FinishCases(s, i, group);
      if i < |s.ops| && FreshGroup(s.db.journal, group) && Pending(s.ops[i].phase) {
        c := FinishChange(s, i, group);
      }
    case SettleNext(k, group) =>
      SettleCases(s, k, group);
      if k < |s.jobs| && s.jobs[k].todo != [] && FreshGroup(s.db.journal, group) {
        c := SettleChange(s, k, group);
      }
    case _ => QuietTables(s, step);
  }

  lemma QuietTables(s: State, step: Step)
    requires !(step.BeginAuthorize? || step.Finish? || step.SettleNext?)
    ensures Apply(s, step).db == s.db
  {
  }

  // ---- the capture time ----

  predicate IsCapture(e: Entry, id: Id) {
    e.txn == id && e.event == CaptureEvent && e.direction == Debit
  }

  /** When the journal first shows money captured for the transaction. */
  function FirstCapture(j: seq<Entry>, id: Id): Option<int> {
    if j == [] then None
    else
      var earlier := FirstCapture(j[..|j| - 1], id);
      if earlier.Some? then earlier
      else if IsCapture(j[|j| - 1], id) then Some(j[|j| - 1].createdAt) else None
  }

  lemma {:induction false} FirstCaptureConcat(j: seq<Entry>, g: seq<Entry>, id: Id)
    ensures FirstCapture(j + g, id) == if FirstCapture(j, id).Some? then FirstCapture(j, id) else FirstCapture(g, id)
  {
    if g == [] {
      assert j + g == j;
    } else {
      var n := |g| - 1;
      assert (j + g)[..|j + g| - 1] == j + g[..n];
      FirstCaptureConcat(j, g[..n], id);
    }
  }

  lemma {:induction false} NoFirstCapture(g: seq<Entry>, id: Id)
    requires forall e | e in g :: !IsCapture(e, id)
    ensures FirstCapture(g, id) == None
  {
    if g != [] {
      NoFirstCapture(g[..|g| - 1], id);
      assert g[|g| - 1] in g;
    }
  }

  /** The capture time of every row is that of its first capture in the journal. */
  ghost predicate StampsInv(d: Database) {
    forall id | id in d.rows :: d.rows[id].capturedAt == FirstCapture(d.journal, id)
  }

  lemma CaptureLinesStamp(r: Row, amount: int, fee: int, group: Id, now: int)
    ensures FirstCapture(CaptureLines(r, amount, fee, group, now), r.id) == Some(now)
    ensures forall id | id != r.id :: FirstCapture(CaptureLines(r, amount, fee, group, now), id) == None
  {
    var g := CaptureLines(r, amount, fee, group, now);
    assert g == [g[0]] + g[1..];
    assert [g[0]][..0] == [];
    assert FirstCapture([g[0]], r.id) == Some(now);
    FirstCaptureConcat([g[0]], g[1..], r.id);
    forall id | id != r.id
      ensures FirstCapture(g, id) == None
    {
      NoFirstCapture(g, id);
    }
  }

  lemma CaptureKeepsStamps(d: Database, u: Database, now: int, id: Id, amount: int, group: Id)
    requires RowsInv(d) && StampsInv(d) && id in d.rows && Transact(d, now, id, Capture(amount), group) == Ok(u)
    ensures StampsInv(u)
  {
    var r, lines := d.rows[id], CaptureLines(d.rows[id], amount, Fee(amount, d.bps), group, now);
    CaptureCommitsIff(d, now, id, amount, group);
    CaptureLinesStamp(r, amount, Fee(amount, d.bps), group, now);
    forall x | x in u.rows
      ensures u.rows[x].capturedAt == FirstCapture(u.journal, x)
    {
      FirstCaptureConcat(d.journal, lines, x);
    }
  }

  lemma QuietLinesKeepStamps(d: Database, u: Database, w: Row, g: seq<Entry>, kind: EventKind)
    requires RowsInv(d) && StampsInv(d) && w.id in d.rows && w.capturedAt == d.rows[w.id].capturedAt
    requires u == Committed(d, w, g, kind) && forall e | e in g :: e.event != CaptureEvent
    ensures StampsInv(u)
  {
    forall x | x in u.rows
      ensures u.rows[x].capturedAt == FirstCapture(u.journal, x)
    {
      FirstCaptureConcat(d.journal, g, x);
      NoFirstCapture(g, x);
    }
  }

  lemma CommitKeepsStamps(d: Database, u: Database, now: int, id: Id, m: Move, group: Id)
    requires RowsInv(d) && StampsInv(d) && id in d.rows && Transact(d, now, id, m, group) == Ok(u)
    ensures StampsInv(u)
  {
    if m.Capture? {
      CaptureKeepsStamps(d, u, now, id, m.amount, group);
    } else {
      var w, g, kind := QuietCommit(d, u, now, id, m, group);
      QuietLinesKeepStamps(d, u, w, g, kind);
    }
  }

  /** No other rule touches the capture time or books a capture. */
  lemma QuietCommit(d: Database, u: Database, now: int, id: Id, m: Move, group: Id)
    returns (w: Row, g: seq<Entry>, kind: EventKind)
    requires RowsInv(d) && id in d.rows && Transact(d, now, id, m, group) == Ok(u) && !m.Capture?
    ensures w.id == id && w.capturedAt == d.rows[id].capturedAt && u == Committed(d, w, g, kind)
    ensures forall e | e in g :: e.event != CaptureEvent
  {
    w, kind := u.rows[id], u.outbox[|d.outbox|].kind;
    g := u.journal[|d.journal|..];
    match m
    case Refund(amount) => RefundCommitsIff(d, now, id, amount, group);
    case Settle => SettleCommitsIff(d, now, id, group);
    case Void => VoidCommitsIff(d, now, id, group);
    case Authorize(ref, last4, brand) => AuthorizeCommitsIff(d, now, id, ref, last4, brand, group);
    case Fail(code) => FailCommitsIff(d, now, id, code, group);
  }

  lemma InsertKeepsStamps(d: Database, u: Database, r: Row)
    requires EntriesInv(d) && StampsInv(d) && Inserted(d, u, r)
    ensures StampsInv(u)
  {
    NoFirstCapture(d.journal, r.id);
  }

  lemma StampsStep(s: State, step: Step)
    requires Inv(s) && StampsInv(s.db)
    ensures StampsInv(Apply(s, step).db)
  {
    var c := StepChange(s, step);
    ChangeKeepsStamps(s.db, Apply(s, step).db, s.clock, c);
  }

  lemma ChangeKeepsStamps(d: Database, u: Database, now: int, c: Change)
    requires RowsInv(d) && EntriesInv(d) && StampsInv(d) && Changed(d, u, now, c)
    ensures StampsInv(u)
  {
    match c
    case Same =>
    case Insert(r) => InsertKeepsStamps(d, u, r);
    case Commit(id, m, group) => CommitKeepsStamps(d, u, now, id, m, group);
  }

  /** After any run a payment's capture time is that of its first capture in the journal. */
  lemma {:induction false} CapturedWhenFirstBooked(bps: int, run: seq<Step>)
    ensures StampsInv(Exec(bps, run).db)
  {
    if run != [] {
      CapturedWhenFirstBooked(bps, run[..|run| - 1]);
      RunsKeepInv(bps, run[..|run| - 1]);
      StampsStep(Exec(bps, run[..|run| - 1]), run[|run| - 1]);
    }
  }

  // ---- listings ----

  /** A payment is listed for a period exactly when its first capture was booked in it: at or after the start and
      before the end. */
  lemma ListedIffCapturedWithin(bps: int, run: seq<Step>, d: Database, from: int, to: int, txns: seq<Row>, id: Id)
    requires d == Exec(bps, run).db && Lists(d.rows, from, to, txns) && id in d.rows
    ensures d.rows[id] in txns <==>
            FirstCapture(d.journal, id).Some? && from <= FirstCapture(d.journal, id).value < to
  {
    CapturedWhenFirstBooked(bps, run);
    RunsKeepInv(bps, run);
    ListedIffWithin(d, from, to, txns, id);
  }

  lemma ListedIffWithin(d: Database, from: int, to: int, txns: seq<Row>, id: Id)
    requires RowsInv(d) && Lists(d.rows, from, to, txns) && id in d.rows
    ensures d.rows[id] in txns <==> d.rows[id].capturedAt.Some? && from <= d.rows[id].capturedAt.value < to
  {
    assert RowOk(d.rows[id]);
  }

  /** Two days in a row list each payment once, and together they list the two days. */
  lemma ListingsTile(d: Database, a: int, b: int, c: int, first: seq<Row>, second: seq<Row>)
    requires RowsInv(d) && a <= b <= c && Lists(d.rows, a, b, first) && Lists(d.rows, b, c, second)
    ensures forall t, x | t in first && x in second :: t.id != x.id
    ensures Lists(d.rows, a, c, first + second)
  {
    forall t, x | t in first && x in second
      ensures t.id != x.id
    {
      ListedIffWithin(d, a, b, first, t.id);
      ListedIffWithin(d, b, c, second, x.id);
    }
    forall id | id in d.rows && Listed(d.rows[id], a, c)
      ensures d.rows[id] in first + second
    {
      ListedIffWithin(d, a, b, first, id);
      ListedIffWithin(d, b, c, second, id);
    }
  }

  // ---- aggregates ----

  /** The amount of a journal line of one sort, if its payment was first captured in the period. */
  function AmountWithin(rows: map<Id, Row>, from: int, to: int, k: Key, event: EventType, account: Account,
                        direction: Direction): Entry -> int {
    (e: Entry) =>
      if e.txn in rows && rows[e.txn].capturedAt.Some? && from <= rows[e.txn].capturedAt.value < to
         && e.merchant == Some(k.merchant) && e.currency == k.currency
         && e.event == event && e.account == account && e.direction == direction then e.amount else 0
  }

  lemma JoinedIs(rows: map<Id, Row>, from: int, to: int, k: Key, e: Entry)
    ensures JoinedCaptured(rows, from, to, k)(e)
            == AmountWithin(rows, from, to, k, CaptureEvent, AcquirerReceivable, Debit)(e)
    ensures JoinedRefunded(rows, from, to, k)(e)
            == AmountWithin(rows, from, to, k, RefundEvent, AcquirerReceivable, Credit)(e)
    ensures JoinedFees(rows, from, to, k)(e)
            == AmountWithin(rows, from, to, k, FeeEvent, PlatformFeeRevenue, Credit)(e)
  {
    var c, r, f := CaptureDebit(e.txn)(e), RefundCredit(e.txn)(e), FeeCredit(e.txn)(e);
    assert JoinedCaptured(rows, from, to, k)(e) == if Joined(e, rows, from, to, k) then c else 0;
    assert JoinedRefunded(rows, from, to, k)(e) == if Joined(e, rows, from, to, k) then r else 0;
    assert JoinedFees(rows, from, to, k)(e) == if Joined(e, rows, from, to, k) then f else 0;
  }

  /** The journal side of a day: the capture debits and refund credits on the acquirer's account and the fee credits on
      the platform's, of the payments first captured at or after the start and before the end. */
  lemma TotalsAreWithin(rows: map<Id, Row>, j: seq<Entry>, from: int, to: int, k: Key)
    ensures LedgerTotals(rows, j, from, to, k) ==
            Totals(k, Sum(j, AmountWithin(rows, from, to, k, CaptureEvent, AcquirerReceivable, Debit)),
                   Sum(j, AmountWithin(rows, from, to, k, RefundEvent, AcquirerReceivable, Credit)),
                   Sum(j, AmountWithin(rows, from, to, k, FeeEvent, PlatformFeeRevenue, Credit)))
  {
    var captured := AmountWithin(rows, from, to, k, CaptureEvent, AcquirerReceivable, Debit);
    var refunded := AmountWithin(rows, from, to, k, RefundEvent, AcquirerReceivable, Credit);
    var fees := AmountWithin(rows, from, to, k, FeeEvent, PlatformFeeRevenue, Credit);
    forall e | e in j
      ensures JoinedCaptured(rows, from, to, k)(e) == captured(e)
      ensures JoinedRefunded(rows, from, to, k)(e) == refunded(e)
      ensures JoinedFees(rows, from, to, k)(e) == fees(e)
    {
      JoinedIs(rows, from, to, k, e);
    }
    SumEqual(j, JoinedCaptured(rows, from, to, k), captured);
    SumEqual(j, JoinedRefunded(rows, from, to, k), refunded);
    SumEqual(j, JoinedFees(rows, from, to, k), fees);
  }

  /** The totals of two days in a row add up to those of the two days. */
  lemma TotalsTile(rows: map<Id, Row>, j: seq<Entry>, a: int, b: int, c: int, k: Key)
    requires a <= b <= c
    ensures var x, y := LedgerTotals(rows, j, a, b, k), LedgerTotals(rows, j, b, c, k);
            LedgerTotals(rows, j, a, c, k)
            == Totals(k, x.captured + y.captured, x.refunded + y.refunded, x.fees + y.fees)
  {
    forall e | e in j
      ensures JoinedCaptured(rows, a, c, k)(e) == JoinedCaptured(rows, a, b, k)(e) + JoinedCaptured(rows, b, c, k)(e)
      ensures JoinedRefunded(rows, a, c, k)(e) == JoinedRefunded(rows, a, b, k)(e) + JoinedRefunded(rows, b, c, k)(e)
      ensures JoinedFees(rows, a, c, k)(e) == JoinedFees(rows, a, b, k)(e) + JoinedFees(rows, b, c, k)(e)
    {
      JoinedIs(rows, a, b, k, e);
      JoinedIs(rows, b, c, k, e);
      JoinedIs(rows, a, c, k, e);
    }
    SumPlus(j, JoinedCaptured(rows, a, c, k), JoinedCaptured(rows, a, b, k), JoinedCaptured(rows, b, c, k));
    SumPlus(j, JoinedRefunded(rows, a, c, k), JoinedRefunded(rows, a, b, k), JoinedRefunded(rows, b, c, k));
    SumPlus(j, JoinedFees(rows, a, c, k), JoinedFees(rows, a, b, k), JoinedFees(rows, b, c, k));
  }
}
