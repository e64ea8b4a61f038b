/** Short runs of the protocol: a day that does not reconcile, and a settlement counted twice. */
module Witness {
  import opened Sums
  import opened Money
  import opened Domain
  import opened Ledger
  import opened Reconciliation
  import opened Protocol
  import opened Books
  import opened Agreement
  import opened Operations
  import opened Laws
  import opened Theorems

  const APPROVAL: Answer := Yes("ref", "", "")

  lemma Grouped(run: seq<Step>, a: Step, b: Step, c: Step)
    ensures run + [a, b, c] == run + [a] + [b] + [c]
  {
  }

  /** s, s1, s2, s3 are the states before and after three steps in a row. */
  lemma ExecThree(bps: int, run: seq<Step>, a: Step, b: Step, c: Step, s: State, s1: State, s2: State, s3: State)
    requires Exec(bps, run) == s && s1 == Apply(s, a) && s2 == Apply(s1, b) && s3 == Apply(s2, c)
    ensures Exec(bps, run + [a, b, c]) == s3
  {
    Grouped(run, a, b, c);
    ExecSnoc(bps, run, a, s);
    ExecSnoc(bps, run + [a], b, s1);
    ExecSnoc(bps, run + [a] + [b], c, s2);
  }

  // ---- undisturbed operations ----

  /** A capture whose three sections run with nothing in between commits exactly one database transaction. */
  lemma UndisturbedCapture(s: State, merchant: Id, id: Id, amount: int, ref: string, group: Id, u: Database)
    requires 0 < amount && id in s.db.rows && s.db.rows[id].merchant == merchant
    requires Transact(s.db, s.clock, id, Capture(amount), group) == Ok(u) && FreshGroup(s.db.journal, group)
    ensures var s1 := Apply(s, BeginCapture(merchant, id, amount));
            var s2 := Apply(s1, AcquirerAnswers(|s.ops|, Yes(ref, "", "")));
            && s2.db == s.db
            && Apply(s2, Finish(|s.ops|, group)) ==
               State(u, s.clock, s.ops + [Op(CaptureOp, merchant, id, amount, s.db.rows[id], s.clock, Booked(ref))],
                     s.calls + [Call(CaptureOp, id, amount, ref)], s.jobs)
  {
    var r, i := s.db.rows[id], |s.ops|;
    var op := Op(CaptureOp, merchant, id, amount, r, s.clock, Called);
    assert Capturing(r, amount, s.clock).Ok?;
    var s1 := Apply(s, BeginCapture(merchant, id, amount));
    assert s1 == s.(ops := s.ops + [op]);
    var s2 := Apply(s1, AcquirerAnswers(i, Yes(ref, "", "")));
    assert s2 == s1.(ops := s.ops + [op.(phase := Approved(ref, "", ""))],
                     calls := s.calls + [Call(CaptureOp, id, amount, ref)]);
    assert WriteBack(s2, s2.ops[i], group) == Ok(u);
  }

  /** The same for the first authorization of a new reference. */
  lemma UndisturbedAuthorization(s: State, r: Row, ref: string, group: Id, u: Database)
    requires NewTransaction(r.id, r.merchant, r.reference, r.amount, r.currency, s.clock) == Ok(r)
    requires r.id !in s.db.rows && !ReferenceTaken(s.db.rows, r.merchant, r.reference)
    requires Transact(s.db.(rows := s.db.rows[r.id := r]), s.clock, r.id, Authorize(ref, "", ""), group) == Ok(u)
    requires FreshGroup(s.db.journal, group)
    ensures var s1 := Apply(s, BeginAuthorize(r.id, r.merchant, r.reference, r.amount, r.currency));
            var s2 := Apply(s1, AcquirerAnswers(|s.ops|, Yes(ref, "", "")));
            Apply(s2, Finish(|s.ops|, group)) ==
            State(u, s.clock, s.ops + [Op(AuthorizeOp, r.merchant, r.id, r.amount, r, s.clock, Booked(ref))],
                  s.calls + [Call(AuthorizeOp, r.id, r.amount, ref)], s.jobs)
  {
    var i, d := |s.ops|, s.db.(rows := s.db.rows[r.id := r]);
    var op := Op(AuthorizeOp, r.merchant, r.id, r.amount, r, s.clock, Called);
    var s1 := Apply(s, BeginAuthorize(r.id, r.merchant, r.reference, r.amount, r.currency));
    assert s1 == s.(db := d, ops := s.ops + [op]);
    var s2 := Apply(s1, AcquirerAnswers(i, Yes(ref, "", "")));
    assert s2 == s1.(ops := s.ops + [op.(phase := Approved(ref, "", ""))],
                     calls := s.calls + [Call(AuthorizeOp, r.id, r.amount, ref)]);
    assert WriteBack(s2, s2.ops[i], group) == Ok(u);
  }

  // ---- the run ----

  /** A payment of 100 is authorized. */
  function Opening(): seq<Step> {
    [BeginAuthorize(7, 1, "order", 100, USD), AcquirerAnswers(0, APPROVAL), Finish(0, 0)]
  }

  /** A part of it is captured. */
  function Part(i: nat, amount: int): seq<Step> {
    [BeginCapture(1, 7, amount), AcquirerAnswers(i, APPROVAL), Finish(i, i)]
  }

  /** The tables hold the one payment, authorized at time 0, with c of it captured; groups below n are used. */
  ghost predicate Awaiting(d: Database, c: int, n: nat) {
    && d.bps == 200 && d.rows.Keys == {7} && RowsInv(d)
    && (forall e | e in d.journal :: e.group < n)
    && d.rows[7].amount == 100 && d.rows[7].captured == c && d.rows[7].refunded == 0
    && d.rows[7].merchant == 1 && d.rows[7].authorizedAt == Some(0) && d.rows[7].status in {Authorized, Captured}
    && (0 < c ==> d.rows[7].capturedAt == Some(0))
  }

  lemma Authorizes(d: Database, r: Row) returns (u: Database)
    requires d == Database(200, map[7 := r], [], []) && r == NewRow(7, 1, "order", 100, USD, 0)
    ensures Transact(d, 0, 7, Authorize("ref", "", ""), 0) == Ok(u) && Awaiting(u, 0, 1) && u.journal == []
  {
    var w := Written(r, Authorizing(r, "ref", "", "", 0).value, 0);
    u := Database(200, map[7 := w], [], [Event(7, PaymentAuthorized, w)]);
    assert Moved(r, Authorize("ref", "", ""), 0) == Ok(w.(version := 0));
    assert d.rows[7 := w] == u.rows && d.journal + [] == u.journal && d.outbox + u.outbox == u.outbox;
  }

  lemma Opens(run: seq<Step>) returns (s: State)
    requires run == Opening()
    ensures s == Exec(200, run) && Awaiting(s.db, 0, 1) && |s.ops| == 1 && s.clock == 0
    ensures ViewOf(s.db.journal, 7, 200).lost == 0
  {
    var s0, r, p := Initial(200), NewRow(7, 1, "order", 100, USD, 0), run;
    var d := Authorizes(Database(200, map[7 := r], [], []), r);
    UndisturbedAuthorization(s0, r, "ref", 0, d);
    var s1 := Apply(s0, p[0]);
    var s2 := Apply(s1, p[1]);
    s := Apply(s2, p[2]);
    ExecThree(200, [], p[0], p[1], p[2], s0, s1, s2, s);
    assert [] + p == p;
  }

  /** One more part: the fraction of its fee that truncation drops adds to those dropped before. */
  lemma TakesPart(d: Database, c: int, n: nat, amount: int) returns (u: Database)
    requires Awaiting(d, c, n) && 0 <= c && 0 < amount <= 100 - c
    ensures Transact(d, 0, 7, Capture(amount), n) == Ok(u) && Awaiting(u, c + amount, n + 1)
    ensures ViewOf(u.journal, 7, 200).lost == ViewOf(d.journal, 7, 200).lost + Remainder(amount, 200)
  {
    FeeIsFloor(amount, 200);
    CaptureCommitsIff(d, 0, 7, amount, n);
    u := Transact(d, 0, 7, Capture(amount), n).value;
    var w, g := TransactPosts(d, 0, 7, Capture(amount), n);
    ViewConcat(d.journal, g, 7, 200);
    ViewOfMove(w, Capture(amount), 200, n, 0);
  }

  lemma ExecPart(run: seq<Step>, s: State, c: int, amount: int) returns (u: State)
    requires s == Exec(200, run) && s.clock == 0 && Awaiting(s.db, c, |s.ops|)
    requires 0 <= c && 0 < amount <= 100 - c
    ensures u == Exec(200, run + Part(|s.ops|, amount)) && u.clock == 0 && |u.ops| == |s.ops| + 1
    ensures Awaiting(u.db, c + amount, |u.ops|)
    ensures ViewOf(u.db.journal, 7, 200).lost == ViewOf(s.db.journal, 7, 200).lost + Remainder(amount, 200)
  {
    var n := |s.ops|;
    var d := TakesPart(s.db, c, n, amount);
    UndisturbedCapture(s, 1, 7, amount, "ref", n, d);
    var p := Part(n, amount);
    var s1 := Apply(s, p[0]);
    var s2 := Apply(s1, p[1]);
    u := Apply(s2, p[2]);
    ExecThree(200, run, p[0], p[1], p[2], s, s1, s2, u);
  }

  lemma LostUnitFailsTheGate(run: seq<Step>, d: Database, n: nat)
    requires d == Exec(200, run).db && Awaiting(d, 100, n) && BPS_UNIT <= ViewOf(d.journal, 7, 200).lost
    ensures Lists(d.rows, 0, 1, [d.rows[7]]) && !Agrees(d.rows, d.journal, 200, 0, 1, [d.rows[7]])
  {
    var txns := [d.rows[7]];
    assert txns[0] in txns && txns[0].id == 7;
    DayReconcilesIff(200, run, 0, 1, txns);
    ViewIsSums(d.journal, 7, 200);
  }

  /** Row side and journal side do not always agree: after this run the only payment of the day was captured in two
      parts whose dropped fractions add up to a whole unit, and the report is not clean. */
  lemma PartialCapturesFailTheGate(opening: seq<Step>, half: seq<Step>, run: seq<Step>)
    requires opening == Opening() && half == opening + Part(1, 49) && run == half + Part(2, 51)
    ensures var d := Exec(200, run).db;
            && 7 in d.rows && Lists(d.rows, 0, 1, [d.rows[7]])
            && !Agrees(d.rows, d.journal, 200, 0, 1, [d.rows[7]])
  {
    var s := Opens(opening);
    var t := ExecPart(opening, s, 0, 49);
    SecondPart(half, run, t);
  }

  lemma SecondPart(half: seq<Step>, run: seq<Step>, t: State)
    requires t == Exec(200, half) && run == half + Part(2, 51) && t.clock == 0 && |t.ops| == 2
    requires Awaiting(t.db, 49, 2) && ViewOf(t.db.journal, 7, 200).lost == Remainder(49, 200)
    ensures var d := Exec(200, run).db;
            && 7 in d.rows && Lists(d.rows, 0, 1, [d.rows[7]])
            && !Agrees(d.rows, d.journal, 200, 0, 1, [d.rows[7]])
  {
    var u := ExecPart(half, t, 49, 51);
    PartialCaptureFeesDiffer();
    LostUnitFailsTheGate(run, u.db, 3);
  }

  // ---- a settlement counted twice ----

  lemma ScanOpens(s: State, from: int, to: int, txns: seq<Row>)
    requires Lists(s.db.rows, from, to, txns) && Agrees(s.db.rows, s.db.journal, s.db.bps, from, to, txns)
    ensures Apply(s, Scan(from, to, txns)) == s.(jobs := s.jobs + [Job(txns, txns, [], 0)])
  {
  }

  /** Job k settles its only row. */
  lemma FirstVisit(s: State, k: nat, t: Row, g: Id, u: State)
    requires RowsInv(s.db) && k < |s.jobs| && s.jobs[k] == Job([t], [t], [], 0)
    requires t.id in s.db.rows && s.db.rows[t.id] == t && t.status == Captured && FreshGroup(s.db.journal, g)
    requires u == Apply(s, SettleNext(k, g))
    ensures u.jobs == s.jobs[k := Job([t], [], [t.id], 1)]
    ensures RowsInv(u.db) && t.id in u.db.rows && u.db.rows[t.id].status == Settled
    ensures forall e | e in u.db.journal :: e in s.db.journal || e.group == g
  {
    SettleCommits(s.db, s.clock, t.id, g);
    var d := Transact(s.db, s.clock, t.id, Settle, g).value;
    SettleStep(s, k, g, d);
    SettledRow(s.db, s.clock, t.id, g, d);
    SettledJournal(s.db, s.clock, t.id, g, d);
    VisitedOnly(t, true);
  }

  lemma SettledJournal(d: Database, now: int, id: Id, group: Id, u: Database)
    requires RowsInv(d) && id in d.rows && d.rows[id].status == Captured && Transact(d, now, id, Settle, group) == Ok(u)
    ensures forall e | e in u.journal :: e in d.journal || e.group == group
  {
    var w, g := TransactPosts(d, now, id, Settle, group);
  }

  lemma VisitedOnly(t: Row, moves: bool)
    ensures Visited(Job([t], [t], [], 0), true, moves) == Job([t], [], [t.id], if moves then 1 else 0)
  {
    assert [t][1..] == [] && [] + [t.id] == [t.id];
  }

  /** Another job finds it settled: it counts the row and moves nothing. */
  lemma SecondVisit(s: State, k: nat, t: Row, h: Id, u: State)
    requires RowsInv(s.db) && k < |s.jobs| && s.jobs[k] == Job([t], [t], [], 0) && FreshGroup(s.db.journal, h)
    requires t.status == Captured && t.id in s.db.rows && s.db.rows[t.id].status == Settled
    requires u == Apply(s, SettleNext(k, h))
    ensures u.jobs == s.jobs[k := Job([t], [], [t.id], 0)]
  {
    SettleIs(s, k, h);
    NextVisits(s, k, h);
    VisitedOnly(t, false);
  }

  lemma SettleIs(s: State, k: nat, group: Id)
    requires k < |s.jobs| && s.jobs[k].todo != [] && FreshGroup(s.db.journal, group)
    ensures Apply(s, SettleNext(k, group)) == SettledNext(s, k, group)
  {
  }

  /** After any run, two jobs that scan a clean day of one captured row and then settle it both count it; only the
      first moved it. So the settled count of a report may exceed what its job did. */
  lemma SecondJobOvercounts(bps: int, run: seq<Step>, s: State, from: int, to: int, t: Row, g: Id, h: Id)
    requires s == Exec(bps, run) && Lists(s.db.rows, from, to, [t]) && t.status == Captured
    requires Agrees(s.db.rows, s.db.journal, s.db.bps, from, to, [t])
    requires g != h && FreshGroup(s.db.journal, g) && FreshGroup(s.db.journal, h)
    ensures var k, scan := |s.jobs|, Scan(from, to, [t]);
            var u := Exec(bps, run + [scan, scan, SettleNext(k, g)] + [SettleNext(k + 1, h)]);
            |u.jobs| == k + 2 && u.jobs[k] == Job([t], [], [t.id], 1) && u.jobs[k + 1] == Job([t], [], [t.id], 0)
  {
    var k, scan := |s.jobs|, Scan(from, to, [t]);
    ScanOpens(s, from, to, [t]);
    var s1 := s.(jobs := s.jobs + [Job([t], [t], [], 0)]);
    ScanOpens(s1, from, to, [t]);
    var s2 := s1.(jobs := s1.jobs + [Job([t], [t], [], 0)]);
    var u := Apply(s2, SettleNext(k, g));
    var v := Apply(u, SettleNext(k + 1, h));
    ExecThree(bps, run, scan, scan, SettleNext(k, g), s, s1, s2, u);
    ExecSnoc(bps, run + [scan, scan, SettleNext(k, g)], SettleNext(k + 1, h), u);
    ReachedRows(bps, run);
    assert [t][0] in [t];
    FirstVisit(s2, k, t, g, u);
    SecondVisit(u, k + 1, t, h, v);
  }

  /** Such a day exists: the payment captured whole. */
  lemma OvercountedRun(opening: seq<Step>, run: seq<Step>) returns (s: State, t: Row)
    requires opening == Opening() && run == opening + Part(1, 100)
    ensures s == Exec(200, run) && s.db.bps == 200 && t.status == Captured && Lists(s.db.rows, 0, 1, [t])
    ensures Agrees(s.db.rows, s.db.journal, 200, 0, 1, [t])
    ensures FreshGroup(s.db.journal, 2) && FreshGroup(s.db.journal, 3)
  {
    var o := Opens(opening);
    s := ExecPart(opening, o, 0, 100);
    t := s.db.rows[7];
    WholeDayReconciles(run, s.db, t);
  }

  lemma WholeDayReconciles(run: seq<Step>, d: Database, t: Row)
    requires d == Exec(200, run).db && Awaiting(d, 100, 2) && t == d.rows[7]
    requires ViewOf(d.journal, 7, 200).lost == Remainder(100, 200)
    ensures Lists(d.rows, 0, 1, [t]) && Agrees(d.rows, d.journal, 200, 0, 1, [t])
  {
    assert [t][0] in [t];
    DayReconcilesIff(200, run, 0, 1, [t]);
    ViewIsSums(d.journal, 7, 200);
  }

  lemma ReachedRows(bps: int, run: seq<Step>)
    ensures RowsInv(Exec(bps, run).db)
  {
    AdvancesTo(bps, run, [], Exec(bps, run).db, Exec(bps, run).db) by { assert run + [] == run; }
  }
}
