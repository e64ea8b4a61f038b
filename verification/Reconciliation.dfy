/** The daily report: the transaction side and the journal side aggregated independently, then compared. */
module Reconciliation {
  import opened Sums
  import opened Money
  import opened Domain
  import opened Ledger

  /** A day's activity is grouped by merchant and currency. */
  datatype Key = Key(merchant: Id, currency: Currency)

  datatype Summary = Summary(
    count: int, captured: int, refunded: int, fees: int, net: int,
    ledgerCaptured: int, ledgerRefunded: int, ledgerFees: int)

  datatype Totals = Totals(key: Key, captured: int, refunded: int, fees: int)

  datatype Field = CapturedTotal | RefundedTotal | FeeTotal

  datatype Discrepancy = Discrepancy(key: Key, field: Field, expected: int, actual: int)

  datatype Report = Report(lines: map<Key, Summary>, discrepancies: seq<Discrepancy>, unbalanced: set<Id>) {
    predicate OK() { discrepancies == [] && unbalanced == {} }
  }

  const EMPTY := Summary(0, 0, 0, 0, 0, 0, 0, 0)

  // ---- the two queries ----

  predicate InWindow(r: Row, from: int, to: int) {
    r.capturedAt.Some? && from <= r.capturedAt.value < to
  }

  predicate Listed(r: Row, from: int, to: int) {
    InWindow(r, from, to) && r.status in {Captured, Settled, Refunded}
  }

  /** txns is a result of ListCapturedBetween: every matching row once, in some order. */
  ghost predicate Lists(rows: map<Id, Row>, from: int, to: int, txns: seq<Row>) {
    && (forall t | t in txns :: t.id in rows && rows[t.id] == t && Listed(t, from, to))
    && (forall id | id in rows && Listed(rows[id], from, to) :: rows[id] in txns)
    && DistinctIds(txns)
  }

  predicate DistinctIds(txns: seq<Row>) {
    forall i, j | 0 <= i < j < |txns| :: txns[i].id != txns[j].id
  }

  function KeyOf(r: Row): Key { Key(r.merchant, r.currency) }

  function RowCount(k: Key): Row -> int { (t: Row) => if KeyOf(t) == k then 1 else 0 }
  function RowCaptured(k: Key): Row -> int { (t: Row) => if KeyOf(t) == k then t.captured else 0 }
  function RowRefunded(k: Key): Row -> int { (t: Row) => if KeyOf(t) == k then t.refunded else 0 }
  function RowFees(k: Key, bps: int): Row -> int { (t: Row) => if KeyOf(t) == k then Fee(t.captured, bps) else 0 }
  function RowNet(k: Key, bps: int): Row -> int { (t: Row) => if KeyOf(t) == k then NetPayable(t, bps) else 0 }

  /** The joined journal line belongs to a transaction captured in the window, under key k. */
  predicate Joined(e: Entry, rows: map<Id, Row>, from: int, to: int, k: Key) {
    && e.txn in rows && InWindow(rows[e.txn], from, to)
    && e.merchant == Some(k.merchant) && e.currency == k.currency
  }

  function JoinedCaptured(rows: map<Id, Row>, from: int, to: int, k: Key): Entry -> int {
    (e: Entry) => if Joined(e, rows, from, to, k) then CaptureDebit(e.txn)(e) else 0
  }

  function JoinedRefunded(rows: map<Id, Row>, from: int, to: int, k: Key): Entry -> int {
    (e: Entry) => if Joined(e, rows, from, to, k) then RefundCredit(e.txn)(e) else 0
  }

  function JoinedFees(rows: map<Id, Row>, from: int, to: int, k: Key): Entry -> int {
    (e: Entry) => if Joined(e, rows, from, to, k) then FeeCredit(e.txn)(e) else 0
  }

  function LedgerTotals(rows: map<Id, Row>, j: seq<Entry>, from: int, to: int, k: Key): Totals {
    Totals(k, Sum(j, JoinedCaptured(rows, from, to, k)), Sum(j, JoinedRefunded(rows, from, to, k)),
           Sum(j, JoinedFees(rows, from, to, k)))
  }

  ghost predicate HasActivity(rows: map<Id, Row>, j: seq<Entry>, from: int, to: int, k: Key) {
    exists e :: e in j && Joined(e, rows, from, to, k)
  }

  /** aggs is a result of AggregateByMerchant: one line per key with journal activity. */
  ghost predicate Aggregates(rows: map<Id, Row>, j: seq<Entry>, from: int, to: int, aggs: seq<Totals>) {
    && (forall a, b | 0 <= a < b < |aggs| :: aggs[a].key != aggs[b].key)
    && (forall a | a in aggs :: a == LedgerTotals(rows, j, from, to, a.key))
    && (forall k: Key :: HasActivity(rows, j, from, to, k) <==> HasTotals(aggs, k))
  }

  // ---- comparison ----

  function RowLine(txns: seq<Row>, bps: int, k: Key): Summary {
    Summary(Sum(txns, RowCount(k)), Sum(txns, RowCaptured(k)), Sum(txns, RowRefunded(k)), Sum(txns, RowFees(k, bps)),
            Sum(txns, RowNet(k, bps)), 0, 0, 0)
  }

  function WithLedger(line: Summary, t: Totals): Summary {
    line.(ledgerCaptured := t.captured, ledgerRefunded := t.refunded, ledgerFees := t.fees)
  }

  predicate Balanced(line: Summary) {
    line.captured == line.ledgerCaptured && line.refunded == line.ledgerRefunded && line.fees == line.ledgerFees
  }

  function Checks(k: Key, line: Summary): seq<Discrepancy> {
    [Discrepancy(k, CapturedTotal, line.captured, line.ledgerCaptured),
     Discrepancy(k, RefundedTotal, line.refunded, line.ledgerRefunded),
     Discrepancy(k, FeeTotal, line.fees, line.ledgerFees)]
  }

  /** The mismatches of one line. */
  predicate IsDiscrepancy(lines: map<Key, Summary>, d: Discrepancy) {
    d.key in lines && d in Checks(d.key, lines[d.key]) && d.expected != d.actual
  }

  function TotalsFor(aggs: seq<Totals>, k: Key): Totals {
    if aggs == [] then Totals(k, 0, 0, 0)
    else if aggs[|aggs| - 1].key == k then aggs[|aggs| - 1]
    else TotalsFor(aggs[..|aggs| - 1], k)
  }

  ghost predicate HasRows(txns: seq<Row>, k: Key) {
    exists t :: t in txns && KeyOf(t) == k
  }

  ghost predicate HasTotals(aggs: seq<Totals>, k: Key) {
    exists a :: a in aggs && a.key == k
  }

  /** Every line of the report is the sum over the rows of its key beside the journal's totals for that key;
      the discrepancies are exactly the fields that differ. */
  method BuildReport(bps: int, txns: seq<Row>, aggs: seq<Totals>, unbalanced: set<Id>) returns (report: Report)
    ensures forall k: Key :: k in report.lines <==> HasRows(txns, k) || HasTotals(aggs, k)
    ensures forall k | k in report.lines ::
              report.lines[k] == WithLedger(RowLine(txns, bps, k), TotalsFor(aggs, k))
    ensures forall d :: d in report.discrepancies <==> IsDiscrepancy(report.lines, d)
    ensures forall k | k in report.lines :: NamesFields(report.discrepancies, k, report.lines[k])
    ensures report.unbalanced == unbalanced
    ensures report.OK() <==> unbalanced == {} && forall k | k in report.lines :: Balanced(report.lines[k])
  {
    var expected := SumRows(bps, txns);
    expected := AddTotals(bps, txns, expected, aggs);
    var found := Compare(expected);
    report := Report(expected, found, unbalanced);
    CleanIff(expected, found);
    forall k | k in expected
      ensures NamesFields(found, k, expected[k])
    {
      FieldsNamed(expected, found, k);
    }
  }

  /** Each of the three fields is reported exactly when the two sides differ, the rows' figure as expected and the
      journal's as actual. */
  predicate NamesFields(found: seq<Discrepancy>, k: Key, line: Summary) {
    && (Discrepancy(k, CapturedTotal, line.captured, line.ledgerCaptured) in found
        <==> line.captured != line.ledgerCaptured)
    && (Discrepancy(k, RefundedTotal, line.refunded, line.ledgerRefunded) in found
        <==> line.refunded != line.ledgerRefunded)
    && (Discrepancy(k, FeeTotal, line.fees, line.ledgerFees) in found <==> line.fees != line.ledgerFees)
  }

  lemma FieldsNamed(lines: map<Key, Summary>, found: seq<Discrepancy>, k: Key)
    requires k in lines && forall d :: d in found <==> IsDiscrepancy(lines, d)
    ensures NamesFields(found, k, lines[k])
  {
    var c := Checks(k, lines[k]);
    assert c[0] in c && c[1] in c && c[2] in c;
  }

  /** The journal's totals are put beside the rows' sums, on a line of their own where there are no rows. */
  method AddTotals(bps: int, txns: seq<Row>, fromRows: map<Key, Summary>, aggs: seq<Totals>)
    returns (lines: map<Key, Summary>)
    requires forall k: Key :: k in fromRows <==> HasRows(txns, k)
    requires forall k | k in fromRows :: fromRows[k] == RowLine(txns, bps, k)
    ensures forall k: Key :: k in lines <==> HasRows(txns, k) || HasTotals(aggs, k)
    ensures forall k | k in lines :: lines[k] == WithLedger(RowLine(txns, bps, k), TotalsFor(aggs, k))
  {
    lines := fromRows;
    for i := 0 to |aggs|
      invariant forall k: Key :: k in lines <==> k in fromRows || HasTotals(aggs[..i], k)
      invariant forall k | k in lines :: lines[k] == WithLedger(RowLine(txns, bps, k), TotalsFor(aggs[..i], k))
    {
      var a := aggs[i];
      forall k: Key
        ensures HasTotals(aggs[..i + 1], k) <==> HasTotals(aggs[..i], k) || a.key == k
        ensures TotalsFor(aggs[..i + 1], k) == if a.key == k then a else TotalsFor(aggs[..i], k)
      {
        TotalsNext(aggs, i, k);
      }
      if a.key !in lines {
        NoRowsNoLine(bps, txns, a.key);
        lines := lines[a.key := EMPTY];
      }
      var line := lines[a.key];
      lines := lines[a.key := WithLedger(line, a)];
    }
    assert aggs[..|aggs|] == aggs;
  }

  lemma TotalsNext(aggs: seq<Totals>, i: nat, k: Key)
    requires i < |aggs|
    ensures HasTotals(aggs[..i + 1], k) <==> HasTotals(aggs[..i], k) || aggs[i].key == k
    ensures TotalsFor(aggs[..i + 1], k) == if aggs[i].key == k then aggs[i] else TotalsFor(aggs[..i], k)
  {
    assert aggs[..i + 1] == aggs[..i] + [aggs[i]];
    assert aggs[..i + 1][..i] == aggs[..i];
    if HasTotals(aggs[..i], k) {
      var a :| a in aggs[..i] && a.key == k;
      assert a in aggs[..i + 1];
    }
    if aggs[i].key == k {
      assert aggs[i] in aggs[..i + 1];
    }
  }

  lemma CleanIff(lines: map<Key, Summary>, found: seq<Discrepancy>)
    requires forall d :: d in found <==> IsDiscrepancy(lines, d)
    ensures found == [] <==> forall k | k in lines :: Balanced(lines[k])
  {
    if found == [] {
      forall k | k in lines
        ensures Balanced(lines[k])
      {
        var c := Checks(k, lines[k]);
        assert !IsDiscrepancy(lines, c[0]) && !IsDiscrepancy(lines, c[1]) && !IsDiscrepancy(lines, c[2]);
      }
    } else {
      assert IsDiscrepancy(lines, found[0]);
    }
  }

  lemma NoRowsNoLine(bps: int, txns: seq<Row>, k: Key)
    requires !HasRows(txns, k)
    ensures RowLine(txns, bps, k) == EMPTY
  {
    SumZero(txns, RowCount(k));
    SumZero(txns, RowCaptured(k));
    SumZero(txns, RowRefunded(k));
    SumZero(txns, RowFees(k, bps));
    SumZero(txns, RowNet(k, bps));
  }

  method SumRows(bps: int, txns: seq<Row>) returns (expected: map<Key, Summary>)
    ensures forall k: Key :: k in expected <==> HasRows(txns, k)
    ensures forall k | k in expected :: expected[k] == RowLine(txns, bps, k)
  {
    expected := map[];
    for i := 0 to |txns|
      invariant forall k: Key :: k in expected <==> HasRows(txns[..i], k)
      invariant forall k | k in expected :: expected[k] == RowLine(txns[..i], bps, k)
    {
      var t := txns[i];
      var k := KeyOf(t);
      ghost var seen := txns[..i];
      forall k': Key
        ensures RowLine(txns[..i + 1], bps, k') == AddRow(RowLine(seen, bps, k'), t, bps, k')
        ensures HasRows(txns[..i + 1], k') <==> HasRows(seen, k') || KeyOf(t) == k'
      {
        RowsNext(txns, i, bps, k');
      }
      if k !in expected {
        NoRowsNoLine(bps, seen, k);
        expected := expected[k := EMPTY];
      }
      var sum := expected[k];
      var fee := Fee(t.captured, bps);
      expected := expected[k := sum.(count := sum.count + 1, captured := sum.captured + t.captured,
                                     refunded := sum.refunded + t.refunded, fees := sum.fees + fee,
                                     net := sum.net + (t.captured - fee - t.refunded))];
    }
    assert txns[..|txns|] == txns;
  }

  function AddRow(line: Summary, t: Row, bps: int, k: Key): Summary {
    if KeyOf(t) != k then line
    else line.(count := line.count + 1, captured := line.captured + t.captured, refunded := line.refunded + t.refunded,
               fees := line.fees + Fee(t.captured, bps), net := line.net + NetPayable(t, bps))
  }

  lemma RowLineSnoc(txns: seq<Row>, t: Row, bps: int, k: Key)
    ensures RowLine(txns + [t], bps, k) == AddRow(RowLine(txns, bps, k), t, bps, k)
  {
    SumSnoc(txns, t, RowCount(k));
    SumSnoc(txns, t, RowCaptured(k));
    SumSnoc(txns, t, RowRefunded(k));
    SumSnoc(txns, t, RowFees(k, bps));
    SumSnoc(txns, t, RowNet(k, bps));
  }

  lemma RowsNext(txns: seq<Row>, i: nat, bps: int, k: Key)
    requires i < |txns|
    ensures RowLine(txns[..i + 1], bps, k) == AddRow(RowLine(txns[..i], bps, k), txns[i], bps, k)
    ensures HasRows(txns[..i + 1], k) <==> HasRows(txns[..i], k) || KeyOf(txns[i]) == k
  {
    assert txns[..i + 1] == txns[..i] + [txns[i]];
    RowLineSnoc(txns[..i], txns[i], bps, k);
    if HasRows(txns[..i], k) {
      var t :| t in txns[..i] && KeyOf(t) == k;
      assert t in txns[..i + 1];
    }
    if KeyOf(txns[i]) == k {
      assert txns[i] in txns[..i + 1];
    }
  }

  method Compare(lines: map<Key, Summary>) returns (found: seq<Discrepancy>)
    ensures forall d :: d in found <==> IsDiscrepancy(lines, d)
  {
    found := [];
    var left := lines.Keys;
    while left != {}
      invariant left <= lines.Keys
      invariant forall d :: d in found <==> IsDiscrepancy(lines, d) && d.key !in left
      decreases left
    {
      var k :| k in left;
      var checks := Checks(k, lines[k]);
      ghost var before := found;
      for i := 0 to 3
        invariant forall d :: d in found <==> d in before || (d in checks[..i] && d.expected != d.actual)
      {
        assert checks[..i + 1] == checks[..i] + [checks[i]];
        if checks[i].expected != checks[i].actual {
          found := found + [checks[i]];
        }
      }
      assert checks[..3] == checks;
      left := left - {k};
    }
  }

  /** Everything listed for the merchant, on either side, is in the one currency. */
  ghost predicate SingleCurrency(txns: seq<Row>, aggs: seq<Totals>, merchant: Id, c: Currency) {
    && (forall t | t in txns && t.merchant == merchant :: t.currency == c)
    && (forall a | a in aggs && a.key.merchant == merchant :: a.key.currency == c)
  }

  /** The settlement report of one merchant mixes currencies; on a day in a single currency it is the line the
      reconciliation compares, and it is balanced exactly when that line is. */
  method SettlementReport(bps: int, txns: seq<Row>, aggs: seq<Totals>, merchant: Id)
    returns (summary: Summary, balanced: bool)
    ensures balanced <==> Balanced(summary)
    ensures forall c | SingleCurrency(txns, aggs, merchant, c) ::
              summary == WithLedger(RowLine(txns, bps, Key(merchant, c)), TotalsFor(aggs, Key(merchant, c)))
  {
    summary := EMPTY;
    for i := 0 to |txns|
      invariant forall c | SingleCurrency(txns, aggs, merchant, c) ::
                  summary == RowLine(txns[..i], bps, Key(merchant, c))
    {
      var t := txns[i];
      assert txns[..i + 1] == txns[..i] + [t];
      forall c: Currency
        ensures RowLine(txns[..i + 1], bps, Key(merchant, c))
                == AddRow(RowLine(txns[..i], bps, Key(merchant, c)), t, bps, Key(merchant, c))
      {
        RowLineSnoc(txns[..i], t, bps, Key(merchant, c));
      }
      if t.merchant != merchant {
        continue;
      }
      var fee := Fee(t.captured, bps);
      summary := summary.(count := summary.count + 1, captured := summary.captured + t.captured,
                          refunded := summary.refunded + t.refunded, fees := summary.fees + fee,
                          net := summary.net + (t.captured - fee - t.refunded));
    }
    assert txns[..|txns|] == txns;
    ghost var rowSide := summary;
    for i := 0 to |aggs|
      invariant forall c | SingleCurrency(txns, aggs, merchant, c) ::
                  summary == WithLedger(rowSide, TotalsFor(aggs[..i], Key(merchant, c)))
    {
      var a := aggs[i];
      assert aggs[..i + 1][..i] == aggs[..i];
      if a.key.merchant != merchant {
        continue;
      }
      summary := WithLedger(summary, a);
    }
    assert aggs[..|aggs|] == aggs;
    balanced := summary.captured == summary.ledgerCaptured && summary.refunded == summary.ledgerRefunded
                && summary.fees == summary.ledgerFees;
  }

  /** The gate settlement stands behind. */
  ghost predicate Agrees(rows: map<Id, Row>, j: seq<Entry>, bps: int, from: int, to: int, txns: seq<Row>) {
    && FindUnbalancedGroups(j) == {}
    && forall k: Key | HasRows(txns, k) || HasActivity(rows, j, from, to, k) ::
         Balanced(WithLedger(RowLine(txns, bps, k), LedgerTotals(rows, j, from, to, k)))
  }

  /** A listing holds each of its rows once. */
  lemma {:induction false} DistinctCount(txns: seq<Row>, t: Row)
    requires DistinctIds(txns)
    ensures multiset(txns)[t] == if t in txns then 1 else 0
  {
    if txns != [] {
      var init, x := txns[..|txns| - 1], txns[|txns| - 1];
      assert txns == init + [x];
      DistinctCount(init, t);
      assert x !in init;
    }
  }

  lemma ListingsPermute(rows: map<Id, Row>, from: int, to: int, a: seq<Row>, b: seq<Row>)
    requires Lists(rows, from, to, a) && Lists(rows, from, to, b)
    ensures multiset(a) == multiset(b)
  {
    forall t: Row
      ensures multiset(a)[t] == multiset(b)[t]
    {
      assert t in a <==> t in b;
      DistinctCount(a, t);
      DistinctCount(b, t);
    }
  }

  lemma LinePermuted(a: seq<Row>, b: seq<Row>, bps: int, k: Key)
    requires multiset(a) == multiset(b)
    ensures RowLine(a, bps, k) == RowLine(b, bps, k) && (HasRows(a, k) <==> HasRows(b, k))
  {
    SumPermuted(a, b, RowCount(k));
    SumPermuted(a, b, RowCaptured(k));
    SumPermuted(a, b, RowRefunded(k));
    SumPermuted(a, b, RowFees(k, bps));
    SumPermuted(a, b, RowNet(k, bps));
    forall t: Row
      ensures t in a <==> t in b
    {
      assert t in multiset(a) <==> t in multiset(b);
    }
  }

  /** The verdict does not depend on the order in which the rows were listed. */
  lemma VerdictIgnoresOrder(rows: map<Id, Row>, j: seq<Entry>, bps: int, from: int, to: int, a: seq<Row>, b: seq<Row>)
    requires Lists(rows, from, to, a) && Lists(rows, from, to, b)
    ensures Agrees(rows, j, bps, from, to, a) <==> Agrees(rows, j, bps, from, to, b)
  {
    ListingsPermute(rows, from, to, a, b);
    forall k: Key
      ensures RowLine(a, bps, k) == RowLine(b, bps, k) && (HasRows(a, k) <==> HasRows(b, k))
    {
      LinePermuted(a, b, bps, k);
    }
  }

  // ---- running the queries ----

  /** SELECT ... WHERE captured_at is in the window, in whatever order ties come. */
  method ListCapturedBetween(rows: map<Id, Row>, from: int, to: int) returns (txns: seq<Row>)
    requires forall id | id in rows :: rows[id].id == id
    ensures Lists(rows, from, to, txns)
    ensures forall t | t in txns :: t.capturedAt.Some? && from <= t.capturedAt.value < to
    ensures forall id | id in rows && rows[id].capturedAt.Some? && from <= rows[id].capturedAt.value < to
                        && rows[id].status in {Captured, Settled, Refunded} :: rows[id] in txns
  {
    txns := [];
    var left := rows.Keys;
    while left != {}
      invariant left <= rows.Keys && DistinctIds(txns)
      invariant forall t | t in txns :: t.id in rows && rows[t.id] == t && t.id !in left && Listed(t, from, to)
      invariant forall id | id in rows && id !in left && Listed(rows[id], from, to) :: rows[id] in txns
      decreases left
    {
      var id :| id in left;
      left := left - {id};
      if Listed(rows[id], from, to) {
        txns := txns + [rows[id]];
      }
    }
  }

  /** GROUP BY merchant and currency over the journal lines joined to the window. */
  method AggregateByMerchant(rows: map<Id, Row>, j: seq<Entry>, from: int, to: int) returns (aggs: seq<Totals>)
    ensures Aggregates(rows, j, from, to, aggs)
  {
    aggs := [];
    for i := 0 to |j|
      invariant forall a, b | 0 <= a < b < |aggs| :: aggs[a].key != aggs[b].key
      invariant forall a | a in aggs :: a == LedgerTotals(rows, j, from, to, a.key)
      invariant forall k: Key :: HasActivity(rows, j[..i], from, to, k) <==> HasTotals(aggs, k)
    {
      var e := j[i];
      forall k: Key
        ensures HasActivity(rows, j[..i + 1], from, to, k)
                <==> HasActivity(rows, j[..i], from, to, k) || Joined(e, rows, from, to, k)
      {
        ActivityNext(rows, j, from, to, i, k);
      }
      if e.merchant.Some? {
        var key := Key(e.merchant.value, e.currency);
        if Joined(e, rows, from, to, key) && forall a | a in aggs :: a.key != key {
          ghost var had := aggs;
          aggs := aggs + [LedgerTotals(rows, j, from, to, key)];
          TotalsSnoc(had, LedgerTotals(rows, j, from, to, key));
        }
      }
    }
    assert j[..|j|] == j;
  }

  lemma ActivityNext(rows: map<Id, Row>, j: seq<Entry>, from: int, to: int, i: nat, k: Key)
    requires i < |j|
    ensures HasActivity(rows, j[..i + 1], from, to, k)
            <==> HasActivity(rows, j[..i], from, to, k) || Joined(j[i], rows, from, to, k)
  {
    assert j[..i + 1] == j[..i] + [j[i]];
    if HasActivity(rows, j[..i], from, to, k) {
      var e :| e in j[..i] && Joined(e, rows, from, to, k);
      assert e in j[..i + 1];
    }
    if Joined(j[i], rows, from, to, k) {
      assert j[i] in j[..i + 1];
    }
  }

  lemma TotalsSnoc(aggs: seq<Totals>, t: Totals)
    ensures forall k: Key :: HasTotals(aggs + [t], k) <==> HasTotals(aggs, k) || t.key == k
  {
    forall k: Key
      ensures HasTotals(aggs + [t], k) <==> HasTotals(aggs, k) || t.key == k
    {
      TotalsNext(aggs + [t], |aggs|, k);
      assert (aggs + [t])[..|aggs|] == aggs && (aggs + [t])[..|aggs| + 1] == aggs + [t];
    }
  }

  /** The report built from the two queries is clean exactly when the two sides agree on every key. */
  method Run(rows: map<Id, Row>, j: seq<Entry>, bps: int, from: int, to: int, txns: seq<Row>, aggs: seq<Totals>)
    returns (report: Report)
    requires Lists(rows, from, to, txns) && Aggregates(rows, j, from, to, aggs)
    ensures report.OK() <==> Agrees(rows, j, bps, from, to, txns)
  {
    report := BuildReport(bps, txns, aggs, FindUnbalancedGroups(j));
    forall k: Key | k in report.lines
      ensures TotalsFor(aggs, k) == LedgerTotals(rows, j, from, to, k)
    {
      TotalsForIs(aggs, k);
      if !HasTotals(aggs, k) {
        assert !HasActivity(rows, j, from, to, k);
        SumZero(j, JoinedCaptured(rows, from, to, k));
        SumZero(j, JoinedRefunded(rows, from, to, k));
        SumZero(j, JoinedFees(rows, from, to, k));
      }
    }
  }

  lemma {:induction false} TotalsForIs(aggs: seq<Totals>, k: Key)
    ensures HasTotals(aggs, k) ==> TotalsFor(aggs, k) in aggs && TotalsFor(aggs, k).key == k
    ensures !HasTotals(aggs, k) ==> TotalsFor(aggs, k) == Totals(k, 0, 0, 0)
  {
    if aggs != [] && aggs[|aggs| - 1].key != k {
      var init := aggs[..|aggs| - 1];
      TotalsForIs(init, k);
      assert HasTotals(aggs, k) ==> HasTotals(init, k) by {
        if HasTotals(aggs, k) {
          var a :| a in aggs && a.key == k;
          assert a in init;
        }
      }
    }
  }
}
