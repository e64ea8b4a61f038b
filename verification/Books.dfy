/** What every committed transaction keeps true of rows, journal and outbox together. */
module Books {
  import opened Sums
  import opened Money
  import opened Domain
  import opened Ledger
  import opened Protocol

  // ---- the invariant ----

  ghost predicate RowsInv(d: Database) {
    forall id | id in d.rows :: d.rows[id].id == id && RowOk(d.rows[id])
  }

  ghost predicate RefsInv(d: Database) {
    forall a, b | a in d.rows && b in d.rows && a != b ::
      d.rows[a].merchant != d.rows[b].merchant || d.rows[a].reference != d.rows[b].reference
  }

  /** A journal line belongs to a stored transaction and carries its merchant and currency. */
  predicate EntryFits(e: Entry, r: Row) {
    && e.txn == r.id && e.merchant == Some(r.merchant) && e.currency == r.currency
    && 0 < e.amount && e.direction != UnknownDirection
    && (e.account.MerchantPayable? ==> e.account.merchant == r.merchant)
  }

  ghost predicate EntriesInv(d: Database) {
    forall e | e in d.journal :: e.txn in d.rows && EntryFits(e, d.rows[e.txn])
  }

  /** The row against everything the journal says about it. */
  predicate Tallies(r: Row, v: View, bps: int) {
    && v.captured == r.captured
    && v.refunded == r.refunded
    && v.payable == v.captured - v.fees - v.refunded - v.paid
    && 0 <= v.fees && 0 <= v.paid
    && 0 <= v.lost <= (BPS_UNIT - 1) * v.parts
    && 0 <= v.parts && (v.parts == 0 <==> r.captured == 0)
    && (0 <= bps && FeeFits(r.captured, bps) ==> BPS_UNIT * v.fees + v.lost == r.captured * bps)
    && 0 <= v.payouts <= 1 && (v.payouts == 1 ==> r.settledAt.Some?) && (v.payouts == 0 ==> v.paid == 0)
  }

  ghost predicate LedgerInv(d: Database) {
    forall id | id in d.rows :: Tallies(d.rows[id], ViewOf(d.journal, id, d.bps), d.bps)
  }

  ghost predicate GroupsInv(d: Database) {
    && (forall g: Id :: Sum(d.journal, NetOfGroup(g)) == 0)
    && (forall c: Currency :: Sum(d.journal, NetOfCurrency(c)) == 0)
  }

  /** The successive states of one transaction, as the outbox announced them. */
  function History(outbox: seq<Event>, id: Id): seq<Row> {
    if outbox == [] then []
    else
      var h := History(outbox[..|outbox| - 1], id);
      if outbox[|outbox| - 1].txn == id then h + [outbox[|outbox| - 1].row] else h
  }

  /** The row as it was inserted. */
  function Origin(r: Row): Row {
    NewRow(r.id, r.merchant, r.reference, r.amount, r.currency, r.createdAt)
  }

  /** next is prev after exactly one lifecycle rule and one version-guarded write. */
  ghost predicate OneMove(prev: Row, next: Row) {
    exists m: Move, now: int :: ServiceMove(prev, m) && Moved(prev, m, now).Ok?
                                && next == Written(prev, Moved(prev, m, now).value, now)
  }

  /** origin, h[0], h[1], ... is a chain of the relation. */
  ghost predicate Chain(h: seq<Row>, origin: Row, rel: (Row, Row) -> bool) {
    h != [] ==> Chain(h[..|h| - 1], origin, rel) && rel(if |h| == 1 then origin else h[|h| - 2], h[|h| - 1])
  }

  /** h leads from the inserted row to r, one rule at a time, with versions 1, 2, 3, ... */
  ghost predicate Lineage(h: seq<Row>, r: Row) {
    && |h| == r.version
    && r == (if h == [] then Origin(r) else h[|h| - 1])
    && (forall k | 0 <= k < |h| :: h[k].version == k + 1)
    && Chain(h, Origin(r), OneMove)
  }

  ghost predicate HistoryInv(d: Database) {
    forall id | id in d.rows ::
      Lineage(History(d.outbox, id), d.rows[id])
      && d.rows[id].version + Measure(d.rows[id]) <= 2 * d.rows[id].amount + 4
  }

  ghost predicate OutboxInv(d: Database) {
    forall e | e in d.outbox :: e.txn in d.rows
  }

  ghost predicate BooksInv(d: Database) {
    && RowsInv(d) && RefsInv(d) && EntriesInv(d) && LedgerInv(d) && GroupsInv(d) && HistoryInv(d) && OutboxInv(d)
  }

  // ---- how one row moves ----

  /** The ways a row may change over any number of steps. */
  predicate Forward(r: Row, n: Row) {
    && SameIdentity(r, n)
    && r.version <= n.version && r.captured <= n.captured
    && (r.capturedAt.Some? ==> n.capturedAt == r.capturedAt)
    && (r.version == n.version ==> r == n)
    && (r.status != Created ==> n.status != Created && n.acquirerRef == r.acquirerRef
                                && n.failureCode == r.failureCode && (r.status == Failed <==> n.status == Failed))
    && (r.status in {Settled, Refunded} ==> n.status in {Settled, Refunded})
    && (r.status == Captured ==> n.status in {Captured, Settled, Refunded})
  }

  lemma OneMoveForward(r: Row, m: Move, now: int)
    requires RowOk(r) && Moved(r, m, now).Ok?
    ensures var w := Written(r, Moved(r, m, now).value, now);
            && TableChecks(w) && w.version == r.version + 1 && Measure(w) < Measure(r)
            && w == Moved(r, m, now).value.(version := r.version + 1, updatedAt := now)
            && (RowOk(w) <==> ServiceMove(r, m)) && (ServiceMove(r, m) ==> Forward(r, w) && OneMove(r, w))
  {
    MoveKeepsRow(r, m, now);
  }

  /** The table's CHECK constraints never refuse a write: the domain rules already imply them. */
  lemma ChecksAreRedundant(d: Database, now: int, id: Id, m: Move)
    requires RowsInv(d) && id in d.rows
    ensures Moved(d.rows[id], m, now).Ok? ==> Updated(d.rows, Moved(d.rows[id], m, now).value, now).Ok?
  {
    if Moved(d.rows[id], m, now).Ok? {
      OneMoveForward(d.rows[id], m, now);
    }
  }

  // ---- a commit, taken apart ----

  /** u is s with row id replaced by w, the lines g booked and the event queued. */
  ghost predicate Posted(d: Database, u: Database, id: Id, w: Row, g: seq<Entry>, kind: EventKind) {
    && id in d.rows && u.bps == d.bps && u.rows == d.rows[id := w] && u.journal == d.journal + g
    && u.outbox == d.outbox + [Event(id, kind, w)]
  }

  /** What a move does to the fields the rest of the system looks at. */
  predicate Effect(r: Row, w: Row, m: Move) {
    && (m.Capture? || w.captured == r.captured) && (m.Refund? || w.refunded == r.refunded)
    && w.status != Created
    && match m
       case Authorize(ref, _, _) => r.status == Created && w.status == Authorized && w.acquirerRef == ref
       case Fail(code) => r.status == Created && w.status == Failed && w.failureCode == code
       case Void => r.status == Authorized && w.status == Voided
       case Capture(a) => r.status in {Authorized, Captured} && w.captured == r.captured + a
       case Refund(a) => r.status in {Captured, Settled} && w.refunded == r.refunded + a
       case Settle => r.status == Captured && w.status == Settled
  }

  /** The row after one more committed move. */
  ghost predicate Successor(r: Row, w: Row, m: Move) {
    && RowOk(w) && w.id == r.id && Forward(r, w) && w.version == r.version + 1 && Measure(w) < Measure(r)
    && OneMove(r, w) && Effect(r, w, m)
  }

  /** A balanced group of the transaction that keeps its journal in step with its row; only a capture books fees. */
  ghost predicate GroupOk(r: Row, w: Row, g: seq<Entry>, group: Id, bps: int) {
    && (forall e | e in g :: EntryFits(e, w) && e.group == group)
    && Sum(g, NetAmount) == 0
    && (w.captured == r.captured ==> ViewOf(g, w.id, bps).fees == 0)
    && forall v: View :: Tallies(r, v, bps) ==> Tallies(w, v.Plus(ViewOf(g, w.id, bps)), bps)
  }

  /** Every committed transaction posts a successor row and a sound group. */
  lemma TransactPosts(d: Database, now: int, id: Id, m: Move, group: Id) returns (w: Row, g: seq<Entry>)
    requires RowsInv(d) && id in d.rows && ServiceMove(d.rows[id], m)
    requires Transact(d, now, id, m, group).Ok?
    ensures w == Written(d.rows[id], Moved(d.rows[id], m, now).value, now)
    ensures GroupFor(w, m, d.bps, group, now) == Ok(g)
    ensures Posted(d, Transact(d, now, id, m, group).value, id, w, g, EventFor(m))
    ensures Successor(d.rows[id], w, m) && GroupOk(d.rows[id], w, g, group, d.bps)
  {
    var r := d.rows[id];
    ChecksAreRedundant(d, now, id, m);
    w := Written(r, Moved(r, m, now).value, now);
    g := GroupFor(w, m, d.bps, group, now).value;
    MoveSucceeds(r, w, m, now);
    GroupSound(r, w, g, m, d.bps, group, now);
  }

  lemma MoveSucceeds(r: Row, w: Row, m: Move, now: int)
    requires RowOk(r) && ServiceMove(r, m) && Moved(r, m, now).Ok? && w == Written(r, Moved(r, m, now).value, now)
    ensures Successor(r, w, m)
  {
    OneMoveForward(r, m, now);
  }

  lemma GroupSound(r: Row, w: Row, g: seq<Entry>, m: Move, bps: int, group: Id, now: int)
    requires RowOk(r) && ServiceMove(r, m) && Moved(r, m, now).Ok? && w == Written(r, Moved(r, m, now).value, now)
    requires GroupFor(w, m, bps, group, now) == Ok(g)
    ensures GroupOk(r, w, g, group, bps)
  {
    GroupFits(w, m, bps, group, now);
    MovedMoney(r, m, now);
    ViewOfMove(w, m, bps, group, now);
    forall v: View | Tallies(r, v, bps)
      ensures Tallies(w, v.Plus(ViewOf(g, w.id, bps)), bps)
    {
      MoveTallies(r, w, v, m, bps, group, now);
    }
  }

  /** Every booked group is a valid double entry of the moved row. */
  lemma GroupFits(w: Row, m: Move, bps: int, group: Id, now: int)
    requires GroupFor(w, m, bps, group, now).Ok?
    ensures var g := GroupFor(w, m, bps, group, now).value;
            && (forall e | e in g :: EntryFits(e, w) && e.group == group)
            && Sum(g, NetAmount) == 0
  {
    var g := GroupFor(w, m, bps, group, now).value;
    if g != [] {
      GroupErrorNoneIff(g);
    }
  }

  /** The journal's view of the moved row, before and after. */
  lemma ViewOfMove(w: Row, m: Move, bps: int, group: Id, now: int)
    requires GroupFor(w, m, bps, group, now).Ok?
    ensures ViewOf(GroupFor(w, m, bps, group, now).value, w.id, bps) ==
            match m
            case Capture(a) => View(a, 0, Fee(a, bps), Remainder(a, bps), 1, 0, 0, a - Fee(a, bps))
            case Refund(a) => View(0, a, 0, 0, 0, 0, 0, -a)
            case Settle =>
              var net := NetPayable(w, bps);
              if net > 0 then View(0, 0, 0, 0, 0, net, 1, -net) else NO_ACTIVITY
            case Authorize(_, _, _) => NO_ACTIVITY
            case Fail(_) => NO_ACTIVITY
            case Void => NO_ACTIVITY
  {
    match m
    case Capture(a) => ViewOfCapture(w, a, Fee(a, bps), group, now, bps);
    case Refund(a) => ViewOfRefund(w, a, group, now, bps);
    case Settle => if NetPayable(w, bps) > 0 { ViewOfSettlement(w, NetPayable(w, bps), group, now, bps); }
    case _ =>
  }

  /** One more capture: its fee and the fraction it lost make up its exact share. */
  lemma CaptureShare(captured: int, v: View, a: int, bps: int)
    requires 0 <= captured && 0 < a && 0 <= bps && FeeFits(captured + a, bps)
    requires FeeFits(captured, bps) ==> BPS_UNIT * v.fees + v.lost == captured * bps
    ensures BPS_UNIT * (v.fees + Fee(a, bps)) + (v.lost + Remainder(a, bps)) == (captured + a) * bps
  {
    ProductMonotone(a, captured + a, bps);
    ProductMonotone(captured, captured + a, bps);
    FeeIsFloor(a, bps);
    assert (captured + a) * bps == captured * bps + a * bps;
  }

  lemma CaptureTallies(r: Row, w: Row, v: View, a: int, bps: int)
    requires Tallies(r, v, bps) && 0 <= r.captured && 0 < a && 0 <= Fee(a, bps)
    requires w.captured == r.captured + a && w.refunded == r.refunded && w.settledAt == r.settledAt
    ensures Tallies(w, v.Plus(View(a, 0, Fee(a, bps), Remainder(a, bps), 1, 0, 0, a - Fee(a, bps))), bps)
  {
    if 0 <= bps && FeeFits(w.captured, bps) {
      CaptureShare(r.captured, v, a, bps);
    }
  }

  lemma RefundTallies(r: Row, w: Row, v: View, a: int, bps: int)
    requires Tallies(r, v, bps) && w.captured == r.captured && w.refunded == r.refunded + a
    requires w.settledAt == r.settledAt
    ensures Tallies(w, v.Plus(View(0, a, 0, 0, 0, 0, 0, -a)), bps)
  {
  }

  lemma SettleTallies(r: Row, w: Row, v: View, net: int, bps: int)
    requires Tallies(r, v, bps) && w.captured == r.captured && w.refunded == r.refunded
    requires r.settledAt.None? && w.settledAt.Some?
    ensures Tallies(w, v.Plus(if net > 0 then View(0, 0, 0, 0, 0, net, 1, -net) else NO_ACTIVITY), bps)
  {
  }

  lemma IdleTallies(r: Row, w: Row, v: View, bps: int)
    requires Tallies(r, v, bps) && w.captured == r.captured && w.refunded == r.refunded && w.settledAt == r.settledAt
    ensures Tallies(w, v.Plus(NO_ACTIVITY), bps)
  {
  }

  /** What a move leaves of the fields the tallies look at. */
  lemma MovedMoney(r: Row, m: Move, now: int)
    requires RowOk(r) && ServiceMove(r, m) && Moved(r, m, now).Ok?
    ensures var w := Written(r, Moved(r, m, now).value, now);
            && w.captured == r.captured + (if m.Capture? then m.amount else 0)
            && w.refunded == r.refunded + (if m.Refund? then m.amount else 0)
            && (if m.Settle? then r.settledAt.None? && w.settledAt.Some? else w.settledAt == r.settledAt)
            && (m.Capture? ==> 0 < m.amount)
  {
  }

  lemma MoveTallies(r: Row, w: Row, v: View, m: Move, bps: int, group: Id, now: int)
    requires RowOk(r) && ServiceMove(r, m) && Moved(r, m, now).Ok? && Tallies(r, v, bps)
    requires w == Written(r, Moved(r, m, now).value, now) && GroupFor(w, m, bps, group, now).Ok?
    ensures Tallies(w, v.Plus(ViewOf(GroupFor(w, m, bps, group, now).value, w.id, bps)), bps)
  {
    MovedMoney(r, m, now);
    ViewOfMove(w, m, bps, group, now);
    match m
    case Capture(a) =>
      CaptureGroupIff(w, a, Fee(a, bps), group, now);
      CaptureTallies(r, w, v, a, bps);
    case Refund(a) => RefundTallies(r, w, v, a, bps);
    case Settle => SettleTallies(r, w, v, NetPayable(w, bps), bps);
    case _ => IdleTallies(r, w, v, bps);
  }

  // ---- preservation, part by part ----

  lemma PostKeepsRows(d: Database, u: Database, id: Id, w: Row, g: seq<Entry>, kind: EventKind)
    requires RowsInv(d) && RefsInv(d) && Posted(d, u, id, w, g, kind) && RowOk(w) && Forward(d.rows[id], w)
    ensures RowsInv(u) && RefsInv(u)
    ensures forall x | x in d.rows :: x in u.rows && Forward(d.rows[x], u.rows[x])
  {
  }

  lemma PostKeepsEntries(d: Database, u: Database, id: Id, w: Row, g: seq<Entry>, kind: EventKind)
    requires EntriesInv(d) && Posted(d, u, id, w, g, kind) && SameIdentity(d.rows[id], w) && w.id == id
    requires forall e | e in g :: EntryFits(e, w)
    ensures EntriesInv(u)
  {
  }

  /** Only the moved transaction's view changes. */
  lemma PostKeepsOtherViews(d: Database, u: Database, id: Id, w: Row, g: seq<Entry>, kind: EventKind, x: Id)
    requires Posted(d, u, id, w, g, kind) && x != id && w.id == id && forall e | e in g :: EntryFits(e, w)
    ensures ViewOf(u.journal, x, d.bps) == ViewOf(d.journal, x, d.bps)
  {
    ViewIgnoresOthers(d.journal, g, x, d.bps);
  }

  lemma PostKeepsLedger(d: Database, u: Database, id: Id, w: Row, g: seq<Entry>, kind: EventKind, group: Id)
    requires LedgerInv(d) && Posted(d, u, id, w, g, kind) && w.id == id && GroupOk(d.rows[id], w, g, group, d.bps)
    ensures LedgerInv(u)
  {
    forall x | x in u.rows
      ensures Tallies(u.rows[x], ViewOf(u.journal, x, u.bps), u.bps)
    {
      if x == id {
        ViewConcat(d.journal, g, id, d.bps);
      } else {
        PostKeepsOtherViews(d, u, id, w, g, kind, x);
      }
    }
  }

  lemma PostKeepsGroups(d: Database, u: Database, id: Id, w: Row, g: seq<Entry>, kind: EventKind, group: Id)
    requires GroupsInv(d) && Posted(d, u, id, w, g, kind) && FreshGroup(d.journal, group)
    requires GroupOk(d.rows[id], w, g, group, d.bps)
    ensures GroupsInv(u)
  {
    forall x: Id
      ensures Sum(u.journal, NetOfGroup(x)) == 0
    {
      SumConcat(d.journal, g, NetOfGroup(x));
      if x == group {
        SumEqual(g, NetOfGroup(x), NetAmount);
      } else {
        SumZero(g, NetOfGroup(x));
      }
    }
    forall c: Currency
      ensures Sum(u.journal, NetOfCurrency(c)) == 0
    {
      SumConcat(d.journal, g, NetOfCurrency(c));
      if c == w.currency {
        SumEqual(g, NetOfCurrency(c), NetAmount);
      } else {
        SumZero(g, NetOfCurrency(c));
      }
    }
  }

  lemma ChainExtends(h: seq<Row>, origin: Row, rel: (Row, Row) -> bool, w: Row)
    requires Chain(h, origin, rel) && rel(if h == [] then origin else h[|h| - 1], w)
    ensures Chain(h + [w], origin, rel)
  {
    assert (h + [w])[..|h|] == h;
  }

  lemma LineageExtends(h: seq<Row>, r: Row, w: Row)
    requires Lineage(h, r) && OneMove(r, w) && w.version == r.version + 1 && SameIdentity(r, w)
    ensures Lineage(h + [w], w)
  {
    assert Origin(w) == Origin(r);
    ChainExtends(h, Origin(r), OneMove, w);
  }

  lemma PostKeepsHistory(d: Database, u: Database, id: Id, w: Row, g: seq<Entry>, kind: EventKind)
    requires HistoryInv(d) && OutboxInv(d) && Posted(d, u, id, w, g, kind)
    requires OneMove(d.rows[id], w) && w.version == d.rows[id].version + 1 && SameIdentity(d.rows[id], w)
    requires Measure(w) < Measure(d.rows[id])
    ensures HistoryInv(u) && OutboxInv(u)
  {
    assert u.outbox[..|u.outbox| - 1] == d.outbox;
    LineageExtends(History(d.outbox, id), d.rows[id], w);
    forall x | x in u.rows
      ensures Lineage(History(u.outbox, x), u.rows[x])
    {
      assert History(u.outbox, x) == if x == id then History(d.outbox, x) + [w] else History(d.outbox, x);
    }
  }

  lemma PostKeepsBooks(d: Database, u: Database, id: Id, w: Row, g: seq<Entry>, m: Move, group: Id)
    requires BooksInv(d) && Posted(d, u, id, w, g, EventFor(m)) && FreshGroup(d.journal, group)
    requires Successor(d.rows[id], w, m) && GroupOk(d.rows[id], w, g, group, d.bps)
    ensures BooksInv(u)
  {
    PostKeepsRows(d, u, id, w, g, EventFor(m));
    PostKeepsEntries(d, u, id, w, g, EventFor(m));
    PostKeepsLedger(d, u, id, w, g, EventFor(m), group);
    PostKeepsGroups(d, u, id, w, g, EventFor(m), group);
    PostKeepsHistory(d, u, id, w, g, EventFor(m));
  }

  // ---- inserting a row ----

  lemma {:induction false} NoHistory(outbox: seq<Event>, id: Id)
    requires forall e | e in outbox :: e.txn != id
    ensures History(outbox, id) == []
  {
    if outbox != [] {
      NoHistory(outbox[..|outbox| - 1], id);
      assert outbox[|outbox| - 1] in outbox;
    }
  }

  /** u is s with the new row r. */
  ghost predicate Inserted(d: Database, u: Database, r: Row) {
    && r.id !in d.rows && r == Origin(r) && 0 < r.amount && !ReferenceTaken(d.rows, r.merchant, r.reference)
    && u.bps == d.bps && u.rows == d.rows[r.id := r] && u.journal == d.journal && u.outbox == d.outbox
  }

  lemma InsertKeepsRows(d: Database, u: Database, r: Row)
    requires RowsInv(d) && RefsInv(d) && EntriesInv(d) && Inserted(d, u, r)
    ensures RowsInv(u) && RefsInv(u) && EntriesInv(u)
    ensures forall x | x in d.rows :: x in u.rows && Forward(d.rows[x], u.rows[x])
  {
    forall a | a in d.rows
      ensures d.rows[a].merchant != r.merchant || d.rows[a].reference != r.reference
    {
      assert !HasReference(d.rows, a, r.merchant, r.reference);
    }
  }

  lemma InsertKeepsLedger(d: Database, u: Database, r: Row)
    requires EntriesInv(d) && LedgerInv(d) && Inserted(d, u, r)
    ensures LedgerInv(u)
  {
    ViewOfOthers(d.journal, r.id, d.bps);
  }

  lemma InsertKeepsHistory(d: Database, u: Database, r: Row)
    requires HistoryInv(d) && OutboxInv(d) && Inserted(d, u, r)
    ensures HistoryInv(u) && OutboxInv(u)
  {
    NoHistory(d.outbox, r.id);
  }

  lemma InsertKeepsBooks(d: Database, u: Database, r: Row)
    requires BooksInv(d) && Inserted(d, u, r)
    ensures BooksInv(u)
    ensures forall x | x in d.rows :: x in u.rows && Forward(d.rows[x], u.rows[x])
  {
    InsertKeepsRows(d, u, r);
    InsertKeepsLedger(d, u, r);
    InsertKeepsHistory(d, u, r);
  }

  // ---- consequences read off the invariant ----

  /** No entry group is ever unbalanced, and debits equal credits in every currency. */
  lemma BooksBalance(d: Database)
    requires GroupsInv(d)
    ensures JournalBalanced(d.journal)
  {
    forall e | e in d.journal
      ensures Sum(d.journal, GroupDebit(e.group)) == Sum(d.journal, GroupCredit(e.group))
    {
      GroupNetSplits(d.journal, e.group);
    }
  }

  /** With n captures booked the fee on the total exceeds the booked fees by at most n - 1 units, and they agree
      exactly when the parts of the fees lost to truncation add up to less than one unit. */
  lemma FeeDrift(r: Row, v: View, bps: int)
    requires Tallies(r, v, bps) && 0 <= bps && FeeFits(r.captured, bps) && 0 < r.captured
    ensures v.fees <= Fee(r.captured, bps) <= v.fees + v.parts - 1
    ensures Fee(r.captured, bps) == v.fees <==> v.lost < BPS_UNIT
    ensures v.parts == 1 ==> Fee(r.captured, bps) == v.fees
  {
    FeeOfTotal(r.captured, bps, v.fees, v.lost);
    assert v.lost < BPS_UNIT * v.parts;
    assert v.lost / BPS_UNIT <= v.parts - 1;
  }
}
