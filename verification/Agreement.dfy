/** When the two sides of the reconciliation agree, what settlement then pays, and what a balance is. */
module Agreement {
  import opened Sums
  import opened Money
  import opened Domain
  import opened Ledger
  import opened Reconciliation
  import opened Protocol
  import opened Books

  /** Every captured amount listed under the key is small enough for its fee to be exact in 64 bits. */
  predicate KeyFits(txns: seq<Row>, bps: int, k: Key) {
    0 <= bps && forall t | t in txns && KeyOf(t) == k :: FeeFits(t.captured, bps)
  }

  predicate AllFit(txns: seq<Row>, bps: int) {
    0 <= bps && forall t | t in txns :: FeeFits(t.captured, bps)
  }

  // ---- summing the journal transaction by transaction ----

  function IdsOf(txns: seq<Row>, k: Key): set<Id> {
    set t | t in txns && KeyOf(t) == k :: t.id
  }

  function Within(ids: set<Id>, f: Id -> Entry -> int): Entry -> int {
    (e: Entry) => if e.txn in ids then f(e.txn)(e) else 0
  }

  function PerRow(j: seq<Entry>, f: Id -> Entry -> int, k: Key): Row -> int {
    (t: Row) => if KeyOf(t) == k then Sum(j, f(t.id)) else 0
  }

  /** A journal sum over a set of transactions is the sum, over those transactions, of their journal sums. */
  lemma {:induction false} SumByTransaction(j: seq<Entry>, txns: seq<Row>, k: Key, f: Id -> Entry -> int)
    requires DistinctIds(txns)
    requires forall id: Id, e: Entry :: e.txn != id ==> f(id)(e) == 0
    ensures Sum(j, Within(IdsOf(txns, k), f)) == Sum(txns, PerRow(j, f, k))
  {
    if txns == [] {
      SumZero(j, Within(IdsOf(txns, k), f));
    } else {
      var init, t := txns[..|txns| - 1], txns[|txns| - 1];
      SumByTransaction(j, init, k, f);
      var before, after := IdsOf(init, k), IdsOf(txns, k);
      assert txns == init + [t];
      if KeyOf(t) == k {
        assert after == before + {t.id};
        assert t.id !in before;
        SumPlus(j, Within(after, f), Within(before, f), f(t.id));
      } else {
        assert after == before;
      }
    }
  }

  /** In sound books the joined journal lines under k are those of the listed transactions of k. */
  lemma JoinIsListing(d: Database, from: int, to: int, txns: seq<Row>, k: Key, e: Entry)
    requires RowsInv(d) && EntriesInv(d) && Lists(d.rows, from, to, txns) && e in d.journal
    ensures Joined(e, d.rows, from, to, k) <==> e.txn in IdsOf(txns, k)
  {
    var r := d.rows[e.txn];
    assert EntryFits(e, r);
    if e.txn in IdsOf(txns, k) {
      var t :| t in txns && KeyOf(t) == k && t.id == e.txn;
    }
    if Joined(e, d.rows, from, to, k) {
      assert Listed(r, from, to);
    }
  }

  lemma LedgerTotalsByRow(d: Database, from: int, to: int, txns: seq<Row>, k: Key)
    requires RowsInv(d) && EntriesInv(d) && Lists(d.rows, from, to, txns)
    ensures var l := LedgerTotals(d.rows, d.journal, from, to, k);
            && l.captured == Sum(txns, PerRow(d.journal, CaptureDebit, k))
            && l.refunded == Sum(txns, PerRow(d.journal, RefundCredit, k))
            && l.fees == Sum(txns, PerRow(d.journal, FeeCredit, k))
  {
    var ids := IdsOf(txns, k);
    forall e | e in d.journal
      ensures JoinedCaptured(d.rows, from, to, k)(e) == Within(ids, CaptureDebit)(e)
      ensures JoinedRefunded(d.rows, from, to, k)(e) == Within(ids, RefundCredit)(e)
      ensures JoinedFees(d.rows, from, to, k)(e) == Within(ids, FeeCredit)(e)
    {
      JoinIsListing(d, from, to, txns, k, e);
    }
    SumEqual(d.journal, JoinedCaptured(d.rows, from, to, k), Within(ids, CaptureDebit));
    SumEqual(d.journal, JoinedRefunded(d.rows, from, to, k), Within(ids, RefundCredit));
    SumEqual(d.journal, JoinedFees(d.rows, from, to, k), Within(ids, FeeCredit));
    SumByTransaction(d.journal, txns, k, CaptureDebit);
    SumByTransaction(d.journal, txns, k, RefundCredit);
    SumByTransaction(d.journal, txns, k, FeeCredit);
  }

  // ---- agreement ----

  /** Captures of the rows of k beyond the first of each row. */
  function ExtraCaptures(j: seq<Entry>, bps: int, k: Key): Row -> int {
    (t: Row) => if KeyOf(t) == k then ViewOf(j, t.id, bps).parts - 1 else 0
  }

  lemma ListedRow(d: Database, from: int, to: int, txns: seq<Row>, t: Row)
    requires RowsInv(d) && LedgerInv(d) && Lists(d.rows, from, to, txns) && t in txns
    ensures RowOk(t) && 0 < t.captured
    ensures Tallies(t, ViewOf(d.journal, t.id, d.bps), d.bps)
    ensures Sum(d.journal, CaptureDebit(t.id)) == t.captured
    ensures Sum(d.journal, RefundCredit(t.id)) == t.refunded
    ensures Sum(d.journal, FeeCredit(t.id)) == ViewOf(d.journal, t.id, d.bps).fees
  {
    assert d.rows[t.id] == t;
    ViewIsSums(d.journal, t.id, d.bps);
  }

  /** Captured and refunded totals always reconcile. The fee totals differ by at most one unit for each
      capture after the first of a transaction, always in the same direction. */
  lemma TotalsReconcile(d: Database, from: int, to: int, txns: seq<Row>, k: Key)
    requires RowsInv(d) && EntriesInv(d) && LedgerInv(d) && Lists(d.rows, from, to, txns)
    ensures var line, l := RowLine(txns, d.bps, k), LedgerTotals(d.rows, d.journal, from, to, k);
            && line.captured == l.captured && line.refunded == l.refunded
            && (KeyFits(txns, d.bps, k) ==>
                  l.fees <= line.fees <= l.fees + Sum(txns, ExtraCaptures(d.journal, d.bps, k)))
  {
    LedgerTotalsByRow(d, from, to, txns, k);
    forall t | t in txns
      ensures RowCaptured(k)(t) == PerRow(d.journal, CaptureDebit, k)(t)
      ensures RowRefunded(k)(t) == PerRow(d.journal, RefundCredit, k)(t)
    {
      ListedRow(d, from, to, txns, t);
    }
    SumEqual(txns, RowCaptured(k), PerRow(d.journal, CaptureDebit, k));
    SumEqual(txns, RowRefunded(k), PerRow(d.journal, RefundCredit, k));
    if KeyFits(txns, d.bps, k) {
      FeesAtMost(d, from, to, txns, k);
      var most := (t: Row) => PerRow(d.journal, FeeCredit, k)(t) + ExtraCaptures(d.journal, d.bps, k)(t);
      SumAtMost(txns, PerRow(d.journal, FeeCredit, k), RowFees(k, d.bps));
      SumAtMost(txns, RowFees(k, d.bps), most);
      SumPlus(txns, most, PerRow(d.journal, FeeCredit, k), ExtraCaptures(d.journal, d.bps, k));
    }
  }

  lemma FeesAtMost(d: Database, from: int, to: int, txns: seq<Row>, k: Key)
    requires RowsInv(d) && LedgerInv(d) && KeyFits(txns, d.bps, k) && Lists(d.rows, from, to, txns)
    ensures forall t | t in txns ::
              && PerRow(d.journal, FeeCredit, k)(t) <= RowFees(k, d.bps)(t)
              && RowFees(k, d.bps)(t) <= PerRow(d.journal, FeeCredit, k)(t) + ExtraCaptures(d.journal, d.bps, k)(t)
  {
    forall t | t in txns
      ensures PerRow(d.journal, FeeCredit, k)(t) <= RowFees(k, d.bps)(t)
      ensures RowFees(k, d.bps)(t) <= PerRow(d.journal, FeeCredit, k)(t) + ExtraCaptures(d.journal, d.bps, k)(t)
    {
      ListedRow(d, from, to, txns, t);
      if KeyOf(t) == k {
        FeeDrift(t, ViewOf(d.journal, t.id, d.bps), d.bps);
      }
    }
  }

  /** Equal fee totals force equal fees for every single transaction of the key. */
  lemma AgreementIsPerTransaction(d: Database, from: int, to: int, txns: seq<Row>, t: Row)
    requires RowsInv(d) && EntriesInv(d) && LedgerInv(d)
    requires Lists(d.rows, from, to, txns) && t in txns && KeyFits(txns, d.bps, KeyOf(t))
    requires Agrees(d.rows, d.journal, d.bps, from, to, txns)
    ensures ViewOf(d.journal, t.id, d.bps).fees == Fee(t.captured, d.bps)
  {
    var k := KeyOf(t);
    assert HasRows(txns, k);
    assert Balanced(WithLedger(RowLine(txns, d.bps, k), LedgerTotals(d.rows, d.journal, from, to, k)));
    LedgerTotalsByRow(d, from, to, txns, k);
    FeesAtMost(d, from, to, txns, k);
    SumTight(txns, PerRow(d.journal, FeeCredit, k), RowFees(k, d.bps));
    assert PerRow(d.journal, FeeCredit, k)(t) == RowFees(k, d.bps)(t);
    ListedRow(d, from, to, txns, t);
  }

  lemma SmallLossesBalance(d: Database, from: int, to: int, txns: seq<Row>, k: Key)
    requires RowsInv(d) && EntriesInv(d) && LedgerInv(d) && Lists(d.rows, from, to, txns) && AllFit(txns, d.bps)
    requires forall t | t in txns :: ViewOf(d.journal, t.id, d.bps).lost < BPS_UNIT
    ensures Balanced(WithLedger(RowLine(txns, d.bps, k), LedgerTotals(d.rows, d.journal, from, to, k)))
  {
    TotalsReconcile(d, from, to, txns, k);
    LedgerTotalsByRow(d, from, to, txns, k);
    forall t | t in txns
      ensures PerRow(d.journal, FeeCredit, k)(t) == RowFees(k, d.bps)(t)
    {
      ListedRow(d, from, to, txns, t);
      FeeDrift(t, ViewOf(d.journal, t.id, d.bps), d.bps);
    }
    SumEqual(txns, PerRow(d.journal, FeeCredit, k), RowFees(k, d.bps));
  }

  /** The day reconciles exactly when, for every transaction captured in it, the fractions its captures lost to
      truncation add up to less than one unit. Unbalanced groups and stray journal lines never spoil a report. */
  lemma AgreesIff(d: Database, from: int, to: int, txns: seq<Row>)
    requires RowsInv(d) && EntriesInv(d) && LedgerInv(d) && GroupsInv(d)
    requires Lists(d.rows, from, to, txns) && AllFit(txns, d.bps)
    ensures Agrees(d.rows, d.journal, d.bps, from, to, txns)
            <==> forall t | t in txns :: ViewOf(d.journal, t.id, d.bps).lost < BPS_UNIT
  {
    BooksBalance(d);
    if Agrees(d.rows, d.journal, d.bps, from, to, txns) {
      forall t | t in txns
        ensures ViewOf(d.journal, t.id, d.bps).lost < BPS_UNIT
      {
        AgreementIsPerTransaction(d, from, to, txns, t);
        ListedRow(d, from, to, txns, t);
        FeeDrift(t, ViewOf(d.journal, t.id, d.bps), d.bps);
      }
    }
    if forall t | t in txns :: ViewOf(d.journal, t.id, d.bps).lost < BPS_UNIT {
      forall k: Key
        ensures Balanced(WithLedger(RowLine(txns, d.bps, k), LedgerTotals(d.rows, d.journal, from, to, k)))
      {
        SmallLossesBalance(d, from, to, txns, k);
      }
    }
  }

  /** A day on which every transaction was captured in one piece always reconciles. */
  lemma SingleCapturesReconcile(d: Database, from: int, to: int, txns: seq<Row>)
    requires BooksInv(d) && Lists(d.rows, from, to, txns) && AllFit(txns, d.bps)
    requires forall t | t in txns :: ViewOf(d.journal, t.id, d.bps).parts == 1
    ensures Agrees(d.rows, d.journal, d.bps, from, to, txns)
  {
    forall t | t in txns
      ensures ViewOf(d.journal, t.id, d.bps).lost < BPS_UNIT
    {
      ListedRow(d, from, to, txns, t);
    }
    AgreesIff(d, from, to, txns);
  }

  // ---- what settlement pays ----

  /** A captured row can always be settled. */
  lemma SettleCommits(d: Database, now: int, id: Id, group: Id)
    requires RowsInv(d) && id in d.rows && d.rows[id].status == Captured
    ensures Transact(d, now, id, Settle, group).Ok?
  {
    ChecksAreRedundant(d, now, id, Settle);
    var w := Written(d.rows[id], Moved(d.rows[id], Settle, now).value, now);
    TwoLegGroupsOk(w, NetPayable(w, d.bps), group, now);
  }

  /** It ends settled with its money untouched, and no other row changes. */
  lemma SettledRow(d: Database, now: int, id: Id, group: Id, u: Database)
    requires RowsInv(d) && id in d.rows && d.rows[id].status == Captured && Transact(d, now, id, Settle, group) == Ok(u)
    ensures RowsInv(u) && u.rows.Keys == d.rows.Keys
    ensures u.rows[id].status == Settled && u.rows[id].captured == d.rows[id].captured
            && u.rows[id].refunded == d.rows[id].refunded
    ensures forall x | x in d.rows && x != id :: u.rows[x] == d.rows[x]
  {
    var w, g := TransactPosts(d, now, id, Settle, group);
  }

  /** What the settlement group adds to the transaction's view. */
  lemma SettlementView(d: Database, now: int, id: Id, group: Id)
    requires RowsInv(d) && id in d.rows && d.rows[id].status == Captured && Transact(d, now, id, Settle, group).Ok?
    ensures var net := NetPayable(d.rows[id], d.bps);
            ViewOf(Transact(d, now, id, Settle, group).value.journal, id, d.bps) ==
            ViewOf(d.journal, id, d.bps).Plus(if net > 0 then View(0, 0, 0, 0, 0, net, 1, -net) else NO_ACTIVITY)
  {
    var w, g := TransactPosts(d, now, id, Settle, group);
    ViewConcat(d.journal, g, id, d.bps);
    ViewOfMove(w, Settle, d.bps, group, now);
  }

  /** Settling never pays out more than the merchant is owed: what stays behind is the fee drift, and where the
      booked fees agree with the fee on the total the transaction's payable is left at exactly min(net, 0). */
  lemma SettlementDischarges(d: Database, now: int, id: Id, group: Id)
    requires RowsInv(d) && LedgerInv(d) && id in d.rows && d.rows[id].status == Captured
    requires 0 <= d.bps && FeeFits(d.rows[id].captured, d.bps)
    ensures Transact(d, now, id, Settle, group).Ok?
    ensures var before, after := ViewOf(d.journal, id, d.bps),
                                 ViewOf(Transact(d, now, id, Settle, group).value.journal, id, d.bps);
            var net := NetPayable(d.rows[id], d.bps);
            var drift := Fee(d.rows[id].captured, d.bps) - before.fees;
            && 0 <= drift <= before.parts - 1
            && after.payable == Min(net, 0) + drift
            && after.payouts == (if net > 0 then 1 else 0)
  {
    SettleCommits(d, now, id, group);
    SettlementView(d, now, id, group);
    FeeDrift(d.rows[id], ViewOf(d.journal, id, d.bps), d.bps);
  }

  // ---- balances ----

  function SqlDebit(merchant: Id, currency: Currency): Entry -> int {
    (e: Entry) => if e.merchant == Some(merchant) then DebitOn(MerchantPayable(merchant), currency)(e) else 0
  }

  function SqlCredit(merchant: Id, currency: Currency): Entry -> int {
    (e: Entry) => if e.merchant == Some(merchant) && e.direction == Credit
      then CreditOn(MerchantPayable(merchant), currency)(e) else 0
  }

  /** The balance query filters on merchant and account, the in-memory fold on the account alone: same numbers. */
  lemma BalancesAgree(d: Database, merchant: Id, currency: Currency)
    requires EntriesInv(d)
    ensures Sum(d.journal, SqlDebit(merchant, currency)) == Sum(d.journal, DebitOn(MerchantPayable(merchant), currency))
    ensures Sum(d.journal, SqlCredit(merchant, currency))
            == Sum(d.journal, CreditOn(MerchantPayable(merchant), currency))
  {
    forall e | e in d.journal
      ensures SqlDebit(merchant, currency)(e) == DebitOn(MerchantPayable(merchant), currency)(e)
      ensures SqlCredit(merchant, currency)(e) == CreditOn(MerchantPayable(merchant), currency)(e)
    {
      assert EntryFits(e, d.rows[e.txn]);
    }
    SumEqual(d.journal, SqlDebit(merchant, currency), DebitOn(MerchantPayable(merchant), currency));
    SumEqual(d.journal, SqlCredit(merchant, currency), CreditOn(MerchantPayable(merchant), currency));
  }

  /** txns holds every row of the key, once. */
  ghost predicate ListsKey(rows: map<Id, Row>, k: Key, txns: seq<Row>) {
    && (forall t | t in txns :: t.id in rows && rows[t.id] == t && KeyOf(t) == k)
    && (forall id | id in rows && KeyOf(rows[id]) == k :: rows[id] in txns)
    && DistinctIds(txns)
  }

  /** What one transaction leaves payable: captured, less booked fees, refunds and payouts. */
  function Owed(j: seq<Entry>): Row -> int {
    (t: Row) => t.captured - Sum(j, FeeCredit(t.id)) - t.refunded - Sum(j, Payout(t.id))
  }

  lemma PayableOnAccount(d: Database, k: Key, txns: seq<Row>, e: Entry)
    requires EntriesInv(d) && RowsInv(d) && ListsKey(d.rows, k, txns) && e in d.journal
    ensures CreditOn(MerchantPayable(k.merchant), k.currency)(e)
            == Within(IdsOf(txns, k), PayableNet)(e) + DebitOn(MerchantPayable(k.merchant), k.currency)(e)
  {
    var r := d.rows[e.txn];
    assert EntryFits(e, r);
    if KeyOf(r) == k {
      assert r in txns && r.id in IdsOf(txns, k);
      assert Within(IdsOf(txns, k), PayableNet)(e) == PayableNet(e.txn)(e);
    }
  }

  lemma OwedIsPayable(d: Database, k: Key, txns: seq<Row>, t: Row)
    requires LedgerInv(d) && ListsKey(d.rows, k, txns) && t in txns
    ensures PerRow(d.journal, PayableNet, k)(t) == Owed(d.journal)(t)
  {
    assert d.rows[t.id] == t;
    ViewIsSums(d.journal, t.id, d.bps);
  }

  /** A merchant's available balance is the sum of what each of its transactions leaves payable. */
  lemma BalanceIsSumOfTransactions(d: Database, k: Key, txns: seq<Row>)
    requires BooksInv(d) && ListsKey(d.rows, k, txns)
    ensures Sum(d.journal, CreditOn(MerchantPayable(k.merchant), k.currency))
            - Sum(d.journal, DebitOn(MerchantPayable(k.merchant), k.currency)) == Sum(txns, Owed(d.journal))
  {
    var credit := CreditOn(MerchantPayable(k.merchant), k.currency);
    var debit := DebitOn(MerchantPayable(k.merchant), k.currency);
    var net := Within(IdsOf(txns, k), PayableNet);
    forall e | e in d.journal
      ensures credit(e) == net(e) + debit(e)
    {
      PayableOnAccount(d, k, txns, e);
    }
    SumPlus(d.journal, credit, net, debit);
    SumByTransaction(d.journal, txns, k, PayableNet);
    forall t | t in txns
      ensures PerRow(d.journal, PayableNet, k)(t) == Owed(d.journal)(t)
    {
      OwedIsPayable(d, k, txns, t);
    }
    SumEqual(txns, PerRow(d.journal, PayableNet, k), Owed(d.journal));
  }
}
