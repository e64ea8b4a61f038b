/** The append-only double-entry journal: entries, entry groups, their validation, and balances as folds. */
module Ledger {
  import opened Sums
  import opened Money
  import opened Domain

  datatype Direction = Debit | Credit | UnknownDirection

  datatype EventType = CaptureEvent | RefundEvent | FeeEvent | SettlementEvent

  datatype Account =
    | AcquirerReceivable
    | MerchantPayable(merchant: Id)
    | PlatformFeeRevenue
    | PlatformCash

  datatype Entry = Entry(
    group: Id,
    txn: Id,
    account: Account,
    merchant: Option<Id>,
    direction: Direction,
    amount: int,
    currency: Currency,
    event: EventType,
    createdAt: int)

  // ---- validation of a group ----

  function DebitAmount(e: Entry): int { if e.direction == Debit then e.amount else 0 }

  function CreditAmount(e: Entry): int { if e.direction == Credit then e.amount else 0 }

  /** Debits count positively, credits negatively. */
  function NetAmount(e: Entry): int {
    match e.direction
    case Debit => e.amount
    case Credit => -e.amount
    case UnknownDirection => 0
  }

  function Fault(e: Entry, currency: Currency): Option<Error> {
    if e.amount <= 0 then Some(InvalidAmount)
    else if e.currency != currency then Some(CurrencyMismatch)
    else if e.direction == UnknownDirection then Some(Validation)
    else None
  }

  function FirstFault(es: seq<Entry>, currency: Currency): Option<Error> {
    if es == [] then None
    else
      var earlier := FirstFault(es[..|es| - 1], currency);
      if earlier.Some? then earlier else Fault(es[|es| - 1], currency)
  }

  function GroupError(es: seq<Entry>): Option<Error> {
    if |es| < 2 then Some(UnbalancedEntryGroup)
    else
      var fault := FirstFault(es, es[0].currency);
      if fault.Some? then fault
      else if Sum(es, DebitAmount) != Sum(es, CreditAmount) then Some(UnbalancedEntryGroup)
      else None
  }

  /** The double-entry rule, stated without reference to the scan that enforces it. */
  predicate ValidGroup(es: seq<Entry>) {
    && |es| >= 2
    && (forall e | e in es :: 0 < e.amount && e.currency == es[0].currency && e.direction != UnknownDirection)
    && Sum(es, NetAmount) == 0
  }

  lemma {:induction false} FirstFaultNone(es: seq<Entry>, currency: Currency)
    ensures FirstFault(es, currency).None? <==> forall e | e in es :: Fault(e, currency).None?
  {
    if es != [] {
      var init, last := es[..|es| - 1], es[|es| - 1];
      FirstFaultNone(init, currency);
      assert es == init + [last];
    }
  }

  lemma {:induction false} NetIsDebitsMinusCredits(es: seq<Entry>)
    ensures Sum(es, NetAmount) == Sum(es, DebitAmount) - Sum(es, CreditAmount)
  {
    if es != [] {
      NetIsDebitsMinusCredits(es[..|es| - 1]);
    }
  }

  lemma GroupErrorNoneIff(es: seq<Entry>)
    ensures GroupError(es).None? <==> ValidGroup(es)
  {
    if |es| >= 2 {
      FirstFaultNone(es, es[0].currency);
      NetIsDebitsMinusCredits(es);
    }
  }

  method Validate(es: seq<Entry>) returns (err: Option<Error>)
    ensures err == GroupError(es)
    ensures err.None? <==> ValidGroup(es)
  {
    GroupErrorNoneIff(es);
    if |es| < 2 {
      return Some(UnbalancedEntryGroup);
    }
    var debits, credits := 0, 0;
    var currency := es[0].currency;
    for i := 0 to |es|
      invariant FirstFault(es[..i], currency) == None
      invariant debits == Sum(es[..i], DebitAmount) && credits == Sum(es[..i], CreditAmount)
    {
      var e := es[i];
      assert es[..i + 1] == es[..i] + [e];
      SumSnoc(es[..i], e, DebitAmount);
      SumSnoc(es[..i], e, CreditAmount);
      assert FirstFault(es[..i + 1], currency) == Fault(e, currency);
      if Fault(e, currency).Some? {
        FirstFaultStays(es, i + 1, currency);
      }
      if e.amount <= 0 {
        return Some(InvalidAmount);
      }
      if e.currency != currency {
        return Some(CurrencyMismatch);
      }
      match e.direction {
        case Debit => debits := debits + e.amount;
        case Credit => credits := credits + e.amount;
        case UnknownDirection => return Some(Validation);
      }
    }
    assert es[..|es|] == es;
    if debits != credits {
      return Some(UnbalancedEntryGroup);
    }
    return None;
  }

  lemma {:induction false} FirstFaultStays(es: seq<Entry>, k: nat, currency: Currency)
    requires k <= |es| && FirstFault(es[..k], currency).Some?
    ensures FirstFault(es, currency) == FirstFault(es[..k], currency)
    decreases |es|
  {
    if k == |es| {
      assert es[..k] == es;
    } else {
      assert es[..|es| - 1][..k] == es[..k];
      FirstFaultStays(es[..|es| - 1], k, currency);
    }
  }

  // ---- the three entry groups ----

  function CaptureGroup(t: Row, amount: int, fee: int, group: Id, now: int): Result<seq<Entry>, Error> {
    if amount <= 0 then Err(InvalidAmount)
    else if fee < 0 || fee > amount then Err(Validation)
    else
      var legs := [
        Entry(group, t.id, AcquirerReceivable, Some(t.merchant), Debit, amount, t.currency, CaptureEvent, now),
        Entry(group, t.id, MerchantPayable(t.merchant), Some(t.merchant), Credit, amount - fee, t.currency,
              CaptureEvent, now)];
      var es := if fee > 0 then
        legs + [Entry(group, t.id, PlatformFeeRevenue, Some(t.merchant), Credit, fee, t.currency, FeeEvent, now)]
      else legs;
      Checked(es)
  }

  function RefundGroup(t: Row, amount: int, group: Id, now: int): Result<seq<Entry>, Error> {
    if amount <= 0 then Err(InvalidAmount)
    else Checked([
        Entry(group, t.id, MerchantPayable(t.merchant), Some(t.merchant), Debit, amount, t.currency, RefundEvent, now),
        Entry(group, t.id, AcquirerReceivable, Some(t.merchant), Credit, amount, t.currency, RefundEvent, now)])
  }

  function SettlementGroup(t: Row, net: int, group: Id, now: int): Result<seq<Entry>, Error> {
    if net <= 0 then Err(InvalidAmount)
    else Checked([
        Entry(group, t.id, MerchantPayable(t.merchant), Some(t.merchant), Debit, net, t.currency, SettlementEvent, now),
        Entry(group, t.id, PlatformCash, Some(t.merchant), Credit, net, t.currency, SettlementEvent, now)])
  }

  function Checked(es: seq<Entry>): Result<seq<Entry>, Error> {
    var err := GroupError(es);
    if err.Some? then Err(err.value) else Ok(es)
  }

  lemma SumOfTwo(a: Entry, b: Entry, f: Entry -> int)
    ensures Sum([a, b], f) == f(a) + f(b)
  {
    SumSnoc([a], b, f);
    SumSnoc([], a, f);
    assert [] + [a] == [a] && [a] + [b] == [a, b];
  }

  lemma SumOfThree(a: Entry, b: Entry, c: Entry, f: Entry -> int)
    ensures Sum([a, b, c], f) == f(a) + f(b) + f(c)
  {
    SumSnoc([a, b], c, f);
    SumOfTwo(a, b, f);
    assert [a, b] + [c] == [a, b, c];
  }

  /** A capture group is accepted exactly when the fee leaves the merchant something: at a fee equal to
      the amount the payable leg is zero and the group is refused, even though the range check passes. */
  lemma CaptureGroupIff(t: Row, amount: int, fee: int, group: Id, now: int)
    ensures CaptureGroup(t, amount, fee, group, now).Ok? <==> 0 < amount && 0 <= fee < amount
    ensures 0 < amount == fee ==> CaptureGroup(t, amount, fee, group, now) == Err(InvalidAmount)
  {
    if 0 < amount && 0 <= fee <= amount {
      var a := Entry(group, t.id, AcquirerReceivable, Some(t.merchant), Debit, amount, t.currency, CaptureEvent, now);
      var b := Entry(group, t.id, MerchantPayable(t.merchant), Some(t.merchant), Credit, amount - fee, t.currency,
                     CaptureEvent, now);
      var c := Entry(group, t.id, PlatformFeeRevenue, Some(t.merchant), Credit, fee, t.currency, FeeEvent, now);
      var es := if fee > 0 then [a, b] + [c] else [a, b];
      assert CaptureGroup(t, amount, fee, group, now) == Checked(es);
      SumOfTwo(a, b, NetAmount);
      SumOfThree(a, b, c, NetAmount);
      assert [a, b] + [c] == [a, b, c];
      GroupErrorNoneIff(es);
      assert b in es;
      if fee == amount {
        var pair := [a, b];
        assert es == pair + [c] && es[..2] == pair && pair[..1] == [a];
        assert FirstFault([a], t.currency) == Fault(a, t.currency) by { assert [a][..0] == []; }
        assert FirstFault(pair, t.currency) == Some(InvalidAmount);
        FirstFaultStays(es, 2, t.currency);
      }
    }
  }

  lemma TwoLegGroupsOk(t: Row, amount: int, group: Id, now: int)
    ensures RefundGroup(t, amount, group, now).Ok? <==> 0 < amount
    ensures SettlementGroup(t, amount, group, now).Ok? <==> 0 < amount
  {
    if 0 < amount {
      var a := Entry(group, t.id, MerchantPayable(t.merchant), Some(t.merchant), Debit, amount, t.currency,
                     RefundEvent, now);
      var b := Entry(group, t.id, AcquirerReceivable, Some(t.merchant), Credit, amount, t.currency, RefundEvent, now);
      SumOfTwo(a, b, NetAmount);
      GroupErrorNoneIff([a, b]);
      var c := a.(event := SettlementEvent);
      var d := b.(event := SettlementEvent, account := PlatformCash);
      SumOfTwo(c, d, NetAmount);
      GroupErrorNoneIff([c, d]);
    }
  }

  /** For every rate below 100% and every amount whose fee fits 64 bits the capture group validates;
      at exactly 100%, which the configuration accepts, every capture group is refused. */
  lemma CaptureGroupAtRate(t: Row, amount: int, bps: int, group: Id, now: int)
    requires 0 < amount && 0 <= bps <= BPS_UNIT && FeeFits(amount, bps)
    ensures CaptureGroup(t, amount, Fee(amount, bps), group, now).Ok? <==> bps < BPS_UNIT
  {
    FeeIsFloor(amount, bps);
    CaptureGroupIff(t, amount, Fee(amount, bps), group, now);
  }

  // ---- balances ----

  datatype Balance = Balance(account: Account, currency: Currency, debits: int, credits: int) {
    function Available(): int { credits - debits }
  }

  function DebitOn(account: Account, currency: Currency): Entry -> int {
    (e: Entry) => if e.account == account && e.currency == currency && e.direction == Debit then e.amount else 0
  }

  /** Everything on the account that is not a debit: the fold's else-branch. */
  function CreditOn(account: Account, currency: Currency): Entry -> int {
    (e: Entry) => if e.account == account && e.currency == currency && e.direction != Debit then e.amount else 0
  }

  method ComputeBalance(account: Account, currency: Currency, entries: seq<Entry>) returns (b: Balance)
    ensures b.account == account && b.currency == currency
    ensures b.debits == Sum(entries, DebitOn(account, currency))
    ensures b.credits == Sum(entries, CreditOn(account, currency))
  {
    b := Balance(account, currency, 0, 0);
    for i := 0 to |entries|
      invariant b.account == account && b.currency == currency
      invariant b.debits == Sum(entries[..i], DebitOn(account, currency))
      invariant b.credits == Sum(entries[..i], CreditOn(account, currency))
    {
      var e := entries[i];
      assert entries[..i + 1] == entries[..i] + [e];
      SumSnoc(entries[..i], e, DebitOn(account, currency));
      SumSnoc(entries[..i], e, CreditOn(account, currency));
      if e.account != account || e.currency != currency {
        continue;
      }
      if e.direction == Debit {
        b := b.(debits := b.debits + e.amount);
      } else {
        b := b.(credits := b.credits + e.amount);
      }
    }
    assert entries[..|entries|] == entries;
  }

  // ---- what the journal says about one transaction ----

  function CaptureDebit(id: Id): Entry -> int {
    (e: Entry) => if e.txn == id && e.event == CaptureEvent && e.account == AcquirerReceivable && e.direction == Debit
      then e.amount else 0
  }

  function RefundCredit(id: Id): Entry -> int {
    (e: Entry) => if e.txn == id && e.event == RefundEvent && e.account == AcquirerReceivable && e.direction == Credit
      then e.amount else 0
  }

  function FeeCredit(id: Id): Entry -> int {
    (e: Entry) => if e.txn == id && e.event == FeeEvent && e.account == PlatformFeeRevenue && e.direction == Credit
      then e.amount else 0
  }

  /** What truncation dropped from the fee of each booked capture. */
  function FeeRemainder(id: Id, bps: int): Entry -> int {
    (e: Entry) => if CaptureDebit(id)(e) > 0 then Remainder(e.amount, bps) else 0
  }

  function CaptureCount(id: Id): Entry -> int {
    (e: Entry) => if CaptureDebit(id)(e) > 0 then 1 else 0
  }

  function Payout(id: Id): Entry -> int {
    (e: Entry) => if e.txn == id && e.event == SettlementEvent && e.account == PlatformCash && e.direction == Credit
      then e.amount else 0
  }

  function PayoutCount(id: Id): Entry -> int {
    (e: Entry) => if Payout(id)(e) > 0 then 1 else 0
  }

  /** Credits minus debits on the merchant's payable account. */
  function PayableNet(id: Id): Entry -> int {
    (e: Entry) => if e.txn == id && e.account.MerchantPayable? then -NetAmount(e) else 0
  }

  /** Captures, refunds, booked fees, truncated remainders, number of captures, payouts, number of payouts and
      the net payable, all for one transaction. */
  datatype View = View(captured: int, refunded: int, fees: int, lost: int, parts: int, paid: int, payouts: int,
                       payable: int)
  {
    function Plus(o: View): View {
      View(captured + o.captured, refunded + o.refunded, fees + o.fees, lost + o.lost, parts + o.parts,
           paid + o.paid, payouts + o.payouts, payable + o.payable)
    }
  }

  const NO_ACTIVITY := View(0, 0, 0, 0, 0, 0, 0, 0)

  function EntryView(e: Entry, id: Id, bps: int): View {
    if e.txn != id then NO_ACTIVITY
    else View(CaptureDebit(id)(e), RefundCredit(id)(e), FeeCredit(id)(e), FeeRemainder(id, bps)(e),
              CaptureCount(id)(e), Payout(id)(e), PayoutCount(id)(e), PayableNet(id)(e))
  }

  function Views(id: Id, bps: int): Entry -> View {
    (e: Entry) => EntryView(e, id, bps)
  }

  function Fold(j: seq<Entry>, f: Entry -> View): View {
    if j == [] then NO_ACTIVITY else Fold(j[..|j| - 1], f).Plus(f(j[|j| - 1]))
  }

  /** All eight sums for one transaction, taken in a single pass. */
  function ViewOf(j: seq<Entry>, id: Id, bps: int): View {
    Fold(j, Views(id, bps))
  }

  lemma {:induction false} FoldConcat(j: seq<Entry>, g: seq<Entry>, f: Entry -> View)
    ensures Fold(j + g, f) == Fold(j, f).Plus(Fold(g, f))
  {
    if g == [] {
      assert j + g == j;
    } else {
      var g0 := g[..|g| - 1];
      assert (j + g)[..|j + g| - 1] == j + g0;
      FoldConcat(j, g0, f);
    }
  }

  lemma {:induction false} FoldNothing(j: seq<Entry>, f: Entry -> View)
    requires forall e | e in j :: f(e) == NO_ACTIVITY
    ensures Fold(j, f) == NO_ACTIVITY
  {
    if j != [] {
      FoldNothing(j[..|j| - 1], f);
    }
  }

  lemma FoldTwo(a: Entry, b: Entry, f: Entry -> View)
    ensures Fold([a, b], f) == f(a).Plus(f(b))
  {
    assert [a, b][..1] == [a] && [a][..0] == [];
    assert Fold([a], f) == f(a);
  }

  lemma FoldThree(a: Entry, b: Entry, c: Entry, f: Entry -> View)
    ensures Fold([a, b, c], f) == f(a).Plus(f(b)).Plus(f(c))
  {
    assert [a, b, c][..2] == [a, b];
    FoldTwo(a, b, f);
  }

  lemma ViewConcat(j: seq<Entry>, g: seq<Entry>, id: Id, bps: int)
    ensures ViewOf(j + g, id, bps) == ViewOf(j, id, bps).Plus(ViewOf(g, id, bps))
  {
    FoldConcat(j, g, Views(id, bps));
  }

  lemma ViewOfOthers(g: seq<Entry>, id: Id, bps: int)
    requires forall e | e in g :: e.txn != id
    ensures ViewOf(g, id, bps) == NO_ACTIVITY
  {
    FoldNothing(g, Views(id, bps));
  }

  lemma FoldIgnores(j: seq<Entry>, g: seq<Entry>, f: Entry -> View)
    requires forall e | e in g :: f(e) == NO_ACTIVITY
    ensures Fold(j + g, f) == Fold(j, f)
  {
    FoldConcat(j, g, f);
    FoldNothing(g, f);
  }

  lemma ViewIgnoresOthers(j: seq<Entry>, g: seq<Entry>, id: Id, bps: int)
    requires forall e | e in g :: e.txn != id
    ensures ViewOf(j + g, id, bps) == ViewOf(j, id, bps)
  {
    FoldIgnores(j, g, Views(id, bps));
  }

  /** One component of the fold is the sum of that component. */
  lemma {:induction false} FoldComponent(j: seq<Entry>, f: Entry -> View, part: View -> int, g: Entry -> int)
    requires part(NO_ACTIVITY) == 0
    requires forall a: View, b: View :: part(a.Plus(b)) == part(a) + part(b)
    requires forall e | e in j :: part(f(e)) == g(e)
    ensures part(Fold(j, f)) == Sum(j, g)
  {
    if j != [] {
      FoldComponent(j[..|j| - 1], f, part, g);
    }
  }

  lemma ViewIsSums(j: seq<Entry>, id: Id, bps: int)
    ensures ViewOf(j, id, bps) ==
            View(Sum(j, CaptureDebit(id)), Sum(j, RefundCredit(id)), Sum(j, FeeCredit(id)),
                 Sum(j, FeeRemainder(id, bps)), Sum(j, CaptureCount(id)), Sum(j, Payout(id)),
                 Sum(j, PayoutCount(id)), Sum(j, PayableNet(id)))
  {
    var f := Views(id, bps);
    FoldComponent(j, f, (v: View) => v.captured, CaptureDebit(id));
    FoldComponent(j, f, (v: View) => v.refunded, RefundCredit(id));
    FoldComponent(j, f, (v: View) => v.fees, FeeCredit(id));
    FoldComponent(j, f, (v: View) => v.lost, FeeRemainder(id, bps));
    FoldComponent(j, f, (v: View) => v.parts, CaptureCount(id));
    FoldComponent(j, f, (v: View) => v.paid, Payout(id));
    FoldComponent(j, f, (v: View) => v.payouts, PayoutCount(id));
    FoldComponent(j, f, (v: View) => v.payable, PayableNet(id));
  }

  lemma ViewOfCapture(t: Row, amount: int, fee: int, group: Id, now: int, bps: int)
    requires CaptureGroup(t, amount, fee, group, now).Ok?
    ensures ViewOf(CaptureGroup(t, amount, fee, group, now).value, t.id, bps)
            == View(amount, 0, fee, Remainder(amount, bps), 1, 0, 0, amount - fee)
  {
    CaptureGroupIff(t, amount, fee, group, now);
    var es := CaptureGroup(t, amount, fee, group, now).value;
    if fee > 0 {
      assert es == [es[0], es[1], es[2]];
      FoldThree(es[0], es[1], es[2], Views(t.id, bps));
    } else {
      assert es == [es[0], es[1]];
      FoldTwo(es[0], es[1], Views(t.id, bps));
    }
  }

  lemma ViewOfRefund(t: Row, amount: int, group: Id, now: int, bps: int)
    requires RefundGroup(t, amount, group, now).Ok?
    ensures ViewOf(RefundGroup(t, amount, group, now).value, t.id, bps) == View(0, amount, 0, 0, 0, 0, 0, -amount)
  {
    var es := RefundGroup(t, amount, group, now).value;
    FoldTwo(es[0], es[1], Views(t.id, bps));
    assert es == [es[0], es[1]];
  }

  lemma ViewOfSettlement(t: Row, net: int, group: Id, now: int, bps: int)
    requires SettlementGroup(t, net, group, now).Ok?
    ensures ViewOf(SettlementGroup(t, net, group, now).value, t.id, bps) == View(0, 0, 0, 0, 0, net, 1, -net)
  {
    var es := SettlementGroup(t, net, group, now).value;
    FoldTwo(es[0], es[1], Views(t.id, bps));
    assert es == [es[0], es[1]];
  }

  // ---- group balance over the whole journal ----

  function NetOfGroup(group: Id): Entry -> int {
    (e: Entry) => if e.group == group then NetAmount(e) else 0
  }

  function NetOfCurrency(currency: Currency): Entry -> int {
    (e: Entry) => if e.currency == currency then NetAmount(e) else 0
  }

  function GroupDebit(group: Id): Entry -> int {
    (e: Entry) => if e.group == group then DebitAmount(e) else 0
  }

  function GroupCredit(group: Id): Entry -> int {
    (e: Entry) => if e.group == group then CreditAmount(e) else 0
  }

  /** The groups whose summed debits differ from their summed credits. */
  function FindUnbalancedGroups(j: seq<Entry>): set<Id> {
    set e | e in j && Sum(j, GroupDebit(e.group)) != Sum(j, GroupCredit(e.group)) :: e.group
  }

  lemma {:induction false} GroupNetSplits(j: seq<Entry>, group: Id)
    ensures Sum(j, NetOfGroup(group)) == Sum(j, GroupDebit(group)) - Sum(j, GroupCredit(group))
  {
    if j != [] {
      GroupNetSplits(j[..|j| - 1], group);
    }
  }

  /** The query reports a group exactly when it has lines and their signed amounts do not cancel. */
  lemma UnbalancedIff(j: seq<Entry>, group: Id)
    ensures group in FindUnbalancedGroups(j) <==>
            (exists e | e in j :: e.group == group) && Sum(j, NetOfGroup(group)) != 0
  {
    GroupNetSplits(j, group);
  }

  ghost predicate JournalBalanced(j: seq<Entry>) {
    && FindUnbalancedGroups(j) == {}
    && (forall c: Currency :: Sum(j, NetOfCurrency(c)) == 0)
  }
}
