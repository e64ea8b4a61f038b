/** What each operation does, stated on the fields of the row and the times involved: exactly when it commits, with
    which error it is refused, and what it leaves in the three tables. */
module Laws {
  import opened Sums
  import opened Money
  import opened Domain
  import opened Ledger
  import opened Protocol
  import opened Books

  /** Seven days of nanoseconds. */
  const SEVEN_DAYS: int := 604_800_000_000_000

  /** The tables after a commit that leaves row w, books the lines and announces the event. */
  function Committed(d: Database, w: Row, lines: seq<Entry>, kind: EventKind): Database {
    Database(d.bps, d.rows[w.id := w], d.journal + lines, d.outbox + [Event(w.id, kind, w)])
  }

  /** A capture's double entry: the acquirer owes the amount, the merchant is owed it less the fee, and the platform
      earns the fee, if there is one. */
  function CaptureLines(r: Row, amount: int, fee: int, group: Id, now: int): seq<Entry> {
    [Entry(group, r.id, AcquirerReceivable, Some(r.merchant), Debit, amount, r.currency, CaptureEvent, now),
     Entry(group, r.id, MerchantPayable(r.merchant), Some(r.merchant), Credit, amount - fee, r.currency, CaptureEvent,
           now)]
    + if fee == 0 then []
      else [Entry(group, r.id, PlatformFeeRevenue, Some(r.merchant), Credit, fee, r.currency, FeeEvent, now)]
  }

  /** A capture commits exactly when the payment is authorized or partly captured, the amount is positive and within
      what is left, no more than seven days have passed since the authorization, and the fee leaves the merchant
      something. It raises the captured amount, stamps the first capture with its time, and books and announces it. */
  lemma CaptureCommitsIff(d: Database, now: int, id: Id, amount: int, group: Id)
    requires RowsInv(d) && id in d.rows
    ensures var r, fee := d.rows[id], Fee(amount, d.bps); var result := Transact(d, now, id, Capture(amount), group);
            var live := r.status == Authorized || r.status == Captured;
            && (live ==> r.authorizedAt.Some?)
            && (result.Ok? <==> live && 0 < amount <= r.amount - r.captured
                                && now - r.authorizedAt.value <= SEVEN_DAYS && 0 <= fee < amount)
            && (amount <= 0 ==> result == Err(Validation))
            && (amount > 0 && !live ==> result == Err(InvalidStateTransition))
            && (amount > 0 && live && now - r.authorizedAt.value > SEVEN_DAYS ==> result == Err(AuthorizationExpired))
            && (amount > 0 && live && now - r.authorizedAt.value <= SEVEN_DAYS && r.amount - r.captured < amount ==>
                  result == Err(CaptureExceedsAuthorized))
            && (live && now - r.authorizedAt.value <= SEVEN_DAYS && 0 < amount <= r.amount - r.captured ==>
                  fee == amount ==> result == Err(InvalidAmount))
            && (live && now - r.authorizedAt.value <= SEVEN_DAYS && 0 < amount <= r.amount - r.captured ==>
                  fee < 0 || fee > amount ==> result == Err(Validation))
            && (result.Ok? ==>
                  result.value == Committed(d, r.(status := Captured, captured := r.captured + amount,
                                                  capturedAt := if r.captured == 0 then Some(now) else r.capturedAt,
                                                  version := r.version + 1, updatedAt := now),
                                            CaptureLines(r, amount, fee, group, now), PaymentCaptured))
  {
    var r := d.rows[id];
    if Capturing(r, amount, now).Ok? {
      ChecksAreRedundant(d, now, id, Capture(amount));
      CaptureGroupIff(Written(r, Capturing(r, amount, now).value, now), amount, Fee(amount, d.bps), group, now);
    }
  }

  /** A refund commits exactly when the payment is captured or settled and the amount is positive and within what was
      captured and not yet refunded. The last of it makes the payment refunded; before that its status stays. */
  lemma RefundCommitsIff(d: Database, now: int, id: Id, amount: int, group: Id)
    requires RowsInv(d) && id in d.rows
    ensures var r := d.rows[id]; var result := Transact(d, now, id, Refund(amount), group);
            var live := r.status == Captured || r.status == Settled;
            && (result.Ok? <==> live && 0 < amount <= r.captured - r.refunded)
            && (amount <= 0 ==> result == Err(Validation))
            && (amount > 0 && !live ==> result == Err(InvalidStateTransition))
            && (amount > 0 && live && r.captured - r.refunded < amount ==> result == Err(RefundExceedsCaptured))
            && (result.Ok? ==>
                  result.value == Committed(d, r.(refunded := r.refunded + amount,
                                                  status := if r.refunded + amount == r.captured then Refunded
                                                            else r.status,
                                                  version := r.version + 1, updatedAt := now),
                                            [Entry(group, id, MerchantPayable(r.merchant), Some(r.merchant), Debit,
                                                   amount, r.currency, RefundEvent, now),
                                             Entry(group, id, AcquirerReceivable, Some(r.merchant), Credit,
                                                   amount, r.currency, RefundEvent, now)], PaymentRefunded))
  {
    var r := d.rows[id];
    if Refunding(r, amount, now).Ok? {
      ChecksAreRedundant(d, now, id, Refund(amount));
      TwoLegGroupsOk(Written(r, Refunding(r, amount, now).value, now), amount, group, now);
    }
  }

  /** A void commits exactly on an authorized payment, and moves no money. */
  lemma VoidCommitsIff(d: Database, now: int, id: Id, group: Id)
    requires RowsInv(d) && id in d.rows
    ensures var r := d.rows[id];
            Transact(d, now, id, Void, group) ==
            if r.status == Authorized then
              Ok(Committed(d, r.(status := Voided, version := r.version + 1, updatedAt := now), [], PaymentVoided))
            else Err(InvalidStateTransition)
  {
    ChecksAreRedundant(d, now, id, Void);
  }

  /** An authorization is recorded exactly on a created payment, with its reference, card and time. */
  lemma AuthorizeCommitsIff(d: Database, now: int, id: Id, ref: string, last4: string, brand: string, group: Id)
    requires RowsInv(d) && id in d.rows
    ensures var r := d.rows[id];
            Transact(d, now, id, Authorize(ref, last4, brand), group) ==
            if r.status == Created then
              Ok(Committed(d, r.(status := Authorized, acquirerRef := ref, cardLast4 := last4, cardBrand := brand,
                                 authorizedAt := Some(now), version := r.version + 1, updatedAt := now),
                           [], PaymentAuthorized))
            else Err(InvalidStateTransition)
  {
    ChecksAreRedundant(d, now, id, Authorize(ref, last4, brand));
  }

  /** A decline is recorded on a created payment with its code; the rule would also fail an authorized one. */
  lemma FailCommitsIff(d: Database, now: int, id: Id, code: string, group: Id)
    requires RowsInv(d) && id in d.rows
    ensures var r := d.rows[id];
            Transact(d, now, id, Fail(code), group) ==
            if r.status == Created || r.status == Authorized then
              Ok(Committed(d, r.(status := Failed, failureCode := code, version := r.version + 1, updatedAt := now),
                           [], PaymentFailed))
            else Err(InvalidStateTransition)
  {
    ChecksAreRedundant(d, now, id, Fail(code));
  }

  /** A settlement commits exactly on a captured payment, stamps its time, and pays out what is left after the fee on
      the total and the refunds, if anything. */
  lemma SettleCommitsIff(d: Database, now: int, id: Id, group: Id)
    requires RowsInv(d) && id in d.rows
    ensures var r := d.rows[id]; var net := r.captured - Fee(r.captured, d.bps) - r.refunded;
            Transact(d, now, id, Settle, group) ==
            if r.status == Captured then
              Ok(Committed(d, r.(status := Settled, settledAt := Some(now), version := r.version + 1, updatedAt := now),
                           if net <= 0 then []
                           else [Entry(group, id, MerchantPayable(r.merchant), Some(r.merchant), Debit, net, r.currency,
                                       SettlementEvent, now),
                                 Entry(group, id, PlatformCash, Some(r.merchant), Credit, net, r.currency,
                                       SettlementEvent, now)], PaymentSettled))
            else Err(InvalidStateTransition)
  {
    var r := d.rows[id];
    if r.status == Captured {
      ChecksAreRedundant(d, now, id, Settle);
      var w := Written(r, Settling(r, now).value, now);
      TwoLegGroupsOk(w, NetPayable(w, d.bps), group, now);
    }
  }

  // ---- before the acquirer is asked ----

  /** The pre-check of a capture: it finds the merchant's own payment, reads an amount of 0 as all that is left to
      capture, and lets the call through exactly when that can be captured now. */
  lemma PreCaptureIff(s: State, merchant: Id, txn: Id, amount: int)
    requires RowsInv(s.db)
    ensures var result := PreCapture(s, merchant, txn, amount);
            if txn !in s.db.rows || s.db.rows[txn].merchant != merchant then result == Err(NotFound)
            else
              var r := s.db.rows[txn]; var a := if amount == 0 then r.amount - r.captured else amount;
              var live := r.status == Authorized || r.status == Captured;
              && (live ==> r.authorizedAt.Some?)
              && (result.Ok? <==> live && 0 < a <= r.amount - r.captured
                                  && s.clock - r.authorizedAt.value <= SEVEN_DAYS)
              && (result.Ok? ==> result.value == Op(CaptureOp, merchant, txn, a, r, s.clock, Called))
              && (a <= 0 ==> result == Err(Validation))
              && (a > 0 && !live ==> result == Err(InvalidStateTransition))
              && (a > 0 && live && s.clock - r.authorizedAt.value > SEVEN_DAYS ==> result == Err(AuthorizationExpired))
              && (a > 0 && live && s.clock - r.authorizedAt.value <= SEVEN_DAYS && r.amount - r.captured < a ==>
                    result == Err(CaptureExceedsAuthorized))
  {
  }

  /** The pre-check of a refund, with 0 read as all that is left to refund. */
  lemma PreRefundIff(s: State, merchant: Id, txn: Id, amount: int)
    requires RowsInv(s.db)
    ensures var result := PreRefund(s, merchant, txn, amount);
            if txn !in s.db.rows || s.db.rows[txn].merchant != merchant then result == Err(NotFound)
            else
              var r := s.db.rows[txn]; var a := if amount == 0 then r.captured - r.refunded else amount;
              var live := r.status == Captured || r.status == Settled;
              && (result.Ok? <==> live && 0 < a <= r.captured - r.refunded)
              && (result.Ok? ==> result.value == Op(RefundOp, merchant, txn, a, r, s.clock, Called))
              && (a <= 0 ==> result == Err(Validation))
              && (a > 0 && !live ==> result == Err(InvalidStateTransition))
              && (a > 0 && live && r.captured - r.refunded < a ==> result == Err(RefundExceedsCaptured))
  {
  }

  lemma PreVoidIff(s: State, merchant: Id, txn: Id)
    requires RowsInv(s.db)
    ensures PreVoid(s, merchant, txn) ==
            if txn !in s.db.rows || s.db.rows[txn].merchant != merchant then Err(NotFound)
            else if s.db.rows[txn].status == Authorized then
              Ok(Op(VoidOp, merchant, txn, 0, s.db.rows[txn], s.clock, Called))
            else Err(InvalidStateTransition)
  {
  }

  /** A well-formed request under a free reference inserts a created row and asks the acquirer. */
  lemma NewPaymentStarts(s: State, id: Id, merchant: Id, reference: string, amount: int, currency: Currency)
    requires id !in s.db.rows
    requires forall x | x in s.db.rows :: s.db.rows[x].merchant != merchant || s.db.rows[x].reference != reference
    ensures var result := Authorizations(s, id, merchant, reference, amount, currency);
            var r := Row(id, merchant, reference, amount, currency, Created, 0, 0, "", "", "", "", 0, None, None, None,
                         s.clock, s.clock);
            result ==
            if 1 <= |reference| <= 128 && amount > 0 && (currency == VND || currency == USD) then
              Ok(State(s.db.(rows := s.db.rows[id := r]), s.clock,
                       s.ops + [Op(AuthorizeOp, merchant, id, amount, r, s.clock, Called)], s.calls, s.jobs))
            else Err(Validation)
  {
    assert !ReferenceTaken(s.db.rows, merchant, reference);
  }

  /** A reference in use is a duplicate, unless the payment under it is still created and the request asks for the same
      money: then the acquirer is asked again about that payment, and no row is added. */
  lemma RetryResumesIff(s: State, id: Id, merchant: Id, reference: string, amount: int, currency: Currency, x: Id)
    requires RefsInv(s.db) && id !in s.db.rows && x in s.db.rows
    requires s.db.rows[x].merchant == merchant && s.db.rows[x].reference == reference
    requires 1 <= |reference| <= 128 && amount > 0 && (currency == VND || currency == USD)
    ensures var r := s.db.rows[x];
            Authorizations(s, id, merchant, reference, amount, currency) ==
            if r.status == Created && r.amount == amount && r.currency == currency then
              Ok(s.(ops := s.ops + [Op(AuthorizeOp, merchant, x, amount, r, s.clock, Called)]))
            else Err(DuplicateReference)
  {
    assert HasReference(s.db.rows, x, merchant, reference);
    assert forall y | HasReference(s.db.rows, y, merchant, reference) :: y == x;
  }

  // ---- after the acquirer answered ----

  /** A declined authorization whose payment is still created ends failed with the code of the decline. */
  lemma DeclineIsRecorded(s: State, i: nat, code: string, group: Id)
    requires RowsInv(s.db) && i < |s.ops| && FreshGroup(s.db.journal, group)
    requires s.ops[i].kind == AuthorizeOp && s.ops[i].phase == Called && s.ops[i].txn in s.db.rows
    ensures var r := s.db.rows[s.ops[i].txn];
            Apply(Apply(s, AcquirerAnswers(i, No(code))), Finish(i, group)).db ==
            if r.status == Created then
              Committed(s.db, r.(status := Failed, failureCode := code, version := r.version + 1, updatedAt := s.clock),
                        [], PaymentFailed)
            else s.db
  {
    var u := Apply(s, AcquirerAnswers(i, No(code)));
    assert u == s.(ops := s.ops[i := s.ops[i].(phase := Declined(code))]);
    FailCommitsIff(s.db, s.clock, s.ops[i].txn, code, group);
  }

  /** No other answer leads to a write: a malformed request, an answer that never came, or a refused capture, refund or
      void leaves the tables as they are, whatever follows. */
  lemma OtherAnswersWriteNothing(s: State, i: nat, a: Answer, group: Id)
    requires i < |s.ops| && s.ops[i].phase == Called && !a.Yes? && (a.No? ==> s.ops[i].kind != AuthorizeOp)
    ensures Apply(Apply(s, AcquirerAnswers(i, a)), Finish(i, group)).db == s.db
  {
  }

  /** An approval is written back as the operation that asked for it, on the row as it is then, or not at all. */
  lemma ApprovalWritesBack(s: State, i: nat, ref: string, last4: string, brand: string, group: Id)
    requires RowsInv(s.db) && i < |s.ops| && s.ops[i].phase == Called && FreshGroup(s.db.journal, group)
    requires s.ops[i].txn in s.db.rows && s.db.rows[s.ops[i].txn].merchant == s.ops[i].merchant
    ensures var op := s.ops[i];
            var result := match op.kind
                          case AuthorizeOp => Transact(s.db, s.clock, op.txn, Authorize(ref, last4, brand), group)
                          case CaptureOp => Transact(s.db, s.clock, op.txn, Capture(op.amount), group)
                          case RefundOp => Transact(s.db, s.clock, op.txn, Refund(op.amount), group)
                          case VoidOp => Transact(s.db, s.clock, op.txn, Void, group);
            Apply(Apply(s, AcquirerAnswers(i, Yes(ref, last4, brand))), Finish(i, group)).db ==
            if result.Ok? then result.value else s.db
  {
    var u := Apply(s, AcquirerAnswers(i, Yes(ref, last4, brand)));
    var op := s.ops[i].(phase := Approved(ref, last4, brand));
    assert u.db == s.db && u.clock == s.clock && u.ops[i] == op;
    if op.kind == AuthorizeOp {
      AuthorizeCommitsIff(s.db, s.clock, op.txn, ref, last4, brand, group);
    }
  }
}
