/** The transaction entity: its lifecycle rules as functions on a stored row, and the object whose
    methods apply them in place. */
module Domain {
  import opened Sums
  import opened Money

  type Id = nat

  datatype Currency = VND | USD | Other(code: string)

  datatype Status = Created | Authorized | Captured | Settled | Refunded | Voided | Failed

  datatype Error =
    | NotFound
    | Validation
    | InvalidAmount
    | CurrencyMismatch
    | InvalidStateTransition
    | CaptureExceedsAuthorized
    | RefundExceedsCaptured
    | AuthorizationExpired
    | ConcurrentModification
    | DuplicateReference
    | UnbalancedEntryGroup
    | DatabaseFailure

  /** One row of the transactions table. Times are nanoseconds. */
  datatype Row = Row(
    id: Id,
    merchant: Id,
    reference: string,
    amount: int,
    currency: Currency,
    status: Status,
    captured: int,
    refunded: int,
    cardLast4: string,
    cardBrand: string,
    acquirerRef: string,
    failureCode: string,
    version: nat,
    authorizedAt: Option<int>,
    capturedAt: Option<int>,
    settledAt: Option<int>,
    createdAt: int,
    updatedAt: int)

  const AUTHORIZATION_VALIDITY: int := 7 * 24 * 3600 * 1_000_000_000

  const ALLOWED: map<Status, seq<Status>> := map[
    Created := [Authorized, Failed],
    Authorized := [Captured, Voided, Failed],
    Captured := [Settled, Refunded],
    Settled := [Refunded],
    Failed := [],
    Voided := [],
    Refunded := []]

  predicate CanTransition(from: Status, to: Status) {
    from in ALLOWED && to in ALLOWED[from]
  }

  /** How far along its life a status is; terminal statuses come last. */
  function Rank(s: Status): nat {
    match s
    case Created => 0
    case Authorized => 1
    case Captured => 2
    case Settled => 3
    case Refunded | Voided | Failed => 4
  }

  predicate AuthExpired(r: Row, now: int) {
    r.authorizedAt.Some? && now > r.authorizedAt.value + AUTHORIZATION_VALIDITY
  }

  function NewRow(id: Id, merchant: Id, reference: string, amount: int, currency: Currency, now: int): Row {
    Row(id, merchant, reference, amount, currency, Created, 0, 0, "", "", "", "", 0, None, None, None, now, now)
  }

  function NewTransaction(id: Id, merchant: Id, reference: string, amount: int, currency: Currency, now: int)
    : Result<Row, Error>
  {
    if reference == "" || |reference| > 128 || amount <= 0 || currency.Other? then Err(Validation)
    else Ok(NewRow(id, merchant, reference, amount, currency, now))
  }

  // ---- the lifecycle rules, each giving the row after the call or the reason it is refused ----

  function Authorizing(r: Row, ref: string, last4: string, brand: string, now: int): Result<Row, Error> {
    if !CanTransition(r.status, Authorized) then Err(InvalidStateTransition)
    else Ok(r.(status := Authorized, acquirerRef := ref, cardLast4 := last4, cardBrand := brand,
               authorizedAt := Some(now), updatedAt := now))
  }

  function Failing(r: Row, code: string, now: int): Result<Row, Error> {
    if !CanTransition(r.status, Failed) then Err(InvalidStateTransition)
    else Ok(r.(status := Failed, failureCode := code, updatedAt := now))
  }

  function Voiding(r: Row, now: int): Result<Row, Error> {
    if r.captured > 0 || !CanTransition(r.status, Voided) then Err(InvalidStateTransition)
    else Ok(r.(status := Voided, updatedAt := now))
  }

  function Capturing(r: Row, amount: int, now: int): Result<Row, Error> {
    if amount <= 0 then Err(Validation)
    else if r.status != Authorized && r.status != Captured then Err(InvalidStateTransition)
    else if AuthExpired(r, now) then Err(AuthorizationExpired)
    else if amount > r.amount - r.captured then Err(CaptureExceedsAuthorized)
    else Ok(r.(status := Captured, captured := r.captured + amount,
               capturedAt := if r.capturedAt.None? then Some(now) else r.capturedAt, updatedAt := now))
  }

  function Refunding(r: Row, amount: int, now: int): Result<Row, Error> {
    if amount <= 0 then Err(Validation)
    else if r.status != Captured && r.status != Settled then Err(InvalidStateTransition)
    else if amount > r.captured - r.refunded then Err(RefundExceedsCaptured)
    else Ok(r.(refunded := r.refunded + amount,
               status := if r.refunded + amount == r.captured then Refunded else r.status, updatedAt := now))
  }

  function Settling(r: Row, now: int): Result<Row, Error> {
    if !CanTransition(r.status, Settled) then Err(InvalidStateTransition)
    else Ok(r.(status := Settled, settledAt := Some(now), updatedAt := now))
  }

  function NetPayable(r: Row, bps: int): int {
    r.captured - Fee(r.captured, bps) - r.refunded
  }

  /** Exactly one lifecycle rule, with its argument. */
  datatype Move =
    | Authorize(ref: string, last4: string, brand: string)
    | Fail(code: string)
    | Void
    | Capture(amount: int)
    | Refund(amount: int)
    | Settle

  function Moved(r: Row, m: Move, now: int): Result<Row, Error> {
    match m
    case Authorize(ref, last4, brand) => Authorizing(r, ref, last4, brand, now)
    case Fail(code) => Failing(r, code, now)
    case Void => Voiding(r, now)
    case Capture(amount) => Capturing(r, amount, now)
    case Refund(amount) => Refunding(r, amount, now)
    case Settle => Settling(r, now)
  }

  /** What every stored row satisfies: the table's CHECK constraints and the agreement of status,
      amounts and timestamps. */
  predicate RowOk(r: Row) {
    && 0 < r.amount
    && 0 <= r.refunded <= r.captured <= r.amount
    && (r.captured > 0 <==> r.status in {Captured, Settled, Refunded})
    && (r.capturedAt.Some? <==> r.captured > 0)
    && (r.status == Refunded <==> 0 < r.captured == r.refunded)
    && (r.authorizedAt.Some? <==> r.status !in {Created, Failed})
    && (r.settledAt.Some? ==> r.status in {Settled, Refunded})
    && (r.status == Settled ==> r.settledAt.Some?)
  }

  /** Decreases with every committed update, so a row's history is finite. */
  function Measure(r: Row): int {
    (4 - Rank(r.status)) + 2 * r.amount - r.captured - r.refunded
  }

  /** The moves the services make: a failure is only recorded on a row still created. */
  predicate ServiceMove(r: Row, m: Move) {
    m.Fail? ==> r.status == Created
  }

  /** Each rule keeps the amounts in range, touches no identifying field and strictly decreases the measure; and it
      keeps the row well formed exactly when it is a move the services make: the transition table would also let an
      authorized row fail, leaving a failed row with an authorization time. */
  lemma MoveKeepsRow(r: Row, m: Move, now: int)
    requires RowOk(r) && Moved(r, m, now).Ok?
    ensures RowOk(Moved(r, m, now).value) <==> ServiceMove(r, m)
    ensures var t := Moved(r, m, now).value; 0 <= t.refunded <= t.captured <= t.amount
    ensures Measure(Moved(r, m, now).value) < Measure(r)
    ensures SameIdentity(r, Moved(r, m, now).value)
    ensures Moved(r, m, now).value.version == r.version
  {
  }

  predicate SameIdentity(r: Row, t: Row) {
    && t.id == r.id && t.merchant == r.merchant && t.reference == r.reference
    && t.amount == r.amount && t.currency == r.currency && t.createdAt == r.createdAt
  }

  /** The in-memory entity. Every method either applies its rule or reports an error and leaves the object alone. */
  class Transaction {
    const id: Id
    const merchant: Id
    const reference: string
    const amount: int
    const currency: Currency
    const createdAt: int
    var status: Status
    var captured: int
    var refunded: int
    var cardLast4: string
    var cardBrand: string
    var acquirerRef: string
    var failureCode: string
    var version: nat
    var authorizedAt: Option<int>
    var capturedAt: Option<int>
    var settledAt: Option<int>
    var updatedAt: int

    function Value(): Row
      reads this
    {
      Row(id, merchant, reference, amount, currency, status, captured, refunded, cardLast4, cardBrand,
          acquirerRef, failureCode, version, authorizedAt, capturedAt, settledAt, createdAt, updatedAt)
    }

    constructor (r: Row)
      ensures Value() == r
    {
      id, merchant, reference, amount, currency := r.id, r.merchant, r.reference, r.amount, r.currency;
      status, captured, refunded := r.status, r.captured, r.refunded;
      cardLast4, cardBrand, acquirerRef, failureCode := r.cardLast4, r.cardBrand, r.acquirerRef, r.failureCode;
      version, authorizedAt, capturedAt, settledAt := r.version, r.authorizedAt, r.capturedAt, r.settledAt;
      createdAt, updatedAt := r.createdAt, r.updatedAt;
    }

    /** A call that found the object at was returned err, and the object now holds what the rule says. */
    predicate Did(was: Row, err: Option<Error>, want: Result<Row, Error>)
      reads this
    {
      match want
      case Ok(r) => err == None && Value() == r
      case Err(e) => err == Some(e) && Value() == was
    }

    predicate CanTransitionTo(next: Status)
      reads this
    {
      CanTransition(status, next)
    }

    method TransitionTo(next: Status) returns (err: Option<Error>)
      modifies this
      ensures Did(old(Value()), err, if CanTransition(old(status), next) then Ok(old(Value()).(status := next))
                       else Err(InvalidStateTransition))
    {
      if !CanTransitionTo(next) {
        return Some(InvalidStateTransition);
      }
      status := next;
      return None;
    }

    method Authorize(ref: string, last4: string, brand: string, now: int) returns (err: Option<Error>)
      modifies this
      ensures Did(old(Value()), err, Authorizing(old(Value()), ref, last4, brand, now))
    {
      err := TransitionTo(Authorized);
      if err.Some? {
        return;
      }
      acquirerRef := ref;
      cardLast4 := last4;
      cardBrand := brand;
      authorizedAt := Some(now);
      updatedAt := now;
    }

    method Fail(code: string, now: int) returns (err: Option<Error>)
      modifies this
      ensures Did(old(Value()), err, Failing(old(Value()), code, now))
    {
      err := TransitionTo(Failed);
      if err.Some? {
        return;
      }
      failureCode := code;
      updatedAt := now;
    }

    method Void(now: int) returns (err: Option<Error>)
      modifies this
      ensures Did(old(Value()), err, Voiding(old(Value()), now))
    {
      if captured > 0 {
        return Some(InvalidStateTransition);
      }
      err := TransitionTo(Voided);
      if err.Some? {
        return;
      }
      updatedAt := now;
    }

    method Capture(amt: int, now: int) returns (err: Option<Error>)
      modifies this
      ensures Did(old(Value()), err, Capturing(old(Value()), amt, now))
    {
      if amt <= 0 {
        return Some(Validation);
      }
      if status != Authorized && status != Captured {
        return Some(InvalidStateTransition);
      }
      if authorizedAt.Some? && now > authorizedAt.value + AUTHORIZATION_VALIDITY {
        return Some(AuthorizationExpired);
      }
      if amt > amount - captured {
        return Some(CaptureExceedsAuthorized);
      }
      if status == Authorized {
        err := TransitionTo(Captured);
        if err.Some? {
          return;
        }
      }
      captured := captured + amt;
      if capturedAt.None? {
        capturedAt := Some(now);
      }
      updatedAt := now;
      return None;
    }

    /** The amount is raised before the transition is tried, yet an error never leaves it raised:
        from captured or settled the move to refunded is always allowed. */
    method Refund(amt: int, now: int) returns (err: Option<Error>)
      modifies this
      ensures Did(old(Value()), err, Refunding(old(Value()), amt, now))
    {
      if amt <= 0 {
        return Some(Validation);
      }
      if status != Captured && status != Settled {
        return Some(InvalidStateTransition);
      }
      if amt > captured - refunded {
        return Some(RefundExceedsCaptured);
      }
      refunded := refunded + amt;
      if refunded == captured {
        err := TransitionTo(Refunded);
        if err.Some? {
          return;
        }
      }
      updatedAt := now;
      return None;
    }

    method Settle(now: int) returns (err: Option<Error>)
      modifies this
      ensures Did(old(Value()), err, Settling(old(Value()), now))
    {
      err := TransitionTo(Settled);
      if err.Some? {
        return;
      }
      settledAt := Some(now);
      updatedAt := now;
    }
  }
}
