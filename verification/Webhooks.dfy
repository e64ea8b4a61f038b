/** The webhook outbox as a lease protocol: rows are claimed, attempted, persisted, handed back or found stale. */
module Webhooks {
  import opened Sums

  type Id = nat

  datatype Status = Pending | Delivering | Delivered | Failed | Dead

  /** One row of the outbox. Times are nanoseconds. */
  datatype Row = Row(status: Status, attempts: nat, nextAt: int, lastError: string, updatedAt: int)

  predicate Finished(r: Row) { r.status in {Delivered, Dead} }

  predicate Due(r: Row, now: int) { r.status in {Pending, Failed} && r.nextAt <= now }

  predicate Stale(r: Row, timeout: int, now: int) { r.status == Delivering && r.updatedAt < now - timeout }

  // ---- retries ----

  function Pow2(n: nat): nat { if n == 0 then 1 else 2 * Pow2(n - 1) }

  function Clamped(attempt: int): nat {
    if attempt < 1 then 1 else if attempt > 16 then 16 else attempt
  }

  predicate Jitter(j: real) { 0.8 <= j < 1.2 }

  function Nanoseconds(seconds: nat, jitter: real): int {
    (seconds as real * jitter * 1_000_000_000.0).Floor
  }

  /** 2^attempt seconds, spread by the jitter draw. */
  function BackoffDelay(attempt: int, jitter: real): int {
    Nanoseconds(Pow2(Clamped(attempt)), jitter)
  }

  lemma {:induction false} Pow2Positive(n: nat)
    ensures Pow2(n) >= 1
  {
    if n > 0 {
      Pow2Positive(n - 1);
    }
  }

  lemma JitterScales(base: real, jitter: real)
    requires 0.0 <= base && Jitter(jitter)
    ensures 0.8 * base <= base * jitter <= 1.2 * base
  {
  }

  lemma InNanoseconds(p: nat, seconds: real)
    requires 0.8 * p as real <= seconds <= 1.2 * p as real
    ensures 800_000_000 * p <= (seconds * 1_000_000_000.0).Floor <= 1_200_000_000 * p
  {
    assert (800_000_000 * p) as real <= seconds * 1_000_000_000.0 <= (1_200_000_000 * p) as real;
  }

  lemma DelayBounds(p: nat, jitter: real)
    requires Jitter(jitter)
    ensures 800_000_000 * p <= Nanoseconds(p, jitter) <= 1_200_000_000 * p
  {
    JitterScales(p as real, jitter);
    InNanoseconds(p, p as real * jitter);
  }

  lemma BackoffBounds(attempt: nat, jitter: real)
    requires 1 <= attempt <= 16 && Jitter(jitter)
    ensures 800_000_000 * Pow2(attempt) <= BackoffDelay(attempt, jitter) <= 1_200_000_000 * Pow2(attempt)
  {
    DelayBounds(Pow2(attempt), jitter);
  }

  /** Each scheduled wait is longer than the one before, whatever the jitter draws. */
  lemma BackoffGrows(attempt: nat, j1: real, j2: real)
    requires 1 <= attempt < 16 && Jitter(j1) && Jitter(j2)
    ensures BackoffDelay(attempt, j1) < BackoffDelay(attempt + 1, j2)
  {
    BackoffBounds(attempt, j1);
    BackoffBounds(attempt + 1, j2);
    Pow2Positive(attempt);
  }

  /** All waits scheduled before a delivery that always fails is given up: one after every attempt but the last. */
  function TotalWait(jitters: seq<real>): int {
    if jitters == [] then 0
    else TotalWait(jitters[..|jitters| - 1]) + BackoffDelay(|jitters|, jitters[|jitters| - 1])
  }

  /** With m attempts the waits add up to at most 1.2 * (2^m - 2) seconds. */
  lemma {:induction false} TotalWaitBound(m: nat, jitters: seq<real>)
    requires 1 <= m <= 17 && |jitters| == m - 1 && forall j | j in jitters :: Jitter(j)
    ensures TotalWait(jitters) <= 1_200_000_000 * (Pow2(m) - 2)
  {
    if m > 1 {
      var init := jitters[..|jitters| - 1];
      assert forall j | j in init :: j in jitters;
      TotalWaitBound(m - 1, init);
      BackoffBounds(m - 1, jitters[m - 2]);
    }
  }

  // ---- the outcome of an attempt ----

  function SucceededRow(d: Row, now: int): Row {
    d.(status := Delivered, attempts := d.attempts + 1, lastError := "", updatedAt := now)
  }

  function FailedRow(d: Row, error: string, maxAttempts: int, now: int, jitter: real): Row {
    var n := d.(attempts := d.attempts + 1, lastError := error, updatedAt := now);
    if d.attempts + 1 >= maxAttempts then n.(status := Dead)
    else n.(status := Failed, nextAt := now + BackoffDelay(d.attempts + 1, jitter))
  }

  function UndeliverableRow(d: Row, now: int): Row {
    d.(status := Dead, attempts := d.attempts + 1, lastError := "merchant has no webhook_url configured",
       updatedAt := now)
  }

  class Delivery {
    var status: Status
    var attempts: nat
    var nextAt: int
    var lastError: string
    var updatedAt: int

    function Value(): Row
      reads this
    {
      Row(status, attempts, nextAt, lastError, updatedAt)
    }

    constructor (r: Row)
      ensures Value() == r
    {
      status, attempts, nextAt, lastError, updatedAt := r.status, r.attempts, r.nextAt, r.lastError, r.updatedAt;
    }

    method RecordFailure(error: string, maxAttempts: int, now: int, jitter: real)
      modifies this
      ensures Value() == FailedRow(old(Value()), error, maxAttempts, now, jitter)
    {
      attempts := attempts + 1;
      lastError := error;
      updatedAt := now;
      if attempts >= maxAttempts {
        status := Dead;
        return;
      }
      status := Failed;
      nextAt := now + BackoffDelay(attempts, jitter);
    }

    method RecordSuccess(now: int)
      modifies this
      ensures Value() == SucceededRow(old(Value()), now)
    {
      attempts := attempts + 1;
      status := Delivered;
      lastError := "";
      updatedAt := now;
    }

    /** A merchant without an endpoint: parked at once instead of retried. */
    method Park(now: int)
      modifies this
      ensures Value() == UndeliverableRow(old(Value()), now)
    {
      attempts := attempts + 1;
      status := Dead;
      lastError := "merchant has no webhook_url configured";
      updatedAt := now;
    }
  }

  // ---- the protocol ----

  /** A worker's copy of a claimed row; held until its outcome is persisted or it is lost. */
  datatype Claim = Claim(id: Id, row: Row, at: int, held: bool)

  datatype Outcome = Success | Failure(error: string, jitter: real) | NoEndpoint

  /** A recorded attempt: when it was persisted and how long a wait it scheduled, if any. */
  datatype Attempt = Attempt(id: Id, at: int, wait: int)

  function AttemptOf(id: Id, r: Row, now: int): Attempt {
    Attempt(id, now, if r.status == Failed then r.nextAt - now else 0)
  }

  datatype State = State(
    maxAttempts: int, timeout: int, clock: int, rows: map<Id, Row>, claims: seq<Claim>, recorded: seq<Attempt>)

  datatype Step =
    | Enqueue(id: Id)
    | ClaimRow(id: Id)
    | Persist(c: nat, outcome: Outcome)
    | HandBack(c: nat)
    | Lose(c: nat)
    | ReleaseStale
    | Tick(elapsed: nat)

  function Initial(maxAttempts: int, timeout: int): State {
    State(maxAttempts, timeout, 0, map[], [], [])
  }

  function After(d: Row, outcome: Outcome, maxAttempts: int, now: int): Row {
    match outcome
    case Success => SucceededRow(d, now)
    case Failure(error, jitter) => FailedRow(d, error, maxAttempts, now, jitter)
    case NoEndpoint => UndeliverableRow(d, now)
  }

  function Drop(claims: seq<Claim>, c: nat): seq<Claim>
    requires c < |claims|
  {
    claims[c := claims[c].(held := false)]
  }

  /** A row the janitor finds stuck goes back on the queue, due at once. */
  function Requeued(r: Row, timeout: int, now: int): Row {
    if Stale(r, timeout, now) then r.(status := Failed, nextAt := now, updatedAt := now) else r
  }

  /** UpdateAttempt is keyed by id alone: whoever holds a copy overwrites the row. */
  function Apply(s: State, step: Step): State {
    match step
    case Enqueue(id) => if id in s.rows then s else s.(rows := s.rows[id := Row(Pending, 0, s.clock, "", s.clock)])
    case ClaimRow(id) =>
      if id !in s.rows || !Due(s.rows[id], s.clock) then s
      else
        var r := s.rows[id].(status := Delivering, updatedAt := s.clock);
        s.(rows := s.rows[id := r], claims := s.claims + [Claim(id, r, s.clock, true)])
    case Persist(c, outcome) =>
      if !(c < |s.claims| && s.claims[c].held && s.claims[c].id in s.rows) then s
      else
        var k := s.claims[c];
        var r := After(k.row, outcome, s.maxAttempts, s.clock);
        s.(rows := s.rows[k.id := r], claims := Drop(s.claims, c),
           recorded := s.recorded + [AttemptOf(k.id, r, s.clock)])
    case HandBack(c) =>
      if !(c < |s.claims| && s.claims[c].held && s.claims[c].id in s.rows) then s
      else
        var k := s.claims[c];
        s.(rows := s.rows[k.id := k.row.(status := Failed, nextAt := s.clock, updatedAt := s.clock)],
           claims := Drop(s.claims, c))
    case Lose(c) => if c < |s.claims| then s.(claims := Drop(s.claims, c)) else s
    case ReleaseStale => s.(rows := map id | id in s.rows :: Requeued(s.rows[id], s.timeout, s.clock))
    case Tick(elapsed) => s.(clock := s.clock + elapsed)
  }

  function Exec(maxAttempts: int, timeout: int, run: seq<Step>): State {
    if run == [] then Initial(maxAttempts, timeout)
    else Apply(Exec(maxAttempts, timeout, run[..|run| - 1]), run[|run| - 1])
  }

  // ---- what holds whatever happens ----

  /** A row that may still be attempted has attempts left; a finished one used no more than allowed. */
  predicate Bounded(r: Row, maxAttempts: int) {
    if Finished(r) then r.attempts <= maxAttempts else r.attempts < maxAttempts
  }

  ghost predicate BoundsInv(s: State) {
    && (forall id | id in s.rows :: Bounded(s.rows[id], s.maxAttempts) && s.rows[id].updatedAt <= s.clock)
    && (forall k | k in s.claims :: k.row.status == Delivering && Bounded(k.row, s.maxAttempts) && k.id in s.rows)
  }

  lemma BoundsStep(s: State, step: Step)
    requires BoundsInv(s) && s.maxAttempts >= 1
    ensures BoundsInv(Apply(s, step))
    ensures Apply(s, step).maxAttempts == s.maxAttempts && Apply(s, step).timeout == s.timeout
  {
  }

  /** With or without crashes, lost claims and late writers, no delivery is attempted beyond the limit. */
  lemma {:induction false} AttemptsAreBounded(maxAttempts: int, timeout: int, run: seq<Step>)
    requires maxAttempts >= 1
    ensures BoundsInv(Exec(maxAttempts, timeout, run))
    ensures Exec(maxAttempts, timeout, run).maxAttempts == maxAttempts
    ensures Exec(maxAttempts, timeout, run).timeout == timeout
  {
    if run != [] {
      AttemptsAreBounded(maxAttempts, timeout, run[..|run| - 1]);
      BoundsStep(Exec(maxAttempts, timeout, run[..|run| - 1]), run[|run| - 1]);
    }
  }

  /** How long until an unfinished row is claimable whatever became of its worker. */
  function Patience(s: State, id: Id): nat
    requires id in s.rows
  {
    Max(0, Max(s.timeout + 1, s.rows[id].nextAt - s.clock))
  }

  function Max(a: int, b: int): int { if a < b then b else a }

  lemma StalePassFreesRow(s: State, id: Id)
    requires BoundsInv(s) && id in s.rows && !Finished(s.rows[id])
    ensures var u := Apply(Apply(s, Tick(Patience(s, id))), ReleaseStale);
            id in u.rows && Due(u.rows[id], u.clock) && u.rows[id].attempts == s.rows[id].attempts
  {
    var t := Apply(s, Tick(Patience(s, id)));
    var u := Apply(t, ReleaseStale);
    assert u.rows[id] == Requeued(t.rows[id], t.timeout, t.clock);
  }

  /** No job is lost: after any run, crashes, shutdowns and late writers included, an unfinished row, even one whose
      worker died holding it, can be claimed again after one later stale pass, with its attempts as they were. */
  lemma NothingIsLost(maxAttempts: int, timeout: int, run: seq<Step>, id: Id)
    requires maxAttempts >= 1
    requires id in Exec(maxAttempts, timeout, run).rows && !Finished(Exec(maxAttempts, timeout, run).rows[id])
    ensures var s := Exec(maxAttempts, timeout, run);
            var u := Exec(maxAttempts, timeout, run + [Tick(Patience(s, id))] + [ReleaseStale] + [ClaimRow(id)]);
            && |u.claims| == |s.claims| + 1 && id in u.rows
            && u.claims[|s.claims|] == Claim(id, u.rows[id], u.clock, true)
            && u.rows[id].attempts == s.rows[id].attempts < maxAttempts
  {
    var s := Exec(maxAttempts, timeout, run);
    var wait := run + [Tick(Patience(s, id))];
    AttemptsAreBounded(maxAttempts, timeout, run);
    StalePassFreesRow(s, id);
    ExecSnoc(maxAttempts, timeout, run, Tick(Patience(s, id)));
    ExecSnoc(maxAttempts, timeout, wait, ReleaseStale);
    ExecSnoc(maxAttempts, timeout, wait + [ReleaseStale], ClaimRow(id));
  }

  // ---- what needs every claim to end in time ----

  predicate OnTime(s: State) {
    forall k | k in s.claims && k.held :: s.clock - k.at <= s.timeout
  }

  /** No stale pass of the run comes upon a held claim older than the timeout. */
  ghost predicate Timely(maxAttempts: int, timeout: int, run: seq<Step>) {
    forall n | 0 <= n < |run| && run[n].ReleaseStale? :: OnTime(Exec(maxAttempts, timeout, run[..n]))
  }

  function Times(id: Id): Attempt -> int {
    (a: Attempt) => if a.id == id then 1 else 0
  }

  /** A held claim owns its row: nothing has touched the row since. */
  predicate Owns(k: Claim, rows: map<Id, Row>) {
    k.held ==> k.id in rows && rows[k.id] == k.row && k.row.status == Delivering && k.row.updatedAt == k.at
  }

  ghost predicate LeaseInv(s: State) {
    && (forall k | k in s.claims :: Owns(k, s.rows))
    && (forall a, b | 0 <= a < b < |s.claims| && s.claims[a].held && s.claims[b].held ::
          s.claims[a].id != s.claims[b].id)
    && (forall id | id in s.rows :: Sum(s.recorded, Times(id)) == s.rows[id].attempts)
    && (forall a | a in s.recorded :: a.id in s.rows)
  }

  lemma ClaimLeases(s: State, id: Id)
    requires LeaseInv(s) && id in s.rows && Due(s.rows[id], s.clock)
    ensures LeaseInv(Apply(s, ClaimRow(id)))
  {
    var u := Apply(s, ClaimRow(id));
    var n := |s.claims|;
    forall a | 0 <= a < n && s.claims[a].held
      ensures s.claims[a].id != id
    {
      assert s.claims[a] in s.claims;
    }
    forall k | k in u.claims
      ensures Owns(k, u.rows)
    {
      if k in s.claims {
        assert Owns(k, s.rows);
        var a :| 0 <= a < n && s.claims[a] == k;
      }
    }
    forall a, b | 0 <= a < b < |u.claims| && u.claims[a].held && u.claims[b].held
      ensures u.claims[a].id != u.claims[b].id
    {
      assert u.claims[a] == s.claims[a];
    }
  }

  lemma SettleOwners(claims: seq<Claim>, rows: map<Id, Row>, c: nat, next: Row)
    requires c < |claims| && claims[c].held && forall k | k in claims :: Owns(k, rows)
    requires forall a, b | 0 <= a < b < |claims| && claims[a].held && claims[b].held :: claims[a].id != claims[b].id
    ensures forall k | k in Drop(claims, c) :: Owns(k, rows[claims[c].id := next])
  {
    var left := Drop(claims, c);
    forall x | x in left
      ensures Owns(x, rows[claims[c].id := next])
    {
      var a :| 0 <= a < |left| && left[a] == x;
      if x.held {
        assert a != c && claims[a] == x && Owns(claims[a], rows);
        assert x.id != claims[c].id;
      }
    }
  }

  lemma SettleCounts(recorded: seq<Attempt>, added: seq<Attempt>, rows: map<Id, Row>, id: Id, next: Row)
    requires forall x | x in rows :: Sum(recorded, Times(x)) == rows[x].attempts
    requires |added| <= 1 && (forall a | a in added :: a.id == id) && id in rows
    requires next.attempts == rows[id].attempts + |added|
    ensures forall x | x in rows :: Sum(recorded + added, Times(x)) == rows[id := next][x].attempts
  {
    forall x | x in rows
      ensures Sum(recorded + added, Times(x)) == rows[id := next][x].attempts
    {
      SumConcat(recorded, added, Times(x));
      TimesOf(added, id, x);
    }
  }

  lemma {:induction false} TimesOf(added: seq<Attempt>, id: Id, x: Id)
    requires forall a | a in added :: a.id == id
    ensures Sum(added, Times(x)) == if x == id then |added| else 0
  {
    if added != [] {
      TimesOf(added[..|added| - 1], id, x);
      assert added[|added| - 1] in added;
    }
  }

  /** The holder of a claim replaces its row by next and lets go. */
  lemma SettleLease(s: State, c: nat, next: Row, added: seq<Attempt>)
    requires LeaseInv(s) && c < |s.claims| && s.claims[c].held
    requires |added| <= 1 && forall a | a in added :: a.id == s.claims[c].id
    requires next.attempts == s.claims[c].row.attempts + |added|
    ensures LeaseInv(s.(rows := s.rows[s.claims[c].id := next], claims := Drop(s.claims, c),
                        recorded := s.recorded + added))
  {
    assert Owns(s.claims[c], s.rows);
    SettleOwners(s.claims, s.rows, c, next);
    SettleCounts(s.recorded, added, s.rows, s.claims[c].id, next);
  }

  lemma LoseLease(s: State, c: nat)
    requires LeaseInv(s) && c < |s.claims|
    ensures LeaseInv(s.(claims := Drop(s.claims, c)))
  {
    var claims := Drop(s.claims, c);
    forall x | x in claims
      ensures Owns(x, s.rows)
    {
      var a :| 0 <= a < |claims| && claims[a] == x;
      assert Owns(s.claims[a], s.rows);
    }
  }

  /** With every claim younger than the timeout the janitor never takes a row from its holder. */
  lemma JanitorSparesHolders(s: State)
    requires LeaseInv(s) && OnTime(s)
    ensures LeaseInv(Apply(s, ReleaseStale))
  {
    var u := Apply(s, ReleaseStale);
    forall k | k in u.claims
      ensures Owns(k, u.rows)
    {
      assert Owns(k, s.rows);
    }
  }

  lemma EnqueueLeases(s: State, id: Id)
    requires LeaseInv(s) && id !in s.rows
    ensures LeaseInv(Apply(s, Enqueue(id)))
  {
    var u := Apply(s, Enqueue(id));
    SumZero(s.recorded, Times(id));
    forall k | k in u.claims
      ensures Owns(k, u.rows)
    {
      assert Owns(k, s.rows);
    }
  }

  lemma LeaseStep(s: State, step: Step)
    requires LeaseInv(s) && (step.ReleaseStale? ==> OnTime(s))
    ensures LeaseInv(Apply(s, step))
    ensures forall id | id in s.rows && Finished(s.rows[id]) :: Apply(s, step).rows[id] == s.rows[id]
  {
    match step
    case Enqueue(id) => if id !in s.rows { EnqueueLeases(s, id); }
    case ClaimRow(id) => if id in s.rows && Due(s.rows[id], s.clock) { ClaimLeases(s, id); }
    case Persist(c, outcome) =>
      if c < |s.claims| && s.claims[c].held {
        assert Owns(s.claims[c], s.rows);
        var r := After(s.claims[c].row, outcome, s.maxAttempts, s.clock);
        SettleLease(s, c, r, [AttemptOf(s.claims[c].id, r, s.clock)]);
      }
    case HandBack(c) =>
      if c < |s.claims| && s.claims[c].held {
        assert Owns(s.claims[c], s.rows);
        SettleLease(s, c, s.claims[c].row.(status := Failed, nextAt := s.clock, updatedAt := s.clock), []);
        assert s.recorded + [] == s.recorded;
      }
    case Lose(c) => if c < |s.claims| { LoseLease(s, c); }
    case ReleaseStale => JanitorSparesHolders(s);
    case Tick(_) =>
  }

  /** A stale pass takes a held row from its holder exactly when the claim is older than the timeout. */
  lemma JanitorTakesIff(s: State, c: nat)
    requires LeaseInv(s) && c < |s.claims| && s.claims[c].held
    ensures !Owns(s.claims[c], Apply(s, ReleaseStale).rows) <==> s.clock - s.claims[c].at > s.timeout
  {
    assert Owns(s.claims[c], s.rows);
    var id := s.claims[c].id;
    assert Apply(s, ReleaseStale).rows[id] == Requeued(s.rows[id], s.timeout, s.clock);
  }

  /** Exactly one step breaks the leases: a stale pass over a held claim older than the timeout. */
  lemma LeaseStepIff(s: State, step: Step)
    requires LeaseInv(s)
    ensures LeaseInv(Apply(s, step)) <==> (step.ReleaseStale? ==> OnTime(s))
  {
    if step.ReleaseStale? ==> OnTime(s) {
      LeaseStep(s, step);
    } else {
      var k :| k in s.claims && k.held && s.clock - k.at > s.timeout;
      var c :| 0 <= c < |s.claims| && s.claims[c] == k;
      JanitorTakesIff(s, c);
      assert k in Apply(s, step).claims;
    }
  }

  lemma TimelyPrefix(maxAttempts: int, timeout: int, run: seq<Step>, n: nat)
    requires Timely(maxAttempts, timeout, run) && n <= |run|
    ensures Timely(maxAttempts, timeout, run[..n])
  {
    forall k | 0 <= k < n && run[..n][k].ReleaseStale?
      ensures OnTime(Exec(maxAttempts, timeout, run[..n][..k]))
    {
      assert run[..n][..k] == run[..k] && run[k].ReleaseStale?;
    }
  }

  lemma {:induction false} RunsKeepLeases(maxAttempts: int, timeout: int, run: seq<Step>)
    requires Timely(maxAttempts, timeout, run)
    ensures LeaseInv(Exec(maxAttempts, timeout, run))
  {
    if run != [] {
      var n := |run| - 1;
      TimelyPrefix(maxAttempts, timeout, run, n);
      RunsKeepLeases(maxAttempts, timeout, run[..n]);
      LeaseStep(Exec(maxAttempts, timeout, run[..n]), run[n]);
    }
  }

  lemma HeldIsOnTime(maxAttempts: int, timeout: int, run: seq<Step>, n: nat)
    requires n < |run| && run[n].ReleaseStale?
    requires LeaseInv(Exec(maxAttempts, timeout, run[..n])) && LeaseInv(Exec(maxAttempts, timeout, run[..n + 1]))
    ensures OnTime(Exec(maxAttempts, timeout, run[..n]))
  {
    assert run[..n + 1] == run[..n] + [run[n]];
    ExecSnoc(maxAttempts, timeout, run[..n], run[n]);
    LeaseStepIff(Exec(maxAttempts, timeout, run[..n]), run[n]);
  }

  /** The exact condition: the leases hold all along a run if and only if none of its stale passes comes upon a held
      claim older than the timeout. */
  lemma LeasesHoldIff(maxAttempts: int, timeout: int, run: seq<Step>)
    ensures (forall n | 0 <= n <= |run| :: LeaseInv(Exec(maxAttempts, timeout, run[..n])))
            <==> Timely(maxAttempts, timeout, run)
  {
    if Timely(maxAttempts, timeout, run) {
      forall n | 0 <= n <= |run|
        ensures LeaseInv(Exec(maxAttempts, timeout, run[..n]))
      {
        TimelyPrefix(maxAttempts, timeout, run, n);
        RunsKeepLeases(maxAttempts, timeout, run[..n]);
      }
    }
    if forall n | 0 <= n <= |run| :: LeaseInv(Exec(maxAttempts, timeout, run[..n])) {
      forall n | 0 <= n < |run| && run[n].ReleaseStale?
        ensures OnTime(Exec(maxAttempts, timeout, run[..n]))
      {
        assert LeaseInv(Exec(maxAttempts, timeout, run[..n])) && LeaseInv(Exec(maxAttempts, timeout, run[..n + 1]));
        HeldIsOnTime(maxAttempts, timeout, run, n);
      }
    }
  }

  /** No delivery ever has two holders, a held row is being delivered, and every attempt count is the number of
      attempts recorded. */
  lemma OneHolderPerDelivery(maxAttempts: int, timeout: int, run: seq<Step>)
    requires Timely(maxAttempts, timeout, run)
    ensures var s := Exec(maxAttempts, timeout, run);
            && (forall a, b | 0 <= a < b < |s.claims| && s.claims[a].held && s.claims[b].held ::
                  s.claims[a].id != s.claims[b].id)
            && (forall k | k in s.claims && k.held :: k.id in s.rows && s.rows[k.id].status == Delivering)
            && (forall id | id in s.rows :: s.rows[id].attempts == Sum(s.recorded, Times(id)))
  {
    RunsKeepLeases(maxAttempts, timeout, run);
    var s := Exec(maxAttempts, timeout, run);
    forall k | k in s.claims && k.held
      ensures k.id in s.rows && s.rows[k.id].status == Delivering
    {
      assert Owns(k, s.rows);
    }
  }

  lemma FinishedStays(s: State, step: Step, id: Id)
    requires LeaseInv(s) && (step.ReleaseStale? ==> OnTime(s)) && id in s.rows && Finished(s.rows[id])
    ensures id in Apply(s, step).rows && Apply(s, step).rows[id] == s.rows[id]
  {
    LeaseStep(s, step);
  }

  lemma ExecSnoc(maxAttempts: int, timeout: int, run: seq<Step>, step: Step)
    ensures Exec(maxAttempts, timeout, run + [step]) == Apply(Exec(maxAttempts, timeout, run), step)
  {
    assert (run + [step])[..|run|] == run;
  }

  /** Delivered and dead are permanent. */
  lemma {:induction false} FinishedIsFinal(maxAttempts: int, timeout: int, run: seq<Step>, more: seq<Step>, id: Id)
    requires Timely(maxAttempts, timeout, run + more)
    requires id in Exec(maxAttempts, timeout, run).rows && Finished(Exec(maxAttempts, timeout, run).rows[id])
    ensures id in Exec(maxAttempts, timeout, run + more).rows
    ensures Exec(maxAttempts, timeout, run + more).rows[id] == Exec(maxAttempts, timeout, run).rows[id]
    decreases |more|
  {
    if more == [] {
      assert run + more == run;
    } else {
      var first, rest := more[0], more[1..];
      assert run + more == (run + [first]) + rest;
      assert (run + more)[..|run|] == run && (run + more)[|run|] == first;
      TimelyPrefix(maxAttempts, timeout, run + more, |run|);
      RunsKeepLeases(maxAttempts, timeout, run);
      ExecSnoc(maxAttempts, timeout, run, first);
      FinishedStays(Exec(maxAttempts, timeout, run), first, id);
      FinishedIsFinal(maxAttempts, timeout, run + [first], rest, id);
    }
  }

  // ---- past the timeout ----

  /** A stale pass and a second claim, seen by the holder c of the row. */
  function Reclaimed(s: State, c: nat): State
    requires c < |s.claims|
  {
    Apply(Apply(s, ReleaseStale), ClaimRow(s.claims[c].id))
  }

  /** A delivery gets a second holder exactly when the first one's claim is older than the timeout. */
  lemma SecondHolderIff(s: State, c: nat)
    requires LeaseInv(s) && c < |s.claims| && s.claims[c].held
    ensures var u, id := Reclaimed(s, c), s.claims[c].id;
            && c < |u.claims| && u.claims[c] == s.claims[c]
            && (|u.claims| > |s.claims| <==> s.clock - s.claims[c].at > s.timeout)
            && (|u.claims| > |s.claims| ==> u.claims == s.claims + [Claim(id, u.rows[id], s.clock, true)])
  {
    assert Owns(s.claims[c], s.rows);
    var id := s.claims[c].id;
    assert Apply(s, ReleaseStale).rows[id] == Requeued(s.rows[id], s.timeout, s.clock);
  }

  /** Likewise a holder that fails after a second one delivered overwrites the delivered row exactly when its claim was
      older than the timeout; the attempt the second one recorded is lost with it. */
  lemma LateWriterOverwritesIff(s: State, c: nat, error: string, jitter: real)
    requires LeaseInv(s) && c < |s.claims| && s.claims[c].held
    ensures var id := s.claims[c].id;
            var done := Apply(Reclaimed(s, c), Persist(|s.claims|, Success));
            var late := Apply(done, Persist(c, Failure(error, jitter)));
            && id in done.rows && id in late.rows
            && (done.rows[id].status == Delivered && late.rows[id].status != Delivered
                <==> s.clock - s.claims[c].at > s.timeout)
            && (done.rows[id].status == Delivered ==> late.rows[id].attempts == done.rows[id].attempts)
  {
    SecondHolderIff(s, c);
    assert Owns(s.claims[c], s.rows);
    var id := s.claims[c].id;
    assert Apply(s, ReleaseStale).rows[id] == Requeued(s.rows[id], s.timeout, s.clock);
  }

  /** A worker claims a row, stalls past the timeout, and another one delivers it. */
  function Overtaken(timeout: nat): seq<Step> {
    [Enqueue(0)] + [ClaimRow(0)] + [Tick(timeout + 1)] + [ReleaseStale] + [ClaimRow(0)] + [Persist(1, Success)]
  }

  lemma OvertakenState(timeout: nat, maxAttempts: int)
    ensures var t := timeout + 1;
            Exec(maxAttempts, timeout, Overtaken(timeout)) ==
            State(maxAttempts, timeout, t, map[0 := Row(Delivered, 1, t, "", t)],
                  [Claim(0, Row(Delivering, 0, 0, "", 0), 0, true), Claim(0, Row(Delivering, 0, t, "", t), t, false)],
                  [Attempt(0, t, 0)])
  {
    var t := timeout + 1;
    var c0, c1 := Claim(0, Row(Delivering, 0, 0, "", 0), 0, true), Claim(0, Row(Delivering, 0, t, "", t), t, true);
    var r1 := [Enqueue(0)];
    var r2 := r1 + [ClaimRow(0)];
    var r3 := r2 + [Tick(t)];
    var r4 := r3 + [ReleaseStale];
    var r5 := r4 + [ClaimRow(0)];
    assert [] + [Enqueue(0)] == r1;
    ExecSnoc(maxAttempts, timeout, [], Enqueue(0));
    assert Exec(maxAttempts, timeout, r1)
        == State(maxAttempts, timeout, 0, map[0 := Row(Pending, 0, 0, "", 0)], [], []);
    ExecSnoc(maxAttempts, timeout, r1, ClaimRow(0));
    assert Exec(maxAttempts, timeout, r2) == State(maxAttempts, timeout, 0, map[0 := c0.row], [c0], []);
    ExecSnoc(maxAttempts, timeout, r2, Tick(t));
    assert Exec(maxAttempts, timeout, r3) == State(maxAttempts, timeout, t, map[0 := c0.row], [c0], []);
    ExecSnoc(maxAttempts, timeout, r3, ReleaseStale);
    assert Exec(maxAttempts, timeout, r4)
        == State(maxAttempts, timeout, t, map[0 := Row(Failed, 0, t, "", t)], [c0], []);
    ExecSnoc(maxAttempts, timeout, r4, ClaimRow(0));
    assert Exec(maxAttempts, timeout, r5) == State(maxAttempts, timeout, t, map[0 := c1.row], [c0, c1], []);
    ExecSnoc(maxAttempts, timeout, r5, Persist(1, Success));
  }

  /** The assumption is needed: a worker that persists after losing its claim brings a delivered row back. */
  lemma LateWriterRevives(timeout: nat, maxAttempts: int)
    requires maxAttempts >= 2
    ensures var run := Overtaken(timeout);
            var s, u := Exec(maxAttempts, timeout, run),
                        Exec(maxAttempts, timeout, run + [Persist(0, Failure("timeout", 1.0))]);
            0 in s.rows && s.rows[0].status == Delivered && 0 in u.rows && u.rows[0].status == Failed
  {
    OvertakenState(timeout, maxAttempts);
    ExecSnoc(maxAttempts, timeout, Overtaken(timeout), Persist(0, Failure("timeout", 1.0)));
  }

  // ---- how retries are spaced ----

  /** Two to the attempt number, which counts no further than sixteen. */
  function Spread(n: nat): nat { Pow2(if n > 16 then 16 else n) }

  /** The outcome of an attempt, on the row it leaves. */
  lemma AttemptLeaves(s: State, c: nat, outcome: Outcome)
    requires c < |s.claims| && s.claims[c].held && s.claims[c].id in s.rows
    ensures var k := s.claims[c]; var u := Apply(s, Persist(c, outcome)); var r := u.rows[k.id];
            && u.rows == s.rows[k.id := r] && r.attempts == k.row.attempts + 1 && r.updatedAt == s.clock
            && !u.claims[c].held
            && match outcome
               case Success => r.status == Delivered && r.lastError == ""
               case NoEndpoint => r.status == Dead
               case Failure(error, _) =>
                 && r.lastError == error
                 && r.status == (if k.row.attempts + 1 < s.maxAttempts then Failed else Dead)
  {
  }

  /** After a failed attempt that is not the last, nobody can claim the row for 0.8 * 2^n seconds, and whoever asks
      1.2 * 2^n seconds later or more gets it, n being the number of attempts made. */
  lemma FailureReschedules(s: State, c: nat, error: string, jitter: real, elapsed: nat)
    requires c < |s.claims| && s.claims[c].held && s.claims[c].id in s.rows
    requires s.claims[c].row.attempts + 1 < s.maxAttempts && Jitter(jitter)
    ensures var id, n := s.claims[c].id, s.claims[c].row.attempts + 1;
            var u := Apply(s, Persist(c, Failure(error, jitter)));
            var v := Apply(Apply(u, Tick(elapsed)), ClaimRow(id));
            && (elapsed < 800_000_000 * Spread(n) ==> v.claims == u.claims && v.rows == u.rows)
            && (elapsed >= 1_200_000_000 * Spread(n) ==>
                  |v.claims| == |u.claims| + 1 && v.rows[id].status == Delivering)
  {
    DelayBounds(Spread(s.claims[c].row.attempts + 1), jitter);
  }

  /** A new delivery can be claimed at once, and so can one handed back on shutdown, with its attempts unchanged. */
  lemma FreshRowsAreClaimable(s: State, id: Id, c: nat)
    ensures id !in s.rows ==>
              var u := Apply(Apply(s, Enqueue(id)), ClaimRow(id));
              |u.claims| == |s.claims| + 1 && u.claims[|s.claims|].id == id && u.claims[|s.claims|].row.attempts == 0
    ensures c < |s.claims| && s.claims[c].held && s.claims[c].id in s.rows ==>
              var u := Apply(Apply(s, HandBack(c)), ClaimRow(s.claims[c].id));
              |u.claims| == |s.claims| + 1 && u.claims[|s.claims|].row.attempts == s.claims[c].row.attempts
              && u.recorded == s.recorded
  {
  }

  /** Since the failure that left r, the row is as it was or its time has come, and all claims came after that. */
  ghost predicate Spaced(u: State, id: Id, r: Row, before: nat) {
    && before <= |u.claims| && id in u.rows && (u.rows[id] == r || r.nextAt <= u.clock)
    && forall k | before <= k < |u.claims| && u.claims[k].id == id :: r.nextAt <= u.claims[k].at
  }

  lemma SpacedStep(u: State, id: Id, r: Row, before: nat, step: Step)
    requires Spaced(u, id, r, before) && LeaseInv(u) && r.status == Failed
    ensures Spaced(Apply(u, step), id, r, before)
  {
    match step
    case Persist(c, _) => if c < |u.claims| && u.claims[c].held { assert Owns(u.claims[c], u.rows); }
    case HandBack(c) => if c < |u.claims| && u.claims[c].held { assert Owns(u.claims[c], u.rows); }
    case _ =>
  }

  lemma {:induction false} SpacedRuns(maxAttempts: int, timeout: int, run: seq<Step>, more: seq<Step>, id: Id, r: Row,
                                      before: nat)
    requires Timely(maxAttempts, timeout, run + more) && r.status == Failed
    requires Spaced(Exec(maxAttempts, timeout, run), id, r, before)
    ensures Spaced(Exec(maxAttempts, timeout, run + more), id, r, before)
    decreases |more|
  {
    if more == [] {
      assert run + more == run;
    } else {
      var first, rest := more[0], more[1..];
      assert run + more == (run + [first]) + rest && (run + more)[..|run|] == run;
      TimelyPrefix(maxAttempts, timeout, run + more, |run|);
      RunsKeepLeases(maxAttempts, timeout, run);
      SpacedStep(Exec(maxAttempts, timeout, run), id, r, before, first);
      ExecSnoc(maxAttempts, timeout, run, first);
      SpacedRuns(maxAttempts, timeout, run + [first], rest, id, r, before);
    }
  }

  /** Over any timely run every claim of a delivery made after its n-th attempt failed comes at least 0.8 * 2^n seconds
      after that failure was recorded. */
  lemma RetriesAreSpaced(maxAttempts: int, timeout: int, run: seq<Step>, s: State, c: nat, error: string, jitter: real,
                         more: seq<Step>, u: State)
    requires s == Exec(maxAttempts, timeout, run) && c < |s.claims| && s.claims[c].held && s.claims[c].id in s.rows
    requires s.claims[c].row.attempts + 1 < s.maxAttempts && Jitter(jitter)
    requires Timely(maxAttempts, timeout, run + [Persist(c, Failure(error, jitter))] + more)
    requires u == Exec(maxAttempts, timeout, run + [Persist(c, Failure(error, jitter))] + more)
    ensures forall k | |s.claims| <= k < |u.claims| && u.claims[k].id == s.claims[c].id ::
              u.claims[k].at >= s.clock + 800_000_000 * Spread(s.claims[c].row.attempts + 1)
  {
    var id, step := s.claims[c].id, Persist(c, Failure(error, jitter));
    var r := Apply(s, step).rows[id];
    DelayBounds(Spread(s.claims[c].row.attempts + 1), jitter);
    ExecSnoc(maxAttempts, timeout, run, step);
    SpacedRuns(maxAttempts, timeout, run + [step], more, id, r, |s.claims|);
  }

  // ---- how long it may all take ----

  function WaitOf(id: Id): Attempt -> int {
    (a: Attempt) => if a.id == id then a.wait else 0
  }

  predicate JitterOk(step: Step) {
    step.Persist? && step.outcome.Failure? ==> Jitter(step.outcome.jitter)
  }

  lemma {:induction false} Pow2Grows(a: nat, b: nat)
    requires a <= b
    ensures Pow2(a) <= Pow2(b)
  {
    if a < b {
      Pow2Grows(a, b - 1);
    }
  }

  /** The waits scheduled so far, against the attempts made: the last of a finished delivery scheduled none. */
  predicate WaitFits(r: Row, waited: int) {
    && (Finished(r) ==> r.attempts >= 1)
    && waited <= 1_200_000_000 * (Pow2(if Finished(r) then r.attempts else r.attempts + 1) - 2)
  }

  ghost predicate WaitsInv(s: State) {
    forall id | id in s.rows :: WaitFits(s.rows[id], Sum(s.recorded, WaitOf(id)))
  }

  lemma AttemptWaits(r: Row, outcome: Outcome, maxAttempts: int, now: int, id: Id, waited: int)
    requires !Finished(r) && WaitFits(r, waited) && (outcome.Failure? ==> Jitter(outcome.jitter))
    ensures var n := After(r, outcome, maxAttempts, now); WaitFits(n, waited + AttemptOf(id, n, now).wait)
  {
    var n := r.attempts + 1;
    if outcome.Failure? && n < maxAttempts {
      DelayBounds(Spread(n), outcome.jitter);
      Pow2Grows(if n > 16 then 16 else n, n);
    }
  }

  /** Only the attempted delivery's waits change. */
  lemma WaitsSnoc(recorded: seq<Attempt>, a: Attempt, rows: map<Id, Row>, r: Row)
    requires forall id | id in rows :: WaitFits(rows[id], Sum(recorded, WaitOf(id)))
    requires WaitFits(r, Sum(recorded, WaitOf(a.id)) + a.wait)
    ensures forall id | id in rows[a.id := r] :: WaitFits(rows[a.id := r][id], Sum(recorded + [a], WaitOf(id)))
  {
    forall id | id in rows[a.id := r]
      ensures WaitFits(rows[a.id := r][id], Sum(recorded + [a], WaitOf(id)))
    {
      SumSnoc(recorded, a, WaitOf(id));
    }
  }

  lemma PersistWaits(s: State, c: nat, outcome: Outcome)
    requires LeaseInv(s) && WaitsInv(s) && c < |s.claims| && s.claims[c].held
    requires outcome.Failure? ==> Jitter(outcome.jitter)
    ensures WaitsInv(Apply(s, Persist(c, outcome)))
  {
    var k := s.claims[c];
    assert Owns(k, s.rows);
    var r := After(k.row, outcome, s.maxAttempts, s.clock);
    AttemptWaits(k.row, outcome, s.maxAttempts, s.clock, k.id, Sum(s.recorded, WaitOf(k.id)));
    WaitsSnoc(s.recorded, AttemptOf(k.id, r, s.clock), s.rows, r);
  }

  lemma NoWaitsYet(recorded: seq<Attempt>, id: Id)
    requires forall a | a in recorded :: a.id != id
    ensures Sum(recorded, WaitOf(id)) == 0
  {
    SumZero(recorded, WaitOf(id));
  }

  lemma WaitsStep(s: State, step: Step)
    requires LeaseInv(s) && WaitsInv(s) && JitterOk(step)
    ensures WaitsInv(Apply(s, step))
  {
    match step
    case Enqueue(id) => if id !in s.rows { NoWaitsYet(s.recorded, id); }
    case Persist(c, outcome) => if c < |s.claims| && s.claims[c].held { PersistWaits(s, c, outcome); }
    case HandBack(c) =>
      if c < |s.claims| && s.claims[c].held {
        assert Owns(s.claims[c], s.rows);
        SameWaits(s, Apply(s, step));
      }
    case ClaimRow(_) => SameWaits(s, Apply(s, step));
    case ReleaseStale => SameWaits(s, Apply(s, step));
    case Lose(_) =>
    case Tick(_) =>
  }

  /** A step that records no attempt and finishes nothing. */
  lemma SameWaits(s: State, u: State)
    requires WaitsInv(s) && u.recorded == s.recorded && u.rows.Keys == s.rows.Keys
    requires forall id | id in s.rows ::
               u.rows[id].attempts == s.rows[id].attempts && (Finished(u.rows[id]) <==> Finished(s.rows[id]))
    ensures WaitsInv(u)
  {
    forall id | id in u.rows
      ensures WaitFits(u.rows[id], Sum(u.recorded, WaitOf(id)))
    {
      assert WaitFits(s.rows[id], Sum(s.recorded, WaitOf(id)));
    }
  }

  lemma {:induction false} RunsKeepWaits(maxAttempts: int, timeout: int, run: seq<Step>)
    requires Timely(maxAttempts, timeout, run) && forall step | step in run :: JitterOk(step)
    ensures WaitsInv(Exec(maxAttempts, timeout, run))
  {
    if run != [] {
      var n := |run| - 1;
      TimelyPrefix(maxAttempts, timeout, run, n);
      RunsKeepLeases(maxAttempts, timeout, run[..n]);
      RunsKeepWaits(maxAttempts, timeout, run[..n]);
      WaitsStep(Exec(maxAttempts, timeout, run[..n]), run[n]);
    }
  }

  /** Over any timely run the waits scheduled for one delivery add up to at most 1.2 * (2^m - 2) seconds, m being the
      number of attempts allowed. */
  lemma ScheduledWaitsAreBounded(maxAttempts: int, timeout: int, run: seq<Step>, id: Id)
    requires maxAttempts >= 1 && Timely(maxAttempts, timeout, run) && forall step | step in run :: JitterOk(step)
    requires id in Exec(maxAttempts, timeout, run).rows
    ensures Sum(Exec(maxAttempts, timeout, run).recorded, WaitOf(id)) <= 1_200_000_000 * (Pow2(maxAttempts) - 2)
  {
    RunsKeepWaits(maxAttempts, timeout, run);
    AttemptsAreBounded(maxAttempts, timeout, run);
    WaitBound(Exec(maxAttempts, timeout, run).rows[id], Sum(Exec(maxAttempts, timeout, run).recorded, WaitOf(id)),
              maxAttempts);
  }

  lemma WaitBound(r: Row, waited: int, maxAttempts: int)
    requires maxAttempts >= 1 && Bounded(r, maxAttempts) && WaitFits(r, waited)
    ensures waited <= 1_200_000_000 * (Pow2(maxAttempts) - 2)
  {
    Pow2Grows(if Finished(r) then r.attempts else r.attempts + 1, maxAttempts);
  }

  // ---- the queue itself ----

  /** The row as its claim leaves it. */
  function Taken(r: Row, now: int): Row { r.(status := Delivering, updatedAt := now) }

  /** One claiming step for each row of a batch. */
  function ClaimSteps(batch: seq<Id>): seq<Step> {
    seq(|batch|, i requires 0 <= i < |batch| => ClaimRow(batch[i]))
  }

  lemma ClaimStepsSnoc(run: seq<Step>, batch: seq<Id>, id: Id)
    ensures run + ClaimSteps(batch + [id]) == run + ClaimSteps(batch) + [ClaimRow(id)]
  {
  }

  /** The rows of the batch were claimed and no other row changed. */
  ghost predicate TookOnly(was: map<Id, Row>, rows: map<Id, Row>, batch: seq<Id>, now: int) {
    && rows.Keys == was.Keys
    && forall id | id in rows :: rows[id] == if id in batch then Taken(was[id], now) else was[id]
  }

  /** The batch and what is left of the due rows: each row once, the batch due no later than the rest. */
  ghost predicate Picked(was: map<Id, Row>, batch: seq<Id>, left: set<Id>, now: int) {
    && (forall i, j | 0 <= i < j < |batch| :: batch[i] != batch[j])
    && (forall id | id in batch :: id in was && id !in left)
    && (forall id | id in was :: Due(was[id], now) <==> id in batch || id in left)
    && (forall id | id in left :: id in was)
    && (forall id, x | id in left && x in batch :: was[x].nextAt <= was[id].nextAt)
  }

  lemma PicksNext(was: map<Id, Row>, rows: map<Id, Row>, batch: seq<Id>, left: set<Id>, now: int, id: Id)
    requires TookOnly(was, rows, batch, now) && Picked(was, batch, left, now) && id in left
    requires forall x | x in left :: rows[id].nextAt <= rows[x].nextAt
    ensures Due(rows[id], now) && Picked(was, batch + [id], left - {id}, now)
    ensures TookOnly(was, rows[id := Taken(rows[id], now)], batch + [id], now)
  {
  }

  /** The outbox table and the copies the workers hold, with the attempts recorded and the steps taken. */
  class Queue {
    const maxAttempts: int
    const timeout: int
    var clock: int
    var rows: map<Id, Row>
    var claims: seq<Claim>
    ghost var recorded: seq<Attempt>
    ghost var run: seq<Step>

    ghost function Now(): State
      reads this
    {
      State(maxAttempts, timeout, clock, rows, claims, recorded)
    }

    /** The queue is where its steps lead: what is proved of runs is true of it. */
    ghost predicate Valid()
      reads this
    {
      Now() == Exec(maxAttempts, timeout, run)
    }

    ghost method Took(before: State, step: Step)
      requires before == Exec(maxAttempts, timeout, run) && Now() == Apply(before, step)
      modifies this`run
      ensures Valid() && run == old(run) + [step]
    {
      ExecSnoc(maxAttempts, timeout, run, step);
      run := run + [step];
    }

    constructor (maxAttempts: int, timeout: int)
      ensures this.maxAttempts == maxAttempts && this.timeout == timeout && Valid() && run == []
    {
      this.maxAttempts, this.timeout, clock := maxAttempts, timeout, 0;
      rows, claims, recorded, run := map[], [], [], [];
    }

    method Elapse(elapsed: nat)
      requires Valid()
      modifies this
      ensures Valid() && run == old(run) + [Tick(elapsed)]
    {
      clock := clock + elapsed;
      Took(old(Now()), Tick(elapsed));
    }

    method Create(id: Id)
      requires Valid()
      modifies this
      ensures Valid() && run == old(run) + [Enqueue(id)]
    {
      if id !in rows {
        rows := rows[id := Row(Pending, 0, clock, "", clock)];
      }
      Took(old(Now()), Enqueue(id));
    }

    /** An attempt of the worker holding claim c: its copy of the row records the outcome and is written back by id. */
    method Deliver(c: nat, outcome: Outcome)
      requires Valid() && c < |claims| && claims[c].held && claims[c].id in rows
      modifies this
      ensures Valid() && run == old(run) + [Persist(c, outcome)]
      ensures Now() == Apply(old(Now()), Persist(c, outcome))
    {
      var id := claims[c].id;
      var delivery := new Delivery(claims[c].row);
      match outcome {
        case Success => delivery.RecordSuccess(clock);
        case Failure(error, jitter) => delivery.RecordFailure(error, maxAttempts, clock, jitter);
        case NoEndpoint => delivery.Park(clock);
      }
      rows := rows[id := delivery.Value()];
      claims := Drop(claims, c);
      recorded := recorded + [AttemptOf(id, rows[id], clock)];
      Took(old(Now()), Persist(c, outcome));
    }

    /** On shutdown the poller gives back the row in its hand. */
    method Release(c: nat)
      requires Valid() && c < |claims| && claims[c].held && claims[c].id in rows
      modifies this
      ensures Valid() && run == old(run) + [HandBack(c)]
      ensures Now() == Apply(old(Now()), HandBack(c))
    {
      rows := rows[claims[c].id := claims[c].row.(status := Failed, nextAt := clock, updatedAt := clock)];
      claims := Drop(claims, c);
      Took(old(Now()), HandBack(c));
    }

    /** A worker dies, or the rest of a batch is left behind. */
    method Crash(c: nat)
      requires Valid() && c < |claims|
      modifies this
      ensures Valid() && run == old(run) + [Lose(c)] && rows == old(rows)
    {
      claims := Drop(claims, c);
      Took(old(Now()), Lose(c));
    }

    /** The janitor: exactly the stuck rows go back on the queue. */
    method ReleaseStale() returns (released: nat)
      requires Valid()
      modifies this
      ensures Valid() && run == old(run) + [Step.ReleaseStale]
      ensures rows == map id | id in old(rows) :: Requeued(old(rows)[id], timeout, clock)
      ensures released == |set id | id in old(rows) && Stale(old(rows)[id], timeout, clock)|
    {
      released := Requeue();
      Took(old(Now()), Step.ReleaseStale);
    }

    method Requeue() returns (released: nat)
      modifies this`rows
      ensures rows == map id | id in old(rows) :: Requeued(old(rows)[id], timeout, clock)
      ensures released == |set id | id in old(rows) && Stale(old(rows)[id], timeout, clock)|
    {
      var left := rows.Keys;
      released := 0;
      ghost var done: set<Id> := {};
      while left != {}
        invariant left <= old(rows).Keys && rows.Keys == old(rows).Keys
        invariant forall id | id in rows ::
                    rows[id] == if id in left then old(rows)[id] else Requeued(old(rows)[id], timeout, clock)
        invariant done == set id | id in old(rows) && id !in left && Stale(old(rows)[id], timeout, clock)
        invariant released == |done|
        decreases left
      {
        var id :| id in left;
        left := left - {id};
        if Stale(rows[id], timeout, clock) {
          rows := rows[id := rows[id].(status := Failed, nextAt := clock, updatedAt := clock)];
          released := released + 1;
          done := done + {id};
        }
      }
      assert done == set id | id in old(rows) && Stale(old(rows)[id], timeout, clock);
    }

    /** One row of the batch. */
    method ClaimOne(id: Id)
      requires Valid() && id in rows && Due(rows[id], clock)
      modifies this
      ensures Valid() && run == old(run) + [ClaimRow(id)] && clock == old(clock)
      ensures rows == old(rows)[id := Taken(old(rows)[id], clock)]
      ensures claims == old(claims) + [Claim(id, rows[id], clock, true)]
    {
      var r := rows[id].(status := Delivering, updatedAt := clock);
      rows := rows[id := r];
      claims := claims + [Claim(id, r, clock, true)];
      Took(old(Now()), ClaimRow(id));
    }

    /** Claims due rows, earliest first, up to the limit: one claiming step each. A row left unclaimed is not due, or
        the batch is full and every claimed row was due no later. */
    method ClaimDue(limit: nat) returns (batch: seq<Id>)
      requires Valid()
      modifies this
      ensures Valid() && run == old(run) + ClaimSteps(batch) && |claims| == |old(claims)| + |batch|
      ensures |batch| <= limit && forall i, j | 0 <= i < j < |batch| :: batch[i] != batch[j]
      ensures forall id | id in batch :: id in old(rows) && Due(old(rows)[id], clock)
      ensures rows == map id | id in old(rows) ::
                if id in batch then Taken(old(rows)[id], clock) else old(rows)[id]
      ensures forall id | id in old(rows) && Due(old(rows)[id], clock) && id !in batch ::
                |batch| == limit && forall x | x in batch :: old(rows)[x].nextAt <= old(rows)[id].nextAt
      ensures clock == old(clock)
    {
      batch := [];
      var left := set id | id in rows && Due(rows[id], clock);
      while left != {} && |batch| < limit
        invariant Valid() && run == old(run) + ClaimSteps(batch) && |claims| == |old(claims)| + |batch|
        invariant clock == old(clock) && |batch| <= limit && left <= rows.Keys
        invariant TookOnly(old(rows), rows, batch, clock) && Picked(old(rows), batch, left, clock)
        decreases left
      {
        var id := Earliest(left);
        PicksNext(old(rows), rows, batch, left, clock, id);
        ClaimOne(id);
        ClaimStepsSnoc(old(run), batch, id);
        batch := batch + [id];
        left := left - {id};
      }
    }

    method Earliest(ids: set<Id>) returns (e: Id)
      requires ids != {} && ids <= rows.Keys
      ensures e in ids && forall id | id in ids :: rows[e].nextAt <= rows[id].nextAt
    {
      e :| e in ids;
      var left := ids - {e};
      while left != {}
        invariant left <= ids && e in ids
        invariant forall id | id in ids && id !in left :: rows[e].nextAt <= rows[id].nextAt
        decreases left
      {
        var id :| id in left;
        if rows[id].nextAt < rows[e].nextAt {
          e := id;
        }
        left := left - {id};
      }
    }
  }
}
