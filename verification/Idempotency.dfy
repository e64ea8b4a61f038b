/** The claim protocol behind the Idempotency-Key header: an expiring key store, the middleware that uses it, and
    the runs of handlers it allows. */
module Idempotency {
  import opened Sums
  import opened Json

  /** The key a merchant's header is stored under. */
  function StoreKey(merchant: string, header: string): string {
    "idem:" + merchant + ":" + header
  }

  /** Merchant ids have one length, so two merchants never share a key. */
  lemma KeysAreScoped(m1: string, h1: string, m2: string, h2: string)
    requires |m1| == |m2| && StoreKey(m1, h1) == StoreKey(m2, h2)
    ensures m1 == m2 && h1 == h2
  {
    var k1, k2 := StoreKey(m1, h1), StoreKey(m2, h2);
    assert m1 == k1[5..5 + |m1|] && m2 == k2[5..5 + |m2|];
    assert h1 == k1[6 + |m1|..] && h2 == k2[6 + |m2|..];
  }

  datatype Response = Response(status: int, contentType: string, body: string)

  const DEFAULT_CONTENT_TYPE := "application/json; charset=utf-8"

  /** The response as its record keeps it: the body is stored as JSON inside JSON, and so compacted. */
  function Encoded(r: Response): Response { r.(body := Compact(r.body)) }

  /** The stored response as it is written to a client. */
  function Rendered(r: Response): Response {
    r.(contentType := if r.contentType == "" then DEFAULT_CONTENT_TYPE else r.contentType)
  }

  /** What a client that asks again receives. */
  function Replayed(r: Response): Response { Rendered(Encoded(r)) }

  /** The replay is the response itself exactly when its body has no white space between tokens and nothing to escape,
      and its content type was set. */
  lemma ReplayIsVerbatimIff(r: Response)
    ensures Replayed(r) == r <==> Tight(Outside, r.body) && r.contentType != ""
  {
    VerbatimIff(r.body);
  }

  /** No response the JSON encoder wrote is replayed byte for byte: its final newline is gone. One that was otherwise
      tight comes back without that newline and with nothing else changed. */
  lemma EncodedResponseLosesNewline(r: Response, json: string)
    requires r.body == json + "\n" && After(Outside, json) == Outside && r.contentType != ""
    ensures Replayed(r) != r
    ensures Tight(Outside, json) ==> Replayed(r) == r.(body := json)
  {
    NewlineIsLost(json);
  }

  /** Replaying changes the bytes, not the JSON they spell, and a second round changes nothing more. */
  lemma ReplayKeepsMeaning(r: Response)
    ensures EscapesInStrings(Outside, r.body) ==> Symbols(false, Replayed(r).body) == Symbols(false, r.body)
    ensures Replayed(Replayed(r)) == Replayed(r) && Replayed(r).status == r.status
  {
    CompactIsIdempotent(r.body);
    if EscapesInStrings(Outside, r.body) {
      CompactKeepsMeaning(r.body);
    }
  }

  datatype Stage = InProgress | Completed(response: Response)

  datatype Record = Record(stage: Stage, fingerprint: string)

  datatype Slot = Slot(record: Record, expires: int)

  datatype Answer = Won | InFlight | KeyReuse | Replay(response: Response) | StoreError

  predicate Live(store: map<string, Slot>, key: string, now: int) {
    key in store && now < store[key].expires
  }

  /** What a request that lost the claim is told when it reads the record. */
  function Look(store: map<string, Slot>, key: string, fingerprint: string, now: int): Answer {
    if !Live(store, key, now) then InFlight
    else if store[key].record.fingerprint != fingerprint then KeyReuse
    else if store[key].record.stage == InProgress then InFlight
    else Replay(store[key].record.stage.response)
  }

  // ---- the protocol ----

  /** How a handler run ended, and whether the store heard about it. */
  datatype End =
    | Active
    | Stored(at: int, response: Response)  // the response was stored
    | Unstored                             // the handler finished but its response could not be stored
    | Released(at: int)                    // a 5xx or a panic gave the key back
    | Unreleased                           // giving it back failed
    | NeverRan                             // the claim was written but its winner was never told

  datatype Handler = Handler(key: string, fingerprint: string, startedAt: int, end: End)

  datatype State = State(ttl: int, clock: int, store: map<string, Slot>, handlers: seq<Handler>)

  datatype Step =
    | Claim(key: string, fingerprint: string, told: bool)
    | Finish(i: nat, response: Response, stored: bool)
    | Abort(i: nat, deleted: bool)
    | Tick(elapsed: nat)

  function Initial(ttl: int): State {
    State(ttl, 0, map[], [])
  }

  function Claimed(s: State, h: Handler): State {
    s.(store := s.store[h.key := Slot(Record(InProgress, h.fingerprint), h.startedAt + s.ttl)],
       handlers := s.handlers + [h])
  }

  function Apply(s: State, step: Step): State {
    match step
    case Claim(key, fingerprint, told) =>
      if Live(s.store, key, s.clock) then s
      else Claimed(s, Handler(key, fingerprint, s.clock, if told then Active else NeverRan))
    case Finish(i, response, stored) =>
      if !(i < |s.handlers| && s.handlers[i].end == Active) then s
      else
        var h := s.handlers[i];
        if stored then
          s.(store := s.store[h.key := Slot(Record(Completed(Encoded(response)), h.fingerprint), s.clock + s.ttl)],
             handlers := s.handlers[i := h.(end := Stored(s.clock, response))])
        else s.(handlers := s.handlers[i := h.(end := Unstored)])
    case Abort(i, deleted) =>
      if !(i < |s.handlers| && s.handlers[i].end == Active) then s
      else
        var h := s.handlers[i];
        if deleted then s.(store := s.store - {h.key}, handlers := s.handlers[i := h.(end := Released(s.clock))])
        else s.(handlers := s.handlers[i := h.(end := Unreleased)])
    case Tick(elapsed) => s.(clock := s.clock + elapsed)
  }

  function Exec(ttl: int, run: seq<Step>): State {
    if run == [] then Initial(ttl) else Apply(Exec(ttl, run[..|run| - 1]), run[|run| - 1])
  }

  /** The request claims a key that expired under a handler still at work. */
  predicate Overtakes(s: State, step: Step) {
    && step.Claim? && !Live(s.store, step.key, s.clock)
    && exists h | h in s.handlers :: h.key == step.key && h.end == Active
  }

  /** No handler of the run is overtaken; so it is whenever every handler ends before its claim expires. */
  ghost predicate Timely(ttl: int, run: seq<Step>) {
    run != [] ==> Timely(ttl, run[..|run| - 1]) && !Overtakes(Exec(ttl, run[..|run| - 1]), run[|run| - 1])
  }

  // ---- the invariant ----

  /** Until when the store refuses the key after this handler. */
  function BlockedUntil(h: Handler, ttl: int): int {
    match h.end
    case Stored(at, _) => at + ttl
    case Released(at) => at
    case _ => h.startedAt + ttl
  }

  /** The store's entry for a key is what its latest handler left there. */
  predicate Left(h: Handler, store: map<string, Slot>, ttl: int) {
    match h.end
    case Released(_) => h.key !in store
    case Stored(at, response) =>
      h.key in store && store[h.key] == Slot(Record(Completed(Encoded(response)), h.fingerprint), at + ttl)
    case _ => h.key in store && store[h.key] == Slot(Record(InProgress, h.fingerprint), h.startedAt + ttl)
  }

  /** The last handler to have won the key. */
  function Latest(hs: seq<Handler>, key: string): Option<Handler> {
    if hs == [] then None
    else if hs[|hs| - 1].key == key then Some(hs[|hs| - 1])
    else Latest(hs[..|hs| - 1], key)
  }

  predicate Dated(h: Handler, clock: int) {
    && h.startedAt <= clock
    && (h.end.Stored? ==> h.startedAt <= h.end.at <= clock)
    && (h.end.Released? ==> h.startedAt <= h.end.at <= clock)
  }

  predicate DatesInv(hs: seq<Handler>, clock: int) {
    forall h | h in hs :: Dated(h, clock)
  }

  predicate LeftFor(latest: Option<Handler>, key: string, store: map<string, Slot>, ttl: int) {
    if latest.None? then key !in store else Left(latest.value, store, ttl)
  }

  ghost predicate StoreInv(hs: seq<Handler>, store: map<string, Slot>, ttl: int) {
    forall key: string :: LeftFor(Latest(hs, key), key, store, ttl)
  }

  /** b may follow a where both have one key. */
  predicate InTurn(a: Handler, b: Handler, ttl: int) {
    a.key == b.key ==> a.end != Active && BlockedUntil(a, ttl) <= b.startedAt
  }

  ghost predicate TurnsInv(hs: seq<Handler>, ttl: int) {
    forall i, j | 0 <= i < j < |hs| :: InTurn(hs[i], hs[j], ttl)
  }

  ghost predicate Inv(s: State) {
    && s.ttl > 0
    && DatesInv(s.handlers, s.clock) && StoreInv(s.handlers, s.store, s.ttl) && TurnsInv(s.handlers, s.ttl)
  }

  lemma {:induction false} LatestAt(hs: seq<Handler>, key: string, i: nat) returns (l: nat)
    requires i < |hs| && hs[i].key == key
    ensures i <= l < |hs| && hs[l].key == key && Latest(hs, key) == Some(hs[l])
  {
    l := |hs| - 1;
    if hs[l].key != key {
      l := LatestAt(hs[..l], key, i);
    }
  }

  lemma {:induction false} LatestIs(hs: seq<Handler>, i: nat)
    requires i < |hs| && forall j | i < j < |hs| :: hs[j].key != hs[i].key
    ensures Latest(hs, hs[i].key) == Some(hs[i])
  {
    if i < |hs| - 1 {
      LatestIs(hs[..|hs| - 1], i);
    }
  }

  lemma {:induction false} LatestUpdate(hs: seq<Handler>, i: nat, h: Handler, key: string)
    requires i < |hs| && h.key == hs[i].key && key != h.key
    ensures Latest(hs[i := h], key) == Latest(hs, key)
  {
    var n := |hs| - 1;
    if i < n {
      assert hs[i := h][..n] == hs[..n][i := h];
      LatestUpdate(hs[..n], i, h, key);
    } else {
      assert hs[i := h][..n] == hs[..n];
    }
  }

  /** When a key is free and none of its handlers is at work, every handler that had it no longer blocks it. */
  lemma FreeKeyIsUnblocked(s: State, key: string, i: nat)
    requires Inv(s) && !Live(s.store, key, s.clock) && i < |s.handlers| && s.handlers[i].key == key
    requires forall h | h in s.handlers && h.key == key :: h.end != Active
    ensures s.handlers[i].end != Active && BlockedUntil(s.handlers[i], s.ttl) <= s.clock
  {
    assert s.handlers[i] in s.handlers;
    var l := LatestAt(s.handlers, key, i);
    assert s.handlers[l] in s.handlers;
    assert LeftFor(Latest(s.handlers, key), key, s.store, s.ttl);
    assert i < l ==> InTurn(s.handlers[i], s.handlers[l], s.ttl);
  }

  lemma ClaimStore(hs: seq<Handler>, store: map<string, Slot>, ttl: int, h: Handler)
    requires StoreInv(hs, store, ttl) && (h.end == Active || h.end == NeverRan)
    ensures StoreInv(hs + [h], store[h.key := Slot(Record(InProgress, h.fingerprint), h.startedAt + ttl)], ttl)
  {
    var hs', store' := hs + [h], store[h.key := Slot(Record(InProgress, h.fingerprint), h.startedAt + ttl)];
    assert hs'[..|hs|] == hs;
    forall key: string
      ensures LeftFor(Latest(hs', key), key, store', ttl)
    {
      assert LeftFor(Latest(hs, key), key, store, ttl);
      LatestHasKey(hs, key);
    }
  }

  lemma {:induction false} LatestHasKey(hs: seq<Handler>, key: string)
    ensures Latest(hs, key).Some? ==> Latest(hs, key).value.key == key
  {
    if hs != [] {
      LatestHasKey(hs[..|hs| - 1], key);
    }
  }

  lemma ClaimTurns(s: State, h: Handler)
    requires Inv(s) && !Live(s.store, h.key, s.clock) && h.startedAt == s.clock
    requires forall x | x in s.handlers && x.key == h.key :: x.end != Active
    ensures TurnsInv(s.handlers + [h], s.ttl)
  {
    var hs := s.handlers + [h];
    forall i, j | 0 <= i < j < |hs|
      ensures InTurn(hs[i], hs[j], s.ttl)
    {
      if j < |s.handlers| {
        assert InTurn(s.handlers[i], s.handlers[j], s.ttl);
      } else if hs[i].key == h.key {
        FreeKeyIsUnblocked(s, h.key, i);
      }
    }
  }

  lemma ClaimKeeps(s: State, h: Handler)
    requires Inv(s) && !Live(s.store, h.key, s.clock)
    requires forall x | x in s.handlers && x.key == h.key :: x.end != Active
    requires h.startedAt == s.clock && (h.end == Active || h.end == NeverRan)
    ensures Inv(Claimed(s, h))
  {
    ClaimStore(s.handlers, s.store, s.ttl, h);
    ClaimTurns(s, h);
    ClaimDates(s.handlers, s.clock, h);
  }

  lemma ClaimDates(hs: seq<Handler>, clock: int, h: Handler)
    requires DatesInv(hs, clock) && Dated(h, clock)
    ensures DatesInv(hs + [h], clock)
  {
  }

  lemma ActiveIsLatest(hs: seq<Handler>, ttl: int, i: nat)
    requires TurnsInv(hs, ttl) && i < |hs| && hs[i].end == Active
    ensures (forall j | i < j < |hs| :: hs[j].key != hs[i].key) && Latest(hs, hs[i].key) == Some(hs[i])
  {
    forall j | i < j < |hs|
      ensures hs[j].key != hs[i].key
    {
      assert InTurn(hs[i], hs[j], ttl);
    }
    LatestIs(hs, i);
  }

  lemma EndTurns(hs: seq<Handler>, ttl: int, i: nat, end: End)
    requires TurnsInv(hs, ttl) && i < |hs| && hs[i].end == Active
    ensures TurnsInv(hs[i := hs[i].(end := end)], ttl)
  {
    var hs' := hs[i := hs[i].(end := end)];
    ActiveIsLatest(hs, ttl, i);
    forall j, k | 0 <= j < k < |hs'|
      ensures InTurn(hs'[j], hs'[k], ttl)
    {
      assert InTurn(hs[j], hs[k], ttl);
    }
  }

  /** The two stores agree on every other key. */
  ghost predicate SameElsewhere(a: map<string, Slot>, b: map<string, Slot>, key: string) {
    forall k | k != key :: (k in a <==> k in b) && (k in a ==> a[k] == b[k])
  }

  /** Ending the run of handler i; while it is active it is the latest of its key. */
  lemma EndStore(hs: seq<Handler>, store: map<string, Slot>, ttl: int, i: nat, end: End, next: map<string, Slot>)
    requires StoreInv(hs, store, ttl) && i < |hs| && forall j | i < j < |hs| :: hs[j].key != hs[i].key
    requires Left(hs[i].(end := end), next, ttl) && SameElsewhere(next, store, hs[i].key)
    ensures StoreInv(hs[i := hs[i].(end := end)], next, ttl)
  {
    var h := hs[i].(end := end);
    var hs' := hs[i := h];
    LatestIs(hs', i);
    forall key: string
      ensures LeftFor(Latest(hs', key), key, next, ttl)
    {
      if key != h.key {
        LatestUpdate(hs, i, h, key);
        LatestHasKey(hs, key);
        assert LeftFor(Latest(hs, key), key, store, ttl);
      }
    }
  }

  lemma EndKeeps(s: State, i: nat, end: End, next: map<string, Slot>)
    requires Inv(s) && i < |s.handlers| && s.handlers[i].end == Active && Dated(s.handlers[i].(end := end), s.clock)
    requires Left(s.handlers[i].(end := end), next, s.ttl) && SameElsewhere(next, s.store, s.handlers[i].key)
    ensures Inv(s.(store := next, handlers := s.handlers[i := s.handlers[i].(end := end)]))
  {
    ActiveIsLatest(s.handlers, s.ttl, i);
    EndTurns(s.handlers, s.ttl, i, end);
    EndStore(s.handlers, s.store, s.ttl, i, end, next);
    assert DatesInv(s.handlers[i := s.handlers[i].(end := end)], s.clock);
  }

  /** Handler i ends as the step says. */
  lemma EndStep(s: State, step: Step, i: nat, u: State)
    requires Inv(s) && u == Apply(s, step) && i < |s.handlers| && s.handlers[i].end == Active
    requires (step.Finish? || step.Abort?) && step.i == i
    ensures Inv(u)
  {
    ActiveIsLatest(s.handlers, s.ttl, i);
    assert s.handlers[i] in s.handlers;
    assert LeftFor(Latest(s.handlers, s.handlers[i].key), s.handlers[i].key, s.store, s.ttl);
    EndKeeps(s, i, u.handlers[i].end, u.store);
  }

  lemma OvertakingBreaks(s: State, step: Step)
    requires Inv(s) && Overtakes(s, step)
    ensures !Inv(Apply(s, step))
  {
    var h :| h in s.handlers && h.key == step.key && h.end == Active;
    var i :| 0 <= i < |s.handlers| && s.handlers[i] == h;
    var hs := Apply(s, step).handlers;
    assert !InTurn(hs[i], hs[|s.handlers|], s.ttl);
  }

  /** Exactly one step breaks the protocol: claiming a key that expired under a handler still at work. */
  lemma StepKeepsIff(s: State, step: Step)
    requires Inv(s)
    ensures Inv(Apply(s, step)) <==> !Overtakes(s, step)
  {
    if Overtakes(s, step) {
      OvertakingBreaks(s, step);
    } else {
      match step
      case Claim(key, fingerprint, told) =>
        if !Live(s.store, key, s.clock) {
          ClaimKeeps(s, Handler(key, fingerprint, s.clock, if told then Active else NeverRan));
        }
      case Tick(_) =>
      case Finish(i, _, _) =>
        if i < |s.handlers| && s.handlers[i].end == Active { EndStep(s, step, i, Apply(s, step)); }
      case Abort(i, _) =>
        if i < |s.handlers| && s.handlers[i].end == Active { EndStep(s, step, i, Apply(s, step)); }
    }
  }

  lemma {:induction false} RunsKeepInv(ttl: int, run: seq<Step>)
    requires ttl > 0 && Timely(ttl, run)
    ensures Inv(Exec(ttl, run))
  {
    if run != [] {
      var n := |run| - 1;
      RunsKeepInv(ttl, run[..n]);
      StepKeepsIff(Exec(ttl, run[..n]), run[n]);
    }
  }

  /** No handler outlives its claim. */
  predicate OnTime(s: State) {
    forall h | h in s.handlers && h.end == Active :: s.clock < h.startedAt + s.ttl
  }

  ghost predicate Punctual(ttl: int, run: seq<Step>) {
    OnTime(Exec(ttl, run)) && (run != [] ==> Punctual(ttl, run[..|run| - 1]))
  }

  lemma ActiveHoldsKey(s: State, h: Handler)
    requires Inv(s) && OnTime(s) && h in s.handlers && h.end == Active
    ensures Live(s.store, h.key, s.clock)
  {
    var i :| 0 <= i < |s.handlers| && s.handlers[i] == h;
    ActiveIsLatest(s.handlers, s.ttl, i);
    assert LeftFor(Latest(s.handlers, h.key), h.key, s.store, s.ttl);
  }

  lemma OnTimeIsNotOvertaken(s: State, step: Step)
    requires Inv(s) && OnTime(s)
    ensures !Overtakes(s, step)
  {
    forall h | h in s.handlers && h.end == Active
      ensures Live(s.store, h.key, s.clock)
    {
      ActiveHoldsKey(s, h);
    }
  }

  /** A run in which every handler ends before its claim expires is timely. */
  lemma {:induction false} PunctualRunsAreTimely(ttl: int, run: seq<Step>)
    requires ttl > 0 && Punctual(ttl, run)
    ensures Timely(ttl, run)
  {
    if run != [] {
      var n := |run| - 1;
      PunctualRunsAreTimely(ttl, run[..n]);
      RunsKeepInv(ttl, run[..n]);
      OnTimeIsNotOvertaken(Exec(ttl, run[..n]), run[n]);
    }
  }

  // ---- the promises ----

  /** At most one handler holds a key at any time. */
  lemma OneRunPerKey(ttl: int, run: seq<Step>, i: nat, j: nat)
    requires ttl > 0 && Timely(ttl, run)
    requires i < |Exec(ttl, run).handlers| && j < |Exec(ttl, run).handlers|
    requires var hs := Exec(ttl, run).handlers; hs[i].key == hs[j].key && hs[i].end == Active && hs[j].end == Active
    ensures i == j
  {
    RunsKeepInv(ttl, run);
    ActiveIsLatest(Exec(ttl, run).handlers, Exec(ttl, run).ttl, i);
    ActiveIsLatest(Exec(ttl, run).handlers, Exec(ttl, run).ttl, j);
  }

  /** The earliest time a run of the same key may follow h, if there is one: after its release, after its stored
      response expires or, when the store was not told how it ended, after its claim expires. */
  predicate MayFollow(h: Handler, start: int, ttl: int) {
    match h.end
    case Active => false
    case Released(at) => start >= at
    case Stored(at, _) => start >= at + ttl
    case Unstored => start >= h.startedAt + ttl
    case Unreleased => start >= h.startedAt + ttl
    case NeverRan => start >= h.startedAt + ttl
  }

  /** A later run of the same key starts only after a release or an expiry, even when storing the response or
      releasing the key fails. */
  lemma NewRunNeedsReleaseOrExpiry(ttl: int, run: seq<Step>, i: nat, j: nat)
    requires ttl > 0 && Timely(ttl, run) && i < j < |Exec(ttl, run).handlers|
    requires Exec(ttl, run).handlers[i].key == Exec(ttl, run).handlers[j].key
    ensures MayFollow(Exec(ttl, run).handlers[i], Exec(ttl, run).handlers[j].startedAt, ttl)
  {
    RunsKeepInv(ttl, run);
    RunsExtend(ttl, [], run);
    assert [] + run == run;
    Follows(Exec(ttl, run), i, j);
  }

  lemma Follows(s: State, i: nat, j: nat)
    requires Inv(s) && i < j < |s.handlers| && s.handlers[i].key == s.handlers[j].key
    ensures MayFollow(s.handlers[i], s.handlers[j].startedAt, s.ttl)
  {
    assert InTurn(s.handlers[i], s.handlers[j], s.ttl);
  }

  /** Past handlers are never rewritten. */
  ghost predicate Extends(s: State, u: State) {
    && u.ttl == s.ttl && s.clock <= u.clock && |s.handlers| <= |u.handlers|
    && forall i | 0 <= i < |s.handlers| && s.handlers[i].end != Active :: u.handlers[i] == s.handlers[i]
  }

  lemma StepExtends(s: State, step: Step)
    ensures Extends(s, Apply(s, step))
  {
  }

  lemma ExtendsOn(s: State, t: State, u: State)
    requires Extends(s, t) && Extends(t, u)
    ensures Extends(s, u)
  {
  }

  lemma {:induction false} RunsExtend(ttl: int, run: seq<Step>, more: seq<Step>)
    ensures Extends(Exec(ttl, run), Exec(ttl, run + more))
  {
    if more == [] {
      assert run + more == run;
    } else {
      var n := |more| - 1;
      var t := Exec(ttl, run + more[..n]);
      RunsExtend(ttl, run, more[..n]);
      assert (run + more)[..|run + more| - 1] == run + more[..n];
      StepExtends(t, more[n]);
      ExtendsOn(Exec(ttl, run), t, Apply(t, more[n]));
    }
  }

  /** From the moment a response is stored until it expires, every request with the key is answered with its record
      (same body) or refused (another body), and none of them starts a handler. What the client then reads is the
      compacted response. */
  lemma StoredResponseIsReplayed(ttl: int, run: seq<Step>, more: seq<Step>, i: nat, fingerprint: string, told: bool)
    requires ttl > 0 && Timely(ttl, run + more)
    requires i < |Exec(ttl, run).handlers| && Exec(ttl, run).handlers[i].end.Stored?
    requires Exec(ttl, run + more).clock < Exec(ttl, run).handlers[i].end.at + ttl
    ensures var h, u := Exec(ttl, run).handlers[i], Exec(ttl, run + more);
            && Apply(u, Claim(h.key, fingerprint, told)) == u
            && Look(u.store, h.key, fingerprint, u.clock) ==
               if fingerprint == h.fingerprint then Replay(Encoded(h.end.response)) else KeyReuse
  {
    RunsKeepInv(ttl, run + more);
    RunsExtend(ttl, run, more);
    RunsExtend(ttl, [], run + more);
    assert [] + (run + more) == run + more;
    var u := Exec(ttl, run + more);
    forall j | i < j < |u.handlers|
      ensures u.handlers[j].key != u.handlers[i].key
    {
      assert u.handlers[j] in u.handlers;
      assert InTurn(u.handlers[i], u.handlers[j], u.ttl);
    }
    LatestIs(u.handlers, i);
    assert LeftFor(Latest(u.handlers, u.handlers[i].key), u.handlers[i].key, u.store, u.ttl);
  }

  /** While a claim stands unanswered every other request is told it is in flight (same body) or refused (another). */
  lemma StandingClaimAnswers(ttl: int, run: seq<Step>, s: State, i: nat, fingerprint: string)
    requires ttl > 0 && Timely(ttl, run) && s == Exec(ttl, run) && i < |s.handlers|
    requires forall j | i < j < |s.handlers| :: s.handlers[j].key != s.handlers[i].key
    requires !s.handlers[i].end.Stored? && !s.handlers[i].end.Released? && s.clock < s.handlers[i].startedAt + ttl
    ensures Look(s.store, s.handlers[i].key, fingerprint, s.clock)
            == if fingerprint == s.handlers[i].fingerprint then InFlight else KeyReuse
  {
    RunsKeepInv(ttl, run);
    RunsExtend(ttl, [], run);
    assert [] + run == run;
    LatestIs(s.handlers, i);
    assert LeftFor(Latest(s.handlers, s.handlers[i].key), s.handlers[i].key, s.store, s.ttl);
  }

  /** When a retry runs, exactly: the last handler of a key lets the next one in once it released the key, or once its
      stored response or, however else it ended, its claim has expired. */
  lemma RetryRunsIff(ttl: int, run: seq<Step>, s: State, i: nat, fingerprint: string)
    requires ttl > 0 && Timely(ttl, run) && s == Exec(ttl, run) && i < |s.handlers|
    requires forall j | i < j < |s.handlers| :: s.handlers[j].key != s.handlers[i].key
    ensures var h := s.handlers[i];
            |Apply(s, Claim(h.key, fingerprint, true)).handlers| > |s.handlers|
            <==> h.end.Released? || s.clock >= BlockedUntil(h, ttl)
  {
    RunsKeepInv(ttl, run);
    RunsExtend(ttl, [], run);
    assert [] + run == run;
    LatestIs(s.handlers, i);
    assert s.handlers[i] in s.handlers;
    assert LeftFor(Latest(s.handlers, s.handlers[i].key), s.handlers[i].key, s.store, s.ttl);
  }

  /** A handler whose response could not be stored, and a retry some time later. */
  function Unstorable(key: string, fingerprint: string, response: Response, later: nat): seq<Step> {
    [Claim(key, fingerprint, true)] + [Finish(0, response, false)] + [Tick(later)] + [Claim(key, fingerprint, true)]
  }

  /** The retry does not run the handler again unless the claim has expired by then. */
  lemma UnstoredResponseIsNotRerun(ttl: int, key: string, fingerprint: string, response: Response, later: nat)
    requires ttl > 0
    ensures |Exec(ttl, Unstorable(key, fingerprint, response, later)).handlers| == if later < ttl then 1 else 2
  {
    var claim := Claim(key, fingerprint, true);
    var r1 := [claim];
    var r2 := r1 + [Finish(0, response, false)];
    var r3 := r2 + [Tick(later)];
    assert [] + [claim] == r1;
    ExecSnoc(ttl, [], claim);
    assert Exec(ttl, r1).handlers == [Handler(key, fingerprint, 0, Active)];
    ExecSnoc(ttl, r1, Finish(0, response, false));
    ExecSnoc(ttl, r2, Tick(later));
    ExecSnoc(ttl, r3, claim);
  }

  lemma ExecSnoc(ttl: int, run: seq<Step>, step: Step)
    ensures Exec(ttl, run + [step]) == Apply(Exec(ttl, run), step)
  {
    assert (run + [step])[..|run|] == run;
  }

  /** A handler can be overtaken if and only if its claim has expired. */
  lemma OverlapIff(s: State, i: nat, fingerprint: string)
    requires Inv(s) && i < |s.handlers| && s.handlers[i].end == Active
    ensures |Apply(s, Claim(s.handlers[i].key, fingerprint, true)).handlers| > |s.handlers|
            <==> s.clock >= s.handlers[i].startedAt + s.ttl
  {
    ActiveIsLatest(s.handlers, s.ttl, i);
    assert LeftFor(Latest(s.handlers, s.handlers[i].key), s.handlers[i].key, s.store, s.ttl);
  }

  /** A run that overstays: two handlers of one key at work at once. */
  lemma LateHandlerOverlaps(ttl: nat, key: string, fingerprint: string)
    requires ttl > 0
    ensures var s := Exec(ttl, [Claim(key, fingerprint, true), Tick(ttl), Claim(key, fingerprint, true)]);
            |s.handlers| == 2 && s.handlers[0].end == Active && s.handlers[1].end == Active
            && s.handlers[0].key == s.handlers[1].key
  {
    var a, b := Claim(key, fingerprint, true), Tick(ttl);
    assert [a, b, a][..2] == [a, b] && [a, b][..1] == [a] && [a][..0] == [];
    assert Exec(ttl, [a]) == Apply(Initial(ttl), a);
    assert Exec(ttl, [a, b]) == Apply(Exec(ttl, [a]), b);
    assert Exec(ttl, [a, b, a]) == Apply(Exec(ttl, [a, b]), a);
  }

  // ---- the store and the middleware ----

  datatype Outcome = Panicked | Answered(response: Response)

  /** How a command to the store may go: it works, or it fails before or after taking effect. */
  datatype Fault = NoFault | Dropped | Unheard

  /** The Redis-backed store, with the handlers it admitted and the steps it took. */
  class Store {
    const ttl: int
    const valid: string -> bool  // what encoding/json accepts as a JSON text
    var now: int
    var entries: map<string, Slot>
    ghost var handlers: seq<Handler>
    ghost var run: seq<Step>

    ghost function Now(): State
      reads this
    {
      State(ttl, now, entries, handlers)
    }

    /** The store is where its steps lead: what is proved of runs is true of it. */
    ghost predicate Valid()
      reads this
    {
      ttl > 0 && Now() == Exec(ttl, run)
    }

    ghost method Took(before: State, step: Step)
      requires ttl > 0 && before == Exec(ttl, run) && Now() == Apply(before, step)
      modifies this`run
      ensures Valid() && run == old(run) + [step]
    {
      ExecSnoc(ttl, run, step);
      run := run + [step];
    }

    constructor (ttl: int, valid: string -> bool)
      ensures this.ttl == (if ttl <= 0 then 86_400_000_000_000 else ttl) && this.valid == valid
      ensures Valid() && entries == map[] && handlers == [] && run == []
    {
      this.ttl := if ttl <= 0 then 86_400_000_000_000 else ttl;
      this.valid := valid;
      now, entries, handlers, run := 0, map[], [], [];
    }

    /** An empty body is left out of the record; any other must be JSON. */
    predicate Storable(body: string) { body == "" || valid(body) }

    /** SET NX with the claim. */
    method SetClaim(key: string, fingerprint: string, ghost told: bool) returns (won: bool)
      requires Valid()
      modifies this
      ensures Valid() && run == old(run) + [Claim(key, fingerprint, told)] && now == old(now)
      ensures won <==> !Live(old(entries), key, now)
      ensures Now() == Apply(old(Now()), Claim(key, fingerprint, told))
    {
      won := !(key in entries && now < entries[key].expires);
      if won {
        entries := entries[key := Slot(Record(InProgress, fingerprint), now + ttl)];
        handlers := handlers + [Handler(key, fingerprint, now, if told then Active else NeverRan)];
      }
      Took(old(Now()), Claim(key, fingerprint, told));
    }

    method Elapse(elapsed: nat)
      requires Valid()
      modifies this
      ensures Valid() && run == old(run) + [Tick(elapsed)] && Now() == old(Now()).(clock := old(now) + elapsed)
    {
      now := now + elapsed;
      Took(old(Now()), Tick(elapsed));
    }

    /** One SET NX decides; a loser reads the record some time later, and finds it in flight if it is gone by then. A
        claim whose answer is lost may have been written all the same: nobody runs under it. */
    method Begin(key: string, fingerprint: string, claim: Fault, readFails: bool, waited: nat) returns (a: Answer)
      requires Valid()
      modifies this
      ensures Valid()
      ensures var won := !Live(old(entries), key, old(now));
              match claim
              case Dropped => a == StoreError && Now() == old(Now()) && run == old(run)
              case Unheard => a == StoreError && run == old(run) + [Claim(key, fingerprint, false)]
              case NoFault =>
                if won then a == Won && run == old(run) + [Claim(key, fingerprint, true)]
                else
                  && a == (if readFails then StoreError else Look(entries, key, fingerprint, now))
                  && run == old(run) + [Claim(key, fingerprint, true), Tick(waited)]
                  && entries == old(entries) && handlers == old(handlers) && now == old(now) + waited
      ensures a == Won ==>
                && now == old(now) && handlers == old(handlers) + [Handler(key, fingerprint, now, Active)]
                && entries == old(entries)[key := Slot(Record(InProgress, fingerprint), now + ttl)]
      ensures SameElsewhere(entries, old(entries), key)
    {
      if claim == Dropped {
        return StoreError;
      }
      var won := SetClaim(key, fingerprint, claim == NoFault);
      if claim == Unheard {
        return StoreError;
      }
      if won {
        return Won;
      }
      Elapse(waited);
      if readFails {
        return StoreError;
      }
      if !(now < entries[key].expires) {
        return InFlight;
      }
      var existing := entries[key].record;
      if existing.fingerprint != fingerprint {
        return KeyReuse;
      }
      if existing.stage == InProgress {
        return InFlight;
      }
      return Replay(existing.stage.response);
    }

    /** The body is compacted into the record; one that is not JSON cannot be stored at all. */
    method Complete(ghost i: nat, key: string, fingerprint: string, response: Response, fault: Fault)
      returns (ok: bool)
      requires Valid() && i < |handlers| && handlers[i].end == Active
      requires handlers[i].key == key && handlers[i].fingerprint == fingerprint
      modifies this
      ensures Valid() && run == old(run) + [Finish(i, response, Storable(response.body) && fault != Dropped)]
      ensures Now() == Apply(old(Now()), Finish(i, response, Storable(response.body) && fault != Dropped))
      ensures ok <==> Storable(response.body) && fault == NoFault
      ensures entries == if !Storable(response.body) || fault == Dropped then old(entries)
                         else old(entries)[key := Slot(Record(Completed(Encoded(response)), fingerprint), now + ttl)]
    {
      ghost var stored := Storable(response.body) && fault != Dropped;
      if Storable(response.body) {
        var record := Record(Completed(response.(body := Compact(response.body))), fingerprint);
        if fault != Dropped {
          entries := entries[key := Slot(record, now + ttl)];
        }
      }
      ok := Storable(response.body) && fault == NoFault;
      handlers := handlers[i := handlers[i].(end := if stored then Stored(now, response) else Unstored)];
      Took(old(Now()), Finish(i, response, stored));
    }

    method Release(ghost i: nat, key: string, fault: Fault)
      requires Valid() && i < |handlers| && handlers[i].end == Active && handlers[i].key == key
      modifies this
      ensures Valid() && run == old(run) + [Abort(i, fault != Dropped)]
      ensures Now() == Apply(old(Now()), Abort(i, fault != Dropped))
      ensures entries == if fault == Dropped then old(entries) else old(entries) - {key}
    {
      if fault != Dropped {
        entries := entries - {key};
      }
      handlers := handlers[i := handlers[i].(end := if fault != Dropped then Released(now) else Unreleased)];
      Took(old(Now()), Abort(i, fault != Dropped));
    }

    /** A response the middleware keeps. */
    static predicate Keeps(handler: Outcome) { handler.Answered? && handler.response.status < 500 }

    /** The step that ends handler i. */
    ghost function EndOf(i: nat, handler: Outcome, fault: Fault): Step {
      if Keeps(handler) then Finish(i, handler.response, Storable(handler.response.body) && fault != Dropped)
      else Abort(i, fault != Dropped)
    }

    /** What the end of a handler makes of the store. */
    function Leaves(store: map<string, Slot>, key: string, fingerprint: string, handler: Outcome, fault: Fault)
      : map<string, Slot>
      reads this
    {
      if fault == Dropped || (Keeps(handler) && !Storable(handler.response.body)) then store
      else if Keeps(handler) then
        store[key := Slot(Record(Completed(Encoded(handler.response)), fingerprint), now + ttl)]
      else store - {key}
    }

    /** After its handler ran: store the response, or give the key back after a panic or a 5xx. */
    method End(ghost i: nat, key: string, fingerprint: string, handler: Outcome, fault: Fault)
      requires Valid() && i < |handlers| && handlers[i].end == Active
      requires handlers[i].key == key && handlers[i].fingerprint == fingerprint
      modifies this
      ensures Valid() && run == old(run) + [EndOf(i, handler, fault)]
      ensures Now() == Apply(old(Now()), EndOf(i, handler, fault)) && now == old(now)
      ensures entries == Leaves(old(entries), key, fingerprint, handler, fault)
    {
      var released := false;
      if handler.Panicked? {
        if !released {
          Release(i, key, fault);
        }
        return;
      }
      if handler.response.status >= 500 {
        Release(i, key, fault);
        released := true;
        return;
      }
      var stored := Complete(i, key, fingerprint, handler.response, fault);
    }

    /** The winner of a claim runs its handler. */
    method RunHandler(key: string, fingerprint: string, handler: Outcome, took: nat, end: Fault)
      requires Valid() && handlers != [] && handlers[|handlers| - 1].end == Active
      requires handlers[|handlers| - 1].key == key && handlers[|handlers| - 1].fingerprint == fingerprint
      modifies this
      ensures Valid() && now == old(now) + took
      ensures run == old(run) + [Tick(took)] + [EndOf(|old(handlers)| - 1, handler, end)]
      ensures entries == Leaves(old(entries), key, fingerprint, handler, end)
      ensures SameElsewhere(entries, old(entries), key)
      ensures end == NoFault && handler.Answered? && handler.response.status < 500 ==>
                if handler.response.body == "" || valid(handler.response.body) then
                  key in entries
                  && entries[key] == Slot(Record(Completed(Encoded(handler.response)), fingerprint), now + ttl)
                else entries == old(entries)
      ensures end == NoFault && (handler.Panicked? || handler.response.status >= 500) ==> key !in entries
    {
      Elapse(took);
      End(|handlers| - 1, key, fingerprint, handler, end);
    }

    /** The stored response is written to the client. */
    method Send(stored: Response) returns (a: Answer)
      ensures a == Replay(Rendered(stored))
    {
      var contentType := stored.contentType;
      if contentType == "" {
        contentType := DEFAULT_CONTENT_TYPE;
      }
      return Replay(stored.(contentType := contentType));
    }

    /** The middleware around one handler call. The handler runs exactly when the claim is won; when it is done its
        claim is replaced by its response, given back, or left standing if the response cannot be stored or the store
        fails. A loser with the same body is sent the stored response. */
    method Serve(key: string, fingerprint: string, handler: Outcome, took: nat, claim: Fault, readFails: bool,
                 waited: nat, end: Fault)
      returns (a: Answer, ran: bool)
      requires Valid()
      modifies this
      ensures Valid()
      ensures ran <==> a == Won
      ensures ran <==> claim == NoFault && !Live(old(entries), key, old(now))
      ensures ran ==> run == old(run) + [Claim(key, fingerprint, true)] + [Tick(took)]
                             + [EndOf(|old(handlers)|, handler, end)]
      ensures !ran && claim == NoFault ==>
                && entries == old(entries) && handlers == old(handlers) && now == old(now) + waited
                && (!readFails ==>
                      var told := Look(entries, key, fingerprint, now);
                      a == if told.Replay? then Replay(Rendered(told.response)) else told)
      ensures claim != NoFault ==> a == StoreError
      ensures claim == Dropped ==> Now() == old(Now())
      ensures SameElsewhere(entries, old(entries), key)
      ensures ran ==>
                && now == old(now) + took
                && var claimed := old(entries)[key := Slot(Record(InProgress, fingerprint), old(now) + ttl)];
                   entries == Leaves(claimed, key, fingerprint, handler, end)
      ensures ran && end == NoFault && handler.Answered? && handler.response.status < 500
              && (handler.response.body == "" || valid(handler.response.body)) ==>
                key in entries
                && entries[key] == Slot(Record(Completed(Encoded(handler.response)), fingerprint), now + ttl)
      ensures ran && end == NoFault && handler.Answered? && handler.response.status < 500
              && !(handler.response.body == "" || valid(handler.response.body)) ==>
                key in entries && entries[key] == Slot(Record(InProgress, fingerprint), old(now) + ttl)
      ensures ran && end == NoFault && (handler.Panicked? || handler.response.status >= 500) ==> key !in entries
    {
      a := Begin(key, fingerprint, claim, readFails, waited);
      ran := a == Won;
      if a.Replay? {
        a := Send(a.response);
      }
      if ran {
        RunHandler(key, fingerprint, handler, took, end);
      }
    }

    /** A request and a retry some time after it was answered, with no fault. A response below 500 is final until it
        expires: the retry is sent that response if its body is the same and refused if it is not, and its handler does
        not run. A panic or a 5xx leaves the key free: the retry runs. */
    method ServeTwice(key: string, first: string, handler: Outcome, took: nat, later: nat, second: string,
                      again: Outcome, tookAgain: nat, waited: nat)
      returns (a: Answer, ran: bool, b: Answer, ranAgain: bool)
      requires Valid()
      modifies this
      ensures Valid()
      ensures ran <==> !Live(old(entries), key, old(now))
      ensures ran && handler.Answered? && handler.response.status < 500 && later + waited < ttl
              && (handler.response.body == "" || valid(handler.response.body)) ==>
                !ranAgain && b == if second == first then Replay(Replayed(handler.response)) else KeyReuse
      ensures ran && later >= ttl ==> ranAgain
      ensures ran && (handler.Panicked? || handler.response.status >= 500) ==> ranAgain && b == Won
    {
      a, ran := Serve(key, first, handler, took, NoFault, false, 0, NoFault);
      Elapse(later);
      b, ranAgain := Serve(key, second, again, tookAgain, NoFault, false, waited, NoFault);
    }
  }
}
