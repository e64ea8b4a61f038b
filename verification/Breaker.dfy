/** The circuit breaker in front of the acquirer, as an implementation of a specification over its report history. */
module Breaker {

  datatype Position = Closed | Open | HalfOpen

  /** What the breaker was told, and the calls it let through. */
  datatype Event = Succeeded | Failed(at: int) | Admitted(probe: bool)

  // ---- specification ----

  /** How many failures were reported since the last success. */
  function FailureRun(h: seq<Event>): nat {
    if h == [] then 0
    else
      match h[|h| - 1]
      case Succeeded => 0
      case Failed(_) => FailureRun(h[..|h| - 1]) + 1
      case Admitted(_) => FailureRun(h[..|h| - 1])
  }

  /** The time of the latest failure of the current run. */
  function LastFailure(h: seq<Event>): int
    requires FailureRun(h) > 0
  {
    match h[|h| - 1]
    case Failed(at) => at
    case Admitted(_) => LastFailure(h[..|h| - 1])
  }

  /** How many probes were admitted since the last report. */
  function Probes(h: seq<Event>): nat {
    if h == [] || !h[|h| - 1].Admitted? then 0
    else Probes(h[..|h| - 1]) + if h[|h| - 1].probe then 1 else 0
  }

  function PositionAt(h: seq<Event>, threshold: nat, cooldown: int, now: int): Position
    requires threshold >= 1
  {
    if FailureRun(h) < threshold then Closed
    else if now - LastFailure(h) >= cooldown then HalfOpen
    else Open
  }

  function FailuresIn(h: seq<Event>): nat {
    if h == [] then 0 else FailuresIn(h[..|h| - 1]) + if h[|h| - 1].Failed? then 1 else 0
  }

  /** The failure run counts the failures reported since the last success. */
  lemma {:induction false} FailureRunCounts(h: seq<Event>, i: nat)
    requires i <= |h| && (i == 0 || h[i - 1] == Succeeded) && forall k | i <= k < |h| :: h[k] != Succeeded
    ensures FailureRun(h) == FailuresIn(h[i..])
  {
    if i < |h| {
      var n := |h| - 1;
      FailureRunCounts(h[..n], i);
      assert h[i..][..|h[i..]| - 1] == h[..n][i..];
    }
  }

  lemma {:induction false} LastFailureIs(h: seq<Event>, f: nat)
    requires f < |h| && h[f].Failed? && forall k | f < k < |h| :: h[k].Admitted?
    ensures FailureRun(h) > 0 && LastFailure(h) == h[f].at
  {
    if f < |h| - 1 {
      LastFailureIs(h[..|h| - 1], f);
    }
  }

  /** With a success at i - 1 and none since, and the last report a failure at f: the breaker is closed while fewer than
      threshold failures came after that success; otherwise it is open until a cooldown has passed since f, and
      half-open from then on. */
  lemma OpensAndRecovers(h: seq<Event>, i: nat, f: nat, threshold: nat, cooldown: int, now: int)
    requires threshold >= 1 && i <= f < |h| && (i == 0 || h[i - 1] == Succeeded)
    requires (forall k | i <= k < |h| :: h[k] != Succeeded) && h[f].Failed? && forall k | f < k < |h| :: h[k].Admitted?
    ensures PositionAt(h, threshold, cooldown, now) ==
            if FailuresIn(h[i..]) < threshold then Closed else if now < h[f].at + cooldown then Open else HalfOpen
  {
    FailureRunCounts(h, i);
    LastFailureIs(h, f);
  }

  ghost predicate OneProbeAtATime(h: seq<Event>) {
    forall n | 0 <= n <= |h| :: Probes(h[..n]) <= 1
  }

  lemma {:induction false} ProbesCount(h: seq<Event>, i: nat)
    requires i < |h| && h[i] == Admitted(true)
    requires forall k | i < k < |h| :: h[k].Admitted?
    ensures Probes(h) >= Probes(h[..i]) + 1
  {
    if i == |h| - 1 {
      assert h[..i] == h[..|h| - 1];
    } else {
      assert h[..|h| - 1][..i] == h[..i];
      ProbesCount(h[..|h| - 1], i);
    }
  }

  /** Between any two admitted probes some call has reported back. */
  lemma ProbesAreSeparated(h: seq<Event>, i: nat, j: nat)
    requires OneProbeAtATime(h) && i < j < |h| && h[i] == Admitted(true) && h[j] == Admitted(true)
    ensures exists k | i < k < j :: !h[k].Admitted?
  {
    var p := h[..j + 1];
    assert p[..j] == h[..j];
    assert Probes(p) == Probes(h[..j]) + 1 <= 1;
    if forall k | i < k < j :: h[k].Admitted? {
      ProbesCount(h[..j], i);
    }
  }

  lemma HistoryGrows(h: seq<Event>, e: Event)
    requires OneProbeAtATime(h) && Probes(h + [e]) <= 1
    ensures OneProbeAtATime(h + [e])
  {
    forall n | 0 <= n <= |h + [e]|
      ensures Probes((h + [e])[..n]) <= 1
    {
      if n <= |h| {
        assert (h + [e])[..n] == h[..n];
      } else {
        assert (h + [e])[..n] == h + [e];
      }
    }
  }

  // ---- implementation ----

  class CircuitBreaker {
    const threshold: nat
    const cooldown: int
    var state: Position
    var failures: nat
    var openedAt: int
    var probeInFlight: bool
    ghost var history: seq<Event>
    ghost var latest: int

    ghost predicate Valid()
      reads this
    {
      && threshold >= 1
      && failures == FailureRun(history)
      && (state == Closed <==> failures < threshold)
      && (state != Closed ==> openedAt == LastFailure(history))
      && (state == HalfOpen ==> latest - openedAt >= cooldown)
      && Probes(history) == (if probeInFlight then 1 else 0)
      && (probeInFlight ==> state == HalfOpen)
      && OneProbeAtATime(history)
    }

    constructor (threshold: int, cooldown: int, ghost now: int)
      ensures Valid() && history == [] && latest == now
      ensures this.threshold == (if threshold < 1 then 1 else threshold) && this.cooldown == cooldown
    {
      this.threshold := if threshold < 1 then 1 else threshold;
      this.cooldown := cooldown;
      state, failures, openedAt, probeInFlight := Closed, 0, 0, false;
      history, latest := [], now;
    }

    ghost function Spec(now: int): Position
      requires Valid()
      reads this
    {
      PositionAt(history, threshold, cooldown, now)
    }

    method Refresh(now: int)
      requires Valid() && latest <= now
      modifies this
      ensures Valid() && history == old(history) && latest == now
      ensures state == Spec(now)
    {
      if state == Open && now - openedAt >= cooldown {
        state := HalfOpen;
        probeInFlight := false;
      }
      latest := now;
    }

    /** The reported position is the one the history of reports determines. */
    method State(now: int) returns (p: Position)
      requires Valid() && latest <= now
      modifies this
      ensures Valid() && history == old(history) && latest == now
      ensures p == Spec(now)
    {
      Refresh(now);
      return state;
    }

    /** A call passes while closed, or as the single probe while half-open. */
    method Allow(now: int) returns (ok: bool)
      requires Valid() && latest <= now
      modifies this
      ensures Valid() && latest == now
      ensures ok <==> old(Spec(now)) == Closed || (old(Spec(now)) == HalfOpen && Probes(old(history)) == 0)
      ensures history == old(history) + if ok then [Admitted(old(Spec(now)) == HalfOpen)] else []
    {
      Refresh(now);
      match state {
        case Open => return false;
        case HalfOpen =>
          if probeInFlight {
            return false;
          }
          probeInFlight := true;
          Admit(true);
          return true;
        case Closed =>
          Admit(false);
          return true;
      }
    }

    ghost method Admit(probe: bool)
      requires OneProbeAtATime(history) && Probes(history) == 0
      modifies this`history
      ensures history == old(history) + [Admitted(probe)] && OneProbeAtATime(history)
      ensures FailureRun(history) == FailureRun(old(history))
      ensures FailureRun(history) > 0 ==> LastFailure(history) == LastFailure(old(history))
      ensures Probes(history) == if probe then 1 else 0
    {
      assert (history + [Admitted(probe)])[..|history|] == history;
      HistoryGrows(history, Admitted(probe));
      history := history + [Admitted(probe)];
    }

    method Success()
      requires Valid()
      modifies this
      ensures Valid() && latest == old(latest) && history == old(history) + [Succeeded]
      ensures state == Closed
    {
      HistoryGrows(history, Succeeded);
      failures := 0;
      probeInFlight := false;
      state := Closed;
      history := history + [Succeeded];
    }

    method Failure(now: int)
      requires Valid() && latest <= now
      modifies this
      ensures Valid() && latest == now && history == old(history) + [Failed(now)]
    {
      HistoryGrows(history, Failed(now));
      assert (history + [Failed(now)])[..|history|] == history;
      probeInFlight := false;
      failures := failures + 1;
      if state == HalfOpen || failures >= threshold {
        state := Open;
        openedAt := now;
      }
      history := history + [Failed(now)];
      latest := now;
    }

    /** The end of a guarded call: only an infrastructure fault counts against the processor. */
    method Report(result: CallResult, now: int)
      requires Valid() && latest <= now
      modifies this
      ensures Valid() && latest == (if result == Fault then now else old(latest))
      ensures history == old(history) + [if result == Fault then Failed(now) else Succeeded]
      ensures FailureRun(history) == if result == Fault then FailureRun(old(history)) + 1 else 0
      ensures result != Fault ==> state == Closed
    {
      match result {
        case Answered => Success();
        case Declined => Success();
        case BadInput => Success();
        case Fault => Failure(now);
      }
    }
  }

  datatype CallResult = Answered | Declined | BadInput | Fault
}
