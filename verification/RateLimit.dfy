/** The fixed-window limiter: one expiring counter per subject and window. */
module RateLimit {
  import opened Sums

  datatype Request = Request(subject: string, at: nat, admitted: bool)

  datatype Verdict = Verdict(allowed: bool, limit: int, remaining: int, retryAfter: int)

  datatype Counter = Counter(count: nat, expires: nat)

  function Bucket(at: nat, window: nat): nat
    requires window > 0
  {
    at / window
  }

  function RequestsIn(subject: string, bucket: nat, window: nat): Request -> int
    requires window > 0
  {
    (r: Request) => if r.subject == subject && Bucket(r.at, window) == bucket then 1 else 0
  }

  function AdmittedIn(subject: string, bucket: nat, window: nat): Request -> int
    requires window > 0
  {
    (r: Request) => if r.admitted then RequestsIn(subject, bucket, window)(r) else 0
  }

  function AdmittedBetween(subject: string, from: nat, to: nat): Request -> int {
    (r: Request) => if r.subject == subject && r.admitted && from <= r.at < to then 1 else 0
  }

  ghost predicate Capped(log: seq<Request>, limit: nat, window: nat)
    requires window > 0
  {
    forall subject: string, b: nat :: Sum(log, AdmittedIn(subject, b, window)) <= limit
  }

  /** An interval of one window length meets at most two windows. */
  lemma MeetsTwoBuckets(from: nat, at: nat, window: nat)
    requires window > 0 && from <= at < from + window
    ensures Bucket(at, window) == Bucket(from, window) || Bucket(at, window) == Bucket(from, window) + 1
  {
    var b := from / window;
    assert from == window * b + from % window;
    var c := at / window;
    assert at == window * c + at % window;
    if c < b {
      Scale(window, c + 1, b);
    } else if c > b + 1 {
      Scale(window, b + 2, c);
    }
  }

  lemma Scale(w: int, a: int, b: int)
    requires 0 <= w && a <= b
    ensures w * a <= w * b
  {
  }

  /** Whatever the arrival times, no interval of one window length sees more than twice the limit admitted. */
  lemma AtMostTwiceTheLimit(log: seq<Request>, limit: nat, window: nat, subject: string, from: nat)
    requires window > 0 && Capped(log, limit, window)
    ensures Sum(log, AdmittedBetween(subject, from, from + window)) <= 2 * limit
  {
    var b := Bucket(from, window);
    var first, second := AdmittedIn(subject, b, window), AdmittedIn(subject, b + 1, window);
    var both := (r: Request) => first(r) + second(r);
    forall r | r in log
      ensures AdmittedBetween(subject, from, from + window)(r) <= both(r)
    {
      assert 0 <= RequestsIn(subject, b, window)(r) && 0 <= RequestsIn(subject, b + 1, window)(r);
      if from <= r.at < from + window {
        MeetsTwoBuckets(from, r.at, window);
      }
    }
    SumAtMost(log, AdmittedBetween(subject, from, from + window), both);
    SumPlus(log, both, first, second);
    assert Sum(log, first) <= limit && Sum(log, second) <= limit;
  }

  /** The counter of a window holds every request seen in it and outlives the window. */
  ghost predicate Counts(counters: map<(string, nat), Counter>, log: seq<Request>, limit: nat, window: nat,
                         subject: string, b: nat)
    requires window > 0
  {
    var seen := Sum(log, RequestsIn(subject, b, window));
    && 0 <= seen
    && ((subject, b) in counters <==> seen > 0)
    && (seen > 0 ==> counters[(subject, b)].count == seen && counters[(subject, b)].expires >= window * (b + 1))
    && Sum(log, AdmittedIn(subject, b, window)) == Min(seen, limit)
  }

  /** Adding one request to the log and to its counter keeps every counter in step. */
  lemma CountsStep(counters: map<(string, nat), Counter>, log: seq<Request>, limit: nat, window: nat,
                   r: Request, count: nat, subject: string, b: nat)
    requires window > 0 && Counts(counters, log, limit, window, subject, b)
    requires r.subject == subject && Bucket(r.at, window) == b ==>
               count == Sum(log, RequestsIn(subject, b, window)) + 1
    requires r.admitted <==> count <= limit
    ensures Counts(counters[(r.subject, Bucket(r.at, window)) := Counter(count, r.at + window)], log + [r], limit,
                   window, subject, b)
  {
    SumSnoc(log, r, RequestsIn(subject, b, window));
    SumSnoc(log, r, AdmittedIn(subject, b, window));
    if Bucket(r.at, window) == b {
      assert r.at == window * b + r.at % window;
      assert window * (b + 1) == window * b + window;
    }
  }

  ghost predicate InStep(counters: map<(string, nat), Counter>, log: seq<Request>, limit: nat, window: nat)
    requires window > 0
  {
    forall subject: string, b: nat :: Counts(counters, log, limit, window, subject, b)
  }

  lemma CountsAll(counters: map<(string, nat), Counter>, log: seq<Request>, limit: nat, window: nat, r: Request,
                  count: nat)
    requires window > 0 && InStep(counters, log, limit, window)
    requires count == Sum(log, RequestsIn(r.subject, Bucket(r.at, window), window)) + 1
    requires r.admitted <==> count <= limit
    ensures var now := counters[(r.subject, Bucket(r.at, window)) := Counter(count, r.at + window)];
            InStep(now, log + [r], limit, window) && Capped(log + [r], limit, window)
  {
    var now := counters[(r.subject, Bucket(r.at, window)) := Counter(count, r.at + window)];
    forall s: string, b: nat
      ensures Counts(now, log + [r], limit, window, s, b)
      ensures Sum(log + [r], AdmittedIn(s, b, window)) <= limit
    {
      assert Counts(counters, log, limit, window, s, b);
      CountsStep(counters, log, limit, window, r, count, s, b);
    }
  }

  class Limiter {
    const limit: nat
    const window: nat
    var counters: map<(string, nat), Counter>
    ghost var log: seq<Request>

    ghost predicate Valid()
      reads this
    {
      && limit >= 1 && window > 0 && InStep(counters, log, limit, window)
    }

    constructor (limit: int, window: int)
      ensures Valid() && log == []
      ensures this.limit == (if limit < 1 then 1 else limit)
      ensures this.window == (if window <= 0 then 60_000_000_000 else window)
    {
      this.limit := if limit < 1 then 1 else limit;
      this.window := if window <= 0 then 60_000_000_000 else window;
      counters := map[];
      log := [];
    }

    /** INCR then EXPIRE. Re-arming the expiry on every call keeps the counter alive through its own window, so it
        never restarts inside it and the admitted requests of a window stay within the limit. */
    method Allow(subject: string, now: nat) returns (v: Verdict)
      requires Valid()
      modifies this
      ensures Valid() && Capped(log, limit, window)
      ensures log == old(log) + [Request(subject, now, v.allowed)]
      ensures v.allowed <==> Sum(old(log), RequestsIn(subject, Bucket(now, window), window)) < limit
      ensures v.limit == limit
      ensures v.remaining == limit - Min(Sum(old(log), RequestsIn(subject, Bucket(now, window), window)) + 1, limit)
      ensures 0 < v.retryAfter <= window && Bucket(now + v.retryAfter, window) == Bucket(now, window) + 1
    {
      var bucket := now / window;
      var key := (subject, bucket);
      assert Counts(counters, log, limit, window, subject, bucket);
      WindowEnd(now, window);
      var count := 1;
      if key in counters && now < counters[key].expires {
        count := counters[key].count + 1;
      }
      counters := counters[key := Counter(count, now + window)];
      var remaining := limit - count;
      if remaining < 0 {
        remaining := 0;
      }
      var windowEnd := (bucket + 1) * window;
      v := Verdict(count <= limit, limit, remaining, windowEnd - now);
      ghost var r := Request(subject, now, v.allowed);
      CountsAll(old(counters), log, limit, window, r, count);
      log := log + [r];
    }
  }

  lemma WindowEnd(now: nat, window: nat)
    requires window > 0
    ensures var end := (now / window + 1) * window;
            now < end <= now + window && end / window == now / window + 1 && end == window * (now / window + 1)
  {
    var b := now / window;
    assert now == window * b + now % window;
    assert (b + 1) * window == window * b + window == window * (b + 1);
    var q := (b + 1) * window / window;
    assert (b + 1) * window == window * q + (b + 1) * window % window;
    if q < b + 1 {
      Scale(window, q + 1, b + 1);
    } else if q > b + 1 {
      Scale(window, b + 2, q);
    }
  }
}
