/** What a reconciliation job reports against what it did, over whole runs. */
module Jobs {
  import opened Domain
  import opened Protocol
  import opened Books
  import opened Runs
  import opened Theorems

  /** The captured rows of a scan, in order. */
  function CapturedIn(rows: seq<Row>): seq<Id> {
    if rows == [] then []
    else (if rows[0].status == Captured then [rows[0].id] else []) + CapturedIn(rows[1..])
  }

  /** Job k visits a row the scan saw captured and finds it settled or refunded by someone else. */
  predicate Disturbs(s: State, step: Step, k: nat) {
    && step.SettleNext? && step.job == k && k < |s.jobs| && s.jobs[k].todo != []
    && FreshGroup(s.db.journal, step.group)
    && s.jobs[k].todo[0].status == Captured
    && s.jobs[k].todo[0].id in s.db.rows && s.db.rows[s.jobs[k].todo[0].id].status != Captured
  }

  /** A database failure ends job k early. */
  predicate Interrupts(s: State, step: Step, k: nat) {
    step == SettleFails(k) && k < |s.jobs| && s.jobs[k].todo != []
  }

  /** The last step of a run disturbed, or interrupted, job k. */
  ghost function Disturbed(bps: int, k: nat): seq<Step> -> bool {
    (run: seq<Step>) => run != [] && Disturbs(Exec(bps, run[..|run| - 1]), run[|run| - 1], k)
  }

  ghost function Interrupted(bps: int, k: nat): seq<Step> -> bool {
    (run: seq<Step>) => run != [] && Interrupts(Exec(bps, run[..|run| - 1]), run[|run| - 1], k)
  }

  /** How often it happened along the run. */
  function Occurrences(run: seq<Step>, happened: seq<Step> -> bool): nat {
    if run == [] then 0 else Occurrences(run[..|run| - 1], happened) + if happened(run) then 1 else 0
  }

  ghost predicate Never(run: seq<Step>, happened: seq<Step> -> bool) {
    forall n | 1 <= n <= |run| :: !happened(run[..n])
  }

  lemma {:induction false} NeverIff(run: seq<Step>, happened: seq<Step> -> bool)
    ensures Occurrences(run, happened) == 0 <==> Never(run, happened)
  {
    if run != [] {
      var init := run[..|run| - 1];
      NeverIff(init, happened);
      assert run[..|run|] == run;
      assert forall n | 1 <= n <= |init| :: init[..n] == run[..n];
    }
  }

  /** What one step may do to a job. */
  predicate JobNext(a: Job, b: Job, disturbed: bool, interrupted: bool) {
    && b.scanned == a.scanned
    && |b.counted| - b.moved == |a.counted| - a.moved + (if disturbed then 1 else 0)
    && (!interrupted ==> b.counted + CapturedIn(b.todo) == a.counted + CapturedIn(a.todo))
  }

  lemma VisitedNext(job: Job, moves: bool)
    requires job.todo != [] && (moves ==> job.todo[0].status == Captured)
    ensures var counts := job.todo[0].status == Captured;
            JobNext(job, Visited(job, counts, moves), counts && !moves, false)
  {
  }

  lemma SettleTurn(s: State, k: nat, group: Id)
    requires RowsInv(s.db) && k < |s.jobs| && s.jobs[k].todo != [] && s.jobs[k].todo[0].id in s.db.rows
    requires FreshGroup(s.db.journal, group)
    ensures |SettledNext(s, k, group).jobs| == |s.jobs|
    ensures JobNext(s.jobs[k], SettledNext(s, k, group).jobs[k], Disturbs(s, SettleNext(k, group), k), false)
    ensures forall j | 0 <= j < |s.jobs| && j != k :: SettledNext(s, k, group).jobs[j] == s.jobs[j]
  {
    var t := s.jobs[k].todo[0];
    NextVisits(s, k, group);
    VisitedNext(s.jobs[k], t.status == Captured && s.db.rows[t.id].status == Captured);
  }

  /** Steps that settle nothing leave the jobs alone, but for the one they add or interrupt. */
  lemma OtherStep(s: State, step: Step, k: nat)
    requires !step.SettleNext? && k < |s.jobs|
    ensures k < |Apply(s, step).jobs| && JobNext(s.jobs[k], Apply(s, step).jobs[k], false, Interrupts(s, step, k))
  {
  }

  lemma JobStep(s: State, step: Step, k: nat)
    requires Inv(s) && k < |s.jobs|
    ensures k < |Apply(s, step).jobs|
    ensures JobNext(s.jobs[k], Apply(s, step).jobs[k], Disturbs(s, step, k), Interrupts(s, step, k))
  {
    if step.SettleNext? {
      var j := step.job;
      if j < |s.jobs| && s.jobs[j].todo != [] && FreshGroup(s.db.journal, step.group) {
        assert s.jobs[j] in s.jobs && s.jobs[j].todo[0] in s.jobs[j].todo;
        SettleTurn(s, j, step.group);
      }
    } else {
      OtherStep(s, step, k);
    }
  }

  lemma NewJob(s: State, step: Step, k: nat)
    requires |s.jobs| <= k < |Apply(s, step).jobs|
    ensures var job := Apply(s, step).jobs[k]; job == Job(job.scanned, job.scanned, [], 0)
  {
  }

  /** The books of job k: what it counted beyond what it moved are its disturbed visits, and unless it was interrupted
      it has counted exactly the captured rows it has passed. */
  lemma {:induction false} JobAccounts(bps: int, run: seq<Step>, k: nat)
    ensures var jobs := Exec(bps, run).jobs;
            var gap, stops := Occurrences(run, Disturbed(bps, k)), Occurrences(run, Interrupted(bps, k));
            if k < |jobs| then
              && |jobs[k].counted| == jobs[k].moved + gap
              && (stops == 0 ==> jobs[k].counted + CapturedIn(jobs[k].todo) == CapturedIn(jobs[k].scanned))
            else gap == 0 && stops == 0
  {
    if run != [] {
      var init, step := run[..|run| - 1], run[|run| - 1];
      var s := Exec(bps, init);
      JobAccounts(bps, init, k);
      RunsKeepInv(bps, init);
      if k < |s.jobs| {
        JobStep(s, step, k);
      } else if k < |Apply(s, step).jobs| {
        NewJob(s, step, k);
      }
    }
  }

  /** Over any run a job moved every row it counted if and only if each row it visited as captured still was, whatever
      else ran; and a job that got through its list counted exactly the rows its scan saw captured. */
  lemma SettledCountIff(bps: int, run: seq<Step>, k: nat)
    requires k < |Exec(bps, run).jobs|
    ensures var job := Exec(bps, run).jobs[k];
            && (job.moved == |job.counted| <==> Never(run, Disturbed(bps, k)))
            && (job.todo == [] && Never(run, Interrupted(bps, k)) ==> job.counted == CapturedIn(job.scanned))
  {
    JobAccounts(bps, run, k);
    NeverIff(run, Disturbed(bps, k));
    NeverIff(run, Interrupted(bps, k));
  }
}
