/** The life of one client operation: asked, answered, written back, and then final. */
module Operations {
  import opened Sums
  import opened Domain
  import opened Protocol

  /** Nothing more happens to an operation in this phase. */
  predicate Final(p: Phase) {
    p != Called && !Pending(p)
  }

  /** The phases one step may lead to. */
  predicate PhaseNext(p: Phase, q: Phase) {
    match p
    case Called => Pending(q) || q.Refused? || q.Unknown?
    case Approved(ref, _, _) => q == Booked(ref) || q.Orphaned?
    case Declined(code) => q == Recorded(code) || q.Superseded? || q.Refused?
    case _ => false
  }

  /** The reference an approval carries, and a booking keeps. */
  function AnswerRef(p: Phase): Option<string> {
    if p.Approved? then Some(p.ref) else if p.Booked? then Some(p.bookedRef) else None
  }

  /** An approved or booked operation stands in the acquirer's log with its reference. */
  predicate Logged(op: Op, calls: seq<Call>) {
    var ref := AnswerRef(op.phase);
    ref.Some? ==> Call(op.kind, op.txn, op.amount, ref.value) in calls
  }

  predicate OpNext(a: Op, b: Op, calls: seq<Call>) {
    a == b || (b == a.(phase := b.phase) && PhaseNext(a.phase, b.phase) && (a.phase == Called ==> Logged(b, calls)))
  }

  /** From s to u every operation stays or takes its next phase, new ones are unanswered, and calls are only added. */
  ghost predicate OpsGrow(s: State, u: State) {
    && |s.ops| <= |u.ops| && s.calls <= u.calls
    && (forall i | 0 <= i < |s.ops| :: OpNext(s.ops[i], u.ops[i], u.calls))
    && (forall i | |s.ops| <= i < |u.ops| :: u.ops[i].phase == Called)
  }

  lemma AnswerGrows(s: State, i: nat, a: Answer)
    requires i < |s.ops| && s.ops[i].phase == Called
    ensures OpsGrow(s, Answered(s, i, a))
  {
  }

  lemma FinishGrows(s: State, i: nat, group: Id)
    requires i < |s.ops|
    ensures OpsGrow(s, Finished(s, i, group)) && OpsGrow(s, FinishFailed(s, i))
  {
  }

  lemma SettleGrows(s: State, k: nat, group: Id)
    requires k < |s.jobs| && s.jobs[k].todo != []
    ensures SettledNext(s, k, group).ops == s.ops && SettledNext(s, k, group).calls == s.calls
  {
  }

  lemma StepGrows(s: State, step: Step)
    ensures OpsGrow(s, Apply(s, step))
  {
    match step
    case AcquirerAnswers(i, a) =>
      if i < |s.ops| && s.ops[i].phase == Called { AnswerGrows(s, i, a); }
    case Finish(i, group) => if i < |s.ops| { FinishGrows(s, i, group); }
    case FinishFails(i) => if i < |s.ops| { FinishGrows(s, i, 0); }
    case SettleNext(k, group) =>
      if k < |s.jobs| && s.jobs[k].todo != [] { SettleGrows(s, k, group); }
    case _ =>
  }

  /** Every approval the service acted on is a call the acquirer performed: same operation, transaction, amount and
      reference. */
  lemma {:induction false} ApprovalsAreLogged(bps: int, run: seq<Step>)
    ensures forall op | op in Exec(bps, run).ops :: Logged(op, Exec(bps, run).calls)
  {
    if run != [] {
      var s, step := Exec(bps, run[..|run| - 1]), run[|run| - 1];
      ApprovalsAreLogged(bps, run[..|run| - 1]);
      StepGrows(s, step);
      StaysLogged(s, Apply(s, step));
    }
  }

  lemma StaysLogged(s: State, u: State)
    requires OpsGrow(s, u) && forall op | op in s.ops :: Logged(op, s.calls)
    ensures forall op | op in u.ops :: Logged(op, u.calls)
  {
    forall op | op in u.ops
      ensures Logged(op, u.calls)
    {
      var i :| 0 <= i < |u.ops| && u.ops[i] == op;
      if i < |s.ops| {
        assert s.ops[i] in s.ops && OpNext(s.ops[i], op, u.calls);
        assert forall c | c in s.calls :: c in u.calls;
      }
    }
  }

  lemma FinalStays(s: State, u: State, i: nat)
    requires OpsGrow(s, u) && i < |s.ops| && Final(s.ops[i].phase)
    ensures i < |u.ops| && u.ops[i] == s.ops[i]
  {
    assert OpNext(s.ops[i], u.ops[i], u.calls);
  }

  lemma {:induction false} ExecSnoc(bps: int, run: seq<Step>, step: Step, s: State)
    requires Exec(bps, run) == s
    ensures Exec(bps, run + [step]) == Apply(s, step)
  {
    assert (run + [step])[..|run + [step]| - 1] == run;
  }

  lemma SplitsLast(run: seq<Step>, more: seq<Step>)
    requires more != []
    ensures run + more == run + more[..|more| - 1] + [more[|more| - 1]]
  {
  }

  /** However a run goes on, an operation that was booked, recorded, orphaned, superseded, refused or never answered
      stays so: it writes at most once, and one whose outcome is unknown never writes. */
  lemma {:induction false} OutcomesAreFinal(bps: int, run: seq<Step>, more: seq<Step>, i: nat)
    requires i < |Exec(bps, run).ops| && Final(Exec(bps, run).ops[i].phase)
    ensures i < |Exec(bps, run + more).ops| && Exec(bps, run + more).ops[i] == Exec(bps, run).ops[i]
  {
    if more == [] {
      assert run + more == run;
    } else {
      var init, last := more[..|more| - 1], more[|more| - 1];
      OutcomesAreFinal(bps, run, init, i);
      SplitsLast(run, more);
      var s := Exec(bps, run + init);
      StepGrows(s, last);
      FinalStays(s, Apply(s, last), i);
      ExecSnoc(bps, run + init, last, s);
    }
  }
}
