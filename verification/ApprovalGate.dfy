/** The approval gate, stale writers included: a step that follows an approval runs only
    after an approve action moved the run off that approval.  The schema puts an approval
    in front of every declared side effect. */
module ApprovalGate {
  import opened Contracts
  import opened Keys
  import opened Runtime
  import opened Structure
  import opened Leases

  predicate FollowsApproval(def: Definition, index: nat) {
    index > 0 && ApprovalStep(def, index - 1)
  }

  /** The step, if it follows an approval, was approved: some approve action moved the
      run's stored step from exactly the preceding one. */
  predicate Gate(run: Run, index: nat) {
    FollowsApproval(run.cols.def, index) ==> index - 1 in run.hist.approvals
  }

  predicate IndexGated(runs: map<string, Run>, id: string, index: nat) {
    id in runs ==> Gate(runs[id], index)
  }

  predicate RowsGated(runs: map<string, Run>) {
    forall r :: r in runs ==> Gate(runs[r], runs[r].step)
  }

  predicate WorkersGated(runs: map<string, Run>, workers: map<nat, Worker>) {
    forall w :: w in workers && workers[w].Executing? ==> IndexGated(runs, workers[w].exec.runId, workers[w].exec.index)
  }

  predicate LedgerGated(runs: map<string, Run>, ledger: EffectLedger) {
    forall k :: k in ledger ==> IndexGated(runs, ledger[k].run, ledger[k].step)
  }

  predicate Gated(s: Sys) {
    Structured(s) && RowsGated(s.runs) && WorkersGated(s.runs, s.workers) && LedgerGated(s.runs, s.ledger)
  }

  /** Approvals are only ever added. */
  predicate ApprovalsGrow(a: map<string, Run>, b: map<string, Run>) {
    forall r :: r in a ==> r in b && a[r].cols == b[r].cols && a[r].hist.approvals <= b[r].hist.approvals
  }

  lemma WriteKeepsGate(run: Run, index: nat, now: nat, action: Action)
    requires Gate(run, run.step) && Gate(run, index) && ActionOk(run.cols.def, index, action)
    ensures Gate(Write(run, index, now, action), Write(run, index, now, action).step)
    ensures Write(run, index, now, action).hist.approvals == run.hist.approvals
  {
  }

  lemma WriteKeepsApprovals(run: Run, index: nat, now: nat, action: Action)
    ensures Write(run, index, now, action).hist.approvals == run.hist.approvals && Write(run, index, now, action).cols == run.cols
  {
  }

  lemma ApprovalsStay(s: Sys, l: Label)
    requires Enabled(s, l)
    ensures ApprovalsGrow(s.runs, RunsAfter(s, l))
  {
    if l.Stmt? {
      var e := s.workers[l.worker].exec;
      WriteKeepsApprovals(s.runs[Canonical(e.runId)], e.index, s.now, MoveOf(s, l.worker, l.ok).action);
    }
  }

  lemma RowsStayGated(s: Sys, l: Label)
    requires Gated(s) && Enabled(s, l)
    ensures RowsGated(RunsAfter(s, l))
  {
    if l.Stmt? {
      StatementKeepsGate(s, l.worker, l.ok);
    } else if l.Approve? {
      ApproveOpensGate(s.runs[l.run], |s.outbox|);
    }
  }

  lemma StatementKeepsGate(s: Sys, w: nat, ok: bool)
    requires Gated(s) && OnRun(s, w)
    ensures var e := s.workers[w].exec; var after := Write(s.runs[Canonical(e.runId)], e.index, s.now, MoveOf(s, w, ok).action);
            Gate(after, after.step)
  {
    OnItsRun(s, w, ok);
    var e := s.workers[w].exec;
    assert IndexGated(s.runs, e.runId, e.index);
    WriteKeepsGate(s.runs[e.runId], e.index, s.now, MoveOf(s, w, ok).action);
  }

  lemma ApproveOpensGate(run: Run, outboxId: nat)
    ensures Gate(ApproveRun(run, outboxId), ApproveRun(run, outboxId).step)
  {
    var after := ApproveRun(run, outboxId);
    assert after.hist.approvals[|run.hist.approvals|] == run.step;
  }

  /** The index an executor continues with is gated: an approval returns, so the loop never
      advances from one to the step after it. */
  lemma ForwardGated(run: Run, e: Exec, now: nat, move: Move)
    requires e.cols == run.cols && ActionOk(run.cols.def, e.index, move.action) && move.next.Some?
    requires Gate(run, e.index)
    ensures Gate(run, Forward(e, now, move).index)
  {
  }

  lemma StaysGated(a: map<string, Run>, b: map<string, Run>, id: string, index: nat)
    requires ApprovalsGrow(a, b) && id in a && IndexGated(a, id, index)
    ensures IndexGated(b, id, index)
  {
  }

  lemma StatementGated(s: Sys, w: nat, ok: bool)
    requires Gated(s) && Enabled(s, Stmt(w, ok)) && MoveOf(s, w, ok).next.Some?
    ensures var e := Forward(s.workers[w].exec, s.now, MoveOf(s, w, ok));
            IndexGated(RunsAfter(s, Stmt(w, ok)), e.runId, e.index)
  {
    OnItsRun(s, w, ok);
    var e := s.workers[w].exec;
    ForwardGated(s.runs[e.runId], e, s.now, MoveOf(s, w, ok));
    ApprovalsStay(s, Stmt(w, ok));
    StaysGated(s.runs, RunsAfter(s, Stmt(w, ok)), e.runId, Forward(e, s.now, MoveOf(s, w, ok)).index);
  }

  lemma WorkersStayGated(s: Sys, l: Label)
    requires Gated(s) && Enabled(s, l)
    ensures WorkersGated(RunsAfter(s, l), WorkersAfter(s, l))
  {
    forall w | w in WorkersAfter(s, l) && WorkersAfter(s, l)[w].Executing?
      ensures IndexGated(RunsAfter(s, l), WorkersAfter(s, l)[w].exec.runId, WorkersAfter(s, l)[w].exec.index)
    {
      if l.Stmt? && l.worker == w {
        StatementGated(s, w, l.ok);
      } else if l.Claim? && l.worker == w {
        ClaimGated(s, w);
      } else {
        assert WorkerOk(s.runs, s.outbox, s.workers[w]);
        ApprovalsStay(s, l);
        StaysGated(s.runs, RunsAfter(s, l), s.workers[w].exec.runId, s.workers[w].exec.index);
      }
    }
  }

  lemma ClaimGated(s: Sys, w: nat)
    requires Gated(s) && Claims(s, w)
    ensures IndexGated(RunsAfter(s, Claim(w)), Lease(s, w).runId, Lease(s, w).index)
  {
    ClaimTarget(s, w);
    assert Gate(s.runs[s.workers[w].msg.runId], s.runs[s.workers[w].msg.runId].step);
  }

  lemma LedgerStaysGated(s: Sys, l: Label)
    requires Gated(s) && Enabled(s, l)
    ensures LedgerGated(RunsAfter(s, l), LedgerAfter(s, l))
  {
    ApprovalsStay(s, l);
    forall k | k in LedgerAfter(s, l) ensures IndexGated(RunsAfter(s, l), LedgerAfter(s, l)[k].run, LedgerAfter(s, l)[k].step) {
      if k in s.ledger {
        assert EntryOk(s.runs, k, s.ledger[k]);
        StaysGated(s.runs, RunsAfter(s, l), s.ledger[k].run, s.ledger[k].step);
      } else {
        CommitterGated(s, l.worker);
        StaysGated(s.runs, RunsAfter(s, l), s.workers[l.worker].exec.runId, s.workers[l.worker].exec.index);
      }
    }
  }

  lemma CommitterGated(s: Sys, w: nat)
    requires Gated(s) && OnRun(s, w)
    ensures var e := s.workers[w].exec; e.runId in s.runs && Canonical(e.runId) == e.runId && IndexGated(s.runs, e.runId, e.index)
  {
    assert WorkerOk(s.runs, s.outbox, s.workers[w]);
    assert IdOk(s.workers[w].exec.runId);
  }

  lemma {:induction false} GatedAlways(s: Sys, labels: seq<Label>, regime: Regime)
    requires Gated(s)
    ensures Gated(Reach(s, labels, regime))
  {
    if labels != [] {
      var before, l := Reach(s, labels[..|labels| - 1], regime), labels[|labels| - 1];
      GatedAlways(s, labels[..|labels| - 1], regime);
      StructuredStep(before, l, regime);
      if Possible(before, l, regime) {
        RowsStayGated(before, l);
        WorkersStayGated(before, l);
        LedgerStaysGated(before, l);
      }
    }
  }

  predicate ApprovesAt(s: Sys, l: Label, r: string, step: nat) {
    l == Approve(r) && Enabled(s, l) && s.runs[r].step == step && s.runs[r].state == AwaitingApproval
  }

  /** Position `k` of a history is an approve action that moves the run from `step`. */
  predicate ApprovedThen(s: Sys, labels: seq<Label>, k: nat, regime: Regime, r: string, step: nat) {
    k < |labels| && ApprovesAt(Reach(s, labels[..k], regime), labels[k], r, step)
  }

  /** The approve action a recorded approval stands for, in the history itself. */
  lemma {:induction false} ApprovalsWereActions(s: Sys, labels: seq<Label>, regime: Regime, r: string, step: nat) returns (k: nat)
    requires Init(s) && r in Reach(s, labels, regime).runs && step in Reach(s, labels, regime).runs[r].hist.approvals
    ensures ApprovedThen(s, labels, k, regime, r, step)
  {
    var n := |labels| - 1;
    var before := Reach(s, labels[..n], regime);
    if r in before.runs && step in before.runs[r].hist.approvals {
      k := ApprovalsWereActions(s, labels[..n], regime, r, step);
      assert labels[..n][..k] == labels[..k];
    } else {
      StructuredAlways(s, labels[..n], regime);
      NewApproval(before, labels[n], r, step);
      k := n;
    }
  }

  lemma NewApproval(s: Sys, l: Label, r: string, step: nat)
    requires Structured(s) && Enabled(s, l) && r in RunsAfter(s, l) && step in RunsAfter(s, l)[r].hist.approvals
    requires !(r in s.runs && step in s.runs[r].hist.approvals)
    ensures ApprovesAt(s, l, r, step)
  {
    if l.Stmt? {
      OnItsRun(s, l.worker, l.ok);
      var e := s.workers[l.worker].exec;
      WriteKeepsApprovals(s.runs[e.runId], e.index, s.now, MoveOf(s, l.worker, l.ok).action);
    } else if l.Approve? {
      assert RunOk(s.runs[l.run]);
    }
  }

  /** For every definition and every history, stale writers included: a worker is at a step
      that follows an approval only if an earlier approve action, at position `k`, moved
      that run's stored step from exactly that approval. */
  lemma GatedStepsAreApproved(s: Sys, labels: seq<Label>, regime: Regime, w: nat) returns (k: nat)
    requires Init(s)
    requires var s' := Reach(s, labels, regime); w in s'.workers && s'.workers[w].Executing?
    ensures var s' := Reach(s, labels, regime); var e := s'.workers[w].exec;
            && e.runId in s'.runs && s'.runs[e.runId].cols == e.cols
            && (FollowsApproval(e.cols.def, e.index) ==> ApprovedThen(s, labels, k, regime, e.runId, e.index - 1))
  {
    GatedAlways(s, labels, regime);
    var s' := Reach(s, labels, regime);
    var e := s'.workers[w].exec;
    ExecutorGated(s', w);
    k := 0;
    if FollowsApproval(e.cols.def, e.index) {
      k := ApprovalsWereActions(s, labels, regime, e.runId, e.index - 1);
    }
  }

  lemma ExecutorGated(s: Sys, w: nat)
    requires Gated(s) && w in s.workers && s.workers[w].Executing?
    ensures var e := s.workers[w].exec;
            && e.runId in s.runs && s.runs[e.runId].cols == e.cols
            && (FollowsApproval(e.cols.def, e.index) ==> e.index - 1 in s.runs[e.runId].hist.approvals)
  {
    var e := s.workers[w].exec;
    assert WorkerOk(s.runs, s.outbox, s.workers[w]);
    assert IndexGated(s.runs, e.runId, e.index);
  }

  /** Hence, for every schema-valid definition, a worker is at a step declared a side effect
      only after such an approve action. */
  lemma SideEffectsAreApproved(s: Sys, labels: seq<Label>, regime: Regime, w: nat) returns (k: nat)
    requires Init(s)
    requires var s' := Reach(s, labels, regime); w in s'.workers && s'.workers[w].Executing?
    ensures var e := Reach(s, labels, regime).workers[w].exec;
            SchemaValid(e.cols.def) && DeclaredSideEffect(e.cols.def, e.index) ==>
              && e.index > 0 && ApprovalStep(e.cols.def, e.index - 1)
              && ApprovedThen(s, labels, k, regime, e.runId, e.index - 1)
  {
    k := GatedStepsAreApproved(s, labels, regime, w);
  }

  /** A committed effect was approved if its step follows an approval, stale writers
      included; the flag a step declares plays no part. */
  lemma EffectsAreApproved(s: Sys, labels: seq<Label>, regime: Regime, entry: (string, string)) returns (k: nat)
    requires Init(s) && entry in Reach(s, labels, regime).ledger
    ensures var s' := Reach(s, labels, regime); var effect := s'.ledger[entry];
            && effect.run in s'.runs
            && (FollowsApproval(s'.runs[effect.run].cols.def, effect.step) ==>
                  ApprovedThen(s, labels, k, regime, effect.run, effect.step - 1))
  {
    GatedAlways(s, labels, regime);
    var s' := Reach(s, labels, regime);
    var effect := s'.ledger[entry];
    EffectGated(s', entry);
    k := 0;
    if FollowsApproval(s'.runs[effect.run].cols.def, effect.step) {
      k := ApprovalsWereActions(s, labels, regime, effect.run, effect.step - 1);
    }
  }

  lemma EffectGated(s: Sys, entry: (string, string))
    requires Gated(s) && entry in s.ledger
    ensures s.ledger[entry].run in s.runs && Gate(s.runs[s.ledger[entry].run], s.ledger[entry].step)
  {
    assert EntryOk(s.runs, entry, s.ledger[entry]);
  }

  /** Within leases the preceding step decides exactly: a committed effect was approved if
      and only if its step follows an approval. */
  lemma ApprovedExactly(s: Sys, labels: seq<Label>, entry: (string, string))
    requires Init(s) && entry in Reach(s, labels, WithinLease).ledger
    ensures var s' := Reach(s, labels, WithinLease); var effect := s'.ledger[entry];
            && effect.run in s'.runs
            && (effect.step > 0 && effect.step - 1 in s'.runs[effect.run].hist.approvals <==>
                FollowsApproval(s'.runs[effect.run].cols.def, effect.step))
  {
    GatedAlways(s, labels, WithinLease);
    FencedAlways(s, labels);
    var s' := Reach(s, labels, WithinLease);
    EffectGated(s', entry);
    assert ApprovalsOk(s'.runs[s'.ledger[entry].run]);
  }

  /** The declared steps of a run that have a committed effect. */
  function DeclaredEffects(s: Sys, r: string): set<nat>
    requires r in s.runs
  {
    set k | k in s.ledger && s.ledger[k].run == r && DeclaredSideEffect(s.runs[r].cols.def, s.ledger[k].step) :: s.ledger[k].step
  }

  lemma {:induction false} FewerThanApprovals(steps: set<nat>, approvals: seq<nat>)
    requires forall i :: i in steps ==> i > 0 && i - 1 in approvals
    ensures |steps| <= |approvals|
  {
    if steps != {} {
      var i :| i in steps;
      var k :| 0 <= k < |approvals| && approvals[k] == i - 1;
      var rest := approvals[..k] + approvals[k + 1..];
      forall j | j in steps - {i} ensures j - 1 in rest {
        var m :| 0 <= m < |approvals| && approvals[m] == j - 1;
        assert rest[if m < k then m else m - 1] == j - 1;
      }
      FewerThanApprovals(steps - {i}, rest);
    }
  }

  /** The steps behind an approval that have a committed effect. */
  function GatedEffects(s: Sys, r: string): set<nat>
    requires r in s.runs
  {
    set k | k in s.ledger && s.ledger[k].run == r && FollowsApproval(s.runs[r].cols.def, s.ledger[k].step) :: s.ledger[k].step
  }

  /** Committed effects behind an approval never outnumber the run's approved events; for a
      schema-valid definition these include all declared ones. */
  lemma EffectsWithinApprovals(s: Sys, labels: seq<Label>, regime: Regime, r: string)
    requires Init(s)
    requires r in Reach(s, labels, regime).runs
    ensures var s' := Reach(s, labels, regime);
            && |GatedEffects(s', r)| <= multiset(s'.runs[r].events)[Approved]
            && (SchemaValid(s'.runs[r].cols.def) ==> DeclaredEffects(s', r) <= GatedEffects(s', r))
  {
    GatedAlways(s, labels, regime);
    var s' := Reach(s, labels, regime);
    var run := s'.runs[r];
    assert RunOk(run);
    forall i | i in GatedEffects(s', r) ensures i > 0 && i - 1 in run.hist.approvals {
      var k :| k in s'.ledger && s'.ledger[k].run == r && s'.ledger[k].step == i;
      assert IndexGated(s'.runs, r, i);
    }
    FewerThanApprovals(GatedEffects(s', r), run.hist.approvals);
  }
}
