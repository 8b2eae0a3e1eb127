/** The theorems about histories in which every writer stays inside its lease. */
module Recovery {
  import opened Contracts
  import opened Keys
  import opened Runtime
  import opened Structure
  import opened Leases

  /******* Mutual exclusion *******/

  /** At most one executor per run can still write its row, results or ledger, across
      expiry, reclaim, approval, cancellation and the fail-through path; the stored step is
      that executor's loop index and never exceeds the step count. */
  lemma MutualExclusion(s: Sys, labels: seq<Label>, v: nat, w: nat)
    requires Init(s)
    requires var s' := Reach(s, labels, WithinLease); v in s'.workers && w in s'.workers
    requires var s' := Reach(s, labels, WithinLease);
             && Live(s'.now, s'.workers[v]) && Live(s'.now, s'.workers[w])
             && s'.workers[v].exec.runId == s'.workers[w].exec.runId
    ensures v == w
    ensures var s' := Reach(s, labels, WithinLease); var e := s'.workers[w].exec;
            && e.runId in s'.runs
            && s'.runs[e.runId].step == e.index <= |s'.runs[e.runId].cols.def.steps|
            && !Claimable(s'.runs[e.runId], s'.now)
  {
    FencedAlways(s, labels);
    var s' := Reach(s, labels, WithinLease);
    NobodyLive(s', w);
    assert Owned(s'.now, s'.runs, s'.ledger, s'.workers[w]);
    assert RowOk(s'.runs[s'.workers[w].exec.runId]);
  }

  /******* The lease in seconds *******/

  /** A claim at time t leases the run until t + 30, row and executor alike. */
  lemma ClaimLeases(s: Sys, w: nat)
    requires Structured(s) && Claims(s, w)
    ensures var r := s.workers[w].msg.runId; var row, worker := RunsAfter(s, Claim(w)), WorkersAfter(s, Claim(w));
            && r in s.runs && r in row && w in worker && worker[w].Executing?
            && row[r].state == Running && row[r].lease == Some(s.now + 30) && row[r].attempts == s.runs[r].attempts + 1
            && row[r].step == s.runs[r].step && row[r].events == s.runs[r].events + [LeasedEvent, Started]
            && worker[w].exec.runId == r && worker[w].exec.index == s.runs[r].step && worker[w].exec.until == s.now + 30
  {
    ClaimTarget(s, w);
  }

  /** An advance at time t renews the lease to t + 30, row and executor alike, so a running
      row cannot be claimed up to and including that second, and can be right after it. */
  lemma AdvanceRenews(s: Sys, w: nat, ok: bool)
    requires IdsOk(s.runs) && WorkersOk(s.runs, s.outbox, s.workers) && OnRun(s, w) && s.workers[w].exec.pc == Advancing
    ensures var e := s.workers[w].exec; var rows, workers := RunsAfter(s, Stmt(w, ok)), WorkersAfter(s, Stmt(w, ok));
            && e.runId in s.runs && e.runId in rows && w in workers && workers[w].Executing?
            && rows[e.runId].lease == Some(s.now + 30) && rows[e.runId].step == e.index + 1 && rows[e.runId].state == s.runs[e.runId].state
            && workers[w].exec.until == s.now + 30 && workers[w].exec.index == e.index + 1
            && (s.runs[e.runId].state == Running ==> forall now: nat :: Claimable(rows[e.runId], now) <==> now > s.now + 30)
  {
    var e := s.workers[w].exec;
    AdvanceMoves(s, w, ok);
    StatementRow(s, w, ok, e.runId);
    AdvancedWorker(s, w, ok);
    AdvancedRow(s.runs[e.runId], e.index, s.now);
  }

  lemma AdvanceMoves(s: Sys, w: nat, ok: bool)
    requires WorkersOk(s.runs, s.outbox, s.workers) && OnRun(s, w) && s.workers[w].exec.pc == Advancing
    ensures s.workers[w].exec.runId in s.runs && MoveOf(s, w, ok) == Move(Advance, Some(AtStep))
  {
    assert WorkerOk(s.runs, s.outbox, s.workers[w]);
  }

  lemma AdvancedWorker(s: Sys, w: nat, ok: bool)
    requires OnRun(s, w) && s.workers[w].exec.pc == Advancing
    ensures var workers := WorkersAfter(s, Stmt(w, ok));
            && w in workers && workers[w].Executing?
            && workers[w].exec.until == s.now + 30 && workers[w].exec.index == s.workers[w].exec.index + 1
  {
  }

  lemma AdvancedRow(run: Run, index: nat, now: nat)
    ensures var row := Write(run, index, now, Advance);
            && row.lease == Some(now + 30) && row.step == index + 1 && row.state == run.state
            && (run.state == Running ==> forall later: nat :: Claimable(row, later) <==> later > now + 30)
  {
  }

  /** Within leases nobody holds what nobody works on: a queued, suspended or succeeded run has
      no lease, and neither has one whose live executor has just failed it. */
  lemma LeaseReleased(s: Sys, labels: seq<Label>, r: string)
    requires Init(s) && r in Reach(s, labels, WithinLease).runs
    ensures var s' := Reach(s, labels, WithinLease); var run := s'.runs[r];
            && (run.state in {Queued, AwaitingApproval, Succeeded} ==> run.lease == None)
            && (forall w :: w in s'.workers && Live(s'.now, s'.workers[w]) && s'.workers[w].exec.runId == r && s'.workers[w].exec.pc.FailEvent? ==>
                  run.lease == None)
  {
    FencedAlways(s, labels);
    var s' := Reach(s, labels, WithinLease);
    assert RowOk(s'.runs[r]);
    forall w | w in s'.workers && Live(s'.now, s'.workers[w]) && s'.workers[w].exec.runId == r && s'.workers[w].exec.pc.FailEvent?
      ensures s'.runs[r].lease == None
    {
      assert Owned(s'.now, s'.runs, s'.ledger, s'.workers[w]);
    }
  }

  /** Labels of other processes that do not cancel the run. */
  predicate Leaves(l: Label, w: nat, r: string) {
    l != Cancel(r) && !((l.Deliver? || l.Claim? || l.Stmt? || l.Ack? || l.Crash?) && l.worker == w)
  }

  /** The live executor `w` of a running run. */
  predicate HoldsLease(s: Sys, w: nat, r: string) {
    w in s.workers && Live(s.now, s.workers[w]) && s.workers[w].exec.runId == r && r in s.runs && s.runs[r].state == Running
  }

  predicate SameLease(a: Run, b: Run) {
    a.state == b.state && a.step == b.step && a.lease == b.lease && a.attempts == b.attempts
  }

  lemma LeaseHolds(s: Sys, l: Label, w: nat, r: string)
    requires Fenced(s) && Possible(s, l, WithinLease) && Leaves(l, w, r) && HoldsLease(s, w, r)
    ensures w in WorkersAfter(s, l) && WorkersAfter(s, l)[w] == s.workers[w]
    ensures r in RunsAfter(s, l) && SameLease(s.runs[r], RunsAfter(s, l)[r])
  {
    WorkerLeft(s, l, w);
    if l.Stmt? {
      StatementLeaves(s, l.worker, l.ok, w, r);
    } else {
      NobodyLive(s, w);
      assert RunOk(s.runs[r]);
      OthersLeave(s, l, r);
    }
  }

  lemma WorkerLeft(s: Sys, l: Label, w: nat)
    requires Enabled(s, l) && w in s.workers && !((l.Deliver? || l.Claim? || l.Stmt? || l.Ack? || l.Crash?) && l.worker == w)
    ensures w in WorkersAfter(s, l) && WorkersAfter(s, l)[w] == s.workers[w]
  {
  }

  lemma StatementLeaves(s: Sys, v: nat, ok: bool, w: nat, r: string)
    requires Fenced(s) && OnRun(s, v) && Timely(s, Stmt(v, ok)) && v != w && HoldsLease(s, w, r)
    ensures r in RunsAfter(s, Stmt(v, ok)) && SameLease(s.runs[r], RunsAfter(s, Stmt(v, ok))[r])
  {
    StatementRow(s, v, ok, r);
    if s.workers[v].exec.runId == r {
      SharedRunIsQuiet(s, v, ok, w);
      QuietKeepsLease(s.runs[r], s.workers[v].exec.index, s.now, MoveOf(s, v, ok).action);
    }
  }

  lemma QuietKeepsLease(run: Run, index: nat, now: nat, action: Action)
    requires !Writes(action)
    ensures SameLease(run, Write(run, index, now, action))
  {
  }

  lemma OthersLeave(s: Sys, l: Label, r: string)
    requires Enabled(s, l) && !l.Stmt? && l != Cancel(r) && r in s.runs && s.runs[r].state == Running && !Claimable(s.runs[r], s.now)
    ensures r in RunsAfter(s, l) && SameLease(s.runs[r], RunsAfter(s, l)[r])
  {
    OtherRow(s, l, r);
  }

  /** Nobody takes a leased run away: over every continuation that neither moves its executor
      nor cancels it and does not outlast the lease, the run is not claimed again and keeps
      state, step and lease. */
  lemma {:induction false} LeaseRespected(s: Sys, labels: seq<Label>, w: nat, r: string)
    requires Fenced(s) && HoldsLease(s, w, r)
    requires forall i :: 0 <= i < |labels| ==> Leaves(labels[i], w, r)
    requires Reach(s, labels, WithinLease).now <= s.workers[w].exec.until
    ensures var s' := Reach(s, labels, WithinLease);
            w in s'.workers && s'.workers[w] == s.workers[w] && r in s'.runs && SameLease(s.runs[r], s'.runs[r])
  {
    if labels != [] {
      var n := |labels| - 1;
      var before := Reach(s, labels[..n], WithinLease);
      assert before.now <= Next(before, labels[n], WithinLease).now;
      LeaseRespected(s, labels[..n], w, r);
      FencedAlways(s, labels[..n]);
      if Possible(before, labels[n], WithinLease) {
        LeaseHolds(before, labels[n], w, r);
      }
    }
  }

  /******* The stored step *******/

  lemma StatementStep(s: Sys, w: nat, ok: bool)
    requires Fenced(s) && OnRun(s, w) && Timely(s, Stmt(w, ok))
    ensures var e := s.workers[w].exec;
            Canonical(e.runId) in s.runs &&
            s.runs[Canonical(e.runId)].step <= Write(s.runs[Canonical(e.runId)], e.index, s.now, MoveOf(s, w, ok).action).step
  {
    OnItsRun(s, w, ok);
    var e, action := s.workers[w].exec, MoveOf(s, w, ok).action;
    OnlyAdvanceMoves(s.runs[e.runId], e.index, s.now, action);
    if Writes(action) {
      WriterIsLive(s, w, ok);
    }
  }

  lemma StepNeverDecreases(s: Sys, l: Label, r: string)
    requires Fenced(s) && r in s.runs && Enabled(s, l) && Timely(s, l)
    ensures r in RunsAfter(s, l) && s.runs[r].step <= RunsAfter(s, l)[r].step
  {
    if l.Stmt? {
      StatementStep(s, l.worker, l.ok);
      StatementRow(s, l.worker, l.ok, r);
    } else {
      OthersKeepStep(s, l, r);
    }
  }

  lemma OthersKeepStep(s: Sys, l: Label, r: string)
    requires r in s.runs && Enabled(s, l) && !l.Stmt?
    ensures r in RunsAfter(s, l) && s.runs[r].step <= RunsAfter(s, l)[r].step
  {
  }

  /** Over any continuation the stored step only grows and stays within the definition. */
  lemma {:induction false} StepIsMonotone(s: Sys, labels: seq<Label>, r: string)
    requires Fenced(s) && r in s.runs
    ensures var s' := Reach(s, labels, WithinLease);
            r in s'.runs && s.runs[r].step <= s'.runs[r].step <= |s'.runs[r].cols.def.steps|
  {
    if labels == [] {
      assert RowOk(s.runs[r]);
    } else {
      var before := Reach(s, labels[..|labels| - 1], WithinLease);
      StepIsMonotone(s, labels[..|labels| - 1], r);
      FencedAlways(s, labels);
      FencedAlways(s, labels[..|labels| - 1]);
      if Possible(before, labels[|labels| - 1], WithinLease) {
        StepNeverDecreases(before, labels[|labels| - 1], r);
      }
      assert RowOk(Reach(s, labels, WithinLease).runs[r]);
    }
  }

  function ApprovalSteps(def: Definition): set<nat> {
    set i | 0 <= i < |def.steps| && ApprovalStep(def, i)
  }

  lemma {:induction false} IncreasingFits(xs: seq<nat>, bag: set<nat>)
    requires forall i :: 0 <= i < |xs| ==> xs[i] in bag
    requires forall i, j :: 0 <= i < j < |xs| ==> xs[i] < xs[j]
    ensures |xs| <= |bag|
  {
    if xs != [] {
      var last := xs[|xs| - 1];
      IncreasingFits(xs[..|xs| - 1], bag - {last});
      assert |bag - {last}| == |bag| - 1;
    }
  }

  /** Approve actions never outnumber the approval steps of the definition. */
  lemma ApprovalsBounded(s: Sys, labels: seq<Label>, r: string)
    requires Init(s) && r in Reach(s, labels, WithinLease).runs
    ensures var run := Reach(s, labels, WithinLease).runs[r];
            multiset(run.events)[Approved] <= |ApprovalSteps(run.cols.def)|
  {
    FencedAlways(s, labels);
    var run := Reach(s, labels, WithinLease).runs[r];
    assert ApprovalsOk(run) && RunOk(run);
    IncreasingFits(run.hist.approvals, ApprovalSteps(run.cols.def));
  }

  /******* Transparent recovery *******/

  /** What a run leaves behind: a result kind per step and the steps with a ledger row. */
  datatype Outcome = Outcome(kinds: map<nat, ResultKind>, effects: set<nat>)

  /** The crash-free sequential execution of the first `n` steps. */
  function Sequential(def: Definition, n: nat): Outcome
    requires n <= |def.steps|
  {
    if n == 0 then Outcome(map[], {})
    else
      var before := Sequential(def, n - 1);
      var kind := KindOf(def.steps[n - 1]);
      Outcome(if kind.Some? then before.kinds[n - 1 := kind.value] else before.kinds,
              if TicketStep(def, n - 1) then before.effects + {n - 1} else before.effects)
  }

  lemma {:induction false} SequentialSteps(def: Definition, n: nat)
    requires n <= |def.steps|
    ensures var o := Sequential(def, n);
            && (forall i :: i in o.kinds <==> 0 <= i < n && KindOf(def.steps[i]).Some?)
            && (forall i :: i in o.kinds ==> Some(o.kinds[i]) == KindOf(def.steps[i]))
            && (forall i :: i in o.effects <==> 0 <= i < n && TicketStep(def, i))
  {
    if n > 0 {
      SequentialSteps(def, n - 1);
    }
  }

  /** The definitions `execute` can get to the end of. */
  predicate Runnable(def: Definition) {
    SupportedSchema(def.schemaVersion) && forall i :: 0 <= i < |def.steps| ==> def.steps[i] != Malformed
  }

  /** The rows a run has in the database. */
  function Observed(s: Sys, r: string): Outcome
    requires r in s.runs
  {
    Outcome(map i | i in s.runs[r].results :: s.runs[r].results[i].kind,
            set k | k in s.ledger && s.ledger[k].run == r :: s.ledger[k].step)
  }

  lemma SettledEffects(s: Sys, r: string, i: nat)
    requires Fenced(s) && r in s.runs && s.runs[r].step == |s.runs[r].cols.def.steps|
    ensures i in Observed(s, r).effects <==> TicketStep(s.runs[r].cols.def, i)
  {
    var run := s.runs[r];
    assert EffectsDone(r, run, s.ledger);
    if TicketStep(run.cols.def, i) {
      var entry := (run.cols.tenant, EffectKey(r, i));
      assert EntryOk(s.runs, entry, s.ledger[entry]);
      EffectKeyInjective(r, i, s.ledger[entry].run, s.ledger[entry].step);
      assert s.ledger[entry].run == r && s.ledger[entry].step == i;
    }
    if i in Observed(s, r).effects {
      var entry :| entry in s.ledger && s.ledger[entry].run == r && s.ledger[entry].step == i;
      assert EntryOk(s.runs, entry, s.ledger[entry]);
    }
  }

  /** Exactly what a succeeded run leaves, fail-through included: one ledger row per ticket
      step and no others, and the sequential results except for the steps the fail-through
      path skipped.  Only fallible steps are ever skipped, and no run of a definition with an
      unsupported version or a malformed step succeeds. */
  lemma SucceededExactly(s: Sys, labels: seq<Label>, r: string)
    requires Init(s)
    requires var s' := Reach(s, labels, WithinLease); r in s'.runs && s'.runs[r].state == Succeeded
    ensures var s' := Reach(s, labels, WithinLease); var run := s'.runs[r];
            var reference := Sequential(run.cols.def, |run.cols.def.steps|);
            && Observed(s', r) == Outcome(reference.kinds - run.hist.skipped, reference.effects)
            && (forall i :: i in run.hist.skipped ==> Fallible(run.cols.def, i))
            && Runnable(run.cols.def)
  {
    FencedAlways(s, labels);
    SettledRows(Reach(s, labels, WithinLease), r);
  }

  lemma SettledRows(s: Sys, r: string)
    requires Fenced(s) && r in s.runs && s.runs[r].state == Succeeded
    ensures var run := s.runs[r];
            var reference := Sequential(run.cols.def, |run.cols.def.steps|);
            && Observed(s, r) == Outcome(reference.kinds - run.hist.skipped, reference.effects)
            && (forall i :: i in run.hist.skipped ==> Fallible(run.cols.def, i))
            && Runnable(run.cols.def)
  {
    var run := s.runs[r];
    assert RowOk(run) && RunOk(run);
    SettledResults(run);
    SequentialSteps(run.cols.def, |run.cols.def.steps|);
    AllEffects(s, r);
  }

  lemma AllEffects(s: Sys, r: string)
    requires Fenced(s) && r in s.runs && s.runs[r].step == |s.runs[r].cols.def.steps|
    ensures Observed(s, r).effects == Sequential(s.runs[r].cols.def, |s.runs[r].cols.def.steps|).effects
  {
    var def := s.runs[r].cols.def;
    SequentialSteps(def, |def.steps|);
    forall i: nat ensures i in Observed(s, r).effects <==> TicketStep(def, i) {
      SettledEffects(s, r, i);
    }
  }

  lemma SettledResults(run: Run)
    requires RowOk(run) && RunOk(run) && run.state == Succeeded
    ensures (map i | i in run.results :: run.results[i].kind) == Sequential(run.cols.def, |run.cols.def.steps|).kinds - run.hist.skipped
    ensures Runnable(run.cols.def)
  {
    var reference := Sequential(run.cols.def, |run.cols.def.steps|);
    SequentialSteps(run.cols.def, |run.cols.def.steps|);
    assert forall i :: i in run.results <==> i in reference.kinds && i !in run.hist.skipped;
    forall i | 0 <= i < |run.cols.def.steps| ensures run.cols.def.steps[i] != Malformed {
      assert i in run.results || i in run.hist.skipped;
    }
  }

  /** No step of the definition can be failed through. */
  predicate Infallible(def: Definition) {
    forall i :: 0 <= i < |def.steps| ==> !FallibleStep(def.steps[i])
  }

  /** So every succeeded run of a definition without fallible steps leaves exactly the
      sequential execution, whatever failures, crashes and redeliveries happened. */
  lemma InfallibleRecovery(s: Sys, labels: seq<Label>, r: string)
    requires Init(s)
    requires var s' := Reach(s, labels, WithinLease);
             r in s'.runs && s'.runs[r].state == Succeeded && Infallible(s'.runs[r].cols.def)
    ensures var s' := Reach(s, labels, WithinLease); var def := s'.runs[r].cols.def;
            Observed(s', r) == Sequential(def, |def.steps|)
  {
    SucceededExactly(s, labels, r);
    var run := Reach(s, labels, WithinLease).runs[r];
    assert forall i :: i in run.hist.skipped ==> Fallible(run.cols.def, i);
    assert run.hist.skipped == {};
    var kinds := Sequential(run.cols.def, |run.cols.def.steps|).kinds;
    assert kinds - run.hist.skipped == kinds;
  }

  /** Crash recovery is transparent: whatever the interleaving of claims, crashes between
      any two statements, redeliveries and approvals, a run that succeeds without a fail or
      uncertain write leaves what one crash-free sequential execution leaves. */
  lemma TransparentRecovery(s: Sys, labels: seq<Label>, r: string)
    requires Init(s)
    requires var s' := Reach(s, labels, WithinLease);
             r in s'.runs && s'.runs[r].state == Succeeded && s'.runs[r].hist.failures == 0
    ensures var s' := Reach(s, labels, WithinLease); var run := s'.runs[r];
            && Observed(s', r) == Sequential(run.cols.def, |run.cols.def.steps|)
            && (forall i :: 0 <= i < |run.cols.def.steps| ==> i in run.results)
  {
    SucceededExactly(s, labels, r);
    FencedAlways(s, labels);
    var run := Reach(s, labels, WithinLease).runs[r];
    assert RowOk(run) && run.hist.skipped == {};
    var kinds := Sequential(run.cols.def, |run.cols.def.steps|).kinds;
    assert kinds - run.hist.skipped == kinds;
  }
}
