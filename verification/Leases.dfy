/** What timed leases buy: with every writer inside its lease there is one writer per
    run, the stored step is that writer's loop index, and crash recovery is transparent. */
module Leases {
  import opened Contracts
  import opened Keys
  import opened Runtime
  import opened Structure

  /** An executor that may still write and whose lease has not run out. */
  predicate Live(now: nat, worker: Worker) {
    worker.Executing? && MayWrite(worker.exec.pc) && now <= worker.exec.until
  }

  /** Steps before the stored one are settled: a result row for each, except for those
      the fail-through path advanced over. */
  predicate RowOk(run: Run) {
    && run.step <= |run.cols.def.steps|
    && (forall i :: i in run.results ==> i <= run.step)
    && (forall i :: i in run.hist.skipped ==> i < run.step && Fallible(run.cols.def, i))
    && (forall i :: 0 <= i < run.step ==> (i in run.results <==> i !in run.hist.skipped))
    && (run.hist.failures == 0 ==> run.hist.skipped == {})
    && (run.state == AwaitingApproval ==> ApprovalStep(run.cols.def, run.step) && run.step in run.results)
    && (run.state == Succeeded ==> run.step == |run.cols.def.steps| && SupportedSchema(run.cols.def.schemaVersion))
    && (run.state in {Failed, Uncertain} ==> run.hist.failures > 0)
    && (run.state in {Queued, AwaitingApproval, Succeeded} ==> run.lease == None)
  }

  /** Each approve action moved the run off a different approval step, in step order. */
  predicate ApprovalsOk(run: Run) {
    && (forall i :: 0 <= i < |run.hist.approvals| ==>
          run.hist.approvals[i] < run.step && ApprovalStep(run.cols.def, run.hist.approvals[i]))
    && (forall i, j :: 0 <= i < j < |run.hist.approvals| ==> run.hist.approvals[i] < run.hist.approvals[j])
  }

  predicate EffectsDone(id: string, run: Run, ledger: EffectLedger) {
    forall i: nat {:trigger TicketStep(run.cols.def, i)} ::
      i < run.step && TicketStep(run.cols.def, i) ==> (run.cols.tenant, EffectKey(id, i)) in ledger
  }

  /** A live executor owns the row: the expiry is its own, or the row is already terminal
      (failed through or cancelled under it), and the stored step is its index. */
  predicate LiveOk(run: Run, e: Exec, ledger: EffectLedger) {
    && (run.state in {Failed, Uncertain, Cancelled} || (run.state == Running && run.lease == Some(e.until)))
    && e.index == run.step
    && (e.pc.Suspending? ==> e.index in run.results)
    && (e.pc.Recording? || e.pc.Advancing? ==> TicketStep(e.cols.def, e.index) ==> Entry(e) in ledger)
    && (e.pc.Advancing? ==> e.index in run.results || (run.hist.failures > 0 && Fallible(e.cols.def, e.index)))
    && (e.pc.FailEvent? ==> run.hist.failures > 0 && run.lease == None)
  }

  predicate Rows(runs: map<string, Run>, ledger: EffectLedger) {
    forall r :: r in runs ==> RowOk(runs[r]) && ApprovalsOk(runs[r]) && EffectsDone(r, runs[r], ledger)
  }

  predicate Owned(now: nat, runs: map<string, Run>, ledger: EffectLedger, worker: Worker) {
    Live(now, worker) ==> worker.exec.runId in runs && LiveOk(runs[worker.exec.runId], worker.exec, ledger)
  }

  predicate Owners(now: nat, runs: map<string, Run>, ledger: EffectLedger, workers: map<nat, Worker>) {
    forall w :: w in workers ==> Owned(now, runs, ledger, workers[w])
  }

  /** At most one live executor per run. */
  predicate Exclusive(now: nat, workers: map<nat, Worker>) {
    forall v, w | v in workers && w in workers && Live(now, workers[v]) && Live(now, workers[w]) ::
      workers[v].exec.runId == workers[w].exec.runId ==> v == w
  }

  predicate Fenced(s: Sys) {
    && Structured(s) && Rows(s.runs, s.ledger)
    && Owners(s.now, s.runs, s.ledger, s.workers) && Exclusive(s.now, s.workers)
  }

  /******* One row, one executor *******/

  lemma OnlyMayWrite(e: Exec, ok: bool, held: bool, present: bool)
    ensures Writes(Plan(e, ok, held, present).action) ==> MayWrite(e.pc)
    ensures var next := Plan(e, ok, held, present).next; next.Some? && MayWrite(next.value) ==> MayWrite(e.pc)
  {
  }

  lemma WriteKeepsRow(run: Run, e: Exec, now: nat, ok: bool, held: bool, ledger: EffectLedger)
    requires RowOk(run) && LiveOk(run, e, ledger) && e.cols == run.cols && PcOk(e)
    requires held ==> e.cols.handle.Some?
    ensures RowOk(Write(run, e.index, now, Plan(e, ok, held, Entry(e) in ledger).action))
  {
    PlanFits(e, ok, held, Entry(e) in ledger);
    SuccessIsSupported(e, ok, held, Entry(e) in ledger);
    ActionKeepsRow(run, e.index, now, Plan(e, ok, held, Entry(e) in ledger).action);
  }

  lemma SuccessIsSupported(e: Exec, ok: bool, held: bool, present: bool)
    ensures var action := Plan(e, ok, held, present).action;
            && (action.SetSucceeded? ==> SupportedSchema(e.cols.def.schemaVersion))
            && (action.Advance? <==> e.pc.Advancing?) && (action.SetAwaiting? <==> e.pc.Suspending?)
  {
  }

  lemma ActionKeepsRow(run: Run, index: nat, now: nat, action: Action)
    requires RowOk(run) && index == run.step && ActionOk(run.cols.def, index, action)
    requires action.SetSucceeded? ==> SupportedSchema(run.cols.def.schemaVersion)
    requires action.SetAwaiting? ==> index in run.results
    requires action.Advance? ==> run.state in {Running, Failed, Uncertain, Cancelled}
    requires action.Advance? ==> index in run.results || (run.hist.failures > 0 && Fallible(run.cols.def, index))
    ensures RowOk(Write(run, index, now, action))
  {
  }

  lemma WriteKeepsApprovals(run: Run, index: nat, now: nat, action: Action)
    requires ApprovalsOk(run) && index == run.step
    ensures ApprovalsOk(Write(run, index, now, action))
  {
  }

  lemma WriteKeepsOwner(run: Run, e: Exec, now: nat, ok: bool, held: bool, ledger: EffectLedger, after: EffectLedger)
    requires LiveOk(run, e, ledger) && PcOk(e) && e.cols == run.cols
    requires held ==> e.cols.handle.Some?
    requires forall k :: k in ledger ==> k in after
    requires Plan(e, ok, held, Entry(e) in ledger).action.CommitEffect? ==> Entry(e) in after
    ensures var move := Plan(e, ok, held, Entry(e) in ledger);
            move.next.Some? && MayWrite(move.next.value) ==>
              LiveOk(Write(run, e.index, now, move.action), Forward(e, now, move), after)
  {
    if e.pc.AtStep? {
      StepKeepsOwner(run, e, now, ok, held, ledger, after);
    }
  }

  lemma StepKeepsOwner(run: Run, e: Exec, now: nat, ok: bool, held: bool, ledger: EffectLedger, after: EffectLedger)
    requires LiveOk(run, e, ledger) && e.pc.AtStep? && e.cols == run.cols
    requires forall k :: k in ledger ==> k in after
    requires StepMove(e, ok, held, Entry(e) in ledger).action.CommitEffect? ==> Entry(e) in after
    ensures var move := StepMove(e, ok, held, Entry(e) in ledger);
            move.next.Some? && MayWrite(move.next.value) ==>
              LiveOk(Write(run, e.index, now, move.action), Forward(e, now, move), after)
  {
  }

  lemma WriteKeepsEffects(run: Run, e: Exec, now: nat, ok: bool, held: bool, ledger: EffectLedger, after: EffectLedger)
    requires EffectsDone(e.runId, run, ledger) && LiveOk(run, e, ledger) && e.cols == run.cols
    requires forall k :: k in ledger ==> k in after
    ensures EffectsDone(e.runId, Write(run, e.index, now, Plan(e, ok, held, Entry(e) in ledger).action), after)
  {
    OnlyAdvanceMoves(run, e.index, now, Plan(e, ok, held, Entry(e) in ledger).action);
  }

  lemma OnlyAdvanceMoves(run: Run, index: nat, now: nat, action: Action)
    ensures var after := Write(run, index, now, action);
            after.cols == run.cols &&
            after.step == if action.Advance? then index + 1 else if action.SetAwaiting? then index else run.step
  {
  }

  /** Consuming the credential, calling the provider and appending an event are not
      writes: rows and ownership do not notice them. */
  lemma QuietKeepsRow(run: Run, index: nat, now: nat, action: Action, id: string, ledger: EffectLedger)
    requires !Writes(action)
    ensures var after := Write(run, index, now, action);
            && (RowOk(run) ==> RowOk(after)) && (ApprovalsOk(run) ==> ApprovalsOk(after))
            && (EffectsDone(id, run, ledger) ==> EffectsDone(id, after, ledger))
            && (forall e :: LiveOk(run, e, ledger) ==> LiveOk(after, e, ledger))
  {
  }

  lemma QuietKeepsOwner(run: Run, e: Exec, now: nat, ok: bool, held: bool, ledger: EffectLedger)
    requires LiveOk(run, e, ledger) && PcOk(e)
    requires !Writes(Plan(e, ok, held, Entry(e) in ledger).action)
    ensures var move := Plan(e, ok, held, Entry(e) in ledger);
            move.next.Some? && MayWrite(move.next.value) ==> LiveOk(run, Forward(e, now, move), ledger)
  {
  }

  lemma ApproveKeepsRow(id: string, run: Run, outboxId: nat, ledger: EffectLedger)
    requires RowOk(run) && ApprovalsOk(run) && EffectsDone(id, run, ledger) && run.state == AwaitingApproval
    ensures var after := ApproveRun(run, outboxId);
            RowOk(after) && ApprovalsOk(after) && EffectsDone(id, after, ledger)
  {
  }

  /******* Preservation *******/

  lemma PutRow(runs: map<string, Run>, ledger: EffectLedger, after: EffectLedger, id: string, run: Run)
    requires Rows(runs, ledger) && forall k :: k in ledger ==> k in after
    requires RowOk(run) && ApprovalsOk(run) && EffectsDone(id, run, after)
    ensures Rows(runs[id := run], after)
  {
    forall r | r in runs ensures EffectsDone(r, runs[r], after) {
      assert EffectsDone(r, runs[r], ledger);
    }
  }

  lemma LedgerGrows(s: Sys, l: Label)
    requires Enabled(s, l)
    ensures forall k :: k in s.ledger ==> k in LedgerAfter(s, l)
    ensures l.Stmt? && MoveOf(s, l.worker, l.ok).action.CommitEffect? ==> Entry(s.workers[l.worker].exec) in LedgerAfter(s, l)
  {
  }

  /** Under the lease assumption a statement that writes comes from a live executor. */
  lemma WriterIsLive(s: Sys, w: nat, ok: bool)
    requires Fenced(s) && Enabled(s, Stmt(w, ok)) && Timely(s, Stmt(w, ok)) && Writes(MoveOf(s, w, ok).action)
    ensures var e := s.workers[w].exec;
            Live(s.now, s.workers[w]) && e.runId in s.runs && LiveOk(s.runs[e.runId], e, s.ledger)
  {
    var e := s.workers[w].exec;
    OnlyMayWrite(e, ok, e.cols.handle.Some? && e.cols.handle.value in s.broker, Entry(e) in s.ledger);
    assert Owned(s.now, s.runs, s.ledger, s.workers[w]);
  }

  lemma StatementRows(s: Sys, w: nat, ok: bool)
    requires Fenced(s) && Enabled(s, Stmt(w, ok)) && Timely(s, Stmt(w, ok))
    ensures Rows(RunsAfter(s, Stmt(w, ok)), LedgerAfter(s, Stmt(w, ok)))
  {
    var l, e, move := Stmt(w, ok), s.workers[w].exec, MoveOf(s, w, ok);
    OnItsRun(s, w, ok);
    LedgerGrows(s, l);
    var run, held := s.runs[e.runId], e.cols.handle.Some? && e.cols.handle.value in s.broker;
    if Writes(move.action) {
      WriterIsLive(s, w, ok);
      WriteKeepsRow(run, e, s.now, ok, held, s.ledger);
      WriteKeepsApprovals(run, e.index, s.now, move.action);
      WriteKeepsEffects(run, e, s.now, ok, held, s.ledger, LedgerAfter(s, l));
    } else {
      QuietKeepsRow(run, e.index, s.now, move.action, e.runId, s.ledger);
    }
    PutRow(s.runs, s.ledger, LedgerAfter(s, l), e.runId, Write(run, e.index, s.now, move.action));
  }

  lemma RowsStay(s: Sys, l: Label)
    requires Fenced(s) && Enabled(s, l) && Timely(s, l)
    ensures Rows(RunsAfter(s, l), LedgerAfter(s, l))
  {
    if l.Stmt? {
      StatementRows(s, l.worker, l.ok);
    } else if l.Claim? && Claims(s, l.worker) {
      var id := Canonical(s.workers[l.worker].msg.runId);
      PutRow(s.runs, s.ledger, s.ledger, id, ClaimRun(s.runs[id], s.now));
    } else if l.Approve? {
      ApproveRows(s, l.run);
    } else if l.Cancel? {
      PutRow(s.runs, s.ledger, s.ledger, l.run, CancelRun(s.runs[l.run]));
    } else if l.CommitCreate? && Inserts(s, l.request) {
      PutRow(s.runs, s.ledger, s.ledger, l.id, NewRun(s, l.request));
    }
  }

  lemma ApproveRows(s: Sys, r: string)
    requires Fenced(s) && Enabled(s, Approve(r))
    ensures Rows(s.runs[r := ApproveRun(s.runs[r], |s.outbox|)], s.ledger)
  {
    assert RunOk(s.runs[r]);
    ApproveKeepsRow(r, s.runs[r], |s.outbox|, s.ledger);
    PutRow(s.runs, s.ledger, s.ledger, r, ApproveRun(s.runs[r], |s.outbox|));
  }

  /** A claimable or suspended run has no live executor. */
  lemma NobodyLive(s: Sys, w: nat)
    requires Fenced(s) && w in s.workers && Live(s.now, s.workers[w])
    ensures s.workers[w].exec.runId in s.runs
    ensures var run := s.runs[s.workers[w].exec.runId];
            !Claimable(run, s.now) && run.state != AwaitingApproval && run.state != Queued && run.state != Succeeded
  {
    assert Owned(s.now, s.runs, s.ledger, s.workers[w]);
  }

  lemma StatementOwner(s: Sys, w: nat, ok: bool)
    requires Fenced(s) && Enabled(s, Stmt(w, ok)) && Timely(s, Stmt(w, ok))
    requires MoveOf(s, w, ok).next.Some?
    ensures var e := Forward(s.workers[w].exec, s.now, MoveOf(s, w, ok));
            MayWrite(e.pc) && s.now <= e.until ==>
              LiveOk(RunsAfter(s, Stmt(w, ok))[e.runId], e, LedgerAfter(s, Stmt(w, ok)))
  {
    var l, e, move := Stmt(w, ok), s.workers[w].exec, MoveOf(s, w, ok);
    OnItsRun(s, w, ok);
    LedgerGrows(s, l);
    var run, held := s.runs[e.runId], e.cols.handle.Some? && e.cols.handle.value in s.broker;
    OnlyMayWrite(e, ok, held, Entry(e) in s.ledger);
    if MayWrite(move.next.value) && s.now <= Forward(e, s.now, move).until {
      if Writes(move.action) {
        WriterIsLive(s, w, ok);
        WriteKeepsOwner(run, e, s.now, ok, held, s.ledger, LedgerAfter(s, l));
      } else {
        QuietOwner(s, w, ok);
      }
    }
  }

  lemma QuietOwner(s: Sys, w: nat, ok: bool)
    requires Fenced(s) && OnRun(s, w) && Live(s.now, s.workers[w]) && !Writes(MoveOf(s, w, ok).action)
    requires MoveOf(s, w, ok).next.Some? && MayWrite(MoveOf(s, w, ok).next.value)
    ensures var e, move := s.workers[w].exec, MoveOf(s, w, ok);
            e.runId in s.runs && LiveOk(Write(s.runs[e.runId], e.index, s.now, move.action), Forward(e, s.now, move), s.ledger)
  {
    var e, move := s.workers[w].exec, MoveOf(s, w, ok);
    assert WorkerOk(s.runs, s.outbox, s.workers[w]) && Owned(s.now, s.runs, s.ledger, s.workers[w]);
    QuietKeepsOwner(s.runs[e.runId], e, s.now, ok, e.cols.handle.Some? && e.cols.handle.value in s.broker, s.ledger);
    QuietKeepsRow(s.runs[e.runId], e.index, s.now, move.action, e.runId, s.ledger);
  }

  /** A statement of one executor leaves every other live executor its row. */
  lemma StatementOthers(s: Sys, w: nat, ok: bool, v: nat)
    requires Fenced(s) && Enabled(s, Stmt(w, ok)) && Timely(s, Stmt(w, ok))
    requires v in s.workers && v != w && Live(s.now, s.workers[v])
    ensures var e := s.workers[v].exec;
            e.runId in s.runs && LiveOk(RunsAfter(s, Stmt(w, ok))[e.runId], e, LedgerAfter(s, Stmt(w, ok)))
  {
    assert Owned(s.now, s.runs, s.ledger, s.workers[v]);
    StatementRow(s, w, ok, s.workers[v].exec.runId);
    if s.workers[v].exec.runId == s.workers[w].exec.runId {
      SharedRunIsQuiet(s, w, ok, v);
      var e := s.workers[w].exec;
      QuietKeepsRow(s.runs[e.runId], e.index, s.now, MoveOf(s, w, ok).action, e.runId, s.ledger);
    } else {
      LedgerGrows(s, Stmt(w, ok));
    }
  }

  lemma SharedRunIsQuiet(s: Sys, w: nat, ok: bool, v: nat)
    requires Fenced(s) && OnRun(s, w) && Timely(s, Stmt(w, ok))
    requires v in s.workers && v != w && Live(s.now, s.workers[v])
    requires s.workers[v].Executing? && s.workers[w].Executing? && s.workers[v].exec.runId == s.workers[w].exec.runId
    ensures !Writes(MoveOf(s, w, ok).action) && LedgerAfter(s, Stmt(w, ok)) == s.ledger
  {
    if Writes(MoveOf(s, w, ok).action) {
      WriterIsLive(s, w, ok);
    }
  }

  lemma OwnersStay(s: Sys, l: Label)
    requires Fenced(s) && Enabled(s, l) && Timely(s, l)
    ensures Owners(NowAfter(s, l), RunsAfter(s, l), LedgerAfter(s, l), WorkersAfter(s, l))
  {
    forall w | w in WorkersAfter(s, l) ensures Owned(NowAfter(s, l), RunsAfter(s, l), LedgerAfter(s, l), WorkersAfter(s, l)[w]) {
      if Live(NowAfter(s, l), WorkersAfter(s, l)[w]) {
        OwnerStays(s, l, w);
      }
    }
  }

  lemma OwnerStays(s: Sys, l: Label, w: nat)
    requires Fenced(s) && Enabled(s, l) && Timely(s, l)
    requires w in WorkersAfter(s, l) && Live(NowAfter(s, l), WorkersAfter(s, l)[w])
    ensures Owned(NowAfter(s, l), RunsAfter(s, l), LedgerAfter(s, l), WorkersAfter(s, l)[w])
  {
    if l.Stmt? && l.worker == w {
      OnItsRun(s, w, l.ok);
      StatementOwner(s, w, l.ok);
    } else if l.Claim? && l.worker == w {
      NewOwner(s, w);
    } else if l.Stmt? {
      StatementOthers(s, l.worker, l.ok, w);
    } else {
      assert s.workers[w] == WorkersAfter(s, l)[w];
      NobodyLive(s, w);
      assert Owned(s.now, s.runs, s.ledger, s.workers[w]);
      BystanderStays(s, l, s.workers[w].exec);
    }
  }

  /** A successful claim leaves the row to the claimer. */
  lemma NewOwner(s: Sys, w: nat)
    requires Fenced(s) && Enabled(s, Claim(w))
    ensures Owned(s.now, RunsAfter(s, Claim(w)), s.ledger, WorkersAfter(s, Claim(w))[w])
  {
    if Claims(s, w) {
      ClaimTarget(s, w);
      LeaseOwns(s.runs[s.workers[w].msg.runId], Lease(s, w), s.now, s.ledger);
    }
  }

  lemma LeaseOwns(run: Run, e: Exec, now: nat, ledger: EffectLedger)
    requires RowOk(run) && e.cols == run.cols && e.index == run.step && e.pc == AtStep && e.until == now + LEASE
    ensures LiveOk(ClaimRun(run, now), e, ledger)
  {
  }

  /** No label but a statement disturbs a row some live executor owns. */
  lemma BystanderStays(s: Sys, l: Label, e: Exec)
    requires Enabled(s, l) && !l.Stmt? && e.runId in s.runs && RunOk(s.runs[e.runId])
    requires LiveOk(s.runs[e.runId], e, s.ledger) && !Claimable(s.runs[e.runId], s.now)
    ensures e.runId in RunsAfter(s, l) && LiveOk(RunsAfter(s, l)[e.runId], e, LedgerAfter(s, l))
  {
  }

  lemma ExclusiveStays(s: Sys, l: Label)
    requires Fenced(s) && Enabled(s, l) && Timely(s, l)
    ensures Exclusive(NowAfter(s, l), WorkersAfter(s, l))
  {
    var now, after := NowAfter(s, l), WorkersAfter(s, l);
    forall v, w | v in after && w in after && Live(now, after[v]) && Live(now, after[w]) && after[v].exec.runId == after[w].exec.runId
      ensures v == w
    {
      if v != w {
        LiveBefore(s, l, v);
        LiveBefore(s, l, w);
        if l.Claim? && (l.worker == v || l.worker == w) {
          var other := if l.worker == v then w else v;
          ClaimedAlone(s, l.worker, other);
        }
      }
    }
  }

  /** A live executor was live before the step, on the same run, unless it just claimed. */
  lemma LiveBefore(s: Sys, l: Label, w: nat)
    requires Fenced(s) && Enabled(s, l) && Timely(s, l)
    requires w in WorkersAfter(s, l) && Live(NowAfter(s, l), WorkersAfter(s, l)[w])
    ensures (l.Claim? && l.worker == w && Claims(s, w)) ||
            (w in s.workers && Live(s.now, s.workers[w]) && s.workers[w].exec.runId == WorkersAfter(s, l)[w].exec.runId)
  {
    if l.Stmt? && l.worker == w {
      var e := s.workers[w].exec;
      OnlyMayWrite(e, l.ok, e.cols.handle.Some? && e.cols.handle.value in s.broker, Entry(e) in s.ledger);
      if Writes(MoveOf(s, w, l.ok).action) {
        WriterIsLive(s, w, l.ok);
      }
    }
  }

  lemma ClaimedAlone(s: Sys, w: nat, v: nat)
    requires Fenced(s) && Claims(s, w) && v in s.workers && Live(s.now, s.workers[v])
    ensures s.workers[v].exec.runId != s.workers[w].msg.runId
  {
    assert WorkerOk(s.runs, s.outbox, s.workers[w]);
    assert IdOk(s.workers[w].msg.runId);
    NobodyLive(s, v);
  }

  lemma FencedStep(s: Sys, l: Label)
    requires Fenced(s)
    ensures Fenced(Next(s, l, WithinLease))
  {
    StructuredStep(s, l, WithinLease);
    if Possible(s, l, WithinLease) {
      RowsStay(s, l);
      OwnersStay(s, l);
      ExclusiveStays(s, l);
    }
  }

  lemma {:induction false} FencedAlways(s: Sys, labels: seq<Label>)
    requires Fenced(s)
    ensures Fenced(Reach(s, labels, WithinLease))
  {
    if labels != [] {
      FencedAlways(s, labels[..|labels| - 1]);
      FencedStep(Reach(s, labels[..|labels| - 1], WithinLease), labels[|labels| - 1]);
    }
  }
}
