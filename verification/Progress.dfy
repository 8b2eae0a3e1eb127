/** How far a run can still go: a measure that every change of a run's state or stored step
    lowers, and the work an executor has left. */
module Progress {
  import opened Contracts
  import opened Runtime
  import opened Structure
  import opened Leases

  /******* The measure *******/

  /** An executor that has already failed or recorded the step it is at. */
  predicate Spent(pc: Pc) {
    pc.FailEvent? || pc.Advancing?
  }

  predicate LiveOn(now: nat, workers: map<nat, Worker>, w: nat, r: string) {
    w in workers && Live(now, workers[w]) && workers[w].exec.runId == r
  }

  ghost predicate Attended(now: nat, workers: map<nat, Worker>, r: string) {
    exists w :: LiveOn(now, workers, w, r)
  }

  ghost predicate Pending(now: nat, workers: map<nat, Worker>, r: string) {
    exists w :: LiveOn(now, workers, w, r) && !Spent(workers[w].exec.pc)
  }

  /** A terminal row still counts for something while a live executor can write it. */
  function Rank(state: RunState, attended: bool, pending: bool): nat {
    match state
    case Queued => 6
    case Leased => 5
    case Running => 5
    case AwaitingApproval => 2
    case Succeeded => 1
    case _ => if pending then 4 else if attended then 3 else 0
  }

  function Measure(run: Run, attended: bool, pending: bool): int {
    7 * (|run.cols.def.steps| - run.step) + Rank(run.state, attended, pending)
  }

  /** Steps remaining, then state and executor, as one number. */
  ghost function Remaining(s: Sys, r: string): int
    requires r in s.runs
  {
    Measure(s.runs[r], Attended(s.now, s.workers, r), Pending(s.now, s.workers, r))
  }

  predicate Changed(a: Run, b: Run) {
    (a.state, a.step) != (b.state, b.step)
  }

  function Toll(a: Run, b: Run): nat {
    if Changed(a, b) then 1 else 0
  }

  /******* Values *******/

  /** Fewer live executors never raise the measure. */
  lemma RankShrinks(run: Run, attended: bool, pending: bool, attended': bool, pending': bool)
    requires (attended' ==> attended) && (pending' ==> pending)
    ensures Measure(run, attended', pending') <= Measure(run, attended, pending)
  {
  }

  /** A write of the run's live executor, which afterwards is at `next` or gone. */
  lemma WritePays(run: Run, e: Exec, now: nat, ok: bool, held: bool, ledger: EffectLedger, attended: bool, pending: bool)
    requires RowOk(run) && LiveOk(run, e, ledger) && PcOk(e) && e.cols == run.cols && (held ==> e.cols.handle.Some?)
    requires var next := Plan(e, ok, held, Entry(e) in ledger).next;
             && (attended ==> next.Some? && MayWrite(next.value))
             && (pending ==> next.Some? && MayWrite(next.value) && !Spent(next.value))
    ensures var action := Plan(e, ok, held, Entry(e) in ledger).action; var after := Write(run, e.index, now, action);
            Writes(action) ==> Toll(run, after) + Measure(after, attended, pending) <= Measure(run, true, !Spent(e.pc))
  {
    PlanFits(e, ok, held, Entry(e) in ledger);
  }

  lemma QuietKeepsPlace(run: Run, index: nat, now: nat, action: Action)
    requires !Writes(action)
    ensures var after := Write(run, index, now, action); !Changed(run, after) && after.cols == run.cols
  {
  }

  lemma QuietKeepsSpent(e: Exec, ok: bool, held: bool, present: bool)
    requires MayWrite(e.pc)
    ensures var move := Plan(e, ok, held, present);
            !Writes(move.action) && move.next.Some? && MayWrite(move.next.value) && Spent(e.pc) ==> Spent(move.next.value)
  {
  }

  /******* Executors *******/

  /** With one live executor, its position is the run's. */
  lemma SoleExecutor(s: Sys, w: nat, r: string)
    requires Exclusive(s.now, s.workers) && LiveOn(s.now, s.workers, w, r)
    ensures Attended(s.now, s.workers, r) && (Pending(s.now, s.workers, r) <==> !Spent(s.workers[w].exec.pc))
  {
    if Pending(s.now, s.workers, r) {
      var v :| LiveOn(s.now, s.workers, v, r) && !Spent(s.workers[v].exec.pc);
      assert v == w;
    }
  }

  /** The labels that move the run's own executor into or through a write. */
  predicate Works(s: Sys, l: Label, r: string) {
    || (l.Claim? && Claims(s, l.worker) && s.workers[l.worker].msg.runId == r)
    || (l.Stmt? && OnRun(s, l.worker) && s.workers[l.worker].exec.runId == r && Writes(MoveOf(s, l.worker, l.ok).action))
  }

  lemma StillLive(s: Sys, l: Label, r: string, w: nat)
    requires Fenced(s) && Enabled(s, l) && Timely(s, l) && !(l.Claim? && Works(s, l, r))
    requires LiveOn(NowAfter(s, l), WorkersAfter(s, l), w, r)
    ensures LiveOn(s.now, s.workers, w, r)
  {
    LiveBefore(s, l, w);
    if l.Claim? && l.worker == w && Claims(s, w) {
      ClaimTarget(s, w);
    }
  }

  lemma StillPending(s: Sys, l: Label, r: string, w: nat)
    requires Fenced(s) && Enabled(s, l) && Timely(s, l) && !Works(s, l, r)
    requires LiveOn(NowAfter(s, l), WorkersAfter(s, l), w, r) && !Spent(WorkersAfter(s, l)[w].exec.pc)
    ensures LiveOn(s.now, s.workers, w, r) && !Spent(s.workers[w].exec.pc)
  {
    StillLive(s, l, r, w);
    if l.Stmt? && l.worker == w {
      QuietStatement(s, w, l.ok);
    } else if !(l.Claim? && l.worker == w) {
      Bystander(s, l, w);
    }
  }

  lemma Bystander(s: Sys, l: Label, w: nat)
    requires Enabled(s, l) && w in WorkersAfter(s, l) && WorkersAfter(s, l)[w].Executing? && !((l.Stmt? || l.Claim?) && l.worker == w)
    ensures w in s.workers && s.workers[w] == WorkersAfter(s, l)[w]
  {
  }

  lemma QuietStatement(s: Sys, w: nat, ok: bool)
    requires OnRun(s, w) && MayWrite(s.workers[w].exec.pc) && !Writes(MoveOf(s, w, ok).action)
    ensures var after := WorkersAfter(s, Stmt(w, ok))[w];
            after.Executing? && MayWrite(after.exec.pc) && Spent(s.workers[w].exec.pc) ==> Spent(after.exec.pc)
  {
    var e := s.workers[w].exec;
    QuietKeepsSpent(e, ok, e.cols.handle.Some? && e.cols.handle.value in s.broker, Entry(e) in s.ledger);
  }

  /** Whatever does not work on the run leaves it no busier. */
  lemma NoBusier(s: Sys, l: Label, r: string)
    requires Fenced(s) && Enabled(s, l) && Timely(s, l) && !Works(s, l, r)
    ensures Attended(NowAfter(s, l), WorkersAfter(s, l), r) ==> Attended(s.now, s.workers, r)
    ensures Pending(NowAfter(s, l), WorkersAfter(s, l), r) ==> Pending(s.now, s.workers, r)
  {
    if Attended(NowAfter(s, l), WorkersAfter(s, l), r) {
      var w :| LiveOn(NowAfter(s, l), WorkersAfter(s, l), w, r);
      StillLive(s, l, r, w);
    }
    if Pending(NowAfter(s, l), WorkersAfter(s, l), r) {
      var w :| LiveOn(NowAfter(s, l), WorkersAfter(s, l), w, r) && !Spent(WorkersAfter(s, l)[w].exec.pc);
      StillPending(s, l, r, w);
    }
  }

  /** After a statement of the run's live executor, nobody else is live on the run. */
  lemma AfterStatement(s: Sys, w: nat, ok: bool, r: string)
    requires Fenced(s) && OnRun(s, w) && Timely(s, Stmt(w, ok)) && LiveOn(s.now, s.workers, w, r)
    ensures var next := MoveOf(s, w, ok).next; var after := WorkersAfter(s, Stmt(w, ok));
            && (Attended(s.now, after, r) ==> next.Some? && MayWrite(next.value))
            && (Pending(s.now, after, r) ==> next.Some? && MayWrite(next.value) && !Spent(next.value))
  {
    var l, after := Stmt(w, ok), WorkersAfter(s, Stmt(w, ok));
    forall v | LiveOn(s.now, after, v, r) ensures v == w {
      StillLive(s, l, r, v);
    }
  }

  /******* One label *******/

  lemma WorkPays(s: Sys, w: nat, ok: bool, r: string)
    requires Fenced(s) && Enabled(s, Stmt(w, ok)) && Timely(s, Stmt(w, ok)) && Works(s, Stmt(w, ok), r) && r in s.runs
    ensures var after := RunsAfter(s, Stmt(w, ok)); var workers := WorkersAfter(s, Stmt(w, ok));
            r in after && Toll(s.runs[r], after[r]) + Measure(after[r], Attended(s.now, workers, r), Pending(s.now, workers, r)) <= Remaining(s, r)
  {
    WriterIsLive(s, w, ok);
    SoleExecutor(s, w, r);
    AfterStatement(s, w, ok, r);
    StatementRow(s, w, ok, r);
    var workers := WorkersAfter(s, Stmt(w, ok));
    OwnWritePays(s, w, ok, r, Attended(s.now, workers, r), Pending(s.now, workers, r));
  }

  lemma OwnWritePays(s: Sys, w: nat, ok: bool, r: string, attended: bool, pending: bool)
    requires Fenced(s) && OnRun(s, w) && s.workers[w].exec.runId == r && r in s.runs && LiveOk(s.runs[r], s.workers[w].exec, s.ledger)
    requires Writes(MoveOf(s, w, ok).action)
    requires var next := MoveOf(s, w, ok).next;
             && (attended ==> next.Some? && MayWrite(next.value))
             && (pending ==> next.Some? && MayWrite(next.value) && !Spent(next.value))
    ensures var e := s.workers[w].exec; var after := Write(s.runs[r], e.index, s.now, MoveOf(s, w, ok).action);
            Toll(s.runs[r], after) + Measure(after, attended, pending) <= Measure(s.runs[r], true, !Spent(e.pc))
  {
    var e := s.workers[w].exec;
    assert WorkerOk(s.runs, s.outbox, s.workers[w]) && RowOk(s.runs[r]);
    WritePays(s.runs[r], e, s.now, ok, e.cols.handle.Some? && e.cols.handle.value in s.broker, s.ledger, attended, pending);
  }

  lemma QuietPays(s: Sys, w: nat, ok: bool, r: string)
    requires Fenced(s) && Enabled(s, Stmt(w, ok)) && Timely(s, Stmt(w, ok)) && !Works(s, Stmt(w, ok), r) && r in s.runs
    ensures var after := RunsAfter(s, Stmt(w, ok)); var workers := WorkersAfter(s, Stmt(w, ok));
            r in after && Toll(s.runs[r], after[r]) + Measure(after[r], Attended(s.now, workers, r), Pending(s.now, workers, r)) <= Remaining(s, r)
  {
    var workers := WorkersAfter(s, Stmt(w, ok));
    StatementRow(s, w, ok, r);
    if s.workers[w].exec.runId == r {
      QuietKeepsPlace(s.runs[r], s.workers[w].exec.index, s.now, MoveOf(s, w, ok).action);
    }
    NoBusier(s, Stmt(w, ok), r);
    RankShrinks(s.runs[r], Attended(s.now, s.workers, r), Pending(s.now, s.workers, r), Attended(s.now, workers, r), Pending(s.now, workers, r));
  }

  /** Claims, approvals and cancellations of the run itself; a queued or suspended run has
      no live executor. */
  lemma OthersPay(s: Sys, l: Label, r: string)
    requires Fenced(s) && Enabled(s, l) && Timely(s, l) && !l.Stmt? && r in s.runs
    ensures var after := RunsAfter(s, l); var now, workers := NowAfter(s, l), WorkersAfter(s, l);
            r in after && Toll(s.runs[r], after[r]) + Measure(after[r], Attended(now, workers, r), Pending(now, workers, r)) <= Remaining(s, r)
  {
    var now, workers := NowAfter(s, l), WorkersAfter(s, l);
    assert RowOk(s.runs[r]) && RunOk(s.runs[r]);
    if Works(s, l, r) {
      ClaimTarget(s, l.worker);
      OtherRow(s, l, r);
    } else {
      NoBusier(s, l, r);
      RowPays(s, l, r);
      RankShrinks(RunsAfter(s, l)[r], Attended(s.now, s.workers, r), Pending(s.now, s.workers, r), Attended(now, workers, r), Pending(now, workers, r));
    }
  }

  /** The row alone, its executors as they were. */
  lemma RowPays(s: Sys, l: Label, r: string)
    requires Fenced(s) && Enabled(s, l) && !l.Stmt? && !Works(s, l, r) && r in s.runs
    ensures r in RunsAfter(s, l)
    ensures Toll(s.runs[r], RunsAfter(s, l)[r]) + Measure(RunsAfter(s, l)[r], Attended(s.now, s.workers, r), Pending(s.now, s.workers, r)) <=
            Remaining(s, r)
  {
    if l == Approve(r) || l == Cancel(r) {
      DecisionRow(s, r);
    } else {
      RowRests(s, l, r);
    }
  }

  lemma RowRests(s: Sys, l: Label, r: string)
    requires Structured(s) && Enabled(s, l) && !l.Stmt? && l != Approve(r) && l != Cancel(r) && r in s.runs
    requires l.Claim? && Claims(s, l.worker) ==> s.workers[l.worker].msg.runId != r
    ensures r in RunsAfter(s, l) && RunsAfter(s, l)[r] == s.runs[r]
  {
    OtherRow(s, l, r);
    if l.Claim? {
      ClaimTarget(s, l.worker);
    }
  }

  lemma DecisionRow(s: Sys, r: string)
    requires Fenced(s) && r in s.runs
    ensures var run, attended, pending := s.runs[r], Attended(s.now, s.workers, r), Pending(s.now, s.workers, r);
            var approved, cancelled := ApproveRun(run, |s.outbox|), CancelRun(run);
            && (Queued in AllowedTransitions(run.state) ==> Toll(run, approved) + Measure(approved, attended, pending) <= Remaining(s, r))
            && (Cancelled in AllowedTransitions(run.state) ==> Toll(run, cancelled) + Measure(cancelled, attended, pending) <= Remaining(s, r))
  {
    assert RunOk(s.runs[r]);
    if s.runs[r].state in {Queued, AwaitingApproval} {
      Unattended(s, r);
    }
    DecisionPays(s.runs[r], |s.outbox|, Attended(s.now, s.workers, r), Pending(s.now, s.workers, r));
  }

  lemma DecisionPays(run: Run, outboxId: nat, attended: bool, pending: bool)
    requires run.state in {Queued, AwaitingApproval} ==> !attended && !pending
    ensures run.state == AwaitingApproval ==>
              Toll(run, ApproveRun(run, outboxId)) + Measure(ApproveRun(run, outboxId), attended, pending) <= Measure(run, attended, pending)
    ensures Active(run.state) ==> Toll(run, CancelRun(run)) + Measure(CancelRun(run), attended, pending) <= Measure(run, attended, pending)
  {
  }

  lemma Unattended(s: Sys, r: string)
    requires Fenced(s) && r in s.runs && s.runs[r].state in {Queued, AwaitingApproval}
    ensures !Attended(s.now, s.workers, r) && !Pending(s.now, s.workers, r)
  {
    forall w | LiveOn(s.now, s.workers, w, r) ensures false {
      NobodyLive(s, w);
    }
  }

  /** Every step, be it a claim, a crash, a cancel, a failure or the fail-through after it,
      keeps the measure from rising, and lowers it if the run's state or stored step change. */
  lemma ProgressDecreases(s: Sys, l: Label, r: string)
    requires Fenced(s) && r in s.runs
    ensures var s' := Next(s, l, WithinLease);
            r in s'.runs && Toll(s.runs[r], s'.runs[r]) + Remaining(s', r) <= Remaining(s, r)
  {
    if Possible(s, l, WithinLease) {
      if !l.Stmt? {
        OthersPay(s, l, r);
      } else if Works(s, l, r) {
        WorkPays(s, l.worker, l.ok, r);
      } else {
        QuietPays(s, l.worker, l.ok, r);
      }
    }
  }

  /******* Whole histories *******/

  /** How often the history changed the run's state or stored step. */
  function Changes(s: Sys, labels: seq<Label>, r: string): nat {
    if labels == [] then 0
    else
      var n := |labels| - 1;
      var before := Reach(s, labels[..n], WithinLease);
      var after := Next(before, labels[n], WithinLease);
      Changes(s, labels[..n], r) + if r in before.runs && r in after.runs then Toll(before.runs[r], after.runs[r]) else 0
  }

  lemma {:induction false} ChangesPaid(s: Sys, labels: seq<Label>, r: string)
    requires Fenced(s) && r in s.runs
    ensures var s' := Reach(s, labels, WithinLease);
            r in s'.runs && Changes(s, labels, r) + Remaining(s', r) <= Remaining(s, r)
  {
    if labels != [] {
      var n := |labels| - 1;
      ChangesPaid(s, labels[..n], r);
      FencedAlways(s, labels[..n]);
      ProgressDecreases(Reach(s, labels[..n], WithinLease), labels[n], r);
    }
  }

  lemma MeasureBounded(s: Sys, r: string)
    requires Fenced(s) && r in s.runs
    ensures 0 <= Remaining(s, r) <= 7 * |s.runs[r].cols.def.steps| + 6
  {
    assert RowOk(s.runs[r]);
  }

  /** Over every continuation within leases, whatever crashes, failures, approvals and
      cancellations it holds, a run of n steps changes state or step at most 7n + 6 times. */
  lemma ProgressBounded(s: Sys, labels: seq<Label>, r: string)
    requires Fenced(s) && r in s.runs
    ensures r in Reach(s, labels, WithinLease).runs
    ensures Changes(s, labels, r) + Remaining(Reach(s, labels, WithinLease), r) <= Remaining(s, r)
    ensures Changes(s, labels, r) <= 7 * |s.runs[r].cols.def.steps| + 6
  {
    ChangesPaid(s, labels, r);
    FencedAlways(s, labels);
    MeasureBounded(s, r);
    MeasureBounded(Reach(s, labels, WithinLease), r);
  }

  /******* One executor *******/

  function PcRank(pc: Pc): nat {
    match pc
    case AtStep => 7
    case CallingProvider => 6
    case Failing(_) => 5
    case Recording(_) => 4
    case FailEvent(_, _) => 3
    case Suspending => 3
    case Advancing => 2
    case AwaitEvent => 1
    case SuccessEvent => 1
  }

  function WorkLeft(e: Exec): nat {
    (if e.index <= |e.cols.def.steps| then 8 * (|e.cols.def.steps| - e.index) else 0) + PcRank(e.pc)
  }

  /** Stale or not, an executor that does not crash returns: each action either ends
      `execute` or lowers the work left. */
  lemma ExecutorTerminates(e: Exec, now: nat, ok: bool, held: bool, present: bool)
    requires PcOk(e)
    ensures var move := Plan(e, ok, held, present);
            move.next.Some? ==> WorkLeft(Forward(e, now, move)) < WorkLeft(e)
  {
  }
}
