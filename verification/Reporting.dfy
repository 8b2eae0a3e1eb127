/** What stays on record, stale writers included: nothing written about a run is rewritten,
    and a state a worker writes is followed by its event unless the worker dies in between. */
module Reporting {
  import opened Contracts
  import opened Keys
  import opened Runtime
  import opened Structure

  /******* Append only *******/

  /** Events grow at the end; a result, once recorded, is the first writer's for good. */
  predicate AppendOnly(a: Run, b: Run) {
    a.events <= b.events && forall i :: i in a.results ==> i in b.results && b.results[i] == a.results[i]
  }

  lemma WriteAppends(run: Run, index: nat, now: nat, action: Action)
    ensures AppendOnly(run, Write(run, index, now, action))
  {
  }

  lemma RowAppends(s: Sys, l: Label, r: string)
    requires Enabled(s, l) && r in s.runs
    ensures r in RunsAfter(s, l) && AppendOnly(s.runs[r], RunsAfter(s, l)[r])
  {
    if l.Stmt? {
      var e := s.workers[l.worker].exec;
      WriteAppends(s.runs[Canonical(e.runId)], e.index, s.now, MoveOf(s, l.worker, l.ok).action);
    } else {
      OtherRow(s, l, r);
    }
  }

  predicate LedgerKept(a: EffectLedger, b: EffectLedger) {
    forall k :: k in a ==> k in b && b[k] == a[k]
  }

  /** Over every continuation, whoever writes: results and effects already there are never
      changed, and the event log only grows. */
  lemma {:induction false} NothingRewritten(s: Sys, labels: seq<Label>, regime: Regime, r: string)
    requires r in s.runs
    ensures var s' := Reach(s, labels, regime);
            r in s'.runs && AppendOnly(s.runs[r], s'.runs[r]) && LedgerKept(s.ledger, s'.ledger)
  {
    if labels != [] {
      var before, l := Reach(s, labels[..|labels| - 1], regime), labels[|labels| - 1];
      NothingRewritten(s, labels[..|labels| - 1], regime, r);
      if Possible(before, l, regime) {
        RowAppends(before, l, r);
      }
    }
  }

  /******* Reports *******/

  /** The event that belongs to a state a worker writes. */
  function OwedEvent(state: RunState): Option<EventType> {
    match state
    case Failed => Some(FailedEvent)
    case Uncertain => Some(UncertainEvent)
    case Succeeded => Some(SucceededEvent)
    case AwaitingApproval => Some(ApprovalRequested)
    case _ => None
  }

  /** The executor has written this state and is about to report it. */
  predicate Reports(pc: Pc, state: RunState) {
    match state
    case Failed => pc.FailEvent? && pc.outcome == Failed
    case Uncertain => pc.FailEvent? && pc.outcome == Uncertain
    case Succeeded => pc.SuccessEvent?
    case AwaitingApproval => pc.AwaitEvent?
    case _ => false
  }

  predicate ReporterOf(workers: map<nat, Worker>, w: nat, r: string, state: RunState) {
    w in workers && workers[w].Executing? && workers[w].exec.runId == r && Reports(workers[w].exec.pc, state)
  }

  ghost predicate Told(run: Run, workers: map<nat, Worker>, r: string) {
    OwedEvent(run.state).Some? ==> OwedEvent(run.state).value in run.events || exists w :: ReporterOf(workers, w, r, run.state)
  }

  predicate Sets(action: Action) {
    action.SetOutcome? || action.SetSucceeded? || action.SetAwaiting?
  }

  /** A statement that sets a state leaves its executor about to report it; any other keeps
      the state, and a report is the event of the state it was for. */
  lemma StatementTells(run: Run, e: Exec, now: nat, ok: bool, held: bool, present: bool)
    requires PcOk(e) && (held ==> e.cols.handle.Some?)
    ensures var move := Plan(e, ok, held, present); var after := Write(run, e.index, now, move.action);
            if Sets(move.action) then move.next.Some? && Reports(move.next.value, after.state)
            else after.state == run.state && (Reports(e.pc, run.state) ==> OwedEvent(run.state).Some? && OwedEvent(run.state).value in after.events)
  {
    var move := Plan(e, ok, held, present);
    var after := Write(run, e.index, now, move.action);
    if move.action.AppendEvent? {
      assert after.events[|run.events|] == move.action.event;
    }
  }

  /** Where the executor stands after its statement. */
  lemma OwnPosition(s: Sys, w: nat, ok: bool)
    requires OnRun(s, w)
    ensures var move, after := MoveOf(s, w, ok), WorkersAfter(s, Stmt(w, ok));
            && (move.next.Some? ==> w in after && after[w].Executing? && after[w].exec.runId == s.workers[w].exec.runId && after[w].exec.pc == move.next.value)
            && (forall v :: v in s.workers && v != w ==> v in after && after[v] == s.workers[v])
  {
  }

  lemma OwnRow(s: Sys, w: nat, ok: bool, r: string)
    requires Structured(s) && OnRun(s, w) && s.workers[w].exec.runId == r && r in s.runs
    ensures var move, after := MoveOf(s, w, ok), RunsAfter(s, Stmt(w, ok));
            && r in after && AppendOnly(s.runs[r], after[r])
            && (if Sets(move.action) then move.next.Some? && Reports(move.next.value, after[r].state)
                else after[r].state == s.runs[r].state &&
                     (Reports(s.workers[w].exec.pc, s.runs[r].state) ==>
                        OwedEvent(s.runs[r].state).Some? && OwedEvent(s.runs[r].state).value in after[r].events))
  {
    var e := s.workers[w].exec;
    assert WorkerOk(s.runs, s.outbox, s.workers[w]);
    StatementRow(s, w, ok, r);
    StatementTells(s.runs[r], e, s.now, ok, e.cols.handle.Some? && e.cols.handle.value in s.broker, Entry(e) in s.ledger);
    WriteAppends(s.runs[r], e.index, s.now, MoveOf(s, w, ok).action);
  }

  lemma OwnStatementTells(s: Sys, w: nat, ok: bool, r: string)
    requires Structured(s) && OnRun(s, w) && s.workers[w].exec.runId == r && r in s.runs && Told(s.runs[r], s.workers, r)
    ensures r in RunsAfter(s, Stmt(w, ok)) && Told(RunsAfter(s, Stmt(w, ok))[r], WorkersAfter(s, Stmt(w, ok)), r)
  {
    OwnRow(s, w, ok, r);
    OwnPosition(s, w, ok);
    var row, after := RunsAfter(s, Stmt(w, ok))[r], WorkersAfter(s, Stmt(w, ok));
    if Sets(MoveOf(s, w, ok).action) {
      assert ReporterOf(after, w, r, row.state);
    } else if OwedEvent(row.state).Some? && OwedEvent(row.state).value !in row.events {
      var v :| ReporterOf(s.workers, v, r, row.state);
      assert ReporterOf(after, v, r, row.state);
    }
  }

  /** The worker dies between its state write and the event. */
  predicate LosesReport(s: Sys, l: Label, r: string) {
    && l.Crash? && l.worker in s.workers && s.workers[l.worker].Executing? && s.workers[l.worker].exec.runId == r
    && (s.workers[l.worker].exec.pc.FailEvent? || s.workers[l.worker].exec.pc.AwaitEvent? || s.workers[l.worker].exec.pc.SuccessEvent?)
  }

  lemma ReporterStays(s: Sys, l: Label, w: nat, r: string, state: RunState)
    requires Enabled(s, l) && ReporterOf(s.workers, w, r, state) && !LosesReport(s, l, r) && !(l.Stmt? && l.worker == w)
    ensures ReporterOf(WorkersAfter(s, l), w, r, state)
  {
  }

  lemma OthersTell(s: Sys, l: Label, r: string)
    requires Structured(s) && Enabled(s, l) && r in s.runs && Told(s.runs[r], s.workers, r) && !LosesReport(s, l, r)
    requires l.Stmt? ==> s.workers[l.worker].exec.runId != r
    ensures r in RunsAfter(s, l) && Told(RunsAfter(s, l)[r], WorkersAfter(s, l), r)
  {
    OthersSet(s, l, r);
    var row := RunsAfter(s, l)[r];
    if OwedEvent(row.state).Some? && OwedEvent(row.state).value !in row.events {
      var v :| ReporterOf(s.workers, v, r, row.state);
      ReporterStays(s, l, v, r, row.state);
    }
  }

  /** Everybody else leaves the row, or moves it to a state no worker has to report. */
  lemma OthersSet(s: Sys, l: Label, r: string)
    requires Structured(s) && Enabled(s, l) && r in s.runs && (l.Stmt? ==> s.workers[l.worker].exec.runId != r)
    ensures r in RunsAfter(s, l)
    ensures RunsAfter(s, l)[r] == s.runs[r] || OwedEvent(RunsAfter(s, l)[r].state) == None
  {
    if l.Stmt? {
      StatementRow(s, l.worker, l.ok, r);
    } else {
      OtherRow(s, l, r);
    }
  }

  /** No worker on the run dies between a state write and its event. */
  predicate NoReportLost(s: Sys, labels: seq<Label>, regime: Regime, r: string) {
    labels == [] ||
    var n := |labels| - 1;
    NoReportLost(s, labels[..n], regime, r) && !LosesReport(Reach(s, labels[..n], regime), labels[n], r)
  }

  /** In every history, stale writers included, a run that is failed, uncertain, succeeded or
      awaiting approval has the event of that state or an executor about to write it, unless
      an executor died exactly there; so once its executors have returned it has the event. */
  lemma {:induction false} StatesAreReported(s: Sys, labels: seq<Label>, regime: Regime, r: string)
    requires Init(s) && r in Reach(s, labels, regime).runs && NoReportLost(s, labels, regime, r)
    ensures var s' := Reach(s, labels, regime);
            && Told(s'.runs[r], s'.workers, r)
            && ((forall w :: w in s'.workers && s'.workers[w].Executing? ==> s'.workers[w].exec.runId != r) ==>
                  OwedEvent(s'.runs[r].state).Some? ==> OwedEvent(s'.runs[r].state).value in s'.runs[r].events)
  {
    if labels != [] {
      var before, l := Reach(s, labels[..|labels| - 1], regime), labels[|labels| - 1];
      StructuredAlways(s, labels[..|labels| - 1], regime);
      if r in before.runs {
        StatesAreReported(s, labels[..|labels| - 1], regime, r);
      }
      if Possible(before, l, regime) {
        ToldStep(before, l, r);
      }
    }
  }

  lemma ToldStep(s: Sys, l: Label, r: string)
    requires Structured(s) && Enabled(s, l) && !LosesReport(s, l, r) && r in RunsAfter(s, l)
    requires r in s.runs ==> Told(s.runs[r], s.workers, r)
    ensures Told(RunsAfter(s, l)[r], WorkersAfter(s, l), r)
  {
    if r !in s.runs {
      assert l.CommitCreate? && l.id == r;
    } else if l.Stmt? && s.workers[l.worker].exec.runId == r {
      OwnStatementTells(s, l.worker, l.ok, r);
    } else {
      OthersTell(s, l, r);
    }
  }
}
