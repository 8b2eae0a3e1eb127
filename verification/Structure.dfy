/** What every step keeps, stale writers included: rows, messages and executors refer to
    each other consistently, and the effect ledger is keyed by run and step. */
module Structure {
  import opened Contracts
  import opened Keys
  import opened Runtime

  /** What a result row of a step may say, kind and evidence. */
  predicate ResultFits(step: Step, result: Result) {
    match step
    case Model(MockProvider) => result == Result(ModelResult, MockModelLabel)
    case Model(OpenAiCompatible) => result == Result(ModelResult, OpenAiModelLabel)
    case Transform(op) => op != OtherOperation && result == Result(TransformResult, TransformLabel(op))
    case Tool(DataRead, _) => result == Result(ToolResult, DataReadLabel)
    case Tool(TicketWrite, _) => result == Result(ToolResult, TicketCommitted) || result == Result(ToolResult, TicketReplayed)
    case Tool(HttpFetch, _) => result == Result(ToolResult, FetchLabel)
    case Approval => result == Result(ApprovalResult, ApprovalRequired)
    case _ => false
  }

  predicate ResultAt(def: Definition, i: nat, result: Result) {
    i < |def.steps| && KindOf(def.steps[i]) == Some(result.kind) && ResultFits(def.steps[i], result)
  }

  predicate ResultsOk(run: Run) {
    forall i :: i in run.results ==> ResultAt(run.cols.def, i, run.results[i])
  }

  /** A terminal state or its event has a cause in the definition or a cancellation. */
  predicate OutcomesOk(run: Run) {
    && (run.state == Failed || FailedEvent in run.events ==> CanFail(run.cols.def))
    && (run.state == Uncertain || UncertainEvent in run.events ==> CanBeUncertain(run.cols.def))
    && (run.state == Cancelled ==> CancelledEvent in run.events)
  }

  /** Control-plane events and claims are written with the row, so they count exactly. */
  predicate EventsOk(run: Run) {
    && multiset(run.events)[Created] == 1
    && multiset(run.events)[Approved] == |run.hist.approvals|
    && multiset(run.events)[LeasedEvent] == run.attempts
    && multiset(run.events)[Started] == run.attempts
  }

  /** The worker never leaves a run `leased`, and a running row always has an expiry, so
      an abandoned one becomes claimable again. */
  predicate LeaseOk(run: Run) {
    run.state != Leased && (run.state == Running ==> run.lease.Some?)
  }

  predicate IdOk(id: string) {
    IsUuid(id) && Canonical(id) == id
  }

  predicate RunOk(run: Run) {
    LeaseOk(run) && ResultsOk(run) && EventsOk(run) && OutcomesOk(run)
  }

  /** Why an executor gave up at a step, and whether its loop goes on. */
  predicate Causes(def: Definition, index: nat, outcome: RunState, resume: bool) {
    if outcome == Uncertain then resume && index < |def.steps| && def.steps[index] == Model(OpenAiCompatible)
    else if resume then outcome == Failed && Fallible(def, index) && def.steps[index] != Model(OpenAiCompatible)
    else outcome == Failed && (def.schemaVersion !in {"", "1"} || (index < |def.steps| && def.steps[index] == Malformed))
  }

  /** The action an executor is about to take fits the step it is at. */
  predicate PcOk(e: Exec) {
    var steps := e.cols.def.steps;
    match e.pc
    case AtStep => true
    case CallingProvider => e.index < |steps| && steps[e.index] == Model(OpenAiCompatible) && e.cols.handle.Some?
    case Failing(outcome) => outcome == Uncertain && e.index < |steps| && steps[e.index] == Model(OpenAiCompatible)
    case Recording(result) =>
      && ResultAt(e.cols.def, e.index, result)
      && (TicketStep(e.cols.def, e.index) || steps[e.index] == Model(OpenAiCompatible))
    case Advancing => e.index < |steps| && !steps[e.index].Approval?
    case Suspending => e.index < |steps| && steps[e.index].Approval?
    case FailEvent(outcome, resume) =>
      Causes(e.cols.def, e.index, outcome, resume)
    case AwaitEvent => true
    case SuccessEvent => true
  }

  /** The executor works on an existing run and its copy of the columns is right. */
  predicate ExecOk(runs: map<string, Run>, e: Exec) {
    e.runId in runs && e.cols == runs[e.runId].cols && PcOk(e)
  }

  predicate MsgOk(outbox: seq<OutboxRow>, m: Message) {
    m.outboxId < |outbox| && m.tenant == outbox[m.outboxId].tenant && m.runId == outbox[m.outboxId].run
  }

  predicate WorkerOk(runs: map<string, Run>, outbox: seq<OutboxRow>, worker: Worker) {
    && MsgOk(outbox, worker.msg)
    && (worker.Executing? ==> worker.exec.runId == worker.msg.runId && ExecOk(runs, worker.exec))
  }

  predicate IdsOk(runs: map<string, Run>) {
    forall r :: r in runs ==> IdOk(r)
  }

  predicate RunsOk(runs: map<string, Run>) {
    forall r :: r in runs ==> RunOk(runs[r])
  }

  predicate OutboxOk(runs: map<string, Run>, outbox: seq<OutboxRow>) {
    forall o :: 0 <= o < |outbox| ==> outbox[o].run in runs && outbox[o].tenant == runs[outbox[o].run].cols.tenant
  }

  predicate MessagesOk(outbox: seq<OutboxRow>, messages: set<Message>) {
    forall m :: m in messages ==> MsgOk(outbox, m)
  }

  predicate BatchOk(outbox: seq<OutboxRow>, batch: seq<Message>) {
    forall i :: 0 <= i < |batch| ==> MsgOk(outbox, batch[i])
  }

  predicate PublishersOk(outbox: seq<OutboxRow>, publishers: map<nat, Publisher>) {
    forall p :: p in publishers ==> BatchOk(outbox, publishers[p].batch)
  }

  predicate WorkersOk(runs: map<string, Run>, outbox: seq<OutboxRow>, workers: map<nat, Worker>) {
    forall w :: w in workers ==> WorkerOk(runs, outbox, workers[w])
  }

  predicate EntryOk(runs: map<string, Run>, entry: (string, string), effect: Effect) {
    && effect.run in runs
    && entry == (runs[effect.run].cols.tenant, EffectKey(effect.run, effect.step))
    && TicketStep(runs[effect.run].cols.def, effect.step)
  }

  predicate LedgerOk(runs: map<string, Run>, ledger: EffectLedger) {
    forall entry :: entry in ledger ==> EntryOk(runs, entry, ledger[entry])
  }

  predicate Structured(s: Sys) {
    && IdsOk(s.runs) && RunsOk(s.runs) && OutboxOk(s.runs, s.outbox)
    && s.stream <= s.log && MessagesOk(s.outbox, s.log)
    && PublishersOk(s.outbox, s.publishers) && WorkersOk(s.runs, s.outbox, s.workers) && LedgerOk(s.runs, s.ledger)
  }

  /******* What no step changes *******/

  predicate RunsExtend(a: map<string, Run>, b: map<string, Run>) {
    forall r :: r in a ==> r in b && a[r].cols == b[r].cols
  }

  predicate OutboxExtends(a: seq<OutboxRow>, b: seq<OutboxRow>) {
    |a| <= |b| && forall o :: 0 <= o < |a| ==> a[o].tenant == b[o].tenant && a[o].run == b[o].run
  }

  lemma WriteKeepsColumns(run: Run, index: nat, now: nat, action: Action)
    ensures Write(run, index, now, action).cols == run.cols
  {
  }

  /** Rows are never deleted and their identifying columns never change. */
  lemma Immutable(s: Sys, l: Label)
    requires Enabled(s, l)
    ensures RunsExtend(s.runs, RunsAfter(s, l))
    ensures OutboxExtends(s.outbox, OutboxAfter(s, l))
  {
    if l.Stmt? {
      var e := s.workers[l.worker].exec;
      WriteKeepsColumns(s.runs[Canonical(e.runId)], e.index, s.now, MoveOf(s, l.worker, l.ok).action);
    }
  }

  /******* Preservation, part by part *******/

  /** What a result row may say, and which outcomes can be written. */
  predicate ActionOk(def: Definition, index: nat, action: Action) {
    match action
    case RecordResult(result) => ResultAt(def, index, result)
    case CommitEffect => TicketStep(def, index)
    case SetOutcome(outcome) => (outcome == Failed && CanFail(def)) || (outcome == Uncertain && CanBeUncertain(def))
    case Advance => index < |def.steps| && !ApprovalStep(def, index)
    case SetAwaiting => ApprovalStep(def, index)
    case AppendEvent(event) =>
      || event in {ApprovalRequested, SucceededEvent}
      || (event == FailedEvent && CanFail(def)) || (event == UncertainEvent && CanBeUncertain(def))
    case SetSucceeded => |def.steps| <= index
    case ConsumeCredential => index < |def.steps| && def.steps[index] == Model(OpenAiCompatible)
    case CallProvider => index < |def.steps| && def.steps[index] == Model(OpenAiCompatible)
  }

  lemma PlanFits(e: Exec, ok: bool, held: bool, present: bool)
    requires PcOk(e) && (held ==> e.cols.handle.Some?)
    ensures var move := Plan(e, ok, held, present);
            && ActionOk(e.cols.def, e.index, move.action)
            && (move.next.Some? ==> forall now: nat :: PcOk(Forward(e, now, move)))
  {
  }

  lemma WriteKeepsRun(run: Run, index: nat, now: nat, action: Action)
    requires RunOk(run) && ActionOk(run.cols.def, index, action)
    ensures RunOk(Write(run, index, now, action))
  {
  }

  /** An executor's run is spelled canonically and its next action fits. */
  lemma OnItsRun(s: Sys, w: nat, ok: bool)
    requires IdsOk(s.runs) && WorkersOk(s.runs, s.outbox, s.workers)
    requires w in s.workers && s.workers[w].Executing?
    ensures var e := s.workers[w].exec;
            && e.runId in s.runs && Canonical(e.runId) == e.runId && OnRun(s, w)
            && e.runId == s.workers[w].msg.runId && e.cols == s.runs[e.runId].cols && PcOk(e)
            && ActionOk(e.cols.def, e.index, MoveOf(s, w, ok).action)
            && (MoveOf(s, w, ok).next.Some? ==> PcOk(Forward(e, s.now, MoveOf(s, w, ok))))
  {
    var e := s.workers[w].exec;
    assert WorkerOk(s.runs, s.outbox, s.workers[w]);
    assert IdOk(e.runId);
    PlanFits(e, ok, e.cols.handle.Some? && e.cols.handle.value in s.broker, Entry(e) in s.ledger);
  }

  /** What a statement leaves of each row. */
  lemma StatementRow(s: Sys, w: nat, ok: bool, r: string)
    requires IdsOk(s.runs) && WorkersOk(s.runs, s.outbox, s.workers) && Enabled(s, Stmt(w, ok)) && r in s.runs
    ensures var e := s.workers[w].exec;
            r in RunsAfter(s, Stmt(w, ok)) &&
            RunsAfter(s, Stmt(w, ok))[r] == if e.runId == r then Write(s.runs[r], e.index, s.now, MoveOf(s, w, ok).action) else s.runs[r]
  {
    assert WorkerOk(s.runs, s.outbox, s.workers[w]);
    assert IdOk(s.workers[w].exec.runId);
  }

  /** What any other label leaves of an existing row. */
  lemma OtherRow(s: Sys, l: Label, r: string)
    requires Enabled(s, l) && !l.Stmt? && r in s.runs
    ensures r in RunsAfter(s, l)
    ensures RunsAfter(s, l)[r] ==
            if l == Approve(r) then ApproveRun(s.runs[r], |s.outbox|)
            else if l == Cancel(r) then CancelRun(s.runs[r])
            else if l.Claim? && Claims(s, l.worker) && Canonical(s.workers[l.worker].msg.runId) == r then ClaimRun(s.runs[r], s.now)
            else s.runs[r]
  {
  }

  lemma ClaimKeepsRun(run: Run, now: nat)
    requires RunOk(run)
    ensures RunOk(ClaimRun(run, now))
  {
    assert run.events + [LeasedEvent, Started] == run.events + [LeasedEvent] + [Started];
  }

  lemma TransitionsKeepRun(run: Run, outboxId: nat)
    requires RunOk(run)
    ensures RunOk(ApproveRun(run, outboxId)) && RunOk(CancelRun(run))
  {
  }

  lemma IdsStay(s: Sys, l: Label)
    requires Structured(s) && Enabled(s, l)
    ensures IdsOk(RunsAfter(s, l))
  {
    if l.Stmt? {
      OnItsRun(s, l.worker, l.ok);
    }
  }

  lemma PutRun(runs: map<string, Run>, id: string, run: Run)
    requires RunsOk(runs) && RunOk(run)
    ensures RunsOk(runs[id := run])
  {
  }

  lemma RunsStay(s: Sys, l: Label)
    requires Structured(s) && Enabled(s, l)
    ensures RunsOk(RunsAfter(s, l))
  {
    if l.Stmt? {
      WritesStay(s, l.worker, l.ok);
    } else if l.Claim? && Claims(s, l.worker) {
      var id := Canonical(s.workers[l.worker].msg.runId);
      ClaimKeepsRun(s.runs[id], s.now);
      PutRun(s.runs, id, ClaimRun(s.runs[id], s.now));
    } else if l.Approve? {
      TransitionsKeepRun(s.runs[l.run], |s.outbox|);
      PutRun(s.runs, l.run, ApproveRun(s.runs[l.run], |s.outbox|));
    } else if l.Cancel? {
      TransitionsKeepRun(s.runs[l.run], 0);
      PutRun(s.runs, l.run, CancelRun(s.runs[l.run]));
    } else if l.CommitCreate? && Inserts(s, l.request) {
      NewRunOk(s, l.request);
      PutRun(s.runs, l.id, NewRun(s, l.request));
    }
  }

  lemma WritesStay(s: Sys, w: nat, ok: bool)
    requires Structured(s) && Enabled(s, Stmt(w, ok))
    ensures RunsOk(RunsAfter(s, Stmt(w, ok)))
  {
    OnItsRun(s, w, ok);
    var e := s.workers[w].exec;
    WriteKeepsRun(s.runs[e.runId], e.index, s.now, MoveOf(s, w, ok).action);
    PutRun(s.runs, e.runId, Write(s.runs[e.runId], e.index, s.now, MoveOf(s, w, ok).action));
  }

  lemma NewRunOk(s: Sys, q: nat)
    requires q in s.requests && s.requests[q].workflow in s.workflows
    ensures RunOk(NewRun(s, q))
  {
  }

  lemma OutboxStays(s: Sys, l: Label)
    requires Structured(s) && Enabled(s, l)
    ensures OutboxOk(RunsAfter(s, l), OutboxAfter(s, l))
  {
    Immutable(s, l);
  }

  lemma MessagesStay(s: Sys, l: Label)
    requires Structured(s) && Enabled(s, l)
    ensures StreamAfter(s, l) <= LogAfter(s, l)
    ensures MessagesOk(OutboxAfter(s, l), LogAfter(s, l))
  {
    Immutable(s, l);
    if l.Send? {
      assert BatchOk(s.outbox, s.publishers[l.publisher].batch);
    }
  }

  lemma PublishersStay(s: Sys, l: Label)
    requires Structured(s) && Enabled(s, l)
    ensures PublishersOk(OutboxAfter(s, l), PublishersAfter(s, l))
  {
    forall p | p in PublishersAfter(s, l) ensures BatchOk(OutboxAfter(s, l), PublishersAfter(s, l)[p].batch) {
      if p in s.publishers {
        Immutable(s, l);
        BatchOkExtends(s.outbox, OutboxAfter(s, l), s.publishers[p].batch);
      }
    }
  }

  lemma BatchOkExtends(outbox: seq<OutboxRow>, outbox': seq<OutboxRow>, batch: seq<Message>)
    requires BatchOk(outbox, batch) && OutboxExtends(outbox, outbox')
    ensures BatchOk(outbox', batch)
  {
  }

  lemma WorkersStay(s: Sys, l: Label)
    requires Structured(s) && Enabled(s, l)
    ensures WorkersOk(RunsAfter(s, l), OutboxAfter(s, l), WorkersAfter(s, l))
  {
    forall w | w in WorkersAfter(s, l) ensures WorkerOk(RunsAfter(s, l), OutboxAfter(s, l), WorkersAfter(s, l)[w]) {
      if l.Stmt? && l.worker == w {
        StmtKeepsWorker(s, w, l.ok);
      } else if l.Claim? && l.worker == w {
        ClaimKeepsWorker(s, w);
      } else {
        OtherWorkerStays(s, l, w);
      }
    }
  }

  lemma OtherWorkerStays(s: Sys, l: Label, w: nat)
    requires Structured(s) && Enabled(s, l) && w in WorkersAfter(s, l)
    requires (l.Stmt? || l.Claim?) ==> l.worker != w
    ensures WorkerOk(RunsAfter(s, l), OutboxAfter(s, l), WorkersAfter(s, l)[w])
  {
    Immutable(s, l);
    var worker := WorkersAfter(s, l)[w];
    assert WorkerOk(s.runs, s.outbox, worker) by {
      if w in s.workers {
        assert WorkerOk(s.runs, s.outbox, s.workers[w]);
      }
    }
    WorkerOkExtends(s.runs, RunsAfter(s, l), s.outbox, OutboxAfter(s, l), worker);
  }

  lemma WorkerOkExtends(runs: map<string, Run>, runs': map<string, Run>, outbox: seq<OutboxRow>, outbox': seq<OutboxRow>, worker: Worker)
    requires RunsExtend(runs, runs') && OutboxExtends(outbox, outbox') && WorkerOk(runs, outbox, worker)
    ensures WorkerOk(runs', outbox', worker)
  {
  }

  lemma StmtKeepsWorker(s: Sys, w: nat, ok: bool)
    requires Structured(s) && Enabled(s, Stmt(w, ok))
    ensures WorkerOk(RunsAfter(s, Stmt(w, ok)), s.outbox, WorkersAfter(s, Stmt(w, ok))[w])
  {
    Immutable(s, Stmt(w, ok));
    OnItsRun(s, w, ok);
  }

  /** The run a message names exists, under exactly that spelling. */
  lemma ClaimTarget(s: Sys, w: nat)
    requires IdsOk(s.runs) && OutboxOk(s.runs, s.outbox) && WorkersOk(s.runs, s.outbox, s.workers) && w in s.workers
    ensures s.workers[w].msg.runId in s.runs && IsUuid(s.workers[w].msg.runId)
    ensures Canonical(s.workers[w].msg.runId) == s.workers[w].msg.runId
  {
    assert WorkerOk(s.runs, s.outbox, s.workers[w]);
    assert IdOk(s.workers[w].msg.runId);
  }

  lemma ClaimKeepsWorker(s: Sys, w: nat)
    requires Structured(s) && Enabled(s, Claim(w))
    ensures WorkerOk(RunsAfter(s, Claim(w)), s.outbox, WorkersAfter(s, Claim(w))[w])
  {
    assert WorkerOk(s.runs, s.outbox, s.workers[w]);
    assert IdOk(s.workers[w].msg.runId);
  }

  lemma LedgerStays(s: Sys, l: Label)
    requires Structured(s) && Enabled(s, l)
    ensures LedgerOk(RunsAfter(s, l), LedgerAfter(s, l))
  {
    Immutable(s, l);
    if l.Stmt? {
      OnItsRun(s, l.worker, l.ok);
    }
    forall entry | entry in LedgerAfter(s, l) ensures EntryOk(RunsAfter(s, l), entry, LedgerAfter(s, l)[entry]) {
      if entry in s.ledger {
        assert EntryOk(s.runs, entry, s.ledger[entry]);
      }
    }
  }

  lemma StructuredStep(s: Sys, l: Label, regime: Regime)
    requires Structured(s)
    ensures Structured(Next(s, l, regime))
  {
    if Possible(s, l, regime) {
      IdsStay(s, l);
      RunsStay(s, l);
      OutboxStays(s, l);
      MessagesStay(s, l);
      PublishersStay(s, l);
      WorkersStay(s, l);
      LedgerStays(s, l);
    }
  }

  lemma {:induction false} StructuredAlways(s: Sys, labels: seq<Label>, regime: Regime)
    requires Structured(s)
    ensures Structured(Reach(s, labels, regime))
  {
    if labels != [] {
      StructuredAlways(s, labels[..|labels| - 1], regime);
      StructuredStep(Reach(s, labels[..|labels| - 1], regime), labels[|labels| - 1], regime);
    }
  }

  /** Runs are never deleted and never change tenant. */
  lemma {:induction false} ColumnsStay(s: Sys, labels: seq<Label>, regime: Regime)
    ensures RunsExtend(s.runs, Reach(s, labels, regime).runs)
  {
    if labels != [] {
      var before, l := Reach(s, labels[..|labels| - 1], regime), labels[|labels| - 1];
      ColumnsStay(s, labels[..|labels| - 1], regime);
      if Possible(before, l, regime) {
        Immutable(before, l);
      }
    }
  }

  /******* At most one committed effect *******/

  /** Over any number of workers, stale leases and redeliveries, the ledger holds at most
      one row per (tenant, run, step), and only for ticket steps. */
  lemma OneEffectPerStep(s: Sys, labels: seq<Label>, regime: Regime, a: (string, string), b: (string, string))
    requires Init(s)
    requires a in Reach(s, labels, regime).ledger && b in Reach(s, labels, regime).ledger
    ensures var s' := Reach(s, labels, regime);
            && (s'.ledger[a] == s'.ledger[b] ==> a == b)
            && s'.ledger[a].run in s'.runs
            && a.0 == s'.runs[s'.ledger[a].run].cols.tenant
            && TicketStep(s'.runs[s'.ledger[a].run].cols.def, s'.ledger[a].step)
  {
    StructuredAlways(s, labels, regime);
    var s' := Reach(s, labels, regime);
    assert EntryOk(s'.runs, a, s'.ledger[a]) && EntryOk(s'.runs, b, s'.ledger[b]);
  }

  /** Every stored copy of an outbox row spells the run canonically, which is what makes
      the rendered effect key stable across redeliveries. */
  lemma MessagesSpellCanonically(s: Sys, labels: seq<Label>, regime: Regime, m: Message)
    requires Init(s) && m in Reach(s, labels, regime).log
    ensures IsUuid(m.runId) && Canonical(m.runId) == m.runId && m.runId in Reach(s, labels, regime).runs
    ensures m.tenant == Reach(s, labels, regime).runs[m.runId].cols.tenant
  {
    StructuredAlways(s, labels, regime);
    var s' := Reach(s, labels, regime);
    assert MsgOk(s'.outbox, m);
    assert IdOk(m.runId);
  }

  /** In every history a run is in `failed`, or has a failed event, only if its definition
      has an unsupported version, a malformed step or a step other than a provider call that
      can fail; `uncertain` only if it has a provider call; and the result of a step, first
      written or replayed, says what that step is. */
  lemma OutcomesExplained(s: Sys, labels: seq<Label>, regime: Regime, r: string)
    requires Init(s) && r in Reach(s, labels, regime).runs
    ensures OutcomesOk(Reach(s, labels, regime).runs[r])
    ensures var run := Reach(s, labels, regime).runs[r];
            forall i :: i in run.results ==> i < |run.cols.def.steps| && ResultFits(run.cols.def.steps[i], run.results[i])
  {
    StructuredAlways(s, labels, regime);
    assert RunOk(Reach(s, labels, regime).runs[r]);
  }

  /** Each claim leaves exactly one leased and one started event, and the row was created
      once, whatever crashes between the worker's separate statements. */
  lemma EventsAccount(s: Sys, labels: seq<Label>, regime: Regime, r: string)
    requires Init(s) && r in Reach(s, labels, regime).runs
    ensures EventsOk(Reach(s, labels, regime).runs[r])
  {
    StructuredAlways(s, labels, regime);
    assert RunOk(Reach(s, labels, regime).runs[r]);
  }
}
