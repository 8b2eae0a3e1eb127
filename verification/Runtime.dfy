/** The durable-execution protocol as a labelled transition system.

    Control plane, outbox publishers, the at-least-once stream and any number of
    crashing workers share one database.  Every SQL statement of a worker and every
    transaction of the control plane is one label; a label that is not enabled leaves
    the state alone, so every sequence of labels is a history. */
module Runtime {
  import opened Contracts
  import opened Keys

  const LEASE: nat := 30
  const DAY: nat := 86400

  /******* Database rows *******/

  datatype StepLabel =
    | MockModelLabel | OpenAiModelLabel | TransformLabel(operation: Operation) | DataReadLabel
    | TicketCommitted | TicketReplayed | FetchLabel | ApprovalRequired

  datatype Result = Result(kind: ResultKind, evidence: StepLabel)

  /** The columns no statement ever updates; `creator` is the request that inserted the row. */
  datatype Columns = Columns(
    tenant: string, key: string, input: string, def: Definition, handle: Option<string>, created: nat, creator: nat)

  /** What happened to a run so far.  No statement reads these fields; they let
      properties speak of the past. */
  datatype History = History(
    enqueued: seq<nat>,    // outbox ids inserted for the run, in order
    approvals: seq<nat>,   // the step each approve action moved the run away from
    skipped: set<nat>,     // steps advanced over without a result row
    failures: nat,         // completed `fail` and `uncertain` state writes
    providerCalls: nat)

  /** A `workflow_runs` row with the rows that hang off it: at most one result per step
      (first writer wins) and the append-only events. */
  datatype Run = Run(
    cols: Columns, state: RunState, step: nat, lease: Option<nat>, attempts: nat,
    results: map<nat, Result>, events: seq<EventType>, hist: History)

  datatype Effect = Effect(run: string, step: nat)

  /** `effect_commits`, unique on (tenant, effect key). */
  type EffectLedger = map<(string, string), Effect>

  /** `claimedBy` is history: the publisher passes that counted an attempt. */
  datatype OutboxRow = OutboxRow(tenant: string, run: string, published: bool, attempts: nat, claimedBy: set<nat>)

  datatype Limits = Limits(maxActive: nat, maxPerDay: nat)

  datatype Workflow = Workflow(tenant: string, def: Definition)

  /******* Processes *******/

  /** One stored copy of an outbox row; `publisher` tells copies apart. */
  datatype Message = Message(outboxId: nat, publisher: nat, tenant: string, runId: string)

  /** Where an executor stands: the statement it issues next. */
  datatype Pc =
    | AtStep
    | CallingProvider
    | Failing(outcome: RunState)
    | Recording(result: Result)
    | Advancing
    | Suspending
    | FailEvent(outcome: RunState, resume: bool)
    | AwaitEvent
    | SuccessEvent

  /** The worker's copy of the leased run, its loop index, its position and the expiry of
      the lease as it last wrote it. */
  datatype Exec = Exec(runId: string, cols: Columns, index: nat, pc: Pc, until: nat)

  datatype Worker = Fetched(msg: Message) | Executing(msg: Message, exec: Exec) | Finished(msg: Message)

  /** One `publishPending` pass; passes are numbered and never reused. */
  datatype Publisher = Publisher(batch: seq<Message>, sent: nat, alive: bool)

  datatype Refusal = LimitsMissing | ActiveQuota | DailyQuota | WorkflowNotFound | HandleTaken
  datatype Phase = Waiting | Replied(run: string, replayed: bool) | Refused(reason: Refusal) | Abandoned

  /** One create-run request; `started` is its transaction's start time. */
  datatype Request = Request(
    tenant: string, key: string, input: string, workflow: string, handle: Option<string>,
    started: nat, phase: Phase)

  datatype Sys = Sys(
    now: nat,
    limits: map<string, Limits>,
    workflows: map<string, Workflow>,
    runs: map<string, Run>,
    keys: map<(string, string), string>,   // the unique index on (tenant, idempotency key)
    ledger: EffectLedger,
    outbox: seq<OutboxRow>,
    stream: set<Message>,                  // stored and not acknowledged
    log: set<Message>,                     // every copy ever stored
    workers: map<nat, Worker>,             // the busy ones
    publishers: map<nat, Publisher>,
    requests: map<nat, Request>,
    broker: set<string>,                   // handles whose credential is still held
    issued: set<string>)

  predicate Init(s: Sys) {
    && s.runs == map[] && s.keys == map[] && s.ledger == map[] && s.outbox == []
    && s.stream == {} && s.log == {} && s.workers == map[] && s.publishers == map[]
    && s.requests == map[] && s.broker == {} && s.issued == {}
  }

  datatype Label =
    | Tick(seconds: nat)
    | Register(workflow: string, definition: Workflow)
    | Issue(handle: string)
    | Forget(handle: string)               // expiry, discard or a control-plane restart
    | BeginCreate(request: nat, tenant: string, key: string, input: string, workflow: string, credential: Option<string>)
    | CommitCreate(request: nat, id: string)
    | AbandonCreate(request: nat)
    | Approve(run: string)
    | Cancel(run: string)
    | ClaimOutbox(publisher: nat, ids: seq<nat>)
    | Send(publisher: nat)
    | MarkPublished(publisher: nat)
    | StopPublisher(publisher: nat)
    | Deliver(worker: nat, msg: Message)
    | Claim(worker: nat)
    | Stmt(worker: nat, ok: bool)
    | Ack(worker: nat)
    | Crash(worker: nat)                   // process death, or an error answered with a nak

  /******* Admission *******/

  function ActiveRuns(runs: map<string, Run>, tenant: string): set<string> {
    set r | r in runs && runs[r].cols.tenant == tenant && Active(runs[r].state)
  }

  function CreatedSince(runs: map<string, Run>, tenant: string, start: nat): set<string> {
    set r | r in runs && runs[r].cols.tenant == tenant && start <= runs[r].cols.created
  }

  predicate Taken(runs: map<string, Run>, handle: Option<string>) {
    handle.Some? && exists r :: r in runs && runs[r].cols.handle == handle
  }

  function DayStart(time: nat): nat {
    time / DAY * DAY
  }

  datatype Verdict = Reject(reason: Refusal) | Replay(run: string) | Insert

  /** The locked half of `createRun`, in the order the statements decide. */
  function Admit(s: Sys, req: Request): Verdict {
    if req.tenant !in s.limits then Reject(LimitsMissing)
    else if |ActiveRuns(s.runs, req.tenant)| >= s.limits[req.tenant].maxActive then Reject(ActiveQuota)
    else if |CreatedSince(s.runs, req.tenant, DayStart(req.started))| >= s.limits[req.tenant].maxPerDay then Reject(DailyQuota)
    else if req.workflow !in s.workflows || s.workflows[req.workflow].tenant != req.tenant then Reject(WorkflowNotFound)
    else if (req.tenant, req.key) in s.keys then Replay(s.keys[(req.tenant, req.key)])
    else if Taken(s.runs, req.handle) then Reject(HandleTaken)
    else Insert
  }

  function NewRun(s: Sys, q: nat): Run
    requires q in s.requests && s.requests[q].workflow in s.workflows
  {
    var req := s.requests[q];
    Run(Columns(req.tenant, req.key, req.input, s.workflows[req.workflow].def, req.handle, req.started, q),
        Queued, 0, None, 0, map[], [Created], History([|s.outbox|], [], {}, 0, 0))
  }

  predicate Inserts(s: Sys, q: nat) {
    q in s.requests && Admit(s, s.requests[q]) == Insert
  }

  function CommitPhase(s: Sys, req: Request, id: string): Phase {
    match Admit(s, req)
    case Reject(reason) => Refused(reason)
    case Replay(run) => Replied(run, true)
    case Insert => Replied(id, false)
  }

  function LookUp(s: Sys, tenant: string, key: string): Phase {
    if (tenant, key) in s.keys then Replied(s.keys[(tenant, key)], true) else Waiting
  }

  /******* Control-plane transitions *******/

  function ApproveRun(run: Run, outboxId: nat): Run {
    run.(state := Queued, step := run.step + 1, events := run.events + [Approved],
         hist := run.hist.(approvals := run.hist.approvals + [run.step], enqueued := run.hist.enqueued + [outboxId]))
  }

  function CancelRun(run: Run): Run {
    run.(state := Cancelled, events := run.events + [CancelledEvent])
  }

  /******* Outbox *******/

  function Batch(outbox: seq<OutboxRow>, p: nat, ids: seq<nat>): seq<Message>
    requires forall i :: 0 <= i < |ids| ==> ids[i] < |outbox|
  {
    seq(|ids|, i requires 0 <= i < |ids| => Message(ids[i], p, outbox[ids[i]].tenant, outbox[ids[i]].run))
  }

  function CountAttempts(outbox: seq<OutboxRow>, p: nat, ids: seq<nat>): (rows: seq<OutboxRow>)
    ensures |rows| == |outbox|
  {
    seq(|outbox|, o requires 0 <= o < |outbox| =>
      if o in ids then outbox[o].(attempts := outbox[o].attempts + 1, claimedBy := outbox[o].claimedBy + {p}) else outbox[o])
  }

  predicate InBatch(batch: seq<Message>, o: nat) {
    exists i :: 0 <= i < |batch| && batch[i].outboxId == o
  }

  function MarkRows(outbox: seq<OutboxRow>, batch: seq<Message>): (rows: seq<OutboxRow>)
    ensures |rows| == |outbox|
  {
    seq(|outbox|, o requires 0 <= o < |outbox| =>
      if InBatch(batch, o) then outbox[o].(published := true) else outbox[o])
  }

  /** The rows one pass may claim: unpublished, in id order, possibly not all of them
      because of the limit and of rows other passes have locked. */
  predicate ClaimableRows(outbox: seq<OutboxRow>, ids: seq<nat>) {
    && (forall i :: 0 <= i < |ids| ==> ids[i] < |outbox| && !outbox[ids[i]].published)
    && (forall i, j :: 0 <= i < j < |ids| ==> ids[i] < ids[j])
  }

  /******* Worker *******/

  predicate Claimable(run: Run, now: nat) {
    || run.state == Queued
    || (run.state in {Leased, Running} && run.lease.Some? && run.lease.value < now)
  }

  function ClaimRun(run: Run, now: nat): Run {
    run.(state := Running, lease := Some(now + LEASE), attempts := run.attempts + 1,
         events := run.events + [LeasedEvent, Started])
  }

  /** The claim query finds the row; a locked row does not exist here because
      transactions are atomic. */
  predicate Claims(s: Sys, w: nat) {
    && w in s.workers && s.workers[w].Fetched?
    && IsUuid(s.workers[w].msg.runId)
    && Canonical(s.workers[w].msg.runId) in s.runs
    && Claimable(s.runs[Canonical(s.workers[w].msg.runId)], s.now)
  }

  function Lease(s: Sys, w: nat): Exec
    requires Claims(s, w)
  {
    var run := s.runs[Canonical(s.workers[w].msg.runId)];
    Exec(s.workers[w].msg.runId, run.cols, run.step, AtStep, s.now + LEASE)
  }

  /** The actions of an executor: one SQL statement or one foreign call each. */
  datatype Action =
    | RecordResult(result: Result)
    | CommitEffect
    | ConsumeCredential
    | CallProvider
    | SetOutcome(outcome: RunState)
    | SetSucceeded
    | Advance
    | SetAwaiting
    | AppendEvent(event: EventType)

  /** An action and the position after it; `None` means `execute` returned nil. */
  datatype Move = Move(action: Action, next: Option<Pc>)

  /** `fail` and `uncertain` return nil, so with `resume` the step loop carries on. */
  function Fail(outcome: RunState, resume: bool): Move {
    Move(SetOutcome(outcome), Some(FailEvent(outcome, resume)))
  }

  function Save(kind: ResultKind, evidence: StepLabel): Move {
    Move(RecordResult(Result(kind, evidence)), Some(Advancing))
  }

  function Replayed(present: bool): StepLabel {
    if present then TicketReplayed else TicketCommitted
  }

  /** The first action of an iteration.  `ok` is the answer of whatever foreign system the
      step asks, `held` says the broker still holds the run's credential and `present`
      that the ledger already has the entry. */
  function StepMove(e: Exec, ok: bool, held: bool, present: bool): Move {
    if !SupportedSchema(e.cols.def.schemaVersion) then Fail(Failed, false)
    else if e.index >= |e.cols.def.steps| then Move(SetSucceeded, Some(SuccessEvent))
    else
      match e.cols.def.steps[e.index]
      case Malformed => Fail(Failed, false)
      case Approval => Move(RecordResult(Result(ApprovalResult, ApprovalRequired)), Some(Suspending))
      case Model(MockProvider) => Save(ModelResult, MockModelLabel)
      case Model(OpenAiCompatible) => if ok && held then Move(ConsumeCredential, Some(CallingProvider)) else Fail(Uncertain, true)
      case Model(OtherProvider) => Fail(Failed, true)
      case Transform(op) => if op == OtherOperation then Fail(Failed, true) else Save(TransformResult, TransformLabel(op))
      case Tool(DataRead, _) => Save(ToolResult, DataReadLabel)
      case Tool(TicketWrite, _) => Move(CommitEffect, Some(Recording(Result(ToolResult, Replayed(present)))))
      case Tool(HttpFetch, _) => if ok then Save(ToolResult, FetchLabel) else Fail(Failed, true)
      case Tool(OtherTool, _) => Fail(Failed, true)
      case Unrecognised => Fail(Failed, true)
  }

  function OutcomeEvent(outcome: RunState): EventType {
    if outcome == Failed then FailedEvent else UncertainEvent
  }

  function Plan(e: Exec, ok: bool, held: bool, present: bool): Move {
    match e.pc
    case AtStep => StepMove(e, ok, held, present)
    case CallingProvider =>
      Move(CallProvider, Some(if ok then Recording(Result(ModelResult, OpenAiModelLabel)) else Failing(Uncertain)))
    case Failing(outcome) => Fail(outcome, true)
    case Recording(result) => Move(RecordResult(result), Some(Advancing))
    case Advancing => Move(Advance, Some(AtStep))
    case Suspending => Move(SetAwaiting, Some(AwaitEvent))
    case FailEvent(outcome, resume) => Move(AppendEvent(OutcomeEvent(outcome)), if resume then Some(Advancing) else None)
    case AwaitEvent => Move(AppendEvent(ApprovalRequested), None)
    case SuccessEvent => Move(AppendEvent(SucceededEvent), None)
  }

  /** What an action issued at loop position `index` leaves in the run's rows. */
  function Write(run: Run, index: nat, now: nat, action: Action): Run {
    match action
    case RecordResult(result) => if index in run.results then run else run.(results := run.results[index := result])
    case CommitEffect => run
    case ConsumeCredential => run
    case CallProvider => run.(hist := run.hist.(providerCalls := run.hist.providerCalls + 1))
    case SetOutcome(outcome) => run.(state := outcome, lease := None, hist := run.hist.(failures := run.hist.failures + 1))
    case SetSucceeded => run.(state := Succeeded, lease := None)
    case Advance =>
      run.(step := index + 1, lease := Some(now + LEASE),
           hist := run.hist.(skipped := run.hist.skipped + if index in run.results then {} else {index}))
    case SetAwaiting => run.(state := AwaitingApproval, lease := None, step := index)
    case AppendEvent(event) => run.(events := run.events + [event])
  }

  function Forward(e: Exec, now: nat, move: Move): Exec
    requires move.next.Some?
  {
    if move.action.Advance? then e.(index := e.index + 1, pc := move.next.value, until := now + LEASE)
    else e.(pc := move.next.value)
  }

  predicate OnRun(s: Sys, w: nat) {
    w in s.workers && s.workers[w].Executing? && Canonical(s.workers[w].exec.runId) in s.runs
  }

  /** The unique-index entry an executor's ticket would take. */
  function Entry(e: Exec): (string, string) {
    (e.cols.tenant, EffectKey(e.runId, e.index))
  }

  function MoveOf(s: Sys, w: nat, ok: bool): Move
    requires OnRun(s, w)
  {
    var e := s.workers[w].exec;
    Plan(e, ok, e.cols.handle.Some? && e.cols.handle.value in s.broker, Entry(e) in s.ledger)
  }

  /******* Transition relation *******/

  predicate FreshId(s: Sys, id: string) {
    id !in s.runs && IsUuid(id) && Canonical(id) == id
  }

  predicate Enabled(s: Sys, l: Label) {
    match l
    case Tick(_) => true
    case Register(wf, _) => wf !in s.workflows
    case Issue(h) => h !in s.issued
    case Forget(h) => true
    case BeginCreate(q, _, _, _, _, h) => q !in s.requests && (h.Some? ==> h.value in s.issued)
    case CommitCreate(q, id) => q in s.requests && s.requests[q].phase.Waiting? && FreshId(s, id)
    case AbandonCreate(q) => q in s.requests && s.requests[q].phase.Waiting?
    case Approve(r) => r in s.runs && Queued in AllowedTransitions(s.runs[r].state)
    case Cancel(r) => r in s.runs && Cancelled in AllowedTransitions(s.runs[r].state)
    case ClaimOutbox(p, ids) => p !in s.publishers && ClaimableRows(s.outbox, ids)
    case Send(p) => p in s.publishers && s.publishers[p].alive && s.publishers[p].sent < |s.publishers[p].batch|
    case MarkPublished(p) => p in s.publishers && s.publishers[p].alive && s.publishers[p].sent == |s.publishers[p].batch|
    case StopPublisher(p) => p in s.publishers
    case Deliver(w, m) => w !in s.workers && m in s.stream
    case Claim(w) => w in s.workers && s.workers[w].Fetched?
    case Stmt(w, _) => OnRun(s, w)
    case Ack(w) => w in s.workers && s.workers[w].Finished?
    case Crash(w) => w in s.workers
  }

  /** The runs table: who writes it, and what. */
  function RunsAfter(s: Sys, l: Label): map<string, Run>
    requires Enabled(s, l)
  {
    if l.CommitCreate? && Inserts(s, l.request) then s.runs[l.id := NewRun(s, l.request)]
    else if l.Approve? then s.runs[l.run := ApproveRun(s.runs[l.run], |s.outbox|)]
    else if l.Cancel? then s.runs[l.run := CancelRun(s.runs[l.run])]
    else if l.Claim? && Claims(s, l.worker) then
      var id := Canonical(s.workers[l.worker].msg.runId);
      s.runs[id := ClaimRun(s.runs[id], s.now)]
    else if l.Stmt? then
      var e := s.workers[l.worker].exec;
      s.runs[Canonical(e.runId) := Write(s.runs[Canonical(e.runId)], e.index, s.now, MoveOf(s, l.worker, l.ok).action)]
    else s.runs
  }

  function LedgerAfter(s: Sys, l: Label): EffectLedger
    requires Enabled(s, l)
  {
    if l.Stmt? && MoveOf(s, l.worker, l.ok).action.CommitEffect? && Entry(s.workers[l.worker].exec) !in s.ledger then
      var e := s.workers[l.worker].exec;
      s.ledger[Entry(e) := Effect(Canonical(e.runId), e.index)]
    else s.ledger
  }

  function OutboxAfter(s: Sys, l: Label): seq<OutboxRow>
    requires Enabled(s, l)
  {
    if l.CommitCreate? && Inserts(s, l.request) then s.outbox + [OutboxRow(s.requests[l.request].tenant, l.id, false, 0, {})]
    else if l.Approve? then s.outbox + [OutboxRow(s.runs[l.run].cols.tenant, l.run, false, 0, {})]
    else if l.ClaimOutbox? then CountAttempts(s.outbox, l.publisher, l.ids)
    else if l.MarkPublished? then MarkRows(s.outbox, s.publishers[l.publisher].batch)
    else s.outbox
  }

  function Sending(s: Sys, p: nat): Message
    requires Enabled(s, Send(p))
  {
    s.publishers[p].batch[s.publishers[p].sent]
  }

  function StreamAfter(s: Sys, l: Label): set<Message>
    requires Enabled(s, l)
  {
    if l.Send? then s.stream + {Sending(s, l.publisher)}
    else if l.Ack? then s.stream - {s.workers[l.worker].msg}
    else s.stream
  }

  function LogAfter(s: Sys, l: Label): set<Message>
    requires Enabled(s, l)
  {
    if l.Send? then s.log + {Sending(s, l.publisher)} else s.log
  }

  function WorkersAfter(s: Sys, l: Label): map<nat, Worker>
    requires Enabled(s, l)
  {
    if l.Deliver? then s.workers[l.worker := Fetched(l.msg)]
    else if l.Claim? then
      var msg := s.workers[l.worker].msg;
      s.workers[l.worker := if Claims(s, l.worker) then Executing(msg, Lease(s, l.worker)) else Finished(msg)]
    else if l.Stmt? then
      var worker, move := s.workers[l.worker], MoveOf(s, l.worker, l.ok);
      s.workers[l.worker := if move.next.Some? then worker.(exec := Forward(worker.exec, s.now, move)) else Finished(worker.msg)]
    else if l.Ack? || l.Crash? then s.workers - {l.worker}
    else s.workers
  }

  function PublishersAfter(s: Sys, l: Label): map<nat, Publisher>
    requires Enabled(s, l)
  {
    if l.ClaimOutbox? then s.publishers[l.publisher := Publisher(Batch(s.outbox, l.publisher, l.ids), 0, true)]
    else if l.Send? then s.publishers[l.publisher := s.publishers[l.publisher].(sent := s.publishers[l.publisher].sent + 1)]
    else if l.MarkPublished? || l.StopPublisher? then s.publishers[l.publisher := s.publishers[l.publisher].(alive := false)]
    else s.publishers
  }

  function RequestsAfter(s: Sys, l: Label): map<nat, Request>
    requires Enabled(s, l)
  {
    if l.BeginCreate? then
      s.requests[l.request := Request(l.tenant, l.key, l.input, l.workflow, l.credential, s.now, LookUp(s, l.tenant, l.key))]
    else if l.CommitCreate? then
      var req := s.requests[l.request];
      s.requests[l.request := req.(phase := CommitPhase(s, req, l.id))]
    else if l.AbandonCreate? then s.requests[l.request := s.requests[l.request].(phase := Abandoned)]
    else s.requests
  }

  function KeysAfter(s: Sys, l: Label): map<(string, string), string>
    requires Enabled(s, l)
  {
    if l.CommitCreate? && Inserts(s, l.request) then s.keys[(s.requests[l.request].tenant, s.requests[l.request].key) := l.id]
    else s.keys
  }

  function BrokerAfter(s: Sys, l: Label): set<string>
    requires Enabled(s, l)
  {
    if l.Issue? then s.broker + {l.handle}
    else if l.Forget? then s.broker - {l.handle}
    else if l.Stmt? && MoveOf(s, l.worker, l.ok).action.ConsumeCredential? then s.broker - Held(s.workers[l.worker].exec)
    else s.broker
  }

  function Held(e: Exec): set<string> {
    if e.cols.handle.Some? then {e.cols.handle.value} else {}
  }

  function NowAfter(s: Sys, l: Label): nat {
    if l.Tick? then s.now + l.seconds else s.now
  }

  function Apply(s: Sys, l: Label): Sys
    requires Enabled(s, l)
  {
    Sys(NowAfter(s, l),
        s.limits,
        if l.Register? then s.workflows[l.workflow := l.definition] else s.workflows,
        RunsAfter(s, l), KeysAfter(s, l), LedgerAfter(s, l), OutboxAfter(s, l),
        StreamAfter(s, l), LogAfter(s, l),
        WorkersAfter(s, l), PublishersAfter(s, l), RequestsAfter(s, l),
        BrokerAfter(s, l), if l.Issue? then s.issued + {l.handle} else s.issued)
  }

  /** The actions that write the run row, a result or the ledger. */
  predicate Writes(action: Action) {
    action.RecordResult? || action.CommitEffect? || action.SetOutcome? || action.SetSucceeded? || action.Advance? || action.SetAwaiting?
  }

  /** The positions from which such a write can still come. */
  predicate MayWrite(pc: Pc) {
    !pc.AwaitEvent? && !pc.SuccessEvent? && (pc.FailEvent? ==> pc.resume)
  }

  /** The lease assumption: no executor writes after the expiry it last wrote. */
  predicate Timely(s: Sys, l: Label) {
    l.Stmt? && OnRun(s, l.worker) && Writes(MoveOf(s, l.worker, l.ok).action) ==> s.now <= s.workers[l.worker].exec.until
  }

  /** `Unfenced` admits stale writers; `WithinLease` holds every writer to its lease. */
  datatype Regime = Unfenced | WithinLease

  predicate Possible(s: Sys, l: Label, regime: Regime) {
    Enabled(s, l) && (regime == WithinLease ==> Timely(s, l))
  }

  function Next(s: Sys, l: Label, regime: Regime): Sys {
    if Possible(s, l, regime) then Apply(s, l) else s
  }

  /** The state after a history. */
  function Reach(s: Sys, labels: seq<Label>, regime: Regime): Sys {
    if labels == [] then s
    else Next(Reach(s, labels[..|labels| - 1], regime), labels[|labels| - 1], regime)
  }

  lemma ReachStep(s: Sys, labels: seq<Label>, l: Label, regime: Regime)
    ensures Reach(s, labels + [l], regime) == Next(Reach(s, labels, regime), l, regime)
  {
    assert (labels + [l])[..|labels|] == labels;
  }

  lemma ReachOne(s: Sys, l: Label, regime: Regime)
    ensures Reach(s, [l], regime) == Next(s, l, regime)
  {
    assert [l][..0] == [];
    assert Reach(s, [l][..0], regime) == s;
  }

  lemma {:induction false} ReachAppend(s: Sys, first: seq<Label>, second: seq<Label>, regime: Regime)
    ensures Reach(s, first + second, regime) == Reach(Reach(s, first, regime), second, regime)
  {
    if second == [] {
      assert first + second == first;
    } else {
      var n := |second| - 1;
      ReachAppend(s, first, second[..n], regime);
      assert (first + second)[..|first + second| - 1] == first + second[..n];
    }
  }
}
