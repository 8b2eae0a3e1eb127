/** Executions that actually happen: for every definition `execute` can get to the end of,
    an uninterrupted history with approvals in between, in which chosen fallible steps fail.
    They show which definitions the fail-through path can leave incomplete. */
module Executions {
  import opened Contracts
  import opened Keys
  import opened Runtime
  import opened Structure
  import opened Leases
  import opened Recovery
  import opened ApprovalGate
  import opened Stranding
  import opened Scenes

  predicate ProviderStep(def: Definition, i: nat) {
    i < |def.steps| && def.steps[i] == Model(OpenAiCompatible)
  }

  /** The steps in `bad` can fail and the others can be served, the one credential being
      enough for the provider steps among them. */
  ghost predicate Servable(def: Definition, handle: Option<string>, bad: set<nat>) {
    && SupportedSchema(def.schemaVersion)
    && (forall i :: 0 <= i < |def.steps| ==> if i in bad then FallibleStep(def.steps[i]) else KnownStep(def.steps[i]))
    && (forall i :: i !in bad && ProviderStep(def, i) ==> handle.Some?)
    && (forall i, j :: i < j && i !in bad && j !in bad && ProviderStep(def, i) ==> !ProviderStep(def, j))
  }

  /** A provider step is still to be served. */
  ghost predicate Owed(def: Definition, bad: set<nat>, i: nat) {
    exists j :: i <= j && j !in bad && ProviderStep(def, j)
  }

  /** What a step records when it is served for the first time. */
  function Expected(step: Step): Result {
    match step
    case Model(p) => Result(ModelResult, if p == MockProvider then MockModelLabel else OpenAiModelLabel)
    case Transform(op) => Result(TransformResult, TransformLabel(op))
    case Tool(DataRead, _) => Result(ToolResult, DataReadLabel)
    case Tool(TicketWrite, _) => Result(ToolResult, TicketCommitted)
    case Tool(_, _) => Result(ToolResult, FetchLabel)
    case _ => Result(ApprovalResult, ApprovalRequired)
  }

  /** Results for exactly the steps before `i` that were not to fail, each as expected. */
  ghost predicate Done(results: map<nat, Result>, def: Definition, bad: set<nat>, i: nat) {
    && (forall j: nat :: j in results <==> j < i && j !in bad)
    && (forall j: nat :: j in results && j < |def.steps| ==> results[j] == Expected(def.steps[j]))
  }

  /** The events of serving, failing or having one step approved. */
  function StepEvents(step: Step, failed: bool): seq<EventType> {
    if failed then [if step == Model(OpenAiCompatible) then UncertainEvent else FailedEvent]
    else if step.Approval? then [ApprovalRequested, Approved, LeasedEvent, Started]
    else []
  }

  /** The event log of an uninterrupted execution up to step `i`. */
  function Log(def: Definition, bad: set<nat>, i: nat): seq<EventType>
    requires i <= |def.steps|
  {
    if i == 0 then [Created, LeasedEvent, Started]
    else Log(def, bad, i - 1) + StepEvents(def.steps[i - 1], i - 1 in bad)
  }

  /** No ticket of step `i` or later is in the ledger yet. */
  ghost predicate Unspent(ledger: EffectLedger, i: nat) {
    forall j: nat :: j >= i ==> (TENANT, EffectKey(FIRST, j)) !in ledger
  }

  /** The row while the run is being served. */
  ghost predicate RowServed(run: Run, def: Definition, handle: Option<string>, bad: set<nat>, i: nat) {
    && run.cols.def == def && run.cols.handle == handle && run.cols.tenant == TENANT
    && run.step == i <= |def.steps| && run.state in {Running, Failed, Uncertain}
    && Done(run.results, def, bad, i) && Failures(run, bad, i) && run.events == Log(def, bad, i)
  }

  /** Failures happened exactly if a step before `i` was to fail, and left their event. */
  ghost predicate Failures(run: Run, bad: set<nat>, i: nat) {
    && (bad == {} ==> run.hist.failures == 0)
    && (forall j :: j in bad && j < i ==> run.hist.failures > 0 && Reported(run.events))
  }

  predicate Reported(events: seq<EventType>) {
    FailedEvent in events || UncertainEvent in events
  }

  /** An executor of the run at `index` and `pc`, within its lease. */
  predicate ServedBy(s: Sys, w: nat, index: nat, pc: Pc) {
    && FIRST in s.runs && w in s.workers && s.workers[w].Executing?
    && (var e := s.workers[w].exec;
        e.runId == FIRST && e.cols == s.runs[FIRST].cols && e.index == index && e.pc == pc && s.now <= e.until)
  }

  ghost predicate Serving(s: Sys, def: Definition, handle: Option<string>, bad: set<nat>, w: nat, i: nat) {
    && ServedBy(s, w, i, AtStep) && RowServed(s.runs[FIRST], def, handle, bad, i)
    && (Owed(def, bad, i) ==> handle.Some? && handle.value in s.broker) && Unspent(s.ledger, i)
  }

  /******* Single statements *******/

  /** A statement on the row that goes on to `next`. */
  lemma Moves1(s: Sys, w: nat, ok: bool, index: nat, pc: Pc, action: Action, next: Pc) returns (s': Sys)
    requires ServedBy(s, w, index, pc) && OnRun(s, w) && MoveOf(s, w, ok) == Move(action, Some(next))
    requires !action.CommitEffect? && !action.ConsumeCredential?
    ensures s' == Reach(s, [Stmt(w, ok)], WithinLease)
    ensures ServedBy(s', w, if action.Advance? then index + 1 else index, next)
    ensures s'.runs[FIRST] == Write(s.runs[FIRST], index, s.now, action) && s'.broker == s.broker && s'.ledger == s.ledger
    ensures s' == s.(runs := s'.runs, workers := s'.workers)
    ensures s'.workers[w].exec.until == if action.Advance? then s.now + 30 else s.workers[w].exec.until
  {
    Ids();
    s' := Act(s, w, ok, WithinLease);
    WriteKeepsColumns(s.runs[FIRST], index, s.now, action);
  }

  lemma OnFirst(s: Sys, w: nat, index: nat, pc: Pc)
    requires ServedBy(s, w, index, pc)
    ensures OnRun(s, w)
  {
    Ids();
  }

  /** Advancing closes a step. */
  lemma Advances(s: Sys, w: nat, index: nat) returns (s': Sys)
    requires ServedBy(s, w, index, Advancing)
    ensures w in s'.workers && s'.workers[w].Executing? && s'.workers[w].exec.until == s.now + 30 && s'.now == s.now
    ensures s' == Reach(s, [Stmt(w, true)], WithinLease) && ServedBy(s', w, index + 1, AtStep)
    ensures s'.runs[FIRST] == Write(s.runs[FIRST], index, s.now, Advance) && s'.broker == s.broker && s'.ledger == s.ledger
  {
    OnFirst(s, w, index, Advancing);
    s' := Moves1(s, w, true, index, Advancing, Advance, AtStep);
  }

  lemma Records(s: Sys, w: nat, index: nat, result: Result) returns (s': Sys)
    requires ServedBy(s, w, index, Recording(result))
    ensures s' == Reach(s, [Stmt(w, true)], WithinLease) && ServedBy(s', w, index, Advancing)
    ensures s'.runs[FIRST] == Write(s.runs[FIRST], index, s.now, RecordResult(result)) && s'.broker == s.broker && s'.ledger == s.ledger
  {
    OnFirst(s, w, index, Recording(result));
    s' := Moves1(s, w, true, index, Recording(result), RecordResult(result), Advancing);
  }

  /******* Rows *******/

  /** Recording and advancing over a step that is to be served. */
  lemma RecordedRow(run: Run, def: Definition, handle: Option<string>, bad: set<nat>, i: nat, now: nat, result: Result)
    requires RowServed(run, def, handle, bad, i) && i < |def.steps| && i !in bad && !def.steps[i].Approval?
    requires result == Expected(def.steps[i])
    ensures var after := Write(Write(run, i, now, RecordResult(result)), i, now, Advance);
            RowServed(after, def, handle, bad, i + 1)
  {
  }

  /** Failing, reporting and advancing over a step that is to fail. */
  lemma FailedRow(run: Run, def: Definition, handle: Option<string>, bad: set<nat>, i: nat, now: nat, outcome: RunState, event: EventType)
    requires RowServed(run, def, handle, bad, i) && i < |def.steps| && i in bad && outcome in {Failed, Uncertain}
    requires outcome == (if def.steps[i] == Model(OpenAiCompatible) then Uncertain else Failed)
    requires event == (if def.steps[i] == Model(OpenAiCompatible) then UncertainEvent else FailedEvent)
    ensures var after := Write(Write(Write(run, i, now, SetOutcome(outcome)), i, now, AppendEvent(event)), i, now, Advance);
            RowServed(after, def, handle, bad, i + 1)
  {
    var after := Write(Write(Write(run, i, now, SetOutcome(outcome)), i, now, AppendEvent(event)), i, now, Advance);
    assert after.events[|run.events|] == event;
  }

  /** Suspending, approving and claiming again. */
  lemma ApprovedRow(run: Run, def: Definition, handle: Option<string>, bad: set<nat>, i: nat, now: nat, result: Result, o: nat)
    requires RowServed(run, def, handle, bad, i) && i < |def.steps| && i !in bad && def.steps[i].Approval?
    requires result == Result(ApprovalResult, ApprovalRequired)
    ensures var awaiting := Write(Write(Write(run, i, now, RecordResult(result)), i, now, SetAwaiting), i, now, AppendEvent(ApprovalRequested));
            awaiting.state == AwaitingApproval && RowServed(ClaimRun(ApproveRun(awaiting, o), now), def, handle, bad, i + 1)
  {
    assert run.events + [ApprovalRequested] + [Approved] + [LeasedEvent, Started] == run.events + [ApprovalRequested, Approved, LeasedEvent, Started];
  }

  lemma OwedLater(def: Definition, bad: set<nat>, i: nat)
    ensures Owed(def, bad, i + 1) ==> Owed(def, bad, i)
  {
  }

  /******* One step *******/

  /** What the executor does first at a step it can serve at once. */
  lemma SavesAt(e: Exec, held: bool, present: bool) returns (result: Result)
    requires e.pc == AtStep && SupportedSchema(e.cols.def.schemaVersion) && e.index < |e.cols.def.steps|
    requires var step := e.cols.def.steps[e.index];
             KnownStep(step) && !step.Approval? && step != Model(OpenAiCompatible) && !(step.Tool? && step.tool == TicketWrite)
    ensures result == Expected(e.cols.def.steps[e.index])
    ensures Plan(e, true, held, present) == Move(RecordResult(result), Some(Advancing))
  {
    result := Plan(e, true, held, present).action.result;
  }

  lemma ServeSaved(s: Sys, def: Definition, handle: Option<string>, bad: set<nat>, w: nat, i: nat) returns (labels: seq<Label>, s': Sys)
    requires Serving(s, def, handle, bad, w, i) && Servable(def, handle, bad) && i < |def.steps| && i !in bad
    requires var step := def.steps[i]; !step.Approval? && step != Model(OpenAiCompatible) && !(step.Tool? && step.tool == TicketWrite)
    ensures s' == Reach(s, labels, WithinLease) && Serving(s', def, handle, bad, w, i + 1)
  {
    OnFirst(s, w, i, AtStep);
    var e := s.workers[w].exec;
    var result := SavesAt(e, e.cols.handle.Some? && e.cols.handle.value in s.broker, Entry(e) in s.ledger);
    var s1 := Moves1(s, w, true, i, AtStep, RecordResult(result), Advancing);
    s' := Advances(s1, w, i);
    labels := [Stmt(w, true)] + [Stmt(w, true)];
    ReachAppend(s, [Stmt(w, true)], [Stmt(w, true)], WithinLease);
    RecordedRow(s.runs[FIRST], def, handle, bad, i, s.now, result);
    OwedLater(def, bad, i);
  }

  /** A fallible step that is answered badly fails and resumes. */
  lemma FailsAt(e: Exec, held: bool, present: bool) returns (outcome: RunState)
    requires e.pc == AtStep && SupportedSchema(e.cols.def.schemaVersion) && Fallible(e.cols.def, e.index)
    ensures outcome == (if e.cols.def.steps[e.index] == Model(OpenAiCompatible) then Uncertain else Failed)
    ensures Plan(e, false, held, present) == Move(SetOutcome(outcome), Some(FailEvent(outcome, true)))
  {
    outcome := Plan(e, false, held, present).action.outcome;
  }

  lemma ServeFailed(s: Sys, def: Definition, handle: Option<string>, bad: set<nat>, w: nat, i: nat) returns (labels: seq<Label>, s': Sys)
    requires Serving(s, def, handle, bad, w, i) && Servable(def, handle, bad) && i < |def.steps| && i in bad
    ensures s' == Reach(s, labels, WithinLease) && Serving(s', def, handle, bad, w, i + 1)
  {
    OnFirst(s, w, i, AtStep);
    var e := s.workers[w].exec;
    var outcome := FailsAt(e, e.cols.handle.Some? && e.cols.handle.value in s.broker, Entry(e) in s.ledger);
    var s1 := Moves1(s, w, false, i, AtStep, SetOutcome(outcome), FailEvent(outcome, true));
    OnFirst(s1, w, i, FailEvent(outcome, true));
    var s2 := Moves1(s1, w, true, i, FailEvent(outcome, true), AppendEvent(OutcomeEvent(outcome)), Advancing);
    s' := Advances(s2, w, i);
    labels := [Stmt(w, false)] + [Stmt(w, true)] + [Stmt(w, true)];
    ReachAppend(s, [Stmt(w, false)], [Stmt(w, true)], WithinLease);
    ReachAppend(s, [Stmt(w, false)] + [Stmt(w, true)], [Stmt(w, true)], WithinLease);
    FailedRow(s.runs[FIRST], def, handle, bad, i, s.now, outcome, OutcomeEvent(outcome));
    OwedLater(def, bad, i);
  }

  /** The ledger insert of a ticket step. */
  lemma Commits(s: Sys, w: nat, i: nat) returns (s': Sys, result: Result)
    requires ServedBy(s, w, i, AtStep) && SupportedSchema(s.runs[FIRST].cols.def.schemaVersion) && TicketStep(s.runs[FIRST].cols.def, i)
    requires s.runs[FIRST].cols.tenant == TENANT && Unspent(s.ledger, i)
    ensures s' == Reach(s, [Stmt(w, true)], WithinLease) && ServedBy(s', w, i, Recording(result))
    ensures s'.runs == s.runs && s'.broker == s.broker && s'.now == s.now
    ensures result == Result(ToolResult, TicketCommitted) && Unspent(s'.ledger, i + 1)
  {
    OnFirst(s, w, i, AtStep);
    var move := MoveOf(s, w, true);
    assert move.action == CommitEffect;
    result := move.next.value.result;
    Ids();
    LedgerLater(s.ledger, i, Effect(FIRST, i));
    s' := Next(s, Stmt(w, true), WithinLease);
    ReachOne(s, Stmt(w, true), WithinLease);
    Ids();
    assert s.runs[FIRST := s.runs[FIRST]] == s.runs;
  }

  lemma LedgerLater(ledger: EffectLedger, i: nat, effect: Effect)
    requires Unspent(ledger, i)
    ensures Unspent(ledger[(TENANT, EffectKey(FIRST, i)) := effect], i + 1)
  {
    forall j: nat | j >= i + 1 ensures (TENANT, EffectKey(FIRST, j)) !in ledger[(TENANT, EffectKey(FIRST, i)) := effect] {
      EffectKeyInjective(FIRST, i, FIRST, j);
    }
  }

  lemma ServeTicket(s: Sys, def: Definition, handle: Option<string>, bad: set<nat>, w: nat, i: nat) returns (labels: seq<Label>, s': Sys)
    requires Serving(s, def, handle, bad, w, i) && Servable(def, handle, bad) && i !in bad && TicketStep(def, i)
    ensures s' == Reach(s, labels, WithinLease) && Serving(s', def, handle, bad, w, i + 1)
  {
    var l := Stmt(w, true);
    var s1, result := Commits(s, w, i);
    var s2 := Records(s1, w, i, result);
    s' := Advances(s2, w, i);
    labels := [l] + [l] + [l];
    ReachAppend(s, [l], [l], WithinLease);
    ReachAppend(s, [l] + [l], [l], WithinLease);
    RecordedRow(s.runs[FIRST], def, handle, bad, i, s.now, result);
    OwedLater(def, bad, i);
  }

  /** The credential is taken. */
  lemma Consumes(s: Sys, w: nat, i: nat) returns (s': Sys)
    requires ServedBy(s, w, i, AtStep) && SupportedSchema(s.runs[FIRST].cols.def.schemaVersion) && ProviderStep(s.runs[FIRST].cols.def, i)
    requires s.runs[FIRST].cols.handle.Some? && s.runs[FIRST].cols.handle.value in s.broker
    ensures s' == Reach(s, [Stmt(w, true)], WithinLease) && ServedBy(s', w, i, CallingProvider)
    ensures s'.runs == s.runs && s'.now == s.now && s'.ledger == s.ledger
  {
    OnFirst(s, w, i, AtStep);
    assert MoveOf(s, w, true) == Move(ConsumeCredential, Some(CallingProvider));
    s' := Next(s, Stmt(w, true), WithinLease);
    ReachOne(s, Stmt(w, true), WithinLease);
    Ids();
    assert s.runs[FIRST := s.runs[FIRST]] == s.runs;
  }

  lemma CalledRow(run: Run, def: Definition, handle: Option<string>, bad: set<nat>, i: nat, now: nat)
    requires RowServed(run, def, handle, bad, i)
    ensures RowServed(Write(run, i, now, CallProvider), def, handle, bad, i)
  {
  }

  lemma ServeProvider(s: Sys, def: Definition, handle: Option<string>, bad: set<nat>, w: nat, i: nat) returns (labels: seq<Label>, s': Sys)
    requires Serving(s, def, handle, bad, w, i) && Servable(def, handle, bad) && i !in bad && ProviderStep(def, i)
    ensures s' == Reach(s, labels, WithinLease) && Serving(s', def, handle, bad, w, i + 1)
  {
    var l := Stmt(w, true);
    assert Owed(def, bad, i) && !Owed(def, bad, i + 1);
    var s1, result := Calls(s, w, i);
    CalledRow(s.runs[FIRST], def, handle, bad, i, s.now);
    var s2 := Records(s1, w, i, result);
    s' := Advances(s2, w, i);
    labels := ([l] + [l]) + [l] + [l];
    ReachAppend(s, [l] + [l], [l], WithinLease);
    ReachAppend(s, ([l] + [l]) + [l], [l], WithinLease);
    RecordedRow(s1.runs[FIRST], def, handle, bad, i, s.now, result);
  }

  /** The credential is taken and the provider answers. */
  lemma Calls(s: Sys, w: nat, i: nat) returns (s': Sys, result: Result)
    requires ServedBy(s, w, i, AtStep) && SupportedSchema(s.runs[FIRST].cols.def.schemaVersion) && ProviderStep(s.runs[FIRST].cols.def, i)
    requires s.runs[FIRST].cols.handle.Some? && s.runs[FIRST].cols.handle.value in s.broker
    ensures s' == Reach(s, [Stmt(w, true)] + [Stmt(w, true)], WithinLease) && ServedBy(s', w, i, Recording(result))
    ensures s'.runs[FIRST] == Write(s.runs[FIRST], i, s.now, CallProvider) && s'.now == s.now && s'.ledger == s.ledger
    ensures result == Result(ModelResult, OpenAiModelLabel)
  {
    result := Result(ModelResult, OpenAiModelLabel);
    var s1 := Consumes(s, w, i);
    OnFirst(s1, w, i, CallingProvider);
    s' := Moves1(s1, w, true, i, CallingProvider, CallProvider, Recording(result));
    ReachAppend(s, [Stmt(w, true)], [Stmt(w, true)], WithinLease);
  }

  /** Up to the request for approval, after which the executor is done. */
  lemma Suspends(s: Sys, w: nat, i: nat) returns (labels: seq<Label>, s': Sys)
    requires ServedBy(s, w, i, AtStep) && SupportedSchema(s.runs[FIRST].cols.def.schemaVersion) && ApprovalStep(s.runs[FIRST].cols.def, i)
    ensures s' == Reach(s, labels, WithinLease) && s' == s.(runs := s'.runs, workers := s'.workers)
    ensures FIRST in s'.runs
    ensures s'.runs[FIRST] ==
            Write(Write(Write(s.runs[FIRST], i, s.now, RecordResult(Result(ApprovalResult, ApprovalRequired))), i, s.now, SetAwaiting), i, s.now, AppendEvent(ApprovalRequested))
  {
    var l := Stmt(w, true);
    OnFirst(s, w, i, AtStep);
    var s1 := Moves1(s, w, true, i, AtStep, RecordResult(Result(ApprovalResult, ApprovalRequired)), Suspending);
    OnFirst(s1, w, i, Suspending);
    var s2 := Moves1(s1, w, true, i, Suspending, SetAwaiting, AwaitEvent);
    OnFirst(s2, w, i, AwaitEvent);
    Ids();
    s' := Act(s2, w, true, WithinLease);
    labels := [l] + [l] + [l];
    ReachAppend(s, [l], [l], WithinLease);
    ReachAppend(s, [l] + [l], [l], WithinLease);
  }

  /** Approved, published, delivered and claimed again. */
  lemma Resumes(s: Sys) returns (labels: seq<Label>, s': Sys, w: nat)
    requires FIRST in s.runs && s.runs[FIRST].state == AwaitingApproval && s.runs[FIRST].cols.tenant == TENANT
    ensures s' == Reach(s, labels, WithinLease) && s'.broker == s.broker && s'.ledger == s.ledger && s'.now == s.now
    ensures FIRST in s'.runs && s'.runs[FIRST] == ClaimRun(ApproveRun(s.runs[FIRST], |s.outbox|), s.now)
    ensures ServedBy(s', w, s.runs[FIRST].step + 1, AtStep)
  {
    Ids();
    var o := |s.outbox|;
    ReachOne(s, Approve(FIRST), WithinLease);
    ApproveChanges(s, FIRST, WithinLease);
    var s1 := Next(s, Approve(FIRST), WithinLease);
    var p := Fresh(s1.publishers.Keys);
    var l2, s2 := Publish(s1, o, p, WithinLease);
    w := Fresh(s2.workers.Keys);
    var l3, s3 := Take(s2, Message(o, p, TENANT, FIRST), w, WithinLease);
    ReachAppend(s, [Approve(FIRST)], l2, WithinLease);
    ReachAppend(s, [Approve(FIRST)] + l2, l3, WithinLease);
    labels, s' := [Approve(FIRST)] + l2 + l3, s3;
  }

  lemma ServeApproval(s: Sys, def: Definition, handle: Option<string>, bad: set<nat>, w: nat, i: nat)
    returns (labels: seq<Label>, s': Sys, w': nat)
    requires Serving(s, def, handle, bad, w, i) && Servable(def, handle, bad) && ApprovalStep(def, i)
    ensures s' == Reach(s, labels, WithinLease) && Serving(s', def, handle, bad, w', i + 1)
  {
    var l1, s1 := Suspends(s, w, i);
    ApprovedRow(s.runs[FIRST], def, handle, bad, i, s.now, Result(ApprovalResult, ApprovalRequired), |s1.outbox|);
    var l2, s2, v := Resumes(s1);
    ReachAppend(s, l1, l2, WithinLease);
    OwedLater(def, bad, i);
    labels, s', w' := l1 + l2, s2, v;
  }

  lemma ServeOne(s: Sys, def: Definition, handle: Option<string>, bad: set<nat>, w: nat, i: nat)
    returns (labels: seq<Label>, s': Sys, w': nat)
    requires Serving(s, def, handle, bad, w, i) && Servable(def, handle, bad) && i < |def.steps|
    ensures s' == Reach(s, labels, WithinLease) && Serving(s', def, handle, bad, w', i + 1)
  {
    w' := w;
    if i in bad {
      labels, s' := ServeFailed(s, def, handle, bad, w, i);
    } else if ApprovalStep(def, i) {
      labels, s', w' := ServeApproval(s, def, handle, bad, w, i);
    } else if ProviderStep(def, i) {
      labels, s' := ServeProvider(s, def, handle, bad, w, i);
    } else if TicketStep(def, i) {
      labels, s' := ServeTicket(s, def, handle, bad, w, i);
    } else {
      labels, s' := ServeSaved(s, def, handle, bad, w, i);
    }
  }

  /******* Whole executions *******/

  /** The run has succeeded with results for exactly the steps outside `bad`. */
  ghost predicate Served(s: Sys, def: Definition, bad: set<nat>) {
    && FIRST in s.runs && s.runs[FIRST].cols.def == def && s.runs[FIRST].state == Succeeded
    && Done(s.runs[FIRST].results, def, bad, |def.steps|) && Failures(s.runs[FIRST], bad, |def.steps|)
    && s.runs[FIRST].events == Log(def, bad, |def.steps|) + [SucceededEvent] && s.runs[FIRST].lease == None
  }

  lemma Ends(s: Sys, def: Definition, handle: Option<string>, bad: set<nat>, w: nat) returns (s': Sys)
    requires Serving(s, def, handle, bad, w, |def.steps|) && SupportedSchema(def.schemaVersion)
    ensures s' == Reach(s, [Stmt(w, true)] + [Stmt(w, true)], WithinLease) && Served(s', def, bad)
  {
    OnFirst(s, w, |def.steps|, AtStep);
    var s1 := Moves1(s, w, true, |def.steps|, AtStep, SetSucceeded, SuccessEvent);
    OnFirst(s1, w, |def.steps|, SuccessEvent);
    Ids();
    s' := Act(s1, w, true, WithinLease);
    ReachAppend(s, [Stmt(w, true)], [Stmt(w, true)], WithinLease);
  }

  lemma {:induction false} ServeAll(s: Sys, def: Definition, handle: Option<string>, bad: set<nat>, w: nat, i: nat)
    returns (labels: seq<Label>, s': Sys)
    requires Serving(s, def, handle, bad, w, i) && Servable(def, handle, bad)
    ensures s' == Reach(s, labels, WithinLease) && Served(s', def, bad)
    decreases |def.steps| - i
  {
    if i == |def.steps| {
      labels := [Stmt(w, true)] + [Stmt(w, true)];
      s' := Ends(s, def, handle, bad, w);
    } else {
      var l1, s1, w1 := ServeOne(s, def, handle, bad, w, i);
      var l2, s2 := ServeAll(s1, def, handle, bad, w1, i + 1);
      ReachAppend(s, l1, l2, WithinLease);
      labels, s' := l1 + l2, s2;
    }
  }

  /** Every servable definition is executed to the end by some history within leases. */
  lemma Executes(def: Definition, handle: Option<string>, bad: set<nat>) returns (labels: seq<Label>)
    requires Servable(def, handle, bad)
    ensures Init(Start(def, 1)) && Served(Reach(Start(def, 1), labels, WithinLease), def, bad)
  {
    var l0, s0 := Launch(def, 1, handle, WithinLease);
    assert Serving(s0, def, handle, bad, 0, 0);
    var l1, s1 := ServeAll(s0, def, handle, bad, 0, 0);
    ReachAppend(Start(def, 1), l0, l1, WithinLease);
    labels := l0 + l1;
  }

  /** The sequential reference is what an uninterrupted execution leaves: every definition of
      known steps with at most one provider step has a history within leases, without a
      fail or uncertain write, that ends exactly there. */
  lemma ReferenceReached(def: Definition) returns (labels: seq<Label>)
    requires SupportedSchema(def.schemaVersion) && forall i :: 0 <= i < |def.steps| ==> KnownStep(def.steps[i])
    requires forall i, j :: i < j && ProviderStep(def, i) ==> !ProviderStep(def, j)
    ensures var s := Reach(Start(def, 1), labels, WithinLease);
            && FIRST in s.runs && s.runs[FIRST].cols.def == def && s.runs[FIRST].state == Succeeded && s.runs[FIRST].hist.failures == 0
            && Observed(s, FIRST) == Sequential(def, |def.steps|)
            && s.runs[FIRST].events == Log(def, {}, |def.steps|) + [SucceededEvent]
            && (forall i :: 0 <= i < |def.steps| ==> i in s.runs[FIRST].results && s.runs[FIRST].results[i] == Expected(def.steps[i]))
  {
    labels := Executes(def, Some("h"), {});
    TransparentRecovery(Start(def, 1), labels, FIRST);
  }

  /** Any fallible step of a definition that can succeed at all can be missing at the end:
      `fail` and `uncertain` return nil, the loop advances, and the run goes from failed or
      uncertain to succeeded, all within its lease. */
  lemma FallibleSkipped(def: Definition, i: nat) returns (labels: seq<Label>)
    requires Runnable(def) && Fallible(def, i)
    ensures var s := Reach(Start(def, 1), labels, WithinLease);
            && FIRST in s.runs && s.runs[FIRST].cols.def == def && s.runs[FIRST].state == Succeeded
            && i !in s.runs[FIRST].results && s.runs[FIRST].hist.failures > 0 && Reported(s.runs[FIRST].events)
  {
    var bad := set j | 0 <= j < |def.steps| && FallibleStep(def.steps[j]);
    labels := Executes(def, None, bad);
  }

  /** Whatever flag it declares, a ticket step that does not follow an approval is committed
      unapproved by some history, in every definition that can succeed; `ApprovedExactly`
      says that no other is. */
  lemma UnapprovedCommits(def: Definition, i: nat) returns (labels: seq<Label>)
    requires Runnable(def) && TicketStep(def, i) && !FollowsApproval(def, i)
    ensures var s := Reach(Start(def, 1), labels, WithinLease);
            && FIRST in s.runs && s.runs[FIRST].cols.def == def && i in Observed(s, FIRST).effects
            && !(i > 0 && i - 1 in s.runs[FIRST].hist.approvals)
  {
    var bad := set j | 0 <= j < |def.steps| && FallibleStep(def.steps[j]);
    labels := Executes(def, None, bad);
    var s := Reach(Start(def, 1), labels, WithinLease);
    FencedAlways(Start(def, 1), labels);
    CommittedUnapproved(s, i);
  }

  lemma CommittedUnapproved(s: Sys, i: nat)
    requires Fenced(s) && FIRST in s.runs && s.runs[FIRST].state == Succeeded
    requires TicketStep(s.runs[FIRST].cols.def, i) && !FollowsApproval(s.runs[FIRST].cols.def, i)
    ensures i in Observed(s, FIRST).effects && !(i > 0 && i - 1 in s.runs[FIRST].hist.approvals)
  {
    assert RowOk(s.runs[FIRST]) && ApprovalsOk(s.runs[FIRST]);
    SettledEffects(s, FIRST, i);
  }

  /******* Long executions *******/

  /** Steps that need nobody's answer. */
  predicate PlainStep(step: Step) {
    step == Model(MockProvider) || (step.Transform? && step.operation != OtherOperation) || (step.Tool? && step.tool == DataRead)
  }

  predicate Plain(def: Definition) {
    SupportedSchema(def.schemaVersion) && forall i :: 0 <= i < |def.steps| ==> PlainStep(def.steps[i])
  }

  /** Claimed once, with a full lease ahead. */
  ghost predicate Patient(s: Sys, def: Definition, handle: Option<string>, w: nat, i: nat) {
    && ServedBy(s, w, i, AtStep) && RowServed(s.runs[FIRST], def, handle, {}, i)
    && s.runs[FIRST].attempts == 1 && s.now + 30 <= s.workers[w].exec.until
  }

  /** One step that takes 25 seconds. */
  lemma TakeTime(s: Sys, def: Definition, handle: Option<string>, w: nat, i: nat) returns (labels: seq<Label>, s': Sys)
    requires Patient(s, def, handle, w, i) && Plain(def) && i < |def.steps|
    ensures s' == Reach(s, labels, WithinLease) && Patient(s', def, handle, w, i + 1) && s'.now == s.now + 25
  {
    OnFirst(s, w, i, AtStep);
    var e := s.workers[w].exec;
    var result := SavesAt(e, e.cols.handle.Some? && e.cols.handle.value in s.broker, Entry(e) in s.ledger);
    var s1 := Moves1(s, w, true, i, AtStep, RecordResult(result), Advancing);
    var s2 := Wait25(s1, w, i);
    s' := Advances(s2, w, i);
    labels := [Stmt(w, true)] + [Tick(25)] + [Stmt(w, true)];
    ReachAppend(s, [Stmt(w, true)], [Tick(25)], WithinLease);
    ReachAppend(s, [Stmt(w, true)] + [Tick(25)], [Stmt(w, true)], WithinLease);
    PatientRow(s.runs[FIRST], def, handle, i, s.now, s2.now, result);
  }

  lemma Wait25(s: Sys, w: nat, i: nat) returns (s': Sys)
    requires ServedBy(s, w, i, Advancing) && s.now + 30 <= s.workers[w].exec.until
    ensures s' == Reach(s, [Tick(25)], WithinLease) && s' == s.(now := s.now + 25) && ServedBy(s', w, i, Advancing)
  {
    s' := Next(s, Tick(25), WithinLease);
    ReachOne(s, Tick(25), WithinLease);
  }

  lemma PatientRow(run: Run, def: Definition, handle: Option<string>, i: nat, now: nat, later: nat, result: Result)
    requires RowServed(run, def, handle, {}, i) && i < |def.steps| && !def.steps[i].Approval? && result == Expected(def.steps[i])
    ensures var after := Write(Write(run, i, now, RecordResult(result)), i, later, Advance);
            RowServed(after, def, handle, {}, i + 1) && after.attempts == run.attempts
  {
  }

  lemma {:induction false} TakeAllTime(s: Sys, def: Definition, handle: Option<string>, w: nat, i: nat) returns (labels: seq<Label>, s': Sys)
    requires Patient(s, def, handle, w, i) && Plain(def)
    ensures s' == Reach(s, labels, WithinLease) && Patient(s', def, handle, w, |def.steps|) && s'.now == s.now + 25 * (|def.steps| - i)
    decreases |def.steps| - i
  {
    if i == |def.steps| {
      labels, s' := [], s;
    } else {
      var l1, s1 := TakeTime(s, def, handle, w, i);
      var l2, s2 := TakeAllTime(s1, def, handle, w, i + 1);
      ReachAppend(s, l1, l2, WithinLease);
      labels, s' := l1 + l2, s2;
    }
  }

  lemma EndsOnce(s: Sys, def: Definition, handle: Option<string>, w: nat) returns (s': Sys)
    requires Patient(s, def, handle, w, |def.steps|) && Plain(def)
    ensures s' == Reach(s, [Stmt(w, true)], WithinLease) && s'.now == s.now
    ensures FIRST in s'.runs && s'.runs[FIRST].cols.def == def && s'.runs[FIRST].state == Succeeded && s'.runs[FIRST].attempts == 1
  {
    OnFirst(s, w, |def.steps|, AtStep);
    s' := Moves1(s, w, true, |def.steps|, AtStep, SetSucceeded, SuccessEvent);
  }

  /** Renewal lets a run outlast any single lease: n steps of 25 seconds each end in success
      after 25n seconds with a single claim, every write within the lease. */
  lemma OutlastsLease(def: Definition, handle: Option<string>) returns (labels: seq<Label>)
    requires Plain(def)
    ensures var s := Reach(Start(def, 1), labels, WithinLease);
            && FIRST in s.runs && s.runs[FIRST].cols.def == def && s.runs[FIRST].state == Succeeded
            && s.runs[FIRST].attempts == 1 && s.now == 25 * |def.steps|
  {
    var l0, s0 := LaunchPatient(def, handle);
    var l1, s1 := TakeAllTime(s0, def, handle, 0, 0);
    var s2 := EndsOnce(s1, def, handle, 0);
    ReachAppend(Start(def, 1), l0, l1, WithinLease);
    ReachAppend(Start(def, 1), l0 + l1, [Stmt(0, true)], WithinLease);
    labels := l0 + l1 + [Stmt(0, true)];
  }

  lemma LaunchPatient(def: Definition, handle: Option<string>) returns (labels: seq<Label>, s: Sys)
    ensures s == Reach(Start(def, 1), labels, WithinLease) && Patient(s, def, handle, 0, 0) && s.now == 0
  {
    labels, s := Launch(def, 1, handle, WithinLease);
  }

  /** A run of the definition has succeeded at the end of this history. */
  ghost predicate Succeeds(s: Sys, labels: seq<Label>, r: string, def: Definition) {
    Init(s) && r in Reach(s, labels, WithinLease).runs &&
    Reach(s, labels, WithinLease).runs[r].state == Succeeded && Reach(s, labels, WithinLease).runs[r].cols.def == def
  }

  /** Definitions of version "1", and those written before versions existed, can succeed; no
      run of any other version ever does. */
  lemma VersionDecides(version: string, steps: seq<Step>) returns (labels: seq<Label>)
    requires forall i :: 0 <= i < |steps| ==> KnownStep(steps[i])
    requires forall i, j :: 0 <= i < j < |steps| && steps[i] == Model(OpenAiCompatible) ==> steps[j] != Model(OpenAiCompatible)
    ensures version == "" || version == "1" ==> Succeeds(Start(Definition(version, steps), 1), labels, FIRST, Definition(version, steps))
    ensures version != "" && version != "1" ==> forall s, ls, r :: !Succeeds(s, ls, r, Definition(version, steps))
  {
    var def := Definition(version, steps);
    labels := [];
    if version == "" || version == "1" {
      labels := Executes(def, Some("h"), {});
    } else {
      forall s, ls, r ensures !Succeeds(s, ls, r, def) {
        if Succeeds(s, ls, r, def) {
          SucceededExactly(s, ls, r);
        }
      }
    }
  }

  predicate Complete(run: Run) {
    forall i :: 0 <= i < |run.cols.def.steps| ==> i in run.results
  }

  ghost predicate AlwaysComplete(def: Definition) {
    forall s, labels, r :: Succeeds(s, labels, r, def) ==> Complete(Reach(s, labels, WithinLease).runs[r])
  }

  /** Exactly which definitions the fail-through path can leave incomplete: those that can
      succeed and have a fallible step. */
  lemma CompleteExactly(def: Definition)
    ensures AlwaysComplete(def) <==> (Runnable(def) ==> Infallible(def))
  {
    if Runnable(def) && !Infallible(def) {
      var i :| 0 <= i < |def.steps| && FallibleStep(def.steps[i]);
      var labels := FallibleSkipped(def, i);
      assert Succeeds(Start(def, 1), labels, FIRST, def);
    } else {
      forall s, labels, r | Succeeds(s, labels, r, def) ensures Complete(Reach(s, labels, WithinLease).runs[r]) {
        CompleteWhenInfallible(s, labels, r, def);
      }
    }
  }

  lemma CompleteWhenInfallible(s: Sys, labels: seq<Label>, r: string, def: Definition)
    requires Succeeds(s, labels, r, def) && (Runnable(def) ==> Infallible(def))
    ensures Complete(Reach(s, labels, WithinLease).runs[r])
  {
    SucceededExactly(s, labels, r);
    InfallibleRecovery(s, labels, r);
    var run := Reach(s, labels, WithinLease).runs[r];
    SequentialSteps(def, |def.steps|);
    forall i | 0 <= i < |def.steps| ensures i in run.results {
      assert KindOf(def.steps[i]).Some?;
      assert i in Observed(Reach(s, labels, WithinLease), r).kinds;
    }
  }
}
