/** The shared contract: run states, the transition table, workflow steps and the
    schema rule that puts an approval in front of every declared side effect. */
module Contracts {

  datatype Option<+T> = None | Some(value: T)

  datatype RunState = Queued | Leased | Running | AwaitingApproval | Succeeded | Failed | Cancelled | Uncertain

  predicate Terminal(state: RunState) {
    state in {Succeeded, Failed, Cancelled, Uncertain}
  }

  /** The states counted against `max_active_runs`. */
  predicate Active(state: RunState) {
    state in {Queued, Leased, Running, AwaitingApproval}
  }

  function AllowedTransitions(from: RunState): set<RunState> {
    match from
    case Queued => {Leased, Cancelled}
    case Leased => {Running, Queued, Failed, Uncertain, Cancelled}
    case Running => {AwaitingApproval, Succeeded, Failed, Uncertain, Cancelled}
    case AwaitingApproval => {Queued, Cancelled}
    case Succeeded => {}
    case Failed => {}
    case Cancelled => {}
    case Uncertain => {}
  }

  datatype EventType =
    | Created | LeasedEvent | Started | ApprovalRequested | Approved
    | CancelledEvent | SucceededEvent | FailedEvent | UncertainEvent

  datatype Provider = MockProvider | OpenAiCompatible | OtherProvider
  datatype Operation = ExtractJson | Template | OtherOperation
  datatype ToolName = HttpFetch | TicketWrite | DataRead | OtherTool

  /** A step as the worker decodes it.  `Unrecognised` is a step whose kind the worker
      does not know; `Malformed` is one whose JSON does not decode at all. */
  datatype Step =
    | Model(provider: Provider)
    | Transform(operation: Operation)
    | Tool(tool: ToolName, sideEffect: bool)
    | Approval
    | Unrecognised
    | Malformed

  datatype Definition = Definition(schemaVersion: string, steps: seq<Step>)

  predicate KnownStep(step: Step) {
    match step
    case Model(p) => p != OtherProvider
    case Transform(o) => o != OtherOperation
    case Tool(t, _) => t != OtherTool
    case Approval => true
    case Unrecognised => false
    case Malformed => false
  }

  predicate DeclaredSideEffect(def: Definition, index: nat) {
    index < |def.steps| && def.steps[index].Tool? && def.steps[index].sideEffect
  }

  predicate TicketStep(def: Definition, index: nat) {
    index < |def.steps| && def.steps[index].Tool? && def.steps[index].tool == TicketWrite
  }

  predicate ApprovalStep(def: Definition, index: nat) {
    index < |def.steps| && def.steps[index].Approval?
  }

  /** The steps whose execution can end in a `fail` or `uncertain` that resumes the loop.
      A malformed step is not one of them: it ends `execute`. */
  predicate FallibleStep(step: Step) {
    match step
    case Model(p) => p != MockProvider
    case Transform(o) => o == OtherOperation
    case Tool(t, _) => t == HttpFetch || t == OtherTool
    case Approval => false
    case Unrecognised => true
    case Malformed => false
  }

  predicate Fallible(def: Definition, index: nat) {
    index < |def.steps| && FallibleStep(def.steps[index])
  }

  /** What can make the worker write `failed`, and what `uncertain`. */
  predicate CanFail(def: Definition) {
    || def.schemaVersion !in {"", "1"}
    || exists i :: 0 <= i < |def.steps| && (def.steps[i] == Malformed || (FallibleStep(def.steps[i]) && def.steps[i] != Model(OpenAiCompatible)))
  }

  predicate CanBeUncertain(def: Definition) {
    exists i :: 0 <= i < |def.steps| && def.steps[i] == Model(OpenAiCompatible)
  }

  predicate SchemaValid(def: Definition) {
    && def.schemaVersion == "1"
    && 1 <= |def.steps| <= 20
    && (forall i :: 0 <= i < |def.steps| ==> KnownStep(def.steps[i]))
    && (forall i :: 0 <= i < |def.steps| && DeclaredSideEffect(def, i) ==> i > 0 && ApprovalStep(def, i - 1))
  }

  /** The steps with an approval put in front of every declared side effect. */
  function WithApprovals(steps: seq<Step>): seq<Step> {
    if steps == [] then []
    else
      var last := steps[|steps| - 1];
      WithApprovals(steps[..|steps| - 1]) + if last.Tool? && last.sideEffect then [Approval, last] else [last]
  }

  /** The schema asks for approvals in front of declared side effects and nothing more: any
      known steps, so guarded, are accepted as long as there are 1 to 20 of them. */
  lemma GuardedStepsAccepted(steps: seq<Step>)
    requires AllKnown(steps)
    ensures SchemaValid(Definition("1", WithApprovals(steps))) <==> 1 <= |WithApprovals(steps)| <= 20
  {
    GuardedSteps(steps);
  }

  predicate AllKnown(steps: seq<Step>) {
    forall i :: 0 <= i < |steps| ==> KnownStep(steps[i])
  }

  predicate AllGuarded(steps: seq<Step>) {
    forall i :: 0 <= i < |steps| && steps[i].Tool? && steps[i].sideEffect ==> i > 0 && steps[i - 1].Approval?
  }

  lemma {:induction false} GuardedSteps(steps: seq<Step>)
    requires AllKnown(steps)
    ensures AllKnown(WithApprovals(steps)) && AllGuarded(WithApprovals(steps))
  {
    if steps != [] {
      var front, last := WithApprovals(steps[..|steps| - 1]), steps[|steps| - 1];
      GuardedSteps(steps[..|steps| - 1]);
      if last.Tool? && last.sideEffect {
        assert WithApprovals(steps) == front + [Approval] + [last];
        OneMore(front, Approval);
        OneMore(front + [Approval], last);
      } else {
        assert WithApprovals(steps) == front + [last];
        OneMore(front, last);
      }
    }
  }

  lemma OneMore(steps: seq<Step>, step: Step)
    requires AllKnown(steps) && AllGuarded(steps) && KnownStep(step)
    requires step.Tool? && step.sideEffect ==> steps != [] && steps[|steps| - 1].Approval?
    ensures AllKnown(steps + [step]) && AllGuarded(steps + [step])
  {
  }

  /** Definitions written before schema versions existed carry the empty version. */
  predicate SupportedSchema(version: string) {
    version == "" || version == "1"
  }

  datatype ResultKind = ModelResult | TransformResult | ToolResult | ApprovalResult

  /** The result kind recorded for a step, whatever tool or provider served it. */
  function KindOf(step: Step): Option<ResultKind> {
    match step
    case Model(_) => Some(ModelResult)
    case Transform(_) => Some(TransformResult)
    case Tool(_, _) => Some(ToolResult)
    case Approval => Some(ApprovalResult)
    case Unrecognised => None
    case Malformed => None
  }
}
