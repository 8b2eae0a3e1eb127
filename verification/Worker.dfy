/** The worker as code: `process`, `claim`, `execute` and the statements they issue, run
    against an arbitrary environment.  Each method is proved to take exactly the steps of
    the transition system, so what holds of every history holds of the code. */
module Worker {
  import opened Contracts
  import opened Keys
  import opened Runtime
  import opened Structure

  /** What happens before this process's next statement: the steps of everybody else, and
      the answer the foreign system will give. */
  datatype Turn = Turn(others: seq<Label>, ok: bool)

  /** The worker's own steps. */
  predicate Mine(l: Label, w: nat) {
    (l.Deliver? || l.Claim? || l.Stmt? || l.Ack? || l.Crash?) && l.worker == w
  }

  /** The others acknowledge nothing. */
  predicate Quiet(schedule: seq<Turn>) {
    forall i :: 0 <= i < |schedule| ==> QuietTurn(schedule[i])
  }

  predicate QuietTurn(turn: Turn) {
    forall i :: 0 <= i < |turn.others| ==> !turn.others[i].Ack?
  }

  /** The first result of a step stays. */
  function FirstWriter(row: Run, index: nat, result: Result): Run {
    if index in row.results then row else row.(results := row.results[index := result])
  }

  class RuntimeStore {
    var sys: Sys
    var schedule: seq<Turn>   // the process dies when it runs out
    ghost const origin: Sys
    ghost const quiet: bool   // the others acknowledge nothing
    ghost var trace: seq<Label>
    ghost var held: Message   // the delivery being handled

    ghost predicate Valid()
      reads this
    {
      sys == Reach(origin, trace, Unfenced) && (quiet ==> Quiet(schedule))
    }

    /** This process is at loop position `index`, about to act from `pc`. */
    ghost predicate At(w: nat, run: Exec, index: nat, pc: Pc)
      reads this
    {
      && w in sys.workers && sys.workers[w].Executing? && OnRun(sys, w)
      && sys.workers[w].exec.runId == run.runId && sys.workers[w].exec.cols == run.cols
      && sys.workers[w].exec.index == index && sys.workers[w].exec.pc == pc && sys.workers[w].msg == held
    }

    /** `execute` has returned nil, or the process died and took no message with it. */
    ghost predicate Returned(w: nat)
      reads this
    {
      w in sys.workers ==> sys.workers[w] == Finished(held)
    }

    /** The run's row became `row`; beside it only this process's own position changed. */
    ghost predicate Rewrites(before: Sys, run: Exec, row: Run)
      reads this
    {
      sys == before.(runs := before.runs[Canonical(run.runId) := row], workers := sys.workers)
    }

    /** With `turns` of the `had` turns this process survives and keeps the rest. */
    ghost predicate Lasts(w: nat, turns: nat, had: nat)
      reads this
    {
      had >= turns ==> w in sys.workers && |schedule| >= had - turns
    }

    /** If the others acknowledge nothing, no stored message is lost. */
    ghost predicate Spares(stored: set<Message>)
      reads this
    {
      quiet ==> stored <= sys.stream
    }

    constructor (start: Sys, schedule: seq<Turn>)
      ensures Valid() && sys == start && trace == [] && this.schedule == schedule && quiet == Quiet(schedule)
    {
      sys, this.schedule, quiet := start, schedule, Quiet(schedule);
      origin, trace, held := start, [], Message(0, 0, "", "");
    }

    ghost method Took(l: Label, before: Sys)
      requires before == Reach(origin, trace, Unfenced) && sys == Next(before, l, Unfenced) && (quiet ==> Quiet(schedule))
      modifies this`trace
      ensures Valid() && trace == old(trace) + [l]
    {
      ReachStep(origin, trace, l, Unfenced);
      trace := trace + [l];
    }

    /** Everybody else moves; nobody else moves this process. */
    method Others(w: nat, labels: seq<Label>)
      requires Valid()
      modifies this`sys, this`trace
      ensures Valid() && old(trace) <= trace
      ensures w in old(sys).workers <==> w in sys.workers
      ensures w in sys.workers ==> sys.workers[w] == old(sys).workers[w]
      ensures (forall i :: 0 <= i < |labels| ==> !labels[i].Ack?) ==> old(sys).stream <= sys.stream
      ensures RunsExtend(old(sys).runs, sys.runs)
    {
      for i := 0 to |labels|
        invariant Valid() && old(trace) <= trace
        invariant w in old(sys).workers <==> w in sys.workers
        invariant w in sys.workers ==> sys.workers[w] == old(sys).workers[w]
        invariant (forall i :: 0 <= i < |labels| ==> !labels[i].Ack?) ==> old(sys).stream <= sys.stream
        invariant RunsExtend(old(sys).runs, sys.runs)
      {
        if !Mine(labels[i], w) {
          ghost var before := sys;
          OneMoves(sys, labels[i], w);
          sys := Next(sys, labels[i], Unfenced);
          Took(labels[i], before);
        }
      }
    }

    /** The time until the next statement: the process dies, or the others run. */
    method Await(w: nat) returns (alive: bool, ok: bool)
      requires Valid() && w in sys.workers
      modifies this`sys, this`trace, this`schedule
      ensures Valid() && old(trace) <= trace && (w in sys.workers <==> alive)
      ensures alive ==> sys.workers[w] == old(sys).workers[w]
      ensures alive <==> old(schedule) != []
      ensures schedule == if alive then old(schedule)[1..] else []
      ensures RunsExtend(old(sys).runs, sys.runs)
      ensures Spares(old(sys).stream)
    {
      if schedule == [] {
        ghost var before := sys;
        sys := sys.(workers := sys.workers - {w});
        Took(Crash(w), before);
        return false, false;
      }
      Others(w, schedule[0].others);
      alive, ok := true, schedule[0].ok;
      schedule := schedule[1..];
    }

    method AwaitAt(w: nat, run: Exec, index: nat, ghost pc: Pc) returns (alive: bool, ok: bool)
      requires Valid() && At(w, run, index, pc)
      modifies this`sys, this`trace, this`schedule
      ensures Valid() && old(trace) <= trace && (w in sys.workers <==> alive)
      ensures alive ==> At(w, run, index, pc)
      ensures Lasts(w, 1, |old(schedule)|) && Spares(old(sys).stream)
    {
      alive, ok := Await(w);
    }

    /** One statement on the run's rows: `row` is what the SQL leaves behind. */
    method Store(w: nat, run: Exec, index: nat, row: Run, action: Action, next: Option<Pc>, ok: bool, ghost pc: Pc)
      requires Valid() && At(w, run, index, pc) && MoveOf(sys, w, ok) == Move(action, next)
      requires row == Write(sys.runs[Canonical(run.runId)], index, sys.now, action)
      requires !action.CommitEffect? && !action.ConsumeCredential?
      modifies this`sys, this`trace
      ensures Valid() && trace == old(trace) + [Stmt(w, ok)] && w in sys.workers
      ensures if next.Some? then At(w, run, if action.Advance? then index + 1 else index, next.value) else Returned(w)
      ensures sys.stream == old(sys).stream
      ensures Rewrites(old(sys), run, row)
      ensures action.Advance? && next.Some? ==> sys.workers[w].exec.until == sys.now + 30
    {
      if next.Some? {
        StoreNext(w, run, index, row, action, next.value, ok, pc);
      } else {
        StoreLast(w, run, index, row, action, ok, pc);
      }
    }

    method StoreNext(w: nat, run: Exec, index: nat, row: Run, action: Action, next: Pc, ok: bool, ghost pc: Pc)
      requires Valid() && At(w, run, index, pc) && MoveOf(sys, w, ok) == Move(action, Some(next))
      requires row == Write(sys.runs[Canonical(run.runId)], index, sys.now, action)
      requires !action.CommitEffect? && !action.ConsumeCredential?
      modifies this`sys, this`trace
      ensures Valid() && trace == old(trace) + [Stmt(w, ok)] && At(w, run, if action.Advance? then index + 1 else index, next)
      ensures Rewrites(old(sys), run, row)
      ensures action.Advance? ==> sys.workers[w].exec.until == sys.now + 30
    {
      RowEffect(sys, w, ok, action, Some(next));
      var worker := sys.workers[w];
      var exec := if action.Advance? then worker.exec.(index := index + 1, pc := next, until := sys.now + LEASE) else worker.exec.(pc := next);
      Put(w, Canonical(run.runId), row, Executing(worker.msg, exec), Stmt(w, ok));
    }

    method StoreLast(w: nat, run: Exec, index: nat, row: Run, action: Action, ok: bool, ghost pc: Pc)
      requires Valid() && At(w, run, index, pc) && MoveOf(sys, w, ok) == Move(action, None)
      requires row == Write(sys.runs[Canonical(run.runId)], index, sys.now, action)
      requires !action.CommitEffect? && !action.ConsumeCredential?
      modifies this`sys, this`trace
      ensures Valid() && trace == old(trace) + [Stmt(w, ok)] && w in sys.workers && Returned(w)
      ensures Rewrites(old(sys), run, row)
    {
      RowEffect(sys, w, ok, action, None);
      Put(w, Canonical(run.runId), row, Finished(sys.workers[w].msg), Stmt(w, ok));
    }

    /** The row and the process's own position change together, which is what `l` does. */
    method Put(w: nat, id: string, row: Run, after: Worker, ghost l: Label)
      requires Valid() && Next(sys, l, Unfenced) == sys.(workers := sys.workers[w := after], runs := sys.runs[id := row])
      modifies this`sys, this`trace
      ensures Valid() && trace == old(trace) + [l]
      ensures sys == old(sys).(workers := old(sys).workers[w := after], runs := old(sys).runs[id := row])
    {
      ghost var before := sys;
      sys := sys.(runs := sys.runs[id := row], workers := sys.workers[w := after]);
      Took(l, before);
    }

    method InsertEvent(w: nat, run: Exec, index: nat, event: EventType, next: Option<Pc>, ok: bool, ghost pc: Pc)
      requires Valid() && At(w, run, index, pc) && MoveOf(sys, w, ok) == Move(AppendEvent(event), next)
      modifies this`sys, this`trace
      ensures Valid() && trace == old(trace) + [Stmt(w, ok)] && w in sys.workers
      ensures if next.Some? then At(w, run, index, next.value) else Returned(w)
      ensures sys.stream == old(sys).stream
      ensures Rewrites(old(sys), run, old(sys).runs[Canonical(run.runId)].(events := old(sys).runs[Canonical(run.runId)].events + [event]))
    {
      var row := sys.runs[Canonical(run.runId)];
      Store(w, run, index, row.(events := row.events + [event]), AppendEvent(event), next, ok, pc);
    }

    /** `recordStep`: insert, or leave the first writer's row. */
    method RecordStep(w: nat, run: Exec, index: nat, result: Result, ok: bool, ghost pc: Pc, next: Pc)
      requires Valid() && At(w, run, index, pc) && MoveOf(sys, w, ok) == Move(RecordResult(result), Some(next))
      modifies this`sys, this`trace
      ensures Valid() && At(w, run, index, next) && trace == old(trace) + [Stmt(w, ok)]
      ensures sys.stream == old(sys).stream
      ensures Rewrites(old(sys), run, FirstWriter(old(sys).runs[Canonical(run.runId)], index, result))
    {
      var row := sys.runs[Canonical(run.runId)];
      if index !in row.results {
        row := row.(results := row.results[index := result]);
      }
      Store(w, run, index, row, RecordResult(result), Some(next), ok, pc);
    }

    /** `awaitApproval`: result, state and event are three statements. */
    method AwaitApproval(w: nat, run: Exec, index: nat, ok: bool)
      requires Valid() && At(w, run, index, AtStep)
      requires MoveOf(sys, w, ok) == Move(RecordResult(Result(ApprovalResult, ApprovalRequired)), Some(Suspending))
      modifies this`sys, this`trace, this`schedule
      ensures Valid() && old(trace) <= trace && Returned(w)
      ensures Lasts(w, 2, |old(schedule)|) && Spares(old(sys).stream)
      ensures w in sys.workers ==> Canonical(run.runId) in sys.runs && ApprovalRequested in sys.runs[Canonical(run.runId)].events
    {
      RecordStep(w, run, index, Result(ApprovalResult, ApprovalRequired), ok, AtStep, Suspending);
      var alive, answer := AwaitAt(w, run, index, Suspending);
      if !alive { return; }
      Suspend(w, run, index, answer);
      RequestApproval(w, run, index);
    }

    method RequestApproval(w: nat, run: Exec, index: nat)
      requires Valid() && At(w, run, index, AwaitEvent)
      modifies this`sys, this`trace, this`schedule
      ensures Valid() && old(trace) <= trace && Returned(w)
      ensures Lasts(w, 1, |old(schedule)|) && Spares(old(sys).stream)
      ensures w in sys.workers ==> Canonical(run.runId) in sys.runs && ApprovalRequested in sys.runs[Canonical(run.runId)].events
    {
      var alive, answer := AwaitAt(w, run, index, AwaitEvent);
      if !alive { return; }
      InsertEvent(w, run, index, ApprovalRequested, None, answer, AwaitEvent);
    }

    method Suspend(w: nat, run: Exec, index: nat, ok: bool)
      requires Valid() && At(w, run, index, Suspending)
      modifies this`sys, this`trace
      ensures Valid() && At(w, run, index, AwaitEvent) && trace == old(trace) + [Stmt(w, ok)]
      ensures sys.stream == old(sys).stream
      ensures Rewrites(old(sys), run, old(sys).runs[Canonical(run.runId)].(state := AwaitingApproval, lease := None, step := index))
    {
      var row := sys.runs[Canonical(run.runId)];
      Store(w, run, index, row.(state := AwaitingApproval, lease := None, step := index), SetAwaiting, Some(AwaitEvent), ok, Suspending);
    }

    /** `fail` and `uncertain`: state, then event, then nil.  With `resume` the caller's
        loop goes on as if the step had been served. */
    method Fail(w: nat, run: Exec, index: nat, outcome: RunState, resume: bool, ok: bool, ghost pc: Pc)
      requires Valid() && At(w, run, index, pc) && MoveOf(sys, w, ok) == Move(SetOutcome(outcome), Some(FailEvent(outcome, resume)))
      modifies this`sys, this`trace, this`schedule
      ensures Valid() && old(trace) <= trace
      ensures if resume then w in sys.workers ==> At(w, run, index, Advancing) else Returned(w)
      ensures Lasts(w, 1, |old(schedule)|) && Spares(old(sys).stream)
      ensures w in sys.workers ==> Canonical(run.runId) in sys.runs && (if outcome == Failed then FailedEvent else UncertainEvent) in sys.runs[Canonical(run.runId)].events
    {
      MarkOutcome(w, run, index, outcome, resume, ok, pc);
      ReportOutcome(w, run, index, outcome, resume);
    }

    method ReportOutcome(w: nat, run: Exec, index: nat, outcome: RunState, resume: bool)
      requires Valid() && At(w, run, index, FailEvent(outcome, resume))
      modifies this`sys, this`trace, this`schedule
      ensures Valid() && old(trace) <= trace
      ensures if resume then w in sys.workers ==> At(w, run, index, Advancing) else Returned(w)
      ensures Lasts(w, 1, |old(schedule)|) && Spares(old(sys).stream)
      ensures w in sys.workers ==> Canonical(run.runId) in sys.runs && (if outcome == Failed then FailedEvent else UncertainEvent) in sys.runs[Canonical(run.runId)].events
    {
      var alive, answer := AwaitAt(w, run, index, FailEvent(outcome, resume));
      if !alive { return; }
      InsertEvent(w, run, index, OutcomeEvent(outcome), if resume then Some(Advancing) else None, answer, FailEvent(outcome, resume));
    }

    method MarkOutcome(w: nat, run: Exec, index: nat, outcome: RunState, resume: bool, ok: bool, ghost pc: Pc)
      requires Valid() && At(w, run, index, pc) && MoveOf(sys, w, ok) == Move(SetOutcome(outcome), Some(FailEvent(outcome, resume)))
      modifies this`sys, this`trace
      ensures Valid() && trace == old(trace) + [Stmt(w, ok)] && At(w, run, index, FailEvent(outcome, resume))
      ensures sys.stream == old(sys).stream
      ensures var row := old(sys).runs[Canonical(run.runId)]; Rewrites(old(sys), run, row.(state := outcome, lease := None, hist := row.hist.(failures := row.hist.failures + 1)))
    {
      var row := sys.runs[Canonical(run.runId)];
      row := row.(state := outcome, lease := None, hist := row.hist.(failures := row.hist.failures + 1));
      OutcomeRow(sys.runs[Canonical(run.runId)], index, sys.now, outcome);
      StoreNext(w, run, index, row, SetOutcome(outcome), FailEvent(outcome, resume), ok, pc);
    }

    /** The ticket branch of `executeTool`: insert into the ledger, then record which of the
        two happened. */
    method CommitTicket(w: nat, run: Exec, index: nat, ok: bool)
      requires Valid() && At(w, run, index, AtStep)
      requires TicketStep(run.cols.def, index) && SupportedSchema(run.cols.def.schemaVersion)
      modifies this`sys, this`trace, this`schedule
      ensures Valid() && old(trace) <= trace && (w in sys.workers ==> At(w, run, index, Advancing))
      ensures Lasts(w, 1, |old(schedule)|) && Spares(old(sys).stream)
    {
      var entry := (run.cols.tenant, EffectKey(run.runId, index));
      var result := Result(ToolResult, if entry in sys.ledger then TicketReplayed else TicketCommitted);
      InsertEffect(w, run, index, entry, result, ok);
      RecordLater(w, run, index, result);
    }

    /** The result insert as a statement of its own. */
    method RecordLater(w: nat, run: Exec, index: nat, result: Result)
      requires Valid() && At(w, run, index, Recording(result))
      modifies this`sys, this`trace, this`schedule
      ensures Valid() && old(trace) <= trace && (w in sys.workers ==> At(w, run, index, Advancing))
      ensures Lasts(w, 1, |old(schedule)|) && Spares(old(sys).stream)
    {
      var alive, answer := AwaitAt(w, run, index, Recording(result));
      if !alive { return; }
      RecordStep(w, run, index, result, answer, Recording(result), Advancing);
    }

    method InsertEffect(w: nat, run: Exec, index: nat, entry: (string, string), result: Result, ok: bool)
      requires Valid() && At(w, run, index, AtStep) && entry == (run.cols.tenant, EffectKey(run.runId, index))
      requires TicketStep(run.cols.def, index) && SupportedSchema(run.cols.def.schemaVersion)
      requires result == Result(ToolResult, Replayed(entry in sys.ledger))
      modifies this`sys, this`trace
      ensures Valid() && old(trace) <= trace && At(w, run, index, Recording(result))
      ensures sys.stream == old(sys).stream
      ensures sys == old(sys).(workers := sys.workers, ledger := if entry in old(sys).ledger then old(sys).ledger else old(sys).ledger[entry := Effect(Canonical(run.runId), index)])
    {
      ghost var before := sys;
      TicketEffect(sys, w, entry, result, ok);
      var worker := sys.workers[w];
      var ledger := if entry in sys.ledger then sys.ledger else sys.ledger[entry := Effect(Canonical(run.runId), index)];
      sys := sys.(ledger := ledger, workers := sys.workers[w := Executing(worker.msg, worker.exec.(pc := Recording(result)))]);
      Took(Stmt(w, ok), before);
    }

    /** `executeProviderModel`: consume the handle, call, and record or give up. */
    method ExecuteProviderModel(w: nat, run: Exec, index: nat, ok: bool)
      requires Valid() && At(w, run, index, AtStep)
      requires index < |run.cols.def.steps| && run.cols.def.steps[index] == Model(OpenAiCompatible)
      requires SupportedSchema(run.cols.def.schemaVersion)
      modifies this`sys, this`trace, this`schedule
      ensures Valid() && old(trace) <= trace && (w in sys.workers ==> At(w, run, index, Advancing))
      ensures Lasts(w, 3, |old(schedule)|) && Spares(old(sys).stream)
    {
      if !(ok && run.cols.handle.Some? && run.cols.handle.value in sys.broker) {
        Fail(w, run, index, Uncertain, true, ok, AtStep);
        return;
      }
      TakeCredential(w, run, index, ok);
      CallAndRecord(w, run, index);
    }

    method CallAndRecord(w: nat, run: Exec, index: nat)
      requires Valid() && At(w, run, index, CallingProvider)
      modifies this`sys, this`trace, this`schedule
      ensures Valid() && old(trace) <= trace && (w in sys.workers ==> At(w, run, index, Advancing))
      ensures Lasts(w, 3, |old(schedule)|) && Spares(old(sys).stream)
    {
      var alive, answer := AwaitAt(w, run, index, CallingProvider);
      if !alive { return; }
      Call(w, run, index, answer);
      if answer {
        RecordLater(w, run, index, Result(ModelResult, OpenAiModelLabel));
      } else {
        GiveUp(w, run, index);
      }
    }

    method GiveUp(w: nat, run: Exec, index: nat)
      requires Valid() && At(w, run, index, Failing(Uncertain))
      modifies this`sys, this`trace, this`schedule
      ensures Valid() && old(trace) <= trace && (w in sys.workers ==> At(w, run, index, Advancing))
      ensures Lasts(w, 2, |old(schedule)|) && Spares(old(sys).stream)
    {
      var alive, answer := AwaitAt(w, run, index, Failing(Uncertain));
      if !alive { return; }
      Fail(w, run, index, Uncertain, true, answer, Failing(Uncertain));
    }

    method Call(w: nat, run: Exec, index: nat, ok: bool)
      requires Valid() && At(w, run, index, CallingProvider)
      modifies this`sys, this`trace
      ensures Valid() && trace == old(trace) + [Stmt(w, ok)]
      ensures At(w, run, index, if ok then Recording(Result(ModelResult, OpenAiModelLabel)) else Failing(Uncertain))
      ensures sys.stream == old(sys).stream
      ensures var row := old(sys).runs[Canonical(run.runId)]; Rewrites(old(sys), run, row.(hist := row.hist.(providerCalls := row.hist.providerCalls + 1)))
    {
      var row := sys.runs[Canonical(run.runId)];
      var next := if ok then Recording(Result(ModelResult, OpenAiModelLabel)) else Failing(Uncertain);
      Store(w, run, index, row.(hist := row.hist.(providerCalls := row.hist.providerCalls + 1)), CallProvider, Some(next), ok, CallingProvider);
    }

    method TakeCredential(w: nat, run: Exec, index: nat, ok: bool)
      requires Valid() && At(w, run, index, AtStep) && ok && run.cols.handle.Some? && run.cols.handle.value in sys.broker
      requires index < |run.cols.def.steps| && run.cols.def.steps[index] == Model(OpenAiCompatible)
      requires SupportedSchema(run.cols.def.schemaVersion)
      modifies this`sys, this`trace
      ensures Valid() && old(trace) <= trace && At(w, run, index, CallingProvider)
      ensures sys.stream == old(sys).stream
      ensures sys == old(sys).(workers := sys.workers, broker := old(sys).broker - {run.cols.handle.value})
    {
      ghost var before := sys;
      CredentialEffect(sys, w, ok);
      var worker := sys.workers[w];
      sys := sys.(broker := sys.broker - {run.cols.handle.value},
                  workers := sys.workers[w := Executing(worker.msg, worker.exec.(pc := CallingProvider))]);
      Took(Stmt(w, ok), before);
    }

    /** Advance the stored step and renew the lease. */
    method AdvanceStep(w: nat, run: Exec, index: nat, ok: bool)
      requires Valid() && At(w, run, index, Advancing)
      modifies this`sys, this`trace
      ensures Valid() && At(w, run, index + 1, AtStep) && trace == old(trace) + [Stmt(w, ok)]
      ensures sys.stream == old(sys).stream
      ensures sys.workers[w].exec.until == sys.now + 30
      ensures Canonical(run.runId) in sys.runs && Rewrites(old(sys), run, sys.runs[Canonical(run.runId)])
      ensures var a, b := old(sys).runs[Canonical(run.runId)], sys.runs[Canonical(run.runId)];
              b.step == index + 1 && b.lease == Some(sys.now + 30) && b == a.(step := b.step, lease := b.lease, hist := b.hist)
    {
      var row := sys.runs[Canonical(run.runId)];
      var skipped := if index in row.results then {} else {index};
      row := row.(step := index + 1, lease := Some(sys.now + LEASE), hist := row.hist.(skipped := row.hist.skipped + skipped));
      StoreNext(w, run, index, row, Advance, AtStep, ok, Advancing);
    }

    /** The body of the step switch.  True means the loop goes on, which it also does after
        a failure that returned nil. */
    method ServeStep(w: nat, run: Exec, index: nat, ok: bool) returns (more: bool)
      requires Valid() && At(w, run, index, AtStep)
      requires index < |run.cols.def.steps| && SupportedSchema(run.cols.def.schemaVersion)
      modifies this`sys, this`trace, this`schedule
      ensures Valid() && old(trace) <= trace
      ensures more ==> At(w, run, index, Advancing)
      ensures !more ==> Returned(w)
      ensures Lasts(w, 3, |old(schedule)|) && Spares(old(sys).stream)
    {
      match run.cols.def.steps[index] {
      case Malformed =>
        Fail(w, run, index, Failed, false, ok, AtStep);
        return false;
      case Approval =>
        AwaitApproval(w, run, index, ok);
        return false;
      case Model(provider) =>
        if provider == MockProvider {
          RecordStep(w, run, index, Result(ModelResult, MockModelLabel), ok, AtStep, Advancing);
        } else if provider != OpenAiCompatible {
          Fail(w, run, index, Failed, true, ok, AtStep);
        } else {
          ExecuteProviderModel(w, run, index, ok);
        }
      case Transform(operation) =>
        if operation != ExtractJson && operation != Template {
          Fail(w, run, index, Failed, true, ok, AtStep);
        } else {
          RecordStep(w, run, index, Result(TransformResult, TransformLabel(operation)), ok, AtStep, Advancing);
        }
      case Tool(tool, _) =>
        ExecuteTool(w, run, index, tool, ok);
      case Unrecognised =>
        Fail(w, run, index, Failed, true, ok, AtStep);
      }
      more := w in sys.workers;
    }

    method ExecuteTool(w: nat, run: Exec, index: nat, tool: ToolName, ok: bool)
      requires Valid() && At(w, run, index, AtStep)
      requires index < |run.cols.def.steps| && SupportedSchema(run.cols.def.schemaVersion)
      requires run.cols.def.steps[index].Tool? && run.cols.def.steps[index].tool == tool
      modifies this`sys, this`trace, this`schedule
      ensures Valid() && old(trace) <= trace && (w in sys.workers ==> At(w, run, index, Advancing))
      ensures Lasts(w, 1, |old(schedule)|) && Spares(old(sys).stream)
    {
      match tool
      case DataRead => RecordStep(w, run, index, Result(ToolResult, DataReadLabel), ok, AtStep, Advancing);
      case TicketWrite => CommitTicket(w, run, index, ok);
      case HttpFetch =>
        if ok {
          RecordStep(w, run, index, Result(ToolResult, FetchLabel), ok, AtStep, Advancing);
        } else {
          Fail(w, run, index, Failed, true, ok, AtStep);
        }
      case OtherTool => Fail(w, run, index, Failed, true, ok, AtStep);
    }

    /** `execute`: from the leased step to the end, an approval, a failure that stops, or a
        crash.  However it ends, the history grew by steps of the system alone. */
    method Execute(w: nat, run: Exec)
      requires Valid() && At(w, run, run.index, AtStep)
      modifies this`sys, this`trace, this`schedule
      ensures Valid() && old(trace) <= trace && Returned(w)
      ensures Lasts(w, 2 + 5 * (if run.index <= |run.cols.def.steps| then |run.cols.def.steps| - run.index else 0), |old(schedule)|)
      ensures Spares(old(sys).stream)
    {
      var alive, ok := AwaitAt(w, run, run.index, AtStep);
      if !alive { return; }
      if !SupportedSchema(run.cols.def.schemaVersion) {
        Fail(w, run, run.index, Failed, false, ok, AtStep);
        return;
      }
      var index := run.index;
      while index < |run.cols.def.steps|
        invariant Valid() && At(w, run, index, AtStep) && old(trace) <= trace
        invariant Lasts(w, 1 + 5 * (index - run.index), |old(schedule)|) && Spares(old(sys).stream)
        invariant run.index <= index && (run.index <= |run.cols.def.steps| ==> index <= |run.cols.def.steps|)
        invariant |run.cols.def.steps| < run.index ==> index == run.index
        decreases |run.cols.def.steps| - index
      {
        alive, ok := Iterate(w, run, index, ok);
        if !alive { return; }
        index := index + 1;
      }
      Succeed(w, run, index, ok);
    }

    /** One pass through the loop: serve the step, advance, and get to the next. */
    method Iterate(w: nat, run: Exec, index: nat, ok: bool) returns (more: bool, answer: bool)
      requires Valid() && At(w, run, index, AtStep)
      requires index < |run.cols.def.steps| && SupportedSchema(run.cols.def.schemaVersion)
      modifies this`sys, this`trace, this`schedule
      ensures Valid() && old(trace) <= trace
      ensures if more then At(w, run, index + 1, AtStep) else Returned(w)
      ensures Lasts(w, 5, |old(schedule)|) && Spares(old(sys).stream)
    {
      answer := ok;
      more := ServeStep(w, run, index, ok);
      if !more { return; }
      more, answer := AwaitAt(w, run, index, Advancing);
      if !more { return; }
      AdvanceStep(w, run, index, answer);
      more, answer := AwaitAt(w, run, index + 1, AtStep);
    }

    method Succeed(w: nat, run: Exec, index: nat, ok: bool)
      requires Valid() && At(w, run, index, AtStep)
      requires |run.cols.def.steps| <= index && SupportedSchema(run.cols.def.schemaVersion)
      modifies this`sys, this`trace, this`schedule
      ensures Valid() && old(trace) <= trace && Returned(w)
      ensures Lasts(w, 1, |old(schedule)|) && Spares(old(sys).stream)
      ensures w in sys.workers ==> Canonical(run.runId) in sys.runs && SucceededEvent in sys.runs[Canonical(run.runId)].events
    {
      MarkSucceeded(w, run, index, ok);
      ReportSuccess(w, run, index);
    }

    method ReportSuccess(w: nat, run: Exec, index: nat)
      requires Valid() && At(w, run, index, SuccessEvent)
      modifies this`sys, this`trace, this`schedule
      ensures Valid() && old(trace) <= trace && Returned(w)
      ensures Lasts(w, 1, |old(schedule)|) && Spares(old(sys).stream)
      ensures w in sys.workers ==> Canonical(run.runId) in sys.runs && SucceededEvent in sys.runs[Canonical(run.runId)].events
    {
      var alive, answer := AwaitAt(w, run, index, SuccessEvent);
      if !alive { return; }
      InsertEvent(w, run, index, SucceededEvent, None, answer, SuccessEvent);
    }

    method MarkSucceeded(w: nat, run: Exec, index: nat, ok: bool)
      requires Valid() && At(w, run, index, AtStep)
      requires |run.cols.def.steps| <= index && SupportedSchema(run.cols.def.schemaVersion)
      modifies this`sys, this`trace
      ensures Valid() && trace == old(trace) + [Stmt(w, ok)] && At(w, run, index, SuccessEvent)
      ensures sys.stream == old(sys).stream
      ensures Rewrites(old(sys), run, old(sys).runs[Canonical(run.runId)].(state := Succeeded, lease := None))
    {
      var row := sys.runs[Canonical(run.runId)];
      Store(w, run, index, row.(state := Succeeded, lease := None), SetSucceeded, Some(SuccessEvent), ok, AtStep);
    }

    /** `claim`: one transaction, successful only on a queued run or an expired lease.  A
        message whose run identifier is no UUID is dropped without asking the database. */
    method ClaimRow(w: nat, msg: Message, valid: bool) returns (leased: Option<Exec>)
      requires Valid() && w in sys.workers && sys.workers[w] == Fetched(msg) && valid == IsUuid(msg.runId)
      modifies this`sys, this`trace
      ensures Valid() && trace == old(trace) + [Claim(w)] && w in sys.workers
      ensures held == msg ==> if leased.Some? then At(w, leased.value, leased.value.index, AtStep) else Returned(w)
      ensures leased.Some? <==> valid && Canonical(msg.runId) in old(sys).runs && Claimable(old(sys).runs[Canonical(msg.runId)], sys.now)
      ensures leased.Some? ==> leased.value.cols == old(sys).runs[Canonical(msg.runId)].cols
      ensures sys.stream == old(sys).stream
    {
      var id := Canonical(msg.runId);
      if valid && id in sys.runs && (sys.runs[id].state == Queued ||
                            (sys.runs[id].state in {Leased, Running} && sys.runs[id].lease.Some? && sys.runs[id].lease.value < sys.now)) {
        var exec := LeaseRow(w, msg, id);
        leased := Some(exec);
      } else {
        DropMessage(w, msg);
        leased := None;
      }
    }

    method DropMessage(w: nat, msg: Message)
      requires Valid() && w in sys.workers && sys.workers[w] == Fetched(msg) && !Claims(sys, w)
      modifies this`sys, this`trace
      ensures Valid() && trace == old(trace) + [Claim(w)] && sys == old(sys).(workers := old(sys).workers[w := Finished(msg)])
      ensures sys.stream == old(sys).stream
    {
      ghost var before := sys;
      sys := sys.(workers := sys.workers[w := Finished(msg)]);
      ClaimEffect(before, w);
      Took(Claim(w), before);
    }

    method LeaseRow(w: nat, msg: Message, id: string) returns (exec: Exec)
      requires Valid() && Claims(sys, w) && sys.workers[w].msg == msg && id == Canonical(msg.runId)
      modifies this`sys, this`trace
      ensures Valid() && trace == old(trace) + [Claim(w)] && sys.now == old(sys).now
      ensures w in sys.workers && sys.workers[w] == Executing(msg, exec) && OnRun(sys, w)
      ensures exec.runId == msg.runId && exec.index == old(sys).runs[id].step && exec.pc == AtStep && exec.cols == old(sys).runs[id].cols
      ensures sys.stream == old(sys).stream
      ensures exec.until == sys.now + 30
      ensures var row := old(sys).runs[id];
              sys == old(sys).(workers := sys.workers,
                               runs := old(sys).runs[id := row.(state := Running, lease := Some(sys.now + 30), attempts := row.attempts + 1,
                                                                events := row.events + [LeasedEvent, Started])])
    {
      LeasedRow(sys, w, id);
      var row := sys.runs[id];
      exec := Exec(msg.runId, row.cols, row.step, AtStep, sys.now + LEASE);
      row := row.(state := Running, lease := Some(sys.now + LEASE), attempts := row.attempts + 1,
                  events := row.events + [LeasedEvent, Started]);
      Put(w, id, row, Executing(msg, exec), Claim(w));
    }

    /** One delivery from receipt to ack or nak: the message is acknowledged when `process`
        returned nil or the message was invalid, and stays in the stream otherwise. */
    method HandleDelivery(w: nat, msg: Message) returns (acked: bool)
      requires Valid() && w in sys.workers && sys.workers[w] == Fetched(msg)
      modifies this
      ensures Valid() && old(trace) <= trace && w !in sys.workers
      ensures acked ==> msg !in sys.stream && trace[|trace| - 1] == Ack(w)
      ensures !acked && quiet && msg in old(sys).stream ==> msg in sys.stream
      ensures Canonical(msg.runId) in old(sys).runs && |old(schedule)| >= 4 + 5 * |old(sys).runs[Canonical(msg.runId)].cols.def.steps| ==> acked
    {
      held := msg;
      var alive, ok := Await(w);
      if !alive { return false; }
      Process(w, msg);
      if w !in sys.workers { return false; }
      alive, ok := Await(w);
      if !alive { return false; }
      Acknowledge(w, msg);
      return true;
    }

    /** `process`: claim and, if something was leased, execute. */
    method Process(w: nat, msg: Message)
      requires Valid() && w in sys.workers && sys.workers[w] == Fetched(msg) && held == msg
      modifies this`sys, this`trace, this`schedule
      ensures Valid() && old(trace) <= trace && Returned(w)
      ensures Canonical(msg.runId) in old(sys).runs ==> Lasts(w, 2 + 5 * |old(sys).runs[Canonical(msg.runId)].cols.def.steps|, |old(schedule)|)
      ensures Spares(old(sys).stream)
    {
      var valid := CheckUuid(msg.runId);
      var leased := ClaimRow(w, msg, valid);
      if leased.Some? {
        Execute(w, leased.value);
      }
    }

    method Acknowledge(w: nat, msg: Message)
      requires Valid() && w in sys.workers && sys.workers[w] == Finished(msg)
      modifies this`sys, this`trace
      ensures Valid() && trace == old(trace) + [Ack(w)] && w !in sys.workers && msg !in sys.stream
    {
      ghost var before := sys;
      sys := sys.(stream := sys.stream - {msg}, workers := sys.workers - {w});
      Took(Ack(w), before);
    }
  }

  /** What somebody else's step leaves of this process, the runs and the stream. */
  lemma OneMoves(s: Sys, l: Label, w: nat)
    requires !Mine(l, w)
    ensures var s' := Next(s, l, Unfenced);
            && (w in s.workers <==> w in s'.workers) && (w in s.workers ==> s'.workers[w] == s.workers[w])
            && RunsExtend(s.runs, s'.runs) && (!l.Ack? ==> s.stream <= s'.stream)
  {
    if Enabled(s, l) {
      Immutable(s, l);
      Untouched(s, l, w);
      OnlyAcksRemove(s, l);
    }
  }

  lemma Untouched(s: Sys, l: Label, w: nat)
    requires Enabled(s, l) && !Mine(l, w)
    ensures w in s.workers <==> w in WorkersAfter(s, l)
    ensures w in s.workers ==> WorkersAfter(s, l)[w] == s.workers[w]
  {
  }

  lemma OnlyAcksRemove(s: Sys, l: Label)
    requires Enabled(s, l)
    ensures !l.Ack? ==> s.stream <= StreamAfter(s, l)
  {
  }

  /** What one claim changes, and nothing else. */
  lemma ClaimEffect(s: Sys, w: nat)
    requires w in s.workers && s.workers[w].Fetched?
    ensures var msg := s.workers[w].msg; var id := Canonical(msg.runId);
            Next(s, Claim(w), Unfenced) ==
              if Claims(s, w) then
                s.(runs := s.runs[id := ClaimRun(s.runs[id], s.now)], workers := s.workers[w := Executing(msg, Lease(s, w))])
              else s.(workers := s.workers[w := Finished(msg)])
  {
  }

  lemma RowEffect(s: Sys, w: nat, ok: bool, action: Action, next: Option<Pc>)
    requires OnRun(s, w) && MoveOf(s, w, ok) == Move(action, next) && !action.CommitEffect? && !action.ConsumeCredential?
    ensures var e, msg := s.workers[w].exec, s.workers[w].msg; var id := Canonical(e.runId);
            var after := if next.Some? then Executing(msg, Forward(e, s.now, Move(action, next))) else Finished(msg);
            Next(s, Stmt(w, ok), Unfenced) ==
            s.(workers := s.workers[w := after], runs := s.runs[id := Write(s.runs[id], e.index, s.now, action)])
    ensures next.Some? ==> OnRun(Next(s, Stmt(w, ok), Unfenced), w)
  {
    StatementEffect(s, w, ok);
  }

  lemma OutcomeRow(row: Run, index: nat, now: nat, outcome: RunState)
    ensures Write(row, index, now, SetOutcome(outcome)) ==
            row.(state := outcome, lease := None, hist := row.hist.(failures := row.hist.failures + 1))
  {
  }

  lemma LeasedRow(s: Sys, w: nat, id: string)
    requires Claims(s, w) && id == Canonical(s.workers[w].msg.runId)
    ensures var row := s.runs[id]; var exec := Exec(s.workers[w].msg.runId, row.cols, row.step, AtStep, s.now + 30);
            Next(s, Claim(w), Unfenced) ==
            s.(workers := s.workers[w := Executing(s.workers[w].msg, exec)],
               runs := s.runs[id := row.(state := Running, lease := Some(s.now + 30), attempts := row.attempts + 1,
                                         events := row.events + [LeasedEvent, Started])])
  {
    ClaimEffect(s, w);
  }

  lemma CredentialEffect(s: Sys, w: nat, ok: bool)
    requires OnRun(s, w) && s.workers[w].exec.pc == AtStep && ok
    requires var e := s.workers[w].exec;
             && e.index < |e.cols.def.steps| && e.cols.def.steps[e.index] == Model(OpenAiCompatible)
             && SupportedSchema(e.cols.def.schemaVersion) && e.cols.handle.Some? && e.cols.handle.value in s.broker
    ensures var e := s.workers[w].exec;
            Next(s, Stmt(w, ok), Unfenced) ==
            s.(broker := s.broker - {e.cols.handle.value},
               workers := s.workers[w := Executing(s.workers[w].msg, e.(pc := CallingProvider))])
  {
    StatementEffect(s, w, ok);
  }

  lemma TicketEffect(s: Sys, w: nat, entry: (string, string), result: Result, ok: bool)
    requires OnRun(s, w) && s.workers[w].exec.pc == AtStep
    requires var e := s.workers[w].exec;
             && entry == (e.cols.tenant, EffectKey(e.runId, e.index)) && result == Result(ToolResult, Replayed(entry in s.ledger))
             && TicketStep(e.cols.def, e.index) && SupportedSchema(e.cols.def.schemaVersion)
    ensures var e := s.workers[w].exec;
            Next(s, Stmt(w, ok), Unfenced) ==
            s.(ledger := if entry in s.ledger then s.ledger else s.ledger[entry := Effect(Canonical(e.runId), e.index)],
               workers := s.workers[w := Executing(s.workers[w].msg, e.(pc := Recording(result)))])
  {
    StatementEffect(s, w, ok);
  }

  /** What one statement changes, and nothing else. */
  lemma StatementEffect(s: Sys, w: nat, ok: bool)
    requires OnRun(s, w)
    ensures var e, msg, move := s.workers[w].exec, s.workers[w].msg, MoveOf(s, w, ok); var id := Canonical(e.runId);
            var after := if move.next.Some? then Executing(msg, Forward(e, s.now, move)) else Finished(msg);
            Next(s, Stmt(w, ok), Unfenced) ==
              if move.action.CommitEffect? then
                s.(workers := s.workers[w := after],
                   ledger := if Entry(e) in s.ledger then s.ledger else s.ledger[Entry(e) := Effect(id, e.index)])
              else if move.action.ConsumeCredential? then
                s.(workers := s.workers[w := after], broker := s.broker - Held(e))
              else
                s.(workers := s.workers[w := after], runs := s.runs[id := Write(s.runs[id], e.index, s.now, move.action)])
  {
    var e := s.workers[w].exec;
    var id := Canonical(e.runId);
    assert s.runs[id := s.runs[id]] == s.runs;
  }
}
