/** The provider is called at most once per run over its whole history. */
module Provider {
  import opened Contracts
  import opened Runtime
  import opened Structure

  predicate Calling(worker: Worker) {
    worker.Executing? && worker.exec.pc.CallingProvider?
  }

  predicate NoCaller(workers: map<nat, Worker>, r: string) {
    forall w :: w in workers && Calling(workers[w]) ==> workers[w].exec.runId != r
  }

  /** Every handle in use was issued, so a later issue cannot bring it back. */
  predicate HandlesIssued(s: Sys) {
    && s.broker <= s.issued
    && (forall r :: r in s.runs && s.runs[r].cols.handle.Some? ==> s.runs[r].cols.handle.value in s.issued)
    && (forall q :: q in s.requests && s.requests[q].handle.Some? ==> s.requests[q].handle.value in s.issued)
  }

  /** A handle belongs to one run. */
  predicate HandlesUnique(runs: map<string, Run>) {
    forall r, t :: r in runs && t in runs && runs[r].cols.handle.Some? && runs[r].cols.handle == runs[t].cols.handle ==> r == t
  }

  /** The credential is in the broker, or with the one caller, or spent. */
  predicate TokenOk(run: Run, id: string, broker: set<string>, workers: map<nat, Worker>) {
    && run.hist.providerCalls <= (if run.cols.handle.Some? then 1 else 0)
    && (run.cols.handle.Some? && run.cols.handle.value in broker ==> run.hist.providerCalls == 0 && NoCaller(workers, id))
    && (run.hist.providerCalls == 1 ==> NoCaller(workers, id))
  }

  predicate Tokens(runs: map<string, Run>, broker: set<string>, workers: map<nat, Worker>) {
    forall r :: r in runs ==> TokenOk(runs[r], r, broker, workers)
  }

  predicate OneCaller(workers: map<nat, Worker>) {
    forall v, w | v in workers && w in workers && Calling(workers[v]) && Calling(workers[w]) ::
      workers[v].exec.runId == workers[w].exec.runId ==> v == w
  }

  predicate Guarded(s: Sys) {
    && Structured(s) && HandlesIssued(s) && HandlesUnique(s.runs)
    && Tokens(s.runs, s.broker, s.workers) && OneCaller(s.workers)
  }

  lemma HandlesStay(s: Sys, l: Label)
    requires Guarded(s) && Enabled(s, l)
    ensures HandlesIssued(Apply(s, l))
  {
    RunHandlesStay(s, l);
    RequestHandlesStay(s, l);
  }

  lemma RunHandlesStay(s: Sys, l: Label)
    requires HandlesIssued(s) && Enabled(s, l)
    ensures forall r :: r in RunsAfter(s, l) && RunsAfter(s, l)[r].cols.handle.Some? ==> RunsAfter(s, l)[r].cols.handle.value in s.issued
  {
    Immutable(s, l);
    forall r | r in RunsAfter(s, l) && RunsAfter(s, l)[r].cols.handle.Some?
      ensures RunsAfter(s, l)[r].cols.handle.value in s.issued
    {
      if r !in s.runs {
        assert l.CommitCreate? && l.id == r;
      }
    }
  }

  lemma RequestHandlesStay(s: Sys, l: Label)
    requires HandlesIssued(s) && Enabled(s, l)
    ensures forall q :: q in RequestsAfter(s, l) && RequestsAfter(s, l)[q].handle.Some? ==> RequestsAfter(s, l)[q].handle.value in s.issued
  {
  }

  lemma UniqueStays(s: Sys, l: Label)
    requires Guarded(s) && Enabled(s, l)
    ensures HandlesUnique(RunsAfter(s, l))
  {
    if l.CommitCreate? && Inserts(s, l.request) {
      InsertUnique(s.runs, l.id, NewRun(s, l.request));
    } else {
      Immutable(s, l);
      OnlyInsertsAdd(s, l);
      SameHandles(s.runs, RunsAfter(s, l));
    }
  }

  lemma OnlyInsertsAdd(s: Sys, l: Label)
    requires Enabled(s, l) && !(l.CommitCreate? && Inserts(s, l.request))
    ensures RunsAfter(s, l).Keys == s.runs.Keys
  {
  }

  lemma InsertUnique(runs: map<string, Run>, id: string, run: Run)
    requires HandlesUnique(runs) && id !in runs && !Taken(runs, run.cols.handle)
    ensures HandlesUnique(runs[id := run])
  {
  }

  lemma SameHandles(a: map<string, Run>, b: map<string, Run>)
    requires HandlesUnique(a) && RunsExtend(a, b) && a.Keys == b.Keys
    ensures HandlesUnique(b)
  {
  }

  /** Only a successful consume makes a caller, and only the call unmakes one. */
  lemma CallerAfter(s: Sys, l: Label, w: nat)
    requires Structured(s) && Enabled(s, l) && w in WorkersAfter(s, l) && Calling(WorkersAfter(s, l)[w])
    ensures (w in s.workers && Calling(s.workers[w]) && s.workers[w].exec.runId == WorkersAfter(s, l)[w].exec.runId) ||
            (l.Stmt? && l.worker == w && Consumes(s, w, l.ok) && s.workers[w].exec.runId == WorkersAfter(s, l)[w].exec.runId)
  {
    if l.Stmt? && l.worker == w {
      var e := s.workers[w].exec;
      OnlyConsumeLeadsToCall(e, l.ok, e.cols.handle.Some? && e.cols.handle.value in s.broker, Entry(e) in s.ledger);
    }
  }

  lemma OnlyConsumeLeadsToCall(e: Exec, ok: bool, held: bool, present: bool)
    ensures Plan(e, ok, held, present).next == Some(CallingProvider) ==> Plan(e, ok, held, present).action.ConsumeCredential?
  {
  }

  predicate Consumes(s: Sys, w: nat, ok: bool) {
    OnRun(s, w) && MoveOf(s, w, ok).action.ConsumeCredential?
  }

  lemma ConsumeTakesToken(s: Sys, w: nat, ok: bool)
    requires Guarded(s) && Consumes(s, w, ok)
    ensures var e := s.workers[w].exec;
            && e.runId in s.runs && e.cols == s.runs[e.runId].cols && e.cols.handle.Some? && e.cols.handle.value in s.broker
            && s.runs[e.runId].hist.providerCalls == 0 && NoCaller(s.workers, e.runId)
  {
    var e := s.workers[w].exec;
    assert WorkerOk(s.runs, s.outbox, s.workers[w]);
    ConsumeNeedsToken(e, ok, e.cols.handle.Some? && e.cols.handle.value in s.broker, Entry(e) in s.ledger);
    assert TokenOk(s.runs[e.runId], e.runId, s.broker, s.workers);
  }

  lemma ConsumeNeedsToken(e: Exec, ok: bool, held: bool, present: bool)
    ensures Plan(e, ok, held, present).action.ConsumeCredential? ==> held
  {
  }

  lemma OneCallerStays(s: Sys, l: Label)
    requires Guarded(s) && Enabled(s, l)
    ensures OneCaller(WorkersAfter(s, l))
  {
    var after := WorkersAfter(s, l);
    forall v, w | v in after && w in after && Calling(after[v]) && Calling(after[w]) && after[v].exec.runId == after[w].exec.runId
      ensures v == w
    {
      CallerAfter(s, l, v);
      CallerAfter(s, l, w);
      if l.Stmt? && Consumes(s, l.worker, l.ok) {
        ConsumeTakesToken(s, l.worker, l.ok);
      }
    }
  }

  lemma NoCallerStays(s: Sys, l: Label, r: string)
    requires Guarded(s) && Enabled(s, l) && NoCaller(s.workers, r)
    requires !(l.Stmt? && Consumes(s, l.worker, l.ok) && s.workers[l.worker].exec.runId == r)
    ensures NoCaller(WorkersAfter(s, l), r)
  {
    forall w | w in WorkersAfter(s, l) && Calling(WorkersAfter(s, l)[w]) ensures WorkersAfter(s, l)[w].exec.runId != r {
      CallerAfter(s, l, w);
    }
  }

  /** How the call count of one run changes. */
  lemma CallsAfter(s: Sys, l: Label, r: string)
    requires Structured(s) && Enabled(s, l) && r in s.runs
    ensures r in RunsAfter(s, l) && RunsAfter(s, l)[r].cols == s.runs[r].cols
    ensures RunsAfter(s, l)[r].hist.providerCalls == s.runs[r].hist.providerCalls ||
            (l.Stmt? && Calling(s.workers[l.worker]) && s.workers[l.worker].exec.runId == r &&
             RunsAfter(s, l)[r].hist.providerCalls == s.runs[r].hist.providerCalls + 1)
  {
    if l.Stmt? {
      StatementRow(s, l.worker, l.ok, r);
      var e := s.workers[l.worker].exec;
      WriteCalls(s.runs[r], e.index, s.now, MoveOf(s, l.worker, l.ok).action);
      OnlyCallersCall(e, l.ok, e.cols.handle.Some? && e.cols.handle.value in s.broker, Entry(e) in s.ledger);
    } else {
      OtherRow(s, l, r);
    }
  }

  lemma WriteCalls(run: Run, index: nat, now: nat, action: Action)
    ensures Write(run, index, now, action).cols == run.cols
    ensures Write(run, index, now, action).hist.providerCalls == run.hist.providerCalls + if action.CallProvider? then 1 else 0
  {
  }

  lemma OnlyCallersCall(e: Exec, ok: bool, held: bool, present: bool)
    ensures Plan(e, ok, held, present).action.CallProvider? <==> e.pc.CallingProvider?
    ensures e.pc.CallingProvider? ==> Plan(e, ok, held, present).next.Some? && !Plan(e, ok, held, present).next.value.CallingProvider?
  {
  }

  /** The call itself: the only caller leaves, and the token is spent. */
  lemma CallSpends(s: Sys, w: nat, ok: bool, r: string)
    requires Guarded(s) && Enabled(s, Stmt(w, ok)) && Calling(s.workers[w]) && s.workers[w].exec.runId == r && r in s.runs
    ensures s.runs[r].hist.providerCalls == 0 && NoCaller(WorkersAfter(s, Stmt(w, ok)), r)
    ensures s.runs[r].cols.handle.Some? && s.runs[r].cols.handle.value !in s.broker
    ensures BrokerAfter(s, Stmt(w, ok)) <= s.broker
  {
    TokenWithCaller(s, w, r);
    CallerLeaves(s, w, ok, r);
    BrokerShrinks(s, w, ok);
  }

  lemma BrokerShrinks(s: Sys, w: nat, ok: bool)
    requires Enabled(s, Stmt(w, ok))
    ensures BrokerAfter(s, Stmt(w, ok)) <= s.broker
  {
  }

  lemma CallerLeaves(s: Sys, w: nat, ok: bool, r: string)
    requires Structured(s) && OneCaller(s.workers) && Enabled(s, Stmt(w, ok)) && Calling(s.workers[w]) && s.workers[w].exec.runId == r
    ensures NoCaller(WorkersAfter(s, Stmt(w, ok)), r)
  {
    var e := s.workers[w].exec;
    OnlyCallersCall(e, ok, e.cols.handle.Some? && e.cols.handle.value in s.broker, Entry(e) in s.ledger);
    forall v | v in WorkersAfter(s, Stmt(w, ok)) && Calling(WorkersAfter(s, Stmt(w, ok))[v])
      ensures WorkersAfter(s, Stmt(w, ok))[v].exec.runId != r
    {
      CallerAfter(s, Stmt(w, ok), v);
    }
  }

  lemma TokenWithCaller(s: Sys, w: nat, r: string)
    requires Guarded(s) && w in s.workers && Calling(s.workers[w]) && s.workers[w].exec.runId == r && r in s.runs
    ensures s.runs[r].hist.providerCalls == 0 && s.runs[r].cols.handle.Some? && s.runs[r].cols.handle.value !in s.broker
  {
    assert TokenOk(s.runs[r], r, s.broker, s.workers) && WorkerOk(s.runs, s.outbox, s.workers[w]);
  }

  lemma BrokerNewHandles(s: Sys, l: Label, h: string)
    requires Enabled(s, l) && h in BrokerAfter(s, l)
    ensures h in s.broker || l == Issue(h)
  {
  }

  lemma TokenStays(s: Sys, l: Label, r: string)
    requires Guarded(s) && Enabled(s, l) && r in s.runs
    ensures r in RunsAfter(s, l) && TokenOk(RunsAfter(s, l)[r], r, BrokerAfter(s, l), WorkersAfter(s, l))
  {
    assert TokenOk(s.runs[r], r, s.broker, s.workers);
    CallsAfter(s, l, r);
    if s.runs[r].cols.handle.Some? && s.runs[r].cols.handle.value in BrokerAfter(s, l) {
      BrokerNewHandles(s, l, s.runs[r].cols.handle.value);
    }
    if l.Stmt? && Calling(s.workers[l.worker]) && s.workers[l.worker].exec.runId == r {
      CallSpends(s, l.worker, l.ok, r);
    } else if l.Stmt? && Consumes(s, l.worker, l.ok) && s.workers[l.worker].exec.runId == r {
      ConsumeTakesToken(s, l.worker, l.ok);
    } else if NoCaller(s.workers, r) {
      NoCallerStays(s, l, r);
    }
  }

  lemma NewToken(s: Sys, l: Label, r: string)
    requires Guarded(s) && Enabled(s, l) && r in RunsAfter(s, l) && r !in s.runs
    ensures TokenOk(RunsAfter(s, l)[r], r, BrokerAfter(s, l), WorkersAfter(s, l))
  {
    assert l.CommitCreate? && l.id == r && WorkersAfter(s, l) == s.workers;
    forall w | w in s.workers && Calling(s.workers[w]) ensures s.workers[w].exec.runId != r {
      assert WorkerOk(s.runs, s.outbox, s.workers[w]);
    }
  }

  lemma {:induction false} GuardedAlways(s: Sys, labels: seq<Label>, regime: Regime)
    requires Guarded(s)
    ensures Guarded(Reach(s, labels, regime))
  {
    if labels != [] {
      var before, l := Reach(s, labels[..|labels| - 1], regime), labels[|labels| - 1];
      GuardedAlways(s, labels[..|labels| - 1], regime);
      StructuredStep(before, l, regime);
      if Possible(before, l, regime) {
        HandlesStay(before, l);
        UniqueStays(before, l);
        OneCallerStays(before, l);
        forall r | r in RunsAfter(before, l) ensures TokenOk(RunsAfter(before, l)[r], r, BrokerAfter(before, l), WorkersAfter(before, l)) {
          if r in before.runs {
            TokenStays(before, l, r);
          } else {
            NewToken(before, l, r);
          }
        }
      }
    }
  }

  /** Whatever the retries, lease handoffs and stale executors, a run's history holds at
      most one provider call, a run without a handle makes none, and no two runs share a
      handle. */
  lemma ProviderCalledAtMostOnce(s: Sys, labels: seq<Label>, regime: Regime, r: string)
    requires Init(s) && r in Reach(s, labels, regime).runs
    ensures var s' := Reach(s, labels, regime);
            && s'.runs[r].hist.providerCalls <= (if s'.runs[r].cols.handle.Some? then 1 else 0)
            && (forall t :: t in s'.runs && t != r && s'.runs[r].cols.handle.Some? ==> s'.runs[t].cols.handle != s'.runs[r].cols.handle)
            && (s'.runs[r].cols.handle.Some? && s'.runs[r].cols.handle.value in s'.broker ==> s'.runs[r].hist.providerCalls == 0)
  {
    GuardedAlways(s, labels, regime);
    var s' := Reach(s, labels, regime);
    assert TokenOk(s'.runs[r], r, s'.broker, s'.workers);
  }
}
