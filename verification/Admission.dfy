/** Creating runs: idempotency under races, and the two tenant quotas. */
module Admission {
  import opened Contracts
  import opened Keys
  import opened Runtime
  import opened Structure

  /******* Racing creates *******/

  /** The unique index and the rows name each other. */
  ghost predicate KeysOk(runs: map<string, Run>, keys: map<(string, string), string>) {
    && (forall k :: k in keys ==> keys[k] in runs && k == (runs[keys[k]].cols.tenant, runs[keys[k]].cols.key))
    && (forall r :: r in runs ==> (runs[r].cols.tenant, runs[r].cols.key) in keys && keys[(runs[r].cols.tenant, runs[r].cols.key)] == r)
  }

  /** A reply names the run of its key, and says it is new only to the run's creator. */
  predicate ReplyOk(runs: map<string, Run>, keys: map<(string, string), string>, q: nat, req: Request) {
    req.phase.Replied? ==>
      && (req.tenant, req.key) in keys && keys[(req.tenant, req.key)] == req.phase.run
      && (!req.phase.replayed ==> req.phase.run in runs && runs[req.phase.run].cols.creator == q)
  }

  predicate RepliesOk(runs: map<string, Run>, keys: map<(string, string), string>, requests: map<nat, Request>) {
    forall q :: q in requests ==> ReplyOk(runs, keys, q, requests[q])
  }

  predicate CreatorOk(requests: map<nat, Request>, r: string, run: Run) {
    && run.cols.creator in requests
    && requests[run.cols.creator].phase == Replied(r, false)
    && requests[run.cols.creator].tenant == run.cols.tenant && requests[run.cols.creator].key == run.cols.key
  }

  predicate CreatorsOk(runs: map<string, Run>, requests: map<nat, Request>) {
    forall r :: r in runs ==> CreatorOk(requests, r, runs[r])
  }

  ghost predicate Admitted(s: Sys) {
    Structured(s) && KeysOk(s.runs, s.keys) && RepliesOk(s.runs, s.keys, s.requests) && CreatorsOk(s.runs, s.requests)
  }

  /** Only an inserting commit adds a row; every other label keeps the set of runs. */
  lemma OnlyInsertAdds(s: Sys, l: Label)
    requires Enabled(s, l)
    ensures if l.CommitCreate? && Inserts(s, l.request) then RunsAfter(s, l) == s.runs[l.id := NewRun(s, l.request)]
            else RunsAfter(s, l).Keys == s.runs.Keys
  {
  }

  lemma InsertKeepsKeys(s: Sys, q: nat, id: string)
    requires KeysOk(s.runs, s.keys) && Inserts(s, q) && id !in s.runs
    ensures KeysOk(s.runs[id := NewRun(s, q)], s.keys[(s.requests[q].tenant, s.requests[q].key) := id])
  {
    var req := s.requests[q];
    assert forall r :: r in s.runs ==> (s.runs[r].cols.tenant, s.runs[r].cols.key) != (req.tenant, req.key);
  }

  lemma SameColumnsSameKeys(a: map<string, Run>, b: map<string, Run>, keys: map<(string, string), string>)
    requires KeysOk(a, keys) && a.Keys == b.Keys && RunsExtend(a, b)
    ensures KeysOk(b, keys)
  {
  }

  lemma KeysStay(s: Sys, l: Label)
    requires Admitted(s) && Enabled(s, l)
    ensures KeysOk(RunsAfter(s, l), KeysAfter(s, l))
  {
    OnlyInsertAdds(s, l);
    if l.CommitCreate? && Inserts(s, l.request) {
      InsertKeepsKeys(s, l.request, l.id);
    } else {
      Immutable(s, l);
      SameColumnsSameKeys(s.runs, RunsAfter(s, l), s.keys);
    }
  }

  lemma KeysGrow(s: Sys, l: Label)
    requires Enabled(s, l)
    ensures forall k :: k in s.keys ==> k in KeysAfter(s, l) && KeysAfter(s, l)[k] == s.keys[k]
  {
  }

  lemma CommitReplies(s: Sys, q: nat, id: string)
    requires Enabled(s, CommitCreate(q, id))
    ensures var l := CommitCreate(q, id);
            ReplyOk(RunsAfter(s, l), KeysAfter(s, l), q, RequestsAfter(s, l)[q])
  {
  }

  lemma RepliesStay(s: Sys, l: Label)
    requires Admitted(s) && Enabled(s, l)
    ensures RepliesOk(RunsAfter(s, l), KeysAfter(s, l), RequestsAfter(s, l))
  {
    forall q | q in RequestsAfter(s, l) ensures ReplyOk(RunsAfter(s, l), KeysAfter(s, l), q, RequestsAfter(s, l)[q]) {
      if l.CommitCreate? && l.request == q {
        CommitReplies(s, q, l.id);
      } else if q in s.requests {
        Immutable(s, l);
        KeysGrow(s, l);
        assert ReplyOk(s.runs, s.keys, q, s.requests[q]);
      }
    }
  }

  lemma CreatorsStay(s: Sys, l: Label)
    requires Admitted(s) && Enabled(s, l)
    ensures CreatorsOk(RunsAfter(s, l), RequestsAfter(s, l))
  {
    OnlyInsertAdds(s, l);
    forall r | r in RunsAfter(s, l) ensures CreatorOk(RequestsAfter(s, l), r, RunsAfter(s, l)[r]) {
      if r in s.runs {
        Immutable(s, l);
        assert CreatorOk(s.requests, r, s.runs[r]);
        CreatorStays(s, l, r);
      }
    }
  }

  lemma CreatorStays(s: Sys, l: Label, r: string)
    requires Enabled(s, l) && r in s.runs && CreatorOk(s.requests, r, s.runs[r])
    ensures CreatorOk(RequestsAfter(s, l), r, s.runs[r])
  {
  }

  lemma {:induction false} AdmittedAlways(s: Sys, labels: seq<Label>, regime: Regime)
    requires Admitted(s)
    ensures Admitted(Reach(s, labels, regime))
  {
    if labels != [] {
      var before, l := Reach(s, labels[..|labels| - 1], regime), labels[|labels| - 1];
      AdmittedAlways(s, labels[..|labels| - 1], regime);
      StructuredStep(before, l, regime);
      if Possible(before, l, regime) {
        KeysStay(before, l);
        RepliesStay(before, l);
        CreatorsStay(before, l);
      }
    }
  }

  /** Two successful answers to one (tenant, key), however their lookups and commits
      interleaved, name the same run; exactly one request was told the run is new. */
  lemma RacingCreatesAgree(s: Sys, labels: seq<Label>, regime: Regime, p: nat, q: nat) returns (creator: nat)
    requires Init(s)
    requires var s' := Reach(s, labels, regime); p in s'.requests && q in s'.requests
    requires var s' := Reach(s, labels, regime);
             && s'.requests[p].phase.Replied? && s'.requests[q].phase.Replied?
             && (s'.requests[p].tenant, s'.requests[p].key) == (s'.requests[q].tenant, s'.requests[q].key)
    ensures var s' := Reach(s, labels, regime);
            && s'.requests[p].phase.run == s'.requests[q].phase.run
            && s'.requests[p].phase.run in s'.runs
            && creator in s'.requests && s'.requests[creator].phase == Replied(s'.requests[p].phase.run, false)
            && (s'.requests[creator].tenant, s'.requests[creator].key) == (s'.requests[p].tenant, s'.requests[p].key)
            && (!s'.requests[p].phase.replayed <==> p == creator)
            && (!s'.requests[q].phase.replayed <==> q == creator)
            && (!s'.requests[p].phase.replayed && !s'.requests[q].phase.replayed ==> p == q)
  {
    AdmittedAlways(s, labels, regime);
    var s' := Reach(s, labels, regime);
    assert ReplyOk(s'.runs, s'.keys, p, s'.requests[p]) && ReplyOk(s'.runs, s'.keys, q, s'.requests[q]);
    var r := s'.requests[p].phase.run;
    assert CreatorOk(s'.requests, r, s'.runs[r]);
    creator := s'.runs[r].cols.creator;
  }

  /** At most one run per (tenant, key), with one created event. */
  lemma OneRunPerKey(s: Sys, labels: seq<Label>, regime: Regime, a: string, b: string)
    requires Init(s) && a in Reach(s, labels, regime).runs && b in Reach(s, labels, regime).runs
    requires var runs := Reach(s, labels, regime).runs;
             runs[a].cols.tenant == runs[b].cols.tenant && runs[a].cols.key == runs[b].cols.key
    ensures a == b && multiset(Reach(s, labels, regime).runs[a].events)[Created] == 1
  {
    AdmittedAlways(s, labels, regime);
    assert RunOk(Reach(s, labels, regime).runs[a]);
  }

  /******* The decision *******/

  /** The tenant's runs that count against `max_active_runs`. */
  function Occupying(runs: map<string, Run>, tenant: string): set<string> {
    set r | r in runs && runs[r].cols.tenant == tenant && runs[r].state in {Queued, Leased, Running, AwaitingApproval}
  }

  /** The tenant's runs created on the day of `started`, counted in UTC days, or later. */
  function SinceThatDay(runs: map<string, Run>, tenant: string, started: nat): set<string> {
    set r | r in runs && runs[r].cols.tenant == tenant && runs[r].cols.created / 86400 >= started / 86400
  }

  lemma DayLine(created: nat, started: nat)
    ensures DayStart(started) <= created <==> created / 86400 >= started / 86400
  {
  }

  lemma CountedRuns(runs: map<string, Run>, tenant: string, started: nat)
    ensures ActiveRuns(runs, tenant) == Occupying(runs, tenant)
    ensures CreatedSince(runs, tenant, DayStart(started)) == SinceThatDay(runs, tenant, started)
  {
    forall r | r in runs ensures DayStart(started) <= runs[r].cols.created <==> runs[r].cols.created / 86400 >= started / 86400 {
      DayLine(runs[r].cols.created, started);
    }
  }

  /** Both quotas are open for one more run. */
  predicate QuotasOpen(s: Sys, req: Request) {
    && req.tenant in s.limits && |Occupying(s.runs, req.tenant)| < s.limits[req.tenant].maxActive
    && |SinceThatDay(s.runs, req.tenant, req.started)| < s.limits[req.tenant].maxPerDay
  }

  /** Exactly when the locked half gives each answer: refusals are neither missed nor
      invented, and earlier checks win. */
  lemma AdmissionExactly(s: Sys, req: Request)
    ensures var known := req.workflow in s.workflows && s.workflows[req.workflow].tenant == req.tenant;
            var limited := req.tenant in s.limits;
            var full := limited && |Occupying(s.runs, req.tenant)| >= s.limits[req.tenant].maxActive;
            && (Admit(s, req) == Reject(LimitsMissing) <==> !limited)
            && (Admit(s, req) == Reject(ActiveQuota) <==> full)
            && (Admit(s, req) == Reject(DailyQuota) <==>
                  limited && !full && |SinceThatDay(s.runs, req.tenant, req.started)| >= s.limits[req.tenant].maxPerDay)
            && (Admit(s, req) == Reject(WorkflowNotFound) <==> QuotasOpen(s, req) && !known)
            && (Admit(s, req).Replay? <==> QuotasOpen(s, req) && known && (req.tenant, req.key) in s.keys)
            && (Admit(s, req).Replay? ==> Admit(s, req).run == s.keys[(req.tenant, req.key)])
            && (Admit(s, req) == Reject(HandleTaken) <==>
                  QuotasOpen(s, req) && known && (req.tenant, req.key) !in s.keys && Taken(s.runs, req.handle))
            && (Admit(s, req) == Insert <==>
                  QuotasOpen(s, req) && known && (req.tenant, req.key) !in s.keys && !Taken(s.runs, req.handle))
  {
    CountedRuns(s.runs, req.tenant, req.started);
  }

  /** The daily quota starts afresh: with an open active quota, runs of earlier days never
      stand in the way of a request, however many they are. */
  lemma DayResets(s: Sys, req: Request)
    requires req.tenant in s.limits && s.limits[req.tenant].maxPerDay > 0
    requires forall r :: r in s.runs && s.runs[r].cols.tenant == req.tenant ==> s.runs[r].cols.created / 86400 < req.started / 86400
    ensures Admit(s, req) != Reject(DailyQuota)
  {
    AdmissionExactly(s, req);
    assert SinceThatDay(s.runs, req.tenant, req.started) == {};
  }

  /******* Quotas *******/

  function CreatedOn(runs: map<string, Run>, tenant: string, day: nat): set<string> {
    set r | r in runs && runs[r].cols.tenant == tenant && runs[r].cols.created / DAY == day
  }

  lemma Fits(small: set<string>, large: set<string>)
    requires small <= large
    ensures |small| <= |large|
  {
    if small != large {
      assert large == small + (large - small);
    }
  }

  lemma SameColumnsSameDay(a: map<string, Run>, b: map<string, Run>, tenant: string, day: nat)
    requires a.Keys == b.Keys && RunsExtend(a, b)
    ensures CreatedOn(a, tenant, day) == CreatedOn(b, tenant, day)
  {
  }

  /** A run is dated by its transaction's start, so it is counted on that day even when the
      lock was granted on a later one; the check counts that day and all later ones. */
  lemma InsertKeepsDay(s: Sys, q: nat, id: string, tenant: string, day: nat)
    requires Inserts(s, q) && id !in s.runs && tenant in s.limits
    requires |CreatedOn(s.runs, tenant, day)| <= s.limits[tenant].maxPerDay
    ensures |CreatedOn(s.runs[id := NewRun(s, q)], tenant, day)| <= s.limits[tenant].maxPerDay
  {
    var req := s.requests[q];
    var before, after := CreatedOn(s.runs, tenant, day), CreatedOn(s.runs[id := NewRun(s, q)], tenant, day);
    if req.tenant == tenant && req.started / DAY == day {
      assert after == before + {id};
      forall r | r in before ensures r in CreatedSince(s.runs, tenant, DayStart(req.started)) {
        SameDay(s.runs[r].cols.created, req.started);
      }
      Fits(before, CreatedSince(s.runs, tenant, DayStart(req.started)));
    } else {
      assert after == before;
    }
  }

  lemma SameDay(a: nat, b: nat)
    requires a / DAY == b / DAY
    ensures DayStart(b) <= a
  {
  }

  /** For every UTC day and tenant, the runs created that day stay within the limit. */
  lemma {:induction false} DailyQuotaHolds(s: Sys, labels: seq<Label>, regime: Regime, tenant: string, day: nat)
    requires Init(s) && tenant in s.limits
    ensures var s' := Reach(s, labels, regime);
            s'.limits == s.limits && |CreatedOn(s'.runs, tenant, day)| <= s.limits[tenant].maxPerDay
  {
    if labels == [] {
      assert CreatedOn(s.runs, tenant, day) == {};
    } else {
      var before, l := Reach(s, labels[..|labels| - 1], regime), labels[|labels| - 1];
      DailyQuotaHolds(s, labels[..|labels| - 1], regime, tenant, day);
      if Possible(before, l, regime) {
        OnlyInsertAdds(before, l);
        Immutable(before, l);
        if l.CommitCreate? && Inserts(before, l.request) {
          InsertKeepsDay(before, l.request, l.id, tenant, day);
        } else {
          SameColumnsSameDay(before.runs, RunsAfter(before, l), tenant, day);
        }
      }
    }
  }

  /** The one write that makes an inactive run active again: suspending a row that a
      cancellation or a failure had already made terminal. */
  predicate Revives(s: Sys, l: Label) {
    && l.Stmt? && OnRun(s, l.worker) && MoveOf(s, l.worker, l.ok).action.SetAwaiting?
    && Terminal(s.runs[Canonical(s.workers[l.worker].exec.runId)].state)
  }

  lemma WriteKeepsInactive(run: Run, index: nat, now: nat, action: Action)
    requires ActionOk(run.cols.def, index, action) && (action.SetAwaiting? ==> Active(run.state))
    ensures Active(Write(run, index, now, action).state) ==> Active(run.state)
  {
  }

  lemma InactiveStays(s: Sys, l: Label, r: string)
    requires Structured(s) && Enabled(s, l) && !Revives(s, l) && r in s.runs
    ensures r in RunsAfter(s, l) && (Active(RunsAfter(s, l)[r].state) ==> Active(s.runs[r].state))
  {
    if l.Stmt? {
      StatementRow(s, l.worker, l.ok, r);
      assert IdOk(r);
      WriterKeepsInactive(s, l.worker, l.ok);
    } else {
      OthersKeepInactive(s, l, r);
    }
  }

  lemma OthersKeepInactive(s: Sys, l: Label, r: string)
    requires Enabled(s, l) && !l.Stmt? && r in s.runs
    ensures r in RunsAfter(s, l) && (Active(RunsAfter(s, l)[r].state) ==> Active(s.runs[r].state))
  {
    OtherRow(s, l, r);
  }

  lemma WriterKeepsInactive(s: Sys, w: nat, ok: bool)
    requires Structured(s) && OnRun(s, w) && !Revives(s, Stmt(w, ok))
    ensures var e, run := s.workers[w].exec, s.runs[Canonical(s.workers[w].exec.runId)];
            Active(Write(run, e.index, s.now, MoveOf(s, w, ok).action).state) ==> Active(run.state)
  {
    OnItsRun(s, w, ok);
    var e := s.workers[w].exec;
    WriteKeepsInactive(s.runs[e.runId], e.index, s.now, MoveOf(s, w, ok).action);
  }

  lemma ActiveShrinks(s: Sys, l: Label, tenant: string)
    requires Structured(s) && Enabled(s, l) && !Revives(s, l) && !(l.CommitCreate? && Inserts(s, l.request))
    ensures ActiveRuns(RunsAfter(s, l), tenant) <= ActiveRuns(s.runs, tenant)
  {
    OnlyInsertAdds(s, l);
    Immutable(s, l);
    forall r | r in ActiveRuns(RunsAfter(s, l), tenant) ensures r in ActiveRuns(s.runs, tenant) {
      InactiveStays(s, l, r);
    }
  }

  lemma InsertKeepsActive(s: Sys, q: nat, id: string, tenant: string, bound: nat)
    requires Inserts(s, q) && id !in s.runs && tenant in s.limits
    requires |ActiveRuns(s.runs, tenant)| <= bound && s.limits[tenant].maxActive <= bound
    ensures |ActiveRuns(s.runs[id := NewRun(s, q)], tenant)| <= bound
  {
    var after := ActiveRuns(s.runs[id := NewRun(s, q)], tenant);
    if s.requests[q].tenant == tenant {
      assert after == ActiveRuns(s.runs, tenant) + {id};
    } else {
      assert after == ActiveRuns(s.runs, tenant);
    }
  }

  lemma AwaitingCounts(runs: map<string, Run>, r: string, run: Run, tenant: string)
    requires r in runs && !Active(runs[r].state) && Active(run.state) && run.cols == runs[r].cols
    ensures |ActiveRuns(runs[r := run], tenant)| == |ActiveRuns(runs, tenant)| + if run.cols.tenant == tenant then 1 else 0
  {
    if run.cols.tenant == tenant {
      assert ActiveRuns(runs[r := run], tenant) == ActiveRuns(runs, tenant) + {r};
    } else {
      assert ActiveRuns(runs[r := run], tenant) == ActiveRuns(runs, tenant);
    }
  }

  /** A reviving write adds exactly one run to its own tenant's count and none to another's. */
  lemma RevivalAddsOne(s: Sys, l: Label, tenant: string)
    requires Structured(s) && Enabled(s, l) && Revives(s, l)
    ensures |ActiveRuns(RunsAfter(s, l), tenant)| ==
            |ActiveRuns(s.runs, tenant)| + if s.workers[l.worker].exec.cols.tenant == tenant then 1 else 0
  {
    OnItsRun(s, l.worker, l.ok);
    var e := s.workers[l.worker].exec;
    var row := Write(s.runs[e.runId], e.index, s.now, SetAwaiting);
    AwaitingCounts(s.runs, e.runId, row, tenant);
  }

  /** How often the history suspended an already terminal run of the tenant. */
  function Revivals(s: Sys, labels: seq<Label>, regime: Regime, tenant: string): nat {
    if labels == [] then 0
    else
      var n := |labels| - 1;
      var before, l := Reach(s, labels[..n], regime), labels[n];
      Revivals(s, labels[..n], regime, tenant) +
      if Possible(before, l, regime) && Revives(before, l) && before.workers[l.worker].exec.cols.tenant == tenant then 1 else 0
  }

  lemma ActiveAfter(s: Sys, l: Label, tenant: string, bound: nat)
    requires Structured(s) && Enabled(s, l) && tenant in s.limits
    requires |ActiveRuns(s.runs, tenant)| <= bound && s.limits[tenant].maxActive <= bound
    ensures |ActiveRuns(RunsAfter(s, l), tenant)| <=
            bound + if Revives(s, l) && s.workers[l.worker].exec.cols.tenant == tenant then 1 else 0
  {
    if Revives(s, l) {
      RevivalAddsOne(s, l, tenant);
    } else if l.CommitCreate? && Inserts(s, l.request) {
      InsertKeepsActive(s, l.request, l.id, tenant, bound);
    } else {
      ActiveShrinks(s, l, tenant);
      Fits(ActiveRuns(RunsAfter(s, l), tenant), ActiveRuns(s.runs, tenant));
    }
  }

  /** Over every interleaving of create, approve, cancel and worker writes, active runs
      exceed the limit by at most the number of reviving writes; so they stay within it
      whenever no write suspends a terminal row. */
  lemma {:induction false} ActiveQuotaHolds(s: Sys, labels: seq<Label>, regime: Regime, tenant: string)
    requires Init(s) && tenant in s.limits
    ensures var s' := Reach(s, labels, regime);
            s'.limits == s.limits &&
            |ActiveRuns(s'.runs, tenant)| <= s.limits[tenant].maxActive + Revivals(s, labels, regime, tenant)
  {
    if labels == [] {
      assert ActiveRuns(s.runs, tenant) == {};
    } else {
      var n := |labels| - 1;
      var before, l := Reach(s, labels[..n], regime), labels[n];
      ActiveQuotaHolds(s, labels[..n], regime, tenant);
      StructuredAlways(s, labels[..n], regime);
      if Possible(before, l, regime) {
        ActiveAfter(before, l, tenant, s.limits[tenant].maxActive + Revivals(s, labels[..n], regime, tenant));
      }
    }
  }
}
