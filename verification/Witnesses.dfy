/** Concrete histories showing that the conditions of the theorems are needed. */
module Witnesses {
  import opened Contracts
  import opened Keys
  import opened Runtime
  import opened Structure
  import opened Admission
  import opened Stranding
  import opened Scenes

  /******* The histories *******/

  /** A nak inside the lease loses the run: the redelivery finds the row running and
      unexpired, so the last message is acknowledged and the run is stranded. */
  lemma NakStrandsRun(def: Definition) returns (labels: seq<Label>)
    ensures Init(Start(def, 1)) && Stranded(Reach(Start(def, 1), labels, WithinLease), FIRST)
  {
    var l0, s0 := Launch(def, 1, None, WithinLease);
    var l1, s1 := NakInsideLease(s0);
    ReachAppend(Start(def, 1), l0, l1, WithinLease);
    labels := l0 + l1;
  }

  lemma NakInsideLease(s: Sys) returns (labels: seq<Label>, s': Sys)
    requires FIRST in s.runs && s.runs[FIRST].state == Running && s.runs[FIRST].lease == Some(30) && s.now == 0
    requires s.workers.Keys == {0} && s.stream == {Message(0, 0, TENANT, FIRST)}
    requires s.publishers == map[0 := Publisher([Message(0, 0, TENANT, FIRST)], 1, false)]
    requires |s.outbox| == 1 && s.outbox[0].published
    ensures s' == Reach(s, labels, WithinLease) && Stranded(s', FIRST)
  {
    Ids();
    var m := Message(0, 0, TENANT, FIRST);
    ReachOne(s, Crash(0), WithinLease);
    Redeliver(s, m);
    var l2, s2 := Play(s, [Crash(0)], Deliver(1, m), WithinLease);
    var l3, s3 := Play(s, l2, Claim(1), WithinLease);
    labels, s' := Play(s, l3, Ack(1), WithinLease);
    ClaimFinds(s2, m);
    NothingOnTheWay(s');
  }

  lemma NothingOnTheWay(s: Sys)
    requires FIRST in s.runs && s.runs[FIRST].state == Running && s.workers == map[] && s.stream == {}
    requires s.publishers == map[0 := Publisher([Message(0, 0, TENANT, FIRST)], 1, false)]
    requires |s.outbox| == 1 && s.outbox[0].published
    ensures Stranded(s, FIRST)
  {
  }

  lemma Redeliver(s: Sys, m: Message)
    requires s.workers.Keys == {0} && s.stream == {m}
    ensures var s1 := Next(s, Crash(0), WithinLease);
            Next(s1, Deliver(1, m), WithinLease) == s.(workers := map[1 := Fetched(m)])
  {
    assert s.workers - {0} == map[];
    assert Next(s, Crash(0), WithinLease) == s.(workers := map[]);
  }

  /** The claim finds nothing and the message is acknowledged. */
  lemma ClaimFinds(s: Sys, m: Message)
    requires s.workers == map[1 := Fetched(m)] && s.stream == {m} && IdOk(m.runId)
    requires m.runId in s.runs && s.runs[m.runId].state == Running && s.runs[m.runId].lease == Some(30) && s.now == 0
    ensures var s1 := Next(s, Claim(1), WithinLease);
            Next(s1, Ack(1), WithinLease) == s.(workers := map[], stream := {})
  {
    NoLease(s, m);
    var s1 := Next(s, Claim(1), WithinLease);
    assert s1.workers - {1} == map[] && s1.stream - {m} == {};
  }

  lemma NoLease(s: Sys, m: Message)
    requires s.workers == map[1 := Fetched(m)] && IdOk(m.runId)
    requires m.runId in s.runs && s.runs[m.runId].state == Running && s.runs[m.runId].lease == Some(30) && s.now == 0
    ensures Next(s, Claim(1), WithinLease) == s.(workers := map[1 := Finished(m)])
  {
    assert !Claims(s, 1);
  }

  const TICKET := Definition("1", [Tool(TicketWrite, false)])

  /** The gate covers declared side effects only: a ticket step that is not declared one is
      schema-valid and commits without any approval. */
  lemma UndeclaredTicketCommits() returns (labels: seq<Label>)
    ensures SchemaValid(TICKET)
    ensures var s := Reach(Start(TICKET, 1), labels, WithinLease);
            && (TENANT, EffectKey(FIRST, 0)) in s.ledger
            && FIRST in s.runs && multiset(s.runs[FIRST].events)[Approved] == 0
  {
    var l0, s0 := Launch(TICKET, 1, None, WithinLease);
    labels := l0 + [Stmt(0, true)];
    ReachStep(Start(TICKET, 1), l0, Stmt(0, true), WithinLease);
    TicketCommits(s0);
  }

  lemma TicketCommits(s: Sys)
    requires s.runs == map[FIRST := ClaimRun(Asked("k1", 0, 0, TICKET, 0, None), 0)] && s.now == 0
    requires s.workers == map[0 := Opened(Message(0, 0, TENANT, FIRST), Asked("k1", 0, 0, TICKET, 0, None), 0)]
    ensures var s' := Next(s, Stmt(0, true), WithinLease);
            && (TENANT, EffectKey(FIRST, 0)) in s'.ledger && FIRST in s'.runs && multiset(s'.runs[FIRST].events)[Approved] == 0
  {
    Ids();
    assert s.runs[FIRST].events == [Created, LeasedEvent, Started];
    assert MoveOf(s, 0, true).action == CommitEffect;
  }

  /** Two creates with one key race past their lookups; with the tenant at its limit the
      loser is told the quota is exceeded although its run exists. */
  lemma RacedLoserIsRefused(def: Definition) returns (labels: seq<Label>)
    ensures var s := Reach(Start(def, 1), labels, WithinLease);
            && 0 in s.requests && s.requests[0].phase == Replied(FIRST, false)
            && 1 in s.requests && s.requests[1].phase == Refused(ActiveQuota)
            && (s.requests[0].tenant, s.requests[0].key) == (s.requests[1].tenant, s.requests[1].key)
            && s.runs.Keys == {FIRST}
  {
    Ids();
    var s0 := Start(def, 1);
    ReachOne(s0, BeginCreate(0, TENANT, "k", "", WORKFLOW, None), WithinLease);
    var l2, s2 := Play(s0, [BeginCreate(0, TENANT, "k", "", WORKFLOW, None)], BeginCreate(1, TENANT, "k", "", WORKFLOW, None), WithinLease);
    Begin(s0, 0, "k", None, WithinLease);
    Begin(Next(s0, BeginCreate(0, TENANT, "k", "", WORKFLOW, None), WithinLease), 1, "k", None, WithinLease);
    var l3, s3 := Play(s0, l2, CommitCreate(0, FIRST), WithinLease);
    WinnerCommits(s2);
    var l4, s4 := Play(s0, l3, CommitCreate(1, SECOND), WithinLease);
    LoserCommits(s3);
    labels := l4;
  }

  lemma WinnerCommits(s: Sys)
    requires s.runs == map[] && s.keys == map[] && TENANT in s.limits && s.limits[TENANT] == Limits(1, 10)
    requires WORKFLOW in s.workflows && s.workflows[WORKFLOW].tenant == TENANT
    requires 0 in s.requests && s.requests[0] == Request(TENANT, "k", "", WORKFLOW, None, 0, Waiting)
    ensures var s' := Next(s, CommitCreate(0, FIRST), WithinLease);
            && s'.runs.Keys == {FIRST} && s'.runs[FIRST].state == Queued && s'.runs[FIRST].cols.tenant == TENANT
            && s'.requests == s.requests[0 := s.requests[0].(phase := Replied(FIRST, false))] && s'.limits == s.limits
  {
    Ids();
    assert ActiveRuns(s.runs, TENANT) == {} && CreatedSince(s.runs, TENANT, DayStart(0)) == {};
    assert Inserts(s, 0);
  }

  lemma LoserCommits(s: Sys)
    requires s.runs.Keys == {FIRST} && s.runs[FIRST].state == Queued && s.runs[FIRST].cols.tenant == TENANT
    requires 1 in s.requests && s.requests[1].phase == Waiting && s.requests[1].tenant == TENANT
    requires TENANT in s.limits && s.limits[TENANT].maxActive == 1
    ensures var s' := Next(s, CommitCreate(1, SECOND), WithinLease);
            s'.runs == s.runs && s'.requests == s.requests[1 := s.requests[1].(phase := Refused(ActiveQuota))]
  {
    Ids();
    assert ActiveRuns(s.runs, TENANT) == {FIRST};
  }

  /** A tenant that may create one run a day: the second request of a day is refused, and
      admitted 86400 seconds later while the first run still stands. */
  lemma NextDayAdmits(def: Definition) returns (today: seq<Label>, tomorrow: seq<Label>)
    ensures var init := Start(def, 5).(limits := map[TENANT := Limits(5, 1)]);
            && (var s := Reach(init, today, WithinLease);
                1 in s.requests && s.requests[1].phase == Refused(DailyQuota) && s.runs.Keys == {FIRST})
            && (var s := Reach(init, today + tomorrow, WithinLease); s.runs.Keys == {FIRST, SECOND} && s.now == 86400)
  {
    Ids();
    var init := Start(def, 5).(limits := map[TENANT := Limits(5, 1)]);
    assert Occupying(init.runs, TENANT) == {} && SinceThatDay(init.runs, TENANT, 0) == {};
    var l1, s1 := Create(init, 0, "k1", FIRST, None, WithinLease, def);
    var l2, s2 := RefusedToday(s1);
    ReachAppend(init, l1, l2, WithinLease);
    today := l1 + l2;
    var l3, s3 := AdmittedTomorrow(s2, def);
    ReachAppend(init, today, l3, WithinLease);
    tomorrow := l3;
  }

  lemma AdmittedTomorrow(s: Sys, def: Definition) returns (labels: seq<Label>, s': Sys)
    requires s.runs.Keys == {FIRST} && s.runs[FIRST].cols.tenant == TENANT && s.runs[FIRST].cols.created == 0
    requires s.limits == map[TENANT := Limits(5, 1)] && s.now == 0 && 2 !in s.requests && (TENANT, "k2") !in s.keys
    requires WORKFLOW in s.workflows && s.workflows[WORKFLOW] == Workflow(TENANT, def)
    ensures s' == Reach(s, labels, WithinLease) && s'.runs.Keys == {FIRST, SECOND} && s'.now == 86400
  {
    Ids();
    ReachOne(s, Tick(86400), WithinLease);
    var s1 := Next(s, Tick(86400), WithinLease);
    assert s1 == s.(now := 86400);
    assert Occupying(s1.runs, TENANT) <= {FIRST} && SinceThatDay(s1.runs, TENANT, 86400) == {};
    Fits(Occupying(s1.runs, TENANT), {FIRST});
    var l2, s2 := Create(s1, 2, "k2", SECOND, None, WithinLease, def);
    ReachAppend(s, [Tick(86400)], l2, WithinLease);
    labels, s' := [Tick(86400)] + l2, s2;
  }

  lemma RefusedToday(s: Sys) returns (labels: seq<Label>, s': Sys)
    requires s.runs.Keys == {FIRST} && s.runs[FIRST].cols.tenant == TENANT && s.runs[FIRST].cols.created == 0
    requires s.limits == map[TENANT := Limits(5, 1)] && s.now == 0 && 1 !in s.requests && (TENANT, "k2") !in s.keys
    ensures s' == Reach(s, labels, WithinLease) && s' == s.(requests := s'.requests)
    ensures s'.requests.Keys == s.requests.Keys + {1} && s'.requests[1].phase == Refused(DailyQuota)
  {
    var begin, commit := BeginCreate(1, TENANT, "k2", "", WORKFLOW, None), CommitCreate(1, SECOND);
    ReachOne(s, begin, WithinLease);
    Begin(s, 1, "k2", None, WithinLease);
    RefusedFull(Next(s, begin, WithinLease));
    labels, s' := Play(s, [begin], commit, WithinLease);
  }

  lemma RefusedFull(s: Sys)
    requires s.runs.Keys == {FIRST} && s.runs[FIRST].cols.tenant == TENANT && s.runs[FIRST].cols.created == 0
    requires s.limits == map[TENANT := Limits(5, 1)]
    requires 1 in s.requests && s.requests[1].tenant == TENANT && s.requests[1].started == 0 && s.requests[1].phase == Waiting
    ensures Next(s, CommitCreate(1, SECOND), WithinLease) == s.(requests := s.requests[1 := s.requests[1].(phase := Refused(DailyQuota))])
  {
    Ids();
    FullToday(s);
    RefusedCommit(s, 1, SECOND, DailyQuota);
  }

  lemma RefusedCommit(s: Sys, q: nat, id: string, reason: Refusal)
    requires Enabled(s, CommitCreate(q, id)) && Admit(s, s.requests[q]) == Reject(reason)
    ensures Next(s, CommitCreate(q, id), WithinLease) == s.(requests := s.requests[q := s.requests[q].(phase := Refused(reason))])
  {
  }

  lemma FullToday(s: Sys)
    requires s.runs.Keys == {FIRST} && s.runs[FIRST].cols.tenant == TENANT && s.runs[FIRST].cols.created == 0
    requires s.limits == map[TENANT := Limits(5, 1)]
    requires 1 in s.requests && s.requests[1].tenant == TENANT && s.requests[1].started == 0
    ensures Admit(s, s.requests[1]) == Reject(DailyQuota)
  {
    assert Occupying(s.runs, TENANT) <= {FIRST} && SinceThatDay(s.runs, TENANT, 0) == {FIRST};
    Fits(Occupying(s.runs, TENANT), {FIRST});
    AdmissionExactly(s, s.requests[1]);
  }

  const PAUSE := Definition("1", [Approval])

  /** A cancelled run revived by its live executor pushes the tenant over its limit. */
  lemma RevivalExceedsQuota() returns (labels: seq<Label>)
    ensures SchemaValid(PAUSE)
    ensures var s := Reach(Start(PAUSE, 1), labels, WithinLease);
            TENANT in s.limits && |ActiveRuns(s.runs, TENANT)| > s.limits[TENANT].maxActive
  {
    var l0, s0 := Launch(PAUSE, 1, None, WithinLease);
    var l1, s1 := CancelledUnderExecutor(s0);
    ReachAppend(Start(PAUSE, 1), l0, l1, WithinLease);
    var l2, s2 := SecondThenRevival(s1);
    ReachAppend(Start(PAUSE, 1), l0 + l1, l2, WithinLease);
    labels := l0 + l1 + l2;
  }

  /** The only run is cancelled while its executor is about to suspend it. */
  ghost predicate Cancelled1(s: Sys) {
    && s.runs.Keys == {FIRST} && s.runs[FIRST].state == Cancelled && s.runs[FIRST].cols == Asked("k1", 0, 0, PAUSE, 0, None).cols
    && s.workers.Keys == {0} && s.workers[0].Executing? && s.now == 0 <= s.workers[0].exec.until
    && (var e := s.workers[0].exec; e.runId == FIRST && e.cols == s.runs[FIRST].cols && e.index == 0 && e.pc == Suspending)
    && s.limits == Start(PAUSE, 1).limits && s.workflows == Start(PAUSE, 1).workflows
    && s.requests.Keys == {0} && s.keys == map[(TENANT, "k1") := FIRST]
  }

  lemma CancelledUnderExecutor(s: Sys) returns (labels: seq<Label>, s': Sys)
    requires s.runs == map[FIRST := ClaimRun(Asked("k1", 0, 0, PAUSE, 0, None), 0)] && s.now == 0
    requires s.workers == map[0 := Opened(Message(0, 0, TENANT, FIRST), Asked("k1", 0, 0, PAUSE, 0, None), 0)]
    requires s.limits == Start(PAUSE, 1).limits && s.workflows == Start(PAUSE, 1).workflows
    requires s.requests.Keys == {0} && s.keys == map[(TENANT, "k1") := FIRST]
    ensures s' == Reach(s, labels, WithinLease) && Cancelled1(s')
  {
    Ids();
    var s1 := Act(s, 0, true, WithinLease);
    ReachOne(s1, Cancel(FIRST), WithinLease);
    s' := Next(s1, Cancel(FIRST), WithinLease);
    ReachAppend(s, [Stmt(0, true)], [Cancel(FIRST)], WithinLease);
    labels := [Stmt(0, true)] + [Cancel(FIRST)];
  }

  lemma SecondThenRevival(s: Sys) returns (labels: seq<Label>, s': Sys)
    requires Cancelled1(s)
    ensures s' == Reach(s, labels, WithinLease)
    ensures TENANT in s'.limits && |ActiveRuns(s'.runs, TENANT)| > s'.limits[TENANT].maxActive
  {
    Ids();
    assert Occupying(s.runs, TENANT) == {};
    assert SinceThatDay(s.runs, TENANT, 0) == {FIRST};
    var l1, s1 := Create(s, 1, "k2", SECOND, None, WithinLease, PAUSE);
    s' := Revive(s1);
    ReachAppend(s, l1, [Stmt(0, true)], WithinLease);
    labels := l1 + [Stmt(0, true)];
  }

  lemma Revive(s: Sys) returns (s': Sys)
    requires s.runs.Keys == {FIRST, SECOND} && s.runs[FIRST].cols.tenant == TENANT && s.runs[SECOND].cols.tenant == TENANT
    requires s.runs[SECOND].state == Queued && s.runs[FIRST].cols.def == PAUSE
    requires 0 in s.workers && s.workers[0].Executing? && s.now <= s.workers[0].exec.until
    requires var e := s.workers[0].exec; e.runId == FIRST && e.index == 0 && e.pc == Suspending
    ensures s' == Reach(s, [Stmt(0, true)], WithinLease) && s'.limits == s.limits && |ActiveRuns(s'.runs, TENANT)| == 2
  {
    Ids();
    s' := Act(s, 0, true, WithinLease);
    assert ActiveRuns(s'.runs, TENANT) == {FIRST, SECOND};
  }

  /******* A stale writer makes an approval skip a step *******/

  const GATED := Definition("1", [Approval, Tool(DataRead, false), Tool(DataRead, false), Tool(DataRead, false)])

  /** Two executors have recorded the approval; the first is stale and about to suspend,
      the second has suspended, and one approve action has moved the run to step 1. */
  ghost predicate Approved1(s: Sys) {
    && s.runs.Keys == {FIRST} && s.runs[FIRST].state == Queued && s.runs[FIRST].step == 1
    && s.runs[FIRST].cols == Asked("k1", 0, 0, GATED, 0, None).cols
    && s.runs[FIRST].results.Keys == {0} && s.runs[FIRST].hist.failures == 0
    && 0 in s.workers && s.workers[0].Executing? && s.workers[0].exec.runId == FIRST
    && s.workers[0].exec.cols == s.runs[FIRST].cols
    && s.workers[0].exec.index == 0 && s.workers[0].exec.pc == Suspending
    && 2 !in s.workers && 3 !in s.workers
    && |s.outbox| == 2 && s.outbox[1].run == FIRST && s.outbox[1].tenant == TENANT && !s.outbox[1].published
    && s.publishers.Keys == {0} && s.now == 31
  }

  lemma ToFirstApproval() returns (labels: seq<Label>, s: Sys)
    ensures s == Reach(Start(GATED, 1), labels, Unfenced) && Approved1(s)
  {
    var init := Start(GATED, 1);
    var l0, s0 := Launch(GATED, 1, None, Unfenced);
    var l1, s1 := Overtaken(s0);
    var l2, s2 := SecondSuspends(s1);
    ReachAppend(init, l0, l1, Unfenced);
    ReachAppend(init, l0 + l1, l2, Unfenced);
    labels, s := l0 + l1 + l2, s2;
  }

  /** Two executors on the run: the first, past its lease, is about to suspend it. */
  ghost predicate TwoExecutors(s: Sys) {
    && s.runs.Keys == {FIRST} && s.runs[FIRST].state == Running && s.runs[FIRST].results.Keys == {0}
    && s.runs[FIRST].cols == Asked("k1", 0, 0, GATED, 0, None).cols && s.runs[FIRST].hist.failures == 0
    && s.workers.Keys == {0, 1} && s.workers[1].Executing? && s.workers[0].Executing?
    && (var e := s.workers[1].exec; e.runId == FIRST && e.cols == s.runs[FIRST].cols && e.index == 0 && e.pc == AtStep)
    && (var e := s.workers[0].exec; e.runId == FIRST && e.cols == s.runs[FIRST].cols && e.index == 0 && e.pc == Suspending)
    && |s.outbox| == 1 && s.publishers.Keys == {0} && s.now == 31
  }

  lemma Overtaken(s: Sys) returns (labels: seq<Label>, s': Sys)
    requires var m := Message(0, 0, TENANT, FIRST);
             && s.runs == map[FIRST := ClaimRun(Asked("k1", 0, 0, GATED, 0, None), 0)]
             && s.workers == map[0 := Opened(m, Asked("k1", 0, 0, GATED, 0, None), 0)]
             && s.stream == {m} && |s.outbox| == 1 && s.publishers.Keys == {0} && s.now == 0
    ensures s' == Reach(s, labels, Unfenced) && TwoExecutors(s')
  {
    Ids();
    var s1 := Act(s, 0, true, Unfenced);
    ReachOne(s1, Tick(31), Unfenced);
    var s2 := Next(s1, Tick(31), Unfenced);
    assert s2 == s1.(now := 31);
    var l3, s3 := Take(s2, Message(0, 0, TENANT, FIRST), 1, Unfenced);
    ReachAppend(s, [Stmt(0, true)], [Tick(31)], Unfenced);
    ReachAppend(s, [Stmt(0, true)] + [Tick(31)], l3, Unfenced);
    labels, s' := [Stmt(0, true)] + [Tick(31)] + l3, s3;
  }

  lemma SecondSuspends(s: Sys) returns (labels: seq<Label>, s': Sys)
    requires TwoExecutors(s)
    ensures s' == Reach(s, labels, Unfenced) && Approved1(s')
  {
    var s1 := SecondWaits(s);
    ReachOne(s1, Approve(FIRST), Unfenced);
    ApproveChanges(s1, FIRST, Unfenced);
    s' := Next(s1, Approve(FIRST), Unfenced);
    ReachAppend(s, [Stmt(1, true)] + [Stmt(1, true)], [Approve(FIRST)], Unfenced);
    labels := [Stmt(1, true)] + [Stmt(1, true)] + [Approve(FIRST)];
  }

  /** The second executor records the approval again, in vain, and suspends the run. */
  lemma SecondWaits(s: Sys) returns (s': Sys)
    requires TwoExecutors(s)
    ensures s' == Reach(s, [Stmt(1, true)] + [Stmt(1, true)], Unfenced) && s' == s.(runs := s'.runs, workers := s'.workers)
    ensures s'.runs.Keys == {FIRST} && s'.runs[FIRST].cols == s.runs[FIRST].cols && s'.runs[FIRST].hist == s.runs[FIRST].hist
    ensures s'.runs[FIRST].state == AwaitingApproval && s'.runs[FIRST].step == 0 && s'.runs[FIRST].results == s.runs[FIRST].results
    ensures s'.workers.Keys == {0, 1} && s'.workers[0] == s.workers[0]
  {
    Ids();
    var l := Stmt(1, true);
    var s1 := Act(s, 1, true, Unfenced);
    assert s1.runs == s.runs;
    s' := Act(s1, 1, true, Unfenced);
    ReachAppend(s, [l], [l], Unfenced);
  }

  /** The stale suspend has reset the step under a live executor, whose advance then moved
      it; the second approve action has skipped step 2. */
  ghost predicate Skipped2(s: Sys) {
    && s.runs.Keys == {FIRST} && s.runs[FIRST].state == Queued && s.runs[FIRST].step == 3
    && s.runs[FIRST].cols == Asked("k1", 0, 0, GATED, 0, None).cols
    && s.runs[FIRST].results.Keys == {0, 1} && s.runs[FIRST].hist.failures == 0
    && 3 !in s.workers
    && |s.outbox| == 3 && s.outbox[2].run == FIRST && s.outbox[2].tenant == TENANT && !s.outbox[2].published
    && s.publishers.Keys == {0, 1}
  }

  lemma ToSecondApproval(s: Sys) returns (labels: seq<Label>, s': Sys)
    requires Approved1(s)
    ensures s' == Reach(s, labels, Unfenced) && Skipped2(s')
  {
    Ids();
    var l1, s1 := Publish(s, 1, 1, Unfenced);
    var l2, s2 := Take(s1, Message(1, 1, TENANT, FIRST), 2, Unfenced);
    ReachAppend(s, l1, l2, Unfenced);
    var l3, s3 := StaleSuspend(s2);
    ReachAppend(s, l1 + l2, l3, Unfenced);
    labels, s' := l1 + l2 + l3, s3;
  }

  lemma StaleSuspend(s: Sys) returns (labels: seq<Label>, s': Sys)
    requires s.runs.Keys == {FIRST} && s.runs[FIRST].cols == Asked("k1", 0, 0, GATED, 0, None).cols
    requires s.runs[FIRST].results.Keys == {0} && s.runs[FIRST].hist.failures == 0
    requires 0 in s.workers && 2 in s.workers && s.workers[0].Executing? && s.workers[2].Executing? && 3 !in s.workers
    requires var e := s.workers[0].exec; e.runId == FIRST && e.cols == s.runs[FIRST].cols && e.index == 0 && e.pc == Suspending
    requires var e := s.workers[2].exec; e.runId == FIRST && e.cols == s.runs[FIRST].cols && e.index == 1 && e.pc == AtStep
    requires |s.outbox| == 2 && s.publishers.Keys == {0, 1}
    ensures s' == Reach(s, labels, Unfenced) && Skipped2(s')
  {
    var s1 := StaleReset(s);
    ReachOne(s1, Approve(FIRST), Unfenced);
    s' := Next(s1, Approve(FIRST), Unfenced);
    ApproveChanges(s1, FIRST, Unfenced);
    ReachAppend(s, [Stmt(2, true)] + [Stmt(0, true)] + [Stmt(2, true)], [Approve(FIRST)], Unfenced);
    labels := [Stmt(2, true)] + [Stmt(0, true)] + [Stmt(2, true)] + [Approve(FIRST)];
  }

  /** The live executor records step 1, the stale one suspends at step 0, and the live one
      advances: the row awaits approval at step 2. */
  lemma StaleReset(s: Sys) returns (s': Sys)
    requires s.runs.Keys == {FIRST} && s.runs[FIRST].cols == Asked("k1", 0, 0, GATED, 0, None).cols
    requires s.runs[FIRST].results.Keys == {0}
    requires 0 in s.workers && 2 in s.workers && s.workers[0].Executing? && s.workers[2].Executing?
    requires var e := s.workers[0].exec; e.runId == FIRST && e.cols == s.runs[FIRST].cols && e.index == 0 && e.pc == Suspending
    requires var e := s.workers[2].exec; e.runId == FIRST && e.cols == s.runs[FIRST].cols && e.index == 1 && e.pc == AtStep
    ensures s' == Reach(s, [Stmt(2, true)] + [Stmt(0, true)] + [Stmt(2, true)], Unfenced)
    ensures s'.runs.Keys == {FIRST} && s'.runs[FIRST].state == AwaitingApproval && s'.runs[FIRST].step == 2
    ensures s'.runs[FIRST].results.Keys == {0, 1} && s'.runs[FIRST].hist.failures == s.runs[FIRST].hist.failures
    ensures s'.runs[FIRST].cols == s.runs[FIRST].cols && s'.workers.Keys == s.workers.Keys
    ensures s' == s.(runs := s'.runs, workers := s'.workers)
  {
    Ids();
    var s1 := Act(s, 2, true, Unfenced);
    assert s1.runs[FIRST].results.Keys == {0, 1};
    var s2 := Act(s1, 0, true, Unfenced);
    s' := Act(s2, 2, true, Unfenced);
    ReachAppend(s, [Stmt(2, true)], [Stmt(0, true)], Unfenced);
    ReachAppend(s, [Stmt(2, true)] + [Stmt(0, true)], [Stmt(2, true)], Unfenced);
  }

  lemma ToTheEnd(s: Sys) returns (labels: seq<Label>, s': Sys)
    requires Skipped2(s)
    ensures s' == Reach(s, labels, Unfenced)
    ensures FIRST in s'.runs && s'.runs[FIRST].state == Succeeded && s'.runs[FIRST].hist.failures == 0
    ensures s'.runs[FIRST].cols.def == GATED && s'.runs[FIRST].results.Keys == {0, 1, 3}
  {
    Ids();
    var l1, s1 := Publish(s, 2, 2, Unfenced);
    var l2, s2 := Take(s1, Message(2, 2, TENANT, FIRST), 3, Unfenced);
    var l3, s3 := LastStep(s2);
    ReachAppend(s, l1, l2, Unfenced);
    ReachAppend(s, l1 + l2, l3, Unfenced);
    labels, s' := l1 + l2 + l3, s3;
  }

  lemma LastStep(s: Sys) returns (labels: seq<Label>, s': Sys)
    requires FIRST in s.runs && s.runs[FIRST].cols.def == GATED && s.runs[FIRST].hist.failures == 0 && s.runs[FIRST].results.Keys == {0, 1}
    requires 3 in s.workers && s.workers[3].Executing?
    requires var e := s.workers[3].exec; e.runId == FIRST && e.cols == s.runs[FIRST].cols && e.index == 3 && e.pc == AtStep
    ensures s' == Reach(s, labels, Unfenced)
    ensures FIRST in s'.runs && s'.runs[FIRST].state == Succeeded && s'.runs[FIRST].hist.failures == 0
    ensures s'.runs[FIRST].cols.def == GATED && s'.runs[FIRST].results.Keys == {0, 1, 3}
  {
    Ids();
    var l := Stmt(3, true);
    var s1 := Act(s, 3, true, Unfenced);
    assert s1.runs[FIRST].results.Keys == {0, 1, 3};
    var s2 := Act(s1, 3, true, Unfenced);
    s' := Act(s2, 3, true, Unfenced);
    ReachAppend(s, [l], [l], Unfenced);
    ReachAppend(s, [l] + [l], [l], Unfenced);
    labels := [l] + [l] + [l];
  }

  /** The lease assumption is needed: with a stale writer a schema-valid run succeeds with
      no failure and yet without the result of step 2. */
  lemma StaleWriterSkipsStep() returns (labels: seq<Label>)
    ensures SchemaValid(GATED) && Init(Start(GATED, 1))
    ensures var s := Reach(Start(GATED, 1), labels, Unfenced);
            && FIRST in s.runs && s.runs[FIRST].state == Succeeded && s.runs[FIRST].hist.failures == 0
            && s.runs[FIRST].cols.def == GATED && 2 !in s.runs[FIRST].results
  {
    var l1, s1 := ToFirstApproval();
    var l2, s2 := ToSecondApproval(s1);
    var l3, s3 := ToTheEnd(s2);
    ReachAppend(Start(GATED, 1), l1, l2, Unfenced);
    ReachAppend(Start(GATED, 1), l1 + l2, l3, Unfenced);
    labels := l1 + l2 + l3;
  }
}
