/** Short stretches of history from which concrete executions are put together. */
module Scenes {
  import opened Contracts
  import opened Keys
  import opened Runtime
  import opened Structure
  import opened Admission

  const TENANT := "t"
  const WORKFLOW := "wf"
  const FIRST := "00000000-0000-4000-8000-000000000001"
  const SECOND := "00000000-0000-4000-8000-000000000002"

  /** A fresh deployment with one tenant and one registered workflow. */
  function Start(def: Definition, maxActive: nat): Sys {
    Sys(0, map[TENANT := Limits(maxActive, 10)], map[WORKFLOW := Workflow(TENANT, def)],
        map[], map[], map[], [], {}, {}, map[], map[], map[], {}, {})
  }

  lemma Ids()
    ensures IdOk(FIRST) && IdOk(SECOND) && FIRST != SECOND
  {
    assert FIRST[35] != SECOND[35];
    IdText(FIRST);
    IdText(SECOND);
  }

  lemma IdText(id: string)
    requires |id| == 36 && forall i :: 0 <= i < 36 ==> if i in DASHES then id[i] == '-' else '0' <= id[i] <= '9'
    ensures IdOk(id)
  {
    assert forall i :: 0 <= i < 36 ==> UuidCharAt(i, id[i]) && LowerHex(id[i]) == id[i];
    assert Canonical(id) == id;
  }

  lemma Play(s: Sys, done: seq<Label>, l: Label, regime: Regime) returns (labels: seq<Label>, s': Sys)
    ensures labels == done + [l] && s' == Reach(s, labels, regime) == Next(Reach(s, done, regime), l, regime)
  {
    labels := done + [l];
    s' := Reach(s, labels, regime);
    ReachStep(s, done, l, regime);
  }

  function Asked(key: string, now: nat, q: nat, def: Definition, o: nat, handle: Option<string>): Run {
    Run(Columns(TENANT, key, "", def, handle, now, q), Queued, 0, None, 0, map[], [Created], History([o], [], {}, 0, 0))
  }

  /** A create request that is admitted: the run is queued with one unpublished row. */
  lemma Create(s: Sys, q: nat, key: string, id: string, handle: Option<string>, regime: Regime, def: Definition)
    returns (labels: seq<Label>, s': Sys)
    requires handle.Some? ==> handle.value in s.issued && !Taken(s.runs, handle)
    requires q !in s.requests && FreshId(s, id) && (TENANT, key) !in s.keys
    requires TENANT in s.limits && WORKFLOW in s.workflows && s.workflows[WORKFLOW] == Workflow(TENANT, def)
    requires |Occupying(s.runs, TENANT)| < s.limits[TENANT].maxActive
    requires |SinceThatDay(s.runs, TENANT, s.now)| < s.limits[TENANT].maxPerDay
    ensures s' == Reach(s, labels, regime)
    ensures s'.runs == s.runs[id := Asked(key, s.now, q, def, |s.outbox|, handle)]
    ensures s'.outbox == s.outbox + [OutboxRow(TENANT, id, false, 0, {})]
    ensures s'.requests.Keys == s.requests.Keys + {q} && s'.keys == s.keys[(TENANT, key) := id]
    ensures s' == s.(runs := s'.runs, outbox := s'.outbox, requests := s'.requests, keys := s'.keys)
  {
    var begin, commit := BeginCreate(q, TENANT, key, "", WORKFLOW, handle), CommitCreate(q, id);
    ReachOne(s, begin, regime);
    var s1 := Next(s, begin, regime);
    Begin(s, q, key, handle, regime);
    labels, s' := Play(s, [begin], commit, regime);
    AdmissionExactly(s1, s1.requests[q]);
    assert Inserts(s1, q) && NewRun(s1, q) == Asked(key, s.now, q, def, |s.outbox|, handle);
  }

  lemma Begin(s: Sys, q: nat, key: string, handle: Option<string>, regime: Regime)
    requires q !in s.requests && (TENANT, key) !in s.keys && (handle.Some? ==> handle.value in s.issued)
    ensures Next(s, BeginCreate(q, TENANT, key, "", WORKFLOW, handle), regime) ==
            s.(requests := s.requests[q := Request(TENANT, key, "", WORKFLOW, handle, s.now, Waiting)])
  {
  }

  /** Publishing one row: its copy is in the stream and the row is marked. */
  lemma Publish(s: Sys, o: nat, p: nat, regime: Regime) returns (labels: seq<Label>, s': Sys)
    requires o < |s.outbox| && !s.outbox[o].published && p !in s.publishers
    ensures s' == Reach(s, labels, regime)
    ensures var m := Message(o, p, s.outbox[o].tenant, s.outbox[o].run);
            s'.stream == s.stream + {m} && s'.publishers == s.publishers[p := Publisher([m], 1, false)]
    ensures |s'.outbox| == |s.outbox| && s'.outbox[o].published
    ensures forall i :: 0 <= i < |s.outbox| && i != o ==> s'.outbox[i] == s.outbox[i]
    ensures s'.outbox[o].run == s.outbox[o].run && s'.outbox[o].tenant == s.outbox[o].tenant
    ensures s' == s.(outbox := s'.outbox, stream := s'.stream, log := s'.log, publishers := s'.publishers)
  {
    var m := Message(o, p, s.outbox[o].tenant, s.outbox[o].run);
    ReachOne(s, ClaimOutbox(p, [o]), regime);
    ClaimOne(s, o, p, regime);
    var l2, s2 := Play(s, [ClaimOutbox(p, [o])], Send(p), regime);
    SendOne(Next(s, ClaimOutbox(p, [o]), regime), p, m, regime);
    labels, s' := Play(s, l2, MarkPublished(p), regime);
    MarkOne(s2, p, m, regime);
  }

  lemma ClaimOne(s: Sys, o: nat, p: nat, regime: Regime)
    requires o < |s.outbox| && !s.outbox[o].published && p !in s.publishers
    ensures var m := Message(o, p, s.outbox[o].tenant, s.outbox[o].run);
            Next(s, ClaimOutbox(p, [o]), regime) ==
            s.(outbox := CountAttempts(s.outbox, p, [o]), publishers := s.publishers[p := Publisher([m], 0, true)])
  {
    assert Batch(s.outbox, p, [o]) == [Message(o, p, s.outbox[o].tenant, s.outbox[o].run)];
  }

  lemma SendOne(s: Sys, p: nat, m: Message, regime: Regime)
    requires p in s.publishers && s.publishers[p] == Publisher([m], 0, true)
    ensures Next(s, Send(p), regime) ==
            s.(stream := s.stream + {m}, log := s.log + {m}, publishers := s.publishers[p := Publisher([m], 1, true)])
  {
  }

  lemma MarkOne(s: Sys, p: nat, m: Message, regime: Regime)
    requires p in s.publishers && s.publishers[p] == Publisher([m], 1, true)
    ensures Next(s, MarkPublished(p), regime) ==
            s.(outbox := MarkRows(s.outbox, [m]), publishers := s.publishers[p := Publisher([m], 1, false)])
    ensures InBatch([m], m.outboxId) && forall o :: o != m.outboxId ==> !InBatch([m], o)
  {
    assert [m][0].outboxId == m.outboxId;
  }

  function Opened(m: Message, run: Run, now: nat): Worker {
    Executing(m, Exec(m.runId, run.cols, run.step, AtStep, now + LEASE))
  }

  /** A delivery whose claim succeeds. */
  lemma Take(s: Sys, m: Message, w: nat, regime: Regime) returns (labels: seq<Label>, s': Sys)
    requires m in s.stream && w !in s.workers && IdOk(m.runId) && m.runId in s.runs && Claimable(s.runs[m.runId], s.now)
    ensures s' == Reach(s, labels, regime)
    ensures s'.runs == s.runs[m.runId := ClaimRun(s.runs[m.runId], s.now)]
    ensures s'.workers == s.workers[w := Opened(m, s.runs[m.runId], s.now)]
    ensures s' == s.(runs := s'.runs, workers := s'.workers)
  {
    ReachOne(s, Deliver(w, m), regime);
    var s1 := Next(s, Deliver(w, m), regime);
    assert Claims(s1, w);
    labels, s' := Play(s, [Deliver(w, m)], Claim(w), regime);
    assert s'.workers == s.workers[w := Opened(m, s.runs[m.runId], s.now)];
  }

  /** One statement that touches neither the ledger nor the broker. */
  lemma Act(s: Sys, w: nat, ok: bool, regime: Regime) returns (s': Sys)
    requires w in s.workers && s.workers[w].Executing? && IdOk(s.workers[w].exec.runId) && s.workers[w].exec.runId in s.runs
    requires regime == WithinLease ==> s.now <= s.workers[w].exec.until
    requires !MoveOf(s, w, ok).action.CommitEffect? && !MoveOf(s, w, ok).action.ConsumeCredential?
    ensures s' == Next(s, Stmt(w, ok), regime) == Reach(s, [Stmt(w, ok)], regime)
    ensures var e, move := s.workers[w].exec, MoveOf(s, w, ok);
            && s'.runs == s.runs[e.runId := Write(s.runs[e.runId], e.index, s.now, move.action)]
            && s'.workers == s.workers[w := if move.next.Some? then Executing(s.workers[w].msg, Forward(e, s.now, move)) else Finished(s.workers[w].msg)]
            && s' == s.(runs := s'.runs, workers := s'.workers)
  {
    s' := Next(s, Stmt(w, ok), regime);
    ReachOne(s, Stmt(w, ok), regime);
  }

  function Held1(handle: Option<string>): set<string> {
    if handle.Some? then {handle.value} else {}
  }

  /** A credential put in the broker of a fresh deployment, if there is one. */
  lemma Offer(def: Definition, maxActive: nat, handle: Option<string>, regime: Regime) returns (labels: seq<Label>, s: Sys)
    ensures s == Reach(Start(def, maxActive), labels, regime)
    ensures s == Start(def, maxActive).(broker := Held1(handle), issued := Held1(handle))
  {
    var init := Start(def, maxActive);
    if handle.Some? {
      labels := [Issue(handle.value)];
      s := Next(init, Issue(handle.value), regime);
      ReachOne(init, Issue(handle.value), regime);
    } else {
      labels, s := [], init;
    }
  }

  /** From a fresh deployment to an executor at the first step, all within the lease. */
  lemma Launch(def: Definition, maxActive: nat, handle: Option<string>, regime: Regime) returns (labels: seq<Label>, s: Sys)
    requires maxActive > 0
    ensures s == Reach(Start(def, maxActive), labels, regime)
    ensures var m := Message(0, 0, TENANT, FIRST);
            && s.runs == map[FIRST := ClaimRun(Asked("k1", 0, 0, def, 0, handle), 0)]
            && s.workers == map[0 := Opened(m, Asked("k1", 0, 0, def, 0, handle), 0)]
            && s.stream == {m} && s.publishers == map[0 := Publisher([m], 1, false)]
            && |s.outbox| == 1 && s.outbox[0].run == FIRST && s.outbox[0].published && s.outbox[0].tenant == TENANT
    ensures var init := Start(def, maxActive);
            && s.now == 0 && s.limits == init.limits && s.workflows == init.workflows && s.ledger == map[]
            && s.requests.Keys == {0} && s.keys == map[(TENANT, "k1") := FIRST] && s.broker == Held1(handle)
  {
    Ids();
    var init := Start(def, maxActive);
    var l0, s0 := Offer(def, maxActive, handle, regime);
    assert Occupying(s0.runs, TENANT) == {} && SinceThatDay(s0.runs, TENANT, 0) == {};
    var l1, s1 := Create(s0, 0, "k1", FIRST, handle, regime, def);
    var l2, s2 := Publish(s1, 0, 0, regime);
    var l3, s3 := Take(s2, Message(0, 0, TENANT, FIRST), 0, regime);
    ReachAppend(init, l0, l1, regime);
    ReachAppend(init, l0 + l1, l2, regime);
    ReachAppend(init, l0 + l1 + l2, l3, regime);
    labels, s := l0 + l1 + l2 + l3, s3;
  }

  lemma ApproveChanges(s: Sys, r: string, regime: Regime)
    requires r in s.runs && s.runs[r].state == AwaitingApproval
    ensures Next(s, Approve(r), regime) ==
            s.(runs := s.runs[r := ApproveRun(s.runs[r], |s.outbox|)],
               outbox := s.outbox + [OutboxRow(s.runs[r].cols.tenant, r, false, 0, {})])
  {
  }
}
