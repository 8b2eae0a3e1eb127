/** The tenant-facing store and handlers as code, tied to the protocol's labels: `createRun`
    with its unlocked lookup and locked commit, `transition`, and the approve and cancel
    decisions with their check outside the transaction. */
module ControlPlane {
  import opened Contracts
  import opened Runtime
  import opened Structure
  import opened Provider

  datatype Moved = RunNotFound | InvalidTransition | Done(run: Run)

  /** The row after an allowed transition; only an approval moves the step and enqueues. */
  function TransitionRow(run: Run, state: RunState, event: EventType, outboxId: nat): Run {
    var moved := run.(state := state, events := run.events + [event]);
    if state == Queued && event == Approved then
      moved.(step := run.step + 1,
             hist := run.hist.(approvals := run.hist.approvals + [run.step], enqueued := run.hist.enqueued + [outboxId]))
    else moved
  }

  /** What `transition` answers, and the database it leaves: untouched unless it moved. */
  function Transitioned(s: Sys, tenant: string, r: string, state: RunState, event: EventType): (Sys, Moved) {
    if r !in s.runs || s.runs[r].cols.tenant != tenant then (s, RunNotFound)
    else if state !in AllowedTransitions(s.runs[r].state) then (s, InvalidTransition)
    else
      var row := TransitionRow(s.runs[r], state, event, |s.outbox|);
      (s.(runs := s.runs[r := row],
          outbox := if state == Queued && event == Approved then s.outbox + [OutboxRow(tenant, r, false, 0, {})] else s.outbox),
       Done(row))
  }

  /** The two transitions the handlers request are the protocol's two labels. */
  lemma TransitionsAreLabels(s: Sys, tenant: string, r: string)
    ensures var approved := Transitioned(s, tenant, r, Queued, Approved);
            if approved.1.Done? then Enabled(s, Approve(r)) && approved.0 == Apply(s, Approve(r)) else approved.0 == s
    ensures var cancelled := Transitioned(s, tenant, r, Cancelled, CancelledEvent);
            if cancelled.1.Done? then Enabled(s, Cancel(r)) && cancelled.0 == Apply(s, Cancel(r)) else cancelled.0 == s
  {
  }

  datatype Role = Owner | Operator | Viewer

  datatype Decision = ApproveIt | CancelIt

  /** What any transition answers and writes: the state and the event asked for, for the
      tenant's own run and an allowed move only, and otherwise nothing. */
  lemma TransitionWrites(s: Sys, tenant: string, r: string, state: RunState, event: EventType)
    ensures var result := Transitioned(s, tenant, r, state, event);
            && (result.1.RunNotFound? <==> !(r in s.runs && s.runs[r].cols.tenant == tenant))
            && (result.1.Done? <==> r in s.runs && s.runs[r].cols.tenant == tenant && state in AllowedTransitions(s.runs[r].state))
            && (result.1.Done? ==>
                  && result.1.run.state == state && result.1.run.events == s.runs[r].events + [event]
                  && result.1.run.cols == s.runs[r].cols && result.0.runs == s.runs[r := result.1.run])
            && (!result.1.Done? ==> result.0 == s)
  {
  }

  /** What an approval leaves of the database it found: the run queued at the next step,
      with its event and one more outbox row. */
  predicate ApprovedIn(a: Sys, b: Sys, tenant: string, r: string) {
    && r in a.runs && r in b.runs
    && b == a.(runs := a.runs[r := b.runs[r]], outbox := a.outbox + [OutboxRow(tenant, r, false, 0, {})])
    && b.runs[r] == a.runs[r].(state := Queued, step := a.runs[r].step + 1, events := a.runs[r].events + [Approved], hist := b.runs[r].hist)
  }

  /** What a cancellation leaves: the run ended, with its event and nothing else. */
  predicate CancelledIn(a: Sys, b: Sys, r: string) {
    r in a.runs && b == a.(runs := a.runs[r := a.runs[r].(state := Cancelled, events := a.runs[r].events + [CancelledEvent])])
  }

  /** When the two transitions succeed and what they leave, said of states and rows. */
  lemma TransitionsDecide(s: Sys, tenant: string, r: string)
    ensures var approved := Transitioned(s, tenant, r, Queued, Approved);
            && (approved.1.Done? <==> r in s.runs && s.runs[r].cols.tenant == tenant && s.runs[r].state in {Leased, AwaitingApproval})
            && (approved.1.Done? ==> ApprovedIn(s, approved.0, tenant, r))
    ensures var cancelled := Transitioned(s, tenant, r, Cancelled, CancelledEvent);
            && (cancelled.1.Done? <==>
                  r in s.runs && s.runs[r].cols.tenant == tenant && s.runs[r].state !in {Succeeded, Failed, Cancelled, Uncertain})
            && (cancelled.1.Done? ==> CancelledIn(s, cancelled.0, r))
  {
  }

  predicate Visible(s: Sys, tenant: string, r: string) {
    r in s.runs && s.runs[r].cols.tenant == tenant
  }

  datatype Status = Ok | NotFound | Conflict | Failed500

  /** Labels that act for one create request, or that would take its run's identifier. */
  predicate ForRequest(l: Label, q: nat, id: string) {
    || ((l.CommitCreate? || l.AbandonCreate? || l.BeginCreate?) && l.request == q)
    || (l.CommitCreate? && l.id == id)
  }

  /** Labels that put a handle into another request or make the broker forget it. */
  predicate Uses(l: Label, handle: string) {
    l == Forget(handle) || (l.BeginCreate? && l.credential == Some(handle))
  }

  predicate Unused(labels: seq<Label>, handle: string) {
    forall i :: 0 <= i < |labels| ==> !Uses(labels[i], handle)
  }

  /** The broker holds the credential, and nobody but request `q` knows its handle. */
  predicate Kept(s: Sys, q: nat, handle: string) {
    handle in s.broker && NoRunHas(s.runs, handle) && NoOtherAsks(s.requests, q, handle) && NobodyWorksWith(s.workers, handle)
  }

  predicate NoRunHas(runs: map<string, Run>, handle: string) {
    forall r :: r in runs ==> runs[r].cols.handle != Some(handle)
  }

  predicate NoOtherAsks(requests: map<nat, Request>, q: nat, handle: string) {
    forall p :: p in requests && p != q ==> requests[p].handle != Some(handle)
  }

  predicate NobodyWorksWith(workers: map<nat, Worker>, handle: string) {
    forall w :: w in workers && workers[w].Executing? ==> workers[w].exec.cols.handle != Some(handle)
  }

  /** A run just inserted: queued at step 0 with its created event and one unpublished
      outbox row, dated by the start of the transaction. */
  predicate Inserted(before: Sys, after: Sys, id: string, tenant: string, key: string, input: string, workflow: string, q: nat) {
    && id in after.runs && workflow in after.workflows
    && after.runs[id].cols == Columns(tenant, key, input, after.workflows[workflow].def, after.runs[id].cols.handle, before.now, q)
    && IsNew(after.runs[id])
    && |after.outbox| > 0 && after.outbox[|after.outbox| - 1] == OutboxRow(tenant, id, false, 0, {})
  }

  predicate IsNew(run: Run) {
    run.state == Queued && run.step == 0 && run.events == [Created] && run.results == map[] && run.lease == None && run.attempts == 0
  }

  datatype CreateStatus = Created201 | Replayed200 | BadKey400 | NoWorkflow404 | Quota429 | Error500

  function StatusOf(answer: Phase): CreateStatus {
    match answer
    case Replied(_, replayed) => if replayed then Replayed200 else Created201
    case Refused(ActiveQuota) => Quota429
    case Refused(DailyQuota) => Quota429
    case Refused(WorkflowNotFound) => NoWorkflow404
    case _ => Error500
  }

  class PostgresStore {
    var db: Sys

    /** `queue_run_outbox`: refuses a foreign tenant context and a run that is not queued. */
    method QueueRunOutbox(context: string, tenant: string, r: string) returns (ok: bool)
      modifies this
      ensures ok <==> context == tenant && r in old(db).runs && old(db).runs[r].cols.tenant == tenant && old(db).runs[r].state == Queued
      ensures db == if ok then old(db).(outbox := old(db).outbox + [OutboxRow(tenant, r, false, 0, {})]) else old(db)
    {
      if context != tenant {
        return false;
      }
      if !(r in db.runs && db.runs[r].cols.tenant == tenant && db.runs[r].state == Queued) {
        return false;
      }
      db := db.(outbox := db.outbox + [OutboxRow(tenant, r, false, 0, {})]);
      return true;
    }

    /** `transition`: select for update, assert, update, event and, for an approval, the
        enqueue, in one transaction; the enqueue guard can never refuse here. */
    method Transition(tenant: string, r: string, state: RunState, event: EventType) returns (moved: Moved)
      modifies this
      ensures (db, moved) == Transitioned(old(db), tenant, r, state, event)
    {
      if r !in db.runs || db.runs[r].cols.tenant != tenant {
        return RunNotFound;
      }
      if state !in AllowedTransitions(db.runs[r].state) {
        return InvalidTransition;
      }
      var row := db.runs[r];
      var approving := state == Queued && event == Approved;
      if approving {
        row := row.(state := state, step := row.step + 1,
                    hist := row.hist.(approvals := row.hist.approvals + [row.step], enqueued := row.hist.enqueued + [|db.outbox|]));
      } else {
        row := row.(state := state);
      }
      row := row.(events := row.events + [event]);
      db := db.(runs := db.runs[r := row]);
      if approving {
        var queued := QueueRunOutbox(tenant, tenant, r);
        assert queued;
      }
      return Done(row);
    }

    /** Whatever else happens between two statements of this handler. */
    method Interleave(others: seq<Label>)
      modifies this
      ensures db == Reach(old(db), others, Unfenced)
    {
      for i := 0 to |others|
        invariant db == Reach(old(db), others[..i], Unfenced)
      {
        assert others[..i + 1] == others[..i] + [others[i]];
        ReachStep(old(db), others[..i], others[i], Unfenced);
        db := Next(db, others[i], Unfenced);
      }
      assert others[..|others|] == others;
    }

    /** The approve and cancel handlers: a role test, a read outside the transaction, then
        the transition, with `others` committing in between.  An approval queues the run at
        the next step and enqueues it; a cancellation only ends it. */
    method Decide(role: Role, tenant: string, r: string, decision: Decision, others: seq<Label>) returns (status: Status)
      modifies this
      ensures role == Viewer ==> status == Failed500 && db == old(db)
      ensures status.NotFound? <==> role != Viewer && !(r in old(db).runs && old(db).runs[r].cols.tenant == tenant)
      ensures role != Viewer && !status.NotFound? && decision.ApproveIt? ==>
                var reached := Reach(old(db), others, Unfenced);
                && (status.Conflict? <==> old(db).runs[r].state != AwaitingApproval)
                && (status.Ok? <==> old(db).runs[r].state == AwaitingApproval && r in reached.runs && reached.runs[r].state in {Leased, AwaitingApproval})
                && (status.Ok? ==> ApprovedIn(reached, db, tenant, r) && Enabled(reached, Approve(r)) && db == Apply(reached, Approve(r)))
      ensures role != Viewer && !status.NotFound? && decision.CancelIt? ==>
                var reached := Reach(old(db), others, Unfenced);
                && (status.Conflict? <==> old(db).runs[r].state in {Succeeded, Failed, Cancelled, Uncertain})
                && (status.Ok? <==> !status.Conflict? && r in reached.runs && reached.runs[r].state !in {Succeeded, Failed, Cancelled, Uncertain})
                && (status.Ok? ==> CancelledIn(reached, db, r) && Enabled(reached, Cancel(r)) && db == Apply(reached, Cancel(r)))
      ensures !status.Ok? ==> db == old(db) || db == Reach(old(db), others, Unfenced)
      ensures others == [] ==>
                (status.Ok? <==>
                  && role != Viewer && r in old(db).runs && old(db).runs[r].cols.tenant == tenant
                  && if decision.ApproveIt? then old(db).runs[r].state == AwaitingApproval
                     else old(db).runs[r].state !in {Succeeded, Failed, Cancelled, Uncertain})
    {
      if !(role == Owner || role == Operator) {
        return Failed500;
      }
      if r !in db.runs || db.runs[r].cols.tenant != tenant {
        return NotFound;
      }
      var state := db.runs[r].state;
      if decision.ApproveIt? && state != AwaitingApproval {
        return Conflict;
      }
      if decision.CancelIt? && state in {Succeeded, Failed, Cancelled, Uncertain} {
        return Conflict;
      }
      Interleave(others);
      ColumnsStay(old(db), others, Unfenced);
      if decision.ApproveIt? {
        status := ApproveRow(tenant, r);
      } else {
        status := CancelRow(tenant, r);
      }
    }

    method ApproveRow(tenant: string, r: string) returns (status: Status)
      modifies this
      ensures status in {Ok, Failed500}
      ensures status.Ok? <==> r in old(db).runs && old(db).runs[r].cols.tenant == tenant && old(db).runs[r].state in {Leased, AwaitingApproval}
      ensures status.Ok? ==> ApprovedIn(old(db), db, tenant, r) && Enabled(old(db), Approve(r)) && db == Apply(old(db), Approve(r))
      ensures !status.Ok? ==> db == old(db)
    {
      TransitionsDecide(db, tenant, r);
      TransitionsAreLabels(db, tenant, r);
      var moved := Transition(tenant, r, Queued, Approved);
      return if moved.Done? then Ok else Failed500;
    }

    method CancelRow(tenant: string, r: string) returns (status: Status)
      modifies this
      ensures status in {Ok, Failed500}
      ensures status.Ok? <==>
                r in old(db).runs && old(db).runs[r].cols.tenant == tenant && old(db).runs[r].state !in {Succeeded, Failed, Cancelled, Uncertain}
      ensures status.Ok? ==> CancelledIn(old(db), db, r) && Enabled(old(db), Cancel(r)) && db == Apply(old(db), Cancel(r))
      ensures !status.Ok? ==> db == old(db)
    {
      TransitionsDecide(db, tenant, r);
      TransitionsAreLabels(db, tenant, r);
      var moved := Transition(tenant, r, Cancelled, CancelledEvent);
      return if moved.Done? then Ok else Failed500;
    }

    /** `createRun`: an unlocked lookup, then, under the tenant's limits row, the quota
        checks, the insert, the event and the enqueue.  `others` is what commits between
        the two; `id` is the fresh identifier the insert would use. */
    method CreateRun(q: nat, tenant: string, key: string, input: string, workflow: string, credential: Option<string>,
                     id: string, others: seq<Label>)
      returns (answer: Phase, ghost trace: seq<Label>)
      requires Enabled(db, BeginCreate(q, tenant, key, input, workflow, credential)) && FreshId(db, id)
      requires forall i :: 0 <= i < |others| ==> !ForRequest(others[i], q, id)
      modifies this
      ensures db == Reach(old(db), trace, Unfenced)
      ensures q in db.requests && db.requests[q].phase == answer && !answer.Waiting? && !answer.Abandoned?
      ensures db.requests[q].tenant == tenant && db.requests[q].key == key
      ensures trace == [BeginCreate(q, tenant, key, input, workflow, credential)] +
                       if (tenant, key) in old(db).keys then [] else others + [CommitCreate(q, id)]
      ensures answer.Replied? && !answer.replayed ==>
                && answer.run == id && id in db.runs && db.runs[id].cols.handle == credential
                && Inserted(old(db), db, id, tenant, key, input, workflow, q)
      ensures credential.Some? && Kept(old(db), q, credential.value) && Unused(others, credential.value) ==>
                answer.Refused? ==> Kept(db, q, credential.value)
    {
      ghost var before, begin := db, BeginCreate(q, tenant, key, input, workflow, credential);
      trace := [begin];
      ReachOne(before, begin, Unfenced);
      if (tenant, key) in db.keys {
        answer := Replied(db.keys[(tenant, key)], true);
        db := db.(requests := db.requests[q := Request(tenant, key, input, workflow, credential, db.now, answer)]);
        assert trace + [] == trace;
        return;
      }
      db := db.(requests := db.requests[q := Request(tenant, key, input, workflow, credential, db.now, Waiting)]);
      ghost var waiting := db;
      RequestWaits(db, others, q, id);
      if credential.Some? && Kept(before, q, credential.value) && Unused(others, credential.value) {
        StaysKept(db, others, q, id, credential.value);
      }
      Interleave(others);
      ReachAppend(before, trace, others, Unfenced);
      answer := Admission(q, id);
      ReachAppend(before, trace, others + [CommitCreate(q, id)], Unfenced);
      ReachStep(waiting, others, CommitCreate(q, id), Unfenced);
      trace := trace + (others + [CommitCreate(q, id)]);
    }

    /** The create-run handler: a supplied credential is put in the broker under a fresh
        handle before the store is asked.  Afterwards the new run carries that handle, or,
        when the answer is a replay, the broker holds it no longer. */
    method SubmitRun(role: Role, key: string, supplied: bool, handle: string, q: nat, tenant: string, input: string,
                     workflow: string, id: string, others: seq<Label>)
      returns (status: CreateStatus, ghost trace: seq<Label>)
      requires handle !in db.issued && q !in db.requests && FreshId(db, id)
      requires forall i :: 0 <= i < |others| ==> !ForRequest(others[i], q, id)
      modifies this
      ensures db == Reach(old(db), trace, Unfenced)
      ensures role == Viewer || !(16 <= |key| <= 128) ==> trace == [] && status == if role == Viewer then Error500 else BadKey400
      ensures role != Viewer && 16 <= |key| <= 128 ==>
                && q in db.requests && db.requests[q].tenant == tenant && db.requests[q].key == key
                && (status == Created201 <==> db.requests[q].phase == Replied(id, false))
                && (status == Replayed200 <==> db.requests[q].phase.Replied? && db.requests[q].phase.replayed)
                && (status == Quota429 <==> db.requests[q].phase in {Refused(ActiveQuota), Refused(DailyQuota)})
                && (status == NoWorkflow404 <==> db.requests[q].phase == Refused(WorkflowNotFound))
                && (status == Error500 <==> db.requests[q].phase in {Refused(LimitsMissing), Refused(HandleTaken)})
      ensures status.Created201? ==>
                && id in db.runs && db.runs[id].cols.handle == (if supplied then Some(handle) else None)
                && Inserted(old(db), db, id, tenant, key, input, workflow, q)
      ensures status.Replayed200? && supplied ==> handle !in db.broker
      ensures supplied && Guarded(old(db)) && Unused(others, handle) ==>
                q in db.requests && db.requests[q].phase.Refused? ==> Kept(db, q, handle)
    {
      trace := [];
      if !(role == Owner || role == Operator) {
        return Error500, trace;
      }
      if |key| < 16 || |key| > 128 {
        return BadKey400, trace;
      }
      var answer;
      if supplied {
        answer, trace := CreateWithCredential(handle, q, tenant, key, input, workflow, id, others);
      } else {
        answer, trace := CreateRun(q, tenant, key, input, workflow, None, id, others);
      }
      return StatusOf(answer), trace;
    }

    method CreateWithCredential(handle: string, q: nat, tenant: string, key: string, input: string, workflow: string,
                                id: string, others: seq<Label>)
      returns (answer: Phase, ghost trace: seq<Label>)
      requires handle !in db.issued && q !in db.requests && FreshId(db, id)
      requires forall i :: 0 <= i < |others| ==> !ForRequest(others[i], q, id)
      modifies this
      ensures db == Reach(old(db), trace, Unfenced)
      ensures q in db.requests && db.requests[q].phase == answer && db.requests[q].tenant == tenant && db.requests[q].key == key
      ensures answer.Replied? && !answer.replayed ==>
                && answer.run == id && id in db.runs && db.runs[id].cols.handle == Some(handle)
                && Inserted(old(db), db, id, tenant, key, input, workflow, q)
      ensures !answer.Waiting? && !answer.Abandoned?
      ensures answer.Replied? && answer.replayed ==> handle !in db.broker
      ensures Guarded(old(db)) && Unused(others, handle) && answer.Refused? ==> Kept(db, q, handle)
    {
      ghost var before := db;
      trace := Offer(handle, q);
      ghost var created;
      answer, created := CreateRun(q, tenant, key, input, workflow, Some(handle), id, others);
      ReachAppend(before, trace, created, Unfenced);
      trace := trace + created;
      if answer.Replied? && answer.replayed {
        Discard(handle);
        ReachStep(before, trace, Forget(handle), Unfenced);
        trace := trace + [Forget(handle)];
      }
    }

    method Offer(handle: string, ghost q: nat) returns (ghost trace: seq<Label>)
      requires handle !in db.issued
      modifies this
      ensures trace == [Issue(handle)] && db == Reach(old(db), trace, Unfenced)
      ensures db == old(db).(broker := old(db).broker + {handle}, issued := old(db).issued + {handle})
      ensures Guarded(old(db)) ==> Kept(db, q, handle)
    {
      trace := [Issue(handle)];
      ReachOne(db, Issue(handle), Unfenced);
      db := db.(broker := db.broker + {handle}, issued := db.issued + {handle});
      if Guarded(old(db)) {
        FreshIsKept(old(db), db, q, handle);
      }
    }

    method Discard(handle: string)
      modifies this
      ensures db == Next(old(db), Forget(handle), Unfenced)
      ensures db == old(db).(broker := old(db).broker - {handle})
    {
      db := db.(broker := db.broker - {handle});
    }

    /** The locked half, statement by statement. */
    method Admission(q: nat, id: string) returns (answer: Phase)
      requires Enabled(db, CommitCreate(q, id))
      modifies this
      ensures db == Apply(old(db), CommitCreate(q, id)) && q in db.requests && db.requests[q] == old(db).requests[q].(phase := answer)
      ensures !answer.Waiting? && !answer.Abandoned? && (answer.Replied? && !answer.replayed ==> answer.run == id)
      ensures answer == Replied(id, false) ==>
                && id in db.runs && db.runs[id].cols.handle == old(db).requests[q].handle && db.workflows == old(db).workflows
                && (var req := old(db).requests[q];
                    req.workflow in db.workflows &&
                    Inserted(old(db).(now := req.started), db, id, req.tenant, req.key, req.input, req.workflow, q))
      ensures answer.Refused? ==> db == old(db).(requests := db.requests)
    {
      CommitChanges(db, q, id);
      var req := db.requests[q];
      if req.tenant !in db.limits {
        answer := Refused(LimitsMissing);
      } else if |ActiveRuns(db.runs, req.tenant)| >= db.limits[req.tenant].maxActive {
        answer := Refused(ActiveQuota);
      } else if |CreatedSince(db.runs, req.tenant, DayStart(req.started))| >= db.limits[req.tenant].maxPerDay {
        answer := Refused(DailyQuota);
      } else if req.workflow !in db.workflows || db.workflows[req.workflow].tenant != req.tenant {
        answer := Refused(WorkflowNotFound);
      } else if (req.tenant, req.key) in db.keys {
        answer := Replied(db.keys[(req.tenant, req.key)], true);
      } else if Taken(db.runs, req.handle) {
        answer := Refused(HandleTaken);
      } else {
        answer := Replied(id, false);
        var cols := Columns(req.tenant, req.key, req.input, db.workflows[req.workflow].def, req.handle, req.started, q);
        var row := Run(cols, Queued, 0, None, 0, map[], [], History([|db.outbox|], [], {}, 0, 0));
        row := row.(events := row.events + [Created]);
        assert row == NewRun(db, q) && Inserts(db, q);
        db := db.(runs := db.runs[id := row], keys := db.keys[(req.tenant, req.key) := id]);
        var queued := QueueRunOutbox(req.tenant, req.tenant, id);
        assert queued;
      }
      db := db.(requests := db.requests[q := req.(phase := answer)]);
    }
  }

  lemma FreshIsKept(s: Sys, s': Sys, q: nat, handle: string)
    requires Guarded(s) && handle !in s.issued
    requires s' == s.(broker := s.broker + {handle}, issued := s.issued + {handle})
    ensures Kept(s', q, handle)
  {
    forall w | w in s.workers && s.workers[w].Executing? ensures s.workers[w].exec.cols.handle != Some(handle) {
      assert WorkerOk(s.runs, s.outbox, s.workers[w]);
    }
  }

  /** Nobody else's step consumes the credential or spreads its handle. */
  lemma KeptStep(s: Sys, l: Label, q: nat, id: string, handle: string)
    requires Enabled(s, l) && Kept(s, q, handle) && !Uses(l, handle) && !ForRequest(l, q, id)
    ensures Kept(Apply(s, l), q, handle)
  {
    RunsStayWithout(s, l, q, id, handle);
    WorkersStayWithout(s, l, handle);
  }

  lemma RunsStayWithout(s: Sys, l: Label, q: nat, id: string, handle: string)
    requires Enabled(s, l) && NoRunHas(s.runs, handle) && NoOtherAsks(s.requests, q, handle) && !ForRequest(l, q, id)
    ensures NoRunHas(RunsAfter(s, l), handle)
  {
    Immutable(s, l);
    forall r | r in RunsAfter(s, l) ensures RunsAfter(s, l)[r].cols.handle != Some(handle) {
      if r !in s.runs {
        assert l.CommitCreate? && l.request != q;
      }
    }
  }

  lemma WorkersStayWithout(s: Sys, l: Label, handle: string)
    requires Enabled(s, l) && NoRunHas(s.runs, handle) && NobodyWorksWith(s.workers, handle)
    ensures NobodyWorksWith(WorkersAfter(s, l), handle)
  {
  }

  lemma {:induction false} StaysKept(s: Sys, others: seq<Label>, q: nat, id: string, handle: string)
    requires Kept(s, q, handle) && Unused(others, handle)
    requires forall i :: 0 <= i < |others| ==> !ForRequest(others[i], q, id)
    ensures Kept(Reach(s, others, Unfenced), q, handle)
  {
    if others != [] {
      var before, l := Reach(s, others[..|others| - 1], Unfenced), others[|others| - 1];
      StaysKept(s, others[..|others| - 1], q, id, handle);
      if Enabled(before, l) {
        KeptStep(before, l, q, id, handle);
      }
    }
  }

  /** What one commit changes, and nothing else. */
  lemma CommitChanges(s: Sys, q: nat, id: string)
    requires Enabled(s, CommitCreate(q, id))
    ensures var req := s.requests[q]; var requests := s.requests[q := req.(phase := CommitPhase(s, req, id))];
            Apply(s, CommitCreate(q, id)) ==
              if Inserts(s, q) then
                s.(runs := s.runs[id := NewRun(s, q)], keys := s.keys[(req.tenant, req.key) := id],
                   outbox := s.outbox + [OutboxRow(req.tenant, id, false, 0, {})], requests := requests)
              else s.(requests := requests)
  {
  }

  /** Nobody else answers the request or takes the identifier. */
  lemma {:induction false} RequestWaits(s: Sys, others: seq<Label>, q: nat, id: string)
    requires q in s.requests && s.requests[q].phase == Waiting && FreshId(s, id)
    requires forall i :: 0 <= i < |others| ==> !ForRequest(others[i], q, id)
    ensures Enabled(Reach(s, others, Unfenced), CommitCreate(q, id))
    ensures Reach(s, others, Unfenced).requests[q] == s.requests[q]
  {
    if others != [] {
      RequestWaits(s, others[..|others| - 1], q, id);
      var before, l := Reach(s, others[..|others| - 1], Unfenced), others[|others| - 1];
      if Enabled(before, l) {
        KeepsWaiting(before, l, q, id);
      }
    }
  }

  lemma KeepsWaiting(s: Sys, l: Label, q: nat, id: string)
    requires Enabled(s, l) && Enabled(s, CommitCreate(q, id)) && !ForRequest(l, q, id)
    ensures q in RequestsAfter(s, l) && RequestsAfter(s, l)[q] == s.requests[q] && id !in RunsAfter(s, l)
  {
  }
}
