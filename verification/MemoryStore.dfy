/** The in-memory store: shared run objects, an idempotency index on `tenant:key` and an
    append-only audit list. */
module MemoryStore {
  import opened Contracts
  import opened Keys

  datatype Principal = Principal(tenant: string, subject: string)

  datatype StoredWorkflow = StoredWorkflow(tenant: string, def: Definition, createdAt: nat)

  datatype Event = Event(at: nat, kind: EventType, detail: string)

  datatype Audit = Audit(at: nat, tenant: string, subject: string, action: string, resource: string)

  /** The value of a run object at one moment. */
  datatype Snapshot = Snapshot(
    id: string, tenant: string, workflow: string, input: string, key: string, createdAt: nat,
    state: RunState, events: seq<Event>)

  datatype Mem = Mem(
    workflows: map<string, StoredWorkflow>,
    runs: map<string, Snapshot>,
    idempotency: map<string, string>,
    audits: seq<Audit>)

  const Empty := Mem(map[], map[], map[], [])

  function EventName(kind: EventType): string {
    match kind
    case Created => "created"
    case LeasedEvent => "leased"
    case Started => "started"
    case ApprovalRequested => "approval_requested"
    case Approved => "approved"
    case CancelledEvent => "cancelled"
    case SucceededEvent => "succeeded"
    case FailedEvent => "failed"
    case UncertainEvent => "uncertain"
  }

  function RunAction(kind: EventType): string {
    "run." + EventName(kind)
  }

  /** The audit names of the contract's event types. */
  lemma AuditNames(kind: EventType)
    ensures RunAction(kind) == match kind
                               case Created => "run.created"
                               case LeasedEvent => "run.leased"
                               case Started => "run.started"
                               case ApprovalRequested => "run.approval_requested"
                               case Approved => "run.approved"
                               case CancelledEvent => "run.cancelled"
                               case SucceededEvent => "run.succeeded"
                               case FailedEvent => "run.failed"
                               case UncertainEvent => "run.uncertain"
  {
  }

  /** No two event types share one, so an audit record tells its event. */
  lemma AuditNamesDiffer(a: EventType, b: EventType)
    requires RunAction(a) == RunAction(b)
    ensures a == b
  {
    assert RunAction(a)[4..] == EventName(a) && RunAction(b)[4..] == EventName(b);
    SameName(a, b);
  }

  lemma SameName(a: EventType, b: EventType)
    requires EventName(a) == EventName(b)
    ensures a == b
  {
    assert |EventName(a)| == |EventName(b)| && EventName(a)[0] == EventName(b)[0] && EventName(a)[1] == EventName(b)[1];
  }

  /** Calls carry the identifier a creation draws and the clock readings. */
  datatype Call =
    | CreateWorkflow(who: Principal, def: Definition, id: string, now: nat)
    | CreateRun(who: Principal, workflow: string, input: string, key: string, id: string, now: nat)
    | ReadRun(who: Principal, run: string)
    | Transition(who: Principal, run: string, state: RunState, event: Event, now: nat)

  datatype Problem = MissingRun | WorkflowNotFound | RunNotFound | InvalidTransition

  datatype Reply = NewWorkflow(id: string) | Answer(run: Snapshot, replayed: bool) | Found(run: Snapshot) | Undefined | Thrown(problem: Problem)

  predicate Owns(m: Mem, tenant: string, run: string) {
    run in m.runs && m.runs[run].tenant == tenant
  }

  function Audited(m: Mem, who: Principal, action: string, resource: string, now: nat): Mem {
    m.(audits := m.audits + [Audit(now, who.tenant, who.subject, action, resource)])
  }

  function NewSnapshot(c: Call): Snapshot
    requires c.CreateRun?
  {
    Snapshot(c.id, c.who.tenant, c.workflow, c.input, c.key, c.now, Queued, [Event(c.now, Created, "Run queued")])
  }

  /** Exactly the calls that insert a run. */
  predicate Inserting(m: Mem, c: Call) {
    && c.CreateRun? && MemoryKey(c.who.tenant, c.key) !in m.idempotency
    && c.workflow in m.workflows && m.workflows[c.workflow].tenant == c.who.tenant
  }

  /** Exactly the calls that move a run. */
  predicate Moving(m: Mem, c: Call) {
    c.Transition? && Owns(m, c.who.tenant, c.run) && c.state in AllowedTransitions(m.runs[c.run].state)
  }

  function Moved(run: Snapshot, c: Call): Snapshot
    requires c.Transition?
  {
    run.(state := c.state, events := run.events + [c.event])
  }

  function After(m: Mem, c: Call): Mem {
    if c.CreateWorkflow? then
      Audited(m.(workflows := m.workflows[c.id := StoredWorkflow(c.who.tenant, c.def, c.now)]), c.who, "workflow.created", c.id, c.now)
    else if Inserting(m, c) then
      Audited(m.(runs := m.runs[c.id := NewSnapshot(c)], idempotency := m.idempotency[MemoryKey(c.who.tenant, c.key) := c.id]),
              c.who, RunAction(Created), c.id, c.now)
    else if Moving(m, c) then
      Audited(m.(runs := m.runs[c.run := Moved(m.runs[c.run], c)]), c.who, RunAction(c.event.kind), c.run, c.now)
    else m
  }

  function ReplyTo(m: Mem, c: Call): Reply {
    match c
    case CreateWorkflow(_, _, id, _) => NewWorkflow(id)
    case CreateRun(who, wf, _, key, _, _) =>
      var entry := MemoryKey(who.tenant, key);
      if entry in m.idempotency then
        if m.idempotency[entry] in m.runs then Answer(m.runs[m.idempotency[entry]], true) else Thrown(MissingRun)
      else if Inserting(m, c) then Answer(NewSnapshot(c), false)
      else Thrown(WorkflowNotFound)
    case ReadRun(who, run) => if Owns(m, who.tenant, run) then Found(m.runs[run]) else Undefined
    case Transition(who, run, _, _, _) =>
      if !Owns(m, who.tenant, run) then Thrown(RunNotFound)
      else if Moving(m, c) then Found(Moved(m.runs[run], c))
      else Thrown(InvalidTransition)
  }

  /******* The store as objects *******/

  class StoredRun {
    const id: string
    const tenant: string
    const workflow: string
    const input: string
    const key: string
    const createdAt: nat
    var state: RunState
    var events: seq<Event>

    constructor (id: string, tenant: string, workflow: string, input: string, key: string, now: nat)
      ensures Value() == Snapshot(id, tenant, workflow, input, key, now, Queued, [Event(now, Created, "Run queued")])
    {
      this.id, this.tenant, this.workflow := id, tenant, workflow;
      this.input, this.key, this.createdAt := input, key, now;
      state := Queued;
      events := [Event(now, Created, "Run queued")];
    }

    function Value(): Snapshot
      reads this
    {
      Snapshot(id, tenant, workflow, input, key, createdAt, state, events)
    }
  }

  datatype Outcome = Run(run: StoredRun, replayed: bool) | Existing(run: StoredRun) | Absent | Error(problem: Problem)

  class InMemoryDurableStore {
    var workflows: map<string, StoredWorkflow>
    var runs: map<string, StoredRun>
    var idempotency: map<string, string>
    var audits: seq<Audit>

    /** Run objects are filed under their own identifier, hence pairwise distinct. */
    ghost predicate Valid()
      reads this
    {
      forall r :: r in runs ==> runs[r].id == r
    }

    ghost function View(): Mem
      reads this, runs.Values
    {
      Mem(workflows, map r | r in runs :: runs[r].Value(), idempotency, audits)
    }

    /** What a caller sees of an outcome now; the object stays shared with the store. */
    ghost predicate Shows(outcome: Outcome, reply: Reply)
      reads this, runs.Values, if outcome.Run? || outcome.Existing? then {outcome.run} else {}
    {
      match outcome
      case Run(run, replayed) => run in runs.Values && reply == Answer(run.Value(), replayed)
      case Existing(run) => run in runs.Values && reply == Found(run.Value())
      case Absent => reply == Undefined
      case Error(problem) => reply == Thrown(problem)
    }

    constructor ()
      ensures Valid() && View() == Empty && runs == map[]
    {
      workflows, runs, idempotency, audits := map[], map[], map[], [];
    }

    method Record(who: Principal, action: string, resource: string, now: nat)
      requires Valid()
      modifies this`audits
      ensures Valid() && View() == Audited(old(View()), who, action, resource, now)
    {
      audits := audits + [Audit(now, who.tenant, who.subject, action, resource)];
    }

    method AddWorkflow(who: Principal, def: Definition, id: string, now: nat)
      requires Valid()
      modifies this
      ensures Valid() && runs == old(runs)
      ensures View() == After(old(View()), CreateWorkflow(who, def, id, now))
    {
      workflows := workflows[id := StoredWorkflow(who.tenant, def, now)];
      Record(who, "workflow.created", id, now);
    }

    method AddRun(who: Principal, workflow: string, input: string, key: string, id: string, now: nat) returns (outcome: Outcome)
      requires Valid() && id !in runs
      modifies this
      ensures Valid() && View() == After(old(View()), CreateRun(who, workflow, input, key, id, now))
      ensures Shows(outcome, ReplyTo(old(View()), CreateRun(who, workflow, input, key, id, now)))
      ensures outcome.Run? && !outcome.replayed ==>
                && fresh(outcome.run) && id in runs && runs[id] == outcome.run
                && outcome.run.Value() == Snapshot(id, who.tenant, workflow, input, key, now, Queued, [Event(now, Created, "Run queued")])
    {
      var entry := MemoryKey(who.tenant, key);
      if entry in idempotency {
        var prior := idempotency[entry];
        if prior !in runs {
          return Error(MissingRun);
        }
        return Run(runs[prior], true);
      }
      if workflow !in workflows || workflows[workflow].tenant != who.tenant {
        return Error(WorkflowNotFound);
      }
      ghost var before := View();
      var run := new StoredRun(id, who.tenant, workflow, input, key, now);
      runs := runs[id := run];
      idempotency := idempotency[entry := id];
      assert View().runs == before.runs[id := run.Value()];
      assert RunAction(Created) == "run.created";
      Record(who, "run.created", id, now);
      assert runs[id] == run;
      return Run(run, false);
    }

    method FindRun(who: Principal, r: string) returns (outcome: Outcome)
      requires Valid()
      ensures Shows(outcome, ReplyTo(View(), ReadRun(who, r)))
      ensures outcome.Existing? ==> r in runs && outcome.run == runs[r]
    {
      if r in runs && runs[r].tenant == who.tenant {
        return Existing(runs[r]);
      }
      return Absent;
    }

    /** The run object itself is updated, so every earlier answer holding it changes too. */
    method MoveRun(who: Principal, r: string, state: RunState, event: Event, now: nat) returns (outcome: Outcome)
      requires Valid()
      modifies this`audits, if r in runs then {runs[r]} else {}
      ensures Valid() && View() == After(old(View()), Transition(who, r, state, event, now))
      ensures Shows(outcome, ReplyTo(old(View()), Transition(who, r, state, event, now)))
      ensures outcome.Existing? ==>
                && r in runs && outcome.run == runs[r] && runs[r].tenant == who.tenant
                && runs[r].state == state && runs[r].events == old(runs[r].events) + [event]
    {
      var found := FindRun(who, r);
      if !found.Existing? {
        return Error(RunNotFound);
      }
      var run := found.run;
      if state !in AllowedTransitions(run.state) {
        return Error(InvalidTransition);
      }
      ghost var before := View();
      run.state := state;
      run.events := run.events + [event];
      assert View().runs == before.runs[r := run.Value()];
      Record(who, RunAction(event.kind), r, now);
      return Existing(run);
    }

    method ListAudit(who: Principal) returns (records: seq<Audit>)
      ensures records == OfTenant(audits, who.tenant)
    {
      records := [];
      for i := 0 to |audits|
        invariant records == OfTenant(audits[..i], who.tenant)
      {
        assert audits[..i + 1][..i] == audits[..i];
        if audits[i].tenant == who.tenant {
          records := records + [audits[i]];
        }
      }
      assert audits[..|audits|] == audits;
    }
  }

  function OfTenant(audits: seq<Audit>, tenant: string): seq<Audit> {
    if audits == [] then []
    else
      var rest, last := OfTenant(audits[..|audits| - 1], tenant), audits[|audits| - 1];
      if last.tenant == tenant then rest + [last] else rest
  }

  /******* Histories *******/

  predicate FreshFor(m: Mem, c: Call) {
    (c.CreateWorkflow? || c.CreateRun?) ==> c.id !in m.workflows && c.id !in m.runs
  }

  function Replay(calls: seq<Call>): Mem {
    if calls == [] then Empty else After(Replay(calls[..|calls| - 1]), calls[|calls| - 1])
  }

  /** Histories whose creations draw fresh identifiers. */
  predicate Drawn(calls: seq<Call>) {
    calls == [] || (Drawn(calls[..|calls| - 1]) && FreshFor(Replay(calls[..|calls| - 1]), calls[|calls| - 1]))
  }

  /** The actions audited for one resource, in order, and the tenants that did them. */
  function ActionsOn(audits: seq<Audit>, resource: string): seq<string> {
    if audits == [] then []
    else
      var rest, last := ActionsOn(audits[..|audits| - 1], resource), audits[|audits| - 1];
      if last.resource == resource then rest + [last.action] else rest
  }

  function Actions(events: seq<Event>): seq<string> {
    seq(|events|, i requires 0 <= i < |events| => RunAction(events[i].kind))
  }

  /** The states one run took, one per event. */
  function Trail(calls: seq<Call>, r: string): seq<RunState> {
    if calls == [] then []
    else
      var prefix, c := calls[..|calls| - 1], calls[|calls| - 1];
      if Inserting(Replay(prefix), c) && c.id == r then Trail(prefix, r) + [Queued]
      else if Moving(Replay(prefix), c) && c.run == r then Trail(prefix, r) + [c.state]
      else Trail(prefix, r)
  }

  predicate AllowedPath(trail: seq<RunState>) {
    && (trail != [] ==> trail[0] == Queued)
    && (forall i :: 0 < i < |trail| ==> trail[i] in AllowedTransitions(trail[i - 1]))
  }

  predicate EntryPoints(m: Mem, entry: string) {
    entry in m.idempotency && m.idempotency[entry] in m.runs &&
    MemoryKey(m.runs[m.idempotency[entry]].tenant, m.runs[m.idempotency[entry]].key) == entry
  }

  predicate Indexed(m: Mem, r: string) {
    r in m.runs && m.runs[r].id == r && MemoryKey(m.runs[r].tenant, m.runs[r].key) in m.idempotency &&
    m.idempotency[MemoryKey(m.runs[r].tenant, m.runs[r].key)] == r
  }

  predicate AuditKnown(m: Mem, a: Audit) {
    if a.resource in m.runs then m.runs[a.resource].tenant == a.tenant else a.resource in m.workflows
  }

  predicate RunHeld(m: Mem, r: string) {
    && Indexed(m, r) && r !in m.workflows && ActionsOn(m.audits, r) == Actions(m.runs[r].events)
  }

  predicate Held(m: Mem) {
    && (forall e :: e in m.idempotency ==> EntryPoints(m, e))
    && (forall r :: r in m.runs ==> RunHeld(m, r))
    && (forall i :: 0 <= i < |m.audits| ==> AuditKnown(m, m.audits[i]))
  }

  lemma ActionsAppend(audits: seq<Audit>, a: Audit, r: string)
    ensures ActionsOn(audits + [a], r) == if a.resource == r then ActionsOn(audits, r) + [a.action] else ActionsOn(audits, r)
  {
    assert (audits + [a])[..|audits|] == audits;
  }

  lemma {:induction false} Unmentioned(audits: seq<Audit>, r: string)
    requires forall i :: 0 <= i < |audits| ==> audits[i].resource != r
    ensures ActionsOn(audits, r) == []
  {
    if audits != [] {
      Unmentioned(audits[..|audits| - 1], r);
    }
  }

  lemma NeverAudited(m: Mem, id: string)
    requires Held(m) && id !in m.runs && id !in m.workflows
    ensures ActionsOn(m.audits, id) == []
  {
    assert forall i :: 0 <= i < |m.audits| ==> AuditKnown(m, m.audits[i]);
    Unmentioned(m.audits, id);
  }

  /** What a call adds to the actions on one resource. */
  lemma AuditsAfter(m: Mem, c: Call, r: string)
    ensures ActionsOn(After(m, c).audits, r) == ActionsOn(m.audits, r) +
            if c.CreateWorkflow? && c.id == r then ["workflow.created"]
            else if Inserting(m, c) && c.id == r then [RunAction(Created)]
            else if Moving(m, c) && c.run == r then [RunAction(c.event.kind)]
            else []
  {
    if |After(m, c).audits| > |m.audits| {
      ActionsAppend(m.audits, After(m, c).audits[|m.audits|], r);
    }
  }

  lemma RunStaysHeld(m: Mem, c: Call, r: string)
    requires Held(m) && FreshFor(m, c) && r in After(m, c).runs
    ensures RunHeld(After(m, c), r)
  {
    assert r in m.runs ==> RunHeld(m, r);
    AuditsAfter(m, c, r);
    if Inserting(m, c) && c.id == r {
      NeverAudited(m, r);
      assert Actions(NewSnapshot(c).events) == [RunAction(Created)];
    } else if Moving(m, c) && c.run == r {
      assert Actions(m.runs[r].events + [c.event]) == Actions(m.runs[r].events) + [RunAction(c.event.kind)];
    }
  }

  lemma HeldStep(m: Mem, c: Call)
    requires Held(m) && FreshFor(m, c)
    ensures Held(After(m, c))
  {
    forall r | r in After(m, c).runs ensures RunHeld(After(m, c), r) {
      RunStaysHeld(m, c, r);
    }
    forall e | e in After(m, c).idempotency ensures EntryPoints(After(m, c), e) {
      if e in m.idempotency {
        assert EntryPoints(m, e);
      }
    }
    forall i | 0 <= i < |After(m, c).audits| ensures AuditKnown(After(m, c), After(m, c).audits[i]) {
      if i < |m.audits| {
        assert AuditKnown(m, m.audits[i]);
      }
    }
  }

  lemma {:induction false} HeldAlways(calls: seq<Call>)
    requires Drawn(calls)
    ensures Held(Replay(calls))
  {
    if calls != [] {
      HeldAlways(calls[..|calls| - 1]);
      HeldStep(Replay(calls[..|calls| - 1]), calls[|calls| - 1]);
    }
  }

  /** A run's audit records are exactly its events, in order and under their names, and all
      of them are its own tenant's. */
  lemma AuditsMirrorEvents(calls: seq<Call>, r: string)
    requires Drawn(calls) && r in Replay(calls).runs
    ensures var m := Replay(calls);
            && ActionsOn(m.audits, r) == Actions(m.runs[r].events)
            && ActionsOn(OfTenant(m.audits, m.runs[r].tenant), r) == Actions(m.runs[r].events)
            && (forall t :: t != m.runs[r].tenant ==> ActionsOn(OfTenant(m.audits, t), r) == [])
  {
    HeldAlways(calls);
    var m := Replay(calls);
    assert RunHeld(m, r);
    forall i | 0 <= i < |m.audits| && m.audits[i].resource == r ensures m.audits[i].tenant == m.runs[r].tenant {
      assert AuditKnown(m, m.audits[i]);
    }
    TenantKeepsActions(m.audits, m.runs[r].tenant, r);
    forall t | t != m.runs[r].tenant ensures ActionsOn(OfTenant(m.audits, t), r) == [] {
      TenantHidesActions(m.audits, t, r);
    }
  }

  lemma {:induction false} TenantKeepsActions(audits: seq<Audit>, tenant: string, r: string)
    requires forall i :: 0 <= i < |audits| && audits[i].resource == r ==> audits[i].tenant == tenant
    ensures ActionsOn(OfTenant(audits, tenant), r) == ActionsOn(audits, r)
  {
    if audits != [] {
      var prefix, last := audits[..|audits| - 1], audits[|audits| - 1];
      TenantKeepsActions(prefix, tenant, r);
      ActionsAppend(OfTenant(prefix, tenant), last, r);
    }
  }

  lemma {:induction false} TenantHidesActions(audits: seq<Audit>, tenant: string, r: string)
    requires forall i :: 0 <= i < |audits| && audits[i].resource == r ==> audits[i].tenant != tenant
    ensures ActionsOn(OfTenant(audits, tenant), r) == []
  {
    if audits != [] {
      var prefix, last := audits[..|audits| - 1], audits[|audits| - 1];
      TenantHidesActions(prefix, tenant, r);
      ActionsAppend(OfTenant(prefix, tenant), last, r);
    }
  }

  /** The states of a run form a path of the table from `queued`, one state per event,
      ending where the run now stands. */
  lemma {:induction false} StatesFollowTable(calls: seq<Call>, r: string)
    requires Drawn(calls)
    ensures AllowedPath(Trail(calls, r))
    ensures r !in Replay(calls).runs ==> Trail(calls, r) == []
    ensures r in Replay(calls).runs ==>
              && |Trail(calls, r)| == |Replay(calls).runs[r].events| > 0
              && Trail(calls, r)[|Trail(calls, r)| - 1] == Replay(calls).runs[r].state
  {
    if calls != [] {
      StatesFollowTable(calls[..|calls| - 1], r);
    }
  }

  /** The missing-run error is unreachable, whatever characters tenants and keys hold. */
  lemma NeverMissing(calls: seq<Call>, c: Call)
    requires Drawn(calls)
    ensures ReplyTo(Replay(calls), c) != Thrown(MissingRun)
  {
    HeldAlways(calls);
    if c.CreateRun? && MemoryKey(c.who.tenant, c.key) in Replay(calls).idempotency {
      assert EntryPoints(Replay(calls), MemoryKey(c.who.tenant, c.key));
    }
  }

  /** A creation that is answered with an existing run: the same tenant and key, or a pair
      that spells the same entry across a colon. */
  lemma ReplayedRun(calls: seq<Call>, c: Call)
    requires Drawn(calls) && c.CreateRun?
    ensures var m, entry := Replay(calls), MemoryKey(c.who.tenant, c.key);
            (exists r :: r in m.runs && ReplyTo(m, c) == Answer(m.runs[r], true)) <==> entry in m.idempotency
    ensures var reply := ReplyTo(Replay(calls), c);
            reply.Answer? && reply.replayed ==>
              || (reply.run.tenant == c.who.tenant && reply.run.key == c.key)
              || Straddles(reply.run.tenant, reply.run.key, c.who.tenant, c.key)
              || Straddles(c.who.tenant, c.key, reply.run.tenant, reply.run.key)
  {
    HeldAlways(calls);
    var m, entry := Replay(calls), MemoryKey(c.who.tenant, c.key);
    if entry in m.idempotency {
      assert EntryPoints(m, entry);
      var run := m.runs[m.idempotency[entry]];
      MemoryKeyCollision(run.tenant, run.key, c.who.tenant, c.key);
      assert ReplyTo(m, c) == Answer(m.runs[m.idempotency[entry]], true);
    }
  }

  /** With colon-free tenants a creation is answered by the one run of that tenant and key. */
  lemma OwnRunOnly(calls: seq<Call>, c: Call)
    requires Drawn(calls) && c.CreateRun? && ':' !in c.who.tenant
    requires forall r :: r in Replay(calls).runs ==> ':' !in Replay(calls).runs[r].tenant
    ensures var m, reply := Replay(calls), ReplyTo(Replay(calls), c);
            forall r :: r in m.runs && m.runs[r].tenant == c.who.tenant && m.runs[r].key == c.key ==> reply == Answer(m.runs[r], true)
    ensures var reply := ReplyTo(Replay(calls), c);
            reply.Answer? ==> reply.run.tenant == c.who.tenant && reply.run.key == c.key
  {
    HeldAlways(calls);
    var m, entry := Replay(calls), MemoryKey(c.who.tenant, c.key);
    forall r | r in m.runs && m.runs[r].tenant == c.who.tenant && m.runs[r].key == c.key
      ensures ReplyTo(m, c) == Answer(m.runs[r], true)
    {
      assert RunHeld(m, r);
    }
    if entry in m.idempotency {
      assert EntryPoints(m, entry);
      var run := m.runs[m.idempotency[entry]];
      MemoryKeyInjective(run.tenant, run.key, c.who.tenant, c.key);
    }
  }

  /** Tenant `a:b` with key `k` is answered with a run of tenant `a` under key `b:k`. */
  lemma ForeignReplay(def: Definition)
    ensures var calls := [CreateWorkflow(Principal("a", "s"), def, "w", 0),
                          CreateRun(Principal("a", "s"), "w", "secret", "b:k", "r", 0)];
            && Drawn(calls)
            && ReplyTo(Replay(calls), CreateRun(Principal("a:b", "s"), "w", "mine", "k", "r2", 0)) ==
               Answer(Snapshot("r", "a", "w", "secret", "b:k", 0, Queued, [Event(0, Created, "Run queued")]), true)
  {
    var first := CreateWorkflow(Principal("a", "s"), def, "w", 0);
    var second := CreateRun(Principal("a", "s"), "w", "secret", "b:k", "r", 0);
    var calls := [first, second];
    assert calls[..1] == [first] && [first][..0] == [];
    assert Replay([first][..0]) == Empty && FreshFor(Empty, first);
    assert Drawn([first][..0]) && Drawn([first]);
    assert Replay([first]) == After(Empty, first);
    assert MemoryKey("a", "b:k") == "a:b:k" && MemoryKey("a:b", "k") == "a:b:k";
    assert Inserting(Replay([first]), second);
    assert Replay(calls) == After(Replay([first]), second);
  }
}
