/** The two stores answer one sequential client alike, call for call, until PostgreSQL
    refuses something only it checks. */
module StoreEquivalence {
  import opened Contracts
  import opened Keys
  import M = MemoryStore
  import R = Runtime
  import C = ControlPlane
  import A = Admission

  /** What both stores show of a run. */
  datatype Shown = Shown(id: string, tenant: string, key: string, input: string, state: RunState, events: seq<EventType>)

  datatype Reply =
    | NewWorkflow(id: string) | Answer(run: Shown, replayed: bool) | Found(run: Shown) | Undefined
    | WorkflowNotFound | RunNotFound | InvalidTransition | MissingRun
    | Refused

  /** One client call: the call itself, and what PostgreSQL looks at besides. */
  datatype Request = Request(call: M.Call, name: string, version: string, handle: Option<string>, elapsed: nat)

  /** The database, with the unique index on (tenant, workflow name, version). */
  datatype Postgres = Postgres(sys: R.Sys, names: set<(string, string, string)>)

  function Kinds(events: seq<M.Event>): seq<EventType> {
    seq(|events|, i requires 0 <= i < |events| => events[i].kind)
  }

  function ShowMemory(run: M.Snapshot): Shown {
    Shown(run.id, run.tenant, run.key, run.input, run.state, Kinds(run.events))
  }

  function ShowRow(id: string, run: R.Run): Shown {
    Shown(id, run.cols.tenant, run.cols.key, run.cols.input, run.state, run.events)
  }

  function MemoryReply(m: M.Mem, c: M.Call): Reply {
    match M.ReplyTo(m, c)
    case NewWorkflow(id) => NewWorkflow(id)
    case Answer(run, replayed) => Answer(ShowMemory(run), replayed)
    case Found(run) => Found(ShowMemory(run))
    case Undefined => Undefined
    case Thrown(MissingRun) => MissingRun
    case Thrown(WorkflowNotFound) => WorkflowNotFound
    case Thrown(RunNotFound) => RunNotFound
    case Thrown(InvalidTransition) => InvalidTransition
  }

  /** `createRun` alone on the database: the lookup and, unless it answers, the commit. */
  function Creating(s: R.Sys, q: nat, c: M.Call, handle: Option<string>): R.Sys
    requires c.CreateRun?
  {
    R.Next(Begun(Offered(s, handle), q, c, handle), R.CommitCreate(q, c.id), R.Unfenced)
  }

  function Offered(s: R.Sys, handle: Option<string>): R.Sys {
    if handle.Some? then R.Next(s, R.Issue(handle.value), R.Unfenced) else s
  }

  function Begun(s: R.Sys, q: nat, c: M.Call, handle: Option<string>): R.Sys
    requires c.CreateRun?
  {
    R.Next(s, R.BeginCreate(q, c.who.tenant, c.key, c.input, Canonical(c.workflow), handle), R.Unfenced)
  }

  function CreationReply(s: R.Sys, q: nat): Reply {
    if q !in s.requests then Refused
    else
      match s.requests[q].phase
      case Replied(run, replayed) => if run in s.runs then Answer(ShowRow(run, s.runs[run]), replayed) else MissingRun
      case Refused(reason) => if reason.WorkflowNotFound? then WorkflowNotFound else Refused
      case _ => Refused
  }

  /** Statements PostgreSQL refuses for a value that does not fit its column: text that is
      no uuid, an idempotency key of the wrong length, a workflow name and version in use. */
  predicate Fits(p: Postgres, req: Request) {
    match req.call
    case CreateWorkflow(who, _, _, _) => (who.tenant, req.name, req.version) !in p.names
    case CreateRun(who, wf, _, key, _, _) => (who.tenant, key) in p.sys.keys || (IsUuid(wf) && 16 <= |key| <= 128)
    case ReadRun(_, run) => IsUuid(run)
    case Transition(_, run, _, _, _) => IsUuid(run)
  }

  function Later(p: Postgres, req: Request): R.Sys {
    R.Next(p.sys, R.Tick(req.elapsed), R.Unfenced)
  }

  /** `q` numbers the request; identifiers reach uuid columns as their canonical text. */
  function DatabaseAfter(p: Postgres, q: nat, req: Request): Postgres {
    var s, c := Later(p, req), req.call;
    if !Fits(p, req) then Postgres(s, p.names)
    else
      match c
      case CreateWorkflow(who, def, id, _) =>
        Postgres(R.Next(s, R.Register(id, R.Workflow(who.tenant, def)), R.Unfenced), p.names + {(who.tenant, req.name, req.version)})
      case CreateRun(_, _, _, _, _, _) => Postgres(Creating(s, q, c, req.handle), p.names)
      case ReadRun(_, _) => Postgres(s, p.names)
      case Transition(who, run, state, event, _) => Postgres(C.Transitioned(s, who.tenant, Canonical(run), state, event.kind).0, p.names)
  }

  function DatabaseReply(p: Postgres, q: nat, req: Request): Reply {
    var s, c := Later(p, req), req.call;
    if !Fits(p, req) then Refused
    else
      match c
      case CreateWorkflow(_, _, id, _) => NewWorkflow(id)
      case CreateRun(_, _, _, _, _, _) => CreationReply(Creating(s, q, c, req.handle), q)
      case ReadRun(who, run) =>
        if C.Visible(s, who.tenant, Canonical(run)) then Found(ShowRow(Canonical(run), s.runs[Canonical(run)])) else Undefined
      case Transition(who, run, state, event, _) =>
        TransitionReply(Canonical(run), C.Transitioned(s, who.tenant, Canonical(run), state, event.kind).1)
  }

  function TransitionReply(run: string, moved: C.Moved): Reply {
    match moved
    case RunNotFound => RunNotFound
    case InvalidTransition => InvalidTransition
    case Done(row) => Found(ShowRow(run, row))
  }

  /******* Histories on both sides *******/

  function Calls(history: seq<Request>): seq<M.Call> {
    seq(|history|, i requires 0 <= i < |history| => history[i].call)
  }

  function Database(limits: map<string, R.Limits>, history: seq<Request>): Postgres {
    if history == [] then Postgres(R.Sys(0, limits, map[], map[], map[], map[], [], {}, {}, map[], map[], map[], {}, {}), {})
    else DatabaseAfter(Database(limits, history[..|history| - 1]), |history| - 1, history[|history| - 1])
  }

  function DatabaseReplies(limits: map<string, R.Limits>, history: seq<Request>): (replies: seq<Reply>)
    ensures |replies| == |history|
  {
    if history == [] then []
    else
      var n := |history| - 1;
      DatabaseReplies(limits, history[..n]) + [DatabaseReply(Database(limits, history[..n]), n, history[n])]
  }

  function MemoryReplies(calls: seq<M.Call>): seq<Reply> {
    if calls == [] then []
    else
      var n := |calls| - 1;
      MemoryReplies(calls[..n]) + [MemoryReply(M.Replay(calls[..n]), calls[n])]
  }

  /** Colon-free tenants, and every identifier in the spelling both stores print. */
  predicate Spelled(c: M.Call) {
    && ':' !in c.who.tenant
    && (c.CreateWorkflow? || c.CreateRun? ==> IsUuid(c.id) && Canonical(c.id) == c.id)
    && (c.CreateRun? ==> Canonical(c.workflow) == c.workflow)
    && (c.ReadRun? || c.Transition? ==> Canonical(c.run) == c.run)
  }

  /** Both sides draw the same identifiers, and these and the credential handles are fresh. */
  predicate Sequential(limits: map<string, R.Limits>, history: seq<Request>) {
    history == [] ||
    var n := |history| - 1;
    && Sequential(limits, history[..n]) && Spelled(history[n].call)
    && M.FreshFor(M.Replay(Calls(history[..n])), history[n].call)
    && (history[n].handle.Some? ==> history[n].handle.value !in Database(limits, history[..n]).sys.issued)
  }

  /******* The relation *******/

  predicate WorkflowAlike(m: M.Mem, s: R.Sys, w: string) {
    w in m.workflows && w in s.workflows && m.workflows[w].tenant == s.workflows[w].tenant
  }

  predicate RunAlike(m: M.Mem, s: R.Sys, r: string) {
    r in m.runs && r in s.runs && ShowMemory(m.runs[r]) == ShowRow(r, s.runs[r])
  }

  predicate KeyAlike(m: M.Mem, s: R.Sys, tenant: string, key: string) {
    && ((tenant, key) in s.keys <==> MemoryKey(tenant, key) in m.idempotency)
    && ((tenant, key) in s.keys && MemoryKey(tenant, key) in m.idempotency ==> s.keys[(tenant, key)] == m.idempotency[MemoryKey(tenant, key)])
  }

  ghost predicate Alike(m: M.Mem, s: R.Sys) {
    && (forall w :: w in m.workflows || w in s.workflows ==> WorkflowAlike(m, s, w))
    && (forall r :: r in m.runs || r in s.runs ==> RunAlike(m, s, r))
    && (forall t, k :: ':' !in t ==> KeyAlike(m, s, t, k))
  }

  /** Requests are numbered by position, and runs carry only handles handed out before. */
  predicate Orderly(s: R.Sys, n: nat) {
    && (forall q :: q in s.requests ==> q < n)
    && (forall r :: r in s.runs && s.runs[r].cols.handle.Some? ==> s.runs[r].cols.handle.value in s.issued)
    && (forall r :: r in s.runs ==> Canonical(r) == r)
  }

  /******* One call *******/

  lemma KindsAppend(events: seq<M.Event>, e: M.Event)
    ensures Kinds(events + [e]) == Kinds(events) + [e.kind]
  {
  }

  lemma TransitionAgrees(m: M.Mem, s: R.Sys, c: M.Call)
    requires c.Transition? && Alike(m, s)
    ensures var moved := C.Transitioned(s, c.who.tenant, c.run, c.state, c.event.kind);
            && Alike(M.After(m, c), moved.0)
            && MemoryReply(m, c) == TransitionReply(c.run, moved.1)
  {
    var moved := C.Transitioned(s, c.who.tenant, c.run, c.state, c.event.kind);
    assert c.run in m.runs || c.run in s.runs ==> RunAlike(m, s, c.run);
    if M.Moving(m, c) {
      KindsAppend(m.runs[c.run].events, c.event);
      PutAlike(m, s, M.After(m, c), moved.0, c.run);
    } else {
      assert moved.0 == s && M.After(m, c) == m;
    }
  }

  lemma PutAlike(m: M.Mem, s: R.Sys, m': M.Mem, s': R.Sys, r: string)
    requires Alike(m, s) && r in m'.runs && r in s'.runs && m'.runs == m.runs[r := m'.runs[r]] && s'.runs == s.runs[r := s'.runs[r]]
    requires m'.workflows == m.workflows && s'.workflows == s.workflows && m'.idempotency == m.idempotency && s'.keys == s.keys
    requires RunAlike(m', s', r)
    ensures Alike(m', s')
  {
    forall x | x in m'.runs || x in s'.runs ensures RunAlike(m', s', x) {
      if x != r {
        assert RunAlike(m, s, x);
      }
    }
    forall w | w in m'.workflows || w in s'.workflows ensures WorkflowAlike(m', s', w) {
      assert WorkflowAlike(m, s, w);
    }
    forall t, k | ':' !in t ensures KeyAlike(m', s', t, k) {
      assert KeyAlike(m, s, t, k);
    }
  }

  lemma OfferedIs(s: R.Sys, handle: Option<string>)
    requires handle.Some? ==> handle.value !in s.issued
    ensures Offered(s, handle) == WithHandle(s, handle)
  {
  }

  function WithHandle(s: R.Sys, handle: Option<string>): R.Sys {
    if handle.Some? then s.(broker := s.broker + {handle.value}, issued := s.issued + {handle.value}) else s
  }

  /** The request as the lookup leaves it. */
  function Waits(s: R.Sys, c: M.Call, handle: Option<string>): R.Request
    requires c.CreateRun?
  {
    R.Request(c.who.tenant, c.key, c.input, c.workflow, handle, s.now, R.LookUp(s, c.who.tenant, c.key))
  }

  lemma BegunIs(s: R.Sys, q: nat, c: M.Call, handle: Option<string>)
    requires c.CreateRun? && Canonical(c.workflow) == c.workflow && q !in s.requests
    requires handle.Some? ==> handle.value in s.issued
    ensures Begun(s, q, c, handle) == s.(requests := s.requests[q := Waits(s, c, handle)])
  {
  }

  /** The database state in which the locked half of a creation decides. */
  function Locked(s: R.Sys, q: nat, c: M.Call, handle: Option<string>): R.Sys
    requires c.CreateRun?
  {
    WithHandle(s, handle).(requests := s.requests[q := Waits(s, c, handle)])
  }

  lemma CreatingIs(s: R.Sys, q: nat, c: M.Call, handle: Option<string>)
    requires c.CreateRun? && Canonical(c.workflow) == c.workflow && q !in s.requests
    requires handle.Some? ==> handle.value !in s.issued
    ensures Creating(s, q, c, handle) == R.Next(Locked(s, q, c, handle), R.CommitCreate(q, c.id), R.Unfenced)
  {
    OfferedIs(s, handle);
    BegunIs(Offered(s, handle), q, c, handle);
  }

  /** The lookup answers a known key on both sides with the same run. */
  lemma KnownKeyAgrees(m: M.Mem, s: R.Sys, q: nat, c: M.Call, handle: Option<string>)
    requires c.CreateRun? && Alike(m, s) && M.Held(m) && q !in s.requests && Spelled(c)
    requires handle.Some? ==> handle.value !in s.issued
    requires (c.who.tenant, c.key) in s.keys
    ensures Creating(s, q, c, handle) == Locked(s, q, c, handle)
    ensures CreationReply(Locked(s, q, c, handle), q) == MemoryReply(m, c)
    ensures M.After(m, c) == m
  {
    CreatingIs(s, q, c, handle);
    AnsweredStays(Locked(s, q, c, handle), q, c.id);
    KnownReply(m, s, c);
  }

  lemma AnsweredStays(s: R.Sys, q: nat, id: string)
    requires q in s.requests && !s.requests[q].phase.Waiting?
    ensures R.Next(s, R.CommitCreate(q, id), R.Unfenced) == s
  {
  }

  lemma KnownReply(m: M.Mem, s: R.Sys, c: M.Call)
    requires c.CreateRun? && Alike(m, s) && M.Held(m) && ':' !in c.who.tenant && (c.who.tenant, c.key) in s.keys
    ensures var run := s.keys[(c.who.tenant, c.key)];
            run in s.runs && MemoryReply(m, c) == Answer(ShowRow(run, s.runs[run]), true)
    ensures M.After(m, c) == m
  {
    assert KeyAlike(m, s, c.who.tenant, c.key);
    var entry := MemoryKey(c.who.tenant, c.key);
    assert M.EntryPoints(m, entry);
    assert RunAlike(m, s, m.idempotency[entry]);
  }

  /** On a new key the two decide alike unless the database refuses. */
  lemma NewKeyDecides(m: M.Mem, s: R.Sys, req: R.Request, c: M.Call)
    requires c.CreateRun? && Alike(m, s) && ':' !in c.who.tenant && !R.Taken(s.runs, req.handle)
    requires req.tenant == c.who.tenant && req.key == c.key && req.workflow == c.workflow && (c.who.tenant, c.key) !in s.keys
    ensures var verdict := R.Admit(s, req);
            && (verdict == R.Insert ==> M.Inserting(m, c))
            && (verdict == R.Reject(R.WorkflowNotFound) ==> !M.Inserting(m, c))
            && !verdict.Replay? && verdict != R.Reject(R.HandleTaken)
    ensures MemoryKey(c.who.tenant, c.key) !in m.idempotency
  {
    assert KeyAlike(m, s, c.who.tenant, c.key);
    assert c.workflow in m.workflows || c.workflow in s.workflows ==> WorkflowAlike(m, s, c.workflow);
  }

  lemma InsertAgrees(m: M.Mem, s: R.Sys, s': R.Sys, c: M.Call, row: R.Run)
    requires M.Inserting(m, c) && Alike(m, s) && ':' !in c.who.tenant
    requires s'.runs == s.runs[c.id := row] && s'.workflows == s.workflows && s'.keys == s.keys[(c.who.tenant, c.key) := c.id]
    requires ShowRow(c.id, row) == Shown(c.id, c.who.tenant, c.key, c.input, Queued, [Created])
    ensures Alike(M.After(m, c), s')
  {
    var m' := M.After(m, c);
    forall r | r in m'.runs || r in s'.runs ensures RunAlike(m', s', r) {
      if r != c.id {
        assert RunAlike(m, s, r);
      }
    }
    forall w | w in m'.workflows || w in s'.workflows ensures WorkflowAlike(m', s', w) {
      assert WorkflowAlike(m, s, w);
    }
    forall t, k | ':' !in t ensures KeyAlike(m', s', t, k) {
      assert KeyAlike(m, s, t, k);
      MemoryKeyInjective(t, k, c.who.tenant, c.key);
    }
  }

  lemma NewKeyAgrees(m: M.Mem, s: R.Sys, q: nat, c: M.Call, handle: Option<string>)
    requires c.CreateRun? && Alike(m, s) && Orderly(s, q) && Spelled(c) && M.FreshFor(m, c)
    requires handle.Some? ==> handle.value !in s.issued
    requires (c.who.tenant, c.key) !in s.keys
    requires CreationReply(Creating(s, q, c, handle), q) != Refused
    ensures CreationReply(Creating(s, q, c, handle), q) == MemoryReply(m, c)
    ensures Alike(M.After(m, c), Creating(s, q, c, handle))
  {
    assert c.id in s.runs ==> RunAlike(m, s, c.id);
    CreatingIs(s, q, c, handle);
    var locked := Locked(s, q, c, handle);
    UntouchedAlike(m, s, locked);
    NewKeyDecides(m, locked, locked.requests[q], c);
    CommitAgrees(m, locked, q, c);
  }

  lemma CommitAgrees(m: M.Mem, s: R.Sys, q: nat, c: M.Call)
    requires c.CreateRun? && Alike(m, s) && Spelled(c) && R.Enabled(s, R.CommitCreate(q, c.id))
    requires var req := s.requests[q]; req.tenant == c.who.tenant && req.key == c.key && req.workflow == c.workflow && req.input == c.input
    requires MemoryKey(c.who.tenant, c.key) !in m.idempotency
    requires var verdict := R.Admit(s, s.requests[q]);
             && !verdict.Replay?
             && (verdict == R.Insert ==> M.Inserting(m, c))
             && (verdict == R.Reject(R.WorkflowNotFound) ==> !M.Inserting(m, c))
    requires CreationReply(R.Apply(s, R.CommitCreate(q, c.id)), q) != Refused
    ensures CreationReply(R.Apply(s, R.CommitCreate(q, c.id)), q) == MemoryReply(m, c)
    ensures Alike(M.After(m, c), R.Apply(s, R.CommitCreate(q, c.id)))
  {
    var s' := R.Apply(s, R.CommitCreate(q, c.id));
    if R.Inserts(s, q) {
      InsertAgrees(m, s, s', c, R.NewRun(s, q));
    } else {
      UntouchedAlike(m, s, s');
    }
  }

  lemma CreationAgrees(m: M.Mem, s: R.Sys, q: nat, c: M.Call, handle: Option<string>)
    requires c.CreateRun? && Alike(m, s) && M.Held(m) && Orderly(s, q) && Spelled(c) && M.FreshFor(m, c)
    requires handle.Some? ==> handle.value !in s.issued
    requires CreationReply(Creating(s, q, c, handle), q) != Refused
    ensures CreationReply(Creating(s, q, c, handle), q) == MemoryReply(m, c)
    ensures Alike(M.After(m, c), Creating(s, q, c, handle))
  {
    if (c.who.tenant, c.key) in s.keys {
      KnownKeyAgrees(m, s, q, c, handle);
      UntouchedAlike(m, s, Locked(s, q, c, handle));
    } else {
      NewKeyAgrees(m, s, q, c, handle);
    }
  }

  lemma UntouchedAlike(m: M.Mem, s: R.Sys, s': R.Sys)
    requires Alike(m, s) && s'.runs == s.runs && s'.keys == s.keys && s'.workflows == s.workflows
    ensures Alike(m, s')
  {
    forall w | w in m.workflows || w in s'.workflows ensures WorkflowAlike(m, s', w) {
      assert WorkflowAlike(m, s, w);
    }
    forall r | r in m.runs || r in s'.runs ensures RunAlike(m, s', r) {
      assert RunAlike(m, s, r);
    }
    forall t, k | ':' !in t ensures KeyAlike(m, s', t, k) {
      assert KeyAlike(m, s, t, k);
    }
  }

  lemma RegisterAgrees(m: M.Mem, s: R.Sys, c: M.Call)
    requires c.CreateWorkflow? && Alike(m, s) && M.FreshFor(m, c)
    ensures Alike(M.After(m, c), R.Next(s, R.Register(c.id, R.Workflow(c.who.tenant, c.def)), R.Unfenced))
  {
    var m', s' := M.After(m, c), R.Next(s, R.Register(c.id, R.Workflow(c.who.tenant, c.def)), R.Unfenced);
    assert c.id in s.workflows ==> WorkflowAlike(m, s, c.id);
    forall w | w in m'.workflows || w in s'.workflows ensures WorkflowAlike(m', s', w) {
      if w != c.id {
        assert WorkflowAlike(m, s, w);
      }
    }
    forall r | r in m'.runs || r in s'.runs ensures RunAlike(m', s', r) {
      assert RunAlike(m, s, r);
    }
    forall t, k | ':' !in t ensures KeyAlike(m', s', t, k) {
      assert KeyAlike(m, s, t, k);
    }
  }

  lemma CallAgrees(m: M.Mem, p: Postgres, n: nat, req: Request)
    requires Alike(m, p.sys) && M.Held(m) && Orderly(p.sys, n) && Spelled(req.call) && M.FreshFor(m, req.call)
    requires req.handle.Some? ==> req.handle.value !in p.sys.issued
    requires DatabaseReply(p, n, req) != Refused
    ensures DatabaseReply(p, n, req) == MemoryReply(m, req.call)
    ensures Alike(M.After(m, req.call), DatabaseAfter(p, n, req).sys)
  {
    var s, c := Later(p, req), req.call;
    LaterIs(p, req);
    UntouchedAlike(m, p.sys, s);
    match c
    case CreateWorkflow(_, _, _, _) =>
      RegisterAgrees(m, s, c);
    case CreateRun(_, _, _, _, _, _) =>
      CreationAgrees(m, s, n, c, req.handle);
    case ReadRun(_, run) =>
      ReadAgrees(m, s, c);
    case Transition(_, _, _, _, _) =>
      TransitionAgrees(m, s, c);
  }

  lemma LaterIs(p: Postgres, req: Request)
    ensures Later(p, req) == p.sys.(now := p.sys.now + req.elapsed)
  {
  }

  lemma ReadAgrees(m: M.Mem, s: R.Sys, c: M.Call)
    requires c.ReadRun? && Alike(m, s)
    ensures M.After(m, c) == m
    ensures MemoryReply(m, c) == if C.Visible(s, c.who.tenant, c.run) then Found(ShowRow(c.run, s.runs[c.run])) else Undefined
  {
    assert c.run in m.runs || c.run in s.runs ==> RunAlike(m, s, c.run);
  }

  lemma OrderlyStep(p: Postgres, n: nat, req: Request)
    requires Orderly(p.sys, n) && Spelled(req.call)
    requires req.handle.Some? ==> req.handle.value !in p.sys.issued
    ensures Orderly(DatabaseAfter(p, n, req).sys, n + 1)
  {
    if req.call.CreateRun? {
      OrderlyCreation(Later(p, req), n, req.call, req.handle);
    }
  }

  lemma OrderlyCreation(s: R.Sys, n: nat, c: M.Call, handle: Option<string>)
    requires c.CreateRun? && Orderly(s, n) && Spelled(c)
    requires handle.Some? ==> handle.value !in s.issued
    ensures Orderly(Creating(s, n, c, handle), n + 1)
  {
    CreatingIs(s, n, c, handle);
    OrderlyCommit(Locked(s, n, c, handle), n, c.id);
  }

  lemma OrderlyCommit(s: R.Sys, q: nat, id: string)
    requires Orderly(s, q + 1) && q in s.requests && (s.requests[q].handle.Some? ==> s.requests[q].handle.value in s.issued)
    ensures Orderly(R.Next(s, R.CommitCreate(q, id), R.Unfenced), q + 1)
  {
  }

  /******* Whole histories *******/

  predicate Unrefused(limits: map<string, R.Limits>, history: seq<Request>) {
    forall i :: 0 <= i < |history| ==> DatabaseReplies(limits, history)[i] != Refused
  }

  lemma {:induction false} Drawn(limits: map<string, R.Limits>, history: seq<Request>)
    requires Sequential(limits, history)
    ensures M.Drawn(Calls(history))
  {
    if history != [] {
      Drawn(limits, history[..|history| - 1]);
      assert Calls(history)[..|history| - 1] == Calls(history[..|history| - 1]);
    }
  }

  lemma {:induction false} OrderlyAlways(limits: map<string, R.Limits>, history: seq<Request>)
    requires Sequential(limits, history)
    ensures Orderly(Database(limits, history).sys, |history|)
  {
    if history != [] {
      var n := |history| - 1;
      OrderlyAlways(limits, history[..n]);
      OrderlyStep(Database(limits, history[..n]), n, history[n]);
    }
  }

  /** What one more call adds on both sides. */
  lemma OneMore(limits: map<string, R.Limits>, before: seq<Request>, req: Request)
    ensures Calls(before + [req]) == Calls(before) + [req.call]
    ensures Database(limits, before + [req]) == DatabaseAfter(Database(limits, before), |before|, req)
    ensures DatabaseReplies(limits, before + [req]) == DatabaseReplies(limits, before) + [DatabaseReply(Database(limits, before), |before|, req)]
  {
    assert (before + [req])[..|before|] == before;
  }

  lemma OneMoreCall(calls: seq<M.Call>, c: M.Call)
    ensures M.Replay(calls + [c]) == M.After(M.Replay(calls), c)
    ensures MemoryReplies(calls + [c]) == MemoryReplies(calls) + [MemoryReply(M.Replay(calls), c)]
  {
    assert (calls + [c])[..|calls|] == calls;
  }

  /** What a sequential history says of its last call. */
  predicate Admissible(limits: map<string, R.Limits>, before: seq<Request>, req: Request) {
    && Spelled(req.call) && M.FreshFor(M.Replay(Calls(before)), req.call)
    && (req.handle.Some? ==> req.handle.value !in Database(limits, before).sys.issued)
  }

  lemma SequentialSplit(limits: map<string, R.Limits>, before: seq<Request>, req: Request)
    requires Sequential(limits, before + [req])
    ensures Sequential(limits, before) && Admissible(limits, before, req)
  {
    assert (before + [req])[..|before|] == before;
  }

  lemma UnrefusedSplit(limits: map<string, R.Limits>, before: seq<Request>, req: Request)
    ensures Unrefused(limits, before + [req]) <==>
            Unrefused(limits, before) && DatabaseReply(Database(limits, before), |before|, req) != Refused
  {
    OneMore(limits, before, req);
    var all, first, last := DatabaseReplies(limits, before + [req]), DatabaseReplies(limits, before), DatabaseReply(Database(limits, before), |before|, req);
    UnrefusedReplies(first, last);
    assert Unrefused(limits, before + [req]) <==> forall i :: 0 <= i < |all| ==> all[i] != Refused;
  }

  lemma UnrefusedReplies(first: seq<Reply>, last: Reply)
    ensures (forall i :: 0 <= i < |first + [last]| ==> (first + [last])[i] != Refused) <==>
            (forall i :: 0 <= i < |first| ==> first[i] != Refused) && last != Refused
  {
    var all := first + [last];
    assert all[|first|] == last && forall i :: 0 <= i < |first| ==> all[i] == first[i];
  }

  /** The last call of a history on whose beginning the stores agree. */
  lemma NextAgrees(limits: map<string, R.Limits>, before: seq<Request>, req: Request)
    requires Sequential(limits, before) && Admissible(limits, before, req)
    requires Alike(M.Replay(Calls(before)), Database(limits, before).sys)
    requires DatabaseReply(Database(limits, before), |before|, req) != Refused
    ensures DatabaseReply(Database(limits, before), |before|, req) == MemoryReply(M.Replay(Calls(before)), req.call)
    ensures Alike(M.After(M.Replay(Calls(before)), req.call), DatabaseAfter(Database(limits, before), |before|, req).sys)
  {
    Drawn(limits, before);
    M.HeldAlways(Calls(before));
    OrderlyAlways(limits, before);
    CallAgrees(M.Replay(Calls(before)), Database(limits, before), |before|, req);
  }

  /** Over every sequential history the database does not refuse, the two stores return the
      same replies, call for call, and end with the same runs. */
  lemma {:induction false} StoresAgree(limits: map<string, R.Limits>, history: seq<Request>)
    requires Sequential(limits, history) && Unrefused(limits, history)
    ensures DatabaseReplies(limits, history) == MemoryReplies(Calls(history))
    ensures Alike(M.Replay(Calls(history)), Database(limits, history).sys)
  {
    if history != [] {
      var before, req := history[..|history| - 1], history[|history| - 1];
      assert history == before + [req];
      SequentialSplit(limits, before, req);
      UnrefusedSplit(limits, before, req);
      StoresAgree(limits, before);
      NextAgrees(limits, before, req);
      OneMore(limits, before, req);
      OneMoreCall(Calls(before), req.call);
    }
  }

  /******* When nothing is refused *******/

  predicate WellFormed(c: M.Call) {
    && (c.CreateRun? ==> IsUuid(c.workflow) && 16 <= |c.key| <= 128)
    && (c.ReadRun? || c.Transition? ==> IsUuid(c.run))
  }

  predicate Creates(c: M.Call, tenant: string) {
    c.CreateRun? && c.who.tenant == tenant
  }

  /** How many runs the tenant asks for. */
  function Asked(history: seq<Request>, tenant: string): nat {
    if history == [] then 0
    else
      var n := |history| - 1;
      Asked(history[..n], tenant) + if Creates(history[n].call, tenant) then 1 else 0
  }

  lemma AskedMore(before: seq<Request>, req: Request, tenant: string)
    ensures Asked(before + [req], tenant) == Asked(before, tenant) + if Creates(req.call, tenant) then 1 else 0
  {
    assert (before + [req])[..|before|] == before;
  }

  /** The tenant's limits have room for that many runs. */
  predicate Ample(limits: map<string, R.Limits>, tenant: string, runs: nat) {
    tenant in limits && runs <= limits[tenant].maxActive && runs <= limits[tenant].maxPerDay
  }

  function NameOf(req: Request): (string, string, string) {
    (req.call.who.tenant, req.name, req.version)
  }

  predicate Named(history: seq<Request>, name: (string, string, string)) {
    exists i :: 0 <= i < |history| && history[i].call.CreateWorkflow? && NameOf(history[i]) == name
  }

  lemma NamedMore(before: seq<Request>, req: Request, name: (string, string, string))
    ensures Named(before + [req], name) <==> Named(before, name) || (req.call.CreateWorkflow? && NameOf(req) == name)
  {
    var all := before + [req];
    if Named(before, name) {
      var i :| 0 <= i < |before| && before[i].call.CreateWorkflow? && NameOf(before[i]) == name;
      assert all[i] == before[i];
    }
    assert all[|before|] == req;
  }

  /** A call PostgreSQL has no reason to refuse: well-formed values, a workflow name and
      version not used before, and limits with room for the runs its tenant asked for. */
  predicate Acceptable(limits: map<string, R.Limits>, before: seq<Request>, req: Request) {
    && WellFormed(req.call)
    && (req.call.CreateWorkflow? ==> !Named(before, NameOf(req)))
    && (req.call.CreateRun? ==> Ample(limits, req.call.who.tenant, Asked(before, req.call.who.tenant) + 1))
  }

  predicate Unobjectionable(limits: map<string, R.Limits>, history: seq<Request>) {
    history == [] ||
    var n := |history| - 1;
    Unobjectionable(limits, history[..n]) && Acceptable(limits, history[..n], history[n])
  }

  function RunsOf(runs: map<string, R.Run>, tenant: string): set<string> {
    set r | r in runs && runs[r].cols.tenant == tenant
  }

  /** Limits never change, only a tenant's own creates add runs to it, and names come from
      calls. */
  predicate Bounded(limits: map<string, R.Limits>, history: seq<Request>, p: Postgres, tenant: string) {
    && p.sys.limits == limits && |RunsOf(p.sys.runs, tenant)| <= Asked(history, tenant)
    && (forall name :: name in p.names ==> Named(history, name))
  }

  lemma Growth(p: Postgres, q: nat, req: Request, tenant: string)
    requires q !in p.sys.requests
    ensures var p' := DatabaseAfter(p, q, req);
            && p'.sys.limits == p.sys.limits
            && |RunsOf(p'.sys.runs, tenant)| <= |RunsOf(p.sys.runs, tenant)| + (if Creates(req.call, tenant) then 1 else 0)
            && p'.names <= p.names + if req.call.CreateWorkflow? then {NameOf(req)} else {}
  {
    LaterIs(p, req);
    var s, c := Later(p, req), req.call;
    match c
    case CreateRun(_, _, _, _, _, _) => CreationGrowth(s, q, c, req.handle, tenant);
    case Transition(who, run, state, event, _) => TransitionGrowth(s, who.tenant, Canonical(run), state, event.kind, tenant);
    case CreateWorkflow(_, _, _, _) =>
    case ReadRun(_, _) =>
  }

  lemma TransitionGrowth(s: R.Sys, owner: string, r: string, state: RunState, event: EventType, tenant: string)
    ensures var s' := C.Transitioned(s, owner, r, state, event).0; s'.limits == s.limits && RunsOf(s'.runs, tenant) == RunsOf(s.runs, tenant)
  {
    if C.Transitioned(s, owner, r, state, event).1.Done? {
      UpdateKeeps(s.runs, r, C.TransitionRow(s.runs[r], state, event, |s.outbox|), tenant);
    }
  }

  lemma UpdateKeeps(runs: map<string, R.Run>, r: string, row: R.Run, tenant: string)
    requires r in runs && row.cols == runs[r].cols
    ensures RunsOf(runs[r := row], tenant) == RunsOf(runs, tenant)
  {
  }

  lemma InsertGrows(runs: map<string, R.Run>, r: string, row: R.Run, tenant: string)
    requires r !in runs
    ensures |RunsOf(runs[r := row], tenant)| <= |RunsOf(runs, tenant)| + if row.cols.tenant == tenant then 1 else 0
  {
    assert RunsOf(runs[r := row], tenant) == RunsOf(runs, tenant) + if row.cols.tenant == tenant then {r} else {};
  }

  lemma CreationGrowth(s: R.Sys, q: nat, c: M.Call, handle: Option<string>, tenant: string)
    requires c.CreateRun? && q !in s.requests
    ensures var s' := Creating(s, q, c, handle);
            s'.limits == s.limits && |RunsOf(s'.runs, tenant)| <= |RunsOf(s.runs, tenant)| + if Creates(c, tenant) then 1 else 0
  {
    var begun := Begun(Offered(s, handle), q, c, handle);
    BegunKeeps(s, q, c, handle);
    if R.Enabled(begun, R.CommitCreate(q, c.id)) && R.Inserts(begun, q) {
      InsertGrows(begun.runs, c.id, R.NewRun(begun, q), tenant);
    }
  }

  lemma BegunKeeps(s: R.Sys, q: nat, c: M.Call, handle: Option<string>)
    requires c.CreateRun?
    ensures var begun := Begun(Offered(s, handle), q, c, handle);
            && begun.runs == s.runs && begun.limits == s.limits
            && (q in begun.requests && q !in s.requests ==> begun.requests[q].tenant == c.who.tenant)
  {
  }

  lemma {:induction false} BoundedAlways(limits: map<string, R.Limits>, history: seq<Request>, tenant: string)
    requires Sequential(limits, history)
    ensures Bounded(limits, history, Database(limits, history), tenant)
  {
    if history != [] {
      var before, req := history[..|history| - 1], history[|history| - 1];
      assert history == before + [req];
      SequentialSplit(limits, before, req);
      BoundedAlways(limits, before, tenant);
      BoundedStep(limits, before, req, tenant);
    }
  }

  lemma BoundedStep(limits: map<string, R.Limits>, before: seq<Request>, req: Request, tenant: string)
    requires Sequential(limits, before) && Bounded(limits, before, Database(limits, before), tenant)
    ensures Bounded(limits, before + [req], Database(limits, before + [req]), tenant)
  {
    OrderlyAlways(limits, before);
    OneMore(limits, before, req);
    Growth(Database(limits, before), |before|, req, tenant);
    AskedMore(before, req, tenant);
    forall name | name in Database(limits, before + [req]).names ensures Named(before + [req], name) {
      NamedMore(before, req, name);
    }
  }

  lemma QuotasHold(s: R.Sys, tenant: string, start: nat, bound: nat)
    requires |RunsOf(s.runs, tenant)| < bound
    ensures |R.ActiveRuns(s.runs, tenant)| < bound && |R.CreatedSince(s.runs, tenant, start)| < bound
  {
    A.Fits(R.ActiveRuns(s.runs, tenant), RunsOf(s.runs, tenant));
    A.Fits(R.CreatedSince(s.runs, tenant, start), RunsOf(s.runs, tenant));
  }

  lemma CreationAccepted(m: M.Mem, s: R.Sys, q: nat, c: M.Call, handle: Option<string>, bound: nat)
    requires c.CreateRun? && Alike(m, s) && M.Held(m) && Orderly(s, q) && Spelled(c) && M.FreshFor(m, c)
    requires handle.Some? ==> handle.value !in s.issued
    requires Ample(s.limits, c.who.tenant, bound) && |RunsOf(s.runs, c.who.tenant)| < bound
    ensures CreationReply(Creating(s, q, c, handle), q) != Refused
  {
    if (c.who.tenant, c.key) in s.keys {
      KnownKeyAgrees(m, s, q, c, handle);
      KnownReply(m, s, c);
    } else {
      assert c.id in s.runs ==> RunAlike(m, s, c.id);
      CreatingIs(s, q, c, handle);
      var locked := Locked(s, q, c, handle);
      UntouchedAlike(m, s, locked);
      NewKeyDecides(m, locked, locked.requests[q], c);
      AmpleAdmits(locked, locked.requests[q], bound);
      AdmittedReply(locked, q, c.id);
    }
  }

  lemma AmpleAdmits(s: R.Sys, req: R.Request, bound: nat)
    requires Ample(s.limits, req.tenant, bound) && |RunsOf(s.runs, req.tenant)| < bound
    ensures R.Admit(s, req) !in {R.Reject(R.LimitsMissing), R.Reject(R.ActiveQuota), R.Reject(R.DailyQuota)}
  {
    QuotasHold(s, req.tenant, R.DayStart(req.started), bound);
  }

  lemma AdmittedReply(s: R.Sys, q: nat, id: string)
    requires R.Enabled(s, R.CommitCreate(q, id)) && R.Admit(s, s.requests[q]) in {R.Insert, R.Reject(R.WorkflowNotFound)}
    ensures CreationReply(R.Next(s, R.CommitCreate(q, id), R.Unfenced), q) != Refused
  {
  }

  lemma CallAccepted(m: M.Mem, p: Postgres, n: nat, req: Request, bound: nat)
    requires Alike(m, p.sys) && M.Held(m) && Orderly(p.sys, n) && Spelled(req.call) && M.FreshFor(m, req.call)
    requires req.handle.Some? ==> req.handle.value !in p.sys.issued
    requires WellFormed(req.call) && (req.call.CreateWorkflow? ==> NameOf(req) !in p.names)
    requires req.call.CreateRun? ==> Ample(p.sys.limits, req.call.who.tenant, bound) && |RunsOf(p.sys.runs, req.call.who.tenant)| < bound
    ensures DatabaseReply(p, n, req) != Refused
  {
    LaterIs(p, req);
    if req.call.CreateRun? {
      UntouchedAlike(m, p.sys, Later(p, req));
      CreationAccepted(m, Later(p, req), n, req.call, req.handle, bound);
    }
  }

  lemma NextAccepted(limits: map<string, R.Limits>, before: seq<Request>, req: Request)
    requires Sequential(limits, before) && Admissible(limits, before, req)
    requires Alike(M.Replay(Calls(before)), Database(limits, before).sys)
    requires Acceptable(limits, before, req)
    ensures DatabaseReply(Database(limits, before), |before|, req) != Refused
  {
    Drawn(limits, before);
    M.HeldAlways(Calls(before));
    OrderlyAlways(limits, before);
    var tenant := req.call.who.tenant;
    BoundedAlways(limits, before, tenant);
    CallAccepted(M.Replay(Calls(before)), Database(limits, before), |before|, req, Asked(before, tenant) + 1);
  }

  lemma {:induction false} NothingRefused(limits: map<string, R.Limits>, history: seq<Request>)
    requires Sequential(limits, history) && Unobjectionable(limits, history)
    ensures Unrefused(limits, history)
  {
    if history != [] {
      var before, req := history[..|history| - 1], history[|history| - 1];
      assert history == before + [req];
      SequentialSplit(limits, before, req);
      NothingRefused(limits, before);
      OneMoreAccepted(limits, before, req);
    }
  }

  lemma OneMoreAccepted(limits: map<string, R.Limits>, before: seq<Request>, req: Request)
    requires Sequential(limits, before) && Admissible(limits, before, req) && Unrefused(limits, before)
    requires Acceptable(limits, before, req)
    ensures Unrefused(limits, before + [req])
  {
    StoresAgree(limits, before);
    NextAccepted(limits, before, req);
    UnrefusedSplit(limits, before, req);
  }

  /** Within those bounds the stores agree on the whole history. */
  lemma StoresInterchangeable(limits: map<string, R.Limits>, history: seq<Request>)
    requires Sequential(limits, history) && Unobjectionable(limits, history)
    ensures DatabaseReplies(limits, history) == MemoryReplies(Calls(history))
    ensures Alike(M.Replay(Calls(history)), Database(limits, history).sys)
  {
    NothingRefused(limits, history);
    StoresAgree(limits, history);
  }

  /******* What the spelling condition shuts out *******/

  /** A read under any spelling of a run's uuid: the stores agree exactly when the spelling
      is the canonical one or there is nothing to see. */
  lemma SpellingDecides(limits: map<string, R.Limits>, history: seq<Request>, who: M.Principal, run: string)
    requires Sequential(limits, history) && Unrefused(limits, history) && IsUuid(run)
    ensures var p, c := Database(limits, history), M.ReadRun(who, run);
            DatabaseReply(p, |history|, Request(c, "", "", None, 0)) == MemoryReply(M.Replay(Calls(history)), c) <==>
            run == Canonical(run) || !C.Visible(p.sys, who.tenant, Canonical(run))
  {
    var p := Database(limits, history);
    StoresAgree(limits, history);
    OrderlyAlways(limits, history);
    LaterIs(p, Request(M.ReadRun(who, run), "", "", None, 0));
    ReadsCompare(M.Replay(Calls(history)), p.sys, |history|, who, run);
  }

  lemma ReadsCompare(m: M.Mem, s: R.Sys, n: nat, who: M.Principal, run: string)
    requires Alike(m, s) && Orderly(s, n)
    ensures var seen := C.Visible(s, who.tenant, Canonical(run));
            MemoryReply(m, M.ReadRun(who, run)) == (if seen then Found(ShowRow(Canonical(run), s.runs[Canonical(run)])) else Undefined) <==>
            run == Canonical(run) || !seen
  {
    assert run in m.runs || run in s.runs ==> RunAlike(m, s, run);
  }
}
