/** The outbox and the stream: what copies exist, and why a queued run always has work
    on the way, whatever publishers and workers crash. */
module Delivery {
  import opened Contracts
  import opened Runtime
  import opened Structure

  predicate HasCopy(messages: set<Message>, o: nat) {
    exists m :: m in messages && m.outboxId == o
  }

  /** The outbox ids recorded for a run are exactly its rows, in insertion order: one for
      the creation and one for each approval. */
  predicate EnqueuedOk(id: string, run: Run, outbox: seq<OutboxRow>) {
    var ids := run.hist.enqueued;
    && |ids| == 1 + |run.hist.approvals|
    && (forall i :: 0 <= i < |ids| ==> ids[i] < |outbox| && outbox[ids[i]].run == id)
    && (forall i, j :: 0 <= i < j < |ids| ==> ids[i] < ids[j])
    && (forall o :: 0 <= o < |outbox| && outbox[o].run == id ==> o in ids)
  }

  function Last(run: Run): nat
    requires |run.hist.enqueued| > 0
  {
    run.hist.enqueued[|run.hist.enqueued| - 1]
  }

  predicate Enqueued(runs: map<string, Run>, outbox: seq<OutboxRow>) {
    forall r :: r in runs ==> EnqueuedOk(r, runs[r], outbox)
  }

  /******* Accounting *******/

  predicate RowCounts(outbox: seq<OutboxRow>, publishers: map<nat, Publisher>) {
    forall o :: 0 <= o < |outbox| ==>
      outbox[o].attempts == |outbox[o].claimedBy| && forall p :: p in outbox[o].claimedBy ==> p in publishers
  }

  predicate CopiesCounted(outbox: seq<OutboxRow>, log: set<Message>) {
    forall m :: m in log ==> m.outboxId < |outbox| && m.publisher in outbox[m.outboxId].claimedBy
  }

  predicate PassOk(p: nat, pub: Publisher, outbox: seq<OutboxRow>, log: set<Message>) {
    && pub.sent <= |pub.batch|
    && (forall i :: 0 <= i < |pub.batch| ==>
          && pub.batch[i].publisher == p && pub.batch[i].outboxId < |outbox|
          && p in outbox[pub.batch[i].outboxId].claimedBy)
    && (forall i :: 0 <= i < pub.sent ==> pub.batch[i] in log)
  }

  predicate PassesOk(publishers: map<nat, Publisher>, outbox: seq<OutboxRow>, log: set<Message>) {
    forall p :: p in publishers ==> PassOk(p, publishers[p], outbox, log)
  }

  predicate PublishedOk(outbox: seq<OutboxRow>, log: set<Message>) {
    forall o :: 0 <= o < |outbox| && outbox[o].published ==> HasCopy(log, o)
  }

  predicate Accounted(s: Sys) {
    && Structured(s) && RowCounts(s.outbox, s.publishers) && CopiesCounted(s.outbox, s.log)
    && PassesOk(s.publishers, s.outbox, s.log) && PublishedOk(s.outbox, s.log)
  }

  lemma AttemptCounts(row: OutboxRow, p: nat)
    requires row.attempts == |row.claimedBy| && p !in row.claimedBy
    ensures row.attempts + 1 == |row.claimedBy + {p}|
  {
  }

  lemma RowCountsStay(s: Sys, l: Label)
    requires Accounted(s) && Enabled(s, l)
    ensures RowCounts(OutboxAfter(s, l), PublishersAfter(s, l))
  {
    forall o | 0 <= o < |OutboxAfter(s, l)|
      ensures OutboxAfter(s, l)[o].attempts == |OutboxAfter(s, l)[o].claimedBy|
      ensures forall p :: p in OutboxAfter(s, l)[o].claimedBy ==> p in PublishersAfter(s, l)
    {
      if l.ClaimOutbox? {
        AttemptCounts(s.outbox[o], l.publisher);
      }
    }
  }

  /** Rows keep their claimants, so copies once accounted for stay accounted for. */
  predicate ClaimantsGrow(a: seq<OutboxRow>, b: seq<OutboxRow>) {
    |a| <= |b| && forall o :: 0 <= o < |a| ==> a[o].claimedBy <= b[o].claimedBy
  }

  lemma ClaimantsStay(s: Sys, l: Label)
    requires Enabled(s, l)
    ensures ClaimantsGrow(s.outbox, OutboxAfter(s, l))
  {
  }

  lemma CopiesStay(s: Sys, l: Label)
    requires Accounted(s) && Enabled(s, l)
    ensures CopiesCounted(OutboxAfter(s, l), LogAfter(s, l))
  {
    ClaimantsStay(s, l);
    if l.Send? {
      assert PassOk(l.publisher, s.publishers[l.publisher], s.outbox, s.log);
    }
  }

  lemma PassStays(s: Sys, l: Label, p: nat)
    requires Accounted(s) && Enabled(s, l) && p in s.publishers
    ensures PassOk(p, PublishersAfter(s, l)[p], OutboxAfter(s, l), LogAfter(s, l))
  {
    ClaimantsStay(s, l);
    assert PassOk(p, s.publishers[p], s.outbox, s.log);
    PassOkExtends(p, s.publishers[p], s.outbox, OutboxAfter(s, l), s.log, LogAfter(s, l));
    PassMoves(s, l, p);
    PassOkMoves(p, s.publishers[p], PublishersAfter(s, l)[p], OutboxAfter(s, l), LogAfter(s, l));
  }

  /** A pass keeps its batch and sends it in order. */
  lemma PassMoves(s: Sys, l: Label, p: nat)
    requires Enabled(s, l) && p in s.publishers
    ensures var a, b := s.publishers[p], PublishersAfter(s, l)[p];
            b.batch == a.batch && (b.sent == a.sent || (b.sent == a.sent + 1 <= |a.batch| && a.batch[a.sent] in LogAfter(s, l)))
  {
  }

  lemma PassOkMoves(p: nat, a: Publisher, b: Publisher, outbox: seq<OutboxRow>, log: set<Message>)
    requires PassOk(p, a, outbox, log) && b.batch == a.batch
    requires b.sent == a.sent || (b.sent == a.sent + 1 <= |a.batch| && a.batch[a.sent] in log)
    ensures PassOk(p, b, outbox, log)
  {
  }

  lemma PassOkExtends(p: nat, pub: Publisher, outbox: seq<OutboxRow>, outbox': seq<OutboxRow>, log: set<Message>, log': set<Message>)
    requires PassOk(p, pub, outbox, log) && ClaimantsGrow(outbox, outbox') && log <= log'
    ensures PassOk(p, pub, outbox', log')
  {
  }

  lemma NewPass(s: Sys, p: nat, ids: seq<nat>)
    requires Enabled(s, ClaimOutbox(p, ids))
    ensures PassOk(p, PublishersAfter(s, ClaimOutbox(p, ids))[p], OutboxAfter(s, ClaimOutbox(p, ids)), s.log)
  {
  }

  lemma PassesStay(s: Sys, l: Label)
    requires Accounted(s) && Enabled(s, l)
    ensures PassesOk(PublishersAfter(s, l), OutboxAfter(s, l), LogAfter(s, l))
  {
    forall p | p in PublishersAfter(s, l) ensures PassOk(p, PublishersAfter(s, l)[p], OutboxAfter(s, l), LogAfter(s, l)) {
      if p in s.publishers {
        PassStays(s, l, p);
      } else {
        NewPass(s, p, l.ids);
      }
    }
  }

  lemma PublishedStay(s: Sys, l: Label)
    requires Accounted(s) && Enabled(s, l)
    ensures PublishedOk(OutboxAfter(s, l), LogAfter(s, l))
  {
    forall o | 0 <= o < |OutboxAfter(s, l)| && OutboxAfter(s, l)[o].published ensures HasCopy(LogAfter(s, l), o) {
      if o < |s.outbox| && s.outbox[o].published {
        var m :| m in s.log && m.outboxId == o;
        assert m in LogAfter(s, l);
      } else {
        MarkedHasCopy(s, l.publisher, o);
      }
    }
  }

  lemma MarkedHasCopy(s: Sys, p: nat, o: nat)
    requires PassesOk(s.publishers, s.outbox, s.log) && Enabled(s, MarkPublished(p)) && InBatch(s.publishers[p].batch, o)
    ensures HasCopy(s.log, o)
  {
    var pub := s.publishers[p];
    assert PassOk(p, pub, s.outbox, s.log);
    var i :| 0 <= i < |pub.batch| && pub.batch[i].outboxId == o;
    assert pub.batch[i] in s.log;
  }

  lemma {:induction false} AccountedAlways(s: Sys, labels: seq<Label>, regime: Regime)
    requires Accounted(s)
    ensures Accounted(Reach(s, labels, regime))
  {
    if labels != [] {
      var before, l := Reach(s, labels[..|labels| - 1], regime), labels[|labels| - 1];
      AccountedAlways(s, labels[..|labels| - 1], regime);
      StructuredStep(before, l, regime);
      if Possible(before, l, regime) {
        RowCountsStay(before, l);
        CopiesStay(before, l);
        PassesStay(before, l);
        PublishedStay(before, l);
      }
    }
  }

  function Copies(messages: set<Message>, o: nat): set<Message> {
    set m | m in messages && m.outboxId == o
  }

  lemma {:induction false} CopiesFit(copies: set<Message>, claimants: set<nat>)
    requires forall m :: m in copies ==> m.publisher in claimants
    requires forall m, n :: m in copies && n in copies && m.publisher == n.publisher ==> m == n
    ensures |copies| <= |claimants|
  {
    if copies != {} {
      var m :| m in copies;
      CopiesFit(copies - {m}, claimants - {m.publisher});
    }
  }

  /** Under any crashes and concurrent publishers, the copies ever stored of an outbox row
      never exceed its attempts, and a row marked published has a copy that carries its own
      run and tenant. */
  lemma OutboxAccounting(s: Sys, labels: seq<Label>, regime: Regime, o: nat)
    requires Init(s) && o < |Reach(s, labels, regime).outbox|
    ensures var s' := Reach(s, labels, regime);
            && |Copies(s'.log, o)| <= s'.outbox[o].attempts
            && s'.stream <= s'.log
            && (s'.outbox[o].published ==>
                  exists m :: m in s'.log && m.outboxId == o && m.runId == s'.outbox[o].run && m.tenant == s'.outbox[o].tenant)
  {
    AccountedAlways(s, labels, regime);
    var s' := Reach(s, labels, regime);
    forall m | m in Copies(s'.log, o) ensures MsgOk(s'.outbox, m) && m.publisher in s'.outbox[o].claimedBy {
    }
    CopiesFit(Copies(s'.log, o), s'.outbox[o].claimedBy);
    if s'.outbox[o].published {
      var m :| m in s'.log && m.outboxId == o;
      assert MsgOk(s'.outbox, m);
    }
  }

  /******* No queued run is stranded *******/

  predicate Moving(run: Run, stream: set<Message>, log: set<Message>) {
    run.state == Queued && |run.hist.enqueued| > 0 && HasCopy(log, Last(run)) ==> HasCopy(stream, Last(run))
  }

  predicate AllMoving(runs: map<string, Run>, stream: set<Message>, log: set<Message>) {
    forall r :: r in runs ==> Moving(runs[r], stream, log)
  }

  /** A worker past its claim holds a message that is not what keeps its run queued. */
  predicate Past(runs: map<string, Run>, worker: Worker) {
    var r := worker.msg.runId;
    (!worker.Fetched? && r in runs && runs[r].state == Queued) ==>
      (|runs[r].hist.enqueued| > 0 && worker.msg.outboxId < Last(runs[r]))
  }

  predicate AllPast(runs: map<string, Run>, workers: map<nat, Worker>) {
    forall w :: w in workers ==> Past(runs, workers[w])
  }

  predicate Flowing(s: Sys) {
    && Accounted(s) && Enqueued(s.runs, s.outbox)
    && AllMoving(s.runs, s.stream, s.log) && AllPast(s.runs, s.workers)
  }

  lemma WriteKeepsQueue(run: Run, index: nat, now: nat, action: Action)
    requires ActionOk(run.cols.def, index, action)
    ensures var after := Write(run, index, now, action);
            && after.hist.enqueued == run.hist.enqueued && after.hist.approvals == run.hist.approvals
            && (after.state == Queued ==> run.state == Queued)
  {
  }

  lemma StatementKeepsQueue(s: Sys, w: nat, ok: bool, r: string)
    requires Structured(s) && Enabled(s, Stmt(w, ok)) && r in s.runs
    ensures var after := RunsAfter(s, Stmt(w, ok))[r];
            && after.hist.enqueued == s.runs[r].hist.enqueued && after.hist.approvals == s.runs[r].hist.approvals
            && (after.state == Queued ==> s.runs[r].state == Queued)
  {
    OnItsRun(s, w, ok);
    var e := s.workers[w].exec;
    WriteKeepsQueue(s.runs[e.runId], e.index, s.now, MoveOf(s, w, ok).action);
  }

  /** What a label does to the queue side of one existing run. */
  lemma QueueAfter(s: Sys, l: Label, r: string)
    requires Structured(s) && Enabled(s, l) && r in s.runs
    ensures r in RunsAfter(s, l)
    ensures var a, b := s.runs[r], RunsAfter(s, l)[r];
            if l == Approve(r)
            then b.hist.enqueued == a.hist.enqueued + [|s.outbox|] && |b.hist.approvals| == |a.hist.approvals| + 1
            else b.hist.enqueued == a.hist.enqueued && b.hist.approvals == a.hist.approvals && (b.state == Queued ==> a.state == Queued)
  {
    if l.Stmt? {
      StatementRow(s, l.worker, l.ok, r);
      StatementKeepsQueue(s, l.worker, l.ok, r);
    } else {
      OthersKeepQueue(s, l, r);
    }
  }

  lemma OthersKeepQueue(s: Sys, l: Label, r: string)
    requires Enabled(s, l) && r in s.runs && !l.Stmt?
    ensures r in RunsAfter(s, l)
    ensures var a, b := s.runs[r], RunsAfter(s, l)[r];
            if l == Approve(r)
            then b.hist.enqueued == a.hist.enqueued + [|s.outbox|] && |b.hist.approvals| == |a.hist.approvals| + 1
            else b.hist.enqueued == a.hist.enqueued && b.hist.approvals == a.hist.approvals && (b.state == Queued ==> a.state == Queued)
  {
  }

  lemma EnqueuedStays(s: Sys, l: Label)
    requires Flowing(s) && Enabled(s, l)
    ensures Enqueued(RunsAfter(s, l), OutboxAfter(s, l))
  {
    Immutable(s, l);
    forall r | r in RunsAfter(s, l) ensures EnqueuedOk(r, RunsAfter(s, l)[r], OutboxAfter(s, l)) {
      if r in s.runs {
        QueueAfter(s, l, r);
        assert EnqueuedOk(r, s.runs[r], s.outbox);
        KeepsEnqueued(s, l, r);
      } else {
        NewEnqueued(s, l, r);
      }
    }
  }

  lemma KeepsEnqueued(s: Sys, l: Label, r: string)
    requires Enabled(s, l) && r in s.runs && r in RunsAfter(s, l)
    requires EnqueuedOk(r, s.runs[r], s.outbox) && OutboxExtends(s.outbox, OutboxAfter(s, l))
    requires var a, b := s.runs[r], RunsAfter(s, l)[r];
             if l == Approve(r)
             then b.hist.enqueued == a.hist.enqueued + [|s.outbox|] && |b.hist.approvals| == |a.hist.approvals| + 1
             else b.hist.enqueued == a.hist.enqueued && b.hist.approvals == a.hist.approvals
    ensures EnqueuedOk(r, RunsAfter(s, l)[r], OutboxAfter(s, l))
  {
    var ids, after := s.runs[r].hist.enqueued, RunsAfter(s, l)[r].hist.enqueued;
    assert ids <= after;
    forall o | 0 <= o < |OutboxAfter(s, l)| && OutboxAfter(s, l)[o].run == r ensures o in after {
      if o < |s.outbox| {
        assert o in ids;
      } else {
        assert l == Approve(r) && after[|ids|] == o;
      }
    }
  }

  lemma NewEnqueued(s: Sys, l: Label, r: string)
    requires Structured(s) && Enabled(s, l) && r in RunsAfter(s, l) && r !in s.runs
    ensures EnqueuedOk(r, RunsAfter(s, l)[r], OutboxAfter(s, l))
    ensures RunsAfter(s, l)[r].hist.enqueued == [|s.outbox|]
  {
    assert l.CommitCreate? && Inserts(s, l.request) && l.id == r;
    assert forall o :: 0 <= o < |s.outbox| ==> s.outbox[o].run in s.runs;
  }

  lemma MovingStays(s: Sys, l: Label)
    requires Flowing(s) && Enabled(s, l)
    ensures AllMoving(RunsAfter(s, l), StreamAfter(s, l), LogAfter(s, l))
  {
    forall r | r in RunsAfter(s, l) ensures Moving(RunsAfter(s, l)[r], StreamAfter(s, l), LogAfter(s, l)) {
      if r !in s.runs || l == Approve(r) {
        RequeuedMoves(s, l, r);
      } else {
        QueueAfter(s, l, r);
        OldRunMoves(s, l, r, RunsAfter(s, l)[r]);
      }
    }
  }

  lemma RequeuedMoves(s: Sys, l: Label, r: string)
    requires Structured(s) && Enabled(s, l) && r in RunsAfter(s, l) && (r !in s.runs || l == Approve(r))
    ensures Moving(RunsAfter(s, l)[r], StreamAfter(s, l), LogAfter(s, l))
  {
    if r !in s.runs {
      NewEnqueued(s, l, r);
    } else {
      QueueAfter(s, l, r);
    }
    NoCopyYet(s, l);
  }

  /** A row being inserted has no copies. */
  lemma NoCopyYet(s: Sys, l: Label)
    requires Structured(s) && (l.CommitCreate? || l.Approve?) && Enabled(s, l)
    ensures !HasCopy(LogAfter(s, l), |s.outbox|)
  {
    assert forall m :: m in s.log ==> MsgOk(s.outbox, m);
  }

  lemma OldRunMoves(s: Sys, l: Label, r: string, after: Run)
    requires Flowing(s) && Enabled(s, l) && r in s.runs && after.hist.enqueued == s.runs[r].hist.enqueued
    requires after.state == Queued ==> s.runs[r].state == Queued
    ensures Moving(after, StreamAfter(s, l), LogAfter(s, l))
  {
    if after.state == Queued && |s.runs[r].hist.enqueued| > 0 && HasCopy(LogAfter(s, l), Last(s.runs[r])) {
      RunKeepsMoving(s, l, r);
    }
  }

  /** The acknowledged message is never the last hope of a queued run. */
  lemma AckSpares(s: Sys, w: nat, r: string, m: Message)
    requires MessagesOk(s.outbox, s.stream) && Enqueued(s.runs, s.outbox) && AllPast(s.runs, s.workers)
    requires w in s.workers && s.workers[w].Finished? && r in s.runs && s.runs[r].state == Queued
    requires |s.runs[r].hist.enqueued| > 0 && m in s.stream && m.outboxId == Last(s.runs[r])
    ensures m != s.workers[w].msg
  {
    assert Past(s.runs, s.workers[w]);
    assert EnqueuedOk(r, s.runs[r], s.outbox) && MsgOk(s.outbox, m);
  }

  /** A copy new to the log is in the stream, and only an ack takes one out. */
  lemma StreamStep(s: Sys, l: Label, o: nat)
    requires Enabled(s, l)
    ensures HasCopy(LogAfter(s, l), o) ==> HasCopy(s.log, o) || HasCopy(StreamAfter(s, l), o)
    ensures forall m :: m in s.stream && (l.Ack? ==> m != s.workers[l.worker].msg) ==> m in StreamAfter(s, l)
  {
    if HasCopy(LogAfter(s, l), o) && !HasCopy(s.log, o) {
      var m :| m in LogAfter(s, l) && m.outboxId == o;
      assert m in StreamAfter(s, l);
    }
  }

  lemma RunKeepsMoving(s: Sys, l: Label, r: string)
    requires Flowing(s) && Enabled(s, l) && r in s.runs && s.runs[r].state == Queued && |s.runs[r].hist.enqueued| > 0
    requires HasCopy(LogAfter(s, l), Last(s.runs[r]))
    ensures HasCopy(StreamAfter(s, l), Last(s.runs[r]))
  {
    var o := Last(s.runs[r]);
    StreamStep(s, l, o);
    if HasCopy(s.log, o) {
      assert Moving(s.runs[r], s.stream, s.log);
      var m :| m in s.stream && m.outboxId == o;
      if l.Ack? {
        AckSpares(s, l.worker, r, m);
      }
      assert m in StreamAfter(s, l);
    }
  }

  lemma PastStays(s: Sys, l: Label)
    requires Flowing(s) && Enabled(s, l)
    ensures AllPast(RunsAfter(s, l), WorkersAfter(s, l))
  {
    forall w | w in WorkersAfter(s, l) ensures Past(RunsAfter(s, l), WorkersAfter(s, l)[w]) {
      if l.Claim? && l.worker == w {
        ClaimTarget(s, w);
      } else if w in s.workers {
        WorkerStaysPast(s, l, w);
      }
    }
  }

  lemma SameMessage(s: Sys, l: Label, w: nat)
    requires Enabled(s, l) && w in s.workers && !(l.Claim? && l.worker == w) && w in WorkersAfter(s, l)
    ensures WorkersAfter(s, l)[w].msg == s.workers[w].msg
    ensures s.workers[w].Fetched? ==> WorkersAfter(s, l)[w].Fetched?
  {
  }

  lemma WorkerStaysPast(s: Sys, l: Label, w: nat)
    requires Flowing(s) && Enabled(s, l) && w in s.workers && !(l.Claim? && l.worker == w)
    requires w in WorkersAfter(s, l)
    ensures Past(RunsAfter(s, l), WorkersAfter(s, l)[w])
  {
    var r, o := s.workers[w].msg.runId, s.workers[w].msg.outboxId;
    SameMessage(s, l, w);
    ClaimTarget(s, w);
    assert Past(s.runs, s.workers[w]) && WorkerOk(s.runs, s.outbox, s.workers[w]);
    QueueAfter(s, l, r);
    if !s.workers[w].Fetched? {
      StillPast(s.runs[r], RunsAfter(s, l)[r], o, |s.outbox|);
    }
  }

  /** The outbox id `o` is behind the latest one of the row, if the row is queued. */
  predicate Behind(run: Run, o: nat) {
    run.state == Queued ==> |run.hist.enqueued| > 0 && o < Last(run)
  }

  lemma StillPast(a: Run, b: Run, o: nat, rows: nat)
    requires Behind(a, o) && o < rows
    requires b.hist.enqueued == a.hist.enqueued + [rows] || (b.hist.enqueued == a.hist.enqueued && (b.state == Queued ==> a.state == Queued))
    ensures Behind(b, o)
  {
  }

  lemma {:induction false} FlowingAlways(s: Sys, labels: seq<Label>, regime: Regime)
    requires Flowing(s)
    ensures Flowing(Reach(s, labels, regime))
  {
    if labels != [] {
      var before, l := Reach(s, labels[..|labels| - 1], regime), labels[|labels| - 1];
      FlowingAlways(s, labels[..|labels| - 1], regime);
      AccountedAlways(s, labels, regime);
      if Possible(before, l, regime) {
        EnqueuedStays(before, l);
        MovingStays(before, l);
        PastStays(before, l);
      }
    }
  }

  /** In every reachable state a queued run's latest outbox row is either unpublished or
      has an unacknowledged message in the stream, despite duplicate publishing, publisher
      crashes, naks and acks on failed claims. */
  lemma QueuedNeverStranded(s: Sys, labels: seq<Label>, regime: Regime, r: string) returns (latest: nat)
    requires Init(s)
    requires var s' := Reach(s, labels, regime); r in s'.runs && s'.runs[r].state == Queued
    ensures var s' := Reach(s, labels, regime);
            && latest < |s'.outbox| && s'.outbox[latest].run == r
            && (forall o :: latest < o < |s'.outbox| ==> s'.outbox[o].run != r)
            && (!s'.outbox[latest].published || HasCopy(s'.stream, latest))
  {
    FlowingAlways(s, labels, regime);
    var s' := Reach(s, labels, regime);
    var run := s'.runs[r];
    assert EnqueuedOk(r, run, s'.outbox) && Moving(run, s'.stream, s'.log);
    latest := Last(run);
  }

  function RowsOf(outbox: seq<OutboxRow>, r: string): set<nat> {
    set o | 0 <= o < |outbox| && outbox[o].run == r
  }

  lemma {:induction false} DistinctCount(ids: seq<nat>, all: set<nat>)
    requires forall i, j :: 0 <= i < j < |ids| ==> ids[i] < ids[j]
    requires forall o :: o in all <==> o in ids
    ensures |all| == |ids|
  {
    if ids == [] {
      assert all == {};
    } else {
      var last := ids[|ids| - 1];
      assert forall i :: 0 <= i < |ids| - 1 ==> ids[i] == ids[..|ids| - 1][i];
      DistinctCount(ids[..|ids| - 1], all - {last});
      assert |all - {last}| == |all| - 1;
    }
  }

  /** A run has one outbox row for its creation and one per approved event, never more. */
  lemma OneRowPerRequeue(s: Sys, labels: seq<Label>, regime: Regime, r: string)
    requires Init(s) && r in Reach(s, labels, regime).runs
    ensures var s' := Reach(s, labels, regime);
            |RowsOf(s'.outbox, r)| == multiset(s'.runs[r].events)[Created] + multiset(s'.runs[r].events)[Approved]
  {
    FlowingAlways(s, labels, regime);
    var s' := Reach(s, labels, regime);
    assert EnqueuedOk(r, s'.runs[r], s'.outbox) && RunOk(s'.runs[r]);
    DistinctCount(s'.runs[r].hist.enqueued, RowsOf(s'.outbox, r));
  }
}
