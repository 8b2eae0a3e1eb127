/** A running run, unlike a queued one, can be stranded: an error answered with a nak is
    redelivered while the lease is alive, the claim finds nothing, and the last message is
    acknowledged.  Stranded means exactly that no continuation but a cancel moves the run. */
module Stranding {
  import opened Contracts
  import opened Keys
  import opened Runtime
  import opened Structure
  import opened Progress

  predicate NoneHeld(workers: map<nat, Worker>, r: string) {
    forall w :: w in workers && workers[w].msg.runId == r ==> workers[w].Finished?
  }

  predicate NoneStored(stream: set<Message>, r: string) {
    forall m :: m in stream ==> m.runId != r
  }

  predicate AllPublished(outbox: seq<OutboxRow>, r: string) {
    forall o :: 0 <= o < |outbox| && outbox[o].run == r ==> outbox[o].published
  }

  predicate PassDone(pub: Publisher, r: string) {
    pub.alive ==> forall i :: 0 <= pub.sent <= i < |pub.batch| ==> pub.batch[i].runId != r
  }

  predicate NonePending(publishers: map<nat, Publisher>, r: string) {
    forall p :: p in publishers ==> PassDone(publishers[p], r)
  }

  /** Running, and no message for the run is held, stored, unpublished or about to be sent. */
  predicate Stranded(s: Sys, r: string) {
    && r in s.runs && s.runs[r].state == Running
    && NoneHeld(s.workers, r) && NoneStored(s.stream, r)
    && AllPublished(s.outbox, r) && NonePending(s.publishers, r)
  }

  /******* Stranded is forever *******/

  lemma RowRests(s: Sys, l: Label, r: string)
    requires Structured(s) && Enabled(s, l) && Stranded(s, r) && l != Cancel(r)
    ensures r in RunsAfter(s, l) && RunsAfter(s, l)[r] == s.runs[r]
  {
    if l.Stmt? {
      StatementRow(s, l.worker, l.ok, r);
      assert WorkerOk(s.runs, s.outbox, s.workers[l.worker]);
    } else if l.Claim? {
      ClaimRests(s, l.worker, r);
    } else {
      OthersRest(s, l, r);
    }
  }

  lemma ClaimRests(s: Sys, w: nat, r: string)
    requires Structured(s) && Enabled(s, Claim(w)) && Stranded(s, r)
    ensures r in RunsAfter(s, Claim(w)) && RunsAfter(s, Claim(w))[r] == s.runs[r]
  {
    ClaimTarget(s, w);
    assert s.workers[w].msg.runId != r;
  }

  lemma OthersRest(s: Sys, l: Label, r: string)
    requires Enabled(s, l) && r in s.runs && s.runs[r].state == Running && l != Cancel(r) && !l.Stmt? && !l.Claim?
    ensures r in RunsAfter(s, l) && RunsAfter(s, l)[r] == s.runs[r]
  {
  }

  lemma HeldRests(s: Sys, l: Label, r: string)
    requires Enabled(s, l) && NoneHeld(s.workers, r) && NoneStored(s.stream, r)
    ensures NoneHeld(WorkersAfter(s, l), r)
  {
  }

  lemma StreamRests(s: Sys, l: Label, r: string)
    requires Enabled(s, l) && NoneStored(s.stream, r) && NonePending(s.publishers, r)
    ensures NoneStored(StreamAfter(s, l), r)
  {
    if l.Send? {
      assert PassDone(s.publishers[l.publisher], r);
    }
  }

  lemma OutboxRests(s: Sys, l: Label, r: string)
    requires Enabled(s, l) && r in s.runs && s.runs[r].state == Running && AllPublished(s.outbox, r)
    ensures AllPublished(OutboxAfter(s, l), r)
  {
  }

  lemma PassesRest(s: Sys, l: Label, r: string)
    requires Enabled(s, l) && AllPublished(s.outbox, r) && NonePending(s.publishers, r)
    ensures NonePending(PublishersAfter(s, l), r)
  {
    forall p | p in PublishersAfter(s, l) ensures PassDone(PublishersAfter(s, l)[p], r) {
      if p in s.publishers {
        assert PassDone(s.publishers[p], r);
      }
    }
  }

  lemma {:induction false} StrandedForever(s: Sys, labels: seq<Label>, regime: Regime, r: string)
    requires Structured(s) && Stranded(s, r) && Cancel(r) !in labels
    ensures var s' := Reach(s, labels, regime); Stranded(s', r) && s'.runs[r] == s.runs[r]
  {
    if labels != [] {
      var before, l := Reach(s, labels[..|labels| - 1], regime), labels[|labels| - 1];
      StrandedForever(s, labels[..|labels| - 1], regime, r);
      StructuredAlways(s, labels[..|labels| - 1], regime);
      if Possible(before, l, regime) {
        RowRests(before, l, r);
        HeldRests(before, l, r);
        StreamRests(before, l, r);
        OutboxRests(before, l, r);
        PassesRest(before, l, r);
      }
    }
  }

  /******* Anything else moves *******/

  lemma {:induction false} Then(s: Sys, l: Label, rest: seq<Label>)
    ensures Reach(s, [l] + rest, Unfenced) == Reach(Next(s, l, Unfenced), rest, Unfenced)
  {
    ReachAppend(s, [l], rest, Unfenced);
    ReachOne(s, l, Unfenced);
  }

  /** The continuation reaches a state in which the run has new events. */
  predicate Moves(s: Sys, labels: seq<Label>, r: string) {
    && r in s.runs && Cancel(r) !in labels
    && r in Reach(s, labels, Unfenced).runs
    && |s.runs[r].events| < |Reach(s, labels, Unfenced).runs[r].events|
  }

  lemma MovesAfter(s: Sys, l: Label, rest: seq<Label>, r: string)
    requires r in s.runs && l != Cancel(r) && Moves(Next(s, l, Unfenced), rest, r)
    requires |s.runs[r].events| <= |Next(s, l, Unfenced).runs[r].events|
    ensures Moves(s, [l] + rest, r)
  {
    Then(s, l, rest);
  }

  lemma MovesNow(s: Sys, l: Label, r: string)
    requires r in s.runs && Enabled(s, l) && l != Cancel(r)
    requires r in RunsAfter(s, l) && |s.runs[r].events| < |RunsAfter(s, l)[r].events|
    ensures Moves(s, [l], r)
  {
    Then(s, l, []);
    assert [l] + [] == [l];
  }

  lemma Fresh(used: set<nat>) returns (n: nat)
    ensures n !in used
  {
    if used == {} {
      n := 0;
    } else {
      n := Maximum(used) + 1;
    }
  }

  ghost function Maximum(used: set<nat>): (m: nat)
    requires used != {}
    ensures forall i :: i in used ==> i <= m
  {
    var x :| x in used;
    if used == {x} then x
    else
      var rest := Maximum(used - {x});
      assert forall i :: i in used ==> i == x || i in used - {x};
      if x > rest then x else rest
  }

  lemma FromFetched(s: Sys, w: nat, r: string) returns (labels: seq<Label>)
    requires Structured(s) && r in s.runs && s.runs[r].state == Running
    requires w in s.workers && s.workers[w].Fetched? && s.workers[w].msg.runId == r
    ensures Moves(s, labels, r)
  {
    assert RunOk(s.runs[r]);
    var wait := Tick(s.runs[r].lease.value + 1);
    var later := Next(s, wait, Unfenced);
    assert later == s.(now := later.now) && later.now > s.runs[r].lease.value;
    ClaimTarget(s, w);
    ClaimMoves(later, w, r);
    MovesAfter(s, wait, [Claim(w)], r);
    labels := [wait, Claim(w)];
    assert labels == [wait] + [Claim(w)];
  }

  lemma ClaimMoves(s: Sys, w: nat, r: string)
    requires w in s.workers && s.workers[w].Fetched? && s.workers[w].msg.runId == r && IsUuid(r) && Canonical(r) == r
    requires r in s.runs && Claimable(s.runs[r], s.now)
    ensures Moves(s, [Claim(w)], r)
  {
    assert Claims(s, w);
    MovesNow(s, Claim(w), r);
  }

  lemma FromStream(s: Sys, m: Message, r: string) returns (labels: seq<Label>)
    requires Structured(s) && r in s.runs && s.runs[r].state == Running && m in s.stream && m.runId == r
    ensures Moves(s, labels, r)
  {
    var w := Fresh(s.workers.Keys);
    var l := Deliver(w, m);
    StructuredStep(s, l, Unfenced);
    var rest := FromFetched(Next(s, l, Unfenced), w, r);
    MovesAfter(s, l, rest, r);
    labels := [l] + rest;
  }

  lemma {:induction false} FromBatch(s: Sys, p: nat, i: nat, r: string) returns (labels: seq<Label>)
    requires Structured(s) && r in s.runs && s.runs[r].state == Running
    requires p in s.publishers && s.publishers[p].alive && s.publishers[p].sent <= i < |s.publishers[p].batch|
    requires s.publishers[p].batch[i].runId == r
    ensures Moves(s, labels, r)
    decreases i - s.publishers[p].sent
  {
    var l := Send(p);
    var next := Next(s, l, Unfenced);
    StructuredStep(s, l, Unfenced);
    SendsNext(s, p);
    var rest;
    if s.publishers[p].sent == i {
      rest := FromStream(next, s.publishers[p].batch[i], r);
    } else {
      rest := FromBatch(next, p, i, r);
    }
    MovesAfter(s, l, rest, r);
    labels := [l] + rest;
  }

  lemma SendsNext(s: Sys, p: nat)
    requires Enabled(s, Send(p))
    ensures var s' := Next(s, Send(p), Unfenced); var pub := s.publishers[p];
            s'.runs == s.runs && pub.batch[pub.sent] in s'.stream && p in s'.publishers && s'.publishers[p] == pub.(sent := pub.sent + 1)
  {
  }

  lemma FromOutbox(s: Sys, o: nat, r: string) returns (labels: seq<Label>)
    requires Structured(s) && r in s.runs && s.runs[r].state == Running
    requires o < |s.outbox| && s.outbox[o].run == r && !s.outbox[o].published
    ensures Moves(s, labels, r)
  {
    var p := Fresh(s.publishers.Keys);
    var l := ClaimOutbox(p, [o]);
    StructuredStep(s, l, Unfenced);
    TakesRow(s, o, p);
    var rest := FromBatch(Next(s, l, Unfenced), p, 0, r);
    MovesAfter(s, l, rest, r);
    labels := [l] + rest;
  }

  lemma TakesRow(s: Sys, o: nat, p: nat)
    requires o < |s.outbox| && !s.outbox[o].published && p !in s.publishers
    ensures var s' := Next(s, ClaimOutbox(p, [o]), Unfenced);
            && s'.runs == s.runs && p in s'.publishers
            && s'.publishers[p] == Publisher([Message(o, p, s.outbox[o].tenant, s.outbox[o].run)], 0, true)
  {
    assert Batch(s.outbox, p, [o]) == [Message(o, p, s.outbox[o].tenant, s.outbox[o].run)];
  }

  /** An executor left alone ends with an event. */
  lemma {:induction false} FromExecutor(s: Sys, w: nat, r: string) returns (labels: seq<Label>)
    requires Structured(s) && w in s.workers && s.workers[w].Executing? && s.workers[w].exec.runId == r
    ensures r in s.runs && Moves(s, labels, r)
    decreases WorkLeft(s.workers[w].exec)
  {
    OnItsRun(s, w, true);
    var l, move := Stmt(w, true), MoveOf(s, w, true);
    EventsGrow(s, w, r);
    if move.action.AppendEvent? {
      MovesNow(s, l, r);
      labels := [l];
    } else {
      StructuredStep(s, l, Unfenced);
      ExecutorContinues(s, w);
      var rest := FromExecutor(Next(s, l, Unfenced), w, r);
      MovesAfter(s, l, rest, r);
      labels := [l] + rest;
    }
  }

  lemma ExecutorContinues(s: Sys, w: nat)
    requires OnRun(s, w) && PcOk(s.workers[w].exec) && MoveOf(s, w, true).next.Some?
    ensures var after := WorkersAfter(s, Stmt(w, true));
            && w in after && after[w].Executing? && after[w].exec.runId == s.workers[w].exec.runId
            && WorkLeft(after[w].exec) < WorkLeft(s.workers[w].exec)
  {
    var e := s.workers[w].exec;
    ExecutorTerminates(e, s.now, true, e.cols.handle.Some? && e.cols.handle.value in s.broker, Entry(e) in s.ledger);
    assert WorkersAfter(s, Stmt(w, true))[w].exec == Forward(e, s.now, MoveOf(s, w, true));
  }

  lemma EventsGrow(s: Sys, w: nat, r: string)
    requires Structured(s) && OnRun(s, w) && s.workers[w].exec.runId == r && r in s.runs
    ensures var move := MoveOf(s, w, true);
            && r in RunsAfter(s, Stmt(w, true))
            && |RunsAfter(s, Stmt(w, true))[r].events| == |s.runs[r].events| + (if move.action.AppendEvent? then 1 else 0)
            && (move.next.None? ==> move.action.AppendEvent?)
  {
    var e := s.workers[w].exec;
    StatementRow(s, w, true, r);
    EventsAfter(s.runs[r], e, s.now, true, e.cols.handle.Some? && e.cols.handle.value in s.broker, Entry(e) in s.ledger);
  }

  lemma EventsAfter(run: Run, e: Exec, now: nat, ok: bool, held: bool, present: bool)
    ensures var move := Plan(e, ok, held, present); var after := Write(run, e.index, now, move.action);
            && |after.events| == |run.events| + (if move.action.AppendEvent? then 1 else 0)
            && (move.next.None? ==> move.action.AppendEvent?)
  {
  }

  /** Exactly when a running run is lost: no continuation without a cancel moves it if and
      only if it is stranded. */
  lemma StrandedExactly(s: Sys, r: string) returns (labels: seq<Label>)
    requires Structured(s) && r in s.runs && s.runs[r].state == Running
    ensures !Stranded(s, r) ==> Moves(s, labels, r)
    ensures Stranded(s, r) ==> forall ls, regime :: Cancel(r) !in ls ==>
              r in Reach(s, ls, regime).runs && Reach(s, ls, regime).runs[r] == s.runs[r]
  {
    labels := [];
    if Stranded(s, r) {
      forall ls, regime | Cancel(r) !in ls
        ensures r in Reach(s, ls, regime).runs && Reach(s, ls, regime).runs[r] == s.runs[r]
      {
        StrandedForever(s, ls, regime, r);
      }
    } else if !NoneHeld(s.workers, r) {
      var w :| w in s.workers && s.workers[w].msg.runId == r && !s.workers[w].Finished?;
      assert WorkerOk(s.runs, s.outbox, s.workers[w]);
      if s.workers[w].Fetched? {
        labels := FromFetched(s, w, r);
      } else {
        labels := FromExecutor(s, w, r);
      }
    } else if !NoneStored(s.stream, r) {
      var m :| m in s.stream && m.runId == r;
      labels := FromStream(s, m, r);
    } else if !AllPublished(s.outbox, r) {
      var o :| 0 <= o < |s.outbox| && s.outbox[o].run == r && !s.outbox[o].published;
      labels := FromOutbox(s, o, r);
    } else {
      var p :| p in s.publishers && !PassDone(s.publishers[p], r);
      var i :| 0 <= s.publishers[p].sent <= i < |s.publishers[p].batch| && s.publishers[p].batch[i].runId == r;
      labels := FromBatch(s, p, i, r);
    }
  }
}
