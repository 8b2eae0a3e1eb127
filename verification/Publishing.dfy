/** The outbox publisher: one `publishPending` pass as code, tied to the protocol's labels,
    and how repeated passes drain a backlog. */
module Publishing {
  import opened Contracts
  import opened Runtime

  /** The unpublished ids from `o` on, in id order. */
  function PendingFrom(outbox: seq<OutboxRow>, o: nat): seq<nat>
    requires o <= |outbox|
    decreases |outbox| - o
  {
    if o == |outbox| then []
    else if outbox[o].published then PendingFrom(outbox, o + 1)
    else [o] + PendingFrom(outbox, o + 1)
  }

  function Pending(outbox: seq<OutboxRow>): seq<nat> {
    PendingFrom(outbox, 0)
  }

  predicate Increasing(ids: seq<nat>) {
    forall i, j :: 0 <= i < j < |ids| ==> ids[i] < ids[j]
  }

  lemma {:induction false} PendingIds(outbox: seq<OutboxRow>, o: nat)
    requires o <= |outbox|
    ensures Increasing(PendingFrom(outbox, o))
    ensures Lists(outbox, o, PendingFrom(outbox, o))
    decreases |outbox| - o
  {
    if o < |outbox| {
      PendingIds(outbox, o + 1);
      if !outbox[o].published {
        PendingCons(outbox, o, PendingFrom(outbox, o + 1));
      }
    }
  }

  /** Exactly the unpublished ids from `o` on. */
  ghost predicate Lists(outbox: seq<OutboxRow>, o: nat, ids: seq<nat>) {
    forall i: nat :: i in ids <==> o <= i < |outbox| && !outbox[i].published
  }

  lemma PendingCons(outbox: seq<OutboxRow>, o: nat, rest: seq<nat>)
    requires o < |outbox| && !outbox[o].published && Increasing(rest) && Lists(outbox, o + 1, rest)
    ensures Increasing([o] + rest) && Lists(outbox, o, [o] + rest)
  {
    var ids := [o] + rest;
    forall i, j | 0 <= i < j < |ids| ensures ids[i] < ids[j] {
      assert rest[j - 1] in rest;
    }
    forall i: nat ensures i in ids <==> o <= i < |outbox| && !outbox[i].published {
      assert i in ids <==> i == o || i in rest;
    }
  }

  /** Increasing sequences are determined by their elements. */
  lemma {:induction false} SortedUnique(a: seq<nat>, b: seq<nat>)
    requires Increasing(a) && Increasing(b) && forall i :: i in a <==> i in b
    ensures a == b
  {
    assert b != [] ==> b[0] in b && b[0] in a;
    if a != [] {
      assert a[0] in a && a[0] in b;
      assert b[0] in b && b[0] in a;
      assert a[0] == b[0];
      forall i ensures i in a[1..] <==> i in b[1..] {
        assert i in a <==> i == a[0] || i in a[1..];
        assert i in b <==> i == b[0] || i in b[1..];
      }
      SortedUnique(a[1..], b[1..]);
    }
  }

  function Min(a: nat, b: nat): nat {
    if a < b then a else b
  }

  function FirstPending(outbox: seq<OutboxRow>, limit: nat): seq<nat> {
    Pending(outbox)[..Min(limit, |Pending(outbox)|)]
  }

  lemma FirstPendingClaimable(outbox: seq<OutboxRow>, limit: nat)
    ensures ClaimableRows(outbox, FirstPending(outbox, limit))
  {
    PendingIds(outbox, 0);
    forall i | 0 <= i < |FirstPending(outbox, limit)|
      ensures FirstPending(outbox, limit)[i] < |outbox| && !outbox[FirstPending(outbox, limit)[i]].published
    {
      assert FirstPending(outbox, limit)[i] in Pending(outbox);
    }
  }

  /******* One pass *******/

  function Sends(p: nat, n: nat): seq<Label> {
    seq(n, i => Send(p))
  }

  /** The labels of a pass that stored `sent` copies and then finished or threw. */
  function Pass(p: nat, ids: seq<nat>, sent: nat, finished: bool): seq<Label> {
    [ClaimOutbox(p, ids)] + Sends(p, sent) + [if finished then MarkPublished(p) else StopPublisher(p)]
  }

  class OutboxPublisher {
    var sys: Sys

    /** Selects the first unpublished rows in id order and counts an attempt on each. */
    method ClaimPendingOutbox(p: nat, limit: nat) returns (ids: seq<nat>, messages: seq<Message>)
      requires p !in sys.publishers
      modifies this
      ensures ids == FirstPending(old(sys).outbox, limit)
      ensures Enabled(old(sys), ClaimOutbox(p, ids)) && sys == Apply(old(sys), ClaimOutbox(p, ids))
      ensures messages == Batch(old(sys).outbox, p, ids)
    {
      ids := SelectPending(limit);
      FirstPendingClaimable(sys.outbox, limit);
      messages := Batch(sys.outbox, p, ids);
      sys := sys.(outbox := CountAttempts(sys.outbox, p, ids),
                  publishers := sys.publishers[p := Publisher(messages, 0, true)]);
    }

    method SelectPending(limit: nat) returns (ids: seq<nat>)
      ensures ids == FirstPending(sys.outbox, limit)
    {
      ids := [];
      var o := 0;
      ghost var all := Pending(sys.outbox);
      while o < |sys.outbox| && |ids| < limit
        invariant o <= |sys.outbox| && |ids| <= limit
        invariant all == ids + PendingFrom(sys.outbox, o)
      {
        if !sys.outbox[o].published {
          ids := ids + [o];
        }
        o := o + 1;
      }
      FirstTaken(all, ids, PendingFrom(sys.outbox, o), limit);
    }

    /** Publishes the claimed messages one by one and marks them only after the last; a
        failing publish leaves every row unmarked.  `failing` is the position at which the
        broker rejects, if it does. */
    method PublishPending(p: nat, limit: nat, failing: Option<nat>) returns (delivered: Option<nat>)
      requires p !in sys.publishers
      modifies this
      ensures var ids := FirstPending(old(sys).outbox, limit);
              var fails := failing.Some? && failing.value < |ids|;
              && sys == Reach(old(sys), Pass(p, ids, if fails then failing.value else |ids|, !fails), Unfenced)
              && delivered == (if fails then None else Some(|ids|))
      ensures delivered.Some? ==> sys.outbox == Round(old(sys).outbox, p, limit)
      ensures delivered.None? ==> forall o :: 0 <= o < |old(sys).outbox| ==> o < |sys.outbox| && sys.outbox[o].published == old(sys).outbox[o].published
    {
      var ids, messages := ClaimPendingOutbox(p, limit);
      ghost var before := old(sys);
      ReachOne(before, ClaimOutbox(p, ids), Unfenced);
      assert [ClaimOutbox(p, ids)] + Sends(p, 0) == [ClaimOutbox(p, ids)];
      var sent := PublishEach(p, messages, failing, before, [ClaimOutbox(p, ids)]);
      ghost var labels := [ClaimOutbox(p, ids)] + Sends(p, sent);
      if sent < |messages| {
        StopEffect(before, labels, p);
        sys := sys.(publishers := sys.publishers[p := sys.publishers[p].(alive := false)]);
        return None;
      }
      MarkEffect(before, labels, p);
      sys := sys.(outbox := MarkRows(sys.outbox, messages), publishers := sys.publishers[p := sys.publishers[p].(alive := false)]);
      delivered := Some(sent);
    }

    /** The publish loop; it stops short exactly when the broker rejects a message. */
    method PublishEach(p: nat, messages: seq<Message>, failing: Option<nat>, ghost before: Sys, ghost labels: seq<Label>) returns (sent: nat)
      requires p in sys.publishers && sys.publishers[p] == Publisher(messages, 0, true)
      requires sys == Reach(before, labels, Unfenced)
      modifies this
      ensures sent == if failing.Some? && failing.value < |messages| then failing.value else |messages|
      ensures p in sys.publishers && sys.publishers[p] == Publisher(messages, sent, true) && sys.outbox == old(sys).outbox
      ensures sys == Reach(before, labels + Sends(p, sent), Unfenced)
    {
      sent := 0;
      assert labels + Sends(p, 0) == labels;
      while sent < |messages|
        invariant sent <= |messages| && (failing.Some? ==> sent <= failing.value || |messages| <= failing.value)
        invariant sys == Reach(before, labels + Sends(p, sent), Unfenced) && sys.outbox == old(sys).outbox
        invariant p in sys.publishers && sys.publishers[p] == Publisher(messages, sent, true)
      {
        if failing == Some(sent) {
          return;
        }
        PublishOne(p, messages, sent, before, labels);
        sent := sent + 1;
      }
    }

    method PublishOne(p: nat, messages: seq<Message>, sent: nat, ghost before: Sys, ghost labels: seq<Label>)
      requires sent < |messages| && p in sys.publishers && sys.publishers[p] == Publisher(messages, sent, true)
      requires sys == Reach(before, labels + Sends(p, sent), Unfenced)
      modifies this
      ensures p in sys.publishers && sys.publishers[p] == Publisher(messages, sent + 1, true) && sys.outbox == old(sys).outbox
      ensures sys == Reach(before, labels + Sends(p, sent + 1), Unfenced)
    {
      OneMoreSend(before, labels, p, sent);
      sys := sys.(stream := sys.stream + {messages[sent]}, log := sys.log + {messages[sent]},
                  publishers := sys.publishers[p := sys.publishers[p].(sent := sent + 1)]);
    }
  }

  lemma FirstTaken(all: seq<nat>, ids: seq<nat>, rest: seq<nat>, limit: nat)
    requires all == ids + rest && |ids| <= limit && (rest == [] || |ids| == limit)
    ensures ids == all[..Min(limit, |all|)]
  {
  }

  lemma OneMoreSend(s: Sys, labels: seq<Label>, p: nat, sent: nat)
    requires Enabled(Reach(s, labels + Sends(p, sent), Unfenced), Send(p))
    ensures var now := Reach(s, labels + Sends(p, sent), Unfenced); var pub := now.publishers[p];
            Reach(s, labels + Sends(p, sent + 1), Unfenced) ==
            now.(stream := now.stream + {pub.batch[pub.sent]}, log := now.log + {pub.batch[pub.sent]},
                 publishers := now.publishers[p := pub.(sent := pub.sent + 1)])
  {
    ReachStep(s, labels + Sends(p, sent), Send(p), Unfenced);
    assert labels + Sends(p, sent) + [Send(p)] == labels + Sends(p, sent + 1);
  }

  lemma MarkEffect(s: Sys, labels: seq<Label>, p: nat)
    requires Enabled(Reach(s, labels, Unfenced), MarkPublished(p))
    ensures var now := Reach(s, labels, Unfenced);
            Reach(s, labels + [MarkPublished(p)], Unfenced) ==
            now.(outbox := MarkRows(now.outbox, now.publishers[p].batch),
                 publishers := now.publishers[p := now.publishers[p].(alive := false)])
  {
    ReachStep(s, labels, MarkPublished(p), Unfenced);
  }

  lemma StopEffect(s: Sys, labels: seq<Label>, p: nat)
    requires Enabled(Reach(s, labels, Unfenced), StopPublisher(p))
    ensures var now := Reach(s, labels, Unfenced);
            Reach(s, labels + [StopPublisher(p)], Unfenced) ==
            now.(publishers := now.publishers[p := now.publishers[p].(alive := false)])
  {
    ReachStep(s, labels, StopPublisher(p), Unfenced);
  }

  /******* Draining *******/

  /** The outbox after one pass that did not fail. */
  function Round(outbox: seq<OutboxRow>, p: nat, limit: nat): seq<OutboxRow> {
    var ids := FirstPending(outbox, limit);
    FirstPendingClaimable(outbox, limit);
    MarkRows(CountAttempts(outbox, p, ids), Batch(outbox, p, ids))
  }

  lemma RoundTakesFirst(outbox: seq<OutboxRow>, p: nat, limit: nat)
    ensures Pending(Round(outbox, p, limit)) == Pending(outbox)[|FirstPending(outbox, limit)|..]
  {
    var all, ids, after := Pending(outbox), FirstPending(outbox, limit), Round(outbox, p, limit);
    PendingIds(outbox, 0);
    PendingIds(after, 0);
    var rest := all[|ids|..];
    assert all == ids + rest;
    forall i: nat ensures i in Pending(after) <==> i in rest {
      if 0 <= i < |outbox| {
        RoundMarks(outbox, p, limit, i);
      }
      Split(all, |ids|, i);
    }
    SortedUnique(Pending(after), rest);
  }

  lemma RoundMarks(outbox: seq<OutboxRow>, p: nat, limit: nat, o: nat)
    requires o < |outbox|
    ensures |Round(outbox, p, limit)| == |outbox|
    ensures Round(outbox, p, limit)[o].published <==> outbox[o].published || o in FirstPending(outbox, limit)
  {
    var ids := FirstPending(outbox, limit);
    FirstPendingClaimable(outbox, limit);
    var batch := Batch(outbox, p, ids);
    if o in ids {
      var i :| 0 <= i < |ids| && ids[i] == o;
      assert batch[i].outboxId == o;
    }
  }

  lemma Split(all: seq<nat>, n: nat, i: nat)
    requires Increasing(all) && n <= |all|
    ensures i in all[n..] <==> i in all && i !in all[..n]
  {
    assert all == all[..n] + all[n..];
    if i in all[n..] {
      var k :| n <= k < |all| && all[k] == i;
      assert forall j :: 0 <= j < n ==> all[j] < all[k];
    }
  }

  /** The outbox and the ids handed to the broker so far. */
  type Backlog = (seq<OutboxRow>, seq<nat>)

  /** After one more pass that did not fail. */
  function Passed(state: Backlog, p: nat, limit: nat): Backlog {
    (Round(state.0, p, limit), state.1 + FirstPending(state.0, limit))
  }

  /** After `n` passes that did not fail. */
  function Drained(outbox: seq<OutboxRow>, p: nat, limit: nat, n: nat): Backlog {
    if n == 0 then (outbox, []) else Passed(Drained(outbox, p, limit, n - 1), p + n - 1, limit)
  }

  /** The first `sent` ids of `all` are handed out and the others are the backlog. */
  predicate Through(all: seq<nat>, state: Backlog, sent: nat) {
    state.1 == all[..Min(sent, |all|)] && Pending(state.0) == all[Min(sent, |all|)..]
  }

  function Times(n: nat, limit: nat): nat {
    if n == 0 then 0 else Times(n - 1, limit) + limit
  }

  lemma {:induction false} TimesIs(n: nat, limit: nat)
    ensures Times(n, limit) == n * limit
  {
    if n > 0 {
      TimesIs(n - 1, limit);
    }
  }

  /** What holds at the start and is carried through every pass holds after any number. */
  lemma {:induction false} PassInduction(inv: (Backlog, nat) -> bool, outbox: seq<OutboxRow>, p: nat, limit: nat, n: nat)
    requires inv((outbox, []), 0)
    requires forall state, q: nat, sent: nat :: inv(state, sent) ==> inv(Passed(state, q, limit), sent + limit)
    ensures inv(Drained(outbox, p, limit, n), Times(n, limit))
  {
    if n > 0 {
      PassInduction(inv, outbox, p, limit, n - 1);
    }
  }

  lemma DrainsThrough(outbox: seq<OutboxRow>, p: nat, limit: nat, n: nat)
    ensures Through(Pending(outbox), Drained(outbox, p, limit, n), Times(n, limit))
  {
    var all := Pending(outbox);
    var inv := (state: Backlog, sent: nat) => Through(all, state, sent);
    forall state, q: nat, sent: nat | inv(state, sent) ensures inv(Passed(state, q, limit), sent + limit) {
      OneRound(all, state, q, limit, sent);
    }
    PassInduction(inv, outbox, p, limit, n);
  }

  lemma RoundsDrain(outbox: seq<OutboxRow>, p: nat, limit: nat, n: nat)
    ensures var done := Min(n * limit, |Pending(outbox)|);
            && Drained(outbox, p, limit, n).1 == Pending(outbox)[..done]
            && Pending(Drained(outbox, p, limit, n).0) == Pending(outbox)[done..]
  {
    DrainsThrough(outbox, p, limit, n);
    TimesIs(n, limit);
  }

  lemma OneRound(all: seq<nat>, state: Backlog, p: nat, limit: nat, sent: nat)
    requires Through(all, state, sent)
    ensures Through(all, Passed(state, p, limit), sent + limit)
  {
    RoundHands(state.0, p, limit, all[Min(sent, |all|)..]);
    NextSlice(all, sent, limit);
  }

  /** One pass on a known backlog: what it hands out and what it leaves. */
  lemma RoundHands(outbox: seq<OutboxRow>, p: nat, limit: nat, rest: seq<nat>)
    requires Pending(outbox) == rest
    ensures FirstPending(outbox, limit) == rest[..Min(limit, |rest|)]
    ensures Pending(Round(outbox, p, limit)) == rest[Min(limit, |rest|)..]
  {
    RoundTakesFirst(outbox, p, limit);
  }

  lemma NextSlice(all: seq<nat>, sent: nat, limit: nat)
    ensures var rest := all[Min(sent, |all|)..]; var batch := rest[..Min(limit, |rest|)];
            && all[..Min(sent, |all|)] + batch == all[..Min(sent + limit, |all|)]
            && rest[|batch|..] == all[Min(sent + limit, |all|)..]
  {
  }

  /** A backlog of any size drains in exactly ceil(n / limit) passes, in id order. */
  lemma BacklogDrains(outbox: seq<OutboxRow>, p: nat, limit: nat, n: nat)
    requires limit > 0
    ensures var backlog := |Pending(outbox)|;
            && (Pending(Drained(outbox, p, limit, n).0) == [] <==> (backlog + limit - 1) / limit <= n)
            && (Pending(Drained(outbox, p, limit, n).0) == [] ==> Drained(outbox, p, limit, n).1 == Pending(outbox))
  {
    RoundsDrain(outbox, p, limit, n);
    Ceiling(|Pending(outbox)|, limit, n);
  }

  lemma Ceiling(backlog: nat, limit: nat, n: nat)
    requires limit > 0
    ensures (backlog + limit - 1) / limit <= n <==> backlog <= n * limit
  {
    var q := (backlog + limit - 1) / limit;
    assert backlog + limit - 1 == q * limit + (backlog + limit - 1) % limit;
    if q <= n {
      assert q * limit <= n * limit;
    } else {
      assert (n + 1) * limit <= q * limit;
      assert (n + 1) * limit == n * limit + limit;
    }
  }
}
