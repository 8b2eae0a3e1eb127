/** The credential broker: a lazily purged map that answers as its history says. */
module Broker {
  import opened Contracts

  datatype Entry = Entry(credential: string, expiresAt: int)

  datatype Op =
    | Issue(handle: string, credential: string, now: int)
    | Consume(handle: string, now: int)
    | Discard(handle: string)

  function Purged(entries: map<string, Entry>, now: int): map<string, Entry> {
    map h | h in entries && entries[h].expiresAt > now :: entries[h]
  }

  function Issued(entries: map<string, Entry>, ttl: int, handle: string, credential: string, now: int): map<string, Entry> {
    Purged(entries, now)[handle := Entry(credential, now + ttl)]
  }

  function Answer(entries: map<string, Entry>, handle: string, now: int): Option<string> {
    if handle in Purged(entries, now) then Some(entries[handle].credential) else None
  }

  class CredentialBroker {
    const ttl: int
    var entries: map<string, Entry>

    constructor (ttl: int)
      ensures this.ttl == ttl && entries == map[]
    {
      this.ttl := ttl;
      entries := map[];
    }

    /** `handle` is the fresh UUID and `now` the clock reading of the call. */
    method IssueCredential(credential: string, handle: string, now: int) returns (issued: string)
      modifies this
      ensures issued == handle && entries == Issued(old(entries), ttl, handle, credential, now)
    {
      Purge(now);
      entries := entries[handle := Entry(credential, now + ttl)];
      return handle;
    }

    method ConsumeHandle(handle: string, now: int) returns (credential: Option<string>)
      modifies this
      ensures credential == Answer(old(entries), handle, now)
      ensures entries == Purged(old(entries), now) - {handle}
    {
      Purge(now);
      credential := if handle in entries then Some(entries[handle].credential) else None;
      entries := entries - {handle};
    }

    method DiscardHandle(handle: string)
      modifies this
      ensures entries == old(entries) - {handle}
    {
      entries := entries - {handle};
    }

    /** Deletes while it iterates over the handles present at the start. */
    method Purge(now: int)
      modifies this
      ensures entries == Purged(old(entries), now)
    {
      var todo := entries.Keys;
      while todo != {}
        invariant todo <= entries.Keys <= old(entries).Keys
        invariant forall h :: h in entries ==> entries[h] == old(entries)[h]
        invariant forall h :: h in todo ==> h in entries
        invariant forall h :: h in old(entries) && h !in todo ==> (h in entries <==> old(entries)[h].expiresAt > now)
        decreases |todo|
      {
        var handle :| handle in todo;
        todo := todo - {handle};
        if entries[handle].expiresAt <= now {
          entries := entries - {handle};
        }
      }
      assert entries == Purged(old(entries), now);
    }
  }

  /******* The history specification *******/

  function Step(entries: map<string, Entry>, ttl: int, op: Op): map<string, Entry> {
    match op
    case Issue(h, c, now) => Issued(entries, ttl, h, c, now)
    case Consume(h, now) => Purged(entries, now) - {h}
    case Discard(h) => entries - {h}
  }

  function After(ops: seq<Op>, ttl: int): map<string, Entry> {
    if ops == [] then map[] else Step(After(ops[..|ops| - 1], ttl), ttl, ops[|ops| - 1])
  }

  predicate Ends(op: Op, handle: string) {
    (op.Consume? || op.Discard?) && op.handle == handle
  }

  /** The clock never runs backwards and no handle is issued twice. */
  predicate WellTimed(ops: seq<Op>) {
    && (forall i, j :: 0 <= i < j < |ops| && !ops[i].Discard? && !ops[j].Discard? ==> ops[i].now <= ops[j].now)
    && (forall i, j :: 0 <= i < j < |ops| && ops[i].Issue? && ops[j].Issue? ==> ops[i].handle != ops[j].handle)
  }

  predicate NotBefore(ops: seq<Op>, now: int) {
    forall i :: 0 <= i < |ops| && !ops[i].Discard? ==> ops[i].now <= now
  }

  /** Issued at `i` with this entry and never consumed or discarded since. */
  predicate Outstanding(ops: seq<Op>, ttl: int, handle: string, entry: Entry, i: int) {
    && 0 <= i < |ops| && ops[i] == Issue(handle, entry.credential, entry.expiresAt - ttl)
    && forall j :: i < j < |ops| ==> !Ends(ops[j], handle)
  }

  ghost predicate OutstandingNow(ops: seq<Op>, ttl: int, handle: string, entry: Entry) {
    exists i :: Outstanding(ops, ttl, handle, entry, i)
  }

  /** At any time not before the last operation, the unexpired entries of the map are
      exactly the unexpired outstanding issues. */
  lemma {:induction false} MapIsHistory(ops: seq<Op>, ttl: int, now: int, handle: string, entry: Entry)
    requires WellTimed(ops) && NotBefore(ops, now) && entry.expiresAt > now
    ensures (handle in After(ops, ttl) && After(ops, ttl)[handle] == entry) <==> OutstandingNow(ops, ttl, handle, entry)
  {
    if ops != [] {
      var n := |ops| - 1;
      var before, op := ops[..n], ops[n];
      MapIsHistory(before, ttl, now, handle, entry);
      if OutstandingNow(before, ttl, handle, entry) && !Ends(op, handle) {
        var i :| Outstanding(before, ttl, handle, entry, i);
        assert Outstanding(ops, ttl, handle, entry, i);
        assert !(op.Issue? && op.handle == handle);
      }
      if OutstandingNow(ops, ttl, handle, entry) {
        var i :| Outstanding(ops, ttl, handle, entry, i);
        if i < n {
          assert Outstanding(before, ttl, handle, entry, i);
          assert !Ends(ops[n], handle) && !(op.Issue? && op.handle == handle);
        }
      }
      if op == Issue(handle, entry.credential, entry.expiresAt - ttl) {
        assert Outstanding(ops, ttl, handle, entry, n);
      }
    }
  }

  /** Issued at `i` with this credential, unexpired, never consumed or discarded since. */
  predicate Redeemable(ops: seq<Op>, ttl: int, handle: string, credential: string, now: int, i: int) {
    && 0 <= i < |ops| && ops[i].Issue? && ops[i].handle == handle && ops[i].credential == credential
    && now < ops[i].now + ttl
    && forall j :: i < j < |ops| ==> !Ends(ops[j], handle)
  }

  /** Consume returns a credential if and only if that handle was issued with it, is
      unexpired, and was never consumed or discarded, over every operation sequence. */
  lemma ConsumeAnswersHistory(ops: seq<Op>, ttl: int, now: int, handle: string, credential: string)
    requires WellTimed(ops) && NotBefore(ops, now)
    ensures Answer(After(ops, ttl), handle, now) == Some(credential) <==>
            exists i :: Redeemable(ops, ttl, handle, credential, now, i)
  {
    var entries := After(ops, ttl);
    if Answer(entries, handle, now) == Some(credential) {
      MapIsHistory(ops, ttl, now, handle, entries[handle]);
      var i :| Outstanding(ops, ttl, handle, entries[handle], i);
      assert Redeemable(ops, ttl, handle, credential, now, i);
    }
    if i :| Redeemable(ops, ttl, handle, credential, now, i) {
      var entry := Entry(credential, ops[i].now + ttl);
      assert Outstanding(ops, ttl, handle, entry, i);
      MapIsHistory(ops, ttl, now, handle, entry);
    }
  }

  /** So a handle yields its credential at most once. */
  lemma ConsumedOnce(ops: seq<Op>, ttl: int, now: int, handle: string, i: int, later: int)
    requires WellTimed(ops) && NotBefore(ops, later)
    requires 0 <= i < |ops| && ops[i] == Consume(handle, now) && Answer(After(ops[..i], ttl), handle, now).Some?
    ensures Answer(After(ops, ttl), handle, later) == None
  {
    var credential := Answer(After(ops[..i], ttl), handle, now).value;
    ConsumeAnswersHistory(ops[..i], ttl, now, handle, credential);
    var first :| Redeemable(ops[..i], ttl, handle, credential, now, first);
    assert ops[first].Issue? && ops[first].handle == handle && first < i && Ends(ops[i], handle);
    var answer := Answer(After(ops, ttl), handle, later);
    if answer.Some? {
      ConsumeAnswersHistory(ops, ttl, later, handle, answer.value);
    }
  }
}
