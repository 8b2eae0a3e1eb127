/** The in-memory effect ledger, and its agreement with the database ledger. */
module Ledger {
  import opened Keys

  type Bytes = seq<bv8>

  datatype Key = Key(tenant: string, run: string, step: nat, effectKey: string)

  /** First writer wins. */
  function Committed<K>(commits: map<K, Bytes>, key: K, outcome: Bytes): map<K, Bytes> {
    if key in commits then commits else commits[key := outcome]
  }

  class MemoryLedger {
    var commits: map<Key, array<bv8>>

    /** The outcomes as stored now. */
    ghost function Outcomes(): map<Key, Bytes>
      reads this, commits.Values
    {
      map k | k in commits :: commits[k][..]
    }

    constructor ()
      ensures commits == map[]
    {
      commits := map[];
    }

    /** A new key is filed with its own copy of the outcome: the stored array is fresh, so
        no caller holds it; an old key changes nothing. */
    method Commit(key: Key, outcome: array<bv8>) returns (inserted: bool)
      modifies this
      ensures inserted == (key !in old(commits))
      ensures Outcomes() == Committed(old(Outcomes()), key, outcome[..])
      ensures !inserted ==> commits == old(commits)
      ensures inserted ==> key in commits && fresh(commits[key]) && commits == old(commits)[key := commits[key]]
    {
      if key in commits {
        return false;
      }
      var copy := new bv8[outcome.Length];
      for i := 0 to outcome.Length
        invariant copy[..i] == outcome[..i] && commits == old(commits)
        invariant forall k :: k in commits ==> commits[k][..] == old(commits[k][..])
      {
        copy[i] := outcome[i];
      }
      assert copy[..] == copy[..copy.Length] == outcome[..];
      commits := commits[key := copy];
      return true;
    }

    /** Every write to a caller's buffer leaves every stored outcome as it was. */
    method Overwrite(buffer: array<bv8>, position: nat, value: bv8)
      requires position < buffer.Length && buffer !in commits.Values
      modifies buffer
      ensures buffer[..] == old(buffer[..])[position := value] && Outcomes() == old(Outcomes())
    {
      buffer[position] := value;
    }

    /** A caller that reuses one buffer for every commit, overwriting it in between, leaves
        the ledger that fresh buffers would have left. */
    method CommitReusing(tickets: seq<Ticket>, buffer: array<bv8>) returns (accepted: seq<bool>)
      requires commits == map[] && forall i :: 0 <= i < |tickets| ==> |tickets[i].outcome| == buffer.Length
      modifies this, buffer
      ensures Book(Outcomes(), accepted) == MemoryBook(tickets)
    {
      accepted := [];
      for n := 0 to |tickets|
        invariant Book(Outcomes(), accepted) == MemoryBook(tickets[..n])
        invariant buffer !in commits.Values
      {
        var t := tickets[n];
        Fill(buffer, t.outcome);
        var inserted := Commit(MemoryEntry(t), buffer);
        accepted := accepted + [inserted];
        assert tickets[..n + 1] == tickets[..n] + [t];
        MemoryAppend(tickets[..n], t);
      }
      assert tickets[..|tickets|] == tickets;
    }

    method Fill(buffer: array<bv8>, bytes: Bytes)
      requires |bytes| == buffer.Length && buffer !in commits.Values
      modifies buffer
      ensures buffer[..] == bytes && Outcomes() == old(Outcomes())
    {
      for i := 0 to buffer.Length
        invariant buffer[..i] == bytes[..i] && Outcomes() == old(Outcomes())
      {
        Overwrite(buffer, i, bytes[i]);
      }
      assert buffer[..] == buffer[..buffer.Length];
    }
  }

  /** One ticket commit as the worker issues it. */
  datatype Ticket = Ticket(tenant: string, run: string, step: nat, outcome: Bytes)

  /** The key of the in-memory ledger and the unique index of the database ledger. */
  function MemoryEntry(t: Ticket): Key {
    Key(t.tenant, t.run, t.step, EffectKey(t.run, t.step))
  }

  function DatabaseEntry(t: Ticket): (string, string) {
    (t.tenant, EffectKey(t.run, t.step))
  }

  /** Contents and verdicts after a sequence of commits. */
  datatype Book<!K> = Book(commits: map<K, Bytes>, accepted: seq<bool>)

  function Commits<K(==)>(book: Book<K>, key: K, outcome: Bytes): Book<K> {
    Book(Committed(book.commits, key, outcome), book.accepted + [key !in book.commits])
  }

  function MemoryBook(tickets: seq<Ticket>): Book<Key> {
    if tickets == [] then Book(map[], [])
    else
      var t := tickets[|tickets| - 1];
      Commits(MemoryBook(tickets[..|tickets| - 1]), MemoryEntry(t), t.outcome)
  }

  function DatabaseBook(tickets: seq<Ticket>): Book<(string, string)> {
    if tickets == [] then Book(map[], [])
    else
      var t := tickets[|tickets| - 1];
      Commits(DatabaseBook(tickets[..|tickets| - 1]), DatabaseEntry(t), t.outcome)
  }

  function Count(flags: seq<bool>): nat {
    if flags == [] then 0 else Count(flags[..|flags| - 1]) + if flags[|flags| - 1] then 1 else 0
  }

  /** The two ledgers hold the same outcome, or none, for a ticket. */
  predicate SameFor(memory: Book<Key>, database: Book<(string, string)>, t: Ticket) {
    && (MemoryEntry(t) in memory.commits <==> DatabaseEntry(t) in database.commits)
    && (MemoryEntry(t) in memory.commits ==> memory.commits[MemoryEntry(t)] == database.commits[DatabaseEntry(t)])
  }

  lemma CommitsAgree(memory: Book<Key>, database: Book<(string, string)>, t: Ticket, any: Ticket)
    requires SameFor(memory, database, t) && SameFor(memory, database, any)
    ensures SameFor(Commits(memory, MemoryEntry(t), t.outcome), Commits(database, DatabaseEntry(t), t.outcome), any)
  {
    EffectKeyInjective(t.run, t.step, any.run, any.step);
  }

  /** On every sequence of commits with worker-rendered keys, the ledger keyed by tenant,
      run, step and key and the one keyed by tenant and effect key accept and reject
      exactly alike, hold the same outcomes, and count as many entries as they accepted. */
  lemma {:induction false} LedgersAgree(tickets: seq<Ticket>, any: Ticket)
    ensures var memory, database := MemoryBook(tickets), DatabaseBook(tickets);
            && memory.accepted == database.accepted && |memory.accepted| == |tickets|
            && SameFor(memory, database, any)
            && |memory.commits| == |database.commits| == Count(memory.accepted)
  {
    if tickets != [] {
      var rest, t := tickets[..|tickets| - 1], tickets[|tickets| - 1];
      LedgersAgree(rest, any);
      LedgersAgree(rest, t);
      CommitsAgree(MemoryBook(rest), DatabaseBook(rest), t, any);
      var flags := MemoryBook(tickets).accepted;
      assert flags[..|flags| - 1] == MemoryBook(rest).accepted;
    }
  }

  /** Nothing already committed is ever changed or lost. */
  lemma {:induction false} OutcomesKept(before: seq<Ticket>, later: seq<Ticket>, key: Key)
    requires key in MemoryBook(before).commits
    ensures key in MemoryBook(before + later).commits && MemoryBook(before + later).commits[key] == MemoryBook(before).commits[key]
  {
    if later == [] {
      assert before + later == before;
    } else {
      var n := |later| - 1;
      OutcomesKept(before, later[..n], key);
      MemoryAppend(before + later[..n], later[n]);
      assert before + later == before + later[..n] + [later[n]];
    }
  }

  lemma MemoryAppend(tickets: seq<Ticket>, t: Ticket)
    ensures MemoryBook(tickets + [t]) == Commits(MemoryBook(tickets), MemoryEntry(t), t.outcome)
  {
    assert (tickets + [t])[..|tickets|] == tickets;
  }

  /** The first commit of a key is the one whose outcome the ledger keeps forever. */
  lemma FirstOutcomeKept(before: seq<Ticket>, t: Ticket, later: seq<Ticket>)
    ensures var book := MemoryBook(before + [t] + later); var key := MemoryEntry(t);
            && key in book.commits
            && book.commits[key] == if key in MemoryBook(before).commits then MemoryBook(before).commits[key] else t.outcome
  {
    MemoryAppend(before, t);
    OutcomesKept(before + [t], later, MemoryEntry(t));
  }
}
