/** Terminal states settle, stale writers included. */
module Settlement {
  import opened Contracts
  import opened Keys
  import opened Runtime
  import opened Structure

  predicate ExecutorOn(workers: map<nat, Worker>, w: nat, r: string) {
    w in workers && workers[w].Executing? && workers[w].exec.runId == r
  }

  /** A run leaves a terminal state, or changes at all while in one, only by a statement of
      an executor that had claimed it before. */
  lemma OnlyItsExecutor(s: Sys, l: Label, r: string)
    requires Structured(s) && Enabled(s, l) && r in s.runs && Terminal(s.runs[r].state)
    ensures r in RunsAfter(s, l)
    ensures RunsAfter(s, l)[r] != s.runs[r] ==> l.Stmt? && ExecutorOn(s.workers, l.worker, r)
  {
    if l.Stmt? {
      StatementRow(s, l.worker, l.ok, r);
    } else {
      OthersLeaveTerminal(s, l, r);
    }
  }

  lemma OthersLeaveTerminal(s: Sys, l: Label, r: string)
    requires Enabled(s, l) && !l.Stmt? && r in s.runs && Terminal(s.runs[r].state)
    ensures r in RunsAfter(s, l) && RunsAfter(s, l)[r] == s.runs[r]
  {
  }

  /** The contract's table, read backwards: from where each state can be entered.  Every state
      that is not terminal can be cancelled, nothing leads out of a terminal one, and only a
      leased or suspended run can be queued again. */
  lemma TableReadBackwards(state: RunState)
    ensures Cancelled in AllowedTransitions(state) <==> state !in {Succeeded, Failed, Cancelled, Uncertain}
    ensures Queued in AllowedTransitions(state) <==> state in {Leased, AwaitingApproval}
    ensures Leased in AllowedTransitions(state) <==> state == Queued
    ensures Running in AllowedTransitions(state) <==> state == Leased
    ensures AwaitingApproval in AllowedTransitions(state) <==> state == Running
    ensures Succeeded in AllowedTransitions(state) <==> state == Running
    ensures Failed in AllowedTransitions(state) <==> state in {Leased, Running}
    ensures Uncertain in AllowedTransitions(state) <==> state in {Leased, Running}
  {
  }

  /** Terminal states are exactly those without an exit, and active ones all the others. */
  lemma TerminalHasNoExit(state: RunState)
    ensures Terminal(state) <==> AllowedTransitions(state) == {}
    ensures Terminal(state) <==> state in {Succeeded, Failed, Cancelled, Uncertain}
    ensures Active(state) <==> !Terminal(state)
  {
    TableReadBackwards(state);
  }

  predicate Settled(s: Sys, r: string) {
    r in s.runs && Terminal(s.runs[r].state) && forall w :: w in s.workers ==> !ExecutorOn(s.workers, w, r)
  }

  lemma NobodyClaims(s: Sys, l: Label, r: string)
    requires Structured(s) && Enabled(s, l) && Settled(s, r)
    ensures forall w :: w in WorkersAfter(s, l) ==> !ExecutorOn(WorkersAfter(s, l), w, r)
  {
    forall w | w in WorkersAfter(s, l) ensures !ExecutorOn(WorkersAfter(s, l), w, r) {
      if l.Claim? && l.worker == w {
        ClaimFindsNothing(s, w, r);
      } else if w in s.workers {
        assert !ExecutorOn(s.workers, w, r);
      }
    }
  }

  lemma ClaimFindsNothing(s: Sys, w: nat, r: string)
    requires Structured(s) && Enabled(s, Claim(w)) && r in s.runs && Terminal(s.runs[r].state)
    ensures !ExecutorOn(WorkersAfter(s, Claim(w)), w, r)
  {
    ClaimTarget(s, w);
  }

  /** The ledger rows of one run. */
  ghost predicate SameEffects(a: EffectLedger, b: EffectLedger, r: string) {
    forall k :: (k in a && a[k].run == r) || (k in b && b[k].run == r) ==> k in a && k in b && a[k] == b[k]
  }

  lemma EffectsRest(s: Sys, l: Label, r: string)
    requires Structured(s) && Enabled(s, l) && Settled(s, r)
    ensures SameEffects(s.ledger, LedgerAfter(s, l), r)
  {
    if l.Stmt? {
      var e := s.workers[l.worker].exec;
      CommitsElsewhere(s, l.worker, r);
      if Entry(e) !in s.ledger {
        AddedElsewhere(s.ledger, Entry(e), Effect(Canonical(e.runId), e.index), r);
      }
    }
  }

  lemma AddedElsewhere(ledger: EffectLedger, entry: (string, string), effect: Effect, r: string)
    requires entry !in ledger && effect.run != r
    ensures SameEffects(ledger, ledger[entry := effect], r)
  {
  }

  lemma CommitsElsewhere(s: Sys, w: nat, r: string)
    requires Structured(s) && OnRun(s, w) && !ExecutorOn(s.workers, w, r)
    ensures Canonical(s.workers[w].exec.runId) != r
  {
    OnItsRun(s, w, true);
  }

  /** Once a run is terminal with no executor in flight, its state, step, results, events
      and ledger rows never change again, over every continuation. */
  lemma {:induction false} SettledForever(s: Sys, labels: seq<Label>, regime: Regime, r: string)
    requires Structured(s) && Settled(s, r)
    ensures var s' := Reach(s, labels, regime);
            Settled(s', r) && s'.runs[r] == s.runs[r] && SameEffects(s.ledger, s'.ledger, r)
  {
    if labels != [] {
      var before, l := Reach(s, labels[..|labels| - 1], regime), labels[|labels| - 1];
      SettledForever(s, labels[..|labels| - 1], regime, r);
      StructuredAlways(s, labels[..|labels| - 1], regime);
      if Possible(before, l, regime) {
        OnlyItsExecutor(before, l, r);
        if l.Stmt? {
          assert !ExecutorOn(before.workers, l.worker, r);
        }
        NobodyClaims(before, l, r);
        EffectsRest(before, l, r);
      }
    }
  }
}
