/** What a recovery writes, fact by fact: the ends of open attempts, the results of pending calls and the end of the
    interrupted Run, with the reason the Run's last stop fact gives (session/memory_store.go recoverAggregate,
    recoveredRunTermination). */
module RecoveryEffects {
  import opened SessionTypes
  import opened HistoryChecker
  import opened Transactions
  import opened SearchAgreement
  import opened Recovery
  import opened AggregateInvariant
  import opened RecoveryKeepsInvariant

  // ---------------------------------------------------------------- why a Run was interrupted

  /** Fact `i` is a budget or limit fact of the Run, and the last one. */
  ghost predicate LastStop(h: seq<HistoryFact>, i: int, run: RunID) {
    StopOf(h, i, run) && forall k :: i < k < |h| ==> !StopOf(h, k, run)
  }

  predicate StopOf(h: seq<HistoryFact>, i: int, run: RunID) {
    && 0 <= i < |h|
    && ((h[i].payload.BudgetPayload? && h[i].payload.budget.run == run)
        || (h[i].payload.LimitPayload? && h[i].payload.limit.run == run))
  }

  /** The last budget or limit fact of the Run gives the reason; without one the Runtime was interrupted. */
  lemma {:induction false} TerminationExact(h: seq<HistoryFact>, run: RunID)
    ensures (forall i :: !StopOf(h, i, run)) ==> RecoveredTermination(h, run) == CodeRuntimeInterrupted
    ensures forall i :: LastStop(h, i, run) ==> Reason(h[i].payload, RecoveredTermination(h, run))
  {
    if h != [] {
      var front, n := h[..|h| - 1], |h| - 1;
      TerminationExact(front, run);
      TerminationSnoc(h, run);
      hide Reason;
      hide RecoveredTermination;
      if !StopOf(h, n, run) {
        forall i | LastStop(h, i, run) ensures Reason(h[i].payload, RecoveredTermination(h, run)) {
          StopsSnoc(h, i, run);
        }
        forall i | 0 <= i < n ensures StopOf(h, i, run) <==> StopOf(front, i, run) {
          StopsSnoc(h, i, run);
        }
      }
    }
  }

  /** What each stop fact says. */
  predicate Reason(p: Payload, code: TerminationCode) {
    match p
    case BudgetPayload(_) => code == CodeTokenBudget
    case LimitPayload(l) => code == if l.kind.LimitToolCalls? then CodeToolCallLimit else CodeModelAttemptLimit
    case _ => false
  }

  lemma {:induction false} StopsSnoc(h: seq<HistoryFact>, i: int, run: RunID)
    requires h != [] && i < |h| - 1
    ensures StopOf(h, i, run) <==> StopOf(h[..|h| - 1], i, run)
    ensures LastStop(h, i, run) ==> LastStop(h[..|h| - 1], i, run) && h[..|h| - 1][i] == h[i]
  {
    var front := h[..|h| - 1];
    assert forall k :: 0 <= k < |front| ==> front[k] == h[k];
    if LastStop(h, i, run) {
      assert StopOf(front, i, run);
      forall k | i < k < |front| ensures !StopOf(front, k, run) {
        assert !StopOf(h, k, run);
      }
    }
  }

  lemma {:induction false} TerminationSnoc(h: seq<HistoryFact>, run: RunID)
    requires h != []
    ensures if StopOf(h, |h| - 1, run) then Reason(h[|h| - 1].payload, RecoveredTermination(h, run))
            else RecoveredTermination(h, run) == RecoveredTermination(h[..|h| - 1], run)
  {
  }

  // ---------------------------------------------------------------- what is appended

  /** An attempt that started and has no end, told by the facts. */
  ghost predicate OpenAttempt(s: Snapshot, id: AttemptID) {
    id in ScanOf(s.history).attempts.starts && id !in ScanOf(s.history).attempts.terminals
  }

  predicate PendingCall(s: Snapshot, id: ToolCallID) {
    exists i :: 0 <= i < |s.journal| && s.journal[i].call.id == id && s.journal[i].status.JournalPending?
  }

  /** A fact that recovery of this aggregate may write. */
  ghost predicate Repairs(s: Snapshot, p: Payload) {
    match p
    case AttemptPayload(a) =>
      && OpenAttempt(s, a.id) && a.kind.AttemptOutcomeUnknown? && a.error != 0
      && a.(kind := AttemptStarted, error := ScanOf(s.history).attempts.starts[a.id].error) ==
         ScanOf(s.history).attempts.starts[a.id]
    case ResultPayload(x) => PendingCall(s, x.call) && x.status.ResultUnknown? && x.error.None?
    case RunPayload(f) =>
      && s.running && f.run == s.activeRun && f.kind.RunInterrupted? && f.run in ScanOf(s.history).runs.starts
      && f.config == ScanOf(s.history).runs.starts[f.run].config
      && f.configRevision == ScanOf(s.history).runs.starts[f.run].configRevision
      && f.termination == Some(RecoveredTermination(s.history, f.run))
    case _ => false
  }

  ghost predicate OnlyRepairs(s: Snapshot, h: seq<HistoryFact>) {
    s.history <= h && forall i :: |s.history| <= i < |h| ==> Repairs(s, h[i].payload)
  }

  lemma {:induction false} RepairsSnoc(s: Snapshot, h: seq<HistoryFact>, f: HistoryFact)
    requires OnlyRepairs(s, h) && Repairs(s, f.payload)
    ensures OnlyRepairs(s, h + [f])
  {
    hide Repairs;
  }

  lemma {:induction false} ClosingRepairs(s: Snapshot, at: Snapshot, order: seq<AttemptID>)
    requires Core(s) && AllOpen(s.history, order) && at.history == s.history
    ensures OnlyRepairs(s, CloseAttempts(at, ScanOf(s.history).attempts.starts, order).history)
    decreases |order|
  {
    hide ScanOf;
    if order != [] {
      var front, id := order[..|order| - 1], order[|order| - 1];
      ClosingRepairs(s, at, front);
      OrphanRepairs(s, id);
      hide Repairs;
      var before := CloseAttempts(at, ScanOf(s.history).attempts.starts, front);
      var p := AttemptPayload(OrphanTerminal(ScanOf(s.history).attempts.starts[id]));
      RepairsSnoc(s, before.history, Envelope(before.history, before.session.id, NoFact, p));
    }
  }

  lemma {:induction false} OrphanRepairs(s: Snapshot, id: AttemptID)
    requires Core(s) && OpenAttempt(s, id)
    ensures Repairs(s, AttemptPayload(OrphanTerminal(ScanOf(s.history).attempts.starts[id])))
  {
    ScanHoldsFacts(s.session.id, s.history);
    hide ScanOf;
  }

  lemma {:induction false} SettlingRepairs(s: Snapshot, at: Snapshot, n: nat)
    requires n <= |at.journal| && at.journal == s.journal && OnlyRepairs(s, at.history)
    ensures OnlyRepairs(s, SettlePending(at, n).history)
  {
    hide Repairs;
    if n > 0 {
      SettlingRepairs(s, at, n - 1);
      SettleFrame(at, n - 1);
      var before := SettlePending(at, n - 1);
      var e := at.journal[n - 1];
      if e.status == JournalPending {
        UnknownRepairs(s, n - 1);
        var p := ResultPayload(ToolUnknown(e.call.id));
        RepairsSnoc(s, before.history, Envelope(before.history, before.session.id, NoFact, p));
      }
    }
  }

  lemma {:induction false} UnknownRepairs(s: Snapshot, i: nat)
    requires i < |s.journal| && s.journal[i].status == JournalPending
    ensures Repairs(s, ResultPayload(ToolUnknown(s.journal[i].call.id)))
  {
  }

  /** Whatever the order, a recovery appends nothing but unknown ends of attempts that were open, unknown results of
      calls that were pending, and the interruption of the active Run with its reason. */
  lemma {:induction false} RecoveryWrites(s: Snapshot, order: seq<AttemptID>, now: Time)
    requires Core(s) && Enumerates(order, OpenAttempts(s.history))
    ensures OnlyRepairs(s, Recovered(s, order, now).history)
  {
    EnumeratedAreOpen(s, order);
    var extended := s.(extensions := RecoverExtensions(s.extensions, now));
    ClosingRepairs(s, extended, order);
    var closed := CloseAttempts(extended, ScanOf(s.history).attempts.starts, order);
    SettlingRepairs(s, closed.(journal := s.journal), |s.journal|);
    RepairedIs(s, order, now);
    RepairedOk(s, order, now);
    var repaired := Repaired(s, order, now);
    StopsRepair(s, repaired);
    RecoveredIs(s, order, now);
    hide Recovered;
    hide Repaired;
    hide OnlyRepairs;
    hide Core;
  }

  lemma {:induction false} RecoveredIs(s: Snapshot, order: seq<AttemptID>, now: Time)
    requires forall i :: 0 <= i < |order| ==> order[i] in ScanOf(s.history).attempts.starts
    ensures Recovered(s, order, now).history ==
            if s.running && !Resumable(Repaired(s, order, now), s.activeRun)
            then Interrupt(Repaired(s, order, now), s.activeRun).history else Repaired(s, order, now).history
  {
    hide Resumable;
    hide Repaired;
    hide Interrupt;
  }

  /** Repairs add no stop facts. */
  lemma {:induction false} SameTermination(s: Snapshot, h: seq<HistoryFact>, run: RunID)
    requires OnlyRepairs(s, h)
    ensures RecoveredTermination(h, run) == RecoveredTermination(s.history, run)
    decreases |h|
  {
    if |h| > |s.history| {
      var front := h[..|h| - 1];
      assert forall i :: 0 <= i < |front| ==> front[i] == h[i];
      SameTermination(s, front, run);
      assert Repairs(s, h[|h| - 1].payload);
    } else {
      assert h == s.history;
    }
  }

  lemma {:induction false} StopsRepair(s: Snapshot, repaired: Snapshot)
    requires Core(s) && Core(repaired) && OnlyRepairs(s, repaired.history) && repaired.activeRun == s.activeRun
    requires ScanOf(repaired.history).runs == ScanOf(s.history).runs
    ensures s.running ==> OnlyRepairs(s, Interrupt(repaired, s.activeRun).history)
  {
    RunSearch(repaired.history, s.activeRun);
    SameTermination(s, repaired.history, s.activeRun);
    ScanHoldsFacts(s.session.id, s.history);
    if s.running {
      var started, terminal :=
        FindRun(repaired.history, s.activeRun, true), FindRun(repaired.history, s.activeRun, false);
      if started.Some? && terminal.None? {
        var p := RunPayload(InterruptedFact(started.value, repaired.history));
        assert Repairs(s, p);
        RepairsSnoc(s, repaired.history, Envelope(repaired.history, repaired.session.id, NoFact, p));
      }
    }
    hide Core;
    hide ScanOf;
    hide FindRun;
    hide OnlyRepairs;
  }
}
