/** What crash recovery establishes, for every order in which it may close open attempts
    (session/memory_store.go, recoverAggregate). */
module RecoveryKeepsInvariant {
  import opened SessionTypes
  import opened ExtensionJournal
  import opened HistoryChecker
  import opened Transactions
  import opened SearchAgreement
  import opened Recovery
  import opened AggregateInvariant

  lemma {:induction false} ExtensionsRecovered(extensions: seq<ExtensionEntry>, now: Time, sid: SessionID)
    requires JournalValid(extensions, sid)
    ensures JournalValid(RecoverExtensions(extensions, now), sid)
    ensures JournalDescends(extensions, RecoverExtensions(extensions, now))
    ensures forall i :: 0 <= i < |extensions| ==> !RecoverExtensions(extensions, now)[i].status.InvocationPending?
  {
    forall i | 0 <= i < |extensions|
      ensures EntryValid(RecoverExtensions(extensions, now)[i], sid)
      ensures Descends(extensions[i], RecoverExtensions(extensions, now)[i])
      ensures !RecoverExtensions(extensions, now)[i].status.InvocationPending?
    {
      RecoverEntryIsLegal(extensions[i], now, HookOutcomeUnknown, UnknownAfterRecovery, sid);
    }
  }

  function Ids(order: seq<AttemptID>): (r: set<AttemptID>) {
    set i | 0 <= i < |order| :: order[i]
  }

  /** Ending one open attempt as unknown is a fact the checker accepts. */
  lemma {:induction false} OrphanKeepsCore(s: Snapshot, id: AttemptID)
    requires Core(s) && id in ScanOf(s.history).attempts.starts && id !in ScanOf(s.history).attempts.terminals
    ensures var p := AttemptPayload(OrphanTerminal(ScanOf(s.history).attempts.starts[id]));
            && Core(Extend(s, p))
            && ScanOf(Extend(s, p).history) == Absorb(ScanOf(s.history), p)
            && ScanOf(Extend(s, p).history).attempts ==
                 Attempts(ScanOf(s.history).attempts.starts, ScanOf(s.history).attempts.terminals + {id})
  {
    ScanHoldsFacts(s.session.id, s.history);
    var p := AttemptPayload(OrphanTerminal(ScanOf(s.history).attempts.starts[id]));
    AppendKeepsHistory(s, p);
    AppendKeepsCore(s, p);
    assert Extend(s, p) == AppendFact(s, p, HistoryInvariant).value;
  }

  predicate AllOpen(h: seq<HistoryFact>, order: seq<AttemptID>) {
    forall i :: 0 <= i < |order| ==> order[i] in ScanOf(h).attempts.starts && order[i] !in ScanOf(h).attempts.terminals
  }

  predicate Distinct(order: seq<AttemptID>) {
    forall i, j :: 0 <= i < j < |order| ==> order[i] != order[j]
  }

  /** Closing open attempts appends one terminal fact for each, and nothing else. */
  lemma {:induction false} AttemptsClosed(s: Snapshot, order: seq<AttemptID>)
    requires Core(s) && AllOpen(s.history, order) && Distinct(order)
    ensures var c := CloseAttempts(s, ScanOf(s.history).attempts.starts, order);
            && Core(c) && c == s.(history := c.history) && s.history <= c.history
            && ScanOf(c.history).talk == ScanOf(s.history).talk && ScanOf(c.history).runs == ScanOf(s.history).runs
            && ScanOf(c.history).attempts ==
                 Attempts(ScanOf(s.history).attempts.starts, ScanOf(s.history).attempts.terminals + Ids(order))
    decreases |order|
  {
    hide Core;
    hide ScanOf;
    if order == [] {
      assert ScanOf(s.history).attempts.terminals + Ids(order) == ScanOf(s.history).attempts.terminals;
    } else {
      var front, id := order[..|order| - 1], order[|order| - 1];
      AttemptsClosed(s, front);
      assert id !in Ids(front);
      assert Ids(order) == Ids(front) + {id};
      OrphanKeepsCore(CloseAttempts(s, ScanOf(s.history).attempts.starts, front), id);
    }
  }

  /** A pending call has no result yet, so an unknown one is accepted. */
  lemma {:induction false} UnknownAccepted(s: Snapshot, e: JournalEntry)
    requires HistoryOk(s) && ForkOk(s) && e.call.id != 0 && EntryAccepted(ScanOf(s.history).talk, e)
    requires Unfinished(e.status)
    ensures var unknown := ResultPayload(ToolUnknown(e.call.id));
            && FindResult(s.history, e.call.id).None?
            && HistoryOk(Extend(s, unknown)) && ForkOk(Extend(s, unknown))
            && ScanOf(Extend(s, unknown).history) == Absorb(ScanOf(s.history), unknown)
  {
    var unknown := ResultPayload(ToolUnknown(e.call.id));
    ResultSearch(s.session.id, s.history, e.call.id);
    AppendKeepsHistory(s, unknown);
    assert Extend(s, unknown) == AppendFact(s, unknown, HistoryInvariant).value;
  }

  /** One pending call: an unknown result in History and at its entry. */
  lemma {:induction false} UnknownKeepsCore(s: Snapshot, i: nat)
    requires Core(s) && i < |s.journal| && s.journal[i].status == JournalPending
    ensures var unknown := ToolUnknown(s.journal[i].call.id);
            var told := Extend(s, ResultPayload(unknown));
            && FindResult(s.history, s.journal[i].call.id).None?
            && Core(told.(journal :=
                 s.journal[i := s.journal[i].(result := Some(unknown), status := JournalOutcomeUnknown)]))
            && ScanOf(told.history) == Absorb(ScanOf(s.history), ResultPayload(unknown))
  {
    var e := s.journal[i];
    var unknown := ToolUnknown(e.call.id);
    assert EntryAccepted(ScanOf(s.history).talk, e) && e.Valid(s.session.id);
    UnknownAccepted(s, e);
    hide ScanOf;
    hide HistoryOk;
    hide FindResult;
    var told := Extend(s, ResultPayload(unknown));
    SettledJournalAccepted(ScanOf(s.history).talk, ScanOf(told.history).talk, s.journal, i, unknown);
    CoreWithTools(s, told.(journal := s.journal[i := e.(result := Some(unknown), status := JournalOutcomeUnknown)]));
  }

  lemma {:induction false} PendingSettled(s: Snapshot, n: nat)
    requires Core(s) && n <= |s.journal|
    ensures var r := SettlePending(s, n);
            && Core(r) && r == s.(history := r.history, journal := r.journal) && s.history <= r.history
            && ScanOf(r.history).attempts == ScanOf(s.history).attempts
            && ScanOf(r.history).runs == ScanOf(s.history).runs
            && forall k :: 0 <= k < n ==> r.journal[k].status != JournalPending
  {
    hide Core;
    hide ScanOf;
    if n > 0 {
      PendingSettled(s, n - 1);
      SettleFrame(s, n - 1);
      var before := SettlePending(s, n - 1);
      assert before.journal[n - 1] == s.journal[n - 1];
      if s.journal[n - 1].status == JournalPending {
        UnknownKeepsCore(before, n - 1);
      }
    }
  }

  /** After the repairs that every recovery makes. */
  lemma {:induction false} RepairedOk(s: Snapshot, order: seq<AttemptID>, now: Time)
    requires Core(s) && Enumerates(order, OpenAttempts(s.history))
    ensures var r := Repaired(s, order, now);
            && Core(r) && s.history <= r.history
            && r == s.(history := r.history, journal := r.journal, extensions := r.extensions)
            && JournalDescends(s.extensions, r.extensions)
            && OpenAttempts(r.history) == {}
            && ScanOf(r.history).runs == ScanOf(s.history).runs
            && (forall k :: 0 <= k < |r.journal| ==> r.journal[k].status != JournalPending)
            && (forall k :: 0 <= k < |r.extensions| ==> !r.extensions[k].status.InvocationPending?)
  {
    assert JournalValid(s.extensions, s.session.id);
    hide *;
    ExtensionsRecovered(s.extensions, now, s.session.id);
    var extended := s.(extensions := RecoverExtensions(s.extensions, now));
    CoreWithExtensions(s, extended.extensions);
    EnumeratedAreOpen(s, order);
    AttemptsClosed(extended, order);
    var closed := CloseAttempts(extended, ScanOf(s.history).attempts.starts, order);
    assert closed.(journal := s.journal) == closed;
    PendingSettled(closed, |s.journal|);
    RepairedIs(s, order, now);
    NoneLeftOpen(s.history, Repaired(s, order, now).history, order);
  }

  lemma {:induction false} RepairedIs(s: Snapshot, order: seq<AttemptID>, now: Time)
    requires forall i :: 0 <= i < |order| ==> order[i] in ScanOf(s.history).attempts.starts
    ensures var extended := s.(extensions := RecoverExtensions(s.extensions, now));
            var closed := CloseAttempts(extended, ScanOf(s.history).attempts.starts, order);
            Repaired(s, order, now) == SettlePending(closed.(journal := s.journal), |s.journal|)
  {
  }

  lemma {:induction false} EnumeratedAreOpen(s: Snapshot, order: seq<AttemptID>)
    requires Enumerates(order, OpenAttempts(s.history))
    ensures AllOpen(s.history, order) && Distinct(order)
    ensures forall i :: 0 <= i < |order| ==> order[i] in ScanOf(s.history).attempts.starts
  {
  }

  lemma {:induction false} NoneLeftOpen(h: seq<HistoryFact>, h': seq<HistoryFact>, order: seq<AttemptID>)
    requires Enumerates(order, OpenAttempts(h))
    requires ScanOf(h').attempts ==
             Attempts(ScanOf(h).attempts.starts, ScanOf(h).attempts.terminals + Ids(order))
    ensures OpenAttempts(h') == {}
  {
    hide ScanOf;
    forall id | id in OpenAttempts(h) ensures id in Ids(order) {
      assert id in order;
    }
  }

  /** Ending the active Run when nothing of it can be resumed. */
  lemma {:induction false} InterruptKeepsCore(s: Snapshot)
    requires Core(s) && s.running
    requires forall k :: 0 <= k < |s.journal| ==> !Unfinished(s.journal[k].status)
    ensures var r := Interrupt(s, s.activeRun);
            var started := ScanOf(s.history).runs.starts[s.activeRun];
            && Core(r) && r == s.(history := r.history, running := false, activeRun := 0)
            && r.history == s.history
                 + [Envelope(s.history, s.session.id, NoFact, RunPayload(InterruptedFact(started, s.history)))]
            && ScanOf(r.history).attempts == ScanOf(s.history).attempts
            && ScanOf(r.history).runs ==
                 Runs(ScanOf(s.history).runs.starts, ScanOf(s.history).runs.terminals + {s.activeRun})
  {
    RunSearch(s.history, s.activeRun);
    ScanHoldsFacts(s.session.id, s.history);
    var started := ScanOf(s.history).runs.starts[s.activeRun];
    var p := RunPayload(InterruptedFact(started, s.history));
    AppendKeepsHistory(s, p);
    assert Extend(s, p) == AppendFact(s, p, HistoryInvariant).value;
  }

  /** Unfinished calls of a repaired aggregate are prepared calls of the active Run. */
  lemma {:induction false} NothingPreparedNothingOpen(s: Snapshot)
    requires Core(s)
    requires forall k :: 0 <= k < |s.journal| ==> s.journal[k].status != JournalPending
    requires !HasPreparedTool(s.journal, s.activeRun)
    ensures forall k :: 0 <= k < |s.journal| ==> !Unfinished(s.journal[k].status)
  {
    forall k | 0 <= k < |s.journal| ensures !Unfinished(s.journal[k].status) {
      assert !PreparedTool(s.journal[k], s.activeRun);
    }
  }

  /** Nothing is left for a recovery to do. */
  ghost predicate Settled(s: Snapshot) {
    && OpenAttempts(s.history) == {}
    && (forall k :: 0 <= k < |s.journal| ==> s.journal[k].status != JournalPending)
    && (forall k :: 0 <= k < |s.extensions| ==> !s.extensions[k].status.InvocationPending?)
    && (Resumable(s, s.activeRun) || (!s.running && s.activeRun == 0))
  }

  /** The Run that was active has ended: one terminal fact, claims released, steers held. */
  ghost predicate Ended(s: Snapshot, r: Snapshot) {
    && !r.running && r.activeRun == 0
    && (forall k :: 0 <= k < |r.journal| ==> !Unfinished(r.journal[k].status))
    && (s.running ==>
          && s.activeRun !in ScanOf(s.history).runs.terminals
          && ScanOf(r.history).runs ==
               Runs(ScanOf(s.history).runs.starts, ScanOf(s.history).runs.terminals + {s.activeRun})
          && |r.queue| == |s.queue|
          && forall k :: 0 <= k < |r.queue| ==>
               && r.queue[k].message == s.queue[k].message && !r.queue[k].Claimed()
               && r.queue[k].delivery != DeliverySteer
               && (s.queue[k].delivery != DeliverySteer ==> r.queue[k].delivery == s.queue[k].delivery))
    && (!s.running ==> r.queue == s.queue && ScanOf(r.history).runs == ScanOf(s.history).runs)
  }

  /** The invariant after recovery has stopped the active Run. */
  lemma {:induction false} StopKeepsInv(s: Snapshot, repaired: Snapshot)
    requires Inv(s) && s.running && Core(repaired)
    requires repaired == s.(history := repaired.history, journal := repaired.journal, extensions := repaired.extensions)
    requires ScanOf(repaired.history).runs == ScanOf(s.history).runs && OpenAttempts(repaired.history) == {}
    requires forall k :: 0 <= k < |repaired.journal| ==> !Unfinished(repaired.journal[k].status)
    ensures var r := Interrupt(repaired, s.activeRun).(queue := ReleaseQueue(s.queue, s.activeRun));
            && Inv(r) && Ended(s, r) && repaired.history <= r.history && OpenAttempts(r.history) == {}
            && r.journal == repaired.journal && r.extensions == repaired.extensions && r.revision == s.revision
            && r.session == s.session
  {
    assert RunOk(s, ScanOf(s.history).runs);
    assert ClaimsValid(s.queue, true, s.activeRun);
    InterruptKeepsCore(repaired);
    ReleaseKeepsInv(Interrupt(repaired, s.activeRun), s, s.activeRun);
  }

  /** Recovery, for every map order: the invariant holds, History only grows, nothing is pending, no
      attempt is open, and the Session is either idle with its Run ended once or still running with
      prepared work to resume. */
  lemma {:induction false} RecoveredOk(s: Snapshot, order: seq<AttemptID>, now: Time)
    requires Inv(s) && Enumerates(order, OpenAttempts(s.history))
    ensures var r := Recovered(s, order, now);
            && Inv(r) && s.history <= r.history && r.revision == s.revision && r.session == s.session
            && JournalDescends(s.extensions, r.extensions)
            && Settled(r)
            && (if Resumable(Repaired(s, order, now), s.activeRun) then
                  r.running && r.activeRun == s.activeRun && r.queue == s.queue
                else Ended(s, r))
  {
    RepairedOk(s, order, now);
    var repaired := Repaired(s, order, now);
    if Resumable(repaired, s.activeRun) {
      ResumableNeedsRun(repaired, s.activeRun);
    } else {
      NothingPreparedNothingOpen(repaired);
      if s.running {
        StopKeepsInv(s, repaired);
      }
    }
  }

  /** Resumable work names a Run, so an idle Session has none. */
  lemma {:induction false} ResumableNeedsRun(s: Snapshot, run: RunID)
    requires Core(s) && Resumable(s, run)
    ensures run != 0
  {
    if HasPreparedTool(s.journal, run) {
      var i :| 0 <= i < |s.journal| && PreparedTool(s.journal[i], run);
      assert s.journal[i].Valid(s.session.id);
    } else {
      var i :| 0 <= i < |s.extensions| && ResumableGate(s.extensions[i], run);
      assert EntryValid(s.extensions[i], s.session.id);
    }
  }

  lemma {:induction false} ReleaseKeepsInv(r: Snapshot, s: Snapshot, run: RunID)
    requires Core(r) && r.queue == s.queue && !r.running && run != 0
    requires ClaimsValid(s.queue, true, run)
    ensures Core(r.(queue := ReleaseQueue(s.queue, run)))
    ensures ClaimsValid(ReleaseQueue(s.queue, run), false, 0)
  {
    CoreWithQueue(r, ReleaseQueue(s.queue, run));
  }

  lemma {:induction false} NextRevisionOk(s: Snapshot)
    requires Inv(s) && Settled(s)
    ensures Inv(s.(revision := s.revision + 1)) && Settled(s.(revision := s.revision + 1))
  {
  }

  lemma {:induction false} SomethingToEnumerate(order: seq<AttemptID>, ids: set<AttemptID>)
    requires Enumerates(order, ids)
    ensures order == [] || exists id :: id in ids
  {
    if order != [] {
      assert order[0] in ids;
    }
  }

  /** A settled aggregate is a fixpoint of recovery, whatever the order and the clock. */
  lemma {:induction false} SettledIsFixpoint(s: Snapshot, order: seq<AttemptID>, now: Time)
    requires Core(s) && Settled(s) && Enumerates(order, OpenAttempts(s.history))
    ensures Recovered(s, order, now) == s
  {
    SomethingToEnumerate(order, OpenAttempts(s.history));
    assert RecoverExtensions(s.extensions, now) == s.extensions;
    SettleFrame(s, |s.journal|);
    assert Repaired(s, order, now) == s;
    if Resumable(s, 0) {
      ResumableNeedsRun(s, 0);
    }
  }

  /** What a Store's Recover publishes is again a good aggregate, and a settled one. */
  lemma {:induction false} RecoverKeepsInv(s: Snapshot, s': Snapshot)
    requires Inv(s) && Recovers(s, s')
    ensures Inv(s') && Settled(s') && s.history <= s'.history && s'.session == s.session
    ensures s.revision <= s'.revision <= s.revision + 1 && JournalDescends(s.extensions, s'.extensions)
  {
    hide Inv;
    hide Settled;
    hide Ended;
    hide Recovered;
    hide Repaired;
    hide Resumable;
    hide JournalDescends;
    var order, now :| RecoversWith(s, order, now, s');
    RecoveredOk(s, order, now);
    NextRevisionOk(Recovered(s, order, now));
  }

  /** A second Recover changes nothing, not even the revision. */
  lemma {:induction false} RecoverTwice(s: Snapshot, s': Snapshot, s'': Snapshot)
    requires Inv(s) && Recovers(s, s') && Recovers(s', s'')
    ensures s'' == s'
  {
    RecoverKeepsInv(s, s');
    assert Core(s');
    hide Core;
    hide Settled;
    hide Recovered;
    var order, now :| RecoversWith(s', order, now, s'');
    SettledIsFixpoint(s', order, now);
  }
}
