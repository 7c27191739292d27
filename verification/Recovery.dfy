/** Crash recovery of an aggregate (session/memory_store.go, recoverAggregate). */
module Recovery {
  import opened SessionTypes
  import opened ExtensionJournal
  import opened HistoryChecker
  import opened Transactions

  const HookOutcomeUnknown := 1
  const UnknownAfterRecovery := 1
  const ProcessInterrupted := 1

  function RecoverExtensions(extensions: seq<ExtensionEntry>, now: Time): (r: seq<ExtensionEntry>)
    ensures |r| == |extensions|
    ensures forall i :: 0 <= i < |r| ==>
              r[i] == RecoverEntry(extensions[i], now, HookOutcomeUnknown, UnknownAfterRecovery)
  {
    seq(|extensions|, i requires 0 <= i < |extensions| =>
      RecoverEntry(extensions[i], now, HookOutcomeUnknown, UnknownAfterRecovery))
  }

  /** Append a fact that carries no actor and no origin. */
  function Extend(s: Snapshot, p: Payload): (r: Snapshot) {
    s.(history := s.history + [Envelope(s.history, s.session.id, NoFact, p)])
  }

  /** Attempts that started and never ended. */
  function OpenAttempts(h: seq<HistoryFact>): (r: set<AttemptID>) {
    ScanOf(h).attempts.starts.Keys - ScanOf(h).attempts.terminals
  }

  function OrphanTerminal(started: Attempt): (r: Attempt) {
    started.(kind := AttemptOutcomeUnknown, error := ProcessInterrupted)
  }

  /** Close the attempts of `order`, reading their start facts from `starts`. The source ranges over a
      map here, so any order of the open attempts may be taken. */
  function CloseAttempts(s: Snapshot, starts: map<AttemptID, Attempt>, order: seq<AttemptID>): (r: Snapshot)
    requires forall i :: 0 <= i < |order| ==> order[i] in starts
    decreases |order|
  {
    if order == [] then s
    else
      var before := CloseAttempts(s, starts, order[..|order| - 1]);
      Extend(before, AttemptPayload(OrphanTerminal(starts[order[|order| - 1]])))
  }

  ghost predicate Enumerates(order: seq<AttemptID>, ids: set<AttemptID>) {
    && (forall i, j :: 0 <= i < j < |order| ==> order[i] != order[j])
    && (forall i :: 0 <= i < |order| ==> order[i] in ids)
    && (forall id :: id in ids ==> id in order)
  }

  /** The journal loop over the first `n` entries: a pending call gets an unknown result. */
  function SettlePending(s: Snapshot, n: nat): (r: Snapshot)
    requires n <= |s.journal|
    ensures |r.journal| == |s.journal|
    ensures forall i :: n <= i < |s.journal| ==> r.journal[i] == s.journal[i]
    decreases n
  {
    if n == 0 then s
    else
      var before := SettlePending(s, n - 1);
      var e := s.journal[n - 1];
      if e.status != JournalPending then before
      else
        var unknown := ToolUnknown(e.call.id);
        var told :=
          if FindResult(before.history, e.call.id).None? then Extend(before, ResultPayload(unknown)) else before;
        told.(journal := before.journal[n - 1 := e.(result := Some(unknown), status := JournalOutcomeUnknown)])
  }

  predicate PreparedTool(e: JournalEntry, run: RunID) {
    e.status == JournalPrepared && e.run == run
  }

  predicate HasPreparedTool(journal: seq<JournalEntry>, run: RunID) {
    exists i :: 0 <= i < |journal| && PreparedTool(journal[i], run)
  }

  predicate ResumableGate(e: ExtensionEntry, run: RunID) {
    && e.identity.boundary == BoundaryCompletion && e.identity.run == run
    && (e.status.InvocationPrepared? || (e.status.Terminal() && e.effect == EffectPending))
  }

  predicate HasResumableGate(extensions: seq<ExtensionEntry>, run: RunID) {
    exists i :: 0 <= i < |extensions| && ResumableGate(extensions[i], run)
  }

  predicate Resumable(s: Snapshot, run: RunID) {
    HasPreparedTool(s.journal, run) || HasResumableGate(s.extensions, run)
  }

  /** recoveredRunTermination: the latest budget or limit fact of the Run decides. */
  function RecoveredTermination(h: seq<HistoryFact>, run: RunID): (r: TerminationCode) {
    if h == [] then CodeRuntimeInterrupted
    else match h[|h| - 1].payload
      case LimitPayload(l) =>
        if l.run == run then (if l.kind.LimitToolCalls? then CodeToolCallLimit else CodeModelAttemptLimit)
        else RecoveredTermination(h[..|h| - 1], run)
      case BudgetPayload(b) =>
        if b.run == run then CodeTokenBudget else RecoveredTermination(h[..|h| - 1], run)
      case _ => RecoveredTermination(h[..|h| - 1], run)
  }

  function InterruptedFact(started: RunFact, h: seq<HistoryFact>): (r: RunFact) {
    started.(kind := RunInterrupted, termination := Some(RecoveredTermination(h, started.run)))
  }

  /** End the Run that was active and leave the Session idle. */
  function Interrupt(s: Snapshot, run: RunID): (r: Snapshot) {
    var started, terminal := FindRun(s.history, run, true), FindRun(s.history, run, false);
    var told :=
      if started.Some? && terminal.None? then Extend(s, RunPayload(InterruptedFact(started.value, s.history))) else s;
    told.(running := false, activeRun := 0)
  }

  function ReleaseItem(item: QueueItem, run: RunID): (r: QueueItem) {
    item.(claimedBy := if item.claimedBy == run then 0 else item.claimedBy,
          delivery := if item.delivery == DeliverySteer then DeliveryHeld else item.delivery)
  }

  function ReleaseQueue(queue: seq<QueueItem>, run: RunID): (r: seq<QueueItem>)
    ensures |r| == |queue|
    ensures forall i :: 0 <= i < |r| ==> r[i] == ReleaseItem(queue[i], run)
  {
    seq(|queue|, i requires 0 <= i < |queue| => ReleaseItem(queue[i], run))
  }

  /** The facts and journals after the repairs that every recovery makes. */
  function Repaired(s: Snapshot, order: seq<AttemptID>, now: Time): (r: Snapshot)
    requires forall i :: 0 <= i < |order| ==> order[i] in ScanOf(s.history).attempts.starts
  {
    var extended := s.(extensions := RecoverExtensions(s.extensions, now));
    var closed := CloseAttempts(extended, ScanOf(s.history).attempts.starts, order);
    var journal := closed.(journal := s.journal);
    SettlePending(journal, |s.journal|)
  }

  /** recoverAggregate as a function of the map order it happened to take. */
  function Recovered(s: Snapshot, order: seq<AttemptID>, now: Time): (r: Snapshot)
    requires forall i :: 0 <= i < |order| ==> order[i] in ScanOf(s.history).attempts.starts
  {
    var repaired := Repaired(s, order, now);
    if Resumable(repaired, s.activeRun) then repaired
    else
      var stopped := if s.running then Interrupt(repaired, s.activeRun) else repaired;
      if s.activeRun == 0 then stopped else stopped.(queue := ReleaseQueue(s.queue, s.activeRun))
  }

  /** What a Store's Recover publishes: the repaired aggregate, at a new revision when anything changed. */
  ghost predicate Recovers(s: Snapshot, s': Snapshot) {
    exists order, now :: RecoversWith(s, order, now, s')
  }

  ghost predicate RecoversWith(s: Snapshot, order: seq<AttemptID>, now: Time, s': Snapshot) {
    && Enumerates(order, OpenAttempts(s.history))
    && var r := Recovered(s, order, now);
    s' == if r == s then s else r.(revision := s.revision + 1)
  }

  // ---------------------------------------------------------------- the loops of the source

  lemma {:induction false} CloseAttemptsFrame(s: Snapshot, starts: map<AttemptID, Attempt>, order: seq<AttemptID>)
    requires forall i :: 0 <= i < |order| ==> order[i] in starts
    ensures var c := CloseAttempts(s, starts, order);
            c == s.(history := c.history) && |c.history| == |s.history| + |order|
    decreases |order|
  {
    if order != [] {
      CloseAttemptsFrame(s, starts, order[..|order| - 1]);
    }
  }

  lemma {:induction false} SettleFrame(s: Snapshot, n: nat)
    requires n <= |s.journal|
    ensures var r := SettlePending(s, n);
            && r == s.(history := r.history, journal := r.journal) && |r.history| >= |s.history|
            && (forall k :: 0 <= k < n && s.journal[k].status != JournalPending ==> r.journal[k] == s.journal[k])
            && (forall k :: 0 <= k < n && s.journal[k].status == JournalPending ==>
                  r.journal[k] == s.journal[k].(result := Some(ToolUnknown(s.journal[k].call.id)),
                                                status := JournalOutcomeUnknown))
            && ((forall k :: 0 <= k < n ==> s.journal[k].status != JournalPending) ==> r == s)
  {
    if n > 0 {
      SettleFrame(s, n - 1);
    }
  }

  /** The map of start facts and the set of ended attempts, filled in one pass. */
  method CollectAttempts(h: seq<HistoryFact>) returns (starts: map<AttemptID, Attempt>, terminals: set<AttemptID>)
    ensures starts == ScanOf(h).attempts.starts && terminals == ScanOf(h).attempts.terminals
  {
    starts, terminals := map[], {};
    for i := 0 to |h|
      invariant starts == ScanOf(h[..i]).attempts.starts && terminals == ScanOf(h[..i]).attempts.terminals
    {
      assert h[..i + 1] == h[..i] + [h[i]];
      ScanSnoc(0, h[..i], h[i]);
      var p := h[i].payload;
      if p.AttemptPayload? {
        if p.attempt.kind == AttemptStarted {
          starts := starts[p.attempt.id := p.attempt];
        } else {
          terminals := terminals + {p.attempt.id};
        }
      }
    }
    assert h[..|h|] == h;
  }

  /** The range over the map of open attempts: each choice of the next one is arbitrary. */
  method CloseOpenAttempts(s: Snapshot, starts: map<AttemptID, Attempt>, terminals: set<AttemptID>)
    returns (r: Snapshot, ghost order: seq<AttemptID>)
    ensures Enumerates(order, starts.Keys - terminals)
    ensures r == CloseAttempts(s, starts, order)
  {
    order := [];
    var open := starts.Keys - terminals;
    r := s;
    while open != {}
      invariant open <= starts.Keys - terminals
      invariant Enumerates(order, starts.Keys - terminals - open)
      invariant r == CloseAttempts(s, starts, order)
      decreases |open|
    {
      var id :| id in open;
      r := Extend(r, AttemptPayload(OrphanTerminal(starts[id])));
      ghost var longer := order + [id];
      assert longer[..|order|] == order;
      open := open - {id};
      assert starts.Keys - terminals - open == (starts.Keys - terminals - open - {id}) + {id};
      order := longer;
    }
    assert starts.Keys - terminals - open == starts.Keys - terminals;
  }

  /** The loop over the tool journal. */
  method SettleJournal(s: Snapshot, run: RunID) returns (r: Snapshot, hasPrepared: bool, changed: bool)
    ensures r == SettlePending(s, |s.journal|)
    ensures hasPrepared <==> HasPreparedTool(s.journal, run)
    ensures changed <==> exists k :: 0 <= k < |s.journal| && s.journal[k].status == JournalPending
  {
    r, hasPrepared, changed := s, false, false;
    for i := 0 to |s.journal|
      invariant r == SettlePending(s, i)
      invariant hasPrepared <==> exists k :: 0 <= k < i && PreparedTool(s.journal[k], run)
      invariant changed <==> exists k :: 0 <= k < i && s.journal[k].status == JournalPending
    {
      var e := r.journal[i];
      if PreparedTool(e, run) {
        hasPrepared := true;
        continue;
      }
      if e.status != JournalPending { continue; }
      var entries := r.journal;
      if FindResult(r.history, e.call.id).None? {
        r := Extend(r, ResultPayload(ToolUnknown(e.call.id)));
      }
      r := r.(journal := entries[i := e.(result := Some(ToolUnknown(e.call.id)), status := JournalOutcomeUnknown)]);
      changed := true;
    }
  }

  /** The loop over the queue of an interrupted Run. */
  method ReleaseItems(queue: seq<QueueItem>, run: RunID) returns (r: seq<QueueItem>, changed: bool)
    requires run != 0
    ensures r == ReleaseQueue(queue, run)
    ensures changed <==> r != queue
  {
    r, changed := queue, false;
    for i := 0 to |queue|
      invariant |r| == |queue|
      invariant forall k :: 0 <= k < i ==> r[k] == ReleaseItem(queue[k], run)
      invariant forall k :: i <= k < |queue| ==> r[k] == queue[k]
      invariant changed <==> exists k :: 0 <= k < i && ReleaseItem(queue[k], run) != queue[k]
    {
      var item := r[i];
      if item.claimedBy == run {
        item := item.(claimedBy := 0);
        changed := true;
      }
      if item.delivery == DeliverySteer {
        item := item.(delivery := DeliveryHeld);
        changed := true;
      }
      assert item == ReleaseItem(queue[i], run);
      r := r[i := item];
    }
  }

  method MarkUnknown(extensions: seq<ExtensionEntry>, now: Time) returns (r: seq<ExtensionEntry>, changed: bool)
    ensures r == RecoverExtensions(extensions, now)
    ensures changed <==> r != extensions
  {
    r, changed := extensions, false;
    for i := 0 to |extensions|
      invariant |r| == |extensions|
      invariant forall k :: 0 <= k < i ==>
                  r[k] == RecoverEntry(extensions[k], now, HookOutcomeUnknown, UnknownAfterRecovery)
      invariant forall k :: i <= k < |extensions| ==> r[k] == extensions[k]
      invariant changed <==> exists k :: 0 <= k < i && r[k] != extensions[k]
    {
      var e := r[i];
      if !e.status.InvocationPending? { continue; }
      var finished := now;
      if finished < e.pendingAt {
        finished := e.pendingAt;
      }
      r := r[i := e.(status := InvocationOutcomeUnknown, finishedAt := finished, errorCode := HookOutcomeUnknown,
                     errorReason := UnknownAfterRecovery, effect := EffectPending)];
      changed := true;
    }
  }

  /** The repairs every recovery makes, and whether they changed anything. */
  method Repair(s: Snapshot, now: Time) returns (r: Snapshot, hasPrepared: bool, changed: bool,
                ghost order: seq<AttemptID>)
    ensures Enumerates(order, OpenAttempts(s.history)) && r == Repaired(s, order, now)
    ensures r == s.(history := r.history, journal := r.journal, extensions := r.extensions)
    ensures hasPrepared <==> HasPreparedTool(r.journal, s.activeRun)
    ensures changed <==> r != s
  {
    var extensions, marked := MarkUnknown(s.extensions, now);
    var extended := s.(extensions := extensions);
    var starts, terminals := CollectAttempts(s.history);
    var closed;
    closed, order := CloseOpenAttempts(extended, starts, terminals);
    CloseAttemptsFrame(extended, starts, order);
    var settled;
    r, hasPrepared, settled := SettleJournal(closed, s.activeRun);
    SettleFrame(closed, |s.journal|);
    assert closed.(journal := s.journal) == closed;
    assert hasPrepared <==> HasPreparedTool(r.journal, s.activeRun) by {
      assert forall k :: 0 <= k < |s.journal| ==>
        (PreparedTool(r.journal[k], s.activeRun) <==> PreparedTool(s.journal[k], s.activeRun));
    }
    changed := marked || |closed.history| > |s.history| || settled;
    assert changed <==> r != s by {
      if settled {
        var k :| 0 <= k < |s.journal| && s.journal[k].status == JournalPending;
        assert r.journal[k] != s.journal[k];
      }
    }
  }

  /** recoverAggregate. */
  method RecoverAggregate(s: Snapshot, now: Time) returns (r: Snapshot, changed: bool, ghost order: seq<AttemptID>)
    ensures Enumerates(order, OpenAttempts(s.history))
    ensures r == Recovered(s, order, now)
    ensures changed <==> r != s
  {
    hide Repaired;
    hide ResumableGate;
    hide ScanOf;
    hide HasPreparedTool;
    var hasPrepared;
    r, hasPrepared, changed, order := Repair(s, now);
    var interrupted := s.activeRun;
    var hasGate := exists i :: 0 <= i < |r.extensions| && ResumableGate(r.extensions[i], interrupted);
    if s.running && !hasPrepared && !hasGate {
      r, changed := Interrupt(r, interrupted), true;
    }
    if interrupted != 0 && !hasPrepared && !hasGate {
      var queue, released := ReleaseItems(s.queue, interrupted);
      r, changed := r.(queue := queue), changed || released;
    }
  }
}
