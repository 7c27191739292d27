/** Input gates: evaluating the gates of one Send, Steer or Edit, settling what they decided, and what recovery does
    with invocations that were left behind (standardagent/runtime_input_gate.go, runtime_input_gate_context.go,
    runtime_input_gate_recovery.go). Every journal update is shown to be one the Store accepts. */
module InputGates {
  import opened SessionTypes
  import opened ExtensionJournal

  /** The entries of an extension journal. */
  type Entries = seq<ExtensionEntry>

  const Unavailable := 2
  const Unknown := 3
  const NotStarted := 4

  // ---------------------------------------------------------------- one entry

  function Later(a: Time, b: Time): (r: Time) {
    if a < b then b else a
  }

  /** What a gate answered. */
  datatype Answer =
    | Accepts(inputs: seq<Input>)
    | Rejects
    | Breaks(status: InvocationStatus, code: nat)

  /** InputGateResult.Validate and InvocationFailure.Validate. */
  predicate AnswerValid(a: Answer, sid: SessionID) {
    match a
    case Accepts(inputs) => |inputs| <= MaxContextInputs && ContextInputsValid(inputs, sid)
    case Rejects => true
    case Breaks(status, code) =>
      (status.InvocationFailed? || status.InvocationCanceled? || status.InvocationOutcomeUnknown?) && code != 0
  }

  function Pended(e: ExtensionEntry, now: Time): (r: ExtensionEntry) {
    e.(status := InvocationPending, pendingAt := Later(now, e.identity.preparedAt))
  }

  function Answered(e: ExtensionEntry, a: Answer, now: Time): (r: ExtensionEntry) {
    var t := e.(finishedAt := Later(now, e.pendingAt), effect := EffectPending);
    match a
    case Breaks(status, code) => t.(status := status, errorCode := code)
    case Rejects => t.(status := InvocationSucceeded, result := Some(DecisionReject))
    case Accepts(inputs) =>
      var u := t.(status := InvocationSucceeded, result := Some(DecisionAccept));
      if inputs == [] then u else u.(context := ContextPending, inputs := inputs, fingerprint := FingerprintOf(inputs))
  }

  /** An entry whose gate was never started. */
  function Skipped(e: ExtensionEntry, now: Time): (r: ExtensionEntry) {
    e.(status := InvocationCanceled, finishedAt := Later(now, e.identity.preparedAt), errorCode := NotStarted,
       effect := EffectDiscarded)
  }

  function DropContext(e: ExtensionEntry): (r: ExtensionEntry) {
    if e.context == ContextPending then e.(context := ContextDiscarded, inputs := []) else e
  }

  function Discarded(e: ExtensionEntry): (r: ExtensionEntry) {
    DropContext(e.(effect := EffectDiscarded))
  }

  /** The decisive entry of a rejected input. */
  function Decided(e: ExtensionEntry): (r: ExtensionEntry) {
    DropContext(e.(effect := EffectApplied))
  }

  function Kept(e: ExtensionEntry): (r: ExtensionEntry) {
    e.(effect := EffectApplied)
  }

  /** Applied, with its context handed to a Run. */
  function Used(e: ExtensionEntry): (r: ExtensionEntry) {
    if e.context == ContextPending then e.(effect := EffectApplied, context := ContextConsumed, inputs := [])
      else Kept(e)
  }

  predicate IsGate(e: ExtensionEntry) {
    e.identity.boundary == BoundaryInputGate
  }

  /** Nothing is left to decide about an invocation. */
  predicate Settled(e: ExtensionEntry) {
    e.status.Terminal() && (e.effect == EffectApplied || e.effect == EffectDiscarded)
  }

  /** A step the Store accepts at an entry of its journal. */
  ghost predicate Legal(e: ExtensionEntry, next: ExtensionEntry, sid: SessionID) {
    EntryValid(next, sid) && next.identity == e.identity && TransitionOk(e, next)
  }

  lemma {:induction false} BeginLegal(e: ExtensionEntry, now: Time, sid: SessionID)
    requires EntryValid(e, sid) && e.status.InvocationPrepared?
    ensures Legal(e, Pended(e, now), sid)
  {
  }

  lemma {:induction false} AnswerLegal(e: ExtensionEntry, a: Answer, now: Time, sid: SessionID)
    requires EntryValid(e, sid) && IsGate(e) && e.status.InvocationPending? && AnswerValid(a, sid)
    ensures Legal(e, Answered(e, a, now), sid) && Answered(e, a, now).status.Terminal()
    ensures Answered(e, a, now).effect == EffectPending
    ensures a.Accepts? <==>
              Answered(e, a, now).status.InvocationSucceeded? && Answered(e, a, now).result == Some(DecisionAccept)
  {
  }

  lemma {:induction false} SkipLegal(e: ExtensionEntry, now: Time, sid: SessionID)
    requires EntryValid(e, sid) && e.status.InvocationPrepared?
    ensures Legal(e, Skipped(e, now), sid) && Settled(Skipped(e, now))
  {
  }

  lemma {:induction false} SettleLegal(e: ExtensionEntry, sid: SessionID)
    requires EntryValid(e, sid) && e.status.Terminal() && e.effect == EffectPending
    ensures Legal(e, Discarded(e), sid) && Settled(Discarded(e)) && Discarded(e).context != ContextPending
    ensures Legal(e, Decided(e), sid) && Settled(Decided(e)) && Decided(e).context != ContextPending
    ensures Legal(e, Kept(e), sid) && Settled(Kept(e)) && Kept(e).context == e.context
    ensures Legal(e, Used(e), sid) && Settled(Used(e)) && Used(e).context != ContextPending
  {
  }

  /** The context of an earlier input for the same message, when an edit replaces it. */
  lemma {:induction false} DropLegal(e: ExtensionEntry, sid: SessionID)
    requires EntryValid(e, sid) && Settled(e) && e.context == ContextPending
    ensures Legal(e, DropContext(e), sid)
  {
  }

  // ---------------------------------------------------------------- updates of a journal

  lemma {:induction false} LogSnoc(journal: Entries, sid: SessionID, log: Entries, u: ExtensionEntry)
    ensures ApplyExtensions(journal, sid, log + [u]) ==
            match ApplyExtensions(journal, sid, log) case Err(c) => Err(c) case Ok(j) => ApplyExtension(j, sid, u)
  {
    assert (log + [u])[..|log|] == log;
  }

  /** A legal step at an entry is an update the Store accepts, and it touches nothing else. */
  lemma {:induction false} UpdateAccepted(journal: Entries, sid: SessionID, i: nat, next: ExtensionEntry)
    requires JournalValid(journal, sid) && i < |journal| && Legal(journal[i], next, sid)
    ensures ApplyExtension(journal, sid, next) == Ok(journal[i := next]) && JournalValid(journal[i := next], sid)
  {
    assert journal[i].identity.sequence == i + 1;
    ApplyExtensionKeeps(journal, sid, next);
  }

  /** The journal a log of accepted updates leads to. */
  ghost predicate Reaches(journal: Entries, sid: SessionID, log: Entries, after: Entries) {
    ApplyExtensions(journal, sid, log) == Ok(after) && JournalValid(after, sid) && |after| == |journal|
  }

  lemma {:induction false} ReachesOne(journal: Entries, sid: SessionID, log: Entries, now: Entries, i: nat,
                                      next: ExtensionEntry)
    requires Reaches(journal, sid, log, now) && i < |now| && Legal(now[i], next, sid)
    ensures Reaches(journal, sid, log + [next], now[i := next])
  {
    UpdateAccepted(now, sid, i, next);
    LogSnoc(journal, sid, log, next);
  }

  // ---------------------------------------------------------------- recovery of input gates

  /** The updates recovery makes for one input-gate entry, and what they leave. */
  function RecoveryUpdates(e: ExtensionEntry, unclaimed: set<MessageID>, now: Time): (r: Entries) {
    if e.status.InvocationPrepared? then
      var failed := e.(status := InvocationFailed, finishedAt := Later(now, e.identity.preparedAt),
                       errorCode := Unavailable, effect := EffectPending);
      [failed, failed.(effect := EffectDiscarded)]
    else if e.status.InvocationPending? then
      var unknown := e.(status := InvocationOutcomeUnknown, finishedAt := Later(now, e.pendingAt),
                        errorCode := Unknown, effect := EffectPending);
      [unknown, unknown.(effect := EffectDiscarded)]
    else if e.effect == EffectPending then [Discarded(e)]
    else if e.context == ContextPending && e.identity.message !in unclaimed then [DropContext(e)]
    else []
  }

  function RecoveredGate(e: ExtensionEntry, unclaimed: set<MessageID>, now: Time): (r: ExtensionEntry) {
    var updates := RecoveryUpdates(e, unclaimed, now);
    if updates == [] then e else updates[|updates| - 1]
  }

  /** Settled for good: only the context of an applied, still queued and unclaimed input waits on. */
  predicate AtRest(e: ExtensionEntry, unclaimed: set<MessageID>) {
    Settled(e) && (e.context == ContextPending ==> e.effect == EffectApplied && e.identity.message in unclaimed)
  }

  /** What recovery makes of an input-gate entry: a gate not begun has failed, one without answer is unknown, an open
      answer is discarded, and of a settled one at most the context goes, exactly when its message is no longer
      waiting. */
  predicate RecoveryTells(e: ExtensionEntry, r: ExtensionEntry, unclaimed: set<MessageID>) {
    && r.identity == e.identity
    && (e.status.InvocationPrepared? ==>
          r.status.InvocationFailed? && r.errorCode == Unavailable && r.effect == EffectDiscarded)
    && (e.status.InvocationPending? ==>
          r.status.InvocationOutcomeUnknown? && r.errorCode == Unknown && r.effect == EffectDiscarded)
    && (e.status.Terminal() ==>
          && r.status == e.status && r.result == e.result && r.errorCode == e.errorCode
          && r.finishedAt == e.finishedAt && r.fingerprint == e.fingerprint
          && r.effect == if e.effect == EffectPending then EffectDiscarded else e.effect)
    && (e.status.Terminal() ==>
          if e.context == ContextPending && (e.effect == EffectPending || e.identity.message !in unclaimed) then
            r.context == ContextDiscarded && r.inputs == []
          else r.context == e.context && r.inputs == e.inputs)
  }

  lemma {:induction false} RecoveryLegal(e: ExtensionEntry, unclaimed: set<MessageID>, now: Time, sid: SessionID)
    requires EntryValid(e, sid) && IsGate(e)
    ensures var updates := RecoveryUpdates(e, unclaimed, now);
            && |updates| <= 2
            && (|updates| > 0 ==> Legal(e, updates[0], sid))
            && (|updates| > 1 ==> Legal(updates[0], updates[1], sid))
            && AtRest(RecoveredGate(e, unclaimed, now), unclaimed)
            && RecoveryTells(e, RecoveredGate(e, unclaimed, now), unclaimed)
  {
  }

  /** The journal after recovery has gone through its first `n` entries. */
  function RecoveredJournal(journal: Entries, unclaimed: set<MessageID>, now: Time, n: nat): (r: Entries)
    requires n <= |journal|
    ensures |r| == |journal|
    ensures forall i :: 0 <= i < |r| ==>
              r[i] == if i < n && IsGate(journal[i]) then RecoveredGate(journal[i], unclaimed, now) else journal[i]
  {
    seq(|journal|, i requires 0 <= i < |journal| =>
      if i < n && IsGate(journal[i]) then RecoveredGate(journal[i], unclaimed, now) else journal[i])
  }

  lemma {:induction false} ReachesUpdates(journal: Entries, sid: SessionID, log: Entries, now: Entries, n: nat,
                                          updates: Entries)
    requires Reaches(journal, sid, log, now) && n < |now| && |updates| <= 2
    requires |updates| > 0 ==> Legal(now[n], updates[0], sid)
    requires |updates| > 1 ==> Legal(updates[0], updates[1], sid)
    ensures Reaches(journal, sid, log + updates, if updates == [] then now else now[n := updates[|updates| - 1]])
  {
    hide Reaches;
    hide Legal;
    if |updates| == 0 {
      assert log + updates == log;
    } else {
      ReachesOne(journal, sid, log, now, n, updates[0]);
      if |updates| == 1 {
        assert log + updates == log + [updates[0]];
      } else {
        ReachesOne(journal, sid, log + [updates[0]], now[n := updates[0]], n, updates[1]);
        assert log + updates == log + [updates[0]] + [updates[1]];
        assert now[n := updates[0]][n := updates[1]] == now[n := updates[1]];
      }
    }
  }

  /** One turn of the loop. */
  lemma {:induction false} RecoverOne(journal: Entries, sid: SessionID, log: Entries, n: nat,
                                      unclaimed: set<MessageID>, now: Time)
    requires JournalValid(journal, sid) && n < |journal|
    requires Reaches(journal, sid, log, RecoveredJournal(journal, unclaimed, now, n))
    ensures var updates := if IsGate(journal[n]) then RecoveryUpdates(journal[n], unclaimed, now) else [];
            Reaches(journal, sid, log + updates, RecoveredJournal(journal, unclaimed, now, n + 1))
  {
    assert EntryValid(journal[n], sid);
    hide *;
    var before := RecoveredJournal(journal, unclaimed, now, n);
    RecoveredNext(journal, unclaimed, now, n);
    if IsGate(journal[n]) {
      RecoveryLegal(journal[n], unclaimed, now, sid);
      ReachesUpdates(journal, sid, log, before, n, RecoveryUpdates(journal[n], unclaimed, now));
    } else {
      assert log + [] == log;
    }
  }

  lemma {:induction false} RecoveredNext(journal: Entries, unclaimed: set<MessageID>, now: Time, n: nat)
    requires n < |journal|
    ensures RecoveredJournal(journal, unclaimed, now, n)[n] == journal[n]
    ensures RecoveredJournal(journal, unclaimed, now, n + 1) ==
            if !IsGate(journal[n]) then RecoveredJournal(journal, unclaimed, now, n)
            else
              var updates := RecoveryUpdates(journal[n], unclaimed, now);
              if updates == [] then RecoveredJournal(journal, unclaimed, now, n)
              else RecoveredJournal(journal, unclaimed, now, n)[n := updates[|updates| - 1]]
  {
    hide RecoveryUpdates;
    var before, after := RecoveredJournal(journal, unclaimed, now, n), RecoveredJournal(journal, unclaimed, now, n + 1);
    assert forall i :: 0 <= i < |journal| && i != n ==> after[i] == before[i];
    assert after == before[n := after[n]];
  }

  lemma {:induction false} NothingRecovered(journal: Entries, sid: SessionID, unclaimed: set<MessageID>, now: Time)
    requires JournalValid(journal, sid)
    ensures Reaches(journal, sid, [], RecoveredJournal(journal, unclaimed, now, 0))
  {
    assert RecoveredJournal(journal, unclaimed, now, 0) == journal;
  }

  /** Which messages are queued and not claimed. */
  method UnclaimedMessages(queue: seq<QueueItem>) returns (unclaimed: set<MessageID>)
    ensures forall id :: id in unclaimed <==>
              exists i :: 0 <= i < |queue| && !queue[i].Claimed() && queue[i].message.id == id
  {
    unclaimed := {};
    for i := 0 to |queue|
      invariant forall id :: id in unclaimed <==>
                  exists k :: 0 <= k < i && !queue[k].Claimed() && queue[k].message.id == id
    {
      if !queue[i].Claimed() {
        unclaimed := unclaimed + {queue[i].message.id};
      }
    }
  }

  /** inputGateRecoveryChanges: the loop, and the log of updates it builds. The journal accepts them all, in order,
      and afterwards every input-gate invocation is at rest. */
  method InputGateRecoveryChanges(journal: Entries, sid: SessionID, unclaimed: set<MessageID>, now: Time)
    returns (log: Entries)
    requires JournalValid(journal, sid)
    ensures ApplyExtensions(journal, sid, log).Ok?
    ensures var after := ApplyExtensions(journal, sid, log).value;
            && JournalValid(after, sid) && |after| == |journal|
            && forall i :: 0 <= i < |journal| ==>
                 if IsGate(journal[i]) then
                   AtRest(after[i], unclaimed) && RecoveryTells(journal[i], after[i], unclaimed)
                 else after[i] == journal[i]
  {
    log := [];
    NothingRecovered(journal, sid, unclaimed, now);
    for n := 0 to |journal|
      invariant Reaches(journal, sid, log, RecoveredJournal(journal, unclaimed, now, n))
    {
      hide *;
      RecoverOne(journal, sid, log, n, unclaimed, now);
      if !IsGate(journal[n]) {
        assert log + [] == log;
        continue;
      }
      log := log + RecoveryUpdates(journal[n], unclaimed, now);
    }
    ghost var after := RecoveredJournal(journal, unclaimed, now, |journal|);
    assert ApplyExtensions(journal, sid, log) == Ok(after) && JournalValid(after, sid);
    hide Reaches;
    hide AtRest;
    hide RecoveryTells;
    hide RecoveredGate;
    forall i | 0 <= i < |journal| && IsGate(journal[i])
      ensures AtRest(after[i], unclaimed) && RecoveryTells(journal[i], after[i], unclaimed)
    {
      RecoveryLegal(journal[i], unclaimed, now, sid);
    }
  }
}
