/** One gated Send, Steer or Edit from its prepared gates to its effect
    (standardagent/runtime_input_gate.go executeInputGateOccurrence, cancelPreparedInputGates,
    finalizeRejectedInput, finalizeAcceptedSend, finalizeAcceptedSteer, finalizeAcceptedEdit;
    runtime_input_gate_context.go). No commit fails here; failed ones are left to recovery. */
module GatedInput {
  import opened SessionTypes
  import opened ExtensionJournal
  import opened Transactions
  import opened AggregateInvariant
  import opened ProtocolHistory
  import opened RuntimeCommits
  import opened InputGates
  import opened HookSettling
  import opened JournalPasses

  // ---------------------------------------------------------------- running the gates

  /** The gates of one input: `count` consecutive journal entries. */
  ghost predicate Prepared(journal: Entries, first: nat, count: nat) {
    && first + count <= |journal|
    && forall i :: first <= i < first + count ==> IsGate(journal[i]) && journal[i].status.InvocationPrepared?
  }

  predicate Accepted(e: ExtensionEntry) {
    e.status.InvocationSucceeded? && e.result == Some(DecisionAccept) && e.effect == EffectPending
  }

  /** The gate that stopped the input: it answered anything but accept, or was never asked. */
  predicate Stopper(e: ExtensionEntry) {
    e.status.Terminal() && (e.effect == EffectPending || e.effect == EffectDiscarded)
    && !(e.status.InvocationSucceeded? && e.result == Some(DecisionAccept))
  }

  predicate Dropped(e: ExtensionEntry) {
    Settled(e) && e.effect == EffectDiscarded && e.context != ContextPending
  }

  /** After the gates have run: accepted ones up to `stop`; if that is not the end, the one that stopped the input, and
      behind it only skipped ones. */
  ghost predicate Ran(journal: Entries, first: nat, count: nat, stop: nat) {
    && stop <= count && first + count <= |journal|
    && (forall i :: first <= i < first + stop ==> Accepted(journal[i]))
    && (stop < count ==> Stopper(journal[first + stop]))
    && (forall i :: first + stop < i < first + count ==> Dropped(journal[i]))
  }

  lemma {:induction false} SkippedIsDropped(e: ExtensionEntry, now: Time, sid: SessionID)
    requires EntryValid(e, sid) && e.status.InvocationPrepared?
    ensures Legal(e, Skipped(e, now), sid) && Dropped(Skipped(e, now)) && Stopper(Skipped(e, now))
  {
    SkipLegal(e, now, sid);
  }

  /** The loop of executeInputGateOccurrence: the journal and the log of updates grow together. */
  ghost predicate Progress(journal: Entries, sid: SessionID, first: nat, count: nat, k: nat, log: Entries,
                           now: Entries) {
    && k <= count && Reaches(journal, sid, log, now) && SameOutside(journal, now, first, count)
    && first + count <= |now|
    && (forall i :: first <= i < first + k ==> Accepted(now[i]))
    && (forall i :: first + k <= i < first + count ==> now[i] == journal[i])
  }

  lemma {:induction false} GateAnswers(journal: Entries, sid: SessionID, first: nat, count: nat, k: nat,
                                       log: Entries, now: Entries, a: Answer, t: Time, u: Time)
    requires Prepared(journal, first, count) && Progress(journal, sid, first, count, k, log, now) && k < count
    requires AnswerValid(a, sid)
    ensures var p := Pended(now[first + k], t);
            var d := Answered(p, a, u);
            && Reaches(journal, sid, log + [p] + [d], now[first + k := d])
            && (a.Accepts? ==> Progress(journal, sid, first, count, k + 1, log + [p] + [d], now[first + k := d]))
            && (!a.Accepts? ==> Stopper(d))
  {
    var i := first + k;
    var e := now[i];
    assert EntryValid(e, sid) && IsGate(e) && e.status.InvocationPrepared?;
    var p := Pended(e, t);
    BeginLegal(e, t, sid);
    assert IsGate(p) && p.status.InvocationPending?;
    assert EntryValid(p, sid);
    var d := Answered(p, a, u);
    AnswerLegal(p, a, u, sid);
    ReachesOne(journal, sid, log, now, i, p);
    hide Reaches;
    hide Legal;
    hide EntryValid;
    ReachesOne(journal, sid, log + [p], now[i := p], i, d);
    assert now[i := p][i := d] == now[i := d];
  }

  /** What the gates see of their surroundings: whether the caller had gone away before each one, and their answers. */
  datatype Gate = Gate(canceled: bool, answer: Answer)

  predicate Passes(g: Gate) {
    !g.canceled && g.answer.Accepts?
  }

  /** The entry holds what the gate answered. */
  predicate Recorded(e: ExtensionEntry, a: Answer) {
    match a
    case Accepts(inputs) =>
      && e.status.InvocationSucceeded? && e.result == Some(DecisionAccept) && e.inputs == inputs
      && (e.context.ContextPending? <==> inputs != [])
    case Rejects => e.status.InvocationSucceeded? && e.result == Some(DecisionReject)
    case Breaks(status, code) => e.status == status && e.errorCode == code
  }

  /** An entry whose gate was never asked. */
  predicate NeverAsked(e: ExtensionEntry) {
    e.status.InvocationCanceled? && e.effect.EffectDiscarded? && e.pendingAt == 0
  }

  /** What the run of the gates leaves at each entry: the answers of the gates that passed, then the answer of the one
      that did not or nothing if the caller had gone away, and no answer behind it. */
  ghost predicate AnswersTold(journal: Entries, first: nat, gates: seq<Gate>, stop: nat) {
    && stop <= |gates| && first + |gates| <= |journal|
    && (forall i :: 0 <= i < stop ==> Passes(gates[i]) && Recorded(journal[first + i], gates[i].answer))
    && (stop < |gates| ==>
          && !Passes(gates[stop])
          && if gates[stop].canceled then NeverAsked(journal[first + stop])
             else Recorded(journal[first + stop], gates[stop].answer) && journal[first + stop].effect == EffectPending)
    && (forall i :: first + stop < i < first + |gates| ==> NeverAsked(journal[i]))
  }

  lemma {:induction false} AnswerRecorded(e: ExtensionEntry, a: Answer, t: Time, u: Time, sid: SessionID)
    requires EntryValid(e, sid) && e.status.InvocationPrepared? && AnswerValid(a, sid)
    ensures Recorded(Answered(Pended(e, t), a, u), a) && Answered(Pended(e, t), a, u).effect == EffectPending
  {
  }

  lemma {:induction false} SkippedNeverAsked(e: ExtensionEntry, t: Time, sid: SessionID)
    requires EntryValid(e, sid) && e.status.InvocationPrepared?
    ensures NeverAsked(Skipped(e, t))
  {
  }

  /** Up to gate `k` everything passed, and the rest is untouched. */
  ghost predicate ToldSoFar(journal: Entries, now: Entries, first: nat, gates: seq<Gate>, k: nat) {
    && k <= |gates| && first + |gates| <= |now| && |now| == |journal|
    && (forall i :: 0 <= i < k ==> Passes(gates[i]) && Recorded(now[first + i], gates[i].answer))
    && (forall i :: first + k <= i < first + |gates| ==> now[i] == journal[i])
  }

  /** executeInputGateOccurrence. */
  method ExecuteGates(journal: Entries, sid: SessionID, first: nat, gates: seq<Gate>, now: Time)
    returns (log: Entries, after: Entries, accepted: bool, stop: nat)
    requires JournalValid(journal, sid) && Prepared(journal, first, |gates|)
    requires forall i :: 0 <= i < |gates| ==> AnswerValid(gates[i].answer, sid)
    ensures Reaches(journal, sid, log, after) && SameOutside(journal, after, first, |gates|)
    ensures Ran(after, first, |gates|, stop)
    ensures accepted <==> stop == |gates|
    ensures accepted <==> forall i :: 0 <= i < |gates| ==> Passes(gates[i])
    ensures AnswersTold(after, first, gates, stop)
  {
    hide *;
    log, after, accepted, stop := [], journal, true, 0;
    ProgressStart(journal, sid, first, |gates|);
    NothingTold(journal, first, gates);
    for k := 0 to |gates|
      invariant accepted && Progress(journal, sid, first, |gates|, k, log, after)
      invariant ToldSoFar(journal, after, first, gates, k)
      invariant forall i :: 0 <= i < k ==> Passes(gates[i])
    {
      stop := k;
      log, after, accepted := OneGate(journal, sid, first, gates, k, log, after, now);
      if !accepted { return; }
    }
    stop := |gates|;
    ProgressRan(journal, sid, first, |gates|, log, after);
    AllTold(journal, after, first, gates);
  }

  lemma {:induction false} NothingTold(journal: Entries, first: nat, gates: seq<Gate>)
    requires Prepared(journal, first, |gates|)
    ensures ToldSoFar(journal, journal, first, gates, 0)
  {
  }

  lemma {:induction false} AllTold(journal: Entries, now: Entries, first: nat, gates: seq<Gate>)
    requires ToldSoFar(journal, now, first, gates, |gates|)
    ensures AnswersTold(now, first, gates, |gates|)
  {
  }

  /** One turn of the loop: mark the gate pending, ask it, record its answer; or stop. */
  method OneGate(journal: Entries, sid: SessionID, first: nat, gates: seq<Gate>, k: nat,
                 log: Entries, now: Entries, t: Time)
    returns (log': Entries, after: Entries, passed: bool)
    requires JournalValid(journal, sid) && Prepared(journal, first, |gates|) && k < |gates|
    requires Progress(journal, sid, first, |gates|, k, log, now) && AnswerValid(gates[k].answer, sid)
    requires ToldSoFar(journal, now, first, gates, k)
    ensures passed <==> Passes(gates[k])
    ensures passed ==> Progress(journal, sid, first, |gates|, k + 1, log', after)
    ensures passed ==> ToldSoFar(journal, after, first, gates, k + 1)
    ensures !passed ==>
              Reaches(journal, sid, log', after) && SameOutside(journal, after, first, |gates|)
                && Ran(after, first, |gates|, k) && AnswersTold(after, first, gates, k)
  {
    var gate, count := gates[k], |gates|;
    hide *;
    PassesMeans(gate);
    if gate.canceled {
      log', after := StopBefore(journal, sid, first, gates, k, log, now, t);
      return log', after, false;
    }
    ProgressInside(journal, sid, first, count, k, log, now);
    GateAnswers(journal, sid, first, count, k, log, now, gate.answer, t, t);
    GateTold(journal, sid, first, gates, k, log, now, t);
    var pending := Pended(now[first + k], t);
    var terminal := Answered(pending, gate.answer, t);
    if !gate.answer.Accepts? {
      log', after := StopAfter(journal, sid, first, gates, k, log, now, pending, terminal, t);
      return log', after, false;
    }
    return log + [pending] + [terminal], now[first + k := terminal], true;
  }

  lemma {:induction false} PassesMeans(g: Gate)
    ensures Passes(g) <==> !g.canceled && g.answer.Accepts?
  {
  }

  /** The answer of gate `k` stands at its entry. */
  lemma {:induction false} GateTold(journal: Entries, sid: SessionID, first: nat, gates: seq<Gate>, k: nat,
                                    log: Entries, now: Entries, t: Time)
    requires JournalValid(journal, sid) && Prepared(journal, first, |gates|) && k < |gates|
    requires Progress(journal, sid, first, |gates|, k, log, now) && AnswerValid(gates[k].answer, sid)
    requires ToldSoFar(journal, now, first, gates, k)
    ensures first + k < |now|
    ensures var d := Answered(Pended(now[first + k], t), gates[k].answer, t);
            && Recorded(d, gates[k].answer) && d.effect == EffectPending
            && (Passes(gates[k]) ==> ToldSoFar(journal, now[first + k := d], first, gates, k + 1))
  {
    hide Recorded;
    assert EntryValid(journal[first + k], sid) && now[first + k] == journal[first + k];
    hide EntryValid;
    hide JournalValid;
    hide Reaches;
    AnswerRecorded(now[first + k], gates[k].answer, t, t, sid);
    hide Answered;
    hide Pended;
    hide Accepted;
  }

  lemma {:induction false} ProgressStart(journal: Entries, sid: SessionID, first: nat, count: nat)
    requires JournalValid(journal, sid) && Prepared(journal, first, count)
    ensures Progress(journal, sid, first, count, 0, [], journal)
  {
  }

  lemma {:induction false} ProgressInside(journal: Entries, sid: SessionID, first: nat, count: nat, k: nat,
                                          log: Entries, now: Entries)
    requires Progress(journal, sid, first, count, k, log, now)
    ensures first + count <= |now|
  {
  }

  lemma {:induction false} ProgressRan(journal: Entries, sid: SessionID, first: nat, count: nat, log: Entries,
                                       now: Entries)
    requires Progress(journal, sid, first, count, count, log, now)
    ensures Reaches(journal, sid, log, now) && SameOutside(journal, now, first, count) && Ran(now, first, count, count)
  {
  }

  /** The caller went away before gate `k`: it and the rest are skipped. */
  method StopBefore(journal: Entries, sid: SessionID, first: nat, gates: seq<Gate>, k: nat,
                    log: Entries, now: Entries, t: Time)
    returns (log': Entries, after: Entries)
    requires JournalValid(journal, sid) && Prepared(journal, first, |gates|) && k < |gates| && gates[k].canceled
    requires Progress(journal, sid, first, |gates|, k, log, now) && ToldSoFar(journal, now, first, gates, k)
    ensures Reaches(journal, sid, log', after) && SameOutside(journal, after, first, |gates|)
    ensures Ran(after, first, |gates|, k) && AnswersTold(after, first, gates, k)
  {
    ReadyToSkip(journal, sid, first, |gates|, k, log, now);
    hide *;
    var more;
    more, after := CancelPrepared(now, sid, first + k, first + |gates|, t);
    LogConcat(journal, sid, log, now, more, after);
    SkippedRest(journal, now, sid, first, |gates|, k, t, after);
    SkippedTold(journal, now, sid, first, gates, k, t, after);
    log' := log + more;
  }

  lemma {:induction false} ReadyToSkip(journal: Entries, sid: SessionID, first: nat, count: nat, k: nat, log: Entries,
                                       now: Entries)
    requires JournalValid(journal, sid) && Prepared(journal, first, count) && k <= count
    requires Progress(journal, sid, first, count, k, log, now)
    ensures JournalValid(now, sid) && Reaches(journal, sid, log, now) && SameOutside(journal, now, first, count)
    ensures first + count <= |now|
    ensures forall i :: first <= i < first + k ==> Accepted(now[i])
    ensures forall i :: first + k <= i < first + count ==> IsGate(now[i]) && now[i].status.InvocationPrepared?
  {
  }

  lemma {:induction false} SkippedTold(journal: Entries, now: Entries, sid: SessionID, first: nat, gates: seq<Gate>,
                                       k: nat, t: Time, after: Entries)
    requires k < |gates| && gates[k].canceled && ToldSoFar(journal, now, first, gates, k) && JournalValid(now, sid)
    requires forall i :: first + k <= i < first + |gates| ==> now[i].status.InvocationPrepared?
    requires |after| == |now|
    requires forall i :: 0 <= i < |now| ==>
               after[i] == if first + k <= i < first + |gates| then Skipped(now[i], t) else now[i]
    ensures AnswersTold(after, first, gates, k)
  {
    forall i | first + k <= i < first + |gates| ensures NeverAsked(after[i]) {
      assert EntryValid(now[i], sid);
      SkippedNeverAsked(now[i], t, sid);
    }
    hide Skipped;
    hide NeverAsked;
    hide Recorded;
    hide JournalValid;
  }

  lemma {:induction false} SkippedRest(journal: Entries, now: Entries, sid: SessionID, first: nat, count: nat, k: nat,
                                       t: Time, after: Entries)
    requires k < count && SameOutside(journal, now, first, count) && first + count <= |now| && JournalValid(now, sid)
    requires forall i :: first <= i < first + k ==> Accepted(now[i])
    requires forall i :: first + k <= i < first + count ==> IsGate(now[i]) && now[i].status.InvocationPrepared?
    requires |after| == |now|
    requires forall i :: 0 <= i < |now| ==>
               after[i] == if first + k <= i < first + count then Skipped(now[i], t) else now[i]
    ensures SameOutside(journal, after, first, count) && Ran(after, first, count, k)
  {
    forall i | first + k <= i < first + count ensures Dropped(after[i]) && Stopper(after[i]) {
      SkippedIsDropped(now[i], t, sid);
    }
    hide Skipped;
    hide Dropped;
    hide Stopper;
    hide JournalValid;
  }

  /** Gate `k` did not accept: its answer is recorded and the rest are skipped. */
  method StopAfter(journal: Entries, sid: SessionID, first: nat, gates: seq<Gate>, k: nat, log: Entries, now: Entries,
                   pending: ExtensionEntry, terminal: ExtensionEntry, t: Time)
    returns (log': Entries, after: Entries)
    requires JournalValid(journal, sid) && Prepared(journal, first, |gates|) && k < |gates|
    requires !gates[k].canceled && !Passes(gates[k])
    requires Progress(journal, sid, first, |gates|, k, log, now) && ToldSoFar(journal, now, first, gates, k)
    requires first + k < |now| && Stopper(terminal)
    requires Reaches(journal, sid, log + [pending] + [terminal], now[first + k := terminal])
    requires Recorded(terminal, gates[k].answer) && terminal.effect == EffectPending
    ensures Reaches(journal, sid, log', after) && SameOutside(journal, after, first, |gates|)
    ensures Ran(after, first, |gates|, k) && AnswersTold(after, first, gates, k)
  {
    ReadyToSkip(journal, sid, first, |gates|, k, log, now);
    hide *;
    var stopped := now[first + k := terminal];
    ReachesJournal(journal, sid, log + [pending] + [terminal], stopped);
    StillOutside(journal, now, first, |gates|, k, terminal);
    var more;
    more, after := CancelPrepared(stopped, sid, first + k + 1, first + |gates|, t);
    LogConcat(journal, sid, log + [pending] + [terminal], stopped, more, after);
    StoppedRest(journal, stopped, sid, first, |gates|, k, t, after);
    StoppedTold(journal, now, sid, first, gates, k, terminal, t, after);
    log' := log + [pending] + [terminal] + more;
  }

  lemma {:induction false} StillOutside(journal: Entries, now: Entries, first: nat, count: nat, k: nat,
                                        terminal: ExtensionEntry)
    requires SameOutside(journal, now, first, count) && k < count && first + count <= |now|
    ensures SameOutside(journal, now[first + k := terminal], first, count)
  {
  }

  lemma {:induction false} StoppedTold(journal: Entries, now: Entries, sid: SessionID, first: nat, gates: seq<Gate>,
                                       k: nat, terminal: ExtensionEntry, t: Time, after: Entries)
    requires k < |gates| && !gates[k].canceled && !Passes(gates[k]) && ToldSoFar(journal, now, first, gates, k)
    requires JournalValid(now[first + k := terminal], sid)
    requires Recorded(terminal, gates[k].answer) && terminal.effect == EffectPending
    requires forall i :: first + k < i < first + |gates| ==> now[i].status.InvocationPrepared?
    requires |after| == |now|
    requires forall i :: 0 <= i < |now| ==>
               after[i] == if first + k + 1 <= i < first + |gates| then Skipped(now[i], t)
                 else now[first + k := terminal][i]
    ensures AnswersTold(after, first, gates, k)
  {
    forall i | first + k < i < first + |gates| ensures NeverAsked(after[i]) {
      assert now[first + k := terminal][i] == now[i] && EntryValid(now[i], sid);
      SkippedNeverAsked(now[i], t, sid);
    }
    hide Skipped;
    hide NeverAsked;
    hide Recorded;
    hide JournalValid;
  }

  lemma {:induction false} StoppedRest(journal: Entries, now: Entries, sid: SessionID, first: nat, count: nat, k: nat,
                                       t: Time, after: Entries)
    requires k < count && SameOutside(journal, now, first, count) && first + count <= |now| && JournalValid(now, sid)
    requires (forall i :: first <= i < first + k ==> Accepted(now[i])) && Stopper(now[first + k])
    requires forall i :: first + k < i < first + count ==> IsGate(now[i]) && now[i].status.InvocationPrepared?
    requires |after| == |now|
    requires forall i :: 0 <= i < |now| ==>
               after[i] == if first + k + 1 <= i < first + count then Skipped(now[i], t) else now[i]
    ensures SameOutside(journal, after, first, count) && Ran(after, first, count, k)
  {
    forall i | first + k < i < first + count ensures Dropped(after[i]) {
      SkippedIsDropped(now[i], t, sid);
    }
    hide Skipped;
    hide Dropped;
    hide Stopper;
    hide JournalValid;
  }

  // ---------------------------------------------------------------- settling

  /** The search of finalizeRejectedInput for the entry that decided. */
  predicate Decisive(e: ExtensionEntry) {
    || (e.status.InvocationSucceeded? && e.result == Some(DecisionReject))
    || e.status.InvocationFailed? || e.status.InvocationOutcomeUnknown?
    || (e.status.InvocationCanceled? && e.effect == EffectPending)
  }

  /** It answered, and not with accept: a gate that rejected, failed or was canceled after it had been asked. */
  predicate Decides(e: ExtensionEntry) {
    e.effect.EffectPending? && (e.status.InvocationSucceeded? ==> e.result == Some(DecisionReject))
  }

  method FindDecisive(journal: Entries, first: nat, count: nat) returns (decisive: int)
    requires first + count <= |journal|
    ensures decisive == -1 || (first <= decisive < first + count && Decisive(journal[decisive]))
    ensures forall i :: first <= i < (if decisive == -1 then first + count else decisive) ==> !Decisive(journal[i])
  {
    for i := first to first + count
      invariant forall k :: first <= k < i ==> !Decisive(journal[k])
    {
      if Decisive(journal[i]) { return i; }
    }
    return -1;
  }

  lemma {:induction false} RejectedEntry(e: ExtensionEntry, i: nat, decisive: int, sid: SessionID)
    requires EntryValid(e, sid)
    ensures Accepted(e) && i != decisive ==> Dropped(SettledAs(e, i, Dropping(decisive)))
    ensures Dropped(e) ==> SettledAs(e, i, Dropping(decisive)) == e
    ensures Stopper(e) ==>
              Settled(SettledAs(e, i, Dropping(decisive)))
                && SettledAs(e, i, Dropping(decisive)).context != ContextPending
    ensures Accepted(e) ==> !Decisive(e)
  {
  }

  /** finalizeRejectedInput: everything is settled, nothing keeps a context, and at most the decisive entry counts as
      applied. */
  method FinalizeRejected(journal: Entries, sid: SessionID, first: nat, count: nat, ghost stop: nat)
    returns (log: Entries, after: Entries)
    requires JournalValid(journal, sid) && Ran(journal, first, count, stop) && stop < count
    ensures Reaches(journal, sid, log, after) && SameOutside(journal, after, first, count)
    ensures forall i :: first <= i < first + count ==> Settled(after[i]) && after[i].context != ContextPending
    ensures forall i :: first <= i < first + count && i != first + stop ==> after[i].effect == EffectDiscarded
    ensures after[first + stop].effect == if Decides(journal[first + stop]) then EffectApplied else EffectDiscarded
  {
    RanInside(journal, first, count, stop);
    hide *;
    var decisive := FindDecisive(journal, first, count);
    log, after := SettleEntries(journal, sid, first, count, Dropping(decisive));
    RejectedAll(journal, sid, first, count, stop, decisive, after);
  }

  lemma {:induction false} RanInside(journal: Entries, first: nat, count: nat, stop: nat)
    requires Ran(journal, first, count, stop)
    ensures first + count <= |journal| && stop <= count
  {
  }

  /** The search finds the gate that stopped the input, if it decided. */
  lemma {:induction false} TheDecisive(journal: Entries, sid: SessionID, first: nat, count: nat, stop: nat,
                                       decisive: int)
    requires JournalValid(journal, sid) && Ran(journal, first, count, stop) && stop < count
    requires decisive == -1 || (first <= decisive < first + count && Decisive(journal[decisive]))
    requires forall i :: first <= i < (if decisive == -1 then first + count else decisive) ==> !Decisive(journal[i])
    ensures SettledAs(journal[first + stop], first + stop, Dropping(decisive)).effect ==
            if Decides(journal[first + stop]) then EffectApplied else EffectDiscarded
  {
    var at := first + stop;
    assert Stopper(journal[at]) && EntryValid(journal[at], sid);
    forall i | first <= i < at ensures !Decisive(journal[i]) {
      assert Accepted(journal[i]);
    }
    hide JournalValid;
    hide EntryValid;
    StopperDecides(journal[at], sid);
  }

  lemma {:induction false} StopperDecides(e: ExtensionEntry, sid: SessionID)
    requires Stopper(e)
    ensures Decides(e) ==> Decisive(e)
    ensures Decisive(e) && e.effect.EffectPending? ==> Decides(e)
  {
  }

  lemma {:induction false} RejectedAll(journal: Entries, sid: SessionID, first: nat, count: nat, stop: nat,
                                       decisive: int, after: Entries)
    requires JournalValid(journal, sid) && Ran(journal, first, count, stop) && stop < count && |after| == |journal|
    requires decisive == -1 || (first <= decisive < first + count && Decisive(journal[decisive]))
    requires forall i :: first <= i < (if decisive == -1 then first + count else decisive) ==> !Decisive(journal[i])
    requires forall i :: 0 <= i < |journal| ==>
               after[i] == if first <= i < first + count then SettledAs(journal[i], i, Dropping(decisive))
                 else journal[i]
    ensures SameOutside(journal, after, first, count)
    ensures forall i :: first <= i < first + count ==> Settled(after[i]) && after[i].context != ContextPending
    ensures forall i :: first <= i < first + count && i != first + stop ==> after[i].effect == EffectDiscarded
    ensures after[first + stop].effect == if Decides(journal[first + stop]) then EffectApplied else EffectDiscarded
  {
    TheDecisive(journal, sid, first, count, stop, decisive);
    hide Decides;
    hide Reaches;
    forall i | first <= i < first + count
      ensures Settled(after[i]) && after[i].context != ContextPending
      ensures (i != first + stop ==> after[i].effect == EffectDiscarded)
    {
      assert EntryValid(journal[i], sid);
      hide JournalValid;
      hide EntryValid;
      RejectedEntry(journal[i], i, decisive, sid);
      hide SettledAs;
      hide Accepted;
      hide Stopper;
      hide Decisive;
    }
  }

  // ---------------------------------------------------------------- the effect

  /** What the input wants to do, and what it was prepared against. */
  datatype Operation =
    | Send(item: QueueItem)
    | Steer(item: QueueItem, run: RunID)
    | Edit(message: MessageID, parts: seq<nat>, previous: seq<nat>, delivery: Delivery)

  /** The target has not changed while the gates ran. */
  predicate TargetHolds(s: Snapshot, op: Operation) {
    match op
    case Send(_) => true
    case Steer(_, run) => IsActive(s, run)
    case Edit(message, _, previous, delivery) =>
      var i := QueueIndex(s.queue, message);
      i < |s.queue| && !s.queue[i].Claimed() && s.queue[i].message.parts == previous && s.queue[i].delivery == delivery
  }

  /** discardOlderInputContexts: contexts that earlier inputs left waiting for the same message. */
  function OlderContexts(journal: Entries, first: nat, count: nat, message: MessageID): (r: Entries) {
    if journal == [] then []
    else
      var i := |journal| - 1;
      OlderContexts(journal[..i], first, count, message)
      + if IsOlder(journal[i], i, first, count, message) then [DropContext(journal[i])] else []
  }

  predicate IsOlder(e: ExtensionEntry, i: nat, first: nat, count: nat, message: MessageID) {
    IsGate(e) && e.identity.message == message && e.context == ContextPending && !(first <= i < first + count)
  }

  /** No earlier input for the message still waits for its own last commit. */
  predicate OlderApplied(journal: Entries, first: nat, count: nat, message: MessageID) {
    forall i :: 0 <= i < |journal| && IsOlder(journal[i], i, first, count, message) ==>
      journal[i].effect == EffectApplied
  }

  /** The journal with the older contexts given up. */
  function OlderDropped(journal: Entries, first: nat, count: nat, message: MessageID): (r: Entries)
    ensures |r| == |journal|
    ensures forall i :: 0 <= i < |r| ==>
              r[i] == if IsOlder(journal[i], i, first, count, message) then DropContext(journal[i]) else journal[i]
  {
    seq(|journal|, i requires 0 <= i < |journal| =>
      if IsOlder(journal[i], i, first, count, message) then DropContext(journal[i]) else journal[i])
  }

  lemma {:induction false} OlderPass(journal: Entries, first: nat, count: nat, message: MessageID, n: nat)
    requires n <= |journal|
    ensures OlderContexts(journal[..n], first, count, message) ==
            PassLog(journal, OlderDropped(journal, first, count, message), n)
  {
    if n > 0 {
      OlderPass(journal, first, count, message, n - 1);
      assert journal[..n][..n - 1] == journal[..n - 1];
    }
  }

  lemma {:induction false} OlderEntry(e: ExtensionEntry, sid: SessionID)
    requires EntryValid(e, sid) && e.context == ContextPending
    ensures e.effect == EffectApplied ==> Legal(e, DropContext(e), sid)
    ensures e.effect != EffectApplied ==> !EntryValid(DropContext(e), sid)
  {
    if e.effect == EffectApplied {
      DropLegal(e, sid);
    }
  }

  lemma {:induction false} OlderIn(journal: Entries, first: nat, count: nat, message: MessageID, i: nat)
    requires i < |journal| && IsOlder(journal[i], i, first, count, message)
    ensures DropContext(journal[i]) in OlderContexts(journal, first, count, message)
  {
    if i < |journal| - 1 {
      assert journal[..|journal| - 1][i] == journal[i];
      OlderIn(journal[..|journal| - 1], first, count, message, i);
    }
  }

  /** The journal takes the updates by which an edit gives up older contexts if and only if each of them is applied: one
      that still waits for its own last commit cannot lose its context. */
  lemma {:induction false} OlderExact(journal: Entries, sid: SessionID, first: nat, count: nat, message: MessageID)
    requires JournalValid(journal, sid)
    ensures ApplyExtensions(journal, sid, OlderContexts(journal, first, count, message)).Ok? <==>
            OlderApplied(journal, first, count, message)
    ensures OlderApplied(journal, first, count, message) ==>
              Reaches(journal, sid, OlderContexts(journal, first, count, message),
                      OlderDropped(journal, first, count, message))
  {
    if OlderApplied(journal, first, count, message) {
      OlderAccepted(journal, sid, first, count, message);
    } else {
      var i :|
        0 <= i < |journal| && IsOlder(journal[i], i, first, count, message) && journal[i].effect != EffectApplied;
      assert EntryValid(journal[i], sid);
      OlderEntry(journal[i], sid);
      hide *;
      OlderIn(journal, first, count, message, i);
      InvalidRefused(journal, sid, OlderContexts(journal, first, count, message), DropContext(journal[i]));
    }
  }

  lemma {:induction false} OlderAccepted(journal: Entries, sid: SessionID, first: nat, count: nat, message: MessageID)
    requires JournalValid(journal, sid) && OlderApplied(journal, first, count, message)
    ensures Reaches(journal, sid, OlderContexts(journal, first, count, message),
                    OlderDropped(journal, first, count, message))
  {
    hide *;
    OlderLegal(journal, sid, first, count, message);
    assert journal[..|journal|] == journal;
    OlderPass(journal, first, count, message, |journal|);
    PassReaches(journal, OlderDropped(journal, first, count, message), sid);
  }

  /** Earlier inputs for the message are settled, so dropping their contexts is a legal step of each. */
  lemma {:induction false} OlderLegal(journal: Entries, sid: SessionID, first: nat, count: nat, message: MessageID)
    requires JournalValid(journal, sid) && OlderApplied(journal, first, count, message)
    ensures PassLegal(journal, OlderDropped(journal, first, count, message), sid)
  {
    forall i | 0 <= i < |journal| && IsOlder(journal[i], i, first, count, message)
      ensures Legal(journal[i], OlderDropped(journal, first, count, message)[i], sid)
    {
      OlderEntry(journal[i], sid);
    }
    hide Legal;
    hide DropContext;
  }

  lemma {:induction false} OlderDiscarded(journal: Entries, first: nat, count: nat, message: MessageID)
    ensures forall u :: u in OlderContexts(journal, first, count, message) ==> u.context == ContextDiscarded
  {
    if journal != [] {
      OlderDiscarded(journal[..|journal| - 1], first, count, message);
    }
  }

  /** The operations by which the input takes effect; a Send to an idle Session also starts its Run. */
  function EffectOps(s: Snapshot, op: Operation, first: nat, count: nat, run: RunID, step: StepID): (r: seq<Op>) {
    match op
    case Send(item) => if s.running then [Plain(EnqueueMessage(item))] else StartOps(s, item, run, step, true)
    case Steer(item, _) => [Plain(EnqueueMessage(item))]
    case Edit(message, parts, _, delivery) =>
      [Plain(EditQueue(message, parts, delivery))] + ReserveOps(OlderContexts(s.extensions, first, count, message))
  }

  /** The journal as the effect leaves it: a start hands waiting contexts to its Run, an edit gives older ones up. */
  function EffectJournal(s: Snapshot, op: Operation, first: nat, count: nat): (r: Entries)
    ensures |r| == |s.extensions|
  {
    match op
    case Send(item) => if s.running then s.extensions else StartJournal(s.extensions, item.message.id)
    case Steer(_, _) => s.extensions
    case Edit(message, _, _, _) => OlderDropped(s.extensions, first, count, message)
  }

  /** Whether the journal takes the updates of the effect. */
  predicate EffectTaken(s: Snapshot, op: Operation, first: nat, count: nat) {
    op.Edit? ==> OlderApplied(s.extensions, first, count, op.message)
  }

  lemma {:induction false} EditUpdates(message: MessageID, parts: seq<nat>, delivery: Delivery, older: Entries)
    ensures UpdatesIn(Expand([Plain(EditQueue(message, parts, delivery))] + ReserveOps(older))) == older
  {
    hide *;
    UpdatesOfOps([Plain(EditQueue(message, parts, delivery))], ReserveOps(older));
    PlainNoUpdate(EditQueue(message, parts, delivery));
    ReserveUpdates(older, |older|);
    assert ReserveOps(older)[..|older|] == ReserveOps(older) && older[..|older|] == older;
  }

  lemma {:induction false} ReserveUpdates(entries: Entries, n: nat)
    requires n <= |entries|
    ensures |ReserveOps(entries)| == |entries| && UpdatesIn(Expand(ReserveOps(entries)[..n])) == entries[..n]
  {
    hide *;
    ReserveParts(entries, n);
    if n > 0 {
      ReserveUpdates(entries, n - 1);
      UpdatesOfOps(ReserveOps(entries)[..n - 1], [Plain(UpdateExtensionJournal(entries[n - 1]))]);
      OneReserved(entries[n - 1]);
    }
  }

  lemma {:induction false} ReserveParts(entries: Entries, n: nat)
    requires n <= |entries|
    ensures |ReserveOps(entries)| == |entries|
    ensures n == 0 ==> UpdatesIn(Expand(ReserveOps(entries)[..n])) == [] == entries[..n]
    ensures n > 0 ==>
              && entries[..n] == entries[..n - 1] + [entries[n - 1]]
              && ReserveOps(entries)[..n] ==
                 ReserveOps(entries)[..n - 1] + [Plain(UpdateExtensionJournal(entries[n - 1]))]
  {
  }

  lemma {:induction false} OneReserved(e: ExtensionEntry)
    ensures UpdatesIn(Expand([Plain(UpdateExtensionJournal(e))])) == [e]
  {
    ExpandOne(Plain(UpdateExtensionJournal(e)));
    UpdatesSnoc([], UpdateExtensionJournal(e));
    assert [] + [UpdateExtensionJournal(e)] == [UpdateExtensionJournal(e)];
  }

  /** The updates of the effect are taken if and only if no older context is in the way, and lead to that journal. */
  lemma {:induction false} EffectExact(s: Snapshot, op: Operation, first: nat, count: nat, run: RunID, step: StepID)
    requires JournalValid(s.extensions, s.session.id)
    ensures var log := UpdatesIn(Expand(EffectOps(s, op, first, count, run, step)));
            && (ApplyExtensions(s.extensions, s.session.id, log).Ok? <==> EffectTaken(s, op, first, count))
            && (EffectTaken(s, op, first, count) ==>
                  Reaches(s.extensions, s.session.id, log, EffectJournal(s, op, first, count)))
  {
    hide *;
    EffectIs(s, op, first, count, run, step);
    match op {
      case Send(item) =>
        if s.running {
          PlainNoUpdate(EnqueueMessage(item));
          ReachesNothing(s.extensions, s.session.id);
        } else {
          StartReaches(s, item, run, step);
        }
      case Steer(item, _) =>
        PlainNoUpdate(EnqueueMessage(item));
        ReachesNothing(s.extensions, s.session.id);
      case Edit(message, parts, _, delivery) =>
        EditUpdates(message, parts, delivery, OlderContexts(s.extensions, first, count, message));
        OlderExact(s.extensions, s.session.id, first, count, message);
    }
    if EffectTaken(s, op, first, count) {
      ReachesOk(s.extensions, s.session.id, UpdatesIn(Expand(EffectOps(s, op, first, count, run, step))),
                EffectJournal(s, op, first, count));
    }
  }

  lemma {:induction false} ReachesOk(journal: Entries, sid: SessionID, log: Entries, after: Entries)
    requires Reaches(journal, sid, log, after)
    ensures ApplyExtensions(journal, sid, log) == Ok(after)
  {
  }

  lemma {:induction false} EffectIs(s: Snapshot, op: Operation, first: nat, count: nat, run: RunID, step: StepID)
    ensures op.Send? && !s.running ==>
              EffectOps(s, op, first, count, run, step) == StartOps(s, op.item, run, step, true)
    ensures op.Send? && !s.running ==>
              EffectJournal(s, op, first, count) == StartJournal(s.extensions, op.item.message.id)
    ensures (op.Send? && s.running) || op.Steer? ==> EffectJournal(s, op, first, count) == s.extensions
    ensures (op.Send? && s.running) || op.Steer? ==>
              EffectOps(s, op, first, count, run, step) == [Plain(EnqueueMessage(op.item))]
    ensures op.Edit? ==> EffectJournal(s, op, first, count) == OlderDropped(s.extensions, first, count, op.message)
    ensures op.Edit? ==>
              EffectOps(s, op, first, count, run, step) ==
              [Plain(EditQueue(op.message, op.parts, op.delivery))]
              + ReserveOps(OlderContexts(s.extensions, first, count, op.message))
    ensures EffectTaken(s, op, first, count) <==> (op.Edit? ==> OlderApplied(s.extensions, first, count, op.message))
  {
  }

  /** How the entries of an accepted input are settled. */
  function HowSettled(s: Snapshot, op: Operation, took: bool): (r: Settling) {
    if !took then Dropping(-1) else if op.Send? && !s.running then Consuming else Keeping
  }

  /** The last commit of an accepted input. */
  function LastOps(s: Snapshot, op: Operation, first: nat, count: nat, took: bool, run: RunID,
                   step: StepID): (r: seq<Op>)
    requires first + count <= |s.extensions|
  {
    (if took then EffectOps(s, op, first, count, run, step) else [])
    + EntryOps(s.extensions, first, first + count, HowSettled(s, op, took), run, step)
  }

  lemma {:induction false} EffectCallless(s: Snapshot, op: Operation, first: nat, count: nat, run: RunID, step: StepID)
    ensures forall o :: o in EffectOps(s, op, first, count, run, step) ==> Callless(o)
  {
    match op {
      case Send(item) => StartCallless(s, item, run, step, true);
      case Steer(_, _) =>
      case Edit(message, _, _, _) =>
        OlderDiscarded(s.extensions, first, count, message);
        ReservesExpand(OlderContexts(s.extensions, first, count, message), 0);
    }
  }

  /** The last commit has the Runtime's shape, whether the input takes effect or not. */
  lemma {:induction false} LastIsInShape(s: Snapshot, op: Operation, first: nat, count: nat, took: bool, run: RunID,
                                         step: StepID)
    requires JournalValid(s.extensions, s.session.id) && first + count <= |s.extensions|
    ensures AllShaped(s, LastOps(s, op, first, count, took, run, step))
    ensures NoCalls(Expand(LastOps(s, op, first, count, took, run, step)))
  {
    hide JournalValid;
    var how := HowSettled(s, op, took);
    var ops := LastOps(s, op, first, count, took, run, step);
    EffectCallless(s, op, first, count, run, step);
    EntryOpsShaped(s.extensions, s.session.id, first, first + count, how, run, step);
    assert forall o :: o in ops ==> Callless(o);
    hide LastOps;
    AlwaysIsShaped(s, ops);
    CalllessExpand(ops);
  }

  /** The queued message is as it was when the edit was prepared: not claimed, with the same parts and delivery. */
  ghost predicate StillQueued(queue: seq<QueueItem>, id: MessageID, parts: seq<nat>, delivery: Delivery) {
    exists i :: 0 <= i < |queue| && queue[i].message.id == id && (forall k :: 0 <= k < i ==> queue[k].message.id != id)
      && queue[i].claimedBy == 0 && queue[i].message.parts == parts && queue[i].delivery == delivery
  }

  lemma {:induction false} TargetExact(s: Snapshot, op: Operation)
    ensures op.Send? ==> TargetHolds(s, op)
    ensures op.Steer? ==> (TargetHolds(s, op) <==> s.running && s.activeRun == op.run)
    ensures op.Edit? ==> (TargetHolds(s, op) <==> StillQueued(s.queue, op.message, op.previous, op.delivery))
  {
    if op.Edit? {
      var at := QueueIndex(s.queue, op.message);
      if StillQueued(s.queue, op.message, op.previous, op.delivery) {
        var i :| 0 <= i < |s.queue| && s.queue[i].message.id == op.message
          && (forall k :: 0 <= k < i ==> s.queue[k].message.id != op.message)
          && s.queue[i].claimedBy == 0 && s.queue[i].message.parts == op.previous && s.queue[i].delivery == op.delivery;
        assert at == i;
      }
    }
  }

  /** The journal as the last commit leaves it. */
  function LastJournal(s: Snapshot, op: Operation, first: nat, count: nat, took: bool): (r: Entries)
    ensures |r| == |s.extensions|
  {
    SettledJournal(if took then EffectJournal(s, op, first, count) else s.extensions, first, first + count,
                   HowSettled(s, op, took))
  }

  /** The effect does not touch the input's own gates. */
  lemma {:induction false} EffectLeavesGates(s: Snapshot, op: Operation, first: nat, count: nat)
    requires Ran(s.extensions, first, count, count)
    ensures forall i :: first <= i < first + count ==> EffectJournal(s, op, first, count)[i] == s.extensions[i]
  {
    forall i | first <= i < first + count ensures EffectJournal(s, op, first, count)[i] == s.extensions[i] {
      assert Accepted(s.extensions[i]);
    }
  }

  lemma {:induction false} LastUpdates(s: Snapshot, op: Operation, first: nat, count: nat, took: bool, run: RunID,
                                       step: StepID)
    requires first + count <= |s.extensions|
    ensures UpdatesIn(Expand(LastOps(s, op, first, count, took, run, step))) ==
            (if took then UpdatesIn(Expand(EffectOps(s, op, first, count, run, step))) else [])
            + SettleLog(s.extensions, first, first + count, HowSettled(s, op, took))
  {
    hide *;
    var how := HowSettled(s, op, took);
    var entries := EntryOps(s.extensions, first, first + count, how, run, step);
    LastIs(s, op, first, count, took, run, step);
    EntryOpsUpdate(s.extensions, first, first + count, how, run, step);
    if took {
      UpdatesOfOps(EffectOps(s, op, first, count, run, step), entries);
    } else {
      assert [] + entries == entries;
      assert [] + SettleLog(s.extensions, first, first + count, how) ==
             SettleLog(s.extensions, first, first + count, how);
    }
  }

  /** The updates of the last commit are taken if and only if the effect's are, and lead to that journal. */
  lemma {:induction false} LastExact(s: Snapshot, op: Operation, first: nat, count: nat, took: bool, run: RunID,
                                     step: StepID)
    requires JournalValid(s.extensions, s.session.id) && Ran(s.extensions, first, count, count)
    ensures first + count <= |s.extensions|
    ensures var log := UpdatesIn(Expand(LastOps(s, op, first, count, took, run, step)));
            && (ApplyExtensions(s.extensions, s.session.id, log).Ok? <==> !took || EffectTaken(s, op, first, count))
            && (!took || EffectTaken(s, op, first, count) ==>
                  Reaches(s.extensions, s.session.id, log, LastJournal(s, op, first, count, took)))
  {
    hide *;
    RanInside(s.extensions, first, count, count);
    var how, sid := HowSettled(s, op, took), s.session.id;
    var base := if took then EffectJournal(s, op, first, count) else s.extensions;
    var log := UpdatesIn(Expand(LastOps(s, op, first, count, took, run, step)));
    var settle := SettleLog(s.extensions, first, first + count, how);
    LastUpdates(s, op, first, count, took, run, step);
    LastJournalIs(s, op, first, count, took);
    if !took {
      assert [] + settle == settle;
      SettleReaches(s.extensions, sid, first, first + count, how);
      ReachesOk(s.extensions, sid, log, LastJournal(s, op, first, count, took));
    } else {
      var effect := UpdatesIn(Expand(EffectOps(s, op, first, count, run, step)));
      EffectExact(s, op, first, count, run, step);
      if EffectTaken(s, op, first, count) {
        EffectLeavesGates(s, op, first, count);
        ReachedValid(s.extensions, sid, effect, base);
        SettleLogSame(s.extensions, base, first, first + count, how);
        SettleReaches(base, sid, first, first + count, how);
        LogConcat(s.extensions, sid, effect, base, settle, LastJournal(s, op, first, count, took));
        ReachesOk(s.extensions, sid, log, LastJournal(s, op, first, count, took));
      } else {
        LogRefused(s.extensions, sid, effect, settle);
      }
    }
  }

  lemma {:induction false} LastJournalIs(s: Snapshot, op: Operation, first: nat, count: nat, took: bool)
    ensures LastJournal(s, op, first, count, took) ==
            SettledJournal(if took then EffectJournal(s, op, first, count) else s.extensions, first, first + count,
                           HowSettled(s, op, took))
  {
  }

  lemma {:induction false} LogRefused(journal: Entries, sid: SessionID, a: Entries, b: Entries)
    requires ApplyExtensions(journal, sid, a).Err?
    ensures ApplyExtensions(journal, sid, a + b).Err?
  {
    if b == [] {
      assert a + b == a;
    } else {
      var front := b[..|b| - 1];
      LogRefused(journal, sid, a, front);
      assert a + b == (a + front) + [b[|b| - 1]];
      LogSnoc(journal, sid, a + front, b[|b| - 1]);
    }
  }

  /** Whatever the Store publishes for a commit, its journal is where the updates lead. */
  lemma {:induction false} CommitReaches(s: Snapshot, changes: seq<Change>, s': Snapshot)
    requires Commits(s, changes, s')
    ensures ApplyExtensions(s.extensions, s.session.id, UpdatesIn(changes)) == Ok(s'.extensions)
  {
    hide *;
    var last := Published(s, changes, s');
    UpdatesApplied(s, s.revision, changes, last);
  }

  /** finalizeAcceptedSend, finalizeAcceptedSteer and finalizeAcceptedEdit: while the Runtime is open and the target is
      unchanged, one commit makes the input take effect and marks all its gates applied; otherwise one commit discards
      them all. The journal takes the updates unless an older context is in the way, and `after` is where they lead. */
  method FinalizeAccepted(s: Snapshot, first: nat, count: nat, open: bool, op: Operation, run: RunID, step: StepID)
    returns (took: bool, changes: seq<Change>, after: Entries)
    requires JournalValid(s.extensions, s.session.id) && Ran(s.extensions, first, count, count)
    ensures took <==> open && TargetHolds(s, op)
    ensures op.Send? ==> (took <==> open)
    ensures op.Steer? ==> (took <==> open && s.running && s.activeRun == op.run)
    ensures op.Edit? ==> (took <==> open && StillQueued(s.queue, op.message, op.previous, op.delivery))
    ensures changes == Expand(LastOps(s, op, first, count, took, run, step))
    ensures AllShaped(s, LastOps(s, op, first, count, took, run, step))
    ensures forall s' :: Commits(s, changes, s') ==>
              && (took ==> InEffect(s, op, run, step, s'))
              && (!took ==> s' == s.(extensions := s'.extensions, revision := s.revision + 1))
              && AllMarked(s', first, count, if took then EffectApplied else EffectDiscarded)
              && s'.extensions == after
    ensures ApplyExtensions(s.extensions, s.session.id, UpdatesIn(changes)).Ok? <==>
            !took || EffectTaken(s, op, first, count)
    ensures !took || EffectTaken(s, op, first, count) ==>
              Reaches(s.extensions, s.session.id, UpdatesIn(changes), after)
    ensures SameOutside(if took then EffectJournal(s, op, first, count) else s.extensions, after, first, count)
    ensures forall i :: first <= i < first + count ==>
              Settled(after[i]) && after[i].effect == (if took then EffectApplied else EffectDiscarded)
    ensures !took ==> forall i :: first <= i < first + count ==> after[i].context != ContextPending
  {
    hide *;
    RanInside(s.extensions, first, count, count);
    TargetExact(s, op);
    took := open;
    if took {
      took := TargetHolds(s, op);
    }
    var how := HowSettled(s, op, took);
    var log, settled := SettleEntries(s.extensions, s.session.id, first, count, how);
    AcceptedSettle(s.extensions, s.session.id, first, count, how, took, settled, s, op);
    after := Overlay(if took then EffectJournal(s, op, first, count) else s.extensions, settled, first, count);
    LastIsOverlay(s, op, first, count, took, settled);
    LastIsInShape(s, op, first, count, took, run, step);
    LastExact(s, op, first, count, took, run, step);
    changes := Expand(LastOps(s, op, first, count, took, run, step));
    forall s' | Commits(s, changes, s')
      ensures took ==> InEffect(s, op, run, step, s')
      ensures !took ==> s' == s.(extensions := s'.extensions, revision := s.revision + 1)
      ensures AllMarked(s', first, count, if took then EffectApplied else EffectDiscarded)
      ensures s'.extensions == after
    {
      LastTakes(s, op, first, count, took, run, step, s');
      CommitReaches(s, changes, s');
      if !took || EffectTaken(s, op, first, count) {
        ReachesOk(s.extensions, s.session.id, UpdatesIn(changes), after);
      }
    }
  }

  lemma {:induction false} LastIsOverlay(s: Snapshot, op: Operation, first: nat, count: nat, took: bool,
                                         settled: Entries)
    requires Ran(s.extensions, first, count, count) && |settled| == |s.extensions|
    requires forall i :: 0 <= i < |settled| ==>
               settled[i] == if first <= i < first + count then SettledAs(s.extensions[i], i, HowSettled(s, op, took))
                 else s.extensions[i]
    ensures first + count <= |s.extensions|
    ensures var base := if took then EffectJournal(s, op, first, count) else s.extensions;
            && Overlay(base, settled, first, count) == LastJournal(s, op, first, count, took)
            && SameOutside(base, Overlay(base, settled, first, count), first, count)
            && forall i :: first <= i < first + count ==> Overlay(base, settled, first, count)[i] == settled[i]
  {
    EffectLeavesGates(s, op, first, count);
    hide SettledAs;
    hide EffectJournal;
    hide Accepted;
    hide HowSettled;
  }

  /** The gates of the input carry this effect. */
  ghost predicate AllMarked(s: Snapshot, first: nat, count: nat, effect: Effect) {
    first + count <= |s.extensions| && forall i :: first <= i < first + count ==> s.extensions[i].effect == effect
  }

  lemma {:induction false} AcceptedSettle(journal: Entries, sid: SessionID, first: nat, count: nat, how: Settling,
                                          took: bool, after: Entries, s: Snapshot, op: Operation)
    requires Ran(journal, first, count, count) && |after| == |journal| && how == HowSettled(s, op, took)
    requires forall i :: 0 <= i < |journal| ==>
               after[i] == if first <= i < first + count then SettledAs(journal[i], i, how) else journal[i]
    ensures SameOutside(journal, after, first, count)
    ensures forall i :: first <= i < first + count ==>
              Settled(after[i]) && after[i].effect == (if took then EffectApplied else EffectDiscarded)
    ensures !took ==> forall i :: first <= i < first + count ==> after[i].context != ContextPending
  {
    forall i | first <= i < first + count
      ensures Settled(after[i]) && after[i].effect == (if took then EffectApplied else EffectDiscarded)
      ensures !took ==> after[i].context != ContextPending
    {
      assert Accepted(journal[i]);
    }
    hide SettledAs;
  }

  // ---------------------------------------------------------------- what the Store then holds

  function Edited(item: QueueItem, parts: seq<nat>, delivery: Delivery): (r: QueueItem) {
    item.(message := item.message.(parts := parts), delivery := delivery)
  }

  ghost predicate Told(s: Snapshot, m: Message, s': Snapshot) {
    exists i :: |s.history| <= i < |s'.history| && s'.history[i].payload == MessagePayload(m)
  }

  /** The input is in the aggregate: queued, edited, or the first message of the Run it started. */
  ghost predicate InEffect(s: Snapshot, op: Operation, run: RunID, step: StepID, s': Snapshot) {
    match op
    case Send(item) =>
      if s.running then s'.queue == s.queue + [item]
      else
        && s'.running && s'.activeRun == run && s'.queue == s.queue
        && Told(s, item.message.(run := run, step := step), s')
    case Steer(item, _) => s'.queue == s.queue + [item]
    case Edit(message, parts, _, delivery) =>
      var i := QueueIndex(s.queue, message);
      i < |s.queue| && s'.queue == s.queue[i := Edited(s.queue[i], parts, delivery)]
  }

  /** Both parts of a commit, one after the other. */
  lemma {:induction false} InTwo(s: Snapshot, expected: Revision, a: seq<Op>, b: seq<Op>,
                                 s': Snapshot) returns (mid: Snapshot)
    requires ApplyAll(s, expected, Expand(a + b)) == Ok(s')
    ensures ApplyAll(s, expected, Expand(a)) == Ok(mid) && ApplyAll(mid, expected, Expand(b)) == Ok(s')
  {
    hide ApplyAll;
    ExpandConcat(a, b);
    ApplyConcat(s, expected, Expand(a), Expand(b));
    mid := ApplyAll(s, expected, Expand(a)).value;
  }

  lemma {:induction false} OneOf(s: Snapshot, expected: Revision, c: Change, s': Snapshot)
    requires ApplyAll(s, expected, Expand([Plain(c)])) == Ok(s')
    ensures ApplyChange(s, expected, c) == Ok(s')
  {
    ExpandOne(Plain(c));
    ApplyOne(s, expected, c);
  }

  // What the single changes of a start do.

  lemma {:induction false} EnqueueIs(s: Snapshot, expected: Revision, item: QueueItem, s': Snapshot)
    requires ApplyChange(s, expected, EnqueueMessage(item)) == Ok(s')
    ensures s' == s.(queue := s.queue + [item]) && QueueIndex(s.queue, item.message.id) == |s.queue|
  {
  }

  lemma {:induction false} ClaimIs(s: Snapshot, expected: Revision, id: MessageID, run: RunID, s': Snapshot)
    requires ApplyChange(s, expected, ClaimQueue(id, run)) == Ok(s')
    ensures var i := QueueIndex(s.queue, id);
            i < |s.queue| && s' == s.(queue := s.queue[i := s.queue[i].(claimedBy := run)])
  {
  }

  lemma {:induction false} ConsumeIs(s: Snapshot, expected: Revision, id: MessageID, run: RunID, s': Snapshot)
    requires ApplyChange(s, expected, ConsumeQueue(id, run)) == Ok(s')
    ensures var i := QueueIndex(s.queue, id); i < |s.queue| && s' == s.(queue := RemoveAt(s.queue, i))
  {
  }

  lemma {:induction false} MessageIs(s: Snapshot, expected: Revision, m: Message, s': Snapshot)
    requires ApplyChange(s, expected, AppendMessage(m)) == Ok(s')
    ensures s' == s.(history := s'.history) && |s'.history| == |s.history| + 1 && s.history <= s'.history
    ensures s'.history[|s.history|].payload == MessagePayload(m)
  {
    hide FindMessage;
  }

  /** Enqueued, claimed and consumed in one commit: the Queue is as before. */
  lemma {:induction false} QueueReturns(queue: seq<QueueItem>, item: QueueItem, run: RunID)
    requires QueueIndex(queue, item.message.id) == |queue|
    ensures QueueIndex(queue + [item], item.message.id) == |queue|
    ensures var claimed := (queue + [item])[|queue| := item.(claimedBy := run)];
            && QueueIndex(claimed, item.message.id) == |queue|
            && RemoveAt(claimed, |queue|) == queue
  {
    var all := queue + [item];
    var claimed := all[|queue| := item.(claimedBy := run)];
    assert forall i :: 0 <= i < |queue| ==> all[i] == queue[i] && claimed[i] == queue[i];
    assert all[|queue|].message.id == item.message.id && claimed[|queue|].message.id == item.message.id;
  }

  lemma {:induction false} ConsumptionTakes(s: Snapshot, expected: Revision, queue: seq<QueueItem>, src: Snapshot,
                                            item: QueueItem, run: RunID, step: StepID, s': Snapshot)
    requires s.queue == queue + [item] && QueueIndex(queue, item.message.id) == |queue|
    requires ApplyAll(s, expected, Expand(ConsumptionOps(src, item, run, step))) == Ok(s')
    ensures s'.queue == queue && s'.running == s.running && s'.activeRun == s.activeRun
    ensures s.history <= s'.history && Told(s, item.message.(run := run, step := step), s')
  {
    hide *;
    var id, m := item.message.id, item.message.(run := run, step := step);
    var a, b, c := Plain(ClaimQueue(id, run)), Plain(ConsumeQueue(id, run)), Plain(AppendMessage(m));
    var rest := InputContextOps(src.extensions, id, run, step);
    ConsumptionIs(src, item, run, step);
    var s1 := InTwo(s, expected, [a], [b] + ([c] + rest), s');
    OneOf(s, expected, a.change, s1);
    ClaimIs(s, expected, id, run, s1);
    QueueReturns(queue, item, run);
    var s2 := InTwo(s1, expected, [b], [c] + rest, s');
    OneOf(s1, expected, b.change, s2);
    ConsumeIs(s1, expected, id, run, s2);
    var s3 := InTwo(s2, expected, [c], rest, s');
    OneOf(s2, expected, c.change, s3);
    MessageIs(s2, expected, m, s3);
    WaitingAreContexts(src.extensions, id, run, step);
    ContextChangesLeave(s3, expected, Expand(rest), s');
    ToldAt(s, m, s');
  }

  lemma {:induction false} ToldAt(s: Snapshot, m: Message, s': Snapshot)
    requires |s.history| < |s'.history| && s'.history[|s.history|].payload == MessagePayload(m)
    ensures Told(s, m, s')
  {
  }

  lemma {:induction false} ConsumptionIs(src: Snapshot, item: QueueItem, run: RunID, step: StepID)
    ensures var id := item.message.id;
            ConsumptionOps(src, item, run, step) ==
            [Plain(ClaimQueue(id, run))] + ([Plain(ConsumeQueue(id, run))]
            + ([Plain(AppendMessage(item.message.(run := run, step := step)))]
              + InputContextOps(src.extensions, id, run, step)))
  {
  }

  lemma {:induction false} StartTakes(s: Snapshot, item: QueueItem, run: RunID, step: StepID, s': Snapshot)
    requires ApplyAll(s, s.revision, Expand(StartOps(s, item, run, step, true))) == Ok(s')
    ensures s'.running && s'.activeRun == run && s'.queue == s.queue
    ensures s.history <= s'.history && Told(s, item.message.(run := run, step := step), s')
  {
    hide *;
    var a, b := Plain(EnqueueMessage(item)), StartRun(Started(s, run));
    var c, d := LifecycleOps(s.extensions, run, step), ConsumptionOps(s, item, run, step);
    StartParts(s, item, run, step);
    var s1 := InTwo(s, s.revision, [a], [b] + (c + d), s');
    OneOf(s, s.revision, a.change, s1);
    EnqueueIs(s, s.revision, item, s1);
    var s2 := InTwo(s1, s.revision, [b], c + d, s');
    StartedIs(s, run);
    RunBegins(s1, s.revision, Started(s, run), s2);
    var s3 := InTwo(s2, s.revision, c, d, s');
    WaitingAreContexts(s.extensions, item.message.id, run, step);
    ContextChangesLeave(s2, s.revision, Expand(c), s3);
    ConsumptionTakes(s3, s.revision, s.queue, s, item, run, step, s');
    ToldSince(s, s3, item.message.(run := run, step := step), s');
  }

  lemma {:induction false} StartedIs(s: Snapshot, run: RunID)
    ensures Started(s, run).run == run
  {
  }

  lemma {:induction false} ToldSince(s: Snapshot, mid: Snapshot, m: Message, s': Snapshot)
    requires |s.history| <= |mid.history| && Told(mid, m, s')
    ensures Told(s, m, s')
  {
  }

  lemma {:induction false} RunBegins(s: Snapshot, expected: Revision, f: RunFact, s': Snapshot)
    requires ApplyAll(s, expected, Expand([StartRun(f)])) == Ok(s')
    ensures s'.running && s'.activeRun == f.run && s'.queue == s.queue && s.history <= s'.history
  {
    ExpandOne(StartRun(f));
    ApplyTwo(s, expected, SetRunState(f.run, true), AppendRunFact(f), s');
  }

  /** The effect part of the last commit. */
  lemma {:induction false} EffectTakes(s: Snapshot, op: Operation, first: nat, count: nat, run: RunID, step: StepID,
                                       s': Snapshot)
    requires TargetHolds(s, op)
    requires ApplyAll(s, s.revision, Expand(EffectOps(s, op, first, count, run, step))) == Ok(s')
    ensures InEffect(s, op, run, step, s') && s.history <= s'.history
  {
    hide ApplyAll;
    hide ApplyChange;
    hide Expand;
    hide StartOps;
    hide OlderContexts;
    hide QueueIndex;
    match op {
      case Send(item) =>
        if s.running {
          OneOf(s, s.revision, EnqueueMessage(item), s');
          EnqueueIs(s, s.revision, item, s');
        } else {
          StartTakes(s, item, run, step, s');
        }
      case Steer(item, _) =>
        OneOf(s, s.revision, EnqueueMessage(item), s');
        EnqueueIs(s, s.revision, item, s');
      case Edit(message, parts, _, delivery) =>
        var older := OlderContexts(s.extensions, first, count, message);
        var mid := InTwo(s, s.revision, [Plain(EditQueue(message, parts, delivery))], ReserveOps(older), s');
        OneOf(s, s.revision, EditQueue(message, parts, delivery), mid);
        EditIs(s, s.revision, message, parts, delivery, mid);
        ReservesAreUpdates(older);
        JournalOnlyLeaves(mid, s.revision, Expand(ReserveOps(older)), s');
    }
  }

  lemma {:induction false} EditIs(s: Snapshot, expected: Revision, id: MessageID, parts: seq<nat>, delivery: Delivery,
                                  s': Snapshot)
    requires ApplyChange(s, expected, EditQueue(id, parts, delivery)) == Ok(s')
    ensures var i := QueueIndex(s.queue, id);
            i < |s.queue| && s' == s.(queue := s.queue[i := Edited(s.queue[i], parts, delivery)])
  {
  }

  lemma {:induction false} ReservesAreUpdates(entries: Entries)
    ensures JournalOnly(Expand(ReserveOps(entries)))
  {
    if entries != [] {
      assert ReserveOps(entries)[1..] == ReserveOps(entries[1..]);
      ReservesAreUpdates(entries[1..]);
    }
  }

  /** Later parts of the commit leave the effect. */
  lemma {:induction false} EffectStays(s: Snapshot, op: Operation, run: RunID, step: StepID, mid: Snapshot,
                                       s': Snapshot)
    requires InEffect(s, op, run, step, mid) && s'.queue == mid.queue && s'.running == mid.running
    requires s'.activeRun == mid.activeRun
    requires mid.history <= s'.history
    ensures InEffect(s, op, run, step, s')
  {
    if op.Send? && !s.running {
      var m := op.item.message.(run := run, step := step);
      var i :| |s.history| <= i < |mid.history| && mid.history[i].payload == MessagePayload(m);
      assert s'.history[i].payload == MessagePayload(m);
    }
  }

  /** What the last commit leaves in the Store. */
  lemma {:induction false} LastTakes(s: Snapshot, op: Operation, first: nat, count: nat, took: bool, run: RunID,
                                     step: StepID, s': Snapshot)
    requires JournalValid(s.extensions, s.session.id) && Ran(s.extensions, first, count, count)
    requires took ==> TargetHolds(s, op)
    requires Commits(s, Expand(LastOps(s, op, first, count, took, run, step)), s')
    ensures took ==> InEffect(s, op, run, step, s')
    ensures !took ==> s' == s.(extensions := s'.extensions, revision := s.revision + 1)
    ensures AllMarked(s', first, count, if took then EffectApplied else EffectDiscarded)
  {
    RanInside(s.extensions, first, count, count);
    hide *;
    var last := Published(s, Expand(LastOps(s, op, first, count, took, run, step)), s');
    LastMarks(s, op, first, count, took, run, step, last);
    SameMarks(last, s', first, count, if took then EffectApplied else EffectDiscarded);
    if took {
      TookTakes(s, op, first, count, run, step, last);
      EffectStays(s, op, run, step, last, s');
    } else {
      DroppedJournalOnly(s, op, first, count, run, step);
      JournalOnlyCommits(s, Expand(LastOps(s, op, first, count, false, run, step)), s');
    }
  }

  /** A commit publishes what its changes lead to, at the next revision. */
  lemma {:induction false} Published(s: Snapshot, changes: seq<Change>, s': Snapshot) returns (last: Snapshot)
    requires Commits(s, changes, s')
    ensures ApplyAll(s, s.revision, changes) == Ok(last) && s' == last.(revision := last.revision + 1)
  {
    last := ApplyAll(s, s.revision, changes).value;
  }

  lemma {:induction false} SameMarks(last: Snapshot, s': Snapshot, first: nat, count: nat, effect: Effect)
    requires AllMarked(last, first, count, effect) && s'.extensions == last.extensions
    ensures AllMarked(s', first, count, effect)
  {
  }

  lemma {:induction false} TookTakes(s: Snapshot, op: Operation, first: nat, count: nat, run: RunID, step: StepID,
                                     last: Snapshot)
    requires first + count <= |s.extensions| && TargetHolds(s, op)
    requires ApplyAll(s, s.revision, Expand(LastOps(s, op, first, count, true, run, step))) == Ok(last)
    ensures InEffect(s, op, run, step, last)
  {
    hide *;
    var how := HowSettled(s, op, true);
    var effect, entries := EffectOps(s, op, first, count, run, step),
      EntryOps(s.extensions, first, first + count, how, run, step);
    LastIs(s, op, first, count, true, run, step);
    var mid := InTwo(s, s.revision, effect, entries, last);
    EntryOpsUpdate(s.extensions, first, first + count, how, run, step);
    ContextChangesLeave(mid, s.revision, Expand(entries), last);
    EffectTakes(s, op, first, count, run, step, mid);
    EffectStays(s, op, run, step, mid, last);
  }

  /** Every gate of the input carries the effect that the commit gives it. */
  lemma {:induction false} LastMarks(s: Snapshot, op: Operation, first: nat, count: nat, took: bool, run: RunID,
                                     step: StepID, last: Snapshot)
    requires JournalValid(s.extensions, s.session.id) && Ran(s.extensions, first, count, count)
    requires ApplyAll(s, s.revision, Expand(LastOps(s, op, first, count, took, run, step))) == Ok(last)
    ensures AllMarked(last, first, count, if took then EffectApplied else EffectDiscarded)
  {
    hide *;
    RanInside(s.extensions, first, count, count);
    var how := HowSettled(s, op, took);
    var mark := if took then EffectApplied else EffectDiscarded;
    var changes := Expand(LastOps(s, op, first, count, took, run, step));
    HowMarks(s, op, took);
    ChangesDescend(s, s.revision, changes, last);
    forall i | first <= i < first + count ensures last.extensions[i].effect == mark {
      AcceptedMarks(s.extensions, s.session.id, first, count, i, how, mark);
      MarksMeans(s.extensions, i, how, mark);
      EntryInLast(s, op, first, count, took, run, step, i);
      EffectSticks(s, s.revision, changes, last, SettledAs(s.extensions[i], i, how));
    }
    AllMarkedIs(last, first, count, mark);
  }

  lemma {:induction false} HowMarks(s: Snapshot, op: Operation, took: bool)
    ensures HowSettled(s, op, took) == Dropping(-1) <==> !took
    ensures HowSettled(s, op, took).Dropping? ==> HowSettled(s, op, took) == Dropping(-1)
  {
  }

  lemma {:induction false} AllMarkedIs(s: Snapshot, first: nat, count: nat, effect: Effect)
    requires first + count <= |s.extensions|
    requires forall i :: first <= i < first + count ==> s.extensions[i].effect == effect
    ensures AllMarked(s, first, count, effect)
  {
  }

  lemma {:induction false} LastIs(s: Snapshot, op: Operation, first: nat, count: nat, took: bool, run: RunID,
                                  step: StepID)
    requires first + count <= |s.extensions|
    ensures LastOps(s, op, first, count, took, run, step) ==
            (if took then EffectOps(s, op, first, count, run, step) else [])
            + EntryOps(s.extensions, first, first + count, HowSettled(s, op, took), run, step)
  {
  }

  lemma {:induction false} EntryInLast(s: Snapshot, op: Operation, first: nat, count: nat, took: bool, run: RunID,
                                       step: StepID, i: nat)
    requires first + count <= |s.extensions| && first <= i < first + count && IsOpen(s.extensions[i])
    ensures UpdateExtensionJournal(SettledAs(s.extensions[i], i, HowSettled(s, op, took)))
              in Expand(LastOps(s, op, first, count, took, run, step))
  {
    hide *;
    var how := HowSettled(s, op, took);
    var effect := if took then EffectOps(s, op, first, count, run, step) else [];
    var entries := EntryOps(s.extensions, first, first + count, how, run, step);
    LastIs(s, op, first, count, took, run, step);
    EntryOpsUpdate(s.extensions, first, first + count, how, run, step);
    LogHas(s.extensions, first, first + count, how, i);
    LogInUpdates(Expand(entries), SettledAs(s.extensions[i], i, how));
    ExpandConcat(effect, entries);
  }

  /** The update of entry `i` carries the effect. */
  ghost predicate Marks(journal: Entries, i: nat, how: Settling, effect: Effect) {
    && i < |journal| && IsOpen(journal[i])
    && SettledAs(journal[i], i, how).identity.sequence == i + 1 && SettledAs(journal[i], i, how).effect == effect
  }

  lemma {:induction false} MarksMeans(journal: Entries, i: nat, how: Settling, effect: Effect)
    requires Marks(journal, i, how, effect)
    ensures i < |journal| && IsOpen(journal[i])
    ensures SettledAs(journal[i], i, how).identity.sequence == i + 1 && SettledAs(journal[i], i, how).effect == effect
  {
  }

  lemma {:induction false} AcceptedMarks(journal: Entries, sid: SessionID, first: nat, count: nat, i: nat,
                                         how: Settling, effect: Effect)
    requires JournalValid(journal, sid) && Ran(journal, first, count, count) && first <= i < first + count
    requires effect == if how == Dropping(-1) then EffectDiscarded else EffectApplied
    requires how.Dropping? ==> how == Dropping(-1)
    ensures Marks(journal, i, how, effect)
  {
    assert Accepted(journal[i]) && journal[i].identity.sequence == i + 1;
  }

  // ---------------------------------------------------------------- the whole operation

  ghost predicate AtMostOneApplied(journal: Entries, first: nat, count: nat) {
    && first + count <= |journal|
    && forall i, j :: first <= i < j < first + count ==>
         journal[i].effect == EffectDiscarded || journal[j].effect == EffectDiscarded
  }

  /** The aggregate at the last commit: anything may have happened meanwhile, except to this input's entries. */
  function Overlay(later: Entries, ran: Entries, first: nat, count: nat): (r: Entries)
    requires first + count <= |later| && first + count <= |ran|
    ensures |r| == |later|
    ensures forall i :: 0 <= i < |r| ==> r[i] == if first <= i < first + count then ran[i] else later[i]
  {
    later[..first] + ran[first..first + count] + later[first + count..]
  }

  lemma {:induction false} OverlayValid(later: Entries, ran: Entries, sid: SessionID, first: nat, count: nat)
    requires first + count <= |later| && first + count <= |ran| && JournalValid(later, sid) && JournalValid(ran, sid)
    requires forall i :: first <= i < first + count ==> later[i].identity == ran[i].identity
    ensures JournalValid(Overlay(later, ran, first, count), sid)
  {
    hide EntryValid;
  }

  lemma {:induction false} OverlayRan(later: Entries, ran: Entries, first: nat, count: nat, stop: nat)
    requires first + count <= |later| && Ran(ran, first, count, stop)
    ensures Ran(Overlay(later, ran, first, count), first, count, stop)
  {
    hide Accepted;
    hide Stopper;
    hide Dropped;
  }

  lemma {:induction false} IdentitiesStay(journal: Entries, sid: SessionID, log: Entries, after: Entries)
    requires JournalValid(journal, sid) && Reaches(journal, sid, log, after)
    ensures forall i :: 0 <= i < |journal| ==> after[i].identity == journal[i].identity
  {
    UpdatesKeepJournal(journal, sid, log);
    assert forall i :: 0 <= i < |journal| ==> Descends(journal[i], after[i]);
  }

  /** A gated input takes effect if and only if every gate accepted, the Runtime is open and the target is unchanged.
      The gates' own commits are `early`: they write `log`, which leads from `journal` to `ran`. `later` is the rest of
      the Session at the time of the last commit, and `s` the aggregate that commit meets. What the commit leaves of the
      journal is `after`. If the input took effect, its commit puts it into the aggregate and marks all its gates
      applied; the journal takes that commit unless an older context is in the way. Otherwise the commit writes to the
      journal alone and is never refused, every entry ends settled, and at most one counts as applied. */
  method Submit(journal: Entries, sid: SessionID, first: nat, gates: seq<Gate>, later: Snapshot, open: bool,
                op: Operation, run: RunID, step: StepID, now: Time)
    returns (took: bool, early: seq<Change>, last: seq<Change>, after: Entries,
             ghost log: Entries, ghost ran: Entries, ghost stop: nat, ghost s: Snapshot)
    requires JournalValid(journal, sid) && Prepared(journal, first, |gates|)
    requires forall i :: 0 <= i < |gates| ==> AnswerValid(gates[i].answer, sid)
    requires later.session.id == sid && JournalValid(later.extensions, sid) && first + |gates| <= |later.extensions|
    requires forall i :: first <= i < first + |gates| ==> later.extensions[i].identity == journal[i].identity
    ensures early == AsChanges(log) && Reaches(journal, sid, log, ran) && SameOutside(journal, ran, first, |gates|)
    ensures Ran(ran, first, |gates|, stop) && first + |gates| <= |ran|
    ensures stop == |gates| <==> forall i :: 0 <= i < |gates| ==> Passes(gates[i])
    ensures s == later.(extensions := Overlay(later.extensions, ran, first, |gates|))
    ensures AnswersTold(ran, first, gates, stop)
    ensures took <==> stop == |gates| && open && TargetHolds(later, op)
    ensures op.Send? ==> (took <==> (forall i :: 0 <= i < |gates| ==> Passes(gates[i])) && open)
    ensures op.Steer? ==>
              (took <==> (forall i :: 0 <= i < |gates| ==> Passes(gates[i])) && open
                         && later.running && later.activeRun == op.run)
    ensures op.Edit? ==>
              (took <==> (forall i :: 0 <= i < |gates| ==> Passes(gates[i])) && open
                         && StillQueued(later.queue, op.message, op.previous, op.delivery))
    ensures forall s' :: Commits(s, last, s') ==> s'.extensions == after
    ensures !took || EffectTaken(s, op, first, |gates|) ==> Reaches(s.extensions, sid, UpdatesIn(last), after)
    ensures ApplyExtensions(s.extensions, sid, UpdatesIn(last)).Ok? <==> !took || EffectTaken(s, op, first, |gates|)
    ensures |after| == |s.extensions| && forall i :: first <= i < first + |gates| ==> Settled(after[i])
    ensures took ==> last == Expand(LastOps(s, op, first, |gates|, true, run, step))
    ensures took ==> AllShaped(s, LastOps(s, op, first, |gates|, true, run, step))
    ensures took ==> forall s' :: Commits(s, last, s') ==>
                       InEffect(s, op, run, step, s') && AllMarked(s', first, |gates|, EffectApplied)
    ensures !took ==> JournalOnly(last) && SameOutside(s.extensions, after, first, |gates|)
    ensures !took ==> AtMostOneApplied(after, first, |gates|)
    ensures !took ==> forall i :: first <= i < first + |gates| ==>
                        after[i].context != ContextPending && (i != first + stop ==> after[i].effect == EffectDiscarded)
    ensures stop < |gates| ==>
              after[first + stop].effect == if gates[stop].canceled then EffectDiscarded else EffectApplied
    ensures !took ==> forall s' :: Commits(s, last, s') ==>
                        s' == s.(extensions := after, revision := s.revision + 1)
    ensures !took && Closable(later) ==> Commits(s, last, s.(extensions := after, revision := s.revision + 1))
  {
    hide *;
    var count := |gates|;
    var updates, answered, accepted, halt := ExecuteGates(journal, sid, first, gates, now);
    log, ran, stop := updates, answered, halt;
    early := AsChanges(updates);
    IdentitiesStay(journal, sid, updates, answered);
    ReachesJournal(journal, sid, updates, answered);
    RanInside(answered, first, count, halt);
    OverlayValid(later.extensions, answered, sid, first, count);
    OverlayRan(later.extensions, answered, first, count, halt);
    var at := later.(extensions := Overlay(later.extensions, answered, first, count));
    s := at;
    SameTarget(later, at.extensions, op);
    TargetExact(later, op);
    if !accepted {
      WhoDecides(later.extensions, answered, first, gates, halt, sid);
      var settled;
      settled, after := FinalizeRejected(at.extensions, sid, first, count, halt);
      took, last := false, AsChanges(settled);
      AsChangesUpdate(settled);
      RejectedOnce(at.extensions, after, first, count, halt);
      ReachesOk(at.extensions, sid, settled, after);
    } else {
      took, last, after := FinalizeAccepted(at, first, count, open, op, run, step);
      if took {
        SameSize(EffectJournal(at, op, first, count), after, first, count);
      } else {
        DroppedJournalOnly(at, op, first, count, run, step);
        SettledCounts(at.extensions, after, first, count, took);
        ReachesOk(at.extensions, sid, UpdatesIn(last), after);
      }
    }
    if !took {
      forall s' | Commits(at, last, s')
        ensures s' == at.(extensions := after, revision := at.revision + 1)
      {
        JournalOnlyCommits(at, last, s');
        CommitReaches(at, last, s');
      }
      if Closable(later) {
        UpdatesCommit(at, last, after, later);
      }
    }
  }

  /** A gate that was asked and did not accept decides; one that was not asked does not. */
  lemma {:induction false} WhoDecides(later: Entries, ran: Entries, first: nat, gates: seq<Gate>, stop: nat,
                                      sid: SessionID)
    requires stop < |gates| && AnswersTold(ran, first, gates, stop) && first + |gates| <= |later|
    requires AnswerValid(gates[stop].answer, sid)
    ensures first + |gates| <= |ran|
    ensures Decides(Overlay(later, ran, first, |gates|)[first + stop]) <==> !gates[stop].canceled
  {
  }

  lemma {:induction false} SameSize(a: Entries, b: Entries, first: nat, count: nat)
    requires SameOutside(a, b, first, count)
    ensures |a| == |b|
  {
  }

  /** A commit of updates that the journal takes is never refused. */
  lemma {:induction false} UpdatesCommit(s: Snapshot, changes: seq<Change>, after: Entries, later: Snapshot)
    requires JournalOnly(changes) && ApplyExtensions(s.extensions, s.session.id, UpdatesIn(changes)) == Ok(after)
    requires Closable(later) && s == later.(extensions := s.extensions)
    ensures Commits(s, changes, s.(extensions := after, revision := s.revision + 1))
  {
    hide *;
    UpdatesApply(s, s.revision, changes, after);
    UpdatesValid(s.extensions, s.session.id, changes);
    UpdatesAdmissible(s, changes);
    ClosesToo(s, changes, after, later);
  }

  lemma {:induction false} UpdatesValid(journal: Entries, sid: SessionID, changes: seq<Change>)
    requires JournalOnly(changes) && ApplyExtensions(journal, sid, UpdatesIn(changes)).Ok?
    ensures forall i :: 0 <= i < |changes| ==>
              changes[i].UpdateExtensionJournal? && EntryValid(changes[i].extension, sid)
  {
    forall i | 0 <= i < |changes| ensures changes[i].UpdateExtensionJournal? && EntryValid(changes[i].extension, sid) {
      assert changes[i].UpdateExtensionJournal?;
      UpdateListed(changes, i);
      if !EntryValid(changes[i].extension, sid) {
        InvalidRefused(journal, sid, UpdatesIn(changes), changes[i].extension);
      }
    }
  }

  lemma {:induction false} UpdateListed(changes: seq<Change>, i: nat)
    requires i < |changes| && changes[i].UpdateExtensionJournal?
    ensures changes[i].extension in UpdatesIn(changes)
  {
    if i < |changes| - 1 {
      assert changes[..|changes| - 1][i] == changes[i];
      UpdateListed(changes[..|changes| - 1], i);
    }
  }

  lemma {:induction false} UpdatesAdmissible(s: Snapshot, changes: seq<Change>)
    requires forall i :: 0 <= i < |changes| ==>
               changes[i].UpdateExtensionJournal? && EntryValid(changes[i].extension, s.session.id)
    ensures Admissible(s, changes)
  {
    hide EntryValid;
    assert (set i | 0 <= i < |changes| && changes[i].SetModelConfig?) == {};
    assert (set i | 0 <= i < |changes| && changes[i].AppendSessionEvent?) == {};
  }

  lemma {:induction false} ClosesToo(s: Snapshot, changes: seq<Change>, after: Entries, later: Snapshot)
    requires ApplyAll(s, s.revision, changes) == Ok(s.(extensions := after)) && Admissible(s, changes)
    requires Closable(later) && s == later.(extensions := s.extensions)
    ensures Commits(s, changes, s.(extensions := after, revision := s.revision + 1))
  {
    hide ApplyAll;
    hide Admissible;
  }

  lemma {:induction false} ReachesJournal(journal: Entries, sid: SessionID, log: Entries, after: Entries)
    requires Reaches(journal, sid, log, after)
    ensures JournalValid(after, sid) && |after| == |journal|
  {
  }

  lemma {:induction false} SameTarget(later: Snapshot, extensions: Entries, op: Operation)
    ensures TargetHolds(later.(extensions := extensions), op) == TargetHolds(later, op)
  {
  }

  lemma {:induction false} RejectedOnce(journal: Entries, after: Entries, first: nat, count: nat, stop: nat)
    requires first + count <= |journal| && SameOutside(journal, after, first, count)
    requires forall i :: first <= i < first + count && i != first + stop ==> after[i].effect == EffectDiscarded
    ensures |after| == |journal| && AtMostOneApplied(after, first, count)
  {
  }

  lemma {:induction false} SettledCounts(journal: Entries, after: Entries, first: nat, count: nat, took: bool)
    requires first + count <= |journal| && SameOutside(journal, after, first, count)
    requires forall i :: first <= i < first + count ==>
               Settled(after[i]) && after[i].effect == (if took then EffectApplied else EffectDiscarded)
    ensures |after| == |journal| && (!took ==> AtMostOneApplied(after, first, count))
  {
  }

  lemma {:induction false} DroppedJournalOnly(s: Snapshot, op: Operation, first: nat, count: nat, run: RunID,
                                              step: StepID)
    requires first + count <= |s.extensions|
    ensures JournalOnly(Expand(LastOps(s, op, first, count, false, run, step)))
  {
    var entries := EntryOps(s.extensions, first, first + count, Dropping(-1), run, step);
    assert [] + entries == entries;
    EntryOpsJournalOnly(s.extensions, first, first + count, Dropping(-1), run, step);
  }

  lemma {:induction false} JournalOnlyCommits(s: Snapshot, changes: seq<Change>, s': Snapshot)
    requires JournalOnly(changes) && Commits(s, changes, s')
    ensures s' == s.(extensions := s'.extensions, revision := s.revision + 1)
  {
    var last := ApplyAll(s, s.revision, changes).value;
    JournalOnlyLeaves(s, s.revision, changes, last);
    ChangesKeepRevision(s, s.revision, changes, last);
  }
}
