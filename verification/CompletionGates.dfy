/** Completion gates: the gates a Run passes before it may end (standardagent/runtime_completion.go
    executeCompletionOccurrence, completionSteerPending, finalizeCompletionOccurrence, settleCompletionAbort,
    settleCompletionFailure).

    A gate's answer and the next gate's mark are written in one commit. An occurrence that is aborted after that leaves
    the marked gate pending, and one that is cut short by a Cancel or Close seen under the lock leaves everything as it
    stands. So not every occurrence settles all its entries; the main result says which do, from its inputs alone.
    No commit fails here. */
module CompletionGates {
  import opened SessionTypes
  import opened ExtensionJournal
  import opened AggregateInvariant
  import opened RuntimeCommits
  import opened InputGates
  import opened HookSettling

  /** What a completion gate answered. */
  datatype Verdict =
    | Completes
    | Continues(inputs: seq<Input>)
    | Fails(status: InvocationStatus, code: nat)

  /** CompletionResult.Validate for the entry's view. */
  predicate VerdictValid(e: ExtensionEntry, v: Verdict, sid: SessionID) {
    match v
    case Completes => true
    case Continues(inputs) =>
      && 0 < |inputs| <= MaxContextInputs && ContextInputsValid(inputs, sid)
      && forall i :: 0 <= i < |inputs| ==>
           && inputs[i].MessageInput? && inputs[i].message.role == RoleUser
           && inputs[i].message.run == e.identity.run && inputs[i].message.step == e.identity.target
    case Fails(status, code) =>
      (status.InvocationFailed? || status.InvocationCanceled? || status.InvocationOutcomeUnknown?) && code != 0
  }

  function Judged(e: ExtensionEntry, v: Verdict, now: Time): (r: ExtensionEntry) {
    var t := e.(finishedAt := Later(now, e.pendingAt), effect := EffectPending);
    match v
    case Fails(status, code) => t.(status := status, errorCode := code)
    case Completes => t.(status := InvocationSucceeded, result := Some(DecisionComplete))
    case Continues(inputs) =>
      t.(status := InvocationSucceeded, result := Some(DecisionContinue), context := ContextPending,
         inputs := inputs, fingerprint := FingerprintOf(inputs))
  }

  /** The entry holds what the gate answered. */
  predicate Told(e: ExtensionEntry, v: Verdict) {
    match v
    case Completes => e.status.InvocationSucceeded? && e.result == Some(DecisionComplete)
    case Continues(inputs) =>
      e.status.InvocationSucceeded? && e.result == Some(DecisionContinue) && e.fingerprint == FingerprintOf(inputs)
    case Fails(status, code) => e.status == status && e.errorCode == code
  }

  lemma {:induction false} JudgedTold(e: ExtensionEntry, v: Verdict, now: Time, sid: SessionID)
    requires EntryValid(e, sid) && e.status.InvocationPending?
    ensures Told(Judged(e, v, now), v)
    ensures v.Continues? ==> Judged(e, v, now).context.ContextPending? && Judged(e, v, now).inputs == v.inputs
  {
  }

  /** Whatever had been answered in `a` has the same answer in `b`. */
  ghost predicate SameAnswers(a: Entries, b: Entries) {
    && |a| == |b|
    && forall i :: 0 <= i < |a| && a[i].status.Terminal() ==>
         && b[i].status == a[i].status && b[i].result == a[i].result && b[i].errorCode == a[i].errorCode
         && b[i].fingerprint == a[i].fingerprint
  }

  lemma {:induction false} StillTold(a: Entries, b: Entries, i: nat, v: Verdict)
    requires SameAnswers(a, b) && i < |a| && Told(a[i], v) && a[i].status.Terminal()
    ensures Told(b[i], v) && b[i].status.Terminal()
  {
  }

  lemma {:induction false} AnswersChain(a: Entries, b: Entries, c: Entries)
    requires SameAnswers(a, b) && SameAnswers(b, c)
    ensures SameAnswers(a, c)
  {
  }

  lemma {:induction false} SettleKeepsAnswers(a: Entries, b: Entries, first: nat, end: nat, how: Settling)
    requires |a| == |b|
    requires forall i :: 0 <= i < |a| ==> b[i] == if first <= i < end then SettledAs(a[i], i, how) else a[i]
    ensures SameAnswers(a, b)
  {
  }

  lemma {:induction false} SkipKeepsAnswers(a: Entries, b: Entries, start: nat, end: nat, t: Time)
    requires |a| == |b| && forall i :: 0 <= i < |a| && start <= i < end ==> a[i].status.InvocationPrepared?
    requires forall i :: 0 <= i < |a| ==> b[i] == if start <= i < end then Skipped(a[i], t) else a[i]
    ensures SameAnswers(a, b)
  {
  }

  lemma {:induction false} OneKeepsAnswers(a: Entries, i: nat, e: ExtensionEntry)
    requires i < |a| && !a[i].status.Terminal()
    ensures SameAnswers(a, a[i := e])
  {
  }

  predicate IsCompletion(e: ExtensionEntry) {
    e.identity.boundary == BoundaryCompletion
  }

  lemma {:induction false} JudgedLegal(e: ExtensionEntry, v: Verdict, now: Time, sid: SessionID)
    requires EntryValid(e, sid) && IsCompletion(e) && e.status.InvocationPending? && VerdictValid(e, v, sid)
    ensures Legal(e, Judged(e, v, now), sid) && IsOpen(Judged(e, v, now))
  {
  }

  // ---------------------------------------------------------------- one occurrence

  /** What is noticed before a gate. `Yields`: the Run's context was canceled, or a steer is waiting; the occurrence
      is aborted and settled. `Cuts`: a Cancel or Close that came after the context was looked at is seen under the
      lock; the occurrence returns at once. */
  datatype Look = Clear | Yields | Cuts

  /** One gate: what is noticed before it, and its answer. */
  datatype Visit = Visit(look: Look, verdict: Verdict)

  datatype Outcome = Applied | Aborted(at: nat) | CutShort(at: nat) | Failed(at: nat)

  /** The entries of an occurrence: answered ones up to `k`, the marked one at `k` unless the occurrence has only just
      begun, and untouched ones behind it. */
  ghost predicate Standing(journal: Entries, sid: SessionID, first: nat, count: nat, k: nat, log: Entries,
                           now: Entries) {
    && k < count && Reaches(journal, sid, log, now) && SameOutside(journal, now, first, count) && first + count <= |now|
    && (forall i :: first <= i < first + count ==> IsCompletion(now[i]) && now[i].identity == journal[i].identity)
    && (forall i :: first <= i < first + k ==> IsOpen(now[i]))
    && (if k == 0 then now[first].status.InvocationPrepared? else now[first + k].status.InvocationPending?)
    && (forall i :: first + k < i < first + count ==> now[i].status.InvocationPrepared?)
  }

  ghost predicate Fresh(journal: Entries, first: nat, count: nat) {
    && first + count <= |journal|
    && forall i :: first <= i < first + count ==> IsCompletion(journal[i]) && journal[i].status.InvocationPrepared?
  }

  ghost predicate AllSettled(journal: Entries, first: nat, count: nat) {
    first + count <= |journal| && forall i :: first <= i < first + count ==> Settled(journal[i])
  }

  /** All entries but the marked one are settled, and that one is pending. */
  ghost predicate OnePending(journal: Entries, first: nat, count: nat, k: nat) {
    && first + count <= |journal| && k < count && journal[first + k].status.InvocationPending?
    && forall i :: first <= i < first + count && i != first + k ==> Settled(journal[i])
  }

  /** What becomes of the answers: after a failure the failed gate counts as applied and the others are discarded;
      after an abort all are discarded but the one it leaves pending; no context waits. */
  ghost predicate Disposed(journal: Entries, first: nat, count: nat, outcome: Outcome) {
    && first + count <= |journal|
    && (outcome.Failed? || outcome.Aborted? ==>
          forall i :: first <= i < first + count && !(outcome.Aborted? && 0 < outcome.at && i == first + outcome.at) ==>
            && journal[i].context != ContextPending
            && journal[i].effect == if outcome.Failed? && i == first + outcome.at then EffectApplied
                 else EffectDiscarded)
  }

  lemma {:induction false} SettledAsSettles(e: ExtensionEntry, i: nat, how: Settling, sid: SessionID)
    requires EntryValid(e, sid) && IsOpen(e)
    ensures Settled(SettledAs(e, i, how))
    ensures how.Consuming? ==>
              SettledAs(e, i, how).effect == EffectApplied && SettledAs(e, i, how).context != ContextPending
    ensures how.Dropping? ==>
              && SettledAs(e, i, how).context != ContextPending
              && SettledAs(e, i, how).effect == if i == how.decisive then EffectApplied else EffectDiscarded
  {
    SettleLegal(e, sid);
  }

  /** Abort: recorded answers are discarded and gates not started are canceled; a marked gate is passed over. */
  method Abort(journal: Entries, sid: SessionID, first: nat, count: nat, k: nat, log: Entries, now: Entries, t: Time)
    returns (log': Entries, after: Entries)
    requires Standing(journal, sid, first, count, k, log, now)
    ensures Reaches(journal, sid, log', after) && SameOutside(journal, after, first, count)
    ensures if k == 0 then AllSettled(after, first, count) else OnePending(after, first, count, k)
    ensures Disposed(after, first, count, Aborted(k)) && SameAnswers(now, after)
  {
    StandingMeans(journal, sid, first, count, k, log, now);
    hide *;
    var a, mid := SettleEntries(now, sid, first, k, Dropping(-1));
    var start := if k == 0 then first else first + k + 1;
    var b;
    ReachesValid(now, sid, a, mid);
    b, after := CancelPrepared(mid, sid, start, first + count, t);
    LogConcat(journal, sid, log, now, a, mid);
    LogConcat(journal, sid, log + a, mid, b, after);
    AbortLeaves(journal, sid, first, count, k, log, now, mid, start, t, after);
    SettleKeepsAnswers(now, mid, first, first + k, Dropping(-1));
    SkipKeepsAnswers(mid, after, start, first + count, t);
    AnswersChain(now, mid, after);
    log' := log + a + b;
  }

  lemma {:induction false} StandingMeans(journal: Entries, sid: SessionID, first: nat, count: nat, k: nat, log: Entries,
                                         now: Entries)
    requires Standing(journal, sid, first, count, k, log, now)
    ensures k < count && first + count <= |now| && Reaches(journal, sid, log, now) && JournalValid(now, sid)
    ensures forall i :: first + k < i < first + count ==> now[i].status.InvocationPrepared?
    ensures k == 0 ==> now[first].status.InvocationPrepared?
  {
  }

  lemma {:induction false} AbortLeaves(journal: Entries, sid: SessionID, first: nat, count: nat, k: nat, log: Entries,
                                       now: Entries, mid: Entries, start: nat, t: Time, after: Entries)
    requires Standing(journal, sid, first, count, k, log, now) && |mid| == |now| && |after| == |now|
    requires JournalValid(mid, sid)
    requires forall i :: 0 <= i < |now| ==>
               mid[i] == if first <= i < first + k then SettledAs(now[i], i, Dropping(-1)) else now[i]
    requires start == if k == 0 then first else first + k + 1
    requires forall i :: 0 <= i < |now| ==>
               after[i] == if start <= i < first + count then Skipped(mid[i], t) else mid[i]
    ensures SameOutside(journal, after, first, count)
    ensures if k == 0 then AllSettled(after, first, count) else OnePending(after, first, count, k)
    ensures Disposed(after, first, count, Aborted(k))
  {
    hide SettledAs;
    hide Skipped;
    hide EntryValid;
    hide Reaches;
    hide JournalValid;
    hide IsOpen;
    hide IsCompletion;
    hide Settled;
    ReachesValid(journal, sid, log, now);
    forall i | first <= i < first + count && (k == 0 || i != first + k)
      ensures Settled(after[i]) && after[i].effect == EffectDiscarded && after[i].context != ContextPending
    {
      ValidAt(now, sid, i);
      ValidAt(mid, sid, i);
      if i < first + k {
        SettledAsSettles(now[i], i, Dropping(-1), sid);
      } else {
        SkippedSettles(mid[i], t, sid);
      }
    }
  }

  lemma {:induction false} ValidAt(journal: Entries, sid: SessionID, i: nat)
    requires JournalValid(journal, sid) && i < |journal|
    ensures EntryValid(journal[i], sid)
  {
  }

  lemma {:induction false} SkippedSettles(e: ExtensionEntry, t: Time, sid: SessionID)
    requires EntryValid(e, sid) && e.status.InvocationPrepared?
    ensures Settled(Skipped(e, t)) && Skipped(e, t).effect == EffectDiscarded
    ensures Skipped(e, t).context != ContextPending
  {
    SkipLegal(e, t, sid);
  }

  /** A gate failed: its own effect is applied, the answers before it are discarded and the rest canceled. */
  method Fail(journal: Entries, sid: SessionID, first: nat, count: nat, k: nat, log: Entries, now: Entries, t: Time)
    returns (log': Entries, after: Entries)
    requires k < count && first + count <= |now| && Reaches(journal, sid, log, now)
    requires SameOutside(journal, now, first, count)
    requires forall i :: first <= i < first + k + 1 ==> IsOpen(now[i])
    requires forall i :: first + k < i < first + count ==> now[i].status.InvocationPrepared?
    ensures Reaches(journal, sid, log', after) && SameOutside(journal, after, first, count)
    ensures AllSettled(after, first, count)
    ensures Disposed(after, first, count, Failed(k)) && SameAnswers(now, after)
  {
    assert JournalValid(now, sid);
    var a, mid := SettleEntries(now, sid, first, k + 1, Dropping(first + k));
    assert JournalValid(mid, sid);
    var b;
    b, after := CancelPrepared(mid, sid, first + k + 1, first + count, t);
    LogConcat(journal, sid, log, now, a, mid);
    LogConcat(journal, sid, log + a, mid, b, after);
    FailLeaves(journal, sid, first, count, k, now, mid, t, after);
    SettleKeepsAnswers(now, mid, first, first + k + 1, Dropping(first + k));
    SkipKeepsAnswers(mid, after, first + k + 1, first + count, t);
    AnswersChain(now, mid, after);
    log' := log + a + b;
  }

  lemma {:induction false} FailLeaves(journal: Entries, sid: SessionID, first: nat, count: nat, k: nat,
                                      now: Entries, mid: Entries, t: Time, after: Entries)
    requires k < count && first + count <= |now| && JournalValid(now, sid) && SameOutside(journal, now, first, count)
    requires |mid| == |now| && |after| == |now| && JournalValid(mid, sid)
    requires forall i :: first <= i < first + k + 1 ==> IsOpen(now[i])
    requires forall i :: first + k < i < first + count ==> now[i].status.InvocationPrepared?
    requires forall i :: 0 <= i < |now| ==>
               mid[i] == if first <= i < first + k + 1 then SettledAs(now[i], i, Dropping(first + k)) else now[i]
    requires forall i :: 0 <= i < |now| ==>
               after[i] == if first + k + 1 <= i < first + count then Skipped(mid[i], t) else mid[i]
    ensures SameOutside(journal, after, first, count) && AllSettled(after, first, count)
    ensures Disposed(after, first, count, Failed(k))
  {
    forall i | first <= i < first + count
      ensures Settled(after[i]) && after[i].context != ContextPending
      ensures after[i].effect == if i == first + k then EffectApplied else EffectDiscarded
    {
      assert EntryValid(now[i], sid) && EntryValid(mid[i], sid);
      if i <= first + k {
        SettledAsSettles(now[i], i, Dropping(first + k), sid);
      } else {
        SkippedSettles(mid[i], t, sid);
      }
    }
    hide SettledAs;
    hide Skipped;
    hide EntryValid;
  }

  // ---------------------------------------------------------------- the loop

  lemma {:induction false} StandingStart(journal: Entries, sid: SessionID, first: nat, count: nat)
    requires JournalValid(journal, sid) && Fresh(journal, first, count) && count > 0
    ensures Standing(journal, sid, first, count, 0, [], journal)
  {
  }

  /** The mark of the first gate, or the one the answer before it brought along. */
  method MarkFirst(journal: Entries, sid: SessionID, first: nat, count: nat, k: nat, log: Entries, now: Entries,
                   t: Time)
    returns (log': Entries, now': Entries)
    requires Standing(journal, sid, first, count, k, log, now)
    ensures Marked(journal, sid, first, count, k, log', now') && SameAnswers(now, now')
  {
    if k > 0 { return log, now; }
    var e := now[first];
    assert EntryValid(e, sid);
    BeginLegal(e, t, sid);
    ReachesOne(journal, sid, log, now, first, Pended(e, t));
    return log + [Pended(e, t)], now[first := Pended(e, t)];
  }

  /** As Standing, with gate `k` marked in any case. */
  ghost predicate Marked(journal: Entries, sid: SessionID, first: nat, count: nat, k: nat, log: Entries, now: Entries) {
    && k < count && Reaches(journal, sid, log, now) && SameOutside(journal, now, first, count) && first + count <= |now|
    && (forall i :: first <= i < first + count ==> IsCompletion(now[i]) && now[i].identity == journal[i].identity)
    && (forall i :: first <= i < first + k ==> IsOpen(now[i]))
    && now[first + k].status.InvocationPending?
    && (forall i :: first + k < i < first + count ==> now[i].status.InvocationPrepared?)
  }

  /** The gate's answer at its entry. */
  lemma {:induction false} AnswerReached(journal: Entries, sid: SessionID, first: nat, count: nat, k: nat,
                                         log: Entries, now: Entries, v: Verdict, t: Time)
    requires Marked(journal, sid, first, count, k, log, now) && VerdictValid(journal[first + k], v, sid)
    ensures var d := Judged(now[first + k], v, t);
            && IsOpen(d) && Legal(now[first + k], d, sid) && EntryValid(d, sid)
            && Reaches(journal, sid, log + [d], now[first + k := d])
  {
    var e := now[first + k];
    assert EntryValid(e, sid);
    assert VerdictValid(e, v, sid);
    JudgedLegal(e, v, t, sid);
    ReachesOne(journal, sid, log, now, first + k, Judged(e, v, t));
  }

  /** A passed gate and the mark of the next one, in one commit. */
  lemma {:induction false} PassReached(journal: Entries, sid: SessionID, first: nat, count: nat, k: nat,
                                       log: Entries, now: Entries, v: Verdict, t: Time)
    requires Marked(journal, sid, first, count, k, log, now) && VerdictValid(journal[first + k], v, sid)
    requires k + 1 < count
    ensures var d, m := Judged(now[first + k], v, t), Pended(now[first + k + 1], t);
            Standing(journal, sid, first, count, k + 1, log + [d] + [m], now[first + k := d][first + k + 1 := m])
  {
    var d, e := Judged(now[first + k], v, t), now[first + k + 1];
    NextPrepared(journal, sid, first, count, k, log, now);
    AnswerReached(journal, sid, first, count, k, log, now, v, t);
    BeginLegal(e, t, sid);
    JudgedKeeps(now[first + k], v, t);
    PendedKeeps(e, t);
    hide Legal;
    hide EntryValid;
    hide Judged;
    hide Pended;
    hide VerdictValid;
    var mid := now[first + k := d];
    ReachesOne(journal, sid, log + [d], mid, first + k + 1, Pended(e, t));
    PassStands(journal, sid, first, count, k, log, now, d, Pended(e, t), log + [d] + [Pended(e, t)]);
  }

  lemma {:induction false} NextPrepared(journal: Entries, sid: SessionID, first: nat, count: nat, k: nat, log: Entries,
                                        now: Entries)
    requires Marked(journal, sid, first, count, k, log, now) && k + 1 < count
    ensures EntryValid(now[first + k + 1], sid) && now[first + k + 1].status.InvocationPrepared?
  {
  }

  lemma {:induction false} JudgedKeeps(e: ExtensionEntry, v: Verdict, t: Time)
    ensures Judged(e, v, t).identity == e.identity
  {
  }

  lemma {:induction false} PendedKeeps(e: ExtensionEntry, t: Time)
    ensures Pended(e, t).identity == e.identity && Pended(e, t).status.InvocationPending?
  {
  }

  lemma {:induction false} PassStands(journal: Entries, sid: SessionID, first: nat, count: nat, k: nat, log: Entries,
                                      now: Entries, d: ExtensionEntry, m: ExtensionEntry, log': Entries)
    requires Marked(journal, sid, first, count, k, log, now) && k + 1 < count
    requires IsOpen(d) && d.identity == now[first + k].identity && m.status.InvocationPending?
    requires m.identity == now[first + k + 1].identity
    requires Reaches(journal, sid, log', now[first + k := d][first + k + 1 := m])
    ensures Standing(journal, sid, first, count, k + 1, log', now[first + k := d][first + k + 1 := m])
  {
    hide Reaches;
    hide IsOpen;
  }

  predicate PassesGate(v: Visit) {
    v.look.Clear? && !v.verdict.Fails?
  }

  /** How gate `k` ends an occurrence that does not pass it. */
  function StopAt(v: Visit, k: nat): (r: Outcome)
    requires !PassesGate(v)
  {
    match v.look
    case Yields => Aborted(k)
    case Cuts => CutShort(k)
    case Clear => Failed(k)
  }

  /** The outcome from gate `k` on, read off the inputs. */
  function OutcomeFrom(gates: seq<Visit>, k: nat, interrupted: bool): (r: Outcome)
    requires k <= |gates|
    decreases |gates| - k
  {
    if k == |gates| then (if interrupted then Aborted(k) else Applied)
    else if PassesGate(gates[k]) then OutcomeFrom(gates, k + 1, interrupted)
    else StopAt(gates[k], k)
  }

  /** Gate `k` is reached. */
  predicate Reached(gates: seq<Visit>, k: nat) {
    k < |gates| && forall i :: 0 <= i < k ==> PassesGate(gates[i])
  }

  /** The inputs on which an occurrence leaves entries unsettled: it is cut short before some gate, or aborted before
      one other than the first. */
  ghost predicate LeavesUnsettled(gates: seq<Visit>) {
    exists k: nat :: Reached(gates, k) && (gates[k].look.Cuts? || (gates[k].look.Yields? && k > 0))
  }

  /** The outcome is the stop of the first gate that is not passed. */
  lemma {:induction false} OutcomeOfStop(gates: seq<Visit>, k: nat, interrupted: bool)
    requires k <= |gates| && forall i :: 0 <= i < k ==> PassesGate(gates[i])
    ensures var o := OutcomeFrom(gates, k, interrupted);
            && (o.Applied? <==> (forall i :: 0 <= i < |gates| ==> PassesGate(gates[i])) && !interrupted)
            && (LeavesUnsettled(gates) <==> o.CutShort? || (o.Aborted? && 0 < o.at < |gates|))
            && (o.CutShort? ==> o.at < |gates|)
    decreases |gates| - k
  {
    if k < |gates| && PassesGate(gates[k]) {
      OutcomeOfStop(gates, k + 1, interrupted);
    } else if k < |gates| {
      assert Reached(gates, k);
      assert forall j: nat :: Reached(gates, j) && j > k ==> PassesGate(gates[k]);
    }
  }

  /** executeCompletionOccurrence and finalizeCompletionOccurrence for a new occurrence. `interrupted` is an abort
      seen only at the end; `goal` says whether a Goal decision is recorded in between, which makes the last answer
      durable first. Every update is accepted. All entries end settled if and only if the occurrence is neither cut
      short nor aborted before a gate other than the first. Otherwise exactly the marked gate stays pending, or
      everything stays as it stood. */
  method RunGates(journal: Entries, sid: SessionID, first: nat, gates: seq<Visit>,
                  interrupted: bool, goal: bool, t: Time)
    returns (log: Entries, after: Entries, outcome: Outcome)
    requires JournalValid(journal, sid) && Fresh(journal, first, |gates|) && |gates| > 0
    requires forall i :: 0 <= i < |gates| ==> VerdictValid(journal[first + i], gates[i].verdict, sid)
    ensures Reaches(journal, sid, log, after) && SameOutside(journal, after, first, |gates|)
    ensures outcome == OutcomeFrom(gates, 0, interrupted)
    ensures outcome.Applied? <==> (forall i :: 0 <= i < |gates| ==> PassesGate(gates[i])) && !interrupted
    ensures outcome.Applied? ==> AllApplied(after, first, |gates|)
    ensures AllSettled(after, first, |gates|) <==> !LeavesUnsettled(gates)
    ensures outcome.Aborted? && 0 < outcome.at < |gates| ==> OnePending(after, first, |gates|, outcome.at)
    ensures outcome.CutShort? ==> Standing(journal, sid, first, |gates|, outcome.at, log, after)
    ensures Disposed(after, first, |gates|, outcome)
    ensures forall i: nat :: Reached(gates, i) && gates[i].look.Clear? ==>
              AnsweredAt(after, first, gates[i], i)
  {
    hide *;
    OutcomeOfStop(gates, 0, interrupted);
    StandingStart(journal, sid, first, |gates|);
    NoneAnswered(journal, first, gates);
    log, after := [], journal;
    var n := |gates|;
    for k := 0 to n - 1
      invariant Standing(journal, sid, first, n, k, log, after)
      invariant OutcomeFrom(gates, 0, interrupted) == OutcomeFrom(gates, k, interrupted)
      invariant Answered(after, first, gates, k, k)
    {
      var stop;
      ghost var before := after;
      log, after, stop, outcome := VisitGate(journal, sid, first, n, k, log, after, gates[k], t);
      OutcomeStep(gates, k, interrupted);
      AnsweredOn(before, after, first, gates, k);
      if stop {
        EndsSays(journal, sid, first, n, log, after, outcome);
        AnsweredAll(after, first, gates, k);
        return;
      }
    }
    ghost var before := after;
    log, after, outcome := LastGate(journal, sid, first, n, log, after, gates[n - 1], interrupted, goal, t);
    OutcomeStep(gates, n - 1, interrupted);
    OutcomeEnd(gates, interrupted);
    EndsSays(journal, sid, first, n, log, after, outcome);
    AnsweredOn(before, after, first, gates, n - 1);
    AnsweredAll(after, first, gates, n - 1);
  }

  /** The gates before `k` passed and stand answered for good; those before `m` that were asked stand answered. */
  ghost predicate Answered(now: Entries, first: nat, gates: seq<Visit>, k: nat, m: nat) {
    && k <= m <= |gates|
    && (forall i: nat :: i < k ==> AnsweredAt(now, first, gates[i], i) && now[first + i].status.Terminal())
    && (forall i: nat :: k <= i < m && gates[i].look.Clear? ==> AnsweredAt(now, first, gates[i], i))
  }

  /** The entry of gate `i` holds what that gate answered. */
  predicate AnsweredAt(now: Entries, first: nat, gate: Visit, i: nat) {
    first + i < |now| && Told(now[first + i], gate.verdict)
  }

  lemma {:induction false} AnsweredOn(before: Entries, after: Entries, first: nat, gates: seq<Visit>, k: nat)
    requires Answered(before, first, gates, k, k) && k < |gates| && SameAnswers(before, after)
    requires gates[k].look.Clear? ==>
               && first + k < |after| && Told(after[first + k], gates[k].verdict)
               && (PassesGate(gates[k]) && k + 1 < |gates| ==> after[first + k].status.Terminal())
    ensures Answered(after, first, gates, k, k + 1)
    ensures PassesGate(gates[k]) && k + 1 < |gates| ==> Answered(after, first, gates, k + 1, k + 1)
  {
    forall i: nat | i < k ensures AnsweredAt(after, first, gates[i], i) && after[first + i].status.Terminal() {
      assert AnsweredAt(before, first, gates[i], i);
      StillTold(before, after, first + i, gates[i].verdict);
    }
    hide Told;
    hide SameAnswers;
  }

  lemma {:induction false} AnsweredAll(after: Entries, first: nat, gates: seq<Visit>, k: nat)
    requires k < |gates| && Answered(after, first, gates, k, k + 1)
    requires k + 1 == |gates| || !PassesGate(gates[k])
    ensures forall i: nat :: Reached(gates, i) && gates[i].look.Clear? ==>
              AnsweredAt(after, first, gates[i], i)
  {
    forall i: nat | Reached(gates, i) && gates[i].look.Clear?
      ensures AnsweredAt(after, first, gates[i], i)
    {
      assert i <= k;
    }
  }

  lemma {:induction false} NoneAnswered(now: Entries, first: nat, gates: seq<Visit>)
    ensures Answered(now, first, gates, 0, 0)
  {
  }

  lemma {:induction false} OutcomeStep(gates: seq<Visit>, k: nat, interrupted: bool)
    requires k < |gates|
    ensures OutcomeFrom(gates, k, interrupted) ==
            if PassesGate(gates[k]) then OutcomeFrom(gates, k + 1, interrupted) else StopAt(gates[k], k)
  {
  }

  lemma {:induction false} OutcomeEnd(gates: seq<Visit>, interrupted: bool)
    ensures OutcomeFrom(gates, |gates|, interrupted) == if interrupted then Aborted(|gates|) else Applied
  {
  }

  /** Two gates, the first of which passes, and an abort before the second: the second stays pending. */
  method AbortAfterFirst(journal: Entries, sid: SessionID, first: nat, t: Time)
    returns (after: Entries)
    requires JournalValid(journal, sid) && Fresh(journal, first, 2)
    ensures OnePending(after, first, 2, 1) && !AllSettled(after, first, 2)
  {
    var gates := [Visit(Clear, Completes), Visit(Yields, Completes)];
    var log, outcome;
    log, after, outcome := RunGates(journal, sid, first, gates, false, false, t);
    OutcomeStep(gates, 0, false);
    OutcomeStep(gates, 1, false);
    assert Reached(gates, 1);
  }

  /** One gate, and a Cancel or Close seen under the lock before it: the gate stays prepared. */
  method CutBeforeFirst(journal: Entries, sid: SessionID, first: nat, t: Time)
    returns (after: Entries)
    requires JournalValid(journal, sid) && Fresh(journal, first, 1)
    ensures first < |after| && after[first].status.InvocationPrepared? && !AllSettled(after, first, 1)
  {
    var gates := [Visit(Cuts, Completes)];
    var log, outcome;
    log, after, outcome := RunGates(journal, sid, first, gates, false, false, t);
    OutcomeStep(gates, 0, false);
    assert Reached(gates, 0);
  }

  /** Two gates, the first of which passes, and a cut before the second: the first answer stays undecided and the second
      gate pending. */
  method CutAfterFirst(journal: Entries, sid: SessionID, first: nat, t: Time)
    returns (after: Entries)
    requires JournalValid(journal, sid) && Fresh(journal, first, 2)
    ensures first + 1 < |after| && IsOpen(after[first]) && after[first + 1].status.InvocationPending?
  {
    var gates := [Visit(Clear, Completes), Visit(Cuts, Completes)];
    var log, outcome;
    log, after, outcome := RunGates(journal, sid, first, gates, false, false, t);
    OutcomeStep(gates, 0, false);
    OutcomeStep(gates, 1, false);
  }

  lemma {:induction false} AnswersSize(a: Entries, b: Entries)
    requires SameAnswers(a, b)
    ensures |a| == |b|
  {
  }

  /** One gate that is not the last. */
  method VisitGate(journal: Entries, sid: SessionID, first: nat, count: nat, k: nat,
                   log: Entries, now: Entries, gate: Visit, t: Time)
    returns (log': Entries, after: Entries, stop: bool, outcome: Outcome)
    requires Standing(journal, sid, first, count, k, log, now) && k + 1 < count
    requires VerdictValid(journal[first + k], gate.verdict, sid)
    ensures !stop <==> PassesGate(gate)
    ensures !stop ==> Standing(journal, sid, first, count, k + 1, log', after)
    ensures stop ==> Ends(journal, sid, first, count, log', after, outcome) && outcome == StopAt(gate, k)
    ensures SameAnswers(now, after)
    ensures gate.look.Clear? ==>
              && first + k < |after| && Told(after[first + k], gate.verdict)
              && (PassesGate(gate) ==> after[first + k].status.Terminal())
  {
    outcome := Applied;
    if gate.look.Yields? {
      log', after := Abort(journal, sid, first, count, k, log, now, t);
      EndsAborted(journal, sid, first, count, k, log', after);
      return log', after, true, Aborted(k);
    }
    if gate.look.Cuts? {
      return log, now, true, CutShort(k);
    }
    var log1, now1 := MarkFirst(journal, sid, first, count, k, log, now, t);
    MarkedInside(journal, sid, first, count, k, log1, now1);
    hide *;
    var d := Judged(now1[first + k], gate.verdict, t);
    PassesHere(gate, k);
    if gate.verdict.Fails? {
      log', after := FailGate(journal, sid, first, count, k, log1, now1, gate.verdict, t);
      AnswersChain(now, now1, after);
      AnswersSize(now, after);
      return log', after, true, Failed(k);
    }
    PassReached(journal, sid, first, count, k, log1, now1, gate.verdict, t);
    AnswerTold(journal, sid, first, count, k, log1, now1, gate.verdict, t);
    NextPrepared(journal, sid, first, count, k, log1, now1);
    var m := Pended(now1[first + k + 1], t);
    OneKeepsAnswers(now1[first + k := d], first + k + 1, m);
    AnswersChain(now, now1, now1[first + k := d]);
    AnswersChain(now, now1[first + k := d], now1[first + k := d][first + k + 1 := m]);
    return log1 + [d] + [m], now1[first + k := d][first + k + 1 := m], false, Applied;
  }

  lemma {:induction false} PassesHere(gate: Visit, k: nat)
    requires gate.look.Clear?
    ensures PassesGate(gate) <==> !gate.verdict.Fails?
    ensures gate.verdict.Fails? ==> StopAt(gate, k) == Failed(k)
  {
  }

  lemma {:induction false} MarkedInside(journal: Entries, sid: SessionID, first: nat, count: nat, k: nat, log: Entries,
                                        now: Entries)
    requires Marked(journal, sid, first, count, k, log, now)
    ensures k < count && first + count <= |now|
  {
  }

  /** How an occurrence ends, in terms of its outcome. */
  ghost predicate Ends(journal: Entries, sid: SessionID, first: nat, count: nat, log: Entries, after: Entries,
                       outcome: Outcome) {
    && Reaches(journal, sid, log, after) && SameOutside(journal, after, first, count)
    && Disposed(after, first, count, outcome)
    && if outcome.CutShort? then Standing(journal, sid, first, count, outcome.at, log, after)
       else if outcome.Aborted? && 0 < outcome.at < count then OnePending(after, first, count, outcome.at)
       else AllSettled(after, first, count)
  }

  lemma {:induction false} EndsAborted(journal: Entries, sid: SessionID, first: nat, count: nat, k: nat, log: Entries,
                                       after: Entries)
    requires k < count && Reaches(journal, sid, log, after) && SameOutside(journal, after, first, count)
    requires if k == 0 then AllSettled(after, first, count) else OnePending(after, first, count, k)
    requires Disposed(after, first, count, Aborted(k))
    ensures Ends(journal, sid, first, count, log, after, Aborted(k))
  {
  }

  lemma {:induction false} EndsSettled(journal: Entries, sid: SessionID, first: nat, count: nat, log: Entries,
                                       after: Entries, outcome: Outcome)
    requires Reaches(journal, sid, log, after) && SameOutside(journal, after, first, count)
    requires AllSettled(after, first, count)
    requires (outcome.Aborted? ==> outcome.at >= count) && !outcome.CutShort?
    requires Disposed(after, first, count, outcome)
    ensures Ends(journal, sid, first, count, log, after, outcome)
  {
  }

  lemma {:induction false} EndsSays(journal: Entries, sid: SessionID, first: nat, count: nat, log: Entries,
                                    after: Entries, outcome: Outcome)
    requires Ends(journal, sid, first, count, log, after, outcome)
    ensures Reaches(journal, sid, log, after) && SameOutside(journal, after, first, count) && |after| == |journal|
    ensures AllSettled(after, first, count) <==> !(outcome.CutShort? || (outcome.Aborted? && 0 < outcome.at < count))
    ensures outcome.Aborted? && 0 < outcome.at < count ==> OnePending(after, first, count, outcome.at)
    ensures outcome.CutShort? ==> Standing(journal, sid, first, count, outcome.at, log, after)
    ensures Disposed(after, first, count, outcome)
  {
    if outcome.CutShort? || (outcome.Aborted? && 0 < outcome.at < count) {
      assert !Settled(after[first + outcome.at]);
    }
  }

  method FailGate(journal: Entries, sid: SessionID, first: nat, count: nat, k: nat,
                  log: Entries, now: Entries, v: Verdict, t: Time)
    returns (log': Entries, after: Entries)
    requires Marked(journal, sid, first, count, k, log, now) && VerdictValid(journal[first + k], v, sid)
    ensures Ends(journal, sid, first, count, log', after, Failed(k))
    ensures SameAnswers(now, after) && Told(after[first + k], v)
  {
    AnswerTold(journal, sid, first, count, k, log, now, v, t);
    AnswerReached(journal, sid, first, count, k, log, now, v, t);
    hide Reaches;
    hide EntryValid;
    hide Judged;
    hide Legal;
    hide IsOpen;
    hide VerdictValid;
    var d := Judged(now[first + k], v, t);
    log', after := Fail(journal, sid, first, count, k, log + [d], now[first + k := d], t);
    EndsSettled(journal, sid, first, count, log', after, Failed(k));
    hide Told;
    hide SameAnswers;
    AnswersChain(now, now[first + k := d], after);
    StillTold(now[first + k := d], after, first + k, v);
  }

  /** The answer as recorded at its entry. */
  lemma {:induction false} AnswerTold(journal: Entries, sid: SessionID, first: nat, count: nat, k: nat,
                                      log: Entries, now: Entries, v: Verdict, t: Time)
    requires Marked(journal, sid, first, count, k, log, now) && VerdictValid(journal[first + k], v, sid)
    ensures first + k < |now|
    ensures var d := Judged(now[first + k], v, t);
            Told(d, v) && d.status.Terminal() && SameAnswers(now, now[first + k := d])
  {
    assert EntryValid(now[first + k], sid);
    JudgedTold(now[first + k], v, t, sid);
    OneKeepsAnswers(now, first + k, Judged(now[first + k], v, t));
    hide SameAnswers;
  }

  /** The last gate: its answer and the application of the whole occurrence. */
  method LastGate(journal: Entries, sid: SessionID, first: nat, count: nat,
                  log: Entries, now: Entries, gate: Visit, interrupted: bool, goal: bool, t: Time)
    returns (log': Entries, after: Entries, outcome: Outcome)
    requires count > 0 && Standing(journal, sid, first, count, count - 1, log, now)
    requires VerdictValid(journal[first + count - 1], gate.verdict, sid)
    ensures Ends(journal, sid, first, count, log', after, outcome)
    ensures outcome == if !PassesGate(gate) then StopAt(gate, count - 1) else if interrupted then Aborted(count)
              else Applied
    ensures outcome.Applied? ==> AllApplied(after, first, count)
    ensures SameAnswers(now, after)
    ensures gate.look.Clear? ==> first + count <= |after| && Told(after[first + count - 1], gate.verdict)
  {
    hide *;
    StandingInside(journal, sid, first, count, log, now);
    SameAsBefore(now);
    LookStops(gate, count - 1);
    var k := count - 1;
    if gate.look.Yields? {
      log', after := Abort(journal, sid, first, count, k, log, now, t);
      EndsAborted(journal, sid, first, count, k, log', after);
      return log', after, Aborted(k);
    }
    if gate.look.Cuts? {
      EndsCut(journal, sid, first, count, k, log, now);
      return log, now, CutShort(k);
    }
    var log1, now1 := MarkFirst(journal, sid, first, count, k, log, now, t);
    PassesHere(gate, k);
    if gate.verdict.Fails? {
      log', after := FailGate(journal, sid, first, count, k, log1, now1, gate.verdict, t);
      AnswersChain(now, now1, after);
      EndsInside(journal, sid, first, count, log', after, Failed(k));
      return log', after, Failed(k);
    }
    log', after := ApplyGates(journal, sid, first, count, log1, now1, gate.verdict, interrupted, goal, t);
    outcome := if interrupted then Aborted(count) else Applied;
    EndsSettled(journal, sid, first, count, log', after, outcome);
    AnswersChain(now, now1, after);
    EndsInside(journal, sid, first, count, log', after, outcome);
  }

  lemma {:induction false} StandingInside(journal: Entries, sid: SessionID, first: nat, count: nat, log: Entries,
                                          now: Entries)
    requires count > 0 && Standing(journal, sid, first, count, count - 1, log, now)
    ensures first + count <= |now|
  {
  }

  lemma {:induction false} SameAsBefore(now: Entries)
    ensures SameAnswers(now, now)
  {
  }

  lemma {:induction false} LookStops(gate: Visit, k: nat)
    ensures gate.look.Yields? ==> !PassesGate(gate) && StopAt(gate, k) == Aborted(k)
    ensures gate.look.Cuts? ==> !PassesGate(gate) && StopAt(gate, k) == CutShort(k)
  {
  }

  lemma {:induction false} EndsCut(journal: Entries, sid: SessionID, first: nat, count: nat, k: nat, log: Entries,
                                   now: Entries)
    requires Standing(journal, sid, first, count, k, log, now)
    ensures Ends(journal, sid, first, count, log, now, CutShort(k))
  {
  }

  lemma {:induction false} EndsInside(journal: Entries, sid: SessionID, first: nat, count: nat, log: Entries,
                                      after: Entries, outcome: Outcome)
    requires Ends(journal, sid, first, count, log, after, outcome)
    ensures first + count <= |after|
  {
  }

  ghost predicate AllApplied(journal: Entries, first: nat, count: nat) {
    first + count <= |journal|
    && forall i :: first <= i < first + count ==>
         journal[i].effect == EffectApplied && journal[i].context != ContextPending
  }

  /** finalizeCompletionOccurrence: apply and consume every answer, or discard them all when an abort is seen now. */
  method ApplyGates(journal: Entries, sid: SessionID, first: nat, count: nat,
                  log: Entries, now: Entries, v: Verdict, interrupted: bool, goal: bool, t: Time)
    returns (log': Entries, after: Entries)
    requires count > 0 && Marked(journal, sid, first, count, count - 1, log, now)
    requires VerdictValid(journal[first + count - 1], v, sid)
    ensures Reaches(journal, sid, log', after) && SameOutside(journal, after, first, count)
    ensures AllSettled(after, first, count)
    ensures !interrupted ==> AllApplied(after, first, count)
    ensures Disposed(after, first, count, if interrupted then Aborted(count) else Applied)
    ensures SameAnswers(now, after) && first + count <= |after| && Told(after[first + count - 1], v)
    ensures first + count <= |now|
    ensures var d := Judged(now[first + count - 1], v, t);
            log' == log + (if goal then [d] else []) + ApplyLog(now, d, first, count, HowApplied(interrupted), goal)
  {
    hide *;
    var how := HowApplied(interrupted);
    HowAppliedIs(interrupted);
    AnsweredReady(journal, sid, first, count, log, now, v, t);
    if goal {
      log', after := ApplyAnswered(journal, sid, first, count, log, now, v, how, t);
    } else {
      NothingAdded(log);
      log', after := ApplyUnanswered(journal, sid, first, count, log, now, v, how, t);
    }
    var answered := now[first + count - 1 := Judged(now[first + count - 1], v, t)];
    AllOfThem(journal, answered, sid, first, count, how, after);
    LastTold(journal, sid, first, count, log, now, v, t, answered, how, after);
  }

  /** Settling keeps the last answer and those before it. */
  lemma {:induction false} LastTold(journal: Entries, sid: SessionID, first: nat, count: nat, log: Entries,
                                    now: Entries, v: Verdict, t: Time, answered: Entries, how: Settling, after: Entries)
    requires count > 0 && Marked(journal, sid, first, count, count - 1, log, now)
    requires VerdictValid(journal[first + count - 1], v, sid) && first + count <= |now|
    requires answered == now[first + count - 1 := Judged(now[first + count - 1], v, t)] && |after| == |answered|
    requires forall i :: 0 <= i < |answered| ==>
               after[i] == if first <= i < first + count then SettledAs(answered[i], i, how) else answered[i]
    ensures SameAnswers(now, after) && first + count <= |after| && Told(after[first + count - 1], v)
  {
    hide *;
    AnswerTold(journal, sid, first, count, count - 1, log, now, v, t);
    SettleKeepsAnswers(answered, after, first, first + count, how);
    AnswersChain(now, answered, after);
    StillTold(answered, after, first + count - 1, v);
  }

  /** Where the occurrence stands when its last gate has answered. */
  lemma {:induction false} AnsweredReady(journal: Entries, sid: SessionID, first: nat, count: nat,
                                         log: Entries, now: Entries, v: Verdict, t: Time)
    requires count > 0 && Marked(journal, sid, first, count, count - 1, log, now)
    requires VerdictValid(journal[first + count - 1], v, sid)
    ensures first + count <= |now|
    ensures var at := first + count - 1;
            var d := Judged(now[at], v, t);
            var answered := now[at := d];
            && Reaches(journal, sid, log, now) && JournalValid(now, sid) && Legal(now[at], d, sid)
            && Reaches(journal, sid, log + [d], answered) && JournalValid(answered, sid)
            && SameOutside(journal, answered, first, count)
            && forall i :: first <= i < first + count ==> IsOpen(answered[i])
  {
    hide EntryValid;
    hide Judged;
    hide VerdictValid;
    hide Legal;
    hide IsOpen;
    hide Reaches;
    hide JournalValid;
    hide IsCompletion;
    var d := Judged(now[first + count - 1], v, t);
    AnswerReached(journal, sid, first, count, count - 1, log, now, v, t);
    ReachesValid(journal, sid, log, now);
    ReachesValid(journal, sid, log + [d], now[first + count - 1 := d]);
  }

  /** With a Goal decision in between, the last answer is durable before anything is applied. */
  method ApplyAnswered(journal: Entries, sid: SessionID, first: nat, count: nat,
                       log: Entries, now: Entries, v: Verdict, how: Settling, t: Time)
    returns (log': Entries, after: Entries)
    requires count > 0 && first + count <= |now|
    requires var d := Judged(now[first + count - 1], v, t);
             var answered := now[first + count - 1 := d];
             Reaches(journal, sid, log + [d], answered) && JournalValid(answered, sid)
    ensures Reaches(journal, sid, log', after) && |after| == |now|
    ensures var d := Judged(now[first + count - 1], v, t); log' == log + [d] + ApplyLog(now, d, first, count, how, true)
    ensures var answered := now[first + count - 1 := Judged(now[first + count - 1], v, t)];
            forall i :: 0 <= i < |now| ==>
              after[i] == if first <= i < first + count then SettledAs(answered[i], i, how) else answered[i]
  {
    ApplyLogIs(now, Judged(now[first + count - 1], v, t), first, count, how);
    hide *;
    var d := Judged(now[first + count - 1], v, t);
    var answered := now[first + count - 1 := d];
    var a;
    a, after := SettleEntries(answered, sid, first, count, how);
    LogConcat(journal, sid, log + [d], answered, a, after);
    log' := log + [d] + a;
  }

  /** Without one, the last answer is written in the commit that applies the occurrence. */
  method ApplyUnanswered(journal: Entries, sid: SessionID, first: nat, count: nat,
                         log: Entries, now: Entries, v: Verdict, how: Settling, t: Time)
    returns (log': Entries, after: Entries)
    requires count > 0 && first + count <= |now| && Reaches(journal, sid, log, now) && JournalValid(now, sid)
    requires Legal(now[first + count - 1], Judged(now[first + count - 1], v, t), sid)
    ensures Reaches(journal, sid, log', after) && |after| == |now|
    ensures log' == log + ApplyLog(now, Judged(now[first + count - 1], v, t), first, count, how, false)
    ensures var answered := now[first + count - 1 := Judged(now[first + count - 1], v, t)];
            forall i :: 0 <= i < |now| ==>
              after[i] == if first <= i < first + count then SettledAs(answered[i], i, how) else answered[i]
  {
    hide *;
    var at := first + count - 1;
    var d := Judged(now[at], v, t);
    var a, mid := SettleEntries(now, sid, first, count - 1, how);
    LogConcat(journal, sid, log, now, a, mid);
    ReachesOne(journal, sid, log + a, mid, at, d);
    var told := mid[at := d];
    ReachesValid(journal, sid, log + a + [d], told);
    var b;
    b, after := SettleEntries(told, sid, at, 1, how);
    LogConcat(journal, sid, log + a + [d], told, b, after);
    OneLog(told, now[at := d], at, how);
    ApplyLogIs(now, d, first, count, how);
    ThreeParts(log, a, [d], b);
    log' := log + a + [d] + b;
  }

  // ---------------------------------------------------------------- the apply commit

  function HowApplied(interrupted: bool): (r: Settling) {
    if interrupted then Dropping(-1) else Consuming
  }

  lemma {:induction false} HowAppliedIs(interrupted: bool)
    ensures HowApplied(interrupted).Consuming? <==> !interrupted
    ensures interrupted ==> HowApplied(interrupted) == Dropping(-1)
  {
  }

  /** The journal updates of the commit that applies (or discards) an occurrence whose last gate answered `d`. */
  function ApplyLog(now: Entries, d: ExtensionEntry, first: nat, count: nat, how: Settling, goal: bool): (r: Entries)
    requires count > 0 && first + count <= |now|
  {
    var at := first + count - 1;
    if goal then SettleLog(now[at := d], first, first + count, how)
    else SettleLog(now, first, at, how) + [d] + SettleLog(now[at := d], at, at + 1, how)
  }

  /** The operations of that commit. */
  function ApplyOps(now: Entries, d: ExtensionEntry, first: nat, count: nat, how: Settling, goal: bool, run: RunID,
                    step: StepID): (r: seq<Op>)
    requires count > 0 && first + count <= |now|
  {
    var at := first + count - 1;
    if goal then EntryOps(now[at := d], first, first + count, how, run, step)
    else
      EntryOps(now, first, at, how, run, step) + [Plain(UpdateExtensionJournal(d))]
      + EntryOps(now[at := d], at, at + 1, how, run, step)
  }

  lemma {:induction false} ApplyLogIs(now: Entries, d: ExtensionEntry, first: nat, count: nat, how: Settling)
    requires count > 0 && first + count <= |now|
    ensures ApplyLog(now, d, first, count, how, true) ==
              SettleLog(now[first + count - 1 := d], first, first + count, how)
    ensures ApplyLog(now, d, first, count, how, false) ==
            SettleLog(now, first, first + count - 1, how) + [d]
            + SettleLog(now[first + count - 1 := d], first + count - 1, first + count, how)
  {
  }

  lemma {:induction false} NothingAdded(log: Entries)
    ensures log + [] == log
  {
  }

  lemma {:induction false} ThreeParts(log: Entries, a: Entries, b: Entries, c: Entries)
    ensures log + a + b + c == log + (a + b + c)
  {
  }

  lemma {:induction false} OneLog(a: Entries, b: Entries, at: nat, how: Settling)
    requires at < |a| && |a| == |b| && a[at] == b[at]
    ensures SettleLog(a, at, at + 1, how) == SettleLog(b, at, at + 1, how)
  {
  }

  lemma {:induction false} ApplyOpsUpdate(now: Entries, d: ExtensionEntry, first: nat, count: nat, how: Settling,
                                          goal: bool, run: RunID, step: StepID)
    requires count > 0 && first + count <= |now|
    ensures UpdatesIn(Expand(ApplyOps(now, d, first, count, how, goal, run, step))) ==
              ApplyLog(now, d, first, count, how, goal)
  {
    hide *;
    var at := first + count - 1;
    var told := now[at := d];
    ApplyLogIs(now, d, first, count, how);
    ApplyOpsAre(now, d, first, count, how, run, step);
    if goal {
      EntryOpsUpdate(told, first, first + count, how, run, step);
    } else {
      var a, b := EntryOps(now, first, at, how, run, step), Plain(UpdateExtensionJournal(d));
      var c := EntryOps(told, at, at + 1, how, run, step);
      EntryOpsUpdate(now, first, at, how, run, step);
      EntryOpsUpdate(told, at, at + 1, how, run, step);
      OneUpdate(d);
      ExpandConcat(a + [b], c);
      ExpandConcat(a, [b]);
      UpdatesConcat(Expand(a + [b]), Expand(c));
      UpdatesConcat(Expand(a), Expand([b]));
    }
  }

  lemma {:induction false} ApplyOpsAre(now: Entries, d: ExtensionEntry, first: nat, count: nat, how: Settling,
                                       run: RunID, step: StepID)
    requires count > 0 && first + count <= |now|
    ensures ApplyOps(now, d, first, count, how, true, run, step) ==
            EntryOps(now[first + count - 1 := d], first, first + count, how, run, step)
    ensures ApplyOps(now, d, first, count, how, false, run, step) ==
            EntryOps(now, first, first + count - 1, how, run, step) + [Plain(UpdateExtensionJournal(d))]
            + EntryOps(now[first + count - 1 := d], first + count - 1, first + count, how, run, step)
  {
  }

  lemma {:induction false} OneUpdate(d: ExtensionEntry)
    ensures Expand([Plain(UpdateExtensionJournal(d))]) == [UpdateExtensionJournal(d)]
    ensures UpdatesIn([UpdateExtensionJournal(d)]) == [d]
  {
    ExpandOne(Plain(UpdateExtensionJournal(d)));
    assert [UpdateExtensionJournal(d)][..0] == [];
  }

  /** The apply commit has the Runtime's shape: every context it marks consumed stands behind its contribution. */
  lemma {:induction false} ApplyIsInShape(s: Snapshot, now: Entries, d: ExtensionEntry, sid: SessionID, first: nat,
                                          count: nat, how: Settling, goal: bool, run: RunID, step: StepID)
    requires count > 0 && first + count <= |now| && JournalValid(now, sid)
    requires JournalValid(now[first + count - 1 := d], sid)
    requires IsOpen(d)
    ensures AllShaped(s, ApplyOps(now, d, first, count, how, goal, run, step))
    ensures forall op :: op in ApplyOps(now, d, first, count, how, goal, run, step) ==> Quiet(op)
  {
    hide *;
    var at := first + count - 1;
    var ops := ApplyOps(now, d, first, count, how, goal, run, step);
    ApplyOpsAre(now, d, first, count, how, run, step);
    EntryOpsShaped(now, sid, first, at, how, run, step);
    EntryOpsShaped(now[at := d], sid, first, first + count, how, run, step);
    EntryOpsShaped(now[at := d], sid, at, at + 1, how, run, step);
    ValidAt(now[at := d], sid, at);
    AnswerQuiet(d, sid);
    CalllessShaped(s, ops);
  }

  lemma {:induction false} AnswerQuiet(d: ExtensionEntry, sid: SessionID)
    requires EntryValid(d, sid) && IsOpen(d)
    ensures Callless(Plain(UpdateExtensionJournal(d))) && Quiet(Plain(UpdateExtensionJournal(d)))
  {
  }

  /** retryCompletionApplyAfterGoalLocked: the selected answers that are still open, in journal order. */
  function RetryOps(journal: Entries, selected: set<InvocationID>, run: RunID, step: StepID): (r: seq<Op>) {
    if journal == [] then []
    else
      var i := |journal| - 1;
      var e := journal[i];
      RetryOps(journal[..i], selected, run, step)
      + if e.identity.invocation in selected && e.status.InvocationSucceeded? && IsOpen(e) then
        [EntryOp(e, i, Consuming, run, step)] else []
  }

  lemma {:induction false} RetryQuiet(journal: Entries, sid: SessionID, selected: set<InvocationID>, run: RunID,
                                      step: StepID)
    requires forall i :: 0 <= i < |journal| ==> EntryValid(journal[i], sid)
    ensures forall op :: op in RetryOps(journal, selected, run, step) ==> Callless(op) && Quiet(op)
  {
    if journal != [] {
      var i := |journal| - 1;
      RetryQuiet(journal[..i], sid, selected, run, step);
      if IsOpen(journal[i]) {
        EntryOpShaped(journal[i], i, Consuming, run, step, sid);
      }
      hide EntryValid;
      hide Callless;
      hide Quiet;
      hide EntryOp;
    }
  }

  /** The retried apply commit has the same shape. */
  lemma {:induction false} RetryIsInShape(s: Snapshot, selected: set<InvocationID>, run: RunID, step: StepID)
    requires JournalValid(s.extensions, s.session.id)
    ensures AllShaped(s, RetryOps(s.extensions, selected, run, step))
    ensures forall op :: op in RetryOps(s.extensions, selected, run, step) ==> Quiet(op)
  {
    assert forall i :: 0 <= i < |s.extensions| ==> EntryValid(s.extensions[i], s.session.id);
    hide *;
    RetryQuiet(s.extensions, s.session.id, selected, run, step);
    CalllessShaped(s, RetryOps(s.extensions, selected, run, step));
  }

  lemma {:induction false} ReachesValid(journal: Entries, sid: SessionID, log: Entries, now: Entries)
    requires Reaches(journal, sid, log, now)
    ensures JournalValid(now, sid) && |now| == |journal|
  {
  }

  lemma {:induction false} AllOfThem(journal: Entries, answered: Entries, sid: SessionID, first: nat, count: nat,
                                     how: Settling, after: Entries)
    requires first + count <= |answered| && JournalValid(answered, sid) && SameOutside(journal, answered, first, count)
    requires |after| == |answered|
    requires forall i :: first <= i < first + count ==> IsOpen(answered[i])
    requires forall i :: 0 <= i < |answered| ==>
               after[i] == if first <= i < first + count then SettledAs(answered[i], i, how) else answered[i]
    ensures SameOutside(journal, after, first, count) && AllSettled(after, first, count)
    ensures how.Consuming? ==> AllApplied(after, first, count)
    ensures how.Consuming? ==> Disposed(after, first, count, Applied)
    ensures how == Dropping(-1) ==> Disposed(after, first, count, Aborted(count))
  {
    forall i | first <= i < first + count
      ensures Settled(after[i])
      ensures (how.Consuming? ==> after[i].effect == EffectApplied && after[i].context != ContextPending)
      ensures (how == Dropping(-1) ==> after[i].effect == EffectDiscarded && after[i].context != ContextPending)
    {
      assert EntryValid(answered[i], sid);
      SettledAsSettles(answered[i], i, how, sid);
    }
    hide SettledAs;
    hide JournalValid;
  }
}
