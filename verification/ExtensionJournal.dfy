/** The durable journal of extension invocations (session/extension_journal.go). */
module ExtensionJournal {
  import opened SessionTypes
  import opened ModelProtocol

  const MaxContextInputs := 16

  predicate SubjectValid(id: ExtensionIdentity) {
    match id.boundary
    case BoundaryInputGate =>
      id.message != 0 && id.run == 0 && id.step == 0 && id.target == 0 && id.call == 0 && id.goal == 0
        && id.goalVersion == 0
    case BoundaryToolPreflight =>
      id.run != 0 && id.step != 0 && id.call != 0 && id.goal == 0 && id.goalVersion == 0 && id.target == 0
    case BoundaryToolResult =>
      id.run != 0 && id.step != 0 && id.target != 0 && id.call != 0 && id.target != id.step && id.goal == 0
        && id.goalVersion == 0
    case BoundaryCompletion =>
      && id.run != 0 && id.step != 0 && id.target != 0 && id.target != id.step && id.message != 0 && id.call == 0
      && (id.goal == 0 <==> id.goalVersion == 0)
    case BoundarySessionLifecycle =>
      && id.run == 0 && id.step == 0 && id.target == 0 && id.message == 0 && id.call == 0 && id.goal == 0
      && id.goalVersion == 0
      && !id.phase.NoPhase? && (id.phase.LifecycleOpen? <==> id.openKind != 0)
  }

  predicate TimesValid(e: ExtensionEntry) {
    && e.identity.preparedAt != 0
    && (e.pendingAt == 0 || e.pendingAt >= e.identity.preparedAt)
    && (e.finishedAt == 0 || (e.finishedAt >= e.identity.preparedAt && e.finishedAt >= e.pendingAt))
  }

  predicate BoundaryResultValid(e: ExtensionEntry)
    requires e.result.Some?
  {
    var decision := e.result.value;
    var hasContext := e.context != ContextNone;
    match e.identity.boundary
    case BoundaryInputGate =>
      (decision == DecisionAccept || decision == DecisionReject) && !(decision == DecisionReject && hasContext)
    case BoundaryToolPreflight =>
      (decision == DecisionAllow || decision == DecisionDeny || decision == DecisionRequireApproval) && !hasContext
    case BoundaryToolResult => decision == DecisionNone
    case BoundarySessionLifecycle => decision == DecisionNone
    case BoundaryCompletion =>
      (decision == DecisionComplete || decision == DecisionContinue) && (decision == DecisionContinue <==> hasContext)
  }

  predicate StatusShapeValid(e: ExtensionEntry) {
    match e.status
    case InvocationPrepared =>
      e.pendingAt == 0 && e.finishedAt == 0 && e.result.None? && e.errorCode == 0 && e.errorReason == 0
        && e.effect == EffectNone
    case InvocationPending =>
      e.pendingAt != 0 && e.finishedAt == 0 && e.result.None? && e.errorCode == 0 && e.errorReason == 0
        && e.effect == EffectNone
    case InvocationSucceeded =>
      && e.finishedAt != 0 && e.effect != EffectNone
      && e.result.Some? && e.errorCode == 0 && e.errorReason == 0 && BoundaryResultValid(e)
    case _ =>
      e.finishedAt != 0 && e.effect != EffectNone && e.result.None? && e.errorCode != 0
  }

  predicate ContextInputsValid(inputs: seq<Input>, sid: SessionID) {
    && (forall i :: 0 <= i < |inputs| ==> inputs[i].Valid() && !inputs[i].PromptInput? && inputs[i].BelongsTo(sid))
    && Protocol(inputs)
  }

  predicate ContextValid(e: ExtensionEntry, sid: SessionID) {
    match e.context
    case ContextNone => e.inputs == [] && e.fingerprint.NoFingerprint?
    case ContextPending =>
      && e.status == InvocationSucceeded && (e.effect == EffectPending || e.effect == EffectApplied)
      && 0 < |e.inputs| <= MaxContextInputs && ContextInputsValid(e.inputs, sid)
      && (e.identity.boundary == BoundaryToolResult || e.identity.boundary == BoundaryCompletion ==>
            forall i :: 0 <= i < |e.inputs| ==>
              && e.inputs[i].MessageInput? && e.inputs[i].message.run == e.identity.run
              && e.inputs[i].message.step == e.identity.target && e.inputs[i].message.role == RoleUser)
      && e.fingerprint == FingerprintOf(e.inputs)
    case ContextConsumed => e.inputs == [] && e.fingerprint.FingerprintOf? && e.effect == EffectApplied
    case ContextDiscarded =>
      e.inputs == [] && e.fingerprint.FingerprintOf? && (e.effect == EffectApplied || e.effect == EffectDiscarded)
  }

  /** ExtensionJournalEntry.Validate. */
  predicate EntryValid(e: ExtensionEntry, sid: SessionID) {
    && e.identity.invocation != 0 && e.identity.sequence != 0 && e.identity.session == sid && sid != 0
    && e.identity.key != 0 && e.identity.definitionDigest != 0 && e.identity.inputDigest != 0
    && SubjectValid(e.identity)
    && (e.identity.boundary != BoundaryInputGate ==> e.identity.preparedRevision != 0)
    && TimesValid(e) && StatusShapeValid(e) && ContextValid(e, sid)
  }

  predicate SameOutcome(a: ExtensionEntry, b: ExtensionEntry) {
    && a.pendingAt == b.pendingAt && a.finishedAt == b.finishedAt && a.result == b.result
    && a.errorCode == b.errorCode && a.errorReason == b.errorReason && a.fingerprint == b.fingerprint
  }

  /** validateExtensionTransition. */
  predicate TransitionOk(current: ExtensionEntry, next: ExtensionEntry) {
    match current.status
    case InvocationPrepared =>
      && (next.status.InvocationPending? || next.status.InvocationFailed? || next.status.InvocationCanceled?)
      && (next.pendingAt != 0 ==> next.status.InvocationPending?)
      && (next.status.InvocationFailed? ==> next.effect == EffectPending)
      && (next.status.InvocationCanceled? ==> next.effect == EffectDiscarded)
    case InvocationPending =>
      next.status.Terminal() && next.pendingAt == current.pendingAt && next.effect == EffectPending
    case _ =>
      && next.status == current.status && SameOutcome(current, next)
      && (match current.effect
          case EffectPending => next.effect != EffectNone
          case EffectNone => false
          case _ => next.effect == current.effect)
      && (match current.context
          case ContextPending =>
            next.context != ContextNone && (next.context == ContextPending ==> next.inputs == current.inputs)
          case _ => next.context == current.context)
      && (current.effect != next.effect || current.context != next.context)
  }

  predicate Known(journal: seq<ExtensionEntry>, id: InvocationID) {
    exists i :: 0 <= i < |journal| && journal[i].identity.invocation == id
  }

  /** applyExtensionJournal: append the next prepared invocation, or advance an existing one. */
  function ApplyExtension(journal: seq<ExtensionEntry>, sid: SessionID,
                          next: ExtensionEntry): (r: Result<seq<ExtensionEntry>>)
  {
    if !EntryValid(next, sid) then Err(InvalidInput)
    else
      var index := next.identity.sequence - 1;
      if index == |journal| then
        if !next.status.InvocationPrepared? || Known(journal, next.identity.invocation) then Err(JournalInvariant)
        else Ok(journal + [next])
      else if index > |journal| then Err(JournalInvariant)
      else if journal[index].identity != next.identity || !TransitionOk(journal[index], next) then Err(JournalInvariant)
      else Ok(journal[index := next])
  }

  /** The standing shape of a journal: valid entries, contiguous sequences, unique invocations. */
  ghost predicate JournalValid(journal: seq<ExtensionEntry>, sid: SessionID) {
    && (forall i :: 0 <= i < |journal| ==> EntryValid(journal[i], sid) && journal[i].identity.sequence == i + 1)
    && (forall i, j :: 0 <= i < j < |journal| ==> journal[i].identity.invocation != journal[j].identity.invocation)
  }

  // ---------------------------------------------------------------- progress

  /** How far an invocation has come. Every accepted update raises it. */
  function Rank(e: ExtensionEntry): (r: nat) {
    (match e.status
     case InvocationPrepared => 0
     case InvocationPending => 1
     case _ => 2)
    + (if e.effect == EffectApplied || e.effect == EffectDiscarded then 1 else 0)
    + (if e.context == ContextConsumed || e.context == ContextDiscarded then 1 else 0)
  }

  lemma {:induction false} TransitionAdvances(current: ExtensionEntry, next: ExtensionEntry, sid: SessionID)
    requires EntryValid(current, sid) && EntryValid(next, sid)
    requires TransitionOk(current, next)
    ensures Rank(current) < Rank(next) <= 4
    ensures current.status.Terminal() ==> next.status == current.status && SameOutcome(current, next)
    ensures current.effect == EffectApplied || current.effect == EffectDiscarded ==> next.effect == current.effect
    ensures current.context == ContextConsumed || current.context == ContextDiscarded ==>
              next.context == current.context
    ensures current.status.InvocationPrepared? ==> !next.status.InvocationPrepared? && next.context != ContextPending
    ensures next.status.InvocationSucceeded? || next.status.InvocationOutcomeUnknown? ==>
              !current.status.InvocationPrepared?
    ensures current.status.InvocationPending? ==>
              next.status.Terminal() && next.pendingAt == current.pendingAt && next.effect == EffectPending
    ensures next.effect == EffectApplied ==> current.status.Terminal()
    ensures next.context == ContextPending && current.status.Terminal() ==>
              current.context == ContextPending && next.inputs == current.inputs
  {
  }

  /** What one entry may become over any number of accepted updates. */
  ghost predicate Descends(first: ExtensionEntry, later: ExtensionEntry) {
    && first.identity == later.identity
    && Rank(first) <= Rank(later)
    && (Rank(first) == Rank(later) ==> first == later)
    && (first.status.Terminal() ==> later.status == first.status && SameOutcome(first, later))
    && (first.effect == EffectApplied || first.effect == EffectDiscarded ==> later.effect == first.effect)
    && (first.context == ContextConsumed || first.context == ContextDiscarded ==> later.context == first.context)
    && (later.status.InvocationPrepared? ==> first.status.InvocationPrepared?)
    && (later.status.InvocationPending? ==> first.status.InvocationPrepared? || first.status.InvocationPending?)
  }

  ghost predicate JournalDescends(before: seq<ExtensionEntry>, after: seq<ExtensionEntry>) {
    |before| <= |after| && forall i :: 0 <= i < |before| ==> Descends(before[i], after[i])
  }

  lemma {:induction false} TransitionDescends(current: ExtensionEntry, next: ExtensionEntry, sid: SessionID)
    requires EntryValid(current, sid) && EntryValid(next, sid) && current.identity == next.identity
    requires TransitionOk(current, next)
    ensures Descends(current, next)
  {
    TransitionAdvances(current, next, sid);
  }

  lemma {:induction false} ApplyExtensionKeeps(journal: seq<ExtensionEntry>, sid: SessionID, next: ExtensionEntry)
    requires JournalValid(journal, sid)
    requires ApplyExtension(journal, sid, next).Ok?
    ensures JournalValid(ApplyExtension(journal, sid, next).value, sid)
    ensures JournalDescends(journal, ApplyExtension(journal, sid, next).value)
  {
    assert EntryValid(next, sid) && next.identity.sequence != 0;
    hide EntryValid;
    hide TransitionOk;
    hide Descends;
    var index := next.identity.sequence - 1;
    var after := ApplyExtension(journal, sid, next).value;
    forall i | 0 <= i < |journal| ensures Descends(journal[i], after[i]) {
      if i == index {
        TransitionDescends(journal[i], next, sid);
      } else {
        DescendsReflexive(journal[i]);
      }
    }
    if index == |journal| {
      assert after == journal + [next];
    } else {
      assert after == journal[index := next];
    }
  }

  lemma {:induction false} DescendsReflexive(e: ExtensionEntry)
    ensures Descends(e, e)
  {
  }

  lemma {:induction false} DescendsTransitive(a: seq<ExtensionEntry>, b: seq<ExtensionEntry>, c: seq<ExtensionEntry>)
    requires JournalDescends(a, b) && JournalDescends(b, c)
    ensures JournalDescends(a, c)
  {
    forall i | 0 <= i < |a| ensures Descends(a[i], c[i]) {
      assert Descends(a[i], b[i]) && Descends(b[i], c[i]);
    }
  }

  function ApplyExtensions(journal: seq<ExtensionEntry>, sid: SessionID,
                           updates: seq<ExtensionEntry>): (r: Result<seq<ExtensionEntry>>)
  {
    if updates == [] then Ok(journal)
    else
      var before :- ApplyExtensions(journal, sid, updates[..|updates| - 1]);
      ApplyExtension(before, sid, updates[|updates| - 1])
  }

  function UpdatesOf(updates: seq<ExtensionEntry>, sequence: nat): (r: nat) {
    if updates == [] then 0
    else
      var last := if updates[|updates| - 1].identity.sequence == sequence then 1 else 0;
      UpdatesOf(updates[..|updates| - 1], sequence) + last
  }

  /** Over any accepted run of updates the journal stays well formed and entries only move forward. */
  lemma {:induction false} UpdatesKeepJournal(journal: seq<ExtensionEntry>, sid: SessionID,
                                              updates: seq<ExtensionEntry>)
    requires JournalValid(journal, sid)
    requires ApplyExtensions(journal, sid, updates).Ok?
    ensures JournalValid(ApplyExtensions(journal, sid, updates).value, sid)
    ensures JournalDescends(journal, ApplyExtensions(journal, sid, updates).value)
  {
    if updates != [] {
      var front, last := updates[..|updates| - 1], updates[|updates| - 1];
      UpdatesKeepJournal(journal, sid, front);
      var before := ApplyExtensions(journal, sid, front).value;
      ApplyExtensionKeeps(before, sid, last);
      DescendsTransitive(journal, before, ApplyExtensions(journal, sid, updates).value);
    }
  }

  /** An invocation is updated at most as often as its rank grows: four times after being
      appended, whatever else is updated in between. */
  lemma {:induction false} AtMostFourUpdates(journal: seq<ExtensionEntry>, sid: SessionID,
                                             updates: seq<ExtensionEntry>, i: nat)
    requires JournalValid(journal, sid)
    requires ApplyExtensions(journal, sid, updates).Ok?
    ensures var after := ApplyExtensions(journal, sid, updates).value;
            if i < |journal| then
              i < |after| && UpdatesOf(updates, i + 1) <= Rank(after[i]) - Rank(journal[i]) <= 4
            else if i < |after| then UpdatesOf(updates, i + 1) <= 1 + Rank(after[i]) <= 5
            else UpdatesOf(updates, i + 1) == 0
  {
    if updates != [] {
      var front, last := updates[..|updates| - 1], updates[|updates| - 1];
      AtMostFourUpdates(journal, sid, front, i);
      UpdatesKeepJournal(journal, sid, front);
      var before := ApplyExtensions(journal, sid, front).value;
      var index := last.identity.sequence - 1;
      if index < |before| {
        TransitionAdvances(before[index], last, sid);
      }
    }
  }

  // ---------------------------------------------------------------- crash recovery

  /** The in-place rewrite of one entry by recoverAggregate. */
  function RecoverEntry(e: ExtensionEntry, now: Time, code: nat, reason: nat): (r: ExtensionEntry) {
    if e.status.InvocationPending? then
      e.(status := InvocationOutcomeUnknown, finishedAt := if now < e.pendingAt then e.pendingAt else now,
         errorCode := code, errorReason := reason, effect := EffectPending)
    else e
  }

  /** Recovery moves a pending entry exactly as a journal update could have moved it. */
  lemma {:induction false} RecoverEntryIsLegal(e: ExtensionEntry, now: Time, code: nat, reason: nat, sid: SessionID)
    requires EntryValid(e, sid) && code != 0
    ensures var r := RecoverEntry(e, now, code, reason);
            && EntryValid(r, sid) && Descends(e, r) && !r.status.InvocationPending?
            && (e.status.InvocationPending? ==> TransitionOk(e, r) && r.status.InvocationOutcomeUnknown?)
            && (!e.status.InvocationPending? ==> r == e)
  {
  }
}
