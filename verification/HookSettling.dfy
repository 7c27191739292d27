/** Settling hook invocations: the loops that apply, consume or discard recorded answers, the changes they put into a
    commit, and what such a commit does to the aggregate (standardagent/runtime_input_gate_context.go,
    runtime_input_gate.go, runtime_completion.go). */
module HookSettling {
  import opened SessionTypes
  import opened ExtensionJournal
  import opened Transactions
  import opened AggregateInvariant
  import opened ProtocolHistory
  import opened RuntimeCommits
  import opened InputGates

  // ---------------------------------------------------------------- logs of updates

  ghost predicate SameOutside(a: Entries, b: Entries, first: nat, count: nat) {
    |a| == |b| && forall i :: 0 <= i < |a| && !(first <= i < first + count) ==> b[i] == a[i]
  }

  lemma {:induction false} LogConcat(journal: Entries, sid: SessionID, a: Entries, mid: Entries,
                                     b: Entries, after: Entries)
    requires Reaches(journal, sid, a, mid) && Reaches(mid, sid, b, after)
    ensures Reaches(journal, sid, a + b, after)
  {
    assert ApplyExtensions(journal, sid, a + b) == ApplyExtensions(mid, sid, b) by {
      LogSplit(journal, sid, a, mid, b);
    }
  }

  lemma {:induction false} LogSplit(journal: Entries, sid: SessionID, a: Entries, mid: Entries, b: Entries)
    requires ApplyExtensions(journal, sid, a) == Ok(mid)
    ensures ApplyExtensions(journal, sid, a + b) == ApplyExtensions(mid, sid, b)
  {
    if b == [] {
      assert a + b == a;
    } else {
      assert (a + b)[..|a + b| - 1] == a + b[..|b| - 1];
      LogSplit(journal, sid, a, mid, b[..|b| - 1]);
    }
  }

  // ---------------------------------------------------------------- canceling what was not started

  /** cancelPreparedInputGates and cancelCompletionEntries. */
  method CancelPrepared(journal: Entries, sid: SessionID, start: nat, end: nat, now: Time)
    returns (log: Entries, after: Entries)
    requires JournalValid(journal, sid) && start <= end <= |journal|
    requires forall i :: start <= i < end ==> journal[i].status.InvocationPrepared?
    ensures Reaches(journal, sid, log, after)
    ensures |after| == |journal|
    ensures forall i :: 0 <= i < |journal| ==>
              after[i] == if start <= i < end then Skipped(journal[i], now) else journal[i]
  {
    log, after := [], journal;
    assert Reaches(journal, sid, [], journal);
    assert forall i :: 0 <= i < |journal| ==> EntryValid(journal[i], sid);
    hide EntryValid;
    hide JournalValid;
    hide Reaches;
    hide Skipped;
    hide Legal;
    for i := start to end
      invariant Reaches(journal, sid, log, after) && |after| == |journal|
      invariant forall k :: 0 <= k < |journal| ==>
                  after[k] == if start <= k < i then Skipped(journal[k], now) else journal[k]
    {
      SkipLegal(journal[i], now, sid);
      ReachesOne(journal, sid, log, after, i, Skipped(journal[i], now));
      log, after := log + [Skipped(journal[i], now)], after[i := Skipped(journal[i], now)];
    }
  }

  // ---------------------------------------------------------------- settling what was answered

  /** What finalization does to an entry whose effect is still open. */
  datatype Settling = Keeping | Consuming | Dropping(decisive: int)

  /** The invocation has answered, and its answer has not taken effect. */
  predicate IsOpen(e: ExtensionEntry) {
    e.status.Terminal() && e.effect == EffectPending
  }

  function SettledAs(e: ExtensionEntry, i: nat, how: Settling): (r: ExtensionEntry) {
    if !IsOpen(e) then e
    else match how
      case Keeping => Kept(e)
      case Consuming => Used(e)
      case Dropping(decisive) => if i == decisive then Decided(e) else Discarded(e)
  }

  lemma {:induction false} SettledAsLegal(e: ExtensionEntry, i: nat, how: Settling, sid: SessionID)
    requires EntryValid(e, sid)
    ensures SettledAs(e, i, how) != e ==> Legal(e, SettledAs(e, i, how), sid)
    ensures IsOpen(e) ==> SettledAs(e, i, how) != e
  {
    if IsOpen(e) {
      SettleLegal(e, sid);
    }
  }

  /** The updates that settle the entries from `first` up to `end`, in journal order. */
  function SettleLog(journal: Entries, first: nat, end: nat, how: Settling): (r: Entries)
    requires first <= end <= |journal|
    decreases end
  {
    if end == first then []
    else
      var i := end - 1;
      SettleLog(journal, first, i, how) + if IsOpen(journal[i]) then [SettledAs(journal[i], i, how)] else []
  }

  /** The loop of finalizeRejectedInput, finalizeAcceptedInputEntries, consumeAcceptedInputEntries and
      discardAcceptedInputEntries. */
  method SettleEntries(journal: Entries, sid: SessionID, first: nat, count: nat, how: Settling)
    returns (log: Entries, after: Entries)
    requires JournalValid(journal, sid) && first + count <= |journal|
    ensures Reaches(journal, sid, log, after) && |after| == |journal|
    ensures forall i :: 0 <= i < |journal| ==>
              after[i] == if first <= i < first + count then SettledAs(journal[i], i, how) else journal[i]
    ensures log == SettleLog(journal, first, first + count, how)
  {
    log, after := [], journal;
    hide *;
    SettledNone(journal, sid, first, how);
    for i := first to first + count
      invariant SettledUpTo(journal, sid, first, i, how, log, after)
    {
      SettledOne(journal, sid, first, i, how, log, after);
      var e := after[i];
      OpenMeans(e);
      if e.status.Terminal() && e.effect == EffectPending {
        log, after := log + [SettledAs(e, i, how)], after[i := SettledAs(e, i, how)];
      }
    }
    SettledAll(journal, sid, first, first + count, how, log, after);
  }

  lemma {:induction false} OpenMeans(e: ExtensionEntry)
    ensures IsOpen(e) <==> e.status.Terminal() && e.effect == EffectPending
  {
  }

  /** The entries from `first` up to `end` have been settled, and the log says so. */
  ghost predicate SettledUpTo(journal: Entries, sid: SessionID, first: nat, end: nat, how: Settling,
                              log: Entries, after: Entries) {
    Reaches(journal, sid, log, after) && |after| == |journal| && SettledRange(journal, first, end, how, log, after)
  }

  ghost predicate SettledRange(journal: Entries, first: nat, end: nat, how: Settling, log: Entries, after: Entries)
    requires |after| == |journal|
  {
    && (forall k :: 0 <= k < |journal| ==>
          after[k] == if first <= k < end then SettledAs(journal[k], k, how) else journal[k])
    && (first <= end <= |journal| ==> log == SettleLog(journal, first, end, how))
  }

  lemma {:induction false} RangeOne(journal: Entries, first: nat, i: nat, how: Settling, log: Entries, after: Entries,
                                    log': Entries, next: ExtensionEntry)
    requires |after| == |journal| && first <= i < |journal| && SettledRange(journal, first, i, how, log, after)
    requires next == SettledAs(journal[i], i, how) && log' == log + if IsOpen(journal[i]) then [next] else []
    ensures after[i] == journal[i] && SettledRange(journal, first, i + 1, how, log', after[i := next])
  {
    hide SettledAs;
    hide IsOpen;
  }

  lemma {:induction false} SettledNone(journal: Entries, sid: SessionID, first: nat, how: Settling)
    requires JournalValid(journal, sid)
    ensures SettledUpTo(journal, sid, first, first, how, [], journal)
  {
  }

  lemma {:induction false} SettledOne(journal: Entries, sid: SessionID, first: nat, i: nat, how: Settling,
                                      log: Entries, after: Entries)
    requires JournalValid(journal, sid) && first <= i < |journal|
    requires SettledUpTo(journal, sid, first, i, how, log, after)
    ensures |after| == |journal|
    ensures var e := after[i];
            if IsOpen(e) then
              SettledUpTo(journal, sid, first, i + 1, how, log + [SettledAs(e, i, how)],
                          after[i := SettledAs(e, i, how)])
            else SettledUpTo(journal, sid, first, i + 1, how, log, after)
  {
    assert EntryValid(journal[i], sid);
    hide EntryValid;
    hide JournalValid;
    hide Reaches;
    hide SettledRange;
    hide Legal;
    var e := journal[i];
    var next := SettledAs(e, i, how);
    SettledAsLegal(e, i, how, sid);
    if IsOpen(e) {
      hide SettledAs;
      RangeOne(journal, first, i, how, log, after, log + [next], next);
      ReachesOne(journal, sid, log, after, i, next);
    } else {
      Untouched(e, i, how);
      assert log + [] == log;
      RangeOne(journal, first, i, how, log, after, log, next);
      assert after[i := next] == after;
    }
  }

  lemma {:induction false} SettledAll(journal: Entries, sid: SessionID, first: nat, end: nat, how: Settling,
                                      log: Entries, after: Entries)
    requires first <= end <= |journal| && SettledUpTo(journal, sid, first, end, how, log, after)
    ensures Reaches(journal, sid, log, after) && |after| == |journal|
    ensures forall i :: 0 <= i < |journal| ==>
              after[i] == if first <= i < end then SettledAs(journal[i], i, how) else journal[i]
    ensures log == SettleLog(journal, first, end, how)
  {
  }

  /** The journal with the entries from `first` up to `end` settled. */
  function SettledJournal(journal: Entries, first: nat, end: nat, how: Settling): (r: Entries)
    ensures |r| == |journal|
    ensures forall i :: 0 <= i < |r| ==>
              r[i] == if first <= i < end then SettledAs(journal[i], i, how) else journal[i]
  {
    seq(|journal|, i requires 0 <= i < |journal| =>
      if first <= i < end then SettledAs(journal[i], i, how) else journal[i])
  }

  /** The updates of a settling loop lead to that journal. */
  lemma {:induction false} SettleReaches(journal: Entries, sid: SessionID, first: nat, end: nat, how: Settling)
    requires JournalValid(journal, sid) && first <= end <= |journal|
    ensures SettledUpTo(journal, sid, first, end, how, SettleLog(journal, first, end, how),
                        SettledJournal(journal, first, end, how))
    ensures Reaches(journal, sid, SettleLog(journal, first, end, how), SettledJournal(journal, first, end, how))
    decreases end
  {
    hide *;
    if first == end {
      SettledNone(journal, sid, first, how);
      NothingSettled(journal, first, how);
    } else {
      var i := end - 1;
      var log, before := SettleLog(journal, first, i, how), SettledJournal(journal, first, i, how);
      SettleReaches(journal, sid, first, i, how);
      SettledOne(journal, sid, first, i, how, log, before);
      SettleLogSnoc(journal, first, i, how);
      OneMoreSettled(journal, first, i, how);
    }
    SettledAll(journal, sid, first, end, how, SettleLog(journal, first, end, how),
               SettledJournal(journal, first, end, how));
  }

  lemma {:induction false} NothingSettled(journal: Entries, first: nat, how: Settling)
    requires first <= |journal|
    ensures SettleLog(journal, first, first, how) == [] && SettledJournal(journal, first, first, how) == journal
  {
  }

  lemma {:induction false} OneMoreSettled(journal: Entries, first: nat, i: nat, how: Settling)
    requires first <= i < |journal|
    ensures SettledJournal(journal, first, i, how)[i] == journal[i]
    ensures SettledJournal(journal, first, i + 1, how) ==
            if IsOpen(journal[i]) then SettledJournal(journal, first, i, how)[i := SettledAs(journal[i], i, how)]
            else SettledJournal(journal, first, i, how)
  {
    hide SettledAs;
    if !IsOpen(journal[i]) {
      Untouched(journal[i], i, how);
    }
  }

  lemma {:induction false} SettleLogSame(a: Entries, b: Entries, first: nat, end: nat, how: Settling)
    requires first <= end <= |a| && |a| == |b| && forall i :: first <= i < end ==> a[i] == b[i]
    ensures SettleLog(a, first, end, how) == SettleLog(b, first, end, how)
    decreases end
  {
    if first < end {
      SettleLogSame(a, b, first, end - 1, how);
    }
  }

  lemma {:induction false} Untouched(e: ExtensionEntry, i: nat, how: Settling)
    requires !IsOpen(e)
    ensures SettledAs(e, i, how) == e
  {
  }

  // ---------------------------------------------------------------- updates as changes

  predicate JournalOnly(changes: seq<Change>) {
    forall i :: 0 <= i < |changes| ==> changes[i].UpdateExtensionJournal?
  }

  function AsChanges(log: Entries): (r: seq<Change>)
    ensures |r| == |log| && forall i :: 0 <= i < |r| ==> r[i] == UpdateExtensionJournal(log[i])
  {
    seq(|log|, i requires 0 <= i < |log| => UpdateExtensionJournal(log[i]))
  }

  /** Commits of journal updates alone leave Queue, History and Run as they are. */
  lemma {:induction false} JournalOnlyLeaves(s: Snapshot, expected: Revision, changes: seq<Change>, s': Snapshot)
    requires JournalOnly(changes) && ApplyAll(s, expected, changes) == Ok(s')
    ensures s' == s.(extensions := s'.extensions)
    decreases |changes|
  {
    if changes != [] {
      var mid := ApplyChange(s, expected, changes[0]).value;
      assert changes[0].UpdateExtensionJournal? && mid == s.(extensions := mid.extensions);
      JournalOnlyLeaves(mid, expected, changes[1..], s');
    }
  }

  /** The extension updates among the changes of a commit. */
  function UpdatesIn(changes: seq<Change>): (r: Entries) {
    if changes == [] then []
    else
      var c := changes[|changes| - 1];
      UpdatesIn(changes[..|changes| - 1]) + if c.UpdateExtensionJournal? then [c.extension] else []
  }

  lemma {:induction false} UpdatesConcat(a: seq<Change>, b: seq<Change>)
    ensures UpdatesIn(a + b) == UpdatesIn(a) + UpdatesIn(b)
  {
    if b == [] {
      assert a + b == a;
    } else {
      assert (a + b)[..|a + b| - 1] == a + b[..|b| - 1];
      UpdatesConcat(a, b[..|b| - 1]);
      var tail := if b[|b| - 1].UpdateExtensionJournal? then [b[|b| - 1].extension] else [];
      assert (UpdatesIn(a) + UpdatesIn(b[..|b| - 1])) + tail == UpdatesIn(a) + (UpdatesIn(b[..|b| - 1]) + tail);
    }
  }

  // ---------------------------------------------------------------- the operations of a settling commit

  /** One entry settled. A context that is consumed stands behind its contribution. */
  function EntryOp(e: ExtensionEntry, i: nat, how: Settling, run: RunID, step: StepID): (r: Op) {
    if how.Consuming? && e.context == ContextPending then
      ConsumeContext(Contribution(run, step, SourceOf(e), e.inputs), SettledAs(e, i, how))
    else Plain(UpdateExtensionJournal(SettledAs(e, i, how)))
  }

  /** The operations that settle the entries from `first` up to `end`. */
  function EntryOps(journal: Entries, first: nat, end: nat, how: Settling, run: RunID, step: StepID): (r: seq<Op>)
    requires first <= end <= |journal|
    decreases end
  {
    if end == first then []
    else
      var i := end - 1;
      EntryOps(journal, first, i, how, run, step)
      + if IsOpen(journal[i]) then [EntryOp(journal[i], i, how, run, step)] else []
  }

  /** Settling an open entry has the Runtime's shape: a context is marked consumed only together with its
      contribution. */
  lemma {:induction false} EntryOpShaped(e: ExtensionEntry, i: nat, how: Settling, run: RunID, step: StepID,
                                         sid: SessionID)
    requires EntryValid(e, sid) && IsOpen(e)
    ensures Callless(EntryOp(e, i, how, run, step)) && Quiet(EntryOp(e, i, how, run, step))
  {
  }

  lemma {:induction false} EntryOpsShaped(journal: Entries, sid: SessionID, first: nat, end: nat, how: Settling,
                                          run: RunID, step: StepID)
    requires JournalValid(journal, sid) && first <= end <= |journal|
    ensures forall op :: op in EntryOps(journal, first, end, how, run, step) ==> Callless(op) && Quiet(op)
    decreases end
  {
    hide *;
    EntryOpsLast(journal, sid, first, end, how, run, step);
    if first < end {
      EntryOpsShaped(journal, sid, first, end - 1, how, run, step);
      if IsOpen(journal[end - 1]) {
        EntryOpShaped(journal[end - 1], end - 1, how, run, step, sid);
      }
    }
  }

  lemma {:induction false} EntryOpsLast(journal: Entries, sid: SessionID, first: nat, end: nat, how: Settling,
                                        run: RunID, step: StepID)
    requires JournalValid(journal, sid) && first <= end <= |journal|
    ensures first == end ==> EntryOps(journal, first, end, how, run, step) == []
    ensures first < end ==>
              && EntryValid(journal[end - 1], sid)
              && EntryOps(journal, first, end, how, run, step) == EntryOps(journal, first, end - 1, how, run, step)
                 + if IsOpen(journal[end - 1]) then [EntryOp(journal[end - 1], end - 1, how, run, step)] else []
  {
  }

  lemma {:induction false} EntryOpUpdates(e: ExtensionEntry, i: nat, how: Settling, run: RunID, step: StepID)
    ensures UpdatesIn(Changes(EntryOp(e, i, how, run, step))) == [SettledAs(e, i, how)]
    ensures ContextChanges(Changes(EntryOp(e, i, how, run, step)))
  {
    var cs := Changes(EntryOp(e, i, how, run, step));
    if |cs| == 2 {
      assert cs[..1][..0] == [] && cs[..1] == [cs[0]];
      assert UpdatesIn(cs[..1]) == [];
    } else {
      assert cs[..0] == [];
    }
  }

  lemma {:induction false} EntryOpsSnoc(journal: Entries, first: nat, i: nat, how: Settling, run: RunID, step: StepID)
    requires first <= i < |journal|
    ensures Expand(EntryOps(journal, first, i + 1, how, run, step)) ==
            if IsOpen(journal[i]) then
              Expand(EntryOps(journal, first, i, how, run, step)) + Changes(EntryOp(journal[i], i, how, run, step))
            else Expand(EntryOps(journal, first, i, how, run, step))
  {
    var front, op := EntryOps(journal, first, i, how, run, step), EntryOp(journal[i], i, how, run, step);
    assert EntryOps(journal, first, i + 1, how, run, step) == front + if IsOpen(journal[i]) then [op] else [];
    assert front + [] == front;
    hide *;
    ExpandConcat(front, [op]);
    ExpandOne(op);
  }

  /** The operations carry exactly the updates of the log, and nothing but contributions beside them. */
  lemma {:induction false} EntryOpsUpdate(journal: Entries, first: nat, end: nat, how: Settling, run: RunID,
                                          step: StepID)
    requires first <= end <= |journal|
    ensures UpdatesIn(Expand(EntryOps(journal, first, end, how, run, step))) == SettleLog(journal, first, end, how)
    ensures ContextChanges(Expand(EntryOps(journal, first, end, how, run, step)))
    decreases end
  {
    hide *;
    if first == end {
      EntryOpsNone(journal, first, how, run, step);
    } else {
      var i := end - 1;
      EntryOpsUpdate(journal, first, i, how, run, step);
      EntryOpsSnoc(journal, first, i, how, run, step);
      SettleLogSnoc(journal, first, i, how);
      if IsOpen(journal[i]) {
        EntryOpUpdates(journal[i], i, how, run, step);
        var front := Expand(EntryOps(journal, first, i, how, run, step));
        var more := Changes(EntryOp(journal[i], i, how, run, step));
        UpdatesConcat(front, more);
        ContextConcat(front, more);
      }
    }
  }

  lemma {:induction false} EntryOpsNone(journal: Entries, first: nat, how: Settling, run: RunID, step: StepID)
    requires first <= |journal|
    ensures Expand(EntryOps(journal, first, first, how, run, step)) == [] && SettleLog(journal, first, first, how) == []
    ensures UpdatesIn([]) == [] && ContextChanges([]) && JournalOnly([])
  {
  }

  lemma {:induction false} SettleLogSnoc(journal: Entries, first: nat, i: nat, how: Settling)
    requires first <= i < |journal|
    ensures SettleLog(journal, first, i + 1, how) ==
            if IsOpen(journal[i]) then SettleLog(journal, first, i, how) + [SettledAs(journal[i], i, how)]
            else SettleLog(journal, first, i, how)
  {
    assert SettleLog(journal, first, i, how) + [] == SettleLog(journal, first, i, how);
  }

  lemma {:induction false} ContextConcat(a: seq<Change>, b: seq<Change>)
    requires ContextChanges(a) && ContextChanges(b)
    ensures ContextChanges(a + b)
  {
  }

  /** Changes of contexts and their invocations only. */
  predicate ContextChanges(changes: seq<Change>) {
    forall i :: 0 <= i < |changes| ==> changes[i].UpdateExtensionJournal? || changes[i].AppendContextContribution?
  }

  /** Such changes leave Queue and Run as they are and only append to History. */
  lemma {:induction false} ContextChangesLeave(s: Snapshot, expected: Revision, changes: seq<Change>, s': Snapshot)
    requires ContextChanges(changes) && ApplyAll(s, expected, changes) == Ok(s')
    ensures s' == s.(extensions := s'.extensions, history := s'.history) && s.history <= s'.history
    decreases |changes|
  {
    if changes != [] {
      var mid := ApplyChange(s, expected, changes[0]).value;
      assert changes[0].UpdateExtensionJournal? || changes[0].AppendContextContribution?;
      assert mid == s.(extensions := mid.extensions, history := mid.history) && s.history <= mid.history;
      hide ApplyChange;
      ContextChangesLeave(mid, expected, changes[1..], s');
    }
  }

  // ---------------------------------------------------------------- applied stays applied

  lemma {:induction false} ChangeDescends(s: Snapshot, expected: Revision, c: Change, s': Snapshot)
    requires JournalValid(s.extensions, s.session.id) && ApplyChange(s, expected, c) == Ok(s')
    ensures s'.session == s.session && JournalValid(s'.extensions, s.session.id)
    ensures JournalDescends(s.extensions, s'.extensions) && |s.extensions| <= |s'.extensions|
    ensures c.UpdateExtensionJournal? ==>
              0 < c.extension.identity.sequence <= |s'.extensions|
              && s'.extensions[c.extension.identity.sequence - 1] == c.extension
  {
    hide EntryValid;
    hide Descends;
    if c.UpdateExtensionJournal? {
      ApplyExtensionKeeps(s.extensions, s.session.id, c.extension);
      SequencePositive(s.extensions, s.session.id, c.extension);
    } else {
      ChangeAppends(s, expected, c, s');
      ExtensionsFrame(s, expected, c, s');
      forall i | 0 <= i < |s.extensions| ensures Descends(s.extensions[i], s'.extensions[i]) {
        DescendsReflexive(s.extensions[i]);
      }
    }
  }

  lemma {:induction false} SequencePositive(journal: Entries, sid: SessionID, e: ExtensionEntry)
    requires ApplyExtension(journal, sid, e).Ok?
    ensures e.identity.sequence > 0
  {
    assert EntryValid(e, sid);
  }

  lemma {:induction false} ExtensionsFrame(s: Snapshot, expected: Revision, c: Change, s': Snapshot)
    requires ApplyChange(s, expected, c) == Ok(s') && !c.UpdateExtensionJournal?
    ensures s'.extensions == s.extensions
  {
  }

  lemma {:induction false} ChangesDescend(s: Snapshot, expected: Revision, changes: seq<Change>, s': Snapshot)
    requires JournalValid(s.extensions, s.session.id) && ApplyAll(s, expected, changes) == Ok(s')
    ensures s'.session == s.session && JournalDescends(s.extensions, s'.extensions) && |s.extensions| <= |s'.extensions|
    decreases |changes|
  {
    hide JournalValid;
    hide ApplyChange;
    if changes == [] {
      forall i | 0 <= i < |s.extensions| ensures Descends(s.extensions[i], s.extensions[i]) {
        DescendsReflexive(s.extensions[i]);
      }
    } else {
      var mid := ApplyChange(s, expected, changes[0]).value;
      hide JournalDescends;
      ChangeDescends(s, expected, changes[0], mid);
      ChangesDescend(mid, expected, changes[1..], s');
      DescendsTransitive(s.extensions, mid.extensions, s'.extensions);
    }
  }

  /** An update in a commit that marks an invocation applied or discarded is what the commit leaves of its effect. */
  lemma {:induction false} EffectSticks(s: Snapshot, expected: Revision, changes: seq<Change>, s': Snapshot,
                                        u: ExtensionEntry)
    requires JournalValid(s.extensions, s.session.id) && ApplyAll(s, expected, changes) == Ok(s')
    requires UpdateExtensionJournal(u) in changes && (u.effect == EffectApplied || u.effect == EffectDiscarded)
    ensures 0 < u.identity.sequence <= |s'.extensions|
    ensures s'.extensions[u.identity.sequence - 1].identity == u.identity
    ensures s'.extensions[u.identity.sequence - 1].effect == u.effect
    decreases |changes|
  {
    hide JournalValid;
    hide ApplyChange;
    var mid := ApplyChange(s, expected, changes[0]).value;
    ChangeDescends(s, expected, changes[0], mid);
    if changes[0] == UpdateExtensionJournal(u) {
      ChangesDescend(mid, expected, changes[1..], s');
      assert Descends(mid.extensions[u.identity.sequence - 1], s'.extensions[u.identity.sequence - 1]);
    } else {
      assert UpdateExtensionJournal(u) in changes[1..];
      EffectSticks(mid, expected, changes[1..], s', u);
    }
  }

  lemma {:induction false} LogInUpdates(changes: seq<Change>, u: ExtensionEntry)
    requires u in UpdatesIn(changes)
    ensures UpdateExtensionJournal(u) in changes
  {
    if changes != [] && changes[|changes| - 1] != UpdateExtensionJournal(u) {
      LogInUpdates(changes[..|changes| - 1], u);
    }
  }

  lemma {:induction false} LogHas(journal: Entries, first: nat, end: nat, how: Settling, i: nat)
    requires first <= i < end <= |journal| && IsOpen(journal[i])
    ensures SettledAs(journal[i], i, how) in SettleLog(journal, first, end, how)
    decreases end
  {
    if i < end - 1 {
      LogHas(journal, first, end - 1, how, i);
    }
  }

  /** Settling without consuming writes to the journal alone. */
  lemma {:induction false} EntryOpsJournalOnly(journal: Entries, first: nat, end: nat, how: Settling, run: RunID,
                                               step: StepID)
    requires first <= end <= |journal| && !how.Consuming?
    ensures JournalOnly(Expand(EntryOps(journal, first, end, how, run, step)))
    decreases end
  {
    hide *;
    if first == end {
      EntryOpsNone(journal, first, how, run, step);
    } else {
      var i := end - 1;
      EntryOpsJournalOnly(journal, first, i, how, run, step);
      EntryOpsSnoc(journal, first, i, how, run, step);
      EntryOpUpdatesOnly(journal[i], i, how, run, step);
      JournalOnlyConcat(Expand(EntryOps(journal, first, i, how, run, step)),
                        Changes(EntryOp(journal[i], i, how, run, step)));
    }
  }

  lemma {:induction false} EntryOpUpdatesOnly(e: ExtensionEntry, i: nat, how: Settling, run: RunID, step: StepID)
    requires !how.Consuming?
    ensures JournalOnly(Changes(EntryOp(e, i, how, run, step)))
  {
  }

  lemma {:induction false} JournalOnlyConcat(a: seq<Change>, b: seq<Change>)
    requires JournalOnly(a) && JournalOnly(b)
    ensures JournalOnly(a + b)
  {
  }

  lemma {:induction false} InputContextsAreContexts(entries: Entries, n: nat, message: MessageID, run: RunID,
                                                    step: StepID)
    requires n <= |entries|
    ensures ContextChanges(Expand(InputContextOps(entries[..n], message, run, step)))
  {
    if n == 0 {
      assert entries[..0] == [];
    } else {
      InputContextsAreContexts(entries, n - 1, message, run, step);
      InputContextsSnoc(entries, n - 1, message, run, step);
      assert ContextChanges(ConsumeChanges(entries[n - 1], run, step));
      hide *;
      var front := Expand(InputContextOps(entries[..n - 1], message, run, step));
      ContextConcat(front, ConsumeChanges(entries[n - 1], run, step));
      assert front + [] == front;
    }
  }

  lemma {:induction false} LifecycleAreContexts(entries: Entries, run: RunID, step: StepID)
    ensures ContextChanges(Expand(LifecycleOps(entries, run, step)))
  {
    if entries != [] {
      var front, e := entries[..|entries| - 1], entries[|entries| - 1];
      LifecycleAreContexts(front, run, step);
      var ops, op := LifecycleOps(front, run, step), ConsumeOp(e, run, step, Bind(e.inputs, run, step));
      assert LifecycleOps(entries, run, step) == ops + if WaitsForRun(e) then [op] else [];
      assert ContextChanges(Changes(op)) && ops + [] == ops;
      hide *;
      ExpandConcat(ops, [op]);
      ExpandOne(op);
      ContextConcat(Expand(ops), Changes(op));
    }
  }

  lemma {:induction false} WaitingAreContexts(entries: Entries, message: MessageID, run: RunID, step: StepID)
    ensures ContextChanges(Expand(InputContextOps(entries, message, run, step)))
    ensures ContextChanges(Expand(LifecycleOps(entries, run, step)))
  {
    assert entries[..|entries|] == entries;
    InputContextsAreContexts(entries, |entries|, message, run, step);
    LifecycleAreContexts(entries, run, step);
  }

  // ---------------------------------------------------------------- tool-result hooks

  /** The answers of tool-result hooks go to the Step after the batch. */
  function ResultHookOps(entries: Entries): (r: seq<Op>) {
    if entries == [] then []
    else
      var i := |entries| - 1;
      var e := entries[i];
      ResultHookOps(entries[..i])
      + if e.status.InvocationSucceeded? && IsOpen(e)
        then [EntryOp(e, i, Consuming, e.identity.run, e.identity.target)] else []
  }

  lemma {:induction false} ResultHooksSnoc(entries: Entries, i: nat)
    requires i < |entries|
    ensures var e := entries[i];
            Expand(ResultHookOps(entries[..i + 1])) == Expand(ResultHookOps(entries[..i]))
              + if e.status.InvocationSucceeded? && IsOpen(e)
                then Changes(EntryOp(e, i, Consuming, e.identity.run, e.identity.target)) else []
  {
    assert entries[..i + 1][..i] == entries[..i];
    var before, op := ResultHookOps(entries[..i]),
      EntryOp(entries[i], i, Consuming, entries[i].identity.run, entries[i].identity.target);
    assert before + [] == before;
    hide EntryOp;
    ExpandConcat(before, [op]);
    ExpandOne(op);
  }

  /** consumeToolResultHookContexts: the loop over the answered hooks of a batch. */
  method ConsumeToolResultHookContexts(entries: Entries) returns (changes: seq<Change>)
    ensures changes == Expand(ResultHookOps(entries))
  {
    changes := [];
    assert entries[..0] == [];
    for i := 0 to |entries|
      invariant changes == Expand(ResultHookOps(entries[..i]))
    {
      hide Expand;
      hide ResultHookOps;
      ResultHooksSnoc(entries, i);
      var e := entries[i];
      if !e.status.InvocationSucceeded? || e.effect != EffectPending { continue; }
      ConsumedIs(e, i);
      var entry := e.(effect := EffectApplied);
      if e.context == ContextPending {
        var fact := Contribution(e.identity.run, e.identity.target, SourceOf(e), e.inputs);
        entry := entry.(context := ContextConsumed, inputs := []);
        changes := changes + [AppendContextContribution(fact), UpdateExtensionJournal(entry)];
      } else {
        changes := changes + [UpdateExtensionJournal(entry)];
      }
    }
    assert entries[..|entries|] == entries;
  }

  lemma {:induction false} ConsumedIs(e: ExtensionEntry, i: nat)
    requires e.status.InvocationSucceeded? && e.effect == EffectPending
    ensures var applied := e.(effect := EffectApplied);
            Changes(EntryOp(e, i, Consuming, e.identity.run, e.identity.target)) ==
            if e.context == ContextPending then
              [AppendContextContribution(Contribution(e.identity.run, e.identity.target, SourceOf(e), e.inputs)),
               UpdateExtensionJournal(applied.(context := ContextConsumed, inputs := []))]
            else [UpdateExtensionJournal(applied)]
  {
  }

  /** Their commit has the Runtime's shape and writes nothing of the conversation. */
  lemma {:induction false} ResultHooksInShape(s: Snapshot, entries: Entries, sid: SessionID)
    requires forall i :: 0 <= i < |entries| ==> EntryValid(entries[i], sid)
    ensures forall op :: op in ResultHookOps(entries) ==> Callless(op) && Quiet(op)
    ensures AllShaped(s, ResultHookOps(entries))
  {
    hide EntryValid;
    hide EntryOp;
    hide Callless;
    hide Quiet;
    hide AllShaped;
    if entries != [] {
      var i := |entries| - 1;
      ResultHooksInShape(s, entries[..i], sid);
      if IsOpen(entries[i]) {
        EntryOpShaped(entries[i], i, Consuming, entries[i].identity.run, entries[i].identity.target, sid);
      }
    }
    CalllessShaped(s, ResultHookOps(entries));
  }

  lemma {:induction false} CalllessShaped(s: Snapshot, ops: seq<Op>)
    requires forall op :: op in ops ==> Callless(op)
    ensures AllShaped(s, ops)
  {
    AlwaysIsShaped(s, ops);
  }
}
