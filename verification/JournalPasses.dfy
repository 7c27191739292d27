/** Passes over the extension journal: updates of some of its entries, each at most once and in journal order, and what
    the updates inside a commit do to the journal (standardagent/runtime_input_gate_context.go, runtime_lifecycle.go
    consumePendingLifecycleContexts; session/extension_journal.go applyExtensionJournal). */
module JournalPasses {
  import opened SessionTypes
  import opened ExtensionJournal
  import opened Transactions
  import opened AggregateInvariant
  import opened RuntimeCommits
  import opened InputGates
  import opened HookSettling

  // ---------------------------------------------------------------- commits and their updates

  /** The extension journal a commit leaves is what its updates, in order, make of the one it met. */
  lemma {:induction false} UpdatesApplied(s: Snapshot, expected: Revision, changes: seq<Change>, s': Snapshot)
    requires ApplyAll(s, expected, changes) == Ok(s')
    ensures s'.session == s.session
    ensures ApplyExtensions(s.extensions, s.session.id, UpdatesIn(changes)) == Ok(s'.extensions)
    decreases |changes|
  {
    if changes != [] {
      var front, c := changes[..|changes| - 1], changes[|changes| - 1];
      assert changes == front + [c];
      hide *;
      ApplyConcat(s, expected, front, [c]);
      var mid := ApplyAll(s, expected, front).value;
      ApplyOne(mid, expected, c);
      UpdatesApplied(s, expected, front, mid);
      UpdatesSnoc(front, c);
      ChangeUpdates(mid, expected, c, s');
      if c.UpdateExtensionJournal? {
        LogSnoc(s.extensions, s.session.id, UpdatesIn(front), c.extension);
      }
    }
  }

  lemma {:induction false} UpdatesSnoc(front: seq<Change>, c: Change)
    ensures UpdatesIn(front + [c]) ==
            if c.UpdateExtensionJournal? then UpdatesIn(front) + [c.extension] else UpdatesIn(front)
  {
    assert (front + [c])[..|front|] == front;
  }

  lemma {:induction false} ChangeUpdates(s: Snapshot, expected: Revision, c: Change, s': Snapshot)
    requires ApplyChange(s, expected, c) == Ok(s')
    ensures s'.session == s.session
    ensures c.UpdateExtensionJournal? ==> ApplyExtension(s.extensions, s.session.id, c.extension) == Ok(s'.extensions)
    ensures !c.UpdateExtensionJournal? ==> s'.extensions == s.extensions
  {
    hide ApplyExtension;
  }

  /** And a list of updates that the journal accepts is applied whole. */
  lemma {:induction false} UpdatesApply(s: Snapshot, expected: Revision, changes: seq<Change>, after: Entries)
    requires JournalOnly(changes) && ApplyExtensions(s.extensions, s.session.id, UpdatesIn(changes)) == Ok(after)
    ensures ApplyAll(s, expected, changes) == Ok(s.(extensions := after))
    decreases |changes|
  {
    if changes != [] {
      var front, c := changes[..|changes| - 1], changes[|changes| - 1];
      assert changes == front + [c] && c.UpdateExtensionJournal? && JournalOnly(front);
      hide *;
      UpdatesSnoc(front, c);
      LogSnoc(s.extensions, s.session.id, UpdatesIn(front), c.extension);
      var mid := ApplyExtensions(s.extensions, s.session.id, UpdatesIn(front)).value;
      UpdatesApply(s, expected, front, mid);
      ApplyConcat(s, expected, front, [c]);
      ApplyOne(s.(extensions := mid), expected, c);
      UpdateApplies(s.(extensions := mid), expected, c, after);
    }
  }

  lemma {:induction false} UpdateApplies(s: Snapshot, expected: Revision, c: Change, after: Entries)
    requires c.UpdateExtensionJournal? && ApplyExtension(s.extensions, s.session.id, c.extension) == Ok(after)
    ensures ApplyChange(s, expected, c) == Ok(s.(extensions := after))
  {
  }

  lemma {:induction false} AsChangesUpdate(log: Entries)
    ensures UpdatesIn(AsChanges(log)) == log && JournalOnly(AsChanges(log))
  {
    if log != [] {
      var front := log[..|log| - 1];
      AsChangesUpdate(front);
      assert AsChanges(log)[..|log| - 1] == AsChanges(front);
    }
  }

  /** An update that is not a valid entry is refused wherever it stands. */
  lemma {:induction false} InvalidRefused(journal: Entries, sid: SessionID, log: Entries, u: ExtensionEntry)
    requires u in log && !EntryValid(u, sid)
    ensures ApplyExtensions(journal, sid, log).Err?
  {
    hide EntryValid;
    var front, last := log[..|log| - 1], log[|log| - 1];
    assert log == front + [last];
    LogSnoc(journal, sid, front, last);
    if last != u {
      assert u in front;
      InvalidRefused(journal, sid, front, u);
    }
  }

  // ---------------------------------------------------------------- one pass

  /** The updates that lead from `journal` to `next`, entry by entry, for the first `n` entries. */
  function PassLog(journal: Entries, next: Entries, n: nat): (r: Entries)
    requires n <= |journal| == |next|
  {
    if n == 0 then []
    else PassLog(journal, next, n - 1) + if next[n - 1] != journal[n - 1] then [next[n - 1]] else []
  }

  ghost predicate PassLegal(journal: Entries, next: Entries, sid: SessionID) {
    && |journal| == |next|
    && forall i :: 0 <= i < |journal| ==> next[i] == journal[i] || Legal(journal[i], next[i], sid)
  }

  lemma {:induction false} PassAt(journal: Entries, next: Entries, sid: SessionID, i: nat)
    requires PassLegal(journal, next, sid) && i < |journal|
    ensures |journal| == |next| && (next[i] == journal[i] || Legal(journal[i], next[i], sid))
    ensures PassLog(journal, next, i + 1) ==
            if next[i] == journal[i] then PassLog(journal, next, i) else PassLog(journal, next, i) + [next[i]]
  {
    assert PassLog(journal, next, i) + [] == PassLog(journal, next, i);
    hide Legal;
  }

  lemma {:induction false} PassNone(journal: Entries, next: Entries)
    requires |journal| == |next|
    ensures PassLog(journal, next, 0) == [] && next[..0] + journal[0..] == journal
  {
  }

  lemma {:induction false} PassReachesTo(journal: Entries, next: Entries, sid: SessionID, n: nat)
    requires JournalValid(journal, sid) && PassLegal(journal, next, sid) && n <= |journal| == |next|
    ensures Reaches(journal, sid, PassLog(journal, next, n), next[..n] + journal[n..])
  {
    hide *;
    if n == 0 {
      PassNone(journal, next);
      ReachesNothing(journal, sid);
    } else {
      var i := n - 1;
      var before := next[..i] + journal[i..];
      PassReachesTo(journal, next, sid, i);
      PassAt(journal, next, sid, i);
      assert before[i := next[i]] == next[..n] + journal[n..];
      if next[i] == journal[i] {
        assert before == before[i := next[i]];
      } else {
        ReachesOne(journal, sid, PassLog(journal, next, i), before, i, next[i]);
      }
    }
  }

  lemma {:induction false} ReachesNothing(journal: Entries, sid: SessionID)
    requires JournalValid(journal, sid)
    ensures Reaches(journal, sid, [], journal)
  {
  }

  /** A pass of legal steps is accepted and leads to its target. */
  lemma {:induction false} PassReaches(journal: Entries, next: Entries, sid: SessionID)
    requires JournalValid(journal, sid) && PassLegal(journal, next, sid)
    ensures Reaches(journal, sid, PassLog(journal, next, |journal|), next)
  {
    hide *;
    PassSize(journal, next, sid);
    PassReachesTo(journal, next, sid, |journal|);
    assert next[..|journal|] + journal[|journal|..] == next;
  }

  lemma {:induction false} PassSize(journal: Entries, next: Entries, sid: SessionID)
    requires PassLegal(journal, next, sid)
    ensures |journal| == |next|
  {
  }

  /** Two passes that change the same entries to the same values write the same updates. */
  lemma {:induction false} SamePass(a: Entries, a': Entries, b: Entries, b': Entries, n: nat)
    requires |a| == |a'| == |b| == |b'| && n <= |a|
    requires forall i :: 0 <= i < n ==> (a'[i] == a[i] <==> b'[i] == b[i]) && (a'[i] != a[i] ==> a'[i] == b'[i])
    ensures PassLog(a, a', n) == PassLog(b, b', n)
  {
    if n > 0 {
      SamePass(a, a', b, b', n - 1);
    }
  }

  // ---------------------------------------------------------------- contexts handed to a new Run

  /** A context that is handed over. */
  function Spent(e: ExtensionEntry): (r: ExtensionEntry) {
    e.(context := ContextConsumed, inputs := [])
  }

  /** consumePendingLifecycleContexts, on the journal. */
  function RunBound(journal: Entries): (r: Entries)
    ensures |r| == |journal|
    ensures forall i :: 0 <= i < |r| ==> r[i] == if WaitsForRun(journal[i]) then Spent(journal[i]) else journal[i]
  {
    seq(|journal|, i requires 0 <= i < |journal| => if WaitsForRun(journal[i]) then Spent(journal[i]) else journal[i])
  }

  /** consumePendingInputContexts, on the journal. */
  function MessageBound(journal: Entries, id: MessageID): (r: Entries)
    ensures |r| == |journal|
    ensures forall i :: 0 <= i < |r| ==>
              r[i] == if WaitsForMessage(journal[i], id) then Spent(journal[i]) else journal[i]
  {
    seq(|journal|, i requires 0 <= i < |journal| =>
      if WaitsForMessage(journal[i], id) then Spent(journal[i]) else journal[i])
  }

  lemma {:induction false} SpentLegal(e: ExtensionEntry, id: MessageID, sid: SessionID)
    requires EntryValid(e, sid) && (WaitsForRun(e) || WaitsForMessage(e, id))
    ensures Legal(e, Spent(e), sid)
  {
  }

  lemma {:induction false} ConsumeUpdates(e: ExtensionEntry, run: RunID, step: StepID, inputs: seq<Input>)
    ensures UpdatesIn(Expand([ConsumeOp(e, run, step, inputs)])) == [Spent(e)]
  {
    var op := ConsumeOp(e, run, step, inputs);
    var fact := AppendContextContribution(op.contribution);
    ExpandOne(op);
    assert Changes(op) == [fact] + [UpdateExtensionJournal(Spent(e))];
    UpdatesSnoc([fact], UpdateExtensionJournal(Spent(e)));
    UpdatesSnoc([], fact);
    assert [] + [fact] == [fact];
  }

  lemma {:induction false} UpdatesOfOps(a: seq<Op>, b: seq<Op>)
    ensures UpdatesIn(Expand(a + b)) == UpdatesIn(Expand(a)) + UpdatesIn(Expand(b))
  {
    ExpandConcat(a, b);
    UpdatesConcat(Expand(a), Expand(b));
  }

  lemma {:induction false} LifecycleUpdates(journal: Entries, run: RunID, step: StepID, n: nat)
    requires n <= |journal|
    ensures UpdatesIn(Expand(LifecycleOps(journal[..n], run, step))) == PassLog(journal, RunBound(journal), n)
  {
    hide *;
    LifecycleParts(journal, run, step, n);
    if n > 0 {
      var i := n - 1;
      var e := journal[i];
      LifecycleUpdates(journal, run, step, i);
      UpdatesOfOps(LifecycleOps(journal[..i], run, step), [ConsumeOp(e, run, step, Bind(e.inputs, run, step))]);
      ConsumeUpdates(e, run, step, Bind(e.inputs, run, step));
    }
  }

  lemma {:induction false} LifecycleParts(journal: Entries, run: RunID, step: StepID, n: nat)
    requires n <= |journal|
    ensures n == 0 ==> UpdatesIn(Expand(LifecycleOps(journal[..n], run, step))) == []
    ensures n == 0 ==> PassLog(journal, RunBound(journal), n) == []
    ensures n > 0 ==>
              var e, before := journal[n - 1], PassLog(journal, RunBound(journal), n - 1);
              var front := LifecycleOps(journal[..n - 1], run, step);
              && LifecycleOps(journal[..n], run, step) ==
                 (if WaitsForRun(e) then front + [ConsumeOp(e, run, step, Bind(e.inputs, run, step))] else front)
              && PassLog(journal, RunBound(journal), n) ==
                 (if WaitsForRun(e) then before + [Spent(e)] else before)
  {
    if n > 0 {
      assert journal[..n][..n - 1] == journal[..n - 1];
      assert LifecycleOps(journal[..n - 1], run, step) + [] == LifecycleOps(journal[..n - 1], run, step);
      var before := PassLog(journal, RunBound(journal), n - 1);
      assert before + [] == before;
    }
  }

  lemma {:induction false} InputUpdates(journal: Entries, id: MessageID, run: RunID, step: StepID, n: nat)
    requires n <= |journal|
    ensures UpdatesIn(Expand(InputContextOps(journal[..n], id, run, step))) ==
            PassLog(journal, MessageBound(journal, id), n)
  {
    hide *;
    InputParts(journal, id, run, step, n);
    if n > 0 {
      var i := n - 1;
      var e := journal[i];
      InputUpdates(journal, id, run, step, i);
      UpdatesOfOps(InputContextOps(journal[..i], id, run, step), [ConsumeOp(e, run, step, e.inputs)]);
      ConsumeUpdates(e, run, step, e.inputs);
    }
  }

  lemma {:induction false} InputParts(journal: Entries, id: MessageID, run: RunID, step: StepID, n: nat)
    requires n <= |journal|
    ensures n == 0 ==> UpdatesIn(Expand(InputContextOps(journal[..n], id, run, step))) == []
    ensures n == 0 ==> PassLog(journal, MessageBound(journal, id), n) == []
    ensures n > 0 ==>
              var e, before := journal[n - 1], PassLog(journal, MessageBound(journal, id), n - 1);
              var front := InputContextOps(journal[..n - 1], id, run, step);
              && InputContextOps(journal[..n], id, run, step) ==
                 (if WaitsForMessage(e, id) then front + [ConsumeOp(e, run, step, e.inputs)] else front)
              && PassLog(journal, MessageBound(journal, id), n) ==
                 (if WaitsForMessage(e, id) then before + [Spent(e)] else before)
  {
    if n > 0 {
      assert journal[..n][..n - 1] == journal[..n - 1];
      assert InputContextOps(journal[..n - 1], id, run, step) + [] == InputContextOps(journal[..n - 1], id, run, step);
      var before := PassLog(journal, MessageBound(journal, id), n - 1);
      assert before + [] == before;
    }
  }

  /** Lifecycle contexts and input contexts are different entries, so the second pass is the same after the first. */
  lemma {:induction false} PassesCommute(journal: Entries, id: MessageID)
    ensures var bound := RunBound(journal);
            PassLog(journal, MessageBound(journal, id), |journal|) ==
            PassLog(bound, MessageBound(bound, id), |journal|)
  {
    var bound := RunBound(journal);
    forall i | 0 <= i < |journal|
      ensures WaitsForMessage(bound[i], id) <==> WaitsForMessage(journal[i], id)
      ensures WaitsForMessage(journal[i], id) ==> bound[i] == journal[i]
    {
    }
    hide WaitsForMessage;
    hide WaitsForRun;
    SamePass(journal, MessageBound(journal, id), bound, MessageBound(bound, id), |journal|);
  }

  /** The journal after the start of a Run with this message. */
  function StartJournal(journal: Entries, id: MessageID): (r: Entries)
    ensures |r| == |journal|
  {
    MessageBound(RunBound(journal), id)
  }

  /** An applied context of an accepted input for the message. */
  predicate OfMessage(e: ExtensionEntry, id: MessageID) {
    && e.identity.boundary.BoundaryInputGate? && e.identity.message == id && e.status.InvocationSucceeded?
    && e.result == Some(DecisionAccept)
  }

  /** An applied context of the Session's opening. */
  predicate OfOpening(e: ExtensionEntry) {
    e.identity.boundary.BoundarySessionLifecycle? && e.identity.phase.LifecycleOpen? && e.status.InvocationSucceeded?
  }

  /** A start hands over the waiting contexts of its message and of the Session's opening, and no others. */
  lemma {:induction false} HandedOver(journal: Entries, id: MessageID, i: nat)
    requires i < |journal|
    ensures var e, r := journal[i], StartJournal(journal, id)[i];
            if e.context.ContextPending? && e.effect.EffectApplied? && (OfMessage(e, id) || OfOpening(e)) then
              r.context.ContextConsumed? && r.inputs == [] && r.(context := e.context, inputs := e.inputs) == e
            else r == e
  {
  }

  lemma {:induction false} RunBoundLegal(journal: Entries, sid: SessionID)
    requires JournalValid(journal, sid)
    ensures PassLegal(journal, RunBound(journal), sid)
  {
    forall i | 0 <= i < |journal| && WaitsForRun(journal[i]) ensures Legal(journal[i], RunBound(journal)[i], sid) {
      SpentLegal(journal[i], 0, sid);
    }
    hide Legal;
    hide WaitsForRun;
  }

  lemma {:induction false} MessageBoundLegal(journal: Entries, id: MessageID, sid: SessionID)
    requires JournalValid(journal, sid)
    ensures PassLegal(journal, MessageBound(journal, id), sid)
  {
    forall i | 0 <= i < |journal| && WaitsForMessage(journal[i], id)
      ensures Legal(journal[i], MessageBound(journal, id)[i], sid)
    {
      SpentLegal(journal[i], id, sid);
    }
    hide Legal;
    hide WaitsForMessage;
  }

  lemma {:induction false} ReachedValid(journal: Entries, sid: SessionID, log: Entries, after: Entries)
    requires Reaches(journal, sid, log, after)
    ensures JournalValid(after, sid)
  {
  }

  lemma {:induction false} PlainNoUpdate(c: Change)
    requires !c.UpdateExtensionJournal?
    ensures UpdatesIn(Expand([Plain(c)])) == []
  {
    ExpandOne(Plain(c));
    UpdatesSnoc([], c);
    assert [] + [c] == [c];
  }

  lemma {:induction false} StartNoUpdate(f: RunFact)
    ensures UpdatesIn(Expand([StartRun(f)])) == []
  {
    ExpandOne(StartRun(f));
    var a, b := SetRunState(f.run, true), AppendRunFact(f);
    assert [a, b] == [a] + [b] && [] + [a] == [a];
    UpdatesSnoc([a], b);
    UpdatesSnoc([], a);
  }

  /** The queue part of a consumption writes no update. */
  lemma {:induction false} ConsumptionUpdates(s: Snapshot, item: QueueItem, run: RunID, step: StepID)
    ensures UpdatesIn(Expand(ConsumptionOps(s, item, run, step))) ==
            UpdatesIn(Expand(InputContextOps(s.extensions, item.message.id, run, step)))
  {
    var a, b := Plain(ClaimQueue(item.message.id, run)), Plain(ConsumeQueue(item.message.id, run));
    var c := Plain(AppendMessage(item.message.(run := run, step := step)));
    var contexts := InputContextOps(s.extensions, item.message.id, run, step);
    assert ConsumptionOps(s, item, run, step) == [a] + ([b] + ([c] + contexts));
    hide *;
    UpdatesOfOps([a], [b] + ([c] + contexts));
    UpdatesOfOps([b], [c] + contexts);
    UpdatesOfOps([c], contexts);
    PlainNoUpdate(a.change);
    PlainNoUpdate(b.change);
    PlainNoUpdate(c.change);
  }

  lemma {:induction false} StartParts(s: Snapshot, item: QueueItem, run: RunID, step: StepID)
    ensures StartOps(s, item, run, step, true) ==
            [Plain(EnqueueMessage(item))]
            + ([StartRun(Started(s, run))]
               + (LifecycleOps(s.extensions, run, step) + ConsumptionOps(s, item, run, step)))
  {
  }

  lemma {:induction false} StartUpdates(s: Snapshot, item: QueueItem, run: RunID, step: StepID)
    ensures UpdatesIn(Expand(StartOps(s, item, run, step, true))) ==
            UpdatesIn(Expand(LifecycleOps(s.extensions, run, step)))
            + UpdatesIn(Expand(InputContextOps(s.extensions, item.message.id, run, step)))
  {
    hide *;
    var first, start := Plain(EnqueueMessage(item)), StartRun(Started(s, run));
    var lifecycle, consumption := LifecycleOps(s.extensions, run, step), ConsumptionOps(s, item, run, step);
    StartParts(s, item, run, step);
    UpdatesOfOps([first], [start] + (lifecycle + consumption));
    UpdatesOfOps([start], lifecycle + consumption);
    UpdatesOfOps(lifecycle, consumption);
    PlainNoUpdate(first.change);
    StartNoUpdate(start.fact);
    ConsumptionUpdates(s, item, run, step);
  }

  lemma {:induction false} BothPasses(journal: Entries, id: MessageID, run: RunID, step: StepID)
    ensures var bound := RunBound(journal);
            && UpdatesIn(Expand(LifecycleOps(journal, run, step))) == PassLog(journal, bound, |journal|)
            && UpdatesIn(Expand(InputContextOps(journal, id, run, step))) ==
               PassLog(bound, MessageBound(bound, id), |journal|)
            && StartJournal(journal, id) == MessageBound(bound, id)
  {
    assert journal[..|journal|] == journal;
    assert StartJournal(journal, id) == MessageBound(RunBound(journal), id);
    hide *;
    LifecycleUpdates(journal, run, step, |journal|);
    InputUpdates(journal, id, run, step, |journal|);
    PassesCommute(journal, id);
  }

  /** The updates of a start lead to the journal with every waiting context handed to the new Run. */
  lemma {:induction false} StartReaches(s: Snapshot, item: QueueItem, run: RunID, step: StepID)
    requires JournalValid(s.extensions, s.session.id)
    ensures Reaches(s.extensions, s.session.id, UpdatesIn(Expand(StartOps(s, item, run, step, true))),
                    StartJournal(s.extensions, item.message.id))
  {
    hide *;
    var journal, sid, id := s.extensions, s.session.id, item.message.id;
    StartUpdates(s, item, run, step);
    BothPasses(journal, id, run, step);
    var bound := RunBound(journal);
    var last := MessageBound(bound, id);
    RunBoundLegal(journal, sid);
    PassReaches(journal, bound, sid);
    ReachedValid(journal, sid, PassLog(journal, bound, |journal|), bound);
    MessageBoundLegal(bound, id, sid);
    PassReaches(bound, last, sid);
    LogConcat(journal, sid, PassLog(journal, bound, |journal|), bound, PassLog(bound, last, |journal|), last);
  }
}
