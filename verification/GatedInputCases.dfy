/** Two gated inputs that every gate accepts and that have no effect all the same
    (standardagent/runtime_input_gate.go finalizeAcceptedSend, finalizeAcceptedEdit, discardAcceptedInputLocked;
    runtime_input_gate_context.go discardOlderInputContexts). */
module GatedInputCases {
  import opened SessionTypes
  import opened ModelProtocol
  import opened ExtensionJournal
  import opened Transactions
  import opened AggregateInvariant
  import opened SessionRuns
  import opened InputGates
  import opened GatedInput
  import GuardGaps

  const Text := Message(5, 1, 0, 0, RoleUser, [1], None)
  const Item := QueueItem(Text, DeliveryNormal, 0)

  /** The same message after another edit. */
  const Changed := Item.(message := Text.(parts := [2]))

  /** The prepared gate of an input with that message, at the given place of the journal. */
  function GateAt(sequence: nat): (e: ExtensionEntry) {
    ExtensionEntry(
      ExtensionIdentity(sequence, sequence, 1, 1, BoundaryInputGate, 1, 0, 0, 0, 5, 0, 0, 0, NoPhase, 0, 1, 0, 1),
      0, 0, InvocationPrepared, None, 0, 0, EffectNone, ContextNone, [], NoFingerprint)
  }

  const Yes := Gate(false, Accepts([]))

  lemma {:induction false} NothingIsValid(sid: SessionID)
    ensures AnswerValid(Accepts([]), sid)
  {
    assert ReadAll([]).Some?;
  }

  lemma {:induction false} WithQueueAndExtensions(s: Snapshot, queue: seq<QueueItem>, extensions: Entries)
    requires Inv(s) && QueueOk(s.(queue := queue)) && ClaimsValid(queue, s.running, s.activeRun)
    requires JournalValid(extensions, s.session.id)
    ensures Inv(s.(queue := queue, extensions := extensions)) && Closable(s.(queue := queue, extensions := extensions))
  {
    CoreWithQueue(s, queue);
    CoreWithExtensions(s.(queue := queue), extensions);
    InvCloses(s.(queue := queue, extensions := extensions));
  }

  lemma {:induction false} InvCloses(s: Snapshot)
    requires Inv(s)
    ensures Closable(s)
  {
    if !s.running {
      assert forall i :: 0 <= i < |s.journal| ==> !Unfinished(s.journal[i].status);
    }
  }

  /** The empty, idle Session with a queue and an extension journal. */
  lemma {:induction false} IdleSession(queue: seq<QueueItem>, extensions: Entries) returns (s: Snapshot)
    requires queue == [] || queue == [Item] || queue == [Changed]
    requires JournalValid(extensions, 1)
    ensures s == GuardGaps.Opened.(queue := queue, extensions := extensions)
    ensures Inv(s) && Closable(s) && !s.running && s.session.id == 1 && s.queue == queue && s.extensions == extensions
  {
    s := GuardGaps.Opened.(queue := queue, extensions := extensions);
    CreateEstablishesInv(GuardGaps.Empty);
    assert GuardGaps.Opened == CreatedFrom(GuardGaps.Empty);
    assert QueueOk(GuardGaps.Opened.(queue := queue)) && ClaimsValid(queue, false, 0);
    hide Inv;
    WithQueueAndExtensions(GuardGaps.Opened, queue, extensions);
  }

  lemma {:induction false} GateIsReady(sequence: nat)
    requires sequence > 0
    ensures EntryValid(GateAt(sequence), 1) && IsGate(GateAt(sequence)) && GateAt(sequence).status.InvocationPrepared?
    ensures GateAt(sequence).identity.sequence == sequence && GateAt(sequence).identity.invocation == sequence
  {
  }

  lemma {:induction false} OneIsPrepared(journal: Entries, first: nat)
    requires first < |journal| && IsGate(journal[first]) && journal[first].status.InvocationPrepared?
    ensures GatedInput.Prepared(journal, first, 1)
  {
  }

  lemma {:induction false} YesPasses()
    ensures Passes(Yes) && Yes.answer == Accepts([])
  {
  }

  lemma {:induction false} SendHolds(s: Snapshot)
    ensures TargetHolds(s, Send(Item))
  {
  }

  lemma {:induction false} RanAccepts(journal: Entries, first: nat)
    requires Ran(journal, first, 1, 1)
    ensures first < |journal| && GatedInput.Accepted(journal[first])
  {
  }

  lemma {:induction false} OneEntryValid(e: ExtensionEntry)
    requires EntryValid(e, 1) && e.identity.sequence == 1
    ensures JournalValid([e], 1)
  {
  }

  /** A Send to an idle Session whose only gate accepts, finished after Close has begun: its last commit is accepted,
      leaves Queue, History and Run as they were, and the gate discarded. */
  method ClosedAfterAccept() returns (later: Snapshot, last: seq<Change>, s': Snapshot, ghost s: Snapshot)
    ensures Inv(later) && !later.running && later.queue == [] && Passes(Yes) && TargetHolds(later, Send(Item))
    ensures s == later.(extensions := s.extensions) && |s.extensions| == 1 && GatedInput.Accepted(s.extensions[0])
    ensures Commits(s, last, s')
    ensures s'.queue == [] && s'.history == later.history && !s'.running
    ensures |s'.extensions| == 1 && s'.extensions[0].effect == EffectDiscarded
  {
    hide *;
    var journal := [GateAt(1)];
    GateIsReady(1);
    OneEntryValid(journal[0]);
    OneIsPrepared(journal, 0);
    YesPasses();
    NothingIsValid(1);
    ghost var idle := IdleSession([], journal);
    later := GuardGaps.Opened.(queue := [], extensions := journal);
    SendHolds(later);
    var took, early, after;
    ghost var log, ran, stop;
    took, early, last, after, log, ran, stop, s := Submit(journal, 1, 0, [Yes], later, false, Send(Item), 9, 9, 1);
    RanAccepts(ran, 0);
    s' := later.(extensions := after, revision := later.revision + 1);
  }

  /** An edit that was prepared against the message as it first was. */
  const Late := Edit(5, [9], [1], DeliveryNormal)

  lemma {:induction false} ChangedIsOther(s: Snapshot)
    requires s.queue == [Changed]
    ensures !StillQueued(s.queue, 5, [1], DeliveryNormal) && !TargetHolds(s, Late)
  {
  }

  lemma {:induction false} LateIs()
    ensures Late.Edit? && Late.message == 5 && Late.previous == [1] && Late.delivery == DeliveryNormal
  {
  }

  /** An edit whose only gate accepts, while another edit has changed the message in between: its last commit is
      accepted, keeps the other edit's parts, and discards the gate. */
  method ConflictingEdit() returns (later: Snapshot, last: seq<Change>, s': Snapshot, ghost s: Snapshot)
    ensures Inv(later) && later.queue == [Changed] && Passes(Yes)
    ensures s == later.(extensions := s.extensions) && |s.extensions| == 1 && GatedInput.Accepted(s.extensions[0])
    ensures Commits(s, last, s')
    ensures s'.queue == [Changed] && s'.history == later.history
    ensures |s'.extensions| == 1 && s'.extensions[0].effect == EffectDiscarded
  {
    hide *;
    var journal := [GateAt(1)];
    GateIsReady(1);
    OneEntryValid(journal[0]);
    OneIsPrepared(journal, 0);
    YesPasses();
    NothingIsValid(1);
    ghost var idle := IdleSession([Changed], journal);
    later := GuardGaps.Opened.(queue := [Changed], extensions := journal);
    ChangedIsOther(later);
    LateIs();
    var took, early, after;
    ghost var log, ran, stop;
    took, early, last, after, log, ran, stop, s := Submit(journal, 1, 0, [Yes], later, true, Late, 9, 9, 1);
    RanAccepts(ran, 0);
    s' := later.(extensions := after, revision := later.revision + 1);
  }

  // ---------------------------------------------------------------- an older context in the way

  /** An answered gate of an earlier input for the message, whose last commit has not been made. */
  const Waiting := GateAt(1).(pendingAt := 1, finishedAt := 1, status := InvocationSucceeded,
                              result := Some(DecisionAccept), effect := EffectPending, context := ContextPending,
                              inputs := [MessageInput(Text)], fingerprint := FingerprintOf([MessageInput(Text)]))

  const Change5 := Edit(5, [2], [1], DeliveryNormal)

  lemma {:induction false} TextIsContext()
    ensures ContextInputsValid([MessageInput(Text)], 1)
  {
    var inputs := [MessageInput(Text)];
    assert inputs[..0] == [];
    assert ReadAll(inputs[..0]).Some?;
    ReadSnoc([], MessageInput(Text));
    assert [] + inputs == inputs;
  }

  lemma {:induction false} WaitingIsValid()
    ensures EntryValid(Waiting, 1) && Waiting.identity == GateAt(1).identity
    ensures IsOlder(Waiting, 0, 1, 1, 5) && Waiting.effect != EffectApplied
  {
    TextIsContext();
    hide ContextInputsValid;
  }

  lemma {:induction false} BothEntriesValid()
    ensures JournalValid([Waiting, GateAt(2)], 1)
  {
    WaitingIsValid();
    GateIsReady(2);
    hide EntryValid;
    assert Waiting.identity.invocation == 1 && Waiting.identity.sequence == 1;
  }

  lemma {:induction false} EditHolds(s: Snapshot)
    requires s.queue == [Item]
    ensures TargetHolds(s, Change5)
  {
  }

  lemma {:induction false} InTheWay(s: Snapshot)
    requires |s.extensions| > 0 && s.extensions[0] == Waiting
    ensures !EffectTaken(s, Change5, 1, 1)
  {
    WaitingIsValid();
  }

  /** An edit that its gate accepts, with the Runtime open and the queued message unchanged, while an earlier input for
      the message still waits for its last commit: the Store refuses the edit's commit. */
  method OlderContextBlocks() returns (later: Snapshot, last: seq<Change>, ghost s: Snapshot)
    ensures Inv(later) && later.queue == [Item] && Passes(Yes) && TargetHolds(later, Change5)
    ensures s == later.(extensions := s.extensions) && |s.extensions| == 2 && GatedInput.Accepted(s.extensions[1])
    ensures last == Expand(LastOps(s, Change5, 1, 1, true, 9, 9))
    ensures forall s' :: !Commits(s, last, s')
  {
    hide *;
    var journal := [Waiting, GateAt(2)];
    BothEntriesValid();
    GateIsReady(2);
    OneIsPrepared(journal, 1);
    YesPasses();
    NothingIsValid(1);
    ghost var idle := IdleSession([Item], journal);
    later := GuardGaps.Opened.(queue := [Item], extensions := journal);
    EditHolds(later);
    var took, early, after;
    ghost var log, ran, stop;
    took, early, last, after, log, ran, stop, s := Submit(journal, 1, 1, [Yes], later, true, Change5, 9, 9, 1);
    RanAccepts(ran, 1);
    InTheWay(s);
    forall s' ensures !Commits(s, last, s') {
      if Commits(s, last, s') {
        CommitReaches(s, last, s');
      }
    }
  }
}
