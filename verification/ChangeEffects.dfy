/** What a single accepted change does, told by message IDs, Runs and old values: which item a queue change removes or
    rewrites, what a context replacement retains, what a configuration event says, and when each is refused
    (session/memory_store.go applyChanges, queueIndex, replaceContext, setRunState, applyJournal). */
module ChangeEffects {
  import opened SessionTypes
  import opened Transactions
  import opened AggregateInvariant

  // ---------------------------------------------------------------- queue

  /** The item of a message, and the only one. */
  ghost predicate Holds(queue: seq<QueueItem>, i: nat, id: MessageID) {
    i < |queue| && queue[i].message.id == id && forall k :: 0 <= k < i ==> queue[k].message.id != id
  }

  predicate Queued(queue: seq<QueueItem>, id: MessageID) {
    exists i :: 0 <= i < |queue| && queue[i].message.id == id
  }

  /** Everything but the Queue is as it was. */
  predicate OnlyQueue(s: Snapshot, s': Snapshot) {
    s' == s.(queue := s'.queue)
  }

  /** `after` is `before` without the item at `i`, order kept. */
  ghost predicate Without(before: seq<QueueItem>, after: seq<QueueItem>, i: nat) {
    && i < |before| && |after| == |before| - 1
    && (forall k :: 0 <= k < i ==> after[k] == before[k])
    && (forall k :: i <= k < |after| ==> after[k] == before[k + 1])
  }

  /** `after` is `before` with another item at `i`. */
  ghost predicate Rewritten(before: seq<QueueItem>, after: seq<QueueItem>, i: nat, item: QueueItem) {
    && i < |before| == |after| && after[i] == item
    && forall k :: 0 <= k < |before| && k != i ==> after[k] == before[k]
  }

  lemma {:induction false} QueuedAt(queue: seq<QueueItem>, id: MessageID)
    ensures Queued(queue, id) <==> QueueIndex(queue, id) < |queue|
    ensures Queued(queue, id) ==> Holds(queue, QueueIndex(queue, id), id)
    ensures forall i: nat :: Holds(queue, i, id) ==> i == QueueIndex(queue, id)
  {
    if Queued(queue, id) {
      var i :| 0 <= i < |queue| && queue[i].message.id == id;
      assert QueueIndex(queue, id) <= i;
    }
  }

  /** A message is queued once, at the end, and unclaimed. */
  lemma {:induction false} EnqueueExact(s: Snapshot, expected: Revision, item: QueueItem)
    ensures var r := ApplyChange(s, expected, EnqueueMessage(item));
            && (r.Ok? <==> item.claimedBy == 0 && !Queued(s.queue, item.message.id))
            && (r.Ok? ==> OnlyQueue(s, r.value) && r.value.queue == s.queue + [item])
            && (item.claimedBy == 0 && r.Err? ==> r.code == QueueItemAlreadyExists)
  {
    QueuedAt(s.queue, item.message.id);
  }

  /** Only the active Run claims, and only what nobody has claimed. */
  lemma {:induction false} ClaimExact(s: Snapshot, expected: Revision, id: MessageID, run: RunID, i: nat)
    requires Queued(s.queue, id) ==> Holds(s.queue, i, id)
    ensures var r := ApplyChange(s, expected, ClaimQueue(id, run));
            && (r.Ok? <==> Queued(s.queue, id) && s.queue[i].claimedBy == 0 && s.running && s.activeRun == run)
            && (r.Ok? ==> OnlyQueue(s, r.value))
            && (r.Ok? ==> Rewritten(s.queue, r.value.queue, i, s.queue[i].(claimedBy := run)))
            && (!Queued(s.queue, id) ==> r == Err(QueueItemNotFound))
            && (Queued(s.queue, id) && s.queue[i].claimedBy != 0 ==> r == Err(QueueItemClaimed))
  {
    QueuedAt(s.queue, id);
  }

  /** The claiming Run takes the item out. */
  lemma {:induction false} ConsumeExact(s: Snapshot, expected: Revision, id: MessageID, run: RunID, i: nat)
    requires Queued(s.queue, id) ==> Holds(s.queue, i, id)
    ensures var r := ApplyChange(s, expected, ConsumeQueue(id, run));
            && (r.Ok? <==> Queued(s.queue, id) && s.queue[i].claimedBy == run)
            && (r.Ok? ==> OnlyQueue(s, r.value) && Without(s.queue, r.value.queue, i))
            && (!Queued(s.queue, id) ==> r == Err(QueueItemNotFound))
            && (Queued(s.queue, id) && r.Err? ==> r.code == QueueItemClaimed)
  {
    QueuedAt(s.queue, id);
  }

  /** Deleting takes out the unclaimed item of that message and no other. */
  lemma {:induction false} DeleteExact(s: Snapshot, expected: Revision, id: MessageID, i: nat)
    requires Queued(s.queue, id) ==> Holds(s.queue, i, id)
    ensures var r := ApplyChange(s, expected, DeleteQueue(id));
            && (r.Ok? <==> Queued(s.queue, id) && s.queue[i].claimedBy == 0)
            && (r.Ok? ==> OnlyQueue(s, r.value) && Without(s.queue, r.value.queue, i))
            && (!Queued(s.queue, id) ==> r == Err(QueueItemNotFound))
            && (Queued(s.queue, id) && r.Err? ==> r.code == QueueItemClaimed)
  {
    QueuedAt(s.queue, id);
  }

  /** Editing gives the unclaimed item of that message new parts and a new delivery. */
  lemma {:induction false} EditExact(s: Snapshot, expected: Revision, id: MessageID, parts: seq<nat>,
                                     delivery: Delivery, i: nat)
    requires Queued(s.queue, id) ==> Holds(s.queue, i, id)
    ensures var r := ApplyChange(s, expected, EditQueue(id, parts, delivery));
            && (r.Ok? <==> Queued(s.queue, id) && s.queue[i].claimedBy == 0)
            && (r.Ok? ==> OnlyQueue(s, r.value))
            && (r.Ok? ==>
                  var old_, new_ := s.queue[i], r.value.queue[i];
                  && Rewritten(s.queue, r.value.queue, i, new_)
                  && new_.message.parts == parts && new_.delivery == delivery
                  && new_.(message := old_.message, delivery := old_.delivery) == old_
                  && new_.message.(parts := old_.message.parts) == old_.message)
            && (!Queued(s.queue, id) ==> r == Err(QueueItemNotFound))
            && (Queued(s.queue, id) && r.Err? ==> r.code == QueueItemClaimed)
  {
    QueuedAt(s.queue, id);
  }

  /** Reclassifying gives the unclaimed item of that message a new delivery. */
  lemma {:induction false} ReclassifyExact(s: Snapshot, expected: Revision, id: MessageID, delivery: Delivery, i: nat)
    requires Queued(s.queue, id) ==> Holds(s.queue, i, id)
    ensures var r := ApplyChange(s, expected, ReclassifyQueue(id, delivery));
            && (r.Ok? <==> Queued(s.queue, id) && s.queue[i].claimedBy == 0)
            && (r.Ok? ==> OnlyQueue(s, r.value))
            && (r.Ok? ==> Rewritten(s.queue, r.value.queue, i, s.queue[i].(delivery := delivery)))
            && (!Queued(s.queue, id) ==> r == Err(QueueItemNotFound))
            && (Queued(s.queue, id) && r.Err? ==> r.code == QueueItemClaimed)
  {
    QueuedAt(s.queue, id);
  }

  // ---------------------------------------------------------------- contexts, configuration, Run state

  /** A context replaces the one before it, made from this revision and from all of History, for a Run it matches. With
      `retain` the replaced context joins the retained ones, without it they are dropped. */
  lemma {:induction false} ContextExact(s: Snapshot, expected: Revision, v: ContextView, retain: bool)
    requires HistoryOk(s)
    ensures var r := ApplyChange(s, expected, SetContext(v, retain));
            && (r.Ok? <==>
                  && v.sourceRevision == expected && v.version == s.context.version + 1
                  && v.sourceSequence == |s.history|
                  && ContextViewValid(v, s.session.id) && ContextRunValid(s.history, v))
            && (r.Ok? ==>
                  && r.value == s.(context := r.value.context, retained := r.value.retained)
                  && r.value.context == v
                  && (!retain ==> r.value.retained == [])
                  && (retain && s.context.version == 0 ==> r.value.retained == s.retained)
                  && (retain && s.context.version > 0 ==> r.value.retained == s.retained + [s.context]))
  {
  }

  /** The configuration changes only while no Run is active, and its event names both configurations at the revision the
      commit publishes. */
  lemma {:induction false} SelectionExact(s: Snapshot, expected: Revision, p: Config, n: Config)
    ensures var r := ApplyChange(s, expected, SetModelConfig(n));
            (r.Ok? <==> !s.running) && (r.Ok? ==> r.value == s.(config := n)) && (r.Err? ==> r.code == ActiveRunExists)
    ensures var r := ApplyChange(s, expected, AppendSessionEvent(p, n));
            r.Ok? ==>
              && r.value == s.(events := r.value.events, history := r.value.history)
              && |r.value.events| == |s.events| + 1 && r.value.events[..|s.events|] == s.events
              && r.value.events[|s.events|].revision == s.revision + 1
              && r.value.events[|s.events|].previous == p && r.value.events[|s.events|].current == n
              && |r.value.history| == |s.history| + 1
              && r.value.history[|s.history|].payload == ConfigPayload(p, n)
    ensures p.Valid() && n.Valid() ==> ApplyChange(s, expected, AppendSessionEvent(p, n)).Ok?
  {
  }

  /** A Run becomes active in an idle Session, and only the active Run becomes idle. */
  lemma {:induction false} RunStateExact(s: Snapshot, expected: Revision, run: RunID)
    ensures var r := ApplyChange(s, expected, SetRunState(run, true));
            && (r.Ok? <==> !s.running) && (r.Ok? ==> r.value == s.(running := true, activeRun := run))
            && (r.Err? ==> r.code == ActiveRunExists)
    ensures var r := ApplyChange(s, expected, SetRunState(run, false));
            && (r.Ok? <==> s.running && s.activeRun == run)
            && (r.Ok? ==> r.value == s.(running := false, activeRun := 0)) && (r.Err? ==> r.code == NoActiveRun)
  {
  }

  // ---------------------------------------------------------------- tool journal

  ghost predicate Journaled(journal: seq<JournalEntry>, i: nat, id: ToolCallID) {
    i < |journal| && journal[i].call.id == id && forall k :: 0 <= k < i ==> journal[k].call.id != id
  }

  lemma {:induction false} JournaledAt(journal: seq<JournalEntry>, id: ToolCallID)
    ensures JournalIndex(journal, id) < |journal| <==> exists i :: 0 <= i < |journal| && journal[i].call.id == id
    ensures forall i: nat :: Journaled(journal, i, id) ==> i == JournalIndex(journal, id)
  {
    if i :| 0 <= i < |journal| && journal[i].call.id == id {
      assert JournalIndex(journal, id) <= i;
    }
  }

  /** An entry for a call the journal does not hold is appended, if it is unfinished and of the active Run. */
  lemma {:induction false} FirstEntryExact(s: Snapshot, expected: Revision, e: JournalEntry)
    requires forall i :: 0 <= i < |s.journal| ==> s.journal[i].call.id != e.call.id
    ensures var r := ApplyChange(s, expected, UpdateRunJournal(e));
            && (r.Ok? <==> e.Valid(s.session.id) && Unfinished(e.status) && s.running && s.activeRun == e.run)
            && (r.Ok? ==> r.value == s.(journal := s.journal + [e]))
            && (r.Err? ==> r.code == JournalInvariant)
  {
    JournaledAt(s.journal, e.call.id);
  }

  /** A held entry of the same call moves from prepared to pending or to its end, and a pending one to its end; nothing
      comes back to prepared, and nothing leaves its end. */
  lemma {:induction false} NextEntryExact(s: Snapshot, expected: Revision, e: JournalEntry, i: nat)
    requires Journaled(s.journal, i, e.call.id)
    ensures var r := ApplyChange(s, expected, UpdateRunJournal(e));
            var old_ := s.journal[i];
            && (r.Ok? <==>
                  && e.Valid(s.session.id) && old_.run == e.run && old_.step == e.step && old_.call == e.call
                  && ((old_.status == JournalPrepared && e.status != JournalPrepared)
                      || (old_.status == JournalPending && !Unfinished(e.status))))
            && (r.Ok? ==>
                  && |r.value.journal| == |s.journal| && r.value == s.(journal := r.value.journal)
                  && r.value.journal[i].status == e.status
                  && r.value.journal[i].result == (if Unfinished(e.status) then old_.result else e.result)
                  && r.value.journal[i].(status := old_.status, result := old_.result) == old_
                  && forall k :: 0 <= k < |s.journal| && k != i ==> r.value.journal[k] == s.journal[k])
            && (r.Err? ==> r.code == JournalInvariant)
  {
    JournaledAt(s.journal, e.call.id);
  }
}
