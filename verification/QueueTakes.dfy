/** What the Runtime's commits take from the Queue and write in its place: a start its own message, a boundary its
    steers; and which Run they leave active (standardagent/runtime_execution.go startChangesLocked,
    appendInputConsumption, commitToolResults, finishRun). */
module QueueTakes {
  import opened SessionTypes
  import opened Transactions
  import opened AggregateInvariant
  import opened RuntimeCommits
  import opened ChangeEffects
  import opened BuilderEffects

  /** A change that leaves the Queue and the Run state alone. */
  predicate Silent(c: Change) {
    && !c.EnqueueMessage? && !c.ClaimQueue? && !c.ConsumeQueue? && !c.EditQueue? && !c.DeleteQueue?
    && !c.ReclassifyQueue? && !c.SetRunState?
  }

  ghost predicate AllSilent(changes: seq<Change>) {
    forall i :: 0 <= i < |changes| ==> Silent(changes[i])
  }

  ghost predicate SameState(s: Snapshot, s': Snapshot) {
    && s'.queue == s.queue && s'.running == s.running && s'.activeRun == s.activeRun
    && s.history <= s'.history
  }

  lemma {:induction false} OneSilent(s: Snapshot, expected: Revision, c: Change, s': Snapshot)
    requires Silent(c) && ApplyChange(s, expected, c) == Ok(s')
    ensures SameState(s, s')
  {
  }

  lemma {:induction false} SilentKeeps(s: Snapshot, expected: Revision, changes: seq<Change>, s': Snapshot)
    requires AllSilent(changes) && ApplyAll(s, expected, changes) == Ok(s')
    ensures SameState(s, s')
    decreases |changes|
  {
    if changes != [] {
      hide ApplyChange;
      var mid := ApplyChange(s, expected, changes[0]).value;
      OneSilent(s, expected, changes[0], mid);
      SilentKeeps(mid, expected, changes[1..], s');
    }
  }

  lemma {:induction false} SilentConcat(a: seq<Change>, b: seq<Change>)
    requires AllSilent(a) && AllSilent(b)
    ensures AllSilent(a + b)
  {
  }

  lemma {:induction false} ConsumesSilent(ops: seq<Op>)
    requires forall op :: op in ops ==> op.ConsumeContext?
    ensures AllSilent(Expand(ops))
  {
    if ops != [] {
      assert ops[0] in ops;
      ConsumesSilent(ops[1..]);
    }
  }

  lemma {:induction false} AllConsume(entries: seq<ExtensionEntry>, message: MessageID, run: RunID, step: StepID)
    ensures forall op :: op in InputContextOps(entries, message, run, step) ==> op.ConsumeContext?
    ensures forall op :: op in LifecycleOps(entries, run, step) ==> op.ConsumeContext?
  {
    if entries != [] {
      AllConsume(entries[..|entries| - 1], message, run, step);
    }
  }

  lemma {:induction false} ContextsSilent(entries: seq<ExtensionEntry>, message: MessageID, run: RunID, step: StepID)
    ensures AllSilent(Expand(InputContextOps(entries, message, run, step)))
    ensures AllSilent(Expand(LifecycleOps(entries, run, step)))
  {
    hide *;
    AllConsume(entries, message, run, step);
    ConsumesSilent(InputContextOps(entries, message, run, step));
    ConsumesSilent(LifecycleOps(entries, run, step));
  }

  /** The message as it enters the conversation. */
  predicate Enters(before: seq<HistoryFact>, after: seq<HistoryFact>, item: QueueItem, run: RunID, step: StepID) {
    exists k :: |before| <= k < |after| && after[k].payload == MessagePayload(item.message.(run := run, step := step))
  }

  /** The item of the message was unclaimed, it alone is gone, and the message has entered the conversation. */
  ghost predicate Taken(s: Snapshot, item: QueueItem, run: RunID, step: StepID, s': Snapshot) {
    && (exists i: nat :: Holds(s.queue, i, item.message.id) && s.queue[i].claimedBy == 0
                         && Without(s.queue, s'.queue, i))
    && s.running && s.activeRun == run && s'.running && s'.activeRun == run
    && s.history <= s'.history && Enters(s.history, s'.history, item, run, step)
  }

  lemma {:induction false} ClaimThenConsume(s: Snapshot, expected: Revision, id: MessageID, run: RunID, s': Snapshot)
    requires ApplyAll(s, expected, [ClaimQueue(id, run), ConsumeQueue(id, run)]) == Ok(s')
    ensures s.running && s.activeRun == run && s' == s.(queue := s'.queue)
    ensures exists i: nat :: Holds(s.queue, i, id) && s.queue[i].claimedBy == 0 && Without(s.queue, s'.queue, i)
  {
    var a, b := ClaimQueue(id, run), ConsumeQueue(id, run);
    ApplyTwo(s, expected, a, b, s');
    var mid := ApplyChange(s, expected, a).value;
    hide ApplyAll;
    hide ApplyChange;
    QueuedAt(s.queue, id);
    QueuedAt(mid.queue, id);
    var i, j := QueueIndex(s.queue, id), QueueIndex(mid.queue, id);
    ClaimExact(s, expected, id, run, i);
    ConsumeExact(mid, expected, id, run, j);
    hide QueueIndex;
    assert Holds(mid.queue, i, id);
    assert i == j;
    assert Without(s.queue, s'.queue, i);
  }

  lemma {:induction false} MessageEnters(s: Snapshot, expected: Revision, item: QueueItem, run: RunID, step: StepID,
                                         s': Snapshot)
    requires ApplyChange(s, expected, AppendMessage(item.message.(run := run, step := step))) == Ok(s')
    ensures SameState(s, s') && |s'.history| == |s.history| + 1
    ensures s'.history[|s.history|].payload == MessagePayload(item.message.(run := run, step := step))
  {
  }

  /** Taking a message in. */
  lemma {:induction false} ConsumptionTakes(s: Snapshot, at: Snapshot, expected: Revision, item: QueueItem, run: RunID,
                                            step: StepID, s': Snapshot)
    requires ApplyAll(at, expected, Expand(ConsumptionOps(s, item, run, step))) == Ok(s')
    ensures Taken(at, item, run, step, s')
  {
    ConsumptionParts(s, item, run, step);
    hide *;
    var id, message := item.message.id, AppendMessage(item.message.(run := run, step := step));
    var pair, contexts := [ClaimQueue(id, run), ConsumeQueue(id, run)],
      Expand(InputContextOps(s.extensions, id, run, step));
    ApplyConcat(at, expected, pair, [message] + contexts);
    var taken := ApplyAll(at, expected, pair).value;
    ClaimThenConsume(at, expected, id, run, taken);
    ApplyConcat(taken, expected, [message], contexts);
    ApplyOne(taken, expected, message);
    var said := ApplyAll(taken, expected, [message]).value;
    MessageEnters(taken, expected, item, run, step, said);
    ContextsSilent(s.extensions, id, run, step);
    SilentKeeps(said, expected, contexts, s');
    TakenIs(at, taken, said, item, run, step, s');
  }

  lemma {:induction false} ConsumptionParts(s: Snapshot, item: QueueItem, run: RunID, step: StepID)
    ensures Expand(ConsumptionOps(s, item, run, step)) ==
            [ClaimQueue(item.message.id, run), ConsumeQueue(item.message.id, run)]
            + ([AppendMessage(item.message.(run := run, step := step))]
               + Expand(InputContextOps(s.extensions, item.message.id, run, step)))
  {
    var a, b := Plain(ClaimQueue(item.message.id, run)), Plain(ConsumeQueue(item.message.id, run));
    var c := Plain(AppendMessage(item.message.(run := run, step := step)));
    var rest := InputContextOps(s.extensions, item.message.id, run, step);
    ExpandConcat([a, b, c], rest);
    ExpandConcat([a, b], [c]);
    ExpandConcat([a], [b]);
    ExpandOne(a);
    ExpandOne(b);
    ExpandOne(c);
    assert [a, b, c] == [a, b] + [c] && [a, b] == [a] + [b];
    hide InputContextOps;
    hide Expand;
  }

  lemma {:induction false} TakenIs(at: Snapshot, taken: Snapshot, said: Snapshot, item: QueueItem, run: RunID,
                                   step: StepID, s': Snapshot)
    requires at.running && at.activeRun == run && taken == at.(queue := taken.queue)
    requires exists i: nat ::
               Holds(at.queue, i, item.message.id) && at.queue[i].claimedBy == 0 && Without(at.queue, taken.queue, i)
    requires SameState(taken, said) && |said.history| == |taken.history| + 1
    requires said.history[|taken.history|].payload == MessagePayload(item.message.(run := run, step := step))
    requires SameState(said, s')
    ensures Taken(at, item, run, step, s')
  {
    assert s'.history[|at.history|].payload == MessagePayload(item.message.(run := run, step := step));
    hide Holds;
    hide Without;
  }

  // ---------------------------------------------------------------- a start

  lemma {:induction false} StartRuns(s: Snapshot, expected: Revision, f: RunFact, s': Snapshot)
    requires ApplyAll(s, expected, Changes(StartRun(f))) == Ok(s')
    ensures !s.running && s'.running && s'.activeRun == f.run && s'.queue == s.queue && s.history <= s'.history
  {
    ApplyTwo(s, expected, SetRunState(f.run, true), AppendRunFact(f), s');
  }

  lemma {:induction false} Enqueues(s: Snapshot, expected: Revision, item: QueueItem, s': Snapshot)
    requires ApplyAll(s, expected, [EnqueueMessage(item)]) == Ok(s')
    ensures s' == s.(queue := s.queue + [item]) && !Queued(s.queue, item.message.id)
  {
    ApplyOne(s, expected, EnqueueMessage(item));
    EnqueueExact(s, expected, item);
  }

  lemma {:induction false} StartParts(s: Snapshot, item: QueueItem, run: RunID, step: StepID, enqueue: bool)
    ensures Started(s, run).run == run
    ensures Expand(StartOps(s, item, run, step, enqueue)) ==
            (if enqueue then [EnqueueMessage(item)] else [])
            + (Changes(StartRun(Started(s, run)))
               + (Expand(LifecycleOps(s.extensions, run, step)) + Expand(ConsumptionOps(s, item, run, step))))
  {
    var first := if enqueue then [Plain(EnqueueMessage(item))] else [];
    var start, contexts, taking := [StartRun(Started(s, run))], LifecycleOps(s.extensions, run, step),
      ConsumptionOps(s, item, run, step);
    assert StartOps(s, item, run, step, enqueue) == first + (start + (contexts + taking));
    hide StartOps;
    hide LifecycleOps;
    hide ConsumptionOps;
    ExpandConcat(first, start + (contexts + taking));
    ExpandConcat(start, contexts + taking);
    ExpandConcat(contexts, taking);
    ExpandOne(StartRun(Started(s, run)));
    ExpandOne(Plain(EnqueueMessage(item)));
  }

  /** A start is made in an idle Session and leaves this Run active. Its message was queued and unclaimed, or comes
      with the commit; afterwards the Queue is what it was without it, and the conversation has it. */
  lemma {:induction false} StartTakes(s: Snapshot, item: QueueItem, run: RunID, step: StepID, enqueue: bool,
                                      s': Snapshot)
    requires Commits(s, Expand(StartOps(s, item, run, step, enqueue)), s')
    ensures !s.running && s'.running && s'.activeRun == run
    ensures s.history <= s'.history && Enters(s.history, s'.history, item, run, step)
    ensures if enqueue then !Queued(s.queue, item.message.id) && s'.queue == s.queue
            else exists i: nat ::
                   Holds(s.queue, i, item.message.id) && s.queue[i].claimedBy == 0 && Without(s.queue, s'.queue, i)
  {
    var last := ApplyAll(s, s.revision, Expand(StartOps(s, item, run, step, enqueue))).value;
    StartParts(s, item, run, step, enqueue);
    hide *;
    var first := if enqueue then [EnqueueMessage(item)] else [];
    var f := Started(s, run);
    var contexts, taking := Expand(LifecycleOps(s.extensions, run, step)), Expand(ConsumptionOps(s, item, run, step));
    ApplyConcat(s, s.revision, first, Changes(StartRun(f)) + (contexts + taking));
    var a := ApplyAll(s, s.revision, first).value;
    if enqueue {
      Enqueues(s, s.revision, item, a);
    } else {
      ApplyNone(s, s.revision);
    }
    ApplyConcat(a, s.revision, Changes(StartRun(f)), contexts + taking);
    var b := ApplyAll(a, s.revision, Changes(StartRun(f))).value;
    StartRuns(a, s.revision, f, b);
    ApplyConcat(b, s.revision, contexts, taking);
    var c := ApplyAll(b, s.revision, contexts).value;
    ContextsSilent(s.extensions, item.message.id, run, step);
    SilentKeeps(b, s.revision, contexts, c);
    ConsumptionTakes(s, c, s.revision, item, run, step, last);
    StartIs(s, a, b, c, item, run, step, enqueue, last);
  }

  lemma {:induction false} ApplyNone(s: Snapshot, expected: Revision)
    ensures ApplyAll(s, expected, []) == Ok(s)
  {
  }

  lemma {:induction false} StartIs(s: Snapshot, a: Snapshot, b: Snapshot, c: Snapshot, item: QueueItem, run: RunID,
                                   step: StepID, enqueue: bool, last: Snapshot)
    requires if enqueue then a == s.(queue := s.queue + [item]) && !Queued(s.queue, item.message.id) else a == s
    requires !a.running && b.queue == a.queue && a.history <= b.history && SameState(b, c)
    requires Taken(c, item, run, step, last)
    ensures !s.running && last.running && last.activeRun == run
    ensures s.history <= last.history && Enters(s.history, last.history, item, run, step)
    ensures if enqueue then last.queue == s.queue
            else exists i: nat ::
                   Holds(s.queue, i, item.message.id) && s.queue[i].claimedBy == 0 && Without(s.queue, last.queue, i)
  {
    if enqueue {
      var i: nat :| Holds(a.queue, i, item.message.id) && Without(a.queue, last.queue, i);
      assert forall k :: 0 <= k < |s.queue| ==> s.queue[k].message.id != item.message.id;
      assert i == |s.queue|;
      assert last.queue == s.queue;
    }
  }

  // ---------------------------------------------------------------- steers

  ghost predicate Distinct(queue: seq<QueueItem>) {
    forall i, j :: 0 <= i < j < |queue| ==> queue[i].message.id != queue[j].message.id
  }

  predicate Steers(items: seq<QueueItem>, id: MessageID) {
    exists k :: 0 <= k < |items| && items[k].message.id == id
  }

  /** Exactly the steers are gone from the Queue, what is left is in its old order, and each steer has entered. */
  ghost predicate SteersTaken(s: Snapshot, items: seq<QueueItem>, run: RunID, step: StepID, s': Snapshot) {
    && (forall i :: 0 <= i < |s'.queue| ==> s'.queue[i] in s.queue && !Steers(items, s'.queue[i].message.id))
    && (forall i :: 0 <= i < |s.queue| ==> s.queue[i] in s'.queue || Steers(items, s.queue[i].message.id))
    && Distinct(s'.queue) && s.history <= s'.history && s'.running == s.running && s'.activeRun == s.activeRun
    && |s'.queue| + |items| == |s.queue|
    && (forall k :: 0 <= k < |items| ==>
          s.running && s.activeRun == run && Enters(s.history, s'.history, items[k], run, step))
  }

  lemma {:induction false} OneMore(s: Snapshot, items: seq<QueueItem>, run: RunID, step: StepID, mid: Snapshot,
                                   item: QueueItem, s': Snapshot)
    requires SteersTaken(s, items, run, step, mid) && Taken(mid, item, run, step, s')
    ensures SteersTaken(s, items + [item], run, step, s')
  {
    var i: nat :| Holds(mid.queue, i, item.message.id) && Without(mid.queue, s'.queue, i);
    var more := items + [item];
    assert more[|items|] == item;
    forall id ensures Steers(more, id) <==> Steers(items, id) || id == item.message.id {
      assert forall k :: 0 <= k < |items| ==> more[k] == items[k];
    }
    forall k | 0 <= k < |s'.queue| ensures s'.queue[k] in mid.queue && s'.queue[k].message.id != item.message.id {
      if k < i {
        assert s'.queue[k] == mid.queue[k];
      } else {
        assert s'.queue[k] == mid.queue[k + 1];
      }
    }
    forall k | 0 <= k < |mid.queue| && k != i ensures mid.queue[k] in s'.queue {
      if k < i {
        assert mid.queue[k] == s'.queue[k];
      } else {
        assert mid.queue[k] == s'.queue[k - 1];
      }
    }
    hide Steers;
  }

  lemma {:induction false} SteersTake(s: Snapshot, at: Snapshot, expected: Revision, items: seq<QueueItem>, run: RunID,
                                      step: StepID, s': Snapshot)
    requires ApplyAll(at, expected, Expand(SteerOps(s, items, run, step))) == Ok(s') && Distinct(at.queue)
    ensures SteersTaken(at, items, run, step, s')
  {
    hide *;
    SteerParts(s, at, expected, items, run, step);
    if items != [] {
      var front, item := items[..|items| - 1], items[|items| - 1];
      assert items == front + [item];
      var a, b := Expand(SteerOps(s, front, run, step)), Expand(ConsumptionOps(s, item, run, step));
      ApplyConcat(at, expected, a, b);
      var mid := ApplyAll(at, expected, a).value;
      SteersTake(s, at, expected, front, run, step, mid);
      ConsumptionTakes(s, mid, expected, item, run, step, s');
      OneMore(at, front, run, step, mid, item, s');
    } else {
      NoSteers(at, run, step);
    }
  }

  lemma {:induction false} SteerParts(s: Snapshot, at: Snapshot, expected: Revision, items: seq<QueueItem>, run: RunID,
                                      step: StepID)
    ensures items == [] ==> ApplyAll(at, expected, Expand(SteerOps(s, items, run, step))) == Ok(at)
    ensures items != [] ==>
              Expand(SteerOps(s, items, run, step)) ==
              Expand(SteerOps(s, items[..|items| - 1], run, step))
              + Expand(ConsumptionOps(s, items[|items| - 1], run, step))
  {
    if items != [] {
      ExpandConcat(SteerOps(s, items[..|items| - 1], run, step), ConsumptionOps(s, items[|items| - 1], run, step));
    }
    hide ConsumptionOps;
    hide ApplyChange;
  }

  lemma {:induction false} NoSteers(at: Snapshot, run: RunID, step: StepID)
    requires Distinct(at.queue)
    ensures SteersTaken(at, [], run, step, at)
  {
  }

  lemma {:induction false} SettlesSilent(calls: seq<ToolCall>, results: seq<ToolResult>)
    requires |calls| == |results|
    ensures AllSilent(Expand(SettleOps(calls, results)))
  {
    if calls != [] {
      var n := |calls| - 1;
      var op := SettleCall(calls[n], results[n]);
      SettlesSilent(calls[..n], results[..n]);
      ExpandConcat(SettleOps(calls[..n], results[..n]), [op]);
      ExpandOne(op);
      SilentConcat(Expand(SettleOps(calls[..n], results[..n])), Changes(op));
    }
  }

  lemma {:induction false} ReservesSilent(entries: seq<ExtensionEntry>)
    ensures AllSilent(Expand(ReserveOps(entries)))
  {
    if entries != [] {
      ReservesSilent(entries[1..]);
      assert ReserveOps(entries)[1..] == ReserveOps(entries[1..]);
    }
  }

  /** Counting from a state that was the same. */
  lemma {:induction false} FromBefore(s: Snapshot, mid: Snapshot, items: seq<QueueItem>, run: RunID, step: StepID,
                                      last: Snapshot, s': Snapshot)
    requires SameState(s, mid) && SteersTaken(mid, items, run, step, last) && s' == last.(revision := s'.revision)
    ensures SteersTaken(s, items, run, step, s')
  {
    assert s.history <= s'.history && s'.queue == last.queue && mid.queue == s.queue;
    forall k | 0 <= k < |items|
      ensures s.running && s.activeRun == run && Enters(s.history, s'.history, items[k], run, step)
    {
      assert Enters(mid.history, last.history, items[k], run, step);
      var j :| |mid.history| <= j < |last.history|
        && last.history[j].payload == MessagePayload(items[k].message.(run := run, step := step));
      assert s'.history[j] == last.history[j];
    }
    hide Steers;
    hide Enters;
  }

  /** The boundary behind results takes in the steers: each was queued, is claimed by the active Run, consumed and
      entered; all others stay. */
  lemma {:induction false} BoundaryTakes(s: Snapshot, calls: seq<ToolCall>, results: seq<ToolResult>,
                                         reserved: seq<ExtensionEntry>, steers: seq<QueueItem>, run: RunID,
                                         step: StepID, s': Snapshot)
    requires |calls| == |results| && Distinct(s.queue)
    requires Commits(s, Expand(ResultOps(s, calls, results, reserved, steers, run, step)), s')
    ensures SteersTaken(s, steers, run, step, s')
  {
    var changes := Expand(ResultOps(s, calls, results, reserved, steers, run, step));
    var last := ApplyAll(s, s.revision, changes).value;
    BoundaryParts(s, calls, results, reserved, steers, run, step);
    hide *;
    var a := Expand(SettleOps(calls, results)) + Expand(ReserveOps(reserved));
    var b := Expand(SteerOps(s, steers, run, step));
    ApplyConcat(s, s.revision, a, b);
    var mid := ApplyAll(s, s.revision, a).value;
    SettlesSilent(calls, results);
    ReservesSilent(reserved);
    SilentConcat(Expand(SettleOps(calls, results)), Expand(ReserveOps(reserved)));
    SilentKeeps(s, s.revision, a, mid);
    SameQueue(s, mid);
    SteersTake(s, mid, s.revision, steers, run, step, last);
    FromBefore(s, mid, steers, run, step, last, s');
  }

  lemma {:induction false} SameQueue(s: Snapshot, mid: Snapshot)
    requires SameState(s, mid) && Distinct(s.queue)
    ensures Distinct(mid.queue)
  {
  }

  lemma {:induction false} BoundaryParts(s: Snapshot, calls: seq<ToolCall>, results: seq<ToolResult>,
                                         reserved: seq<ExtensionEntry>, steers: seq<QueueItem>, run: RunID,
                                         step: StepID)
    requires |calls| == |results|
    ensures Expand(ResultOps(s, calls, results, reserved, steers, run, step)) ==
            Expand(SettleOps(calls, results)) + Expand(ReserveOps(reserved)) + Expand(SteerOps(s, steers, run, step))
  {
    var a, b, c := SettleOps(calls, results), ReserveOps(reserved), SteerOps(s, steers, run, step);
    assert ResultOps(s, calls, results, reserved, steers, run, step) == a + b + c;
    hide *;
    ExpandConcat(a + b, c);
    ExpandConcat(a, b);
  }

  // ---------------------------------------------------------------- an end

  /** An end without successor leaves no Run active, gives what is held back the held delivery, and takes nothing. */
  lemma {:induction false} FinishLeaves(s: Snapshot, held: seq<QueueItem>, f: RunFact, s': Snapshot)
    requires Commits(s, Expand(FinishOps(held, f, [])), s') && Distinct(s.queue)
    ensures s.running && s.activeRun == f.run && !s'.running
    ensures |s'.queue| == |s.queue|
    ensures forall i :: 0 <= i < |s.queue| ==>
              s'.queue[i] == if Steers(held, s.queue[i].message.id) then s.queue[i].(delivery := DeliveryHeld)
                             else s.queue[i]
  {
    var last := ApplyAll(s, s.revision, Expand(FinishOps(held, f, []))).value;
    FinishParts(held, f);
    hide *;
    ApplyConcat(s, s.revision, Expand(HoldOps(held)[0..]), Changes(FinishRun(f)));
    var mid := ApplyAll(s, s.revision, Expand(HoldOps(held)[0..])).value;
    HoldsAre(s, held, mid);
    FinishStops(mid, s.revision, f, last);
  }

  lemma {:induction false} HoldsAre(s: Snapshot, held: seq<QueueItem>, mid: Snapshot)
    requires ApplyAll(s, s.revision, Expand(HoldOps(held)[0..])) == Ok(mid) && Distinct(s.queue)
    ensures mid == s.(queue := mid.queue) && |mid.queue| == |s.queue|
    ensures forall i :: 0 <= i < |s.queue| ==>
              mid.queue[i] == if Steers(held, s.queue[i].message.id) then s.queue[i].(delivery := DeliveryHeld)
                              else s.queue[i]
  {
    hide ApplyAll;
    hide Expand;
    hide HoldOps;
    HoldsTake(s, s.revision, held, 0, mid);
  }

  lemma {:induction false} FinishStops(s: Snapshot, expected: Revision, f: RunFact, s': Snapshot)
    requires ApplyAll(s, expected, Changes(FinishRun(f))) == Ok(s')
    ensures s.running && s.activeRun == f.run && !s'.running && s'.queue == s.queue
  {
    ApplyTwo(s, expected, AppendRunFact(f), SetRunState(f.run, false), s');
  }

  lemma {:induction false} FinishParts(held: seq<QueueItem>, f: RunFact)
    ensures Expand(FinishOps(held, f, [])) == Expand(HoldOps(held)[0..]) + Changes(FinishRun(f))
  {
    assert FinishOps(held, f, []) == HoldOps(held) + [FinishRun(f)] && HoldOps(held)[0..] == HoldOps(held);
    ExpandConcat(HoldOps(held), [FinishRun(f)]);
    ExpandOne(FinishRun(f));
  }
}
