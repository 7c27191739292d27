/** The commits the Runtime builds, as lists of operations (standardagent/runtime_execution.go commitCompletion,
    commitToolResults, appendInputConsumption, startChangesLocked, finishRun, markToolExecuting;
    runtime_input_gate_context.go; runtime_lifecycle.go). Each has the shape that keeps the aggregate
    invariant, and each says its part of the conversation in order. */
module RuntimeCommits {
  import opened SessionTypes
  import opened HistoryChecker
  import opened Transactions
  import opened AggregateInvariant
  import opened ProtocolHistory

  // ---------------------------------------------------------------- shapes that do not depend on the state

  /** The operation has the Runtime's shape whatever the aggregate. */
  predicate AlwaysShaped(op: Op) {
    match op
    case StartRun(f) => f.kind == RunStarted
    case FinishRun(_) => false
    case PrepareCall(_) => true
    case SettleCall(c, r) => r.call == c.id
    case MarkExecuting(_) => false
    case ConsumeContext(x, e) =>
      x.source == HookSource(e.identity.key, e.identity.invocation) && e.context == ContextConsumed
    case SelectModel(_, _) => true
    case Plain(c) => PlainKind(c) && !c.AppendRunLimitExceeded?
  }

  lemma {:induction false} AlwaysIsShaped(s: Snapshot, ops: seq<Op>)
    requires forall op :: op in ops ==> AlwaysShaped(op)
    ensures AllShaped(s, ops)
    decreases |ops|
  {
    hide ApplyAll;
    if ops != [] {
      assert ops[0] in ops;
      var next := ApplyAll(s, s.revision, Changes(ops[0]));
      if next.Ok? {
        AlwaysIsShaped(next.value, ops[1..]);
      }
    }
  }

  lemma {:induction false} ShapedConcat(s: Snapshot, a: seq<Op>, b: seq<Op>)
    requires AllShaped(s, a)
    requires forall s' :: ApplyAll(s, s.revision, Expand(a)) == Ok(s') ==> AllShaped(s', b)
    ensures AllShaped(s, a + b)
    decreases |a|
  {
    if a == [] {
      assert a + b == b;
      assert ApplyAll(s, s.revision, Expand(a)) == Ok(s);
    } else {
      assert (a + b)[1..] == a[1..] + b;
      var next := ApplyAll(s, s.revision, Changes(a[0]));
      ApplyConcat(s, s.revision, Changes(a[0]), Expand(a[1..]));
      if next.Ok? {
        ChangesKeepRevision(s, s.revision, Changes(a[0]), next.value);
        hide ApplyAll;
        hide Shaped;
        ShapedConcat(next.value, a[1..], b);
      }
    }
  }

  lemma {:induction false} ChangesKeepRevision(s: Snapshot, expected: Revision, changes: seq<Change>, s': Snapshot)
    requires ApplyAll(s, expected, changes) == Ok(s')
    ensures s'.revision == s.revision
    decreases |changes|
  {
    if changes != [] {
      var mid := ApplyChange(s, expected, changes[0]).value;
      ChangeKeepsRevision(s, expected, changes[0], mid);
      hide ApplyChange;
      ChangesKeepRevision(mid, expected, changes[1..], s');
    }
  }

  lemma {:induction false} ChangeKeepsRevision(s: Snapshot, expected: Revision, c: Change, s': Snapshot)
    requires ApplyChange(s, expected, c) == Ok(s')
    ensures s'.revision == s.revision
  {
  }

  /** Operations that append no call. */
  predicate Callless(op: Op) {
    AlwaysShaped(op) && !op.PrepareCall?
  }

  /** What the Runtime writes beside the conversation: queue, attempts, budgets, contexts, configuration and hook
      invocations. */
  predicate Quiet(op: Op) {
    Callless(op) && !op.StartRun? && !op.SettleCall? && !(op.Plain? && op.change.AppendMessage?)
  }

  lemma {:induction false} CalllessExpand(ops: seq<Op>)
    requires forall op :: op in ops ==> Callless(op) || op.FinishRun?
    ensures NoCalls(Expand(ops))
  {
    if ops != [] {
      assert ops[0] in ops;
      CalllessExpand(ops[1..]);
    }
  }

  // ---------------------------------------------------------------- contexts

  /** inputGateContextSource. */
  function SourceOf(e: ExtensionEntry): (r: SourceKey) {
    HookSource(e.identity.key, e.identity.invocation)
  }

  function ConsumeOp(e: ExtensionEntry, run: RunID, step: StepID, inputs: seq<Input>): (r: Op) {
    ConsumeContext(Contribution(run, step, SourceOf(e), inputs), e.(context := ContextConsumed, inputs := []))
  }

  /** An accepted input's context that waits for its message to be consumed. */
  predicate WaitsForMessage(e: ExtensionEntry, message: MessageID) {
    && e.identity.boundary == BoundaryInputGate && e.identity.message == message && e.status.InvocationSucceeded?
    && e.result == Some(DecisionAccept) && e.effect == EffectApplied && e.context == ContextPending
  }

  /** A context of an opened Session that waits for the next Run. */
  predicate WaitsForRun(e: ExtensionEntry) {
    && e.identity.boundary == BoundarySessionLifecycle && e.identity.phase == LifecycleOpen
    && e.status.InvocationSucceeded? && e.effect == EffectApplied && e.context == ContextPending
  }

  /** bindLifecycleContext. */
  function Bind(inputs: seq<Input>, run: RunID, step: StepID): (r: seq<Input>) {
    seq(|inputs|, i requires 0 <= i < |inputs| =>
      if inputs[i].MessageInput? then MessageInput(inputs[i].message.(run := run, step := step)) else inputs[i])
  }

  function InputContextOps(entries: seq<ExtensionEntry>, message: MessageID, run: RunID, step: StepID): (r: seq<Op>) {
    if entries == [] then []
    else
      var e := entries[|entries| - 1];
      InputContextOps(entries[..|entries| - 1], message, run, step) +
      if WaitsForMessage(e, message) then [ConsumeOp(e, run, step, e.inputs)] else []
  }

  function LifecycleOps(entries: seq<ExtensionEntry>, run: RunID, step: StepID): (r: seq<Op>) {
    if entries == [] then []
    else
      var e := entries[|entries| - 1];
      LifecycleOps(entries[..|entries| - 1], run, step) +
      if WaitsForRun(e) then [ConsumeOp(e, run, step, Bind(e.inputs, run, step))] else []
  }

  lemma {:induction false} ContextsCallless(entries: seq<ExtensionEntry>, message: MessageID, run: RunID, step: StepID)
    ensures forall op :: op in InputContextOps(entries, message, run, step) ==> Callless(op)
    ensures forall op :: op in LifecycleOps(entries, run, step) ==> Callless(op)
  {
    if entries != [] {
      ContextsCallless(entries[..|entries| - 1], message, run, step);
    }
  }

  /** Expansion of a longer list. */
  lemma {:induction false} ExpandConcat(a: seq<Op>, b: seq<Op>)
    ensures Expand(a + b) == Expand(a) + Expand(b)
  {
    if a == [] {
      assert a + b == b;
    } else {
      assert (a + b)[1..] == a[1..] + b;
      ExpandConcat(a[1..], b);
      assert Changes(a[0]) + (Expand(a[1..]) + Expand(b)) == (Changes(a[0]) + Expand(a[1..])) + Expand(b);
    }
  }

  lemma {:induction false} ExpandOne(op: Op)
    ensures Expand([op]) == Changes(op)
  {
    assert [op][1..] == [];
    assert Changes(op) + [] == Changes(op);
  }

  function ConsumeChanges(e: ExtensionEntry, run: RunID, step: StepID): (r: seq<Change>) {
    [AppendContextContribution(Contribution(run, step, SourceOf(e), e.inputs)),
     UpdateExtensionJournal(e.(context := ContextConsumed, inputs := []))]
  }

  lemma {:induction false} InputContextsSnoc(entries: seq<ExtensionEntry>, i: nat, message: MessageID, run: RunID,
                                             step: StepID)
    requires i < |entries|
    ensures Expand(InputContextOps(entries[..i + 1], message, run, step)) ==
            Expand(InputContextOps(entries[..i], message, run, step))
            + if WaitsForMessage(entries[i], message) then ConsumeChanges(entries[i], run, step) else []
  {
    assert entries[..i + 1][..i] == entries[..i];
    var before, op := InputContextOps(entries[..i], message, run, step),
      ConsumeOp(entries[i], run, step, entries[i].inputs);
    assert before + [] == before;
    ExpandConcat(before, [op]);
    ExpandOne(op);
  }

  /** consumePendingInputContexts: the loop over the journal. */
  method ConsumePendingInputContexts(s: Snapshot, message: MessageID, run: RunID,
                                     step: StepID) returns (changes: seq<Change>)
    ensures changes == Expand(InputContextOps(s.extensions, message, run, step))
  {
    changes := [];
    assert s.extensions[..0] == [];
    for i := 0 to |s.extensions|
      invariant changes == Expand(InputContextOps(s.extensions[..i], message, run, step))
    {
      hide Expand;
      hide InputContextOps;
      InputContextsSnoc(s.extensions, i, message, run, step);
      var e := s.extensions[i];
      if !WaitsForMessage(e, message) { continue; }
      var fact := Contribution(run, step, SourceOf(e), e.inputs);
      changes := changes + [AppendContextContribution(fact),
                            UpdateExtensionJournal(e.(context := ContextConsumed, inputs := []))];
    }
    assert s.extensions[..|s.extensions|] == s.extensions;
  }

  // ---------------------------------------------------------------- start, steer, finish

  /** appendInputConsumption. */
  function ConsumptionOps(s: Snapshot, item: QueueItem, run: RunID, step: StepID): (r: seq<Op>) {
    [Plain(ClaimQueue(item.message.id, run)), Plain(ConsumeQueue(item.message.id, run)),
     Plain(AppendMessage(item.message.(run := run, step := step)))]
    + InputContextOps(s.extensions, item.message.id, run, step)
  }

  function SteerOps(s: Snapshot, items: seq<QueueItem>, run: RunID, step: StepID): (r: seq<Op>) {
    if items == [] then []
      else SteerOps(s, items[..|items| - 1], run, step) + ConsumptionOps(s, items[|items| - 1], run, step)
  }

  function Started(s: Snapshot, run: RunID): (r: RunFact) {
    RunFact(s.session.id, run, RunStarted, s.config, s.revision, None)
  }

  /** startChangesLocked. */
  function StartOps(s: Snapshot, item: QueueItem, run: RunID, step: StepID, enqueue: bool): (r: seq<Op>) {
    (if enqueue then [Plain(EnqueueMessage(item))] else [])
    + [StartRun(Started(s, run))] + LifecycleOps(s.extensions, run, step) + ConsumptionOps(s, item, run, step)
  }

  function HoldOps(items: seq<QueueItem>): (r: seq<Op>) {
    seq(|items|, i requires 0 <= i < |items| => Plain(ReclassifyQueue(items[i].message.id, DeliveryHeld)))
  }

  lemma {:induction false} ConsumptionCallless(s: Snapshot, item: QueueItem, run: RunID, step: StepID)
    ensures forall op :: op in ConsumptionOps(s, item, run, step) ==> Callless(op)
  {
    ContextsCallless(s.extensions, item.message.id, run, step);
  }

  lemma {:induction false} SteerCallless(s: Snapshot, items: seq<QueueItem>, run: RunID, step: StepID)
    ensures forall op :: op in SteerOps(s, items, run, step) ==> Callless(op)
  {
    if items != [] {
      SteerCallless(s, items[..|items| - 1], run, step);
      ConsumptionCallless(s, items[|items| - 1], run, step);
    }
  }

  lemma {:induction false} StartCallless(s: Snapshot, item: QueueItem, run: RunID, step: StepID, enqueue: bool)
    ensures forall op :: op in StartOps(s, item, run, step, enqueue) ==> Callless(op)
  {
    ContextsCallless(s.extensions, item.message.id, run, step);
    ConsumptionCallless(s, item, run, step);
  }

  /** A Run starts in an idle Session, so nothing is unanswered. */
  lemma {:induction false} StartIsInShape(s: Snapshot, item: QueueItem, run: RunID, step: StepID, enqueue: bool)
    requires Inv(s) && !s.running
    ensures AllShaped(s, StartOps(s, item, run, step, enqueue))
    ensures ConversationStep(s, Expand(StartOps(s, item, run, step, enqueue)))
  {
    var ops := StartOps(s, item, run, step, enqueue);
    StartCallless(s, item, run, step, enqueue);
    IdleAnswered(s);
    hide StartOps;
    hide Inv;
    AlwaysIsShaped(s, ops);
    CalllessExpand(ops);
  }

  lemma {:induction false} IdleAnswered(s: Snapshot)
    requires Core(s) && !s.running
    ensures AllAnswered(ScanOf(s.history).talk) && !HasUnfinishedJournal(s.journal)
  {
    assert !HasUnfinishedJournal(s.journal);
    IdleIsAnswered(ScanOf(s.history).talk, s.journal);
  }

  /** Messages the Runtime proposes itself: queued and consumed in the same commit. */
  function ProposalOps(s: Snapshot, items: seq<QueueItem>, run: RunID, step: StepID): (r: seq<Op>) {
    if items == [] then []
    else
      var item := items[|items| - 1];
      ProposalOps(s, items[..|items| - 1], run, step) + [Plain(EnqueueMessage(item))]
        + ConsumptionOps(s, item, run, step)
  }

  lemma {:induction false} ProposalsCallless(s: Snapshot, items: seq<QueueItem>, run: RunID, step: StepID)
    ensures forall op :: op in ProposalOps(s, items, run, step) ==> Callless(op)
  {
    if items != [] {
      ProposalsCallless(s, items[..|items| - 1], run, step);
      ConsumptionCallless(s, items[|items| - 1], run, step);
    }
  }

  /** The `follow-on` commit: steers, or else proposals, with nothing unanswered. */
  lemma {:induction false} FollowOnIsInShape(s: Snapshot, steers: seq<QueueItem>, proposals: seq<QueueItem>,
                                             run: RunID, step: StepID)
    requires AllAnswered(ScanOf(s.history).talk)
    ensures var ops := SteerOps(s, steers, run, step) + ProposalOps(s, proposals, run, step);
            AllShaped(s, ops) && ConversationStep(s, Expand(ops))
  {
    var ops := SteerOps(s, steers, run, step) + ProposalOps(s, proposals, run, step);
    SteerCallless(s, steers, run, step);
    ProposalsCallless(s, proposals, run, step);
    hide SteerOps;
    hide ProposalOps;
    AlwaysIsShaped(s, ops);
    CalllessExpand(ops);
  }

  /** finishRun: hold steers, end the Run, and perhaps start the next one. */
  function FinishOps(held: seq<QueueItem>, f: RunFact, next: seq<Op>): (r: seq<Op>) {
    HoldOps(held) + [FinishRun(f)] + next
  }

  lemma {:induction false} HoldsKeepJournal(s: Snapshot, held: seq<QueueItem>, n: nat, s': Snapshot)
    requires n <= |held| && ApplyAll(s, s.revision, Expand(HoldOps(held)[n..])) == Ok(s')
    ensures s'.journal == s.journal
    decreases |held| - n
  {
    var ops := HoldOps(held)[n..];
    if ops != [] {
      assert ops[1..] == HoldOps(held)[n + 1..];
      var first := ReclassifyQueue(held[n].message.id, DeliveryHeld);
      assert Changes(ops[0]) == [first];
      ApplyConcat(s, s.revision, [first], Expand(ops[1..]));
      ApplyOne(s, s.revision, first);
      var mid := ApplyChange(s, s.revision, first).value;
      assert mid == s.(queue := mid.queue);
      HoldsKeepJournal(mid, held, n + 1, s');
    }
  }

  lemma {:induction false} FinishIsInShape(s: Snapshot, held: seq<QueueItem>, f: RunFact, next: seq<Op>)
    requires f.kind != RunStarted && !HasUnfinishedJournal(s.journal) && AllAnswered(ScanOf(s.history).talk)
    requires forall op :: op in next ==> Callless(op)
    ensures AllShaped(s, FinishOps(held, f, next)) && ConversationStep(s, Expand(FinishOps(held, f, next)))
  {
    hide ScanOf;
    var holds, rest := HoldOps(held), [FinishRun(f)] + next;
    assert FinishOps(held, f, next) == holds + rest;
    AlwaysIsShaped(s, holds);
    forall s' | ApplyAll(s, s.revision, Expand(holds)) == Ok(s') ensures AllShaped(s', rest) {
      assert holds[0..] == holds;
      HoldsKeepJournal(s, held, 0, s');
      assert rest[1..] == next;
      var ended := ApplyAll(s', s'.revision, Changes(FinishRun(f)));
      if ended.Ok? {
        AlwaysIsShaped(ended.value, next);
      }
    }
    hide ApplyAll;
    ShapedConcat(s, holds, rest);
    CalllessExpand(holds + rest);
  }

  // ---------------------------------------------------------------- completions and tool results

  function ReserveOps(entries: seq<ExtensionEntry>): (r: seq<Op>)
    ensures |r| == |entries| && forall i :: 0 <= i < |r| ==> r[i] == Plain(UpdateExtensionJournal(entries[i]))
  {
    seq(|entries|, i requires 0 <= i < |entries| => Plain(UpdateExtensionJournal(entries[i])))
  }

  /** Reservations are prepared invocations. */
  predicate Reserved(entries: seq<ExtensionEntry>) {
    forall i :: 0 <= i < |entries| ==> entries[i].context != ContextConsumed
  }

  /** The calls of a completion, each with the hook invocations reserved for it. */
  datatype Asked = Asked(call: ToolCall, reserved: seq<ExtensionEntry>)

  function CallOps(asked: seq<Asked>): (r: seq<Op>) {
    if asked == [] then []
    else
      var last := asked[|asked| - 1];
      CallOps(asked[..|asked| - 1]) + [PrepareCall(last.call)] + ReserveOps(last.reserved)
  }

  /** commitCompletion. */
  function CompletionOps(m: Message, asked: seq<Asked>): (r: seq<Op>) {
    [Plain(AppendMessage(m))] + CallOps(asked)
  }

  predicate AsksFor(asked: seq<Asked>, m: Message) {
    forall i :: 0 <= i < |asked| ==> asked[i].call.message == m.id && Reserved(asked[i].reserved)
  }

  lemma {:induction false} ReservesExpand(entries: seq<ExtensionEntry>, message: MessageID)
    requires Reserved(entries)
    ensures CallsOf(Expand(ReserveOps(entries)), message)
    ensures forall op :: op in ReserveOps(entries) ==> Callless(op)
  {
    if entries != [] {
      assert ReserveOps(entries)[1..] == ReserveOps(entries[1..]);
      ReservesExpand(entries[1..], message);
    }
  }

  lemma {:induction false} CallsExpand(asked: seq<Asked>, m: Message)
    requires AsksFor(asked, m)
    ensures CallsOf(Expand(CallOps(asked)), m.id) && forall op :: op in CallOps(asked) ==> AlwaysShaped(op)
  {
    if asked != [] {
      var front, last := asked[..|asked| - 1], asked[|asked| - 1];
      CallsExpand(front, m);
      ReservesExpand(last.reserved, m.id);
      ExpandConcat(CallOps(front) + [PrepareCall(last.call)], ReserveOps(last.reserved));
      ExpandConcat(CallOps(front), [PrepareCall(last.call)]);
      ExpandOne(PrepareCall(last.call));
    }
  }

  /** A completion is made when every earlier call is answered. */
  lemma {:induction false} CompletionIsInShape(s: Snapshot, m: Message, asked: seq<Asked>)
    requires AllAnswered(ScanOf(s.history).talk) && AsksFor(asked, m)
    ensures AllShaped(s, CompletionOps(m, asked)) && ConversationStep(s, Expand(CompletionOps(m, asked)))
  {
    CallsExpand(asked, m);
    AlwaysIsShaped(s, CompletionOps(m, asked));
    ExpandConcat([Plain(AppendMessage(m))], CallOps(asked));
    ExpandOne(Plain(AppendMessage(m)));
    assert Expand(CompletionOps(m, asked)) == [AppendMessage(m)] + Expand(CallOps(asked));
  }

  /** commitCompletion's loop over the requested calls. */
  method CompletionChanges(m: Message, asked: seq<Asked>) returns (changes: seq<Change>)
    ensures changes == Expand(CompletionOps(m, asked))
  {
    changes := [AppendMessage(m)];
    ExpandOne(Plain(AppendMessage(m)));
    for i := 0 to |asked|
      invariant changes == [AppendMessage(m)] + Expand(CallOps(asked[..i]))
    {
      assert asked[..i + 1][..i] == asked[..i];
      var call := asked[i].call;
      ExpandConcat(CallOps(asked[..i]) + [PrepareCall(call)], ReserveOps(asked[i].reserved));
      ExpandConcat(CallOps(asked[..i]), [PrepareCall(call)]);
      ExpandOne(PrepareCall(call));
      var prepared := JournalEntry(call.run, call.step, call, None, JournalPrepared);
      changes := changes + [AppendToolCall(call), UpdateRunJournal(prepared)];
      changes := changes + Expand(ReserveOps(asked[i].reserved));
    }
    assert asked[..|asked|] == asked;
    ExpandConcat([Plain(AppendMessage(m))], CallOps(asked));
  }

  function SettleOps(calls: seq<ToolCall>, results: seq<ToolResult>): (r: seq<Op>)
    requires |calls| == |results|
  {
    if calls == [] then []
    else
      var n := |calls| - 1;
      SettleOps(calls[..n], results[..n]) + [SettleCall(calls[n], results[n])]
  }

  /** commitToolResults: the results of all open calls, reservations for result hooks, then steers. */
  function ResultOps(s: Snapshot, calls: seq<ToolCall>, results: seq<ToolResult>, reserved: seq<ExtensionEntry>,
                     steers: seq<QueueItem>, run: RunID, step: StepID): (r: seq<Op>)
    requires |calls| == |results|
  {
    SettleOps(calls, results) + (ReserveOps(reserved) + SteerOps(s, steers, run, step))
  }

  lemma {:induction false} SettlesExpand(calls: seq<ToolCall>, results: seq<ToolResult>)
    requires |calls| == |results| && forall i :: 0 <= i < |calls| ==> results[i].call == calls[i].id
    ensures var cs := Expand(SettleOps(calls, results));
            && NoCalls(cs) && NoMessages(cs)
            && forall i :: 0 <= i < |results| ==> AppendToolResult(results[i]) in cs
    ensures forall op :: op in SettleOps(calls, results) ==> Callless(op)
  {
    if calls != [] {
      var n := |calls| - 1;
      SettlesExpand(calls[..n], results[..n]);
      var last := SettleCall(calls[n], results[n]);
      ExpandConcat(SettleOps(calls[..n], results[..n]), [last]);
      ExpandOne(last);
      forall i | 0 <= i < |results| ensures AppendToolResult(results[i]) in Expand(SettleOps(calls, results)) {
        if i < n {
          assert AppendToolResult(results[..n][i]) in Expand(SettleOps(calls[..n], results[..n]));
        } else {
          assert AppendToolResult(results[n]) in Changes(last);
        }
      }
    }
  }

  /** The batch answers every open call. */
  ghost predicate Covers(t: Talk, results: seq<ToolResult>) {
    forall id :: id in t.calls && id !in t.results ==> exists i :: 0 <= i < |results| && results[i].call == id
  }

  lemma {:induction false} ResultsAreInShape(s: Snapshot, calls: seq<ToolCall>, results: seq<ToolResult>,
                                             reserved: seq<ExtensionEntry>,
                                             steers: seq<QueueItem>, run: RunID, step: StepID)
    requires |calls| == |results| && forall i :: 0 <= i < |calls| ==> results[i].call == calls[i].id
    requires Reserved(reserved) && Covers(ScanOf(s.history).talk, results)
    ensures AllShaped(s, ResultOps(s, calls, results, reserved, steers, run, step))
    ensures ConversationStep(s, Expand(ResultOps(s, calls, results, reserved, steers, run, step)))
  {
    hide ScanOf;
    var settles, rest := SettleOps(calls, results), ReserveOps(reserved) + SteerOps(s, steers, run, step);
    SettlesExpand(calls, results);
    ReservesExpand(reserved, 0);
    SteerCallless(s, steers, run, step);
    hide SettleOps;
    hide SteerOps;
    hide ReserveOps;
    assert forall op :: op in rest ==> Callless(op);
    AlwaysIsShaped(s, settles + rest);
    ExpandConcat(settles, rest);
    CalllessExpand(rest);
    ResultsAnswerAll(ScanOf(s.history).talk, results, Expand(settles));
  }

  lemma {:induction false} ResultsAnswerAll(t: Talk, results: seq<ToolResult>, changes: seq<Change>)
    requires Covers(t, results) && forall i :: 0 <= i < |results| ==> AppendToolResult(results[i]) in changes
    ensures AnswersAll(t, changes)
  {
    forall id | id in t.calls && id !in t.results
      ensures exists i :: 0 <= i < |changes| && changes[i].AppendToolResult? && changes[i].result.call == id
    {
      var k :| 0 <= k < |results| && results[k].call == id;
      var i :| 0 <= i < |changes| && changes[i] == AppendToolResult(results[k]);
    }
  }

  // ---------------------------------------------------------------- one operation

  /** markToolExecuting, for a call the journal holds. */
  lemma {:induction false} MarkIsInShape(s: Snapshot, c: ToolCall)
    requires JournalIndex(s.journal, c.id) < |s.journal|
    ensures AllShaped(s, [MarkExecuting(c)]) && ConversationStep(s, Expand([MarkExecuting(c)]))
  {
    ExpandOne(MarkExecuting(c));
    assert [MarkExecuting(c)][1..] == [];
    assert NoCalls(Changes(MarkExecuting(c))) && NoMessages(Changes(MarkExecuting(c)));
  }
}
