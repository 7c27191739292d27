/** What the Runtime's commits leave in the Session, told by their contents: the facts they append, in order, and the
    items they hold back (standardagent/runtime_execution.go commitCompletion, commitToolResults, startChangesLocked,
    appendInputConsumption, finishRun). */
module BuilderEffects {
  import opened SessionTypes
  import opened Transactions
  import opened AggregateInvariant
  import opened ProtocolHistory
  import opened RuntimeCommits
  import opened ChangeEffects

  // ---------------------------------------------------------------- the facts of a commit

  /** The payloads a change list appends, in order. */
  function Said(changes: seq<Change>): (r: seq<Payload>) {
    if changes == [] then []
    else (if Appended(changes[0]).Some? then [Appended(changes[0]).value] else []) + Said(changes[1..])
  }

  /** An accepted change list appends exactly its payloads. */
  lemma {:induction false} HistoryTells(s: Snapshot, expected: Revision, changes: seq<Change>, s': Snapshot)
    requires ApplyAll(s, expected, changes) == Ok(s')
    ensures |s'.history| == |s.history| + |Said(changes)| && s.history <= s'.history
    ensures forall i :: 0 <= i < |Said(changes)| ==> s'.history[|s.history| + i].payload == Said(changes)[i]
    decreases |changes|
  {
    hide ApplyChange;
    hide Appended;
    if changes != [] {
      var mid := ApplyChange(s, expected, changes[0]).value;
      ChangeAppends(s, expected, changes[0], mid);
      HistoryTells(mid, expected, changes[1..], s');
      if Appended(changes[0]).Some? {
        forall i | 0 <= i < |Said(changes)| ensures s'.history[|s.history| + i].payload == Said(changes)[i] {
          if i > 0 {
            assert Said(changes)[i] == Said(changes[1..])[i - 1];
          } else {
            assert s'.history[|s.history|] == mid.history[|s.history|];
          }
        }
      }
    }
  }

  lemma {:induction false} SaidConcat(a: seq<Change>, b: seq<Change>)
    ensures Said(a + b) == Said(a) + Said(b)
  {
    if a == [] {
      assert a + b == b;
    } else {
      assert (a + b)[1..] == a[1..] + b;
      SaidConcat(a[1..], b);
      var first := if Appended(a[0]).Some? then [Appended(a[0]).value] else [];
      assert first + (Said(a[1..]) + Said(b)) == (first + Said(a[1..])) + Said(b);
    }
  }

  lemma {:induction false} SaidOps(a: seq<Op>, b: seq<Op>)
    ensures Said(Expand(a + b)) == Said(Expand(a)) + Said(Expand(b))
  {
    ExpandConcat(a, b);
    SaidConcat(Expand(a), Expand(b));
  }

  /** What one operation says. */
  function Speech(op: Op): (r: seq<Payload>) {
    match op
    case StartRun(f) => [RunPayload(f)]
    case FinishRun(f) => [RunPayload(f)]
    case PrepareCall(c) => [CallPayload(c)]
    case SettleCall(_, r) => [ResultPayload(r)]
    case MarkExecuting(_) => []
    case ConsumeContext(x, _) => [ContributionPayload(x)]
    case SelectModel(p, n) => [ConfigPayload(p, n)]
    case Plain(c) => if Appended(c).Some? then [Appended(c).value] else []
  }

  function Voice(c: Change): (r: seq<Payload>) {
    if Appended(c).Some? then [Appended(c).value] else []
  }

  lemma {:induction false} SaidTwo(a: Change, b: Change)
    ensures Said([a, b]) == Voice(a) + Voice(b)
    ensures Said([a]) == Voice(a)
  {
    assert [a, b][1..] == [b] && [b][1..] == [] && [a][1..] == [];
    assert Said([]) == [];
    assert Said([b]) == Voice(b) + Said([]);
    assert Said([a]) == Voice(a) + Said([]);
    assert Said([a, b]) == Voice(a) + Said([b]);
  }

  lemma {:induction false} SpeechVoices(op: Op)
    ensures var cs := Changes(op);
            || (|cs| == 1 && Speech(op) == Voice(cs[0]))
            || (|cs| == 2 && Speech(op) == Voice(cs[0]) + Voice(cs[1]))
  {
  }

  lemma {:induction false} SaidOne(op: Op)
    ensures Said(Expand([op])) == Speech(op)
  {
    hide *;
    ExpandOne(op);
    SpeechVoices(op);
    var cs := Changes(op);
    if |cs| == 2 {
      assert cs == [cs[0], cs[1]];
      SaidTwo(cs[0], cs[1]);
    } else {
      assert cs == [cs[0]];
      SaidTwo(cs[0], cs[0]);
    }
  }

  // ---------------------------------------------------------------- completions and results

  function CallPayloads(asked: seq<Asked>): (r: seq<Payload>)
    ensures |r| == |asked| && forall i :: 0 <= i < |r| ==> r[i] == CallPayload(asked[i].call)
  {
    seq(|asked|, i requires 0 <= i < |asked| => CallPayload(asked[i].call))
  }

  function ResultPayloads(results: seq<ToolResult>): (r: seq<Payload>)
    ensures |r| == |results| && forall i :: 0 <= i < |r| ==> r[i] == ResultPayload(results[i])
  {
    seq(|results|, i requires 0 <= i < |results| => ResultPayload(results[i]))
  }

  lemma {:induction false} ReservesSayNothing(entries: seq<ExtensionEntry>)
    ensures Said(Expand(ReserveOps(entries))) == []
  {
    if entries != [] {
      var op := Plain(UpdateExtensionJournal(entries[0]));
      assert ReserveOps(entries) == [op] + ReserveOps(entries[1..]);
      ReservesSayNothing(entries[1..]);
      SaidOps([op], ReserveOps(entries[1..]));
      SaidOne(op);
      hide Said;
      hide Expand;
      hide ReserveOps;
    }
  }

  lemma {:induction false} CallsSay(asked: seq<Asked>)
    ensures Said(Expand(CallOps(asked))) == CallPayloads(asked)
  {
    hide *;
    CallParts(asked);
    if asked != [] {
      var front, last := asked[..|asked| - 1], asked[|asked| - 1];
      var a, b, c := CallOps(front), [PrepareCall(last.call)], ReserveOps(last.reserved);
      CallsSay(front);
      SaidOps(a + b, c);
      SaidOps(a, b);
      SaidOne(PrepareCall(last.call));
      ReservesSayNothing(last.reserved);
    }
  }

  lemma {:induction false} CallParts(asked: seq<Asked>)
    ensures asked == [] ==> Said(Expand(CallOps(asked))) == [] == CallPayloads(asked)
    ensures asked != [] ==>
              var front, last := asked[..|asked| - 1], asked[|asked| - 1];
              && CallOps(asked) == CallOps(front) + [PrepareCall(last.call)] + ReserveOps(last.reserved)
              && CallPayloads(asked) == CallPayloads(front) + [CallPayload(last.call)]
              && Speech(PrepareCall(last.call)) == [CallPayload(last.call)]
  {
  }

  /** A completion appends its message and then its calls, in order, and nothing else. */
  lemma {:induction false} CompletionTells(s: Snapshot, m: Message, asked: seq<Asked>, s': Snapshot)
    requires Commits(s, Expand(CompletionOps(m, asked)), s')
    ensures |s'.history| == |s.history| + 1 + |asked| && s.history <= s'.history
    ensures s'.history[|s.history|].payload == MessagePayload(m)
    ensures forall i :: 0 <= i < |asked| ==> s'.history[|s.history| + 1 + i].payload == CallPayload(asked[i].call)
  {
    hide *;
    var changes := Expand(CompletionOps(m, asked));
    CompletionParts(m, asked);
    SaidOps([Plain(AppendMessage(m))], CallOps(asked));
    SaidOne(Plain(AppendMessage(m)));
    SpeechIs(m);
    CallsSay(asked);
    var last := Published(s, changes, s');
    HistoryTells(s, s.revision, changes, last);
    assert Said(changes)[0] == MessagePayload(m);
    assert forall i :: 0 <= i < |asked| ==> Said(changes)[1 + i] == CallPayloads(asked)[i];
    forall i | 0 <= i < |asked| ensures s'.history[|s.history| + 1 + i].payload == CallPayload(asked[i].call) {
      assert s'.history[|s.history| + (1 + i)].payload == Said(changes)[1 + i];
    }
  }

  lemma {:induction false} SpeechIs(m: Message)
    ensures Speech(Plain(AppendMessage(m))) == [MessagePayload(m)]
  {
  }

  lemma {:induction false} CompletionParts(m: Message, asked: seq<Asked>)
    ensures CompletionOps(m, asked) == [Plain(AppendMessage(m))] + CallOps(asked)
  {
  }

  lemma {:induction false} Published(s: Snapshot, changes: seq<Change>, s': Snapshot) returns (last: Snapshot)
    requires Commits(s, changes, s')
    ensures ApplyAll(s, s.revision, changes) == Ok(last) && s' == last.(revision := last.revision + 1)
  {
    last := ApplyAll(s, s.revision, changes).value;
  }

  lemma {:induction false} SettlesSay(calls: seq<ToolCall>, results: seq<ToolResult>)
    requires |calls| == |results|
    ensures Said(Expand(SettleOps(calls, results))) == ResultPayloads(results)
  {
    hide *;
    SettleParts(calls, results);
    if calls != [] {
      var n := |calls| - 1;
      var last := SettleCall(calls[n], results[n]);
      SettlesSay(calls[..n], results[..n]);
      SaidOps(SettleOps(calls[..n], results[..n]), [last]);
      SaidOne(last);
    }
  }

  lemma {:induction false} SettleParts(calls: seq<ToolCall>, results: seq<ToolResult>)
    requires |calls| == |results|
    ensures calls == [] ==> Said(Expand(SettleOps(calls, results))) == ResultPayloads(results)
    ensures calls != [] ==>
              var n := |calls| - 1;
              && SettleOps(calls, results) ==
                 SettleOps(calls[..n], results[..n]) + [SettleCall(calls[n], results[n])]
              && ResultPayloads(results) == ResultPayloads(results[..n]) + [ResultPayload(results[n])]
              && Speech(SettleCall(calls[n], results[n])) == [ResultPayload(results[n])]
  {
  }

  /** A tool-results commit appends the results of the batch, in its order, before anything else. */
  lemma {:induction false} ResultsTell(s: Snapshot, calls: seq<ToolCall>, results: seq<ToolResult>,
                                       reserved: seq<ExtensionEntry>, steers: seq<QueueItem>, run: RunID, step: StepID,
                                       s': Snapshot)
    requires |calls| == |results| && Commits(s, Expand(ResultOps(s, calls, results, reserved, steers, run, step)), s')
    ensures |s'.history| >= |s.history| + |results| && s.history <= s'.history
    ensures forall i :: 0 <= i < |results| ==> s'.history[|s.history| + i].payload == ResultPayload(results[i])
  {
    hide *;
    var changes := Expand(ResultOps(s, calls, results, reserved, steers, run, step));
    ResultParts(s, calls, results, reserved, steers, run, step);
    SaidOps(SettleOps(calls, results), ReserveOps(reserved) + SteerOps(s, steers, run, step));
    SettlesSay(calls, results);
    var last := Published(s, changes, s');
    HistoryTells(s, s.revision, changes, last);
    assert forall i :: 0 <= i < |results| ==> Said(changes)[i] == ResultPayloads(results)[i];
  }

  lemma {:induction false} ResultParts(s: Snapshot, calls: seq<ToolCall>, results: seq<ToolResult>,
                                       reserved: seq<ExtensionEntry>, steers: seq<QueueItem>, run: RunID, step: StepID)
    requires |calls| == |results|
    ensures ResultOps(s, calls, results, reserved, steers, run, step) ==
            SettleOps(calls, results) + (ReserveOps(reserved) + SteerOps(s, steers, run, step))
  {
  }

  // ---------------------------------------------------------------- starts and ends

  /** A start appends the start of the Run with the Session's configuration and revision first. */
  lemma {:induction false} StartTells(s: Snapshot, item: QueueItem, run: RunID, step: StepID, enqueue: bool,
                                      marks: seq<Op>, s': Snapshot)
    requires Commits(s, Expand(StartOps(s, item, run, step, enqueue) + marks), s')
    ensures |s'.history| > |s.history| && s.history <= s'.history
    ensures s'.history[|s.history|].payload.RunPayload?
    ensures var f := s'.history[|s.history|].payload.run;
            && f.session == s.session.id && f.run == run && f.kind.RunStarted? && f.config == s.config
            && f.configRevision == s.revision && f.termination.None?
  {
    hide *;
    var first := if enqueue then [Plain(EnqueueMessage(item))] else [];
    var start := StartRun(Started(s, run));
    var rest := LifecycleOps(s.extensions, run, step) + ConsumptionOps(s, item, run, step) + marks;
    var changes := Expand(StartOps(s, item, run, step, enqueue) + marks);
    StartIs(s, item, run, step, enqueue, marks);
    SaidOps(first, [start] + rest);
    SaidOps([start], rest);
    SaidOne(start);
    EnqueueSaysNothing(item, enqueue, Started(s, run));
    var last := Published(s, changes, s');
    HistoryTells(s, s.revision, changes, last);
    assert Said(changes)[0] == RunPayload(Started(s, run));
    StartedIs(s, run);
  }

  /** What the waiting contexts of a message say when it is consumed, and what those for the next Run say at a start. */
  function MessageSays(e: ExtensionEntry, run: RunID, step: StepID): (p: Payload) {
    ContributionPayload(Contribution(run, step, HookSource(e.identity.key, e.identity.invocation), e.inputs))
  }

  function OpeningSays(e: ExtensionEntry, run: RunID, step: StepID): (p: Payload) {
    var inputs := seq(|e.inputs|, i requires 0 <= i < |e.inputs| =>
      if e.inputs[i].MessageInput? then MessageInput(e.inputs[i].message.(run := run, step := step)) else e.inputs[i]);
    ContributionPayload(Contribution(run, step, HookSource(e.identity.key, e.identity.invocation), inputs))
  }

  lemma {:induction false} ConsumeSays(e: ExtensionEntry, run: RunID, step: StepID)
    ensures Speech(ConsumeOp(e, run, step, e.inputs)) == [MessageSays(e, run, step)]
    ensures Speech(ConsumeOp(e, run, step, Bind(e.inputs, run, step))) == [OpeningSays(e, run, step)]
  {
    assert Bind(e.inputs, run, step) == seq(|e.inputs|, i requires 0 <= i < |e.inputs| =>
      if e.inputs[i].MessageInput? then MessageInput(e.inputs[i].message.(run := run, step := step)) else e.inputs[i]);
  }

  lemma {:induction false} ContextsSay(entries: seq<ExtensionEntry>, id: MessageID, run: RunID, step: StepID, i: nat)
    requires i < |entries|
    ensures WaitsForMessage(entries[i], id) ==>
              MessageSays(entries[i], run, step) in Said(Expand(InputContextOps(entries, id, run, step)))
    ensures WaitsForRun(entries[i]) ==>
              OpeningSays(entries[i], run, step) in Said(Expand(LifecycleOps(entries, run, step)))
  {
    hide *;
    var n := |entries| - 1;
    ContextParts(entries, id, run, step);
    ConsumeSays(entries[n], run, step);
    if WaitsForMessage(entries[n], id) {
      SaidOps(InputContextOps(entries[..n], id, run, step), [ConsumeOp(entries[n], run, step, entries[n].inputs)]);
      SaidOne(ConsumeOp(entries[n], run, step, entries[n].inputs));
    }
    if WaitsForRun(entries[n]) {
      var op := ConsumeOp(entries[n], run, step, Bind(entries[n].inputs, run, step));
      SaidOps(LifecycleOps(entries[..n], run, step), [op]);
      SaidOne(op);
    }
    if i < n {
      assert entries[..n][i] == entries[i];
      ContextsSay(entries[..n], id, run, step, i);
      assert InputContextOps(entries[..n], id, run, step) + [] == InputContextOps(entries[..n], id, run, step);
      assert LifecycleOps(entries[..n], run, step) + [] == LifecycleOps(entries[..n], run, step);
    }
  }

  lemma {:induction false} ContextParts(entries: seq<ExtensionEntry>, id: MessageID, run: RunID, step: StepID)
    requires entries != []
    ensures var n := |entries| - 1;
            && InputContextOps(entries, id, run, step) ==
               InputContextOps(entries[..n], id, run, step)
               + (if WaitsForMessage(entries[n], id) then [ConsumeOp(entries[n], run, step, entries[n].inputs)] else [])
            && LifecycleOps(entries, run, step) ==
               LifecycleOps(entries[..n], run, step)
               + (if WaitsForRun(entries[n]) then
                    [ConsumeOp(entries[n], run, step, Bind(entries[n].inputs, run, step))] else [])
  {
  }

  /** A start writes each waiting context of its message, and each one for the next Run, as a contribution to this Run
      and Step; the messages of the latter are bound to them. */
  lemma {:induction false} StartHands(s: Snapshot, item: QueueItem, run: RunID, step: StepID, enqueue: bool,
                                      s': Snapshot, i: nat)
    requires Commits(s, Expand(StartOps(s, item, run, step, enqueue)), s') && i < |s.extensions|
    ensures WaitsForMessage(s.extensions[i], item.message.id) ==>
              exists k :: |s.history| <= k < |s'.history|
                && s'.history[k].payload == MessageSays(s.extensions[i], run, step)
    ensures WaitsForRun(s.extensions[i]) ==>
              exists k :: |s.history| <= k < |s'.history|
                && s'.history[k].payload == OpeningSays(s.extensions[i], run, step)
  {
    hide *;
    var id := item.message.id;
    var a := (if enqueue then [Plain(EnqueueMessage(item))] else []) + [StartRun(Started(s, run))];
    var b, d := LifecycleOps(s.extensions, run, step), InputContextOps(s.extensions, id, run, step);
    var c := [Plain(ClaimQueue(id, run)), Plain(ConsumeQueue(id, run)),
              Plain(AppendMessage(item.message.(run := run, step := step)))];
    StartInParts(s, item, run, step, enqueue);
    var ops := StartOps(s, item, run, step, enqueue);
    assert ops == a + (b + (c + d));
    SaidOps(a, b + (c + d));
    SaidOps(b, c + d);
    SaidOps(c, d);
    ContextsSay(s.extensions, id, run, step, i);
    var last := Published(s, Expand(ops), s');
    HistoryTells(s, s.revision, Expand(ops), last);
    forall p | p in Said(Expand(ops))
      ensures exists k :: |s.history| <= k < |s'.history| && s'.history[k].payload == p
    {
      var j :| 0 <= j < |Said(Expand(ops))| && Said(Expand(ops))[j] == p;
      assert s'.history[|s.history| + j].payload == p;
    }
    assert forall p :: p in Said(Expand(b)) || p in Said(Expand(d)) ==> p in Said(Expand(ops));
  }

  lemma {:induction false} StartInParts(s: Snapshot, item: QueueItem, run: RunID, step: StepID, enqueue: bool)
    ensures StartOps(s, item, run, step, enqueue) ==
            ((if enqueue then [Plain(EnqueueMessage(item))] else []) + [StartRun(Started(s, run))])
            + (LifecycleOps(s.extensions, run, step)
               + ([Plain(ClaimQueue(item.message.id, run)), Plain(ConsumeQueue(item.message.id, run)),
                   Plain(AppendMessage(item.message.(run := run, step := step)))]
                  + InputContextOps(s.extensions, item.message.id, run, step)))
  {
  }

  lemma {:induction false} StartedIs(s: Snapshot, run: RunID)
    ensures Started(s, run) == RunFact(s.session.id, run, RunStarted, s.config, s.revision, None)
  {
  }

  lemma {:induction false} EnqueueSaysNothing(item: QueueItem, enqueue: bool, f: RunFact)
    ensures Said(Expand(if enqueue then [Plain(EnqueueMessage(item))] else [])) == []
    ensures Speech(StartRun(f)) == [RunPayload(f)]
  {
    if enqueue {
      SaidOne(Plain(EnqueueMessage(item)));
    }
  }

  lemma {:induction false} StartIs(s: Snapshot, item: QueueItem, run: RunID, step: StepID, enqueue: bool,
                                   marks: seq<Op>)
    ensures StartOps(s, item, run, step, enqueue) + marks ==
            (if enqueue then [Plain(EnqueueMessage(item))] else [])
            + ([StartRun(Started(s, run))]
               + (LifecycleOps(s.extensions, run, step) + ConsumptionOps(s, item, run, step) + marks))
  {
  }

  lemma {:induction false} HoldsSayNothing(held: seq<QueueItem>, n: nat)
    requires n <= |held|
    ensures Said(Expand(HoldOps(held)[n..])) == []
    decreases |held| - n
  {
    var ops := HoldOps(held)[n..];
    if ops != [] {
      assert ops == [ops[0]] + HoldOps(held)[n + 1..];
      HoldsSayNothing(held, n + 1);
      SaidOps([ops[0]], HoldOps(held)[n + 1..]);
      SaidOne(ops[0]);
    }
  }

  /** An end appends the end of the Run first. */
  lemma {:induction false} FinishTells(s: Snapshot, held: seq<QueueItem>, f: RunFact, next: seq<Op>, s': Snapshot)
    requires Commits(s, Expand(FinishOps(held, f, next)), s')
    ensures |s'.history| > |s.history| && s.history <= s'.history
    ensures s'.history[|s.history|].payload == RunPayload(f)
  {
    hide *;
    var changes := Expand(FinishOps(held, f, next));
    FinishIs(held, f, next);
    SaidOps(HoldOps(held), [FinishRun(f)] + next);
    SaidOps([FinishRun(f)], next);
    SaidOne(FinishRun(f));
    HoldsSayNothing(held, 0);
    assert HoldOps(held)[0..] == HoldOps(held);
    var last := Published(s, changes, s');
    HistoryTells(s, s.revision, changes, last);
    assert Said(changes)[0] == RunPayload(f);
  }

  lemma {:induction false} FinishIs(held: seq<QueueItem>, f: RunFact, next: seq<Op>)
    ensures FinishOps(held, f, next) == HoldOps(held) + ([FinishRun(f)] + next)
    ensures Speech(FinishRun(f)) == [RunPayload(f)]
  {
  }

  /** A message is among those held back from `n` on. */
  predicate HeldFrom(held: seq<QueueItem>, n: nat, id: MessageID) {
    exists k :: n <= k < |held| && held[k].message.id == id
  }

  /** Holding back gives exactly the named items the held delivery and leaves the rest of the Queue. */
  lemma {:induction false} HoldsTake(s: Snapshot, expected: Revision, held: seq<QueueItem>, n: nat, s': Snapshot)
    requires n <= |held| && ApplyAll(s, expected, Expand(HoldOps(held)[n..])) == Ok(s')
    requires forall i, j :: 0 <= i < j < |s.queue| ==> s.queue[i].message.id != s.queue[j].message.id
    ensures s' == s.(queue := s'.queue) && |s'.queue| == |s.queue|
    ensures forall i :: 0 <= i < |s.queue| ==>
              s'.queue[i] == if HeldFrom(held, n, s.queue[i].message.id) then s.queue[i].(delivery := DeliveryHeld)
                             else s.queue[i]
    decreases |held| - n
  {
    var ops := HoldOps(held)[n..];
    if ops != [] {
      var first := ReclassifyQueue(held[n].message.id, DeliveryHeld);
      assert ops[0] == Plain(first) && ops[1..] == HoldOps(held)[n + 1..];
      ApplyConcat(s, expected, [first], Expand(ops[1..]));
      ApplyOne(s, expected, first);
      var mid := ApplyChange(s, expected, first).value;
      var at := QueueIndex(s.queue, held[n].message.id);
      QueuedAt(s.queue, held[n].message.id);
      ReclassifyExact(s, expected, held[n].message.id, DeliveryHeld, at);
      hide ApplyAll;
      hide ApplyChange;
      HoldsTake(mid, expected, held, n + 1, s');
      assert HeldFrom(held, n, held[n].message.id);
      forall i | 0 <= i < |s.queue|
        ensures s'.queue[i] == if HeldFrom(held, n, s.queue[i].message.id) then s.queue[i].(delivery := DeliveryHeld)
                               else s.queue[i]
      {
        assert mid.queue[i].message == s.queue[i].message;
        assert HeldFrom(held, n, s.queue[i].message.id) <==>
          i == at || HeldFrom(held, n + 1, s.queue[i].message.id);
      }
    }
  }
}
