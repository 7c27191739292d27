/** The standing invariant of a Session aggregate, and the proof that every commit of the shape
    the Runtime builds keeps it (session/memory_store.go applyChanges against
    validateHistoryConsistency; standardagent/runtime_execution.go builds the commits). */
module AggregateInvariant {
  import opened SessionTypes
  import opened ExtensionJournal
  import opened HistoryChecker
  import opened Transactions
  import opened SearchAgreement

  // ---------------------------------------------------------------- the invariant

  /** History is numbered from 1, owned by its Session, and accepted by the checker. */
  ghost predicate HistoryOk(s: Snapshot) {
    && s.session.id != 0
    && Accepted(s.session.id, s.history)
    && forall i :: 0 <= i < |s.history| ==>
         && s.history[i].sequence == i + 1 && s.history[i].session == s.session.id
         && s.history[i].id == FactOf(s.session.id, i + 1)
  }

  /** The tool journal agrees with History, and unfinished calls belong to the active Run. */
  ghost predicate ToolsOk(s: Snapshot, t: Talk) {
    && JournalAccepted(t, s.journal)
    && (forall i :: 0 <= i < |s.journal| ==> s.journal[i].Valid(s.session.id))
    && (forall i :: 0 <= i < |s.journal| && Unfinished(s.journal[i].status) ==> IsActive(s, s.journal[i].run))
  }

  /** The Session is running exactly when it has an active Run, and that Run is live in History. */
  ghost predicate RunOk(s: Snapshot, r: Runs) {
    && (s.running <==> s.activeRun != 0)
    && (s.running ==> s.activeRun in r.starts && s.activeRun !in r.terminals)
  }

  ghost predicate QueueOk(s: Snapshot) {
    && (forall i :: 0 <= i < |s.queue| ==> s.queue[i].Valid(s.session.id))
    && (forall i, j :: 0 <= i < j < |s.queue| ==> s.queue[i].message.id != s.queue[j].message.id)
  }

  ghost predicate ViewOk(v: ContextView, sid: SessionID, r: Runs) {
    && ContextViewValid(v, sid)
    && (v.version != 0 ==>
          && v.run in r.starts && v.configRevision == r.starts[v.run].configRevision
          && v.config == r.starts[v.run].config)
  }

  /** Retained contexts have growing versions below the current one; all match their frozen Run. */
  ghost predicate ViewsOk(s: Snapshot, r: Runs) {
    && ViewOk(s.context, s.session.id, r)
    && (forall i :: 0 <= i < |s.retained| ==>
          ViewOk(s.retained[i], s.session.id, r) && 0 < s.retained[i].version < s.context.version)
    && (forall i, j :: 0 <= i < j < |s.retained| ==> s.retained[i].version < s.retained[j].version)
  }

  /** Facts copied by a fork, and only those, name their source. */
  ghost predicate ForkOk(s: Snapshot) {
    s.fork.Some? ==>
      && s.fork.value.parent == s.session.parent && s.session.parent != 0
      && s.fork.value.cutoff <= |s.history|
      && forall i :: 0 <= i < |s.history| ==> (i < s.fork.value.cutoff <==> s.history[i].origin.FactOf?)
  }

  /** Everything that holds between any two changes of a Runtime commit. */
  ghost predicate Core(s: Snapshot) {
    && HistoryOk(s)
    && ToolsOk(s, ScanOf(s.history).talk)
    && RunOk(s, ScanOf(s.history).runs)
    && QueueOk(s)
    && JournalValid(s.extensions, s.session.id)
    && ViewsOk(s, ScanOf(s.history).runs)
    && ForkOk(s)
    && s.config.Valid()
  }

  ghost predicate EventsUpTo(s: Snapshot, revision: Revision) {
    forall i :: 0 <= i < |s.events| ==>
      0 < s.events[i].revision <= revision && s.events[i].previous.Valid() && s.events[i].current.Valid()
  }

  /** The invariant of a committed aggregate. */
  ghost predicate Inv(s: Snapshot) {
    && Core(s)
    && s.revision > 0
    && ClaimsValid(s.queue, s.running, s.activeRun)
    && EventsUpTo(s, s.revision)
  }

  // ---------------------------------------------------------------- Runtime-shaped commits

  /** The groups of changes the Runtime writes together, in the order it writes them. */
  datatype Op =
    | StartRun(fact: RunFact)
    | FinishRun(fact: RunFact)
    | PrepareCall(call: ToolCall)
    | SettleCall(call: ToolCall, result: ToolResult)
    | MarkExecuting(call: ToolCall)
    | ConsumeContext(contribution: Contribution, entry: ExtensionEntry)
    | SelectModel(previous: Config, current: Config)
    | Plain(change: Change)

  function PreparedEntry(call: ToolCall): (r: JournalEntry) {
    JournalEntry(call.run, call.step, call, None, JournalPrepared)
  }

  function PendingEntry(call: ToolCall): (r: JournalEntry) {
    JournalEntry(call.run, call.step, call, None, JournalPending)
  }

  function TerminalEntry(call: ToolCall, result: ToolResult): (r: JournalEntry) {
    JournalEntry(call.run, call.step, call, Some(result), StatusOf(result))
  }

  function Changes(op: Op): (r: seq<Change>) {
    match op
    case StartRun(f) => [SetRunState(f.run, true), AppendRunFact(f)]
    case FinishRun(f) => [AppendRunFact(f), SetRunState(f.run, false)]
    case PrepareCall(c) => [AppendToolCall(c), UpdateRunJournal(PreparedEntry(c))]
    case SettleCall(c, r) => [AppendToolResult(r), UpdateRunJournal(TerminalEntry(c, r))]
    case MarkExecuting(c) => [UpdateRunJournal(PendingEntry(c))]
    case ConsumeContext(x, e) => [AppendContextContribution(x), UpdateExtensionJournal(e)]
    case SelectModel(p, n) => [SetModelConfig(n), AppendSessionEvent(p, n)]
    case Plain(c) => [c]
  }

  function Expand(ops: seq<Op>): (r: seq<Change>) {
    if ops == [] then [] else Changes(ops[0]) + Expand(ops[1..])
  }

  /** Changes the Runtime also writes on their own. */
  predicate PlainKind(c: Change) {
    match c
    case AppendContextContribution(x) => x.source.ContextSource?
    case UpdateExtensionJournal(e) => e.context != ContextConsumed
    case AppendToolCall(_) => false
    case AppendToolResult(_) => false
    case AppendRunFact(_) => false
    case AppendSessionEvent(_, _) => false
    case SetModelConfig(_) => false
    case SetRunState(_, _) => false
    case UpdateRunJournal(_) => false
    case _ => true
  }

  /** What the Runtime respects and the Store does not check. */
  ghost predicate Shaped(s: Snapshot, op: Op) {
    match op
    case StartRun(f) => f.kind == RunStarted
    case FinishRun(f) => f.kind != RunStarted && !HasUnfinishedJournal(s.journal)
    case PrepareCall(_) => true
    case SettleCall(c, r) => r.call == c.id
    case MarkExecuting(c) => JournalIndex(s.journal, c.id) < |s.journal|
    case ConsumeContext(x, e) =>
      x.source == HookSource(e.identity.key, e.identity.invocation) && e.context == ContextConsumed
    case SelectModel(_, _) => true
    case Plain(c) =>
      && PlainKind(c)
      && (c.AppendRunLimitExceeded? ==>
            && c.limit.triggerAttempt !in ScanOf(s.history).attempts.starts
            && c.limit.triggerCall !in ScanOf(s.history).talk.calls)
  }

  ghost predicate AllShaped(s: Snapshot, ops: seq<Op>)
    decreases |ops|
  {
    ops == [] ||
    (Shaped(s, ops[0]) &&
     (var next := ApplyAll(s, s.revision, Changes(ops[0]));
      next.Ok? ==> AllShaped(next.value, ops[1..])))
  }

  /** A Runtime commit that the Store accepted. */
  ghost predicate RuntimeCommit(s: Snapshot, ops: seq<Op>, s': Snapshot) {
    AllShaped(s, ops) && Commits(s, Expand(ops), s')
  }

  // ---------------------------------------------------------------- one appended fact

  /** A fact the checker accepts may be appended; only the map it belongs to changes. */
  lemma {:induction false} AppendKeepsHistory(s: Snapshot, p: Payload)
    requires HistoryOk(s) && ForkOk(s)
    requires p.Valid(s.session.id) && Accepts(ScanOf(s.history), p)
    ensures AppendFact(s, p, HistoryInvariant).Ok?
    ensures var s' := AppendFact(s, p, HistoryInvariant).value;
            && HistoryOk(s') && ForkOk(s')
            && ScanOf(s'.history) == Absorb(ScanOf(s.history), p)
  {
    var f := Envelope(s.history, s.session.id, NoFact, p);
    ScanSnoc(s.session.id, s.history, f);
  }

  /** Appending a fact about neither calls nor Runs. */
  lemma {:induction false} AppendKeepsCore(s: Snapshot, p: Payload)
    requires Core(s)
    requires p.Valid(s.session.id) && Accepts(ScanOf(s.history), p)
    requires !p.CallPayload? && !p.ResultPayload? && !p.RunPayload?
    ensures Core(AppendFact(s, p, HistoryInvariant).value)
  {
    AppendKeepsHistory(s, p);
    var s' := AppendFact(s, p, HistoryInvariant).value;
    assert ScanOf(s'.history).talk.calls == ScanOf(s.history).talk.calls;
    assert ScanOf(s'.history).talk.results == ScanOf(s.history).talk.results;
    assert ScanOf(s'.history).runs == ScanOf(s.history).runs;
  }

  // ---------------------------------------------------------------- parts that change alone

  lemma {:induction false} CoreWithQueue(s: Snapshot, queue: seq<QueueItem>)
    requires Core(s) && QueueOk(s.(queue := queue))
    ensures Core(s.(queue := queue))
  {
  }

  lemma {:induction false} CoreWithExtensions(s: Snapshot, extensions: seq<ExtensionEntry>)
    requires Core(s) && JournalValid(extensions, s.session.id)
    ensures Core(s.(extensions := extensions))
  {
  }

  lemma {:induction false} CoreWithConfig(s: Snapshot, config: Config, events: seq<Event>)
    requires Core(s) && config.Valid()
    ensures Core(s.(config := config, events := events))
  {
  }

  /** A change to the tool journal, together with the calls and results it is about. */
  lemma {:induction false} CoreWithTools(s: Snapshot, s': Snapshot)
    requires Core(s)
    requires s' == s.(history := s'.history, journal := s'.journal)
    requires HistoryOk(s') && ForkOk(s') && ScanOf(s'.history).runs == ScanOf(s.history).runs
    requires ToolsOk(s', ScanOf(s'.history).talk)
    ensures Core(s')
  {
  }

  // ---------------------------------------------------------------- each operation

  /** What the guards of a start establish for the checker. */
  lemma {:induction false} StartAccepted(s: Snapshot, f: RunFact)
    requires Core(s) && f.kind == RunStarted
    requires ChangeRunState(s, f.run, true).Ok? && AppendRun(ChangeRunState(s, f.run, true).value, f).Ok?
    ensures RunPayload(f).Valid(s.session.id) && Accepts(ScanOf(s.history), RunPayload(f))
    ensures f.run !in ScanOf(s.history).runs.starts && f.run !in ScanOf(s.history).runs.terminals
    ensures forall i :: 0 <= i < |s.journal| ==> !Unfinished(s.journal[i].status)
  {
    RunSearch(s.history, f.run);
    TerminalsStarted(s.session.id, s.history);
  }

  lemma {:induction false} CoreWithRun(s: Snapshot, f: RunFact, s': Snapshot)
    requires Core(s) && f.run != 0 && f.run !in ScanOf(s.history).runs.terminals && f.kind == RunStarted
    requires f.run !in ScanOf(s.history).runs.starts
    requires s' == s.(history := s'.history, running := true, activeRun := f.run) && HistoryOk(s') && ForkOk(s')
    requires ScanOf(s'.history) == Absorb(ScanOf(s.history), RunPayload(f))
    requires forall i :: 0 <= i < |s.journal| ==> !Unfinished(s.journal[i].status)
    ensures Core(s')
  {
    hide HistoryOk;
    hide ForkOk;
    hide ScanOf;
    hide JournalValid;
    hide ContextViewValid;
    assert ToolsOk(s', ScanOf(s'.history).talk);
    assert RunOk(s', ScanOf(s'.history).runs);
    assert ViewsOk(s', ScanOf(s'.history).runs);
  }

  lemma {:induction false} BegunIs(s: Snapshot, f: RunFact, begun: Snapshot, s': Snapshot)
    requires ChangeRunState(s, f.run, true) == Ok(begun) && AppendRun(begun, f) == Ok(s') && f.kind == RunStarted
    ensures begun == s.(running := true, activeRun := f.run)
    ensures AppendFact(begun, RunPayload(f), HistoryInvariant) == Ok(s') && s' == begun.(history := s'.history)
    ensures HistoryOk(s) ==> HistoryOk(begun)
    ensures ForkOk(s) ==> ForkOk(begun)
  {
    hide FindRun;
  }

  lemma {:induction false} StartKeepsCore(s: Snapshot, f: RunFact, s': Snapshot)
    requires Core(s) && f.kind == RunStarted && f.run != 0
    requires ChangeRunState(s, f.run, true).Ok? && AppendRun(ChangeRunState(s, f.run, true).value, f) == Ok(s')
    ensures Core(s') && s'.revision == s.revision
  {
    assert HistoryOk(s) && ForkOk(s);
    hide *;
    var begun := ChangeRunState(s, f.run, true).value;
    StartAccepted(s, f);
    BegunIs(s, f, begun, s');
    AppendKeepsHistory(begun, RunPayload(f));
    CoreWithRun(s, f, s');
  }

  lemma {:induction false} FinishKeepsCore(s: Snapshot, f: RunFact, s': Snapshot)
    requires Core(s) && f.kind != RunStarted && !HasUnfinishedJournal(s.journal)
    requires AppendRun(s, f).Ok? && ChangeRunState(AppendRun(s, f).value, f.run, false) == Ok(s')
    ensures Core(s') && s'.revision == s.revision
  {
    RunSearch(s.history, f.run);
    AppendKeepsHistory(s, RunPayload(f));
    assert forall i :: 0 <= i < |s.journal| ==> !Unfinished(s.journal[i].status);
  }

  /** A call that is new to History is new to the journal. */
  lemma {:induction false} PreparedJournalAccepted(t: Talk, t': Talk, journal: seq<JournalEntry>, c: ToolCall)
    requires JournalAccepted(t, journal) && c.id !in t.calls && t.results.Keys <= t.calls.Keys
    requires t'.calls == t.calls[c.id := c] && t'.results == t.results
    ensures JournalIndex(journal, c.id) == |journal|
    ensures JournalAccepted(t', journal + [PreparedEntry(c)])
  {
    var after := journal + [PreparedEntry(c)];
    forall k | 0 <= k < |journal| ensures EntryAccepted(t', after[k]) && journal[k].call.id != c.id {
      assert EntryAccepted(t, journal[k]);
    }
    forall id | id in t'.calls && id !in t'.results ensures HasUnfinished(after, id) {
      if id == c.id {
        assert after[|journal|].call.id == id;
      } else {
        assert HasUnfinished(journal, id);
        var k :| 0 <= k < |journal| && journal[k].call.id == id && Unfinished(journal[k].status);
        assert after[k] == journal[k];
      }
    }
  }

  /** What the guards of AppendToolCall establish for the checker. */
  lemma {:induction false} CallAccepted(s: Snapshot, c: ToolCall)
    requires HistoryOk(s) && ForkOk(s) && AppendCall(s, c).Ok?
    ensures var called := AppendCall(s, c).value;
            && called == s.(history := called.history) && HistoryOk(called) && ForkOk(called)
            && c.id !in ScanOf(s.history).talk.calls
            && ScanOf(called.history) == Absorb(ScanOf(s.history), CallPayload(c))
  {
    MessageSearch(s.session.id, s.history, c.message);
    CallSearch(s.session.id, s.history, c.id);
    AppendKeepsHistory(s, CallPayload(c));
  }

  lemma {:induction false} ToolsAppended(s: Snapshot, t: Talk, c: ToolCall, s': Snapshot)
    requires ToolsOk(s, t) && s'.session == s.session && s'.running == s.running && s'.activeRun == s.activeRun
    requires s'.journal == s.journal + [PreparedEntry(c)] && PreparedEntry(c).Valid(s.session.id) && IsActive(s, c.run)
    ensures forall t' :: JournalAccepted(t', s'.journal) ==> ToolsOk(s', t')
  {
  }

  /** A new call's entry is appended, for the active Run. */
  lemma {:induction false} PreparedIs(s: Snapshot, c: ToolCall, s': Snapshot)
    requires JournalIndex(s.journal, c.id) == |s.journal| && ApplyJournal(s, PreparedEntry(c)) == Ok(s')
    ensures s' == s.(journal := s.journal + [PreparedEntry(c)])
    ensures PreparedEntry(c).Valid(s.session.id) && IsActive(s, c.run)
  {
  }

  lemma {:induction false} CoreHolds(s: Snapshot)
    requires Core(s)
    ensures HistoryOk(s) && ForkOk(s) && Accepted(s.session.id, s.history)
    ensures ToolsOk(s, ScanOf(s.history).talk) && JournalAccepted(ScanOf(s.history).talk, s.journal)
  {
  }

  /** The checker's maps after a call. */
  lemma {:induction false} CallAbsorbed(s: Scan, c: ToolCall)
    ensures var s' := Absorb(s, CallPayload(c));
            s'.talk.calls == s.talk.calls[c.id := c] && s'.talk.results == s.talk.results && s'.runs == s.runs
  {
  }

  lemma {:induction false} PrepareKeepsCore(s: Snapshot, c: ToolCall, s': Snapshot)
    requires Core(s)
    requires AppendCall(s, c).Ok? && ApplyJournal(AppendCall(s, c).value, PreparedEntry(c)) == Ok(s')
    ensures Core(s') && s'.revision == s.revision
  {
    hide *;
    var called := AppendCall(s, c).value;
    CoreHolds(s);
    CallAccepted(s, c);
    CallAbsorbed(ScanOf(s.history), c);
    TerminalsStarted(s.session.id, s.history);
    PreparedJournalAccepted(ScanOf(s.history).talk, ScanOf(called.history).talk, s.journal, c);
    PreparedIs(called, c, s');
    ToolsAppended(s, ScanOf(s.history).talk, c, s');
    WithJournal(called, s');
    CoreWithTools(s, s');
  }

  lemma {:induction false} WithJournal(s: Snapshot, s': Snapshot)
    requires HistoryOk(s) && ForkOk(s) && s' == s.(journal := s'.journal)
    ensures HistoryOk(s') && ForkOk(s')
  {
  }

  /** Recording a result in History and at its journal entry keeps the two in step. */
  lemma {:induction false} SettledJournalAccepted(t: Talk, t': Talk, journal: seq<JournalEntry>, i: nat, r: ToolResult)
    requires JournalAccepted(t, journal) && i < |journal|
    requires journal[i].call.id == r.call
    requires t'.calls == t.calls && t'.results == t.results[r.call := r]
    ensures JournalAccepted(t', journal[i := journal[i].(result := Some(r), status := StatusOf(r))])
  {
    var after := journal[i := journal[i].(result := Some(r), status := StatusOf(r))];
    assert forall k :: 0 <= k < |journal| ==> after[k].call.id == journal[k].call.id;
    forall k | 0 <= k < |after| ensures EntryAccepted(t', after[k]) {
      assert EntryAccepted(t, journal[k]);
    }
    forall id | id in t'.calls && id !in t'.results ensures HasUnfinished(after, id) {
      assert HasUnfinished(journal, id);
      var k :| 0 <= k < |journal| && journal[k].call.id == id && Unfinished(journal[k].status);
      assert after[k] == journal[k];
    }
  }

  lemma {:induction false} SettleKeepsCore(s: Snapshot, c: ToolCall, r: ToolResult, s': Snapshot)
    requires Core(s) && r.call == c.id
    requires AppendResult(s, r).Ok? && ApplyJournal(AppendResult(s, r).value, TerminalEntry(c, r)) == Ok(s')
    ensures Core(s') && s'.revision == s.revision
  {
    var told := AppendResult(s, r).value;
    CallSearch(s.session.id, s.history, c.id);
    ResultSearch(s.session.id, s.history, c.id);
    AppendKeepsHistory(s, ResultPayload(r));
    var i := JournalIndex(s.journal, c.id);
    SettledJournalAccepted(ScanOf(s.history).talk, ScanOf(told.history).talk, s.journal, i, r);
    assert s' == told.(journal := s.journal[i := s.journal[i].(result := Some(r), status := StatusOf(r))]);
    CoreWithTools(s, s');
  }

  lemma {:induction false} MarkedJournalAccepted(t: Talk, journal: seq<JournalEntry>, i: nat)
    requires JournalAccepted(t, journal) && i < |journal| && Unfinished(journal[i].status)
    ensures JournalAccepted(t, journal[i := journal[i].(status := JournalPending)])
  {
    var after := journal[i := journal[i].(status := JournalPending)];
    forall k | 0 <= k < |after| ensures EntryAccepted(t, after[k]) {
      assert EntryAccepted(t, journal[k]);
    }
    forall id | id in t.calls && id !in t.results ensures HasUnfinished(after, id) {
      assert HasUnfinished(journal, id);
      var k :| 0 <= k < |journal| && journal[k].call.id == id && Unfinished(journal[k].status);
      assert after[k].call.id == id && Unfinished(after[k].status);
    }
  }

  lemma {:induction false} MarkKeepsCore(s: Snapshot, c: ToolCall, s': Snapshot)
    requires Core(s) && JournalIndex(s.journal, c.id) < |s.journal|
    requires ApplyJournal(s, PendingEntry(c)) == Ok(s')
    ensures Core(s') && s'.revision == s.revision
  {
    var i := JournalIndex(s.journal, c.id);
    assert s' == s.(journal := s.journal[i := s.journal[i].(status := JournalPending)]);
    MarkedJournalAccepted(ScanOf(s.history).talk, s.journal, i);
    CoreWithTools(s, s');
  }

  lemma {:induction false} ExtensionKeepsCore(s: Snapshot, e: ExtensionEntry, s': Snapshot)
    requires Core(s)
    requires ApplyExtensionChange(s, e) == Ok(s')
    ensures Core(s') && s'.revision == s.revision
  {
    ApplyExtensionKeeps(s.extensions, s.session.id, e);
    CoreWithExtensions(s, s'.extensions);
  }

  lemma {:induction false} ContributionKeepsCore(s: Snapshot, x: Contribution, s': Snapshot)
    requires Core(s)
    requires AppendContribution(s, x) == Ok(s')
    ensures Core(s') && s'.revision == s.revision
  {
    ContributionSearch(s.history, x);
    AppendKeepsCore(s, ContributionPayload(x));
  }

  lemma {:induction false} SelectKeepsCore(s: Snapshot, p: Config, n: Config, s': Snapshot)
    requires Core(s) && n.Valid()
    requires ApplyChange(s.(config := n), s.revision, AppendSessionEvent(p, n)) == Ok(s')
    ensures Core(s') && s'.revision == s.revision
  {
    hide Core;
    var events := s.events + [ConfigChanged(s.revision + 1, p, n)];
    CoreWithConfig(s, n, events);
    AppendKeepsCore(s.(config := n, events := events), ConfigPayload(p, n));
  }

  lemma {:induction false} AttemptKeepsCore(s: Snapshot, a: Attempt, s': Snapshot)
    requires Core(s)
    requires AppendAttempt(s, a) == Ok(s')
    ensures Core(s') && s'.revision == s.revision
  {
    AttemptSearch(s.history, a.id);
    RunSearch(s.history, a.run);
    AppendKeepsCore(s, AttemptPayload(a));
  }

  lemma {:induction false} BudgetKeepsCore(s: Snapshot, b: Budget, s': Snapshot)
    requires Core(s)
    requires AppendBudget(s, b) == Ok(s')
    ensures Core(s') && s'.revision == s.revision
  {
    StopSearch(s.history, b.run);
    CountSearch(s.history, b.run);
    AppendKeepsCore(s, BudgetPayload(b));
  }

  lemma {:induction false} LimitKeepsCore(s: Snapshot, l: Limit, s': Snapshot)
    requires Core(s)
    requires l.triggerAttempt !in ScanOf(s.history).attempts.starts && l.triggerCall !in ScanOf(s.history).talk.calls
    requires AppendLimit(s, l) == Ok(s')
    ensures Core(s') && s'.revision == s.revision
  {
    StopSearch(s.history, l.run);
    CountSearch(s.history, l.run);
    AppendKeepsCore(s, LimitPayload(l));
  }

  lemma {:induction false} MessageKeepsCore(s: Snapshot, m: Message, s': Snapshot)
    requires Core(s)
    requires ApplyChange(s, s.revision, AppendMessage(m)) == Ok(s')
    ensures Core(s') && s'.revision == s.revision
  {
    MessageSearch(s.session.id, s.history, m.id);
    AppendKeepsCore(s, MessagePayload(m));
  }

  lemma {:induction false} ContextKeepsCore(s: Snapshot, v: ContextView, retain: bool, s': Snapshot)
    requires Core(s)
    requires ReplaceContext(s, s.revision, v, retain) == Ok(s')
    ensures Core(s') && s'.revision == s.revision
  {
    RunSearch(s.history, v.run);
    assert ViewsOk(s', ScanOf(s.history).runs);
  }

  predicate QueueChange(c: Change) {
    c.EnqueueMessage? || c.ClaimQueue? || c.ConsumeQueue? || c.EditQueue? || c.DeleteQueue? || c.ReclassifyQueue?
  }

  /** Replacing an item by one with the same message ID, or dropping an item, keeps IDs unique. */
  lemma {:induction false} QueueUpdateOk(s: Snapshot, i: nat, item: QueueItem)
    requires QueueOk(s) && i < |s.queue| && item.Valid(s.session.id) && item.message.id == s.queue[i].message.id
    ensures QueueOk(s.(queue := s.queue[i := item]))
    ensures QueueOk(s.(queue := RemoveAt(s.queue, i)))
  {
    var left := RemoveAt(s.queue, i);
    assert forall k :: 0 <= k < |left| ==> left[k] == s.queue[if k < i then k else k + 1];
  }

  lemma {:induction false} QueueChangeOk(s: Snapshot, c: Change, s': Snapshot)
    requires QueueOk(s) && QueueChange(c) && ChangeValid(c, s.session.id)
    requires ApplyChange(s, s.revision, c) == Ok(s')
    ensures s' == s.(queue := s'.queue) && QueueOk(s')
  {
    match c {
      case EnqueueMessage(item) =>
        assert s'.queue == s.queue + [item];
      case ClaimQueue(m, run) =>
        var i := QueueIndex(s.queue, m);
        QueueUpdateOk(s, i, s.queue[i].(claimedBy := run));
      case ConsumeQueue(m, _) =>
        var i := QueueIndex(s.queue, m);
        QueueUpdateOk(s, i, s.queue[i]);
      case EditQueue(m, parts, d) =>
        var i := QueueIndex(s.queue, m);
        QueueUpdateOk(s, i, s.queue[i].(message := s.queue[i].message.(parts := parts), delivery := d));
      case DeleteQueue(m) =>
        var i := QueueIndex(s.queue, m);
        QueueUpdateOk(s, i, s.queue[i]);
      case ReclassifyQueue(m, d) =>
        var i := QueueIndex(s.queue, m);
        QueueUpdateOk(s, i, s.queue[i].(delivery := d));
    }
  }

  lemma {:induction false} QueueKeepsCore(s: Snapshot, c: Change, s': Snapshot)
    requires Core(s) && QueueChange(c) && ChangeValid(c, s.session.id)
    requires ApplyChange(s, s.revision, c) == Ok(s')
    ensures Core(s') && s'.revision == s.revision
  {
    QueueChangeOk(s, c, s');
    CoreWithQueue(s, s'.queue);
  }

  lemma {:induction false} PlainKeepsCore(s: Snapshot, c: Change, s': Snapshot)
    requires Core(s) && Shaped(s, Plain(c)) && ChangeValid(c, s.session.id)
    requires ApplyChange(s, s.revision, c) == Ok(s')
    ensures Core(s') && s'.revision == s.revision
  {
    hide Core;
    match c {
      case AppendMessage(m) => MessageKeepsCore(s, m, s');
      case AppendModelAttempt(a) => AttemptKeepsCore(s, a, s');
      case AppendContextContribution(x) => ContributionKeepsCore(s, x, s');
      case AppendRunBudgetExceeded(b) => BudgetKeepsCore(s, b, s');
      case AppendRunLimitExceeded(l) => LimitKeepsCore(s, l, s');
      case SetContext(v, retain) => ContextKeepsCore(s, v, retain, s');
      case UpdateExtensionJournal(e) => ExtensionKeepsCore(s, e, s');
      case _ => QueueKeepsCore(s, c, s');
    }
  }

  predicate OpValid(op: Op, sid: SessionID) {
    var cs := Changes(op);
    forall i :: 0 <= i < |cs| ==> ChangeValid(cs[i], sid)
  }

  lemma {:induction false} ApplyOne(s: Snapshot, expected: Revision, a: Change)
    ensures ApplyAll(s, expected, [a]) == ApplyChange(s, expected, a)
  {
    assert [a][1..] == [];
  }

  lemma {:induction false} ApplyTwo(s: Snapshot, expected: Revision, a: Change, b: Change, s': Snapshot)
    requires ApplyAll(s, expected, [a, b]) == Ok(s')
    ensures ApplyChange(s, expected, a).Ok? && ApplyChange(ApplyChange(s, expected, a).value, expected, b) == Ok(s')
  {
    assert [a, b] == [a] + [b];
    ApplyConcat(s, expected, [a], [b]);
    ApplyOne(s, expected, a);
    if ApplyChange(s, expected, a).Ok? {
      ApplyOne(ApplyChange(s, expected, a).value, expected, b);
    }
  }

  // Each group of changes, seen as the two (or one) Store operations it performs.

  lemma {:induction false} StartApplies(s: Snapshot, f: RunFact, s': Snapshot)
    requires ApplyAll(s, s.revision, Changes(StartRun(f))) == Ok(s')
    ensures ChangeRunState(s, f.run, true).Ok? && AppendRun(ChangeRunState(s, f.run, true).value, f) == Ok(s')
  {
    ApplyTwo(s, s.revision, SetRunState(f.run, true), AppendRunFact(f), s');
  }

  lemma {:induction false} FinishApplies(s: Snapshot, f: RunFact, s': Snapshot)
    requires ApplyAll(s, s.revision, Changes(FinishRun(f))) == Ok(s')
    ensures AppendRun(s, f).Ok? && ChangeRunState(AppendRun(s, f).value, f.run, false) == Ok(s')
  {
    ApplyTwo(s, s.revision, AppendRunFact(f), SetRunState(f.run, false), s');
  }

  lemma {:induction false} PrepareApplies(s: Snapshot, c: ToolCall, s': Snapshot)
    requires ApplyAll(s, s.revision, Changes(PrepareCall(c))) == Ok(s')
    ensures AppendCall(s, c).Ok? && ApplyJournal(AppendCall(s, c).value, PreparedEntry(c)) == Ok(s')
  {
    ApplyTwo(s, s.revision, AppendToolCall(c), UpdateRunJournal(PreparedEntry(c)), s');
  }

  lemma {:induction false} SettleApplies(s: Snapshot, c: ToolCall, r: ToolResult, s': Snapshot)
    requires ApplyAll(s, s.revision, Changes(SettleCall(c, r))) == Ok(s')
    ensures AppendResult(s, r).Ok? && ApplyJournal(AppendResult(s, r).value, TerminalEntry(c, r)) == Ok(s')
  {
    ApplyTwo(s, s.revision, AppendToolResult(r), UpdateRunJournal(TerminalEntry(c, r)), s');
  }

  lemma {:induction false} MarkApplies(s: Snapshot, c: ToolCall, s': Snapshot)
    requires ApplyAll(s, s.revision, Changes(MarkExecuting(c))) == Ok(s')
    ensures ApplyJournal(s, PendingEntry(c)) == Ok(s')
  {
    ApplyOne(s, s.revision, UpdateRunJournal(PendingEntry(c)));
  }

  lemma {:induction false} ConsumeApplies(s: Snapshot, x: Contribution, e: ExtensionEntry, s': Snapshot)
    requires ApplyAll(s, s.revision, Changes(ConsumeContext(x, e))) == Ok(s')
    ensures AppendContribution(s, x).Ok? && ApplyExtensionChange(AppendContribution(s, x).value, e) == Ok(s')
  {
    ApplyTwo(s, s.revision, AppendContextContribution(x), UpdateExtensionJournal(e), s');
  }

  lemma {:induction false} SelectApplies(s: Snapshot, p: Config, n: Config, s': Snapshot)
    requires ApplyAll(s, s.revision, Changes(SelectModel(p, n))) == Ok(s')
    ensures ApplyChange(s.(config := n), s.revision, AppendSessionEvent(p, n)) == Ok(s')
  {
    ApplyTwo(s, s.revision, SetModelConfig(n), AppendSessionEvent(p, n), s');
  }

  lemma {:induction false} PlainApplies(s: Snapshot, c: Change, s': Snapshot)
    requires ApplyAll(s, s.revision, Changes(Plain(c))) == Ok(s')
    ensures ApplyChange(s, s.revision, c) == Ok(s')
  {
    ApplyOne(s, s.revision, c);
  }

  /** Every operation keeps the core. */
  lemma {:induction false} OpKeepsCore(s: Snapshot, op: Op, s': Snapshot)
    requires Core(s) && Shaped(s, op) && OpValid(op, s.session.id)
    requires ApplyAll(s, s.revision, Changes(op)) == Ok(s')
    ensures Core(s') && s'.revision == s.revision
  {
    hide Core;
    assert ChangeValid(Changes(op)[0], s.session.id);
    match op {
      case StartRun(f) => StartApplies(s, f, s'); StartKeepsCore(s, f, s');
      case FinishRun(f) => FinishApplies(s, f, s'); FinishKeepsCore(s, f, s');
      case PrepareCall(c) => PrepareApplies(s, c, s'); PrepareKeepsCore(s, c, s');
      case SettleCall(c, r) => SettleApplies(s, c, r, s'); SettleKeepsCore(s, c, r, s');
      case MarkExecuting(c) => MarkApplies(s, c, s'); MarkKeepsCore(s, c, s');
      case ConsumeContext(x, e) =>
        ConsumeApplies(s, x, e, s');
        ContributionKeepsCore(s, x, AppendContribution(s, x).value);
        ExtensionKeepsCore(AppendContribution(s, x).value, e, s');
      case SelectModel(p, n) => SelectApplies(s, p, n, s'); SelectKeepsCore(s, p, n, s');
      case Plain(c) => PlainApplies(s, c, s'); PlainKeepsCore(s, c, s');
    }
  }
}
