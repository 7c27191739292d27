/** One commit applied to a Snapshot (session/memory_store.go applyChanges and its helpers,
    session/history.go appendHistoryFact). */
module Transactions {
  import opened SessionTypes
  import opened ModelProtocol
  import opened ExtensionJournal

  // ---------------------------------------------------------------- searches over History

  /** First match, as findMessage, findToolCall and findToolResult search. */
  function FindMessage(h: seq<HistoryFact>, id: MessageID): (r: Option<Message>) {
    if h == [] then None
    else
      var before, p := FindMessage(h[..|h| - 1], id), h[|h| - 1].payload;
      if before.Some? then before else if p.MessagePayload? && p.message.id == id then Some(p.message) else None
  }

  function FindCall(h: seq<HistoryFact>, id: ToolCallID): (r: Option<ToolCall>) {
    if h == [] then None
    else
      var before, p := FindCall(h[..|h| - 1], id), h[|h| - 1].payload;
      if before.Some? then before else if p.CallPayload? && p.call.id == id then Some(p.call) else None
  }

  function FindResult(h: seq<HistoryFact>, id: ToolCallID): (r: Option<ToolResult>) {
    if h == [] then None
    else
      var before, p := FindResult(h[..|h| - 1], id), h[|h| - 1].payload;
      if before.Some? then before else if p.ResultPayload? && p.result.call == id then Some(p.result) else None
  }

  /** Last match, as runFacts and appendModelAttemptFact search; `start` selects start or terminal facts. */
  function FindRun(h: seq<HistoryFact>, run: RunID, start: bool): (r: Option<RunFact>) {
    if h == [] then None
    else
      var p := h[|h| - 1].payload;
      if p.RunPayload? && p.run.run == run && (p.run.kind == RunStarted) == start then Some(p.run)
      else FindRun(h[..|h| - 1], run, start)
  }

  function FindAttempt(h: seq<HistoryFact>, id: AttemptID, start: bool): (r: Option<Attempt>) {
    if h == [] then None
    else
      var p := h[|h| - 1].payload;
      if p.AttemptPayload? && p.attempt.id == id && (p.attempt.kind == AttemptStarted) == start then Some(p.attempt)
      else FindAttempt(h[..|h| - 1], id, start)
  }

  predicate HasContribution(h: seq<HistoryFact>, c: Contribution) {
    exists i :: 0 <= i < |h| && h[i].payload.ContributionPayload? && h[i].payload.contribution.run == c.run
      && h[i].payload.contribution.step == c.step && h[i].payload.contribution.source == c.source
  }

  /** The Run already carries a budget or limit fact. */
  predicate Stopped(h: seq<HistoryFact>, run: RunID) {
    exists i :: 0 <= i < |h| && (match h[i].payload
                                 case BudgetPayload(b) => b.run == run
                                 case LimitPayload(l) => l.run == run
                                 case _ => false)
  }

  function Spent(h: seq<HistoryFact>, run: RunID): (r: int) {
    if h == [] then 0
    else
      var p := h[|h| - 1].payload;
      var ended := p.AttemptPayload? && p.attempt.run == run && p.attempt.kind != AttemptStarted;
      var last := if ended then p.attempt.tokens else 0;
      Spent(h[..|h| - 1], run) + last
  }

  function CountAttempts(h: seq<HistoryFact>, run: RunID): (r: nat) {
    if h == [] then 0
    else
      var p := h[|h| - 1].payload;
      var last := if p.AttemptPayload? && p.attempt.run == run && p.attempt.kind == AttemptStarted then 1 else 0;
      CountAttempts(h[..|h| - 1], run) + last
  }

  function CountCalls(h: seq<HistoryFact>, run: RunID): (r: nat) {
    if h == [] then 0
    else
      var p := h[|h| - 1].payload;
      var last := if p.CallPayload? && p.call.run == run then 1 else 0;
      CountCalls(h[..|h| - 1], run) + last
  }

  /** The rejected operation was already admitted, looking only inside the limited Run. */
  predicate TriggerAdmitted(h: seq<HistoryFact>, l: Limit) {
    exists i :: 0 <= i < |h| &&
      (match h[i].payload
       case AttemptPayload(a) => a.run == l.run && a.kind == AttemptStarted && a.id == l.triggerAttempt
       case CallPayload(c) => c.run == l.run && c.id == l.triggerCall
       case _ => false)
  }

  // ---------------------------------------------------------------- appending

  function FactContainment(h: seq<HistoryFact>, p: Payload): (r: (RunID, StepID)) {
    match p
    case MessagePayload(m) => (m.run, m.step)
    case CallPayload(c) => (c.run, c.step)
    case ResultPayload(r) =>
      var call := FindCall(h, r.call);
      if call.Some? then (call.value.run, call.value.step) else (0, 0)
    case RunPayload(f) => (f.run, 0)
    case AttemptPayload(a) => (a.run, a.step)
    case ContributionPayload(c) => (c.run, c.step)
    case BudgetPayload(b) => (b.run, 0)
    case LimitPayload(l) => (l.run, l.step)
    case ConfigPayload(_, _) => (0, 0)
  }

  /** The envelope the Store puts around a payload. */
  function Envelope(h: seq<HistoryFact>, sid: SessionID, origin: FactID, p: Payload): (f: HistoryFact) {
    var (run, step) := FactContainment(h, p);
    HistoryFact(FactOf(sid, |h| + 1), origin, |h| + 1, sid, run, step, p)
  }

  /** appendHistoryFact. */
  function AppendFact(s: Snapshot, p: Payload, code: ErrorCode): (r: Result<Snapshot>) {
    if !p.Valid(s.session.id) then Err(code)
    else Ok(s.(history := s.history + [Envelope(s.history, s.session.id, NoFact, p)]))
  }

  predicate IsActive(s: Snapshot, run: RunID) {
    s.running && s.activeRun == run
  }

  function AppendRun(s: Snapshot, f: RunFact): (r: Result<Snapshot>) {
    var started := FindRun(s.history, f.run, true);
    var terminal := FindRun(s.history, f.run, false);
    if f.kind == RunStarted then
      if started.Some? || !IsActive(s, f.run) then Err(HistoryInvariant)
      else AppendFact(s, RunPayload(f), HistoryInvariant)
    else if started.None? || terminal.Some? || !IsActive(s, f.run) then Err(HistoryInvariant)
    else if started.value.configRevision != f.configRevision || started.value.config != f.config then
      Err(HistoryInvariant)
    else if f.kind != RunCompleted && f.termination.None? then Err(HistoryInvariant)
    else AppendFact(s, RunPayload(f), HistoryInvariant)
  }

  function AppendAttempt(s: Snapshot, a: Attempt): (r: Result<Snapshot>) {
    var started := FindAttempt(s.history, a.id, true);
    var terminal := FindAttempt(s.history, a.id, false);
    if a.kind == AttemptStarted then
      var run := FindRun(s.history, a.run, true);
      if started.Some? || terminal.Some? || !IsActive(s, a.run) then Err(HistoryInvariant)
      else if run.None? || run.value.config.provider != a.provider || run.value.config.model != a.model then
        Err(HistoryInvariant)
      else AppendFact(s, AttemptPayload(a), HistoryInvariant)
    else if started.None? || terminal.Some? || !started.value.SameIdentity(a) then Err(HistoryInvariant)
    else AppendFact(s, AttemptPayload(a), HistoryInvariant)
  }

  function AppendBudget(s: Snapshot, b: Budget): (r: Result<Snapshot>) {
    if !IsActive(s, b.run) || Stopped(s.history, b.run) || Spent(s.history, b.run) != b.used then Err(HistoryInvariant)
    else AppendFact(s, BudgetPayload(b), HistoryInvariant)
  }

  function AppendLimit(s: Snapshot, l: Limit): (r: Result<Snapshot>) {
    var used := if l.kind.LimitToolCalls? then CountCalls(s.history, l.run) else CountAttempts(s.history, l.run);
    if !IsActive(s, l.run) || Stopped(s.history, l.run) || TriggerAdmitted(s.history, l) || used != l.used then
      Err(HistoryInvariant)
    else AppendFact(s, LimitPayload(l), HistoryInvariant)
  }

  function AppendContribution(s: Snapshot, c: Contribution): (r: Result<Snapshot>) {
    if !IsActive(s, c.run) || HasContribution(s.history, c) then Err(HistoryInvariant)
    else AppendFact(s, ContributionPayload(c), HistoryInvariant)
  }

  function AppendCall(s: Snapshot, c: ToolCall): (r: Result<Snapshot>) {
    var parent := FindMessage(s.history, c.message);
    if FindCall(s.history, c.id).Some? || parent.None? then Err(HistoryInvariant)
    else if parent.value.role != RoleAssistant || parent.value.run != c.run || parent.value.step != c.step then
      Err(HistoryInvariant)
    else AppendFact(s, CallPayload(c), HistoryInvariant)
  }

  function AppendResult(s: Snapshot, r: ToolResult): (x: Result<Snapshot>) {
    if FindCall(s.history, r.call).None? || FindResult(s.history, r.call).Some? then Err(HistoryInvariant)
    else AppendFact(s, ResultPayload(r), HistoryInvariant)
  }

  // ---------------------------------------------------------------- queue

  /** Position of a message in the queue, or its length. */
  function QueueIndex(queue: seq<QueueItem>, id: MessageID): (r: nat)
    ensures r <= |queue|
    ensures r < |queue| ==> queue[r].message.id == id
    ensures forall i :: 0 <= i < r ==> queue[i].message.id != id
  {
    if queue == [] then 0
    else if queue[0].message.id == id then 0
    else
      var rest := QueueIndex(queue[1..], id);
      assert forall i :: 0 < i <= rest ==> queue[i] == queue[1..][i - 1] || i > rest;
      rest + 1
  }

  function Enqueue(s: Snapshot, item: QueueItem): (r: Result<Snapshot>) {
    if item.Claimed() then Err(InvalidInput)
    else if QueueIndex(s.queue, item.message.id) < |s.queue| then Err(QueueItemAlreadyExists)
    else Ok(s.(queue := s.queue + [item]))
  }

  function Claim(s: Snapshot, id: MessageID, run: RunID): (r: Result<Snapshot>) {
    var i := QueueIndex(s.queue, id);
    if i == |s.queue| then Err(QueueItemNotFound)
    else if s.queue[i].Claimed() then Err(QueueItemClaimed)
    else if !IsActive(s, run) then Err(NoActiveRun)
    else Ok(s.(queue := s.queue[i := s.queue[i].(claimedBy := run)]))
  }

  function RemoveAt(queue: seq<QueueItem>, i: nat): (r: seq<QueueItem>)
    requires i < |queue|
  {
    queue[..i] + queue[i + 1..]
  }

  function Consume(s: Snapshot, id: MessageID, run: RunID): (r: Result<Snapshot>) {
    var i := QueueIndex(s.queue, id);
    if i == |s.queue| then Err(QueueItemNotFound)
    else if s.queue[i].claimedBy != run then Err(QueueItemClaimed)
    else Ok(s.(queue := RemoveAt(s.queue, i)))
  }

  function Edit(s: Snapshot, id: MessageID, parts: seq<nat>, delivery: Delivery): (r: Result<Snapshot>) {
    var i := QueueIndex(s.queue, id);
    if i == |s.queue| then Err(QueueItemNotFound)
    else if s.queue[i].Claimed() then Err(QueueItemClaimed)
    else
      var item := s.queue[i];
      Ok(s.(queue := s.queue[i := item.(message := item.message.(parts := parts), delivery := delivery)]))
  }

  function Delete(s: Snapshot, id: MessageID): (r: Result<Snapshot>) {
    var i := QueueIndex(s.queue, id);
    if i == |s.queue| then Err(QueueItemNotFound)
    else if s.queue[i].Claimed() then Err(QueueItemClaimed)
    else Ok(s.(queue := RemoveAt(s.queue, i)))
  }

  function Reclassify(s: Snapshot, id: MessageID, delivery: Delivery): (r: Result<Snapshot>) {
    var i := QueueIndex(s.queue, id);
    if i == |s.queue| then Err(QueueItemNotFound)
    else if s.queue[i].Claimed() then Err(QueueItemClaimed)
    else Ok(s.(queue := s.queue[i := s.queue[i].(delivery := delivery)]))
  }

  // ---------------------------------------------------------------- context, run state, journal

  predicate ContextViewValid(v: ContextView, sid: SessionID) {
    if v.version == 0 then
      v.sourceRevision == 0 && v.sourceSequence == 0 && v.tokenCount == 0 && v.session == 0
    else
      && v.sourceRevision != 0 && v.tokenCount >= 0
      && v.session == sid && v.run != 0 && v.step != 0 && v.config.Valid()
      && (forall i :: 0 <= i < |v.inputs| ==> v.inputs[i].BelongsTo(sid))
      && Protocol(v.inputs)
  }

  predicate ContextRunValid(h: seq<HistoryFact>, v: ContextView) {
    v.version == 0 ||
    (var started := FindRun(h, v.run, true);
     started.Some? && v.configRevision == started.value.configRevision && v.config == started.value.config)
  }

  function ReplaceContext(s: Snapshot, expected: Revision, v: ContextView, retain: bool): (r: Result<Snapshot>) {
    var latest := if s.history == [] then 0 else s.history[|s.history| - 1].sequence;
    if v.sourceRevision != expected || v.version != s.context.version + 1 || v.sourceSequence != latest then
      Err(RevisionConflict)
    else if !ContextViewValid(v, s.session.id) then Err(InvalidInput)
    else if !ContextRunValid(s.history, v) then Err(HistoryInvariant)
    else
      var retained := if !retain then [] else if s.context.version != 0 then s.retained + [s.context] else s.retained;
      Ok(s.(retained := retained, context := v))
  }

  function ChangeRunState(s: Snapshot, run: RunID, toRunning: bool): (r: Result<Snapshot>) {
    if toRunning then
      if s.running then Err(ActiveRunExists) else Ok(s.(running := true, activeRun := run))
    else if !IsActive(s, run) then Err(NoActiveRun)
    else Ok(s.(running := false, activeRun := 0))
  }

  /** Position of a call in the tool journal, or its length. */
  function JournalIndex(journal: seq<JournalEntry>, id: ToolCallID): (r: nat)
    ensures r <= |journal|
    ensures r < |journal| ==> journal[r].call.id == id
    ensures forall i :: 0 <= i < r ==> journal[i].call.id != id
  {
    if journal == [] then 0
    else if journal[0].call.id == id then 0
    else
      var rest := JournalIndex(journal[1..], id);
      assert forall i :: 0 < i <= rest ==> journal[i] == journal[1..][i - 1] || i > rest;
      rest + 1
  }

  /** applyJournal. */
  function ApplyJournal(s: Snapshot, e: JournalEntry): (r: Result<Snapshot>) {
    var i := JournalIndex(s.journal, e.call.id);
    if !e.Valid(s.session.id) then Err(JournalInvariant)
    else if i == |s.journal| then
      if !Unfinished(e.status) || !IsActive(s, e.run) then Err(JournalInvariant)
      else Ok(s.(journal := s.journal + [e]))
    else
      var current := s.journal[i];
      if !Unfinished(current.status) || e.status == JournalPrepared then Err(JournalInvariant)
      else if current.run != e.run || current.step != e.step || current.call != e.call then Err(JournalInvariant)
      else if e.status == JournalPending then
        if current.status != JournalPrepared then Err(JournalInvariant)
        else Ok(s.(journal := s.journal[i := current.(status := JournalPending)]))
      else Ok(s.(journal := s.journal[i := current.(result := e.result, status := e.status)]))
  }

  function ApplyExtensionChange(s: Snapshot, e: ExtensionEntry): (r: Result<Snapshot>) {
    var extensions :- ApplyExtension(s.extensions, s.session.id, e);
    Ok(s.(extensions := extensions))
  }

  // ---------------------------------------------------------------- changes

  /** Change.Validate. */
  predicate ChangeValid(c: Change, sid: SessionID) {
    match c
    case AppendMessage(m) => m.Valid() && m.session == sid
    case AppendToolCall(t) => t.Valid() && t.session == sid
    case AppendToolResult(r) => r.Valid()
    case AppendRunFact(f) => f.Valid(sid) && (f.kind != RunStarted && f.kind != RunCompleted ==> f.termination.Some?)
    case AppendModelAttempt(a) => a.Valid()
    case AppendContextContribution(x) => x.Valid(sid)
    case AppendRunBudgetExceeded(b) => b.Valid()
    case AppendRunLimitExceeded(l) => l.Valid()
    case AppendSessionEvent(p, n) => p.Valid() && n.Valid()
    case EnqueueMessage(item) => item.Valid(sid) && item.claimedBy == 0
    case ClaimQueue(m, r) => m != 0 && r != 0
    case ConsumeQueue(m, r) => m != 0 && r != 0
    case EditQueue(m, parts, _) => m != 0 && parts != []
    case DeleteQueue(m) => m != 0
    case ReclassifyQueue(m, _) => m != 0
    case SetContext(_, _) => true
    case SetModelConfig(n) => n.Valid()
    case SetRunState(r, _) => r != 0
    case UpdateRunJournal(e) => e.Valid(sid)
    case UpdateExtensionJournal(e) => EntryValid(e, sid)
  }

  /** One case of the applyChanges switch. */
  function ApplyChange(s: Snapshot, expected: Revision, c: Change): (r: Result<Snapshot>) {
    match c
    case AppendMessage(m) =>
      if FindMessage(s.history, m.id).Some? then Err(HistoryInvariant)
      else AppendFact(s, MessagePayload(m), HistoryInvariant)
    case AppendToolCall(t) => AppendCall(s, t)
    case AppendToolResult(x) => AppendResult(s, x)
    case AppendRunFact(f) => AppendRun(s, f)
    case AppendModelAttempt(a) => AppendAttempt(s, a)
    case AppendContextContribution(x) => AppendContribution(s, x)
    case AppendRunBudgetExceeded(b) => AppendBudget(s, b)
    case AppendRunLimitExceeded(l) => AppendLimit(s, l)
    case AppendSessionEvent(p, n) =>
      AppendFact(s.(events := s.events + [ConfigChanged(s.revision + 1, p, n)]), ConfigPayload(p, n), HistoryInvariant)
    case EnqueueMessage(item) => Enqueue(s, item)
    case ClaimQueue(m, run) => Claim(s, m, run)
    case ConsumeQueue(m, run) => Consume(s, m, run)
    case EditQueue(m, parts, d) => Edit(s, m, parts, d)
    case DeleteQueue(m) => Delete(s, m)
    case ReclassifyQueue(m, d) => Reclassify(s, m, d)
    case SetContext(v, retain) => ReplaceContext(s, expected, v, retain)
    case SetModelConfig(n) => if s.running then Err(ActiveRunExists) else Ok(s.(config := n))
    case SetRunState(run, toRunning) => ChangeRunState(s, run, toRunning)
    case UpdateRunJournal(e) => ApplyJournal(s, e)
    case UpdateExtensionJournal(e) => ApplyExtensionChange(s, e)
  }

  function ApplyAll(s: Snapshot, expected: Revision, changes: seq<Change>): (r: Result<Snapshot>)
    decreases |changes|
  {
    if changes == [] then Ok(s)
    else
      var next :- ApplyChange(s, expected, changes[0]);
      ApplyAll(next, expected, changes[1..])
  }

  /** The last journal update of one call with a status of the given kind, and the last appended
      call or result of an ID: later entries of a commit overwrite earlier ones in the source's maps. */
  function LastUpdate(changes: seq<Change>, id: ToolCallID, wanted: JournalStatus -> bool): (r: Option<JournalEntry>) {
    if changes == [] then None
    else
      var c := changes[|changes| - 1];
      if c.UpdateRunJournal? && c.entry.call.id == id && wanted(c.entry.status) then Some(c.entry)
      else LastUpdate(changes[..|changes| - 1], id, wanted)
  }

  function LastAppendedCall(changes: seq<Change>, id: ToolCallID): (r: Option<ToolCall>) {
    if changes == [] then None
    else
      var c := changes[|changes| - 1];
      if c.AppendToolCall? && c.call.id == id then Some(c.call) else LastAppendedCall(changes[..|changes| - 1], id)
  }

  function LastAppendedResult(changes: seq<Change>, id: ToolCallID): (r: Option<ToolResult>) {
    if changes == [] then None
    else
      var c := changes[|changes| - 1];
      if c.AppendToolResult? && c.result.call == id then Some(c.result)
        else LastAppendedResult(changes[..|changes| - 1], id)
  }

  function ToolTransactionOk(h: seq<HistoryFact>, changes: seq<Change>, c: Change): (r: Result<()>) {
    match c
    case AppendMessage(m) =>
      var asks := exists j :: 0 <= j < |changes| && changes[j].AppendToolCall? && changes[j].call.message == m.id;
      Check(m.parts != [] || asks, HistoryInvariant)
    case AppendToolCall(t) =>
      var prepared := LastUpdate(changes, t.id, s => s == JournalPrepared);
      var entry := if prepared.Some? then prepared else LastUpdate(changes, t.id, s => s == JournalPending);
      Check(entry.Some? && entry.value.call == t, JournalInvariant)
    case AppendToolResult(x) =>
      var entry := LastUpdate(changes, x.call, s => !Unfinished(s));
      Check(entry.Some? && entry.value.result == Some(x), JournalInvariant)
    case UpdateRunJournal(e) =>
      var call := LastAppendedCall(changes, e.call.id);
      if e.status == JournalPrepared || (e.status == JournalPending && call.Some?) then
        Check(call == Some(e.call), JournalInvariant)
      else if e.status != JournalPending then
        var result := LastAppendedResult(changes, e.call.id);
        Check(result.Some? && FindCall(h, e.call.id) == Some(e.call) && e.result == result, JournalInvariant)
      else Ok(())
    case _ => Ok(())
  }

  /** validateToolTransactions. */
  predicate ToolTransactionsValid(h: seq<HistoryFact>, changes: seq<Change>) {
    forall i :: 0 <= i < |changes| ==> ToolTransactionOk(h, changes, changes[i]).Ok?
  }

  /** validateModelConfigTransaction: at most one selection, paired with one matching event. */
  predicate ConfigTransactionValid(current: Config, changes: seq<Change>) {
    var selections := set i | 0 <= i < |changes| && changes[i].SetModelConfig?;
    var events := set i | 0 <= i < |changes| && changes[i].AppendSessionEvent?;
    && |selections| == |events| <= 1
    && forall i, j :: i in selections && j in events ==>
         changes[j].previous == current && changes[j].current == changes[i].config
  }

  predicate HasUnfinishedJournal(journal: seq<JournalEntry>) {
    exists i :: 0 <= i < |journal| && Unfinished(journal[i].status)
  }

  predicate ClaimsValid(queue: seq<QueueItem>, running: bool, active: RunID) {
    forall i :: 0 <= i < |queue| ==> queue[i].claimedBy == 0 || (running && queue[i].claimedBy == active)
  }

  /** The checks applyChanges makes before and after its switch. */
  predicate Admissible(s: Snapshot, changes: seq<Change>) {
    && (forall i :: 0 <= i < |changes| ==> ChangeValid(changes[i], s.session.id))
    && ToolTransactionsValid(s.history, changes)
    && ConfigTransactionValid(s.config, changes)
  }

  predicate Closable(s: Snapshot) {
    && (s.running || !HasUnfinishedJournal(s.journal))
    && ClaimsValid(s.queue, s.running, s.activeRun)
  }

  /** The Snapshot a commit of these changes publishes, revision included. */
  ghost predicate Commits(s: Snapshot, changes: seq<Change>, s': Snapshot) {
    && Admissible(s, changes)
    && ApplyAll(s, s.revision, changes).Ok?
    && var last := ApplyAll(s, s.revision, changes).value;
    Closable(last) && s' == last.(revision := last.revision + 1)
  }

  /** applyChanges: the checks, the loop over the changes, and the closing checks. */
  method ApplyChanges(snapshot: Snapshot, changes: seq<Change>) returns (r: Result<Snapshot>)
    ensures r.Ok? <==> exists s' :: Commits(snapshot, changes, s')
    ensures r.Ok? ==> Commits(snapshot, changes, r.value.(revision := r.value.revision + 1))
  {
    for i := 0 to |changes|
      invariant forall k :: 0 <= k < i ==> ChangeValid(changes[k], snapshot.session.id)
    {
      if !ChangeValid(changes[i], snapshot.session.id) { return Err(InvalidInput); }
    }
    for i := 0 to |changes|
      invariant forall k :: 0 <= k < i ==> ToolTransactionOk(snapshot.history, changes, changes[k]).Ok?
    {
      var checked := ToolTransactionOk(snapshot.history, changes, changes[i]);
      if checked.Err? { return Err(checked.code); }
    }
    if !ConfigTransactionValid(snapshot.config, changes) { return Err(InvalidInput); }
    var working := snapshot;
    for i := 0 to |changes|
      invariant ApplyAll(snapshot, snapshot.revision, changes) == ApplyAll(working, snapshot.revision, changes[i..])
    {
      var next := ApplyChange(working, snapshot.revision, changes[i]);
      assert changes[i..][1..] == changes[i + 1..];
      if next.Err? { return Err(next.code); }
      working := next.value;
    }
    if !working.running && HasUnfinishedJournal(working.journal) { return Err(JournalInvariant); }
    if !ClaimsValid(working.queue, working.running, working.activeRun) { return Err(QueueItemClaimed); }
    assert Commits(snapshot, changes, working.(revision := working.revision + 1));
    return Ok(working);
  }

  /** Applying one list and then another is applying their concatenation. */
  lemma {:induction false} ApplyConcat(s: Snapshot, expected: Revision, a: seq<Change>, b: seq<Change>)
    ensures ApplyAll(s, expected, a + b) ==
            match ApplyAll(s, expected, a) case Err(e) => Err(e) case Ok(mid) => ApplyAll(mid, expected, b)
    decreases |a|
  {
    if a == [] {
      assert a + b == b;
    } else {
      assert (a + b)[1..] == a[1..] + b;
      var next := ApplyChange(s, expected, a[0]);
      if next.Ok? {
        ApplyConcat(next.value, expected, a[1..], b);
      }
    }
  }
}
