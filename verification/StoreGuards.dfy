/** Exactly which facts the Store admits: its guards search History, and here each is decided by the maps of the
    checker and by the active Run alone (session/memory_store.go appendRunFact, appendModelAttemptFact,
    appendBudgetExceededFact, appendRunLimitExceededFact, appendContextContribution; session/history.go
    appendHistoryFact), and what a commit has to pair (validateToolTransactions, validateModelConfigTransaction). */
module StoreGuards {
  import opened SessionTypes
  import opened HistoryChecker
  import opened Transactions
  import opened SearchAgreement
  import opened AggregateInvariant
  import opened ProtocolHistory

  // ---------------------------------------------------------------- which facts are admitted

  /** What the Store asks of a fact beyond what the checker asks. */
  predicate StoreAsks(s: Snapshot, p: Payload) {
    match p
    case RunPayload(f) => IsActive(s, f.run) && (f.kind != RunStarted && f.kind != RunCompleted ==> f.termination.Some?)
    case AttemptPayload(a) => a.kind == AttemptStarted ==> IsActive(s, a.run)
    case BudgetPayload(b) => IsActive(s, b.run)
    case ContributionPayload(c) => IsActive(s, c.run)
    case _ => true
  }

  /** In a good aggregate a fact is admitted if and only if it is valid, the checker accepts it next, and it belongs
      to the active Run where it has to. Limit facts are the exception; see LimitExact. */
  lemma {:induction false} AdmittedExact(s: Snapshot, expected: Revision, c: Change)
    requires Core(s) && Appended(c).Some? && !c.AppendRunLimitExceeded?
    ensures var p := Appended(c).value;
            ApplyChange(s, expected, c).Ok? <==>
            p.Valid(s.session.id) && Accepts(ScanOf(s.history), p) && StoreAsks(s, p)
  {
    match c {
      case AppendMessage(m) => MessageSearch(s.session.id, s.history, m.id);
      case AppendToolCall(t) => CallAdmitted(s, t);
      case AppendToolResult(x) => ResultAdmitted(s, x);
      case AppendRunFact(f) => RunSearch(s.history, f.run);
      case AppendModelAttempt(a) => AttemptAdmitted(s, a);
      case AppendContextContribution(x) => ContributionSearch(s.history, x);
      case AppendRunBudgetExceeded(b) => BudgetAdmitted(s, b);
      case AppendSessionEvent(_, _) =>
    }
    hide FindRun;
    hide FindMessage;
    hide HasContribution;
    hide AppendAttempt;
    hide AppendBudget;
    hide AppendCall;
    hide AppendResult;
    hide ScanOf;
  }

  lemma {:induction false} CallAdmitted(s: Snapshot, t: ToolCall)
    requires HistoryOk(s)
    ensures AppendCall(s, t).Ok? <==>
            CallPayload(t).Valid(s.session.id) && Accepts(ScanOf(s.history), CallPayload(t))
  {
    MessageSearch(s.session.id, s.history, t.message);
    CallSearch(s.session.id, s.history, t.id);
    hide ScanOf;
    hide FindMessage;
    hide FindCall;
  }

  lemma {:induction false} ResultAdmitted(s: Snapshot, x: ToolResult)
    requires HistoryOk(s)
    ensures AppendResult(s, x).Ok? <==>
            ResultPayload(x).Valid(s.session.id) && Accepts(ScanOf(s.history), ResultPayload(x))
  {
    CallSearch(s.session.id, s.history, x.call);
    ResultSearch(s.session.id, s.history, x.call);
    hide ScanOf;
    hide FindResult;
    hide FindCall;
  }

  lemma {:induction false} AttemptAdmitted(s: Snapshot, a: Attempt)
    requires Core(s)
    ensures AppendAttempt(s, a).Ok? <==>
            && AttemptPayload(a).Valid(s.session.id) && Accepts(ScanOf(s.history), AttemptPayload(a))
            && (a.kind == AttemptStarted ==> IsActive(s, a.run))
  {
    AttemptSearch(s.history, a.id);
    RunSearch(s.history, a.run);
    TerminalsStarted(s.session.id, s.history);
    hide ScanOf;
    hide FindRun;
    hide FindAttempt;
  }

  lemma {:induction false} BudgetAdmitted(s: Snapshot, b: Budget)
    requires Core(s)
    ensures AppendBudget(s, b).Ok? <==>
            && BudgetPayload(b).Valid(s.session.id) && Accepts(ScanOf(s.history), BudgetPayload(b))
                 && IsActive(s, b.run)
  {
    StopSearch(s.history, b.run);
    CountSearch(s.history, b.run);
    hide ScanOf;
    hide Stopped;
    hide Spent;
  }

  /** The rejected operation was admitted before, in the limited Run itself. */
  predicate TriggerKnown(s: Scan, l: Limit) {
    || (l.triggerAttempt in s.attempts.starts && s.attempts.starts[l.triggerAttempt].run == l.run)
    || (l.triggerCall in s.talk.calls && s.talk.calls[l.triggerCall].run == l.run)
  }

  predicate IsTrigger(p: Payload, l: Limit) {
    match p
    case AttemptPayload(a) => a.run == l.run && a.kind == AttemptStarted && a.id == l.triggerAttempt
    case CallPayload(c) => c.run == l.run && c.id == l.triggerCall
    case _ => false
  }

  lemma {:induction false} TriggerSearch(sid: SessionID, h: seq<HistoryFact>, l: Limit)
    requires Accepted(sid, h)
    ensures TriggerAdmitted(h, l) <==> TriggerKnown(ScanOf(h), l)
  {
    if h != [] {
      TriggerSearch(sid, h[..|h| - 1], l);
      TriggerSnoc(h, l);
      hide TriggerAdmitted;
    }
  }

  lemma {:induction false} TriggerSnoc(h: seq<HistoryFact>, l: Limit)
    requires h != []
    ensures TriggerAdmitted(h, l) <==> TriggerAdmitted(h[..|h| - 1], l) || IsTrigger(h[|h| - 1].payload, l)
  {
    var front := h[..|h| - 1];
    assert forall i :: 0 <= i < |front| ==> h[i] == front[i];
    assert forall i :: 0 <= i < |h| && IsTrigger(h[i].payload, l) ==> TriggerAdmitted(h, l);
    assert forall i :: 0 <= i < |front| && IsTrigger(front[i].payload, l) ==> IsTrigger(h[i].payload, l);
  }

  /** A limit fact is admitted if and only if it is the first stop of the active Run, tells its durable count, and
      names an operation this Run has not admitted. */
  lemma {:induction false} LimitExact(s: Snapshot, l: Limit)
    requires Core(s)
    ensures AppendLimit(s, l).Ok? <==>
            && l.Valid() && IsActive(s, l.run)
            && l.run !in ScanOf(s.history).stops.budgets && l.run !in ScanOf(s.history).stops.limits
            && LimitUsed(ScanOf(s.history), l) == l.used && !TriggerKnown(ScanOf(s.history), l)
  {
    StopSearch(s.history, l.run);
    CountSearch(s.history, l.run);
    TriggerSearch(s.session.id, s.history, l);
    hide ScanOf;
    hide Stopped;
    hide CountCalls;
    hide CountAttempts;
    hide TriggerAdmitted;
    hide TriggerKnown;
  }

  // ---------------------------------------------------------------- what is written

  /** The Run and Step a fact belongs to; a result belongs where its call does. */
  function Belongs(t: Talk, p: Payload): (r: (RunID, StepID)) {
    match p
    case MessagePayload(m) => (m.run, m.step)
    case CallPayload(c) => (c.run, c.step)
    case ResultPayload(x) => if x.call in t.calls then (t.calls[x.call].run, t.calls[x.call].step) else (0, 0)
    case RunPayload(f) => (f.run, 0)
    case AttemptPayload(a) => (a.run, a.step)
    case ContributionPayload(c) => (c.run, c.step)
    case BudgetPayload(b) => (b.run, 0)
    case LimitPayload(l) => (l.run, l.step)
    case ConfigPayload(_, _) => (0, 0)
  }

  /** An admitted fact is the next of its Session, in its Run and Step, and copies nothing. */
  lemma {:induction false} FactWritten(s: Snapshot, expected: Revision, c: Change, s': Snapshot)
    requires HistoryOk(s) && Appended(c).Some? && ApplyChange(s, expected, c) == Ok(s')
    ensures |s'.history| == |s.history| + 1 && s'.history[..|s.history|] == s.history
    ensures var f := s'.history[|s.history|];
            && f.payload == Appended(c).value && f.origin == NoFact && f.session == s.session.id
            && f.sequence == |s.history| + 1 && f.id == FactOf(s.session.id, |s.history| + 1)
            && (f.run, f.step) == Belongs(ScanOf(s.history).talk, f.payload)
  {
    hide *;
    AppendIsEnvelope(s, expected, c, s');
    BelongsTo(s, Appended(c).value);
  }

  lemma {:induction false} BelongsTo(s: Snapshot, p: Payload)
    requires HistoryOk(s)
    ensures var f := Envelope(s.history, s.session.id, NoFact, p);
            && f.payload == p && f.origin == NoFact && f.session == s.session.id
            && f.sequence == |s.history| + 1 && f.id == FactOf(s.session.id, |s.history| + 1)
            && (f.run, f.step) == Belongs(ScanOf(s.history).talk, p)
  {
    if p.ResultPayload? {
      CallSearch(s.session.id, s.history, p.result.call);
    }
    hide ScanOf;
    hide FindCall;
  }

  lemma {:induction false} AppendIsEnvelope(s: Snapshot, expected: Revision, c: Change, s': Snapshot)
    requires Appended(c).Some? && ApplyChange(s, expected, c) == Ok(s')
    ensures s'.history == s.history + [Envelope(s.history, s.session.id, NoFact, Appended(c).value)]
  {
    hide FindMessage;
    hide FindCall;
    hide FindResult;
    hide FindRun;
    hide FindAttempt;
    hide FactContainment;
  }

  // ---------------------------------------------------------------- what a commit has to pair

  predicate CallAt(changes: seq<Change>, i: int, id: ToolCallID) {
    0 <= i < |changes| && changes[i].AppendToolCall? && changes[i].call.id == id
  }

  predicate ResultAt(changes: seq<Change>, i: int, id: ToolCallID) {
    0 <= i < |changes| && changes[i].AppendToolResult? && changes[i].result.call == id
  }

  predicate EntryAt(changes: seq<Change>, i: int, id: ToolCallID) {
    0 <= i < |changes| && changes[i].UpdateRunJournal? && changes[i].entry.call.id == id
  }

  /** A commit speaks of each call, result and entry once. */
  ghost predicate SpokenOnce(changes: seq<Change>) {
    && (forall i, j, id :: CallAt(changes, i, id) && CallAt(changes, j, id) ==> i == j)
    && (forall i, j, id :: ResultAt(changes, i, id) && ResultAt(changes, j, id) ==> i == j)
    && (forall i, j, id :: EntryAt(changes, i, id) && EntryAt(changes, j, id) ==> i == j)
  }

  /** What goes with one change of such a commit. */
  ghost predicate HasCompanion(h: seq<HistoryFact>, changes: seq<Change>, c: Change) {
    match c
    case AppendMessage(m) =>
      m.parts != [] || exists j :: 0 <= j < |changes| && changes[j].AppendToolCall? && changes[j].call.message == m.id
    case AppendToolCall(t) =>
      exists j :: EntryAt(changes, j, t.id) && changes[j].entry.call == t && Unfinished(changes[j].entry.status)
    case AppendToolResult(x) =>
      exists j :: EntryAt(changes, j, x.call) && changes[j].entry.result == Some(x)
        && !Unfinished(changes[j].entry.status)
    case UpdateRunJournal(e) =>
      (match e.status
       case JournalPrepared => exists j :: CallAt(changes, j, e.call.id) && changes[j].call == e.call
       case JournalPending => forall j :: CallAt(changes, j, e.call.id) ==> changes[j].call == e.call
       case _ =>
         && FindCall(h, e.call.id) == Some(e.call)
         && exists j :: ResultAt(changes, j, e.call.id) && e.result == Some(changes[j].result))
    case _ => true
  }

  lemma {:induction false} LastCallIs(changes: seq<Change>, id: ToolCallID)
    ensures LastAppendedCall(changes, id).None? <==> forall i :: !CallAt(changes, i, id)
    ensures LastAppendedCall(changes, id).Some? ==>
              exists i :: CallAt(changes, i, id) && changes[i].call == LastAppendedCall(changes, id).value
  {
    if changes != [] {
      var front, n := changes[..|changes| - 1], |changes| - 1;
      LastCallIs(front, id);
      assert forall i :: CallAt(front, i, id) ==> CallAt(changes, i, id) && changes[i] == front[i];
      assert forall i :: CallAt(changes, i, id) ==> i == n || CallAt(front, i, id);
      assert CallAt(changes, n, id) <==> changes[n].AppendToolCall? && changes[n].call.id == id;
    }
  }

  lemma {:induction false} LastResultIs(changes: seq<Change>, id: ToolCallID)
    ensures LastAppendedResult(changes, id).None? <==> forall i :: !ResultAt(changes, i, id)
    ensures LastAppendedResult(changes, id).Some? ==>
              exists i :: ResultAt(changes, i, id) && changes[i].result == LastAppendedResult(changes, id).value
  {
    if changes != [] {
      var front, n := changes[..|changes| - 1], |changes| - 1;
      LastResultIs(front, id);
      assert forall i :: ResultAt(front, i, id) ==> ResultAt(changes, i, id) && changes[i] == front[i];
      assert forall i :: ResultAt(changes, i, id) ==> i == n || ResultAt(front, i, id);
      assert ResultAt(changes, n, id) <==> changes[n].AppendToolResult? && changes[n].result.call == id;
    }
  }

  lemma {:induction false} LastEntryIs(changes: seq<Change>, id: ToolCallID, wanted: JournalStatus -> bool)
    ensures LastUpdate(changes, id, wanted).None? <==>
            forall i :: EntryAt(changes, i, id) ==> !wanted(changes[i].entry.status)
    ensures LastUpdate(changes, id, wanted).Some? ==>
              exists i :: EntryAt(changes, i, id) && wanted(changes[i].entry.status)
                && changes[i].entry == LastUpdate(changes, id, wanted).value
  {
    if changes != [] {
      var front, n := changes[..|changes| - 1], |changes| - 1;
      LastEntryIs(front, id, wanted);
      assert forall i :: EntryAt(front, i, id) ==> EntryAt(changes, i, id) && changes[i] == front[i];
      assert forall i :: EntryAt(changes, i, id) ==> i == n || EntryAt(front, i, id);
      assert EntryAt(changes, n, id) <==> changes[n].UpdateRunJournal? && changes[n].entry.call.id == id;
    }
  }

  lemma {:induction false} CompanionExact(h: seq<HistoryFact>, changes: seq<Change>, k: nat)
    requires SpokenOnce(changes) && k < |changes|
    ensures ToolTransactionOk(h, changes, changes[k]).Ok? <==> HasCompanion(h, changes, changes[k])
  {
    match changes[k] {
      case AppendToolCall(t) =>
        LastEntryIs(changes, t.id, s => s == JournalPrepared);
        LastEntryIs(changes, t.id, s => s == JournalPending);
      case AppendToolResult(x) => LastEntryIs(changes, x.call, s => !Unfinished(s));
      case UpdateRunJournal(e) =>
        LastCallIs(changes, e.call.id);
        LastResultIs(changes, e.call.id);
      case _ =>
    }
    hide LastUpdate;
    hide LastAppendedCall;
    hide LastAppendedResult;
    hide FindCall;
  }

  /** The tool part of a commit is admitted if and only if every call comes with its unfinished entry, every result
      with the ended entry that holds it, every prepared entry with its call, and every ended one with the result it
      holds. */
  lemma {:induction false} PairingExact(h: seq<HistoryFact>, changes: seq<Change>)
    requires SpokenOnce(changes)
    ensures ToolTransactionsValid(h, changes) <==>
            forall k :: 0 <= k < |changes| ==> HasCompanion(h, changes, changes[k])
  {
    hide ToolTransactionOk;
    hide HasCompanion;
    forall k: nat | k < |changes|
      ensures ToolTransactionOk(h, changes, changes[k]).Ok? <==> HasCompanion(h, changes, changes[k])
    {
      CompanionExact(h, changes, k);
    }
  }

  /** A commit selects at most one configuration, and then with the one event that tells of it. */
  lemma {:induction false} SelectionPairingExact(current: Config, changes: seq<Change>)
    ensures ConfigTransactionValid(current, changes) <==>
            || (forall k :: 0 <= k < |changes| ==> !changes[k].SetModelConfig? && !changes[k].AppendSessionEvent?)
            || exists i, j :: Selects(current, changes, i, j)
  {
    var selections := set i | 0 <= i < |changes| && changes[i].SetModelConfig?;
    var events := set i | 0 <= i < |changes| && changes[i].AppendSessionEvent?;
    if ConfigTransactionValid(current, changes) {
      if selections == {} {
        assert events == {};
        forall k | 0 <= k < |changes| ensures !changes[k].SetModelConfig? && !changes[k].AppendSessionEvent? {
          assert k !in selections && k !in events;
        }
      } else {
        var i :| i in selections;
        var j :| j in events;
        OnlyOne(selections, i);
        OnlyOne(events, j);
        forall k | 0 <= k < |changes|
          ensures (changes[k].SetModelConfig? ==> k == i) && (changes[k].AppendSessionEvent? ==> k == j)
        {
          assert changes[k].SetModelConfig? ==> k in selections;
          assert changes[k].AppendSessionEvent? ==> k in events;
        }
        assert Selects(current, changes, i, j);
      }
    }
    forall i, j | Selects(current, changes, i, j) ensures ConfigTransactionValid(current, changes) {
      SelectsIsValid(current, changes, i, j);
    }
    if forall k :: 0 <= k < |changes| ==> !changes[k].SetModelConfig? && !changes[k].AppendSessionEvent? {
      NoneIsValid(current, changes);
    }
  }

  lemma {:induction false} SelectsIsValid(current: Config, changes: seq<Change>, i: int, j: int)
    requires Selects(current, changes, i, j)
    ensures ConfigTransactionValid(current, changes)
  {
    assert (set k | 0 <= k < |changes| && changes[k].SetModelConfig?) == {i};
    assert (set k | 0 <= k < |changes| && changes[k].AppendSessionEvent?) == {j};
  }

  lemma {:induction false} NoneIsValid(current: Config, changes: seq<Change>)
    requires forall k :: 0 <= k < |changes| ==> !changes[k].SetModelConfig? && !changes[k].AppendSessionEvent?
    ensures ConfigTransactionValid(current, changes)
  {
    assert (set k | 0 <= k < |changes| && changes[k].SetModelConfig?) == {};
    assert (set k | 0 <= k < |changes| && changes[k].AppendSessionEvent?) == {};
  }

  lemma {:induction false} OnlyOne(s: set<int>, x: int)
    requires x in s && |s| == 1
    ensures s == {x}
  {
    var rest := s - {x};
    assert |rest| == 0;
    assert s == rest + {x};
  }

  /** The only selection at `i`, and its only event at `j`. */
  ghost predicate Selects(current: Config, changes: seq<Change>, i: int, j: int) {
    && 0 <= i < |changes| && changes[i].SetModelConfig? && 0 <= j < |changes| && changes[j].AppendSessionEvent?
    && changes[j].previous == current && changes[j].current == changes[i].config
    && forall k :: 0 <= k < |changes| ==>
         (changes[k].SetModelConfig? ==> k == i) && (changes[k].AppendSessionEvent? ==> k == j)
  }
}
