/** The whole-aggregate History checker (session/memory_store.go, validateHistoryConsistency).

    The checker is one pass that fills maps. Its state after a prefix is a Scan; a History is
    accepted when every fact is accepted by the Scan of the facts before it. Appending a fact
    therefore keeps acceptance exactly when the current Scan accepts it, which is what lets the
    Store's own incremental guards be compared with the checker. */
module HistoryChecker {
  import opened SessionTypes

  datatype Talk = Talk(
    messages: map<MessageID, Message>, calls: map<ToolCallID, ToolCall>, results: map<ToolCallID, ToolResult>)
  datatype Runs = Runs(starts: map<RunID, RunFact>, terminals: set<RunID>)
  datatype Attempts = Attempts(starts: map<AttemptID, Attempt>, terminals: set<AttemptID>)
  datatype Stops = Stops(budgets: set<RunID>, limits: set<RunID>)
  datatype Counts = Counts(usage: map<RunID, int>, attempts: map<RunID, int>, calls: map<RunID, int>)

  /** The maps of the checker, grouped by what they are about. */
  datatype Scan = Scan(
    talk: Talk, runs: Runs, attempts: Attempts, stops: Stops, counts: Counts,
    contributions: set<(RunID, StepID, SourceKey)>)

  const EmptyScan := Scan(Talk(map[], map[], map[]), Runs(map[], {}), Attempts(map[], {}), Stops({}, {}),
                          Counts(map[], map[], map[]), {})

  function At(m: map<RunID, int>, run: RunID): (r: int) {
    if run in m then m[run] else 0
  }

  /** The Run has started and has not ended. */
  predicate Live(s: Scan, run: RunID) {
    run in s.runs.starts && run !in s.runs.terminals
  }

  function ContributionKey(c: Contribution): (r: (RunID, StepID, SourceKey)) {
    (c.run, c.step, c.source)
  }

  function LimitUsed(s: Scan, l: Limit): (r: int) {
    if l.kind.LimitToolCalls? then At(s.counts.calls, l.run) else At(s.counts.attempts, l.run)
  }

  /** What the checker demands of the next fact. */
  predicate Accepts(s: Scan, p: Payload) {
    match p
    case MessagePayload(m) => m.id !in s.talk.messages
    case CallPayload(c) =>
      && c.id !in s.talk.calls && c.message in s.talk.messages
      && var parent := s.talk.messages[c.message];
      parent.role == RoleAssistant && parent.run == c.run && parent.step == c.step
    case ResultPayload(r) => r.call in s.talk.calls && r.call !in s.talk.results
    case RunPayload(f) =>
      if f.kind == RunStarted then f.run !in s.runs.starts
      else
        && Live(s, f.run)
        && s.runs.starts[f.run].configRevision == f.configRevision && s.runs.starts[f.run].config == f.config
    case AttemptPayload(a) =>
      if a.kind == AttemptStarted then
        && a.id !in s.attempts.starts && a.id !in s.attempts.terminals && Live(s, a.run)
        && s.runs.starts[a.run].config.provider == a.provider && s.runs.starts[a.run].config.model == a.model
      else
        a.id in s.attempts.starts && a.id !in s.attempts.terminals && s.attempts.starts[a.id].SameIdentity(a)
    case ConfigPayload(_, _) => true
    case ContributionPayload(c) => Live(s, c.run) && ContributionKey(c) !in s.contributions
    case BudgetPayload(b) =>
      Live(s, b.run) && b.run !in s.stops.budgets && b.run !in s.stops.limits && At(s.counts.usage, b.run) == b.used
    case LimitPayload(l) =>
      && Live(s, l.run) && l.run !in s.stops.budgets && l.run !in s.stops.limits
      && l.triggerAttempt !in s.attempts.starts && l.triggerCall !in s.talk.calls && LimitUsed(s, l) == l.used
  }

  function TalkAfter(t: Talk, p: Payload): (t': Talk) {
    match p
    case MessagePayload(m) => t.(messages := t.messages[m.id := m])
    case CallPayload(c) => t.(calls := t.calls[c.id := c])
    case ResultPayload(r) => t.(results := t.results[r.call := r])
    case _ => t
  }

  function RunsAfter(r: Runs, p: Payload): (r': Runs) {
    if !p.RunPayload? then r
    else if p.run.kind == RunStarted then r.(starts := r.starts[p.run.run := p.run])
    else r.(terminals := r.terminals + {p.run.run})
  }

  function AttemptsAfter(a: Attempts, p: Payload): (a': Attempts) {
    if !p.AttemptPayload? then a
    else if p.attempt.kind == AttemptStarted then a.(starts := a.starts[p.attempt.id := p.attempt])
    else a.(terminals := a.terminals + {p.attempt.id})
  }

  function StopsAfter(s: Stops, p: Payload): (s': Stops) {
    match p
    case BudgetPayload(b) => s.(budgets := s.budgets + {b.run})
    case LimitPayload(l) => s.(limits := s.limits + {l.run})
    case _ => s
  }

  function CountsAfter(c: Counts, p: Payload): (c': Counts) {
    match p
    case CallPayload(t) => c.(calls := c.calls[t.run := At(c.calls, t.run) + 1])
    case AttemptPayload(a) =>
      if a.kind == AttemptStarted then c.(attempts := c.attempts[a.run := At(c.attempts, a.run) + 1])
      else c.(usage := c.usage[a.run := At(c.usage, a.run) + a.tokens])
    case _ => c
  }

  /** The maps after one more fact. */
  function Absorb(s: Scan, p: Payload): (s': Scan) {
    Scan(TalkAfter(s.talk, p), RunsAfter(s.runs, p), AttemptsAfter(s.attempts, p), StopsAfter(s.stops, p),
         CountsAfter(s.counts, p),
         if p.ContributionPayload? then s.contributions + {ContributionKey(p.contribution)} else s.contributions)
  }

  function ScanOf(h: seq<HistoryFact>): (r: Scan) {
    if h == [] then EmptyScan else Absorb(ScanOf(h[..|h| - 1]), h[|h| - 1].payload)
  }

  predicate Accepted(sid: SessionID, h: seq<HistoryFact>) {
    h == [] ||
    (var p := h[|h| - 1].payload;
     p.Valid(sid) && Accepted(sid, h[..|h| - 1]) && Accepts(ScanOf(h[..|h| - 1]), p))
  }

  predicate EntryAccepted(t: Talk, e: JournalEntry) {
    && e.call.id in t.calls
    && if Unfinished(e.status) then e.call.id !in t.results
       else e.call.id in t.results && e.result == Some(t.results[e.call.id])
  }

  ghost predicate UniqueCalls(journal: seq<JournalEntry>) {
    forall i, j :: 0 <= i < j < |journal| ==> journal[i].call.id != journal[j].call.id
  }

  ghost predicate HasUnfinished(journal: seq<JournalEntry>, id: ToolCallID) {
    exists i :: 0 <= i < |journal| && journal[i].call.id == id && Unfinished(journal[i].status)
  }

  ghost predicate JournalAccepted(t: Talk, journal: seq<JournalEntry>) {
    && UniqueCalls(journal)
    && (forall i :: 0 <= i < |journal| ==> EntryAccepted(t, journal[i]))
    && (forall id :: id in t.calls && id !in t.results ==> HasUnfinished(journal, id))
  }

  /** What validateHistoryConsistency accepts. */
  ghost predicate Consistent(sid: SessionID, h: seq<HistoryFact>, journal: seq<JournalEntry>) {
    Accepted(sid, h) && JournalAccepted(ScanOf(h).talk, journal)
  }

  // ---------------------------------------------------------------- prefixes and appends

  lemma {:induction false} ScanSnoc(sid: SessionID, h: seq<HistoryFact>, f: HistoryFact)
    ensures ScanOf(h + [f]) == Absorb(ScanOf(h), f.payload)
    ensures Accepted(sid, h + [f]) <==> f.payload.Valid(sid) && Accepted(sid, h) && Accepts(ScanOf(h), f.payload)
  {
    assert (h + [f])[..|h|] == h;
  }

  /** Any prefix of an accepted History is accepted. */
  lemma {:induction false} AcceptedPrefix(sid: SessionID, h: seq<HistoryFact>, k: nat)
    requires k <= |h| && Accepted(sid, h)
    ensures Accepted(sid, h[..k])
    decreases |h|
  {
    if k == |h| {
      assert h[..k] == h;
    } else {
      assert h[..|h| - 1][..k] == h[..k];
      AcceptedPrefix(sid, h[..|h| - 1], k);
    }
  }

  // ---------------------------------------------------------------- the loop of the source

  method CheckJournal(t: Talk, journal: seq<JournalEntry>) returns (ok: bool)
    ensures ok == JournalAccepted(t, journal)
  {
    var entries: set<ToolCallID> := {};
    var pending: set<ToolCallID> := {};
    for i := 0 to |journal|
      invariant entries == set k | 0 <= k < i :: journal[k].call.id
      invariant pending == set k | 0 <= k < i && Unfinished(journal[k].status) :: journal[k].call.id
      invariant UniqueCalls(journal[..i])
      invariant forall k :: 0 <= k < i ==> EntryAccepted(t, journal[k])
    {
      var e := journal[i];
      if e.call.id in entries {
        var k :| 0 <= k < i && journal[k].call.id == e.call.id;
        return false;
      }
      entries := entries + {e.call.id};
      if e.call.id !in t.calls { return false; }
      if Unfinished(e.status) {
        if e.call.id in t.results { return false; }
        pending := pending + {e.call.id};
      } else {
        if e.call.id !in t.results { return false; }
        if e.result != Some(t.results[e.call.id]) { return false; }
      }
    }
    assert journal[..|journal|] == journal;
    assert forall id :: id in pending <==> HasUnfinished(journal, id);
    return forall id :: id in t.calls ==> id in t.results || id in pending;
  }

  /** The body of the checking loop: the early exits of the source, then the map updates. */
  method CheckFact(s: Scan, p: Payload) returns (ok: bool, s': Scan)
    requires p.AttemptPayload? ==> p.attempt.tokens >= 0
    ensures ok == Accepts(s, p)
    ensures ok ==> s' == Absorb(s, p)
  {
    s' := s;
    ok := false;
    match p {
      case MessagePayload(m) =>
        if m.id in s.talk.messages { return; }
        s' := s.(talk := s.talk.(messages := s.talk.messages[m.id := m]));
      case CallPayload(c) =>
        if c.id in s.talk.calls || c.message !in s.talk.messages { return; }
        var parent := s.talk.messages[c.message];
        if parent.role != RoleAssistant || parent.run != c.run || parent.step != c.step { return; }
        s' := s.(talk := s.talk.(calls := s.talk.calls[c.id := c]));
        s' := s'.(counts := s.counts.(calls := s.counts.calls[c.run := At(s.counts.calls, c.run) + 1]));
      case ResultPayload(r) =>
        if r.call !in s.talk.calls || r.call in s.talk.results { return; }
        s' := s.(talk := s.talk.(results := s.talk.results[r.call := r]));
      case RunPayload(f) =>
        if f.kind == RunStarted {
          if f.run in s.runs.starts { return; }
          s' := s.(runs := s.runs.(starts := s.runs.starts[f.run := f]));
        } else {
          if f.run !in s.runs.starts || f.run in s.runs.terminals { return; }
          var started := s.runs.starts[f.run];
          if started.configRevision != f.configRevision || started.config != f.config { return; }
          s' := s.(runs := s.runs.(terminals := s.runs.terminals + {f.run}));
        }
      case AttemptPayload(a) =>
        if a.kind == AttemptStarted {
          if a.id in s.attempts.starts || a.id in s.attempts.terminals { return; }
          if a.run !in s.runs.starts || a.run in s.runs.terminals { return; }
          var run := s.runs.starts[a.run];
          if run.config.provider != a.provider || run.config.model != a.model { return; }
          s' := s.(attempts := s.attempts.(starts := s.attempts.starts[a.id := a]));
          s' := s'.(counts := s.counts.(attempts := s.counts.attempts[a.run := At(s.counts.attempts, a.run) + 1]));
        } else {
          if a.id !in s.attempts.starts || a.id in s.attempts.terminals { return; }
          if !s.attempts.starts[a.id].SameIdentity(a) { return; }
          s' := s.(attempts := s.attempts.(terminals := s.attempts.terminals + {a.id}));
          var next := At(s.counts.usage, a.run) + a.tokens;
          if next < At(s.counts.usage, a.run) { return; }
          s' := s'.(counts := s.counts.(usage := s.counts.usage[a.run := next]));
        }
      case ConfigPayload(_, _) =>
      case ContributionPayload(c) =>
        if c.run !in s.runs.starts || c.run in s.runs.terminals { return; }
        if ContributionKey(c) in s.contributions { return; }
        s' := s.(contributions := s.contributions + {ContributionKey(c)});
      case BudgetPayload(b) =>
        if b.run !in s.runs.starts || b.run in s.runs.terminals { return; }
        if b.run in s.stops.budgets || b.run in s.stops.limits { return; }
        if At(s.counts.usage, b.run) != b.used { return; }
        s' := s.(stops := s.stops.(budgets := s.stops.budgets + {b.run}));
      case LimitPayload(l) =>
        var used := At(s.counts.attempts, l.run);
        if l.kind.LimitToolCalls? {
          used := At(s.counts.calls, l.run);
        }
        var triggerExists := l.triggerAttempt in s.attempts.starts || l.triggerCall in s.talk.calls;
        if l.run !in s.runs.starts || l.run in s.runs.terminals { return; }
        if l.run in s.stops.budgets || l.run in s.stops.limits { return; }
        if triggerExists || used != l.used { return; }
        s' := s.(stops := s.stops.(limits := s.stops.limits + {l.run}));
    }
    ok := true;
  }

  /** validateHistoryConsistency: one pass over History, then one over the journal. */
  method ValidateHistoryConsistency(sid: SessionID, history: seq<HistoryFact>,
                                    journal: seq<JournalEntry>) returns (ok: bool)
    ensures ok == Consistent(sid, history, journal)
  {
    var scan := EmptyScan;
    for i := 0 to |history|
      invariant Accepted(sid, history[..i]) && scan == ScanOf(history[..i])
    {
      var fact := history[i];
      assert history[..i + 1] == history[..i] + [fact];
      ScanSnoc(sid, history[..i], fact);
      var accepted := fact.payload.Valid(sid);
      if accepted {
        accepted, scan := CheckFact(scan, fact.payload);
      }
      if !accepted {
        if Accepted(sid, history) {
          AcceptedPrefix(sid, history, i + 1);
        }
        return false;
      }
    }
    assert history[..|history|] == history;
    ok := CheckJournal(scan.talk, journal);
  }
}
