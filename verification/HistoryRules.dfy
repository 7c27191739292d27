/** The rules of a Session's History without the checker's maps: what each fact demands of the facts before it, and
    what the tool journal has to hold (session/memory_store.go validateHistoryConsistency). The checker decides
    exactly these. */
module HistoryRules {
  import opened SessionTypes
  import opened HistoryChecker
  import opened SearchAgreement
  import opened Transactions

  // ---------------------------------------------------------------- the rules

  /** The payload stands somewhere in History. */
  ghost predicate Has(h: seq<HistoryFact>, p: Payload) {
    exists i :: 0 <= i < |h| && h[i].payload == p
  }

  /** A fact that rules out the new one, because it has its identity already or has stopped its Run. */
  predicate RulesOut(past: Payload, p: Payload) {
    match p
    case MessagePayload(m) => past.MessagePayload? && past.message.id == m.id
    case CallPayload(c) => past.CallPayload? && past.call.id == c.id
    case ResultPayload(r) => past.ResultPayload? && past.result.call == r.call
    case RunPayload(f) => if f.kind == RunStarted then StartsRun(past, f.run) else EndsRun(past, f.run)
    case AttemptPayload(a) =>
      || (past.AttemptPayload? && past.attempt.id == a.id
            && (a.kind == AttemptStarted || past.attempt.kind != AttemptStarted))
      || (a.kind == AttemptStarted && EndsRun(past, a.run))
    case ConfigPayload(_, _) => false
    case ContributionPayload(c) =>
      || EndsRun(past, c.run)
      || (past.ContributionPayload? && past.contribution.run == c.run && past.contribution.step == c.step
            && past.contribution.source == c.source)
    case BudgetPayload(b) => EndsRun(past, b.run) || StopsRun(past, b.run)
    case LimitPayload(l) =>
      || EndsRun(past, l.run) || StopsRun(past, l.run)
      || (past.AttemptPayload? && past.attempt.kind == AttemptStarted && past.attempt.id == l.triggerAttempt)
      || (past.CallPayload? && past.call.id == l.triggerCall)
  }

  predicate StartsRun(p: Payload, run: RunID) {
    p.RunPayload? && p.run.run == run && p.run.kind == RunStarted
  }

  predicate EndsRun(p: Payload, run: RunID) {
    p.RunPayload? && p.run.run == run && p.run.kind != RunStarted
  }

  predicate StopsRun(p: Payload, run: RunID) {
    (p.BudgetPayload? && p.budget.run == run) || (p.LimitPayload? && p.limit.run == run)
  }

  /** A fact of this sort has to stand before some facts. */
  predicate NeedsOne(p: Payload) {
    !(p.MessagePayload? || p.ConfigPayload? || (p.RunPayload? && p.run.kind == RunStarted))
  }

  /** The fact that lets the new one follow: the message of a call, the call of a result, the start of a Run or
      attempt. */
  predicate Supports(past: Payload, p: Payload) {
    match p
    case CallPayload(c) =>
      && past.MessagePayload? && past.message.id == c.message && past.message.role == RoleAssistant
      && past.message.run == c.run && past.message.step == c.step
    case ResultPayload(r) => past.CallPayload? && past.call.id == r.call
    case RunPayload(f) => StartsRun(past, f.run) && past.run.configRevision == f.configRevision
      && past.run.config == f.config
    case AttemptPayload(a) =>
      if a.kind == AttemptStarted then
        StartsRun(past, a.run) && past.run.config.provider == a.provider && past.run.config.model == a.model
      else
        && past.AttemptPayload? && past.attempt.id == a.id && past.attempt.kind == AttemptStarted
        && past.attempt.run == a.run && past.attempt.step == a.step
        && past.attempt.provider == a.provider && past.attempt.model == a.model
    case ContributionPayload(c) => StartsRun(past, c.run)
    case BudgetPayload(b) => StartsRun(past, b.run)
    case LimitPayload(l) => StartsRun(past, l.run)
    case _ => false
  }

  /** What a stop says was used. */
  predicate TellsCount(h: seq<HistoryFact>, p: Payload) {
    match p
    case BudgetPayload(b) => b.used == Spent(h, b.run)
    case LimitPayload(l) => l.used == if l.kind.LimitToolCalls? then CountCalls(h, l.run) else CountAttempts(h, l.run)
    case _ => true
  }

  /** The fact may stand behind this History. */
  ghost predicate MayFollow(h: seq<HistoryFact>, p: Payload) {
    && (forall i :: 0 <= i < |h| ==> !RulesOut(h[i].payload, p))
    && (NeedsOne(p) ==> exists i :: 0 <= i < |h| && Supports(h[i].payload, p))
    && TellsCount(h, p)
  }

  ghost predicate InOrder(sid: SessionID, h: seq<HistoryFact>) {
    forall k :: 0 <= k < |h| ==> h[k].payload.Valid(sid) && MayFollow(h[..k], h[k].payload)
  }

  /** The result of the call in History is this one. */
  ghost predicate HasResultOf(h: seq<HistoryFact>, id: ToolCallID) {
    exists i :: 0 <= i < |h| && h[i].payload.ResultPayload? && h[i].payload.result.call == id
  }

  ghost predicate HasCall(h: seq<HistoryFact>, id: ToolCallID) {
    exists i :: 0 <= i < |h| && h[i].payload.CallPayload? && h[i].payload.call.id == id
  }

  /** The journal speaks of each recorded call at most once: unfinished while it has no result, otherwise with the
      result History has; and every call without a result is spoken of. */
  ghost predicate JournalFits(h: seq<HistoryFact>, journal: seq<JournalEntry>) {
    && (forall i, j :: 0 <= i < j < |journal| ==> journal[i].call.id != journal[j].call.id)
    && (forall i :: 0 <= i < |journal| ==>
          && HasCall(h, journal[i].call.id)
          && if Unfinished(journal[i].status) then !HasResultOf(h, journal[i].call.id)
             else
               && journal[i].result.Some? && journal[i].result.value.call == journal[i].call.id
               && Has(h, ResultPayload(journal[i].result.value)))
    && (forall id :: HasCall(h, id) && !HasResultOf(h, id) ==>
          exists i :: 0 <= i < |journal| && journal[i].call.id == id && Unfinished(journal[i].status))
  }

  // ---------------------------------------------------------------- the maps hold History

  /** The maps have this fact at its key. */
  predicate Kept(s: Scan, p: Payload) {
    match p
    case MessagePayload(m) => m.id in s.talk.messages && s.talk.messages[m.id] == m
    case CallPayload(c) => c.id in s.talk.calls && s.talk.calls[c.id] == c
    case ResultPayload(r) => r.call in s.talk.results && s.talk.results[r.call] == r
    case RunPayload(f) =>
      if f.kind == RunStarted then f.run in s.runs.starts && s.runs.starts[f.run] == f else f.run in s.runs.terminals
    case AttemptPayload(a) =>
      if a.kind == AttemptStarted then a.id in s.attempts.starts && s.attempts.starts[a.id] == a
      else a.id in s.attempts.terminals
    case ConfigPayload(_, _) => true
    case ContributionPayload(c) => (c.run, c.step, c.source) in s.contributions
    case BudgetPayload(b) => b.run in s.stops.budgets
    case LimitPayload(l) => l.run in s.stops.limits
  }

  lemma {:induction false} StaysKept(s: Scan, p: Payload, next: Payload)
    requires Kept(s, p) && Accepts(s, next)
    ensures Kept(Absorb(s, next), p) && Kept(Absorb(s, next), next)
  {
  }

  lemma {:induction false} AllKept(sid: SessionID, h: seq<HistoryFact>, i: nat)
    requires Accepted(sid, h) && i < |h|
    ensures Kept(ScanOf(h), h[i].payload)
  {
    var front, last := h[..|h| - 1], h[|h| - 1].payload;
    if i < |front| {
      AllKept(sid, front, i);
      StaysKept(ScanOf(front), front[i].payload, last);
    }
  }

  /** The maps have nothing but facts of History. */
  ghost predicate FromHistory(h: seq<HistoryFact>, s: Scan) {
    FromTalk(h, s.talk) && FromStarts(h, s.runs, s.attempts) && FromEnds(h, s)
  }

  ghost predicate FromTalk(h: seq<HistoryFact>, t: Talk) {
    && (forall id :: id in t.messages ==> t.messages[id].id == id && Has(h, MessagePayload(t.messages[id])))
    && (forall id :: id in t.calls ==> t.calls[id].id == id && Has(h, CallPayload(t.calls[id])))
    && (forall id :: id in t.results ==> t.results[id].call == id && Has(h, ResultPayload(t.results[id])))
  }

  ghost predicate FromStarts(h: seq<HistoryFact>, r: Runs, a: Attempts) {
    && (forall run :: run in r.starts ==>
          r.starts[run].run == run && r.starts[run].kind == RunStarted && Has(h, RunPayload(r.starts[run])))
    && (forall id :: id in a.starts ==>
          a.starts[id].id == id && a.starts[id].kind == AttemptStarted && Has(h, AttemptPayload(a.starts[id])))
  }

  ghost predicate FromEnds(h: seq<HistoryFact>, s: Scan) {
    && (forall run :: run in s.runs.terminals ==> exists i :: 0 <= i < |h| && EndsRun(h[i].payload, run))
    && (forall id :: id in s.attempts.terminals ==> exists i :: 0 <= i < |h| && EndsAttempt(h[i].payload, id))
    && (forall run :: run in s.stops.budgets || run in s.stops.limits ==>
          exists i :: 0 <= i < |h| && StopsRun(h[i].payload, run))
    && (forall run, step, source :: (run, step, source) in s.contributions ==>
          exists i :: 0 <= i < |h| && Contributes(h[i].payload, run, step, source))
  }

  predicate EndsAttempt(p: Payload, id: AttemptID) {
    p.AttemptPayload? && p.attempt.id == id && p.attempt.kind != AttemptStarted
  }

  predicate Contributes(p: Payload, run: RunID, step: StepID, source: SourceKey) {
    p.ContributionPayload? && p.contribution.run == run && p.contribution.step == step
      && p.contribution.source == source
  }

  lemma {:induction false} HasMore(h: seq<HistoryFact>)
    requires h != []
    ensures forall p :: Has(h, p) <==> Has(h[..|h| - 1], p) || p == h[|h| - 1].payload
  {
    var front := h[..|h| - 1];
    assert forall i :: 0 <= i < |front| ==> front[i] == h[i];
    assert forall p :: Has(front, p) ==> Has(h, p);
  }

  lemma {:induction false} TalkSnoc(h: seq<HistoryFact>, t: Talk)
    requires h != [] && FromTalk(h[..|h| - 1], t)
    ensures FromTalk(h, TalkAfter(t, h[|h| - 1].payload))
  {
    HasMore(h);
    hide Has;
  }

  lemma {:induction false} StartsSnoc(h: seq<HistoryFact>, r: Runs, a: Attempts)
    requires h != [] && FromStarts(h[..|h| - 1], r, a)
    ensures FromStarts(h, RunsAfter(r, h[|h| - 1].payload), AttemptsAfter(a, h[|h| - 1].payload))
  {
    HasMore(h);
    hide Has;
  }

  lemma {:induction false} EndsSnoc(h: seq<HistoryFact>, s: Scan)
    requires h != [] && FromEnds(h[..|h| - 1], s)
    ensures FromEnds(h, Absorb(s, h[|h| - 1].payload))
  {
    assert forall i :: 0 <= i < |h| - 1 ==> h[..|h| - 1][i] == h[i];
  }

  lemma {:induction false} ScanFromHistory(h: seq<HistoryFact>)
    ensures FromHistory(h, ScanOf(h))
  {
    if h != [] {
      var front := h[..|h| - 1];
      ScanFromHistory(front);
      TalkSnoc(h, ScanOf(front).talk);
      StartsSnoc(h, ScanOf(front).runs, ScanOf(front).attempts);
      EndsSnoc(h, ScanOf(front));
      hide FromTalk;
      hide FromStarts;
      hide FromEnds;
    }
  }

  // ---------------------------------------------------------------- the checker decides the rules

  ghost predicate Mirrors(h: seq<HistoryFact>, s: Scan) {
    (forall i :: 0 <= i < |h| ==> Kept(s, h[i].payload)) && FromHistory(h, s)
  }

  lemma {:induction false} RulesOutExact(h: seq<HistoryFact>, s: Scan, p: Payload)
    requires Mirrors(h, s)
    ensures (exists i :: 0 <= i < |h| && RulesOut(h[i].payload, p)) <==> Refused(s, p)
  {
  }

  /** The maps rule the fact out. */
  predicate Refused(s: Scan, p: Payload) {
    match p
    case MessagePayload(m) => m.id in s.talk.messages
    case CallPayload(c) => c.id in s.talk.calls
    case ResultPayload(r) => r.call in s.talk.results
    case RunPayload(f) => if f.kind == RunStarted then f.run in s.runs.starts else f.run in s.runs.terminals
    case AttemptPayload(a) =>
      a.id in s.attempts.terminals
      || (a.kind == AttemptStarted && (a.id in s.attempts.starts || a.run in s.runs.terminals))
    case ConfigPayload(_, _) => false
    case ContributionPayload(c) => c.run in s.runs.terminals || ContributionKey(c) in s.contributions
    case BudgetPayload(b) => b.run in s.runs.terminals || b.run in s.stops.budgets || b.run in s.stops.limits
    case LimitPayload(l) =>
      || l.run in s.runs.terminals || l.run in s.stops.budgets || l.run in s.stops.limits
      || l.triggerAttempt in s.attempts.starts || l.triggerCall in s.talk.calls
  }

  /** The maps have what the fact needs. */
  predicate Supported(s: Scan, p: Payload) {
    match p
    case CallPayload(c) =>
      && c.message in s.talk.messages
      && var m := s.talk.messages[c.message]; m.role == RoleAssistant && m.run == c.run && m.step == c.step
    case ResultPayload(r) => r.call in s.talk.calls
    case RunPayload(f) =>
      && f.run in s.runs.starts
      && s.runs.starts[f.run].configRevision == f.configRevision && s.runs.starts[f.run].config == f.config
    case AttemptPayload(a) =>
      if a.kind == AttemptStarted then
        && a.run in s.runs.starts
        && s.runs.starts[a.run].config.provider == a.provider && s.runs.starts[a.run].config.model == a.model
      else a.id in s.attempts.starts && s.attempts.starts[a.id].SameIdentity(a)
    case ContributionPayload(c) => c.run in s.runs.starts
    case BudgetPayload(b) => b.run in s.runs.starts
    case LimitPayload(l) => l.run in s.runs.starts
    case _ => false
  }

  lemma {:induction false} SupportsExact(h: seq<HistoryFact>, s: Scan, p: Payload)
    requires Mirrors(h, s)
    ensures (exists i :: 0 <= i < |h| && Supports(h[i].payload, p)) <==> Supported(s, p)
  {
  }

  lemma {:induction false} AcceptsByMaps(h: seq<HistoryFact>, p: Payload)
    ensures Accepts(ScanOf(h), p) <==>
            !Refused(ScanOf(h), p) && (NeedsOne(p) ==> Supported(ScanOf(h), p)) && TellsCount(h, p)
  {
    if p.BudgetPayload? {
      CountSearch(h, p.budget.run);
    } else if p.LimitPayload? {
      CountSearch(h, p.limit.run);
    }
    hide ScanOf;
    hide Spent;
    hide CountCalls;
    hide CountAttempts;
  }

  /** The checker accepts a fact next if and only if it may follow. */
  lemma {:induction false} FollowExact(sid: SessionID, h: seq<HistoryFact>, p: Payload)
    requires Accepted(sid, h)
    ensures Accepts(ScanOf(h), p) <==> MayFollow(h, p)
  {
    ScanFromHistory(h);
    forall i: nat | i < |h| ensures Kept(ScanOf(h), h[i].payload) {
      AllKept(sid, h, i);
    }
    hide FromHistory;
    hide Kept;
    hide RulesOut;
    hide Supports;
    hide TellsCount;
    hide Accepts;
    hide ScanOf;
    RulesOutExact(h, ScanOf(h), p);
    SupportsExact(h, ScanOf(h), p);
    AcceptsByMaps(h, p);
  }

  /** A History is accepted if and only if each of its facts is valid and may follow the facts before it. */
  lemma {:induction false} AcceptedExact(sid: SessionID, h: seq<HistoryFact>)
    ensures Accepted(sid, h) <==> InOrder(sid, h)
  {
    if h != [] {
      var front, last := h[..|h| - 1], h[|h| - 1];
      assert h == front + [last];
      AcceptedExact(sid, front);
      if Accepted(sid, front) {
        FollowExact(sid, front, last.payload);
      }
      InOrderSnoc(sid, h);
      hide InOrder;
      hide MayFollow;
      hide Accepts;
    }
  }

  lemma {:induction false} InOrderSnoc(sid: SessionID, h: seq<HistoryFact>)
    requires h != []
    ensures InOrder(sid, h) <==>
            && InOrder(sid, h[..|h| - 1]) && h[|h| - 1].payload.Valid(sid)
            && MayFollow(h[..|h| - 1], h[|h| - 1].payload)
  {
    hide MayFollow;
    var front := h[..|h| - 1];
    assert forall k :: 0 <= k < |front| ==> front[k] == h[k] && front[..k] == h[..k];
    if InOrder(sid, h) {
      forall k | 0 <= k < |front| ensures front[k].payload.Valid(sid) && MayFollow(front[..k], front[k].payload) {
        assert h[k].payload.Valid(sid) && MayFollow(h[..k], h[k].payload);
      }
    }
  }

  lemma {:induction false} TalkExact(sid: SessionID, h: seq<HistoryFact>)
    requires Accepted(sid, h)
    ensures forall id :: id in ScanOf(h).talk.calls <==> HasCall(h, id)
    ensures forall id :: id in ScanOf(h).talk.results <==> HasResultOf(h, id)
    ensures forall r: ToolResult ::
              r.call in ScanOf(h).talk.results && ScanOf(h).talk.results[r.call] == r <==> Has(h, ResultPayload(r))
    ensures forall id :: id in ScanOf(h).talk.results ==> ScanOf(h).talk.results[id].call == id
  {
    ScanFromHistory(h);
    forall i: nat | i < |h| ensures Kept(ScanOf(h), h[i].payload) {
      AllKept(sid, h, i);
    }
    hide FromStarts;
    hide FromEnds;
    hide ScanOf;
    hide Accepted;
  }

  /** The whole-aggregate check, in terms of History and journal alone. */
  lemma {:induction false} ConsistentExact(sid: SessionID, h: seq<HistoryFact>, journal: seq<JournalEntry>)
    ensures Consistent(sid, h, journal) <==> InOrder(sid, h) && JournalFits(h, journal)
  {
    AcceptedExact(sid, h);
    if Accepted(sid, h) {
      TalkExact(sid, h);
      JournalExact(h, ScanOf(h).talk, journal);
    }
    hide InOrder;
    hide JournalFits;
    hide JournalAccepted;
    hide ScanOf;
    hide Accepted;
  }

  lemma {:induction false} JournalExact(h: seq<HistoryFact>, t: Talk, journal: seq<JournalEntry>)
    requires forall id :: id in t.calls <==> HasCall(h, id)
    requires forall id :: id in t.results <==> HasResultOf(h, id)
    requires forall r: ToolResult :: r.call in t.results && t.results[r.call] == r <==> Has(h, ResultPayload(r))
    requires forall id :: id in t.results ==> t.results[id].call == id
    ensures JournalAccepted(t, journal) <==> JournalFits(h, journal)
  {
    hide Has;
    hide HasCall;
    hide HasResultOf;
  }
}
