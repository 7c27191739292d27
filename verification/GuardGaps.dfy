/** Where the Store's own guards stop short of the checker. Each gap has the exact condition under which
    an accepted change keeps the aggregate good, and a concrete commit that the Store accepts although the
    condition fails (session/memory_store.go; the Runtime never builds such a commit). */
module GuardGaps {
  import opened SessionTypes
  import opened HistoryChecker
  import opened Transactions
  import opened SearchAgreement
  import opened AggregateInvariant
  import opened SessionRuns

  // ---------------------------------------------------------------- exact conditions

  /** A lone `pending` update is admitted without a journal entry; it is sound exactly when one exists. */
  lemma {:induction false} LonePendingExact(s: Snapshot, c: ToolCall, s': Snapshot)
    requires Core(s) && ApplyJournal(s, PendingEntry(c)) == Ok(s')
    ensures Consistent(s'.session.id, s'.history, s'.journal) <==> JournalIndex(s.journal, c.id) < |s.journal|
  {
    var t := ScanOf(s.history).talk;
    if JournalIndex(s.journal, c.id) < |s.journal| {
      MarkKeepsCore(s, c, s');
    } else {
      assert s'.journal == s.journal + [PendingEntry(c)];
      NotYetRecorded(t, s.journal, c);
    }
  }

  /** Without a journal entry, a call is either unknown to History or already answered. */
  lemma {:induction false} NotYetRecorded(t: Talk, journal: seq<JournalEntry>, c: ToolCall)
    requires JournalAccepted(t, journal) && JournalIndex(journal, c.id) == |journal|
    ensures !EntryAccepted(t, PendingEntry(c))
    ensures !JournalAccepted(t, journal + [PendingEntry(c)])
  {
    var after := journal + [PendingEntry(c)];
    assert after[|journal|] == PendingEntry(c);
  }

  /** An attempt may start in the active Run even after its terminal fact; the checker then refuses. */
  lemma {:induction false} AttemptStartExact(s: Snapshot, a: Attempt, s': Snapshot)
    requires HistoryOk(s) && a.kind == AttemptStarted && AppendAttempt(s, a) == Ok(s')
    ensures Accepted(s'.session.id, s'.history) <==> s.activeRun !in ScanOf(s.history).runs.terminals
  {
    AttemptSearch(s.history, a.id);
    RunSearch(s.history, a.run);
    ScanSnoc(s.session.id, s.history, s'.history[|s.history|]);
  }

  /** A contribution is admitted for the active Run whether or not that Run is live in History. */
  lemma {:induction false} ContributionExact(s: Snapshot, x: Contribution, s': Snapshot)
    requires HistoryOk(s) && AppendContribution(s, x) == Ok(s')
    ensures Accepted(s'.session.id, s'.history) <==> Live(ScanOf(s.history), s.activeRun)
  {
    ContributionSearch(s.history, x);
    ScanSnoc(s.session.id, s.history, s'.history[|s.history|]);
  }

  /** The trigger of a limit fact is compared inside its own Run; the checker compares it with every Run. */
  lemma {:induction false} LimitTriggerExact(s: Snapshot, l: Limit, s': Snapshot)
    requires Core(s) && AppendLimit(s, l) == Ok(s')
    ensures Accepted(s'.session.id, s'.history) <==>
              l.triggerAttempt !in ScanOf(s.history).attempts.starts && l.triggerCall !in ScanOf(s.history).talk.calls
  {
    StopSearch(s.history, l.run);
    CountSearch(s.history, l.run);
    ScanSnoc(s.session.id, s.history, s'.history[|s.history|]);
  }

  /** The four changes of one commit that ends Run `f.run` and starts Run `g.run`. */
  function Handover(s: Snapshot, f: RunFact, g: RunFact): (r: Result<Snapshot>) {
    var ended :- AppendRun(s, f);
    var idle :- ChangeRunState(ended, f.run, false);
    var begun :- ChangeRunState(idle, g.run, true);
    AppendRun(begun, g)
  }

  /** A Run that ended is not the Run that starts. */
  lemma {:induction false} HandoverChangesRun(s: Snapshot, f: RunFact, g: RunFact, s': Snapshot)
    requires f.kind != RunStarted && g.kind == RunStarted && Handover(s, f, g) == Ok(s')
    ensures f.run != g.run && s'.journal == s.journal && IsActive(s, f.run) && IsActive(s', g.run)
  {
    var ended := AppendRun(s, f).value;
    assert ended.history[..|s.history|] == s.history;
    RunSearch(s.history, f.run);
    RunSearch(ended.history, g.run);
    ScanSnoc(0, s.history, ended.history[|s.history|]);
  }

  /** Such a commit is not refused for an unfinished call of the first Run; it is sound exactly when there
      is none. */
  lemma {:induction false} HandoverExact(s: Snapshot, f: RunFact, g: RunFact, s': Snapshot)
    requires Core(s) && f.kind != RunStarted && g.kind == RunStarted && f.run != 0 && g.run != 0
    requires Handover(s, f, g) == Ok(s')
    ensures Core(s') <==> !HasUnfinishedJournal(s.journal)
  {
    HandoverChangesRun(s, f, g, s');
    if !HasUnfinishedJournal(s.journal) {
      var idle := ChangeRunState(AppendRun(s, f).value, f.run, false).value;
      FinishKeepsCore(s, f, idle);
      StartKeepsCore(idle, g, s');
    } else {
      UnfinishedBelongs(s, s');
    }
  }

  lemma {:induction false} UnfinishedBelongs(s: Snapshot, s': Snapshot)
    requires Core(s) && HasUnfinishedJournal(s.journal) && s'.journal == s.journal && s'.activeRun != s.activeRun
    ensures !Core(s')
  {
    var i :| 0 <= i < |s.journal| && Unfinished(s.journal[i].status);
    assert IsActive(s, s.journal[i].run) && s'.journal[i] == s.journal[i];
  }

  // ---------------------------------------------------------------- concrete commits

  const Model := Config(1, 1, 1)
  const Empty := NewSession(SessionInfo(1, 1, 1, 0, 0), [], [], [], Model, false, 0, None)

  function StartOf(run: RunID): (r: RunFact) { RunFact(1, run, RunStarted, Model, 1, None) }

  const Call1 := ToolCall(7, 5, 1, 1, 1, 0, 1, 0)

  /** A commit without a model selection needs no event. */
  lemma {:induction false} NoSelection(current: Config, changes: seq<Change>)
    requires forall i :: 0 <= i < |changes| ==> !changes[i].SetModelConfig? && !changes[i].AppendSessionEvent?
    ensures ConfigTransactionValid(current, changes)
  {
    assert (set i | 0 <= i < |changes| && changes[i].SetModelConfig?) == {};
    assert (set i | 0 <= i < |changes| && changes[i].AppendSessionEvent?) == {};
  }

  const Opened := CreatedFrom(Empty)
  const Opening := [SetRunState(1, true), AppendRunFact(StartOf(1))]

  /** The first Runtime commit of an empty Session. */
  lemma {:induction false} OpeningCommits() returns (s: Snapshot)
    ensures Commits(Opened, Opening, s)
    ensures s == Opened.(revision := 2, history := s.history, running := true, activeRun := 1)
    ensures |s.history| == 1 && s.history[0].payload == RunPayload(StartOf(1))
  {
    assert Renumber(1, []) == [];
    NoSelection(Model, Opening);
    var begun := Opened.(running := true, activeRun := 1);
    var last := AppendRun(begun, StartOf(1)).value;
    assert last == begun.(history := last.history);
    ApplyOne(begun, 1, Opening[1]);
    assert Opening == [Opening[0]] + [Opening[1]];
    ApplyConcat(Opened, 1, [Opening[0]], [Opening[1]]);
    ApplyOne(Opened, 1, Opening[0]);
    s := last.(revision := 2);
  }

  /** The empty Session after its first commit: in its first Run. */
  lemma {:induction false} FirstRun() returns (s: Snapshot)
    ensures Commits(Opened, Opening, s)
    ensures Inv(s) && s.running && s.activeRun == 1 && s.session.id == 1 && s.journal == [] && s.queue == []
    ensures s.config == Model
    ensures |s.history| == 1 && s.history[0].payload == RunPayload(StartOf(1))
  {
    CreateEstablishesInv(Empty);
    s := OpeningCommits();
    hide Inv;
    hide Commits;
    var ops := [StartRun(StartOf(1))];
    assert ops[1..] == [] && Expand(ops) == Opening;
    assert AllShaped(Opened, ops);
    CommitKeepsInv(Opened, ops, s);
  }

  /** A Session in its first Run, reached by one Runtime commit from an empty one. */
  lemma {:induction false} StartedSession() returns (s: Snapshot)
    ensures Inv(s) && s.running && s.activeRun == 1 && s.session.id == 1 && s.journal == [] && s.queue == []
    ensures s.config == Model
    ensures |s.history| == 1 && s.history[0].payload == RunPayload(StartOf(1))
  {
    hide *;
    s := FirstRun();
  }

  /** The Store accepts a `pending` update for a call that History does not have. */
  lemma {:induction false} LonePendingCommits(s: Snapshot) returns (s': Snapshot)
    requires Inv(s) && IsActive(s, 1) && s.session.id == 1 && s.journal == []
    requires |s.history| == 1 && s.history[0].payload == RunPayload(StartOf(1))
    ensures Commits(s, [UpdateRunJournal(PendingEntry(Call1))], s')
    ensures !Consistent(s'.session.id, s'.history, s'.journal)
  {
    var changes := [UpdateRunJournal(PendingEntry(Call1))];
    NoSelection(s.config, changes);
    assert LastAppendedCall(changes, Call1.id) == None;
    var last := s.(journal := [PendingEntry(Call1)]);
    assert s.journal + [PendingEntry(Call1)] == [PendingEntry(Call1)];
    assert ApplyJournal(s, PendingEntry(Call1)) == Ok(last);
    ApplyOne(s, s.revision, changes[0]);
    s' := last.(revision := last.revision + 1);
    LonePendingExact(s, Call1, last);
  }

  lemma {:induction false} LonePendingAccepted() returns (s: Snapshot, s': Snapshot)
    ensures Inv(s) && Commits(s, [UpdateRunJournal(PendingEntry(Call1))], s')
    ensures !Consistent(s'.session.id, s'.history, s'.journal)
  {
    s := StartedSession();
    hide Inv;
    hide Commits;
    hide Consistent;
    s' := LonePendingCommits(s);
  }

  /** A commit of one change that needs no companion. */
  lemma {:induction false} CommitsOne(s: Snapshot, c: Change, last: Snapshot)
    requires ChangeValid(c, s.session.id) && ApplyChange(s, s.revision, c) == Ok(last) && Closable(last)
    requires c.AppendRunFact? || c.AppendModelAttempt? || c.AppendRunLimitExceeded? || c.AppendContextContribution?
    ensures Commits(s, [c], last.(revision := last.revision + 1))
  {
    NoSelection(s.config, [c]);
    ApplyOne(s, s.revision, c);
  }

  const Completed1 := StartOf(1).(kind := RunCompleted)
  const Attempt3 := Attempt(3, 1, 1, AttemptStarted, 1, 1, 0, 0, 0)

  lemma {:induction false} StartedScan(s: Snapshot)
    requires |s.history| == 1 && s.history[0].payload == RunPayload(StartOf(1))
    ensures ScanOf(s.history).runs == Runs(map[1 := StartOf(1)], {}) && ScanOf(s.history).contributions == {}
    ensures ScanOf(s.history).attempts == Attempts(map[], {}) && ScanOf(s.history).talk == Talk(map[], map[], map[])
  {
    assert s.history[..0] == [];
  }

  /** The Store accepts a terminal fact without idling, and then an attempt after it. */
  lemma {:induction false} AttemptAfterTerminalAccepted() returns (s: Snapshot, mid: Snapshot, s': Snapshot)
    ensures Inv(s)
    ensures Commits(s, [AppendRunFact(Completed1)], mid) && Commits(mid, [AppendModelAttempt(Attempt3)], s')
    ensures !Accepted(s'.session.id, s'.history)
  {
    s := StartedSession();
    StartedScan(s);
    hide ScanOf;
    hide Accepted;
    RunSearch(s.history, 1);
    var ended := AppendRun(s, Completed1).value;
    CommitsOne(s, AppendRunFact(Completed1), ended);
    mid := ended.(revision := ended.revision + 1);
    AppendKeepsHistory(s, RunPayload(Completed1));
    RunSearch(mid.history, 1);
    AttemptSearch(mid.history, 3);
    var last := AppendAttempt(mid, Attempt3).value;
    CommitsOne(mid, AppendModelAttempt(Attempt3), last);
    s' := last.(revision := last.revision + 1);
    AttemptStartExact(mid, Attempt3, last);
  }

  const Late := Contribution(1, 1, ContextSource(1), [])

  /** A Session whose Run has its terminal fact and is still active: one accepted commit after its start. */
  lemma {:induction false} EndedSession() returns (s: Snapshot, mid: Snapshot)
    ensures Inv(s) && Commits(s, [AppendRunFact(Completed1)], mid)
    ensures HistoryOk(mid) && IsActive(mid, 1) && mid.session.id == 1 && mid.queue == []
    ensures ScanOf(mid.history).contributions == {} && 1 in ScanOf(mid.history).runs.terminals
  {
    s := StartedSession();
    StartedScan(s);
    hide ScanOf;
    hide Accepted;
    RunSearch(s.history, 1);
    var ended := AppendRun(s, Completed1).value;
    CommitsOne(s, AppendRunFact(Completed1), ended);
    mid := ended.(revision := ended.revision + 1);
    AppendKeepsHistory(s, RunPayload(Completed1));
  }

  /** The Store accepts a contribution to a Run that has ended. */
  lemma {:induction false} LateContributionAccepted() returns (s: Snapshot, mid: Snapshot, s': Snapshot)
    ensures Inv(s)
    ensures Commits(s, [AppendRunFact(Completed1)], mid) && Commits(mid, [AppendContextContribution(Late)], s')
    ensures !Accepted(s'.session.id, s'.history)
  {
    s, mid := EndedSession();
    hide ScanOf;
    hide Accepted;
    hide Inv;
    ContributionSearch(mid.history, Late);
    var last := AppendContribution(mid, Late).value;
    CommitsOne(mid, AppendContextContribution(Late), last);
    s' := last.(revision := last.revision + 1);
    ContributionExact(mid, Late, last);
  }

  /** Facts of a Session that ended Run 1 after one attempt and started Run 2. */
  ghost predicate SecondRunFacts(h: seq<HistoryFact>) {
    && |h| == 4 && h[0].payload == RunPayload(StartOf(1)) && h[1].payload == AttemptPayload(Attempt3)
    && h[2].payload == RunPayload(Completed1) && h[3].payload == RunPayload(StartOf(2))
  }

  lemma {:induction false} SecondRunScan(h: seq<HistoryFact>)
    requires SecondRunFacts(h)
    ensures var t := ScanOf(h);
            3 in t.attempts.starts && At(t.counts.attempts, 2) == 0 && 2 !in t.stops.budgets && 2 !in t.stops.limits
  {
    var s1 := Absorb(EmptyScan, h[0].payload);
    var s2 := Absorb(s1, h[1].payload);
    var s3 := Absorb(s2, h[2].payload);
    assert h[..1] == [] + [h[0]] && h[..2] == h[..1] + [h[1]] && h[..3] == h[..2] + [h[2]] && h == h[..3] + [h[3]];
    ScanSnoc(1, [], h[0]);
    ScanSnoc(1, h[..1], h[1]);
    ScanSnoc(1, h[..2], h[2]);
    ScanSnoc(1, h[..3], h[3]);
    assert ScanOf(h) == Absorb(s3, h[3].payload);
  }

  /** One more attempt in the first Run. */
  lemma {:induction false} AttemptFollows(first: Snapshot) returns (s: Snapshot)
    requires |first.history| == 1 && first.history[0].payload == RunPayload(StartOf(1)) && IsActive(first, 1)
    ensures AppendAttempt(first, Attempt3) == Ok(s) && s == first.(history := s.history)
    ensures |s.history| == 2 && s.history[0] == first.history[0] && s.history[1].payload == AttemptPayload(Attempt3)
    ensures ScanOf(s.history).runs == Runs(map[1 := StartOf(1)], {})
  {
    StartedScan(first);
    RunSearch(first.history, 1);
    AttemptSearch(first.history, 3);
    assert FindAttempt(first.history, 3, true).None?;
    assert FindAttempt(first.history, 3, false).None?;
    assert FindRun(first.history, 1, true) == Some(StartOf(1));
    assert AppendAttempt(first, Attempt3).Ok?;
    s := AppendAttempt(first, Attempt3).value;
    ScanSnoc(1, first.history, s.history[1]);
  }

  lemma {:induction false} TriedSession() returns (s: Snapshot)
    ensures Inv(s) && s.session.id == 1 && IsActive(s, 1) && s.journal == [] && s.queue == []
    ensures |s.history| == 2 && s.history[0].payload == RunPayload(StartOf(1))
    ensures s.history[1].payload == AttemptPayload(Attempt3)
    ensures ScanOf(s.history).runs == Runs(map[1 := StartOf(1)], {})
  {
    var first := StartedSession();
    s := AttemptFollows(first);
    hide ScanOf;
    hide Core;
    hide AppendAttempt;
    AttemptKeepsCore(first, Attempt3, s);
  }

  lemma {:induction false} SecondRun() returns (s: Snapshot)
    ensures Inv(s) && s.session.id == 1 && IsActive(s, 2) && SecondRunFacts(s.history)
  {
    var tried := TriedSession();
    hide ScanOf;
    hide Core;
    RunSearch(tried.history, 1);
    var ended := AppendRun(tried, Completed1).value;
    var idle := ended.(running := false, activeRun := 0);
    FinishKeepsCore(tried, Completed1, idle);
    ScanSnoc(1, tried.history, ended.history[2]);
    RunSearch(idle.history, 2);
    s := AppendRun(idle.(running := true, activeRun := 2), StartOf(2)).value;
    StartKeepsCore(idle, StartOf(2), s);
  }

  const Stop2 := Limit(2, 1, LimitModelAttempts, 0, 1, 2, 3, 0)

  /** The Store accepts a limit whose trigger is an attempt of another Run. */
  lemma {:induction false} ForeignTriggerAccepted() returns (s: Snapshot, s': Snapshot)
    ensures Inv(s) && Commits(s, [AppendRunLimitExceeded(Stop2)], s') && !Accepted(s'.session.id, s'.history)
  {
    s := SecondRun();
    SecondRunScan(s.history);
    hide ScanOf;
    StopSearch(s.history, 2);
    CountSearch(s.history, 2);
    assert !TriggerAdmitted(s.history, Stop2);
    var last := AppendLimit(s, Stop2).value;
    CommitsOne(s, AppendRunLimitExceeded(Stop2), last);
    s' := last.(revision := last.revision + 1);
    LimitTriggerExact(s, Stop2, last);
  }

  const Asking := Message(5, 1, 1, 1, RoleAssistant, [1], None)

  /** A Session whose Run has a prepared call. */
  lemma {:induction false} PreparedSession() returns (s: Snapshot)
    ensures Inv(s) && s.session.id == 1 && IsActive(s, 1) && HasUnfinishedJournal(s.journal) && s.queue == []
    ensures ScanOf(s.history).runs == Runs(map[1 := StartOf(1)], {}) && s.config == Model
  {
    var first := StartedSession();
    StartedScan(first);
    hide ScanOf;
    MessageSearch(1, first.history, 5);
    CallSearch(1, first.history, 7);
    var asked := AppendFact(first, MessagePayload(Asking), HistoryInvariant).value;
    AppendKeepsCore(first, MessagePayload(Asking));
    AppendKeepsHistory(first, MessagePayload(Asking));
    MessageSearch(1, asked.history, 5);
    CallSearch(1, asked.history, 7);
    var called := AppendCall(asked, Call1).value;
    s := called.(journal := [PreparedEntry(Call1)]);
    assert called.journal + [PreparedEntry(Call1)] == [PreparedEntry(Call1)];
    CallAccepted(asked, Call1);
    PrepareKeepsCore(asked, Call1, s);
    assert Unfinished(s.journal[0].status);
  }

  lemma {:induction false} ApplyFour(s: Snapshot, expected: Revision, cs: seq<Change>, s1: Snapshot, s2: Snapshot,
                                     s3: Snapshot, s4: Snapshot)
    requires |cs| == 4 && ApplyChange(s, expected, cs[0]) == Ok(s1) && ApplyChange(s1, expected, cs[1]) == Ok(s2)
    requires ApplyChange(s2, expected, cs[2]) == Ok(s3) && ApplyChange(s3, expected, cs[3]) == Ok(s4)
    ensures ApplyAll(s, expected, cs) == Ok(s4)
  {
    hide ApplyChange;
    assert cs[3..][1..] == [] && cs[2..][1..] == cs[3..] && cs[1..][1..] == cs[2..];
    assert ApplyAll(s3, expected, cs[3..]) == Ok(s4);
    assert ApplyAll(s2, expected, cs[2..]) == Ok(s4);
    assert ApplyAll(s1, expected, cs[1..]) == Ok(s4);
  }

  const HandoverChanges :=
    [AppendRunFact(Completed1), SetRunState(1, false), SetRunState(2, true), AppendRunFact(StartOf(2))]

  /** Without a look at the journal, the handover goes through. */
  lemma {:induction false} HandoverCommits(s: Snapshot) returns (s': Snapshot)
    requires HistoryOk(s) && ForkOk(s) && s.session.id == 1 && IsActive(s, 1) && s.queue == []
    requires ScanOf(s.history).runs == Runs(map[1 := StartOf(1)], {})
    ensures Commits(s, HandoverChanges, s') && s'.journal == s.journal && s'.activeRun == 2
  {
    hide ScanOf;
    hide Accepted;
    RunSearch(s.history, 1);
    NoSelection(s.config, HandoverChanges);
    var ended := AppendRun(s, Completed1).value;
    AppendKeepsHistory(s, RunPayload(Completed1));
    RunSearch(ended.history, 2);
    var idle := ended.(running := false, activeRun := 0);
    var begun := idle.(running := true, activeRun := 2);
    var last := AppendRun(begun, StartOf(2)).value;
    ApplyFour(s, s.revision, HandoverChanges, ended, idle, begun, last);
    s' := last.(revision := last.revision + 1);
  }

  /** The Store accepts a commit that ends a Run with a prepared call and starts the next one. */
  lemma {:induction false} UnfinishedHandoverAccepted() returns (s: Snapshot, s': Snapshot)
    ensures Inv(s) && !Core(s') && Commits(s, HandoverChanges, s')
  {
    s := PreparedSession();
    s' := HandoverCommits(s);
    hide Core;
    hide Commits;
    UnfinishedBelongs(s, s');
  }
}
