/** Limits on the model attempts and tool calls of one Run (standardagent/runtime_execution.go attempt recorder,
    commitCompletion, restorePreparedRun; session/memory_store.go appendRunLimitExceededFact).

    Each method is one critical section of the Runtime, so the calls of concurrent callbacks interleave in any
    order. `luck` says whether the Store gets to persist a commit; a failed commit changes nothing here. Commits that
    are durable although they were reported as failed are the subject of LimitTraces. */
module RunLimits {
  import opened SessionTypes
  import opened HistoryChecker
  import opened Transactions
  import opened SearchAgreement
  import opened Recovery
  import opened AggregateInvariant
  import opened ProtocolHistory
  import opened RuntimeCommits

  // ---------------------------------------------------------------- counting

  function StartsIn(p: Payload, run: RunID): (n: nat) {
    if p.AttemptPayload? && p.attempt.run == run && p.attempt.kind == AttemptStarted then 1 else 0
  }

  function CallsIn(p: Payload, run: RunID): (n: nat) {
    if p.CallPayload? && p.call.run == run then 1 else 0
  }

  function TokensIn(p: Payload, run: RunID): (n: int) {
    if p.AttemptPayload? && p.attempt.run == run && p.attempt.kind != AttemptStarted then p.attempt.tokens else 0
  }

  /** What a change list adds to the counts of a Run. */
  function StartsOf(changes: seq<Change>, run: RunID): (n: nat) {
    if changes == [] then 0
    else
      var first := if Appended(changes[0]).Some? then StartsIn(Appended(changes[0]).value, run) else 0;
      first + StartsOf(changes[1..], run)
  }

  function CallsMade(changes: seq<Change>, run: RunID): (n: nat) {
    if changes == [] then 0
    else
      var first := if Appended(changes[0]).Some? then CallsIn(Appended(changes[0]).value, run) else 0;
      first + CallsMade(changes[1..], run)
  }

  function TokensOf(changes: seq<Change>, run: RunID): (n: int) {
    if changes == [] then 0
    else
      var first := if Appended(changes[0]).Some? then TokensIn(Appended(changes[0]).value, run) else 0;
      first + TokensOf(changes[1..], run)
  }

  lemma {:induction false} CountSnoc(h: seq<HistoryFact>, f: HistoryFact, run: RunID)
    ensures CountAttempts(h + [f], run) == CountAttempts(h, run) + StartsIn(f.payload, run)
    ensures CountCalls(h + [f], run) == CountCalls(h, run) + CallsIn(f.payload, run)
    ensures Spent(h + [f], run) == Spent(h, run) + TokensIn(f.payload, run)
  {
    assert (h + [f])[..|h|] == h;
  }

  /** An accepted change list changes the durable counts by exactly what it contains. */
  lemma {:induction false} ChangesCount(s: Snapshot, expected: Revision, changes: seq<Change>, s': Snapshot, run: RunID)
    requires ApplyAll(s, expected, changes) == Ok(s')
    ensures CountAttempts(s'.history, run) == CountAttempts(s.history, run) + StartsOf(changes, run)
    ensures CountCalls(s'.history, run) == CountCalls(s.history, run) + CallsMade(changes, run)
    ensures Spent(s'.history, run) == Spent(s.history, run) + TokensOf(changes, run)
    decreases |changes|
  {
    hide ApplyChange;
    if changes != [] {
      var mid := ApplyChange(s, expected, changes[0]).value;
      ChangeAppends(s, expected, changes[0], mid);
      ChangesCount(mid, expected, changes[1..], s', run);
      if Appended(changes[0]).Some? {
        assert mid.history == s.history + [mid.history[|s.history|]];
        CountSnoc(s.history, mid.history[|s.history|], run);
      }
      hide CountAttempts;
      hide CountCalls;
      hide Spent;
    }
  }

  /** Facts that end attempts, calls and Runs add to no count, spent tokens aside. */
  lemma {:induction false} EndsCount(h: seq<HistoryFact>, h': seq<HistoryFact>, run: RunID)
    requires OnlyEnds(h, h')
    ensures CountAttempts(h', run) == CountAttempts(h, run) && CountCalls(h', run) == CountCalls(h, run)
    decreases |h'|
  {
    if |h'| > |h| {
      var front := h'[..|h'| - 1];
      assert forall i :: 0 <= i < |front| ==> front[i] == h'[i];
      EndsCount(h, front, run);
    } else {
      assert h == h';
    }
  }

  lemma {:induction false} CountsConcat(a: seq<Change>, b: seq<Change>, run: RunID)
    ensures StartsOf(a + b, run) == StartsOf(a, run) + StartsOf(b, run)
    ensures CallsMade(a + b, run) == CallsMade(a, run) + CallsMade(b, run)
    ensures TokensOf(a + b, run) == TokensOf(a, run) + TokensOf(b, run)
  {
    if a == [] {
      assert a + b == b;
    } else {
      assert (a + b)[1..] == a[1..] + b;
      CountsConcat(a[1..], b, run);
    }
  }

  lemma {:induction false} ReservesCount(entries: seq<ExtensionEntry>, run: RunID)
    ensures var cs := Expand(ReserveOps(entries));
            StartsOf(cs, run) == 0 && CallsMade(cs, run) == 0 && TokensOf(cs, run) == 0
  {
    if entries != [] {
      assert ReserveOps(entries)[1..] == ReserveOps(entries[1..]);
      ReservesCount(entries[1..], run);
      CountsConcat([UpdateExtensionJournal(entries[0])], Expand(ReserveOps(entries[1..])), run);
      SingleCount(UpdateExtensionJournal(entries[0]), run);
    }
  }

  lemma {:induction false} PrepareCount(c: ToolCall)
    ensures var cs := Changes(PrepareCall(c));
            StartsOf(cs, c.run) == 0 && CallsMade(cs, c.run) == 1 && TokensOf(cs, c.run) == 0
  {
    var a, b := AppendToolCall(c), UpdateRunJournal(PreparedEntry(c));
    assert [a, b] == [a] + [b];
    CountsConcat([a], [b], c.run);
    SingleCount(a, c.run);
    SingleCount(b, c.run);
  }

  /** The calls of a batch all belong to the Run. */
  predicate OfRun(asked: seq<Asked>, run: RunID) {
    forall i :: 0 <= i < |asked| ==> asked[i].call.run == run
  }

  lemma {:induction false} CallsCount(asked: seq<Asked>, run: RunID)
    requires OfRun(asked, run)
    ensures var cs := Expand(CallOps(asked));
            StartsOf(cs, run) == 0 && CallsMade(cs, run) == |asked| && TokensOf(cs, run) == 0
  {
    if asked != [] {
      var front, last := asked[..|asked| - 1], asked[|asked| - 1];
      CallsCount(front, run);
      var a, b, c := CallOps(front), [PrepareCall(last.call)], ReserveOps(last.reserved);
      assert CallOps(asked) == (a + b) + c;
      ExpandConcat(a + b, c);
      ExpandConcat(a, b);
      ExpandOne(PrepareCall(last.call));
      CountsConcat(Expand(a + b), Expand(c), run);
      CountsConcat(Expand(a), Expand(b), run);
      PrepareCount(last.call);
      ReservesCount(last.reserved, run);
      hide CallOps;
      hide Expand;
    }
  }

  lemma {:induction false} CompletionCount(m: Message, asked: seq<Asked>, run: RunID)
    requires OfRun(asked, run)
    ensures var cs := Expand(CompletionOps(m, asked));
            StartsOf(cs, run) == 0 && CallsMade(cs, run) == |asked| && TokensOf(cs, run) == 0
  {
    CallsCount(asked, run);
    var head := Plain(AppendMessage(m));
    ExpandConcat([head], CallOps(asked));
    ExpandOne(head);
    CountsConcat(Changes(head), Expand(CallOps(asked)), run);
    SingleCount(AppendMessage(m), run);
  }

  lemma {:induction false} SingleCount(c: Change, run: RunID)
    ensures StartsOf([c], run) == if Appended(c).Some? then StartsIn(Appended(c).value, run) else 0
    ensures CallsMade([c], run) == if Appended(c).Some? then CallsIn(Appended(c).value, run) else 0
    ensures TokensOf([c], run) == if Appended(c).Some? then TokensIn(Appended(c).value, run) else 0
  {
    assert [c][1..] == [];
  }

  // ---------------------------------------------------------------- limit facts tell the truth

  /** The count a limit fact speaks of. */
  function Used(h: seq<HistoryFact>, l: Limit): (n: int) {
    if l.kind.LimitToolCalls? then CountCalls(h, l.run) else CountAttempts(h, l.run)
  }

  /** Every limit fact carries the durable count at its place in History. */
  ghost predicate LimitsTrue(h: seq<HistoryFact>) {
    forall i :: 0 <= i < |h| && h[i].payload.LimitPayload? ==>
      h[i].payload.limit.used == Used(h[..i], h[i].payload.limit)
  }

  lemma {:induction false} LimitsSnoc(h: seq<HistoryFact>, f: HistoryFact)
    requires LimitsTrue(h) && (f.payload.LimitPayload? ==> f.payload.limit.used == Used(h, f.payload.limit))
    ensures LimitsTrue(h + [f])
  {
    var after := h + [f];
    forall i | 0 <= i < |after| && after[i].payload.LimitPayload?
      ensures after[i].payload.limit.used == Used(after[..i], after[i].payload.limit)
    {
      if i < |h| {
        assert after[..i] == h[..i];
      } else {
        assert after[..i] == h;
      }
    }
  }

  /** In a History the checker accepts, limit facts are true. */
  lemma {:induction false} AcceptedLimits(sid: SessionID, h: seq<HistoryFact>)
    requires Accepted(sid, h)
    ensures LimitsTrue(h)
  {
    if h != [] {
      var front, f := h[..|h| - 1], h[|h| - 1];
      assert h == front + [f];
      AcceptedLimits(sid, front);
      if f.payload.LimitPayload? {
        CountSearch(front, f.payload.limit.run);
      }
      LimitsSnoc(front, f);
    }
  }

  /** Whatever an accepted change list contains, limit facts stay true. */
  lemma {:induction false} ChangesKeepLimits(s: Snapshot, expected: Revision, changes: seq<Change>, s': Snapshot)
    requires LimitsTrue(s.history) && ApplyAll(s, expected, changes) == Ok(s')
    ensures LimitsTrue(s'.history)
    decreases |changes|
  {
    hide LimitsTrue;
    hide Used;
    if changes != [] {
      var mid := ApplyChange(s, expected, changes[0]).value;
      ChangeAppends(s, expected, changes[0], mid);
      if changes[0].AppendRunLimitExceeded? {
        LimitGuarded(s, expected, changes[0].limit, mid);
      }
      hide ApplyChange;
      if Appended(changes[0]).Some? {
        assert mid.history == s.history + [mid.history[|s.history|]];
        LimitsSnoc(s.history, mid.history[|s.history|]);
      }
      ChangesKeepLimits(mid, expected, changes[1..], s');
    }
  }

  lemma {:induction false} LimitGuarded(s: Snapshot, expected: Revision, l: Limit, s': Snapshot)
    requires ApplyChange(s, expected, AppendRunLimitExceeded(l)) == Ok(s')
    ensures l.used == Used(s.history, l)
  {
  }

  lemma {:induction false} EndsKeepLimits(h: seq<HistoryFact>, h': seq<HistoryFact>)
    requires OnlyEnds(h, h') && LimitsTrue(h)
    ensures LimitsTrue(h')
    decreases |h'|
  {
    hide LimitsTrue;
    if |h'| > |h| {
      var front := h'[..|h'| - 1];
      assert h' == front + [h'[|h'| - 1]];
      assert forall i :: 0 <= i < |front| ==> front[i] == h'[i];
      EndsKeepLimits(h, front);
      LimitsSnoc(front, h'[|h'| - 1]);
    } else {
      assert h == h';
    }
  }

  // ---------------------------------------------------------------- the active Run

  datatype Admission = Admitted | LimitExceeded | StoreFailed

  /** The Store has an answer other than an error to this commit. */
  ghost predicate Taken(s: Snapshot, changes: seq<Change>) {
    exists s': Snapshot :: Commits(s, changes, s')
  }

  /** One commit and whether it succeeded. */
  ghost predicate Committed(s: Snapshot, changes: seq<Change>, luck: bool, ok: bool, s': Snapshot) {
    && (ok <==> luck && Taken(s, changes))
    && if ok then Commits(s, changes, s') else s' == s
  }

  class ActiveRun {
    const run: RunID
    const maxAttempts: int
    const maxCalls: int
    var store: Snapshot
    var modelAttempts: int
    var toolCalls: int
    var usedTokens: int

    /** The counters are the durable counts, these are within the limits, and every limit fact tells the count at its
        place. */
    ghost predicate Valid()
      reads this
    {
      && modelAttempts == CountAttempts(store.history, run)
      && toolCalls == CountCalls(store.history, run)
      && usedTokens == Spent(store.history, run)
      && LimitsTrue(store.history)
      && (maxAttempts > 0 ==> CountAttempts(store.history, run) <= maxAttempts)
      && (maxCalls > 0 ==> CountCalls(store.history, run) <= maxCalls)
    }

    /** A Run that has just started under a new ID. */
    constructor (store: Snapshot, run: RunID, maxAttempts: int, maxCalls: int)
      requires CountAttempts(store.history, run) == 0 && CountCalls(store.history, run) == 0
      requires Spent(store.history, run) == 0 && LimitsTrue(store.history)
      ensures Valid() && this.store == store && this.run == run && this.maxAttempts == maxAttempts
      ensures this.maxCalls == maxCalls
    {
      this.store, this.run, this.maxAttempts, this.maxCalls := store, run, maxAttempts, maxCalls;
      modelAttempts, toolCalls, usedTokens := 0, 0, 0;
    }

    /** One commit; a refused or failed one leaves the Store as it was. */
    method Commit(changes: seq<Change>, luck: bool) returns (ok: bool)
      requires LimitsTrue(store.history)
      modifies this`store
      ensures Committed(old(store), changes, luck, ok, store)
      ensures LimitsTrue(store.history)
    {
      var applied := ApplyChanges(store, changes);
      ok := luck && applied.Ok?;
      hide LimitsTrue;
      if applied.Ok? {
        assert Commits(store, changes, applied.value.(revision := applied.value.revision + 1));
      }
      if ok {
        ChangesKeepLimits(store, store.revision, changes, applied.value);
        store := applied.value.(revision := applied.value.revision + 1);
      }
    }

    /** recordModelAttemptLimitLocked: the check made before and after the observers. */
    method CheckAttemptLimit(step: StepID, attempt: AttemptID, luck: bool) returns (exceeded: bool)
      requires Valid()
      modifies this`store
      ensures Valid()
      ensures exceeded <==> maxAttempts > 0 && CountAttempts(old(store).history, run) == maxAttempts
      ensures !exceeded ==> store == old(store)
      ensures exceeded ==>
                var limit := Limit(run, step, LimitModelAttempts, CountAttempts(old(store).history, run), maxAttempts,
                                   1,
                                   attempt, 0);
                Committed(old(store), [AppendRunLimitExceeded(limit)], luck, store != old(store), store)
      ensures store != old(store) ==>
                |store.history| == |old(store).history| + 1
                && store.history[|old(store).history|].payload ==
                   LimitPayload(Limit(run, step, LimitModelAttempts, CountAttempts(old(store).history, run),
                                      maxAttempts, 1, attempt, 0))
    {
      if maxAttempts <= 0 || modelAttempts < maxAttempts { return false; }
      var limit := Limit(run, step, LimitModelAttempts, modelAttempts, maxAttempts, 1, attempt, 0);
      RecordLimit(limit, luck);
      return true;
    }

    /** recordRunLimitExceededLocked. */
    method RecordLimit(limit: Limit, luck: bool)
      requires Valid()
      modifies this`store
      ensures Valid()
      ensures Committed(old(store), [AppendRunLimitExceeded(limit)], luck, store != old(store), store)
      ensures store == old(store) ||
              (&& |store.history| == |old(store).history| + 1
               && store.history[..|old(store).history|] == old(store).history
               && store.history[|old(store).history|].payload == LimitPayload(limit))
    {
      ghost var before := store;
      var ok := Commit([AppendRunLimitExceeded(limit)], luck);
      if ok {
        OneAppended(before, AppendRunLimitExceeded(limit), store, run);
      }
    }

    /** The second half of Started: the check and the durable start are one critical section. */
    method AdmitAttempt(a: Attempt, luck: bool) returns (r: Admission)
      requires Valid() && a.run == run && a.kind == AttemptStarted
      modifies this
      ensures Valid()
      ensures r.LimitExceeded? <==> maxAttempts > 0 && CountAttempts(old(store).history, run) == maxAttempts
      ensures CountAttempts(store.history, run) == CountAttempts(old(store).history, run) + if r.Admitted? then 1 else 0
      ensures CountCalls(store.history, run) == CountCalls(old(store).history, run)
      ensures !r.LimitExceeded? ==> Committed(old(store), [AppendModelAttempt(a)], luck, r.Admitted?, store)
      ensures r.LimitExceeded? ==>
                var limit := Limit(run, a.step, LimitModelAttempts, CountAttempts(old(store).history, run), maxAttempts,
                                   1, a.id, 0);
                Committed(old(store), [AppendRunLimitExceeded(limit)], luck, store != old(store), store)
      ensures r.LimitExceeded? && store != old(store) ==>
                && |store.history| == |old(store).history| + 1
                && store.history[|old(store).history|].payload ==
                   LimitPayload(Limit(run, a.step, LimitModelAttempts, CountAttempts(old(store).history, run),
                                      maxAttempts, 1, a.id, 0))
    {
      var exceeded := CheckAttemptLimit(a.step, a.id, luck);
      if exceeded { return LimitExceeded; }
      ghost var before := store;
      var ok := Commit([AppendModelAttempt(a)], luck);
      if !ok { return StoreFailed; }
      OneAppended(before, AppendModelAttempt(a), store, run);
      modelAttempts := modelAttempts + 1;
      return Admitted;
    }

    /** Finished. */
    method FinishAttempt(a: Attempt, luck: bool) returns (ok: bool)
      requires Valid() && a.run == run && a.kind != AttemptStarted
      modifies this
      ensures Valid()
      ensures Committed(old(store), [AppendModelAttempt(a)], luck, ok, store)
      ensures CountAttempts(store.history, run) == CountAttempts(old(store).history, run)
    {
      ghost var before := store;
      ok := Commit([AppendModelAttempt(a)], luck);
      if ok {
        OneAppended(before, AppendModelAttempt(a), store, run);
        usedTokens := usedTokens + a.tokens;
      }
    }

    /** commitCompletion: a batch that does not fit is rejected whole, message and calls. */
    method CommitCompletion(m: Message, calls: seq<Asked>, luck: bool) returns (r: Admission)
      requires Valid() && OfRun(calls, run)
      modifies this
      ensures Valid()
      ensures r.LimitExceeded? <==> maxCalls > 0 && |calls| > maxCalls - CountCalls(old(store).history, run)
      ensures CountCalls(store.history, run) == CountCalls(old(store).history, run) + if r.Admitted? then |calls| else 0
      ensures !r.LimitExceeded? ==>
                Committed(old(store), Expand(CompletionOps(m, calls)), luck, r.Admitted?, store)
      ensures r.LimitExceeded? ==>
                && calls != []
                && var limit := Limit(run, m.step, LimitToolCalls, CountCalls(old(store).history, run), maxCalls,
                                      |calls|,
                                      0, calls[0].call.id);
                   Committed(old(store), [AppendRunLimitExceeded(limit)], luck, store != old(store), store)
      ensures r.LimitExceeded? && store != old(store) ==>
                && |store.history| == |old(store).history| + 1
                && store.history[|old(store).history|].payload.LimitPayload?
                && store.history[|old(store).history|].payload.limit.used == CountCalls(old(store).history, run)
    {
      hide Commits;
      hide CompletionOps;
      if maxCalls > 0 && |calls| > maxCalls - toolCalls {
        ghost var before := store;
        var limit := Limit(run, m.step, LimitToolCalls, toolCalls, maxCalls, |calls|, 0, calls[0].call.id);
        RecordLimit(limit, luck);
        if store != before {
          LimitAdds(before, store, limit, run);
        }
        return LimitExceeded;
      }
      ghost var before := store;
      var changes := RuntimeCommits.CompletionChanges(m, calls);
      var ok := Commit(changes, luck);
      if !ok { return StoreFailed; }
      CompletionAdds(before, m, calls, store, run);
      toolCalls := toolCalls + |calls|;
      return Admitted;
    }

    /** Any other commit of the Runtime: it starts no attempt and makes no call in this Run. */
    method OtherCommit(changes: seq<Change>, luck: bool) returns (ok: bool)
      requires Valid() && StartsOf(changes, run) == 0 && CallsMade(changes, run) == 0 && TokensOf(changes, run) == 0
      modifies this
      ensures Valid()
      ensures Committed(old(store), changes, luck, ok, store)
      ensures CountAttempts(store.history, run) == CountAttempts(old(store).history, run)
      ensures CountCalls(store.history, run) == CountCalls(old(store).history, run)
    {
      ghost var before := store;
      ok := Commit(changes, luck);
      if ok {
        ChangesCount(before, before.revision, changes, ApplyAll(before, before.revision, changes).value, run);
      }
    }

    /** A crash, recovery and restorePreparedRun: the counters come back from History. */
    method Restore(now: Time)
      requires Valid()
      modifies this
      ensures Valid() && Recovers(old(store), store)
      ensures CountAttempts(store.history, run) == CountAttempts(old(store).history, run)
      ensures CountCalls(store.history, run) == CountCalls(old(store).history, run)
    {
      ghost var before := store;
      var recovered, changed, order := RecoverAggregate(store, now);
      if changed {
        recovered := recovered.(revision := store.revision + 1);
      }
      assert RecoversWith(before, order, now, recovered);
      RecoveryCounts(before, order, now, run);
      store := recovered;
      modelAttempts, toolCalls, usedTokens := Recount(store.history, run);
    }
  }

  /** The counting loop of restorePreparedRun. */
  method Recount(h: seq<HistoryFact>, run: RunID) returns (attempts: int, calls: int, tokens: int)
    ensures attempts == CountAttempts(h, run) && calls == CountCalls(h, run) && tokens == Spent(h, run)
  {
    attempts, calls, tokens := 0, 0, 0;
    for i := 0 to |h|
      invariant attempts == CountAttempts(h[..i], run) && calls == CountCalls(h[..i], run)
      invariant tokens == Spent(h[..i], run)
    {
      assert h[..i + 1] == h[..i] + [h[i]];
      CountSnoc(h[..i], h[i], run);
      match h[i].payload {
        case AttemptPayload(a) =>
          if a.run == run && a.kind != AttemptStarted {
            tokens := tokens + a.tokens;
          }
          if a.run == run && a.kind == AttemptStarted {
            attempts := attempts + 1;
          }
        case CallPayload(c) =>
          if c.run == run {
            calls := calls + 1;
          }
        case _ =>
      }
    }
    assert h[..|h|] == h;
  }

  lemma {:induction false} OneAppended(s: Snapshot, c: Change, s': Snapshot, run: RunID)
    requires Commits(s, [c], s') && Appended(c).Some?
    ensures |s'.history| == |s.history| + 1 && s'.history[..|s.history|] == s.history
    ensures s'.history[|s.history|].payload == Appended(c).value
    ensures CountAttempts(s'.history, run) == CountAttempts(s.history, run) + StartsIn(Appended(c).value, run)
    ensures CountCalls(s'.history, run) == CountCalls(s.history, run) + CallsIn(Appended(c).value, run)
    ensures Spent(s'.history, run) == Spent(s.history, run) + TokensIn(Appended(c).value, run)
  {
    var last := ApplyAll(s, s.revision, [c]).value;
    ApplyOne(s, s.revision, c);
    ChangeAppends(s, s.revision, c, last);
    ChangesCount(s, s.revision, [c], last, run);
    SingleCount(c, run);
  }

  lemma {:induction false} CompletionAdds(s: Snapshot, m: Message, asked: seq<Asked>, s': Snapshot, run: RunID)
    requires Commits(s, Expand(CompletionOps(m, asked)), s') && OfRun(asked, run)
    ensures CountAttempts(s'.history, run) == CountAttempts(s.history, run)
    ensures CountCalls(s'.history, run) == CountCalls(s.history, run) + |asked|
    ensures Spent(s'.history, run) == Spent(s.history, run)
  {
    CompletionCount(m, asked, run);
    var changes := Expand(CompletionOps(m, asked));
    ChangesCount(s, s.revision, changes, ApplyAll(s, s.revision, changes).value, run);
  }

  lemma {:induction false} LimitAdds(s: Snapshot, s': Snapshot, limit: Limit, run: RunID)
    requires |s'.history| == |s.history| + 1 && s'.history[..|s.history|] == s.history
    requires s'.history[|s.history|].payload == LimitPayload(limit)
    ensures CountCalls(s'.history, run) == CountCalls(s.history, run)
  {
    assert s'.history == s.history + [s'.history[|s.history|]];
    CountSnoc(s.history, s'.history[|s.history|], run);
  }

  lemma {:induction false} RecoveryCounts(s: Snapshot, order: seq<AttemptID>, now: Time, run: RunID)
    requires forall i :: 0 <= i < |order| ==> order[i] in ScanOf(s.history).attempts.starts
    ensures var r := Recovered(s, order, now);
            && CountAttempts(r.history, run) == CountAttempts(s.history, run)
            && CountCalls(r.history, run) == CountCalls(s.history, run)
            && (LimitsTrue(s.history) ==> LimitsTrue(r.history))
  {
    RecoveryOnlyEnds(s, order, now);
    if LimitsTrue(s.history) {
      EndsKeepLimits(s.history, Recovered(s, order, now).history);
    }
    EndsCount(s.history, Recovered(s, order, now).history, run);
  }
}
