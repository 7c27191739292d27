/** The limits of one Run over whole traces: attempts, completions, other commits, crashes and restores in any order,
    each commit acknowledged, lost, or durable although it was reported as failed (standardagent/runtime_execution.go
    attempt recorder, commitCompletion, restorePreparedRun; session/file_store.go persistLocked).

    A commit that is durable without being acknowledged is not counted by the Runtime, so its counters then lag behind
    the durable counts until the next restore. The main result says by exactly how much. */
module LimitTraces {
  import opened SessionTypes
  import opened HistoryChecker
  import opened Transactions
  import opened Recovery
  import opened AggregateInvariant
  import opened RuntimeCommits
  import opened RunLimits
  import opened SearchAgreement
  import SessionRuns
  import GuardGaps

  /** The Run and its maxima; a maximum that is not positive is none. */
  datatype Caps = Caps(run: RunID, attempts: int, calls: int)

  /** The aggregate, the Runtime's counters, and whether the Run has failed at a completion. */
  datatype Tally = Tally(store: Snapshot, attempts: int, calls: int, tokens: int, failing: bool)

  datatype Fate = Acknowledged | Unheard | Lost

  datatype Move =
    | Admit(attempt: Attempt)
    | Finish(attempt: Attempt)
    | Complete(message: Message, asked: seq<Asked>)
    | Other(changes: seq<Change>)
    | Restore

  datatype Turn = Turn(move: Move, fate: Fate)

  /** What the callers see to. After a completion whose commit failed, the Run ends without another one. */
  predicate Allowed(caps: Caps, t: Tally, move: Move) {
    match move
    case Admit(a) => a.run == caps.run && a.kind == AttemptStarted
    case Finish(a) => a.run == caps.run && a.kind != AttemptStarted
    case Complete(_, asked) => OfRun(asked, caps.run) && !t.failing
    case Other(changes) =>
      StartsOf(changes, caps.run) == 0 && CallsMade(changes, caps.run) == 0 && TokensOf(changes, caps.run) == 0
    case Restore => true
  }

  /** The maximum is reached, or the batch does not fit. */
  predicate Exceeds(caps: Caps, t: Tally, move: Move) {
    match move
    case Admit(_) => caps.attempts > 0 && t.attempts >= caps.attempts
    case Complete(_, asked) => caps.calls > 0 && |asked| > caps.calls - t.calls
    case _ => false
  }

  /** The limit fact that is committed instead. */
  function LimitOf(caps: Caps, t: Tally, move: Move): (l: Limit)
    requires Exceeds(caps, t, move)
  {
    match move
    case Admit(a) => Limit(caps.run, a.step, LimitModelAttempts, t.attempts, caps.attempts, 1, a.id, 0)
    case Complete(m, asked) =>
      var trigger := if asked == [] then 0 else asked[0].call.id;
      Limit(caps.run, m.step, LimitToolCalls, t.calls, caps.calls, |asked|, 0, trigger)
  }

  function ChangesOf(caps: Caps, t: Tally, move: Move): (r: seq<Change>) {
    if Exceeds(caps, t, move) then [AppendRunLimitExceeded(LimitOf(caps, t, move))]
    else match move
      case Admit(a) => [AppendModelAttempt(a)]
      case Finish(a) => [AppendModelAttempt(a)]
      case Complete(m, asked) => Expand(CompletionOps(m, asked))
      case Other(changes) => changes
      case Restore => []
  }

  ghost predicate Steps(caps: Caps, t: Tally, turn: Turn, t': Tally) {
    && Allowed(caps, t, turn.move)
    && if turn.move.Restore? then
         && Recovers(t.store, t'.store) && !t'.failing
         && t'.attempts == CountAttempts(t'.store.history, caps.run)
         && t'.calls == CountCalls(t'.store.history, caps.run) && t'.tokens == Spent(t'.store.history, caps.run)
       else if turn.fate.Lost? then t' == t
       else
         var changes := ChangesOf(caps, t, turn.move);
         && Commits(t.store, changes, t'.store)
         && t' == if turn.fate.Unheard? then t.(store := t'.store, failing := t.failing || turn.move.Complete?)
                  else Tally(t'.store, t.attempts + StartsOf(changes, caps.run), t.calls + CallsMade(changes, caps.run),
                             t.tokens + TokensOf(changes, caps.run), t.failing)
  }

  /** From the start of the Run on. */
  ghost predicate IsTrace(caps: Caps, tallies: seq<Tally>, turns: seq<Turn>) {
    && |tallies| == |turns| + 1
    && tallies[0].attempts == CountAttempts(tallies[0].store.history, caps.run) == 0
    && tallies[0].calls == CountCalls(tallies[0].store.history, caps.run) == 0
    && tallies[0].tokens == Spent(tallies[0].store.history, caps.run) == 0
    && LimitsTrue(tallies[0].store.history)
    && forall k :: 0 <= k < |turns| ==> Steps(caps, tallies[k], turns[k], tallies[k + 1])
  }

  // ---------------------------------------------------------------- what was durable and not heard of

  datatype Missed = Missed(attempts: nat, calls: nat, tokens: int)

  const Nothing := Missed(0, 0, 0)

  function MissedBy(caps: Caps, t: Tally, turn: Turn): (r: Missed) {
    var changes := ChangesOf(caps, t, turn.move);
    if turn.move.Restore? || !turn.fate.Unheard? then Nothing
    else Missed(StartsOf(changes, caps.run), CallsMade(changes, caps.run), TokensOf(changes, caps.run))
  }

  function Plus(a: Missed, b: Missed): (r: Missed) {
    Missed(a.attempts + b.attempts, a.calls + b.calls, a.tokens + b.tokens)
  }

  /** Since the last restore before turn `k`. */
  function MissedSince(caps: Caps, tallies: seq<Tally>, turns: seq<Turn>, k: nat): (r: Missed)
    requires k <= |turns| < |tallies|
  {
    if k == 0 || turns[k - 1].move.Restore? then Nothing
    else Plus(MissedSince(caps, tallies, turns, k - 1), MissedBy(caps, tallies[k - 1], turns[k - 1]))
  }

  /** Attempts started without being counted, over the whole trace. */
  function MissedEver(caps: Caps, tallies: seq<Tally>, turns: seq<Turn>, k: nat): (r: nat)
    requires k <= |turns| < |tallies|
  {
    if k == 0 then 0
    else MissedEver(caps, tallies, turns, k - 1) + MissedBy(caps, tallies[k - 1], turns[k - 1]).attempts
  }

  // ---------------------------------------------------------------- the invariant

  /** The durable counts are what the counters say and what they missed, and they are within the maxima but for attempts
      that were never counted. */
  ghost predicate Follows(caps: Caps, t: Tally, missed: Missed, ever: nat) {
    && CountAttempts(t.store.history, caps.run) == t.attempts + missed.attempts
    && CountCalls(t.store.history, caps.run) == t.calls + missed.calls
    && Spent(t.store.history, caps.run) == t.tokens + missed.tokens
    && (missed.calls > 0 ==> t.failing)
    && missed.attempts <= ever
    && (caps.attempts > 0 ==> CountAttempts(t.store.history, caps.run) <= caps.attempts + ever)
    && (caps.calls > 0 ==> CountCalls(t.store.history, caps.run) <= caps.calls)
    && LimitsTrue(t.store.history)
  }

  /** What a turn's commit adds to the counts. */
  lemma {:induction false} TurnCounts(caps: Caps, t: Tally, move: Move)
    requires Allowed(caps, t, move)
    ensures var cs := ChangesOf(caps, t, move);
            && (if Exceeds(caps, t, move) then
                  StartsOf(cs, caps.run) == 0 && CallsMade(cs, caps.run) == 0 && TokensOf(cs, caps.run) == 0
                else
                  && StartsOf(cs, caps.run) == (if move.Admit? then 1 else 0)
                  && CallsMade(cs, caps.run) == (if move.Complete? then |move.asked| else 0))
  {
    if Exceeds(caps, t, move) {
      SingleCount(AppendRunLimitExceeded(LimitOf(caps, t, move)), caps.run);
    } else {
      match move {
        case Admit(a) => SingleCount(AppendModelAttempt(a), caps.run);
        case Finish(a) => SingleCount(AppendModelAttempt(a), caps.run);
        case Complete(m, asked) => CompletionCount(m, asked, caps.run);
        case Other(_) =>
        case Restore =>
      }
    }
    hide Expand;
    hide CompletionOps;
  }

  lemma {:induction false} CommitCounts(s: Snapshot, changes: seq<Change>, s': Snapshot, run: RunID)
    requires Commits(s, changes, s') && LimitsTrue(s.history)
    ensures CountAttempts(s'.history, run) == CountAttempts(s.history, run) + StartsOf(changes, run)
    ensures CountCalls(s'.history, run) == CountCalls(s.history, run) + CallsMade(changes, run)
    ensures Spent(s'.history, run) == Spent(s.history, run) + TokensOf(changes, run)
    ensures LimitsTrue(s'.history)
  {
    var last := ApplyAll(s, s.revision, changes).value;
    hide LimitsTrue;
    ChangesCount(s, s.revision, changes, last, run);
    ChangesKeepLimits(s, s.revision, changes, last);
  }

  lemma {:induction false} RestoreCounts(s: Snapshot, s': Snapshot, run: RunID)
    requires Recovers(s, s') && LimitsTrue(s.history)
    ensures CountAttempts(s'.history, run) == CountAttempts(s.history, run)
    ensures CountCalls(s'.history, run) == CountCalls(s.history, run) && LimitsTrue(s'.history)
  {
    hide LimitsTrue;
    hide Recovered;
    hide ScanOf;
    var order, now :| RecoversWith(s, order, now, s');
    RecoveryCounts(s, order, now, run);
  }

  lemma {:induction false} TurnFollows(caps: Caps, t: Tally, turn: Turn, t': Tally, missed: Missed, ever: nat)
    requires Follows(caps, t, missed, ever) && Steps(caps, t, turn, t')
    ensures Follows(caps, t', if turn.move.Restore? then Nothing else Plus(missed, MissedBy(caps, t, turn)),
                    ever + MissedBy(caps, t, turn).attempts)
  {
    hide LimitsTrue;
    hide ChangesOf;
    hide Commits;
    hide Recovers;
    if turn.move.Restore? {
      RestoreCounts(t.store, t'.store, caps.run);
    } else if !turn.fate.Lost? {
      TurnCounts(caps, t, turn.move);
      CommitCounts(t.store, ChangesOf(caps, t, turn.move), t'.store, caps.run);
    }
  }

  /** Over every trace: the durable counts exceed the counters by exactly what was durable and not heard of since the
      last restore, calls never pass their maximum, attempts pass theirs by at most those that were never counted, and
      every limit fact carries the durable count at its place. */
  lemma {:induction false} TracesFollow(caps: Caps, tallies: seq<Tally>, turns: seq<Turn>, k: nat)
    requires IsTrace(caps, tallies, turns) && k < |tallies|
    ensures Follows(caps, tallies[k], MissedSince(caps, tallies, turns, k), MissedEver(caps, tallies, turns, k))
  {
    hide Follows;
    hide Steps;
    hide MissedBy;
    if k == 0 {
      StartFollows(caps, tallies[0]);
    } else {
      TracesFollow(caps, tallies, turns, k - 1);
      assert Steps(caps, tallies[k - 1], turns[k - 1], tallies[k - 1 + 1]);
      TurnFollows(caps, tallies[k - 1], turns[k - 1], tallies[k], MissedSince(caps, tallies, turns, k - 1),
                  MissedEver(caps, tallies, turns, k - 1));
    }
  }

  lemma {:induction false} StartFollows(caps: Caps, t: Tally)
    requires t.attempts == CountAttempts(t.store.history, caps.run) == 0
    requires t.calls == CountCalls(t.store.history, caps.run) == 0
    requires t.tokens == Spent(t.store.history, caps.run) == 0 && LimitsTrue(t.store.history)
    ensures Follows(caps, t, Nothing, 0)
  {
  }

  /** In particular, a counter is the durable count if and only if nothing of its kind was missed since the last
      restore, and without missed attempts both maxima hold at every point. */
  lemma {:induction false} CountersAreDurable(caps: Caps, tallies: seq<Tally>, turns: seq<Turn>, k: nat)
    requires IsTrace(caps, tallies, turns) && k < |tallies|
    ensures var t, missed := tallies[k], MissedSince(caps, tallies, turns, k);
            && (t.attempts == CountAttempts(t.store.history, caps.run) <==> missed.attempts == 0)
            && (t.calls == CountCalls(t.store.history, caps.run) <==> missed.calls == 0)
            && (caps.calls > 0 ==> CountCalls(t.store.history, caps.run) <= caps.calls)
            && (caps.attempts > 0 && MissedEver(caps, tallies, turns, k) == 0 ==>
                  CountAttempts(t.store.history, caps.run) <= caps.attempts)
  {
    TracesFollow(caps, tallies, turns, k);
    hide IsTrace;
    hide LimitsTrue;
  }

  /** A batch that is rejected has a first call for its limit fact to name. */
  lemma {:induction false} LimitHasTrigger(caps: Caps, tallies: seq<Tally>, turns: seq<Turn>, k: nat, m: Message,
                                           asked: seq<Asked>)
    requires IsTrace(caps, tallies, turns) && k < |tallies| && Exceeds(caps, tallies[k], Complete(m, asked))
    ensures asked != []
  {
    TracesFollow(caps, tallies, turns, k);
    hide IsTrace;
    hide LimitsTrue;
  }

  // ---------------------------------------------------------------- an attempt that was never counted

  /** A first attempt of the Run, or a second one. */
  function AttemptOf(id: AttemptID): (a: Attempt) {
    GuardGaps.Attempt3.(id := id)
  }

  /** An attempt start that the Store accepts in the first Run. */
  lemma {:induction false} AttemptCommits(s: Snapshot, id: AttemptID) returns (s': Snapshot)
    requires Inv(s) && s.running && s.activeRun == 1 && s.session.id == 1 && id != 0
    requires ScanOf(s.history).runs == Runs(map[1 := GuardGaps.StartOf(1)], {})
    requires id !in ScanOf(s.history).attempts.starts && id !in ScanOf(s.history).attempts.terminals
    ensures Commits(s, [AppendModelAttempt(AttemptOf(id))], s') && Inv(s')
    ensures s'.running && s'.activeRun == 1 && s'.session.id == 1
    ensures ScanOf(s'.history).runs == ScanOf(s.history).runs
    ensures ScanOf(s'.history).attempts ==
            ScanOf(s.history).attempts.(starts := ScanOf(s.history).attempts.starts[id := AttemptOf(id)])
  {
    hide *;
    var a := AttemptOf(id);
    var last := AttemptAdmitted(s, id);
    ClosesAgain(s, last);
    AttemptKeepsCore(s, a, last);
    GuardGaps.CommitsOne(s, AppendModelAttempt(a), last);
    s' := last.(revision := last.revision + 1);
    InvAgain(s, last, s');
  }

  lemma {:induction false} AttemptAdmitted(s: Snapshot, id: AttemptID) returns (last: Snapshot)
    requires Inv(s) && s.running && s.activeRun == 1 && s.session.id == 1 && id != 0
    requires ScanOf(s.history).runs == Runs(map[1 := GuardGaps.StartOf(1)], {})
    requires id !in ScanOf(s.history).attempts.starts && id !in ScanOf(s.history).attempts.terminals
    ensures AppendAttempt(s, AttemptOf(id)) == Ok(last) && last == s.(history := last.history)
    ensures ApplyChange(s, s.revision, AppendModelAttempt(AttemptOf(id))) == Ok(last) && Core(s)
    ensures ChangeValid(AppendModelAttempt(AttemptOf(id)), s.session.id)
    ensures ScanOf(last.history).runs == ScanOf(s.history).runs
    ensures ScanOf(last.history).attempts ==
            ScanOf(s.history).attempts.(starts := ScanOf(s.history).attempts.starts[id := AttemptOf(id)])
  {
    var a := AttemptOf(id);
    RunSearch(s.history, 1);
    AttemptSearch(s.history, id);
    last := AppendAttempt(s, a).value;
    assert a.Valid() && AppendAttempt(s, a) == Ok(last);
    assert HistoryOk(s) && ForkOk(s);
    hide Inv;
    ScanSnoc(1, s.history, Envelope(s.history, s.session.id, NoFact, AttemptPayload(a)));
    hide ScanOf;
    hide FindRun;
    hide FindAttempt;
  }

  lemma {:induction false} ClosesAgain(s: Snapshot, last: Snapshot)
    requires Inv(s) && s.running && last == s.(history := last.history)
    ensures Closable(last)
  {
  }

  lemma {:induction false} InvAgain(s: Snapshot, last: Snapshot, s': Snapshot)
    requires Inv(s) && last == s.(history := last.history) && Core(last) && s' == last.(revision := last.revision + 1)
    ensures Inv(s')
  {
    SessionRuns.CoreAtNextRevision(last);
  }

  /** With at most one attempt allowed, a start that is durable and not heard of is followed by another: the counter
      says one, the Session two. */
  lemma {:induction false} UnheardAttemptPasses() returns (caps: Caps, tallies: seq<Tally>, turns: seq<Turn>)
    ensures IsTrace(caps, tallies, turns) && caps.attempts == 1 && |turns| == 2
    ensures tallies[2].attempts == 1 && CountAttempts(tallies[2].store.history, caps.run) == 2
  {
    hide *;
    var s := GuardGaps.StartedSession();
    GuardGaps.StartedScan(s);
    NoneYet(s);
    var s1 := AttemptCommits(s, 3);
    var s2 := AttemptCommits(s1, 4);
    caps := Caps(1, 1, 0);
    var first, second := Turn(Admit(AttemptOf(3)), Unheard), Turn(Admit(AttemptOf(4)), Acknowledged);
    var t, t1, t2 := Tally(s, 0, 0, 0, false), Tally(s1, 0, 0, 0, false), Tally(s2, 1, 0, 0, false);
    OneStart(3);
    OneStart(4);
    AdmitSteps(caps, t, first, t1);
    AdmitSteps(caps, t1, second, t2);
    CommitCounts(s, [AppendModelAttempt(AttemptOf(3))], s1, 1);
    CommitCounts(s1, [AppendModelAttempt(AttemptOf(4))], s2, 1);
    tallies, turns := [t, t1, t2], [first, second];
    TwoTurns(caps, t, first, t1, second, t2);
  }

  lemma {:induction false} OneStart(id: AttemptID)
    ensures var cs := [AppendModelAttempt(AttemptOf(id))];
            StartsOf(cs, 1) == 1 && CallsMade(cs, 1) == 0 && TokensOf(cs, 1) == 0
    ensures AttemptOf(id).run == 1 && AttemptOf(id).kind == AttemptStarted
  {
    SingleCount(AppendModelAttempt(AttemptOf(id)), 1);
  }

  lemma {:induction false} NoneYet(s: Snapshot)
    requires |s.history| == 1 && s.history[0].payload == RunPayload(GuardGaps.StartOf(1))
    ensures CountAttempts(s.history, 1) == 0 && CountCalls(s.history, 1) == 0 && Spent(s.history, 1) == 0
    ensures LimitsTrue(s.history)
  {
    assert s.history[..0] == [];
  }

  lemma {:induction false} AdmitSteps(caps: Caps, t: Tally, turn: Turn, t': Tally)
    requires turn.move.Admit? && turn.move.attempt.run == caps.run == 1 && turn.move.attempt.kind == AttemptStarted
    requires t.attempts < caps.attempts && !turn.fate.Lost?
    requires Commits(t.store, [AppendModelAttempt(turn.move.attempt)], t'.store)
    requires t' == t.(store := t'.store, attempts := t.attempts + if turn.fate.Unheard? then 0 else 1)
    ensures Steps(caps, t, turn, t')
  {
    SingleCount(AppendModelAttempt(turn.move.attempt), caps.run);
    hide Commits;
  }

  lemma {:induction false} TwoTurns(caps: Caps, t: Tally, a: Turn, t1: Tally, b: Turn, t2: Tally)
    requires t.attempts == CountAttempts(t.store.history, caps.run) == 0
    requires t.calls == CountCalls(t.store.history, caps.run) == 0
    requires t.tokens == Spent(t.store.history, caps.run) == 0 && LimitsTrue(t.store.history)
    requires Steps(caps, t, a, t1) && Steps(caps, t1, b, t2)
    ensures IsTrace(caps, [t, t1, t2], [a, b])
  {
    hide Steps;
    hide LimitsTrue;
  }
}
