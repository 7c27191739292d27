/** The Runtime's loop around its Session (standardagent/runtime_execution.go restorePreparedRun, runLoopWithPrepared,
    Act, requestModel, continueAfterCompletionOnce, commitToolResults, finishRun, recoverAfterRunFailureLocked;
    runtime_lifecycle.go finishOpen; tool_dispatcher.go).

    The world is the durable aggregate together with the place the loop is at. From that place alone follows what no
    guard of the Store checks: a message is only written when every call is answered, a batch of results answers every
    open call, and a Run hands over to the next one with nothing unfinished. One Runtime at a time works on the
    Session. */
module RuntimeLoop {
  import opened SessionTypes
  import opened HistoryChecker
  import opened Transactions
  import opened Recovery
  import opened AggregateInvariant
  import opened RecoveryKeepsInvariant
  import opened SessionRuns
  import opened ModelProtocol
  import opened ProtocolHistory
  import opened RuntimeCommits
  import opened ToolRounds
  import ExtensionJournal
  import HookSettling
  import GatedInput
  import HookContexts
  import ForkRenaming
  import Forking

  // ---------------------------------------------------------------- the dispatcher

  const InvalidToolResult := 1

  /** What the dispatcher reports for a call: the Tool's own result if it is one, and a failure otherwise. */
  function Reported(call: ToolCall, returned: ToolResult): (r: ToolResult) {
    if returned.call == call.id && returned.status != ResultUnknown && returned.Valid() then returned
    else ToolResult(call.id, ResultFailed, 0, Some(InvalidToolResult))
  }

  function ReportedAll(calls: seq<ToolCall>, returned: seq<ToolResult>): (r: seq<ToolResult>)
    requires |returned| == |calls|
    ensures |r| == |calls| && forall i :: 0 <= i < |r| ==> r[i].call == calls[i].id
    ensures forall i :: 0 <= i < |r| ==>
              if returned[i].call == calls[i].id && returned[i].status != ResultUnknown && returned[i].Valid() then
                r[i] == returned[i]
              else r[i].status == ResultFailed
  {
    seq(|calls|, i requires 0 <= i < |calls| => Reported(calls[i], returned[i]))
  }

  // ---------------------------------------------------------------- the world

  /** Where the Runtime is. `Said` lies between a completion without calls and what follows from it; `Failing` between
      the failure of a Run and its end; `Opening` between the Store's Recover and restorePreparedRun. */
  datatype Phase =
    | Down
    | Opening
    | Idle
    | Ready
    | Said
    | Continuing
    | Completed
    | Tools(calls: seq<ToolCall>)
    | Failing

  datatype World = World(store: Snapshot, phase: Phase)

  predicate Running(p: Phase) {
    !p.Down? && !p.Opening? && !p.Idle?
  }

  ghost predicate Fits(w: World) {
    match w.phase
    case Opening => forall i :: 0 <= i < |w.store.journal| ==> w.store.journal[i].status != JournalPending
    case Tools(calls) => OpenCalls(w.store.history) == IdsOf(calls)
    case Failing => true
    case Down => true
    case Idle => true
    case _ => OpenCalls(w.store.history) == {}
  }

  ghost predicate Good(w: World) {
    Inv(w.store) && Readable(w.store.history) && Fits(w)
  }

  // ---------------------------------------------------------------- restore

  function PreparedCalls(journal: seq<JournalEntry>, run: RunID): (r: seq<ToolCall>) {
    if journal == [] then []
    else
      var e := journal[|journal| - 1];
      PreparedCalls(journal[..|journal| - 1], run) + if PreparedTool(e, run) then [e.call] else []
  }

  predicate SameStep(journal: seq<JournalEntry>, run: RunID) {
    forall i, j :: 0 <= i < j < |journal| && PreparedTool(journal[i], run) && PreparedTool(journal[j], run) ==>
      journal[i].step == journal[j].step
  }

  /** Where restorePreparedRun leaves the Runtime; `Down` where it refuses to open. */
  function Restored(s: Snapshot): (r: Phase) {
    var calls, gates := PreparedCalls(s.journal, s.activeRun), HasResumableGate(s.extensions, s.activeRun);
    if !s.running then Idle
    else if !SameStep(s.journal, s.activeRun) || (calls != [] && gates) then Down
    else if FindRun(s.history, s.activeRun, true).None? then Down
    else if Stopped(s.history, s.activeRun) then if calls != [] || gates then Down else Failing
    else if calls == [] && !gates then Down
    else if gates then Said
    else Tools(calls)
  }

  ghost predicate Prepares(journal: seq<JournalEntry>, run: RunID, id: ToolCallID) {
    exists i :: 0 <= i < |journal| && PreparedTool(journal[i], run) && journal[i].call.id == id
  }

  lemma {:induction false} PreparesSnoc(journal: seq<JournalEntry>, run: RunID, id: ToolCallID)
    requires journal != []
    ensures var e := journal[|journal| - 1];
            Prepares(journal, run, id) <==>
              Prepares(journal[..|journal| - 1], run, id) || (PreparedTool(e, run) && e.call.id == id)
  {
    var front := journal[..|journal| - 1];
    assert forall i :: 0 <= i < |front| ==> front[i] == journal[i];
    if Prepares(front, run, id) {
      var i :| 0 <= i < |front| && PreparedTool(front[i], run) && front[i].call.id == id;
      assert PreparedTool(journal[i], run) && journal[i].call.id == id;
    }
  }

  lemma {:induction false} PreparedAre(journal: seq<JournalEntry>, run: RunID, id: ToolCallID)
    ensures id in IdsOf(PreparedCalls(journal, run)) <==> Prepares(journal, run, id)
  {
    if journal != [] {
      hide Prepares;
      hide IdsOf;
      var front, e := journal[..|journal| - 1], journal[|journal| - 1];
      PreparedAre(front, run, id);
      PreparesSnoc(journal, run, id);
      IdsSnoc(PreparedCalls(front, run), e.call);
      assert PreparedCalls(front, run) + [] == PreparedCalls(front, run);
    }
  }

  /** After a recovery the prepared calls of the active Run are exactly the open calls. */
  lemma {:induction false} PreparedAreOpen(s: Snapshot)
    requires Core(s) && forall i :: 0 <= i < |s.journal| ==> s.journal[i].status != JournalPending
    ensures OpenCalls(s.history) == IdsOf(PreparedCalls(s.journal, s.activeRun))
  {
    var t, calls := ScanOf(s.history).talk, IdsOf(PreparedCalls(s.journal, s.activeRun));
    assert JournalAccepted(t, s.journal);
    forall id: ToolCallID ensures id in OpenCalls(s.history) <==> id in calls {
      PreparedAre(s.journal, s.activeRun, id);
      if id in OpenCalls(s.history) {
        assert HasUnfinished(s.journal, id);
        var i :| 0 <= i < |s.journal| && s.journal[i].call.id == id && Unfinished(s.journal[i].status);
        assert PreparedTool(s.journal[i], s.activeRun);
      }
      if id in calls {
        assert Prepares(s.journal, s.activeRun, id);
        var i :| 0 <= i < |s.journal| && PreparedTool(s.journal[i], s.activeRun) && s.journal[i].call.id == id;
        assert EntryAccepted(t, s.journal[i]);
      }
    }
  }

  // What restore looks at, in the journals and in History.

  predicate IsPrepared(s: Snapshot, i: int) {
    0 <= i < |s.journal| && s.journal[i].status.JournalPrepared? && s.journal[i].run == s.activeRun
  }

  ghost predicate SomePrepared(s: Snapshot) {
    exists i :: IsPrepared(s, i)
  }

  ghost predicate PreparedInOneStep(s: Snapshot) {
    forall i, j :: IsPrepared(s, i) && IsPrepared(s, j) ==> s.journal[i].step == s.journal[j].step
  }

  /** A completion gate of the active Run that was not started, or whose answer has not taken effect. */
  ghost predicate GatesOpen(s: Snapshot) {
    exists i :: 0 <= i < |s.extensions|
      && s.extensions[i].identity.boundary.BoundaryCompletion? && s.extensions[i].identity.run == s.activeRun
      && (s.extensions[i].status.InvocationPrepared?
          || (!s.extensions[i].status.InvocationPending? && s.extensions[i].effect.EffectPending?))
  }

  ghost predicate StartTold(s: Snapshot) {
    exists i :: 0 <= i < |s.history| && s.history[i].payload.RunPayload?
      && s.history[i].payload.run.run == s.activeRun && s.history[i].payload.run.kind.RunStarted?
  }

  ghost predicate StopTold(s: Snapshot) {
    exists i :: 0 <= i < |s.history|
      && ((s.history[i].payload.BudgetPayload? && s.history[i].payload.budget.run == s.activeRun)
          || (s.history[i].payload.LimitPayload? && s.history[i].payload.limit.run == s.activeRun))
  }

  /** The calls of the prepared entries, all of them, in journal order. */
  ghost predicate PreparedInOrder(s: Snapshot, calls: seq<ToolCall>, at: seq<nat>) {
    && |at| == |calls|
    && (forall k :: 0 <= k < |at| ==> IsPrepared(s, at[k]) && calls[k] == s.journal[at[k]].call)
    && (forall k, l :: 0 <= k < l < |at| ==> at[k] < at[l])
    && (forall i: nat :: IsPrepared(s, i) ==> i in at)
  }

  /** The prepared entries among the first `n`, in order. */
  ghost predicate OrderUpTo(s: Snapshot, n: nat, calls: seq<ToolCall>, at: seq<nat>) {
    && n <= |s.journal| && |at| == |calls|
    && (forall k :: 0 <= k < |at| ==> at[k] < n && IsPrepared(s, at[k]) && calls[k] == s.journal[at[k]].call)
    && (forall k, l :: 0 <= k < l < |at| ==> at[k] < at[l])
    && (forall i: nat :: i < n && IsPrepared(s, i) ==> i in at)
  }

  lemma {:induction false} OrderSnoc(s: Snapshot, n: nat, calls: seq<ToolCall>, at: seq<nat>)
    requires OrderUpTo(s, n, calls, at) && n < |s.journal|
    ensures if IsPrepared(s, n) then OrderUpTo(s, n + 1, calls + [s.journal[n].call], at + [n])
            else OrderUpTo(s, n + 1, calls, at)
  {
    var more := at + [n];
    assert more[|at|] == n;
    forall i: nat | i < n && IsPrepared(s, i) ensures i in more {
      assert i in at;
    }
    hide IsPrepared;
  }

  lemma {:induction false} PreparedOrder(s: Snapshot, n: nat) returns (at: seq<nat>)
    requires n <= |s.journal|
    ensures OrderUpTo(s, n, PreparedCalls(s.journal[..n], s.activeRun), at)
  {
    if n == 0 {
      at := [];
    } else {
      assert s.journal[..n][..n - 1] == s.journal[..n - 1];
      var before := PreparedOrder(s, n - 1);
      var calls := PreparedCalls(s.journal[..n - 1], s.activeRun);
      assert calls + [] == calls;
      OrderSnoc(s, n - 1, calls, before);
      at := if IsPrepared(s, n - 1) then before + [n - 1] else before;
      hide OrderUpTo;
    }
  }

  lemma {:induction false} StartSearch(h: seq<HistoryFact>, run: RunID)
    ensures FindRun(h, run, true).Some? <==>
            exists i :: 0 <= i < |h| && h[i].payload.RunPayload? && h[i].payload.run.run == run
              && h[i].payload.run.kind.RunStarted?
  {
    if h != [] {
      var front, n := h[..|h| - 1], |h| - 1;
      StartSearch(front, run);
      assert forall i :: 0 <= i < n ==> front[i] == h[i];
    }
  }

  lemma {:induction false} NonePrepared(s: Snapshot)
    ensures PreparedCalls(s.journal, s.activeRun) == [] <==> !SomePrepared(s)
  {
    var at := PreparedOrder(s, |s.journal|);
    assert s.journal[..|s.journal|] == s.journal;
    if at != [] {
      assert IsPrepared(s, at[0]);
    }
    if SomePrepared(s) {
      var i :| IsPrepared(s, i);
      assert i in at;
    }
  }

  /** Where a restored Runtime goes on, from journals and History alone: with the prepared calls, in journal order,
      when there are some, in one Step, of a Run that has started and not been stopped, and no completion gate is
      open; at its gates when there are only those; to its end when it was stopped and nothing is left; nowhere in an
      idle Session; and in every other case it refuses to open. */
  lemma {:induction false} RestoredExact(s: Snapshot)
    ensures Restored(s).Tools? <==>
            s.running && StartTold(s) && !StopTold(s) && SomePrepared(s) && PreparedInOneStep(s) && !GatesOpen(s)
    ensures Restored(s).Tools? ==> exists at :: PreparedInOrder(s, Restored(s).calls, at)
    ensures Restored(s).Said? <==> s.running && StartTold(s) && !StopTold(s) && !SomePrepared(s) && GatesOpen(s)
    ensures Restored(s).Failing? <==> s.running && StartTold(s) && StopTold(s) && !SomePrepared(s) && !GatesOpen(s)
    ensures Restored(s).Idle? <==> !s.running
    ensures Restored(s).Down? <==>
            s.running && (|| !StartTold(s) || !PreparedInOneStep(s) || (SomePrepared(s) && GatesOpen(s))
                          || (StopTold(s) && (SomePrepared(s) || GatesOpen(s)))
                          || (!StopTold(s) && !SomePrepared(s) && !GatesOpen(s)))
  {
    StartSearch(s.history, s.activeRun);
    NonePrepared(s);
    StepsAgree(s);
    SearchesAgree(s);
    if Restored(s).Tools? {
      var at := PreparedOrder(s, |s.journal|);
      assert s.journal[..|s.journal|] == s.journal;
      assert PreparedInOrder(s, Restored(s).calls, at);
    }
    hide PreparedCalls;
    hide SameStep;
    hide HasResumableGate;
    hide Stopped;
    hide FindRun;
    hide GatesOpen;
    hide StopTold;
    hide SomePrepared;
    hide PreparedInOneStep;
    hide PreparedInOrder;
  }

  lemma {:induction false} StepsAgree(s: Snapshot)
    ensures SameStep(s.journal, s.activeRun) <==> PreparedInOneStep(s)
  {
    assert forall i :: 0 <= i < |s.journal| ==> (PreparedTool(s.journal[i], s.activeRun) <==> IsPrepared(s, i));
    if SameStep(s.journal, s.activeRun) {
      forall i, j | IsPrepared(s, i) && IsPrepared(s, j) ensures s.journal[i].step == s.journal[j].step {
        if i < j {
          assert PreparedTool(s.journal[i], s.activeRun) && PreparedTool(s.journal[j], s.activeRun);
        } else if j < i {
          assert PreparedTool(s.journal[j], s.activeRun) && PreparedTool(s.journal[i], s.activeRun);
        }
      }
    }
  }

  lemma {:induction false} SearchesAgree(s: Snapshot)
    ensures HasResumableGate(s.extensions, s.activeRun) <==> GatesOpen(s)
    ensures Stopped(s.history, s.activeRun) <==> StopTold(s)
  {
    assert forall i :: 0 <= i < |s.extensions| ==>
      (ResumableGate(s.extensions[i], s.activeRun) <==>
       && s.extensions[i].identity.boundary.BoundaryCompletion? && s.extensions[i].identity.run == s.activeRun
       && (s.extensions[i].status.InvocationPrepared?
           || (!s.extensions[i].status.InvocationPending? && s.extensions[i].effect.EffectPending?)));
  }

  /** restorePreparedRun: the loop over the tool journal, and what it decides. */
  method RestorePreparedRun(s: Snapshot) returns (phase: Phase)
    requires forall i :: 0 <= i < |s.journal| ==> s.journal[i].Valid(s.session.id)
    ensures phase == Restored(s)
    ensures phase.Tools? <==>
            s.running && StartTold(s) && !StopTold(s) && SomePrepared(s) && PreparedInOneStep(s) && !GatesOpen(s)
    ensures phase.Tools? ==> exists at :: PreparedInOrder(s, phase.calls, at)
    ensures phase.Said? <==> s.running && StartTold(s) && !StopTold(s) && !SomePrepared(s) && GatesOpen(s)
    ensures phase.Failing? <==> s.running && StartTold(s) && StopTold(s) && !SomePrepared(s) && !GatesOpen(s)
    ensures phase.Idle? <==> !s.running
    ensures !phase.Ready? && !phase.Continuing? && !phase.Completed? && !phase.Opening?
  {
    RestoredExact(s);
    hide StartTold;
    hide StopTold;
    hide SomePrepared;
    hide PreparedInOneStep;
    hide GatesOpen;
    hide PreparedInOrder;
    phase := RestoreRun(s);
  }

  /** The loop over the journal, and what follows from the prepared calls it collects. */
  method RestoreRun(s: Snapshot) returns (phase: Phase)
    requires forall i :: 0 <= i < |s.journal| ==> s.journal[i].Valid(s.session.id)
    ensures phase == Restored(s)
  {
    if !s.running { return Idle; }
    var run := s.activeRun;
    var calls: seq<ToolCall>, step: StepID := [], 0;
    InStepStart(s.journal, run);
    for i := 0 to |s.journal|
      invariant calls == PreparedCalls(s.journal[..i], run) && InStep(s.journal, i, run, step)
    {
      hide *;
      InStepNext(s.journal, i, run, step, s.session.id);
      var e := s.journal[i];
      if !PreparedTool(e, run) { continue; }
      if step != 0 && step != e.step {
        RestoredIs(s);
        return Down;
      }
      step, calls := e.step, calls + [e.call];
    }
    hide *;
    RestoredIs(s);
    InStepEnd(s.journal, run, step);
    var gates := HasResumableGate(s.extensions, run);
    if |calls| > 0 && gates { return Down; }
    if FindRun(s.history, run, true).None? { return Down; }
    if Stopped(s.history, run) { return if |calls| > 0 || gates then Down else Failing; }
    if |calls| == 0 && !gates { return Down; }
    return if gates then Said else Tools(calls);
  }

  lemma {:induction false} RestoredIs(s: Snapshot)
    ensures var calls, gates := PreparedCalls(s.journal, s.activeRun), HasResumableGate(s.extensions, s.activeRun);
            Restored(s) ==
            if !s.running then Idle
            else if !SameStep(s.journal, s.activeRun) || (calls != [] && gates) then Down
            else if FindRun(s.history, s.activeRun, true).None? then Down
            else if Stopped(s.history, s.activeRun) then if calls != [] || gates then Down else Failing
            else if calls == [] && !gates then Down
            else if gates then Said
            else Tools(calls)
  {
  }

  /** The prepared entries among the first `n` are of this Step; there is none while it is empty. */
  ghost predicate InStep(journal: seq<JournalEntry>, n: nat, run: RunID, step: StepID) {
    && n <= |journal|
    && (step == 0 <==> forall k :: 0 <= k < n ==> !PreparedTool(journal[k], run))
    && forall k :: 0 <= k < n && PreparedTool(journal[k], run) ==> journal[k].step == step
  }

  lemma {:induction false} InStepStart(journal: seq<JournalEntry>, run: RunID)
    ensures InStep(journal, 0, run, 0) && PreparedCalls(journal[..0], run) == []
  {
  }

  lemma {:induction false} InStepNext(journal: seq<JournalEntry>, n: nat, run: RunID, step: StepID, sid: SessionID)
    requires n < |journal| && InStep(journal, n, run, step) && journal[n].Valid(sid)
    ensures var e, calls := journal[n], PreparedCalls(journal[..n + 1], run);
            if !PreparedTool(e, run) then
              InStep(journal, n + 1, run, step) && calls == PreparedCalls(journal[..n], run)
            else
              && calls == PreparedCalls(journal[..n], run) + [e.call]
              && if step != 0 && step != e.step then !SameStep(journal, run) else InStep(journal, n + 1, run, e.step)
  {
    assert journal[..n + 1][..n] == journal[..n];
    if PreparedTool(journal[n], run) && step != 0 && step != journal[n].step {
      var k :| 0 <= k < n && PreparedTool(journal[k], run);
      assert journal[k].step != journal[n].step;
    }
  }

  lemma {:induction false} InStepEnd(journal: seq<JournalEntry>, run: RunID, step: StepID)
    requires InStep(journal, |journal|, run, step)
    ensures SameStep(journal, run) && journal[..|journal|] == journal
  {
  }

  // ---------------------------------------------------------------- moves

  /** The next Run a natural end hands over to. */
  datatype Handover = Handover(item: QueueItem, run: RunID, step: StepID)

  datatype Move =
    | Begin(item: QueueItem, run: RunID, step: StepID, enqueue: bool, marks: seq<Op>)
    | Ask(message: Message, asked: seq<Asked>)
    | Mark(call: ToolCall)
    | Answer(returned: seq<ToolResult>, reserved: seq<ExtensionEntry>, steers: seq<QueueItem>, run: RunID, step: StepID)
    | Follow(steers: seq<QueueItem>, proposals: seq<QueueItem>, run: RunID, step: StepID)
    | GatesContinue
    | EndNaturally
    | Advance
    | GiveUp
    | Complete(fact: RunFact, next: Option<Handover>)
    | Stop(held: seq<QueueItem>, fact: RunFact)
    | Write(ops: seq<Op>)
    | Limit(limit: Limit)
    | Crash
    | Resume
    | Restore
    | RepairRun(closed: bool)

  /** The guards of the Runtime itself: the state of the loop, and what its components hand it. */
  ghost predicate Enabled(w: World, move: Move) {
    match move
    case Begin(_, _, _, _, marks) => w.phase.Idle? && forall op :: op in marks ==> Quiet(op)
    case Ask(m, asked) => w.phase.Ready? && AsksFor(asked, m)
    case Mark(call) => w.phase.Tools? && call in w.phase.calls
    case Answer(returned, reserved, _, _, _) => w.phase.Tools? && |returned| == |w.phase.calls| && Reserved(reserved)
    case Follow(_, _, _, _) => w.phase.Said?
    case GatesContinue => w.phase.Said?
    case EndNaturally => w.phase.Said?
    case Advance => w.phase.Continuing?
    case GiveUp => Running(w.phase)
    case Complete(f, _) => (w.phase.Ready? || w.phase.Continuing? || w.phase.Completed?) && f.kind == RunCompleted
    case Stop(_, f) => Running(w.phase) && f.kind != RunStarted && f.kind != RunCompleted
    case Write(ops) => !w.phase.Down? && forall op :: op in ops ==> Quiet(op)
    case Limit(l) => Running(w.phase) && Shaped(w.store, Plain(AppendRunLimitExceeded(l)))
    case Crash => true
    case Resume => w.phase.Down?
    case Restore => w.phase.Opening?
    case RepairRun(_) => w.phase.Failing?
  }

  /** The commit a move makes, if it makes one. */
  function OpsOf(w: World, move: Move): (r: Option<seq<Op>>) {
    match move
    case Begin(item, run, step, enqueue, marks) => Some(StartOps(w.store, item, run, step, enqueue) + marks)
    case Ask(m, asked) => Some(CompletionOps(m, asked))
    case Mark(call) => Some([MarkExecuting(call)])
    case Answer(returned, reserved, steers, run, step) =>
      if w.phase.Tools? && |returned| == |w.phase.calls| then
        Some(ResultOps(w.store, w.phase.calls, ReportedAll(w.phase.calls, returned), reserved, steers, run, step))
      else None
    case Follow(steers, proposals, run, step) =>
      Some(SteerOps(w.store, steers, run, step) + ProposalOps(w.store, proposals, run, step))
    case Complete(f, next) => Some(FinishOps([], f, NextOps(w.store, next)))
    case Stop(held, f) => Some(FinishOps(held, f, []))
    case Write(ops) => Some(ops)
    case Limit(l) => Some([Plain(AppendRunLimitExceeded(l))])
    case _ => None
  }

  function NextOps(s: Snapshot, next: Option<Handover>): (r: seq<Op>) {
    if next.None? then [] else StartOps(s, next.value.item, next.value.run, next.value.step, false)
  }

  /** Where the loop goes. A commit that became durable but was reported as failed is not `heard`. */
  function PhaseAfter(w: World, move: Move, heard: bool): (r: Phase) {
    match move
    case Begin(_, _, _, _, _) => if heard then Ready else Idle
    case Ask(_, asked) => if !heard then Failing else if asked == [] then Said else Tools(CallsIn(asked))
    case Mark(_) => w.phase
    case Answer(_, _, _, _, _) => if heard then Continuing else Failing
    case Follow(_, _, _, _) => if heard then Continuing else Failing
    case GatesContinue => Continuing
    case EndNaturally => Completed
    case Advance => Ready
    case GiveUp => Failing
    case Complete(_, next) => if !heard then Failing else if next.Some? then Ready else Idle
    case Stop(_, _) => if heard then Idle else Failing
    case Write(_) => w.phase
    case Limit(_) => w.phase
    case Crash => Down
    case Resume => Opening
    case Restore => Restored(w.store)
    case RepairRun(closed) => if closed then Down else Idle
  }

  ghost predicate Moves(w: World, move: Move, heard: bool, w': World) {
    && Enabled(w, move) && w'.phase == PhaseAfter(w, move, heard)
    && (if OpsOf(w, move).Some? then Commits(w.store, Expand(OpsOf(w, move).value), w'.store)
        else if move.Resume? || move.RepairRun? then Recovers(w.store, w'.store)
        else w'.store == w.store)
  }

  /** The order of the loop: a completion is followed by its own calls in their order, or by the gates when it made
      none; results by another completion; an end by the next Run or by nothing; and an unheard commit only by the end
      of the Run. A crash is followed by Recover and a restore. */
  lemma {:induction false} LoopOrder(w: World, move: Move, heard: bool, w': World)
    requires Moves(w, move, heard, w')
    ensures move.Ask? && heard && move.asked != [] ==>
              && w'.phase.Tools? && |w'.phase.calls| == |move.asked|
              && forall i :: 0 <= i < |move.asked| ==> w'.phase.calls[i] == move.asked[i].call
    ensures move.Ask? && heard && move.asked == [] ==> w'.phase.Said?
    ensures w'.phase.Ready? && !w.phase.Ready? ==>
              move.Advance? || (heard && (move.Begin? || (move.Complete? && move.next.Some?)))
    ensures w'.phase.Continuing? && !w.phase.Continuing? ==>
              (heard && (move.Answer? || move.Follow?)) || move.GatesContinue?
    ensures w'.phase.Completed? && !w.phase.Completed? ==> w.phase.Said? && move.EndNaturally?
    ensures w'.phase.Idle? && !w.phase.Idle? ==>
              || (heard && (move.Stop? || (move.Complete? && move.next.None?)))
              || (move.RepairRun? && w.phase.Failing?) || (move.Restore? && !w.store.running)
    ensures w'.phase.Failing? && !w.phase.Failing? ==>
              move.GiveUp? || move.Restore? || (!heard && OpsOf(w, move).Some? && !move.Begin?)
    ensures w.phase.Down? && !w'.phase.Down? ==> move.Resume? && w'.phase.Opening?
    ensures w.phase.Opening? ==> move.Restore? || move.Crash? || w'.phase.Opening?
  {
    hide Commits;
    hide Recovers;
    hide Expand;
    hide FindRun;
    hide Stopped;
    hide PreparedCalls;
    hide SameStep;
    hide HasResumableGate;
    hide CompletionOps;
    hide StartOps;
    hide FinishOps;
    hide Quiet;
  }

  // ---------------------------------------------------------------- commits of gates as moves

  /** Every commit of an input gate's occurrence is a move: the start of a Run for a Send to an idle Session, and a
      quiet write otherwise. */
  lemma {:induction false} GatedInputMoves(s: Snapshot, op: GatedInput.Operation, first: nat, count: nat, took: bool,
                                           run: RunID, step: StepID)
    requires ExtensionJournal.JournalValid(s.extensions, s.session.id) && first + count <= |s.extensions|
    ensures var ops := GatedInput.LastOps(s, op, first, count, took, run, step);
            if took && op.Send? && !s.running then
              exists marks ::
                ops == StartOps(s, op.item, run, step, true) + marks && forall o :: o in marks ==> Quiet(o)
            else forall o :: o in ops ==> Quiet(o)
  {
    hide *;
    var how := GatedInput.HowSettled(s, op, took);
    var marks := HookSettling.EntryOps(s.extensions, first, first + count, how, run, step);
    HookSettling.EntryOpsShaped(s.extensions, s.session.id, first, first + count, how, run, step);
    GatedInputParts(s, op, first, count, took, run, step);
    if took && !(op.Send? && !s.running) {
      EffectIsQuiet(s, op, first, count, run, step);
    }
  }

  lemma {:induction false} GatedInputParts(s: Snapshot, op: GatedInput.Operation, first: nat, count: nat, took: bool,
                                           run: RunID, step: StepID)
    requires first + count <= |s.extensions|
    ensures GatedInput.LastOps(s, op, first, count, took, run, step) ==
            (if took then GatedInput.EffectOps(s, op, first, count, run, step) else [])
            + HookSettling.EntryOps(s.extensions, first, first + count, GatedInput.HowSettled(s, op, took), run, step)
    ensures op.Send? && !s.running ==>
              GatedInput.EffectOps(s, op, first, count, run, step) == StartOps(s, op.item, run, step, true)
  {
  }

  lemma {:induction false} EffectIsQuiet(s: Snapshot, op: GatedInput.Operation, first: nat, count: nat, run: RunID,
                                         step: StepID)
    requires op.Send? ==> s.running
    ensures forall o :: o in GatedInput.EffectOps(s, op, first, count, run, step) ==> Quiet(o)
  {
    if op.Edit? {
      GatedInput.OlderDiscarded(s.extensions, first, count, op.message);
      ReservesQuiet(GatedInput.OlderContexts(s.extensions, first, count, op.message));
      EnqueueIsQuiet(EditQueue(op.message, op.parts, op.delivery));
    } else {
      EnqueueIsQuiet(EnqueueMessage(op.item));
    }
    hide Quiet;
    hide ReserveOps;
    hide GatedInput.OlderContexts;
  }

  lemma {:induction false} EnqueueIsQuiet(c: Change)
    requires c.EnqueueMessage? || c.EditQueue?
    ensures Quiet(Plain(c))
  {
  }

  lemma {:induction false} ReservesQuiet(entries: seq<ExtensionEntry>)
    requires Reserved(entries)
    ensures forall op :: op in ReserveOps(entries) ==> Quiet(op)
  {
  }

  // ---------------------------------------------------------------- what the loop guarantees the Store

  ghost predicate InShape(s: Snapshot, ops: seq<Op>) {
    AllShaped(s, ops) && ConversationStep(s, Expand(ops))
  }

  lemma {:induction false} NoneOpen(h: seq<HistoryFact>)
    ensures OpenCalls(h) == {} <==> AllAnswered(ScanOf(h).talk)
  {
    var t := ScanOf(h).talk;
    if OpenCalls(h) == {} {
      forall id | id in t.calls ensures id in t.results {
        assert id !in OpenCalls(h);
      }
    }
  }

  lemma {:induction false} UnfinishedIsOpen(s: Snapshot, i: nat)
    requires Core(s) && i < |s.journal| && Unfinished(s.journal[i].status)
    ensures s.journal[i].call.id in OpenCalls(s.history)
  {
    assert EntryAccepted(ScanOf(s.history).talk, s.journal[i]);
  }

  lemma {:induction false} OpenIsJournaled(s: Snapshot, id: ToolCallID)
    requires Core(s) && id in OpenCalls(s.history)
    ensures JournalIndex(s.journal, id) < |s.journal|
  {
    assert HasUnfinished(s.journal, id);
  }

  /** Nothing open means nothing unfinished. */
  lemma {:induction false} NothingUnfinished(s: Snapshot)
    requires Core(s) && OpenCalls(s.history) == {}
    ensures !HasUnfinishedJournal(s.journal)
  {
    hide Core;
    hide OpenCalls;
    forall i: nat | i < |s.journal| && Unfinished(s.journal[i].status)
      ensures s.journal[i].call.id in OpenCalls(s.history)
    {
      UnfinishedIsOpen(s, i);
    }
  }

  lemma {:induction false} StartFirst(s: Snapshot, item: QueueItem, run: RunID, step: StepID, enqueue: bool)
    ensures var rest := LifecycleOps(s.extensions, run, step) + ConsumptionOps(s, item, run, step);
            StartOps(s, item, run, step, enqueue) ==
            (if enqueue then [Plain(EnqueueMessage(item))] else []) + ([StartRun(Started(s, run))] + rest)
  {
  }

  /** The Store lets a Run start only in an idle Session. */
  lemma {:induction false} StartNeedsIdle(s: Snapshot, item: QueueItem, run: RunID, step: StepID, enqueue: bool,
                                          marks: seq<Op>)
    requires ApplyAll(s, s.revision, Expand(StartOps(s, item, run, step, enqueue) + marks)).Ok?
    ensures !s.running
  {
    hide *;
    StartFirst(s, item, run, step, enqueue);
    var first := if enqueue then [Plain(EnqueueMessage(item))] else [];
    var start := [StartRun(Started(s, run))];
    var rest := LifecycleOps(s.extensions, run, step) + ConsumptionOps(s, item, run, step);
    assert StartOps(s, item, run, step, enqueue) + marks == first + (start + (rest + marks));
    ExpandConcat(first, start + (rest + marks));
    ExpandConcat(start, rest + marks);
    ExpandOne(start[0]);
    ApplyConcat(s, s.revision, Expand(first), Changes(start[0]) + Expand(rest + marks));
    var mid := ApplyAll(s, s.revision, Expand(first)).value;
    FirstKeepsRunning(s, item, enqueue, mid);
    ApplyConcat(mid, s.revision, Changes(start[0]), Expand(rest + marks));
    StartRefused(mid, s.revision, Started(s, run));
  }

  lemma {:induction false} FirstKeepsRunning(s: Snapshot, item: QueueItem, enqueue: bool, mid: Snapshot)
    requires ApplyAll(s, s.revision, Expand(if enqueue then [Plain(EnqueueMessage(item))] else [])) == Ok(mid)
    ensures mid.running == s.running
  {
    if enqueue {
      ExpandOne(Plain(EnqueueMessage(item)));
      ApplyOne(s, s.revision, EnqueueMessage(item));
    }
  }

  lemma {:induction false} StartRefused(s: Snapshot, expected: Revision, f: RunFact)
    requires ApplyAll(s, expected, Changes(StartRun(f))).Ok?
    ensures !s.running
  {
    assert ApplyChange(s, expected, SetRunState(f.run, true)).Ok?;
  }

  lemma {:induction false} CalllessConverses(s: Snapshot, ops: seq<Op>)
    requires OpenCalls(s.history) == {} && forall op :: op in ops ==> Callless(op)
    ensures InShape(s, ops)
  {
    NoneOpen(s.history);
    hide ScanOf;
    AlwaysIsShaped(s, ops);
    CalllessExpand(ops);
  }

  lemma {:induction false} QuietConverses(s: Snapshot, ops: seq<Op>)
    requires forall op :: op in ops ==> Quiet(op)
    ensures InShape(s, ops)
  {
    AlwaysIsShaped(s, ops);
    QuietExpand(ops);
  }

  lemma {:induction false} QuietExpand(ops: seq<Op>)
    requires forall op :: op in ops ==> Quiet(op)
    ensures NoCalls(Expand(ops)) && NoMessages(Expand(ops))
  {
    if ops != [] {
      assert Quiet(ops[0]);
      QuietExpand(ops[1..]);
    }
  }

  lemma {:induction false} IdleHasNoneOpen(s: Snapshot)
    requires Core(s) && !s.running
    ensures OpenCalls(s.history) == {}
  {
    IdleAnswered(s);
    NoneOpen(s.history);
  }

  lemma {:induction false} BeginConverses(s: Snapshot, item: QueueItem, run: RunID, step: StepID, enqueue: bool,
                                          marks: seq<Op>)
    requires Core(s) && forall op :: op in marks ==> Quiet(op)
    requires ApplyAll(s, s.revision, Expand(StartOps(s, item, run, step, enqueue) + marks)).Ok?
    ensures InShape(s, StartOps(s, item, run, step, enqueue) + marks) && OpenCalls(s.history) == {}
  {
    StartCallless(s, item, run, step, enqueue);
    hide *;
    StartNeedsIdle(s, item, run, step, enqueue, marks);
    IdleHasNoneOpen(s);
    QuietCallless(marks);
    assert forall op :: op in StartOps(s, item, run, step, enqueue) + marks ==> Callless(op);
    CalllessConverses(s, StartOps(s, item, run, step, enqueue) + marks);
  }

  lemma {:induction false} QuietCallless(ops: seq<Op>)
    requires forall op :: op in ops ==> Quiet(op)
    ensures forall op :: op in ops ==> Callless(op)
  {
  }

  lemma {:induction false} AskConverses(s: Snapshot, m: Message, asked: seq<Asked>)
    requires OpenCalls(s.history) == {} && AsksFor(asked, m)
    ensures InShape(s, CompletionOps(m, asked))
  {
    NoneOpen(s.history);
    CompletionIsInShape(s, m, asked);
  }

  lemma {:induction false} MarkConverses(s: Snapshot, calls: seq<ToolCall>, call: ToolCall)
    requires Core(s) && OpenCalls(s.history) == IdsOf(calls) && call in calls
    ensures InShape(s, [MarkExecuting(call)])
  {
    OpenIsJournaled(s, call.id);
    MarkIsInShape(s, call);
  }

  lemma {:induction false} AnswerConverses(s: Snapshot, calls: seq<ToolCall>, results: seq<ToolResult>,
                                           reserved: seq<ExtensionEntry>,
                                           steers: seq<QueueItem>, run: RunID, step: StepID)
    requires OpenCalls(s.history) == IdsOf(calls) && Reserved(reserved)
    requires |results| == |calls| && forall i :: 0 <= i < |calls| ==> results[i].call == calls[i].id
    ensures InShape(s, ResultOps(s, calls, results, reserved, steers, run, step))
  {
    var t := ScanOf(s.history).talk;
    forall id | id in t.calls && id !in t.results ensures exists i :: 0 <= i < |results| && results[i].call == id {
      assert id in OpenCalls(s.history);
      var i :| 0 <= i < |calls| && calls[i].id == id;
      assert results[i].call == id;
    }
    ResultsAreInShape(s, calls, results, reserved, steers, run, step);
  }

  lemma {:induction false} FollowConverses(s: Snapshot, steers: seq<QueueItem>, proposals: seq<QueueItem>, run: RunID,
                                           step: StepID)
    requires OpenCalls(s.history) == {}
    ensures InShape(s, SteerOps(s, steers, run, step) + ProposalOps(s, proposals, run, step))
  {
    NoneOpen(s.history);
    FollowOnIsInShape(s, steers, proposals, run, step);
  }

  lemma {:induction false} CompleteConverses(s: Snapshot, f: RunFact, next: Option<Handover>)
    requires Core(s) && OpenCalls(s.history) == {} && f.kind == RunCompleted
    ensures InShape(s, FinishOps([], f, NextOps(s, next)))
  {
    hide Core;
    NothingUnfinished(s);
    NoneOpen(s.history);
    if next.Some? {
      StartCallless(s, next.value.item, next.value.run, next.value.step, false);
    }
    FinishIsInShape(s, [], f, NextOps(s, next));
  }

  /** Changes that leave the tool journal alone. */
  predicate Unjournaled(changes: seq<Change>) {
    forall i :: 0 <= i < |changes| ==> !changes[i].UpdateRunJournal?
  }

  lemma {:induction false} ChangesKeepJournal(s: Snapshot, expected: Revision, changes: seq<Change>, s': Snapshot)
    requires ApplyAll(s, expected, changes) == Ok(s') && Unjournaled(changes)
    ensures s'.journal == s.journal
    decreases |changes|
  {
    if changes != [] {
      var mid := ApplyChange(s, expected, changes[0]).value;
      ChangeKeepsJournal(s, expected, changes[0], mid);
      hide ApplyChange;
      ChangesKeepJournal(mid, expected, changes[1..], s');
    }
  }

  lemma {:induction false} ChangeKeepsJournal(s: Snapshot, expected: Revision, c: Change, s': Snapshot)
    requires ApplyChange(s, expected, c) == Ok(s') && !c.UpdateRunJournal?
    ensures s'.journal == s.journal
  {
  }

  /** The Store lets a Run end without a successor only when nothing is unfinished. */
  lemma {:induction false} StopNeedsFinished(s: Snapshot, held: seq<QueueItem>, f: RunFact, last: Snapshot)
    requires ApplyAll(s, s.revision, Expand(FinishOps(held, f, []))) == Ok(last) && Closable(last)
    ensures !HasUnfinishedJournal(s.journal)
  {
    hide *;
    var holds, ends := HoldOps(held), [FinishRun(f)];
    FinishWithoutNext(held, f);
    ExpandConcat(holds, ends);
    ExpandOne(FinishRun(f));
    ApplyConcat(s, s.revision, Expand(holds), Changes(FinishRun(f)));
    var mid := ApplyAll(s, s.revision, Expand(holds)).value;
    HoldsUnjournaled(held, 0);
    assert holds[0..] == holds;
    ChangesKeepJournal(s, s.revision, Expand(holds), mid);
    FinishLeavesIdle(mid, s.revision, f, last);
    ClosedIsFinished(last);
  }

  lemma {:induction false} FinishWithoutNext(held: seq<QueueItem>, f: RunFact)
    ensures FinishOps(held, f, []) == HoldOps(held) + [FinishRun(f)]
  {
  }

  lemma {:induction false} HoldsUnjournaled(held: seq<QueueItem>, n: nat)
    requires n <= |held|
    ensures Unjournaled(Expand(HoldOps(held)[n..]))
    decreases |held| - n
  {
    var ops := HoldOps(held)[n..];
    if ops != [] {
      assert ops[1..] == HoldOps(held)[n + 1..];
      HoldsUnjournaled(held, n + 1);
    }
  }

  lemma {:induction false} FinishLeavesIdle(s: Snapshot, expected: Revision, f: RunFact, s': Snapshot)
    requires ApplyAll(s, expected, Changes(FinishRun(f))) == Ok(s')
    ensures !s'.running && s'.journal == s.journal
  {
    ApplyTwo(s, expected, AppendRunFact(f), SetRunState(f.run, false), s');
    ChangesKeepJournal(s, expected, Changes(FinishRun(f)), s');
    hide FindRun;
  }

  lemma {:induction false} ClosedIsFinished(s: Snapshot)
    requires Closable(s) && !s.running
    ensures !HasUnfinishedJournal(s.journal)
  {
  }

  lemma {:induction false} StopConverses(s: Snapshot, held: seq<QueueItem>, f: RunFact, last: Snapshot)
    requires Core(s) && f.kind != RunStarted
    requires ApplyAll(s, s.revision, Expand(FinishOps(held, f, []))) == Ok(last) && Closable(last)
    ensures InShape(s, FinishOps(held, f, []))
  {
    StopNeedsFinished(s, held, f, last);
    IdleIsAnswered(ScanOf(s.history).talk, s.journal);
    hide Core;
    hide FinishOps;
    hide Closable;
    FinishIsInShape(s, held, f, []);
  }

  lemma {:induction false} LimitConverses(s: Snapshot, l: Limit)
    requires Shaped(s, Plain(AppendRunLimitExceeded(l)))
    ensures InShape(s, [Plain(AppendRunLimitExceeded(l))])
  {
    ExpandOne(Plain(AppendRunLimitExceeded(l)));
    assert [Plain(AppendRunLimitExceeded(l))][1..] == [];
    assert NoCalls([AppendRunLimitExceeded(l)]) && NoMessages([AppendRunLimitExceeded(l)]);
  }

  lemma {:induction false} MoveInShape(w: World, move: Move, last: Snapshot)
    requires Core(w.store) && Fits(w) && Enabled(w, move) && OpsOf(w, move).Some?
    requires ApplyAll(w.store, w.store.revision, Expand(OpsOf(w, move).value)) == Ok(last) && Closable(last)
    ensures InShape(w.store, OpsOf(w, move).value)
  {
    var s := w.store;
    hide *;
    match move {
      case Begin(item, run, step, enqueue, marks) =>
        BeginIs(w, move);
        BeginConverses(s, item, run, step, enqueue, marks);
      case Ask(m, asked) => AskIs(w, move); AskConverses(s, m, asked);
      case Mark(call) => MarkIs(w, move); MarkConverses(s, w.phase.calls, call);
      case Answer(returned, reserved, steers, run, step) =>
        AnswerIs(w, move);
        AnswerConverses(s, w.phase.calls, ReportedAll(w.phase.calls, returned), reserved, steers, run, step);
      case Follow(steers, proposals, run, step) => FollowIs(w, move); FollowConverses(s, steers, proposals, run, step);
      case Complete(f, next) => CompleteIs(w, move); CompleteConverses(s, f, next);
      case Stop(held, f) => StopIs(w, move); StopConverses(s, held, f, last);
      case Write(ops) => WriteIs(w, move); QuietConverses(s, ops);
      case Limit(l) => LimitIs(w, move); LimitConverses(s, l);
      case _ => OthersAre(w, move);
    }
  }

  // What each committing move may rely on, and what it commits.

  lemma {:induction false} BeginIs(w: World, move: Move)
    requires move.Begin? && Enabled(w, move)
    ensures forall op :: op in move.marks ==> Quiet(op)
    ensures OpsOf(w, move) == Some(StartOps(w.store, move.item, move.run, move.step, move.enqueue) + move.marks)
  {
  }

  lemma {:induction false} AskIs(w: World, move: Move)
    requires move.Ask? && Enabled(w, move) && Fits(w)
    ensures OpenCalls(w.store.history) == {} && AsksFor(move.asked, move.message)
    ensures OpsOf(w, move) == Some(CompletionOps(move.message, move.asked))
  {
  }

  lemma {:induction false} MarkIs(w: World, move: Move)
    requires move.Mark? && Enabled(w, move) && Fits(w)
    ensures w.phase.Tools? && move.call in w.phase.calls && OpenCalls(w.store.history) == IdsOf(w.phase.calls)
    ensures OpsOf(w, move) == Some([MarkExecuting(move.call)])
  {
  }

  lemma {:induction false} AnswerIs(w: World, move: Move)
    requires move.Answer? && Enabled(w, move) && Fits(w)
    ensures w.phase.Tools? && |move.returned| == |w.phase.calls| && OpenCalls(w.store.history) == IdsOf(w.phase.calls)
    ensures Reserved(move.reserved)
    ensures OpsOf(w, move) ==
              Some(ResultOps(w.store, w.phase.calls, ReportedAll(w.phase.calls, move.returned), move.reserved,
                                             move.steers, move.run, move.step))
  {
  }

  lemma {:induction false} FollowIs(w: World, move: Move)
    requires move.Follow? && Enabled(w, move) && Fits(w)
    ensures OpenCalls(w.store.history) == {}
    ensures OpsOf(w, move) == Some(SteerOps(w.store, move.steers, move.run, move.step)
                                   + ProposalOps(w.store, move.proposals, move.run, move.step))
  {
  }

  lemma {:induction false} CompleteIs(w: World, move: Move)
    requires move.Complete? && Enabled(w, move) && Fits(w)
    ensures OpenCalls(w.store.history) == {} && move.fact.kind == RunCompleted
    ensures OpsOf(w, move) == Some(FinishOps([], move.fact, NextOps(w.store, move.next)))
  {
  }

  lemma {:induction false} StopIs(w: World, move: Move)
    requires move.Stop? && Enabled(w, move)
    ensures move.fact.kind != RunStarted && OpsOf(w, move) == Some(FinishOps(move.held, move.fact, []))
  {
  }

  lemma {:induction false} WriteIs(w: World, move: Move)
    requires move.Write? && Enabled(w, move)
    ensures OpsOf(w, move) == Some(move.ops) && forall op :: op in move.ops ==> Quiet(op)
  {
  }

  lemma {:induction false} LimitIs(w: World, move: Move)
    requires move.Limit? && Enabled(w, move)
    ensures Shaped(w.store, Plain(AppendRunLimitExceeded(move.limit)))
    ensures OpsOf(w, move) == Some([Plain(AppendRunLimitExceeded(move.limit))])
  {
  }

  lemma {:induction false} OthersAre(w: World, move: Move)
    ensures OpsOf(w, move).Some? ==>
              || move.Begin? || move.Ask? || move.Mark? || move.Answer? || move.Follow? || move.Complete? || move.Stop?
              || move.Write? || move.Limit?
  {
  }

  /** Every commit of the loop has the Runtime's shape and keeps the order of the conversation. Neither is assumed of
      the commit: both follow from where the loop is and from the Store's acceptance. */
  lemma {:induction false} MoveConverses(w: World, move: Move, s': Snapshot)
    requires Good(w) && Enabled(w, move) && OpsOf(w, move).Some? && Commits(w.store, Expand(OpsOf(w, move).value), s')
    ensures RuntimeCommit(w.store, OpsOf(w, move).value, s') && ConversationStep(w.store, Expand(OpsOf(w, move).value))
  {
    var s, ops := w.store, OpsOf(w, move).value;
    var last := ApplyAll(s, s.revision, Expand(ops)).value;
    assert Core(s) && Fits(w);
    hide Inv;
    hide Core;
    hide Fits;
    hide Readable;
    hide Enabled;
    hide OpsOf;
    hide Closable;
    hide Admissible;
    hide ApplyAll;
    hide AllShaped;
    hide ConversationStep;
    hide Expand;
    MoveInShape(w, move, last);
  }

  // ---------------------------------------------------------------- what every move keeps

  lemma {:induction false} NoneOpened(changes: seq<Change>)
    requires NoCalls(changes)
    ensures OpenAfter({}, changes) == {}
  {
    if changes != [] {
      assert !changes[0].AppendToolCall?;
      assert OpenStep({}, changes[0]) == {};
      assert NoCalls(changes[1..]);
      NoneOpened(changes[1..]);
    }
  }

  lemma {:induction false} AnsweredOpens(s: Snapshot, calls: seq<ToolCall>, results: seq<ToolResult>,
                                         reserved: seq<ExtensionEntry>,
                                         steers: seq<QueueItem>, run: RunID, step: StepID)
    requires |results| == |calls| && Reserved(reserved)
    requires forall i :: 0 <= i < |calls| ==> results[i].call == calls[i].id
    ensures OpenAfter(IdsOf(calls), Expand(ResultOps(s, calls, results, reserved, steers, run, step))) == {}
  {
    hide *;
    var settles, rest := SettleOps(calls, results), ReserveOps(reserved) + SteerOps(s, steers, run, step);
    ResultParts(s, calls, results, reserved, steers, run, step);
    ReservesExpand(reserved, 0);
    SteerCallless(s, steers, run, step);
    ExpandConcat(settles, rest);
    CalllessExpand(rest);
    OpenConcat(IdsOf(calls), Expand(settles), Expand(rest));
    SettlesClose(IdsOf(calls), calls, results);
    assert IdsOf(calls) - IdsOf(calls) == {};
    NoneOpened(Expand(rest));
  }

  lemma {:induction false} ResultParts(s: Snapshot, calls: seq<ToolCall>, results: seq<ToolResult>,
                                       reserved: seq<ExtensionEntry>, steers: seq<QueueItem>, run: RunID, step: StepID)
    requires |results| == |calls|
    ensures ResultOps(s, calls, results, reserved, steers, run, step) ==
            SettleOps(calls, results) + (ReserveOps(reserved) + SteerOps(s, steers, run, step))
  {
  }

  lemma {:induction false} FollowOpens(s: Snapshot, steers: seq<QueueItem>, proposals: seq<QueueItem>, run: RunID,
                                       step: StepID)
    ensures OpenAfter({}, Expand(SteerOps(s, steers, run, step) + ProposalOps(s, proposals, run, step))) == {}
  {
    hide *;
    var ops := SteerOps(s, steers, run, step) + ProposalOps(s, proposals, run, step);
    SteerCallless(s, steers, run, step);
    ProposalsCallless(s, proposals, run, step);
    CalllessExpand(ops);
    NoneOpened(Expand(ops));
  }

  lemma {:induction false} CompleteOpens(s: Snapshot, f: RunFact, next: Option<Handover>)
    ensures OpenAfter({}, Expand(FinishOps([], f, NextOps(s, next)))) == {}
  {
    var ops := FinishOps([], f, NextOps(s, next));
    if next.Some? {
      StartCallless(s, next.value.item, next.value.run, next.value.step, false);
    }
    assert forall op :: op in ops ==> Callless(op) || op.FinishRun?;
    hide *;
    CalllessExpand(ops);
    NoneOpened(Expand(ops));
  }

  lemma {:induction false} BeginOpens(s: Snapshot, item: QueueItem, run: RunID, step: StepID, enqueue: bool,
                                      marks: seq<Op>)
    requires forall op :: op in marks ==> Quiet(op)
    ensures OpenAfter({}, Expand(StartOps(s, item, run, step, enqueue) + marks)) == {}
  {
    hide *;
    var ops := StartOps(s, item, run, step, enqueue) + marks;
    StartCallless(s, item, run, step, enqueue);
    QuietCallless(marks);
    CalllessExpand(ops);
    NoneOpened(Expand(ops));
  }

  lemma {:induction false} QuietWordless(open: set<ToolCallID>, ops: seq<Op>)
    requires forall op :: op in ops ==> Quiet(op)
    ensures OpenAfter(open, Expand(ops)) == open && Unjournaled(Expand(ops))
  {
    WordlessOpen(open, ops);
    QuietUnjournaled(ops);
  }

  lemma {:induction false} QuietUnjournaled(ops: seq<Op>)
    requires forall op :: op in ops ==> Quiet(op)
    ensures Unjournaled(Expand(ops))
  {
    if ops != [] {
      assert Quiet(ops[0]);
      QuietUnjournaled(ops[1..]);
    }
  }

  lemma {:induction false} WordlessMark(open: set<ToolCallID>, call: ToolCall)
    ensures OpenAfter(open, Expand([MarkExecuting(call)])) == open
  {
    WordlessOpen(open, [MarkExecuting(call)]);
  }

  lemma {:induction false} WordlessLimit(open: set<ToolCallID>, l: Limit)
    ensures OpenAfter(open, Expand([Plain(AppendRunLimitExceeded(l))])) == open
  {
    WordlessOpen(open, [Plain(AppendRunLimitExceeded(l))]);
  }

  lemma {:induction false} KeptFits(w: World, w': World)
    requires Fits(w) && w'.phase == w.phase && OpenCalls(w'.store.history) == OpenCalls(w.store.history)
    requires w.phase.Opening? ==> w'.store.journal == w.store.journal
    ensures Fits(w')
  {
  }

  lemma {:induction false} NoneOpenFits(w: World)
    requires OpenCalls(w.store.history) == {} && !w.phase.Tools? && !w.phase.Opening?
    ensures Fits(w)
  {
  }

  lemma {:induction false} ToolsFit(w: World)
    requires w.phase.Tools? && OpenCalls(w.store.history) == IdsOf(w.phase.calls)
    ensures Fits(w)
  {
  }

  lemma {:induction false} RestFits(w: World)
    requires w.phase.Failing? || w.phase.Idle? || w.phase.Down?
    ensures Fits(w)
  {
  }

  lemma {:induction false} AskGoes(w: World, move: Move, heard: bool)
    requires move.Ask?
    ensures PhaseAfter(w, move, heard) == if !heard then Failing else if move.asked == [] then Said
              else Tools(CallsIn(move.asked))
    ensures move.asked == [] ==> IdsOf(CallsIn(move.asked)) == {}
  {
  }

  lemma {:induction false} OthersGo(w: World, move: Move, heard: bool)
    ensures move.Begin? ==> PhaseAfter(w, move, heard) == if heard then Ready else Idle
    ensures move.Answer? || move.Follow? ==> PhaseAfter(w, move, heard) == if heard then Continuing else Failing
    ensures move.Complete? ==> PhaseAfter(w, move, heard) in {Ready, Idle, Failing}
    ensures move.Stop? ==> PhaseAfter(w, move, heard) == if heard then Idle else Failing
    ensures move.Mark? || move.Write? || move.Limit? ==> PhaseAfter(w, move, heard) == w.phase
    ensures (move.Mark? || move.Limit?) && Enabled(w, move) ==> !w.phase.Opening?
  {
  }

  lemma {:induction false} Last(w: World, move: Move, heard: bool, w': World) returns (last: Snapshot)
    requires Good(w) && Moves(w, move, heard, w') && OpsOf(w, move).Some?
    ensures Core(w.store) && Fits(w) && Enabled(w, move) && w'.phase == PhaseAfter(w, move, heard)
    ensures ApplyAll(w.store, w.store.revision, Expand(OpsOf(w, move).value)) == Ok(last)
    ensures w'.store.journal == last.journal
  {
    last := ApplyAll(w.store, w.store.revision, Expand(OpsOf(w, move).value)).value;
    hide HistoryOk;
    hide ToolsOk;
    hide Enabled;
    hide OpsOf;
    hide ApplyAll;
    hide Expand;
    hide PhaseAfter;
    hide Fits;
  }

  /** After its commit the loop is where the open calls say it is. */
  lemma {:induction false} CommitFits(w: World, move: Move, heard: bool, w': World)
    requires Good(w) && Moves(w, move, heard, w') && OpsOf(w, move).Some?
    requires OpenCalls(w'.store.history) == OpenAfter(OpenCalls(w.store.history), Expand(OpsOf(w, move).value))
    ensures Fits(w')
  {
    hide *;
    var s := w.store;
    var last := Last(w, move, heard, w');
    OthersGo(w, move, heard);
    match move {
      case Begin(item, run, step, enqueue, marks) =>
        BeginIs(w, move);
        BeginConverses(s, item, run, step, enqueue, marks);
        BeginOpens(s, item, run, step, enqueue, marks);
        NoneOpenFits(w');
      case Ask(m, asked) =>
        AskIs(w, move);
        AskGoes(w, move, heard);
        CompletionOpens({}, m, asked);
        if !heard { RestFits(w'); } else if asked == [] { NoneOpenFits(w'); } else { ToolsFit(w'); }
      case Mark(call) =>
        MarkIs(w, move);
        WordlessMark(OpenCalls(s.history), call);
        KeptFits(w, w');
      case Answer(returned, reserved, steers, run, step) =>
        AnswerIs(w, move);
        AnsweredOpens(s, w.phase.calls, ReportedAll(w.phase.calls, returned), reserved, steers, run, step);
        NoneOpenFits(w');
      case Follow(steers, proposals, run, step) =>
        FollowIs(w, move);
        FollowOpens(s, steers, proposals, run, step);
        NoneOpenFits(w');
      case Complete(f, next) =>
        CompleteIs(w, move);
        CompleteOpens(s, f, next);
        NoneOpenFits(w');
      case Stop(_, _) => RestFits(w');
      case Write(quiet) =>
        WriteIs(w, move);
        QuietWordless(OpenCalls(s.history), quiet);
        ChangesKeepJournal(s, s.revision, Expand(quiet), last);
        KeptFits(w, w');
      case Limit(l) =>
        LimitIs(w, move);
        WordlessLimit(OpenCalls(s.history), l);
        KeptFits(w, w');
      case _ => OthersAre(w, move);
    }
  }

  lemma {:induction false} RecoveryFits(s: Snapshot, w': World)
    requires Inv(s) && Recovers(s, w'.store) && (w'.phase.Opening? || w'.phase.Idle? || w'.phase.Down?)
    ensures Inv(w'.store) && Fits(w')
  {
    RecoverKeepsInv(s, w'.store);
  }

  lemma {:induction false} RestoreFits(w: World)
    requires Inv(w.store) && Fits(w) && w.phase.Opening?
    ensures Fits(World(w.store, Restored(w.store)))
  {
    var s := w.store;
    assert Core(s);
    PreparedAreOpen(s);
    assert PreparedCalls(s.journal, s.activeRun) == [] ==> IdsOf(PreparedCalls(s.journal, s.activeRun)) == {};
    hide Inv;
    hide Core;
    hide OpenCalls;
  }

  lemma {:induction false} SilentFits(w: World, move: Move, heard: bool, w': World)
    requires Good(w) && Moves(w, move, heard, w') && OpsOf(w, move).None?
    ensures Good(w')
  {
    hide Inv;
    hide Readable;
    hide Recovers;
    hide OpenCalls;
    hide Restored;
    hide IdsOf;
    match move {
      case Resume => RecoveryFits(w.store, w'); RecoveryStaysReadable(w.store, w'.store);
      case RepairRun(_) => RecoveryFits(w.store, w'); RecoveryStaysReadable(w.store, w'.store);
      case Restore => RestoreFits(w);
      case _ =>
    }
  }

  /** Every move of the loop, every crash and every recovery keeps the aggregate good, its conversation readable and the
      loop's place true. */
  lemma {:induction false} MoveKeepsGood(w: World, move: Move, heard: bool, w': World)
    requires Good(w) && Moves(w, move, heard, w')
    ensures Good(w')
  {
    if OpsOf(w, move).None? {
      SilentFits(w, move, heard, w');
    } else {
      var s, ops := w.store, OpsOf(w, move).value;
      assert Inv(s) && Readable(s.history) && Enabled(w, move);
      assert Commits(s, Expand(ops), w'.store);
      hide *;
      MoveConverses(w, move, w'.store);
      CommitStaysReadable(s, ops, w'.store);
      CommitOpens(s, ops, w'.store);
      CommitFits(w, move, heard, w');
      GoodAgain(w');
    }
  }

  lemma {:induction false} GoodAgain(w: World)
    requires Inv(w.store) && Readable(w.store.history) && Fits(w)
    ensures Good(w)
  {
  }

  // ---------------------------------------------------------------- whole lives

  ghost predicate Turns(w: World, w': World) {
    exists move, heard :: Moves(w, move, heard, w')
  }

  /** A Session from its creation on, with the Runtimes that work on it one after another. */
  ghost predicate IsLife(life: seq<World>) {
    && |life| > 0 && Begun(life[0].store) && life[0].phase.Opening?
    && forall i :: 0 <= i < |life| - 1 ==> Turns(life[i], life[i + 1])
  }

  lemma {:induction false} NewIsGood(w: World)
    requires Begun(w.store) && w.phase.Opening?
    ensures Good(w)
  {
    BegunIsReadable(w.store);
    BegunIsIdle(w.store);
    IdleAnswered(w.store);
    hide Readable;
  }

  lemma {:induction false} BegunIsIdle(s: Snapshot)
    requires Begun(s)
    ensures !s.running
  {
  }

  lemma {:induction false} LivesAreGood(life: seq<World>, k: nat)
    requires IsLife(life) && k < |life|
    ensures Good(life[k])
  {
    hide Good;
    hide Turns;
    if k == 0 {
      NewIsGood(life[0]);
    } else {
      LivesAreGood(life, k - 1);
      assert Turns(life[k - 1], life[k - 1 + 1]);
      TurnKeepsGood(life[k - 1], life[k]);
    }
  }

  lemma {:induction false} TurnKeepsGood(w: World, w': World)
    requires Good(w) && Turns(w, w')
    ensures Good(w') && Next(w.store, w'.store)
  {
    hide Good;
    hide Moves;
    var move, heard :| Moves(w, move, heard, w');
    MoveKeepsGood(w, move, heard, w');
    MoveIsNext(w, move, heard, w');
  }

  /** Each move is one step of the Session's life as the Store sees it. */
  lemma {:induction false} MoveIsNext(w: World, move: Move, heard: bool, w': World)
    requires Good(w) && Moves(w, move, heard, w')
    ensures Next(w.store, w'.store)
  {
    hide Good;
    hide Enabled;
    hide OpsOf;
    hide PhaseAfter;
    hide Commits;
    hide Recovers;
    hide RuntimeCommit;
    hide ConversationStep;
    if OpsOf(w, move).Some? {
      MoveConverses(w, move, w'.store);
    }
  }

  function Stores(life: seq<World>): (r: seq<Snapshot>)
    ensures |r| == |life| && forall i :: 0 <= i < |r| ==> r[i] == life[i].store
  {
    seq(|life|, i requires 0 <= i < |life| => life[i].store)
  }

  /** Whatever holds of every run of Runtime-shaped commits holds of every life: the shapes are the loop's doing. */
  lemma {:induction false} LivesAreRuns(life: seq<World>)
    requires IsLife(life)
    ensures IsRun(Stores(life))
  {
    hide Good;
    hide Next;
    hide Turns;
    BegunIsCreated(life[0].store);
    hide Created;
    hide Begun;
    var run := Stores(life);
    forall i | 0 <= i < |run| - 1 ensures Next(run[i], run[i + 1]) {
      LivesAreGood(life, i);
      TurnKeepsGood(life[i], life[i + 1]);
    }
  }

  /** So every hook invocation contributes at most once over a life of the loop. */
  lemma {:induction false} LivesContributeOnce(life: seq<World>, k: nat, id: InvocationID)
    requires IsLife(life) && HookContexts.Fresh(life[0].store) && k < |life|
    ensures HookContexts.Contributed(life[k].store.history, id) <= 1
    ensures HookContexts.Contributed(life[k].store.history, id) == 1 <==>
              HookContexts.Consumed(life[k].store.extensions, id)
  {
    LivesAreRuns(life);
    hide Begun;
    hide Turns;
    hide Next;
    hide Created;
    HookContexts.ContributesAtMostOnce(Stores(life), k, id);
  }

  lemma {:induction false} BegunIsCreated(s: Snapshot)
    requires Begun(s)
    ensures Created(s)
  {
    hide NewSessionValid;
    hide Readable;
    hide CreatedFrom;
  }

  /** At every point of every life the conversation is one that ValidateInputs accepts exactly when no call of the tool
      journal is unfinished; and so it is whenever the loop is about to ask the model. */
  lemma {:induction false} ModelSeesProtocol(life: seq<World>, k: nat)
    requires IsLife(life) && k < |life|
    ensures Protocol(Project(life[k].store.history)) <==> !HasUnfinishedJournal(life[k].store.journal)
    ensures life[k].phase.Ready? || !life[k].store.running ==> Protocol(Project(life[k].store.history))
  {
    LivesAreGood(life, k);
    ProtocolWhenFinished(life[k]);
  }

  lemma {:induction false} ProtocolWhenFinished(w: World)
    requires Good(w)
    ensures Protocol(Project(w.store.history)) <==> !HasUnfinishedJournal(w.store.journal)
    ensures w.phase.Ready? || !w.store.running ==> !HasUnfinishedJournal(w.store.journal)
  {
    var s := w.store;
    assert Core(s) && Accepted(s.session.id, s.history) && JournalAccepted(ScanOf(s.history).talk, s.journal);
    assert w.phase.Ready? ==> OpenCalls(s.history) == {};
    hide *;
    AnsweredIsProtocol(s.session.id, s.history);
    NoneOpen(s.history);
    if OpenCalls(s.history) == {} {
      NothingUnfinished(s);
    }
    if !HasUnfinishedJournal(s.journal) {
      IdleIsAnswered(ScanOf(s.history).talk, s.journal);
    }
    if !s.running {
      IdleHasNoneOpen(s);
    }
  }

  /** A fork of a Session at any point of its life begins a life of its own. */
  lemma {:induction false} ForkBegins(life: seq<World>, k: nat, mode: Forking.ForkMode, requested: nat,
                                      m: ForkRenaming.Renaming,
                                      sid: SessionID, agent: nat, workspace: nat, config: Config)
    requires IsLife(life) && k < |life|
    requires Forking.Forkable(life[k].store.history, life[k].store.activeRun, mode, requested)
    requires sid != 0 && sid != life[k].store.session.id && agent != 0 && workspace != 0 && config.Valid()
    requires ForkRenaming.Injective(m)
    requires var h := life[k].store.history; ForkRenaming.Covers(m, h[..Forking.Cutoff(h, mode, requested)])
    ensures var s := life[k].store;
            var cutoff := Forking.Cutoff(s.history, mode, requested);
            var history := ForkRenaming.RenameHistory(m, sid, s.history[..cutoff]);
            Begun(CreatedFrom(Forking.Child(s, history, cutoff, sid, agent, workspace, config)))
  {
    var s := life[k].store;
    var cutoff := Forking.Cutoff(s.history, mode, requested);
    LivesAreGood(life, k);
    assert HistoryOk(s) && s.revision > 0 && Readable(s.history);
    hide *;
    Forking.ForkIsAccepted(s, mode, requested, m, sid, agent, workspace, config);
    HistoryAccepted(s);
    ForkStaysReadable(m, sid, s.session.id, s.history, cutoff);
    var history := ForkRenaming.RenameHistory(m, sid, s.history[..cutoff]);
    ChildBegins(s, history, cutoff, sid, agent, workspace, config);
  }

  lemma {:induction false} HistoryAccepted(s: Snapshot)
    requires HistoryOk(s)
    ensures Accepted(s.session.id, s.history)
  {
  }

  lemma {:induction false} ChildBegins(s: Snapshot, history: seq<HistoryFact>, cutoff: nat, sid: SessionID, agent: nat,
                                       workspace: nat, config: Config)
    requires Readable(history) && NewSessionValid(Forking.Child(s, history, cutoff, sid, agent, workspace, config))
    ensures Begun(CreatedFrom(Forking.Child(s, history, cutoff, sid, agent, workspace, config)))
  {
    hide NewSessionValid;
    hide Readable;
    hide CreatedFrom;
  }
}
