/** Nothing whose outcome may be unknown is replayed. A tool is run, and a hook is evaluated, only on the
    strength of one successful commit that marks it pending; these lemmas show that no interleaving of
    commits, crashes and recoveries ever yields a second such commit
    (standardagent/runtime_execution.go markToolExecuting, session/memory_store.go applyJournal and
    recoverAggregate, session/extension_journal.go validateExtensionTransition).

    The commits here are arbitrary accepted commits, not only those the Runtime builds. */
module AtMostOnce {
  import opened SessionTypes
  import opened ExtensionJournal
  import opened HistoryChecker
  import opened Transactions
  import opened Recovery
  import opened RecoveryKeepsInvariant
  import opened SessionRuns

  /** Something with an outside effect: one tool call, or one hook invocation. */
  datatype Effectful = ToolRun(call: ToolCallID) | HookRun(invocation: InvocationID)

  /** The change is the durable mark after which `x` may be run. */
  predicate Marks(c: Change, x: Effectful) {
    match x
    case ToolRun(id) => c.UpdateRunJournal? && c.entry.status == JournalPending && c.entry.call.id == id
    case HookRun(id) =>
      && c.UpdateExtensionJournal? && c.extension.status.InvocationPending?
      && c.extension.identity.invocation == id
  }

  predicate CommitMarks(changes: seq<Change>, x: Effectful) {
    exists i :: 0 <= i < |changes| && Marks(changes[i], x)
  }

  /** The durable journal shows `x` beyond `prepared`. */
  ghost predicate Past(s: Snapshot, x: Effectful) {
    match x
    case ToolRun(id) =>
      exists i :: 0 <= i < |s.journal| && s.journal[i].call.id == id && s.journal[i].status != JournalPrepared
    case HookRun(id) =>
      exists i :: 0 <= i < |s.extensions| && s.extensions[i].identity.invocation == id
        && !s.extensions[i].status.InvocationPrepared?
  }

  ghost predicate JournalsOk(s: Snapshot) {
    UniqueCalls(s.journal) && JournalValid(s.extensions, s.session.id)
  }

  // ---------------------------------------------------------------- one change

  lemma {:induction false} JournalChange(s: Snapshot, e: JournalEntry, s': Snapshot, x: Effectful)
    requires JournalsOk(s) && ApplyJournal(s, e) == Ok(s')
    ensures JournalsOk(s') && (Past(s, x) ==> Past(s', x))
    ensures Marks(UpdateRunJournal(e), x) ==> !Past(s, x) && Past(s', x)
  {
    hide EntryValid;
    var i := JournalIndex(s.journal, e.call.id);
    assert s'.journal[i].call.id == e.call.id && (e.status != JournalPrepared ==> s'.journal[i].status == e.status);
    assert forall k :: 0 <= k < |s.journal| && k != i ==> s'.journal[k] == s.journal[k];
    assert i < |s.journal| ==> s'.journal[i].status != JournalPrepared;
    if x.ToolRun? && Past(s, x) {
      var k :| 0 <= k < |s.journal| && s.journal[k].call.id == x.call && s.journal[k].status != JournalPrepared;
      assert s'.journal[k].call.id == x.call && s'.journal[k].status != JournalPrepared;
    }
  }

  lemma {:induction false} PendingFollowsPrepared(current: ExtensionEntry, next: ExtensionEntry)
    requires TransitionOk(current, next)
    ensures next.status.InvocationPending? ==> current.status.InvocationPrepared?
    ensures !next.status.InvocationPrepared?
  {
  }

  lemma {:induction false} ExtensionChange(s: Snapshot, e: ExtensionEntry, s': Snapshot, x: Effectful)
    requires JournalsOk(s) && ApplyExtensionChange(s, e) == Ok(s')
    ensures JournalsOk(s') && (Past(s, x) ==> Past(s', x))
    ensures Marks(UpdateExtensionJournal(e), x) ==> !Past(s, x) && Past(s', x)
  {
    ApplyExtensionKeeps(s.extensions, s.session.id, e);
    assert e.identity.sequence != 0 by { assert EntryValid(e, s.session.id); }
    hide EntryValid;
    hide Descends;
    var i := e.identity.sequence - 1;
    if i < |s.extensions| {
      PendingFollowsPrepared(s.extensions[i], e);
    }
    assert s'.extensions[i] == e;
    hide TransitionOk;
    assert forall k :: 0 <= k < |s.extensions| && k != i ==> s'.extensions[k] == s.extensions[k];
    if x.HookRun? && Past(s, x) {
      var k :| 0 <= k < |s.extensions| && s.extensions[k].identity.invocation == x.invocation
        && !s.extensions[k].status.InvocationPrepared?;
      assert s'.extensions[k].identity.invocation == x.invocation && !s'.extensions[k].status.InvocationPrepared?;
    }
  }

  lemma {:induction false} OtherChange(s: Snapshot, expected: Revision, c: Change, s': Snapshot)
    requires ApplyChange(s, expected, c) == Ok(s') && !c.UpdateRunJournal? && !c.UpdateExtensionJournal?
    ensures s'.journal == s.journal && s'.extensions == s.extensions && s'.session == s.session
  {
  }

  lemma {:induction false} OneChange(s: Snapshot, expected: Revision, c: Change, s': Snapshot, x: Effectful)
    requires JournalsOk(s) && ApplyChange(s, expected, c) == Ok(s')
    ensures JournalsOk(s') && (Past(s, x) ==> Past(s', x))
    ensures Marks(c, x) ==> !Past(s, x) && Past(s', x)
  {
    if c.UpdateRunJournal? {
      JournalChange(s, c.entry, s', x);
    } else if c.UpdateExtensionJournal? {
      ExtensionChange(s, c.extension, s', x);
    } else {
      OtherChange(s, expected, c, s');
    }
  }

  // ---------------------------------------------------------------- commits and recoveries

  lemma {:induction false} AllChanges(s: Snapshot, expected: Revision, changes: seq<Change>, s': Snapshot, x: Effectful)
    requires JournalsOk(s) && ApplyAll(s, expected, changes) == Ok(s')
    ensures JournalsOk(s') && (Past(s, x) ==> Past(s', x))
    ensures CommitMarks(changes, x) ==> !Past(s, x) && Past(s', x)
    decreases |changes|
  {
    hide JournalsOk;
    hide Past;
    hide Marks;
    hide ApplyChange;
    if changes != [] {
      var mid := ApplyChange(s, expected, changes[0]).value;
      OneChange(s, expected, changes[0], mid, x);
      AllChanges(mid, expected, changes[1..], s', x);
      if CommitMarks(changes, x) && !Marks(changes[0], x) {
        var i :| 0 <= i < |changes| && Marks(changes[i], x);
        assert changes[1..][i - 1] == changes[i];
      }
    }
  }

  /** An accepted commit that marks `x` finds it not yet past `prepared` and leaves it past. No commit,
      whatever it contains, takes it back. */
  lemma {:induction false} MarkingIsFirst(s: Snapshot, changes: seq<Change>, s': Snapshot, x: Effectful)
    requires JournalsOk(s) && Commits(s, changes, s')
    ensures JournalsOk(s') && (Past(s, x) ==> Past(s', x))
    ensures CommitMarks(changes, x) ==> !Past(s, x) && Past(s', x)
  {
    AllChanges(s, s.revision, changes, ApplyAll(s, s.revision, changes).value, x);
  }

  lemma {:induction false} RepairedJournals(s: Snapshot, order: seq<AttemptID>, now: Time)
    requires forall i :: 0 <= i < |order| ==> order[i] in ScanOf(s.history).attempts.starts
    ensures var r := Recovered(s, order, now);
            && r.session == s.session && r.extensions == RecoverExtensions(s.extensions, now)
            && |r.journal| == |s.journal|
            && forall k :: 0 <= k < |s.journal| ==>
                 && r.journal[k].call == s.journal[k].call
                 && (s.journal[k].status != JournalPrepared ==> r.journal[k].status != JournalPrepared)
  {
    hide ScanOf;
    hide ReleaseQueue;
    var extended := s.(extensions := RecoverExtensions(s.extensions, now));
    CloseAttemptsFrame(extended, ScanOf(s.history).attempts.starts, order);
    var closed := CloseAttempts(extended, ScanOf(s.history).attempts.starts, order);
    assert closed.(journal := s.journal) == closed;
    SettleFrame(closed, |s.journal|);
    hide SettlePending;
    hide Resumable;
    hide FindRun;
  }

  lemma {:induction false} RecoveryKeepsPast(s: Snapshot, s': Snapshot, x: Effectful)
    requires JournalsOk(s) && Recovers(s, s')
    ensures JournalsOk(s') && (Past(s, x) ==> Past(s', x))
  {
    var order, now :| RecoversWith(s, order, now, s');
    assert forall i :: 0 <= i < |order| ==> order[i] in ScanOf(s.history).attempts.starts;
    hide ScanOf;
    RepairedJournals(s, order, now);
    ExtensionsRecovered(s.extensions, now, s.session.id);
    hide Recovered;
    hide EntryValid;
    match x {
      case ToolRun(id) =>
        if Past(s, x) {
          var i :| 0 <= i < |s.journal| && s.journal[i].call.id == id && s.journal[i].status != JournalPrepared;
          assert s'.journal[i].call.id == id && s'.journal[i].status != JournalPrepared;
        }
      case HookRun(id) =>
        if Past(s, x) {
          var i :| 0 <= i < |s.extensions| && s.extensions[i].identity.invocation == id
            && !s.extensions[i].status.InvocationPrepared?;
          assert s'.extensions[i].identity.invocation == id && !s'.extensions[i].status.InvocationPrepared?;
        }
    }
  }

  // ---------------------------------------------------------------- whole lives

  /** A Session together with what its processes know and have done. `armed` holds what a process has
      marked successfully and not yet run; it is memory, lost with the process. `done` lists, over all
      processes, what was run. */
  datatype World = World(store: Snapshot, armed: set<Effectful>, done: seq<Effectful>)

  datatype Step =
    | CommitStep(changes: seq<Change>)
    | RecoverStep
    | InvokeStep(what: Effectful)
    | CrashStep

  /** A commit may be durable although its caller saw an error, so it arms any part of what it marked. */
  ghost predicate Takes(w: World, step: Step, w': World) {
    match step
    case CommitStep(changes) =>
      && Commits(w.store, changes, w'.store) && w'.done == w.done
      && forall x :: x in w'.armed ==> x in w.armed || CommitMarks(changes, x)
    case RecoverStep => Recovers(w.store, w'.store) && w'.armed == w.armed && w'.done == w.done
    case InvokeStep(x) => x in w.armed && w' == World(w.store, w.armed - {x}, w.done + [x])
    case CrashStep => w' == World(w.store, {}, w.done)
  }

  ghost predicate Life(worlds: seq<World>, steps: seq<Step>) {
    && |worlds| == |steps| + 1
    && Created(worlds[0].store) && worlds[0].armed == {} && worlds[0].done == []
    && forall i :: 0 <= i < |steps| ==> Takes(worlds[i], steps[i], worlds[i + 1])
  }

  function Times(log: seq<Effectful>, x: Effectful): (n: nat) {
    if log == [] then 0 else Times(log[..|log| - 1], x) + if log[|log| - 1] == x then 1 else 0
  }

  /** What is armed or done is durably past `prepared`; what is armed has not been done. */
  ghost predicate Accounted(w: World, x: Effectful) {
    && JournalsOk(w.store)
    && (x in w.armed ==> Past(w.store, x) && Times(w.done, x) == 0)
    && (Times(w.done, x) > 0 ==> Past(w.store, x))
    && Times(w.done, x) <= 1
  }

  lemma {:induction false} StepAccounted(w: World, step: Step, w': World, x: Effectful)
    requires Accounted(w, x) && Takes(w, step, w')
    ensures Accounted(w', x)
  {
    hide JournalsOk;
    hide Past;
    hide Commits;
    hide Recovers;
    match step {
      case CommitStep(changes) => MarkingIsFirst(w.store, changes, w'.store, x);
      case RecoverStep => RecoveryKeepsPast(w.store, w'.store, x);
      case InvokeStep(y) => assert w'.done[..|w.done|] == w.done;
      case CrashStep =>
    }
  }

  lemma {:induction false} NewJournals(s: Snapshot)
    requires Created(s)
    ensures JournalsOk(s)
  {
    var n :| NewSessionValid(n) && !n.running && s == CreatedFrom(n);
    assert JournalAccepted(ScanOf(n.history).talk, n.journal);
  }

  lemma {:induction false} LifeAccounted(worlds: seq<World>, steps: seq<Step>, k: nat, x: Effectful)
    requires Life(worlds, steps) && k < |worlds|
    ensures Accounted(worlds[k], x)
  {
    if k == 0 {
      NewJournals(worlds[0].store);
    } else {
      hide Accounted;
      hide Takes;
      hide Created;
      LifeAccounted(worlds, steps, k - 1, x);
      assert Takes(worlds[k - 1], steps[k - 1], worlds[k - 1 + 1]);
      StepAccounted(worlds[k - 1], steps[k - 1], worlds[k], x);
    }
  }

  /** Across every interleaving of commits, crashes, recoveries and resumes, each tool call is run at most
      once and each hook invocation is evaluated at most once. */
  lemma {:induction false} RunAtMostOnce(worlds: seq<World>, steps: seq<Step>, k: nat, x: Effectful)
    requires Life(worlds, steps) && k < |worlds|
    ensures Times(worlds[k].done, x) <= 1
  {
    LifeAccounted(worlds, steps, k, x);
  }

  lemma {:induction false} StepKeepsPast(w: World, step: Step, w': World, x: Effectful)
    requires JournalsOk(w.store) && Past(w.store, x) && Takes(w, step, w')
    ensures Past(w'.store, x)
  {
    hide JournalsOk;
    hide Past;
    hide Commits;
    hide Recovers;
    if step.CommitStep? {
      MarkingIsFirst(w.store, step.changes, w'.store, x);
    } else if step.RecoverStep? {
      RecoveryKeepsPast(w.store, w'.store, x);
    }
  }

  lemma {:induction false} PastStays(worlds: seq<World>, steps: seq<Step>, i: nat, j: nat, x: Effectful)
    requires Life(worlds, steps) && i <= j < |worlds| && Past(worlds[i].store, x)
    ensures Past(worlds[j].store, x)
    decreases j - i
  {
    hide JournalsOk;
    hide Past;
    hide Takes;
    if i < j {
      PastStays(worlds, steps, i, j - 1, x);
      LifeAccounted(worlds, steps, j - 1, x);
      assert Takes(worlds[j - 1], steps[j - 1], worlds[j - 1 + 1]);
      StepKeepsPast(worlds[j - 1], steps[j - 1], worlds[j], x);
    }
  }

  /** There is only one route: of all commits ever accepted, at most one marks a given call or invocation. */
  lemma {:induction false} MarkedAtMostOnce(worlds: seq<World>, steps: seq<Step>, i: nat, j: nat, x: Effectful)
    requires Life(worlds, steps) && i < |steps| && j < |steps|
    requires steps[i].CommitStep? && CommitMarks(steps[i].changes, x)
    requires steps[j].CommitStep? && CommitMarks(steps[j].changes, x)
    ensures i == j
  {
    hide Past;
    hide Commits;
    hide JournalsOk;
    if i != j {
      var a, b := if i < j then i else j, if i < j then j else i;
      LifeAccounted(worlds, steps, a, x);
      LifeAccounted(worlds, steps, b, x);
      assert Takes(worlds[a], steps[a], worlds[a + 1]) && Takes(worlds[b], steps[b], worlds[b + 1]);
      MarkingIsFirst(worlds[a].store, steps[a].changes, worlds[a + 1].store, x);
      MarkingIsFirst(worlds[b].store, steps[b].changes, worlds[b + 1].store, x);
      PastStays(worlds, steps, a + 1, b, x);
    }
  }
}
