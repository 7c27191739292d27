/** Whole lives of a Session: creation, Runtime commits, crashes and recoveries
    (session/memory_store.go Create, Commit, Recover; session/file_store.go validateFileDocument). */
module SessionRuns {
  import opened SessionTypes
  import opened ExtensionJournal
  import opened HistoryChecker
  import opened Transactions
  import opened SearchAgreement
  import opened Recovery
  import opened AggregateInvariant
  import opened RecoveryKeepsInvariant

  // ---------------------------------------------------------------- creation

  /** The initial aggregate a Manager hands to Store.Create. */
  datatype NewSession = NewSession(
    session: SessionInfo, history: seq<HistoryFact>, queue: seq<QueueItem>, journal: seq<JournalEntry>,
    config: Config, running: bool, activeRun: RunID, fork: Option<Provenance>)

  /** validateNewSession. */
  ghost predicate NewSessionValid(n: NewSession) {
    && n.session.id != 0 && n.session.agent != 0 && n.session.workspace != 0
    && n.session.parent != n.session.id
    && (n.session.parent == 0 <==> n.session.parentRevision == 0)
    && (n.fork.Some? ==>
          && n.fork.value.parent == n.session.parent && n.session.parent != 0
          && n.fork.value.cutoff == |n.history|
          && forall i :: 0 <= i < |n.history| ==> n.history[i].origin.FactOf?)
    && n.config.Valid()
    && (n.running <==> n.activeRun != 0)
    && (forall i :: 0 <= i < |n.queue| ==> n.queue[i].Valid(n.session.id))
    && (forall i, j :: 0 <= i < j < |n.queue| ==> n.queue[i].message.id != n.queue[j].message.id)
    && ClaimsValid(n.queue, n.running, n.activeRun)
    && (forall i :: 0 <= i < |n.journal| ==>
          && n.journal[i].Valid(n.session.id)
          && (Unfinished(n.journal[i].status) ==> n.running && n.journal[i].run == n.activeRun))
    && Consistent(n.session.id, n.history, n.journal)
  }

  /** prepareInitialHistory: the Store numbers the facts itself and keeps only their origin. */
  function Renumber(sid: SessionID, facts: seq<HistoryFact>): (r: seq<HistoryFact>)
    ensures |r| == |facts|
    ensures forall i :: 0 <= i < |r| ==>
              && r[i].payload == facts[i].payload && r[i].origin == facts[i].origin
              && r[i].sequence == i + 1 && r[i].session == sid && r[i].id == FactOf(sid, i + 1)
  {
    if facts == [] then []
    else
      var front := Renumber(sid, facts[..|facts| - 1]);
      var last := facts[|facts| - 1];
      front + [Envelope(front, sid, last.origin, last.payload)]
  }

  function CreatedFrom(n: NewSession): (s: Snapshot) {
    Snapshot(n.session, 1, Renumber(n.session.id, n.history), EmptyContext, [], n.queue, n.journal, [], [],
             n.config, n.running, n.activeRun, n.fork)
  }

  /** The checker looks at payloads only. */
  lemma {:induction false} PayloadsDecide(sid: SessionID, a: seq<HistoryFact>, b: seq<HistoryFact>)
    requires |a| == |b| && forall i :: 0 <= i < |a| ==> a[i].payload == b[i].payload
    ensures ScanOf(a) == ScanOf(b) && (Accepted(sid, a) <==> Accepted(sid, b))
  {
    if a != [] {
      PayloadsDecide(sid, a[..|a| - 1], b[..|b| - 1]);
    }
  }

  /** A new idle Session that the Store accepts is a good aggregate. */
  lemma {:induction false} CreateEstablishesInv(n: NewSession)
    requires NewSessionValid(n) && !n.running
    ensures Inv(CreatedFrom(n))
  {
    PayloadsDecide(n.session.id, n.history, Renumber(n.session.id, n.history));
    var s := CreatedFrom(n);
    assert HistoryOk(s) && ToolsOk(s, ScanOf(s.history).talk) && QueueOk(s) && ForkOk(s);
  }

  // ---------------------------------------------------------------- commits

  lemma {:induction false} ChangeFrame(s: Snapshot, expected: Revision, c: Change, s': Snapshot)
    requires ApplyChange(s, expected, c) == Ok(s') && ChangeValid(c, s.session.id)
    requires EventsUpTo(s, s.revision + 1)
    ensures s.history <= s'.history && s'.session == s.session && s'.revision == s.revision
    ensures EventsUpTo(s', s.revision + 1)
  {
    if c.AppendSessionEvent? {
      assert s'.events == s.events + [ConfigChanged(s.revision + 1, c.previous, c.current)];
    } else {
      assert s'.events == s.events;
    }
  }

  /** Whatever a commit contains, it only appends to History. */
  lemma {:induction false} ChangesFrame(s: Snapshot, expected: Revision, changes: seq<Change>, s': Snapshot)
    requires ApplyAll(s, expected, changes) == Ok(s')
    requires forall i :: 0 <= i < |changes| ==> ChangeValid(changes[i], s.session.id)
    requires EventsUpTo(s, s.revision + 1)
    ensures s.history <= s'.history && s'.session == s.session && s'.revision == s.revision
    ensures EventsUpTo(s', s.revision + 1)
    decreases |changes|
  {
    if changes != [] {
      var mid := ApplyChange(s, expected, changes[0]).value;
      ChangeFrame(s, expected, changes[0], mid);
      ChangesFrame(mid, expected, changes[1..], s');
    }
  }

  predicate AllValid(changes: seq<Change>, sid: SessionID) {
    forall i :: 0 <= i < |changes| ==> ChangeValid(changes[i], sid)
  }

  lemma {:induction false} AllValidSplit(a: seq<Change>, b: seq<Change>, sid: SessionID)
    requires AllValid(a + b, sid)
    ensures AllValid(a, sid) && AllValid(b, sid)
  {
    forall i | 0 <= i < |a| ensures ChangeValid(a[i], sid) { assert (a + b)[i] == a[i]; }
    forall i | 0 <= i < |b| ensures ChangeValid(b[i], sid) { assert (a + b)[|a| + i] == b[i]; }
  }

  lemma {:induction false} OpSession(s: Snapshot, op: Op, s': Snapshot)
    requires ApplyAll(s, s.revision, Changes(op)) == Ok(s') && AllValid(Changes(op), s.session.id)
    requires EventsUpTo(s, s.revision + 1)
    ensures s'.session == s.session && s'.revision == s.revision && EventsUpTo(s', s.revision + 1)
  {
    ChangesFrame(s, s.revision, Changes(op), s');
  }

  lemma {:induction false} OpsKeepCore(s: Snapshot, ops: seq<Op>, s': Snapshot)
    requires Core(s) && AllShaped(s, ops) && AllValid(Expand(ops), s.session.id) && EventsUpTo(s, s.revision + 1)
    requires ApplyAll(s, s.revision, Expand(ops)) == Ok(s')
    ensures Core(s')
    decreases |ops|
  {
    hide Core;
    hide ChangeValid;
    hide EventsUpTo;
    hide Shaped;
    if ops != [] {
      AllValidSplit(Changes(ops[0]), Expand(ops[1..]), s.session.id);
      ApplyConcat(s, s.revision, Changes(ops[0]), Expand(ops[1..]));
      var mid := ApplyAll(s, s.revision, Changes(ops[0])).value;
      assert OpValid(ops[0], s.session.id);
      OpKeepsCore(s, ops[0], mid);
      OpSession(s, ops[0], mid);
      OpsKeepCore(mid, ops[1..], s');
    }
  }

  /** Every accepted commit of the Runtime's shape keeps the whole aggregate invariant, appends to
      History and raises the revision by one. */
  lemma {:induction false} CommitKeepsInv(s: Snapshot, ops: seq<Op>, s': Snapshot)
    requires Inv(s) && RuntimeCommit(s, ops, s')
    ensures Inv(s') && s.history <= s'.history && s'.session == s.session && s'.revision == s.revision + 1
  {
    var last := ApplyAll(s, s.revision, Expand(ops)).value;
    assert AllValid(Expand(ops), s.session.id);
    assert EventsUpTo(s, s.revision + 1);
    OpsKeepCore(s, ops, last);
    ChangesFrame(s, s.revision, Expand(ops), last);
    CoreAtNextRevision(last);
  }

  lemma {:induction false} CoreAtNextRevision(s: Snapshot)
    requires Core(s)
    ensures Core(s.(revision := s.revision + 1))
  {
  }

  // ---------------------------------------------------------------- runs

  /** One step of a Session's life: an accepted Runtime commit, a recovery, or nothing durable (a read,
      a refused commit, a crash). */
  ghost predicate Next(s: Snapshot, s': Snapshot) {
    || (exists ops :: RuntimeCommit(s, ops, s'))
    || Recovers(s, s')
    || s' == s
  }

  ghost predicate Created(s: Snapshot) {
    exists n :: NewSessionValid(n) && !n.running && s == CreatedFrom(n)
  }

  ghost predicate IsRun(run: seq<Snapshot>) {
    && |run| > 0
    && Created(run[0])
    && forall i :: 0 <= i < |run| - 1 ==> Next(run[i], run[i + 1])
  }

  lemma {:induction false} NextKeepsInv(s: Snapshot, s': Snapshot)
    requires Inv(s) && Next(s, s')
    ensures Inv(s') && s.history <= s'.history && s'.session == s.session && s.revision <= s'.revision
  {
    hide Inv;
    hide RuntimeCommit;
    hide Recovers;
    if ops :| RuntimeCommit(s, ops, s') {
      CommitKeepsInv(s, ops, s');
    } else if Recovers(s, s') {
      RecoverKeepsInv(s, s');
    }
  }

  /** Safety over whole runs: every aggregate reached is good, and History is only ever appended to. */
  lemma {:induction false} RunsAreSafe(run: seq<Snapshot>, i: nat, j: nat)
    requires IsRun(run) && i <= j < |run|
    ensures Inv(run[j]) && run[i].history <= run[j].history && run[i].revision <= run[j].revision
    decreases j
  {
    hide Inv;
    hide Next;
    if j == 0 {
      var n :| NewSessionValid(n) && !n.running && run[0] == CreatedFrom(n);
      CreateEstablishesInv(n);
    } else {
      RunsAreSafe(run, if i < j then i else j - 1, j - 1);
      assert Next(run[j - 1], run[j - 1 + 1]);
      NextKeepsInv(run[j - 1], run[j]);
    }
  }

  // ---------------------------------------------------------------- durable documents

  ghost predicate OriginsAccepted(s: Snapshot) {
    s.fork.Some? ==>
      && s.fork.value.parent == s.session.parent && s.session.parent != 0 && s.fork.value.cutoff <= |s.history|
      && forall i :: 0 <= i < |s.history| ==>
           if s.history[i].sequence <= s.fork.value.cutoff then s.history[i].origin.FactOf?
             else s.history[i].origin.NoFact?
  }

  ghost predicate EntriesAccepted(s: Snapshot) {
    forall i :: 0 <= i < |s.journal| ==>
      && s.journal[i].Valid(s.session.id)
      && (Unfinished(s.journal[i].status) ==> s.running && s.journal[i].run == s.activeRun)
  }

  ghost predicate ContextsAccepted(s: Snapshot) {
    && ContextViewValid(s.context, s.session.id) && ContextRunValid(s.history, s.context)
    && forall i :: 0 <= i < |s.retained| ==>
         && ContextViewValid(s.retained[i], s.session.id) && ContextRunValid(s.history, s.retained[i])
         && s.retained[i].version < s.context.version && (i > 0 ==> s.retained[i - 1].version < s.retained[i].version)
  }

  /** The aggregate part of validateFileDocument. */
  ghost predicate DocumentAccepted(s: Snapshot) {
    && s.session.id != 0 && s.revision > 0
    && OriginsAccepted(s)
    && s.config.Valid() && (s.running <==> s.activeRun != 0)
    && (forall i :: 0 <= i < |s.history| ==> s.history[i].payload.Valid(s.session.id) && s.history[i].sequence == i + 1)
    && (forall i :: 0 <= i < |s.queue| ==> s.queue[i].Valid(s.session.id))
          && ClaimsValid(s.queue, s.running, s.activeRun)
    && (forall i, j :: 0 <= i < j < |s.queue| ==> s.queue[i].message.id != s.queue[j].message.id)
    && EntriesAccepted(s)
    && JournalValid(s.extensions, s.session.id)
    && ContextsAccepted(s)
    && Consistent(s.session.id, s.history, s.journal)
    && EventsUpTo(s, s.revision)
  }

  lemma {:induction false} PayloadsValid(sid: SessionID, h: seq<HistoryFact>)
    requires Accepted(sid, h)
    ensures forall i :: 0 <= i < |h| ==> h[i].payload.Valid(sid)
  {
    if h != [] {
      PayloadsValid(sid, h[..|h| - 1]);
      forall i | 0 <= i < |h| ensures h[i].payload.Valid(sid) {
        if i < |h| - 1 { assert h[..|h| - 1][i] == h[i]; }
      }
    }
  }

  /** Every aggregate a run reaches can be read back: the file checker accepts it. */
  lemma {:induction false} DocumentsReadBack(s: Snapshot)
    requires Inv(s)
    ensures DocumentAccepted(s)
  {
    PayloadsValid(s.session.id, s.history);
    forall v: ContextView ensures ViewOk(v, s.session.id, ScanOf(s.history).runs) ==> ContextRunValid(s.history, v) {
      RunSearch(s.history, v.run);
    }
    assert ViewsOk(s, ScanOf(s.history).runs);
  }
}
