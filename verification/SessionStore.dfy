/** The Stores: idempotent commits on one aggregate, in memory and in a file that is replaced atomically
    (session/memory_store.go Create, Commit, Recover; session/file_store.go Commit, persistLocked).

    A request fingerprint is idealised as the request itself: equal fingerprints mean equal requests. */
module SessionStore {
  import opened SessionTypes
  import opened HistoryChecker
  import opened Transactions
  import opened Recovery
  import opened SessionRuns
  import ProtocolHistory
  import RuntimeCommits

  type Key = nat

  datatype Request = Request(key: Key, expected: Revision, changes: seq<Change>)

  /** What a commit reports: its revision, the History sequences it appended (0, 0 for none), and whether this
      call applied it. */
  datatype Receipt = Receipt(revision: Revision, first: nat, last: nat, applied: bool)

  datatype Applied = Applied(request: Request, receipt: Receipt)

  /** An aggregate with the commits it remembers. */
  datatype Document = Document(snapshot: Snapshot, commits: map<Key, Applied>)

  /** appendedHistoryRange. */
  function ReceiptOf(before: Snapshot, after: Snapshot): (r: Receipt) {
    if |after.history| <= |before.history| then Receipt(after.revision, 0, 0, true)
    else Receipt(after.revision, |before.history| + 1, |after.history|, true)
  }

  /** The aggregate after applyChanges, if it accepts. */
  ghost function Applies(s: Snapshot, changes: seq<Change>): (r: Option<Snapshot>)
    ensures r.Some? <==> exists s' :: Commits(s, changes, s')
    ensures r.Some? ==> Commits(s, changes, r.value)
  {
    if Admissible(s, changes) && ApplyAll(s, s.revision, changes).Ok?
      && Closable(ApplyAll(s, s.revision, changes).value) then
      var last := ApplyAll(s, s.revision, changes).value;
      var after := last.(revision := last.revision + 1);
      assert Commits(s, changes, after);
      Some(after)
    else None
  }

  /** What a Store decides about a request. */
  datatype Verdict =
    | Replayed(receipt: Receipt)
    | Refused
    | Fresh(document: Document, receipt: Receipt)

  /** CommitRequest.Validate. */
  predicate RequestValid(q: Request, sid: SessionID) {
    q.key != 0 && q.changes != [] && forall i :: 0 <= i < |q.changes| ==> ChangeValid(q.changes[i], sid)
  }

  ghost function Judge(d: Document, q: Request): (v: Verdict) {
    if !RequestValid(q, d.snapshot.session.id) then Refused
    else if q.key in d.commits then
      if d.commits[q.key].request == q then Replayed(d.commits[q.key].receipt.(applied := false)) else Refused
    else if q.expected != d.snapshot.revision then Refused
    else
      var after := Applies(d.snapshot, q.changes);
      if after.None? then Refused
      else
        var receipt := ReceiptOf(d.snapshot, after.value);
        Fresh(Document(after.value, d.commits[q.key := Applied(q, receipt)]), receipt)
  }

  /** The request is one a Store looks at. */
  predicate WellFormed(q: Request, sid: SessionID) {
    && q.key != 0 && |q.changes| > 0
    && forall i :: 0 <= i < |q.changes| ==> ChangeValid(q.changes[i], sid)
  }

  /** The receipt names the revision after the expected one and exactly the appended facts. */
  ghost predicate Tells(r: Receipt, q: Request, before: Snapshot, after: Snapshot) {
    && r.applied && r.revision == q.expected + 1 == after.revision
    && before.history <= after.history
    && (if |after.history| == |before.history| then r.first == 0 && r.last == 0
        else 0 < r.first <= r.last && r.first - 1 == |before.history| && r.last == |after.history|)
  }

  /** A request is applied if and only if it is well formed, its key is new, it expects exactly the stored revision, and
      its changes are accepted; it is replayed if and only if the key remembers this very request. */
  lemma {:induction false} JudgeExact(d: Document, q: Request)
    ensures Judge(d, q).Fresh? <==>
            && WellFormed(q, d.snapshot.session.id) && q.key !in d.commits && q.expected == d.snapshot.revision
            && exists s' :: Commits(d.snapshot, q.changes, s')
    ensures Judge(d, q).Fresh? ==>
              var v := Judge(d, q);
              && Commits(d.snapshot, q.changes, v.document.snapshot)
              && Tells(v.receipt, q, d.snapshot, v.document.snapshot)
              && v.document.commits == d.commits[q.key := Applied(q, v.receipt)]
    ensures Judge(d, q).Replayed? <==>
            WellFormed(q, d.snapshot.session.id) && q.key in d.commits && d.commits[q.key].request == q
    ensures Judge(d, q).Replayed? ==> Judge(d, q).receipt == d.commits[q.key].receipt.(applied := false)
  {
    if Judge(d, q).Fresh? {
      CommitAdvances(d.snapshot, q.changes, Judge(d, q).document.snapshot);
    }
    hide Commits;
    hide ChangeValid;
  }

  lemma {:induction false} CommitAdvances(s: Snapshot, changes: seq<Change>, s': Snapshot)
    requires Commits(s, changes, s')
    ensures s'.revision == s.revision + 1 && s.history <= s'.history
  {
    var last := ApplyAll(s, s.revision, changes).value;
    ProtocolHistory.ChangeGrows(s, s.revision, changes, last);
    RuntimeCommits.ChangesKeepRevision(s, s.revision, changes, last);
  }

  // ---------------------------------------------------------------- the memory Store

  /** validateNewSession. */
  method ValidateNewSession(n: NewSession) returns (ok: bool)
    ensures ok == NewSessionValid(n)
  {
    if n.session.id == 0 || n.session.agent == 0 || n.session.workspace == 0 { return false; }
    if n.session.parent == n.session.id { return false; }
    if (n.session.parent == 0) != (n.session.parentRevision == 0) { return false; }
    if n.fork.Some? {
      if n.fork.value.parent != n.session.parent || n.session.parent == 0 { return false; }
      if n.fork.value.cutoff != |n.history| { return false; }
      for i := 0 to |n.history|
        invariant forall k :: 0 <= k < i ==> n.history[k].origin.FactOf?
      {
        if n.history[i].origin.NoFact? { return false; }
      }
    }
    if !n.config.Valid() || n.running != (n.activeRun != 0) { return false; }
    ok := ValidateQueue(n);
    if !ok { return false; }
    for i := 0 to |n.journal|
      invariant forall k :: 0 <= k < i ==>
                  && n.journal[k].Valid(n.session.id)
                  && (Unfinished(n.journal[k].status) ==> n.running && n.journal[k].run == n.activeRun)
    {
      var e := n.journal[i];
      if !e.Valid(n.session.id) { return false; }
      if Unfinished(e.status) && (!n.running || e.run != n.activeRun) { return false; }
    }
    hide Consistent;
    ok := ValidateHistoryConsistency(n.session.id, n.history, n.journal);
  }

  /** The queue loop of validateNewSession. */
  method ValidateQueue(n: NewSession) returns (ok: bool)
    ensures ok <==>
            && (forall i :: 0 <= i < |n.queue| ==> n.queue[i].Valid(n.session.id))
            && (forall i, j :: 0 <= i < j < |n.queue| ==> n.queue[i].message.id != n.queue[j].message.id)
            && ClaimsValid(n.queue, n.running, n.activeRun)
  {
    var seen: set<MessageID> := {};
    for i := 0 to |n.queue|
      invariant forall k :: 0 <= k < i ==> n.queue[k].Valid(n.session.id) && n.queue[k].message.id in seen
      invariant forall id :: id in seen ==> exists k :: 0 <= k < i && n.queue[k].message.id == id
      invariant forall k, j :: 0 <= k < j < i ==> n.queue[k].message.id != n.queue[j].message.id
    {
      var item := n.queue[i];
      if !item.Valid(n.session.id) || item.message.id in seen { return false; }
      seen := seen + {item.message.id};
    }
    return ClaimsValid(n.queue, n.running, n.activeRun);
  }

  /** A created Session: what the caller gave, at revision 1, with its facts numbered from 1. */
  predicate Begun(n: NewSession, s: Snapshot) {
    && s.session == n.session && s.revision == 1 && s.queue == n.queue && s.journal == n.journal
    && s.config == n.config && s.running == n.running && s.activeRun == n.activeRun && s.fork == n.fork
    && s.events == [] && s.extensions == [] && |s.history| == |n.history|
    && forall i :: 0 <= i < |n.history| ==>
         && s.history[i].payload == n.history[i].payload && s.history[i].origin == n.history[i].origin
         && s.history[i].sequence == i + 1 && s.history[i].session == n.session.id
         && s.history[i].id == FactOf(n.session.id, i + 1)
  }

  lemma {:induction false} BegunHere(n: NewSession)
    ensures Begun(n, CreatedFrom(n))
  {
  }

  class MemoryStore {
    var sessions: map<SessionID, Document>

    constructor ()
      ensures sessions == map[]
    {
      sessions := map[];
    }

    /** Create. */
    method Create(n: NewSession) returns (r: Result<Snapshot>)
      modifies this
      ensures r.Ok? <==> NewSessionValid(n) && n.session.id !in old(sessions)
      ensures r.Ok? ==>
                r.value == CreatedFrom(n) && sessions == old(sessions)[n.session.id := Document(CreatedFrom(n), map[])]
      ensures r.Ok? ==> Begun(n, r.value)
      ensures r.Err? ==> sessions == old(sessions)
    {
      var ok := ValidateNewSession(n);
      if !ok { return Err(InvalidInput); }
      if n.session.id in sessions { return Err(SessionAlreadyExists); }
      var s := CreatedFrom(n);
      BegunHere(n);
      sessions := sessions[n.session.id := Document(s, map[])];
      return Ok(s);
    }

    /** Commit. */
    method Commit(id: SessionID, q: Request) returns (r: Result<Receipt>)
      modifies this
      ensures id !in old(sessions) ==> r.Err? && sessions == old(sessions)
      ensures id in old(sessions) ==>
                match Judge(old(sessions)[id], q)
                case Replayed(receipt) => r == Ok(receipt) && sessions == old(sessions)
                case Refused => r.Err? && sessions == old(sessions)
                case Fresh(document, receipt) => r == Ok(receipt) && sessions == old(sessions)[id := document]
      ensures id in old(sessions) && q.key !in old(sessions)[id].commits ==>
                var d := old(sessions)[id];
                q.expected != d.snapshot.revision ==>
                  && r.Err? && sessions == old(sessions)
                  && (WellFormed(q, d.snapshot.session.id) ==> r.code == RevisionConflict)
      ensures id in old(sessions) ==>
                var d := old(sessions)[id];
                && (r.Ok? && r.value.applied && q.key !in d.commits <==>
                      && WellFormed(q, d.snapshot.session.id) && q.key !in d.commits
                      && q.expected == d.snapshot.revision && exists s' :: Commits(d.snapshot, q.changes, s'))
                && (q.key !in d.commits && r.Ok? ==>
                      && id in sessions && Commits(d.snapshot, q.changes, sessions[id].snapshot)
                      && Tells(r.value, q, d.snapshot, sessions[id].snapshot)
                      && sessions == old(sessions)[id := Document(sessions[id].snapshot,
                                                                  d.commits[q.key := Applied(q, r.value)])])
                && (q.key in d.commits ==> sessions == old(sessions))
                && (q.key in d.commits && WellFormed(q, d.snapshot.session.id) ==>
                      if d.commits[q.key].request == q then r == Ok(d.commits[q.key].receipt.(applied := false))
                      else r.Err?)
    {
      if id !in sessions { return Err(SessionNotFound); }
      var d := sessions[id];
      JudgeExact(d, q);
      hide Commits;
      hide ReceiptOf;
      if !RequestValid(q, d.snapshot.session.id) { return Err(InvalidInput); }
      if q.key in d.commits {
        if d.commits[q.key].request != q { return Err(RevisionConflict); }
        return Ok(d.commits[q.key].receipt.(applied := false));
      }
      if q.expected != d.snapshot.revision { return Err(RevisionConflict); }
      var working := ApplyChanges(d.snapshot, q.changes);
      if working.Err? { return Err(working.code); }
      var after := working.value.(revision := working.value.revision + 1);
      OneOutcome(d.snapshot, q.changes, after);
      var receipt := ReceiptOf(d.snapshot, after);
      sessions := sessions[id := Document(after, d.commits[q.key := Applied(q, receipt)])];
      return Ok(receipt);
    }

    /** Recover. */
    method Recover(id: SessionID, now: Time) returns (r: Result<Snapshot>)
      modifies this
      ensures r.Ok? <==> id in old(sessions)
      ensures r.Ok? ==> Recovers(old(sessions)[id].snapshot, r.value)
      ensures r.Ok? ==> sessions == old(sessions)[id := old(sessions)[id].(snapshot := r.value)]
      ensures r.Err? ==> sessions == old(sessions)
    {
      if id !in sessions { return Err(SessionNotFound); }
      var d := sessions[id];
      var recovered, changed, order := RecoverAggregate(d.snapshot, now);
      if changed {
        recovered := recovered.(revision := d.snapshot.revision + 1);
      }
      assert RecoversWith(d.snapshot, order, now, recovered);
      sessions := sessions[id := d.(snapshot := recovered)];
      return Ok(recovered);
    }
  }

  lemma {:induction false} OneOutcome(s: Snapshot, changes: seq<Change>, s': Snapshot)
    requires Commits(s, changes, s')
    ensures Applies(s, changes) == Some(s')
  {
  }
}
