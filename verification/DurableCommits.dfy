/** Durability of commits over persistence failures and process crashes (session/file_store.go). */
module DurableCommits {
  import opened SessionTypes
  import opened HistoryChecker
  import opened Transactions
  import opened Recovery
  import opened AggregateInvariant
  import opened RecoveryKeepsInvariant
  import opened SessionRuns
  import opened ProtocolHistory
  import opened SessionStore
  import opened GuardGaps

  // ---------------------------------------------------------------- replacing a file

  /** The bytes of a file: a whole document, or what an interrupted write left. */
  datatype Content = Whole(document: Document) | Torn

  /** The session file, and the temporary file beside it. */
  datatype Disk = Disk(main: Content, temp: Option<Content>)

  /** Where persistLocked stands: what it does next, or how it ended. */
  datatype Stage = CreateTemp | WriteTemp | SyncTemp | CloseTemp | RenameTemp | SyncDirectory | Ended(ok: bool)

  /** How the next file operation turns out. A write may also stop short. */
  datatype Luck = Works | Fails

  function Cleanup(d: Disk): (r: Disk) { d.(temp := None) }

  /** One file operation of persistLocked. */
  function Persist(stage: Stage, d: Disk, document: Document, luck: Luck): (r: (Stage, Disk)) {
    match stage
    case CreateTemp => if luck.Fails? then (Ended(false), d) else (WriteTemp, d.(temp := Some(Torn)))
    case WriteTemp =>
      if luck.Fails? then (Ended(false), Cleanup(d)) else (SyncTemp, d.(temp := Some(Whole(document))))
    case SyncTemp => if luck.Fails? then (Ended(false), Cleanup(d)) else (CloseTemp, d)
    case CloseTemp => if luck.Fails? then (Ended(false), Cleanup(d)) else (RenameTemp, d)
    case RenameTemp =>
      if luck.Fails? || d.temp.None? then (Ended(false), Cleanup(d)) else (SyncDirectory, Disk(d.temp.value, None))
    case SyncDirectory => (Ended(luck.Works?), d)
    case Ended(_) => (stage, d)
  }

  /** Running as many operations as there is luck for; a crash is the end of the list. */
  function PersistAll(d: Disk, document: Document, lucks: seq<Luck>): (r: (Stage, Disk)) {
    if lucks == [] then (CreateTemp, d)
    else
      var (stage, disk) := PersistAll(d, document, lucks[..|lucks| - 1]);
      Persist(stage, disk, document, lucks[|lucks| - 1])
  }

  /** How far a write has come when nothing has failed. */
  function StageAfter(works: nat): (r: Stage) {
    match works
    case 0 => CreateTemp
    case 1 => WriteTemp
    case 2 => SyncTemp
    case 3 => CloseTemp
    case 4 => RenameTemp
    case 5 => SyncDirectory
    case _ => Ended(true)
  }

  /** A write is acknowledged if and only if its six operations all work; then the file holds the new document and
      nothing is left beside it. */
  lemma {:induction false} AcknowledgedExact(d: Disk, document: Document, lucks: seq<Luck>)
    ensures var (stage, disk) := PersistAll(d, document, lucks);
            && (stage == Ended(true) <==> |lucks| >= 6 && forall i :: 0 <= i < 6 ==> lucks[i].Works?)
            && (stage == Ended(true) ==> disk == Disk(Whole(document), None))
            && ((forall i :: 0 <= i < |lucks| && i < 6 ==> lucks[i].Works?) ==> stage == StageAfter(|lucks|))
            && (stage == SyncDirectory ==> disk == Disk(Whole(document), None))
            && ((exists i :: 0 <= i < |lucks| && i < 6 && lucks[i].Fails?) ==> stage == Ended(false))
            && (stage.SyncTemp? || stage.CloseTemp? || stage.RenameTemp? ==> disk.temp == Some(Whole(document)))
  {
    if lucks != [] {
      AcknowledgedExact(d, document, lucks[..|lucks| - 1]);
    }
  }

  /** Whatever fails and wherever the process dies, the session file holds the complete old document or the
      complete new one; an acknowledged write is the new one. */
  lemma {:induction false} OldOrNew(d: Disk, document: Document, lucks: seq<Luck>)
    ensures var (stage, disk) := PersistAll(d, document, lucks);
            && (disk.main == d.main || disk.main == Whole(document))
            && (stage == Ended(true) || stage == SyncDirectory ==> disk.main == Whole(document))
            && (stage.CreateTemp? || stage.WriteTemp? || stage.SyncTemp? || stage.CloseTemp? || stage.RenameTemp? ==>
                  disk.main == d.main)
            && (stage.SyncTemp? || stage.CloseTemp? || stage.RenameTemp? ==> disk.temp == Some(Whole(document)))
  {
    if lucks != [] {
      OldOrNew(d, document, lucks[..|lucks| - 1]);
    }
  }

  // ---------------------------------------------------------------- reading a file

  /** validateFileDocument: every read of a session file makes these checks. */
  ghost predicate ReadsBack(d: Document) {
    && d.snapshot.session.agent != 0 && d.snapshot.session.workspace != 0
    && DocumentAccepted(d.snapshot)
    && forall key :: key in d.commits ==> key != 0 && 0 < d.commits[key].receipt.revision <= d.snapshot.revision
  }

  /** What the file Store says: nothing but an error when its document does not read back. */
  datatype Answer = Unrecoverable | Answers(verdict: Verdict)

  ghost function FileJudge(d: Document, q: Request): (a: Answer) {
    if ReadsBack(d) then Answers(Judge(d, q)) else Unrecoverable
  }

  // ---------------------------------------------------------------- runs of a Store

  /** What became of the document a commit wanted to write. */
  datatype Fate = Saved | SavedUnacknowledged | Lost

  datatype Event = CommitEvent(request: Request, fate: Fate) | RecoverEvent | CrashEvent

  /** The event applied the request's changes. */
  ghost predicate AppliesNow(d: Document, e: Event, key: Key) {
    e.CommitEvent? && e.request.key == key && ReadsBack(d) && Judge(d, e.request).Fresh? && !e.fate.Lost?
  }

  /** The durable document after an event. */
  ghost predicate Step(d: Document, e: Event, d': Document) {
    match e
    case CommitEvent(q, _) => d' == if AppliesNow(d, e, q.key) then Judge(d, q).document else d
    case RecoverEvent =>
      d'.commits == d.commits && (d' == d || (ReadsBack(d) && Recovers(d.snapshot, d'.snapshot)))
    case CrashEvent => d' == d
  }

  ghost predicate IsRun(docs: seq<Document>, events: seq<Event>) {
    && |docs| == |events| + 1
    && docs[0].commits == map[] && Created(docs[0].snapshot)
    && forall i :: 0 <= i < |events| ==> Step(docs[i], events[i], docs[i + 1])
  }

  /** Every event leaves the complete old document or the complete new one, whichever way its writes turn out. */
  lemma {:induction false} FatesAreOldOrNew(d: Document, q: Request, lucks: seq<Luck>) returns (fate: Fate)
    requires Judge(d, q).Fresh?
    ensures var v := Judge(d, q);
            var (stage, disk) := PersistAll(Disk(Whole(d), None), v.document, lucks);
            && disk.main == Whole(if fate.Lost? then d else v.document)
            && (fate.Saved? <==> stage == Ended(true))
  {
    var v := Judge(d, q);
    OldOrNew(Disk(Whole(d), None), v.document, lucks);
    var (stage, disk) := PersistAll(Disk(Whole(d), None), v.document, lucks);
    fate := if stage == Ended(true) then Saved else if disk.main == Whole(d) then Lost else SavedUnacknowledged;
  }

  /** A remembered commit is never forgotten and never changed. */
  lemma {:induction false} RemembersStep(d: Document, e: Event, d': Document, key: Key)
    requires Step(d, e, d')
    ensures key in d.commits ==> key in d'.commits && d'.commits[key] == d.commits[key]
    ensures AppliesNow(d, e, key) ==>
              && key !in d.commits && key in d'.commits
              && d'.commits[key] == Applied(e.request, Judge(d, e.request).receipt)
              && RequestValid(e.request, d.snapshot.session.id)
    ensures key in d'.commits && key !in d.commits ==> AppliesNow(d, e, key)
  {
    hide ReadsBack;
    hide Applies;
    hide Recovers;
  }

  lemma {:induction false} Remembers(docs: seq<Document>, events: seq<Event>, i: nat, j: nat, key: Key)
    requires IsRun(docs, events) && i <= j < |docs| && key in docs[i].commits
    ensures key in docs[j].commits && docs[j].commits[key] == docs[i].commits[key]
    decreases j - i
  {
    hide Step;
    if i < j {
      Remembers(docs, events, i, j - 1, key);
      assert Step(docs[j - 1], events[j - 1], docs[j - 1 + 1]);
      RemembersStep(docs[j - 1], events[j - 1], docs[j], key);
    }
  }

  /** One idempotency key applies its changes at most once, over every run of commits, failures and crashes. */
  lemma {:induction false} AppliedAtMostOnce(docs: seq<Document>, events: seq<Event>, i: nat, j: nat, key: Key)
    requires IsRun(docs, events) && i < |events| && j < |events|
    requires AppliesNow(docs[i], events[i], key) && AppliesNow(docs[j], events[j], key)
    ensures i == j
  {
    if i != j {
      var a, b := if i < j then i else j, if i < j then j else i;
      hide Judge;
      hide Step;
      hide ReadsBack;
      assert Step(docs[a], events[a], docs[a + 1]) && Step(docs[b], events[b], docs[b + 1]);
      RemembersStep(docs[a], events[a], docs[a + 1], key);
      RemembersStep(docs[b], events[b], docs[b + 1], key);
      Remembers(docs, events, a + 1, b, key);
    }
  }

  lemma {:induction false} StepRevision(d: Document, e: Event, d': Document)
    requires Step(d, e, d')
    ensures d.snapshot.revision <= d'.snapshot.revision
    ensures e.CommitEvent? && AppliesNow(d, e, e.request.key) ==>
              e.request.expected == d.snapshot.revision && d'.snapshot.revision == d.snapshot.revision + 1
  {
    hide ReadsBack;
    hide Commits;
    hide WellFormed;
    if e.CommitEvent? {
      JudgeExact(d, e.request);
      hide Judge;
    } else if e.RecoverEvent? && d' != d {
      RecoveredRevision(d.snapshot, d'.snapshot);
    }
  }

  lemma {:induction false} RecoveredRevision(s: Snapshot, s': Snapshot)
    requires Recovers(s, s')
    ensures s.revision <= s'.revision
  {
    hide Recovered;
  }

  lemma {:induction false} RevisionsGrow(docs: seq<Document>, events: seq<Event>, i: nat, j: nat)
    requires IsRun(docs, events) && i <= j < |docs|
    ensures docs[i].snapshot.revision <= docs[j].snapshot.revision
    decreases j - i
  {
    hide Step;
    if i < j {
      RevisionsGrow(docs, events, i, j - 1);
      assert Step(docs[j - 1], events[j - 1], docs[j - 1 + 1]);
      StepRevision(docs[j - 1], events[j - 1], docs[j]);
    }
  }

  /** Commits compare and swap: whatever is applied expected exactly the revision it met, so of two applied commits the
      later one expected a strictly larger revision, and no two were made from the same one. */
  lemma {:induction false} AppliedInOrder(docs: seq<Document>, events: seq<Event>, i: nat, j: nat)
    requires IsRun(docs, events) && i < j < |events| && events[i].CommitEvent? && events[j].CommitEvent?
    requires AppliesNow(docs[i], events[i], events[i].request.key)
    requires AppliesNow(docs[j], events[j], events[j].request.key)
    ensures events[i].request.expected == docs[i].snapshot.revision
    ensures events[j].request.expected == docs[j].snapshot.revision
    ensures events[i].request.expected < events[j].request.expected
  {
    hide AppliesNow;
    hide Step;
    assert Step(docs[i], events[i], docs[i + 1]) && Step(docs[j], events[j], docs[j + 1]);
    StepRevision(docs[i], events[i], docs[i + 1]);
    StepRevision(docs[j], events[j], docs[j + 1]);
    RevisionsGrow(docs, events, i + 1, j);
  }

  /** Once durable, a retry with the same key is answered if and only if the stored document still reads back; then an
      equal request gets the original revision and History range with Applied false, even after later commits, and a
      different one is refused. Nothing is applied in any case. */
  lemma {:induction false} RetriesAgree(docs: seq<Document>, events: seq<Event>, i: nat, j: nat, q: Request)
    requires IsRun(docs, events) && i < |events| && i < j < |docs| && AppliesNow(docs[i], events[i], q.key)
    ensures var original := Judge(docs[i], events[i].request);
            && (FileJudge(docs[j], q).Answers? <==> ReadsBack(docs[j]))
            && (ReadsBack(docs[j]) ==>
                  FileJudge(docs[j], q).verdict ==
                  if q == events[i].request then Replayed(original.receipt.(applied := false)) else Refused)
  {
    var key := q.key;
    assert Step(docs[i], events[i], docs[i + 1]);
    RemembersStep(docs[i], events[i], docs[i + 1], key);
    SameSession(docs, events, i, j);
    hide Step;
    hide Applies;
    hide ReadsBack;
    hide RequestValid;
    Remembers(docs, events, i + 1, j, key);
  }

  // ---------------------------------------------------------------- documents that read back

  /** A document that does not read back stays as it is: every commit and every recovery fails from then on. */
  lemma {:induction false} UnreadableForever(docs: seq<Document>, events: seq<Event>, i: nat, j: nat)
    requires IsRun(docs, events) && i <= j < |docs| && !ReadsBack(docs[i])
    ensures docs[j] == docs[i]
    decreases j - i
  {
    hide ReadsBack;
    hide Judge;
    if i < j {
      UnreadableForever(docs, events, i, j - 1);
      assert Step(docs[j - 1], events[j - 1], docs[j - 1 + 1]);
    }
  }

  /** A fresh request whose changes the Store accepts, seen as an event of a run. */
  lemma {:induction false} FreshStep(d: Document, q: Request, s': Snapshot) returns (d': Document)
    requires ReadsBack(d) && q.key != 0 && q.key !in d.commits && q.expected == d.snapshot.revision && q.changes != []
    requires Commits(d.snapshot, q.changes, s')
    ensures Judge(d, q).Fresh? && d' == Judge(d, q).document && d'.snapshot == s'
    ensures d'.commits == d.commits[q.key := Applied(q, Judge(d, q).receipt)] && s'.session == d.snapshot.session
    ensures RequestValid(q, s'.session.id)
    ensures AppliesNow(d, CommitEvent(q, Saved), q.key) && Step(d, CommitEvent(q, Saved), d')
  {
    SameIdentity(d.snapshot, q.changes, s');
    OneOutcome(d.snapshot, q.changes, s');
    hide Commits;
    hide Applies;
    hide ReadsBack;
    hide ChangeValid;
    d' := Judge(d, q).document;
  }

  lemma {:induction false} OpeningIsApplied(d: Document, q: Request)
    requires d == Document(Opened, map[]) && q.changes == Opening && Judge(d, q).Fresh? && Created(Opened)
    ensures ReadsBack(Judge(d, q).document)
  {
    var ops := [StartRun(StartOf(1))];
    assert ops[1..] == [] && Expand(ops) == Opening && AllShaped(Opened, ops);
    hide *;
    StartIsSound(d);
    AppliedIsSound(d, q, ops);
    SoundReadsBack(Judge(d, q).document);
  }

  lemma {:induction false} EmptyIsValid()
    ensures Created(Opened) && Opening != []
  {
  }

  lemma {:induction false} ActiveIs(s: Snapshot)
    requires s.running && s.activeRun == 1
    ensures IsActive(s, 1)
  {
  }

  /** Such a document is reached: an empty Session is created, its first Run starts, and then the lone pending update
      that the Store's guards admit becomes durable. Its own equal retry is never answered. */
  lemma {:induction false} LonePendingUnreadable(key: Key) returns (docs: seq<Document>, events: seq<Event>)
    requires key != 0
    ensures IsRun(docs, events) && |events| == 2
    ensures AppliesNow(docs[1], events[1], key) && !ReadsBack(docs[2])
    ensures Judge(docs[2], events[1].request).Replayed? && FileJudge(docs[2], events[1].request).Unrecoverable?
  {
    hide *;
    var s := FirstRun();
    ActiveIs(s);
    var s' := LonePendingCommits(s);
    var d := Document(Opened, map[]);
    var first := Request(key + 1, Opened.revision, Opening);
    var q := Request(key, s.revision, [UpdateRunJournal(PendingEntry(Call1))]);
    EmptyIsValid();
    StartIsSound(d);
    SoundReadsBack(d);
    var d1 := FreshStep(d, first, s);
    OpeningIsApplied(d, first);
    var d2 := FreshStep(d1, q, s');
    NotAccepted(d2);
    RetryReplays(d2, q);
    TwoSteps(d, CommitEvent(first, Saved), d1, CommitEvent(q, Saved), d2);
    docs, events := [d, d1, d2], [CommitEvent(first, Saved), CommitEvent(q, Saved)];
  }

  lemma {:induction false} NotAccepted(d: Document)
    requires !Consistent(d.snapshot.session.id, d.snapshot.history, d.snapshot.journal)
    ensures !ReadsBack(d)
  {
  }

  lemma {:induction false} RetryReplays(d: Document, q: Request)
    requires RequestValid(q, d.snapshot.session.id) && q.key in d.commits && d.commits[q.key].request == q
    requires !ReadsBack(d)
    ensures Judge(d, q).Replayed? && FileJudge(d, q).Unrecoverable?
  {
  }

  lemma {:induction false} TwoSteps(a: Document, x: Event, b: Document, y: Event, c: Document)
    requires a.commits == map[] && Created(a.snapshot) && Step(a, x, b) && Step(b, y, c)
    ensures IsRun([a, b, c], [x, y])
  {
    hide Step;
    hide Created;
  }

  lemma {:induction false} SameIdentity(s: Snapshot, changes: seq<Change>, s': Snapshot)
    requires Commits(s, changes, s')
    ensures s'.session == s.session && forall i :: 0 <= i < |changes| ==> ChangeValid(changes[i], s.session.id)
  {
    ChangeGrows(s, s.revision, changes, ApplyAll(s, s.revision, changes).value);
  }

  /** Every commit that is applied has the shape the Runtime gives it. */
  ghost predicate RuntimeRun(docs: seq<Document>, events: seq<Event>) {
    && IsRun(docs, events)
    && forall i ::
         0 <= i < |events| && events[i].CommitEvent? && AppliesNow(docs[i], events[i], events[i].request.key) ==>
           exists ops :: events[i].request.changes == Expand(ops) && AllShaped(docs[i].snapshot, ops)
  }

  /** The aggregate is good, its Session has a scope, and remembered revisions lie in the past. */
  ghost predicate Sound(d: Document) {
    && Inv(d.snapshot) && d.snapshot.session.agent != 0 && d.snapshot.session.workspace != 0
    && forall key :: key in d.commits ==> key != 0 && 0 < d.commits[key].receipt.revision <= d.snapshot.revision
  }

  lemma {:induction false} SoundReadsBack(d: Document)
    requires Sound(d)
    ensures ReadsBack(d)
  {
    DocumentsReadBack(d.snapshot);
  }

  lemma {:induction false} AppliedIsSound(d: Document, q: Request, ops: seq<Op>)
    requires Sound(d) && Judge(d, q).Fresh? && q.changes == Expand(ops) && AllShaped(d.snapshot, ops)
    ensures Sound(Judge(d, q).document)
  {
    var after := Applies(d.snapshot, q.changes).value;
    assert Commits(d.snapshot, q.changes, after) && q.key != 0;
    hide Applies;
    hide Inv;
    hide Commits;
    hide AllShaped;
    CommitKeepsInv(d.snapshot, ops, after);
  }

  lemma {:induction false} RecoveredIsSound(d: Document, d': Document)
    requires Sound(d) && d'.commits == d.commits && Recovers(d.snapshot, d'.snapshot)
    ensures Sound(d')
  {
    hide Inv;
    hide Recovers;
    RecoverKeepsInv(d.snapshot, d'.snapshot);
  }

  lemma {:induction false} StartIsSound(d: Document)
    requires d.commits == map[] && Created(d.snapshot)
    ensures Sound(d)
  {
    var n :| NewSessionValid(n) && !n.running && d.snapshot == CreatedFrom(n);
    assert n.session.agent != 0 && n.session.workspace != 0;
    hide NewSessionValid;
    hide Inv;
    CreateEstablishesInv(n);
  }

  lemma {:induction false} RuntimeRunsAreSound(docs: seq<Document>, events: seq<Event>, k: nat)
    requires RuntimeRun(docs, events) && k < |docs|
    ensures Sound(docs[k])
  {
    hide Sound;
    hide ReadsBack;
    hide Judge;
    hide Created;
    hide AllShaped;
    hide Recovers;
    if k == 0 {
      StartIsSound(docs[0]);
    } else {
      RuntimeRunsAreSound(docs, events, k - 1);
      var d, e := docs[k - 1], events[k - 1];
      assert Step(d, e, docs[k - 1 + 1]);
      if e.CommitEvent? && AppliesNow(d, e, e.request.key) {
        var ops :| e.request.changes == Expand(ops) && AllShaped(d.snapshot, ops);
        AppliedIsSound(d, e.request, ops);
      } else if docs[k] != d {
        RecoveredIsSound(d, docs[k]);
      }
    }
  }

  /** With the commits the Runtime builds, every document reads back, so every retry of a durable commit is answered. */
  lemma {:induction false} RuntimeRetriesAgree(docs: seq<Document>, events: seq<Event>, i: nat, j: nat)
    requires RuntimeRun(docs, events) && i < |events| && i < j < |docs|
    requires events[i].CommitEvent? && AppliesNow(docs[i], events[i], events[i].request.key)
    ensures FileJudge(docs[j], events[i].request) ==
            Answers(Replayed(Judge(docs[i], events[i].request).receipt.(applied := false)))
  {
    RuntimeRunsAreSound(docs, events, j);
    SoundReadsBack(docs[j]);
    hide Sound;
    hide ReadsBack;
    hide Judge;
    RetriesAgree(docs, events, i, j, events[i].request);
  }

  // ---------------------------------------------------------------- receipts stay true

  lemma {:induction false} StepAppends(d: Document, e: Event, d': Document)
    requires Step(d, e, d')
    ensures d.snapshot.history <= d'.snapshot.history && d'.snapshot.session == d.snapshot.session
  {
    match e {
      case CommitEvent(q, _) =>
        if AppliesNow(d, e, q.key) {
          var last := ApplyAll(d.snapshot, d.snapshot.revision, q.changes).value;
          hide ApplyAll;
          ChangeGrows(d.snapshot, d.snapshot.revision, q.changes, last);
        }
      case RecoverEvent =>
        if d' != d {
          RecoveryAppends(d.snapshot, d'.snapshot);
        }
      case CrashEvent =>
    }
  }

  lemma {:induction false} RecoveryAppends(s: Snapshot, s': Snapshot)
    requires Recovers(s, s')
    ensures s.history <= s'.history && s'.session == s.session
  {
    var order, now :| RecoversWith(s, order, now, s');
    assert forall i :: 0 <= i < |order| ==> order[i] in ScanOf(s.history).attempts.starts;
    hide ScanOf;
    RecoveryOnlyEnds(s, order, now);
    RecoveredSession(s, order, now);
    hide Recovered;
  }

  lemma {:induction false} RecoveredSession(s: Snapshot, order: seq<AttemptID>, now: Time)
    requires forall i :: 0 <= i < |order| ==> order[i] in ScanOf(s.history).attempts.starts
    ensures Recovered(s, order, now).session == s.session
  {
    hide ScanOf;
    hide FindRun;
    hide Resumable;
    var starts := ScanOf(s.history).attempts.starts;
    var extended := s.(extensions := RecoverExtensions(s.extensions, now));
    CloseAttemptsFrame(extended, starts, order);
    SettleFrame(CloseAttempts(extended, starts, order).(journal := s.journal), |s.journal|);
    hide CloseAttempts;
    hide SettlePending;
  }

  lemma {:induction false} SameSession(docs: seq<Document>, events: seq<Event>, i: nat, j: nat)
    requires IsRun(docs, events) && i <= j < |docs|
    ensures docs[j].snapshot.session == docs[i].snapshot.session
    decreases j - i
  {
    hide Step;
    if i < j {
      SameSession(docs, events, i, j - 1);
      assert Step(docs[j - 1], events[j - 1], docs[j - 1 + 1]);
      StepAppends(docs[j - 1], events[j - 1], docs[j]);
    }
  }

  lemma {:induction false} HistoryGrows(docs: seq<Document>, events: seq<Event>, i: nat, j: nat)
    requires IsRun(docs, events) && i <= j < |docs|
    ensures docs[i].snapshot.history <= docs[j].snapshot.history
    decreases j - i
  {
    hide Step;
    if i < j {
      HistoryGrows(docs, events, i, j - 1);
      assert Step(docs[j - 1], events[j - 1], docs[j - 1 + 1]);
      StepAppends(docs[j - 1], events[j - 1], docs[j]);
    }
  }

  /** The facts a receipt names are still at those sequences at any later time. */
  lemma {:induction false} ReceiptsStayTrue(docs: seq<Document>, events: seq<Event>, i: nat, j: nat, key: Key)
    requires IsRun(docs, events) && i < |events| && i < j < |docs| && AppliesNow(docs[i], events[i], key)
    ensures var receipt := Judge(docs[i], events[i].request).receipt;
            && receipt.revision == docs[i + 1].snapshot.revision
            && (receipt.first == 0 <==> docs[i + 1].snapshot.history == docs[i].snapshot.history)
            && (receipt.first > 0 ==>
                  && receipt.first == |docs[i].snapshot.history| + 1 && receipt.last <= |docs[j].snapshot.history|
                  && docs[j].snapshot.history[..receipt.last] == docs[i + 1].snapshot.history)
  {
    assert Step(docs[i], events[i], docs[i + 1]);
    StepAppends(docs[i], events[i], docs[i + 1]);
    HistoryGrows(docs, events, i + 1, j);
    hide Applies;
    hide Step;
  }
}
