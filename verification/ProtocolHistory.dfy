/** What the model sees of a History always follows the model protocol
    (standardagent/runtime_execution.go historyInputs, commitCompletion, commitToolResults,
    appendInputConsumption; session/memory_store.go recoverAggregate; model/contracts.go ValidateInputs). */
module ProtocolHistory {
  import opened SessionTypes
  import opened ModelProtocol
  import opened HistoryChecker
  import opened Transactions
  import opened Recovery
  import opened AggregateInvariant
  import opened RecoveryKeepsInvariant
  import opened SessionRuns
  import opened ForkRenaming

  // ---------------------------------------------------------------- projection

  function InputOf(p: Payload): (r: seq<Input>) {
    match p
    case MessagePayload(m) => [MessageInput(m)]
    case CallPayload(c) => [CallInput(c)]
    case ResultPayload(r) => [ResultInput(r)]
    case _ => []
  }

  predicate Talks(p: Payload) {
    p.MessagePayload? || p.CallPayload? || p.ResultPayload?
  }

  /** The conversation of a History, context contributions left aside. */
  function Project(h: seq<HistoryFact>): (r: seq<Input>) {
    if h == [] then [] else Project(h[..|h| - 1]) + InputOf(h[|h| - 1].payload)
  }

  lemma {:induction false} ProjectSnoc(h: seq<HistoryFact>, f: HistoryFact)
    ensures Project(h + [f]) == Project(h) + InputOf(f.payload)
  {
    assert (h + [f])[..|h|] == h;
  }

  /** Nothing in the conversation has been refused so far. */
  ghost predicate Readable(h: seq<HistoryFact>) {
    ReadAll(Project(h)).Some?
  }

  ghost predicate AllAnswered(t: Talk) {
    forall id :: id in t.calls ==> id in t.results
  }

  /** The last conversation fact, if any. */
  function LastTalk(h: seq<HistoryFact>): (r: Option<Payload>) {
    if h == [] then None
    else if Talks(h[|h| - 1].payload) then Some(h[|h| - 1].payload)
    else LastTalk(h[..|h| - 1])
  }

  // ---------------------------------------------------------------- reader and checker agree

  /** What a reader of the conversation knows, in terms of the checker's maps. */
  ghost predicate ReaderMatches(r: Reader, t: Talk, last: Option<Payload>) {
    && r.messages == t.messages.Keys && r.calls == t.calls.Keys && t.results.Keys <= t.calls.Keys && ReaderOk(r)
    && (forall id :: (id in r.phase.Group() && id !in r.phase.Answered()) <==> (id in t.calls && id !in t.results))
    && (match r.phase
        case Outside(parent) =>
          parent.Some? ==>
            && parent.value.id in t.messages && t.messages[parent.value.id] == parent.value
            && last == Some(MessagePayload(parent.value))
        case Calling(owner, _) =>
          && owner.id in t.messages && t.messages[owner.id] == owner
          && last.Some? && last.value.CallPayload? && last.value.call.message == owner.id
        case Answering(_, _, _) => true)
    && (last.Some? && last.value.MessagePayload? && last.value.message.role == RoleAssistant ==>
          r.phase == Outside(Some(last.value.message)))
    && (last.Some? && last.value.CallPayload? ==> r.phase.Calling? && r.phase.owner.id == last.value.call.message)
  }

  lemma {:induction false} SettledIffAnswered(r: Reader, t: Talk, last: Option<Payload>)
    requires ReaderMatches(r, t, last)
    ensures r.phase.Settled() <==> AllAnswered(t)
  {
    if r.phase.Calling? {
      var id :| id in r.phase.Group();
      assert id !in r.phase.Answered();
    } else if r.phase.Answering? && r.phase.answered != r.phase.calls {
      var id :| id in r.phase.calls && id !in r.phase.answered;
    }
  }

  lemma {:induction false} MatchesAfter(r: Reader, t: Talk, last: Option<Payload>, p: Payload)
    requires ReaderMatches(r, t, last) && Talks(p) && CanRead(r, InputOf(p)[0])
    requires p.ResultPayload? ==> p.result.call in t.calls
    ensures ReaderMatches(Read(r, InputOf(p)[0]), TalkAfter(t, p), Some(p))
  {
    SettledIffAnswered(r, t, last);
    var r', t' := Read(r, InputOf(p)[0]), TalkAfter(t, p);
    match p {
      case MessagePayload(m) =>
      case CallPayload(c) => assert r'.phase.Group() == r.phase.Group() + {c.id};
      case ResultPayload(x) => assert r'.phase.Answered() == r.phase.Answered() + {x.call};
    }
  }

  lemma {:induction false} ReaderKnows(sid: SessionID, h: seq<HistoryFact>)
    requires Accepted(sid, h) && Readable(h)
    ensures ReaderMatches(ReadAll(Project(h)).value, ScanOf(h).talk, LastTalk(h))
  {
    if h != [] {
      var front, p := h[..|h| - 1], h[|h| - 1].payload;
      if Talks(p) {
        assert Project(h) == Project(front) + [InputOf(p)[0]];
        ReadSnoc(Project(front), InputOf(p)[0]);
        ReaderKnows(sid, front);
        hide ReaderMatches;
        hide CanRead;
        hide Read;
        MatchesAfter(ReadAll(Project(front)).value, ScanOf(front).talk, LastTalk(front), p);
      } else {
        assert Project(h) == Project(front);
        ReaderKnows(sid, front);
      }
    }
  }

  // ---------------------------------------------------------------- one more fact

  /** The order in which the Runtime writes conversation facts: a message when nothing is unanswered, a call
      directly after its message or one of its siblings, a result at any time. */
  ghost predicate InOrder(h: seq<HistoryFact>, p: Payload) {
    match p
    case MessagePayload(_) => AllAnswered(ScanOf(h).talk)
    case CallPayload(c) =>
      && LastTalk(h).Some?
      && (match LastTalk(h).value
          case MessagePayload(m) => m.id == c.message
          case CallPayload(d) => d.message == c.message
          case _ => false)
    case _ => true
  }

  lemma {:induction false} CanReadNext(r: Reader, s: Scan, sid: SessionID, h: seq<HistoryFact>, p: Payload)
    requires ReaderMatches(r, s.talk, LastTalk(h)) && Talks(p) && p.Valid(sid) && Accepts(s, p)
    requires p.MessagePayload? ==> AllAnswered(s.talk)
    requires p.CallPayload? ==> InOrder(h, p)
    requires p.CallPayload? && LastTalk(h).Some? && LastTalk(h).value.MessagePayload? ==>
               LastTalk(h).value.message.id in s.talk.messages
                 && s.talk.messages[LastTalk(h).value.message.id] == LastTalk(h).value.message
    ensures CanRead(r, InputOf(p)[0])
  {
    SettledIffAnswered(r, s.talk, LastTalk(h));
  }

  lemma {:induction false} LastTalkRecorded(sid: SessionID, h: seq<HistoryFact>)
    requires Accepted(sid, h)
    ensures LastTalk(h).Some? && LastTalk(h).value.MessagePayload? ==>
              var m := LastTalk(h).value.message; m.id in ScanOf(h).talk.messages && ScanOf(h).talk.messages[m.id] == m
  {
    if h != [] && !Talks(h[|h| - 1].payload) {
      LastTalkRecorded(sid, h[..|h| - 1]);
    }
  }

  /** An accepted fact written in order is never refused. */
  lemma {:induction false} ReadableSnoc(sid: SessionID, h: seq<HistoryFact>, f: HistoryFact)
    requires Accepted(sid, h + [f]) && Readable(h) && InOrder(h, f.payload)
    ensures Readable(h + [f])
  {
    ScanSnoc(sid, h, f);
    ProjectSnoc(h, f);
    if Talks(f.payload) {
      ReaderKnows(sid, h);
      LastTalkRecorded(sid, h);
      hide ReaderMatches;
      CanReadNext(ReadAll(Project(h)).value, ScanOf(h), sid, h, f.payload);
      hide CanRead;
      hide Accepts;
      assert InputOf(f.payload) == [InputOf(f.payload)[0]];
      ReadSnoc(Project(h), InputOf(f.payload)[0]);
    } else {
      assert Project(h) + [] == Project(h);
    }
  }

  /** A readable, accepted History without open calls projects to inputs the model layer accepts. */
  lemma {:induction false} AnsweredIsProtocol(sid: SessionID, h: seq<HistoryFact>)
    requires Accepted(sid, h) && Readable(h)
    ensures Protocol(Project(h)) <==> AllAnswered(ScanOf(h).talk)
  {
    ReaderKnows(sid, h);
    SettledIffAnswered(ReadAll(Project(h)).value, ScanOf(h).talk, LastTalk(h));
    NoPrompt(h);
  }

  lemma {:induction false} NoPrompt(h: seq<HistoryFact>)
    ensures forall i :: 0 <= i < |Project(h)| ==> !Project(h)[i].PromptInput?
  {
    if h != [] {
      NoPrompt(h[..|h| - 1]);
    }
  }

  // ---------------------------------------------------------------- commits

  /** The payload a change appends, if any. */
  function Appended(c: Change): (r: Option<Payload>) {
    match c
    case AppendMessage(m) => Some(MessagePayload(m))
    case AppendToolCall(t) => Some(CallPayload(t))
    case AppendToolResult(x) => Some(ResultPayload(x))
    case AppendRunFact(f) => Some(RunPayload(f))
    case AppendModelAttempt(a) => Some(AttemptPayload(a))
    case AppendContextContribution(x) => Some(ContributionPayload(x))
    case AppendRunBudgetExceeded(b) => Some(BudgetPayload(b))
    case AppendRunLimitExceeded(l) => Some(LimitPayload(l))
    case AppendSessionEvent(p, n) => Some(ConfigPayload(p, n))
    case _ => None
  }

  /** A change appends exactly its payload. */
  lemma {:induction false} ChangeAppends(s: Snapshot, expected: Revision, c: Change, s': Snapshot)
    requires ApplyChange(s, expected, c) == Ok(s')
    ensures s'.session == s.session
    ensures Appended(c).None? ==> s'.history == s.history
    ensures Appended(c).Some? ==>
              |s'.history| == |s.history| + 1 && s'.history[..|s.history|] == s.history
              && s'.history[|s.history|].payload == Appended(c).value && s'.history[|s.history|].origin.NoFact?
  {
    hide FindMessage;
    hide FindCall;
    hide FindResult;
    hide FindRun;
    hide FindAttempt;
    hide QueueIndex;
    hide JournalIndex;
  }

  /** Every change of the list appends in order. */
  ghost predicate AllInOrder(s: Snapshot, expected: Revision, changes: seq<Change>)
    decreases |changes|
  {
    changes == [] ||
    (&& (Appended(changes[0]).Some? ==> InOrder(s.history, Appended(changes[0]).value))
     && (var next := ApplyChange(s, expected, changes[0]);
         next.Ok? ==> AllInOrder(next.value, expected, changes[1..])))
  }

  lemma {:induction false} ChangeGrows(s: Snapshot, expected: Revision, changes: seq<Change>, s': Snapshot)
    requires ApplyAll(s, expected, changes) == Ok(s')
    ensures s.history <= s'.history && s'.session == s.session
    decreases |changes|
  {
    if changes != [] {
      var mid := ApplyChange(s, expected, changes[0]).value;
      ChangeAppends(s, expected, changes[0], mid);
      ChangeGrows(mid, expected, changes[1..], s');
    }
  }

  lemma {:induction false} ChangesStayReadable(sid: SessionID, s: Snapshot, expected: Revision, changes: seq<Change>,
                                               s': Snapshot)
    requires ApplyAll(s, expected, changes) == Ok(s') && AllInOrder(s, expected, changes)
    requires Readable(s.history) && Accepted(sid, s'.history)
    ensures Readable(s'.history)
    decreases |changes|
  {
    hide InOrder;
    hide Readable;
    hide Accepted;
    hide ApplyChange;
    hide Appended;
    if changes != [] {
      var mid := ApplyChange(s, expected, changes[0]).value;
      ChangeAppends(s, expected, changes[0], mid);
      ChangeGrows(mid, expected, changes[1..], s');
      if Appended(changes[0]).Some? {
        assert mid.history == s.history + [mid.history[|s.history|]];
        assert s'.history[..|mid.history|] == mid.history;
        AcceptedPrefix(sid, s'.history, |mid.history|);
        ReadableSnoc(sid, s.history, mid.history[|s.history|]);
      }
      ChangesStayReadable(sid, mid, expected, changes[1..], s');
    }
  }

  // ---------------------------------------------------------------- the Runtime's steps are in order

  predicate NoCalls(changes: seq<Change>) {
    forall i :: 0 <= i < |changes| ==> !changes[i].AppendToolCall?
  }

  predicate NoMessages(changes: seq<Change>) {
    forall i :: 0 <= i < |changes| ==> !changes[i].AppendMessage?
  }

  lemma {:induction false} AnsweredStays(s: Snapshot, expected: Revision, c: Change, s': Snapshot)
    requires ApplyChange(s, expected, c) == Ok(s') && !c.AppendToolCall?
    ensures forall id :: id in ScanOf(s'.history).talk.calls && id !in ScanOf(s'.history).talk.results ==>
              id in ScanOf(s.history).talk.calls && id !in ScanOf(s.history).talk.results
    ensures c.AppendToolResult? ==> c.result.call in ScanOf(s'.history).talk.results
  {
    ChangeAppends(s, expected, c, s');
    if Appended(c).Some? {
      var f := s'.history[|s.history|];
      assert s'.history == s.history + [f];
      ScanSnoc(0, s.history, f);
    }
    hide ApplyChange;
    hide ScanOf;
  }

  /** Start, steer, follow-on, finish and gate commits: no call is open and none is appended. */
  lemma {:induction false} QuietInOrder(s: Snapshot, expected: Revision, changes: seq<Change>)
    requires AllAnswered(ScanOf(s.history).talk) && NoCalls(changes)
    ensures AllInOrder(s, expected, changes)
    decreases |changes|
  {
    hide ScanOf;
    if changes != [] {
      var next := ApplyChange(s, expected, changes[0]);
      if next.Ok? {
        AnsweredStays(s, expected, changes[0], next.value);
        QuietInOrder(next.value, expected, changes[1..]);
      }
    }
  }

  /** Attempts, marks, contexts and journal updates: neither calls nor messages, at any time. */
  lemma {:induction false} SilentInOrder(s: Snapshot, expected: Revision, changes: seq<Change>)
    requires NoMessages(changes) && NoCalls(changes)
    ensures AllInOrder(s, expected, changes)
    decreases |changes|
  {
    if changes != [] && ApplyChange(s, expected, changes[0]).Ok? {
      SilentInOrder(ApplyChange(s, expected, changes[0]).value, expected, changes[1..]);
    }
  }

  lemma {:induction false} InOrderConcat(s: Snapshot, expected: Revision, a: seq<Change>, b: seq<Change>)
    requires AllInOrder(s, expected, a)
    requires ApplyAll(s, expected, a).Ok? ==> AllInOrder(ApplyAll(s, expected, a).value, expected, b)
    ensures AllInOrder(s, expected, a + b)
    decreases |a|
  {
    if a == [] {
      assert a + b == b;
    } else {
      assert (a + b)[1..] == a[1..] + b;
      var next := ApplyChange(s, expected, a[0]);
      if next.Ok? {
        InOrderConcat(next.value, expected, a[1..], b);
      }
    }
  }

  /** After the result part of a tool-results commit every call it answers is answered. */
  lemma {:induction false} ResultsAnswer(s: Snapshot, expected: Revision, changes: seq<Change>, s': Snapshot)
    requires ApplyAll(s, expected, changes) == Ok(s') && NoCalls(changes)
    ensures forall id :: id in ScanOf(s'.history).talk.calls && id !in ScanOf(s'.history).talk.results ==>
              && id in ScanOf(s.history).talk.calls && id !in ScanOf(s.history).talk.results
              && forall i :: 0 <= i < |changes| ==> !(changes[i].AppendToolResult? && changes[i].result.call == id)
    decreases |changes|
  {
    hide ScanOf;
    hide ApplyChange;
    if changes != [] {
      var mid := ApplyChange(s, expected, changes[0]).value;
      AnsweredStays(s, expected, changes[0], mid);
      ResultsAnswer(mid, expected, changes[1..], s');
      forall id, i | id in ScanOf(s'.history).talk.calls && id !in ScanOf(s'.history).talk.results && 0 <= i < |changes|
        ensures !(changes[i].AppendToolResult? && changes[i].result.call == id)
      {
        assert i > 0 ==> changes[1..][i - 1] == changes[i];
      }
    }
  }

  /** The changes answer every open call. */
  ghost predicate AnswersAll(t: Talk, changes: seq<Change>) {
    forall id :: id in t.calls && id !in t.results ==>
      exists i :: 0 <= i < |changes| && changes[i].AppendToolResult? && changes[i].result.call == id
  }

  /** A tool-results commit: the results of every open call, then steers for the next Step. */
  lemma {:induction false} ResultsInOrder(s: Snapshot, expected: Revision, results: seq<Change>, rest: seq<Change>)
    requires NoCalls(results) && NoMessages(results) && AnswersAll(ScanOf(s.history).talk, results) && NoCalls(rest)
    ensures AllInOrder(s, expected, results + rest)
  {
    hide ScanOf;
    SilentInOrder(s, expected, results);
    var mid := ApplyAll(s, expected, results);
    if mid.Ok? {
      ResultsAnswer(s, expected, results, mid.value);
      QuietInOrder(mid.value, expected, rest);
    }
    InOrderConcat(s, expected, results, rest);
  }

  /** The changes after the assistant message of a completion: its own calls and journal updates. */
  predicate CallsOf(changes: seq<Change>, message: MessageID) {
    forall i :: 0 <= i < |changes| ==>
      match changes[i]
      case AppendToolCall(c) => c.message == message
      case UpdateRunJournal(_) => true
      case UpdateExtensionJournal(_) => true
      case _ => false
  }

  ghost predicate LastBelongsTo(h: seq<HistoryFact>, message: MessageID) {
    && LastTalk(h).Some?
    && (match LastTalk(h).value
        case MessagePayload(m) => m.id == message
        case CallPayload(d) => d.message == message
        case _ => false)
  }

  lemma {:induction false} CallsInOrder(s: Snapshot, expected: Revision, changes: seq<Change>, message: MessageID)
    requires LastBelongsTo(s.history, message) && CallsOf(changes, message)
    ensures AllInOrder(s, expected, changes)
    decreases |changes|
  {
    if changes != [] {
      var next := ApplyChange(s, expected, changes[0]);
      assert CallsOf(changes[1..], message);
      if next.Ok? {
        ChangeAppends(s, expected, changes[0], next.value);
        hide ApplyChange;
        CallsInOrder(next.value, expected, changes[1..], message);
      }
    }
  }

  /** A completion commit: with nothing unanswered, the assistant message and then its calls. */
  lemma {:induction false} CompletionInOrder(s: Snapshot, expected: Revision, m: Message, rest: seq<Change>)
    requires AllAnswered(ScanOf(s.history).talk) && CallsOf(rest, m.id)
    ensures AllInOrder(s, expected, [AppendMessage(m)] + rest)
  {
    var changes := [AppendMessage(m)] + rest;
    assert changes[1..] == rest;
    var next := ApplyChange(s, expected, changes[0]);
    if next.Ok? {
      ChangeAppends(s, expected, changes[0], next.value);
      hide ApplyChange;
      CallsInOrder(next.value, expected, rest, m.id);
    }
  }

  /** The kinds of commit the Runtime builds, by what they say in the conversation. */
  ghost predicate ConversationStep(s: Snapshot, changes: seq<Change>) {
    || (NoCalls(changes) && NoMessages(changes))
    || (NoCalls(changes) && AllAnswered(ScanOf(s.history).talk))
    || (exists m, rest :: changes == [AppendMessage(m)] + rest && CallsOf(rest, m.id)
          && AllAnswered(ScanOf(s.history).talk))
    || (exists results, rest ::
          && changes == results + rest && NoCalls(results) && NoMessages(results) && NoCalls(rest)
          && AnswersAll(ScanOf(s.history).talk, results))
  }

  lemma {:induction false} StepInOrder(s: Snapshot, changes: seq<Change>)
    requires ConversationStep(s, changes)
    ensures AllInOrder(s, s.revision, changes)
  {
    hide ScanOf;
    if NoCalls(changes) && NoMessages(changes) {
      SilentInOrder(s, s.revision, changes);
    } else if NoCalls(changes) && AllAnswered(ScanOf(s.history).talk) {
      QuietInOrder(s, s.revision, changes);
    } else if m, rest :|
        changes == [AppendMessage(m)] + rest && CallsOf(rest, m.id) && AllAnswered(ScanOf(s.history).talk)
    {
      CompletionInOrder(s, s.revision, m, rest);
    } else {
      var results, rest :|
        && changes == results + rest && NoCalls(results) && NoMessages(results) && NoCalls(rest)
        && AnswersAll(ScanOf(s.history).talk, results);
      ResultsInOrder(s, s.revision, results, rest);
    }
  }

  // ---------------------------------------------------------------- recovery

  /** What recovery appends: ends of attempts, calls and Runs. */
  ghost predicate OnlyEnds(h: seq<HistoryFact>, h': seq<HistoryFact>) {
    h <= h' && forall i :: |h| <= i < |h'| ==> Ends(h'[i].payload)
  }

  predicate Ends(p: Payload) {
    (p.AttemptPayload? && p.attempt.kind != AttemptStarted) || p.ResultPayload? || p.RunPayload?
  }

  lemma {:induction false} EndsStayReadable(sid: SessionID, h: seq<HistoryFact>, h': seq<HistoryFact>)
    requires OnlyEnds(h, h') && Accepted(sid, h') && Readable(h)
    ensures Readable(h')
    decreases |h'|
  {
    hide Readable;
    hide Accepted;
    if |h'| > |h| {
      var front := h'[..|h'| - 1];
      assert h' == front + [h'[|h'| - 1]];
      AcceptedPrefix(sid, h', |h'| - 1);
      assert forall i :: 0 <= i < |front| ==> front[i] == h'[i];
      EndsStayReadable(sid, h, front);
      ReadableSnoc(sid, front, h'[|h'| - 1]);
    } else {
      assert h == h';
    }
  }

  lemma {:induction false} ClosedAttemptsEnd(s: Snapshot, starts: map<AttemptID, Attempt>, order: seq<AttemptID>)
    requires forall i :: 0 <= i < |order| ==> order[i] in starts
    ensures OnlyEnds(s.history, CloseAttempts(s, starts, order).history)
    decreases |order|
  {
    if order != [] {
      ClosedAttemptsEnd(s, starts, order[..|order| - 1]);
    }
  }

  lemma {:induction false} SettledCallsEnd(s: Snapshot, n: nat)
    requires n <= |s.journal|
    ensures OnlyEnds(s.history, SettlePending(s, n).history)
  {
    if n > 0 {
      SettledCallsEnd(s, n - 1);
    }
  }

  /** Crash recovery ends attempts, calls and Runs; it says nothing new. */
  lemma {:induction false} RecoveryOnlyEnds(s: Snapshot, order: seq<AttemptID>, now: Time)
    requires forall i :: 0 <= i < |order| ==> order[i] in ScanOf(s.history).attempts.starts
    ensures OnlyEnds(s.history, Recovered(s, order, now).history)
  {
    hide ScanOf;
    hide FindRun;
    hide Resumable;
    var starts := ScanOf(s.history).attempts.starts;
    var extended := s.(extensions := RecoverExtensions(s.extensions, now));
    ClosedAttemptsEnd(extended, starts, order);
    var closed := CloseAttempts(extended, starts, order);
    SettledCallsEnd(closed.(journal := s.journal), |s.journal|);
    hide CloseAttempts;
    hide SettlePending;
  }

  lemma {:induction false} RecoveryStaysReadable(s: Snapshot, s': Snapshot)
    requires Inv(s) && Readable(s.history) && Recovers(s, s')
    ensures Readable(s'.history)
  {
    RecoverKeepsInv(s, s');
    assert Accepted(s.session.id, s'.history);
    var order, now :| RecoversWith(s, order, now, s');
    assert forall i :: 0 <= i < |order| ==> order[i] in ScanOf(s.history).attempts.starts;
    hide Readable;
    hide Recovered;
    RecoveryOnlyEnds(s, order, now);
    EndsStayReadable(s.session.id, s.history, s'.history);
  }

  // ---------------------------------------------------------------- fork

  /** Reading fails only where the writing order does: an accepted History is readable exactly when each fact
      was written in order. */
  ghost predicate WrittenInOrder(h: seq<HistoryFact>) {
    h == [] || (WrittenInOrder(h[..|h| - 1]) && InOrder(h[..|h| - 1], h[|h| - 1].payload))
  }

  lemma {:induction false} ReadIsInOrder(r: Reader, s: Scan, h: seq<HistoryFact>, p: Payload)
    requires ReaderMatches(r, s.talk, LastTalk(h)) && Talks(p) && CanRead(r, InputOf(p)[0]) && s == ScanOf(h)
    ensures InOrder(h, p)
  {
    SettledIffAnswered(r, s.talk, LastTalk(h));
  }

  lemma {:induction false} ReadableIffInOrder(sid: SessionID, h: seq<HistoryFact>)
    requires Accepted(sid, h)
    ensures Readable(h) <==> WrittenInOrder(h)
  {
    if h != [] {
      var front, f := h[..|h| - 1], h[|h| - 1];
      assert h == front + [f];
      ReadableIffInOrder(sid, front);
      if WrittenInOrder(h) {
        ReadableSnoc(sid, front, f);
      } else if Readable(h) {
        ReadableFront(sid, h);
      }
    }
  }

  lemma {:induction false} ReadableFront(sid: SessionID, h: seq<HistoryFact>)
    requires Accepted(sid, h) && h != [] && Readable(h)
    ensures Readable(h[..|h| - 1]) && InOrder(h[..|h| - 1], h[|h| - 1].payload)
  {
    var front, p := h[..|h| - 1], h[|h| - 1].payload;
    if Talks(p) {
      assert Project(h) == Project(front) + [InputOf(p)[0]];
      ReadSnoc(Project(front), InputOf(p)[0]);
      ReaderKnows(sid, front);
      ReadIsInOrder(ReadAll(Project(front)).value, ScanOf(front), front, p);
    } else {
      assert Project(h) == Project(front);
    }
  }

  lemma {:induction false} LastTalkRenamed(m: Renaming, sid: SessionID, h: seq<HistoryFact>)
    ensures LastTalk(RenameHistory(m, sid, h)) ==
            if LastTalk(h).None? then None else Some(RenamePayload(m, sid, LastTalk(h).value))
  {
    if h != [] {
      var front := h[..|h| - 1];
      LastTalkRenamed(m, sid, front);
      assert RenameHistory(m, sid, h)[..|h| - 1] == RenameHistory(m, sid, front);
    }
  }

  lemma {:induction false} AnsweredRenamed(m: Renaming, sid: SessionID, t: Talk, t': Talk)
    requires SameTalk(m, sid, t, t') && AllAnswered(t)
    ensures AllAnswered(t')
  {
    forall id' | id' in t'.calls ensures id' in t'.results {
      var id :| id in t.calls && CallName(id) in m && New(m, CallName(id)) == id';
      assert WithId(CallName(0), id) == CallName(id) && id in t.results.Keys;
    }
  }

  lemma {:induction false} InOrderRenamed(m: Renaming, sid: SessionID, h: seq<HistoryFact>, p: Payload)
    requires SameTalk(m, sid, ScanOf(h).talk, ScanOf(RenameHistory(m, sid, h)).talk) && InOrder(h, p)
    ensures InOrder(RenameHistory(m, sid, h), RenamePayload(m, sid, p))
  {
    LastTalkRenamed(m, sid, h);
    if p.MessagePayload? {
      AnsweredRenamed(m, sid, ScanOf(h).talk, ScanOf(RenameHistory(m, sid, h)).talk);
    }
    hide ScanOf;
    hide SameTalk;
    hide LastTalk;
  }

  lemma {:induction false} OrderRenamed(m: Renaming, sid: SessionID, parent: SessionID, h: seq<HistoryFact>)
    requires Injective(m) && Covers(m, h) && Accepted(parent, h) && sid != 0 && WrittenInOrder(h)
    ensures WrittenInOrder(RenameHistory(m, sid, h))
  {
    hide Injective;
    hide InOrder;
    hide KnowsAll;
    hide SameTalk;
    if h != [] {
      var front := h[..|h| - 1];
      OrderRenamed(m, sid, parent, front);
      HistoryRenamed(m, sid, parent, front);
      InOrderRenamed(m, sid, front, h[|h| - 1].payload);
      assert RenameHistory(m, sid, h)[..|h| - 1] == RenameHistory(m, sid, front);
    }
  }

  lemma {:induction false} PrefixInOrder(h: seq<HistoryFact>, k: nat)
    requires k <= |h| && WrittenInOrder(h)
    ensures WrittenInOrder(h[..k])
    decreases |h|
  {
    if k == |h| {
      assert h[..k] == h;
    } else {
      assert h[..|h| - 1][..k] == h[..k];
      PrefixInOrder(h[..|h| - 1], k);
    }
  }

  /** The History of a fork is readable when its parent's is. */
  lemma {:induction false} ForkStaysReadable(m: Renaming, sid: SessionID, parent: SessionID, h: seq<HistoryFact>,
                                             k: nat)
    requires Accepted(parent, h) && Readable(h) && k <= |h|
    requires Injective(m) && Covers(m, h[..k]) && sid != 0
    ensures Readable(RenameHistory(m, sid, h[..k]))
  {
    hide Injective;
    hide Covers;
    hide Readable;
    ReadableIffInOrder(parent, h);
    PrefixInOrder(h, k);
    AcceptedPrefix(parent, h, k);
    HistoryRenamed(m, sid, parent, h[..k]);
    OrderRenamed(m, sid, parent, h[..k]);
    ReadableIffInOrder(sid, RenameHistory(m, sid, h[..k]));
  }

  lemma {:induction false} PayloadsProject(a: seq<HistoryFact>, b: seq<HistoryFact>)
    requires |a| == |b| && forall i :: 0 <= i < |a| ==> a[i].payload == b[i].payload
    ensures Project(a) == Project(b)
  {
    if a != [] {
      PayloadsProject(a[..|a| - 1], b[..|b| - 1]);
    }
  }

  // ---------------------------------------------------------------- creation and commits

  /** A Session that was created empty, or forked from one whose conversation was readable. */
  ghost predicate Begun(s: Snapshot) {
    exists n :: NewSessionValid(n) && !n.running && s == CreatedFrom(n) && Readable(n.history)
  }

  lemma {:induction false} CommitStaysReadable(s: Snapshot, ops: seq<Op>, s': Snapshot)
    requires Inv(s) && Readable(s.history) && RuntimeCommit(s, ops, s') && ConversationStep(s, Expand(ops))
    ensures Inv(s') && Readable(s'.history)
  {
    CommitKeepsInv(s, ops, s');
    assert Accepted(s'.session.id, s'.history);
    hide Readable;
    hide Accepted;
    hide Inv;
    StepInOrder(s, Expand(ops));
    ChangesStayReadable(s'.session.id, s, s.revision, Expand(ops), ApplyAll(s, s.revision, Expand(ops)).value);
  }

  lemma {:induction false} BegunIsReadable(s: Snapshot)
    requires Begun(s)
    ensures Inv(s) && Readable(s.history)
  {
    hide NewSessionValid;
    hide Inv;
    hide Project;
    hide ReadAll;
    var n :| NewSessionValid(n) && !n.running && s == CreatedFrom(n) && Readable(n.history);
    CreateEstablishesInv(n);
    PayloadsProject(n.history, s.history);
  }

  /** No unfinished journal entry means no open call. */
  lemma {:induction false} IdleIsAnswered(t: Talk, journal: seq<JournalEntry>)
    requires JournalAccepted(t, journal) && !HasUnfinishedJournal(journal)
    ensures AllAnswered(t)
  {
    forall id | id in t.calls ensures id in t.results {
      assert HasUnfinished(journal, id) ==> HasUnfinishedJournal(journal);
    }
  }
}
