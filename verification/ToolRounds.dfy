/** Which calls are open, and how the Runtime's commits open and close them (standardagent/runtime_execution.go
    commitCompletion, commitToolResults, appendInputConsumption). */
module ToolRounds {
  import opened SessionTypes
  import opened HistoryChecker
  import opened Transactions
  import opened SearchAgreement
  import opened AggregateInvariant
  import opened SessionRuns
  import opened ProtocolHistory
  import opened RuntimeCommits

  // ---------------------------------------------------------------- open calls

  /** The calls of a History that have no result. */
  function OpenCalls(h: seq<HistoryFact>): (r: set<ToolCallID>) {
    ScanOf(h).talk.calls.Keys - ScanOf(h).talk.results.Keys
  }

  function OpenStep(open: set<ToolCallID>, c: Change): (r: set<ToolCallID>) {
    match c
    case AppendToolCall(t) => open + {t.id}
    case AppendToolResult(x) => open - {x.call}
    case _ => open
  }

  /** The open calls after a list of changes. */
  function OpenAfter(open: set<ToolCallID>, changes: seq<Change>): (r: set<ToolCallID>)
    decreases |changes|
  {
    if changes == [] then open else OpenAfter(OpenStep(open, changes[0]), changes[1..])
  }

  lemma {:induction false} OpenChange(sid: SessionID, s: Snapshot, expected: Revision, c: Change, s': Snapshot)
    requires ApplyChange(s, expected, c) == Ok(s') && Accepted(sid, s'.history)
    ensures OpenCalls(s'.history) == OpenStep(OpenCalls(s.history), c)
  {
    hide *;
    ChangeAppends(s, expected, c, s');
    if Appended(c).Some? {
      var f := s'.history[|s.history|];
      assert s'.history == s.history + [f];
      OpenFact(sid, s.history, f, c);
    } else {
      NoFactNoCall(OpenCalls(s.history), c);
    }
  }

  lemma {:induction false} NoFactNoCall(open: set<ToolCallID>, c: Change)
    requires Appended(c).None?
    ensures OpenStep(open, c) == open
  {
  }

  lemma {:induction false} OpenFact(sid: SessionID, h: seq<HistoryFact>, f: HistoryFact, c: Change)
    requires Accepted(sid, h + [f]) && Appended(c) == Some(f.payload)
    ensures OpenCalls(h + [f]) == OpenStep(OpenCalls(h), c)
  {
    ScanSnoc(sid, h, f);
    TerminalsStarted(sid, h);
    hide ScanOf;
    hide Accepted;
  }

  /** A list of accepted changes opens and closes what it names. */
  lemma {:induction false} OpenChanges(sid: SessionID, s: Snapshot, expected: Revision, changes: seq<Change>,
                                       s': Snapshot)
    requires ApplyAll(s, expected, changes) == Ok(s') && Accepted(sid, s'.history)
    ensures OpenCalls(s'.history) == OpenAfter(OpenCalls(s.history), changes)
    decreases |changes|
  {
    hide OpenCalls;
    hide Accepted;
    hide ApplyChange;
    if changes != [] {
      var mid := ApplyChange(s, expected, changes[0]).value;
      ChangeGrows(mid, expected, changes[1..], s');
      assert s'.history[..|mid.history|] == mid.history;
      AcceptedPrefix(sid, s'.history, |mid.history|);
      OpenChange(sid, s, expected, changes[0], mid);
      OpenChanges(sid, mid, expected, changes[1..], s');
    }
  }

  lemma {:induction false} CommitOpens(s: Snapshot, ops: seq<Op>, s': Snapshot)
    requires Inv(s) && RuntimeCommit(s, ops, s')
    ensures OpenCalls(s'.history) == OpenAfter(OpenCalls(s.history), Expand(ops))
  {
    CommitKeepsInv(s, ops, s');
    assert Accepted(s'.session.id, s'.history);
    hide OpenCalls;
    hide Inv;
    hide Accepted;
    hide AllShaped;
    OpenChanges(s'.session.id, s, s.revision, Expand(ops), ApplyAll(s, s.revision, Expand(ops)).value);
  }

  lemma {:induction false} OpenConcat(open: set<ToolCallID>, a: seq<Change>, b: seq<Change>)
    ensures OpenAfter(open, a + b) == OpenAfter(OpenAfter(open, a), b)
    decreases |a|
  {
    if a == [] {
      assert a + b == b;
    } else {
      assert (a + b)[1..] == a[1..] + b;
      OpenConcat(OpenStep(open, a[0]), a[1..], b);
    }
  }

  /** Operations about neither calls nor results. */
  predicate Wordless(op: Op) {
    !op.PrepareCall? && !op.SettleCall? && (op.Plain? ==> !op.change.AppendToolCall? && !op.change.AppendToolResult?)
  }

  lemma {:induction false} WordlessOpen(open: set<ToolCallID>, ops: seq<Op>)
    requires forall op :: op in ops ==> Wordless(op)
    ensures OpenAfter(open, Expand(ops)) == open
  {
    if ops != [] {
      assert Wordless(ops[0]);
      OpenConcat(open, Changes(ops[0]), Expand(ops[1..]));
      WordlessOne(open, ops[0]);
      WordlessOpen(open, ops[1..]);
    }
  }

  lemma {:induction false} WordlessOne(open: set<ToolCallID>, op: Op)
    requires Wordless(op)
    ensures OpenAfter(open, Changes(op)) == open
  {
    var cs := Changes(op);
    if |cs| == 2 {
      OpenTwo(open, cs[0], cs[1]);
      assert cs == [cs[0], cs[1]];
    } else {
      assert cs[1..] == [];
    }
  }

  lemma {:induction false} OpenTwo(open: set<ToolCallID>, a: Change, b: Change)
    ensures OpenAfter(open, [a, b]) == OpenStep(OpenStep(open, a), b)
  {
    assert [a, b][1..] == [b];
    assert [b][1..] == [];
    assert OpenAfter(OpenStep(OpenStep(open, a), b), []) == OpenStep(OpenStep(open, a), b);
  }

  function IdsOf(calls: seq<ToolCall>): (r: set<ToolCallID>) {
    set i | 0 <= i < |calls| :: calls[i].id
  }

  function CallsIn(asked: seq<Asked>): (r: seq<ToolCall>)
    ensures |r| == |asked| && forall i :: 0 <= i < |r| ==> r[i] == asked[i].call
  {
    seq(|asked|, i requires 0 <= i < |asked| => asked[i].call)
  }

  lemma {:induction false} IdsSnoc(calls: seq<ToolCall>, c: ToolCall)
    ensures IdsOf(calls + [c]) == IdsOf(calls) + {c.id}
  {
    var longer := calls + [c];
    assert forall i :: 0 <= i < |calls| ==> longer[i] == calls[i];
    assert longer[|calls|] == c;
  }

  lemma {:induction false} PreparedOpens(open: set<ToolCallID>, c: ToolCall)
    ensures OpenAfter(open, Changes(PrepareCall(c))) == open + {c.id}
  {
    OpenTwo(open, AppendToolCall(c), UpdateRunJournal(PreparedEntry(c)));
  }

  lemma {:induction false} SettledCloses(open: set<ToolCallID>, c: ToolCall, r: ToolResult)
    ensures OpenAfter(open, Changes(SettleCall(c, r))) == open - {r.call}
  {
    OpenTwo(open, AppendToolResult(r), UpdateRunJournal(TerminalEntry(c, r)));
  }

  lemma {:induction false} ReservesWordless(entries: seq<ExtensionEntry>)
    ensures forall op :: op in ReserveOps(entries) ==> Wordless(op)
  {
  }

  /** A completion opens exactly its own calls. */
  lemma {:induction false} CallsOpen(open: set<ToolCallID>, asked: seq<Asked>)
    ensures OpenAfter(open, Expand(CallOps(asked))) == open + IdsOf(CallsIn(asked))
  {
    hide Changes;
    hide OpenAfter;
    if asked == [] {
      CallsNone(open);
      assert open + IdsOf(CallsIn(asked)) == open;
    } else {
      var front, last := asked[..|asked| - 1], asked[|asked| - 1];
      CallsOpen(open, front);
      var a, b, c := CallOps(front), [PrepareCall(last.call)], ReserveOps(last.reserved);
      ExpandConcat(a + b, c);
      ExpandConcat(a, b);
      ExpandOne(PrepareCall(last.call));
      OpenConcat(open, Expand(a + b), Expand(c));
      OpenConcat(open, Expand(a), Expand(b));
      PreparedOpens(OpenAfter(open, Expand(a)), last.call);
      ReservesWordless(last.reserved);
      WordlessOpen(OpenAfter(open, Expand(a + b)), c);
      assert CallsIn(asked) == CallsIn(front) + [last.call];
      IdsSnoc(CallsIn(front), last.call);
    }
  }

  lemma {:induction false} CallsNone(open: set<ToolCallID>)
    ensures Expand(CallOps([])) == [] && OpenAfter(open, []) == open
  {
  }

  lemma {:induction false} CompletionOpens(open: set<ToolCallID>, m: Message, asked: seq<Asked>)
    ensures OpenAfter(open, Expand(CompletionOps(m, asked))) == open + IdsOf(CallsIn(asked))
  {
    var said := Plain(AppendMessage(m));
    ExpandConcat([said], CallOps(asked));
    OpenConcat(open, Expand([said]), Expand(CallOps(asked)));
    WordlessOpen(open, [said]);
    CallsOpen(open, asked);
  }

  /** Results close exactly the calls they answer. */
  lemma {:induction false} SettlesClose(open: set<ToolCallID>, calls: seq<ToolCall>, results: seq<ToolResult>)
    requires |calls| == |results| && forall i :: 0 <= i < |calls| ==> results[i].call == calls[i].id
    ensures OpenAfter(open, Expand(SettleOps(calls, results))) == open - IdsOf(calls)
  {
    hide Changes;
    if calls == [] {
      assert open - IdsOf(calls) == open;
    } else {
      var n := |calls| - 1;
      var before, last := SettleOps(calls[..n], results[..n]), SettleCall(calls[n], results[n]);
      SettlesClose(open, calls[..n], results[..n]);
      ExpandConcat(before, [last]);
      ExpandOne(last);
      OpenConcat(open, Expand(before), Changes(last));
      SettledCloses(OpenAfter(open, Expand(before)), calls[n], results[n]);
      hide OpenAfter;
      assert calls == calls[..n] + [calls[n]];
      IdsSnoc(calls[..n], calls[n]);
    }
  }
}
