/** The Store guards a change by searching History; the checker keeps maps. On an accepted
    History the two see the same facts. */
module SearchAgreement {
  import opened SessionTypes
  import opened HistoryChecker
  import opened Transactions

  function Lookup<V>(m: map<nat, V>, key: nat): (r: Option<V>) {
    if key in m then Some(m[key]) else None
  }

  lemma {:induction false} MessageSearch(sid: SessionID, h: seq<HistoryFact>, id: MessageID)
    requires Accepted(sid, h)
    ensures FindMessage(h, id) == Lookup(ScanOf(h).talk.messages, id)
  {
    if h != [] {
      MessageSearch(sid, h[..|h| - 1], id);
    }
  }

  lemma {:induction false} CallSearch(sid: SessionID, h: seq<HistoryFact>, id: ToolCallID)
    requires Accepted(sid, h)
    ensures FindCall(h, id) == Lookup(ScanOf(h).talk.calls, id)
  {
    if h != [] {
      CallSearch(sid, h[..|h| - 1], id);
    }
  }

  lemma {:induction false} ResultSearch(sid: SessionID, h: seq<HistoryFact>, id: ToolCallID)
    requires Accepted(sid, h)
    ensures FindResult(h, id) == Lookup(ScanOf(h).talk.results, id)
  {
    if h != [] {
      ResultSearch(sid, h[..|h| - 1], id);
    }
  }

  lemma {:induction false} RunSearch(h: seq<HistoryFact>, run: RunID)
    ensures FindRun(h, run, true) == Lookup(ScanOf(h).runs.starts, run)
    ensures FindRun(h, run, false).Some? <==> run in ScanOf(h).runs.terminals
  {
    if h != [] {
      RunSearch(h[..|h| - 1], run);
    }
  }

  lemma {:induction false} AttemptSearch(h: seq<HistoryFact>, id: AttemptID)
    ensures FindAttempt(h, id, true) == Lookup(ScanOf(h).attempts.starts, id)
    ensures FindAttempt(h, id, false).Some? <==> id in ScanOf(h).attempts.terminals
  {
    if h != [] {
      AttemptSearch(h[..|h| - 1], id);
    }
  }

  lemma {:induction false} StopSearch(h: seq<HistoryFact>, run: RunID)
    ensures Stopped(h, run) <==> run in ScanOf(h).stops.budgets || run in ScanOf(h).stops.limits
  {
    if h != [] {
      var front, p := h[..|h| - 1], h[|h| - 1].payload;
      StopSearch(front, run);
      if Stopped(front, run) {
        var i :| 0 <= i < |front| && (match front[i].payload
                                      case BudgetPayload(b) => b.run == run
                                      case LimitPayload(l) => l.run == run
                                      case _ => false);
        assert h[i] == front[i];
      }
      assert forall i :: 0 <= i < |front| ==> h[i] == front[i];
    }
  }

  lemma {:induction false} CountSearch(h: seq<HistoryFact>, run: RunID)
    ensures Spent(h, run) == At(ScanOf(h).counts.usage, run)
    ensures CountAttempts(h, run) == At(ScanOf(h).counts.attempts, run)
    ensures CountCalls(h, run) == At(ScanOf(h).counts.calls, run)
  {
    if h != [] {
      CountSearch(h[..|h| - 1], run);
    }
  }

  lemma {:induction false} ContributionSearch(h: seq<HistoryFact>, c: Contribution)
    ensures HasContribution(h, c) <==> ContributionKey(c) in ScanOf(h).contributions
  {
    if h != [] {
      var front := h[..|h| - 1];
      ContributionSearch(front, c);
      assert forall i :: 0 <= i < |front| ==> h[i] == front[i];
      if HasContribution(front, c) {
        var i :| 0 <= i < |front| && front[i].payload.ContributionPayload? && front[i].payload.contribution.run == c.run
          && front[i].payload.contribution.step == c.step && front[i].payload.contribution.source == c.source;
        assert h[i] == front[i];
      }
    }
  }

  /** Terminal facts follow their start facts. */
  lemma {:induction false} TerminalsStarted(sid: SessionID, h: seq<HistoryFact>)
    requires Accepted(sid, h)
    ensures ScanOf(h).runs.terminals <= ScanOf(h).runs.starts.Keys
    ensures ScanOf(h).attempts.terminals <= ScanOf(h).attempts.starts.Keys
    ensures ScanOf(h).talk.results.Keys <= ScanOf(h).talk.calls.Keys
  {
    if h != [] {
      TerminalsStarted(sid, h[..|h| - 1]);
    }
  }

  /** The checker's maps hold the facts they are keyed by, all of them valid. */
  lemma {:induction false} ScanHoldsFacts(sid: SessionID, h: seq<HistoryFact>)
    requires Accepted(sid, h)
    ensures forall id :: id in ScanOf(h).attempts.starts ==>
              var a := ScanOf(h).attempts.starts[id]; a.id == id && a.Valid() && a.kind == AttemptStarted
    ensures forall run :: run in ScanOf(h).runs.starts ==>
              var f := ScanOf(h).runs.starts[run]; f.run == run && f.Valid(sid) && f.kind == RunStarted
    ensures forall id :: id in ScanOf(h).talk.calls ==> ScanOf(h).talk.calls[id].id == id && id != 0
    ensures forall id :: id in ScanOf(h).talk.results ==> ScanOf(h).talk.results[id].call == id
    ensures forall id :: id in ScanOf(h).talk.messages ==> ScanOf(h).talk.messages[id].id == id && id != 0
  {
    if h != [] {
      ScanHoldsFacts(sid, h[..|h| - 1]);
    }
  }
}
