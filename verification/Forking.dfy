/** The fork operation itself: choosing the cutoff, rewriting the chosen facts, and the child Session that
    results (session/memory_manager.go Fork, selectForkHistory, completedForkBoundary,
    validateForkProtocol, rewriteForFork). */
module Forking {
  import opened SessionTypes
  import opened HistoryChecker
  import opened AggregateInvariant
  import opened SessionRuns
  import opened ForkRenaming
  import HistoryPaging

  // ---------------------------------------------------------------- choosing the cutoff

  datatype ForkMode = FullHistory | HistoryPrefix

  /** Every call is answered and every attempt has ended. */
  predicate ForkProtocol(h: seq<HistoryFact>) {
    ScanOf(h).talk.calls.Keys <= ScanOf(h).talk.results.Keys
      && ScanOf(h).attempts.starts.Keys <= ScanOf(h).attempts.terminals
  }

  /** validateForkProtocol: four sets filled in one pass. */
  method ValidateForkProtocol(h: seq<HistoryFact>) returns (ok: bool)
    ensures ok == ForkProtocol(h)
  {
    var calls, results, attempts, terminals: set<nat> := {}, {}, {}, {};
    for i := 0 to |h|
      invariant calls == ScanOf(h[..i]).talk.calls.Keys && results == ScanOf(h[..i]).talk.results.Keys
      invariant attempts == ScanOf(h[..i]).attempts.starts.Keys && terminals == ScanOf(h[..i]).attempts.terminals
    {
      assert h[..i + 1] == h[..i] + [h[i]];
      ScanSnoc(0, h[..i], h[i]);
      match h[i].payload {
        case CallPayload(c) => calls := calls + {c.id};
        case ResultPayload(r) => results := results + {r.call};
        case AttemptPayload(a) =>
          if a.kind == AttemptStarted {
            attempts := attempts + {a.id};
          } else {
            terminals := terminals + {a.id};
          }
        case _ =>
      }
    }
    assert h[..|h|] == h;
    return calls <= results && attempts <= terminals;
  }

  /** completedForkBoundary. */
  predicate CompletedBoundary(h: seq<HistoryFact>, index: nat, active: RunID)
    requires index < |h|
  {
    var fact := h[index];
    if index == |h| - 1 && active != 0 && fact.run == active then false
    else if fact.step != 0 then index == |h| - 1 || h[index + 1].step != fact.step
    else fact.payload.RunPayload? && fact.payload.run.kind != RunStarted
  }

  function Cutoff(h: seq<HistoryFact>, mode: ForkMode, requested: nat): (r: nat) {
    if mode.FullHistory? then |h| else requested
  }

  /** The cutoffs that may be forked at. */
  predicate Forkable(h: seq<HistoryFact>, active: RunID, mode: ForkMode, requested: nat) {
    var cutoff := Cutoff(h, mode, requested);
    cutoff == 0 ||
    (cutoff <= |h| && (mode.HistoryPrefix? ==> CompletedBoundary(h, cutoff - 1, active)) && ForkProtocol(h[..cutoff]))
  }

  // The same, told by the facts themselves.

  predicate IsCall(h: seq<HistoryFact>, i: int, id: ToolCallID) {
    0 <= i < |h| && h[i].payload.CallPayload? && h[i].payload.call.id == id
  }

  predicate IsResult(h: seq<HistoryFact>, i: int, id: ToolCallID) {
    0 <= i < |h| && h[i].payload.ResultPayload? && h[i].payload.result.call == id
  }

  predicate IsAttempt(h: seq<HistoryFact>, i: int, id: AttemptID, start: bool) {
    0 <= i < |h| && h[i].payload.AttemptPayload? && h[i].payload.attempt.id == id
    && (h[i].payload.attempt.kind.AttemptStarted? <==> start)
  }

  lemma {:induction false} CallKeys(h: seq<HistoryFact>, id: nat)
    ensures id in ScanOf(h).talk.calls <==> exists i :: IsCall(h, i, id)
  {
    if h != [] {
      var front, n := h[..|h| - 1], |h| - 1;
      CallKeys(front, id);
      assert forall i :: IsCall(front, i, id) ==> front[i] == h[i] && IsCall(h, i, id);
      assert forall i :: IsCall(h, i, id) ==> i == n || IsCall(front, i, id);
      assert IsCall(h, n, id) <==> h[n].payload.CallPayload? && h[n].payload.call.id == id;
    }
  }

  lemma {:induction false} ResultKeys(h: seq<HistoryFact>, id: nat)
    ensures id in ScanOf(h).talk.results <==> exists i :: IsResult(h, i, id)
  {
    if h != [] {
      var front, n := h[..|h| - 1], |h| - 1;
      ResultKeys(front, id);
      assert forall i :: IsResult(front, i, id) ==> front[i] == h[i] && IsResult(h, i, id);
      assert forall i :: IsResult(h, i, id) ==> i == n || IsResult(front, i, id);
      assert IsResult(h, n, id) <==> h[n].payload.ResultPayload? && h[n].payload.result.call == id;
    }
  }

  lemma {:induction false} StartKeys(h: seq<HistoryFact>, id: nat)
    ensures id in ScanOf(h).attempts.starts <==> exists i :: IsAttempt(h, i, id, true)
  {
    if h != [] {
      var front, n := h[..|h| - 1], |h| - 1;
      StartKeys(front, id);
      assert forall i :: IsAttempt(front, i, id, true) ==> front[i] == h[i] && IsAttempt(h, i, id, true);
      assert forall i :: IsAttempt(h, i, id, true) ==> i == n || IsAttempt(front, i, id, true);
      assert IsAttempt(h, n, id, true) <==> h[n].payload.AttemptPayload? && IsAttempt(h, n, id, true);
    }
  }

  lemma {:induction false} EndKeys(h: seq<HistoryFact>, id: nat)
    ensures id in ScanOf(h).attempts.terminals <==> exists i :: IsAttempt(h, i, id, false)
  {
    if h != [] {
      var front, n := h[..|h| - 1], |h| - 1;
      EndKeys(front, id);
      assert forall i :: IsAttempt(front, i, id, false) ==> front[i] == h[i] && IsAttempt(h, i, id, false);
      assert forall i :: IsAttempt(h, i, id, false) ==> i == n || IsAttempt(front, i, id, false);
      assert IsAttempt(h, n, id, false) <==> h[n].payload.AttemptPayload? && IsAttempt(h, n, id, false);
    }
  }

  lemma {:induction false} KeysAreFacts(h: seq<HistoryFact>, id: nat)
    ensures id in ScanOf(h).talk.calls <==> exists i :: IsCall(h, i, id)
    ensures id in ScanOf(h).talk.results <==> exists i :: IsResult(h, i, id)
    ensures id in ScanOf(h).attempts.starts <==> exists i :: IsAttempt(h, i, id, true)
    ensures id in ScanOf(h).attempts.terminals <==> exists i :: IsAttempt(h, i, id, false)
  {
    hide *;
    CallKeys(h, id);
    ResultKeys(h, id);
    StartKeys(h, id);
    EndKeys(h, id);
  }

  /** Every call of the facts has its result among them, and every started attempt its end. */
  ghost predicate Complete(h: seq<HistoryFact>) {
    && (forall i, id :: IsCall(h, i, id) ==> exists j :: IsResult(h, j, id))
    && (forall i, id :: IsAttempt(h, i, id, true) ==> exists j :: IsAttempt(h, j, id, false))
  }

  lemma {:induction false} CompleteExact(h: seq<HistoryFact>)
    ensures ForkProtocol(h) <==> Complete(h)
  {
    if ForkProtocol(h) {
      forall i, id | IsCall(h, i, id) ensures exists j :: IsResult(h, j, id) { KeysAreFacts(h, id); }
      forall i, id | IsAttempt(h, i, id, true) ensures exists j :: IsAttempt(h, j, id, false) { KeysAreFacts(h, id); }
    }
    if Complete(h) {
      forall id | id in ScanOf(h).talk.calls ensures id in ScanOf(h).talk.results { KeysAreFacts(h, id); }
      forall id | id in ScanOf(h).attempts.starts ensures id in ScanOf(h).attempts.terminals { KeysAreFacts(h, id); }
    }
    hide ScanOf;
  }

  /** The prefix of `n` facts ends with a Step, or with the end of a Run, that is over: the Step does not go on behind
      it, and it is not the latest fact of the active Run. */
  ghost predicate EndsWhole(h: seq<HistoryFact>, n: nat, active: RunID) {
    && 0 < n <= |h|
    && (n == |h| && active > 0 ==> h[n - 1].run != active)
    && (h[n - 1].step > 0 ==> n == |h| || h[n].step != h[n - 1].step)
    && (h[n - 1].step == 0 ==> h[n - 1].payload.RunPayload? && !h[n - 1].payload.run.kind.RunStarted?)
  }

  /** What may be forked: nothing, a whole History whose calls and attempts are complete, or such a prefix that cuts
      no Step and no active Run. */
  lemma {:induction false} ForkableExact(h: seq<HistoryFact>, active: RunID, requested: nat)
    ensures Forkable(h, active, FullHistory, requested) <==> Complete(h)
    ensures Forkable(h, active, HistoryPrefix, requested) <==>
            requested == 0 || (EndsWhole(h, requested, active) && Complete(h[..requested]))
  {
    assert h[..|h|] == h;
    CompleteExact(h);
    if requested <= |h| {
      CompleteExact(h[..requested]);
    }
    hide ForkProtocol;
    hide Complete;
    if h == [] {
      NothingComplete();
    }
  }

  lemma {:induction false} NothingComplete()
    ensures Complete([])
  {
  }

  /** selectForkHistory, on a History numbered as the Store numbers it. */
  method SelectForkHistory(h: seq<HistoryFact>, active: RunID, mode: ForkMode, requested: nat)
    returns (r: Result<(nat, seq<HistoryFact>)>)
    requires HistoryPaging.Numbered(h)
    ensures r.Ok? <==> Forkable(h, active, mode, requested)
    ensures mode.FullHistory? ==> (r.Ok? <==> Complete(h)) && (r.Ok? ==> r.value == (|h|, h))
    ensures mode.HistoryPrefix? ==>
              && (r.Ok? <==> requested == 0 || (EndsWhole(h, requested, active) && Complete(h[..requested])))
              && (r.Ok? ==> requested <= |h| && r.value == (requested, h[..requested]))
    ensures r.Ok? ==> Cutoff(h, mode, requested) <= |h|
    ensures r.Ok? ==> r.value == (Cutoff(h, mode, requested), h[..Cutoff(h, mode, requested)])
  {
    ForkableExact(h, active, requested);
    hide Complete;
    hide EndsWhole;
    assert h[..|h|] == h;
    if mode.HistoryPrefix? && requested == 0 { return Ok((0, [])); }
    if |h| == 0 {
      return if mode.FullHistory? then Ok((0, [])) else Err(InvalidInput);
    }
    var cutoff := requested;
    if mode.FullHistory? {
      cutoff := h[|h| - 1].sequence;
    }
    var end := -1;
    for i := 0 to |h|
      invariant end == -1
      invariant cutoff == 0 || cutoff > i
    {
      if h[i].sequence == cutoff {
        end := i;
        break;
      }
    }
    if end < 0 { return Err(InvalidInput); }
    if mode.HistoryPrefix? && !CompletedBoundary(h, end, active) { return Err(InvalidInput); }
    var selected := h[..end + 1];
    var ok := ValidateForkProtocol(selected);
    if !ok { return Err(InvalidInput); }
    return Ok((cutoff, selected));
  }

  // ---------------------------------------------------------------- rewriting

  ghost predicate Extends(m: Renaming, m': Renaming) {
    forall a :: a in m ==> a in m' && m'[a] == m[a]
  }

  /** Once an ID is known, later renamings keep its new name. */
  lemma {:induction false} NamesStay(m: Renaming, m': Renaming, sid: SessionID, x: Input)
    requires Extends(m, m') && Injective(m') && KnowsAll(m, InputNames(x))
    ensures KnowsAll(m', InputNames(x)) && RenameInput(m', sid, x) == RenameInput(m, sid, x)
  {
    forall i | 0 <= i < |InputNames(x)|
      ensures Knows(m', InputNames(x)[i]) && New(m', InputNames(x)[i]) == New(m, InputNames(x)[i])
    {
      assert Knows(m, InputNames(x)[i]);
    }
    var names := InputNames(x);
    assert |names| > 0 ==> New(m', names[0]) == New(m, names[0]);
    assert |names| > 1 ==> New(m', names[1]) == New(m, names[1]);
    assert |names| > 2 ==> New(m', names[2]) == New(m, names[2]);
    assert |names| > 3 ==> New(m', names[3]) == New(m, names[3]);
    hide New;
    hide Extends;
  }

  lemma {:induction false} KnownNamesStay(m: Renaming, m': Renaming, names: seq<Name>)
    requires Extends(m, m') && Injective(m') && KnowsAll(m, names)
    ensures KnowsAll(m', names) && forall i :: 0 <= i < |names| ==> New(m', names[i]) == New(m, names[i])
  {
    forall i | 0 <= i < |names| ensures Knows(m', names[i]) && New(m', names[i]) == New(m, names[i]) {
      assert Knows(m, names[i]);
    }
  }

  lemma {:induction false} PayloadStays(m: Renaming, m': Renaming, sid: SessionID, p: Payload)
    requires Extends(m, m') && Injective(m') && KnowsAll(m, NamesOf(p))
    ensures KnowsAll(m', NamesOf(p)) && RenamePayload(m', sid, p) == RenamePayload(m, sid, p)
  {
    var names := NamesOf(p);
    KnownNamesStay(m, m', names);
    if p.ContributionPayload? {
      KnowsContribution(m, p.contribution);
      assert names[0] == RunName(p.contribution.run) && names[1] == StepName(p.contribution.step);
      forall i | 0 <= i < |p.contribution.inputs|
        ensures RenameInput(m', sid, p.contribution.inputs[i]) == RenameInput(m, sid, p.contribution.inputs[i])
      {
        NamesStay(m, m', sid, p.contribution.inputs[i]);
      }
      assert RenameInputs(m', sid, p.contribution.inputs) == RenameInputs(m, sid, p.contribution.inputs);
    } else {
      assert |names| > 0 ==> New(m', names[0]) == New(m, names[0]);
      assert |names| > 1 ==> New(m', names[1]) == New(m, names[1]);
      assert |names| > 2 ==> New(m', names[2]) == New(m, names[2]);
      assert |names| > 3 ==> New(m', names[3]) == New(m, names[3]);
      hide New;
      hide Extends;
      hide Injective;
      hide KnowsAll;
    }
  }

  lemma {:induction false} FactsStay(m: Renaming, m': Renaming, sid: SessionID, h: seq<HistoryFact>)
    requires Extends(m, m') && Injective(m') && Covers(m, h)
    ensures Covers(m', h) && RenameHistory(m', sid, h) == RenameHistory(m, sid, h)
  {
    hide KnowsAll;
    hide Extends;
    hide Injective;
    hide RenamePayload;
    forall i | 0 <= i < |h|
      ensures KnowsAll(m', NamesOf(h[i].payload))
      ensures RenamePayload(m', sid, h[i].payload) == RenamePayload(m, sid, h[i].payload)
    {
      PayloadStays(m, m', sid, h[i].payload);
    }
  }

  /** New IDs come from the counter's range and no other. */
  ghost predicate Drawn(m: Renaming, first: nat, next: nat) {
    first <= next && forall a :: a in m ==> first <= m[a] < next
  }

  /** One of the messageID, callID, runID, stepID and attemptID closures. */
  method Rename(m: Renaming, ghost first: nat, next: nat, name: Name) returns (m': Renaming, next': nat)
    requires Injective(m) && Drawn(m, first, next) && first > 0
    ensures Injective(m') && Drawn(m', first, next') && Extends(m, m') && Knows(m', name)
    ensures m'.Keys == if name.id == 0 then m.Keys else m.Keys + {name}
  {
    m', next' := m, next;
    if name.id == 0 || name in m { return; }
    m' := m[name := next];
    next' := next + 1;
  }

  method RenameNames(m: Renaming, ghost first: nat, next: nat, names: seq<Name>) returns (m': Renaming, next': nat)
    requires Injective(m) && Drawn(m, first, next) && first > 0
    ensures Injective(m') && Drawn(m', first, next') && Extends(m, m') && KnowsAll(m', names)
  {
    m', next' := m, next;
    for i := 0 to |names|
      invariant Injective(m') && Drawn(m', first, next') && Extends(m, m') && KnowsAll(m', names[..i])
    {
      ghost var before := m';
      assert names[..i + 1] == names[..i] + [names[i]];
      m', next' := Rename(m', first, next', names[i]);
      KnownNamesStay(before, m', names[..i]);
    }
    assert names[..|names|] == names;
  }

  /** rewriteForFork: one pass that invents a name for each new ID it meets. The result is the source under
      one injective renaming, with each fact's origin set. */
  method RewriteForFork(h: seq<HistoryFact>, sid: SessionID, first: nat)
    returns (r: seq<HistoryFact>, m: Renaming, next: nat)
    requires first > 0
    ensures Injective(m) && Drawn(m, first, next) && Covers(m, h)
    ensures r == RenameHistory(m, sid, h) && |r| == |h|
    ensures forall i :: 0 <= i < |h| ==> Follows(m, sid, h[i].payload, r[i].payload) && r[i].origin == h[i].id
  {
    r, m, next := [], map[], first;
    for i := 0 to |h|
      invariant Injective(m) && Drawn(m, first, next) && Covers(m, h[..i])
      invariant r == RenameHistory(m, sid, h[..i])
    {
      hide Injective;
      hide Drawn;
      hide Extends;
      hide KnowsAll;
      hide RenamePayload;
      ghost var before := m;
      m, next := RenameNames(m, first, next, NamesOf(h[i].payload));
      FactsStay(before, m, sid, h[..i]);
      assert h[..i + 1] == h[..i] + [h[i]];
      r := r + [RenameFact(m, sid, h[i])];
      assert r == RenameHistory(m, sid, h[..i + 1]);
    }
    assert h[..|h|] == h;
    HistoryFollows(m, sid, h);
  }

  lemma {:induction false} HistoryFollows(m: Renaming, sid: SessionID, h: seq<HistoryFact>)
    requires Injective(m) && Covers(m, h)
    ensures forall i :: 0 <= i < |h| ==>
              var f := RenameHistory(m, sid, h)[i];
              Follows(m, sid, h[i].payload, f.payload) && f.origin == h[i].id
  {
    hide Injective;
    hide KnowsAll;
    hide Follows;
    hide RenamePayload;
    forall i | 0 <= i < |h| ensures Follows(m, sid, h[i].payload, RenameHistory(m, sid, h)[i].payload) {
      PayloadFollows(m, sid, h[i].payload);
    }
  }

  // ---------------------------------------------------------------- the child

  function Child(s: Snapshot, history: seq<HistoryFact>, cutoff: nat, sid: SessionID, agent: nat, workspace: nat,
                 config: Config): (n: NewSession) {
    NewSession(SessionInfo(sid, agent, workspace, s.session.id, s.revision), history, [], [], config, false, 0,
               Some(Provenance(s.session.id, cutoff)))
  }

  lemma {:induction false} ChildTools(m: Renaming, sid: SessionID, t: Talk, t': Talk)
    requires SameTalk(m, sid, t, t') && t.calls.Keys <= t.results.Keys
    ensures JournalAccepted(t', [])
  {
    forall new_ | new_ in t'.calls ensures new_ in t'.results {
      var id :| id in t.calls && CallName(id) in m && New(m, CallName(id)) == new_;
      assert WithId(CallName(0), id) == CallName(id) && id in t.results.Keys;
    }
  }

  /** The child's facts pass the checker with an empty journal. */
  lemma {:induction false} ChildConsistent(parent: SessionID, prefix: seq<HistoryFact>, m: Renaming, sid: SessionID)
    requires Accepted(parent, prefix) && ScanOf(prefix).talk.calls.Keys <= ScanOf(prefix).talk.results.Keys
    requires Injective(m) && Covers(m, prefix) && sid != 0
    ensures Consistent(sid, RenameHistory(m, sid, prefix), [])
  {
    hide ScanOf;
    hide Accepted;
    hide Injective;
    hide Covers;
    hide SameTalk;
    hide RenameHistory;
    HistoryRenamed(m, sid, parent, prefix);
    ChildTools(m, sid, ScanOf(prefix).talk, ScanOf(RenameHistory(m, sid, prefix)).talk);
  }

  lemma {:induction false} PrefixReady(s: Snapshot, mode: ForkMode, requested: nat)
    requires HistoryOk(s) && Forkable(s.history, s.activeRun, mode, requested)
    ensures Cutoff(s.history, mode, requested) <= |s.history| && s.session.id != 0
    ensures var prefix := s.history[..Cutoff(s.history, mode, requested)];
            && Accepted(s.session.id, prefix) && ScanOf(prefix).talk.calls.Keys <= ScanOf(prefix).talk.results.Keys
            && forall i :: 0 <= i < |prefix| ==> prefix[i] == s.history[i] && prefix[i].id.FactOf?
  {
    AcceptedPrefix(s.session.id, s.history, Cutoff(s.history, mode, requested));
    if Cutoff(s.history, mode, requested) == 0 {
      assert s.history[..0] == [];
    }
  }

  lemma {:induction false} ChildIsValid(s: Snapshot, history: seq<HistoryFact>, cutoff: nat, sid: SessionID,
                                        agent: nat, workspace: nat, config: Config)
    requires s.session.id != 0 && s.revision > 0 && sid != 0 && sid != s.session.id && agent != 0 && workspace != 0
    requires config.Valid()
    requires cutoff == |history| && Consistent(sid, history, [])
    requires forall i :: 0 <= i < cutoff ==> history[i].origin.FactOf?
    ensures var n := Child(s, history, cutoff, sid, agent, workspace, config);
            && NewSessionValid(n) && Inv(CreatedFrom(n)) && |CreatedFrom(n).history| == cutoff
            && forall i :: 0 <= i < cutoff ==>
                 CreatedFrom(n).history[i].origin == history[i].origin
                   && CreatedFrom(n).history[i].payload == history[i].payload
  {
    hide Consistent;
    hide Inv;
    var n := Child(s, history, cutoff, sid, agent, workspace, config);
    assert NewSessionValid(n);
    CreateEstablishesInv(n);
  }

  /** The child's facts are the first `cutoff` facts of its parent, renamed, and name them as their origin. */
  ghost predicate Mirrors(child: seq<HistoryFact>, parent: seq<HistoryFact>, cutoff: nat, m: Renaming, sid: SessionID) {
    && |child| == cutoff <= |parent|
    && forall i :: 0 <= i < cutoff ==>
         child[i].origin == parent[i].id && child[i].payload == RenamePayload(m, sid, parent[i].payload)
  }

  /** For every accepted source History and every cutoff that may be forked at, the child passes
      validateNewSession and is a good aggregate: an empty journal, a provenance cutoff equal to the length of
      its History, and every fact's origin the source fact at the same position. */
  lemma {:induction false} ForkIsAccepted(s: Snapshot, mode: ForkMode, requested: nat, m: Renaming,
                                          sid: SessionID, agent: nat, workspace: nat, config: Config)
    requires HistoryOk(s) && s.revision > 0 && Forkable(s.history, s.activeRun, mode, requested)
    requires sid != 0 && sid != s.session.id && agent != 0 && workspace != 0 && config.Valid()
    requires Injective(m) && Covers(m, s.history[..Cutoff(s.history, mode, requested)])
    ensures var cutoff := Cutoff(s.history, mode, requested);
            var n := Child(s, RenameHistory(m, sid, s.history[..cutoff]), cutoff, sid, agent, workspace, config);
            NewSessionValid(n) && Inv(CreatedFrom(n)) && Mirrors(CreatedFrom(n).history, s.history, cutoff, m, sid)
  {
    hide HistoryOk;
    hide ScanOf;
    hide Accepted;
    hide Injective;
    hide RenamePayload;
    hide Inv;
    hide Covers;
    hide Consistent;
    hide NewSessionValid;
    hide Forkable;
    hide CreatedFrom;
    PrefixReady(s, mode, requested);
    var cutoff := Cutoff(s.history, mode, requested);
    var prefix := s.history[..cutoff];
    var history := RenameHistory(m, sid, prefix);
    assert forall i :: 0 <= i < cutoff ==> history[i] == RenameFact(m, sid, prefix[i]);
    hide RenameHistory;
    ChildConsistent(s.session.id, prefix, m, sid);
    ChildIsValid(s, history, cutoff, sid, agent, workspace, config);
    var created := CreatedFrom(Child(s, history, cutoff, sid, agent, workspace, config)).history;
    hide Child;
    forall i | 0 <= i < cutoff
      ensures created[i].origin == s.history[i].id && created[i].payload == RenamePayload(m, sid, s.history[i].payload)
    {
      assert history[i] == RenameFact(m, sid, prefix[i]) && prefix[i] == s.history[i];
    }
  }

  /** Manager.Fork up to Store.Create, with the new IDs drawn from `first` on. */
  method ForkSession(s: Snapshot, mode: ForkMode, requested: nat, sid: SessionID, agent: nat, workspace: nat,
                     config: Config, first: nat)
    returns (r: Result<NewSession>, ghost m: Renaming)
    requires HistoryOk(s) && s.revision > 0 && first > 0
    requires sid != 0 && sid != s.session.id && config.Valid()
    ensures r.Ok? <==> agent != 0 && workspace != 0
                       && (mode.FullHistory? ==> requested == 0 && !s.running)
                       && Forkable(s.history, s.activeRun, mode, requested)
    ensures r.Ok? ==>
              NewSessionValid(r.value) && Inv(CreatedFrom(r.value)) && r.value.journal == [] && r.value.queue == []
    ensures r.Ok? ==> Cutoff(s.history, mode, requested) <= |s.history| && Injective(m)
    ensures r.Ok? ==> Mirrors(CreatedFrom(r.value).history, s.history, Cutoff(s.history, mode, requested), m, sid)
    ensures r.Ok? ==>
              && r.value.session == SessionInfo(sid, agent, workspace, s.session.id, s.revision)
              && r.value.config == config && !r.value.running && r.value.activeRun == 0
              && r.value.fork == Some(Provenance(s.session.id, |r.value.history|))
    ensures r.Ok? ==> r.value.history == RenameHistory(m, sid, s.history[..Cutoff(s.history, mode, requested)])
  {
    m := map[];
    if agent == 0 || workspace == 0 { return Err(InvalidInput), m; }
    if mode.FullHistory? && requested != 0 { return Err(InvalidInput), m; }
    if mode.FullHistory? && s.running { return Err(ActiveRunExists), m; }
    var selected := SelectForkHistory(s.history, s.activeRun, mode, requested);
    if selected.Err? { return Err(selected.code), m; }
    var (cutoff, prefix) := selected.value;
    var history, names, next := RewriteForFork(prefix, sid, first);
    m := names;
    hide Inv;
    hide NewSessionValid;
    hide Injective;
    hide Forkable;
    ForkIsAccepted(s, mode, requested, m, sid, agent, workspace, config);
    return Ok(Child(s, history, cutoff, sid, agent, workspace, config)), m;
  }
}
