/** Context contributed by hooks: every invocation yields at most one contribution fact, in the very commit
    that marks it consumed, and the model sees it in exactly one Run and Step
    (standardagent/runtime_input_gate_context.go, runtime_lifecycle.go consumePendingLifecycleContexts,
    runtime_completion.go finalizeCompletionOccurrence, runtime_execution.go historyInputs). */
module HookContexts {
  import opened SessionTypes
  import opened ExtensionJournal
  import opened HistoryChecker
  import opened Transactions
  import opened Recovery
  import opened AggregateInvariant
  import opened SessionRuns
  import opened ProtocolHistory
  import AtMostOnce

  /** The fact was written by this Session (not copied by a fork) for the given hook invocation. */
  predicate FromInvocation(f: HistoryFact, id: InvocationID) {
    f.origin.NoFact? && f.payload.ContributionPayload? && f.payload.contribution.source.HookSource?
    && f.payload.contribution.source.invocation == id
  }

  /** How many contributions of an invocation a History holds. */
  function Contributed(h: seq<HistoryFact>, id: InvocationID): (n: nat) {
    if h == [] then 0 else Contributed(h[..|h| - 1], id) + if FromInvocation(h[|h| - 1], id) then 1 else 0
  }

  lemma {:induction false} ContributedSnoc(h: seq<HistoryFact>, f: HistoryFact, id: InvocationID)
    ensures Contributed(h + [f], id) == Contributed(h, id) + if FromInvocation(f, id) then 1 else 0
  {
    assert (h + [f])[..|h|] == h;
  }

  ghost predicate Consumed(extensions: seq<ExtensionEntry>, id: InvocationID) {
    exists i :: 0 <= i < |extensions| && extensions[i].identity.invocation == id
      && extensions[i].context == ContextConsumed
  }

  /** History and journal agree: one contribution exactly when the invocation is consumed, else none. */
  ghost predicate Balanced(s: Snapshot, id: InvocationID) {
    Contributed(s.history, id) == if Consumed(s.extensions, id) then 1 else 0
  }

  // ---------------------------------------------------------------- one change

  lemma {:induction false} ConsumedIsFinal(current: ExtensionEntry, next: ExtensionEntry, sid: SessionID)
    requires EntryValid(current, sid) && EntryValid(next, sid) && TransitionOk(current, next)
    ensures current.context != ContextConsumed
  {
  }

  lemma {:induction false} PreparedHasNoContext(e: ExtensionEntry, sid: SessionID)
    requires EntryValid(e, sid) && e.status.InvocationPrepared?
    ensures e.context == ContextNone
  {
  }

  /** A journal update consumes an invocation only by saying so, and only once. */
  lemma {:induction false} UpdateConsumes(journal: seq<ExtensionEntry>, sid: SessionID, e: ExtensionEntry,
                                          after: seq<ExtensionEntry>, id: InvocationID)
    requires JournalValid(journal, sid) && ApplyExtension(journal, sid, e) == Ok(after)
    ensures Consumed(after, id) <==>
              Consumed(journal, id) || (e.identity.invocation == id && e.context == ContextConsumed)
    ensures e.identity.invocation == id && e.context == ContextConsumed ==> !Consumed(journal, id)
  {
    assert EntryValid(e, sid) && e.identity.sequence != 0;
    var i := e.identity.sequence - 1;
    assert after[i] == e;
    assert forall k :: 0 <= k < |journal| && k != i ==> after[k] == journal[k];
    if i < |journal| {
      assert EntryValid(journal[i], sid);
      ConsumedIsFinal(journal[i], e, sid);
    } else {
      PreparedHasNoContext(e, sid);
    }
    hide EntryValid;
    hide TransitionOk;
    if Consumed(journal, id) {
      var k :| 0 <= k < |journal| && journal[k].identity.invocation == id && journal[k].context == ContextConsumed;
      assert k != i && after[k] == journal[k];
    }
  }

  /** A change that is neither a hook contribution nor a journal update disturbs nothing. */
  lemma {:induction false} OtherChangesNothing(s: Snapshot, expected: Revision, c: Change, s': Snapshot,
                                               id: InvocationID)
    requires ApplyChange(s, expected, c) == Ok(s') && !c.UpdateExtensionJournal?
    ensures s'.extensions == s.extensions && s'.session == s.session
    ensures Contributed(s'.history, id) == Contributed(s.history, id) +
              if c.AppendContextContribution? && c.contribution.source.HookSource?
                && c.contribution.source.invocation == id then 1 else 0
  {
    ChangeAppends(s, expected, c, s');
    if Appended(c).Some? {
      assert s'.history == s.history + [s'.history[|s.history|]];
      ContributedSnoc(s.history, s'.history[|s.history|], id);
    }
    if !c.UpdateRunJournal? {
      AtMostOnce.OtherChange(s, expected, c, s');
    }
    hide Contributed;
  }

  lemma {:induction false} UpdateChange(s: Snapshot, expected: Revision, e: ExtensionEntry, s': Snapshot)
    requires ApplyChange(s, expected, UpdateExtensionJournal(e)) == Ok(s')
    ensures s' == s.(extensions := s'.extensions) && ApplyExtension(s.extensions, s.session.id, e) == Ok(s'.extensions)
  {
  }

  // ---------------------------------------------------------------- one operation

  lemma {:induction false} ConsumeBalanced(s: Snapshot, x: Contribution, e: ExtensionEntry, s': Snapshot,
                                           id: InvocationID)
    requires JournalValid(s.extensions, s.session.id) && Balanced(s, id) && Shaped(s, ConsumeContext(x, e))
    requires ApplyAll(s, s.revision, Changes(ConsumeContext(x, e))) == Ok(s')
    ensures Balanced(s', id)
    ensures Contributed(s'.history, id) == Contributed(s.history, id) + if e.identity.invocation == id then 1 else 0
  {
    hide JournalValid;
    hide Contributed;
    hide ApplyExtension;
    hide Consumed;
    ApplyTwo(s, s.revision, AppendContextContribution(x), UpdateExtensionJournal(e), s');
    var mid := ApplyChange(s, s.revision, AppendContextContribution(x)).value;
    OtherChangesNothing(s, s.revision, AppendContextContribution(x), mid, id);
    hide ApplyChange;
    UpdateChange(mid, s.revision, e, s');
    UpdateConsumes(mid.extensions, mid.session.id, e, s'.extensions, id);
  }

  lemma {:induction false} PlainBalanced(s: Snapshot, c: Change, s': Snapshot, id: InvocationID)
    requires JournalValid(s.extensions, s.session.id) && Balanced(s, id) && PlainKind(c)
    requires ApplyAll(s, s.revision, [c]) == Ok(s')
    ensures Balanced(s', id) && Contributed(s'.history, id) == Contributed(s.history, id)
  {
    hide JournalValid;
    hide Contributed;
    hide ApplyExtension;
    hide Consumed;
    ApplyOne(s, s.revision, c);
    hide ApplyChange;
    if c.UpdateExtensionJournal? {
      UpdateChange(s, s.revision, c.extension, s');
      UpdateConsumes(s.extensions, s.session.id, c.extension, s'.extensions, id);
    } else {
      OtherChangesNothing(s, s.revision, c, s', id);
    }
  }

  /** Changes of the other operations. */
  predicate Untouching(c: Change) {
    !c.UpdateExtensionJournal? && !c.AppendContextContribution?
  }

  lemma {:induction false} UntouchedBalanced(s: Snapshot, expected: Revision, changes: seq<Change>, s': Snapshot,
                                             id: InvocationID)
    requires ApplyAll(s, expected, changes) == Ok(s') && forall i :: 0 <= i < |changes| ==> Untouching(changes[i])
    ensures s'.extensions == s.extensions && Contributed(s'.history, id) == Contributed(s.history, id)
    decreases |changes|
  {
    hide Contributed;
    hide ApplyChange;
    if changes != [] {
      var mid := ApplyChange(s, expected, changes[0]).value;
      assert Untouching(changes[0]);
      OtherChangesNothing(s, expected, changes[0], mid, id);
      UntouchedBalanced(mid, expected, changes[1..], s', id);
    }
  }

  /** An operation contributes for an invocation exactly when it marks that invocation consumed. */
  lemma {:induction false} OpBalanced(s: Snapshot, op: Op, s': Snapshot, id: InvocationID)
    requires JournalValid(s.extensions, s.session.id) && Balanced(s, id) && Shaped(s, op)
    requires ApplyAll(s, s.revision, Changes(op)) == Ok(s')
    ensures Balanced(s', id)
    ensures Contributed(s.history, id) <= Contributed(s'.history, id)
  {
    hide Contributed;
    hide JournalValid;
    hide Consumed;
    hide ApplyAll;
    match op {
      case ConsumeContext(x, e) => ConsumeBalanced(s, x, e, s', id);
      case Plain(c) => PlainBalanced(s, c, s', id);
      case _ => UntouchedBalanced(s, s.revision, Changes(op), s', id);
    }
  }

  // ---------------------------------------------------------------- commits, recoveries, lives

  lemma {:induction false} OpsBalanced(s: Snapshot, ops: seq<Op>, s': Snapshot, id: InvocationID)
    requires Core(s) && Balanced(s, id) && EventsUpTo(s, s.revision + 1)
    requires AllShaped(s, ops) && AllValid(Expand(ops), s.session.id) && ApplyAll(s, s.revision, Expand(ops)) == Ok(s')
    ensures Balanced(s', id) && Contributed(s.history, id) <= Contributed(s'.history, id)
    decreases |ops|
  {
    assert JournalValid(s.extensions, s.session.id);
    hide Core;
    hide JournalValid;
    hide ChangeValid;
    hide EventsUpTo;
    hide Shaped;
    hide Balanced;
    hide Contributed;
    if ops != [] {
      AllValidSplit(Changes(ops[0]), Expand(ops[1..]), s.session.id);
      ApplyConcat(s, s.revision, Changes(ops[0]), Expand(ops[1..]));
      var mid := ApplyAll(s, s.revision, Changes(ops[0])).value;
      assert OpValid(ops[0], s.session.id);
      OpKeepsCore(s, ops[0], mid);
      OpSession(s, ops[0], mid);
      OpBalanced(s, ops[0], mid, id);
      OpsBalanced(mid, ops[1..], s', id);
    }
  }

  /** A Runtime commit writes a contribution for an invocation if and only if it is the commit that marks the
      invocation consumed. */
  lemma {:induction false} CommitBalanced(s: Snapshot, ops: seq<Op>, s': Snapshot, id: InvocationID)
    requires Inv(s) && Balanced(s, id) && RuntimeCommit(s, ops, s')
    ensures Balanced(s', id)
    ensures Contributed(s'.history, id) > Contributed(s.history, id) <==>
              Consumed(s'.extensions, id) && !Consumed(s.extensions, id)
    ensures Consumed(s.extensions, id) ==> Consumed(s'.extensions, id)
  {
    assert Core(s) && EventsUpTo(s, s.revision + 1);
    hide Core;
    hide Consumed;
    hide Contributed;
    OpsBalanced(s, ops, ApplyAll(s, s.revision, Expand(ops)).value, id);
  }

  lemma {:induction false} NoContributions(h: seq<HistoryFact>, h': seq<HistoryFact>, id: InvocationID)
    requires h <= h' && forall i :: |h| <= i < |h'| ==> !h'[i].payload.ContributionPayload?
    ensures Contributed(h', id) == Contributed(h, id)
    decreases |h'|
  {
    if |h'| > |h| {
      var front := h'[..|h'| - 1];
      assert forall i :: 0 <= i < |front| ==> front[i] == h'[i];
      NoContributions(h, front, id);
    } else {
      assert h == h';
    }
  }

  lemma {:induction false} RecoveryConsumesNothing(extensions: seq<ExtensionEntry>, now: Time, sid: SessionID,
                                                   id: InvocationID)
    ensures Consumed(RecoverExtensions(extensions, now), id) <==> Consumed(extensions, id)
  {
    var after := RecoverExtensions(extensions, now);
    assert forall i :: 0 <= i < |extensions| ==>
      after[i].identity == extensions[i].identity && after[i].context == extensions[i].context;
  }

  lemma {:induction false} RecoveryBalanced(s: Snapshot, s': Snapshot, id: InvocationID)
    requires Balanced(s, id) && Recovers(s, s')
    ensures Balanced(s', id)
  {
    var order, now :| RecoversWith(s, order, now, s');
    assert forall i :: 0 <= i < |order| ==> order[i] in ScanOf(s.history).attempts.starts;
    hide ScanOf;
    hide Contributed;
    RecoveryOnlyEnds(s, order, now);
    AtMostOnce.RepairedJournals(s, order, now);
    RecoveryConsumesNothing(s.extensions, now, s.session.id, id);
    NoContributions(s.history, Recovered(s, order, now).history, id);
    hide Recovered;
    hide Consumed;
  }

  /** A Session whose first hook contributions, if any, were copied from its parent. */
  ghost predicate Fresh(s: Snapshot) {
    exists n :: NewSessionValid(n) && !n.running && s == CreatedFrom(n)
      && forall i :: 0 <= i < |n.history| && n.history[i].payload.ContributionPayload? ==> n.history[i].origin.FactOf?
  }

  ghost predicate IsLife(run: seq<Snapshot>) {
    |run| > 0 && Fresh(run[0]) && forall i :: 0 <= i < |run| - 1 ==> Next(run[i], run[i + 1])
  }

  lemma {:induction false} CopiesDoNotCount(h: seq<HistoryFact>, id: InvocationID)
    requires forall i :: 0 <= i < |h| && h[i].payload.ContributionPayload? ==> h[i].origin.FactOf?
    ensures Contributed(h, id) == 0
  {
    if h != [] {
      CopiesDoNotCount(h[..|h| - 1], id);
    }
  }

  lemma {:induction false} FreshIsBalanced(s: Snapshot, id: InvocationID)
    requires Fresh(s)
    ensures Inv(s) && Balanced(s, id)
  {
    hide Inv;
    hide NewSessionValid;
    var n :| NewSessionValid(n) && !n.running && s == CreatedFrom(n)
      && forall i :: 0 <= i < |n.history| && n.history[i].payload.ContributionPayload? ==> n.history[i].origin.FactOf?;
    CreateEstablishesInv(n);
    CopiesDoNotCount(s.history, id);
  }

  lemma {:induction false} NextBalanced(s: Snapshot, s': Snapshot, id: InvocationID)
    requires Inv(s) && Balanced(s, id) && Next(s, s')
    ensures Inv(s') && Balanced(s', id)
  {
    NextKeepsInv(s, s');
    hide Inv;
    hide Balanced;
    hide RuntimeCommit;
    hide Recovers;
    if ops :| RuntimeCommit(s, ops, s') {
      CommitBalanced(s, ops, s', id);
    } else if Recovers(s, s') {
      RecoveryBalanced(s, s', id);
    }
  }

  lemma {:induction false} LifeBalanced(run: seq<Snapshot>, k: nat, id: InvocationID)
    requires IsLife(run) && k < |run|
    ensures Inv(run[k]) && Balanced(run[k], id)
  {
    hide Inv;
    hide Balanced;
    hide Next;
    hide Fresh;
    if k == 0 {
      FreshIsBalanced(run[0], id);
    } else {
      LifeBalanced(run, k - 1, id);
      assert Next(run[k - 1], run[k - 1 + 1]);
      NextBalanced(run[k - 1], run[k], id);
    }
  }

  /** Over the life of a Session an invocation contributes at most once, and has contributed exactly when the
      journal says it is consumed. */
  lemma {:induction false} ContributesAtMostOnce(run: seq<Snapshot>, k: nat, id: InvocationID)
    requires IsLife(run) && k < |run|
    ensures Contributed(run[k].history, id) <= 1
    ensures Contributed(run[k].history, id) == 1 <==> Consumed(run[k].extensions, id)
  {
    LifeBalanced(run, k, id);
  }

  // ---------------------------------------------------------------- what the model sees

  /** What one fact shows to a Step. */
  function Part(p: Payload, run: RunID, step: StepID): (r: seq<Input>) {
    if p.ContributionPayload? then
      if p.contribution.run == run && p.contribution.step == step then p.contribution.inputs else []
    else InputOf(p)
  }

  function Parts(h: seq<HistoryFact>, run: RunID, step: StepID): (r: seq<Input>) {
    if h == [] then [] else Parts(h[..|h| - 1], run, step) + Part(h[|h| - 1].payload, run, step)
  }

  /** historyInputs: the conversation, with every contribution addressed to this Step as a block at its fact's place
      and no other contribution. */
  method HistoryInputs(h: seq<HistoryFact>, run: RunID, step: StepID) returns (inputs: seq<Input>)
    ensures inputs == Parts(h, run, step)
    ensures forall i :: 0 <= i < |h| && Addresses(h[i].payload, run, step) ==>
              inputs == Parts(h[..i], run, step) + h[i].payload.contribution.inputs + Parts(h[i + 1..], run, step)
    ensures forall i :: 0 <= i < |h| && h[i].payload.ContributionPayload? && !Addresses(h[i].payload, run, step) ==>
              inputs == Parts(h[..i] + h[i + 1..], run, step)
    ensures (forall i :: 0 <= i < |h| ==> !Addresses(h[i].payload, run, step)) ==> inputs == Project(h)
  {
    inputs := [];
    for i := 0 to |h|
      invariant inputs == Parts(h[..i], run, step)
    {
      assert h[..i + 1][..i] == h[..i];
      var p := h[i].payload;
      if p.ContributionPayload? {
        if p.contribution.run == run && p.contribution.step == step {
          inputs := inputs + p.contribution.inputs;
        }
        continue;
      }
      match p {
        case MessagePayload(m) => inputs := inputs + [MessageInput(m)];
        case CallPayload(c) => inputs := inputs + [CallInput(c)];
        case ResultPayload(r) => inputs := inputs + [ResultInput(r)];
        case _ =>
      }
    }
    assert h[..|h|] == h;
    hide Parts;
    hide Project;
    forall i | 0 <= i < |h| && h[i].payload.ContributionPayload?
      ensures Addresses(h[i].payload, run, step) ==>
                inputs == Parts(h[..i], run, step) + h[i].payload.contribution.inputs + Parts(h[i + 1..], run, step)
      ensures !Addresses(h[i].payload, run, step) ==> inputs == Parts(h[..i] + h[i + 1..], run, step)
    {
      ContributionShown(h, i, run, step);
    }
    if forall i :: 0 <= i < |h| ==> !Addresses(h[i].payload, run, step) {
      PartsAreProjection(h, run, step);
    }
  }

  ghost predicate Addresses(p: Payload, run: RunID, step: StepID) {
    p.ContributionPayload? && p.contribution.run == run && p.contribution.step == step
  }

  /** A Step without contributions of its own sees the bare conversation. */
  lemma {:induction false} PartsAreProjection(h: seq<HistoryFact>, run: RunID, step: StepID)
    requires forall i :: 0 <= i < |h| ==> !Addresses(h[i].payload, run, step)
    ensures Parts(h, run, step) == Project(h)
  {
    if h != [] {
      PartsAreProjection(h[..|h| - 1], run, step);
    }
  }

  lemma {:induction false} Assoc(a: seq<Input>, b: seq<Input>, c: seq<Input>)
    ensures (a + b) + c == a + (b + c)
  {
  }

  lemma {:induction false} PartsSnoc(h: seq<HistoryFact>, f: HistoryFact, run: RunID, step: StepID)
    ensures Parts(h + [f], run, step) == Parts(h, run, step) + Part(f.payload, run, step)
  {
    assert (h + [f])[..|h|] == h;
  }

  lemma {:induction false} PartsConcat(a: seq<HistoryFact>, b: seq<HistoryFact>, run: RunID, step: StepID)
    ensures Parts(a + b, run, step) == Parts(a, run, step) + Parts(b, run, step)
  {
    if b == [] {
      assert a + b == a && Parts(b, run, step) == [];
    } else {
      var front, f := b[..|b| - 1], b[|b| - 1];
      hide Part;
      hide Parts;
      assert b == front + [f] && a + b == (a + front) + [f];
      PartsConcat(a, front, run, step);
      PartsSnoc(front, f, run, step);
      PartsSnoc(a + front, f, run, step);
      Assoc(Parts(a, run, step), Parts(front, run, step), Part(f.payload, run, step));
    }
  }

  /** A fact shows its part at its own place, and nothing else of it is shown. */
  lemma {:induction false} PartsSplit(h: seq<HistoryFact>, i: nat, run: RunID, step: StepID)
    requires i < |h|
    ensures Parts(h, run, step) ==
            Parts(h[..i], run, step) + Part(h[i].payload, run, step) + Parts(h[i + 1..], run, step)
  {
    PartsSnoc(h[..i], h[i], run, step);
    hide Part;
    hide Parts;
    assert h[..i + 1] == h[..i] + [h[i]] && h == h[..i + 1] + h[i + 1..];
    PartsConcat(h[..i + 1], h[i + 1..], run, step);
  }

  /** The list of a Step holds the inputs of a contribution, as one block at the fact's place, when the fact is
      addressed to it; the list of any other Step is what it would be without the fact. */
  lemma {:induction false} ContributionShown(h: seq<HistoryFact>, i: nat, run: RunID, step: StepID)
    requires i < |h| && h[i].payload.ContributionPayload?
    ensures Addresses(h[i].payload, run, step) ==>
              Parts(h, run, step) ==
              Parts(h[..i], run, step) + h[i].payload.contribution.inputs + Parts(h[i + 1..], run, step)
    ensures !Addresses(h[i].payload, run, step) ==> Parts(h, run, step) == Parts(h[..i] + h[i + 1..], run, step)
  {
    PartsSplit(h, i, run, step);
    PartsConcat(h[..i], h[i + 1..], run, step);
    assert Parts(h[..i], run, step) + [] == Parts(h[..i], run, step);
  }

  lemma {:induction false} CountedOnce(h: seq<HistoryFact>, id: InvocationID, i: nat, j: nat)
    requires i <= j < |h| && FromInvocation(h[i], id) && FromInvocation(h[j], id)
    ensures Contributed(h, id) >= 1 && (i < j ==> Contributed(h, id) >= 2)
    decreases |h|
  {
    var front := h[..|h| - 1];
    if j < |front| {
      CountedOnce(front, id, i, j);
    } else if i < j {
      CountedOnce(front, id, i, i);
    }
  }

  lemma {:induction false} Located(h: seq<HistoryFact>, id: InvocationID) returns (i: nat)
    requires Contributed(h, id) > 0
    ensures i < |h| && FromInvocation(h[i], id)
  {
    if FromInvocation(h[|h| - 1], id) {
      i := |h| - 1;
    } else {
      i := Located(h[..|h| - 1], id);
    }
  }

  /** A consumed invocation has one contribution fact. The inputs built for the Run and Step it names hold its context
      as one block; the inputs built for any other Step are as if the fact were not there. */
  lemma {:induction false} ShownToOneStep(run: seq<Snapshot>, k: nat, id: InvocationID)
    returns (i: nat, r: RunID, step: StepID)
    requires IsLife(run) && k < |run| && Consumed(run[k].extensions, id)
    ensures var h := run[k].history;
            && i < |h| && FromInvocation(h[i], id) && (forall j :: 0 <= j < |h| && FromInvocation(h[j], id) ==> j == i)
            && Parts(h, r, step) == Parts(h[..i], r, step) + h[i].payload.contribution.inputs
                 + Parts(h[i + 1..], r, step)
            && forall r': nat, step': nat :: (r', step') != (r, step) ==>
                 Parts(h, r', step') == Parts(h[..i] + h[i + 1..], r', step')
  {
    ContributesAtMostOnce(run, k, id);
    var h := run[k].history;
    i := Located(h, id);
    r, step := h[i].payload.contribution.run, h[i].payload.contribution.step;
    forall j | 0 <= j < |h| && FromInvocation(h[j], id) ensures j == i {
      CountedOnce(h, id, if i < j then i else j, if i < j then j else i);
    }
    hide Contributed;
    hide IsLife;
    hide Parts;
    ContributionShown(h, i, r, step);
    forall r': nat, step': nat | (r', step') != (r, step)
      ensures Parts(h, r', step') == Parts(h[..i] + h[i + 1..], r', step')
    {
      ContributionShown(h, i, r', step');
    }
  }
}
