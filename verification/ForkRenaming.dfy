/** Forking a Session (session/memory_manager.go Fork, selectForkHistory, validateForkProtocol,
    rewriteForFork). A child's History is an injective renaming of a prefix of its parent's, and the Store's
    own checker accepts it.

    The source keeps five maps from old to new IDs and draws every new ID from one counter. Here the maps
    are one map keyed by kind and ID. */
module ForkRenaming {
  import opened SessionTypes
  import opened HistoryChecker

  datatype Name =
    | MessageName(id: MessageID)
    | CallName(id: ToolCallID)
    | RunName(id: RunID)
    | StepName(id: StepID)
    | AttemptName(id: AttemptID)

  type Renaming = map<Name, nat>

  /** New IDs are never empty and never shared. */
  ghost predicate Injective(m: Renaming) {
    && (forall a :: a in m ==> a.id != 0 && m[a] != 0)
    && (forall a, b :: a in m && b in m && m[a] == m[b] ==> a == b)
  }

  /** An empty ID stays empty. */
  function New(m: Renaming, name: Name): (r: nat) {
    if name in m then m[name] else 0
  }

  predicate Knows(m: Renaming, name: Name) {
    name.id == 0 || name in m
  }

  // ---------------------------------------------------------------- renaming values

  function RenameMessage(m: Renaming, sid: SessionID, x: Message): (r: Message) {
    x.(id := New(m, MessageName(x.id)), session := sid, run := New(m, RunName(x.run)), step := New(m, StepName(x.step)))
  }

  function RenameCall(m: Renaming, sid: SessionID, x: ToolCall): (r: ToolCall) {
    x.(id := New(m, CallName(x.id)), message := New(m, MessageName(x.message)), session := sid,
       run := New(m, RunName(x.run)), step := New(m, StepName(x.step)))
  }

  function RenameResult(m: Renaming, x: ToolResult): (r: ToolResult) {
    x.(call := New(m, CallName(x.call)))
  }

  function RenameInput(m: Renaming, sid: SessionID, x: Input): (r: Input) {
    match x
    case PromptInput(_) => x
    case MessageInput(y) => MessageInput(RenameMessage(m, sid, y))
    case CallInput(y) => CallInput(RenameCall(m, sid, y))
    case ResultInput(y) => ResultInput(RenameResult(m, y))
  }

  /** rewriteForkInputs. */
  function RenameInputs(m: Renaming, sid: SessionID, xs: seq<Input>): (r: seq<Input>)
    ensures |r| == |xs| && forall i :: 0 <= i < |xs| ==> r[i] == RenameInput(m, sid, xs[i])
  {
    seq(|xs|, i requires 0 <= i < |xs| => RenameInput(m, sid, xs[i]))
  }

  function RenameRun(m: Renaming, sid: SessionID, x: RunFact): (r: RunFact) {
    x.(session := sid, run := New(m, RunName(x.run)))
  }

  function RenameAttempt(m: Renaming, x: Attempt): (r: Attempt) {
    x.(id := New(m, AttemptName(x.id)), run := New(m, RunName(x.run)), step := New(m, StepName(x.step)))
  }

  function RenameContribution(m: Renaming, sid: SessionID, x: Contribution): (r: Contribution) {
    x.(run := New(m, RunName(x.run)), step := New(m, StepName(x.step)), inputs := RenameInputs(m, sid, x.inputs))
  }

  function RenameLimit(m: Renaming, x: Limit): (r: Limit) {
    x.(run := New(m, RunName(x.run)), step := New(m, StepName(x.step)),
       triggerAttempt := New(m, AttemptName(x.triggerAttempt)), triggerCall := New(m, CallName(x.triggerCall)))
  }

  function RenamePayload(m: Renaming, sid: SessionID, p: Payload): (r: Payload) {
    match p
    case MessagePayload(x) => MessagePayload(RenameMessage(m, sid, x))
    case CallPayload(x) => CallPayload(RenameCall(m, sid, x))
    case ResultPayload(x) => ResultPayload(RenameResult(m, x))
    case RunPayload(x) => RunPayload(RenameRun(m, sid, x))
    case AttemptPayload(x) => AttemptPayload(RenameAttempt(m, x))
    case ConfigPayload(_, _) => p
    case ContributionPayload(x) => ContributionPayload(RenameContribution(m, sid, x))
    case BudgetPayload(x) => BudgetPayload(x.(run := New(m, RunName(x.run))))
    case LimitPayload(x) => LimitPayload(RenameLimit(m, x))
  }

  function InputNames(x: Input): (r: seq<Name>) {
    match x
    case PromptInput(_) => []
    case MessageInput(y) => [MessageName(y.id), RunName(y.run), StepName(y.step)]
    case CallInput(y) => [CallName(y.id), MessageName(y.message), RunName(y.run), StepName(y.step)]
    case ResultInput(y) => [CallName(y.call)]
  }

  function InputsNames(xs: seq<Input>): (r: seq<Name>) {
    if xs == [] then [] else InputsNames(xs[..|xs| - 1]) + InputNames(xs[|xs| - 1])
  }

  /** The IDs of a payload in the order in which they are renamed. */
  function NamesOf(p: Payload): (r: seq<Name>) {
    match p
    case MessagePayload(x) => InputNames(MessageInput(x))
    case CallPayload(x) => InputNames(CallInput(x))
    case ResultPayload(x) => InputNames(ResultInput(x))
    case RunPayload(x) => [RunName(x.run)]
    case AttemptPayload(x) => [AttemptName(x.id), RunName(x.run), StepName(x.step)]
    case ConfigPayload(_, _) => []
    case ContributionPayload(x) => [RunName(x.run), StepName(x.step)] + InputsNames(x.inputs)
    case BudgetPayload(x) => [RunName(x.run)]
    case LimitPayload(x) => [RunName(x.run), StepName(x.step), AttemptName(x.triggerAttempt), CallName(x.triggerCall)]
  }

  ghost predicate KnowsAll(m: Renaming, names: seq<Name>) {
    forall i :: 0 <= i < |names| ==> Knows(m, names[i])
  }

  lemma {:induction false} KnowsInputs(m: Renaming, xs: seq<Input>)
    requires KnowsAll(m, InputsNames(xs))
    ensures forall i :: 0 <= i < |xs| ==> KnowsAll(m, InputNames(xs[i]))
  {
    hide InputNames;
    hide Knows;
    if xs != [] {
      var front, last := xs[..|xs| - 1], xs[|xs| - 1];
      var a, b := InputsNames(front), InputNames(last);
      assert InputsNames(xs) == a + b;
      assert forall i :: 0 <= i < |a| ==> (a + b)[i] == a[i];
      assert forall i :: 0 <= i < |b| ==> (a + b)[|a| + i] == b[i];
      KnowsInputs(m, front);
      forall i | 0 <= i < |xs| ensures KnowsAll(m, InputNames(xs[i])) {
        if i < |front| { assert front[i] == xs[i]; }
      }
    }
  }

  /** The names of a contribution's own fields and of its inputs. */
  lemma {:induction false} KnowsContribution(m: Renaming, c: Contribution)
    requires KnowsAll(m, NamesOf(ContributionPayload(c)))
    ensures Knows(m, RunName(c.run)) && Knows(m, StepName(c.step))
    ensures forall i :: 0 <= i < |c.inputs| ==> KnowsAll(m, InputNames(c.inputs[i]))
  {
    var names, rest := NamesOf(ContributionPayload(c)), InputsNames(c.inputs);
    assert names[0] == RunName(c.run) && names[1] == StepName(c.step);
    assert forall i :: 0 <= i < |rest| ==> names[i + 2] == rest[i];
    KnowsInputs(m, c.inputs);
  }

  // ---------------------------------------------------------------- renaming is invertible

  /** Undoes a renaming, kind by kind. */
  ghost function Inverse(m: Renaming): (r: Renaming)
    requires Injective(m)
    ensures forall a :: a in m ==> WithId(a, m[a]) in r && r[WithId(a, m[a])] == a.id
    ensures forall b :: b in r ==> b.id != 0
  {
    map a | a in m :: WithId(a, m[a]) := a.id
  }

  function WithId(a: Name, id: nat): (r: Name) {
    match a
    case MessageName(_) => MessageName(id)
    case CallName(_) => CallName(id)
    case RunName(_) => RunName(id)
    case StepName(_) => StepName(id)
    case AttemptName(_) => AttemptName(id)
  }

  lemma {:induction false} NameRoundTrip(m: Renaming, a: Name)
    requires Injective(m) && Knows(m, a)
    ensures New(Inverse(m), WithId(a, New(m, a))) == a.id
  {
    if a in m {
      assert WithId(a, m[a]) in Inverse(m);
    } else {
      assert New(m, a) == 0;
    }
  }

  lemma {:induction false} InputRoundTrip(m: Renaming, sid: SessionID, old_: SessionID, x: Input)
    requires Injective(m) && KnowsAll(m, InputNames(x)) && x.BelongsTo(old_)
    ensures RenameInput(Inverse(m), old_, RenameInput(m, sid, x)) == x
  {
    hide Injective;
    hide Inverse;
    match x {
      case PromptInput(_) =>
      case MessageInput(y) =>
        assert Knows(m, InputNames(x)[0]) && Knows(m, InputNames(x)[1]) && Knows(m, InputNames(x)[2]);
        NameRoundTrip(m, MessageName(y.id));
        NameRoundTrip(m, RunName(y.run));
        NameRoundTrip(m, StepName(y.step));
      case CallInput(y) =>
        assert Knows(m, InputNames(x)[0]) && Knows(m, InputNames(x)[1]) && Knows(m, InputNames(x)[2])
          && Knows(m, InputNames(x)[3]);
        NameRoundTrip(m, CallName(y.id));
        NameRoundTrip(m, MessageName(y.message));
        NameRoundTrip(m, RunName(y.run));
        NameRoundTrip(m, StepName(y.step));
      case ResultInput(y) =>
        assert Knows(m, InputNames(x)[0]);
        NameRoundTrip(m, CallName(y.call));
    }
  }

  /** Nothing but identities changes: the child's payload determines the parent's. */
  lemma {:induction false} PayloadRoundTrip(m: Renaming, sid: SessionID, parent: SessionID, p: Payload)
    requires Injective(m) && KnowsAll(m, NamesOf(p)) && p.Valid(parent)
    ensures RenamePayload(Inverse(m), parent, RenamePayload(m, sid, p)) == p
  {
    match p {
      case MessagePayload(x) => InputRoundTrip(m, sid, parent, MessageInput(x));
      case CallPayload(x) => InputRoundTrip(m, sid, parent, CallInput(x));
      case ResultPayload(x) => InputRoundTrip(m, sid, parent, ResultInput(x));
      case RunPayload(x) =>
        assert Knows(m, NamesOf(p)[0]);
        NameRoundTrip(m, RunName(x.run));
      case AttemptPayload(x) =>
        assert Knows(m, NamesOf(p)[0]) && Knows(m, NamesOf(p)[1]) && Knows(m, NamesOf(p)[2]);
        NameRoundTrip(m, AttemptName(x.id));
        NameRoundTrip(m, RunName(x.run));
        NameRoundTrip(m, StepName(x.step));
      case ConfigPayload(_, _) =>
      case ContributionPayload(x) => ContributionRoundTrip(m, sid, parent, x);
      case BudgetPayload(x) =>
        assert Knows(m, NamesOf(p)[0]);
        NameRoundTrip(m, RunName(x.run));
      case LimitPayload(x) =>
        assert Knows(m, NamesOf(p)[0]) && Knows(m, NamesOf(p)[1]) && Knows(m, NamesOf(p)[2]) && Knows(m, NamesOf(p)[3]);
        NameRoundTrip(m, RunName(x.run));
        NameRoundTrip(m, StepName(x.step));
        NameRoundTrip(m, AttemptName(x.triggerAttempt));
        NameRoundTrip(m, CallName(x.triggerCall));
    }
  }

  lemma {:induction false} ContributionRoundTrip(m: Renaming, sid: SessionID, parent: SessionID, c: Contribution)
    requires Injective(m) && KnowsAll(m, NamesOf(ContributionPayload(c))) && c.Valid(parent)
    ensures RenameContribution(Inverse(m), parent, RenameContribution(m, sid, c)) == c
  {
    KnowsContribution(m, c);
    NameRoundTrip(m, RunName(c.run));
    NameRoundTrip(m, StepName(c.step));
    forall i | 0 <= i < |c.inputs|
      ensures RenameInput(Inverse(m), parent, RenameInput(m, sid, c.inputs[i])) == c.inputs[i]
    {
      InputRoundTrip(m, sid, parent, c.inputs[i]);
    }
    assert RenameInputs(Inverse(m), parent, RenameInputs(m, sid, c.inputs)) == c.inputs;
  }

  // ---------------------------------------------------------------- every identity is renamed

  /** An identity and what became of it: the empty one stays, any other has a new name. */
  predicate Goes(m: Renaming, name: Name, id: nat) {
    if name.id == 0 then id == 0 else name in m && m[name] == id && id != 0
  }

  predicate InRun(m: Renaming, run: RunID, step: StepID, run': RunID, step': StepID) {
    Goes(m, RunName(run), run') && Goes(m, StepName(step), step')
  }

  predicate InputFollows(m: Renaming, sid: SessionID, a: Input, b: Input) {
    match a
    case PromptInput(_) => b == a
    case MessageInput(x) =>
      && b.MessageInput? && Goes(m, MessageName(x.id), b.message.id) && b.message.session == sid
      && InRun(m, x.run, x.step, b.message.run, b.message.step) && b.message.parts == x.parts
      && b.message.role == x.role
    case CallInput(x) =>
      && b.CallInput? && Goes(m, CallName(x.id), b.call.id) && Goes(m, MessageName(x.message), b.call.message)
      && b.call.session == sid && InRun(m, x.run, x.step, b.call.run, b.call.step)
    case ResultInput(x) => b.ResultInput? && Goes(m, CallName(x.call), b.result.call) && b.result.status == x.status
  }

  /** The child's payload names what the parent's does, every identity under its new name. */
  predicate Follows(m: Renaming, sid: SessionID, a: Payload, b: Payload) {
    match a
    case MessagePayload(x) => b.MessagePayload? && InputFollows(m, sid, MessageInput(x), MessageInput(b.message))
    case CallPayload(x) => b.CallPayload? && InputFollows(m, sid, CallInput(x), CallInput(b.call))
    case ResultPayload(x) => b.ResultPayload? && InputFollows(m, sid, ResultInput(x), ResultInput(b.result))
    case RunPayload(x) =>
      b.RunPayload? && Goes(m, RunName(x.run), b.run.run) && b.run.session == sid && b.run.kind == x.kind
    case AttemptPayload(x) =>
      && b.AttemptPayload? && Goes(m, AttemptName(x.id), b.attempt.id) && b.attempt.kind == x.kind
      && InRun(m, x.run, x.step, b.attempt.run, b.attempt.step)
    case ConfigPayload(_, _) => b == a
    case ContributionPayload(x) =>
      && b.ContributionPayload? && InRun(m, x.run, x.step, b.contribution.run, b.contribution.step)
      && b.contribution.source == x.source && |b.contribution.inputs| == |x.inputs|
      && forall i :: 0 <= i < |x.inputs| ==> InputFollows(m, sid, x.inputs[i], b.contribution.inputs[i])
    case BudgetPayload(x) => b.BudgetPayload? && Goes(m, RunName(x.run), b.budget.run) && b.budget.used == x.used
    case LimitPayload(x) =>
      && b.LimitPayload? && InRun(m, x.run, x.step, b.limit.run, b.limit.step) && b.limit.used == x.used
      && Goes(m, AttemptName(x.triggerAttempt), b.limit.triggerAttempt)
      && Goes(m, CallName(x.triggerCall), b.limit.triggerCall)
  }

  lemma {:induction false} NameGoes(m: Renaming, name: Name)
    requires Injective(m) && Knows(m, name)
    ensures Goes(m, name, New(m, name))
  {
  }

  lemma {:induction false} AllGo(m: Renaming, names: seq<Name>)
    requires Injective(m) && KnowsAll(m, names)
    ensures forall i :: 0 <= i < |names| ==> Goes(m, names[i], New(m, names[i]))
  {
    hide Injective;
    forall i | 0 <= i < |names| ensures Goes(m, names[i], New(m, names[i])) {
      assert Knows(m, names[i]);
      NameGoes(m, names[i]);
    }
  }

  lemma {:induction false} InputGoes(m: Renaming, sid: SessionID, x: Input)
    requires Injective(m) && KnowsAll(m, InputNames(x))
    ensures InputFollows(m, sid, x, RenameInput(m, sid, x))
  {
    hide Injective;
    hide KnowsAll;
    hide Goes;
    hide New;
    var names := InputNames(x);
    AllGo(m, names);
    assert |names| > 0 ==> Goes(m, names[0], New(m, names[0]));
    assert |names| > 1 ==> Goes(m, names[1], New(m, names[1]));
    assert |names| > 2 ==> Goes(m, names[2], New(m, names[2]));
    assert |names| > 3 ==> Goes(m, names[3], New(m, names[3]));
  }

  /** Under a renaming that knows the names of a payload, every identity in it goes to its new name. */
  lemma {:induction false} PayloadFollows(m: Renaming, sid: SessionID, p: Payload)
    requires Injective(m) && KnowsAll(m, NamesOf(p))
    ensures Follows(m, sid, p, RenamePayload(m, sid, p))
  {
    hide Injective;
    hide Goes;
    hide New;
    var names := NamesOf(p);
    AllGo(m, names);
    assert |names| > 0 ==> Goes(m, names[0], New(m, names[0]));
    assert |names| > 1 ==> Goes(m, names[1], New(m, names[1]));
    assert |names| > 2 ==> Goes(m, names[2], New(m, names[2]));
    assert |names| > 3 ==> Goes(m, names[3], New(m, names[3]));
    if p.ContributionPayload? {
      var c := p.contribution;
      KnowsContribution(m, c);
      assert names[0] == RunName(c.run) && names[1] == StepName(c.step);
      forall i | 0 <= i < |c.inputs| ensures InputFollows(m, sid, c.inputs[i], RenameInput(m, sid, c.inputs[i])) {
        InputGoes(m, sid, c.inputs[i]);
      }
    }
    hide KnowsAll;
    hide RenameInput;
  }

  // ---------------------------------------------------------------- the checker cannot tell

  /** The same keys on both sides, up to renaming. */
  ghost predicate SameKeys(m: Renaming, kind: Name, a: set<nat>, b: set<nat>) {
    forall id: nat :: Knows(m, WithId(kind, id)) ==> (id in a <==> New(m, WithId(kind, id)) in b)
  }

  /** Renamed messages stand under their new names. */
  ghost predicate SameMessages(m: Renaming, sid: SessionID, a: map<MessageID, Message>, b: map<MessageID, Message>) {
    forall id :: id in a ==>
      && MessageName(id) in m && New(m, MessageName(id)) in b
      && b[New(m, MessageName(id))] == RenameMessage(m, sid, a[id])
      && Knows(m, RunName(a[id].run)) && Knows(m, StepName(a[id].step))
  }

  ghost predicate SameTalk(m: Renaming, sid: SessionID, t: Talk, t': Talk) {
    && SameKeys(m, MessageName(0), t.messages.Keys, t'.messages.Keys)
    && SameKeys(m, CallName(0), t.calls.Keys, t'.calls.Keys)
    && SameKeys(m, CallName(0), t.results.Keys, t'.results.Keys)
    && SameMessages(m, sid, t.messages, t'.messages)
    && (forall new_ :: new_ in t'.calls ==>
          exists id :: id in t.calls && CallName(id) in m && New(m, CallName(id)) == new_)
  }

  ghost predicate SameRuns(m: Renaming, sid: SessionID, r: Runs, r': Runs) {
    && SameKeys(m, RunName(0), r.starts.Keys, r'.starts.Keys)
    && SameKeys(m, RunName(0), r.terminals, r'.terminals)
    && (forall id :: id in r.starts ==>
          && New(m, RunName(id)) in r'.starts
          && r'.starts[New(m, RunName(id))] == RenameRun(m, sid, r.starts[id]))
  }

  ghost predicate SameStarts(m: Renaming, a: map<AttemptID, Attempt>, b: map<AttemptID, Attempt>) {
    forall id :: id in a ==>
      && AttemptName(id) in m && New(m, AttemptName(id)) in b
      && b[New(m, AttemptName(id))] == RenameAttempt(m, a[id])
      && Knows(m, RunName(a[id].run)) && Knows(m, StepName(a[id].step))
  }

  ghost predicate SameAttempts(m: Renaming, a: Attempts, a': Attempts) {
    && SameKeys(m, AttemptName(0), a.starts.Keys, a'.starts.Keys)
    && SameKeys(m, AttemptName(0), a.terminals, a'.terminals)
    && SameStarts(m, a.starts, a'.starts)
  }

  ghost predicate SameStops(m: Renaming, s: Stops, s': Stops) {
    SameKeys(m, RunName(0), s.budgets, s'.budgets) && SameKeys(m, RunName(0), s.limits, s'.limits)
  }

  ghost predicate SameCount(m: Renaming, a: map<RunID, int>, b: map<RunID, int>) {
    forall run: nat :: Knows(m, RunName(run)) ==> At(b, New(m, RunName(run))) == At(a, run)
  }

  ghost predicate SameCounts(m: Renaming, c: Counts, c': Counts) {
    SameCount(m, c.usage, c'.usage) && SameCount(m, c.attempts, c'.attempts) && SameCount(m, c.calls, c'.calls)
  }

  ghost predicate SameContributions(m: Renaming, a: set<(RunID, StepID, SourceKey)>,
                                    b: set<(RunID, StepID, SourceKey)>) {
    forall run: nat, step: nat, key :: Knows(m, RunName(run)) && Knows(m, StepName(step)) ==>
      ((run, step, key) in a <==> (New(m, RunName(run)), New(m, StepName(step)), key) in b)
  }

  /** The checker's state on the child mirrors its state on the parent. */
  ghost predicate SameScan(m: Renaming, sid: SessionID, s: Scan, s': Scan) {
    && SameTalk(m, sid, s.talk, s'.talk)
    && SameRuns(m, sid, s.runs, s'.runs)
    && SameAttempts(m, s.attempts, s'.attempts)
    && SameStops(m, s.stops, s'.stops)
    && SameCounts(m, s.counts, s'.counts)
    && SameContributions(m, s.contributions, s'.contributions)
  }

  /** Two known IDs of one kind are renamed alike only when they are equal. */
  lemma {:induction false} NewIsInjective(m: Renaming, a: Name, b: Name)
    requires Injective(m) && Knows(m, a) && Knows(m, b) && WithId(a, 0) == WithId(b, 0)
    ensures New(m, a) == New(m, b) <==> a == b
    ensures New(m, a) == 0 <==> a.id == 0
  {
  }

  /** One more key on each side. */
  lemma {:induction false} SameKeysAdd(m: Renaming, kind: Name, a: set<nat>, b: set<nat>, id: nat)
    requires Injective(m) && SameKeys(m, kind, a, b) && Knows(m, WithId(kind, id))
    ensures SameKeys(m, kind, a + {id}, b + {New(m, WithId(kind, id))})
  {
    forall other: nat | Knows(m, WithId(kind, other))
      ensures New(m, WithId(kind, other)) == New(m, WithId(kind, id)) <==> other == id
    {
      NewIsInjective(m, WithId(kind, other), WithId(kind, id));
    }
  }

  /** The IDs a payload names outside its contributed inputs. */
  ghost predicate FieldsKnown(m: Renaming, p: Payload) {
    match p
    case MessagePayload(x) => Knows(m, MessageName(x.id)) && Knows(m, RunName(x.run)) && Knows(m, StepName(x.step))
    case CallPayload(x) =>
      Knows(m, CallName(x.id)) && Knows(m, MessageName(x.message)) && Knows(m, RunName(x.run))
        && Knows(m, StepName(x.step))
    case ResultPayload(x) => Knows(m, CallName(x.call))
    case RunPayload(x) => Knows(m, RunName(x.run))
    case AttemptPayload(x) => Knows(m, AttemptName(x.id)) && Knows(m, RunName(x.run)) && Knows(m, StepName(x.step))
    case ConfigPayload(_, _) => true
    case ContributionPayload(x) => Knows(m, RunName(x.run)) && Knows(m, StepName(x.step))
    case BudgetPayload(x) => Knows(m, RunName(x.run))
    case LimitPayload(x) =>
      && Knows(m, RunName(x.run)) && Knows(m, StepName(x.step))
      && Knows(m, AttemptName(x.triggerAttempt)) && Knows(m, CallName(x.triggerCall))
  }

  lemma {:induction false} NamesCoverFields(m: Renaming, p: Payload)
    requires KnowsAll(m, NamesOf(p))
    ensures FieldsKnown(m, p)
  {
    hide Knows;
    if p.ContributionPayload? {
      KnowsContribution(m, p.contribution);
    } else {
      var names := NamesOf(p);
      assert |names| > 0 ==> Knows(m, names[0]);
      assert |names| > 1 ==> Knows(m, names[1]);
      assert |names| > 2 ==> Knows(m, names[2]);
      assert |names| > 3 ==> Knows(m, names[3]);
    }
  }

  lemma {:induction false} MessageStep(m: Renaming, sid: SessionID, t: Talk, t': Talk, x: Message)
    requires Injective(m) && SameTalk(m, sid, t, t') && x.id != 0
    requires Knows(m, MessageName(x.id)) && Knows(m, RunName(x.run)) && Knows(m, StepName(x.step))
    ensures SameTalk(m, sid, TalkAfter(t, MessagePayload(x)), TalkAfter(t', MessagePayload(RenameMessage(m, sid, x))))
  {
    var u, u' := TalkAfter(t, MessagePayload(x)), TalkAfter(t', MessagePayload(RenameMessage(m, sid, x)));
    hide SameKeys;
    hide SameMessages;
    hide Injective;
    SameKeysAdd(m, MessageName(0), t.messages.Keys, t'.messages.Keys, x.id);
    assert u.messages.Keys == t.messages.Keys + {x.id};
    assert u'.messages.Keys == t'.messages.Keys + {New(m, MessageName(x.id))};
    SameMessagesAdd(m, sid, t.messages, t'.messages, x);
  }

  lemma {:induction false} SameMessagesAdd(m: Renaming, sid: SessionID, a: map<MessageID, Message>,
                                           b: map<MessageID, Message>, x: Message)
    requires Injective(m) && SameMessages(m, sid, a, b) && x.id != 0
    requires Knows(m, MessageName(x.id)) && Knows(m, RunName(x.run)) && Knows(m, StepName(x.step))
    ensures SameMessages(m, sid, a[x.id := x], b[New(m, MessageName(x.id)) := RenameMessage(m, sid, x)])
  {
    forall id | id in a && id != x.id ensures New(m, MessageName(id)) != New(m, MessageName(x.id)) {
      NewIsInjective(m, MessageName(id), MessageName(x.id));
    }
    hide RenameMessage;
    hide Injective;
  }

  lemma {:induction false} CallStep(m: Renaming, sid: SessionID, t: Talk, t': Talk, x: ToolCall)
    requires Injective(m) && SameTalk(m, sid, t, t') && x.id != 0 && Knows(m, CallName(x.id))
    ensures SameTalk(m, sid, TalkAfter(t, CallPayload(x)), TalkAfter(t', CallPayload(RenameCall(m, sid, x))))
  {
    var u, u' := TalkAfter(t, CallPayload(x)), TalkAfter(t', CallPayload(RenameCall(m, sid, x)));
    SameKeysAdd(m, CallName(0), t.calls.Keys, t'.calls.Keys, x.id);
    assert u.calls.Keys == t.calls.Keys + {x.id};
    assert u'.calls.Keys == t'.calls.Keys + {New(m, CallName(x.id))};
    hide SameKeys;
    forall new_ | new_ in u'.calls
      ensures exists id :: id in u.calls && CallName(id) in m && New(m, CallName(id)) == new_
    {
      if new_ == New(m, CallName(x.id)) {
        assert x.id in u.calls && CallName(x.id) in m;
      } else {
        assert new_ in t'.calls;
        var id :| id in t.calls && CallName(id) in m && New(m, CallName(id)) == new_;
        assert id in u.calls;
      }
    }
  }

  lemma {:induction false} ResultStep(m: Renaming, sid: SessionID, t: Talk, t': Talk, x: ToolResult)
    requires Injective(m) && SameTalk(m, sid, t, t') && Knows(m, CallName(x.call))
    ensures SameTalk(m, sid, TalkAfter(t, ResultPayload(x)), TalkAfter(t', ResultPayload(RenameResult(m, x))))
  {
    SameKeysAdd(m, CallName(0), t.results.Keys, t'.results.Keys, x.call);
    assert TalkAfter(t, ResultPayload(x)).results.Keys == t.results.Keys + {x.call};
    assert TalkAfter(t', ResultPayload(RenameResult(m, x))).results.Keys ==
           t'.results.Keys + {New(m, CallName(x.call))};
  }

  lemma {:induction false} TalkStep(m: Renaming, sid: SessionID, parent: SessionID, t: Talk, t': Talk, p: Payload)
    requires Injective(m) && FieldsKnown(m, p) && p.Valid(parent) && SameTalk(m, sid, t, t')
    ensures SameTalk(m, sid, TalkAfter(t, p), TalkAfter(t', RenamePayload(m, sid, p)))
  {
    hide SameTalk;
    hide Injective;
    match p {
      case MessagePayload(x) => MessageStep(m, sid, t, t', x);
      case CallPayload(x) => CallStep(m, sid, t, t', x);
      case ResultPayload(x) => ResultStep(m, sid, t, t', x);
      case _ =>
    }
  }

  lemma {:induction false} RunStep(m: Renaming, sid: SessionID, r: Runs, r': Runs, x: RunFact)
    requires Injective(m) && Knows(m, RunName(x.run)) && x.run != 0 && SameRuns(m, sid, r, r')
    requires forall id :: id in r.starts ==> RunName(id) in m
    ensures SameRuns(m, sid, RunsAfter(r, RunPayload(x)), RunsAfter(r', RunPayload(RenameRun(m, sid, x))))
  {
    var q, q' := RunsAfter(r, RunPayload(x)), RunsAfter(r', RunPayload(RenameRun(m, sid, x)));
    if x.kind == RunStarted {
      SameKeysAdd(m, RunName(0), r.starts.Keys, r'.starts.Keys, x.run);
      assert q.starts.Keys == r.starts.Keys + {x.run};
      assert q'.starts.Keys == r'.starts.Keys + {New(m, RunName(x.run))};
      forall id | id in r.starts && id != x.run ensures New(m, RunName(id)) != New(m, RunName(x.run)) {
        NewIsInjective(m, RunName(id), RunName(x.run));
      }
    } else {
      SameKeysAdd(m, RunName(0), r.terminals, r'.terminals, x.run);
    }
  }

  lemma {:induction false} AttemptStep(m: Renaming, a: Attempts, a': Attempts, x: Attempt)
    requires Injective(m) && x.id != 0 && SameAttempts(m, a, a')
    requires Knows(m, AttemptName(x.id)) && Knows(m, RunName(x.run)) && Knows(m, StepName(x.step))
    ensures SameAttempts(m, AttemptsAfter(a, AttemptPayload(x)), AttemptsAfter(a', AttemptPayload(RenameAttempt(m, x))))
  {
    hide SameKeys;
    hide SameStarts;
    hide Injective;
    var q, q' := AttemptsAfter(a, AttemptPayload(x)), AttemptsAfter(a', AttemptPayload(RenameAttempt(m, x)));
    if x.kind == AttemptStarted {
      SameKeysAdd(m, AttemptName(0), a.starts.Keys, a'.starts.Keys, x.id);
      assert q.starts.Keys == a.starts.Keys + {x.id};
      assert q'.starts.Keys == a'.starts.Keys + {New(m, AttemptName(x.id))};
      SameStartsAdd(m, a.starts, a'.starts, x);
    } else {
      SameKeysAdd(m, AttemptName(0), a.terminals, a'.terminals, x.id);
    }
  }

  lemma {:induction false} SameStartsAdd(m: Renaming, a: map<AttemptID, Attempt>, b: map<AttemptID, Attempt>,
                                         x: Attempt)
    requires Injective(m) && SameStarts(m, a, b) && x.id != 0
    requires Knows(m, AttemptName(x.id)) && Knows(m, RunName(x.run)) && Knows(m, StepName(x.step))
    ensures SameStarts(m, a[x.id := x], b[New(m, AttemptName(x.id)) := RenameAttempt(m, x)])
  {
    forall id | id in a && id != x.id ensures New(m, AttemptName(id)) != New(m, AttemptName(x.id)) {
      NewIsInjective(m, AttemptName(id), AttemptName(x.id));
    }
    hide RenameAttempt;
    hide Injective;
  }

  lemma {:induction false} StopStep(m: Renaming, sid: SessionID, s: Stops, s': Stops, p: Payload)
    requires Injective(m) && FieldsKnown(m, p) && SameStops(m, s, s')
    ensures SameStops(m, StopsAfter(s, p), StopsAfter(s', RenamePayload(m, sid, p)))
  {
    match p {
      case BudgetPayload(b) => SameKeysAdd(m, RunName(0), s.budgets, s'.budgets, b.run);
      case LimitPayload(l) => SameKeysAdd(m, RunName(0), s.limits, s'.limits, l.run);
      case _ =>
    }
  }

  lemma {:induction false} CountAdd(m: Renaming, a: map<RunID, int>, b: map<RunID, int>, run: RunID, n: int)
    requires Injective(m) && SameCount(m, a, b) && Knows(m, RunName(run))
    ensures SameCount(m, a[run := At(a, run) + n], b[New(m, RunName(run)) := At(b, New(m, RunName(run))) + n])
  {
    forall other: nat | Knows(m, RunName(other))
      ensures New(m, RunName(other)) == New(m, RunName(run)) <==> other == run
    {
      NewIsInjective(m, RunName(other), RunName(run));
    }
  }

  lemma {:induction false} CountStep(m: Renaming, sid: SessionID, c: Counts, c': Counts, p: Payload)
    requires Injective(m) && FieldsKnown(m, p) && SameCounts(m, c, c')
    ensures SameCounts(m, CountsAfter(c, p), CountsAfter(c', RenamePayload(m, sid, p)))
  {
    hide Injective;
    hide SameCount;
    hide Knows;
    match p {
      case CallPayload(x) => CountAdd(m, c.calls, c'.calls, x.run, 1);
      case AttemptPayload(x) =>
        CountAdd(m, c.attempts, c'.attempts, x.run, 1);
        CountAdd(m, c.usage, c'.usage, x.run, x.tokens);
      case _ =>
    }
  }

  lemma {:induction false} ContributionStep(m: Renaming, a: set<(RunID, StepID, SourceKey)>,
                                            b: set<(RunID, StepID, SourceKey)>, c: Contribution)
    requires Injective(m) && Knows(m, RunName(c.run)) && Knows(m, StepName(c.step)) && SameContributions(m, a, b)
    ensures SameContributions(m, a + {(c.run, c.step, c.source)},
                              b + {(New(m, RunName(c.run)), New(m, StepName(c.step)), c.source)})
  {
    forall run: nat | Knows(m, RunName(run)) ensures New(m, RunName(run)) == New(m, RunName(c.run)) <==> run == c.run {
      NewIsInjective(m, RunName(run), RunName(c.run));
    }
    forall step: nat | Knows(m, StepName(step))
      ensures New(m, StepName(step)) == New(m, StepName(c.step)) <==> step == c.step
    {
      NewIsInjective(m, StepName(step), StepName(c.step));
    }
    hide Injective;
    hide Knows;
    hide New;
  }

  /** Every started Run of a covered History has a new name. */
  ghost predicate StartsNamed(m: Renaming, s: Scan) {
    forall id :: id in s.runs.starts ==> RunName(id) in m
  }

  lemma {:induction false} RunsStep(m: Renaming, sid: SessionID, parent: SessionID, s: Scan, s': Scan, p: Payload)
    requires Injective(m) && FieldsKnown(m, p) && p.Valid(parent) && StartsNamed(m, s)
    requires SameRuns(m, sid, s.runs, s'.runs) && SameAttempts(m, s.attempts, s'.attempts)
    ensures SameRuns(m, sid, RunsAfter(s.runs, p), RunsAfter(s'.runs, RenamePayload(m, sid, p)))
    ensures SameAttempts(m, AttemptsAfter(s.attempts, p), AttemptsAfter(s'.attempts, RenamePayload(m, sid, p)))
    ensures StartsNamed(m, Absorb(s, p))
  {
    hide Injective;
    hide SameRuns;
    hide SameAttempts;
    if p.RunPayload? {
      RunStep(m, sid, s.runs, s'.runs, p.run);
    } else if p.AttemptPayload? {
      AttemptStep(m, s.attempts, s'.attempts, p.attempt);
    }
  }

  lemma {:induction false} ScanStep(m: Renaming, sid: SessionID, parent: SessionID, s: Scan, s': Scan, p: Payload)
    requires Injective(m) && FieldsKnown(m, p) && p.Valid(parent) && SameScan(m, sid, s, s') && StartsNamed(m, s)
    ensures SameScan(m, sid, Absorb(s, p), Absorb(s', RenamePayload(m, sid, p))) && StartsNamed(m, Absorb(s, p))
  {
    hide SameTalk;
    hide SameRuns;
    hide SameAttempts;
    hide SameStops;
    hide SameCounts;
    hide SameContributions;
    hide Injective;
    hide TalkAfter;
    hide StopsAfter;
    hide CountsAfter;
    hide RunsAfter;
    hide AttemptsAfter;
    hide StartsNamed;
    TalkStep(m, sid, parent, s.talk, s'.talk, p);
    RunsStep(m, sid, parent, s, s', p);
    StopStep(m, sid, s.stops, s'.stops, p);
    CountStep(m, sid, s.counts, s'.counts, p);
    if p.ContributionPayload? {
      ContributionStep(m, s.contributions, s'.contributions, p.contribution);
    }
  }

  // ---------------------------------------------------------------- the checker accepts the child

  lemma {:induction false} InputStaysValid(m: Renaming, sid: SessionID, x: Input)
    requires Injective(m) && KnowsAll(m, InputNames(x)) && x.Valid() && sid != 0
    ensures RenameInput(m, sid, x).Valid() && RenameInput(m, sid, x).BelongsTo(sid)
    ensures RenameInput(m, sid, x).PromptInput? <==> x.PromptInput?
  {
    var names := InputNames(x);
    assert |names| > 0 ==> Knows(m, names[0]);
    assert |names| > 1 ==> Knows(m, names[1]);
    assert |names| > 2 ==> Knows(m, names[2]);
    assert |names| > 3 ==> Knows(m, names[3]);
  }

  lemma {:induction false} PayloadStaysValid(m: Renaming, sid: SessionID, parent: SessionID, p: Payload)
    requires Injective(m) && KnowsAll(m, NamesOf(p)) && p.Valid(parent) && sid != 0
    ensures RenamePayload(m, sid, p).Valid(sid)
  {
    match p {
      case MessagePayload(x) => InputStaysValid(m, sid, MessageInput(x));
      case CallPayload(x) => InputStaysValid(m, sid, CallInput(x));
      case ResultPayload(x) => InputStaysValid(m, sid, ResultInput(x));
      case ContributionPayload(x) =>
        KnowsContribution(m, x);
        forall i | 0 <= i < |x.inputs|
          ensures RenameInput(m, sid, x.inputs[i]).Valid() && RenameInput(m, sid, x.inputs[i]).BelongsTo(sid)
          ensures !RenameInput(m, sid, x.inputs[i]).PromptInput?
        {
          InputStaysValid(m, sid, x.inputs[i]);
        }
      case _ => NamesCoverFields(m, p);
    }
  }

  lemma {:induction false} TalkAcceptsRenamed(m: Renaming, sid: SessionID, s: Scan, s': Scan, p: Payload)
    requires Injective(m) && FieldsKnown(m, p) && SameTalk(m, sid, s.talk, s'.talk)
    requires p.MessagePayload? || p.CallPayload? || p.ResultPayload?
    ensures Accepts(s, p) <==> Accepts(s', RenamePayload(m, sid, p))
  {
    if p.CallPayload? && p.call.message in s.talk.messages {
      var owner, c := s.talk.messages[p.call.message], p.call;
      NewIsInjective(m, RunName(owner.run), RunName(c.run));
      NewIsInjective(m, StepName(owner.step), StepName(c.step));
    }
    assert p.MessagePayload? ==> WithId(MessageName(0), p.message.id) == MessageName(p.message.id);
    assert p.CallPayload? ==> WithId(CallName(0), p.call.id) == CallName(p.call.id)
                              && WithId(MessageName(0), p.call.message) == MessageName(p.call.message);
    assert p.ResultPayload? ==> WithId(CallName(0), p.result.call) == CallName(p.result.call);
  }

  lemma {:induction false} LiveRenamed(m: Renaming, sid: SessionID, s: Scan, s': Scan, run: RunID)
    requires SameRuns(m, sid, s.runs, s'.runs) && Knows(m, RunName(run))
    ensures Live(s, run) <==> Live(s', New(m, RunName(run)))
    ensures run in s.runs.starts <==> New(m, RunName(run)) in s'.runs.starts
    ensures run in s.runs.starts ==> s'.runs.starts[New(m, RunName(run))] == RenameRun(m, sid, s.runs.starts[run])
  {
    assert WithId(RunName(0), run) == RunName(run);
  }

  lemma {:induction false} AttemptAcceptsRenamed(m: Renaming, sid: SessionID, s: Scan, s': Scan, a: Attempt)
    requires Injective(m) && FieldsKnown(m, AttemptPayload(a)) && SameRuns(m, sid, s.runs, s'.runs)
    requires SameAttempts(m, s.attempts, s'.attempts)
    ensures Accepts(s, AttemptPayload(a)) <==> Accepts(s', AttemptPayload(RenameAttempt(m, a)))
  {
    LiveRenamed(m, sid, s, s', a.run);
    assert WithId(AttemptName(0), a.id) == AttemptName(a.id);
    if a.id in s.attempts.starts {
      var b := s.attempts.starts[a.id];
      NewIsInjective(m, RunName(a.run), RunName(b.run));
      NewIsInjective(m, StepName(a.step), StepName(b.step));
    }
  }

  lemma {:induction false} StopAcceptsRenamed(m: Renaming, sid: SessionID, s: Scan, s': Scan, p: Payload)
    requires Injective(m) && FieldsKnown(m, p) && SameScan(m, sid, s, s') && (p.BudgetPayload? || p.LimitPayload?)
    ensures Accepts(s, p) <==> Accepts(s', RenamePayload(m, sid, p))
  {
    var run := if p.BudgetPayload? then p.budget.run else p.limit.run;
    LiveRenamed(m, sid, s, s', run);
    assert WithId(RunName(0), run) == RunName(run);
    if p.LimitPayload? {
      assert WithId(AttemptName(0), p.limit.triggerAttempt) == AttemptName(p.limit.triggerAttempt);
      assert WithId(CallName(0), p.limit.triggerCall) == CallName(p.limit.triggerCall);
    }
  }

  /** The checker accepts a renamed fact exactly when it accepts the original. */
  lemma {:induction false} AcceptsRenamed(m: Renaming, sid: SessionID, s: Scan, s': Scan, p: Payload)
    requires Injective(m) && FieldsKnown(m, p) && SameScan(m, sid, s, s')
    ensures Accepts(s, p) <==> Accepts(s', RenamePayload(m, sid, p))
  {
    hide SameTalk;
    hide SameRuns;
    hide SameAttempts;
    hide SameStops;
    hide SameCounts;
    hide Injective;
    match p {
      case MessagePayload(_) => TalkAcceptsRenamed(m, sid, s, s', p);
      case CallPayload(_) => TalkAcceptsRenamed(m, sid, s, s', p);
      case ResultPayload(_) => TalkAcceptsRenamed(m, sid, s, s', p);
      case RunPayload(f) => LiveRenamed(m, sid, s, s', f.run);
      case AttemptPayload(a) => AttemptAcceptsRenamed(m, sid, s, s', a);
      case ConfigPayload(_, _) =>
      case ContributionPayload(c) => LiveRenamed(m, sid, s, s', c.run);
      case BudgetPayload(_) => StopAcceptsRenamed(m, sid, s, s', p);
      case LimitPayload(_) => StopAcceptsRenamed(m, sid, s, s', p);
    }
  }

  function RenameFact(m: Renaming, sid: SessionID, f: HistoryFact): (r: HistoryFact) {
    f.(origin := f.id, payload := RenamePayload(m, sid, f.payload))
  }

  function RenameHistory(m: Renaming, sid: SessionID, h: seq<HistoryFact>): (r: seq<HistoryFact>)
    ensures |r| == |h| && forall i :: 0 <= i < |h| ==> r[i] == RenameFact(m, sid, h[i])
  {
    seq(|h|, i requires 0 <= i < |h| => RenameFact(m, sid, h[i]))
  }

  ghost predicate Covers(m: Renaming, h: seq<HistoryFact>) {
    forall i :: 0 <= i < |h| ==> KnowsAll(m, NamesOf(h[i].payload))
  }

  /** A renamed History is accepted like the original, and the checker ends in the mirrored state. */
  lemma {:induction false} HistoryRenamed(m: Renaming, sid: SessionID, parent: SessionID, h: seq<HistoryFact>)
    requires Injective(m) && Covers(m, h) && Accepted(parent, h) && sid != 0
    ensures Accepted(sid, RenameHistory(m, sid, h))
    ensures SameScan(m, sid, ScanOf(h), ScanOf(RenameHistory(m, sid, h))) && StartsNamed(m, ScanOf(h))
  {
    hide Injective;
    hide SameScan;
    hide StartsNamed;
    hide Accepts;
    hide Absorb;
    hide FieldsKnown;
    hide KnowsAll;
    hide NamesOf;
    hide RenamePayload;
    if h == [] {
      EmptyScansAgree(m, sid);
    } else {
      var front, last := h[..|h| - 1], h[|h| - 1];
      HistoryRenamed(m, sid, parent, front);
      assert KnowsAll(m, NamesOf(last.payload));
      NamesCoverFields(m, last.payload);
      assert RenameHistory(m, sid, h) == RenameHistory(m, sid, front) + [RenameFact(m, sid, last)];
      ScanSnoc(sid, RenameHistory(m, sid, front), RenameFact(m, sid, last));
      PayloadStaysValid(m, sid, parent, last.payload);
      AcceptsRenamed(m, sid, ScanOf(front), ScanOf(RenameHistory(m, sid, front)), last.payload);
      ScanStep(m, sid, parent, ScanOf(front), ScanOf(RenameHistory(m, sid, front)), last.payload);
    }
  }

  lemma {:induction false} EmptyScansAgree(m: Renaming, sid: SessionID)
    ensures SameScan(m, sid, EmptyScan, EmptyScan) && StartsNamed(m, EmptyScan)
  {
  }
}
