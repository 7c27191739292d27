/** The reference context compactor (context/tail_compactor.go), against the model protocol
    (model/contracts.go) and the continuation rule (standardagent/runtime_context.go). */
module TailCompactor {
  import opened SessionTypes
  import opened ModelProtocol
  import opened HistoryChecker

  // ---------------------------------------------------------------- groups

  /** A group starts at a message, or at the prompt. */
  predicate Starts(inputs: seq<Input>, i: int) {
    0 <= i < |inputs| && (inputs[i].MessageInput? || inputs[i].PromptInput?)
  }

  predicate Aligned(inputs: seq<Input>, i: int) {
    i == |inputs| || Starts(inputs, i)
  }

  /** The last thing a reader has read tells its phase. */
  lemma {:induction false} PhaseTells(body: seq<Input>)
    requires ReadAll(body).Some?
    ensures var phase := ReadAll(body).value.phase;
            && (phase.Outside? && phase.parent.Some? ==>
                  |body| > 0 && body[|body| - 1] == MessageInput(phase.parent.value)
                    && phase.parent.value.role == RoleAssistant)
            && (!phase.Outside? ==> |body| > 0 && (body[|body| - 1].CallInput? || body[|body| - 1].ResultInput?))
  {
  }

  /** In an accepted body every call and result stands behind an assistant message or another one of them. */
  lemma {:induction false} FollowsInGroup(body: seq<Input>, i: nat)
    requires ReadAll(body).Some? && i < |body|
    ensures body[i].Valid() && !body[i].PromptInput?
    ensures !body[i].MessageInput? ==>
              i > 0 && (body[i - 1].CallInput? || body[i - 1].ResultInput?
                || (body[i - 1].MessageInput? && body[i - 1].message.role == RoleAssistant))
    decreases |body|
  {
    var front := body[..|body| - 1];
    if i < |front| {
      FollowsInGroup(front, i);
    } else {
      PhaseTells(front);
    }
  }

  /** What protocolGroups computes on accepted inputs: consecutive ranges, each from one start to the next. */
  ghost predicate Groups(inputs: seq<Input>, groups: seq<(nat, nat)>, end: nat) {
    && (groups == [] ==> end == 0)
    && (groups != [] ==> groups[0].0 == 0 && groups[|groups| - 1].1 == end)
    && (forall g :: 0 <= g < |groups| ==> groups[g].0 < groups[g].1 <= end && Starts(inputs, groups[g].0))
    && (forall g :: 0 <= g < |groups| - 1 ==> groups[g].1 == groups[g + 1].0)
    && (forall g, i :: 0 <= g < |groups| && groups[g].0 < i < groups[g].1 ==> !Starts(inputs, i))
  }

  lemma {:induction false} ProtocolStarts(inputs: seq<Input>, i: nat)
    requires Protocol(inputs) && i < |inputs|
    ensures inputs[i].PromptInput? ==> i == 0
    ensures !Starts(inputs, i) ==>
              i > 0 && (inputs[i - 1].CallInput? || inputs[i - 1].ResultInput?
                || (inputs[i - 1].MessageInput? && inputs[i - 1].message.role == RoleAssistant))
  {
    var body := Body(inputs);
    if HasPrompt(inputs) {
      if i > 0 {
        FollowsInGroup(body, i - 1);
      }
    } else {
      FollowsInGroup(body, i);
    }
  }

  predicate IsAssistant(input: Input) {
    input.MessageInput? && input.message.role == RoleAssistant
  }

  lemma {:induction false} GroupsSnoc(inputs: seq<Input>, groups: seq<(nat, nat)>, start: nat, end: nat)
    requires Groups(inputs, groups, start) && start < end && Starts(inputs, start)
    requires forall i :: start < i < end ==> !Starts(inputs, i)
    ensures Groups(inputs, groups + [(start, end)], end)
  {
    var after := groups + [(start, end)];
    forall g | 0 <= g < |after| - 1 ensures after[g].1 == after[g + 1].0 {
      if g < |groups| - 1 {
        assert groups[g].1 == groups[g + 1].0;
      }
    }
  }

  /** protocolGroups. */
  method ProtocolGroups(inputs: seq<Input>) returns (groups: seq<(nat, nat)>)
    requires Protocol(inputs)
    ensures Groups(inputs, groups, |inputs|)
  {
    groups := [];
    var start := 0;
    if |inputs| > 0 {
      ProtocolStarts(inputs, 0);
    }
    while start < |inputs|
      invariant start <= |inputs| && Groups(inputs, groups, start)
      invariant start < |inputs| ==> Starts(inputs, start)
    {
      hide Groups;
      var end := start + 1;
      if IsAssistant(inputs[start]) {
        while end < |inputs| && (inputs[end].CallInput? || inputs[end].ResultInput?)
          invariant start < end <= |inputs|
          invariant forall i :: start < i < end ==> !Starts(inputs, i)
        {
          end := end + 1;
        }
      }
      if end < |inputs| {
        ProtocolStarts(inputs, end);
      }
      GroupsSnoc(inputs, groups, start, end);
      groups := groups + [(start, end)];
      start := end;
    }
  }

  // ---------------------------------------------------------------- the suffix is a conversation of its own

  /** Reading on from a message needs nothing that came before it. */
  lemma {:induction false} SuffixReads(body: seq<Input>, lo: nat, hi: nat)
    requires lo < hi <= |body| && body[lo].MessageInput? && ReadAll(body[..hi]).Some?
    ensures ReadAll(body[lo..hi]).Some?
    ensures var r, r' := ReadAll(body[..hi]).value, ReadAll(body[lo..hi]).value;
            r'.phase == r.phase && r'.messages <= r.messages && r'.calls <= r.calls
    decreases hi
  {
    assert body[..hi] == body[..hi - 1] + [body[hi - 1]] && body[lo..hi] == body[lo..hi - 1] + [body[hi - 1]];
    ReadSnoc(body[..hi - 1], body[hi - 1]);
    ReadSnoc(body[lo..hi - 1], body[hi - 1]);
    if hi - 1 == lo {
      assert body[lo..hi - 1] == [];
    } else {
      SuffixReads(body, lo, hi - 1);
    }
    hide ReadAll;
    ReadsAlike(ReadAll(body[..hi - 1]).value, ReadAll(body[lo..hi - 1]).value, body[hi - 1]);
  }

  /** A reader in the same phase that knows less can read the same; a fresh one can read any message. */
  lemma {:induction false} ReadsAlike(r: Reader, r': Reader, input: Input)
    requires CanRead(r, input) && r'.messages <= r.messages && r'.calls <= r.calls
    requires r'.phase == r.phase || (input.MessageInput? && r' == Start)
    ensures CanRead(r', input)
    ensures var n, n' := Read(r, input), Read(r', input);
            n'.phase == n.phase && n'.messages <= n.messages && n'.calls <= n.calls
  {
  }

  lemma {:induction false} SuffixIsProtocol(inputs: seq<Input>, i: nat)
    requires Protocol(inputs) && i <= |inputs| && Aligned(inputs, i)
    ensures Protocol(inputs[i..])
  {
    if i == |inputs| {
      assert inputs[i..] == [];
    } else if i == 0 {
      assert inputs[i..] == inputs;
    } else {
      ProtocolStarts(inputs, i);
      var body, skip := Body(inputs), if HasPrompt(inputs) then 1 else 0;
      assert inputs[i..] == body[i - skip..|body|] && body[..|body|] == body;
      SuffixReads(body, i - skip, |body|);
      assert Body(inputs[i..]) == inputs[i..];
    }
  }

  // ---------------------------------------------------------------- compaction

  /** The tail before continuations are considered: as many groups from the end as the limit allows, at least
      one, and not one more. */
  ghost predicate IsTail(inputs: seq<Input>, max: int, b: nat) {
    && b <= |inputs| && Aligned(inputs, b) && (inputs != [] ==> b < |inputs|)
    && (|inputs| - b <= max || forall i :: b < i ==> !Starts(inputs, i))
    && (forall a :: a < b && Starts(inputs, a) ==> |inputs| - a > max)
  }

  /** A message of the Run that carries continuation state. */
  predicate Continues(input: Input, run: RunID) {
    input.MessageInput? && input.message.run == run && input.message.continuation.Some?
  }

  /** Position of the last input of the Run that carries continuation state, or -1. */
  ghost predicate IsLastContinuation(inputs: seq<Input>, run: RunID, p: int) {
    && -1 <= p < |inputs| && (p >= 0 ==> Continues(inputs[p], run))
    && forall i :: p < i < |inputs| ==> !Continues(inputs[i], run)
  }

  /** latestRunID. */
  function LatestRun(inputs: seq<Input>): (r: RunID) {
    if inputs == [] then 0
    else
      var last := inputs[|inputs| - 1];
      if last.MessageInput? && last.message.run != 0 then last.message.run
      else if last.CallInput? && last.call.run != 0 then last.call.run
      else LatestRun(inputs[..|inputs| - 1])
  }

  /** A message or a call of the Run. */
  predicate NamesRun(input: Input, run: RunID) {
    run != 0 && ((input.MessageInput? && input.message.run == run) || (input.CallInput? && input.call.run == run))
  }

  /** The Run of the last message or call that belongs to one, or none. */
  ghost predicate IsLatestRun(inputs: seq<Input>, run: RunID) {
    if run == 0 then forall i, r: RunID :: 0 <= i < |inputs| ==> !NamesRun(inputs[i], r)
    else exists p: nat :: p < |inputs| && NamesRun(inputs[p], run)
           && forall i, r: RunID :: p < i < |inputs| ==> !NamesRun(inputs[i], r)
  }

  lemma {:induction false} LatestRunExact(inputs: seq<Input>)
    ensures IsLatestRun(inputs, LatestRun(inputs))
  {
    if inputs != [] {
      var front, last := inputs[..|inputs| - 1], |inputs| - 1;
      LatestRunExact(front);
      var run := LatestRun(inputs);
      if NamesRun(inputs[last], run) {
        assert IsLatestRun(inputs, run);
      } else {
        assert run == LatestRun(front) && forall r: RunID :: !NamesRun(inputs[last], r);
        assert forall i :: 0 <= i < |front| ==> front[i] == inputs[i];
        if run != 0 {
          var p: nat :| p < |front| && NamesRun(front[p], run)
            && forall i, r: RunID :: p < i < |front| ==> !NamesRun(front[i], r);
          assert NamesRun(inputs[p], run);
          assert forall i, r: RunID :: p < i < |inputs| ==> !NamesRun(inputs[i], r);
        }
      }
    }
  }

  method FindLatestRun(inputs: seq<Input>) returns (run: RunID)
    ensures run == LatestRun(inputs) && IsLatestRun(inputs, run)
  {
    LatestRunExact(inputs);
    var index := |inputs|;
    assert inputs[..index] == inputs;
    while index > 0
      invariant 0 <= index <= |inputs| && LatestRun(inputs) == LatestRun(inputs[..index])
    {
      index := index - 1;
      assert inputs[..index + 1][..index] == inputs[..index];
      if inputs[index].MessageInput? && inputs[index].message.run != 0 { return inputs[index].message.run; }
      if inputs[index].CallInput? && inputs[index].call.run != 0 { return inputs[index].call.run; }
    }
    assert inputs[..0] == [];
    return 0;
  }

  /** Groups in terms of starts: a start is the beginning of some group. */
  lemma {:induction false} GroupOf(inputs: seq<Input>, groups: seq<(nat, nat)>, end: nat, i: nat) returns (g: nat)
    requires Groups(inputs, groups, end) && i < end
    ensures g < |groups| && groups[g].0 <= i < groups[g].1
  {
    g := |groups| - 1;
    while groups[g].0 > i
      invariant 0 <= g < |groups| && i < groups[g].1
    {
      g := g - 1;
    }
  }

  lemma {:induction false} GroupsAscend(inputs: seq<Input>, groups: seq<(nat, nat)>, end: nat, g: nat, h: nat)
    requires Groups(inputs, groups, end) && g < h < |groups|
    ensures groups[g].1 <= groups[h].0
    decreases h - g
  {
    assert groups[h - 1].1 == groups[h - 1 + 1].0;
    if g < h - 1 {
      GroupsAscend(inputs, groups, end, g, h - 1);
    }
  }

  /** The backward loop over groups. */
  method TakeTail(inputs: seq<Input>, groups: seq<(nat, nat)>, max: int) returns (start: nat)
    requires Groups(inputs, groups, |inputs|) && max > 0
    ensures start <= |groups| && (groups != [] ==> start < |groups|)
    ensures groups != [] ==> IsTail(inputs, max, groups[start].0)
  {
    start := |groups|;
    var count := 0;
    while start > 0
      invariant start <= |groups|
      invariant count == if start < |groups| then |inputs| - groups[start].0 else 0
      invariant start < |groups| - 1 ==> count <= max
    {
      var size := groups[start - 1].1 - groups[start - 1].0;
      assert groups[start - 1].1 == if start < |groups| then groups[start].0 else |inputs| by {
        if start < |groups| { assert groups[start - 1].1 == groups[start - 1 + 1].0; }
      }
      if count > 0 && count + size > max { break; }
      start := start - 1;
      count := count + size;
    }
    if groups != [] {
      TailFound(inputs, groups, max, start);
    }
  }

  lemma {:induction false} TailFound(inputs: seq<Input>, groups: seq<(nat, nat)>, max: int, start: nat)
    requires Groups(inputs, groups, |inputs|) && start < |groups|
    requires start < |groups| - 1 ==> |inputs| - groups[start].0 <= max
    requires start > 0 ==> |inputs| - groups[start - 1].0 > max
    ensures IsTail(inputs, max, groups[start].0)
  {
    var b := groups[start].0;
    forall a | a < b && Starts(inputs, a) ensures |inputs| - a > max {
      var g := GroupOf(inputs, groups, |inputs|, a);
      assert a == groups[g].0;
      if g > start {
        GroupsAscend(inputs, groups, |inputs|, start, g);
      } else if g < start - 1 {
        GroupsAscend(inputs, groups, |inputs|, g, start - 1);
      }
    }
    assert Starts(inputs, b);
  }

  /** The forward loop for the last group that carries continuation state of the Run. */
  method RequiredGroup(inputs: seq<Input>, groups: seq<(nat, nat)>, run: RunID) returns (required: int)
    requires Groups(inputs, groups, |inputs|)
    ensures -1 <= required < |groups|
    ensures IsLastContinuation(inputs, run, if required >= 0 then groups[required].0 else -1)
  {
    required := -1;
    for g := 0 to |groups|
      invariant -1 <= required < g
      invariant required >= 0 ==> Continues(inputs[groups[required].0], run)
      invariant forall h :: required < h < g ==> !Continues(inputs[groups[h].0], run)
    {
      if Continues(inputs[groups[g].0], run) {
        required := g;
      }
    }
    ghost var p := if required >= 0 then groups[required].0 else -1;
    forall i | p < i < |inputs| ensures !Continues(inputs[i], run) {
      if Starts(inputs, i) {
        var g := GroupOf(inputs, groups, |inputs|, i);
        assert i == groups[g].0;
        if required >= 0 && g < required {
          GroupsAscend(inputs, groups, |inputs|, g, required);
        }
      }
    }
  }

  /** Compact. The result is a suffix the protocol accepts: the tail, stretched only to the last continuation of
      the latest Run. */
  method Compact(inputs: seq<Input>, max: int) returns (r: Result<seq<Input>>, ghost first: nat, ghost tail: nat,
                 ghost last: int)
    requires max > 0
    ensures r.Ok? <==> Protocol(inputs)
    ensures r.Ok? ==> first <= |inputs| && r.value == inputs[first..] && Protocol(r.value)
    ensures r.Ok? ==> IsTail(inputs, max, tail) && IsLastContinuation(inputs, LatestRun(inputs), last)
    ensures r.Ok? ==> IsLatestRun(inputs, LatestRun(inputs))
    ensures r.Ok? ==> first == if 0 <= last < tail then last else tail
  {
    first, tail, last := 0, 0, -1;
    var ok := ValidateInputs(inputs);
    if !ok { return Err(InvalidInput), 0, 0, -1; }
    var groups := ProtocolGroups(inputs);
    var start := TakeTail(inputs, groups, max);
    var run := FindLatestRun(inputs);
    var required := RequiredGroup(inputs, groups, run);
    tail := if start < |groups| then groups[start].0 else 0;
    last := if required >= 0 then groups[required].0 else -1;
    if 0 <= required < start {
      GroupsAscend(inputs, groups, |inputs|, required, start);
      start := required;
    } else if start < required {
      GroupsAscend(inputs, groups, |inputs|, start, required);
    }
    var from := 0;
    if start < |groups| {
      from := groups[start].0;
    }
    first := from;
    SuffixIsProtocol(inputs, from);
    return Ok(inputs[from..]), first, tail, last;
  }

  // ---------------------------------------------------------------- continuations

  /** The last message fact with an ID, as the map of durable messages keeps it. */
  function Durable(h: seq<HistoryFact>): (r: map<MessageID, Message>) {
    if h == [] then map[]
    else
      var p := h[|h| - 1].payload;
      if p.MessagePayload? then Durable(h[..|h| - 1])[p.message.id := p.message] else Durable(h[..|h| - 1])
  }

  /** The message whose continuation the active Run must not lose; 0 when it has none. */
  function Required(h: seq<HistoryFact>, run: RunID): (r: MessageID) {
    if h == [] then 0
    else
      var p := h[|h| - 1].payload;
      if p.MessagePayload? && p.message.continuation.Some? && p.message.run == run then p.message.id
      else Required(h[..|h| - 1], run)
  }

  predicate Unchanged(durable: map<MessageID, Message>, m: Message) {
    if m.id in durable then m.continuation == durable[m.id].continuation else m.continuation.None?
  }

  ghost predicate Shows(inputs: seq<Input>, id: MessageID) {
    exists i :: 0 <= i < |inputs| && inputs[i].MessageInput? && inputs[i].message.id == id
  }

  /** What validateModelContinuations accepts. */
  ghost predicate ContinuationsOk(h: seq<HistoryFact>, inputs: seq<Input>, run: RunID) {
    && (forall i :: 0 <= i < |inputs| && inputs[i].MessageInput? ==> Unchanged(Durable(h), inputs[i].message))
    && (Required(h, run) != 0 ==> Shows(inputs, Required(h, run)))
  }

  /** validateModelContinuations: a pass over History and a pass over the inputs. */
  method ValidateModelContinuations(h: seq<HistoryFact>, inputs: seq<Input>, run: RunID) returns (ok: bool)
    ensures ok == ContinuationsOk(h, inputs, run)
  {
    var durable: map<MessageID, Message> := map[];
    var required: MessageID := 0;
    for i := 0 to |h|
      invariant durable == Durable(h[..i]) && required == Required(h[..i], run)
    {
      assert h[..i + 1][..i] == h[..i];
      var p := h[i].payload;
      if p.MessagePayload? {
        durable := durable[p.message.id := p.message];
        if p.message.continuation.Some? && p.message.run == run {
          required := p.message.id;
        }
      }
    }
    assert h[..|h|] == h;
    var present := required == 0;
    for i := 0 to |inputs|
      invariant forall k :: 0 <= k < i && inputs[k].MessageInput? ==> Unchanged(durable, inputs[k].message)
      invariant present <==>
                  required == 0 || exists k :: 0 <= k < i && inputs[k].MessageInput? && inputs[k].message.id == required
    {
      if !inputs[i].MessageInput? { continue; }
      var m := inputs[i].message;
      if m.id == required {
        present := true;
      }
      if !Unchanged(durable, m) { return false; }
    }
    return present;
  }

  /** Position of the last message fact with an ID. */
  function PositionOf(h: seq<HistoryFact>, id: MessageID): (r: int)
    ensures -1 <= r < |h|
  {
    if h == [] then -1
    else if h[|h| - 1].payload.MessagePayload? && h[|h| - 1].payload.message.id == id then |h| - 1
    else PositionOf(h[..|h| - 1], id)
  }

  /** Inputs that show messages of a History as they are there and in that order, possibly among others that
      the History does not have. */
  ghost predicate InHistoryOrder(h: seq<HistoryFact>, inputs: seq<Input>) {
    && (forall i :: 0 <= i < |inputs| && FromHistory(h, inputs[i]) ==>
          inputs[i].message == Durable(h)[inputs[i].message.id])
    && (forall i, j :: 0 <= i < j < |inputs| && FromHistory(h, inputs[i]) && FromHistory(h, inputs[j]) ==>
          PositionOf(h, inputs[i].message.id) < PositionOf(h, inputs[j].message.id))
  }

  predicate FromHistory(h: seq<HistoryFact>, input: Input) {
    input.MessageInput? && input.message.id in Durable(h)
  }

  lemma {:induction false} DurablePosition(h: seq<HistoryFact>, id: MessageID)
    ensures id in Durable(h) <==> PositionOf(h, id) >= 0
    ensures id in Durable(h) ==> h[PositionOf(h, id)].payload == MessagePayload(Durable(h)[id])
    ensures id in Durable(h) ==> Durable(h)[id].id == id
  {
    if h != [] {
      DurablePosition(h[..|h| - 1], id);
    }
  }

  /** As every accepted History has them: message IDs are not empty and not repeated. */
  ghost predicate UniqueMessages(h: seq<HistoryFact>) {
    && (forall i :: 0 <= i < |h| && h[i].payload.MessagePayload? ==> h[i].payload.message.id != 0)
    && (forall i, j :: 0 <= i < j < |h| && h[i].payload.MessagePayload? && h[j].payload.MessagePayload? ==>
          h[i].payload.message.id != h[j].payload.message.id)
  }

  lemma {:induction false} MessagesRecorded(sid: SessionID, h: seq<HistoryFact>)
    requires Accepted(sid, h)
    ensures forall i :: 0 <= i < |h| && h[i].payload.MessagePayload? ==>
              h[i].payload.message.id in ScanOf(h).talk.messages
    ensures UniqueMessages(h)
  {
    if h != [] {
      var front := h[..|h| - 1];
      MessagesRecorded(sid, front);
      assert forall i :: 0 <= i < |front| ==> front[i] == h[i];
    }
  }

  /** No message of the Run with a continuation stands behind the required one. */
  lemma {:induction false} RequiredIsLast(h: seq<HistoryFact>, run: RunID, id: MessageID)
    requires UniqueMessages(h) && id in Durable(h) && Durable(h)[id].continuation.Some? && Durable(h)[id].run == run
    requires id != 0
    ensures Required(h, run) != 0 && Required(h, run) in Durable(h)
    ensures PositionOf(h, id) <= PositionOf(h, Required(h, run))
    ensures Durable(h)[Required(h, run)].run == run && Durable(h)[Required(h, run)].continuation.Some?
  {
    var front, p := h[..|h| - 1], h[|h| - 1].payload;
    if !(p.MessagePayload? && p.message.continuation.Some? && p.message.run == run) {
      assert UniqueMessages(front);
      RequiredIsLast(front, run, id);
      DurablePosition(front, Required(front, run));
    }
  }

  lemma {:induction false} RequiredIsContinuing(h: seq<HistoryFact>, run: RunID)
    requires UniqueMessages(h) && Required(h, run) != 0
    ensures Required(h, run) in Durable(h)
    ensures Durable(h)[Required(h, run)].run == run && Durable(h)[Required(h, run)].continuation.Some?
  {
    var front, p := h[..|h| - 1], h[|h| - 1].payload;
    if !(p.MessagePayload? && p.message.continuation.Some? && p.message.run == run) {
      assert UniqueMessages(front);
      RequiredIsContinuing(front, run);
      DurablePosition(front, Required(front, run));
    }
  }

  /** The last continuation among the inputs is the one that History requires. */
  lemma {:induction false} LastContinuationIsRequired(h: seq<HistoryFact>, inputs: seq<Input>, run: RunID, last: int)
    requires UniqueMessages(h) && InHistoryOrder(h, inputs) && ContinuationsOk(h, inputs, run)
    requires IsLastContinuation(inputs, run, last)
    requires forall i :: 0 <= i < |inputs| ==> inputs[i].Valid()
    requires Required(h, run) != 0
    ensures last >= 0 && inputs[last].message.id == Required(h, run)
  {
    RequiredIsContinuing(h, run);
    var p :| 0 <= p < |inputs| && inputs[p].MessageInput? && inputs[p].message.id == Required(h, run);
    assert Continues(inputs[p], run);
    assert last >= p;
    if last > p {
      var m := inputs[last].message;
      assert Unchanged(Durable(h), m);
      assert m.id in Durable(h);
      RequiredIsLast(h, run, m.id);
    }
  }

  /** Compacting inputs that follow History and end in the active Run loses no continuation the Run needs. */
  lemma {:induction false} CompactionKeepsContinuations(h: seq<HistoryFact>, inputs: seq<Input>, run: RunID,
                                                        first: nat, tail: nat, last: int)
    requires UniqueMessages(h) && InHistoryOrder(h, inputs) && LatestRun(inputs) == run
    requires forall i :: 0 <= i < |inputs| ==> inputs[i].Valid()
    requires ContinuationsOk(h, inputs, run)
    requires IsLastContinuation(inputs, LatestRun(inputs), last) && tail <= |inputs|
    requires first == if 0 <= last < tail then last else tail
    ensures ContinuationsOk(h, inputs[first..], run)
  {
    var out := inputs[first..];
    forall i | 0 <= i < |out| && out[i].MessageInput? ensures Unchanged(Durable(h), out[i].message) {
      assert out[i] == inputs[first + i];
    }
    if Required(h, run) != 0 {
      LastContinuationIsRequired(h, inputs, run, last);
      assert out[last - first] == inputs[last];
      assert Shows(out, Required(h, run));
    }
  }
}
