/** The provider-neutral model protocol (model/contracts.go, ValidateInputs).

    The source checks it with nested index loops over growing maps. Here it is also
    defined as an automaton that reads one input at a time, which is the form every
    later result about Histories, compaction and forks uses. */
module ModelProtocol {
  import opened SessionTypes

  /** Where a reader stands between two inputs. */
  datatype Phase =
    | Outside(parent: Option<Message>)
    | Calling(owner: Message, calls: set<ToolCallID>)
    | Answering(owner: Message, calls: set<ToolCallID>, answered: set<ToolCallID>)
  {
    predicate Settled() {
      match this
      case Outside(_) => true
      case Calling(_, _) => false
      case Answering(_, calls, answered) => answered == calls
    }
    /** The calls of the exchange that is being read. */
    function Group(): (r: set<ToolCallID>) {
      match this
      case Outside(_) => {}
      case Calling(_, calls) => calls
      case Answering(_, calls, _) => calls
    }
    function Answered(): (r: set<ToolCallID>) {
      if Answering? then answered else {}
    }
  }

  datatype Reader = Reader(messages: set<MessageID>, calls: set<ToolCallID>, phase: Phase)

  const Start := Reader({}, {}, Outside(None))

  predicate CallFits(call: ToolCall, owner: Message) {
    call.message == owner.id && call.run == owner.run && call.step == owner.step
  }

  predicate CanRead(r: Reader, input: Input) {
    && input.Valid()
    && match input
       case PromptInput(_) => false
       case MessageInput(m) => r.phase.Settled() && m.id !in r.messages
       case CallInput(c) =>
         && c.id !in r.calls
         && (match r.phase
             case Outside(parent) => parent.Some? && CallFits(c, parent.value)
             case Calling(owner, _) => CallFits(c, owner)
             case Answering(_, _, _) => false)
       case ResultInput(t) => t.call in r.phase.Group() && t.call !in r.phase.Answered()
  }

  function Read(r: Reader, input: Input): (r': Reader)
    requires CanRead(r, input)
  {
    match input
    case MessageInput(m) =>
      Reader(r.messages + {m.id}, r.calls, Outside(if m.role == RoleAssistant then Some(m) else None))
    case CallInput(c) =>
      var owner := if r.phase.Outside? then r.phase.parent.value else r.phase.owner;
      r.(calls := r.calls + {c.id}, phase := Calling(owner, r.phase.Group() + {c.id}))
    case ResultInput(t) =>
      r.(phase := Answering(r.phase.owner, r.phase.Group(), r.phase.Answered() + {t.call}))
  }

  function ReadAll(inputs: seq<Input>): (r: Option<Reader>) {
    if inputs == [] then Some(Start)
    else
      var last := inputs[|inputs| - 1];
      match ReadAll(inputs[..|inputs| - 1])
      case None => None
      case Some(before) => if CanRead(before, last) then Some(Read(before, last)) else None
  }

  predicate HasPrompt(inputs: seq<Input>) {
    |inputs| > 0 && inputs[0].PromptInput?
  }

  function Body(inputs: seq<Input>): (r: seq<Input>) {
    if HasPrompt(inputs) then inputs[1..] else inputs
  }

  /** What ValidateInputs accepts. */
  predicate Protocol(inputs: seq<Input>) {
    && (HasPrompt(inputs) ==> inputs[0].Valid())
    && var r := ReadAll(Body(inputs)); r.Some? && r.value.phase.Settled()
  }

  lemma ReadSnoc(inputs: seq<Input>, input: Input)
    ensures ReadAll(inputs + [input]) ==
            match ReadAll(inputs)
            case None => None
            case Some(before) => if CanRead(before, input) then Some(Read(before, input)) else None
  {
    assert (inputs + [input])[..|inputs|] == inputs;
  }

  /** A sequence the automaton refuses has no accepted continuation. */
  lemma {:induction false} RefusalIsFinal(inputs: seq<Input>, k: nat)
    requires k <= |inputs|
    requires ReadAll(inputs[..k]).None?
    ensures ReadAll(inputs).None?
    decreases |inputs|
  {
    if k == |inputs| {
      assert inputs[..k] == inputs;
    } else {
      var front := inputs[..|inputs| - 1];
      assert front[..k] == inputs[..k];
      RefusalIsFinal(front, k);
    }
  }

  /** What a reader knows is what it has read; the open exchange is part of it. */
  predicate ReaderOk(r: Reader) {
    && r.phase.Group() <= r.calls
    && r.phase.Answered() <= r.phase.Group()
    && (r.phase.Calling? || r.phase.Answering? ==> r.phase.Group() != {})
  }

  lemma {:induction false} ReadKeepsReaderOk(inputs: seq<Input>)
    requires ReadAll(inputs).Some?
    ensures ReaderOk(ReadAll(inputs).value)
  {
    if inputs != [] {
      ReadKeepsReaderOk(inputs[..|inputs| - 1]);
    }
  }

  lemma SubsetOfSameSize(a: set<ToolCallID>, b: set<ToolCallID>)
    requires a <= b && |a| == |b|
    ensures a == b
  {
    if exists x :: x in b && x !in a {
      var x :| x in b && x !in a;
      assert a <= b - {x};
      SubsetSize(a, b - {x});
      assert false;
    }
  }

  lemma SubsetSize(a: set<ToolCallID>, b: set<ToolCallID>)
    requires a <= b
    ensures |a| <= |b|
  {
    if a != {} {
      var x :| x in a;
      SubsetSize(a - {x}, b - {x});
    }
  }

  /** One step of a reader over a slice of the inputs. */
  lemma ReadNext(body: seq<Input>, index: nat, r: Reader)
    requires index < |body|
    requires ReadAll(body[..index]) == Some(r)
    ensures CanRead(r, body[index]) ==> ReadAll(body[..index + 1]) == Some(Read(r, body[index]))
    ensures !CanRead(r, body[index]) ==> ReadAll(body).None?
  {
    assert body[..index + 1] == body[..index] + [body[index]];
    ReadSnoc(body[..index], body[index]);
    if !CanRead(r, body[index]) {
      RefusalIsFinal(body, index + 1);
    }
  }

  /** The inner loop over the calls of one assistant message. */
  method ReadCalls(body: seq<Input>, from: nat, message: Message, seen: set<ToolCallID>, ghost r: Reader)
    returns (ok: bool, index: nat, calls: set<ToolCallID>, allCalls: set<ToolCallID>, ghost r': Reader)
    requires from < |body| && body[from].CallInput?
    requires ReadAll(body[..from]) == Some(r) && r.phase == Outside(Some(message)) && r.calls == seen
    ensures !ok ==> ReadAll(body).None?
    ensures ok ==> from <= index <= |body| && ReadAll(body[..index]) == Some(r')
    ensures ok ==> r' == Reader(r.messages, allCalls, Calling(message, calls)) && calls != {}
    ensures ok && index < |body| ==> !body[index].CallInput?
  {
    index, calls, allCalls, r', ok := from, {}, seen, r, true;
    while index < |body| && body[index].CallInput?
      invariant from <= index <= |body|
      invariant ReadAll(body[..index]) == Some(r')
      invariant index == from ==> r' == r && calls == {} && allCalls == seen
      invariant index > from ==> r' == Reader(r.messages, allCalls, Calling(message, calls)) && calls != {}
      invariant calls <= allCalls
    {
      var call := body[index].call;
      ReadNext(body, index, r');
      if !body[index].Valid() || !CallFits(call, message) || call.id in calls || call.id in allCalls {
        ok := false;
        return;
      }
      r' := Read(r', body[index]);
      calls := calls + {call.id};
      allCalls := allCalls + {call.id};
      index := index + 1;
    }
  }

  /** An exchange with unanswered calls cannot be followed by anything but a result. */
  lemma {:induction false} UnansweredIsRefused(body: seq<Input>, index: nat, r: Reader)
    requires index <= |body| && ReadAll(body[..index]) == Some(r)
    requires r.phase.Calling? || (r.phase.Answering? && r.phase.answered != r.phase.calls)
    requires index < |body| ==> !body[index].ResultInput? && (r.phase.Calling? ==> !body[index].CallInput?)
    ensures ReadAll(body).None? || !ReadAll(body).value.phase.Settled()
  {
    if index < |body| {
      ReadNext(body, index, r);
    } else {
      assert body[..index] == body;
    }
  }

  /** A reader of one exchange after some of its calls were answered. */
  ghost function AfterResults(r: Reader, results: set<ToolCallID>): (r': Reader)
    requires r.phase.Calling?
  {
    if results == {} then r else r.(phase := Answering(r.phase.owner, r.phase.calls, results))
  }

  lemma {:induction false} ReadResult(r: Reader, results: set<ToolCallID>, input: Input)
    requires r.phase.Calling? && input.ResultInput?
    ensures CanRead(AfterResults(r, results), input) <==>
              input.Valid() && input.result.call in r.phase.calls && input.result.call !in results
    ensures CanRead(AfterResults(r, results), input) ==>
              Read(AfterResults(r, results), input) == AfterResults(r, results + {input.result.call})
  {
    assert {} + {input.result.call} == {input.result.call};
  }

  /** The inner loop over the results that answer them. */
  method ReadResults(body: seq<Input>, from: nat, calls: set<ToolCallID>, ghost r: Reader)
    returns (ok: bool, index: nat, ghost r': Reader)
    requires from <= |body| && ReadAll(body[..from]) == Some(r) && r.phase.Calling? && r.phase.calls == calls
    requires calls != {}
    requires from < |body| ==> !body[from].CallInput?
    ensures !ok ==> ReadAll(body).None? || !ReadAll(body).value.phase.Settled()
    ensures ok ==> from < index <= |body| && ReadAll(body[..index]) == Some(r')
    ensures ok ==> r' == r.(phase := Answering(r.phase.owner, calls, calls))
  {
    var results: set<ToolCallID> := {};
    index, r', ok := from, r, true;
    while index < |body| && body[index].ResultInput?
      invariant from <= index <= |body|
      invariant results <= calls && (index == from <==> results == {})
      invariant r' == AfterResults(r, results) && ReadAll(body[..index]) == Some(r')
    {
      var result := body[index].result;
      ReadNext(body, index, r');
      ReadResult(r, results, body[index]);
      if !body[index].Valid() || result.call !in calls || result.call in results {
        ok := false;
        return;
      }
      r' := Read(r', body[index]);
      results := results + {result.call};
      index := index + 1;
    }
    if |results| != |calls| {
      assert results != calls;
      UnansweredIsRefused(body, index, r');
      ok := false;
      return;
    }
    SubsetOfSameSize(results, calls);
    assert index != from;
  }

  /** ValidateInputs: the nested loops of the source decide exactly Protocol. */
  method ValidateInputs(inputs: seq<Input>) returns (ok: bool)
    ensures ok == Protocol(inputs)
  {
    var start := 0;
    if |inputs| > 0 && inputs[0].PromptInput? {
      if !inputs[0].Valid() { return false; }
      start := 1;
    }
    var body := inputs[start..];
    assert body == Body(inputs);
    var messages: set<MessageID> := {};
    var allCalls: set<ToolCallID> := {};
    ghost var r := Start;
    assert body[..0] == [];
    var index := 0;
    while index < |body|
      invariant index <= |body|
      invariant ReadAll(body[..index]) == Some(r)
      invariant r.phase.Settled()
      invariant r.messages == messages && r.calls == allCalls
      invariant r.phase.Outside? && r.phase.parent.Some? && index < |body| ==> !body[index].CallInput?
      decreases |body| - index
    {
      var input := body[index];
      ReadNext(body, index, r);
      if !input.Valid() || !input.MessageInput? { return false; }
      var message := input.message;
      if message.id in messages { return false; }
      messages := messages + {message.id};
      r := Read(r, input);
      index := index + 1;
      if message.role != RoleAssistant || index >= |body| || !body[index].CallInput? {
        continue;
      }
      var read, next, calls;
      read, next, calls, allCalls, r := ReadCalls(body, index, message, allCalls, r);
      if !read { return false; }
      read, index, r := ReadResults(body, next, calls, r);
      if !read { return false; }
    }
    assert body[..index] == body;
    return true;
  }
}
