/** The model protocol by positions instead of by a reader: which input may stand behind which (model/contracts.go
    ValidateInputs). The check accepts exactly the inputs that keep these rules. */
module ProtocolRules {
  import opened SessionTypes
  import opened ModelProtocol

  // ---------------------------------------------------------------- the rules

  ghost predicate HasMessage(b: seq<Input>, id: MessageID) {
    exists i :: 0 <= i < |b| && b[i].MessageInput? && b[i].message.id == id
  }

  ghost predicate HasCall(b: seq<Input>, id: ToolCallID) {
    exists i :: 0 <= i < |b| && b[i].CallInput? && b[i].call.id == id
  }

  ghost predicate HasResult(b: seq<Input>, id: ToolCallID) {
    exists i :: 0 <= i < |b| && b[i].ResultInput? && b[i].result.call == id
  }

  ghost predicate AllAnswered(b: seq<Input>) {
    forall id :: HasCall(b, id) ==> HasResult(b, id)
  }

  /** The call has been made and no message has come since. */
  ghost predicate CalledSince(b: seq<Input>, id: ToolCallID) {
    exists i :: 0 <= i < |b| && b[i].CallInput? && b[i].call.id == id && forall q :: i < q < |b| ==> !b[q].MessageInput?
  }

  /** The assistant message at `p`, with nothing but calls behind it, is the one the call names. */
  predicate Owns(b: seq<Input>, p: int, c: ToolCall) {
    && 0 <= p < |b| && b[p].MessageInput? && b[p].message.role == RoleAssistant
    && c.message == b[p].message.id && c.run == b[p].message.run && c.step == b[p].message.step
    && forall q :: p < q < |b| ==> b[q].CallInput?
  }

  /** The input may stand behind these: a new message when every call is answered, a new call behind its assistant
      message or further calls of it, and the first result of a call made since the last message. */
  ghost predicate MayFollow(b: seq<Input>, x: Input) {
    && x.Valid()
    && match x
       case PromptInput(_) => false
       case MessageInput(m) => !HasMessage(b, m.id) && AllAnswered(b)
       case CallInput(c) => !HasCall(b, c.id) && exists p :: Owns(b, p, c)
       case ResultInput(t) => CalledSince(b, t.call) && !HasResult(b, t.call)
  }

  ghost predicate Orderly(b: seq<Input>) {
    forall k :: 0 <= k < |b| ==> MayFollow(b[..k], b[k])
  }

  // ---------------------------------------------------------------- what a reader knows

  ghost predicate Knows(b: seq<Input>, r: Reader) {
    && (forall id :: id in r.messages <==> HasMessage(b, id))
    && (forall id :: id in r.calls <==> HasCall(b, id))
    && KnowsExchange(b, r.phase) && KnowsPhase(b, r.phase)
  }

  ghost predicate KnowsExchange(b: seq<Input>, phase: Phase) {
    && (forall id :: id in phase.Group() <==> CalledSince(b, id))
    && (forall id :: id in phase.Group() ==> (id in phase.Answered() <==> HasResult(b, id)))
    && phase.Answered() <= phase.Group()
    && (forall id :: HasCall(b, id) && id !in phase.Group() ==> HasResult(b, id))
    && (forall id :: HasResult(b, id) || CalledSince(b, id) ==> HasCall(b, id))
  }

  ghost predicate KnowsPhase(b: seq<Input>, phase: Phase) {
    match phase
    case Outside(parent) =>
      if b == [] then parent == None
      else
        var last := b[|b| - 1];
        last.MessageInput? && parent == if last.message.role == RoleAssistant then Some(last.message) else None
    case Calling(owner, calls) =>
      calls != {} && owner.role == RoleAssistant && b != [] && b[|b| - 1].CallInput?
      && exists p :: 0 <= p < |b| && b[p] == MessageInput(owner) && forall q :: p < q < |b| ==> b[q].CallInput?
    case Answering(_, _, _) => b != [] && b[|b| - 1].ResultInput?
  }

  lemma {:induction false} Longer(b: seq<Input>, x: Input)
    ensures forall id :: HasMessage(b + [x], id) <==> HasMessage(b, id) || (x.MessageInput? && x.message.id == id)
    ensures forall id :: HasCall(b + [x], id) <==> HasCall(b, id) || (x.CallInput? && x.call.id == id)
    ensures forall id :: HasResult(b + [x], id) <==> HasResult(b, id) || (x.ResultInput? && x.result.call == id)
    ensures forall id ::
              CalledSince(b + [x], id) <==>
              (CalledSince(b, id) && !x.MessageInput?) || (x.CallInput? && x.call.id == id)
  {
    var c := b + [x];
    assert c[|b|] == x && forall i :: 0 <= i < |b| ==> c[i] == b[i];
    forall id ensures HasMessage(c, id) <==> HasMessage(b, id) || (x.MessageInput? && x.message.id == id) {
      if HasMessage(b, id) {
        var i :| 0 <= i < |b| && b[i].MessageInput? && b[i].message.id == id;
        assert c[i] == b[i];
      }
    }
    forall id ensures HasCall(c, id) <==> HasCall(b, id) || (x.CallInput? && x.call.id == id) {
      if HasCall(b, id) {
        var i :| 0 <= i < |b| && b[i].CallInput? && b[i].call.id == id;
        assert c[i] == b[i];
      }
    }
    forall id ensures HasResult(c, id) <==> HasResult(b, id) || (x.ResultInput? && x.result.call == id) {
      if HasResult(b, id) {
        var i :| 0 <= i < |b| && b[i].ResultInput? && b[i].result.call == id;
        assert c[i] == b[i];
      }
    }
    SinceLonger(b, x);
  }

  lemma {:induction false} SinceLonger(b: seq<Input>, x: Input)
    ensures forall id ::
              CalledSince(b + [x], id) <==>
              (CalledSince(b, id) && !x.MessageInput?) || (x.CallInput? && x.call.id == id)
  {
    var c := b + [x];
    assert c[|b|] == x && forall i :: 0 <= i < |b| ==> c[i] == b[i];
    forall id
      ensures CalledSince(c, id) <==> (CalledSince(b, id) && !x.MessageInput?) || (x.CallInput? && x.call.id == id)
    {
      if CalledSince(b, id) && !x.MessageInput? {
        var i :| 0 <= i < |b| && b[i].CallInput? && b[i].call.id == id
          && forall q :: i < q < |b| ==> !b[q].MessageInput?;
        assert c[i] == b[i];
      }
      if CalledSince(c, id) {
        var i :| 0 <= i < |c| && c[i].CallInput? && c[i].call.id == id
          && forall q :: i < q < |c| ==> !c[q].MessageInput?;
        assert i < |b| ==> b[i] == c[i];
        assert i < |b| ==> !c[|b|].MessageInput?;
      }
    }
  }

  /** Who owns the next call, by phase. */
  lemma {:induction false} OwnerKnown(b: seq<Input>, phase: Phase, c: ToolCall)
    requires KnowsPhase(b, phase)
    ensures (exists p :: Owns(b, p, c)) <==>
            match phase
            case Outside(parent) => parent.Some? && CallFits(c, parent.value)
            case Calling(owner, _) => CallFits(c, owner)
            case Answering(_, _, _) => false
  {
    match phase {
      case Outside(parent) =>
        if parent.Some? && CallFits(c, parent.value) {
          assert Owns(b, |b| - 1, c);
        }
        assert b != [] ==> !b[|b| - 1].CallInput?;
        assert forall p :: Owns(b, p, c) ==> p == |b| - 1;
      case Calling(owner, _) =>
        var p :| 0 <= p < |b| && b[p] == MessageInput(owner) && forall q :: p < q < |b| ==> b[q].CallInput?;
        if CallFits(c, owner) {
          assert Owns(b, p, c);
        }
        forall q | Owns(b, q, c) ensures q == p {
          assert b[q].MessageInput?;
        }
      case Answering(_, _, _) =>
        assert !b[|b| - 1].CallInput? && !b[|b| - 1].MessageInput?;
        assert forall p :: !Owns(b, p, c);
    }
  }

  lemma {:induction false} FollowDecided(b: seq<Input>, r: Reader, x: Input)
    requires Knows(b, r)
    ensures CanRead(r, x) <==> MayFollow(b, x)
  {
    if x.CallInput? {
      OwnerKnown(b, r.phase, x.call);
    }
    hide HasMessage;
    hide HasCall;
    hide HasResult;
    hide CalledSince;
    hide Owns;
    hide KnowsPhase;
  }

  lemma {:induction false} KnowsMore(b: seq<Input>, r: Reader, x: Input)
    requires Knows(b, r) && CanRead(r, x)
    ensures Knows(b + [x], Read(r, x))
  {
    Longer(b, x);
    hide HasMessage;
    hide HasCall;
    hide HasResult;
    hide CalledSince;
    PhaseFollows(b, r, x);
    hide KnowsPhase;
  }

  lemma {:induction false} PhaseFollows(b: seq<Input>, r: Reader, x: Input)
    requires KnowsPhase(b, r.phase) && CanRead(r, x)
    ensures KnowsPhase(b + [x], Read(r, x).phase)
  {
    var c := b + [x];
    if x.CallInput? {
      var p := |b| - 1;
      if r.phase.Calling? {
        p :| 0 <= p < |b| && b[p] == MessageInput(r.phase.owner) && forall q :: p < q < |b| ==> b[q].CallInput?;
      }
      assert c[p] == b[p];
    }
  }

  lemma {:induction false} ReaderKnows(b: seq<Input>)
    ensures ReadAll(b).Some? <==> Orderly(b)
    ensures ReadAll(b).Some? ==> Knows(b, ReadAll(b).value)
  {
    if b == [] {
      StartKnows();
    } else {
      var front, x := b[..|b| - 1], b[|b| - 1];
      assert b == front + [x];
      ReaderKnows(front);
      ReadSnoc(front, x);
      OrderlySnoc(b);
      if ReadAll(front).Some? {
        FollowDecided(front, ReadAll(front).value, x);
        if CanRead(ReadAll(front).value, x) {
          KnowsMore(front, ReadAll(front).value, x);
        }
      }
      hide Knows;
      hide CanRead;
      hide MayFollow;
      hide Orderly;
    }
  }

  lemma {:induction false} StartKnows()
    ensures Knows([], Start)
  {
  }

  lemma {:induction false} OrderlySnoc(b: seq<Input>)
    requires b != []
    ensures Orderly(b) <==> Orderly(b[..|b| - 1]) && MayFollow(b[..|b| - 1], b[|b| - 1])
  {
    hide MayFollow;
    var front := b[..|b| - 1];
    assert forall k :: 0 <= k < |front| ==> front[k] == b[k] && front[..k] == b[..k];
    if Orderly(b) {
      forall k | 0 <= k < |front| ensures MayFollow(front[..k], front[k]) {
        assert MayFollow(b[..k], b[k]);
      }
    }
  }

  /** Inputs are accepted if and only if a prompt stands only in front, every other input may follow those before it,
      and every call is answered. */
  lemma {:induction false} ProtocolExact(inputs: seq<Input>)
    ensures Protocol(inputs) <==>
            && (HasPrompt(inputs) ==> inputs[0].Valid())
            && Orderly(Body(inputs)) && AllAnswered(Body(inputs))
  {
    var b := Body(inputs);
    ReaderKnows(b);
    if ReadAll(b).Some? {
      SettledMeans(b, ReadAll(b).value);
    }
    hide Orderly;
    hide AllAnswered;
    hide Knows;
    hide ReadAll;
  }

  lemma {:induction false} SettledMeans(b: seq<Input>, r: Reader)
    requires Knows(b, r)
    ensures r.phase.Settled() <==> AllAnswered(b)
  {
    hide HasCall;
    hide HasResult;
    hide CalledSince;
    if r.phase.Calling? {
      var id :| id in r.phase.calls;
      assert HasCall(b, id) && !HasResult(b, id);
    }
  }
}
