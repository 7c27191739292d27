/** The application's single-flight registry of Session Runtimes (standardagent/runtime.go runtimeRegistry and
    coordinator create, resume and close). Every step is one critical section; the steps of concurrent
    callers interleave in any order. */
module RuntimeRegistry {
  import opened SessionTypes

  type RuntimeID = nat

  /** Why a Session is in flight: a resume is opening it (and may have built its Runtime), or a closed one drains. */
  datatype Flight = Opening(built: Option<RuntimeID>) | Draining(runtime: RuntimeID)

  datatype Registry = Registry(entries: map<SessionID, RuntimeID>, inflight: map<SessionID, Flight>)

  // ---------------------------------------------------------------- the registry's own steps

  predicate Free(r: Registry, id: SessionID) {
    id !in r.entries && id !in r.inflight
  }

  /** add. */
  function Added(r: Registry, id: SessionID, runtime: RuntimeID): (r': Registry) {
    if Free(r, id) then r.(entries := r.entries[id := runtime]) else r
  }

  /** The end of getOrCreate: the flight is over, and on success the Runtime is routable. */
  function Landed(r: Registry, id: SessionID, runtime: Option<RuntimeID>): (r': Registry) {
    Registry(if runtime.Some? then r.entries[id := runtime.value] else r.entries, r.inflight - {id})
  }

  /** markClosing. */
  predicate CanMark(r: Registry, id: SessionID, runtime: RuntimeID) {
    id in r.entries && r.entries[id] == runtime && id !in r.inflight
  }

  function Marked(r: Registry, id: SessionID, runtime: RuntimeID): (r': Registry) {
    if CanMark(r, id, runtime) then Registry(r.entries - {id}, r.inflight[id := Draining(runtime)]) else r
  }

  /** discard. */
  function Dropped(r: Registry, id: SessionID, runtime: RuntimeID): (r': Registry) {
    if id in r.entries && r.entries[id] == runtime then r.(entries := r.entries - {id}) else r
  }

  class SharedRegistry {
    var entries: map<SessionID, RuntimeID>
    var inflight: map<SessionID, Flight>

    function Value(): (r: Registry)
      reads this
    {
      Registry(entries, inflight)
    }

    constructor ()
      ensures Value() == Registry(map[], map[])
    {
      entries, inflight := map[], map[];
    }

    /** The locked part of getOrCreate: an entry, somebody else's flight, or a flight of one's own. */
    method Begin(id: SessionID) returns (found: Option<RuntimeID>, mine: bool)
      modifies this
      ensures id in old(entries) ==> found == Some(old(entries)[id]) && !mine
      ensures id !in old(entries) ==> found == None && (mine <==> id !in old(inflight))
      ensures Value() == if mine then Registry(old(entries), old(inflight)[id := Opening(None)]) else old(Value())
    {
      if id in entries { return Some(entries[id]), false; }
      if id in inflight { return None, false; }
      inflight := inflight[id := Opening(None)];
      return None, true;
    }

    method Land(id: SessionID, runtime: Option<RuntimeID>)
      modifies this
      ensures Value() == Landed(old(Value()), id, runtime)
      ensures id !in inflight && forall t :: t != id ==> (t in inflight <==> t in old(inflight))
      ensures runtime.Some? ==> id in entries && entries[id] == runtime.value
      ensures forall t :: t in old(entries) && (t != id || runtime.None?) ==>
                t in entries && entries[t] == old(entries)[t]
      ensures forall t :: t in entries ==> t in old(entries) || (t == id && runtime.Some?)
    {
      inflight := inflight - {id};
      if runtime.Some? {
        entries := entries[id := runtime.value];
      }
    }

    method Add(id: SessionID, runtime: RuntimeID) returns (ok: bool)
      modifies this
      ensures Value() == Added(old(Value()), id, runtime)
      ensures ok <==> id !in old(entries) && id !in old(inflight)
      ensures inflight == old(inflight) && entries == if ok then old(entries)[id := runtime] else old(entries)
    {
      if id in entries || id in inflight { return false; }
      entries := entries[id := runtime];
      return true;
    }

    method MarkClosing(id: SessionID, runtime: RuntimeID) returns (ok: bool)
      modifies this
      ensures Value() == Marked(old(Value()), id, runtime)
      ensures ok <==> id in old(entries) && old(entries)[id] == runtime && id !in old(inflight)
      ensures ok ==> id !in entries && id in inflight && inflight[id] == Draining(runtime)
      ensures !ok ==> Value() == old(Value())
      ensures forall t :: t != id ==> (t in entries <==> t in old(entries)) && (t in inflight <==> t in old(inflight))
    {
      if id !in entries || entries[id] != runtime || id in inflight { return false; }
      entries := entries - {id};
      inflight := inflight[id := Draining(runtime)];
      return true;
    }

    method Discard(id: SessionID, runtime: RuntimeID)
      modifies this
      ensures Value() == Dropped(old(Value()), id, runtime) && inflight == old(inflight)
      ensures id in entries ==> entries[id] != runtime
      ensures id in old(entries) && old(entries)[id] != runtime ==> entries == old(entries)
      ensures forall t :: t != id ==> (t in entries <==> t in old(entries))
      ensures forall t :: t in entries ==> t in old(entries) && entries[t] == old(entries)[t]
    {
      if id in entries && entries[id] == runtime {
        entries := entries - {id};
      }
    }
  }

  // ---------------------------------------------------------------- the application

  /** A Runtime: its Session, whether it has finished closing, and whether it is a candidate of create that add has not
      accepted. */
  datatype Runtime = Runtime(session: SessionID, closed: bool, candidate: bool)

  /** `persisted` are the Sessions in the Store; `creating` those whose create call has not built its candidate yet. */
  datatype App = App(registry: Registry, runtimes: map<RuntimeID, Runtime>, persisted: set<SessionID>,
                     creating: set<SessionID>)

  const Started := App(Registry(map[], map[]), map[], {}, {})

  datatype Step =
    | Persist(session: SessionID)
    | BuildCandidate(session: SessionID, runtime: RuntimeID)
    | Register(runtime: RuntimeID)
    | BeginResume(session: SessionID)
    | BuildResumed(session: SessionID, runtime: RuntimeID)
    | ResumeFailed(session: SessionID)
    | ResumeDone(session: SessionID)
    | FinishClose(runtime: RuntimeID)
    | MarkClosing(session: SessionID)
    | Drained(session: SessionID)
    | Discard(session: SessionID, runtime: RuntimeID)

  predicate Enabled(a: App, step: Step) {
    match step
    case Persist(s) => s !in a.persisted
    case BuildCandidate(s, r) => s in a.creating && r !in a.runtimes
    case Register(r) => r in a.runtimes && a.runtimes[r].candidate && !a.runtimes[r].closed
    case BeginResume(s) => Free(a.registry, s)
    case BuildResumed(s, r) =>
      s in a.persisted && s in a.registry.inflight && a.registry.inflight[s] == Opening(None) && r !in a.runtimes
    case ResumeFailed(s) =>
      && s in a.registry.inflight && a.registry.inflight[s].Opening?
      && (a.registry.inflight[s].built.Some? ==>
            a.registry.inflight[s].built.value in a.runtimes && a.runtimes[a.registry.inflight[s].built.value].closed)
    case ResumeDone(s) => s in a.registry.inflight && a.registry.inflight[s].Opening?
      && a.registry.inflight[s].built.Some?
    case FinishClose(r) => r in a.runtimes
    case MarkClosing(s) => s in a.registry.entries
    case Drained(s) =>
      s in a.registry.inflight && a.registry.inflight[s].Draining? && a.registry.inflight[s].runtime in a.runtimes
      && a.runtimes[a.registry.inflight[s].runtime].closed
    case Discard(s, r) => r in a.runtimes && a.runtimes[r].closed
  }

  function Next(a: App, step: Step): (a': App)
    requires Enabled(a, step)
  {
    match step
    case Persist(s) => a.(persisted := a.persisted + {s}, creating := a.creating + {s})
    case BuildCandidate(s, r) => a.(runtimes := a.runtimes[r := Runtime(s, false, true)], creating := a.creating - {s})
    case Register(r) =>
      var s := a.runtimes[r].session;
      if Free(a.registry, s) then
        a.(registry := Added(a.registry, s, r), runtimes := a.runtimes[r := a.runtimes[r].(candidate := false)])
      else a
    case BeginResume(s) => a.(registry := a.registry.(inflight := a.registry.inflight[s := Opening(None)]))
    case BuildResumed(s, r) =>
      a.(registry := a.registry.(inflight := a.registry.inflight[s := Opening(Some(r))]),
         runtimes := a.runtimes[r := Runtime(s, false, false)])
    case ResumeFailed(s) => a.(registry := Landed(a.registry, s, None))
    case ResumeDone(s) => a.(registry := Landed(a.registry, s, a.registry.inflight[s].built))
    case FinishClose(r) => a.(runtimes := a.runtimes[r := a.runtimes[r].(closed := true)])
    case MarkClosing(s) => a.(registry := Marked(a.registry, s, a.registry.entries[s]))
    case Drained(s) => a.(registry := a.registry.(inflight := a.registry.inflight - {s}))
    case Discard(s, r) => a.(registry := Dropped(a.registry, s, r))
  }

  // ---------------------------------------------------------------- the invariant

  /** The Runtime a Session's registry slot speaks for. */
  function Holder(r: Registry, s: SessionID): (h: Option<RuntimeID>) {
    if s in r.entries then Some(r.entries[s])
    else if s in r.inflight then
      match r.inflight[s] case Opening(built) => built case Draining(x) => Some(x)
    else None
  }

  ghost predicate Disjoint(r: Registry) {
    forall s :: s in r.entries ==> s !in r.inflight
  }

  /** Whoever holds a slot is a Runtime of that Session, taken over by the registry. */
  ghost predicate HoldersOk(a: App) {
    forall s :: Holder(a.registry, s).Some? ==>
      var h := Holder(a.registry, s).value; h in a.runtimes && a.runtimes[h].session == s && !a.runtimes[h].candidate
  }

  /** Every Runtime that is not closed and not a mere candidate holds its Session's slot. */
  ghost predicate OwnersOk(a: App) {
    forall r :: r in a.runtimes && !a.runtimes[r].closed && !a.runtimes[r].candidate ==>
      Holder(a.registry, a.runtimes[r].session) == Some(r)
  }

  predicate IsCandidate(a: App, r: RuntimeID) {
    r in a.runtimes && a.runtimes[r].candidate
  }

  /** A Session has at most one candidate, and none before create has built it. */
  ghost predicate CandidatesOk(a: App) {
    && (forall r, q :: IsCandidate(a, r) && IsCandidate(a, q) && a.runtimes[r].session == a.runtimes[q].session ==>
          r == q)
    && (forall r :: IsCandidate(a, r) ==> a.runtimes[r].session !in a.creating && a.runtimes[r].session in a.persisted)
    && a.creating <= a.persisted
  }

  ghost predicate Inv(a: App) {
    Disjoint(a.registry) && HoldersOk(a) && OwnersOk(a) && CandidatesOk(a)
  }

  lemma {:induction false} NextKeepsInv(a: App, step: Step)
    requires Inv(a) && Enabled(a, step)
    ensures Inv(Next(a, step))
  {
    assert Disjoint(Next(a, step).registry);
    KeepsHolders(a, step);
    KeepsOwners(a, step);
    KeepsCandidates(a, step);
    hide Enabled;
    hide Next;
  }

  lemma {:induction false} KeepsHolders(a: App, step: Step)
    requires Inv(a) && Enabled(a, step)
    ensures HoldersOk(Next(a, step))
  {
    HoldersAfter(a, step);
    hide Holder;
    hide OwnersOk;
    hide CandidatesOk;
    hide Added;
    hide Landed;
    hide Marked;
    hide Dropped;
  }

  lemma {:induction false} KeepsOwners(a: App, step: Step)
    requires Inv(a) && Enabled(a, step)
    ensures OwnersOk(Next(a, step))
  {
    HoldersAfter(a, step);
    hide Holder;
    hide CandidatesOk;
    hide Added;
    hide Landed;
    hide Marked;
    hide Dropped;
  }

  lemma {:induction false} KeepsCandidates(a: App, step: Step)
    requires Inv(a) && Enabled(a, step)
    ensures CandidatesOk(Next(a, step))
  {
    hide Holder;
    hide HoldersOk;
    hide OwnersOk;
  }

  /** Who holds which slot after a step. */
  lemma {:induction false} HoldersAfter(a: App, step: Step)
    requires Disjoint(a.registry) && Enabled(a, step)
    ensures var before, after := a.registry, Next(a, step).registry;
            match step
            case Register(r) =>
              var s := a.runtimes[r].session;
              && (Free(before, s) ==> Holder(before, s) == None)
              && forall t :: Holder(after, t) == if Free(before, s) && t == s then Some(r) else Holder(before, t)
            case BuildResumed(s, r) =>
              Holder(before, s) == None && forall t :: Holder(after, t) == if t == s then Some(r) else Holder(before, t)
            case ResumeFailed(s) =>
              && (Holder(before, s).Some? ==>
                    Holder(before, s).value in a.runtimes && a.runtimes[Holder(before, s).value].closed)
              && forall t :: Holder(after, t) == if t == s then None else Holder(before, t)
            case Drained(s) =>
              && (Holder(before, s).Some? ==>
                    Holder(before, s).value in a.runtimes && a.runtimes[Holder(before, s).value].closed)
              && forall t :: Holder(after, t) == if t == s then None else Holder(before, t)
            case Discard(s, r) =>
              forall t ::
                || Holder(after, t) == Holder(before, t)
                || (t == s && Holder(before, t) == Some(r) && Holder(after, t) == None)
            case _ => forall t :: Holder(after, t) == Holder(before, t)
  {
  }

  /** The life of a slot: opened by a resume or taken by add, routable after either, draining from markClosing on, and
      free when the drained Runtime has closed. No step touches the slot of another Session. */
  lemma {:induction false} SlotMoves(a: App, step: Step)
    requires Disjoint(a.registry) && HoldersOk(a) && Enabled(a, step)
    ensures var before, after := a.registry, Next(a, step).registry;
            match step
            case Register(r) =>
              var s := a.runtimes[r].session;
              if Free(before, s) then s in after.entries && after.entries[s] == r && !IsCandidate(Next(a, step), r)
              else after == before && Next(a, step) == a
            case BeginResume(s) => s in after.inflight && after.inflight[s] == Opening(None) && s !in after.entries
            case BuildResumed(s, r) =>
              s in after.inflight && after.inflight[s] == Opening(Some(r)) && Open(Next(a, step), r, s)
            case BuildCandidate(s, r) => after == before && Open(Next(a, step), r, s) && IsCandidate(Next(a, step), r)
            case ResumeFailed(s) => Free(after, s)
            case ResumeDone(s) => s in after.entries && Holder(before, s) == Some(after.entries[s])
              && s !in after.inflight
            case MarkClosing(s) =>
              s !in after.entries && s in after.inflight && after.inflight[s] == Draining(before.entries[s])
            case Drained(s) => Free(after, s)
            case Discard(s, r) => s in after.entries ==> after.entries[s] != r
            case FinishClose(r) => after == before && Next(a, step).runtimes[r].closed
            case Persist(s) => after == before && s in Next(a, step).persisted
    ensures forall t :: t != SessionOf(a, step) ==>
              && (t in Next(a, step).registry.entries <==> t in a.registry.entries)
              && (t in Next(a, step).registry.inflight <==> t in a.registry.inflight)
  {
  }

  function SessionOf(a: App, step: Step): (s: SessionID)
    requires Enabled(a, step)
  {
    match step
    case Persist(s) => s
    case BuildCandidate(s, _) => s
    case Register(r) => a.runtimes[r].session
    case BeginResume(s) => s
    case BuildResumed(s, _) => s
    case ResumeFailed(s) => s
    case ResumeDone(s) => s
    case FinishClose(r) => a.runtimes[r].session
    case MarkClosing(s) => s
    case Drained(s) => s
    case Discard(s, _) => s
  }

  // ---------------------------------------------------------------- every interleaving

  ghost predicate IsRun(apps: seq<App>, steps: seq<Step>) {
    && |apps| == |steps| + 1 && apps[0] == Started
    && forall i :: 0 <= i < |steps| ==> Enabled(apps[i], steps[i]) && apps[i + 1] == Next(apps[i], steps[i])
  }

  lemma {:induction false} AlwaysInv(apps: seq<App>, steps: seq<Step>, k: nat)
    requires IsRun(apps, steps) && k < |apps|
    ensures Inv(apps[k])
  {
    if k > 0 {
      AlwaysInv(apps, steps, k - 1);
      assert apps[k - 1 + 1] == Next(apps[k - 1], steps[k - 1]);
      hide Inv;
      hide Next;
      hide Enabled;
      NextKeepsInv(apps[k - 1], steps[k - 1]);
    }
  }

  /** An unclosed Runtime of the Session. */
  predicate Open(a: App, r: RuntimeID, s: SessionID) {
    r in a.runtimes && a.runtimes[r].session == s && !a.runtimes[r].closed
  }

  ghost predicate AtMostOneOpen(a: App, s: SessionID) {
    forall r, q :: Open(a, r, s) && Open(a, q, s) ==> r == q
  }

  /** A candidate of create that the registry has not taken over, beside a Runtime that it has. */
  ghost predicate CandidateBeside(a: App, s: SessionID) {
    (exists r :: Open(a, r, s) && IsCandidate(a, r)) && (exists q :: Open(a, q, s) && !IsCandidate(a, q))
  }

  /** Entries and flights stay disjoint, at most one unclosed Runtime per Session has been taken over by the registry,
      and a second unclosed Runtime can only be a candidate of create: exactly then are there two. */
  lemma {:induction false} OneRuntimePerSession(apps: seq<App>, steps: seq<Step>, k: nat, s: SessionID)
    requires IsRun(apps, steps) && k < |apps|
    ensures Disjoint(apps[k].registry)
    ensures forall r, q ::
              Open(apps[k], r, s) && Open(apps[k], q, s) && IsCandidate(apps[k], r) == IsCandidate(apps[k], q) ==>
                r == q
    ensures AtMostOneOpen(apps[k], s) <==> !CandidateBeside(apps[k], s)
  {
    AlwaysInv(apps, steps, k);
    var a := apps[k];
    assert forall r, q :: Open(a, r, s) && Open(a, q, s) && IsCandidate(a, r) == IsCandidate(a, q) ==> r == q;
    if CandidateBeside(a, s) {
      var r :| Open(a, r, s) && IsCandidate(a, r);
      var q :| Open(a, q, s) && !IsCandidate(a, q);
      assert r != q;
    }
  }

  /** What a caller can see before the step: it would build a second Runtime for a Session that already has an open one,
      beside the candidate of create or beside the Runtime in the Session's slot. */
  ghost predicate Doubles(a: App, step: Step, s: SessionID) {
    match step
    case BuildCandidate(t, _) => t == s && Holder(a.registry, s).Some? && Open(a, Holder(a.registry, s).value, s)
    case BuildResumed(t, _) => t == s && exists q: RuntimeID :: Open(a, q, s) && IsCandidate(a, q)
    case _ => false
  }

  /** From a Session with at most one unclosed Runtime, a step leads to two exactly when it is one of those. */
  lemma {:induction false} StepKeepsOne(a: App, step: Step, s: SessionID)
    requires Inv(a) && Enabled(a, step) && AtMostOneOpen(a, s)
    ensures AtMostOneOpen(Next(a, step), s) <==> !Doubles(a, step, s)
  {
    var a' := Next(a, step);
    if Doubles(a, step, s) {
      var q: RuntimeID :| Open(a, q, s);
      assert Open(a', q, s) && Open(a', step.runtime, s);
    } else if (step.BuildCandidate? || step.BuildResumed?) && step.session == s {
      BuildsAlone(a, step, s);
    } else {
      OpensNothing(a, step, s);
    }
  }

  /** Whoever is open before such a step is the candidate or the holder, so nobody is when the step does not double. */
  lemma {:induction false} BuildsAlone(a: App, step: Step, s: SessionID)
    requires Inv(a) && Enabled(a, step) && !Doubles(a, step, s)
    requires (step.BuildCandidate? && step.session == s) || (step.BuildResumed? && step.session == s)
    ensures forall q: RuntimeID :: !Open(a, q, s)
    ensures AtMostOneOpen(Next(a, step), s)
  {
    assert forall q: RuntimeID :: Open(a, q, s) ==> IsCandidate(a, q) || Holder(a.registry, s) == Some(q);
    assert forall q: RuntimeID :: Open(Next(a, step), q, s) ==> q == step.runtime || Open(a, q, s);
  }

  /** Every other step opens no Runtime for this Session. */
  lemma {:induction false} OpensNothing(a: App, step: Step, s: SessionID)
    requires Enabled(a, step)
    requires step.BuildCandidate? ==> step.session != s
    requires step.BuildResumed? ==> step.session != s
    ensures forall q: RuntimeID :: Open(Next(a, step), q, s) ==> Open(a, q, s)
  {
  }

  /** No successor is constructed before its predecessor has finished closing: when a resume builds a Runtime, and when
      add accepts a candidate, every Runtime the registry had taken over for that Session is closed. */
  lemma {:induction false} SuccessorWaits(apps: seq<App>, steps: seq<Step>, k: nat, s: SessionID, q: RuntimeID)
    requires IsRun(apps, steps) && k < |steps|
    requires steps[k].BuildResumed? ==> steps[k].session == s
    requires steps[k].Register? ==> apps[k].runtimes[steps[k].runtime].session == s && Free(apps[k].registry, s)
    requires steps[k].BuildResumed? || (steps[k].Register? && steps[k].runtime in apps[k].runtimes)
    ensures Open(apps[k], q, s) ==> IsCandidate(apps[k], q)
  {
    AlwaysInv(apps, steps, k);
    assert Enabled(apps[k], steps[k]);
  }

  /** A refused candidate never becomes routable, so whatever is opened is the one Runtime the registry holds. */
  lemma {:induction false} RoutableIsOwned(apps: seq<App>, steps: seq<Step>, k: nat, s: SessionID)
    requires IsRun(apps, steps) && k < |apps| && s in apps[k].registry.entries
    ensures var r := apps[k].registry.entries[s];
            && r in apps[k].runtimes && apps[k].runtimes[r].session == s && !IsCandidate(apps[k], r)
            && forall q :: Open(apps[k], q, s) && !IsCandidate(apps[k], q) ==> q == r
  {
    AlwaysInv(apps, steps, k);
    assert Holder(apps[k].registry, s) == Some(apps[k].registry.entries[s]);
  }

  // ---------------------------------------------------------------- two at once

  function Follow(a: App, steps: seq<Step>): (r: Option<App>)
    decreases |steps|
  {
    if steps == [] then Some(a)
    else if !Enabled(a, steps[0]) then None
    else Follow(Next(a, steps[0]), steps[1..])
  }

  /** A Session is persisted before create has built its Runtime; a resume in between builds another. */
  const Race := [Persist(1), BeginResume(1), BuildResumed(1, 8), BuildCandidate(1, 7)]

  lemma {:induction false} TwoRuntimesAtOnce()
    ensures Follow(Started, Race).Some?
    ensures var a := Follow(Started, Race).value; Open(a, 7, 1) && Open(a, 8, 1) && !AtMostOneOpen(a, 1)
  {
    var a1 := Next(Started, Race[0]);
    var a2 := Next(a1, Race[1]);
    var a3 := Next(a2, Race[2]);
    var a4 := Next(a3, Race[3]);
    assert Race[3..][1..] == [] && Race[2..][1..] == Race[3..] && Race[1..][1..] == Race[2..];
    assert Follow(a3, Race[3..]) == Some(a4);
    assert Follow(a2, Race[2..]) == Some(a4);
    assert Follow(a1, Race[1..]) == Some(a4);
    assert Follow(Started, Race) == Some(a4);
    assert Open(a4, 7, 1) && Open(a4, 8, 1);
  }
}
