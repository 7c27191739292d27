/** The bounded queue of one event subscriber (standardagent/event_stream.go). Temporary output may be dropped to
    make room; revisions may not, and a queue full of revisions ends the stream. */
module EventStream {

  const BufferLimit := 1024

  datatype Event = Chunk(text: nat) | Reset(attempt: nat) | Revision(revision: nat) {
    predicate Temporary() { Chunk? || Reset? }
  }

  /** What a subscriber holds. */
  datatype Stream = Stream(queue: seq<Event>, closed: bool, overflow: bool)

  const Fresh := Stream([], false, false)

  /** Position of the first temporary event, or the length. */
  function FirstTemporary(queue: seq<Event>): (i: nat)
    ensures i <= |queue| && (i < |queue| ==> queue[i].Temporary())
    ensures forall k :: 0 <= k < i ==> queue[k].Revision?
  {
    if queue == [] then 0
    else if queue[0].Temporary() then 0
    else
      var rest := FirstTemporary(queue[1..]);
      assert forall k :: 0 < k <= rest ==> k < |queue| ==> queue[k] == queue[1..][k - 1];
      rest + 1
  }

  function Without(queue: seq<Event>, i: nat): (r: seq<Event>)
    requires i < |queue|
  {
    queue[..i] + queue[i + 1..]
  }

  /** enqueue, for a given buffer limit. */
  function Enqueued(s: Stream, limit: nat, e: Event): (r: Stream) {
    if s.closed then s
    else if |s.queue| < limit then s.(queue := s.queue + [e])
    else if e.Temporary() then s
    else
      var i := FirstTemporary(s.queue);
      if i == |s.queue| then Stream([], true, true) else s.(queue := Without(s.queue, i) + [e])
  }

  /** An open queue with room takes any event at its end. A full one ignores temporary output, and makes room for a
      revision by dropping its oldest temporary event, or ends when it holds none. */
  lemma {:induction false} EnqueuedExact(s: Stream, limit: nat, e: Event)
    ensures var r := Enqueued(s, limit, e);
            && (s.closed ==> r == s)
            && (!s.closed && |s.queue| < limit ==> r == s.(queue := s.queue + [e]))
            && (!s.closed && |s.queue| >= limit && (e.Chunk? || e.Reset?) ==> r == s)
            && (!s.closed && |s.queue| >= limit && e.Revision?
                  && (forall i :: 0 <= i < |s.queue| ==> s.queue[i].Revision?) ==>
                  r.queue == [] && r.closed && r.overflow)
    ensures forall i :: !s.closed && |s.queue| >= limit && e.Revision? && OldestTemporary(s.queue, i) ==>
              var r := Enqueued(s, limit, e);
              && !r.closed && r.overflow == s.overflow && |r.queue| == |s.queue| && r.queue[|s.queue| - 1] == e
              && (forall k :: 0 <= k < i ==> r.queue[k] == s.queue[k])
              && (forall k :: i <= k < |s.queue| - 1 ==> r.queue[k] == s.queue[k + 1])
  {
    forall i | OldestTemporary(s.queue, i) ensures i == FirstTemporary(s.queue) {
      assert FirstTemporary(s.queue) <= i;
    }
  }

  predicate OldestTemporary(queue: seq<Event>, i: int) {
    0 <= i < |queue| && !queue[i].Revision? && forall k :: 0 <= k < i ==> queue[k].Revision?
  }

  // ---------------------------------------------------------------- the stream object

  class EventQueue {
    const limit: nat
    var queue: seq<Event>
    var closed: bool
    var overflow: bool

    function Value(): (s: Stream)
      reads this
    {
      Stream(queue, closed, overflow)
    }

    constructor (limit: nat)
      ensures this.limit == limit && Value() == Fresh
    {
      this.limit := limit;
      queue, closed, overflow := [], false, false;
    }

    /** enqueue. */
    method Enqueue(e: Event) returns (open: bool)
      modifies this
      ensures Value() == Enqueued(old(Value()), limit, e) && open == !closed
    {
      if closed { return false; }
      if |queue| >= limit {
        if e.Temporary() { return true; }
        var index := 0;
        while index < |queue| && queue[index].Revision?
          invariant 0 <= index <= |queue| && Value() == old(Value())
          invariant FirstTemporary(queue) == index + FirstTemporary(queue[index..])
        {
          assert queue[index..][1..] == queue[index + 1..];
          index := index + 1;
        }
        assert index < |queue| ==> FirstTemporary(queue[index..]) == 0;
        if index == |queue| {
          closed, overflow, queue := true, true, [];
          return false;
        }
        queue := queue[..index] + queue[index + 1..];
      }
      queue := queue + [e];
      return true;
    }

    /** Recv, when it does not have to wait. */
    method Receive() returns (e: seq<Event>)
      modifies this`queue
      ensures old(queue) != [] ==> e == [old(queue)[0]] && queue == old(queue)[1..]
      ensures old(queue) == [] ==> e == [] && queue == []
    {
      if |queue| > 0 {
        e := [queue[0]];
        queue := queue[1..];
      } else {
        e := [];
      }
    }

    /** Close and closeFromHub. */
    method Close()
      modifies this
      ensures Value() == if old(closed) then old(Value()) else Stream([], true, old(overflow))
    {
      if closed { return; }
      closed, queue := true, [];
    }
  }

  // ---------------------------------------------------------------- what a subscriber receives

  function Revisions(events: seq<Event>): (r: seq<Event>) {
    if events == [] then []
    else Revisions(events[..|events| - 1]) + if events[|events| - 1].Revision? then [events[|events| - 1]] else []
  }

  lemma {:induction false} RevisionsConcat(a: seq<Event>, b: seq<Event>)
    ensures Revisions(a + b) == Revisions(a) + Revisions(b)
  {
    if b == [] {
      assert a + b == a;
    } else {
      assert (a + b)[..|a + b| - 1] == a + b[..|b| - 1];
      RevisionsConcat(a, b[..|b| - 1]);
    }
  }

  /** The events of `a` stand in `b` at growing positions. */
  ghost predicate InOrder(a: seq<Event>, b: seq<Event>) {
    exists at: seq<nat> :: Places(a, b, at)
  }

  ghost predicate Places(a: seq<Event>, b: seq<Event>, at: seq<nat>) {
    && |at| == |a|
    && (forall i :: 0 <= i < |a| ==> at[i] < |b| && a[i] == b[at[i]])
    && (forall i, j :: 0 <= i < j < |a| ==> at[i] < at[j])
  }

  lemma {:induction false} InOrderSnoc(a: seq<Event>, b: seq<Event>, e: Event)
    requires InOrder(a, b)
    ensures InOrder(a, b + [e]) && InOrder(a + [e], b + [e])
  {
    var at: seq<nat> :| Places(a, b, at);
    assert Places(a, b + [e], at);
    assert Places(a + [e], b + [e], at + [|b|]);
  }

  lemma {:induction false} InOrderWithout(a: seq<Event>, b: seq<Event>, i: nat)
    requires InOrder(a, b) && i < |a|
    ensures InOrder(Without(a, i), b)
  {
    var at: seq<nat> :| Places(a, b, at);
    assert Places(Without(a, i), b, at[..i] + at[i + 1..]);
  }

  lemma {:induction false} InOrderFront(a: seq<Event>, c: seq<Event>, b: seq<Event>)
    requires InOrder(a + c, b)
    ensures InOrder(a, b)
  {
    var at: seq<nat> :| Places(a + c, b, at);
    forall i | 0 <= i < |a| ensures at[..|a|][i] < |b| && a[i] == b[at[..|a|][i]] {
      assert (a + c)[i] == a[i];
    }
    assert Places(a, b, at[..|a|]);
  }

  /** A subscriber's life: what was published since it subscribed and while it was open, and what it received. */
  datatype Life = Life(stream: Stream, published: seq<Event>, received: seq<Event>)

  datatype Step = Publish(event: Event) | Take | Shut

  function Next(l: Life, limit: nat, step: Step): (r: Life) {
    match step
    case Publish(e) =>
      if l.stream.closed then l else Life(Enqueued(l.stream, limit, e), l.published + [e], l.received)
    case Take =>
      if l.stream.queue == [] then l
      else Life(l.stream.(queue := l.stream.queue[1..]), l.published, l.received + [l.stream.queue[0]])
    case Shut =>
      if l.stream.closed then l else l.(stream := l.stream.(queue := [], closed := true))
  }

  function After(limit: nat, steps: seq<Step>): (r: Life) {
    if steps == [] then Life(Fresh, [], []) else Next(After(limit, steps[..|steps| - 1]), limit, steps[|steps| - 1])
  }

  /** What is received and buffered stands in publication order, and no revision is missing from it. */
  ghost predicate Delivers(received: seq<Event>, queue: seq<Event>, published: seq<Event>) {
    InOrder(received + queue, published) && Revisions(received) + Revisions(queue) == Revisions(published)
  }

  ghost predicate Delivered(received: seq<Event>, published: seq<Event>) {
    InOrder(received, published) && Revisions(received) <= Revisions(published)
  }

  /** Between publication and reception nothing is reordered and no revision is lost. */
  ghost predicate Faithful(l: Life, limit: nat) {
    && |l.stream.queue| <= limit
    && (l.stream.overflow ==> l.stream.closed)
    && if l.stream.closed then l.stream.queue == [] && Delivered(l.received, l.published)
       else Delivers(l.received, l.stream.queue, l.published)
  }

  lemma {:induction false} DropKeepsRevisions(queue: seq<Event>, i: nat)
    requires i < |queue| && queue[i].Temporary()
    ensures Revisions(Without(queue, i)) == Revisions(queue)
  {
    assert queue == queue[..i] + [queue[i]] + queue[i + 1..];
    RevisionsConcat(queue[..i] + [queue[i]], queue[i + 1..]);
    RevisionsConcat(queue[..i], [queue[i]]);
    RevisionsConcat(queue[..i], queue[i + 1..]);
    RevisionsOne(queue[i]);
  }

  lemma {:induction false} RevisionsOne(e: Event)
    ensures Revisions([e]) == if e.Revision? then [e] else []
  {
    assert [e][..0] == [];
  }

  lemma {:induction false} RevisionsSnoc(s: seq<Event>, e: Event)
    ensures Revisions(s + [e]) == Revisions(s) + if e.Revision? then [e] else []
  {
    RevisionsConcat(s, [e]);
    RevisionsOne(e);
  }

  lemma {:induction false} Assoc(a: seq<Event>, b: seq<Event>, c: seq<Event>)
    ensures (a + b) + c == a + (b + c)
  {
  }

  lemma {:induction false} DeliversAppend(r: seq<Event>, q: seq<Event>, p: seq<Event>, e: Event)
    requires Delivers(r, q, p)
    ensures Delivers(r, q + [e], p + [e])
  {
    hide InOrder;
    hide Revisions;
    InOrderSnoc(r + q, p, e);
    Assoc(r, q, [e]);
    RevisionsSnoc(p, e);
    RevisionsSnoc(q, e);
    Assoc(Revisions(r), Revisions(q), if e.Revision? then [e] else []);
  }

  lemma {:induction false} DeliversIgnore(r: seq<Event>, q: seq<Event>, p: seq<Event>, e: Event)
    requires Delivers(r, q, p) && e.Temporary()
    ensures Delivers(r, q, p + [e])
  {
    InOrderSnoc(r + q, p, e);
    RevisionsSnoc(p, e);
  }

  lemma {:induction false} DeliversDrop(r: seq<Event>, q: seq<Event>, p: seq<Event>, i: nat)
    requires Delivers(r, q, p) && i < |q| && q[i].Temporary()
    ensures Delivers(r, Without(q, i), p)
  {
    InOrderWithout(r + q, p, |r| + i);
    assert Without(r + q, |r| + i) == r + Without(q, i);
    DropKeepsRevisions(q, i);
    hide InOrder;
    hide Revisions;
  }

  lemma {:induction false} DeliversTake(r: seq<Event>, q: seq<Event>, p: seq<Event>)
    requires Delivers(r, q, p) && q != []
    ensures Delivers(r + [q[0]], q[1..], p)
  {
    hide InOrder;
    hide Revisions;
    var head := [q[0]];
    assert head + q[1..] == q;
    Assoc(r, head, q[1..]);
    RevisionsConcat(r, head);
    RevisionsConcat(head, q[1..]);
    Assoc(Revisions(r), Revisions(head), Revisions(q[1..]));
  }

  /** Whatever is buffered may be lost with the stream. */
  lemma {:induction false} DeliversClose(r: seq<Event>, q: seq<Event>, p: seq<Event>)
    requires Delivers(r, q, p)
    ensures Delivered(r, p)
  {
    InOrderFront(r, q, p);
  }

  lemma {:induction false} DeliveredMore(r: seq<Event>, p: seq<Event>, e: Event)
    requires Delivered(r, p)
    ensures Delivered(r, p + [e])
  {
    InOrderSnoc(r, p, e);
    RevisionsSnoc(p, e);
  }

  lemma {:induction false} PublishKeeps(l: Life, limit: nat, e: Event)
    requires limit >= 1 && Faithful(l, limit) && !l.stream.closed
    ensures Faithful(Next(l, limit, Publish(e)), limit)
    ensures Next(l, limit, Publish(e)).stream.overflow ==>
              && e.Revision? && |l.stream.queue| == limit
              && forall i :: 0 <= i < |l.stream.queue| ==> l.stream.queue[i].Revision?
  {
    var q, r, p := l.stream.queue, l.received, l.published;
    hide Delivers;
    hide Delivered;
    if |q| < limit {
      DeliversAppend(r, q, p, e);
    } else if e.Temporary() {
      DeliversIgnore(r, q, p, e);
    } else if FirstTemporary(q) < |q| {
      DeliversDrop(r, q, p, FirstTemporary(q));
      DeliversAppend(r, Without(q, FirstTemporary(q)), p, e);
    } else {
      DeliversClose(r, q, p);
      DeliveredMore(r, p, e);
    }
  }

  lemma {:induction false} TakeKeeps(l: Life, limit: nat)
    requires Faithful(l, limit)
    ensures Faithful(Next(l, limit, Take), limit)
  {
    hide Delivers;
    if l.stream.queue != [] {
      DeliversTake(l.received, l.stream.queue, l.published);
    }
  }

  lemma {:induction false} ShutKeeps(l: Life, limit: nat)
    requires Faithful(l, limit)
    ensures Faithful(Next(l, limit, Shut), limit)
  {
    if !l.stream.closed {
      DeliversClose(l.received, l.stream.queue, l.published);
    }
  }

  lemma {:induction false} NothingDelivered()
    ensures Delivers([], [], [])
  {
    var none: seq<Event> := [];
    assert Places(none + none, none, []);
  }

  /** Over every interleaving of publishing, receiving and closing. */
  lemma {:induction false} AlwaysFaithful(limit: nat, steps: seq<Step>)
    requires limit >= 1
    ensures Faithful(After(limit, steps), limit)
  {
    if steps == [] {
      NothingDelivered();
    } else {
      var l := After(limit, steps[..|steps| - 1]);
      AlwaysFaithful(limit, steps[..|steps| - 1]);
      hide Faithful;
      match steps[|steps| - 1] {
        case Publish(e) => if !l.stream.closed { PublishKeeps(l, limit, e); }
        case Take => TakeKeeps(l, limit);
        case Shut => ShutKeeps(l, limit);
      }
    }
  }

  /** A subscriber's queue is bounded, the revisions it has received are a gap-free prefix of those published,
      and everything it has received came in publication order. */
  lemma {:induction false} ReceivedIsPrefix(limit: nat, steps: seq<Step>)
    requires limit >= 1
    ensures var l := After(limit, steps);
            && |l.stream.queue| <= limit
            && Revisions(l.received) <= Revisions(l.published)
            && InOrder(l.received, l.published)
  {
    AlwaysFaithful(limit, steps);
    var l := After(limit, steps);
    if !l.stream.closed {
      DeliversClose(l.received, l.stream.queue, l.published);
    }
  }

  /** Nothing is lost, temporary output included, as long as no more was published than the queue can hold. */
  lemma {:induction false} NothingLostWithRoom(limit: nat, steps: seq<Step>)
    requires |After(limit, steps).published| <= limit && !After(limit, steps).stream.closed
    ensures After(limit, steps).received + After(limit, steps).stream.queue == After(limit, steps).published
    ensures !After(limit, steps).stream.overflow
  {
    if steps != [] {
      var front, step := steps[..|steps| - 1], steps[|steps| - 1];
      var l := After(limit, front);
      if !l.stream.closed {
        NothingLostWithRoom(limit, front);
        match step {
          case Publish(e) => EnqueuedExact(l.stream, limit, e);
          case Take =>
            if l.stream.queue != [] {
              assert l.stream.queue == [l.stream.queue[0]] + l.stream.queue[1..];
            }
          case Shut =>
        }
        hide Enqueued;
      }
    }
  }

  /** So for the queues the Runtime hands out. */
  lemma {:induction false} SubscriberGetsPrefix(steps: seq<Step>)
    ensures var l := After(BufferLimit, steps);
            && |l.stream.queue| <= 1024
            && Revisions(l.received) <= Revisions(l.published)
            && InOrder(l.received, l.published)
  {
    ReceivedIsPrefix(BufferLimit, steps);
  }

  /** Overflow strikes only a queue that holds nothing but revisions. */
  lemma {:induction false} OverflowMeansRevisions(limit: nat, steps: seq<Step>, step: Step)
    requires limit >= 1 && !After(limit, steps).stream.overflow && After(limit, steps + [step]).stream.overflow
    ensures step.Publish? && step.event.Revision?
    ensures |After(limit, steps).stream.queue| == limit
    ensures forall i :: 0 <= i < limit ==> After(limit, steps).stream.queue[i].Revision?
  {
    assert (steps + [step])[..|steps|] == steps;
    AlwaysFaithful(limit, steps);
    var l := After(limit, steps);
    if step.Publish? && !l.stream.closed {
      PublishKeeps(l, limit, step.event);
    }
  }
}
