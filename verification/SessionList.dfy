/** Listing Sessions newest first, page by page, while Sessions are created and updated
    (session/list.go; session/memory_store.go ListSessions). The signed cursor is its content. */
module SessionList {
  import opened SessionTypes

  datatype Entry = Entry(agent: nat, workspace: nat, updatedAt: Time, generation: nat)

  /** The listed Sessions and the index fields beside them. */
  datatype Index = Index(sessions: map<SessionID, Entry>, generation: nat, last: Time)

  // ---------------------------------------------------------------- the index

  /** nextUpdatedAt: later than the Session's own time and than every time handed out. */
  function NextUpdatedAt(last: Time, previous: Time, now: Time): (next: Time)
    ensures next > last && next > previous && next >= now
  {
    var next := if now > previous then now else previous + 1;
    if next > last then next else last + 1
  }

  function Created(ix: Index, id: SessionID, agent: nat, workspace: nat, now: Time): (r: Index)
    requires id !in ix.sessions
  {
    var updatedAt := NextUpdatedAt(ix.last, 0, now);
    Index(ix.sessions[id := Entry(agent, workspace, updatedAt, ix.generation + 1)], ix.generation + 1, updatedAt)
  }

  function Touched(ix: Index, id: SessionID, now: Time): (r: Index)
    requires id in ix.sessions
  {
    var updatedAt := NextUpdatedAt(ix.last, ix.sessions[id].updatedAt, now);
    ix.(sessions := ix.sessions[id := ix.sessions[id].(updatedAt := updatedAt)], last := updatedAt)
  }

  /** No earlier time would do. */
  lemma {:induction false} NextIsLeast(last: Time, previous: Time, now: Time, t: Time)
    requires t > last && t > previous && t >= now
    ensures NextUpdatedAt(last, previous, now) <= t
  {
  }

  /** A new Session gets the next generation and the next time, an updated one only the time, and no other Session
      changes. */
  lemma {:induction false} IndexExact(ix: Index, id: SessionID, agent: nat, workspace: nat, now: Time)
    ensures id !in ix.sessions ==>
              var c := Created(ix, id, agent, workspace, now);
              && c.generation == ix.generation + 1 && c.sessions.Keys == ix.sessions.Keys + {id}
              && c.sessions[id].agent == agent && c.sessions[id].workspace == workspace
              && c.sessions[id].generation == c.generation && c.sessions[id].updatedAt == c.last > ix.last
              && forall other :: other in ix.sessions ==> c.sessions[other] == ix.sessions[other]
    ensures id in ix.sessions ==>
              var t := Touched(ix, id, now);
              && t.generation == ix.generation && t.sessions.Keys == ix.sessions.Keys
              && t.sessions[id].(updatedAt := ix.sessions[id].updatedAt) == ix.sessions[id]
              && t.sessions[id].updatedAt == t.last > ix.last
              && forall other :: other in ix.sessions && other != id ==> t.sessions[other] == ix.sessions[other]
  {
  }

  ghost predicate Valid(ix: Index) {
    forall id :: id in ix.sessions ==>
      0 < ix.sessions[id].updatedAt <= ix.last && 0 < ix.sessions[id].generation <= ix.generation
  }

  /** What any number of creations and updates do: nothing disappears, new Sessions get new generations, and
      whatever is touched moves ahead of everything there was. */
  ghost predicate Evolves(a: Index, b: Index) {
    && a.generation <= b.generation && a.last <= b.last
    && (forall id :: id in a.sessions ==>
          && id in b.sessions && b.sessions[id].generation == a.sessions[id].generation
          && b.sessions[id].agent == a.sessions[id].agent && b.sessions[id].workspace == a.sessions[id].workspace
          && (b.sessions[id].updatedAt == a.sessions[id].updatedAt || b.sessions[id].updatedAt > a.last))
    && (forall id :: id in b.sessions && id !in a.sessions ==> b.sessions[id].generation > a.generation)
  }

  lemma {:induction false} CreateEvolves(ix: Index, id: SessionID, agent: nat, workspace: nat, now: Time)
    requires Valid(ix) && id !in ix.sessions
    ensures Valid(Created(ix, id, agent, workspace, now)) && Evolves(ix, Created(ix, id, agent, workspace, now))
  {
  }

  lemma {:induction false} TouchEvolves(ix: Index, id: SessionID, now: Time)
    requires Valid(ix) && id in ix.sessions
    ensures Valid(Touched(ix, id, now)) && Evolves(ix, Touched(ix, id, now))
  {
  }

  lemma {:induction false} EvolvesReflexive(a: Index)
    ensures Evolves(a, a)
  {
  }

  lemma {:induction false} EvolvesTransitive(a: Index, b: Index, c: Index)
    requires Evolves(a, b) && Evolves(b, c)
    ensures Evolves(a, c)
  {
  }

  /** sessionListIndex: the fields a Store keeps beside its Sessions. */
  class ListIndex {
    var generation: nat
    var created: map<SessionID, nat>
    var lastUpdatedAt: Time

    constructor ()
      ensures generation == 0 && created == map[] && lastUpdatedAt == 0
    {
      generation, created, lastUpdatedAt := 0, map[], 0;
    }

    /** The fields agree with an index of Sessions. */
    ghost predicate Describes(ix: Index)
      reads this
    {
      && generation == ix.generation && lastUpdatedAt == ix.last && created.Keys == ix.sessions.Keys
      && forall id :: id in created ==> created[id] == ix.sessions[id].generation
    }

    method TakeUpdatedAt(previous: Time, now: Time) returns (next: Time)
      modifies this`lastUpdatedAt
      ensures next == NextUpdatedAt(old(lastUpdatedAt), previous, now) && lastUpdatedAt == next
    {
      next := now;
      if next <= previous {
        next := previous + 1;
      }
      if next <= lastUpdatedAt {
        next := lastUpdatedAt + 1;
      }
      lastUpdatedAt := next;
    }

    method RecordCreate(id: SessionID, agent: nat, workspace: nat, now: Time, ghost ix: Index) returns (updatedAt: Time)
      requires Describes(ix) && id !in ix.sessions
      modifies this
      ensures Describes(Created(ix, id, agent, workspace, now))
      ensures updatedAt == Created(ix, id, agent, workspace, now).sessions[id].updatedAt
    {
      generation := generation + 1;
      created := created[id := generation];
      updatedAt := TakeUpdatedAt(0, now);
    }

    /** A commit or a recovery that changed a Session. */
    method RecordUpdate(id: SessionID, previous: Time, now: Time, ghost ix: Index) returns (updatedAt: Time)
      requires Describes(ix) && id in ix.sessions && ix.sessions[id].updatedAt == previous
      modifies this
      ensures Describes(Touched(ix, id, now))
      ensures updatedAt == Touched(ix, id, now).sessions[id].updatedAt
    {
      updatedAt := TakeUpdatedAt(previous, now);
    }
  }

  // ---------------------------------------------------------------- pages

  /** A place in the listing. */
  datatype Key = Key(updatedAt: Time, id: SessionID)

  /** The order of the listing: newest first, then by ID. */
  predicate Before(a: Key, b: Key) {
    a.updatedAt > b.updatedAt || (a.updatedAt == b.updatedAt && a.id < b.id)
  }

  function KeyOf(ix: Index, id: SessionID): (r: Key)
    requires id in ix.sessions
  {
    Key(ix.sessions[id].updatedAt, id)
  }

  datatype Scope = Scope(agent: nat, workspace: nat)
  datatype Cursor = First | After(scope: Scope, cutoff: nat, position: Key)

  const DefaultLimit := 50
  const MaxLimit := 200

  function EffectiveLimit(limit: nat): (r: nat) {
    if limit == 0 then DefaultLimit else limit
  }

  /** ListRequest.Validate and the cursor checks of paginate. */
  predicate RequestValid(ix: Index, scope: Scope, cursor: Cursor, limit: int) {
    && scope.agent != 0 && scope.workspace != 0 && 0 <= limit <= MaxLimit
    && (cursor.After? ==> cursor.scope == scope && cursor.cutoff <= ix.generation)
  }

  function Cutoff(ix: Index, cursor: Cursor): (r: nat) {
    if cursor.First? then ix.generation else cursor.cutoff
  }

  predicate Eligible(ix: Index, scope: Scope, cursor: Cursor, id: SessionID) {
    && id in ix.sessions && ix.sessions[id].agent == scope.agent && ix.sessions[id].workspace == scope.workspace
    && ix.sessions[id].generation <= Cutoff(ix, cursor)
    && (cursor.After? ==> Before(cursor.position, KeyOf(ix, id)))
  }

  predicate Sorted(keys: seq<Key>) {
    forall i, j :: 0 <= i < j < |keys| ==> Before(keys[i], keys[j])
  }

  /** The keys are those of the eligible Sessions. */
  ghost predicate Lists(ix: Index, scope: Scope, cursor: Cursor, keys: seq<Key>) {
    && (forall i :: 0 <= i < |keys| ==> Eligible(ix, scope, cursor, keys[i].id) && keys[i] == KeyOf(ix, keys[i].id))
    && (forall id :: Eligible(ix, scope, cursor, id) ==> KeyOf(ix, id) in keys)
  }

  /** What one page is: the first eligible Sessions in order, and a cursor at the last one when some remain. */
  ghost predicate IsPage(ix: Index, scope: Scope, cursor: Cursor, limit: nat, page: seq<Key>, next: Option<Cursor>) {
    exists all :: Sorted(all) && Lists(ix, scope, cursor, all) && Cut(ix, scope, cursor, limit, all, page, next)
  }

  ghost predicate Cut(ix: Index, scope: Scope, cursor: Cursor, limit: nat, all: seq<Key>, page: seq<Key>,
                      next: Option<Cursor>) {
    if |all| <= limit then page == all && next.None?
    else limit > 0 && page == all[..limit] && next == Some(After(scope, Cutoff(ix, cursor), all[limit - 1]))
  }

  /** Insertion into the sorted summaries. */
  function Insert(keys: seq<Key>, k: Key): (r: seq<Key>)
    requires Sorted(keys) && forall i :: 0 <= i < |keys| ==> keys[i].id != k.id
    ensures Sorted(r) && |r| == |keys| + 1
    ensures forall x :: x in r <==> x in keys || x == k
  {
    if keys == [] then [k]
    else if Before(k, keys[0]) then
      assert keys == [keys[0]] + keys[1..];
      [k] + keys
    else
      var rest := Insert(keys[1..], k);
      assert forall x :: x in rest ==> x in keys[1..] || x == k;
      assert keys == [keys[0]] + keys[1..];
      assert forall i :: 0 <= i < |rest| ==> Before(keys[0], rest[i]) by {
        forall i | 0 <= i < |rest| ensures Before(keys[0], rest[i]) {
          assert rest[i] in rest;
        }
      }
      [keys[0]] + rest
  }

  /** The filter and sort of paginate. The candidates come from a map, in any order. */
  method SortEligible(ix: Index, scope: Scope, cursor: Cursor) returns (keys: seq<Key>)
    ensures Sorted(keys) && Lists(ix, scope, cursor, keys)
  {
    var left := ix.sessions.Keys;
    keys := [];
    while left != {}
      invariant left <= ix.sessions.Keys
      invariant Sorted(keys)
      invariant forall i :: 0 <= i < |keys| ==>
                  keys[i].id !in left && Eligible(ix, scope, cursor, keys[i].id) && keys[i] == KeyOf(ix, keys[i].id)
      invariant forall id :: Eligible(ix, scope, cursor, id) && id !in left ==> KeyOf(ix, id) in keys
      decreases |left|
    {
      var id :| id in left;
      left := left - {id};
      if Eligible(ix, scope, cursor, id) {
        ghost var before := keys;
        keys := Insert(keys, KeyOf(ix, id));
        forall i | 0 <= i < |keys|
          ensures keys[i].id !in left && Eligible(ix, scope, cursor, keys[i].id) && keys[i] == KeyOf(ix, keys[i].id)
        {
          assert keys[i] in before || keys[i] == KeyOf(ix, id);
        }
      }
    }
  }

  /** paginate, for a request that names its scope. */
  method Paginate(ix: Index, scope: Scope, cursor: Cursor, limit: int) returns (r: Result<(seq<Key>, Option<Cursor>)>)
    ensures r.Ok? <==> RequestValid(ix, scope, cursor, limit)
    ensures r.Ok? ==> IsPage(ix, scope, cursor, EffectiveLimit(limit), r.value.0, r.value.1)
    ensures r.Ok? ==> |r.value.0| <= (if limit == 0 then 50 else limit) <= 200
    ensures r.Ok? && r.value.1.Some? ==> |r.value.0| == if limit == 0 then 50 else limit
  {
    if scope.agent == 0 || scope.workspace == 0 || limit < 0 || limit > MaxLimit { return Err(InvalidInput); }
    var size := if limit == 0 then DefaultLimit else limit;
    if cursor.After? && (cursor.scope != scope || cursor.cutoff > ix.generation) { return Err(InvalidInput); }
    var all := SortEligible(ix, scope, cursor);
    var page, next := all, None;
    if |all| > size {
      page := all[..size];
      var last := page[|page| - 1];
      next := Some(After(scope, Cutoff(ix, cursor), last));
    }
    assert Cut(ix, scope, cursor, size, all, page, next);
    return Ok((page, next));
  }

  // ---------------------------------------------------------------- what a page holds

  /** `a` is listed before `b`: it was updated later, or at the same time and has the smaller ID. */
  predicate Newer(ix: Index, a: SessionID, b: SessionID) {
    a in ix.sessions && b in ix.sessions &&
    (ix.sessions[a].updatedAt > ix.sessions[b].updatedAt
     || (ix.sessions[a].updatedAt == ix.sessions[b].updatedAt && a < b))
  }

  /** A Session of the wanted agent and workspace that existed when the listing began and lies behind the position the
      cursor was handed out at. */
  predicate Wanted(ix: Index, scope: Scope, cursor: Cursor, id: SessionID) {
    && id in ix.sessions
    && ix.sessions[id].agent == scope.agent && ix.sessions[id].workspace == scope.workspace
    && (cursor.First? ==> ix.sessions[id].generation <= ix.generation)
    && (cursor.After? ==>
          && ix.sessions[id].generation <= cursor.cutoff
          && (ix.sessions[id].updatedAt < cursor.position.updatedAt
              || (ix.sessions[id].updatedAt == cursor.position.updatedAt && cursor.position.id < id)))
  }

  /** A page holds the newest wanted Sessions, newest first, at most `limit`; when some are left its cursor continues
      behind the last one, for the same scope and the same beginning. */
  lemma {:induction false} PageExact(ix: Index, scope: Scope, cursor: Cursor, limit: nat, page: seq<Key>,
                                     next: Option<Cursor>)
    requires IsPage(ix, scope, cursor, limit, page, next)
    ensures |page| <= limit
    ensures forall i :: 0 <= i < |page| ==>
              && Wanted(ix, scope, cursor, page[i].id) && page[i].updatedAt == ix.sessions[page[i].id].updatedAt
    ensures forall i, j :: 0 <= i < j < |page| ==> Newer(ix, page[i].id, page[j].id)
    ensures forall id, i :: Wanted(ix, scope, cursor, id) && 0 <= i < |page| ==>
              id == page[i].id || Newer(ix, page[i].id, id) || exists j :: 0 <= j < i && page[j].id == id
    ensures next.None? <==> forall id :: Wanted(ix, scope, cursor, id) ==>
              exists i :: 0 <= i < |page| && page[i].id == id
    ensures next.Some? ==>
              && |page| == limit > 0 && next.value.After? && next.value.scope == scope
              && next.value.cutoff == (if cursor.First? then ix.generation else cursor.cutoff)
              && next.value.position == page[limit - 1]
  {
    var all: seq<Key> :|
      Sorted(all) && Lists(ix, scope, cursor, all) && Cut(ix, scope, cursor, limit, all, page, next);
    AllWanted(ix, scope, cursor, all);
    assert forall i :: 0 <= i < |page| ==> page[i] == all[i];
    forall id, i | Wanted(ix, scope, cursor, id) && 0 <= i < |page|
      ensures id == page[i].id || Newer(ix, page[i].id, id) || exists j :: 0 <= j < i && page[j].id == id
    {
      var k :| 0 <= k < |all| && all[k].id == id;
      if k < i {
        assert page[k].id == id;
      } else if k > i {
        assert Newer(ix, all[i].id, all[k].id);
      }
    }
    if next.None? {
      forall id | Wanted(ix, scope, cursor, id) ensures exists i :: 0 <= i < |page| && page[i].id == id {
        var k :| 0 <= k < |all| && all[k].id == id;
        assert page[k].id == id;
      }
    } else {
      var id := all[limit].id;
      forall i | 0 <= i < |page| ensures page[i].id != id {
        assert Newer(ix, all[i].id, all[limit].id);
      }
    }
    hide Lists;
    hide Wanted;
    hide Sorted;
  }

  lemma {:induction false} AllWanted(ix: Index, scope: Scope, cursor: Cursor, all: seq<Key>)
    requires Sorted(all) && Lists(ix, scope, cursor, all)
    ensures forall i :: 0 <= i < |all| ==>
              Wanted(ix, scope, cursor, all[i].id) && all[i].updatedAt == ix.sessions[all[i].id].updatedAt
    ensures forall id :: Wanted(ix, scope, cursor, id) ==> exists k :: 0 <= k < |all| && all[k].id == id
    ensures forall i, j :: 0 <= i < j < |all| ==> Newer(ix, all[i].id, all[j].id)
  {
    forall id | Wanted(ix, scope, cursor, id) ensures exists k :: 0 <= k < |all| && all[k].id == id {
      assert Eligible(ix, scope, cursor, id);
      assert KeyOf(ix, id) in all;
    }
  }

  // ---------------------------------------------------------------- one traversal

  /** One request of a traversal and its answer. */
  datatype Visit = Visit(ix: Index, limit: nat, page: seq<Key>, next: Option<Cursor>)

  ghost predicate Resumes(scope: Scope, v: Visit, w: Visit) {
    && v.next.Some? && Evolves(v.ix, w.ix) && Valid(w.ix)
    && IsPage(w.ix, scope, v.next.value, w.limit, w.page, w.next)
  }

  /** Pages requested one after the other, each with the cursor of the one before, while Sessions come and
      change. */
  ghost predicate IsTraversal(scope: Scope, visits: seq<Visit>) {
    && |visits| > 0 && Valid(visits[0].ix)
    && IsPage(visits[0].ix, scope, First, visits[0].limit, visits[0].page, visits[0].next)
    && forall k :: 0 < k < |visits| ==> Resumes(scope, visits[k - 1], visits[k])
  }

  /** What happens to the index between two pages: Sessions are created and commits touch them. */
  datatype Activity =
    | Creates(id: SessionID, agent: nat, workspace: nat, now: Time)
    | Commits(id: SessionID, now: Time)

  /** A creation under a known ID and a commit to an unknown Session are refused. */
  function Happens(ix: Index, x: Activity): (r: Index) {
    match x
    case Creates(id, agent, workspace, now) => if id in ix.sessions then ix else Created(ix, id, agent, workspace, now)
    case Commits(id, now) => if id in ix.sessions then Touched(ix, id, now) else ix
  }

  function Evolved(ix: Index, activity: seq<Activity>): (r: Index) {
    if activity == [] then ix else Happens(Evolved(ix, activity[..|activity| - 1]), activity[|activity| - 1])
  }

  lemma {:induction false} ActivityEvolves(ix: Index, activity: seq<Activity>)
    requires Valid(ix)
    ensures Valid(Evolved(ix, activity)) && Evolves(ix, Evolved(ix, activity))
  {
    hide Valid;
    hide Evolves;
    if activity == [] {
      EvolvesReflexive(ix);
    } else {
      var before, x := Evolved(ix, activity[..|activity| - 1]), activity[|activity| - 1];
      ActivityEvolves(ix, activity[..|activity| - 1]);
      EvolvesReflexive(before);
      match x {
        case Creates(id, agent, workspace, now) =>
          if id !in before.sessions { CreateEvolves(before, id, agent, workspace, now); }
        case Commits(id, now) =>
          if id in before.sessions { TouchEvolves(before, id, now); }
      }
      EvolvesTransitive(ix, before, Evolved(ix, activity));
    }
  }

  /** A page request, after whatever happened since the one before. */
  datatype Request = Request(activity: seq<Activity>, limit: nat, page: seq<Key>, next: Option<Cursor>)

  function IndexAt(ix: Index, requests: seq<Request>, k: nat): (r: Index)
    requires k < |requests|
  {
    Evolved(if k == 0 then ix else IndexAt(ix, requests, k - 1), requests[k].activity)
  }

  function VisitsOf(ix: Index, requests: seq<Request>): (r: seq<Visit>)
    ensures |r| == |requests|
    ensures forall k :: 0 <= k < |r| ==>
              r[k] == Visit(IndexAt(ix, requests, k), requests[k].limit, requests[k].page, requests[k].next)
  {
    seq(|requests|, k requires 0 <= k < |requests| =>
      Visit(IndexAt(ix, requests, k), requests[k].limit, requests[k].page, requests[k].next))
  }

  /** The page a Store returns for a request made with the cursor of the one before. */
  ghost predicate AnswersAt(scope: Scope, ix: Index, requests: seq<Request>, k: nat)
    requires k < |requests|
  {
    var r := requests[k];
    && (k > 0 ==> requests[k - 1].next.Some?)
    && IsPage(IndexAt(ix, requests, k), scope, if k == 0 then First else requests[k - 1].next.value,
              r.limit, r.page, r.next)
  }

  ghost predicate Answers(scope: Scope, ix: Index, requests: seq<Request>) {
    |requests| > 0 && forall k: nat :: k < |requests| ==> AnswersAt(scope, ix, requests, k)
  }

  lemma {:induction false} RequestResumes(scope: Scope, ix: Index, requests: seq<Request>, k: nat)
    requires Valid(ix) && 0 < k < |requests| && AnswersAt(scope, ix, requests, k)
    ensures Resumes(scope, VisitsOf(ix, requests)[k - 1], VisitsOf(ix, requests)[k])
  {
    hide IsPage;
    hide Valid;
    hide Evolves;
    hide Evolved;
    IndexesValid(ix, requests, k - 1);
    ActivityEvolves(IndexAt(ix, requests, k - 1), requests[k].activity);
  }

  /** So any interleaving of creations, commits and page requests is a traversal. */
  lemma {:induction false} RequestsTraverse(scope: Scope, ix: Index, requests: seq<Request>)
    requires Valid(ix) && Answers(scope, ix, requests)
    ensures IsTraversal(scope, VisitsOf(ix, requests))
  {
    hide IsPage;
    hide Valid;
    hide IndexAt;
    hide Resumes;
    IndexesValid(ix, requests, 0);
    assert AnswersAt(scope, ix, requests, 0);
    hide AnswersAt;
    forall k: nat | 0 < k < |requests|
      ensures Resumes(scope, VisitsOf(ix, requests)[k - 1], VisitsOf(ix, requests)[k])
    {
      RequestResumes(scope, ix, requests, k);
    }
  }

  lemma {:induction false} IndexesValid(ix: Index, requests: seq<Request>, k: nat)
    requires Valid(ix) && k < |requests|
    ensures Valid(IndexAt(ix, requests, k))
  {
    hide Valid;
    if k == 0 {
      ActivityEvolves(ix, requests[0].activity);
    } else {
      IndexesValid(ix, requests, k - 1);
      ActivityEvolves(IndexAt(ix, requests, k - 1), requests[k].activity);
    }
  }

  /** The cursor a page was requested with. */
  function CursorOf(visits: seq<Visit>, k: nat): (r: Cursor)
    requires k < |visits| && (k > 0 ==> visits[k - 1].next.Some?)
  {
    if k == 0 then First else visits[k - 1].next.value
  }

  lemma {:induction false} PageFacts(ix: Index, scope: Scope, cursor: Cursor, limit: nat, page: seq<Key>,
                                     next: Option<Cursor>)
    requires IsPage(ix, scope, cursor, limit, page, next)
    ensures Sorted(page)
    ensures forall i :: 0 <= i < |page| ==> Eligible(ix, scope, cursor, page[i].id) && page[i] == KeyOf(ix, page[i].id)
    ensures next.Some? ==> |page| > 0 && next == Some(After(scope, Cutoff(ix, cursor), page[|page| - 1]))
    ensures forall id :: Eligible(ix, scope, cursor, id) ==>
              KeyOf(ix, id) in page || (next.Some? && Before(next.value.position, KeyOf(ix, id)))
  {
    var all :| Sorted(all) && Lists(ix, scope, cursor, all) && Cut(ix, scope, cursor, limit, all, page, next);
    assert forall n :: 0 <= n < |page| ==> page[n] == all[n];
    forall id | Eligible(ix, scope, cursor, id) && KeyOf(ix, id) !in page
      ensures next.Some? && Before(next.value.position, KeyOf(ix, id))
    {
      var i :| 0 <= i < |all| && all[i] == KeyOf(ix, id);
      assert |all| > limit;
    }
  }

  /** Every page of a traversal: what it was requested with, and how it relates to the first. */
  lemma {:induction false} VisitFacts(scope: Scope, visits: seq<Visit>, k: nat)
    requires IsTraversal(scope, visits) && k < |visits|
    ensures Valid(visits[k].ix) && Evolves(visits[0].ix, visits[k].ix)
    ensures k > 0 ==> visits[k - 1].next.Some? && visits[k - 1].next.value.After?
    ensures IsPage(visits[k].ix, scope, CursorOf(visits, k), visits[k].limit, visits[k].page, visits[k].next)
    ensures Cutoff(visits[k].ix, CursorOf(visits, k)) == visits[0].ix.generation
    ensures visits[k].next.Some? ==> visits[k].next.value.After?
  {
    if k == 0 {
      PageFacts(visits[0].ix, scope, First, visits[0].limit, visits[0].page, visits[0].next);
    } else {
      VisitFacts(scope, visits, k - 1);
      PageFacts(visits[k - 1].ix, scope, CursorOf(visits, k - 1), visits[k - 1].limit, visits[k - 1].page,
                visits[k - 1].next);
      assert Resumes(scope, visits[k - 1], visits[k]);
      EvolvesTransitive(visits[0].ix, visits[k - 1].ix, visits[k].ix);
      PageFacts(visits[k].ix, scope, CursorOf(visits, k), visits[k].limit, visits[k].page, visits[k].next);
    }
  }

  /** The cursor of a page is accepted whenever the traversal goes on. */
  lemma {:induction false} CursorStaysValid(scope: Scope, visits: seq<Visit>, k: nat, later: Index, limit: nat)
    requires IsTraversal(scope, visits) && k < |visits| && visits[k].next.Some? && Evolves(visits[k].ix, later)
    requires scope.agent != 0 && scope.workspace != 0 && limit <= MaxLimit
    ensures RequestValid(later, scope, visits[k].next.value, limit)
  {
    VisitFacts(scope, visits, k);
    PageFacts(visits[k].ix, scope, CursorOf(visits, k), visits[k].limit, visits[k].page, visits[k].next);
  }

  /** Sessions created after the first page never appear. */
  lemma {:induction false} OnlyFirstSessions(scope: Scope, visits: seq<Visit>, k: nat, i: nat)
    requires IsTraversal(scope, visits) && k < |visits| && i < |visits[k].page|
    ensures visits[k].page[i].id in visits[0].ix.sessions
  {
    VisitFacts(scope, visits, k);
    PageFacts(visits[k].ix, scope, CursorOf(visits, k), visits[k].limit, visits[k].page, visits[k].next);
  }

  /** Positions strictly advance: a page comes after the position its cursor names. */
  lemma {:induction false} PositionsAdvance(scope: Scope, visits: seq<Visit>, j: nat, k: nat, i: nat)
    requires IsTraversal(scope, visits) && j < k < |visits| && i < |visits[k].page|
    ensures visits[j].next.Some? && visits[j].next.value.After?
    ensures Before(visits[j].next.value.position, visits[k].page[i])
    decreases k
  {
    hide IsTraversal;
    hide IsPage;
    hide Evolves;
    hide Valid;
    VisitFacts(scope, visits, k);
    PageFacts(visits[k].ix, scope, CursorOf(visits, k), visits[k].limit, visits[k].page, visits[k].next);
    if j < k - 1 {
      VisitPage(scope, visits, k - 1);
      PositionsAdvance(scope, visits, j, k - 1, |visits[k - 1].page| - 1);
    }
  }

  lemma {:induction false} EvolvesBetween(scope: Scope, visits: seq<Visit>, j: nat, k: nat)
    requires IsTraversal(scope, visits) && j <= k < |visits|
    ensures Evolves(visits[j].ix, visits[k].ix)
    decreases k
  {
    hide IsPage;
    hide Valid;
    hide Evolves;
    if j < k {
      EvolvesBetween(scope, visits, j, k - 1);
      assert Resumes(scope, visits[k - 1], visits[k]);
      EvolvesTransitive(visits[j].ix, visits[k - 1].ix, visits[k].ix);
    } else {
      EvolvesReflexive(visits[j].ix);
    }
  }

  /** No Session is returned twice, however Sessions change between pages. */
  lemma {:induction false} NeverTwice(scope: Scope, visits: seq<Visit>, j: nat, a: nat, k: nat, b: nat)
    requires IsTraversal(scope, visits) && j <= k < |visits| && a < |visits[j].page| && b < |visits[k].page|
    requires (j < k || a != b)
    ensures visits[j].page[a].id != visits[k].page[b].id
  {
    hide IsTraversal;
    hide IsPage;
    hide Evolves;
    hide Valid;
    hide Eligible;
    hide Before;
    VisitPage(scope, visits, j);
    VisitPage(scope, visits, k);
    var v, w := visits[j], visits[k];
    if j < k {
      PositionsAdvance(scope, visits, j, k, b);
      EvolvesBetween(scope, visits, j, k);
      LaterKeyDiffers(v.ix, w.ix, v.page[a], v.page[|v.page| - 1], w.page[b]);
    } else {
      assert Before(v.page[a], v.page[b]) || Before(v.page[b], v.page[a]);
      SameIdSameKey(v.ix, v.page[a], v.page[b]);
    }
  }

  /** What a page of a traversal shows. */
  lemma {:induction false} VisitPage(scope: Scope, visits: seq<Visit>, k: nat)
    requires IsTraversal(scope, visits) && k < |visits|
    ensures var v := visits[k];
            && Valid(v.ix) && Sorted(v.page)
            && (forall i :: 0 <= i < |v.page| ==>
                  v.page[i].id in v.ix.sessions && v.page[i] == KeyOf(v.ix, v.page[i].id))
            && (v.next.Some? ==> |v.page| > 0 && v.next.value.After? && v.next.value.position == v.page[|v.page| - 1])
  {
    VisitFacts(scope, visits, k);
    PageFacts(visits[k].ix, scope, CursorOf(visits, k), visits[k].limit, visits[k].page, visits[k].next);
  }

  /** A Session listed at or before a position is not the one found behind that position later on: unchanged it
      is still ahead, changed it has moved to the front. */
  lemma {:induction false} LaterKeyDiffers(a: Index, b: Index, x: Key, position: Key, y: Key)
    requires Valid(a) && Evolves(a, b) && x.id in a.sessions && y.id in b.sessions && position.id in a.sessions
    requires x == KeyOf(a, x.id) && y == KeyOf(b, y.id) && position == KeyOf(a, position.id)
    requires (x == position || Before(x, position)) && Before(position, y)
    ensures x.id != y.id
  {
  }

  lemma {:induction false} SameIdSameKey(ix: Index, x: Key, y: Key)
    requires x.id in ix.sessions && y.id in ix.sessions && x == KeyOf(ix, x.id) && y == KeyOf(ix, y.id)
    ensures x.id == y.id <==> x == y
    ensures !Before(x, x)
  {
  }

  /** A Session unchanged at a later page was unchanged at every page before. */
  lemma {:induction false} UnchangedBetween(scope: Scope, visits: seq<Visit>, k: nat, m: nat, id: SessionID)
    requires IsTraversal(scope, visits) && k <= m < |visits| && id in visits[0].ix.sessions
    requires id in visits[m].ix.sessions && visits[m].ix.sessions[id].updatedAt == visits[0].ix.sessions[id].updatedAt
    ensures id in visits[k].ix.sessions && KeyOf(visits[k].ix, id) == KeyOf(visits[0].ix, id)
  {
    VisitFacts(scope, visits, k);
    EvolvesBetween(scope, visits, k, m);
  }

  /** Until an unchanged Session is returned, it lies behind the cursor. */
  lemma {:induction false} ReturnedOrAhead(scope: Scope, visits: seq<Visit>, k: nat, m: nat, id: SessionID)
    requires IsTraversal(scope, visits) && k <= m < |visits| && Eligible(visits[0].ix, scope, First, id)
    requires id in visits[m].ix.sessions && visits[m].ix.sessions[id].updatedAt == visits[0].ix.sessions[id].updatedAt
    ensures (exists j :: 0 <= j <= k && KeyOf(visits[0].ix, id) in visits[j].page)
            || (visits[k].next.Some? && visits[k].next.value.After?
                  && Before(visits[k].next.value.position, KeyOf(visits[0].ix, id)))
  {
    VisitFacts(scope, visits, k);
    UnchangedBetween(scope, visits, k, m, id);
    var v := visits[k];
    PageFacts(v.ix, scope, CursorOf(visits, k), v.limit, v.page, v.next);
    if k > 0 {
      ReturnedOrAhead(scope, visits, k - 1, m, id);
      if j :| 0 <= j <= k - 1 && KeyOf(visits[0].ix, id) in visits[j].page {
        return;
      }
      assert Eligible(v.ix, scope, CursorOf(visits, k), id);
    }
  }

  /** When the cursor is empty, every Session that was there at the first page and has not been updated since has
      been returned; by NeverTwice, once. */
  lemma {:induction false} EveryUnchangedOnce(scope: Scope, visits: seq<Visit>, id: SessionID) returns (k: nat, i: nat)
    requires IsTraversal(scope, visits) && visits[|visits| - 1].next.None?
    requires Eligible(visits[0].ix, scope, First, id)
    requires var last := visits[|visits| - 1].ix;
             id in last.sessions && last.sessions[id].updatedAt == visits[0].ix.sessions[id].updatedAt
    ensures k < |visits| && i < |visits[k].page| && visits[k].page[i].id == id
    ensures forall k', i' :: 0 <= k' < |visits| && 0 <= i' < |visits[k'].page| && visits[k'].page[i'].id == id ==>
              k' == k && i' == i
  {
    ReturnedOrAhead(scope, visits, |visits| - 1, |visits| - 1, id);
    k :| 0 <= k <= |visits| - 1 && KeyOf(visits[0].ix, id) in visits[k].page;
    i :| 0 <= i < |visits[k].page| && visits[k].page[i] == KeyOf(visits[0].ix, id);
    forall k', i' | 0 <= k' < |visits| && 0 <= i' < |visits[k'].page| && visits[k'].page[i'].id == id
      ensures k' == k && i' == i
    {
      if k' < k || (k' == k && i' != i) {
        NeverTwice(scope, visits, k', i', k, i);
      } else if k < k' {
        NeverTwice(scope, visits, k, i, k', i');
      }
    }
  }
}
