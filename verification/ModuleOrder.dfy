/** Stable topological ordering of modules (dependency.go, orderModules).

    A graph is given by the set of providers of every module, modules being numbered in installation
    order. The order found is the lexicographically least one that puts providers first; when there is none,
    the graph has a cycle. */
module ModuleOrder {

  /** providers[i] are the modules that module i requires. No module requires itself. */
  type Graph = seq<set<nat>>

  predicate IsGraph(g: Graph) {
    forall i, p :: 0 <= i < |g| && p in g[i] ==> p < |g| && p != i
  }

  function Elems(s: seq<nat>): (r: set<nat>) {
    set i | 0 <= i < |s| :: s[i]
  }

  predicate Distinct(s: seq<nat>) {
    forall i, j :: 0 <= i < j < |s| ==> s[i] != s[j]
  }

  /** Not yet emitted, and all providers emitted. */
  predicate Candidate(g: Graph, done: seq<nat>, i: nat) {
    i < |g| && i !in Elems(done) && g[i] <= Elems(done)
  }

  predicate Topological(g: Graph, order: seq<nat>) {
    && |order| == |g| && Distinct(order)
    && forall k :: 0 <= k < |order| ==> Candidate(g, order[..k], order[k])
  }

  /** `a` comes before or is `b` in the dictionary order of equally long sequences. */
  ghost predicate LexLeq(a: seq<nat>, b: seq<nat>) {
    a == b || exists k :: 0 <= k < |a| && k < |b| && a[..k] == b[..k] && a[k] < b[k]
  }

  /** Modules each of which requires the one before it. */
  ghost predicate IsChain(g: Graph, c: seq<nat>) {
    && |c| > 0
    && (forall k :: 0 <= k < |c| ==> c[k] < |g|)
    && (forall k :: 0 <= k < |c| - 1 ==> c[k] in g[c[k + 1]])
  }

  /** A chain whose first module requires the last. */
  ghost predicate IsCycle(g: Graph, c: seq<nat>) {
    IsChain(g, c) && c[|c| - 1] in g[c[0]]
  }

  ghost predicate HasCycle(g: Graph) {
    exists c :: IsCycle(g, c)
  }

  // ---------------------------------------------------------------- the greedy choice is the least order

  ghost predicate Least(g: Graph, done: seq<nat>, i: nat) {
    Candidate(g, done, i) && forall j :: 0 <= j < i ==> !Candidate(g, done, j)
  }

  ghost predicate Greedy(g: Graph, order: seq<nat>) {
    forall k :: 0 <= k < |order| ==> Least(g, order[..k], order[k])
  }

  lemma {:induction false} GreedyIsTopological(g: Graph, order: seq<nat>)
    requires Greedy(g, order) && |order| == |g|
    ensures Topological(g, order)
  {
    forall i, j | 0 <= i < j < |order| ensures order[i] != order[j] {
      assert Least(g, order[..j], order[j]);
      assert order[..j][i] == order[i];
    }
    forall k | 0 <= k < |order| ensures Candidate(g, order[..k], order[k]) {
      assert Least(g, order[..k], order[k]);
    }
  }

  /** Where two sequences first differ. */
  lemma {:induction false} FirstDifference(a: seq<nat>, b: seq<nat>) returns (k: nat)
    requires |a| == |b| && a != b
    ensures k < |a| && a[..k] == b[..k] && a[k] != b[k]
  {
    if a[0] != b[0] {
      k := 0;
    } else {
      assert a == [a[0]] + a[1..] && b == [b[0]] + b[1..];
      k := FirstDifference(a[1..], b[1..]);
      assert a[..k + 1] == [a[0]] + a[1..][..k] && b[..k + 1] == [b[0]] + b[1..][..k];
      k := k + 1;
    }
  }

  lemma {:induction false} GreedyIsLeast(g: Graph, order: seq<nat>, other: seq<nat>)
    requires Greedy(g, order) && |order| == |g| && Topological(g, other)
    ensures LexLeq(order, other)
  {
    if order != other {
      var k := FirstDifference(order, other);
      assert Candidate(g, other[..k], other[k]);
      assert Least(g, order[..k], order[k]);
    }
  }

  // ---------------------------------------------------------------- no order means a cycle

  /** Along a topological order a chain only moves forward, so it never closes. */
  lemma {:induction false} ChainNeverCloses(g: Graph, order: seq<nat>, c: seq<nat>)
    requires Topological(g, order) && IsChain(g, c)
    ensures c[|c| - 1] !in g[c[0]]
  {
    AllOrdered(g, order);
    ChainClimbs(g, order, c, |c| - 1);
    if c[|c| - 1] in g[c[0]] {
      ProviderFirst(g, order, Position(order, c[|c| - 1]), Position(order, c[0]));
    }
  }

  /** A topological order contains every module. */
  lemma {:induction false} AllOrdered(g: Graph, order: seq<nat>)
    requires Topological(g, order)
    ensures forall i: nat :: i < |g| ==> i in order
  {
    forall k | 0 <= k < |order| ensures order[k] < |g| {
      assert Candidate(g, order[..k], order[k]);
    }
    DistinctFills(order, |g|);
  }

  ghost function Below(n: nat): (r: set<nat>)
    ensures |r| == n && forall i: nat :: i in r <==> i < n
  {
    if n == 0 then {} else Below(n - 1) + {n - 1}
  }

  lemma {:induction false} ElemsSnoc(s: seq<nat>)
    requires s != []
    ensures Elems(s) == Elems(s[..|s| - 1]) + {s[|s| - 1]}
    ensures Distinct(s) ==> s[|s| - 1] !in Elems(s[..|s| - 1])
  {
    var front := s[..|s| - 1];
    assert forall i :: 0 <= i < |front| ==> front[i] == s[i];
  }

  lemma {:induction false} DistinctSize(s: seq<nat>)
    requires Distinct(s)
    ensures |Elems(s)| == |s|
  {
    if s != [] {
      var front := s[..|s| - 1];
      DistinctSize(front);
      ElemsSnoc(s);
    }
  }

  lemma {:induction false} SubsetSize(a: set<nat>, b: set<nat>)
    requires a <= b
    ensures |a| <= |b| && (|a| == |b| ==> a == b)
  {
    if a != {} {
      var x :| x in a;
      SubsetSize(a - {x}, b - {x});
      assert a == (a - {x}) + {x} && b == (b - {x}) + {x};
    }
  }

  lemma {:induction false} DistinctFills(s: seq<nat>, n: nat)
    requires Distinct(s) && forall k :: 0 <= k < |s| ==> s[k] < n
    ensures |s| <= n && (|s| == n ==> forall i: nat :: i < n ==> i in s)
  {
    DistinctSize(s);
    assert Elems(s) <= Below(n);
    SubsetSize(Elems(s), Below(n));
    if |s| == n {
      forall i: nat | i < n ensures i in s {
        assert i in Elems(s);
      }
    }
  }

  ghost function Position(order: seq<nat>, i: nat): (k: nat)
    requires i in order
    ensures k < |order| && order[k] == i
  {
    var k :| 0 <= k < |order| && order[k] == i;
    k
  }

  lemma {:induction false} ProviderFirst(g: Graph, order: seq<nat>, p: nat, k: nat)
    requires Topological(g, order) && k < |order| && p < |order| && order[k] < |g| && order[p] in g[order[k]]
    ensures p < k
  {
    assert Candidate(g, order[..k], order[k]);
    assert order[p] in Elems(order[..k]);
    var q :| 0 <= q < k && order[..k][q] == order[p];
    assert order[q] == order[p];
  }

  lemma {:induction false} ChainClimbs(g: Graph, order: seq<nat>, c: seq<nat>, k: nat)
    requires Topological(g, order) && IsChain(g, c) && k < |c|
    requires forall i: nat :: i < |g| ==> i in order
    ensures Position(order, c[0]) <= Position(order, c[k])
  {
    if k > 0 {
      ChainClimbs(g, order, c, k - 1);
      assert c[k - 1] in g[c[k - 1 + 1]];
      ProviderFirst(g, order, Position(order, c[k - 1]), Position(order, c[k]));
    }
  }

  /** Going from provider to provider among modules that can never be emitted. */
  ghost predicate IsWalk(g: Graph, done: seq<nat>, w: seq<nat>) {
    && (forall k :: 0 <= k < |w| ==> w[k] < |g| && w[k] !in Elems(done))
    && (forall k :: 0 <= k < |w| - 1 ==> w[k] in g[w[k + 1]])
  }

  ghost predicate Stuck(g: Graph, done: seq<nat>) {
    forall i: nat :: i < |g| ==> !Candidate(g, done, i)
  }

  lemma {:induction false} LongWalk(g: Graph, done: seq<nat>, start: nat, n: nat) returns (w: seq<nat>)
    requires IsGraph(g) && Stuck(g, done) && start < |g| && start !in Elems(done)
    ensures IsWalk(g, done, w) && |w| == n + 1
  {
    if n == 0 {
      w := [start];
    } else {
      var v := LongWalk(g, done, start, n - 1);
      assert !Candidate(g, done, v[0]);
      var p :| p in g[v[0]] && p !in Elems(done);
      w := [p] + v;
    }
  }

  /** A walk longer than the graph comes back to where it has been. */
  lemma {:induction false} StuckHasCycle(g: Graph, done: seq<nat>, start: nat)
    requires IsGraph(g) && Stuck(g, done) && start < |g| && start !in Elems(done)
    ensures HasCycle(g)
  {
    var w := LongWalk(g, done, start, |g|);
    if Distinct(w) {
      DistinctFills(w, |g|);
    } else {
      var i, j :| 0 <= i < j < |w| && w[i] == w[j];
      var c := w[i..j];
      assert w[j - 1] in g[w[j - 1 + 1]];
      forall k | 0 <= k < |c| - 1 ensures c[k] in g[c[k + 1]] {
        assert w[i + k] in g[w[i + k + 1]];
      }
      assert IsCycle(g, c);
    }
  }

  // ---------------------------------------------------------------- the algorithm

  /** The consumers of a module: its outgoing edges. */
  function Consumers(g: Graph, p: nat): (r: set<nat>) {
    set c | 0 <= c < |g| && p in g[c]
  }

  /** indegree counts the providers that are still missing. */
  ghost predicate CountsMissing(g: Graph, done: set<nat>, indegree: seq<int>) {
    |indegree| == |g| && forall i :: 0 <= i < |g| ==> indegree[i] == |g[i] - done|
  }

  method CountProviders(g: Graph) returns (indegree: array<int>)
    ensures fresh(indegree) && CountsMissing(g, {}, indegree[..])
  {
    indegree := new int[|g|];
    for i := 0 to |g|
      invariant forall k :: 0 <= k < i ==> indegree[k] == |g[k]|
    {
      indegree[i] := |g[i]|;
    }
    assert forall i :: 0 <= i < |g| ==> g[i] - {} == g[i];
  }

  /** The range over the consumers of the emitted module. */
  method Release(g: Graph, indegree: array<int>, ghost done: set<nat>, p: nat)
    requires CountsMissing(g, done, indegree[..]) && p !in done
    modifies indegree
    ensures CountsMissing(g, done + {p}, indegree[..])
  {
    var left := Consumers(g, p);
    while left != {}
      invariant left <= Consumers(g, p)
      invariant indegree.Length == |g|
      invariant forall i :: 0 <= i < |g| ==>
                  indegree[i] == if i in left || p !in g[i] then |g[i] - done| else |g[i] - done| - 1
      decreases |left|
    {
      var c :| c in left;
      indegree[c] := indegree[c] - 1;
      left := left - {c};
    }
    forall i | 0 <= i < |g| ensures indegree[i] == |g[i] - (done + {p})| {
      OneLessMissing(g[i], done, p);
    }
  }

  lemma {:induction false} OneLessMissing(a: set<nat>, done: set<nat>, p: nat)
    requires p !in done
    ensures |a - (done + {p})| == |a - done| - if p in a then 1 else 0
  {
    if p in a {
      assert a - (done + {p}) == (a - done) - {p};
    } else {
      assert a - (done + {p}) == a - done;
    }
  }

  /** emitted marks exactly the modules of the order so far. */
  ghost predicate Marks(g: Graph, emitted: seq<bool>, done: seq<nat>) {
    |emitted| == |g| && forall i :: 0 <= i < |g| ==> (emitted[i] <==> i in Elems(done))
  }

  /** The scan for the first module that is not emitted and misses no provider. */
  method FirstCandidate(g: Graph, indegree: array<int>, emitted: array<bool>,
                        ghost done: seq<nat>) returns (candidate: int)
    requires CountsMissing(g, Elems(done), indegree[..]) && Marks(g, emitted[..], done)
    ensures candidate == -1 ==> Stuck(g, done)
    ensures candidate != -1 ==> candidate >= 0 && Least(g, done, candidate)
  {
    candidate := -1;
    for i := 0 to |g|
      invariant candidate == -1
      invariant forall j :: 0 <= j < i ==> !Candidate(g, done, j)
    {
      assert indegree[..][i] == |g[i] - Elems(done)|;
      assert emitted[..][i] == emitted[i];
      NoneMissing(g[i], Elems(done));
      if !emitted[i] && indegree[i] == 0 {
        candidate := i;
        break;
      }
    }
  }

  /** orderModules, after the requirements have been turned into a graph. The result is the
      lexicographically least topological order; there is none exactly when there is a cycle. */
  method OrderGraph(g: Graph) returns (ok: bool, ordered: seq<nat>)
    requires IsGraph(g)
    ensures ok ==> Topological(g, ordered) && forall other :: Topological(g, other) ==> LexLeq(ordered, other)
    ensures ok <==> !HasCycle(g)
  {
    hide Greedy;
    hide Candidate;
    hide Least;
    hide Topological;
    hide LexLeq;
    ordered := [];
    var indegree := CountProviders(g);
    var emitted := new bool[|g|](_ => false);
    assert Elems(ordered) == {};
    assert Greedy(g, ordered) by { EmptyGreedy(g); }
    assert Marks(g, emitted[..], ordered);
    hide CountsMissing;
    hide Elems;
    hide Marks;
    hide IsGraph;
    while |ordered| < |g|
      invariant |ordered| <= |g| && Greedy(g, ordered)
      invariant CountsMissing(g, Elems(ordered), indegree[..]) && Marks(g, emitted[..], ordered)
      invariant emitted.Length == |g|
      decreases |g| - |ordered|
    {
      var candidate := FirstCandidate(g, indegree, emitted, ordered);
      if candidate == -1 {
        SomeLeft(g, ordered);
        return false, [];
      }
      LeastIsModule(g, ordered, candidate);
      ghost var before := emitted[..];
      emitted[candidate] := true;
      MarksSnoc(g, before, ordered, candidate);
      assert emitted[..] == before[candidate := true];
      Release(g, indegree, Elems(ordered), candidate);
      GreedySnoc(g, ordered, candidate);
      ordered := ordered + [candidate];
    }
    GreedyIsBest(g, ordered);
    ok := true;
  }

  /** What a complete greedy order shows. */
  lemma {:induction false} GreedyIsBest(g: Graph, order: seq<nat>)
    requires Greedy(g, order) && |order| == |g|
    ensures Topological(g, order) && !HasCycle(g)
    ensures forall other :: Topological(g, other) ==> LexLeq(order, other)
  {
    hide Greedy;
    hide Topological;
    hide LexLeq;
    GreedyIsTopological(g, order);
    forall other | Topological(g, other) ensures LexLeq(order, other) {
      GreedyIsLeast(g, order, other);
    }
    forall c | IsChain(g, c) ensures !IsCycle(g, c) {
      ChainNeverCloses(g, order, c);
    }
  }

  lemma {:induction false} NoneMissing(a: set<nat>, b: set<nat>)
    ensures |a - b| == 0 <==> a <= b
  {
    if |a - b| == 0 {
      assert a - b == {};
      forall x | x in a ensures x in b {
        assert x !in a - b;
      }
    } else {
      assert a - b != {};
      var x :| x in a - b;
    }
  }

  lemma {:induction false} MarksSnoc(g: Graph, emitted: seq<bool>, done: seq<nat>, i: nat)
    requires Marks(g, emitted, done) && i < |g|
    ensures Marks(g, emitted[i := true], done + [i]) && Elems(done + [i]) == Elems(done) + {i}
  {
    assert (done + [i])[..|done|] == done;
    ElemsSnoc(done + [i]);
  }

  lemma {:induction false} EmptyGreedy(g: Graph)
    ensures Greedy(g, [])
  {
  }

  lemma {:induction false} LeastIsModule(g: Graph, done: seq<nat>, i: nat)
    requires Least(g, done, i)
    ensures i < |g| && i !in Elems(done)
  {
  }

  lemma {:induction false} GreedySnoc(g: Graph, done: seq<nat>, i: nat)
    requires Greedy(g, done) && Least(g, done, i)
    ensures Greedy(g, done + [i])
  {
    var after := done + [i];
    forall k | 0 <= k < |after| ensures Least(g, after[..k], after[k]) {
      if k < |done| {
        assert after[..k] == done[..k];
      } else {
        assert after[..k] == done;
      }
    }
  }

  /** Stuck before the end means a module is left, and so a cycle. */
  lemma {:induction false} SomeLeft(g: Graph, done: seq<nat>)
    requires IsGraph(g) && Stuck(g, done) && |done| < |g|
    ensures HasCycle(g)
  {
    ElemsSize(done);
    if Below(|g|) <= Elems(done) {
      SubsetSize(Below(|g|), Elems(done));
    }
    var start: nat :| start < |g| && start !in Elems(done);
    StuckHasCycle(g, done, start);
  }

  lemma {:induction false} ElemsSize(s: seq<nat>)
    ensures |Elems(s)| <= |s|
  {
    if s != [] {
      ElemsSize(s[..|s| - 1]);
      ElemsSnoc(s);
    }
  }
}
