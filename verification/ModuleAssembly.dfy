/** Building an Assembly: defaults, requirements, module order and deferred constructors
    (defaults.go, dependency.go, resolver.go, builder.go Build). */
module ModuleAssembly {
  import opened ModuleOrder

  datatype Kind = OneKind | ManyKind | ChainKind
  datatype Spec = Spec(id: nat, kind: Kind, valueType: nat)

  /** Slot, key and value type names are numbers, 0 standing for the empty one. */
  datatype Requirement = Requirement(spec: Spec, keyed: bool, key: nat, minimum: int, optional: bool)

  /** One contribution; `deferred` while its constructor has not run. */
  datatype Registered = Registered(key: nat, owner: nat, deferred: bool, defaulted: bool)
  datatype Record = Record(spec: Spec, values: seq<Registered>)
  type Registry = map<nat, Record>

  datatype Module = Module(id: nat, contributes: bool, requirements: seq<Requirement>)

  datatype AssemblyError =
    | InvalidRequirement | SlotConflict | RequirementUnsatisfied | UnknownProvider | DependencyCycle
    | SlotOccupied | DuplicateKey | DependencyUndeclared | DependencyNotReady(owner: nat)

  datatype Outcome<+T> = Done(value: T) | Failed(error: AssemblyError)

  // ---------------------------------------------------------------- requirements

  /** validateRequirement. */
  predicate RequirementValid(r: Requirement) {
    && r.spec.id != 0 && r.spec.valueType != 0
    && match r.spec.kind
       case OneKind => !r.keyed && r.key == 0 && ((r.minimum == 1 && !r.optional) || (r.minimum == 0 && r.optional))
       case ManyKind =>
         && (r.minimum >= 1 || r.optional) && (r.optional ==> r.minimum == 0)
         && (r.keyed <==> r.key != 0)
       case ChainKind => !r.keyed && r.key == 0 && (r.minimum >= 1 || r.optional) && (r.optional ==> r.minimum == 0)
  }

  function WithKey(values: seq<Registered>, key: nat): (r: seq<Registered>)
    ensures |r| <= 1 && (|r| == 1 ==> r[0] in values && r[0].key == key)
  {
    if values == [] then []
    else if values[0].key == key then [values[0]]
    else WithKey(values[1..], key)
  }

  /** resolveRequirement. */
  function Resolve(state: Registry, r: Requirement): (x: Outcome<seq<Registered>>) {
    if !RequirementValid(r) then Failed(InvalidRequirement)
    else if r.spec.id !in state then (if r.optional then Done([]) else Failed(RequirementUnsatisfied))
    else
      var record := state[r.spec.id];
      if record.spec.kind != r.spec.kind || record.spec.valueType != r.spec.valueType then Failed(SlotConflict)
      else if r.keyed then
        var found := WithKey(record.values, r.key);
        if found == [] then Failed(RequirementUnsatisfied) else Done(found)
      else if |record.values| < r.minimum then Failed(RequirementUnsatisfied)
      else Done(record.values)
  }

  function Owners(values: seq<Registered>): (r: set<nat>) {
    set i | 0 <= i < |values| :: values[i].owner
  }

  /** The owners a module depends on through its first `n` requirements. */
  function UsedOwners(state: Registry, requirements: seq<Requirement>): (r: set<nat>) {
    if requirements == [] then {}
    else
      var found := Resolve(state, requirements[|requirements| - 1]);
      UsedOwners(state, requirements[..|requirements| - 1]) + if found.Done? then Owners(found.value) else {}
  }

  lemma {:induction false} UsesEach(state: Registry, requirements: seq<Requirement>, k: nat)
    requires k < |requirements| && Resolve(state, requirements[k]).Done?
    ensures Owners(Resolve(state, requirements[k]).value) <= UsedOwners(state, requirements)
    decreases |requirements|
  {
    if k < |requirements| - 1 {
      UsesEach(state, requirements[..|requirements| - 1], k);
    }
  }

  // ---------------------------------------------------------------- the requirement graph

  predicate UniqueIds(modules: seq<Module>) {
    forall i, j :: 0 <= i < j < |modules| ==> modules[i].id != modules[j].id
  }

  function ProvidersOf(state: Registry, modules: seq<Module>, i: nat): (r: set<nat>)
    requires i < |modules|
  {
    var used := UsedOwners(state, modules[i].requirements);
    set p | 0 <= p < |modules| && p != i && modules[p].id in used
  }

  function GraphOf(state: Registry, modules: seq<Module>): (g: Graph)
    ensures |g| == |modules| && forall i :: 0 <= i < |g| ==> g[i] == ProvidersOf(state, modules, i)
    ensures IsGraph(g)
  {
    seq(|modules|, i requires 0 <= i < |modules| => ProvidersOf(state, modules, i))
  }

  predicate Resolves(state: Registry, m: Module) {
    forall k :: 0 <= k < |m.requirements| ==> Resolve(state, m.requirements[k]).Done?
  }

  function Ids(modules: seq<Module>): (r: set<nat>) {
    set i | 0 <= i < |modules| :: modules[i].id
  }

  /** Every requirement can be resolved to contributions of the given modules. */
  ghost predicate Closed(state: Registry, modules: seq<Module>) {
    forall i :: 0 <= i < |modules| ==>
      Resolves(state, modules[i]) && UsedOwners(state, modules[i].requirements) <= Ids(modules)
  }

  function ProvidersVia(modules: seq<Module>, i: nat, used: set<nat>): (r: set<nat>) {
    set p | 0 <= p < |modules| && p != i && modules[p].id in used
  }

  lemma {:induction false} ProvidersUnion(modules: seq<Module>, i: nat, a: set<nat>, b: set<nat>)
    ensures ProvidersVia(modules, i, a + b) == ProvidersVia(modules, i, a) + ProvidersVia(modules, i, b)
  {
  }

  ghost predicate IndexOk(modules: seq<Module>, ownerIndex: map<nat, nat>) {
    && UniqueIds(modules) && ownerIndex.Keys == Ids(modules)
    && forall id :: id in ownerIndex ==> ownerIndex[id] < |modules| && modules[ownerIndex[id]].id == id
  }

  /** The edges after the first `j` providers. */
  ghost predicate Linked(modules: seq<Module>, i: nat, providers: seq<Registered>, j: nat, edges: set<nat>,
                         edges': set<nat>) {
    j <= |providers| && Owners(providers[..j]) <= Ids(modules)
      && edges' == edges + ProvidersVia(modules, i, Owners(providers[..j]))
  }

  lemma {:induction false} LinkedBase(modules: seq<Module>, i: nat, providers: seq<Registered>, edges: set<nat>)
    ensures Linked(modules, i, providers, 0, edges, edges)
  {
    assert Owners(providers[..0]) == {} && ProvidersVia(modules, i, {}) == {};
  }

  lemma {:induction false} OwnersSnoc(providers: seq<Registered>, j: nat)
    requires j < |providers|
    ensures Owners(providers[..j + 1]) == Owners(providers[..j]) + {providers[j].owner}
  {
    var a, b := providers[..j], providers[..j + 1];
    assert forall k :: 0 <= k < j ==> a[k] == b[k];
    forall x | x in Owners(b) ensures x in Owners(a) + {providers[j].owner} {
      var k :| 0 <= k < |b| && b[k].owner == x;
      assert k < j ==> a[k].owner in Owners(a);
    }
    forall x | x in Owners(a) ensures x in Owners(b) {
      var k :| 0 <= k < |a| && a[k].owner == x;
      assert b[k].owner == x;
    }
    assert b[j].owner in Owners(b);
  }

  lemma {:induction false} LinkedStep(modules: seq<Module>, ownerIndex: map<nat, nat>, i: nat,
                                      providers: seq<Registered>, j: nat, edges: set<nat>, edges': set<nat>)
    requires IndexOk(modules, ownerIndex) && j < |providers| && providers[j].owner in ownerIndex
    requires Linked(modules, i, providers, j, edges, edges')
    ensures var provider := ownerIndex[providers[j].owner];
            Linked(modules, i, providers, j + 1, edges, if provider == i then edges' else edges' + {provider})
  {
    var owner := providers[j].owner;
    OwnersSnoc(providers, j);
    ProvidersUnion(modules, i, Owners(providers[..j]), {owner});
    assert ProvidersVia(modules, i, {owner}) == if ownerIndex[owner] == i then {} else {ownerIndex[owner]};
    assert owner in Ids(modules);
    hide Owners;
    hide Ids;
    hide ProvidersVia;
    hide IndexOk;
  }

  lemma {:induction false} LinkedAll(modules: seq<Module>, i: nat, providers: seq<Registered>, edges: set<nat>,
                                     edges': set<nat>)
    requires Linked(modules, i, providers, |providers|, edges, edges')
    ensures Owners(providers) <= Ids(modules) && edges' == edges + ProvidersVia(modules, i, Owners(providers))
  {
    assert providers[..|providers|] == providers;
  }

  lemma {:induction false} UnknownOwner(modules: seq<Module>, ownerIndex: map<nat, nat>, providers: seq<Registered>,
                                        j: nat)
    requires IndexOk(modules, ownerIndex) && j < |providers| && providers[j].owner !in ownerIndex
    ensures !(Owners(providers) <= Ids(modules))
  {
    assert providers[j].owner in Owners(providers);
  }

  /** The inner loop over the providers of one requirement. */
  method AddProviders(modules: seq<Module>, ownerIndex: map<nat, nat>, consumer: nat, providers: seq<Registered>,
                      edges: set<nat>)
    returns (known: bool, edges': set<nat>)
    requires consumer < |modules| && IndexOk(modules, ownerIndex)
    ensures known <==> Owners(providers) <= Ids(modules)
    ensures known ==> edges' == edges + ProvidersVia(modules, consumer, Owners(providers))
  {
    hide *;
    edges' := edges;
    LinkedBase(modules, consumer, providers, edges);
    for j := 0 to |providers|
      invariant Linked(modules, consumer, providers, j, edges, edges')
    {
      var owner := providers[j].owner;
      if owner !in ownerIndex {
        UnknownOwner(modules, ownerIndex, providers, j);
        return false, edges';
      }
      var provider := ownerIndex[owner];
      LinkedStep(modules, ownerIndex, consumer, providers, j, edges, edges');
      if provider == consumer { continue; }
      edges' := edges' + {provider};
    }
    LinkedAll(modules, consumer, providers, edges, edges');
    known := true;
  }

  lemma {:induction false} UsedSnoc(state: Registry, requirements: seq<Requirement>, k: nat)
    requires k < |requirements| && Resolve(state, requirements[k]).Done?
    ensures UsedOwners(state, requirements[..k + 1]) ==
            UsedOwners(state, requirements[..k]) + Owners(Resolve(state, requirements[k]).value)
  {
    assert requirements[..k + 1][..k] == requirements[..k];
  }

  /** The edges found from the first `k` requirements of a module. */
  ghost predicate Gathered(state: Registry, modules: seq<Module>, i: nat, k: nat, edges: set<nat>)
    requires i < |modules|
  {
    var requirements := modules[i].requirements;
    && k <= |requirements|
    && (forall j :: 0 <= j < k ==> Resolve(state, requirements[j]).Done?)
    && UsedOwners(state, requirements[..k]) <= Ids(modules)
    && edges == ProvidersVia(modules, i, UsedOwners(state, requirements[..k]))
  }

  lemma {:induction false} GatheredBase(state: Registry, modules: seq<Module>, i: nat)
    requires i < |modules|
    ensures Gathered(state, modules, i, 0, {})
  {
    assert modules[i].requirements[..0] == [];
  }

  lemma {:induction false} GatheredStep(state: Registry, modules: seq<Module>, i: nat, k: nat, edges: set<nat>)
    requires i < |modules| && k < |modules[i].requirements| && Gathered(state, modules, i, k, edges)
    requires Resolve(state, modules[i].requirements[k]).Done?
    requires Owners(Resolve(state, modules[i].requirements[k]).value) <= Ids(modules)
    ensures Gathered(state, modules, i, k + 1,
                     edges + ProvidersVia(modules, i, Owners(Resolve(state, modules[i].requirements[k]).value)))
  {
    hide Ids;
    hide Owners;
    hide Resolve;
    hide ProvidersVia;
    UsedSnoc(state, modules[i].requirements, k);
    hide UsedOwners;
    ProvidersUnion(modules, i, UsedOwners(state, modules[i].requirements[..k]),
                   Owners(Resolve(state, modules[i].requirements[k]).value));
  }

  lemma {:induction false} GatheredAll(state: Registry, modules: seq<Module>, i: nat, edges: set<nat>)
    requires i < |modules| && Gathered(state, modules, i, |modules[i].requirements|, edges)
    ensures Resolves(state, modules[i]) && UsedOwners(state, modules[i].requirements) <= Ids(modules)
    ensures edges == ProvidersOf(state, modules, i)
  {
    assert modules[i].requirements[..|modules[i].requirements|] == modules[i].requirements;
    hide UsedOwners;
    hide Ids;
  }

  lemma {:induction false} Unresolved(state: Registry, m: Module, k: nat)
    requires k < |m.requirements| && Resolve(state, m.requirements[k]).Failed?
    ensures !Resolves(state, m) && Resolve(state, m.requirements[k]).error != DependencyCycle
  {
  }

  // ---------------------------------------------------------------- what a requirement selects

  /** A requirement that names its slot, asks for a key exactly where keys exist, and is optional with no minimum or
      mandatory with a positive one, which for a single slot is one. */
  predicate WellFormed(r: Requirement) {
    && r.spec.id > 0 && r.spec.valueType > 0
    && (r.keyed ==> r.spec.kind.ManyKind?) && (r.keyed <==> r.key > 0)
    && (if r.optional then r.minimum == 0 else r.minimum > 0 && (r.spec.kind.OneKind? ==> r.minimum == 1))
  }

  /** The slot is registered, as the requirement describes it. */
  predicate Fits(state: Registry, r: Requirement) {
    r.spec.id in state && state[r.spec.id].spec.kind == r.spec.kind
      && state[r.spec.id].spec.valueType == r.spec.valueType
  }

  /** The first value of a slot with that key. */
  ghost predicate FirstWithKey(values: seq<Registered>, i: int, key: nat) {
    0 <= i < |values| && values[i].key == key && forall k :: 0 <= k < i ==> values[k].key != key
  }

  /** The slot has enough for the requirement. */
  ghost predicate Enough(values: seq<Registered>, r: Requirement) {
    if r.keyed then exists i :: FirstWithKey(values, i, r.key) else |values| >= r.minimum
  }

  ghost predicate Met(state: Registry, r: Requirement) {
    WellFormed(r) && if r.spec.id in state then Fits(state, r) && Enough(state[r.spec.id].values, r) else r.optional
  }

  lemma {:induction false} WithKeyExact(values: seq<Registered>, key: nat)
    ensures WithKey(values, key) == [] <==> forall i :: 0 <= i < |values| ==> values[i].key != key
    ensures WithKey(values, key) != [] ==>
              exists i :: FirstWithKey(values, i, key) && WithKey(values, key) == [values[i]]
  {
    if values != [] && values[0].key != key {
      WithKeyExact(values[1..], key);
      assert forall i :: 0 < i < |values| ==> values[i] == values[1..][i - 1];
      if WithKey(values, key) != [] {
        var i :| FirstWithKey(values[1..], i, key) && WithKey(values[1..], key) == [values[1..][i]];
        assert FirstWithKey(values, i + 1, key);
      }
    } else if values != [] {
      assert FirstWithKey(values, 0, key);
    }
  }

  /** A requirement is resolved exactly when it is met; it then selects every value of its slot, in order, or with a
      key the first value of that key, and nothing of a slot that is optional and missing. Each failure has its own
      cause. */
  lemma {:induction false} ResolveExact(state: Registry, r: Requirement)
    ensures var x := Resolve(state, r);
            && (x.Done? <==> Met(state, r))
            && (x.Done? && r.spec.id !in state ==> x.value == [])
            && (x.Done? && r.spec.id in state && !r.keyed ==> x.value == state[r.spec.id].values)
            && (x.Done? && r.spec.id in state && r.keyed ==>
                  exists i :: FirstWithKey(state[r.spec.id].values, i, r.key)
                    && x.value == [state[r.spec.id].values[i]])
            && (x == Failed(InvalidRequirement) <==> !WellFormed(r))
            && (x == Failed(SlotConflict) <==> WellFormed(r) && r.spec.id in state && !Fits(state, r))
            && (x == Failed(RequirementUnsatisfied) <==>
                  WellFormed(r) && if r.spec.id in state then Fits(state, r) && !Enough(state[r.spec.id].values, r)
                                   else !r.optional)
  {
    if r.spec.id in state {
      WithKeyExact(state[r.spec.id].values, r.key);
    }
  }

  /** The value is one that the requirement selects. */
  ghost predicate Selects(state: Registry, r: Requirement, v: Registered) {
    && r.spec.id in state
    && exists i :: 0 <= i < |state[r.spec.id].values| && state[r.spec.id].values[i] == v
         && (r.keyed ==> FirstWithKey(state[r.spec.id].values, i, r.key))
  }

  lemma {:induction false} SelectsExact(state: Registry, r: Requirement, owner: nat)
    requires Resolve(state, r).Done?
    ensures owner in Owners(Resolve(state, r).value) <==> exists v :: Selects(state, r, v) && v.owner == owner
  {
    ResolveExact(state, r);
    var found := Resolve(state, r).value;
    if owner in Owners(found) {
      var k :| 0 <= k < |found| && found[k].owner == owner;
      assert Selects(state, r, found[k]);
    }
    if v :| Selects(state, r, v) && v.owner == owner {
      assert v in found;
      var k :| 0 <= k < |found| && found[k] == v;
      assert found[k].owner == owner;
    }
  }

  /** Some requirement of module `i` selects a value of another module `p`. */
  ghost predicate Needs(state: Registry, modules: seq<Module>, i: nat, p: nat) {
    && i < |modules| && p < |modules| && p != i
    && exists k, v :: 0 <= k < |modules[i].requirements| && Selects(state, modules[i].requirements[k], v)
         && v.owner == modules[p].id
  }

  lemma {:induction false} UsedExact(state: Registry, requirements: seq<Requirement>, owner: nat)
    requires forall k :: 0 <= k < |requirements| ==> Resolve(state, requirements[k]).Done?
    ensures owner in UsedOwners(state, requirements) <==>
            exists k, v :: 0 <= k < |requirements| && Selects(state, requirements[k], v) && v.owner == owner
  {
    if requirements != [] {
      var front, n := requirements[..|requirements| - 1], |requirements| - 1;
      UsedExact(state, front, owner);
      SelectsExact(state, requirements[n], owner);
      assert forall k :: 0 <= k < n ==> front[k] == requirements[k];
      hide Resolve;
      hide Selects;
      hide Owners;
      if k, v :| 0 <= k < |requirements| && Selects(state, requirements[k], v) && v.owner == owner {
        if k < n {
          assert Selects(state, front[k], v);
        }
      }
    }
  }

  /** The requirements are closed if and only if each is met and every selected value belongs to one of the modules; the
      edges of the graph are then exactly the needs. */
  lemma {:induction false} ClosedExact(state: Registry, modules: seq<Module>)
    ensures Closed(state, modules) <==>
            forall i, k :: 0 <= i < |modules| && 0 <= k < |modules[i].requirements| ==>
              && Met(state, modules[i].requirements[k])
              && forall v :: Selects(state, modules[i].requirements[k], v) ==> v.owner in Ids(modules)
    ensures Closed(state, modules) ==>
              forall i: nat, p: nat :: i < |modules| ==>
                (p in GraphOf(state, modules)[i] <==> Needs(state, modules, i, p))
  {
    if Closed(state, modules) {
      forall i, k | 0 <= i < |modules| && 0 <= k < |modules[i].requirements|
        ensures Met(state, modules[i].requirements[k])
        ensures forall v :: Selects(state, modules[i].requirements[k], v) ==> v.owner in Ids(modules)
      {
        ClosedModule(state, modules, i, k);
      }
      forall i: nat, p: nat | i < |modules|
        ensures p in GraphOf(state, modules)[i] <==> Needs(state, modules, i, p)
      {
        EdgeExact(state, modules, i, p);
      }
    }
    if forall i, k :: 0 <= i < |modules| && 0 <= k < |modules[i].requirements| ==>
         && Met(state, modules[i].requirements[k])
         && forall v :: Selects(state, modules[i].requirements[k], v) ==> v.owner in Ids(modules) {
      MetIsClosed(state, modules);
    }
    hide Closed;
    hide Needs;
    hide Met;
    hide Selects;
    hide Ids;
    hide GraphOf;
  }

  lemma {:induction false} ClosedModule(state: Registry, modules: seq<Module>, i: nat, k: nat)
    requires Closed(state, modules) && i < |modules| && k < |modules[i].requirements|
    ensures Met(state, modules[i].requirements[k])
    ensures forall v :: Selects(state, modules[i].requirements[k], v) ==> v.owner in Ids(modules)
  {
    var r := modules[i].requirements[k];
    assert Resolves(state, modules[i]) && Resolve(state, r).Done?;
    ResolveExact(state, r);
    UsesEach(state, modules[i].requirements, k);
    forall v | Selects(state, r, v) ensures v.owner in Ids(modules) {
      SelectsExact(state, r, v.owner);
    }
    hide Resolve;
    hide Selects;
    hide Met;
    hide UsedOwners;
  }

  lemma {:induction false} EdgeExact(state: Registry, modules: seq<Module>, i: nat, p: nat)
    requires Closed(state, modules) && i < |modules|
    ensures p in GraphOf(state, modules)[i] <==> Needs(state, modules, i, p)
  {
    assert Resolves(state, modules[i]);
    if p < |modules| {
      UsedExact(state, modules[i].requirements, modules[p].id);
    }
    hide Resolve;
    hide Selects;
    hide UsedOwners;
  }

  lemma {:induction false} MetIsClosed(state: Registry, modules: seq<Module>)
    requires forall i, k :: 0 <= i < |modules| && 0 <= k < |modules[i].requirements| ==>
               && Met(state, modules[i].requirements[k])
               && forall v :: Selects(state, modules[i].requirements[k], v) ==> v.owner in Ids(modules)
    ensures Closed(state, modules)
  {
    forall i | 0 <= i < |modules|
      ensures Resolves(state, modules[i]) && UsedOwners(state, modules[i].requirements) <= Ids(modules)
    {
      forall k | 0 <= k < |modules[i].requirements| ensures Resolve(state, modules[i].requirements[k]).Done? {
        ResolveExact(state, modules[i].requirements[k]);
      }
      forall owner | owner in UsedOwners(state, modules[i].requirements) ensures owner in Ids(modules) {
        UsedExact(state, modules[i].requirements, owner);
      }
    }
    hide Resolve;
    hide Selects;
    hide UsedOwners;
    hide Met;
    hide Ids;
  }

  /** The module `a` stands before the module `b`. */
  ghost predicate Earlier(order: seq<Module>, a: nat, b: nat) {
    exists x, y :: 0 <= x < y < |order| && order[x].id == a && order[y].id == b
  }

  lemma {:induction false} ProvidersFirst(state: Registry, modules: seq<Module>, order: seq<nat>, i: nat, p: nat)
    requires Closed(state, modules) && Topological(GraphOf(state, modules), order)
    requires forall k :: 0 <= k < |order| ==> order[k] < |modules|
    requires Needs(state, modules, i, p)
    ensures Earlier(Pick(modules, order), modules[p].id, modules[i].id)
  {
    var g := GraphOf(state, modules);
    EdgeExact(state, modules, i, p);
    AllOrdered(g, order);
    assert |g| == |modules| && i < |modules|;
    assert i in order && p in g[i];
    hide Closed;
    hide Needs;
    hide GraphOf;
    var y :| 0 <= y < |order| && order[y] == i;
    assert Candidate(g, order[..y], order[y]);
    assert p in Elems(order[..y]);
    var x :| 0 <= x < y && order[..y][x] == p;
    assert Pick(modules, order)[x].id == modules[p].id && Pick(modules, order)[y].id == modules[i].id;
  }

  /** The loop over the requirements of one module. */
  method ProvidersFor(state: Registry, modules: seq<Module>, ownerIndex: map<nat, nat>, consumer: nat)
    returns (r: Outcome<set<nat>>)
    requires consumer < |modules| && IndexOk(modules, ownerIndex)
    ensures r.Done? <==>
              Resolves(state, modules[consumer]) && UsedOwners(state, modules[consumer].requirements) <= Ids(modules)
    ensures r.Done? ==> r.value == ProvidersOf(state, modules, consumer)
    ensures r.Failed? ==> r.error != DependencyCycle
  {
    var requirements := modules[consumer].requirements;
    var edges: set<nat> := {};
    hide *;
    GatheredBase(state, modules, consumer);
    for k := 0 to |requirements|
      invariant Gathered(state, modules, consumer, k, edges)
    {
      var providers := Resolve(state, requirements[k]);
      if providers.Failed? {
        Unresolved(state, modules[consumer], k);
        return Failed(providers.error);
      }
      var known, more := AddProviders(modules, ownerIndex, consumer, providers.value, edges);
      if !known {
        UsesEach(state, requirements, k);
        return Failed(UnknownProvider);
      }
      GatheredStep(state, modules, consumer, k, edges);
      edges := more;
    }
    GatheredAll(state, modules, consumer, edges);
    return Done(edges);
  }

  method IndexOwners(modules: seq<Module>) returns (ownerIndex: map<nat, nat>)
    requires UniqueIds(modules)
    ensures IndexOk(modules, ownerIndex)
  {
    ownerIndex := map[];
    for i := 0 to |modules|
      invariant forall id :: id in ownerIndex ==> ownerIndex[id] < i && modules[ownerIndex[id]].id == id
      invariant forall k :: 0 <= k < i ==> modules[k].id in ownerIndex
    {
      ownerIndex := ownerIndex[modules[i].id := i];
    }
  }

  function Pick(modules: seq<Module>, order: seq<nat>): (r: seq<Module>)
    requires forall k :: 0 <= k < |order| ==> order[k] < |modules|
    ensures |r| == |order| && forall k :: 0 <= k < |r| ==> r[k] == modules[order[k]]
  {
    seq(|order|, k requires 0 <= k < |order| => modules[order[k]])
  }

  ghost predicate LeastOrder(g: Graph, order: seq<nat>) {
    Topological(g, order) && forall other :: Topological(g, other) ==> LexLeq(order, other)
  }

  lemma {:induction false} OrderIsBounded(g: Graph, order: seq<nat>)
    requires Topological(g, order)
    ensures forall k :: 0 <= k < |order| ==> order[k] < |g|
  {
    forall k | 0 <= k < |order| ensures order[k] < |g| {
      assert Candidate(g, order[..k], order[k]);
    }
  }

  /** orderModules. The modules come back in the least order that puts providers before their consumers; a
      cycle is reported exactly when the requirement graph has one. */
  method OrderModules(state: Registry, modules: seq<Module>) returns (r: Outcome<seq<Module>>, ghost order: seq<nat>)
    requires UniqueIds(modules)
    ensures r.Done? <==> Closed(state, modules) && !HasCycle(GraphOf(state, modules))
    ensures r == Failed(DependencyCycle) <==> Closed(state, modules) && HasCycle(GraphOf(state, modules))
    ensures r.Done? ==> LeastOrder(GraphOf(state, modules), order)
    ensures r.Done? ==>
              |order| == |modules| && (forall k :: 0 <= k < |order| ==> order[k] < |modules|)
                && r.value == Pick(modules, order)
    ensures r.Done? ==> forall i: nat, p: nat :: Needs(state, modules, i, p) ==>
                          Earlier(r.value, modules[p].id, modules[i].id)
    ensures r.Done? || r == Failed(DependencyCycle) <==>
            forall i, k :: 0 <= i < |modules| && 0 <= k < |modules[i].requirements| ==>
              && Met(state, modules[i].requirements[k])
              && forall v :: Selects(state, modules[i].requirements[k], v) ==> v.owner in Ids(modules)
  {
    ClosedExact(state, modules);
    order := [];
    var ownerIndex := IndexOwners(modules);
    var g: Graph := [];
    for i := 0 to |modules|
      invariant |g| == i && forall k :: 0 <= k < i ==> g[k] == ProvidersOf(state, modules, k)
      invariant forall k :: 0 <= k < i ==>
                  Resolves(state, modules[k]) && UsedOwners(state, modules[k].requirements) <= Ids(modules)
    {
      hide Ids;
      hide ProvidersOf;
      hide Resolves;
      hide UsedOwners;
      var providers := ProvidersFor(state, modules, ownerIndex, i);
      if providers.Failed? { return Failed(providers.error), []; }
      g := g + [providers.value];
    }
    assert g == GraphOf(state, modules);
    var ok, found := OrderGraph(g);
    if !ok { return Failed(DependencyCycle), []; }
    OrderIsBounded(g, found);
    forall i: nat, p: nat | Needs(state, modules, i, p)
      ensures Earlier(Pick(modules, found), modules[p].id, modules[i].id)
    {
      ProvidersFirst(state, modules, found, i, p);
    }
    return Done(Pick(modules, found)), found;
  }

  // ---------------------------------------------------------------- constructors

  /** The registry while constructors run: only `deferred` flags differ from the start, and none is left on a
      contribution of the owners in `built`. */
  ghost predicate Partway(state: Registry, now: Registry, built: set<nat>) {
    && now.Keys == state.Keys
    && forall id :: id in state ==>
         && now[id].spec == state[id].spec && |now[id].values| == |state[id].values|
         && forall i :: 0 <= i < |now[id].values| ==>
              && now[id].values[i].(deferred := state[id].values[i].deferred) == state[id].values[i]
              && (now[id].values[i].owner in built ==> !now[id].values[i].deferred)
  }

  ghost predicate SameBut(a: seq<Registered>, b: seq<Registered>) {
    |a| == |b| && forall i :: 0 <= i < |a| ==> b[i].(deferred := a[i].deferred) == a[i]
  }

  lemma {:induction false} WithKeySame(a: seq<Registered>, b: seq<Registered>, key: nat)
    requires SameBut(a, b)
    ensures SameBut(WithKey(a, key), WithKey(b, key))
  {
    if a != [] && a[0].key != key {
      WithKeySame(a[1..], b[1..], key);
    }
  }

  /** Which contributions a requirement selects does not depend on which of them are constructed. */
  lemma {:induction false} ResolveStable(state: Registry, now: Registry, built: set<nat>, r: Requirement)
    requires Partway(state, now, built)
    ensures Resolve(now, r).Done? <==> Resolve(state, r).Done?
    ensures Resolve(now, r).Done? ==>
              && SameBut(Resolve(state, r).value, Resolve(now, r).value)
              && forall i :: 0 <= i < |Resolve(now, r).value| ==>
                   Resolve(now, r).value[i].owner in built ==> !Resolve(now, r).value[i].deferred
  {
    if r.spec.id in state {
      assert SameBut(state[r.spec.id].values, now[r.spec.id].values);
      WithKeySame(state[r.spec.id].values, now[r.spec.id].values, r.key);
    }
  }

  /** declaredRequirement. */
  function Declared(requirements: seq<Requirement>, spec: Spec, key: nat, keyed: bool): (r: Outcome<Requirement>)
    ensures r.Done? ==> r.value in requirements
    ensures r.Failed? ==> r.error == DependencyUndeclared
  {
    if requirements == [] then Failed(DependencyUndeclared)
    else if requirements[0].spec == spec && requirements[0].keyed == keyed
      && (keyed ==> requirements[0].key == key) then Done(requirements[0])
    else Declared(requirements[1..], spec, key, keyed)
  }

  function FirstDeferred(values: seq<Registered>): (r: Outcome<seq<Registered>>)
    ensures r.Failed? ==>
              && r.error.DependencyNotReady?
              && exists i :: 0 <= i < |values| && values[i].deferred && values[i].owner == r.error.owner
    ensures r.Done? ==> forall i :: 0 <= i < |values| ==> !values[i].deferred
  {
    if values == [] then Done([])
    else if values[0].deferred then Failed(DependencyNotReady(values[0].owner))
    else
      var rest := FirstDeferred(values[1..]);
      assert forall i :: 0 < i < |values| ==> values[i] == values[1..][i - 1];
      if rest.Failed? then rest else Done([values[0]] + rest.value)
  }

  /** Resolver.resolve, inside the constructor of a module with these requirements. */
  function ResolveFor(now: Registry, requirements: seq<Requirement>, spec: Spec, key: nat,
                      keyed: bool): (r: Outcome<seq<Registered>>) {
    var declared := Declared(requirements, spec, key, keyed);
    if declared.Failed? then Failed(declared.error)
    else
      var values := Resolve(now, declared.value);
      if values.Failed? then values else FirstDeferred(values.value)
  }

  predicate Matches(r: Requirement, spec: Spec, key: nat, keyed: bool) {
    r.spec == spec && r.keyed == keyed && (keyed ==> r.key == key)
  }

  lemma {:induction false} DeclaredExact(requirements: seq<Requirement>, spec: Spec, key: nat, keyed: bool)
    ensures var d := Declared(requirements, spec, key, keyed);
            && (d.Failed? <==> forall k :: 0 <= k < |requirements| ==> !Matches(requirements[k], spec, key, keyed))
            && (d.Done? ==>
                  exists k :: 0 <= k < |requirements| && d.value == requirements[k]
                    && Matches(requirements[k], spec, key, keyed)
                    && forall j :: 0 <= j < k ==> !Matches(requirements[j], spec, key, keyed))
  {
    if requirements != [] && !Matches(requirements[0], spec, key, keyed) {
      var rest := requirements[1..];
      DeclaredExact(rest, spec, key, keyed);
      assert forall k :: 0 < k < |requirements| ==> requirements[k] == rest[k - 1];
      if Declared(rest, spec, key, keyed).Done? {
        var k :| 0 <= k < |rest| && Declared(rest, spec, key, keyed).value == rest[k]
          && Matches(rest[k], spec, key, keyed)
          && forall j :: 0 <= j < k ==> !Matches(rest[j], spec, key, keyed);
        assert requirements[k + 1] == rest[k];
      }
    }
  }

  lemma {:induction false} FirstDeferredExact(values: seq<Registered>)
    ensures FirstDeferred(values).Done? <==> forall i :: 0 <= i < |values| ==> !values[i].deferred
    ensures FirstDeferred(values).Done? ==> FirstDeferred(values).value == values
  {
    if values != [] {
      FirstDeferredExact(values[1..]);
      assert forall i :: 0 < i < |values| ==> values[i] == values[1..][i - 1];
    }
  }

  /** A constructor is given what its first declared requirement for the slot selects, all of it and only when all of
      it is constructed. */
  lemma {:induction false} ResolveForExact(now: Registry, requirements: seq<Requirement>, spec: Spec, key: nat,
                                           keyed: bool)
    ensures var x := ResolveFor(now, requirements, spec, key, keyed);
            && (x == Failed(DependencyUndeclared) <==>
                  forall k :: 0 <= k < |requirements| ==> !Matches(requirements[k], spec, key, keyed))
            && (x.Done? ==>
                  && (forall i :: 0 <= i < |x.value| ==> !x.value[i].deferred)
                  && exists k :: 0 <= k < |requirements| && Matches(requirements[k], spec, key, keyed)
                       && (forall j :: 0 <= j < k ==> !Matches(requirements[j], spec, key, keyed))
                       && Resolve(now, requirements[k]) == Done(x.value))
  {
    DeclaredExact(requirements, spec, key, keyed);
    var d := Declared(requirements, spec, key, keyed);
    if d.Done? {
      ResolveExact(now, d.value);
      if Resolve(now, d.value).Done? {
        FirstDeferredExact(Resolve(now, d.value).value);
      }
    }
    hide Resolve;
    hide Declared;
    hide FirstDeferred;
    hide Matches;
    hide Met;
  }

  /** The owners whose constructors have all run when the k-th module's turn comes. */
  function BuiltBefore(modules: seq<Module>, order: seq<nat>, k: nat): (r: set<nat>)
    requires k <= |order| && forall j :: 0 <= j < |order| ==> order[j] < |modules|
  {
    set j | 0 <= j < k :: modules[order[j]].id
  }

  /** A provider is the module itself or comes earlier in the order. */
  lemma {:induction false} ProvidersBuilt(state: Registry, modules: seq<Module>, order: seq<nat>, k: nat, owner: nat)
    requires Closed(state, modules) && Topological(GraphOf(state, modules), order) && k < |order|
    requires forall j :: 0 <= j < |order| ==> order[j] < |modules|
    requires owner in UsedOwners(state, modules[order[k]].requirements) && owner != modules[order[k]].id
    ensures owner in BuiltBefore(modules, order, k)
  {
    var g := GraphOf(state, modules);
    assert owner in Ids(modules);
    var p :| 0 <= p < |modules| && modules[p].id == owner;
    assert p in g[order[k]];
    assert Candidate(g, order[..k], order[k]);
    assert p in Elems(order[..k]);
    var j :| 0 <= j < k && order[..k][j] == p;
    assert order[j] == p;
  }

  /** Following the order, no constructor ever meets a contribution of another module that is not ready, and
      none of its declared requirements fails. */
  lemma {:induction false} ConstructorsFindReady(state: Registry, modules: seq<Module>, order: seq<nat>, k: nat,
                                                 now: Registry, spec: Spec, key: nat, keyed: bool)
    requires Closed(state, modules) && Topological(GraphOf(state, modules), order) && k < |order|
    requires forall j :: 0 <= j < |order| ==> order[j] < |modules|
    requires Partway(state, now, BuiltBefore(modules, order, k))
    ensures var r := ResolveFor(now, modules[order[k]].requirements, spec, key, keyed);
            r.Failed? ==> r.error == DependencyUndeclared || r.error == DependencyNotReady(modules[order[k]].id)
  {
    var m := modules[order[k]];
    var declared := Declared(m.requirements, spec, key, keyed);
    if declared.Done? {
      var i :| 0 <= i < |m.requirements| && m.requirements[i] == declared.value;
      assert Resolves(state, m);
      ResolveStable(state, now, BuiltBefore(modules, order, k), declared.value);
      var values := Resolve(now, declared.value).value;
      UsesEach(state, m.requirements, i);
      forall v | 0 <= v < |values| && values[v].owner != m.id ensures !values[v].deferred {
        assert values[v].owner == Resolve(state, declared.value).value[v].owner;
        assert values[v].owner in Owners(Resolve(state, declared.value).value);
        ProvidersBuilt(state, modules, order, k, values[v].owner);
      }
      hide GraphOf;
      hide Partway;
      hide UsedOwners;
    }
  }

  function Construct(v: Registered, owner: nat): (r: Registered) {
    if v.owner == owner then v.(deferred := false) else v
  }

  /** Running every deferred constructor of one owner. */
  function ConstructOwner(now: Registry, owner: nat): (r: Registry)
    ensures r.Keys == now.Keys
    ensures forall id :: id in now ==>
              && r[id].spec == now[id].spec && |r[id].values| == |now[id].values|
              && forall i :: 0 <= i < |r[id].values| ==> r[id].values[i] == Construct(now[id].values[i], owner)
  {
    map id | id in now ::
      Record(now[id].spec,
             seq(|now[id].values|, i requires 0 <= i < |now[id].values| => Construct(now[id].values[i], owner)))
  }

  lemma {:induction false} ConstructedPartway(state: Registry, now: Registry, built: set<nat>, owner: nat)
    requires Partway(state, now, built)
    ensures Partway(state, ConstructOwner(now, owner), built + {owner})
    ensures OnlyBuilt(state, now, built) ==> OnlyBuilt(state, ConstructOwner(now, owner), built + {owner})
  {
  }

  /** What was deferred and is nobody's turn yet stays deferred. */
  ghost predicate OnlyBuilt(state: Registry, now: Registry, built: set<nat>) {
    && now.Keys == state.Keys
    && forall id :: id in state ==>
         && |now[id].values| == |state[id].values|
         && forall i :: 0 <= i < |now[id].values| ==>
              now[id].values[i].deferred == (state[id].values[i].deferred && state[id].values[i].owner !in built)
  }

  /** materializeConstructors: owner by owner in module order. When the requirements are closed nothing stays
      deferred that belongs to one of the modules. */
  method MaterializeConstructors(state: Registry, modules: seq<Module>, order: seq<nat>) returns (now: Registry)
    requires Topological(GraphOf(state, modules), order) && forall j :: 0 <= j < |order| ==> order[j] < |modules|
    ensures Partway(state, now, Ids(modules)) && OnlyBuilt(state, now, Ids(modules))
  {
    hide *;
    now := state;
    NothingBuilt(state, modules, order);
    for k := 0 to |order|
      invariant Partway(state, now, BuiltBefore(modules, order, k))
      invariant OnlyBuilt(state, now, BuiltBefore(modules, order, k))
    {
      var m := modules[order[k]];
      ConstructedPartway(state, now, BuiltBefore(modules, order, k), m.id);
      BuiltNext(modules, order, k);
      now := ConstructOwner(now, m.id);
    }
    BuiltAll(state, modules, order);
  }

  lemma {:induction false} NothingBuilt(state: Registry, modules: seq<Module>, order: seq<nat>)
    requires forall j :: 0 <= j < |order| ==> order[j] < |modules|
    ensures Partway(state, state, BuiltBefore(modules, order, 0))
    ensures OnlyBuilt(state, state, BuiltBefore(modules, order, 0))
  {
  }

  lemma {:induction false} BuiltNext(modules: seq<Module>, order: seq<nat>, k: nat)
    requires k < |order| && forall j :: 0 <= j < |order| ==> order[j] < |modules|
    ensures BuiltBefore(modules, order, k + 1) == BuiltBefore(modules, order, k) + {modules[order[k]].id}
  {
  }

  lemma {:induction false} BuiltAll(state: Registry, modules: seq<Module>, order: seq<nat>)
    requires Topological(GraphOf(state, modules), order) && forall j :: 0 <= j < |order| ==> order[j] < |modules|
    ensures BuiltBefore(modules, order, |order|) == Ids(modules)
  {
    AllOrdered(GraphOf(state, modules), order);
    hide GraphOf;
    hide Topological;
    forall id | id in Ids(modules) ensures id in BuiltBefore(modules, order, |order|) {
      var p :| 0 <= p < |modules| && modules[p].id == id;
      assert p in order;
    }
  }

  // ---------------------------------------------------------------- defaults and active modules

  /** Contributions that compete for the same place. */
  predicate Rivals(kind: Kind, a: Registered, b: Registered) {
    kind.ManyKind? ==> a.key == b.key
  }

  predicate Overridden(record: Record, v: Registered) {
    && v.defaulted
    && exists i ::
         0 <= i < |record.values| && !record.values[i].defaulted && Rivals(record.spec.kind, record.values[i], v)
  }

  /** Explicit contributions, and defaults that no explicit rival overrides, in registration order. */
  function Effective(record: Record, n: nat): (r: seq<Registered>)
    requires n <= |record.values|
    ensures forall i :: 0 <= i < |r| ==> r[i] in record.values && !Overridden(record, r[i])
    ensures forall i :: 0 <= i < n && !Overridden(record, record.values[i]) ==> record.values[i] in r
  {
    if n == 0 then []
    else Effective(record, n - 1) + if Overridden(record, record.values[n - 1]) then [] else [record.values[n - 1]]
  }

  /** Several defaults compete for a key and nothing explicit decides between them. */
  ghost predicate Ambiguous(record: Record) {
    exists i :: 0 <= i < |record.values| && record.values[i].defaulted && !Overridden(record, record.values[i])
      && DefaultCount(record.values, record.values[i].key) > 1
  }

  function DefaultCount(values: seq<Registered>, key: nat): (n: nat) {
    if values == [] then 0
    else
      var last := values[|values| - 1];
      DefaultCount(values[..|values| - 1], key) + if last.defaulted && last.key == key then 1 else 0
  }

  lemma {:induction false} CountedSomewhere(values: seq<Registered>, key: nat) returns (i: nat)
    requires DefaultCount(values, key) > 0
    ensures i < |values| && values[i].defaulted && values[i].key == key
  {
    var last := values[|values| - 1];
    if last.defaulted && last.key == key {
      i := |values| - 1;
    } else {
      i := CountedSomewhere(values[..|values| - 1], key);
    }
  }

  function Counted(counts: map<nat, nat>, key: nat): (n: nat) {
    if key in counts then counts[key] else 0
  }

  /** A default whose key nothing explicit has taken. */
  ghost predicate Standing(values: seq<Registered>, i: int) {
    0 <= i < |values| && (values[i].defaulted ==>
      forall k :: 0 <= k < |values| && values[k].key == values[i].key ==> values[k].defaulted)
  }

  /** What remains of a keyed slot: its standing contributions, all of them, in order. */
  ghost predicate Remains(values: seq<Registered>, kept: seq<Registered>, at: seq<nat>, n: nat) {
    && |at| == |kept|
    && (forall k :: 0 <= k < |at| ==> at[k] < n && Standing(values, at[k]) && kept[k] == values[at[k]])
    && (forall k, l :: 0 <= k < l < |at| ==> at[k] < at[l])
    && (forall i: nat :: i < n && Standing(values, i) ==> i in at)
  }

  lemma {:induction false} EffectiveExact(record: Record, n: nat) returns (at: seq<nat>)
    requires record.spec.kind.ManyKind? && n <= |record.values|
    ensures Remains(record.values, Effective(record, n), at, n)
  {
    hide *;
    if n == 0 {
      at := [];
      NothingRemains(record);
    } else {
      var before := EffectiveExact(record, n - 1);
      StandingIs(record, n - 1);
      EffectiveSnoc(record, n);
      RemainsSnoc(record.values, Effective(record, n - 1), before, n);
      at := if Standing(record.values, n - 1) then before + [n - 1] else before;
    }
  }

  lemma {:induction false} NothingRemains(record: Record)
    ensures Remains(record.values, Effective(record, 0), [], 0)
  {
  }

  lemma {:induction false} EffectiveSnoc(record: Record, n: nat)
    requires 0 < n <= |record.values|
    ensures Effective(record, n) ==
            if Overridden(record, record.values[n - 1]) then Effective(record, n - 1)
            else Effective(record, n - 1) + [record.values[n - 1]]
  {
  }

  lemma {:induction false} RemainsSnoc(values: seq<Registered>, kept: seq<Registered>, at: seq<nat>, n: nat)
    requires 0 < n <= |values| && Remains(values, kept, at, n - 1)
    ensures if Standing(values, n - 1) then Remains(values, kept + [values[n - 1]], at + [n - 1], n)
            else Remains(values, kept, at, n)
  {
    hide Standing;
    if Standing(values, n - 1) {
      var longer := at + [n - 1];
      assert longer[|at|] == n - 1;
      assert forall k :: 0 <= k < |at| ==> longer[k] == at[k];
      forall i: nat | i < n && Standing(values, i) ensures i in longer {
        assert i < n - 1 ==> i in at;
      }
    }
  }

  lemma {:induction false} StandingIs(record: Record, i: nat)
    requires record.spec.kind.ManyKind? && i < |record.values|
    ensures Standing(record.values, i) <==> !Overridden(record, record.values[i])
  {
  }

  lemma {:induction false} TwoDefaults(values: seq<Registered>, key: nat)
    ensures DefaultCount(values, key) > 1 <==>
            exists i, j :: 0 <= i < j < |values| && IsDefault(values[i], key) && IsDefault(values[j], key)
    ensures DefaultCount(values, key) > 0 <==> exists i :: 0 <= i < |values| && IsDefault(values[i], key)
  {
    if values != [] {
      var front, n := values[..|values| - 1], |values| - 1;
      TwoDefaults(front, key);
      assert forall i :: 0 <= i < n ==> front[i] == values[i];
    }
  }

  predicate IsDefault(v: Registered, key: nat) {
    v.defaulted && v.key == key
  }

  /** Two defaults stand for one key, so nothing decides between them. */
  ghost predicate Undecided(values: seq<Registered>) {
    exists i, j :: 0 <= i < j < |values| && values[i].key == values[j].key && values[i].defaulted && values[j].defaulted
      && Standing(values, i)
  }

  lemma {:induction false} AmbiguousExact(record: Record)
    requires record.spec.kind.ManyKind?
    ensures Ambiguous(record) <==> Undecided(record.values)
  {
    var values := record.values;
    if Ambiguous(record) {
      var i :| 0 <= i < |values| && values[i].defaulted && !Overridden(record, values[i])
        && DefaultCount(values, values[i].key) > 1;
      TwoDefaults(values, values[i].key);
      var a, b :| 0 <= a < b < |values| && IsDefault(values[a], values[i].key) && IsDefault(values[b], values[i].key);
      StandingIs(record, i);
      assert Standing(values, a);
    }
    if Undecided(values) {
      var i, j :| 0 <= i < j < |values| && values[i].key == values[j].key && values[i].defaulted && values[j].defaulted
        && Standing(values, i);
      StandingIs(record, i);
      assert IsDefault(values[i], values[i].key) && IsDefault(values[j], values[i].key);
      TwoDefaults(values, values[i].key);
    }
    hide Overridden;
  }

  /** The counting pass of resolveManyDefaults. */
  method CountDefaults(values: seq<Registered>) returns (explicitKeys: set<nat>, defaultCounts: map<nat, nat>)
    ensures forall key: nat :: key in explicitKeys <==>
              exists k :: 0 <= k < |values| && !values[k].defaulted && values[k].key == key
    ensures forall key: nat :: Counted(defaultCounts, key) == DefaultCount(values, key)
  {
    explicitKeys, defaultCounts := {}, map[];
    for i := 0 to |values|
      invariant forall key: nat :: key in explicitKeys <==>
                  exists k :: 0 <= k < i && !values[k].defaulted && values[k].key == key
      invariant forall key: nat :: Counted(defaultCounts, key) == DefaultCount(values[..i], key)
    {
      var v := values[i];
      assert values[..i + 1][..i] == values[..i];
      if v.defaulted {
        defaultCounts := defaultCounts[v.key := Counted(defaultCounts, v.key) + 1];
      } else {
        explicitKeys := explicitKeys + {v.key};
      }
    }
    assert values[..|values|] == values;
  }

  /** resolveManyDefaults: one pass that counts, one that selects. */
  method ResolveManyDefaults(record: Record) returns (r: Outcome<seq<Registered>>)
    requires record.spec.kind.ManyKind?
    ensures r.Failed? <==> Ambiguous(record)
    ensures r.Done? ==> r.value == Effective(record, |record.values|)
  {
    var explicitKeys, defaultCounts := CountDefaults(record.values);
    assert forall i :: 0 <= i < |record.values| ==>
      (Overridden(record, record.values[i]) <==> record.values[i].defaulted && record.values[i].key in explicitKeys);
    hide Overridden;
    hide DefaultCount;
    var undecided := set key | key in defaultCounts && defaultCounts[key] > 1 && key !in explicitKeys;
    if undecided != {} {
      var key :| key in undecided;
      ghost var i := CountedSomewhere(record.values, key);
      assert Counted(defaultCounts, key) > 1;
      return Failed(DuplicateKey);
    }
    assert !Ambiguous(record) by {
      forall i | 0 <= i < |record.values| && record.values[i].defaulted && record.values[i].key !in explicitKeys
        ensures DefaultCount(record.values, record.values[i].key) <= 1
      {
        assert record.values[i].key !in undecided;
        assert Counted(defaultCounts, record.values[i].key) <= 1;
      }
    }
    var resolved: seq<Registered> := [];
    for i := 0 to |record.values|
      invariant resolved == Effective(record, i)
    {
      hide Ambiguous;
      var v := record.values[i];
      if v.defaulted && v.key in explicitKeys { continue; }
      resolved := resolved + [v];
    }
    return Done(resolved);
  }

  ghost predicate OwnersInstalled(state: Registry, installed: seq<Module>) {
    forall id :: id in state ==> Owners(state[id].values) <= Ids(installed)
  }

  /** activeModules: a module stays unless all its contributions were overridden. */
  predicate Active(state: Registry, m: Module) {
    !m.contributes || exists id :: id in state && m.id in Owners(state[id].values)
  }

  function ActiveModules(state: Registry, installed: seq<Module>): (r: seq<Module>)
    ensures forall i :: 0 <= i < |r| ==> r[i] in installed && Active(state, r[i])
    ensures forall i :: 0 <= i < |installed| && Active(state, installed[i]) ==> installed[i] in r
  {
    if installed == [] then []
    else
      var last := installed[|installed| - 1];
      ActiveModules(state, installed[..|installed| - 1]) + if Active(state, last) then [last] else []
  }

  /** The owner of every contribution that survives defaults is active, so no provider is ever unknown. */
  lemma {:induction false} ProvidersAreActive(state: Registry, installed: seq<Module>, r: Requirement)
    requires OwnersInstalled(state, installed)
    ensures Resolve(state, r).Done? ==> Owners(Resolve(state, r).value) <= Ids(ActiveModules(state, installed))
  {
    var active := ActiveModules(state, installed);
    if Resolve(state, r).Done? && r.spec.id in state {
      var values := Resolve(state, r).value;
      forall owner | owner in Owners(values) ensures owner in Ids(active) {
        var v :| 0 <= v < |values| && values[v].owner == owner;
        assert values[v] in state[r.spec.id].values;
        assert owner in Owners(state[r.spec.id].values);
        assert owner in Ids(installed);
        var i :| 0 <= i < |installed| && installed[i].id == owner;
        assert Active(state, installed[i]);
        assert installed[i] in active;
      }
    }
  }
}
