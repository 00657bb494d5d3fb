/** Loading the artifacts that a workflow template calls, directly or through others, and the
    rule that a proven template calls only proven ones. */
module Dependencies {
  import opened Options

  datatype ExecutionNode = Task(plug: string) | Other

  /** `nodes` in the order of their ids. */
  datatype Plan = Plan(nodes: seq<ExecutionNode>, proved: bool, breaches: seq<string>)

  /** Stored artifacts by hash; `None` stands for a body that does not decode as a plan. */
  type Store = map<seq<nat>, Option<Plan>>

  // ---------------------------------------------------------------- references

  predicate IsHexDigit(c: char) {
    '0' <= c <= '9' || 'a' <= c <= 'f' || 'A' <= c <= 'F'
  }

  function HexValue(c: char): nat
    requires IsHexDigit(c)
  {
    if '0' <= c <= '9' then (c - '0') as nat
    else if 'a' <= c <= 'f' then 10 + (c - 'a') as nat
    else 10 + (c - 'A') as nat
  }

  /** A task whose plug is 64 hexadecimal digits calls the workflow with that hash. */
  predicate IsReference(plug: string) {
    |plug| == 64 && forall i :: 0 <= i < |plug| ==> IsHexDigit(plug[i])
  }

  function Hash(plug: string): seq<nat>
    requires IsReference(plug)
  {
    seq(32, i requires 0 <= i < 32 => 16 * HexValue(plug[2 * i]) + HexValue(plug[2 * i + 1]))
  }

  datatype Lookup = Found(plan: Plan) | Missing | Undecodable

  function Load(store: Store, key: string): Lookup
    requires IsReference(key)
  {
    if Hash(key) !in store then Missing
    else if store[Hash(key)].None? then Undecodable
    else Found(store[Hash(key)].value)
  }

  ghost predicate Calls(plan: Plan, key: string) {
    IsReference(key) && Task(key) in plan.nodes
  }

  /** `key` is found and calls `next`. */
  ghost predicate Follows(store: Store, key: string, next: string) {
    IsReference(key) && Load(store, key).Found? && Calls(Load(store, key).plan, next)
  }

  /** A chain of calls that begins in `plan`. */
  ghost predicate IsChain(store: Store, plan: Plan, chain: seq<string>) {
    && (chain != [] ==> Calls(plan, chain[0]))
    && forall i, j :: 0 <= i < j < |chain| && j == i + 1 ==> Follows(store, chain[i], chain[j])
  }

  /** `plan` calls `key`, directly or through others. */
  ghost predicate Reaches(store: Store, plan: Plan, key: string) {
    exists chain :: chain != [] && IsChain(store, plan, chain) && chain[|chain| - 1] == key
  }

  /** `key` calls itself, directly or through others. */
  ghost predicate Cyclic(store: Store, key: string) {
    IsReference(key) && Load(store, key).Found? && Reaches(store, Load(store, key).plan, key)
  }

  // ---------------------------------------------------------------- what is loaded

  ghost predicate IsReferences(keys: seq<string>) {
    forall i :: 0 <= i < |keys| ==> IsReference(keys[i])
  }

  /** The loaded plans in the order of loading: each after all that it calls. */
  ghost predicate Loaded(store: Store, order: seq<string>, preloaded: map<string, Plan>) {
    && IsReferences(order) && (forall k :: k in preloaded <==> k in order)
    && (forall i :: 0 <= i < |order| ==> Load(store, order[i]) == Found(preloaded[order[i]]))
    && (forall i, j :: 0 <= i < j < |order| ==> order[i] != order[j])
    && forall i, k :: 0 <= i < |order| && Follows(store, order[i], k) ==> k in order[..i]
  }

  /** Along a chain through loaded plans the position falls. */
  lemma {:induction false} ChainFalls(store: Store, order: seq<string>, preloaded: map<string, Plan>,
                                      chain: seq<string>, i: nat)
    requires Loaded(store, order, preloaded) && i < |order| && chain != []
    requires Follows(store, order[i], chain[0]) && IsChain(store, Load(store, order[i]).plan, chain)
    ensures chain[|chain| - 1] in order[..i]
    decreases |chain|
  {
    assert chain[0] in order[..i];
    if |chain| > 1 {
      var j :| 0 <= j < i && order[j] == chain[0];
      assert Follows(store, chain[0], chain[1]);
      var rest := chain[1..];
      forall a, b | 0 <= a < b < |rest| && b == a + 1 ensures Follows(store, rest[a], rest[b]) {
        assert Follows(store, chain[a + 1], chain[b + 1]);
      }
      ChainFalls(store, order, preloaded, rest, j);
      assert chain[|chain| - 1] in order[..j];
    }
  }

  lemma LoadedAcyclic(store: Store, order: seq<string>, preloaded: map<string, Plan>, key: string)
    requires Loaded(store, order, preloaded) && key in order
    ensures !Cyclic(store, key)
  {
    var i :| 0 <= i < |order| && order[i] == key;
    if Cyclic(store, key) {
      var chain :| chain != [] && IsChain(store, Load(store, key).plan, chain) && chain[|chain| - 1] == key;
      ChainFalls(store, order, preloaded, chain, i);
    }
  }

  /** What a loaded plan calls is loaded. */
  lemma {:induction false} ChainLoaded(store: Store, order: seq<string>, preloaded: map<string, Plan>, plan: Plan,
                                       chain: seq<string>, i: nat)
    requires Loaded(store, order, preloaded) && (forall k :: Calls(plan, k) ==> k in order)
    requires IsChain(store, plan, chain) && i < |chain|
    ensures chain[i] in order
  {
    if i > 0 {
      ChainLoaded(store, order, preloaded, plan, chain, i - 1);
      var j :| 0 <= j < |order| && order[j] == chain[i - 1];
      assert Follows(store, chain[i - 1], chain[i]);
      assert chain[i] in order[..j];
    }
  }

  // ---------------------------------------------------------------- the loader

  datatype Outcome = Done | Cycle(key: string) | NotFound(key: string) | Malformed(key: string)

  /** What a failure says is so. */
  ghost predicate Justified(store: Store, root: Plan, r: Outcome) {
    match r
    case Done => true
    case Cycle(k) => Reaches(store, root, k) && Cyclic(store, k)
    case NotFound(k) => Reaches(store, root, k) && IsReference(k) && Load(store, k).Missing?
    case Malformed(k) => Reaches(store, root, k) && IsReference(k) && Load(store, k).Undecodable?
  }

  /** The plans being loaded, outermost first: a chain from the root to the current plan. */
  ghost predicate IsTrail(store: Store, root: Plan, trail: seq<string>, plan: Plan) {
    && IsChain(store, root, trail) && IsReferences(trail)
    && plan == (if trail == [] then root else
                  var l := Load(store, trail[|trail| - 1]); if l.Found? then l.plan else plan)
    && (trail != [] ==> Load(store, trail[|trail| - 1]).Found?)
    && forall i, j :: 0 <= i < j < |trail| ==> trail[i] != trail[j]
  }

  function Keys(plan: Plan): set<string> {
    set n | n in plan.nodes && n.Task? :: n.plug
  }

  function PlanKeys(p: Option<Plan>): set<string> {
    if p.Some? then Keys(p.value) else {}
  }

  /** Every key that the root or a stored plan mentions. */
  function Mentioned(store: Store, root: Plan): set<string> {
    Keys(root) + set h, k | h in store && k in PlanKeys(store[h]) :: k
  }

  lemma TrailCalls(store: Store, root: Plan, trail: seq<string>, plan: Plan, key: string)
    requires IsTrail(store, root, trail, plan) && Calls(plan, key)
    ensures IsChain(store, root, trail + [key]) && Reaches(store, root, key) && key in Mentioned(store, root)
  {
    var chain := trail + [key];
    forall i, j | 0 <= i < j < |chain| && j == i + 1 ensures Follows(store, chain[i], chain[j]) {
      if j < |trail| { assert Follows(store, trail[i], trail[j]); }
    }
    assert chain[|chain| - 1] == key;
    assert Task(key) in plan.nodes && key in Keys(plan);
    if trail != [] {
      var h := Hash(trail[|trail| - 1]);
      assert h in store && key in PlanKeys(store[h]);
    }
  }

  /** Meeting a plan that is still being loaded is a cycle. */
  lemma TrailCycle(store: Store, root: Plan, trail: seq<string>, plan: Plan, key: string)
    requires IsTrail(store, root, trail, plan) && Calls(plan, key) && key in trail
    ensures Cyclic(store, key)
  {
    TrailCalls(store, root, trail, plan, key);
    var chain := trail + [key];
    var i :| 0 <= i < |trail| && trail[i] == key;
    var rest := chain[i + 1..];
    assert Follows(store, chain[i], chain[i + 1]);
    forall a, b | 0 <= a < b < |rest| && b == a + 1 ensures Follows(store, rest[a], rest[b]) {
      assert Follows(store, chain[a + i + 1], chain[b + i + 1]);
    }
    assert IsChain(store, Load(store, key).plan, rest) && rest[|rest| - 1] == key;
  }

  lemma TrailSnoc(store: Store, root: Plan, trail: seq<string>, plan: Plan, key: string)
    requires IsTrail(store, root, trail, plan) && Calls(plan, key) && key !in trail && Load(store, key).Found?
    ensures IsTrail(store, root, trail + [key], Load(store, key).plan)
  {
    TrailCalls(store, root, trail, plan, key);
  }

  lemma LoadedSnoc(store: Store, order: seq<string>, preloaded: map<string, Plan>, key: string)
    requires Loaded(store, order, preloaded) && IsReference(key) && Load(store, key).Found? && key !in order
    requires forall k :: Calls(Load(store, key).plan, k) ==> k in order
    ensures Loaded(store, order + [key], preloaded[key := Load(store, key).plan])
  {
    var all, now := order + [key], preloaded[key := Load(store, key).plan];
    forall i, k | 0 <= i < |all| && Follows(store, all[i], k) ensures k in all[..i] {
      if i < |order| { assert k in order[..i] && all[..i] == order[..i]; } else { assert all[..i] == order; }
    }
    forall k ensures k in now <==> k in all {}
  }

  /** The keys of the first `n` nodes are loaded. */
  ghost predicate NodesLoaded(plan: Plan, n: nat, order: seq<string>) {
    n <= |plan.nodes| && forall i :: 0 <= i < n && plan.nodes[i].Task? && IsReference(plan.nodes[i].plug) ==>
      plan.nodes[i].plug in order
  }

  ghost predicate NewReached(store: Store, root: Plan, before: seq<string>, order: seq<string>) {
    before <= order && forall k :: k in order ==> k in before || Reaches(store, root, k)
  }

  method Resolve(plan: Plan, store: Store, visiting0: set<string>, preloaded0: map<string, Plan>,
                 ghost root: Plan, ghost trail: seq<string>, ghost order0: seq<string>)
    returns (r: Outcome, visiting: set<string>, preloaded: map<string, Plan>, ghost order: seq<string>)
    requires IsTrail(store, root, trail, plan) && (forall k :: k in visiting0 <==> k in trail)
    requires Loaded(store, order0, preloaded0) && visiting0 !! preloaded0.Keys
    ensures Justified(store, root, r)
    ensures r.Done? ==>
      && visiting == visiting0 && Loaded(store, order, preloaded) && visiting !! preloaded.Keys
      && NodesLoaded(plan, |plan.nodes|, order) && NewReached(store, root, order0, order)
    decreases Mentioned(store, root) - visiting0
  {
    visiting, preloaded, order := visiting0, preloaded0, order0;
    r := Done;
    for n := 0 to |plan.nodes|
      invariant r.Done? && visiting == visiting0 && Loaded(store, order, preloaded) && visiting !! preloaded.Keys
      invariant NodesLoaded(plan, n, order) && NewReached(store, root, order0, order)
    {
      if plan.nodes[n].Other? || !IsReference(plan.nodes[n].plug) { continue; }
      var key := plan.nodes[n].plug;
      if key in preloaded { continue; }
      assert Calls(plan, key);
      TrailCalls(store, root, trail, plan, key);
      if key in visiting {
        TrailCycle(store, root, trail, plan, key);
        return Cycle(key), visiting, preloaded, order;
      }
      visiting := visiting + {key};
      var found := Load(store, key);
      if found.Missing? { return NotFound(key), visiting, preloaded, order; }
      if found.Undecodable? { return Malformed(key), visiting, preloaded, order; }
      TrailSnoc(store, root, trail, plan, key);
      ghost var before := order;
      r, visiting, preloaded, order := Resolve(found.plan, store, visiting, preloaded, root, trail + [key], order);
      if !r.Done? { return; }
      LoadedSnoc(store, order, preloaded, key);
      order := order + [key];
      preloaded := preloaded[key := found.plan];
      visiting := visiting - {key};
    }
  }

  /** All that the root calls can be loaded and nothing among it calls itself. */
  ghost predicate Loadable(store: Store, root: Plan) {
    forall k :: Reaches(store, root, k) ==> IsReference(k) && Load(store, k).Found? && !Cyclic(store, k)
  }

  /** Loading succeeds exactly when it can, and then gives exactly what the root reaches. */
  method Preload(root: Plan, store: Store) returns (r: Outcome, preloaded: map<string, Plan>)
    ensures r.Done? <==> Loadable(store, root)
    ensures r.Done? ==> forall k :: k in preloaded <==> Reaches(store, root, k)
    ensures r.Done? ==> forall k :: k in preloaded ==> IsReference(k) && Load(store, k) == Found(preloaded[k])
    ensures Justified(store, root, r)
  {
    var visiting: set<string>;
    ghost var order: seq<string>;
    r, visiting, preloaded, order := Resolve(root, store, {}, map[], root, [], []);
    if r.Done? { ReachedLoaded(store, root, order, preloaded); }
  }

  lemma ReachedLoaded(store: Store, root: Plan, order: seq<string>, preloaded: map<string, Plan>)
    requires Loaded(store, order, preloaded) && NodesLoaded(root, |root.nodes|, order) &&
      NewReached(store, root, [], order)
    ensures forall k :: k in preloaded <==> Reaches(store, root, k)
    ensures Loadable(store, root)
  {
    forall k | Calls(root, k) ensures k in order {
      var i :| 0 <= i < |root.nodes| && root.nodes[i] == Task(k);
    }
    forall k | Reaches(store, root, k) ensures k in order && !Cyclic(store, k) {
      var chain :| chain != [] && IsChain(store, root, chain) && chain[|chain| - 1] == k;
      ChainLoaded(store, order, preloaded, root, chain, |chain| - 1);
      LoadedAcyclic(store, order, preloaded, k);
    }
  }

  // ---------------------------------------------------------------- proven templates

  const BREACH := "TRANSITIVE_UNPROVED_CALL"

  datatype Verdict = Accepted(plan: Plan) | Unloadable(why: Outcome) | UnprovenChild

  /** Whether one of the loaded plans is not proven. */
  method AnyUnproved(preloaded: map<string, Plan>) returns (found: bool)
    ensures found <==> exists k :: k in preloaded && !preloaded[k].proved
  {
    found := false;
    var rest := preloaded.Keys;
    while rest != {}
      invariant rest <= preloaded.Keys
      invariant forall k :: k in preloaded && k !in rest ==> preloaded[k].proved
      decreases |rest|
    {
      var k :| k in rest;
      if !preloaded[k].proved {
        found := true;
        break;
      }
      rest := rest - {k};
    }
  }

  /** Everything the plan reaches is found and proven. */
  ghost predicate AllProved(store: Store, plan: Plan) {
    forall k :: Reaches(store, plan, k) ==> IsReference(k) && Load(store, k).Found? && Load(store, k).plan.proved
  }

  function Marked(plan: Plan): Plan {
    if BREACH in plan.breaches then plan else plan.(breaches := plan.breaches + [BREACH])
  }

  /** A template is accepted exactly when its calls can be loaded and, if it claims to be
      proven, all of them are proven; an unproven one that calls an unproven one is marked. */
  method Define(plan: Plan, store: Store) returns (v: Verdict)
    ensures v.Accepted? <==> Loadable(store, plan) && (plan.proved ==> AllProved(store, plan))
    ensures v.UnprovenChild? <==> Loadable(store, plan) && plan.proved && !AllProved(store, plan)
    ensures v.Accepted? ==> v.plan == if AllProved(store, plan) then plan else Marked(plan)
    ensures v.Unloadable? ==> !v.why.Done? && Justified(store, plan, v.why)
  {
    var r, preloaded := Preload(plan, store);
    if !r.Done? { return Unloadable(r); }
    var unproved := AnyUnproved(preloaded);
    assert !unproved <==> AllProved(store, plan) by {
      if unproved {
        var k :| k in preloaded && !preloaded[k].proved;
        assert Reaches(store, plan, k);
      }
    }
    if !unproved { return Accepted(plan); }
    if plan.proved { return UnprovenChild; }
    v := Accepted(Marked(plan));
  }

  /** Marking is idempotent and keeps the plan's nodes and claim. */
  lemma MarkedOnce(plan: Plan)
    ensures Marked(Marked(plan)) == Marked(plan) && BREACH in Marked(plan).breaches
    ensures Marked(plan).nodes == plan.nodes && Marked(plan).proved == plan.proved
  {
    var bs := plan.breaches + [BREACH];
    assert bs[|plan.breaches|] == BREACH;
  }
}
