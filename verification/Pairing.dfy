/** Fork and join identity from post-dominance: a diverging gateway pairs with its
    immediate post-dominator when that is a converging gateway of the same kind. */
module Pairing {
  import opened Options
  import opened Graphs
  import opened PostDominators
  import opened Regions
  import opened Ir
  import opened Blocks

  predicate SameKind(a: Node, b: Node) {
    (a.GatewayAnd? && b.GatewayAnd?) || (a.GatewayInclusive? && b.GatewayInclusive?)
  }

  /** `f` is a diverging gateway paired with the converging gateway `j`. */
  predicate Pairs(g: Graph, pd: map<nat, nat>, f: nat, j: nat) {
    && f < |g.nodes| && j < |g.nodes| && f in pd && pd[f] == j
    && Forks(g.nodes[f]) && Joins(g.nodes[j]) && SameKind(g.nodes[f], g.nodes[j])
  }

  function GatewayPairs(g: Graph, pd: map<nat, nat>): (m: map<nat, nat>)
    ensures forall f, j :: (f in m && m[f] == j) <==> Pairs(g, pd, f, j)
  {
    map f | f in pd && Pairs(g, pd, f, pd[f]) :: pd[f]
  }

  // ---------------------------------------------------------------- pairs never cross

  /** A fork met before the join of `f` closes no later than that join. */
  lemma PairsNeverCross(g: Graph, pd: map<nat, nat>, f: nat, j: nat, inner: nat, k: nat)
    requires WellFormed(g) && Closed(Shape(g)) && Acyclic(Shape(g)) && IsPostDominatorMap(Shape(g), pd)
    requires Pairs(g, pd, f, j) && Pairs(g, pd, inner, k) && In(Shape(g), f, Some(j), inner)
    ensures k == j || (PostDominates(Shape(g), j, k) && !PostDominates(Shape(g), k, j))
  {
    var d := Shape(g);
    InReaches(d, f, Some(j), inner);
    InBounded(d, f, Some(j), inner);
    if k != j && PostDominates(d, k, j) { PdAntisymmetric(d, j, k); }
  }

  // ---------------------------------------------------------------- addresses for the second pass

  /** Of the diverging gateways below `k` that pair with `j`, the last. */
  function LastFork(g: Graph, pd: map<nat, nat>, j: nat, k: nat): (r: Option<nat>)
    requires k <= |g.nodes|
    ensures r.Some? ==> r.value < k && Pairs(g, pd, r.value, j)
    ensures forall f :: 0 <= f < k && Pairs(g, pd, f, j) ==> r.Some? && f <= r.value
  {
    if k == 0 then None
    else if Pairs(g, pd, k - 1, j) then Some(k - 1)
    else LastFork(g, pd, j, k - 1)
  }

  /** The word address of a diverging gateway's fork. */
  function ForkAddr(g: Graph, addr: map<nat, nat>, f: nat): nat
    requires f < |g.nodes| == |g.flows| && f in addr
  {
    addr[f] + (if g.nodes[f].GatewayInclusive? then PrecheckRoom(g.flows[f]) else 0)
  }

  ghost predicate Addresses(g: Graph, addr: map<nat, nat>) {
    |g.nodes| == |g.flows| && forall n: nat :: n < |g.nodes| ==> n in addr
  }

  /** Each join's entry is the fork address of the last of the first `k` nodes that pairs with it. */
  ghost predicate ForkTable(g: Graph, pd: map<nat, nat>, addr: map<nat, nat>, k: nat, inclusive: bool, table: map<nat,
                            nat>)
    requires Addresses(g, addr) && k <= |g.nodes|
  {
    forall j: nat :: j < |g.nodes| && (if inclusive then g.nodes[j].GatewayInclusive? else g.nodes[j].GatewayAnd?) ==>
      var f := LastFork(g, pd, j, k);
      if f.None? then j !in table else j in table && table[j] == ForkAddr(g, addr, f.value)
  }

  ghost predicate JoinTable(g: Graph, pd: map<nat, nat>, addr: map<nat, nat>, k: nat, table: map<nat, nat>)
    requires Addresses(g, addr)
  {
    forall f: nat :: f < |g.nodes| && g.nodes[f].GatewayInclusive? ==>
      if f < k && f in pd && Pairs(g, pd, f, pd[f]) then f in table && table[f] == addr[pd[f]] else f !in table
  }

  ghost predicate Paired(g: Graph, pd: map<nat, nat>, addr: map<nat, nat>,
                         forkOf: map<nat, nat>, joinOf: map<nat, nat>, inclusiveForkOf: map<nat, nat>)
    requires Addresses(g, addr)
  {
    && ForkTable(g, pd, addr, |g.nodes|, false, forkOf)
    && ForkTable(g, pd, addr, |g.nodes|, true, inclusiveForkOf)
    && JoinTable(g, pd, addr, |g.nodes|, joinOf)
  }

  predicate PairsOf(g: Graph, pd: map<nat, nat>, k: nat, inclusive: bool) {
    k in pd && Pairs(g, pd, k, pd[k]) && g.nodes[k].GatewayInclusive? == inclusive
  }

  lemma ForkTableHit(g: Graph, pd: map<nat, nat>, addr: map<nat, nat>, k: nat, inclusive: bool, table: map<nat, nat>)
    requires Addresses(g, addr) && k < |g.nodes| && ForkTable(g, pd, addr, k, inclusive, table) &&
      PairsOf(g, pd, k, inclusive)
    ensures ForkTable(g, pd, addr, k + 1, inclusive, table[pd[k] := ForkAddr(g, addr, k)])
  {
  }

  lemma ForkTableMiss(g: Graph, pd: map<nat, nat>, addr: map<nat, nat>, k: nat, inclusive: bool, table: map<nat, nat>)
    requires Addresses(g, addr) && k < |g.nodes| && ForkTable(g, pd, addr, k, inclusive, table) &&
      !PairsOf(g, pd, k, inclusive)
    ensures ForkTable(g, pd, addr, k + 1, inclusive, table)
  {
  }

  lemma JoinTableHit(g: Graph, pd: map<nat, nat>, addr: map<nat, nat>, k: nat, table: map<nat, nat>)
    requires Addresses(g, addr) && k < |g.nodes| && JoinTable(g, pd, addr, k, table) && PairsOf(g, pd, k, true)
    ensures JoinTable(g, pd, addr, k + 1, table[k := addr[pd[k]]])
  {
  }

  lemma JoinTableMiss(g: Graph, pd: map<nat, nat>, addr: map<nat, nat>, k: nat, table: map<nat, nat>)
    requires Addresses(g, addr) && k < |g.nodes| && JoinTable(g, pd, addr, k, table) && !PairsOf(g, pd, k, true)
    ensures JoinTable(g, pd, addr, k + 1, table)
  {
  }

  method ComputePairing(g: Graph, pd: map<nat, nat>, addr: map<nat, nat>)
    returns (forkOf: map<nat, nat>, joinOf: map<nat, nat>, inclusiveForkOf: map<nat, nat>)
    requires Addresses(g, addr) && forall n :: n in pd ==> pd[n] < |g.nodes|
    ensures Paired(g, pd, addr, forkOf, joinOf, inclusiveForkOf)
  {
    forkOf, joinOf, inclusiveForkOf := map[], map[], map[];
    for f := 0 to |g.nodes|
      invariant ForkTable(g, pd, addr, f, false, forkOf)
      invariant ForkTable(g, pd, addr, f, true, inclusiveForkOf)
      invariant JoinTable(g, pd, addr, f, joinOf)
    {
      if PairsOf(g, pd, f, false) {
        ForkTableHit(g, pd, addr, f, false, forkOf);
        ForkTableMiss(g, pd, addr, f, true, inclusiveForkOf);
        JoinTableMiss(g, pd, addr, f, joinOf);
        forkOf := forkOf[pd[f] := addr[f]];
      } else if PairsOf(g, pd, f, true) {
        ForkTableMiss(g, pd, addr, f, false, forkOf);
        ForkTableHit(g, pd, addr, f, true, inclusiveForkOf);
        JoinTableHit(g, pd, addr, f, joinOf);
        joinOf := joinOf[f := addr[pd[f]]];
        inclusiveForkOf := inclusiveForkOf[pd[f] := addr[f] + PrecheckRoom(g.flows[f])];
      } else {
        ForkTableMiss(g, pd, addr, f, false, forkOf);
        ForkTableMiss(g, pd, addr, f, true, inclusiveForkOf);
        JoinTableMiss(g, pd, addr, f, joinOf);
      }
    }
  }

  // ---------------------------------------------------------------- the pairing is a bijection

  function AndForks(g: Graph): (s: set<nat>)
    ensures forall n: nat :: n in s <==> n < |g.nodes| && g.nodes[n].GatewayAnd? && g.nodes[n].direction.Diverging?
  {
    set n | n in Upto(|g.nodes|) && g.nodes[n].GatewayAnd? && g.nodes[n].direction.Diverging?
  }

  function AndJoins(g: Graph): (s: set<nat>)
    ensures forall n: nat :: n in s <==> n < |g.nodes| && g.nodes[n].GatewayAnd? && g.nodes[n].direction.Converging?
  {
    set n | n in Upto(|g.nodes|) && g.nodes[n].GatewayAnd? && g.nodes[n].direction.Converging?
  }

  /** A choice of one fork for each join that has one. */
  ghost function Chosen(g: Graph, pd: map<nat, nat>, joins: set<nat>): (s: set<nat>)
    ensures forall f :: f in s <==> exists j :: j in joins && LastFork(g, pd, j, |g.nodes|) == Some(f)
  {
    set j | j in joins && LastFork(g, pd, j, |g.nodes|).Some? :: LastFork(g, pd, j, |g.nodes|).value
  }

  lemma {:induction false} ChosenOnce(g: Graph, pd: map<nat, nat>, j: nat, k: nat, f: nat)
    requires LastFork(g, pd, j, |g.nodes|) == Some(f) && k != j
    ensures LastFork(g, pd, k, |g.nodes|) != Some(f)
  {
  }

  lemma {:induction false} ChosenSize(g: Graph, pd: map<nat, nat>, joins: set<nat>)
    requires forall j :: j in joins ==> LastFork(g, pd, j, |g.nodes|).Some?
    ensures |Chosen(g, pd, joins)| == |joins|
    decreases joins
  {
    if joins != {} {
      var j :| j in joins;
      var f, rest := LastFork(g, pd, j, |g.nodes|).value, joins - {j};
      ChosenSize(g, pd, rest);
      forall k | k in rest ensures LastFork(g, pd, k, |g.nodes|) != Some(f) { ChosenOnce(g, pd, j, k, f); }
      assert f !in Chosen(g, pd, rest);
      assert Chosen(g, pd, joins) == Chosen(g, pd, rest) + {f};
    }
  }

  lemma {:induction false} SameSize<T>(a: set<T>, b: set<T>)
    requires a <= b && |a| == |b|
    ensures a == b
  {
    if x :| x in b && x !in a {
      SubsetSize(a, b - {x});
    }
  }

  /** With equally many AND forks and AND joins, and no join left unpaired, every fork
      has its own join as immediate post-dominator. */
  lemma PairingIsBijection(g: Graph, pd: map<nat, nat>)
    requires |AndForks(g)| == |AndJoins(g)|
    requires forall j :: j in AndJoins(g) ==> exists f :: Pairs(g, pd, f, j)
    ensures forall f :: f in AndForks(g) ==> f in pd && pd[f] in AndJoins(g)
    ensures forall e, f :: e in AndForks(g) && f in AndForks(g) && e != f ==> pd[e] != pd[f]
    ensures forall j :: j in AndJoins(g) ==> exists f :: f in AndForks(g) && pd[f] == j
  {
    var joins := AndJoins(g);
    forall j | j in joins ensures LastFork(g, pd, j, |g.nodes|).Some? { var f :| Pairs(g, pd, f, j); }
    ChosenSize(g, pd, joins);
    SameSize(Chosen(g, pd, joins), AndForks(g));
    forall f | f in AndForks(g) ensures f in pd && pd[f] in joins && LastFork(g, pd, pd[f], |g.nodes|) == Some(f) {
      var j :| j in joins && LastFork(g, pd, j, |g.nodes|) == Some(f);
    }
    forall j | j in joins ensures exists f :: f in AndForks(g) && pd[f] == j {
      var f :| Pairs(g, pd, f, j);
      assert f in AndForks(g);
    }
  }

  /** The address handed to an AND join is that of its own fork. */
  lemma JoinKnowsItsFork(g: Graph, pd: map<nat, nat>, addr: map<nat, nat>,
                         forkOf: map<nat, nat>, joinOf: map<nat, nat>, inclusiveForkOf: map<nat, nat>, f: nat)
    requires Addresses(g, addr) && Paired(g, pd, addr, forkOf, joinOf, inclusiveForkOf)
    requires |AndForks(g)| == |AndJoins(g)| && (forall j :: j in AndJoins(g) ==> j in forkOf) && f in AndForks(g)
    ensures f in pd && pd[f] in AndJoins(g) && pd[f] in forkOf && forkOf[pd[f]] == addr[f]
    ensures forall e :: e in AndForks(g) && e in pd && pd[e] == pd[f] ==> e == f
  {
    forall j | j in AndJoins(g) ensures exists e :: Pairs(g, pd, e, j) {
      assert Pairs(g, pd, LastFork(g, pd, j, |g.nodes|).value, j);
    }
    PairingIsBijection(g, pd);
    assert Pairs(g, pd, f, pd[f]);
    assert LastFork(g, pd, pd[f], |g.nodes|).value in AndForks(g);
  }
}
