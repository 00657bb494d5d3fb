/** Lowering as a whole, and what nesting gateways buy: a program the machine admits. */
module Compiler {
  import opened Options
  import opened Segments
  import opened Graphs
  import opened PostDominators
  import PostDominatorPass
  import Layout
  import LayoutExact
  import opened Bytecode
  import opened ControlStack
  import opened KernelSafety
  import opened Ir
  import opened Blocks
  import opened Lowering
  import opened Pairing
  import opened OpenForks
  import opened Labelling
  import opened Scoping

  // ---------------------------------------------------------------- the pipeline

  /** Out-degree above one and a real immediate post-dominator: the merge of a split. */
  function RegionMap(d: Digraph, pd: map<nat, nat>): map<nat, nat> {
    map n | n in pd && n < |d| && |d[n]| > 1 :: pd[n]
  }

  lemma RegionMapExact(d: Digraph, pd: map<nat, nat>)
    requires IsPostDominatorMap(d, pd)
    ensures Layout.IsRegionMap(d, RegionMap(d, pd)) && Layout.MergesIn(d, RegionMap(d, pd))
  {
  }

  function FirstStart(nodes: seq<Node>): (r: Option<nat>)
    ensures r.Some? ==> r.value < |nodes| && nodes[r.value].Start? && forall i :: 0 <= i < r.value ==> !nodes[i].Start?
    ensures r.None? ==> forall i :: 0 <= i < |nodes| ==> !nodes[i].Start?
  {
    if nodes == [] then None
    else if nodes[0].Start? then Some(0)
    else match FirstStart(nodes[1..]) case None => None case Some(i) => Some(i + 1)
  }

  /** The order of the nodes, from the post-dominator oracle. */
  ghost predicate Ordered(g: Graph, start: nat, pd: map<nat, nat>, order: seq<nat>) {
    && WellFormed(g) && start < |g.nodes| && Closed(Shape(g)) && IsPostDominatorMap(Shape(g), pd)
    && Distinct(order) && (forall n: nat :: n in order <==> n < |g.nodes|)
    && Layout.MergesIn(Shape(g), RegionMap(Shape(g), pd))
    && Layout.Layout(Shape(g), RegionMap(Shape(g), pd), start, None, []) <= order
  }

  ghost predicate Collected(g: Graph, order: seq<nat>, b: Boundaries) {
    && WellFormed(g) && InGraph(g, order)
    && (forall h: nat :: (if h in b.timers then Some(b.timers[h]) else None) == TimerIn(g, order, h))
    && (forall h: nat :: ErrorsOf(b, h) == ErrorsIn(g, order, h))
    && b.closes == Lowering.Closes(g, b.timers)
  }

  /** Everything the second pass is given, for a graph whose start is `start`. */
  ghost predicate Prepared(g: Graph, start: nat, pd: map<nat, nat>, order: seq<nat>, pl: Plan) {
    && Ordered(g, start, pd, order) && pl.g == g && Planned(pl, order) && Collected(g, order, pl.b)
    && Addresses(g, pl.addr) && Paired(g, pd, pl.addr, pl.forkOf, pl.joinOf, pl.inclusiveForkOf)
  }

  method Arrange(g: Graph, start: nat) returns (pd: map<nat, nat>, order: seq<nat>)
    requires WellFormed(g) && Acyclic(Shape(g)) && start < |g.nodes|
    ensures Ordered(g, start, pd, order) && InGraph(g, order)
  {
    ShapeClosed(g);
    pd := PostDominatorPass.Compute(Shape(g));
    RegionMapExact(Shape(g), pd);
    order := Layout.StructuredOrder(Shape(g), start, RegionMap(Shape(g), pd));
    forall i | 0 <= i < |order| ensures order[i] < |g.nodes| { assert order[i] in order; }
  }

  method Collect(g: Graph, order: seq<nat>) returns (b: Boundaries)
    requires WellFormed(g) && InGraph(g, order)
    ensures Collected(g, order, b)
  {
    var timers := CollectTimers(g, order);
    var errors := CollectErrors(g, order);
    b := Boundaries(timers, errors, Lowering.Closes(g, timers));
  }

  lemma AllAddressed(g: Graph, b: Boundaries, order: seq<nat>, addr: map<nat, nat>)
    requires InGraph(g, order) && Addressed(order, Rooms(g, b, order), |order|, addr)
    requires forall n: nat :: n in order <==> n < |g.nodes|
    ensures Addresses(g, addr)
  {
    forall n: nat | n < |g.nodes| ensures n in addr {
      assert n in order;
      var i :| 0 <= i < |order| && order[i] == n;
    }
  }

  method Prepare(g: Graph, start: nat, now: nat) returns (pd: map<nat, nat>, order: seq<nat>, pl: Plan)
    requires WellFormed(g) && Acyclic(Shape(g)) && start < |g.nodes|
    ensures Prepared(g, start, pd, order, pl)
  {
    pd, order := Arrange(g, start);
    var b := Collect(g, order);
    var addr := AssignAddresses(order, Rooms(g, b, order));
    AllAddressed(g, b, order, addr);
    var forkOf, joinOf, inclusiveForkOf := ComputePairing(g, pd, addr);
    pl := Plan(g, b, addr, forkOf, joinOf, inclusiveForkOf, now);
  }

  /** The words were lowered from the graph: every node has words and they stand where the plan says. */
  ghost predicate Lowered(g: Graph, start: nat, pd: map<nat, nat>, order: seq<nat>, pl: Plan, p: Program) {
    && WellFormed(g) && Acyclic(Shape(g)) && FirstStart(g.nodes) == Some(start) && Prepared(g, start, pd, order, pl)
    && (forall n: nat :: n < |g.nodes| ==> Block(pl, n).Words?) && Laid(Bases(pl, order), Pieces(pl, order), |order|, p)
  }

  /** Lowers an acyclic graph that has a start. It refuses only if some node has no words;
      otherwise the words stand exactly where the plan says. */
  method Lower(g: Graph, now: nat) returns (r: Emitted, start: nat, pd: map<nat, nat>, order: seq<nat>, pl: Plan)
    requires WellFormed(g) && Acyclic(Shape(g))
    ensures r.Words? ==> FirstStart(g.nodes).Some?
    ensures FirstStart(g.nodes).Some? ==> FirstStart(g.nodes) == Some(start) && Prepared(g, start, pd, order, pl)
    ensures FirstStart(g.nodes).Some? ==> (r.Words? <==> forall n: nat :: n < |g.nodes| ==> Block(pl, n).Words?)
    ensures r.Words? ==> Lowered(g, start, pd, order, pl, r.words)
  {
    start, pd, order := 0, map[], [];
    pl := Plan(g, Boundaries(map[], map[], {}), map[], map[], map[], map[], now);
    var first := FirstStart(g.nodes);
    if first.None? { return Refused, start, pd, order, pl; }
    start := first.value;
    pd, order, pl := Prepare(g, start, now);
    r := Emit(pl, order);
    EveryNodeEmitted(g, order, pl);
  }

  lemma EveryNodeEmitted(g: Graph, order: seq<nat>, pl: Plan)
    requires pl.g == g && Planned(pl, order) && Addresses(g, pl.addr) && (forall n: nat :: n in order <==>
      n < |g.nodes|)
    ensures (exists i :: 0 <= i < |order| && Block(pl, order[i]).Refused?) <==>
            !(forall n: nat :: n < |g.nodes| ==> Block(pl, n).Words?)
  {
    if n: nat :| n < |g.nodes| && Block(pl, n).Refused? {
      assert n in order;
      var i :| 0 <= i < |order| && order[i] == n;
    }
    if i :| 0 <= i < |order| && Block(pl, order[i]).Refused? { assert order[i] in order; }
  }

  // ---------------------------------------------------------------- nesting gateways

  /** Nodes the flow from the start reaches are connected the way lowering relies on. */
  ghost predicate Wired(g: Graph, n: nat)
    requires WellFormed(g) && n < |g.nodes|
  {
    && !Structural(g.nodes[n])
    && (g.nodes[n].EndEvent? <==> g.flows[n] == [])
    && (g.nodes[n].GatewayXor? ==> DefaultFlow(g.flows[n], |g.flows[n]|).Some?)
    && (g.nodes[n].MultiInstance? ==> g.nodes[n].elements != [])
  }

  /** Every fork on the flow dominates, and is immediately post-dominated by, a join of
      its own, every join is some fork's, and there are no boundary events. */
  ghost predicate WellNested(g: Graph, start: nat, pd: map<nat, nat>, pl: Plan) {
    && WellFormed(g) && start < |g.nodes| && Nested(Shape(g), start, GatewayPairs(g, pd))
    && (forall n: nat :: n < |g.nodes| && Reaches(Shape(g), start, n) ==>
          && Wired(g, n)
          && (Forks(g.nodes[n]) ==> n in GatewayPairs(g, pd))
          && (Joins(g.nodes[n]) ==> IsJoin(GatewayPairs(g, pd), n)))
    && (forall n: nat :: !Guarded(pl.b, n)) && pl.b.closes == {}
  }

  ghost function LabelsOf(g: Graph, start: nat, pd: map<nat, nat>, order: seq<nat>): Labels {
    map n | n in Upto(|g.nodes|) && Reaches(Shape(g), start, n) :: LabelOf(Shape(g), GatewayPairs(g, pd), order, n)
  }

  /** What is common to the lemmas about one node. */
  ghost predicate Setting(g: Graph, start: nat, pd: map<nat, nat>, order: seq<nat>, site: Site, p: Program) {
    && Ordered(g, start, pd, order) && site.plan.g == g && WellNested(g, start, pd, site.plan) &&
       Lists(Shape(g), start, order)
    && Assembled(site, order, p) && Paired(g, pd, site.plan.addr, site.plan.forkOf, site.plan.joinOf,
       site.plan.inclusiveForkOf)
    && (forall n: nat {:trigger Built(site, n)} :: n < |g.nodes| ==> Built(site, n))
  }

  lemma AheadAddr(g: Graph, start: nat, pd: map<nat, nat>, order: seq<nat>, site: Site, p: Program, n: nat, t: nat)
    requires Setting(g, start, pd, order, site, p) && n < |g.nodes| && Reaches(Shape(g), start, n) &&
      Reaches(Shape(g), n, t) && n != t
    ensures t < |g.nodes| && site.plan.addr[t] >= site.plan.addr[n] + |site.words[n]|
  {
    var i, j := AheadIndex(Shape(g), start, order, n, t);
  }

  lemma FlowAhead(g: Graph, start: nat, pd: map<nat, nat>, order: seq<nat>, site: Site, p: Program, n: nat, i: nat)
    requires Setting(g, start, pd, order, site, p) && n < |g.nodes| && Reaches(Shape(g), start, n) && i < |g.flows[n]|
    ensures var t := g.flows[n][i].target;
      && t < |g.nodes| && Edge(Shape(g), n, t) && Reaches(Shape(g), start, t) &&
         site.plan.addr[t] >= site.plan.addr[n] + |site.words[n]|
  {
    var t := g.flows[n][i].target;
    assert Targets(g.flows[n])[i] == t;
    EdgeReaches(Shape(g), n, t);
    Trans(Shape(g), start, n, t);
    if n == t { assert IsPath(Shape(g), [n, n]); }
    AheadAddr(g, start, pd, order, site, p, n, t);
  }

  lemma LabelIs(g: Graph, start: nat, pd: map<nat, nat>, order: seq<nat>, n: nat)
    requires n < |g.nodes| && Reaches(Shape(g), start, n)
    ensures n in LabelsOf(g, start, pd, order)
    ensures LabelsOf(g, start, pd, order)[n] == LabelOf(Shape(g), GatewayPairs(g, pd), order, n)
  {
  }

  lemma PlainOnward(g: Graph, start: nat, pd: map<nat, nat>, order: seq<nat>, site: Site, p: Program, n: nat)
    requires Setting(g, start, pd, order, site, p) && n < |g.nodes| && Reaches(Shape(g), start, n)
    requires !Forks(g.nodes[n]) && !Joins(g.nodes[n])
    ensures Known(site)
    ensures var ls := LabelsOf(g, start, pd, order); n in ls && AllOnward(site, ls, n, ls[n])
  {
    var ls, d, joins := LabelsOf(g, start, pd, order), Shape(g), GatewayPairs(g, pd);
    LabelIs(g, start, pd, order, n);
    forall i | 0 <= i < |g.flows[n]| ensures Onward(site, ls, n, g.flows[n][i].target, ls[n]) {
      var t := g.flows[n][i].target;
      FlowAhead(g, start, pd, order, site, p, n, i);
      LabelIs(g, start, pd, order, t);
      NotPaired(g, pd, n);
      PlainLabel(d, start, joins, order, n, t);
    }
  }

  lemma NotPaired(g: Graph, pd: map<nat, nat>, n: nat)
    requires n < |g.nodes|
    ensures !Forks(g.nodes[n]) ==> n !in GatewayPairs(g, pd)
    ensures !Joins(g.nodes[n]) ==> !IsJoin(GatewayPairs(g, pd), n)
  {
    var joins := GatewayPairs(g, pd);
    if n in joins { assert Pairs(g, pd, n, joins[n]); }
    if f :| f in joins && joins[f] == n { assert Pairs(g, pd, f, n); }
  }

  lemma ForkOnward(g: Graph, start: nat, pd: map<nat, nat>, order: seq<nat>, site: Site, p: Program, n: nat)
    requires Setting(g, start, pd, order, site, p) && n < |g.nodes| && Reaches(Shape(g), start, n) && Forks(g.nodes[n])
    ensures Known(site)
    ensures var ls := LabelsOf(g, start, pd, order); n in ls && g.flows[n] != [] && AllOnward(site, ls, n, ls[n] + [n])
    ensures var ls, j := LabelsOf(g, start, pd, order), GatewayPairs(g, pd)[n]; Onward(site, ls, n, j, ls[n] + [n])
  {
    var ls, d, joins := LabelsOf(g, start, pd, order), Shape(g), GatewayPairs(g, pd);
    LabelIs(g, start, pd, order, n);
    forall i | 0 <= i < |g.flows[n]| ensures Onward(site, ls, n, g.flows[n][i].target, ls[n] + [n]) {
      var t := g.flows[n][i].target;
      FlowAhead(g, start, pd, order, site, p, n, i);
      LabelIs(g, start, pd, order, t);
      ForkLabel(d, start, joins, order, n, t);
    }
    FlowAhead(g, start, pd, order, site, p, n, 0);
    ForkLabel(d, start, joins, order, n, g.flows[n][0].target);
    PdReached(d, joins[n], n);
    Trans(d, start, n, joins[n]);
    AheadAddr(g, start, pd, order, site, p, n, joins[n]);
    LabelIs(g, start, pd, order, joins[n]);
  }

  lemma OwnFork(g: Graph, start: nat, pd: map<nat, nat>, order: seq<nat>, site: Site, p: Program, n: nat, own: nat)
    requires Setting(g, start, pd, order, site, p) && n < |g.nodes| && Joins(g.nodes[n])
    requires own in GatewayPairs(g, pd) && GatewayPairs(g, pd)[own] == n
    ensures own < |g.nodes| && Forks(g.nodes[own])
    ensures var pairing := if g.nodes[n].GatewayAnd? then site.plan.forkOf else site.plan.inclusiveForkOf;
      n in pairing && pairing[n] == ForkAddr(g, site.plan.addr, own)
  {
    assert Pairs(g, pd, own, n);
    var f := LastFork(g, pd, n, |g.nodes|).value;
    assert Pairs(g, pd, f, n);
    assert f in GatewayPairs(g, pd) && GatewayPairs(g, pd)[f] == n;
  }

  lemma JoinOnward(g: Graph, start: nat, pd: map<nat, nat>, order: seq<nat>, site: Site, p: Program, n: nat)
    requires Setting(g, start, pd, order, site, p) && n < |g.nodes| && Reaches(Shape(g), start, n) && Joins(g.nodes[n])
    ensures Known(site)
    ensures var ls, pairing := LabelsOf(g, start, pd, order), if g.nodes[n].GatewayAnd? then site.plan.forkOf
      else site.plan.inclusiveForkOf;
      n in ls && Scoping.Closes(site, ls, n, pairing) && NextOnward(site, ls, n, n, ls[n][..|ls[n]| - 1])
  {
    var ls, d, joins := LabelsOf(g, start, pd, order), Shape(g), GatewayPairs(g, pd);
    LabelIs(g, start, pd, order, n);
    var own :| own in joins && joins[own] == n;
    OwnFork(g, start, pd, order, site, p, n, own);
    LabelIs(g, start, pd, order, own);
    FlowAhead(g, start, pd, order, site, p, n, 0);
    var t := g.flows[n][0].target;
    LabelIs(g, start, pd, order, t);
    JoinLabel(d, start, joins, order, own, n, t);
    assert ls[n][..|ls[n]| - 1] == ls[t];
  }

  lemma InclusiveJoinAt(g: Graph, start: nat, pd: map<nat, nat>, order: seq<nat>, site: Site, p: Program, n: nat)
    requires Setting(g, start, pd, order, site, p) && n in GatewayPairs(g, pd) && n < |g.nodes| &&
      g.nodes[n].GatewayInclusive?
    ensures n in site.plan.joinOf && GatewayPairs(g, pd)[n] < |g.nodes| &&
      site.plan.joinOf[n] == site.plan.addr[GatewayPairs(g, pd)[n]]
  {
    assert Pairs(g, pd, n, GatewayPairs(g, pd)[n]);
  }

  lemma EndsEmpty(g: Graph, start: nat, pd: map<nat, nat>, order: seq<nat>, site: Site, p: Program, n: nat)
    requires Setting(g, start, pd, order, site, p) && n < |g.nodes| && Reaches(Shape(g), start, n)
    requires n == start || g.nodes[n].EndEvent?
    ensures n in LabelsOf(g, start, pd, order) && LabelsOf(g, start, pd, order)[n] == []
  {
    var d, joins := Shape(g), GatewayPairs(g, pd);
    LabelIs(g, start, pd, order, n);
    if n == start {
      NothingOpenAtStart(d, start, joins);
    } else {
      NotPaired(g, pd, n);
      NothingOpenAtSink(d, start, joins, n);
    }
    EmptyLabel(d, joins, order, n);
  }

  lemma NodeLabelled(g: Graph, start: nat, pd: map<nat, nat>, order: seq<nat>, site: Site, p: Program, n: nat)
    requires Setting(g, start, pd, order, site, p) && n < |g.nodes| && Reaches(Shape(g), start, n)
    ensures Known(site) && n in LabelsOf(g, start, pd, order) && LabelledAt(site, LabelsOf(g, start, pd, order), n)
  {
    var ls, node := LabelsOf(g, start, pd, order), g.nodes[n];
    if node.EndEvent? {
      EndsEmpty(g, start, pd, order, site, p, n);
    } else if Joins(node) {
      JoinOnward(g, start, pd, order, site, p, n);
    } else if Forks(node) {
      ForkOnward(g, start, pd, order, site, p, n);
      if node.GatewayInclusive? { InclusiveJoinAt(g, start, pd, order, site, p, n); }
    } else {
      PlainOnward(g, start, pd, order, site, p, n);
      assert g.flows[n] != [] && Onward(site, ls, n, g.flows[n][0].target, ls[n]);
    }
  }

  lemma StartFirst(g: Graph, start: nat, pd: map<nat, nat>, order: seq<nat>)
    requires Ordered(g, start, pd, order)
    ensures |order| > 0 && order[0] == start
  {
    Layout.LayoutHead(Shape(g), RegionMap(Shape(g), pd), start);
  }

  /** The labels of a well-nested graph are the open forks of each node. */
  lemma NestedIsLabelled(g: Graph, start: nat, pd: map<nat, nat>, order: seq<nat>, site: Site, p: Program)
    requires Setting(g, start, pd, order, site, p) && site.plan.addr[start] == 0
    ensures Labelled(site, LabelsOf(g, start, pd, order), start)
  {
    var ls := LabelsOf(g, start, pd, order);
    Refl(Shape(g), start);
    EndsEmpty(g, start, pd, order, site, p, start);
    forall n | n in ls ensures n < |g.nodes| && LabelledAt(site, ls, n) {
      NodeLabelled(g, start, pd, order, site, p, n);
    }
  }

  /** The plan with the words of every node. */
  function SiteOf(pl: Plan): (site: Site)
    requires |pl.g.nodes| == |pl.g.flows| && forall n: nat :: n < |pl.g.nodes| ==> n in pl.addr
    ensures site.plan == pl && |site.words| == |pl.g.nodes|
    ensures forall n :: 0 <= n < |site.words| ==> site.words[n] == WordsOf(pl, n)
  {
    Site(pl, seq(|pl.g.nodes|, n requires 0 <= n < |pl.g.nodes| => WordsOf(pl, n)))
  }

  lemma {:induction false} FarFits(bases: seq<nat>, pieces: seq<seq<Instr>>, i: nat, j: nat)
    requires Fits(bases, pieces) && i < j < |bases|
    ensures bases[i] + |pieces[i]| <= bases[j]
  {
    if i + 1 < j { FarFits(bases, pieces, i, j - 1); }
  }

  lemma InOrder(pl: Plan, order: seq<nat>, site: Site, i: nat, j: nat)
    requires Planned(pl, order) && Known(site) && site.plan == pl && i < j < |order| && order[i] < |site.words|
    requires site.words[order[i]] == WordsOf(pl, order[i]) && Fits(Bases(pl, order), Pieces(pl, order))
    ensures pl.addr[order[i]] + |site.words[order[i]]| <= pl.addr[order[j]]
  {
    FarFits(Bases(pl, order), Pieces(pl, order), i, j);
  }

  lemma StandsAt(pl: Plan, order: seq<nat>, site: Site, p: Program, n: nat)
    requires Planned(pl, order) && Known(site) && site.plan == pl && n in order && n < |site.words|
    requires site.words[n] == WordsOf(pl, n) && Laid(Bases(pl, order), Pieces(pl, order), |order|, p)
    ensures Placed(p, pl.addr[n], site.words[n])
  {
    var i :| 0 <= i < |order| && order[i] == n;
    assert Placed(p, Bases(pl, order)[i], Pieces(pl, order)[i]);
  }

  /** The emitted program is assembled from the words of its nodes. */
  lemma EmittedIsAssembled(g: Graph, start: nat, pd: map<nat, nat>, order: seq<nat>, pl: Plan, p: Program)
    requires Prepared(g, start, pd, order, pl) && Laid(Bases(pl, order), Pieces(pl, order), |order|, p)
    ensures Assembled(SiteOf(pl), order, p) && pl.addr[start] == 0
  {
    var site := SiteOf(pl);
    PiecesFit(pl, order);
    forall i, j | 0 <= i < j < |order| ensures pl.addr[order[i]] + |site.words[order[i]]| <= pl.addr[order[j]] {
      InOrder(pl, order, site, i, j);
    }
    forall n: nat | n < |g.nodes| ensures Placed(p, pl.addr[n], site.words[n]) {
      StandsAt(pl, order, site, p, n);
    }
    StartFirst(g, start, pd, order);
    assert Bases(pl, order)[0] == pl.addr[order[0]];
  }

  lemma SettingOf(g: Graph, start: nat, pd: map<nat, nat>, order: seq<nat>, pl: Plan, p: Program, site: Site)
    requires Prepared(g, start, pd, order, pl) && WellNested(g, start, pd, pl) &&
      Layout.FlowsForward(Shape(g), start, order)
    requires Addresses(pl.g, pl.addr) && site == SiteOf(pl) && Assembled(site, order, p)
    requires forall n: nat :: n < |g.nodes| ==> Block(pl, n).Words?
    ensures Setting(g, start, pd, order, site, p)
  {
    forall n: nat | n < |g.nodes| ensures Built(site, n) { assert Block(pl, n).Words?; }
  }

  /** A lowered, well-nested graph with branches in order is admitted to the machine: every
      theorem about admitted programs holds of it. */
  lemma CompiledIsAdmitted(g: Graph, start: nat, pd: map<nat, nat>, order: seq<nat>, pl: Plan, p: Program)
    returns (site: Site, e: map<nat, Scopes>)
    requires Lowered(g, start, pd, order, pl, p) && WellNested(g, start, pd, pl)
    requires LayoutExact.BranchesOrdered(Shape(g), RegionMap(Shape(g), pd), start)
    ensures Setting(g, start, pd, order, site, p) && site.plan == pl && pl.addr[start] == 0
    ensures Admitted(p, e) && Agrees(site, LabelsOf(g, start, pd, order), e) && OnlyBarriers(e)
  {
    RegionMapExact(Shape(g), pd);
    LayoutExact.OrderedGoesForward(Shape(g), RegionMap(Shape(g), pd), start, order);
    EmittedIsAssembled(g, start, pd, order, pl, p);
    site := SiteOf(pl);
    SettingOf(g, start, pd, order, pl, p, site);
    NestedIsLabelled(g, start, pd, order, site, p);
    e := LabelledIsAdmitted(site, order, LabelsOf(g, start, pd, order), start, p);
    UnguardedBarriers(site, LabelsOf(g, start, pd, order), e);
  }
}
