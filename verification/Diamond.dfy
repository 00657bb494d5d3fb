/** A parallel fork with a task on each branch: the compiler theorem applies to it. */
module Diamond {
  import opened Options
  import opened Graphs
  import opened Regions
  import opened Bytecode
  import KernelTermination
  import opened Ir
  import opened Blocks
  import opened Lowering
  import opened Pairing
  import opened Scoping
  import opened OpenForks
  import opened Compiler
  import opened SmallGraphs
  import Layout
  import LayoutExact
  import opened LayoutLeaks
  import opened SimulationTheorems
  import opened CompilerCorrectness

  const DIAMOND: Graph := Graph(
    [Start, GatewayAnd(Diverging), ServiceTask(0), ServiceTask(1), GatewayAnd(Converging), EndEvent(false)],
    [[Flow(1, None)], [Flow(2, None), Flow(3, None)], [Flow(4, None)], [Flow(4, None)], [Flow(5, None)], []])

  /** It has the shape of the graph that leaks. */
  lemma DiamondShape()
    ensures WellFormed(DIAMOND) && Shape(DIAMOND) == LEAKY_SHAPE && Closed(LEAKY_SHAPE) && Acyclic(LEAKY_SHAPE)
  {
    assert Targets([Flow(1, None)]) == [1] && Targets([Flow(2, None), Flow(3, None)]) == [2, 3];
    assert Targets([Flow(4, None)]) == [4] && Targets([Flow(5, None)]) == [5] && Targets([]) == [];
    forall u: nat, v: nat | Edge(LEAKY_SHAPE, u, v) ensures v < |LEAKY_SHAPE| {}
    AscendingAcyclic(LEAKY_SHAPE);
  }

  // ---------------------------------------------------------------- nesting

  lemma DiamondPairs(pd: map<nat, nat>)
    requires 1 in pd && pd[1] == 4
    ensures GatewayPairs(DIAMOND, pd) == map[1 := 4]
  {
    assert Pairs(DIAMOND, pd, 1, 4);
  }

  lemma ForkFirst(p: seq<nat>)
    requires PathFromTo(LEAKY_SHAPE, p, 0, 4)
    ensures 1 in p
  {
    assert Edge(LEAKY_SHAPE, p[0], p[1]);
    assert p[1] == 1;
  }

  lemma DiamondNested()
    requires Closed(LEAKY_SHAPE) && Acyclic(LEAKY_SHAPE)
    ensures Nested(LEAKY_SHAPE, 0, map[1 := 4])
  {
    assert Edge(LEAKY_SHAPE, 0, 1);
    EdgeReaches(LEAKY_SHAPE, 0, 1);
    LeakyMerge();
    forall p | PathFromTo(LEAKY_SHAPE, p, 0, 4) ensures 1 in p { ForkFirst(p); }
  }

  lemma OnlyHead(u: nat, p: seq<nat>, x: nat)
    requires 2 <= u <= 3 && Via(LEAKY_SHAPE, u, Some(4), x, p)
    ensures x == u
  {
    assert |p| > 1 ==> Edge(LEAKY_SHAPE, p[0], p[1]);
  }

  lemma DiamondOrdered()
    ensures LayoutExact.BranchesOrdered(LEAKY_SHAPE, map[1 := 4], 0)
  {
    var m: map<nat, nat> := map[1 := 4];
    forall x: nat ensures !(In(LEAKY_SHAPE, 2, Some(4), x) && In(LEAKY_SHAPE, 3, Some(4), x)) {
      if In(LEAKY_SHAPE, 2, Some(4), x) {
        var p :| Via(LEAKY_SHAPE, 2, Some(4), x, p);
        OnlyHead(2, p, x);
      }
      if In(LEAKY_SHAPE, 3, Some(4), x) {
        var p :| Via(LEAKY_SHAPE, 3, Some(4), x, p);
        OnlyHead(3, p, x);
      }
    }
    assert Layout.Apart(LEAKY_SHAPE, 2, 3, Some(4));
    forall n: nat | n < |LEAKY_SHAPE| && |LEAKY_SHAPE[n]| > 1
      ensures LayoutExact.HeadsOk(LEAKY_SHAPE, LEAKY_SHAPE[n], Layout.StopOf(m, n)) {
      assert n == 1 && LEAKY_SHAPE[1] == [2, 3] && Layout.StopOf(m, 1) == Some(4);
      assert LayoutExact.HeadOk(LEAKY_SHAPE, [2, 3], Some(4), 0);
      assert LayoutExact.HeadOk(LEAKY_SHAPE, [2, 3], Some(4), 1);
    }
  }

  // ---------------------------------------------------------------- words

  lemma DiamondUnguarded(order: seq<nat>, b: Boundaries)
    requires Collected(DIAMOND, order, b)
    ensures (forall h: nat :: !Guarded(b, h)) && b.closes == {}
  {
    forall h: nat ensures h !in b.timers && ErrorsOf(b, h) == [] {
      TimerAbsent(DIAMOND, order, h);
      ErrorsAbsent(DIAMOND, order, h);
    }
  }

  lemma DiamondEmits(pd: map<nat, nat>, pl: Plan, n: nat)
    requires pl.g == DIAMOND && Addresses(DIAMOND, pl.addr) && 1 in pd && pd[1] == 4 && n < 6
    requires ForkTable(DIAMOND, pd, pl.addr, 6, false, pl.forkOf) && !Guarded(pl.b, 2) && !Guarded(pl.b, 3)
    ensures Block(pl, n).Words?
  {
    assert Pairs(DIAMOND, pd, 1, 4);
    var r := LastFork(DIAMOND, pd, 4, 6);
    assert r.Some? && 4 in pl.forkOf;
    assert DIAMOND.flows[1][0].target == 2 && DIAMOND.flows[1][1].target == 3;
    assert NextAddr(pl, 2).Some? && NextAddr(pl, 3).Some? && NextAddr(pl, 4).Some?;
  }

  // ---------------------------------------------------------------- the theorem applies

  lemma DiamondWired(pd: map<nat, nat>, n: nat)
    requires WellFormed(DIAMOND) && 1 in pd && pd[1] == 4 && n < 6
    ensures Wired(DIAMOND, n)
    ensures Forks(DIAMOND.nodes[n]) ==> n in map[1 := 4]
    ensures Joins(DIAMOND.nodes[n]) ==> IsJoin(map[1 := 4], n)
  {
    var m: map<nat, nat> := map[1 := 4];
    assert m[1] == 4;
  }

  /** Whatever order and addresses the compiler chooses, the graph lowers and its fork nests. */
  lemma DiamondFits(pd: map<nat, nat>, order: seq<nat>, pl: Plan, p: Program)
    requires Prepared(DIAMOND, 0, pd, order, pl) && Laid(Bases(pl, order), Pieces(pl, order), |order|, p)
    ensures Lowered(DIAMOND, 0, pd, order, pl, p) && WellNested(DIAMOND, 0, pd, pl)
    ensures LayoutExact.BranchesOrdered(Shape(DIAMOND), RegionMap(Shape(DIAMOND), pd), 0)
    ensures GatewayPairs(DIAMOND, pd) == map[1 := 4]
  {
    DiamondShape();
    LeakyRegions(pd);
    assert 1 in RegionMap(LEAKY_SHAPE, pd);
    DiamondPairs(pd);
    DiamondNested();
    DiamondOrdered();
    DiamondUnguarded(order, pl.b);
    forall n: nat | n < 6 ensures Block(pl, n).Words? { DiamondEmits(pd, pl, n); }
    forall n: nat | n < 6 ensures Wired(DIAMOND, n) && (Forks(DIAMOND.nodes[n]) ==> n in map[1 := 4]) &&
      (Joins(DIAMOND.nodes[n]) ==> IsJoin(map[1 := 4], n)) { DiamondWired(pd, n); }
  }

  /** So it runs as drawn. */
  lemma DiamondIsCorrect(pd: map<nat, nat>, order: seq<nat>, pl: Plan, p: Program)
    returns (site: Site)
    requires Prepared(DIAMOND, 0, pd, order, pl) && Laid(Bases(pl, order), Pieces(pl, order), |order|, p)
    ensures Known(site) && site.plan == pl && |DIAMOND.nodes| == |DIAMOND.flows|
    ensures EveryPlayEnacted(DIAMOND, 0, map[1 := 4], site, p) && EveryRunDepicted(DIAMOND, 0, map[1 := 4], site, p)
    ensures RunsWell(p, KernelTermination.Work(p, 0)) && NeverRefused(p) && NeverStuck(p)
  {
    DiamondFits(pd, order, pl, p);
    site := CompilerIsCorrect(DIAMOND, 0, pd, order, pl, p);
  }
}
