/** Where the words of a node run out, control goes on to whatever node is laid out next.
    An exclusive gateway without a default, and a task without an outgoing flow, do that. */
module LayoutLeaks {
  import opened Options
  import opened Segments
  import opened Graphs
  import opened Bytecode
  import opened Kernel
  import opened Bursts
  import opened Ir
  import opened Blocks
  import opened Lowering
  import opened GatewayRuns
  import Layout
  import TokenGame
  import opened PostDominators
  import opened Pairing
  import opened Compiler
  import opened SmallGraphs

  lemma GapWord(bases: seq<nat>, pieces: seq<seq<Instr>>, p: Program, i: nat, a: nat)
    requires |bases| == |pieces| && Laid(bases, pieces, |bases|, p) && i + 1 < |bases| &&
      bases[i] + |pieces[i]| <= a < bases[i + 1]
    ensures a < |p| && p[a] == Jump(bases[i + 1])
  {
  }

  lemma PieceWord(bases: seq<nat>, pieces: seq<seq<Instr>>, p: Program, i: nat)
    requires |bases| == |pieces| && Laid(bases, pieces, |bases|, p) && i < |bases|
    ensures Placed(p, bases[i], pieces[i])
  {
  }

  /** In `p` the words of node `n` stand at its base, a node with room left over is followed
      by a jump to `b`, and one without is followed by `b` itself. */
  ghost predicate Precedes(pl: Plan, p: Program, n: nat, b: nat) {
    && n < |pl.g.nodes| == |pl.g.flows| && n in pl.addr && b == pl.addr[n] + Room(pl.g, pl.b, n)
    && Placed(p, pl.addr[n], WordsOf(pl, n))
    && (var a := pl.addr[n] + |WordsOf(pl, n)|; a < b ==> a < |p| && p[a] == Jump(b))
  }

  lemma NextBase(pl: Plan, order: seq<nat>, i: nat)
    requires Planned(pl, order) && i + 1 < |order|
    ensures pl.addr[order[i + 1]] == pl.addr[order[i]] + Room(pl.g, pl.b, order[i])
  {
    var rooms := Rooms(pl.g, pl.b, order);
    assert Base(rooms, i + 1) == Base(rooms, i) + rooms[i];
  }

  /** Every node but the last is followed by the next one of the layout. */
  lemma LaidPrecedes(pl: Plan, order: seq<nat>, p: Program, i: nat)
    requires Planned(pl, order) && Laid(Bases(pl, order), Pieces(pl, order), |order|, p) && i + 1 < |order|
    ensures Precedes(pl, p, order[i], pl.addr[order[i + 1]])
  {
    var bases, pieces := Bases(pl, order), Pieces(pl, order);
    NextBase(pl, order, i);
    PieceWord(bases, pieces, p, i);
    var a := bases[i] + |pieces[i]|;
    if a < bases[i + 1] { GapWord(bases, pieces, p, i, a); }
  }

  lemma {:induction false} TestsOnly(pl: Plan, n: nat)
    requires n < |pl.g.nodes| == |pl.g.flows| && n in pl.addr && pl.g.nodes[n].GatewayXor? && Block(pl, n).Words?
    requires DefaultFlow(pl.g.flows[n], |pl.g.flows[n]|).None?
    ensures WordsOf(pl, n) == Flatten(XorTests(pl, pl.g.flows[n])) && |WordsOf(pl, n)| < Room(pl.g, pl.b, n)
  {
    var flows := pl.g.flows[n];
    XorFits(pl, flows, |flows|);
    assert XorTests(pl, flows)[..|flows|] == XorTests(pl, flows);
  }

  lemma {:induction false} TestsLeak(pl: Plan, p: Program, s: State, f: nat, a: nat, flows: seq<Flow>, b: nat)
    requires Runnable(s, f) && Placed(p, a, Flatten(XorTests(pl, flows))) && DefaultFlow(flows, |flows|).None?
    requires a + |Flatten(XorTests(pl, flows))| < |p| && p[a + |Flatten(XorTests(pl, flows))|] == Jump(b)
    requires a + |Flatten(XorTests(pl, flows))| < b
    ensures var m := TokenGame.Chosen(flows, s.flags);
      RunsIn(p, Loc(s, f, a, []), f, Loc(s, f, if m.Some? then Land(pl, flows[m.value]) else b, []), a, b)
  {
    assert XorTests(pl, flows)[..0] == [];
    TestsRun(pl, p, s, f, a, flows, 0, b, b);
  }

  /** Where the words of an exclusive gateway send a fibre: along the flow that the token game
      chooses, and on to the next node where the game refuses. */
  function Destination(pl: Plan, n: nat, flags: map<nat, Value>, b: nat): nat
    requires n < |pl.g.flows|
  {
    var m := TokenGame.Chosen(pl.g.flows[n], flags);
    if m.Some? then Land(pl, pl.g.flows[n][m.value]) else b
  }

  /** An exclusive gateway without a default: the first met test is followed, and when none
      is met control goes to the node laid out next, where the token game refuses. */
  lemma {:induction false} UndefaultedGoesOn(pl: Plan, p: Program, s: State, f: nat, n: nat, b: nat)
    requires Precedes(pl, p, n, b) && Runnable(s, f)
    requires pl.g.nodes[n].GatewayXor? && Block(pl, n).Words? && DefaultFlow(pl.g.flows[n], |pl.g.flows[n]|).None?
    ensures RunsIn(p, Loc(s, f, pl.addr[n], []), f, Loc(s, f, Destination(pl, n, s.flags, b), []), pl.addr[n], b)
  {
    TestsOnly(pl, n);
    TestsLeak(pl, p, s, f, pl.addr[n], pl.g.flows[n], b);
  }

  lemma DeadEndWords(pl: Plan, n: nat)
    requires n < |pl.g.nodes| == |pl.g.flows| && n in pl.addr && Hosts(pl.g.nodes[n]) && pl.g.flows[n] == [] &&
      !Guarded(pl.b, n)
    ensures |WordsOf(pl, n)| == 2 == Room(pl.g, pl.b, n) && WordsOf(pl, n)[1] == Jump(pl.addr[n] + 2)
  {
  }

  /** A task without an outgoing flow, once done, goes on to the node laid out next. */
  lemma DeadEndGoesOn(pl: Plan, p: Program, s: State, f: nat, n: nat, b: nat)
    requires Precedes(pl, p, n, b) && Runnable(s, f)
    requires Hosts(pl.g.nodes[n]) && pl.g.flows[n] == [] && !Guarded(pl.b, n)
    ensures Runs(p, Loc(s, f, pl.addr[n] + 1, []), f, Loc(s, f, b, []))
  {
    DeadEndWords(pl, n);
    PlacedWord(p, pl.addr[n], WordsOf(pl, n), 1);
    JumpRuns(p, s, f, pl.addr[n] + 1, []);
  }

  // ---------------------------------------------------------------- a graph where that is another branch

  const ANY := Condition(0, Eq, BoolLiteral(true))

  /** A parallel fork whose first branch is an exclusive gateway with one conditional flow,
      and whose second branch is a task. */
  const LEAKY: Graph := Graph(
    [Start, GatewayAnd(Diverging), GatewayXor, ServiceTask(0), GatewayAnd(Converging), EndEvent(false)],
    [[Flow(1, None)], [Flow(2, None), Flow(3, None)], [Flow(4, Some(ANY))], [Flow(4, None)], [Flow(5, None)], []])

  const LEAKY_SHAPE: Digraph := [[1], [2, 3], [4], [4], [5], []]

  lemma LeakyShape()
    ensures WellFormed(LEAKY) && Shape(LEAKY) == LEAKY_SHAPE && Closed(LEAKY_SHAPE)
  {
    assert Targets([Flow(1, None)]) == [1] && Targets([Flow(2, None), Flow(3, None)]) == [2, 3];
    assert Targets([Flow(4, Some(ANY))]) == [4] && Targets([Flow(4, None)]) == [4] && Targets([Flow(5, None)]) == [5];
    assert Targets([]) == [];
    forall u: nat, v: nat | Edge(LEAKY_SHAPE, u, v) ensures v < |LEAKY_SHAPE| {}
  }

  /** The gateway's only flow goes to the join, but the second branch is laid out next. */
  lemma LeakyOrder()
    ensures Closed(LEAKY_SHAPE)
    ensures Layout.Layout(LEAKY_SHAPE, map[1 := 4], 0, None, []) == [0, 1, 2, 3, 4, 5]
    ensures 3 !in LEAKY_SHAPE[2] && DefaultFlow(LEAKY.flows[2], 1).None?
  {
    LeakyShape();
    LeakyBranches();
    LeakyTail();
    var m: map<nat, nat> := map[1 := 4];
    assert [] + [0] == [0] && [0] + [1] == [0, 1];
    assert Layout.Layout(LEAKY_SHAPE, m, 1, None, [0]) == [0, 1, 2, 3, 4, 5];
    assert Layout.LayoutEach(LEAKY_SHAPE, m, [1], None, [0]) == Layout.LayoutEach(LEAKY_SHAPE, m, [], None,
      [0, 1, 2, 3, 4, 5]);
  }

  lemma {:induction false} LeakyOne(n: nat, order: seq<nat>)
    requires Closed(LEAKY_SHAPE) && 2 <= n <= 3 && n !in order && 4 !in order
    ensures Layout.Layout(LEAKY_SHAPE, map[1 := 4], n, Some(4), order) == order + [n]
  {
    var m: map<nat, nat> := map[1 := 4];
    assert LEAKY_SHAPE[n] == [4];
    assert Layout.LayoutEach(LEAKY_SHAPE, m, [4], Some(4), order + [n]) == Layout.LayoutEach(LEAKY_SHAPE, m, [],
      Some(4), order + [n]);
  }

  lemma LeakyBranches()
    requires Closed(LEAKY_SHAPE)
    ensures Layout.LayoutEach(LEAKY_SHAPE, map[1 := 4], [2, 3], Some(4), [0, 1]) == [0, 1, 2, 3]
  {
    var m: map<nat, nat> := map[1 := 4];
    LeakyOne(2, [0, 1]);
    LeakyOne(3, [0, 1, 2]);
    assert [0, 1] + [2] == [0, 1, 2] && [0, 1, 2] + [3] == [0, 1, 2, 3] && [2, 3][1..] == [3];
    assert Layout.LayoutEach(LEAKY_SHAPE, m, [3], Some(4), [0, 1, 2]) == Layout.LayoutEach(LEAKY_SHAPE, m, [], Some(4),
      [0, 1, 2, 3]);
  }

  lemma LeakyTail()
    requires Closed(LEAKY_SHAPE)
    ensures Layout.Layout(LEAKY_SHAPE, map[1 := 4], 4, None, [0, 1, 2, 3]) == [0, 1, 2, 3, 4, 5]
  {
    var m: map<nat, nat> := map[1 := 4];
    assert LEAKY_SHAPE[4] == [5] && LEAKY_SHAPE[5] == [];
    assert [0, 1, 2, 3] + [4] == [0, 1, 2, 3, 4] && [0, 1, 2, 3, 4] + [5] == [0, 1, 2, 3, 4, 5];
    assert Layout.Layout(LEAKY_SHAPE, m, 5, None, [0, 1, 2, 3, 4]) == [0, 1, 2, 3, 4, 5];
    assert Layout.LayoutEach(LEAKY_SHAPE, m, [5], None, [0, 1, 2, 3, 4]) == Layout.LayoutEach(LEAKY_SHAPE, m, [], None,
      [0, 1, 2, 3, 4, 5]);
  }

  lemma LeakyMerge()
    requires Closed(LEAKY_SHAPE)
    ensures Immediate(LEAKY_SHAPE, 4, 1)
  {
    PdSelf(LEAKY_SHAPE, 4);
    MeetsThrough(LEAKY_SHAPE, 4, 2);
    MeetsThrough(LEAKY_SHAPE, 4, 3);
    MeetsThrough(LEAKY_SHAPE, 4, 1);
    forall e: nat | e < |LEAKY_SHAPE| && e != 1 && PostDominates(LEAKY_SHAPE, e, 1)
      ensures PostDominates(LEAKY_SHAPE, e, 4) {
      PdSuccessors(LEAKY_SHAPE, e, 1);
      assert LEAKY_SHAPE[1][0] == 2 && LEAKY_SHAPE[1][1] == 3 && LEAKY_SHAPE[2][0] == 4 && LEAKY_SHAPE[3][0] == 4;
      if e == 2 { PdSuccessors(LEAKY_SHAPE, e, 3); } else { PdSuccessors(LEAKY_SHAPE, e, 2); }
    }
  }

  lemma LeakyRegions(pd: map<nat, nat>)
    requires Closed(LEAKY_SHAPE) && IsPostDominatorMap(LEAKY_SHAPE, pd)
    ensures RegionMap(LEAKY_SHAPE, pd) == map[1 := 4]
  {
    AscendingAcyclic(LEAKY_SHAPE);
    LeakyMerge();
    OneSplit(LEAKY_SHAPE, pd, 1, 4);
  }

  lemma WholeOrder(order: seq<nat>)
    requires Distinct(order) && (forall n: nat :: n in order <==> n < 6) && [0, 1, 2, 3, 4, 5] <= order
    ensures order == [0, 1, 2, 3, 4, 5]
  {
    PermutationLength(order, 6);
  }

  lemma LeakyOrdered(pd: map<nat, nat>, order: seq<nat>)
    requires Ordered(LEAKY, 0, pd, order)
    ensures order == [0, 1, 2, 3, 4, 5]
  {
    LeakyShape();
    LeakyRegions(pd);
    LeakyOrder();
    WholeOrder(order);
  }

  /** The token game refuses here. */
  lemma LeakyUnmet(flags: map<nat, Value>)
    requires !Truthy(TokenGame.Read(flags, 0))
    ensures TokenGame.Chosen(LEAKY.flows[2], flags) == None
  {
    assert TokenGame.FirstMatch(LEAKY.flows[2], flags, 1) == None;
    assert TokenGame.FirstMatch(LEAKY.flows[2], flags, 0) == None;
  }

  lemma LeakyPrecedes(pd: map<nat, nat>, order: seq<nat>, pl: Plan, p: Program)
    requires Prepared(LEAKY, 0, pd, order, pl) && Laid(Bases(pl, order), Pieces(pl, order), |order|, p)
    ensures 3 in pl.addr && Precedes(pl, p, 2, pl.addr[3])
  {
    LeakyOrdered(pd, order);
    LaidPrecedes(pl, order, p, 2);
  }

  lemma LeakyEmits(pl: Plan)
    requires pl.g == LEAKY && Addresses(LEAKY, pl.addr)
    ensures Block(pl, 2).Words?
  {
    assert LEAKY.flows[2][0].target == 4;
  }

  lemma {:induction false} LeakAt(pl: Plan, p: Program, s: State, f: nat, b: nat)
    requires pl.g == LEAKY && Precedes(pl, p, 2, b) && Block(pl, 2).Words? && Runnable(s, f)
    requires !Truthy(TokenGame.Read(s.flags, 0))
    ensures Runs(p, Loc(s, f, pl.addr[2], []), f, Loc(s, f, b, []))
  {
    LeakyUnmet(s.flags);
    assert DefaultFlow(LEAKY.flows[2], 1) == None by { assert DefaultFlow(LEAKY.flows[2], 0) == None; }
    UndefaultedGoesOn(pl, p, s, f, 2, b);
    RunsInRuns(p, Loc(s, f, pl.addr[2], []), f, Loc(s, f, b, []), pl.addr[2], b);
  }

  /** The leak itself: lowered, with its flag not set, the gateway of the first branch sends its
      fibre to the task of the second. */
  lemma {:induction false} LeakyLeaks(pd: map<nat, nat>, order: seq<nat>, pl: Plan, p: Program, s: State, f: nat)
    requires Prepared(LEAKY, 0, pd, order, pl) && Laid(Bases(pl, order), Pieces(pl, order), |order|, p)
    requires Runnable(s, f) && !Truthy(TokenGame.Read(s.flags, 0))
    ensures Runs(p, Loc(s, f, pl.addr[2], []), f, Loc(s, f, pl.addr[3], []))
  {
    LeakyPrecedes(pd, order, pl, p);
    LeakyEmits(pl);
    LeakAt(pl, p, s, f, pl.addr[3]);
  }
}
