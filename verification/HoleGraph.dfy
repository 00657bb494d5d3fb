/** A graph whose lowering falls into the gap of the error routes: a task in a parallel branch
    with a boundary timer that leads back to the join and a boundary error that leads to an end. */
module HoleGraph {
  import opened Options
  import opened Segments
  import opened Graphs
  import opened PostDominators
  import opened Bytecode
  import opened Ir
  import opened Blocks
  import opened Lowering
  import opened Pairing
  import opened Compiler
  import opened SmallGraphs
  import Layout

  const HOLE: Graph := Graph(
    [Start, GatewayAnd(Diverging), ServiceTask(0), BoundaryTimer(2, Duration(1000), true), BoundaryError(2, AnyError),
     GatewayAnd(Converging), EndEvent(false), EndEvent(false)],
    [[Flow(1, None)], [Flow(2, None), Flow(5, None)], [Flow(5, None)], [Flow(5, None)], [Flow(7, None)],
     [Flow(6, None)], [], []])

  const HOLE_SHAPE: Digraph := [[1], [2, 5], [5], [5], [7], [6], [], []]

  const HOLE_WORDS: Program :=
    [Jump(1), Fork([2, 9], 1),
     PushI64(1000), Guard(9), GuardArmTimer, GuardArmError(AnyError, 12), ExecNative(0), GuardEnd, Jump(9),
     Join(1), Jump(11), End, End]

  // ---------------------------------------------------------------- shape and order

  lemma HoleTargets(n: nat)
    requires n < 8
    ensures Targets(HOLE.flows[n]) == HOLE_SHAPE[n] && forall i :: 0 <= i < |HOLE.flows[n]| ==>
      n < HOLE.flows[n][i].target < 8
  {
  }

  lemma HoleShape()
    ensures WellFormed(HOLE) && Shape(HOLE) == HOLE_SHAPE && Closed(HOLE_SHAPE) && Acyclic(HOLE_SHAPE)
  {
    forall n | 0 <= n < 8
      ensures Targets(HOLE.flows[n]) == HOLE_SHAPE[n] && forall i :: 0 <= i < |HOLE.flows[n]| ==>
        n < HOLE.flows[n][i].target < 8
    {
      HoleTargets(n);
    }
    assert WellFormed(HOLE);
    ShapeClosed(HOLE);
    AscendingAcyclic(HOLE_SHAPE);
  }

  lemma HoleMerge()
    requires Closed(HOLE_SHAPE)
    ensures Immediate(HOLE_SHAPE, 5, 1)
  {
    PdSelf(HOLE_SHAPE, 5);
    MeetsThrough(HOLE_SHAPE, 5, 2);
    MeetsThrough(HOLE_SHAPE, 5, 1);
    forall e: nat | e < |HOLE_SHAPE| && e != 1 && PostDominates(HOLE_SHAPE, e, 1)
      ensures PostDominates(HOLE_SHAPE, e, 5) {
      PdSuccessors(HOLE_SHAPE, e, 1);
      assert HOLE_SHAPE[1][1] == 5;
    }
  }

  lemma HoleRegions(pd: map<nat, nat>)
    requires Closed(HOLE_SHAPE) && Acyclic(HOLE_SHAPE) && IsPostDominatorMap(HOLE_SHAPE, pd)
    ensures 1 in pd && pd[1] == 5 && RegionMap(HOLE_SHAPE, pd) == map[1 := 5]
  {
    HoleMerge();
    OneSplit(HOLE_SHAPE, pd, 1, 5);
  }

  lemma {:induction false} HoleBranches()
    requires Closed(HOLE_SHAPE)
    ensures Layout.LayoutEach(HOLE_SHAPE, map[1 := 5], [2, 5], Some(5), [0, 1]) == [0, 1, 2]
  {
    var m: map<nat, nat> := map[1 := 5];
    assert [0, 1] + [2] == [0, 1, 2] && [2, 5][1..] == [5] && [5][1..] == [];
    assert Layout.LayoutEach(HOLE_SHAPE, m, [5], Some(5), [0, 1, 2]) == [0, 1, 2];
    assert Layout.Layout(HOLE_SHAPE, m, 2, Some(5), [0, 1]) == [0, 1, 2];
  }

  lemma {:induction false} HoleTail()
    requires Closed(HOLE_SHAPE)
    ensures Layout.Layout(HOLE_SHAPE, map[1 := 5], 5, None, [0, 1, 2]) == [0, 1, 2, 5, 6]
  {
    var m: map<nat, nat> := map[1 := 5];
    assert [0, 1, 2] + [5] == [0, 1, 2, 5] && [0, 1, 2, 5] + [6] == [0, 1, 2, 5, 6];
    assert Layout.Layout(HOLE_SHAPE, m, 6, None, [0, 1, 2, 5]) == [0, 1, 2, 5, 6];
    assert Layout.LayoutEach(HOLE_SHAPE, m, [6], None, [0, 1, 2, 5]) == Layout.LayoutEach(HOLE_SHAPE, m, [], None,
      [0, 1, 2, 5, 6]);
  }

  lemma {:induction false} HoleLayout()
    requires Closed(HOLE_SHAPE)
    ensures Layout.Layout(HOLE_SHAPE, map[1 := 5], 0, None, []) == [0, 1, 2, 5, 6]
  {
    var m: map<nat, nat> := map[1 := 5];
    HoleBranches();
    HoleTail();
    assert [] + [0] == [0] && [0] + [1] == [0, 1];
    assert Layout.Layout(HOLE_SHAPE, m, 1, None, [0]) == [0, 1, 2, 5, 6];
    assert Layout.LayoutEach(HOLE_SHAPE, m, [1], None, [0]) == Layout.LayoutEach(HOLE_SHAPE, m, [], None,
      [0, 1, 2, 5, 6]);
  }

  /** The main flow comes first; the boundary events and the second end follow in some order. */
  ghost predicate HoleOrder(order: seq<nat>) {
    && Distinct(order) && |order| == 8 && (forall n: nat :: n in order <==> n < 8)
    && order[0] == 0 && order[1] == 1 && order[2] == 2 && order[3] == 5 && order[4] == 6
  }

  lemma HoleOrdered(pd: map<nat, nat>, order: seq<nat>)
    requires Ordered(HOLE, 0, pd, order)
    ensures HoleOrder(order) && 1 in pd && pd[1] == 5
  {
    HoleShape();
    HoleRegions(pd);
    HoleLayout();
    PermutationLength(order, 8);
    var main := [0, 1, 2, 5, 6];
    assert order[..5] == main;
  }

  /** Where a late node stands. */
  lemma HoleIndex(order: seq<nat>, n: nat) returns (k: nat)
    requires HoleOrder(order) && n in {3, 4, 7}
    ensures 5 <= k < 8 && order[k] == n
  {
    assert n in order;
    k :| 0 <= k < |order| && order[k] == n;
  }

  // ---------------------------------------------------------------- boundary events

  lemma {:induction false} HoleTimer(order: seq<nat>)
    requires HoleOrder(order)
    ensures forall i :: 0 <= i < |order| ==> order[i] < |HOLE.nodes|
    ensures TimerIn(HOLE, order, 2) == Some(TimerHost(3, Duration(1000), true))
    ensures forall h: nat :: h != 2 ==> TimerIn(HOLE, order, h) == None
  {
    forall i | 0 <= i < |order| ensures order[i] < 8 { assert order[i] in order; }
    var k := HoleIndex(order, 3);
    forall i | 0 <= i < |order| && i != k ensures order[i] != 3 {}
    TimerFound(HOLE, order, 2, k);
    forall h: nat | h != 2 ensures TimerIn(HOLE, order, h) == None { TimerAbsent(HOLE, order, h); }
  }

  lemma {:induction false} HoleError(order: seq<nat>)
    requires HoleOrder(order)
    ensures forall i :: 0 <= i < |order| ==> order[i] < |HOLE.nodes|
    ensures ErrorsIn(HOLE, order, 2) == [ErrorHost(4, AnyError)]
  {
    forall i | 0 <= i < |order| ensures order[i] < 8 { assert order[i] in order; }
    var k := HoleIndex(order, 4);
    forall i | 0 <= i < |order| && i != k ensures order[i] != 4 {}
    ErrorFound(HOLE, order, 2, k);
  }

  /** The boundary events the second pass sees. */
  ghost predicate HoleBounds(b: Boundaries) {
    && 2 in b.timers && b.timers[2] == TimerHost(3, Duration(1000), true)
    && ErrorsOf(b, 2) == [ErrorHost(4, AnyError)] && b.closes == {}
  }

  lemma HoleCollected(order: seq<nat>, b: Boundaries)
    requires HoleOrder(order) && Collected(HOLE, order, b)
    ensures HoleBounds(b)
  {
    HoleTimer(order);
    HoleError(order);
    assert (if 2 in b.timers then Some(b.timers[2]) else None) == TimerIn(HOLE, order, 2);
    assert ErrorsOf(b, 2) == ErrorsIn(HOLE, order, 2);
    forall h | h in b.timers ensures h == 2 {
      assert (if h in b.timers then Some(b.timers[h]) else None) == TimerIn(HOLE, order, h);
    }
  }

  // ---------------------------------------------------------------- addresses

  lemma HoleRoom(b: Boundaries, n: nat)
    requires HoleBounds(b) && n < 8
    ensures Room(HOLE, b, n) == (if n == 2 then 7 else if n == 5 then 2 else if n == 3 || n == 4 then 0 else 1)
  {
  }

  lemma {:induction false} HoleBase(b: Boundaries, order: seq<nat>, rooms: seq<nat>)
    requires HoleOrder(order) && HoleBounds(b) && InGraph(HOLE, order) && rooms == Rooms(HOLE, b, order)
    ensures Base(rooms, 0) == 0 && Base(rooms, 1) == 1 && Base(rooms, 2) == 2 && Base(rooms, 3) == 9
    ensures Base(rooms, 4) == 11 && Base(rooms, 5) == 12
  {
    HoleRoom(b, 0);
    HoleRoom(b, 1);
    HoleRoom(b, 2);
    HoleRoom(b, 5);
    HoleRoom(b, 6);
    assert rooms[0] == 1 && rooms[1] == 1 && rooms[2] == 7 && rooms[3] == 2 && rooms[4] == 1;
    assert Base(rooms, 1) == Base(rooms, 0) + rooms[0];
    assert Base(rooms, 2) == Base(rooms, 1) + rooms[1];
    assert Base(rooms, 3) == Base(rooms, 2) + rooms[2];
    assert Base(rooms, 4) == Base(rooms, 3) + rooms[3];
    assert Base(rooms, 5) == Base(rooms, 4) + rooms[4];
  }

  lemma {:induction false} HoleLate(b: Boundaries, order: seq<nat>, rooms: seq<nat>, k: nat)
    requires HoleOrder(order) && HoleBounds(b) && InGraph(HOLE, order) && rooms == Rooms(HOLE, b, order)
    requires 5 <= k < 8 && order[k] == 7
    ensures Base(rooms, k) == 12
  {
    HoleBase(b, order, rooms);
    HoleRoom(b, 3);
    HoleRoom(b, 4);
    forall i | 5 <= i < k ensures rooms[i] == 0 {
      assert order[i] in order && order[i] != 7 && order[i] != 0 && order[i] != 1 && order[i] != 2 && order[i] != 5 &&
        order[i] != 6;
    }
    if k > 5 { assert Base(rooms, 6) == Base(rooms, 5) + rooms[5]; }
    if k > 6 { assert Base(rooms, 7) == Base(rooms, 6) + rooms[6]; }
  }

  /** The addresses of the nodes that have words. */
  ghost predicate HoleAddrs(addr: map<nat, nat>) {
    && (forall n: nat :: n < 8 ==> n in addr)
    && addr[0] == 0 && addr[1] == 1 && addr[2] == 2 && addr[5] == 9 && addr[6] == 11 && addr[7] == 12
  }

  lemma HoleAddressed(b: Boundaries, order: seq<nat>, addr: map<nat, nat>)
    requires HoleOrder(order) && HoleBounds(b) && InGraph(HOLE, order)
    requires Addressed(order, Rooms(HOLE, b, order), |order|, addr)
    requires forall n: nat :: n < 8 ==> n in addr
    ensures HoleAddrs(addr)
  {
    var rooms := Rooms(HOLE, b, order);
    HoleBase(b, order, rooms);
    var k := HoleIndex(order, 7);
    HoleLate(b, order, rooms, k);
    AddrAt(order, rooms, addr, 0);
    AddrAt(order, rooms, addr, 1);
    AddrAt(order, rooms, addr, 2);
    AddrAt(order, rooms, addr, 3);
    AddrAt(order, rooms, addr, 4);
    AddrAt(order, rooms, addr, k);
  }

  // ---------------------------------------------------------------- pairing and words

  lemma HolePair(pd: map<nat, nat>, addr: map<nat, nat>, forkOf: map<nat, nat>)
    requires 1 in pd && pd[1] == 5 && HoleAddrs(addr) && Addresses(HOLE, addr) &&
      ForkTable(HOLE, pd, addr, 8, false, forkOf)
    ensures 5 in forkOf && forkOf[5] == 1
  {
    assert Pairs(HOLE, pd, 1, 5);
    var r := LastFork(HOLE, pd, 5, 8);
    assert r.Some? && Forks(HOLE.nodes[r.value]);
    assert r.value == 1;
  }

  /** What the second pass is given for this graph. */
  ghost predicate HolePlan(pl: Plan) {
    pl.g == HOLE && HoleBounds(pl.b) && HoleAddrs(pl.addr) && 5 in pl.forkOf && pl.forkOf[5] == 1
  }

  lemma HoleGiven(pd: map<nat, nat>, order: seq<nat>, pl: Plan)
    requires pl.g == HOLE && HoleOrder(order) && 1 in pd && pd[1] == 5 && HoleBounds(pl.b) && InGraph(HOLE, order)
    requires Addressed(order, Rooms(HOLE, pl.b, order), |order|, pl.addr) && Addresses(HOLE, pl.addr)
    requires ForkTable(HOLE, pd, pl.addr, 8, false, pl.forkOf)
    ensures HolePlan(pl)
  {
    HoleAddressed(pl.b, order, pl.addr);
    HolePair(pd, pl.addr, pl.forkOf);
  }

  lemma HolePlanned(pd: map<nat, nat>, order: seq<nat>, pl: Plan)
    requires Prepared(HOLE, 0, pd, order, pl)
    ensures HoleOrder(order) && HolePlan(pl)
  {
    HoleOrdered(pd, order);
    HoleCollected(order, pl.b);
    HoleGiven(pd, order, pl);
  }

  lemma HoleHost(pl: Plan)
    requires HolePlan(pl)
    ensures Block(pl, 2) == Words(HOLE_WORDS[2..9])
  {
    var es := ErrorsOf(pl.b, 2);
    assert Specific(es) == [] && CatchAlls(es) == es && ArmOrder(es) == es;
    assert NextAddr(pl, 3) == Some(9) && NextAddr(pl, 4) == Some(12) && NextAddr(pl, 2) == Some(9);
    assert ArmWords(pl, es) == [GuardArmError(AnyError, 12)];
    assert Prologue(pl, 2, 9) == [PushI64(1000), Guard(9), GuardArmTimer, GuardArmError(AnyError, 12)];
    assert HOLE_WORDS[2..9] == [PushI64(1000), Guard(9), GuardArmTimer, GuardArmError(AnyError, 12), ExecNative(0),
      GuardEnd, Jump(9)];
  }

  lemma HoleGates(pl: Plan)
    requires HolePlan(pl)
    ensures Block(pl, 0) == Words([Jump(1)]) && Block(pl, 1) == Words([Fork([2, 9], 1)])
    ensures Block(pl, 5) == Words([Join(1), Jump(11)])
  {
    assert NextAddr(pl, 0) == Some(1) && NextAddr(pl, 5) == Some(11);
    var flows := HOLE.flows[1];
    assert seq(|flows|, i requires 0 <= i < |flows| => Land(pl, flows[i])) == [2, 9];
  }

  lemma HoleEnds(pl: Plan)
    requires HolePlan(pl)
    ensures Block(pl, 6) == Words([End]) && Block(pl, 7) == Words([End])
    ensures Block(pl, 3) == Words([]) && Block(pl, 4) == Words([])
  {
  }

  lemma HoleEmits(pl: Plan)
    requires HolePlan(pl)
    ensures forall n: nat :: n < 8 ==> Block(pl, n).Words?
  {
    HoleHost(pl);
    HoleGates(pl);
    HoleEnds(pl);
  }

  // ---------------------------------------------------------------- the program

  lemma {:induction false} HoleLength(b: Boundaries, order: seq<nat>, rooms: seq<nat>)
    requires HoleOrder(order) && HoleBounds(b) && InGraph(HOLE, order) && rooms == Rooms(HOLE, b, order)
    ensures Base(rooms, 7) + rooms[7] == 13
  {
    HoleBase(b, order, rooms);
    HoleRoom(b, 3);
    HoleRoom(b, 4);
    HoleRoom(b, 7);
    var k := HoleIndex(order, 7);
    forall i | 5 <= i < 8 ensures rooms[i] == if i == k then 1 else 0 {
      assert order[i] in order && order[i] != 0 && order[i] != 1 && order[i] != 2 && order[i] != 5 && order[i] != 6;
    }
    assert Base(rooms, 6) == Base(rooms, 5) + rooms[5];
    assert Base(rooms, 7) == Base(rooms, 6) + rooms[6];
  }

  lemma HoleSizes(pl: Plan, n: nat)
    requires HolePlan(pl) && n < 8
    ensures |WordsOf(pl, n)| == Room(HOLE, pl.b, n)
  {
    HoleHost(pl);
    HoleGates(pl);
    HoleEnds(pl);
    HoleRoom(pl.b, n);
  }

  lemma HolePlaced(pl: Plan, order: seq<nat>, p: Program, n: nat)
    requires HoleOrder(order) && pl.g == HOLE && Planned(pl, order) && n < 8
    requires Laid(Bases(pl, order), Pieces(pl, order), |order|, p)
    ensures n in pl.addr && Placed(p, pl.addr[n], WordsOf(pl, n))
  {
    assert n in order;
    var i :| 0 <= i < |order| && order[i] == n;
    LaidAt(pl, order, p, i);
  }

  lemma HoleSize(pl: Plan, order: seq<nat>, p: Program)
    requires HoleOrder(order) && HolePlan(pl) && Planned(pl, order) &&
      Laid(Bases(pl, order), Pieces(pl, order), |order|, p)
    ensures |p| == 13
  {
    var rooms := Rooms(HOLE, pl.b, order);
    HoleLength(pl.b, order, rooms);
    LaidEnd(pl, order, p);
    assert order[7] in order;
    HoleSizes(pl, order[7]);
    AddrAt(order, rooms, pl.addr, 7);
  }

  /** Lowering gives exactly these words. */
  lemma HoleLowers(pd: map<nat, nat>, order: seq<nat>, pl: Plan, p: Program)
    requires Prepared(HOLE, 0, pd, order, pl) && Laid(Bases(pl, order), Pieces(pl, order), |order|, p)
    ensures p == HOLE_WORDS
  {
    HolePlanned(pd, order, pl);
    HoleSize(pl, order, p);
    HoleWordsAt(pl, order, p);
  }

  lemma HoleWordsAt(pl: Plan, order: seq<nat>, p: Program)
    requires HoleOrder(order) && HolePlan(pl) && Planned(pl, order) && |p| == 13
    requires Laid(Bases(pl, order), Pieces(pl, order), |order|, p)
    ensures p == HOLE_WORDS
  {
    HoleHost(pl);
    HoleGates(pl);
    HoleEnds(pl);
    HolePlaced(pl, order, p, 0);
    HolePlaced(pl, order, p, 1);
    HolePlaced(pl, order, p, 2);
    HolePlaced(pl, order, p, 5);
    HolePlaced(pl, order, p, 6);
    HolePlaced(pl, order, p, 7);
    HoleAssembled(p);
  }

  lemma HoleAssembled(p: Program)
    requires |p| == 13 && Placed(p, 0, [Jump(1)]) && Placed(p, 1, [Fork([2, 9], 1)]) && Placed(p, 2, HOLE_WORDS[2..9])
    requires Placed(p, 9, [Join(1), Jump(11)]) && Placed(p, 11, [End]) && Placed(p, 12, [End])
    ensures p == HOLE_WORDS
  {
    assert p == p[0..1] + p[1..2] + p[2..9] + p[9..11] + p[11..12] + p[12..13];
    assert HOLE_WORDS == [Jump(1)] + [Fork([2, 9], 1)] + HOLE_WORDS[2..9] + [Join(1), Jump(11)] + [End] + [End];
  }
}
