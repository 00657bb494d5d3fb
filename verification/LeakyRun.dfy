/** The graph whose exclusive gateway leaks, from lowering to a committed run: every check accepts
    its program, and both parallel branches come to work on the task of the second. */
module LeakyRun {
  import opened Options
  import opened Segments
  import opened Graphs
  import opened Bytecode
  import opened ControlStack
  import opened Kernel
  import opened KernelSafety
  import opened Bursts
  import opened Commands
  import opened Ir
  import opened Blocks
  import opened Lowering
  import opened Pairing
  import opened Compiler
  import opened SmallGraphs
  import opened LayoutLeaks

  const LEAKY_WORDS: Program :=
    [Jump(1), Fork([2, 5], 1), LoadFlag(0), BrIf(7), Jump(5), ExecNative(0), Jump(7), Join(1), Jump(9), End]

  // ---------------------------------------------------------------- lowering

  lemma NoBoundaries(order: seq<nat>, b: Boundaries)
    requires order == [0, 1, 2, 3, 4, 5] && Collected(LEAKY, order, b)
    ensures (forall h: nat :: !Guarded(b, h)) && b.closes == {}
  {
    forall h: nat ensures h !in b.timers && ErrorsOf(b, h) == [] {
      TimerAbsent(LEAKY, order, h);
      ErrorsAbsent(LEAKY, order, h);
    }
  }

  lemma LeakyRoom(b: Boundaries, n: nat)
    requires n < 6 && !Guarded(b, 3) && b.closes == {}
    ensures Room(LEAKY, b, n) == (if n == 2 then 3 else if n == 3 || n == 4 then 2 else 1)
  {
  }

  lemma {:induction false} LeakyBase(b: Boundaries, rooms: seq<nat>)
    requires !Guarded(b, 3) && b.closes == {} && InGraph(LEAKY, [0, 1, 2, 3, 4, 5])
    requires rooms == Rooms(LEAKY, b, [0, 1, 2, 3, 4, 5])
    ensures Base(rooms, 0) == 0 && Base(rooms, 1) == 1 && Base(rooms, 2) == 2 && Base(rooms, 3) == 5
    ensures Base(rooms, 4) == 7 && Base(rooms, 5) == 9
  {
    forall n: nat | n < 6 ensures rooms[n] == if n == 2 then 3 else if n == 3 || n == 4 then 2 else 1 {
      LeakyRoom(b, n);
    }
    assert Base(rooms, 1) == Base(rooms, 0) + rooms[0];
    assert Base(rooms, 2) == Base(rooms, 1) + rooms[1];
    assert Base(rooms, 3) == Base(rooms, 2) + rooms[2];
    assert Base(rooms, 4) == Base(rooms, 3) + rooms[3];
    assert Base(rooms, 5) == Base(rooms, 4) + rooms[4];
  }

  /** What the second pass is given for this graph. */
  ghost predicate LeakyPlan(pl: Plan) {
    && pl.g == LEAKY && !Guarded(pl.b, 3) && pl.b.closes == {} && (forall n: nat :: n < 6 ==> n in pl.addr)
    && pl.addr[0] == 0 && pl.addr[1] == 1 && pl.addr[2] == 2 && pl.addr[3] == 5 && pl.addr[4] == 7 && pl.addr[5] == 9
    && 4 in pl.forkOf && pl.forkOf[4] == 1
  }

  lemma {:induction false} LeakyAddr(order: seq<nat>, rooms: seq<nat>, addr: map<nat, nat>, n: nat)
    requires order == [0, 1, 2, 3, 4, 5] && |rooms| == 6 && Addressed(order, rooms, 6, addr) && n < 6
    ensures n in addr && addr[n] == Base(rooms, n)
  {
    AddrAt(order, rooms, addr, n);
  }

  lemma LeakyAddrs(b: Boundaries, order: seq<nat>, addr: map<nat, nat>)
    requires !Guarded(b, 3) && b.closes == {} && order == [0, 1, 2, 3, 4, 5] && InGraph(LEAKY, order)
    requires Addressed(order, Rooms(LEAKY, b, order), 6, addr)
    ensures (forall n: nat :: n < 6 ==> n in addr) && addr[0] == 0 && addr[1] == 1 && addr[2] == 2
    ensures addr[3] == 5 && addr[4] == 7 && addr[5] == 9
  {
    var rooms := Rooms(LEAKY, b, order);
    LeakyBase(b, rooms);
    forall n: nat | n < 6 ensures n in addr && addr[n] == Base(rooms, n) { LeakyAddr(order, rooms, addr, n); }
  }

  lemma LeakyPair(pd: map<nat, nat>, addr: map<nat, nat>, forkOf: map<nat, nat>)
    requires 1 in pd && pd[1] == 4 && Addresses(LEAKY, addr) && addr[1] == 1
    requires ForkTable(LEAKY, pd, addr, 6, false, forkOf)
    ensures 4 in forkOf && forkOf[4] == 1
  {
    assert Pairs(LEAKY, pd, 1, 4);
    var r := LastFork(LEAKY, pd, 4, 6);
    assert r.Some? && Forks(LEAKY.nodes[r.value]);
    assert r.value == 1;
  }

  lemma LeakyPlanned(pd: map<nat, nat>, order: seq<nat>, pl: Plan)
    requires Prepared(LEAKY, 0, pd, order, pl)
    ensures order == [0, 1, 2, 3, 4, 5] && LeakyPlan(pl)
  {
    LeakyOrdered(pd, order);
    LeakyShape();
    LeakyRegions(pd);
    assert 1 in RegionMap(LEAKY_SHAPE, pd);
    NoBoundaries(order, pl.b);
    LeakyAddrs(pl.b, order, pl.addr);
    LeakyPair(pd, pl.addr, pl.forkOf);
  }

  lemma LeakyGates(pl: Plan)
    requires LeakyPlan(pl)
    ensures Block(pl, 0) == Words([Jump(1)]) && Block(pl, 1) == Words([Fork([2, 5], 1)])
    ensures Block(pl, 4) == Words([Join(1), Jump(9)]) && Block(pl, 5) == Words([End])
  {
    assert NextAddr(pl, 0) == Some(1) && NextAddr(pl, 4) == Some(9);
    var flows := LEAKY.flows[1];
    assert seq(|flows|, i requires 0 <= i < |flows| => Land(pl, flows[i])) == [2, 5];
  }

  lemma {:induction false} LeakyChoice(pl: Plan)
    requires LeakyPlan(pl)
    ensures Block(pl, 2) == Words([LoadFlag(0), BrIf(7)]) && Block(pl, 3) == Words([ExecNative(0), Jump(7)])
  {
    var flows := LEAKY.flows[2];
    assert DefaultFlow(flows, 1) == None by { assert DefaultFlow(flows, 0) == None; }
    var tests := XorTests(pl, flows);
    assert tests == [[LoadFlag(0), BrIf(7)]];
    assert tests[..0] == [] && tests[1..] == [];
    assert Flatten(tests) == [LoadFlag(0), BrIf(7)];
    assert NextAddr(pl, 3) == Some(7);
  }

  /** Lowering gives exactly these words. */
  lemma LeakyLowers(pd: map<nat, nat>, order: seq<nat>, pl: Plan, p: Program)
    requires Prepared(LEAKY, 0, pd, order, pl) && Laid(Bases(pl, order), Pieces(pl, order), |order|, p)
    ensures p == LEAKY_WORDS && LeakyPlan(pl)
  {
    LeakyPlanned(pd, order, pl);
    LeakyPlaced(pl, order, p);
    LeakyAssembled(p);
  }

  /** The pieces of the program, and the jump that fills the room left over by the gateway. */
  ghost predicate LeakyPieces(p: Program) {
    && |p| == 10 && Placed(p, 0, [Jump(1)]) && Placed(p, 1, [Fork([2, 5], 1)])
    && Placed(p, 2, [LoadFlag(0), BrIf(7)]) && p[4] == Jump(5) && Placed(p, 5, [ExecNative(0), Jump(7)])
    && Placed(p, 7, [Join(1), Jump(9)]) && Placed(p, 9, [End])
  }

  lemma LeakyPlaced(pl: Plan, order: seq<nat>, p: Program)
    requires LeakyPlan(pl) && order == [0, 1, 2, 3, 4, 5] && Planned(pl, order)
    requires Laid(Bases(pl, order), Pieces(pl, order), |order|, p)
    ensures LeakyPieces(p)
  {
    LeakyGates(pl);
    LeakyChoice(pl);
    LaidEnd(pl, order, p);
    LaidAt(pl, order, p, 0);
    LaidAt(pl, order, p, 1);
    LaidAt(pl, order, p, 2);
    LaidAt(pl, order, p, 3);
    LaidAt(pl, order, p, 4);
    LaidAt(pl, order, p, 5);
    LaidPrecedes(pl, order, p, 2);
  }

  lemma LeakyAssembled(p: Program)
    requires LeakyPieces(p)
    ensures p == LEAKY_WORDS
  {
    assert p == p[0..1] + p[1..2] + p[2..4] + [p[4]] + p[5..7] + p[7..9] + p[9..10];
    assert LEAKY_WORDS == [Jump(1)] + [Fork([2, 5], 1)] + [LoadFlag(0), BrIf(7)] + [Jump(5)] +
                          [ExecNative(0), Jump(7)] + [Join(1), Jump(9)] + [End];
  }

  // ---------------------------------------------------------------- static checks

  const B := Token(BarrierScope, 1)

  const SCOPES: map<nat, Scopes> :=
    map[0 := [], 1 := [], 2 := [B], 3 := [B], 4 := [B], 5 := [B], 6 := [B], 7 := [B], 8 := [], 9 := []]

  function LeakyNext(a: nat): seq<(nat, Scopes)> {
    if a == 0 then [(1, [])]
    else if a == 1 then [(2, [B]), (5, [B])]
    else if a == 2 then [(3, [B])]
    else if a == 3 then [(7, [B]), (4, [B])]
    else if a == 4 then [(5, [B])]
    else if a == 5 then [(6, [B])]
    else if a == 6 then [(7, [B])]
    else if a == 7 then [(8, [])]
    else if a == 8 then [(9, [])]
    else []
  }

  lemma LeakyStep(a: nat)
    requires a < 10
    ensures ControlStack.Step(LEAKY_WORDS, a, SCOPES[a]) == Transfer.Flow(LeakyNext(a))
  {
    assert [] + [B] == [B] && [B][..0] == [];
  }

  lemma LeakyRespects(a: nat)
    requires a < 10
    ensures a in SCOPES && Respects(LEAKY_WORDS, SCOPES, a)
  {
    LeakyStep(a);
  }

  lemma LeakyCertified()
    ensures Certificate(LEAKY_WORDS, SCOPES)
  {
    forall a | a in SCOPES ensures Respects(LEAKY_WORDS, SCOPES, a) { LeakyRespects(a); }
  }

  /** Every check accepts the program. */
  lemma LeakyAccepted()
    ensures Admitted(LEAKY_WORDS, SCOPES)
  {
    LeakyCertified();
    forall a | a in SCOPES ensures Admissible(LEAKY_WORDS, SCOPES, a) {}
  }

  // ---------------------------------------------------------------- the run

  function At(pc: nat, wait: Wait): Fiber { Fiber(pc, [], [1], wait) }

  const OPEN: map<nat, Record> := map[1 := Record(Barrier, {2, 3}, true, 2, 2, 0, [])]

  const START := Initial(map[])
  const JUMPED := State(map[0 := Fiber(1, [], [], Running)], map[], map[], Active, 1)
  const FORKED := State(map[2 := At(2, Running), 3 := At(5, Running)], OPEN, map[], Active, 4)
  const LOADED := State(map[2 := Fiber(3, [Bool(false)], [1], Running), 3 := At(5, Running)], OPEN, map[], Active, 4)
  const UNMET := State(map[2 := At(4, Running), 3 := At(5, Running)], OPEN, map[], Active, 4)
  const LEAKED := State(map[2 := At(5, Running), 3 := At(5, Running)], OPEN, map[], Active, 4)
  const ASTRAY := State(map[2 := At(5, Parked), 3 := At(5, Running)], OPEN, map[], Active, 4)
  const TWICE := State(map[2 := At(5, Parked), 3 := At(5, Parked)], OPEN, map[], Active, 4)

  lemma LeakyKids()
    ensures Children([2, 5], [], 1, 2) == map[2 := At(2, Running), 3 := At(5, Running)]
  {
    assert [] + [1] == [1];
    assert 2 in Following(1, 2) && 3 in Following(1, 2);
  }

  lemma ForkGives()
    ensures ForkState(JUMPED, 0, [2, 5]) == FORKED
  {
    LeakyKids();
    assert Children([2, 5], [], 1, 2).Keys == {2, 3};
    assert ForkState(JUMPED, 0, [2, 5]).fibers == FORKED.fibers;
    assert ForkState(JUMPED, 0, [2, 5]).table == FORKED.table;
  }

  lemma Entering()
    ensures Word(LEAKY_WORDS, START, 0, JUMPED) && Word(LEAKY_WORDS, JUMPED, 0, FORKED)
  {
    assert Goto(START, 0, 1).fibers == JUMPED.fibers;
    ForkGives();
    ExecIs(LEAKY_WORDS, JUMPED, 0);
  }

  lemma Forking()
    ensures Obeys(LEAKY_WORDS, START, FORKED)
  {
    Entering();
    var run := [START, JUMPED, FORKED];
    forall i: nat ensures WordAt(LEAKY_WORDS, 0, run, i) {}
    assert Tick(LEAKY_WORDS, START, 0, run, FORKED);
  }

  lemma Choosing()
    ensures Word(LEAKY_WORDS, FORKED, 2, LOADED) && Word(LEAKY_WORDS, LOADED, 2, UNMET)
  {
    assert [] + [Bool(false)] == [Bool(false)] && [Bool(false)][..0] == [];
    assert Push(FORKED, 2, Bool(false)).fibers == LOADED.fibers;
    assert Put(LOADED, 2, At(4, Running)).fibers == UNMET.fibers;
  }

  lemma Leaking()
    ensures Word(LEAKY_WORDS, UNMET, 2, LEAKED) && Word(LEAKY_WORDS, LEAKED, 2, ASTRAY)
  {
    assert Goto(UNMET, 2, 5).fibers == LEAKED.fibers;
    assert Park(LEAKED, 2).fibers == ASTRAY.fibers;
  }

  lemma Straying()
    ensures Obeys(LEAKY_WORDS, FORKED, ASTRAY)
  {
    Choosing();
    Leaking();
    var run := [FORKED, LOADED, UNMET, LEAKED, ASTRAY];
    forall i: nat ensures WordAt(LEAKY_WORDS, 2, run, i) {}
    assert Tick(LEAKY_WORDS, FORKED, 2, run, ASTRAY);
  }

  lemma Working()
    ensures Obeys(LEAKY_WORDS, ASTRAY, TWICE)
  {
    assert Park(ASTRAY, 3).fibers == TWICE.fibers;
    var run := [ASTRAY, TWICE];
    forall i: nat ensures WordAt(LEAKY_WORDS, 3, run, i) {}
    assert Tick(LEAKY_WORDS, ASTRAY, 3, run, TWICE);
  }

  lemma BothIntact(s: State)
    requires s.table == OPEN && s.status.Active? && s.fibers.Keys == {2, 3}
    requires forall x :: x in s.fibers ==>
      s.fibers[x].control == [1] && s.fibers[x].pc < 10 && !s.fibers[x].wait.AtBarrier?
    ensures Intact(LEAKY_WORDS, s)
  {
    assert 2 in s.fibers && 3 in s.fibers;
    assert Awaited(s, 1) == {2, 3};
  }

  lemma AstrayReached()
    ensures Committed(LEAKY_WORDS, ASTRAY)
  {
    StartCommitted(LEAKY_WORDS, map[]);
    Forking();
    BothIntact(FORKED);
    CommitOn(LEAKY_WORDS, START, FORKED);
    Straying();
    BothIntact(ASTRAY);
    CommitOn(LEAKY_WORDS, FORKED, ASTRAY);
  }

  lemma TwiceReached()
    ensures Committed(LEAKY_WORDS, TWICE)
  {
    AstrayReached();
    Working();
    BothIntact(TWICE);
    CommitOn(LEAKY_WORDS, ASTRAY, TWICE);
  }

  /** A fibre of `s` works at the address `a`. */
  predicate WorksAt(s: State, x: nat, a: nat) {
    x in s.fibers && s.fibers[x].wait.Parked? && s.fibers[x].pc == a
  }

  lemma TwiceWorks()
    ensures WorksAt(TWICE, 2, 5) && WorksAt(TWICE, 3, 5)
  {
  }

  /** Lowering the graph gives a program that every check accepts. With its flag not set, a run
      of committed commands has the fibres of both branches at work on the task of the second,
      though the only flow of the first branch leads to the join. */
  lemma LeakyWorksTwice(pd: map<nat, nat>, order: seq<nat>, pl: Plan, p: Program)
    requires Prepared(LEAKY, 0, pd, order, pl) && Laid(Bases(pl, order), Pieces(pl, order), |order|, p)
    ensures Admitted(p, SCOPES) && Committed(p, TWICE)
    ensures 3 in pl.addr && WorksAt(TWICE, 2, pl.addr[3]) && WorksAt(TWICE, 3, pl.addr[3])
  {
    LeakyLowers(pd, order, pl, p);
    LeakyAccepted();
    TwiceReached();
    TwiceWorks();
  }
}
