/** The lowered program of the hole graph passes every static check, and yet an error brings it
    to a state from which no command is ever accepted. */
module HoleRun {
  import opened Graphs
  import opened Bytecode
  import opened ControlStack
  import opened Kernel
  import opened KernelSafety
  import opened Bursts
  import opened Commands
  import opened ErrorRoutes
  import opened Blocks
  import opened Lowering
  import opened Compiler
  import opened HoleGraph

  const B := Token(BarrierScope, 1)
  const G := Token(GuardScope, 3)

  const ENTRY: map<nat, Scopes> :=
    map[0 := [], 1 := [], 2 := [B], 3 := [B], 4 := [B, G], 5 := [B, G], 6 := [B, G], 7 := [B, G], 8 := [B], 9 := [B],
        10 := [], 11 := []]

  // ---------------------------------------------------------------- static checks

  /** What the walk passes on from each word. */
  function HoleNext(a: nat): seq<(nat, Scopes)> {
    if a == 0 then [(1, [])]
    else if a == 1 then [(2, [B]), (9, [B])]
    else if a == 2 then [(3, [B])]
    else if a == 3 then [(9, [B]), (4, [B, G])]
    else if a == 4 then [(5, [B, G])]
    else if a == 5 then [(6, [B, G])]
    else if a == 6 then [(7, [B, G])]
    else if a == 7 then [(8, [B])]
    else if a == 8 then [(9, [B])]
    else if a == 9 then [(10, [])]
    else if a == 10 then [(11, [])]
    else []
  }

  lemma HoleScopes()
    ensures [] + [B] == [B] && [B] + [G] == [B, G] && [B, G][..1] == [B] && [B][..0] == []
  {
  }

  lemma HoleStep(a: nat)
    requires a < 12
    ensures ControlStack.Step(HOLE_WORDS, a, ENTRY[a]) == Flow(HoleNext(a))
  {
    HoleScopes();
  }

  lemma HoleRespects(a: nat)
    requires a < 12
    ensures a in ENTRY && Respects(HOLE_WORDS, ENTRY, a)
  {
    HoleStep(a);
  }

  lemma HoleCertified()
    ensures Certificate(HOLE_WORDS, ENTRY)
  {
    forall a | a in ENTRY ensures Respects(HOLE_WORDS, ENTRY, a) { HoleRespects(a); }
  }

  lemma HoleForces(m: map<nat, Scopes>, a: nat, i: nat)
    requires Certificate(HOLE_WORDS, m) && a < 12 && a in m && m[a] == ENTRY[a] && i < |HoleNext(a)|
    ensures HoleNext(a)[i].0 in m && m[HoleNext(a)[i].0] == HoleNext(a)[i].1
  {
    HoleStep(a);
    Flows(HOLE_WORDS, m, a);
  }

  lemma HoleForced(m: map<nat, Scopes>)
    requires Certificate(HOLE_WORDS, m)
    ensures Extends(ENTRY, m)
  {
    HoleForces(m, 0, 0);
    HoleForces(m, 1, 0);
    HoleForces(m, 1, 1);
    HoleForces(m, 2, 0);
    HoleForces(m, 3, 1);
    HoleForces(m, 4, 0);
    HoleForces(m, 5, 0);
    HoleForces(m, 6, 0);
    HoleForces(m, 7, 0);
    HoleForces(m, 9, 0);
    HoleForces(m, 10, 0);
  }

  lemma HoleEndsAhead(a: nat) returns (t: nat)
    requires a < 13
    ensures t < 13 && Terminal(HOLE_WORDS[t]) && Reaches(FlowGraph(HOLE_WORDS), a, t)
    decreases 13 - a
  {
    var g := FlowGraph(HOLE_WORDS);
    if a >= 11 {
      Refl(g, a);
      t := a;
    } else {
      var b := if a == 1 then 9 else a + 1;
      assert b in Successors(HOLE_WORDS, a);
      EdgeReaches(g, a, b);
      t := HoleEndsAhead(b);
      Trans(g, a, b, t);
    }
  }

  lemma HoleLeast()
    ensures LeastCertificate(HOLE_WORDS, ENTRY)
  {
    HoleCertified();
    forall m | Certificate(HOLE_WORDS, m) ensures Extends(ENTRY, m) { HoleForced(m); }
  }

  lemma HoleTerminates()
    ensures TerminalReachable(HOLE_WORDS)
  {
    forall a | 0 <= a < 13 && Reaches(FlowGraph(HOLE_WORDS), 0, a)
      ensures exists t :: 0 <= t < 13 && Terminal(HOLE_WORDS[t]) && Reaches(FlowGraph(HOLE_WORDS), a, t)
    {
      var t := HoleEndsAhead(a);
    }
  }

  lemma HoleForward()
    ensures ForwardOnly(HOLE_WORDS) && InScope(HOLE_WORDS) && ArmsGoOn(HOLE_WORDS)
  {
  }

  lemma HoleUnfit()
    ensures !RoutesFit(HOLE_WORDS, ENTRY)
  {
    assert !RouteFits(HOLE_WORDS, ENTRY, 5);
  }

  /** The verifier accepts the program; only the fit of its error route is missing. */
  lemma HoleAccepted()
    ensures LeastCertificate(HOLE_WORDS, ENTRY) && Screened(HOLE_WORDS, ENTRY) && !RoutesFit(HOLE_WORDS, ENTRY)
  {
    HoleLeast();
    HoleTerminates();
    HoleForward();
    LeastReachable(HOLE_WORDS, ENTRY);
    ChecksScreen(HOLE_WORDS, ENTRY);
    HoleUnfit();
  }

  // ---------------------------------------------------------------- the run

  function Fresh(pc: nat, control: seq<nat>, wait: Wait): Fiber { Fiber(pc, [], control, wait) }

  function BarrierAt(count: nat, members: set<nat>): Record { Record(Barrier, members, true, 2, count, 0, []) }

  function GuardAt(armed: bool, routes: seq<Route>): Record { Record(GuardRecord, {2}, armed, 0, 0, 9, routes) }

  const ROUTE := Route(AnyError, 12)
  const WAITS := Fresh(9, [], AtBarrier(1))
  const TABLE: map<nat, Record> := map[1 := BarrierAt(1, {2, 3})]

  const START := Initial(map[])
  const JUMPED := State(map[0 := Fresh(1, [], Running)], map[], map[], Active, 1)
  const FORKED := State(map[2 := Fresh(2, [1], Running), 3 := Fresh(9, [1], Running)],
                        map[1 := BarrierAt(2, {2, 3})], map[], Active, 4)
  const ARRIVED := State(map[2 := Fresh(2, [1], Running), 3 := WAITS], TABLE, map[], Active, 4)
  const PUSHED := State(map[2 := Fiber(3, [I64(1000)], [1], Running), 3 := WAITS], TABLE, map[], Active, 4)
  const GUARDED := State(map[2 := Fiber(4, [I64(1000)], [1, 4], Running), 3 := WAITS],
                         TABLE[4 := GuardAt(true, [])], map[], Active, 5)
  const TIMED := State(map[2 := Fresh(5, [1, 4], Running), 3 := WAITS], TABLE[4 := GuardAt(true, [])], map[], Active, 5)
  const ARMED := State(map[2 := Fresh(6, [1, 4], Running), 3 := WAITS], TABLE[4 := GuardAt(true, [ROUTE])], map[],
    Active, 5)
  const WORKING := State(map[2 := Fresh(6, [1, 4], Parked), 3 := WAITS], TABLE[4 := GuardAt(true, [ROUTE])], map[],
    Active, 5)
  const FAILED := State(map[3 := WAITS, 5 := Fresh(12, [1], Running)],
                        map[1 := BarrierAt(1, {3, 5}), 4 := GuardAt(false, [ROUTE])], map[], Active, 6)

  lemma RunsCommand(p: Program, s: State, f: nat, s': State)
    requires Runs(p, s, f, s') && !Runnable(s', f)
    ensures Obeys(p, s, s')
  {
    var run :| Travels(p, s, f, run, s');
    assert Tick(p, s, f, run, s');
  }

  lemma ForkGives()
    ensures ForkState(JUMPED, 0, [2, 9]) == FORKED
  {
    var kids := Children([2, 9], [], 1, 2);
    assert [] + [1] == [1];
    assert 2 in Following(1, 2) && 3 in Following(1, 2);
    assert kids == map[2 := Fresh(2, [1], Running), 3 := Fresh(9, [1], Running)];
    assert kids.Keys == {2, 3};
    assert ForkState(JUMPED, 0, [2, 9]).fibers == FORKED.fibers;
    assert ForkState(JUMPED, 0, [2, 9]).table == FORKED.table;
  }

  lemma Forking()
    ensures Obeys(HOLE_WORDS, START, FORKED)
  {
    assert Goto(START, 0, 1).fibers == JUMPED.fibers;
    OneWord(HOLE_WORDS, START, 0, JUMPED);
    ForkGives();
    ExecIs(HOLE_WORDS, JUMPED, 0);
    OneWord(HOLE_WORDS, JUMPED, 0, FORKED);
    RunsOn(HOLE_WORDS, START, 0, JUMPED, FORKED);
    RunsCommand(HOLE_WORDS, START, 0, FORKED);
  }

  lemma Arriving()
    ensures Obeys(HOLE_WORDS, FORKED, ARRIVED)
  {
    ExecIs(HOLE_WORDS, FORKED, 3);
    assert FORKED.fibers[3].control[..0] == [];
    assert ArriveState(FORKED, 3, 1).fibers == ARRIVED.fibers;
    assert ArriveState(FORKED, 3, 1).table == ARRIVED.table;
    OneWord(HOLE_WORDS, FORKED, 3, ARRIVED);
    RunsCommand(HOLE_WORDS, FORKED, 3, ARRIVED);
  }

  lemma Guarding()
    ensures Runs(HOLE_WORDS, ARRIVED, 2, GUARDED)
  {
    assert [] + [I64(1000)] == [I64(1000)] && [1] + [4] == [1, 4];
    assert Push(ARRIVED, 2, I64(1000)).fibers == PUSHED.fibers;
    OneWord(HOLE_WORDS, ARRIVED, 2, PUSHED);
    assert GuardState(PUSHED, 2, 9).fibers == GUARDED.fibers;
    assert GuardState(PUSHED, 2, 9).table == GUARDED.table;
    ExecIs(HOLE_WORDS, PUSHED, 2);
    OneWord(HOLE_WORDS, PUSHED, 2, GUARDED);
    RunsOn(HOLE_WORDS, ARRIVED, 2, PUSHED, GUARDED);
  }

  lemma Arming()
    ensures Runs(HOLE_WORDS, GUARDED, 2, ARMED)
  {
    assert [I64(1000)][..0] == [];
    var fiber := GUARDED.fibers[2];
    assert Put(GUARDED, 2, fiber.(stack := [], pc := 5)).fibers == TIMED.fibers;
    OneWord(HOLE_WORDS, GUARDED, 2, TIMED);
    assert InsertRoute([], ROUTE) == [ROUTE];
    assert TIMED.table[4 := GuardAt(true, [ROUTE])] == ARMED.table;
    assert Goto(TIMED, 2, 6).fibers == ARMED.fibers;
    ExecIs(HOLE_WORDS, TIMED, 2);
    OneWord(HOLE_WORDS, TIMED, 2, ARMED);
    RunsOn(HOLE_WORDS, GUARDED, 2, TIMED, ARMED);
  }

  lemma Working()
    ensures Obeys(HOLE_WORDS, ARRIVED, WORKING)
  {
    Guarding();
    Arming();
    assert Park(ARMED, 2).fibers == WORKING.fibers;
    OneWord(HOLE_WORDS, ARMED, 2, WORKING);
    RunsOn(HOLE_WORDS, ARRIVED, 2, GUARDED, ARMED);
    RunsOn(HOLE_WORDS, ARRIVED, 2, ARMED, WORKING);
    RunsCommand(HOLE_WORDS, ARRIVED, 2, WORKING);
  }

  lemma FailureScope()
    ensures CanTrigger(WORKING, 4, 12)
    ensures StackBelow(WORKING, 4) == [1] && Doomed(WORKING, 4) == {2}
    ensures !Falls(WORKING, 4, 1) && Falls(WORKING, 4, 4)
  {
    assert RoutesTo(WORKING.table[4].routes, "E", 12);
    assert WORKING.fibers[2].control[1] == 4;
    assert [1, 4][..1] == [1];
  }

  lemma FailureBuries()
    ensures Bury(WORKING, {2})[1] == BarrierAt(1, {3})
  {
    assert (set x | x in {2, 3} && !(x in {2} && x in WORKING.fibers && 1 in WORKING.fibers[x].control)) == {3};
  }

  lemma Failing()
    ensures Obeys(HOLE_WORDS, WORKING, FAILED)
  {
    FailureScope();
    FailureBuries();
    var t := TriggerState(WORKING, 4, 12);
    assert t.fibers == FAILED.fibers;
    assert t.table[1] == FAILED.table[1] by { assert {3} + {5} == {3, 5}; }
    assert t.table[4] == FAILED.table[4];
    assert t.table == FAILED.table;
    assert Fires(WORKING, 4, 12, FAILED);
  }

  // ---------------------------------------------------------------- the check on the way

  lemma ForkedIntact()
    ensures Intact(HOLE_WORDS, FORKED)
  {
    assert Awaited(FORKED, 1) == {2, 3};
  }

  lemma ArrivedIntact()
    ensures Intact(HOLE_WORDS, ARRIVED)
  {
    assert Awaited(ARRIVED, 1) == {2};
  }

  lemma WorkingIntact()
    ensures Intact(HOLE_WORDS, WORKING)
  {
    assert Awaited(WORKING, 1) == {2};
  }

  lemma FailedIntact()
    ensures Intact(HOLE_WORDS, FAILED)
  {
    assert Awaited(FAILED, 1) == {5};
  }

  lemma HoleReached()
    ensures Committed(HOLE_WORDS, FAILED)
  {
    StartCommitted(HOLE_WORDS, map[]);
    ForkedIntact();
    ArrivedIntact();
    WorkingIntact();
    FailedIntact();
    Forking();
    CommitOn(HOLE_WORDS, START, FORKED);
    Arriving();
    CommitOn(HOLE_WORDS, FORKED, ARRIVED);
    Working();
    CommitOn(HOLE_WORDS, ARRIVED, WORKING);
    Failing();
    CommitOn(HOLE_WORDS, WORKING, FAILED);
  }

  /** The only command left is the end of the handler, and that is refused. */
  lemma HoleRefused(s': State)
    requires Obeys(HOLE_WORDS, FAILED, s')
    ensures !Intact(HOLE_WORDS, s')
  {
    FailedIntact();
    EndTicks(HOLE_WORDS, FAILED, 5);
    EndAccepted(HOLE_WORDS, FAILED, 5);
    forall g, target ensures !CanTrigger(FAILED, g, target) {}
    if f, run :| Tick(HOLE_WORDS, FAILED, f, run, s') {
      assert WordAt(HOLE_WORDS, f, run, 0);
      assert f == 5;
    }
  }

  /** Lowering the graph gives a program that the checks accept. Its error leads to a state that
      is still active and holds an open barrier, and no command to it is ever committed. */
  lemma HoleStarves(pd: map<nat, nat>, order: seq<nat>, pl: Plan, p: Program)
    requires Prepared(HOLE, 0, pd, order, pl) && Laid(Bases(pl, order), Pieces(pl, order), |order|, p)
    ensures Screened(p, ENTRY) && LeastCertificate(p, ENTRY) && !RoutesFit(p, ENTRY)
    ensures Committed(p, FAILED) && FAILED.status.Active? && FAILED.table[1].armed && FAILED.table[1].count == 1
    ensures forall s' :: !Commits(p, FAILED, s')
  {
    HoleLowers(pd, order, pl, p);
    HoleAccepted();
    HoleReached();
    forall s' ensures !Commits(p, FAILED, s') {
      if Obeys(p, FAILED, s') { HoleRefused(s'); }
    }
  }
}
