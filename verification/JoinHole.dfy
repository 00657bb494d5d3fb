/** An error route into a join. The program passes every static check; when its guarded task
    fails with no scope open around the guard, the handler meets a join that it has no barrier
    for, and no command is ever obeyed again. */
module JoinHole {
  import opened Graphs
  import opened Bytecode
  import opened ControlStack
  import opened Kernel
  import opened KernelSafety
  import opened Bursts
  import opened Commands
  import opened HandlerRuns

  const ASTRAY: Program :=
    [PushI64(1000), Guard(11), GuardArmTimer, GuardArmError(AnyError, 8), ExecNative(0), GuardEnd, Jump(7),
     Fork([8, 8], 7), Join(7), Jump(10), End, End]

  const B := Token(BarrierScope, 7)
  const G := Token(GuardScope, 1)

  const OPEN: map<nat, Scopes> :=
    map[0 := [], 1 := [], 2 := [G], 3 := [G], 4 := [G], 5 := [G], 6 := [], 7 := [], 8 := [B], 9 := [], 10 := [],
        11 := []]

  // ---------------------------------------------------------------- static checks

  function AstrayNext(a: nat): seq<(nat, Scopes)> {
    if a == 0 then [(1, [])]
    else if a == 1 then [(11, []), (2, [G])]
    else if a == 2 then [(3, [G])]
    else if a == 3 then [(4, [G])]
    else if a == 4 then [(5, [G])]
    else if a == 5 then [(6, [])]
    else if a == 6 then [(7, [])]
    else if a == 7 then [(8, [B]), (8, [B])]
    else if a == 8 then [(9, [])]
    else if a == 9 then [(10, [])]
    else []
  }

  lemma AstrayScopes()
    ensures [] + [B] == [B] && [] + [G] == [G] && [G][..0] == [] && [B][..0] == []
  {
  }

  lemma AstrayEarly(a: nat)
    requires a < 6
    ensures ControlStack.Step(ASTRAY, a, OPEN[a]) == Flow(AstrayNext(a))
  {
    AstrayScopes();
  }

  lemma AstrayLate(a: nat)
    requires 6 <= a < 12
    ensures ControlStack.Step(ASTRAY, a, OPEN[a]) == Flow(AstrayNext(a))
  {
    AstrayScopes();
  }

  lemma AstrayStep(a: nat)
    requires a < 12
    ensures ControlStack.Step(ASTRAY, a, OPEN[a]) == Flow(AstrayNext(a))
  {
    if a < 6 { AstrayEarly(a); } else { AstrayLate(a); }
  }

  lemma AstrayRespects(a: nat)
    requires a < 12
    ensures a in OPEN && Respects(ASTRAY, OPEN, a)
  {
    AstrayStep(a);
  }

  lemma AstrayCertified()
    ensures Certificate(ASTRAY, OPEN)
  {
    forall a | a in OPEN ensures Respects(ASTRAY, OPEN, a) { AstrayRespects(a); }
  }

  lemma AstrayForces(m: map<nat, Scopes>, a: nat, i: nat)
    requires Certificate(ASTRAY, m) && a < 12 && a in m && m[a] == OPEN[a] && i < |AstrayNext(a)|
    ensures AstrayNext(a)[i].0 in m && m[AstrayNext(a)[i].0] == AstrayNext(a)[i].1
  {
    AstrayStep(a);
    Flows(ASTRAY, m, a);
  }

  lemma AstrayForced(m: map<nat, Scopes>)
    requires Certificate(ASTRAY, m)
    ensures Extends(OPEN, m)
  {
    AstrayForces(m, 0, 0);
    AstrayForces(m, 1, 0);
    AstrayForces(m, 1, 1);
    AstrayForces(m, 2, 0);
    AstrayForces(m, 3, 0);
    AstrayForces(m, 4, 0);
    AstrayForces(m, 5, 0);
    AstrayForces(m, 6, 0);
    AstrayForces(m, 7, 0);
    AstrayForces(m, 8, 0);
    AstrayForces(m, 9, 0);
  }

  lemma AstrayEndsAhead(a: nat) returns (t: nat)
    requires a < 12
    ensures t < 12 && Terminal(ASTRAY[t]) && Reaches(FlowGraph(ASTRAY), a, t)
    decreases 12 - a
  {
    var g := FlowGraph(ASTRAY);
    if a >= 10 {
      Refl(g, a);
      t := a;
    } else {
      assert a + 1 in Successors(ASTRAY, a);
      EdgeReaches(g, a, a + 1);
      t := AstrayEndsAhead(a + 1);
      Trans(g, a, a + 1, t);
    }
  }

  lemma AstrayTerminates()
    ensures TerminalReachable(ASTRAY)
  {
    forall a | 0 <= a < 12 && Reaches(FlowGraph(ASTRAY), 0, a)
      ensures exists t :: 0 <= t < 12 && Terminal(ASTRAY[t]) && Reaches(FlowGraph(ASTRAY), a, t)
    {
      var t := AstrayEndsAhead(a);
    }
  }

  lemma AstrayLeast()
    ensures LeastCertificate(ASTRAY, OPEN)
  {
    AstrayCertified();
    forall m | Certificate(ASTRAY, m) ensures Extends(OPEN, m) { AstrayForced(m); }
  }

  lemma AstrayForward()
    ensures ForwardOnly(ASTRAY) && InScope(ASTRAY) && ArmsGoOn(ASTRAY)
  {
  }

  /** The verifiers accept the program. */
  lemma AstrayAccepted()
    ensures LeastCertificate(ASTRAY, OPEN) && Screened(ASTRAY, OPEN)
  {
    AstrayLeast();
    AstrayTerminates();
    AstrayForward();
    LeastReachable(ASTRAY, OPEN);
    ChecksScreen(ASTRAY, OPEN);
  }

  // ---------------------------------------------------------------- the run

  function GuardOf(armed: bool, routes: seq<Route>): Record { Record(GuardRecord, {0}, armed, 0, 0, 11, routes) }

  const ROUTE := Route(AnyError, 8)

  const S0 := Initial(map[])
  const S1 := State(map[0 := Fiber(1, [I64(1000)], [], Running)], map[], map[], Active, 1)
  const S2 := State(map[0 := Fiber(2, [I64(1000)], [1], Running)], map[1 := GuardOf(true, [])], map[], Active, 2)
  const S3 := State(map[0 := Fiber(3, [], [1], Running)], map[1 := GuardOf(true, [])], map[], Active, 2)
  const S4 := State(map[0 := Fiber(4, [], [1], Running)], map[1 := GuardOf(true, [ROUTE])], map[], Active, 2)
  const BUSY := State(map[0 := Fiber(4, [], [1], Parked)], map[1 := GuardOf(true, [ROUTE])], map[], Active, 2)
  const LOST := State(map[2 := Fiber(8, [], [], Running)], map[1 := GuardOf(false, [ROUTE])], map[], Active, 3)

  lemma AstrayGuards()
    ensures Word(ASTRAY, S0, 0, S1) && Word(ASTRAY, S1, 0, S2)
  {
    assert [] + [I64(1000)] == [I64(1000)] && [] + [1] == [1];
    assert Push(S0, 0, I64(1000)).fibers == S1.fibers;
    assert GuardState(S1, 0, 11).fibers == S2.fibers && GuardState(S1, 0, 11).table == S2.table;
    ExecIs(ASTRAY, S1, 0);
  }

  lemma AstrayTimer()
    ensures Word(ASTRAY, S2, 0, S3)
  {
    assert [I64(1000)][..0] == [];
    assert Put(S2, 0, S2.fibers[0].(stack := [], pc := 3)).fibers == S3.fibers;
  }

  lemma AstrayArms()
    ensures Word(ASTRAY, S3, 0, S4) && Word(ASTRAY, S4, 0, BUSY)
  {
    assert InsertRoute([], ROUTE) == [ROUTE];
    assert S3.table[1 := GuardOf(true, [ROUTE])] == S4.table && Goto(S3, 0, 4).fibers == S4.fibers;
    ExecIs(ASTRAY, S3, 0);
    assert Park(S4, 0).fibers == BUSY.fibers;
  }

  lemma AstrayWorks()
    ensures Obeys(ASTRAY, S0, BUSY)
  {
    AstrayGuards();
    AstrayTimer();
    AstrayArms();
    var run := [S0, S1, S2, S3, S4, BUSY];
    forall i: nat ensures WordAt(ASTRAY, 0, run, i) {}
    assert Tick(ASTRAY, S0, 0, run, BUSY);
  }

  lemma BusyIntact()
    ensures Intact(ASTRAY, BUSY)
  {
    assert 0 in BUSY.fibers;
  }

  lemma AstrayFires()
    ensures Obeys(ASTRAY, BUSY, LOST)
  {
    assert RoutesTo(BUSY.table[1].routes, "E", 8);
    assert BUSY.fibers[0].control[0] == 1 && [1][..0] == [];
    assert StackBelow(BUSY, 1) == [] && Doomed(BUSY, 1) == {0} && Falls(BUSY, 1, 1);
    var t := TriggerState(BUSY, 1, 8);
    assert t.fibers == LOST.fibers && t.table == LOST.table;
    assert Fires(BUSY, 1, 8, LOST);
  }

  lemma LostIntact()
    ensures Intact(ASTRAY, LOST)
  {
    assert 2 in LOST.fibers;
  }

  lemma AstrayReached()
    ensures Committed(ASTRAY, LOST)
  {
    StartCommitted(ASTRAY, map[]);
    AstrayWorks();
    BusyIntact();
    CommitOn(ASTRAY, S0, BUSY);
    AstrayFires();
    LostIntact();
    CommitOn(ASTRAY, BUSY, LOST);
  }

  lemma OnlyHandlerTicks(f: nat, run: seq<State>, s': State)
    requires Tick(ASTRAY, LOST, f, run, s')
    ensures f == 2
  {
    assert WordAt(ASTRAY, f, run, 0);
  }

  lemma LostNeverObeys(s': State)
    ensures !Obeys(ASTRAY, LOST, s')
  {
    LostIntact();
    JoinExact(ASTRAY, LOST, 2);
    FailedNeverTicks(ASTRAY, LOST, 2, LOST);
    if f, run :| Tick(ASTRAY, LOST, f, run, s') { OnlyHandlerTicks(f, run, s'); }
    forall g, target ensures !Fires(LOST, g, target, s') {}
  }

  /** The committed state after the failure is active, and no command to it is obeyed. */
  lemma AstrayStuck()
    ensures Screened(ASTRAY, OPEN) && LeastCertificate(ASTRAY, OPEN) && ArmedAt(ASTRAY, OPEN, 3, 8) && |OPEN[3]| == 1
    ensures Committed(ASTRAY, LOST) && LOST.status.Active?
    ensures forall s' :: !Obeys(ASTRAY, LOST, s')
  {
    AstrayAccepted();
    AstrayReached();
    forall s' ensures !Obeys(ASTRAY, LOST, s') { LostNeverObeys(s'); }
  }
}
