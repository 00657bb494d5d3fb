/** That some certificate fits all error routes is enough for every run to be well, and not
    needed: here no certificate does, and the only guard stands where control never gets to,
    which takes evaluating a test to see. */
module DeadRoute {
  import opened Bytecode
  import opened ControlStack
  import opened Kernel
  import opened KernelSafety
  import opened Commands
  import opened SimulationTheorems
  import opened CompilerCorrectness

  const DEAD: Program :=
    [PushI64(0), BrIfNot(6), Guard(6), GuardArmError(AnyError, 0), GuardEnd, Jump(6), End]

  const G := Token(GuardScope, 2)

  const SHUT: map<nat, Scopes> := map[0 := [], 1 := [], 2 := [], 3 := [G], 4 := [G], 5 := [], 6 := []]

  // ---------------------------------------------------------------- no certificate fits

  function DeadNext(a: nat): seq<(nat, Scopes)> {
    if a == 0 then [(1, [])]
    else if a == 1 then [(6, []), (2, [])]
    else if a == 2 then [(6, []), (3, [G])]
    else if a == 3 then [(4, [G])]
    else if a == 4 then [(5, [])]
    else if a == 5 then [(6, [])]
    else []
  }

  lemma DeadStep(a: nat)
    requires a < 7
    ensures ControlStack.Step(DEAD, a, SHUT[a]) == Flow(DeadNext(a))
  {
    assert [] + [G] == [G] && [G][..0] == [];
  }

  lemma DeadRespects(a: nat)
    requires a < 7
    ensures a in SHUT && Respects(DEAD, SHUT, a)
  {
    DeadStep(a);
  }

  lemma DeadCertified()
    ensures Certificate(DEAD, SHUT)
  {
    forall a | a in SHUT ensures Respects(DEAD, SHUT, a) { DeadRespects(a); }
  }

  lemma DeadForces(m: map<nat, Scopes>, a: nat, i: nat)
    requires Certificate(DEAD, m) && a < 7 && a in m && m[a] == SHUT[a] && i < |DeadNext(a)|
    ensures DeadNext(a)[i].0 in m && m[DeadNext(a)[i].0] == DeadNext(a)[i].1
  {
    DeadStep(a);
    Flows(DEAD, m, a);
  }

  /** Every certificate gives the arming word its guard, and the route goes back. */
  lemma DeadUnfit(m: map<nat, Scopes>)
    requires Certificate(DEAD, m)
    ensures !RoutesFit(DEAD, m)
  {
    DeadForces(m, 0, 0);
    DeadForces(m, 1, 1);
    DeadForces(m, 2, 1);
    assert 3 in m && m[3] == [G];
    assert !RouteFits(DEAD, m, 3);
  }

  lemma DeadAccepted()
    ensures Screened(DEAD, SHUT)
  {
    DeadCertified();
    forall a | a in SHUT ensures Admissible(DEAD, SHUT, a) {}
  }

  // ---------------------------------------------------------------- every run is well

  /** The states of the only run there is for given flags. */
  function Stage(flags: map<nat, Value>, k: nat): State
    requires k < 4
  {
    if k == 0 then Initial(flags)
    else if k == 1 then State(map[0 := Fiber(1, [I64(0)], [], Running)], map[], flags, Active, 1)
    else if k == 2 then State(map[0 := Fiber(6, [], [], Running)], map[], flags, Active, 1)
    else State(map[], map[], flags, Completed, 1)
  }

  lemma StageExec(flags: map<nat, Value>, k: nat)
    requires k < 3
    ensures Runnable(Stage(flags, k), 0) && Exec(DEAD, Stage(flags, k), 0) == Ok(Stage(flags, k + 1))
  {
    assert [] + [I64(0)] == [I64(0)] && [I64(0)][..0] == [];
    var s := Stage(flags, k);
    if k == 0 {
      assert Push(s, 0, I64(0)).fibers == Stage(flags, 1).fibers;
    } else if k == 1 {
      assert Put(s, 0, Fiber(6, [], [], Running)).fibers == Stage(flags, 2).fibers;
    } else {
      assert s.fibers - {0} == map[];
      ExecIs(DEAD, s, 0);
    }
  }

  lemma StageSteps(flags: map<nat, Value>, k: nat, s': State)
    requires k < 4 && Steps(DEAD, Stage(flags, k), s')
    ensures k < 3 && s' == Stage(flags, k + 1)
  {
    if k < 3 { StageExec(flags, k); }
  }

  lemma {:induction false} RunStages(run: seq<State>, flags: map<nat, Value>, i: nat)
    requires IsRun(DEAD, run) && run[0] == Initial(flags) && i < |run|
    ensures i < 4 && run[i] == Stage(flags, i)
    decreases i
  {
    if i > 0 {
      RunStages(run, flags, i - 1);
      assert StepsAt(DEAD, run, i - 1);
      StageSteps(flags, i - 1, run[i]);
    }
  }

  lemma StageWell(flags: map<nat, Value>, k: nat)
    requires k < 4
    ensures StateWell(DEAD, Stage(flags, k))
  {
    var s := Stage(flags, k);
    if k < 3 {
      StageExec(flags, k);
      assert 0 in s.fibers;
    }
  }

  lemma ReachedStage(s: State) returns (flags: map<nat, Value>, k: nat)
    requires Reachable(DEAD, s)
    ensures k < 4 && s == Stage(flags, k)
  {
    var run :| IsRun(DEAD, run) && run[|run| - 1] == s;
    flags :| run[0] == Initial(flags);
    k := |run| - 1;
    RunStages(run, flags, k);
  }

  /** No certificate fits the error route of this accepted program, and yet every run is well. */
  lemma FitNotNeeded()
    ensures Screened(DEAD, SHUT)
    ensures forall m {:trigger Certificate(DEAD, m)} :: Certificate(DEAD, m) ==> !RoutesFit(DEAD, m)
    ensures RunsWell(DEAD, 3) && NeverRefused(DEAD)
  {
    DeadAccepted();
    forall m | Certificate(DEAD, m) ensures !RoutesFit(DEAD, m) { DeadUnfit(m); }
    forall run: seq<State> | IsRun(DEAD, run) ensures |run| <= 4 {
      var flags :| run[0] == Initial(flags);
      RunStages(run, flags, |run| - 1);
    }
    forall s: State | Reachable(DEAD, s) ensures StateWell(DEAD, s) {
      var flags, k := ReachedStage(s);
      StageWell(flags, k);
    }
    forall s, s' | Reachable(DEAD, s) && Obeys(DEAD, s, s') ensures Commits(DEAD, s, s') {
      ObeysReaches(DEAD, s, s');
      assert StateWell(DEAD, s');
    }
  }
}
