/** The words of the choosing gateways make the choice the token game makes. */
module GatewayRuns {
  import opened Segments
  import opened Bytecode
  import opened Kernel
  import opened Bursts
  import opened Ir
  import opened Blocks
  import opened WordFlow
  import TokenGame

  // ---------------------------------------------------------------- exclusive gateways

  /** One test: the branch is taken exactly when the test is decided for it. */
  lemma TestRuns(p: Program, s: State, f: nat, a: nat, c: Condition, target: nat, lo: nat, hi: nat)
    requires Runnable(s, f) && a + 1 < |p| && p[a] == LoadFlag(c.flag) && p[a + 1] == BranchWord(c, target)
    requires lo < a + 1 < hi
    ensures RunsIn(p, Loc(s, f, a, []), f,
                   Loc(s, f, if TokenGame.Decided(c, TokenGame.Read(s.flags, c.flag)) then target else a + 2, []),
                   lo, hi)
  {
    var v := Flag(s, c.flag);
    var m0, m1 := Loc(s, f, a, []), Loc(s, f, a + 1, [v]);
    var m2 := Loc(s, f, if TokenGame.Decided(c, v) then target else a + 2, []);
    LoadRuns(p, s, f, a);
    BranchRuns(p, s, f, a + 1, v);
    WordIn(p, m0, f, m1, lo, hi);
    WordIn(p, m1, f, m2, lo, hi);
    RunsInOn(p, m0, f, m1, m2, lo, hi);
  }

  lemma TestAt(pl: Plan, p: Program, base: nat, flows: seq<Flow>, i: nat)
    requires Placed(p, base, Flatten(XorTests(pl, flows))) && i < |flows|
    ensures Offset(XorTests(pl, flows), i + 1) == Offset(XorTests(pl, flows), i) + |XorTest(pl, flows[i])|
    ensures Placed(p, base + Offset(XorTests(pl, flows), i), XorTest(pl, flows[i]))
  {
    FlattenAt(XorTests(pl, flows), i);
    PlacedInside(p, base, Flatten(XorTests(pl, flows)), Offset(XorTests(pl, flows), i), XorTests(pl, flows)[i]);
  }

  /** Where the first met test from the `i`-th on leads, else `other`. */
  function Picked(pl: Plan, flows: seq<Flow>, flags: map<nat, Value>, i: nat, other: nat): nat
    requires i <= |flows|
  {
    var m := TokenGame.FirstMatch(flows, flags, i);
    if m.Some? then Land(pl, flows[m.value]) else other
  }

  lemma {:induction false} TestStep(pl: Plan, p: Program, s: State, f: nat, base: nat, flows: seq<Flow>, i: nat,
                                    other: nat, hi: nat)
    requires Runnable(s, f) && Placed(p, base, Flatten(XorTests(pl, flows))) && i < |flows|
    requires base + Offset(XorTests(pl, flows), i + 1) < hi
    requires RunsIn(p, Loc(s, f, base + Offset(XorTests(pl, flows), i + 1), []), f,
      Loc(s, f, Picked(pl, flows, s.flags, i + 1, other), []), base, hi)
    ensures RunsIn(p, Loc(s, f, base + Offset(XorTests(pl, flows), i), []), f,
      Loc(s, f, Picked(pl, flows, s.flags, i, other), []), base, hi)
  {
    TestAt(pl, p, base, flows, i);
    if flows[i].condition.Some? {
      var a, c := base + Offset(XorTests(pl, flows), i), flows[i].condition.value;
      PlacedWord(p, a, XorTest(pl, flows[i]), 0);
      PlacedWord(p, a, XorTest(pl, flows[i]), 1);
      TestRuns(p, s, f, a, c, Land(pl, flows[i]), base, hi);
      if !TokenGame.Decided(c, TokenGame.Read(s.flags, c.flag)) {
        RunsInOn(p, Loc(s, f, a, []), f, Loc(s, f, a + 2, []),
                 Loc(s, f, Picked(pl, flows, s.flags, i + 1, other), []), base, hi);
      }
    }
  }

  /** From the `i`-th test on, the fibre goes where the first met test, else the jump after the
      tests, leads, and before that stays among the words of the gateway. */
  lemma {:induction false} TestsRun(pl: Plan, p: Program, s: State, f: nat, base: nat, flows: seq<Flow>, i: nat,
                                    other: nat, hi: nat)
    requires Runnable(s, f) && Placed(p, base, Flatten(XorTests(pl, flows))) && i <= |flows|
    requires base + |Flatten(XorTests(pl, flows))| < |p| && p[base + |Flatten(XorTests(pl, flows))|] == Jump(other)
    requires base + |Flatten(XorTests(pl, flows))| < hi
    ensures RunsIn(p, Loc(s, f, base + Offset(XorTests(pl, flows), i), []), f,
      Loc(s, f, Picked(pl, flows, s.flags, i, other), []), base, hi)
    ensures Offset(XorTests(pl, flows), i) <= |Flatten(XorTests(pl, flows))|
    decreases |flows| - i
  {
    if i == |flows| {
      assert XorTests(pl, flows)[..i] == XorTests(pl, flows);
      var a := base + |Flatten(XorTests(pl, flows))|;
      JumpRuns(p, s, f, a, []);
      WordIn(p, Loc(s, f, a, []), f, Loc(s, f, other, []), base, hi);
    } else {
      TestsRun(pl, p, s, f, base, flows, i + 1, other, hi);
      TestStep(pl, p, s, f, base, flows, i, other, hi);
      TestAt(pl, p, base, flows, i);
    }
  }

  /** An exclusive gateway with a default goes where the token game goes, straight from its words. */
  lemma {:induction false} XorRunsIn(pl: Plan, p: Program, s: State, f: nat, base: nat, flows: seq<Flow>, hi: nat)
    requires Runnable(s, f) && XorBlock(pl, flows).Words? && Placed(p, base, XorBlock(pl, flows).words)
    requires DefaultFlow(flows, |flows|).Some? && base + |XorBlock(pl, flows).words| <= hi
    ensures TokenGame.Chosen(flows, s.flags).Some?
    ensures RunsIn(p, Loc(s, f, base, []), f, Loc(s, f, Land(pl, flows[TokenGame.Chosen(flows, s.flags).value]), []),
                   base, hi)
  {
    var body, other := Flatten(XorTests(pl, flows)), Land(pl, flows[DefaultFlow(flows, |flows|).value]);
    assert XorBlock(pl, flows).words == body + [Jump(other)] + [];
    ThreePieces(p, base, body, Jump(other), []);
    assert XorTests(pl, flows)[..0] == [];
    TestsRun(pl, p, s, f, base, flows, 0, other, hi);
  }

  lemma {:induction false} XorRuns(pl: Plan, p: Program, s: State, f: nat, base: nat, flows: seq<Flow>)
    requires Runnable(s, f) && XorBlock(pl, flows).Words? && Placed(p, base, XorBlock(pl, flows).words)
    requires DefaultFlow(flows, |flows|).Some?
    ensures TokenGame.Chosen(flows, s.flags).Some?
    ensures Runs(p, Loc(s, f, base, []), f, Loc(s, f, Land(pl, flows[TokenGame.Chosen(flows, s.flags).value]), []))
  {
    var hi := base + |XorBlock(pl, flows).words|;
    XorRunsIn(pl, p, s, f, base, flows, hi);
    RunsInRuns(p, Loc(s, f, base, []), f, Loc(s, f, Land(pl, flows[TokenGame.Chosen(flows, s.flags).value]), []),
               base, hi);
  }

  // ---------------------------------------------------------------- inclusive gateways

  predicate SomeLive(flows: seq<Flow>, flags: map<nat, Value>, i: nat) {
    exists k :: i <= k < |flows| && TokenGame.Live(flows[k], flags)
  }

  lemma CheckAt(p: Program, base: nat, flows: seq<Flow>, fork: nat, i: nat)
    requires Placed(p, base, Flatten(Prechecks(flows, fork))) && i < |flows| && flows[i].condition.Some?
    ensures Offset(Prechecks(flows, fork), i + 1) == Offset(Prechecks(flows, fork), i) + 2
    ensures var a := base + Offset(Prechecks(flows, fork), i);
      a + 1 < |p| && p[a] == LoadFlag(flows[i].condition.value.flag) && p[a + 1] == BrIf(fork)
  {
    var checks := Prechecks(flows, fork);
    FlattenAt(checks, i);
    PlacedInside(p, base, Flatten(checks), Offset(checks, i), checks[i]);
    PlacedWord(p, base + Offset(checks, i), checks[i], 0);
    PlacedWord(p, base + Offset(checks, i), checks[i], 1);
  }

  /** One check: the fibre goes to the fork if the branch is live, else on to the next check. */
  lemma CheckRuns(p: Program, s: State, f: nat, base: nat, flows: seq<Flow>, fork: nat, i: nat)
    requires Runnable(s, f) && Placed(p, base, Flatten(Prechecks(flows, fork))) && i < |flows|
    requires flows[i].condition.Some?
    ensures Runs(p, Loc(s, f, base + Offset(Prechecks(flows, fork), i), []), f,
                 Loc(s, f, if TokenGame.Live(flows[i], s.flags) then fork
                           else base + Offset(Prechecks(flows, fork), i + 1), []))
  {
    var a, key := base + Offset(Prechecks(flows, fork), i), flows[i].condition.value.flag;
    CheckAt(p, base, flows, fork, i);
    var v := Flag(s, key);
    LoadRuns(p, s, f, a);
    BranchRuns(p, s, f, a + 1, v);
    RunsOn(p, Loc(s, f, a, []), f, Loc(s, f, a + 1, [v]), Loc(s, f, if Truthy(v) then fork else a + 2, []));
  }

  /** From the `i`-th check on, the fibre reaches the fork if a branch is live, else the
      word that raises the incident. */
  lemma {:induction false} ChecksRun(p: Program, s: State, f: nat, base: nat, flows: seq<Flow>, fork: nat, i: nat)
    requires Runnable(s, f) && Placed(p, base, Flatten(Prechecks(flows, fork))) && i < |flows|
    requires forall k :: 0 <= k < |flows| ==> flows[k].condition.Some?
    ensures Runs(p, Loc(s, f, base + Offset(Prechecks(flows, fork), i), []), f,
                 Loc(s, f, if SomeLive(flows, s.flags, i) then fork else base + |Flatten(Prechecks(flows, fork))|, []))
    decreases |flows| - i
  {
    var checks := Prechecks(flows, fork);
    CheckRuns(p, s, f, base, flows, fork, i);
    if TokenGame.Live(flows[i], s.flags) {
    } else if i + 1 == |flows| {
      assert checks[..i + 1] == checks;
      assert !SomeLive(flows, s.flags, i);
    } else {
      ChecksRun(p, s, f, base, flows, fork, i + 1);
      assert SomeLive(flows, s.flags, i) == SomeLive(flows, s.flags, i + 1);
      RunsOn(p, Loc(s, f, base + Offset(checks, i), []), f, Loc(s, f, base + Offset(checks, i + 1), []),
             Loc(s, f, if SomeLive(flows, s.flags, i + 1) then fork else base + |Flatten(checks)|, []));
    }
  }
}
