/** What admission guarantees about every run of the machine. */
module KernelTheorems {
  import opened Graphs
  import opened Bytecode
  import opened ControlStack
  import opened Kernel
  import opened KernelInvariant
  import opened KernelSafety
  import opened Commands

  lemma InitialInv(p: Program, e: map<nat, Scopes>, flags: map<nat, Value>)
    requires Certificate(p, e)
    ensures Inv(p, e, Initial(flags), map[])
  {
    var s := Initial(flags);
    assert Riders(s, []) == {0};
    assert Kids(s, map[], []) == {};
    assert Tokens(map[], []) == [];
  }

  ghost predicate OpenedAt(p: Program, run: seq<State>, j: nat, h: nat, t: Token) {
    j + 1 < |run| && Origin(p, run[j], run[j + 1], h, t)
  }

  /** Every handle of the history was opened by an earlier step of the run. */
  ghost predicate Opened(p: Program, run: seq<State>, i: nat, h: nat, t: Token) {
    exists j {:trigger OpenedAt(p, run, j, h, t)} :: 0 <= j < i && OpenedAt(p, run, j, h, t)
  }

  ghost predicate Traced(p: Program, run: seq<State>, i: nat, hi: History) {
    forall h :: h in hi ==> Opened(p, run, i, h, hi[h].token)
  }

  lemma OpenedLater(p: Program, run: seq<State>, i: nat, h: nat, t: Token)
    requires i + 1 < |run| && (Opened(p, run, i, h, t) || Origin(p, run[i], run[i + 1], h, t))
    ensures Opened(p, run, i + 1, h, t)
  {
    assert Origin(p, run[i], run[i + 1], h, t) ==> OpenedAt(p, run, i, h, t);
  }

  /** Every state of every run satisfies the invariant. */
  lemma {:induction false} RunInv(p: Program, e: map<nat, Scopes>, run: seq<State>, i: nat) returns (hi: History)
    requires Admitted(p, e) && IsRun(p, run) && i < |run|
    ensures Inv(p, e, run[i], hi) && Traced(p, run, i, hi)
  {
    if i == 0 {
      var flags :| run[0] == Initial(flags);
      InitialInv(p, e, flags);
      hi := map[];
    } else {
      var before := RunInv(p, e, run, i - 1);
      assert StepsAt(p, run, i - 1);
      hi := StepKeeps(p, e, run[i - 1], before, run[i]);
      forall h | h in hi ensures Opened(p, run, i, h, hi[h].token) {
        OpenedLater(p, run, i - 1, h, hi[h].token);
      }
    }
  }

  /** Some history explains the state. */
  ghost predicate Explained(p: Program, e: map<nat, Scopes>, s: State) {
    exists hi :: Inv(p, e, s, hi)
  }

  lemma ExplainedAt(p: Program, e: map<nat, Scopes>, run: seq<State>, i: nat)
    requires Admitted(p, e) && IsRun(p, run) && i < |run|
    ensures Explained(p, e, run[i])
  {
    var hi := RunInv(p, e, run, i);
  }

  lemma ReachableInv(p: Program, e: map<nat, Scopes>, s: State) returns (hi: History)
    requires Admitted(p, e) && Reachable(p, s)
    ensures Inv(p, e, s, hi)
  {
    var run :| IsRun(p, run) && run[|run| - 1] == s;
    ExplainedAt(p, e, run, |run| - 1);
    hi :| Inv(p, e, s, hi);
  }

  // ---------------------------------------------------------------- concurrency invariants

  lemma InsideIsMember(s: State, hi: History, x: nat, h: nat)
    requires Shape(s, hi) && Members(s) && x in s.fibers && h in Inside(s.fibers[x])
    ensures h in s.table && s.table[h].armed && x in s.table[h].members
  {
    assert Chain(s, hi, Inside(s.fibers[x]));
    assert Armed(s, h);
  }

  lemma KInvariantsOf(s: State, hi: History)
    requires Shape(s, hi) && Members(s) && Counts(s, hi)
    ensures KInvariants(s)
  {
    forall x, h | x in s.fibers && h in Inside(s.fibers[x])
      ensures h in s.table && s.table[h].armed && x in s.table[h].members
    {
      InsideIsMember(s, hi, x, h);
    }
    forall h | h in s.table && s.table[h].armed
      ensures s.table[h].members == Doomed(s, h)
      ensures s.table[h].kind.Barrier? ==> 1 <= s.table[h].count <= s.table[h].arity
    {
      assert Armed(s, h) && Counted(s, hi, h);
    }
  }

  // ---------------------------------------------------------------- the check always passes

  /** Fibres, one inside each of these scopes opened on the stack `c`. */
  ghost predicate Represent(s: State, c: seq<nat>, kids: set<nat>, riders: set<nat>) {
    && |riders| == |kids|
    && forall x :: x in riders ==>
         x in s.fibers && !s.fibers[x].wait.AtBarrier? && |s.fibers[x].control| > |c| &&
           s.fibers[x].control[|c|] in kids
  }

  lemma {:induction false} KidRiders(s: State, hi: History, c: seq<nat>, kids: set<nat>) returns (riders: set<nat>)
    requires Shape(s, hi) && Counts(s, hi) && kids <= Kids(s, hi, c)
    ensures Represent(s, c, kids, riders)
    ensures forall x :: x in riders ==> c < s.fibers[x].control
    decreases kids
  {
    if kids == {} {
      riders := {};
    } else {
      var k :| k in kids;
      var rest := KidRiders(s, hi, c, kids - {k});
      var x := LiveRider(s, hi, k);
      RiderAbove(s, hi, c, k, x);
      riders := rest + {x};
      assert x !in rest;
      assert kids == kids - {k} + {k};
    }
  }

  lemma RiderAbove(s: State, hi: History, c: seq<nat>, k: nat, x: nat)
    requires Shape(s, hi) && k in Kids(s, hi, c) && x in s.fibers && !s.fibers[x].wait.AtBarrier? &&
      k in s.fibers[x].control
    ensures |s.fibers[x].control| > |c| && s.fibers[x].control[|c|] == k && c < s.fibers[x].control
  {
    var d := s.fibers[x].control;
    assert Chain(s, hi, Inside(s.fibers[x]));
    var i :| 0 <= i < |d| && d[i] == k;
    assert d[..i] == c;
  }

  lemma AwaitedInside(s: State, hi: History, h: nat, x: nat)
    requires Members(s) && Armed(s, h) && h in hi && x in s.fibers && !s.fibers[x].wait.AtBarrier?
    requires Slot(hi, h) <= s.fibers[x].control
    ensures x in Awaited(s, h)
  {
    assert Slot(hi, h)[|hi[h].base|] == h;
    assert s.fibers[x].control[|hi[h].base|] == h;
    assert x in Doomed(s, h);
  }

  /** Enough members of an open barrier are still to come. */
  lemma EnoughAwaited(s: State, hi: History, h: nat)
    requires Shape(s, hi) && Members(s) && Counts(s, hi) && Armed(s, h)
    ensures |Awaited(s, h)| >= Load(s, hi, Slot(hi, h))
  {
    var c := Slot(hi, h);
    var inner := KidRiders(s, hi, c, Kids(s, hi, c));
    forall x | x in Riders(s, c) + inner ensures x in Awaited(s, h) { AwaitedInside(s, hi, h, x); }
    assert Riders(s, c) !! inner;
    SubsetSize(Riders(s, c) + inner, Awaited(s, h));
  }

  lemma RootAlive(s: State, hi: History)
    requires Shape(s, hi) && Counts(s, hi) && Root(s, hi)
    ensures Alive(s)
  {
    if s.status.Active? || s.status.Incidented? {
      if Riders(s, []) == {} {
        assert Kids(s, hi, []) != {};
        var h :| h in Kids(s, hi, []);
        var x := LiveRider(s, hi, h);
      } else {
        var x :| x in Riders(s, []);
        assert x in s.fibers;
      }
    }
  }

  /** The check passes wherever the scopes are in order. */
  lemma OrderIsIntact(p: Program, s: State, hi: History)
    requires Shape(s, hi) && Members(s) && Counts(s, hi) && Root(s, hi) && forall x :: x in s.fibers ==>
      s.fibers[x].pc < |p|
    ensures Intact(p, s)
  {
    KInvariantsOf(s, hi);
    RootAlive(s, hi);
    forall h | h in s.table && s.table[h].armed && s.table[h].kind.Barrier?
      ensures |Awaited(s, h)| >= s.table[h].count {
      assert Armed(s, h) && Counted(s, hi, h);
      EnoughAwaited(s, hi, h);
    }
  }

  lemma InvIsIntact(p: Program, e: map<nat, Scopes>, s: State, hi: History)
    requires Inv(p, e, s, hi)
    ensures Intact(p, s)
  {
    forall x | x in s.fibers ensures s.fibers[x].pc < |p| { assert TypedFiber(p, e, hi, s.fibers[x]); }
    OrderIsIntact(p, s, hi);
  }

  /** Every state of every run passes the check: no transition of an admitted program is refused. */
  lemma AlwaysIntact(p: Program, e: map<nat, Scopes>, run: seq<State>, i: nat)
    requires Admitted(p, e) && IsRun(p, run) && i < |run|
    ensures Intact(p, run[i])
  {
    var hi := RunInv(p, e, run, i);
    InvIsIntact(p, e, run[i], hi);
  }

  /** Whatever a command does to a reachable state of an admitted program is committed. */
  lemma CommandsCommit(p: Program, e: map<nat, Scopes>, s: State, s': State)
    requires Admitted(p, e) && Reachable(p, s) && Obeys(p, s, s')
    ensures Commits(p, s, s') && Reachable(p, s')
  {
    ObeysReaches(p, s, s');
    var run :| IsRun(p, run) && run[|run| - 1] == s';
    AlwaysIntact(p, e, run, |run| - 1);
  }

  /** Barrier conservation: arrived fibres and outstanding branches make up the arity. */
  lemma BarrierConservation(p: Program, e: map<nat, Scopes>, run: seq<State>, i: nat, h: nat)
    requires Admitted(p, e) && IsRun(p, run) && i < |run|
    requires h in run[i].table && run[i].table[h].armed && run[i].table[h].kind.Barrier?
    ensures run[i].table[h].count >= 1
    ensures run[i].table[h].count + |Arrived(run[i], h)| == run[i].table[h].arity
    ensures exists x :: x in run[i].fibers && !run[i].fibers[x].wait.AtBarrier? && h in run[i].fibers[x].control
  {
    var hi := RunInv(p, e, run, i);
    assert Armed(run[i], h) && Counted(run[i], hi, h);
    var x := LiveRider(run[i], hi, h);
  }

  // ---------------------------------------------------------------- no starvation

  /** A state that satisfies the invariant and is active has a fibre that does not wait for others. */
  lemma SomeFibreLives(p: Program, e: map<nat, Scopes>, s: State, hi: History) returns (x: nat)
    requires Inv(p, e, s, hi) && s.status.Active?
    ensures x in s.fibers && (s.fibers[x].wait.Running? || s.fibers[x].wait.Parked?)
  {
    if Riders(s, []) != {} {
      x :| x in Riders(s, []);
    } else {
      assert Kids(s, hi, []) != {};
      var h :| h in Kids(s, hi, []);
      x := LiveRider(s, hi, h);
    }
  }

  /** While the instance is active some fibre runs or waits for the outside: joins
      alone never block an instance. */
  lemma NeverStarves(p: Program, e: map<nat, Scopes>, run: seq<State>, i: nat)
    requires Admitted(p, e) && IsRun(p, run) && i < |run| && run[i].status.Active?
    ensures exists x :: x in run[i].fibers && (run[i].fibers[x].wait.Running? || run[i].fibers[x].wait.Parked?)
  {
    var hi := RunInv(p, e, run, i);
    var x := SomeFibreLives(p, e, run[i], hi);
  }

  /** A fibre that reaches `End` is the last one, and the instance completes. */
  lemma EndCompletes(p: Program, e: map<nat, Scopes>, run: seq<State>, i: nat, f: nat)
    requires Admitted(p, e) && IsRun(p, run) && i < |run| && Runnable(run[i], f)
    requires run[i].fibers[f].pc < |p| && p[run[i].fibers[f].pc].End?
    ensures Exec(p, run[i], f) == Ok(EndState(run[i], f))
    ensures EndState(run[i], f).status.Completed? && EndState(run[i], f).fibers == map[]
    ensures forall h :: h in run[i].table ==> !run[i].table[h].armed
  {
    var hi := RunInv(p, e, run, i);
    EndIsLast(p, e, run[i], hi, f);
    forall h | h in run[i].table ensures !run[i].table[h].armed { assert !Armed(run[i], h); }
    assert run[i].fibers - {f} == map[];
  }

  // ---------------------------------------------------------------- control never fails

  predicate ControlFailure(f: Failure) {
    f.PcOutOfBounds? || f.ControlUnderflow? || f.UnknownBarrier? || f.NoOpenGuard? || f.NotModelled?
  }

  /** No word of a reachable state fails for lack of an address, a scope or a record. */
  lemma NoControlFailure(p: Program, e: map<nat, Scopes>, run: seq<State>, i: nat, f: nat)
    requires Admitted(p, e) && IsRun(p, run) && i < |run| && Runnable(run[i], f)
    ensures Exec(p, run[i], f).Err? ==> !ControlFailure(Exec(p, run[i], f).failure)
  {
    var s := run[i];
    var hi := RunInv(p, e, run, i);
    ControlReady(p, e, s, hi, f);
    ControlOk(p, s, f);
  }

  ghost predicate Ready(p: Program, s: State, f: nat)
    requires f in s.fibers
  {
    && s.fibers[f].pc < |p|
    && var i, c := p[s.fibers[f].pc], s.fibers[f].control;
    && !i.GuardN? && !i.GuardNEnd? && !i.GuardTimerCycle?
    && (i.Join? || i.GuardEnd? || i.GuardArmError? || i.GuardArmTimer? ==> |c| > 0 && c[|c| - 1] in s.table)
    && (i.GuardArmError? ==> s.table[c[|c| - 1]].armed && s.table[c[|c| - 1]].kind.GuardRecord?)
  }

  lemma ControlOk(p: Program, s: State, f: nat)
    requires f in s.fibers && Ready(p, s, f)
    ensures Exec(p, s, f).Err? ==> !ControlFailure(Exec(p, s, f).failure)
  {
  }

  lemma ArmToken(p: Program, e: map<nat, Scopes>, a: nat)
    requires Admitted(p, e) && a in e && (p[a].GuardArmError? || p[a].GuardArmTimer?)
    ensures |e[a]| > 0 && IsGuard(e[a][|e[a]| - 1].kind)
  {
    Flows(p, e, a);
  }

  lemma ControlReady(p: Program, e: map<nat, Scopes>, s: State, hi: History, f: nat)
    requires Admitted(p, e) && Inv(p, e, s, hi) && Runnable(s, f)
    ensures Ready(p, s, f)
  {
    assert TypedFiber(p, e, hi, s.fibers[f]);
    var i, c := p[s.fibers[f].pc], s.fibers[f].control;
    assert Chain(s, hi, Inside(s.fibers[f]));
    assert Admissible(p, e, s.fibers[f].pc);
    if i.GuardArmTimer? { ArmToken(p, e, s.fibers[f].pc); }
    if i.Join? || i.GuardEnd? || i.GuardArmError? {
      var h := TopScope(p, e, s, hi, f);
      if i.GuardArmError? { ArmToken(p, e, s.fibers[f].pc); }
    }
  }

  /** The handle a join pops was opened by a fork with the join's own pairing. */
  lemma JoinFindsItsFork(p: Program, e: map<nat, Scopes>, run: seq<State>, i: nat, f: nat)
    requires Admitted(p, e) && IsRun(p, run) && i < |run| && Runnable(run[i], f)
    requires run[i].fibers[f].pc < |p| && p[run[i].fibers[f].pc].Join?
    ensures |run[i].fibers[f].control| > 0
    ensures Opened(p, run, i, run[i].fibers[f].control[|run[i].fibers[f].control| - 1],
                   Token(BarrierScope, p[run[i].fibers[f].pc].pairing))
  {
    var s := run[i];
    var hi := RunInv(p, e, run, i);
    assert TypedFiber(p, e, hi, s.fibers[f]);
    var h := TopScope(p, e, s, hi, f);
    JoinToken(p, e, s.fibers[f].pc);
  }
}
