/** What the handler of an error route comes to. It starts with the scopes around its guard, which
    the control-stack verifier did not pass on to it. Up to its first word that opens or closes a
    scope it keeps them; an end is then accepted exactly if there are none, and a join works
    exactly if there is one. */
module HandlerRuns {
  import opened Bytecode
  import opened ControlStack
  import opened Kernel
  import opened KernelInvariant
  import opened KernelSafety
  import opened Bursts
  import opened Commands
  import opened ErrorRoutes

  // ---------------------------------------------------------------- one fibre on its own

  /** Words that neither open nor close a scope and do not stop the instance. */
  predicate Neutral(i: Instr) {
    || i.Jump? || i.BrIf? || i.BrIfNot? || i.PushI64? || i.LoadFlag? || i.StoreFlag? || i.MiArityCheck?
    || i.MiIndexLive? || i.MiLoadElement? || i.PublishMessage? || i.ExecNative? || i.ExecFfi? || i.WaitMsg?
    || i.WaitFor? || i.WaitUntil?
  }

  /** Fibre `x` executes a neutral word, or its work is finished. */
  ghost predicate Alone(p: Program, x: nat, s: State, s': State) {
    || (Word(p, s, x, s') && s.fibers[x].pc < |p| && Neutral(p[s.fibers[x].pc]))
    || (exists flags :: Resumes(s, x, flags, s'))
  }

  ghost predicate AloneAt(p: Program, x: nat, run: seq<State>, i: nat) {
    i + 1 < |run| ==> Alone(p, x, run[i], run[i + 1])
  }

  ghost predicate IsAlone(p: Program, x: nat, run: seq<State>) {
    |run| > 0 && forall i: nat {:trigger AloneAt(p, x, run, i)} :: AloneAt(p, x, run, i)
  }

  /** Nothing changed but the place, the operands and the wait of `x`, and the flags. */
  ghost predicate OnlyMoved(s: State, x: nat, s': State) {
    && s'.table == s.table && s'.nextId == s.nextId && s'.status == s.status
    && x in s.fibers && s'.fibers.Keys == s.fibers.Keys
    && (forall y :: y in s.fibers && y != x ==> s'.fibers[y] == s.fibers[y])
    && s'.fibers[x].control == s.fibers[x].control
    && !s.fibers[x].wait.AtBarrier? && !s'.fibers[x].wait.AtBarrier?
  }

  lemma NeutralMoves(p: Program, x: nat, s: State, s': State)
    requires Word(p, s, x, s') && s.fibers[x].pc < |p| && Neutral(p[s.fibers[x].pc])
    ensures OnlyMoved(s, x, s')
  {
  }

  lemma AloneMoves(p: Program, x: nat, s: State, s': State)
    requires Alone(p, x, s, s')
    ensures OnlyMoved(s, x, s')
  {
    if Word(p, s, x, s') && s.fibers[x].pc < |p| && Neutral(p[s.fibers[x].pc]) { NeutralMoves(p, x, s, s'); }
  }

  lemma MovedOn(s: State, x: nat, t: State, s': State)
    requires OnlyMoved(s, x, t) && OnlyMoved(t, x, s')
    ensures OnlyMoved(s, x, s')
  {
  }

  lemma {:induction false} AloneKeeps(p: Program, x: nat, run: seq<State>, n: nat)
    requires IsAlone(p, x, run) && n < |run| && x in run[0].fibers && !run[0].fibers[x].wait.AtBarrier?
    ensures OnlyMoved(run[0], x, run[n])
    decreases n
  {
    if n > 0 {
      AloneKeeps(p, x, run, n - 1);
      assert AloneAt(p, x, run, n - 1);
      AloneMoves(p, x, run[n - 1], run[n]);
      MovedOn(run[0], x, run[n - 1], run[n]);
    }
  }

  lemma AwaitedSame(s: State, x: nat, s': State, h: nat)
    requires OnlyMoved(s, x, s') && h in s.table
    ensures Awaited(s', h) == Awaited(s, h)
  {
  }

  lemma MovedScopes(s: State, x: nat, s': State)
    requires KInvariants(s) && OnlyMoved(s, x, s')
    ensures KInvariants(s')
  {
    assert forall y :: y in s.fibers ==> Inside(s'.fibers[y]) == Inside(s.fibers[y]);
  }

  /** A fibre that only moved within the program leaves the scopes in order. */
  lemma MovedIntact(p: Program, s: State, x: nat, s': State)
    requires Intact(p, s) && OnlyMoved(s, x, s') && s'.fibers[x].pc < |p|
    ensures Intact(p, s')
  {
    MovedScopes(s, x, s');
    forall h | h in s'.table && s'.table[h].armed && s'.table[h].kind.Barrier?
      ensures |Awaited(s', h)| >= s'.table[h].count
    {
      AwaitedSame(s, x, s', h);
    }
  }

  // ---------------------------------------------------------------- as commands

  /** Commands, one after the other, each of them committed. */
  ghost predicate CommitPath(p: Program, cs: seq<State>, s: State, r: State) {
    |cs| > 0 && cs[0] == s && cs[|cs| - 1] == r && forall i: nat {:trigger CommitsAt(p, cs, i)} :: CommitsAt(p, cs, i)
  }

  lemma PathOn(p: Program, cs: seq<State>, s: State, r: State, r': State)
    requires CommitPath(p, cs, s, r) && Commits(p, r, r')
    ensures CommitPath(p, cs + [r'], s, r')
  {
    var more := cs + [r'];
    forall i: nat ensures CommitsAt(p, more, i) { assert CommitsAt(p, cs, i); }
  }

  /** `x` runs from `r` to `t`, by zero or more words. */
  ghost predicate RunsTo(p: Program, r: State, x: nat, t: State) {
    r == t || Runs(p, r, x, t)
  }

  lemma RunsToOn(p: Program, r: State, x: nat, t: State, s': State)
    requires RunsTo(p, r, x, t) && Word(p, t, x, s')
    ensures Runs(p, r, x, s')
  {
    OneWord(p, t, x, s');
    if r != t { RunsOn(p, r, x, t, s'); }
  }

  /** Where the fibre is parked it can be resumed: the tick before is committed, and so is the
      resumption. */
  lemma ParkedPath(p: Program, x: nat, cs: seq<State>, s: State, r: State, t: State, flags: map<nat, Value>, s': State)
    returns (more: seq<State>)
    requires CommitPath(p, cs, s, r) && RunsTo(p, r, x, t) && Resumes(t, x, flags, s') && Intact(p, t) && Intact(p, s')
    ensures CommitPath(p, more, s, s')
  {
    more := cs;
    if r != t {
      var run :| Travels(p, r, x, run, t);
      assert Tick(p, r, x, run, t);
      assert Commits(p, r, t);
      PathOn(p, more, s, r, t);
      more := more + [t];
    }
    assert Commits(p, t, s');
    PathOn(p, more, s, t, s');
    more := more + [s'];
  }

  /** All places of `x` are in the program. */
  ghost predicate Inbound(p: Program, x: nat, run: seq<State>) {
    forall i :: 0 <= i < |run| && x in run[i].fibers ==> run[i].fibers[x].pc < |p|
  }

  lemma AloneIntact(p: Program, x: nat, run: seq<State>, n: nat)
    requires IsAlone(p, x, run) && n < |run| && Intact(p, run[0]) && x in run[0].fibers
    requires !run[0].fibers[x].wait.AtBarrier? && Inbound(p, x, run)
    ensures Intact(p, run[n])
  {
    AloneKeeps(p, x, run, n);
    MovedIntact(p, run[0], x, run[n]);
  }

  lemma AloneOn(p: Program, x: nat, cs: seq<State>, s: State, r: State, t: State, s': State)
    returns (r': State, more: seq<State>)
    requires CommitPath(p, cs, s, r) && RunsTo(p, r, x, t) && Alone(p, x, t, s') && Intact(p, t) && Intact(p, s')
    ensures CommitPath(p, more, s, r') && RunsTo(p, r', x, s')
  {
    if flags :| Resumes(t, x, flags, s') {
      more := ParkedPath(p, x, cs, s, r, t, flags, s');
      r' := s';
    } else {
      RunsToOn(p, r, x, t, s');
      r', more := r, cs;
    }
  }

  lemma PathStart(p: Program, s: State) returns (cs: seq<State>)
    ensures CommitPath(p, cs, s, s)
  {
    cs := [s];
    forall i: nat ensures CommitsAt(p, cs, i) {}
  }

  /** The run is `x`'s own, from a state in order and within the program. */
  ghost predicate Driven(p: Program, x: nat, run: seq<State>) {
    && IsAlone(p, x, run) && Inbound(p, x, run) && Intact(p, run[0])
    && x in run[0].fibers && !run[0].fibers[x].wait.AtBarrier?
  }

  lemma AloneNext(p: Program, x: nat, run: seq<State>, n: nat, cs: seq<State>, r: State)
    returns (r': State, more: seq<State>)
    requires Driven(p, x, run) && 0 < n < |run|
    requires CommitPath(p, cs, run[0], r) && RunsTo(p, r, x, run[n - 1])
    ensures CommitPath(p, more, run[0], r') && RunsTo(p, r', x, run[n])
  {
    AloneIntact(p, x, run, n - 1);
    AloneIntact(p, x, run, n);
    var t, s' := run[n - 1], run[n];
    assert Alone(p, x, t, s') by { assert AloneAt(p, x, run, n - 1); }
    r', more := AloneOn(p, x, cs, run[0], r, t, s');
  }

  /** A fibre on its own is driven by commands, all of them committed. */
  lemma {:induction false} AloneCommits(p: Program, x: nat, run: seq<State>, n: nat) returns (r: State, cs: seq<State>)
    requires Driven(p, x, run) && n < |run|
    ensures CommitPath(p, cs, run[0], r) && RunsTo(p, r, x, run[n])
    decreases n
  {
    if n == 0 {
      r := run[0];
      cs := PathStart(p, r);
    } else {
      r, cs := AloneCommits(p, x, run, n - 1);
      r, cs := AloneNext(p, x, run, n, cs, r);
    }
  }

  // ---------------------------------------------------------------- the end and the join

  /** A fibre that runs up to an end can be ticked, to that end and nowhere else. */
  lemma EndObeyed(p: Program, r: State, x: nat, t: State)
    requires RunsTo(p, r, x, t) && Runnable(t, x) && t.fibers[x].pc < |p| && p[t.fibers[x].pc].End?
    ensures Obeys(p, r, EndState(t, x))
    ensures forall run, s' :: Tick(p, r, x, run, s') ==> s' == EndState(t, x)
  {
    EndTicks(p, t, x);
    var u := EndState(t, x);
    var tail := [t, u];
    if r != t {
      var run :| Travels(p, r, x, run, t);
      TravelsOn(p, r, x, run, t, tail, u);
      tail := run + tail[1..];
    }
    assert Tick(p, r, x, tail, u);
    forall run, s' | Tick(p, r, x, run, s') ensures s' == u {
      YieldsLater(p, r, x, tail, u, run, s');
      YieldsLater(p, r, x, run, s', tail, u);
    }
  }

  /** A tick executes every word that the fibre comes to. */
  lemma TickPasses(p: Program, r: State, x: nat, t: State, run: seq<State>, s': State)
    requires RunsTo(p, r, x, t) && Runnable(t, x) && Tick(p, r, x, run, s')
    ensures Exec(p, t, x).Ok?
  {
    var k := 0;
    if r != t {
      var part :| Travels(p, r, x, part, t);
      YieldsLater(p, r, x, part, t, run, s');
      k := |part| - 1;
    }
    assert WordAt(p, x, run, k);
  }

  /** A fibre that runs up to a word that fails is never ticked. */
  lemma FailedNeverTicks(p: Program, r: State, x: nat, t: State)
    requires RunsTo(p, r, x, t) && Runnable(t, x) && Exec(p, t, x).Err?
    ensures forall run, s' :: !Tick(p, r, x, run, s')
  {
    forall run, s' ensures !Tick(p, r, x, run, s') {
      if Tick(p, r, x, run, s') { TickPasses(p, r, x, t, run, s'); }
    }
  }

  /** `x` executed a join: the innermost scope is gone from its stack. */
  predicate Popped(s: State, x: nat, o: Outcome) {
    && o.Ok? && x in s.fibers && x in o.state.fibers && s.fibers[x].control != []
    && o.state.fibers[x].control == s.fibers[x].control[..|s.fibers[x].control| - 1]
  }

  /** A join fails without a scope, and pops the innermost one otherwise. */
  lemma JoinExact(p: Program, t: State, x: nat)
    requires Intact(p, t) && Runnable(t, x) && t.fibers[x].pc < |p| && p[t.fibers[x].pc].Join?
    ensures t.fibers[x].control == [] ==> Exec(p, t, x) == Err(ControlUnderflow)
    ensures t.fibers[x].control != [] ==> Popped(t, x, Exec(p, t, x))
  {
    ExecIs(p, t, x);
    if t.fibers[x].control != [] {
      var h := t.fibers[x].control[|t.fibers[x].control| - 1];
      assert h in Inside(t.fibers[x]);
    }
  }

  // ---------------------------------------------------------------- the handler

  /** An armed guard on a run without errors so far, and a route of it. */
  ghost predicate Routed(p: Program, e: map<nat, Scopes>, run: seq<State>, i: nat, g: nat, code: string, target: nat) {
    && Screened(p, e) && IsOrdinary(p, run) && i < |run| && run[i].status.Active?
    && Armed(run[i], g) && run[i].table[g].kind.GuardRecord? && RoutesTo(run[i].table[g].routes, code, target)
    && target < |p|
  }

  /** The word that armed the route, and how many scopes are open there. */
  ghost predicate ArmedAt(p: Program, e: map<nat, Scopes>, a: nat, target: nat) {
    a in e && a < |p| && p[a].GuardArmError? && p[a].errorHandler == target && |e[a]| > 0
  }

  /** The route fires and is committed; the handler has the scopes that were open around the
      guard, one fewer than at the word that armed the route. */
  lemma HandlerStarts(p: Program, e: map<nat, Scopes>, run: seq<State>, i: nat, g: nat, code: string, target: nat)
    returns (a: nat)
    requires Routed(p, e, run, i, g, code, target)
    ensures ArmedAt(p, e, a, target)
    ensures var s1 := TriggerState(run[i], g, target);
      && Commits(p, run[i], s1) && Runnable(s1, run[i].nextId) && s1.fibers[run[i].nextId].pc == target
      && s1.fibers[run[i].nextId].stack == [] && |s1.fibers[run[i].nextId].control| == |e[a]| - 1
  {
    var s := run[i];
    var hi := OrdinaryInv(p, e, run, i);
    a := ArmingWord(p, e, s, hi, g, code, target);
    FiredIntact(p, e, s, hi, g, target);
    assert Fires(s, g, target, TriggerState(s, g, target));
    assert |Tokens(hi, hi[g].base)| == |hi[g].base| == |e[a]| - 1;
  }

  /** The exact fate of a handler that comes to `t`, having been driven there from `r`: at an end
      its end is committed if and only if no scope was open around the guard; at a join it is
      stuck if and only if none was, and otherwise the join pops the innermost. */
  ghost predicate FateAt(p: Program, r: State, x: nat, t: State, bare: bool) {
    && RunsTo(p, r, x, t) && Runnable(t, x) && t.fibers[x].pc < |p|
    && (p[t.fibers[x].pc].End? ==>
          && Obeys(p, r, EndState(t, x)) && (forall run, s' :: Tick(p, r, x, run, s') ==> s' == EndState(t, x))
          && (Commits(p, r, EndState(t, x)) <==> bare))
    && (p[t.fibers[x].pc].Join? ==>
          && (bare ==> forall run, s' :: !Tick(p, r, x, run, s'))
          && (!bare ==> Popped(t, x, Exec(p, t, x))))
  }

  lemma Fate(p: Program, r: State, x: nat, t: State)
    requires RunsTo(p, r, x, t) && Intact(p, t) && Runnable(t, x) && t.fibers[x].pc < |p|
    ensures FateAt(p, r, x, t, t.fibers[x].control == [])
  {
    if p[t.fibers[x].pc].End? {
      EndObeyed(p, r, x, t);
      EndAccepted(p, t, x);
    }
    if p[t.fibers[x].pc].Join? {
      JoinExact(p, t, x);
      if t.fibers[x].control == [] { FailedNeverTicks(p, r, x, t); }
    }
  }

  /** A fibre on its own: what it comes to depends on whether it has a scope. */
  lemma AloneFate(p: Program, x: nat, after: seq<State>) returns (r: State, cs: seq<State>)
    requires IsAlone(p, x, after) && Inbound(p, x, after) && Intact(p, after[0])
    requires Runnable(after[0], x) && Runnable(after[|after| - 1], x)
    ensures CommitPath(p, cs, after[0], r)
    ensures FateAt(p, r, x, after[|after| - 1], |after[0].fibers[x].control| == 0)
  {
    var n := |after| - 1;
    r, cs := AloneCommits(p, x, after, n);
    AloneKeeps(p, x, after, n);
    MovedIntact(p, after[0], x, after[n]);
    Fate(p, r, x, after[n]);
  }

  /** Whatever the handler does on its own, after any run without errors: it is driven by committed
      commands, and at an end or a join its fate is decided by whether the word that armed the
      route has a scope open besides its own guard. */
  lemma HandlerExact(p: Program, e: map<nat, Scopes>, run: seq<State>, i: nat, g: nat, code: string, target: nat,
                     after: seq<State>) returns (a: nat, r: State, cs: seq<State>)
    requires Routed(p, e, run, i, g, code, target)
    requires IsAlone(p, run[i].nextId, after) && Inbound(p, run[i].nextId, after)
    requires after[0] == TriggerState(run[i], g, target) && Runnable(after[|after| - 1], run[i].nextId)
    ensures ArmedAt(p, e, a, target) && Commits(p, run[i], after[0]) && CommitPath(p, cs, after[0], r)
    ensures FateAt(p, r, run[i].nextId, after[|after| - 1], |e[a]| == 1)
  {
    a := HandlerStarts(p, e, run, i, g, code, target);
    r, cs := AloneFate(p, run[i].nextId, after);
  }

  // ---------------------------------------------------------------- straight handlers

  /** From word `a` control goes on to `b` whatever the data. */
  predicate GoesTo(p: Program, a: nat, b: nat) {
    && a < |p| && b < |p|
    && (p[a] == Jump(b) ||
        (b == a + 1 && (p[a].ExecNative? || p[a].ExecFfi? || p[a].WaitMsg? || p[a].PublishMessage?)))
  }

  /** A handler flow of tasks, message waits, messages sent and jumps. */
  ghost predicate Straight(p: Program, path: seq<nat>) {
    |path| > 0 && path[0] < |p| && forall i, j :: 0 <= i < j < |path| && j == i + 1 ==> GoesTo(p, path[i], path[j])
  }

  /** `x` is at `pc` and can run. */
  predicate Stands(s: State, x: nat, pc: nat) {
    Runnable(s, x) && s.fibers[x].pc == pc
  }

  lemma StraightStep(p: Program, s: State, x: nat, a: nat, b: nat) returns (steps: seq<State>)
    requires Stands(s, x, a) && GoesTo(p, a, b)
    ensures |steps| > 0 && Stands(steps[|steps| - 1], x, b)
    ensures IsAlone(p, x, [s] + steps) && Inbound(p, x, steps)
  {
    if p[a].Jump? || p[a].PublishMessage? {
      var s' := Goto(s, x, b);
      steps := [s'];
      assert Alone(p, x, s, s');
    } else {
      var parked := Park(s, x);
      var s' := ResumeState(parked, x, map[]);
      steps := [parked, s'];
      assert Alone(p, x, s, parked);
      assert Resumes(parked, x, map[], s');
    }
    var run := [s] + steps;
    forall i: nat ensures AloneAt(p, x, run, i) {}
  }

  lemma AloneJoined(p: Program, x: nat, run: seq<State>, steps: seq<State>)
    requires IsAlone(p, x, run) && IsAlone(p, x, [run[|run| - 1]] + steps)
    ensures IsAlone(p, x, run + steps)
  {
    var all, tail := run + steps, [run[|run| - 1]] + steps;
    forall i: nat ensures AloneAt(p, x, all, i) {
      assert AloneAt(p, x, run, i);
      if |run| <= i + 1 < |all| {
        assert AloneAt(p, x, tail, i + 1 - |run|);
        assert all[i] == tail[i + 1 - |run|];
      }
    }
  }

  /** A straight flow is followed to its last word. */
  lemma {:induction false} StraightRun(p: Program, s: State, x: nat, path: seq<nat>, n: nat) returns (run: seq<State>)
    requires Straight(p, path) && n < |path| && Stands(s, x, path[0])
    ensures IsAlone(p, x, run) && Inbound(p, x, run) && run[0] == s && Stands(run[|run| - 1], x, path[n])
    decreases n
  {
    if n == 0 {
      run := [s];
      forall i: nat ensures AloneAt(p, x, run, i) {}
    } else {
      run := StraightRun(p, s, x, path, n - 1);
      var steps := StraightStep(p, run[|run| - 1], x, path[n - 1], path[n]);
      AloneJoined(p, x, run, steps);
      run := run + steps;
    }
  }

  /** A static condition for handlers that go straight to an end or a join: after any run
      without errors, commands, all committed, bring the handler there, and its end is committed
      or its join works exactly as the scopes at the arming word say. */
  lemma StraightExact(p: Program, e: map<nat, Scopes>, run: seq<State>, i: nat, g: nat, code: string, path: seq<nat>)
    returns (a: nat, cs: seq<State>, r: State, t: State)
    requires Straight(p, path) && Routed(p, e, run, i, g, code, path[0])
    ensures ArmedAt(p, e, a, path[0])
    ensures var s1 := TriggerState(run[i], g, path[0]); Commits(p, run[i], s1) && CommitPath(p, cs, s1, r)
    ensures Stands(t, run[i].nextId, path[|path| - 1]) && FateAt(p, r, run[i].nextId, t, |e[a]| == 1)
  {
    var s1 := TriggerState(run[i], g, path[0]);
    a := HandlerStarts(p, e, run, i, g, code, path[0]);
    var after := StraightRun(p, s1, run[i].nextId, path, |path| - 1);
    t := after[|after| - 1];
    a, r, cs := HandlerExact(p, e, run, i, g, code, path[0], after);
  }
}
