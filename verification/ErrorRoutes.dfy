/** The control-stack verifier passes no scopes on to the handler of an error arm. When such a
    route leads to an end, the end is accepted exactly if the guard was opened with no scope
    around it. */
module ErrorRoutes {
  import opened Bytecode
  import opened ControlStack
  import opened Kernel
  import opened KernelInvariant
  import opened KernelClosings
  import opened KernelSafety
  import opened KernelTheorems
  import opened Bursts
  import opened Commands

  // ---------------------------------------------------------------- until an error route fires

  /** A step other than the firing of an error route. */
  ghost predicate Ordinary(p: Program, s: State, s': State) {
    || (exists f :: Runnable(s, f) && Exec(p, s, f) == Ok(s'))
    || (exists f, flags :: Resumes(s, f, flags, s'))
    || (exists g :: g in s.table && Fires(s, g, s.table[g].handler, s'))
  }

  ghost predicate OrdinaryAt(p: Program, run: seq<State>, i: nat) {
    i + 1 < |run| ==> Ordinary(p, run[i], run[i + 1])
  }

  ghost predicate IsOrdinary(p: Program, run: seq<State>) {
    && |run| > 0 && (exists flags :: run[0] == Initial(flags))
    && forall i: nat {:trigger OrdinaryAt(p, run, i)} :: OrdinaryAt(p, run, i)
  }

  lemma OwnHandlerKeeps(p: Program, e: map<nat, Scopes>, s: State, hi: History, g: nat)
    requires Screened(p, e) && Inv(p, e, s, hi) && g in s.table && CanTrigger(s, g, s.table[g].handler)
    ensures Inv(p, e, TriggerState(s, g, s.table[g].handler), hi)
  {
    assert Armed(s, g) && HandlerFits(p, e, s, hi, g);
    FiringKeeps(p, e, s, hi, g, s.table[g].handler);
  }

  lemma OrdinaryKeeps(p: Program, e: map<nat, Scopes>, s: State, hi: History, s': State) returns (hi': History)
    requires Screened(p, e) && Inv(p, e, s, hi) && Ordinary(p, s, s')
    ensures Inv(p, e, s', hi')
  {
    hi' := hi;
    if f :| Runnable(s, f) && Exec(p, s, f) == Ok(s') {
      hi' := ExecKeeps(p, e, s, hi, f, s');
    } else if f, flags :| Resumes(s, f, flags, s') {
      ResumeKeeps(p, e, s, hi, f, flags);
    } else {
      var g :| g in s.table && Fires(s, g, s.table[g].handler, s');
      OwnHandlerKeeps(p, e, s, hi, g);
    }
  }

  lemma {:induction false} OrdinaryInv(p: Program, e: map<nat, Scopes>, run: seq<State>, i: nat) returns (hi: History)
    requires Screened(p, e) && IsOrdinary(p, run) && i < |run|
    ensures Inv(p, e, run[i], hi)
  {
    if i == 0 {
      var flags :| run[0] == Initial(flags);
      InitialInv(p, e, flags);
      hi := map[];
    } else {
      var before := OrdinaryInv(p, e, run, i - 1);
      assert OrdinaryAt(p, run, i - 1);
      hi := OrdinaryKeeps(p, e, run[i - 1], before, run[i]);
    }
  }

  /** Arrived fibres and outstanding branches make up the arity of every open barrier. */
  ghost predicate Conserved(s: State) {
    forall h {:trigger s.table[h]} :: h in s.table && s.table[h].armed && s.table[h].kind.Barrier? ==>
      s.table[h].count >= 1 && s.table[h].count + |Arrived(s, h)| == s.table[h].arity
  }

  /** Whatever the error routes, until one of them fires every state passes the check after the
      transition, conserves its barriers and, while active, has a fibre that runs or waits for
      the outside. */
  lemma OrdinaryGuarantees(p: Program, e: map<nat, Scopes>, run: seq<State>, i: nat)
    requires Screened(p, e) && IsOrdinary(p, run) && i < |run|
    ensures Intact(p, run[i]) && Conserved(run[i])
    ensures run[i].status.Active? ==>
      exists x :: x in run[i].fibers && (run[i].fibers[x].wait.Running? || run[i].fibers[x].wait.Parked?)
  {
    var s := run[i];
    var hi := OrdinaryInv(p, e, run, i);
    InvIsIntact(p, e, s, hi);
    forall h | h in s.table && s.table[h].armed && s.table[h].kind.Barrier?
      ensures s.table[h].count >= 1 && s.table[h].count + |Arrived(s, h)| == s.table[h].arity
    {
      assert Armed(s, h) && Counted(s, hi, h);
    }
    if s.status.Active? { var x := SomeFibreLives(p, e, s, hi); }
  }

  // ---------------------------------------------------------------- a route to an end

  /** Whatever its target expects, a guard that fires leaves the scopes in order. */
  lemma FiredIntact(p: Program, e: map<nat, Scopes>, s: State, hi: History, g: nat, target: nat)
    requires Inv(p, e, s, hi) && CanTrigger(s, g, target) && target < |p|
    ensures var s' := TriggerState(s, g, target);
      Intact(p, s') && Runnable(s', s.nextId) && s'.fibers[s.nextId] == Fiber(target, [], hi[g].base, Running)
  {
    var s' := TriggerState(s, g, target);
    TriggerFacts(s, hi, g, target);
    assert Armed(s, g);
    LeaveShape(s, s', hi, g, s.nextId);
    LeaveMembers(s, s', hi, g, s.nextId);
    LeaveCounts(s, s', hi, g, s.nextId);
    LeaveLoad(s, s', hi, g, s.nextId, []);
    forall x | x in s'.fibers ensures s'.fibers[x].pc < |p| {
      if x != s.nextId { assert TypedFiber(p, e, hi, s.fibers[x]); }
    }
    OrderIsIntact(p, s', hi);
  }

  /** The only tick of a fibre at an end is its end. */
  lemma EndTicks(p: Program, s: State, f: nat)
    requires Runnable(s, f) && s.fibers[f].pc < |p| && p[s.fibers[f].pc].End?
    ensures Tick(p, s, f, [s, EndState(s, f)], EndState(s, f))
    ensures forall run, s' :: Tick(p, s, f, run, s') ==> s' == EndState(s, f)
  {
    var t := EndState(s, f);
    ExecIs(p, s, f);
    forall i: nat ensures WordAt(p, f, [s, t], i) {}
    forall run, s' | Tick(p, s, f, run, s') ensures s' == t {
      YieldsLater(p, s, f, [s, t], t, run, s');
      YieldsLater(p, s, f, run, s', [s, t], t);
    }
  }

  /** The word that armed the route a guard takes. */
  lemma ArmingWord(p: Program, e: map<nat, Scopes>, s: State, hi: History, g: nat, code: string, target: nat)
                   returns (a: nat)
    requires Inv(p, e, s, hi) && Armed(s, g) && s.table[g].kind.GuardRecord? &&
      RoutesTo(s.table[g].routes, code, target)
    ensures ArmsAt(p, e, Tokens(hi, hi[g].base), target, a)
  {
    assert HandlerFits(p, e, s, hi, g);
    var r := MatchRoute(s.table[g].routes, code)[0];
    assert ArmedBy(p, e, Tokens(hi, hi[g].base), r.target);
    a :| ArmsAt(p, e, Tokens(hi, hi[g].base), target, a);
  }

  /** In any run on which no error route has fired yet, an error route to an end fires and is
      committed; the end itself is committed if and only if the arming word has no scope open
      but its own guard. */
  lemma RouteToEndExact(p: Program, e: map<nat, Scopes>, run: seq<State>, i: nat, g: nat, code: string, target: nat)
                        returns (a: nat)
    requires Screened(p, e) && IsOrdinary(p, run) && i < |run| && run[i].status.Active?
    requires Armed(run[i], g) && run[i].table[g].kind.GuardRecord? && RoutesTo(run[i].table[g].routes, code, target)
    requires target < |p| && p[target].End?
    ensures a in e && a < |p| && p[a].GuardArmError? && p[a].errorHandler == target
    ensures var s1 := TriggerState(run[i], g, target);
      && Commits(p, run[i], s1)
      && Runnable(s1, run[i].nextId) && Obeys(p, s1, EndState(s1, run[i].nextId))
      && (Commits(p, s1, EndState(s1, run[i].nextId)) <==> |e[a]| == 1)
  {
    var s := run[i];
    var hi := OrdinaryInv(p, e, run, i);
    a := ArmingWord(p, e, s, hi, g, code, target);
    var s1 := TriggerState(s, g, target);
    FiredIntact(p, e, s, hi, g, target);
    assert Fires(s, g, target, s1);
    EndTicks(p, s1, s.nextId);
    EndAccepted(p, s1, s.nextId);
    assert |Tokens(hi, hi[g].base)| == |hi[g].base| == |e[a]| - 1;
  }
}
