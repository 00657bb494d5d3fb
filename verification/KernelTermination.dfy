/** Admitted programs terminate: the length of every run, in any interleaving and with
    any signals from outside, is bounded by the static work of the program. */
module KernelTermination {
  import opened Bytecode
  import opened ControlStack
  import opened Kernel
  import opened KernelInvariant
  import opened KernelSteps
  import opened KernelClosings
  import opened KernelSafety
  import opened KernelTheorems
  import opened Sums

  function Left0(p: Program, a: nat): nat { if a < |p| then |p| - a else 0 }

  /** Steps that a fibre at `a`, and all it may start, can still take. */
  function Work(p: Program, a: nat): nat
    decreases Left0(p, a), 1, 0
  {
    if a >= |p| then 0
    else match p[a]
    case Jump(t) => 1 + (if t > a then Work(p, t) else 0)
    case BrIf(t) => 1 + (if t > a then Work(p, t) else 0) + Work(p, a + 1)
    case BrIfNot(t) => 1 + (if t > a then Work(p, t) else 0) + Work(p, a + 1)
    case Fork(targets, _) => 1 + WorkAll(p, a, targets)
    case Guard(h) => 2 + (if h > a then Work(p, h) else 0) + Work(p, a + 1)
    case GuardArmError(_, h) => 1 + (if h > a then Work(p, h) else 0) + Work(p, a + 1)
    case End => 1
    case EndTerminate => 1
    case RouteZeroMatch => 1
    case _ => 2 + Work(p, a + 1)
  }

  function WorkAll(p: Program, a: nat, targets: seq<nat>): nat
    decreases Left0(p, a), 0, |targets|
  {
    if targets == [] || a >= |p| then 0
    else
      var t := targets[|targets| - 1];
      WorkAll(p, a, targets[..|targets| - 1]) + (if t > a then Work(p, t) else 0)
  }

  function FiberWork(p: Program, f: Fiber): nat {
    match f.wait
    case Running => Work(p, f.pc)
    case Parked => 1 + Work(p, f.pc + 1)
    case AtBarrier(_) => 0
    case OnIncident => 0
  }

  function RouteWork(p: Program, routes: seq<Route>): nat {
    if routes == [] then 0 else Work(p, routes[0].target) + RouteWork(p, routes[1..])
  }

  ghost function WorksOf(p: Program, fibers: map<nat, Fiber>): (m: map<nat, nat>)
    ensures forall x :: x in m <==> x in fibers
    ensures forall x :: x in m ==> m[x] == FiberWork(p, fibers[x])
  {
    map x | x in fibers :: FiberWork(p, fibers[x])
  }

  ghost function FiberWorks(p: Program, s: State): map<nat, nat> {
    WorksOf(p, s.fibers)
  }

  /** An open guard may still start one handler. */
  ghost function GuardWorks(p: Program, s: State): map<nat, nat> {
    map h | h in s.table && s.table[h].armed && s.table[h].kind.GuardRecord? ::
      1 + Work(p, s.table[h].handler) + RouteWork(p, s.table[h].routes)
  }

  ghost function Potential(p: Program, s: State): nat {
    Sum(FiberWorks(p, s)) + Sum(GuardWorks(p, s))
  }

  // ---------------------------------------------------------------- comparing sums

  /** Lowering one entry strictly, and dropping or lowering others. */
  lemma {:induction false} SumLower(m: map<nat, nat>, n: map<nat, nat>, k: nat, d: nat)
    requires k in m && d <= m[k]
    requires forall j :: j in n && j != k ==> j in m && n[j] <= m[j]
    requires k in n ==> n[k] + d <= m[k]
    ensures Sum(n) + d <= Sum(m)
  {
    SumRemove(m, k);
    if k in n { SumRemove(n, k); } else { assert n - {k} == n; }
    SumMonotone(m - {k}, n - {k});
  }

  lemma {:induction false} SumRaise(m: map<nat, nat>, n: map<nat, nat>, k: nat, d: nat)
    requires k in n && (if k in m then n[k] <= m[k] + d else n[k] <= d)
    requires forall j :: j in n && j != k ==> j in m && n[j] <= m[j]
    ensures Sum(n) <= Sum(m) + d
  {
    SumRemove(n, k);
    if k in m { SumRemove(m, k); } else { assert m - {k} == m; }
    SumMonotone(m - {k}, n - {k});
  }

  // ---------------------------------------------------------------- each step costs

  lemma {:induction false} RouteIn(p: Program, routes: seq<Route>, code: string)
    requires MatchRoute(routes, code) != []
    ensures Work(p, MatchRoute(routes, code)[0].target) <= RouteWork(p, routes)
  {
    if !routes[0].code.AnyError? && routes[0].code != Code(code) { RouteIn(p, routes[1..], code); }
  }

  lemma {:induction false} RouteWorkConcat(p: Program, a: seq<Route>, b: seq<Route>)
    ensures RouteWork(p, a + b) == RouteWork(p, a) + RouteWork(p, b)
  {
    if a == [] {
      assert a + b == b;
    } else {
      assert (a + b)[1..] == a[1..] + b;
      RouteWorkConcat(p, a[1..], b);
    }
  }

  lemma {:induction false} RouteWorkInsert(p: Program, routes: seq<Route>, r: Route)
    ensures RouteWork(p, InsertRoute(routes, r)) == RouteWork(p, routes) + Work(p, r.target)
  {
    var k := CatchAllPosition(routes);
    assert RouteWork(p, [r]) == Work(p, r.target);
    RouteWorkConcat(p, routes, [r]);
    RouteWorkConcat(p, routes[..k] + [r], routes[k..]);
    RouteWorkConcat(p, routes[..k], [r]);
    RouteWorkConcat(p, routes[..k], routes[k..]);
    assert routes[..k] + routes[k..] == routes;
  }

  lemma PlainCosts(p: Program, s: State, f: nat, s': State)
    requires Runnable(s, f) && s.fibers[f].pc < |p| && Exec(p, s, f) == Ok(s') && Plain(p[s.fibers[f].pc])
    requires (p[s.fibers[f].pc].Jump? || p[s.fibers[f].pc].BrIf? || p[s.fibers[f].pc].BrIfNot?) ==>
      p[s.fibers[f].pc].target > s.fibers[f].pc
    ensures Potential(p, s') < Potential(p, s)
  {
    PlainEffect(p, s, f, s');
    assert FiberWork(p, s'.fibers[f]) + 1 <= FiberWork(p, s.fibers[f]);
    assert GuardWorks(p, s') == GuardWorks(p, s);
    SumLower(FiberWorks(p, s), FiberWorks(p, s'), f, 1);
  }

  lemma ResumeCosts(p: Program, s: State, f: nat, flags: map<nat, Value>)
    requires f in s.fibers && s.fibers[f].wait.Parked?
    ensures Potential(p, ResumeState(s, f, flags)) < Potential(p, s)
  {
    var s' := ResumeState(s, f, flags);
    assert GuardWorks(p, s') == GuardWorks(p, s);
    SumLower(FiberWorks(p, s), FiberWorks(p, s'), f, 1);
  }

  lemma {:induction false} WorkAllSnoc(p: Program, a: nat, targets: seq<nat>, k: nat)
    requires k < |targets| && a < |p| && targets[k] > a
    ensures WorkAll(p, a, targets[..k + 1]) == WorkAll(p, a, targets[..k]) + Work(p, targets[k])
  {
    var t := targets[..k + 1];
    assert t[..|t| - 1] == targets[..k];
  }

  lemma {:induction false} ChildrenSnoc(p: Program, targets: seq<nat>, control: seq<nat>, h: nat, k: nat)
    requires 0 < k <= |targets|
    ensures Sum(WorksOf(p, Children(targets, control, h, k)))
         == Sum(WorksOf(p, Children(targets, control, h, k - 1))) + Work(p, targets[k - 1])
  {
    var m, n := WorksOf(p, Children(targets, control, h, k - 1)), WorksOf(p, Children(targets, control, h, k));
    var c := Children(targets, control, h, k)[h + k];
    assert c == Fiber(targets[k - 1], [], control + [h], Running);
    SumRemove(n, h + k);
    assert n - {h + k} == m;
  }

  /** The children's work adds up to that of the targets. */
  lemma {:induction false} ChildrenWork(p: Program, a: nat, targets: seq<nat>, control: seq<nat>, h: nat, k: nat)
    requires k <= |targets| && a < |p| && forall i :: 0 <= i < |targets| ==> targets[i] > a
    ensures Sum(WorksOf(p, Children(targets, control, h, k))) == WorkAll(p, a, targets[..k])
  {
    if k == 0 {
      assert Children(targets, control, h, k) == map[];
    } else {
      ChildrenWork(p, a, targets, control, h, k - 1);
      WorkAllSnoc(p, a, targets, k - 1);
      ChildrenSnoc(p, targets, control, h, k);
    }
  }

  lemma WorksOfUnion(p: Program, m: map<nat, Fiber>, f: nat, kids: map<nat, Fiber>)
    requires f in m && m.Keys !! kids.Keys
    ensures Sum(WorksOf(p, (m - {f}) + kids)) + FiberWork(p, m[f]) == Sum(WorksOf(p, m)) + Sum(WorksOf(p, kids))
  {
    var fw, kw := WorksOf(p, m), WorksOf(p, kids);
    assert WorksOf(p, (m - {f}) + kids) == (fw - {f}) + kw;
    SumUnion(fw - {f}, kw);
    SumRemove(fw, f);
  }

  lemma {:induction false} ForkFibers(p: Program, s: State, f: nat, targets: seq<nat>)
    requires f in s.fibers && forall x :: x in s.fibers ==> x < s.nextId
    ensures Sum(FiberWorks(p, ForkState(s, f, targets))) + FiberWork(p, s.fibers[f])
         == Sum(FiberWorks(p, s)) + Sum(WorksOf(p, Children(targets, s.fibers[f].control, s.nextId, |targets|)))
  {
    WorksOfUnion(p, s.fibers, f, Children(targets, s.fibers[f].control, s.nextId, |targets|));
  }

  lemma SameGuards(p: Program, s: State, s': State)
    requires forall k :: k in s'.table && s'.table[k].armed && s'.table[k].kind.GuardRecord? ==>
      k in s.table && s.table[k].armed && s.table[k].kind.GuardRecord?
      && s'.table[k].handler == s.table[k].handler && s'.table[k].routes == s.table[k].routes
    ensures Sum(GuardWorks(p, s')) <= Sum(GuardWorks(p, s))
  {
    SumMonotone(GuardWorks(p, s), GuardWorks(p, s'));
  }

  lemma {:induction false} AllChildrenWork(p: Program, a: nat, targets: seq<nat>, control: seq<nat>, h: nat)
    requires a < |p| && forall i :: 0 <= i < |targets| ==> targets[i] > a
    ensures Sum(WorksOf(p, Children(targets, control, h, |targets|))) == WorkAll(p, a, targets)
  {
    ChildrenWork(p, a, targets, control, h, |targets|);
    assert targets[..|targets|] == targets;
  }

  lemma {:induction false} ForkWork(p: Program, a: nat)
    requires a < |p| && p[a].Fork?
    ensures Work(p, a) == 1 + WorkAll(p, a, p[a].targets)
  {
  }

  lemma ForkCosts(p: Program, s: State, f: nat, s': State, kids: set<nat>)
    requires f in s.fibers && Entered(s, s', f, kids) && s'.table[s.nextId].kind.Barrier?
    requires s.nextId !in s.table && Sum(FiberWorks(p, s')) < Sum(FiberWorks(p, s))
    ensures Potential(p, s') < Potential(p, s)
  {
    SameGuards(p, s, s');
  }

  lemma GuardCosts(p: Program, s: State, hi: History, f: nat)
    requires Ids(s, hi) && Runnable(s, f) && s.fibers[f].pc < |p| && p[s.fibers[f].pc].Guard?
    requires p[s.fibers[f].pc].handler > s.fibers[f].pc
    ensures Potential(p, GuardState(s, f, p[s.fibers[f].pc].handler)) < Potential(p, s)
  {
    var handler := p[s.fibers[f].pc].handler;
    var s' := GuardState(s, f, handler);
    SumLower(FiberWorks(p, s), FiberWorks(p, s'), f, 2 + Work(p, handler));
    SumRaise(GuardWorks(p, s), GuardWorks(p, s'), s.nextId, 1 + Work(p, handler));
  }

  lemma ArriveCosts(p: Program, s: State, f: nat, h: nat, s': State)
    requires Runnable(s, f) && s.fibers[f].pc < |p| && p[s.fibers[f].pc].Join? && Arrives(s, s', f, h)
    ensures Potential(p, s') < Potential(p, s)
  {
    SumLower(FiberWorks(p, s), FiberWorks(p, s'), f, 1);
    SameGuards(p, s, s');
  }

  /** Leaving a scope from within: the remaining fibre has less to do. */
  lemma LeaveCosts(p: Program, s: State, hi: History, f: nat, h: nat, s': State)
    requires Ids(s, hi) && Runnable(s, f) && s.fibers[f].pc < |p| && Left(s, s', hi, h, f) && f in Doomed(s, h)
    requires (p[s.fibers[f].pc].Join? || p[s.fibers[f].pc].GuardEnd?) && s'.fibers[f].pc == s.fibers[f].pc + 1
    ensures Potential(p, s') < Potential(p, s)
  {
    SumLower(FiberWorks(p, s), FiberWorks(p, s'), f, 1);
    LeaveGuards(p, s, hi, h, f, s');
    SumMonotone(GuardWorks(p, s), GuardWorks(p, s'));
  }

  lemma LeaveGuards(p: Program, s: State, hi: History, h: nat, y: nat, s': State)
    requires Ids(s, hi) && Left(s, s', hi, h, y)
    ensures forall k :: k in GuardWorks(p, s') ==> k in GuardWorks(p, s) && GuardWorks(p, s')[k] == GuardWorks(p, s)[k]
    ensures h !in GuardWorks(p, s')
  {
    forall k | k in GuardWorks(p, s') ensures k in GuardWorks(p, s) && GuardWorks(p, s')[k] == GuardWorks(p, s)[k] {
      assert LeftRecord(s, hi, h, y, k, s'.table[k]);
    }
    assert LeftRecord(s, hi, h, y, h, s'.table[h]);
  }

  lemma TriggerCosts(p: Program, s: State, hi: History, g: nat, target: nat, s': State)
    requires Ids(s, hi) && CanTrigger(s, g, target) && Left(s, s', hi, g, s.nextId) && s'.fibers[s.nextId].pc == target
    ensures Potential(p, s') < Potential(p, s)
  {
    var gw, gw' := GuardWorks(p, s), GuardWorks(p, s');
    LeaveGuards(p, s, hi, g, s.nextId, s');
    assert g in gw;
    assert 1 + Work(p, target) <= gw[g] by {
      if target != s.table[g].handler {
        var code :| RoutesTo(s.table[g].routes, code, target);
        RouteIn(p, s.table[g].routes, code);
      }
    }
    SumLower(gw, gw', g, 1 + Work(p, target));
    SumRaise(FiberWorks(p, s), FiberWorks(p, s'), s.nextId, Work(p, target));
  }

  lemma {:induction false} ArmGuardWorks(p: Program, s: State, f: nat, s': State, h: nat, r: Route)
    requires f in s.fibers && |s.fibers[f].control| > 0 && h == s.fibers[f].control[|s.fibers[f].control| - 1]
    requires ArmErrorState(s, f, r) == Ok(s')
    ensures Sum(GuardWorks(p, s')) <= Sum(GuardWorks(p, s)) + Work(p, r.target)
  {
    RouteWorkInsert(p, s.table[h].routes, r);
    SumRaise(GuardWorks(p, s), GuardWorks(p, s'), h, Work(p, r.target));
  }

  lemma ArmCosts(p: Program, s: State, f: nat, s': State)
    requires Runnable(s, f) && s.fibers[f].pc < |p| && p[s.fibers[f].pc].GuardArmError?
    requires p[s.fibers[f].pc].errorHandler > s.fibers[f].pc
    requires ArmErrorState(s, f, Route(p[s.fibers[f].pc].errorCode, p[s.fibers[f].pc].errorHandler)) == Ok(s')
    ensures Potential(p, s') < Potential(p, s)
  {
    var a, c := s.fibers[f].pc, s.fibers[f].control;
    var r := Route(p[a].errorCode, p[a].errorHandler);
    ArmGuardWorks(p, s, f, s', c[|c| - 1], r);
    SumLower(FiberWorks(p, s), FiberWorks(p, s'), f, 1 + Work(p, r.target));
  }

  lemma EndCosts(p: Program, s: State, f: nat)
    requires Runnable(s, f) && s.fibers[f].pc < |p| && (p[s.fibers[f].pc].End? || p[s.fibers[f].pc].EndTerminate?)
    ensures Potential(p, EndState(s, f)) < Potential(p, s)
    ensures Potential(p, TerminateState(s)) < Potential(p, s)
  {
    SumLower(FiberWorks(p, s), FiberWorks(p, EndState(s, f)), f, 1);
    assert GuardWorks(p, EndState(s, f)) == GuardWorks(p, s);
    SumLower(FiberWorks(p, s), FiberWorks(p, TerminateState(s)), f, 1);
    SumMonotone(GuardWorks(p, s), GuardWorks(p, TerminateState(s)));
  }

  lemma GoesForward(p: Program, e: map<nat, Scopes>, a: nat)
    requires Admitted(p, e) && a in e
    ensures p[a].Jump? || p[a].BrIf? || p[a].BrIfNot? ==> p[a].target > a
    ensures p[a].Guard? ==> p[a].handler > a
    ensures p[a].Fork? ==> forall i :: 0 <= i < |p[a].targets| ==> p[a].targets[i] > a
    ensures p[a].GuardArmError? ==> p[a].errorHandler > a
  {
    Flows(p, e, a);
    assert Admissible(p, e, a);
    if p[a].GuardArmError? { CloserHasTop(p, e, a); assert RouteFits(p, e, a); }
  }

  lemma JoinCosts(p: Program, e: map<nat, Scopes>, s: State, hi: History, f: nat, s': State)
    requires Admitted(p, e) && Inv(p, e, s, hi) && Runnable(s, f) && s.fibers[f].pc < |p| && p[s.fibers[f].pc].Join?
    requires JoinState(s, f) == Ok(s')
    ensures Potential(p, s') < Potential(p, s)
  {
    assert TypedFiber(p, e, hi, s.fibers[f]);
    var h := TopScope(p, e, s, hi, f);
    JoinToken(p, e, s.fibers[f].pc);
    JoinCases(s, hi, f, h, s');
    if Arrives(s, s', f, h) {
      ArriveCosts(p, s, f, h, s');
    } else {
      LastInside(s, hi, f, h);
      LeaveCosts(p, s, hi, f, h, s');
    }
  }

  lemma GuardEndCosts(p: Program, e: map<nat, Scopes>, s: State, hi: History, f: nat, s': State)
    requires Admitted(p, e) && Inv(p, e, s, hi) && Runnable(s, f) && s.fibers[f].pc < |p| && p[s.fibers[f].pc].GuardEnd?
    requires GuardEndState(s, f) == Ok(s')
    ensures Potential(p, s') < Potential(p, s)
  {
    assert TypedFiber(p, e, hi, s.fibers[f]);
    var h := TopScope(p, e, s, hi, f);
    GuardEndToken(p, e, s.fibers[f].pc);
    GuardEndFacts(p, e, s, hi, f, h);
    LastInside(s, hi, f, h);
    LeaveCosts(p, s, hi, f, h, s');
  }

  lemma ForkSums(p: Program, s: State, f: nat, a: nat, targets: seq<nat>)
    requires f in s.fibers && s.fibers[f].wait.Running? && s.fibers[f].pc == a < |p| && p[a].Fork? &&
      p[a].targets == targets
    requires forall i :: 0 <= i < |targets| ==> targets[i] > a
    requires forall x :: x in s.fibers ==> x < s.nextId
    ensures Sum(FiberWorks(p, ForkState(s, f, targets))) < Sum(FiberWorks(p, s))
  {
    ForkFibers(p, s, f, targets);
    AllChildrenWork(p, a, targets, s.fibers[f].control, s.nextId);
    ForkWork(p, a);
  }

  lemma ForkStepCosts(p: Program, e: map<nat, Scopes>, s: State, hi: History, f: nat, s': State)
    requires Admitted(p, e) && Ids(s, hi) && Runnable(s, f) && s.fibers[f].pc in e && p[s.fibers[f].pc].Fork?
    requires s' == ForkState(s, f, p[s.fibers[f].pc].targets)
    ensures Potential(p, s') < Potential(p, s)
  {
    var a := s.fibers[f].pc;
    GoesForward(p, e, a);
    ForkHasTargets(p, e, a);
    ForkSums(p, s, f, a, p[a].targets);
    var kids := ForkFacts(s, hi, f, p[a].targets);
    ForkCosts(p, s, f, s', kids);
  }

  lemma ScopeCosts(p: Program, e: map<nat, Scopes>, s: State, hi: History, f: nat, o: Outcome)
    requires Admitted(p, e) && Inv(p, e, s, hi) && Runnable(s, f) && s.fibers[f].pc < |p| && s.fibers[f].pc in e &&
      o.Ok?
    requires var i := p[s.fibers[f].pc];
      || (i.Fork? && o == Ok(ForkState(s, f, i.targets)))
      || (i.Guard? && o == Ok(GuardState(s, f, i.handler)))
      || (i.Join? && o == JoinState(s, f))
      || (i.GuardEnd? && o == GuardEndState(s, f))
      || (i.GuardArmError? && o == ArmErrorState(s, f, Route(i.errorCode, i.errorHandler)))
    ensures Potential(p, o.state) < Potential(p, s)
  {
    var i := p[s.fibers[f].pc];
    GoesForward(p, e, s.fibers[f].pc);
    if i.Fork? {
      ForkStepCosts(p, e, s, hi, f, o.state);
    } else if i.Guard? {
      GuardCosts(p, s, hi, f);
    } else if i.Join? {
      JoinCosts(p, e, s, hi, f, o.state);
    } else if i.GuardEnd? {
      GuardEndCosts(p, e, s, hi, f, o.state);
    } else {
      ArmCosts(p, s, f, o.state);
    }
  }

  lemma ExecCosts(p: Program, e: map<nat, Scopes>, s: State, hi: History, f: nat, s': State)
    requires Admitted(p, e) && Inv(p, e, s, hi) && Runnable(s, f) && Exec(p, s, f) == Ok(s')
    ensures Potential(p, s') < Potential(p, s)
  {
    assert TypedFiber(p, e, hi, s.fibers[f]);
    var i := p[s.fibers[f].pc];
    ExecIs(p, s, f);
    if i.Fork? || i.Guard? || i.Join? || i.GuardEnd? || i.GuardArmError? {
      ScopeCosts(p, e, s, hi, f, Ok(s'));
    } else if i.End? || i.EndTerminate? {
      EndCosts(p, s, f);
    } else {
      GoesForward(p, e, s.fibers[f].pc);
      PlainCosts(p, s, f, s');
    }
  }

  /** Every step, of a fibre or from outside, uses up potential. */
  lemma StepCosts(p: Program, e: map<nat, Scopes>, s: State, hi: History, s': State)
    requires Admitted(p, e) && Inv(p, e, s, hi) && Steps(p, s, s')
    ensures Potential(p, s') < Potential(p, s)
  {
    if f :| Runnable(s, f) && Exec(p, s, f) == Ok(s') {
      ExecCosts(p, e, s, hi, f, s');
    } else if f, flags :|
        s.status.Active? && f in s.fibers && s.fibers[f].wait.Parked? && s' == ResumeState(s, f, flags) {
      ResumeCosts(p, s, f, flags);
    } else {
      var g, target :| CanTrigger(s, g, target) && s' == TriggerState(s, g, target);
      TriggerFacts(s, hi, g, target);
      TriggerCosts(p, s, hi, g, target, s');
    }
  }

  lemma {:induction false} InitialPotential(p: Program, flags: map<nat, Value>)
    ensures Potential(p, Initial(flags)) == Work(p, 0)
  {
    var s := Initial(flags);
    SumRemove(FiberWorks(p, s), 0);
    assert FiberWorks(p, s) - {0} == map[];
    assert GuardWorks(p, s) == map[];
  }

  lemma RunCosts(p: Program, e: map<nat, Scopes>, run: seq<State>, i: nat)
    requires Admitted(p, e) && IsRun(p, run) && i + 1 < |run|
    ensures Potential(p, run[i + 1]) < Potential(p, run[i])
  {
    var hi := RunInv(p, e, run, i);
    assert StepsAt(p, run, i);
    StepCosts(p, e, run[i], hi, run[i + 1]);
  }

  lemma {:induction false} Descends(v: seq<nat>)
    requires |v| > 0 && forall i, j :: 0 <= i < j < |v| && j == i + 1 ==> v[j] < v[i]
    ensures v[|v| - 1] + |v| - 1 <= v[0]
  {
    if |v| > 1 {
      Descends(v[..|v| - 1]);
    }
  }

  /** The potentials along a run. */
  ghost function Potentials(p: Program, run: seq<State>): (v: seq<nat>)
    ensures |v| == |run| && forall i :: 0 <= i < |v| ==> v[i] == Potential(p, run[i])
  {
    seq(|run|, i requires 0 <= i < |run| => Potential(p, run[i]))
  }

  lemma PotentialsFall(p: Program, e: map<nat, Scopes>, run: seq<State>, v: seq<nat>)
    requires Admitted(p, e) && IsRun(p, run) && v == Potentials(p, run)
    ensures v[|v| - 1] + |v| - 1 <= v[0]
  {
    forall i, j | 0 <= i < j < |v| && j == i + 1 ensures v[j] < v[i] { RunCosts(p, e, run, i); }
    Descends(v);
  }

  /** Every run of an admitted program has at most `Work(p, 0)` steps. */
  lemma {:induction false} RunsAreFinite(p: Program, e: map<nat, Scopes>, run: seq<State>)
    requires Admitted(p, e) && IsRun(p, run)
    ensures |run| <= Work(p, 0) + 1
  {
    PotentialsFall(p, e, run, Potentials(p, run));
    var flags :| run[0] == Initial(flags);
    InitialPotential(p, flags);
  }
}
