/** Programs the static checks admit run safely: every reachable state satisfies the
    concurrency invariants, no join starves, and every run is finite. */
module KernelSafety {
  import opened Graphs
  import opened Bytecode
  import opened ControlStack
  import opened Kernel
  import opened KernelInvariant
  import opened KernelSteps
  import opened KernelClosings

  // ---------------------------------------------------------------- admission

  /** What `ControlStack.Verify` returns when it accepts. */
  ghost predicate LeastCertificate(p: Program, e: map<nat, Scopes>) {
    Certificate(p, e) && forall m :: Certificate(p, m) ==> Extends(e, m)
  }

  /** Jumps and branches go forward. */
  ghost predicate ForwardOnly(p: Program) {
    forall a :: 0 <= a < |p| && (p[a].Jump? || p[a].BrIf? || p[a].BrIfNot?) ==> p[a].target > a
  }

  /** Every statically reachable word has a way to a terminal word. */
  ghost predicate TerminalReachable(p: Program) {
    forall a :: 0 <= a < |p| && Reaches(FlowGraph(p), 0, a) ==>
      exists t :: 0 <= t < |p| && Terminal(p[t]) && Reaches(FlowGraph(p), a, t)
  }

  /** Non-interrupting guards are outside this model. */
  ghost predicate InScope(p: Program) {
    forall a :: 0 <= a < |p| ==> !p[a].GuardN? && !p[a].GuardNEnd? && !p[a].GuardTimerCycle?
  }

  /** No program ends in the arming of an error route. */
  ghost predicate ArmsGoOn(p: Program) {
    |p| > 0 ==> !p[|p| - 1].GuardArmError?
  }

  /** Each error route fits the stack below the guard it arms. */
  ghost predicate RoutesFit(p: Program, e: map<nat, Scopes>) {
    forall a {:trigger RouteFits(p, e, a)} :: a in e && 0 <= a < |p| && p[a].GuardArmError? ==> RouteFits(p, e, a)
  }

  ghost predicate RouteFits(p: Program, e: map<nat, Scopes>, a: nat)
    requires a in e && a < |p| && p[a].GuardArmError?
  {
    |e[a]| > 0 ==> p[a].errorHandler > a && p[a].errorHandler in e && e[p[a].errorHandler] == e[a][..|e[a]| - 1]
  }

  /** The certificate speaks of reachable words only. */
  ghost predicate OnlyReachable(p: Program, e: map<nat, Scopes>) {
    forall a :: a in e ==> Reaches(FlowGraph(p), 0, a)
  }

  /** What a fibre may rely on at a word it can reach: jumps go on, a word that falls
      through has a next word, and forks have branches. */
  ghost predicate Admissible(p: Program, e: map<nat, Scopes>, a: nat)
    requires a in e && a < |p|
  {
    && (p[a].Jump? || p[a].BrIf? || p[a].BrIfNot? ==> p[a].target > a)
    && (FallsThrough(p[a]) ==> a + 1 < |p|)
    && (p[a].Fork? ==> p[a].targets != [])
    && !p[a].GuardN? && !p[a].GuardNEnd? && !p[a].GuardTimerCycle?
  }

  predicate FallsThrough(i: Instr) {
    !i.Jump? && !i.Fork? && !Terminal(i)
  }

  /** What the static checks say of a program. */
  ghost predicate Screened(p: Program, e: map<nat, Scopes>) {
    Certificate(p, e) && forall a {:trigger Admissible(p, e, a)} :: a in e ==> Admissible(p, e, a)
  }

  /** Screened, and every error route fits. */
  ghost predicate Admitted(p: Program, e: map<nat, Scopes>) {
    Screened(p, e) && RoutesFit(p, e)
  }

  /** Flow of scopes follows static control flow. */
  lemma FlowIsStatic(p: Program, e: map<nat, Scopes>, a: nat, i: nat)
    requires Certificate(p, e) && a in e && ControlStack.Step(p, a, e[a]).Flow? &&
      i < |ControlStack.Step(p, a, e[a]).next|
    ensures ControlStack.Step(p, a, e[a]).next[i].0 in Successors(p, a)
  {
    assert Respects(p, e, a);
  }

  /** What the verifier returns speaks of reachable words only. */
  lemma LeastReachable(p: Program, e: map<nat, Scopes>)
    requires LeastCertificate(p, e)
    ensures OnlyReachable(p, e)
  {
    var g := FlowGraph(p);
    var m := map b | b in e && Reaches(g, 0, b) :: e[b];
    Refl(g, 0);
    forall b | b in m ensures b < |p| && Respects(p, m, b) {
      assert Respects(p, e, b);
      var next := ControlStack.Step(p, b, e[b]).next;
      forall i | 0 <= i < |next| ensures next[i].0 in m && m[next[i].0] == next[i].1 {
        FlowIsStatic(p, e, b, i);
        EdgeReaches(g, b, next[i].0);
        Trans(g, 0, b, next[i].0);
      }
    }
    assert Certificate(p, m);
    assert Extends(e, m);
  }

  /** A reachable word that is not terminal has a static successor in the program. */
  lemma Continues(p: Program, e: map<nat, Scopes>, a: nat) returns (b: nat)
    requires Certificate(p, e) && OnlyReachable(p, e) && TerminalReachable(p) && a in e && !Terminal(p[a])
    ensures b < |p| && b in Successors(p, a)
  {
    var g := FlowGraph(p);
    var t :| 0 <= t < |p| && Terminal(p[t]) && Reaches(g, a, t);
    var q :| PathFromTo(g, q, a, t);
    b := q[1];
    assert Edge(g, q[0], q[1]);
  }

  lemma WordAdmissible(p: Program, e: map<nat, Scopes>, a: nat)
    requires Certificate(p, e) && OnlyReachable(p, e) && ForwardOnly(p) && TerminalReachable(p) && InScope(p) &&
      ArmsGoOn(p)
    requires a in e
    ensures a < |p| && Admissible(p, e, a)
  {
    Flows(p, e, a);
    if !Terminal(p[a]) { var b := Continues(p, e, a); }
  }

  /** What the verifier accepts is screened, and admitted when its error routes fit. */
  lemma ChecksScreen(p: Program, e: map<nat, Scopes>)
    requires Certificate(p, e) && OnlyReachable(p, e) && ForwardOnly(p) && TerminalReachable(p) && InScope(p) &&
      ArmsGoOn(p)
    ensures Screened(p, e) && (RoutesFit(p, e) ==> Admitted(p, e))
  {
    forall a | a in e ensures Admissible(p, e, a) { WordAdmissible(p, e, a); }
  }

  lemma HasNext(p: Program, e: map<nat, Scopes>, a: nat)
    requires Screened(p, e) && a in e && FallsThrough(p[a])
    ensures a + 1 < |p|
  {
    assert Admissible(p, e, a);
  }

  lemma ForkHasTargets(p: Program, e: map<nat, Scopes>, a: nat)
    requires Screened(p, e) && a in e && p[a].Fork?
    ensures p[a].targets != []
  {
    assert Admissible(p, e, a);
  }

  // ---------------------------------------------------------------- one step

  /** Words that leave the scopes alone and go on to the next address. */
  predicate Neutral(i: Instr) {
    FallsThrough(i) && !i.Guard? && !i.GuardEnd? && !i.Join?
  }

  lemma NeutralPasses(p: Program, e: map<nat, Scopes>, a: nat)
    requires Screened(p, e) && a in e && Neutral(p[a])
    ensures a + 1 < |p| && a + 1 in e && e[a + 1] == e[a]
  {
    HasNext(p, e, a);
    assert Admissible(p, e, a) && Respects(p, e, a);
    var next := ControlStack.Step(p, a, e[a]).next;
    assert next[|next| - 1] == (a + 1, e[a]);
  }

  lemma TargetPasses(p: Program, e: map<nat, Scopes>, a: nat)
    requires Screened(p, e) && a in e && (p[a].Jump? || p[a].BrIf? || p[a].BrIfNot?)
    ensures p[a].target < |p| && p[a].target in e && e[p[a].target] == e[a]
  {
    assert Respects(p, e, a);
    assert ControlStack.Step(p, a, e[a]).next[0] == (p[a].target, e[a]);
  }

  /** Words with no effect on the table. */
  predicate Plain(i: Instr) {
    !i.Fork? && !i.Join? && !i.Guard? && !i.GuardEnd? && !i.GuardArmError? && !i.End? && !i.EndTerminate?
  }

  /** What a plain word does: the fibre branches, falls through, parks or stops on an incident. */
  lemma PlainEffect(p: Program, s: State, f: nat, s': State)
    requires Runnable(s, f) && s.fibers[f].pc < |p| && Exec(p, s, f) == Ok(s') && Plain(p[s.fibers[f].pc])
    ensures SameStacks(s, s', f) && s'.table == s.table
    ensures var i, pc, g := p[s.fibers[f].pc], s.fibers[f].pc, s'.fibers[f];
      || (g.wait.Running? && s'.status.Active? && (i.Jump? || i.BrIf? || i.BrIfNot?) && g.pc == i.target)
      || (g.wait.Running? && s'.status.Active? && Neutral(i) && g.pc == pc + 1)
      || (g.wait.Parked? && s'.status.Active? && Parks(i) && g.pc == pc)
      || (g.wait.OnIncident? && s'.status.Incidented? && g.pc == pc)
  {
  }

  lemma PlainMove(p: Program, e: map<nat, Scopes>, s: State, f: nat, pc: nat)
    requires Screened(p, e) && f in s.fibers && s.fibers[f].pc in e
    requires var i, a := p[s.fibers[f].pc], s.fibers[f].pc;
      || ((i.Jump? || i.BrIf? || i.BrIfNot?) && pc == i.target)
      || (Neutral(i) && pc == a + 1)
      || pc == a
    ensures pc in e && pc < |p| && e[pc] == e[s.fibers[f].pc]
  {
    var a := s.fibers[f].pc;
    if Neutral(p[a]) { NeutralPasses(p, e, a); }
    if p[a].Jump? || p[a].BrIf? || p[a].BrIfNot? { TargetPasses(p, e, a); }
  }

  lemma PlainKeeps(p: Program, e: map<nat, Scopes>, s: State, hi: History, f: nat, s': State)
    requires Screened(p, e) && Inv(p, e, s, hi) && Runnable(s, f) && Exec(p, s, f) == Ok(s')
    requires Plain(p[s.fibers[f].pc])
    ensures Inv(p, e, s', hi)
  {
    assert TypedFiber(p, e, hi, s.fibers[f]);
    PlainEffect(p, s, f, s');
    PlainMove(p, e, s, f, s'.fibers[f].pc);
    MoveKeeps(p, e, s, s', hi, f);
  }

  lemma ResumeKeeps(p: Program, e: map<nat, Scopes>, s: State, hi: History, f: nat, flags: map<nat, Value>)
    requires Screened(p, e) && Inv(p, e, s, hi) && s.status.Active? && f in s.fibers && s.fibers[f].wait.Parked?
    ensures Inv(p, e, ResumeState(s, f, flags), hi)
  {
    assert TypedFiber(p, e, hi, s.fibers[f]);
    NeutralPasses(p, e, s.fibers[f].pc);
    var s' := ResumeState(s, f, flags);
    assert SameStacks(s, s', f);
    MoveKeeps(p, e, s, s', hi, f);
  }

  lemma CloserHasTop(p: Program, e: map<nat, Scopes>, a: nat)
    requires Certificate(p, e) && a in e && (p[a].Join? || p[a].GuardEnd? || p[a].GuardArmError?)
    ensures |e[a]| > 0
  {
    assert Respects(p, e, a);
  }

  /** At a closing word, the top handle is the fibre's own scope of the expected kind. */
  lemma TopScope(p: Program, e: map<nat, Scopes>, s: State, hi: History, f: nat) returns (h: nat)
    requires Certificate(p, e) && Shape(s, hi) && Typed(p, e, s, hi) && Counts(s, hi) && Runnable(s, f)
    requires s.fibers[f].pc < |p|
    requires p[s.fibers[f].pc].Join? || p[s.fibers[f].pc].GuardEnd? || p[s.fibers[f].pc].GuardArmError?
    ensures |s.fibers[f].control| > 0 && h == s.fibers[f].control[|s.fibers[f].control| - 1]
    ensures Armed(s, h) && h in hi && s.fibers[f].control == Slot(hi, h) && Counted(s, hi, h)
    ensures Chain(s, hi, hi[h].base) && Tokens(hi, hi[h].base) == e[s.fibers[f].pc][..|e[s.fibers[f].pc]| - 1]
    ensures |e[s.fibers[f].pc]| > 0 && hi[h].token == e[s.fibers[f].pc][|e[s.fibers[f].pc]| - 1]
  {
    var a, c := s.fibers[f].pc, s.fibers[f].control;
    assert TypedFiber(p, e, hi, s.fibers[f]);
    CloserHasTop(p, e, a);
    assert Chain(s, hi, Inside(s.fibers[f]));
    h := c[|c| - 1];
    ChainLast(s, hi, c);
    assert Armed(s, h);
  }

  lemma ClosePasses(p: Program, e: map<nat, Scopes>, a: nat)
    requires Screened(p, e) && a in e && (p[a].Join? || p[a].GuardEnd?)
    ensures |e[a]| > 0 && a + 1 < |p| && a + 1 in e && e[a + 1] == e[a][..|e[a]| - 1]
  {
    HasNext(p, e, a);
    assert Respects(p, e, a);
    assert ControlStack.Step(p, a, e[a]).next[0] == (a + 1, e[a][..|e[a]| - 1]);
  }

  /** The handle a join finds on top belongs to its own fork's pairing. */
  lemma JoinToken(p: Program, e: map<nat, Scopes>, a: nat)
    requires Certificate(p, e) && a in e && p[a].Join?
    ensures |e[a]| > 0 && e[a][|e[a]| - 1] == Token(BarrierScope, p[a].pairing)
  {
    assert Respects(p, e, a);
  }

  lemma JoinCases(s: State, hi: History, f: nat, h: nat, s': State)
    requires Shape(s, hi) && Members(s) && Armed(s, h) && f in s.fibers && s.fibers[f].wait.Running?
    requires s.fibers[f].control == Slot(hi, h) && s.table[h].kind.Barrier? && Counted(s, hi, h)
    requires JoinState(s, f) == Ok(s')
    ensures Arrives(s, s', f, h) || (Left(s, s', hi, h, f) && s'.fibers[f].pc == s.fibers[f].pc + 1)
  {
    var c := s.fibers[f].control;
    assert c[|c| - 1] == h;
    if s.table[h].count <= 1 {
      assert s' == ReleaseState(s, f, h);
      ReleaseFacts(s, hi, f, h);
    } else {
      assert s' == ArriveState(s, f, h);
      ArriveFacts(s, f, h);
    }
  }

  lemma GuardEndToken(p: Program, e: map<nat, Scopes>, a: nat)
    requires Certificate(p, e) && a in e && p[a].GuardEnd?
    ensures |e[a]| > 0 && e[a][|e[a]| - 1].kind.GuardScope?
  {
    assert Respects(p, e, a);
  }

  lemma CloseKeeps(p: Program, e: map<nat, Scopes>, s: State, hi: History, f: nat, h: nat, s': State)
    requires Screened(p, e) && Inv(p, e, s, hi) && Runnable(s, f) && s.fibers[f].pc < |p|
    requires p[s.fibers[f].pc].Join? || p[s.fibers[f].pc].GuardEnd?
    requires h in hi && Chain(s, hi, hi[h].base)
    requires |e[s.fibers[f].pc]| > 0 && Tokens(hi, hi[h].base) == e[s.fibers[f].pc][..|e[s.fibers[f].pc]| - 1]
    requires Left(s, s', hi, h, f) && s'.fibers[f].pc == s.fibers[f].pc + 1
    ensures Inv(p, e, s', hi)
  {
    assert TypedFiber(p, e, hi, s.fibers[f]);
    ClosePasses(p, e, s.fibers[f].pc);
    LeaveKeeps(p, e, s, s', hi, h, f);
  }

  /** A guard that fires to a fitting target keeps the invariant. */
  lemma FiringKeeps(p: Program, e: map<nat, Scopes>, s: State, hi: History, g: nat, target: nat)
    requires Certificate(p, e) && Inv(p, e, s, hi) && CanTrigger(s, g, target) && GoesTo(e, hi, hi[g].base, target)
    ensures Inv(p, e, TriggerState(s, g, target), hi)
  {
    var s' := TriggerState(s, g, target);
    TriggerFacts(s, hi, g, target);
    assert Armed(s, g);
    LeaveKeeps(p, e, s, s', hi, g, s.nextId);
  }

  lemma TargetFits(p: Program, e: map<nat, Scopes>, s: State, hi: History, g: nat, target: nat)
    requires Admitted(p, e) && Inv(p, e, s, hi) && CanTrigger(s, g, target)
    ensures GoesTo(e, hi, hi[g].base, target)
  {
    assert Armed(s, g) && HandlerFits(p, e, s, hi, g);
    if target != s.table[g].handler {
      var code :| RoutesTo(s.table[g].routes, code, target);
      var r := MatchRoute(s.table[g].routes, code)[0];
      assert ArmedBy(p, e, Tokens(hi, hi[g].base), r.target);
      var a :| ArmsAt(p, e, Tokens(hi, hi[g].base), target, a);
      assert RouteFits(p, e, a);
    }
  }

  lemma TriggerKeeps(p: Program, e: map<nat, Scopes>, s: State, hi: History, g: nat, target: nat)
    requires Admitted(p, e) && Inv(p, e, s, hi) && CanTrigger(s, g, target)
    ensures Inv(p, e, TriggerState(s, g, target), hi)
  {
    TargetFits(p, e, s, hi, g, target);
    FiringKeeps(p, e, s, hi, g, target);
  }

  // ---------------------------------------------------------------- arming an error route

  lemma InsertedRoutes(routes: seq<Route>, r: Route, q: Route)
    ensures q in InsertRoute(routes, r) <==> q in routes || q == r
  {
    var k := CatchAllPosition(routes);
    assert routes == routes[..k] + routes[k..];
  }

  ghost predicate Arms(s: State, s': State, f: nat, h: nat, r: Route) {
    && SameStacks(s, s', f) && s'.fibers[f].pc == s.fibers[f].pc + 1 && s'.fibers[f].wait.Running?
    && h in s.table && (forall k :: k in s'.table <==> k in s.table)
    && (forall k :: k in s.table && k != h ==> s'.table[k] == s.table[k])
    && s'.table[h] == s.table[h].(routes := s'.table[h].routes)
    && (forall q :: q in s'.table[h].routes ==> q in s.table[h].routes || q == r)
    && s'.status == s.status
  }

  lemma ArmHandlers(p: Program, e: map<nat, Scopes>, s: State, hi: History, s': State, f: nat, h: nat, r: Route)
    requires Shape(s, hi) && Handlers(p, e, s, hi) && Arms(s, s', f, h, r) && Shape(s', hi) && Armed(s, h)
    requires (forall i :: 0 <= i < |hi[h].base| ==>
      hi[h].base[i] in hi) && ArmedBy(p, e, Tokens(hi, hi[h].base), r.target)
    ensures Handlers(p, e, s', hi)
  {
    forall k | k in s'.table && Armed(s', k) && s'.table[k].kind.GuardRecord? ensures HandlerFits(p, e, s', hi, k) {
      assert HandlerFits(p, e, s, hi, k);
    }
  }

  lemma ArmShape(s: State, hi: History, s': State, f: nat, h: nat, r: Route)
    requires Shape(s, hi) && Arms(s, s', f, h, r)
    ensures Shape(s', hi)
  {
    forall k | k in hi && Armed(s', k) ensures Chain(s', hi, hi[k].base) { ChainFrame(s, hi, s', hi, hi[k].base); }
    forall x | x in s'.fibers ensures Chain(s', hi, Inside(s'.fibers[x])) {
      ChainFrame(s, hi, s', hi, Inside(s.fibers[x]));
    }
  }

  lemma ArmCounts(s: State, hi: History, s': State, f: nat, h: nat, r: Route)
    requires Shape(s, hi) && Counts(s, hi) && Members(s) && Root(s, hi) && Arms(s, s', f, h, r) && Ids(s', hi)
    requires s.status.Active?
    ensures Counts(s', hi) && Members(s') && Root(s', hi)
  {
    SameLoads(s, s', hi, f);
    forall k | k in s'.table && Armed(s', k) ensures Counted(s', hi, k) { assert Counted(s, hi, k); }
    forall k | k in s'.table && Armed(s', k) ensures s'.table[k].members == Doomed(s', k) { assert Armed(s, k); }
  }

  lemma ArmTyped(p: Program, e: map<nat, Scopes>, s: State, hi: History, s': State, f: nat, h: nat, r: Route)
    requires Shape(s, hi) && Typed(p, e, s, hi) && Arms(s, s', f, h, r) && Shape(s', hi)
    requires s.fibers[f].pc + 1 < |p| && s.fibers[f].pc in e && s.fibers[f].pc + 1 in e
    requires e[s.fibers[f].pc + 1] == e[s.fibers[f].pc]
    ensures Typed(p, e, s', hi)
  {
    forall x | x in s'.fibers ensures TypedFiber(p, e, hi, s'.fibers[x]) { assert TypedFiber(p, e, hi, s.fibers[x]); }
  }

  lemma ArmKeeps(p: Program, e: map<nat, Scopes>, s: State, hi: History, f: nat, h: nat, r: Route, s': State)
    requires Inv(p, e, s, hi) && Runnable(s, f) && Armed(s, h) && Arms(s, s', f, h, r)
    requires Chain(s, hi, hi[h].base) && ArmedBy(p, e, Tokens(hi, hi[h].base), r.target)
    requires s.fibers[f].pc + 1 < |p| && s.fibers[f].pc in e && s.fibers[f].pc + 1 in e
    requires e[s.fibers[f].pc + 1] == e[s.fibers[f].pc]
    ensures Inv(p, e, s', hi)
  {
    ArmShape(s, hi, s', f, h, r);
    ArmHandlers(p, e, s, hi, s', f, h, r);
    ArmCounts(s, hi, s', f, h, r);
    ArmTyped(p, e, s, hi, s', f, h, r);
  }

  // ---------------------------------------------------------------- ending

  lemma BottomIsRootKid(s: State, hi: History, c: seq<nat>)
    requires Ids(s, hi) && Chain(s, hi, c) && |c| > 0
    ensures c[0] in Kids(s, hi, [])
  {
    assert c[..0] == [];
  }

  /** A fibre at `End` holds nothing and is the only one. */
  lemma EndIsLast(p: Program, e: map<nat, Scopes>, s: State, hi: History, f: nat)
    requires Certificate(p, e) && Inv(p, e, s, hi) && Runnable(s, f) && p[s.fibers[f].pc].End?
    ensures s.fibers.Keys == {f}
    ensures forall h :: h in s.table ==> !Armed(s, h)
  {
    assert TypedFiber(p, e, hi, s.fibers[f]) && Respects(p, e, s.fibers[f].pc);
    assert s.fibers[f].control == [];
    assert f in Riders(s, []);
    assert Riders(s, []) == Riders(s, []) - {f} + {f};
    assert Riders(s, []) == {f} && Kids(s, hi, []) == {};
    forall h | h in s.table ensures !Armed(s, h) {
      if Armed(s, h) {
        SlotChain(s, hi, h);
        BottomIsRootKid(s, hi, Slot(hi, h));
      }
    }
    forall x | x in s.fibers ensures x == f {
      var c := Inside(s.fibers[x]);
      assert Chain(s, hi, c);
      if |c| > 0 { BottomIsRootKid(s, hi, c); }
      assert x in Riders(s, []);
    }
  }

  lemma EndKeeps(p: Program, e: map<nat, Scopes>, s: State, hi: History, f: nat)
    requires Certificate(p, e) && Inv(p, e, s, hi) && Runnable(s, f) && p[s.fibers[f].pc].End?
    ensures Inv(p, e, EndState(s, f), hi) && EndState(s, f).status.Completed?
  {
    EndIsLast(p, e, s, hi, f);
    assert s.fibers - {f} == map[];
  }

  lemma TerminateKeeps(p: Program, e: map<nat, Scopes>, s: State, hi: History)
    requires Inv(p, e, s, hi)
    ensures Inv(p, e, TerminateState(s), hi)
  {
  }

  // ---------------------------------------------------------------- every step

  predicate Opens(i: Instr, a: nat, t: Token) {
    || (i.Fork? && t == Token(BarrierScope, i.pairing))
    || (i.Guard? && t == Token(GuardScope, a))
  }

  /** The history grows by at most the handle that this word opens. */
  ghost predicate Grows(p: Program, s: State, f: nat, hi: History, hi': History) {
    || hi' == hi
    || (f in s.fibers && s.fibers[f].pc < |p| && s.nextId in hi'
        && hi' == hi[s.nextId := hi'[s.nextId]] && Opens(p[s.fibers[f].pc], s.fibers[f].pc, hi'[s.nextId].token))
  }

  lemma ForkReady(p: Program, e: map<nat, Scopes>, s: State, hi: History, f: nat)
    requires Screened(p, e) && Shape(s, hi) && Typed(p, e, s, hi) && f in s.fibers
    requires s.fibers[f].pc < |p| && p[s.fibers[f].pc].Fork?
    ensures p[s.fibers[f].pc].targets != []
  {
    assert TypedFiber(p, e, hi, s.fibers[f]);
    ForkHasTargets(p, e, s.fibers[f].pc);
  }

  lemma ForkOpens(p: Program, e: map<nat, Scopes>, s: State, hi: History, f: nat, s': State) returns (hi': History)
    requires Certificate(p, e) && Inv(p, e, s, hi) && Runnable(s, f) && s.fibers[f].pc < |p| && p[s.fibers[f].pc].Fork?
    requires p[s.fibers[f].pc].targets != [] && s' == ForkState(s, f, p[s.fibers[f].pc].targets)
    ensures Inv(p, e, s', hi')
    ensures Grows(p, s, f, hi, hi')
  {
    var kids := ForkFacts(s, hi, f, p[s.fibers[f].pc].targets);
    hi' := ForkKeeps(p, e, s, hi, s', f, kids);
  }

  lemma ForkStep(p: Program, e: map<nat, Scopes>, s: State, hi: History, f: nat, s': State) returns (hi': History)
    requires Screened(p, e) && Inv(p, e, s, hi) && Runnable(s, f) && s.fibers[f].pc < |p| && p[s.fibers[f].pc].Fork?
    requires s' == ForkState(s, f, p[s.fibers[f].pc].targets)
    ensures Inv(p, e, s', hi')
    ensures Grows(p, s, f, hi, hi')
  {
    ForkReady(p, e, s, hi, f);
    hi' := ForkOpens(p, e, s, hi, f, s');
  }

  lemma GuardStep(p: Program, e: map<nat, Scopes>, s: State, hi: History, f: nat, s': State) returns (hi': History)
    requires Screened(p, e) && Inv(p, e, s, hi) && Runnable(s, f) && s.fibers[f].pc < |p| && p[s.fibers[f].pc].Guard?
    requires s' == GuardState(s, f, p[s.fibers[f].pc].handler)
    ensures Inv(p, e, s', hi')
    ensures Grows(p, s, f, hi, hi')
  {
    assert TypedFiber(p, e, hi, s.fibers[f]);
    HasNext(p, e, s.fibers[f].pc);
    GuardFacts(s, hi, f, p[s.fibers[f].pc].handler);
    hi' := GuardKeeps(p, e, s, hi, s', f);
  }

  lemma JoinStep(p: Program, e: map<nat, Scopes>, s: State, hi: History, f: nat, s': State)
    requires Screened(p, e) && Inv(p, e, s, hi) && Runnable(s, f) && s.fibers[f].pc < |p| && p[s.fibers[f].pc].Join?
    requires JoinState(s, f) == Ok(s')
    ensures Inv(p, e, s', hi)
  {
    assert TypedFiber(p, e, hi, s.fibers[f]);
    var h := TopScope(p, e, s, hi, f);
    JoinToken(p, e, s.fibers[f].pc);
    JoinCases(s, hi, f, h, s');
    if Arrives(s, s', f, h) {
      ArriveKeeps(p, e, s, hi, s', f, h);
    } else {
      CloseKeeps(p, e, s, hi, f, h, s');
    }
  }

  lemma GuardEndStep(p: Program, e: map<nat, Scopes>, s: State, hi: History, f: nat, s': State)
    requires Screened(p, e) && Inv(p, e, s, hi) && Runnable(s, f) && s.fibers[f].pc < |p| && p[s.fibers[f].pc].GuardEnd?
    requires GuardEndState(s, f) == Ok(s')
    ensures Inv(p, e, s', hi)
  {
    assert TypedFiber(p, e, hi, s.fibers[f]);
    var h := TopScope(p, e, s, hi, f);
    GuardEndToken(p, e, s.fibers[f].pc);
    GuardEndFacts(p, e, s, hi, f, h);
    CloseKeeps(p, e, s, hi, f, h, s');
  }

  lemma ArmFacts(s: State, f: nat, h: nat, r: Route, s': State)
    requires f in s.fibers && s.fibers[f].wait.Running? && |s.fibers[f].control| > 0
    requires h == s.fibers[f].control[|s.fibers[f].control| - 1] && ArmErrorState(s, f, r) == Ok(s')
    ensures Arms(s, s', f, h, r)
  {
    forall q | q in s'.table[h].routes ensures q in s.table[h].routes || q == r {
      InsertedRoutes(s.table[h].routes, r, q);
    }
  }

  /** What the checks guarantee at an arming word. */
  lemma ArmReady(p: Program, e: map<nat, Scopes>, s: State, hi: History, f: nat) returns (h: nat)
    requires Screened(p, e) && Shape(s, hi) && Typed(p, e, s, hi) && Counts(s, hi) && Runnable(s, f)
    requires s.fibers[f].pc < |p| && p[s.fibers[f].pc].GuardArmError?
    ensures |s.fibers[f].control| > 0 && h == s.fibers[f].control[|s.fibers[f].control| - 1]
    ensures Armed(s, h) && h in hi && Chain(s, hi, hi[h].base)
    ensures ArmedBy(p, e, Tokens(hi, hi[h].base), p[s.fibers[f].pc].errorHandler)
    ensures s.fibers[f].pc + 1 < |p| && s.fibers[f].pc in e && s.fibers[f].pc + 1 in e
    ensures e[s.fibers[f].pc + 1] == e[s.fibers[f].pc]
  {
    var a := s.fibers[f].pc;
    assert TypedFiber(p, e, hi, s.fibers[f]);
    h := TopScope(p, e, s, hi, f);
    NeutralPasses(p, e, a);
    assert ArmsAt(p, e, Tokens(hi, hi[h].base), p[a].errorHandler, a);
  }

  lemma ExecIs(p: Program, s: State, f: nat)
    requires f in s.fibers && s.fibers[f].pc < |p|
    ensures var i := p[s.fibers[f].pc];
      && (i.Fork? ==> Exec(p, s, f) == Ok(ForkState(s, f, i.targets)))
      && (i.Guard? ==> Exec(p, s, f) == Ok(GuardState(s, f, i.handler)))
      && (i.Join? ==> Exec(p, s, f) == JoinState(s, f))
      && (i.GuardEnd? ==> Exec(p, s, f) == GuardEndState(s, f))
      && (i.GuardArmError? ==> Exec(p, s, f) == ArmErrorState(s, f, Route(i.errorCode, i.errorHandler)))
      && (i.End? ==> Exec(p, s, f) == Ok(EndState(s, f)))
      && (i.EndTerminate? ==> Exec(p, s, f) == Ok(TerminateState(s)))
  {
  }

  lemma ScopeStep(p: Program, e: map<nat, Scopes>, s: State, hi: History, f: nat, o: Outcome) returns (hi': History)
    requires Screened(p, e) && Inv(p, e, s, hi) && Runnable(s, f) && s.fibers[f].pc < |p| && o.Ok?
    requires var i := p[s.fibers[f].pc];
      || (i.Fork? && o == Ok(ForkState(s, f, i.targets)))
      || (i.Guard? && o == Ok(GuardState(s, f, i.handler)))
      || (i.Join? && o == JoinState(s, f))
      || (i.GuardEnd? && o == GuardEndState(s, f))
    ensures Inv(p, e, o.state, hi')
    ensures Grows(p, s, f, hi, hi')
  {
    var i := p[s.fibers[f].pc];
    hi' := hi;
    if i.Fork? {
      hi' := ForkStep(p, e, s, hi, f, o.state);
    } else if i.Guard? {
      hi' := GuardStep(p, e, s, hi, f, o.state);
    } else if i.Join? {
      JoinStep(p, e, s, hi, f, o.state);
    } else {
      GuardEndStep(p, e, s, hi, f, o.state);
    }
  }

  lemma ArmWord(p: Program, e: map<nat, Scopes>, s: State, hi: History, f: nat, s': State)
    requires Screened(p, e) && Inv(p, e, s, hi) && Runnable(s, f) && s.fibers[f].pc < |p| &&
      p[s.fibers[f].pc].GuardArmError?
    requires ArmErrorState(s, f, Route(p[s.fibers[f].pc].errorCode, p[s.fibers[f].pc].errorHandler)) == Ok(s')
    ensures Inv(p, e, s', hi)
  {
    var a := s.fibers[f].pc;
    var r := Route(p[a].errorCode, p[a].errorHandler);
    var h := ArmReady(p, e, s, hi, f);
    ArmFacts(s, f, h, r, s');
    ArmKeeps(p, e, s, hi, f, h, r, s');
  }

  lemma ExecKeeps(p: Program, e: map<nat, Scopes>, s: State, hi: History, f: nat, s': State) returns (hi': History)
    requires Screened(p, e) && Inv(p, e, s, hi) && Runnable(s, f) && Exec(p, s, f) == Ok(s')
    ensures Inv(p, e, s', hi')
    ensures Grows(p, s, f, hi, hi')
  {
    assert TypedFiber(p, e, hi, s.fibers[f]);
    var i := p[s.fibers[f].pc];
    ExecIs(p, s, f);
    hi' := hi;
    if i.Fork? || i.Guard? || i.Join? || i.GuardEnd? {
      hi' := ScopeStep(p, e, s, hi, f, Ok(s'));
    } else if i.GuardArmError? {
      ArmWord(p, e, s, hi, f, s');
    } else if i.End? {
      EndKeeps(p, e, s, hi, f);
    } else if i.EndTerminate? {
      TerminateKeeps(p, e, s, hi);
    } else {
      PlainKeeps(p, e, s, hi, f, s');
    }
  }

  /** A step that opens the handle `h` with token `t`. */
  ghost predicate Origin(p: Program, s: State, s': State, h: nat, t: Token) {
    h == s.nextId && exists f :: Runnable(s, f) && s.fibers[f].pc < |p| && Exec(p, s, f) == Ok(s')
                              && Opens(p[s.fibers[f].pc], s.fibers[f].pc, t)
  }

  /** Every step, of a fibre or from outside, keeps the invariant. */
  lemma StepKeeps(p: Program, e: map<nat, Scopes>, s: State, hi: History, s': State) returns (hi': History)
    requires Admitted(p, e) && Inv(p, e, s, hi) && Steps(p, s, s')
    ensures Inv(p, e, s', hi')
    ensures forall h :: h in hi' ==> (h in hi && hi'[h] == hi[h]) || Origin(p, s, s', h, hi'[h].token)
  {
    if f :| Runnable(s, f) && Exec(p, s, f) == Ok(s') {
      hi' := ExecKeeps(p, e, s, hi, f, s');
    } else if f, flags :|
        s.status.Active? && f in s.fibers && s.fibers[f].wait.Parked? && s' == ResumeState(s, f, flags) {
      ResumeKeeps(p, e, s, hi, f, flags);
      hi' := hi;
    } else {
      var g, target :| CanTrigger(s, g, target) && s' == TriggerState(s, g, target);
      TriggerKeeps(p, e, s, hi, g, target);
      hi' := hi;
    }
  }
}
