/** Whole runs: every play of the token game is a run of the lowered program, and every
    run by ticks is a play. */
module SimulationTheorems {
  import opened Segments
  import opened Graphs
  import opened PostDominators
  import opened Bytecode
  import opened ControlStack
  import opened Kernel
  import opened KernelInvariant
  import opened KernelSafety
  import KernelTheorems
  import opened Commands
  import opened Bursts
  import opened Ir
  import opened Blocks
  import opened Pairing
  import opened Scoping
  import opened Compiler
  import opened Simulation
  import opened Lockstep
  import T = TokenGame

  /** A lowered, well-nested graph together with its certificate. */
  ghost predicate Compiled(g: Graph, start: nat, pd: map<nat, nat>, order: seq<nat>, site: Site, p: Program,
                           e: map<nat, Scopes>) {
    Setting(g, start, pd, order, site, p) && site.plan.addr[start] == 0 && Admitted(p, e) && OnlyBarriers(e)
  }

  /** Tokens stay on the flow from the start. */
  ghost predicate OnFlow(g: Graph, start: nat, game: T.Game) {
    forall x :: x in game.tokens ==>
      game.tokens[x].place.n < |g.nodes| && Reaches(Ir.Shape(g), start, game.tokens[x].place.n)
  }

  // ---------------------------------------------------------------- tokens stay on the flow

  lemma FlowReaches(g: Graph, start: nat, n: nat, i: nat)
    requires WellFormed(g) && n < |g.nodes| && Reaches(Ir.Shape(g), start, n) && i < |g.flows[n]|
    ensures Reaches(Ir.Shape(g), start, g.flows[n][i].target)
  {
    assert Targets(g.flows[n])[i] == g.flows[n][i].target;
    EdgeReaches(Ir.Shape(g), n, g.flows[n][i].target);
    Trans(Ir.Shape(g), start, n, g.flows[n][i].target);
  }

  lemma StaysMove(g: Graph, start: nat, game: T.Game, f: nat, place: T.Place)
    requires OnFlow(g, start, game) && f in game.tokens && place.n < |g.nodes| && Reaches(Ir.Shape(g), start, place.n)
    ensures OnFlow(g, start, T.Move(game, f, place))
  {
  }

  lemma StaysMeet(g: Graph, start: nat, game: T.Game, f: nat, n: nat, t: nat)
    requires OnFlow(g, start, game) && f in game.tokens && n < |g.nodes| && Reaches(Ir.Shape(g), start, n)
    requires t < |g.nodes| && Reaches(Ir.Shape(g), start, t)
    ensures T.Meet(game, f, n, T.Enter(t)).Then? ==> OnFlow(g, start, T.Meet(game, f, n, T.Enter(t)).game)
  {
  }

  lemma StaysFollow(g: Graph, start: nat, game: T.Game, f: nat, n: nat)
    requires WellFormed(g) && OnFlow(g, start, game) && f in game.tokens && n < |g.nodes| &&
      Reaches(Ir.Shape(g), start, n)
    ensures T.Follow(g, game, f, n).Then? ==> OnFlow(g, start, T.Follow(g, game, f, n).game)
  {
    if g.flows[n] != [] {
      FlowReaches(g, start, n, 0);
      StaysMove(g, start, game, f, T.Enter(g.flows[n][0].target));
    }
  }

  lemma {:induction false} StaysSplit(g: Graph, start: nat, game: T.Game, f: nat, places: seq<T.Place>)
    requires OnFlow(g, start, game) && f in game.tokens
    requires forall i :: 0 <= i < |places| ==> places[i].n < |g.nodes| && Reaches(Ir.Shape(g), start, places[i].n)
    ensures OnFlow(g, start, T.Split(game, f, places))
  {
    var game' := T.Split(game, f, places);
    forall x | x in game'.tokens
      ensures game'.tokens[x].place.n < |g.nodes| && Reaches(Ir.Shape(g), start, game'.tokens[x].place.n)
    {
      var kids := T.Spawn(places, game.tokens[f].scopes, game.nextId, |places|);
      if x in kids { assert kids[x].place == places[x - game.nextId - 1]; }
    }
  }

  lemma AndStays(g: Graph, start: nat, game: T.Game, f: nat, n: nat)
    requires WellFormed(g) && OnFlow(g, start, game) && f in game.tokens && n < |g.nodes| &&
      Reaches(Ir.Shape(g), start, n)
    ensures OnFlow(g, start, T.Split(game, f, T.EnterPlaces(g.flows[n])))
  {
    forall i | 0 <= i < |g.flows[n]|
      ensures Reaches(Ir.Shape(g), start, g.flows[n][i].target) { FlowReaches(g, start, n, i); }
    StaysSplit(g, start, game, f, T.EnterPlaces(g.flows[n]));
  }

  lemma InclusiveStays(g: Graph, start: nat, game: T.Game, f: nat, n: nat)
    requires WellFormed(g) && OnFlow(g, start, game) && f in game.tokens && n < |g.nodes| &&
      Reaches(Ir.Shape(g), start, n)
    ensures OnFlow(g, start, T.Split(game, f, T.BranchPlaces(n, |g.flows[n]|)))
    ensures OnFlow(g, start, T.Move(game, f, T.Stalled(n)).(phase := T.Halted))
  {
    StaysSplit(g, start, game, f, T.BranchPlaces(n, |g.flows[n]|));
    StaysMove(g, start, game, f, T.Stalled(n));
  }

  lemma SlotsStay(g: Graph, start: nat, game: T.Game, f: nat, n: nat, k: nat)
    requires WellFormed(g) && OnFlow(g, start, game) && f in game.tokens && n < |g.nodes| &&
      Reaches(Ir.Shape(g), start, n)
    ensures OnFlow(g, start, T.Split(game, f, T.SlotPlaces(n, k)))
  {
    StaysSplit(g, start, game, f, T.SlotPlaces(n, k));
  }

  lemma AndVisit(g: Graph, game: T.Game, f: nat, n: nat)
    requires |g.nodes| == |g.flows| && f in game.tokens && n < |g.nodes| && Forks(g.nodes[n]) && g.nodes[n].GatewayAnd?
    ensures T.Visit(g, game, f, n) == T.Then(T.Split(game, f, T.EnterPlaces(g.flows[n])))
  {
  }

  lemma InclusiveVisit(g: Graph, game: T.Game, f: nat, n: nat)
    requires |g.nodes| == |g.flows| && f in game.tokens && n < |g.nodes|
    requires Forks(g.nodes[n]) && g.nodes[n].GatewayInclusive?
    ensures T.Visit(g, game, f, n) ==
      if exists i :: 0 <= i < |g.flows[n]| && T.Live(g.flows[n][i], game.flags)
      then T.Then(T.Split(game, f, T.BranchPlaces(n, |g.flows[n]|)))
      else T.Then(T.Move(game, f, T.Stalled(n)).(phase := T.Halted))
  {
  }

  lemma MultiVisit(g: Graph, game: T.Game, f: nat, n: nat)
    requires |g.nodes| == |g.flows| && f in game.tokens && n < |g.nodes| && g.nodes[n].MultiInstance?
    ensures var v := T.Visit(g, game, f, n);
      v.Refusal? || v == T.Then(T.Split(game, f, T.SlotPlaces(n, |g.nodes[n].elements|)))
  {
  }

  lemma ForkStays(g: Graph, start: nat, game: T.Game, f: nat, n: nat)
    requires WellFormed(g) && OnFlow(g, start, game) && f in game.tokens && n < |g.nodes| &&
      Reaches(Ir.Shape(g), start, n)
    requires Forks(g.nodes[n]) || g.nodes[n].MultiInstance?
    ensures T.Visit(g, game, f, n).Then? ==> OnFlow(g, start, T.Visit(g, game, f, n).game)
  {
    if g.nodes[n].GatewayAnd? {
      AndVisit(g, game, f, n);
      AndStays(g, start, game, f, n);
    } else if g.nodes[n].GatewayInclusive? {
      InclusiveVisit(g, game, f, n);
      InclusiveStays(g, start, game, f, n);
    } else {
      MultiVisit(g, game, f, n);
      SlotsStay(g, start, game, f, n, |g.nodes[n].elements|);
    }
  }

  lemma VisitStays(g: Graph, start: nat, game: T.Game, f: nat, n: nat)
    requires WellFormed(g) && OnFlow(g, start, game) && f in game.tokens && n < |g.nodes| &&
      Reaches(Ir.Shape(g), start, n)
    ensures T.Visit(g, game, f, n).Then? ==> OnFlow(g, start, T.Visit(g, game, f, n).game)
  {
    var node, flows := g.nodes[n], g.flows[n];
    if Forks(node) || node.MultiInstance? {
      ForkStays(g, start, game, f, n);
    } else if Joins(node) {
      if flows != [] {
        FlowReaches(g, start, n, 0);
        StaysMeet(g, start, game, f, n, flows[0].target);
      }
    } else if node.GatewayXor? {
      var c := T.Chosen(flows, game.flags);
      if c.Some? {
        FlowReaches(g, start, n, c.value);
        StaysMove(g, start, game, f, T.Enter(flows[c.value].target));
      }
    } else {
      StaysFollow(g, start, game, f, n);
      StaysMove(g, start, game, f, T.Working(n));
    }
  }

  lemma AdvanceStays(g: Graph, start: nat, joins: map<nat, nat>, game: T.Game, f: nat)
    requires WellFormed(g) && OnFlow(g, start, game) && f in game.tokens
    requires var n := game.tokens[f].place.n;
      n in joins ==> joins[n] < |g.nodes| && Reaches(Ir.Shape(g), start, joins[n])
    ensures T.Advance(g, joins, game, f).Then? ==> OnFlow(g, start, T.Advance(g, joins, game, f).game)
  {
    var n := game.tokens[f].place.n;
    match game.tokens[f].place
    case Enter(_) => VisitStays(g, start, game, f, n);
    case Done(_) => StaysFollow(g, start, game, f, n);
    case Branch(_, i) => if i < |g.flows[n]| { FlowReaches(g, start, n, i); }
    case Gather(_) =>
      if g.flows[n] != [] {
        FlowReaches(g, start, n, 0);
        StaysMeet(g, start, game, f, n, g.flows[n][0].target);
      }
    case _ =>
  }

  lemma FinishStays(g: Graph, start: nat, game: T.Game, f: nat, flags: map<nat, Value>)
    requires OnFlow(g, start, game) && f in game.tokens
    ensures T.Finish(game, f, flags).Then? ==> OnFlow(g, start, T.Finish(game, f, flags).game)
  {
  }

  lemma JoinsReach(g: Graph, start: nat, pd: map<nat, nat>, n: nat)
    requires WellFormed(g) && Closed(Ir.Shape(g)) && Acyclic(Ir.Shape(g)) && IsPostDominatorMap(Ir.Shape(g), pd)
    requires n in GatewayPairs(g, pd) && n < |g.nodes| && Reaches(Ir.Shape(g), start, n)
    ensures GatewayPairs(g, pd)[n] < |g.nodes| && Reaches(Ir.Shape(g), start, GatewayPairs(g, pd)[n])
  {
    assert Pairs(g, pd, n, GatewayPairs(g, pd)[n]);
    PdReached(Ir.Shape(g), pd[n], n);
    Trans(Ir.Shape(g), start, n, pd[n]);
  }

  // ---------------------------------------------------------------- one move

  lemma FollowsOn(g: Graph, start: nat, pd: map<nat, nat>, order: seq<nat>, site: Site, p: Program, n: nat)
                  returns (t: nat)
    requires Setting(g, start, pd, order, site, p) && n < |g.nodes| && Reaches(Ir.Shape(g), start, n) &&
      !g.nodes[n].EndEvent?
    ensures Known(site) && Linked(site, n, t)
  {
    assert Wired(g, n);
    t := g.flows[n][0].target;
  }

  lemma AllStands(g: Graph, start: nat, pd: map<nat, nat>, order: seq<nat>, site: Site, p: Program)
    requires Setting(g, start, pd, order, site, p)
    ensures Stands(site, p)
  {
    forall n: nat | n < |g.nodes| ensures Built(site, n) && Placed(p, site.plan.addr[n], site.words[n]) {
      assert Built(site, n);
    }
  }

  lemma VisitSim(g: Graph, start: nat, pd: map<nat, nat>, order: seq<nat>, site: Site, p: Program, e: map<nat, Scopes>,
                 s: State, hi: History, game: T.Game, f: nat, n: nat)
    requires Setting(g, start, pd, order, site, p) && Stands(site, p) && Certificate(p, e) && Inv(p, e, s, hi)
    requires Shows(site, s, game) && ShownAt(site, s, game, f)
    requires game.phase.Playing? && f in game.tokens && game.tokens[f].place == T.Enter(n)
    requires n < |g.nodes| && Reaches(Ir.Shape(g), start, n)
    ensures Simulates(site, GatewayPairs(g, pd), p, s, game, f)
  {
    var joins, node := GatewayPairs(g, pd), g.nodes[n];
    assert Wired(g, n);
    if node.EndEvent? {
      EndSim(site, joins, p, s, game, f, n);
    } else if node.GatewayXor? {
      XorSim(site, joins, p, s, game, f, n);
    } else if node == GatewayAnd(Diverging) {
      AndForkSim(site, joins, p, s, game, f, n);
    } else if node == GatewayInclusive(Diverging) {
      InclusiveJoinAt(g, start, pd, order, site, p, n);
      InclusiveSim(site, joins, p, s, game, f, n);
    } else {
      var t := FollowsOn(g, start, pd, order, site, p, n);
      StepSim(g, start, pd, order, site, p, e, s, hi, game, f, n, t);
    }
  }

  lemma StepSim(g: Graph, start: nat, pd: map<nat, nat>, order: seq<nat>, site: Site, p: Program, e: map<nat, Scopes>,
                s: State, hi: History, game: T.Game, f: nat, n: nat, t: nat)
    requires Setting(g, start, pd, order, site, p) && Stands(site, p) && Certificate(p, e) && Inv(p, e, s, hi)
    requires Shows(site, s, game) && ShownAt(site, s, game, f)
    requires game.phase.Playing? && f in game.tokens && game.tokens[f].place == T.Enter(n)
    requires n < |g.nodes| && Reaches(Ir.Shape(g), start, n) && Linked(site, n, t)
    requires !g.nodes[n].EndEvent? && !g.nodes[n].GatewayXor? && !Forks(g.nodes[n])
    ensures Simulates(site, GatewayPairs(g, pd), p, s, game, f)
  {
    var joins, node := GatewayPairs(g, pd), g.nodes[n];
    assert Wired(g, n) && !Guarded(site.plan.b, n);
    if node.Start? { StartSim(site, joins, p, s, game, f, n, t); }
    else if node.SendTask? { SendSim(site, joins, p, s, game, f, n, t); }
    else if node.TimerWait? { TimerSim(site, joins, p, s, game, f, n, t); }
    else if node.MultiInstance? { MiSim(site, joins, p, s, game, f, n, t); }
    else if Joins(node) { JoinSim(site, joins, p, e, s, hi, game, f, n, t); }
    else { TaskSim(site, joins, p, s, game, f, n, t); }
  }

  lemma InnerSim(g: Graph, start: nat, pd: map<nat, nat>, order: seq<nat>, site: Site, p: Program, e: map<nat, Scopes>,
                 s: State, hi: History, game: T.Game, f: nat, n: nat)
    requires Setting(g, start, pd, order, site, p) && Certificate(p, e) && Inv(p, e, s, hi)
    requires f in game.tokens && Simulation.Plays(site, p, s, game, f, game.tokens[f].place) &&
      n == game.tokens[f].place.n < |g.nodes|
    requires T.Movable(game.tokens[f]) && Reaches(Ir.Shape(g), start, n) && !g.nodes[n].EndEvent?
    requires !game.tokens[f].place.Enter? && !game.tokens[f].place.Branch?
    ensures Simulates(site, GatewayPairs(g, pd), p, s, game, f)
  {
    var joins, place := GatewayPairs(g, pd), game.tokens[f].place;
    var t := FollowsOn(g, start, pd, order, site, p, n);
    if place.Done? { DoneSim(site, joins, p, s, game, f, n, t); }
    else if place.Slot? { SlotSim(site, joins, p, s, game, f, n, t, place.i); }
    else if place.SlotDone? { SlotDoneSim(site, joins, p, s, game, f, n, t, place.i); }
    else { GatherSim(site, joins, p, e, s, hi, game, f, n, t); }
  }

  lemma BranchedSim(g: Graph, start: nat, pd: map<nat, nat>, order: seq<nat>, site: Site, p: Program,
                    s: State, game: T.Game, f: nat, n: nat, i: nat)
    requires Setting(g, start, pd, order, site, p) && Simulation.Plays(site, p, s, game, f, T.Branch(n, i))
    requires n < |g.nodes| && Reaches(Ir.Shape(g), start, n)
    ensures Simulates(site, GatewayPairs(g, pd), p, s, game, f)
  {
    InclusiveJoinAt(g, start, pd, order, site, p, n);
    BranchSim(site, GatewayPairs(g, pd), p, s, game, f, n, i);
  }

  /** Whatever place a token is at, its fibre makes its move. */
  lemma PlaceSim(g: Graph, start: nat, pd: map<nat, nat>, order: seq<nat>, site: Site, p: Program, e: map<nat, Scopes>,
                 s: State, hi: History, game: T.Game, f: nat)
    requires Setting(g, start, pd, order, site, p) && Certificate(p, e) && Inv(p, e, s, hi)
    requires Stands(site, p) && Shows(site, s, game) && ShownAt(site, s, game, f) && f in game.tokens
    requires game.phase.Playing? && T.Movable(game.tokens[f])
    requires game.tokens[f].place.n < |g.nodes| && Reaches(Ir.Shape(g), start, game.tokens[f].place.n)
    ensures Simulates(site, GatewayPairs(g, pd), p, s, game, f)
  {
    var place := game.tokens[f].place;
    var n := place.n;
    if place.Enter? {
      VisitSim(g, start, pd, order, site, p, e, s, hi, game, f, n);
    } else if place.Branch? {
      BranchedSim(g, start, pd, order, site, p, s, game, f, n, place.i);
    } else {
      InnerSim(g, start, pd, order, site, p, e, s, hi, game, f, n);
    }
  }

  // ---------------------------------------------------------------- plays are runs

  /** The state is reachable and shows the game. */
  ghost predicate Pictures(g: Graph, start: nat, site: Site, p: Program, s: State, game: T.Game)
    requires Known(site)
  {
    Reachable(p, s) && Shows(site, s, game) && OnFlow(g, start, game)
  }

  /** The machine makes every move the game can make. */
  ghost predicate MakesMoves(g: Graph, start: nat, joins: map<nat, nat>, site: Site, p: Program)
    requires Known(site) && site.plan.g == g
  {
    forall s, game: T.Game, f {:trigger Simulates(site, joins, p, s, game, f)} ::
      Pictures(g, start, site, p, s, game) && game.phase.Playing? && f in game.tokens && T.Movable(game.tokens[f])
      ==> Simulates(site, joins, p, s, game, f)
  }

  /** Tokens stay on the flow. */
  ghost predicate StaysOn(g: Graph, start: nat, joins: map<nat, nat>)
    requires |g.nodes| == |g.flows|
  {
    forall game: T.Game, f {:trigger T.Advance(g, joins, game, f)} ::
      OnFlow(g, start, game) && f in game.tokens && T.Advance(g, joins, game, f).Then?
      ==> OnFlow(g, start, T.Advance(g, joins, game, f).game)
  }

  /** No guard is ever there to fire. */
  ghost predicate NeverFires(p: Program) {
    forall s, h, target {:trigger CanTrigger(s, h, target)} :: Reachable(p, s) ==> !CanTrigger(s, h, target)
  }

  ghost predicate Faithful(g: Graph, start: nat, joins: map<nat, nat>, site: Site, p: Program) {
    && Known(site) && site.plan.g == g && start < |g.nodes| && site.plan.addr[start] == 0
    && MakesMoves(g, start, joins, site, p) && StaysOn(g, start, joins) && NeverFires(p)
  }

  lemma JoinsStay(g: Graph, start: nat, pd: map<nat, nat>, order: seq<nat>, site: Site, p: Program, game: T.Game,
                  f: nat)
    requires Setting(g, start, pd, order, site, p) && OnFlow(g, start, game) && f in game.tokens
    ensures T.Advance(g, GatewayPairs(g, pd), game, f).Then? ==>
      OnFlow(g, start, T.Advance(g, GatewayPairs(g, pd), game, f).game)
  {
    var n := game.tokens[f].place.n;
    if n in GatewayPairs(g, pd) { JoinsReach(g, start, pd, n); }
    AdvanceStays(g, start, GatewayPairs(g, pd), game, f);
  }

  lemma ReachableSim(g: Graph, start: nat, pd: map<nat, nat>, order: seq<nat>, site: Site, p: Program, e: map<nat,
                     Scopes>,
                     s: State, game: T.Game, f: nat)
    requires Compiled(g, start, pd, order, site, p, e) && Pictures(g, start, site, p, s, game)
    requires game.phase.Playing? && f in game.tokens && T.Movable(game.tokens[f])
    ensures Simulates(site, GatewayPairs(g, pd), p, s, game, f)
  {
    var hi := KernelTheorems.ReachableInv(p, e, s);
    AllStands(g, start, pd, order, site, p);
    assert ShownAt(site, s, game, f);
    PlaceSim(g, start, pd, order, site, p, e, s, hi, game, f);
  }

  /** With barriers only in the certificate, no open scope is a guard. */
  lemma NoOpenGuard(p: Program, e: map<nat, Scopes>, s: State, hi: History, h: nat)
    requires OnlyBarriers(e) && Inv(p, e, s, hi) && Armed(s, h)
    ensures s.table[h].kind.Barrier?
  {
    assert Counted(s, hi, h);
    var x := LiveRider(s, hi, h);
    assert TypedFiber(p, e, hi, s.fibers[x]);
    var i :| 0 <= i < |s.fibers[x].control| && s.fibers[x].control[i] == h;
    assert Inside(s.fibers[x])[i] == h && e[s.fibers[x].pc][i] == hi[h].token;
  }

  lemma CannotFire(p: Program, e: map<nat, Scopes>, s: State, h: nat, target: nat)
    requires Admitted(p, e) && OnlyBarriers(e) && Reachable(p, s)
    ensures !CanTrigger(s, h, target)
  {
    var hi := KernelTheorems.ReachableInv(p, e, s);
    if CanTrigger(s, h, target) { NoOpenGuard(p, e, s, hi, h); }
  }

  /** Lowering a well-nested graph is faithful to its token game. */
  lemma CompiledIsFaithful(g: Graph, start: nat, pd: map<nat, nat>, order: seq<nat>, site: Site, p: Program,
                           e: map<nat, Scopes>)
    requires Compiled(g, start, pd, order, site, p, e)
    ensures Faithful(g, start, GatewayPairs(g, pd), site, p)
  {
    var joins := GatewayPairs(g, pd);
    forall s, game: T.Game, f
      | Pictures(g, start, site, p, s, game) && game.phase.Playing? && f in game.tokens && T.Movable(game.tokens[f])
      ensures Simulates(site, joins, p, s, game, f)
    {
      ReachableSim(g, start, pd, order, site, p, e, s, game, f);
    }
    forall game: T.Game, f | OnFlow(g, start, game) && f in game.tokens && T.Advance(g, joins, game, f).Then?
      ensures OnFlow(g, start, T.Advance(g, joins, game, f).game)
    {
      JoinsStay(g, start, pd, order, site, p, game, f);
    }
    forall s, h, target | Reachable(p, s) ensures !CanTrigger(s, h, target) { CannotFire(p, e, s, h, target); }
  }

  /** A move of the game is made by the machine. */
  lemma MoveMade(g: Graph, start: nat, joins: map<nat, nat>, site: Site, p: Program, s: State, game: T.Game, f: nat,
                 game': T.Game)
    returns (s': State)
    requires Faithful(g, start, joins, site, p) && Pictures(g, start, site, p, s, game)
    requires game.phase.Playing? && f in game.tokens && T.Movable(game.tokens[f]) &&
      T.Advance(g, joins, game, f) == T.Then(game')
    ensures Pictures(g, start, site, p, s', game') && Runs(p, s, f, s')
  {
    assert Simulates(site, joins, p, s, game, f);
    s' :| Runs(p, s, f, s') && Shows(site, s', game');
    RunsReaches(p, s, f, s');
  }

  lemma FinishShows(site: Site, s: State, game: T.Game, f: nat, flags: map<nat, Value>, game': T.Game)
    requires Known(site) && Shows(site, s, game) && game.phase.Playing? && f in game.tokens
    requires T.Finish(game, f, flags) == T.Then(game')
    ensures s.fibers[f].wait.Parked? && Shows(site, ResumeState(s, f, flags), game')
  {
    assert ShownAt(site, s, game, f);
    ShowsPut(site, s, game, f, game'.tokens[f], ResumeState(s, f, flags), game');
  }

  /** Finishing the work of a token resumes its fibre. */
  lemma FinishMade(g: Graph, start: nat, site: Site, p: Program, s: State, game: T.Game, f: nat, flags: map<nat,
                   Value>, game': T.Game)
    requires Known(site) && Pictures(g, start, site, p, s, game) && game.phase.Playing? && f in game.tokens
    requires T.Finish(game, f, flags) == T.Then(game')
    ensures s.fibers[f].wait.Parked? && Pictures(g, start, site, p, ResumeState(s, f, flags), game')
  {
    FinishShows(site, s, game, f, flags, game');
    ResumeOnward(p, s, f, flags);
    FinishStays(g, start, game, f, flags);
  }

  lemma OpeningShown(g: Graph, start: nat, joins: map<nat, nat>, site: Site, p: Program, flags: map<nat, Value>)
    requires Faithful(g, start, joins, site, p)
    ensures Pictures(g, start, site, p, Initial(flags), T.Opening(start, flags))
  {
    StartReachable(p, flags);
    Refl(Ir.Shape(g), start);
  }

  // ---------------------------------------------------------------- runs and plays as relations

  /** The state shows the game. */
  ghost function Showing(g: Graph, start: nat, site: Site, p: Program): (State, T.Game) -> bool
    requires Known(site)
  {
    (s, game) => Pictures(g, start, site, p, s, game)
  }

  /** The same, from the game to the state. */
  ghost function ShownBy(g: Graph, start: nat, site: Site, p: Program): (T.Game, State) -> bool
    requires Known(site)
  {
    (game, s) => Pictures(g, start, site, p, s, game)
  }

  ghost function Stepping(p: Program): (State, State) -> bool {
    (s, s') => Steps(p, s, s')
  }

  ghost function Committing(p: Program): (State, State) -> bool {
    (s, s') => Commits(p, s, s')
  }

  ghost function Playing(g: Graph, joins: map<nat, nat>): (T.Game, T.Game) -> bool
    requires |g.nodes| == |g.flows|
  {
    (game, game') => T.Plays(g, joins, game, game')
  }

  ghost function Turning(g: Graph, joins: map<nat, nat>): (T.Game, T.Game) -> bool
    requires |g.nodes| == |g.flows|
  {
    (game, game') => T.Turns(g, joins, game, game')
  }

  lemma RunChain(p: Program, run: seq<State>)
    requires |run| > 0
    ensures IsRun(p, run) <==> (exists flags :: run[0] == Initial(flags)) && InTurn(Stepping(p), run)
  {
    if IsRun(p, run) {
      forall i: nat ensures LinkAt(Stepping(p), run, i) { assert StepsAt(p, run, i); }
    }
    if InTurn(Stepping(p), run) {
      forall i: nat ensures StepsAt(p, run, i) { assert LinkAt(Stepping(p), run, i); }
    }
  }

  lemma CommittedChain(p: Program, run: seq<State>)
    requires |run| > 0
    ensures IsCommitted(p, run) <==> (exists flags :: run[0] == Initial(flags)) && InTurn(Committing(p), run)
  {
    if IsCommitted(p, run) {
      forall i: nat ensures LinkAt(Committing(p), run, i) { assert CommitsAt(p, run, i); }
    }
    if InTurn(Committing(p), run) {
      forall i: nat ensures CommitsAt(p, run, i) { assert LinkAt(Committing(p), run, i); }
    }
  }

  lemma PlayChain(g: Graph, joins: map<nat, nat>, start: nat, play: seq<T.Game>)
    requires |g.nodes| == |g.flows| && |play| > 0
    ensures T.IsPlay(g, joins, start, play) <==>
      (exists flags :: play[0] == T.Opening(start, flags)) && InTurn(Playing(g, joins), play)
  {
    if T.IsPlay(g, joins, start, play) {
      forall i: nat ensures LinkAt(Playing(g, joins), play, i) {}
    }
    if InTurn(Playing(g, joins), play) {
      forall i, j | 0 <= i < j < |play| && j == i + 1 ensures T.Plays(g, joins, play[i], play[j]) {
        assert LinkAt(Playing(g, joins), play, i);
      }
    }
  }

  lemma TurnChain(g: Graph, joins: map<nat, nat>, start: nat, play: seq<T.Game>)
    requires |g.nodes| == |g.flows| && |play| > 0
    ensures T.IsTurnPlay(g, joins, start, play) <==>
      (exists flags :: play[0] == T.Opening(start, flags)) && InTurn(Turning(g, joins), play)
  {
    if T.IsTurnPlay(g, joins, start, play) {
      forall i: nat ensures LinkAt(Turning(g, joins), play, i) { assert T.TurnsAt(g, joins, play, i); }
    }
    if InTurn(Turning(g, joins), play) {
      forall i: nat ensures T.TurnsAt(g, joins, play, i) { assert LinkAt(Turning(g, joins), play, i); }
    }
  }

  // ---------------------------------------------------------------- every play, word by word

  lemma BurstSteps(p: Program, f: nat, run: seq<State>)
    requires IsBurst(p, f, run)
    ensures InTurn(Stepping(p), run)
  {
    forall i: nat ensures LinkAt(Stepping(p), run, i) { assert WordAt(p, f, run, i); }
  }

  /** One move of the game, or one finished work, is steps of the machine. */
  lemma PlayedOn(g: Graph, start: nat, joins: map<nat, nat>, site: Site, p: Program, s: State, game: T.Game,
                 game': T.Game)
    requires Faithful(g, start, joins, site, p) && Pictures(g, start, site, p, s, game) &&
      T.Plays(g, joins, game, game')
    ensures PathAnswer(Showing(g, start, site, p), Stepping(p), s, game')
  {
    var steps;
    if f :| f in game.tokens && T.Movable(game.tokens[f]) && T.Advance(g, joins, game, f) == T.Then(game') {
      var s' := MoveMade(g, start, joins, site, p, s, game, f, game');
      steps :| Travels(p, s, f, steps, s');
      BurstSteps(p, f, steps);
    } else {
      var f, flags :| f in game.tokens && T.Finish(game, f, flags) == T.Then(game');
      FinishMade(g, start, site, p, s, game, f, flags, game');
      steps := [s, ResumeState(s, f, flags)];
      forall i: nat ensures LinkAt(Stepping(p), steps, i) {}
    }
    assert Path(Showing(g, start, site, p), Stepping(p), s, game', steps);
  }

  /** Every play of the token game is one run of the machine, word by word: the run shows the
      games of the play in their order. */
  lemma PlaysAreRuns(g: Graph, start: nat, joins: map<nat, nat>, site: Site, p: Program, play: seq<T.Game>)
    returns (run: seq<State>, idx: seq<nat>)
    requires Faithful(g, start, joins, site, p) && T.IsPlay(g, joins, start, play)
    ensures IsRun(p, run) && Along(Showing(g, start, site, p), run, play, idx)
  {
    forall s, game, game' | Pictures(g, start, site, p, s, game) && T.Plays(g, joins, game, game')
      ensures PathAnswer(Showing(g, start, site, p), Stepping(p), s, game')
    {
      PlayedOn(g, start, joins, site, p, s, game, game');
    }
    PlayChain(g, joins, start, play);
    var flags :| play[0] == T.Opening(start, flags);
    OpeningShown(g, start, joins, site, p, flags);
    run, idx := FollowsAlong(Showing(g, start, site, p), Stepping(p), Playing(g, joins), Initial(flags), play);
    RunChain(p, run);
  }

  // ---------------------------------------------------------------- a tick is a turn

  lemma RunnableMoves(site: Site, s: State, game: T.Game, f: nat)
    requires Known(site) && Shows(site, s, game)
    ensures Runnable(s, f) <==> T.CanGo(game, f)
  {
    assert ShownAt(site, s, game, f);
  }

  lemma NotRefused(g: Graph, start: nat, joins: map<nat, nat>, site: Site, p: Program,
                   s: State, game: T.Game, f: nat, run: seq<State>, s': State)
    requires Faithful(g, start, joins, site, p) && Pictures(g, start, site, p, s, game)
    requires T.CanGo(game, f) && Travels(p, s, f, run, s')
    ensures T.Advance(g, joins, game, f).Then?
  {
    assert Simulates(site, joins, p, s, game, f);
    if Overlong(p, s, f) { ArityRefused(p, s, f); }
    assert WordAt(p, f, run, 0);
  }

  lemma PartOfTick(p: Program, s: State, f: nat, s1: State, run: seq<State>, s': State) returns (k: nat)
    requires Runs(p, s, f, s1) && Tick(p, s, f, run, s')
    ensures 0 < k < |run| && run[k] == s1
  {
    var part :| Travels(p, s, f, part, s1);
    YieldsLater(p, s, f, part, s1, run, s');
    k := |part| - 1;
  }

  /** The first move within a tick. */
  lemma FirstMove(g: Graph, start: nat, joins: map<nat, nat>, site: Site, p: Program,
                  s: State, game: T.Game, f: nat, run: seq<State>, s': State) returns (k: nat, game1: T.Game)
    requires Faithful(g, start, joins, site, p) && Pictures(g, start, site, p, s, game) && Tick(p, s, f, run, s')
    ensures 0 < k < |run| && Pictures(g, start, site, p, run[k], game1)
    ensures T.CanGo(game, f) && T.Advance(g, joins, game, f) == T.Then(game1)
  {
    assert WordAt(p, f, run, 0);
    RunnableMoves(site, s, game, f);
    NotRefused(g, start, joins, site, p, s, game, f, run, s');
    game1 := T.Advance(g, joins, game, f).game;
    var s1 := MoveMade(g, start, joins, site, p, s, game, f, game1);
    k := PartOfTick(p, s, f, s1, run, s');
  }

  /** Moves of `f`, one after another. */
  ghost predicate Moving(g: Graph, joins: map<nat, nat>, f: nat, moves: seq<T.Game>)
    requires |g.nodes| == |g.flows|
  {
    forall i: nat {:trigger T.MovesAt(g, joins, f, moves, i)} :: T.MovesAt(g, joins, f, moves, i)
  }

  lemma MovesCons(g: Graph, joins: map<nat, nat>, f: nat, game: T.Game, moves: seq<T.Game>)
    requires |g.nodes| == |g.flows| && |moves| > 0 && Moving(g, joins, f, moves)
    requires T.CanGo(game, f) && T.Advance(g, joins, game, f) == T.Then(moves[0])
    ensures Moving(g, joins, f, [game] + moves)
  {
    var all := [game] + moves;
    forall i: nat ensures T.MovesAt(g, joins, f, all, i) {
      if i > 0 { assert T.MovesAt(g, joins, f, moves, i - 1); }
    }
  }

  lemma TickRest(p: Program, s: State, f: nat, run: seq<State>, s': State, k: nat)
    requires Tick(p, s, f, run, s') && k + 1 < |run|
    ensures Tick(p, run[k], f, run[k..], s')
  {
    TravelsRest(p, s, f, run, s', k);
  }

  /** A tick is a turn of one token. */
  lemma {:induction false} TickTurns(g: Graph, start: nat, joins: map<nat, nat>, site: Site, p: Program,
                                     s: State, game: T.Game, f: nat, run: seq<State>, s': State)
    returns (moves: seq<T.Game>)
    requires Faithful(g, start, joins, site, p) && Pictures(g, start, site, p, s, game) && Tick(p, s, f, run, s')
    ensures |moves| > 1 && moves[0] == game && Moving(g, joins, f, moves)
    ensures !T.CanGo(moves[|moves| - 1], f) && Pictures(g, start, site, p, s', moves[|moves| - 1])
    decreases |run|
  {
    var k, game1 := FirstMove(g, start, joins, site, p, s, game, f, run, s');
    if k + 1 < |run| {
      TickRest(p, s, f, run, s', k);
      moves := TickTurns(g, start, joins, site, p, run[k], game1, f, run[k..], s');
      MovesCons(g, joins, f, game, moves);
      moves := [game] + moves;
    } else {
      RunnableMoves(site, s', game1, f);
      moves := [game, game1];
      forall i: nat ensures T.MovesAt(g, joins, f, moves, i) {}
    }
  }

  lemma TurnRest(g: Graph, joins: map<nat, nat>, f: nat, moves: seq<T.Game>)
    requires |g.nodes| == |g.flows| && |moves| > 0 && Moving(g, joins, f, moves)
    ensures Moving(g, joins, f, moves[1..])
  {
    forall i: nat ensures T.MovesAt(g, joins, f, moves[1..], i) { assert T.MovesAt(g, joins, f, moves, i + 1); }
  }

  /** A turn of a token is one tick of its fibre. */
  lemma {:induction false} TurnTicks(g: Graph, start: nat, joins: map<nat, nat>, site: Site, p: Program,
                                     s: State, game: T.Game, f: nat, moves: seq<T.Game>)
    returns (run: seq<State>, s': State)
    requires Faithful(g, start, joins, site, p) && Pictures(g, start, site, p, s, game)
    requires |moves| > 1 && moves[0] == game && Moving(g, joins, f, moves) && !T.CanGo(moves[|moves| - 1], f)
    ensures Tick(p, s, f, run, s') && Pictures(g, start, site, p, s', moves[|moves| - 1])
    decreases |moves|
  {
    assert T.MovesAt(g, joins, f, moves, 0);
    var s1 := MoveMade(g, start, joins, site, p, s, game, f, moves[1]);
    var first :| Travels(p, s, f, first, s1);
    if |moves| == 2 {
      RunnableMoves(site, s1, moves[1], f);
      run, s' := first, s1;
    } else {
      TurnRest(g, joins, f, moves);
      var rest;
      rest, s' := TurnTicks(g, start, joins, site, p, s1, moves[1], f, moves[1..]);
      TravelsOn(p, s, f, first, s1, rest, s');
      run := first + rest[1..];
    }
  }

  // ---------------------------------------------------------------- commands and turns

  /** A parked fibre is a token whose work can be finished. */
  lemma ParkedFinishes(site: Site, s: State, game: T.Game, f: nat, flags: map<nat, Value>)
    requires Known(site) && Shows(site, s, game) && s.status.Active? && f in s.fibers && s.fibers[f].wait.Parked?
    ensures game.phase.Playing? && f in game.tokens && T.Finish(game, f, flags).Then?
  {
    assert ShownAt(site, s, game, f);
  }

  /** What a command does to a state that shows a game is a turn of that game. */
  lemma CommandTurns(g: Graph, start: nat, joins: map<nat, nat>, site: Site, p: Program, s: State, game: T.Game,
                     s': State)
    returns (game': T.Game)
    requires Faithful(g, start, joins, site, p) && Pictures(g, start, site, p, s, game) && Obeys(p, s, s')
    ensures T.Turns(g, joins, game, game') && Pictures(g, start, site, p, s', game')
  {
    if f, run :| Tick(p, s, f, run, s') {
      var moves := TickTurns(g, start, joins, site, p, s, game, f, run, s');
      game' := moves[|moves| - 1];
      assert T.IsTurn(g, joins, f, game, moves, game');
    } else {
      assert forall h, target :: !Fires(s, h, target, s');
      var f, flags :| Resumes(s, f, flags, s');
      ParkedFinishes(site, s, game, f, flags);
      game' := T.Finish(game, f, flags).game;
      FinishMade(g, start, site, p, s, game, f, flags, game');
      assert T.Finishes(game, f, flags, game');
    }
  }

  /** A turn of the game that a state shows is a command to that state. */
  lemma TurnCommands(g: Graph, start: nat, joins: map<nat, nat>, site: Site, p: Program, s: State, game: T.Game,
                     game': T.Game)
    returns (s': State)
    requires Faithful(g, start, joins, site, p) && Pictures(g, start, site, p, s, game) &&
      T.Turns(g, joins, game, game')
    ensures Obeys(p, s, s') && Pictures(g, start, site, p, s', game')
  {
    if f, moves :| T.IsTurn(g, joins, f, game, moves, game') {
      var run;
      run, s' := TurnTicks(g, start, joins, site, p, s, game, f, moves);
    } else {
      var f, flags :| T.Finishes(game, f, flags, game');
      FinishMade(g, start, site, p, s, game, f, flags, game');
      s' := ResumeState(s, f, flags);
      MatchesActive(site, s, game);
      assert Resumes(s, f, flags, s');
    }
  }

  lemma MatchesActive(site: Site, s: State, game: T.Game)
    requires Known(site) && Shows(site, s, game) && game.phase.Playing?
    ensures s.status.Active?
  {
  }

  /** What a command does to a state of some run is always committed. */
  ghost predicate NeverRefused(p: Program) {
    forall s, s' {:trigger Obeys(p, s, s')} :: Reachable(p, s) && Obeys(p, s, s') ==> Commits(p, s, s')
  }

  /** Every play by turns is one committed run, command for turn. */
  lemma TurnPlaysAreRuns(g: Graph, start: nat, joins: map<nat, nat>, site: Site, p: Program, play: seq<T.Game>)
    returns (run: seq<State>)
    requires Faithful(g, start, joins, site, p) && NeverRefused(p) && T.IsTurnPlay(g, joins, start, play)
    ensures IsCommitted(p, run) && Alike(Showing(g, start, site, p), run, play)
  {
    forall s, game, game' | Pictures(g, start, site, p, s, game) && T.Turns(g, joins, game, game')
      ensures Answer(Showing(g, start, site, p), Committing(p), s, game')
    {
      var s' := TurnCommands(g, start, joins, site, p, s, game, game');
      assert Committing(p)(s, s') && Showing(g, start, site, p)(s', game');
    }
    TurnChain(g, joins, start, play);
    var flags :| play[0] == T.Opening(start, flags);
    OpeningShown(g, start, joins, site, p, flags);
    run := Follows(Showing(g, start, site, p), Committing(p), Turning(g, joins), Initial(flags), play);
    CommittedChain(p, run);
  }

  // ---------------------------------------------------------------- runs go on

  /** `f` runs, by zero or more words, up to a collection that is too long. */
  ghost predicate Blocked(p: Program, s: State, f: nat) {
    Overlong(p, s, f) || exists s' :: Runs(p, s, f, s') && Overlong(p, s', f)
  }

  /** No run has more than `bound` steps. */
  ghost predicate Bounded(p: Program, bound: nat) {
    forall run {:trigger IsRun(p, run)} :: IsRun(p, run) ==> |run| <= bound + 1
  }

  lemma LongerRun(p: Program, f: nat, run: seq<State>, steps: seq<State>, s': State) returns (longer: seq<State>)
    requires IsRun(p, run) && Travels(p, run[|run| - 1], f, steps, s')
    ensures |longer| > |run| && IsRun(p, longer) && longer[|longer| - 1] == s'
  {
    RunChain(p, run);
    BurstSteps(p, f, steps);
    Joined(Stepping(p), run, steps);
    longer := run + steps[1..];
    RunChain(p, longer);
  }

  /** A token that can go is ticked to its rest, or meets a collection that is too long. */
  lemma {:induction false} TicksOrBlocked(g: Graph, start: nat, joins: map<nat, nat>, site: Site, p: Program,
                                          bound: nat, run: seq<State>, game: T.Game, f: nat)
    requires Faithful(g, start, joins, site, p) && Bounded(p, bound) && IsRun(p, run)
    requires Pictures(g, start, site, p, run[|run| - 1], game) && T.CanGo(game, f)
    ensures var s := run[|run| - 1]; Blocked(p, s, f) || exists burst, s' :: Tick(p, s, f, burst, s')
    decreases bound + 1 - |run|
  {
    var s := run[|run| - 1];
    assert Simulates(site, joins, p, s, game, f);
    if T.Advance(g, joins, game, f).Then? {
      var game1 := T.Advance(g, joins, game, f).game;
      var s1 := MoveMade(g, start, joins, site, p, s, game, f, game1);
      var steps :| Travels(p, s, f, steps, s1);
      RunnableMoves(site, s1, game1, f);
      if T.CanGo(game1, f) {
        var longer := LongerRun(p, f, run, steps, s1);
        TicksOrBlocked(g, start, joins, site, p, bound, longer, game1, f);
        LaterTick(p, s, f, steps, s1);
      } else {
        assert Tick(p, s, f, steps, s1);
      }
    }
  }

  lemma LaterTick(p: Program, s: State, f: nat, steps: seq<State>, s1: State)
    requires Travels(p, s, f, steps, s1)
    ensures Blocked(p, s1, f) ==> Blocked(p, s, f)
    ensures (exists burst, s' :: Tick(p, s1, f, burst, s')) ==> exists burst, s' :: Tick(p, s, f, burst, s')
  {
    if Blocked(p, s1, f) && !Overlong(p, s1, f) {
      var s' :| Runs(p, s1, f, s') && Overlong(p, s', f);
      RunsOn(p, s, f, s1, s');
    }
    if burst, s' :| Tick(p, s1, f, burst, s') {
      TravelsOn(p, s, f, steps, s1, burst, s');
      assert Tick(p, s, f, steps + burst[1..], s');
    }
  }

  /** A command can be given, or some fibre runs up to a collection that is too long. */
  ghost predicate GoesOn(p: Program, s: State) {
    (exists s' :: Commits(p, s, s')) || exists f :: Blocked(p, s, f)
  }

  lemma ObeyedGoesOn(p: Program, s: State, s': State)
    requires NeverRefused(p) && Reachable(p, s) && Obeys(p, s, s')
    ensures GoesOn(p, s)
  {
    assert Commits(p, s, s');
  }

  lemma ParkedGoesOn(p: Program, s: State, x: nat)
    requires NeverRefused(p) && Reachable(p, s) && s.status.Active? && x in s.fibers && s.fibers[x].wait.Parked?
    ensures GoesOn(p, s)
  {
    var s' := ResumeState(s, x, map[]);
    assert Obeys(p, s, s') by { assert Resumes(s, x, map[], s'); }
    ObeyedGoesOn(p, s, s');
  }

  /** A state with a fibre that runs or is parked goes on. */
  lemma LivelyGoesOn(g: Graph, start: nat, joins: map<nat, nat>, site: Site, p: Program, bound: nat,
                     s: State, game: T.Game, x: nat)
    requires Faithful(g, start, joins, site, p) && Bounded(p, bound) && NeverRefused(p)
    requires Pictures(g, start, site, p, s, game) && s.status.Active? && x in s.fibers
    requires s.fibers[x].wait.Running? || s.fibers[x].wait.Parked?
    ensures GoesOn(p, s)
  {
    if s.fibers[x].wait.Parked? {
      ParkedGoesOn(p, s, x);
    } else {
      RunnableMoves(site, s, game, x);
      var run :| IsRun(p, run) && run[|run| - 1] == s;
      TicksOrBlocked(g, start, joins, site, p, bound, run, game, x);
      if burst, s' :| Tick(p, s, x, burst, s') { ObeyedGoesOn(p, s, s'); }
    }
  }

  /** Every committed run is one play by turns, turn for command. */
  lemma RunsArePlays(g: Graph, start: nat, joins: map<nat, nat>, site: Site, p: Program, run: seq<State>)
    returns (play: seq<T.Game>)
    requires Faithful(g, start, joins, site, p) && IsCommitted(p, run)
    ensures T.IsTurnPlay(g, joins, start, play) && Alike(ShownBy(g, start, site, p), play, run)
  {
    forall game, s, s' | Pictures(g, start, site, p, s, game) && Commits(p, s, s')
      ensures Answer(ShownBy(g, start, site, p), Turning(g, joins), game, s')
    {
      var game' := CommandTurns(g, start, joins, site, p, s, game, s');
      assert Turning(g, joins)(game, game') && ShownBy(g, start, site, p)(game', s');
    }
    CommittedChain(p, run);
    var flags :| run[0] == Initial(flags);
    OpeningShown(g, start, joins, site, p, flags);
    play := Follows(ShownBy(g, start, site, p), Turning(g, joins), Committing(p), T.Opening(start, flags), run);
    TurnChain(g, joins, start, play);
  }

  // ---------------------------------------------------------------- turns are moves

  lemma TurnMoves(g: Graph, joins: map<nat, nat>, game: T.Game, game': T.Game) returns (moves: seq<T.Game>)
    requires |g.nodes| == |g.flows| && T.Turns(g, joins, game, game')
    ensures |moves| > 1 && moves[0] == game && moves[|moves| - 1] == game' && InTurn(Playing(g, joins), moves)
  {
    if f, turn :| T.IsTurn(g, joins, f, game, turn, game') {
      moves := turn;
      forall i: nat ensures LinkAt(Playing(g, joins), moves, i) { assert T.MovesAt(g, joins, f, turn, i); }
    } else {
      moves := [game, game'];
      var f, flags :| T.Finishes(game, f, flags, game');
      assert T.Plays(g, joins, game, game');
      forall i: nat ensures LinkAt(Playing(g, joins), moves, i) {}
    }
  }

  /** Every committed run is seen along one play, move by move. */
  lemma RunsAlongPlays(g: Graph, start: nat, joins: map<nat, nat>, site: Site, p: Program, run: seq<State>)
    returns (play: seq<T.Game>, idx: seq<nat>)
    requires Faithful(g, start, joins, site, p) && IsCommitted(p, run)
    ensures T.IsPlay(g, joins, start, play) && Along(ShownBy(g, start, site, p), play, run, idx)
  {
    forall game, s, s' | Pictures(g, start, site, p, s, game) && Commits(p, s, s')
      ensures PathAnswer(ShownBy(g, start, site, p), Playing(g, joins), game, s')
    {
      var game' := CommandTurns(g, start, joins, site, p, s, game, s');
      var moves := TurnMoves(g, joins, game, game');
      assert Path(ShownBy(g, start, site, p), Playing(g, joins), game, s', moves);
    }
    CommittedChain(p, run);
    var flags :| run[0] == Initial(flags);
    OpeningShown(g, start, joins, site, p, flags);
    var opening := T.Opening(start, flags);
    play, idx := FollowsAlong(ShownBy(g, start, site, p), Playing(g, joins), Committing(p), opening, run);
    PlayChain(g, joins, start, play);
  }
}
