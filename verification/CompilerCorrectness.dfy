/** The compiler and the machine together: from a graph that lowers to everything its runs do. */
module CompilerCorrectness {
  import opened Bytecode
  import opened ControlStack
  import opened Kernel
  import opened KernelSafety
  import KernelTheorems
  import KernelTermination
  import opened Commands
  import opened Ir
  import opened Blocks
  import opened Pairing
  import opened Scoping
  import opened Compiler
  import LayoutExact
  import opened Lockstep
  import opened SimulationTheorems
  import T = TokenGame

  // ---------------------------------------------------------------- every admitted program

  /** Some fibre can go on, or waits for the outside. */
  ghost predicate Lively(s: State) {
    s.status.Active? ==> exists x :: x in s.fibers && (s.fibers[x].wait.Running? || s.fibers[x].wait.Parked?)
  }

  /** No word fails for want of a word, a scope, a barrier or a guard. */
  ghost predicate InControl(p: Program, s: State) {
    forall f :: Runnable(s, f) && Exec(p, s, f).Err? ==> !KernelTheorems.ControlFailure(Exec(p, s, f).failure)
  }

  /** No state is refused, starves or loses control. */
  ghost predicate StateWell(p: Program, s: State) {
    Intact(p, s) && Lively(s) && InControl(p, s)
  }

  /** All states of all runs are well, and no run is longer than `bound` steps. */
  ghost predicate RunsWell(p: Program, bound: nat) {
    Bounded(p, bound) && forall s :: Reachable(p, s) ==> StateWell(p, s)
  }

  lemma ReachedWell(p: Program, e: map<nat, Scopes>, s: State)
    requires Admitted(p, e) && Reachable(p, s)
    ensures StateWell(p, s)
  {
    var run :| IsRun(p, run) && run[|run| - 1] == s;
    var i := |run| - 1;
    KernelTheorems.AlwaysIntact(p, e, run, i);
    if s.status.Active? { KernelTheorems.NeverStarves(p, e, run, i); }
    forall f | Runnable(s, f) ensures Exec(p, s, f).Err? ==> !KernelTheorems.ControlFailure(Exec(p, s, f).failure) {
      KernelTheorems.NoControlFailure(p, e, run, i, f);
    }
  }

  lemma {:induction false} AdmittedRunsWell(p: Program, e: map<nat, Scopes>)
    requires Admitted(p, e)
    ensures RunsWell(p, KernelTermination.Work(p, 0)) && NeverRefused(p)
  {
    forall run: seq<State> | IsRun(p, run) ensures |run| <= KernelTermination.Work(p, 0) + 1 {
      KernelTermination.RunsAreFinite(p, e, run);
    }
    forall s: State | Reachable(p, s) ensures StateWell(p, s) { ReachedWell(p, e, s); }
    forall s, s' | Reachable(p, s) && Obeys(p, s, s') ensures Commits(p, s, s') {
      KernelTheorems.CommandsCommit(p, e, s, s');
    }
  }

  /** The verifier's certificate `e` says nothing of what error handlers do with the scopes around
      their guards. If it can be extended over the handlers so that every route fits, and the
      words added go forward and on, then every run of the program is well. */
  lemma {:induction false} ExtendedRunsWell(p: Program, e: map<nat, Scopes>, e': map<nat, Scopes>)
    requires Screened(p, e) && Extends(e, e') && Certificate(p, e') && RoutesFit(p, e')
    requires forall a {:trigger Admissible(p, e', a)} :: a in e' && a !in e ==> Admissible(p, e', a)
    ensures RunsWell(p, KernelTermination.Work(p, 0)) && NeverRefused(p)
  {
    forall a | a in e' ensures Admissible(p, e', a) {
      if a in e { assert Admissible(p, e, a); }
    }
    AdmittedRunsWell(p, e');
  }

  // ---------------------------------------------------------------- every compiled graph

  /** One committed run shows the games of the play by turns, one for one. */
  ghost predicate TurnEnacted(g: Graph, start: nat, site: Site, p: Program, play: seq<T.Game>)
    requires Known(site)
  {
    exists run :: IsCommitted(p, run) && Alike(Showing(g, start, site, p), run, play)
  }

  /** One run, word by word, shows the games of the play in their order. */
  ghost predicate Enacted(g: Graph, start: nat, site: Site, p: Program, play: seq<T.Game>)
    requires Known(site)
  {
    exists run, idx :: IsRun(p, run) && Along(Showing(g, start, site, p), run, play, idx)
  }

  /** One play by turns has its games shown by the states of the run, one for one. */
  ghost predicate TurnDepicted(g: Graph, start: nat, joins: map<nat, nat>, site: Site, p: Program, run: seq<State>)
    requires Known(site) && |g.nodes| == |g.flows|
  {
    exists play :: T.IsTurnPlay(g, joins, start, play) && Alike(ShownBy(g, start, site, p), play, run)
  }

  /** One play, move by move, has its games shown by the states of the run in their order. */
  ghost predicate Depicted(g: Graph, start: nat, joins: map<nat, nat>, site: Site, p: Program, run: seq<State>)
    requires Known(site) && |g.nodes| == |g.flows|
  {
    exists play, idx :: T.IsPlay(g, joins, start, play) && Along(ShownBy(g, start, site, p), play, run, idx)
  }

  ghost predicate EveryPlayEnacted(g: Graph, start: nat, joins: map<nat, nat>, site: Site, p: Program)
    requires Known(site) && |g.nodes| == |g.flows|
  {
    && (forall play {:trigger T.IsTurnPlay(g, joins, start, play)} ::
          T.IsTurnPlay(g, joins, start, play) ==> TurnEnacted(g, start, site, p, play))
    && (forall play {:trigger T.IsPlay(g, joins, start, play)} ::
          T.IsPlay(g, joins, start, play) ==> Enacted(g, start, site, p, play))
  }

  ghost predicate EveryRunDepicted(g: Graph, start: nat, joins: map<nat, nat>, site: Site, p: Program)
    requires Known(site) && |g.nodes| == |g.flows|
  {
    forall run {:trigger IsCommitted(p, run)} :: IsCommitted(p, run) ==>
      TurnDepicted(g, start, joins, site, p, run) && Depicted(g, start, joins, site, p, run)
  }

  /** Whatever has been committed, an active instance can be given another command, unless a
      fibre of it runs up to a collection that is too long. */
  ghost predicate NeverStuck(p: Program) {
    forall run: seq<State> {:trigger IsCommitted(p, run)} ::
      IsCommitted(p, run) && run[|run| - 1].status.Active? ==> GoesOn(p, run[|run| - 1])
  }

  lemma PlaysEnacted(g: Graph, start: nat, joins: map<nat, nat>, site: Site, p: Program)
    requires Faithful(g, start, joins, site, p) && NeverRefused(p)
    ensures EveryPlayEnacted(g, start, joins, site, p)
  {
    forall play | T.IsTurnPlay(g, joins, start, play) ensures TurnEnacted(g, start, site, p, play) {
      var run := TurnPlaysAreRuns(g, start, joins, site, p, play);
    }
    forall play | T.IsPlay(g, joins, start, play) ensures Enacted(g, start, site, p, play) {
      var run, idx := PlaysAreRuns(g, start, joins, site, p, play);
    }
  }

  lemma RunsDepicted(g: Graph, start: nat, joins: map<nat, nat>, site: Site, p: Program)
    requires Faithful(g, start, joins, site, p)
    ensures EveryRunDepicted(g, start, joins, site, p)
  {
    forall run | IsCommitted(p, run)
      ensures TurnDepicted(g, start, joins, site, p, run) && Depicted(g, start, joins, site, p, run) {
      var play := RunsArePlays(g, start, joins, site, p, run);
      var fine, idx := RunsAlongPlays(g, start, joins, site, p, run);
    }
  }

  /** An active state of a committed run goes on. */
  lemma CommittedGoesOn(g: Graph, start: nat, joins: map<nat, nat>, site: Site, p: Program, bound: nat, run: seq<State>)
    requires Faithful(g, start, joins, site, p) && RunsWell(p, bound) && NeverRefused(p) && IsCommitted(p, run)
    requires run[|run| - 1].status.Active?
    ensures GoesOn(p, run[|run| - 1])
  {
    var play := RunsArePlays(g, start, joins, site, p, run);
    var s, game := run[|run| - 1], play[|run| - 1];
    assert Pictures(g, start, site, p, s, game);
    assert StateWell(p, s);
    var x :| x in s.fibers && (s.fibers[x].wait.Running? || s.fibers[x].wait.Parked?);
    LivelyGoesOn(g, start, joins, site, p, bound, s, game, x);
  }

  /** A graph that lowers, whose gateways nest and whose branches are in order, runs as drawn:
      each play by turns is one committed run and each committed run is one play by turns, game
      for state; finer plays are runs word by word; no transition is refused, no run starves,
      loses control or gets stuck, and every run is bounded. */
  lemma CompilerIsCorrect(g: Graph, start: nat, pd: map<nat, nat>, order: seq<nat>, pl: Plan, p: Program)
                          returns (site: Site)
    requires Lowered(g, start, pd, order, pl, p) && WellNested(g, start, pd, pl)
    requires LayoutExact.BranchesOrdered(Shape(g), RegionMap(Shape(g), pd), start)
    ensures Known(site) && site.plan == pl
    ensures EveryPlayEnacted(g, start, GatewayPairs(g, pd), site, p)
    ensures EveryRunDepicted(g, start, GatewayPairs(g, pd), site, p)
    ensures RunsWell(p, KernelTermination.Work(p, 0)) && NeverRefused(p) && NeverStuck(p)
  {
    var e;
    site, e := CompiledIsAdmitted(g, start, pd, order, pl, p);
    CompiledIsFaithful(g, start, pd, order, site, p, e);
    AdmittedRunsWell(p, e);
    var joins := GatewayPairs(g, pd);
    PlaysEnacted(g, start, joins, site, p);
    RunsDepicted(g, start, joins, site, p);
    forall run: seq<State> | IsCommitted(p, run) && run[|run| - 1].status.Active? ensures GoesOn(p, run[|run| - 1]) {
      CommittedGoesOn(g, start, joins, site, p, KernelTermination.Work(p, 0), run);
    }
  }
}
