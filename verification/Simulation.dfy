/** Lowered programs play the token game of their graph: what a fibre does between two
    places is one move of its token, and no other move is possible. */
module Simulation {
  import opened Options
  import opened Segments
  import opened Bytecode
  import opened ControlStack
  import opened Kernel
  import opened KernelInvariant
  import opened KernelSafety
  import opened Meetings
  import opened Bursts
  import opened Ir
  import opened Blocks
  import opened Scoping
  import opened WordFlow
  import opened GatewayRuns
  import T = TokenGame

  // ---------------------------------------------------------------- places and addresses

  /** The word at which a task or wait parks, counted from the node's address. */
  function BodyAt(node: Node): nat {
    if node.TimerWait? then 1 else 0
  }

  function GatherAt(site: Site, n: nat): nat
    requires Known(site) && n < |site.plan.g.nodes|
  {
    var node := site.plan.g.nodes[n];
    if node.MultiInstance? then site.plan.addr[n] + 2 + 6 * |node.elements| else site.plan.addr[n]
  }

  predicate PlaceOk(site: Site, place: T.Place) {
    && place.n < |site.plan.g.nodes| == |site.plan.g.flows|
    && (place.Branch? ==>
          site.plan.g.nodes[place.n] == GatewayInclusive(Diverging) && place.i < |site.plan.g.flows[place.n]|)
    && (place.Slot? || place.SlotWorking? || place.SlotDone? ==>
          site.plan.g.nodes[place.n].MultiInstance? && place.i < |site.plan.g.nodes[place.n].elements|)
    && (place.Gather? ==> site.plan.g.nodes[place.n].MultiInstance?)
    && (place.Done? || place.Working? ==> site.plan.g.nodes[place.n].TimerWait? || Hosts(site.plan.g.nodes[place.n]))
  }

  function PcOf(site: Site, place: T.Place): nat
    requires Known(site) && PlaceOk(site, place)
  {
    var n := place.n;
    var base, flows := site.plan.addr[n], site.plan.g.flows[n];
    match place
    case Enter(_) => base
    case Working(_) => base + BodyAt(site.plan.g.nodes[n])
    case Done(_) => base + BodyAt(site.plan.g.nodes[n]) + 1
    case Branch(_, i) => HeaderAddr(flows, base + PrecheckRoom(flows), i)
    case Slot(_, i) => base + 2 + 6 * i
    case SlotWorking(_, i) => base + 2 + 6 * i + 4
    case SlotDone(_, i) => base + 2 + 6 * i + 5
    case Gather(_) => GatherAt(site, n)
    case Arrived(_, _) => GatherAt(site, n)
    case Stalled(_) => base + 2 * |flows|
  }

  function WaitOf(place: T.Place): Wait {
    match place
    case Working(_) => Parked
    case SlotWorking(_, _) => Parked
    case Arrived(_, h) => AtBarrier(h)
    case Stalled(_) => OnIncident
    case _ => Running
  }

  function FiberOf(site: Site, m: T.Marker): Fiber
    requires Known(site) && PlaceOk(site, m.place)
  {
    Fiber(PcOf(site, m.place), [], m.scopes, WaitOf(m.place))
  }

  predicate Matches(status: Status, phase: T.Phase) {
    match phase
    case Playing => status.Active?
    case Halted => status.Incidented?
    case Finished => status.Completed?
    case Stopped => status.Terminated?
  }

  /** Fibre `x` is at the place of token `x`. */
  ghost predicate ShownAt(site: Site, s: State, g: T.Game, x: nat)
    requires Known(site)
  {
    x in g.tokens ==> x in s.fibers && PlaceOk(site, g.tokens[x].place) && s.fibers[x] == FiberOf(site, g.tokens[x])
  }

  /** The machine state shows the game: the same tokens at the same places. */
  ghost predicate Shows(site: Site, s: State, g: T.Game)
    requires Known(site)
  {
    && s.flags == g.flags && s.nextId == g.nextId && Matches(s.status, g.phase)
    && s.fibers.Keys == g.tokens.Keys
    && (forall x {:trigger ShownAt(site, s, g, x)} :: ShownAt(site, s, g, x))
  }

  lemma ShowsPut(site: Site, s: State, g: T.Game, f: nat, m: T.Marker, s': State, g': T.Game)
    requires Known(site) && Shows(site, s, g) && f in g.tokens && PlaceOk(site, m.place)
    requires s'.fibers == s.fibers[f := FiberOf(site, m)] && g'.tokens == g.tokens[f := m]
    requires s'.flags == g'.flags && s'.nextId == g'.nextId && Matches(s'.status, g'.phase)
    ensures Shows(site, s', g')
  {
    forall x ensures ShownAt(site, s', g', x) { assert ShownAt(site, s, g, x); }
  }

  lemma AtItsPlace(site: Site, s: State, g: T.Game, f: nat)
    requires Known(site) && Shows(site, s, g) && ShownAt(site, s, g, f) && f in g.tokens
    ensures s == Loc(s, f, PcOf(site, g.tokens[f].place), [])
  {
    LocSame(s, f);
  }

  /** A token that can move is a fibre that can run. */
  lemma MovableRuns(site: Site, s: State, g: T.Game, f: nat)
    requires Known(site) && Shows(site, s, g) && ShownAt(site, s, g, f) && g.phase.Playing? && f in g.tokens &&
      T.Movable(g.tokens[f])
    ensures Runnable(s, f)
  {
  }

  // ---------------------------------------------------------------- what is simulated

  /** The words of every node stand at its address. */
  ghost predicate Stands(site: Site, p: Program) {
    && Known(site)
    && forall n: nat {:trigger Built(site, n)} :: n < |site.plan.g.nodes| ==>
       Built(site, n) && Placed(p, site.plan.addr[n], site.words[n])
  }

  /** The fibre is at the arity check of a collection that is too long. */
  predicate Overlong(p: Program, s: State, f: nat) {
    && Runnable(s, f) && s.fibers[f].pc < |p| && p[s.fibers[f].pc].MiArityCheck?
    && CollectionLength(s, p[s.fibers[f].pc].collection) > p[s.fibers[f].pc].max
  }

  /** Fibre `f` makes the move of token `f`, or both refuse. */
  ghost predicate Simulates(site: Site, joins: map<nat, nat>, p: Program, s: State, g: T.Game, f: nat)
    requires Known(site) && f in g.tokens
  {
    match T.Advance(site.plan.g, joins, g, f)
    case Then(g') => exists s' :: Runs(p, s, f, s') && Shows(site, s', g')
    case Refusal => Overlong(p, s, f)
  }

  /** By itself fibre `f` gets the machine to a state that shows this game. */
  ghost predicate Makes(site: Site, p: Program, s: State, f: nat, g': T.Game)
    requires Known(site)
  {
    exists s' :: Runs(p, s, f, s') && Shows(site, s', g')
  }

  lemma Made(site: Site, p: Program, s: State, f: nat, s': State, g': T.Game)
    requires Known(site) && Runs(p, s, f, s') && Shows(site, s', g')
    ensures Makes(site, p, s, f, g')
  {
  }

  lemma MakesMove(site: Site, joins: map<nat, nat>, p: Program, s: State, g: T.Game, f: nat, g': T.Game)
    requires Known(site) && f in g.tokens && T.Advance(site.plan.g, joins, g, f) == T.Then(g') &&
      Makes(site, p, s, f, g')
    ensures Simulates(site, joins, p, s, g, f)
  {
  }

  /** A fibre that runs to the address of a running place has moved its token there. */
  lemma MovesTo(site: Site, p: Program, s: State, g: T.Game, f: nat, place: T.Place)
    requires Known(site) && Shows(site, s, g) && ShownAt(site, s, g, f) && f in g.tokens && T.Movable(g.tokens[f])
    requires PlaceOk(site, place) && WaitOf(place).Running?
    requires Runs(p, Loc(s, f, PcOf(site, g.tokens[f].place), []), f, Loc(s, f, PcOf(site, place), []))
    ensures Makes(site, p, s, f, T.Move(g, f, place))
  {
    AtItsPlace(site, s, g, f);
    var s' := Loc(s, f, PcOf(site, place), []);
    ShowsPut(site, s, g, f, g.tokens[f].(place := place), s', T.Move(g, f, place));
    Made(site, p, s, f, s', T.Move(g, f, place));
  }

  /** Token `f` of a game in play stands at `place`, and the machine shows it. */
  ghost predicate Plays(site: Site, p: Program, s: State, g: T.Game, f: nat, place: T.Place) {
    Stands(site, p) && Shows(site, s, g) && ShownAt(site, s, g, f) && g.phase.Playing? && f in g.tokens &&
      g.tokens[f].place == place
  }

  // ---------------------------------------------------------------- tasks, waits and ends

  ghost predicate Linked(site: Site, n: nat, t: nat)
    requires Known(site) && n < |site.plan.g.nodes|
  {
    Successor(site.plan.g, n) == Some(t) && t < |site.plan.g.nodes|
  }

  lemma NextIs(site: Site, n: nat, t: nat)
    requires Known(site) && n < |site.plan.g.nodes| && Linked(site, n, t)
    ensures NextAddr(site.plan, n) == Some(site.plan.addr[t])
  {
  }

  lemma StartWords(site: Site, n: nat, t: nat)
    requires Known(site) && n < |site.plan.g.nodes| && Built(site, n) && Linked(site, n, t)
    requires site.plan.g.nodes[n].Start?
    ensures site.words[n] == [Jump(site.plan.addr[t])]
  {
    NextIs(site, n, t);
  }

  lemma TaskWords(site: Site, n: nat, t: nat)
    requires Known(site) && n < |site.plan.g.nodes| && Built(site, n) && Linked(site, n, t)
    requires (Hosts(site.plan.g.nodes[n]) && !Guarded(site.plan.b, n)) || site.plan.g.nodes[n].SendTask?
    ensures |site.words[n]| == 2 && site.words[n][1] == Jump(site.plan.addr[t])
    ensures site.plan.g.nodes[n].SendTask? ==> site.words[n][0].PublishMessage?
    ensures Hosts(site.plan.g.nodes[n]) ==>
      site.words[n][0].ExecNative? || site.words[n][0].ExecFfi? || site.words[n][0].WaitMsg?
  {
    NextIs(site, n, t);
  }

  lemma TimerIs(site: Site, n: nat, t: nat)
    requires Known(site) && n < |site.plan.g.nodes| && Built(site, n) && Linked(site, n, t)
    requires site.plan.g.nodes[n].TimerWait?
    ensures |site.words[n]| == 3 && site.words[n][0].PushI64? && site.words[n][2] == Jump(site.plan.addr[t])
    ensures site.words[n][1].WaitFor? || site.words[n][1].WaitUntil?
  {
    NextIs(site, n, t);
  }

  lemma FollowAdvance(gr: Graph, joins: map<nat, nat>, g: T.Game, f: nat, n: nat, t: nat)
    requires f in g.tokens && n < |gr.nodes| == |gr.flows| && Successor(gr, n) == Some(t)
    requires (g.tokens[f].place == T.Enter(n) && (gr.nodes[n].Start? || gr.nodes[n].SendTask?)) ||
      g.tokens[f].place == T.Done(n)
    ensures T.Advance(gr, joins, g, f) == T.Then(T.Move(g, f, T.Enter(t)))
  {
  }

  lemma WorkAdvance(gr: Graph, joins: map<nat, nat>, g: T.Game, f: nat, n: nat)
    requires f in g.tokens && n < |gr.nodes| == |gr.flows| && g.tokens[f].place == T.Enter(n)
    requires Hosts(gr.nodes[n]) || gr.nodes[n].TimerWait?
    ensures T.Advance(gr, joins, g, f) == T.Then(T.Move(g, f, T.Working(n)))
  {
  }

  lemma StartSim(site: Site, joins: map<nat, nat>, p: Program, s: State, g: T.Game, f: nat, n: nat, t: nat)
    requires Plays(site, p, s, g, f, T.Enter(n))
    requires n < |site.plan.g.nodes| && site.plan.g.nodes[n].Start? && Linked(site, n, t)
    ensures Simulates(site, joins, p, s, g, f)
  {
    assert Built(site, n);
    StartWords(site, n, t);
    PlacedWord(p, site.plan.addr[n], site.words[n], 0);
    JumpRuns(p, s, f, site.plan.addr[n], []);
    MovesTo(site, p, s, g, f, T.Enter(t));
    FollowAdvance(site.plan.g, joins, g, f, n, t);
    MakesMove(site, joins, p, s, g, f, T.Move(g, f, T.Enter(t)));
  }

  lemma SendSim(site: Site, joins: map<nat, nat>, p: Program, s: State, g: T.Game, f: nat, n: nat, t: nat)
    requires Plays(site, p, s, g, f, T.Enter(n))
    requires n < |site.plan.g.nodes| && site.plan.g.nodes[n].SendTask? && Linked(site, n, t)
    ensures Simulates(site, joins, p, s, g, f)
  {
    assert Built(site, n);
    var a := site.plan.addr[n];
    TaskWords(site, n, t);
    PlacedWord(p, a, site.words[n], 0);
    PlacedWord(p, a, site.words[n], 1);
    PassRuns(p, s, f, a);
    JumpRuns(p, s, f, a + 1, []);
    RunsOn(p, Loc(s, f, a, []), f, Loc(s, f, a + 1, []), Loc(s, f, site.plan.addr[t], []));
    MovesTo(site, p, s, g, f, T.Enter(t));
    FollowAdvance(site.plan.g, joins, g, f, n, t);
    MakesMove(site, joins, p, s, g, f, T.Move(g, f, T.Enter(t)));
  }

  lemma DoneSim(site: Site, joins: map<nat, nat>, p: Program, s: State, g: T.Game, f: nat, n: nat, t: nat)
    requires Plays(site, p, s, g, f, T.Done(n))
    requires n < |site.plan.g.nodes| && Linked(site, n, t) && !Guarded(site.plan.b, n)
    ensures Simulates(site, joins, p, s, g, f)
  {
    assert Built(site, n);
    var node := site.plan.g.nodes[n];
    if node.TimerWait? { TimerIs(site, n, t); } else { TaskWords(site, n, t); }
    var k := BodyAt(node) + 1;
    PlacedWord(p, site.plan.addr[n], site.words[n], k);
    JumpRuns(p, s, f, site.plan.addr[n] + k, []);
    MovesTo(site, p, s, g, f, T.Enter(t));
    FollowAdvance(site.plan.g, joins, g, f, n, t);
    MakesMove(site, joins, p, s, g, f, T.Move(g, f, T.Enter(t)));
  }

  lemma ParkRuns(p: Program, s: State, f: nat)
    requires Runnable(s, f) && s.fibers[f].pc < |p|
    requires p[s.fibers[f].pc].ExecNative? || p[s.fibers[f].pc].ExecFfi? || p[s.fibers[f].pc].WaitMsg?
    ensures Runs(p, s, f, Park(s, f))
  {
    OneWord(p, s, f, Park(s, f));
  }

  lemma TaskMakes(site: Site, p: Program, s: State, g: T.Game, f: nat, n: nat)
    requires Plays(site, p, s, g, f, T.Enter(n)) && n < |site.plan.g.nodes| && Hosts(site.plan.g.nodes[n])
    requires s.fibers[f].pc < |p|
    requires p[s.fibers[f].pc].ExecNative? || p[s.fibers[f].pc].ExecFfi? || p[s.fibers[f].pc].WaitMsg?
    ensures Makes(site, p, s, f, T.Move(g, f, T.Working(n)))
  {
    ParkRuns(p, s, f);
    ShowsPut(site, s, g, f, g.tokens[f].(place := T.Working(n)), Park(s, f), T.Move(g, f, T.Working(n)));
    Made(site, p, s, f, Park(s, f), T.Move(g, f, T.Working(n)));
  }

  lemma TaskSim(site: Site, joins: map<nat, nat>, p: Program, s: State, g: T.Game, f: nat, n: nat, t: nat)
    requires Plays(site, p, s, g, f, T.Enter(n))
    requires n < |site.plan.g.nodes| && Hosts(site.plan.g.nodes[n]) && Linked(site, n, t) && !Guarded(site.plan.b, n)
    ensures Simulates(site, joins, p, s, g, f)
  {
    assert Built(site, n);
    TaskWords(site, n, t);
    PlacedWord(p, site.plan.addr[n], site.words[n], 0);
    TaskMakes(site, p, s, g, f, n);
    WorkAdvance(site.plan.g, joins, g, f, n);
    MakesMove(site, joins, p, s, g, f, T.Move(g, f, T.Working(n)));
  }

  lemma TimerParks(p: Program, s: State, f: nat, a: nat)
    requires Runnable(s, f) && a + 1 < |p| && p[a].PushI64? && (p[a + 1].WaitFor? || p[a + 1].WaitUntil?)
    ensures Runs(p, Loc(s, f, a, []), f, Put(s, f, s.fibers[f].(pc := a + 1, stack := [], wait := Parked)))
  {
    var v := I64(p[a].value);
    var s' := Put(s, f, s.fibers[f].(pc := a + 1, stack := [], wait := Parked));
    PushRuns(p, s, f, a);
    var m := Loc(s, f, a + 1, [v]);
    assert [v][..0] == [];
    assert PopAndPark(m, f) == Ok(s') by { assert PopAndPark(m, f).state.fibers == s'.fibers; }
    OneWord(p, m, f, s');
    RunsOn(p, Loc(s, f, a, []), f, m, s');
  }

  lemma TimerSim(site: Site, joins: map<nat, nat>, p: Program, s: State, g: T.Game, f: nat, n: nat, t: nat)
    requires Plays(site, p, s, g, f, T.Enter(n))
    requires n < |site.plan.g.nodes| && site.plan.g.nodes[n].TimerWait? && Linked(site, n, t)
    ensures Simulates(site, joins, p, s, g, f)
  {
    assert Built(site, n);
    var a := site.plan.addr[n];
    TimerIs(site, n, t);
    PlacedWord(p, a, site.words[n], 0);
    PlacedWord(p, a, site.words[n], 1);
    TimerParks(p, s, f, a);
    AtItsPlace(site, s, g, f);
    var g' := T.Move(g, f, T.Working(n));
    var s' := Put(s, f, s.fibers[f].(pc := a + 1, stack := [], wait := Parked));
    ShowsPut(site, s, g, f, g.tokens[f].(place := T.Working(n)), s', g');
    Made(site, p, s, f, s', g');
    WorkAdvance(site.plan.g, joins, g, f, n);
    MakesMove(site, joins, p, s, g, f, g');
  }

  /** The game that an end event leaves. */
  function Ending(gr: Graph, g: T.Game, f: nat, n: nat): T.Game
    requires n < |gr.nodes| && gr.nodes[n].EndEvent?
  {
    if gr.nodes[n].terminate then g.(tokens := map[], phase := T.Stopped) else T.Remove(g, f)
  }

  lemma EndAdvance(gr: Graph, joins: map<nat, nat>, g: T.Game, f: nat, n: nat)
    requires f in g.tokens && n < |gr.nodes| == |gr.flows| && g.tokens[f].place == T.Enter(n) && gr.nodes[n].EndEvent?
    ensures T.Advance(gr, joins, g, f) == T.Then(Ending(gr, g, f, n))
  {
  }

  lemma EndShows(site: Site, s: State, g: T.Game, f: nat, n: nat)
    requires Known(site) && Shows(site, s, g) && g.phase.Playing? && n < |site.plan.g.nodes| &&
      site.plan.g.nodes[n].EndEvent?
    ensures Shows(site, if site.plan.g.nodes[n].terminate then TerminateState(s) else EndState(s, f),
      Ending(site.plan.g, g, f, n))
  {
    var s' := if site.plan.g.nodes[n].terminate then TerminateState(s) else EndState(s, f);
    var g' := Ending(site.plan.g, g, f, n);
    assert s.fibers - {f} == map[] <==> g.tokens - {f} == map[] by {
      assert (s.fibers - {f}).Keys == (g.tokens - {f}).Keys;
    }
    forall x ensures ShownAt(site, s', g', x) { assert ShownAt(site, s, g, x); }
  }

  lemma EndSim(site: Site, joins: map<nat, nat>, p: Program, s: State, g: T.Game, f: nat, n: nat)
    requires Plays(site, p, s, g, f, T.Enter(n))
    requires n < |site.plan.g.nodes| && site.plan.g.nodes[n].EndEvent? && n !in site.plan.b.closes
    ensures Simulates(site, joins, p, s, g, f)
  {
    assert Built(site, n);
    PlacedWord(p, site.plan.addr[n], site.words[n], 0);
    var s' := if site.plan.g.nodes[n].terminate then TerminateState(s) else EndState(s, f);
    ExecIs(p, s, f);
    OneWord(p, s, f, s');
    EndShows(site, s, g, f, n);
    EndAdvance(site.plan.g, joins, g, f, n);
    Made(site, p, s, f, s', Ending(site.plan.g, g, f, n));
    MakesMove(site, joins, p, s, g, f, Ending(site.plan.g, g, f, n));
  }

  // ---------------------------------------------------------------- gateways that send tokens on

  lemma XorAdvance(gr: Graph, joins: map<nat, nat>, g: T.Game, f: nat, n: nat)
    requires f in g.tokens && n < |gr.nodes| == |gr.flows| && g.tokens[f].place == T.Enter(n)
    requires gr.nodes[n].GatewayXor? && T.Chosen(gr.flows[n], g.flags).Some?
    ensures T.Advance(gr, joins, g, f) ==
      T.Then(T.Move(g, f, T.Enter(gr.flows[n][T.Chosen(gr.flows[n], g.flags).value].target)))
  {
  }

  lemma XorSim(site: Site, joins: map<nat, nat>, p: Program, s: State, g: T.Game, f: nat, n: nat)
    requires Plays(site, p, s, g, f, T.Enter(n))
    requires n < |site.plan.g.nodes| && site.plan.g.nodes[n].GatewayXor? && WellFormed(site.plan.g)
    requires DefaultFlow(site.plan.g.flows[n], |site.plan.g.flows[n]|).Some?
    ensures Simulates(site, joins, p, s, g, f)
  {
    assert Built(site, n);
    var flows := site.plan.g.flows[n];
    XorRuns(site.plan, p, s, f, site.plan.addr[n], flows);
    var t := flows[T.Chosen(flows, s.flags).value].target;
    assert Land(site.plan, flows[T.Chosen(flows, s.flags).value]) == site.plan.addr[t];
    MovesTo(site, p, s, g, f, T.Enter(t));
    XorAdvance(site.plan.g, joins, g, f, n);
    MakesMove(site, joins, p, s, g, f, T.Move(g, f, T.Enter(t)));
  }

  lemma ForkAnywhere(s: State, f: nat, a: nat, targets: seq<nat>)
    requires f in s.fibers
    ensures ForkState(Loc(s, f, a, []), f, targets) == ForkState(s, f, targets)
  {
    assert Loc(s, f, a, []).fibers - {f} == s.fibers - {f};
    assert ForkState(Loc(s, f, a, []), f, targets).table == ForkState(s, f, targets).table;
  }

  lemma ForkRuns(p: Program, s: State, f: nat, a: nat)
    requires Runnable(s, f) && a < |p| && p[a].Fork?
    ensures Runs(p, Loc(s, f, a, []), f, ForkState(s, f, p[a].targets))
  {
    ForkAnywhere(s, f, a, p[a].targets);
    ExecIs(p, Loc(s, f, a, []), f);
    OneWord(p, Loc(s, f, a, []), f, ForkState(s, f, p[a].targets));
  }

  /** New fibres start at the addresses of new tokens. */
  ghost predicate Starts(site: Site, targets: seq<nat>, places: seq<T.Place>)
    requires Known(site)
  {
    && |targets| == |places|
    && forall i :: 0 <= i < |places| ==>
       PlaceOk(site, places[i]) && WaitOf(places[i]).Running? && targets[i] == PcOf(site, places[i])
  }

  /** Each new fibre is at the place of the new token with its number. */
  ghost predicate Spawned(site: Site, kids: map<nat, Fiber>, tokens: map<nat, T.Marker>)
    requires Known(site)
  {
    kids.Keys == tokens.Keys && forall x :: x in tokens ==>
      PlaceOk(site, tokens[x].place) && kids[x] == FiberOf(site, tokens[x])
  }

  lemma SpawnedFrom(site: Site, targets: seq<nat>, places: seq<T.Place>, scopes: seq<nat>, h: nat,
                    kids: map<nat, Fiber>, tokens: map<nat, T.Marker>)
    requires Known(site) && Starts(site, targets, places)
    requires KidsAre(kids, targets, scopes, h) && TokensAre(tokens, places, scopes, h)
    ensures Spawned(site, kids, tokens)
  {
    forall x | x in tokens ensures PlaceOk(site, tokens[x].place) && kids[x] == FiberOf(site, tokens[x]) {
      var i := x - h - 1;
      assert PlaceOk(site, places[i]) && targets[i] == PcOf(site, places[i]);
    }
  }

  ghost predicate KidsAre(kids: map<nat, Fiber>, targets: seq<nat>, scopes: seq<nat>, h: nat) {
    && (forall x: nat :: x in kids <==> h < x <= h + |targets|)
    && forall x :: x in kids ==> kids[x] == Fiber(targets[x - h - 1], [], scopes + [h], Running)
  }

  ghost predicate TokensAre(tokens: map<nat, T.Marker>, places: seq<T.Place>, scopes: seq<nat>, h: nat) {
    && (forall x: nat :: x in tokens <==> h < x <= h + |places|)
    && forall x :: x in tokens ==> tokens[x] == T.Marker(places[x - h - 1], scopes + [h])
  }

  lemma ChildrenAre(targets: seq<nat>, scopes: seq<nat>, h: nat)
    ensures KidsAre(Children(targets, scopes, h, |targets|), targets, scopes, h)
  {
  }

  lemma SpawnIs(places: seq<T.Place>, scopes: seq<nat>, h: nat)
    ensures TokensAre(T.Spawn(places, scopes, h, |places|), places, scopes, h)
  {
  }

  lemma AllSpawned(site: Site, targets: seq<nat>, places: seq<T.Place>, scopes: seq<nat>, h: nat)
    requires Known(site) && Starts(site, targets, places)
    ensures Spawned(site, Children(targets, scopes, h, |targets|), T.Spawn(places, scopes, h, |places|))
  {
    ChildrenAre(targets, scopes, h);
    SpawnIs(places, scopes, h);
    SpawnedFrom(site, targets, places, scopes, h, Children(targets, scopes, h, |targets|),
      T.Spawn(places, scopes, h, |places|));
  }

  /** One fibre makes way for new ones, as its token does. */
  lemma SpawnShows(site: Site, s: State, g: T.Game, f: nat, kids: map<nat, Fiber>, tokens: map<nat, T.Marker>,
                   s': State, g': T.Game)
    requires Known(site) && Shows(site, s, g) && Spawned(site, kids, tokens)
    requires s'.fibers == (s.fibers - {f}) + kids && g'.tokens == (g.tokens - {f}) + tokens
    requires s'.flags == g'.flags && s'.nextId == g'.nextId && Matches(s'.status, g'.phase)
    ensures Shows(site, s', g')
  {
    forall x ensures ShownAt(site, s', g', x) { assert ShownAt(site, s, g, x); }
    assert s'.fibers.Keys == s.fibers.Keys - {f} + kids.Keys && g'.tokens.Keys == g.tokens.Keys - {f} + tokens.Keys;
  }

  /** New fibres at the addresses of new tokens show the split. */
  lemma {:induction false} SplitShows(site: Site, s: State, g: T.Game, f: nat, targets: seq<nat>, places: seq<T.Place>)
    requires Known(site) && Shows(site, s, g) && ShownAt(site, s, g, f) && f in g.tokens &&
      Starts(site, targets, places)
    ensures Shows(site, ForkState(s, f, targets), T.Split(g, f, places))
  {
    AllSpawned(site, targets, places, g.tokens[f].scopes, g.nextId);
    SpawnShows(site, s, g, f, Children(targets, g.tokens[f].scopes, g.nextId, |targets|),
               T.Spawn(places, g.tokens[f].scopes, g.nextId, |places|), ForkState(s, f, targets),
                 T.Split(g, f, places));
  }

  lemma AndForkWord(site: Site, p: Program, n: nat)
    requires Stands(site, p) && n < |site.plan.g.nodes| && site.plan.g.nodes[n] == GatewayAnd(Diverging) &&
      WellFormed(site.plan.g)
    ensures site.plan.addr[n] < |p| && p[site.plan.addr[n]].Fork?
    ensures Starts(site, p[site.plan.addr[n]].targets, T.EnterPlaces(site.plan.g.flows[n]))
  {
    assert Built(site, n);
    PlacedWord(p, site.plan.addr[n], site.words[n], 0);
    var flows, targets := site.plan.g.flows[n], p[site.plan.addr[n]].targets;
    forall i | 0 <= i < |flows| ensures targets[i] == site.plan.addr[flows[i].target] {
      assert targets[i] == Land(site.plan, flows[i]);
    }
  }

  lemma ForkAdvance(gr: Graph, joins: map<nat, nat>, g: T.Game, f: nat, n: nat)
    requires f in g.tokens && n < |gr.nodes| == |gr.flows| && g.tokens[f].place == T.Enter(n)
    requires gr.nodes[n] == GatewayAnd(Diverging)
    ensures T.Advance(gr, joins, g, f) == T.Then(T.Split(g, f, T.EnterPlaces(gr.flows[n])))
  {
  }

  lemma AndForkSim(site: Site, joins: map<nat, nat>, p: Program, s: State, g: T.Game, f: nat, n: nat)
    requires Plays(site, p, s, g, f, T.Enter(n))
    requires n < |site.plan.g.nodes| && site.plan.g.nodes[n] == GatewayAnd(Diverging) && WellFormed(site.plan.g)
    ensures Simulates(site, joins, p, s, g, f)
  {
    var a, places := site.plan.addr[n], T.EnterPlaces(site.plan.g.flows[n]);
    AndForkWord(site, p, n);
    AtItsPlace(site, s, g, f);
    ForkRuns(p, s, f, a);
    SplitShows(site, s, g, f, p[a].targets, places);
    Made(site, p, s, f, ForkState(s, f, p[a].targets), T.Split(g, f, places));
    ForkAdvance(site.plan.g, joins, g, f, n);
    MakesMove(site, joins, p, s, g, f, T.Split(g, f, places));
  }

  // ---------------------------------------------------------------- inclusive gateways

  /** The pieces of an inclusive fork's words. */
  lemma InclusiveStands(site: Site, p: Program, n: nat, fork: nat)
    requires Stands(site, p) && n < |site.plan.g.nodes| && site.plan.g.nodes[n] == GatewayInclusive(Diverging) &&
      n in site.plan.joinOf
    requires WellFormed(site.plan.g) && fork == site.plan.addr[n] + PrecheckRoom(site.plan.g.flows[n])
    ensures var flows := site.plan.g.flows[n];
      && Placed(p, site.plan.addr[n], PrecheckBlock(flows, fork)) && fork < |p|
      && p[fork] == Fork(HeaderAddrs(flows, fork), fork)
      && Placed(p, fork + 1, Flatten(Headers(site.plan, flows, site.plan.joinOf[n])))
  {
    assert Built(site, n);
    var flows := site.plan.g.flows[n];
    InclusiveWords(site, n, fork);
    InclusivePieces(site.plan, p, site.plan.addr[n], flows, site.plan.joinOf[n], fork);
  }

  lemma {:induction false} PrecheckStands(p: Program, base: nat, flows: seq<Flow>, fork: nat)
    requires Placed(p, base, PrecheckBlock(flows, fork)) && !AlwaysLive(flows)
    ensures Placed(p, base, Flatten(Prechecks(flows, fork))) && |Flatten(Prechecks(flows, fork))| == 2 * |flows|
    ensures base + 2 * |flows| < |p| && p[base + 2 * |flows|].RouteZeroMatch?
  {
    PrecheckFits(flows, fork);
    ThreePieces(p, base, Flatten(Prechecks(flows, fork)), RouteZeroMatch, []);
    assert Flatten(Prechecks(flows, fork)) + [RouteZeroMatch] + [] == PrecheckBlock(flows, fork);
  }

  /** The checks lead to the fork exactly when some branch is live. */
  lemma {:induction false} PrecheckRuns(p: Program, s: State, f: nat, base: nat, flows: seq<Flow>, fork: nat)
    requires Runnable(s, f) && Placed(p, base, PrecheckBlock(flows, fork)) && !AlwaysLive(flows) && flows != []
    ensures Runs(p, Loc(s, f, base, []), f, Loc(s, f, if SomeLive(flows, s.flags, 0) then fork else base + 2 * |flows|,
      []))
    ensures base + 2 * |flows| < |p| && p[base + 2 * |flows|].RouteZeroMatch?
  {
    PrecheckStands(p, base, flows, fork);
    assert Prechecks(flows, fork)[..0] == [];
    ChecksRun(p, s, f, base, flows, fork, 0);
  }

  lemma StallRuns(p: Program, s: State, f: nat, a: nat)
    requires Runnable(s, f) && a < |p| && p[a].RouteZeroMatch?
    ensures Runs(p, Loc(s, f, a, []), f,
                 Put(s, f, s.fibers[f].(pc := a, stack := [], wait := OnIncident)).(status := Incidented))
  {
    var s' := Put(s, f, s.fibers[f].(pc := a, stack := [], wait := OnIncident)).(status := Incidented);
    var m := Loc(s, f, a, []);
    assert Put(m, f, m.fibers[f].(wait := OnIncident)).fibers == s'.fibers;
    OneWord(p, m, f, s');
  }

  lemma {:induction false} HeadersStart(site: Site, n: nat, fork: nat)
    requires Known(site) && n < |site.plan.g.nodes| && site.plan.g.nodes[n] == GatewayInclusive(Diverging)
    requires fork == site.plan.addr[n] + PrecheckRoom(site.plan.g.flows[n])
    ensures Starts(site, HeaderAddrs(site.plan.g.flows[n], fork), T.BranchPlaces(n, |site.plan.g.flows[n]|))
  {
    forall i | 0 <= i < |site.plan.g.flows[n]|
      ensures PcOf(site, T.Branch(n, i)) == HeaderAddr(site.plan.g.flows[n], fork, i) {}
  }

  /** From the fork word the tokens of all branches appear. */
  lemma {:induction false} InclusiveSplits(site: Site, p: Program, s: State, g: T.Game, f: nat, n: nat, fork: nat)
    requires Known(site) && Shows(site, s, g) && ShownAt(site, s, g, f) && g.phase.Playing? && f in g.tokens &&
      g.tokens[f].place == T.Enter(n)
    requires n < |site.plan.g.nodes| && site.plan.g.nodes[n] == GatewayInclusive(Diverging)
    requires fork == site.plan.addr[n] + PrecheckRoom(site.plan.g.flows[n]) && fork < |p|
    requires p[fork] == Fork(HeaderAddrs(site.plan.g.flows[n], fork), fork)
    ensures Runs(p, Loc(s, f, fork, []), f, ForkState(s, f, p[fork].targets))
    ensures Shows(site, ForkState(s, f, p[fork].targets), T.Split(g, f, T.BranchPlaces(n, |site.plan.g.flows[n]|)))
  {
    ForkRuns(p, s, f, fork);
    HeadersStart(site, n, fork);
    SplitShows(site, s, g, f, HeaderAddrs(site.plan.g.flows[n], fork), T.BranchPlaces(n, |site.plan.g.flows[n]|));
  }

  /** With a live branch the fibre gets to the fork, without one it stalls. */
  lemma {:induction false} InclusiveChoice(p: Program, s: State, f: nat, base: nat, flows: seq<Flow>, fork: nat)
    requires Runnable(s, f) && Placed(p, base, PrecheckBlock(flows, fork)) && fork == base + PrecheckRoom(flows) &&
      flows != []
    ensures SomeLive(flows, s.flags, 0) ==> fork == base || Runs(p, Loc(s, f, base, []), f, Loc(s, f, fork, []))
    ensures !SomeLive(flows, s.flags, 0) ==>
      && base + 2 * |flows| < |p| && p[base + 2 * |flows|].RouteZeroMatch?
      && Runs(p, Loc(s, f, base, []), f, Loc(s, f, base + 2 * |flows|, []))
  {
    if AlwaysLive(flows) {
      var i :| 0 <= i < |flows| && flows[i].condition.None?;
      assert T.Live(flows[i], s.flags);
    } else {
      PrecheckRuns(p, s, f, base, flows, fork);
    }
  }

  lemma {:induction false} LiveMakes(site: Site, p: Program, s: State, g: T.Game, f: nat, n: nat, fork: nat)
    requires Plays(site, p, s, g, f, T.Enter(n))
    requires n < |site.plan.g.nodes| && site.plan.g.nodes[n] == GatewayInclusive(Diverging)
    requires fork == site.plan.addr[n] + PrecheckRoom(site.plan.g.flows[n]) && fork < |p|
    requires p[fork] == Fork(HeaderAddrs(site.plan.g.flows[n], fork), fork)
    requires fork == site.plan.addr[n] || Runs(p, Loc(s, f, site.plan.addr[n], []), f, Loc(s, f, fork, []))
    ensures Makes(site, p, s, f, T.Split(g, f, T.BranchPlaces(n, |site.plan.g.flows[n]|)))
  {
    AtItsPlace(site, s, g, f);
    InclusiveSplits(site, p, s, g, f, n, fork);
    var s' := ForkState(s, f, p[fork].targets);
    if fork != site.plan.addr[n] { RunsOn(p, s, f, Loc(s, f, fork, []), s'); }
    Made(site, p, s, f, s', T.Split(g, f, T.BranchPlaces(n, |site.plan.g.flows[n]|)));
  }

  lemma StallShows(site: Site, s: State, g: T.Game, f: nat, n: nat, a: nat, s': State)
    requires Known(site) && Shows(site, s, g) && ShownAt(site, s, g, f) && f in g.tokens &&
      g.tokens[f].place == T.Enter(n)
    requires n < |site.plan.g.nodes| && a == site.plan.addr[n] + 2 * |site.plan.g.flows[n]|
    requires s' == Put(s, f, s.fibers[f].(pc := a, stack := [], wait := OnIncident)).(status := Incidented)
    ensures Shows(site, s', T.Move(g, f, T.Stalled(n)).(phase := T.Halted))
  {
    ShowsPut(site, s, g, f, g.tokens[f].(place := T.Stalled(n)), s', T.Move(g, f, T.Stalled(n)).(phase := T.Halted));
  }

  lemma StallMakes(site: Site, p: Program, s: State, g: T.Game, f: nat, n: nat, a: nat)
    requires Plays(site, p, s, g, f, T.Enter(n)) && n < |site.plan.g.nodes|
    requires a == site.plan.addr[n] + 2 * |site.plan.g.flows[n]| && a < |p| && p[a].RouteZeroMatch?
    requires Runs(p, Loc(s, f, site.plan.addr[n], []), f, Loc(s, f, a, []))
    ensures Makes(site, p, s, f, T.Move(g, f, T.Stalled(n)).(phase := T.Halted))
  {
    var s' := Put(s, f, s.fibers[f].(pc := a, stack := [], wait := OnIncident)).(status := Incidented);
    AtItsPlace(site, s, g, f);
    StallRuns(p, s, f, a);
    RunsOn(p, s, f, Loc(s, f, a, []), s');
    StallShows(site, s, g, f, n, a, s');
    Made(site, p, s, f, s', T.Move(g, f, T.Stalled(n)).(phase := T.Halted));
  }

  lemma InclusiveAdvance(gr: Graph, joins: map<nat, nat>, g: T.Game, f: nat, n: nat)
    requires f in g.tokens && n < |gr.nodes| == |gr.flows| && g.tokens[f].place == T.Enter(n)
    requires gr.nodes[n] == GatewayInclusive(Diverging)
    ensures SomeLive(gr.flows[n], g.flags, 0) ==>
      T.Advance(gr, joins, g, f) == T.Then(T.Split(g, f, T.BranchPlaces(n, |gr.flows[n]|)))
    ensures !SomeLive(gr.flows[n], g.flags, 0) ==>
      T.Advance(gr, joins, g, f) == T.Then(T.Move(g, f, T.Stalled(n)).(phase := T.Halted))
  {
  }

  /** The fibre at an inclusive fork splits or stalls as its token does. */
  lemma {:induction false} InclusiveMakes(site: Site, p: Program, s: State, g: T.Game, f: nat, n: nat)
    requires Plays(site, p, s, g, f, T.Enter(n))
    requires n < |site.plan.g.nodes| && site.plan.g.nodes[n] == GatewayInclusive(Diverging) && n in site.plan.joinOf
    requires WellFormed(site.plan.g) && site.plan.g.flows[n] != []
    ensures Makes(site, p, s, f, if SomeLive(site.plan.g.flows[n], g.flags, 0)
                                 then T.Split(g, f, T.BranchPlaces(n, |site.plan.g.flows[n]|))
                                 else T.Move(g, f, T.Stalled(n)).(phase := T.Halted))
  {
    var base, flows := site.plan.addr[n], site.plan.g.flows[n];
    var fork := base + PrecheckRoom(flows);
    InclusiveStands(site, p, n, fork);
    InclusiveChoice(p, s, f, base, flows, fork);
    if SomeLive(flows, s.flags, 0) { LiveMakes(site, p, s, g, f, n, fork); }
      else { StallMakes(site, p, s, g, f, n, base + 2 * |flows|); }
  }

  lemma {:induction false} InclusiveSim(site: Site, joins: map<nat, nat>, p: Program, s: State, g: T.Game, f: nat,
                                        n: nat)
    requires Plays(site, p, s, g, f, T.Enter(n))
    requires n < |site.plan.g.nodes| && site.plan.g.nodes[n] == GatewayInclusive(Diverging) && n in site.plan.joinOf
    requires WellFormed(site.plan.g) && site.plan.g.flows[n] != []
    ensures Simulates(site, joins, p, s, g, f)
  {
    InclusiveMakes(site, p, s, g, f, n);
    InclusiveAdvance(site.plan.g, joins, g, f, n);
    MakesMove(site, joins, p, s, g, f, T.Advance(site.plan.g, joins, g, f).game);
  }

  /** A branch header goes to its branch when the branch is live, else straight to the join. */
  lemma HeaderRuns(pl: Plan, p: Program, s: State, f: nat, a: nat, flow: Flow, join: nat)
    requires Runnable(s, f) && Placed(p, a, Header(pl, flow, join))
    ensures Runs(p, Loc(s, f, a, []), f, Loc(s, f, if T.Live(flow, s.flags) then Land(pl, flow) else join, []))
  {
    PlacedWord(p, a, Header(pl, flow, join), 0);
    if flow.condition.None? {
      JumpRuns(p, s, f, a, []);
    } else {
      PlacedWord(p, a, Header(pl, flow, join), 1);
      PlacedWord(p, a, Header(pl, flow, join), 2);
      var v := Flag(s, flow.condition.value.flag);
      LoadRuns(p, s, f, a);
      BranchRuns(p, s, f, a + 1, v);
      RunsOn(p, Loc(s, f, a, []), f, Loc(s, f, a + 1, [v]), Loc(s, f, if Truthy(v) then a + 2 else join, []));
      if Truthy(v) {
        JumpRuns(p, s, f, a + 2, []);
        RunsOn(p, Loc(s, f, a, []), f, Loc(s, f, a + 2, []), Loc(s, f, Land(pl, flow), []));
      }
    }
  }

  lemma HeaderInside(pl: Plan, p: Program, flows: seq<Flow>, join: nat, fork: nat, i: nat)
    requires Placed(p, fork + 1, Flatten(Headers(pl, flows, join))) && i < |flows|
    ensures Placed(p, HeaderAddr(flows, fork, i), Header(pl, flows[i], join))
  {
    var heads := Headers(pl, flows, join);
    HeaderOffset(pl, flows, join, i);
    FlattenAt(heads, i);
    PlacedInside(p, fork + 1, Flatten(heads), Offset(heads, i), heads[i]);
  }

  lemma HeaderStands(site: Site, p: Program, n: nat, i: nat, fork: nat)
    requires Stands(site, p) && n < |site.plan.g.nodes| && site.plan.g.nodes[n] == GatewayInclusive(Diverging)
    requires n in site.plan.joinOf && WellFormed(site.plan.g) && i < |site.plan.g.flows[n]|
    requires fork == site.plan.addr[n] + PrecheckRoom(site.plan.g.flows[n])
    ensures Placed(p, HeaderAddr(site.plan.g.flows[n], fork, i), Header(site.plan, site.plan.g.flows[n][i],
      site.plan.joinOf[n]))
  {
    InclusiveStands(site, p, n, fork);
    HeaderInside(site.plan, p, site.plan.g.flows[n], site.plan.joinOf[n], fork, i);
  }

  lemma BranchAdvance(gr: Graph, joins: map<nat, nat>, g: T.Game, f: nat, n: nat, i: nat)
    requires f in g.tokens && n < |gr.nodes| == |gr.flows| && g.tokens[f].place == T.Branch(n, i) &&
      i < |gr.flows[n]| && n in joins
    ensures T.Advance(gr, joins, g, f) ==
      T.Then(T.Move(g, f, T.Enter(if T.Live(gr.flows[n][i], g.flags) then gr.flows[n][i].target else joins[n])))
  {
  }

  lemma BranchSim(site: Site, joins: map<nat, nat>, p: Program, s: State, g: T.Game, f: nat, n: nat, i: nat)
    requires Plays(site, p, s, g, f, T.Branch(n, i))
    requires n < |site.plan.g.nodes| && n in site.plan.joinOf && n in joins && joins[n] < |site.plan.g.nodes|
    requires WellFormed(site.plan.g) && site.plan.joinOf[n] == site.plan.addr[joins[n]]
    ensures Simulates(site, joins, p, s, g, f)
  {
    var flow, fork := site.plan.g.flows[n][i], site.plan.addr[n] + PrecheckRoom(site.plan.g.flows[n]);
    HeaderStands(site, p, n, i, fork);
    HeaderRuns(site.plan, p, s, f, HeaderAddr(site.plan.g.flows[n], fork, i), flow, site.plan.joinOf[n]);
    MovesTo(site, p, s, g, f, T.Enter(if T.Live(flow, g.flags) then flow.target else joins[n]));
    BranchAdvance(site.plan.g, joins, g, f, n, i);
    MakesMove(site, joins, p, s, g, f, T.Move(g, f, T.Enter(if T.Live(flow, g.flags) then flow.target else joins[n])));
  }

  // ---------------------------------------------------------------- joins

  lemma SameInside(site: Site, s: State, g: T.Game, x: nat)
    requires Known(site) && Shows(site, s, g) && x in g.tokens
    ensures Inside(s.fibers[x]) == T.Inside(g.tokens[x])
    ensures forall h :: s.fibers[x].wait == AtBarrier(h) <==>
      g.tokens[x].place.Arrived? && g.tokens[x].place.instance == h
  {
    assert ShownAt(site, s, g, x);
  }

  /** The machine and the game agree on whether everyone has come. */
  lemma SameMeeting(site: Site, s: State, g: T.Game, f: nat, h: nat)
    requires Known(site) && Shows(site, s, g) && f in g.tokens
    ensures OthersWait(s, f, h) <==>
      forall x :: x in T.Others(g, f, h) ==> g.tokens[x].place.Arrived? && g.tokens[x].place.instance == h
    ensures forall x :: x in T.Others(g, f, h) <==> x in s.fibers && x != f && h in Inside(s.fibers[x])
  {
    forall x | x in g.tokens ensures Inside(s.fibers[x]) == T.Inside(g.tokens[x]) { SameInside(site, s, g, x); }
    forall x | x in g.tokens
      ensures s.fibers[x].wait == AtBarrier(h) <==> g.tokens[x].place.Arrived? && g.tokens[x].place.instance == h
    {
      SameInside(site, s, g, x);
    }
  }

  lemma JoinExec(p: Program, s: State, f: nat, h: nat)
    requires Runnable(s, f) && s.fibers[f].pc < |p| && p[s.fibers[f].pc].Join? && |s.fibers[f].control| > 0
    requires h == s.fibers[f].control[|s.fibers[f].control| - 1] && h in s.table
    ensures Runs(p, s, f, if s.table[h].count <= 1 then ReleaseState(s, f, h) else ArriveState(s, f, h))
  {
    ExecIs(p, s, f);
    OneWord(p, s, f, if s.table[h].count <= 1 then ReleaseState(s, f, h) else ArriveState(s, f, h));
  }

  lemma ArriveShows(site: Site, s: State, g: T.Game, f: nat, n: nat, h: nat)
    requires Known(site) && Shows(site, s, g) && ShownAt(site, s, g, f) && g.phase.Playing? && f in g.tokens &&
      n < |site.plan.g.nodes|
    requires PcOf(site, g.tokens[f].place) == GatherAt(site, n) && |g.tokens[f].scopes| > 0
    requires h == g.tokens[f].scopes[|g.tokens[f].scopes| - 1] && h in s.table && s.table[h].count > 0
    ensures Shows(site, ArriveState(s, f, h),
      T.Put(g, f, T.Marker(T.Arrived(n, h), g.tokens[f].scopes[..|g.tokens[f].scopes| - 1])))
  {
    var m := T.Marker(T.Arrived(n, h), g.tokens[f].scopes[..|g.tokens[f].scopes| - 1]);
    ShowsPut(site, s, g, f, m, ArriveState(s, f, h), T.Put(g, f, m));
  }

  /** Past the join, the remaining fibre follows the flow. */
  lemma ReleaseRuns(p: Program, s: State, f: nat, h: nat, next: nat)
    requires Runnable(s, f) && |s.fibers[f].control| > 0 && h in s.table && s.fibers[f].pc + 1 < |p|
    requires p[s.fibers[f].pc + 1] == Jump(next)
    ensures Runs(p, ReleaseState(s, f, h), f, Goto(ReleaseState(s, f, h), f, next))
  {
    var t := ReleaseState(s, f, h);
    OneWord(p, t, f, Goto(t, f, next));
  }

  lemma ReleaseShows(site: Site, s: State, g: T.Game, f: nat, h: nat, t: nat)
    requires Known(site) && Shows(site, s, g) && ShownAt(site, s, g, f) && g.phase.Playing? && f in g.tokens &&
      t < |site.plan.g.nodes|
    requires T.Movable(g.tokens[f]) && |g.tokens[f].scopes| > 0 && h in s.table
    requires s.table[h].members - {f} == T.Others(g, f, h)
    ensures Shows(site, Goto(ReleaseState(s, f, h), f, site.plan.addr[t]),
                  g.(tokens := (g.tokens - T.Others(g, f, h))[f := T.Marker(T.Enter(t),
                    g.tokens[f].scopes[..|g.tokens[f].scopes| - 1])]))
  {
    var s' := Goto(ReleaseState(s, f, h), f, site.plan.addr[t]);
    var m := T.Marker(T.Enter(t), g.tokens[f].scopes[..|g.tokens[f].scopes| - 1]);
    var g' := g.(tokens := (g.tokens - T.Others(g, f, h))[f := m]);
    forall x ensures ShownAt(site, s', g', x) { assert ShownAt(site, s, g, x); }
  }

  /** A fibre at a join word, with the jump to `t` behind it. */
  ghost predicate AtJoin(site: Site, p: Program, g: T.Game, f: nat, n: nat, t: nat)
    requires Known(site) && f in g.tokens && PlaceOk(site, g.tokens[f].place)
  {
    var a := PcOf(site, g.tokens[f].place);
    && n < |site.plan.g.nodes| && t < |site.plan.g.nodes| && a == GatherAt(site, n)
    && a + 1 < |p| && p[a].Join? && p[a + 1] == Jump(site.plan.addr[t])
  }

  lemma BarrierKind(s: State, hi: History, h: nat)
    requires h in s.table && h in hi && Counted(s, hi, h) && hi[h].token.kind.BarrierScope?
    ensures s.table[h].kind.Barrier?
  {
  }

  /** At a join word the top handle is an open barrier, and the fibre runs on its slot. */
  lemma JoinScope(p: Program, e: map<nat, Scopes>, s: State, hi: History, f: nat) returns (h: nat)
    requires Certificate(p, e) && KernelInvariant.Shape(s, hi) && Typed(p, e, s, hi) && Counts(s, hi) && Runnable(s, f)
    requires s.fibers[f].pc in e && s.fibers[f].pc < |p| && p[s.fibers[f].pc].Join?
    ensures |s.fibers[f].control| > 0 && h == s.fibers[f].control[|s.fibers[f].control| - 1]
    ensures Armed(s, h) && h in hi && s.fibers[f].control == Slot(hi, h) && s.table[h].kind.Barrier?
  {
    h := TopScope(p, e, s, hi, f);
    JoinToken(p, e, s.fibers[f].pc);
    BarrierKind(s, hi, h);
  }

  lemma LastRuns(site: Site, p: Program, s: State, g: T.Game, f: nat, n: nat, t: nat, h: nat)
    requires Known(site) && Shows(site, s, g) && ShownAt(site, s, g, f) && g.phase.Playing? && f in g.tokens &&
      T.Movable(g.tokens[f])
    requires AtJoin(site, p, g, f, n, t) && |g.tokens[f].scopes| > 0 &&
      h == g.tokens[f].scopes[|g.tokens[f].scopes| - 1]
    requires h in s.table && s.table[h].count <= 1
    ensures Runs(p, s, f, Goto(ReleaseState(s, f, h), f, site.plan.addr[t]))
  {
    JoinExec(p, s, f, h);
    ReleaseRuns(p, s, f, h, site.plan.addr[t]);
    RunsOn(p, s, f, ReleaseState(s, f, h), Goto(ReleaseState(s, f, h), f, site.plan.addr[t]));
  }

  lemma MeetLast(g: T.Game, f: nat, n: nat, t: nat, h: nat)
    requires f in g.tokens && |g.tokens[f].scopes| > 0 && h == g.tokens[f].scopes[|g.tokens[f].scopes| - 1]
    requires forall x :: x in T.Others(g, f, h) ==> g.tokens[x].place.Arrived? && g.tokens[x].place.instance == h
    ensures T.Meet(g, f, n, T.Enter(t)) ==
      T.Then(g.(tokens := (g.tokens - T.Others(g, f, h))[f := T.Marker(T.Enter(t),
        g.tokens[f].scopes[..|g.tokens[f].scopes| - 1])]))
  {
  }

  lemma LastSim(site: Site, p: Program, s: State, g: T.Game, f: nat, n: nat, t: nat, h: nat)
    requires Known(site) && Shows(site, s, g) && ShownAt(site, s, g, f) && g.phase.Playing? && f in g.tokens &&
      T.Movable(g.tokens[f])
    requires AtJoin(site, p, g, f, n, t) && |g.tokens[f].scopes| > 0 &&
      h == g.tokens[f].scopes[|g.tokens[f].scopes| - 1]
    requires h in s.table && s.table[h].count <= 1 && OthersWait(s, f, h)
    requires forall x :: x in s.table[h].members <==> x in s.fibers && h in Inside(s.fibers[x])
    ensures T.Meet(g, f, n, T.Enter(t)).Then?
    ensures Makes(site, p, s, f, T.Meet(g, f, n, T.Enter(t)).game)
  {
    SameMeeting(site, s, g, f, h);
    LastRuns(site, p, s, g, f, n, t, h);
    assert s.table[h].members - {f} == T.Others(g, f, h);
    ReleaseShows(site, s, g, f, h, t);
    MeetLast(g, f, n, t, h);
    Made(site, p, s, f, Goto(ReleaseState(s, f, h), f, site.plan.addr[t]), T.Meet(g, f, n, T.Enter(t)).game);
  }

  lemma EarlySim(site: Site, p: Program, s: State, g: T.Game, f: nat, n: nat, t: nat, h: nat)
    requires Known(site) && Shows(site, s, g) && ShownAt(site, s, g, f) && g.phase.Playing? && f in g.tokens &&
      T.Movable(g.tokens[f])
    requires AtJoin(site, p, g, f, n, t) && |g.tokens[f].scopes| > 0 &&
      h == g.tokens[f].scopes[|g.tokens[f].scopes| - 1]
    requires h in s.table && s.table[h].count > 1 && !OthersWait(s, f, h)
    ensures T.Meet(g, f, n, T.Enter(t)).Then?
    ensures Makes(site, p, s, f, T.Meet(g, f, n, T.Enter(t)).game)
  {
    SameMeeting(site, s, g, f, h);
    JoinExec(p, s, f, h);
    ArriveShows(site, s, g, f, n, h);
    Made(site, p, s, f, ArriveState(s, f, h), T.Meet(g, f, n, T.Enter(t)).game);
  }

  lemma MeetSim(site: Site, p: Program, e: map<nat, Scopes>, s: State, hi: History, g: T.Game, f: nat, n: nat, t: nat)
    requires Known(site) && Certificate(p, e) && Inv(p, e, s, hi) && Shows(site, s, g) && g.phase.Playing?
    requires f in g.tokens && T.Movable(g.tokens[f]) && ShownAt(site, s, g, f) && AtJoin(site, p, g, f, n, t)
    ensures T.Meet(g, f, n, T.Enter(t)).Then?
    ensures Makes(site, p, s, f, T.Meet(g, f, n, T.Enter(t)).game)
  {
    MovableRuns(site, s, g, f);
    assert TypedFiber(p, e, hi, s.fibers[f]);
    var h := JoinScope(p, e, s, hi, f);
    LastArrival(s, hi, f, h);
    if s.table[h].count <= 1 { LastSim(site, p, s, g, f, n, t, h); } else { EarlySim(site, p, s, g, f, n, t, h); }
  }

  lemma JoinWordsAt(site: Site, p: Program, n: nat, t: nat)
    requires Stands(site, p) && n < |site.plan.g.nodes| && Joins(site.plan.g.nodes[n]) && Linked(site, n, t)
    ensures site.plan.addr[n] + 1 < |p| && p[site.plan.addr[n]].Join? &&
      p[site.plan.addr[n] + 1] == Jump(site.plan.addr[t])
  {
    assert Built(site, n);
    NextIs(site, n, t);
    PlacedWord(p, site.plan.addr[n], site.words[n], 0);
    PlacedWord(p, site.plan.addr[n], site.words[n], 1);
  }

  lemma JoinAdvance(gr: Graph, joins: map<nat, nat>, g: T.Game, f: nat, n: nat, t: nat)
    requires f in g.tokens && n < |gr.nodes| == |gr.flows| && Successor(gr, n) == Some(t)
    requires (g.tokens[f].place == T.Enter(n) && Joins(gr.nodes[n])) || g.tokens[f].place == T.Gather(n)
    ensures T.Advance(gr, joins, g, f) == T.Meet(g, f, n, T.Enter(t))
  {
  }

  lemma MeetMoves(site: Site, joins: map<nat, nat>, p: Program, s: State, g: T.Game, f: nat, n: nat, t: nat)
    requires Known(site) && f in g.tokens && n < |site.plan.g.nodes| && Linked(site, n, t)
    requires (g.tokens[f].place == T.Enter(n) && Joins(site.plan.g.nodes[n])) || g.tokens[f].place == T.Gather(n)
    requires T.Meet(g, f, n, T.Enter(t)).Then? && Makes(site, p, s, f, T.Meet(g, f, n, T.Enter(t)).game)
    ensures Simulates(site, joins, p, s, g, f)
  {
    JoinAdvance(site.plan.g, joins, g, f, n, t);
    MakesMove(site, joins, p, s, g, f, T.Meet(g, f, n, T.Enter(t)).game);
  }

  lemma EntersJoin(site: Site, p: Program, s: State, g: T.Game, f: nat, n: nat, t: nat)
    requires Plays(site, p, s, g, f, T.Enter(n)) && n < |site.plan.g.nodes| && Joins(site.plan.g.nodes[n]) &&
      Linked(site, n, t)
    ensures AtJoin(site, p, g, f, n, t)
  {
    JoinWordsAt(site, p, n, t);
  }

  lemma JoinSim(site: Site, joins: map<nat, nat>, p: Program, e: map<nat, Scopes>, s: State, hi: History,
                g: T.Game, f: nat, n: nat, t: nat)
    requires Plays(site, p, s, g, f, T.Enter(n)) && Certificate(p, e) && Inv(p, e, s, hi)
    requires n < |site.plan.g.nodes| && Joins(site.plan.g.nodes[n]) && Linked(site, n, t)
    ensures Simulates(site, joins, p, s, g, f)
  {
    EntersJoin(site, p, s, g, f, n, t);
    MeetSim(site, p, e, s, hi, g, f, n, t);
    MeetMoves(site, joins, p, s, g, f, n, t);
  }

  // ---------------------------------------------------------------- multi-instance activities

  lemma MiStands(site: Site, p: Program, n: nat, t: nat)
    requires Stands(site, p) && n < |site.plan.g.nodes| && site.plan.g.nodes[n].MultiInstance? && Linked(site, n, t)
    ensures var MultiInstance(k, c, elements) := site.plan.g.nodes[n];
      var base := site.plan.addr[n];
      var join := base + 2 + 6 * |elements|;
      && join + 1 < |p| && p[base] == MiArityCheck(c, |elements|)
      && p[base + 1] == Fork(MiHeaderAddrs(|elements|, base + 1), base + 1)
      && Placed(p, base + 2, Flatten(MiBranches(k, c, elements, join)))
      && p[join] == Join(base + 1) && p[join + 1] == Jump(site.plan.addr[t])
  {
    assert Built(site, n);
    NextIs(site, n, t);
    var MultiInstance(k, c, elements) := site.plan.g.nodes[n];
    MiPieces(p, k, c, elements, site.plan.addr[n], site.plan.addr[t]);
  }

  lemma SlotStands(site: Site, p: Program, n: nat, t: nat, i: nat)
    requires Stands(site, p) && n < |site.plan.g.nodes| && site.plan.g.nodes[n].MultiInstance? && Linked(site, n, t)
    requires i < |site.plan.g.nodes[n].elements|
    ensures var MultiInstance(k, c, elements) := site.plan.g.nodes[n];
      Placed(p, site.plan.addr[n] + 2 + 6 * i, MiBranch(k, c, elements, i, GatherAt(site, n)))
  {
    MiStands(site, p, n, t);
    var MultiInstance(k, c, elements) := site.plan.g.nodes[n];
    var all := MiBranches(k, c, elements, GatherAt(site, n));
    EvenOffset(all, 6, i);
    FlattenAt(all, i);
    PlacedInside(p, site.plan.addr[n] + 2, Flatten(all), 6 * i, all[i]);
  }

  lemma {:induction false} ArityRefused(p: Program, s: State, f: nat)
    requires Overlong(p, s, f)
    ensures Exec(p, s, f) == Err(BadOperand)
  {
  }

  lemma ItemsAre(s: State, c: nat)
    ensures CollectionLength(s, c) == |T.Items(s.flags, c)|
    ensures forall i :: 0 <= i < CollectionLength(s, c) ==>
      Flag(s, c).Array? && Flag(s, c).items[i] == T.Items(s.flags, c)[i]
  {
  }

  lemma SlotsStart(site: Site, n: nat)
    requires Known(site) && n < |site.plan.g.nodes| && site.plan.g.nodes[n].MultiInstance?
    ensures var k := |site.plan.g.nodes[n].elements|; Starts(site, MiHeaderAddrs(k, site.plan.addr[n] + 1),
      T.SlotPlaces(n, k))
  {
  }

  lemma MiSplits(site: Site, p: Program, s: State, g: T.Game, f: nat, n: nat, k: nat)
    requires Known(site) && Shows(site, s, g) && ShownAt(site, s, g, f) && g.phase.Playing? && f in g.tokens &&
      g.tokens[f].place == T.Enter(n)
    requires n < |site.plan.g.nodes| && site.plan.g.nodes[n].MultiInstance? && k == |site.plan.g.nodes[n].elements|
    requires var base := site.plan.addr[n];
      && base + 1 < |p| && p[base + 1] == Fork(MiHeaderAddrs(k, base + 1), base + 1)
      && p[base].MiArityCheck? && CollectionLength(s, p[base].collection) <= p[base].max
    ensures Makes(site, p, s, f, T.Split(g, f, T.SlotPlaces(n, k)))
  {
    var base := site.plan.addr[n];
    AtItsPlace(site, s, g, f);
    PassRuns(p, s, f, base);
    ForkRuns(p, s, f, base + 1);
    SlotsStart(site, n);
    var s' := ForkState(s, f, p[base + 1].targets);
    SplitShows(site, s, g, f, p[base + 1].targets, T.SlotPlaces(n, k));
    RunsOn(p, s, f, Loc(s, f, base + 1, []), s');
    Made(site, p, s, f, s', T.Split(g, f, T.SlotPlaces(n, k)));
  }

  lemma MiAdvance(gr: Graph, joins: map<nat, nat>, g: T.Game, f: nat, n: nat)
    requires f in g.tokens && n < |gr.nodes| == |gr.flows| && g.tokens[f].place == T.Enter(n) &&
      gr.nodes[n].MultiInstance?
    ensures var k := |gr.nodes[n].elements|;
      T.Advance(gr, joins, g, f) ==
        if |T.Items(g.flags, gr.nodes[n].collection)| > k then T.Refusal else T.Then(T.Split(g, f, T.SlotPlaces(n, k)))
  {
  }

  lemma MiSim(site: Site, joins: map<nat, nat>, p: Program, s: State, g: T.Game, f: nat, n: nat, t: nat)
    requires Plays(site, p, s, g, f, T.Enter(n))
    requires n < |site.plan.g.nodes| && site.plan.g.nodes[n].MultiInstance? && Linked(site, n, t)
    ensures Simulates(site, joins, p, s, g, f)
  {
    var c, k := site.plan.g.nodes[n].collection, |site.plan.g.nodes[n].elements|;
    MiStands(site, p, n, t);
    ItemsAre(s, c);
    MiAdvance(site.plan.g, joins, g, f, n);
    if CollectionLength(s, c) <= k {
      MiSplits(site, p, s, g, f, n, k);
      MakesMove(site, joins, p, s, g, f, T.Split(g, f, T.SlotPlaces(n, k)));
    }
  }

  /** The first two words of an instance: look at its index, skip to the join if it is not live. */
  lemma SlotLooks(p: Program, s: State, f: nat, a: nat, words: seq<Instr>, c: nat, i: nat, join: nat)
    requires Runnable(s, f) && Placed(p, a, words) && |words| == 6 && words[0] == MiIndexLive(c, i) &&
      words[1] == BrIfNot(join)
    ensures Runs(p, Loc(s, f, a, []), f, Loc(s, f, if i < |T.Items(s.flags, c)| then a + 2 else join, []))
  {
    PlacedWord(p, a, words, 0);
    PlacedWord(p, a, words, 1);
    ItemsAre(s, c);
    var v := Bool(i < CollectionLength(s, c));
    IndexLiveRuns(p, s, f, a);
    BranchRuns(p, s, f, a + 1, v);
    RunsOn(p, Loc(s, f, a, []), f, Loc(s, f, a + 1, [v]), Loc(s, f, if i < |T.Items(s.flags, c)| then a + 2
      else join, []));
  }

  /** The next three: the element goes to its flag, and the work starts. */
  lemma SlotLoads(p: Program, s: State, f: nat, a: nat, c: nat, i: nat, key: nat)
    requires Runnable(s, f) && a + 4 < |p| && p[a + 2] == MiLoadElement(c, i) && p[a + 3] == StoreFlag(key) &&
      p[a + 4].ExecNative?
    requires i < |T.Items(s.flags, c)|
    ensures Runs(p, Loc(s, f, a + 2, []), f,
                 Put(s, f, s.fibers[f].(pc := a + 4, stack := [], wait := Parked)).(flags :=
                   s.flags[key := T.Items(s.flags, c)[i]]))
  {
    ItemsAre(s, c);
    var v := T.Items(s.flags, c)[i];
    var m0, m1 := Loc(s, f, a + 2, []), Loc(s, f, a + 3, [v]);
    var m2 := Loc(s, f, a + 4, []).(flags := s.flags[key := v]);
    var s' := Put(s, f, s.fibers[f].(pc := a + 4, stack := [], wait := Parked)).(flags := s.flags[key := v]);
    LoadElement(p, s, f, a + 2, c, i);
    StoreElement(p, s, f, a + 3, key, v);
    assert Park(m2, f).fibers == s'.fibers;
    OneWord(p, m2, f, s');
    RunsOn(p, m0, f, m1, m2);
    RunsOn(p, m0, f, m2, s');
  }

  lemma LoadElement(p: Program, s: State, f: nat, a: nat, c: nat, i: nat)
    requires Runnable(s, f) && a < |p| && p[a] == MiLoadElement(c, i) && i < |T.Items(s.flags, c)|
    ensures Runs(p, Loc(s, f, a, []), f, Loc(s, f, a + 1, [T.Items(s.flags, c)[i]]))
  {
    var v := T.Items(s.flags, c)[i];
    LocTwice(s, f, a, [], a + 1, [v]);
    assert [] + [v] == [v];
    OneWord(p, Loc(s, f, a, []), f, Loc(s, f, a + 1, [v]));
  }

  lemma StoreElement(p: Program, s: State, f: nat, a: nat, key: nat, v: Value)
    requires Runnable(s, f) && a < |p| && p[a] == StoreFlag(key)
    ensures Runs(p, Loc(s, f, a, [v]), f, Loc(s, f, a + 1, []).(flags := s.flags[key := v]))
  {
    LocTwice(s, f, a, [v], a + 1, []);
    assert [v][..0] == [];
    OneWord(p, Loc(s, f, a, [v]), f, Loc(s, f, a + 1, []).(flags := s.flags[key := v]));
  }

  lemma SlotWorks(site: Site, p: Program, s: State, g: T.Game, f: nat, n: nat, i: nat, a: nat, c: nat, key: nat)
    requires Known(site) && Shows(site, s, g) && ShownAt(site, s, g, f) && g.phase.Playing? && f in g.tokens &&
      g.tokens[f].place == T.Slot(n, i)
    requires a == PcOf(site, T.Slot(n, i)) && Runs(p, Loc(s, f, a, []), f, Loc(s, f, a + 2, []))
    requires a + 4 < |p| && p[a + 2] == MiLoadElement(c, i) && p[a + 3] == StoreFlag(key) && p[a + 4].ExecNative?
    requires i < |T.Items(s.flags, c)|
    ensures var g' := T.Move(g.(flags := g.flags[key := T.Items(g.flags, c)[i]]), f, T.SlotWorking(n, i));
      Makes(site, p, s, f, g')
  {
    SlotLoads(p, s, f, a, c, i, key);
    AtItsPlace(site, s, g, f);
    var flags := s.flags[key := T.Items(s.flags, c)[i]];
    var s' := Put(s, f, s.fibers[f].(pc := a + 4, stack := [], wait := Parked)).(flags := flags);
    RunsOn(p, s, f, Loc(s, f, a + 2, []), s');
    var g' := T.Move(g.(flags := flags), f, T.SlotWorking(n, i));
    ShowsPut(site, s, g, f, g.tokens[f].(place := T.SlotWorking(n, i)), s', g');
    Made(site, p, s, f, s', g');
  }

  /** What an instance token does: its element is set and its work starts, or it goes to the gathering. */
  function SlotNext(g: T.Game, f: nat, n: nat, i: nat, c: nat, key: nat): T.Game
    requires f in g.tokens
  {
    if i < |T.Items(g.flags, c)| then T.Move(g.(flags := g.flags[key := T.Items(g.flags, c)[i]]), f,
      T.SlotWorking(n, i))
    else T.Move(g, f, T.Gather(n))
  }

  lemma SlotAdvance(gr: Graph, joins: map<nat, nat>, g: T.Game, f: nat, n: nat, i: nat)
    requires f in g.tokens && n < |gr.nodes| == |gr.flows| && g.tokens[f].place == T.Slot(n, i)
    requires gr.nodes[n].MultiInstance? && i < |gr.nodes[n].elements|
    ensures T.Advance(gr, joins, g, f) == T.Then(SlotNext(g, f, n, i, gr.nodes[n].collection, gr.nodes[n].elements[i]))
  {
  }

  lemma SlotTakes(site: Site, p: Program, s: State, g: T.Game, f: nat, n: nat, i: nat, words: seq<Instr>)
    requires Plays(site, p, s, g, f, T.Slot(n, i)) && PlaceOk(site, T.Slot(n, i))
    requires var MultiInstance(k, c, elements) := site.plan.g.nodes[n];
      && words == MiBranch(k, c, elements, i, GatherAt(site, n)) && Placed(p, PcOf(site, T.Slot(n, i)), words)
      && i < |T.Items(s.flags, c)|
      && Runs(p, Loc(s, f, PcOf(site, T.Slot(n, i)), []), f, Loc(s, f, PcOf(site, T.Slot(n, i)) + 2, []))
    ensures Makes(site, p, s, f, SlotNext(g, f, n, i, site.plan.g.nodes[n].collection,
      site.plan.g.nodes[n].elements[i]))
  {
    var a := PcOf(site, T.Slot(n, i));
    PlacedWord(p, a, words, 2);
    PlacedWord(p, a, words, 3);
    PlacedWord(p, a, words, 4);
    SlotWorks(site, p, s, g, f, n, i, a, site.plan.g.nodes[n].collection, site.plan.g.nodes[n].elements[i]);
  }

  lemma SlotSkips(site: Site, p: Program, s: State, g: T.Game, f: nat, n: nat, i: nat)
    requires Plays(site, p, s, g, f, T.Slot(n, i)) && PlaceOk(site, T.Slot(n, i))
    requires i >= |T.Items(s.flags, site.plan.g.nodes[n].collection)|
    requires Runs(p, Loc(s, f, PcOf(site, T.Slot(n, i)), []), f, Loc(s, f, GatherAt(site, n), []))
    ensures Makes(site, p, s, f, SlotNext(g, f, n, i, site.plan.g.nodes[n].collection,
      site.plan.g.nodes[n].elements[i]))
  {
    MovesTo(site, p, s, g, f, T.Gather(n));
  }

  lemma SlotMakes(site: Site, p: Program, s: State, g: T.Game, f: nat, n: nat, t: nat, i: nat)
    requires Plays(site, p, s, g, f, T.Slot(n, i)) && n < |site.plan.g.nodes| && Linked(site, n, t) &&
      PlaceOk(site, T.Slot(n, i))
    ensures Makes(site, p, s, f, SlotNext(g, f, n, i, site.plan.g.nodes[n].collection,
      site.plan.g.nodes[n].elements[i]))
  {
    var MultiInstance(k, c, elements) := site.plan.g.nodes[n];
    var a, words := PcOf(site, T.Slot(n, i)), MiBranch(k, c, elements, i, GatherAt(site, n));
    SlotStands(site, p, n, t, i);
    SlotLooks(p, s, f, a, words, c, i, GatherAt(site, n));
    if i < |T.Items(s.flags, c)| { SlotTakes(site, p, s, g, f, n, i, words); }
      else { SlotSkips(site, p, s, g, f, n, i); }
  }

  lemma SlotSim(site: Site, joins: map<nat, nat>, p: Program, s: State, g: T.Game, f: nat, n: nat, t: nat, i: nat)
    requires Plays(site, p, s, g, f, T.Slot(n, i))
    requires n < |site.plan.g.nodes| && Linked(site, n, t)
    ensures Simulates(site, joins, p, s, g, f)
  {
    SlotMakes(site, p, s, g, f, n, t, i);
    SlotAdvance(site.plan.g, joins, g, f, n, i);
    MakesMove(site, joins, p, s, g, f,
              SlotNext(g, f, n, i, site.plan.g.nodes[n].collection, site.plan.g.nodes[n].elements[i]));
  }

  lemma SlotDoneSim(site: Site, joins: map<nat, nat>, p: Program, s: State, g: T.Game, f: nat, n: nat, t: nat, i: nat)
    requires Plays(site, p, s, g, f, T.SlotDone(n, i))
    requires n < |site.plan.g.nodes| && Linked(site, n, t)
    ensures Simulates(site, joins, p, s, g, f)
  {
    var MultiInstance(k, c, elements) := site.plan.g.nodes[n];
    var a := site.plan.addr[n] + 2 + 6 * i;
    SlotStands(site, p, n, t, i);
    PlacedWord(p, a, MiBranch(k, c, elements, i, GatherAt(site, n)), 5);
    JumpRuns(p, s, f, a + 5, []);
    MovesTo(site, p, s, g, f, T.Gather(n));
    MakesMove(site, joins, p, s, g, f, T.Move(g, f, T.Gather(n)));
  }

  lemma GathersAtJoin(site: Site, p: Program, s: State, g: T.Game, f: nat, n: nat, t: nat)
    requires Plays(site, p, s, g, f, T.Gather(n)) && n < |site.plan.g.nodes| && Linked(site, n, t)
    ensures AtJoin(site, p, g, f, n, t)
  {
    MiStands(site, p, n, t);
  }

  lemma GatherSim(site: Site, joins: map<nat, nat>, p: Program, e: map<nat, Scopes>, s: State, hi: History,
                  g: T.Game, f: nat, n: nat, t: nat)
    requires Plays(site, p, s, g, f, T.Gather(n)) && Certificate(p, e) && Inv(p, e, s, hi)
    requires n < |site.plan.g.nodes| && Linked(site, n, t)
    ensures Simulates(site, joins, p, s, g, f)
  {
    GathersAtJoin(site, p, s, g, f, n, t);
    MeetSim(site, p, e, s, hi, g, f, n, t);
    MeetMoves(site, joins, p, s, g, f, n, t);
  }
}
