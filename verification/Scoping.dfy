/** A graph whose gateways nest gets a program with a certificate: the scopes open at a
    word are the forks open at its node, plus what the node's own words have opened. */
module Scoping {
  import opened Segments
  import opened Bytecode
  import opened Graphs
  import opened ControlStack
  import opened KernelSafety
  import opened Ir
  import opened Blocks
  import opened Lowering
  import opened Pairing
  import opened WordFlow

  /** For each node on the flow, the forks still open when it is entered. */
  type Labels = map<nat, seq<nat>>

  /** A plan together with the words of every node. */
  datatype Site = Site(plan: Plan, words: seq<seq<Instr>>)

  // ---------------------------------------------------------------- labelled graphs

  ghost predicate Known(site: Site) {
    && |site.plan.g.nodes| == |site.plan.g.flows| == |site.words|
    && forall n: nat :: n < |site.plan.g.nodes| ==> n in site.plan.addr
  }

  /** The words of a node are those its block consists of. */
  ghost predicate Built(site: Site, n: nat)
    requires Known(site) && n < |site.plan.g.nodes|
  {
    Block(site.plan, n) == Words(site.words[n])
  }

  /** Control may pass from `n` to `t`, where the open forks are `forks`. */
  ghost predicate Onward(site: Site, ls: Labels, n: nat, t: nat, forks: seq<nat>)
    requires Known(site) && n < |site.plan.g.nodes|
  {
    t < |site.plan.g.nodes| && t in ls && ls[t] == forks && site.plan.addr[t] >= site.plan.addr[n] + |site.words[n]|
  }

  ghost predicate AllOnward(site: Site, ls: Labels, n: nat, forks: seq<nat>)
    requires Known(site) && n < |site.plan.g.nodes|
  {
    forall i :: 0 <= i < |site.plan.g.flows[n]| ==> Onward(site, ls, n, site.plan.g.flows[n][i].target, forks)
  }

  ghost predicate NextOnward(site: Site, ls: Labels, n: nat, m: nat, forks: seq<nat>)
    requires Known(site) && n < |site.plan.g.nodes|
  {
    Successor(site.plan.g, m).Some? && Onward(site, ls, n, Successor(site.plan.g, m).value, forks)
  }

  /** The boundary events of a host interrupt it and hand over to flows with its own forks. */
  ghost predicate BoundariesFit(site: Site, ls: Labels, n: nat)
    requires Known(site) && n < |site.plan.g.nodes| && n in ls
  {
    && Interrupting(site.plan.b, n)
    && (n in site.plan.b.timers ==>
       !site.plan.b.timers[n].spec.Cycle? && NextOnward(site, ls, n, site.plan.b.timers[n].node, ls[n]))
    && DistinctCodes(ErrorsOf(site.plan.b, n))
    && forall i :: 0 <= i < |ErrorsOf(site.plan.b, n)| ==>
       NextOnward(site, ls, n, ErrorsOf(site.plan.b, n)[i].node, ls[n])
  }

  /** A join closes the innermost open fork, and that fork's address is its pairing. */
  ghost predicate Closes(site: Site, ls: Labels, n: nat, pairing: map<nat, nat>)
    requires Known(site) && n < |site.plan.g.nodes| && n in ls
  {
    && |ls[n]| > 0
    && var f := ls[n][|ls[n]| - 1];
      f < |site.plan.g.nodes| && f in ls && Forks(site.plan.g.nodes[f]) && n in pairing &&
        pairing[n] == ForkAddr(site.plan.g, site.plan.addr, f)
  }

  ghost predicate LabelledAt(site: Site, ls: Labels, n: nat)
    requires Known(site) && n < |site.plan.g.nodes| && n in ls
  {
    && Built(site, n)
    && match site.plan.g.nodes[n]
      case Start => NextOnward(site, ls, n, n, ls[n])
      case EndEvent(terminate) => n !in site.plan.b.closes && (terminate || ls[n] == [])
      case ServiceTask(_) => NextOnward(site, ls, n, n, ls[n]) && (Guarded(site.plan.b, n) ==>
        BoundariesFit(site, ls, n))
      case FfiServiceTask(_) => NextOnward(site, ls, n, n, ls[n]) && (Guarded(site.plan.b, n) ==>
        BoundariesFit(site, ls, n))
      case MessageWait(_) => NextOnward(site, ls, n, n, ls[n]) && (Guarded(site.plan.b, n) ==>
        BoundariesFit(site, ls, n))
      case HumanWait(_) => NextOnward(site, ls, n, n, ls[n]) && (Guarded(site.plan.b, n) ==> BoundariesFit(site, ls, n))
      case SendTask(_) => NextOnward(site, ls, n, n, ls[n])
      case TimerWait(_) => NextOnward(site, ls, n, n, ls[n])
      case GatewayXor => DefaultFlow(site.plan.g.flows[n], |site.plan.g.flows[n]|).Some? &&
        AllOnward(site, ls, n, ls[n])
      case GatewayAnd(d) =>
        if d.Diverging? then site.plan.g.flows[n] != [] && AllOnward(site, ls, n, ls[n] + [n])
        else Closes(site, ls, n, site.plan.forkOf) && NextOnward(site, ls, n, n, ls[n][..|ls[n]| - 1])
      case GatewayInclusive(d) =>
        if d.Diverging? then
          && site.plan.g.flows[n] != [] && AllOnward(site, ls, n, ls[n] + [n])
          && n in site.plan.joinOf && exists j: nat ::
             Onward(site, ls, n, j, ls[n] + [n]) && site.plan.joinOf[n] == site.plan.addr[j]
        else Closes(site, ls, n, site.plan.inclusiveForkOf) && NextOnward(site, ls, n, n, ls[n][..|ls[n]| - 1])
      case MultiInstance(_, _, elements) => elements != [] && NextOnward(site, ls, n, n, ls[n])
      case _ => false
  }

  ghost predicate Labelled(site: Site, ls: Labels, start: nat) {
    && Known(site) && start in ls && ls[start] == [] && start in site.plan.addr && site.plan.addr[start] == 0
    && (forall n :: n in ls ==> n < |site.plan.g.nodes|)
    && (forall n {:trigger LabelledAt(site, ls, n)} :: n in ls ==> LabelledAt(site, ls, n))
  }

  // ---------------------------------------------------------------- scopes of a word

  function TokenOf(site: Site, f: nat): Token
    requires Known(site)
  {
    Token(BarrierScope, if f < |site.plan.g.nodes| then ForkAddr(site.plan.g, site.plan.addr, f) else 0)
  }

  function TokensOf(site: Site, forks: seq<nat>): (s: Scopes)
    requires Known(site)
    ensures |s| == |forks| && forall i :: 0 <= i < |s| ==> s[i] == TokenOf(site, forks[i])
  {
    seq(|forks|, i requires 0 <= i < |forks| => TokenOf(site, forks[i]))
  }

  lemma TokensPush(site: Site, forks: seq<nat>, f: nat)
    requires Known(site)
    ensures TokensOf(site, forks + [f]) == TokensOf(site, forks) + [TokenOf(site, f)]
  {
  }

  lemma TokensPop(site: Site, forks: seq<nat>)
    requires Known(site) && |forks| > 0
    ensures TokensOf(site, forks[..|forks| - 1]) == TokensOf(site, forks)[..|forks| - 1]
    ensures TokensOf(site, forks) == TokensOf(site, forks[..|forks| - 1]) + [TokenOf(site, forks[|forks| - 1])]
  {
  }

  /** The position of the guard word among a host's words. */
  function GuardAt(site: Site, n: nat): nat {
    if n in site.plan.b.timers then 1 else 0
  }

  function ScopeAt(site: Site, ls: Labels, n: nat, k: nat): Scopes
    requires Known(site) && n < |site.plan.g.nodes| && n in ls
  {
    var st := TokensOf(site, ls[n]);
    match site.plan.g.nodes[n]
    case GatewayAnd(d) => if d.Converging? && k > 0 && |st| > 0 then st[..|st| - 1] else st
    case GatewayInclusive(d) =>
      if d.Diverging? then (if k <= PrecheckRoom(site.plan.g.flows[n]) then st else st + [TokenOf(site, n)])
      else if k > 0 && |st| > 0 then st[..|st| - 1] else st
    case MultiInstance(_, _, elements) =>
      if 2 <= k <= 2 + 6 * |elements| then st + [Token(BarrierScope, site.plan.addr[n] + 1)] else st
    case _ =>
      if Hosts(site.plan.g.nodes[n]) && Guarded(site.plan.b, n) && GuardAt(site, n) < k < 1 + GuardRoom(site.plan.b, n)
      then st + [Token(GuardScope, site.plan.addr[n] + GuardAt(site, n))] else st
  }

  ghost predicate Owns(site: Site, ls: Labels, n: nat, k: nat, a: nat)
    requires Known(site)
  {
    n < |site.plan.g.nodes| && n in ls && k < |site.words[n]| && a == site.plan.addr[n] + k
  }

  /** The program has the words of every labelled node at its address. */
  ghost predicate Holds(site: Site, ls: Labels, p: Program)
    requires Known(site)
  {
    forall n {:trigger site.words[n]} :: n in ls && n < |site.plan.g.nodes| ==>
      Placed(p, site.plan.addr[n], site.words[n])
  }

  /** The scopes recorded for every word of every labelled node. */
  ghost predicate Agrees(site: Site, ls: Labels, e: map<nat, Scopes>)
    requires Known(site)
  {
    forall n, k {:trigger ScopeAt(site, ls, n, k)} ::
      n in ls && 0 <= n < |site.plan.g.nodes| && 0 <= k < |site.words[n]| ==>
      At(e, site.plan.addr[n] + k, ScopeAt(site, ls, n, k))
  }

  function BodyOf(node: Node): Instr {
    match node
    case ServiceTask(t) => ExecNative(t)
    case FfiServiceTask(t) => ExecFfi(t)
    case MessageWait(m) => WaitMsg(m)
    case HumanWait(m) => WaitMsg(m)
    case _ => End
  }

  /** A labelled node has a first word, entered with exactly the node's open forks. */
  lemma Entered(site: Site, ls: Labels, n: nat)
    requires Known(site) && n < |site.plan.g.nodes| && n in ls && LabelledAt(site, ls, n)
    ensures |site.words[n]| > 0 && ScopeAt(site, ls, n, 0) == TokensOf(site, ls[n])
  {
    if Hosts(site.plan.g.nodes[n]) && Guarded(site.plan.b, n) {
      HostFits(site.plan, n, BodyOf(site.plan.g.nodes[n]));
    }
  }

  ghost predicate Ready(site: Site, ls: Labels, start: nat, p: Program, e: map<nat, Scopes>) {
    Labelled(site, ls, start) && Holds(site, ls, p) && Agrees(site, ls, e)
  }

  lemma OnwardAt(site: Site, ls: Labels, start: nat, p: Program, e: map<nat, Scopes>, n: nat, t: nat, forks: seq<nat>)
    requires Ready(site, ls, start, p, e) && n < |site.plan.g.nodes| && Onward(site, ls, n, t, forks)
    ensures site.plan.addr[n] + |site.words[n]| <= site.plan.addr[t] < |p| &&
      At(e, site.plan.addr[t], TokensOf(site, forks))
  {
    assert LabelledAt(site, ls, t);
    Entered(site, ls, t);
    PlacedWord(p, site.plan.addr[t], site.words[t], 0);
    assert At(e, site.plan.addr[t] + 0, ScopeAt(site, ls, t, 0));
  }

  lemma FlowsLand(site: Site, ls: Labels, start: nat, p: Program, e: map<nat, Scopes>, n: nat, forks: seq<nat>)
    requires Ready(site, ls, start, p, e) && n < |site.plan.g.nodes| && AllOnward(site, ls, n, forks)
    ensures AllLand(site.plan, p, e, site.plan.g.flows[n], TokensOf(site, forks), site.plan.addr[n] + |site.words[n]|)
  {
    forall i | 0 <= i < |site.plan.g.flows[n]|
      ensures var l := Land(site.plan, site.plan.g.flows[n][i]);
        site.plan.addr[n] + |site.words[n]| <= l < |p| && At(e, l, TokensOf(site, forks))
    {
      OnwardAt(site, ls, start, p, e, n, site.plan.g.flows[n][i].target, forks);
    }
  }

  lemma NextAt(site: Site, ls: Labels, start: nat, p: Program, e: map<nat, Scopes>, n: nat, m: nat, forks: seq<nat>)
    requires Ready(site, ls, start, p, e) && n < |site.plan.g.nodes| && NextOnward(site, ls, n, m, forks)
    ensures NextAddr(site.plan, m).Some?
    ensures site.plan.addr[n] + |site.words[n]| <= NextAddr(site.plan, m).value < |p| &&
      At(e, NextAddr(site.plan, m).value, TokensOf(site, forks))
  {
    OnwardAt(site, ls, start, p, e, n, Successor(site.plan.g, m).value, forks);
  }

  lemma LevelFrom(site: Site, ls: Labels, e: map<nat, Scopes>, n: nat, lo: nat, hi: nat, st: Scopes)
    requires Known(site) && Agrees(site, ls, e) && n in ls && n < |site.plan.g.nodes| && hi <= |site.words[n]|
    requires forall k :: lo <= k < hi ==> ScopeAt(site, ls, n, k) == st
    ensures Level(e, site.plan.addr[n] + lo, site.plan.addr[n] + hi, st)
  {
    forall a | site.plan.addr[n] + lo <= a < site.plan.addr[n] + hi ensures At(e, a, st) {
      assert ScopeAt(site, ls, n, a - site.plan.addr[n]) == st;
      assert At(e, site.plan.addr[n] + (a - site.plan.addr[n]), st);
    }
  }

  // ---------------------------------------------------------------- node by node

  ghost predicate NodeFine(site: Site, p: Program, e: map<nat, Scopes>, n: nat)
    requires Known(site) && n < |site.plan.g.nodes|
  {
    AllFine(p, e, site.plan.addr[n], site.plan.addr[n] + |site.words[n]|)
  }

  lemma XorFine(site: Site, ls: Labels, start: nat, p: Program, e: map<nat, Scopes>, n: nat)
    requires Ready(site, ls, start, p, e) && n in ls && n < |site.plan.g.nodes| && LabelledAt(site, ls, n) &&
      site.plan.g.nodes[n].GatewayXor?
    ensures NodeFine(site, p, e, n)
  {
    var st := TokensOf(site, ls[n]);
    LevelFrom(site, ls, e, n, 0, |site.words[n]|, st);
    FlowsLand(site, ls, start, p, e, n, ls[n]);
    XorFlows(site.plan, p, e, site.plan.addr[n], site.plan.g.flows[n], st);
  }

  lemma AndForkFine(site: Site, ls: Labels, start: nat, p: Program, e: map<nat, Scopes>, n: nat)
    requires Ready(site, ls, start, p, e) && n in ls && n < |site.plan.g.nodes| && LabelledAt(site, ls, n)
    requires site.plan.g.nodes[n] == GatewayAnd(Diverging)
    ensures NodeFine(site, p, e, n)
  {
    var st, a := TokensOf(site, ls[n]), site.plan.addr[n];
    TokensPush(site, ls[n], n);
    FlowsLand(site, ls, start, p, e, n, ls[n] + [n]);
    PlacedWord(p, a, site.words[n], 0);
    assert At(e, a + 0, ScopeAt(site, ls, n, 0));
    ForkFlows(p, e, a, st);
  }

  /** A labelled diverging gateway's fork word stands where its join expects it. */
  lemma ForkStands(site: Site, ls: Labels, start: nat, p: Program, f: nat)
    requires Labelled(site, ls, start) && Holds(site, ls, p) && f in ls && f < |site.plan.g.nodes| &&
      Forks(site.plan.g.nodes[f])
    ensures ForkAddr(site.plan.g, site.plan.addr, f) < |p| && p[ForkAddr(site.plan.g, site.plan.addr, f)].Fork?
    ensures p[ForkAddr(site.plan.g, site.plan.addr, f)].pairing == ForkAddr(site.plan.g, site.plan.addr, f)
  {
    assert LabelledAt(site, ls, f);
    var flows, base := site.plan.g.flows[f], site.plan.addr[f];
    assert Placed(p, base, site.words[f]);
    if site.plan.g.nodes[f].GatewayAnd? {
      PlacedWord(p, base, site.words[f], 0);
    } else {
      var fork := base + PrecheckRoom(flows);
      PrecheckBlockFits(flows, fork);
      InclusivePieces(site.plan, p, base, flows, site.plan.joinOf[f], fork);
    }
  }

  lemma JoinWords(site: Site, ls: Labels, n: nat, pairing: map<nat, nat>)
    requires Known(site) && n in ls && n < |site.plan.g.nodes| && LabelledAt(site, ls, n) && Joins(site.plan.g.nodes[n])
    requires pairing == (if site.plan.g.nodes[n].GatewayAnd? then site.plan.forkOf else site.plan.inclusiveForkOf)
    ensures Closes(site, ls, n, pairing) && NextOnward(site, ls, n, n, ls[n][..|ls[n]| - 1])
    ensures NextAddr(site.plan, n).Some? && site.words[n] == [Join(pairing[n]), Jump(NextAddr(site.plan, n).value)]
    ensures ScopeAt(site, ls, n, 0) == TokensOf(site, ls[n]) &&
      ScopeAt(site, ls, n, 1) == TokensOf(site, ls[n])[..|ls[n]| - 1]
  {
  }

  lemma JoinScopes(site: Site, ls: Labels, e: map<nat, Scopes>, n: nat, pairing: map<nat, nat>, outer: Scopes)
    requires Known(site) && Agrees(site, ls, e) && n in ls && n < |site.plan.g.nodes| && LabelledAt(site, ls, n)
    requires Joins(site.plan.g.nodes[n]) && |ls[n]| > 0 && outer == TokensOf(site, ls[n][..|ls[n]| - 1])
    requires pairing == (if site.plan.g.nodes[n].GatewayAnd? then site.plan.forkOf else site.plan.inclusiveForkOf)
    ensures n in pairing && At(e, site.plan.addr[n], outer + [Token(BarrierScope, pairing[n])]) &&
      At(e, site.plan.addr[n] + 1, outer)
  {
    JoinWords(site, ls, n, pairing);
    TokensPop(site, ls[n]);
    assert At(e, site.plan.addr[n] + 0, ScopeAt(site, ls, n, 0)) &&
      At(e, site.plan.addr[n] + 1, ScopeAt(site, ls, n, 1));
  }

  lemma JoinFine(site: Site, ls: Labels, start: nat, p: Program, e: map<nat, Scopes>, n: nat, pairing: map<nat, nat>)
    requires Ready(site, ls, start, p, e) && n in ls && n < |site.plan.g.nodes| && LabelledAt(site, ls, n)
    requires Joins(site.plan.g.nodes[n])
    requires pairing == (if site.plan.g.nodes[n].GatewayAnd? then site.plan.forkOf else site.plan.inclusiveForkOf)
    ensures NodeFine(site, p, e, n)
  {
    var forks := ls[n];
    JoinWords(site, ls, n, pairing);
    var outer := TokensOf(site, forks[..|forks| - 1]);
    NextAt(site, ls, start, p, e, n, n, forks[..|forks| - 1]);
    ForkStands(site, ls, start, p, forks[|forks| - 1]);
    JoinScopes(site, ls, e, n, pairing, outer);
    assert Placed(p, site.plan.addr[n], site.words[n]);
    JoinBlockFlows(p, e, site.plan.addr[n], pairing[n], NextAddr(site.plan, n).value, outer);
  }

  lemma JoinBlockFlows(p: Program, e: map<nat, Scopes>, a: nat, pairing: nat, next: nat, outer: Scopes)
    requires Placed(p, a, [Join(pairing), Jump(next)]) && pairing < |p| && p[pairing].Fork?
    requires At(e, a, outer + [Token(BarrierScope, pairing)]) && At(e, a + 1, outer) && a + 1 < next < |p| &&
      At(e, next, outer)
    ensures AllFine(p, e, a, a + 2)
  {
    PlacedWord(p, a, [Join(pairing), Jump(next)], 0);
    PlacedWord(p, a, [Join(pairing), Jump(next)], 1);
    JoinFlows(p, e, a, outer);
    JumpFlows(p, e, a + 1, outer);
  }

  lemma InclusiveLevels(site: Site, ls: Labels, e: map<nat, Scopes>, n: nat, room: nat)
    requires Known(site) && Agrees(site, ls, e) && n in ls && n < |site.plan.g.nodes| &&
      site.plan.g.nodes[n] == GatewayInclusive(Diverging)
    requires room == PrecheckRoom(site.plan.g.flows[n]) && room + 1 <= |site.words[n]|
    ensures Level(e, site.plan.addr[n], site.plan.addr[n] + room + 1, TokensOf(site, ls[n]))
    ensures Level(e, site.plan.addr[n] + room + 1, site.plan.addr[n] + |site.words[n]|,
      TokensOf(site, ls[n]) + [TokenOf(site, n)])
  {
    LevelFrom(site, ls, e, n, 0, room + 1, TokensOf(site, ls[n]));
    LevelFrom(site, ls, e, n, room + 1, |site.words[n]|, TokensOf(site, ls[n]) + [TokenOf(site, n)]);
  }

  lemma InclusiveLands(site: Site, ls: Labels, start: nat, p: Program, e: map<nat, Scopes>, n: nat)
    requires Ready(site, ls, start, p, e) && n in ls && n < |site.plan.g.nodes| && LabelledAt(site, ls, n)
    requires site.plan.g.nodes[n] == GatewayInclusive(Diverging)
    ensures n in site.plan.joinOf && site.plan.addr[n] + |site.words[n]| <= site.plan.joinOf[n] < |p|
    ensures At(e, site.plan.joinOf[n], TokensOf(site, ls[n]) + [TokenOf(site, n)])
    ensures AllLand(site.plan, p, e, site.plan.g.flows[n], TokensOf(site, ls[n]) + [TokenOf(site, n)],
      site.plan.addr[n] + |site.words[n]|)
    ensures Resolved(site.plan, site.plan.g.flows[n]) && site.plan.g.flows[n] != []
  {
    TokensPush(site, ls[n], n);
    var j: nat :| Onward(site, ls, n, j, ls[n] + [n]) && site.plan.joinOf[n] == site.plan.addr[j];
    OnwardAt(site, ls, start, p, e, n, j, ls[n] + [n]);
    FlowsLand(site, ls, start, p, e, n, ls[n] + [n]);
  }

  lemma InclusiveWords(site: Site, n: nat, fork: nat)
    requires Known(site) && n < |site.plan.g.nodes| && Built(site, n)
    requires site.plan.g.nodes[n] == GatewayInclusive(Diverging) && n in site.plan.joinOf
    requires Resolved(site.plan, site.plan.g.flows[n]) && fork == site.plan.addr[n] + PrecheckRoom(site.plan.g.flows[n])
    ensures site.words[n] == InclusiveBlock(site.plan, site.plan.g.flows[n], fork, site.plan.joinOf[n]).words
    ensures |PrecheckBlock(site.plan.g.flows[n], fork)| == PrecheckRoom(site.plan.g.flows[n]) < |site.words[n]|
  {
    PrecheckBlockFits(site.plan.g.flows[n], fork);
  }

  lemma InclusiveFine(site: Site, ls: Labels, start: nat, p: Program, e: map<nat, Scopes>, n: nat)
    requires Ready(site, ls, start, p, e) && n in ls && n < |site.plan.g.nodes| && LabelledAt(site, ls, n)
    requires site.plan.g.nodes[n] == GatewayInclusive(Diverging)
    ensures NodeFine(site, p, e, n)
  {
    var flows, fork := site.plan.g.flows[n], site.plan.addr[n] + PrecheckRoom(site.plan.g.flows[n]);
    InclusiveLands(site, ls, start, p, e, n);
    InclusiveWords(site, n, fork);
    InclusiveLevels(site, ls, e, n, PrecheckRoom(flows));
    assert Placed(p, site.plan.addr[n], site.words[n]);
    InclusiveFlows(site.plan, p, e, site.plan.addr[n], flows, site.plan.joinOf[n], TokensOf(site, ls[n]), fork);
  }

  lemma MiFine(site: Site, ls: Labels, start: nat, p: Program, e: map<nat, Scopes>, n: nat)
    requires Ready(site, ls, start, p, e) && n in ls && n < |site.plan.g.nodes| && LabelledAt(site, ls, n)
    requires site.plan.g.nodes[n].MultiInstance?
    ensures NodeFine(site, p, e, n)
  {
    var st, base := TokensOf(site, ls[n]), site.plan.addr[n];
    var MultiInstance(t, c, elements) := site.plan.g.nodes[n];
    var join := base + 2 + 6 * |elements|;
    NextAt(site, ls, start, p, e, n, n, ls[n]);
    MiFits(t, c, elements, base, NextAddr(site.plan, n).value);
    assert At(e, base + 0, ScopeAt(site, ls, n, 0)) && At(e, base + 1, ScopeAt(site, ls, n, 1));
    assert At(e, base + (3 + 6 * |elements|), ScopeAt(site, ls, n, 3 + 6 * |elements|));
    LevelFrom(site, ls, e, n, 2, 3 + 6 * |elements|, st + [Token(BarrierScope, base + 1)]);
    MiFlows(p, e, t, c, elements, base, NextAddr(site.plan, n).value, st, join);
  }

  predicate Simple(site: Site, n: nat)
    requires n < |site.plan.g.nodes|
  {
    || site.plan.g.nodes[n].Start? || site.plan.g.nodes[n].SendTask? || site.plan.g.nodes[n].TimerWait?
    || (Hosts(site.plan.g.nodes[n]) && !Guarded(site.plan.b, n))
  }

  lemma SimpleWords(site: Site, ls: Labels, n: nat, words: seq<Instr>)
    requires Known(site) && n < |site.plan.g.nodes| && n in ls && LabelledAt(site, ls, n) && Simple(site, n) &&
      NextAddr(site.plan, n).Some?
    requires words == site.words[n]
    ensures |words| > 0 && words[|words| - 1] == Jump(NextAddr(site.plan, n).value)
    ensures forall k :: 0 <= k < |words| - 1 ==> Straight(words[k])
    ensures forall k: nat :: ScopeAt(site, ls, n, k) == TokensOf(site, ls[n])
  {
  }

  lemma StraightFlows(p: Program, e: map<nat, Scopes>, base: nat, words: seq<Instr>, next: nat, st: Scopes)
    requires Placed(p, base, words) && |words| > 0 && words[|words| - 1] == Jump(next)
    requires forall k :: 0 <= k < |words| - 1 ==> Straight(words[k])
    requires Level(e, base, base + |words|, st) && base + |words| <= next < |p| && At(e, next, st)
    ensures AllFine(p, e, base, base + |words|)
  {
    forall a | base <= a < base + |words| ensures Fine(p, e, a) {
      PlacedWord(p, base, words, a - base);
      assert At(e, a, st);
      if a == base + |words| - 1 {
        JumpFlows(p, e, a, st);
      } else {
        PlacedWord(p, base, words, a - base + 1);
        assert At(e, a + 1, st);
        PlainFlows(p, e, a, st);
      }
    }
  }

  /** Nodes whose words are a few plain ones and a jump. */
  lemma SimpleFine(site: Site, ls: Labels, start: nat, p: Program, e: map<nat, Scopes>, n: nat)
    requires Ready(site, ls, start, p, e) && n in ls && n < |site.plan.g.nodes| && LabelledAt(site, ls, n) &&
      Simple(site, n)
    ensures NodeFine(site, p, e, n)
  {
    NextAt(site, ls, start, p, e, n, n, ls[n]);
    SimpleWords(site, ls, n, site.words[n]);
    LevelFrom(site, ls, e, n, 0, |site.words[n]|, TokensOf(site, ls[n]));
    StraightFlows(p, e, site.plan.addr[n], site.words[n], NextAddr(site.plan, n).value, TokensOf(site, ls[n]));
  }

  lemma EndFine(site: Site, ls: Labels, start: nat, p: Program, e: map<nat, Scopes>, n: nat)
    requires Ready(site, ls, start, p, e) && n in ls && n < |site.plan.g.nodes| && LabelledAt(site, ls, n) &&
      site.plan.g.nodes[n].EndEvent?
    ensures NodeFine(site, p, e, n)
  {
    PlacedWord(p, site.plan.addr[n], site.words[n], 0);
    assert At(e, site.plan.addr[n] + 0, ScopeAt(site, ls, n, 0));
    StopFlows(p, e, site.plan.addr[n]);
  }

  lemma HostFront(site: Site, n: nat, handler: nat, rest: seq<Instr>)
    requires Known(site) && n < |site.plan.g.nodes| && Interrupting(site.plan.b, n)
    requires n in site.plan.b.timers ==> !site.plan.b.timers[n].spec.Cycle?
    ensures var arms, words := ArmWords(site.plan, ArmOrder(ErrorsOf(site.plan.b, n))),
      Prologue(site.plan, n, handler) + rest;
      if n in site.plan.b.timers
      then words == [PushI64(DurationMs(site.plan.b.timers[n].spec, site.plan.now)), Guard(handler), GuardArmTimer] +
        (arms + rest)
      else words == [Guard(handler)] + (arms + rest)
  {
  }

  /** The words of a guarded host: up to the guard, its timer and arms, then the body. */
  lemma HostPieces(site: Site, p: Program, n: nat, body: Instr, handler: nat, next: nat)
    requires Known(site) && n < |site.plan.g.nodes| && Guarded(site.plan.b, n) && Interrupting(site.plan.b, n)
    requires n in site.plan.b.timers ==> !site.plan.b.timers[n].spec.Cycle?
    requires Placed(p, site.plan.addr[n], Prologue(site.plan, n, handler) + [body, GuardEnd, Jump(next)])
    ensures var guard, errors := site.plan.addr[n] + GuardAt(site, n), ArmOrder(ErrorsOf(site.plan.b, n));
      var at := guard + 1 + (if n in site.plan.b.timers then 1 else 0);
      && at <= |p| && (n in site.plan.b.timers ==> p[site.plan.addr[n]].PushI64? && p[at - 1].GuardArmTimer?)
      && p[guard] == Guard(handler) && Placed(p, at, ArmWords(site.plan, errors) + [body, GuardEnd, Jump(next)])
  {
    var rest := [body, GuardEnd, Jump(next)];
    HostFront(site, n, handler, rest);
    var front := if n in site.plan.b.timers
      then [PushI64(DurationMs(site.plan.b.timers[n].spec, site.plan.now)), Guard(handler), GuardArmTimer]
        else [Guard(handler)];
    TwoPieces(p, site.plan.addr[n], front, ArmWords(site.plan, ArmOrder(ErrorsOf(site.plan.b, n))) + rest);
  }

  lemma TwoPieces(p: Program, base: nat, a: seq<Instr>, b: seq<Instr>)
    requires Placed(p, base, a + b)
    ensures Placed(p, base + |a|, b) && base + |a| <= |p| && forall k :: 0 <= k < |a| ==> p[base + k] == a[k]
  {
    assert Placed(a + b, |a|, b);
    PlacedInside(p, base, a + b, |a|, b);
    forall k | 0 <= k < |a| ensures p[base + k] == a[k] { PlacedWord(p, base, a + b, k); }
  }

  lemma GuardedScope(site: Site, ls: Labels, n: nat, k: nat)
    requires Known(site) && n in ls && n < |site.plan.g.nodes| && Hosts(site.plan.g.nodes[n]) && Guarded(site.plan.b, n)
    ensures ScopeAt(site, ls, n, k) == if GuardAt(site, n) < k < 1 + GuardRoom(site.plan.b, n)
      then TokensOf(site, ls[n]) + [Token(GuardScope, site.plan.addr[n] + GuardAt(site, n))] else TokensOf(site, ls[n])
  {
  }

  lemma GuardedLevels(site: Site, ls: Labels, e: map<nat, Scopes>, n: nat, guard: nat, len: nat, st: Scopes)
    requires Known(site) && Agrees(site, ls, e) && n in ls && n < |site.plan.g.nodes| && Hosts(site.plan.g.nodes[n]) &&
      Guarded(site.plan.b, n)
    requires guard == site.plan.addr[n] + GuardAt(site, n) &&
      len == |site.words[n]| == 2 + GuardRoom(site.plan.b, n) && st == TokensOf(site, ls[n])
    ensures Level(e, site.plan.addr[n], guard + 1, st) && At(e, site.plan.addr[n] + len - 1, st)
    ensures Level(e, guard + 1, site.plan.addr[n] + len - 1, st + [Token(GuardScope, guard)])
  {
    forall k: nat ensures ScopeAt(site, ls, n, k) ==
      if GuardAt(site, n) < k < len - 1 then st + [Token(GuardScope, guard)] else st
    {
      GuardedScope(site, ls, n, k);
    }
    LevelFrom(site, ls, e, n, 0, GuardAt(site, n) + 1, st);
    LevelFrom(site, ls, e, n, len - 1, len, st);
    LevelFrom(site, ls, e, n, GuardAt(site, n) + 1, len - 1, st + [Token(GuardScope, guard)]);
  }

  lemma ErrorsLand(site: Site, ls: Labels, start: nat, p: Program, e: map<nat, Scopes>, n: nat)
    requires Ready(site, ls, start, p, e) && n in ls && n < |site.plan.g.nodes| && BoundariesFit(site, ls, n)
    ensures ArmsLand(site.plan, p, e, ArmOrder(ErrorsOf(site.plan.b, n)), TokensOf(site, ls[n]),
      site.plan.addr[n] + |site.words[n]|)
    ensures WordFlow.DistinctCodes(ArmOrder(ErrorsOf(site.plan.b, n)))
  {
    var errors := ErrorsOf(site.plan.b, n);
    ArmOrderDistinct(errors);
    ArmOrderKeeps(errors);
    var sorted := ArmOrder(errors);
    forall i | 0 <= i < |sorted|
      ensures var l := NextAddr(site.plan, sorted[i].node).Or(0);
        site.plan.addr[n] + |site.words[n]| <= l < |p| && At(e, l, TokensOf(site, ls[n]))
    {
      assert sorted[i] in errors;
      var j :| 0 <= j < |errors| && errors[j] == sorted[i];
      NextAt(site, ls, start, p, e, n, errors[j].node, ls[n]);
    }
  }

  lemma HandlerAt(site: Site, ls: Labels, start: nat, p: Program, e: map<nat, Scopes>, n: nat)
    requires Ready(site, ls, start, p, e) && n in ls && n < |site.plan.g.nodes| && Guarded(site.plan.b, n) &&
      BoundariesFit(site, ls, n)
    ensures HandlerOf(site.plan, n).Some? && At(e, HandlerOf(site.plan, n).value, TokensOf(site, ls[n]))
    ensures HandlerOf(site.plan, n).value >= site.plan.addr[n] + |site.words[n]|
  {
    if n in site.plan.b.timers {
      NextAt(site, ls, start, p, e, n, site.plan.b.timers[n].node, ls[n]);
    } else {
      NextAt(site, ls, start, p, e, n, ErrorsOf(site.plan.b, n)[0].node, ls[n]);
    }
  }

  /** The words before the error arms. */
  lemma GuardHeadFlows(p: Program, e: map<nat, Scopes>, base: nat, guard: nat, at: nat, handler: nat, st: Scopes)
    requires base <= guard < at < |p| && at <= handler && p[guard] == Guard(handler) && At(e, handler, st)
    requires (guard == base && at == guard + 1)
          || (guard == base + 1 && at == guard + 2 && p[base].PushI64? && p[guard + 1].GuardArmTimer?)
    requires Level(e, base, guard + 1, st) && Level(e, guard + 1, at + 1, st + [Token(GuardScope, guard)])
    ensures AllFine(p, e, base, at)
  {
    assert At(e, base, st) && At(e, guard, st) && At(e, guard + 1, st + [Token(GuardScope, guard)]);
    if guard == base + 1 {
      PlainFlows(p, e, base, st);
      assert At(e, guard + 2, st + [Token(GuardScope, guard)]);
      ArmTimerFlows(p, e, guard + 1, st);
    }
    GuardFlows(p, e, guard, st);
  }

  lemma HostWords(site: Site, ls: Labels, n: nat)
    requires Known(site) && n < |site.plan.g.nodes| && n in ls && LabelledAt(site, ls, n)
    requires Hosts(site.plan.g.nodes[n]) && Guarded(site.plan.b, n) && NextAddr(site.plan, n).Some?
    ensures HandlerOf(site.plan, n).Some? && Interrupting(site.plan.b, n) && BoundariesFit(site, ls, n)
    ensures site.words[n] ==
      Prologue(site.plan, n, HandlerOf(site.plan, n).value) + [BodyOf(site.plan.g.nodes[n]), GuardEnd,
        Jump(NextAddr(site.plan, n).value)]
    ensures |site.words[n]| == (if n in site.plan.b.timers then 3 else 1) + |ErrorsOf(site.plan.b, n)| + 3 ==
      2 + GuardRoom(site.plan.b, n)
    ensures |ArmOrder(ErrorsOf(site.plan.b, n))| == |ErrorsOf(site.plan.b, n)|
  {
    HostFits(site.plan, n, BodyOf(site.plan.g.nodes[n]));
    ArmOrderSize(ErrorsOf(site.plan.b, n));
  }

  lemma GuardedFine(site: Site, ls: Labels, start: nat, p: Program, e: map<nat, Scopes>, n: nat)
    requires Ready(site, ls, start, p, e) && n in ls && n < |site.plan.g.nodes| && LabelledAt(site, ls, n)
    requires Hosts(site.plan.g.nodes[n]) && Guarded(site.plan.b, n)
    ensures NodeFine(site, p, e, n)
  {
    NextAt(site, ls, start, p, e, n, n, ls[n]);
    HostWords(site, ls, n);
    HandlerAt(site, ls, start, p, e, n);
    ErrorsLand(site, ls, start, p, e, n);
    assert Placed(p, site.plan.addr[n], site.words[n]);
    var body, handler, next := BodyOf(site.plan.g.nodes[n]), HandlerOf(site.plan, n).value,
      NextAddr(site.plan, n).value;
    HostPieces(site, p, n, body, handler, next);
    var st, guard := TokensOf(site, ls[n]), site.plan.addr[n] + GuardAt(site, n);
    GuardedLevels(site, ls, e, n, guard, |site.words[n]|, st);
    var at := guard + 1 + (if n in site.plan.b.timers then 1 else 0);
    GuardHeadFlows(p, e, site.plan.addr[n], guard, at, handler, st);
    GuardedFlows(site.plan, p, e, at, ArmOrder(ErrorsOf(site.plan.b, n)), body, next, st, guard);
  }

  lemma EveryNodeFine(site: Site, ls: Labels, start: nat, p: Program, e: map<nat, Scopes>, n: nat)
    requires Ready(site, ls, start, p, e) && n in ls && n < |site.plan.g.nodes|
    ensures NodeFine(site, p, e, n)
  {
    assert LabelledAt(site, ls, n);
    var node := site.plan.g.nodes[n];
    if node.GatewayXor? { XorFine(site, ls, start, p, e, n); }
    else if node.MultiInstance? { MiFine(site, ls, start, p, e, n); }
    else if node.EndEvent? { EndFine(site, ls, start, p, e, n); }
    else if Joins(node) { JoinFine(site, ls, start, p, e, n, if node.GatewayAnd? then site.plan.forkOf
      else site.plan.inclusiveForkOf); }
    else if node.GatewayAnd? { AndForkFine(site, ls, start, p, e, n); }
    else if node.GatewayInclusive? { InclusiveFine(site, ls, start, p, e, n); }
    else if Hosts(node) && Guarded(site.plan.b, n) { GuardedFine(site, ls, start, p, e, n); }
    else { SimpleFine(site, ls, start, p, e, n); }
  }

  // ---------------------------------------------------------------- the certificate

  ghost predicate Apart(site: Site, n: nat, m: nat)
    requires Known(site) && n < |site.plan.g.nodes| && m < |site.plan.g.nodes|
  {
    site.plan.addr[n] + |site.words[n]| <= site.plan.addr[m] || site.plan.addr[m] + |site.words[m]| <= site.plan.addr[n]
  }

  /** No two nodes share an address. */
  ghost predicate Disjoint(site: Site)
    requires Known(site)
  {
    forall n, m {:trigger Apart(site, n, m)} ::
      0 <= n < |site.plan.g.nodes| && 0 <= m < |site.plan.g.nodes| && n != m ==> Apart(site, n, m)
  }

  /** The words of every node stand at its address, in the order of the nodes. */
  ghost predicate Assembled(site: Site, order: seq<nat>, p: Program) {
    && Known(site) && (forall n: nat :: n in order <==> n < |site.plan.g.nodes|)
    && (forall i :: 0 <= i < |order| ==> order[i] < |site.plan.g.nodes|)
    && (forall i, j :: 0 <= i < j < |order| ==>
       site.plan.addr[order[i]] + |site.words[order[i]]| <= site.plan.addr[order[j]])
    && (forall n: nat {:trigger site.words[n]} :: n < |site.plan.g.nodes| ==>
       Placed(p, site.plan.addr[n], site.words[n]))
  }

  lemma NodesDisjoint(site: Site, order: seq<nat>, p: Program)
    requires Assembled(site, order, p)
    ensures Disjoint(site)
  {
    forall n, m | 0 <= n < |site.plan.g.nodes| && 0 <= m < |site.plan.g.nodes| && n != m ensures Apart(site, n, m) {
      assert n in order && m in order;
      var i :| 0 <= i < |order| && order[i] == n;
      var j :| 0 <= j < |order| && order[j] == m;
    }
  }

  ghost predicate Owned(site: Site, ls: Labels, a: nat)
    requires Known(site)
  {
    exists n, k :: Owns(site, ls, n, k, a)
  }

  ghost function ScopeOf(site: Site, ls: Labels, a: nat): Scopes
    requires Known(site) && Owned(site, ls, a)
  {
    var n, k :| Owns(site, ls, n, k, a);
    ScopeAt(site, ls, n, k)
  }

  lemma OneOwner(site: Site, ls: Labels, n: nat, k: nat, a: nat)
    requires Known(site) && Disjoint(site) && Owns(site, ls, n, k, a)
    ensures Owned(site, ls, a) && ScopeOf(site, ls, a) == ScopeAt(site, ls, n, k)
  {
    forall m, j | Owns(site, ls, m, j, a) ensures m == n && j == k {
      assert m == n || Apart(site, n, m);
    }
  }

  ghost function EntryMap(site: Site, ls: Labels, size: nat): map<nat, Scopes>
    requires Known(site)
  {
    map a | a in Upto(size) && Owned(site, ls, a) :: ScopeOf(site, ls, a)
  }

  lemma EntryAgrees(site: Site, ls: Labels, p: Program)
    requires Known(site) && Disjoint(site) && Holds(site, ls, p)
    ensures Agrees(site, ls, EntryMap(site, ls, |p|))
  {
    forall n, k | n in ls && 0 <= n < |site.plan.g.nodes| && 0 <= k < |site.words[n]|
      ensures At(EntryMap(site, ls, |p|), site.plan.addr[n] + k, ScopeAt(site, ls, n, k))
    {
      PlacedWord(p, site.plan.addr[n], site.words[n], k);
      OneOwner(site, ls, n, k, site.plan.addr[n] + k);
    }
  }

  lemma AllAdmitted(site: Site, ls: Labels, start: nat, p: Program, e: map<nat, Scopes>)
    requires Ready(site, ls, start, p, e)
    requires forall a :: a in e ==> Owned(site, ls, a)
    ensures Admitted(p, e)
  {
    assert LabelledAt(site, ls, start);
    Entered(site, ls, start);
    assert At(e, site.plan.addr[start] + 0, ScopeAt(site, ls, start, 0));
    forall a | a in e ensures Fine(p, e, a) {
      var n, k :| Owns(site, ls, n, k, a);
      EveryNodeFine(site, ls, start, p, e, n);
    }
    FineAdmits(p, e);
  }

  /** The lowered program of a labelled graph passes the control-stack verifier and is
      admitted to the machine, with the labels as its scopes. */
  lemma LabelledIsAdmitted(site: Site, order: seq<nat>, ls: Labels, start: nat, p: Program)
                           returns (e: map<nat, Scopes>)
    requires Assembled(site, order, p) && Labelled(site, ls, start)
    ensures Admitted(p, e) && Agrees(site, ls, e)
    ensures forall a :: a in e ==> Owned(site, ls, a) && e[a] == ScopeOf(site, ls, a)
  {
    NodesDisjoint(site, order, p);
    EntryAgrees(site, ls, p);
    e := EntryMap(site, ls, |p|);
    AllAdmitted(site, ls, start, p, e);
  }

  ghost predicate OnlyBarriers(e: map<nat, Scopes>) {
    forall a, i :: a in e && 0 <= i < |e[a]| ==> e[a][i].kind.BarrierScope?
  }

  lemma BarriersAt(site: Site, ls: Labels, n: nat, k: nat)
    requires Known(site) && n < |site.plan.g.nodes| && n in ls && !Guarded(site.plan.b, n)
    ensures forall i :: 0 <= i < |ScopeAt(site, ls, n, k)| ==> ScopeAt(site, ls, n, k)[i].kind.BarrierScope?
  {
  }

  /** Without boundary events only barriers are ever open. */
  lemma UnguardedBarriers(site: Site, ls: Labels, e: map<nat, Scopes>)
    requires Known(site) && forall n: nat :: !Guarded(site.plan.b, n)
    requires forall a :: a in e ==> Owned(site, ls, a) && e[a] == ScopeOf(site, ls, a)
    ensures OnlyBarriers(e)
  {
    forall a, i | a in e && 0 <= i < |e[a]| ensures e[a][i].kind.BarrierScope? {
      var n, k :| Owns(site, ls, n, k, a) && ScopeOf(site, ls, a) == ScopeAt(site, ls, n, k);
      BarriersAt(site, ls, n, k);
    }
  }
}
