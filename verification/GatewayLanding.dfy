/** Exactly where an exclusive gateway sends a fibre, and exactly which gateways keep to their
    flows whatever the flags. */
module GatewayLanding {
  import opened Bytecode
  import opened Kernel
  import opened Bursts
  import opened Ir
  import opened Blocks
  import opened Lowering
  import opened GatewayRuns
  import opened LayoutLeaks
  import TokenGame

  /** Leaving the words of node `n`, the fibre is at `c`. */
  ghost predicate Lands(pl: Plan, p: Program, s: State, f: nat, n: nat, b: nat, c: nat)
    requires n in pl.addr && f in s.fibers
  {
    exists s' :: Leaves(p, Loc(s, f, pl.addr[n], []), f, pl.addr[n], b, s') && f in s'.fibers && s'.fibers[f].pc == c
  }

  /** The fibre lands where one of the flows of `n` leads. */
  ghost predicate KeepsToFlows(pl: Plan, p: Program, s: State, f: nat, n: nat, b: nat)
    requires n in pl.addr && f in s.fibers && n < |pl.g.flows|
  {
    exists i :: 0 <= i < |pl.g.flows[n]| && Lands(pl, p, s, f, n, b, Land(pl, pl.g.flows[n][i]))
  }

  /** The node after `n` in the layout is one that a flow of `n` leads to. */
  predicate NextIsTarget(pl: Plan, n: nat, b: nat)
    requires n < |pl.g.flows|
  {
    exists i :: 0 <= i < |pl.g.flows[n]| && Land(pl, pl.g.flows[n][i]) == b
  }

  /** An exclusive gateway in a laid out program that has a node after it. */
  ghost predicate Choosing(pl: Plan, order: seq<nat>, p: Program, i: nat) {
    && Planned(pl, order) && Laid(Bases(pl, order), Pieces(pl, order), |order|, p) && i + 1 < |order|
    && pl.g.nodes[order[i]].GatewayXor? && Block(pl, order[i]).Words?
  }

  // ---------------------------------------------------------------- where it lands

  lemma ChoosingPrecedes(pl: Plan, order: seq<nat>, p: Program, i: nat)
    requires Choosing(pl, order, p, i)
    ensures Precedes(pl, p, order[i], pl.addr[order[i + 1]])
  {
    LaidPrecedes(pl, order, p, i);
  }

  lemma DefaultFits(pl: Plan, n: nat)
    requires n < |pl.g.nodes| == |pl.g.flows| && n in pl.addr && pl.g.nodes[n].GatewayXor? && Block(pl, n).Words?
    ensures Block(pl, n) == XorBlock(pl, pl.g.flows[n]) && |WordsOf(pl, n)| <= Room(pl.g, pl.b, n)
  {
    XorFits(pl, pl.g.flows[n], |pl.g.flows[n]|);
    assert XorTests(pl, pl.g.flows[n])[..|pl.g.flows[n]|] == XorTests(pl, pl.g.flows[n]);
  }

  /** With or without a default, the words of the gateway lead to its destination. */
  lemma {:induction false} GatewayRunsIn(pl: Plan, p: Program, s: State, f: nat, n: nat, b: nat)
    requires Precedes(pl, p, n, b) && Runnable(s, f) && pl.g.nodes[n].GatewayXor? && Block(pl, n).Words?
    ensures RunsIn(p, Loc(s, f, pl.addr[n], []), f, Loc(s, f, Destination(pl, n, s.flags, b), []), pl.addr[n], b)
  {
    DefaultFits(pl, n);
    if DefaultFlow(pl.g.flows[n], |pl.g.flows[n]|).Some? {
      XorRunsIn(pl, p, s, f, pl.addr[n], pl.g.flows[n], b);
    } else {
      UndefaultedGoesOn(pl, p, s, f, n, b);
    }
  }

  lemma {:induction false} BasesGrow(rooms: seq<nat>, i: nat, j: nat)
    requires i <= j <= |rooms|
    ensures Base(rooms, i) <= Base(rooms, j)
    decreases j - i
  {
    if i < j { BasesGrow(rooms, i, j - 1); }
  }

  /** No node begins among the words of another. */
  lemma Outside(pl: Plan, order: seq<nat>, i: nat, j: nat)
    requires Planned(pl, order) && i + 1 < |order| && j < |order|
    ensures !(pl.addr[order[i]] < pl.addr[order[j]] < pl.addr[order[i + 1]])
  {
    var rooms := Rooms(pl.g, pl.b, order);
    if j <= i { BasesGrow(rooms, j, i); } else { BasesGrow(rooms, i + 1, j); }
  }

  lemma PlaceOf(pl: Plan, order: seq<nat>, t: nat) returns (j: nat)
    requires Planned(pl, order) && t in pl.addr
    ensures j < |order| && order[j] == t
  {
    assert t in pl.addr.Keys;
    assert t in order;
    j :| 0 <= j < |order| && order[j] == t;
  }

  lemma TargetOutside(pl: Plan, order: seq<nat>, i: nat, fl: Flow)
    requires Planned(pl, order) && i + 1 < |order|
    ensures !(pl.addr[order[i]] < Land(pl, fl) < pl.addr[order[i + 1]])
  {
    if fl.target in pl.addr {
      var j := PlaceOf(pl, order, fl.target);
      Outside(pl, order, i, j);
    }
  }

  /** The gateway lands at its destination and nowhere else. */
  lemma {:induction false} LandsExactly(pl: Plan, order: seq<nat>, p: Program, i: nat, s: State, f: nat, c: nat)
    requires Choosing(pl, order, p, i) && Runnable(s, f)
    ensures var n, b := order[i], pl.addr[order[i + 1]];
      Lands(pl, p, s, f, n, b, c) <==> c == Destination(pl, n, s.flags, b)
  {
    var n, b := order[i], pl.addr[order[i + 1]];
    var from, d := Loc(s, f, pl.addr[n], []), Destination(pl, n, s.flags, b);
    ChoosingPrecedes(pl, order, p, i);
    GatewayRunsIn(pl, p, s, f, n, b);
    var m := TokenGame.Chosen(pl.g.flows[n], s.flags);
    if m.Some? { TargetOutside(pl, order, i, pl.g.flows[n][m.value]); }
    var t := Loc(s, f, d, []);
    assert Leaves(p, from, f, pl.addr[n], b, t);
    if Lands(pl, p, s, f, n, b, c) {
      var s' :| Leaves(p, from, f, pl.addr[n], b, s') && f in s'.fibers && s'.fibers[f].pc == c;
      LeavesOnce(p, from, f, pl.addr[n], b, s', t);
    }
  }

  /** For given flags, a gateway keeps to its flows if and only if the token game chooses one of
      them or the node laid out next is one of their targets. */
  lemma {:induction false} KeepsExactly(pl: Plan, order: seq<nat>, p: Program, i: nat, s: State, f: nat)
    requires Choosing(pl, order, p, i) && Runnable(s, f)
    ensures var n, b := order[i], pl.addr[order[i + 1]];
      KeepsToFlows(pl, p, s, f, n, b) <==> TokenGame.Chosen(pl.g.flows[n], s.flags).Some? || NextIsTarget(pl, n, b)
  {
    var n, b := order[i], pl.addr[order[i + 1]];
    var flows, m := pl.g.flows[n], TokenGame.Chosen(pl.g.flows[n], s.flags);
    if m.Some? { LandsExactly(pl, order, p, i, s, f, Land(pl, flows[m.value])); }
    if NextIsTarget(pl, n, b) && m.None? {
      var k :| 0 <= k < |flows| && Land(pl, flows[k]) == b;
      LandsExactly(pl, order, p, i, s, f, Land(pl, flows[k]));
    }
    if KeepsToFlows(pl, p, s, f, n, b) && m.None? {
      var k :| 0 <= k < |flows| && Lands(pl, p, s, f, n, b, Land(pl, flows[k]));
      LandsExactly(pl, order, p, i, s, f, Land(pl, flows[k]));
    }
  }

  // ---------------------------------------------------------------- whatever the flags

  /** A test that is met when its flag is not set. */
  predicate Negative(c: Condition) {
    c.literal.BoolLiteral? && ((c.op.Eq? && !c.literal.b) || (c.op.Neq? && c.literal.b))
  }

  /** Two flows test one flag, with opposite signs. */
  predicate Complementary(flows: seq<Flow>) {
    exists i: nat, j: nat ::
      && i < |flows| && j < |flows| && flows[i].condition.Some? && flows[j].condition.Some?
      && flows[i].condition.value.flag == flows[j].condition.value.flag
      && !Negative(flows[i].condition.value) && Negative(flows[j].condition.value)
  }

  predicate Met(fl: Flow, flags: map<nat, Value>) {
    fl.condition.Some? && TokenGame.Decided(fl.condition.value, TokenGame.Read(flags, fl.condition.value.flag))
  }

  lemma {:induction false} MatchExact(flows: seq<Flow>, flags: map<nat, Value>, i: nat)
    requires i <= |flows|
    ensures TokenGame.FirstMatch(flows, flags, i).Some? <==> exists k :: i <= k < |flows| && Met(flows[k], flags)
    decreases |flows| - i
  {
    if i < |flows| {
      MatchExact(flows, flags, i + 1);
      if Met(flows[i], flags) { assert i <= i < |flows| && Met(flows[i], flags); }
    }
  }

  /** Some flow wants the flag unset. */
  predicate Unwanted(flows: seq<Flow>, key: nat) {
    exists fl :: fl in flows && fl.condition.Some? && Negative(fl.condition.value) && fl.condition.value.flag == key
  }

  function UnwantedFlags(flows: seq<Flow>): (keys: set<nat>)
    ensures forall k: nat :: k in keys <==> Unwanted(flows, k)
  {
    set fl | fl in flows && fl.condition.Some? && Negative(fl.condition.value) :: fl.condition.value.flag
  }

  /** The flags under which no test is met, if there are any: just those set that some test
      wants unset. */
  function Adverse(flows: seq<Flow>): map<nat, Value> {
    map k | k in UnwantedFlags(flows) :: Bool(true)
  }

  lemma AdverseUnmet(flows: seq<Flow>, i: nat)
    requires !Complementary(flows) && i < |flows|
    ensures !Met(flows[i], Adverse(flows))
  {
    if flows[i].condition.Some? {
      var c := flows[i].condition.value;
      if Negative(c) {
        assert Unwanted(flows, c.flag);
      } else {
        assert !Unwanted(flows, c.flag);
      }
    }
  }

  /** Some flow is chosen under all flags, if and only if there is a default or two tests of one
      flag are opposed. */
  lemma {:induction false} AlwaysChosen(flows: seq<Flow>)
    ensures (forall flags :: TokenGame.Chosen(flows, flags).Some?) <==>
      DefaultFlow(flows, |flows|).Some? || Complementary(flows)
  {
    if Complementary(flows) {
      var i: nat, j: nat :|
        && i < |flows| && j < |flows| && flows[i].condition.Some? && flows[j].condition.Some?
        && flows[i].condition.value.flag == flows[j].condition.value.flag
        && !Negative(flows[i].condition.value) && Negative(flows[j].condition.value);
      forall flags ensures TokenGame.Chosen(flows, flags).Some? {
        MatchExact(flows, flags, 0);
        assert Met(flows[i], flags) || Met(flows[j], flags);
      }
    } else if DefaultFlow(flows, |flows|).None? {
      MatchExact(flows, Adverse(flows), 0);
      forall k | 0 <= k < |flows| ensures !Met(flows[k], Adverse(flows)) { AdverseUnmet(flows, k); }
      assert TokenGame.Chosen(flows, Adverse(flows)).None?;
    }
  }

  /** A gateway keeps to its flows in every state, if and only if it has a default, or two opposed
      tests of one flag, or one of its targets is laid out next. */
  lemma {:induction false} AlwaysKeepsExactly(pl: Plan, order: seq<nat>, p: Program, i: nat)
    requires Choosing(pl, order, p, i)
    ensures var n, b := order[i], pl.addr[order[i + 1]];
      (forall s, f {:trigger KeepsToFlows(pl, p, s, f, n, b)} ::
         Runnable(s, f) ==> KeepsToFlows(pl, p, s, f, n, b)) <==>
        || DefaultFlow(pl.g.flows[n], |pl.g.flows[n]|).Some? || Complementary(pl.g.flows[n])
        || NextIsTarget(pl, n, b)
  {
    var n, b := order[i], pl.addr[order[i + 1]];
    var flows := pl.g.flows[n];
    AlwaysChosen(flows);
    if forall flags :: TokenGame.Chosen(flows, flags).Some? {
      forall s, f | Runnable(s, f) ensures KeepsToFlows(pl, p, s, f, n, b) { KeepsExactly(pl, order, p, i, s, f); }
    } else if NextIsTarget(pl, n, b) {
      forall s, f | Runnable(s, f) ensures KeepsToFlows(pl, p, s, f, n, b) { KeepsExactly(pl, order, p, i, s, f); }
    } else {
      var flags :| TokenGame.Chosen(flows, flags).None?;
      KeepsExactly(pl, order, p, i, Initial(flags), 0);
    }
  }
}
