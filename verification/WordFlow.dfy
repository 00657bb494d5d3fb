/** The verifier's step at the words of each kind of block, given the scopes at the
    block's words and at the addresses it leads to. */
module WordFlow {
  import opened Segments
  import opened Bytecode
  import opened ControlStack
  import opened KernelSafety
  import opened Ir
  import opened Blocks

  /** The word at `a` is entered with scopes `st`. */
  predicate At(e: map<nat, Scopes>, a: nat, st: Scopes) {
    a in e && e[a] == st
  }

  /** Words that go on to the next one and leave the scopes alone. */
  predicate Straight(i: Instr) {
    || i.LoadFlag? || i.PushI64? || i.StoreFlag? || i.ExecNative? || i.ExecFfi? || i.PublishMessage?
    || i.WaitFor? || i.WaitUntil? || i.WaitMsg? || i.MiArityCheck? || i.MiIndexLive? || i.MiLoadElement?
  }

  /** The word passes the verifier's step, is admissible, and its error route, if it arms one, fits. */
  ghost predicate Fine(p: Program, e: map<nat, Scopes>, a: nat) {
    a in e && a < |p| && Respects(p, e, a) && Admissible(p, e, a) && (p[a].GuardArmError? ==> RouteFits(p, e, a))
  }

  lemma FineAdmits(p: Program, e: map<nat, Scopes>)
    requires At(e, 0, []) && forall a {:trigger Fine(p, e, a)} :: a in e ==> Fine(p, e, a)
    ensures Admitted(p, e)
  {
    forall a | a in e ensures a < |p| && Respects(p, e, a) && Admissible(p, e, a) { assert Fine(p, e, a); }
    forall a | a in e && 0 <= a < |p| && p[a].GuardArmError? ensures RouteFits(p, e, a) { assert Fine(p, e, a); }
  }

  // ---------------------------------------------------------------- single words

  lemma PlainFlows(p: Program, e: map<nat, Scopes>, a: nat, st: Scopes)
    requires a + 1 < |p| && Straight(p[a]) && At(e, a, st) && At(e, a + 1, st)
    ensures Fine(p, e, a)
  {
  }

  lemma JumpFlows(p: Program, e: map<nat, Scopes>, a: nat, st: Scopes)
    requires a < |p| && p[a].Jump? && a < p[a].target < |p| && At(e, a, st) && At(e, p[a].target, st)
    ensures Fine(p, e, a)
  {
  }

  lemma BranchFlows(p: Program, e: map<nat, Scopes>, a: nat, st: Scopes)
    requires a + 1 < |p| && (p[a].BrIf? || p[a].BrIfNot?) && a < p[a].target < |p|
    requires At(e, a, st) && At(e, a + 1, st) && At(e, p[a].target, st)
    ensures Fine(p, e, a)
  {
  }

  lemma ForkFlows(p: Program, e: map<nat, Scopes>, a: nat, st: Scopes)
    requires a < |p| && p[a].Fork? && p[a].targets != [] && At(e, a, st)
    requires forall i :: 0 <= i < |p[a].targets| ==>
      p[a].targets[i] > a && At(e, p[a].targets[i], st + [Token(BarrierScope, p[a].pairing)])
    ensures Fine(p, e, a)
  {
  }

  lemma JoinFlows(p: Program, e: map<nat, Scopes>, a: nat, st: Scopes)
    requires a + 1 < |p| && p[a].Join? && p[a].pairing < |p| && p[p[a].pairing].Fork?
    requires At(e, a, st + [Token(BarrierScope, p[a].pairing)]) && At(e, a + 1, st)
    ensures Fine(p, e, a)
  {
    assert (st + [Token(BarrierScope, p[a].pairing)])[..|st|] == st;
  }

  lemma GuardFlows(p: Program, e: map<nat, Scopes>, a: nat, st: Scopes)
    requires a + 1 < |p| && p[a].Guard? && p[a].handler > a
    requires At(e, a, st) && At(e, p[a].handler, st) && At(e, a + 1, st + [Token(GuardScope, a)])
    ensures Fine(p, e, a)
  {
  }

  lemma GuardEndFlows(p: Program, e: map<nat, Scopes>, a: nat, st: Scopes, guard: nat)
    requires a + 1 < |p| && p[a].GuardEnd? && At(e, a, st + [Token(GuardScope, guard)]) && At(e, a + 1, st)
    ensures Fine(p, e, a)
  {
    assert (st + [Token(GuardScope, guard)])[..|st|] == st;
  }

  lemma ArmTimerFlows(p: Program, e: map<nat, Scopes>, a: nat, st: Scopes)
    requires 0 < a && a + 1 < |p| && p[a].GuardArmTimer?
    requires At(e, a, st + [Token(GuardScope, a - 1)]) && At(e, a + 1, st + [Token(GuardScope, a - 1)])
    ensures Fine(p, e, a)
  {
  }

  lemma ArmErrorFlows(p: Program, e: map<nat, Scopes>, a: nat, st: Scopes, guard: nat)
    requires a + 1 < |p| && p[a].GuardArmError? && guard < a
    requires guard + 1 == a || p[a - 1].GuardArmTimer? || p[a - 1].GuardArmError?
    requires forall i :: guard + 1 <= i < a && p[i].GuardArmError? ==> p[i].errorCode != p[a].errorCode
    requires p[a].errorHandler > a && At(e, p[a].errorHandler, st)
    requires At(e, a, st + [Token(GuardScope, guard)]) && At(e, a + 1, st + [Token(GuardScope, guard)])
    ensures Fine(p, e, a)
  {
    assert (st + [Token(GuardScope, guard)])[..|st|] == st;
  }

  lemma StopFlows(p: Program, e: map<nat, Scopes>, a: nat)
    requires a < |p| && a in e && (p[a].EndTerminate? || p[a].RouteZeroMatch? || (p[a].End? && e[a] == []))
    ensures Fine(p, e, a)
  {
  }

  // ---------------------------------------------------------------- whole blocks

  /** The words from `lo` up to `hi` are all entered with scopes `st`. */
  ghost predicate Level(e: map<nat, Scopes>, lo: nat, hi: nat, st: Scopes) {
    forall a :: lo <= a < hi ==> At(e, a, st)
  }

  ghost predicate AllFine(p: Program, e: map<nat, Scopes>, lo: nat, hi: nat) {
    forall a {:trigger Fine(p, e, a)} :: lo <= a < hi ==> Fine(p, e, a)
  }

  /** Each flow of a gateway lands at or beyond `end`, where `st` is expected. */
  ghost predicate AllLand(pl: Plan, p: Program, e: map<nat, Scopes>, flows: seq<Flow>, st: Scopes, end: nat) {
    forall i :: 0 <= i < |flows| ==> end <= Land(pl, flows[i]) < |p| && At(e, Land(pl, flows[i]), st)
  }

  // exclusive gateways

  lemma TestFlows(pl: Plan, p: Program, e: map<nat, Scopes>, base: nat, flows: seq<Flow>, st: Scopes, k: nat)
    requires Placed(p, base, Flatten(XorTests(pl, flows))) && k < |Flatten(XorTests(pl, flows))|
    requires Level(e, base, base + |Flatten(XorTests(pl, flows))| + 1, st) &&
      AllLand(pl, p, e, flows, st, base + |Flatten(XorTests(pl, flows))|)
    requires base + |Flatten(XorTests(pl, flows))| < |p|
    ensures Fine(p, e, base + k)
  {
    var tests := XorTests(pl, flows);
    var i, o := Locate(tests, k);
    PlacedWord(p, base, Flatten(tests), k);
    assert At(e, base + k, st) && At(e, base + k + 1, st);
    if o == 0 {
      PlainFlows(p, e, base + k, st);
    } else {
      BranchFlows(p, e, base + k, st);
    }
  }

  lemma {:induction false} XorFlows(pl: Plan, p: Program, e: map<nat, Scopes>, base: nat, flows: seq<Flow>, st: Scopes)
    requires XorBlock(pl, flows).Words? && Placed(p, base, XorBlock(pl, flows).words)
    requires Level(e, base, base + |XorBlock(pl, flows).words|, st)
    requires AllLand(pl, p, e, flows, st, base + |XorBlock(pl, flows).words|)
    requires DefaultFlow(flows, |flows|).Some?
    ensures AllFine(p, e, base, base + |XorBlock(pl, flows).words|)
  {
    var body, last := Flatten(XorTests(pl, flows)), Jump(Land(pl, flows[DefaultFlow(flows, |flows|).value]));
    assert XorBlock(pl, flows).words == body + [last] + [];
    ThreePieces(p, base, body, last, []);
    forall a | base <= a < base + |body| + 1 ensures Fine(p, e, a) {
      assert At(e, a, st);
      if a - base < |body| { TestFlows(pl, p, e, base, flows, st, a - base); } else { JumpFlows(p, e, a, st); }
    }
  }

  // inclusive gateways

  lemma PrecheckFlows(p: Program, e: map<nat, Scopes>, base: nat, flows: seq<Flow>, fork: nat, st: Scopes, k: nat)
    requires Placed(p, base, Flatten(Prechecks(flows, fork))) && k < |Flatten(Prechecks(flows, fork))|
    requires base + |Flatten(Prechecks(flows, fork))| < fork < |p|
    requires Level(e, base, base + |Flatten(Prechecks(flows, fork))| + 1, st) && At(e, fork, st)
    ensures Fine(p, e, base + k)
  {
    var checks := Prechecks(flows, fork);
    var i, o := Locate(checks, k);
    PlacedWord(p, base, Flatten(checks), k);
    assert At(e, base + k, st) && At(e, base + k + 1, st);
    if o == 0 {
      PlainFlows(p, e, base + k, st);
    } else {
      BranchFlows(p, e, base + k, st);
    }
  }

  lemma BodyAndStop(p: Program, base: nat, body: seq<Instr>)
    requires Placed(p, base, body + [RouteZeroMatch])
    ensures Placed(p, base, body) && base + |body| < |p| && p[base + |body|] == RouteZeroMatch
  {
    assert body + [RouteZeroMatch] + [] == body + [RouteZeroMatch];
    ThreePieces(p, base, body, RouteZeroMatch, []);
  }

  lemma PrecheckWordFlows(p: Program, e: map<nat, Scopes>, base: nat, flows: seq<Flow>, fork: nat, st: Scopes, a: nat)
    requires Placed(p, base, Flatten(Prechecks(flows, fork)) + [RouteZeroMatch]) && fork < |p|
    requires fork == base + |Flatten(Prechecks(flows, fork))| + 1 && Level(e, base, fork + 1, st) && base <= a < fork
    ensures Fine(p, e, a)
  {
    BodyAndStop(p, base, Flatten(Prechecks(flows, fork)));
    assert At(e, fork, st) && At(e, a, st);
    if a < fork - 1 { PrecheckFlows(p, e, base, flows, fork, st, a - base); } else { StopFlows(p, e, a); }
  }

  lemma PrecheckBlockFlows(p: Program, e: map<nat, Scopes>, base: nat, flows: seq<Flow>, fork: nat, st: Scopes)
    requires fork == base + PrecheckRoom(flows)
    requires Placed(p, base, PrecheckBlock(flows, fork)) && fork < |p| && Level(e, base, fork + 1, st)
    ensures AllFine(p, e, base, fork)
  {
    PrecheckBlockFits(flows, fork);
    forall a | base <= a < fork ensures Fine(p, e, a) {
      PrecheckWordFlows(p, e, base, flows, fork, st, a);
    }
  }

  lemma HeaderFlows(pl: Plan, p: Program, e: map<nat, Scopes>, at: nat, flows: seq<Flow>, join: nat, st: Scopes, k: nat)
    requires Placed(p, at, Flatten(Headers(pl, flows, join))) && k < |Flatten(Headers(pl, flows, join))|
    requires Level(e, at, at + |Flatten(Headers(pl, flows, join))|, st)
    requires AllLand(pl, p, e, flows, st, at + |Flatten(Headers(pl, flows, join))|)
    requires at + |Flatten(Headers(pl, flows, join))| <= join < |p| && At(e, join, st)
    ensures Fine(p, e, at + k)
  {
    var heads: seq<seq<Instr>> := Headers(pl, flows, join);
    var i, o := Locate(heads, k);
    FlattenAt(heads, i);
    PlacedWord(p, at, Flatten(heads), k);
    assert At(e, at + k, st);
    if heads[i][o].Jump? {
      JumpFlows(p, e, at + k, st);
    } else {
      assert At(e, at + k + 1, st);
      if o == 0 { PlainFlows(p, e, at + k, st); } else { BranchFlows(p, e, at + k, st); }
    }
  }

  lemma InclusiveForkFlows(pl: Plan, p: Program, e: map<nat, Scopes>, fork: nat, flows: seq<Flow>, join: nat,
                           st: Scopes)
    requires fork < |p| && p[fork] == Fork(HeaderAddrs(flows, fork), fork) && flows != [] && At(e, fork, st)
    requires Level(e, fork + 1, fork + 1 + |Flatten(Headers(pl, flows, join))|, st + [Token(BarrierScope, fork)])
    ensures Fine(p, e, fork)
  {
    var heads: seq<seq<Instr>> := Headers(pl, flows, join);
    forall i | 0 <= i < |flows|
      ensures HeaderAddr(flows, fork, i) > fork && At(e, HeaderAddr(flows, fork, i), st + [Token(BarrierScope, fork)])
    {
      HeaderOffset(pl, flows, join, i);
      FlattenAt(heads, i);
    }
    ForkFlows(p, e, fork, st);
  }

  lemma InclusivePieces(pl: Plan, p: Program, base: nat, flows: seq<Flow>, join: nat, fork: nat)
    requires fork == base + |PrecheckBlock(flows, fork)|
    requires Resolved(pl, flows) && Placed(p, base, InclusiveBlock(pl, flows, fork, join).words)
    ensures Placed(p, base, PrecheckBlock(flows, fork)) && fork < |p| && p[fork] == Fork(HeaderAddrs(flows, fork), fork)
    ensures Placed(p, fork + 1, Flatten(Headers(pl, flows, join)))
    ensures base + |InclusiveBlock(pl, flows, fork, join).words| == fork + 1 + |Flatten(Headers(pl, flows, join))|
  {
    ThreePieces(p, base, PrecheckBlock(flows, fork), Fork(HeaderAddrs(flows, fork), fork),
      Flatten(Headers(pl, flows, join)));
  }

  lemma ThreePieces(p: Program, base: nat, a: seq<Instr>, w: Instr, b: seq<Instr>)
    requires Placed(p, base, a + [w] + b)
    ensures Placed(p, base, a) && base + |a| < |p| && p[base + |a|] == w && Placed(p, base + |a| + 1, b)
  {
    var all := a + [w] + b;
    assert Placed(all, 0, a) && Placed(all, |a| + 1, b);
    PlacedInside(p, base, all, 0, a);
    PlacedInside(p, base, all, |a| + 1, b);
    PlacedWord(p, base, all, |a|);
  }

  lemma InclusiveFlows(pl: Plan, p: Program, e: map<nat, Scopes>, base: nat, flows: seq<Flow>, join: nat, st: Scopes,
                       fork: nat)
    requires fork == base + PrecheckRoom(flows) == base + |PrecheckBlock(flows, fork)|
    requires Resolved(pl, flows) && Placed(p, base, InclusiveBlock(pl, flows, fork, join).words)
    requires Level(e, base, fork + 1, st)
    requires Level(e, fork + 1, base + |InclusiveBlock(pl, flows, fork, join).words|, st + [Token(BarrierScope, fork)])
    requires flows != [] && AllLand(pl, p, e, flows, st + [Token(BarrierScope, fork)],
      base + |InclusiveBlock(pl, flows, fork, join).words|)
    requires base + |InclusiveBlock(pl, flows, fork, join).words| <= join < |p| &&
      At(e, join, st + [Token(BarrierScope, fork)])
    ensures AllFine(p, e, base, base + |InclusiveBlock(pl, flows, fork, join).words|)
  {
    InclusivePieces(pl, p, base, flows, join, fork);
    PrecheckBlockFlows(p, e, base, flows, fork, st);
    InclusiveTail(pl, p, e, flows, join, st, fork);
  }

  lemma InclusiveTail(pl: Plan, p: Program, e: map<nat, Scopes>, flows: seq<Flow>, join: nat, st: Scopes, fork: nat)
    requires fork < |p| && p[fork] == Fork(HeaderAddrs(flows, fork), fork) && flows != [] && At(e, fork, st)
    requires Placed(p, fork + 1, Flatten(Headers(pl, flows, join)))
    requires Level(e, fork + 1, fork + 1 + |Flatten(Headers(pl, flows, join))|, st + [Token(BarrierScope, fork)])
    requires AllLand(pl, p, e, flows, st + [Token(BarrierScope, fork)], fork + 1 + |Flatten(Headers(pl, flows, join))|)
    requires fork + 1 + |Flatten(Headers(pl, flows, join))| <= join < |p| &&
      At(e, join, st + [Token(BarrierScope, fork)])
    ensures AllFine(p, e, fork, fork + 1 + |Flatten(Headers(pl, flows, join))|)
  {
    InclusiveForkFlows(pl, p, e, fork, flows, join, st);
    forall a | fork < a < fork + 1 + |Flatten(Headers(pl, flows, join))| ensures Fine(p, e, a) {
      HeaderFlows(pl, p, e, fork + 1, flows, join, st + [Token(BarrierScope, fork)], a - fork - 1);
    }
  }

  // multi-instance activities

  lemma MiBranchFlows(p: Program, e: map<nat, Scopes>, at: nat, t: nat, c: nat, elements: seq<nat>, join: nat,
                      st: Scopes, k: nat)
    requires Placed(p, at, Flatten(MiBranches(t, c, elements, join))) && k < |Flatten(MiBranches(t, c, elements, join))|
    requires Level(e, at, at + |Flatten(MiBranches(t, c, elements, join))| + 1, st)
    requires join == at + |Flatten(MiBranches(t, c, elements, join))| < |p|
    ensures Fine(p, e, at + k)
  {
    var all: seq<seq<Instr>> := MiBranches(t, c, elements, join);
    var i, o := Locate(all, k);
    PlacedWord(p, at, Flatten(all), k);
    assert At(e, at + k, st) && At(e, at + k + 1, st) && At(e, join, st);
    if o == 5 {
      JumpFlows(p, e, at + k, st);
    } else if o == 1 {
      BranchFlows(p, e, at + k, st);
    } else {
      PlainFlows(p, e, at + k, st);
    }
  }

  lemma MiForkFlows(p: Program, e: map<nat, Scopes>, fork: nat, k: nat, st: Scopes)
    requires fork < |p| && p[fork] == Fork(MiHeaderAddrs(k, fork), fork) && k > 0 && At(e, fork, st)
    requires Level(e, fork + 1, fork + 1 + 6 * k, st + [Token(BarrierScope, fork)])
    ensures Fine(p, e, fork)
  {
    ForkFlows(p, e, fork, st);
  }

  lemma MiBranchesSize(t: nat, c: nat, elements: seq<nat>, join: nat)
    ensures |Flatten(MiBranches(t, c, elements, join))| == 6 * |elements|
  {
    var all := MiBranches(t, c, elements, join);
    EvenOffset(all, 6, |all|);
    assert all[..|all|] == all;
  }

  lemma FivePieces(p: Program, base: nat, a: Instr, b: Instr, mid: seq<Instr>, c: Instr, d: Instr)
    requires Placed(p, base, [a, b] + mid + [c, d])
    ensures base + 2 + |mid| + 1 < |p| && p[base] == a && p[base + 1] == b && Placed(p, base + 2, mid)
    ensures p[base + 2 + |mid|] == c && p[base + 2 + |mid| + 1] == d
  {
    var words := [a, b] + mid + [c, d];
    assert Placed(words, 2, mid);
    PlacedInside(p, base, words, 2, mid);
    PlacedWord(p, base, words, 0);
    PlacedWord(p, base, words, 1);
    PlacedWord(p, base, words, 2 + |mid|);
    PlacedWord(p, base, words, 3 + |mid|);
  }

  lemma MiPieces(p: Program, t: nat, c: nat, elements: seq<nat>, base: nat, next: nat)
    requires Placed(p, base, MiBlock(t, c, elements, base, next))
    ensures var join := base + 2 + 6 * |elements|;
      && join + 1 < |p| && p[base] == MiArityCheck(c, |elements|)
      && p[base + 1] == Fork(MiHeaderAddrs(|elements|, base + 1), base + 1)
      && Placed(p, base + 2, Flatten(MiBranches(t, c, elements, join)))
      && |Flatten(MiBranches(t, c, elements, join))| == 6 * |elements|
      && p[join] == Join(base + 1) && p[join + 1] == Jump(next)
  {
    var join := base + 2 + 6 * |elements|;
    MiBranchesSize(t, c, elements, join);
    FivePieces(p, base, MiArityCheck(c, |elements|), Fork(MiHeaderAddrs(|elements|, base + 1), base + 1),
               Flatten(MiBranches(t, c, elements, join)), Join(base + 1), Jump(next));
  }

  lemma MiEnds(p: Program, e: map<nat, Scopes>, c: nat, k: nat, base: nat, next: nat, st: Scopes, join: nat)
    requires join == base + 2 + 6 * k && k > 0 && join + 1 < |p| && p[base] == MiArityCheck(c, k)
    requires p[base + 1] == Fork(MiHeaderAddrs(k, base + 1), base + 1) && p[join] == Join(base + 1) &&
      p[join + 1] == Jump(next)
    requires At(e, base, st) && At(e, base + 1, st) && At(e, join + 1, st)
    requires Level(e, base + 2, join + 1, st + [Token(BarrierScope, base + 1)])
    requires join + 2 <= next < |p| && At(e, next, st)
    ensures Fine(p, e, base) && Fine(p, e, base + 1) && Fine(p, e, join) && Fine(p, e, join + 1)
  {
    assert At(e, join, st + [Token(BarrierScope, base + 1)]);
    PlainFlows(p, e, base, st);
    MiForkFlows(p, e, base + 1, k, st);
    JoinFlows(p, e, join, st);
    JumpFlows(p, e, join + 1, st);
  }

  lemma MiFlows(p: Program, e: map<nat, Scopes>, t: nat, c: nat, elements: seq<nat>, base: nat, next: nat, st: Scopes,
                join: nat)
    requires join == base + 2 + 6 * |elements| && Placed(p, base, MiBlock(t, c, elements, base, next))
    requires At(e, base, st) && At(e, base + 1, st) && At(e, join + 1, st)
    requires Level(e, base + 2, join + 1, st + [Token(BarrierScope, base + 1)])
    requires elements != [] && join + 2 <= next < |p| && At(e, next, st)
    ensures AllFine(p, e, base, join + 2)
  {
    MiPieces(p, t, c, elements, base, next);
    MiEnds(p, e, c, |elements|, base, next, st, join);
    forall a | base + 2 <= a < join ensures Fine(p, e, a) {
      MiBranchFlows(p, e, base + 2, t, c, elements, join, st + [Token(BarrierScope, base + 1)], a - base - 2);
    }
  }

  // guarded tasks and waits

  predicate DistinctCodes(errors: seq<ErrorHost>) {
    forall i, j :: 0 <= i < j < |errors| ==> errors[i].code != errors[j].code
  }

  lemma {:induction false} SpecificDistinct(errors: seq<ErrorHost>)
    requires DistinctCodes(errors)
    ensures DistinctCodes(Specific(errors))
    ensures forall x :: x in Specific(errors) ==> x in errors && !x.code.AnyError?
  {
    if errors != [] {
      SpecificDistinct(errors[1..]);
      assert forall x :: x in errors[1..] ==> x in errors && x.code != errors[0].code;
    }
  }

  lemma {:induction false} CatchAllsDistinct(errors: seq<ErrorHost>)
    requires DistinctCodes(errors)
    ensures DistinctCodes(CatchAlls(errors))
    ensures forall x :: x in CatchAlls(errors) ==> x in errors && x.code.AnyError?
  {
    if errors != [] {
      CatchAllsDistinct(errors[1..]);
      assert forall x :: x in errors[1..] ==> x in errors && x.code != errors[0].code;
    }
  }

  lemma ArmOrderDistinct(errors: seq<ErrorHost>)
    requires DistinctCodes(errors)
    ensures DistinctCodes(ArmOrder(errors))
  {
    var a: seq<ErrorHost>, b: seq<ErrorHost> := Specific(errors), CatchAlls(errors);
    SpecificDistinct(errors);
    CatchAllsDistinct(errors);
    forall i, j | 0 <= i < j < |a + b| ensures (a + b)[i].code != (a + b)[j].code {
      if i < |a| <= j { assert a[i] in a && b[j - |a|] in b; }
    }
  }

  /** Every error arm hands over, beyond the block, to a handler that expects `st`. */
  ghost predicate ArmsLand(pl: Plan, p: Program, e: map<nat, Scopes>, errors: seq<ErrorHost>, st: Scopes, end: nat) {
    forall i :: 0 <= i < |errors| ==>
      end <= NextAddr(pl, errors[i].node).Or(0) < |p| && At(e, NextAddr(pl, errors[i].node).Or(0), st)
  }

  lemma ArmFlows(pl: Plan, p: Program, e: map<nat, Scopes>, at: nat, errors: seq<ErrorHost>, st: Scopes, guard: nat,
                 k: nat)
    requires Placed(p, at, ArmWords(pl, errors)) && DistinctCodes(errors) && k < |errors| && at + |errors| < |p|
    requires guard < at && (guard + 1 == at || (guard + 2 == at && p[at - 1].GuardArmTimer?))
    requires Level(e, guard + 1, at + |errors| + 1, st + [Token(GuardScope, guard)])
    requires ArmsLand(pl, p, e, errors, st, at + |errors|)
    ensures Fine(p, e, at + k)
  {
    forall i | 0 <= i < |errors|
      ensures p[at + i] == GuardArmError(errors[i].code, NextAddr(pl, errors[i].node).Or(0))
    {
      PlacedWord(p, at, ArmWords(pl, errors), i);
    }
    forall i | guard + 1 <= i < at + k && p[i].GuardArmError? ensures p[i].errorCode != errors[k].code {
      if i >= at { assert p[at + (i - at)].errorCode == errors[i - at].code; }
    }
    assert k > 0 ==> p[at + (k - 1)].GuardArmError?;
    assert At(e, at + k, st + [Token(GuardScope, guard)]) && At(e, at + k + 1, st + [Token(GuardScope, guard)]);
    ArmErrorFlows(p, e, at + k, st, guard);
  }

  /** A guarded block: `pre` up to the guard's timer, the arms, then body, close and jump. */
  lemma GuardedFlows(pl: Plan, p: Program, e: map<nat, Scopes>, at: nat, errors: seq<ErrorHost>, body: Instr, next: nat,
                     st: Scopes, guard: nat)
    requires Placed(p, at, ArmWords(pl, errors) + [body, GuardEnd, Jump(next)]) && DistinctCodes(errors) &&
      Straight(body)
    requires guard < at && (guard + 1 == at || (guard + 2 == at && p[at - 1].GuardArmTimer?))
    requires Level(e, guard + 1, at + |errors| + 2, st + [Token(GuardScope, guard)]) && At(e, at + |errors| + 2, st)
    requires ArmsLand(pl, p, e, errors, st, at + |errors| + 3) && at + |errors| + 3 <= next < |p| && At(e, next, st)
    ensures AllFine(p, e, at, at + |errors| + 3)
  {
    var words := ArmWords(pl, errors) + [body, GuardEnd, Jump(next)];
    assert Placed(words, 0, ArmWords(pl, errors));
    PlacedInside(p, at, words, 0, ArmWords(pl, errors));
    var b := at + |errors|;
    PlacedWord(p, at, words, |errors|);
    PlacedWord(p, at, words, |errors| + 1);
    PlacedWord(p, at, words, |errors| + 2);
    assert At(e, b, st + [Token(GuardScope, guard)]) && At(e, b + 1, st + [Token(GuardScope, guard)]);
    PlainFlows(p, e, b, st + [Token(GuardScope, guard)]);
    GuardEndFlows(p, e, b + 1, st, guard);
    JumpFlows(p, e, b + 2, st);
    forall a | at <= a < b ensures Fine(p, e, a) { ArmFlows(pl, p, e, at, errors, st, guard, a - at); }
  }
}
