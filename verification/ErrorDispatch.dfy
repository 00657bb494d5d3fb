/** Which boundary event takes an error: from the events on a task, through the arming words
    that they are lowered to, to the route that the machine finds. */
module ErrorDispatch {
  import opened Segments
  import opened Bytecode
  import opened Kernel
  import opened Bursts
  import opened Ir
  import opened Blocks
  import Lowering
  import Compiler

  // ---------------------------------------------------------------- arming and matching

  /** The first route for exactly this code. */
  function First(rs: seq<Route>, c: ErrorCode): (r: seq<Route>)
    ensures |r| <= 1
  {
    if rs == [] then [] else if rs[0].code == c then [rs[0]] else First(rs[1..], c)
  }

  /** The route due: the first for the code itself, else the first that takes any. */
  function Due(rs: seq<Route>, code: string): (r: seq<Route>)
    ensures |r| <= 1
  {
    if First(rs, Code(code)) != [] then First(rs, Code(code)) else First(rs, AnyError)
  }

  /** The table after arming these routes one by one. */
  function Arming(routes: seq<Route>, rs: seq<Route>): seq<Route>
    decreases |rs|
  {
    if rs == [] then routes else Arming(InsertRoute(routes, rs[0]), rs[1..])
  }

  lemma {:induction false} FirstConcat(a: seq<Route>, b: seq<Route>, c: ErrorCode)
    ensures First(a + b, c) == if First(a, c) != [] then First(a, c) else First(b, c)
    decreases |a|
  {
    if a == [] {
      assert a + b == b;
    } else {
      assert (a + b)[1..] == a[1..] + b;
      FirstConcat(a[1..], b, c);
    }
  }

  lemma {:induction false} FirstIs(rs: seq<Route>, c: ErrorCode)
    ensures First(rs, c) == [] <==> forall r :: r in rs ==> r.code != c
    ensures First(rs, c) != [] ==> First(rs, c)[0] in rs && First(rs, c)[0].code == c
  {
    if rs != [] {
      FirstIs(rs[1..], c);
      assert rs == [rs[0]] + rs[1..];
    }
  }

  /** Catch-alls come last. */
  ghost predicate Sorted(routes: seq<Route>) {
    forall i, j :: 0 <= i < j < |routes| && routes[i].code.AnyError? ==> routes[j].code.AnyError?
  }

  lemma {:induction false} InsertFirst(routes: seq<Route>, r: Route, c: ErrorCode)
    requires Sorted(routes)
    ensures Sorted(InsertRoute(routes, r))
    ensures First(InsertRoute(routes, r), c) ==
      if First(routes, c) != [] then First(routes, c) else if r.code == c then [r] else []
  {
    assert First([r], c) == if r.code == c then [r] else [];
    if r.code.AnyError? {
      FirstConcat(routes, [r], c);
    } else {
      var k := CatchAllPosition(routes);
      var a, b := routes[..k], routes[k..];
      assert routes == a + b;
      FirstConcat(a, b, c);
      FirstConcat(a + [r], b, c);
      FirstConcat(a, [r], c);
      FirstIs(a, c);
      FirstIs(b, c);
    }
  }

  lemma {:induction false} ArmingFirst(routes: seq<Route>, rs: seq<Route>, c: ErrorCode)
    requires Sorted(routes)
    ensures Sorted(Arming(routes, rs))
    ensures First(Arming(routes, rs), c) == if First(routes, c) != [] then First(routes, c) else First(rs, c)
    decreases |rs|
  {
    if rs != [] {
      InsertFirst(routes, rs[0], c);
      ArmingFirst(InsertRoute(routes, rs[0]), rs[1..], c);
    }
  }

  lemma {:induction false} SortedMatch(routes: seq<Route>, code: string)
    requires Sorted(routes)
    ensures MatchRoute(routes, code) == Due(routes, code)
  {
    if routes != [] {
      if routes[0].code.AnyError? { FirstIs(routes, Code(code)); } else { SortedMatch(routes[1..], code); }
    }
  }

  /** Whatever the order of arming, an error is routed by the first route armed for its code,
      else by the first catch-all armed, else not at all. */
  lemma {:induction false} DispatchIs(rs: seq<Route>, code: string)
    ensures MatchRoute(Arming([], rs), code) == Due(rs, code)
  {
    ArmingFirst([], rs, Code(code));
    ArmingFirst([], rs, AnyError);
    SortedMatch(Arming([], rs), code);
  }

  // ---------------------------------------------------------------- the order of arming

  /** Routes for one code are one route. */
  ghost predicate Single(rs: seq<Route>) {
    forall r, q :: r in rs && q in rs && r.code == q.code ==> r == q
  }

  ghost predicate SameDispatch(rs: seq<Route>, ss: seq<Route>) {
    forall code :: MatchRoute(Arming([], rs), code) == MatchRoute(Arming([], ss), code)
  }

  ghost predicate OrderFree(rs: seq<Route>) {
    forall ss {:trigger SameDispatch(rs, ss)} :: multiset(ss) == multiset(rs) ==> SameDispatch(rs, ss)
  }

  lemma {:induction false} SingleSame(rs: seq<Route>, ss: seq<Route>, c: ErrorCode)
    requires Single(rs) && multiset(ss) == multiset(rs)
    ensures First(rs, c) == First(ss, c)
  {
    FirstIs(rs, c);
    FirstIs(ss, c);
    forall r ensures r in rs <==> r in ss { assert r in multiset(rs) <==> r in multiset(ss); }
  }

  /** The list with its `i`-th entry brought to the front. */
  function Fronted(rs: seq<Route>, i: nat): (ss: seq<Route>)
    requires i < |rs|
    ensures multiset(ss) == multiset(rs) && ss[0] == rs[i]
  {
    assert rs == rs[..i] + [rs[i]] + rs[i + 1..];
    [rs[i]] + rs[..i] + rs[i + 1..]
  }

  /** A code that no route names. */
  lemma {:induction false} Unnamed(rs: seq<Route>) returns (code: string)
    ensures forall r :: r in rs && r.code.Code? ==> |r.code.code| < |code|
  {
    if rs == [] {
      code := "";
    } else {
      var rest := Unnamed(rs[1..]);
      var more := if rs[0].code.Code? then rs[0].code.code else "";
      code := rest + more + "x";
      assert rs == [rs[0]] + rs[1..];
    }
  }

  /** A code that the first entries of both lists take. */
  lemma FrontsDecide(a: seq<Route>, b: seq<Route>) returns (code: string)
    requires a != [] && b != [] && multiset(a) == multiset(b) && a[0].code == b[0].code
    ensures Due(a, code) == [a[0]] && Due(b, code) == [b[0]]
  {
    if a[0].code.Code? {
      code := a[0].code.code;
    } else {
      code := Unnamed(a);
      FirstIs(a, Code(code));
      FirstIs(b, Code(code));
      forall r: Route | r in b ensures r.code != Code(code) { assert r in multiset(b) && r in multiset(a); }
    }
  }

  /** The order of arming makes no difference if and only if no code has two routes. */
  lemma OrderFreeExactly(rs: seq<Route>)
    ensures OrderFree(rs) <==> Single(rs)
  {
    if Single(rs) {
      forall ss | multiset(ss) == multiset(rs) ensures SameDispatch(rs, ss) {
        forall code ensures MatchRoute(Arming([], rs), code) == MatchRoute(Arming([], ss), code) {
          DispatchIs(rs, code);
          DispatchIs(ss, code);
          SingleSame(rs, ss, Code(code));
          SingleSame(rs, ss, AnyError);
        }
      }
    }
    if OrderFree(rs) {
      forall r, q | r in rs && q in rs && r.code == q.code ensures r == q {
        var i :| 0 <= i < |rs| && rs[i] == r;
        var j :| 0 <= j < |rs| && rs[j] == q;
        FreeIsSingle(rs, i, j);
      }
    }
  }

  lemma FreeIsSingle(rs: seq<Route>, i: nat, j: nat)
    requires OrderFree(rs) && i < |rs| && j < |rs| && rs[i].code == rs[j].code
    ensures rs[i] == rs[j]
  {
    var a, b := Fronted(rs, i), Fronted(rs, j);
    assert SameDispatch(rs, a) && SameDispatch(rs, b);
    var code := FrontsDecide(a, b);
    DispatchIs(a, code);
    DispatchIs(b, code);
    assert MatchRoute(Arming([], rs), code) == MatchRoute(Arming([], a), code) == MatchRoute(Arming([], b), code);
  }

  // ---------------------------------------------------------------- from the graph

  /** The routes of boundary events, each to where its flow leads. */
  function RoutesOf(pl: Plan, errors: seq<ErrorHost>): (rs: seq<Route>)
    ensures |rs| == |errors|
    ensures forall i :: 0 <= i < |rs| ==> rs[i] == Route(errors[i].code, NextAddr(pl, errors[i].node).Or(0))
  {
    seq(|errors|, i requires 0 <= i < |errors| => Route(errors[i].code, NextAddr(pl, errors[i].node).Or(0)))
  }

  lemma RoutesConcat(pl: Plan, a: seq<ErrorHost>, b: seq<ErrorHost>)
    ensures RoutesOf(pl, a + b) == RoutesOf(pl, a) + RoutesOf(pl, b)
  {
  }

  lemma {:induction false} SplitFirst(pl: Plan, errors: seq<ErrorHost>, c: ErrorCode)
    ensures First(RoutesOf(pl, Specific(errors)), c) == if c.AnyError? then [] else First(RoutesOf(pl, errors), c)
    ensures First(RoutesOf(pl, CatchAlls(errors)), c) == if c.AnyError? then First(RoutesOf(pl, errors), c) else []
  {
    if errors != [] {
      var one, rest := errors[0], errors[1..];
      SplitFirst(pl, rest, c);
      assert errors == [one] + rest;
      RoutesConcat(pl, [one], rest);
      RoutesConcat(pl, [one], Specific(rest));
      RoutesConcat(pl, [one], CatchAlls(rest));
      var r := RoutesOf(pl, [one]);
      assert First(r, c) == if one.code == c then r else [];
      FirstConcat(r, RoutesOf(pl, rest), c);
      FirstConcat(r, RoutesOf(pl, Specific(rest)), c);
      FirstConcat(r, RoutesOf(pl, CatchAlls(rest)), c);
      assert [] + Specific(rest) == Specific(rest) && [] + CatchAlls(rest) == CatchAlls(rest);
    }
  }

  /** Arming specific codes first changes nothing. */
  lemma ArmOrderSame(pl: Plan, errors: seq<ErrorHost>, code: string)
    ensures Due(RoutesOf(pl, ArmOrder(errors)), code) == Due(RoutesOf(pl, errors), code)
  {
    RoutesConcat(pl, Specific(errors), CatchAlls(errors));
    forall c: ErrorCode ensures First(RoutesOf(pl, ArmOrder(errors)), c) == First(RoutesOf(pl, errors), c) {
      SplitFirst(pl, errors, c);
      FirstConcat(RoutesOf(pl, Specific(errors)), RoutesOf(pl, CatchAlls(errors)), c);
    }
  }

  /** The fibre stands at `a` inside the open guard `h`, whose routes are `routes`. */
  ghost predicate Guarding(s: State, f: nat, h: nat, a: nat, routes: seq<Route>) {
    && Runnable(s, f) && s.fibers[f].pc == a && |s.fibers[f].control| > 0
    && s.fibers[f].control[|s.fibers[f].control| - 1] == h
    && h in s.table && s.table[h].armed && s.table[h].kind.GuardRecord? && s.table[h].routes == routes
  }

  lemma ArmStep(p: Program, s: State, f: nat, h: nat, a: nat, routes: seq<Route>, r: Route) returns (t: State)
    requires Guarding(s, f, h, a, routes) && a < |p| && p[a] == GuardArmError(r.code, r.target)
    ensures Runs(p, s, f, t) && Guarding(t, f, h, a + 1, InsertRoute(routes, r))
  {
    t := ArmErrorState(s, f, r).state;
    OneWord(p, s, f, t);
  }

  /** The arming words leave the guard with the routes of the events. */
  lemma {:induction false} ArmsRun(pl: Plan, p: Program, s: State, f: nat, h: nat, a: nat, routes: seq<Route>,
                                   errors: seq<ErrorHost>)
    returns (t: State)
    requires Guarding(s, f, h, a, routes) && Placed(p, a, ArmWords(pl, errors)) && errors != []
    ensures Runs(p, s, f, t) && Guarding(t, f, h, a + |errors|, Arming(routes, RoutesOf(pl, errors)))
    decreases |errors|
  {
    var rs := RoutesOf(pl, errors);
    var rest := errors[1..];
    PlacedWord(p, a, ArmWords(pl, errors), 0);
    t := ArmStep(p, s, f, h, a, routes, rs[0]);
    assert RoutesOf(pl, rest) == rs[1..];
    if rest != [] {
      assert ArmWords(pl, rest) == ArmWords(pl, errors)[1..];
      forall i | 0 <= i < |rest| ensures a + 1 + i < |p| && p[a + 1 + i] == ArmWords(pl, rest)[i] {
        PlacedWord(p, a, ArmWords(pl, errors), i + 1);
      }
      var u := t;
      t := ArmsRun(pl, p, u, f, h, a + 1, InsertRoute(routes, rs[0]), rest);
      RunsOn(p, s, f, u, t);
    }
  }

  /** From a guard just opened, the arming words that the events on a task are lowered to make
      the guard route an error by the first event for its code, else by the first catch-all. */
  lemma GuardDispatches(pl: Plan, p: Program, s: State, f: nat, h: nat, a: nat, errors: seq<ErrorHost>, code: string)
    returns (t: State)
    requires Guarding(s, f, h, a, []) && Placed(p, a, ArmWords(pl, ArmOrder(errors))) && errors != []
    ensures Runs(p, s, f, t) && h in t.table && MatchRoute(t.table[h].routes, code) == Due(RoutesOf(pl, errors), code)
  {
    ArmOrderSize(errors);
    t := ArmsRun(pl, p, s, f, h, a, [], ArmOrder(errors));
    DispatchIs(RoutesOf(pl, ArmOrder(errors)), code);
    ArmOrderSame(pl, errors, code);
  }

  // ---------------------------------------------------------------- the admission check

  /** Node `n` is a boundary event on `host` for this code. */
  predicate Catches(g: Graph, n: nat, host: nat, code: ErrorCode) {
    n < |g.nodes| && g.nodes[n] == BoundaryError(host, code)
  }

  /** Two boundary events below `k` on one host are for one code. */
  ghost predicate Clash(g: Graph, k: nat, host: nat, code: ErrorCode) {
    exists i: nat, j: nat :: i < j < k && Catches(g, i, host, code) && Catches(g, j, host, code)
  }

  /** The boundary events below `n` on one host for one code. */
  function EventsFor(g: Graph, n: nat, host: nat, code: ErrorCode): seq<nat>
    requires n <= |g.nodes|
  {
    if n == 0 then [] else EventsFor(g, n - 1, host, code) + (if Catches(g, n - 1, host, code) then [n - 1] else [])
  }

  lemma {:induction false} EventsListed(g: Graph, n: nat, host: nat, code: ErrorCode, i: nat)
    requires n <= |g.nodes|
    ensures i in EventsFor(g, n, host, code) <==> i < n && Catches(g, i, host, code)
  {
    if n > 0 { EventsListed(g, n - 1, host, code, i); }
  }

  lemma {:induction false} ManyClash(g: Graph, n: nat, host: nat, code: ErrorCode)
    requires n <= |g.nodes|
    ensures |EventsFor(g, n, host, code)| > 1 <==> Clash(g, n, host, code)
  {
    if n > 0 {
      var before := EventsFor(g, n - 1, host, code);
      ManyClash(g, n - 1, host, code);
      if Catches(g, n - 1, host, code) {
        if before != [] {
          EventsListed(g, n - 1, host, code, before[0]);
          assert Catches(g, before[0], host, code);
        }
        forall i: nat | i < n - 1 && Catches(g, i, host, code)
          ensures before != [] { EventsListed(g, n - 1, host, code, i); }
      }
    }
  }

  ghost predicate Listed(g: Graph, n: nat, ids: map<(nat, ErrorCode), seq<nat>>, host: nat, code: ErrorCode)
    requires n <= |g.nodes|
  {
    (if (host, code) in ids then ids[(host, code)] else []) == EventsFor(g, n, host, code)
  }

  /** Finds every host that has two boundary events for one code, or two catch-alls. */
  method FindClashes(g: Graph) returns (clashes: set<(nat, ErrorCode)>)
    ensures forall host: nat, code :: (host, code) in clashes <==> Clash(g, |g.nodes|, host, code)
  {
    var ids: map<(nat, ErrorCode), seq<nat>> := map[];
    for n := 0 to |g.nodes|
      invariant forall host: nat, code {:trigger Listed(g, n, ids, host, code)} :: Listed(g, n, ids, host, code)
    {
      ghost var before := ids;
      if g.nodes[n].BoundaryError? {
        var k := (g.nodes[n].host, g.nodes[n].code);
        ids := ids[k := (if k in ids then ids[k] else []) + [n]];
      }
      ghost var next := n + 1;
      forall host: nat, code ensures Listed(g, next, ids, host, code) { assert Listed(g, n, before, host, code); }
    }
    clashes := set k | k in ids && |ids[k]| > 1;
    forall host: nat, code ensures (host, code) in clashes <==> Clash(g, |g.nodes|, host, code) {
      assert Listed(g, |g.nodes|, ids, host, code);
      ManyClash(g, |g.nodes|, host, code);
    }
  }

  lemma {:induction false} EventsOn(g: Graph, order: seq<nat>, host: nat, e: ErrorHost)
    requires (forall i :: 0 <= i < |order| ==> order[i] < |g.nodes|) && e in Lowering.ErrorsIn(g, order, host)
    ensures e.node in order && Catches(g, e.node, host, e.code)
    decreases |order|
  {
    var init := order[..|order| - 1];
    if e in Lowering.ErrorsIn(g, init, host) {
      EventsOn(g, init, host, e);
      assert order == init + [order[|order| - 1]];
    }
  }

  lemma OneEvent(g: Graph, host: nat, code: ErrorCode, m: nat, n: nat)
    requires Catches(g, m, host, code) && Catches(g, n, host, code) && !Clash(g, |g.nodes|, host, code)
    ensures m == n
  {
  }

  /** On a graph without clashes, the order in which the events of a task are collected and
      armed makes no difference to what takes an error. */
  lemma AdmittedIsOrderFree(g: Graph, order: seq<nat>, pl: Plan, host: nat)
    requires Compiler.Collected(g, order, pl.b) && pl.g == g
    requires forall code :: !Clash(g, |g.nodes|, host, code)
    ensures OrderFree(RoutesOf(pl, ErrorsOf(pl.b, host)))
  {
    var errors := ErrorsOf(pl.b, host);
    var rs := RoutesOf(pl, errors);
    forall r, q | r in rs && q in rs && r.code == q.code ensures r == q {
      var i :| 0 <= i < |rs| && rs[i] == r;
      var j :| 0 <= j < |rs| && rs[j] == q;
      EventsOn(g, order, host, errors[i]);
      EventsOn(g, order, host, errors[j]);
      OneEvent(g, host, r.code, errors[i].node, errors[j].node);
    }
    OrderFreeExactly(rs);
  }
}
