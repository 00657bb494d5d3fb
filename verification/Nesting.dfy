/** The admission check that parallel and inclusive gateways nest: a depth-first walk that
    carries a bracket stack down every branch and tallies which branches were closed. */
module Nesting {
  import opened Graphs
  import opened Ir

  datatype Kind = And | Inclusive

  datatype Role = Opens(kind: Kind) | Closes(kind: Kind) | Plain

  /** What the check sees of a workflow graph. */
  datatype Net = Net(roles: seq<Role>, next: Digraph)

  function RoleOf(node: Node): Role {
    match node
    case GatewayAnd(Diverging) => Opens(And)
    case GatewayAnd(Converging) => Closes(And)
    case GatewayInclusive(Diverging) => Opens(Inclusive)
    case GatewayInclusive(Converging) => Closes(Inclusive)
    case _ => Plain
  }

  function NetOf(g: Graph): Net {
    Net(seq(|g.nodes|, n requires 0 <= n < |g.nodes| => RoleOf(g.nodes[n])), Shape(g))
  }

  /** An open branch: branch number `branch` of the diverging gateway `fork`. */
  datatype Entry = Entry(kind: Kind, fork: nat, branch: nat)

  datatype Report =
    | Unmatched(join: nat)
    | Crossing(join: nat, fork: nat)
    | Unclosed(forks: set<nat>)

  datatype Tally = Tally(visited: set<nat>, degrees: map<nat, nat>, closed: set<(nat, nat)>, reports: seq<Report>)

  const FRESH := Tally({}, map[], {}, [])

  ghost predicate Sound(net: Net) {
    |net.roles| == |net.next| && Closed(net.next)
  }

  lemma Heads(net: Net, n: nat)
    requires Sound(net) && n < |net.next|
    ensures forall i :: 0 <= i < |net.next[n]| ==> net.next[n][i] < |net.next|
  {
    forall i | 0 <= i < |net.next[n]| ensures net.next[n][i] < |net.next| { assert Edge(net.next, n, net.next[n][i]); }
  }

  // ---------------------------------------------------------------- the walk

  function Last(stack: seq<Entry>): Entry
    requires stack != []
  {
    stack[|stack| - 1]
  }

  /** The stack on leaving the entry of `n`: a converging gateway takes the innermost branch off. */
  function After(net: Net, n: nat, stack: seq<Entry>): seq<Entry>
    requires n < |net.roles|
  {
    if net.roles[n].Closes? && stack != [] then stack[..|stack| - 1] else stack
  }

  /** The stack carried into branch `k` of `n`. */
  function Into(net: Net, n: nat, k: nat, stack: seq<Entry>): seq<Entry>
    requires n < |net.roles|
  {
    if net.roles[n].Opens? then stack + [Entry(net.roles[n].kind, n, k)] else stack
  }

  /** What arriving at `n` with this stack adds to the tally. */
  function Arrive(net: Net, n: nat, stack: seq<Entry>, t: Tally): Tally
    requires n < |net.roles|
  {
    if !net.roles[n].Closes? then t
    else if stack == [] then t.(reports := t.reports + [Unmatched(n)])
    else if Last(stack).kind != net.roles[n].kind then t.(reports := t.reports + [Crossing(n, Last(stack).fork)])
    else t.(closed := t.closed + {(Last(stack).fork, Last(stack).branch)})
  }

  /** A first visit: the node is marked, and a diverging gateway's branches are counted. */
  function Mark(net: Net, n: nat, t: Tally): Tally
    requires n < |net.roles| == |net.next|
  {
    t.(visited := t.visited + {n},
       degrees := if net.roles[n].Opens? then t.degrees[n := |net.next[n]|] else t.degrees)
  }

  function Unseen(net: Net, t: Tally): set<nat> {
    Upto(|net.next|) - t.visited
  }

  function Visit(net: Net, n: nat, stack: seq<Entry>, t: Tally): (r: Tally)
    requires Sound(net) && n < |net.next|
    ensures t.visited <= r.visited
    decreases Unseen(net, t), 0
  {
    if n in t.visited then Arrive(net, n, stack, t)
    else
      var u := Mark(net, n, Arrive(net, n, stack, t));
      assert n in Unseen(net, t) && n !in Unseen(net, u);
      VisitEach(net, n, 0, After(net, n, stack), u)
  }

  function VisitEach(net: Net, n: nat, k: nat, stack: seq<Entry>, t: Tally): (r: Tally)
    requires Sound(net) && n < |net.next| && k <= |net.next[n]|
    ensures t.visited <= r.visited
    decreases Unseen(net, t), 1 + |net.next[n]| - k
  {
    if k == |net.next[n]| then t
    else
      Heads(net, n);
      var u := Visit(net, net.next[n][k], Into(net, n, k, stack), t);
      assert Unseen(net, u) <= Unseen(net, t);
      VisitEach(net, n, k + 1, stack, u)
  }

  /** Diverging gateways with a branch that was never closed. */
  function Dangling(t: Tally): set<nat> {
    set f | f in t.degrees && exists b :: 0 <= b < t.degrees[f] && (f, b) !in t.closed
  }

  function Reports(t: Tally): seq<Report> {
    t.reports + (if Dangling(t) == {} then [] else [Unclosed(Dangling(t))])
  }

  /** The errors of the whole check. */
  function Check(net: Net, start: nat): seq<Report>
    requires Sound(net) && start < |net.next|
  {
    Reports(Visit(net, start, [], FRESH))
  }

  // ---------------------------------------------------------------- as it is computed

  /** The state that the recursive walk shares. */
  class Tracker {
    var visited: set<nat>
    var degrees: map<nat, nat>
    var closed: set<(nat, nat)>
    var reports: seq<Report>

    function Now(): Tally
      reads this
    {
      Tally(visited, degrees, closed, reports)
    }

    constructor ()
      ensures Now() == FRESH
    {
      visited, degrees, closed, reports := {}, map[], {}, [];
    }

    /** Takes the innermost open branch off the stack at a converging gateway. */
    method Pop(net: Net, n: nat, stack: seq<Entry>) returns (rest: seq<Entry>)
      requires n < |net.roles|
      modifies this
      ensures rest == After(net, n, stack) && Now() == Arrive(net, n, stack, old(Now()))
    {
      rest := stack;
      if !net.roles[n].Closes? { return; }
      if stack == [] {
        reports := reports + [Unmatched(n)];
        return;
      }
      var top := stack[|stack| - 1];
      rest := stack[..|stack| - 1];
      if top.kind != net.roles[n].kind {
        reports := reports + [Crossing(n, top.fork)];
      } else {
        closed := closed + {(top.fork, top.branch)};
      }
    }

    /** Walks everything reachable from `n` that was not walked before, each branch with
        a stack of its own. */
    method Walk(net: Net, n: nat, stack: seq<Entry>)
      requires Sound(net) && n < |net.next|
      modifies this
      ensures Now() == Visit(net, n, stack, old(Now()))
      decreases Unseen(net, Now())
    {
      if n in visited {
        var _ := Pop(net, n, stack);
        return;
      }
      assert n in Unseen(net, Now());
      var rest := stack;
      if net.roles[n].Closes? {
        rest := Pop(net, n, stack);
      }
      visited := visited + {n};
      if net.roles[n].Opens? {
        degrees := degrees[n := |net.next[n]|];
      }
      Heads(net, n);
      ghost var before := Now();
      for k := 0 to |net.next[n]|
        invariant before.visited <= visited
        invariant VisitEach(net, n, 0, rest, before) == VisitEach(net, n, k, rest, Now())
      {
        assert n !in Unseen(net, Now()) && Unseen(net, Now()) <= Unseen(net, old(Now()));
        Walk(net, net.next[n][k], Into(net, n, k, rest));
      }
    }
  }

  method CheckNesting(net: Net, start: nat) returns (errors: seq<Report>)
    requires Sound(net) && start < |net.next|
    ensures errors == Check(net, start)
  {
    var tracker := new Tracker();
    tracker.Walk(net, start, []);
    errors := tracker.reports;
    var dangling := set f | f in tracker.degrees && exists b ::
      0 <= b < tracker.degrees[f] && (f, b) !in tracker.closed;
    assert dangling == Dangling(tracker.Now());
    if dangling != {} {
      errors := errors + [Unclosed(dangling)];
    }
  }

  // ---------------------------------------------------------------- what the walk covers

  ghost predicate Grows(t: Tally, r: Tally) {
    t.visited <= r.visited && t.closed <= r.closed && t.degrees.Keys <= r.degrees.Keys && t.reports <= r.reports
  }

  /** Every diverging gateway visited has its branches counted. */
  ghost predicate Counted(net: Net, t: Tally) {
    && (forall f :: f in t.visited ==> f < |net.roles| == |net.next|)
    && (forall f :: f in t.degrees ==> f in t.visited && net.roles[f].Opens? && t.degrees[f] == |net.next[f]|)
    && (forall f :: f in t.visited && net.roles[f].Opens? ==> f in t.degrees)
  }

  /** Successors of the nodes new in `r` are visited. */
  ghost predicate Spread(net: Net, t: Tally, r: Tally) {
    forall u, v :: u in r.visited && u !in t.visited && Edge(net.next, u, v) ==> v in r.visited
  }

  /** `r` extends `t` soundly. */
  ghost predicate Extends(net: Net, t: Tally, r: Tally) {
    Grows(t, r) && Counted(net, r) && Spread(net, t, r)
  }

  lemma ExtendsTrans(net: Net, t: Tally, u: Tally, r: Tally)
    requires Extends(net, t, u) && Extends(net, u, r)
    ensures Extends(net, t, r)
  {
  }

  lemma {:induction false} VisitCovers(net: Net, n: nat, stack: seq<Entry>, t: Tally)
    requires Sound(net) && n < |net.next| && Counted(net, t)
    ensures var r := Visit(net, n, stack, t);
      Extends(net, t, r) && n in r.visited
    decreases Unseen(net, t), 0
  {
    if n !in t.visited {
      var u := Mark(net, n, Arrive(net, n, stack, t));
      assert n in Unseen(net, t) && n !in Unseen(net, u);
      EachCovers(net, n, 0, After(net, n, stack), u);
      MarkCovers(net, n, t, u, VisitEach(net, n, 0, After(net, n, stack), u));
    }
  }

  lemma MarkCovers(net: Net, n: nat, t: Tally, u: Tally, r: Tally)
    requires Grows(t, u) && u.visited == t.visited + {n} && Extends(net, u, r) && n < |net.next|
    requires forall i :: 0 <= i < |net.next[n]| ==> net.next[n][i] in r.visited
    ensures Extends(net, t, r) && n in r.visited
  {
  }

  lemma {:induction false} EachCovers(net: Net, n: nat, k: nat, stack: seq<Entry>, t: Tally)
    requires Sound(net) && n < |net.next| && k <= |net.next[n]| && Counted(net, t)
    ensures var r := VisitEach(net, n, k, stack, t);
      && Extends(net, t, r)
      && forall i :: k <= i < |net.next[n]| ==> net.next[n][i] in r.visited
    decreases Unseen(net, t), 1 + |net.next[n]| - k
  {
    if k < |net.next[n]| {
      Heads(net, n);
      var u := Visit(net, net.next[n][k], Into(net, n, k, stack), t);
      VisitCovers(net, net.next[n][k], Into(net, n, k, stack), t);
      assert Unseen(net, u) <= Unseen(net, t);
      EachCovers(net, n, k + 1, stack, u);
      ExtendsTrans(net, t, u, VisitEach(net, n, k + 1, stack, u));
    }
  }

  lemma {:induction false} PathVisited(net: Net, r: Tally, p: seq<nat>)
    requires Spread(net, FRESH, r) && IsPath(net.next, p) && p[0] in r.visited
    ensures p[|p| - 1] in r.visited
    decreases |p|
  {
    if |p| > 1 {
      assert Edge(net.next, p[0], p[1]);
      PathSlice(net.next, p, 1, |p|);
      PathVisited(net, r, p[1..|p|]);
    }
  }

  ghost predicate OnlyFrom(net: Net, n: nat, t: Tally, r: Tally) {
    forall u :: u in r.visited && u !in t.visited ==> Reaches(net.next, n, u)
  }

  lemma {:induction false} VisitOnly(net: Net, n: nat, stack: seq<Entry>, t: Tally)
    requires Sound(net) && n < |net.next|
    ensures OnlyFrom(net, n, t, Visit(net, n, stack, t))
    decreases Unseen(net, t), 0
  {
    if n !in t.visited {
      var u := Mark(net, n, Arrive(net, n, stack, t));
      assert n in Unseen(net, t) && n !in Unseen(net, u);
      EachOnly(net, n, 0, After(net, n, stack), u);
      Refl(net.next, n);
    }
  }

  lemma {:induction false} EachOnly(net: Net, n: nat, k: nat, stack: seq<Entry>, t: Tally)
    requires Sound(net) && n < |net.next| && k <= |net.next[n]|
    ensures OnlyFrom(net, n, t, VisitEach(net, n, k, stack, t))
    decreases Unseen(net, t), 1 + |net.next[n]| - k
  {
    if k < |net.next[n]| {
      Heads(net, n);
      var v := net.next[n][k];
      var u := Visit(net, v, Into(net, n, k, stack), t);
      VisitOnly(net, v, Into(net, n, k, stack), t);
      assert Unseen(net, u) <= Unseen(net, t);
      EachOnly(net, n, k + 1, stack, u);
      EdgeReaches(net.next, n, v);
      forall x | x in u.visited && x !in t.visited ensures Reaches(net.next, n, x) { Trans(net.next, n, v, x); }
    }
  }

  /** The walk visits exactly the nodes on the flow from the start. */
  lemma {:induction false} Covered(net: Net, start: nat, n: nat)
    requires Sound(net) && start < |net.next|
    ensures n in Visit(net, start, [], FRESH).visited <==> Reaches(net.next, start, n)
  {
    VisitCovers(net, start, [], FRESH);
    VisitOnly(net, start, [], FRESH);
    if Reaches(net.next, start, n) {
      var p :| PathFromTo(net.next, p, start, n);
      PathVisited(net, Visit(net, start, [], FRESH), p);
    }
  }

  // ---------------------------------------------------------------- trails

  /** A way through the net from `start`: the number of the flow taken at each node. */
  ghost predicate IsTrail(net: Net, start: nat, ks: seq<nat>)
    requires Sound(net) && start < |net.next|
    decreases |ks|, 0
  {
    ks == [] || (IsTrail(net, start, ks[..|ks| - 1]) && ks[|ks| - 1] < |net.next[End(net, start, ks[..|ks| - 1])]|)
  }

  ghost function End(net: Net, start: nat, ks: seq<nat>): (n: nat)
    requires Sound(net) && start < |net.next| && IsTrail(net, start, ks)
    ensures n < |net.next|
    decreases |ks|, 1
  {
    if ks == [] then start
    else
      var u := End(net, start, ks[..|ks| - 1]);
      Heads(net, u);
      net.next[u][ks[|ks| - 1]]
  }

  /** The bracket stack on arriving at the end of a trail: each diverging gateway passed
      opened the branch taken, each converging one closed the innermost. */
  ghost function Carried(net: Net, start: nat, ks: seq<nat>): seq<Entry>
    requires Sound(net) && start < |net.next| && IsTrail(net, start, ks)
    decreases |ks|
  {
    if ks == [] then []
    else
      var init := ks[..|ks| - 1];
      var u := End(net, start, init);
      Into(net, u, ks[|ks| - 1], After(net, u, Carried(net, start, init)))
  }

  /** The trail ends at a converging gateway that closes branch `b` of the gateway `f` of its own kind. */
  ghost predicate ClosesBranch(net: Net, start: nat, ks: seq<nat>, f: nat, b: nat)
    requires Sound(net) && start < |net.next|
  {
    && IsTrail(net, start, ks) && net.roles[End(net, start, ks)].Closes?
    && Carried(net, start, ks) != []
    && Last(Carried(net, start, ks)) == Entry(net.roles[End(net, start, ks)].kind, f, b)
  }

  /** The trail ends with flow `k` of `u`, and if that flow enters a converging gateway then
      the innermost open branch there is of its kind. */
  ghost predicate Matches(net: Net, start: nat, ks: seq<nat>, u: nat, k: nat)
    requires Sound(net) && start < |net.next|
  {
    && ks != [] && IsTrail(net, start, ks) && End(net, start, ks[..|ks| - 1]) == u && ks[|ks| - 1] == k
    && var v := End(net, start, ks);
       net.roles[v].Closes? ==> Carried(net, start, ks) != [] && Last(Carried(net, start, ks)).kind == net.roles[v].kind
  }

  ghost predicate Witnessed(net: Net, start: nat, closed: set<(nat, nat)>)
    requires Sound(net) && start < |net.next|
  {
    forall c :: c in closed ==> exists ks :: ClosesBranch(net, start, ks, c.0, c.1)
  }

  lemma {:induction false} TrailSnoc(net: Net, start: nat, ks: seq<nat>, k: nat)
    requires Sound(net) && start < |net.next| && IsTrail(net, start, ks) && k < |net.next[End(net, start, ks)]|
    ensures IsTrail(net, start, ks + [k]) && (ks + [k])[..|ks|] == ks
    ensures End(net, start, ks + [k]) == net.next[End(net, start, ks)][k]
    ensures Carried(net, start, ks + [k]) ==
      Into(net, End(net, start, ks), k, After(net, End(net, start, ks), Carried(net, start, ks)))
  {
    assert (ks + [k])[..|ks + [k]| - 1] == ks;
  }

  lemma {:induction false} VisitWitnessed(net: Net, start: nat, ks: seq<nat>, t: Tally)
    requires Sound(net) && start < |net.next| && IsTrail(net, start, ks) && Witnessed(net, start, t.closed)
    ensures Witnessed(net, start, Visit(net, End(net, start, ks), Carried(net, start, ks), t).closed)
    decreases Unseen(net, t), 0
  {
    var n, stack := End(net, start, ks), Carried(net, start, ks);
    var a := Arrive(net, n, stack, t);
    forall c | c in a.closed ensures exists js :: ClosesBranch(net, start, js, c.0, c.1) {
      if c !in t.closed { assert ClosesBranch(net, start, ks, c.0, c.1); }
    }
    if n !in t.visited {
      var u := Mark(net, n, a);
      assert n in Unseen(net, t) && n !in Unseen(net, u);
      EachWitnessed(net, start, ks, 0, u);
    }
  }

  lemma {:induction false} EachWitnessed(net: Net, start: nat, ks: seq<nat>, k: nat, t: Tally)
    requires Sound(net) && start < |net.next| && IsTrail(net, start, ks) && Witnessed(net, start, t.closed)
    requires k <= |net.next[End(net, start, ks)]|
    ensures var n := End(net, start, ks);
      Witnessed(net, start, VisitEach(net, n, k, After(net, n, Carried(net, start, ks)), t).closed)
    decreases Unseen(net, t), 1 + |net.next[End(net, start, ks)]| - k
  {
    var n := End(net, start, ks);
    var stack := After(net, n, Carried(net, start, ks));
    if k < |net.next[n]| {
      Heads(net, n);
      TrailSnoc(net, start, ks, k);
      var u := Visit(net, net.next[n][k], Into(net, n, k, stack), t);
      VisitWitnessed(net, start, ks + [k], t);
      assert Unseen(net, u) <= Unseen(net, t);
      EachWitnessed(net, start, ks, k + 1, u);
    }
  }

  // ---------------------------------------------------------------- matching flows

  /** Nodes with the stacks on which they are arrived at. */
  type Arrivals = iset<(nat, seq<Entry>)>

  /** If `n` is arrived at with `stack`, so is the target of its flow `k`, with the stack that flow carries. */
  ghost predicate Follows(net: Net, arrivals: Arrivals, n: nat, stack: seq<Entry>, k: nat)
    requires Sound(net)
  {
    (n, stack) in arrivals && n < |net.next| && k < |net.next[n]| ==>
      (net.next[n][k], Into(net, n, k, After(net, n, stack))) in arrivals
  }

  ghost predicate Followed(net: Net, arrivals: Arrivals)
    requires Sound(net)
  {
    forall n: nat, stack: seq<Entry>, k: nat {:trigger Follows(net, arrivals, n, stack, k)} ::
      Follows(net, arrivals, n, stack, k)
  }

  /** A converging gateway finds an open branch of its own kind innermost. */
  predicate Fits(net: Net, n: nat, stack: seq<Entry>)
    requires n < |net.roles|
  {
    net.roles[n].Closes? ==> stack != [] && Last(stack).kind == net.roles[n].kind
  }

  ghost predicate FlowFits(net: Net, arrivals: Arrivals, u: nat, k: nat)
    requires Sound(net) && u < |net.next| && k < |net.next[u]| && net.next[u][k] < |net.next|
  {
    exists stack :: (u, stack) in arrivals && Fits(net, net.next[u][k], Into(net, u, k, After(net, u, stack)))
  }

  ghost predicate FlowsFit(net: Net, arrivals: Arrivals, u: nat, from: nat) {
    && Sound(net) && u < |net.next| && (forall k :: 0 <= k < |net.next[u]| ==> net.next[u][k] < |net.next|)
    && forall k :: from <= k < |net.next[u]| ==> FlowFits(net, arrivals, u, k)
  }

  /** Flows out of the nodes new in `r` all fit. */
  ghost predicate NewFit(net: Net, arrivals: Arrivals, t: Tally, r: Tally) {
    forall u {:trigger FlowsFit(net, arrivals, u, 0)} :: u in r.visited && u !in t.visited ==>
      FlowsFit(net, arrivals, u, 0)
  }

  lemma NewFitTrans(net: Net, arrivals: Arrivals, t: Tally, u: Tally, r: Tally)
    requires NewFit(net, arrivals, t, u) && NewFit(net, arrivals, u, r)
    ensures NewFit(net, arrivals, t, r)
  {
  }

  /** A visit that reports nothing reports nothing on arrival and nothing further on. */
  lemma {:induction false} QuietHere(net: Net, n: nat, stack: seq<Entry>, t: Tally)
    requires Sound(net) && n < |net.next| && Counted(net, t) && Visit(net, n, stack, t).reports == t.reports
    ensures Fits(net, n, stack)
    ensures n !in t.visited ==>
      var u := Mark(net, n, Arrive(net, n, stack, t));
      Visit(net, n, stack, t) == VisitEach(net, n, 0, After(net, n, stack), u) && Counted(net, u) &&
        u.reports == t.reports
  {
    if n !in t.visited {
      var u := Mark(net, n, Arrive(net, n, stack, t));
      EachCovers(net, n, 0, After(net, n, stack), u);
    }
  }

  lemma {:induction false} QuietSplit(net: Net, n: nat, k: nat, stack: seq<Entry>, t: Tally)
    requires Sound(net) && n < |net.next| && k < |net.next[n]| && net.next[n][k] < |net.next| && Counted(net, t)
    requires VisitEach(net, n, k, stack, t).reports == t.reports
    ensures var u := Visit(net, net.next[n][k], Into(net, n, k, stack), t);
      && u.reports == t.reports && Counted(net, u) && VisitEach(net, n, k + 1, stack, u).reports == t.reports
      && Unseen(net, u) <= Unseen(net, t)
  {
    var u := Visit(net, net.next[n][k], Into(net, n, k, stack), t);
    VisitCovers(net, net.next[n][k], Into(net, n, k, stack), t);
    EachCovers(net, n, k + 1, stack, u);
  }

  lemma FlowsFitCons(net: Net, arrivals: Arrivals, n: nat, k: nat, stack: seq<Entry>)
    requires FlowsFit(net, arrivals, n, k + 1) && k < |net.next[n]| && (n, stack) in arrivals
    requires Fits(net, net.next[n][k], Into(net, n, k, After(net, n, stack)))
    ensures FlowsFit(net, arrivals, n, k)
  {
  }

  lemma {:induction false} VisitFits(net: Net, arrivals: Arrivals, n: nat, stack: seq<Entry>, t: Tally)
    requires Sound(net) && Followed(net, arrivals) && n < |net.next| && (n, stack) in arrivals && Counted(net, t)
    requires Visit(net, n, stack, t).reports == t.reports
    ensures Fits(net, n, stack) && NewFit(net, arrivals, t, Visit(net, n, stack, t))
    decreases Unseen(net, t), 0
  {
    QuietHere(net, n, stack, t);
    if n !in t.visited {
      var u := Mark(net, n, Arrive(net, n, stack, t));
      assert n in Unseen(net, t) && n !in Unseen(net, u);
      EachFits(net, arrivals, n, 0, stack, u);
      assert u.visited == t.visited + {n};
    }
  }

  lemma {:induction false} EachFits(net: Net, arrivals: Arrivals, n: nat, k: nat, stack: seq<Entry>, t: Tally)
    requires Sound(net) && Followed(net, arrivals) && n < |net.next| && (n, stack) in arrivals && Counted(net, t)
    requires k <= |net.next[n]| && VisitEach(net, n, k, After(net, n, stack), t).reports == t.reports
    ensures FlowsFit(net, arrivals, n, k) && NewFit(net, arrivals, t, VisitEach(net, n, k, After(net, n, stack), t))
    decreases Unseen(net, t), 1 + |net.next[n]| - k
  {
    Heads(net, n);
    if k < |net.next[n]| {
      var rest := After(net, n, stack);
      QuietSplit(net, n, k, rest, t);
      assert Follows(net, arrivals, n, stack, k);
      var u := Visit(net, net.next[n][k], Into(net, n, k, rest), t);
      VisitFits(net, arrivals, net.next[n][k], Into(net, n, k, rest), t);
      EachFits(net, arrivals, n, k + 1, stack, u);
      FlowsFitCons(net, arrivals, n, k, stack);
      NewFitTrans(net, arrivals, t, u, VisitEach(net, n, k + 1, rest, u));
    }
  }

  /** The arrivals of all trails. */
  ghost function Trails(net: Net, start: nat): Arrivals
    requires Sound(net) && start < |net.next|
  {
    iset ks: seq<nat> | IsTrail(net, start, ks) :: (End(net, start, ks), Carried(net, start, ks))
  }

  lemma TrailsFollow(net: Net, start: nat)
    requires Sound(net) && start < |net.next|
    ensures Followed(net, Trails(net, start)) && (start, []) in Trails(net, start)
  {
    var a := Trails(net, start);
    var none: seq<nat> := [];
    assert (End(net, start, none), Carried(net, start, none)) in a;
    forall n: nat, stack: seq<Entry>, k: nat ensures Follows(net, a, n, stack, k) {
      if (n, stack) in a && n < |net.next| && k < |net.next[n]| {
        var ks: seq<nat> :| IsTrail(net, start, ks) && (n, stack) == (End(net, start, ks), Carried(net, start, ks));
        TrailSnoc(net, start, ks, k);
      }
    }
  }

  // ---------------------------------------------------------------- what silence means

  lemma SilentTally(t: Tally)
    requires Reports(t) == []
    ensures t.reports == [] && forall f, b :: f in t.degrees && 0 <= b < t.degrees[f] ==> (f, b) in t.closed
  {
    forall f, b | f in t.degrees && 0 <= b < t.degrees[f] ensures (f, b) in t.closed {
      assert f !in Dangling(t);
    }
  }

  /** If nothing is reported, every branch of every diverging gateway on the flow is closed
      along some trail by a converging gateway of its kind. */
  lemma SilentCloses(net: Net, start: nat, f: nat, b: nat)
    requires Sound(net) && start < |net.next| && Check(net, start) == []
    requires Reaches(net.next, start, f) && f < |net.next| && net.roles[f].Opens? && b < |net.next[f]|
    ensures exists ks :: ClosesBranch(net, start, ks, f, b)
  {
    var r := Visit(net, start, [], FRESH);
    Covered(net, start, f);
    VisitCovers(net, start, [], FRESH);
    SilentTally(r);
    VisitWitnessed(net, start, [], FRESH);
    assert (f, b) in r.closed;
  }

  lemma {:induction false} SilentFits(net: Net, start: nat, u: nat, k: nat)
    requires Sound(net) && start < |net.next| && Check(net, start) == []
    requires Reaches(net.next, start, u) && u < |net.next| && k < |net.next[u]| && net.next[u][k] < |net.next|
    ensures FlowFits(net, Trails(net, start), u, k)
  {
    var a := Trails(net, start);
    TrailsFollow(net, start);
    Covered(net, start, u);
    SilentTally(Visit(net, start, [], FRESH));
    VisitFits(net, a, start, [], FRESH);
    assert FlowsFit(net, a, u, 0);
  }

  /** If nothing is reported, every flow into a converging gateway is met along some trail
      whose innermost open branch is of the gateway's kind. */
  lemma {:induction false} SilentMatches(net: Net, start: nat, u: nat, k: nat)
    requires Sound(net) && start < |net.next| && Check(net, start) == []
    requires Reaches(net.next, start, u) && u < |net.next| && k < |net.next[u]|
    ensures exists ks :: Matches(net, start, ks, u, k)
  {
    Heads(net, u);
    SilentFits(net, start, u, k);
    var stack :| (u, stack) in Trails(net, start) && Fits(net, net.next[u][k], Into(net, u, k, After(net, u, stack)));
    var ks: seq<nat> :| IsTrail(net, start, ks) && (u, stack) == (End(net, start, ks), Carried(net, start, ks));
    TrailSnoc(net, start, ks, k);
    assert Matches(net, start, ks + [k], u, k);
  }

  /** An open branch on the stack was entered by the trail. */
  lemma {:induction false} EntryTaken(net: Net, start: nat, ks: seq<nat>, e: Entry) returns (i: nat)
    requires Sound(net) && start < |net.next| && IsTrail(net, start, ks) && e in Carried(net, start, ks)
    ensures i < |ks| && IsTrail(net, start, ks[..i]) && End(net, start, ks[..i]) == e.fork && ks[i] == e.branch
    ensures net.roles[e.fork] == Opens(e.kind)
    decreases |ks|
  {
    var init := ks[..|ks| - 1];
    var u := End(net, start, init);
    if net.roles[u].Opens? && e == Entry(net.roles[u].kind, u, ks[|ks| - 1]) {
      i := |ks| - 1;
    } else {
      i := EntryTaken(net, start, init, e);
      assert init[..i] == ks[..i];
    }
  }
}
