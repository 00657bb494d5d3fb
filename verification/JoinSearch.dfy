/** The importer's own search for the join of a split: the nearest join that every branch can
    reach. On structured graphs it agrees with the immediate post-dominator. */
module JoinSearch {
  import opened Options
  import opened Graphs
  import opened PostDominators
  import opened Regions
  import opened Ir
  import Layout

  // ---------------------------------------------------------------- reachable nodes

  /** What is visited or waiting on the stack comes from `n`, and what was visited has been followed. */
  ghost predicate Walking(g: Digraph, n: nat, visited: set<nat>, stack: seq<nat>) {
    && (forall x :: x in visited || x in stack ==> x < |g| && Reaches(g, n, x))
    && (n in visited || n in stack)
    && forall u: nat, v: nat :: u in visited && Edge(g, u, v) ==> v in visited || v in stack
  }

  lemma WalkStep(g: Digraph, n: nat, u: nat, v: nat)
    requires Closed(g) && Reaches(g, n, u) && Edge(g, u, v)
    ensures v < |g| && Reaches(g, n, v)
  {
    EdgeReaches(g, u, v);
    Trans(g, n, u, v);
  }

  lemma {:induction false} WalkedAll(g: Digraph, n: nat, visited: set<nat>, p: seq<nat>)
    requires Walking(g, n, visited, []) && IsPath(g, p) && p[0] == n
    ensures p[|p| - 1] in visited
    decreases |p|
  {
    if |p| > 1 {
      var q := p[..|p| - 1];
      PathSlice(g, p, 0, |p| - 1);
      assert p[0..|p| - 1] == q;
      WalkedAll(g, n, visited, q);
      assert Edge(g, p[|p| - 2], p[|p| - 1]);
    }
  }

  /** Pushes the successors that were not visited. */
  method PushUnseen(g: Digraph, u: nat, visited: set<nat>, rest: seq<nat>) returns (stack: seq<nat>)
    requires u < |g|
    ensures forall x :: x in stack ==> x in rest || x in g[u]
    ensures forall x :: x in rest || x in g[u] ==> x in stack || x in visited
    ensures forall x :: x in rest ==> x in stack
  {
    stack := rest;
    for i := 0 to |g[u]|
      invariant forall x :: x in stack ==> x in rest || x in g[u]
      invariant forall x :: x in rest || x in g[u][..i] ==> x in stack || x in visited
      invariant forall x :: x in rest ==> x in stack
    {
      var v := g[u][i];
      assert g[u][..i + 1] == g[u][..i] + [v];
      if v !in visited { stack := stack + [v]; }
    }
    assert g[u][..|g[u]|] == g[u];
  }

  lemma WalkAdvances(g: Digraph, n: nat, visited: set<nat>, before: seq<nat>, u: nat, rest: seq<nat>, stack: seq<nat>)
    requires Closed(g) && Walking(g, n, visited, before) && before == rest + [u] && u < |g|
    requires forall x :: x in stack ==> x in rest || x in g[u]
    requires forall x :: x in rest || x in g[u] ==> x in stack || x in visited + {u}
    requires forall x :: x in rest ==> x in stack
    ensures Walking(g, n, visited + {u}, stack)
  {
    assert before[|rest|] == u;
    forall x | x in stack ensures x < |g| && Reaches(g, n, x) {
      if x in rest { assert x in before; } else { assert Edge(g, u, x); WalkStep(g, n, u, x); }
    }
  }

  method ReachableFrom(g: Digraph, n: nat) returns (visited: set<nat>)
    requires Closed(g) && n < |g|
    ensures forall x: nat :: x in visited <==> x < |g| && Reaches(g, n, x)
  {
    visited := {};
    var stack: seq<nat> := [n];
    Refl(g, n);
    while stack != []
      invariant Walking(g, n, visited, stack)
      decreases Upto(|g|) - visited, |stack|
    {
      var u := stack[|stack| - 1];
      var rest := stack[..|stack| - 1];
      assert stack == rest + [u];
      if u in visited {
        stack := rest;
      } else {
        assert u in Upto(|g|) - visited;
        var pushed := PushUnseen(g, u, visited + {u}, rest);
        WalkAdvances(g, n, visited, stack, u, rest, pushed);
        visited := visited + {u};
        stack := pushed;
      }
    }
    WalkedEverything(g, n, visited);
  }

  lemma WalkedEverything(g: Digraph, n: nat, visited: set<nat>)
    requires Walking(g, n, visited, [])
    ensures forall x: nat :: x in visited <==> x < |g| && Reaches(g, n, x)
  {
    forall x: nat | x < |g| && Reaches(g, n, x) ensures x in visited {
      var p :| PathFromTo(g, p, n, x);
      WalkedAll(g, n, visited, p);
    }
  }

  // ---------------------------------------------------------------- candidates

  /** How many flows enter `n` from the first `k` nodes. */
  function Entering(g: Digraph, n: nat, k: nat): nat
    requires k <= |g|
  {
    if k == 0 then 0 else Entering(g, n, k - 1) + multiset(g[k - 1])[n]
  }

  /** A converging gateway, or an exclusive one with more than one incoming flow. */
  predicate Merges(g: Graph, n: nat) {
    && n < |g.nodes|
    && (Joins(g.nodes[n]) || (g.nodes[n].GatewayXor? && Entering(Shape(g), n, |Shape(g)|) > 1))
  }

  /** Every branch of `s` leads to `x`. */
  ghost predicate Common(d: Digraph, s: nat, x: nat)
    requires s < |d|
  {
    x < |d| && forall h :: h in d[s] ==> Reaches(d, h, x)
  }

  ghost predicate Candidate(g: Graph, s: nat, x: nat)
    requires s < |g.flows|
  {
    x != s && Common(Shape(g), s, x) && Merges(g, x)
  }

  method CommonTo(d: Digraph, s: nat) returns (common: set<nat>)
    requires Closed(d) && s < |d| && d[s] != []
    ensures forall x: nat :: x in common <==> Common(d, s, x)
  {
    assert Edge(d, s, d[s][0]);
    common := ReachableFrom(d, d[s][0]);
    for i := 1 to |d[s]|
      invariant forall x: nat :: x in common <==> x < |d| && forall k :: 0 <= k < i ==> Reaches(d, d[s][k], x)
    {
      assert Edge(d, s, d[s][i]);
      var reached := ReachableFrom(d, d[s][i]);
      common := set x | x in common && x in reached;
    }
    forall x: nat ensures x in common <==> Common(d, s, x) {
      if x in common {
        forall h | h in d[s] ensures Reaches(d, h, x) { var k :| 0 <= k < |d[s]| && d[s][k] == h; }
      }
    }
  }

  // ---------------------------------------------------------------- nearest first

  /** How far the search has come: `dist` is known for the visited nodes, those in the queue
      are nearest first and wait to be followed, the others have been. */
  ghost predicate Layered(d: Digraph, s: nat, dist: map<nat, nat>, queue: seq<nat>) {
    && s in dist && dist[s] == 0
    && (forall x :: x in queue ==> x in dist)
    && (forall i, j :: 0 <= i < j < |queue| ==>
       queue[i] != queue[j] && dist[queue[i]] <= dist[queue[j]] <= dist[queue[0]] + 1)
  }

  ghost predicate Followed(d: Digraph, dist: map<nat, nat>, queue: seq<nat>) {
    forall u: nat, v: nat :: u in dist && u !in queue && Edge(d, u, v) ==> v in dist && dist[v] <= dist[u] + 1
  }

  /** Followed nodes are no farther than the front of the queue. */
  ghost predicate Behind(dist: map<nat, nat>, queue: seq<nat>) {
    (forall x :: x in queue ==> x in dist) &&
    forall u :: u in dist && u !in queue && queue != [] ==> dist[u] <= dist[queue[0]]
  }

  /** A way of that length leads from `s`, past no candidate. */
  ghost predicate Plainly(g: Graph, s: nat, x: nat, n: nat)
    requires s < |g.flows|
  {
    exists p :: PlainPath(g, s, x, n, p)
  }

  ghost predicate PlainPath(g: Graph, s: nat, x: nat, n: nat, p: seq<nat>)
    requires s < |g.flows|
  {
    PathFromTo(Shape(g), p, s, x) && |p| == n + 1 && forall i :: 0 <= i < n ==> !Candidate(g, s, p[i])
  }

  lemma PlainStep(g: Graph, s: nat, u: nat, v: nat, n: nat)
    requires WellFormed(g) && s < |g.flows| && Plainly(g, s, u, n) && !Candidate(g, s, u) && Edge(Shape(g), u, v) &&
      v < |g.flows|
    ensures Plainly(g, s, v, n + 1)
  {
    var p :| PlainPath(g, s, u, n, p);
    assert IsPath(Shape(g), [u, v]);
    PathConcat(Shape(g), p, [u, v]);
    var q := p + [u, v][1..];
    assert q == p + [v];
    assert PlainPath(g, s, v, n + 1, q);
  }

  /** A node that a shorter way leads to has been followed. */
  lemma {:induction false} NearerFollowed(d: Digraph, s: nat, dist: map<nat, nat>, queue: seq<nat>, p: seq<nat>, n: nat)
    requires Layered(d, s, dist, queue) && Followed(d, dist, queue) && IsPath(d, p) && p[0] == s && |p| <= n
    requires forall x :: x in queue ==> dist[x] >= n
    ensures var y := p[|p| - 1]; y in dist && dist[y] < |p| && y !in queue
    decreases |p|
  {
    if |p| > 1 {
      PathSlice(d, p, 0, |p| - 1);
      NearerFollowed(d, s, dist, queue, p[0..|p| - 1], n);
      assert Edge(d, p[|p| - 2], p[|p| - 1]);
    }
  }

  ghost predicate Searching(g: Graph, s: nat, dist: map<nat, nat>, queue: seq<nat>)
    requires s < |g.flows|
  {
    Layered(Shape(g), s, dist, queue) && Followed(Shape(g), dist, queue) && Behind(dist, queue) &&
      Plain(g, s, dist, queue)
  }

  /** The nearest candidate: a way of least length leads to it. */
  ghost predicate Nearest(g: Graph, s: nat, c: nat)
    requires s < |g.flows|
  {
    && Candidate(g, s, c)
    && exists n :: Plainly(g, s, c, n) && forall p :: IsPath(Shape(g), p) && p[0] == s && |p| <= n ==>
       !Candidate(g, s, p[|p| - 1])
  }

  /** One node taken from the queue: the new state of the search. */
  ghost predicate Taken(d: Digraph, s: nat, dist: map<nat, nat>, u: nat, queue: seq<nat>) {
    && u in dist && s in dist && dist[s] == 0 && u !in queue
    && (forall x :: x in queue ==> x in dist && dist[u] <= dist[x] <= dist[u] + 1)
    && (forall i, j :: 0 <= i < j < |queue| ==> queue[i] != queue[j] && dist[queue[i]] <= dist[queue[j]])
    && (forall x :: x in dist && x !in queue ==> dist[x] <= dist[u])
    && forall x: nat, v: nat :: x in dist && x !in queue && x != u && Edge(d, x, v) ==>
       v in dist && dist[v] <= dist[x] + 1
  }

  lemma TakeFront(d: Digraph, s: nat, dist: map<nat, nat>, queue: seq<nat>)
    requires Layered(d, s, dist, queue) && Followed(d, dist, queue) && Behind(dist, queue) && queue != []
    ensures Taken(d, s, dist, queue[0], queue[1..])
  {
    var u, rest := queue[0], queue[1..];
    forall x | x in queue && x != u ensures x in rest {
      var i :| 0 <= i < |queue| && queue[i] == x;
      assert rest[i - 1] == x;
    }
    forall x | x in rest ensures x in dist && dist[u] <= dist[x] <= dist[u] + 1 && x != u {
      var i :| 0 <= i < |rest| && rest[i] == x;
      assert queue[i + 1] == x;
    }
  }

  /** The first `k` flows of `u` lead to nodes at most one step farther. */
  ghost predicate Near(d: Digraph, dist: map<nat, nat>, u: nat, k: nat) {
    u < |d| && k <= |d[u]| && u in dist && forall i :: 0 <= i < k ==> d[u][i] in dist && dist[d[u][i]] <= dist[u] + 1
  }

  lemma NearPush(d: Digraph, dist: map<nat, nat>, u: nat, k: nat)
    requires Near(d, dist, u, k) && k < |d[u]| && d[u][k] !in dist
    ensures Near(d, dist[d[u][k] := dist[u] + 1], u, k + 1)
  {
  }

  lemma TakenDone(d: Digraph, s: nat, dist: map<nat, nat>, u: nat, queue: seq<nat>)
    requires Taken(d, s, dist, u, queue) && u < |d| && Near(d, dist, u, |d[u]|)
    ensures Layered(d, s, dist, queue) && Followed(d, dist, queue) && Behind(dist, queue)
  {
  }

  lemma TakenPush(d: Digraph, s: nat, dist: map<nat, nat>, u: nat, queue: seq<nat>, v: nat)
    requires Taken(d, s, dist, u, queue) && v !in dist
    ensures Taken(d, s, dist[v := dist[u] + 1], u, queue + [v])
  {
    var now, q := dist[v := dist[u] + 1], queue + [v];
    assert q[|queue|] == v;
    forall x | x in queue ensures x in q {
      var i :| 0 <= i < |queue| && queue[i] == x;
      assert q[i] == x;
    }
  }

  lemma FoundNearest(g: Graph, s: nat, dist: map<nat, nat>, queue: seq<nat>)
    requires s < |g.flows| && Searching(g, s, dist, queue) && queue != [] && Candidate(g, s, queue[0])
    ensures Nearest(g, s, queue[0])
  {
    var c := queue[0];
    var n := dist[c];
    assert forall x :: x in queue ==> dist[x] >= n;
    forall p | IsPath(Shape(g), p) && p[0] == s && |p| <= n ensures !Candidate(g, s, p[|p| - 1]) {
      NearerFollowed(Shape(g), s, dist, queue, p, n);
    }
  }

  lemma SearchedAll(g: Graph, s: nat, dist: map<nat, nat>)
    requires s < |g.flows| && Searching(g, s, dist, [])
    ensures forall x: nat :: Reaches(Shape(g), s, x) ==> !Candidate(g, s, x)
  {
    forall x: nat | Reaches(Shape(g), s, x) ensures !Candidate(g, s, x) {
      var p :| PathFromTo(Shape(g), p, s, x);
      NearerFollowed(Shape(g), s, dist, [], p, |p|);
    }
  }

  lemma SearchStarts(g: Graph, s: nat)
    requires s < |g.flows|
    ensures Searching(g, s, map[s := 0], [s])
  {
    assert PlainPath(g, s, s, 0, [s]);
  }

  lemma NotYet(g: Graph, s: nat, dist: map<nat, nat>, queue: seq<nat>)
    requires s < |g.flows| && Searching(g, s, dist, queue) && queue != [] && !Candidate(g, s, queue[0])
    ensures queue[0] in dist && queue[0] < |g.flows|
    ensures Taken(Shape(g), s, dist, queue[0], queue[1..]) && Plain(g, s, dist, queue[1..])
  {
    TakeFront(Shape(g), s, dist, queue);
    FrontPlain(g, s, dist, queue);
  }

  /** Nodes known so far are reached past no candidate, and the followed ones are none. */
  ghost predicate Plain(g: Graph, s: nat, dist: map<nat, nat>, queue: seq<nat>)
    requires s < |g.flows|
  {
    && (forall x :: x in dist ==> x < |g.flows| && Plainly(g, s, x, dist[x]))
    && forall x :: x in dist && x !in queue ==> !Candidate(g, s, x)
  }

  lemma PlainPush(g: Graph, s: nat, dist: map<nat, nat>, queue: seq<nat>, u: nat, v: nat)
    requires WellFormed(g) && s < |g.flows| && Plain(g, s, dist, queue) && u in dist && u !in queue && v !in dist
    requires Edge(Shape(g), u, v) && v < |g.flows|
    ensures Plain(g, s, dist[v := dist[u] + 1], queue + [v])
  {
    PlainStep(g, s, u, v, dist[u]);
    assert (queue + [v])[|queue|] == v;
    forall x | x in queue ensures x in queue + [v] {
      var i :| 0 <= i < |queue| && queue[i] == x;
      assert (queue + [v])[i] == x;
    }
  }

  /** Follows the flows of `u`, which was just taken from the queue. */
  method Follow(g: Graph, s: nat, u: nat, queue0: seq<nat>, visited0: set<nat>, ghost dist0: map<nat, nat>)
    returns (queue: seq<nat>, visited: set<nat>, ghost dist: map<nat, nat>)
    requires WellFormed(g) && Closed(Shape(g)) && s < |g.flows| && u < |g.flows| && visited0 == dist0.Keys
    requires Taken(Shape(g), s, dist0, u, queue0) && Plain(g, s, dist0, queue0)
    ensures visited == dist.Keys && Searching(g, s, dist, queue)
    ensures Unvisited(g, visited) < Unvisited(g, visited0) || (visited == visited0 && queue == queue0)
  {
    queue, visited, dist := queue0, visited0, dist0;
    for i := 0 to |g.flows[u]|
      invariant visited == dist.Keys && visited0 <= visited && (visited == visited0 ==> queue == queue0)
      invariant Halfway(g, s, dist, u, queue, i)
    {
      var v := g.flows[u][i].target;
      if v !in visited {
        PushNext(g, s, dist, u, queue, i);
        dist := dist[v := dist[u] + 1];
        visited := visited + {v};
        queue := queue + [v];
      } else {
        SkipNext(g, s, dist, u, queue, i);
      }
    }
    TakenDone(Shape(g), s, dist, u, queue);
    if visited != visited0 { VisitedGrows(g, s, dist, queue, visited0); }
  }

  /** The search with the first `i` flows of `u` followed. */
  ghost predicate Halfway(g: Graph, s: nat, dist: map<nat, nat>, u: nat, queue: seq<nat>, i: nat) {
    s < |g.flows| && Taken(Shape(g), s, dist, u, queue) && Plain(g, s, dist, queue) && Near(Shape(g), dist, u, i)
  }

  lemma SkipNext(g: Graph, s: nat, dist: map<nat, nat>, u: nat, queue: seq<nat>, i: nat)
    requires WellFormed(g) && Halfway(g, s, dist, u, queue, i) && i < |g.flows[u]| && g.flows[u][i].target in dist
    ensures Halfway(g, s, dist, u, queue, i + 1)
  {
    assert Shape(g)[u][i] == g.flows[u][i].target;
    TakenNear(Shape(g), s, dist, u, queue, g.flows[u][i].target);
  }

  lemma PushNext(g: Graph, s: nat, dist: map<nat, nat>, u: nat, queue: seq<nat>, i: nat)
    requires WellFormed(g) && Halfway(g, s, dist, u, queue, i) && i < |g.flows[u]| && g.flows[u][i].target !in dist
    ensures var v := g.flows[u][i].target; Halfway(g, s, dist[v := dist[u] + 1], u, queue + [v], i + 1)
  {
    var v := g.flows[u][i].target;
    assert Shape(g)[u][i] == v && Edge(Shape(g), u, v);
    PlainPush(g, s, dist, queue, u, v);
    TakenPush(Shape(g), s, dist, u, queue, v);
    NearPush(Shape(g), dist, u, i);
  }

  function Unvisited(g: Graph, visited: set<nat>): set<nat> {
    Upto(|g.flows|) - visited
  }

  lemma VisitedGrows(g: Graph, s: nat, dist: map<nat, nat>, queue: seq<nat>, before: set<nat>)
    requires s < |g.flows| && Plain(g, s, dist, queue) && before < dist.Keys
    ensures Unvisited(g, dist.Keys) < Unvisited(g, before)
  {
    var x :| x in dist.Keys && x !in before;
    assert x in Unvisited(g, before) && x !in Unvisited(g, dist.Keys);
  }

  lemma TakenNear(d: Digraph, s: nat, dist: map<nat, nat>, u: nat, queue: seq<nat>, v: nat)
    requires Taken(d, s, dist, u, queue) && v in dist
    ensures dist[v] <= dist[u] + 1
  {
  }

  lemma FrontPlain(g: Graph, s: nat, dist: map<nat, nat>, queue: seq<nat>)
    requires s < |g.flows| && Plain(g, s, dist, queue) && queue != [] && !Candidate(g, s, queue[0])
    ensures Plain(g, s, dist, queue[1..])
  {
    forall x | x in queue && x != queue[0] ensures x in queue[1..] {
      var i :| 0 <= i < |queue| && queue[i] == x;
      assert queue[1..][i - 1] == x;
    }
  }

  /** The search returns the nearest node, past the split itself, that is a join common to
      all branches, and nothing only if there is none on the way. */
  method FindJoin(g: Graph, s: nat) returns (r: Option<nat>)
    requires WellFormed(g) && s < |g.flows|
    ensures g.flows[s] == [] ==> r.None?
    ensures g.flows[s] != [] && r.Some? ==> Nearest(g, s, r.value)
    ensures g.flows[s] != [] && r.None? ==> forall x: nat :: Reaches(Shape(g), s, x) ==> !Candidate(g, s, x)
  {
    var d := Shape(g);
    if d[s] == [] { return None; }
    ShapeClosed(g);
    var common := CommonTo(d, s);
    var queue: seq<nat> := [s];
    var visited: set<nat> := {s};
    ghost var dist: map<nat, nat> := map[s := 0];
    SearchStarts(g, s);
    while queue != []
      invariant visited == dist.Keys && Searching(g, s, dist, queue)
      decreases Unvisited(g, visited), |queue|
    {
      var u := queue[0];
      if u != s && u in common && Merges(g, u) {
        FoundNearest(g, s, dist, queue);
        return Some(u);
      }
      NotYet(g, s, dist, queue);
      queue, visited, dist := Follow(g, s, u, queue[1..], visited, dist);
    }
    SearchedAll(g, s, dist);
    r := None;
  }

  // ---------------------------------------------------------------- agreement with post-dominance

  /** Two branches of the split have no node in common before `j`. */
  ghost predicate SomeApart(d: Digraph, s: nat, j: nat)
    requires s < |d|
  {
    exists u, v :: u in d[s] && v in d[s] && Layout.Apart(d, u, v, Some(j))
  }

  lemma PostDominatorCommon(d: Digraph, s: nat, j: nat)
    requires Closed(d) && Acyclic(d) && s < |d| && d[s] != [] && Immediate(d, j, s)
    ensures Common(d, s, j)
  {
    PdSuccessors(d, j, s);
    forall h | h in d[s] ensures Reaches(d, h, j) {
      assert Edge(d, s, h);
      PdReached(d, j, h);
    }
  }

  lemma AfterPrefix(p: seq<nat>, q: seq<nat>, j: nat) returns (k: nat)
    requires p <= q && j !in p && j in q
    ensures |p| <= k < |q| && q[k] == j
  {
    k :| 0 <= k < |q| && q[k] == j;
    assert p == q[..|p|];
  }

  /** A way from the split that has not met its post-dominator will meet it. */
  lemma StillAhead(d: Digraph, s: nat, j: nat, p: seq<nat>)
    requires Closed(d) && Acyclic(d) && PostDominates(d, j, s) && IsPath(d, p) && p[0] == s && j !in p
    ensures Reaches(d, p[|p| - 1], j)
  {
    var q := ExtendToSink(d, p);
    assert SinkPath(d, q, s);
    var k := AfterPrefix(p, q, j);
    PathSlice(d, q, |p| - 1, k + 1);
    var r := q[|p| - 1..k + 1];
    assert r[0] == p[|p| - 1] && r[|r| - 1] == j;
    assert PathFromTo(d, r, p[|p| - 1], j);
  }

  /** What a branch reaches, but not before `j`, is reached from `j`. */
  lemma ReachedThrough(d: Digraph, h: nat, j: nat, x: nat)
    requires Reaches(d, h, x) && !In(d, h, Some(j), x)
    ensures Reaches(d, j, x)
  {
    var p :| PathFromTo(d, p, h, x);
    assert !Via(d, h, Some(j), x, p);
    var k :| 0 <= k < |p| && p[k] == j;
    PathSlice(d, p, k, |p|);
    assert PathFromTo(d, p[k..|p|], j, x);
  }

  /** Every way to another common node leads through the post-dominator. */
  lemma CommonBehind(d: Digraph, s: nat, j: nat, x: nat, p: seq<nat>)
    requires Closed(d) && Acyclic(d) && s < |d| && PostDominates(d, j, s) && SomeApart(d, s, j)
    requires Common(d, s, x) && x != j && PathFromTo(d, p, s, x)
    ensures j in p
  {
    if j !in p {
      StillAhead(d, s, j, p);
      var u, v :| u in d[s] && v in d[s] && Layout.Apart(d, u, v, Some(j));
      if In(d, u, Some(j), x) { ReachedThrough(d, v, j, x); } else { ReachedThrough(d, u, j, x); }
      Antisymmetric(d, x, j);
    }
  }

  lemma PostDominatorIsCandidate(g: Graph, s: nat, j: nat)
    requires Closed(Shape(g)) && Acyclic(Shape(g)) && s < |g.flows| && g.flows[s] != [] && Immediate(Shape(g), j, s) &&
      Merges(g, j)
    ensures Candidate(g, s, j) && Reaches(Shape(g), s, j)
  {
    PostDominatorCommon(Shape(g), s, j);
    PdReached(Shape(g), j, s);
  }

  /** No other candidate is nearer than the post-dominator. */
  lemma NoOtherNearest(g: Graph, s: nat, j: nat, c: nat)
    requires Closed(Shape(g)) && Acyclic(Shape(g)) && s < |g.flows| && PostDominates(Shape(g), j, s) &&
      SomeApart(Shape(g), s, j)
    requires Candidate(g, s, j) && Nearest(g, s, c)
    ensures c == j
  {
    var n :| Plainly(g, s, c, n);
    var p :| PlainPath(g, s, c, n, p);
    if c != j { CommonBehind(Shape(g), s, j, c, p); }
  }

  /** What the search returns is the immediate post-dominator: both pair a split with the same join. */
  lemma NearestIsPostDominator(g: Graph, s: nat, j: nat, r: Option<nat>)
    requires WellFormed(g) && Acyclic(Shape(g)) && s < |g.flows|
    requires Immediate(Shape(g), j, s) && Merges(g, j) && SomeApart(Shape(g), s, j)
    requires r.Some? ==> Nearest(g, s, r.value)
    requires r.None? ==> forall x: nat :: Reaches(Shape(g), s, x) ==> !Candidate(g, s, x)
    ensures r == Some(j)
  {
    ShapeClosed(g);
    PostDominatorIsCandidate(g, s, j);
    if r.Some? { NoOtherNearest(g, s, j, r.value); }
  }
}
