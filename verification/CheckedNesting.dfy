/** What the compiler's theorem asks of the gateways follows from what the verifier checks: where
    the bracket check is silent and one stack belongs to each node, forks and joins that are
    paired one to one by post-dominance nest. */
module CheckedNesting {
  import opened Graphs
  import opened PostDominators
  import opened Ir
  import opened Nesting
  import opened NestingBlocks
  import opened NestingExact
  import opened Pairing
  import opened OpenForks
  import opened Blocks
  import opened Compiler

  // ---------------------------------------------------------------- walks

  /** Nodes, and the flow taken out of each but the last. */
  datatype Walk = Walk(nodes: seq<nat>, ks: seq<nat>)

  ghost predicate TakesFlow(net: Net, w: Walk, m: nat) {
    m < |w.ks| && m + 1 < |w.nodes| && w.nodes[m] < |net.next| ==>
      w.ks[m] < |net.next[w.nodes[m]]| && net.next[w.nodes[m]][w.ks[m]] == w.nodes[m + 1]
  }

  ghost predicate IsWalk(net: Net, start: nat, w: Walk) {
    && Sound(net) && |w.nodes| == |w.ks| + 1 && w.nodes[0] == start
    && (forall m :: 0 <= m < |w.nodes| ==> w.nodes[m] < |net.next|)
    && forall m: nat {:trigger TakesFlow(net, w, m)} :: TakesFlow(net, w, m)
  }

  lemma WalkPath(net: Net, start: nat, w: Walk)
    requires IsWalk(net, start, w)
    ensures IsPath(net.next, w.nodes)
  {
    forall i, j | 0 <= i < j < |w.nodes| && j == i + 1 ensures Edge(net.next, w.nodes[i], w.nodes[j]) {
      assert TakesFlow(net, w, i);
    }
  }

  lemma WalkReaches(net: Net, start: nat, w: Walk, m: nat)
    requires IsWalk(net, start, w) && m < |w.nodes|
    ensures Reaches(net.next, start, w.nodes[m])
  {
    WalkPath(net, start, w);
    PathSlice(net.next, w.nodes, 0, m + 1);
    assert PathFromTo(net.next, w.nodes[0..m + 1], start, w.nodes[m]);
  }

  lemma WalkDistinct(net: Net, start: nat, w: Walk)
    requires IsWalk(net, start, w) && Acyclic(net.next)
    ensures Distinct(w.nodes) && |w.nodes| <= |net.next|
  {
    WalkPath(net, start, w);
    forall i, j | 0 <= i < j < |w.nodes| ensures w.nodes[i] != w.nodes[j] { PathDistinct(net.next, w.nodes, i, j); }
    DistinctBound(w.nodes, |net.next|);
  }

  /** A walk goes on along a path from its last node. */
  lemma {:induction false} WalkOn(net: Net, start: nat, w: Walk, q: seq<nat>) returns (v: Walk)
    requires IsWalk(net, start, w) && IsPath(net.next, q) && q[0] == w.nodes[|w.ks|]
    ensures IsWalk(net, start, v) && v.nodes == w.nodes + q[1..] && w.ks <= v.ks
    decreases |q|
  {
    if |q| == 1 {
      v := w;
      assert v.nodes == w.nodes + q[1..];
    } else {
      assert Edge(net.next, q[0], q[1]);
      var k :| 0 <= k < |net.next[q[0]]| && net.next[q[0]][k] == q[1];
      var longer := Walk(w.nodes + [q[1]], w.ks + [k]);
      forall m: nat ensures TakesFlow(net, longer, m) { assert TakesFlow(net, w, m); }
      PathSlice(net.next, q, 1, |q|);
      v := WalkOn(net, start, longer, q[1..|q|]);
      assert v.nodes == w.nodes + q[1..];
    }
  }

  // ---------------------------------------------------------------- stacks along a walk

  /** Arriving at the next node of the walk is matched, and leaves that node's stack. */
  lemma WalkEnters(net: Net, start: nat, labels: seq<seq<Entry>>, w: Walk, m: nat)
    requires Agreeing(net, start, labels) && IsWalk(net, start, w) && m < |w.ks|
    ensures Enters(net, labels, w.nodes[m + 1], Into(net, w.nodes[m], w.ks[m], labels[w.nodes[m]]))
  {
    WalkReaches(net, start, w, m);
    assert FlowsEnter(net, labels, w.nodes[m]) && TakesFlow(net, w, m);
  }

  /** Place `q` of the stack has been held, between step `i` and step `n`, by the branch taken at
      step `i`. */
  ghost predicate HeldAt(net: Net, labels: seq<seq<Entry>>, w: Walk, i: nat, q: nat, t: nat)
    requires |labels| == |net.next| == |net.roles|
  {
    t < |w.nodes| && i < |w.ks| && i < |w.nodes| && w.nodes[t] < |labels| && w.nodes[i] < |net.roles| ==>
      && net.roles[w.nodes[i]].Opens? && q < |labels[w.nodes[t]]|
      && labels[w.nodes[t]][q] == Entry(net.roles[w.nodes[i]].kind, w.nodes[i], w.ks[i])
  }

  ghost predicate Held(net: Net, labels: seq<seq<Entry>>, w: Walk, i: nat, q: nat, n: nat)
    requires |labels| == |net.next| == |net.roles|
  {
    && i < n && i < |w.ks| && i < |w.nodes| && w.nodes[i] < |net.roles| && net.roles[w.nodes[i]].Opens?
    && |labels[w.nodes[i]]| == q
    && forall t: nat {:trigger HeldAt(net, labels, w, i, q, t)} :: i < t < n ==> HeldAt(net, labels, w, i, q, t)
  }

  /** Whatever is on the stack of a node was put there on the way, and has stayed since. */
  lemma {:induction false} Origin(net: Net, start: nat, labels: seq<seq<Entry>>, w: Walk, m: nat, q: nat)
    returns (i: nat)
    requires Agreeing(net, start, labels) && IsWalk(net, start, w) && m < |w.nodes| && q < |labels[w.nodes[m]]|
    ensures Held(net, labels, w, i, q, m + 1)
    decreases m
  {
    assert Enters(net, labels, start, []);
    assert m > 0;
    WalkEnters(net, start, labels, w, m - 1);
    if q < |labels[w.nodes[m - 1]]| {
      i := Origin(net, start, labels, w, m - 1, q);
      assert HeldAt(net, labels, w, i, q, m - 1) || i == m - 1;
      forall t: nat | i < t < m + 1 ensures HeldAt(net, labels, w, i, q, t) {}
    } else {
      i := m - 1;
      forall t: nat | i < t < m + 1 ensures HeldAt(net, labels, w, i, q, t) {}
    }
  }

  /** A join closes a branch that was opened on the way and held since. */
  lemma Closing(net: Net, start: nat, labels: seq<seq<Entry>>, w: Walk) returns (i: nat)
    requires Agreeing(net, start, labels) && IsWalk(net, start, w) && |w.ks| > 0
    requires net.roles[w.nodes[|w.ks|]].Closes?
    ensures Held(net, labels, w, i, |labels[w.nodes[|w.ks|]]|, |w.ks|)
  {
    var n := |w.ks|;
    var q := |labels[w.nodes[n]]|;
    WalkEnters(net, start, labels, w, n - 1);
    if q < |labels[w.nodes[n - 1]]| {
      i := Origin(net, start, labels, w, n - 1, q);
    } else {
      i := n - 1;
    }
  }

  // ---------------------------------------------------------------- each join closes its own fork

  ghost predicate IsFork(net: Net, start: nat, f: nat) {
    f < |net.roles| && Reaches(net.next, start, f) && net.roles[f].Opens?
  }

  /** Each fork on the flow has a join of its own for immediate post-dominator. */
  ghost predicate OneToOne(net: Net, start: nat, joins: map<nat, nat>) {
    && (forall f {:trigger IsFork(net, start, f)} :: IsFork(net, start, f) ==>
          f in joins && Immediate(net.next, joins[f], f) && joins[f] < |net.roles| && net.roles[joins[f]].Closes?)
    && (forall e, f {:trigger IsFork(net, start, e), IsFork(net, start, f)} ::
          IsFork(net, start, e) && IsFork(net, start, f) && e != f ==> joins[e] != joins[f])
  }

  ghost predicate Setting(net: Net, start: nat, labels: seq<seq<Entry>>, joins: map<nat, nat>) {
    Agreeing(net, start, labels) && Acyclic(net.next) && start < |net.next| && OneToOne(net, start, joins)
  }

  lemma HolderIsFork(net: Net, start: nat, labels: seq<seq<Entry>>, w: Walk, i: nat, q: nat, n: nat)
    requires Agreeing(net, start, labels) && IsWalk(net, start, w) && Held(net, labels, w, i, q, n)
    ensures IsFork(net, start, w.nodes[i])
  {
    WalkReaches(net, start, w, i);
  }

  /** The only successor of a node is its immediate post-dominator. */
  lemma OnlyNext(g: Digraph, n: nat, j: nat)
    requires Closed(g) && Acyclic(g) && n < |g| && |g[n]| == 1 && Immediate(g, j, n)
    ensures j == g[n][0]
  {
    var s := g[n][0];
    assert Edge(g, n, s);
    if s == n { assert IsPath(g, [n, n]); }
    PdSelf(g, s);
    PdSuccessors(g, s, n);
    PdSuccessors(g, j, n);
    PdAntisymmetric(g, s, j);
  }

  /** The walk as far as step `i`, then along flow `k`. */
  lemma Turn(net: Net, start: nat, w: Walk, i: nat, k: nat) returns (v: Walk)
    requires IsWalk(net, start, w) && i < |w.nodes| && k < |net.next[w.nodes[i]]|
    ensures IsWalk(net, start, v) && v.nodes == w.nodes[..i + 1] + [net.next[w.nodes[i]][k]] && v.ks == w.ks[..i] + [k]
  {
    Heads(net, w.nodes[i]);
    v := Walk(w.nodes[..i + 1] + [net.next[w.nodes[i]][k]], w.ks[..i] + [k]);
    forall m: nat ensures TakesFlow(net, v, m) { assert TakesFlow(net, w, m); }
  }

  /** By another branch the join is reached as well, and that branch would be on its stack. */
  lemma OtherBranch(net: Net, start: nat, labels: seq<seq<Entry>>, w: Walk, i: nat, k: nat, j: nat, q: nat)
    requires Agreeing(net, start, labels) && Acyclic(net.next) && IsWalk(net, start, w) && i < |w.ks|
    requires k < |net.next[w.nodes[i]]| && j < |net.next| && j != w.nodes[i]
    requires PostDominates(net.next, j, w.nodes[i])
    requires q < |labels[j]| && labels[j][q].fork == w.nodes[i]
    ensures labels[j][q].branch == k
  {
    var f := w.nodes[i];
    var v := Turn(net, start, w, i, k);
    var s := net.next[f][k];
    PdSuccessors(net.next, j, f);
    PdReached(net.next, j, s);
    var path :| PathFromTo(net.next, path, s, j);
    var u := WalkOn(net, start, v, path);
    var last := |u.ks|;
    assert u.nodes[last] == j;
    var x := Origin(net, start, labels, u, last, q);
    assert HeldAt(net, labels, u, x, q, last);
    WalkDistinct(net, start, u);
    assert u.nodes[i] == f && u.nodes[x] == f;
    assert x == i;
    assert u.ks[i] == v.ks[i] == k;
  }

  /** A branch is not held past the join of its fork. */
  lemma NotHeldPast(net: Net, start: nat, labels: seq<seq<Entry>>, joins: map<nat, nat>, w: Walk, i: nat, q: nat,
                    n: nat, t: nat)
    requires Setting(net, start, labels, joins) && IsWalk(net, start, w) && Held(net, labels, w, i, q, n)
    requires i < t < n <= |w.ks| && IsFork(net, start, w.nodes[i])
    ensures w.nodes[t] != joins[w.nodes[i]]
  {
    var f, j := w.nodes[i], w.nodes[t];
    assert HeldAt(net, labels, w, i, q, t) && TakesFlow(net, w, i);
    if j == joins[f] {
      if |net.next[f]| == 1 {
        OnlyNext(net.next, f, j);
        WalkEnters(net, start, labels, w, i);
      } else {
        var k := if w.ks[i] == 0 then 1 else 0;
        OtherBranch(net, start, labels, w, i, k, j, q);
      }
    }
  }

  /** From the fork on, either the join of the fork has been passed or it lies ahead. */
  lemma JoinAhead(net: Net, start: nat, w: Walk, i: nat, j: nat) returns (path: seq<nat>)
    requires IsWalk(net, start, w) && Acyclic(net.next) && i < |w.ks| && PostDominates(net.next, j, w.nodes[i])
    requires forall t :: i <= t <= |w.ks| ==> w.nodes[t] != j
    ensures PathFromTo(net.next, path, w.nodes[|w.ks|], j) && |path| > 1
  {
    WalkPath(net, start, w);
    PathSlice(net.next, w.nodes, i, |w.nodes|);
    var tail := w.nodes[i..|w.nodes|];
    var all := ExtendToSink(net.next, tail);
    assert SinkPath(net.next, all, w.nodes[i]);
    var x :| 0 <= x < |all| && all[x] == j;
    assert x >= |tail|;
    PathSlice(net.next, all, |tail| - 1, x + 1);
    path := all[|tail| - 1..x + 1];
  }

  /** A join closes a branch of the fork that it is the join of. */
  lemma {:induction false} ClosesItsOwn(net: Net, start: nat, labels: seq<seq<Entry>>, joins: map<nat, nat>, w: Walk)
    returns (i: nat)
    requires Setting(net, start, labels, joins) && IsWalk(net, start, w) && |w.ks| > 0
    requires net.roles[w.nodes[|w.ks|]].Closes?
    ensures Held(net, labels, w, i, |labels[w.nodes[|w.ks|]]|, |w.ks|)
    ensures IsFork(net, start, w.nodes[i]) && joins[w.nodes[i]] == w.nodes[|w.ks|]
    decreases |net.next| - |w.nodes|
  {
    var n := |w.ks|;
    var c := w.nodes[n];
    i := Closing(net, start, labels, w);
    HolderIsFork(net, start, labels, w, i, |labels[c]|, n);
    var f := w.nodes[i];
    var j := joins[f];
    if j != c {
      forall t | i <= t <= n ensures w.nodes[t] != j {
        if i < t < n { NotHeldPast(net, start, labels, joins, w, i, |labels[c]|, n, t); }
      }
      var path := JoinAhead(net, start, w, i, j);
      var v := WalkOn(net, start, w, path);
      WalkDistinct(net, start, v);
      var x := ClosesItsOwn(net, start, labels, joins, v);
      assert v.nodes[i] == f && v.nodes[x] == f;
      StillHeld(net, labels, v, x, |labels[j]|, |v.ks|, n);
    }
  }

  lemma StillHeld(net: Net, labels: seq<seq<Entry>>, w: Walk, i: nat, q: nat, n: nat, t: nat)
    requires |labels| == |net.next| == |net.roles| && Held(net, labels, w, i, q, n)
    requires i < t < n && t < |w.nodes| && w.nodes[t] < |labels|
    ensures q < |labels[w.nodes[t]]|
  {
    assert HeldAt(net, labels, w, i, q, t);
  }

  // ---------------------------------------------------------------- nesting

  /** Every way to a join passes its fork. */
  lemma ForkDominates(net: Net, start: nat, labels: seq<seq<Entry>>, joins: map<nat, nat>, f: nat, p: seq<nat>)
    requires Setting(net, start, labels, joins) && IsFork(net, start, f)
    requires PathFromTo(net.next, p, start, joins[f])
    ensures f in p
  {
    var w := WalkOn(net, start, Walk([start], []), p);
    assert w.nodes == p;
    assert Enters(net, labels, start, []);
    assert |w.ks| > 0;
    var i := ClosesItsOwn(net, start, labels, joins, w);
    assert w.nodes[i] == f;
  }

  /** One-to-one pairing under a silent bracket check is nesting. */
  lemma PairsNest(net: Net, start: nat, labels: seq<seq<Entry>>, joins: map<nat, nat>)
    requires Setting(net, start, labels, joins) && forall f :: f in joins ==> IsFork(net, start, f)
    ensures Nested(net.next, start, joins)
  {
    forall f | f in joins ensures Dominates(net.next, start, f, joins[f]) {
      assert IsFork(net, start, f);
      forall p | PathFromTo(net.next, p, start, joins[f]) ensures f in p {
        ForkDominates(net, start, labels, joins, f, p);
      }
    }
    forall e, f | e in joins && f in joins ensures joins[e] != f && (e != f ==> joins[e] != joins[f]) {
      assert IsFork(net, start, e) && IsFork(net, start, f);
    }
  }

  /** Each diverging gateway on the flow is paired, no two with one join, and those off the flow
      are not paired. */
  ghost predicate PairedOneToOne(g: Graph, pd: map<nat, nat>, start: nat) {
    && |g.nodes| == |g.flows|
    && (forall n: nat :: n < |g.nodes| && Forks(g.nodes[n]) ==> Reaches(Shape(g), start, n) && n in GatewayPairs(g, pd))
    && (forall e, f :: e in GatewayPairs(g, pd) && f in GatewayPairs(g, pd) && e != f ==>
          GatewayPairs(g, pd)[e] != GatewayPairs(g, pd)[f])
  }

  lemma NetIs(g: Graph)
    requires WellFormed(g)
    ensures Sound(NetOf(g)) && NetOf(g).next == Shape(g) && |NetOf(g).roles| == |g.nodes|
    ensures forall n: nat :: n < |g.nodes| ==>
      (NetOf(g).roles[n].Opens? <==> Forks(g.nodes[n])) && (NetOf(g).roles[n].Closes? <==> Joins(g.nodes[n]))
  {
    ShapeClosed(g);
  }

  lemma GraphPairs(g: Graph, pd: map<nat, nat>, start: nat)
    requires WellFormed(g) && IsPostDominatorMap(Shape(g), pd) && start < |g.nodes| && PairedOneToOne(g, pd, start)
    ensures OneToOne(NetOf(g), start, GatewayPairs(g, pd))
    ensures forall f :: f in GatewayPairs(g, pd) ==> IsFork(NetOf(g), start, f)
  {
    NetIs(g);
    var net, joins := NetOf(g), GatewayPairs(g, pd);
    forall f | f in joins ensures IsFork(net, start, f) { assert Pairs(g, pd, f, joins[f]); }
    forall f | IsFork(net, start, f)
      ensures f in joins && Immediate(net.next, joins[f], f) && joins[f] < |net.roles| && net.roles[joins[f]].Closes? {
      assert Pairs(g, pd, f, joins[f]);
    }
  }

  /** What the verifier checks, with one stack for each node, is the nesting that the compiler's
      theorem asks for. */
  lemma CheckedIsNested(g: Graph, pd: map<nat, nat>, start: nat)
    requires WellFormed(g) && Acyclic(Shape(g)) && IsPostDominatorMap(Shape(g), pd) && start < |g.nodes|
    requires PairedOneToOne(g, pd, start) && Sound(NetOf(g)) && |NetOf(g).next| == |g.nodes|
    requires Check(NetOf(g), start) == [] && OneStack(NetOf(g), start)
    ensures Nested(Shape(g), start, GatewayPairs(g, pd))
  {
    NetIs(g);
    SilentNests(NetOf(g), start);
    CoherentIffLabelled(NetOf(g), start);
    var labels :| Agreeing(NetOf(g), start, labels);
    GraphPairs(g, pd, start);
    PairsNest(NetOf(g), start, labels, GatewayPairs(g, pd));
  }

  /** The counts of parallel gateways that the verifier compares, and the joins that lowering
      finds forks for. */
  ghost predicate CountsAgree(g: Graph, pd: map<nat, nat>) {
    |AndForks(g)| == |AndJoins(g)| &&
    forall j: nat :: j < |g.nodes| && Joins(g.nodes[j]) ==> exists f :: Pairs(g, pd, f, j)
  }

  predicate InclusiveFork(g: Graph, n: nat) {
    n < |g.nodes| && g.nodes[n].GatewayInclusive? && g.nodes[n].direction.Diverging?
  }

  /** Inclusive gateways, whose counts are not compared, are paired one to one. */
  ghost predicate InclusiveApart(g: Graph, pd: map<nat, nat>) {
    && (forall f {:trigger InclusiveFork(g, f)} :: InclusiveFork(g, f) ==> f in GatewayPairs(g, pd))
    && (forall e, f {:trigger InclusiveFork(g, e), InclusiveFork(g, f)} ::
          InclusiveFork(g, e) && InclusiveFork(g, f) && e != f ==> pd[e] != pd[f])
  }

  /** With all nodes on the flow, the counts give the one-to-one pairing. */
  lemma CountsPair(g: Graph, pd: map<nat, nat>, start: nat)
    requires WellFormed(g) && CountsAgree(g, pd) && InclusiveApart(g, pd)
    requires forall n: nat :: n < |g.nodes| ==> Reaches(Shape(g), start, n)
    ensures PairedOneToOne(g, pd, start)
    ensures forall n: nat :: n < |g.nodes| && Joins(g.nodes[n]) ==> IsJoin(GatewayPairs(g, pd), n)
  {
    forall j | j in AndJoins(g) ensures exists f :: Pairs(g, pd, f, j) {}
    PairingIsBijection(g, pd);
    var m := GatewayPairs(g, pd);
    forall n: nat | n < |g.nodes| && Forks(g.nodes[n]) ensures n in m {
      if n in AndForks(g) { assert Pairs(g, pd, n, pd[n]); } else { assert InclusiveFork(g, n); }
    }
    forall e, f | e in m && f in m && e != f ensures m[e] != m[f] {
      assert Pairs(g, pd, e, m[e]) && Pairs(g, pd, f, m[f]);
      assert e in AndForks(g) || InclusiveFork(g, e);
      assert f in AndForks(g) || InclusiveFork(g, f);
    }
    forall n: nat | n < |g.nodes| && Joins(g.nodes[n]) ensures IsJoin(m, n) {
      var f :| Pairs(g, pd, f, n);
      assert f in m && m[f] == n;
    }
  }

  /** A graph that passes the checks, each node with one stack, is one that the compiler's theorem
      applies to. */
  lemma CheckedIsWellNested(g: Graph, pd: map<nat, nat>, start: nat, pl: Plan)
    requires WellFormed(g) && Acyclic(Shape(g)) && IsPostDominatorMap(Shape(g), pd) && start < |g.nodes|
    requires CountsAgree(g, pd) && InclusiveApart(g, pd) && Sound(NetOf(g)) && |NetOf(g).next| == |g.nodes|
    requires Check(NetOf(g), start) == [] && OneStack(NetOf(g), start)
    requires forall n: nat :: n < |g.nodes| ==> Reaches(Shape(g), start, n) && Wired(g, n)
    requires (forall n: nat :: !Guarded(pl.b, n)) && pl.b.closes == {}
    ensures WellNested(g, start, pd, pl)
  {
    CountsPair(g, pd, start);
    CheckedIsNested(g, pd, start);
  }
}
