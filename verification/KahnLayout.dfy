/** The left-to-right diagram layout: Kahn's algorithm ranks every node by the longest path that
    leads to it. Nodes are numbered in the order of their names. */
module KahnLayout {
  import opened Graphs

  // ---------------------------------------------------------------- counting edges

  /** How many edges lead from the first `n` nodes, without those in `done`, to `v`. */
  function Pending(g: Digraph, done: set<nat>, n: nat, v: nat): nat
    requires n <= |g|
  {
    if n == 0 then 0 else Pending(g, done, n - 1, v) + (if n - 1 in done then 0 else multiset(g[n - 1])[v])
  }

  lemma {:induction false} PendingDone(g: Digraph, done: set<nat>, u: nat, n: nat, v: nat)
    requires n <= |g| && u !in done && u < |g|
    ensures Pending(g, done, n, v) == Pending(g, done + {u}, n, v) + (if u < n then multiset(g[u])[v] else 0)
  {
    if n > 0 { PendingDone(g, done, u, n - 1, v); }
  }

  lemma {:induction false} PendingZero(g: Digraph, done: set<nat>, n: nat, v: nat)
    requires n <= |g|
    ensures Pending(g, done, n, v) == 0 <==> forall u: nat :: u < n && v in g[u] ==> u in done
  {
    if n > 0 {
      PendingZero(g, done, n - 1, v);
      assert v in g[n - 1] <==> v in multiset(g[n - 1]);
    }
  }

  // ---------------------------------------------------------------- longest paths

  /** A path of `k` edges leads to `v`. */
  ghost predicate Leads(g: Digraph, k: nat, v: nat) {
    exists p :: IsPath(g, p) && |p| == k + 1 && p[k] == v
  }

  /** `k` is the length of the longest path to `v`. */
  ghost predicate Longest(g: Digraph, k: nat, v: nat) {
    Leads(g, k, v) && forall j: nat :: Leads(g, j, v) ==> j <= k
  }

  lemma LeadsOn(g: Digraph, k: nat, u: nat, v: nat)
    requires Leads(g, k, u) && Edge(g, u, v) && v < |g|
    ensures Leads(g, k + 1, v)
  {
    var p :| IsPath(g, p) && |p| == k + 1 && p[k] == u;
    assert IsPath(g, [u, v]);
    PathConcat(g, p, [u, v]);
    assert p + [u, v][1..] == p + [v];
  }

  /** Ranks that grow along every edge bound every path. */
  lemma {:induction false} Bounds(g: Digraph, rank: map<nat, nat>, p: seq<nat>)
    requires IsPath(g, p) && (forall v :: 0 <= v < |g| ==> v in rank)
    requires forall u: nat, v: nat :: Edge(g, u, v) && v < |g| ==> rank[u] < rank[v]
    ensures |p| <= rank[p[|p| - 1]] + 1
    decreases |p|
  {
    if |p| > 1 {
      PathSlice(g, p, 0, |p| - 1);
      Bounds(g, rank, p[0..|p| - 1]);
      assert Edge(g, p[|p| - 2], p[|p| - 1]);
    }
  }

  // ---------------------------------------------------------------- the queue

  /** Adds to a list kept in ascending order. */
  function Insert(queue: seq<nat>, x: nat): (r: seq<nat>)
    ensures multiset(r) == multiset(queue) + multiset{x}
  {
    if queue == [] || x <= queue[0] then [x] + queue
    else
      assert queue == [queue[0]] + queue[1..];
      [queue[0]] + Insert(queue[1..], x)
  }

  lemma {:induction false} InsertHolds(queue: seq<nat>, x: nat)
    requires Distinct(queue) && x !in queue
    ensures Distinct(Insert(queue, x)) && forall y :: y in Insert(queue, x) <==> y in queue || y == x
  {
    var r := Insert(queue, x);
    forall y ensures y in r <==> y in queue || y == x {
      assert y in multiset(r) <==> y in multiset(queue) || y == x;
    }
    forall i, j | 0 <= i < j < |r| ensures r[i] != r[j] { Twice(r, queue, x, i, j); }
  }

  /** A list that gains a new entry repeats none if the old one did not. */
  lemma Twice(r: seq<nat>, queue: seq<nat>, x: nat, i: nat, j: nat)
    requires multiset(r) == multiset(queue) + multiset{x} && Distinct(queue) && x !in queue && i < j < |r|
    ensures r[i] != r[j]
  {
    DistinctCount(queue, r[i]);
    assert x !in multiset(queue);
    assert r == r[..i] + [r[i]] + r[i + 1..j] + [r[j]] + r[j + 1..];
    assert r[i] == r[j] ==> multiset(r)[r[i]] >= 2;
  }

  lemma {:induction false} DistinctCount(s: seq<nat>, y: nat)
    requires Distinct(s)
    ensures multiset(s)[y] <= 1
  {
    if s != [] {
      var init, last := s[..|s| - 1], s[|s| - 1];
      assert s == init + [last];
      DistinctCount(init, y);
      assert last !in multiset(init);
    }
  }

  // ---------------------------------------------------------------- the state of the algorithm

  function Got(rank: map<nat, nat>, v: nat): nat {
    if v in rank then rank[v] else 0
  }

  /** Node `v` still waits for `left` edges beyond those that lead from nodes not done. */
  ghost predicate Waits(g: Digraph, done: set<nat>, degree: seq<nat>, left: multiset<nat>, v: nat) {
    v < |g| == |degree| ==> degree[v] == Pending(g, done, |g|, v) + left[v]
  }

  /** A rank is the length of some path, and done nodes have ranks. */
  ghost predicate Ranked(g: Digraph, done: set<nat>, rank: map<nat, nat>) {
    && (forall v :: v in done ==> v < |g| && v in rank)
    && (forall v :: v in rank ==> v < |g|)
    && forall v: nat {:trigger Leads(g, Got(rank, v), v)} :: v < |g| ==> Leads(g, Got(rank, v), v)
  }

  ghost predicate Rises(g: Digraph, rank: map<nat, nat>, u: nat, v: nat) {
    u in rank && v in rank && rank[u] < rank[v]
  }

  /** Ranks rise along the edges of done nodes. */
  ghost predicate Risen(g: Digraph, done: set<nat>, rank: map<nat, nat>) {
    forall u: nat, v: nat {:trigger Rises(g, rank, u, v)} :: u in done && Edge(g, u, v) ==> Rises(g, rank, u, v)
  }

  /** What leads to a done node is done. */
  ghost predicate Earlier(g: Digraph, done: set<nat>) {
    forall u: nat, v: nat :: v in done && Edge(g, u, v) ==> u in done
  }

  /** The queue holds the nodes that wait for nothing and are not done. */
  ghost predicate Queued(done: set<nat>, degree: seq<nat>, queue: seq<nat>) {
    Distinct(queue) && forall v: nat :: v in queue <==> v < |degree| && v !in done && degree[v] == 0
  }

  ghost predicate Kept(g: Digraph, done: set<nat>, degree: seq<nat>, left: multiset<nat>, queue: seq<nat>,
                       rank: map<nat, nat>) {
    && |degree| == |g| && (forall v: nat {:trigger Waits(g, done, degree, left, v)} :: Waits(g, done, degree, left, v))
    && Ranked(g, done, rank) && Earlier(g, done) && Queued(done, degree, queue)
  }

  /** The ranks of the first `i` successors of `u` have risen above its own. */
  ghost predicate Relaxed(g: Digraph, rank: map<nat, nat>, u: nat, i: nat, r: nat)
    requires u < |g| && i <= |g[u]|
  {
    Got(rank, u) == r && forall k :: 0 <= k < i ==> g[u][k] in rank && r < rank[g[u][k]]
  }

  // ---------------------------------------------------------------- one node

  /** A node at the front of the queue may be taken: all that leads to it is done. */
  lemma TakeKeeps(g: Digraph, done: set<nat>, degree: seq<nat>, queue: seq<nat>, rank: map<nat, nat>)
    requires Closed(g) && Kept(g, done, degree, multiset{}, queue, rank) && queue != []
    ensures var u := queue[0]; u < |g| && u !in done && u !in g[u] && Earlier(g, done + {u})
    ensures forall v: nat {:trigger Waits(g, done + {queue[0]}, degree, multiset(g[queue[0]]), v)} ::
      Waits(g, done + {queue[0]}, degree, multiset(g[queue[0]]), v)
    ensures Queued(done + {queue[0]}, degree, queue[1..])
  {
    var u := queue[0];
    assert u in queue;
    assert Waits(g, done, degree, multiset{}, u);
    PendingZero(g, done, |g|, u);
    forall v: nat ensures Waits(g, done + {u}, degree, multiset(g[u]), v) {
      assert Waits(g, done, degree, multiset{}, v);
      PendingDone(g, done, u, |g|, v);
    }
    forall v: nat ensures v in queue[1..] <==> v in queue && v != u {
      if v in queue && v != u {
        var i :| 0 <= i < |queue| && queue[i] == v;
        assert queue[1..][i - 1] == v;
      }
    }
  }

  /** One successor: its rank rises and it waits for one edge less. */
  function Raise(rank: map<nat, nat>, v: nat, r: nat): map<nat, nat> {
    rank[v := if r > Got(rank, v) then r else Got(rank, v)]
  }

  lemma {:induction false} Dropped(s: seq<nat>, i: nat)
    requires i < |s|
    ensures multiset(s[i..]) == multiset(s[i + 1..]) + multiset{s[i]}
  {
    assert s[i..] == [s[i]] + s[i + 1..];
  }

  lemma DegreeDrops(g: Digraph, done: set<nat>, degree: seq<nat>, u: nat, i: nat)
    requires Closed(g) && u < |g| == |degree| && i < |g[u]| && g[u][i] < |g|
    requires forall v: nat {:trigger Waits(g, done, degree, multiset(g[u][i..]), v)} ::
      Waits(g, done, degree, multiset(g[u][i..]), v)
    ensures degree[g[u][i]] > 0
    ensures var now := degree[g[u][i] := degree[g[u][i]] - 1];
      forall v: nat {:trigger Waits(g, done, now, multiset(g[u][i + 1..]), v)} ::
        Waits(g, done, now, multiset(g[u][i + 1..]), v)
  {
    var s := g[u][i];
    Dropped(g[u], i);
    assert Waits(g, done, degree, multiset(g[u][i..]), s);
    var now, left := degree[s := degree[s] - 1], multiset(g[u][i + 1..]);
    forall v: nat ensures Waits(g, done, now, left, v) {
      assert Waits(g, done, degree, multiset(g[u][i..]), v);
    }
  }

  lemma RaiseKeeps(g: Digraph, done: set<nat>, rank: map<nat, nat>, u: nat, v: nat, r: nat)
    requires Ranked(g, done, rank) && Edge(g, u, v) && v < |g| && r == Got(rank, u)
    ensures Ranked(g, done, Raise(rank, v, r + 1))
  {
    assert Leads(g, Got(rank, u), u);
    LeadsOn(g, r, u, v);
    var now := Raise(rank, v, r + 1);
    forall x: nat | x < |g| ensures Leads(g, Got(now, x), x) { assert Leads(g, Got(rank, x), x); }
  }

  lemma RelaxNext(g: Digraph, rank: map<nat, nat>, u: nat, i: nat, r: nat)
    requires u < |g| && i < |g[u]| && u !in g[u] && Relaxed(g, rank, u, i, r)
    ensures Relaxed(g, Raise(rank, g[u][i], r + 1), u, i + 1, r)
  {
    assert g[u][i] in g[u];
  }

  /** Ranks along the edges of done nodes stay as they are: their targets only rise. */
  lemma RisenStays(g: Digraph, done: set<nat>, rank: map<nat, nat>, v: nat, r: nat)
    requires Risen(g, done, rank) && v !in done
    ensures Risen(g, done, Raise(rank, v, r))
  {
    var now := Raise(rank, v, r);
    forall x: nat, y: nat | x in done && Edge(g, x, y) ensures Rises(g, now, x, y) { assert Rises(g, rank, x, y); }
  }

  lemma {:induction false} QueueNext(g: Digraph, done: set<nat>, degree: seq<nat>, queue: seq<nat>, v: nat)
    requires Queued(done, degree, queue) && v < |degree| && degree[v] > 0 && v !in done
    ensures var now := degree[v := degree[v] - 1];
      Queued(done, now, if now[v] == 0 then Insert(queue, v) else queue)
  {
    if degree[v] == 1 { InsertHolds(queue, v); }
  }

  /** Everything between two nodes taken from the queue: `u` is done but for its last flows. */
  ghost predicate Midway(g: Digraph, before: set<nat>, degree: seq<nat>, queue: seq<nat>, rank: map<nat, nat>, u: nat,
                         i: nat, r: nat) {
    && u < |g| == |degree| && i <= |g[u]| && u !in before && u !in g[u]
    && (forall v: nat {:trigger Waits(g, before + {u}, degree, multiset(g[u][i..]), v)} ::
          Waits(g, before + {u}, degree, multiset(g[u][i..]), v))
    && Ranked(g, before, rank) && Earlier(g, before) && Earlier(g, before + {u}) && Queued(before + {u}, degree, queue)
    && Risen(g, before, rank) && Relaxed(g, rank, u, i, r)
  }

  lemma {:induction false} MidwayNext(g: Digraph, before: set<nat>, degree: seq<nat>, queue: seq<nat>, rank: map<nat,
                                      nat>, u: nat, i: nat, r: nat)
    requires Closed(g) && Midway(g, before, degree, queue, rank, u, i, r) && i < |g[u]|
    ensures var s := g[u][i];
      && s < |g| && degree[s] > 0
      && var now := degree[s := degree[s] - 1];
         Midway(g, before, now, if now[s] == 0 then Insert(queue, s) else queue, Raise(rank, s, r + 1), u, i + 1, r)
  {
    var s := g[u][i];
    assert Edge(g, u, s);
    assert s !in before + {u};
    DegreeDrops(g, before + {u}, degree, u, i);
    RaiseKeeps(g, before, rank, u, s, r);
    RelaxNext(g, rank, u, i, r);
    RisenStays(g, before, rank, s, r + 1);
    QueueNext(g, before + {u}, degree, queue, s);
  }

  lemma MidwayDone(g: Digraph, before: set<nat>, degree: seq<nat>, queue: seq<nat>, rank: map<nat, nat>, u: nat, r: nat)
    requires u < |g| && Midway(g, before, degree, queue, rank, u, |g[u]|, r)
    ensures var now := rank[u := r];
      Kept(g, before + {u}, degree, multiset{}, queue, now) && Risen(g, before + {u}, now)
  {
    var now := rank[u := r];
    assert g[u][|g[u]|..] == [];
    forall v: nat ensures Waits(g, before + {u}, degree, multiset{}, v) {
      assert Waits(g, before + {u}, degree, multiset(g[u][|g[u]|..]), v);
    }
    forall v: nat | v < |g| ensures Leads(g, Got(now, v), v) { assert Leads(g, Got(rank, v), v); }
    forall x: nat, y: nat | x in before + {u} && Edge(g, x, y) ensures Rises(g, now, x, y) {
      if x == u {
        var k :| 0 <= k < |g[u]| && g[u][k] == y;
      } else {
        assert Rises(g, rank, x, y) && x != u;
      }
    }
  }

  // ---------------------------------------------------------------- the algorithm

  /** Counts the edges into every node. */
  method CountDegrees(g: Digraph) returns (degree: seq<nat>)
    requires Closed(g)
    ensures |degree| == |g| && forall v: nat {:trigger Waits(g, {}, degree, multiset{}, v)} ::
      Waits(g, {}, degree, multiset{}, v)
  {
    degree := seq(|g|, _ => 0);
    for u := 0 to |g|
      invariant |degree| == |g| && forall v :: 0 <= v < |g| ==> degree[v] == Pending(g, {}, u, v)
    {
      ghost var before := degree;
      for i := 0 to |g[u]|
        invariant |degree| == |g| && forall v :: 0 <= v < |g| ==> degree[v] == before[v] + multiset(g[u][..i])[v]
      {
        assert Edge(g, u, g[u][i]);
        assert g[u][..i + 1] == g[u][..i] + [g[u][i]];
        degree := degree[g[u][i] := degree[g[u][i]] + 1];
      }
      assert g[u][..|g[u]|] == g[u];
    }
  }

  /** The nodes that nothing leads to, in ascending order. */
  method Roots(g: Digraph, degree: seq<nat>) returns (queue: seq<nat>)
    requires |degree| == |g|
    ensures Queued({}, degree, queue)
  {
    queue := [];
    for v := 0 to |degree|
      invariant Distinct(queue) && forall x: nat :: x in queue <==> x < v && degree[x] == 0
    {
      if degree[v] == 0 { queue := queue + [v]; }
    }
  }

  /** Takes the first node off the queue and raises the ranks of its successors. */
  method Relax(g: Digraph, degree0: seq<nat>, queue0: seq<nat>, rank0: map<nat, nat>, ghost done: set<nat>)
    returns (degree: seq<nat>, queue: seq<nat>, rank: map<nat, nat>)
    requires Closed(g) && Kept(g, done, degree0, multiset{}, queue0, rank0) && Risen(g, done, rank0) && queue0 != []
    ensures queue0[0] < |g| && queue0[0] !in done
    ensures Kept(g, done + {queue0[0]}, degree, multiset{}, queue, rank) && Risen(g, done + {queue0[0]}, rank)
  {
    var u := queue0[0];
    TakeKeeps(g, done, degree0, queue0, rank0);
    degree, queue, rank := degree0, queue0[1..], rank0;
    var r := Got(rank, u);
    assert g[u][0..] == g[u];
    for i := 0 to |g[u]|
      invariant Midway(g, done, degree, queue, rank, u, i, r)
    {
      var s := g[u][i];
      MidwayNext(g, done, degree, queue, rank, u, i, r);
      rank := Raise(rank, s, r + 1);
      degree := degree[s := degree[s] - 1];
      if degree[s] == 0 { queue := Insert(queue, s); }
    }
    MidwayDone(g, done, degree, queue, rank, u, r);
    rank := rank[u := r];
  }

  /** A node that is not done has a node before it that is not done. */
  lemma {:induction false} GoesBack(g: Digraph, done: set<nat>, degree: seq<nat>, rank: map<nat, nat>, v: nat, k: nat)
                                    returns (p: seq<nat>)
    requires Closed(g) && Kept(g, done, degree, multiset{}, [], rank) && v < |g| && v !in done
    ensures IsPath(g, p) && |p| == k + 1 && p[k] == v && p[0] !in done
  {
    p := [v];
    if k > 0 {
      var q := GoesBack(g, done, degree, rank, v, k - 1);
      var w, none: seq<nat> := q[0], [];
      assert w !in none && Waits(g, done, degree, multiset{}, w);
      PendingZero(g, done, |g|, w);
      var u: nat :| u < |g| && w in g[u] && u !in done;
      PathCons(g, u, q);
      p := [u] + q;
    }
  }

  /** Without a cycle every node gets done, and only without a cycle. */
  lemma AllDone(g: Digraph, done: set<nat>, degree: seq<nat>, rank: map<nat, nat>)
    requires Closed(g) && Kept(g, done, degree, multiset{}, [], rank) && Risen(g, done, rank)
    ensures (forall v: nat :: v < |g| ==> v in done) <==> Acyclic(g)
  {
    if Acyclic(g) {
      forall v: nat | v < |g| ensures v in done {
        if v !in done {
          var p := GoesBack(g, done, degree, rank, v, |g|);
          forall i, j | 0 <= i < j < |p| ensures p[i] != p[j] { PathDistinct(g, p, i, j); }
          DistinctBound(p, |g|);
        }
      }
    }
    if forall v: nat :: v < |g| ==> v in done {
      forall p | IsPath(g, p) && |p| > 1 ensures p[0] != p[|p| - 1] { Climbs(g, done, rank, p); }
    }
  }

  lemma {:induction false} Climbs(g: Digraph, done: set<nat>, rank: map<nat, nat>, p: seq<nat>)
    requires Ranked(g, done, rank) && Risen(g, done, rank) && (forall v: nat :: v < |g| ==>
      v in done) && IsPath(g, p) && |p| > 1
    ensures rank[p[0]] < rank[p[|p| - 1]]
    decreases |p|
  {
    assert Edge(g, p[0], p[1]);
    assert Rises(g, rank, p[0], p[1]);
    if |p| > 2 {
      PathSlice(g, p, 1, |p|);
      Climbs(g, done, rank, p[1..|p|]);
    }
  }

  lemma RanksLongest(g: Digraph, done: set<nat>, rank: map<nat, nat>)
    requires Closed(g) && Ranked(g, done, rank) && Risen(g, done, rank) && forall v: nat :: v < |g| ==> v in done
    ensures forall v: nat :: v < |g| ==> v in rank && Longest(g, rank[v], v)
  {
    forall u: nat, v: nat | Edge(g, u, v) && v < |g| ensures rank[u] < rank[v] { assert Rises(g, rank, u, v); }
    forall v: nat | v < |g| ensures Longest(g, rank[v], v) {
      assert Leads(g, Got(rank, v), v);
      forall j: nat | Leads(g, j, v) ensures j <= rank[v] {
        var p :| IsPath(g, p) && |p| == j + 1 && p[j] == v;
        Bounds(g, rank, p);
      }
    }
  }

  /** Ranks the nodes. On every acyclic graph each node gets the length of the longest path
      to it, so ranks rise along every edge. */
  method Ranks(g: Digraph) returns (rank: map<nat, nat>)
    requires Closed(g)
    ensures forall v :: v in rank ==> v < |g|
    ensures Acyclic(g) ==> forall v: nat :: v < |g| ==> v in rank && Longest(g, rank[v], v)
    ensures Acyclic(g) ==> forall u: nat, v: nat :: Edge(g, u, v) ==> u in rank && v in rank && rank[u] < rank[v]
  {
    var degree := CountDegrees(g);
    var queue := Roots(g, degree);
    rank := map[];
    ghost var done: set<nat> := {};
    forall v: nat | v < |g| ensures Leads(g, 0, v) { assert IsPath(g, [v]); }
    while queue != []
      invariant Kept(g, done, degree, multiset{}, queue, rank) && Risen(g, done, rank)
      decreases Upto(|g|) - done
    {
      ghost var u := queue[0];
      degree, queue, rank := Relax(g, degree, queue, rank, done);
      assert u in Upto(|g|) - done;
      done := done + {u};
    }
    AllDone(g, done, degree, rank);
    if Acyclic(g) {
      RanksLongest(g, done, rank);
      forall u: nat, v: nat | Edge(g, u, v)
        ensures u in rank && v in rank && rank[u] < rank[v] { assert Rises(g, rank, u, v); }
    }
  }

  // ---------------------------------------------------------------- coordinates

  const COLUMN: nat := 200
  const ROW: nat := 100

  type Item = (nat, nat)

  /** By rank, then by name. */
  predicate Before(a: Item, b: Item) {
    a.1 < b.1 || (a.1 == b.1 && a.0 < b.0)
  }

  ghost predicate Sorted(items: seq<Item>) {
    forall i, j :: 0 <= i < j < |items| ==> Before(items[i], items[j])
  }

  function Place(items: seq<Item>, x: Item): (r: seq<Item>)
    ensures |r| == |items| + 1
  {
    if items == [] || Before(x, items[0]) then [x] + items else [items[0]] + Place(items[1..], x)
  }

  lemma {:induction false} PlaceSorts(items: seq<Item>, x: Item)
    requires Sorted(items) && forall i :: 0 <= i < |items| ==> items[i].0 != x.0
    ensures Sorted(Place(items, x)) && forall y :: y in Place(items, x) <==> y in items || y == x
  {
    if items != [] && !Before(x, items[0]) {
      PlaceSorts(items[1..], x);
      assert items == [items[0]] + items[1..];
      forall y | y in items[1..] ensures Before(items[0], y) {
        var i :| 0 <= i < |items[1..]| && items[1..][i] == y;
        assert items[i + 1] == y;
      }
    }
  }

  /** The ranked nodes, sorted. */
  method SortItems(rank: map<nat, nat>, n: nat) returns (items: seq<Item>)
    requires forall v :: v in rank ==> v < n
    ensures Sorted(items) && forall y: Item :: y in items <==> y.0 in rank && rank[y.0] == y.1
  {
    items := [];
    for v := 0 to n
      invariant Sorted(items) && forall y: Item :: y in items <==> y.0 < v && y.0 in rank && rank[y.0] == y.1
    {
      if v in rank {
        forall i | 0 <= i < |items| ensures items[i].0 != v { assert items[i] in items; }
        PlaceSorts(items, (v, rank[v]));
        items := Place(items, (v, rank[v]));
      }
    }
  }

  /** The nodes of a rank whose names come before `v`. */
  function Above(rank: map<nat, nat>, r: nat, v: nat): set<nat> {
    set u | u in rank && rank[u] == r && u < v
  }

  /** The nodes of a rank among the first `k` items. */
  ghost function Placed(items: seq<Item>, k: nat, r: nat): set<nat>
    requires k <= |items|
  {
    set i | 0 <= i < k && items[i].1 == r :: items[i].0
  }

  lemma PlacedNext(items: seq<Item>, k: nat, r: nat)
    requires Sorted(items) && k < |items|
    ensures Placed(items, k + 1, r) == Placed(items, k, r) + (if items[k].1 == r then {items[k].0} else {})
    ensures items[k].0 !in Placed(items, k, items[k].1)
  {
    forall x | x in Placed(items, k + 1, r) ensures x in Placed(items, k, r) || (items[k].1 == r && x == items[k].0) {
      var i :| 0 <= i < k + 1 && items[i].1 == r && items[i].0 == x;
    }
    forall x | x in Placed(items, k, r) ensures x in Placed(items, k + 1, r) {
      var i :| 0 <= i < k && items[i].1 == r && items[i].0 == x;
    }
    if items[k].1 == r { assert items[k].0 in Placed(items, k + 1, r); }
    forall x | x in Placed(items, k, items[k].1) ensures x != items[k].0 {
      var i :| 0 <= i < k && items[i].1 == items[k].1 && items[i].0 == x;
      assert Before(items[i], items[k]);
    }
  }

  lemma EarlierIndex(items: seq<Item>, i: nat, k: nat)
    requires Sorted(items) && i < |items| && k < |items| && Before(items[i], items[k])
    ensures i < k
  {
  }

  /** When a node's turn comes, exactly the nodes above it in its rank have had theirs. */
  lemma PlacedAbove(rank: map<nat, nat>, items: seq<Item>, k: nat)
    requires Lists(rank, items) && k < |items|
    ensures Placed(items, k, items[k].1) == Above(rank, items[k].1, items[k].0)
  {
    var v, r := items[k].0, items[k].1;
    forall u | u in Above(rank, r, v) ensures u in Placed(items, k, r) {
      assert (u, r) in items;
      var i :| 0 <= i < |items| && items[i] == (u, r);
      EarlierIndex(items, i, k);
    }
    forall u | u in Placed(items, k, r) ensures u in Above(rank, r, v) {
      var i :| 0 <= i < k && items[i].1 == r && items[i].0 == u;
      assert Before(items[i], items[k]) && items[i] in items;
    }
  }

  ghost predicate At(rank: map<nat, nat>, positions: map<nat, (nat, nat)>, v: nat) {
    v in rank && v in positions && positions[v] == (rank[v] * COLUMN, |Above(rank, rank[v], v)| * ROW)
  }

  function Count(counts: map<nat, nat>, r: nat): nat {
    if r in counts then counts[r] else 0
  }

  ghost predicate Counted(items: seq<Item>, k: nat, counts: map<nat, nat>, r: nat) {
    k <= |items| && Count(counts, r) == |Placed(items, k, r)|
  }

  ghost predicate Lists(rank: map<nat, nat>, items: seq<Item>) {
    Sorted(items) && forall y: Item :: y in items <==> y.0 in rank && rank[y.0] == y.1
  }

  /** The first `k` items have been placed. */
  ghost predicate Placing(rank: map<nat, nat>, items: seq<Item>, k: nat, counts: map<nat, nat>, positions: map<nat,
                          (nat, nat)>) {
    && Lists(rank, items) && k <= |items|
    && (forall r: nat {:trigger Counted(items, k, counts, r)} :: Counted(items, k, counts, r))
    && (forall i: nat :: i < k ==> At(rank, positions, items[i].0))
    && forall v :: v in positions ==> v in rank
  }

  lemma CountNext(items: seq<Item>, k: nat, counts: map<nat, nat>, x: nat)
    requires Sorted(items) && k < |items| && Counted(items, k, counts, x) && Counted(items, k, counts, items[k].1)
    ensures Counted(items, k + 1, counts[items[k].1 := Count(counts, items[k].1) + 1], x)
  {
    PlacedNext(items, k, x);
  }

  lemma {:induction false} AtNext(rank: map<nat, nat>, items: seq<Item>, k: nat, counts: map<nat, nat>,
                                  positions: map<nat, (nat, nat)>, i: nat)
    requires Placing(rank, items, k, counts, positions) && k < |items| && i < k + 1
    ensures var v, r := items[k].0, items[k].1;
      At(rank, positions[v := (r * COLUMN, Count(counts, r) * ROW)], items[i].0)
  {
    assert items[k] in items && items[i] in items;
    if i == k {
      assert Counted(items, k, counts, items[k].1);
      PlacedAbove(rank, items, k);
    } else {
      assert At(rank, positions, items[i].0) && Before(items[i], items[k]);
    }
  }

  lemma PlacingNext(rank: map<nat, nat>, items: seq<Item>, k: nat, counts: map<nat, nat>, positions: map<nat,
                    (nat, nat)>)
    requires Placing(rank, items, k, counts, positions) && k < |items|
    ensures var v, r := items[k].0, items[k].1;
      Placing(rank, items, k + 1, counts[r := Count(counts, r) + 1],
        positions[v := (r * COLUMN, Count(counts, r) * ROW)])
  {
    var v, r, next := items[k].0, items[k].1, k + 1;
    var now, moved := counts[r := Count(counts, r) + 1], positions[v := (r * COLUMN, Count(counts, r) * ROW)];
    assert items[k] in items;
    forall x: nat ensures Counted(items, next, now, x) {
      assert Counted(items, k, counts, x) && Counted(items, k, counts, r);
      CountNext(items, k, counts, x);
    }
    forall i: nat | i < next ensures At(rank, moved, items[i].0) { AtNext(rank, items, k, counts, positions, i); }
  }

  /** Places every ranked node: its column by its rank, its row by its name within the rank. */
  method Coordinates(rank: map<nat, nat>, n: nat) returns (positions: map<nat, (nat, nat)>)
    requires forall v :: v in rank ==> v < n
    ensures positions.Keys == rank.Keys && forall v {:trigger At(rank, positions, v)} :: v in rank ==>
      At(rank, positions, v)
  {
    var items := SortItems(rank, n);
    var counts: map<nat, nat> := map[];
    positions := map[];
    forall r: nat ensures Counted(items, 0, counts, r) {}
    for k := 0 to |items|
      invariant Placing(rank, items, k, counts, positions)
    {
      PlacingNext(rank, items, k, counts, positions);
      var v, r := items[k].0, items[k].1;
      positions := positions[v := (r * COLUMN, Count(counts, r) * ROW)];
      counts := counts[r := Count(counts, r) + 1];
    }
    forall v | v in rank ensures At(rank, positions, v) {
      assert (v, rank[v]) in items;
      var i :| 0 <= i < |items| && items[i] == (v, rank[v]);
      assert At(rank, positions, items[i].0);
    }
  }

  lemma RowsRise(rank: map<nat, nat>, r: nat, u: nat, v: nat)
    requires u in rank && v in rank && rank[u] == rank[v] == r && u < v
    ensures |Above(rank, r, u)| < |Above(rank, r, v)|
  {
    var a, b := Above(rank, r, u), Above(rank, r, v);
    assert u in b && u !in a && a <= b - {u};
    SubsetSize(a, b - {u});
  }

  /** The column of `v` is the length of the longest path to it. */
  ghost predicate InColumn(g: Digraph, positions: map<nat, (nat, nat)>, v: nat) {
    v in positions && exists k: nat :: Longest(g, k, v) && positions[v].0 == k * COLUMN
  }

  /** Lays out a diagram. No two nodes share a position; on an acyclic graph every node is
      placed, at the column of its longest path, so every edge leads to the right. */
  method Diagram(g: Digraph) returns (positions: map<nat, (nat, nat)>)
    requires Closed(g)
    ensures forall u, v :: u in positions && v in positions && u != v ==> positions[u] != positions[v]
    ensures Acyclic(g) ==> forall v: nat :: v < |g| <==> v in positions
    ensures Acyclic(g) ==> forall u: nat, v: nat :: Edge(g, u, v) ==> positions[u].0 < positions[v].0
    ensures Acyclic(g) ==> forall v: nat :: v < |g| ==> InColumn(g, positions, v)
  {
    var rank := Ranks(g);
    positions := Coordinates(rank, |g|);
    forall u, v | u in positions && v in positions && u != v ensures positions[u] != positions[v] {
      assert At(rank, positions, u) && At(rank, positions, v);
      if rank[u] == rank[v] { if u < v { RowsRise(rank, rank[u], u, v); } else { RowsRise(rank, rank[u], v, u); } }
    }
    if Acyclic(g) {
      forall u: nat, v: nat | Edge(g, u, v) ensures positions[u].0 < positions[v].0 {
        assert At(rank, positions, u) && At(rank, positions, v);
      }
      forall v: nat | v < |g| ensures InColumn(g, positions, v) {
        assert At(rank, positions, v) && Longest(g, rank[v], v);
      }
    }
  }
}
