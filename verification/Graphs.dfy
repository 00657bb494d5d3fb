/** Finite directed graphs: paths, reachability, acyclicity and sinks.

    A workflow graph is read here only for its shape. Node `u` is an index, and
    `g[u]` lists the targets of its outgoing sequence flows in iteration order;
    parallel flows repeat their target. */
module Graphs {

  type Digraph = seq<seq<nat>>

  /** Every edge ends inside the graph. */
  ghost predicate Closed(g: Digraph) {
    forall u: nat, v: nat :: Edge(g, u, v) ==> v < |g|
  }

  predicate Edge(g: Digraph, u: nat, v: nat) {
    u < |g| && v in g[u]
  }

  predicate Sink(g: Digraph, u: nat) {
    u < |g| && |g[u]| == 0
  }

  /** A non-empty walk along edges. */
  ghost predicate IsPath(g: Digraph, p: seq<nat>) {
    && |p| > 0
    && (forall i :: 0 <= i < |p| ==> p[i] < |g|)
    && forall i, j :: 0 <= i < j < |p| && j == i + 1 ==> Edge(g, p[i], p[j])
  }

  ghost predicate PathFromTo(g: Digraph, p: seq<nat>, u: nat, v: nat) {
    IsPath(g, p) && p[0] == u && p[|p| - 1] == v
  }

  ghost predicate Reaches(g: Digraph, u: nat, v: nat) {
    exists p :: PathFromTo(g, p, u, v)
  }

  ghost predicate Acyclic(g: Digraph) {
    forall p :: IsPath(g, p) && |p| > 1 ==> p[0] != p[|p| - 1]
  }

  ghost predicate Distinct(s: seq<nat>) {
    forall i, j :: 0 <= i < j < |s| ==> s[i] != s[j]
  }

  lemma Refl(g: Digraph, u: nat)
    requires u < |g|
    ensures Reaches(g, u, u)
  {
    assert PathFromTo(g, [u], u, u);
  }

  lemma PathCons(g: Digraph, u: nat, p: seq<nat>)
    requires IsPath(g, p) && Edge(g, u, p[0])
    ensures IsPath(g, [u] + p)
  {
    var q := [u] + p;
    forall i, j | 0 <= i < j < |q| && j == i + 1 ensures Edge(g, q[i], q[j]) {
      if i > 0 { assert Edge(g, p[i - 1], p[j - 1]); }
    }
  }

  lemma PathConcat(g: Digraph, p: seq<nat>, q: seq<nat>)
    requires IsPath(g, p) && IsPath(g, q) && p[|p| - 1] == q[0]
    ensures IsPath(g, p + q[1..])
    ensures (p + q[1..])[|p + q[1..]| - 1] == q[|q| - 1]
  {
    var r := p + q[1..];
    forall i, j | 0 <= i < j < |r| && j == i + 1 ensures Edge(g, r[i], r[j]) {
      if j >= |p| { assert r[i] == q[j - |p|] && Edge(g, q[j - |p|], q[j - |p| + 1]); }
    }
  }

  lemma PathSlice(g: Digraph, p: seq<nat>, i: nat, j: nat)
    requires IsPath(g, p) && i < j <= |p|
    ensures IsPath(g, p[i..j])
  {
    var q := p[i..j];
    forall a, b | 0 <= a < b < |q| && b == a + 1 ensures Edge(g, q[a], q[b]) {
      assert Edge(g, p[i + a], p[i + b]);
    }
  }

  lemma Trans(g: Digraph, u: nat, v: nat, w: nat)
    requires Reaches(g, u, v) && Reaches(g, v, w)
    ensures Reaches(g, u, w)
  {
    var p :| PathFromTo(g, p, u, v);
    var q :| PathFromTo(g, q, v, w);
    PathConcat(g, p, q);
    assert PathFromTo(g, p + q[1..], u, w);
  }

  lemma EdgeReaches(g: Digraph, u: nat, v: nat)
    requires Edge(g, u, v) && v < |g|
    ensures Reaches(g, u, v)
  {
    assert PathFromTo(g, [u, v], u, v);
  }

  /** On an acyclic graph no node repeats along a path. */
  lemma PathDistinct(g: Digraph, p: seq<nat>, i: nat, j: nat)
    requires Acyclic(g) && IsPath(g, p) && i < j < |p|
    ensures p[i] != p[j]
  {
    PathSlice(g, p, i, j + 1);
    var q := p[i..j + 1];
    assert q[0] == p[i] && q[|q| - 1] == p[j];
  }

  lemma Antisymmetric(g: Digraph, u: nat, v: nat)
    requires Acyclic(g) && Reaches(g, u, v) && Reaches(g, v, u)
    ensures u == v
  {
    var p :| PathFromTo(g, p, u, v);
    var q :| PathFromTo(g, q, v, u);
    PathConcat(g, p, q);
    var r := p + q[1..];
    assert PathFromTo(g, r, u, u);
  }

  lemma DistinctBound(p: seq<nat>, n: nat)
    requires (forall i :: 0 <= i < |p| ==> p[i] < n) && Distinct(p)
    ensures |p| <= n
  {
    var elems := set i | 0 <= i < |p| :: p[i];
    ImageSize(p);
    SubsetSize(elems, Upto(n));
  }

  /** A duplicate-free list of exactly the indices below `n` has length `n`. */
  lemma PermutationLength(s: seq<nat>, n: nat)
    requires Distinct(s) && forall x: nat :: x in s <==> x < n
    ensures |s| == n
  {
    forall i | 0 <= i < |s| ensures s[i] < n { assert s[i] in s; }
    DistinctBound(s, n);
    var elems := set i | 0 <= i < |s| :: s[i];
    ImageSize(s);
    forall x | x in Upto(n) ensures x in elems { assert x in s; }
    SubsetSize(Upto(n), elems);
  }

  /** The node indices below `n`. */
  function Upto(n: nat): (s: set<nat>)
    ensures |s| == n
    ensures forall x: nat :: x in s <==> x < n
  {
    if n == 0 then {} else Upto(n - 1) + {n - 1}
  }

  /** The `k` numbers after `h`. */
  function Following(h: nat, k: nat): (s: set<nat>)
    ensures forall x: nat :: x in s <==> h < x <= h + k
  {
    Between(h, h + k + 1)
  }

  function Between(lo: nat, hi: nat): (s: set<nat>)
    ensures forall x: nat :: x in s <==> lo < x < hi
  {
    set x | x in Upto(hi) && lo < x
  }

  lemma {:induction false} ImageSize<T>(p: seq<T>)
    requires forall i, j :: 0 <= i < j < |p| ==> p[i] != p[j]
    ensures |set i | 0 <= i < |p| :: p[i]| == |p|
  {
    var s := set i | 0 <= i < |p| :: p[i];
    if p != [] {
      var q := p[..|p| - 1];
      ImageSize(q);
      var t := set i | 0 <= i < |q| :: q[i];
      assert s - {p[|p| - 1]} == t by {
        forall x | x in t ensures x in s && x != p[|p| - 1] {
          var i :| 0 <= i < |q| && q[i] == x;
          assert p[i] == x;
        }
        forall x | x in s && x != p[|p| - 1] ensures x in t {
          var i :| 0 <= i < |p| && p[i] == x;
          assert q[i] == x;
        }
      }
    }
  }

  lemma {:induction false} SubsetSize<T>(a: set<T>, b: set<T>)
    requires a <= b
    ensures |a| <= |b|
    decreases a
  {
    if a != {} {
      var x :| x in a;
      SubsetSize(a - {x}, b - {x});
    }
  }

  /** A finite acyclic graph has no dead corner: every path extends to a sink. */
  lemma {:induction false} ExtendToSink(g: Digraph, p: seq<nat>) returns (q: seq<nat>)
    requires Closed(g) && Acyclic(g) && IsPath(g, p)
    ensures IsPath(g, q) && p <= q && Sink(g, q[|q| - 1])
    decreases |g| - |p|
  {
    var u := p[|p| - 1];
    if |g[u]| == 0 {
      q := p;
    } else {
      var v := g[u][0];
      assert Edge(g, u, v);
      assert IsPath(g, [u, v]);
      PathConcat(g, p, [u, v]);
      assert p + [u, v][1..] == p + [v];
      var r := p + [v];
      forall i, j | 0 <= i < j < |r| ensures r[i] != r[j] { PathDistinct(g, r, i, j); }
      DistinctBound(r, |g|);
      q := ExtendToSink(g, r);
    }
  }

  /** Edges lead to higher numbers. */
  ghost predicate Ascending(g: Digraph) {
    forall u, k :: 0 <= u < |g| && 0 <= k < |g[u]| ==> u < g[u][k]
  }

  lemma {:induction false} AscendingPath(g: Digraph, p: seq<nat>)
    requires Ascending(g) && IsPath(g, p) && |p| > 1
    ensures p[0] < p[|p| - 1]
    decreases |p|
  {
    assert Edge(g, p[0], p[1]);
    if |p| > 2 {
      PathSlice(g, p, 1, |p|);
      AscendingPath(g, p[1..|p|]);
    }
  }

  lemma AscendingAcyclic(g: Digraph)
    requires Ascending(g)
    ensures Acyclic(g)
  {
    forall p | IsPath(g, p) && |p| > 1 ensures p[0] != p[|p| - 1] { AscendingPath(g, p); }
  }
}
