/** Immediate post-dominators of an acyclic workflow graph: the structural oracle
    that region layout and gateway pairing are derived from.

    `Compute` is the single-pass Cooper/Harvey/Kennedy computation on the reversed
    graph with a virtual exit; it is proved against the path definition. */
module PostDominators {
  import opened Graphs

  // ---------------------------------------------------------------- specification

  ghost predicate SinkPath(g: Digraph, p: seq<nat>, n: nat) {
    IsPath(g, p) && p[0] == n && Sink(g, p[|p| - 1])
  }

  /** Every way onward from `n` to a sink passes through `d`. */
  ghost predicate PostDominates(g: Digraph, d: nat, n: nat) {
    forall p :: SinkPath(g, p, n) ==> d in p
  }

  /** `d` is the closest node, other than `n`, that every way onward passes. */
  ghost predicate Immediate(g: Digraph, d: nat, n: nat) {
    && d < |g| && d != n && PostDominates(g, d, n)
    && forall e: nat :: e < |g| && e != n && PostDominates(g, e, n) ==> PostDominates(g, e, d)
  }

  /** `m` is exactly the immediate post-dominator map of `g`. */
  ghost predicate IsPostDominatorMap(g: Digraph, m: map<nat, nat>) {
    && (forall n :: n in m ==> n < |g|)
    && (forall n :: n in m ==> Immediate(g, m[n], n))
    && forall n: nat, d: nat :: n < |g| && n !in m && d < |g| && d != n ==> !PostDominates(g, d, n)
  }

  // ---------------------------------------------------------------- post-dominance by paths

  lemma PdSelf(g: Digraph, n: nat)
    ensures PostDominates(g, n, n)
  {
    forall p | SinkPath(g, p, n) ensures n in p { assert p[0] in p; }
  }

  lemma PdTrans(g: Digraph, e: nat, d: nat, n: nat)
    requires PostDominates(g, e, d) && PostDominates(g, d, n)
    ensures PostDominates(g, e, n)
  {
    forall p | SinkPath(g, p, n) ensures e in p {
      var k :| 0 <= k < |p| && p[k] == d;
      PathSlice(g, p, k, |p|);
      var q := p[k..|p|];
      assert SinkPath(g, q, d);
      assert e in q;
    }
  }

  /** A post-dominator is reachable. */
  lemma PdReached(g: Digraph, d: nat, n: nat)
    requires Closed(g) && Acyclic(g) && n < |g| && PostDominates(g, d, n)
    ensures Reaches(g, n, d)
  {
    assert IsPath(g, [n]);
    var p := ExtendToSink(g, [n]);
    assert SinkPath(g, p, n);
    var k :| 0 <= k < |p| && p[k] == d;
    PathSlice(g, p, 0, k + 1);
    assert PathFromTo(g, p[0..k + 1], n, d);
  }

  lemma PdAntisymmetric(g: Digraph, d: nat, n: nat)
    requires Closed(g) && Acyclic(g) && n < |g| && d < |g|
    requires PostDominates(g, d, n) && PostDominates(g, n, d)
    ensures d == n
  {
    PdReached(g, d, n);
    PdReached(g, n, d);
    Antisymmetric(g, d, n);
  }

  /** A strict post-dominator of an inner node is one shared by all its successors. */
  lemma PdSuccessors(g: Digraph, e: nat, n: nat)
    requires Closed(g) && n < |g| && e != n && |g[n]| > 0
    ensures PostDominates(g, e, n) <==> forall s :: s in g[n] ==> PostDominates(g, e, s)
  {
    if PostDominates(g, e, n) {
      forall s | s in g[n] ensures PostDominates(g, e, s) {
        forall p | SinkPath(g, p, s) ensures e in p {
          assert Edge(g, n, s);
          PathCons(g, n, p);
          assert SinkPath(g, [n] + p, n);
        }
      }
    }
    if forall s :: s in g[n] ==> PostDominates(g, e, s) {
      forall p | SinkPath(g, p, n) ensures e in p {
        assert |p| > 1;
        assert Edge(g, p[0], p[1]);
        PathSlice(g, p, 1, |p|);
        assert SinkPath(g, p[1..|p|], p[1]);
        assert e in p[1..|p|];
      }
    }
  }

  lemma ImmediateUnique(g: Digraph, d: nat, e: nat, n: nat)
    requires Closed(g) && Acyclic(g) && Immediate(g, d, n) && Immediate(g, e, n)
    ensures d == e
  {
    PdAntisymmetric(g, d, e);
  }

  /** The map is determined: a node has an entry exactly when some real node is
      common to all its onward paths, and the entry is the closest one. */
  lemma MapExact(g: Digraph, m: map<nat, nat>, n: nat, d: nat)
    requires Closed(g) && Acyclic(g) && n < |g| && d < |g| && IsPostDominatorMap(g, m)
    ensures (n in m && m[n] == d) <==> Immediate(g, d, n)
    ensures n in m <==> exists e: nat :: e < |g| && e != n && PostDominates(g, e, n)
  {
    if n in m && Immediate(g, d, n) { ImmediateUnique(g, d, m[n], n); }
  }

  // ---------------------------------------------------------------- virtual exit

  /** The graph with one more node, `|g|`, entered from every sink. */
  function WithExit(g: Digraph): (w: Digraph)
    ensures |w| == |g| + 1
    ensures forall u :: 0 <= u < |g| ==> w[u] == if |g[u]| == 0 then [|g|] else g[u]
    ensures w[|g|] == []
  {
    seq(|g|, u requires 0 <= u < |g| => if |g[u]| == 0 then [|g|] else g[u]) + [[]]
  }

  lemma ExitEdges(g: Digraph, u: nat, v: nat)
    requires Closed(g)
    ensures Edge(WithExit(g), u, v) <==> (Edge(g, u, v) || (Sink(g, u) && v == |g|))
  {
    if Edge(g, u, v) { assert v < |g|; }
  }

  lemma ExitClosed(g: Digraph)
    requires Closed(g)
    ensures Closed(WithExit(g))
  {
    forall u: nat, v: nat | Edge(WithExit(g), u, v) ensures v < |g| + 1 { ExitEdges(g, u, v); }
  }

  /** A path that has not ended at the exit is a path of the real graph. */
  lemma RealPart(g: Digraph, p: seq<nat>)
    requires Closed(g) && IsPath(WithExit(g), p)
    ensures forall i :: 0 <= i < |p| - 1 ==> p[i] < |g|
    ensures p[|p| - 1] < |g| ==> IsPath(g, p)
    ensures |p| > 1 && p[|p| - 1] == |g| ==> IsPath(g, p[..|p| - 1]) && Sink(g, p[|p| - 2])
  {
    var w := WithExit(g);
    forall i | 0 <= i < |p| - 1 ensures p[i] < |g| { assert Edge(w, p[i], p[i + 1]); }
    forall i, j | 0 <= i < j < |p| && j == i + 1 && p[j] < |g| ensures Edge(g, p[i], p[j]) {
      ExitEdges(g, p[i], p[j]);
    }
    if |p| > 1 && p[|p| - 1] == |g| {
      ExitEdges(g, p[|p| - 2], p[|p| - 1]);
      var q := p[..|p| - 1];
      assert Edge(w, p[|p| - 2], p[|p| - 1]);
      forall i, j | 0 <= i < j < |q| && j == i + 1 ensures Edge(g, q[i], q[j]) {
        assert Edge(g, p[i], p[j]);
      }
    }
  }

  lemma ExitAcyclic(g: Digraph)
    requires Closed(g) && Acyclic(g)
    ensures Acyclic(WithExit(g))
  {
    forall p | IsPath(WithExit(g), p) && |p| > 1 ensures p[0] != p[|p| - 1] {
      RealPart(g, p);
    }
  }

  lemma ExitLift(g: Digraph, p: seq<nat>, n: nat)
    requires Closed(g) && SinkPath(g, p, n)
    ensures SinkPath(WithExit(g), p + [|g|], n)
  {
    var w := WithExit(g);
    var q := p + [|g|];
    forall i, j | 0 <= i < j < |q| && j == i + 1 ensures Edge(w, q[i], q[j]) {
      if j < |p| { assert Edge(g, p[i], p[j]); }
      ExitEdges(g, q[i], q[j]);
    }
  }

  /** Adding the exit changes no post-dominance between real nodes. */
  lemma ExitPd(g: Digraph, d: nat, n: nat)
    requires Closed(g) && d < |g| && n < |g|
    ensures PostDominates(WithExit(g), d, n) <==> PostDominates(g, d, n)
  {
    var w := WithExit(g);
    if PostDominates(w, d, n) {
      forall p: seq<nat> | SinkPath(g, p, n) ensures d in p {
        ExitLift(g, p, n);
        assert d in p + [|g|];
      }
    }
    if PostDominates(g, d, n) {
      forall p | SinkPath(w, p, n) ensures d in p {
        assert p[|p| - 1] == |g|;
        RealPart(g, p);
        assert SinkPath(g, p[..|p| - 1], n);
        assert d in p[..|p| - 1];
      }
    }
  }

  lemma ExitReached(g: Digraph, n: nat)
    requires Closed(g) && Acyclic(g) && n <= |g|
    ensures Reaches(WithExit(g), n, |g|)
  {
    if n == |g| {
      Refl(WithExit(g), n);
    } else {
      var p := ExtendToSink(g, [n]);
      ExitLift(g, p, n);
      assert PathFromTo(WithExit(g), p + [|g|], n, |g|);
    }
  }
}
