/** Branch regions: what lies between a node and the point where its caller stops. */
module Regions {
  import opened Options
  import opened Graphs
  import opened PostDominators

  ghost predicate Avoids(p: seq<nat>, stop: Option<nat>) {
    stop.Some? ==> stop.value !in p
  }

  ghost predicate Via(g: Digraph, u: nat, stop: Option<nat>, x: nat, p: seq<nat>) {
    PathFromTo(g, p, u, x) && Avoids(p, stop)
  }

  /** `x` can be reached from `u` without meeting `stop`. */
  ghost predicate In(g: Digraph, u: nat, stop: Option<nat>, x: nat) {
    exists p :: Via(g, u, stop, x, p)
  }

  /** Where a walk that stops at `stop` is headed: every way on from `u` meets it. */
  ghost predicate Bounded(g: Digraph, stop: Option<nat>, u: nat) {
    stop.Some? ==> stop.value < |g| && PostDominates(g, stop.value, u)
  }

  lemma InSelf(g: Digraph, u: nat, stop: Option<nat>)
    requires u < |g| && stop != Some(u)
    ensures In(g, u, stop, u)
  {
    assert Via(g, u, stop, u, [u]);
  }

  lemma InReaches(g: Digraph, u: nat, stop: Option<nat>, x: nat)
    requires In(g, u, stop, x)
    ensures Reaches(g, u, x) && u < |g| && x < |g| && stop != Some(u) && stop != Some(x)
  {
    var p :| Via(g, u, stop, x, p);
    assert p[0] in p && p[|p| - 1] in p;
  }

  lemma ReachesIn(g: Digraph, u: nat, x: nat)
    requires Reaches(g, u, x)
    ensures In(g, u, None, x)
  {
    var p :| PathFromTo(g, p, u, x);
    assert Via(g, u, None, x, p);
  }

  lemma InCons(g: Digraph, v: nat, u: nat, stop: Option<nat>, x: nat)
    requires Edge(g, v, u) && In(g, u, stop, x) && stop != Some(v)
    ensures In(g, v, stop, x)
  {
    var p :| Via(g, u, stop, x, p);
    PathCons(g, v, p);
    assert Via(g, v, stop, x, [v] + p);
  }

  lemma InTrans(g: Digraph, u: nat, stop: Option<nat>, x: nat, y: nat)
    requires In(g, u, stop, x) && In(g, x, stop, y)
    ensures In(g, u, stop, y)
  {
    var p :| Via(g, u, stop, x, p);
    var q :| Via(g, x, stop, y, q);
    PathConcat(g, p, q);
    assert Via(g, u, stop, y, p + q[1..]);
  }

  lemma InSplit(g: Digraph, v: nat, stop: Option<nat>, x: nat) returns (u: nat)
    requires In(g, v, stop, x) && x != v
    ensures Edge(g, v, u) && In(g, u, stop, x)
  {
    var p :| Via(g, v, stop, x, p);
    u := p[1];
    assert Edge(g, p[0], p[1]);
    PathSlice(g, p, 1, |p|);
    assert Via(g, u, stop, x, p[1..|p|]);
  }

  /** Everything in a bounded region still has the bound ahead of it. */
  lemma InBounded(g: Digraph, u: nat, stop: Option<nat>, x: nat)
    requires In(g, u, stop, x) && Bounded(g, stop, u)
    ensures Bounded(g, stop, x)
  {
    if stop.Some? {
      var p :| Via(g, u, stop, x, p);
      forall q | SinkPath(g, q, x) ensures stop.value in q {
        PathConcat(g, p, q);
        assert SinkPath(g, p + q[1..], u);
      }
    }
  }

  /** A region does not contain what leads back to its head. */
  lemma NotBehind(g: Digraph, v: nat, u: nat, stop: Option<nat>)
    requires Closed(g) && Acyclic(g) && Edge(g, v, u)
    ensures !In(g, u, stop, v)
  {
    if In(g, u, stop, v) {
      InReaches(g, u, stop, v);
      EdgeReaches(g, v, u);
      Antisymmetric(g, u, v);
      assert IsPath(g, [v, v]);
    }
  }

  // ---------------------------------------------------------------- a split and its merge

  /** A bound beyond `v` lies at or beyond the merge of `v`. */
  lemma MergeBounded(g: Digraph, v: nat, stop: Option<nat>, merge: nat)
    requires Immediate(g, merge, v) && Bounded(g, stop, v) && stop != Some(v)
    ensures Bounded(g, stop, merge)
  {
  }

  /** A branch that avoids the merge also avoids what lies beyond it. */
  lemma InNarrow(g: Digraph, u: nat, stop: Option<nat>, merge: nat, x: nat)
    requires Closed(g) && Acyclic(g) && Bounded(g, Some(merge), u) && Bounded(g, stop, merge)
    requires In(g, u, Some(merge), x)
    ensures In(g, u, stop, x)
  {
    var p :| Via(g, u, Some(merge), x, p);
    if stop.Some? && stop.value in p {
      var k :| 0 <= k < |p| && p[k] == stop.value;
      PathSlice(g, p, 0, k + 1);
      assert Via(g, u, Some(merge), stop.value, p[0..k + 1]);
      InBounded(g, u, Some(merge), stop.value);
      PdAntisymmetric(g, stop.value, merge);
    }
    assert Via(g, u, stop, x, p);
  }

  /** The merge itself can be reached without meeting the bound beyond it. */
  lemma MergeIn(g: Digraph, v: nat, stop: Option<nat>, merge: nat)
    requires Closed(g) && Acyclic(g) && v < |g| && Immediate(g, merge, v) && Bounded(g, stop, v)
    requires stop != Some(v) && stop != Some(merge)
    ensures In(g, v, stop, merge)
  {
    PdReached(g, merge, v);
    var p :| PathFromTo(g, p, v, merge);
    if stop.Some? && stop.value in p {
      var k :| 0 <= k < |p| && p[k] == stop.value;
      PathSlice(g, p, k, |p|);
      assert PathFromTo(g, p[k..|p|], stop.value, merge);
      PdReached(g, stop.value, merge);
      Antisymmetric(g, stop.value, merge);
    }
    assert Via(g, v, stop, merge, p);
  }

  /** The region of a split: itself, its branches up to the merge, then the merge's own. */
  lemma SplitRegion(g: Digraph, v: nat, stop: Option<nat>, merge: nat, x: nat)
    requires Closed(g) && Acyclic(g) && v < |g| && Immediate(g, merge, v) && Bounded(g, stop, v) && stop != Some(v)
    ensures In(g, v, stop, x) <==>
      x == v || (exists u :: u in g[v] && In(g, u, Some(merge), x)) || In(g, merge, stop, x)
  {
    if In(g, v, stop, x) && x != v {
      var p :| Via(g, v, stop, x, p);
      if merge in p {
        var k :| 0 <= k < |p| && p[k] == merge;
        PathSlice(g, p, k, |p|);
        assert Via(g, merge, stop, x, p[k..|p|]);
      } else {
        assert Via(g, v, Some(merge), x, p);
        var u := InSplit(g, v, Some(merge), x);
      }
    }
    if x == v { InSelf(g, v, stop); }
    if u :| u in g[v] && In(g, u, Some(merge), x) {
      assert Edge(g, v, u);
      BranchBounded(g, v, merge, u);
      InNarrow(g, u, stop, merge, x);
      InCons(g, v, u, stop, x);
    }
    if In(g, merge, stop, x) {
      InReaches(g, merge, stop, x);
      MergeIn(g, v, stop, merge);
      InTrans(g, v, stop, merge, x);
    }
  }

  lemma BranchBounded(g: Digraph, v: nat, merge: nat, u: nat)
    requires Closed(g) && v < |g| && merge < |g| && merge != v && PostDominates(g, merge, v) && u in g[v]
    ensures Bounded(g, Some(merge), u)
  {
    PdSuccessors(g, merge, v);
  }

  /** Without a merge the region is the node and its branches' regions. */
  lemma PlainRegion(g: Digraph, v: nat, stop: Option<nat>, x: nat)
    requires v < |g| && stop != Some(v)
    ensures In(g, v, stop, x) <==> x == v || exists u :: u in g[v] && In(g, u, stop, x)
  {
    if In(g, v, stop, x) && x != v {
      var u := InSplit(g, v, stop, x);
    }
    if x == v { InSelf(g, v, stop); }
    if u :| u in g[v] && In(g, u, stop, x) {
      assert Edge(g, v, u);
      InCons(g, v, u, stop, x);
    }
  }

  /** Nothing before the merge is also after it. */
  lemma BeforeNotAfter(g: Digraph, u: nat, merge: nat, stop: Option<nat>, x: nat)
    requires Closed(g) && Acyclic(g) && Bounded(g, Some(merge), u) && In(g, u, Some(merge), x)
    ensures !In(g, merge, stop, x)
  {
    if In(g, merge, stop, x) {
      InReaches(g, merge, stop, x);
      InReaches(g, u, Some(merge), x);
      InBounded(g, u, Some(merge), x);
      PdReached(g, merge, x);
      Antisymmetric(g, x, merge);
    }
  }
}
