/** Which forks are open at a node, when every fork dominates, and is immediately
    post-dominated by, a join of its own. */
module OpenForks {
  import opened Options
  import opened Graphs
  import opened PostDominators
  import opened Regions

  /** Every way from the start to `n` passes through `d`. */
  ghost predicate Dominates(g: Digraph, start: nat, d: nat, n: nat) {
    forall p :: PathFromTo(g, p, start, n) ==> d in p
  }

  /** `joins` gives each fork its own join, which it dominates and which ends its branches. */
  ghost predicate Nested(g: Digraph, start: nat, joins: map<nat, nat>) {
    && Closed(g) && Acyclic(g) && start < |g|
    && (forall f :: f in joins ==>
       f < |g| && Reaches(g, start, f) && Immediate(g, joins[f], f) && Dominates(g, start, f, joins[f]))
    && (forall e, f :: e in joins && f in joins && e != f ==> joins[e] != joins[f])
    && (forall e, f :: e in joins && f in joins ==> joins[e] != f)
  }

  /** Fork `f` has been entered and not yet left when control is at `n`. */
  ghost predicate OpenAt(g: Digraph, joins: map<nat, nat>, f: nat, n: nat) {
    f in joins && n != f && (n == joins[f] || In(g, f, Some(joins[f]), n))
  }

  ghost function OpenSet(g: Digraph, joins: map<nat, nat>, n: nat): set<nat> {
    set f | f in joins && OpenAt(g, joins, f, n)
  }

  ghost predicate IsJoin(joins: map<nat, nat>, n: nat) {
    exists f :: f in joins && joins[f] == n
  }

  // ---------------------------------------------------------------- an open fork lies behind and its join ahead

  lemma OpenBehind(g: Digraph, start: nat, joins: map<nat, nat>, f: nat, n: nat)
    requires Nested(g, start, joins) && OpenAt(g, joins, f, n)
    ensures n < |g| && Reaches(g, f, n) && Reaches(g, n, joins[f])
  {
    PdReached(g, joins[f], f);
    if n == joins[f] {
      Refl(g, n);
    } else {
      InReaches(g, f, Some(joins[f]), n);
      InBounded(g, f, Some(joins[f]), n);
      PdReached(g, joins[f], n);
    }
  }

  /** There is no way into a fork's branches except through the fork. */
  lemma OpenDominates(g: Digraph, start: nat, joins: map<nat, nat>, f: nat, n: nat)
    requires Nested(g, start, joins) && OpenAt(g, joins, f, n)
    ensures Dominates(g, start, f, n)
  {
    OpenBehind(g, start, joins, f, n);
    forall p | PathFromTo(g, p, start, n) ensures f in p {
      var q :| PathFromTo(g, q, n, joins[f]);
      PathConcat(g, p, q);
      assert PathFromTo(g, p + q[1..], start, joins[f]);
      if f in q {
        var k :| 0 <= k < |q| && q[k] == f;
        PathSlice(g, q, 0, k + 1);
        assert PathFromTo(g, q[0..k + 1], n, f);
        Antisymmetric(g, n, f);
      }
    }
  }

  /** Reached from a fork, and still short of its join: the fork is open. */
  lemma StillOpen(g: Digraph, start: nat, joins: map<nat, nat>, f: nat, n: nat)
    requires Nested(g, start, joins) && f in joins && n != f && Reaches(g, f, n)
    requires n == joins[f] || !Reaches(g, joins[f], n)
    ensures OpenAt(g, joins, f, n)
  {
    if n != joins[f] {
      var p :| PathFromTo(g, p, f, n);
      if joins[f] in p {
        var k :| 0 <= k < |p| && p[k] == joins[f];
        PathSlice(g, p, k, |p|);
        assert PathFromTo(g, p[k..|p|], joins[f], n);
      }
      assert Via(g, f, Some(joins[f]), n, p);
    }
  }

  /** Once left, a fork stays left. */
  lemma LeftForGood(g: Digraph, start: nat, joins: map<nat, nat>, f: nat, n: nat)
    requires Nested(g, start, joins) && f in joins && Reaches(g, joins[f], n) && n != joins[f]
    ensures !OpenAt(g, joins, f, n)
  {
    if OpenAt(g, joins, f, n) {
      OpenBehind(g, start, joins, f, n);
      Antisymmetric(g, n, joins[f]);
    }
  }

  lemma Behind(g: Digraph, start: nat, d: nat, n: nat, t: nat)
    requires Reaches(g, start, n) && Edge(g, n, t) && t < |g| && Dominates(g, start, d, t) && d != t
    ensures Reaches(g, d, n)
  {
    var p :| PathFromTo(g, p, start, n);
    assert PathFromTo(g, [n, t], n, t);
    PathConcat(g, p, [n, t]);
    assert p + [n, t][1..] == p + [t];
    assert PathFromTo(g, p + [t], start, t);
    var k :| 0 <= k < |p| && p[k] == d;
    PathSlice(g, p, k, |p|);
    assert PathFromTo(g, p[k..|p|], d, n);
  }

  // ---------------------------------------------------------------- along an edge

  /** A fork other than `n`, open after the edge, was open before it. */
  lemma OpenBack(g: Digraph, start: nat, joins: map<nat, nat>, f: nat, n: nat, t: nat)
    requires Nested(g, start, joins) && Reaches(g, start, n) && Edge(g, n, t) && t < |g| && OpenAt(g, joins, f, t) &&
      f != n
    ensures OpenAt(g, joins, f, n) && joins[f] != n
  {
    OpenDominates(g, start, joins, f, t);
    Behind(g, start, f, n, t);
    EdgeReaches(g, n, t);
    if Reaches(g, joins[f], n) {
      Trans(g, joins[f], n, t);
      if t == joins[f] { Antisymmetric(g, n, t); assert IsPath(g, [n, n]); }
      LeftForGood(g, start, joins, f, t);
    }
    if n == joins[f] { Refl(g, n); }
    StillOpen(g, start, joins, f, n);
  }

  /** A fork open before the edge is open after it, unless the edge leaves its join. */
  lemma OpenOn(g: Digraph, start: nat, joins: map<nat, nat>, f: nat, n: nat, t: nat)
    requires Nested(g, start, joins) && Edge(g, n, t) && t < |g|
    requires (f == n && f in joins) || (OpenAt(g, joins, f, n) && joins[f] != n)
    ensures OpenAt(g, joins, f, t)
  {
    EdgeReaches(g, n, t);
    if f == n {
      Refl(g, n);
    } else {
      OpenBehind(g, start, joins, f, n);
    }
    Trans(g, f, n, t);
    if f == t { Antisymmetric(g, n, t); assert IsPath(g, [n, n]); }
    if t != joins[f] && Reaches(g, joins[f], t) {
      JoinNotPassed(g, start, joins, f, n, t);
    }
    StillOpen(g, start, joins, f, t);
  }

  /** An edge out of a branch does not jump over the join. */
  lemma JoinNotPassed(g: Digraph, start: nat, joins: map<nat, nat>, f: nat, n: nat, t: nat)
    requires Nested(g, start, joins) && Edge(g, n, t) && t < |g| && f in joins && t != joins[f] && n != joins[f]
    requires f == n || OpenAt(g, joins, f, n)
    ensures !Reaches(g, joins[f], t)
  {
    var j := joins[f];
    PdSelf(g, n);
    if f != n { InBounded(g, f, Some(j), n); }
    PdSuccessors(g, j, n);
    assert t in g[n];
    PdReached(g, j, t);
    if Reaches(g, j, t) { Antisymmetric(g, j, t); }
  }

  lemma PlainEdge(g: Digraph, start: nat, joins: map<nat, nat>, n: nat, t: nat)
    requires Nested(g, start, joins) && Reaches(g, start, n) && Edge(g, n, t) && t < |g| && n !in joins &&
      !IsJoin(joins, n)
    ensures OpenSet(g, joins, t) == OpenSet(g, joins, n)
  {
    forall f | f in joins ensures OpenAt(g, joins, f, t) <==> OpenAt(g, joins, f, n) {
      if OpenAt(g, joins, f, t) { OpenBack(g, start, joins, f, n, t); }
      if OpenAt(g, joins, f, n) { OpenOn(g, start, joins, f, n, t); }
    }
  }

  lemma ForkEdge(g: Digraph, start: nat, joins: map<nat, nat>, n: nat, t: nat)
    requires Nested(g, start, joins) && Reaches(g, start, n) && Edge(g, n, t) && t < |g| && n in joins
    ensures OpenSet(g, joins, t) == OpenSet(g, joins, n) + {n} && n !in OpenSet(g, joins, n)
  {
    forall f | f in joins ensures OpenAt(g, joins, f, t) <==> f == n || OpenAt(g, joins, f, n) {
      if OpenAt(g, joins, f, t) && f != n { OpenBack(g, start, joins, f, n, t); }
      if f == n || OpenAt(g, joins, f, n) { OpenOn(g, start, joins, f, n, t); }
    }
  }

  lemma JoinEdge(g: Digraph, start: nat, joins: map<nat, nat>, own: nat, n: nat, t: nat)
    requires Nested(g, start, joins) && Reaches(g, start, n) && Edge(g, n, t) && t < |g| && own in joins &&
      joins[own] == n
    ensures OpenSet(g, joins, n) == OpenSet(g, joins, t) + {own} && own !in OpenSet(g, joins, t)
  {
    EdgeReaches(g, n, t);
    if t == n { assert IsPath(g, [n, n]); }
    LeftForGood(g, start, joins, own, t);
    forall f | f in joins && f != own ensures OpenAt(g, joins, f, t) <==> OpenAt(g, joins, f, n) {
      if OpenAt(g, joins, f, t) { OpenBack(g, start, joins, f, n, t); }
      if OpenAt(g, joins, f, n) { OpenOn(g, start, joins, f, n, t); }
    }
  }

  // ---------------------------------------------------------------- nesting

  /** A fork open at another's join was open before that other fork. */
  lemma InnermostOwn(g: Digraph, start: nat, joins: map<nat, nat>, f: nat, own: nat)
    requires Nested(g, start, joins) && own in joins && f != own && OpenAt(g, joins, f, joins[own])
    ensures OpenAt(g, joins, f, own)
  {
    var j, k := joins[own], joins[f];
    OpenBehind(g, start, joins, f, j);
    OpenDominates(g, start, joins, f, j);
    PdReached(g, j, own);
    assert Reaches(g, start, own);
    var p :| PathFromTo(g, p, start, own);
    var q :| PathFromTo(g, q, own, j);
    PathConcat(g, p, q);
    assert PathFromTo(g, p + q[1..], start, j);
    if Reaches(g, own, f) {
      InnerClosesFirst(g, start, joins, own, f);
    }
    if f in q {
      var i :| 0 <= i < |q| && q[i] == f;
      PathSlice(g, q, 0, i + 1);
      assert PathFromTo(g, q[0..i + 1], own, f);
    }
    assert f in p;
    var i :| 0 <= i < |p| && p[i] == f;
    PathSlice(g, p, i, |p|);
    assert PathFromTo(g, p[i..|p|], f, own);
    if Reaches(g, k, own) {
      Trans(g, k, own, j);
      LeftForGood(g, start, joins, f, j);
    }
    StillOpen(g, start, joins, f, own);
  }

  /** A fork inside another's branches is left before the other's join. */
  lemma InnerClosesFirst(g: Digraph, start: nat, joins: map<nat, nat>, outer: nat, inner: nat)
    requires Nested(g, start, joins) && outer in joins && inner in joins && outer != inner && Reaches(g, outer, inner)
    ensures !OpenAt(g, joins, inner, joins[outer])
  {
    var j, k := joins[outer], joins[inner];
    if OpenAt(g, joins, inner, j) {
      OpenBehind(g, start, joins, inner, j);
      if Reaches(g, j, inner) {
        Antisymmetric(g, j, inner);
      }
      StillOpen(g, start, joins, outer, inner);
      InBounded(g, outer, Some(j), inner);
      // The outer join is ahead of the inner fork on every path, so it is ahead of the inner join.
      assert PostDominates(g, j, k);
      PdReached(g, j, k);
      Antisymmetric(g, j, k);
    }
  }

  lemma JoinSet(g: Digraph, start: nat, joins: map<nat, nat>, own: nat)
    requires Nested(g, start, joins) && own in joins
    ensures OpenSet(g, joins, joins[own]) == OpenSet(g, joins, own) + {own} && own !in OpenSet(g, joins, own)
  {
    var j := joins[own];
    forall f | f in joins && f != own ensures OpenAt(g, joins, f, j) <==> OpenAt(g, joins, f, own) {
      if OpenAt(g, joins, f, j) { InnermostOwn(g, start, joins, f, own); }
      if OpenAt(g, joins, f, own) { OpenToJoin(g, start, joins, f, own); }
    }
  }

  lemma OpenToJoin(g: Digraph, start: nat, joins: map<nat, nat>, f: nat, own: nat)
    requires Nested(g, start, joins) && own in joins && f != own && OpenAt(g, joins, f, own)
    ensures OpenAt(g, joins, f, joins[own])
  {
    var j, k := joins[own], joins[f];
    OpenBehind(g, start, joins, f, own);
    PdReached(g, j, own);
    Trans(g, f, own, j);
    if f == j { Antisymmetric(g, f, own); }
    InBounded(g, f, Some(k), own);
    assert PostDominates(g, k, j);
    PdReached(g, k, j);
    if Reaches(g, k, j) { Antisymmetric(g, k, j); }
    StillOpen(g, start, joins, f, j);
  }

  lemma NothingOpenAtStart(g: Digraph, start: nat, joins: map<nat, nat>)
    requires Nested(g, start, joins)
    ensures OpenSet(g, joins, start) == {}
  {
    forall f | f in joins ensures !OpenAt(g, joins, f, start) {
      if OpenAt(g, joins, f, start) {
        OpenBehind(g, start, joins, f, start);
        Antisymmetric(g, f, start);
      }
    }
  }

  lemma NothingOpenAtSink(g: Digraph, start: nat, joins: map<nat, nat>, n: nat)
    requires Nested(g, start, joins) && Sink(g, n) && !IsJoin(joins, n)
    ensures OpenSet(g, joins, n) == {}
  {
    assert SinkPath(g, [n], n);
    forall f | f in joins ensures !OpenAt(g, joins, f, n) {
      if OpenAt(g, joins, f, n) { InBounded(g, f, Some(joins[f]), n); }
    }
  }
}
