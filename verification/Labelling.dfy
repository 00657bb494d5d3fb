/** Labels for a graph whose gateways nest: the open forks of each node, outermost first. */
module Labelling {
  import opened Graphs
  import opened Layout
  import opened OpenForks

  // ---------------------------------------------------------------- picking in order

  /** The elements of `s`, in the order in which `order` lists them. */
  function Pick(order: seq<nat>, s: set<nat>): seq<nat> {
    if order == [] then []
    else Pick(order[..|order| - 1], s) + (if order[|order| - 1] in s then [order[|order| - 1]] else [])
  }

  lemma {:induction false} PickConcat(a: seq<nat>, b: seq<nat>, s: set<nat>)
    ensures Pick(a + b, s) == Pick(a, s) + Pick(b, s)
  {
    if b == [] {
      assert a + b == a;
    } else {
      assert (a + b)[..|a + b| - 1] == a + b[..|b| - 1];
      PickConcat(a, b[..|b| - 1], s);
    }
  }

  lemma {:induction false} PickNone(a: seq<nat>, s: set<nat>)
    requires forall x :: x in a ==> x !in s
    ensures Pick(a, s) == []
  {
    if a != [] { PickNone(a[..|a| - 1], s); }
  }

  lemma {:induction false} PickSame(a: seq<nat>, s: set<nat>, t: set<nat>)
    requires forall x :: x in a ==> (x in s <==> x in t)
    ensures Pick(a, s) == Pick(a, t)
  {
    if a != [] { PickSame(a[..|a| - 1], s, t); }
  }

  /** An element listed after all the others comes last. */
  lemma {:induction false} PickLast(order: seq<nat>, s: set<nat>, n: nat, k: nat)
    requires k < |order| && order[k] == n && n !in s && n !in order[..k]
    requires forall x :: x in order[k + 1..] ==> x !in s && x != n
    ensures Pick(order, s + {n}) == Pick(order, s) + [n]
  {
    var pre, post := order[..k], order[k + 1..];
    assert order == pre + ([n] + post);
    PickConcat(pre, [n] + post, s);
    PickConcat(pre, [n] + post, s + {n});
    PickConcat([n], post, s);
    PickConcat([n], post, s + {n});
    PickNone(post, s);
    PickNone(post, s + {n});
    PickSame(pre, s, s + {n});
    assert [n][..0] == [];
  }

  // ---------------------------------------------------------------- order and reachability

  ghost predicate Lists(g: Digraph, start: nat, order: seq<nat>) {
    Distinct(order) && (forall x: nat :: x in order <==> x < |g|) && FlowsForward(g, start, order)
  }

  lemma {:induction false} PathAhead(g: Digraph, start: nat, order: seq<nat>, p: seq<nat>, k: nat)
    requires Lists(g, start, order) && IsPath(g, p) && Reaches(g, start, p[0]) && |p| > 1
    requires k < |order| && order[k] == p[0]
    ensures p[|p| - 1] in order[k + 1..]
    decreases |p|
  {
    assert Edge(g, p[0], p[1]) && p[1] in order[k + 1..];
    var i :| 0 <= i < |order[k + 1..]| && order[k + 1..][i] == p[1];
    if |p| > 2 {
      PathSlice(g, p, 1, |p|);
      EdgeReaches(g, p[0], p[1]);
      Trans(g, start, p[0], p[1]);
      PathAhead(g, start, order, p[1..|p|], k + 1 + i);
      var j :| 0 <= j < |order[k + 1 + i + 1..]| && order[k + 1 + i + 1..][j] == p[|p| - 1];
      assert order[k + 1..][i + 1 + j] == p[|p| - 1];
    }
  }

  lemma AheadIndex(g: Digraph, start: nat, order: seq<nat>, n: nat, t: nat) returns (i: nat, j: nat)
    requires Lists(g, start, order) && Reaches(g, start, n) && Reaches(g, n, t) && n != t
    ensures i < j < |order| && order[i] == n && order[j] == t
  {
    var p :| PathFromTo(g, p, n, t);
    assert n in order;
    i :| 0 <= i < |order| && order[i] == n;
    PathAhead(g, start, order, p, i);
    var k :| 0 <= k < |order[i + 1..]| && order[i + 1..][k] == t;
    j := i + 1 + k;
  }

  /** What leads to `n` is not listed after it. */
  lemma NotLater(g: Digraph, start: nat, order: seq<nat>, f: nat, n: nat, k: nat)
    requires Lists(g, start, order) && Reaches(g, start, f) && Reaches(g, f, n) && f != n && k < |order| &&
      order[k] == n
    ensures f !in order[k + 1..]
  {
    if f in order[k + 1..] {
      var i :| 0 <= i < |order[k + 1..]| && order[k + 1..][i] == f;
      var p :| PathFromTo(g, p, f, n);
      PathAhead(g, start, order, p, k + 1 + i);
    }
  }

  // ---------------------------------------------------------------- labels

  ghost function LabelOf(g: Digraph, joins: map<nat, nat>, order: seq<nat>, n: nat): seq<nat> {
    Pick(order, OpenSet(g, joins, n))
  }

  /** Adding a fork that everything else leads to puts it last. */
  lemma {:induction false} InnermostLast(g: Digraph, start: nat, joins: map<nat, nat>, order: seq<nat>, s: set<nat>,
                                         own: nat)
    requires Nested(g, start, joins) && Lists(g, start, order) && own in joins && own !in s
    requires forall f :: f in s ==> f in joins && OpenAt(g, joins, f, own)
    ensures Pick(order, s + {own}) == Pick(order, s) + [own]
  {
    assert own in order;
    var k :| 0 <= k < |order| && order[k] == own;
    forall x | x in order[k + 1..] ensures x !in s && x != own {
      var i :| 0 <= i < |order[k + 1..]| && order[k + 1..][i] == x;
      assert x == order[k + 1 + i];
      if x in s {
        OpenBehind(g, start, joins, x, own);
        NotLater(g, start, order, x, own, k);
      }
    }
    PickLast(order, s, own, k);
  }

  lemma PlainLabel(g: Digraph, start: nat, joins: map<nat, nat>, order: seq<nat>, n: nat, t: nat)
    requires Nested(g, start, joins) && Lists(g, start, order) && Reaches(g, start, n) && Edge(g, n, t) && t < |g|
    requires n !in joins && !IsJoin(joins, n)
    ensures LabelOf(g, joins, order, t) == LabelOf(g, joins, order, n)
  {
    PlainEdge(g, start, joins, n, t);
  }

  lemma ForkLabel(g: Digraph, start: nat, joins: map<nat, nat>, order: seq<nat>, n: nat, t: nat)
    requires Nested(g, start, joins) && Lists(g, start, order) && n in joins && Edge(g, n, t) && t < |g|
    ensures LabelOf(g, joins, order, t) == LabelOf(g, joins, order, n) + [n]
    ensures LabelOf(g, joins, order, joins[n]) == LabelOf(g, joins, order, n) + [n]
  {
    ForkEdge(g, start, joins, n, t);
    JoinSet(g, start, joins, n);
    InnermostLast(g, start, joins, order, OpenSet(g, joins, n), n);
  }

  lemma JoinLabel(g: Digraph, start: nat, joins: map<nat, nat>, order: seq<nat>, own: nat, n: nat, t: nat)
    requires Nested(g, start, joins) && Lists(g, start, order) && Reaches(g, start, n) && Edge(g, n, t) && t < |g|
    requires own in joins && joins[own] == n
    ensures LabelOf(g, joins, order, n) == LabelOf(g, joins, order, t) + [own]
  {
    JoinEdge(g, start, joins, own, n, t);
    JoinSet(g, start, joins, own);
    InnermostLast(g, start, joins, order, OpenSet(g, joins, t), own);
  }

  lemma EmptyLabel(g: Digraph, joins: map<nat, nat>, order: seq<nat>, n: nat)
    requires OpenSet(g, joins, n) == {}
    ensures LabelOf(g, joins, order, n) == []
  {
    PickNone(order, {});
  }
}
