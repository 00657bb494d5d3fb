/** Exactly when the layout goes forward: every branch of a split is either entered already by
    an earlier one or shares nothing with the earlier ones. */
module LayoutExact {
  import opened Options
  import opened Graphs
  import opened PostDominators
  import opened Regions
  import opened Layout
  import Labelling

  // ---------------------------------------------------------------- the condition

  /** Head `j` lies inside an earlier branch, or its branch is apart from all earlier ones. */
  ghost predicate HeadOk(g: Digraph, ns: seq<nat>, stop: Option<nat>, j: nat)
    requires j < |ns|
  {
    || (exists i :: 0 <= i < j && In(g, ns[i], stop, ns[j]))
    || (forall i {:trigger Apart(g, ns[i], ns[j], stop)} :: 0 <= i < j ==> Apart(g, ns[i], ns[j], stop))
  }

  ghost predicate HeadsOk(g: Digraph, ns: seq<nat>, stop: Option<nat>) {
    forall j {:trigger HeadOk(g, ns, stop, j)} :: 0 <= j < |ns| ==> HeadOk(g, ns, stop, j)
  }

  /** So it is at every split on the flow from the start. */
  ghost predicate BranchesOrdered(g: Digraph, merges: map<nat, nat>, start: nat) {
    forall n: nat {:trigger HeadsOk(g, g[n], StopOf(merges, n))} ::
      n < |g| && Reaches(g, start, n) && |g[n]| > 1 ==> HeadsOk(g, g[n], StopOf(merges, n))
  }

  ghost predicate Regioned(g: Digraph, merges: map<nat, nat>) {
    Closed(g) && Acyclic(g) && IsRegionMap(g, merges) && MergesIn(g, merges)
  }

  // ---------------------------------------------------------------- enough

  /** `x` is in one of the first `k` branches. */
  ghost predicate Within(g: Digraph, ns: seq<nat>, k: nat, stop: Option<nat>, x: nat) {
    exists i :: 0 <= i < k && i < |ns| && In(g, ns[i], stop, x)
  }

  /** The segment is exactly the first `k` branches, laid out forward. */
  ghost predicate Holds(g: Digraph, ns: seq<nat>, k: nat, stop: Option<nat>, seg: seq<nat>) {
    (forall x: nat :: x in seg <==> Within(g, ns, k, stop, x)) && Forward(g, stop, seg)
  }

  ghost predicate Exactly(g: Digraph, v: nat, stop: Option<nat>, seg: seq<nat>) {
    (forall x: nat :: x in seg <==> In(g, v, stop, x)) && Forward(g, stop, seg)
  }

  /** Branch heads on the flow, in an order that can be laid out, none of it laid out before. */
  ghost predicate Heads(g: Digraph, start: nat, ns: seq<nat>, stop: Option<nat>, base: seq<nat>) {
    && (forall i :: 0 <= i < |ns| ==> ns[i] < |g| && Reaches(g, start, ns[i]))
    && (forall i {:trigger Bounded(g, stop, ns[i])} :: 0 <= i < |ns| ==> Bounded(g, stop, ns[i]))
    && HeadsOk(g, ns, stop)
    && forall x :: x in base ==> !Within(g, ns, |ns|, stop, x)
  }

  /** A head already laid out adds nothing. */
  lemma SkipHead(g: Digraph, start: nat, ns: seq<nat>, k: nat, stop: Option<nat>, base: seq<nat>, seg: seq<nat>)
    requires Heads(g, start, ns, stop, base) && k < |ns| && Holds(g, ns, k, stop, seg)
    requires stop == Some(ns[k]) || ns[k] in base + seg
    ensures Holds(g, ns, k + 1, stop, seg)
  {
    forall x: nat | In(g, ns[k], stop, x) ensures Within(g, ns, k, stop, x) {
      if stop == Some(ns[k]) {
        StopIsEmpty(g, ns[k], x);
      } else {
        InSelf(g, ns[k], stop);
        assert ns[k] !in base;
        var i :| 0 <= i < k && i < |ns| && In(g, ns[i], stop, ns[k]);
        InTrans(g, ns[i], stop, ns[k], x);
      }
    }
    forall x: nat ensures Within(g, ns, k + 1, stop, x) <==> Within(g, ns, k, stop, x) {}
  }

  /** A new head has a whole branch of its own. */
  lemma NewHead(g: Digraph, start: nat, ns: seq<nat>, k: nat, stop: Option<nat>, base: seq<nat>, seg: seq<nat>)
    requires Heads(g, start, ns, stop, base) && k < |ns| && Holds(g, ns, k, stop, seg)
    requires stop != Some(ns[k]) && ns[k] !in base + seg
    ensures Fresh(g, ns[k], stop, base + seg)
  {
    assert HeadOk(g, ns, stop, k);
    assert forall i :: 0 <= i < k && In(g, ns[i], stop, ns[k]) ==> Within(g, ns, k, stop, ns[k]);
    forall x | x in base + seg ensures !In(g, ns[k], stop, x) {
      if x in base {
        assert !Within(g, ns, |ns|, stop, x);
      } else {
        var i :| 0 <= i < k && i < |ns| && In(g, ns[i], stop, x);
        assert Apart(g, ns[i], ns[k], stop);
      }
    }
  }

  lemma AddHead(g: Digraph, ns: seq<nat>, k: nat, stop: Option<nat>, seg: seq<nat>, a: seq<nat>)
    requires k < |ns| && Holds(g, ns, k, stop, seg) && Exactly(g, ns[k], stop, a)
    ensures Holds(g, ns, k + 1, stop, seg + a)
  {
    ForwardConcat(g, stop, seg, a);
    forall x: nat ensures x in seg + a <==> Within(g, ns, k + 1, stop, x) {
      if Within(g, ns, k + 1, stop, x) {
        var i :| 0 <= i < k + 1 && i < |ns| && In(g, ns[i], stop, x);
        assert i < k ==> Within(g, ns, k, stop, x);
      }
    }
  }

  lemma {:induction false} EachStep(g: Digraph, merges: map<nat, nat>, ns: seq<nat>, k: nat, stop: Option<nat>,
                                    order: seq<nat>, a: seq<nat>)
    requires Closed(g) && MergesIn(g, merges) && k < |ns| && forall i :: 0 <= i < |ns| ==> ns[i] < |g|
    requires Layout.Layout(g, merges, ns[k], stop, order) == order + a
    ensures LayoutEach(g, merges, ns[k..], stop, order) == LayoutEach(g, merges, ns[k + 1..], stop, order + a)
  {
    assert ns[k..][0] == ns[k] && ns[k..][1..] == ns[k + 1..];
  }

  lemma {:induction false} Walks(g: Digraph, merges: map<nat, nat>, start: nat, v: nat, stop: Option<nat>,
                                 order: seq<nat>)
    returns (seg: seq<nat>)
    requires Regioned(g, merges) && BranchesOrdered(g, merges, start) && Reaches(g, start, v) &&
      Fresh(g, v, stop, order)
    ensures Layout.Layout(g, merges, v, stop, order) == order + seg && Exactly(g, v, stop, seg)
    decreases Left(g, order), 1
  {
    if stop == Some(v) {
      seg := [];
      forall x: nat ensures !In(g, v, stop, x) { StopIsEmpty(g, v, x); }
    } else if v in merges {
      seg := WalksSplit(g, merges, start, v, stop, order);
    } else {
      seg := WalksPlain(g, merges, start, v, stop, order);
    }
  }

  lemma {:induction false} WalksEach(g: Digraph, merges: map<nat, nat>, start: nat, ns: seq<nat>, k: nat,
                                     stop: Option<nat>,
                                     base: seq<nat>, done: seq<nat>) returns (seg: seq<nat>)
    requires Regioned(g, merges) && BranchesOrdered(g, merges, start) && Heads(g, start, ns, stop, base)
    requires k <= |ns| && Holds(g, ns, k, stop, done)
    ensures LayoutEach(g, merges, ns[k..], stop, base + done) == base + seg && Holds(g, ns, |ns|, stop, seg)
    decreases Left(g, base + done), |ns| - k + 2
  {
    if k == |ns| {
      seg := done;
    } else if stop == Some(ns[k]) || ns[k] in base + done {
      SkipHead(g, start, ns, k, stop, base, done);
      SkipStep(g, merges, ns, k, stop, base + done);
      seg := WalksEach(g, merges, start, ns, k + 1, stop, base, done);
    } else {
      seg := WalksNew(g, merges, start, ns, k, stop, base, done);
    }
  }

  lemma {:induction false} SkipStep(g: Digraph, merges: map<nat, nat>, ns: seq<nat>, k: nat, stop: Option<nat>,
                                    order: seq<nat>)
    requires Closed(g) && MergesIn(g, merges) && k < |ns| && forall i :: 0 <= i < |ns| ==> ns[i] < |g|
    requires stop == Some(ns[k]) || ns[k] in order
    ensures LayoutEach(g, merges, ns[k..], stop, order) == LayoutEach(g, merges, ns[k + 1..], stop, order)
  {
    assert order + [] == order;
    EachStep(g, merges, ns, k, stop, order, []);
  }

  /** The new head's branch takes the walk one head on. */
  lemma {:induction false} NewStep(g: Digraph, merges: map<nat, nat>, ns: seq<nat>, k: nat, stop: Option<nat>,
                                   base: seq<nat>, done: seq<nat>, a: seq<nat>)
    requires Closed(g) && MergesIn(g, merges) && k < |ns| && forall i :: 0 <= i < |ns| ==> ns[i] < |g|
    requires Layout.Layout(g, merges, ns[k], stop, base + done) == base + done + a
    requires ns[k] in a && ns[k] !in base + done
    ensures LayoutEach(g, merges, ns[k..], stop, base + done) == LayoutEach(g, merges, ns[k + 1..], stop,
      base + (done + a))
    ensures Left(g, base + (done + a)) < Left(g, base + done)
  {
    EachStep(g, merges, ns, k, stop, base + done, a);
    LeftShrinks(g, base + done, a);
    assert base + done + a == base + (done + a);
  }

  lemma {:induction false} WalksNew(g: Digraph, merges: map<nat, nat>, start: nat, ns: seq<nat>, k: nat,
                                    stop: Option<nat>,
                                    base: seq<nat>, done: seq<nat>) returns (seg: seq<nat>)
    requires Regioned(g, merges) && BranchesOrdered(g, merges, start) && Heads(g, start, ns, stop, base)
    requires k < |ns| && Holds(g, ns, k, stop, done) && stop != Some(ns[k]) && ns[k] !in base + done
    ensures LayoutEach(g, merges, ns[k..], stop, base + done) == base + seg && Holds(g, ns, |ns|, stop, seg)
    decreases Left(g, base + done), |ns| - k + 1
  {
    NewHead(g, start, ns, k, stop, base, done);
    var a := Walks(g, merges, start, ns[k], stop, base + done);
    InSelf(g, ns[k], stop);
    NewStep(g, merges, ns, k, stop, base, done, a);
    AddHead(g, ns, k, stop, done, a);
    seg := WalksEach(g, merges, start, ns, k + 1, stop, base, done + a);
  }

  lemma HeadReached(g: Digraph, start: nat, v: nat, i: nat)
    requires Closed(g) && v < |g| && Reaches(g, start, v) && i < |g[v]|
    ensures g[v][i] < |g| && Reaches(g, start, g[v][i])
  {
    assert Edge(g, v, g[v][i]);
    EdgeReaches(g, v, g[v][i]);
    Trans(g, start, v, g[v][i]);
  }

  lemma NoneHeld(g: Digraph, ns: seq<nat>, stop: Option<nat>)
    ensures Holds(g, ns, 0, stop, [])
  {
  }

  lemma SplitHeads(g: Digraph, merges: map<nat, nat>, start: nat, v: nat, stop: Option<nat>, order: seq<nat>)
    requires Regioned(g, merges) && BranchesOrdered(g, merges, start) && Reaches(g, start, v)
    requires v in merges && Fresh(g, v, stop, order) && stop != Some(v)
    ensures Heads(g, start, g[v], Some(merges[v]), order + [v])
  {
    var mg := merges[v];
    assert HeadsOk(g, g[v], StopOf(merges, v));
    forall i | 0 <= i < |g[v]| ensures g[v][i] < |g| && Reaches(g, start, g[v][i]) && Bounded(g, Some(mg), g[v][i]) {
      HeadReached(g, start, v, i);
      BranchBounded(g, v, mg, g[v][i]);
    }
    forall x | x in order + [v] ensures !Within(g, g[v], |g[v]|, Some(mg), x) {
      if i :| 0 <= i < |g[v]| && In(g, g[v][i], Some(mg), x) {
        assert Edge(g, v, g[v][i]);
        if x == v { NotBehind(g, v, g[v][i], Some(mg)); } else { SplitRegion(g, v, stop, mg, x); }
      }
    }
  }

  lemma MergeFresh(g: Digraph, merges: map<nat, nat>, v: nat, stop: Option<nat>, order: seq<nat>, e: seq<nat>)
    requires Regioned(g, merges) && v in merges && Fresh(g, v, stop, order) && stop != Some(v)
    requires Holds(g, g[v], |g[v]|, Some(merges[v]), e)
    ensures Fresh(g, merges[v], stop, order + [v] + e)
  {
    var mg := merges[v];
    MergeBounded(g, v, stop, mg);
    forall x | x in order + [v] + e ensures !In(g, mg, stop, x) {
      if x in e {
        var i :| 0 <= i < |g[v]| && In(g, g[v][i], Some(mg), x);
        BranchBounded(g, v, mg, g[v][i]);
        BeforeNotAfter(g, g[v][i], mg, stop, x);
      } else if x in order {
        SplitRegion(g, v, stop, mg, x);
      } else if In(g, mg, stop, v) {
        InReaches(g, mg, stop, v);
        PdReached(g, mg, v);
        Antisymmetric(g, mg, v);
      }
    }
  }

  lemma SplitExactly(g: Digraph, merges: map<nat, nat>, v: nat, stop: Option<nat>, order: seq<nat>, e: seq<nat>,
                     m: seq<nat>)
    requires Regioned(g, merges) && v in merges && Fresh(g, v, stop, order) && stop != Some(v)
    requires Holds(g, g[v], |g[v]|, Some(merges[v]), e) && Exactly(g, merges[v], stop, m)
    ensures Exactly(g, v, stop, [v] + e + m)
  {
    var mg := merges[v];
    forall x: nat ensures x in [v] + e + m <==> In(g, v, stop, x) {
      SplitRegion(g, v, stop, mg, x);
      if u :| u in g[v] && In(g, u, Some(mg), x) { var i :| 0 <= i < |g[v]| && g[v][i] == u; }
    }
    forall u | u in g[v] && u != mg ensures u in e {
      var i :| 0 <= i < |g[v]| && g[v][i] == u;
      assert Edge(g, v, u);
      InSelf(g, u, Some(mg));
      assert Within(g, g[v], |g[v]|, Some(mg), u);
    }
    if stop != Some(mg) { InSelf(g, mg, stop); }
    SplitForward(g, v, mg, stop, e, m);
  }

  lemma {:induction false} WalksSplit(g: Digraph, merges: map<nat, nat>, start: nat, v: nat, stop: Option<nat>,
                                      order: seq<nat>)
    returns (seg: seq<nat>)
    requires Regioned(g, merges) && BranchesOrdered(g, merges, start) && Reaches(g, start, v) &&
      Fresh(g, v, stop, order)
    requires stop != Some(v) && v in merges
    ensures Layout.Layout(g, merges, v, stop, order) == order + seg && Exactly(g, v, stop, seg)
    decreases Left(g, order), 0
  {
    var o, mg := order + [v], merges[v];
    InSelf(g, v, stop);
    LeftShrinks(g, order, [v]);
    SplitHeads(g, merges, start, v, stop, order);
    NoneHeld(g, g[v], Some(mg));
    assert o + [] == o && g[v][0..] == g[v];
    var e := WalksEach(g, merges, start, g[v], 0, Some(mg), o, []);
    LeftShrinks(g, o, e);
    MergeFresh(g, merges, v, stop, order, e);
    PdReached(g, mg, v);
    Trans(g, start, v, mg);
    var m := Walks(g, merges, start, mg, stop, o + e);
    HeadsInGraph(g, v);
    SplitStep(g, merges, v, stop, order, e, m);
    SplitExactly(g, merges, v, stop, order, e, m);
    seg := [v] + e + m;
  }

  lemma PlainHeads(g: Digraph, merges: map<nat, nat>, start: nat, v: nat, stop: Option<nat>, order: seq<nat>)
    requires Regioned(g, merges) && BranchesOrdered(g, merges, start) && Reaches(g, start, v)
    requires v !in merges && Fresh(g, v, stop, order) && stop != Some(v)
    ensures Heads(g, start, g[v], stop, order + [v])
  {
    if |g[v]| > 1 {
      assert stop.None?;
      assert HeadsOk(g, g[v], StopOf(merges, v));
    } else {
      forall j | 0 <= j < |g[v]| ensures HeadOk(g, g[v], stop, j) {}
    }
    forall i | 0 <= i < |g[v]| ensures g[v][i] < |g| && Reaches(g, start, g[v][i]) && Bounded(g, stop, g[v][i]) {
      HeadReached(g, start, v, i);
      if stop.Some? { PdSuccessors(g, stop.value, v); }
    }
    forall x | x in order + [v] ensures !Within(g, g[v], |g[v]|, stop, x) {
      if i :| 0 <= i < |g[v]| && In(g, g[v][i], stop, x) {
        assert Edge(g, v, g[v][i]);
        if x == v { NotBehind(g, v, g[v][i], stop); } else { PlainRegion(g, v, stop, x); }
      }
    }
  }

  lemma PlainExactly(g: Digraph, v: nat, stop: Option<nat>, e: seq<nat>)
    requires Closed(g) && v < |g| && stop != Some(v) && Holds(g, g[v], |g[v]|, stop, e)
    ensures Exactly(g, v, stop, [v] + e)
  {
    forall x: nat ensures x in [v] + e <==> In(g, v, stop, x) {
      PlainRegion(g, v, stop, x);
      if u :| u in g[v] && In(g, u, stop, x) { var i :| 0 <= i < |g[v]| && g[v][i] == u; }
    }
    forall i, y: nat | 0 <= i < |[v]| && Edge(g, [v][i], y) ensures stop == Some(y) || y in [v][i + 1..] || y in e {
      var k :| 0 <= k < |g[v]| && g[v][k] == y;
      if stop != Some(y) {
        InSelf(g, y, stop);
        assert Within(g, g[v], |g[v]|, stop, y);
      }
    }
    ForwardConcat(g, stop, [v], e);
  }

  lemma {:induction false} PlainStep(g: Digraph, merges: map<nat, nat>, v: nat, stop: Option<nat>, order: seq<nat>,
                                     e: seq<nat>)
    requires Closed(g) && MergesIn(g, merges) && v < |g| && stop != Some(v) && v !in order && v !in merges
    requires forall i :: 0 <= i < |g[v]| ==> g[v][i] < |g|
    requires LayoutEach(g, merges, g[v], stop, order + [v]) == order + [v] + e
    ensures Layout.Layout(g, merges, v, stop, order) == order + ([v] + e)
  {
    assert order + [v] + e == order + ([v] + e);
  }

  lemma {:induction false} WalksPlain(g: Digraph, merges: map<nat, nat>, start: nat, v: nat, stop: Option<nat>,
                                      order: seq<nat>)
    returns (seg: seq<nat>)
    requires Regioned(g, merges) && BranchesOrdered(g, merges, start) && Reaches(g, start, v) &&
      Fresh(g, v, stop, order)
    requires stop != Some(v) && v !in merges
    ensures Layout.Layout(g, merges, v, stop, order) == order + seg && Exactly(g, v, stop, seg)
    decreases Left(g, order), 0
  {
    var o := order + [v];
    InSelf(g, v, stop);
    LeftShrinks(g, order, [v]);
    PlainHeads(g, merges, start, v, stop, order);
    NoneHeld(g, g[v], stop);
    assert o + [] == o && g[v][0..] == g[v];
    var e := WalksEach(g, merges, start, g[v], 0, stop, o, []);
    HeadsInGraph(g, v);
    PlainStep(g, merges, v, stop, order, e);
    PlainExactly(g, v, stop, e);
    seg := [v] + e;
  }

  /** The condition is enough. */
  lemma {:induction false} OrderedGoesForward(g: Digraph, merges: map<nat, nat>, start: nat, order: seq<nat>)
    requires Regioned(g, merges) && start < |g| && Layout.Layout(g, merges, start, None, []) <= order && Distinct(order)
    requires BranchesOrdered(g, merges, start)
    ensures FlowsForward(g, start, order)
  {
    Refl(g, start);
    var seg := Walks(g, merges, start, start, None, []);
    assert [] + seg == seg;
    SegmentForward(g, start, seg, order);
  }

  // ---------------------------------------------------------------- what a walk visits

  /** A walk visits only its region. */
  lemma {:induction false} LayoutOnly(g: Digraph, merges: map<nat, nat>, v: nat, stop: Option<nat>, order: seq<nat>,
                                      x: nat)
    requires Regioned(g, merges) && v < |g| && Bounded(g, stop, v)
    requires x in Layout.Layout(g, merges, v, stop, order) && x !in order
    ensures In(g, v, stop, x)
    decreases Left(g, order), 0
  {
    if x == v {
      InSelf(g, v, stop);
    } else {
      var o := order + [v];
      LeftShrinks(g, order, [v]);
      HeadsInGraph(g, v);
      if |g[v]| > 1 && v in merges {
        SplitOnly(g, merges, v, stop, o, x);
      } else {
        PlainBounded(g, v, stop);
        EachOnly(g, merges, g[v], stop, o, x);
        var i :| 0 <= i < |g[v]| && In(g, g[v][i], stop, x);
        PlainRegion(g, v, stop, x);
      }
    }
  }

  lemma PlainBounded(g: Digraph, v: nat, stop: Option<nat>)
    requires Closed(g) && v < |g| && Bounded(g, stop, v) && stop != Some(v)
    ensures forall i :: 0 <= i < |g[v]| ==> Bounded(g, stop, g[v][i])
  {
    if stop.Some? && |g[v]| > 0 { PdSuccessors(g, stop.value, v); }
  }

  lemma SplitBounded(g: Digraph, v: nat, merge: nat)
    requires Closed(g) && v < |g| && Immediate(g, merge, v)
    ensures forall i :: 0 <= i < |g[v]| ==> Bounded(g, Some(merge), g[v][i])
  {
    forall i | 0 <= i < |g[v]| ensures Bounded(g, Some(merge), g[v][i]) { BranchBounded(g, v, merge, g[v][i]); }
  }

  lemma {:induction false} SplitOnly(g: Digraph, merges: map<nat, nat>, v: nat, stop: Option<nat>, o: seq<nat>, x: nat)
    requires Regioned(g, merges) && v in merges && Bounded(g, stop, v) && stop != Some(v) && x !in o
    requires forall i :: 0 <= i < |g[v]| ==> g[v][i] < |g|
    requires x in Layout.Layout(g, merges, merges[v], stop, LayoutEach(g, merges, g[v], Some(merges[v]), o))
    ensures In(g, v, stop, x)
    decreases Left(g, o), |g[v]| + 2
  {
    var mg := merges[v];
    var b := LayoutEach(g, merges, g[v], Some(mg), o);
    SplitRegion(g, v, stop, mg, x);
    if x in b {
      SplitBounded(g, v, mg);
      EachOnly(g, merges, g[v], Some(mg), o, x);
      var i :| 0 <= i < |g[v]| && In(g, g[v][i], Some(mg), x);
    } else {
      assert Left(g, b) <= Left(g, o);
      MergeBounded(g, v, stop, mg);
      LayoutOnly(g, merges, mg, stop, b, x);
    }
  }

  lemma {:induction false} EachOnly(g: Digraph, merges: map<nat, nat>, ns: seq<nat>, stop: Option<nat>,
                                    order: seq<nat>, x: nat)
    requires Regioned(g, merges) && forall i :: 0 <= i < |ns| ==> ns[i] < |g| && Bounded(g, stop, ns[i])
    requires x in LayoutEach(g, merges, ns, stop, order) && x !in order
    ensures Within(g, ns, |ns|, stop, x)
    decreases Left(g, order), |ns| + 1
  {
    var o := Layout.Layout(g, merges, ns[0], stop, order);
    if x in o {
      LayoutOnly(g, merges, ns[0], stop, order, x);
    } else {
      assert Left(g, o) <= Left(g, order);
      EachOnly(g, merges, ns[1..], stop, o, x);
      var i :| 0 <= i < |ns[1..]| && In(g, ns[1..][i], stop, x);
      assert ns[i + 1] == ns[1..][i];
    }
  }

  /** Every successor of a node newly visited is visited, or is where the walk stops. */
  ghost predicate Followed(g: Digraph, order: seq<nat>, r: seq<nat>, stop: Option<nat>) {
    forall u, y :: u in r && u !in order && Edge(g, u, y) ==> y in r || stop == Some(y)
  }

  lemma {:induction false} LayoutFollows(g: Digraph, merges: map<nat, nat>, v: nat, stop: Option<nat>, order: seq<nat>)
    requires Closed(g) && MergesIn(g, merges) && v < |g|
    ensures Followed(g, order, Layout.Layout(g, merges, v, stop, order), stop)
    ensures stop == Some(v) || v in Layout.Layout(g, merges, v, stop, order)
    decreases Left(g, order), 0
  {
    if stop != Some(v) && v !in order {
      var o := order + [v];
      LeftShrinks(g, order, [v]);
      HeadsInGraph(g, v);
      var bound := if |g[v]| > 1 && v in merges then Some(merges[v]) else stop;
      EachFollows(g, merges, g[v], bound, o);
      var b := LayoutEach(g, merges, g[v], bound, o);
      assert v in o && v in b;
      if |g[v]| > 1 && v in merges {
        assert Left(g, b) <= Left(g, o);
        LayoutFollows(g, merges, merges[v], stop, b);
        FollowedOn(g, order, v, b, Layout.Layout(g, merges, merges[v], stop, b), merges[v], stop);
      } else {
        FollowedHead(g, order, v, b, stop);
      }
    }
  }

  lemma FollowedHead(g: Digraph, order: seq<nat>, v: nat, b: seq<nat>, bound: Option<nat>)
    requires v < |g| && Followed(g, order + [v], b, bound) && forall i :: 0 <= i < |g[v]| ==>
      g[v][i] in b || bound == Some(g[v][i])
    ensures Followed(g, order, b, bound)
  {
    forall u, y | u in b && u !in order && Edge(g, u, y) ensures y in b || bound == Some(y) {
      if u == v { var i :| 0 <= i < |g[v]| && g[v][i] == y; }
    }
  }

  lemma FollowedOn(g: Digraph, order: seq<nat>, v: nat, b: seq<nat>, r: seq<nat>, merge: nat, stop: Option<nat>)
    requires v < |g| && Followed(g, order + [v], b, Some(merge)) && b <= r && Followed(g, b, r, stop)
    requires forall i :: 0 <= i < |g[v]| ==> g[v][i] in b || g[v][i] == merge
    requires stop == Some(merge) || merge in r
    ensures Followed(g, order, r, stop)
  {
    FollowedHead(g, order, v, b, Some(merge));
    forall u: nat, y: nat | u in r && u !in order && Edge(g, u, y) ensures y in r || stop == Some(y) {
      if u in b { assert y in b || y == merge; }
    }
  }

  lemma {:induction false} EachFollows(g: Digraph, merges: map<nat, nat>, ns: seq<nat>, stop: Option<nat>,
                                       order: seq<nat>)
    requires Closed(g) && MergesIn(g, merges) && forall i :: 0 <= i < |ns| ==> ns[i] < |g|
    ensures Followed(g, order, LayoutEach(g, merges, ns, stop, order), stop)
    ensures forall i :: 0 <= i < |ns| ==> ns[i] in LayoutEach(g, merges, ns, stop, order) || stop == Some(ns[i])
    decreases Left(g, order), |ns| + 1
  {
    if ns != [] {
      var o := Layout.Layout(g, merges, ns[0], stop, order);
      LayoutFollows(g, merges, ns[0], stop, order);
      assert Left(g, o) <= Left(g, order);
      EachFollows(g, merges, ns[1..], stop, o);
      var r := LayoutEach(g, merges, ns[1..], stop, o);
      forall i | 0 <= i < |ns| ensures ns[i] in r || stop == Some(ns[i]) {
        if i > 0 { assert ns[1..][i - 1] == ns[i]; }
      }
      forall u: nat, y: nat | u in r && u !in order && Edge(g, u, y) ensures y in r || stop == Some(y) {
        if u in o { assert y in o || stop == Some(y); }
      }
    }
  }

  /** The walk entered node `x` after `o` and with `c` to stop at, and came to `r`. */
  ghost predicate CallAt(g: Digraph, merges: map<nat, nat>, x: nat, c: Option<nat>, o: seq<nat>, r: seq<nat>) {
    && Closed(g) && MergesIn(g, merges) && x < |g| && x !in o && c != Some(x) && Bounded(g, c, x)
    && Layout.Layout(g, merges, x, c, o) <= r
  }

  ghost predicate Called(g: Digraph, merges: map<nat, nat>, x: nat, r: seq<nat>) {
    exists c, o :: CallAt(g, merges, x, c, o, r)
  }

  lemma CalledLater(g: Digraph, merges: map<nat, nat>, x: nat, r: seq<nat>, s: seq<nat>)
    requires Called(g, merges, x, r) && r <= s
    ensures Called(g, merges, x, s)
  {
    var c, o :| CallAt(g, merges, x, c, o, r);
    assert CallAt(g, merges, x, c, o, s);
  }

  /** Every node newly visited was entered once. */
  lemma {:induction false} LayoutCalls(g: Digraph, merges: map<nat, nat>, v: nat, stop: Option<nat>, order: seq<nat>,
                                       x: nat)
    requires Regioned(g, merges) && v < |g| && Bounded(g, stop, v)
    requires x in Layout.Layout(g, merges, v, stop, order) && x !in order
    ensures Called(g, merges, x, Layout.Layout(g, merges, v, stop, order))
    decreases Left(g, order), 0
  {
    var r := Layout.Layout(g, merges, v, stop, order);
    if x == v {
      assert CallAt(g, merges, x, stop, order, r);
    } else {
      var o := order + [v];
      LeftShrinks(g, order, [v]);
      HeadsInGraph(g, v);
      if |g[v]| > 1 && v in merges {
        SplitCalls(g, merges, v, stop, o, x, r);
      } else {
        PlainBounded(g, v, stop);
        EachCalls(g, merges, g[v], stop, o, x);
      }
    }
  }

  lemma {:induction false} SplitCalls(g: Digraph, merges: map<nat, nat>, v: nat, stop: Option<nat>, o: seq<nat>,
                                      x: nat, r: seq<nat>)
    requires Regioned(g, merges) && v in merges && Bounded(g, stop, v) && stop != Some(v) && x !in o
    requires forall i :: 0 <= i < |g[v]| ==> g[v][i] < |g|
    requires r == Layout.Layout(g, merges, merges[v], stop, LayoutEach(g, merges, g[v], Some(merges[v]), o)) && x in r
    ensures Called(g, merges, x, r)
    decreases Left(g, o), |g[v]| + 2
  {
    var b := LayoutEach(g, merges, g[v], Some(merges[v]), o);
    if x in b {
      SplitBounded(g, v, merges[v]);
      EachCalls(g, merges, g[v], Some(merges[v]), o, x);
      CalledLater(g, merges, x, b, r);
    } else {
      assert Left(g, b) <= Left(g, o);
      MergeBounded(g, v, stop, merges[v]);
      LayoutCalls(g, merges, merges[v], stop, b, x);
    }
  }

  lemma {:induction false} EachCalls(g: Digraph, merges: map<nat, nat>, ns: seq<nat>, stop: Option<nat>,
                                     order: seq<nat>, x: nat)
    requires Regioned(g, merges) && forall i :: 0 <= i < |ns| ==> ns[i] < |g| && Bounded(g, stop, ns[i])
    requires x in LayoutEach(g, merges, ns, stop, order) && x !in order
    ensures Called(g, merges, x, LayoutEach(g, merges, ns, stop, order))
    decreases Left(g, order), |ns| + 1
  {
    var o := Layout.Layout(g, merges, ns[0], stop, order);
    var r := LayoutEach(g, merges, ns, stop, order);
    if x in o {
      LayoutCalls(g, merges, ns[0], stop, order, x);
      CalledLater(g, merges, x, o, r);
    } else {
      assert Left(g, o) <= Left(g, order);
      EachCalls(g, merges, ns[1..], stop, o, x);
    }
  }

  /** The layout after the first `j` heads. */
  lemma {:induction false} EachPrefix(g: Digraph, merges: map<nat, nat>, ns: seq<nat>, j: nat, stop: Option<nat>,
                                      order: seq<nat>)
    requires Closed(g) && MergesIn(g, merges) && (forall i :: 0 <= i < |ns| ==> ns[i] < |g|) && j <= |ns|
    ensures LayoutEach(g, merges, ns[..j], stop, order) <= LayoutEach(g, merges, ns, stop, order)
    decreases j
  {
    if j > 0 {
      var o := Layout.Layout(g, merges, ns[0], stop, order);
      EachPrefix(g, merges, ns[1..], j - 1, stop, o);
      assert ns[..j][0] == ns[0] && ns[..j][1..] == ns[1..][..j - 1];
    }
  }

  // ---------------------------------------------------------------- needed

  /** What `n` leads to is listed after it. */
  lemma BeyondPrefix(g: Digraph, start: nat, order: seq<nat>, o: seq<nat>, n: nat, x: nat)
    requires Labelling.Lists(g, start, order) && o + [n] <= order && Reaches(g, start, n) && Reaches(g, n, x) && x != n
    ensures x !in o + [n]
  {
    var i, j := Labelling.AheadIndex(g, start, order, n, x);
    assert order[|o|] == (o + [n])[|o|] == n;
    assert i == |o|;
  }

  /** A split of the flow where the walk stood after `o`, and what its first `j` branches came to. */
  ghost predicate At(g: Digraph, start: nat, order: seq<nat>, o: seq<nat>, n: nat, b: seq<nat>, stop: Option<nat>) {
    && Closed(g) && Acyclic(g) && Labelling.Lists(g, start, order) && o + [n] <= b <= order && n < |g|
    && Reaches(g, start, n) && Followed(g, o + [n], b, stop)
  }

  lemma HeadBeyond(g: Digraph, n: nat, i: nat, x: nat)
    requires Closed(g) && Acyclic(g) && n < |g| && i < |g[n]| && Reaches(g, g[n][i], x)
    ensures Reaches(g, n, x) && x != n
  {
    assert Edge(g, n, g[n][i]);
    EdgeReaches(g, n, g[n][i]);
    Trans(g, n, g[n][i], x);
    if x == n {
      Antisymmetric(g, n, g[n][i]);
      assert IsPath(g, [n, n]);
    }
  }

  lemma {:induction false} PathLaid(g: Digraph, start: nat, order: seq<nat>, o: seq<nat>, n: nat, b: seq<nat>,
                                    stop: Option<nat>,
                                    i: nat, p: seq<nat>, k: nat)
    requires At(g, start, order, o, n, b, stop) && i < |g[n]| && IsPath(g, p) && p[0] == g[n][i] && k < |p|
    requires Avoids(p, stop) && p[0] in b
    ensures p[k] in b
    decreases k
  {
    if k > 0 {
      PathLaid(g, start, order, o, n, b, stop, i, p, k - 1);
      PathSlice(g, p, 0, k);
      assert PathFromTo(g, p[0..k], g[n][i], p[k - 1]);
      HeadBeyond(g, n, i, p[k - 1]);
      BeyondPrefix(g, start, order, o, n, p[k - 1]);
      assert Edge(g, p[k - 1], p[k]) && p[k] in p;
    }
  }

  lemma WithinLaid(g: Digraph, start: nat, order: seq<nat>, o: seq<nat>, n: nat, b: seq<nat>, stop: Option<nat>,
                   j: nat, y: nat)
    requires At(g, start, order, o, n, b, stop) && j < |g[n]| && Within(g, g[n], j, stop, y)
    requires forall i :: 0 <= i < j ==> g[n][i] in b || stop == Some(g[n][i])
    ensures y in b && y < |g|
  {
    var i :| 0 <= i < j && i < |g[n]| && In(g, g[n][i], stop, y);
    var p :| Via(g, g[n][i], stop, y, p);
    assert p[0] in p;
    PathLaid(g, start, order, o, n, b, stop, i, p, |p| - 1);
  }

  /** The first point of a path that lies within the first `j` branches. */
  lemma {:induction false} FirstWithin(g: Digraph, ns: seq<nat>, j: nat, stop: Option<nat>, q: seq<nat>, m: nat)
                                       returns (k: nat)
    requires m < |q| && !Within(g, ns, j, stop, q[0]) && Within(g, ns, j, stop, q[m])
    ensures k < m && !Within(g, ns, j, stop, q[k]) && Within(g, ns, j, stop, q[k + 1])
    decreases m
  {
    if Within(g, ns, j, stop, q[m - 1]) { k := FirstWithin(g, ns, j, stop, q, m - 1); } else { k := m - 1; }
  }

  /** A branch that breaks the condition has a flow into the earlier ones. */
  lemma EntersLate(g: Digraph, ns: seq<nat>, stop: Option<nat>, j: nat) returns (u: nat, y: nat)
    requires j < |ns| && !HeadOk(g, ns, stop, j)
    ensures Edge(g, u, y) && Reaches(g, ns[j], u) && !Within(g, ns, j, stop, u) && Within(g, ns, j, stop, y)
  {
    var i :| 0 <= i < j && !Apart(g, ns[i], ns[j], stop);
    var x: nat :| In(g, ns[i], stop, x) && In(g, ns[j], stop, x);
    var q :| Via(g, ns[j], stop, x, q);
    var k := FirstWithin(g, ns, j, stop, q, |q| - 1);
    u, y := q[k], q[k + 1];
    assert Edge(g, q[k], q[k + 1]);
    PathSlice(g, q, 0, k + 1);
    assert PathFromTo(g, q[0..k + 1], ns[j], q[k]);
  }

  /** No flow leads from a later branch into the earlier ones. */
  lemma {:induction false} NoWayBack(g: Digraph, merges: map<nat, nat>, start: nat, order: seq<nat>, o: seq<nat>,
                                     n: nat, stop: Option<nat>,
                                     j: nat, u: nat, y: nat)
    requires Regioned(g, merges) && n < |g| && j < |g[n]|
    requires forall i :: 0 <= i < |g[n]| ==> g[n][i] < |g| && Bounded(g, stop, g[n][i])
    requires var b := LayoutEach(g, merges, g[n][..j], stop, o + [n]);
      At(g, start, order, o, n, b, stop) && forall i :: 0 <= i < j ==> g[n][i] in b || stop == Some(g[n][i])
    requires Edge(g, u, y) && Reaches(g, g[n][j], u) && Within(g, g[n], j, stop, y)
    ensures Within(g, g[n], j, stop, u)
  {
    var ns := g[n];
    var b := LayoutEach(g, merges, ns[..j], stop, o + [n]);
    WithinLaid(g, start, order, o, n, b, stop, j, y);
    HeadBeyond(g, n, j, u);
    BeyondPrefix(g, start, order, o, n, u);
    Trans(g, start, n, u);
    EdgeReaches(g, u, y);
    var k, l := EdgeAhead(g, start, order, u, y);
    PrefixHolds(order, b, k, l);
    EachOnly(g, merges, ns[..j], stop, o + [n], u);
    var h :| 0 <= h < |ns[..j]| && In(g, ns[..j][h], stop, u);
    assert ns[..j][h] == ns[h];
  }

  lemma EdgeAhead(g: Digraph, start: nat, order: seq<nat>, u: nat, y: nat) returns (k: nat, l: nat)
    requires Acyclic(g) && Labelling.Lists(g, start, order) && Edge(g, u, y) && y < |g| && Reaches(g, start, u) &&
      Reaches(g, u, y)
    ensures k < l < |order| && order[k] == u && order[l] == y
  {
    if u == y { assert IsPath(g, [u, u]); }
    k, l := Labelling.AheadIndex(g, start, order, u, y);
  }

  lemma PrefixHolds(order: seq<nat>, b: seq<nat>, k: nat, l: nat)
    requires b <= order && Distinct(order) && k < l < |order| && order[l] in b
    ensures order[k] in b
  {
    var m :| 0 <= m < |b| && b[m] == order[l];
    assert order[m] == b[m];
    assert m == l;
    assert b[k] == order[k];
  }

  lemma {:induction false} ReachedIsLaid(g: Digraph, merges: map<nat, nat>, start: nat, p: seq<nat>)
    requires Closed(g) && MergesIn(g, merges) && start < |g| && IsPath(g, p) && p[0] == start
    ensures p[|p| - 1] in Layout.Layout(g, merges, start, None, [])
    decreases |p|
  {
    LayoutFollows(g, merges, start, None, []);
    if |p| > 1 {
      PathSlice(g, p, 0, |p| - 1);
      ReachedIsLaid(g, merges, start, p[0..|p| - 1]);
      assert Edge(g, p[|p| - 2], p[|p| - 1]);
    }
  }

  /** Where the walk stood at a split on the flow. */
  lemma {:induction false} SplitStands(g: Digraph, merges: map<nat, nat>, start: nat, order: seq<nat>, n: nat)
                                       returns (o: seq<nat>)
    requires Regioned(g, merges) && start < |g| && Layout.Layout(g, merges, start, None, []) <= order
    requires n < |g| && |g[n]| > 1 && Reaches(g, start, n)
    ensures forall i :: 0 <= i < |g[n]| ==> g[n][i] < |g| && Bounded(g, StopOf(merges, n), g[n][i])
    ensures LayoutEach(g, merges, g[n], StopOf(merges, n), o + [n]) <= order
  {
    var p :| PathFromTo(g, p, start, n);
    ReachedIsLaid(g, merges, start, p);
    LayoutCalls(g, merges, start, None, [], n);
    var r := Layout.Layout(g, merges, start, None, []);
    var c;
    c, o :| CallAt(g, merges, n, c, o, r);
    HeadsInGraph(g, n);
    if n in merges {
      SplitBounded(g, n, merges[n]);
    } else {
      assert c.None?;
      PlainBounded(g, n, c);
    }
  }

  lemma {:induction false} HeadNeeded(g: Digraph, merges: map<nat, nat>, start: nat, order: seq<nat>, n: nat, j: nat)
    requires Regioned(g, merges) && start < |g| && Layout.Layout(g, merges, start, None, []) <= order
    requires Labelling.Lists(g, start, order) && n < |g| && |g[n]| > 1 && Reaches(g, start, n) && j < |g[n]|
    ensures HeadOk(g, g[n], StopOf(merges, n), j)
  {
    var ns, stop := g[n], StopOf(merges, n);
    if !HeadOk(g, ns, stop, j) {
      var u, y := EntersLate(g, ns, stop, j);
      var o := SplitStands(g, merges, start, order, n);
      EachPrefix(g, merges, ns, j, stop, o + [n]);
      EachFollows(g, merges, ns[..j], stop, o + [n]);
      assert forall h :: 0 <= h < j ==> ns[..j][h] == ns[h];
      NoWayBack(g, merges, start, order, o, n, stop, j, u, y);
    }
  }

  /** The layout of a flow goes forward if and only if, at every split the start reaches, each
      branch either begins inside an earlier one or shares nothing with any earlier one. */
  lemma {:induction false} ForwardIffOrdered(g: Digraph, merges: map<nat, nat>, start: nat, order: seq<nat>)
    requires Regioned(g, merges) && start < |g| && Layout.Layout(g, merges, start, None, []) <= order
    requires Distinct(order) && forall x: nat :: x in order <==> x < |g|
    ensures FlowsForward(g, start, order) <==> BranchesOrdered(g, merges, start)
  {
    if FlowsForward(g, start, order) {
      forall n: nat | n < |g| && Reaches(g, start, n) && |g[n]| > 1 ensures HeadsOk(g, g[n], StopOf(merges, n)) {
        forall j | 0 <= j < |g[n]| ensures HeadOk(g, g[n], StopOf(merges, n), j) {
          HeadNeeded(g, merges, start, order, n, j);
        }
      }
    }
    if BranchesOrdered(g, merges, start) { OrderedGoesForward(g, merges, start, order); }
  }

  /** Branches that keep to themselves are ordered however their heads are listed. */
  lemma ApartIsOrdered(g: Digraph, merges: map<nat, nat>, start: nat)
    requires Structured(g, merges)
    ensures BranchesOrdered(g, merges, start)
  {
    forall n: nat, j | n < |g| && |g[n]| > 1 && 0 <= j < |g[n]| ensures HeadOk(g, g[n], StopOf(merges, n), j) {
      var ns, stop := g[n], StopOf(merges, n);
      HeadsInGraph(g, n);
      if stop == Some(ns[j]) {
        forall x: nat ensures !In(g, ns[j], stop, x) { StopIsEmpty(g, ns[j], x); }
      } else {
        InSelf(g, ns[j], stop);
        assert forall i :: 0 <= i < j ==> ns[i] == ns[j] || Apart(g, ns[i], ns[j], stop);
      }
    }
  }

  /** A split whose second branch begins inside its first. */
  const CHAINED: Digraph := [[1, 2], [2, 3], [3], []]

  const CHAINED_MERGES: map<nat, nat> := map[0 := 3, 1 := 3]

  /** Both of its splits merge at the last node. */
  lemma ChainedRegions()
    requires Closed(CHAINED)
    ensures IsRegionMap(CHAINED, CHAINED_MERGES)
  {
    PdSelf(CHAINED, 3);
    PdSuccessors(CHAINED, 3, 2);
    PdSuccessors(CHAINED, 3, 1);
    PdSuccessors(CHAINED, 3, 0);
    assert 3 in CHAINED[1] && 3 in CHAINED[2] && 1 in CHAINED[0] && 2 in CHAINED[0];
    forall e: nat | e < |CHAINED| && e != 1 && PostDominates(CHAINED, e, 1) ensures PostDominates(CHAINED, e, 3) {
      PdSuccessors(CHAINED, e, 1);
    }
    forall e: nat | e < |CHAINED| && e != 0 && PostDominates(CHAINED, e, 0) ensures PostDominates(CHAINED, e, 3) {
      PdSuccessors(CHAINED, e, 0);
      if e != 1 { PdSuccessors(CHAINED, e, 1); } else { PdSuccessors(CHAINED, e, 2); }
    }
  }

  lemma ChainedHead(n: nat, j: nat)
    requires n < |CHAINED| && |CHAINED[n]| > 1 && j < |CHAINED[n]| && In(CHAINED, 1, Some(3), 2)
    ensures HeadOk(CHAINED, CHAINED[n], StopOf(CHAINED_MERGES, n), j)
  {
    assert n == 0 || n == 1;
    if n == 1 && j == 1 { forall x: nat ensures !In(CHAINED, 3, Some(3), x) { StopIsEmpty(CHAINED, 3, x); } }
    else if j == 1 { assert In(CHAINED, CHAINED[0][0], Some(3), CHAINED[0][1]); }
  }

  /** With its own merges, its branches are not apart, and still it is ordered. */
  lemma ChainedIsOrdered()
    ensures Closed(CHAINED) && IsRegionMap(CHAINED, CHAINED_MERGES)
    ensures !BranchesApart(CHAINED, CHAINED_MERGES) && BranchesOrdered(CHAINED, CHAINED_MERGES, 0)
  {
    forall u: nat, v: nat | Edge(CHAINED, u, v) ensures v < |CHAINED| {}
    ChainedRegions();
    assert Edge(CHAINED, 1, 2) && IsPath(CHAINED, [1, 2]);
    assert Via(CHAINED, 1, Some(3), 2, [1, 2]);
    InSelf(CHAINED, 2, Some(3));
    assert StopOf(CHAINED_MERGES, 0) == Some(3) && !Apart(CHAINED, 1, 2, Some(3)) && 1 in CHAINED[0] && 2 in CHAINED[0];
    forall n: nat, j: nat | n < |CHAINED| && |CHAINED[n]| > 1 && j < |CHAINED[n]|
      ensures HeadOk(CHAINED, CHAINED[n], StopOf(CHAINED_MERGES, n), j)
    {
      ChainedHead(n, j);
    }
  }
}
