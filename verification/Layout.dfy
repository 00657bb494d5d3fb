/** Region-aware layout: each branch is laid out whole before the merge it leads to. */
module Layout {
  import opened Options
  import opened Graphs
  import opened PostDominators
  import opened Regions

  function Elems(order: seq<nat>): (s: set<nat>)
    ensures forall x :: x in s <==> x in order
  {
    set x | x in order
  }

  function Left(g: Digraph, order: seq<nat>): set<nat> {
    Upto(|g|) - Elems(order)
  }

  ghost predicate MergesIn(g: Digraph, merges: map<nat, nat>) {
    forall n :: n in merges ==> merges[n] < |g|
  }

  // ---------------------------------------------------------------- the walk

  /** Appends the nodes met from `n`, stopping short of `stop`. */
  function Layout(g: Digraph, merges: map<nat, nat>, n: nat, stop: Option<nat>, order: seq<nat>): (r: seq<nat>)
    requires Closed(g) && MergesIn(g, merges) && n < |g|
    ensures order <= r
    decreases Left(g, order), 0
  {
    if stop == Some(n) || n in order then order
    else
      var o := order + [n];
      assert Left(g, o) < Left(g, order) by { assert n in Left(g, order) && n !in Left(g, o); }
      HeadsInGraph(g, n);
      if |g[n]| > 1 && n in merges then
        var branches := LayoutEach(g, merges, g[n], Some(merges[n]), o);
        assert Left(g, branches) <= Left(g, o);
        Layout(g, merges, merges[n], stop, branches)
      else LayoutEach(g, merges, g[n], stop, o)
  }

  function LayoutEach(g: Digraph, merges: map<nat, nat>, ns: seq<nat>, stop: Option<nat>,
                      order: seq<nat>): (r: seq<nat>)
    requires Closed(g) && MergesIn(g, merges) && forall i :: 0 <= i < |ns| ==> ns[i] < |g|
    ensures order <= r
    decreases Left(g, order), |ns|
  {
    if ns == [] then order
    else
      var o := Layout(g, merges, ns[0], stop, order);
      assert Left(g, o) <= Left(g, order);
      LayoutEach(g, merges, ns[1..], stop, o)
  }

  lemma HeadsInGraph(g: Digraph, n: nat)
    requires Closed(g) && n < |g|
    ensures forall i :: 0 <= i < |g[n]| ==> g[n][i] < |g|
  {
    forall i | 0 <= i < |g[n]| ensures g[n][i] < |g| { assert Edge(g, n, g[n][i]); }
  }

  method LayoutRegion(g: Digraph, merges: map<nat, nat>, n: nat, stop: Option<nat>, visited0: set<nat>,
                      order0: seq<nat>)
    returns (visited: set<nat>, order: seq<nat>)
    requires Closed(g) && MergesIn(g, merges) && n < |g| && visited0 == Elems(order0)
    ensures order == Layout(g, merges, n, stop, order0) && visited == Elems(order)
    decreases Left(g, order0)
  {
    visited, order := visited0, order0;
    if stop == Some(n) { return; }
    if n in visited { return; }
    visited := visited + {n};
    order := order + [n];
    assert Left(g, order) < Left(g, order0) by { assert n in Left(g, order0) && n !in Left(g, order); }
    HeadsInGraph(g, n);
    ghost var o := order;
    if |g[n]| == 1 {
      visited, order := LayoutRegion(g, merges, g[n][0], stop, visited, order);
      assert LayoutEach(g, merges, g[n], stop, o) == LayoutEach(g, merges, [], stop, order);
    } else if |g[n]| > 1 {
      var bound := if n in merges then Some(merges[n]) else stop;
      for i := 0 to |g[n]|
        invariant visited == Elems(order) && o <= order
        invariant LayoutEach(g, merges, g[n], bound, o) == LayoutEach(g, merges, g[n][i..], bound, order)
      {
        assert Left(g, order) <= Left(g, o);
        visited, order := LayoutRegion(g, merges, g[n][i], bound, visited, order);
      }
      if n in merges {
        assert Left(g, order) <= Left(g, o);
        visited, order := LayoutRegion(g, merges, merges[n], stop, visited, order);
      }
    }
  }

  // ---------------------------------------------------------------- a permutation

  ghost predicate Listed(g: Digraph, order: seq<nat>) {
    Distinct(order) && forall x :: x in order ==> x < |g|
  }

  lemma {:induction false} LayoutLists(g: Digraph, merges: map<nat, nat>, n: nat, stop: Option<nat>, order: seq<nat>)
    requires Closed(g) && MergesIn(g, merges) && n < |g| && Listed(g, order)
    ensures Listed(g, Layout(g, merges, n, stop, order))
    ensures stop != Some(n) ==> n in Layout(g, merges, n, stop, order)
    decreases Left(g, order), 0
  {
    if stop != Some(n) && n !in order {
      var o := order + [n];
      assert n in Left(g, order) && n !in Left(g, o);
      HeadsInGraph(g, n);
      var bound := if |g[n]| > 1 && n in merges then Some(merges[n]) else stop;
      LayoutEachLists(g, merges, g[n], bound, o);
      var branches := LayoutEach(g, merges, g[n], bound, o);
      assert n in o && n in branches;
      if |g[n]| > 1 && n in merges {
        assert Left(g, branches) <= Left(g, o);
        LayoutLists(g, merges, merges[n], stop, branches);
      }
    }
  }

  lemma {:induction false} LayoutEachLists(g: Digraph, merges: map<nat, nat>, ns: seq<nat>, stop: Option<nat>,
                                           order: seq<nat>)
    requires Closed(g) && MergesIn(g, merges) && (forall i :: 0 <= i < |ns| ==> ns[i] < |g|) && Listed(g, order)
    ensures Listed(g, LayoutEach(g, merges, ns, stop, order))
    decreases Left(g, order), |ns|
  {
    if ns != [] {
      LayoutLists(g, merges, ns[0], stop, order);
      var o := Layout(g, merges, ns[0], stop, order);
      assert Left(g, o) <= Left(g, order);
      LayoutEachLists(g, merges, ns[1..], stop, o);
    }
  }

  lemma {:induction false} LayoutHead(g: Digraph, merges: map<nat, nat>, n: nat)
    requires Closed(g) && MergesIn(g, merges) && n < |g|
    ensures |Layout(g, merges, n, None, [])| > 0 && Layout(g, merges, n, None, [])[0] == n
  {
    HeadsInGraph(g, n);
    assert [] + [n] == [n];
    var bound := if |g[n]| > 1 && n in merges then Some(merges[n]) else None;
    assert [n] <= LayoutEach(g, merges, g[n], bound, [n]);
  }

  /** The order of all nodes: first what the start reaches, then the rest by index. */
  method StructuredOrder(g: Digraph, start: nat, merges: map<nat, nat>) returns (order: seq<nat>)
    requires Closed(g) && MergesIn(g, merges) && start < |g|
    ensures Listed(g, order) && |order| == |g| && forall x: nat :: x in order <==> x < |g|
    ensures Layout(g, merges, start, None, []) <= order
  {
    var visited: set<nat>;
    visited, order := LayoutRegion(g, merges, start, None, {}, []);
    LayoutLists(g, merges, start, None, []);
    for i := 0 to |g|
      invariant visited == Elems(order) && Listed(g, order)
      invariant forall x: nat :: x < i ==> x in order
      invariant Layout(g, merges, start, None, []) <= order
    {
      if i !in visited {
        LayoutLists(g, merges, i, None, order);
        ghost var before := order;
        visited, order := LayoutRegion(g, merges, i, None, visited, order);
        assert forall x :: x in before ==> x in order;
      }
    }
    PermutationLength(order, |g|);
  }

  // ---------------------------------------------------------------- forward and contiguous

  function StopOf(merges: map<nat, nat>, n: nat): Option<nat> {
    if n in merges then Some(merges[n]) else None
  }

  ghost predicate Apart(g: Digraph, u: nat, v: nat, stop: Option<nat>) {
    forall x: nat :: !(In(g, u, stop, x) && In(g, v, stop, x))
  }

  /** The region map of the post-dominator oracle: splits only, each with its merge. */
  ghost predicate IsRegionMap(g: Digraph, merges: map<nat, nat>) {
    && (forall n :: n in merges ==> n < |g| && |g[n]| > 1 && Immediate(g, merges[n], n))
    && forall n: nat, d: nat :: n < |g| && |g[n]| > 1 && n !in merges && d < |g| && d != n ==> !PostDominates(g, d, n)
  }

  /** The branches of every split keep to themselves up to their merge. */
  ghost predicate BranchesApart(g: Digraph, merges: map<nat, nat>) {
    forall n: nat, u, v {:trigger Apart(g, u, v, StopOf(merges, n))} ::
      n < |g| && |g[n]| > 1 && u in g[n] && v in g[n] && u != v ==> Apart(g, u, v, StopOf(merges, n))
  }

  ghost predicate Structured(g: Digraph, merges: map<nat, nat>) {
    Closed(g) && Acyclic(g) && IsRegionMap(g, merges) && BranchesApart(g, merges)
  }

  /** Every edge out of the segment leads further on, or to the stop. */
  ghost predicate Forward(g: Digraph, stop: Option<nat>, seg: seq<nat>) {
    forall i, y: nat :: 0 <= i < |seg| && Edge(g, seg[i], y) ==> stop == Some(y) || y in seg[i + 1..]
  }

  ghost predicate IsBlock(g: Digraph, seg: seq<nat>, u: nat, stop: Option<nat>, pre: seq<nat>, mid: seq<nat>,
                          post: seq<nat>) {
    && seg == pre + mid + post
    && (forall x: nat :: x in mid <==> In(g, u, stop, x))
    && Avoids(pre, stop)
  }

  /** The branch entered at `u` is one contiguous piece, before the merge and after `w`. */
  ghost predicate HasBlock(g: Digraph, seg: seq<nat>, w: nat, u: nat, stop: Option<nat>) {
    exists pre, mid, post :: IsBlock(g, seg, u, stop, pre, mid, post) && w in pre
  }

  ghost predicate Blocked(g: Digraph, merges: map<nat, nat>, seg: seq<nat>) {
    forall w, u {:trigger HasBlock(g, seg, w, u, StopOf(merges, w))} ::
      w in seg && w < |g| && |g[w]| > 1 && u in g[w] && StopOf(merges, w) != Some(u) ==>
      HasBlock(g, seg, w, u, StopOf(merges, w))
  }

  ghost predicate Good(g: Digraph, merges: map<nat, nat>, stop: Option<nat>, seg: seq<nat>) {
    Forward(g, stop, seg) && Blocked(g, merges, seg)
  }

  lemma BlockRight(g: Digraph, seg: seq<nat>, w: nat, u: nat, stop: Option<nat>, right: seq<nat>)
    requires HasBlock(g, seg, w, u, stop)
    ensures HasBlock(g, seg + right, w, u, stop)
  {
    var pre, mid, post :| IsBlock(g, seg, u, stop, pre, mid, post) && w in pre;
    assert IsBlock(g, seg + right, u, stop, pre, mid, post + right);
  }

  lemma BlockLeft(g: Digraph, seg: seq<nat>, w: nat, u: nat, stop: Option<nat>, left: seq<nat>)
    requires HasBlock(g, seg, w, u, stop) && Avoids(left, stop)
    ensures HasBlock(g, left + seg, w, u, stop)
  {
    var pre, mid, post :| IsBlock(g, seg, u, stop, pre, mid, post) && w in pre;
    assert IsBlock(g, left + seg, u, stop, left + pre, mid, post);
  }

  lemma ForwardConcat(g: Digraph, stop: Option<nat>, a: seq<nat>, b: seq<nat>)
    requires Forward(g, stop, b)
    requires forall i, y: nat :: 0 <= i < |a| && Edge(g, a[i], y) ==> stop == Some(y) || y in a[i + 1..] || y in b
    ensures Forward(g, stop, a + b)
  {
    var s := a + b;
    forall i, y: nat | 0 <= i < |s| && Edge(g, s[i], y) ensures stop == Some(y) || y in s[i + 1..] {
      if i < |a| {
        assert s[i + 1..] == a[i + 1..] + b;
      } else {
        assert s[i + 1..] == b[i - |a| + 1..];
        assert b[i - |a|] == s[i];
      }
    }
  }

  lemma BlockedConcat(g: Digraph, merges: map<nat, nat>, a: seq<nat>, b: seq<nat>)
    requires Blocked(g, merges, b)
    requires forall w, u :: w in a && w < |g| && |g[w]| > 1 && u in g[w] && StopOf(merges, w) != Some(u) ==>
      HasBlock(g, a + b, w, u, StopOf(merges, w))
    requires forall w :: w in b && w < |g| && |g[w]| > 1 ==> Avoids(a, StopOf(merges, w))
    ensures Blocked(g, merges, a + b)
  {
    forall w, u | w in a + b && w < |g| && |g[w]| > 1 && u in g[w] && StopOf(merges, w) != Some(u)
      ensures HasBlock(g, a + b, w, u, StopOf(merges, w))
    {
      if w !in a { BlockLeft(g, b, w, u, StopOf(merges, w), a); }
    }
  }

  /** The merge of a split inside a bounded region is inside it too, or is the bound. */
  lemma MergeInside(g: Digraph, merges: map<nat, nat>, u: nat, stop: Option<nat>, w: nat)
    requires Structured(g, merges) && Bounded(g, stop, u) && In(g, u, stop, w) && w in merges
    ensures stop == Some(merges[w]) || In(g, u, stop, merges[w])
  {
    InReaches(g, u, stop, w);
    InBounded(g, u, stop, w);
    if stop != Some(merges[w]) {
      MergeIn(g, w, stop, merges[w]);
      InTrans(g, u, stop, w, merges[w]);
    }
  }

  /** Branch heads that can be laid out one after another. */
  ghost predicate Ready(g: Digraph, ns: seq<nat>, stop: Option<nat>, order: seq<nat>) {
    && (forall i :: 0 <= i < |ns| ==> ns[i] < |g|)
    && (forall i {:trigger Bounded(g, stop, ns[i])} :: 0 <= i < |ns| ==> Bounded(g, stop, ns[i]))
    && (forall i, j {:trigger Apart(g, ns[i], ns[j], stop)} :: 0 <= i < |ns| && 0 <= j < |ns| ==>
          ns[i] == ns[j] || Apart(g, ns[i], ns[j], stop))
    && (forall i {:trigger Free(g, ns[i], stop, order)} :: 0 <= i < |ns| ==> Free(g, ns[i], stop, order))
  }

  /** Nothing of the region has been laid out, unless there is nothing left to do. */
  ghost predicate Free(g: Digraph, u: nat, stop: Option<nat>, order: seq<nat>) {
    stop == Some(u) || u in order || forall x :: x in order ==> !In(g, u, stop, x)
  }

  ghost predicate Chunk(g: Digraph, seg: seq<nat>, u: nat, stop: Option<nat>) {
    exists pre, mid, post :: IsBlock(g, seg, u, stop, pre, mid, post)
  }

  ghost predicate Covers(g: Digraph, ns: seq<nat>, stop: Option<nat>, order: seq<nat>, seg: seq<nat>) {
    && (forall x :: x in seg ==> exists i :: 0 <= i < |ns| && ns[i] !in order && In(g, ns[i], stop, x))
    && (forall i, x: nat :: 0 <= i < |ns| && ns[i] !in order && In(g, ns[i], stop, x) ==> x in seg)
    && (forall i {:trigger Chunk(g, seg, ns[i], stop)} ::
          0 <= i < |ns| && ns[i] !in order && stop != Some(ns[i]) ==> Chunk(g, seg, ns[i], stop))
  }

  lemma RestReady(g: Digraph, ns: seq<nat>, stop: Option<nat>, order: seq<nat>, a: seq<nat>)
    requires Ready(g, ns, stop, order) && |ns| > 0 && ns[0] !in order && stop != Some(ns[0])
    requires forall x: nat :: x in a <==> In(g, ns[0], stop, x)
    ensures Ready(g, ns[1..], stop, order + a)
    ensures forall i :: 0 <= i < |ns| && ns[i] !in order && ns[i] != ns[0] ==> ns[i] !in order + a
    ensures ns[0] in a
  {
    InSelf(g, ns[0], stop);
    forall i | 0 < i < |ns| ensures Free(g, ns[i], stop, order + a) {
      assert Free(g, ns[i], stop, order);
      assert ns[i] == ns[0] || Apart(g, ns[0], ns[i], stop);
    }
    forall i | 0 <= i < |ns| && ns[i] !in order && ns[i] != ns[0] ensures ns[i] !in order + a {
      assert Apart(g, ns[0], ns[i], stop);
      if stop != Some(ns[i]) { InSelf(g, ns[i], stop); }
      else if ns[i] in a { InReaches(g, ns[0], stop, ns[i]); }
    }
  }

  lemma CoversConcat(g: Digraph, ns: seq<nat>, stop: Option<nat>, order: seq<nat>, a: seq<nat>, b: seq<nat>)
    requires Ready(g, ns, stop, order) && |ns| > 0 && ns[0] !in order && stop != Some(ns[0])
    requires forall x: nat :: x in a <==> In(g, ns[0], stop, x)
    requires Covers(g, ns[1..], stop, order + a, b)
    ensures Covers(g, ns, stop, order, a + b)
  {
    RestReady(g, ns, stop, order, a);
    var rest := ns[1..];
    forall x | x in a + b ensures exists i :: 0 <= i < |ns| && ns[i] !in order && In(g, ns[i], stop, x) {
      if x in b {
        var i :| 0 <= i < |rest| && rest[i] !in order + a && In(g, rest[i], stop, x);
        assert ns[i + 1] == rest[i];
      }
    }
    forall i, x: nat | 0 <= i < |ns| && ns[i] !in order && In(g, ns[i], stop, x) ensures x in a + b {
      if ns[i] != ns[0] { assert rest[i - 1] == ns[i]; }
    }
    forall i | 0 <= i < |ns| && ns[i] !in order && stop != Some(ns[i]) ensures Chunk(g, a + b, ns[i], stop) {
      if ns[i] == ns[0] {
        assert IsBlock(g, a + b, ns[0], stop, [], a, b);
      } else {
        assert rest[i - 1] == ns[i] && Chunk(g, b, rest[i - 1], stop);
        var pre, mid, post :| IsBlock(g, b, ns[i], stop, pre, mid, post);
        StopOutside(g, ns[0], stop, a);
        assert IsBlock(g, a + b, ns[i], stop, a + pre, mid, post);
      }
    }
  }

  lemma StopOutside(g: Digraph, u: nat, stop: Option<nat>, a: seq<nat>)
    requires forall x: nat :: x in a ==> In(g, u, stop, x)
    ensures Avoids(a, stop)
  {
    if stop.Some? && stop.value in a { InReaches(g, u, stop, stop.value); }
  }

  lemma GoodConcat(g: Digraph, merges: map<nat, nat>, ns: seq<nat>, stop: Option<nat>, order: seq<nat>, a: seq<nat>,
                   b: seq<nat>)
    requires Structured(g, merges) && Ready(g, ns, stop, order) && |ns| > 0 && ns[0] !in order && stop != Some(ns[0])
    requires forall x: nat :: x in a <==> In(g, ns[0], stop, x)
    requires Covers(g, ns[1..], stop, order + a, b) && Good(g, merges, stop, a) && Good(g, merges, stop, b)
    ensures Good(g, merges, stop, a + b)
  {
    ForwardConcat(g, stop, a, b);
    forall w, u | w in a && w < |g| && |g[w]| > 1 && u in g[w] && StopOf(merges, w) != Some(u)
      ensures HasBlock(g, a + b, w, u, StopOf(merges, w))
    {
      BlockRight(g, a, w, u, StopOf(merges, w), b);
    }
    RestReady(g, ns, stop, order, a);
    StopOutside(g, ns[0], stop, a);
    forall w | w in b && w < |g| && |g[w]| > 1 ensures Avoids(a, StopOf(merges, w)) {
      var i :| 0 <= i < |ns[1..]| && ns[1..][i] !in order + a && In(g, ns[1..][i], stop, w);
      assert ns[1..][i] == ns[i + 1];
      assert Apart(g, ns[0], ns[i + 1], stop);
      if w in merges { MergeInside(g, merges, ns[i + 1], stop, w); }
    }
    BlockedConcat(g, merges, a, b);
  }

  lemma StopIsEmpty(g: Digraph, u: nat, x: nat)
    ensures !In(g, u, Some(u), x)
  {
    if In(g, u, Some(u), x) { InReaches(g, u, Some(u), x); }
  }

  lemma LeftShrinks(g: Digraph, order: seq<nat>, more: seq<nat>)
    ensures Left(g, order + more) <= Left(g, order)
    ensures forall v :: v in more && v < |g| && v !in order ==> Left(g, order + more) < Left(g, order)
  {
    forall v | v in more && v < |g| && v !in order ensures Left(g, order + more) < Left(g, order) {
      assert v in Left(g, order) && v !in Left(g, order + more);
    }
  }

  /** What laying out `v` with its region done comes to. */
  ghost predicate Done(g: Digraph, merges: map<nat, nat>, v: nat, stop: Option<nat>, seg: seq<nat>) {
    (forall x: nat :: x in seg <==> In(g, v, stop, x)) && Good(g, merges, stop, seg)
  }

  ghost predicate Fresh(g: Digraph, v: nat, stop: Option<nat>, order: seq<nat>) {
    v < |g| && Bounded(g, stop, v) && forall x :: x in order ==> !In(g, v, stop, x)
  }

  /** A bounded walk appends exactly its region, forward and branch by branch. */
  lemma {:induction false} Lays(g: Digraph, merges: map<nat, nat>, v: nat, stop: Option<nat>, order: seq<nat>)
                                returns (seg: seq<nat>)
    requires Structured(g, merges) && Fresh(g, v, stop, order)
    ensures Layout(g, merges, v, stop, order) == order + seg
    ensures Done(g, merges, v, stop, seg)
    decreases Left(g, order), 1
  {
    if stop == Some(v) {
      seg := [];
      forall x: nat ensures !In(g, v, stop, x) { StopIsEmpty(g, v, x); }
    } else if v in merges {
      seg := LaysSplit(g, merges, v, stop, order);
    } else {
      seg := LaysPlain(g, merges, v, stop, order);
    }
  }

  lemma {:induction false} SplitStep(g: Digraph, merges: map<nat, nat>, v: nat, stop: Option<nat>, order: seq<nat>,
                                     e: seq<nat>, m: seq<nat>)
    requires Closed(g) && MergesIn(g, merges) && v < |g| && stop != Some(v) && v !in order && |g[v]| > 1 && v in merges
    requires forall i :: 0 <= i < |g[v]| ==> g[v][i] < |g|
    requires LayoutEach(g, merges, g[v], Some(merges[v]), order + [v]) == order + [v] + e
    requires Layout(g, merges, merges[v], stop, order + [v] + e) == order + [v] + e + m
    ensures Layout(g, merges, v, stop, order) == order + ([v] + e + m)
  {
    assert order + [v] + e + m == order + ([v] + e + m);
  }

  lemma {:induction false} LaysSplit(g: Digraph, merges: map<nat, nat>, v: nat, stop: Option<nat>, order: seq<nat>)
    returns (seg: seq<nat>)
    requires Structured(g, merges) && Fresh(g, v, stop, order) && stop != Some(v) && v in merges
    ensures Layout(g, merges, v, stop, order) == order + seg
    ensures Done(g, merges, v, stop, seg)
    decreases Left(g, order), 0
  {
    var o := order + [v];
    InSelf(g, v, stop);
    LeftShrinks(g, order, [v]);
    SplitReady(g, merges, v, stop, order);
    var e := LaysEach(g, merges, g[v], Some(merges[v]), o);
    LeftShrinks(g, o, e);
    MergeReady(g, merges, v, stop, order, e);
    var m := Lays(g, merges, merges[v], stop, o + e);
    seg := [v] + e + m;
    HeadsInGraph(g, v);
    SplitStep(g, merges, v, stop, order, e, m);
    SplitDone(g, merges, v, stop, order, e, m);
  }

  lemma {:induction false} LaysPlain(g: Digraph, merges: map<nat, nat>, v: nat, stop: Option<nat>, order: seq<nat>)
    returns (seg: seq<nat>)
    requires Structured(g, merges) && Fresh(g, v, stop, order) && stop != Some(v) && v !in merges
    ensures Layout(g, merges, v, stop, order) == order + seg
    ensures Done(g, merges, v, stop, seg)
    decreases Left(g, order), 0
  {
    var o := order + [v];
    InSelf(g, v, stop);
    LeftShrinks(g, order, [v]);
    PlainReady(g, merges, v, stop, order);
    var e := LaysEach(g, merges, g[v], stop, o);
    seg := [v] + e;
    assert order + seg == o + e;
    PlainDone(g, merges, v, stop, order, e);
  }

  lemma {:induction false} LaysEach(g: Digraph, merges: map<nat, nat>, ns: seq<nat>, stop: Option<nat>, order: seq<nat>)
    returns (seg: seq<nat>)
    requires Structured(g, merges) && Ready(g, ns, stop, order)
    ensures LayoutEach(g, merges, ns, stop, order) == order + seg
    ensures Covers(g, ns, stop, order, seg) && Good(g, merges, stop, seg)
    decreases Left(g, order), |ns| + 2
  {
    if ns == [] {
      seg := [];
    } else if stop == Some(ns[0]) || ns[0] in order {
      seg := LaysEach(g, merges, ns[1..], stop, order);
      StopEmpty(g, ns, stop, order, seg);
    } else {
      seg := LaysFirst(g, merges, ns, stop, order);
    }
  }

  lemma {:induction false} FirstStep(g: Digraph, merges: map<nat, nat>, ns: seq<nat>, stop: Option<nat>,
                                     order: seq<nat>, a: seq<nat>, b: seq<nat>)
    requires Closed(g) && MergesIn(g, merges) && ns != [] && forall i :: 0 <= i < |ns| ==> ns[i] < |g|
    requires Layout(g, merges, ns[0], stop, order) == order + a
    requires LayoutEach(g, merges, ns[1..], stop, order + a) == order + a + b
    ensures LayoutEach(g, merges, ns, stop, order) == order + (a + b)
  {
    assert order + a + b == order + (a + b);
  }

  lemma {:induction false} LaysFirst(g: Digraph, merges: map<nat, nat>, ns: seq<nat>, stop: Option<nat>,
                                     order: seq<nat>)
    returns (seg: seq<nat>)
    requires Structured(g, merges) && Ready(g, ns, stop, order) && ns != [] && stop != Some(ns[0]) && ns[0] !in order
    ensures LayoutEach(g, merges, ns, stop, order) == order + seg
    ensures Covers(g, ns, stop, order, seg) && Good(g, merges, stop, seg)
    decreases Left(g, order), |ns| + 1
  {
    HeadFresh(g, ns, stop, order);
    var a := Lays(g, merges, ns[0], stop, order);
    LeftShrinks(g, order, a);
    RestReady(g, ns, stop, order, a);
    var b := LaysEach(g, merges, ns[1..], stop, order + a);
    seg := a + b;
    FirstStep(g, merges, ns, stop, order, a, b);
    CoversConcat(g, ns, stop, order, a, b);
    GoodConcat(g, merges, ns, stop, order, a, b);
  }

  lemma HeadFresh(g: Digraph, ns: seq<nat>, stop: Option<nat>, order: seq<nat>)
    requires Ready(g, ns, stop, order) && |ns| > 0 && stop != Some(ns[0]) && ns[0] !in order
    ensures Fresh(g, ns[0], stop, order)
  {
    assert Free(g, ns[0], stop, order);
  }

  lemma StopEmpty(g: Digraph, ns: seq<nat>, stop: Option<nat>, order: seq<nat>, seg: seq<nat>)
    requires |ns| > 0 && (stop == Some(ns[0]) || ns[0] in order) && Covers(g, ns[1..], stop, order, seg)
    ensures Covers(g, ns, stop, order, seg)
  {
    var rest := ns[1..];
    forall x | x in seg ensures exists i :: 0 <= i < |ns| && ns[i] !in order && In(g, ns[i], stop, x) {
      var i :| 0 <= i < |rest| && rest[i] !in order && In(g, rest[i], stop, x);
      assert ns[i + 1] == rest[i];
    }
    forall x: nat ensures !In(g, ns[0], Some(ns[0]), x) { StopIsEmpty(g, ns[0], x); }
    forall i, x: nat | 0 <= i < |ns| && ns[i] !in order && In(g, ns[i], stop, x) ensures x in seg {
      assert i > 0 && rest[i - 1] == ns[i];
    }
    forall i | 0 <= i < |ns| && ns[i] !in order && stop != Some(ns[i]) ensures Chunk(g, seg, ns[i], stop) {
      assert rest[i - 1] == ns[i];
    }
  }

  // the two cases at a node

  lemma HeadsApart(g: Digraph, merges: map<nat, nat>, v: nat)
    requires BranchesApart(g, merges) && v < |g|
    ensures forall i, j :: 0 <= i < |g[v]| && 0 <= j < |g[v]| ==>
      g[v][i] == g[v][j] || Apart(g, g[v][i], g[v][j], StopOf(merges, v))
  {
    forall i, j | 0 <= i < |g[v]| && 0 <= j < |g[v]| && g[v][i] != g[v][j]
      ensures Apart(g, g[v][i], g[v][j], StopOf(merges, v))
    {
      assert g[v][i] in g[v] && g[v][j] in g[v] && |g[v]| > 1;
    }
  }

  lemma SplitHead(g: Digraph, merges: map<nat, nat>, v: nat, stop: Option<nat>, order: seq<nat>, u: nat)
    requires Closed(g) && Acyclic(g) && IsRegionMap(g, merges) && v in merges && Fresh(g, v, stop, order) &&
      stop != Some(v)
    requires u in g[v]
    ensures Bounded(g, Some(merges[v]), u) && Free(g, u, Some(merges[v]), order + [v])
  {
    var mg := merges[v];
    BranchBounded(g, v, mg, u);
    assert Edge(g, v, u);
    NotBehind(g, v, u, Some(mg));
    forall x | x in order + [v] ensures !In(g, u, Some(mg), x) {
      if x != v { SplitRegion(g, v, stop, mg, x); }
    }
  }

  lemma SplitReady(g: Digraph, merges: map<nat, nat>, v: nat, stop: Option<nat>, order: seq<nat>)
    requires Structured(g, merges) && v in merges && Fresh(g, v, stop, order) && stop != Some(v)
    ensures Ready(g, g[v], Some(merges[v]), order + [v])
  {
    HeadsInGraph(g, v);
    HeadsApart(g, merges, v);
    forall i | 0 <= i < |g[v]|
      ensures Bounded(g, Some(merges[v]), g[v][i]) && Free(g, g[v][i], Some(merges[v]), order + [v])
    {
      SplitHead(g, merges, v, stop, order, g[v][i]);
    }
  }

  lemma MergeReady(g: Digraph, merges: map<nat, nat>, v: nat, stop: Option<nat>, order: seq<nat>, e: seq<nat>)
    requires Structured(g, merges) && v in merges && Fresh(g, v, stop, order) && stop != Some(v)
    requires Covers(g, g[v], Some(merges[v]), order + [v], e)
    ensures Fresh(g, merges[v], stop, order + [v] + e)
  {
    var mg := merges[v];
    MergeBounded(g, v, stop, mg);
    forall x | x in order + [v] + e ensures !In(g, mg, stop, x) {
      if x in e {
        var i :| 0 <= i < |g[v]| && g[v][i] !in order + [v] && In(g, g[v][i], Some(mg), x);
        BranchBounded(g, v, mg, g[v][i]);
        BeforeNotAfter(g, g[v][i], mg, stop, x);
      } else if x in order {
        SplitRegion(g, v, stop, mg, x);
      } else if In(g, mg, stop, v) {
        InReaches(g, mg, stop, v);
        PdReached(g, mg, v);
        Antisymmetric(g, mg, v);
      }
    }
  }

  /** The segment of a split's branches holds exactly their regions. */
  lemma BranchesExact(g: Digraph, v: nat, stop: Option<nat>, bound: Option<nat>, order: seq<nat>, e: seq<nat>)
    requires Closed(g) && Acyclic(g) && v < |g| && Covers(g, g[v], bound, order + [v], e)
    requires forall x :: x in order ==> !In(g, v, stop, x)
    requires forall u, x: nat :: u in g[v] && In(g, u, bound, x) ==> In(g, v, stop, x)
    ensures forall x: nat :: x in e <==> exists u :: u in g[v] && In(g, u, bound, x)
    ensures forall u :: u in g[v] && bound != Some(u) ==> Chunk(g, e, u, bound) && u in e
  {
    HeadsInGraph(g, v);
    forall i | 0 <= i < |g[v]| && bound != Some(g[v][i]) ensures g[v][i] !in order + [v] {
      var u := g[v][i];
      InSelf(g, u, bound);
      assert Edge(g, v, u);
      NotBehind(g, v, u, bound);
    }
    forall u | u in g[v] && bound != Some(u) ensures Chunk(g, e, u, bound) && u in e {
      var i :| 0 <= i < |g[v]| && g[v][i] == u;
      InSelf(g, u, bound);
    }
    forall x: nat, u | u in g[v] && In(g, u, bound, x) ensures x in e {
      var i :| 0 <= i < |g[v]| && g[v][i] == u;
      InReaches(g, u, bound, x);
    }
  }

  lemma SplitBranches(g: Digraph, merges: map<nat, nat>, v: nat, stop: Option<nat>, order: seq<nat>, e: seq<nat>)
    requires Structured(g, merges) && v in merges && Fresh(g, v, stop, order) && stop != Some(v)
    requires Covers(g, g[v], Some(merges[v]), order + [v], e)
    ensures forall x: nat :: x in e <==> exists u :: u in g[v] && In(g, u, Some(merges[v]), x)
    ensures forall u :: u in g[v] && u != merges[v] ==> Chunk(g, e, u, Some(merges[v])) && u in e
    ensures forall x :: x in e ==> In(g, v, stop, x) && In(g, v, Some(merges[v]), x)
  {
    forall u, x: nat | u in g[v] && In(g, u, Some(merges[v]), x) ensures In(g, v, stop, x) {
      SplitRegion(g, v, stop, merges[v], x);
    }
    BranchesExact(g, v, stop, Some(merges[v]), order, e);
    forall x | x in e ensures In(g, v, Some(merges[v]), x) {
      var u :| u in g[v] && In(g, u, Some(merges[v]), x);
      assert Edge(g, v, u);
      InCons(g, v, u, Some(merges[v]), x);
    }
  }

  lemma HeadBlock(g: Digraph, v: nat, u: nat, stop: Option<nat>, e: seq<nat>, m: seq<nat>)
    requires Chunk(g, e, u, stop) && stop != Some(v)
    ensures HasBlock(g, [v] + e + m, v, u, stop)
  {
    var pre, mid, post :| IsBlock(g, e, u, stop, pre, mid, post);
    assert IsBlock(g, [v] + e + m, u, stop, [v] + pre, mid, post + m);
    assert v in [v] + pre;
  }

  lemma NotOwnMerge(g: Digraph, merges: map<nat, nat>, v: nat, stop: Option<nat>, w: nat)
    requires Structured(g, merges) && In(g, v, stop, w) && w in merges
    ensures merges[w] != v
  {
    InReaches(g, v, stop, w);
    PdReached(g, merges[w], w);
    if merges[w] == v { Antisymmetric(g, v, w); }
  }

  lemma SplitBlocked(g: Digraph, merges: map<nat, nat>, v: nat, stop: Option<nat>, order: seq<nat>, e: seq<nat>,
                     m: seq<nat>)
    requires Structured(g, merges) && v in merges && Fresh(g, v, stop, order) && stop != Some(v)
    requires Covers(g, g[v], Some(merges[v]), order + [v], e) && Blocked(g, merges, e)
    requires (forall x: nat :: x in m <==> In(g, merges[v], stop, x)) && Blocked(g, merges, m)
    ensures Blocked(g, merges, [v] + e + m)
  {
    SplitBranches(g, merges, v, stop, order, e);
    forall w, u | w in [v] + e && w < |g| && |g[w]| > 1 && u in g[w] && StopOf(merges, w) != Some(u)
      ensures HasBlock(g, [v] + e + m, w, u, StopOf(merges, w))
    {
      if w == v {
        HeadBlock(g, v, u, Some(merges[v]), e, m);
      } else {
        if w in merges { NotOwnMerge(g, merges, v, stop, w); }
        BlockLeft(g, e, w, u, StopOf(merges, w), [v]);
        BlockRight(g, [v] + e, w, u, StopOf(merges, w), m);
      }
    }
    forall w | w in m && w < |g| && |g[w]| > 1 ensures Avoids([v] + e, StopOf(merges, w)) {
      if w in merges { MergeBeyond(g, merges, v, stop, e, w); }
    }
    BlockedConcat(g, merges, [v] + e, m);
  }

  /** The merge of a split laid out after `v`'s merge is not among `v`'s branches. */
  lemma MergeBeyond(g: Digraph, merges: map<nat, nat>, v: nat, stop: Option<nat>, e: seq<nat>, w: nat)
    requires Structured(g, merges) && v in merges && Bounded(g, stop, v) && stop != Some(v)
    requires In(g, merges[v], stop, w) && w in merges
    requires forall x :: x in e ==> In(g, v, stop, x) && In(g, v, Some(merges[v]), x)
    ensures merges[w] !in [v] + e
  {
    var mg := merges[v];
    MergeBounded(g, v, stop, mg);
    MergeInside(g, merges, mg, stop, w);
    SplitRegion(g, v, stop, mg, w);
    NotOwnMerge(g, merges, v, stop, w);
    if merges[w] in e {
      InReaches(g, v, stop, merges[w]);
      BeforeNotAfter(g, v, mg, stop, merges[w]);
    }
  }

  lemma SplitForward(g: Digraph, v: nat, merge: nat, stop: Option<nat>, e: seq<nat>, m: seq<nat>)
    requires v < |g| && Forward(g, Some(merge), e) && Forward(g, stop, m)
    requires forall u :: u in g[v] && u != merge ==> u in e
    requires stop == Some(merge) || merge in m
    ensures Forward(g, stop, [v] + e + m)
  {
    var a := [v] + e;
    forall i, y: nat | 0 <= i < |a| && Edge(g, a[i], y) ensures stop == Some(y) || y in a[i + 1..] || y in m {
      if i == 0 {
        assert a[1..] == e;
      } else {
        assert a[i] == e[i - 1] && a[i + 1..] == e[i..];
      }
    }
    ForwardConcat(g, stop, a, m);
  }

  lemma SplitDone(g: Digraph, merges: map<nat, nat>, v: nat, stop: Option<nat>, order: seq<nat>, e: seq<nat>,
                  m: seq<nat>)
    requires Structured(g, merges) && v in merges && Fresh(g, v, stop, order) && stop != Some(v)
    requires Covers(g, g[v], Some(merges[v]), order + [v], e) && Good(g, merges, Some(merges[v]), e)
    requires Done(g, merges, merges[v], stop, m)
    ensures Done(g, merges, v, stop, [v] + e + m)
  {
    var mg := merges[v];
    SplitBranches(g, merges, v, stop, order, e);
    forall x: nat ensures x in [v] + e + m <==> In(g, v, stop, x) { SplitRegion(g, v, stop, mg, x); }
    if stop != Some(mg) { InSelf(g, mg, stop); }
    SplitForward(g, v, mg, stop, e, m);
    SplitBlocked(g, merges, v, stop, order, e, m);
  }

  lemma PlainReady(g: Digraph, merges: map<nat, nat>, v: nat, stop: Option<nat>, order: seq<nat>)
    requires Structured(g, merges) && v !in merges && Fresh(g, v, stop, order) && stop != Some(v)
    ensures Ready(g, g[v], stop, order + [v])
    ensures |g[v]| > 1 ==> stop.None?
  {
    var o := order + [v];
    HeadsInGraph(g, v);
    HeadsApart(g, merges, v);
    assert |g[v]| > 1 ==> stop.None?;
    forall i | 0 <= i < |g[v]| ensures Bounded(g, stop, g[v][i]) && Free(g, g[v][i], stop, o) {
      var u := g[v][i];
      if stop.Some? { PdSuccessors(g, stop.value, v); }
      assert Edge(g, v, u);
      NotBehind(g, v, u, stop);
      forall x | x in o ensures !In(g, u, stop, x) {
        if x != v { PlainRegion(g, v, stop, x); }
      }
    }
  }

  lemma PlainDone(g: Digraph, merges: map<nat, nat>, v: nat, stop: Option<nat>, order: seq<nat>, e: seq<nat>)
    requires Structured(g, merges) && v !in merges && Fresh(g, v, stop, order) && stop != Some(v)
    requires Covers(g, g[v], stop, order + [v], e) && Good(g, merges, stop, e)
    ensures Done(g, merges, v, stop, [v] + e)
  {
    forall u, x: nat | u in g[v] && In(g, u, stop, x) ensures In(g, v, stop, x) { PlainRegion(g, v, stop, x); }
    BranchesExact(g, v, stop, stop, order, e);
    forall x: nat ensures x in [v] + e <==> In(g, v, stop, x) { PlainRegion(g, v, stop, x); }
    ForwardConcat(g, stop, [v], e);
    PlainReady(g, merges, v, stop, order);
    forall u | u in g[v] && |g[v]| > 1 ensures HasBlock(g, [v] + e, v, u, None) {
      HeadBlock(g, v, u, None, e, []);
      assert [v] + e + [] == [v] + e;
    }
    forall w | w in e && w < |g| && |g[w]| > 1 ensures Avoids([v], StopOf(merges, w)) {
      if w in merges { NotOwnMerge(g, merges, v, stop, w); }
    }
    BlockedConcat(g, merges, [v], e);
  }

  // ---------------------------------------------------------------- the whole order

  lemma PrefixIndex(seg: seq<nat>, order: seq<nat>, i: nat)
    requires seg <= order && Distinct(order) && i < |order| && order[i] in seg
    ensures i < |seg|
  {
    var k :| 0 <= k < |seg| && seg[k] == order[i];
    assert order[k] == order[i];
  }

  lemma ForwardPrefix(g: Digraph, seg: seq<nat>, order: seq<nat>, i: nat, y: nat)
    requires seg <= order && Forward(g, None, seg) && i < |seg| && Edge(g, seg[i], y)
    ensures y in order[i + 1..]
  {
    assert None != Some(y);
    var k :| 0 <= k < |seg[i + 1..]| && seg[i + 1..][k] == y;
    assert order[i + 1..][k] == y;
  }

  /** Every edge out of a node on the flow from the start goes forward. */
  ghost predicate FlowsForward(g: Digraph, start: nat, order: seq<nat>) {
    forall i, y: nat :: 0 <= i < |order| && Reaches(g, start, order[i]) && Edge(g, order[i], y) ==> y in order[i + 1..]
  }

  lemma SegmentForward(g: Digraph, start: nat, seg: seq<nat>, order: seq<nat>)
    requires seg <= order && Distinct(order) && Forward(g, None, seg)
    requires forall x: nat :: x in seg <==> In(g, start, None, x)
    ensures FlowsForward(g, start, order)
  {
    forall i, y: nat | 0 <= i < |order| && Reaches(g, start, order[i]) && Edge(g, order[i], y)
      ensures y in order[i + 1..] {
      ReachesIn(g, start, order[i]);
      PrefixIndex(seg, order, i);
      ForwardPrefix(g, seg, order, i, y);
    }
  }

  lemma SegmentBlocked(g: Digraph, merges: map<nat, nat>, start: nat, seg: seq<nat>, order: seq<nat>, w: nat, u: nat)
    requires seg <= order && Blocked(g, merges, seg) && (forall x: nat :: x in seg <==> In(g, start, None, x))
    requires Reaches(g, start, w) && w < |g| && |g[w]| > 1 && u in g[w] && StopOf(merges, w) != Some(u)
    ensures HasBlock(g, order, w, u, StopOf(merges, w))
  {
    ReachesIn(g, start, w);
    assert HasBlock(g, seg, w, u, StopOf(merges, w));
    BlockRight(g, seg, w, u, StopOf(merges, w), order[|seg|..]);
    assert seg + order[|seg|..] == order;
  }

  /** With branches apart, every edge out of a node on the flow from the start goes
      forward in the layout, and each branch is one contiguous block before its merge. */
  lemma {:induction false} LayoutIsStructured(g: Digraph, merges: map<nat, nat>, start: nat, order: seq<nat>)
    requires Structured(g, merges) && start < |g| && Layout(g, merges, start, None, []) <= order && Distinct(order)
    ensures FlowsForward(g, start, order)
    ensures forall w: nat, u: nat ::
      Reaches(g, start, w) && w < |g| && |g[w]| > 1 && u in g[w] && StopOf(merges, w) != Some(u) ==>
      HasBlock(g, order, w, u, StopOf(merges, w))
  {
    var seg := Lays(g, merges, start, None, []);
    assert [] + seg == seg;
    SegmentForward(g, start, seg, order);
    forall w: nat, u: nat | Reaches(g, start, w) && w < |g| && |g[w]| > 1 && u in g[w] && StopOf(merges, w) != Some(u)
      ensures HasBlock(g, order, w, u, StopOf(merges, w))
    {
      SegmentBlocked(g, merges, start, seg, order, w, u);
    }
  }

  // ---------------------------------------------------------------- branches that share a node

  /** A graph whose two branches share node 3 before their merge. */
  const SHARED: Digraph := [[1, 2], [3, 4], [3], [4], []]

  const SHARED_MERGES: map<nat, nat> := map[0 := 4, 1 := 4]

  lemma {:induction false} SharedThird(order: seq<nat>)
    requires Closed(SHARED) && 3 !in order && 4 !in order
    ensures Layout(SHARED, SHARED_MERGES, 3, Some(4), order) == order + [3]
  {
    assert SHARED[3] == [4];
    assert LayoutEach(SHARED, SHARED_MERGES, [4], Some(4), order + [3]) == LayoutEach(SHARED, SHARED_MERGES, [],
      Some(4), order + [3]);
  }

  lemma SharedFirst()
    requires Closed(SHARED)
    ensures Layout(SHARED, SHARED_MERGES, 1, Some(4), [0]) == [0, 1, 3]
  {
    assert SHARED[1] == [3, 4] && [0] + [1] == [0, 1] && [3, 4][1..] == [4];
    SharedThird([0, 1]);
    assert [0, 1] + [3] == [0, 1, 3];
    assert LayoutEach(SHARED, SHARED_MERGES, [4], Some(4), [0, 1, 3]) == LayoutEach(SHARED, SHARED_MERGES, [], Some(4),
      [0, 1, 3]);
    assert LayoutEach(SHARED, SHARED_MERGES, [3, 4], Some(4), [0, 1]) == [0, 1, 3];
  }

  lemma SharedSecond()
    requires Closed(SHARED)
    ensures Layout(SHARED, SHARED_MERGES, 2, Some(4), [0, 1, 3]) == [0, 1, 3, 2]
  {
    assert SHARED[2] == [3] && [0, 1, 3] + [2] == [0, 1, 3, 2];
    assert LayoutEach(SHARED, SHARED_MERGES, [3], Some(4), [0, 1, 3, 2]) == LayoutEach(SHARED, SHARED_MERGES, [],
      Some(4), [0, 1, 3, 2]);
  }

  lemma SharedMerge(e: nat)
    requires Closed(SHARED) && e < |SHARED| && e != 0 && PostDominates(SHARED, e, 0)
    ensures PostDominates(SHARED, e, 4)
  {
    PdSuccessors(SHARED, e, 0);
    assert 1 in SHARED[0] && 2 in SHARED[0] && 4 in SHARED[1] && 3 in SHARED[2] && 4 in SHARED[3];
    if e != 1 {
      PdSuccessors(SHARED, e, 1);
    } else {
      PdSuccessors(SHARED, e, 2);
      PdSuccessors(SHARED, e, 3);
    }
  }

  /** Both of its splits merge at the last node. */
  lemma SharedRegions()
    requires Closed(SHARED)
    ensures IsRegionMap(SHARED, SHARED_MERGES)
  {
    PdSelf(SHARED, 4);
    PdSuccessors(SHARED, 4, 3);
    PdSuccessors(SHARED, 4, 2);
    PdSuccessors(SHARED, 4, 1);
    PdSuccessors(SHARED, 4, 0);
    forall e: nat | e < |SHARED| && e != 0 && PostDominates(SHARED, e, 0) ensures PostDominates(SHARED, e, 4) {
      SharedMerge(e);
    }
    forall e: nat | e < |SHARED| && e != 1 && PostDominates(SHARED, e, 1) ensures PostDominates(SHARED, e, 4) {
      PdSuccessors(SHARED, e, 1);
      assert 4 in SHARED[1];
    }
  }

  lemma SharedLayout()
    requires Closed(SHARED)
    ensures Layout(SHARED, SHARED_MERGES, 0, None, []) == [0, 1, 3, 2, 4]
  {
    SharedFirst();
    SharedSecond();
    assert SHARED[0] == [1, 2] && [] + [0] == [0] && [1, 2][1..] == [2];
    assert LayoutEach(SHARED, SHARED_MERGES, [2], Some(4), [0, 1, 3]) == LayoutEach(SHARED, SHARED_MERGES, [], Some(4),
      [0, 1, 3, 2]);
    assert LayoutEach(SHARED, SHARED_MERGES, [1, 2], Some(4), [0]) == [0, 1, 3, 2];
    assert [0, 1, 3, 2] + [4] == [0, 1, 3, 2, 4];
  }

  /** With its own merges, its layout puts the second branch after the node it leads to, so an
      edge on the flow goes back. */
  lemma SharedGoesBack()
    ensures Closed(SHARED) && IsRegionMap(SHARED, SHARED_MERGES)
    ensures Layout(SHARED, SHARED_MERGES, 0, None, []) == [0, 1, 3, 2, 4]
    ensures !FlowsForward(SHARED, 0, Layout(SHARED, SHARED_MERGES, 0, None, []))
  {
    forall u: nat, v: nat | Edge(SHARED, u, v) ensures v < |SHARED| {}
    SharedRegions();
    SharedLayout();
    var order := [0, 1, 3, 2, 4];
    EdgeReaches(SHARED, 0, 2);
    assert order[3] == 2 && Reaches(SHARED, 0, order[3]) && Edge(SHARED, order[3], 3);
    assert 3 !in order[4..];
  }
}
