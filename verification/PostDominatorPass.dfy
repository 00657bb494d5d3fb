/** The post-dominator computation itself: an explicit-stack depth-first walk for
    the reverse postorder of the reversed graph, and one pass with `Intersect`. */
module PostDominatorPass {
  import opened Options
  import opened Graphs
  import opened PostDominators

  /** The sources of the edges into `v`. */
  function Preds(w: Digraph, v: nat): (s: seq<nat>)
    ensures forall u: nat :: u in s <==> Edge(w, u, v)
  {
    PredsBelow(w, v, |w|)
  }

  function PredsBelow(w: Digraph, v: nat, k: nat): (s: seq<nat>)
    requires k <= |w|
    ensures forall u: nat :: u in s <==> u < k && v in w[u]
  {
    if k == 0 then []
    else if v in w[k - 1] then PredsBelow(w, v, k - 1) + [k - 1]
    else PredsBelow(w, v, k - 1)
  }

  // ---------------------------------------------------------------- depth-first walk

  type Frame = (nat, bool)

  /** What holds whenever the walk looks at its stack. A node is open while its
      expanded frame is on the stack, and finished once it is in `post`. */
  ghost predicate WalkInv(w: Digraph, stack: seq<Frame>, visited: set<nat>, post: seq<nat>) {
    && (forall i :: 0 <= i < |stack| ==> stack[i].0 < |w|)
    && (forall x :: x in visited ==> x < |w|)
    && Distinct(post)
    && (forall x :: x in post ==> x in visited)
    && (forall i :: 0 <= i < |stack| && stack[i].1 ==> stack[i].0 in visited && stack[i].0 !in post)
    && (forall i, j :: 0 <= i < j < |stack| && stack[i].1 && stack[j].1 ==> stack[i].0 != stack[j].0)
    && (forall x :: x in visited ==> x in post || (x, true) in stack)
    && OpenCovered(w, stack, visited)
    && OpenReached(w, stack)
    && ChildrenFirst(w, post)
  }

  /** Each edge source of an open node is visited or still waiting above it. */
  ghost predicate OpenCovered(w: Digraph, stack: seq<Frame>, visited: set<nat>) {
    forall i, u: nat :: 0 <= i < |stack| && stack[i].1 && Edge(w, u, stack[i].0) ==>
      u in visited || Waiting(stack, i, u)
  }

  ghost predicate Waiting(stack: seq<Frame>, i: nat, u: nat) {
    exists k :: i < k < |stack| && stack[k] == (u, false)
  }

  /** Everything above an open node leads to it. */
  ghost predicate OpenReached(w: Digraph, stack: seq<Frame>) {
    forall i, j :: 0 <= i < j < |stack| && stack[i].1 ==> Reaches(w, stack[j].0, stack[i].0)
  }

  /** A finished node comes after the sources of all its incoming edges. */
  ghost predicate ChildrenFirst(w: Digraph, post: seq<nat>) {
    forall k, u: nat :: 0 <= k < |post| && Edge(w, u, post[k]) ==> u in post[..k]
  }

  /** Acyclicity rules out an edge into the top node from a node still open. */
  lemma TopFinished(w: Digraph, stack: seq<Frame>, visited: set<nat>, post: seq<nat>, u: nat)
    requires Acyclic(w) && WalkInv(w, stack, visited, post)
    requires |stack| > 0 && stack[|stack| - 1].1 && Edge(w, u, stack[|stack| - 1].0)
    ensures u in post
  {
    var top := |stack| - 1;
    var v := stack[top].0;
    assert u in visited || Waiting(stack, top, u);
    NoBackEdge(w, u, v);
    if u !in post {
      var j :| 0 <= j < |stack| && stack[j] == (u, true);
      Refl(w, v);
    }
  }

  lemma ChildrenFirstSnoc(w: Digraph, post: seq<nat>, v: nat)
    requires ChildrenFirst(w, post)
    requires forall u: nat :: Edge(w, u, v) ==> u in post
    ensures ChildrenFirst(w, post + [v])
  {
    var done := post + [v];
    forall k, u: nat | 0 <= k < |done| && Edge(w, u, done[k]) ensures u in done[..k] {
      if k < |post| { assert done[..k] == post[..k]; } else { assert done[..k] == post; }
    }
  }

  /** Popping a frame leaves the open nodes below it covered. */
  lemma OpenCoveredPop(w: Digraph, stack: seq<Frame>, visited: set<nat>)
    requires OpenCovered(w, stack, visited)
    requires |stack| > 0 && (stack[|stack| - 1].1 || stack[|stack| - 1].0 in visited)
    ensures OpenCovered(w, stack[..|stack| - 1], visited)
  {
    var rest := stack[..|stack| - 1];
    forall i, u: nat | 0 <= i < |rest| && rest[i].1 && Edge(w, u, rest[i].0)
      ensures u in visited || Waiting(rest, i, u)
    {
      assert u in visited || Waiting(stack, i, u);
      if u !in visited {
        var k :| i < k < |stack| && stack[k] == (u, false);
        assert rest[k] == (u, false);
      }
    }
  }

  /** Closing the top frame. */
  lemma WalkFinish(w: Digraph, stack: seq<Frame>, visited: set<nat>, post: seq<nat>)
    requires Closed(w) && Acyclic(w) && WalkInv(w, stack, visited, post)
    requires |stack| > 0 && stack[|stack| - 1].1
    ensures WalkInv(w, stack[..|stack| - 1], visited, post + [stack[|stack| - 1].0])
  {
    var top := |stack| - 1;
    var v := stack[top].0;
    var rest, done := stack[..top], post + [v];
    forall u: nat | Edge(w, u, v) ensures u in post { TopFinished(w, stack, visited, post, u); }
    ChildrenFirstSnoc(w, post, v);
    OpenCoveredPop(w, stack, visited);
    forall x | x in visited ensures x in done || (x, true) in rest {
      if x !in post {
        var j :| 0 <= j < |stack| && stack[j] == (x, true);
        if j < top { assert rest[j] == (x, true); }
      }
    }
  }

  lemma NoBackEdge(w: Digraph, u: nat, v: nat)
    requires Acyclic(w) && Edge(w, u, v)
    ensures !Reaches(w, v, u)
  {
    forall p | IsPath(w, p) && p[0] == v ensures p[|p| - 1] != u {
      PathCons(w, u, p);
      var q := [u] + p;
      assert q[|q| - 1] == p[|p| - 1];
    }
  }

  /** Dropping a frame whose node has been visited meanwhile. */
  lemma WalkSkip(w: Digraph, stack: seq<Frame>, visited: set<nat>, post: seq<nat>)
    requires WalkInv(w, stack, visited, post)
    requires |stack| > 0 && !stack[|stack| - 1].1 && stack[|stack| - 1].0 in visited
    ensures WalkInv(w, stack[..|stack| - 1], visited, post)
  {
    var top := |stack| - 1;
    var rest := stack[..top];
    OpenCoveredPop(w, stack, visited);
    forall x | x in visited ensures x in post || (x, true) in rest {
      if x !in post {
        var j :| 0 <= j < |stack| && stack[j] == (x, true);
        assert rest[j] == (x, true);
      }
    }
  }

  /** What opening the top node makes of the stack. */
  ghost function Opened(stack: seq<Frame>, pushed: seq<Frame>): seq<Frame>
    requires |stack| > 0
  {
    stack[..|stack| - 1] + [(stack[|stack| - 1].0, true)] + pushed
  }

  ghost predicate PushesInto(w: Digraph, v: nat, seen: set<nat>, pushed: seq<Frame>) {
    && (forall k :: 0 <= k < |pushed| ==> !pushed[k].1 && Edge(w, pushed[k].0, v))
    && forall u: nat :: Edge(w, u, v) ==> u in seen || (u, false) in pushed
  }

  lemma ExpandCovered(w: Digraph, stack: seq<Frame>, visited: set<nat>, pushed: seq<Frame>)
    requires OpenCovered(w, stack, visited) && |stack| > 0 && !stack[|stack| - 1].1
    requires PushesInto(w, stack[|stack| - 1].0, visited + {stack[|stack| - 1].0}, pushed)
    ensures OpenCovered(w, Opened(stack, pushed), visited + {stack[|stack| - 1].0})
  {
    var top := |stack| - 1;
    var next := Opened(stack, pushed);
    var seen := visited + {stack[top].0};
    forall i, u: nat | 0 <= i < |next| && next[i].1 && Edge(w, u, next[i].0)
      ensures u in seen || Waiting(next, i, u)
    {
      if u !in seen {
        if i < top {
          assert stack[i] == next[i];
          var k :| i < k < |stack| && stack[k] == (u, false);
          assert next[k] == (u, false);
        } else {
          var k :| 0 <= k < |pushed| && pushed[k] == (u, false);
          assert next[top + 1 + k] == (u, false);
        }
      }
    }
  }

  lemma ExpandReached(w: Digraph, stack: seq<Frame>, seen: set<nat>, pushed: seq<Frame>)
    requires OpenReached(w, stack) && |stack| > 0 && stack[|stack| - 1].0 < |w|
    requires PushesInto(w, stack[|stack| - 1].0, seen, pushed)
    ensures OpenReached(w, Opened(stack, pushed))
  {
    var top := |stack| - 1;
    var v := stack[top].0;
    var next := Opened(stack, pushed);
    forall i, j | 0 <= i < j < |next| && next[i].1 ensures Reaches(w, next[j].0, next[i].0) {
      if j > top {
        EdgeReaches(w, pushed[j - top - 1].0, v);
        if i < top {
          assert Reaches(w, stack[top].0, stack[i].0);
          Trans(w, next[j].0, v, next[i].0);
        }
      } else {
        assert stack[i] == next[i] && Reaches(w, stack[j].0, stack[i].0);
      }
    }
  }

  /** Opening a node: its frame turns to expanded and the unvisited edge sources go on top. */
  lemma WalkExpand(w: Digraph, stack: seq<Frame>, visited: set<nat>, post: seq<nat>, pushed: seq<Frame>)
    requires WalkInv(w, stack, visited, post)
    requires |stack| > 0 && !stack[|stack| - 1].1 && stack[|stack| - 1].0 !in visited
    requires PushesInto(w, stack[|stack| - 1].0, visited + {stack[|stack| - 1].0}, pushed)
    ensures WalkInv(w, Opened(stack, pushed), visited + {stack[|stack| - 1].0}, post)
  {
    var top := |stack| - 1;
    var v := stack[top].0;
    var next := Opened(stack, pushed);
    var seen := visited + {v};
    ExpandCovered(w, stack, visited, pushed);
    ExpandReached(w, stack, seen, pushed);
    forall x | x in seen ensures x in post || (x, true) in next {
      if x == v { assert next[top] == (v, true); }
      else if x !in post {
        var j :| 0 <= j < |stack| && stack[j] == (x, true);
        assert next[j] == (x, true);
      }
    }
  }

  /** Finished nodes are closed under incoming edges, so all that lead to the exit are finished. */
  lemma {:induction false} AllFinished(w: Digraph, post: seq<nat>, p: seq<nat>)
    requires ChildrenFirst(w, post) && IsPath(w, p) && p[|p| - 1] in post
    ensures p[0] in post
  {
    if |p| > 1 {
      var k :| 0 <= k < |post| && post[k] == p[|p| - 1];
      assert Edge(w, p[|p| - 2], p[|p| - 1]);
      assert p[|p| - 2] in post[..k];
      PathSlice(w, p, 0, |p| - 1);
      AllFinished(w, post, p[0..|p| - 1]);
    }
  }

  /** Each edge points to an earlier position: a topological order of the reversed graph. */
  ghost predicate EdgesFall(w: Digraph, rpo: seq<nat>) {
    forall i, j :: 0 <= i < |rpo| && 0 <= j < |rpo| && Edge(w, rpo[i], rpo[j]) ==> j < i
  }

  lemma FinishedOrder(w: Digraph, exit: nat, post: seq<nat>)
    requires ChildrenFirst(w, post) && Distinct(post) && exit in post
    requires forall x :: x in post ==> x < |w|
    requires forall v: nat :: v < |w| ==> Reaches(w, v, exit)
    ensures forall x: nat :: x in post <==> x < |w|
    ensures Distinct(Reverse(post)) && EdgesFall(w, Reverse(post))
  {
    forall x: nat | x < |w| ensures x in post {
      assert Reaches(w, x, exit);
      var p :| PathFromTo(w, p, x, exit);
      AllFinished(w, post, p);
    }
    var rpo := Reverse(post);
    forall i, j | 0 <= i < |rpo| && 0 <= j < |rpo| && Edge(w, rpo[i], rpo[j]) ensures j < i {
      var k := |post| - 1 - j;
      assert post[k] == rpo[j] && rpo[i] in post[..k];
      var m :| 0 <= m < k && post[m] == rpo[i];
      assert post[|post| - 1 - i] == rpo[i];
    }
  }

  /** Frames for the edge sources not visited yet. */
  method PushUnvisited(children: seq<nat>, visited: set<nat>) returns (pushed: seq<Frame>)
    ensures forall k :: 0 <= k < |pushed| ==> !pushed[k].1 && pushed[k].0 in children
    ensures forall u :: u in children ==> u in visited || (u, false) in pushed
  {
    pushed := [];
    for c := 0 to |children|
      invariant forall k :: 0 <= k < |pushed| ==> !pushed[k].1 && pushed[k].0 in children
      invariant forall k :: 0 <= k < c ==> children[k] in visited || (children[k], false) in pushed
    {
      if children[c] !in visited {
        pushed := pushed + [(children[c], false)];
      }
    }
  }

  method ReversePostorder(w: Digraph, exit: nat) returns (rpo: seq<nat>)
    requires Closed(w) && Acyclic(w) && exit < |w|
    requires forall v: nat :: v < |w| ==> Reaches(w, v, exit)
    ensures Distinct(rpo) && (forall x: nat :: x in rpo <==> x < |w|)
    ensures EdgesFall(w, rpo)
  {
    var visited: set<nat> := {};
    var post: seq<nat> := [];
    var stack: seq<Frame> := [(exit, false)];
    while |stack| > 0
      invariant WalkInv(w, stack, visited, post)
      invariant if |stack| > 0 then stack[0].0 == exit else exit in visited
      decreases Upto(|w|) - visited, |stack|
    {
      var (node, expanded) := stack[|stack| - 1];
      if expanded {
        WalkFinish(w, stack, visited, post);
        stack := stack[..|stack| - 1];
        post := post + [node];
      } else if node in visited {
        WalkSkip(w, stack, visited, post);
        stack := stack[..|stack| - 1];
      } else {
        var pushed := PushUnvisited(Preds(w, node), visited + {node});
        WalkExpand(w, stack, visited, post, pushed);
        stack := stack[..|stack| - 1] + [(node, true)] + pushed;
        visited := visited + {node};
      }
    }
    FinishedOrder(w, exit, post);
    rpo := Reverse(post);
  }

  function Reverse(s: seq<nat>): (r: seq<nat>)
    ensures |r| == |s|
    ensures forall i :: 0 <= i < |s| ==> r[i] == s[|s| - 1 - i]
    ensures forall x :: x in r <==> x in s
  {
    var r := seq(|s|, i requires 0 <= i < |s| => s[|s| - 1 - i]);
    assert forall x :: x in s ==> x in r by {
      forall x | x in s ensures x in r {
        var i :| 0 <= i < |s| && s[i] == x;
        assert r[|s| - 1 - i] == x;
      }
    }
    r
  }

  // ---------------------------------------------------------------- one pass over the order

  /** `idx` inverts the order `rpo`. */
  ghost predicate Indexes(w: Digraph, rpo: seq<nat>, idx: map<nat, nat>) {
    && (forall x: nat :: x in idx <==> x < |w|)
    && |rpo| == |w|
    && (forall x: nat :: x < |w| ==> idx[x] < |rpo| && rpo[idx[x]] == x)
    && (forall i :: 0 <= i < |rpo| ==> rpo[i] < |w| && idx[rpo[i]] == i)
    && EdgesFall(w, rpo)
  }

  /** A graph whose only sink is `exit`, with its order. */
  ghost predicate Setup(w: Digraph, exit: nat, rpo: seq<nat>, idx: map<nat, nat>) {
    && Closed(w) && Acyclic(w) && exit < |w|
    && (forall u: nat :: Sink(w, u) ==> u == exit) && w[exit] == []
    && Indexes(w, rpo, idx)
  }

  /** The entries made so far are right, for exactly the first `k` nodes of the order. */
  ghost predicate Resolved(w: Digraph, exit: nat, rpo: seq<nat>, idx: map<nat, nat>, idom: map<nat, nat>, k: nat) {
    && Setup(w, exit, rpo, idx) && 1 <= k <= |rpo|
    && (forall x: nat :: x in idom <==> x < |w| && idx[x] < k)
    && exit in idom
    && (forall x :: x in idom && x != exit ==> Immediate(w, idom[x], x))
  }

  /** Walking along edges, the index falls. */
  lemma {:induction false} PathFalls(w: Digraph, rpo: seq<nat>, idx: map<nat, nat>, p: seq<nat>)
    requires Indexes(w, rpo, idx) && IsPath(w, p)
    ensures idx[p[|p| - 1]] + |p| - 1 <= idx[p[0]]
    decreases |p|
  {
    if |p| > 1 {
      assert Edge(w, p[0], p[1]);
      assert Edge(w, rpo[idx[p[0]]], rpo[idx[p[1]]]);
      PathSlice(w, p, 1, |p|);
      PathFalls(w, rpo, idx, p[1..|p|]);
    }
  }

  /** A strict post-dominator has a strictly smaller index. */
  lemma PdFalls(w: Digraph, exit: nat, rpo: seq<nat>, idx: map<nat, nat>, d: nat, n: nat)
    requires Setup(w, exit, rpo, idx) && d < |w| && n < |w| && PostDominates(w, d, n)
    ensures d == n || idx[d] < idx[n]
  {
    PdReached(w, d, n);
    var p :| PathFromTo(w, p, n, d);
    PathFalls(w, rpo, idx, p);
  }

  lemma ExitIndex(w: Digraph, exit: nat, rpo: seq<nat>, idx: map<nat, nat>)
    requires Setup(w, exit, rpo, idx)
    ensures idx[exit] == 0
  {
    var p := ExtendToSink(w, [rpo[0]]);
    PathFalls(w, rpo, idx, p);
  }

  ghost predicate Common(w: Digraph, e: nat, a: nat, b: nat) {
    PostDominates(w, e, a) && PostDominates(w, e, b)
  }

  /** Climbing from the later of two nodes loses no common post-dominator. */
  lemma Climb(w: Digraph, exit: nat, rpo: seq<nat>, idx: map<nat, nat>, idom: map<nat, nat>, k: nat, a: nat, b: nat)
    requires Resolved(w, exit, rpo, idx, idom, k) && a in idom && b in idom && idx[a] > idx[b]
    ensures idom[a] in idom && idx[idom[a]] < idx[a]
    ensures forall e: nat :: e < |w| ==> (Common(w, e, a, b) <==> Common(w, e, idom[a], b))
  {
    ExitIndex(w, exit, rpo, idx);
    var d := idom[a];
    assert Immediate(w, d, a);
    PdFalls(w, exit, rpo, idx, d, a);
    forall e: nat | e < |w| ensures Common(w, e, a, b) <==> Common(w, e, d, b) {
      if Common(w, e, a, b) && e == a { PdFalls(w, exit, rpo, idx, e, b); }
      if PostDominates(w, e, d) { PdTrans(w, e, d, a); }
    }
  }

  /** The closest node that post-dominates both arguments. */
  method Intersect(a0: nat, b0: nat, idom: map<nat, nat>, idx: map<nat, nat>,
                   ghost w: Digraph, ghost exit: nat, ghost rpo: seq<nat>, ghost k: nat) returns (c: nat)
    requires Resolved(w, exit, rpo, idx, idom, k) && a0 in idom && b0 in idom
    ensures c in idom
    ensures forall e: nat :: e < |w| ==> (PostDominates(w, e, c) <==> Common(w, e, a0, b0))
  {
    var a, b := a0, b0;
    while a != b
      invariant a in idom && b in idom
      invariant forall e: nat :: e < |w| ==> (Common(w, e, a, b) <==> Common(w, e, a0, b0))
      decreases idx[a] + idx[b]
    {
      ghost var start := idx[a] + idx[b];
      assert rpo[idx[a]] == a && rpo[idx[b]] == b;
      while idx[a] > idx[b]
        invariant a in idom && b in idom
        invariant idx[a] + idx[b] <= start
        invariant idx[a] > idx[b] || idx[a] + idx[b] < start || idx[b] > idx[a]
        invariant forall e: nat :: e < |w| ==> (Common(w, e, a, b) <==> Common(w, e, a0, b0))
        decreases idx[a]
      {
        Climb(w, exit, rpo, idx, idom, k, a, b);
        a := idom[a];
      }
      while idx[b] > idx[a]
        invariant a in idom && b in idom
        invariant idx[a] + idx[b] <= start
        invariant idx[b] > idx[a] || idx[a] + idx[b] < start
        invariant forall e: nat :: e < |w| ==> (Common(w, e, a, b) <==> Common(w, e, a0, b0))
        decreases idx[b]
      {
        Climb(w, exit, rpo, idx, idom, k, b, a);
        assert forall e: nat :: e < |w| ==> (Common(w, e, a, b) <==> Common(w, e, b, a));
        assert forall e: nat :: e < |w| ==> (Common(w, e, idom[b], a) <==> Common(w, e, a, idom[b]));
        b := idom[b];
      }
    }
    c := a;
  }

  /** `c` has as post-dominators exactly those shared by the first `j` successors of `n`. */
  ghost predicate SharedBy(w: Digraph, c: nat, n: nat, j: nat)
    requires n < |w| && j <= |w[n]|
  {
    forall e: nat :: e < |w| ==> (PostDominates(w, e, c) <==> forall s :: s in w[n][..j] ==> PostDominates(w, e, s))
  }

  lemma SharedFirst(w: Digraph, n: nat)
    requires n < |w| && |w[n]| > 0
    ensures SharedBy(w, w[n][0], n, 1)
  {
    assert w[n][..1] == [w[n][0]];
  }

  lemma SharedNext(w: Digraph, c: nat, c': nat, n: nat, j: nat)
    requires n < |w| && j < |w[n]| && SharedBy(w, c, n, j)
    requires forall e: nat :: e < |w| ==> (PostDominates(w, e, c') <==> Common(w, e, c, w[n][j]))
    ensures SharedBy(w, c', n, j + 1)
  {
    assert w[n][..j + 1] == w[n][..j] + [w[n][j]];
  }

  lemma SharedImmediate(w: Digraph, exit: nat, rpo: seq<nat>, idx: map<nat, nat>, c: nat, n: nat)
    requires Setup(w, exit, rpo, idx) && n < |w| && c < |w| && |w[n]| > 0 && SharedBy(w, c, n, |w[n]|)
    ensures Immediate(w, c, n)
  {
    assert w[n][..|w[n]|] == w[n];
    forall e: nat | e < |w| && e != n ensures PostDominates(w, e, n) <==> PostDominates(w, e, c) {
      PdSuccessors(w, e, n);
    }
    PdSelf(w, c);
    var s := w[n][0];
    assert Edge(w, n, s) && PostDominates(w, c, s);
    PdReached(w, c, s);
    NoBackEdge(w, n, s);
  }

  /** The immediate post-dominator of the next node, from those of its successors. */
  method Merge(w: Digraph, idom: map<nat, nat>, idx: map<nat, nat>, n: nat,
               ghost exit: nat, ghost rpo: seq<nat>, ghost k: nat) returns (chosen: Option<nat>)
    requires Resolved(w, exit, rpo, idx, idom, k) && k < |rpo| && n == rpo[k] && n != exit
    ensures chosen.Some? && chosen.value in idom && Immediate(w, chosen.value, n)
  {
    chosen := None;
    assert !Sink(w, n);
    for j := 0 to |w[n]|
      invariant j == 0 <==> chosen.None?
      invariant chosen.Some? ==> chosen.value in idom && SharedBy(w, chosen.value, n, j)
    {
      var pred := w[n][j];
      assert Edge(w, n, pred);
      assert Edge(w, rpo[k], rpo[idx[pred]]);
      if pred in idom {
        match chosen {
          case None =>
            SharedFirst(w, n);
            chosen := Some(pred);
          case Some(existing) =>
            var c := Intersect(existing, pred, idom, idx, w, exit, rpo, k);
            SharedNext(w, existing, c, n, j);
            chosen := Some(c);
        }
      }
    }
    SharedImmediate(w, exit, rpo, idx, chosen.value, n);
  }

  method IndexOf(rpo: seq<nat>) returns (idx: map<nat, nat>)
    requires Distinct(rpo)
    ensures forall x :: x in idx <==> x in rpo
    ensures forall i :: 0 <= i < |rpo| ==> idx[rpo[i]] == i
  {
    idx := map[];
    for i := 0 to |rpo|
      invariant forall x :: x in idx <==> x in rpo[..i]
      invariant forall j :: 0 <= j < i ==> rpo[j] in idx && idx[rpo[j]] == j
    {
      idx := idx[rpo[i] := i];
    }
    assert rpo[..|rpo|] == rpo;
  }

  /** Entries of the exit, and those that point to it, are dropped. */
  lemma DropExit(g: Digraph, idom: map<nat, nat>, m: map<nat, nat>)
    requires Closed(g) && Acyclic(g)
    requires forall x: nat :: x in idom <==> x <= |g|
    requires forall x: nat :: x < |g| ==> Immediate(WithExit(g), idom[x], x)
    requires m == map x | x in idom && x != |g| && idom[x] != |g| :: idom[x]
    ensures IsPostDominatorMap(g, m)
  {
    var w := WithExit(g);
    forall n | n in m ensures Immediate(g, m[n], n) {
      assert Immediate(w, m[n], n);
      ExitPd(g, m[n], n);
      forall e: nat | e < |g| && e != n && PostDominates(g, e, n) ensures PostDominates(g, e, m[n]) {
        ExitPd(g, e, n);
        ExitPd(g, e, m[n]);
      }
    }
    forall n: nat, d: nat | n < |g| && n !in m && d < |g| && d != n ensures !PostDominates(g, d, n) {
      ExitPd(g, d, n);
      assert Immediate(w, |g|, n);
      assert SinkPath(w, [|g|], |g|);
      assert d !in [|g|];
    }
  }

  lemma IndexesOrder(w: Digraph, rpo: seq<nat>, idx: map<nat, nat>)
    requires Distinct(rpo) && EdgesFall(w, rpo)
    requires forall x: nat :: x in rpo <==> x < |w|
    requires forall x :: x in idx <==> x in rpo
    requires forall i :: 0 <= i < |rpo| ==> idx[rpo[i]] == i
    ensures Indexes(w, rpo, idx)
  {
    PermutationLength(rpo, |w|);
    forall x: nat | x < |w| ensures x in idx && idx[x] < |rpo| && rpo[idx[x]] == x {
      assert x in rpo;
      var i :| 0 <= i < |rpo| && rpo[i] == x;
      assert idx[rpo[i]] == i;
    }
  }

  lemma ResolvedStart(w: Digraph, exit: nat, rpo: seq<nat>, idx: map<nat, nat>)
    requires Setup(w, exit, rpo, idx)
    ensures Resolved(w, exit, rpo, idx, map[exit := exit], 1)
  {
    ExitIndex(w, exit, rpo, idx);
    forall x: nat | x < |w| && idx[x] < 1 ensures x == exit { assert rpo[idx[x]] == x; }
  }

  lemma ResolvedNext(w: Digraph, exit: nat, rpo: seq<nat>, idx: map<nat, nat>, idom: map<nat, nat>, k: nat, c: nat)
    requires Resolved(w, exit, rpo, idx, idom, k) && k < |rpo|
    requires rpo[k] != exit && Immediate(w, c, rpo[k])
    ensures Resolved(w, exit, rpo, idx, idom[rpo[k] := c], k + 1)
  {
    var next := idom[rpo[k] := c];
    forall x: nat | x < |w| && idx[x] < k + 1 ensures x in next { assert rpo[idx[x]] == x; }
  }

  /** All but the dropping of the exit: the dominance pass on a one-sink graph. */
  method Dominators(w: Digraph, exit: nat) returns (idom: map<nat, nat>)
    requires Closed(w) && Acyclic(w) && exit < |w|
    requires (forall u: nat :: Sink(w, u) ==> u == exit) && w[exit] == []
    requires forall v: nat :: v < |w| ==> Reaches(w, v, exit)
    ensures forall x: nat :: x in idom <==> x < |w|
    ensures forall x :: x in idom && x != exit ==> Immediate(w, idom[x], x)
  {
    var rpo := ReversePostorder(w, exit);
    var idx := IndexOf(rpo);
    IndexesOrder(w, rpo, idx);
    ExitIndex(w, exit, rpo, idx);
    ResolvedStart(w, exit, rpo, idx);
    idom := map[exit := exit];
    for k := 1 to |rpo|
      invariant Resolved(w, exit, rpo, idx, idom, k)
    {
      var node := rpo[k];
      var chosen := Merge(w, idom, idx, node, exit, rpo, k);
      if chosen.Some? {
        ResolvedNext(w, exit, rpo, idx, idom, k, chosen.value);
        idom := idom[node := chosen.value];
      }
    }
  }

  /** Immediate post-dominators of an acyclic graph, exactly. */
  method Compute(g: Digraph) returns (m: map<nat, nat>)
    requires Closed(g) && Acyclic(g)
    ensures IsPostDominatorMap(g, m)
  {
    var w := WithExit(g);
    var exit := |g|;
    ExitClosed(g);
    ExitAcyclic(g);
    forall v: nat | v < |w| ensures Reaches(w, v, exit) { ExitReached(g, v); }
    var idom := Dominators(w, exit);
    m := map x | x in idom && x != exit && idom[x] != exit :: idom[x];
    DropExit(g, idom, m);
  }
}
