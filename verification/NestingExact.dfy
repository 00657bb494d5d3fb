/** Exactly when the nesting check means that brackets nest on every trail. */
module NestingExact {
  import opened Graphs
  import opened Ir
  import opened Nesting
  import opened NestingBlocks

  // ---------------------------------------------------------------- every trail

  /** The stack a trail leaves its last node with. */
  ghost function Leaves(net: Net, start: nat, ks: seq<nat>): seq<Entry>
    requires Sound(net) && start < |net.next| && IsTrail(net, start, ks)
  {
    After(net, End(net, start, ks), Carried(net, start, ks))
  }

  ghost predicate Meet(net: Net, start: nat, ks: seq<nat>, js: seq<nat>)
    requires Sound(net) && start < |net.next|
  {
    IsTrail(net, start, ks) && IsTrail(net, start, js) && End(net, start, ks) == End(net, start, js)
  }

  /** No trail strays, and trails that meet leave with the same branches open. */
  ghost predicate Coherent(net: Net, start: nat)
    requires Sound(net) && start < |net.next|
  {
    && (forall ks :: !Strays(net, start, ks))
    && forall ks, js {:trigger Meet(net, start, ks, js)} :: Meet(net, start, ks, js) ==>
       Leaves(net, start, ks) == Leaves(net, start, js)
  }

  /** The trail ends at `u` and leaves it with this stack. */
  ghost predicate Shows(net: Net, start: nat, ks: seq<nat>, u: nat, stack: seq<Entry>)
    requires Sound(net) && start < |net.next|
  {
    IsTrail(net, start, ks) && End(net, start, ks) == u && Leaves(net, start, ks) == stack
  }

  ghost predicate Shown(net: Net, start: nat, u: nat, stack: seq<Entry>)
    requires Sound(net) && start < |net.next|
  {
    exists ks :: Shows(net, start, ks, u, stack)
  }

  lemma {:induction false} TrailReaches(net: Net, start: nat, ks: seq<nat>)
    requires Sound(net) && start < |net.next| && IsTrail(net, start, ks)
    ensures Reaches(net.next, start, End(net, start, ks))
    decreases |ks|
  {
    if ks == [] {
      Refl(net.next, start);
    } else {
      TrailReaches(net, start, ks[..|ks| - 1]);
      FlowReached(net, start, End(net, start, ks[..|ks| - 1]), ks[|ks| - 1]);
    }
  }

  lemma {:induction false} PathTrail(net: Net, start: nat, p: seq<nat>) returns (ks: seq<nat>)
    requires Sound(net) && start < |net.next| && IsPath(net.next, p) && p[0] == start
    ensures IsTrail(net, start, ks) && End(net, start, ks) == p[|p| - 1]
    decreases |p|
  {
    ks := [];
    if |p| > 1 {
      PathSlice(net.next, p, 0, |p| - 1);
      ks := PathTrail(net, start, p[0..|p| - 1]);
      assert Edge(net.next, p[|p| - 2], p[|p| - 1]);
      var k :| 0 <= k < |net.next[p[|p| - 2]]| && net.next[p[|p| - 2]][k] == p[|p| - 1];
      TrailSnoc(net, start, ks, k);
      ks := ks + [k];
    }
  }

  // ---------------------------------------------------------------- labels

  /** With labels, a trail leaves every node with its label. */
  lemma {:induction false} TrailAgrees(net: Net, start: nat, labels: seq<seq<Entry>>, ks: seq<nat>)
    requires Agreeing(net, start, labels) && start < |net.next| && IsTrail(net, start, ks)
    ensures Fits(net, End(net, start, ks), Carried(net, start, ks)) &&
      Leaves(net, start, ks) == labels[End(net, start, ks)]
    decreases |ks|
  {
    if ks != [] {
      var init := ks[..|ks| - 1];
      TrailAgrees(net, start, labels, init);
      TrailReaches(net, start, init);
      assert FlowsEnter(net, labels, End(net, start, init));
    }
  }

  lemma FlowShown(net: Net, start: nat, u: nat, stack: seq<Entry>, k: nat)
    requires Sound(net) && start < |net.next| && Shown(net, start, u, stack) && u < |net.next| && k < |net.next[u]|
    ensures net.next[u][k] < |net.next| &&
      Shown(net, start, net.next[u][k], After(net, net.next[u][k], Into(net, u, k, stack)))
    ensures Coherent(net, start) ==> Fits(net, net.next[u][k], Into(net, u, k, stack))
  {
    Heads(net, u);
    var ks :| Shows(net, start, ks, u, stack);
    TrailSnoc(net, start, ks, k);
    var v := net.next[u][k];
    assert Shows(net, start, ks + [k], v, After(net, v, Into(net, u, k, stack)));
    assert !Strays(net, start, ks + [k]) ==> Fits(net, v, Into(net, u, k, stack));
  }

  lemma ShownOnce(net: Net, start: nat, u: nat, a: seq<Entry>, b: seq<Entry>)
    requires Sound(net) && start < |net.next| && Coherent(net, start) && Shown(net, start, u, a) &&
      Shown(net, start, u, b)
    ensures a == b
  {
    var ks :| Shows(net, start, ks, u, a);
    var js :| Shows(net, start, js, u, b);
    assert Meet(net, start, ks, js);
  }

  /** Stacks that trails show are labels. */
  lemma ShownAgree(net: Net, start: nat, labels: seq<seq<Entry>>)
    requires Sound(net) && start < |net.next| && Coherent(net, start) && |labels| == |net.next|
    requires forall u: nat :: u < |net.next| && Reaches(net.next, start, u) ==> Shown(net, start, u, labels[u])
    ensures Agreeing(net, start, labels)
  {
    Refl(net.next, start);
    var none: seq<nat> := [];
    assert Shows(net, start, none, start, After(net, start, [])) && !Strays(net, start, none);
    ShownOnce(net, start, start, After(net, start, []), labels[start]);
    forall u: nat | Reaches(net.next, start, u) ensures FlowsEnter(net, labels, u) {
      forall k | 0 <= k < |net.next[u]| ensures Enters(net, labels, net.next[u][k], Into(net, u, k, labels[u])) {
        var v := net.next[u][k];
        FlowReached(net, start, u, k);
        FlowShown(net, start, u, labels[u], k);
        ShownOnce(net, start, v, After(net, v, Into(net, u, k, labels[u])), labels[v]);
      }
    }
  }

  // ---------------------------------------------------------------- the stacks the walk left nodes with

  type Record = map<nat, seq<Entry>>

  function Missing(net: Net, m: Record): set<nat> {
    Upto(|net.next|) - m.Keys
  }

  /** The walk of the check, noting the stack with which it first left each node. */
  function Stacks(net: Net, n: nat, stack: seq<Entry>, m: Record): (r: Record)
    requires Sound(net) && n < |net.next|
    ensures m.Keys <= r.Keys
    decreases Missing(net, m), 0
  {
    if n in m then m
    else
      var after := After(net, n, stack);
      assert n in Missing(net, m) && n !in Missing(net, m[n := after]);
      StacksEach(net, n, 0, after, m[n := after])
  }

  function StacksEach(net: Net, n: nat, k: nat, stack: seq<Entry>, m: Record): (r: Record)
    requires Sound(net) && n < |net.next| && k <= |net.next[n]|
    ensures m.Keys <= r.Keys
    decreases Missing(net, m), 1 + |net.next[n]| - k
  {
    if k == |net.next[n]| then m
    else
      Heads(net, n);
      var u := Stacks(net, net.next[n][k], Into(net, n, k, stack), m);
      assert Missing(net, u) <= Missing(net, m);
      StacksEach(net, n, k + 1, stack, u)
  }

  function Recorded(net: Net, start: nat): Record
    requires Sound(net) && start < |net.next|
  {
    Stacks(net, start, [], map[])
  }

  /** Along flow `k` of `u` the next node is left as it was first left. */
  predicate ReturnsAs(net: Net, m: Record, u: nat, k: nat)
    requires |net.roles| == |net.next|
  {
    u in m && u < |net.next| && k < |net.next[u]| ==>
      var v := net.next[u][k];
      v < |net.next| && v in m && After(net, v, Into(net, u, k, m[u])) == m[v]
  }

  /** Whenever the walk comes back to a node, it would leave it as it first did. */
  ghost predicate OneStack(net: Net, start: nat)
    requires Sound(net) && start < |net.next|
  {
    forall u: nat, k: nat {:trigger ReturnsAs(net, Recorded(net, start), u, k)} ::
      ReturnsAs(net, Recorded(net, start), u, k)
  }

  /** The walk that notes stacks visits what the check visits. */
  lemma {:induction false} StacksVisit(net: Net, n: nat, stack: seq<Entry>, m: Record, t: Tally)
    requires Sound(net) && n < |net.next| && m.Keys == t.visited
    ensures Stacks(net, n, stack, m).Keys == Visit(net, n, stack, t).visited
    decreases Missing(net, m), 0
  {
    if n !in m {
      var after := After(net, n, stack);
      assert n in Missing(net, m) && n !in Missing(net, m[n := after]);
      EachVisit(net, n, 0, after, m[n := after], Mark(net, n, Arrive(net, n, stack, t)));
    }
  }

  lemma {:induction false} EachVisit(net: Net, n: nat, k: nat, stack: seq<Entry>, m: Record, t: Tally)
    requires Sound(net) && n < |net.next| && k <= |net.next[n]| && m.Keys == t.visited
    ensures StacksEach(net, n, k, stack, m).Keys == VisitEach(net, n, k, stack, t).visited
    decreases Missing(net, m), 1 + |net.next[n]| - k
  {
    if k < |net.next[n]| {
      Heads(net, n);
      var s := Into(net, n, k, stack);
      var u := Stacks(net, net.next[n][k], s, m);
      StacksVisit(net, net.next[n][k], s, m, t);
      assert Missing(net, u) <= Missing(net, m);
      EachVisit(net, n, k + 1, stack, u, Visit(net, net.next[n][k], s, t));
    }
  }

  lemma RecordedKeys(net: Net, start: nat, n: nat)
    requires Sound(net) && start < |net.next|
    ensures n in Recorded(net, start) <==> Reaches(net.next, start, n)
  {
    StacksVisit(net, start, [], map[], FRESH);
    Covered(net, start, n);
  }

  /** Every stack noted is that of some arrival. */
  ghost predicate From(net: Net, arrivals: Arrivals, m: Record)
    requires Sound(net)
  {
    forall u {:trigger m[u]} :: u in m ==>
      u < |net.next| && exists stack :: (u, stack) in arrivals && After(net, u, stack) == m[u]
  }

  lemma {:induction false} StacksFrom(net: Net, arrivals: Arrivals, n: nat, stack: seq<Entry>, m: Record)
    requires Sound(net) && Followed(net, arrivals) && n < |net.next| && (n, stack) in arrivals && From(net, arrivals, m)
    ensures From(net, arrivals, Stacks(net, n, stack, m))
    decreases Missing(net, m), 0
  {
    if n !in m {
      var after := After(net, n, stack);
      assert n in Missing(net, m) && n !in Missing(net, m[n := after]);
      EachFrom(net, arrivals, n, 0, stack, m[n := after]);
    }
  }

  lemma {:induction false} EachFrom(net: Net, arrivals: Arrivals, n: nat, k: nat, stack: seq<Entry>, m: Record)
    requires Sound(net) && Followed(net, arrivals) && n < |net.next| && (n, stack) in arrivals && From(net, arrivals, m)
    requires k <= |net.next[n]|
    ensures From(net, arrivals, StacksEach(net, n, k, After(net, n, stack), m))
    decreases Missing(net, m), 1 + |net.next[n]| - k
  {
    if k < |net.next[n]| {
      Heads(net, n);
      assert Follows(net, arrivals, n, stack, k);
      var s := Into(net, n, k, After(net, n, stack));
      var u := Stacks(net, net.next[n][k], s, m);
      StacksFrom(net, arrivals, net.next[n][k], s, m);
      assert Missing(net, u) <= Missing(net, m);
      EachFrom(net, arrivals, n, k + 1, stack, u);
    }
  }

  lemma RecordedShown(net: Net, start: nat, u: nat)
    requires Sound(net) && start < |net.next| && u in Recorded(net, start)
    ensures Shown(net, start, u, Recorded(net, start)[u])
  {
    var a := Trails(net, start);
    TrailsFollow(net, start);
    StacksFrom(net, a, start, [], map[]);
    var stack :| (u, stack) in a && After(net, u, stack) == Recorded(net, start)[u];
    var ks: seq<nat> :| IsTrail(net, start, ks) && (u, stack) == (End(net, start, ks), Carried(net, start, ks));
    assert Shows(net, start, ks, u, Recorded(net, start)[u]);
  }

  function LabelsOf(net: Net, m: Record): (labels: seq<seq<Entry>>)
    ensures |labels| == |net.next|
  {
    seq(|net.next|, u requires 0 <= u < |net.next| => if u in m then m[u] else [])
  }

  lemma RecordAgrees(net: Net, start: nat)
    requires Sound(net) && start < |net.next| && Coherent(net, start)
    ensures Agreeing(net, start, LabelsOf(net, Recorded(net, start)))
  {
    var labels := LabelsOf(net, Recorded(net, start));
    forall u: nat | u < |net.next| && Reaches(net.next, start, u) ensures Shown(net, start, u, labels[u]) {
      RecordedKeys(net, start, u);
      RecordedShown(net, start, u);
    }
    ShownAgree(net, start, labels);
  }

  /** Brackets nest on every trail if and only if every node on the flow has one bracket stack. */
  lemma CoherentIffLabelled(net: Net, start: nat)
    requires Sound(net) && start < |net.next|
    ensures Coherent(net, start) <==> exists labels :: Agreeing(net, start, labels)
  {
    if labels :| Agreeing(net, start, labels) {
      forall ks ensures !Strays(net, start, ks) {
        if IsTrail(net, start, ks) { TrailAgrees(net, start, labels, ks); }
      }
      forall ks, js | Meet(net, start, ks, js) ensures Leaves(net, start, ks) == Leaves(net, start, js) {
        TrailAgrees(net, start, labels, ks);
        TrailAgrees(net, start, labels, js);
      }
    }
    if Coherent(net, start) {
      RecordAgrees(net, start);
    }
  }

  // ---------------------------------------------------------------- the check

  /** Arrivals that leave each node as recorded. */
  ghost function Returns(net: Net, m: Record): Arrivals
    requires Sound(net)
  {
    iset n: nat, s: seq<Entry> | n in m && n < |net.next| && After(net, n, s) == m[n] :: (n, s)
  }

  lemma ReturnsFollow(net: Net, start: nat)
    requires Sound(net) && start < |net.next| && OneStack(net, start)
    ensures Followed(net, Returns(net, Recorded(net, start)))
  {
    var m := Recorded(net, start);
    var a := Returns(net, m);
    forall n: nat, stack: seq<Entry>, k: nat ensures Follows(net, a, n, stack, k) {
      if (n, stack) in a && n < |net.next| && k < |net.next[n]| {
        assert ReturnsAs(net, m, n, k) && Into(net, n, k, After(net, n, stack)) == Into(net, n, k, m[n]);
      }
    }
  }

  lemma {:induction false} StartRecorded(net: Net, start: nat)
    requires Sound(net) && start < |net.next|
    ensures start in Recorded(net, start) && After(net, start, []) == Recorded(net, start)[start]
  {
    StacksKeep(net, start, 0, After(net, start, []), map[start := After(net, start, [])], start);
  }

  /** What was noted stays. */
  lemma {:induction false} StackKept(net: Net, n: nat, stack: seq<Entry>, m: Record, u: nat)
    requires Sound(net) && n < |net.next| && u in m
    ensures u in Stacks(net, n, stack, m) && Stacks(net, n, stack, m)[u] == m[u]
    decreases Missing(net, m), 0
  {
    if n !in m {
      var after := After(net, n, stack);
      assert n in Missing(net, m) && n !in Missing(net, m[n := after]);
      StacksKeep(net, n, 0, after, m[n := after], u);
    }
  }

  lemma {:induction false} StacksKeep(net: Net, n: nat, k: nat, stack: seq<Entry>, m: Record, u: nat)
    requires Sound(net) && n < |net.next| && k <= |net.next[n]| && u in m
    ensures u in StacksEach(net, n, k, stack, m) && StacksEach(net, n, k, stack, m)[u] == m[u]
    decreases Missing(net, m), 1 + |net.next[n]| - k
  {
    if k < |net.next[n]| {
      Heads(net, n);
      var s := Into(net, n, k, stack);
      var w := Stacks(net, net.next[n][k], s, m);
      StackKept(net, net.next[n][k], s, m, u);
      assert Missing(net, w) <= Missing(net, m);
      StacksKeep(net, n, k + 1, stack, w, u);
    }
  }

  /** A silent check that never returns with another stack has labelled every node. */
  lemma {:induction false} SilentAgrees(net: Net, start: nat)
    requires Sound(net) && start < |net.next| && Check(net, start) == [] && OneStack(net, start)
    ensures Agreeing(net, start, LabelsOf(net, Recorded(net, start)))
  {
    var m := Recorded(net, start);
    var labels, a := LabelsOf(net, m), Returns(net, m);
    StartRecorded(net, start);
    ReturnsFollow(net, start);
    SilentTally(Visit(net, start, [], FRESH));
    VisitFits(net, a, start, [], FRESH);
    forall u: nat | Reaches(net.next, start, u) ensures FlowsEnter(net, labels, u) {
      Covered(net, start, u);
      RecordedKeys(net, start, u);
      assert FlowsFit(net, a, u, 0);
      forall k | 0 <= k < |net.next[u]| ensures Enters(net, labels, net.next[u][k], Into(net, u, k, labels[u])) {
        FitsRecorded(net, start, u, k);
      }
    }
  }

  lemma FitsRecorded(net: Net, start: nat, u: nat, k: nat)
    requires Sound(net) && start < |net.next| && OneStack(net, start) && u in Recorded(net, start) && u < |net.next|
    requires k < |net.next[u]| && net.next[u][k] < |net.next| && FlowFits(net, Returns(net, Recorded(net, start)), u, k)
    ensures Enters(net, LabelsOf(net, Recorded(net, start)), net.next[u][k],
      Into(net, u, k, LabelsOf(net, Recorded(net, start))[u]))
  {
    var m := Recorded(net, start);
    assert LabelsOf(net, m)[u] == m[u] && ReturnsAs(net, m, u, k);
    var stack :| (u, stack) in Returns(net, m) && Fits(net, net.next[u][k], Into(net, u, k, After(net, u, stack)));
    assert Into(net, u, k, m[u]) == Into(net, u, k, After(net, u, stack));
  }

  /** Some trail closes branch `b` of `f`. */
  ghost predicate Settles(net: Net, start: nat, f: nat, b: nat)
    requires Sound(net) && start < |net.next|
  {
    exists ks :: ClosesBranch(net, start, ks, f, b)
  }

  /** Every branch of every diverging gateway on the flow is closed along some trail. */
  ghost predicate AllClose(net: Net, start: nat)
    requires Sound(net) && start < |net.next|
  {
    forall f: nat, b: nat {:trigger Settles(net, start, f, b)} ::
      f < |net.next| && Reaches(net.next, start, f) && net.roles[f].Opens? && b < |net.next[f]| ==>
        Settles(net, start, f, b)
  }

  /** With labels, what some trail closes the walk has tallied. */
  lemma ClosedIsTallied(net: Net, start: nat, labels: seq<seq<Entry>>, closed: set<(nat, nat)>, ks: seq<nat>, f: nat,
                        b: nat)
    requires Agreeing(net, start, labels) && start < |net.next| && ClosesBranch(net, start, ks, f, b)
    requires forall u: nat {:trigger Credits(net, labels, u, 0, closed)} :: Reaches(net.next, start, u) ==>
      Credits(net, labels, u, 0, closed)
    ensures (f, b) in closed
  {
    var init := ks[..|ks| - 1];
    var u := End(net, start, init);
    TrailReaches(net, start, init);
    TrailAgrees(net, start, labels, init);
    assert Credits(net, labels, u, 0, closed);
  }

  lemma CoherentIsSilent(net: Net, start: nat)
    requires Sound(net) && start < |net.next| && Coherent(net, start) && AllClose(net, start)
    ensures Check(net, start) == []
  {
    var labels := LabelsOf(net, Recorded(net, start));
    RecordAgrees(net, start);
    var r := Visit(net, start, [], FRESH);
    Refl(net.next, start);
    VisitCovers(net, start, [], FRESH);
    VisitQuiet(net, start, labels, start, [], FRESH);
    forall u: nat | Reaches(net.next, start, u) ensures Credits(net, labels, u, 0, r.closed) { Covered(net, start, u); }
    forall f, b | f in r.degrees && 0 <= b < r.degrees[f] ensures (f, b) in r.closed {
      Covered(net, start, f);
      assert Settles(net, start, f, b);
      var ks :| ClosesBranch(net, start, ks, f, b);
      ClosedIsTallied(net, start, labels, r.closed, ks, f, b);
    }
    Silence(r);
  }

  lemma CoherentIsOneStack(net: Net, start: nat)
    requires Sound(net) && start < |net.next| && Coherent(net, start)
    ensures OneStack(net, start)
  {
    var m := Recorded(net, start);
    forall u: nat, k: nat ensures ReturnsAs(net, m, u, k) {
      if u in m && u < |net.next| && k < |net.next[u]| {
        var v := net.next[u][k];
        RecordedKeys(net, start, u);
        FlowReached(net, start, u, k);
        RecordedKeys(net, start, v);
        RecordedShown(net, start, u);
        RecordedShown(net, start, v);
        FlowShown(net, start, u, m[u], k);
        ShownOnce(net, start, v, After(net, v, Into(net, u, k, m[u])), m[v]);
      }
    }
  }

  /** The check is silent and the walk never returns with another stack, if and only if
      brackets nest on every trail and every branch opened is closed on some trail. */
  lemma SilentExactly(net: Net, start: nat)
    requires Sound(net) && start < |net.next|
    ensures Check(net, start) == [] && OneStack(net, start) <==> Coherent(net, start) && AllClose(net, start)
  {
    if Check(net, start) == [] && OneStack(net, start) {
      SilentAgrees(net, start);
      CoherentIffLabelled(net, start);
      forall f: nat, b: nat | f < |net.next| && Reaches(net.next, start, f) && net.roles[f].Opens? && b < |net.next[f]|
        ensures Settles(net, start, f, b) { SilentCloses(net, start, f, b); }
    }
    if Coherent(net, start) && AllClose(net, start) {
      CoherentIsSilent(net, start);
      CoherentIsOneStack(net, start);
    }
  }

  /** Given a silent check, brackets nest on every trail exactly when no return finds another stack. */
  lemma SilentNests(net: Net, start: nat)
    requires Sound(net) && start < |net.next| && Check(net, start) == []
    ensures Coherent(net, start) <==> OneStack(net, start)
  {
    SilentExactly(net, start);
    if Coherent(net, start) { CoherentIsOneStack(net, start); }
  }

  /** The side entry that the check accepts fails the comparison. */
  lemma SideEntryReturns()
    ensures Sound(SIDE_ENTRY) && Check(SIDE_ENTRY, 0) == [] && !OneStack(SIDE_ENTRY, 0)
  {
    SideEntryAccepted();
    SilentNests(SIDE_ENTRY, 0);
  }

  // ---------------------------------------------------------------- on a workflow graph

  lemma NetIsSound(g: Graph)
    requires WellFormed(g)
    ensures Sound(NetOf(g)) && |NetOf(g).next| == |g.nodes|
    ensures forall n :: 0 <= n < |g.nodes| ==> (Forks(g.nodes[n]) <==> NetOf(g).roles[n].Opens?)
    ensures forall n :: 0 <= n < |g.nodes| ==> (Joins(g.nodes[n]) <==> NetOf(g).roles[n].Closes?)
    ensures forall n :: 0 <= n < |g.nodes| ==> |NetOf(g).next[n]| == |g.flows[n]|
  {
    ShapeClosed(g);
  }

  /** Checks a workflow graph. Silence means that every branch of every diverging gateway on
      the flow is closed on some trail; it means nesting on every trail exactly when no return
      finds another stack. */
  method CheckGraph(g: Graph, start: nat) returns (errors: seq<Report>)
    requires WellFormed(g) && start < |g.nodes|
    ensures Sound(NetOf(g)) && start < |NetOf(g).next| && errors == Check(NetOf(g), start)
    ensures errors == [] ==> AllClose(NetOf(g), start)
    ensures errors == [] ==> (Coherent(NetOf(g), start) <==> OneStack(NetOf(g), start))
  {
    NetIsSound(g);
    errors := CheckNesting(NetOf(g), start);
    if errors == [] {
      var net := NetOf(g);
      forall f: nat, b: nat | f < |net.next| && Reaches(net.next, start, f) && net.roles[f].Opens? && b < |net.next[f]|
        ensures Settles(net, start, f, b) { SilentCloses(net, start, f, b); }
      SilentNests(net, start);
    }
  }
}
