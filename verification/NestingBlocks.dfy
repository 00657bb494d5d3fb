/** Graphs built from nested blocks pass the nesting check. */
module NestingBlocks {
  import opened Options
  import opened Graphs
  import opened Nesting

  // ---------------------------------------------------------------- labelled nets

  /** Arriving at `v` with stack `s` is matched and leaves the stack that `v` is labelled with. */
  ghost predicate Enters(net: Net, labels: seq<seq<Entry>>, v: nat, s: seq<Entry>) {
    v < |net.roles| == |labels| && Fits(net, v, s) && After(net, v, s) == labels[v]
  }

  ghost predicate FlowsEnter(net: Net, labels: seq<seq<Entry>>, u: nat) {
    && u < |net.roles| == |net.next| == |labels|
    && forall k :: 0 <= k < |net.next[u]| ==> Enters(net, labels, net.next[u][k], Into(net, u, k, labels[u]))
  }

  /** Every node on the flow has one bracket stack, whatever way it is reached. */
  ghost predicate Agreeing(net: Net, start: nat, labels: seq<seq<Entry>>) {
    && Sound(net) && |labels| == |net.next| && Enters(net, labels, start, [])
    && forall u: nat {:trigger FlowsEnter(net, labels, u)} :: Reaches(net.next, start, u) ==> FlowsEnter(net, labels, u)
  }

  /** And none is open at a dead end. */
  ghost predicate Labelled(net: Net, start: nat, labels: seq<seq<Entry>>) {
    && Agreeing(net, start, labels)
    && forall u: nat :: u < |net.next| && Reaches(net.next, start, u) && net.next[u] == [] ==> labels[u] == []
  }

  lemma FlowReached(net: Net, start: nat, u: nat, k: nat)
    requires Sound(net) && u < |net.next| && k < |net.next[u]| && Reaches(net.next, start, u)
    ensures Reaches(net.next, start, net.next[u][k])
  {
    assert Edge(net.next, u, net.next[u][k]);
    EdgeReaches(net.next, u, net.next[u][k]);
    Trans(net.next, start, u, net.next[u][k]);
  }

  /** From flow `from` of `u` on, what is closed on arrival is in `closed`. */
  ghost predicate Credits(net: Net, labels: seq<seq<Entry>>, u: nat, from: nat, closed: set<(nat, nat)>) {
    && FlowsEnter(net, labels, u)
    && forall k :: from <= k < |net.next[u]| && net.roles[net.next[u][k]].Closes? ==>
         var top := Last(Into(net, u, k, labels[u]));
         (top.fork, top.branch) in closed
  }

  ghost predicate NewCredits(net: Net, labels: seq<seq<Entry>>, t: Tally, r: Tally) {
    forall u {:trigger Credits(net, labels, u, 0, r.closed)} ::
      u in r.visited && u !in t.visited ==> Credits(net, labels, u, 0, r.closed)
  }

  lemma NewCreditsTrans(net: Net, labels: seq<seq<Entry>>, t: Tally, u: Tally, r: Tally)
    requires NewCredits(net, labels, t, u) && NewCredits(net, labels, u, r) && u.closed <= r.closed
    ensures NewCredits(net, labels, t, r)
  {
    forall x | x in r.visited && x !in t.visited ensures Credits(net, labels, x, 0, r.closed) {
      if x in u.visited { assert Credits(net, labels, x, 0, u.closed); }
    }
  }

  lemma {:induction false} VisitQuiet(net: Net, start: nat, labels: seq<seq<Entry>>, n: nat, stack: seq<Entry>,
                                      t: Tally)
    requires Agreeing(net, start, labels) && Enters(net, labels, n, stack) && Reaches(net.next, start, n) &&
      Counted(net, t)
    ensures var r := Visit(net, n, stack, t);
      && r.reports == t.reports && NewCredits(net, labels, t, r)
      && (net.roles[n].Closes? ==> (Last(stack).fork, Last(stack).branch) in r.closed)
    decreases Unseen(net, t), 0
  {
    if n !in t.visited {
      var u := Mark(net, n, Arrive(net, n, stack, t));
      assert n in Unseen(net, t) && n !in Unseen(net, u);
      EachCovers(net, n, 0, After(net, n, stack), u);
      EachQuiet(net, start, labels, n, 0, u);
      assert u.visited == t.visited + {n};
    }
  }

  lemma {:induction false} EachQuiet(net: Net, start: nat, labels: seq<seq<Entry>>, n: nat, k: nat, t: Tally)
    requires Agreeing(net, start, labels) && n < |net.next| && Reaches(net.next, start, n)
    requires k <= |net.next[n]| && Counted(net, t)
    ensures var r := VisitEach(net, n, k, labels[n], t);
      r.reports == t.reports && NewCredits(net, labels, t, r) && Credits(net, labels, n, k, r.closed)
    decreases Unseen(net, t), 1 + |net.next[n]| - k
  {
    assert FlowsEnter(net, labels, n);
    if k < |net.next[n]| {
      var v, s := net.next[n][k], Into(net, n, k, labels[n]);
      FlowReached(net, start, n, k);
      VisitCovers(net, v, s, t);
      VisitQuiet(net, start, labels, v, s, t);
      var u := Visit(net, v, s, t);
      assert Unseen(net, u) <= Unseen(net, t);
      EachCovers(net, n, k + 1, labels[n], u);
      EachQuiet(net, start, labels, n, k + 1, u);
      NewCreditsTrans(net, labels, t, u, VisitEach(net, n, k + 1, labels[n], u));
    }
  }

  /** Along a flow an open branch is either closed on arrival or open at a node that leads on. */
  lemma StaysOpen(net: Net, start: nat, labels: seq<seq<Entry>>, u: nat, k: nat, open: seq<Entry>,
                  closed: set<(nat, nat)>)
    requires Labelled(net, start, labels) && Credits(net, labels, u, 0, closed) && Reaches(net.next, start, u)
    requires k < |net.next[u]| && open != [] && open <= Into(net, u, k, labels[u])
    ensures var v := net.next[u][k];
      || (Last(open).fork, Last(open).branch) in closed
      || (net.next[v] != [] && open <= Into(net, v, 0, labels[v]))
  {
    var v, s := net.next[u][k], Into(net, u, k, labels[u]);
    assert Enters(net, labels, v, s);
    FlowReached(net, start, u, k);
    if !(net.roles[v].Closes? && open == s) { assert open <= labels[v]; }
  }

  /** An open branch is followed until the gateway that closes it. */
  lemma {:induction false} BranchCloses(net: Net, start: nat, labels: seq<seq<Entry>>, r: Tally, p: seq<nat>, k: nat,
                                        open: seq<Entry>)
    requires Labelled(net, start, labels) && Acyclic(net.next) && IsPath(net.next, p) && p[0] == start
    requires NewCredits(net, labels, FRESH, r) && forall n :: Reaches(net.next, start, n) ==> n in r.visited
    requires var u := p[|p| - 1]; k < |net.next[u]| && open != [] && open <= Into(net, u, k, labels[u])
    ensures (Last(open).fork, Last(open).branch) in r.closed
    decreases |net.next| - |p|
  {
    var u := p[|p| - 1];
    var v := net.next[u][k];
    assert PathFromTo(net.next, p, start, u);
    assert Credits(net, labels, u, 0, r.closed);
    StaysOpen(net, start, labels, u, k, open, r.closed);
    if (Last(open).fork, Last(open).branch) !in r.closed {
      StepOn(net, p, v);
      BranchCloses(net, start, labels, r, p + [v], 0, open);
    }
  }

  lemma StepOn(net: Net, p: seq<nat>, v: nat)
    requires Sound(net) && Acyclic(net.next) && IsPath(net.next, p) && Edge(net.next, p[|p| - 1], v)
    ensures IsPath(net.next, p + [v]) && |p| < |net.next|
  {
    var u := p[|p| - 1];
    assert IsPath(net.next, [u, v]);
    PathConcat(net.next, p, [u, v]);
    var q := p + [v];
    assert p + [u, v][1..] == q;
    forall i, j | 0 <= i < j < |q| ensures q[i] != q[j] { PathDistinct(net.next, q, i, j); }
    DistinctBound(q, |net.next|);
  }

  /** A net whose nodes can be labelled with their bracket stacks is accepted. */
  lemma LabelledIsSilent(net: Net, start: nat, labels: seq<seq<Entry>>)
    requires Labelled(net, start, labels) && Acyclic(net.next)
    ensures Check(net, start) == []
  {
    var r := Visit(net, start, [], FRESH);
    VisitCovers(net, start, [], FRESH);
    Refl(net.next, start);
    VisitQuiet(net, start, labels, start, [], FRESH);
    forall n | Reaches(net.next, start, n) ensures n in r.visited { Covered(net, start, n); }
    forall f, b | f in r.degrees && 0 <= b < r.degrees[f] ensures (f, b) in r.closed {
      Covered(net, start, f);
      var p :| PathFromTo(net.next, p, start, f);
      BranchCloses(net, start, labels, r, p, b, Into(net, f, b, labels[f]));
    }
  }

  // ---------------------------------------------------------------- block grammar

  /** A structured process: an empty branch, one activity, two blocks in sequence, or a split
      whose branches meet again. A split without a kind is exclusive. */
  datatype Tree =
    | Skip
    | Step
    | Then(first: Tree, second: Tree)
    | Split(kind: Option<Kind>, branches: seq<Tree>)

  /** Every split has a branch. */
  predicate Branching(tree: Tree)
    decreases tree
  {
    match tree
    case Then(a, b) => Branching(a) && Branching(b)
    case Split(_, ts) => ts != [] && forall t :: t in ts ==> Branching(t)
    case _ => true
  }

  function Size(tree: Tree): nat
    decreases tree
  {
    match tree
    case Skip => 0
    case Step => 1
    case Then(a, b) => Size(a) + Size(b)
    case Split(_, ts) => 2 + Sizes(ts)
  }

  function Sizes(ts: seq<Tree>): nat
    decreases ts
  {
    if ts == [] then 0 else Size(ts[0]) + Sizes(ts[1..])
  }

  /** Where a block placed at `at` and leading to `next` is entered. */
  function Head(tree: Tree, at: nat, next: nat): nat {
    if Size(tree) == 0 then next else at
  }

  function HeadsOf(ts: seq<Tree>, at: nat, join: nat): (s: seq<nat>)
    ensures |s| == |ts|
  {
    if ts == [] then [] else [Head(ts[0], at, join)] + HeadsOf(ts[1..], at + Size(ts[0]), join)
  }

  function Pushed(kind: Option<Kind>, fork: nat, b: nat, stack: seq<Entry>): seq<Entry> {
    if kind.Some? then stack + [Entry(kind.value, fork, b)] else stack
  }

  /** A node, its flows, and the bracket stack it has. */
  datatype Cell = Cell(role: Role, flows: seq<nat>, stack: seq<Entry>)

  /** Node `u` of a block placed at `at`, leading to `next` and entered with `stack`. */
  function CellAt(tree: Tree, at: nat, next: nat, stack: seq<Entry>, u: nat): Cell
    requires at <= u < at + Size(tree)
    decreases tree
  {
    match tree
    case Step => Cell(Plain, [next], stack)
    case Then(a, b) =>
      var mid := at + Size(a);
      if u < mid then CellAt(a, at, Head(b, mid, next), stack, u) else CellAt(b, mid, next, stack, u)
    case Split(kind, ts) =>
      var join := at + 1 + Sizes(ts);
      if u == at then Cell(if kind.Some? then Opens(kind.value) else Plain, HeadsOf(ts, at + 1, join), stack)
      else if u == join then Cell(if kind.Some? then Closes(kind.value) else Plain, [next], stack)
      else CellOf(ts, at + 1, join, kind, at, 0, stack, u)
  }

  /** Node `u` of the branches from number `b` on. */
  function CellOf(ts: seq<Tree>, at: nat, join: nat, kind: Option<Kind>, fork: nat, b: nat, stack: seq<Entry>,
                  u: nat): Cell
    requires at <= u < at + Sizes(ts)
    decreases ts
  {
    var mid := at + Size(ts[0]);
    if u < mid then CellAt(ts[0], at, join, Pushed(kind, fork, b, stack), u)
    else CellOf(ts[1..], mid, join, kind, fork, b + 1, stack, u)
  }

  /** The whole process: a start event, the block, an end event. */
  function Process(tree: Tree, u: nat): Cell
    requires u < 2 + Size(tree)
  {
    var end := 1 + Size(tree);
    if u == 0 then Cell(Plain, [Head(tree, 1, end)], [])
    else if u == end then Cell(Plain, [], [])
    else CellAt(tree, 1, end, [], u)
  }

  function Drawn(tree: Tree): (net: Net)
    ensures |net.roles| == |net.next| == 2 + Size(tree)
  {
    var n := 2 + Size(tree);
    Net(seq(n, u requires 0 <= u < n => Process(tree, u).role), seq(n, u requires 0 <= u < n => Process(tree, u).flows))
  }

  // ---------------------------------------------------------------- blocks in place

  ghost predicate IsCell(net: Net, labels: seq<seq<Entry>>, u: nat, c: Cell) {
    && u < |net.roles| == |net.next| == |labels|
    && net.roles[u] == c.role && net.next[u] == c.flows && labels[u] == c.stack
  }

  ghost predicate Stands(net: Net, labels: seq<seq<Entry>>, tree: Tree, at: nat, next: nat, stack: seq<Entry>) {
    forall u {:trigger CellAt(tree, at, next, stack, u)} ::
      at <= u < at + Size(tree) ==> IsCell(net, labels, u, CellAt(tree, at, next, stack, u))
  }

  ghost predicate EachStand(net: Net, labels: seq<seq<Entry>>, ts: seq<Tree>, at: nat, join: nat,
                            kind: Option<Kind>, fork: nat, b: nat, stack: seq<Entry>) {
    forall u {:trigger CellOf(ts, at, join, kind, fork, b, stack, u)} ::
      at <= u < at + Sizes(ts) ==> IsCell(net, labels, u, CellOf(ts, at, join, kind, fork, b, stack, u))
  }

  /** Node `u` leads on, forward, and with the stacks of its targets. */
  ghost predicate Orderly(net: Net, labels: seq<seq<Entry>>, u: nat) {
    FlowsEnter(net, labels, u) && net.next[u] != [] && forall k :: 0 <= k < |net.next[u]| ==> u < net.next[u][k]
  }

  ghost predicate AllOrderly(net: Net, labels: seq<seq<Entry>>, lo: nat, hi: nat) {
    forall u {:trigger Orderly(net, labels, u)} :: lo <= u < hi ==> Orderly(net, labels, u)
  }

  lemma {:induction false} FirstCell(tree: Tree, at: nat, mid: nat, next: nat, stack: seq<Entry>, u: nat)
    requires tree.Then? && mid == at + Size(tree.first) && at <= u < mid
    ensures Size(tree) == Size(tree.first) + Size(tree.second)
    ensures CellAt(tree, at, next, stack, u) == CellAt(tree.first, at, Head(tree.second, mid, next), stack, u)
  {
  }

  lemma {:induction false} FirstStands(net: Net, labels: seq<seq<Entry>>, a: Tree, b: Tree, at: nat, mid: nat,
                                       next: nat, stack: seq<Entry>)
    requires Stands(net, labels, Then(a, b), at, next, stack) && mid == at + Size(a)
    ensures Stands(net, labels, a, at, Head(b, mid, next), stack)
  {
    var head := Head(b, mid, next);
    forall u | at <= u < at + Size(a) ensures IsCell(net, labels, u, CellAt(a, at, head, stack, u)) {
      FirstCell(Then(a, b), at, mid, next, stack, u);
    }
  }

  lemma {:induction false} SecondCell(tree: Tree, at: nat, mid: nat, next: nat, stack: seq<Entry>, u: nat)
    requires tree.Then? && mid == at + Size(tree.first) && mid <= u < mid + Size(tree.second)
    ensures Size(tree) == Size(tree.first) + Size(tree.second)
    ensures CellAt(tree, at, next, stack, u) == CellAt(tree.second, mid, next, stack, u)
  {
  }

  lemma {:induction false} SecondStands(net: Net, labels: seq<seq<Entry>>, a: Tree, b: Tree, at: nat, mid: nat,
                                        next: nat, stack: seq<Entry>)
    requires Stands(net, labels, Then(a, b), at, next, stack) && mid == at + Size(a)
    ensures Stands(net, labels, b, mid, next, stack)
  {
    forall u | mid <= u < mid + Size(b) ensures IsCell(net, labels, u, CellAt(b, mid, next, stack, u)) {
      SecondCell(Then(a, b), at, mid, next, stack, u);
    }
  }

  lemma {:induction false} SplitStands(net: Net, labels: seq<seq<Entry>>, kind: Option<Kind>, ts: seq<Tree>, at: nat,
                                       next: nat, stack: seq<Entry>)
    requires Stands(net, labels, Split(kind, ts), at, next, stack)
    ensures var join := at + 1 + Sizes(ts);
      && IsCell(net, labels, at, Cell(if kind.Some? then Opens(kind.value) else Plain, HeadsOf(ts, at + 1, join),
         stack))
      && IsCell(net, labels, join, Cell(if kind.Some? then Closes(kind.value) else Plain, [next], stack))
      && EachStand(net, labels, ts, at + 1, join, kind, at, 0, stack)
  {
    var tree, join := Split(kind, ts), at + 1 + Sizes(ts);
    assert IsCell(net, labels, at, CellAt(tree, at, next, stack, at));
    assert IsCell(net, labels, join, CellAt(tree, at, next, stack, join));
    var lo := at + 1;
    forall u | lo <= u < join ensures IsCell(net, labels, u, CellOf(ts, lo, join, kind, at, 0, stack, u)) {
      assert IsCell(net, labels, u, CellAt(tree, at, next, stack, u));
    }
  }

  lemma BranchStands(net: Net, labels: seq<seq<Entry>>, ts: seq<Tree>, at: nat, join: nat,
                     kind: Option<Kind>, fork: nat, b: nat, stack: seq<Entry>)
    requires ts != [] && EachStand(net, labels, ts, at, join, kind, fork, b, stack)
    ensures Stands(net, labels, ts[0], at, join, Pushed(kind, fork, b, stack))
    ensures EachStand(net, labels, ts[1..], at + Size(ts[0]), join, kind, fork, b + 1, stack)
  {
    var mid, s := at + Size(ts[0]), Pushed(kind, fork, b, stack);
    forall u | at <= u < mid ensures IsCell(net, labels, u, CellAt(ts[0], at, join, s, u)) {
      assert IsCell(net, labels, u, CellOf(ts, at, join, kind, fork, b, stack, u));
    }
    var rest, c := ts[1..], b + 1;
    forall u | mid <= u < mid + Sizes(rest)
      ensures IsCell(net, labels, u, CellOf(rest, mid, join, kind, fork, c, stack, u)) {
      assert IsCell(net, labels, u, CellOf(ts, at, join, kind, fork, b, stack, u));
    }
  }

  lemma OneOrderly(net: Net, labels: seq<seq<Entry>>, u: nat, role: Role, next: nat, s: seq<Entry>)
    requires IsCell(net, labels, u, Cell(role, [next], s)) && !role.Opens? && u < next && Enters(net, labels, next, s)
    ensures Orderly(net, labels, u)
  {
  }

  lemma ForkOrderly(net: Net, labels: seq<seq<Entry>>, u: nat, kind: Option<Kind>, heads: seq<nat>, s: seq<Entry>)
    requires IsCell(net, labels, u, Cell(if kind.Some? then Opens(kind.value) else Plain, heads, s)) && heads != []
    requires HeadsEnter(net, labels, heads, u + 1, kind, u, 0, s)
    ensures Orderly(net, labels, u)
  {
    forall k | 0 <= k < |heads| ensures Enters(net, labels, heads[k], Into(net, u, k, s)) {
      assert Enters(net, labels, heads[k], Pushed(kind, u, 0 + k, s));
    }
  }

  /** The heads of the branches from number `b` on are entered with their stacks. */
  ghost predicate HeadsEnter(net: Net, labels: seq<seq<Entry>>, heads: seq<nat>, at: nat,
                             kind: Option<Kind>, fork: nat, b: nat, stack: seq<Entry>) {
    forall i :: 0 <= i < |heads| ==> heads[i] >= at && Enters(net, labels, heads[i], Pushed(kind, fork, b + i, stack))
  }

  lemma HeadsCons(net: Net, labels: seq<seq<Entry>>, head: nat, rest: seq<nat>, at: nat, mid: nat,
                  kind: Option<Kind>, fork: nat, b: nat, stack: seq<Entry>)
    requires head >= at && mid >= at && Enters(net, labels, head, Pushed(kind, fork, b, stack))
    requires HeadsEnter(net, labels, rest, mid, kind, fork, b + 1, stack)
    ensures HeadsEnter(net, labels, [head] + rest, at, kind, fork, b, stack)
  {
    forall i | 0 <= i < |[head] + rest|
      ensures ([head] + rest)[i] >= at && Enters(net, labels, ([head] + rest)[i], Pushed(kind, fork, b + i, stack))
    {
      if i > 0 { assert rest[i - 1] >= mid &&
        Enters(net, labels, rest[i - 1], Pushed(kind, fork, b + 1 + (i - 1), stack)); }
    }
  }

  lemma JoinEnters(net: Net, labels: seq<seq<Entry>>, join: nat, kind: Option<Kind>, fork: nat, b: nat,
                   stack: seq<Entry>)
    requires join < |net.roles| == |labels| && net.roles[join] == (if kind.Some? then Closes(kind.value) else Plain)
    requires labels[join] == stack
    ensures Enters(net, labels, join, Pushed(kind, fork, b, stack))
  {
  }

  lemma {:induction false} TreeOrderly(net: Net, labels: seq<seq<Entry>>, tree: Tree, at: nat, next: nat,
                                       stack: seq<Entry>)
    requires Stands(net, labels, tree, at, next, stack)
    requires Branching(tree) && at + Size(tree) <= next && Enters(net, labels, next, stack)
    ensures AllOrderly(net, labels, at, at + Size(tree)) && Enters(net, labels, Head(tree, at, next), stack)
    decreases tree, 0
  {
    match tree
    case Skip =>
    case Step =>
      assert IsCell(net, labels, at, CellAt(tree, at, next, stack, at));
      OneOrderly(net, labels, at, Plain, next, stack);
    case Then(a, b) =>
      FirstStands(net, labels, a, b, at, at + Size(a), next, stack);
      SecondStands(net, labels, a, b, at, at + Size(a), next, stack);
      TreeOrderly(net, labels, b, at + Size(a), next, stack);
      TreeOrderly(net, labels, a, at, Head(b, at + Size(a), next), stack);
    case Split(kind, ts) =>
      SplitOrderly(net, labels, kind, ts, at, next, stack);
  }

  lemma {:induction false} SplitOrderly(net: Net, labels: seq<seq<Entry>>, kind: Option<Kind>, ts: seq<Tree>,
                                        at: nat, next: nat, stack: seq<Entry>)
    requires Stands(net, labels, Split(kind, ts), at, next, stack) && ts != [] && forall t :: t in ts ==> Branching(t)
    requires at + 2 + Sizes(ts) <= next && Enters(net, labels, next, stack)
    ensures AllOrderly(net, labels, at, at + 2 + Sizes(ts)) && Enters(net, labels, at, stack)
    decreases ts, 1
  {
    var join := at + 1 + Sizes(ts);
    SplitStands(net, labels, kind, ts, at, next, stack);
    OneOrderly(net, labels, join, if kind.Some? then Closes(kind.value) else Plain, next, stack);
    EachOrderly(net, labels, ts, at + 1, join, kind, at, 0, stack);
    ForkOrderly(net, labels, at, kind, HeadsOf(ts, at + 1, join), stack);
  }

  lemma {:induction false} EachOrderly(net: Net, labels: seq<seq<Entry>>, ts: seq<Tree>, at: nat, join: nat,
                                       kind: Option<Kind>, fork: nat, b: nat, stack: seq<Entry>)
    requires EachStand(net, labels, ts, at, join, kind, fork, b, stack)
    requires (forall t :: t in ts ==> Branching(t)) && at + Sizes(ts) <= join
    requires join < |net.roles| == |labels| && net.roles[join] == (if kind.Some? then Closes(kind.value) else Plain)
    requires labels[join] == stack
    ensures AllOrderly(net, labels, at, at + Sizes(ts))
    ensures HeadsEnter(net, labels, HeadsOf(ts, at, join), at, kind, fork, b, stack)
    decreases ts, 0
  {
    if ts != [] {
      var t, rest, mid, s := ts[0], ts[1..], at + Size(ts[0]), Pushed(kind, fork, b, stack);
      BranchStands(net, labels, ts, at, join, kind, fork, b, stack);
      JoinEnters(net, labels, join, kind, fork, b, stack);
      TreeOrderly(net, labels, t, at, join, s);
      EachOrderly(net, labels, rest, mid, join, kind, fork, b + 1, stack);
      HeadsCons(net, labels, Head(t, at, join), HeadsOf(rest, mid, join), at, mid, kind, fork, b, stack);
    }
  }

  // ---------------------------------------------------------------- acceptance

  /** A drawn process can be labelled. */
  lemma DrawnIsLabelled(tree: Tree) returns (labels: seq<seq<Entry>>)
    requires Branching(tree)
    ensures Labelled(Drawn(tree), 0, labels) && Acyclic(Drawn(tree).next)
  {
    var net, end := Drawn(tree), 1 + Size(tree);
    labels := seq(2 + Size(tree), u requires 0 <= u < 2 + Size(tree) => Process(tree, u).stack);
    forall u | 0 <= u <= end ensures IsCell(net, labels, u, Process(tree, u)) {}
    forall u | 1 <= u < end ensures IsCell(net, labels, u, CellAt(tree, 1, end, [], u)) {
      assert IsCell(net, labels, u, Process(tree, u));
    }
    TreeOrderly(net, labels, tree, 1, end, []);
    OneOrderly(net, labels, 0, Plain, Head(tree, 1, end), []);
    OrderlyLabelled(net, labels, end);
  }

  lemma OrderlyLabelled(net: Net, labels: seq<seq<Entry>>, end: nat)
    requires |net.roles| == |net.next| == |labels| == end + 1 && end > 0 && AllOrderly(net, labels, 0, end)
    requires net.roles[0] == Plain && labels[0] == [] && net.next[end] == [] && labels[end] == []
    ensures Labelled(net, 0, labels) && Acyclic(net.next)
  {
    forall u | 0 <= u < |net.next| ensures FlowsEnter(net, labels, u) {
      if u < end { assert Orderly(net, labels, u); }
    }
    forall u: nat, v: nat | Edge(net.next, u, v) ensures v < |net.next| { assert FlowsEnter(net, labels, u); }
    forall u, k | 0 <= u < |net.next| && 0 <= k < |net.next[u]| ensures u < net.next[u][k] {
      assert u < end && Orderly(net, labels, u);
    }
    forall u | 0 <= u < |net.next| && net.next[u] == [] ensures labels[u] == [] {
      assert u < end ==> Orderly(net, labels, u);
    }
    AscendingAcyclic(net.next);
  }

  /** Every process made of nested blocks passes the check without a report. */
  lemma {:induction false} BlocksAccepted(tree: Tree)
    requires Branching(tree)
    ensures Sound(Drawn(tree)) && Check(Drawn(tree), 0) == []
  {
    var labels := DrawnIsLabelled(tree);
    LabelledIsSilent(Drawn(tree), 0, labels);
  }

  // ---------------------------------------------------------------- what the check lets through

  /** An exclusive choice between a parallel split and a task that enters its first branch from outside. */
  const SIDE_ENTRY: Net := Net(
    [Plain, Plain, Opens(And), Plain, Plain, Plain, Closes(And), Plain],
    [[1], [2, 5], [3, 4], [6], [6], [3], [7], []])

  lemma SideEntrySound()
    ensures Sound(SIDE_ENTRY)
  {
    forall u: nat, v: nat | Edge(SIDE_ENTRY.next, u, v) ensures v < 8 {}
  }

  lemma {:induction false} OneFlow(net: Net, n: nat, v: nat, stack: seq<Entry>, t: Tally)
    requires Sound(net) && n < |net.next| && net.next[n] == [v] && v < |net.next|
    ensures VisitEach(net, n, 0, stack, t) == Visit(net, v, Into(net, n, 0, stack), t)
  {
    var u := Visit(net, v, Into(net, n, 0, stack), t);
    assert VisitEach(net, n, 1, stack, u) == u;
  }

  lemma {:induction false} TwoFlows(net: Net, n: nat, v: nat, w: nat, stack: seq<Entry>, t: Tally, u: Tally)
    requires Sound(net) && n < |net.next| && net.next[n] == [v, w] && v < |net.next| && w < |net.next|
    requires u == Visit(net, v, Into(net, n, 0, stack), t)
    ensures VisitEach(net, n, 0, stack, t) == Visit(net, w, Into(net, n, 1, stack), u)
  {
    var r := Visit(net, w, Into(net, n, 1, stack), u);
    assert VisitEach(net, n, 2, stack, r) == r && VisitEach(net, n, 1, stack, u) == r;
  }

  /** The first branch, up to the end event. */
  lemma {:induction false} SideFirst(t: Tally)
    requires Sound(SIDE_ENTRY) && t.visited == {0, 1, 2}
    ensures Visit(SIDE_ENTRY, 3, [Entry(And, 2, 0)], t) ==
      t.(visited := t.visited + {3} + {6} + {7}, closed := t.closed + {(2, 0)})
  {
    var e := [Entry(And, 2, 0)];
    var t3 := Mark(SIDE_ENTRY, 3, t);
    OneFlow(SIDE_ENTRY, 3, 6, e, t3);
    var t6 := Mark(SIDE_ENTRY, 6, Arrive(SIDE_ENTRY, 6, e, t3));
    OneFlow(SIDE_ENTRY, 6, 7, [], t6);
    var t7 := Mark(SIDE_ENTRY, 7, t6);
    assert VisitEach(SIDE_ENTRY, 7, 0, [], t7) == t7;
  }

  /** The second branch, which meets the join again. */
  lemma {:induction false} SideSecond(t: Tally)
    requires Sound(SIDE_ENTRY) && t.visited == {0, 1, 2, 3, 6, 7}
    ensures Visit(SIDE_ENTRY, 4, [Entry(And, 2, 1)], t) == t.(visited := t.visited + {4}, closed := t.closed + {(2, 1)})
  {
    OneFlow(SIDE_ENTRY, 4, 6, [Entry(And, 2, 1)], Mark(SIDE_ENTRY, 4, t));
  }

  /** The task outside, which meets a node already visited. */
  lemma {:induction false} SideThird(t: Tally)
    requires Sound(SIDE_ENTRY) && t.visited == {0, 1, 2, 3, 4, 6, 7}
    ensures Visit(SIDE_ENTRY, 5, [], t) == t.(visited := t.visited + {5})
  {
    OneFlow(SIDE_ENTRY, 5, 3, [], Mark(SIDE_ENTRY, 5, t));
  }

  lemma {:induction false} SideWalk()
    requires Sound(SIDE_ENTRY)
    ensures var r := Visit(SIDE_ENTRY, 0, [], FRESH);
      r.reports == [] && r.degrees == map[2 := 2] && (2, 0) in r.closed && (2, 1) in r.closed
  {
    var t0 := Mark(SIDE_ENTRY, 0, FRESH);
    OneFlow(SIDE_ENTRY, 0, 1, [], t0);
    var t1 := Mark(SIDE_ENTRY, 1, t0);
    var t2 := Mark(SIDE_ENTRY, 2, t1);
    SideFirst(t2);
    var t3 := Visit(SIDE_ENTRY, 3, [Entry(And, 2, 0)], t2);
    SideSecond(t3);
    assert Into(SIDE_ENTRY, 2, 0, []) == [Entry(And, 2, 0)] && Into(SIDE_ENTRY, 2, 1, []) == [Entry(And, 2, 1)];
    TwoFlows(SIDE_ENTRY, 2, 3, 4, [], t2, t3);
    var t4 := Visit(SIDE_ENTRY, 2, [], t1);
    SideThird(t4);
    TwoFlows(SIDE_ENTRY, 1, 2, 5, [], t1, t4);
  }

  lemma {:induction false} SideTrail()
    requires Sound(SIDE_ENTRY)
    ensures IsTrail(SIDE_ENTRY, 0, [0, 1, 0, 0]) && End(SIDE_ENTRY, 0, [0, 1, 0, 0]) == 6
    ensures Carried(SIDE_ENTRY, 0, [0, 1, 0, 0]) == []
  {
    var a: seq<nat>, b: seq<nat>, c: seq<nat>, d: seq<nat> := [], [0], [0, 1], [0, 1, 0];
    assert a + [0] == b && b + [1] == c && c + [0] == d && d + [0] == [0, 1, 0, 0];
    TrailSnoc(SIDE_ENTRY, 0, a, 0);
    TrailSnoc(SIDE_ENTRY, 0, b, 1);
    TrailSnoc(SIDE_ENTRY, 0, c, 0);
    TrailSnoc(SIDE_ENTRY, 0, d, 0);
  }

  /** The trail ends at a converging gateway that does not find its own kind open. */
  ghost predicate Strays(net: Net, start: nat, ks: seq<nat>)
    requires Sound(net) && start < |net.next|
  {
    IsTrail(net, start, ks) && !Fits(net, End(net, start, ks), Carried(net, start, ks))
  }

  lemma Silence(t: Tally)
    requires t.reports == [] && forall f, b :: f in t.degrees && 0 <= b < t.degrees[f] ==> (f, b) in t.closed
    ensures Reports(t) == []
  {
  }

  lemma {:induction false} SideEntrySilent()
    requires Sound(SIDE_ENTRY)
    ensures Check(SIDE_ENTRY, 0) == []
  {
    SideWalk();
    var r := Visit(SIDE_ENTRY, 0, [], FRESH);
    forall f, b | f in r.degrees && 0 <= b < r.degrees[f] ensures (f, b) in r.closed {
      assert f == 2 && (b == 0 || b == 1);
    }
    Silence(r);
  }

  /** The check is silent, yet a trail through the task arrives at the join with nothing open. */
  lemma {:induction false} SideEntryAccepted()
    ensures Sound(SIDE_ENTRY) && Check(SIDE_ENTRY, 0) == [] && exists ks :: Strays(SIDE_ENTRY, 0, ks)
  {
    SideEntrySound();
    SideEntrySilent();
    SideTrail();
    assert Strays(SIDE_ENTRY, 0, [0, 1, 0, 0]);
  }
}
