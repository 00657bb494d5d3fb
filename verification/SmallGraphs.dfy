/** What lowering makes of small graphs: one split, few boundary events. */
module SmallGraphs {
  import opened Options
  import opened Segments
  import opened Graphs
  import opened PostDominators
  import opened Bytecode
  import opened Ir
  import opened Blocks
  import opened Lowering
  import opened Compiler

  /** With a single split, its immediate post-dominator is the whole region map. */
  lemma OneSplit(d: Digraph, pd: map<nat, nat>, s: nat, m: nat)
    requires Closed(d) && Acyclic(d) && IsPostDominatorMap(d, pd) && s < |d| && |d[s]| > 1 && Immediate(d, m, s)
    requires forall n :: 0 <= n < |d| && n != s ==> |d[n]| <= 1
    ensures s in pd && pd[s] == m && RegionMap(d, pd) == map[s := m]
  {
    MapExact(d, pd, s, m);
  }

  /** What every successor meets, a node meets. */
  lemma MeetsThrough(d: Digraph, e: nat, n: nat)
    requires Closed(d) && n < |d| && e != n && |d[n]| > 0 && forall i :: 0 <= i < |d[n]| ==>
      PostDominates(d, e, d[n][i])
    ensures PostDominates(d, e, n)
  {
    PdSuccessors(d, e, n);
  }

  // ---------------------------------------------------------------- boundary events

  lemma {:induction false} TimerAbsent(g: Graph, order: seq<nat>, host: nat)
    requires forall i :: 0 <= i < |order| ==> order[i] < |g.nodes|
    requires forall i :: 0 <= i < |order| && g.nodes[order[i]].BoundaryTimer? ==> g.nodes[order[i]].host != host
    ensures TimerIn(g, order, host) == None
  {
    if order != [] { TimerAbsent(g, order[..|order| - 1], host); }
  }

  /** The only timer of a host is found wherever it stands. */
  lemma {:induction false} TimerFound(g: Graph, order: seq<nat>, host: nat, k: nat)
    requires (forall i :: 0 <= i < |order| ==> order[i] < |g.nodes|) && k < |order|
    requires g.nodes[order[k]].BoundaryTimer? && g.nodes[order[k]].host == host
    requires forall i :: 0 <= i < |order| && i != k && g.nodes[order[i]].BoundaryTimer? ==>
      g.nodes[order[i]].host != host
    ensures TimerIn(g, order, host) == Some(TimerHost(order[k], g.nodes[order[k]].spec, g.nodes[order[k]].interrupting))
  {
    if k < |order| - 1 { TimerFound(g, order[..|order| - 1], host, k); }
  }

  lemma {:induction false} ErrorsAbsent(g: Graph, order: seq<nat>, host: nat)
    requires forall i :: 0 <= i < |order| ==> order[i] < |g.nodes|
    requires forall i :: 0 <= i < |order| && g.nodes[order[i]].BoundaryError? ==> g.nodes[order[i]].host != host
    ensures ErrorsIn(g, order, host) == []
  {
    if order != [] { ErrorsAbsent(g, order[..|order| - 1], host); }
  }

  /** The only error of a host is found wherever it stands. */
  lemma {:induction false} ErrorFound(g: Graph, order: seq<nat>, host: nat, k: nat)
    requires (forall i :: 0 <= i < |order| ==> order[i] < |g.nodes|) && k < |order|
    requires g.nodes[order[k]].BoundaryError? && g.nodes[order[k]].host == host
    requires forall i :: 0 <= i < |order| && i != k && g.nodes[order[i]].BoundaryError? ==>
      g.nodes[order[i]].host != host
    ensures ErrorsIn(g, order, host) == [ErrorHost(order[k], g.nodes[order[k]].code)]
  {
    var init := order[..|order| - 1];
    if k < |order| - 1 { ErrorFound(g, init, host, k); } else { ErrorsAbsent(g, init, host); }
  }

  // ---------------------------------------------------------------- addresses and words

  lemma {:induction false} AddrAt(order: seq<nat>, rooms: seq<nat>, addr: map<nat, nat>, i: nat)
    requires |order| == |rooms| && i < |order| && Addressed(order, rooms, |order|, addr)
    ensures order[i] in addr && addr[order[i]] == Base(rooms, i)
  {
  }

  lemma PieceAt(bases: seq<nat>, pieces: seq<seq<Instr>>, p: Program, i: nat)
    requires |bases| == |pieces| && Laid(bases, pieces, |bases|, p) && i < |bases|
    ensures Placed(p, bases[i], pieces[i]) && |p| == bases[|bases| - 1] + |pieces[|bases| - 1]|
  {
  }

  /** In the lowered program the words of each node stand at its address. */
  lemma LaidAt(pl: Plan, order: seq<nat>, p: Program, i: nat)
    requires Planned(pl, order) && Laid(Bases(pl, order), Pieces(pl, order), |order|, p) && i < |order|
    ensures order[i] in pl.addr && Placed(p, pl.addr[order[i]], WordsOf(pl, order[i]))
  {
    PieceAt(Bases(pl, order), Pieces(pl, order), p, i);
  }

  lemma LaidEnd(pl: Plan, order: seq<nat>, p: Program)
    requires Planned(pl, order) && Laid(Bases(pl, order), Pieces(pl, order), |order|, p) && order != []
    ensures var last := order[|order| - 1]; last in pl.addr && |p| == pl.addr[last] + |WordsOf(pl, last)|
  {
    PieceAt(Bases(pl, order), Pieces(pl, order), p, |order| - 1);
  }
}
