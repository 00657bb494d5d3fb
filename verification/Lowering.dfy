/** The two passes of lowering: addresses by running sums of room, then the words,
    padded up to each address. */
module Lowering {
  import opened Options
  import opened Graphs
  import opened Segments
  import opened Bytecode
  import opened Ir
  import opened Blocks

  ghost predicate InGraph(g: Graph, order: seq<nat>) {
    |g.nodes| == |g.flows| && forall i :: 0 <= i < |order| ==> order[i] < |g.nodes|
  }

  // ---------------------------------------------------------------- boundary events by host

  /** The last boundary timer in the order that names the host. */
  function TimerIn(g: Graph, order: seq<nat>, host: nat): Option<TimerHost>
    requires forall i :: 0 <= i < |order| ==> order[i] < |g.nodes|
  {
    if order == [] then None
    else
      var n := order[|order| - 1];
      match g.nodes[n]
      case BoundaryTimer(h, spec, interrupting) =>
        if h == host then Some(TimerHost(n, spec, interrupting)) else TimerIn(g, order[..|order| - 1], host)
      case _ => TimerIn(g, order[..|order| - 1], host)
  }

  /** The boundary errors that name the host, in order. */
  function ErrorsIn(g: Graph, order: seq<nat>, host: nat): seq<ErrorHost>
    requires forall i :: 0 <= i < |order| ==> order[i] < |g.nodes|
  {
    if order == [] then []
    else
      var n, rest := order[|order| - 1], ErrorsIn(g, order[..|order| - 1], host);
      match g.nodes[n]
      case BoundaryError(h, code) => if h == host then rest + [ErrorHost(n, code)] else rest
      case _ => rest
  }

  method CollectTimers(g: Graph, order: seq<nat>) returns (timers: map<nat, TimerHost>)
    requires InGraph(g, order)
    ensures forall h: nat :: (if h in timers then Some(timers[h]) else None) == TimerIn(g, order, h)
  {
    timers := map[];
    for i := 0 to |order|
      invariant forall h: nat :: (if h in timers then Some(timers[h]) else None) == TimerIn(g, order[..i], h)
    {
      assert order[..i + 1][..i] == order[..i];
      match g.nodes[order[i]] {
        case BoundaryTimer(host, spec, interrupting) => timers :=
          timers[host := TimerHost(order[i], spec, interrupting)];
        case _ =>
      }
    }
    assert order[..|order|] == order;
  }

  method CollectErrors(g: Graph, order: seq<nat>) returns (errors: map<nat, seq<ErrorHost>>)
    requires InGraph(g, order)
    ensures forall h: nat :: (if h in errors then errors[h] else []) == ErrorsIn(g, order, h)
  {
    errors := map[];
    for i := 0 to |order|
      invariant forall h: nat :: (if h in errors then errors[h] else []) == ErrorsIn(g, order[..i], h)
    {
      assert order[..i + 1][..i] == order[..i];
      match g.nodes[order[i]] {
        case BoundaryError(host, code) =>
          errors := errors[host := (if host in errors then errors[host] else []) + [ErrorHost(order[i], code)]];
        case _ =>
      }
    }
    assert order[..|order|] == order;
  }

  /** The end of a straight escalation flow, looked for at most `steps` nodes ahead. */
  function EscalationEnd(g: Graph, n: nat, steps: nat): Option<nat>
    requires WellFormed(g)
    decreases steps
  {
    if n >= |g.nodes| || steps == 0 then None
    else if g.nodes[n].EndEvent? then Some(n)
    else if |g.flows[n]| == 1 then EscalationEnd(g, g.flows[n][0].target, steps - 1)
    else None
  }

  /** The ends that close the guard of a non-interrupting boundary timer. */
  function Closes(g: Graph, timers: map<nat, TimerHost>): set<nat>
    requires WellFormed(g)
  {
    set h | h in timers && !timers[h].interrupting && Successor(g, timers[h].node).Some?
            && EscalationEnd(g, Successor(g, timers[h].node).value, |g.nodes|).Some?
          :: EscalationEnd(g, Successor(g, timers[h].node).value, |g.nodes|).value
  }

  // ---------------------------------------------------------------- first pass

  function Rooms(g: Graph, b: Boundaries, order: seq<nat>): (r: seq<nat>)
    requires InGraph(g, order)
    ensures |r| == |order| && forall i :: 0 <= i < |r| ==> r[i] == Room(g, b, order[i])
  {
    seq(|order|, i requires 0 <= i < |order| => Room(g, b, order[i]))
  }

  /** Room of the first `i` nodes. */
  function Base(rooms: seq<nat>, i: nat): nat
    requires i <= |rooms|
  {
    if i == 0 then 0 else Base(rooms, i - 1) + rooms[i - 1]
  }

  /** The first `k` nodes of the order have their addresses. */
  ghost predicate Addressed(order: seq<nat>, rooms: seq<nat>, k: nat, addr: map<nat, nat>)
    requires k <= |order| == |rooms|
  {
    && addr.Keys <= (set n | n in order)
    && forall i :: 0 <= i < k ==> order[i] in addr && addr[order[i]] == Base(rooms, i)
  }

  lemma {:induction false} AddressNext(order: seq<nat>, rooms: seq<nat>, k: nat, addr: map<nat, nat>)
    requires k < |order| == |rooms| && Distinct(order) && Addressed(order, rooms, k, addr)
    ensures Addressed(order, rooms, k + 1, addr[order[k] := Base(rooms, k)])
  {
  }

  /** Addresses are running sums of the rooms of the nodes in order. */
  method AssignAddresses(order: seq<nat>, rooms: seq<nat>) returns (addr: map<nat, nat>)
    requires |order| == |rooms| && Distinct(order)
    ensures Addressed(order, rooms, |order|, addr)
  {
    addr := map[];
    var next := 0;
    for i := 0 to |order|
      invariant next == Base(rooms, i) && Addressed(order, rooms, i, addr)
    {
      AddressNext(order, rooms, i, addr);
      addr := addr[order[i] := next];
      next := next + rooms[i];
    }
  }

  // ---------------------------------------------------------------- words of one node

  lemma {:induction false} TestNext(pl: Plan, flows: seq<Flow>, i: nat)
    requires i < |flows| && flows[i].target in pl.addr
    ensures Flatten(XorTests(pl, flows)[..i + 1]) == Flatten(XorTests(pl, flows)[..i]) +
      (if flows[i].condition.None? then []
       else [LoadFlag(flows[i].condition.value.flag), BranchWord(flows[i].condition.value, pl.addr[flows[i].target])])
    ensures DefaultJump(pl, flows, i + 1) ==
      if flows[i].condition.None? then [Jump(pl.addr[flows[i].target])] else DefaultJump(pl, flows, i)
  {
    FlattenSnoc(XorTests(pl, flows), i);
  }

  method EmitXor(pl: Plan, flows: seq<Flow>) returns (r: Emitted)
    ensures r == XorBlock(pl, flows)
  {
    var words: seq<Instr> := [];
    var fallback: Option<nat> := None;
    ghost var all := XorTests(pl, flows);
    for i := 0 to |flows|
      invariant forall k :: 0 <= k < i ==> flows[k].target in pl.addr
      invariant words == Flatten(all[..i])
      invariant DefaultJump(pl, flows, i) == (if fallback.None? then [] else [Jump(fallback.value)])
    {
      if flows[i].target !in pl.addr { return Refused; }
      TestNext(pl, flows, i);
      var target := pl.addr[flows[i].target];
      if flows[i].condition.Some? {
        words := words + [LoadFlag(flows[i].condition.value.flag), BranchWord(flows[i].condition.value, target)];
      } else {
        fallback := Some(target);
      }
    }
    assert all[..|flows|] == all;
    if fallback.Some? { words := words + [Jump(fallback.value)]; }
    return Words(words);
  }

  lemma {:induction false} ArmOrderKeeps(errors: seq<ErrorHost>)
    ensures forall e :: e in ArmOrder(errors) <==> e in errors
  {
    if errors != [] {
      ArmOrderKeeps(errors[1..]);
      assert errors == [errors[0]] + errors[1..];
    }
  }

  method EmitArms(pl: Plan, errors: seq<ErrorHost>) returns (r: Emitted)
    ensures r == if ArmsResolved(pl, errors) then Words(ArmWords(pl, ArmOrder(errors))) else Refused
  {
    var sorted := ArmOrder(errors);
    ArmOrderKeeps(errors);
    var words: seq<Instr> := [];
    for i := 0 to |sorted|
      invariant ArmsResolved(pl, sorted[..i])
      invariant words == ArmWords(pl, sorted)[..i]
    {
      var handler := NextAddr(pl, sorted[i].node);
      if handler.None? {
        assert sorted[i] in sorted && sorted[i] in errors;
        return Refused;
      }
      words := words + [GuardArmError(sorted[i].code, handler.value)];
    }
    assert sorted[..|sorted|] == sorted;
    forall i | 0 <= i < |errors| ensures NextAddr(pl, errors[i].node).Some? { assert errors[i] in sorted; }
    return Words(words);
  }

  /** Everything in front of the guarded body: the timer's operand, the guard and its arms. */
  method EmitPrologue(pl: Plan, n: nat, handler: nat) returns (r: Emitted)
    ensures r == if ArmsResolved(pl, ErrorsOf(pl.b, n)) then Words(Prologue(pl, n, handler)) else Refused
  {
    var timed := n in pl.b.timers;
    var words: seq<Instr> := [];
    if timed { words := words + [PushI64(DurationMs(pl.b.timers[n].spec, pl.now))]; }
    words := words + [if Interrupting(pl.b, n) then Guard(handler) else GuardN(handler)];
    if timed {
      words := words + [GuardArmTimer];
      if pl.b.timers[n].spec.Cycle? { words := words + [GuardTimerCycle(pl.b.timers[n].spec.maxFires)]; }
    }
    var arms := EmitArms(pl, ErrorsOf(pl.b, n));
    if arms.Refused? { return Refused; }
    return Words(words + arms.words);
  }

  method EmitHost(pl: Plan, n: nat, body: Instr) returns (r: Emitted)
    requires n in pl.addr
    ensures r == HostBlock(pl, n, body)
  {
    if !Guarded(pl.b, n) {
      return Words([body] + [Jump(NextAddr(pl, n).Or(pl.addr[n] + 2))]);
    }
    var handler := HandlerOf(pl, n);
    if handler.None? { return Refused; }
    var front := EmitPrologue(pl, n, handler.value);
    if front.Refused? { return Refused; }
    var words := front.words + [body, if Interrupting(pl.b, n) then GuardEnd else GuardNEnd];
    return Words(words + [Jump(NextAddr(pl, n).Or(pl.addr[n] + |words| + 1))]);
  }

  method EmitPrechecks(flows: seq<Flow>, fork: nat) returns (words: seq<Instr>)
    ensures words == PrecheckBlock(flows, fork)
  {
    words := [];
    if !AlwaysLive(flows) {
      ghost var all := Prechecks(flows, fork);
      for i := 0 to |flows|
        invariant words == Flatten(all[..i])
      {
        FlattenSnoc(all, i);
        words := words + [LoadFlag(flows[i].condition.value.flag), BrIf(fork)];
      }
      assert all[..|flows|] == all;
      words := words + [RouteZeroMatch];
    }
  }

  /** Branch headers follow the fork one after another. */
  method HeaderAddresses(flows: seq<Flow>, fork: nat) returns (headers: seq<nat>)
    ensures headers == HeaderAddrs(flows, fork)
  {
    headers := [];
    var next := fork + 1;
    for i := 0 to |flows|
      invariant next == HeaderAddr(flows, fork, i)
      invariant |headers| == i && forall k :: 0 <= k < i ==> headers[k] == HeaderAddr(flows, fork, k)
    {
      headers := headers + [next];
      next := next + if flows[i].condition.None? then 1 else 3;
    }
  }

  method EmitHeaders(pl: Plan, flows: seq<Flow>, join: nat) returns (r: Emitted)
    ensures r == if Resolved(pl, flows) then Words(Flatten(Headers(pl, flows, join))) else Refused
  {
    var words: seq<Instr> := [];
    ghost var all := Headers(pl, flows, join);
    for i := 0 to |flows|
      invariant forall k :: 0 <= k < i ==> flows[k].target in pl.addr
      invariant words == Flatten(all[..i])
    {
      FlattenSnoc(all, i);
      if flows[i].target !in pl.addr { return Refused; }
      var target := pl.addr[flows[i].target];
      match flows[i].condition {
        case None => words := words + [Jump(target)];
        case Some(c) => words := words + [LoadFlag(c.flag), BrIfNot(join), Jump(target)];
      }
    }
    assert all[..|flows|] == all;
    return Words(words);
  }

  method EmitInclusive(pl: Plan, flows: seq<Flow>, base: nat, join: nat) returns (r: Emitted)
    ensures r == InclusiveFrom(pl, flows, base, join)
  {
    var fork := base + PrecheckRoom(flows);
    var checks := EmitPrechecks(flows, fork);
    var headers := HeaderAddresses(flows, fork);
    var tail := EmitHeaders(pl, flows, join);
    if tail.Refused? { return Refused; }
    return Words(checks + [Fork(headers, fork)] + tail.words);
  }

  method EmitMi(taskType: nat, collection: nat, elements: seq<nat>, base: nat, next: nat) returns (words: seq<Instr>)
    ensures words == MiBlock(taskType, collection, elements, base, next)
  {
    var fork := base + 1;
    var join := fork + 1 + 6 * |elements|;
    var headers: seq<nat> := [];
    var header := fork + 1;
    for i := 0 to |elements|
      invariant header == fork + 1 + 6 * i
      invariant |headers| == i && forall k :: 0 <= k < i ==> headers[k] == fork + 1 + 6 * k
    {
      headers := headers + [header];
      header := header + 6;
    }
    assert headers == MiHeaderAddrs(|elements|, fork);
    words := [];
    ghost var all := MiBranches(taskType, collection, elements, join);
    for i := 0 to |elements|
      invariant words == Flatten(all[..i])
    {
      FlattenSnoc(all, i);
      words := words + [MiIndexLive(collection, i), BrIfNot(join), MiLoadElement(collection, i),
                        StoreFlag(elements[i]), ExecNative(taskType), Jump(join)];
    }
    assert all[..|elements|] == all;
    words := [MiArityCheck(collection, |elements|), Fork(headers, fork)] + words + [Join(fork), Jump(next)];
  }

  method EmitNode(pl: Plan, n: nat) returns (r: Emitted)
    requires n < |pl.g.nodes| == |pl.g.flows| && n in pl.addr
    ensures r == Block(pl, n)
  {
    match pl.g.nodes[n] {
      case ServiceTask(t) => r := EmitHost(pl, n, ExecNative(t));
      case FfiServiceTask(t) => r := EmitHost(pl, n, ExecFfi(t));
      case MessageWait(m) => r := EmitHost(pl, n, WaitMsg(m));
      case HumanWait(m) => r := EmitHost(pl, n, WaitMsg(m));
      case GatewayXor => r := EmitXor(pl, pl.g.flows[n]);
      case GatewayInclusive(d) =>
        if d.Diverging? && n in pl.joinOf {
          r := EmitInclusive(pl, pl.g.flows[n], pl.addr[n], pl.joinOf[n]);
        } else {
          r := Block(pl, n);
        }
      case MultiInstance(t, c, elements) =>
        if NextAddr(pl, n).None? { return Refused; }
        var words := EmitMi(t, c, elements, pl.addr[n], NextAddr(pl, n).value);
        r := Words(words);
      case _ => r := Block(pl, n);
    }
  }

  // ---------------------------------------------------------------- second pass

  ghost predicate Planned(pl: Plan, order: seq<nat>) {
    && InGraph(pl.g, order) && Distinct(order)
    && Addressed(order, Rooms(pl.g, pl.b, order), |order|, pl.addr)
  }

  /** The words of a node, its refusal counting as none. */
  function WordsOf(pl: Plan, n: nat): seq<Instr>
    requires n < |pl.g.nodes| == |pl.g.flows| && n in pl.addr
  {
    match Block(pl, n) case Refused => [] case Words(w) => w
  }

  /** Pieces at increasing bases, each ending before the next begins. */
  ghost predicate Fits(bases: seq<nat>, blocks: seq<seq<Instr>>) {
    && |bases| == |blocks|
    && (|bases| > 0 ==> bases[0] == 0)
    && forall i, j :: 0 <= i < j < |bases| && j == i + 1 ==> bases[i] + |blocks[i]| <= bases[j]
  }

  /** The program made of the first `k` pieces: each at its base, jumps to the next
      base filling the gaps, nothing after the last. */
  ghost predicate Laid(bases: seq<nat>, blocks: seq<seq<Instr>>, k: nat, p: Program)
    requires k <= |bases| == |blocks|
  {
    && |p| == (if k == 0 then 0 else bases[k - 1] + |blocks[k - 1]|)
    && (forall i :: 0 <= i < k ==> Placed(p, bases[i], blocks[i]))
    && (forall i, j, a :: 0 <= i < j < k && j == i + 1 && bases[i] + |blocks[i]| <= a < bases[j] ==>
          a < |p| && p[a] == Jump(bases[j]))
  }

  lemma LaidNext(bases: seq<nat>, blocks: seq<seq<Instr>>, k: nat, p: Program, padded: Program)
    requires Fits(bases, blocks) && k < |bases| && Laid(bases, blocks, k, p)
    requires p <= padded && |padded| == bases[k]
    requires forall a :: |p| <= a < |padded| ==> padded[a] == Jump(bases[k])
    ensures Laid(bases, blocks, k + 1, padded + blocks[k])
  {
    var q := padded + blocks[k];
    forall i | 0 <= i < k ensures Placed(q, bases[i], blocks[i]) {
      var at, w := bases[i], blocks[i];
      assert Placed(p, at, w);
      assert q[at..at + |w|] == p[at..at + |w|];
    }
    forall i, j, a | 0 <= i < j < k + 1 && j == i + 1 && bases[i] + |blocks[i]| <= a < bases[j]
      ensures a < |q| && q[a] == Jump(bases[j])
    {
      if j < k { assert p[a] == q[a]; }
    }
  }

  function Bases(pl: Plan, order: seq<nat>): (s: seq<nat>)
    requires Planned(pl, order)
    ensures |s| == |order| && forall i :: 0 <= i < |s| ==> s[i] == pl.addr[order[i]]
  {
    seq(|order|, i requires 0 <= i < |order| => pl.addr[order[i]])
  }

  function Pieces(pl: Plan, order: seq<nat>): (s: seq<seq<Instr>>)
    requires Planned(pl, order)
    ensures |s| == |order| && forall i :: 0 <= i < |s| ==> s[i] == WordsOf(pl, order[i])
  {
    seq(|order|, i requires 0 <= i < |order| => WordsOf(pl, order[i]))
  }

  lemma PieceFits(pl: Plan, n: nat)
    requires n < |pl.g.nodes| == |pl.g.flows| && n in pl.addr
    ensures |WordsOf(pl, n)| <= Room(pl.g, pl.b, n)
  {
    if Block(pl, n).Words? { BlockFits(pl, n); }
  }

  lemma {:induction false} RunningSums(rooms: seq<nat>, bases: seq<nat>, pieces: seq<seq<Instr>>)
    requires |rooms| == |bases| == |pieces|
    requires forall i :: 0 <= i < |rooms| ==> bases[i] == Base(rooms, i) && |pieces[i]| <= rooms[i]
    ensures Fits(bases, pieces)
  {
    forall i, j | 0 <= i < j < |bases| && j == i + 1 ensures bases[i] + |pieces[i]| <= bases[j] {
      assert Base(rooms, j) == Base(rooms, i) + rooms[i];
    }
  }

  /** First-pass addresses leave room for the second pass. */
  lemma PiecesFit(pl: Plan, order: seq<nat>)
    requires Planned(pl, order)
    ensures Fits(Bases(pl, order), Pieces(pl, order))
  {
    var rooms, bases, pieces := Rooms(pl.g, pl.b, order), Bases(pl, order), Pieces(pl, order);
    forall i | 0 <= i < |order| ensures bases[i] == Base(rooms, i) && |pieces[i]| <= rooms[i] {
      PieceFits(pl, order[i]);
    }
    RunningSums(rooms, bases, pieces);
  }

  /** The second pass starts every node exactly at its first-pass address. */
  method Emit(pl: Plan, order: seq<nat>) returns (r: Emitted)
    requires Planned(pl, order)
    ensures r.Words? ==> Laid(Bases(pl, order), Pieces(pl, order), |order|, r.words)
    ensures r.Refused? <==> exists i :: 0 <= i < |order| && Block(pl, order[i]).Refused?
  {
    PiecesFit(pl, order);
    ghost var bases, pieces := Bases(pl, order), Pieces(pl, order);
    var words: Program := [];
    for i := 0 to |order|
      invariant Laid(bases, pieces, i, words)
      invariant forall k :: 0 <= k < i ==> Block(pl, order[k]).Words?
    {
      var base := pl.addr[order[i]];
      ghost var before := words;
      words := PadTo(words, base);
      LaidNext(bases, pieces, i, before, words);
      var block := EmitNode(pl, order[i]);
      if block.Refused? { return Refused; }
      words := words + block.words;
    }
    return Words(words);
  }

  method PadTo(before: Program, base: nat) returns (words: Program)
    requires |before| <= base
    ensures before <= words && |words| == base
    ensures forall a :: |before| <= a < base ==> words[a] == Jump(base)
  {
    words := before;
    while |words| < base
      invariant before <= words && |words| <= base
      invariant forall a :: |before| <= a < |words| ==> words[a] == Jump(base)
    {
      words := words + [Jump(base)];
    }
  }
}
