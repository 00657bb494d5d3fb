/** The words each graph node lowers to, and the room the first pass keeps for them. */
module Blocks {
  import opened Options
  import opened Segments
  import opened Bytecode
  import opened Ir

  datatype TimerHost = TimerHost(node: nat, spec: TimerSpec, interrupting: bool)

  datatype ErrorHost = ErrorHost(node: nat, code: ErrorCode)

  /** Boundary events by host, and the ends that close an inherited guard. */
  datatype Boundaries = Boundaries(timers: map<nat, TimerHost>, errors: map<nat, seq<ErrorHost>>, closes: set<nat>)

  function ErrorsOf(b: Boundaries, n: nat): seq<ErrorHost> {
    if n in b.errors then b.errors[n] else []
  }

  predicate Guarded(b: Boundaries, n: nat) {
    n in b.timers || ErrorsOf(b, n) != []
  }

  // ---------------------------------------------------------------- room

  predicate AlwaysLive(flows: seq<Flow>) {
    exists i :: 0 <= i < |flows| && flows[i].condition.None?
  }

  function PrecheckRoom(flows: seq<Flow>): nat {
    if AlwaysLive(flows) then 0 else 2 * |flows| + 1
  }

  /** Room of the first `k` branch headers. */
  function HeadersRoom(flows: seq<Flow>, k: nat): nat
    requires k <= |flows|
  {
    if k == 0 then 0 else HeadersRoom(flows, k - 1) + (if flows[k - 1].condition.None? then 1 else 3)
  }

  function GuardRoom(b: Boundaries, n: nat): nat {
    if !Guarded(b, n) then 0
    else 2 + (if n in b.timers then (if b.timers[n].spec.Cycle? then 3 else 2) else 0) + |ErrorsOf(b, n)|
  }

  /** The number of words the first pass keeps for node `n`. */
  function Room(g: Graph, b: Boundaries, n: nat): nat
    requires n < |g.nodes| == |g.flows|
  {
    match g.nodes[n]
    case Start => 1
    case EndEvent(_) => if n in b.closes then 2 else 1
    case ServiceTask(_) => 2 + GuardRoom(b, n)
    case FfiServiceTask(_) => 2 + GuardRoom(b, n)
    case MessageWait(_) => 2 + GuardRoom(b, n)
    case HumanWait(_) => 2 + GuardRoom(b, n)
    case SendTask(_) => 2
    case TimerWait(_) => 3
    case GatewayXor => (if |g.flows[n]| == 0 then 1 else 2 * |g.flows[n]|) + 1
    case GatewayAnd(d) => if d.Diverging? then 1 else 2
    case GatewayInclusive(d) =>
      if d.Diverging? then PrecheckRoom(g.flows[n]) + 1 + HeadersRoom(g.flows[n], |g.flows[n]|) else 2
    case MultiInstance(_, _, elements) => 6 * |elements| + 4
    case BoundaryTimer(_, _, _) => 0
    case BoundaryError(_, _) => 0
    case DataObject => 0
  }

  // ---------------------------------------------------------------- words

  /** What the first pass and the pairing scan hand to the second pass. */
  datatype Plan = Plan(g: Graph, b: Boundaries, addr: map<nat, nat>,
                       forkOf: map<nat, nat>, joinOf: map<nat, nat>, inclusiveForkOf: map<nat, nat>, now: nat)

  datatype Emitted = Words(words: seq<Instr>) | Refused

  function AddrOf(pl: Plan, n: nat): Option<nat> {
    if n in pl.addr then Some(pl.addr[n]) else None
  }

  function NextAddr(pl: Plan, n: nat): Option<nat> {
    match Successor(pl.g, n) case None => None case Some(v) => AddrOf(pl, v)
  }

  predicate Resolved(pl: Plan, flows: seq<Flow>) {
    forall i :: 0 <= i < |flows| ==> flows[i].target in pl.addr
  }

  function Land(pl: Plan, f: Flow): nat {
    AddrOf(pl, f.target).Or(0)
  }

  function DurationMs(spec: TimerSpec, now: nat): nat {
    match spec
    case Duration(ms) => ms
    case Date(deadline) => if deadline > now then deadline - now else 0
    case Cycle(interval, _) => interval
  }

  // guarded tasks and waits

  function Specific(errors: seq<ErrorHost>): seq<ErrorHost> {
    if errors == [] then []
    else (if errors[0].code.AnyError? then [] else [errors[0]]) + Specific(errors[1..])
  }

  function CatchAlls(errors: seq<ErrorHost>): seq<ErrorHost> {
    if errors == [] then []
    else (if errors[0].code.AnyError? then [errors[0]] else []) + CatchAlls(errors[1..])
  }

  /** Specific codes first, catch-alls last, otherwise in the given order. */
  function ArmOrder(errors: seq<ErrorHost>): seq<ErrorHost> {
    Specific(errors) + CatchAlls(errors)
  }

  predicate ArmsResolved(pl: Plan, errors: seq<ErrorHost>) {
    forall i :: 0 <= i < |errors| ==> NextAddr(pl, errors[i].node).Some?
  }

  function ArmWords(pl: Plan, errors: seq<ErrorHost>): (w: seq<Instr>)
    ensures |w| == |errors|
  {
    seq(|errors|, i requires 0 <= i < |errors| => GuardArmError(errors[i].code, NextAddr(pl, errors[i].node).Or(0)))
  }

  /** Where the guard's own handler lives: the timer's flow, else the first error's. */
  function HandlerOf(pl: Plan, n: nat): Option<nat>
    requires Guarded(pl.b, n)
  {
    if n in pl.b.timers then NextAddr(pl, pl.b.timers[n].node) else NextAddr(pl, ErrorsOf(pl.b, n)[0].node)
  }

  predicate Interrupting(b: Boundaries, n: nat) {
    ErrorsOf(b, n) != [] || (n in b.timers && b.timers[n].interrupting)
  }

  /** The words before the guarded body. */
  function Prologue(pl: Plan, n: nat, handler: nat): seq<Instr> {
    (if n in pl.b.timers then [PushI64(DurationMs(pl.b.timers[n].spec, pl.now))] else [])
    + [if Interrupting(pl.b, n) then Guard(handler) else GuardN(handler)]
    + (if n in pl.b.timers then [GuardArmTimer] + CycleWord(pl.b.timers[n].spec) else [])
    + ArmWords(pl, ArmOrder(ErrorsOf(pl.b, n)))
  }

  function CycleWord(spec: TimerSpec): seq<Instr> {
    if spec.Cycle? then [GuardTimerCycle(spec.maxFires)] else []
  }

  function HostBlock(pl: Plan, n: nat, body: Instr): Emitted
    requires n in pl.addr
  {
    if !Guarded(pl.b, n) then Words([body, Jump(NextAddr(pl, n).Or(pl.addr[n] + 2))])
    else if HandlerOf(pl, n).None? || !ArmsResolved(pl, ErrorsOf(pl.b, n)) then Refused
    else
      var front := Prologue(pl, n, HandlerOf(pl, n).value);
      Words(front + [body, if Interrupting(pl.b, n) then GuardEnd else GuardNEnd,
                    Jump(NextAddr(pl, n).Or(pl.addr[n] + |front| + 3))])
  }

  // exclusive gateways

  /** A boolean test reads its literal; any other test is read as truthiness. */
  function BranchWord(c: Condition, target: nat): Instr {
    if c.literal.BoolLiteral? && ((c.op.Eq? && !c.literal.b) || (c.op.Neq? && c.literal.b)) then BrIfNot(target)
    else BrIf(target)
  }

  function XorTest(pl: Plan, f: Flow): seq<Instr> {
    match f.condition case None => [] case Some(c) => [LoadFlag(c.flag), BranchWord(c, Land(pl, f))]
  }

  function XorTests(pl: Plan, flows: seq<Flow>): (s: seq<seq<Instr>>)
    ensures |s| == |flows| && forall i :: 0 <= i < |s| ==> s[i] == XorTest(pl, flows[i])
  {
    seq(|flows|, i requires 0 <= i < |flows| => XorTest(pl, flows[i]))
  }

  function XorBlock(pl: Plan, flows: seq<Flow>): Emitted {
    if !Resolved(pl, flows) then Refused
    else Words(Flatten(XorTests(pl, flows)) + DefaultJump(pl, flows, |flows|))
  }

  function DefaultJump(pl: Plan, flows: seq<Flow>, k: nat): seq<Instr>
    requires k <= |flows|
  {
    match DefaultFlow(flows, k) case None => [] case Some(i) => [Jump(Land(pl, flows[i]))]
  }

  // inclusive gateways

  function Precheck(f: Flow, fork: nat): seq<Instr> {
    match f.condition case None => [] case Some(c) => [LoadFlag(c.flag), BrIf(fork)]
  }

  function Prechecks(flows: seq<Flow>, fork: nat): (s: seq<seq<Instr>>)
    ensures |s| == |flows| && forall i :: 0 <= i < |s| ==> s[i] == Precheck(flows[i], fork)
  {
    seq(|flows|, i requires 0 <= i < |flows| => Precheck(flows[i], fork))
  }

  function PrecheckBlock(flows: seq<Flow>, fork: nat): seq<Instr> {
    if AlwaysLive(flows) then [] else Flatten(Prechecks(flows, fork)) + [RouteZeroMatch]
  }

  function Header(pl: Plan, f: Flow, join: nat): seq<Instr> {
    match f.condition
    case None => [Jump(Land(pl, f))]
    case Some(c) => [LoadFlag(c.flag), BrIfNot(join), Jump(Land(pl, f))]
  }

  function Headers(pl: Plan, flows: seq<Flow>, join: nat): (s: seq<seq<Instr>>)
    ensures |s| == |flows| && forall i :: 0 <= i < |s| ==> s[i] == Header(pl, flows[i], join)
  {
    seq(|flows|, i requires 0 <= i < |flows| => Header(pl, flows[i], join))
  }

  function HeaderAddr(flows: seq<Flow>, fork: nat, i: nat): nat
    requires i <= |flows|
  {
    fork + 1 + HeadersRoom(flows, i)
  }

  function HeaderAddrs(flows: seq<Flow>, fork: nat): (s: seq<nat>)
    ensures |s| == |flows| && forall i :: 0 <= i < |s| ==> s[i] == HeaderAddr(flows, fork, i)
  {
    seq(|flows|, i requires 0 <= i < |flows| => HeaderAddr(flows, fork, i))
  }

  /** The fork word stands at `fork`, after the check that some branch is live. */
  function InclusiveBlock(pl: Plan, flows: seq<Flow>, fork: nat, join: nat): Emitted {
    if !Resolved(pl, flows) then Refused
    else Words(PrecheckBlock(flows, fork) + [Fork(HeaderAddrs(flows, fork), fork)] + Flatten(Headers(pl, flows, join)))
  }

  function InclusiveFrom(pl: Plan, flows: seq<Flow>, base: nat, join: nat): Emitted {
    InclusiveBlock(pl, flows, base + PrecheckRoom(flows), join)
  }

  // multi-instance activities

  function MiBranch(taskType: nat, collection: nat, elements: seq<nat>, i: nat, join: nat): (w: seq<Instr>)
    requires i < |elements|
    ensures |w| == 6
  {
    [MiIndexLive(collection, i), BrIfNot(join), MiLoadElement(collection, i), StoreFlag(elements[i]),
     ExecNative(taskType), Jump(join)]
  }

  function MiBranches(taskType: nat, collection: nat, elements: seq<nat>, join: nat): (s: seq<seq<Instr>>)
    ensures |s| == |elements|
    ensures forall i :: 0 <= i < |s| ==> s[i] == MiBranch(taskType, collection, elements, i, join)
  {
    seq(|elements|, i requires 0 <= i < |elements| => MiBranch(taskType, collection, elements, i, join))
  }

  function MiHeaderAddrs(k: nat, fork: nat): (s: seq<nat>)
    ensures |s| == k && forall i :: 0 <= i < k ==> s[i] == fork + 1 + 6 * i
  {
    seq(k, i requires 0 <= i < k => fork + 1 + 6 * i)
  }

  function MiBlock(taskType: nat, collection: nat, elements: seq<nat>, base: nat, next: nat): seq<Instr> {
    var fork := base + 1;
    var join := fork + 1 + 6 * |elements|;
    [MiArityCheck(collection, |elements|), Fork(MiHeaderAddrs(|elements|, fork), fork)]
    + Flatten(MiBranches(taskType, collection, elements, join))
    + [Join(fork), Jump(next)]
  }

  // all nodes

  function TimerWords(spec: TimerSpec): seq<Instr> {
    match spec
    case Duration(ms) => [PushI64(ms), WaitFor]
    case Date(deadline) => [PushI64(deadline), WaitUntil]
    case Cycle(interval, _) => [PushI64(interval), WaitFor]
  }

  function JoinBlock(pairing: Option<nat>, next: Option<nat>): Emitted {
    if pairing.None? || next.None? then Refused else Words([Join(pairing.value), Jump(next.value)])
  }

  /** A trailing jump, when there is a successor. */
  function JumpOn(pl: Plan, n: nat, other: nat): seq<Instr> {
    if Successor(pl.g, n).None? then [] else [Jump(NextAddr(pl, n).Or(other))]
  }

  function Lookup(m: map<nat, nat>, n: nat): Option<nat> {
    if n in m then Some(m[n]) else None
  }

  /** The words of node `n`, placed at its address. */
  function Block(pl: Plan, n: nat): Emitted
    requires n < |pl.g.nodes| == |pl.g.flows| && n in pl.addr
  {
    var flows := pl.g.flows[n];
    match pl.g.nodes[n]
    case Start =>
      if flows == [] then Words([End]) else Words([Jump(NextAddr(pl, n).Or(pl.addr[n] + 1))])
    case EndEvent(terminate) =>
      Words((if n in pl.b.closes then [GuardNEnd] else []) + [if terminate then EndTerminate else End])
    case ServiceTask(t) => HostBlock(pl, n, ExecNative(t))
    case FfiServiceTask(t) => HostBlock(pl, n, ExecFfi(t))
    case MessageWait(m) => HostBlock(pl, n, WaitMsg(m))
    case HumanWait(m) => HostBlock(pl, n, WaitMsg(m))
    case SendTask(m) =>
      if flows != [] && NextAddr(pl, n).None? then Refused else Words([PublishMessage(m)] + JumpOn(pl, n, 0))
    case TimerWait(spec) => Words(TimerWords(spec) + JumpOn(pl, n, 0))
    case GatewayXor => XorBlock(pl, flows)
    case GatewayAnd(d) =>
      if d.Converging? then JoinBlock(Lookup(pl.forkOf, n), NextAddr(pl, n))
      else if !Resolved(pl, flows) then Refused
      else Words([Fork(seq(|flows|, i requires 0 <= i < |flows| => Land(pl, flows[i])), pl.addr[n])])
    case GatewayInclusive(d) =>
      if d.Converging? then JoinBlock(Lookup(pl.inclusiveForkOf, n), NextAddr(pl, n))
      else if n !in pl.joinOf then Refused
      else InclusiveFrom(pl, flows, pl.addr[n], pl.joinOf[n])
    case MultiInstance(t, c, elements) =>
      if NextAddr(pl, n).None? then Refused else Words(MiBlock(t, c, elements, pl.addr[n], NextAddr(pl, n).value))
    case _ => Words([])
  }

  // ---------------------------------------------------------------- sizes agree

  lemma {:induction false} ArmOrderSize(errors: seq<ErrorHost>)
    ensures |ArmOrder(errors)| == |errors|
  {
    if errors != [] {
      ArmOrderSize(errors[1..]);
    }
  }

  lemma HostFits(pl: Plan, n: nat, body: Instr)
    requires n in pl.addr && HostBlock(pl, n, body).Words?
    ensures |HostBlock(pl, n, body).words| == 2 + GuardRoom(pl.b, n)
  {
    ArmOrderSize(ErrorsOf(pl.b, n));
  }

  lemma {:induction false} XorFits(pl: Plan, flows: seq<Flow>, k: nat)
    requires k <= |flows|
    ensures |Flatten(XorTests(pl, flows)[..k])| + |DefaultJump(pl, flows, k)| <= 2 * k
  {
    if k > 0 {
      XorFits(pl, flows, k - 1);
      FlattenSnoc(XorTests(pl, flows), k - 1);
    }
  }

  lemma PrecheckFits(flows: seq<Flow>, fork: nat)
    requires forall i :: 0 <= i < |flows| ==> flows[i].condition.Some?
    ensures |Flatten(Prechecks(flows, fork))| == 2 * |flows|
  {
    var s := Prechecks(flows, fork);
    EvenOffset(s, 2, |s|);
    assert s[..|s|] == s;
  }

  lemma {:induction false} HeaderOffset(pl: Plan, flows: seq<Flow>, join: nat, i: nat)
    requires i <= |flows|
    ensures Offset(Headers(pl, flows, join), i) == HeadersRoom(flows, i)
  {
    if i > 0 {
      HeaderOffset(pl, flows, join, i - 1);
      FlattenSnoc(Headers(pl, flows, join), i - 1);
    }
  }

  lemma {:induction false} HeadersFit(pl: Plan, flows: seq<Flow>, join: nat)
    ensures |Flatten(Headers(pl, flows, join))| == HeadersRoom(flows, |flows|)
  {
    HeaderOffset(pl, flows, join, |flows|);
    assert Headers(pl, flows, join)[..|flows|] == Headers(pl, flows, join);
  }

  lemma PrecheckBlockFits(flows: seq<Flow>, fork: nat)
    ensures |PrecheckBlock(flows, fork)| == PrecheckRoom(flows)
  {
    if !AlwaysLive(flows) { PrecheckFits(flows, fork); }
  }

  lemma {:induction false} InclusiveFits(pl: Plan, flows: seq<Flow>, base: nat, join: nat)
    requires Resolved(pl, flows)
    ensures |InclusiveFrom(pl, flows, base, join).words| == PrecheckRoom(flows) + 1 + HeadersRoom(flows, |flows|)
  {
    PrecheckBlockFits(flows, base + PrecheckRoom(flows));
    HeadersFit(pl, flows, join);
  }

  lemma MiFits(taskType: nat, collection: nat, elements: seq<nat>, base: nat, next: nat)
    ensures |MiBlock(taskType, collection, elements, base, next)| == 6 * |elements| + 4
  {
    var s := MiBranches(taskType, collection, elements, base + 2 + 6 * |elements|);
    EvenOffset(s, 6, |s|);
    assert s[..|s|] == s;
  }

  /** The second pass never emits more words than the first pass kept room for. */
  lemma BlockFits(pl: Plan, n: nat)
    requires n < |pl.g.nodes| == |pl.g.flows| && n in pl.addr && Block(pl, n).Words?
    ensures |Block(pl, n).words| <= Room(pl.g, pl.b, n)
  {
    match pl.g.nodes[n]
    case ServiceTask(t) => HostFits(pl, n, ExecNative(t));
    case FfiServiceTask(t) => HostFits(pl, n, ExecFfi(t));
    case MessageWait(m) => HostFits(pl, n, WaitMsg(m));
    case HumanWait(m) => HostFits(pl, n, WaitMsg(m));
    case GatewayXor =>
      var flows := pl.g.flows[n];
      XorFits(pl, flows, |flows|);
      assert XorTests(pl, flows)[..|flows|] == XorTests(pl, flows);
    case GatewayInclusive(d) =>
      if d.Diverging? && n in pl.joinOf { InclusiveFits(pl, pl.g.flows[n], pl.addr[n], pl.joinOf[n]); }
    case MultiInstance(t, c, elements) => MiFits(t, c, elements, pl.addr[n], NextAddr(pl, n).value);
    case _ =>
  }
}
