/** The fibre machine: one instance's fibres, its concurrency table and flags,
    advanced one word, or one outside signal, at a time. A tick of the kernel is
    a run of words of one fibre, so every tick sequence is a run here. */
module Kernel {
  import opened Graphs
  import opened Bytecode

  datatype Wait = Running | Parked | AtBarrier(handle: nat) | OnIncident

  datatype Fiber = Fiber(pc: nat, stack: seq<Value>, control: seq<nat>, wait: Wait)

  datatype RecordKind = Barrier | GuardRecord

  datatype Route = Route(code: ErrorCode, target: nat)

  /** A concurrency record. `members` are the fibres inside it. */
  datatype Record = Record(kind: RecordKind, members: set<nat>, armed: bool, arity: nat, count: nat,
                           handler: nat, routes: seq<Route>)

  datatype Status = Active | Incidented | Completed | Terminated

  datatype State = State(fibers: map<nat, Fiber>, table: map<nat, Record>, flags: map<nat, Value>,
                         status: Status, nextId: nat)

  datatype Failure = PcOutOfBounds | OperandUnderflow | BadOperand | ControlUnderflow | UnknownBarrier | NoOpenGuard |
    NotModelled

  datatype Outcome = Ok(state: State) | Err(failure: Failure)

  function Initial(flags: map<nat, Value>): State {
    State(map[0 := Fiber(0, [], [], Running)], map[], flags, Active, 1)
  }

  /** The scopes a fibre is inside, counting the barrier it waits at. */
  function Inside(f: Fiber): seq<nat> {
    if f.wait.AtBarrier? then f.control + [f.wait.handle] else f.control
  }

  predicate Runnable(s: State, f: nat) {
    s.status.Active? && f in s.fibers && s.fibers[f].wait.Running?
  }

  function Put(s: State, f: nat, fiber: Fiber): State {
    s.(fibers := s.fibers[f := fiber])
  }

  function Goto(s: State, f: nat, pc: nat): State
    requires f in s.fibers
  {
    Put(s, f, s.fibers[f].(pc := pc))
  }

  function Flag(s: State, key: nat): Value {
    if key in s.flags then s.flags[key] else Bool(false)
  }

  function CollectionLength(s: State, key: nat): nat {
    if Flag(s, key).Array? then |Flag(s, key).items| else 0
  }

  // ---------------------------------------------------------------- fork and join

  /** The first `k` new fibres: one per target, inheriting the stack with the barrier on top. */
  function Children(targets: seq<nat>, control: seq<nat>, h: nat, k: nat): (m: map<nat, Fiber>)
    requires k <= |targets|
  {
    map x | x in Following(h, k) :: Fiber(targets[x - h - 1], [], control + [h], Running)
  }

  /** Every enclosing scope loses the forking fibre and gains its children. */
  function ForkState(s: State, f: nat, targets: seq<nat>): State
    requires f in s.fibers
  {
    var h := s.nextId;
    var fiber := s.fibers[f];
    var kids := Children(targets, fiber.control, h, |targets|);
    var outer := map k | k in s.table ::
      if k in fiber.control then s.table[k].(members := s.table[k].members - {f} + kids.Keys) else s.table[k];
    s.(fibers := (s.fibers - {f}) + kids,
       table := outer[h := Record(Barrier, kids.Keys, true, |targets|, |targets|, 0, [])],
       nextId := h + |targets| + 1)
  }

  /** Not the last arrival: the fibre waits, its handle moving into its wait state. */
  function ArriveState(s: State, f: nat, h: nat): State
    requires f in s.fibers && |s.fibers[f].control| > 0 && h in s.table && s.table[h].count > 0
  {
    var fiber := s.fibers[f];
    s.(fibers := s.fibers[f := fiber.(control := fiber.control[..|fiber.control| - 1], wait := AtBarrier(h))],
       table := s.table[h := s.table[h].(count := s.table[h].count - 1)])
  }

  /** A table without the dead fibres, each dropped from the scopes on its own stack. */
  function Bury(s: State, dead: set<nat>): map<nat, Record> {
    map k | k in s.table ::
      s.table[k].(members := set x | x in s.table[k].members &&
        !(x in dead && x in s.fibers && k in s.fibers[x].control))
  }

  /** The last arrival: the waiting members die, the barrier retires, the fibre goes on. */
  function ReleaseState(s: State, f: nat, h: nat): State
    requires f in s.fibers && |s.fibers[f].control| > 0 && h in s.table
  {
    var fiber := s.fibers[f];
    var dead := s.table[h].members - {f};
    s.(fibers := (s.fibers - dead)[f := fiber.(pc := fiber.pc + 1, control := fiber.control[..|fiber.control| - 1])],
       table := Bury(s, dead)[h := s.table[h].(armed := false)])
  }

  function JoinState(s: State, f: nat): Outcome
    requires f in s.fibers
  {
    var control := s.fibers[f].control;
    if |control| == 0 then Err(ControlUnderflow)
    else
      var h := control[|control| - 1];
      if h !in s.table then Err(UnknownBarrier)
      else if s.table[h].count <= 1 then Ok(ReleaseState(s, f, h))
      else Ok(ArriveState(s, f, h))
  }

  // ---------------------------------------------------------------- guards

  function GuardState(s: State, f: nat, handler: nat): State
    requires f in s.fibers
  {
    var h := s.nextId;
    var fiber := s.fibers[f];
    s.(fibers := s.fibers[f := fiber.(pc := fiber.pc + 1, control := fiber.control + [h])],
       table := s.table[h := Record(GuardRecord, {f}, true, 0, 0, handler, [])],
       nextId := h + 1)
  }

  function GuardEndState(s: State, f: nat): Outcome
    requires f in s.fibers
  {
    var fiber := s.fibers[f];
    if |fiber.control| == 0 then Err(ControlUnderflow)
    else
      var h := fiber.control[|fiber.control| - 1];
      if h !in s.table then Err(NoOpenGuard)
      else Ok(s.(fibers := s.fibers[f := fiber.(pc := fiber.pc + 1, control := fiber.control[..|fiber.control| - 1])],
                 table := s.table[h := s.table[h].(armed := false)]))
  }

  /** A specific code goes before the catch-all, the catch-all last. */
  function InsertRoute(routes: seq<Route>, r: Route): seq<Route> {
    if r.code.AnyError? then routes + [r]
    else var k := CatchAllPosition(routes); routes[..k] + [r] + routes[k..]
  }

  function CatchAllPosition(routes: seq<Route>): (k: nat)
    ensures k <= |routes|
    ensures forall i :: 0 <= i < k ==> !routes[i].code.AnyError?
    ensures k < |routes| ==> routes[k].code.AnyError?
  {
    if routes == [] then 0
    else if routes[0].code.AnyError? then 0
    else 1 + CatchAllPosition(routes[1..])
  }

  function ArmErrorState(s: State, f: nat, r: Route): Outcome
    requires f in s.fibers
  {
    var fiber := s.fibers[f];
    if |fiber.control| == 0 then Err(NoOpenGuard)
    else
      var h := fiber.control[|fiber.control| - 1];
      if h !in s.table || !s.table[h].armed || !s.table[h].kind.GuardRecord? then Err(NoOpenGuard)
      else
        Ok(Goto(s.(table := s.table[h := s.table[h].(routes := InsertRoute(s.table[h].routes, r))]), f, fiber.pc + 1))
  }

  /** The first route that takes the code. */
  function MatchRoute(routes: seq<Route>, code: string): (r: seq<Route>)
    ensures |r| <= 1
    ensures r != [] ==> r[0] in routes
  {
    if routes == [] then []
    else if routes[0].code.AnyError? || routes[0].code == Code(code) then [routes[0]]
    else MatchRoute(routes[1..], code)
  }

  ghost predicate CanTrigger(s: State, g: nat, target: nat) {
    && s.status.Active?
    && g in s.table && s.table[g].kind.GuardRecord? && s.table[g].armed
    && (target == s.table[g].handler || exists code :: RoutesTo(s.table[g].routes, code, target))
  }

  predicate RoutesTo(routes: seq<Route>, code: string, target: nat) {
    MatchRoute(routes, code) != [] && MatchRoute(routes, code)[0].target == target
  }

  /** The stack below a scope, read off any fibre that is inside it. */
  ghost function StackBelow(s: State, g: nat): seq<nat> {
    if exists x, i :: x in s.fibers && 0 <= i < |s.fibers[x].control| && s.fibers[x].control[i] == g then
      var x, i :| x in s.fibers && 0 <= i < |s.fibers[x].control| && s.fibers[x].control[i] == g;
      s.fibers[x].control[..i]
    else []
  }

  function Doomed(s: State, g: nat): (d: set<nat>)
    ensures forall x :: x in d <==> x in s.fibers && g in Inside(s.fibers[x])
  {
    set x | x in s.fibers && g in Inside(s.fibers[x])
  }

  /** The scopes that fall with `g`: those above it on some stack. */
  ghost predicate Falls(s: State, g: nat, k: nat) {
    k == g || exists x, i, j :: x in s.fibers && 0 <= i < j < |Inside(s.fibers[x])|
                             && Inside(s.fibers[x])[i] == g && Inside(s.fibers[x])[j] == k
  }

  /** An interrupting guard fires: everything inside it dies and its scopes retire;
      a handler fibre starts with the stack from before the guard. */
  ghost function TriggerState(s: State, g: nat, target: nat): State {
    var below := StackBelow(s, g);
    var dead := Doomed(s, g);
    var id := s.nextId;
    var buried := Bury(s, dead);
    s.(fibers := (s.fibers - dead)[id := Fiber(target, [], below, Running)],
       table := map k | k in s.table ::
         if Falls(s, g, k) then s.table[k].(armed := false)
         else if k in below then buried[k].(members := buried[k].members + {id})
         else buried[k],
       nextId := id + 1)
  }

  // ---------------------------------------------------------------- one word

  function RetireAll(table: map<nat, Record>): map<nat, Record> {
    map k | k in table :: table[k].(armed := false)
  }

  function TerminateState(s: State): State {
    s.(fibers := map[], table := RetireAll(s.table), status := Terminated)
  }

  function Branch(s: State, f: nat, target: nat, onTrue: bool): Outcome
    requires f in s.fibers
  {
    var fiber := s.fibers[f];
    if |fiber.stack| == 0 then Err(OperandUnderflow)
    else
      var top := fiber.stack[|fiber.stack| - 1];
      Ok(Put(s, f, fiber.(stack := fiber.stack[..|fiber.stack| - 1],
                          pc := if Truthy(top) == onTrue then target else fiber.pc + 1)))
  }

  function Push(s: State, f: nat, v: Value): State
    requires f in s.fibers
  {
    Put(s, f, s.fibers[f].(stack := s.fibers[f].stack + [v], pc := s.fibers[f].pc + 1))
  }

  function Park(s: State, f: nat): State
    requires f in s.fibers
  {
    Put(s, f, s.fibers[f].(wait := Parked))
  }

  function EndState(s: State, f: nat): State {
    var rest := s.fibers - {f};
    s.(fibers := rest, status := if rest == map[] then Completed else s.status)
  }

  function Exec(p: Program, s: State, f: nat): Outcome
    requires f in s.fibers
  {
    var fiber := s.fibers[f];
    if fiber.pc >= |p| then Err(PcOutOfBounds)
    else match p[fiber.pc]
    case Jump(t) => Ok(Goto(s, f, t))
    case BrIf(t) => Branch(s, f, t, true)
    case BrIfNot(t) => Branch(s, f, t, false)
    case PushI64(v) => Ok(Push(s, f, I64(v)))
    case LoadFlag(k) => Ok(Push(s, f, Flag(s, k)))
    case StoreFlag(k) =>
      if |fiber.stack| == 0 then Err(OperandUnderflow)
      else
        var top := fiber.stack[|fiber.stack| - 1];
        Ok(Put(s.(flags := s.flags[k := top]), f,
               fiber.(stack := fiber.stack[..|fiber.stack| - 1], pc := fiber.pc + 1)))
    case MiArityCheck(c, max) =>
      if CollectionLength(s, c) > max then Err(BadOperand) else Ok(Goto(s, f, fiber.pc + 1))
    case MiIndexLive(c, i) => Ok(Push(s, f, Bool(i < CollectionLength(s, c))))
    case MiLoadElement(c, i) =>
      if i < CollectionLength(s, c) then Ok(Push(s, f, Flag(s, c).items[i])) else Err(BadOperand)
    case PublishMessage(_) => Ok(Goto(s, f, fiber.pc + 1))
    case ExecNative(_) => Ok(Park(s, f))
    case ExecFfi(_) => Ok(Park(s, f))
    case WaitMsg(_) => Ok(Park(s, f))
    case WaitFor => PopAndPark(s, f)
    case WaitUntil => PopAndPark(s, f)
    case RouteZeroMatch => Ok(Put(s, f, fiber.(wait := OnIncident)).(status := Incidented))
    case Fork(targets, _) => Ok(ForkState(s, f, targets))
    case Join(_) => JoinState(s, f)
    case Guard(h) => Ok(GuardState(s, f, h))
    case GuardEnd => GuardEndState(s, f)
    case GuardArmTimer =>
      if |fiber.stack| == 0 then Err(OperandUnderflow)
      else if !fiber.stack[|fiber.stack| - 1].I64? then Err(BadOperand)
      else if |fiber.control| == 0 then Err(NoOpenGuard)
      else Ok(Put(s, f, fiber.(stack := fiber.stack[..|fiber.stack| - 1], pc := fiber.pc + 1)))
    case GuardArmError(code, h) => ArmErrorState(s, f, Route(code, h))
    case End => Ok(EndState(s, f))
    case EndTerminate => Ok(TerminateState(s))
    case _ => Err(NotModelled)
  }

  function PopAndPark(s: State, f: nat): Outcome
    requires f in s.fibers
  {
    var fiber := s.fibers[f];
    if |fiber.stack| == 0 then Err(OperandUnderflow)
    else if !fiber.stack[|fiber.stack| - 1].I64? then Err(BadOperand)
    else Ok(Put(s, f, fiber.(stack := fiber.stack[..|fiber.stack| - 1], wait := Parked)))
  }

  /** A job, timer, message or call completes: the fibre resumes one word on, with new flags. */
  function ResumeState(s: State, f: nat, flags: map<nat, Value>): State
    requires f in s.fibers
  {
    Put(s, f, s.fibers[f].(pc := s.fibers[f].pc + 1, wait := Running)).(flags := flags)
  }

  ghost predicate Steps(p: Program, s: State, s': State) {
    || (exists f :: Runnable(s, f) && Exec(p, s, f) == Ok(s'))
    || (exists f, flags ::
          s.status.Active? && f in s.fibers && s.fibers[f].wait.Parked? && s' == ResumeState(s, f, flags))
    || (exists g, target :: CanTrigger(s, g, target) && s' == TriggerState(s, g, target))
  }

  ghost predicate StepsAt(p: Program, run: seq<State>, i: nat) {
    i + 1 < |run| ==> Steps(p, run[i], run[i + 1])
  }

  /** A run: from an initial state, each state from the one before. */
  ghost predicate IsRun(p: Program, run: seq<State>) {
    && |run| > 0
    && (exists flags :: run[0] == Initial(flags))
    && forall i: nat {:trigger StepsAt(p, run, i)} :: StepsAt(p, run, i)
  }

  ghost predicate Reachable(p: Program, s: State) {
    exists run :: IsRun(p, run) && run[|run| - 1] == s
  }

  lemma StartReachable(p: Program, flags: map<nat, Value>)
    ensures Reachable(p, Initial(flags))
  {
    assert IsRun(p, [Initial(flags)]);
  }

  lemma Onward(p: Program, s: State, s': State)
    requires Reachable(p, s) && Steps(p, s, s')
    ensures Reachable(p, s')
  {
    var run :| IsRun(p, run) && run[|run| - 1] == s;
    var longer := run + [s'];
    forall i: nat ensures StepsAt(p, longer, i) { assert StepsAt(p, run, i); }
    assert IsRun(p, longer) && longer[|longer| - 1] == s';
  }
}
