/** The instruction words that graph lowering emits, operand values and static
    control flow. Addresses are indices into the program. */
module Bytecode {
  import opened Graphs

  /** An operand or flag value. */
  datatype Value = Bool(b: bool) | I64(i: int) | Str(id: nat) | Ref(id: nat) | Array(items: seq<Value>)

  predicate Truthy(v: Value) {
    match v
    case Bool(b) => b
    case I64(i) => i != 0
    case Str(id) => id != 0
    case Ref(id) => id != 0
    case Array(items) => items != []
  }

  datatype ErrorCode = AnyError | Code(code: string)

  datatype Instr =
    | Jump(target: nat)
    | BrIf(target: nat)
    | BrIfNot(target: nat)
    | PushI64(value: int)
    | LoadFlag(key: nat)
    | StoreFlag(key: nat)
    | ExecNative(taskType: nat)
    | ExecFfi(templateId: nat)
    | PublishMessage(name: nat)
    | WaitFor
    | WaitUntil
    | WaitMsg(name: nat)
    | MiArityCheck(collection: nat, max: nat)
    | MiIndexLive(collection: nat, index: nat)
    | MiLoadElement(collection: nat, index: nat)
    | RouteZeroMatch
    | Fork(targets: seq<nat>, pairing: nat)
    | Join(pairing: nat)
    | Guard(handler: nat)
    | GuardEnd
    | GuardN(handler: nat)
    | GuardNEnd
    | GuardArmTimer
    | GuardTimerCycle(maxFires: nat)
    | GuardArmError(errorCode: ErrorCode, errorHandler: nat)
    | End
    | EndTerminate

  type Program = seq<Instr>

  /** The next address, when there is one. */
  function Next(p: Program, a: nat): seq<nat> {
    if a + 1 < |p| then [a + 1] else []
  }

  /** Static successors of the word at `a`. */
  function Successors(p: Program, a: nat): seq<nat>
    requires a < |p|
  {
    match p[a]
    case Jump(t) => [t]
    case BrIf(t) => [t] + Next(p, a)
    case BrIfNot(t) => [t] + Next(p, a)
    case Fork(targets, _) => targets
    case Guard(h) => [h] + Next(p, a)
    case GuardN(h) => [h] + Next(p, a)
    case GuardArmError(_, h) => [h] + Next(p, a)
    case RouteZeroMatch => []
    case End => []
    case EndTerminate => []
    case _ => Next(p, a)
  }

  function FlowGraph(p: Program): (g: Digraph)
    ensures |g| == |p|
    ensures forall a :: 0 <= a < |p| ==> g[a] == Successors(p, a)
  {
    seq(|p|, a requires 0 <= a < |p| => Successors(p, a))
  }

  /** Words without a continuation. */
  predicate Terminal(i: Instr) {
    i.End? || i.EndTerminate? || i.RouteZeroMatch?
  }
}
