/** The workflow graph between the front ends and the bytecode. */
module Ir {
  import opened Options
  import opened Graphs
  import opened Bytecode

  datatype Direction = Diverging | Converging

  datatype TimerSpec = Duration(ms: nat) | Date(deadlineMs: nat) | Cycle(intervalMs: nat, maxFires: nat)

  datatype ConditionOp = Eq | Neq | Lt | Gt

  datatype Literal = BoolLiteral(b: bool) | IntLiteral(i: int)

  /** A condition on a sequence flow. Flags are named by their interned key. */
  datatype Condition = Condition(flag: nat, op: ConditionOp, literal: Literal)

  /** One BPMN element. A boundary event names its host by index, and a multi-instance
      activity carries the flag key of each of its element slots. */
  datatype Node =
    | Start
    | EndEvent(terminate: bool)
    | ServiceTask(taskType: nat)
    | FfiServiceTask(templateId: nat)
    | SendTask(message: nat)
    | TimerWait(spec: TimerSpec)
    | MessageWait(message: nat)
    | HumanWait(message: nat)
    | GatewayXor
    | GatewayAnd(direction: Direction)
    | GatewayInclusive(direction: Direction)
    | MultiInstance(taskType: nat, collection: nat, elements: seq<nat>)
    | BoundaryTimer(host: nat, spec: TimerSpec, interrupting: bool)
    | BoundaryError(host: nat, code: ErrorCode)
    | DataObject

  datatype Flow = Flow(target: nat, condition: Option<Condition>)

  /** `flows[n]` lists the outgoing sequence flows of node `n` in iteration order. */
  datatype Graph = Graph(nodes: seq<Node>, flows: seq<seq<Flow>>)

  ghost predicate WellFormed(g: Graph) {
    && |g.nodes| == |g.flows|
    && forall n, i :: 0 <= n < |g.flows| && 0 <= i < |g.flows[n]| ==> g.flows[n][i].target < |g.nodes|
  }

  function Targets(flows: seq<Flow>): (t: seq<nat>)
    ensures |t| == |flows| && forall i :: 0 <= i < |t| ==> t[i] == flows[i].target
  {
    seq(|flows|, i requires 0 <= i < |flows| => flows[i].target)
  }

  /** The graph as seen by the structural passes. */
  function Shape(g: Graph): (d: Digraph)
    ensures |d| == |g.flows| && forall n :: 0 <= n < |d| ==> d[n] == Targets(g.flows[n])
  {
    seq(|g.flows|, n requires 0 <= n < |g.flows| => Targets(g.flows[n]))
  }

  lemma ShapeClosed(g: Graph)
    requires WellFormed(g)
    ensures Closed(Shape(g))
  {
  }

  /** The first successor, which is the only one a task follows. */
  function Successor(g: Graph, n: nat): Option<nat> {
    if n < |g.flows| && g.flows[n] != [] then Some(g.flows[n][0].target) else None
  }

  /** The default flow of an exclusive gateway: the last of the first `k` without a condition. */
  function DefaultFlow(flows: seq<Flow>, k: nat): (r: Option<nat>)
    requires k <= |flows|
    ensures r.Some? ==> r.value < k && flows[r.value].condition.None?
    ensures r.None? ==> forall i :: 0 <= i < k ==> flows[i].condition.Some?
  {
    if k == 0 then None
    else if flows[k - 1].condition.None? then Some(k - 1)
    else DefaultFlow(flows, k - 1)
  }

  predicate Forks(node: Node) {
    (node.GatewayAnd? || node.GatewayInclusive?) && node.direction.Diverging?
  }

  predicate Joins(node: Node) {
    (node.GatewayAnd? || node.GatewayInclusive?) && node.direction.Converging?
  }

  /** Tasks and waits whose body a boundary event may guard. */
  predicate Hosts(node: Node) {
    node.ServiceTask? || node.FfiServiceTask? || node.MessageWait? || node.HumanWait?
  }

  /** Elements that only annotate others and take no bytecode. */
  predicate Structural(node: Node) {
    node.BoundaryTimer? || node.BoundaryError? || node.DataObject?
  }
}
