/** What conditions on flows say, and when gateways decide them by what they say. */
module ConditionMeaning {
  import opened Options
  import opened Bytecode
  import opened Ir
  import opened TokenGame

  /** What a condition says of the value of its flag. */
  predicate Meaning(c: Condition, v: Value) {
    match c.literal
    case BoolLiteral(b) => if c.op.Neq? then v != Bool(b) else c.op.Eq? && v == Bool(b)
    case IntLiteral(i) =>
      match c.op
      case Eq => v == I64(i)
      case Neq => v != I64(i)
      case Lt => v.I64? && v.i < i
      case Gt => v.I64? && v.i > i
  }

  /** The value is of the type of the literal it is compared with. */
  predicate Typed(c: Condition, v: Value) {
    if c.literal.BoolLiteral? then v.Bool? else v.I64?
  }

  // ---------------------------------------------------------------- one condition

  /** Equality and inequality with a truth value, and "is not zero". */
  predicate Exclusive(c: Condition) {
    if c.literal.BoolLiteral? then c.op.Eq? || c.op.Neq? else c.op.Neq? && c.literal.i == 0
  }

  /** The conditions that amount to the flag being set. */
  predicate Inclusive(c: Condition) {
    if c.literal.BoolLiteral? then (c.op.Eq? && c.literal.b) || (c.op.Neq? && !c.literal.b)
    else c.op.Neq? && c.literal.i == 0
  }

  /** Values that tell a number test apart from truth. */
  lemma NumberTests(c: Condition)
    requires c.literal.IntLiteral?
    ensures (forall v: Value :: v.I64? ==> Truthy(v) == Meaning(c, v)) ==> c.op.Neq? && c.literal.i == 0
  {
    var k := c.literal.i;
    if forall v: Value :: v.I64? ==> Truthy(v) == Meaning(c, v) {
      assert Truthy(I64(k)) == Meaning(c, I64(k)) && Truthy(I64(0)) == Meaning(c, I64(0));
      assert Truthy(I64(k + 1)) == Meaning(c, I64(k + 1)) && Truthy(I64(k - 1)) == Meaning(c, I64(k - 1));
      assert Truthy(I64(k + 2)) == Meaning(c, I64(k + 2)) && Truthy(I64(k - 2)) == Meaning(c, I64(k - 2));
    }
  }

  /** Exclusive gateways decide a condition by what it says, on every value of its type, if and
      only if it is a boolean equality or inequality or says "is not zero". */
  lemma ExclusiveExact(c: Condition)
    ensures (forall v :: Typed(c, v) ==> Decided(c, v) == Meaning(c, v)) <==> Exclusive(c)
  {
    if c.literal.IntLiteral? {
      NumberTests(c);
      if forall v :: Typed(c, v) ==> Decided(c, v) == Meaning(c, v) {
        forall v: Value | v.I64? ensures Truthy(v) == Meaning(c, v) { assert Typed(c, v) &&
          Decided(c, v) == Truthy(v); }
      }
    } else if c.op.Lt? || c.op.Gt? {
      assert Typed(c, Bool(true)) && Decided(c, Bool(true)) != Meaning(c, Bool(true));
    }
  }

  /** Inclusive gateways ask only whether the flag is set. That is what the condition says, on
      every value of its type, if and only if it is one that amounts to it. */
  lemma InclusiveExact(c: Condition)
    ensures (forall v :: Typed(c, v) ==> Truthy(v) == Meaning(c, v)) <==> Inclusive(c)
  {
    if c.literal.IntLiteral? {
      NumberTests(c);
      if forall v :: Typed(c, v) ==> Truthy(v) == Meaning(c, v) {
        forall v: Value | v.I64? ensures Truthy(v) == Meaning(c, v) { assert Typed(c, v); }
      }
    } else if !Inclusive(c) {
      assert Typed(c, Bool(true)) && Truthy(Bool(true)) != Meaning(c, Bool(true));
    }
  }

  /** "Less than five" is taken to hold of seven, and an inclusive gateway takes "is false" to hold
      of a flag that is set. */
  lemma Misread()
    ensures var c := Condition(0, Lt, IntLiteral(5)); Typed(c, I64(7)) && Decided(c, I64(7)) && !Meaning(c, I64(7))
    ensures var c := Condition(0, Eq, BoolLiteral(false));
      Typed(c, Bool(true)) && Truthy(Bool(true)) && !Meaning(c, Bool(true))
  {
  }

  // ---------------------------------------------------------------- gateways

  predicate Says(f: Flow, flags: map<nat, Value>) {
    f.condition.Some? && Meaning(f.condition.value, Read(flags, f.condition.value.flag))
  }

  predicate Fitting(f: Flow, flags: map<nat, Value>) {
    f.condition.Some? ==> Typed(f.condition.value, Read(flags, f.condition.value.flag))
  }

  /** `r` is the first flow whose condition holds; if none does, the last flow without one. */
  ghost predicate FirstOf(flows: seq<Flow>, flags: map<nat, Value>, r: Option<nat>) {
    || (r.Some? && r.value < |flows| && Says(flows[r.value], flags) && forall i :: 0 <= i < r.value ==>
       !Says(flows[i], flags))
    || ((forall i :: 0 <= i < |flows| ==> !Says(flows[i], flags))
        && (r.Some? ==> r.value < |flows| && flows[r.value].condition.None? && forall i :: r.value < i < |flows| ==>
           flows[i].condition.Some?)
        && (r.None? ==> forall i :: 0 <= i < |flows| ==> flows[i].condition.Some?))
  }

  lemma {:induction false} FirstMatchSays(flows: seq<Flow>, flags: map<nat, Value>, i: nat)
    requires i <= |flows|
    requires forall k :: i <= k < |flows| && flows[k].condition.Some? ==>
      Exclusive(flows[k].condition.value) && Fitting(flows[k], flags)
    ensures var r := FirstMatch(flows, flags, i);
      && (forall k :: i <= k < (if r.Some? then r.value else |flows|) ==> !Says(flows[k], flags))
      && (r.Some? ==> Says(flows[r.value], flags))
    decreases |flows| - i
  {
    if i < |flows| {
      if flows[i].condition.Some? { ExclusiveExact(flows[i].condition.value); }
      FirstMatchSays(flows, flags, i + 1);
    }
  }

  lemma {:induction false} DefaultIsLast(flows: seq<Flow>, k: nat)
    requires k <= |flows|
    ensures var r := DefaultFlow(flows, k);
      && (r.Some? ==> r.value < k && flows[r.value].condition.None? && forall i :: r.value < i < k ==>
         flows[i].condition.Some?)
      && (r.None? ==> forall i :: 0 <= i < k ==> flows[i].condition.Some?)
    decreases k
  {
    if k > 0 { DefaultIsLast(flows, k - 1); }
  }

  /** With boolean or not-zero tests on flags of their types, an exclusive gateway takes the
      first flow whose condition holds, else its default. */
  lemma ChosenIsFirst(flows: seq<Flow>, flags: map<nat, Value>)
    requires forall k :: 0 <= k < |flows| && flows[k].condition.Some? ==>
      Exclusive(flows[k].condition.value) && Fitting(flows[k], flags)
    ensures FirstOf(flows, flags, Chosen(flows, flags))
  {
    FirstMatchSays(flows, flags, 0);
    DefaultIsLast(flows, |flows|);
  }

  /** A token at such a gateway follows that flow. */
  lemma ExclusiveFollows(gr: Graph, joins: map<nat, nat>, g: Game, f: nat, n: nat, k: nat)
    requires |gr.nodes| == |gr.flows| && n < |gr.nodes| && gr.nodes[n].GatewayXor? && f in g.tokens &&
      g.tokens[f].place == Enter(n)
    requires forall i :: 0 <= i < |gr.flows[n]| && gr.flows[n][i].condition.Some? ==>
      Exclusive(gr.flows[n][i].condition.value) && Fitting(gr.flows[n][i], g.flags)
    requires k < |gr.flows[n]| && Says(gr.flows[n][k], g.flags) && forall i :: 0 <= i < k ==>
      !Says(gr.flows[n][i], g.flags)
    ensures Advance(gr, joins, g, f) == Then(Move(g, f, Enter(gr.flows[n][k].target)))
  {
    ChosenIsFirst(gr.flows[n], g.flags);
  }

  /** A branch of an inclusive gateway is taken exactly when its condition holds, for the
      conditions that such a gateway decides by what they say. */
  lemma InclusiveFollows(gr: Graph, joins: map<nat, nat>, g: Game, f: nat, n: nat, i: nat)
    requires |gr.nodes| == |gr.flows| && n < |gr.nodes| && n in joins && i < |gr.flows[n]|
    requires f in g.tokens && g.tokens[f].place == Branch(n, i)
    requires gr.flows[n][i].condition.Some? ==>
      Inclusive(gr.flows[n][i].condition.value) && Fitting(gr.flows[n][i], g.flags)
    ensures var taken := gr.flows[n][i].condition.None? || Says(gr.flows[n][i], g.flags);
      Advance(gr, joins, g, f) == Then(Move(g, f, Enter(if taken then gr.flows[n][i].target else joins[n])))
  {
    if gr.flows[n][i].condition.Some? { InclusiveExact(gr.flows[n][i].condition.value); }
  }
}
