/** The meaning of a workflow graph as a game with tokens. A token carries the fork
    instances it is inside; a join lets one token through once every token of its fork
    instance has come, without any counting. */
module TokenGame {
  import opened Options
  import opened Graphs
  import opened Bytecode
  import opened Ir

  datatype Place =
    | Enter(n: nat)
    | Working(n: nat)
    | Done(n: nat)
    | Branch(n: nat, i: nat)
    | Slot(n: nat, i: nat)
    | SlotWorking(n: nat, i: nat)
    | SlotDone(n: nat, i: nat)
    | Gather(n: nat)
    | Arrived(n: nat, instance: nat)
    | Stalled(n: nat)

  datatype Marker = Marker(place: Place, scopes: seq<nat>)

  datatype Phase = Playing | Halted | Finished | Stopped

  datatype Game = Game(tokens: map<nat, Marker>, flags: map<nat, Value>, phase: Phase, nextId: nat)

  /** What the graph says about one move: it can be made, or it is refused. */
  datatype Play = Then(game: Game) | Refusal

  function Opening(start: nat, flags: map<nat, Value>): Game {
    Game(map[0 := Marker(Enter(start), [])], flags, Playing, 1)
  }

  function Read(flags: map<nat, Value>, key: nat): Value {
    if key in flags then flags[key] else Bool(false)
  }

  function Items(flags: map<nat, Value>, key: nat): seq<Value> {
    if Read(flags, key).Array? then Read(flags, key).items else []
  }

  // ---------------------------------------------------------------- conditions

  /** How it is decided: boolean tests read the flag as a truth value, others ask for truth. */
  predicate Decided(c: Condition, v: Value) {
    if c.literal.BoolLiteral? && ((c.op.Eq? && !c.literal.b) || (c.op.Neq? && c.literal.b)) then !Truthy(v)
      else Truthy(v)
  }

  predicate Live(f: Flow, flags: map<nat, Value>) {
    f.condition.None? || Truthy(Read(flags, f.condition.value.flag))
  }

  /** The first conditional flow from `i` on whose test is met. */
  function FirstMatch(flows: seq<Flow>, flags: map<nat, Value>, i: nat): (r: Option<nat>)
    requires i <= |flows|
    ensures r.Some? ==> i <= r.value < |flows| && flows[r.value].condition.Some?
    decreases |flows| - i
  {
    if i == |flows| then None
    else if flows[i].condition.Some? &&
      Decided(flows[i].condition.value, Read(flags, flows[i].condition.value.flag)) then Some(i)
    else FirstMatch(flows, flags, i + 1)
  }

  /** The flow an exclusive gateway takes. */
  function Chosen(flows: seq<Flow>, flags: map<nat, Value>): (r: Option<nat>)
    ensures r.Some? ==> r.value < |flows|
  {
    var m := FirstMatch(flows, flags, 0);
    if m.Some? then m else DefaultFlow(flows, |flows|)
  }

  // ---------------------------------------------------------------- moves

  function Put(g: Game, f: nat, m: Marker): Game {
    g.(tokens := g.tokens[f := m])
  }

  function Move(g: Game, f: nat, place: Place): Game
    requires f in g.tokens
  {
    Put(g, f, g.tokens[f].(place := place))
  }

  /** The first `k` tokens of a new fork instance `h`. */
  function Spawn(places: seq<Place>, scopes: seq<nat>, h: nat, k: nat): (m: map<nat, Marker>)
    requires k <= |places|
  {
    map x | x in Following(h, k) :: Marker(places[x - h - 1], scopes + [h])
  }

  function Split(g: Game, f: nat, places: seq<Place>): Game
    requires f in g.tokens
  {
    g.(tokens := (g.tokens - {f}) + Spawn(places, g.tokens[f].scopes, g.nextId, |places|),
       nextId := g.nextId + |places| + 1)
  }

  /** The fork instances a token is inside, counting the one it has arrived for. */
  function Inside(m: Marker): seq<nat> {
    if m.place.Arrived? then m.scopes + [m.place.instance] else m.scopes
  }

  /** The other tokens of fork instance `h`. */
  function Others(g: Game, f: nat, h: nat): set<nat> {
    set x | x in g.tokens && x != f && h in Inside(g.tokens[x])
  }

  /** A token comes to the join of its innermost fork instance. */
  function Meet(g: Game, f: nat, join: nat, after: Place): Play
    requires f in g.tokens
  {
    var scopes := g.tokens[f].scopes;
    if scopes == [] then Refusal
    else
      var h, rest := scopes[|scopes| - 1], scopes[..|scopes| - 1];
      if forall x :: x in Others(g, f, h) ==> g.tokens[x].place.Arrived? && g.tokens[x].place.instance == h
      then Then(g.(tokens := (g.tokens - Others(g, f, h))[f := Marker(after, rest)]))
      else Then(Put(g, f, Marker(Arrived(join, h), rest)))
  }

  function Remove(g: Game, f: nat): Game {
    var rest := g.tokens - {f};
    g.(tokens := rest, phase := if rest == map[] then Finished else g.phase)
  }

  function Follow(gr: Graph, g: Game, f: nat, n: nat): Play
    requires f in g.tokens
  {
    if Successor(gr, n).None? then Refusal else Then(Move(g, f, Enter(Successor(gr, n).value)))
  }

  function EnterPlaces(flows: seq<Flow>): (s: seq<Place>)
    ensures |s| == |flows| && forall i :: 0 <= i < |s| ==> s[i] == Enter(flows[i].target)
  {
    seq(|flows|, i requires 0 <= i < |flows| => Enter(flows[i].target))
  }

  function BranchPlaces(n: nat, k: nat): (s: seq<Place>)
    ensures |s| == k && forall i :: 0 <= i < k ==> s[i] == Branch(n, i)
  {
    seq(k, i requires 0 <= i < k => Branch(n, i))
  }

  function SlotPlaces(n: nat, k: nat): (s: seq<Place>)
    ensures |s| == k && forall i :: 0 <= i < k ==> s[i] == Slot(n, i)
  {
    seq(k, i requires 0 <= i < k => Slot(n, i))
  }

  /** A token is at the door of node `n`. */
  function Visit(gr: Graph, g: Game, f: nat, n: nat): Play
    requires f in g.tokens && n < |gr.nodes| == |gr.flows|
  {
    var flows := gr.flows[n];
    match gr.nodes[n]
    case Start => Follow(gr, g, f, n)
    case SendTask(_) => Follow(gr, g, f, n)
    case EndEvent(terminate) => Then(if terminate then g.(tokens := map[], phase := Stopped) else Remove(g, f))
    case ServiceTask(_) => Then(Move(g, f, Working(n)))
    case FfiServiceTask(_) => Then(Move(g, f, Working(n)))
    case MessageWait(_) => Then(Move(g, f, Working(n)))
    case HumanWait(_) => Then(Move(g, f, Working(n)))
    case TimerWait(_) => Then(Move(g, f, Working(n)))
    case GatewayXor =>
      var c := Chosen(flows, g.flags);
      if c.Some? then Then(Move(g, f, Enter(flows[c.value].target))) else Refusal
    case GatewayAnd(d) =>
      if d.Diverging? then Then(Split(g, f, EnterPlaces(flows)))
      else if Successor(gr, n).None? then Refusal else Meet(g, f, n, Enter(Successor(gr, n).value))
    case GatewayInclusive(d) =>
      if d.Converging? then (if Successor(gr, n).None? then Refusal else Meet(g, f, n, Enter(Successor(gr, n).value)))
      else if exists i :: 0 <= i < |flows| && Live(flows[i], g.flags) then Then(Split(g, f, BranchPlaces(n, |flows|)))
      else Then(Move(g, f, Stalled(n)).(phase := Halted))
    case MultiInstance(_, c, elements) =>
      if |Items(g.flags, c)| > |elements| then Refusal else Then(Split(g, f, SlotPlaces(n, |elements|)))
    case _ => Refusal
  }

  /** One move of token `f`. `joins` names the join of each inclusive fork. */
  function Advance(gr: Graph, joins: map<nat, nat>, g: Game, f: nat): Play
    requires f in g.tokens && |gr.nodes| == |gr.flows|
  {
    match g.tokens[f].place
    case Enter(n) => if n < |gr.nodes| then Visit(gr, g, f, n) else Refusal
    case Done(n) => Follow(gr, g, f, n)
    case Branch(n, i) =>
      if n >= |gr.nodes| || i >= |gr.flows[n]| || n !in joins then Refusal
      else if Live(gr.flows[n][i], g.flags) then Then(Move(g, f, Enter(gr.flows[n][i].target)))
      else Then(Move(g, f, Enter(joins[n])))
    case Slot(n, i) =>
      if n >= |gr.nodes| || !gr.nodes[n].MultiInstance? || i >= |gr.nodes[n].elements| then Refusal
      else
        var items := Items(g.flags, gr.nodes[n].collection);
        if i < |items| then Then(Move(g.(flags := g.flags[gr.nodes[n].elements[i] := items[i]]), f, SlotWorking(n, i)))
        else Then(Move(g, f, Gather(n)))
    case SlotDone(n, _) => Then(Move(g, f, Gather(n)))
    case Gather(n) => if Successor(gr, n).None? then Refusal else Meet(g, f, n, Enter(Successor(gr, n).value))
    case _ => Refusal
  }

  /** The outside finishes the work of token `f` and may set flags. */
  function Finish(g: Game, f: nat, flags: map<nat, Value>): Play
    requires f in g.tokens
  {
    match g.tokens[f].place
    case Working(n) => Then(Move(g.(flags := flags), f, Done(n)))
    case SlotWorking(n, i) => Then(Move(g.(flags := flags), f, SlotDone(n, i)))
    case _ => Refusal
  }

  predicate Movable(m: Marker) {
    !m.place.Working? && !m.place.SlotWorking? && !m.place.Arrived? && !m.place.Stalled?
  }

  ghost predicate Plays(gr: Graph, joins: map<nat, nat>, g: Game, g': Game)
    requires |gr.nodes| == |gr.flows|
  {
    && g.phase.Playing?
    && ((exists f :: f in g.tokens && Movable(g.tokens[f]) && Advance(gr, joins, g, f) == Then(g'))
        || (exists f, flags :: f in g.tokens && Finish(g, f, flags) == Then(g')))
  }

  ghost predicate IsPlay(gr: Graph, joins: map<nat, nat>, start: nat, play: seq<Game>)
    requires |gr.nodes| == |gr.flows|
  {
    && |play| > 0 && (exists flags :: play[0] == Opening(start, flags))
    && forall i, j :: 0 <= i < j < |play| && j == i + 1 ==> Plays(gr, joins, play[i], play[j])
  }
  // ---------------------------------------------------------------- turns

  /** Token `f` moves from one game to the next. */
  ghost predicate MovesAt(gr: Graph, joins: map<nat, nat>, f: nat, moves: seq<Game>, i: nat)
    requires |gr.nodes| == |gr.flows|
  {
    i + 1 < |moves| ==>
      && CanGo(moves[i], f) && Advance(gr, joins, moves[i], f) == Then(moves[i + 1])
  }

  /** It is `f`'s to move. */
  predicate CanGo(g: Game, f: nat) {
    g.phase.Playing? && f in g.tokens && Movable(g.tokens[f])
  }

  /** A turn of token `f`: it moves on until it has to wait or is gone. */
  ghost predicate IsTurn(gr: Graph, joins: map<nat, nat>, f: nat, g: Game, moves: seq<Game>, g': Game)
    requires |gr.nodes| == |gr.flows|
  {
    && |moves| > 1 && moves[0] == g && moves[|moves| - 1] == g' && !CanGo(g', f)
    && forall i: nat {:trigger MovesAt(gr, joins, f, moves, i)} :: MovesAt(gr, joins, f, moves, i)
  }

  ghost predicate Finishes(g: Game, f: nat, flags: map<nat, Value>, g': Game) {
    g.phase.Playing? && f in g.tokens && Finish(g, f, flags) == Then(g')
  }

  /** One turn of one token, or the outside finishes the work of one. */
  ghost predicate Turns(gr: Graph, joins: map<nat, nat>, g: Game, g': Game)
    requires |gr.nodes| == |gr.flows|
  {
    || (exists f, moves :: IsTurn(gr, joins, f, g, moves, g'))
    || (exists f, flags :: Finishes(g, f, flags, g'))
  }

  ghost predicate TurnsAt(gr: Graph, joins: map<nat, nat>, play: seq<Game>, i: nat)
    requires |gr.nodes| == |gr.flows|
  {
    i + 1 < |play| ==> Turns(gr, joins, play[i], play[i + 1])
  }

  /** A play by turns. */
  ghost predicate IsTurnPlay(gr: Graph, joins: map<nat, nat>, start: nat, play: seq<Game>)
    requires |gr.nodes| == |gr.flows|
  {
    && |play| > 0 && (exists flags :: play[0] == Opening(start, flags))
    && forall i: nat {:trigger TurnsAt(gr, joins, play, i)} :: TurnsAt(gr, joins, play, i)
  }
}
