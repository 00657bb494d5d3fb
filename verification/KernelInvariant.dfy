/** What holds in every state the machine reaches on an admitted program.

    The table does not record which scope a scope was opened in, so the invariant
    carries a history: for each handle, the stack below it and its static token.
    A slot is a control stack; its load is the number of fibres that run with
    exactly that stack plus the number of open scopes opened on top of it. */
module KernelInvariant {
  import opened Graphs
  import opened Bytecode
  import opened ControlStack
  import opened Kernel

  datatype Scope = Scope(base: seq<nat>, token: Token)

  type History = map<nat, Scope>

  predicate Armed(s: State, h: nat) { h in s.table && s.table[h].armed }

  /** Fibres that run, or wait for the outside, with exactly the stack `c`. */
  ghost function Riders(s: State, c: seq<nat>): set<nat> {
    set x | x in s.fibers && !s.fibers[x].wait.AtBarrier? && s.fibers[x].control == c
  }

  /** Open scopes whose stack below is exactly `c`. */
  ghost function Kids(s: State, hi: History, c: seq<nat>): set<nat> {
    set h | h in s.table && Armed(s, h) && h in hi && hi[h].base == c
  }

  ghost function Load(s: State, hi: History, c: seq<nat>): nat {
    |Riders(s, c)| + |Kids(s, hi, c)|
  }

  ghost function Arrived(s: State, h: nat): set<nat> {
    set x | x in s.fibers && s.fibers[x].wait == AtBarrier(h)
  }

  /** A stack of open handles, each opened on top of those before it. */
  ghost predicate Chain(s: State, hi: History, c: seq<nat>) {
    forall i :: 0 <= i < |c| ==> Armed(s, c[i]) && c[i] in hi && hi[c[i]].base == c[..i]
  }

  ghost function Tokens(hi: History, c: seq<nat>): Scopes
    requires forall i :: 0 <= i < |c| ==> c[i] in hi
  {
    seq(|c|, i requires 0 <= i < |c| => hi[c[i]].token)
  }

  ghost function Slot(hi: History, h: nat): seq<nat>
    requires h in hi
  {
    hi[h].base + [h]
  }

  // ---------------------------------------------------------------- the invariant

  ghost predicate Ids(s: State, hi: History) {
    && (forall h :: h in s.table <==> h in hi)
    && (forall h :: h in s.table ==> h < s.nextId)
    && (forall x :: x in s.fibers ==> x < s.nextId)
  }

  ghost predicate Trees(s: State, hi: History) {
    forall h :: h in hi && Armed(s, h) ==> Chain(s, hi, hi[h].base)
  }

  ghost predicate Stacks(s: State, hi: History) {
    forall x :: x in s.fibers ==> Chain(s, hi, Inside(s.fibers[x]))
  }

  ghost predicate TypedFiber(p: Program, e: map<nat, Scopes>, hi: History, f: Fiber)
    requires forall i :: 0 <= i < |Inside(f)| ==> Inside(f)[i] in hi
  {
    && f.pc in e && f.pc < |p| && e[f.pc] == Tokens(hi, Inside(f))
    && (f.wait.AtBarrier? ==> p[f.pc].Join?)
    && (f.wait.Parked? ==> Parks(p[f.pc]))
  }

  /** Words at which a fibre waits for the outside. */
  predicate Parks(i: Instr) {
    i.ExecNative? || i.ExecFfi? || i.WaitMsg? || i.WaitFor? || i.WaitUntil?
  }

  /** Each fibre's stack is an instance of the scopes the verifier assigned to its address. */
  ghost predicate Typed(p: Program, e: map<nat, Scopes>, s: State, hi: History)
    requires Stacks(s, hi)
  {
    forall x :: x in s.fibers ==> TypedFiber(p, e, hi, s.fibers[x])
  }

  /** The members of an open scope are exactly the live fibres inside it. */
  ghost predicate Members(s: State) {
    forall h :: h in s.table && Armed(s, h) ==> s.table[h].members == Doomed(s, h)
  }

  /** Arrival accounting of one open scope. */
  ghost predicate Counted(s: State, hi: History, h: nat)
    requires h in s.table && h in hi
  {
    if s.table[h].kind.Barrier? then
      && hi[h].token.kind.BarrierScope?
      && s.table[h].count == Load(s, hi, Slot(hi, h)) >= 1
      && s.table[h].count + |Arrived(s, h)| == s.table[h].arity
    else
      && hi[h].token.kind.GuardScope?
      && Load(s, hi, Slot(hi, h)) == 1
  }

  ghost predicate Counts(s: State, hi: History)
    requires Ids(s, hi)
  {
    forall h :: h in s.table && Armed(s, h) ==> Counted(s, hi, h)
  }

  ghost predicate GoesTo(e: map<nat, Scopes>, hi: History, base: seq<nat>, target: nat)
    requires forall i :: 0 <= i < |base| ==> base[i] in hi
  {
    target in e && e[target] == Tokens(hi, base)
  }

  /** Some word of the program arms a route to `target` on a guard opened on these scopes. */
  ghost predicate ArmedBy(p: Program, e: map<nat, Scopes>, scopes: Scopes, target: nat) {
    exists a :: ArmsAt(p, e, scopes, target, a)
  }

  ghost predicate ArmsAt(p: Program, e: map<nat, Scopes>, scopes: Scopes, target: nat, a: nat) {
    && a in e && a < |p| && p[a].GuardArmError? && p[a].errorHandler == target
    && |e[a]| > 0 && e[a][..|e[a]| - 1] == scopes
  }

  /** The handler of an open guard fits the stack below it, and its error routes were armed there. */
  ghost predicate Handlers(p: Program, e: map<nat, Scopes>, s: State, hi: History)
    requires Ids(s, hi) && Trees(s, hi)
  {
    forall h :: h in s.table && Armed(s, h) && s.table[h].kind.GuardRecord? ==> HandlerFits(p, e, s, hi, h)
  }

  ghost predicate HandlerFits(p: Program, e: map<nat, Scopes>, s: State, hi: History, h: nat)
    requires h in s.table && h in hi && forall i :: 0 <= i < |hi[h].base| ==> hi[h].base[i] in hi
  {
    && GoesTo(e, hi, hi[h].base, s.table[h].handler)
    && forall r :: r in s.table[h].routes ==> ArmedBy(p, e, Tokens(hi, hi[h].base), r.target)
  }

  /** One thread of control at the root while the instance lives, nothing afterwards. */
  ghost predicate Root(s: State, hi: History) {
    if s.status.Active? || s.status.Incidented? then
      Load(s, hi, []) == 1 && (s.status.Active? ==> forall x :: x in s.fibers ==> !s.fibers[x].wait.OnIncident?)
    else s.fibers == map[] && forall h :: h in s.table ==> !Armed(s, h)
  }

  ghost predicate Shape(s: State, hi: History) {
    Ids(s, hi) && Trees(s, hi) && Stacks(s, hi)
  }

  ghost predicate Inv(p: Program, e: map<nat, Scopes>, s: State, hi: History) {
    && Shape(s, hi)
    && Typed(p, e, s, hi)
    && Members(s)
    && Counts(s, hi)
    && Handlers(p, e, s, hi)
    && Root(s, hi)
  }

  // ---------------------------------------------------------------- chains

  lemma ChainDistinct(s: State, hi: History, c: seq<nat>, i: nat, j: nat)
    requires Chain(s, hi, c) && i < j < |c|
    ensures c[i] != c[j]
  {
    assert |hi[c[i]].base| == i && |hi[c[j]].base| == j;
  }

  lemma ChainPrefix(s: State, hi: History, c: seq<nat>, k: nat)
    requires Chain(s, hi, c) && k <= |c|
    ensures Chain(s, hi, c[..k])
  {
    forall i | 0 <= i < k ensures hi[c[i]].base == c[..k][..i] { assert c[..k][..i] == c[..i]; }
  }

  /** A chain survives when its handles stay open with the same history. */
  lemma ChainFrame(s: State, hi: History, s': State, hi': History, c: seq<nat>)
    requires Chain(s, hi, c)
    requires forall i :: 0 <= i < |c| ==> Armed(s', c[i]) && c[i] in hi' && hi'[c[i]] == hi[c[i]]
    ensures Chain(s', hi', c) && Tokens(hi', c) == Tokens(hi, c)
  {
  }

  lemma ChainSnoc(s: State, hi: History, c: seq<nat>, h: nat)
    requires Chain(s, hi, c) && Armed(s, h) && h in hi && hi[h].base == c
    ensures Chain(s, hi, c + [h]) && Tokens(hi, c + [h]) == Tokens(hi, c) + [hi[h].token]
  {
    var d := c + [h];
    forall i | 0 <= i < |d| ensures Armed(s, d[i]) && d[i] in hi && hi[d[i]].base == d[..i] {
      if i < |c| { assert d[..i] == c[..i]; } else { assert d[..i] == c; }
    }
    var t := Tokens(hi, c) + [hi[h].token];
    forall i | 0 <= i < |d| ensures Tokens(hi, d)[i] == t[i] { }
  }

  lemma ChainLast(s: State, hi: History, c: seq<nat>)
    requires Chain(s, hi, c) && |c| > 0
    ensures Slot(hi, c[|c| - 1]) == c
    ensures Chain(s, hi, c[..|c| - 1])
    ensures Tokens(hi, c[..|c| - 1]) == Tokens(hi, c)[..|c| - 1]
    ensures Tokens(hi, c)[|c| - 1] == hi[c[|c| - 1]].token
  {
    ChainPrefix(s, hi, c, |c| - 1);
    assert c[..|c| - 1] + [c[|c| - 1]] == c;
  }

  lemma SlotChain(s: State, hi: History, h: nat)
    requires Shape(s, hi) && Armed(s, h)
    ensures Chain(s, hi, Slot(hi, h))
  {
    ChainSnoc(s, hi, hi[h].base, h);
  }

  /** Whatever lies above `h` on a chain was opened, in the end, on its slot. */
  lemma Above(s: State, hi: History, c: seq<nat>, i: nat)
    requires Chain(s, hi, c) && i + 1 < |c|
    ensures c[i + 1] in Kids(s, hi, Slot(hi, c[i]))
  {
    assert c[..i + 1] == c[..i] + [c[i]];
  }

  /** With no scope opened on its slot, an open handle is below nothing. */
  lemma Childless(s: State, hi: History, h: nat)
    requires Shape(s, hi) && Armed(s, h) && Kids(s, hi, Slot(hi, h)) == {}
    ensures forall k :: k in hi && Armed(s, k) ==> h !in hi[k].base
    ensures forall x :: x in s.fibers && h in Inside(s.fibers[x]) ==> Inside(s.fibers[x]) == Slot(hi, h)
  {
    forall k | k in hi && Armed(s, k) ensures h !in hi[k].base {
      if h in hi[k].base {
        SlotChain(s, hi, k);
        var i :| 0 <= i < |hi[k].base| && hi[k].base[i] == h;
        assert Slot(hi, k)[i] == h;
        Above(s, hi, Slot(hi, k), i);
      }
    }
    forall x | x in s.fibers && h in Inside(s.fibers[x]) ensures Inside(s.fibers[x]) == Slot(hi, h) {
      var c := Inside(s.fibers[x]);
      var i :| 0 <= i < |c| && c[i] == h;
      if i + 1 < |c| { Above(s, hi, c, i); }
      ChainLast(s, hi, c);
    }
  }

  lemma ChainBound(s: State, hi: History, c: seq<nat>)
    requires Ids(s, hi) && Chain(s, hi, c)
    ensures |c| <= s.nextId
  {
    forall i, j | 0 <= i < j < |c| ensures c[i] != c[j] { ChainDistinct(s, hi, c, i, j); }
    DistinctBound(c, s.nextId);
  }

  /** Every open scope has a fibre inside it that is not waiting at a barrier. */
  lemma {:induction false} LiveRider(s: State, hi: History, h: nat) returns (x: nat)
    requires Shape(s, hi) && Counts(s, hi) && Armed(s, h)
    ensures x in s.fibers && !s.fibers[x].wait.AtBarrier? && h in s.fibers[x].control
    decreases s.nextId - |hi[h].base|
  {
    assert Counted(s, hi, h);
    var c := Slot(hi, h);
    if Riders(s, c) != {} {
      x :| x in Riders(s, c);
      assert c[|hi[h].base|] == h;
    } else {
      assert Kids(s, hi, c) != {};
      var k :| k in Kids(s, hi, c);
      SlotChain(s, hi, k);
      ChainBound(s, hi, Slot(hi, k));
      x := LiveRider(s, hi, k);
      var d := s.fibers[x].control;
      var i :| 0 <= i < |d| && d[i] == k;
      assert d[..i] == c;
      assert d[|hi[h].base|] == h;
    }
  }

  /** Guards that keep their handler and routes still fit. */
  lemma HandlersKept(p: Program, e: map<nat, Scopes>, s: State, s': State, hi: History)
    requires Shape(s, hi) && Handlers(p, e, s, hi) && Shape(s', hi)
    requires forall k :: k in s'.table && Armed(s', k) && s'.table[k].kind.GuardRecord? ==>
      k in s.table && Armed(s, k) && s.table[k].kind.GuardRecord?
      && s'.table[k].handler == s.table[k].handler && s'.table[k].routes == s.table[k].routes
    ensures Handlers(p, e, s', hi)
  {
    forall k | k in s'.table && Armed(s', k) && s'.table[k].kind.GuardRecord? ensures HandlerFits(p, e, s', hi, k) {
      assert HandlerFits(p, e, s, hi, k);
    }
  }
}
