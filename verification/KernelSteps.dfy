/** Each kind of step keeps the machine invariant. */
module KernelSteps {
  import opened Bytecode
  import opened ControlStack
  import opened Kernel
  import opened KernelInvariant

  // ---------------------------------------------------------------- same stack

  /** The fibre `f` of `s'` differs from that of `s` in neither stack nor barrier;
      everything else that matters for scopes is the same. */
  ghost predicate SameStacks(s: State, s': State, f: nat) {
    && f in s.fibers && s'.fibers.Keys == s.fibers.Keys
    && (forall x :: x in s.fibers && x != f ==> s'.fibers[x] == s.fibers[x])
    && s'.fibers[f].control == s.fibers[f].control
    && !s.fibers[f].wait.AtBarrier? && !s'.fibers[f].wait.AtBarrier?
    && s'.nextId == s.nextId
  }

  ghost predicate LiveStatus(st: Status) { st.Active? || st.Incidented? }

  lemma SameLoads(s: State, s': State, hi: History, f: nat)
    requires SameStacks(s, s', f) && s'.table.Keys == s.table.Keys
    requires forall h :: h in s.table ==> s'.table[h].armed == s.table[h].armed
    ensures forall c :: Load(s', hi, c) == Load(s, hi, c)
    ensures forall h :: Arrived(s', h) == Arrived(s, h)
    ensures forall h :: Doomed(s', h) == Doomed(s, h)
  {
    forall c ensures Load(s', hi, c) == Load(s, hi, c) {
      assert Riders(s', c) == Riders(s, c);
      assert Kids(s', hi, c) == Kids(s, hi, c);
    }
  }

  lemma MoveKeeps(p: Program, e: map<nat, Scopes>, s: State, s': State, hi: History, f: nat)
    requires Inv(p, e, s, hi) && SameStacks(s, s', f) && s'.table == s.table
    requires s'.fibers[f].pc in e && s'.fibers[f].pc < |p| && e[s'.fibers[f].pc] == e[s.fibers[f].pc]
    requires s'.fibers[f].wait.Parked? ==> Parks(p[s'.fibers[f].pc])
    requires LiveStatus(s.status) && LiveStatus(s'.status)
    requires s'.status.Active? ==> s.status.Active? && !s'.fibers[f].wait.OnIncident?
    ensures Inv(p, e, s', hi)
  {
    SameLoads(s, s', hi, f);
    forall h | h in hi && Armed(s', h) ensures Chain(s', hi, hi[h].base) {
      ChainFrame(s, hi, s', hi, hi[h].base);
    }
    forall x | x in s'.fibers ensures Chain(s', hi, Inside(s'.fibers[x])) {
      ChainFrame(s, hi, s', hi, Inside(s.fibers[x]));
    }
    forall x | x in s'.fibers ensures TypedFiber(p, e, hi, s'.fibers[x]) {
      assert TypedFiber(p, e, hi, s.fibers[x]);
    }
    forall h | h in s'.table && Armed(s', h) ensures Counted(s', hi, h) { assert Counted(s, hi, h); }
    forall h | h in s'.table && Armed(s', h) && s'.table[h].kind.GuardRecord? ensures HandlerFits(p, e, s', hi, h) {
      assert HandlerFits(p, e, s, hi, h);
    }
  }

  // ---------------------------------------------------------------- opening a scope

  /** History after opening `h` on top of the stack `c`. */
  ghost function Opening(hi: History, h: nat, c: seq<nat>, t: Token): History {
    hi[h := Scope(c, t)]
  }

  /** Old chains survive the opening of a new handle. */
  lemma OpeningChains(s: State, hi: History, s': State, h: nat, c: seq<nat>, t: Token, d: seq<nat>)
    requires Ids(s, hi) && h == s.nextId && Chain(s, hi, d)
    requires forall k :: k in s.table ==> k in s'.table && s'.table[k].armed == s.table[k].armed
    ensures Chain(s', Opening(hi, h, c, t), d) && Tokens(Opening(hi, h, c, t), d) == Tokens(hi, d)
  {
    ChainFrame(s, hi, s', Opening(hi, h, c, t), d);
  }

  lemma OpeningTrees(s: State, hi: History, s': State, h: nat, c: seq<nat>, t: Token)
    requires Shape(s, hi) && h == s.nextId && Chain(s, hi, c)
    requires forall k :: k in s.table ==> k in s'.table && s'.table[k].armed == s.table[k].armed
    requires forall k :: k in s'.table ==> k in s.table || k == h
    ensures Trees(s', Opening(hi, h, c, t))
  {
    var hi' := Opening(hi, h, c, t);
    forall k | k in hi' && Armed(s', k) ensures Chain(s', hi', hi'[k].base) {
      OpeningChains(s, hi, s', h, c, t, hi'[k].base);
    }
  }

  /** The fibre `f` gives way to `kids`, fibre by fibre and record by record: to its
      children inside a barrier, or to itself inside a guard. */
  ghost predicate Entered(s: State, s': State, f: nat, kids: set<nat>) {
    && f in s.fibers && s.fibers[f].wait.Running?
    && var h, c := s.nextId, s.fibers[f].control;
    && kids != {} && (forall x :: x in kids ==> (x == f || x > h) && x < s'.nextId)
    && s'.status == s.status && s'.nextId > h
    && (forall x :: x in s'.fibers <==> (x in s.fibers && x != f) || x in kids)
    && (forall x :: x in s.fibers && x != f ==> s'.fibers[x] == s.fibers[x])
    && (forall x :: x in kids ==> s'.fibers[x].control == c + [h] && s'.fibers[x].wait.Running?)
    && (forall k :: k in s'.table <==> k in s.table || k == h)
    && (forall k :: k in s.table && k != h ==>
          s'.table[k] == s.table[k].(members := if k in c then s.table[k].members - {f} + kids else s.table[k].members))
    && s'.table[h].armed && s'.table[h].members == kids
  }

  lemma EnterShape(s: State, hi: History, s': State, f: nat, kids: set<nat>, t: Token)
    requires Shape(s, hi) && f in s.fibers && Entered(s, s', f, kids)
    ensures Shape(s', Opening(hi, s.nextId, s.fibers[f].control, t))
    ensures Tokens(Opening(hi, s.nextId, s.fibers[f].control, t), s.fibers[f].control + [s.nextId])
         == Tokens(hi, s.fibers[f].control) + [t]
  {
    var h, c := s.nextId, s.fibers[f].control;
    var hi' := Opening(hi, h, c, t);
    assert Chain(s, hi, Inside(s.fibers[f]));
    OpeningTrees(s, hi, s', h, c, t);
    OpeningChains(s, hi, s', h, c, t, c);
    ChainSnoc(s', hi', c, h);
    forall x | x in s'.fibers ensures Chain(s', hi', Inside(s'.fibers[x])) {
      if x !in kids { OpeningChains(s, hi, s', h, c, t, Inside(s.fibers[x])); }
    }
  }

  /** What the verifier passes on at a fork. */
  lemma ForkPasses(p: Program, e: map<nat, Scopes>, a: nat, b: nat)
    requires Certificate(p, e) && a in e && p[a].Fork? && b in p[a].targets
    ensures b in e && b < |p| && e[b] == e[a] + [Token(BarrierScope, p[a].pairing)]
  {
    assert Respects(p, e, a);
    var i :| 0 <= i < |p[a].targets| && p[a].targets[i] == b;
    assert ControlStack.Step(p, a, e[a]).next[i] == (b, e[a] + [Token(BarrierScope, p[a].pairing)]);
  }

  lemma EnterTyped(p: Program, e: map<nat, Scopes>, s: State, hi: History, s': State, f: nat, kids: set<nat>,
                   hi': History, t: Token)
    requires Shape(s, hi) && Typed(p, e, s, hi) && f in s.fibers && Entered(s, s', f, kids)
    requires hi' == Opening(hi, s.nextId, s.fibers[f].control, t) && Shape(s', hi')
    requires Tokens(hi', s.fibers[f].control + [s.nextId]) == Tokens(hi, s.fibers[f].control) + [t]
    requires forall x :: x in kids ==>
      s'.fibers[x].pc in e && s'.fibers[x].pc < |p| && e[s'.fibers[x].pc] == e[s.fibers[f].pc] + [t]
    ensures Typed(p, e, s', hi')
  {
    assert TypedFiber(p, e, hi, s.fibers[f]);
    forall x | x in s'.fibers ensures TypedFiber(p, e, hi', s'.fibers[x]) {
      if x !in kids {
        assert TypedFiber(p, e, hi, s.fibers[x]);
        assert Chain(s, hi, Inside(s.fibers[x]));
        assert Tokens(hi', Inside(s.fibers[x])) == Tokens(hi, Inside(s.fibers[x]));
      }
    }
  }

  lemma EnterMembersOf(s: State, hi: History, s': State, f: nat, kids: set<nat>, k: nat)
    requires Shape(s, hi) && f in s.fibers && Entered(s, s', f, kids) && k in s'.table
    requires k != s.nextId ==> k in s.table && s.table[k].members == Doomed(s, k)
    ensures s'.table[k].members == Doomed(s', k)
  {
    var h, c := s.nextId, s.fibers[f].control;
    if k == h {
      forall x | x in s.fibers ensures h !in Inside(s.fibers[x]) { assert Chain(s, hi, Inside(s.fibers[x])); }
      assert forall x :: x in kids ==> Inside(s'.fibers[x])[|c|] == h;
    } else {
      assert forall x :: x in kids ==> (k in Inside(s'.fibers[x]) <==> k in c);
    }
    forall x ensures x in s'.table[k].members <==> x in Doomed(s', k) {
      if x in kids && x != f { assert x !in s.fibers; }
    }
  }

  lemma EnterMembers(s: State, hi: History, s': State, f: nat, kids: set<nat>)
    requires Shape(s, hi) && Members(s) && f in s.fibers && Entered(s, s', f, kids)
    ensures Members(s')
  {
    forall k | k in s'.table && Armed(s', k) ensures s'.table[k].members == Doomed(s', k) {
      EnterMembersOf(s, hi, s', f, kids, k);
    }
  }

  /** A new handle shows up in its own slot only. */
  lemma OpeningKids(s: State, hi: History, s': State, h: nat, c0: seq<nat>, t: Token, c: seq<nat>)
    requires Ids(s, hi) && h == s.nextId
    requires forall k :: k in s'.table <==> k in s.table || k == h
    requires forall k :: k in s.table ==> s'.table[k].armed == s.table[k].armed
    requires s'.table[h].armed
    ensures Kids(s', Opening(hi, h, c0, t), c) == if c == c0 then Kids(s, hi, c) + {h} else Kids(s, hi, c)
    ensures h !in Kids(s, hi, c)
  {
  }

  lemma EnterRiders(s: State, s': State, f: nat, kids: set<nat>, c: seq<nat>)
    requires (forall x :: x in s.fibers ==> x < s.nextId) && f in s.fibers && Entered(s, s', f, kids)
    requires c != s.fibers[f].control + [s.nextId]
    ensures Riders(s', c) == Riders(s, c) - {f}
    ensures f in Riders(s, c) <==> c == s.fibers[f].control
  {
  }

  lemma EnterLoad(s: State, hi: History, s': State, f: nat, kids: set<nat>, hi': History, t: Token, c: seq<nat>)
    requires Ids(s, hi) && f in s.fibers && Entered(s, s', f, kids)
    requires hi' == Opening(hi, s.nextId, s.fibers[f].control, t)
    requires c != s.fibers[f].control + [s.nextId]
    ensures Load(s', hi', c) == Load(s, hi, c)
  {
    OpeningKids(s, hi, s', s.nextId, s.fibers[f].control, t, c);
    EnterRiders(s, s', f, kids, c);
  }

  lemma EnterNewLoad(s: State, hi: History, s': State, f: nat, kids: set<nat>, hi': History, t: Token)
    requires Shape(s, hi) && f in s.fibers && Entered(s, s', f, kids)
    requires hi' == Opening(hi, s.nextId, s.fibers[f].control, t)
    ensures Load(s', hi', s.fibers[f].control + [s.nextId]) == |kids|
  {
    var c := s.fibers[f].control + [s.nextId];
    NoneAbove(s, hi, s.fibers[f].control);
    assert Riders(s', c) == kids by {
      forall x | x in s'.fibers && x !in kids ensures x !in Riders(s', c) { assert x !in Riders(s, c); }
    }
    assert Kids(s', hi', c) == {} by {
      forall k | k in s.table ensures k !in Kids(s', hi', c) { assert k !in Kids(s, hi, c); }
    }
  }

  /** Nothing is on a stack that ends with a handle not yet given out. */
  lemma NoneAbove(s: State, hi: History, c: seq<nat>)
    requires Shape(s, hi)
    ensures Riders(s, c + [s.nextId]) == {} && Kids(s, hi, c + [s.nextId]) == {}
  {
    var d := c + [s.nextId];
    assert d[|c|] == s.nextId;
    forall x | x in s.fibers ensures s.fibers[x].wait.AtBarrier? || s.fibers[x].control != d {
      assert Chain(s, hi, Inside(s.fibers[x]));
    }
    forall k | k in hi && Armed(s, k) ensures hi[k].base != d { assert Chain(s, hi, hi[k].base); }
  }

  /** Accounting of the scopes already open is untouched by a new one. */
  lemma OpeningCounts(s: State, hi: History, s': State, hi': History, h: nat, c: seq<nat>, t: Token)
    requires Ids(s, hi) && Counts(s, hi) && Ids(s', hi') && h == s.nextId && hi' == Opening(hi, h, c, t)
    requires forall k :: k in s'.table <==> k in s.table || k == h
    requires forall k :: k in s.table ==> s'.table[k] == s.table[k].(members := s'.table[k].members)
    requires forall d :: d != c + [h] ==> Load(s', hi', d) == Load(s, hi, d)
    requires forall k :: Arrived(s', k) == Arrived(s, k)
    requires Counted(s', hi', h)
    ensures Counts(s', hi')
  {
    forall k | k in s'.table && Armed(s', k) ensures Counted(s', hi', k) {
      if k != h {
        assert Counted(s, hi, k);
        assert Slot(hi', k) == Slot(hi, k);
        var slot := Slot(hi, k);
        assert slot[|slot| - 1] == k && (c + [h])[|c + [h]| - 1] == h;
      }
    }
  }

  lemma OpeningHandlers(p: Program, e: map<nat, Scopes>, s: State, hi: History, s': State, hi': History, h: nat,
                        c: seq<nat>, t: Token)
    requires Shape(s, hi) && Handlers(p, e, s, hi) && Shape(s', hi') && h == s.nextId && hi' == Opening(hi, h, c, t)
    requires forall k :: k in s'.table <==> k in s.table || k == h
    requires forall k :: k in s.table ==> s'.table[k] == s.table[k].(members := s'.table[k].members)
    requires Armed(s', h) && s'.table[h].kind.GuardRecord? ==> HandlerFits(p, e, s', hi', h)
    ensures Handlers(p, e, s', hi')
  {
    forall k | k in s'.table && Armed(s', k) && s'.table[k].kind.GuardRecord? ensures HandlerFits(p, e, s', hi', k) {
      if k != h {
        assert HandlerFits(p, e, s, hi, k);
        assert Chain(s, hi, hi[k].base);
        assert Tokens(hi', hi[k].base) == Tokens(hi, hi[k].base);
      }
    }
  }

  /** No fibre waits at a barrier that has not been given out. */
  lemma NoneArrived(s: State, hi: History)
    requires Shape(s, hi)
    ensures Arrived(s, s.nextId) == {}
  {
    forall x | x in s.fibers ensures s.fibers[x].wait != AtBarrier(s.nextId) {
      assert Chain(s, hi, Inside(s.fibers[x]));
      assert s.fibers[x].wait.AtBarrier? ==> Inside(s.fibers[x])[|s.fibers[x].control|] == s.fibers[x].wait.handle;
    }
  }

  lemma EnterCounts(p: Program, e: map<nat, Scopes>, s: State, hi: History, s': State, f: nat, kids: set<nat>,
                    hi': History, t: Token)
    requires Shape(s, hi) && Counts(s, hi) && Handlers(p, e, s, hi) && f in s.fibers && Entered(s, s', f, kids)
    requires hi' == Opening(hi, s.nextId, s.fibers[f].control, t) && Shape(s', hi')
    requires if s'.table[s.nextId].kind.Barrier?
             then t.kind.BarrierScope? && s'.table[s.nextId].count == s'.table[s.nextId].arity == |kids|
             else t.kind.GuardScope? && |kids| == 1 && HandlerFits(p, e, s', hi', s.nextId)
    ensures Counts(s', hi') && Handlers(p, e, s', hi')
    ensures Load(s', hi', []) == Load(s, hi, [])
  {
    var h, c := s.nextId, s.fibers[f].control;
    forall d | d != c + [h] ensures Load(s', hi', d) == Load(s, hi, d) { EnterLoad(s, hi, s', f, kids, hi', t, d); }
    EnterNewLoad(s, hi, s', f, kids, hi', t);
    forall k ensures Arrived(s', k) == Arrived(s, k) { }
    NoneArrived(s, hi);
    assert Slot(hi', h) == c + [h];
    OpeningCounts(s, hi, s', hi', h, c, t);
    OpeningHandlers(p, e, s, hi, s', hi', h, c, t);
  }

  // ---------------------------------------------------------------- fork

  lemma {:induction false} ChildrenCount(targets: seq<nat>, control: seq<nat>, h: nat, k: nat)
    requires k <= |targets|
    ensures |Children(targets, control, h, k).Keys| == k
  {
    if k > 0 {
      ChildrenCount(targets, control, h, k - 1);
      assert Children(targets, control, h, k).Keys == Children(targets, control, h, k - 1).Keys + {h + k};
    }
  }

  lemma ForkFacts(s: State, hi: History, f: nat, targets: seq<nat>) returns (kids: set<nat>)
    requires Ids(s, hi) && f in s.fibers && s.fibers[f].wait.Running? && targets != []
    ensures Entered(s, ForkState(s, f, targets), f, kids) && |kids| == |targets|
    ensures forall x :: x in kids ==> ForkState(s, f, targets).fibers[x].pc in targets
    ensures ForkState(s, f, targets).table[s.nextId] == Record(Barrier, kids, true, |targets|, |targets|, 0, [])
  {
    kids := Children(targets, s.fibers[f].control, s.nextId, |targets|).Keys;
    ChildrenCount(targets, s.fibers[f].control, s.nextId, |targets|);
  }

  lemma ForkKeeps(p: Program, e: map<nat, Scopes>, s: State, hi: History, s': State, f: nat, kids: set<nat>)
                  returns (hi': History)
    requires Certificate(p, e) && Inv(p, e, s, hi) && Runnable(s, f) && Entered(s, s', f, kids)
    requires s.fibers[f].pc < |p| && p[s.fibers[f].pc].Fork?
    requires forall x :: x in kids ==> s'.fibers[x].pc in p[s.fibers[f].pc].targets
    requires s'.table[s.nextId] == Record(Barrier, kids, true, |kids|, |kids|, 0, [])
    ensures Inv(p, e, s', hi')
    ensures hi' == Opening(hi, s.nextId, s.fibers[f].control, Token(BarrierScope, p[s.fibers[f].pc].pairing))
  {
    var a, c, h := s.fibers[f].pc, s.fibers[f].control, s.nextId;
    var t := Token(BarrierScope, p[a].pairing);
    hi' := Opening(hi, h, c, t);
    EnterShape(s, hi, s', f, kids, t);
    assert TypedFiber(p, e, hi, s.fibers[f]);
    forall x | x in kids ensures s'.fibers[x].pc in e && s'.fibers[x].pc < |p| && e[s'.fibers[x].pc] == e[a] + [t] {
      ForkPasses(p, e, a, s'.fibers[x].pc);
    }
    EnterTyped(p, e, s, hi, s', f, kids, hi', t);
    EnterMembers(s, hi, s', f, kids);
    EnterCounts(p, e, s, hi, s', f, kids, hi', t);
  }

  // ---------------------------------------------------------------- guard

  lemma GuardFacts(s: State, hi: History, f: nat, handler: nat)
    requires Shape(s, hi) && Members(s) && f in s.fibers && s.fibers[f].wait.Running?
    ensures Entered(s, GuardState(s, f, handler), f, {f})
    ensures GuardState(s, f, handler).fibers[f].pc == s.fibers[f].pc + 1
    ensures GuardState(s, f, handler).table[s.nextId] == Record(GuardRecord, {f}, true, 0, 0, handler, [])
  {
    var s', c := GuardState(s, f, handler), s.fibers[f].control;
    assert Chain(s, hi, Inside(s.fibers[f]));
    forall k | k in s.table && k in c ensures f in s.table[k].members { assert f in Doomed(s, k); }
    forall k | k in s.table && k != s.nextId && k in c
      ensures s'.table[k] == s.table[k].(members := s.table[k].members - {f} + {f})
    {
      assert s.table[k].members - {f} + {f} == s.table[k].members;
    }
  }

  lemma GuardPasses(p: Program, e: map<nat, Scopes>, a: nat)
    requires Certificate(p, e) && a in e && p[a].Guard? && a + 1 < |p|
    ensures p[a].handler in e && e[p[a].handler] == e[a]
    ensures a + 1 in e && e[a + 1] == e[a] + [Token(GuardScope, a)]
  {
    assert Respects(p, e, a);
    var next := ControlStack.Step(p, a, e[a]).next;
    assert next[0] == (p[a].handler, e[a]) && next[1] == (a + 1, e[a] + [Token(GuardScope, a)]);
  }

  /** The new guard's handler fits the stack it was opened on. */
  lemma GuardFits(p: Program, e: map<nat, Scopes>, s: State, hi: History, s': State, f: nat, hi': History)
    requires Certificate(p, e) && Shape(s, hi) && f in s.fibers && s.fibers[f].wait.Running? &&
      TypedFiber(p, e, hi, s.fibers[f])
    requires s.fibers[f].pc + 1 < |p| && p[s.fibers[f].pc].Guard? && s.nextId in s'.table
    requires s'.table[s.nextId] == Record(GuardRecord, {f}, true, 0, 0, p[s.fibers[f].pc].handler, [])
    requires hi' == Opening(hi, s.nextId, s.fibers[f].control, Token(GuardScope, s.fibers[f].pc))
    ensures forall i :: 0 <= i < |hi'[s.nextId].base| ==> hi'[s.nextId].base[i] in hi'
    ensures HandlerFits(p, e, s', hi', s.nextId)
  {
    var c := s.fibers[f].control;
    GuardPasses(p, e, s.fibers[f].pc);
    assert Chain(s, hi, Inside(s.fibers[f]));
    assert Tokens(hi', c) == Tokens(hi, c);
  }

  lemma GuardTyped(p: Program, e: map<nat, Scopes>, s: State, hi: History, s': State, f: nat, hi': History)
    requires Certificate(p, e) && Shape(s, hi) && Typed(p, e, s, hi) && f in s.fibers && Entered(s, s', f, {f})
    requires s.fibers[f].pc + 1 < |p| && p[s.fibers[f].pc].Guard? && s'.fibers[f].pc == s.fibers[f].pc + 1
    requires hi' == Opening(hi, s.nextId, s.fibers[f].control, Token(GuardScope, s.fibers[f].pc)) && Shape(s', hi')
    requires Tokens(hi', s.fibers[f].control + [s.nextId])
          == Tokens(hi, s.fibers[f].control) + [Token(GuardScope, s.fibers[f].pc)]
    ensures TypedFiber(p, e, hi, s.fibers[f]) && Typed(p, e, s', hi')
  {
    assert TypedFiber(p, e, hi, s.fibers[f]);
    GuardPasses(p, e, s.fibers[f].pc);
    EnterTyped(p, e, s, hi, s', f, {f}, hi', Token(GuardScope, s.fibers[f].pc));
  }

  lemma GuardKeeps(p: Program, e: map<nat, Scopes>, s: State, hi: History, s': State, f: nat) returns (hi': History)
    requires Certificate(p, e) && Inv(p, e, s, hi) && Runnable(s, f) && Entered(s, s', f, {f})
    requires s.fibers[f].pc + 1 < |p| && p[s.fibers[f].pc].Guard? && s'.fibers[f].pc == s.fibers[f].pc + 1
    requires s'.table[s.nextId] == Record(GuardRecord, {f}, true, 0, 0, p[s.fibers[f].pc].handler, [])
    ensures Inv(p, e, s', hi')
    ensures hi' == Opening(hi, s.nextId, s.fibers[f].control, Token(GuardScope, s.fibers[f].pc))
  {
    var a, c, h := s.fibers[f].pc, s.fibers[f].control, s.nextId;
    var t := Token(GuardScope, a);
    hi' := Opening(hi, h, c, t);
    EnterShape(s, hi, s', f, {f}, t);
    GuardTyped(p, e, s, hi, s', f, hi');
    EnterMembers(s, hi, s', f, {f});
    GuardFits(p, e, s, hi, s', f, hi');
    EnterCounts(p, e, s, hi, s', f, {f}, hi', t);
  }
}
