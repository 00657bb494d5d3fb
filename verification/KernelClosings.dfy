/** Arrivals at a barrier, and the steps that close a scope, keep the machine invariant. */
module KernelClosings {
  import opened Bytecode
  import opened ControlStack
  import opened Kernel
  import opened KernelInvariant
  import opened KernelSteps

  // ---------------------------------------------------------------- arrival

  /** The fibre `f` moves from running on top of `h` to waiting at it. */
  ghost predicate Arrives(s: State, s': State, f: nat, h: nat) {
    && f in s.fibers && f in s'.fibers && h in s.table && h in s'.table
    && s.fibers[f].wait.Running? && s'.fibers[f].wait == AtBarrier(h)
    && s.fibers[f].control == s'.fibers[f].control + [h] && s'.fibers[f].pc == s.fibers[f].pc
    && (forall x :: x in s'.fibers <==> x in s.fibers)
    && (forall x :: x in s.fibers && x != f ==> s'.fibers[x] == s.fibers[x])
    && (forall k :: k in s'.table <==> k in s.table)
    && (forall k :: k in s.table && k != h ==> s'.table[k] == s.table[k])
    && s.table[h].kind.Barrier? && s.table[h].count > 1
    && s'.table[h] == s.table[h].(count := s.table[h].count - 1)
    && s'.nextId == s.nextId && s'.status == s.status
  }

  lemma ArriveFacts(s: State, f: nat, h: nat)
    requires f in s.fibers && s.fibers[f].wait.Running? && |s.fibers[f].control| > 0
    requires h == s.fibers[f].control[|s.fibers[f].control| - 1] && h in s.table && s.table[h].count > 1
    requires s.table[h].kind.Barrier?
    ensures Arrives(s, ArriveState(s, f, h), f, h)
  {
    var c := s.fibers[f].control;
    assert c[..|c| - 1] + [h] == c;
  }

  lemma ArriveRiders(s: State, s': State, f: nat, h: nat, c: seq<nat>)
    requires Arrives(s, s', f, h)
    ensures |Riders(s', c)| == |Riders(s, c)| - (if c == s.fibers[f].control then 1 else 0)
  {
    assert Riders(s', c) == Riders(s, c) - {f};
  }

  lemma ArriveLoads(s: State, s': State, hi: History, f: nat, h: nat, c: seq<nat>)
    requires Arrives(s, s', f, h)
    ensures Load(s', hi, c) == Load(s, hi, c) - (if c == s.fibers[f].control then 1 else 0)
  {
    ArriveRiders(s, s', f, h, c);
    assert Kids(s', hi, c) == Kids(s, hi, c);
  }

  lemma ArriveArrived(s: State, s': State, f: nat, h: nat, k: nat)
    requires Arrives(s, s', f, h)
    ensures |Arrived(s', k)| == |Arrived(s, k)| + (if k == h then 1 else 0)
  {
    if k == h {
      assert Arrived(s', k) == Arrived(s, k) + {f};
    } else {
      assert Arrived(s', k) == Arrived(s, k);
    }
  }

  lemma ArriveShape(s: State, s': State, hi: History, f: nat, h: nat)
    requires Arrives(s, s', f, h) && Shape(s, hi)
    ensures Shape(s', hi)
    ensures forall x :: x in s.fibers ==> Inside(s'.fibers[x]) == Inside(s.fibers[x])
    ensures forall k :: Doomed(s', k) == Doomed(s, k)
  {
    forall x | x in s'.fibers ensures Chain(s', hi, Inside(s'.fibers[x])) {
      ChainFrame(s, hi, s', hi, Inside(s.fibers[x]));
    }
    forall k | k in hi && Armed(s', k) ensures Chain(s', hi, hi[k].base) {
      ChainFrame(s, hi, s', hi, hi[k].base);
    }
  }

  lemma ArriveCounted(s: State, s': State, hi: History, f: nat, h: nat, k: nat)
    requires Arrives(s, s', f, h) && k in s.table && k in hi && h in hi && Counted(s, hi, k)
    requires s.fibers[f].control == Slot(hi, h)
    ensures Counted(s', hi, k)
  {
    var slot, c := Slot(hi, k), Slot(hi, h);
    assert slot[|slot| - 1] == k && c[|c| - 1] == h;
    ArriveLoads(s, s', hi, f, h, slot);
    ArriveArrived(s, s', f, h, k);
    assert k == h ==> f in Riders(s, slot);
  }

  lemma ArriveCounts(s: State, s': State, hi: History, f: nat, h: nat)
    requires Shape(s, hi) && Counts(s, hi) && Arrives(s, s', f, h) && Shape(s', hi)
    ensures Counts(s', hi)
    ensures Load(s', hi, []) == Load(s, hi, [])
  {
    var c := s.fibers[f].control;
    assert Chain(s, hi, Inside(s.fibers[f]));
    ChainLast(s, hi, c);
    forall k | k in s'.table && Armed(s', k) ensures Counted(s', hi, k) {
      assert Counted(s, hi, k);
      ArriveCounted(s, s', hi, f, h, k);
    }
    ArriveLoads(s, s', hi, f, h, []);
  }

  lemma ArriveTyped(p: Program, e: map<nat, Scopes>, s: State, hi: History, s': State, f: nat, h: nat)
    requires Shape(s, hi) && Typed(p, e, s, hi) && Arrives(s, s', f, h) && Shape(s', hi)
    requires s.fibers[f].pc < |p| && p[s.fibers[f].pc].Join?
    ensures Typed(p, e, s', hi)
  {
    forall x | x in s'.fibers ensures TypedFiber(p, e, hi, s'.fibers[x]) { assert TypedFiber(p, e, hi, s.fibers[x]); }
  }

  lemma ArriveKeeps(p: Program, e: map<nat, Scopes>, s: State, hi: History, s': State, f: nat, h: nat)
    requires Inv(p, e, s, hi) && Arrives(s, s', f, h)
    requires s.fibers[f].pc < |p| && p[s.fibers[f].pc].Join? && LiveStatus(s.status)
    ensures Inv(p, e, s', hi)
  {
    ArriveShape(s, s', hi, f, h);
    ArriveTyped(p, e, s, hi, s', f, h);
    ArriveCounts(s, s', hi, f, h);
    HandlersKept(p, e, s, s', hi);
    assert Members(s') by {
      forall k | k in s'.table && Armed(s', k) ensures s'.table[k].members == Doomed(s', k) { assert Armed(s, k); }
    }
  }

  // ---------------------------------------------------------------- leaving a scope

  ghost predicate Under(hi: History, h: nat, k: nat) {
    k in hi && (k == h || h in hi[k].base)
  }

  /** Everything inside `h` gives way to one fibre, `y`, with the stack from below `h`. */
  ghost predicate Left(s: State, s': State, hi: History, h: nat, y: nat) {
    && Armed(s, h) && h in hi && s'.status == s.status
    && s'.nextId >= s.nextId && y < s'.nextId && (y in Doomed(s, h) || y >= s.nextId)
    && LeftFibers(s, s', Doomed(s, h), y, hi[h].base)
    && (forall k :: k in s'.table <==> k in s.table)
    && (forall k :: k in s.table ==> LeftRecord(s, hi, h, y, k, s'.table[k]))
  }

  ghost predicate LeftFibers(s: State, s': State, dead: set<nat>, y: nat, base: seq<nat>) {
    && (forall x :: x in s'.fibers <==> (x in s.fibers && x !in dead) || x == y)
    && (forall x :: x in s.fibers && x !in dead ==> s'.fibers[x] == s.fibers[x])
    && s'.fibers[y].control == base && s'.fibers[y].wait.Running?
  }

  /** What becomes of the record of `k`. */
  ghost predicate LeftRecord(s: State, hi: History, h: nat, y: nat, k: nat, r: Record)
    requires k in s.table && h in hi
  {
    && r == s.table[k].(members := r.members, armed := s.table[k].armed && !Under(hi, h, k))
    && (r.armed ==> r.members == s.table[k].members - Doomed(s, h) + (if k in hi[h].base then {y} else {}))
  }

  lemma NotOnItself(s: State, hi: History, h: nat)
    requires Shape(s, hi) && Armed(s, h)
    ensures h !in hi[h].base
  {
    assert Chain(s, hi, hi[h].base);
  }

  /** A chain that does not pass through `h` keeps all its handles. */
  lemma ChainAway(s: State, s': State, hi: History, h: nat, y: nat, c: seq<nat>)
    requires Shape(s, hi) && Left(s, s', hi, h, y) && Chain(s, hi, c) && h !in c
    ensures Chain(s', hi, c)
  {
    forall i | 0 <= i < |c| ensures !Under(hi, h, c[i]) { assert hi[c[i]].base == c[..i]; }
  }

  lemma LeaveShape(s: State, s': State, hi: History, h: nat, y: nat)
    requires Shape(s, hi) && Left(s, s', hi, h, y)
    ensures Shape(s', hi)
  {
    NotOnItself(s, hi, h);
    forall k | k in hi && Armed(s', k) ensures Chain(s', hi, hi[k].base) {
      ChainAway(s, s', hi, h, y, hi[k].base);
    }
    forall x | x in s'.fibers ensures Chain(s', hi, Inside(s'.fibers[x])) {
      if x == y { ChainAway(s, s', hi, h, y, hi[h].base); }
      else { ChainAway(s, s', hi, h, y, Inside(s.fibers[x])); }
    }
  }

  lemma LeaveTyped(p: Program, e: map<nat, Scopes>, s: State, s': State, hi: History, h: nat, y: nat)
    requires Shape(s, hi) && Typed(p, e, s, hi) && Left(s, s', hi, h, y) && Shape(s', hi)
    requires s'.fibers[y].pc < |p| && GoesTo(e, hi, hi[h].base, s'.fibers[y].pc)
    ensures Typed(p, e, s', hi)
  {
    forall x | x in s'.fibers ensures TypedFiber(p, e, hi, s'.fibers[x]) {
      if x != y { assert TypedFiber(p, e, hi, s.fibers[x]); }
    }
  }

  lemma LeaveMembers(s: State, s': State, hi: History, h: nat, y: nat)
    requires Shape(s, hi) && Members(s) && Left(s, s', hi, h, y)
    ensures Members(s')
  {
    forall k | k in s'.table && Armed(s', k) ensures s'.table[k].members == Doomed(s', k) {
      assert s.table[k].members == Doomed(s, k);
      forall x ensures x in s'.table[k].members <==> x in Doomed(s', k) {
        if x == y { assert x in s'.fibers; }
      }
    }
  }

  lemma LeaveRiders(s: State, s': State, hi: History, h: nat, y: nat, c: seq<nat>)
    requires Ids(s, hi) && Left(s, s', hi, h, y) && h !in c
    ensures Riders(s', c) == Riders(s, c) + (if c == hi[h].base then {y} else {})
    ensures y !in Riders(s, c)
  {
    forall x | x in Riders(s, c) ensures x !in Doomed(s, h) && x != y { }
  }

  lemma LeaveKids(s: State, s': State, hi: History, h: nat, y: nat, c: seq<nat>)
    requires Ids(s, hi) && Left(s, s', hi, h, y) && h !in c
    ensures Kids(s', hi, c) == Kids(s, hi, c) - {h}
    ensures h in Kids(s, hi, c) <==> c == hi[h].base
  {
  }

  lemma LeaveLoad(s: State, s': State, hi: History, h: nat, y: nat, c: seq<nat>)
    requires Ids(s, hi) && Left(s, s', hi, h, y) && h !in c
    ensures Load(s', hi, c) == Load(s, hi, c)
  {
    LeaveRiders(s, s', hi, h, y, c);
    LeaveKids(s, s', hi, h, y, c);
  }

  /** A fibre waiting at a scope that is not under `h` is not inside `h`. */
  lemma ArrivedAway(s: State, hi: History, h: nat, k: nat, x: nat)
    requires Shape(s, hi) && k in hi && !Under(hi, h, k) && x in Arrived(s, k)
    ensures x !in Doomed(s, h)
  {
    var c := Inside(s.fibers[x]);
    assert Chain(s, hi, c) && c[|c| - 1] == k;
    ChainLast(s, hi, c);
  }

  lemma LeaveArrived(s: State, s': State, hi: History, h: nat, y: nat, k: nat)
    requires Shape(s, hi) && Left(s, s', hi, h, y) && Armed(s', k)
    ensures Arrived(s', k) == Arrived(s, k)
  {
    forall x | x in Arrived(s, k) ensures x !in Doomed(s, h) { ArrivedAway(s, hi, h, k, x); }
  }

  lemma LeaveCounts(s: State, s': State, hi: History, h: nat, y: nat)
    requires Shape(s, hi) && Counts(s, hi) && Left(s, s', hi, h, y) && Ids(s', hi)
    ensures Counts(s', hi)
  {
    forall k | k in s'.table && Armed(s', k) ensures Counted(s', hi, k) {
      assert Counted(s, hi, k);
      LeaveLoad(s, s', hi, h, y, Slot(hi, k));
      LeaveArrived(s, s', hi, h, y, k);
    }
  }

  lemma LeaveKeeps(p: Program, e: map<nat, Scopes>, s: State, s': State, hi: History, h: nat, y: nat)
    requires Inv(p, e, s, hi) && Left(s, s', hi, h, y) && LiveStatus(s.status)
    requires s'.fibers[y].pc < |p| && GoesTo(e, hi, hi[h].base, s'.fibers[y].pc)
    ensures Inv(p, e, s', hi)
  {
    LeaveShape(s, s', hi, h, y);
    LeaveTyped(p, e, s, s', hi, h, y);
    LeaveMembers(s, s', hi, h, y);
    LeaveCounts(s, s', hi, h, y);
    HandlersKept(p, e, s, s', hi);
    LeaveLoad(s, s', hi, h, y, []);
  }

  // ---------------------------------------------------------------- the three ways to leave

  /** A scope with load one and a rider has nothing else running inside. */
  lemma LastInside(s: State, hi: History, f: nat, h: nat)
    requires Shape(s, hi) && Armed(s, h) && f in s.fibers && !s.fibers[f].wait.AtBarrier?
    requires s.fibers[f].control == Slot(hi, h) && Load(s, hi, Slot(hi, h)) == 1
    ensures Kids(s, hi, Slot(hi, h)) == {} && f in Doomed(s, h)
    ensures forall k :: k in hi && Armed(s, k) ==> h !in hi[k].base
    ensures forall x :: x in Doomed(s, h) && x != f ==>
      s.fibers[x].wait == AtBarrier(h) && s.fibers[x].control == hi[h].base
  {
    var c := Slot(hi, h);
    assert f in Riders(s, c);
    assert Riders(s, c) == {f} by {
      assert Riders(s, c) == Riders(s, c) - {f} + {f};
    }
    Childless(s, hi, h);
    assert c[|hi[h].base|] == h;
    forall x | x in Doomed(s, h) && x != f
      ensures s.fibers[x].wait == AtBarrier(h) && s.fibers[x].control == hi[h].base {
      assert x !in Riders(s, c);
      var d := Inside(s.fibers[x]);
      assert d == c && d[|d| - 1] == h;
      assert s.fibers[x].control == d[..|d| - 1] == hi[h].base;
    }
  }

  lemma ReleaseRecord(s: State, hi: History, f: nat, h: nat, k: nat)
    requires Shape(s, hi) && Members(s) && Armed(s, h) && f in s.fibers && !s.fibers[f].wait.AtBarrier?
    requires s.fibers[f].control == Slot(hi, h) && Load(s, hi, Slot(hi, h)) == 1
    requires k in s.table && k != h
    ensures var r := Bury(s, Doomed(s, h) - {f})[k];
      && r == s.table[k].(members := r.members)
      && (s.table[k].armed ==> r.members == s.table[k].members - Doomed(s, h) + (if k in hi[h].base then {f} else {}))
  {
    LastInside(s, hi, f, h);
    var dead := Doomed(s, h) - {f};
    var r := Bury(s, dead)[k];
    if s.table[k].armed {
      assert s.table[k].members == Doomed(s, k);
      forall x | x in Doomed(s, h) ensures k in Inside(s.fibers[x]) <==> k in hi[h].base { }
      forall x ensures x in r.members <==>
        x in s.table[k].members - Doomed(s, h) + (if k in hi[h].base then {f} else {}) {
        if x in dead { assert k in s.fibers[x].control <==> k in hi[h].base; }
      }
    }
  }

  lemma ReleaseTable(s: State, hi: History, f: nat, h: nat, k: nat)
    requires Shape(s, hi) && Members(s) && Armed(s, h) && f in s.fibers && s.fibers[f].wait.Running?
    requires s.fibers[f].control == Slot(hi, h) && Load(s, hi, Slot(hi, h)) == 1 && k in s.table
    ensures LeftRecord(s, hi, h, f, k, ReleaseState(s, f, h).table[k])
  {
    assert s.table[h].members == Doomed(s, h);
    LastInside(s, hi, f, h);
    if k != h { ReleaseRecord(s, hi, f, h, k); }
  }

  lemma ReleaseFibers(s: State, hi: History, f: nat, h: nat)
    requires Shape(s, hi) && Members(s) && Armed(s, h) && f in s.fibers && s.fibers[f].wait.Running?
    requires s.fibers[f].control == Slot(hi, h)
    ensures LeftFibers(s, ReleaseState(s, f, h), Doomed(s, h), f, hi[h].base)
    ensures ReleaseState(s, f, h).fibers[f].pc == s.fibers[f].pc + 1
    ensures f in Doomed(s, h)
  {
    assert s.table[h].members == Doomed(s, h);
    assert s.fibers[f].control[|hi[h].base|] == h;
    assert s.fibers[f].control[..|s.fibers[f].control| - 1] == hi[h].base;
  }

  lemma ReleaseFacts(s: State, hi: History, f: nat, h: nat)
    requires Shape(s, hi) && Members(s) && Armed(s, h) && f in s.fibers && s.fibers[f].wait.Running?
    requires s.fibers[f].control == Slot(hi, h) && Load(s, hi, Slot(hi, h)) == 1
    ensures Left(s, ReleaseState(s, f, h), hi, h, f)
    ensures ReleaseState(s, f, h).fibers[f].pc == s.fibers[f].pc + 1
  {
    ReleaseFibers(s, hi, f, h);
    var s' := ReleaseState(s, f, h);
    forall k | k in s.table ensures LeftRecord(s, hi, h, f, k, s'.table[k]) {
      ReleaseTable(s, hi, f, h, k);
    }
  }

  /** No fibre waits at a guard as if it were a barrier. */
  lemma NoneAtGuard(p: Program, e: map<nat, Scopes>, s: State, hi: History, h: nat, x: nat)
    requires Certificate(p, e) && Shape(s, hi) && Typed(p, e, s, hi) && Armed(s, h)
    requires h in hi && hi[h].token.kind.GuardScope? && x in s.fibers
    ensures s.fibers[x].wait != AtBarrier(h)
  {
    var c := Inside(s.fibers[x]);
    if s.fibers[x].wait.AtBarrier? {
      assert TypedFiber(p, e, hi, s.fibers[x]) && Chain(s, hi, c);
      assert Respects(p, e, s.fibers[x].pc);
      ChainLast(s, hi, c);
      assert c[|c| - 1] == s.fibers[x].wait.handle;
      assert Tokens(hi, c)[|c| - 1].kind.BarrierScope?;
    }
  }

  lemma OnlyInGuard(p: Program, e: map<nat, Scopes>, s: State, hi: History, f: nat, h: nat)
    requires Certificate(p, e) && Shape(s, hi) && Typed(p, e, s, hi)
    requires Armed(s, h) && hi[h].token.kind.GuardScope? && f in s.fibers && s.fibers[f].wait.Running?
    requires s.fibers[f].control == Slot(hi, h) && Load(s, hi, Slot(hi, h)) == 1
    ensures Doomed(s, h) == {f}
    ensures forall k :: k in hi && Armed(s, k) ==> h !in hi[k].base
  {
    LastInside(s, hi, f, h);
    forall x | x in Doomed(s, h) ensures x == f { NoneAtGuard(p, e, s, hi, h, x); }
  }

  lemma GuardEndRecord(s: State, hi: History, f: nat, h: nat, k: nat)
    requires Shape(s, hi) && Members(s) && Armed(s, h) && f in s.fibers && s.fibers[f].wait.Running?
    requires s.fibers[f].control == Slot(hi, h) && Doomed(s, h) == {f} && k in s.table
    requires forall k :: k in hi && Armed(s, k) ==> h !in hi[k].base
    ensures LeftRecord(s, hi, h, f, k, if k == h then s.table[h].(armed := false) else s.table[k])
  {
    if k != h && s.table[k].armed {
      assert s.table[k].members == Doomed(s, k);
      assert f in Doomed(s, k) <==> k in hi[h].base;
    }
  }

  lemma GuardEndFacts(p: Program, e: map<nat, Scopes>, s: State, hi: History, f: nat, h: nat)
    requires Certificate(p, e) && Shape(s, hi) && Typed(p, e, s, hi) && Members(s)
    requires Armed(s, h) && hi[h].token.kind.GuardScope? && f in s.fibers && s.fibers[f].wait.Running?
    requires s.fibers[f].control == Slot(hi, h) && Load(s, hi, Slot(hi, h)) == 1
    ensures GuardEndState(s, f).Ok? && Left(s, GuardEndState(s, f).state, hi, h, f)
    ensures GuardEndState(s, f).state.fibers[f].pc == s.fibers[f].pc + 1
  {
    OnlyInGuard(p, e, s, hi, f, h);
    var c := s.fibers[f].control;
    assert c[|c| - 1] == h && c[..|c| - 1] == hi[h].base;
    forall k | k in s.table ensures LeftRecord(s, hi, h, f, k, GuardEndState(s, f).state.table[k]) {
      GuardEndRecord(s, hi, f, h, k);
    }
  }

  lemma BelowIsBase(s: State, hi: History, g: nat)
    requires Shape(s, hi) && Counts(s, hi) && Armed(s, g)
    ensures StackBelow(s, g) == hi[g].base
  {
    var x := LiveRider(s, hi, g);
    var i :| 0 <= i < |s.fibers[x].control| && s.fibers[x].control[i] == g;
    forall x, i | x in s.fibers && 0 <= i < |s.fibers[x].control| && s.fibers[x].control[i] == g
      ensures s.fibers[x].control[..i] == hi[g].base
    {
      var c := Inside(s.fibers[x]);
      assert Chain(s, hi, c) && c[i] == g && c[..i] == s.fibers[x].control[..i];
    }
  }

  lemma FallsUnder(s: State, hi: History, g: nat, k: nat)
    requires Stacks(s, hi) && Falls(s, g, k) && k != g
    ensures Under(hi, g, k)
  {
    var x, i, j :| x in s.fibers && 0 <= i < j < |Inside(s.fibers[x])|
      && Inside(s.fibers[x])[i] == g && Inside(s.fibers[x])[j] == k;
    var c := Inside(s.fibers[x]);
    assert Chain(s, hi, c);
    assert hi[k].base == c[..j] && c[..j][i] == g;
  }

  lemma UnderFalls(s: State, hi: History, g: nat, k: nat)
    requires Shape(s, hi) && Counts(s, hi) && Armed(s, k) && Under(hi, g, k) && k != g
    ensures Falls(s, g, k)
  {
    var x := LiveRider(s, hi, k);
    var c := Inside(s.fibers[x]);
    assert Chain(s, hi, c);
    var j :| 0 <= j < |c| && c[j] == k;
    assert g in c[..j];
    var i :| 0 <= i < j && c[..j][i] == g;
    assert c[i] == g;
  }

  /** The scopes that fall with `g` are exactly those opened on top of it. */
  lemma FallsIsUnder(s: State, hi: History, g: nat, k: nat)
    requires Shape(s, hi) && Counts(s, hi) && Armed(s, g) && Armed(s, k)
    ensures Falls(s, g, k) <==> Under(hi, g, k)
  {
    if k != g {
      if Falls(s, g, k) { FallsUnder(s, hi, g, k); }
      if Under(hi, g, k) { UnderFalls(s, hi, g, k); }
    }
  }

  lemma TriggerRecord(s: State, hi: History, g: nat, target: nat, k: nat)
    requires Shape(s, hi) && Counts(s, hi) && Members(s) && Armed(s, g) && k in s.table
    ensures var r := TriggerState(s, g, target).table[k];
      && r == s.table[k].(members := r.members, armed := s.table[k].armed && !Under(hi, g, k))
      && (r.armed ==> r.members == s.table[k].members - Doomed(s, g) + (if k in hi[g].base then {s.nextId} else {}))
  {
    BelowIsBase(s, hi, g);
    var s' := TriggerState(s, g, target);
    if s.table[k].armed {
      FallsIsUnder(s, hi, g, k);
      if !Falls(s, g, k) {
        assert s.table[k].members == Doomed(s, k);
        var dead := Doomed(s, g);
        forall x | x in dead && x in Doomed(s, k) ensures k in s.fibers[x].control {
          var c := Inside(s.fibers[x]);
          var i :| 0 <= i < |c| && c[i] == g;
          var j :| 0 <= j < |c| && c[j] == k;
          assert j != |s.fibers[x].control|;
        }
        assert Bury(s, dead)[k].members == s.table[k].members - dead;
      }
    }
  }

  lemma TriggerFacts(s: State, hi: History, g: nat, target: nat)
    requires Shape(s, hi) && Counts(s, hi) && Members(s) && Armed(s, g)
    ensures Left(s, TriggerState(s, g, target), hi, g, s.nextId)
    ensures TriggerState(s, g, target).fibers[s.nextId].pc == target
  {
    BelowIsBase(s, hi, g);
    var s' := TriggerState(s, g, target);
    forall k | k in s.table ensures LeftRecord(s, hi, g, s.nextId, k, s'.table[k]) {
      TriggerRecord(s, hi, g, target, k);
    }
  }
}
