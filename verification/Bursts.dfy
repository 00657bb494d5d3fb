/** Uninterrupted execution of one fibre, word by word. */
module Bursts {
  import opened Bytecode
  import opened Kernel

  /** Fibre `f` executes its word. */
  ghost predicate Word(p: Program, s: State, f: nat, t: State) {
    Runnable(s, f) && Exec(p, s, f) == Ok(t)
  }

  ghost predicate WordAt(p: Program, f: nat, run: seq<State>, i: nat) {
    i + 1 < |run| ==> Word(p, run[i], f, run[i + 1])
  }

  /** States that words of fibre `f` lead through, one by one. */
  ghost predicate IsBurst(p: Program, f: nat, run: seq<State>) {
    forall i: nat {:trigger WordAt(p, f, run, i)} :: WordAt(p, f, run, i)
  }

  ghost predicate Travels(p: Program, s: State, f: nat, run: seq<State>, s': State) {
    |run| > 1 && run[0] == s && run[|run| - 1] == s' && IsBurst(p, f, run)
  }

  /** Fibre `f` gets from one state to the other by itself. */
  ghost predicate Runs(p: Program, s: State, f: nat, s': State) {
    exists run :: Travels(p, s, f, run, s')
  }

  lemma OneWord(p: Program, s: State, f: nat, s': State)
    requires Runnable(s, f) && Exec(p, s, f) == Ok(s')
    ensures Runs(p, s, f, s')
  {
    var run := [s, s'];
    forall i: nat ensures WordAt(p, f, run, i) {}
    assert Travels(p, s, f, run, s');
  }

  lemma TravelsOn(p: Program, s: State, f: nat, a: seq<State>, t: State, b: seq<State>, s': State)
    requires Travels(p, s, f, a, t) && Travels(p, t, f, b, s')
    ensures Travels(p, s, f, a + b[1..], s')
  {
    var run := a + b[1..];
    forall i: nat ensures WordAt(p, f, run, i) {
      assert WordAt(p, f, a, i);
      if |a| <= i + 1 < |run| {
        assert WordAt(p, f, b, i + 1 - |a|);
        assert run[i] == b[i + 1 - |a|];
      }
    }
  }

  lemma RunsOn(p: Program, s: State, f: nat, t: State, s': State)
    requires Runs(p, s, f, t) && Runs(p, t, f, s')
    ensures Runs(p, s, f, s')
  {
    var a :| Travels(p, s, f, a, t);
    var b :| Travels(p, t, f, b, s');
    TravelsOn(p, s, f, a, t, b, s');
  }

  /** Words leave no choice: two bursts from one state agree as far as both go. */
  lemma {:induction false} SameWay(p: Program, f: nat, a: seq<State>, b: seq<State>, i: nat)
    requires IsBurst(p, f, a) && IsBurst(p, f, b) && |a| > 0 && |b| > 0 && a[0] == b[0] && i < |a| && i < |b|
    ensures a[i] == b[i]
  {
    if i > 0 {
      SameWay(p, f, a, b, i - 1);
      assert WordAt(p, f, a, i - 1) && WordAt(p, f, b, i - 1);
      SameWord(p, a[i - 1], f, a[i], b[i]);
    }
  }

  lemma SameWord(p: Program, s: State, f: nat, t: State, u: State)
    requires Word(p, s, f, t) && Word(p, s, f, u)
    ensures t == u
  {
  }

  /** A fibre that has yielded has done everything on the way. */
  lemma YieldsLater(p: Program, s: State, f: nat, a: seq<State>, t: State, b: seq<State>, s': State)
    requires Travels(p, s, f, a, t) && Travels(p, s, f, b, s') && !Runnable(s', f)
    ensures |a| <= |b| && t == b[|a| - 1]
  {
    if |a| >= |b| { SameWay(p, f, a, b, |b| - 1); }
    assert WordAt(p, f, a, |b| - 1);
    SameWay(p, f, a, b, |a| - 1);
  }

  /** The rest of a burst. */
  lemma TravelsRest(p: Program, s: State, f: nat, run: seq<State>, s': State, k: nat)
    requires Travels(p, s, f, run, s') && k + 1 < |run|
    ensures Travels(p, run[k], f, run[k..], s')
  {
    forall i: nat ensures WordAt(p, f, run[k..], i) { assert WordAt(p, f, run, k + i); }
  }

  // ---------------------------------------------------------------- bursts within a block of words

  /** `f` is strictly between two places. */
  predicate Between(s: State, f: nat, lo: nat, hi: nat) {
    f in s.fibers && lo < s.fibers[f].pc < hi
  }

  ghost predicate BetweenAt(f: nat, run: seq<State>, lo: nat, hi: nat, i: nat) {
    0 < i && i + 1 < |run| ==> Between(run[i], f, lo, hi)
  }

  /** A burst that stays between two places until its last state. */
  ghost predicate TravelsIn(p: Program, s: State, f: nat, run: seq<State>, s': State, lo: nat, hi: nat) {
    && Travels(p, s, f, run, s')
    && forall i: nat {:trigger BetweenAt(f, run, lo, hi, i)} :: BetweenAt(f, run, lo, hi, i)
  }

  ghost predicate RunsIn(p: Program, s: State, f: nat, s': State, lo: nat, hi: nat) {
    exists run :: TravelsIn(p, s, f, run, s', lo, hi)
  }

  lemma WordIn(p: Program, s: State, f: nat, s': State, lo: nat, hi: nat)
    requires Word(p, s, f, s')
    ensures RunsIn(p, s, f, s', lo, hi)
  {
    var run := [s, s'];
    forall i: nat ensures WordAt(p, f, run, i) {}
    forall i: nat ensures BetweenAt(f, run, lo, hi, i) {}
    assert TravelsIn(p, s, f, run, s', lo, hi);
  }

  lemma RunsInOn(p: Program, s: State, f: nat, t: State, s': State, lo: nat, hi: nat)
    requires RunsIn(p, s, f, t, lo, hi) && RunsIn(p, t, f, s', lo, hi) && Between(t, f, lo, hi)
    ensures RunsIn(p, s, f, s', lo, hi)
  {
    var a :| TravelsIn(p, s, f, a, t, lo, hi);
    var b :| TravelsIn(p, t, f, b, s', lo, hi);
    var run := a + b[1..];
    TravelsOn(p, s, f, a, t, b, s');
    forall i: nat ensures BetweenAt(f, run, lo, hi, i) {
      assert BetweenAt(f, a, lo, hi, i);
      if i >= |a| { assert BetweenAt(f, b, lo, hi, i + 1 - |a|); }
    }
    assert TravelsIn(p, s, f, run, s', lo, hi);
  }

  lemma RunsInRuns(p: Program, s: State, f: nat, s': State, lo: nat, hi: nat)
    requires RunsIn(p, s, f, s', lo, hi)
    ensures Runs(p, s, f, s')
  {
    var run :| TravelsIn(p, s, f, run, s', lo, hi);
    assert Travels(p, s, f, run, s');
  }

  /** The first state in which `f` is not between the two places. */
  ghost predicate Leaves(p: Program, s: State, f: nat, lo: nat, hi: nat, s': State) {
    RunsIn(p, s, f, s', lo, hi) && !Between(s', f, lo, hi)
  }

  /** There is only one such state. */
  lemma LeavesOnce(p: Program, s: State, f: nat, lo: nat, hi: nat, t: State, u: State)
    requires Leaves(p, s, f, lo, hi, t) && Leaves(p, s, f, lo, hi, u)
    ensures t == u
  {
    var a :| TravelsIn(p, s, f, a, t, lo, hi);
    var b :| TravelsIn(p, s, f, b, u, lo, hi);
    var n := if |a| <= |b| then |a| - 1 else |b| - 1;
    SameWay(p, f, a, b, n);
    assert BetweenAt(f, a, lo, hi, n) && BetweenAt(f, b, lo, hi, n);
  }

  // ---------------------------------------------------------------- words that only touch the fibre

  /** Fibre `f` moved to `pc` with operand stack `stack`. */
  function Loc(s: State, f: nat, pc: nat, stack: seq<Value>): State
    requires f in s.fibers
  {
    Put(s, f, s.fibers[f].(pc := pc, stack := stack))
  }

  lemma LocSame(s: State, f: nat)
    requires f in s.fibers
    ensures Loc(s, f, s.fibers[f].pc, s.fibers[f].stack) == s
  {
    assert s.fibers[f := s.fibers[f]] == s.fibers;
  }

  lemma LocTwice(s: State, f: nat, a: nat, x: seq<Value>, b: nat, y: seq<Value>)
    requires f in s.fibers
    ensures Loc(Loc(s, f, a, x), f, b, y) == Loc(s, f, b, y)
  {
    assert Loc(Loc(s, f, a, x), f, b, y).fibers == Loc(s, f, b, y).fibers;
  }

  lemma JumpRuns(p: Program, s: State, f: nat, a: nat, stack: seq<Value>)
    requires Runnable(s, f) && a < |p| && p[a].Jump?
    ensures Word(p, Loc(s, f, a, stack), f, Loc(s, f, p[a].target, stack))
    ensures Runs(p, Loc(s, f, a, stack), f, Loc(s, f, p[a].target, stack))
  {
    LocTwice(s, f, a, stack, p[a].target, stack);
    OneWord(p, Loc(s, f, a, stack), f, Loc(s, f, p[a].target, stack));
  }

  lemma LoadRuns(p: Program, s: State, f: nat, a: nat)
    requires Runnable(s, f) && a < |p| && p[a].LoadFlag?
    ensures Word(p, Loc(s, f, a, []), f, Loc(s, f, a + 1, [Flag(s, p[a].key)]))
    ensures Runs(p, Loc(s, f, a, []), f, Loc(s, f, a + 1, [Flag(s, p[a].key)]))
  {
    var v := Flag(s, p[a].key);
    LocTwice(s, f, a, [], a + 1, [v]);
    assert [] + [v] == [v];
    OneWord(p, Loc(s, f, a, []), f, Loc(s, f, a + 1, [v]));
  }

  lemma BranchRuns(p: Program, s: State, f: nat, a: nat, v: Value)
    requires Runnable(s, f) && a < |p| && (p[a].BrIf? || p[a].BrIfNot?)
    ensures Word(p, Loc(s, f, a, [v]), f, Loc(s, f, if Truthy(v) == p[a].BrIf? then p[a].target else a + 1, []))
    ensures Runs(p, Loc(s, f, a, [v]), f, Loc(s, f, if Truthy(v) == p[a].BrIf? then p[a].target else a + 1, []))
  {
    var b := if Truthy(v) == p[a].BrIf? then p[a].target else a + 1;
    LocTwice(s, f, a, [v], b, []);
    assert [v][..0] == [];
    OneWord(p, Loc(s, f, a, [v]), f, Loc(s, f, b, []));
  }

  lemma PushRuns(p: Program, s: State, f: nat, a: nat)
    requires Runnable(s, f) && a < |p| && p[a].PushI64?
    ensures Runs(p, Loc(s, f, a, []), f, Loc(s, f, a + 1, [I64(p[a].value)]))
  {
    LocTwice(s, f, a, [], a + 1, [I64(p[a].value)]);
    assert [] + [I64(p[a].value)] == [I64(p[a].value)];
    OneWord(p, Loc(s, f, a, []), f, Loc(s, f, a + 1, [I64(p[a].value)]));
  }

  lemma IndexLiveRuns(p: Program, s: State, f: nat, a: nat)
    requires Runnable(s, f) && a < |p| && p[a].MiIndexLive?
    ensures Runs(p, Loc(s, f, a, []), f, Loc(s, f, a + 1, [Bool(p[a].index < CollectionLength(s, p[a].collection))]))
  {
    var v := Bool(p[a].index < CollectionLength(s, p[a].collection));
    LocTwice(s, f, a, [], a + 1, [v]);
    assert [] + [v] == [v];
    OneWord(p, Loc(s, f, a, []), f, Loc(s, f, a + 1, [v]));
  }

  lemma PassRuns(p: Program, s: State, f: nat, a: nat)
    requires Runnable(s, f) && a < |p| &&
      (p[a].PublishMessage? || (p[a].MiArityCheck? && CollectionLength(s, p[a].collection) <= p[a].max))
    ensures Runs(p, Loc(s, f, a, []), f, Loc(s, f, a + 1, []))
  {
    LocTwice(s, f, a, [], a + 1, []);
    OneWord(p, Loc(s, f, a, []), f, Loc(s, f, a + 1, []));
  }
}
