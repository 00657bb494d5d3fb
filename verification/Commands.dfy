/** Commands to the kernel: a fibre runs until it yields, a waiting fibre resumes, or a guard
    fires; and the check that every transition must pass before it is committed. */
module Commands {
  import opened Bytecode
  import opened Kernel
  import opened Bursts

  /** A fibre runs until it yields. */
  ghost predicate Tick(p: Program, s: State, f: nat, run: seq<State>, s': State) {
    Travels(p, s, f, run, s') && !Runnable(s', f)
  }

  ghost predicate Resumes(s: State, f: nat, flags: map<nat, Value>, s': State) {
    s.status.Active? && f in s.fibers && s.fibers[f].wait.Parked? && s' == ResumeState(s, f, flags)
  }

  ghost predicate Fires(s: State, g: nat, target: nat, s': State) {
    CanTrigger(s, g, target) && s' == TriggerState(s, g, target)
  }

  /** What one command does to the state, before the check. */
  ghost predicate Obeys(p: Program, s: State, s': State) {
    || (exists f, run :: Tick(p, s, f, run, s'))
    || (exists f, flags :: Resumes(s, f, flags, s'))
    || (exists g, target :: Fires(s, g, target, s'))
  }

  // ---------------------------------------------------------------- the check

  /** Membership and stacks agree in both directions, members are live, and an open barrier's
      counter is in range. */
  ghost predicate KInvariants(s: State) {
    && (forall h :: h in s.table && s.table[h].armed ==> s.table[h].members <= s.fibers.Keys)
    && (forall x, h :: x in s.fibers && h in Inside(s.fibers[x]) ==>
          h in s.table && s.table[h].armed && x in s.table[h].members)
    && (forall x, h :: h in s.table && s.table[h].armed && x in s.table[h].members ==>
          x in s.fibers && h in Inside(s.fibers[x]))
    && (forall h :: h in s.table && s.table[h].armed && s.table[h].kind.Barrier? ==>
          1 <= s.table[h].count <= s.table[h].arity)
  }

  /** Live members that have still to arrive. */
  function Awaited(s: State, h: nat): set<nat>
    requires h in s.table
  {
    set x | x in s.table[h].members && x in s.fibers && s.fibers[x].wait != AtBarrier(h)
  }

  /** The members of an open barrier can still bring it down to zero. */
  ghost predicate Satisfiable(s: State) {
    forall h :: h in s.table && s.table[h].armed && s.table[h].kind.Barrier? ==> |Awaited(s, h)| >= s.table[h].count
  }

  /** An instance without fibres is over. */
  ghost predicate Alive(s: State) {
    s.fibers == map[] ==> s.status.Completed? || s.status.Terminated?
  }

  ghost predicate Intact(p: Program, s: State) {
    Alive(s) && (forall x :: x in s.fibers ==> s.fibers[x].pc < |p|) && KInvariants(s) && Satisfiable(s)
  }

  /** A command takes effect only if the state it leads to passes. */
  ghost predicate Commits(p: Program, s: State, s': State) {
    Obeys(p, s, s') && Intact(p, s')
  }

  ghost predicate CommitsAt(p: Program, run: seq<State>, i: nat) {
    i + 1 < |run| ==> Commits(p, run[i], run[i + 1])
  }

  /** A run of committed commands. */
  ghost predicate IsCommitted(p: Program, run: seq<State>) {
    && |run| > 0 && (exists flags :: run[0] == Initial(flags))
    && forall i: nat {:trigger CommitsAt(p, run, i)} :: CommitsAt(p, run, i)
  }

  ghost predicate Committed(p: Program, s: State) {
    exists run :: IsCommitted(p, run) && run[|run| - 1] == s
  }

  lemma StartCommitted(p: Program, flags: map<nat, Value>)
    ensures Committed(p, Initial(flags))
  {
    assert IsCommitted(p, [Initial(flags)]);
  }

  lemma CommitOn(p: Program, s: State, s': State)
    requires Committed(p, s) && Commits(p, s, s')
    ensures Committed(p, s')
  {
    var run :| IsCommitted(p, run) && run[|run| - 1] == s;
    var longer := run + [s'];
    forall i: nat ensures CommitsAt(p, longer, i) { assert CommitsAt(p, run, i); }
    assert IsCommitted(p, longer) && longer[|longer| - 1] == s';
  }

  // ---------------------------------------------------------------- commands are steps

  lemma ExecOnward(p: Program, s: State, f: nat, t: State)
    requires Reachable(p, s) && Runnable(s, f) && Exec(p, s, f) == Ok(t)
    ensures Reachable(p, t)
  {
    assert Steps(p, s, t);
    Onward(p, s, t);
  }

  lemma ResumeOnward(p: Program, s: State, f: nat, flags: map<nat, Value>)
    requires Reachable(p, s) && s.status.Active? && f in s.fibers && s.fibers[f].wait.Parked?
    ensures Reachable(p, ResumeState(s, f, flags))
  {
    assert Steps(p, s, ResumeState(s, f, flags));
    Onward(p, s, ResumeState(s, f, flags));
  }

  lemma {:induction false} BurstReaches(p: Program, f: nat, run: seq<State>, i: nat)
    requires |run| > 0 && Reachable(p, run[0]) && IsBurst(p, f, run) && i < |run|
    ensures Reachable(p, run[i])
  {
    if i > 0 {
      BurstReaches(p, f, run, i - 1);
      assert WordAt(p, f, run, i - 1);
      ExecOnward(p, run[i - 1], f, run[i]);
    }
  }

  lemma RunsReaches(p: Program, s: State, f: nat, s': State)
    requires Reachable(p, s) && Runs(p, s, f, s')
    ensures Reachable(p, s')
  {
    var run :| Travels(p, s, f, run, s');
    BurstReaches(p, f, run, |run| - 1);
  }

  /** What commands lead to is reached by steps. */
  lemma ObeysReaches(p: Program, s: State, s': State)
    requires Reachable(p, s) && Obeys(p, s, s')
    ensures Reachable(p, s')
  {
    if f, run :| Tick(p, s, f, run, s') {
      BurstReaches(p, f, run, |run| - 1);
    } else {
      assert Steps(p, s, s');
      Onward(p, s, s');
    }
  }

  // ---------------------------------------------------------------- ending

  /** A fibre's end is accepted exactly when it is inside no scope. */
  lemma EndAccepted(p: Program, s: State, f: nat)
    requires Intact(p, s) && Runnable(s, f)
    ensures Intact(p, EndState(s, f)) <==> s.fibers[f].control == []
  {
    var t := EndState(s, f);
    if s.fibers[f].control == [] {
      EndKeepsIntact(p, s, f);
    } else {
      var h := s.fibers[f].control[0];
      assert h in Inside(s.fibers[f]);
      assert f in t.table[h].members && f !in t.fibers;
    }
  }

  lemma EndKeepsIntact(p: Program, s: State, f: nat)
    requires Intact(p, s) && Runnable(s, f) && s.fibers[f].control == []
    ensures Intact(p, EndState(s, f))
  {
    var t := EndState(s, f);
    assert Inside(s.fibers[f]) == [];
    forall h | h in s.table && s.table[h].armed ensures f !in s.table[h].members {}
    forall h | h in t.table && t.table[h].armed && t.table[h].kind.Barrier?
      ensures |Awaited(t, h)| >= t.table[h].count {
      assert Awaited(t, h) == Awaited(s, h);
    }
  }
}
