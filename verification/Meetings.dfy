/** A barrier's counter says exactly what the token game asks: whether everyone else
    of the same fork instance has arrived. */
module Meetings {
  import opened Graphs
  import opened Kernel
  import opened KernelInvariant

  /** Every other fibre inside `h` waits at it. */
  ghost predicate OthersWait(s: State, f: nat, h: nat) {
    forall x :: x in s.fibers && x != f && h in Inside(s.fibers[x]) ==> s.fibers[x].wait == AtBarrier(h)
  }

  lemma SingleMember(a: set<nat>, f: nat, b: set<nat>)
    requires f in a && |a| + |b| == 1
    ensures a == {f} && b == {}
  {
    if x :| x in a && x != f {
      assert {f, x} <= a;
      SubsetSize({f, x}, a);
    }
  }

  lemma OnSlot(s: State, hi: History, f: nat, h: nat)
    requires f in s.fibers && s.fibers[f].wait.Running? && h in hi && s.fibers[f].control == Slot(hi, h)
    ensures f in Riders(s, Slot(hi, h)) && h in Inside(s.fibers[f])
  {
    assert Slot(hi, h)[|hi[h].base|] == h;
  }

  lemma CountSaysAlone(s: State, hi: History, f: nat, h: nat)
    requires Shape(s, hi) && Armed(s, h) && f in s.fibers && s.fibers[f].wait.Running? &&
      s.fibers[f].control == Slot(hi, h)
    requires Load(s, hi, Slot(hi, h)) == 1
    ensures OthersWait(s, f, h)
  {
    OnSlot(s, hi, f, h);
    SingleMember(Riders(s, Slot(hi, h)), f, Kids(s, hi, Slot(hi, h)));
    Childless(s, hi, h);
    forall x | x in s.fibers && x != f && h in Inside(s.fibers[x]) ensures s.fibers[x].wait == AtBarrier(h) {
      var c := Inside(s.fibers[x]);
      assert c == Slot(hi, h) && c[|c| - 1] == h;
      assert x !in Riders(s, c);
    }
  }

  /** A scope opened inside `h` has a fibre that does not wait, and it is not `f`. */
  lemma KidMoves(s: State, hi: History, f: nat, h: nat, k: nat)
    requires Shape(s, hi) && Counts(s, hi) && Armed(s, h) && f in s.fibers && s.fibers[f].control == Slot(hi, h)
    requires k in Kids(s, hi, Slot(hi, h))
    ensures !OthersWait(s, f, h)
  {
    var x := LiveRider(s, hi, k);
    var c := s.fibers[x].control;
    var i :| 0 <= i < |c| && c[i] == k;
    assert Chain(s, hi, Inside(s.fibers[x])) && Inside(s.fibers[x]) == c;
    assert c[..i] == Slot(hi, h);
    assert c[|hi[h].base|] == h;
    assert |c| > |Slot(hi, h)|;
  }

  lemma AloneSaysCount(s: State, hi: History, f: nat, h: nat)
    requires Shape(s, hi) && Counts(s, hi) && Armed(s, h)
    requires f in s.fibers && s.fibers[f].wait.Running? && s.fibers[f].control == Slot(hi, h) && OthersWait(s, f, h)
    ensures Load(s, hi, Slot(hi, h)) == 1
  {
    var c := Slot(hi, h);
    OnSlot(s, hi, f, h);
    forall x | x in Riders(s, c) ensures x == f { assert c[|hi[h].base|] == h; }
    assert Riders(s, c) == {f};
    if k :| k in Kids(s, hi, c) { KidMoves(s, hi, f, h, k); }
    assert Kids(s, hi, c) == {};
  }

  /** The last arrival, by the counter, is the arrival at which all others wait. */
  lemma LastArrival(s: State, hi: History, f: nat, h: nat)
    requires Shape(s, hi) && Counts(s, hi) && Members(s) && Armed(s, h) && s.table[h].kind.Barrier?
    requires f in s.fibers && s.fibers[f].wait.Running? && s.fibers[f].control == Slot(hi, h)
    ensures s.table[h].count <= 1 <==> OthersWait(s, f, h)
    ensures forall x :: x in s.table[h].members <==> x in s.fibers && h in Inside(s.fibers[x])
  {
    assert Counted(s, hi, h);
    if s.table[h].count <= 1 { CountSaysAlone(s, hi, f, h); }
    if OthersWait(s, f, h) { AloneSaysCount(s, hi, f, h); }
  }
}
