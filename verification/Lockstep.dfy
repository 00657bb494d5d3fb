/** Simulations in general: a relation between two machines, each step of one answered by the
    other, carries from single steps to whole runs. */
module Lockstep {
  /** Item `i` is followed by the next. */
  ghost predicate LinkAt<A>(r: (A, A) -> bool, xs: seq<A>, i: nat) {
    i + 1 < |xs| ==> r(xs[i], xs[i + 1])
  }

  ghost predicate InTurn<A>(r: (A, A) -> bool, xs: seq<A>) {
    forall i: nat {:trigger LinkAt(r, xs, i)} :: LinkAt(r, xs, i)
  }

  ghost predicate Answer<A(!new), B>(pic: (A, B) -> bool, r: (A, A) -> bool, a: A, b': B) {
    exists a' :: r(a, a') && pic(a', b')
  }

  /** Each step of `t` is answered by a step of `r`. */
  ghost predicate Answers<A(!new), B(!new)>(pic: (A, B) -> bool, r: (A, A) -> bool, t: (B, B) -> bool) {
    forall a, b, b' {:trigger pic(a, b), t(b, b')} :: pic(a, b) && t(b, b') ==> Answer(pic, r, a, b')
  }

  /** The two runs show each other, item by item. */
  ghost predicate Alike<A, B>(pic: (A, B) -> bool, xs: seq<A>, ys: seq<B>) {
    |xs| == |ys| && forall i {:trigger xs[i]} {:trigger ys[i]} :: 0 <= i < |xs| ==> pic(xs[i], ys[i])
  }

  lemma LinkOn<A>(r: (A, A) -> bool, xs: seq<A>, x: A)
    requires InTurn(r, xs) && |xs| > 0 && r(xs[|xs| - 1], x)
    ensures InTurn(r, xs + [x])
  {
    forall i: nat ensures LinkAt(r, xs + [x], i) { assert LinkAt(r, xs, i); }
  }

  /** Every run of `t` is answered by one run of `r`, step for step. */
  lemma {:induction false} Follows<A(!new), B(!new)>(pic: (A, B) -> bool, r: (A, A) -> bool, t: (B, B) -> bool,
                                                     a: A, ys: seq<B>)
    returns (xs: seq<A>)
    requires Answers(pic, r, t) && InTurn(t, ys) && |ys| > 0 && pic(a, ys[0])
    ensures Alike(pic, xs, ys) && xs[0] == a && InTurn(r, xs)
    decreases |ys|
  {
    var last := |ys| - 1;
    if last == 0 {
      xs := [a];
      forall i: nat ensures LinkAt(r, xs, i) {}
    } else {
      Shorter(t, ys);
      xs := Follows(pic, r, t, a, ys[..last]);
      assert LinkAt(t, ys, last - 1);
      assert pic(xs[last - 1], ys[..last][last - 1]);
      assert Answer(pic, r, xs[last - 1], ys[last]);
      var x :| r(xs[last - 1], x) && pic(x, ys[last]);
      LinkOn(r, xs, x);
      xs := xs + [x];
    }
  }

  lemma Shorter<B>(t: (B, B) -> bool, ys: seq<B>)
    requires InTurn(t, ys) && |ys| > 0
    ensures InTurn(t, ys[..|ys| - 1])
  {
    var less := ys[..|ys| - 1];
    forall i: nat ensures LinkAt(t, less, i) { assert LinkAt(t, ys, i); }
  }

  // ---------------------------------------------------------------- one step answered by several

  /** Steps of `r` from `a` to something that shows `b'`. */
  ghost predicate Path<A, B>(pic: (A, B) -> bool, r: (A, A) -> bool, a: A, b': B, steps: seq<A>) {
    |steps| > 1 && steps[0] == a && InTurn(r, steps) && pic(steps[|steps| - 1], b')
  }

  ghost predicate PathAnswer<A(!new), B>(pic: (A, B) -> bool, r: (A, A) -> bool, a: A, b': B) {
    exists steps :: Path(pic, r, a, b', steps)
  }

  /** Each step of `t` is answered by one or more steps of `r`. */
  ghost predicate PathAnswers<A(!new), B(!new)>(pic: (A, B) -> bool, r: (A, A) -> bool, t: (B, B) -> bool) {
    forall a, b, b' {:trigger pic(a, b), t(b, b')} :: pic(a, b) && t(b, b') ==> PathAnswer(pic, r, a, b')
  }

  /** Item `i` of `ys` is shown at place `idx[i]` of `xs`, later items at later places. */
  ghost predicate PlacedAt<A, B>(pic: (A, B) -> bool, xs: seq<A>, ys: seq<B>, idx: seq<nat>, i: nat) {
    i < |idx| && i < |ys| ==> idx[i] < |xs| && pic(xs[idx[i]], ys[i]) && (i > 0 ==> idx[i - 1] < idx[i])
  }

  /** `ys` is seen along `xs`: all of it, in order, from the first item to the last. */
  ghost predicate Along<A, B>(pic: (A, B) -> bool, xs: seq<A>, ys: seq<B>, idx: seq<nat>) {
    && |idx| == |ys| > 0 && |xs| > 0 && idx[0] == 0 && idx[|ys| - 1] == |xs| - 1
    && forall i: nat {:trigger PlacedAt(pic, xs, ys, idx, i)} :: PlacedAt(pic, xs, ys, idx, i)
  }

  lemma Joined<A>(r: (A, A) -> bool, xs: seq<A>, steps: seq<A>)
    requires InTurn(r, xs) && InTurn(r, steps) && |xs| > 0 && |steps| > 0 && steps[0] == xs[|xs| - 1]
    ensures InTurn(r, xs + steps[1..])
  {
    var all := xs + steps[1..];
    forall i: nat ensures LinkAt(r, all, i) {
      assert LinkAt(r, xs, i);
      if |xs| <= i + 1 < |all| {
        assert LinkAt(r, steps, i + 1 - |xs|);
        assert all[i] == steps[i + 1 - |xs|];
      }
    }
  }

  lemma AlongOn<A, B>(pic: (A, B) -> bool, xs: seq<A>, ys: seq<B>, idx: seq<nat>, steps: seq<A>)
    requires |ys| > 1 && Along(pic, xs, ys[..|ys| - 1], idx) && |steps| > 1
    requires pic(steps[|steps| - 1], ys[|ys| - 1])
    ensures var all := xs + steps[1..]; Along(pic, all, ys, idx + [|all| - 1])
  {
    var all, less := xs + steps[1..], ys[..|ys| - 1];
    var more := idx + [|all| - 1];
    forall i: nat ensures PlacedAt(pic, all, ys, more, i) {
      assert PlacedAt(pic, xs, less, idx, i);
    }
  }

  /** Every run of `t` is seen along one run of `r`. */
  lemma {:induction false} FollowsAlong<A(!new), B(!new)>(pic: (A, B) -> bool, r: (A, A) -> bool, t: (B, B) -> bool,
                                                          a: A, ys: seq<B>)
    returns (xs: seq<A>, idx: seq<nat>)
    requires PathAnswers(pic, r, t) && InTurn(t, ys) && |ys| > 0 && pic(a, ys[0])
    ensures Along(pic, xs, ys, idx) && xs[0] == a && InTurn(r, xs)
    decreases |ys|
  {
    var last := |ys| - 1;
    if last == 0 {
      xs, idx := [a], [0];
      forall i: nat ensures LinkAt(r, xs, i) {}
    } else {
      Shorter(t, ys);
      xs, idx := FollowsAlong(pic, r, t, a, ys[..last]);
      assert LinkAt(t, ys, last - 1) && PlacedAt(pic, xs, ys[..last], idx, last - 1);
      assert PathAnswer(pic, r, xs[|xs| - 1], ys[last]);
      var steps :| Path(pic, r, xs[|xs| - 1], ys[last], steps);
      Joined(r, xs, steps);
      AlongOn(pic, xs, ys, idx, steps);
      xs := xs + steps[1..];
      idx := idx + [|xs| - 1];
    }
  }
}
