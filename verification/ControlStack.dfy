/** The control-stack verifier: an abstract interpretation that assigns to each
    reachable address the stack of scopes open there. */
module ControlStack {
  import opened Options
  import opened Graphs
  import opened Bytecode

  datatype ScopeKind = GuardScope | GuardNScope | BarrierScope

  /** An open scope: its kind and the address that opened it. */
  datatype Token = Token(kind: ScopeKind, openedAt: nat)

  type Scopes = seq<Token>

  /** One abstract step: a refusal, or the scopes passed on to each next address. */
  datatype Transfer = Reject | Flow(next: seq<(nat, Scopes)>)

  function Fall(p: Program, a: nat, st: Scopes): Transfer {
    if a + 1 < |p| then Flow([(a + 1, st)]) else Flow([])
  }

  function Also(t: nat, st: Scopes, rest: Transfer): Transfer {
    match rest case Reject => Reject case Flow(next) => Flow([(t, st)] + next)
  }

  predicate IsGuard(k: ScopeKind) { k.GuardScope? || k.GuardNScope? }

  /** The arming run of a guard: words directly after its opening. */
  predicate ArmAdjacent(p: Program, a: nat, st: Scopes)
    requires a < |p|
  {
    && |st| > 0 && IsGuard(st[|st| - 1].kind)
    && (st[|st| - 1].openedAt + 1 == a
        || (a > 0 && (p[a - 1].GuardArmTimer? || p[a - 1].GuardArmError? || p[a - 1].GuardTimerCycle?)))
  }

  /** An earlier arm of the same guard already carries this code. */
  predicate DuplicateArm(p: Program, a: nat, openedAt: nat, code: ErrorCode)
    requires a < |p|
  {
    exists i :: openedAt + 1 <= i < a && p[i].GuardArmError? && p[i].errorCode == code
  }

  function Step(p: Program, a: nat, st: Scopes): Transfer
    requires a < |p|
  {
    match p[a]
    case Guard(h) =>
      if h <= a then Reject else Also(h, st, Fall(p, a, st + [Token(GuardScope, a)]))
    case GuardN(h) =>
      if h <= a then Reject
      else Also(h, st + [Token(GuardNScope, a)], Fall(p, a, st + [Token(GuardNScope, a)]))
    case GuardEnd =>
      if |st| > 0 && st[|st| - 1].kind.GuardScope? then Fall(p, a, st[..|st| - 1]) else Reject
    case GuardNEnd =>
      if |st| > 0 && st[|st| - 1].kind.GuardNScope? then Fall(p, a, st[..|st| - 1]) else Reject
    case GuardArmTimer =>
      if |st| > 0 && IsGuard(st[|st| - 1].kind) && st[|st| - 1].openedAt + 1 == a then Fall(p, a, st) else Reject
    case GuardTimerCycle(maxFires) =>
      if maxFires > 0 && |st| > 0 && st[|st| - 1].kind.GuardNScope? && a > 0 && p[a - 1].GuardArmTimer?
      then Fall(p, a, st) else Reject
    case GuardArmError(code, _) =>
      if ArmAdjacent(p, a, st) && !DuplicateArm(p, a, st[|st| - 1].openedAt, code) then Fall(p, a, st) else Reject
    case Fork(targets, pairing) =>
      if forall i :: 0 <= i < |targets| ==> targets[i] > a
      then Flow(seq(|targets|, i requires 0 <= i < |targets| => (targets[i], st + [Token(BarrierScope, pairing)])))
      else Reject
    case Join(pairing) =>
      if pairing < |p| && p[pairing].Fork? && |st| > 0 && st[|st| - 1] == Token(BarrierScope, pairing)
      then Fall(p, a, st[..|st| - 1]) else Reject
    case End => if st == [] then Flow([]) else Reject
    case Jump(t) => if t < |p| then Flow([(t, st)]) else Reject
    case BrIf(t) => if t < |p| then Also(t, st, Fall(p, a, st)) else Reject
    case BrIfNot(t) => if t < |p| then Also(t, st, Fall(p, a, st)) else Reject
    case EndTerminate => Flow([])
    case RouteZeroMatch => Flow([])
    case _ => Fall(p, a, st)
  }

  /** An assignment of scopes to addresses that the program respects. */
  ghost predicate Certificate(p: Program, e: map<nat, Scopes>) {
    && 0 in e && e[0] == []
    && (forall a :: a in e ==> a < |p|)
    && (forall a {:trigger Respects(p, e, a)} :: a in e ==> Respects(p, e, a))
  }

  ghost predicate Respects(p: Program, e: map<nat, Scopes>, a: nat)
    requires a in e && a < |p|
  {
    Step(p, a, e[a]).Flow? && Passes(e, Step(p, a, e[a]).next)
  }

  ghost predicate Passes(e: map<nat, Scopes>, next: seq<(nat, Scopes)>) {
    forall i :: 0 <= i < |next| ==> next[i].0 in e && e[next[i].0] == next[i].1
  }

  ghost predicate Extends(e: map<nat, Scopes>, m: map<nat, Scopes>) {
    forall a :: a in e ==> a in m && m[a] == e[a]
  }

  /** Enters the passed-on scopes; refuses when an address already has others. */
  method Propagate(e0: map<nat, Scopes>, next: seq<(nat, Scopes)>)
    returns (ok: bool, e: map<nat, Scopes>, added: seq<nat>)
    ensures ok ==> Extends(e0, e) && Passes(e, next)
    ensures ok ==> (forall a :: a in e <==> a in e0 || a in added)
    ensures ok ==> Distinct(added) && (forall a :: a in added ==> a !in e0)
    ensures forall m :: Extends(e0, m) && Passes(m, next) ==> ok && Extends(e, m)
  {
    e, added, ok := e0, [], true;
    for i := 0 to |next|
      invariant ok && Extends(e0, e) && Passes(e, next[..i])
      invariant forall a :: a in e <==> a in e0 || a in added
      invariant Distinct(added) && (forall a :: a in added ==> a !in e0)
      invariant forall m :: Extends(e0, m) && Passes(m, next) ==> Extends(e, m)
    {
      var (a, st) := next[i];
      if a in e {
        if e[a] != st {
          ok := false;
          return;
        }
      } else {
        e := e[a := st];
        added := added + [a];
      }
    }
    assert next[..|next|] == next;
  }

  /** The state of the worklist: `done` has been checked, `work` is entered and waiting. */
  ghost predicate WorkInv(p: Program, e: map<nat, Scopes>, work: seq<nat>, done: set<nat>) {
    && 0 in e && e[0] == []
    && (forall a :: a in e <==> a in done || a in work)
    && (forall a :: a in done ==> a !in work)
    && Distinct(work)
    && (forall a :: a in done ==> a < |p| && a in e && Respects(p, e, a))
    && done <= Upto(|p|)
  }

  lemma WorkStep(p: Program, e: map<nat, Scopes>, work: seq<nat>, done: set<nat>, e': map<nat, Scopes>, added: seq<nat>)
    requires WorkInv(p, e, work, done) && |work| > 0 && work[0] < |p|
    requires Step(p, work[0], e[work[0]]).Flow?
    requires Extends(e, e') && Passes(e', Step(p, work[0], e[work[0]]).next)
    requires forall a :: a in e' <==> a in e || a in added
    requires Distinct(added) && (forall a :: a in added ==> a !in e)
    ensures WorkInv(p, e', work[1..] + added, done + {work[0]})
  {
    var a, rest := work[0], work[1..];
    assert work == [a] + rest;
    forall b | b in done ensures Respects(p, e', b) { assert Respects(p, e, b); }
    DistinctConcat(rest, added);
  }

  lemma DistinctConcat(a: seq<nat>, b: seq<nat>)
    requires Distinct(a) && Distinct(b) && forall x :: x in b ==> x !in a
    ensures Distinct(a + b)
  {
    forall i, j | 0 <= i < j < |a + b| ensures (a + b)[i] != (a + b)[j] {
      if i < |a| <= j { assert a[i] in a && b[j - |a|] in b; }
    }
  }

  lemma Flows(p: Program, e: map<nat, Scopes>, a: nat)
    requires Certificate(p, e) && a in e
    ensures a < |p| && Step(p, a, e[a]).Flow? && Passes(e, Step(p, a, e[a]).next)
  {
    assert Respects(p, e, a);
  }

  /** Accepts exactly the programs that have a certificate, and returns the least one. */
  method Verify(p: Program) returns (r: Option<map<nat, Scopes>>)
    ensures r.Some? ==> Certificate(p, r.value)
    ensures r.Some? ==> forall m :: Certificate(p, m) ==> Extends(r.value, m)
    ensures r.None? ==> forall m :: !Certificate(p, m)
  {
    var e: map<nat, Scopes> := map[0 := []];
    var work: seq<nat> := [0];
    var done: set<nat> := {};
    while |work| > 0
      invariant WorkInv(p, e, work, done)
      invariant forall m :: Certificate(p, m) ==> Extends(e, m)
      decreases Upto(|p|) - done
    {
      var a := work[0];
      if a >= |p| {
        forall m ensures !Certificate(p, m) { assert Certificate(p, m) ==> Extends(e, m) && a in m; }
        return None;
      }
      var t := Step(p, a, e[a]);
      if t.Reject? {
        forall m | Certificate(p, m) ensures a in m && Step(p, a, m[a]).Flow? {
          assert Extends(e, m);
          Flows(p, m, a);
        }
        return None;
      }
      var ok, e', added := Propagate(e, t.next);
      forall m | Certificate(p, m) ensures Extends(e, m) && Passes(m, t.next) {
        assert Extends(e, m);
        Flows(p, m, a);
      }
      if !ok { return None; }
      WorkStep(p, e, work, done, e', added);
      e, work, done := e', work[1..] + added, done + {a};
    }
    return Some(e);
  }
}
