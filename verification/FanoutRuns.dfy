/** What a subscriber gets over whole runs of the fan-out. */
module FanoutRuns {
  import opened Fanout

  ghost predicate IsRun(s: State, acts: seq<Action>)
    decreases |acts|
  {
    acts == [] || (Enabled(s, acts[0]) && IsRun(Do(s, acts[0]), acts[1..]))
  }

  ghost function After(s: State, acts: seq<Action>): State
    requires IsRun(s, acts)
    decreases |acts|
  {
    if acts == [] then s else After(Do(s, acts[0]), acts[1..])
  }

  lemma {:induction false} RunKeeps(s: State, acts: seq<Action>)
    requires Inv(s) && IsRun(s, acts)
    ensures Inv(After(s, acts))
    decreases |acts|
  {
    if acts != [] {
      StepKeeps(s, acts[0]);
      RunKeeps(Do(s, acts[0]), acts[1..]);
    }
  }

  // ---------------------------------------------------------------- safety

  /** In every interleaving, what was sent is exactly the entries of the log below the cursor,
      in order, without gap or duplicate. */
  lemma {:induction false} SentBelowCursor(s: State, acts: seq<Action>)
    requires Initial(s) && IsRun(s, acts)
    ensures var t := After(s, acts);
      && t.sent <= t.log
      && forall i :: 0 <= i < |t.log| ==> (i < |t.sent| <==> t.log[i].seqno < t.cursor)
  {
    InitialInv(s);
    RunKeeps(s, acts);
    var t := After(s, acts);
    RankCuts(t.log, t.cursor);
  }

  // ---------------------------------------------------------------- completeness

  /** The broker has broadcast the whole log, and nothing is left for the subscriber to receive. */
  ghost predicate CaughtUp(s: State) {
    s.phase.Waiting? && s.queue == [] && !s.lagged && Since(s.log, s.broker.cursor) == []
  }

  lemma NextQueued(s: State)
    requires Inv(s) && s.phase.Waiting? && !s.lagged && |s.sent| < Rank(s.log, s.broker.cursor)
    ensures s.queue != []
  {
    assert s.log[|s.sent|] in s.queue;
  }

  /** With nothing queued, all that was broadcast was sent. */
  lemma NoneQueued(s: State)
    requires Inv(s) && s.phase.Waiting? && s.queue == [] && !s.lagged
    ensures Rank(s.log, s.broker.cursor) <= |s.sent|
  {
    if |s.sent| < Rank(s.log, s.broker.cursor) { NextQueued(s); }
  }

  lemma AllSent(s: State)
    requires Inv(s) && CaughtUp(s)
    ensures s.sent == s.log
  {
    SinceAt(s.log, s.broker.cursor);
    NoneQueued(s);
  }

  /** In every interleaving, a subscriber that has caught up has been sent the whole log. */
  lemma {:induction false} NothingLost(s: State, acts: seq<Action>)
    requires Initial(s) && IsRun(s, acts) && CaughtUp(After(s, acts))
    ensures After(s, acts).sent == After(s, acts).log
  {
    InitialInv(s);
    RunKeeps(s, acts);
    AllSent(After(s, acts));
  }

  // ---------------------------------------------------------------- the replay and its channel

  /** The replay is longer than the stream can hold before anyone reads it. */
  ghost predicate Overfull(s: State) {
    s.phase.Replaying? && |s.sent| + |s.phase.todo| > STREAM_CAPACITY
  }

  lemma OverfullStays(s: State, a: Action)
    requires Inv(s) && Overfull(s) && Enabled(s, a)
    ensures Overfull(Do(s, a))
  {
  }

  /** Subscribing to a log longer than the stream never hands the stream over. */
  lemma {:induction false} OverfullForever(s: State, acts: seq<Action>)
    requires Inv(s) && Overfull(s) && IsRun(s, acts)
    ensures Overfull(After(s, acts)) && !Returned(After(s, acts).phase)
    decreases |acts|
  {
    if acts != [] {
      OverfullStays(s, acts[0]);
      StepKeeps(s, acts[0]);
      OverfullForever(Do(s, acts[0]), acts[1..]);
    }
  }

  /** From any initial state with a longer log and an open broadcast, subscribing gets there. */
  lemma {:induction false} LongLogOverfills(s: State)
    requires Initial(s) && !s.broker.closed && |s.log| > STREAM_CAPACITY
    ensures IsRun(s, [Subscribe, ReadReplay]) && Overfull(After(s, [Subscribe, ReadReplay]))
  {
    var t := Do(s, Subscribe);
    var u := Do(t, ReadReplay);
    SinceAt(s.log, 0);
    RankZero(s.log);
    assert [Subscribe, ReadReplay][1..] == [ReadReplay] && [ReadReplay][1..] == [];
    assert IsRun(u, []) && IsRun(t, [ReadReplay]) && After(u, []) == u && After(t, [ReadReplay]) == u;
  }

  /** The replay, read or still to be read, fits into the stream. */
  ghost predicate ReplayFits(s: State) {
    && (s.phase.Subscribed? ==> |s.log| <= STREAM_CAPACITY)
    && !Overfull(s)
  }

  // ---------------------------------------------------------------- progress

  /** Steps that the tasks take by themselves, with no new event, no failure and no hang-up. */
  ghost predicate Progresses(s: State, a: Action) {
    && Enabled(s, a)
    && match a
       case BrokerRead => Since(s.log, s.broker.cursor) != []
       case BrokerStop => s.broker.terminal
       case Append(_) => false
       case Subscribe => false
       case ReadFails => false
       case HangUp => false
       case _ => true
  }

  /** There is nothing left to do. */
  ghost predicate Quiet(s: State) {
    forall a :: !Progresses(s, a)
  }

  function Stage(phase: Phase): nat {
    match phase
    case Absent => 0
    case Subscribed => 6
    case Replaying(_, _) => 5
    case Waiting => 4
    case Sending(_) => 5
    case Fetching(last) => if last then 3 else 6
    case Backfilling(_, _, last) => if last then 2 else 5
    case Ended => 0
  }

  function BrokerWork(b: Broker): nat {
    (if b.closed then 0 else 1) + (if b.stopped then 0 else 1) + (if b.pending == [] then 1 else 0)
  }

  function QueueWork(s: State): nat {
    |s.queue| + (if s.lagged then 1 else 0)
  }

  /** What is left to do, most weighty first. */
  ghost predicate Less(t: State, s: State) {
    var a, b := |t.log| - Rank(t.log, t.broker.cursor), |s.log| - Rank(s.log, s.broker.cursor);
    || a < b
    || (a == b && BrokerWork(t.broker) < BrokerWork(s.broker))
    || (a == b && BrokerWork(t.broker) == BrokerWork(s.broker) && LessSubscribed(t, s))
  }

  ghost predicate LessSubscribed(t: State, s: State) {
    || |s.sent| < |t.sent|
    || (|s.sent| == |t.sent| && QueueWork(t) < QueueWork(s))
    || (|s.sent| == |t.sent| && QueueWork(t) == QueueWork(s) && Stage(t.phase) < Stage(s.phase))
    || (|s.sent| == |t.sent| && QueueWork(t) == QueueWork(s) && Stage(t.phase) == Stage(s.phase) && s.taken < t.taken)
  }

  lemma BrokerProgress(s: State, a: Action)
    requires Inv(s) && Progresses(s, a) && (a.BrokerRead? || a.Broadcast? || a.BrokerStop? || a.BrokerClose?)
    ensures Less(Do(s, a), s) && Do(s, a).log == s.log
  {
    if a.Broadcast? { BroadcastBroker(s.log, s.broker); }
  }

  lemma SubscriberProgress(s: State, a: Action)
    requires Inv(s) && Progresses(s, a) && !(a.BrokerRead? || a.Broadcast? || a.BrokerStop? || a.BrokerClose?)
    ensures Less(Do(s, a), s) && Do(s, a).log == s.log && Do(s, a).broker == s.broker
  {
    if a.Deliver? { OnwardStream(s.log, s.phase, s.cursor, s.sent); }
  }

  lemma ProgressFits(s: State, a: Action)
    requires Inv(s) && ReplayFits(s) && Progresses(s, a)
    ensures ReplayFits(Do(s, a))
  {
    if a.ReadReplay? {
      SinceAt(s.log, 0);
      RankZero(s.log);
    }
  }

  ghost predicate AllProgress(s: State, acts: seq<Action>)
    decreases |acts|
  {
    acts == [] || (Progresses(s, acts[0]) && AllProgress(Do(s, acts[0]), acts[1..]))
  }

  // ---------------------------------------------------------------- every way comes to rest

  /** A pair of numbers, the second below `base`, as one number. */
  function Mix(hi: nat, lo: nat, base: nat): nat {
    hi * base + lo
  }

  lemma MixLess(hi: nat, lo: nat, hi': nat, lo': nat, base: nat)
    requires lo < base && lo' < base && (hi' < hi || (hi' == hi && lo' < lo))
    ensures Mix(hi', lo', base) < Mix(hi, lo, base)
  {
    if hi' < hi { assert (hi' + 1) * base <= hi * base; }
  }

  lemma MixBound(hi: nat, lo: nat, top: nat, base: nat)
    requires lo < base && hi < top
    ensures Mix(hi, lo, base) < top * base
  {
    assert (hi + 1) * base <= top * base;
  }

  const QUEUE_ROOM := BROADCAST_CAPACITY + 2
  const STAGES := 7
  const STREAM_ROOM := STREAM_CAPACITY + 1

  /** What is left for the subscriber. */
  ghost function SubscriberWork(s: State): nat
    requires Inv(s)
  {
    Mix(Mix(Mix(|s.log| - |s.sent|, QueueWork(s), QUEUE_ROOM), Stage(s.phase), STAGES), |s.sent| - s.taken, STREAM_ROOM)
  }

  /** More than is ever left for the subscriber with a log of this length. */
  function SubscriberRoom(length: nat): nat {
    (length + 1) * QUEUE_ROOM * STAGES * STREAM_ROOM
  }

  lemma SubscriberBound(s: State)
    requires Inv(s)
    ensures SubscriberWork(s) < SubscriberRoom(|s.log|)
  {
    var a := Mix(|s.log| - |s.sent|, QueueWork(s), QUEUE_ROOM);
    MixBound(|s.log| - |s.sent|, QueueWork(s), |s.log| + 1, QUEUE_ROOM);
    MixBound(a, Stage(s.phase), (|s.log| + 1) * QUEUE_ROOM, STAGES);
    MixBound(Mix(a, Stage(s.phase), STAGES), |s.sent| - s.taken, (|s.log| + 1) * QUEUE_ROOM * STAGES, STREAM_ROOM);
  }

  /** All that is left to do. */
  ghost function Work(s: State): nat
    requires Inv(s)
  {
    Mix(Mix(|s.log| - Rank(s.log, s.broker.cursor), BrokerWork(s.broker), 4), SubscriberWork(s),
      SubscriberRoom(|s.log|))
  }

  lemma SubscriberLess(t: State, s: State)
    requires Inv(t) && Inv(s) && t.log == s.log && LessSubscribed(t, s)
    ensures SubscriberWork(t) < SubscriberWork(s)
  {
    var a, b := Mix(|s.log| - |s.sent|, QueueWork(s), QUEUE_ROOM), Mix(|t.log| - |t.sent|, QueueWork(t), QUEUE_ROOM);
    var c, d := Mix(a, Stage(s.phase), STAGES), Mix(b, Stage(t.phase), STAGES);
    if |s.sent| < |t.sent| || QueueWork(t) < QueueWork(s) {
      MixLess(|s.log| - |s.sent|, QueueWork(s), |t.log| - |t.sent|, QueueWork(t), QUEUE_ROOM);
    }
    if b < a || Stage(t.phase) < Stage(s.phase) { MixLess(a, Stage(s.phase), b, Stage(t.phase), STAGES); }
    MixLess(c, |s.sent| - s.taken, d, |t.sent| - t.taken, STREAM_ROOM);
  }

  lemma LessWork(t: State, s: State)
    requires Inv(t) && Inv(s) && t.log == s.log && Less(t, s)
    ensures Work(t) < Work(s)
  {
    SubscriberBound(s);
    SubscriberBound(t);
    var x, y := |s.log| - Rank(s.log, s.broker.cursor), |t.log| - Rank(t.log, t.broker.cursor);
    if y < x || BrokerWork(t.broker) < BrokerWork(s.broker) {
      MixLess(x, BrokerWork(s.broker), y, BrokerWork(t.broker), 4);
    } else {
      SubscriberLess(t, s);
    }
    MixLess(Mix(x, BrokerWork(s.broker), 4), SubscriberWork(s), Mix(y, BrokerWork(t.broker), 4), SubscriberWork(t),
      SubscriberRoom(|s.log|));
  }

  lemma ProgressWorks(s: State, a: Action)
    requires Inv(s) && Progresses(s, a)
    ensures Inv(Do(s, a)) && Do(s, a).log == s.log && Work(Do(s, a)) < Work(s)
  {
    StepKeeps(s, a);
    if a.BrokerRead? || a.Broadcast? || a.BrokerStop? || a.BrokerClose? { BrokerProgress(s, a); }
      else { SubscriberProgress(s, a); }
    LessWork(Do(s, a), s);
  }

  /** However the tasks are scheduled, they take at most `Work(s)` steps by themselves. */
  lemma {:induction false} EveryWayEnds(s: State, acts: seq<Action>)
    requires Inv(s) && AllProgress(s, acts)
    ensures |acts| <= Work(s) && IsRun(s, acts)
    ensures Inv(After(s, acts)) && After(s, acts).log == s.log && (ReplayFits(s) ==> ReplayFits(After(s, acts)))
    decreases |acts|
  {
    if acts != [] {
      ProgressWorks(s, acts[0]);
      if ReplayFits(s) { ProgressFits(s, acts[0]); }
      EveryWayEnds(Do(s, acts[0]), acts[1..]);
    }
  }

  /** However they are scheduled, when nothing is left to do the whole log was sent or the stream has ended. */
  lemma {:induction false} EveryWayDelivers(s: State, acts: seq<Action>, more: seq<Action>)
    requires Initial(s) && IsRun(s, acts) && ReplayFits(After(s, acts)) && !After(s, acts).phase.Absent?
    requires AllProgress(After(s, acts), more)
    ensures var t := After(s, acts);
      && Inv(t) && |more| <= Work(t) && IsRun(t, more)
      && (Quiet(After(t, more)) ==> After(t, more).phase.Ended? || After(t, more).sent == t.log)
  {
    InitialInv(s);
    RunKeeps(s, acts);
    var t := After(s, acts);
    EveryWayEnds(t, more);
    StaysPresent(t, more);
    if Quiet(After(t, more)) { RestMeans(After(t, more)); }
  }

  /** Some way leads to rest. */
  lemma {:induction false} ComesToRest(s: State) returns (acts: seq<Action>)
    requires Inv(s) && ReplayFits(s)
    ensures IsRun(s, acts) && AllProgress(s, acts) && Quiet(After(s, acts))
    ensures Inv(After(s, acts)) && ReplayFits(After(s, acts)) && After(s, acts).log == s.log
    decreases |s.log| - Rank(s.log, s.broker.cursor), BrokerWork(s.broker), |s.log| - |s.sent|, QueueWork(s),
      Stage(s.phase),
              |s.sent| - s.taken
  {
    if Quiet(s) {
      acts := [];
    } else {
      var a :| Progresses(s, a);
      StepKeeps(s, a);
      ProgressFits(s, a);
      if a.BrokerRead? || a.Broadcast? || a.BrokerStop? || a.BrokerClose? { BrokerProgress(s, a); }
        else { SubscriberProgress(s, a); }
      var rest := ComesToRest(Do(s, a));
      acts := [a] + rest;
      assert acts[1..] == rest;
    }
  }

  /** At rest with its replay sent, a subscriber is either done or has the whole log. */
  lemma RestMeans(s: State)
    requires Inv(s) && ReplayFits(s) && Quiet(s)
    ensures s.phase.Absent? || s.phase.Ended? || (s.phase.Waiting? && s.sent == s.log)
  {
    assert !Progresses(s, ReadReplay) && !Progresses(s, Fetch) && !Progresses(s, Settle) && !Progresses(s, Receive);
    assert !Progresses(s, Deliver) && !Progresses(s, Take);
    assert !Progresses(s, BrokerRead) && !Progresses(s, Broadcast) && !Progresses(s, BrokerStop) &&
      !Progresses(s, BrokerClose);
    if s.phase.Waiting? {
      if s.broker.terminal { TerminalReceived(s); }
      AllSent(s);
    }
  }

  /** A subscriber that still waits has not been sent a terminal event, so none was broadcast to it. */
  lemma TerminalReceived(s: State)
    requires Inv(s) && s.phase.Waiting? && s.queue == [] && !s.lagged
    ensures !s.broker.terminal
  {
    NoneQueued(s);
    forall i | 0 <= i < Rank(s.log, s.broker.cursor) ensures !s.log[i].terminal { assert s.log[i] == s.sent[i]; }
  }

  /** From any point of any run a subscriber whose replay fits is sent the whole log, or its
      stream ends, once the tasks have run on. */
  lemma Delivers(s: State, acts: seq<Action>) returns (more: seq<Action>)
    requires Initial(s) && IsRun(s, acts) && ReplayFits(After(s, acts)) && !After(s, acts).phase.Absent?
    ensures var t := After(s, acts);
      && IsRun(t, more) && AllProgress(t, more)
      && (After(t, more).phase.Ended? || After(t, more).sent == t.log)
  {
    InitialInv(s);
    RunKeeps(s, acts);
    var t := After(s, acts);
    more := ComesToRest(t);
    RestMeans(After(t, more));
    StaysPresent(t, more);
  }

  /** A subscriber that is still being given its replay. */
  predicate Subscribing(phase: Phase) {
    phase.Subscribed? || phase.Replaying?
  }

  /** The replay, read or still to be read, is longer than the stream. */
  ghost predicate Stuck(s: State) {
    Subscribing(s.phase) && !ReplayFits(s)
  }

  lemma StuckStays(s: State, a: Action)
    requires Inv(s) && Stuck(s) && Progresses(s, a)
    ensures Stuck(Do(s, a))
  {
    if a.ReadReplay? {
      SinceAt(s.log, 0);
      RankZero(s.log);
    }
  }

  lemma {:induction false} StuckForever(s: State, acts: seq<Action>)
    requires Inv(s) && Stuck(s) && AllProgress(s, acts)
    ensures IsRun(s, acts) && Stuck(After(s, acts))
    decreases |acts|
  {
    if acts != [] {
      StuckStays(s, acts[0]);
      StepKeeps(s, acts[0]);
      StuckForever(Do(s, acts[0]), acts[1..]);
    }
  }

  /** These steps of the tasks hand the stream over to the client. */
  ghost predicate HandsOver(s: State, acts: seq<Action>) {
    AllProgress(s, acts) && IsRun(s, acts) && Returned(After(s, acts).phase)
  }

  /** Left to themselves, the tasks can hand the stream over if and only if the replay fits into it. */
  lemma HandedOverExactly(s: State)
    requires Inv(s) && Subscribing(s.phase)
    ensures (exists acts :: HandsOver(s, acts)) <==> ReplayFits(s)
  {
    if ReplayFits(s) {
      var acts := ComesToRest(s);
      RestMeans(After(s, acts));
      StaysPresent(s, acts);
      assert HandsOver(s, acts);
    } else {
      forall acts ensures !HandsOver(s, acts) {
        if AllProgress(s, acts) { StuckForever(s, acts); }
      }
    }
  }

  lemma {:induction false} StaysPresent(s: State, acts: seq<Action>)
    requires IsRun(s, acts) && !s.phase.Absent?
    ensures !After(s, acts).phase.Absent?
    decreases |acts|
  {
    if acts != [] { StaysPresent(Do(s, acts[0]), acts[1..]); }
  }

  // ---------------------------------------------------------------- how a stream ends

  /** A stream that ended was sent a terminal event, or the broadcast was closed under it. */
  ghost predicate EndsWell(s: State) {
    !s.hungUp && (s.phase.Ended? ==> HasTerminal(s.sent, |s.sent|) || s.broker.closed)
  }

  ghost predicate Fails(a: Action) {
    a.ReadFails? || a.HangUp?
  }

  lemma StepEndsWell(s: State, a: Action)
    requires Inv(s) && EndsWell(s) && Enabled(s, a) && !Fails(a)
    requires s.phase.Fetching? && s.phase.last ==> s.broker.closed
    requires s.phase.Backfilling? && s.phase.last ==> s.broker.closed
    ensures EndsWell(Do(s, a))
    ensures var t := Do(s, a); (t.phase.Fetching? || t.phase.Backfilling?) && t.phase.last ==> t.broker.closed
  {
    if a.Deliver? { TerminalSnoc(s.sent, Todo(s.phase)[0]); }
  }

  /** Without a failed read or a hang-up, a stream ends only after a terminal event or when the
      broadcast is closed. */
  lemma {:induction false} RunEndsWell(s: State, acts: seq<Action>)
    requires Inv(s) && EndsWell(s) && IsRun(s, acts) && forall i :: 0 <= i < |acts| ==> !Fails(acts[i])
    requires (s.phase.Fetching? || s.phase.Backfilling?) && s.phase.last ==> s.broker.closed
    ensures EndsWell(After(s, acts))
    decreases |acts|
  {
    if acts != [] {
      StepKeeps(s, acts[0]);
      StepEndsWell(s, acts[0]);
      RunEndsWell(Do(s, acts[0]), acts[1..]);
    }
  }

  // ---------------------------------------------------------------- what a closing delivers

  /** After the broadcast was closed with `k` entries logged: the last backfill holds the rest of
      them, and a stream that ended without a terminal event was sent them all. */
  ghost predicate ClosesWell(s: State, k: nat) {
    && s.broker.closed && k <= |s.log|
    && (s.phase.Backfilling? && s.phase.last ==> k <= |s.sent| + |s.phase.todo|)
    && (s.phase.Ended? ==> HasTerminal(s.sent, |s.sent|) || k <= |s.sent|)
  }

  lemma StepClosesWell(s: State, a: Action, k: nat)
    requires Inv(s) && EndsWell(s) && ClosesWell(s, k) && Enabled(s, a) && !Fails(a)
    ensures ClosesWell(Do(s, a), k)
  {
    if a.Deliver? {
      OnwardStream(s.log, s.phase, s.cursor, s.sent);
      TerminalSnoc(s.sent, Todo(s.phase)[0]);
    }
    if a.Fetch? { SinceAt(s.log, s.cursor); }
  }

  lemma {:induction false} RunClosesWell(s: State, acts: seq<Action>, k: nat)
    requires Inv(s) && EndsWell(s) && ClosesWell(s, k) && IsRun(s, acts) && forall i :: 0 <= i < |acts| ==>
      !Fails(acts[i])
    ensures Inv(After(s, acts)) && ClosesWell(After(s, acts), k)
    decreases |acts|
  {
    if acts != [] {
      StepKeeps(s, acts[0]);
      StepEndsWell(s, acts[0]);
      StepClosesWell(s, acts[0], k);
      RunClosesWell(Do(s, acts[0]), acts[1..], k);
    }
  }

  /** Everything logged before the broadcast was closed is in a stream that ended without a
      terminal event, unless a read failed or the client hung up. */
  lemma {:induction false} ClosingLosesNothing(s: State, acts: seq<Action>, more: seq<Action>)
    requires Initial(s) && !s.broker.closed && IsRun(s, acts) && Enabled(After(s, acts), BrokerClose)
    requires IsRun(Do(After(s, acts), BrokerClose), more)
    requires forall i :: 0 <= i < |acts| ==> !Fails(acts[i])
    requires forall i :: 0 <= i < |more| ==> !Fails(more[i])
    ensures var t := After(Do(After(s, acts), BrokerClose), more);
      t.phase.Ended? ==> HasTerminal(t.sent, |t.sent|) || After(s, acts).log <= t.sent
  {
    InitialInv(s);
    RunKeeps(s, acts);
    RunEndsWell(s, acts);
    LastIsClosed(s, acts);
    var before := After(s, acts);
    var u := Do(before, BrokerClose);
    StepKeeps(before, BrokerClose);
    StepEndsWell(before, BrokerClose);
    RunClosesWell(u, more, |before.log|);
    LogGrows(u, more);
  }

  lemma {:induction false} LastIsClosed(s: State, acts: seq<Action>)
    requires IsRun(s, acts) && ((s.phase.Fetching? || s.phase.Backfilling?) && s.phase.last ==> s.broker.closed)
    ensures var t := After(s, acts); (t.phase.Fetching? || t.phase.Backfilling?) && t.phase.last ==> t.broker.closed
    decreases |acts|
  {
    if acts != [] { LastIsClosed(Do(s, acts[0]), acts[1..]); }
  }

  lemma {:induction false} LogGrows(s: State, acts: seq<Action>)
    requires IsRun(s, acts)
    ensures s.log <= After(s, acts).log
    decreases |acts|
  {
    if acts != [] { LogGrows(Do(s, acts[0]), acts[1..]); }
  }
}
