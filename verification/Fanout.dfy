/** Event fan-out: a durable log, a broker that reads it and broadcasts over a lossy channel,
    and a subscriber that turns what it receives into one ordered stream. The tasks run
    concurrently; the model is the machine of their interleaved atomic steps, seen by one
    subscriber. */
module Fanout {

  const STREAM_CAPACITY: nat := 64
  const BROADCAST_CAPACITY: nat := 512
  const MAX_SEQ: nat := 0xFFFF_FFFF_FFFF_FFFF

  datatype Event = Event(seqno: nat, terminal: bool, payload: string)

  type Log = seq<Event>

  /** A 64-bit increment that stays at the top. */
  function Succ(seqno: nat): nat {
    if seqno >= MAX_SEQ then MAX_SEQ else seqno + 1
  }

  ghost predicate Before(log: Log, i: int, j: int) {
    0 <= i < j < |log| ==> log[i].seqno < log[j].seqno < MAX_SEQ
  }

  /** Sequence numbers grow, with or without gaps, and stay below the top one. */
  ghost predicate Increasing(log: Log) {
    && (log != [] ==> log[0].seqno < MAX_SEQ)
    && forall i, j {:trigger Before(log, i, j)} :: Before(log, i, j)
  }

  /** Reading the log from a sequence number on. */
  function Since(log: Log, from: nat): Log {
    if log == [] then []
    else Since(log[..|log| - 1], from) + (if log[|log| - 1].seqno >= from then [log[|log| - 1]] else [])
  }

  /** How many leading entries are below a sequence number. */
  function Rank(log: Log, c: nat): (k: nat)
    ensures k <= |log|
  {
    if log == [] then 0
    else if log[|log| - 1].seqno < c then |log|
    else Rank(log[..|log| - 1], c)
  }

  /** A shorter log is increasing too, and its last entry is above the others. */
  lemma IncreasingInit(log: Log)
    requires Increasing(log) && log != []
    ensures Increasing(log[..|log| - 1])
    ensures forall i :: 0 <= i < |log| ==> log[i].seqno <= log[|log| - 1].seqno < MAX_SEQ
  {
    var init := log[..|log| - 1];
    forall i, j ensures Before(init, i, j) { assert Before(log, i, j); }
    forall i | 0 <= i < |log| ensures log[i].seqno <= log[|log| - 1].seqno < MAX_SEQ {
      assert Before(log, 0, |log| - 1) && Before(log, i, |log| - 1);
    }
  }

  lemma {:induction false} RankCuts(log: Log, c: nat)
    requires Increasing(log)
    ensures forall i :: 0 <= i < Rank(log, c) ==> log[i].seqno < c
    ensures forall i :: Rank(log, c) <= i < |log| ==> log[i].seqno >= c
  {
    if log != [] {
      IncreasingInit(log);
      if log[|log| - 1].seqno >= c { RankCuts(log[..|log| - 1], c); }
    }
  }

  /** `part` is the stretch of the log that begins at position `k`. */
  ghost predicate At(log: Log, k: nat, part: seq<Event>) {
    k + |part| <= |log| && forall i :: 0 <= i < |part| ==> part[i] == log[k + i]
  }

  /** Reading from a cursor gives the rest of the log. */
  lemma {:induction false} SinceAt(log: Log, c: nat)
    requires Increasing(log)
    ensures At(log, Rank(log, c), Since(log, c)) && Rank(log, c) + |Since(log, c)| == |log|
  {
    if log != [] {
      var init := log[..|log| - 1];
      IncreasingInit(log);
      SinceAt(init, c);
      if log[|log| - 1].seqno < c { SinceNone(init, c); }
    }
  }

  lemma {:induction false} SinceNone(log: Log, c: nat)
    requires forall i :: 0 <= i < |log| ==> log[i].seqno < c
    ensures Since(log, c) == []
  {
    if log != [] { SinceNone(log[..|log| - 1], c); }
  }

  lemma {:induction false} RankSnoc(log: Log, e: Event, c: nat)
    requires e.seqno >= c
    ensures Rank(log + [e], c) == Rank(log, c)
  {
    assert (log + [e])[..|log + [e]| - 1] == log;
  }

  /** Past the next entry the rank grows by one. */
  lemma {:induction false} RankNext(log: Log, c: nat)
    requires Increasing(log) && Rank(log, c) < |log|
    ensures var e := log[Rank(log, c)]; Succ(e.seqno) == e.seqno + 1 && Rank(log, Succ(e.seqno)) == Rank(log, c) + 1
  {
    var k := Rank(log, c);
    var d := Succ(log[k].seqno);
    RankCuts(log, c);
    RankCuts(log, d);
    IncreasingInit(log);
    assert Before(log, k, k + 1);
    var m := Rank(log, d);
    assert log[k].seqno < d && (k + 1 < |log| ==> log[k + 1].seqno >= d);
  }

  lemma {:induction false} RankZero(log: Log)
    requires Increasing(log)
    ensures Rank(log, 0) == 0
  {
    RankCuts(log, 0);
  }

  /** A cursor is zero or one past an entry. */
  ghost predicate AtEntry(log: Log, c: nat) {
    c == 0 || (Rank(log, c) > 0 && log[Rank(log, c) - 1].seqno + 1 == c)
  }

  // ---------------------------------------------------------------- the machine

  /** `terminal`: a terminal event was broadcast in this round; `closed`: the channel is gone. */
  datatype Broker = Broker(cursor: nat, pending: seq<Event>, terminal: bool, stopped: bool, closed: bool)

  /** Where the subscriber stands. A backfill first fetches and then sends what it fetched;
      `last` marks the one that follows the closing of the channel. */
  datatype Phase =
    | Absent
    | Subscribed
    | Replaying(todo: seq<Event>, terminal: bool)
    | Waiting
    | Sending(event: Event)
    | Fetching(last: bool)
    | Backfilling(todo: seq<Event>, terminal: bool, last: bool)
    | Ended

  /** `queue` and `lagged` are the subscriber's end of the broadcast; `sent` is all that went
      into its stream, of which the client has taken the first `taken`. */
  datatype State = State(log: Log, broker: Broker, queue: seq<Event>, lagged: bool,
                         phase: Phase, cursor: nat, sent: seq<Event>, taken: nat, hungUp: bool)

  datatype Action =
    | Append(event: Event)
    | BrokerRead
    | Broadcast
    | BrokerStop
    | BrokerClose
    | Subscribe
    | ReadReplay
    | ReadFails
    | Deliver
    | Settle
    | Receive
    | Fetch
    | Take
    | HangUp

  /** The receiver of the broadcast exists. */
  predicate Listening(phase: Phase) {
    !phase.Absent? && !phase.Ended?
  }

  /** The client holds the stream. */
  predicate Returned(phase: Phase) {
    phase.Waiting? || phase.Sending? || phase.Fetching? || phase.Backfilling? || phase.Ended?
  }

  /** What the subscriber has in hand to send, in order. */
  function Todo(phase: Phase): seq<Event> {
    match phase
    case Replaying(todo, _) => todo
    case Sending(e) => [e]
    case Backfilling(todo, _, _) => todo
    case _ => []
  }

  predicate Enabled(s: State, a: Action) {
    match a
    case Append(e) => e.seqno < MAX_SEQ && (s.log != [] ==> s.log[|s.log| - 1].seqno < e.seqno)
    case BrokerRead => !s.broker.stopped && !s.broker.terminal && s.broker.pending == []
    case Broadcast => s.broker.pending != []
    case BrokerStop => !s.broker.stopped && s.broker.pending == [] && (s.broker.terminal || !Listening(s.phase))
    case BrokerClose => s.broker.stopped && !s.broker.closed
    case Subscribe => s.phase.Absent? && !s.broker.closed
    case ReadReplay => s.phase.Subscribed?
    case ReadFails => s.phase.Subscribed? || s.phase.Fetching?
    case Deliver => Todo(s.phase) != [] && (s.hungUp || |s.sent| < s.taken + STREAM_CAPACITY)
    case Settle => (s.phase.Replaying? || s.phase.Backfilling?) && s.phase.todo == []
    case Receive => s.phase.Waiting? && (s.lagged || s.queue != [] || s.broker.closed)
    case Fetch => s.phase.Fetching?
    case Take => Returned(s.phase) && s.taken < |s.sent|
    case HangUp => Returned(s.phase) && !s.phase.Ended?
  }

  /** A full broadcast channel loses its oldest event, and the receiver will notice. */
  function Enqueue(s: State, e: Event): State {
    if !Listening(s.phase) then s
    else if |s.queue| < BROADCAST_CAPACITY then s.(queue := s.queue + [e])
    else s.(queue := s.queue[1..] + [e], lagged := true)
  }

  /** One receive: a gap or a lag asks for a backfill, the event due next is sent on, an old one is dropped. */
  function Received(s: State): State
    requires Enabled(s, Receive)
  {
    if s.lagged then s.(lagged := false, phase := Fetching(false))
    else if s.queue == [] then s.(phase := Fetching(true))
    else
      var e, t := s.queue[0], s.(queue := s.queue[1..]);
      if e.seqno == s.cursor then t.(phase := Sending(e))
      else if e.seqno < s.cursor then t
      else t.(phase := Fetching(false))
  }

  /** The phase after the first event in hand was sent. */
  function Onward(phase: Phase): Phase
    requires Todo(phase) != []
  {
    match phase
    case Replaying(todo, t) => Replaying(todo[1..], t || todo[0].terminal)
    case Sending(e) => if e.terminal then Ended else Waiting
    case Backfilling(todo, t, last) => Backfilling(todo[1..], t || todo[0].terminal, last)
  }

  function Delivered(s: State): State
    requires Enabled(s, Deliver)
  {
    var e := Todo(s.phase)[0];
    if s.phase.Backfilling? && e.seqno < s.cursor then s.(phase := s.phase.(todo := s.phase.todo[1..]))
    else if s.hungUp then s.(phase := Ended)
    else s.(phase := Onward(s.phase), cursor := Succ(e.seqno), sent := s.sent + [e])
  }

  function Broadcasted(s: State): State
    requires Enabled(s, Broadcast)
  {
    var e, b := s.broker.pending[0], s.broker;
    Enqueue(s, e).(broker := b.(cursor := Succ(e.seqno), pending := b.pending[1..], terminal := b.terminal ||
      e.terminal))
  }

  function Do(s: State, a: Action): State
    requires Enabled(s, a)
  {
    match a
    case Append(e) => s.(log := s.log + [e])
    case BrokerRead => s.(broker := s.broker.(pending := Since(s.log, s.broker.cursor)))
    case Broadcast => Broadcasted(s)
    case BrokerStop => s.(broker := s.broker.(stopped := true))
    case BrokerClose => s.(broker := s.broker.(closed := true))
    case Subscribe => s.(phase := Subscribed, queue := [], lagged := false)
    case ReadReplay => s.(phase := Replaying(Since(s.log, 0), false))
    case ReadFails => s.(phase := Ended)
    case Deliver => Delivered(s)
    case Settle => s.(phase := if s.phase.terminal || (s.phase.Backfilling? && s.phase.last) then Ended else Waiting)
    case Receive => Received(s)
    case Fetch => s.(phase := Backfilling(Since(s.log, s.cursor), false, s.phase.last))
    case Take => s.(taken := s.taken + 1)
    case HangUp => s.(hungUp := true)
  }

  // ---------------------------------------------------------------- invariant

  /** One of the first `k` entries is terminal. */
  ghost predicate HasTerminal(events: seq<Event>, k: nat) {
    exists i :: 0 <= i < k <= |events| && events[i].terminal
  }

  /** The broker holds a stretch of the log that begins at its cursor. */
  ghost predicate BrokerOk(log: Log, b: Broker) {
    && AtEntry(log, b.cursor)
    && At(log, Rank(log, b.cursor), b.pending)
    && (b.terminal ==> HasTerminal(log, Rank(log, b.cursor)))
    && (b.closed ==> b.stopped) && (b.stopped ==> b.pending == [])
  }

  /** What was sent is the log below the cursor, and what is in hand follows it. */
  ghost predicate StreamOk(log: Log, phase: Phase, cursor: nat, sent: seq<Event>) {
    && AtEntry(log, cursor)
    && |sent| == Rank(log, cursor)
    && At(log, 0, sent)
    && At(log, |sent|, Todo(phase))
    && (phase.Absent? || phase.Subscribed? ==> cursor == 0)
  }

  /** A terminal event ends the stream. */
  ghost predicate TerminalOk(phase: Phase, sent: seq<Event>) {
    && (phase.Waiting? || phase.Sending? || phase.Fetching? ==> !HasTerminal(sent, |sent|))
    && (phase.Replaying? || phase.Backfilling? ==> (phase.terminal <==> HasTerminal(sent, |sent|)))
  }

  ghost predicate QueueOk(log: Log, queue: seq<Event>) {
    |queue| <= BROADCAST_CAPACITY && forall i :: 0 <= i < |queue| ==> queue[i] in log
  }

  /** The subscriber relies on the broadcast for what it has not in hand. */
  predicate Relies(phase: Phase) {
    phase.Replaying? || phase.Waiting? || phase.Sending? || phase.Backfilling?
  }

  /** Every unsent event that was broadcast is in hand or queued, unless a lag is about to be noticed. */
  ghost predicate Covered(log: Log, done: nat, queue: seq<Event>, lagged: bool, phase: Phase, sent: nat)
    requires done <= |log|
  {
    Relies(phase) && !lagged ==> forall i :: sent + |Todo(phase)| <= i < done ==> log[i] in queue
  }

  ghost predicate RoomOk(phase: Phase, sent: nat, taken: nat, hungUp: bool) {
    && taken <= sent <= taken + STREAM_CAPACITY
    && (phase.Absent? || phase.Subscribed? || phase.Replaying? ==> taken == 0 && !hungUp)
  }

  ghost predicate Inv(s: State) {
    && Increasing(s.log)
    && BrokerOk(s.log, s.broker)
    && StreamOk(s.log, s.phase, s.cursor, s.sent)
    && TerminalOk(s.phase, s.sent)
    && QueueOk(s.log, s.queue)
    && Covered(s.log, Rank(s.log, s.broker.cursor), s.queue, s.lagged, s.phase, |s.sent|)
    && RoomOk(s.phase, |s.sent|, s.taken, s.hungUp)
  }

  /** Any log, and a broker anywhere in it, before the subscriber comes. */
  ghost predicate Initial(s: State) {
    && Increasing(s.log) && BrokerOk(s.log, s.broker)
    && s.phase.Absent? && s.cursor == 0 && s.sent == [] && s.taken == 0 && !s.hungUp && s.queue == [] && !s.lagged
  }

  lemma InitialInv(s: State)
    requires Initial(s)
    ensures Inv(s)
  {
    RankZero(s.log);
  }

  // ---------------------------------------------------------------- appending

  lemma {:induction false} AppendEntry(log: Log, e: Event, c: nat)
    requires Increasing(log) && AtEntry(log, c) && (log != [] ==> log[|log| - 1].seqno < e.seqno)
    ensures Rank(log + [e], c) == Rank(log, c) && AtEntry(log + [e], c)
  {
    if log != [] { IncreasingInit(log); }
    RankSnoc(log, e, c);
  }

  lemma AppendStream(log: Log, e: Event, phase: Phase, cursor: nat, sent: seq<Event>)
    requires Increasing(log) && StreamOk(log, phase, cursor, sent) && (log != [] ==> log[|log| - 1].seqno < e.seqno)
    ensures StreamOk(log + [e], phase, cursor, sent)
  {
    AppendEntry(log, e, cursor);
  }

  lemma {:induction false} AppendBroker(log: Log, e: Event, b: Broker)
    requires Increasing(log) && BrokerOk(log, b) && (log != [] ==> log[|log| - 1].seqno < e.seqno)
    ensures BrokerOk(log + [e], b) && Rank(log + [e], b.cursor) == Rank(log, b.cursor)
  {
    AppendEntry(log, e, b.cursor);
    var k := Rank(log, b.cursor);
    if b.terminal {
      var i :| 0 <= i < k && log[i].terminal;
      assert (log + [e])[i].terminal;
    }
  }

  lemma AppendQueue(log: Log, e: Event, done: nat, queue: seq<Event>, lagged: bool, phase: Phase, sent: nat)
    requires done <= |log| && QueueOk(log, queue) && Covered(log, done, queue, lagged, phase, sent)
    ensures QueueOk(log + [e], queue) && Covered(log + [e], done, queue, lagged, phase, sent)
  {
  }

  lemma AppendLog(log: Log, e: Event)
    requires Increasing(log) && e.seqno < MAX_SEQ && (log != [] ==> log[|log| - 1].seqno < e.seqno)
    ensures Increasing(log + [e])
  {
    forall i, j ensures Before(log + [e], i, j) {
      assert Before(log, i, j) && Before(log, i, |log| - 1);
    }
  }

  lemma AppendKeeps(s: State, e: Event)
    requires Inv(s) && Enabled(s, Append(e))
    ensures Inv(Do(s, Append(e)))
  {
    AppendLog(s.log, e);
    AppendStream(s.log, e, s.phase, s.cursor, s.sent);
    AppendBroker(s.log, e, s.broker);
    AppendQueue(s.log, e, Rank(s.log, s.broker.cursor), s.queue, s.lagged, s.phase, |s.sent|);
  }

  // ---------------------------------------------------------------- the broker's steps

  lemma BrokerReadKeeps(s: State)
    requires Inv(s) && Enabled(s, BrokerRead)
    ensures Inv(Do(s, BrokerRead))
  {
    SinceAt(s.log, s.broker.cursor);
  }

  /** The first of a stretch that begins at the cursor is the entry the cursor stands before. */
  lemma {:induction false} HeadOfStretch(log: Log, c: nat, part: seq<Event>)
    requires Increasing(log) && part != [] && At(log, Rank(log, c), part)
    ensures var k := Rank(log, c);
      && k < |log| && part[0] == log[k] && AtEntry(log, Succ(part[0].seqno)) && Rank(log, Succ(part[0].seqno)) == k + 1
      && At(log, k + 1, part[1..]) && part[0].seqno >= c
  {
    RankNext(log, c);
    RankCuts(log, c);
  }

  lemma TerminalSnoc(events: seq<Event>, e: Event)
    ensures HasTerminal(events + [e], |events| + 1) <==> HasTerminal(events, |events|) || e.terminal
  {
    var all := events + [e];
    if HasTerminal(events, |events|) {
      var i :| 0 <= i < |events| && events[i].terminal;
      assert all[i].terminal;
    }
    if e.terminal { assert all[|events|].terminal; }
  }

  lemma {:induction false} BroadcastBroker(log: Log, b: Broker)
    requires Increasing(log) && BrokerOk(log, b) && b.pending != []
    ensures var e := b.pending[0];
      && BrokerOk(log, b.(cursor := Succ(e.seqno), pending := b.pending[1..], terminal := b.terminal || e.terminal))
      && Rank(log, Succ(e.seqno)) == Rank(log, b.cursor) + 1 <= |log| && e == log[Rank(log, b.cursor)]
  {
    HeadOfStretch(log, b.cursor, b.pending);
    if b.terminal {
      var i :| 0 <= i < Rank(log, b.cursor) && log[i].terminal;
      assert HasTerminal(log, Rank(log, b.cursor) + 1);
    }
  }

  lemma BroadcastQueue(s: State, e: Event, done: nat)
    requires done < |s.log| && e == s.log[done] && QueueOk(s.log, s.queue)
    requires Covered(s.log, done, s.queue, s.lagged, s.phase, |s.sent|)
    ensures var t := Enqueue(s, e);
      QueueOk(s.log, t.queue) &&
      Covered(s.log, done + 1, t.queue, t.lagged, s.phase, |s.sent|)
  {
    var t := Enqueue(s, e);
    if Relies(s.phase) && !t.lagged {
      assert t.queue == s.queue + [e] && !s.lagged;
      forall i | |s.sent| + |Todo(s.phase)| <= i < done + 1 ensures s.log[i] in t.queue {
        if i == done { assert t.queue[|s.queue|] == e; }
      }
    }
  }

  lemma BroadcastKeeps(s: State)
    requires Inv(s) && Enabled(s, Broadcast)
    ensures Inv(Do(s, Broadcast))
  {
    BroadcastBroker(s.log, s.broker);
    BroadcastQueue(s, s.broker.pending[0], Rank(s.log, s.broker.cursor));
  }

  lemma BrokerEndKeeps(s: State)
    requires Inv(s)
    ensures Enabled(s, BrokerStop) ==> Inv(Do(s, BrokerStop))
    ensures Enabled(s, BrokerClose) ==> Inv(Do(s, BrokerClose))
  {
  }

  // ---------------------------------------------------------------- the subscriber's steps

  lemma SubscribeKeeps(s: State)
    requires Inv(s) && Enabled(s, Subscribe)
    ensures Inv(Do(s, Subscribe))
  {
  }

  /** A read puts everything unsent in hand. */
  lemma ReadReplayKeeps(s: State)
    requires Inv(s) && Enabled(s, ReadReplay)
    ensures Inv(Do(s, ReadReplay))
  {
    SinceAt(s.log, 0);
    RankZero(s.log);
  }

  lemma FetchKeeps(s: State)
    requires Inv(s) && Enabled(s, Fetch)
    ensures Inv(Do(s, Fetch))
  {
    SinceAt(s.log, s.cursor);
  }

  lemma ReadFailsKeeps(s: State)
    requires Inv(s) && Enabled(s, ReadFails)
    ensures Inv(Do(s, ReadFails))
  {
  }

  lemma SettleKeeps(s: State)
    requires Inv(s) && Enabled(s, Settle)
    ensures Inv(Do(s, Settle))
  {
  }

  lemma ClientKeeps(s: State)
    requires Inv(s)
    ensures Enabled(s, Take) ==> Inv(Do(s, Take))
    ensures Enabled(s, HangUp) ==> Inv(Do(s, HangUp))
  {
  }

  /** Sending the first event in hand moves the cursor just past it. */
  lemma OnwardStream(log: Log, phase: Phase, cursor: nat, sent: seq<Event>)
    requires Increasing(log) && StreamOk(log, phase, cursor, sent) && TerminalOk(phase, sent) && Todo(phase) != []
    ensures var e := Todo(phase)[0];
      && StreamOk(log, Onward(phase), Succ(e.seqno), sent + [e]) && TerminalOk(Onward(phase), sent + [e])
      && e.seqno >= cursor
      && (Relies(Onward(phase)) ==> |Todo(Onward(phase))| == |Todo(phase)| - 1)
  {
    HeadOfStretch(log, cursor, Todo(phase));
    TerminalSnoc(sent, Todo(phase)[0]);
    assert Relies(Onward(phase)) ==> Todo(Onward(phase)) == Todo(phase)[1..];
  }

  lemma DeliverKeeps(s: State)
    requires Inv(s) && Enabled(s, Deliver)
    ensures Inv(Do(s, Deliver))
  {
    OnwardStream(s.log, s.phase, s.cursor, s.sent);
  }

  lemma {:induction false} InLog(log: Log, e: Event, c: nat)
    requires Increasing(log) && e in log
    ensures e.seqno == c ==> Rank(log, c) < |log| && log[Rank(log, c)] == e
    ensures e.seqno <= c ==> forall i :: Rank(log, c) + (if e.seqno == c then 1 else 0) <= i < |log| ==> log[i] != e
  {
    RankCuts(log, c);
    var k := Rank(log, c);
    var i :| 0 <= i < |log| && log[i] == e;
    if e.seqno == c {
      assert Before(log, k, i);
      forall j | k + 1 <= j < |log| ensures log[j] != e { assert Before(log, k, j); }
    }
  }

  /** Without the event at the front, the queue still holds the others. */
  lemma {:induction false} Dequeued(log: Log, done: nat, queue: seq<Event>, phase: Phase, cursor: nat)
    requires Increasing(log) && done <= |log| && queue != [] && QueueOk(log, queue)
    requires Covered(log, done, queue, false, Waiting, Rank(log, cursor)) && queue[0].seqno <= cursor
    requires phase == (if queue[0].seqno == cursor then Sending(queue[0]) else Waiting)
    ensures Covered(log, done, queue[1..], false, phase, Rank(log, cursor))
  {
    InLog(log, queue[0], cursor);
    forall i | Rank(log, cursor) + |Todo(phase)| <= i < done ensures log[i] in queue[1..] {
      assert log[i] in queue;
      var j :| 0 <= j < |queue| && queue[j] == log[i];
      assert queue[1..][j - 1] == log[i];
    }
  }

  lemma ReceiveGap(s: State)
    requires Inv(s) && Enabled(s, Receive) && (s.lagged || s.queue == [] || s.queue[0].seqno > s.cursor)
    ensures Inv(Do(s, Receive))
  {
  }

  lemma ReceiveKeeps(s: State)
    requires Inv(s) && Enabled(s, Receive)
    ensures Inv(Do(s, Receive))
  {
    if s.lagged || s.queue == [] || s.queue[0].seqno > s.cursor {
      ReceiveGap(s);
    } else {
      var e := s.queue[0];
      InLog(s.log, e, s.cursor);
      Dequeued(s.log, Rank(s.log, s.broker.cursor), s.queue, if e.seqno == s.cursor then Sending(e) else Waiting,
        s.cursor);
    }
  }

  lemma StepKeeps(s: State, a: Action)
    requires Inv(s) && Enabled(s, a)
    ensures Inv(Do(s, a))
  {
    match a
    case Append(e) => AppendKeeps(s, e);
    case BrokerRead => BrokerReadKeeps(s);
    case Broadcast => BroadcastKeeps(s);
    case BrokerStop => BrokerEndKeeps(s);
    case BrokerClose => BrokerEndKeeps(s);
    case Subscribe => SubscribeKeeps(s);
    case ReadReplay => ReadReplayKeeps(s);
    case Deliver => DeliverKeeps(s);
    case Receive => ReceiveKeeps(s);
    case Fetch => FetchKeeps(s);
    case ReadFails => ReadFailsKeeps(s);
    case Settle => SettleKeeps(s);
    case _ => ClientKeeps(s);
  }
}
