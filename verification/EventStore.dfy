/** The in-process event store: numbered logs per conversation. */
module EventStore {

  datatype Envelope = Envelope(seqNo: int, runId: string, payload: string)

  ghost predicate Numbered(log: seq<Envelope>) {
    forall i | 0 <= i < |log| :: log[i].seqNo == i + 1
  }

  /** `[event for event in log if event.seq > after]` */
  function Later(log: seq<Envelope>, after: int): seq<Envelope> {
    if log == [] then []
    else
      var front := Later(log[..|log| - 1], after);
      if log[|log| - 1].seqNo > after then front + [log[|log| - 1]] else front
  }

  /** The first position a reader at `cursor` has not seen. */
  function Position(cursor: int): nat {
    if cursor < 0 then 0 else cursor
  }

  function Rest(log: seq<Envelope>, cursor: int): seq<Envelope> {
    if Position(cursor) >= |log| then [] else log[Position(cursor)..]
  }

  /** On a numbered log the query is a slice: nothing is missing and nothing is repeated. */
  lemma {:induction false} LaterIsRest(log: seq<Envelope>, after: int)
    requires Numbered(log)
    ensures Later(log, after) == Rest(log, after)
    decreases |log|
  {
    if log != [] {
      var k := |log| - 1;
      var front := log[..k];
      LaterIsRest(front, after);
      assert log[k].seqNo > after <==> Position(after) <= k;
      if Position(after) < k {
        assert log[Position(after)..] == front[Position(after)..] + [log[k]];
      } else if Position(after) == k {
        assert log[k..] == [log[k]];
      }
    }
  }

  class InMemoryEventStore {
    var events: map<string, seq<Envelope>>

    ghost predicate Valid()
      reads this
    {
      forall c | c in events :: Numbered(events[c])
    }

    function Log(conversation: string): seq<Envelope>
      reads this
    {
      if conversation in events then events[conversation] else []
    }

    constructor ()
      ensures Valid() && events == map[]
    {
      events := map[];
    }

    /** Append accepts exactly the next sequence number, and touches no other conversation. */
    method Append(conversation: string, event: Envelope) returns (ok: bool)
      requires Valid()
      modifies this
      ensures Valid() && (ok <==> event.seqNo == |old(Log(conversation))| + 1)
      ensures Log(conversation) == old(Log(conversation)) + if ok then [event] else []
      ensures forall c | c != conversation :: Log(c) == old(Log(c))
    {
      var log := if conversation in events then events[conversation] else [];
      ok := event.seqNo == |log| + 1;
      if ok {
        events := events[conversation := log + [event]];
      }
    }

    method List(conversation: string, after: int) returns (found: seq<Envelope>)
      requires Valid()
      ensures found == Rest(Log(conversation), after)
    {
      var log := Log(conversation);
      found := [];
      for i := 0 to |log|
        invariant found == Later(log[..i], after)
      {
        assert log[..i + 1][..i] == log[..i];
        if log[i].seqNo > after {
          found := found + [log[i]];
        }
      }
      assert log[..|log|] == log;
      LaterIsRest(log, after);
    }
  }
}

/**
 * Streaming under every interleaving: one conversation, any number of publishers and consumers. Publishers append
 * and schedule a notification; consumers read, re-check under the condition's lock, and wait.
 */
module EventStream {
  import opened EventStore

  datatype Pc =
    | Check                              // about to list outside the lock
    | Yielding(rest: seq<Envelope>)      // handing out a listed batch
    | WantLock                           // found nothing, about to take the lock
    | Locked                             // holds the lock, about to re-check
    | Waiting                            // in condition.wait(), lock released
    | Woken                              // notified, waiting to get the lock back

  datatype Consumer = Consumer(start: int, cursor: int, pc: Pc, received: seq<Envelope>)

  datatype Lock = Free | ByPublisher | ByConsumer

  /** `pending` counts scheduled notifications that have not been delivered. */
  datatype System = System(log: seq<Envelope>, pending: nat, lock: Lock, consumers: seq<Consumer>)

  datatype Action =
    | Publish(runId: string, payload: string)   // append an event and schedule its notification
    | Join(start: int)                          // a new consumer asks for everything after `start`
    | NotifierLocks
    | NotifierNotifies
    | Advance(consumer: nat)

  const EMPTY := System([], 0, Free, [])

  function Wake(c: Consumer): Consumer {
    if c.pc == Waiting then c.(pc := Woken) else c
  }

  /** One uninterrupted stretch of a consumer, and the lock afterwards. */
  function AdvanceOne(recheck: bool, log: seq<Envelope>, lock: Lock, c: Consumer): (Consumer, Lock) {
    match c.pc
    case Check =>
      var found := Later(log, c.cursor);
      (c.(pc := if found == [] then WantLock else Yielding(found)), lock)
    case Yielding(rest) =>
      if rest == [] then (c.(pc := Check), lock)
      else (Consumer(c.start, rest[0].seqNo, if |rest| == 1 then Check else Yielding(rest[1..]), c.received + [rest[0]]), lock)
    case WantLock => if lock == Free then (c.(pc := Locked), ByConsumer) else (c, lock)
    case Locked =>
      var found := if recheck then Later(log, c.cursor) else [];
      (c.(pc := if found == [] then Waiting else Yielding(found)), Free)
    case Waiting => (c, lock)
    case Woken => if lock == Free then (c.(pc := Check), lock) else (c, lock)
  }

  predicate CanAdvance(s: System, i: nat) {
    i < |s.consumers| && match s.consumers[i].pc
      case Waiting => false
      case WantLock => s.lock == Free
      case Woken => s.lock == Free
      case _ => true
  }

  predicate Enabled(s: System, a: Action) {
    match a
    case Publish(_, _) => true
    case Join(_) => true
    case NotifierLocks => s.pending > 0 && s.lock == Free
    case NotifierNotifies => s.lock == ByPublisher && s.pending > 0
    case Advance(i) => CanAdvance(s, i)
  }

  /** A step of the system; the code has `recheck == true`. A disabled action changes nothing. */
  function Next(recheck: bool, s: System, a: Action): System {
    if !Enabled(s, a) then s
    else match a
      case Publish(runId, payload) =>
        s.(log := s.log + [Envelope(|s.log| + 1, runId, payload)], pending := s.pending + 1)
      case Join(start) => s.(consumers := s.consumers + [Consumer(start, start, Check, [])])
      case NotifierLocks => s.(lock := ByPublisher)
      case NotifierNotifies =>
        s.(pending := s.pending - 1, lock := Free,
           consumers := seq(|s.consumers|, i requires 0 <= i < |s.consumers| => Wake(s.consumers[i])))
      case Advance(i) =>
        var (c, lock) := AdvanceOne(recheck, s.log, s.lock, s.consumers[i]);
        s.(consumers := s.consumers[i := c], lock := lock)
  }

  function Run(recheck: bool, actions: seq<Action>): System {
    if actions == [] then EMPTY
    else Next(recheck, Run(recheck, actions[..|actions| - 1]), actions[|actions| - 1])
  }

  // ---------------------------------------------------------------- the invariant

  predicate Backlog(log: seq<Envelope>, c: Consumer) {
    Position(c.cursor) < |log|
  }

  /** What `c` has received is the log from its start to its cursor. */
  ghost predicate Exact(log: seq<Envelope>, c: Consumer) {
    || (c.received == [] && c.cursor == c.start)
    || (Position(c.start) < c.cursor <= |log| && c.received == log[Position(c.start)..c.cursor])
  }

  /** The batch being handed out is the part of the log right after the cursor. */
  ghost predicate Listed(log: seq<Envelope>, c: Consumer)
    requires c.pc.Yielding?
  {
    var p, rest := Position(c.cursor), c.pc.rest;
    rest != [] && p + |rest| <= |log| && rest == log[p..p + |rest|]
  }

  ghost predicate ConsumerOk(log: seq<Envelope>, pending: nat, c: Consumer) {
    && Exact(log, c)
    && (c.pc.Yielding? ==> Listed(log, c))
    && (c.pc.Waiting? && Backlog(log, c) ==> pending > 0)
  }

  ghost predicate Inv(s: System) {
    && Numbered(s.log)
    && (s.lock == ByPublisher ==> s.pending > 0)
    && (s.lock == ByConsumer <==> exists i | 0 <= i < |s.consumers| :: s.consumers[i].pc == Locked)
    && (forall i, j | 0 <= i < j < |s.consumers| :: !(s.consumers[i].pc == Locked && s.consumers[j].pc == Locked))
    && (forall i | 0 <= i < |s.consumers| :: ConsumerOk(s.log, s.pending, s.consumers[i]))
  }

  lemma PublishKeeps(log: seq<Envelope>, pending: nat, c: Consumer, e: Envelope)
    requires ConsumerOk(log, pending, c)
    ensures ConsumerOk(log + [e], pending + 1, c)
  {
    var log' := log + [e];
    if c.received != [] {
      assert log'[Position(c.start)..c.cursor] == log[Position(c.start)..c.cursor];
    }
    if c.pc.Yielding? {
      var p := Position(c.cursor);
      assert log'[p..p + |c.pc.rest|] == log[p..p + |c.pc.rest|];
    }
  }

  /** Handing out one event moves the cursor to it and extends what was received by it. */
  lemma YieldKeeps(log: seq<Envelope>, c: Consumer, c': Consumer)
    requires Numbered(log) && Exact(log, c) && c.pc.Yielding? && Listed(log, c)
    requires c'.start == c.start && c'.cursor == c.pc.rest[0].seqNo && c'.received == c.received + [c.pc.rest[0]]
    ensures Exact(log, c') && c'.cursor == Position(c.cursor) + 1
    ensures |c.pc.rest| > 1 ==> c.pc.rest[1..] == log[c'.cursor..c'.cursor + |c.pc.rest| - 1]
  {
    var p, rest := Position(c.cursor), c.pc.rest;
    assert rest[0] == log[p];
    assert log[p].seqNo == p + 1;
    if c.received == [] {
      assert c'.received == log[p..p + 1];
    } else {
      assert c'.received == log[Position(c.start)..p + 1];
    }
  }

  /** A consumer that lists hands out all that is left; one that finds nothing has no backlog. */
  lemma FoundKeeps(log: seq<Envelope>, pending: nat, c: Consumer, c': Consumer)
    requires Exact(log, c) && c'.start == c.start && c'.cursor == c.cursor && c'.received == c.received
    requires if Rest(log, c.cursor) == [] then !c'.pc.Yielding? else c'.pc == Yielding(Rest(log, c.cursor))
    ensures ConsumerOk(log, pending, c')
  {
    if Backlog(log, c) {
      var p := Position(c.cursor);
      assert log[p..] == log[p..p + |log[p..]|];
    }
  }

  lemma AdvanceKeeps(log: seq<Envelope>, pending: nat, lock: Lock, c: Consumer)
    requires Numbered(log) && ConsumerOk(log, pending, c)
    ensures ConsumerOk(log, pending, AdvanceOne(true, log, lock, c).0)
  {
    var c' := AdvanceOne(true, log, lock, c).0;
    if c.pc.Yielding? {
      YieldKeeps(log, c, c');
      if c'.pc.Yielding? {
        assert Listed(log, c');
      }
    } else if c.pc == Check || c.pc == Locked {
      var rest := Later(log, c.cursor);
      assert rest == Rest(log, c.cursor) by {
        LaterIsRest(log, c.cursor);
      }
      FoundKeeps(log, pending, c, c');
    }
  }

  lemma AdvanceInv(s: System, i: nat)
    requires Inv(s) && CanAdvance(s, i)
    ensures Inv(Next(true, s, Advance(i)))
  {
    var s' := Next(true, s, Advance(i));
    AdvanceKeeps(s.log, s.pending, s.lock, s.consumers[i]);
    var c, c' := s.consumers[i], s'.consumers[i];
    if c.pc == WantLock {
      assert forall j | 0 <= j < |s.consumers| :: s.consumers[j].pc != Locked;
      assert s'.consumers[i].pc == Locked;
    } else if c.pc == Locked {
      assert s.lock == ByConsumer;
      forall j | 0 <= j < |s'.consumers| ensures s'.consumers[j].pc != Locked {
        if j != i {
          assert s'.consumers[j] == s.consumers[j];
        }
      }
    } else {
      assert c'.pc != Locked && s'.lock == s.lock;
      if k :| 0 <= k < |s.consumers| && s.consumers[k].pc == Locked {
        assert s'.consumers[k] == s.consumers[k];
      }
    }
  }

  lemma NotifyInv(s: System)
    requires Inv(s) && Enabled(s, NotifierNotifies)
    ensures Inv(Next(true, s, NotifierNotifies))
  {
    var s' := Next(true, s, NotifierNotifies);
    forall i | 0 <= i < |s'.consumers|
      ensures ConsumerOk(s'.log, s'.pending, s'.consumers[i]) && s'.consumers[i].pc != Locked
    {
      assert s'.consumers[i] == Wake(s.consumers[i]);
      assert s.consumers[i].pc != Locked;
    }
  }

  lemma NextInv(s: System, a: Action)
    requires Inv(s)
    ensures Inv(Next(true, s, a))
  {
    if Enabled(s, a) {
      var s' := Next(true, s, a);
      match a
      case Publish(runId, payload) =>
        forall i | 0 <= i < |s.consumers| ensures ConsumerOk(s'.log, s'.pending, s'.consumers[i]) {
          PublishKeeps(s.log, s.pending, s.consumers[i], Envelope(|s.log| + 1, runId, payload));
        }
      case Join(_) =>
        assert s'.consumers[..|s.consumers|] == s.consumers;
        if k :| 0 <= k < |s.consumers| && s.consumers[k].pc == Locked {
          assert s'.consumers[k] == s.consumers[k];
        }
      case NotifierLocks =>
      case NotifierNotifies => NotifyInv(s);
      case Advance(i) => AdvanceInv(s, i);
    }
  }

  lemma {:induction false} RunInv(actions: seq<Action>)
    ensures Inv(Run(true, actions))
    decreases |actions|
  {
    if actions != [] {
      RunInv(actions[..|actions| - 1]);
      NextInv(Run(true, actions[..|actions| - 1]), actions[|actions| - 1]);
    }
  }

  // ---------------------------------------------------------------- safety

  /** Under every interleaving a consumer has received the log from its start, in order, without gap or repeat. */
  lemma StreamExact(actions: seq<Action>, i: nat)
    requires i < |Run(true, actions).consumers|
    ensures
      var s := Run(true, actions);
      var c := s.consumers[i];
      c.received <= Rest(s.log, c.start) && (c.received != [] ==> c.cursor == Position(c.start) + |c.received|)
  {
    RunInv(actions);
    var s := Run(true, actions);
    var c := s.consumers[i];
    assert ConsumerOk(s.log, s.pending, c);
    if c.received != [] {
      var p := Position(c.start);
      assert s.log[p..][..c.cursor - p] == s.log[p..c.cursor];
    }
  }

  /** The start cursors the consumers asked for, in order of joining. */
  function AskedStarts(actions: seq<Action>): seq<int> {
    if actions == [] then []
    else
      var front, a := AskedStarts(actions[..|actions| - 1]), actions[|actions| - 1];
      if a.Join? then front + [a.start] else front
  }

  /** What was published, in order, without the numbers. */
  function Published(actions: seq<Action>): seq<(string, string)> {
    if actions == [] then []
    else
      var front, a := Published(actions[..|actions| - 1]), actions[|actions| - 1];
      if a.Publish? then front + [(a.runId, a.payload)] else front
  }

  /** The log is what was published, numbered from one, and every consumer starts where it asked to. */
  lemma {:induction false} AsPublishedAndAsked(actions: seq<Action>)
    ensures
      var s := Run(true, actions);
      && Starts(s) == AskedStarts(actions) && |s.log| == |Published(actions)|
      && forall i | 0 <= i < |s.log| :: s.log[i] == Envelope(i + 1, Published(actions)[i].0, Published(actions)[i].1)
    decreases |actions|
  {
    if actions != [] {
      var front, a := actions[..|actions| - 1], actions[|actions| - 1];
      AsPublishedAndAsked(front);
      var s := Run(true, front);
      if !a.Publish? && !a.Join? {
        InternalStepShape(s, a);
      } else {
        OutsideStepShape(s, a);
      }
    }
  }

  lemma OutsideStepShape(s: System, a: Action)
    requires a.Publish? || a.Join?
    ensures
      var s' := Next(true, s, a);
      && Starts(s') == Starts(s) + (if a.Join? then [a.start] else [])
      && s'.log == s.log + if a.Publish? then [Envelope(|s.log| + 1, a.runId, a.payload)] else []
  {
  }

  /** No lost wakeup: a consumer that waits with a backlog has an undelivered notification coming. */
  lemma NoLostWakeup(actions: seq<Action>, i: nat)
    requires i < |Run(true, actions).consumers|
    ensures
      var s := Run(true, actions);
      s.consumers[i].pc == Waiting && Backlog(s.log, s.consumers[i]) ==> s.pending > 0
  {
    RunInv(actions);
    var s := Run(true, actions);
    assert ConsumerOk(s.log, s.pending, s.consumers[i]);
  }

  /** Nothing but new events or new consumers can move the system. */
  predicate Quiescent(s: System) {
    && !Enabled(s, NotifierLocks) && !Enabled(s, NotifierNotifies)
    && forall i | 0 <= i < |s.consumers| :: !CanAdvance(s, i)
  }

  /** When the system comes to rest every consumer has received everything it asked for. */
  lemma RestMeansDelivered(s: System, i: nat)
    requires Inv(s) && Quiescent(s) && i < |s.consumers|
    ensures s.consumers[i].pc == Waiting && s.consumers[i].received == Rest(s.log, s.consumers[i].start)
  {
    if s.lock == ByConsumer {
      var k :| 0 <= k < |s.consumers| && s.consumers[k].pc == Locked;
      assert CanAdvance(s, k);
    }
    assert s.lock == Free && s.pending == 0;
    var c := s.consumers[i];
    assert !CanAdvance(s, i);
    assert ConsumerOk(s.log, s.pending, c);
    assert !Backlog(s.log, c);
    if c.received != [] {
      assert s.log[Position(c.start)..c.cursor] == s.log[Position(c.start)..];
    }
  }

  /** The re-check is what prevents the stall: without it a consumer can wait for ever on a backlog. */
  lemma LostWakeupWithoutRecheck(runId: string, payload: string)
    ensures
      var actions := [Join(0), Advance(0), Publish(runId, payload), NotifierLocks, NotifierNotifies, Advance(0), Advance(0)];
      var s := Run(false, actions);
      |s.consumers| == 1 && s.consumers[0].pc == Waiting && Backlog(s.log, s.consumers[0]) && Quiescent(s)
  {
    var e := Envelope(1, runId, payload);
    var a1 := [Join(0)];
    var a3 := a1 + [Advance(0), Publish(runId, payload)];
    var a5 := a3 + [NotifierLocks, NotifierNotifies];
    assert Run(false, []) == EMPTY;
    RunSnoc(false, [], Join(0));
    RunTwo(false, a1, Advance(0), Publish(runId, payload));
    assert Run(false, a3) == System([e], 1, Free, [Consumer(0, 0, WantLock, [])]);
    RunTwo(false, a3, NotifierLocks, NotifierNotifies);
    assert Run(false, a5) == System([e], 0, Free, [Consumer(0, 0, WantLock, [])]);
    RunTwo(false, a5, Advance(0), Advance(0));
    assert a5 + [Advance(0), Advance(0)] ==
           [Join(0), Advance(0), Publish(runId, payload), NotifierLocks, NotifierNotifies, Advance(0), Advance(0)];
    assert Run(false, a5 + [Advance(0), Advance(0)]) == System([e], 0, Free, [Consumer(0, 0, Waiting, [])]);
  }

  lemma RunSnoc(recheck: bool, actions: seq<Action>, a: Action)
    ensures Run(recheck, actions + [a]) == Next(recheck, Run(recheck, actions), a)
  {
    assert (actions + [a])[..|actions|] == actions;
  }

  lemma RunTwo(recheck: bool, actions: seq<Action>, a: Action, b: Action)
    ensures Run(recheck, actions + [a, b]) == Next(recheck, Next(recheck, Run(recheck, actions), a), b)
  {
    assert actions + [a, b] == actions + [a] + [b];
    RunSnoc(recheck, actions, a);
    RunSnoc(recheck, actions + [a], b);
  }

  // ---------------------------------------------------------------- every schedule drains

  function NotifierWork(s: System): nat {
    2 * s.pending + if s.lock == ByPublisher then 0 else 1
  }

  function Weight(log: seq<Envelope>, c: Consumer): nat {
    var p := Position(c.cursor);
    8 * (if p < |log| then |log| - p else 0) +
    match c.pc case Woken => 6 case Check => 5 case WantLock => 4 case Locked => 3 case Yielding(_) => 2 case Waiting => 1
  }

  function TotalWeight(log: seq<Envelope>, cs: seq<Consumer>): nat {
    if cs == [] then 0 else Weight(log, cs[0]) + TotalWeight(log, cs[1..])
  }

  lemma {:induction false} TotalWeightUpdate(log: seq<Envelope>, cs: seq<Consumer>, i: nat, c: Consumer)
    requires i < |cs|
    ensures TotalWeight(log, cs[i := c]) + Weight(log, cs[i]) == TotalWeight(log, cs) + Weight(log, c)
  {
    if i == 0 {
      assert cs[i := c][1..] == cs[1..];
    } else {
      assert cs[i := c][1..] == cs[1..][i - 1 := c];
      TotalWeightUpdate(log, cs[1..], i - 1, c);
    }
  }

  lemma AdvanceLighter(log: seq<Envelope>, pending: nat, lock: Lock, c: Consumer)
    requires Numbered(log) && ConsumerOk(log, pending, c)
    requires c.pc != Waiting && (c.pc == WantLock || c.pc == Woken ==> lock == Free)
    ensures Weight(log, AdvanceOne(true, log, lock, c).0) < Weight(log, c)
    ensures lock != ByPublisher && c.pc == Locked ==> AdvanceOne(true, log, lock, c).1 != ByPublisher
  {
    if c.pc.Yielding? {
      assert c.pc.rest[0] == log[Position(c.cursor)];
    } else {
      LaterIsRest(log, c.cursor);
    }
  }

  /** Every step that is not a new event or a new consumer makes the system strictly lighter. */
  lemma InternalStepsDescend(s: System, a: Action)
    requires Inv(s) && Enabled(s, a) && !a.Publish? && !a.Join?
    ensures
      var s' := Next(true, s, a);
      || NotifierWork(s') < NotifierWork(s)
      || (NotifierWork(s') == NotifierWork(s) && TotalWeight(s'.log, s'.consumers) < TotalWeight(s.log, s.consumers))
  {
    if a.Advance? {
      var i := a.consumer;
      var c := s.consumers[i];
      assert ConsumerOk(s.log, s.pending, c);
      assert c.pc == Locked ==> s.lock == ByConsumer;
      AdvanceLighter(s.log, s.pending, s.lock, c);
      TotalWeightUpdate(s.log, s.consumers, i, AdvanceOne(true, s.log, s.lock, c).0);
    }
  }

  function Starts(s: System): seq<int> {
    seq(|s.consumers|, i requires 0 <= i < |s.consumers| => s.consumers[i].start)
  }

  lemma InternalStepShape(s: System, a: Action)
    requires !a.Publish? && !a.Join?
    ensures Next(true, s, a).log == s.log && Starts(Next(true, s, a)) == Starts(s)
  {
  }

  /** A scheduler: it names an enabled internal step whenever there is one. */
  ghost predicate Scheduler(pick: System -> Action) {
    forall s :: !Quiescent(s) ==> Enabled(s, pick(s)) && !pick(s).Publish? && !pick(s).Join?
  }

  /** Run the internal steps `pick` chooses until the system is at rest. */
  ghost function Drain(pick: System -> Action, s: System): (r: System)
    requires Scheduler(pick) && Inv(s)
    ensures Inv(r) && Quiescent(r) && r.log == s.log && Starts(r) == Starts(s)
    decreases NotifierWork(s), TotalWeight(s.log, s.consumers)
  {
    if Quiescent(s) then s
    else
      NextInv(s, pick(s));
      InternalStepsDescend(s, pick(s));
      InternalStepShape(s, pick(s));
      Drain(pick, Next(true, s, pick(s)))
  }

  /**
   * Liveness: from every reachable state, under every scheduler, the system comes to rest in finitely many steps and
   * then every consumer has received exactly the log after its start cursor.
   */
  lemma EveryScheduleDelivers(actions: seq<Action>, pick: System -> Action, i: nat)
    requires Scheduler(pick) && i < |Run(true, actions).consumers|
    ensures Inv(Run(true, actions))
    ensures
      var s := Run(true, actions);
      |Drain(pick, s).consumers| == |s.consumers| && Drain(pick, s).consumers[i].received == Rest(s.log, s.consumers[i].start)
  {
    RunInv(actions);
    var s := Run(true, actions);
    var r := Drain(pick, s);
    assert |Starts(r)| == |Starts(s)| && Starts(r)[i] == Starts(s)[i];
    RestMeansDelivered(r, i);
  }
}
