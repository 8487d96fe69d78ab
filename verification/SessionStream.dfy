/**
 * The session event stream: one cursor per conversation, polled round after round while logs grow and
 * conversations appear between any two steps.
 */
module SessionStream {
  import opened EventStore

  /** Conversation and session ids. */
  type Uuid = int

  datatype Conversation = Conversation(id: Uuid, session: Uuid)

  datatype Pc =
    | Between                                      // waiting for the next poll
    | Visiting(next: nat)                          // about to list conversation `next` of the snapshot
    | Yielding(at: nat, rest: seq<Envelope>)       // handing out what was listed for conversation `at`

  /** `snapshot` and `base` are the conversations and logs as they were when the current round began. */
  datatype State = State(conversations: seq<Conversation>, logs: map<Uuid, seq<Envelope>>, cursors: map<Uuid, int>,
                         yielded: seq<(Uuid, Envelope)>, pc: Pc, snapshot: seq<Conversation>, base: map<Uuid, seq<Envelope>>)

  datatype Action = Open(conversation: Conversation) | Append(id: Uuid, runId: string, payload: string) | Poll

  const EMPTY := State([], map[], map[], [], Between, [], map[])

  function LogOf(logs: map<Uuid, seq<Envelope>>, id: Uuid): seq<Envelope> {
    if id in logs then logs[id] else []
  }

  function CursorOf(s: State, after: int, id: Uuid): int {
    if id in s.cursors then s.cursors[id] else after
  }

  function PollStep(session: Uuid, after: int, s: State): State {
    match s.pc
    case Between => s.(pc := Visiting(0), snapshot := s.conversations, base := s.logs)
    case Visiting(k) =>
      if k >= |s.snapshot| then s.(pc := Between)
      else if s.snapshot[k].session != session then s.(pc := Visiting(k + 1))
      else s.(pc := Yielding(k, Later(LogOf(s.logs, s.snapshot[k].id), CursorOf(s, after, s.snapshot[k].id))))
    case Yielding(k, rest) =>
      if rest == [] || k >= |s.snapshot| then s.(pc := Visiting(k + 1))
      else
        var id := s.snapshot[k].id;
        s.(cursors := s.cursors[id := rest[0].seqNo], yielded := s.yielded + [(id, rest[0])], pc := Yielding(k, rest[1..]))
  }

  function Next(session: Uuid, after: int, s: State, a: Action): State {
    match a
    case Open(c) => s.(conversations := s.conversations + [c])
    case Append(id, runId, payload) =>
      var log := LogOf(s.logs, id);
      s.(logs := s.logs[id := log + [Envelope(|log| + 1, runId, payload)]])
    case Poll => PollStep(session, after, s)
  }

  function Run(session: Uuid, after: int, actions: seq<Action>): State {
    if actions == [] then EMPTY
    else Next(session, after, Run(session, after, actions[..|actions| - 1]), actions[|actions| - 1])
  }

  /** The events of one conversation among those yielded, in order. */
  function Projection(yielded: seq<(Uuid, Envelope)>, id: Uuid): seq<Envelope> {
    if yielded == [] then []
    else
      var front := Projection(yielded[..|yielded| - 1], id);
      var last := yielded[|yielded| - 1];
      if last.0 == id then front + [last.1] else front
  }

  // ---------------------------------------------------------------- the invariant

  /** What was yielded of one conversation is its log slice from the start cursor to its current cursor. */
  ghost predicate Exact(s: State, after: int, id: Uuid) {
    if id in s.cursors then
      var p, k := Position(after), s.cursors[id];
      p < k <= |LogOf(s.logs, id)| && Projection(s.yielded, id) == LogOf(s.logs, id)[p..k]
    else Projection(s.yielded, id) == []
  }

  /** Everything of `id` that was logged when the round began lies before its cursor. */
  ghost predicate Caught(s: State, after: int, id: Uuid) {
    |LogOf(s.base, id)| <= Position(CursorOf(s, after, id))
  }

  /** The batch being handed out is the log right after the cursor, and reaches what was logged when the round began. */
  ghost predicate Listed(s: State, after: int, id: Uuid)
    requires s.pc.Yielding?
  {
    var log, p, rest := LogOf(s.logs, id), Position(CursorOf(s, after, id)), s.pc.rest;
    && (rest != [] ==> p + |rest| <= |log|)
    && (forall m | 0 <= m < |rest| :: rest[m] == log[p + m])
    && |LogOf(s.base, id)| <= p + |rest|
  }

  function Visited(s: State): nat {
    match s.pc case Between => 0 case Visiting(k) => k case Yielding(k, _) => k
  }

  /** The logs are numbered and only grow, and what was yielded of `id` is exact. */
  ghost predicate Written(s: State, after: int, id: Uuid) {
    Numbered(LogOf(s.logs, id)) && LogOf(s.base, id) <= LogOf(s.logs, id) && Exact(s, after, id)
  }

  /** The current round: the batch in hand is right, and if the round is past entry `j` for `id` then `id` is caught up. */
  ghost predicate InRound(s: State, session: Uuid, after: int, id: Uuid, j: nat) {
    && Visited(s) <= |s.snapshot|
    && (s.pc.Yielding? ==> s.pc.at < |s.snapshot| && (s.snapshot[s.pc.at].id == id ==> Listed(s, after, id)))
    && (j < Visited(s) && s.snapshot[j].id == id && s.snapshot[j].session == session ==> Caught(s, after, id))
  }

  ghost predicate Inv(s: State, session: Uuid, after: int, id: Uuid, j: nat) {
    Written(s, after, id) && InRound(s, session, after, id, j)
  }

  lemma AppendWritten(s: State, session: Uuid, after: int, id: Uuid, a: Action)
    requires Written(s, after, id) && a.Append?
    ensures Written(Next(session, after, s, a), after, id)
  {
    if a.id == id && id in s.cursors {
      var log, log' := LogOf(s.logs, id), LogOf(Next(session, after, s, a).logs, id);
      assert log'[Position(after)..s.cursors[id]] == log[Position(after)..s.cursors[id]];
    }
  }

  lemma AppendRound(s: State, session: Uuid, after: int, id: Uuid, j: nat, a: Action)
    requires InRound(s, session, after, id, j) && a.Append?
    ensures InRound(Next(session, after, s, a), session, after, id, j)
  {
  }

  /** Handing out one event of conversation `id` extends its projection by that event. */
  lemma YieldWritten(s: State, session: Uuid, after: int, id: Uuid, j: nat)
    requires Inv(s, session, after, id, j) && s.pc.Yielding? && s.pc.rest != [] && s.snapshot[s.pc.at].id == id
    ensures Written(PollStep(session, after, s), after, id)
    ensures PollStep(session, after, s).cursors[id] == Position(CursorOf(s, after, id)) + 1
  {
    var s' := PollStep(session, after, s);
    var rest, log := s.pc.rest, LogOf(s.logs, id);
    var p, start := Position(CursorOf(s, after, id)), Position(after);
    assert rest[0] == log[p] && log[p].seqNo == p + 1;
    assert s'.yielded[..|s.yielded|] == s.yielded;
    assert Projection(s.yielded, id) == log[start..p];
    assert log[start..p] + [log[p]] == log[start..p + 1];
  }

  lemma YieldRound(s: State, session: Uuid, after: int, id: Uuid, j: nat)
    requires Inv(s, session, after, id, j) && s.pc.Yielding? && s.pc.rest != [] && s.snapshot[s.pc.at].id == id
    requires PollStep(session, after, s).cursors[id] == Position(CursorOf(s, after, id)) + 1
    ensures InRound(PollStep(session, after, s), session, after, id, j)
  {
    var rest := s.pc.rest;
    assert forall m | 0 <= m < |rest[1..]| :: rest[1..][m] == rest[m + 1];
  }

  /** A step that hands out no event of `id` leaves its account alone. */
  lemma OtherWritten(s: State, session: Uuid, after: int, id: Uuid, j: nat)
    requires Inv(s, session, after, id, j) && !(s.pc.Yielding? && s.pc.rest != [] && s.snapshot[s.pc.at].id == id)
    ensures Written(PollStep(session, after, s), after, id)
  {
    if s.pc.Yielding? && s.pc.rest != [] {
      assert PollStep(session, after, s).yielded[..|s.yielded|] == s.yielded;
    }
  }

  /** What a query after the cursor finds is the log from there on, position by position. */
  lemma FoundIsLeft(log: seq<Envelope>, cursor: int, base: seq<Envelope>)
    requires Numbered(log) && base <= log
    ensures
      var found, p := Later(log, cursor), Position(cursor);
      && (found != [] ==> p + |found| <= |log|)
      && (forall m | 0 <= m < |found| :: found[m] == log[p + m])
      && |base| <= p + |found|
  {
    LaterIsRest(log, cursor);
  }

  /** Listing a conversation puts all that is left of its log in hand. */
  lemma ListRound(s: State, session: Uuid, after: int, id: Uuid, j: nat)
    requires Inv(s, session, after, id, j) && s.pc.Visiting? && s.pc.next < |s.snapshot| && s.snapshot[s.pc.next].session == session
    ensures InRound(PollStep(session, after, s), session, after, id, j)
  {
    FoundIsLeft(LogOf(s.logs, id), CursorOf(s, after, id), LogOf(s.base, id));
  }

  lemma OtherRound(s: State, session: Uuid, after: int, id: Uuid, j: nat)
    requires Inv(s, session, after, id, j) && !(s.pc.Yielding? && s.pc.rest != [] && s.snapshot[s.pc.at].id == id)
    ensures InRound(PollStep(session, after, s), session, after, id, j)
  {
    if s.pc.Visiting? && s.pc.next < |s.snapshot| && s.snapshot[s.pc.next].session == session {
      ListRound(s, session, after, id, j);
    }
  }

  lemma PollInv(s: State, session: Uuid, after: int, id: Uuid, j: nat)
    requires Inv(s, session, after, id, j)
    ensures Inv(PollStep(session, after, s), session, after, id, j)
  {
    if s.pc.Yielding? && s.pc.rest != [] && s.snapshot[s.pc.at].id == id {
      YieldWritten(s, session, after, id, j);
      YieldRound(s, session, after, id, j);
    } else {
      OtherWritten(s, session, after, id, j);
      OtherRound(s, session, after, id, j);
    }
  }

  lemma {:induction false} RunInv(session: Uuid, after: int, actions: seq<Action>, id: Uuid, j: nat)
    ensures Inv(Run(session, after, actions), session, after, id, j)
    decreases |actions|
  {
    if actions != [] {
      var front, a := actions[..|actions| - 1], actions[|actions| - 1];
      RunInv(session, after, front, id, j);
      var s := Run(session, after, front);
      if a.Append? {
        AppendWritten(s, session, after, id, a);
        AppendRound(s, session, after, id, j, a);
      } else if a.Poll? {
        PollInv(s, session, after, id, j);
      }
    }
  }

  // ---------------------------------------------------------------- the theorems

  /** Over every run the events yielded for a conversation are its log slice from the start cursor to its current cursor. */
  lemma PerConversationExact(session: Uuid, after: int, actions: seq<Action>, id: Uuid)
    ensures
      var s := Run(session, after, actions);
      var got := Projection(s.yielded, id);
      && got <= Rest(LogOf(s.logs, id), after)
      && (id in s.cursors <==> got != [])
      && (got != [] ==> s.cursors[id] == Position(after) + |got|)
  {
    RunInv(session, after, actions, id, 0);
    var s := Run(session, after, actions);
    if id in s.cursors {
      var log, p := LogOf(s.logs, id), Position(after);
      assert log[p..][..s.cursors[id] - p] == log[p..s.cursors[id]];
    }
  }

  /** When a round is over, everything the session's conversations had logged before it began has been yielded. */
  lemma RoundComplete(session: Uuid, after: int, actions: seq<Action>, c: Conversation)
    requires
      var s := Run(session, after, actions);
      s.pc.Visiting? && s.pc.next == |s.snapshot| && c in s.snapshot && c.session == session
    ensures
      var s := Run(session, after, actions);
      Rest(LogOf(s.base, c.id), after) <= Projection(s.yielded, c.id)
  {
    var s := Run(session, after, actions);
    var j :| 0 <= j < |s.snapshot| && s.snapshot[j] == c;
    RunInv(session, after, actions, c.id, j);
    var base, log, p := LogOf(s.base, c.id), LogOf(s.logs, c.id), Position(after);
    if p < |base| {
      assert log[p..s.cursors[c.id]][..|base| - p] == base[p..];
    }
  }

  /** No state of the run is between rounds after the first `n` actions. */
  ghost predicate SameRound(session: Uuid, after: int, before: seq<Action>, during: seq<Action>) {
    Run(session, after, before + during).pc != Between && (during != [] ==> SameRound(session, after, before, during[..|during| - 1]))
  }

  lemma {:induction false} RoundKeepsSnapshot(session: Uuid, after: int, before: seq<Action>, during: seq<Action>)
    requires SameRound(session, after, before, during)
    ensures
      var s0, s := Run(session, after, before), Run(session, after, before + during);
      s.snapshot == s0.snapshot && s.base == s0.base
    decreases |during|
  {
    if during == [] {
      assert before + during == before;
    } else {
      var k := |during| - 1;
      RoundKeepsSnapshot(session, after, before, during[..k]);
      assert before + during == before + during[..k] + [during[k]];
      assert (before + during)[..|before + during| - 1] == before + during[..k];
    }
  }

  /**
   * A round started between rounds, once it is through its list, has yielded everything that any conversation of the
   * session which existed at its start had logged by then, whatever happened in the meantime.
   */
  lemma RoundCovers(session: Uuid, after: int, before: seq<Action>, during: seq<Action>, c: Conversation)
    requires Run(session, after, before).pc == Between && SameRound(session, after, before + [Poll], during)
    requires
      var s := Run(session, after, before + [Poll] + during);
      s.pc.Visiting? && s.pc.next >= |s.snapshot|
    requires c in Run(session, after, before).conversations && c.session == session
    ensures Rest(LogOf(Run(session, after, before).logs, c.id), after) <= Projection(Run(session, after, before + [Poll] + during).yielded, c.id)
  {
    var s := Run(session, after, before + [Poll] + during);
    assert (before + [Poll])[..|before|] == before;
    RoundKeepsSnapshot(session, after, before + [Poll], during);
    RunInv(session, after, before + [Poll] + during, c.id, 0);
    RoundComplete(session, after, before + [Poll] + during, c);
  }

  /** How much of a round is left. */
  function RoundLeft(s: State): (int, int) {
    match s.pc
    case Between => (0, 0)
    case Visiting(k) => (2 * (|s.snapshot| - k) + 2, 0)
    case Yielding(k, rest) => (2 * (|s.snapshot| - k) + 1, |rest|)
  }

  lemma PollDescends(session: Uuid, after: int, s: State)
    requires s.pc != Between && Visited(s) <= |s.snapshot| && (s.pc.Yielding? ==> s.pc.at < |s.snapshot|)
    ensures
      var a, b := RoundLeft(s), RoundLeft(PollStep(session, after, s));
      0 <= b.0 && 0 <= b.1 && (b.0 < a.0 || (b.0 == a.0 && b.1 < a.1))
  {
  }

  /** Every poll step inside a round brings its end nearer, so every round ends. */
  lemma RoundDescends(session: Uuid, after: int, actions: seq<Action>)
    requires Run(session, after, actions).pc != Between
    ensures
      var a, b := RoundLeft(Run(session, after, actions)), RoundLeft(PollStep(session, after, Run(session, after, actions)));
      0 <= b.0 && 0 <= b.1 && (b.0 < a.0 || (b.0 == a.0 && b.1 < a.1))
  {
    RunInv(session, after, actions, 0, 0);
    PollDescends(session, after, Run(session, after, actions));
  }

  ghost predicate Member(conversations: seq<Conversation>, id: Uuid, session: Uuid) {
    exists i | 0 <= i < |conversations| :: conversations[i].id == id && conversations[i].session == session
  }

  lemma MemberGrows(conversations: seq<Conversation>, more: seq<Conversation>, id: Uuid, session: Uuid)
    requires Member(conversations, id, session) && conversations <= more
    ensures Member(more, id, session)
  {
  }

  /** Only conversations of the session are ever yielded. */
  lemma {:induction false} OnlyThisSession(session: Uuid, after: int, actions: seq<Action>)
    ensures
      var s := Run(session, after, actions);
      && s.snapshot <= s.conversations
      && (s.pc.Yielding? ==> s.pc.at < |s.snapshot| && s.snapshot[s.pc.at].session == session)
      && (forall i | 0 <= i < |s.yielded| :: Member(s.conversations, s.yielded[i].0, session))
    decreases |actions|
  {
    if actions != [] {
      var front, a := actions[..|actions| - 1], actions[|actions| - 1];
      OnlyThisSession(session, after, front);
      var s := Run(session, after, front);
      var s' := Run(session, after, actions);
      forall i | 0 <= i < |s'.yielded| ensures Member(s'.conversations, s'.yielded[i].0, session) {
        if i < |s.yielded| {
          MemberGrows(s.conversations, s'.conversations, s.yielded[i].0, session);
        } else {
          assert s'.conversations[s.pc.at] == s.snapshot[s.pc.at];
        }
      }
    }
  }
}
