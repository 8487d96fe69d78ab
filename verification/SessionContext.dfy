/** The session history sent with a run: earlier instructions and events, silent conversations left out. */
module SessionContext {
  import opened Text
  import opened Sorting
  import opened Approval

  type Uuid = int

  datatype Conversation = Conversation(id: Uuid, session: Uuid, mode: Mode, task: string, createdAt: int, runId: Uuid)

  datatype Event = Event(runId: Uuid, occurredAt: int, payload: string)

  datatype Body = Instruction(conversation: Uuid, task: string) | Logged(event: Event)

  /** One entry of the merged history with the text it is sorted by. */
  datatype Item = Item(key: string, body: Body)

  /** How times are written: `isoformat()` for instructions, the JSON dump for events. */
  datatype Clock = Clock(iso: int -> string, dump: int -> string)

  predicate EarlierEvent(a: Event, b: Event) { a.occurredAt <= b.occurredAt }

  predicate EarlierConversation(a: Conversation, b: Conversation) { a.createdAt <= b.createdAt }

  predicate EarlierItem(a: Item, b: Item) { StrLe(a.key, b.key) }

  function LogOf(logs: map<Uuid, seq<Event>>, id: Uuid): seq<Event> {
    if id in logs then logs[id] else []
  }

  function AllEvents(logs: map<Uuid, seq<Event>>, cs: seq<Conversation>): seq<Event> {
    if cs == [] then [] else LogOf(logs, cs[0].id) + AllEvents(logs, cs[1..])
  }

  function SilentRuns(cs: seq<Conversation>): set<Uuid> {
    set c | c in cs && c.mode == Silent :: c.runId
  }

  function InSession(session: Uuid): Conversation -> bool {
    (c: Conversation) => c.session == session
  }

  function Prior(current: Uuid): Conversation -> bool {
    (c: Conversation) => c.id != current && c.mode != Silent
  }

  function Visible(silent: set<Uuid>): Event -> bool {
    (e: Event) => e.runId !in silent
  }

  function Except(ids: set<Uuid>): Conversation -> bool {
    (c: Conversation) => c.id !in ids
  }

  function InstructionOf(k: Clock, c: Conversation): Item {
    Item(k.iso(c.createdAt), Instruction(c.id, c.task))
  }

  function EntryOf(k: Clock, e: Event): Item {
    Item(k.dump(e.occurredAt), Logged(e))
  }

  function Instructions(k: Clock, cs: seq<Conversation>): seq<Item> {
    seq(|cs|, i requires 0 <= i < |cs| => InstructionOf(k, cs[i]))
  }

  function Entries(k: Clock, es: seq<Event>): seq<Item> {
    seq(|es|, i requires 0 <= i < |es| => EntryOf(k, es[i]))
  }

  /** The context of conversation `current`, given all conversations of the service. */
  function Context(k: Clock, cs: seq<Conversation>, logs: map<Uuid, seq<Event>>, session: Uuid, current: Uuid): seq<Item> {
    var own := Filter(InSession(session), cs);
    var events := Sort(EarlierEvent, AllEvents(logs, own));
    var prior := Sort(EarlierConversation, Filter(Prior(current), own));
    Sort(EarlierItem, Instructions(k, prior) + Entries(k, Filter(Visible(SilentRuns(own)), events)))
  }

  // ---------------------------------------------------------------- which events get through

  /** No event of a conversation outside `added` carries the run id of a conversation in it. */
  ghost predicate RunsApart(cs: seq<Conversation>, logs: map<Uuid, seq<Event>>, added: set<Uuid>) {
    forall c, d, e | c in cs && d in cs && c.id !in added && d.id in added && e in LogOf(logs, c.id) :: e.runId != d.runId
  }

  /** The events of added conversations that the filter lets through. */
  function Leaks(logs: map<Uuid, seq<Event>>, cs: seq<Conversation>, added: set<Uuid>, silent: set<Uuid>): nat {
    if cs == [] then 0
    else (if cs[0].id in added then |Filter(Visible(silent), LogOf(logs, cs[0].id))| else 0) + Leaks(logs, cs[1..], added, silent)
  }

  /** Filtering the events of all conversations is filtering those of the remaining ones, plus the leaks. */
  lemma {:induction false} VisibleEvents(logs: map<Uuid, seq<Event>>, cs: seq<Conversation>, added: set<Uuid>,
                                         silent: set<Uuid>, silent0: set<Uuid>)
    requires forall c, e | c in cs && c.id !in added && e in LogOf(logs, c.id) :: (e.runId in silent <==> e.runId in silent0)
    ensures
      var all := Filter(Visible(silent), AllEvents(logs, cs));
      var rest := Filter(Visible(silent0), AllEvents(logs, Filter(Except(added), cs)));
      |all| == |rest| + Leaks(logs, cs, added, silent) && (Leaks(logs, cs, added, silent) == 0 ==> all == rest)
  {
    if cs != [] {
      var c, tail := cs[0], cs[1..];
      assert forall d :: d in tail ==> d in cs;
      VisibleEvents(logs, tail, added, silent, silent0);
      FilterConcat(Visible(silent), LogOf(logs, c.id), AllEvents(logs, tail));
      if c.id in added {
      } else {
        var others := Filter(Except(added), tail);
        assert Filter(Except(added), cs) == [c] + others;
        assert ([c] + others)[1..] == others;
        FilterConcat(Visible(silent0), LogOf(logs, c.id), AllEvents(logs, others));
        assert c in cs;
        FilterSame(Visible(silent), Visible(silent0), LogOf(logs, c.id));
      }
    }
  }

  lemma {:induction false} LeaksZero(logs: map<Uuid, seq<Event>>, cs: seq<Conversation>, added: set<Uuid>, silent: set<Uuid>)
    ensures Leaks(logs, cs, added, silent) == 0 <==>
            forall i | 0 <= i < |cs| && cs[i].id in added :: Filter(Visible(silent), LogOf(logs, cs[i].id)) == []
  {
    if cs != [] {
      LeaksZero(logs, cs[1..], added, silent);
      assert forall i | 0 <= i < |cs| :: cs[i] == if i == 0 then cs[0] else cs[1..][i - 1];
    }
  }

  /** Every event of the added conversations of the session belongs to a silent run of the session. */
  ghost predicate Covered(cs: seq<Conversation>, logs: map<Uuid, seq<Event>>, session: Uuid, added: set<Uuid>) {
    forall c, e | c in cs && c.session == session && c.id in added && e in LogOf(logs, c.id) ::
      e.runId in SilentRuns(Filter(InSession(session), cs))
  }

  lemma OwnWithout(cs: seq<Conversation>, session: Uuid, added: set<Uuid>)
    ensures Filter(InSession(session), Filter(Except(added), cs)) == Filter(Except(added), Filter(InSession(session), cs))
  {
  }

  lemma PriorWithout(own: seq<Conversation>, current: Uuid, added: set<Uuid>)
    requires forall c | c in own && c.id in added :: c.mode == Silent
    ensures Filter(Prior(current), Filter(Except(added), own)) == Filter(Prior(current), own)
  {
  }

  lemma EventOrder()
    ensures TotalPreorder(EarlierEvent)
  {
  }

  /** The filtered, sorted event part with and without the added conversations. */
  lemma EventsWithout(own: seq<Conversation>, logs: map<Uuid, seq<Event>>, added: set<Uuid>)
    requires RunsApart(own, logs, added) && forall c | c in own && c.id in added :: c.mode == Silent
    ensures
      var rest := Filter(Except(added), own);
      var all := Filter(Visible(SilentRuns(own)), Sort(EarlierEvent, AllEvents(logs, own)));
      var others := Filter(Visible(SilentRuns(rest)), Sort(EarlierEvent, AllEvents(logs, rest)));
      && |all| == |others| + Leaks(logs, own, added, SilentRuns(own))
      && (Leaks(logs, own, added, SilentRuns(own)) == 0 ==> all == others)
  {
    var rest := Filter(Except(added), own);
    var silent, silent0 := SilentRuns(own), SilentRuns(rest);
    FilterFrom(Except(added), own);
    forall c, e | c in own && c.id !in added && e in LogOf(logs, c.id) ensures e.runId in silent <==> e.runId in silent0 {
      if e.runId in silent {
        var d :| d in own && d.mode == Silent && d.runId == e.runId;
        assert d.id !in added;
        assert d in rest;
      }
    }
    VisibleEvents(logs, own, added, silent, silent0);
    EventOrder();
    FilterSort(Visible(silent), EarlierEvent, AllEvents(logs, own));
    FilterSort(Visible(silent0), EarlierEvent, AllEvents(logs, rest));
    SortMultiset(EarlierEvent, Filter(Visible(silent), AllEvents(logs, own)));
    SortMultiset(EarlierEvent, Filter(Visible(silent0), AllEvents(logs, rest)));
  }

  lemma CoveredMeansNoLeak(cs: seq<Conversation>, logs: map<Uuid, seq<Event>>, session: Uuid, added: set<Uuid>)
    ensures
      var own := Filter(InSession(session), cs);
      Covered(cs, logs, session, added) <==> Leaks(logs, own, added, SilentRuns(own)) == 0
  {
    var own := Filter(InSession(session), cs);
    var silent := SilentRuns(own);
    FilterFrom(InSession(session), cs);
    LeaksZero(logs, own, added, silent);
    if Covered(cs, logs, session, added) {
      forall i | 0 <= i < |own| && own[i].id in added ensures Filter(Visible(silent), LogOf(logs, own[i].id)) == [] {
        assert own[i] in own;
        FilterNone(Visible(silent), LogOf(logs, own[i].id));
      }
    }
    if Leaks(logs, own, added, silent) == 0 {
      forall c, e | c in cs && c.session == session && c.id in added && e in LogOf(logs, c.id) ensures e.runId in silent {
        assert c in own;
        var i :| 0 <= i < |own| && own[i] == c;
        FilterNone(Visible(silent), LogOf(logs, own[i].id));
        var k :| 0 <= k < |LogOf(logs, c.id)| && LogOf(logs, c.id)[k] == e;
        assert !Visible(silent)(LogOf(logs, c.id)[k]);
      }
    }
  }

  // ---------------------------------------------------------------- non-interference

  /**
   * Adding silent conversations anywhere in the service leaves the context of any conversation unchanged exactly when
   * every event they logged in the session carries the run id of a silent conversation of the session.
   */
  lemma SilentInterferenceIff(k: Clock, cs: seq<Conversation>, logs: map<Uuid, seq<Event>>, session: Uuid, current: Uuid,
                              added: set<Uuid>)
    requires forall c | c in cs && c.id in added :: c.mode == Silent
    requires RunsApart(cs, logs, added)
    ensures Context(k, cs, logs, session, current) == Context(k, Filter(Except(added), cs), logs, session, current)
       <==> Covered(cs, logs, session, added)
  {
    var own := Filter(InSession(session), cs);
    FilterFrom(InSession(session), cs);
    OwnWithout(cs, session, added);
    PriorWithout(own, current, added);
    EventsWithout(own, logs, added);
    CoveredMeansNoLeak(cs, logs, session, added);
    var rest := Filter(Except(added), own);
    var prior := Sort(EarlierConversation, Filter(Prior(current), own));
    var all := Filter(Visible(SilentRuns(own)), Sort(EarlierEvent, AllEvents(logs, own)));
    var others := Filter(Visible(SilentRuns(rest)), Sort(EarlierEvent, AllEvents(logs, rest)));
    SortMultiset(EarlierItem, Instructions(k, prior) + Entries(k, all));
    SortMultiset(EarlierItem, Instructions(k, prior) + Entries(k, others));
  }

  /** What the service keeps: an event carries its conversation's run id, and run ids are not shared. */
  ghost predicate WellKept(cs: seq<Conversation>, logs: map<Uuid, seq<Event>>) {
    && (forall c, e | c in cs && e in LogOf(logs, c.id) :: e.runId == c.runId)
    && (forall c, d | c in cs && d in cs && c.id != d.id :: c.runId != d.runId)
  }

  /** Silent conversations do not interfere: adding any number of them changes no conversation's context. */
  lemma SilentDoesNotInterfere(k: Clock, cs: seq<Conversation>, logs: map<Uuid, seq<Event>>, session: Uuid, current: Uuid,
                               added: set<Uuid>)
    requires WellKept(cs, logs) && forall c | c in cs && c.id in added :: c.mode == Silent
    ensures Context(k, cs, logs, session, current) == Context(k, Filter(Except(added), cs), logs, session, current)
  {
    forall c, e | c in cs && c.session == session && c.id in added && e in LogOf(logs, c.id)
      ensures e.runId in SilentRuns(Filter(InSession(session), cs))
    {
      FilterFrom(InSession(session), cs);
      assert c in Filter(InSession(session), cs);
    }
    SilentInterferenceIff(k, cs, logs, session, current, added);
  }

  // ---------------------------------------------------------------- every history is well kept

  /** `create_conversation` with fresh ids, and `_append`, which writes the conversation's own run id. */
  datatype Op = Create(conversation: Conversation) | Append(id: Uuid, occurredAt: int, payload: string)

  datatype Service = Service(conversations: seq<Conversation>, logs: map<Uuid, seq<Event>>)

  function Find(cs: seq<Conversation>, id: Uuid): Option<Conversation> {
    if cs == [] then None else if cs[0].id == id then Some(cs[0]) else Find(cs[1..], id)
  }

  function Apply(s: Service, op: Op): Service {
    match op
    case Create(c) => s.(conversations := s.conversations + [c])
    case Append(id, at, payload) =>
      match Find(s.conversations, id)
      case None => s
      case Some(c) => s.(logs := s.logs[id := LogOf(s.logs, id) + [Event(c.runId, at, payload)]])
  }

  function After(ops: seq<Op>): Service {
    if ops == [] then Service([], map[]) else Apply(After(ops[..|ops| - 1]), ops[|ops| - 1])
  }

  /** Conversation ids and run ids are drawn fresh. */
  ghost predicate Drawn(ops: seq<Op>) {
    ops == [] ||
    var front, op := ops[..|ops| - 1], ops[|ops| - 1];
    && Drawn(front)
    && (op.Create? ==> forall c | c in After(front).conversations :: c.id != op.conversation.id && c.runId != op.conversation.runId)
  }

  ghost predicate Kept(s: Service) {
    && WellKept(s.conversations, s.logs)
    && (forall c, d | c in s.conversations && d in s.conversations && c.id == d.id :: c == d)
    && (forall id | id in s.logs :: exists c :: c in s.conversations && c.id == id)
  }

  lemma {:induction false} FindFinds(cs: seq<Conversation>, id: Uuid)
    ensures Find(cs, id).Some? ==> Find(cs, id).value in cs && Find(cs, id).value.id == id
  {
    if cs != [] {
      FindFinds(cs[1..], id);
    }
  }

  lemma CreateKept(s: Service, c: Conversation)
    requires Kept(s) && forall d | d in s.conversations :: d.id != c.id && d.runId != c.runId
    ensures Kept(Apply(s, Create(c)))
  {
    var s' := Apply(s, Create(c));
    assert forall d :: d in s'.conversations <==> d in s.conversations || d == c;
    assert LogOf(s.logs, c.id) == [];
  }

  lemma AppendKept(s: Service, op: Op)
    requires Kept(s) && op.Append?
    ensures Kept(Apply(s, op))
  {
    FindFinds(s.conversations, op.id);
    var s' := Apply(s, op);
    forall c, e | c in s'.conversations && e in LogOf(s'.logs, c.id) ensures e.runId == c.runId {
      if c.id == op.id && e !in LogOf(s.logs, c.id) {
        assert c == Find(s.conversations, op.id).value;
      }
    }
  }

  lemma {:induction false} HistoryKept(ops: seq<Op>)
    requires Drawn(ops)
    ensures Kept(After(ops))
    decreases |ops|
  {
    if ops != [] {
      var front, op := ops[..|ops| - 1], ops[|ops| - 1];
      HistoryKept(front);
      if op.Create? {
        CreateKept(After(front), op.conversation);
      } else {
        AppendKept(After(front), op);
      }
    }
  }

  /** The history without the conversations in `added` and their events. */
  function Without(ops: seq<Op>, added: set<Uuid>): seq<Op> {
    if ops == [] then []
    else
      var front, op := Without(ops[..|ops| - 1], added), ops[|ops| - 1];
      if (if op.Create? then op.conversation.id else op.id) in added then front else front + [op]
  }

  lemma {:induction false} FindWithout(cs: seq<Conversation>, id: Uuid, added: set<Uuid>)
    requires id !in added
    ensures Find(Filter(Except(added), cs), id) == Find(cs, id)
  {
    if cs != [] {
      FindWithout(cs[1..], id, added);
    }
  }

  /** Leaving them out of the history leaves the other conversations and their logs as they are. */
  lemma {:induction false} WithoutAfter(ops: seq<Op>, added: set<Uuid>, id: Uuid)
    ensures After(Without(ops, added)).conversations == Filter(Except(added), After(ops).conversations)
    ensures id !in added ==> LogOf(After(Without(ops, added)).logs, id) == LogOf(After(ops).logs, id)
    decreases |ops|
  {
    if ops != [] {
      var front, op := ops[..|ops| - 1], ops[|ops| - 1];
      WithoutAfter(front, added, id);
      var s, less := After(front), Without(front, added);
      assert (less + [op])[..|less|] == less;
      if op.Create? {
        FilterConcat(Except(added), s.conversations, [op.conversation]);
      } else if op.id !in added {
        WithoutAfter(front, added, op.id);
        FindWithout(s.conversations, op.id, added);
      }
    }
  }

  lemma {:induction false} SameEvents(logs: map<Uuid, seq<Event>>, logs': map<Uuid, seq<Event>>, cs: seq<Conversation>)
    requires forall i | 0 <= i < |cs| :: LogOf(logs, cs[i].id) == LogOf(logs', cs[i].id)
    ensures AllEvents(logs, cs) == AllEvents(logs', cs)
  {
    if cs != [] {
      SameEvents(logs, logs', cs[1..]);
    }
  }

  /**
   * Over every history: had any set of silent conversations never existed, with all their events, every conversation's
   * context would be what it is.
   */
  lemma SilentLeavesNoTrace(k: Clock, ops: seq<Op>, session: Uuid, current: Uuid, added: set<Uuid>)
    requires Drawn(ops) && forall c | c in After(ops).conversations && c.id in added :: c.mode == Silent
    ensures
      var s, s' := After(ops), After(Without(ops, added));
      Context(k, s.conversations, s.logs, session, current) == Context(k, s'.conversations, s'.logs, session, current)
  {
    var s, s' := After(ops), After(Without(ops, added));
    HistoryKept(ops);
    SilentDoesNotInterfere(k, s.conversations, s.logs, session, current, added);
    WithoutAfter(ops, added, current);
    var own := Filter(InSession(session), s'.conversations);
    forall i | 0 <= i < |own| ensures LogOf(s.logs, own[i].id) == LogOf(s'.logs, own[i].id) {
      assert own[i] in own;
      FilterFrom(InSession(session), s'.conversations);
      FilterFrom(Except(added), s.conversations);
      WithoutAfter(ops, added, own[i].id);
    }
    SameEvents(s.logs, s'.logs, own);
  }

  // ---------------------------------------------------------------- what the context holds

  lemma InContext(k: Clock, cs: seq<Conversation>, logs: map<Uuid, seq<Event>>, session: Uuid, current: Uuid, item: Item)
    ensures
      var own := Filter(InSession(session), cs);
      item in Context(k, cs, logs, session, current) <==>
        || item in Instructions(k, Sort(EarlierConversation, Filter(Prior(current), own)))
        || item in Entries(k, Filter(Visible(SilentRuns(own)), Sort(EarlierEvent, AllEvents(logs, own))))
  {
    var own := Filter(InSession(session), cs);
    var prior := Instructions(k, Sort(EarlierConversation, Filter(Prior(current), own)));
    var events := Entries(k, Filter(Visible(SilentRuns(own)), Sort(EarlierEvent, AllEvents(logs, own))));
    InSort(EarlierItem, prior + events, item);
  }

  /** The context is in order of the written times. */
  lemma ContextSorted(k: Clock, cs: seq<Conversation>, logs: map<Uuid, seq<Event>>, session: Uuid, current: Uuid)
    ensures
      var context := Context(k, cs, logs, session, current);
      forall i, j | 0 <= i < j < |context| :: StrLe(context[i].key, context[j].key)
  {
    var own := Filter(InSession(session), cs);
    StrLeOrder();
    assert TotalPreorder(EarlierItem);
    SortSorted(EarlierItem, Instructions(k, Sort(EarlierConversation, Filter(Prior(current), own)))
                            + Entries(k, Filter(Visible(SilentRuns(own)), Sort(EarlierEvent, AllEvents(logs, own)))));
  }

  lemma {:induction false} AllEventsIs(logs: map<Uuid, seq<Event>>, cs: seq<Conversation>, e: Event)
    ensures e in AllEvents(logs, cs) <==> exists c :: c in cs && e in LogOf(logs, c.id)
  {
    if cs != [] {
      AllEventsIs(logs, cs[1..], e);
      assert cs == [cs[0]] + cs[1..];
    }
  }

  /**
   * Of the logs the context holds exactly the events some conversation of the session logged and whose run is no silent
   * conversation's of the session.
   */
  lemma ContextHoldsEvents(k: Clock, cs: seq<Conversation>, logs: map<Uuid, seq<Event>>, session: Uuid, current: Uuid, e: Event)
    ensures Item(k.dump(e.occurredAt), Logged(e)) in Context(k, cs, logs, session, current) <==>
            && (exists c :: c in cs && c.session == session && e in LogOf(logs, c.id))
            && !(exists c :: c in cs && c.session == session && c.mode == Silent && c.runId == e.runId)
  {
    var own := Filter(InSession(session), cs);
    var sorted := Sort(EarlierEvent, AllEvents(logs, own));
    var events := Filter(Visible(SilentRuns(own)), sorted);
    InContext(k, cs, logs, session, current, EntryOf(k, e));
    InSort(EarlierEvent, AllEvents(logs, own), e);
    FilterFrom(Visible(SilentRuns(own)), sorted);
    FilterFrom(InSession(session), cs);
    AllEventsIs(logs, own, e);
    if e in events {
      var i :| 0 <= i < |events| && events[i] == e;
      assert Entries(k, events)[i] == EntryOf(k, e);
    }
  }

  /** And it holds nothing twice: its size is the number of those instructions and events, counted in the logs. */
  lemma ContextSize(k: Clock, cs: seq<Conversation>, logs: map<Uuid, seq<Event>>, session: Uuid, current: Uuid)
    ensures
      var own := Filter(InSession(session), cs);
      |Context(k, cs, logs, session, current)| ==
        |Filter(Prior(current), own)| + |Filter(Visible(SilentRuns(own)), AllEvents(logs, own))|
  {
    var own := Filter(InSession(session), cs);
    var visible := Visible(SilentRuns(own));
    var prior := Sort(EarlierConversation, Filter(Prior(current), own));
    SortMultiset(EarlierConversation, Filter(Prior(current), own));
    EventOrder();
    FilterSort(visible, EarlierEvent, AllEvents(logs, own));
    SortMultiset(EarlierEvent, Filter(visible, AllEvents(logs, own)));
    SortMultiset(EarlierItem, Instructions(k, prior) + Entries(k, Filter(visible, Sort(EarlierEvent, AllEvents(logs, own)))));
  }

  /** Of the instructions it holds exactly those of the session's other conversations that are not silent. */
  lemma ContextHoldsInstructions(k: Clock, cs: seq<Conversation>, logs: map<Uuid, seq<Event>>, session: Uuid, current: Uuid, item: Item)
    requires item.body.Instruction?
    ensures item in Context(k, cs, logs, session, current) <==>
            exists c :: c in cs && c.session == session && c.id != current && c.mode != Silent
                        && item == Item(k.iso(c.createdAt), Instruction(c.id, c.task))
  {
    var own := Filter(InSession(session), cs);
    var chosen := Filter(Prior(current), own);
    var prior := Sort(EarlierConversation, chosen);
    InContext(k, cs, logs, session, current, item);
    FilterFrom(InSession(session), cs);
    FilterFrom(Prior(current), own);
    if item in Instructions(k, prior) {
      var i :| 0 <= i < |prior| && Instructions(k, prior)[i] == item;
      InSort(EarlierConversation, chosen, prior[i]);
      assert prior[i] in cs && item == InstructionOf(k, prior[i]);
    }
    if c :| c in cs && c.session == session && c.id != current && c.mode != Silent && item == InstructionOf(k, c) {
      InSort(EarlierConversation, chosen, c);
      var i :| 0 <= i < |prior| && prior[i] == c;
      assert Instructions(k, prior)[i] == item;
    }
  }
}
