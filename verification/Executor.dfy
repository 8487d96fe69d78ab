/**
 * The runner-side executor: batch approval plus call-id de-duplication. `execute` is a coroutine: the event loop runs
 * it until it awaits a handler, so any number of requests can be in flight and every interleaving is possible.
 */
module Executor {
  import opened Text
  import opened ToolContracts
  import Digests

  datatype Reply = Value(text: string) | Exception(text: string)

  datatype Request<D> = Request(batch: Batch, authorization: Authorization<D>, decision: Option<Decision>)

  datatype Pc = Looping | Awaiting | Finished(answer: Result<seq<ToolResult>>)

  /** One call of `execute`: its position in the batch is the number of answers it has. */
  datatype Flight<D> = Flight(request: Request<D>, answers: seq<ToolResult>, pc: Pc)

  datatype Event =
    | Started(flight: nat, call: ToolCall)        // a handler was invoked
    | Unhandled(flight: nat, call: ToolCall)      // no handler: the refusal was cached
    | Returned(flight: nat, result: ToolResult)   // a handler returned or raised: its result was cached

  /** `running` is the coroutine the event loop is running; it keeps control until it awaits or ends. */
  datatype State<D> = State(results: map<string, ToolResult>, flights: seq<Flight<D>>, running: Option<nat>, trace: seq<Event>)

  datatype Action<D> = Start(request: Request<D>) | Step | HandlerReturns(flight: nat, reply: Reply)

  /** Whether `execute` gets past its checks. */
  predicate Admitted<D(==)>(hash: Batch -> D, r: Request<D>) {
    && r.authorization.batchHash == hash(r.batch)
    && (r.authorization.status == Approved || (r.authorization.status == RequiresApproval && r.decision == Some(ApproveOnce)))
  }

  /** What a request that is not admitted gets. */
  function Turned<D(==)>(hash: Batch -> D, r: Request<D>): Result<seq<ToolResult>> {
    if r.authorization.batchHash != hash(r.batch) then Err(HashMismatch)
    else if r.authorization.status == Denied then Ok(RefuseAll(r.batch, NotAuthorized(r.authorization.refused)))
    else if r.decision == None then Err(ApprovalMissing)
    else Ok(RefuseAll(r.batch, RejectedByUser))
  }

  function ResultOf(call: ToolCall, reply: Reply): ToolResult {
    match reply
    case Value(text) => ToolResult(call.callId, call.name, true, Output(text))
    case Exception(text) => ToolResult(call.callId, call.name, false, Failure(text))
  }

  predicate AtCall<D>(f: Flight<D>) {
    |f.answers| < |f.request.batch|
  }

  function CallAt<D>(f: Flight<D>): ToolCall
    requires AtCall(f)
  {
    f.request.batch[|f.answers|]
  }

  predicate Enabled<D>(s: State<D>, a: Action<D>) {
    match a
    case Start(_) => s.running.None?
    case Step => s.running.Some? && s.running.value < |s.flights| && s.flights[s.running.value].pc == Looping
    case HandlerReturns(k, _) => s.running.None? && k < |s.flights| && s.flights[k].pc == Awaiting && AtCall(s.flights[k])
  }

  /** One iteration of the loop over the batch. */
  function Iterate<D>(names: set<string>, s: State<D>, k: nat): State<D>
    requires k < |s.flights|
  {
    var f := s.flights[k];
    if !AtCall(f) then s.(flights := s.flights[k := f.(pc := Finished(Ok(f.answers)))], running := None)
    else
      var call := CallAt(f);
      if call.callId in s.results then
        s.(flights := s.flights[k := f.(answers := f.answers + [s.results[call.callId]])])
      else if call.name !in names then
        var r := Refuse(call, HandlerUnavailable);
        s.(results := s.results[call.callId := r], flights := s.flights[k := f.(answers := f.answers + [r])],
           trace := s.trace + [Unhandled(k, call)])
      else
        s.(flights := s.flights[k := f.(pc := Awaiting)], running := None, trace := s.trace + [Started(k, call)])
  }

  /** A step of the system; a disabled action changes nothing. `names` are the tools that have a handler. */
  function Next<D(==)>(hash: Batch -> D, names: set<string>, s: State<D>, a: Action<D>): State<D> {
    if !Enabled(s, a) then s
    else match a
      case Start(r) =>
        if Admitted(hash, r) then s.(flights := s.flights + [Flight(r, [], Looping)], running := Some(|s.flights|))
        else s.(flights := s.flights + [Flight(r, [], Finished(Turned(hash, r)))])
      case Step => Iterate(names, s, s.running.value)
      case HandlerReturns(k, reply) =>
        var f := s.flights[k];
        var r := ResultOf(CallAt(f), reply);
        s.(results := s.results[CallAt(f).callId := r], running := Some(k), trace := s.trace + [Returned(k, r)],
           flights := s.flights[k := f.(answers := f.answers + [r], pc := Looping)])
  }

  function Fresh<D>(): State<D> {
    State(map[], [], None, [])
  }

  function Run<D(==)>(hash: Batch -> D, names: set<string>, actions: seq<Action<D>>): State<D> {
    if actions == [] then Fresh()
    else Next(hash, names, Run(hash, names, actions[..|actions| - 1]), actions[|actions| - 1])
  }

  lemma RunSnoc<D>(hash: Batch -> D, names: set<string>, actions: seq<Action<D>>, a: Action<D>)
    ensures Run(hash, names, actions + [a]) == Next(hash, names, Run(hash, names, actions), a)
  {
    assert (actions + [a])[..|actions|] == actions;
  }

  // ---------------------------------------------------------------- what is counted

  /** How often a handler was invoked for an id. */
  function Times(trace: seq<Event>, id: string): nat {
    if trace == [] then 0
    else
      var e := trace[|trace| - 1];
      Times(trace[..|trace| - 1], id) + if e.Started? && e.call.callId == id then 1 else 0
  }

  /** How often an id was found uncached: its handler was invoked or it was refused. */
  function Touches(trace: seq<Event>, id: string): nat {
    if trace == [] then 0
    else
      var e := trace[|trace| - 1];
      Touches(trace[..|trace| - 1], id) + if !e.Returned? && e.call.callId == id then 1 else 0
  }

  predicate Awaits<D>(f: Flight<D>, id: string) {
    f.pc == Awaiting && AtCall(f) && CallAt(f).callId == id
  }

  ghost predicate Awaited<D>(s: State<D>, id: string) {
    exists j | 0 <= j < |s.flights| :: Awaits(s.flights[j], id)
  }

  /** The running request is at a call with this id and finds it uncached. */
  predicate Reaches<D>(s: State<D>, a: Action<D>, id: string) {
    && a.Step? && Enabled(s, a)
    && var f := s.flights[s.running.value]; AtCall(f) && CallAt(f).callId == id && id !in s.results
  }

  /** It does so while another request awaits the handler of that id. */
  ghost predicate Clash<D>(s: State<D>, a: Action<D>, id: string) {
    Reaches(s, a, id) && Awaited(s, id)
  }

  /** And the call has a handler. */
  ghost predicate Overlap<D>(names: set<string>, s: State<D>, a: Action<D>, id: string) {
    Clash(s, a, id) && CallAt(s.flights[s.running.value]).name in names
  }

  ghost predicate NoClash<D>(hash: Batch -> D, names: set<string>, actions: seq<Action<D>>, id: string) {
    actions == [] ||
    var front := actions[..|actions| - 1];
    NoClash(hash, names, front, id) && !Clash(Run(hash, names, front), actions[|actions| - 1], id)
  }

  ghost predicate NoOverlap<D>(hash: Batch -> D, names: set<string>, actions: seq<Action<D>>, id: string) {
    actions == [] ||
    var front := actions[..|actions| - 1];
    NoOverlap(hash, names, front, id) && !Overlap(names, Run(hash, names, front), actions[|actions| - 1], id)
  }

  // ---------------------------------------------------------------- the invariant, id by id

  /** An id touched is cached or awaited; an id awaited was started; an id cached was touched. */
  ghost predicate Tracked<D>(s: State<D>, id: string) {
    && (Touches(s.trace, id) > 0 ==> id in s.results || Awaited(s, id))
    && (Awaited(s, id) ==> Times(s.trace, id) > 0)
    && Times(s.trace, id) <= Touches(s.trace, id)
  }

  /** Every answer for the id is the cached result, and a request that awaits the id is the only one and finds it uncached. */
  ghost predicate Settled<D>(s: State<D>, id: string) {
    && (forall j | 0 <= j < |s.flights| && Awaits(s.flights[j], id) :: id !in s.results)
    && (forall i, j | 0 <= i < |s.flights| && 0 <= j < |s.flights| && Awaits(s.flights[i], id) && Awaits(s.flights[j], id) :: i == j)
    && (forall j, p | 0 <= j < |s.flights| && Answered(s.flights[j], p, id) ::
          id in s.results && s.flights[j].answers[p] == s.results[id])
  }

  /** The request's answer at position `p` is for this id. */
  predicate Answered<D>(f: Flight<D>, p: int, id: string) {
    0 <= p < |f.answers| <= |f.request.batch| && f.request.batch[p].callId == id
  }

  lemma TraceSnoc(trace: seq<Event>, e: Event, id: string)
    ensures Times(trace + [e], id) == Times(trace, id) + if e.Started? && e.call.callId == id then 1 else 0
    ensures Touches(trace + [e], id) == Touches(trace, id) + if !e.Returned? && e.call.callId == id then 1 else 0
  {
    assert (trace + [e])[..|trace|] == trace;
  }

  /** What a step does to the counts of an id. */
  lemma StepCounts<D>(hash: Batch -> D, names: set<string>, s: State<D>, a: Action<D>, id: string)
    ensures
      var s' := Next(hash, names, s, a);
      && Touches(s'.trace, id) == Touches(s.trace, id) + (if Reaches(s, a, id) then 1 else 0)
      && Times(s'.trace, id) == Times(s.trace, id) +
           (if Reaches(s, a, id) && CallAt(s.flights[s.running.value]).name in names then 1 else 0)
  {
    if Enabled(s, a) && !a.Start? {
      var k := if a.Step? then s.running.value else a.flight;
      if AtCall(s.flights[k]) {
        var call := CallAt(s.flights[k]);
        TraceSnoc(s.trace, Started(k, call), id);
        TraceSnoc(s.trace, Unhandled(k, call), id);
        if a.HandlerReturns? {
          TraceSnoc(s.trace, Returned(k, ResultOf(call, a.reply)), id);
        }
      }
    }
  }

  /** Who awaits an id after a step: those who did before, except the request that moved. */
  lemma StepAwaits<D>(hash: Batch -> D, names: set<string>, s: State<D>, a: Action<D>, id: string, j: nat)
    requires j < |Next(hash, names, s, a).flights|
    ensures
      Awaits(Next(hash, names, s, a).flights[j], id) <==>
        || (j < |s.flights| && Awaits(s.flights[j], id) && !(Enabled(s, a) && a.HandlerReturns? && a.flight == j))
        || (Reaches(s, a, id) && j == s.running.value && CallAt(s.flights[j]).name in names)
  {
  }

  lemma StepTouched<D>(hash: Batch -> D, names: set<string>, s: State<D>, a: Action<D>, id: string)
    requires Tracked(s, id) && Touches(Next(hash, names, s, a).trace, id) > 0 && id !in Next(hash, names, s, a).results
    ensures Awaited(Next(hash, names, s, a), id)
  {
    var s' := Next(hash, names, s, a);
    StepCounts(hash, names, s, a, id);
    if Reaches(s, a, id) {
      StepAwaits(hash, names, s, a, id, s.running.value);
      assert Awaits(s'.flights[s.running.value], id);
    } else {
      var j :| 0 <= j < |s.flights| && Awaits(s.flights[j], id);
      StepAwaits(hash, names, s, a, id, j);
      assert Awaits(s'.flights[j], id);
    }
  }

  lemma StepAwaited<D>(hash: Batch -> D, names: set<string>, s: State<D>, a: Action<D>, id: string)
    requires Tracked(s, id) && Awaited(Next(hash, names, s, a), id)
    ensures Times(Next(hash, names, s, a).trace, id) > 0
  {
    var s' := Next(hash, names, s, a);
    StepCounts(hash, names, s, a, id);
    var j :| 0 <= j < |s'.flights| && Awaits(s'.flights[j], id);
    StepAwaits(hash, names, s, a, id, j);
  }

  lemma StepTracked<D>(hash: Batch -> D, names: set<string>, s: State<D>, a: Action<D>, id: string)
    requires Tracked(s, id)
    ensures Tracked(Next(hash, names, s, a), id)
  {
    var s' := Next(hash, names, s, a);
    StepCounts(hash, names, s, a, id);
    if Touches(s'.trace, id) > 0 && id !in s'.results {
      StepTouched(hash, names, s, a, id);
    }
    if Awaited(s', id) {
      StepAwaited(hash, names, s, a, id);
    }
  }

  lemma {:induction false} RunTracked<D>(hash: Batch -> D, names: set<string>, actions: seq<Action<D>>, id: string)
    ensures Tracked(Run(hash, names, actions), id)
    decreases |actions|
  {
    if actions != [] {
      var front := actions[..|actions| - 1];
      RunTracked(hash, names, front, id);
      StepTracked(hash, names, Run(hash, names, front), actions[|actions| - 1], id);
    }
  }

  // ---------------------------------------------------------------- at most once, exactly when

  /**
   * Over every interleaving an id's handler runs at most once exactly when no request reaches the uncached id, with a
   * handler for it, while another request awaits its handler.
   */
  lemma {:induction false} AtMostOnceIff<D>(hash: Batch -> D, names: set<string>, actions: seq<Action<D>>, id: string)
    ensures Times(Run(hash, names, actions).trace, id) <= 1 <==> NoOverlap(hash, names, actions, id)
    decreases |actions|
  {
    if actions != [] {
      var front, a := actions[..|actions| - 1], actions[|actions| - 1];
      AtMostOnceIff(hash, names, front, id);
      RunTracked(hash, names, front, id);
      StepCounts(hash, names, Run(hash, names, front), a, id);
    }
  }

  /** The same for what is written to the cache: an id is found uncached at most once exactly when requests never clash on it. */
  lemma {:induction false} TouchedOnceIff<D>(hash: Batch -> D, names: set<string>, actions: seq<Action<D>>, id: string)
    ensures Touches(Run(hash, names, actions).trace, id) <= 1 <==> NoClash(hash, names, actions, id)
    decreases |actions|
  {
    if actions != [] {
      var front, a := actions[..|actions| - 1], actions[|actions| - 1];
      TouchedOnceIff(hash, names, front, id);
      RunTracked(hash, names, front, id);
      StepCounts(hash, names, Run(hash, names, front), a, id);
    }
  }

  // ---------------------------------------------------------------- replays

  lemma StepSettledAwaits<D>(hash: Batch -> D, names: set<string>, s: State<D>, a: Action<D>, id: string, j: nat)
    requires Tracked(s, id) && Settled(s, id) && !Clash(s, a, id)
    requires j < |Next(hash, names, s, a).flights| && Awaits(Next(hash, names, s, a).flights[j], id)
    ensures id !in Next(hash, names, s, a).results
    ensures forall i | 0 <= i < |Next(hash, names, s, a).flights| && Awaits(Next(hash, names, s, a).flights[i], id) :: i == j
  {
    StepAwaits(hash, names, s, a, id, j);
    forall i | 0 <= i < |Next(hash, names, s, a).flights| && Awaits(Next(hash, names, s, a).flights[i], id) ensures i == j {
      StepAwaits(hash, names, s, a, id, i);
    }
  }

  lemma StepSettledAnswers<D>(hash: Batch -> D, names: set<string>, s: State<D>, a: Action<D>, id: string, j: nat, p: nat)
    requires Settled(s, id) && !Clash(s, a, id)
    requires j < |Next(hash, names, s, a).flights| && Answered(Next(hash, names, s, a).flights[j], p, id)
    ensures
      var s' := Next(hash, names, s, a);
      id in s'.results && s'.flights[j].answers[p] == s'.results[id]
  {
    if j < |s.flights| && p < |s.flights[j].answers| {
      assert Answered(s.flights[j], p, id);
      if Enabled(s, a) && a.HandlerReturns? {
        assert !Awaits(s.flights[a.flight], id);
      }
    }
  }

  lemma StepSettled<D>(hash: Batch -> D, names: set<string>, s: State<D>, a: Action<D>, id: string)
    requires Tracked(s, id) && Settled(s, id) && !Clash(s, a, id)
    ensures Settled(Next(hash, names, s, a), id)
  {
    var s' := Next(hash, names, s, a);
    forall j | 0 <= j < |s'.flights| && Awaits(s'.flights[j], id)
      ensures id !in s'.results && forall i | 0 <= i < |s'.flights| && Awaits(s'.flights[i], id) :: i == j
    {
      StepSettledAwaits(hash, names, s, a, id, j);
    }
    forall j, p | 0 <= j < |s'.flights| && Answered(s'.flights[j], p, id)
      ensures id in s'.results && s'.flights[j].answers[p] == s'.results[id]
    {
      StepSettledAnswers(hash, names, s, a, id, j, p);
    }
  }

  lemma {:induction false} RunSettled<D>(hash: Batch -> D, names: set<string>, actions: seq<Action<D>>, id: string)
    requires NoClash(hash, names, actions, id)
    ensures Settled(Run(hash, names, actions), id)
    decreases |actions|
  {
    if actions != [] {
      var front := actions[..|actions| - 1];
      RunSettled(hash, names, front, id);
      RunTracked(hash, names, front, id);
      StepSettled(hash, names, Run(hash, names, front), actions[|actions| - 1], id);
    }
  }

  /** A request's own account: results line up with calls, and what it returned is what it gathered. */
  ghost predicate FlightOk<D>(hash: Batch -> D, f: Flight<D>) {
    && |f.answers| <= |f.request.batch| && (f.pc == Awaiting ==> AtCall(f))
    && (forall p | 0 <= p < |f.answers| :: f.answers[p].callId == f.request.batch[p].callId)
    && (f.pc.Finished? ==> f.pc.answer == if Admitted(hash, f.request) then Ok(f.answers) else Turned(hash, f.request))
    && (f.pc.Finished? && Admitted(hash, f.request) ==> |f.answers| == |f.request.batch|)
    && (!Admitted(hash, f.request) ==> f.pc.Finished? && f.answers == [])
  }

  ghost predicate FlightsOk<D>(hash: Batch -> D, s: State<D>) {
    && (forall id | id in s.results :: s.results[id].callId == id)
    && (forall j | 0 <= j < |s.flights| :: FlightOk(hash, s.flights[j]))
  }

  lemma StepFlights<D>(hash: Batch -> D, names: set<string>, s: State<D>, a: Action<D>)
    requires FlightsOk(hash, s)
    ensures FlightsOk(hash, Next(hash, names, s, a))
  {
    var s' := Next(hash, names, s, a);
    forall j | 0 <= j < |s'.flights| ensures FlightOk(hash, s'.flights[j]) {
      if j < |s.flights| {
        assert FlightOk(hash, s.flights[j]);
      }
    }
  }

  lemma {:induction false} RunFlights<D>(hash: Batch -> D, names: set<string>, actions: seq<Action<D>>)
    ensures FlightsOk(hash, Run(hash, names, actions))
    decreases |actions|
  {
    if actions != [] {
      RunFlights(hash, names, actions[..|actions| - 1]);
      StepFlights(hash, names, Run(hash, names, actions[..|actions| - 1]), actions[|actions| - 1]);
    }
  }

  /**
   * Replay: over every interleaving in which requests do not clash on an id, all admitted requests that returned report
   * the same result for it, whatever happened before, in between and in other batches.
   */
  lemma ReplayReturnsFirst<D>(hash: Batch -> D, names: set<string>, actions: seq<Action<D>>, id: string,
                              first: nat, replay: nat, p: nat, q: nat)
    requires NoClash(hash, names, actions, id)
    requires
      var fs := Run(hash, names, actions).flights;
      && first < |fs| && replay < |fs| && fs[first].pc.Finished? && fs[replay].pc.Finished?
      && Admitted(hash, fs[first].request) && Admitted(hash, fs[replay].request)
      && p < |fs[first].request.batch| && fs[first].request.batch[p].callId == id
      && q < |fs[replay].request.batch| && fs[replay].request.batch[q].callId == id
    ensures
      var fs := Run(hash, names, actions).flights;
      var a, b := fs[first].pc.answer, fs[replay].pc.answer;
      && a.Ok? && b.Ok? && |a.value| == |fs[first].request.batch| && |b.value| == |fs[replay].request.batch|
      && a.value[p] == b.value[q] && a.value[p].callId == id
  {
    RunSettled(hash, names, actions, id);
    RunFlights(hash, names, actions);
    var s := Run(hash, names, actions);
    assert FlightOk(hash, s.flights[first]) && FlightOk(hash, s.flights[replay]);
    assert Answered(s.flights[first], p, id) && Answered(s.flights[replay], q, id);
  }

  /**
   * What a handler's reply becomes: the result of the call it was invoked for, successful with the value it returned or
   * unsuccessful with what it raised; it is the request's next answer and what is cached under the call's id.
   */
  lemma ReplyBecomesResult<D>(hash: Batch -> D, names: set<string>, actions: seq<Action<D>>, k: nat, reply: Reply)
    requires
      var s := Run(hash, names, actions);
      s.running.None? && k < |s.flights| && s.flights[k].pc == Awaiting
    ensures
      var s := Run(hash, names, actions);
      var f, f' := s.flights[k], Run(hash, names, actions + [HandlerReturns(k, reply)]).flights[k];
      && AtCall(f) && |f'.answers| == |f.answers| + 1
      && (var r, call := f'.answers[|f.answers|], f.request.batch[|f.answers|];
          && r.callId == call.callId && r.name == call.name && r.success == reply.Value?
          && r.content == (if reply.Value? then Output(reply.text) else Failure(reply.text))
          && call.callId in Run(hash, names, actions + [HandlerReturns(k, reply)]).results
          && Run(hash, names, actions + [HandlerReturns(k, reply)]).results[call.callId] == r)
  {
    RunFlights(hash, names, actions);
    assert FlightOk(hash, Run(hash, names, actions).flights[k]);
    RunSnoc(hash, names, actions, HandlerReturns(k, reply));
  }

  /**
   * What a request that is not admitted gets: an error exactly when the hash does not match or a needed decision is
   * missing, else one unsuccessful refusal per call, in order.
   */
  lemma TurnedAway<D>(hash: Batch -> D, r: Request<D>)
    requires !Admitted(hash, r)
    ensures
      var t, a := Turned(hash, r), r.authorization;
      && (t == Err(HashMismatch) <==> a.batchHash != hash(r.batch))
      && (t == Err(ApprovalMissing) <==> a.batchHash == hash(r.batch) && a.status == RequiresApproval && r.decision == None)
      && (t.Err? ==> t.error == HashMismatch || t.error == ApprovalMissing)
      && (t.Ok? ==> |t.value| == |r.batch| && forall i | 0 <= i < |r.batch| ::
            t.value[i].callId == r.batch[i].callId && t.value[i].name == r.batch[i].name && !t.value[i].success)
  {
    assert r.decision.Some? ==> r.decision.value == ApproveOnce || r.decision.value == Reject;
  }

  // ---------------------------------------------------------------- what a caller can do about it

  predicate Open<D>(f: Flight<D>) {
    !f.pc.Finished?
  }

  predicate Names<D>(r: Request<D>, id: string) {
    id in CallIds(r.batch)
  }

  /** Starting `r` now shares no uncached id with a request still in flight. */
  ghost predicate Apart<D>(s: State<D>, r: Request<D>) {
    forall j, id | 0 <= j < |s.flights| && Open(s.flights[j]) && Names(s.flights[j].request, id) && Names(r, id) :: id in s.results
  }

  ghost predicate ApartHistory<D>(hash: Batch -> D, names: set<string>, actions: seq<Action<D>>) {
    actions == [] ||
    var front, a := actions[..|actions| - 1], actions[|actions| - 1];
    ApartHistory(hash, names, front) && (a.Start? ==> Apart(Run(hash, names, front), a.request))
  }

  /** Two requests in flight share an id only if it is cached. */
  ghost predicate Separate<D>(s: State<D>, id: string) {
    forall i, j | 0 <= i < j < |s.flights| && Open(s.flights[i]) && Open(s.flights[j])
      && Names(s.flights[i].request, id) && Names(s.flights[j].request, id) :: id in s.results
  }

  lemma StepSeparate<D>(hash: Batch -> D, names: set<string>, s: State<D>, a: Action<D>, id: string)
    requires Separate(s, id) && (a.Start? ==> Apart(s, a.request))
    ensures Separate(Next(hash, names, s, a), id)
  {
    var s' := Next(hash, names, s, a);
    forall i, j | 0 <= i < j < |s'.flights| && Open(s'.flights[i]) && Open(s'.flights[j])
      && Names(s'.flights[i].request, id) && Names(s'.flights[j].request, id) ensures id in s'.results
    {
      assert i < |s.flights| && Open(s.flights[i]) && Names(s.flights[i].request, id);
      if j < |s.flights| {
        assert Open(s.flights[j]) && Names(s.flights[j].request, id);
      }
    }
  }

  lemma SeparateNoClash<D>(s: State<D>, a: Action<D>, id: string)
    requires Separate(s, id)
    ensures !Clash(s, a, id)
  {
    if Clash(s, a, id) {
      var k := s.running.value;
      var j :| 0 <= j < |s.flights| && Awaits(s.flights[j], id);
      NamesAt(s.flights[j]);
      NamesAt(s.flights[k]);
      assert Open(s.flights[j]) && Open(s.flights[k]);
    }
  }

  lemma NamesAt<D>(f: Flight<D>)
    requires AtCall(f)
    ensures Names(f.request, CallAt(f).callId)
  {
    assert CallIds(f.request.batch)[|f.answers|] == CallAt(f).callId;
  }

  /** If batches in flight never share an uncached id then requests never clash, so each handler runs at most once. */
  lemma {:induction false} ApartRunsOnce<D>(hash: Batch -> D, names: set<string>, actions: seq<Action<D>>, id: string)
    requires ApartHistory(hash, names, actions)
    ensures NoClash(hash, names, actions, id) && NoOverlap(hash, names, actions, id) && Separate(Run(hash, names, actions), id)
    ensures Times(Run(hash, names, actions).trace, id) <= 1
    decreases |actions|
  {
    if actions != [] {
      var front, a := actions[..|actions| - 1], actions[|actions| - 1];
      ApartRunsOnce(hash, names, front, id);
      SeparateNoClash(Run(hash, names, front), a, id);
      StepSeparate(hash, names, Run(hash, names, front), a, id);
    }
    AtMostOnceIff(hash, names, actions, id);
  }

  ghost predicate Sequential<D>(hash: Batch -> D, names: set<string>, actions: seq<Action<D>>) {
    actions == [] ||
    var front, a := actions[..|actions| - 1], actions[|actions| - 1];
    && Sequential(hash, names, front)
    && (a.Start? ==> forall j | 0 <= j < |Run(hash, names, front).flights| :: !Open(Run(hash, names, front).flights[j]))
  }

  /** In particular one request at a time is enough. */
  lemma {:induction false} SequentialIsApart<D>(hash: Batch -> D, names: set<string>, actions: seq<Action<D>>)
    requires Sequential(hash, names, actions)
    ensures ApartHistory(hash, names, actions)
    decreases |actions|
  {
    if actions != [] {
      SequentialIsApart(hash, names, actions[..|actions| - 1]);
    }
  }

  // ---------------------------------------------------------------- the overlap happens

  /** Run more actions from a state. */
  function Continue<D(==)>(hash: Batch -> D, names: set<string>, s: State<D>, actions: seq<Action<D>>): State<D>
    decreases |actions|
  {
    if actions == [] then s else Continue(hash, names, Next(hash, names, s, actions[0]), actions[1..])
  }

  lemma {:induction false} RunContinue<D>(hash: Batch -> D, names: set<string>, before: seq<Action<D>>, actions: seq<Action<D>>)
    ensures Run(hash, names, before + actions) == Continue(hash, names, Run(hash, names, before), actions)
    decreases |actions|
  {
    if actions == [] {
      assert before + actions == before;
    } else {
      assert before + actions == before + [actions[0]] + actions[1..];
      RunSnoc(hash, names, before, actions[0]);
      RunContinue(hash, names, before + [actions[0]], actions[1..]);
    }
  }

  /** Two requests for the same approved call overlap, then a third replays it. */
  function Overlapping<D>(r: Request<D>, a: Reply, b: Reply): seq<Action<D>> {
    [Start(r), Step, Start(r), Step] + [HandlerReturns(0, a), Step, HandlerReturns(1, b), Step] + [Start(r), Step, Step]
  }

  /**
   * The promise fails when requests overlap: the same approved batch sent twice before its handler returns runs the
   * handler twice, the later result replaces the cached one, and a replay does not return the first.
   */
  lemma OverlapRunsTwice<D>(hash: Batch -> D, names: set<string>, r: Request<D>, call: ToolCall, a: Reply, b: Reply)
    requires Admitted(hash, r) && r.batch == [call] && call.name in names
    ensures
      var s := Run(hash, names, Overlapping(r, a, b));
      && Times(s.trace, call.callId) == 2 && |s.flights| == 3
      && s.flights[0].pc == Finished(Ok([ResultOf(call, a)]))
      && s.flights[2].pc == Finished(Ok([ResultOf(call, b)]))
  {
    var x, y := ResultOf(call, a), ResultOf(call, b);
    var waiting := Flight(r, [], Awaiting);
    var two := [Start(r), Step, Start(r), Step];
    var four := [HandlerReturns(0, a), Step, HandlerReturns(1, b), Step];
    var three := [Start(r), Step, Step];
    var t2 := [Started(0, call), Started(1, call)];
    BothStart(hash, names, r, call);
    BothReturn(hash, names, r, call, a, b);
    ReplayAfter(hash, names, r, call, x, y);
    RunContinue(hash, names, [], two);
    RunContinue(hash, names, two, four);
    RunContinue(hash, names, two + four, three);
    assert [] + two == two;
    var t := t2 + [Returned(0, x), Returned(1, y)];
    CountTwo(call, x, y);
    assert Run(hash, names, Overlapping(r, a, b)).trace == t;
  }

  lemma CountTwo(call: ToolCall, x: ToolResult, y: ToolResult)
    ensures Times([Started(0, call), Started(1, call)] + [Returned(0, x), Returned(1, y)], call.callId) == 2
  {
    var id := call.callId;
    var t := [Started(0, call), Started(1, call)] + [Returned(0, x), Returned(1, y)];
    assert t == [] + [Started(0, call)] + [Started(1, call)] + [Returned(0, x)] + [Returned(1, y)];
    TraceSnoc([], Started(0, call), id);
    TraceSnoc([] + [Started(0, call)], Started(1, call), id);
    TraceSnoc([] + [Started(0, call)] + [Started(1, call)], Returned(0, x), id);
    TraceSnoc([] + [Started(0, call)] + [Started(1, call)] + [Returned(0, x)], Returned(1, y), id);
  }

  lemma BothStart<D>(hash: Batch -> D, names: set<string>, r: Request<D>, call: ToolCall)
    requires Admitted(hash, r) && r.batch == [call] && call.name in names
    ensures Continue(hash, names, Fresh(), [Start(r), Step, Start(r), Step])
         == State(map[], [Flight(r, [], Awaiting), Flight(r, [], Awaiting)], None, [Started(0, call), Started(1, call)])
  {
    var s1 := State(map[], [Flight(r, [], Looping)], Some(0), []);
    var s2 := State(map[], [Flight(r, [], Awaiting)], None, [Started(0, call)]);
    var s3 := State(map[], [Flight(r, [], Awaiting), Flight(r, [], Looping)], Some(1), [Started(0, call)]);
    assert Next(hash, names, Fresh(), Start(r)) == s1;
    assert Next(hash, names, s1, Step) == s2;
    assert Next(hash, names, s2, Start(r)) == s3;
    Four(hash, names, Fresh(), Start(r), Step, Start(r), Step);
  }

  lemma BothReturn<D>(hash: Batch -> D, names: set<string>, r: Request<D>, call: ToolCall, a: Reply, b: Reply)
    requires r.batch == [call]
    ensures
      var x, y := ResultOf(call, a), ResultOf(call, b);
      var t2 := [Started(0, call), Started(1, call)];
      Continue(hash, names, State(map[], [Flight(r, [], Awaiting), Flight(r, [], Awaiting)], None, t2),
               [HandlerReturns(0, a), Step, HandlerReturns(1, b), Step])
        == State(map[call.callId := y], [Flight(r, [x], Finished(Ok([x]))), Flight(r, [y], Finished(Ok([y])))], None,
                 t2 + [Returned(0, x), Returned(1, y)])
  {
    var x, y := ResultOf(call, a), ResultOf(call, b);
    var t2 := [Started(0, call), Started(1, call)];
    var s0 := State(map[], [Flight(r, [], Awaiting), Flight(r, [], Awaiting)], None, t2);
    var s1 := State(map[call.callId := x], [Flight(r, [x], Looping), Flight(r, [], Awaiting)], Some(0), t2 + [Returned(0, x)]);
    var s2 := State(map[call.callId := x], [Flight(r, [x], Finished(Ok([x]))), Flight(r, [], Awaiting)], None, t2 + [Returned(0, x)]);
    var s3 := State(map[call.callId := y], [Flight(r, [x], Finished(Ok([x]))), Flight(r, [y], Looping)], Some(1),
                    t2 + [Returned(0, x), Returned(1, y)]);
    assert CallAt(Flight(r, [], Awaiting)) == call && [] + [x] == [x] && [] + [y] == [y];
    assert map[][call.callId := x] == map[call.callId := x] && map[call.callId := x][call.callId := y] == map[call.callId := y];
    assert s0.flights[0 := Flight(r, [x], Looping)] == s1.flights;
    assert Next(hash, names, s0, HandlerReturns(0, a)) == s1;
    assert Next(hash, names, s1, Step) == s2;
    assert s2.flights[1 := Flight(r, [y], Looping)] == s3.flights && s2.trace + [Returned(1, y)] == s3.trace;
    assert Next(hash, names, s2, HandlerReturns(1, b)) == s3;
    Four(hash, names, s0, HandlerReturns(0, a), Step, HandlerReturns(1, b), Step);
  }

  lemma ReplayAfter<D>(hash: Batch -> D, names: set<string>, r: Request<D>, call: ToolCall, x: ToolResult, y: ToolResult)
    requires Admitted(hash, r) && r.batch == [call]
    ensures
      var t := [Started(0, call), Started(1, call)] + [Returned(0, x), Returned(1, y)];
      var done := [Flight(r, [x], Finished(Ok([x]))), Flight(r, [y], Finished(Ok([y])))];
      Continue(hash, names, State(map[call.callId := y], done, None, t), [Start(r), Step, Step])
        == State(map[call.callId := y], done + [Flight(r, [y], Finished(Ok([y])))], None, t)
  {
    var t := [Started(0, call), Started(1, call)] + [Returned(0, x), Returned(1, y)];
    var done := [Flight(r, [x], Finished(Ok([x]))), Flight(r, [y], Finished(Ok([y])))];
    var m := map[call.callId := y];
    var s0 := State(m, done, None, t);
    var s1 := State(m, done + [Flight(r, [], Looping)], Some(2), t);
    var s2 := State(m, done + [Flight(r, [y], Looping)], Some(2), t);
    assert Next(hash, names, s0, Start(r)) == s1;
    assert CallAt(Flight(r, [], Looping)) == call && [] + [y] == [y];
    assert s1.flights[2 := Flight(r, [y], Looping)] == s2.flights;
    assert Next(hash, names, s1, Step) == s2;
    var end: seq<Action<D>> := [Step];
    assert [Start(r), Step, Step][1..] == [Step] + end && ([Step] + end)[1..] == end && end[1..] == [];
    assert Continue(hash, names, s2, end) == Next(hash, names, s2, Step);
  }

  lemma Four<D>(hash: Batch -> D, names: set<string>, s: State<D>, a: Action<D>, b: Action<D>, c: Action<D>, d: Action<D>)
    ensures Continue(hash, names, s, [a, b, c, d])
         == Next(hash, names, Next(hash, names, Next(hash, names, Next(hash, names, s, a), b), c), d)
  {
    assert [a, b, c, d][1..] == [b, c, d] && [b, c, d][1..] == [c, d] && [c, d][1..] == [d] && [d][1..] == [];
    var s1 := Next(hash, names, s, a);
    var s2 := Next(hash, names, s1, b);
    var s3 := Next(hash, names, s2, c);
    assert Continue(hash, names, s3, [d]) == Next(hash, names, s3, d);
    assert Continue(hash, names, s2, [c, d]) == Continue(hash, names, s3, [d]);
    assert Continue(hash, names, s1, [b, c, d]) == Continue(hash, names, s2, [c, d]);
  }

  // ---------------------------------------------------------------- authorization binds the batch

  /** An authorization the control plane issued for some batch. */
  ghost predicate Issued<D>(hash: Batch -> D, tools: map<string, Descriptor>, policy: GatewayPolicy, a: Authorization<D>) {
    exists b :: a == Authorize(hash, b, tools, policy)
  }

  /** With an injective hash an issued authorization admits one batch only: the one it was issued for. */
  lemma AuthorizationBindsBatch<D>(hash: Batch -> D, tools: map<string, Descriptor>, policy: GatewayPolicy,
                                   batch: Batch, r: Request<D>)
    requires Digests.Injective(hash) && r.authorization == Authorize(hash, batch, tools, policy)
    ensures Admitted(hash, r) <==>
            && r.batch == batch
            && (Decide(batch, tools, policy) == Approved
                || (Decide(batch, tools, policy) == RequiresApproval && r.decision == Some(ApproveOnce)))
  {
    if hash(r.batch) == hash(batch) {
      assert r.batch == batch;
    }
  }

  /** A handler runs only for a call of an admitted request. */
  ghost predicate StartsAdmitted<D>(hash: Batch -> D, s: State<D>) {
    && FlightsOk(hash, s)
    && forall i | 0 <= i < |s.trace| && s.trace[i].Started? ::
         var k := s.trace[i].flight;
         k < |s.flights| && s.trace[i].call in s.flights[k].request.batch && Admitted(hash, s.flights[k].request)
  }

  lemma StepStartsAdmitted<D>(hash: Batch -> D, names: set<string>, s: State<D>, a: Action<D>)
    requires StartsAdmitted(hash, s)
    ensures StartsAdmitted(hash, Next(hash, names, s, a))
  {
    var s' := Next(hash, names, s, a);
    StepFlights(hash, names, s, a);
    forall i | 0 <= i < |s'.trace| && s'.trace[i].Started? ensures
      var k := s'.trace[i].flight;
      k < |s'.flights| && s'.trace[i].call in s'.flights[k].request.batch && Admitted(hash, s'.flights[k].request)
    {
      if i < |s.trace| {
        assert s'.trace[i] == s.trace[i];
      } else {
        assert FlightOk(hash, s.flights[s.running.value]);
      }
    }
  }

  lemma {:induction false} RunStartsAdmitted<D>(hash: Batch -> D, names: set<string>, actions: seq<Action<D>>)
    ensures StartsAdmitted(hash, Run(hash, names, actions))
    decreases |actions|
  {
    if actions != [] {
      RunStartsAdmitted(hash, names, actions[..|actions| - 1]);
      StepStartsAdmitted(hash, names, Run(hash, names, actions[..|actions| - 1]), actions[|actions| - 1]);
    }
  }

  /**
   * Over every interleaving of requests whose authorizations were issued, only described and allowed tools run, and a
   * tool that needs approval runs only in a batch a human approved.
   */
  lemma OnlyAuthorizedRun<D>(hash: Batch -> D, names: set<string>, tools: map<string, Descriptor>, policy: GatewayPolicy,
                             actions: seq<Action<D>>, i: nat)
    requires Digests.Injective(hash)
    requires
      var s := Run(hash, names, actions);
      && (forall k | 0 <= k < |s.flights| :: Issued(hash, tools, policy, s.flights[k].request.authorization))
      && i < |s.trace| && s.trace[i].Started?
    ensures
      var s := Run(hash, names, actions);
      var call, k := s.trace[i].call, s.trace[i].flight;
      && call.name in tools && call.name in policy.allowed
      && k < |s.flights| && call in s.flights[k].request.batch
      && (NeedsApproval(call.name, tools, policy) ==> s.flights[k].request.decision == Some(ApproveOnce))
  {
    RunStartsAdmitted(hash, names, actions);
    var s := Run(hash, names, actions);
    var r := s.flights[s.trace[i].flight].request;
    var b :| r.authorization == Authorize(hash, b, tools, policy);
    AuthorizationBindsBatch(hash, tools, policy, b, r);
    NotDenied(b, tools, policy, s.trace[i].call);
  }

  // ---------------------------------------------------------------- the executor object

  class ToolGatewayExecutor<D(==)> {
    const hash: Batch -> D
    const names: set<string>
    var results: map<string, ToolResult>
    var flights: seq<Flight<D>>
    var running: Option<nat>
    var trace: seq<Event>
    ghost var history: seq<Action<D>>

    ghost function Model(): State<D>
      reads this
    {
      State(results, flights, running, trace)
    }

    /** The object is where its history leads. */
    ghost predicate Valid()
      reads this
    {
      Model() == Run(hash, names, history)
    }

    constructor (hash: Batch -> D, names: set<string>)
      ensures Valid() && history == [] && running == None && this.hash == hash && this.names == names
    {
      this.hash, this.names := hash, names;
      results, flights, running, trace := map[], [], None, [];
      history := [];
    }

    /** The loop over the batch, until the first call whose handler must be awaited. */
    method Loop(k: nat)
      requires Valid() && running == Some(k) && k < |flights| && flights[k].pc == Looping
      modifies this
      ensures Valid() && running == None && old(history) <= history && |flights| == |old(flights)|
      ensures forall i | |old(history)| <= i < |history| :: history[i] == Step
      ensures flights[k].request == old(flights[k].request) && flights[k].pc != Looping
      ensures forall j | 0 <= j < |flights| && j != k :: flights[j] == old(flights)[j]
    {
      RunFlights(hash, names, history);
      while running == Some(k)
        invariant Valid() && (running == Some(k) || running == None) && k < |flights| == |old(flights)|
        invariant old(history) <= history && forall i | |old(history)| <= i < |history| :: history[i] == Step
        invariant flights[k].request == old(flights[k].request) && (flights[k].pc == Looping <==> running == Some(k))
        invariant forall j | 0 <= j < |flights| && j != k :: flights[j] == old(flights)[j]
        invariant |flights[k].answers| <= |flights[k].request.batch|
        decreases (if running == Some(k) then 1 else 0) + |flights[k].request.batch| - |flights[k].answers|
      {
        RunSnoc(hash, names, history, Step);
        history := history + [Step];
        var f := flights[k];
        if |f.answers| == |f.request.batch| {
          flights := flights[k := f.(pc := Finished(Ok(f.answers)))];
          running := None;
        } else {
          var call := f.request.batch[|f.answers|];
          if call.callId in results {
            flights := flights[k := f.(answers := f.answers + [results[call.callId]])];
          } else if call.name !in names {
            var result := Refuse(call, HandlerUnavailable);
            results := results[call.callId := result];
            flights := flights[k := f.(answers := f.answers + [result])];
            trace := trace + [Unhandled(k, call)];
          } else {
            flights := flights[k := f.(pc := Awaiting)];
            running := None;
            trace := trace + [Started(k, call)];
          }
        }
      }
    }

    /** A call of `execute`, until it ends or awaits a handler; an id no requests overlapped on has run at most once. */
    method Execute(r: Request<D>)
      requires Valid() && running == None
      modifies this
      ensures Valid() && running == None && old(history) + [Start(r)] <= history
      ensures |flights| == |old(flights)| + 1 && flights[..|old(flights)|] == old(flights)
      ensures flights[|old(flights)|].request == r
      ensures flights[|old(flights)|].pc.Finished? ==>
                flights[|old(flights)|].pc.answer == if Admitted(hash, r) then Ok(flights[|old(flights)|].answers) else Turned(hash, r)
      ensures forall id | NoOverlap(hash, names, history, id) :: Times(trace, id) <= 1
    {
      var k := |flights|;
      RunSnoc(hash, names, history, Start(r));
      history := history + [Start(r)];
      ghost var start := history;
      if r.authorization.batchHash != hash(r.batch) {
        flights := flights + [Flight(r, [], Finished(Err(HashMismatch)))];
      } else if r.authorization.status == Denied {
        flights := flights + [Flight(r, [], Finished(Ok(RefuseAll(r.batch, NotAuthorized(r.authorization.refused)))))];
      } else if r.authorization.status == RequiresApproval && r.decision == None {
        flights := flights + [Flight(r, [], Finished(Err(ApprovalMissing)))];
      } else if r.authorization.status == RequiresApproval && r.decision == Some(Reject) {
        flights := flights + [Flight(r, [], Finished(Ok(RefuseAll(r.batch, RejectedByUser))))];
      } else {
        assert r.decision.Some? ==> r.decision.value == ApproveOnce || r.decision.value == Reject;
        assert Admitted(hash, r);
        flights := flights + [Flight(r, [], Looping)];
        running := Some(k);
        Loop(k);
      }
      RunFlights(hash, names, history);
      assert FlightOk(hash, flights[k]);
      forall id | NoOverlap(hash, names, history, id) ensures Times(trace, id) <= 1 {
        AtMostOnceIff(hash, names, history, id);
      }
    }

    /** The awaited handler answered: its result is cached and the loop goes on. */
    method HandlerReturned(k: nat, reply: Reply)
      requires Valid() && running == None && k < |flights| && flights[k].pc == Awaiting
      modifies this
      ensures Valid() && running == None && old(history) + [HandlerReturns(k, reply)] <= history
      ensures |flights| == |old(flights)| && forall j | 0 <= j < |flights| && j != k :: flights[j] == old(flights)[j]
      ensures flights[k].request == old(flights[k].request)
      ensures forall id | NoOverlap(hash, names, history, id) :: Times(trace, id) <= 1
    {
      RunFlights(hash, names, history);
      assert FlightOk(hash, flights[k]);
      RunSnoc(hash, names, history, HandlerReturns(k, reply));
      history := history + [HandlerReturns(k, reply)];
      var f := flights[k];
      var call := f.request.batch[|f.answers|];
      var result := ResultOf(call, reply);
      results := results[call.callId := result];
      trace := trace + [Returned(k, result)];
      flights := flights[k := f.(answers := f.answers + [result], pc := Looping)];
      running := Some(k);
      Loop(k);
      forall id | NoOverlap(hash, names, history, id) ensures Times(trace, id) <= 1 {
        AtMostOnceIff(hash, names, history, id);
      }
    }
  }
}
