/** Conservation over whole runs of the bridge: every tool call gets exactly one tool result, in order. */
module BridgeLedger {
  import opened Text
  import opened ToolContracts
  import opened Approval
  import opened Bridge

  /**
   * A reading of the trace. `owed` are the emitted calls still without a result, oldest first; a result must answer
   * the oldest one, a stored result must repeat the first result stored for its id, a delegation must be part of a
   * batch that is owed in full and nothing else is (`ok`), and a raised error writes the batch off. `answers` are the
   * emitted results, `stored` the first stored result of every id, `rounds` the number of delegations.
   */
  datatype Ledger = Ledger(ok: bool, owed: seq<string>, answers: seq<ToolResult>, stored: map<string, ToolResult>, rounds: nat)

  predicate PartOf(calls: Batch, batch: Batch) {
    forall c :: c in calls ==> c in batch
  }

  function Post(l: Ledger, e: Event): Ledger {
    match e
    case CallEmitted(call) => l.(owed := l.owed + [call.callId])
    case ResultEmitted(r, stored) =>
      if l.owed != [] && l.owed[0] == r.callId && (stored && r.callId in l.stored ==> l.stored[r.callId] == r)
      then l.(owed := l.owed[1..], answers := l.answers + [r], stored := if stored then l.stored[r.callId := r] else l.stored)
      else l.(ok := false)
    case Delegated(calls, batch) =>
      l.(ok := l.ok && l.owed == CallIds(batch) && PartOf(calls, batch), rounds := l.rounds + 1)
    case Failed(_) => l.(owed := [])
    case _ => l
  }

  function Book(t: seq<Event>): Ledger {
    if t == [] then Ledger(true, [], [], map[], 0) else Post(Book(t[..|t| - 1]), t[|t| - 1])
  }

  lemma BookEmit(s: State, e: Event)
    ensures Book(Emit(s, e).trace) == Post(Book(s.trace), e)
  {
  }

  ghost predicate Keyed(m: map<string, ToolResult>) {
    forall id :: id in m ==> m[id].callId == id
  }

  /** The ledger is in order, the bridge's result cache and round number are the ledger's, and `owed` is what is owed. */
  ghost predicate Owing(s: State, owed: seq<string>) {
    var l := Book(s.trace);
    l.ok && l.owed == owed && l.stored == s.results && Keyed(s.results) && l.rounds == s.rounds
  }

  /** Nothing is owed when idle; a suspended batch is recorded, not empty and owed in full; a question is a single call. */
  ghost predicate Balanced(s: State) {
    && Owing(s, if s.frame == Idle then [] else CallIds(s.pendingCalls))
    && (s.frame != Idle ==> s.pendingCalls != [] && s.pendingBatch == Some(s.pendingCalls))
    && (s.frame == AwaitAnswer ==> |s.pendingCalls| == 1 && s.pendingCalls[0].name == ASK_USER)
  }

  ghost predicate PendingCleared(s: State) {
    && s.frame == Idle && s.pendingBatch == None && s.pendingStatus == None && s.pendingCalls == []
    && s.pendingMethod == None && s.decision == Absent && s.answer == Absent
  }

  /** `e` answers `calls`: results aligned by call id, reported exactly as returned, pending state gone. */
  ghost predicate Answers(before: State, calls: Batch, e: Ended) {
    && e.out.Returned? && ResultIds(e.out.results) == CallIds(calls)
    && Balanced(e.s) && PendingCleared(e.s)
    && Book(e.s.trace).answers == Book(before.trace).answers + e.out.results
  }

  // ---------------------------------------------------------------- posting whole lists

  lemma CallIdsSnoc(front: Batch, call: ToolCall)
    ensures CallIds(front + [call]) == CallIds(front) + [call.callId]
  {
  }

  lemma {:induction false} EmitCallsBook(s: State, calls: Batch)
    ensures
      var s' := EmitCalls(s, calls);
      && Book(s'.trace) == Book(s.trace).(owed := Book(s.trace).owed + CallIds(calls))
      && s' == s.(trace := s'.trace)
    decreases |calls|
  {
    var owed := Book(s.trace).owed;
    if calls == [] {
      assert owed + CallIds(calls) == owed;
    } else {
      var front, call := calls[..|calls| - 1], calls[|calls| - 1];
      assert calls == front + [call];
      EmitCallsBook(s, front);
      BookEmit(EmitCalls(s, front), CallEmitted(call));
      CallIdsSnoc(front, call);
      assert owed + CallIds(front) + [call.callId] == owed + CallIds(calls);
    }
  }

  lemma StoreOneBook(s: State, r: ToolResult, rest: seq<string>)
    requires Owing(s, [r.callId] + rest)
    ensures
      var (s', kept) := StoreOne(s, r);
      && kept.callId == r.callId && Owing(s', rest)
      && Book(s'.trace).answers == Book(s.trace).answers + [kept]
  {
    var kept := if r.callId in s.results then s.results[r.callId] else r;
    BookEmit(s.(results := s.results[r.callId := kept]), ResultEmitted(kept, true));
    assert ([r.callId] + rest)[1..] == rest;
  }

  lemma SplitOwed(front: seq<ToolResult>, r: ToolResult, rest: seq<string>)
    ensures ResultIds(front + [r]) + rest == ResultIds(front) + ([r.callId] + rest)
  {
  }

  lemma {:induction false} StoreAllBook(s: State, rs: seq<ToolResult>, rest: seq<string>)
    requires Owing(s, ResultIds(rs) + rest)
    ensures
      var (s', unique) := StoreAll(s, rs);
      && ResultIds(unique) == ResultIds(rs) && Owing(s', rest)
      && Book(s'.trace).answers == Book(s.trace).answers + unique
    decreases |rs|
  {
    if rs == [] {
      assert ResultIds(rs) + rest == rest && Book(s.trace).answers + [] == Book(s.trace).answers;
    } else {
      var front, r := rs[..|rs| - 1], rs[|rs| - 1];
      assert rs == front + [r];
      SplitOwed(front, r, rest);
      StoreAllBook(s, front, [r.callId] + rest);
      var (s1, unique1) := StoreAll(s, front);
      StoreOneBook(s1, r, rest);
      var (s2, kept) := StoreOne(s1, r);
      IdsSnoc(front, r, unique1, kept);
      assert Book(s.trace).answers + (unique1 + [kept]) == Book(s.trace).answers + unique1 + [kept];
    }
  }

  lemma IdsSnoc(xs: seq<ToolResult>, x: ToolResult, ys: seq<ToolResult>, y: ToolResult)
    requires ResultIds(xs) == ResultIds(ys) && x.callId == y.callId
    ensures ResultIds(ys + [y]) == ResultIds(xs + [x])
  {
    assert ResultIds(xs + [x]) == ResultIds(xs) + [x.callId];
    assert ResultIds(ys + [y]) == ResultIds(ys) + [y.callId];
  }

  lemma StoreAnswers(before: State, s: State, calls: Batch, rs: seq<ToolResult>)
    requires Owing(s, CallIds(calls)) && ResultIds(rs) == CallIds(calls) && Book(s.trace).answers == Book(before.trace).answers
    ensures Answers(before, calls, Store(s, rs))
  {
    assert ResultIds(rs) + [] == ResultIds(rs);
    StoreAllBook(s, rs, []);
  }

  lemma EmitOneBook(s: State, r: ToolResult, rest: seq<string>)
    requires Owing(s, [r.callId] + rest)
    ensures
      var s' := Emit(s, ResultEmitted(r, false));
      Owing(s', rest) && Book(s'.trace).answers == Book(s.trace).answers + [r]
  {
    BookEmit(s, ResultEmitted(r, false));
    assert ([r.callId] + rest)[1..] == rest;
  }

  lemma {:induction false} EmitResultsBook(s: State, rs: seq<ToolResult>, rest: seq<string>)
    requires Owing(s, ResultIds(rs) + rest)
    ensures
      var s' := EmitResults(s, rs);
      && Owing(s', rest) && Book(s'.trace).answers == Book(s.trace).answers + rs && s' == s.(trace := s'.trace)
    decreases |rs|
  {
    if rs == [] {
      assert ResultIds(rs) + rest == rest && Book(s.trace).answers + [] == Book(s.trace).answers;
    } else {
      var front, r := rs[..|rs| - 1], rs[|rs| - 1];
      assert rs == front + [r];
      SplitOwed(front, r, rest);
      EmitResultsBook(s, front, [r.callId] + rest);
      EmitOneBook(EmitResults(s, front), r, rest);
      assert Book(s.trace).answers + front + [r] == Book(s.trace).answers + rs;
    }
  }

  lemma RejectedAnswers(before: State, s: State, calls: Batch, why: Refusal)
    requires Owing(s, CallIds(calls)) && Book(s.trace).answers == Book(before.trace).answers
    ensures Answers(before, calls, Rejected(s, calls, why))
  {
    var rs := RefuseAll(calls, why);
    assert ResultIds(rs) + [] == CallIds(calls) == ResultIds(rs);
    EmitResultsBook(s, rs, []);
  }

  // ---------------------------------------------------------------- screening and dispatch

  /** Screening moves the cache and adds events the ledger does not post. */
  ghost predicate Neutral(s: State, s': State) {
    Book(s'.trace) == Book(s.trace) && s' == s.(cache := s'.cache, trace := s'.trace)
  }

  lemma ConsultNeutral(cfg: Config, w: World, s: State, r: Request)
    ensures Neutral(s, Consult(cfg, w, s, r).0)
  {
    if cfg.approver == CachedJudge {
      var (cache, v) := Approval.Approve(w.judge, s.cache, r);
      BookEmit(s.(cache := cache), Judged(r, v.allowed));
    }
  }

  lemma CheckBashNeutral(cfg: Config, g: BashGate, w: World, s: State, call: ToolCall)
    ensures Neutral(s, CheckBash(cfg, g, w, s, call).0)
  {
    ConsultNeutral(cfg, w, s, ApprovalRequest(cfg, g, w, call));
  }

  lemma CallProblemNeutral(cfg: Config, w: World, s: State, call: ToolCall)
    ensures Neutral(s, CallProblem(cfg, w, s, call).0)
  {
    if cfg.mode == Silent && SandboxProblem(cfg, w, call).Some? {
      BookEmit(s, SandboxWarning(call.callId));
    } else if call.name == BASH && cfg.gate.Some? {
      CheckBashNeutral(cfg, cfg.gate.value, w, s, call);
      var (s1, o) := CheckBash(cfg, cfg.gate.value, w, s, call);
      BookEmit(s1, GateChecked(call.callId, o.tier, o.allowed, o.source));
    }
  }

  lemma {:induction false} ScreenNeutral(cfg: Config, w: World, s: State, calls: Batch)
    ensures Neutral(s, Screen(cfg, w, s, calls).0)
    decreases |calls|
  {
    if calls != [] {
      ScreenNeutral(cfg, w, s, calls[..|calls| - 1]);
      CallProblemNeutral(cfg, w, Screen(cfg, w, s, calls[..|calls| - 1]).0, calls[|calls| - 1]);
    }
  }

  lemma {:induction false} AnswersKeyed(w: World, round: nat, calls: Batch)
    ensures Keyed(RoundAnswers(w, round, calls))
  {
    if calls != [] {
      AnswersKeyed(w, round, calls[..|calls| - 1]);
    }
  }

  lemma OrderedIds(calls: Batch, blocked: map<string, Refusal>, executed: map<string, ToolResult>)
    requires Answerable(calls, blocked, executed) && Keyed(executed)
    ensures ResultIds(Ordered(calls, blocked, executed)) == CallIds(calls)
  {
  }

  lemma DispatchAnswers(cfg: Config, w: World, before: State, s: State, calls: Batch)
    requires Owing(s, CallIds(calls)) && Book(s.trace).answers == Book(before.trace).answers
    ensures Answers(before, calls, Dispatch(cfg, w, s, calls))
  {
    ScreenNeutral(cfg, w, s, calls);
    var (s1, blocked) := Screen(cfg, w, s, calls);
    var remaining := Survivors(calls, blocked);
    BookEmit(s1, Delegated(remaining, calls));
    SurvivorsExact(calls, blocked);
    var s2 := Delegate(s1, remaining, calls);
    SurvivorsAnswered(w, s1.rounds, calls, blocked);
    var executed := RoundAnswers(w, s1.rounds, remaining);
    AnswersKeyed(w, s1.rounds, remaining);
    OrderedIds(calls, blocked, executed);
    StoreAnswers(before, s2, calls, Ordered(calls, blocked, executed));
  }

  /** Past authorization a batch is answered in full, or suspended and owed in full, or written off by a raise. */
  ghost predicate Settled(before: State, calls: Batch, e: Ended) {
    match e.out
    case Returned(_) => Answers(before, calls, e)
    case Suspended =>
      && Balanced(e.s) && e.s.frame != Idle && e.s.pendingCalls == calls && e.s.pendingBatch == Some(calls)
      && Book(e.s.trace).answers == Book(before.trace).answers
    case Raised(_) => Balanced(e.s) && e.s.frame == Idle && Book(e.s.trace).answers == Book(before.trace).answers
    case _ => false
  }

  lemma AskUserSettles(before: State, s: State, calls: Batch, how: Method)
    requires exists c :: c in calls && c.name == ASK_USER
    requires Owing(s, CallIds(calls)) && Book(s.trace).answers == Book(before.trace).answers
    ensures Settled(before, calls, AskUser(s, calls, how))
  {
    if |calls| != 1 {
      BookEmit(s, Failed(AskNotAlone));
    } else if IsBlank(ArgText(calls[0], "question")) {
      StoreAnswers(before, s, calls, [Refuse(calls[0], QuestionMissing)]);
    } else {
      BookEmit(s.(frame := AwaitAnswer, pendingBatch := Some(calls), pendingCalls := calls, pendingMethod := Some(how),
                  answer := Pending), InteractionRequested(QuestionKind, calls));
    }
  }

  lemma ProceedSettles(cfg: Config, w: World, before: State, s: State, calls: Batch, how: Method, status: Status, decision: Decision)
    requires Owing(s, CallIds(calls)) && Book(s.trace).answers == Book(before.trace).answers
    ensures Settled(before, calls, Proceed(cfg, w, s, calls, how, status, decision))
  {
    if status == Denied {
      RejectedAnswers(before, s, calls, NotAuthorized(Refusals(calls, cfg.tools, cfg.policy)));
    } else if status == RequiresApproval && decision == Reject {
      RejectedAnswers(before, s, calls, RejectedByUser);
    } else if exists c :: c in calls && c.name == ASK_USER {
      AskUserSettles(before, s, calls, how);
    } else if cfg.askGate && !s.askAnswered && exists c :: c in calls && BlockedBeforeAsk(c) {
      RejectedAnswers(before, s, calls, AskFirst(set c | c in calls && BlockedBeforeAsk(c) :: c.name));
    } else {
      DispatchAnswers(cfg, w, before, s, calls);
    }
  }

  lemma SuspendSettles(before: State, s: State, calls: Batch, how: Method)
    requires Owing(s, CallIds(calls)) && Book(s.trace).answers == Book(before.trace).answers && calls != []
    ensures Settled(before, calls, Ended(Suspend(s, calls, how), Suspended))
  {
    BookEmit(s.(frame := AwaitDecision, pendingBatch := Some(calls), pendingStatus := Some(RequiresApproval),
                pendingCalls := calls, pendingMethod := Some(how), decision := Pending),
             InteractionRequested(ApprovalKind, calls));
  }

  lemma OpenFrom(s: State, calls: Batch)
    requires Owing(s, [])
    ensures Owing(EmitCalls(s, calls), CallIds(calls)) && Book(EmitCalls(s, calls).trace).answers == Book(s.trace).answers
  {
    EmitCallsBook(s, calls);
    assert [] + CallIds(calls) == CallIds(calls);
  }

  lemma DecidedOwing(s: State, e: Event)
    requires Owing(s, []) && e.Decided?
    ensures Owing(Emit(s, e), []) && Book(Emit(s, e).trace).answers == Book(s.trace).answers
  {
    BookEmit(s, e);
  }

  /** Emitting the batch's calls makes exactly them owed. */
  lemma OpenBatch(s: State, calls: Batch, restored: Option<Decision>)
    requires Balanced(s) && s.frame == Idle
    ensures
      var s1 := EmitCalls(Opening(s, calls, restored), calls);
      Owing(s1, CallIds(calls)) && Book(s1.trace).answers == Book(s.trace).answers
  {
    if restored.Some? {
      DecidedOwing(s, Decided(calls, restored.value));
    }
    OpenFrom(Opening(s, calls, restored), calls);
  }

  lemma AuthorizedSettles(cfg: Config, w: World, before: State, s: State, calls: Batch, how: Method, status: Status,
                          restored: Option<Decision>)
    requires Owing(s, CallIds(calls)) && Book(s.trace).answers == Book(before.trace).answers
    requires status == RequiresApproval ==> calls != []
    ensures
      var s2 := Emit(s, AuthorizationEmitted(status));
      Settled(before, calls,
              if status == RequiresApproval && restored.None? then Ended(Suspend(s2, calls, how), Suspended)
              else Proceed(cfg, w, s2, calls, how, status, if restored.Some? then restored.value else Reject))
  {
    var s2 := Emit(s, AuthorizationEmitted(status));
    BookEmit(s, AuthorizationEmitted(status));
    if status == RequiresApproval && restored.None? {
      SuspendSettles(before, s2, calls, how);
    } else {
      ProceedSettles(cfg, w, before, s2, calls, how, status, if restored.Some? then restored.value else Reject);
    }
  }

  lemma BeginSettles(cfg: Config, w: World, s: State, calls: Batch, how: Method, restored: Option<Decision>)
    requires Balanced(s) && s.frame == Idle
    ensures Settled(s, calls, Begin(cfg, w, s, calls, how, restored))
  {
    OpenBatch(s, calls, restored);
    var s1 := EmitCalls(Opening(s, calls, restored), calls);
    var blocked := PreflightBlocked(cfg, w, calls);
    if blocked != {} && |blocked| == |calls| {
      var rs := RefuseAll(calls, ForbiddenCommand);
      assert ResultIds(rs) == CallIds(calls);
      StoreAnswers(s, s1, calls, rs);
    } else {
      var status := Decide(calls, cfg.tools, EffectivePolicy(cfg, AllBashSafe(cfg, w, calls), restored));
      AuthorizedSettles(cfg, w, s, s1, calls, how, status, restored);
    }
  }

  /** The batch a step works on. */
  function BatchOf(s: State, input: Input): Batch {
    match input
    case Execute(calls, _) => calls
    case ExecuteRestored(calls, _, _) => calls
    case _ => s.pendingCalls
  }

  lemma FinishAskSettles(s: State, answer: string)
    requires Balanced(s) && s.frame == AwaitAnswer
    ensures Answers(s, s.pendingCalls, FinishAsk(s, answer))
  {
    var call := s.pendingCalls[0];
    var rs := [ToolResult(call.callId, call.name, true, Output(answer))];
    assert ResultIds(rs) == CallIds(s.pendingCalls);
    StoreAnswers(s, s.(askAnswered := true), s.pendingCalls, rs);
  }

  lemma ResumeProceeds(cfg: Config, w: World, s: State)
    requires s.frame == AwaitDecision && s.decision.Done? && s.pendingStatus.Some? && s.pendingMethod.Some?
    ensures Step(cfg, w, s, Resume) ==
            Proceed(cfg, w, s, s.pendingCalls, s.pendingMethod.value, s.pendingStatus.value, s.decision.value)
  {
  }

  lemma DecisionSettles(cfg: Config, w: World, s: State)
    requires Balanced(s) && s.frame == AwaitDecision && s.decision.Done? && s.pendingStatus.Some? && s.pendingMethod.Some?
    ensures Settled(s, s.pendingCalls, Step(cfg, w, s, Resume))
  {
    var calls := s.pendingCalls;
    assert Owing(s, CallIds(calls));
    ResumeProceeds(cfg, w, s);
    ProceedSettles(cfg, w, s, s, calls, s.pendingMethod.value, s.pendingStatus.value, s.decision.value);
  }

  lemma ResumeFinishes(cfg: Config, w: World, s: State)
    requires s.frame == AwaitAnswer && s.answer.Done?
    ensures Step(cfg, w, s, Resume) == FinishAsk(s, s.answer.value)
  {
  }

  lemma AnswerSettles(cfg: Config, w: World, s: State)
    requires Balanced(s) && s.frame == AwaitAnswer && s.answer.Done?
    ensures Settled(s, s.pendingCalls, Step(cfg, w, s, Resume))
  {
    ResumeFinishes(cfg, w, s);
    FinishAskSettles(s, s.answer.value);
    assert Step(cfg, w, s, Resume).out.Returned?;
  }

  lemma ResumeSettles(cfg: Config, w: World, s: State)
    requires Balanced(s)
    ensures
      var e := Step(cfg, w, s, Resume);
      e == Ended(s, NotEnabled) || Settled(s, s.pendingCalls, e)
  {
    if s.frame == AwaitDecision && s.decision.Done? && s.pendingStatus.Some? && s.pendingMethod.Some? {
      DecisionSettles(cfg, w, s);
    } else if s.frame == AwaitAnswer && s.answer.Done? {
      AnswerSettles(cfg, w, s);
    }
  }

  ghost predicate StepSettled(s: State, input: Input, e: Ended) {
    && Balanced(e.s)
    && (e.out.Returned? ==> Answers(s, BatchOf(s, input), e))
    && (!e.out.Returned? ==> Book(e.s.trace).answers == Book(s.trace).answers)
  }

  lemma SettledStep(s: State, input: Input, e: Ended)
    requires Settled(s, BatchOf(s, input), e)
    ensures StepSettled(s, input, e)
  {
  }

  lemma ExecuteSettles(cfg: Config, w: World, s: State, calls: Batch, how: Method, restored: Option<Decision>)
    requires Balanced(s) && s.frame == Idle
    ensures
      var input := if restored.Some? then ExecuteRestored(calls, how, restored.value) else Execute(calls, how);
      StepSettled(s, input, Step(cfg, w, s, input))
  {
    BeginSettles(cfg, w, s, calls, how, restored);
    var input := if restored.Some? then ExecuteRestored(calls, how, restored.value) else Execute(calls, how);
    var e := Begin(cfg, w, s, calls, how, restored);
    assert Step(cfg, w, s, input) == e;
    SettledStep(s, input, e);
  }

  /** A human's approval or answer changes no account. */
  lemma HumanBalanced(s: State, s': State, e: Event)
    requires Balanced(s) && (e.Decided? || e.Answered?) && s'.trace == s.trace + [e]
    requires s'.frame == s.frame && s'.pendingCalls == s.pendingCalls && s'.pendingBatch == s.pendingBatch
    requires s'.results == s.results && s'.rounds == s.rounds
    ensures Balanced(s') && Book(s'.trace).answers == Book(s.trace).answers
  {
  }

  lemma HumanSettles(cfg: Config, w: World, s: State, input: Input)
    requires Balanced(s) && (input.Approve? || input.SubmitAnswer? || input.RestoreAnswer?)
    ensures StepSettled(s, input, Step(cfg, w, s, input))
  {
    var e := Step(cfg, w, s, input);
    assert !e.out.Returned?;
    if e.out.Accepted? {
      HumanBalanced(s, e.s, if input.Approve? then Decided(s.pendingCalls, input.decision) else Answered(input.answer));
    } else {
      assert e.s == s;
    }
  }

  lemma StepSettles(cfg: Config, w: World, s: State, input: Input)
    requires Balanced(s)
    ensures StepSettled(s, input, Step(cfg, w, s, input))
  {
    if input.Approve? || input.SubmitAnswer? || input.RestoreAnswer? {
      HumanSettles(cfg, w, s, input);
    } else if input.Resume? {
      ResumeSettles(cfg, w, s);
      var e := Step(cfg, w, s, Resume);
      if e != Ended(s, NotEnabled) {
        SettledStep(s, input, e);
      }
    } else if s.frame == Idle {
      ExecuteSettles(cfg, w, s, input.calls, input.how, if input.ExecuteRestored? then Some(input.decision) else None);
    }
  }

  /** What the batches that returned during a run reported, in order. */
  function ReturnedIn(cfg: Config, w: World, inputs: seq<Input>): seq<ToolResult> {
    if inputs == [] then []
    else
      var front := inputs[..|inputs| - 1];
      var out := Step(cfg, w, Run(cfg, w, front), inputs[|inputs| - 1]).out;
      ReturnedIn(cfg, w, front) + (if out.Returned? then out.results else [])
  }

  /**
   * Batch conservation over every run: results answer calls one for one in batch order, a suspended batch is owed in
   * full, nothing is owed when idle, and the results emitted are exactly the results returned.
   */
  lemma {:induction false} RunBalanced(cfg: Config, w: World, inputs: seq<Input>)
    ensures Balanced(Run(cfg, w, inputs))
    ensures Book(Run(cfg, w, inputs).trace).answers == ReturnedIn(cfg, w, inputs)
    decreases |inputs|
  {
    if inputs != [] {
      RunBalanced(cfg, w, inputs[..|inputs| - 1]);
      StepSettles(cfg, w, Run(cfg, w, inputs[..|inputs| - 1]), inputs[|inputs| - 1]);
    }
  }

  /** Whenever a batch returns in a run, its results align with its calls and all pending state is cleared. */
  lemma ReturnClearsPending(cfg: Config, w: World, inputs: seq<Input>, input: Input)
    requires Step(cfg, w, Run(cfg, w, inputs), input).out.Returned?
    ensures
      var s := Run(cfg, w, inputs);
      var e := Step(cfg, w, s, input);
      ResultIds(e.out.results) == CallIds(BatchOf(s, input)) && PendingCleared(e.s)
  {
    RunBalanced(cfg, w, inputs);
    StepSettles(cfg, w, Run(cfg, w, inputs), input);
  }

  lemma {:induction false} BookDelegated(t: seq<Event>, i: nat)
    requires Book(t).ok && i < |t| && t[i].Delegated?
    ensures Book(t[..i]).owed == CallIds(t[i].batch) && PartOf(t[i].calls, t[i].batch)
    decreases |t|
  {
    if i < |t| - 1 {
      assert t[..|t| - 1][..i] == t[..i];
      BookDelegated(t[..|t| - 1], i);
    }
  }

  /** Whatever is delegated in a run is part of the one batch whose calls were emitted and have no result yet. */
  lemma DelegatesOwedBatch(cfg: Config, w: World, inputs: seq<Input>, i: nat)
    requires i < |Run(cfg, w, inputs).trace| && Run(cfg, w, inputs).trace[i].Delegated?
    ensures
      var t := Run(cfg, w, inputs).trace;
      Book(t[..i]).owed == CallIds(t[i].batch) && PartOf(t[i].calls, t[i].batch)
  {
    RunBalanced(cfg, w, inputs);
    BookDelegated(Run(cfg, w, inputs).trace, i);
  }

  lemma {:induction false} BookRemembers(t: seq<Event>, i: nat)
    requires Book(t).ok && i < |t| && t[i].ResultEmitted? && t[i].stored
    ensures t[i].result.callId in Book(t).stored && Book(t).stored[t[i].result.callId] == t[i].result
    decreases |t|
  {
    if i < |t| - 1 {
      BookRemembers(t[..|t| - 1], i);
    }
  }

  /** A result once stored for a call id is the one every later stored result of the run reports. */
  lemma StoredOnce(cfg: Config, w: World, inputs: seq<Input>, i: nat, j: nat)
    requires
      var t := Run(cfg, w, inputs).trace;
      && i < |t| && j < |t| && t[i].ResultEmitted? && t[j].ResultEmitted? && t[i].stored && t[j].stored
      && t[i].result.callId == t[j].result.callId
    ensures var t := Run(cfg, w, inputs).trace; t[i].result == t[j].result
  {
    RunBalanced(cfg, w, inputs);
    BookRemembers(Run(cfg, w, inputs).trace, i);
    BookRemembers(Run(cfg, w, inputs).trace, j);
  }
}
