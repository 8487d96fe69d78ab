/**
 * The bridge object. Its fields are where the machine is after the inputs it was given, so every theorem about runs is
 * a promise of the object: what it returned, what it delegated and what it owes.
 */
module BridgeObject {
  import opened Text
  import opened ToolContracts
  import opened Approval
  import opened Bridge
  import opened BridgeLedger
  import BridgeSafety
  import CG = CommandGate

  /** What a caller of the object can rely on after a step on `calls` that ended with `out`. */
  ghost predicate Promises(cfg: Config, w: World, s: State, calls: Batch, out: Outcome) {
    && (out.Returned? ==> ResultIds(out.results) == CallIds(calls) && PendingCleared(s))
    && Balanced(s)
    && (Wired(cfg) ==> BridgeSafety.TraceSafe(cfg, w, s.trace))
  }

  lemma StepPromises(cfg: Config, w: World, inputs: seq<Input>, input: Input)
    ensures
      var s := Run(cfg, w, inputs);
      var e := Step(cfg, w, s, input);
      Run(cfg, w, inputs + [input]) == e.s && Promises(cfg, w, e.s, BatchOf(s, input), e.out)
  {
    assert (inputs + [input])[..|inputs|] == inputs;
    RunBalanced(cfg, w, inputs);
    StepSettles(cfg, w, Run(cfg, w, inputs), input);
    if Wired(cfg) {
      BridgeSafety.RunInv(cfg, w, inputs + [input]);
    }
  }

  class TraeToolGatewayBridge {
    const cfg: Config
    const world: World
    const judge: CachingApprover
    var frame: Frame
    var pendingBatch: Option<Batch>
    var pendingStatus: Option<Status>
    var pendingCalls: Batch
    var pendingMethod: Option<Method>
    var decision: Future<Decision>
    var answer: Future<string>
    var results: map<string, ToolResult>
    var askAnswered: bool
    var rounds: nat
    var trace: seq<Event>
    ghost var inputs: seq<Input>

    ghost predicate Linked()
      reads judge
    {
      judge.Valid() && judge.judge == world.judge
    }

    /** The object is where its inputs lead. */
    ghost predicate Valid()
      reads this, judge
    {
      Linked() && Model() == Run(cfg, world, inputs)
    }

    function Model(): State
      reads this, judge
    {
      State(frame, pendingBatch, pendingStatus, pendingCalls, pendingMethod, decision, answer, results, askAnswered,
            judge.Model(), rounds, trace)
    }

    constructor (cfg: Config, world: World)
      ensures Valid() && inputs == [] && this.cfg == cfg && this.world == world && fresh(judge)
    {
      this.cfg, this.world := cfg, world;
      judge := new CachingApprover(world.judge);
      frame, pendingBatch, pendingStatus, pendingCalls, pendingMethod := Idle, None, None, [], None;
      decision, answer, results, askAnswered, rounds, trace := Absent, Absent, map[], false, 0, [];
      inputs := [];
    }

    method ClearPending()
      modifies this
      ensures Model() == Bridge.ClearPending(old(Model()))
    {
      pendingBatch, pendingStatus, pendingCalls, pendingMethod := None, None, [], None;
      decision, answer := Absent, Absent;
    }

    /** Keep the first result of every call id and report the kept one. */
    method StoreResults(found: seq<ToolResult>) returns (unique: seq<ToolResult>)
      modifies this
      ensures Ended(Model(), Returned(unique)) == Store(old(Model()), found)
    {
      unique := [];
      for i := 0 to |found|
        invariant (Model(), unique) == StoreAll(old(Model()), found[..i])
      {
        assert found[..i + 1][..i] == found[..i];
        var kept := found[i];
        if kept.callId in results {
          kept := results[kept.callId];
        }
        results := results[found[i].callId := kept];
        unique := unique + [kept];
        trace := trace + [ResultEmitted(kept, true)];
      }
      assert found[..|found|] == found;
      ClearPending();
      frame := Idle;
    }

    method Rejected(calls: Batch, why: Refusal) returns (refused: seq<ToolResult>)
      modifies this
      ensures Ended(Model(), Returned(refused)) == Bridge.Rejected(old(Model()), calls, why)
    {
      refused := RefuseAll(calls, why);
      for i := 0 to |refused|
        invariant Model() == EmitResults(old(Model()), refused[..i])
      {
        assert refused[..i + 1][..i] == refused[..i];
        trace := trace + [ResultEmitted(refused[i], false)];
      }
      assert refused[..|refused|] == refused;
      ClearPending();
      frame := Idle;
    }

    /** The blocked bash calls of a batch, and whether it has bash calls and all are whitelist-safe. */
    method Preflight(calls: Batch) returns (blocked: set<string>, allSafe: bool)
      ensures blocked == PreflightBlocked(cfg, world, calls) && allSafe == AllBashSafe(cfg, world, calls)
    {
      blocked := {};
      var bashCalls, safeCalls := 0, 0;
      for i := 0 to |calls|
        invariant blocked == PreflightBlocked(cfg, world, calls[..i])
        invariant 0 <= safeCalls <= bashCalls
        invariant bashCalls > 0 <==> exists c :: c in calls[..i] && PreflightTier(cfg, world, c).Some?
        invariant safeCalls == bashCalls <==>
          forall c :: c in calls[..i] && PreflightTier(cfg, world, c).Some? ==> PreflightTier(cfg, world, c) == Some(CG.Safe)
      {
        var call := calls[i];
        var tier := PreflightTier(cfg, world, call);
        assert calls[..i + 1] == calls[..i] + [call];
        if tier.Some? {
          bashCalls := bashCalls + 1;
          if tier.value == CG.Blocked {
            blocked := blocked + {call.callId};
          } else if tier.value == CG.Safe {
            safeCalls := safeCalls + 1;
          }
        }
      }
      assert calls[..|calls|] == calls;
      allSafe := bashCalls > 0 && safeCalls == bashCalls;
    }

    method Consult(r: Request) returns (v: CommandApproval)
      requires Linked()
      modifies this, judge
      ensures Linked() && (Model(), v) == Bridge.Consult(cfg, world, old(Model()), r)
    {
      match cfg.approver
      case AllowAll => v := CommandApproval(true, "approver disabled", "allow-all");
      case DenyAll => v := CommandApproval(false, "no command approver is configured", "deny-all");
      case CachedJudge =>
        var known := CacheKey(r) in judge.verdicts;
        v := judge.Decide(r);
        if !known {
          trace := trace + [Judged(r, v.allowed)];
        }
    }

    method CheckBash(g: BashGate, call: ToolCall) returns (o: GateOutcome)
      requires Linked()
      modifies this, judge
      ensures Linked() && (Model(), o) == Bridge.CheckBash(cfg, g, world, old(Model()), call)
    {
      if g.mode == NoApproval {
        return GateOutcome(true, None, "mode");
      }
      if IsBlank(ArgText(call, "reason")) {
        return GateOutcome(false, None, "gate");
      }
      var tier := GateVerdict(g, world, call).tier;
      if tier == CG.Safe || tier == CG.Blocked {
        return GateOutcome(tier == CG.Safe, Some(tier), "gate");
      }
      if g.mode != Silent {
        return GateOutcome(true, Some(tier), "human");
      }
      var v := Consult(ApprovalRequest(cfg, g, world, call));
      o := GateOutcome(v.allowed, Some(tier), v.source);
    }

    method CallProblem(call: ToolCall) returns (problem: Option<Refusal>)
      requires Linked()
      modifies this, judge
      ensures Linked() && (Model(), problem) == Bridge.CallProblem(cfg, world, old(Model()), call)
    {
      if cfg.mode == Silent {
        var escape := SandboxProblem(cfg, world, call);
        if escape.Some? {
          trace := trace + [SandboxWarning(call.callId)];
          return Some(OutsideWorkspace(escape.value));
        }
      }
      if call.name != BASH || cfg.gate.None? {
        return None;
      }
      var o := CheckBash(cfg.gate.value, call);
      trace := trace + [GateChecked(call.callId, o.tier, o.allowed, o.source)];
      problem := if o.allowed then None else Some(RefusedByGate(o.source));
    }

    method ScreenCalls(calls: Batch) returns (blocked: map<string, Refusal>)
      requires Linked()
      modifies this, judge
      ensures Linked() && (Model(), blocked) == Screen(cfg, world, old(Model()), calls)
    {
      blocked := map[];
      for i := 0 to |calls|
        invariant Linked() && (Model(), blocked) == Screen(cfg, world, old(Model()), calls[..i])
      {
        assert calls[..i + 1][..i] == calls[..i];
        var problem := CallProblem(calls[i]);
        if problem.Some? {
          blocked := blocked[calls[i].callId := problem.value];
        }
      }
      assert calls[..|calls|] == calls;
    }

    /** Hand the calls to the delegate and collect its answers by call id. */
    method RunDelegate(calls: Batch, batch: Batch) returns (executed: map<string, ToolResult>)
      modifies this
      ensures Model() == Delegate(old(Model()), calls, batch) && executed == RoundAnswers(world, old(rounds), calls)
    {
      executed := map[];
      for i := 0 to |calls|
        invariant Model() == old(Model()) && executed == RoundAnswers(world, rounds, calls[..i])
      {
        assert calls[..i + 1][..i] == calls[..i];
        var a := world.delegate(rounds, i);
        executed := executed[calls[i].callId := ToolResult(calls[i].callId, calls[i].name, a.success, a.content)];
      }
      assert calls[..|calls|] == calls;
      if calls != [] {
        trace := trace + [Delegated(calls, batch)];
        rounds := rounds + 1;
      }
    }

    /** Screen the calls, hand the survivors to the delegate, and put the answers back in batch order. */
    method Dispatch(calls: Batch) returns (out: Outcome)
      requires Linked()
      modifies this, judge
      ensures Linked() && Ended(Model(), out) == Bridge.Dispatch(cfg, world, old(Model()), calls)
    {
      var blocked := ScreenCalls(calls);
      var remaining := Survivors(calls, blocked);
      SurvivorsAnswered(world, rounds, calls, blocked);
      var executed := RunDelegate(remaining, calls);
      var unique := StoreResults(Ordered(calls, blocked, executed));
      out := Returned(unique);
    }

    method AskUser(calls: Batch, how: Method) returns (out: Outcome)
      modifies this
      ensures Ended(Model(), out) == Bridge.AskUser(old(Model()), calls, how)
    {
      if |calls| != 1 {
        trace := trace + [Failed(AskNotAlone)];
        frame := Idle;
        return Raised(AskNotAlone);
      }
      if IsBlank(ArgText(calls[0], "question")) {
        var unique := StoreResults([Refuse(calls[0], QuestionMissing)]);
        return Returned(unique);
      }
      pendingBatch, pendingCalls, pendingMethod, answer := Some(calls), calls, Some(how), Pending;
      trace := trace + [InteractionRequested(QuestionKind, calls)];
      frame := AwaitAnswer;
      out := Suspended;
    }

    method Proceed(calls: Batch, how: Method, status: Status, d: Decision) returns (out: Outcome)
      requires Linked()
      modifies this, judge
      ensures Linked() && Ended(Model(), out) == Bridge.Proceed(cfg, world, old(Model()), calls, how, status, d)
    {
      if status == Denied {
        var refused := Rejected(calls, NotAuthorized(Refusals(calls, cfg.tools, cfg.policy)));
        return Returned(refused);
      }
      if status == RequiresApproval && d == Reject {
        var refused := Rejected(calls, RejectedByUser);
        return Returned(refused);
      }
      if exists c :: c in calls && c.name == ASK_USER {
        out := AskUser(calls, how);
        return;
      }
      if cfg.askGate && !askAnswered && exists c :: c in calls && BlockedBeforeAsk(c) {
        var refused := Rejected(calls, AskFirst(set c | c in calls && BlockedBeforeAsk(c) :: c.name));
        return Returned(refused);
      }
      out := Dispatch(calls);
    }

    method EmitCalls(calls: Batch)
      modifies this
      ensures Model() == Bridge.EmitCalls(old(Model()), calls)
    {
      for i := 0 to |calls|
        invariant Model() == Bridge.EmitCalls(old(Model()), calls[..i])
      {
        assert calls[..i + 1][..i] == calls[..i];
        trace := trace + [CallEmitted(calls[i])];
      }
      assert calls[..|calls|] == calls;
    }

    method AwaitApproval(calls: Batch, how: Method)
      modifies this
      ensures Model() == Suspend(old(Model()), calls, how)
    {
      pendingBatch, pendingStatus, pendingCalls, pendingMethod := Some(calls), Some(RequiresApproval), calls, Some(how);
      decision := Pending;
      trace := trace + [InteractionRequested(ApprovalKind, calls)];
      frame := AwaitDecision;
    }

    method AuthorizeBatch(calls: Batch, how: Method, restored: Option<Decision>, allSafe: bool) returns (out: Outcome)
      requires Linked() && allSafe == AllBashSafe(cfg, world, calls)
      modifies this, judge
      ensures Linked() && Ended(Model(), out) == Bridge.AuthorizeBatch(cfg, world, old(Model()), calls, how, restored)
    {
      var status := Decide(calls, cfg.tools, EffectivePolicy(cfg, allSafe, restored));
      trace := trace + [AuthorizationEmitted(status)];
      if status == RequiresApproval && restored.None? {
        AwaitApproval(calls, how);
        return Suspended;
      }
      out := Proceed(calls, how, status, if restored.Some? then restored.value else Reject);
    }

    method Begin(calls: Batch, how: Method, restored: Option<Decision>) returns (out: Outcome)
      requires Linked()
      modifies this, judge
      ensures Linked() && Ended(Model(), out) == Bridge.Begin(cfg, world, old(Model()), calls, how, restored)
    {
      if restored.Some? {
        trace := trace + [Decided(calls, restored.value)];
      }
      EmitCalls(calls);
      var blocked, allSafe := Preflight(calls);
      if blocked != {} && |blocked| == |calls| {
        var unique := StoreResults(RefuseAll(calls, ForbiddenCommand));
        return Returned(unique);
      }
      out := AuthorizeBatch(calls, how, restored, allSafe);
    }

    /** `_execute` up to its first await, or to its end when it does not wait. */
    method Execute(calls: Batch, how: Method, restored: Option<Decision>) returns (out: Outcome)
      requires Valid()
      modifies this, judge
      ensures
        var input := if restored.Some? then ExecuteRestored(calls, how, restored.value) else Input.Execute(calls, how);
        Valid() && inputs == old(inputs) + [input] && out == Step(cfg, world, old(Model()), input).out
      ensures Promises(cfg, world, Model(), calls, out)
    {
      ghost var input := if restored.Some? then ExecuteRestored(calls, how, restored.value) else Input.Execute(calls, how);
      StepPromises(cfg, world, inputs, input);
      ghost var before := inputs;
      if frame != Idle {
        out := NotEnabled;
      } else {
        out := Begin(calls, how, restored);
      }
      inputs := before + [input];
    }

    /** Record the decision or the answer a suspended batch waits for; the ghost inputs are the caller's to keep. */
    method Complete(d: Future<Decision>, a: Future<string>, e: Event)
      modifies this`decision, this`answer, this`trace
      ensures Model() == Emit(old(Model()).(decision := d, answer := a), e)
    {
      decision, answer, trace := d, a, trace + [e];
    }

    method Approve(d: Decision) returns (out: Outcome)
      requires Valid()
      modifies this
      ensures Valid() && inputs == old(inputs) + [Input.Approve(d)] && (out == Accepted <==> old(decision) == Pending)
      ensures out == Accepted ==> decision == Done(d) && trace == old(trace) + [Decided(old(pendingCalls), d)]
      ensures Promises(cfg, world, Model(), old(pendingCalls), out)
    {
      StepPromises(cfg, world, inputs, Input.Approve(d));
      inputs := inputs + [Input.Approve(d)];
      out := Raised(NotWaitingForApproval);
      if decision == Pending {
        Complete(Done(d), answer, Decided(pendingCalls, d));
        out := Accepted;
      }
    }

    method SubmitAnswer(text: string) returns (out: Outcome)
      requires Valid()
      modifies this
      ensures Valid() && inputs == old(inputs) + [Input.SubmitAnswer(text)] && (out == Accepted <==> old(answer) == Pending)
      ensures out == Accepted ==> answer == Done(text) && trace == old(trace) + [Answered(text)]
      ensures Promises(cfg, world, Model(), old(pendingCalls), out)
    {
      StepPromises(cfg, world, inputs, Input.SubmitAnswer(text));
      inputs := inputs + [Input.SubmitAnswer(text)];
      out := Raised(NotWaitingForAnswer);
      if answer == Pending {
        Complete(decision, Done(text), Answered(text));
        out := Accepted;
      }
    }

    /** The adapter resumed a checkpoint whose question was answered. */
    method RestoreAnswer(text: string) returns (out: Outcome)
      requires Valid()
      modifies this
      ensures Valid() && inputs == old(inputs) + [Input.RestoreAnswer(text)] && (out == Accepted <==> old(frame) == Idle)
      ensures Promises(cfg, world, Model(), old(pendingCalls), out)
    {
      StepPromises(cfg, world, inputs, Input.RestoreAnswer(text));
      inputs := inputs + [Input.RestoreAnswer(text)];
      out := NotEnabled;
      if frame == Idle {
        askAnswered := true;
        Complete(decision, answer, Answered(text));
        out := Accepted;
      }
    }

    /** What the coroutine does when it continues. */
    method Continue() returns (out: Outcome)
      requires Linked()
      modifies this, judge
      ensures Linked() && Ended(Model(), out) == Step(cfg, world, old(Model()), Input.Resume)
    {
      if frame == AwaitDecision && decision.Done? && pendingStatus.Some? && pendingMethod.Some? {
        out := Proceed(pendingCalls, pendingMethod.value, pendingStatus.value, decision.value);
      } else if frame == AwaitAnswer && answer.Done? && pendingCalls != [] {
        askAnswered := true;
        var call := pendingCalls[0];
        var unique := StoreResults([ToolResult(call.callId, call.name, true, Output(answer.value))]);
        out := Returned(unique);
      } else {
        out := NotEnabled;
      }
    }

    /** The coroutine continues after its future completed. */
    method Resume() returns (out: Outcome)
      requires Valid()
      modifies this, judge
      ensures Valid() && inputs == old(inputs) + [Input.Resume] && out == Step(cfg, world, old(Model()), Input.Resume).out
      ensures Promises(cfg, world, Model(), old(pendingCalls), out)
    {
      StepPromises(cfg, world, inputs, Input.Resume);
      ghost var before := inputs;
      out := Continue();
      inputs := before + [Input.Resume];
    }
  }
}
