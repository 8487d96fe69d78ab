/** Safety over whole runs of the bridge: nothing is delegated that the gates did not clear. */
module BridgeSafety {
  import opened Text
  import opened ToolContracts
  import opened Approval
  import opened Bridge
  import BridgeLedger
  import CG = CommandGate
  import Paths

  // ---------------------------------------------------------------- what a safe trace is

  ghost predicate HasAnswer(t: seq<Event>) {
    exists j | 0 <= j < |t| :: t[j].Answered?
  }

  /** The judge allowed a request with this key at some point of `t`. */
  ghost predicate JudgeAllowed(t: seq<Event>, key: Key) {
    exists j | 0 <= j < |t| :: t[j].Judged? && t[j].allowed && CacheKey(t[j].request) == key
  }

  /** No delegation. */
  ghost predicate Quiet(u: seq<Event>) {
    forall k | 0 <= k < |u| :: !u[k].Delegated?
  }

  /** Nothing that decides, spends, answers or abandons a batch. */
  ghost predicate Undisturbed(u: seq<Event>) {
    forall k | 0 <= k < |u| :: !u[k].Decided? && !u[k].Delegated? && !u[k].ResultEmitted? && !u[k].Failed?
  }

  /**
   * A human approved this very batch, once, and since then nothing was decided, delegated, answered or abandoned: the
   * approval is neither for another batch nor spent.
   */
  ghost predicate ApprovedNow(past: seq<Event>, batch: Batch) {
    exists j | 0 <= j < |past| :: past[j] == Decided(batch, ApproveOnce) && Undisturbed(past[j + 1..])
  }

  /** `call` of `batch` was cleared for delegation, given the events before. */
  ghost predicate CallSafe(cfg: Config, w: World, past: seq<Event>, batch: Batch, call: ToolCall) {
    && call in batch && call.name != ASK_USER
    && call.name in cfg.tools && call.name in cfg.policy.allowed
    && (cfg.askGate && BlockedBeforeAsk(call) ==> HasAnswer(past))
    && (call.name != BASH && NeedsApproval(call.name, cfg.tools, cfg.policy) ==> ApprovedNow(past, batch))
    && (cfg.mode == Silent ==> SandboxProblem(cfg, w, call) == None)
    && (call.name == BASH && cfg.mode != NoApproval ==> BashSafe(cfg, w, past, batch, call))
  }

  ghost predicate BashSafe(cfg: Config, w: World, past: seq<Event>, batch: Batch, call: ToolCall) {
    cfg.gate.Some? ==>
      var tier := GateVerdict(cfg.gate.value, w, call).tier;
      && !IsBlank(ArgText(call, "reason"))
      && tier != CG.Blocked
      && (cfg.mode == Default && tier == CG.Risky ==> ApprovedNow(past, batch))
      && (cfg.mode == Silent && tier == CG.Risky ==> ApproverAllowed(cfg, w, past, call))
  }

  /** How a RISKY call of an unattended run got through. */
  ghost predicate ApproverAllowed(cfg: Config, w: World, past: seq<Event>, call: ToolCall)
    requires cfg.gate.Some?
  {
    match cfg.approver
    case AllowAll => true
    case DenyAll => false
    case CachedJudge => JudgeAllowed(past, CacheKey(ApprovalRequest(cfg, cfg.gate.value, w, call)))
  }

  ghost predicate DelegationSafe(cfg: Config, w: World, past: seq<Event>, calls: Batch, batch: Batch) {
    forall c | c in calls :: CallSafe(cfg, w, past, batch, c)
  }

  ghost predicate TraceSafe(cfg: Config, w: World, t: seq<Event>) {
    forall i | 0 <= i < |t| && t[i].Delegated? :: DelegationSafe(cfg, w, t[..i], t[i].calls, t[i].batch)
  }

  // ---------------------------------------------------------------- the run invariant

  ghost predicate CacheJustified(s: State) {
    forall k | k in s.cache.verdicts && s.cache.verdicts[k].allowed :: JudgeAllowed(s.trace, k)
  }

  ghost predicate Inv(cfg: Config, w: World, s: State) {
    && TraceSafe(cfg, w, s.trace)
    && CacheJustified(s)
    && (s.askAnswered || s.answer.Done? ==> HasAnswer(s.trace))
    && (s.answer.Pending? ==> s.frame == AwaitAnswer)
    && (s.frame == AwaitDecision ==> Waiting(cfg, s))
  }

  /** A batch waiting for a human: it was not denied, and a decision that arrived is the last event. */
  ghost predicate Waiting(cfg: Config, s: State) {
    && s.pendingStatus == Some(RequiresApproval) && s.pendingMethod.Some?
    && Refusals(s.pendingCalls, cfg.tools, cfg.policy) == {}
    && (s.decision.Done? ==> |s.trace| > 0 && s.trace[|s.trace| - 1] == Decided(s.pendingCalls, s.decision.value))
  }

  // ---------------------------------------------------------------- extending a trace

  /** `s'` is `s` with more events, none of them a delegation. */
  ghost predicate Extends(s: State, s': State) {
    && s.trace <= s'.trace && Quiet(s'.trace[|s.trace|..])
  }

  lemma ExtendsTransitive(a: State, b: State, c: State)
    requires Extends(a, b) && Extends(b, c)
    ensures Extends(a, c)
  {
  }

  /** `s'` is `s` with more events, and an approval outstanding in `s` still is. */
  ghost predicate Continues(s: State, s': State) {
    && s.trace <= s'.trace && Undisturbed(s'.trace[|s.trace|..])
  }

  lemma ContinuesTransitive(a: State, b: State, c: State)
    requires Continues(a, b) && Continues(b, c)
    ensures Continues(a, c) && Extends(a, c)
  {
    assert c.trace[|a.trace|..] == b.trace[|a.trace|..] + c.trace[|b.trace|..];
  }

  lemma QuietKeepsSafe(cfg: Config, w: World, t: seq<Event>, t': seq<Event>)
    requires TraceSafe(cfg, w, t) && t <= t' && Quiet(t'[|t|..])
    ensures TraceSafe(cfg, w, t')
  {
    forall i | 0 <= i < |t'| && t'[i].Delegated? ensures DelegationSafe(cfg, w, t'[..i], t'[i].calls, t'[i].batch) {
      if i < |t| {
        assert t'[..i] == t[..i] && t'[i] == t[i];
      }
    }
  }

  lemma AppendKeepsSafe(cfg: Config, w: World, t: seq<Event>, e: Event)
    requires TraceSafe(cfg, w, t)
    requires e.Delegated? ==> DelegationSafe(cfg, w, t, e.calls, e.batch)
    ensures TraceSafe(cfg, w, t + [e])
  {
    var t' := t + [e];
    forall i | 0 <= i < |t'| && t'[i].Delegated? ensures DelegationSafe(cfg, w, t'[..i], t'[i].calls, t'[i].batch) {
      if i < |t| {
        assert t'[..i] == t[..i] && t'[i] == t[i];
      } else {
        assert t'[..i] == t;
      }
    }
  }

  lemma ApprovedNowContinues(past: seq<Event>, past': seq<Event>, batch: Batch)
    requires ApprovedNow(past, batch) && past <= past' && Undisturbed(past'[|past|..])
    ensures ApprovedNow(past', batch)
  {
    var j :| 0 <= j < |past| && past[j] == Decided(batch, ApproveOnce) && Undisturbed(past[j + 1..]);
    assert past'[j] == past[j];
    assert past'[j + 1..] == past[j + 1..] + past'[|past|..];
  }

  lemma JudgeAllowedExtends(t: seq<Event>, t': seq<Event>, key: Key)
    requires JudgeAllowed(t, key) && t <= t'
    ensures JudgeAllowed(t', key)
  {
  }

  lemma CacheJustifiedExtends(s: State, s': State)
    requires CacheJustified(s) && s.trace <= s'.trace && s'.cache == s.cache
    ensures CacheJustified(s')
  {
  }

  lemma HasAnswerExtends(t: seq<Event>, t': seq<Event>)
    requires HasAnswer(t) && t <= t'
    ensures HasAnswer(t')
  {
  }

  // ---------------------------------------------------------------- screening

  /** What one check establishes about a call it lets through. */
  ghost predicate Cleared(cfg: Config, w: World, t: seq<Event>, call: ToolCall) {
    && (cfg.mode == Silent ==> SandboxProblem(cfg, w, call) == None)
    && (call.name == BASH && cfg.gate.Some? && cfg.mode != NoApproval ==>
          var tier := GateVerdict(cfg.gate.value, w, call).tier;
          && !IsBlank(ArgText(call, "reason"))
          && tier != CG.Blocked
          && (cfg.mode == Silent && tier == CG.Risky ==> ApproverAllowed(cfg, w, t, call)))
  }

  /** Only the cache and the trace move while a batch is screened. */
  ghost predicate OnlyScreened(s: State, s': State) {
    Continues(s, s') && s' == s.(cache := s'.cache, trace := s'.trace)
  }

  lemma ConsultSound(cfg: Config, w: World, s: State, r: Request)
    requires CacheJustified(s)
    ensures
      var (s', v) := Consult(cfg, w, s, r);
      && OnlyScreened(s, s') && CacheJustified(s')
      && (v.allowed ==> match cfg.approver
            case AllowAll => true
            case DenyAll => false
            case CachedJudge => JudgeAllowed(s'.trace, CacheKey(r)))
  {
    var (s', v) := Consult(cfg, w, s, r);
    if cfg.approver == CachedJudge && CacheKey(r) !in s.cache.verdicts {
      assert s'.trace[|s.trace|] == Judged(r, v.allowed);
      forall k | k in s'.cache.verdicts && s'.cache.verdicts[k].allowed ensures JudgeAllowed(s'.trace, k) {
        if k != CacheKey(r) {
          JudgeAllowedExtends(s.trace, s'.trace, k);
        }
      }
    }
  }

  lemma CheckBashSound(cfg: Config, g: BashGate, w: World, s: State, call: ToolCall)
    requires CacheJustified(s) && cfg.gate == Some(g) && g.mode == cfg.mode
    ensures
      var (s', o) := CheckBash(cfg, g, w, s, call);
      && OnlyScreened(s, s') && CacheJustified(s')
      && (o.allowed && cfg.mode != NoApproval ==>
            var tier := GateVerdict(g, w, call).tier;
            && !IsBlank(ArgText(call, "reason")) && tier != CG.Blocked
            && (cfg.mode == Silent && tier == CG.Risky ==> ApproverAllowed(cfg, w, s'.trace, call)))
  {
    ConsultSound(cfg, w, s, ApprovalRequest(cfg, g, w, call));
  }

  lemma CallProblemSound(cfg: Config, w: World, s: State, call: ToolCall)
    requires CacheJustified(s) && (cfg.gate.Some? ==> cfg.gate.value.mode == cfg.mode)
    ensures
      var (s', problem) := CallProblem(cfg, w, s, call);
      OnlyScreened(s, s') && CacheJustified(s') && (problem.None? ==> Cleared(cfg, w, s'.trace, call))
  {
    var (s', problem) := CallProblem(cfg, w, s, call);
    if cfg.mode == Silent && SandboxProblem(cfg, w, call).Some? {
      CacheJustifiedExtends(s, s');
    } else if call.name == BASH && cfg.gate.Some? {
      var g := cfg.gate.value;
      var (s1, o) := CheckBash(cfg, g, w, s, call);
      CheckBashSound(cfg, g, w, s, call);
      assert Continues(s1, s');
      ContinuesTransitive(s, s1, s');
      CacheJustifiedExtends(s1, s');
      if problem.None? {
        assert Cleared(cfg, w, s1.trace, call);
        ClearedExtends(cfg, w, s1.trace, s'.trace, call);
      }
    }
  }

  lemma ClearedExtends(cfg: Config, w: World, t: seq<Event>, t': seq<Event>, call: ToolCall)
    requires Cleared(cfg, w, t, call) && t <= t'
    ensures Cleared(cfg, w, t', call)
  {
    if cfg.gate.Some? && cfg.approver == CachedJudge {
      var key := CacheKey(ApprovalRequest(cfg, cfg.gate.value, w, call));
      if JudgeAllowed(t, key) {
        JudgeAllowedExtends(t, t', key);
      }
    }
  }

  lemma {:induction false} ScreenSound(cfg: Config, w: World, s: State, calls: Batch)
    requires CacheJustified(s) && (cfg.gate.Some? ==> cfg.gate.value.mode == cfg.mode)
    ensures
      var (s', blocked) := Screen(cfg, w, s, calls);
      && OnlyScreened(s, s') && CacheJustified(s')
      && forall c | c in calls && c.callId !in blocked :: Cleared(cfg, w, s'.trace, c)
    decreases |calls|
  {
    if calls != [] {
      var front, call := calls[..|calls| - 1], calls[|calls| - 1];
      ScreenSound(cfg, w, s, front);
      var (s1, blocked1) := Screen(cfg, w, s, front);
      CallProblemSound(cfg, w, s1, call);
      var (s2, problem) := CallProblem(cfg, w, s1, call);
      ContinuesTransitive(s, s1, s2);
      var (s', blocked) := Screen(cfg, w, s, calls);
      forall c | c in calls && c.callId !in blocked ensures Cleared(cfg, w, s'.trace, c) {
        if c in front && c.callId !in blocked1 {
          ClearedExtends(cfg, w, s1.trace, s2.trace, c);
        } else {
          assert calls == front + [call];
        }
      }
    }
  }

  // ---------------------------------------------------------------- results never delegate

  lemma {:induction false} StoreAllQuiet(s: State, rs: seq<ToolResult>)
    ensures var s' := StoreAll(s, rs).0; Extends(s, s') && s' == s.(results := s'.results, trace := s'.trace)
    decreases |rs|
  {
    if rs != [] {
      StoreAllQuiet(s, rs[..|rs| - 1]);
      var s1 := StoreAll(s, rs[..|rs| - 1]).0;
      var s2 := StoreOne(s1, rs[|rs| - 1]).0;
      assert Extends(s1, s2);
      ExtendsTransitive(s, s1, s2);
    }
  }

  lemma {:induction false} EmitResultsQuiet(s: State, rs: seq<ToolResult>)
    ensures var s' := EmitResults(s, rs); Extends(s, s') && s' == s.(trace := s'.trace)
    decreases |rs|
  {
    if rs != [] {
      EmitResultsQuiet(s, rs[..|rs| - 1]);
      var s1 := EmitResults(s, rs[..|rs| - 1]);
      assert Extends(s1, EmitResults(s, rs));
      ExtendsTransitive(s, s1, EmitResults(s, rs));
    }
  }

  lemma {:induction false} EmitCallsQuiet(s: State, calls: Batch)
    ensures var s' := EmitCalls(s, calls); Continues(s, s') && Extends(s, s') && s' == s.(trace := s'.trace)
    decreases |calls|
  {
    if calls != [] {
      EmitCallsQuiet(s, calls[..|calls| - 1]);
      var s1 := EmitCalls(s, calls[..|calls| - 1]);
      assert Continues(s1, EmitCalls(s, calls));
      ContinuesTransitive(s, s1, EmitCalls(s, calls));
    }
  }

  /** The part of the invariant that quiet steps keep without knowing anything else. */
  ghost predicate Base(cfg: Config, w: World, s: State) {
    TraceSafe(cfg, w, s.trace) && CacheJustified(s) && (s.askAnswered ==> HasAnswer(s.trace))
  }

  lemma BaseExtends(cfg: Config, w: World, s: State, s': State)
    requires Base(cfg, w, s) && Extends(s, s') && s'.cache == s.cache && s'.askAnswered == s.askAnswered
    ensures Base(cfg, w, s')
  {
    QuietKeepsSafe(cfg, w, s.trace, s'.trace);
    CacheJustifiedExtends(s, s');
    if s.askAnswered {
      HasAnswerExtends(s.trace, s'.trace);
    }
  }

  lemma StoreInv(cfg: Config, w: World, s: State, rs: seq<ToolResult>)
    requires Base(cfg, w, s)
    ensures Inv(cfg, w, Store(s, rs).s)
  {
    StoreAllQuiet(s, rs);
    BaseExtends(cfg, w, s, Store(s, rs).s);
  }

  lemma RejectedInv(cfg: Config, w: World, s: State, calls: Batch, why: Refusal)
    requires Base(cfg, w, s)
    ensures Inv(cfg, w, Rejected(s, calls, why).s)
  {
    EmitResultsQuiet(s, RefuseAll(calls, why));
    BaseExtends(cfg, w, s, Rejected(s, calls, why).s);
  }

  // ---------------------------------------------------------------- the bridging lemma

  /**
   * Preflight classifies without the declared prefixes and the gate with them. If every bash call of the
   * batch looked SAFE to preflight then the gate finds none of them RISKY, so dropping `bash` from the
   * approval set of this batch skips no human decision the gate would have relied on.
   */
  lemma PreflightSafeMeansGateSafe(cfg: Config, w: World, calls: Batch, call: ToolCall)
    requires AllBashSafe(cfg, w, calls) && call in calls && call.name == BASH && cfg.gate.Some?
    ensures GateVerdict(cfg.gate.value, w, call).tier == CG.Safe && !IsBlank(ArgText(call, "reason"))
  {
    var g := cfg.gate.value;
    assert PreflightTier(cfg, w, call).Some?;
    CG.DeclaredOnlyRelaxesRisky(ArgText(call, "command"), g.allowedPrefixes, g.cwd, g.policy, g.declared, w.host);
  }

  /** Why a batch may be dispatched: a human approved it, or no call of it needs one. */
  ghost predicate MayDispatch(cfg: Config, w: World, s: State, calls: Batch) {
    && Refusals(calls, cfg.tools, cfg.policy) == {}
    && (|| ApprovedNow(s.trace, calls)
        || forall c | c in calls ::
             if c.name == BASH && cfg.mode == Default && cfg.gate.Some?
             then GateVerdict(cfg.gate.value, w, c).tier == CG.Safe
             else c.name == BASH || !NeedsApproval(c.name, cfg.tools, cfg.policy))
  }

  lemma {:induction false} DispatchInv(cfg: Config, w: World, s: State, calls: Batch)
    requires Wired(cfg) && Base(cfg, w, s) && MayDispatch(cfg, w, s, calls)
    requires forall c | c in calls :: c.name != ASK_USER
    requires cfg.askGate && !s.askAnswered ==> forall c | c in calls :: !BlockedBeforeAsk(c)
    ensures Inv(cfg, w, Dispatch(cfg, w, s, calls).s)
  {
    ScreenSound(cfg, w, s, calls);
    var (s1, blocked) := Screen(cfg, w, s, calls);
    var remaining := Survivors(calls, blocked);
    SurvivorsExact(calls, blocked);
    QuietKeepsSafe(cfg, w, s.trace, s1.trace);
    if s.askAnswered {
      HasAnswerExtends(s.trace, s1.trace);
    }
    if ApprovedNow(s.trace, calls) {
      ApprovedNowContinues(s.trace, s1.trace, calls);
    }
    forall c | c in remaining ensures CallSafe(cfg, w, s1.trace, calls, c) {
      assert c.name !in Refusals(calls, cfg.tools, cfg.policy);
      assert Cleared(cfg, w, s1.trace, c);
    }
    var s2 := Delegate(s1, remaining, calls);
    if remaining != [] {
      AppendKeepsSafe(cfg, w, s1.trace, Delegated(remaining, calls));
    }
    CacheJustifiedExtends(s1, s2);
    if s.askAnswered {
      HasAnswerExtends(s1.trace, s2.trace);
    }
    SurvivorsAnswered(w, s1.rounds, calls, blocked);
    StoreInv(cfg, w, s2, Ordered(calls, blocked, RoundAnswers(w, s1.rounds, remaining)));
  }

  lemma AskUserInv(cfg: Config, w: World, s: State, calls: Batch, how: Method)
    requires Base(cfg, w, s) && (s.answer.Done? ==> HasAnswer(s.trace)) && !s.answer.Pending?
    ensures Inv(cfg, w, AskUser(s, calls, how).s)
  {
    if |calls| == 1 && IsBlank(ArgText(calls[0], "question")) {
      StoreInv(cfg, w, s, [Refuse(calls[0], QuestionMissing)]);
    } else {
      var s' := AskUser(s, calls, how).s;
      assert Extends(s, s');
      BaseExtends(cfg, w, s, s');
      if s'.answer.Done? {
        HasAnswerExtends(s.trace, s'.trace);
      }
    }
  }

  lemma ProceedInv(cfg: Config, w: World, s: State, calls: Batch, how: Method, status: Status, decision: Decision)
    requires Wired(cfg) && Base(cfg, w, s) && (s.answer.Done? ==> HasAnswer(s.trace)) && !s.answer.Pending?
    requires status != Denied && (status == RequiresApproval ==> decision == ApproveOnce) ==> MayDispatch(cfg, w, s, calls)
    ensures Inv(cfg, w, Proceed(cfg, w, s, calls, how, status, decision).s)
  {
    if status == Denied {
      RejectedInv(cfg, w, s, calls, NotAuthorized(Refusals(calls, cfg.tools, cfg.policy)));
    } else if status == RequiresApproval && decision == Reject {
      RejectedInv(cfg, w, s, calls, RejectedByUser);
    } else if exists c :: c in calls && c.name == ASK_USER {
      AskUserInv(cfg, w, s, calls, how);
    } else if cfg.askGate && !s.askAnswered && exists c :: c in calls && BlockedBeforeAsk(c) {
      RejectedInv(cfg, w, s, calls, AskFirst(set c | c in calls && BlockedBeforeAsk(c) :: c.name));
    } else {
      DispatchInv(cfg, w, s, calls);
    }
  }

  lemma DecisionLastApproves(t: seq<Event>, calls: Batch)
    requires |t| > 0 && t[|t| - 1] == Decided(calls, ApproveOnce)
    ensures ApprovedNow(t, calls)
  {
  }

  /** What authorization established, with the policy of this batch. */
  lemma AuthorizedMayDispatch(cfg: Config, w: World, s: State, calls: Batch, restored: Option<Decision>)
    requires Wired(cfg)
    requires restored == Some(ApproveOnce) ==> ApprovedNow(s.trace, calls)
    ensures
      var status := Decide(calls, cfg.tools, EffectivePolicy(cfg, AllBashSafe(cfg, w, calls), restored));
      && (status != Denied ==> Refusals(calls, cfg.tools, cfg.policy) == {})
      && (status == Approved || (status == RequiresApproval && restored == Some(ApproveOnce)) ==> MayDispatch(cfg, w, s, calls))
  {
    var safe := AllBashSafe(cfg, w, calls);
    var policy := EffectivePolicy(cfg, safe, restored);
    assert policy.allowed == cfg.policy.allowed;
    assert Refusals(calls, cfg.tools, policy) == Refusals(calls, cfg.tools, cfg.policy);
    if Decide(calls, cfg.tools, policy) == Approved {
      forall c | c in calls ensures
        if c.name == BASH && cfg.mode == Default
        then GateVerdict(cfg.gate.value, w, c).tier == CG.Safe
        else c.name == BASH || !NeedsApproval(c.name, cfg.tools, cfg.policy)
      {
        assert !NeedsApproval(c.name, cfg.tools, policy);
        if c.name == BASH && cfg.mode == Default {
          PreflightSafeMeansGateSafe(cfg, w, calls, c);
        }
      }
    }
  }

  /** `Base` together with what the invariant says of a recorded answer outside a question. */
  ghost predicate Ready(cfg: Config, w: World, s: State) {
    Base(cfg, w, s) && (s.answer.Done? ==> HasAnswer(s.trace)) && !s.answer.Pending?
  }

  lemma ReadyExtends(cfg: Config, w: World, s: State, s': State)
    requires Ready(cfg, w, s) && Extends(s, s')
    requires s'.cache == s.cache && s'.askAnswered == s.askAnswered && s'.answer == s.answer
    ensures Ready(cfg, w, s')
  {
    BaseExtends(cfg, w, s, s');
    if s.answer.Done? {
      HasAnswerExtends(s.trace, s'.trace);
    }
  }

  lemma DecidedReady(cfg: Config, w: World, s: State, e: Event)
    requires Ready(cfg, w, s) && e.Decided?
    ensures Ready(cfg, w, Emit(s, e))
  {
    var s' := Emit(s, e);
    AppendKeepsSafe(cfg, w, s.trace, e);
    CacheJustifiedExtends(s, s');
    if s.askAnswered || s.answer.Done? {
      HasAnswerExtends(s.trace, s'.trace);
    }
  }

  /** The state authorization starts from. */
  lemma OpenReady(cfg: Config, w: World, s: State, calls: Batch, restored: Option<Decision>, e: Event)
    requires Ready(cfg, w, s) && e.AuthorizationEmitted?
    ensures
      var s0 := Opening(s, calls, restored);
      var s1 := EmitCalls(s0, calls);
      && Ready(cfg, w, s1) && Ready(cfg, w, Emit(s1, e))
      && (restored == Some(ApproveOnce) ==> ApprovedNow(Emit(s1, e).trace, calls))
  {
    var s0 := Opening(s, calls, restored);
    if restored.Some? {
      DecidedReady(cfg, w, s, Decided(calls, restored.value));
    }
    var s1 := EmitCalls(s0, calls);
    EmitCallsQuiet(s0, calls);
    ReadyExtends(cfg, w, s0, s1);
    var s2 := Emit(s1, e);
    assert Extends(s1, s2);
    ReadyExtends(cfg, w, s1, s2);
    if restored == Some(ApproveOnce) {
      DecisionLastApproves(s0.trace, calls);
      assert Continues(s1, s2);
      ContinuesTransitive(s0, s1, s2);
      ApprovedNowContinues(s0.trace, s2.trace, calls);
    }
  }

  lemma SuspendInv(cfg: Config, w: World, s: State, calls: Batch, how: Method)
    requires Ready(cfg, w, s) && Refusals(calls, cfg.tools, cfg.policy) == {}
    ensures Inv(cfg, w, Suspend(s, calls, how))
  {
    var s' := Suspend(s, calls, how);
    assert Extends(s, s');
    ReadyExtends(cfg, w, s, s');
  }

  lemma BeginInv(cfg: Config, w: World, s: State, calls: Batch, how: Method, restored: Option<Decision>)
    requires Wired(cfg) && Inv(cfg, w, s) && s.frame == Idle
    ensures Inv(cfg, w, Begin(cfg, w, s, calls, how, restored).s)
  {
    var s1 := EmitCalls(Opening(s, calls, restored), calls);
    var blocked := PreflightBlocked(cfg, w, calls);
    var status := Decide(calls, cfg.tools, EffectivePolicy(cfg, AllBashSafe(cfg, w, calls), restored));
    OpenReady(cfg, w, s, calls, restored, AuthorizationEmitted(status));
    if blocked != {} && |blocked| == |calls| {
      StoreInv(cfg, w, s1, RefuseAll(calls, ForbiddenCommand));
    } else {
      var s2 := Emit(s1, AuthorizationEmitted(status));
      AuthorizedMayDispatch(cfg, w, s2, calls, restored);
      if status == RequiresApproval && restored.None? {
        SuspendInv(cfg, w, s2, calls, how);
      } else {
        ProceedInv(cfg, w, s2, calls, how, status, if restored.Some? then restored.value else Reject);
      }
    }
  }

  lemma ResumeInv(cfg: Config, w: World, s: State)
    requires Wired(cfg) && Inv(cfg, w, s)
    ensures Inv(cfg, w, Step(cfg, w, s, Resume).s)
  {
    if s.frame == AwaitDecision && s.decision.Done? && s.pendingStatus.Some? && s.pendingMethod.Some? {
      if s.decision.value == ApproveOnce {
        DecisionLastApproves(s.trace, s.pendingCalls);
      }
      ProceedInv(cfg, w, s, s.pendingCalls, s.pendingMethod.value, s.pendingStatus.value, s.decision.value);
    } else if s.frame == AwaitAnswer && s.answer.Done? && s.pendingCalls != [] {
      var call := s.pendingCalls[0];
      StoreInv(cfg, w, s.(askAnswered := true), [ToolResult(call.callId, call.name, true, Output(s.answer.value))]);
    }
  }

  lemma StepInv(cfg: Config, w: World, s: State, input: Input)
    requires Wired(cfg) && Inv(cfg, w, s)
    ensures Inv(cfg, w, Step(cfg, w, s, input).s)
  {
    var s' := Step(cfg, w, s, input).s;
    match input
    case Execute(calls, how) =>
      if s.frame == Idle {
        BeginInv(cfg, w, s, calls, how, None);
      }
    case ExecuteRestored(calls, how, decision) =>
      if s.frame == Idle {
        BeginInv(cfg, w, s, calls, how, Some(decision));
      }
    case Approve(decision) =>
      if s.decision == Pending {
        AppendKeepsSafe(cfg, w, s.trace, Decided(s.pendingCalls, decision));
        CacheJustifiedExtends(s, s');
        if s.askAnswered || s.answer.Done? {
          HasAnswerExtends(s.trace, s'.trace);
        }
      }
    case SubmitAnswer(answer) =>
      if s.answer == Pending {
        AnswerInv(cfg, w, s, s', answer);
      }
    case RestoreAnswer(answer) =>
      if s.frame == Idle {
        AnswerInv(cfg, w, s, s', answer);
      }
    case Resume =>
      ResumeInv(cfg, w, s);
  }

  lemma AnswerInv(cfg: Config, w: World, s: State, s': State, answer: string)
    requires Inv(cfg, w, s) && s.frame != AwaitDecision && s'.frame == s.frame && (s'.answer.Pending? ==> s'.answer == s.answer)
    requires s'.trace == s.trace + [Answered(answer)] && s'.cache == s.cache
    ensures Inv(cfg, w, s')
  {
    AppendKeepsSafe(cfg, w, s.trace, Answered(answer));
    CacheJustifiedExtends(s, s');
    assert s'.trace[|s.trace|].Answered?;
  }

  lemma {:induction false} RunInv(cfg: Config, w: World, inputs: seq<Input>)
    requires Wired(cfg)
    ensures Inv(cfg, w, Run(cfg, w, inputs))
    decreases |inputs|
  {
    if inputs != [] {
      RunInv(cfg, w, inputs[..|inputs| - 1]);
      StepInv(cfg, w, Run(cfg, w, inputs[..|inputs| - 1]), inputs[|inputs| - 1]);
    }
  }

  // ---------------------------------------------------------------- the theorems

  lemma {:induction false} FirstEscapeNone(w: World, root: string, call: ToolCall, keys: seq<string>)
    ensures FirstEscape(w, root, call, keys) == None <==>
            forall i | 0 <= i < |keys| :: PathArg(call, keys[i]).Some? ==> PathInside(w, root, PathArg(call, keys[i]).value)
  {
    if keys != [] {
      FirstEscapeNone(w, root, call, keys[1..]);
      assert forall i | 0 <= i < |keys| :: keys[i] == if i == 0 then keys[0] else keys[1..][i - 1];
    }
  }

  /** Where a delegated call stands in a run. */
  ghost predicate DelegatedAt(t: seq<Event>, i: nat, call: ToolCall) {
    i < |t| && t[i].Delegated? && call in t[i].calls
  }

  /** Descriptor `i` is the one the raw policy configures for a name: the last with that name. */
  predicate ConfiguredAt(tools: seq<Descriptor>, i: int, name: string) {
    0 <= i < |tools| && tools[i].name == name && forall j | i < j < |tools| :: tools[j].name != name
  }

  lemma {:induction false} ConfiguredToolIs(tools: seq<Descriptor>, name: string)
    ensures ConfiguredTool(tools, name).None? <==> forall i | 0 <= i < |tools| :: tools[i].name != name
    ensures forall i | ConfiguredAt(tools, i, name) :: ConfiguredTool(tools, name) == Some(tools[i])
    ensures ConfiguredTool(tools, name).Some? ==> exists i :: ConfiguredAt(tools, i, name)
    decreases |tools|
  {
    if tools != [] {
      var k := |tools| - 1;
      ConfiguredToolIs(tools[..k], name);
      if tools[k].name == name {
        assert ConfiguredAt(tools, k, name);
      } else {
        assert forall i | 0 <= i < k :: ConfiguredAt(tools, i, name) <==> ConfiguredAt(tools[..k], i, name);
      }
    }
  }

  /** What the raw policy of a default-mode run, and the tool names alone, say about a tool other than bash. */
  ghost predicate RawNeedsApproval(raw: RawPolicy, names: seq<string>, name: string) {
    || (exists i :: ConfiguredAt(raw.tools, i, name) && raw.tools[i].requiresApproval)
    || ((forall i | 0 <= i < |raw.tools| :: raw.tools[i].name != name) && (name in SIDE_EFFECT_TOOLS || StartsWith(name, "mcp.")))
    || (raw.approvalRequired.Some? && name in raw.approvalRequired.value)
    || (raw.approvalRequired.None? && name in SIDE_EFFECT_TOOLS && name in (if raw.allowed.Some? then raw.allowed.value else names))
  }

  /**
   * Which tools of an initialised bridge need approval. Default mode: bash always does; another tool does exactly when
   * its last configured descriptor says so, or it has none and is a side-effect or MCP tool, or it is listed, or there is
   * no list and it is an allowed side-effect tool. Other modes: exactly the tools whose last configured descriptor says so.
   */
  lemma NeedsApprovalIff(raw: RawPolicy, names: seq<string>, prefixes: seq<string>, cwd: string, commands: CG.Policy,
                         declared: seq<string>, root: Option<string>, approver: Approver, runId: string,
                         conversationId: string, name: string)
    requires name in names
    ensures
      var cfg := Initialize(raw, names, prefixes, cwd, commands, declared, root, approver, runId, conversationId);
      NeedsApproval(name, cfg.tools, cfg.policy) <==>
        if raw.mode == Default then name == BASH || RawNeedsApproval(raw, names, name)
        else exists i :: ConfiguredAt(raw.tools, i, name) && raw.tools[i].requiresApproval
  {
    ConfiguredToolIs(raw.tools, name);
  }

  /** Which tools an initialised bridge describes and allows, in terms of the raw policy. */
  lemma AllowedIff(raw: RawPolicy, names: seq<string>, prefixes: seq<string>, cwd: string, commands: CG.Policy,
                   declared: seq<string>, root: Option<string>, approver: Approver, runId: string,
                   conversationId: string, name: string)
    ensures
      var cfg := Initialize(raw, names, prefixes, cwd, commands, declared, root, approver, runId, conversationId);
      && (name in cfg.tools <==> name in names)
      && (name in cfg.tools && name in cfg.policy.allowed <==>
            name in names &&
            (raw.mode == NoApproval || StartsWith(name, "mcp.") ||
             (if raw.allowed.Some? then name in raw.allowed.value else raw.mode == Default)))
  {
  }

  /**
   * Default mode, every run: a delegated bash call has a reason and is not BLOCKED. If the gate deems it RISKY, or if
   * another tool needs approval, then a human approved the very batch it belongs to and nothing was decided, delegated
   * or answered since. That batch is the one whose calls were emitted and have no result yet.
   */
  lemma DefaultModeApproved(raw: RawPolicy, names: seq<string>, prefixes: seq<string>, cwd: string, commands: CG.Policy,
                            declared: seq<string>, root: Option<string>, approver: Approver, runId: string,
                            conversationId: string, w: World, inputs: seq<Input>, i: nat, call: ToolCall)
    requires raw.mode == Default
    requires
      var cfg := Initialize(raw, names, prefixes, cwd, commands, declared, root, approver, runId, conversationId);
      DelegatedAt(Run(cfg, w, inputs).trace, i, call)
    ensures
      var cfg := Initialize(raw, names, prefixes, cwd, commands, declared, root, approver, runId, conversationId);
      var t := Run(cfg, w, inputs).trace;
      && call in t[i].batch && BridgeLedger.Book(t[..i]).owed == CallIds(t[i].batch)
      && (call.name == BASH ==>
            var tier := CG.Classify(ArgText(call, "command"), prefixes, cwd, commands, declared, w.host).tier;
            && !IsBlank(ArgText(call, "reason")) && tier != CG.Blocked
            && (tier == CG.Risky ==> ApprovedNow(t[..i], t[i].batch)))
      && (call.name != BASH && RawNeedsApproval(raw, names, call.name) ==> ApprovedNow(t[..i], t[i].batch))
  {
    var cfg := Initialize(raw, names, prefixes, cwd, commands, declared, root, approver, runId, conversationId);
    InitializeWires(raw, names, prefixes, cwd, commands, declared, root, approver, runId, conversationId);
    BridgeLedger.DelegatesOwedBatch(cfg, w, inputs, i);
    RunInv(cfg, w, inputs);
    assert CallSafe(cfg, w, Run(cfg, w, inputs).trace[..i], Run(cfg, w, inputs).trace[i].batch, call);
    NeedsApprovalIff(raw, names, prefixes, cwd, commands, declared, root, approver, runId, conversationId, call.name);
  }

  /** The arguments of a file tool that name paths. */
  predicate IsPathKey(name: string, key: string) {
    if name == "document_convert_tool" then key == "input_path" || key == "output_path" else key == "path"
  }

  const SILENT_MODE_TOOLS: set<string> := FILE_TOOLS + { BASH, TASK_DONE }

  /** The control plane's policy for a conversation, from its session's policy. */
  function ConversationPolicy(session: RawPolicy, mode: Mode, silentTools: seq<string>, generatesSkill: bool): RawPolicy {
    match mode
    case Default => session.(mode := Default)
    case NoApproval => session.(mode := NoApproval, approvalRequired := Some([]))
    case Silent =>
      session.(mode := Silent, approvalRequired := Some([]),
               allowed := Some(silentTools + if generatesSkill then [ASK_USER] else []))
  }

  /**
   * Silent mode, the control plane's policy composed with the bridge, every run: a delegated call names a tool of the
   * silent whitelist or an MCP tool; every path argument of a file tool resolves inside the workspace; a delegated
   * bash call is not BLOCKED, and with the cached judge a RISKY one runs only if the judge allowed a request with
   * the same command, reason, mode, directory and prefixes earlier in this run.
   */
  lemma SilentModeConfined(session: RawPolicy, silentTools: seq<string>, generatesSkill: bool, names: seq<string>,
                           prefixes: seq<string>, cwd: string, commands: CG.Policy, declared: seq<string>, root: string,
                           approver: Approver, runId: string, conversationId: string, w: World, inputs: seq<Input>,
                           i: nat, call: ToolCall)
    requires ToSet(silentTools) == SILENT_MODE_TOOLS
    requires
      var raw := ConversationPolicy(session, Silent, silentTools, generatesSkill);
      var cfg := Initialize(raw, names, prefixes, cwd, commands, declared, Some(root), approver, runId, conversationId);
      DelegatedAt(Run(cfg, w, inputs).trace, i, call)
    ensures
      var raw := ConversationPolicy(session, Silent, silentTools, generatesSkill);
      var cfg := Initialize(raw, names, prefixes, cwd, commands, declared, Some(root), approver, runId, conversationId);
      var t := Run(cfg, w, inputs).trace;
      && call.name in names && (call.name in SILENT_MODE_TOOLS || IsMcp(call.name))
      && (call.name in FILE_TOOLS ==> forall key | key in call.arguments && IsPathKey(call.name, key) ::
            var at, v := Paths.Resolve(w.host.workingDir, root), call.arguments[key];
            v.Str? && !IsBlank(v.text) ==> Paths.Within(Paths.Resolve(at, v.text), at))
      && (call.name == BASH ==>
            var v := CG.Classify(ArgText(call, "command"), prefixes, cwd, commands, declared, w.host);
            && !IsBlank(ArgText(call, "reason")) && v.tier != CG.Blocked
            && (v.tier == CG.Risky ==> approver != DenyAll)
            && (v.tier == CG.Risky && approver == CachedJudge ==>
                  JudgeAllowed(t[..i], Key(ArgText(call, "command"), ArgText(call, "reason"), Silent, cwd, prefixes))))
  {
    var raw := ConversationPolicy(session, Silent, silentTools, generatesSkill);
    var cfg := Initialize(raw, names, prefixes, cwd, commands, declared, Some(root), approver, runId, conversationId);
    InitializeWires(raw, names, prefixes, cwd, commands, declared, Some(root), approver, runId, conversationId);
    RunInv(cfg, w, inputs);
    var t := Run(cfg, w, inputs).trace;
    assert CallSafe(cfg, w, t[..i], t[i].batch, call);
    assert call.name in cfg.policy.allowed;
    if !IsMcp(call.name) {
      assert call.name in raw.allowed.value;
      assert call.name in ToSet(silentTools);
    }
    if call.name in FILE_TOOLS {
      var keys := PathKeys(call.name);
      FirstEscapeNone(w, root, call, keys);
      forall key | key in call.arguments && IsPathKey(call.name, key) && PathArg(call, key).Some?
        ensures PathInside(w, root, PathArg(call, key).value)
      {
        assert key == keys[0] || (|keys| == 2 && key == keys[1]);
      }
    }
  }

  /**
   * Any mode, every run: ask_user itself is never delegated, and while the policy contains ask_user no task_done
   * and no non-read call to a listed write tool is delegated before an answer was recorded.
   */
  lemma AskGateHolds(raw: RawPolicy, names: seq<string>, prefixes: seq<string>, cwd: string, commands: CG.Policy,
                     declared: seq<string>, root: Option<string>, approver: Approver, runId: string,
                     conversationId: string, w: World, inputs: seq<Input>, i: nat, call: ToolCall)
    requires
      var cfg := Initialize(raw, names, prefixes, cwd, commands, declared, root, approver, runId, conversationId);
      DelegatedAt(Run(cfg, w, inputs).trace, i, call)
    ensures
      var cfg := Initialize(raw, names, prefixes, cwd, commands, declared, root, approver, runId, conversationId);
      && call.name != ASK_USER && call.name in names
      && (&& ASK_USER in cfg.policy.allowed
          && (call.name == TASK_DONE || (call.name in SIDE_EFFECT_TOOLS && ArgText(call, "command") !in PRE_ASK_READ_COMMANDS))
          ==> HasAnswer(Run(cfg, w, inputs).trace[..i]))
  {
    var cfg := Initialize(raw, names, prefixes, cwd, commands, declared, root, approver, runId, conversationId);
    InitializeWires(raw, names, prefixes, cwd, commands, declared, root, approver, runId, conversationId);
    RunInv(cfg, w, inputs);
    assert CallSafe(cfg, w, Run(cfg, w, inputs).trace[..i], Run(cfg, w, inputs).trace[i].batch, call);
  }

  // ---------------------------------------------------------------- questions and batches

  /** A suspended bridge has published the batch it holds. */
  ghost predicate Asked(s: State) {
    s.frame != Idle ==>
      InteractionRequested(if s.frame == AwaitDecision then ApprovalKind else QuestionKind, s.pendingCalls) in s.trace
  }

  lemma ProceedAsked(cfg: Config, w: World, s: State, calls: Batch, how: Method, status: Status, decision: Decision)
    ensures Asked(Proceed(cfg, w, s, calls, how, status, decision).s)
  {
  }

  lemma StepAsked(cfg: Config, w: World, s: State, input: Input)
    requires Asked(s)
    ensures Asked(Step(cfg, w, s, input).s)
  {
    if input.Resume? {
      if s.frame == AwaitDecision && s.decision.Done? && s.pendingStatus.Some? && s.pendingMethod.Some? {
        ProceedAsked(cfg, w, s, s.pendingCalls, s.pendingMethod.value, s.pendingStatus.value, s.decision.value);
      }
    } else if (input.Execute? || input.ExecuteRestored?) && s.frame == Idle {
      BeginAsked(cfg, w, s, input.calls, input.how, if input.Execute? then None else Some(input.decision));
    }
  }

  lemma BeginAsked(cfg: Config, w: World, s: State, calls: Batch, how: Method, restored: Option<Decision>)
    ensures Asked(Begin(cfg, w, s, calls, how, restored).s)
  {
    var s1 := EmitCalls(Opening(s, calls, restored), calls);
    var status := Decide(calls, cfg.tools, EffectivePolicy(cfg, AllBashSafe(cfg, w, calls), restored));
    ProceedAsked(cfg, w, Emit(s1, AuthorizationEmitted(status)), calls, how, status, if restored.Some? then restored.value else Reject);
  }

  /** Every run: a bridge that waits has published the batch it waits with. */
  lemma {:induction false} SuspendedAsked(cfg: Config, w: World, inputs: seq<Input>)
    ensures Asked(Run(cfg, w, inputs))
    decreases |inputs|
  {
    if inputs != [] {
      SuspendedAsked(cfg, w, inputs[..|inputs| - 1]);
      StepAsked(cfg, w, Run(cfg, w, inputs[..|inputs| - 1]), inputs[|inputs| - 1]);
    }
  }

  /** From position `n` on, only calls of `batch` are delegated. */
  ghost predicate OwnFrom(n: nat, batch: Batch, t: seq<Event>) {
    n <= |t| && forall i | n <= i < |t| && t[i].Delegated? :: t[i].batch == batch
  }

  lemma ExtendsOwn(n: nat, batch: Batch, s: State, s': State)
    requires OwnFrom(n, batch, s.trace) && Extends(s, s')
    ensures OwnFrom(n, batch, s'.trace)
  {
  }

  lemma DispatchOwn(cfg: Config, w: World, n: nat, s: State, calls: Batch)
    requires Wired(cfg) && CacheJustified(s) && OwnFrom(n, calls, s.trace)
    ensures OwnFrom(n, calls, Dispatch(cfg, w, s, calls).s.trace)
  {
    ScreenSound(cfg, w, s, calls);
    var (s1, blocked) := Screen(cfg, w, s, calls);
    ExtendsOwn(n, calls, s, s1);
    var remaining := Survivors(calls, blocked);
    var s2 := Delegate(s1, remaining, calls);
    SurvivorsAnswered(w, s1.rounds, calls, blocked);
    StoreAllQuiet(s2, Ordered(calls, blocked, RoundAnswers(w, s1.rounds, remaining)));
    ExtendsOwn(n, calls, s2, Dispatch(cfg, w, s, calls).s);
  }

  lemma AskUserOwn(n: nat, s: State, calls: Batch, how: Method)
    requires OwnFrom(n, calls, s.trace)
    ensures OwnFrom(n, calls, AskUser(s, calls, how).s.trace)
  {
    var s' := AskUser(s, calls, how).s;
    if |calls| == 1 && IsBlank(ArgText(calls[0], "question")) {
      StoreAllQuiet(s, [Refuse(calls[0], QuestionMissing)]);
    }
    assert Extends(s, s');
    ExtendsOwn(n, calls, s, s');
  }

  lemma RejectedOwn(n: nat, s: State, calls: Batch, why: Refusal)
    requires OwnFrom(n, calls, s.trace)
    ensures OwnFrom(n, calls, Rejected(s, calls, why).s.trace)
  {
    EmitResultsQuiet(s, RefuseAll(calls, why));
    ExtendsOwn(n, calls, s, Rejected(s, calls, why).s);
  }

  lemma ProceedOwn(cfg: Config, w: World, n: nat, s: State, calls: Batch, how: Method, status: Status, decision: Decision)
    requires Wired(cfg) && CacheJustified(s) && OwnFrom(n, calls, s.trace)
    ensures OwnFrom(n, calls, Proceed(cfg, w, s, calls, how, status, decision).s.trace)
  {
    if status == Denied {
      RejectedOwn(n, s, calls, NotAuthorized(Refusals(calls, cfg.tools, cfg.policy)));
    } else if status == RequiresApproval && decision == Reject {
      RejectedOwn(n, s, calls, RejectedByUser);
    } else if exists c :: c in calls && c.name == ASK_USER {
      AskUserOwn(n, s, calls, how);
    } else if cfg.askGate && !s.askAnswered && exists c :: c in calls && BlockedBeforeAsk(c) {
      RejectedOwn(n, s, calls, AskFirst(set c | c in calls && BlockedBeforeAsk(c) :: c.name));
    } else {
      DispatchOwn(cfg, w, n, s, calls);
    }
  }

  lemma AuthorizeOwn(cfg: Config, w: World, n: nat, s: State, calls: Batch, how: Method, restored: Option<Decision>)
    requires Wired(cfg) && CacheJustified(s) && OwnFrom(n, calls, s.trace)
    ensures OwnFrom(n, calls, AuthorizeBatch(cfg, w, s, calls, how, restored).s.trace)
  {
    var status := Decide(calls, cfg.tools, EffectivePolicy(cfg, AllBashSafe(cfg, w, calls), restored));
    var s2 := Emit(s, AuthorizationEmitted(status));
    CacheJustifiedExtends(s, s2);
    if status == RequiresApproval && restored.None? {
      assert Extends(s2, Suspend(s2, calls, how));
      ExtendsOwn(n, calls, s2, Suspend(s2, calls, how));
    } else {
      ProceedOwn(cfg, w, n, s2, calls, how, status, if restored.Some? then restored.value else Reject);
    }
  }

  /** A batch that is started delegates calls of its own only. */
  lemma BeginDelegatesOwn(cfg: Config, w: World, s: State, calls: Batch, how: Method, restored: Option<Decision>)
    requires Wired(cfg) && CacheJustified(s)
    ensures OwnFrom(|s.trace|, calls, Begin(cfg, w, s, calls, how, restored).s.trace)
  {
    var n := |s.trace|;
    var s0 := Opening(s, calls, restored);
    var s1 := EmitCalls(s0, calls);
    EmitCallsQuiet(s0, calls);
    ExtendsOwn(n, calls, s0, s1);
    StoreAllQuiet(s1, RefuseAll(calls, ForbiddenCommand));
    ExtendsOwn(n, calls, s1, Store(s1, RefuseAll(calls, ForbiddenCommand)).s);
    CacheJustifiedExtends(s, s1);
    AuthorizeOwn(cfg, w, n, s1, calls, how, restored);
  }

  // ---------------------------------------------------------------- and nothing more is refused

  /** In default mode the gate refuses a bash call exactly when it lacks a reason or is BLOCKED. */
  predicate GateRefuses(cfg: Config, w: World, call: ToolCall) {
    call.name == BASH && cfg.gate.Some? && (IsBlank(ArgText(call, "reason")) || GateVerdict(cfg.gate.value, w, call).tier == CG.Blocked)
  }

  lemma {:induction false} ScreenDefault(cfg: Config, w: World, s: State, calls: Batch)
    requires cfg.mode == Default && Wired(cfg)
    ensures forall id :: id in Screen(cfg, w, s, calls).1 <==> exists c :: c in calls && c.callId == id && GateRefuses(cfg, w, c)
    decreases |calls|
  {
    if calls != [] {
      var front, call := calls[..|calls| - 1], calls[|calls| - 1];
      ScreenDefault(cfg, w, s, front);
      var (s1, blocked) := Screen(cfg, w, s, front);
      assert CallProblem(cfg, w, s1, call).1.Some? <==> GateRefuses(cfg, w, call);
      assert calls == front + [call];
    }
  }

  /**
   * Default mode: a batch that got past authorization, approval and the ask gate is delegated except for the calls
   * whose id a gate-refused call of the batch carries; nothing else is held back.
   */
  lemma DispatchDelegatesTheRest(cfg: Config, w: World, s: State, calls: Batch)
    requires cfg.mode == Default && Wired(cfg)
    requires exists c :: c in calls && !(exists d :: d in calls && d.callId == c.callId && GateRefuses(cfg, w, d))
    ensures
      var t := Dispatch(cfg, w, s, calls).s.trace;
      exists i | |s.trace| <= i < |t| :: t[i].Delegated? &&
        forall c :: c in t[i].calls <==> c in calls && !(exists d :: d in calls && d.callId == c.callId && GateRefuses(cfg, w, d))
  {
    ScreenDefault(cfg, w, s, calls);
    var (s1, blocked) := Screen(cfg, w, s, calls);
    var remaining := Survivors(calls, blocked);
    SurvivorsExact(calls, blocked);
    ScreenGrows(cfg, w, s, calls);
    SurvivorsAnswered(w, s1.rounds, calls, blocked);
    var s2 := Delegate(s1, remaining, calls);
    StoreAllQuiet(s2, Ordered(calls, blocked, RoundAnswers(w, s1.rounds, remaining)));
    assert s2.trace[|s1.trace|] == Delegated(remaining, calls);
    assert Dispatch(cfg, w, s, calls).s.trace[|s1.trace|] == Delegated(remaining, calls);
  }

  lemma {:induction false} ScreenGrows(cfg: Config, w: World, s: State, calls: Batch)
    ensures s.trace <= Screen(cfg, w, s, calls).0.trace
    decreases |calls|
  {
    if calls != [] {
      ScreenGrows(cfg, w, s, calls[..|calls| - 1]);
    }
  }

  /**
   * Default mode: a batch of allowed calls in which every bash call looks SAFE to preflight and no other call needs
   * approval never waits for a human; if it asks no question and the ask gate is open it is dispatched at once.
   */
  lemma SafeBatchNeedsNoClick(cfg: Config, w: World, s: State, calls: Batch, how: Method)
    requires cfg.mode == Default && Wired(cfg) && s.frame == Idle
    requires AllBashSafe(cfg, w, calls) && Refusals(calls, cfg.tools, cfg.policy) == {}
    requires forall c :: c in calls && c.name != BASH ==> !NeedsApproval(c.name, cfg.tools, cfg.policy)
    requires forall c :: c in calls ==> c.name != ASK_USER && (s.askAnswered || !BlockedBeforeAsk(c))
    ensures
      var s1 := Emit(EmitCalls(s, calls), AuthorizationEmitted(Approved));
      Step(cfg, w, s, Execute(calls, how)) == Dispatch(cfg, w, s1, calls)
  {
    SafeBatchApproved(cfg, w, calls);
    assert PreflightBlocked(cfg, w, calls) == {};
    EmitCallsQuiet(s, calls);
    var s1 := Emit(EmitCalls(s, calls), AuthorizationEmitted(Approved));
    assert Begin(cfg, w, s, calls, how, None) == Proceed(cfg, w, s1, calls, how, Approved, Reject);
  }

  lemma SafeBatchApproved(cfg: Config, w: World, calls: Batch)
    requires cfg.mode == Default
    requires BASH in cfg.tools ==> !cfg.tools[BASH].requiresApproval
    requires AllBashSafe(cfg, w, calls) && Refusals(calls, cfg.tools, cfg.policy) == {}
    requires forall c :: c in calls && c.name != BASH ==> !NeedsApproval(c.name, cfg.tools, cfg.policy)
    ensures Decide(calls, cfg.tools, EffectivePolicy(cfg, AllBashSafe(cfg, w, calls), None)) == Approved
  {
  }
}
