/** What a batch gets from the bridge: which of its calls run, and what each of its results holds. */
module BridgeOutcome {
  import opened Text
  import opened ToolContracts
  import opened Approval
  import opened Bridge
  import opened BridgeLedger
  import opened Sorting
  import opened BridgeSafety
  import CG = CommandGate
  import Paths

  // ---------------------------------------------------------------- which calls are held back

  /** The path argument `key` of a file tool is a text that leaves the workspace. */
  ghost predicate Leaves(w: World, root: string, call: ToolCall, key: string) {
    && IsPathKey(call.name, key)
    && key in call.arguments && call.arguments[key].Str? && !IsBlank(call.arguments[key].text)
    && var at := Paths.Resolve(w.host.workingDir, root);
       !Paths.Within(Paths.Resolve(at, call.arguments[key].text), at)
  }

  /** The sandbox stops a call exactly when it is a file tool's and some path argument leaves the workspace. */
  lemma SandboxIff(cfg: Config, w: World, call: ToolCall)
    ensures SandboxProblem(cfg, w, call).Some? <==>
            call.name in FILE_TOOLS && cfg.root.Some? && exists key :: Leaves(w, cfg.root.value, call, key)
  {
    if call.name in FILE_TOOLS && cfg.root.Some? {
      var root, keys := cfg.root.value, PathKeys(call.name);
      FirstEscapeNone(w, root, call, keys);
      assert forall i | 0 <= i < |keys| :: Leaves(w, root, call, keys[i]) <==>
               PathArg(call, keys[i]).Some? && !PathInside(w, root, PathArg(call, keys[i]).value);
      if key :| Leaves(w, root, call, key) {
        if call.name == "document_convert_tool" {
          assert key == keys[0] || key == keys[1];
        } else {
          assert key == keys[0];
        }
      }
    }
  }

  /** Whether the approver lets a request through: a remembered verdict counts, else the judge's next reply does. */
  predicate Permits(cfg: Config, w: World, cache: Cache, r: Request) {
    match cfg.approver
    case AllowAll => true
    case DenyAll => false
    case CachedJudge => if CacheKey(r) in cache.verdicts then cache.verdicts[CacheKey(r)].allowed else Allows(w.judge(|cache.asked|))
  }

  /**
   * A call is held back exactly when it leaves the workspace in silent mode, or it is a bash call of a gated run without
   * a reason, or BLOCKED, or in silent mode RISKY without the approver's leave.
   */
  lemma CallProblemIff(cfg: Config, w: World, s: State, call: ToolCall)
    requires Wired(cfg)
    ensures
      var g := cfg.gate.value;
      var tier := GateVerdict(g, w, call).tier;
      CallProblem(cfg, w, s, call).1.Some? <==>
        || (cfg.mode == Silent && SandboxProblem(cfg, w, call).Some?)
        || (&& call.name == BASH && cfg.mode != NoApproval
            && (|| IsBlank(ArgText(call, "reason")) || tier == CG.Blocked
                || (cfg.mode == Silent && tier == CG.Risky && !Permits(cfg, w, s.cache, ApprovalRequest(cfg, g, w, call)))))
  {
  }

  /** The no_approval mode screens nothing, allows every described tool, and asks only where a descriptor says so. */
  lemma NoApprovalUnrestricted(session: RawPolicy, silentTools: seq<string>, generatesSkill: bool, names: seq<string>,
                               prefixes: seq<string>, cwd: string, commands: CG.Policy, declared: seq<string>,
                               root: Option<string>, approver: Approver, runId: string, conversationId: string,
                               w: World, s: State, call: ToolCall)
    ensures
      var raw := ConversationPolicy(session, NoApproval, silentTools, generatesSkill);
      var cfg := Initialize(raw, names, prefixes, cwd, commands, declared, root, approver, runId, conversationId);
      && CallProblem(cfg, w, s, call).1 == None
      && (call.name in names ==>
            && call.name in cfg.tools && call.name in cfg.policy.allowed
            && (NeedsApproval(call.name, cfg.tools, cfg.policy) <==>
                  exists i :: ConfiguredAt(session.tools, i, call.name) && session.tools[i].requiresApproval))
  {
    var raw := ConversationPolicy(session, NoApproval, silentTools, generatesSkill);
    var cfg := Initialize(raw, names, prefixes, cwd, commands, declared, root, approver, runId, conversationId);
    InitializeWires(raw, names, prefixes, cwd, commands, declared, root, approver, runId, conversationId);
    CallProblemIff(cfg, w, s, call);
    if call.name in names {
      NeedsApprovalIff(raw, names, prefixes, cwd, commands, declared, root, approver, runId, conversationId, call.name);
      AllowedIff(raw, names, prefixes, cwd, commands, declared, root, approver, runId, conversationId, call.name);
    }
  }

  /** The call at position `p` is held back when its turn comes. */
  ghost predicate ScreenedOut(cfg: Config, w: World, s: State, calls: Batch, p: int) {
    0 <= p < |calls| && CallProblem(cfg, w, Screen(cfg, w, s, calls[..p]).0, calls[p]).1.Some?
  }

  /** A held-back call carries this id. */
  ghost predicate HeldBack(cfg: Config, w: World, s: State, calls: Batch, id: string) {
    exists p :: ScreenedOut(cfg, w, s, calls, p) && calls[p].callId == id
  }

  lemma ScreenGrowsMap(cfg: Config, w: World, s: State, calls: Batch)
    requires calls != []
    ensures
      var k := |calls| - 1;
      Screen(cfg, w, s, calls).1.Keys ==
        Screen(cfg, w, s, calls[..k]).1.Keys + if ScreenedOut(cfg, w, s, calls, k) then {calls[k].callId} else {}
  {
  }

  lemma {:induction false} ScreenHoldsAt(cfg: Config, w: World, s: State, calls: Batch, p: nat)
    requires ScreenedOut(cfg, w, s, calls, p)
    ensures calls[p].callId in Screen(cfg, w, s, calls).1
    decreases |calls|
  {
    var k := |calls| - 1;
    ScreenGrowsMap(cfg, w, s, calls);
    if p < k {
      assert calls[..k][..p] == calls[..p];
      ScreenHoldsAt(cfg, w, s, calls[..k], p);
    }
  }

  lemma {:induction false} ScreenHoldsWhom(cfg: Config, w: World, s: State, calls: Batch, id: string) returns (p: nat)
    requires id in Screen(cfg, w, s, calls).1
    ensures ScreenedOut(cfg, w, s, calls, p) && calls[p].callId == id
    decreases |calls|
  {
    var k := |calls| - 1;
    if id in Screen(cfg, w, s, calls[..k]).1 {
      p := ScreenHoldsWhom(cfg, w, s, calls[..k], id);
      assert calls[..k][..p] == calls[..p];
    } else {
      p := k;
    }
  }

  lemma ScreenHolds(cfg: Config, w: World, s: State, calls: Batch, id: string)
    ensures id in Screen(cfg, w, s, calls).1 <==> HeldBack(cfg, w, s, calls, id)
  {
    if id in Screen(cfg, w, s, calls).1 {
      var p := ScreenHoldsWhom(cfg, w, s, calls, id);
    } else if p :| ScreenedOut(cfg, w, s, calls, p) && calls[p].callId == id {
      ScreenHoldsAt(cfg, w, s, calls, p);
    }
  }

  /** In default mode that is a call without a reason or BLOCKED, whatever was screened before it. */
  lemma HeldBackDefault(cfg: Config, w: World, s: State, calls: Batch, id: string)
    requires Wired(cfg) && cfg.mode == Default
    ensures HeldBack(cfg, w, s, calls, id) <==> exists c :: c in calls && c.callId == id && GateRefuses(cfg, w, c)
  {
    ScreenHolds(cfg, w, s, calls, id);
    ScreenDefault(cfg, w, s, calls);
  }

  // ---------------------------------------------------------------- what is delegated

  /** The ids that held-back calls carry. */
  ghost function HeldIds(cfg: Config, w: World, s: State, calls: Batch): set<string> {
    set c | c in calls && HeldBack(cfg, w, s, calls, c.callId) :: c.callId
  }

  function Free(held: set<string>): ToolCall -> bool {
    (c: ToolCall) => c.callId !in held
  }

  /** The calls that run: those whose id no held-back call carries, in batch order. */
  ghost function Runs(cfg: Config, w: World, s: State, calls: Batch): Batch {
    Filter(Free(HeldIds(cfg, w, s, calls)), calls)
  }

  /** From `n` on the trace has one delegation, of exactly the calls that run, or none if no call does. */
  ghost predicate DelegatesExactly(cfg: Config, w: World, s: State, calls: Batch, n: nat, t: seq<Event>) {
    && (forall i | n <= i < |t| && t[i].Delegated? :: t[i] == Delegated(Runs(cfg, w, s, calls), calls))
    && (forall i, j | n <= i < |t| && n <= j < |t| && t[i].Delegated? && t[j].Delegated? :: i == j)
    && (Runs(cfg, w, s, calls) != [] <==> exists i | n <= i < |t| :: t[i].Delegated?)
  }

  lemma {:induction false} SurvivorsFilter(calls: Batch, blocked: map<string, Refusal>, held: set<string>)
    requires forall i | 0 <= i < |calls| :: calls[i].callId in blocked <==> calls[i].callId in held
    ensures Survivors(calls, blocked) == Filter(Free(held), calls)
    decreases |calls|
  {
    if calls != [] {
      var k := |calls| - 1;
      SurvivorsFilter(calls[..k], blocked, held);
      assert calls == calls[..k] + [calls[k]];
      FilterConcat(Free(held), calls[..k], [calls[k]]);
    }
  }

  lemma SurvivorsRun(cfg: Config, w: World, s: State, calls: Batch)
    ensures Survivors(calls, Screen(cfg, w, s, calls).1) == Runs(cfg, w, s, calls)
  {
    var held := HeldIds(cfg, w, s, calls);
    forall i | 0 <= i < |calls| ensures calls[i].callId in Screen(cfg, w, s, calls).1 <==> calls[i].callId in held {
      assert calls[i] in calls;
      ScreenHolds(cfg, w, s, calls, calls[i].callId);
    }
    SurvivorsFilter(calls, Screen(cfg, w, s, calls).1, held);
  }

  /** Where the delegation of a dispatched batch is, and that there is no other. */
  lemma DispatchTrace(cfg: Config, w: World, s: State, calls: Batch, i: nat)
    requires Wired(cfg) && CacheJustified(s)
    ensures
      var (s1, blocked) := Screen(cfg, w, s, calls);
      var remaining := Survivors(calls, blocked);
      var t := Dispatch(cfg, w, s, calls).s.trace;
      && s.trace <= s1.trace <= t
      && (|s.trace| <= i < |t| ==> (t[i].Delegated? <==> i == |s1.trace| && remaining != []))
      && (remaining != [] ==> |s1.trace| < |t| && t[|s1.trace|] == Delegated(remaining, calls))
  {
    ScreenSound(cfg, w, s, calls);
    var (s1, blocked) := Screen(cfg, w, s, calls);
    var remaining := Survivors(calls, blocked);
    var s2 := Delegate(s1, remaining, calls);
    SurvivorsAnswered(w, s1.rounds, calls, blocked);
    StoreAllQuiet(s2, Ordered(calls, blocked, RoundAnswers(w, s1.rounds, remaining)));
    var t := Dispatch(cfg, w, s, calls).s.trace;
    assert s2.trace <= t;
    if |s.trace| <= i < |t| {
      if i < |s1.trace| {
        assert t[i] == s1.trace[|s.trace|..][i - |s.trace|];
      } else if i >= |s2.trace| {
        assert t[i] == t[|s2.trace|..][i - |s2.trace|];
      }
    }
  }

  /** Dispatch, in any mode: exactly the calls that are not held back run, together and once. */
  lemma DispatchExactly(cfg: Config, w: World, s: State, calls: Batch)
    requires Wired(cfg) && CacheJustified(s)
    ensures DelegatesExactly(cfg, w, s, calls, |s.trace|, Dispatch(cfg, w, s, calls).s.trace)
    ensures Dispatch(cfg, w, s, calls).out.Returned?
  {
    var (s1, blocked) := Screen(cfg, w, s, calls);
    var remaining := Survivors(calls, blocked);
    var t := Dispatch(cfg, w, s, calls).s.trace;
    SurvivorsRun(cfg, w, s, calls);
    DispatchTrace(cfg, w, s, calls, |s1.trace|);
    forall i | |s.trace| <= i < |t| && t[i].Delegated? ensures i == |s1.trace| {
      DispatchTrace(cfg, w, s, calls, i);
    }
  }

  /** The batch asks no question, and the ask gate is off, answered, or not concerned by it. */
  ghost predicate PastAskGate(cfg: Config, s: State, calls: Batch) {
    forall c :: c in calls ==>
      && c.name != ASK_USER
      && (cfg.askGate && !s.askAnswered ==>
            c.name != TASK_DONE && (c.name in SIDE_EFFECT_TOOLS ==> ArgText(c, "command") in PRE_ASK_READ_COMMANDS))
  }

  lemma PastAskGateDispatches(cfg: Config, w: World, s: State, calls: Batch, how: Method, status: Status, decision: Decision)
    requires PastAskGate(cfg, s, calls) && status != Denied && (status == RequiresApproval ==> decision == ApproveOnce)
    ensures Proceed(cfg, w, s, calls, how, status, decision) == Dispatch(cfg, w, s, calls)
  {
  }

  lemma ApprovedResumes(cfg: Config, w: World, s: State)
    requires Wired(cfg) && CacheJustified(s) && s.frame == AwaitDecision && Waiting(cfg, s)
    requires s.decision == Done(ApproveOnce) && PastAskGate(cfg, s, s.pendingCalls)
    ensures Step(cfg, w, s, Resume) == Dispatch(cfg, w, s, s.pendingCalls)
  {
    PastAskGateDispatches(cfg, w, s, s.pendingCalls, s.pendingMethod.value, RequiresApproval, ApproveOnce);
  }

  /**
   * Every run: when a waiting batch was approved, resuming returns having delegated exactly its calls that are not held
   * back, in one delegation of that batch.
   */
  lemma ApprovedBatchRuns(cfg: Config, w: World, inputs: seq<Input>)
    requires Wired(cfg)
    requires
      var s := Run(cfg, w, inputs);
      s.frame == AwaitDecision && s.decision == Done(ApproveOnce) && PastAskGate(cfg, s, s.pendingCalls)
    ensures
      var s := Run(cfg, w, inputs);
      var e := Step(cfg, w, s, Resume);
      e.out.Returned? && DelegatesExactly(cfg, w, s, s.pendingCalls, |s.trace|, e.s.trace)
  {
    RunInv(cfg, w, inputs);
    var s := Run(cfg, w, inputs);
    ApprovedResumes(cfg, w, s);
    DispatchExactly(cfg, w, s, s.pendingCalls);
  }

  /** The state in which a started batch is past authorization. */
  function Authorized(cfg: Config, w: World, s: State, calls: Batch, restored: Option<Decision>): State {
    var status := Decide(calls, cfg.tools, EffectivePolicy(cfg, AllBashSafe(cfg, w, calls), restored));
    Emit(EmitCalls(Opening(s, calls, restored), calls), AuthorizationEmitted(status))
  }

  /** Not every call of the batch is, for preflight, a BLOCKED bash call with an id of its own. */
  predicate SomethingToAuthorize(cfg: Config, w: World, calls: Batch) {
    calls == [] || |PreflightBlocked(cfg, w, calls)| != |calls|
  }

  lemma AuthorizedExtends(cfg: Config, w: World, s: State, calls: Batch, restored: Option<Decision>)
    ensures
      var s2 := Authorized(cfg, w, s, calls, restored);
      Extends(s, s2) && s2 == s.(trace := s2.trace) && (CacheJustified(s) ==> CacheJustified(s2))
  {
    var s0 := Opening(s, calls, restored);
    var s1 := EmitCalls(s0, calls);
    var s2 := Authorized(cfg, w, s, calls, restored);
    EmitCallsQuiet(s0, calls);
    assert Extends(s, s0) && Extends(s1, s2);
    ExtendsTransitive(s, s0, s1);
    ExtendsTransitive(s, s1, s2);
    if CacheJustified(s) {
      CacheJustifiedExtends(s, s2);
    }
  }

  lemma DelegatesExactlyLifts(cfg: Config, w: World, s: State, s2: State, calls: Batch, t: seq<Event>)
    requires Extends(s, s2) && s2.trace <= t && DelegatesExactly(cfg, w, s2, calls, |s2.trace|, t)
    ensures DelegatesExactly(cfg, w, s2, calls, |s.trace|, t)
  {
  }

  /** A batch that a checkpoint restores with its approval runs in the same way. */
  lemma RestoredBatchRuns(cfg: Config, w: World, s: State, calls: Batch, how: Method)
    requires Wired(cfg) && CacheJustified(s) && s.frame == Idle && PastAskGate(cfg, s, calls)
    requires Refusals(calls, cfg.tools, cfg.policy) == {} && SomethingToAuthorize(cfg, w, calls)
    ensures
      var s2 := Authorized(cfg, w, s, calls, Some(ApproveOnce));
      var e := Step(cfg, w, s, ExecuteRestored(calls, how, ApproveOnce));
      e.out.Returned? && DelegatesExactly(cfg, w, s2, calls, |s.trace|, e.s.trace)
  {
    var restored := Some(ApproveOnce);
    var s2 := Authorized(cfg, w, s, calls, restored);
    var status := Decide(calls, cfg.tools, EffectivePolicy(cfg, AllBashSafe(cfg, w, calls), restored));
    AuthorizedExtends(cfg, w, s, calls, restored);
    NotBlockedOnly(cfg, w, calls);
    assert Begin(cfg, w, s, calls, how, restored) == Proceed(cfg, w, s2, calls, how, status, ApproveOnce);
    PastAskGateDispatches(cfg, w, s2, calls, how, status, ApproveOnce);
    DispatchExactly(cfg, w, s2, calls);
    DispatchTrace(cfg, w, s2, calls, 0);
    DelegatesExactlyLifts(cfg, w, s, s2, calls, Dispatch(cfg, w, s2, calls).s.trace);
  }

  lemma NotBlockedOnly(cfg: Config, w: World, calls: Batch)
    ensures SomethingToAuthorize(cfg, w, calls) <==>
            PreflightBlocked(cfg, w, calls) == {} || |PreflightBlocked(cfg, w, calls)| != |calls|
  {
    if calls == [] {
      assert PreflightBlocked(cfg, w, calls) == {};
    }
  }

  // ---------------------------------------------------------------- what is refused

  predicate IsRefusal(r: ToolResult) {
    !r.success && r.content.Refused?
  }

  /** Every result is a refusal of the call it belongs to, and nothing was delegated. */
  ghost predicate RefusedOutright(s: State, calls: Batch, e: Ended) {
    && e.out.Returned? && Extends(s, e.s) && |e.out.results| == |calls|
    && forall p | 0 <= p < |calls| ::
         var r := e.out.results[p]; IsRefusal(r) && r.callId == calls[p].callId && r.name == calls[p].name
  }

  lemma RejectedOutright(s: State, calls: Batch, why: Refusal)
    ensures RefusedOutright(s, calls, Rejected(s, calls, why))
  {
    EmitResultsQuiet(s, RefuseAll(calls, why));
  }

  lemma RejectionResumes(cfg: Config, w: World, s: State)
    requires s.frame == AwaitDecision && Waiting(cfg, s) && s.decision == Done(Reject)
    ensures Step(cfg, w, s, Resume) == Rejected(s, s.pendingCalls, RejectedByUser)
  {
  }

  /** Every run: a waiting batch that was rejected is refused outright. */
  lemma RejectedBatchRefused(cfg: Config, w: World, inputs: seq<Input>)
    requires Wired(cfg)
    requires Run(cfg, w, inputs).frame == AwaitDecision && Run(cfg, w, inputs).decision == Done(Reject)
    ensures
      var s := Run(cfg, w, inputs);
      RefusedOutright(s, s.pendingCalls, Step(cfg, w, s, Resume))
  {
    RunInv(cfg, w, inputs);
    var s := Run(cfg, w, inputs);
    RejectionResumes(cfg, w, s);
    RejectedOutright(s, s.pendingCalls, RejectedByUser);
  }

  /** So is a batch that names an unknown or a not allowed tool, whatever was decided. */
  lemma DeniedBatchRefused(cfg: Config, w: World, s: State, calls: Batch, how: Method, restored: Option<Decision>, c: ToolCall)
    requires c in calls && (c.name !in cfg.tools || c.name !in cfg.policy.allowed) && SomethingToAuthorize(cfg, w, calls)
    ensures RefusedOutright(s, calls, Begin(cfg, w, s, calls, how, restored))
  {
    var s2 := Authorized(cfg, w, s, calls, restored);
    var policy := EffectivePolicy(cfg, AllBashSafe(cfg, w, calls), restored);
    assert c.name in Refusals(calls, cfg.tools, policy);
    AuthorizedExtends(cfg, w, s, calls, restored);
    NotBlockedOnly(cfg, w, calls);
    var e := Begin(cfg, w, s, calls, how, restored);
    RejectedOutright(s2, calls, NotAuthorized(Refusals(calls, cfg.tools, cfg.policy)));
    ExtendsTransitive(s, s2, e.s);
  }

  /** And a batch whose needed approval the checkpoint restores as a rejection. */
  lemma RestoredRejectionRefused(cfg: Config, w: World, s: State, calls: Batch, how: Method, c: ToolCall)
    requires SomethingToAuthorize(cfg, w, calls) && c in calls && NeedsApproval(c.name, cfg.tools, cfg.policy)
    ensures RefusedOutright(s, calls, Begin(cfg, w, s, calls, how, Some(Reject)))
  {
    var s2 := Authorized(cfg, w, s, calls, Some(Reject));
    AuthorizedExtends(cfg, w, s, calls, Some(Reject));
    NotBlockedOnly(cfg, w, calls);
    var e := Begin(cfg, w, s, calls, how, Some(Reject));
    RejectedOutright(s2, calls, NotAuthorized(Refusals(calls, cfg.tools, cfg.policy)));
    RejectedOutright(s2, calls, RejectedByUser);
    ExtendsTransitive(s, s2, e.s);
  }

  /** What preflight sees is what the gate sees, but for the declared prefixes. */
  lemma PreflightVersusGate(cfg: Config, w: World, call: ToolCall)
    requires call.name == BASH && cfg.gate.Some?
    ensures PreflightTier(cfg, w, call) == Some(CG.Blocked) <==> GateRefuses(cfg, w, call)
    ensures PreflightTier(cfg, w, call) == Some(CG.Safe) ==> GateVerdict(cfg.gate.value, w, call).tier == CG.Safe
    ensures cfg.gate.value.declared == [] && !IsBlank(ArgText(call, "reason")) ==>
              PreflightTier(cfg, w, call) == Some(GateVerdict(cfg.gate.value, w, call).tier)
  {
    var g := cfg.gate.value;
    CG.DeclaredOnlyRelaxesRisky(ArgText(call, "command"), g.allowedPrefixes, g.cwd, g.policy, g.declared, w.host);
  }

  /** Every call of the batch is a bash call that the gate refuses, each with an id of its own. */
  ghost predicate BlockedOnly(cfg: Config, w: World, calls: Batch) {
    && calls != []
    && (forall i | 0 <= i < |calls| :: calls[i].name == BASH && GateRefuses(cfg, w, calls[i]))
    && (forall i, j | 0 <= i < j < |calls| :: calls[i].callId != calls[j].callId)
  }

  lemma {:induction false} BlockedCount(cfg: Config, w: World, calls: Batch)
    requires cfg.gate.Some?
    ensures |PreflightBlocked(cfg, w, calls)| <= |calls|
    ensures |PreflightBlocked(cfg, w, calls)| == |calls| <==> calls == [] || BlockedOnly(cfg, w, calls)
    decreases |calls|
  {
    if calls == [] {
      assert PreflightBlocked(cfg, w, calls) == {};
    } else {
      var k := |calls| - 1;
      var front, call := calls[..k], calls[k];
      assert calls == front + [call];
      BlockedCount(cfg, w, front);
      BlockedSnoc(cfg, w, front, call);
      BlockedOnlySnoc(cfg, w, front, call);
      BlockedTier(cfg, w, call);
      if BlockedOnly(cfg, w, front) {
        BlockedIds(cfg, w, front, call.callId);
      } else if front == [] {
        assert PreflightBlocked(cfg, w, front) == {};
      }
    }
  }

  lemma BlockedTier(cfg: Config, w: World, call: ToolCall)
    requires cfg.gate.Some?
    ensures PreflightTier(cfg, w, call) == Some(CG.Blocked) <==> call.name == BASH && GateRefuses(cfg, w, call)
  {
    if call.name == BASH {
      PreflightVersusGate(cfg, w, call);
    }
  }

  lemma BlockedSnoc(cfg: Config, w: World, front: Batch, call: ToolCall)
    ensures PreflightBlocked(cfg, w, front + [call]) ==
            PreflightBlocked(cfg, w, front) + if PreflightTier(cfg, w, call) == Some(CG.Blocked) then {call.callId} else {}
  {
  }

  lemma BlockedIds(cfg: Config, w: World, calls: Batch, id: string)
    requires cfg.gate.Some? && BlockedOnly(cfg, w, calls)
    ensures id in PreflightBlocked(cfg, w, calls) <==> exists i | 0 <= i < |calls| :: calls[i].callId == id
  {
    if i :| 0 <= i < |calls| && calls[i].callId == id {
      PreflightVersusGate(cfg, w, calls[i]);
      assert calls[i] in calls;
    }
  }

  lemma BlockedOnlySnoc(cfg: Config, w: World, front: Batch, call: ToolCall)
    ensures BlockedOnly(cfg, w, front + [call]) <==>
            && (front == [] || BlockedOnly(cfg, w, front)) && call.name == BASH && GateRefuses(cfg, w, call)
            && (forall i | 0 <= i < |front| :: front[i].callId != call.callId)
  {
    var calls := front + [call];
    assert calls[|front|] == call && forall i | 0 <= i < |front| :: calls[i] == front[i];
  }

  /** A batch made only of bash calls the gate would refuse never reaches a human and never runs; every other is authorized. */
  lemma BlockedOnlyRefused(cfg: Config, w: World, s: State, calls: Batch, how: Method, restored: Option<Decision>)
    requires Wired(cfg)
    ensures SomethingToAuthorize(cfg, w, calls) <==> !BlockedOnly(cfg, w, calls)
    ensures
      var e := Begin(cfg, w, s, calls, how, restored);
      BlockedOnly(cfg, w, calls) ==>
        && e.out.Returned? && Extends(s, e.s) && |e.out.results| == |calls|
        && forall p | 0 <= p < |calls| ::
             if calls[p].callId in s.results then e.out.results[p] == s.results[calls[p].callId] else IsRefusal(e.out.results[p])
  {
    BlockedCount(cfg, w, calls);
    if BlockedOnly(cfg, w, calls) {
      var s0 := Opening(s, calls, restored);
      var s1 := EmitCalls(s0, calls);
      EmitCallsQuiet(s0, calls);
      assert Extends(s, s0);
      ExtendsTransitive(s, s0, s1);
      StoredRefusals(s1, RefuseAll(calls, ForbiddenCommand));
      ExtendsTransitive(s, s1, Store(s1, RefuseAll(calls, ForbiddenCommand)).s);
    }
  }

  // ---------------------------------------------------------------- what storing keeps

  lemma {:induction false} StoreAllLength(s: State, rs: seq<ToolResult>)
    ensures |StoreAll(s, rs).1| == |rs|
    decreases |rs|
  {
    if rs != [] {
      StoreAllLength(s, rs[..|rs| - 1]);
    }
  }

  /** After storing, the cache holds for an id what it held before, or else one of the results stored for it. */
  lemma {:induction false} StoredFor(s: State, rs: seq<ToolResult>, id: string) returns (q: nat)
    requires id in StoreAll(s, rs).0.results
    ensures
      var kept := StoreAll(s, rs).0.results[id];
      if id in s.results then kept == s.results[id] else q < |rs| && rs[q].callId == id && kept == rs[q]
    decreases |rs|
  {
    q := 0;
    if rs != [] {
      var k := |rs| - 1;
      if id in StoreAll(s, rs[..k]).0.results {
        q := StoredFor(s, rs[..k], id);
      } else {
        StoreKeepsOld(s, rs[..k], id);
        q := k;
      }
    }
  }

  lemma {:induction false} StoreKeepsOld(s: State, rs: seq<ToolResult>, id: string)
    ensures id in s.results ==> id in StoreAll(s, rs).0.results
    decreases |rs|
  {
    if rs != [] {
      StoreKeepsOld(s, rs[..|rs| - 1], id);
    }
  }

  lemma {:induction false} UniqueIsKept(s: State, rs: seq<ToolResult>, p: nat)
    requires p < |rs|
    ensures |StoreAll(s, rs).1| == |rs| && rs[p].callId in StoreAll(s, rs).0.results
    ensures StoreAll(s, rs).1[p] == StoreAll(s, rs).0.results[rs[p].callId]
    decreases |rs|
  {
    var k := |rs| - 1;
    StoreAllLength(s, rs[..k]);
    StoreAllLength(s, rs);
    if p < k {
      UniqueIsKept(s, rs[..k], p);
    }
  }

  /** The result reported at a position: the one stored before for its id, or one of this list with that id. */
  lemma StoredWhich(s: State, rs: seq<ToolResult>, p: nat) returns (q: nat)
    requires p < |rs|
    ensures |StoreAll(s, rs).1| == |rs|
    ensures
      var r, id := StoreAll(s, rs).1[p], rs[p].callId;
      if id in s.results then r == s.results[id] else q < |rs| && rs[q].callId == id && r == rs[q]
  {
    UniqueIsKept(s, rs, p);
    q := StoredFor(s, rs, rs[p].callId);
  }

  /** Stored refusals are reported, except where an id has a result. */
  lemma StoredRefusals(s: State, rs: seq<ToolResult>)
    requires forall p | 0 <= p < |rs| :: IsRefusal(rs[p])
    ensures
      var e := Store(s, rs);
      && e.out.Returned? && Extends(s, e.s) && |e.out.results| == |rs|
      && forall p | 0 <= p < |rs| ::
           if rs[p].callId in s.results then e.out.results[p] == s.results[rs[p].callId] else IsRefusal(e.out.results[p])
  {
    StoreAllQuiet(s, rs);
    StoreAllLength(s, rs);
    forall p | 0 <= p < |rs| ensures
      var r := StoreAll(s, rs).1[p];
      if rs[p].callId in s.results then r == s.results[rs[p].callId] else IsRefusal(r)
    {
      var q := StoredWhich(s, rs, p);
    }
  }

  /**
   * Default mode: a batch of allowed calls waits for a human, delegating nothing, exactly when some call other than bash
   * needs approval or the batch has bash calls that preflight does not find all SAFE.
   */
  lemma WaitsIff(cfg: Config, w: World, s: State, calls: Batch, how: Method)
    requires Wired(cfg) && cfg.mode == Default && s.frame == Idle
    requires Refusals(calls, cfg.tools, cfg.policy) == {} && SomethingToAuthorize(cfg, w, calls) && PastAskGate(cfg, s, calls)
    ensures
      var e := Step(cfg, w, s, Execute(calls, how));
      && (e.out == Suspended <==>
            exists c :: c in calls &&
              (if c.name == BASH then PreflightTier(cfg, w, c) != Some(CG.Safe) else NeedsApproval(c.name, cfg.tools, cfg.policy)))
      && (e.out == Suspended ==> Extends(s, e.s) && e.s.frame == AwaitDecision && e.s.pendingCalls == calls)
  {
    var s2 := Authorized(cfg, w, s, calls, None);
    AuthorizedExtends(cfg, w, s, calls, None);
    NotBlockedOnly(cfg, w, calls);
    var policy := EffectivePolicy(cfg, AllBashSafe(cfg, w, calls), None);
    assert Refusals(calls, cfg.tools, policy) == Refusals(calls, cfg.tools, cfg.policy);
    var status := Decide(calls, cfg.tools, policy);
    if status == RequiresApproval {
      assert Extends(s2, Suspend(s2, calls, how));
      ExtendsTransitive(s, s2, Suspend(s2, calls, how));
    } else {
      PastAskGateDispatches(cfg, w, s2, calls, how, status, Reject);
    }
    AllSafeOrNot(cfg, w, calls);
  }

  lemma AllSafeOrNot(cfg: Config, w: World, calls: Batch)
    requires cfg.gate.Some?
    ensures (exists c :: c in calls && c.name == BASH) ==>
              (AllBashSafe(cfg, w, calls) <==> forall c :: c in calls && c.name == BASH ==> PreflightTier(cfg, w, c) == Some(CG.Safe))
  {
  }

  // ---------------------------------------------------------------- what each result holds

  /** `k` is the last position of the id. */
  predicate LastAt(calls: Batch, k: nat, id: string) {
    k < |calls| && calls[k].callId == id && forall j | k < j < |calls| :: calls[j].callId != id
  }

  /** `r` is what the delegate answered, in that round, to the last call with its id. */
  ghost predicate FromDelegate(w: World, round: nat, calls: Batch, r: ToolResult) {
    exists k: nat :: LastAt(calls, k, r.callId) && r.name == calls[k].name && Answer(r.success, r.content) == w.delegate(round, k)
  }

  lemma {:induction false} RoundAnswerAt(w: World, round: nat, calls: Batch, id: string)
    requires id in RoundAnswers(w, round, calls)
    ensures RoundAnswers(w, round, calls)[id].callId == id && FromDelegate(w, round, calls, RoundAnswers(w, round, calls)[id])
    decreases |calls|
  {
    var n := |calls| - 1;
    var r := RoundAnswers(w, round, calls)[id];
    if calls[n].callId == id {
      assert LastAt(calls, n, id);
    } else {
      RoundAnswerAt(w, round, calls[..n], id);
      var k: nat :| LastAt(calls[..n], k, id) && r.name == calls[..n][k].name && Answer(r.success, r.content) == w.delegate(round, k);
      assert LastAt(calls, k, id);
    }
  }

  predicate Carried(calls: Batch, id: string) {
    id in CallIds(calls)
  }

  lemma CarriedBy(calls: Batch, id: string)
    ensures Carried(calls, id) <==> exists c :: c in calls && c.callId == id
  {
    if Carried(calls, id) {
      var i :| 0 <= i < |calls| && CallIds(calls)[i] == id;
      assert calls[i] in calls;
    }
    if c :| c in calls && c.callId == id {
      var i :| 0 <= i < |calls| && calls[i] == c;
      assert CallIds(calls)[i] == id;
    }
  }

  /**
   * What result `r` of a batch holds, given what was delegated of it in which round: the result stored earlier for its
   * id if there is one, else the delegate's own answer to that id if it was delegated, else a refusal.
   */
  ghost predicate Reports(w: World, s: State, round: nat, handed: Batch, r: ToolResult) {
    if r.callId in s.results then r == s.results[r.callId]
    else if Carried(handed, r.callId) then FromDelegate(w, round, handed, r)
    else IsRefusal(r)
  }

  lemma OrderedReports(w: World, s: State, round: nat, calls: Batch, blocked: map<string, Refusal>, q: nat)
    requires q < |calls| && Answerable(calls, blocked, RoundAnswers(w, round, Survivors(calls, blocked)))
    ensures
      var handed := Survivors(calls, blocked);
      var r := Ordered(calls, blocked, RoundAnswers(w, round, handed))[q];
      r.callId == calls[q].callId && if Carried(handed, r.callId) then FromDelegate(w, round, handed, r) else IsRefusal(r)
  {
    var handed := Survivors(calls, blocked);
    var id := calls[q].callId;
    assert calls[q] in calls;
    SurvivorsExact(calls, blocked);
    CarriedBy(handed, id);
    if id in blocked {
      assert !Carried(handed, id);
    } else {
      RoundAnswerAt(w, round, handed, id);
    }
  }

  /** Dispatch reports, call by call, what the delegate answered to it in this round. */
  lemma DispatchReports(cfg: Config, w: World, s: State, calls: Batch, p: nat)
    requires p < |calls| && Keyed(s.results)
    ensures
      var (s1, blocked) := Screen(cfg, w, s, calls);
      var e := Dispatch(cfg, w, s, calls);
      && |e.out.results| == |calls| && e.out.results[p].callId == calls[p].callId
      && Reports(w, s, s.rounds, Survivors(calls, blocked), e.out.results[p])
  {
    ScreenNeutral(cfg, w, s, calls);
    var (s1, blocked) := Screen(cfg, w, s, calls);
    var handed := Survivors(calls, blocked);
    SurvivorsAnswered(w, s1.rounds, calls, blocked);
    var rs := Ordered(calls, blocked, RoundAnswers(w, s1.rounds, handed));
    var s2 := Delegate(s1, handed, calls);
    OrderedReports(w, s, s1.rounds, calls, blocked, p);
    var q := StoredWhich(s2, rs, p);
    if calls[p].callId !in s.results {
      OrderedReports(w, s, s1.rounds, calls, blocked, q);
    }
  }

  /** The result stored earlier for its id. */
  predicate Repeats(s: State, r: ToolResult) {
    r.callId in s.results && r == s.results[r.callId]
  }

  /**
   * What the results of a batch hold, told from the trace and the world alone: after a delegation they are what
   * `Reports` says of the calls delegated and the number of delegations before it; without one they are refusals, or
   * repeat results stored earlier.
   */
  ghost predicate Told(w: World, s: State, calls: Batch, e: Ended) {
    e.out.Returned? ==>
      var t, rs := e.s.trace, e.out.results;
      && |rs| == |calls| && s.trace <= t
      && (forall i, p | |s.trace| <= i < |t| && t[i].Delegated? && 0 <= p < |rs| ::
            Reports(w, s, Book(t[..i]).rounds, t[i].calls, rs[p]))
      && (Quiet(t[|s.trace|..]) ==> forall p | 0 <= p < |rs| :: IsRefusal(rs[p]) || Repeats(s, rs[p]))
  }

  ghost predicate Prepared(s: State) {
    CacheJustified(s) && Keyed(s.results) && Book(s.trace).rounds == s.rounds
  }

  lemma DispatchTold(cfg: Config, w: World, s: State, calls: Batch)
    requires Wired(cfg) && Prepared(s)
    ensures Told(w, s, calls, Dispatch(cfg, w, s, calls))
  {
    var (s1, blocked) := Screen(cfg, w, s, calls);
    var handed := Survivors(calls, blocked);
    var e := Dispatch(cfg, w, s, calls);
    var t, rs := e.s.trace, e.out.results;
    ScreenNeutral(cfg, w, s, calls);
    DispatchLength(cfg, w, s, calls);
    DispatchTrace(cfg, w, s, calls, |s1.trace|);
    forall i, p | |s.trace| <= i < |t| && t[i].Delegated? && 0 <= p < |rs|
      ensures Reports(w, s, Book(t[..i]).rounds, t[i].calls, rs[p])
    {
      DispatchTrace(cfg, w, s, calls, i);
      DispatchReports(cfg, w, s, calls, p);
      assert t[..i] == s1.trace;
    }
    if handed != [] {
      assert t[|s.trace|..][|s1.trace| - |s.trace|] == t[|s1.trace|];
    }
    if Quiet(t[|s.trace|..]) {
      forall p | 0 <= p < |rs| ensures IsRefusal(rs[p]) || Repeats(s, rs[p]) {
        DispatchReports(cfg, w, s, calls, p);
      }
    }
  }

  lemma DispatchLength(cfg: Config, w: World, s: State, calls: Batch)
    ensures Dispatch(cfg, w, s, calls).out.Returned? && |Dispatch(cfg, w, s, calls).out.results| == |calls|
  {
    var (s1, blocked) := Screen(cfg, w, s, calls);
    var handed := Survivors(calls, blocked);
    SurvivorsAnswered(w, s1.rounds, calls, blocked);
    StoreAllLength(Delegate(s1, handed, calls), Ordered(calls, blocked, RoundAnswers(w, s1.rounds, handed)));
  }

  lemma StoredTold(w: World, s: State, calls: Batch, rs: seq<ToolResult>)
    requires |rs| == |calls| && forall p | 0 <= p < |rs| :: IsRefusal(rs[p])
    requires Keyed(s.results)
    ensures Told(w, s, calls, Store(s, rs))
  {
    StoredRefusals(s, rs);
  }

  lemma AskTold(w: World, s: State, calls: Batch, how: Method)
    requires Keyed(s.results)
    ensures Told(w, s, calls, AskUser(s, calls, how))
  {
    if |calls| == 1 {
      StoredTold(w, s, calls, [Refuse(calls[0], QuestionMissing)]);
    }
  }

  lemma ProceedTold(cfg: Config, w: World, s: State, calls: Batch, how: Method, status: Status, decision: Decision)
    requires Wired(cfg) && Prepared(s)
    ensures Told(w, s, calls, Proceed(cfg, w, s, calls, how, status, decision))
  {
    if status == Denied {
      RejectedOutright(s, calls, NotAuthorized(Refusals(calls, cfg.tools, cfg.policy)));
    } else if status == RequiresApproval && decision == Reject {
      RejectedOutright(s, calls, RejectedByUser);
    } else if exists c :: c in calls && c.name == ASK_USER {
      AskTold(w, s, calls, how);
    } else if cfg.askGate && !s.askAnswered && exists c :: c in calls && BlockedBeforeAsk(c) {
      RejectedOutright(s, calls, AskFirst(set c | c in calls && BlockedBeforeAsk(c) :: c.name));
    } else {
      DispatchTold(cfg, w, s, calls);
    }
  }

  lemma ToldLifts(w: World, s: State, s2: State, calls: Batch, e: Ended)
    requires Extends(s, s2) && s2.results == s.results && Told(w, s2, calls, e)
    ensures Told(w, s, calls, e)
  {
    if e.out.Returned? {
      var t := e.s.trace;
      if Quiet(t[|s.trace|..]) {
        assert t[|s2.trace|..] == t[|s.trace|..][|s2.trace| - |s.trace|..];
      }
    }
  }

  lemma AuthorizedReady(cfg: Config, w: World, s: State, calls: Batch, restored: Option<Decision>)
    requires CacheJustified(s) && Balanced(s) && s.frame == Idle
    ensures Prepared(Authorized(cfg, w, s, calls, restored))
  {
    AuthorizedExtends(cfg, w, s, calls, restored);
    OpenBatch(s, calls, restored);
    var s1 := EmitCalls(Opening(s, calls, restored), calls);
    EmitCallsQuiet(Opening(s, calls, restored), calls);
    CacheJustifiedExtends(s, s1);
    var status := Decide(calls, cfg.tools, EffectivePolicy(cfg, AllBashSafe(cfg, w, calls), restored));
    BookEmit(s1, AuthorizationEmitted(status));
  }

  lemma BlockedTold(w: World, s: State, calls: Batch, restored: Option<Decision>)
    requires Balanced(s) && s.frame == Idle
    ensures Told(w, s, calls, Store(EmitCalls(Opening(s, calls, restored), calls), RefuseAll(calls, ForbiddenCommand)))
  {
    var s0 := Opening(s, calls, restored);
    var s1 := EmitCalls(s0, calls);
    EmitCallsQuiet(s0, calls);
    assert Extends(s, s0);
    ExtendsTransitive(s, s0, s1);
    StoredTold(w, s1, calls, RefuseAll(calls, ForbiddenCommand));
    ToldLifts(w, s, s1, calls, Store(s1, RefuseAll(calls, ForbiddenCommand)));
  }

  lemma AuthorizedTold(cfg: Config, w: World, s: State, calls: Batch, how: Method, restored: Option<Decision>)
    requires Wired(cfg) && CacheJustified(s) && Balanced(s) && s.frame == Idle
    ensures Told(w, s, calls, AuthorizeBatch(cfg, w, EmitCalls(Opening(s, calls, restored), calls), calls, how, restored))
  {
    var s2 := Authorized(cfg, w, s, calls, restored);
    var status := Decide(calls, cfg.tools, EffectivePolicy(cfg, AllBashSafe(cfg, w, calls), restored));
    var decision := if restored.Some? then restored.value else Reject;
    AuthorizedReady(cfg, w, s, calls, restored);
    AuthorizedExtends(cfg, w, s, calls, restored);
    ProceedTold(cfg, w, s2, calls, how, status, decision);
    ToldLifts(w, s, s2, calls, Proceed(cfg, w, s2, calls, how, status, decision));
  }

  lemma BeginTold(cfg: Config, w: World, s: State, calls: Batch, how: Method, restored: Option<Decision>)
    requires Wired(cfg) && CacheJustified(s) && Balanced(s) && s.frame == Idle
    ensures Told(w, s, calls, Begin(cfg, w, s, calls, how, restored))
  {
    BlockedTold(w, s, calls, restored);
    AuthorizedTold(cfg, w, s, calls, how, restored);
  }

  /** Every run, every batch that returns other than an answered question: its results are as `Told` says. */
  lemma ResultsTold(cfg: Config, w: World, inputs: seq<Input>, input: Input)
    requires Wired(cfg) && Run(cfg, w, inputs).frame != AwaitAnswer
    ensures
      var s := Run(cfg, w, inputs);
      Told(w, s, BatchOf(s, input), Step(cfg, w, s, input))
  {
    RunInv(cfg, w, inputs);
    RunBalanced(cfg, w, inputs);
    var s := Run(cfg, w, inputs);
    if input.Resume? {
      if s.frame == AwaitDecision && s.decision.Done? && s.pendingStatus.Some? && s.pendingMethod.Some? {
        ProceedTold(cfg, w, s, s.pendingCalls, s.pendingMethod.value, s.pendingStatus.value, s.decision.value);
      }
    } else if input.Execute? || input.ExecuteRestored? {
      if s.frame == Idle {
        BeginTold(cfg, w, s, input.calls, input.how, if input.Execute? then None else Some(input.decision));
      }
    }
  }

  // ---------------------------------------------------------------- questions

  /** The answer submitted to a waiting question becomes its one result, unless its id has a result. */
  lemma FinishAskAnswers(s: State, call: ToolCall, answer: string)
    requires s.pendingCalls == [call]
    ensures
      var e := FinishAsk(s, answer);
      && e.out == Returned([if call.callId in s.results then s.results[call.callId]
                            else ToolResult(call.callId, call.name, true, Output(answer))])
      && e.s.askAnswered && Extends(s, e.s)
  {
    var r := ToolResult(call.callId, call.name, true, Output(answer));
    var s2 := s.(askAnswered := true);
    assert StoreAll(s2, []) == (s2, []);
    assert [r][..0] == [];
    assert [] + [StoreOne(s2, r).1] == [StoreOne(s2, r).1];
    assert StoreAll(s2, [r]) == (StoreOne(s2, r).0, [StoreOne(s2, r).1]);
  }

  /**
   * Every run: while a question waits, the answer submitted becomes its one result, successful and carrying that answer,
   * unless a result was stored for its id before; nothing is delegated and the ask gate opens.
   */
  lemma QuestionAnswered(cfg: Config, w: World, inputs: seq<Input>, answer: string)
    requires Run(cfg, w, inputs).frame == AwaitAnswer && Run(cfg, w, inputs).answer == Pending
    ensures
      var s := Run(cfg, w, inputs);
      var asked := Step(cfg, w, s, SubmitAnswer(answer));
      var e := Step(cfg, w, asked.s, Resume);
      && asked.out == Accepted && |s.pendingCalls| == 1 && s.pendingCalls[0].name == ASK_USER
      && (var id := s.pendingCalls[0].callId;
          e.out == Returned([if id in s.results then s.results[id] else ToolResult(id, ASK_USER, true, Output(answer))]))
      && e.s.askAnswered && Extends(s, e.s)
  {
    RunBalanced(cfg, w, inputs);
    var s := Run(cfg, w, inputs);
    assert s.pendingCalls == [s.pendingCalls[0]];
    AnswerThenResume(cfg, w, s, s.pendingCalls[0], answer);
  }

  lemma AnswerThenResume(cfg: Config, w: World, s: State, call: ToolCall, answer: string)
    requires s.frame == AwaitAnswer && s.answer == Pending && s.pendingCalls == [call]
    ensures
      var asked := Step(cfg, w, s, SubmitAnswer(answer));
      var e := Step(cfg, w, asked.s, Resume);
      && asked.out == Accepted && e.s.askAnswered && Extends(s, e.s)
      && e.out == Returned([if call.callId in s.results then s.results[call.callId]
                            else ToolResult(call.callId, call.name, true, Output(answer))])
  {
    var s1 := Step(cfg, w, s, SubmitAnswer(answer)).s;
    FinishAskAnswers(s1, call, answer);
    assert Extends(s, s1);
    ExtendsTransitive(s, s1, FinishAsk(s1, answer).s);
  }

  /**
   * A question past authorization: alone and with a text it is put to the user, alone and without one it is refused
   * unless its id has a result, with other calls the batch fails.
   */
  lemma QuestionPut(cfg: Config, w: World, s: State, calls: Batch, how: Method, status: Status, decision: Decision, c: ToolCall)
    requires c in calls && c.name == ASK_USER && status != Denied && (status == RequiresApproval ==> decision == ApproveOnce)
    ensures
      var e := Proceed(cfg, w, s, calls, how, status, decision);
      && Extends(s, e.s)
      && (|calls| > 1 ==> e.out == Raised(AskNotAlone))
      && (|calls| == 1 && !IsBlank(ArgText(c, "question")) ==>
            e.out == Suspended && e.s.frame == AwaitAnswer && e.s.answer == Pending && e.s.pendingCalls == [c])
      && (|calls| == 1 && IsBlank(ArgText(c, "question")) ==>
            e.out.Returned? && |e.out.results| == 1 && (c.callId !in s.results ==> IsRefusal(e.out.results[0])))
  {
    if |calls| == 1 {
      assert calls == [c];
      var rs := [Refuse(c, QuestionMissing)];
      StoreAllQuiet(s, rs);
      var q := StoredWhich(s, rs, 0);
    }
  }
}
