/**
 * The tool gateway bridge as a step machine. A batch goes through preflight, authorization, a human wait,
 * the ask_user gate, the sandbox and command gate, delegation and result storage; the coroutine is cut at
 * its `await`s, and every effect is an event of the trace.
 */
module Bridge {
  import opened Text
  import opened ToolContracts
  import opened Approval
  import CG = CommandGate
  import Paths

  const ASK_USER := "ask_user"
  const TASK_DONE := "task_done"
  const BASH := "bash"

  const DOCUMENT_TOOLS: set<string> := { "word_edit_tool", "excel_edit_tool", "pdf_tool", "document_convert_tool" }
  const FILE_TOOLS: set<string> := DOCUMENT_TOOLS + { "str_replace_based_edit_tool", "json_edit_tool" }
  const SIDE_EFFECT_TOOLS: set<string> := FILE_TOOLS + { BASH }
  const PRE_ASK_READ_COMMANDS: set<string> := { "view", "read", "show", "list", "get" }
  const PRE_ASK_BLOCKED_TOOLS: set<string> := SIDE_EFFECT_TOOLS + { TASK_DONE }

  // ---------------------------------------------------------------- configuration

  datatype BashGate = BashGate(allowedPrefixes: seq<string>, cwd: string, mode: Mode, policy: CG.Policy, declared: seq<string>)

  datatype Approver = AllowAll | DenyAll | CachedJudge

  datatype Config = Config(mode: Mode, tools: map<string, Descriptor>, policy: GatewayPolicy, gate: Option<BashGate>,
                           root: Option<string>, approver: Approver, askGate: bool, runId: string, conversationId: string)

  datatype RawPolicy = RawPolicy(mode: Mode, allowed: Option<seq<string>>, approvalRequired: Option<seq<string>>,
                                 tools: seq<Descriptor>)

  predicate IsMcp(name: string) {
    StartsWith(name, "mcp.")
  }

  function ConfiguredTool(tools: seq<Descriptor>, name: string): Option<Descriptor> {
    if tools == [] then None
    else if tools[|tools| - 1].name == name then Some(tools[|tools| - 1])
    else ConfiguredTool(tools[..|tools| - 1], name)
  }

  function DescriptorFor(raw: RawPolicy, name: string): Descriptor {
    var d := match ConfiguredTool(raw.tools, name)
      case Some(d) => d
      case None => Descriptor(name, "1", raw.mode == Default && (name in SIDE_EFFECT_TOOLS || IsMcp(name)), "");
    if raw.mode == Default && name == BASH then d.(requiresApproval := false) else d
  }

  function ToSet(xs: seq<string>): set<string> {
    set x | x in xs
  }

  function InitialPolicy(raw: RawPolicy, names: seq<string>): GatewayPolicy {
    match raw.mode
    case NoApproval => GatewayPolicy(ToSet(names), {})
    case Silent => GatewayPolicy((if raw.allowed.Some? then ToSet(raw.allowed.value) else {}) * ToSet(names), {})
    case Default =>
      var allowed := ToSet(if raw.allowed.Some? then raw.allowed.value else names);
      var approvals := if raw.approvalRequired.Some? then ToSet(raw.approvalRequired.value) else SIDE_EFFECT_TOOLS * allowed;
      GatewayPolicy(allowed, approvals + { BASH })
  }

  /** The bridge constructor followed by the adapter's MCP widening; the gate runs in the bridge's mode. */
  function Initialize(raw: RawPolicy, names: seq<string>, prefixes: seq<string>, cwd: string, commands: CG.Policy,
                      declared: seq<string>, root: Option<string>, approver: Approver, runId: string, conversationId: string): Config
  {
    var policy := InitialPolicy(raw, names);
    Config(raw.mode, map n | n in names :: DescriptorFor(raw, n),
           policy.(allowed := policy.allowed + set n | n in names && IsMcp(n)),
           Some(BashGate(prefixes, cwd, raw.mode, commands, declared)), root, approver, ASK_USER in policy.allowed,
           runId, conversationId)
  }

  /** What every configuration built by `Initialize` satisfies. */
  ghost predicate Wired(cfg: Config) {
    && cfg.gate.Some? && cfg.gate.value.mode == cfg.mode
    && (cfg.mode == Default ==> BASH in cfg.policy.approvalRequired)
    && (cfg.mode == Default && BASH in cfg.tools ==> !cfg.tools[BASH].requiresApproval)
    && (cfg.askGate <==> ASK_USER in cfg.policy.allowed)
  }

  lemma InitializeWires(raw: RawPolicy, names: seq<string>, prefixes: seq<string>, cwd: string, commands: CG.Policy,
                        declared: seq<string>, root: Option<string>, approver: Approver, runId: string, conversationId: string)
    ensures Wired(Initialize(raw, names, prefixes, cwd, commands, declared, root, approver, runId, conversationId))
  {
    assert !IsMcp(ASK_USER) by {
      assert ASK_USER[0] == 'a';
    }
  }

  // ---------------------------------------------------------------- environment, state and events

  datatype Answer = Answer(success: bool, content: Content)

  /** The outside world: tokenizer and directory, the judge's n-th reply, the delegate's k-th answer in round n. */
  datatype World = World(host: CG.Host, judge: nat -> JudgeReply, delegate: (nat, nat) -> Answer)

  datatype Method = Sequential | Parallel

  datatype Future<T> = Absent | Pending | Done(value: T)

  datatype Frame = Idle | AwaitDecision | AwaitAnswer

  datatype Kind = ApprovalKind | QuestionKind

  datatype Event =
    | CallEmitted(call: ToolCall)
    | AuthorizationEmitted(status: Status)
    | InteractionRequested(kind: Kind, calls: Batch)
    | GateChecked(callId: string, tier: Option<CG.Tier>, allowed: bool, source: string)
    | SandboxWarning(callId: string)
    | ResultEmitted(result: ToolResult, stored: bool)
    | Decided(calls: Batch, decision: Decision)
    | Answered(answer: string)
    | Judged(request: Request, allowed: bool)
    | Delegated(calls: Batch, batch: Batch)
    | Failed(error: Error)

  datatype State = State(frame: Frame, pendingBatch: Option<Batch>, pendingStatus: Option<Status>, pendingCalls: Batch,
                         pendingMethod: Option<Method>, decision: Future<Decision>, answer: Future<string>,
                         results: map<string, ToolResult>, askAnswered: bool, cache: Cache, rounds: nat,
                         trace: seq<Event>)

  const INITIAL := State(Idle, None, None, [], None, Absent, Absent, map[], false, EMPTY, 0, [])

  datatype Outcome = Suspended | Returned(results: seq<ToolResult>) | Raised(error: Error) | Accepted | NotEnabled

  datatype Ended = Ended(s: State, out: Outcome)

  datatype Input =
    | Execute(calls: Batch, how: Method)
    | ExecuteRestored(calls: Batch, how: Method, decision: Decision)
    | Approve(decision: Decision)
    | SubmitAnswer(answer: string)
    | RestoreAnswer(answer: string)
    | Resume

  function Emit(s: State, e: Event): State {
    s.(trace := s.trace + [e])
  }

  // ---------------------------------------------------------------- pure checks

  /** The tier preflight sees: declared prefixes are not passed. */
  function PreflightTier(cfg: Config, w: World, call: ToolCall): Option<CG.Tier> {
    if call.name != BASH || cfg.gate.None? then None
    else if IsBlank(ArgText(call, "reason")) then Some(CG.Blocked)
    else
      var g := cfg.gate.value;
      Some(CG.Classify(ArgText(call, "command"), g.allowedPrefixes, g.cwd, g.policy, [], w.host).tier)
  }

  /** The verdict the gate sees: declared prefixes are passed. */
  function GateVerdict(g: BashGate, w: World, call: ToolCall): CG.Verdict {
    CG.Classify(ArgText(call, "command"), g.allowedPrefixes, g.cwd, g.policy, g.declared, w.host)
  }

  function PreflightBlocked(cfg: Config, w: World, calls: Batch): set<string> {
    set c | c in calls && PreflightTier(cfg, w, c) == Some(CG.Blocked) :: c.callId
  }

  predicate AllBashSafe(cfg: Config, w: World, calls: Batch) {
    && (exists c :: c in calls && PreflightTier(cfg, w, c).Some?)
    && (forall c :: c in calls && PreflightTier(cfg, w, c).Some? ==> PreflightTier(cfg, w, c) == Some(CG.Safe))
  }

  function EffectivePolicy(cfg: Config, allSafe: bool, restored: Option<Decision>): GatewayPolicy {
    if cfg.mode != Default || !allSafe || restored.Some? then cfg.policy
    else cfg.policy.(approvalRequired := cfg.policy.approvalRequired - { BASH })
  }

  predicate BlockedBeforeAsk(call: ToolCall) {
    call.name in PRE_ASK_BLOCKED_TOOLS && (call.name == TASK_DONE || ArgText(call, "command") !in PRE_ASK_READ_COMMANDS)
  }

  function PathKeys(name: string): seq<string> {
    if name == "document_convert_tool" then ["input_path", "output_path"] else ["path"]
  }

  /** A path argument the sandbox looks at: a string that is not blank. */
  function PathArg(call: ToolCall, key: string): Option<string> {
    if key in call.arguments && call.arguments[key].Str? && !IsBlank(call.arguments[key].text)
    then Some(call.arguments[key].text) else None
  }

  predicate PathInside(w: World, root: string, p: string) {
    var at := Paths.Resolve(w.host.workingDir, root);
    Paths.Within(Paths.Resolve(at, p), at)
  }

  function FirstEscape(w: World, root: string, call: ToolCall, keys: seq<string>): Option<string> {
    if keys == [] then None
    else
      var p := PathArg(call, keys[0]);
      if p.Some? && !PathInside(w, root, p.value) then p else FirstEscape(w, root, call, keys[1..])
  }

  function SandboxProblem(cfg: Config, w: World, call: ToolCall): Option<string> {
    if call.name !in FILE_TOOLS || cfg.root.None? then None
    else FirstEscape(w, cfg.root.value, call, PathKeys(call.name))
  }

  // ---------------------------------------------------------------- the gate, call by call

  datatype GateOutcome = GateOutcome(allowed: bool, tier: Option<CG.Tier>, source: string)

  function ApprovalRequest(cfg: Config, g: BashGate, w: World, call: ToolCall): Request {
    var v := GateVerdict(g, w, call);
    Request(ArgText(call, "command"), ArgText(call, "reason"), v.tier, v.reason, g.mode, g.cwd, g.allowedPrefixes,
            cfg.runId, cfg.conversationId)
  }

  /** Ask the configured approver; the cached judge remembers, the other two are constant. */
  function Consult(cfg: Config, w: World, s: State, r: Request): (State, CommandApproval) {
    match cfg.approver
    case AllowAll => (s, CommandApproval(true, "approver disabled", "allow-all"))
    case DenyAll => (s, CommandApproval(false, "no command approver is configured", "deny-all"))
    case CachedJudge =>
      var (cache, v) := Approval.Approve(w.judge, s.cache, r);
      if CacheKey(r) in s.cache.verdicts then (s, v)
      else (Emit(s.(cache := cache), Judged(r, v.allowed)), v)
  }

  function CheckBash(cfg: Config, g: BashGate, w: World, s: State, call: ToolCall): (State, GateOutcome) {
    if g.mode == NoApproval then (s, GateOutcome(true, None, "mode"))
    else if IsBlank(ArgText(call, "reason")) then (s, GateOutcome(false, None, "gate"))
    else
      var tier := GateVerdict(g, w, call).tier;
      match tier
      case Safe => (s, GateOutcome(true, Some(tier), "gate"))
      case Blocked => (s, GateOutcome(false, Some(tier), "gate"))
      case Risky =>
        if g.mode != Silent then (s, GateOutcome(true, Some(tier), "human"))
        else
          var (s', v) := Consult(cfg, w, s, ApprovalRequest(cfg, g, w, call));
          (s', GateOutcome(v.allowed, Some(tier), v.source))
  }

  function CallProblem(cfg: Config, w: World, s: State, call: ToolCall): (State, Option<Refusal>) {
    var escape := if cfg.mode == Silent then SandboxProblem(cfg, w, call) else None;
    if escape.Some? then (Emit(s, SandboxWarning(call.callId)), Some(OutsideWorkspace(escape.value)))
    else if call.name != BASH || cfg.gate.None? then (s, None)
    else
      var (s', o) := CheckBash(cfg, cfg.gate.value, w, s, call);
      (Emit(s', GateChecked(call.callId, o.tier, o.allowed, o.source)),
       if o.allowed then None else Some(RefusedByGate(o.source)))
  }

  /** The first loop of `_dispatch`: the refused call ids with their reasons. */
  function Screen(cfg: Config, w: World, s: State, calls: Batch): (State, map<string, Refusal>) {
    if calls == [] then (s, map[])
    else
      var (s1, blocked) := Screen(cfg, w, s, calls[..|calls| - 1]);
      var call := calls[|calls| - 1];
      var (s2, problem) := CallProblem(cfg, w, s1, call);
      (s2, if problem.Some? then blocked[call.callId := problem.value] else blocked)
  }

  function Survivors(calls: Batch, blocked: map<string, Refusal>): Batch {
    if calls == [] then []
    else
      var front := Survivors(calls[..|calls| - 1], blocked);
      var call := calls[|calls| - 1];
      if call.callId in blocked then front else front + [call]
  }

  /** The delegate's answers of one round, by call id; a repeated id keeps the last answer. */
  function RoundAnswers(w: World, round: nat, calls: Batch): map<string, ToolResult> {
    if calls == [] then map[]
    else
      var k := |calls| - 1;
      var a := w.delegate(round, k);
      RoundAnswers(w, round, calls[..k])[calls[k].callId := ToolResult(calls[k].callId, calls[k].name, a.success, a.content)]
  }

  predicate Answerable(calls: Batch, blocked: map<string, Refusal>, executed: map<string, ToolResult>) {
    forall c | c in calls :: c.callId in blocked || c.callId in executed
  }

  function Ordered(calls: Batch, blocked: map<string, Refusal>, executed: map<string, ToolResult>): seq<ToolResult>
    requires Answerable(calls, blocked, executed)
  {
    seq(|calls|, i requires 0 <= i < |calls| =>
      if calls[i].callId in blocked then Refuse(calls[i], blocked[calls[i].callId])
      else assert calls[i] in calls; executed[calls[i].callId])
  }

  // ---------------------------------------------------------------- results

  function ClearPending(s: State): State {
    s.(pendingBatch := None, pendingStatus := None, pendingCalls := [], pendingMethod := None,
       decision := Absent, answer := Absent)
  }

  function StoreOne(s: State, r: ToolResult): (State, ToolResult) {
    var kept := if r.callId in s.results then s.results[r.callId] else r;
    (Emit(s.(results := s.results[r.callId := kept]), ResultEmitted(kept, true)), kept)
  }

  function StoreAll(s: State, rs: seq<ToolResult>): (State, seq<ToolResult>) {
    if rs == [] then (s, [])
    else
      var (s1, front) := StoreAll(s, rs[..|rs| - 1]);
      var (s2, last) := StoreOne(s1, rs[|rs| - 1]);
      (s2, front + [last])
  }

  function Store(s: State, rs: seq<ToolResult>): Ended {
    var (s', unique) := StoreAll(s, rs);
    Ended(ClearPending(s').(frame := Idle), Returned(unique))
  }

  function EmitResults(s: State, rs: seq<ToolResult>): State {
    if rs == [] then s
    else Emit(EmitResults(s, rs[..|rs| - 1]), ResultEmitted(rs[|rs| - 1], false))
  }

  function Rejected(s: State, calls: Batch, why: Refusal): Ended {
    var rs := RefuseAll(calls, why);
    Ended(ClearPending(EmitResults(s, rs)).(frame := Idle), Returned(rs))
  }

  // ---------------------------------------------------------------- _execute, cut at its awaits

  lemma {:induction false} SurvivorsAnswered(w: World, round: nat, calls: Batch, blocked: map<string, Refusal>)
    ensures Answerable(calls, blocked, RoundAnswers(w, round, Survivors(calls, blocked)))
  {
    forall c | c in calls && c.callId !in blocked ensures c.callId in RoundAnswers(w, round, Survivors(calls, blocked)) {
      SurvivorsExact(calls, blocked);
      AnswersKeys(w, round, Survivors(calls, blocked), c);
    }
  }

  lemma {:induction false} SurvivorsExact(calls: Batch, blocked: map<string, Refusal>)
    ensures forall c :: c in Survivors(calls, blocked) <==> c in calls && c.callId !in blocked
  {
    if calls != [] {
      SurvivorsExact(calls[..|calls| - 1], blocked);
      assert calls == calls[..|calls| - 1] + [calls[|calls| - 1]];
    }
  }

  lemma {:induction false} AnswersKeys(w: World, round: nat, calls: Batch, c: ToolCall)
    requires c in calls
    ensures c.callId in RoundAnswers(w, round, calls)
  {
    var k := |calls| - 1;
    if calls[k] != c {
      assert calls == calls[..k] + [calls[k]];
      AnswersKeys(w, round, calls[..k], c);
    }
  }

  /** Hand `calls`, what is left of `batch`, to the delegate. */
  function Delegate(s: State, calls: Batch, batch: Batch): State {
    if calls == [] then s else Emit(s, Delegated(calls, batch)).(rounds := s.rounds + 1)
  }

  function Dispatch(cfg: Config, w: World, s: State, calls: Batch): Ended {
    var (s1, blocked) := Screen(cfg, w, s, calls);
    var remaining := Survivors(calls, blocked);
    SurvivorsAnswered(w, s1.rounds, calls, blocked);
    Store(Delegate(s1, remaining, calls), Ordered(calls, blocked, RoundAnswers(w, s1.rounds, remaining)))
  }

  function AskUser(s: State, calls: Batch, how: Method): Ended {
    if |calls| != 1 then Ended(Emit(s, Failed(AskNotAlone)).(frame := Idle), Raised(AskNotAlone))
    else if IsBlank(ArgText(calls[0], "question")) then Store(s, [Refuse(calls[0], QuestionMissing)])
    else
      Ended(Emit(s.(frame := AwaitAnswer, pendingBatch := Some(calls), pendingCalls := calls, pendingMethod := Some(how),
                    answer := Pending), InteractionRequested(QuestionKind, calls)), Suspended)
  }

  /** Everything after the approval wait; `decision` is irrelevant unless approval is required. */
  function Proceed(cfg: Config, w: World, s: State, calls: Batch, how: Method, status: Status, decision: Decision): Ended {
    if status == Denied then Rejected(s, calls, NotAuthorized(Refusals(calls, cfg.tools, cfg.policy)))
    else if status == RequiresApproval && decision == Reject then Rejected(s, calls, RejectedByUser)
    else if exists c :: c in calls && c.name == ASK_USER then AskUser(s, calls, how)
    else if cfg.askGate && !s.askAnswered && exists c :: c in calls && BlockedBeforeAsk(c) then
      Rejected(s, calls, AskFirst(set c | c in calls && BlockedBeforeAsk(c) :: c.name))
    else Dispatch(cfg, w, s, calls)
  }

  function EmitCalls(s: State, calls: Batch): State {
    if calls == [] then s
    else Emit(EmitCalls(s, calls[..|calls| - 1]), CallEmitted(calls[|calls| - 1]))
  }

  function Suspend(s: State, calls: Batch, how: Method): State {
    Emit(s.(frame := AwaitDecision, pendingBatch := Some(calls), pendingStatus := Some(RequiresApproval),
            pendingCalls := calls, pendingMethod := Some(how), decision := Pending),
         InteractionRequested(ApprovalKind, calls))
  }

  /** Authorization, and the wait if a human must decide. */
  function AuthorizeBatch(cfg: Config, w: World, s: State, calls: Batch, how: Method, restored: Option<Decision>): Ended {
    var status := Decide(calls, cfg.tools, EffectivePolicy(cfg, AllBashSafe(cfg, w, calls), restored));
    var s2 := Emit(s, AuthorizationEmitted(status));
    if status == RequiresApproval && restored.None? then Ended(Suspend(s2, calls, how), Suspended)
    else Proceed(cfg, w, s2, calls, how, status, if restored.Some? then restored.value else Reject)
  }

  /** Where a batch starts: a restored decision is logged first. */
  function Opening(s: State, calls: Batch, restored: Option<Decision>): State {
    if restored.Some? then Emit(s, Decided(calls, restored.value)) else s
  }

  function Begin(cfg: Config, w: World, s: State, calls: Batch, how: Method, restored: Option<Decision>): Ended {
    var s1 := EmitCalls(Opening(s, calls, restored), calls);
    var blocked := PreflightBlocked(cfg, w, calls);
    if blocked != {} && |blocked| == |calls| then Store(s1, RefuseAll(calls, ForbiddenCommand))
    else AuthorizeBatch(cfg, w, s1, calls, how, restored)
  }

  /** `ask_user`'s answer becomes the tool result. */
  function FinishAsk(s: State, answer: string): Ended {
    if s.pendingCalls == [] then Ended(s, NotEnabled)
    else
      var call := s.pendingCalls[0];
      Store(s.(askAnswered := true), [ToolResult(call.callId, call.name, true, Output(answer))])
  }

  /**
   * One step. The agent awaits each batch before it sends the next, so `Execute` and `ExecuteRestored` are
   * enabled only when no batch is suspended; `Resume` is the event loop picking up a completed future.
   */
  function Step(cfg: Config, w: World, s: State, input: Input): Ended {
    match input
    case Execute(calls, how) =>
      if s.frame != Idle then Ended(s, NotEnabled) else Begin(cfg, w, s, calls, how, None)
    case ExecuteRestored(calls, how, decision) =>
      if s.frame != Idle then Ended(s, NotEnabled) else Begin(cfg, w, s, calls, how, Some(decision))
    case Approve(decision) =>
      if s.decision != Pending then Ended(s, Raised(NotWaitingForApproval))
      else Ended(Emit(s.(decision := Done(decision)), Decided(s.pendingCalls, decision)), Accepted)
    case SubmitAnswer(answer) =>
      if s.answer != Pending then Ended(s, Raised(NotWaitingForAnswer))
      else Ended(Emit(s.(answer := Done(answer)), Answered(answer)), Accepted)
    case RestoreAnswer(answer) =>
      if s.frame != Idle then Ended(s, NotEnabled)
      else Ended(Emit(s.(askAnswered := true), Answered(answer)), Accepted)
    case Resume =>
      if s.frame == AwaitDecision && s.decision.Done? && s.pendingStatus.Some? && s.pendingMethod.Some? then
        Proceed(cfg, w, s, s.pendingCalls, s.pendingMethod.value, s.pendingStatus.value, s.decision.value)
      else if s.frame == AwaitAnswer && s.answer.Done? then FinishAsk(s, s.answer.value)
      else Ended(s, NotEnabled)
  }

  function Run(cfg: Config, w: World, inputs: seq<Input>): State {
    if inputs == [] then INITIAL
    else Step(cfg, w, Run(cfg, w, inputs[..|inputs| - 1]), inputs[|inputs| - 1]).s
  }
}
