# AgentSupport: verified core

AgentSupport runs coding agents in sessions. Every tool batch an agent sends passes a gateway; every event goes to a
numbered log that clients stream; a paused run is bound to a checkpoint; tenants declare command prefixes that need no
approval; evaluation runs measure the agents. This project models the logic behind those promises in Dafny and proves
them for all inputs, all runs and all interleavings. `dafny verify dfyconfig.toml` checks the whole project.

How the model is laid out:

- `CommandGate`, `TenantPreset`, `Approval`, `ToolContracts`, `Executor`: the SAFE / RISKY / BLOCKED classifier, the
  tenant's declared prefixes, the cached judge, batch authorization, and the de-duplicating executor under every
  interleaving of its requests.
- `Bridge`: `TraeToolGatewayBridge` as a step machine. Its coroutine is cut at its `await`s and every effect (tool.call,
  tool.result, human decision, judge verdict, delegation) is an event of the trace. `BridgeSafety` proves what is never
  delegated, `BridgeOutcome` what is, and what every result holds, `BridgeLedger` proves that calls and results balance,
  `BridgeObject` is the class with the mutable fields:
  it is always where its inputs lead, so it promises to its callers what is proved of runs.
- `Checkpoint`: checkpoint creation, `validate_checkpoint` and the checks at the start of `resume`.
- `EventStore` with `EventStream` (same file), `SessionStream`, `SessionContext`: the log, the condition-variable protocol,
  the per-conversation cursors, and the history sent with a run.
- `EvalRun`, `AutoAnswer`, `EvalReport`: bounded concurrency, the auto-answer loop, summaries and comparisons.
- `RunRegistry`, `Partitions`: retention of terminal runs, and the calendar arithmetic of the monthly partitions.
- `Text`, `Paths`, `Sorting`, `Digests`: Python's `strip`/`split`/`join`, lexical paths, stable sorting, injective digests.

Modelling decisions:

- Hashes are function parameters; `Digests.Injective` (or `Checkpoint.Collisionless`) is required only where a theorem
  needs it. The approval cache key is the tuple of the fields it digests.
- `shlex.split` is an arbitrary partial function of the `Host`; paths are resolved lexically, without symbolic links;
  whitespace is Python's `str.isspace` set; `lower()` is ASCII.
- The judge, the tool handlers, the delegate, the clocks and the case outcomes are arbitrary functions of how often they
  were asked, so every theorem holds for every behaviour of theirs. The delegate answers each call it is handed once,
  under the call's id.
- The agent awaits one batch before it sends the next, so a batch starts only when none is suspended. `Resume` is the
  event loop picking up a completed future. A human decision is logged when it is made; a decision restored from a
  checkpoint is logged when its batch starts.
- Texts of refusals are abbreviated to datatype values; the gate's reason texts are a datatype too.

Where the code and its own words disagree, the model follows the code:

- The executor caches results by call id so that an approved call runs once. `Executor.OverlapRunsTwice` gives two
  overlapping requests that run it twice; `AtMostOnceIff` says exactly when that happens, `ApartRunsOnce` what a caller
  can do about it.
- `RunRegistry.prune` says that active runs are never pruned. `RunRegistry.ResumedRunIsDropped` gives a history in which one
  is, a run resumed after it completed; `NeverDropsIff` says exactly which histories are safe from it and
  `PlainNeverDropsActive` what a caller can check.
- `prune` says that it returns the number of runs removed. `RunRegistry.PruneCounts` shows that this is so exactly when the
  cap is not negative.
- The tool versions hash does not cover approval flags or descriptions: `Checkpoint.ResumeIff` states exactly what a
  resumed bridge may differ in.

## Model

| member | source | states |
|---|---|---|
| CommandGate.TierIff | src/session_runner/security/command_gate.py:145-222 | SAFE and BLOCKED characterised without the checks' own helpers: a command is SAFE iff it is not empty, has no composing character, tokenizes, is not denied, and either starts with a declared prefix's words or is a whitelisted command from a trusted place none of whose arguments makes `sort` write and each of which, options aside, resolves inside an allowed prefix; BLOCKED iff empty or denied |
| CommandGate.TighteningNeverRelaxes | src/session_runner/security/command_gate.py:124-222 | for any two policies of which one has fewer safe and more denied commands, no command gets a more permissive tier under the tighter one |
| CommandGate.TightenedNeverRelaxes | src/session_runner/security/command_gate.py:131-139 | `tightened` is such a tightening whatever the deployment lists contain |
| CommandGate.TightenedExact | src/session_runner/security/command_gate.py:131-139 | it takes from the safe list and adds to the denied list exactly the listed names, stripped and in lower case |
| CommandGate.TightenedBites | src/session_runner/security/command_gate.py:131-139 | a plain command whose executable was added is BLOCKED; one taken off the list is SAFE only by a declared prefix |
| CommandGate.DeclaredPrefixesEffect | src/session_runner/security/command_gate.py:145-222 | declaring prefixes turns exactly the matching, comparable commands SAFE and leaves every other verdict, reason included, as it was |
| CommandGate.DeclaredOnlyRelaxesRisky | src/session_runner/security/command_gate.py:145-222 | declared prefixes only ever move RISKY to SAFE; with and without them the gate agrees on BLOCKED |
| CommandGate.MatchDeclaredFinds | src/session_runner/security/command_gate.py:232-243 | a prefix is found iff some declared prefix matches, and it is the first that does |
| Paths.ResolveIsFinal | src/session_runner/security/command_gate.py:208-215 | resolving leaves no `.` or `..`, and resolving the resolved path again, from anywhere, gives it back |
| Paths.ResolveInSteps | src/session_runner/security/command_gate.py:208-215 | a relative path is followed part by part |
| Paths.ResolveParts | src/session_runner/security/command_gate.py:208-215 | a name goes down, `..` goes up and stays put at the root, `.` and the empty path stay, an absolute path ignores its base |
| Paths.UpUndoesDown | src/session_runner/adapters/trae.py:942-956 | going into a name and back out is not going; from a child one level up is its parent |
| Paths.InsideIff | src/session_runner/adapters/trae.py:942-956 | a relative path stays inside its directory iff its shortest form goes up no level or comes back down through the very names it went up |
| Paths.GoingUpEscapes | src/session_runner/adapters/trae.py:942-956 | a path whose `..` outnumber the names before them is outside unless it re-enters |
| Paths.NameIsLast | src/session_runner/security/command_gate.py:180-181 | the executable's name is what follows the last slash |
| Text.StripExact | src/session_runner/security/command_gate.py:162-164 | stripping removes the whitespace at both ends, all of it and nothing else; blank means all whitespace |
| Text.LowerExact | src/session_runner/security/command_gate.py:131-139 | lower-casing keeps the length and every character but the capitals, each of which becomes its small letter |
| Paths.DownStaysInside | src/session_runner/adapters/trae.py:942-956 | a relative path without `..` always resolves inside the directory it is taken from |
| TenantPreset.NormalizeKeepsTokens | src/agentsupport/domain/tenant_preset.py:41-49 | normalising a prefix keeps its tokens and is idempotent; `safe_prefix_tokens` is `split()` |
| TenantPreset.CanonicalClean | src/agentsupport/domain/tenant_preset.py:80-95 | the normalised prefixes of an app are distinct, not empty and each already normalised |
| TenantPreset.CliPolicyFromFields | src/agentsupport/domain/tenant_preset.py:219-240 | the nested appending loops compute the canonical list of all apps' prefixes: distinct, not empty, normalised |
| TenantPreset.MatchCanonical | src/agentsupport/domain/tenant_preset.py:219-226 | normalising and de-duplicating a prefix list changes no match: same command, same declared prefix up to spelling |
| TenantPreset.PolicyPreservesGate | src/agentsupport/domain/tenant_preset.py:189-240 | for every command the gate's verdict under the resolved, normalised, flattened, de-duplicated prefixes equals its verdict under the raw prefixes of the tenant's own apps if it has any, else of the default preset's |
| TenantPreset.NormalizedIdempotent | src/agentsupport/domain/tenant_preset.py:80-120 | normalising a whole preset twice is normalising it once |
| TenantPreset.NormalizedAppKeeps | src/agentsupport/domain/tenant_preset.py:58-95 | normalising an app keeps its id, description and package, the words of its entry and daemon, and exactly its non-empty environment names and normalised prefixes, each once |
| TenantPreset.NormalizedKeeps | src/agentsupport/domain/tenant_preset.py:110-120 | normalising a preset keeps its apps in order and exactly its non-empty skills and environment names, each once |
| TenantPreset.HashIgnoresNormalisation | src/agentsupport/domain/tenant_preset.py:155-186 | the content hash of a preset is that of its normal form |
| TenantPreset.HashIdentifiesContent | src/agentsupport/domain/tenant_preset.py:155-186 | two presets share a content hash iff they normalise alike, timestamps aside, and have the same package digests |
| ToolContracts.NotDenied | src/agent_runner_contracts/tools.py:74-95 | a batch that is not denied names only described and allowed tools |
| ToolContracts.ArgTextMeans | src/session_runner/adapters/trae.py:742-746 | an absent, null or false argument reads as empty, a text as itself, any other value as it is rendered |
| ToolContracts.RestoreUndoesSave | src/agent_runner_contracts/tools.py:97-112 | `restore` undoes `checkpoint`; every altered batch and every altered authorization hash is refused |
| Executor.RunFlights | src/session_runner/tools/gateway.py:46-91 | over every interleaving a request's results line up with its calls by call id, and what it returns is what it gathered, or the refusal its checks demand |
| Executor.AtMostOnceIff | src/session_runner/tools/gateway.py:60-70 | over every interleaving of `execute` calls an id's handler runs at most once iff no request reaches the uncached id, with a handler for it, while another request awaits that handler |
| Executor.TouchedOnceIff | src/session_runner/tools/gateway.py:60-70 | an id is found uncached at most once iff no request reaches it uncached while another awaits its handler |
| Executor.OverlapRunsTwice | src/session_runner/tools/gateway.py:60-85 | the same approved batch sent twice before its handler returns runs the handler twice, and a later replay returns the second result, not the first |
| Executor.ApartRunsOnce | src/session_runner/serving/http/app.py:126-131 | what a caller can do: if a request is started only when it shares no uncached id with a batch in flight, no requests clash and every handler runs at most once |
| Executor.SequentialIsApart | src/session_runner/serving/http/app.py:126-131 | in particular one request at a time is enough |
| Executor.ReplayReturnsFirst | src/session_runner/tools/gateway.py:46-70 | over every interleaving without a clash on an id all admitted requests report the same result for it, whatever happened before, in between and in other batches |
| Executor.ReplyBecomesResult | src/session_runner/tools/gateway.py:72-85 | over every interleaving a handler's reply becomes the result of the call it was invoked for, successful with the value or unsuccessful with what was raised, reported and cached |
| Executor.TurnedAway | src/session_runner/tools/gateway.py:52-59 | a request that is not admitted gets an error iff the hash does not match or a needed decision is missing, else one unsuccessful result per call |
| Executor.AuthorizationBindsBatch | src/session_runner/tools/gateway.py:46-59 | an authorization issued for a batch admits a request iff it carries that very batch and the approval its status demands |
| Executor.OnlyAuthorizedRun | src/session_runner/tools/gateway.py:46-85 | over every interleaving with issued authorizations only described, allowed tools ran, and a tool that needs approval only in a batch a human approved |
| Executor.ToolGatewayExecutor.Execute | src/session_runner/tools/gateway.py:46-70 | `execute` up to its first wait leaves the object where its history leads; no other request is touched, and every id no requests overlapped on has run at most once |
| Executor.ToolGatewayExecutor.HandlerReturned | src/session_runner/tools/gateway.py:66-85 | so does the rest of it, after the awaited handler answered or raised |
| Approval.OneVerdictPerKey | src/session_runner/security/approval.py:130-144 | over every run of requests the judge is asked once per distinct key, about the first request with that key, and all requests with the key get the decision of its reply |
| Approval.CachingApprover.Decide | src/session_runner/security/approval.py:103-144 | a known key costs no question and a new one exactly one, about this request; the request is allowed iff the judge's reply to the one question with its key is parsed and allows; the cache stays faithful to the replies |
| Bridge.InitializeWires | src/session_runner/adapters/trae.py:527-607 | what every initialised bridge satisfies: gate and bridge share the mode, default mode always gates bash by policy and not by descriptor, and the ask gate is on iff ask_user is allowed even after MCP tools are added |
| Bridge.SurvivorsAnswered | src/session_runner/adapters/trae.py:725-735 | after a dispatch every call of the batch is refused or answered, so no lookup fails |
| BridgeSafety.PreflightSafeMeansGateSafe | src/session_runner/adapters/trae.py:737-779 | the bridging lemma: a bash call in a batch that preflight, without declared prefixes, found all safe is SAFE for the gate, with them |
| BridgeSafety.StepInv | src/session_runner/adapters/trae.py:618-735 | every step keeps the run invariant: safe trace, justified cache, recorded answers, and a waiting batch whose decision is the last event |
| BridgeSafety.RunInv | src/session_runner/adapters/trae.py:618-735 | the invariant holds after every sequence of inputs |
| BridgeSafety.NeedsApprovalIff | src/session_runner/adapters/trae.py:545-598 | which tools of an initialised bridge need approval, in terms of the raw policy and the tool names alone, both directions and every mode |
| BridgeSafety.AllowedIff | src/session_runner/adapters/trae.py:545-598 | which tools it describes and allows, in the same terms |
| BridgeSafety.DefaultModeApproved | src/session_runner/adapters/trae.py:545-812 | default mode, every run: a delegated bash call has a reason and is not BLOCKED; a RISKY one, and every other call whose last descriptor requires approval, or that has none and is a side-effect or MCP tool, or that the raw policy lists, runs only after APPROVE_ONCE for the very batch it belongs to with nothing decided, delegated, answered or abandoned since; that batch is the one emitted and still unanswered |
| BridgeSafety.SilentModeConfined | src/session_runner/adapters/trae.py:781-956 | silent mode with the control plane's policy, every run: delegated calls name whitelist or MCP tools, file paths resolve inside the workspace, no BLOCKED bash call runs, and with the judge a RISKY one runs only if an identical request was allowed earlier in the run |
| BridgeSafety.AskGateHolds | src/session_runner/adapters/trae.py:691-906 | any mode, every run: ask_user is never delegated, and with ask_user in the policy no task_done and no non-read call to a write tool before a recorded answer |
| BridgeSafety.SuspendedAsked | src/session_runner/adapters/trae.py:663-686 | every run: a bridge that waits has published the batch it waits with |
| BridgeSafety.BeginDelegatesOwn | src/session_runner/adapters/trae.py:633-735 | a batch that is started delegates calls of its own only |
| BridgeSafety.ScreenDefault | src/session_runner/adapters/trae.py:716-723 | default mode: the ids screening holds back are exactly those of calls without a reason or BLOCKED |
| BridgeSafety.DispatchDelegatesTheRest | src/session_runner/adapters/trae.py:716-735 | default mode: dispatch delegates exactly the calls whose id no gate-refused call carries |
| BridgeSafety.SafeBatchNeedsNoClick | src/session_runner/adapters/trae.py:648-714 | default mode: a batch whose bash calls all look SAFE and whose other calls need no approval is dispatched without a human decision |
| BridgeOutcome.ApprovedBatchRuns | src/session_runner/adapters/trae.py:686-735 | every run: resuming an approved batch that is past the ask gate returns having delegated, once and in batch order, exactly its calls whose id no held-back call carries |
| BridgeOutcome.RestoredBatchRuns | src/session_runner/adapters/trae.py:628-735 | so does executing a restored batch with its approval |
| BridgeOutcome.RejectedBatchRefused | src/session_runner/adapters/trae.py:689-691 | every run: a rejected batch delegates nothing and every result is a refusal of its call |
| BridgeOutcome.RestoredRejectionRefused | src/session_runner/adapters/trae.py:689-691 | so does a restored batch that needs approval and was rejected |
| BridgeOutcome.DeniedBatchRefused | src/session_runner/adapters/trae.py:687-688 | so does a batch that names an unknown or a not allowed tool, whatever was decided |
| BridgeOutcome.BlockedOnlyRefused | src/session_runner/adapters/trae.py:648-658 | a batch made only of bash calls the gate would refuse is refused without a human; every other batch is authorized |
| BridgeOutcome.WaitsIff | src/session_runner/adapters/trae.py:660-686 | default mode: a batch of allowed calls waits for a human iff a call other than bash needs approval or a bash call does not look SAFE; then nothing is delegated |
| BridgeOutcome.PreflightVersusGate | src/session_runner/adapters/trae.py:737-750 | preflight and gate agree on BLOCKED, and on everything but what declared prefixes relax |
| BridgeOutcome.CallProblemIff | src/session_runner/adapters/trae.py:781-812 | a call is held back iff it leaves the workspace in silent mode, or is a gated bash call without a reason, BLOCKED, or RISKY in silent mode without the approver's leave |
| BridgeOutcome.HeldBackDefault | src/session_runner/adapters/trae.py:716-723 | default mode: an id is held back iff a bash call of the batch without a reason or BLOCKED carries it |
| BridgeOutcome.SandboxIff | src/session_runner/adapters/trae.py:929-956 | the sandbox stops a call iff it is a file tool's and one of its path arguments resolves outside the workspace |
| BridgeOutcome.NoApprovalUnrestricted | src/agentsupport/application/service.py:350-374 | no_approval conversations: no call is screened, every tool is allowed, and only configured descriptors ask |
| BridgeOutcome.DispatchReports | src/session_runner/adapters/trae.py:716-735 | each result of a dispatched batch is the one stored earlier for its id, else the delegate's answer of this round to the last call with its id, else a refusal |
| BridgeOutcome.ResultsTold | src/session_runner/adapters/trae.py:633-735 | every run, every batch that returns: the same told from the trace and the world alone, the round being the number of earlier delegations; without a delegation the results are refusals or repeat stored ones |
| BridgeOutcome.QuestionAnswered | src/session_runner/adapters/trae.py:893-906 | every run: the answer submitted to a waiting question becomes its one, successful result, nothing is delegated and the ask gate opens |
| BridgeOutcome.QuestionPut | src/session_runner/adapters/trae.py:835-892 | a question alone and with a text is put to the user, without a text refused, with other calls an error |
| BridgeLedger.StepSettles | src/session_runner/adapters/trae.py:633-735 | every step keeps calls and results balanced: a batch is answered in full, or suspended and owed in full, or written off by a raise |
| BridgeLedger.RunBalanced | src/session_runner/adapters/trae.py:633-1001 | every run: one tool.call and one tool.result per call, in batch order, nothing owed when idle, and the results emitted are exactly the results returned |
| BridgeLedger.DelegatesOwedBatch | src/session_runner/adapters/trae.py:716-735 | every run: what is delegated is part of the one batch whose calls were emitted and have no result yet |
| BridgeLedger.ReturnClearsPending | src/session_runner/adapters/trae.py:908-1001 | whenever a batch returns, by any path, its results align with its calls by call_id and all pending state is cleared |
| BridgeLedger.StoredOnce | src/session_runner/adapters/trae.py:908-927 | a result once stored for a call_id is the one every later stored result of the run reports |
| BridgeObject.TraeToolGatewayBridge.Execute | src/session_runner/adapters/trae.py:628-714 | after `_execute` ran to its first wait or its end the object is where its inputs lead; on return the results align with the calls by call_id and pending state is cleared; calls and results balance and every delegation so far was safe |
| BridgeObject.TraeToolGatewayBridge.Preflight | src/session_runner/adapters/trae.py:752-767 | the counting loop finds the ids of all BLOCKED bash calls and whether there are bash calls and all are SAFE |
| BridgeObject.TraeToolGatewayBridge.Dispatch | src/session_runner/adapters/trae.py:716-735 | screening, delegation and re-ordering into batch order |
| BridgeObject.TraeToolGatewayBridge.StoreResults | src/session_runner/adapters/trae.py:908-927 | the first result of every id is kept and reported, then pending state is cleared |
| BridgeObject.TraeToolGatewayBridge.Rejected | src/session_runner/adapters/trae.py:970-993 | one refusal per call in order, nothing stored, pending state cleared |
| BridgeObject.TraeToolGatewayBridge.Approve | src/session_runner/adapters/trae.py:618-621 | a decision is accepted iff one is awaited, and is logged for the pending batch; the same promises hold after it |
| BridgeObject.TraeToolGatewayBridge.SubmitAnswer | src/session_runner/adapters/trae.py:623-626 | an answer is accepted iff one is awaited, and is logged; the same promises hold after it |
| BridgeObject.TraeToolGatewayBridge.Resume | src/session_runner/adapters/trae.py:686-906 | the coroutine continues with the completed future; on return the results align with the batch that waited and pending state is cleared, and the same promises hold |
| BridgeObject.StepPromises | src/session_runner/adapters/trae.py:618-735 | those promises, for every step after every sequence of inputs |
| Checkpoint.PolicyHashIff | src/agent_runner_contracts/checkpoint.py:48-56 | the policy hash sees its two lists as multisets: order never matters, every other difference does |
| Checkpoint.VersionsHashIff | src/agent_runner_contracts/checkpoint.py:59-68 | the versions hash sees the tools as a multiset of name and version pairs |
| Checkpoint.ResumeIff | src/session_runner/adapters/trae.py:1230-1251 | a checkpoint resumes iff the bridge has the same allowed set, approval set and tool versions (versions are not bound when no tool was listed) and the pending calls are the published ones or were emptied; then it continues with exactly the published batch |
| Checkpoint.ApprovalIsForPublished | src/session_runner/adapters/trae.py:1220-1251 | pause to resumed run: whatever the pending calls were turned into on the way, a bridge whose checks pass and that executes with the approval delegates only calls of the batch the first bridge published, each cleared for that batch |
| Checkpoint.SelfChecks | src/agentsupport/application/checkpoint_ops.py:30-92 | a checkpoint of a published interaction passes `validate_checkpoint` and resume's checks in whatever order the tools are listed |
| Checkpoint.OwnCheckpointResumes | src/agentsupport/application/checkpoint_ops.py:30-92 | every run: a checkpoint built from the suspended bridge's own interaction validates and resumes on any bridge with the same policy and tools |
| Checkpoint.ValidateRefusesChanges | src/agent_runner_contracts/checkpoint.py:71-88 | a checkpoint validates iff its context is the one it was created with and the lease epoch is unchanged |
| Checkpoint.ValidateIff | src/agent_runner_contracts/checkpoint.py:71-88 | given the hashes of some batch, policy and tools it passes iff the epoch, the batch, the two policy sets and the tool versions are those of the checkpoint; a hash not given is not compared |
| Checkpoint.CreateWithoutPending | src/agentsupport/application/checkpoint_ops.py:30-92 | a checkpoint of a run that does not wait is bound by the conversation's policy and no batch |
| Checkpoint.CreateFromPartial | src/agentsupport/application/checkpoint_ops.py:45-60 | without a batch the interaction's calls and hash are kept; each policy list comes from the interaction if there, else from the conversation |
| Checkpoint.CheckpointStore.CreateCheckpoint | src/agentsupport/application/checkpoint_ops.py:30-110 | the step-by-step edits store the checkpoint the theorems are about, make it current and append the next numbered event; appending never conflicts |
| EventStore.LaterIsRest | src/agentsupport/adapters/notification/event_store.py:26-27 | on a numbered log the query after a cursor is a slice: nothing missing, nothing repeated |
| EventStore.InMemoryEventStore.Append | src/agentsupport/adapters/notification/event_store.py:18-24 | an event is accepted iff it carries the next number; logs stay numbered and other conversations are untouched |
| EventStore.InMemoryEventStore.List | src/agentsupport/adapters/notification/event_store.py:26-27 | the scan returns the rest of the log after the cursor |
| EventStream.RunInv | src/agentsupport/adapters/notification/event_store.py:29-57 | the protocol invariant holds under every interleaving of publishers, consumers and notifiers |
| EventStream.StreamExact | src/agentsupport/adapters/notification/event_store.py:34-57 | under every interleaving a consumer has received a prefix of the log after its start cursor, in order, without gap or duplicate |
| EventStream.AsPublishedAndAsked | src/agentsupport/adapters/notification/event_store.py:18-37 | the log is what was published, numbered from one, and every consumer starts where it asked to |
| EventStream.NoLostWakeup | src/agentsupport/adapters/notification/event_store.py:29-53 | a consumer that waits with a backlog always has an undelivered notification coming |
| EventStream.RestMeansDelivered | src/agentsupport/adapters/notification/event_store.py:29-57 | when nothing can move every consumer is waiting and has received the whole log after its start |
| EventStream.LostWakeupWithoutRecheck | src/agentsupport/adapters/notification/event_store.py:45-53 | without the re-check under the lock there is an interleaving that stalls a consumer on a backlog for ever |
| EventStream.InternalStepsDescend | src/agentsupport/adapters/notification/event_store.py:29-57 | every step other than a new event or consumer decreases a lexicographic measure |
| EventStream.EveryScheduleDelivers | src/agentsupport/adapters/notification/event_store.py:29-57 | liveness: from every reachable state every schedule comes to rest with everything delivered |
| SessionStream.PerConversationExact | src/agentsupport/application/event_ops.py:112-149 | over every run of polls, with logs growing and conversations appearing between them, what was yielded of a conversation is its log slice from the start cursor to its cursor |
| SessionStream.RoundComplete | src/agentsupport/application/event_ops.py:122-140 | a finished round has yielded everything logged before it began |
| SessionStream.RoundCovers | src/agentsupport/application/event_ops.py:122-140 | so a round yields everything that the session's conversations existing at its start had logged by then, whatever happens meanwhile |
| SessionStream.RoundDescends | src/agentsupport/application/event_ops.py:122-140 | every step inside a round brings its end nearer |
| SessionStream.OnlyThisSession | src/agentsupport/application/event_ops.py:129-140 | only events of the session's own conversations are yielded |
| SessionContext.SilentInterferenceIff | src/agentsupport/application/service.py:258-323 | adding silent conversations leaves another run's context unchanged iff every event they logged carries the run id of a silent conversation of the session |
| SessionContext.SilentDoesNotInterfere | src/agentsupport/application/service.py:258-323 | with events carrying their conversation's run id silent conversations never change any context |
| SessionContext.HistoryKept | src/agentsupport/application/service.py:422-449 | over every history of conversations with fresh ids and `_append` calls events carry their conversation's run id |
| SessionContext.SilentLeavesNoTrace | src/agentsupport/application/service.py:258-323 | over every such history: had any silent conversations never existed, with all their events, every conversation's context would be what it is |
| SessionContext.ContextSorted | src/agentsupport/application/service.py:314-323 | the context is in order of the written times |
| SessionContext.ContextHoldsEvents | src/agentsupport/application/service.py:274-323 | of the logs it holds exactly the events that some conversation of the session logged and whose run is no silent conversation's of the session |
| SessionContext.ContextSize | src/agentsupport/application/service.py:274-323 | and it holds nothing twice |
| SessionContext.ContextHoldsInstructions | src/agentsupport/application/service.py:295-313 | of the instructions it holds exactly those of the session's other, not silent conversations |
| Sorting.FilterSort | src/agentsupport/application/service.py:274-281 | the stable sort of the history commutes with filtering |
| Sorting.TiesKeepOrder | src/agentsupport/application/service.py:314-322 | items of one rank stand in their original order |
| EvalRun.BoundedConcurrency | src/agentsupport/evaluation/service.py:324-347 | at every moment of every interleaving at most `case_concurrency` cases are in flight |
| EvalRun.Isolation | src/agentsupport/evaluation/service.py:333-418 | over every interleaving on the shared workspace store a finished case has the result of its solo run on the baseline; it carries the case's id and task, is ERROR with the error if the baseline is missing, the clone fails or a step raises on what the earlier steps left, and else is the judge's verdict on what all steps left; the baseline is unchanged |
| EvalRun.LiveClonesSurvive | src/agentsupport/evaluation/service.py:378-425 | no step of a case, its clean-up included, touches the live clone of another |
| EvalRun.OthersDoNotMatter | src/agentsupport/evaluation/service.py:324-425 | whatever the other cases do instead, however many they are and however they are scheduled, a case's result stays the same |
| EvalRun.StoppedMeansComplete | src/agentsupport/evaluation/service.py:324-425 | when no action is enabled all cases are finished unless the semaphore admits nobody; results are one per case in dataset order, each meaning what Isolation says, every permit is back, and every clone, each under its own id, got exactly one clean-up attempt |
| EvalRun.StepsDescend | src/agentsupport/evaluation/service.py:324-347 | every step uses up work, so every schedule ends |
| AutoAnswer.AnswersHold | src/agentsupport/evaluation/service.py:463-517 | over any polls the answers are distinct, at most the limit, each to an interaction seen waiting; a failed submission was within the limit and new too |
| AutoAnswer.AnswersFirstWaited | src/agentsupport/evaluation/service.py:500-516 | while it runs the loop has answered exactly the first interactions seen waiting, as many as the limit permits |
| AutoAnswer.AlwaysEnds | src/agentsupport/evaluation/service.py:475-517 | with a finite timeout the loop ends against every environment, after at most one poll per permitted answer, one per second and one more |
| AutoAnswer.EndMeans | src/agentsupport/evaluation/service.py:477-503 | the loop hands over to the workflow's own wait iff a poll in time saw it over, which is its last poll; no poll before saw that |
| AutoAnswer.EndIsUnique | src/agentsupport/evaluation/service.py:475-517 | the loop ends in one way only |
| AutoAnswer.WaitWithAutoInput | src/agentsupport/evaluation/service.py:463-517 | the loop itself terminates by answers left, then time left, and ends as the iterations say |
| EvalReport.Summarize | src/agentsupport/evaluation/service.py:519-542 | the counting loops compute the verdict counts, the rounded pass rate among executed cases, the rounded total duration and the summed usage |
| EvalReport.PassRateShare | src/agentsupport/evaluation/service.py:523-524 | the pass rate is between 0 and 1, and 1 iff some case passed and every executed case did |
| EvalReport.PassRateTimes | src/agentsupport/evaluation/service.py:523-524 | it is the passes divided among the executed cases |
| EvalReport.UsageOfOne | src/agentsupport/evaluation/service.py:525-528 | what one result with one usage item contributes |
| EvalReport.UsageOfMore | src/agentsupport/evaluation/service.py:525-528 | usage items of one result add up, key by key |
| EvalReport.CountsPartition | src/agentsupport/evaluation/service.py:519-542 | the four verdict counts add up to the total |
| EvalReport.SummaryAdditive | src/agentsupport/evaluation/service.py:519-542 | counts, durations and usage of a concatenation are the sums, key by key |
| EvalReport.Compare | src/agentsupport/evaluation/service.py:588-630 | the loops compute the three counts and one delta per candidate case in order, about the last baseline item with its case id or, if none has it, the last with its task, and marked new iff there is neither |
| EvalReport.MatchingIs | src/agentsupport/evaluation/service.py:595-600 | the case id decides, the task text is the fallback, the last item wins |
| EvalReport.ImprovementsAreDifference | src/agentsupport/evaluation/service.py:613-615 | improvements are the cases that pass only in the candidate |
| EvalReport.RegressionsAreDifference | src/agentsupport/evaluation/service.py:610-612 | regressions are the candidate's cases that pass only in the baseline |
| EvalReport.CompareConserves | src/agentsupport/evaluation/service.py:588-630 | over the same distinct cases improvements minus regressions is the difference of the passed counts, and swapping the runs swaps the two |
| EvalReport.ChangesPartition | src/agentsupport/evaluation/service.py:599-621 | regressions, improvements, unchanged and new cases add up to the candidate |
| EvalReport.SelfUnchanged | src/agentsupport/evaluation/service.py:588-630 | a run compared with itself is all unchanged |
| RunRegistry.PruneExact | src/session_runner/application/run_registry.py:38-61 | `prune` drops exactly the stamps past the retention, then evicts none younger than one it keeps, and loses a run iff it loses its stamp |
| RunRegistry.PruneKeepsCap | src/session_runner/application/run_registry.py:53-60 | eviction stops exactly at the cap |
| RunRegistry.PruneCounts | src/session_runner/application/run_registry.py:38-61 | the returned number is the number of runs removed iff the cap is not negative |
| RunRegistry.HistoryValid | src/session_runner/application/run_registry.py:33-81 | after every history stamps are distinct and belong to registered runs |
| RunRegistry.StampsAreObservations | src/session_runner/application/run_registry.py:33-36 | a step adds a stamp only for the terminal run it observes, with the time of the observation |
| RunRegistry.ObservedIsStamped | src/session_runner/application/run_registry.py:33-36 | a terminal run that is observed has a stamp afterwards, and an earlier stamp stays |
| RunRegistry.CarefulIff | src/session_runner/application/run_registry.py:33-81 | a step keeps every stamped run terminal iff it puts no active status under a stamped id |
| RunRegistry.DropsActiveIff | src/session_runner/application/run_registry.py:38-61 | some prune would drop an active run iff some stamped run is not terminal |
| RunRegistry.NeverDropsActive | src/session_runner/application/run_registry.py:38-61 | over every history that puts no active status under a stamped id no prune at any time drops an active run |
| RunRegistry.NeverDropsIff | src/session_runner/application/run_registry.py:38-81 | exactly those histories have no prefix after which a prune could drop an active run |
| RunRegistry.PlainNeverDropsActive | src/session_runner/application/run_registry.py:38-81 | what a caller can check: if only ids not in the registry are registered and terminal statuses are final, no prune drops an active run |
| RunRegistry.CarelessStepCanDrop | src/session_runner/application/run_registry.py:78-81 | the first step that breaks that rule makes such a prune possible |
| RunRegistry.ResumedRunIsDropped | src/session_runner/serving/http/app.py:491-524 | a concrete history: a completed run that was looked up and is then resumed is pruned while it runs |
| RunRegistry.ReusedIdIsDropped | src/session_runner/application/run_registry.py:78-81 | a concrete history in which a running run is pruned |
| RunRegistry.RunRegistry.Prune | src/session_runner/application/run_registry.py:38-61 | the popping loops perform the specified prune and return its number |
| RunRegistry.RunRegistry.Observe | src/session_runner/application/run_registry.py:33-36 | the first terminal observation is stamped, later ones are not |
| RunRegistry.RunRegistry.Get | src/session_runner/application/run_registry.py:63-67 | the run if it is registered, observed on the way |
| RunRegistry.RunRegistry.Set | src/session_runner/application/run_registry.py:78-81 | prune, register, observe, in that order |
| Partitions.AddDaysOrdinal | alembic/versions/20260826_0001_partition_conversation_events.py:35-38 | day-by-day addition agrees with ordinal addition over month ends, year ends and leap days |
| Partitions.MonthRangeExact | alembic/versions/20260826_0001_partition_conversation_events.py:35-38 | for every time the range runs from the first of its month to the first of the next |
| Partitions.PartitionIffMonth | alembic/versions/20260826_0001_partition_conversation_events.py:35-38 | an instant lies in a month's partition iff it is of that month |
| Partitions.JumpLandsInMonth | alembic/versions/20260826_0001_partition_conversation_events.py:94-99 | 32 days per month from a first land in the month that many months on, for up to three |
| Partitions.FuturePartitions | alembic/versions/20260826_0001_partition_conversation_events.py:92-99 | the loop yields four consecutive, contiguous months |
| Partitions.ExactlyOnePartition | alembic/versions/20260826_0001_partition_conversation_events.py:92-99 | every instant of the four months falls in exactly one partition |

## Left out

- HTTP apps, Temporal workflows, the SQL repository, the Redis notifier, the vendored agent and MCP clients, container
  plumbing, prompts, metrics and user interfaces: wrappers or heuristics.
- Conversation modes other than default, silent and no_approval; no bash theorem is stated for no_approval, which does not gate.
- Symbolic links, Windows paths, the double-slash root, invalid paths (`OSError`), the internals of `shlex`, JSON and SHA-256.
- Executor.ToolGatewayExecutor.Execute: cancellation of a request that awaits a handler is not modelled.
- BridgeLedger.ReturnClearsPending: speaks of returns; a raise (ask_user inside a larger batch) leaves pending state behind, as the code does.
- BridgeLedger.RunBalanced: the tool results that the adapter's `resume` emits itself for a restored question are not in the bridge's trace.
- BridgeSafety.SilentModeConfined: path arguments that are not strings or are blank are skipped, as the code skips them.
- Checkpoint.CheckpointStore.CreateCheckpoint: the repository and malformed stored batches (pydantic errors) are not modelled; the context holds the parts of the policy the hashes are about.
- EventStream.EveryScheduleDelivers: consumers are not cancelled, and each append is followed by its publish.
- EvalRun.StoppedMeansComplete: cancellation of the whole run is not modelled, and the workspace driver offers `delete_workspace`.
- EvalRun.Isolation: a case's steps read and write the workspace they are handed and nothing else; what cases share outside the workspace store is not modelled.
- AutoAnswer.AlwaysEnds: the case `case_timeout_seconds is None`, in which the loop need not end, is not modelled.
- EvalReport.Summarize: durations and the pass rate are reals and rounding is a parameter; floating point is not modelled.
- RunRegistry.RunRegistry.Set: a run's status is part of the registry's map; a run object shared under two ids is not modelled.
- Partitions.MonthRangeExact: years are unbounded; the overflow after year 9999 is not modelled.
- `LlmCommandApprover`'s prompt and the parsing of the judge's reply: a reply is timed out, broken, unparsable or parsed.
- Replay of `start_run`, and run-state transitions of `_apply_core_event`: the code does not promise what one would state.
