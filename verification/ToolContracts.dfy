/** Tool batches, authorization and the authorization checkpoint. */
module ToolContracts {
  import Digests

  /** A JSON argument value. `rendered` is `str(value)`, `truthy` is `bool(value)`. */
  datatype Value = Null | Str(text: string) | Other(json: string, truthy: bool, rendered: string)

  datatype ToolCall = ToolCall(callId: string, name: string, arguments: map<string, Value>)

  type Batch = seq<ToolCall>

  datatype Decision = ApproveOnce | Reject

  datatype Status = Approved | RequiresApproval | Denied

  datatype Descriptor = Descriptor(name: string, version: string, requiresApproval: bool, description: string)

  datatype GatewayPolicy = GatewayPolicy(allowed: set<string>, approvalRequired: set<string>)

  datatype Authorization<D> = Authorization(status: Status, batchHash: D, refused: set<string>)

  datatype Error = HashMismatch | ApprovalMissing | AskNotAlone | NotWaitingForApproval | NotWaitingForAnswer

  datatype Result<T> = Ok(value: T) | Err(error: Error)

  datatype Refusal =
    | NotAuthorized(names: set<string>) | RejectedByUser | ForbiddenCommand | OutsideWorkspace(path: string)
    | RefusedByGate(source: string) | AskFirst(names: set<string>) | QuestionMissing | HandlerUnavailable

  datatype Content = Output(text: string) | Failure(text: string) | Refused(why: Refusal)

  datatype ToolResult = ToolResult(callId: string, name: string, success: bool, content: Content)

  function Refuse(call: ToolCall, why: Refusal): ToolResult {
    ToolResult(call.callId, call.name, false, Refused(why))
  }

  function RefuseAll(calls: Batch, why: Refusal): seq<ToolResult> {
    seq(|calls|, i requires 0 <= i < |calls| => Refuse(calls[i], why))
  }

  function CallIds(calls: Batch): seq<string> {
    seq(|calls|, i requires 0 <= i < |calls| => calls[i].callId)
  }

  function ResultIds(results: seq<ToolResult>): seq<string> {
    seq(|results|, i requires 0 <= i < |results| => results[i].callId)
  }

  /** `str(arguments.get(key) or "")` */
  function ArgText(call: ToolCall, key: string): string {
    if key !in call.arguments then ""
    else match call.arguments[key]
      case Null => ""
      case Str(text) => text
      case Other(_, truthy, rendered) => if truthy then rendered else ""
  }

  /** An argument reads as empty exactly when it is absent, null, the empty text or false; else as its text. */
  lemma ArgTextMeans(call: ToolCall, key: string)
    ensures key !in call.arguments || call.arguments[key].Null? ==> ArgText(call, key) == ""
    ensures key in call.arguments && call.arguments[key].Str? ==> ArgText(call, key) == call.arguments[key].text
    ensures key in call.arguments && call.arguments[key].Other? ==>
              ArgText(call, key) == if call.arguments[key].truthy then call.arguments[key].rendered else ""
  {
  }

  /** The names of a batch that are unknown or not allowed. */
  function Refusals(batch: Batch, tools: map<string, Descriptor>, policy: GatewayPolicy): set<string> {
    set c | c in batch && (c.name !in tools || c.name !in policy.allowed) :: c.name
  }

  predicate NeedsApproval(name: string, tools: map<string, Descriptor>, policy: GatewayPolicy) {
    (name in tools && tools[name].requiresApproval) || name in policy.approvalRequired
  }

  function Decide(batch: Batch, tools: map<string, Descriptor>, policy: GatewayPolicy): Status {
    if Refusals(batch, tools, policy) != {} then Denied
    else if exists c :: c in batch && NeedsApproval(c.name, tools, policy) then RequiresApproval
    else Approved
  }

  function Authorize<D>(hash: Batch -> D, batch: Batch, tools: map<string, Descriptor>, policy: GatewayPolicy): Authorization<D> {
    Authorization(Decide(batch, tools, policy), hash(batch), Refusals(batch, tools, policy))
  }

  /** A call in a batch that was not denied names a described, allowed tool. */
  lemma NotDenied(batch: Batch, tools: map<string, Descriptor>, policy: GatewayPolicy, call: ToolCall)
    requires Decide(batch, tools, policy) != Denied && call in batch
    ensures call.name in tools && call.name in policy.allowed
  {
    assert call.name !in Refusals(batch, tools, policy);
  }

  datatype Saved<D> = Saved(batch: Batch, batchHash: D, authorization: Authorization<D>)

  function Save<D(==)>(hash: Batch -> D, batch: Batch, authorization: Authorization<D>): Result<Saved<D>> {
    if authorization.batchHash != hash(batch) then Err(HashMismatch)
    else Ok(Saved(batch, hash(batch), authorization))
  }

  function Restore<D(==)>(hash: Batch -> D, saved: Saved<D>): Result<(Batch, Authorization<D>)> {
    if hash(saved.batch) != saved.batchHash || saved.authorization.batchHash != saved.batchHash then Err(HashMismatch)
    else Ok((saved.batch, saved.authorization))
  }

  /**
   * Restoring undoes saving; and with an injective hash a saved record whose batch or whose
   * authorization hash was altered is refused, for every alteration.
   */
  lemma RestoreUndoesSave<D>(hash: Batch -> D, batch: Batch, authorization: Authorization<D>,
                             batch': Batch, hash': D)
    requires Digests.Injective(hash)
    ensures Save(hash, batch, authorization).Ok? <==> authorization.batchHash == hash(batch)
    ensures Save(hash, batch, authorization).Ok? ==>
              var saved := Save(hash, batch, authorization).value;
              && Restore(hash, saved) == Ok((batch, authorization))
              && (Restore(hash, saved.(batch := batch')).Ok? <==> batch' == batch)
              && (Restore(hash, saved.(authorization := authorization.(batchHash := hash'))).Ok? <==> hash' == hash(batch))
  {
    if hash(batch') == hash(batch) {
      assert batch' == batch;
    }
  }
}
