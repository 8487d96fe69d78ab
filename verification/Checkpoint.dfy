/** Pause and resume: checkpoints bound by canonical hashes. */
module Checkpoint {
  import opened Text
  import opened Sorting
  import opened ToolContracts
  import opened Bridge
  import BridgeLedger
  import BridgeSafety
  import Digests

  /** The tool-policy dictionary; an absent key is `None`. */
  datatype PolicyDict = PolicyDict(allowed: Option<seq<string>>, approvals: Option<seq<string>>, tools: Option<seq<Descriptor>>)

  /** A pending interaction as the control plane stores it. */
  datatype Interaction<D> = Interaction(batch: Option<Batch>, pendingCalls: Batch, batchHash: Option<D>, policy: PolicyDict)

  /** What the context hash covers. */
  datatype Context<D> = Context(task: string, conversation: string, events: seq<string>, policy: PolicyDict, reason: string,
                                pendingCalls: Batch, batchHash: Option<D>, policyHash: D, versionsHash: Option<D>)

  datatype Checkpoint<D> = Checkpoint(context: Context<D>, pending: Option<Interaction<D>>, pendingCalls: Batch,
                                      batchHash: Option<D>, policyHash: D, versionsHash: Option<D>, leaseEpoch: int,
                                      contextHash: D)

  datatype PolicyPayload = PolicyPayload(allowed: seq<string>, approvals: seq<string>)

  /** One digest function per kind of value that is hashed. */
  datatype Hashes<!D> = Hashes(batch: Batch -> D, policy: PolicyPayload -> D, versions: seq<(string, string)> -> D,
                               context: Context<D> -> D)

  ghost predicate Collisionless<D(!new)>(h: Hashes<D>) {
    && Digests.Injective(h.batch) && Digests.Injective(h.policy)
    && Digests.Injective(h.versions) && Digests.Injective(h.context)
  }

  // ---------------------------------------------------------------- canonical forms

  function OrEmpty<T>(xs: Option<seq<T>>): seq<T> {
    if xs.Some? then xs.value else []
  }

  function PolicyHash<D>(h: Hashes<D>, p: PolicyDict): D {
    h.policy(PolicyPayload(Sort(StrLe, OrEmpty(p.allowed)), Sort(StrLe, OrEmpty(p.approvals))))
  }

  predicate PairLe(a: (string, string), b: (string, string)) {
    if a.0 == b.0 then StrLe(a.1, b.1) else StrLe(a.0, b.0)
  }

  function Versions(tools: seq<Descriptor>): seq<(string, string)> {
    seq(|tools|, i requires 0 <= i < |tools| => (tools[i].name, tools[i].version))
  }

  function VersionsHash<D>(h: Hashes<D>, tools: seq<Descriptor>): D {
    h.versions(Sort(PairLe, Versions(tools)))
  }

  lemma PairLeOrder()
    ensures TotalPreorder(PairLe) && Antisymmetric(PairLe)
  {
    forall a: (string, string), b: (string, string)
      ensures PairLe(a, b) || PairLe(b, a)
      ensures PairLe(a, b) && PairLe(b, a) ==> a == b
    {
      StrLeTotal(a.0, b.0);
      StrLeTotal(a.1, b.1);
    }
    forall a: (string, string), b: (string, string), c: (string, string) | PairLe(a, b) && PairLe(b, c) ensures PairLe(a, c) {
      if a.0 == b.0 == c.0 {
        StrLeTransitive(a.1, b.1, c.1);
      } else {
        StrLeTotal(a.0, c.0);
        StrLeTotal(a.0, b.0);
        if a.0 != b.0 && b.0 != c.0 {
          StrLeTransitive(a.0, b.0, c.0);
        }
      }
    }
  }

  /** The policy hash sees the two lists as multisets: order never matters, everything else does. */
  lemma PolicyHashIff<D(!new)>(h: Hashes<D>, p: PolicyDict, q: PolicyDict)
    requires Collisionless(h)
    ensures PolicyHash(h, p) == PolicyHash(h, q) <==>
            && multiset(OrEmpty(p.allowed)) == multiset(OrEmpty(q.allowed))
            && multiset(OrEmpty(p.approvals)) == multiset(OrEmpty(q.approvals))
  {
    StrLeOrder();
    SortCanonical(StrLe, OrEmpty(p.allowed), OrEmpty(q.allowed));
    SortCanonical(StrLe, OrEmpty(p.approvals), OrEmpty(q.approvals));
  }

  /** The versions hash sees the tools as a multiset of (name, version) pairs. */
  lemma VersionsHashIff<D(!new)>(h: Hashes<D>, a: seq<Descriptor>, b: seq<Descriptor>)
    requires Collisionless(h)
    ensures VersionsHash(h, a) == VersionsHash(h, b) <==> multiset(Versions(a)) == multiset(Versions(b))
  {
    PairLeOrder();
    SortCanonical(PairLe, Versions(a), Versions(b));
  }

  // ---------------------------------------------------------------- create, validate, resume

  /** `dict.update` */
  function Update(base: PolicyDict, over: PolicyDict): PolicyDict {
    PolicyDict(if over.allowed.Some? then over.allowed else base.allowed,
               if over.approvals.Some? then over.approvals else base.approvals,
               if over.tools.Some? then over.tools else base.tools)
  }

  function Create<D>(h: Hashes<D>, base: PolicyDict, pending: Option<Interaction<D>>, reason: string, task: string,
                     conversation: string, events: seq<string>, leaseEpoch: int): Checkpoint<D>
  {
    var calls := match pending case None => [] case Some(p) => if p.batch.Some? then p.batch.value else p.pendingCalls;
    var batchHash := match pending
      case None => None
      case Some(p) => if p.batch.Some? then Some(h.batch(p.batch.value)) else p.batchHash;
    var policy := if pending.Some? then Update(base, pending.value.policy) else base;
    var policyHash := PolicyHash(h, policy);
    var versionsHash := if OrEmpty(policy.tools) == [] then None else Some(VersionsHash(h, OrEmpty(policy.tools)));
    var context := Context(task, conversation, events, policy, reason, calls, batchHash, policyHash, versionsHash);
    Checkpoint(context, pending, calls, batchHash, policyHash, versionsHash, leaseEpoch, h.context(context))
  }

  datatype Mismatch = LeaseEpoch | ContextBundle | ToolBatch | ToolPolicy | ToolVersions | NoPendingCalls

  datatype Check<T> = Pass(value: T) | Fail(why: Mismatch)

  function Validate<D(==)>(h: Hashes<D>, c: Checkpoint<D>, leaseEpoch: int, batchHash: Option<D>, policyHash: Option<D>,
                           versionsHash: Option<D>): Check<()>
  {
    if c.leaseEpoch != leaseEpoch then Fail(LeaseEpoch)
    else if h.context(c.context) != c.contextHash then Fail(ContextBundle)
    else if batchHash.Some? && c.batchHash != batchHash then Fail(ToolBatch)
    else if policyHash.Some? && Some(c.policyHash) != policyHash then Fail(ToolPolicy)
    else if versionsHash.Some? && c.versionsHash != versionsHash then Fail(ToolVersions)
    else Pass(())
  }

  /** The checks at the start of `resume` on a bridge whose tools are listed as `tools`. */
  ghost function ResumeChecks<D>(h: Hashes<D>, c: Checkpoint<D>, policy: GatewayPolicy, tools: seq<Descriptor>): Check<Batch> {
    var current := PolicyDict(Some(SortedSet(policy.allowed)), Some(SortedSet(policy.approvalRequired)), None);
    if c.policyHash != PolicyHash(h, current) then Fail(ToolPolicy)
    else if c.versionsHash.Some? && c.versionsHash != Some(VersionsHash(h, tools)) then Fail(ToolVersions)
    else
      var raw := if c.pending.Some? && c.pending.value.pendingCalls != [] then c.pending.value.pendingCalls else c.pendingCalls;
      if raw == [] then Fail(NoPendingCalls)
      else if c.batchHash.Some? && c.batchHash != Some(h.batch(raw)) then Fail(ToolBatch)
      else Pass(raw)
  }

  // ---------------------------------------------------------------- sets as sorted lists

  ghost function ListOf(s: set<string>): seq<string> {
    if s == {} then [] else var x :| x in s; [x] + ListOf(s - {x})
  }

  /** `sorted(s)` for a set of names */
  ghost function SortedSet(s: set<string>): seq<string> {
    Sort(StrLe, ListOf(s))
  }

  lemma {:induction false} ListOfMultiset(s: set<string>)
    ensures multiset(ListOf(s)) == multiset(s)
  {
    if s != {} {
      var x :| x in s && ListOf(s) == [x] + ListOf(s - {x});
      ListOfMultiset(s - {x});
      assert multiset(s) == multiset{x} + multiset(s - {x});
    }
  }

  lemma SortedSetIff(a: set<string>, b: set<string>)
    ensures multiset(SortedSet(a)) == multiset(SortedSet(b)) <==> a == b
  {
    ListOfMultiset(a);
    ListOfMultiset(b);
    SortMultiset(StrLe, ListOf(a));
    SortMultiset(StrLe, ListOf(b));
    if multiset(a) == multiset(b) {
      forall x ensures x in a <==> x in b {
        assert x in multiset(a) <==> x in multiset(b);
      }
    }
  }

  // ---------------------------------------------------------------- tool listings

  /** `ds` lists the tool map, in some order. */
  ghost predicate Lists(ds: seq<Descriptor>, tools: map<string, Descriptor>) {
    && (forall i | 0 <= i < |ds| :: ds[i].name in tools && tools[ds[i].name] == ds[i])
    && (forall i, j | 0 <= i < j < |ds| :: ds[i].name != ds[j].name)
    && (forall n | n in tools :: exists i | 0 <= i < |ds| :: ds[i].name == n)
  }

  /** Same tool names with the same versions; approval flags and descriptions may differ. */
  ghost predicate SameVersions(a: map<string, Descriptor>, b: map<string, Descriptor>) {
    a.Keys == b.Keys && forall n | n in a :: a[n].version == b[n].version
  }

  lemma {:induction false} DistinctCount<T>(xs: seq<T>)
    requires forall i, j | 0 <= i < j < |xs| :: xs[i] != xs[j]
    ensures forall x :: multiset(xs)[x] == if x in xs then 1 else 0
  {
    if xs != [] {
      var tail := xs[1..];
      DistinctCount(tail);
      assert xs == [xs[0]] + tail;
      assert multiset(xs) == multiset{xs[0]} + multiset(tail);
      assert xs[0] !in tail;
    }
  }

  lemma VersionsOf(ds: seq<Descriptor>, tools: map<string, Descriptor>)
    requires Lists(ds, tools)
    ensures forall n, v :: (n, v) in Versions(ds) <==> n in tools && tools[n].version == v
    ensures forall x :: multiset(Versions(ds))[x] == if x in Versions(ds) then 1 else 0
  {
    var vs := Versions(ds);
    forall n, v ensures (n, v) in vs <==> n in tools && tools[n].version == v {
      if (n, v) in vs {
        var i :| 0 <= i < |vs| && vs[i] == (n, v);
        assert ds[i].name == n;
      }
      if n in tools && tools[n].version == v {
        var i :| 0 <= i < |ds| && ds[i].name == n;
        assert vs[i] == (n, v);
      }
    }
    forall i, j | 0 <= i < j < |vs| ensures vs[i] != vs[j] {
      assert ds[i].name != ds[j].name;
    }
    DistinctCount(vs);
  }

  lemma SameVersionsFromMultiset(a: seq<Descriptor>, ta: map<string, Descriptor>, b: seq<Descriptor>, tb: map<string, Descriptor>)
    requires Lists(a, ta) && Lists(b, tb) && multiset(Versions(a)) == multiset(Versions(b))
    ensures forall n | n in ta :: n in tb && ta[n].version == tb[n].version
  {
    VersionsOf(a, ta);
    VersionsOf(b, tb);
    forall n | n in ta ensures n in tb && ta[n].version == tb[n].version {
      var x := (n, ta[n].version);
      assert x in Versions(a);
      assert x in multiset(Versions(b));
      assert x in Versions(b);
    }
  }

  lemma MultisetFromSameVersions(a: seq<Descriptor>, ta: map<string, Descriptor>, b: seq<Descriptor>, tb: map<string, Descriptor>)
    requires Lists(a, ta) && Lists(b, tb) && SameVersions(ta, tb)
    ensures multiset(Versions(a)) == multiset(Versions(b))
  {
    VersionsOf(a, ta);
    VersionsOf(b, tb);
    forall x: (string, string) ensures multiset(Versions(a))[x] == multiset(Versions(b))[x] {
      var (n, v) := x;
      assert (n, v) in Versions(a) <==> (n, v) in Versions(b);
    }
  }

  lemma ListingsAgree(a: seq<Descriptor>, ta: map<string, Descriptor>, b: seq<Descriptor>, tb: map<string, Descriptor>)
    requires Lists(a, ta) && Lists(b, tb)
    ensures multiset(Versions(a)) == multiset(Versions(b)) <==> SameVersions(ta, tb)
  {
    if multiset(Versions(a)) == multiset(Versions(b)) {
      SameVersionsFromMultiset(a, ta, b, tb);
      SameVersionsFromMultiset(b, tb, a, ta);
    }
    if SameVersions(ta, tb) {
      MultisetFromSameVersions(a, ta, b, tb);
    }
  }

  // ---------------------------------------------------------------- the contract

  /** The interaction a suspended bridge publishes. */
  ghost function Published<D>(h: Hashes<D>, policy: GatewayPolicy, tools: seq<Descriptor>, calls: Batch): Interaction<D> {
    Interaction(Some(calls), calls, Some(h.batch(calls)),
                PolicyDict(Some(SortedSet(policy.allowed)), Some(SortedSet(policy.approvalRequired)), Some(tools)))
  }

  lemma PolicyBound<D(!new)>(h: Hashes<D>, a: GatewayPolicy, b: GatewayPolicy, tools: Option<seq<Descriptor>>)
    requires Collisionless(h)
    ensures PolicyHash(h, PolicyDict(Some(SortedSet(a.allowed)), Some(SortedSet(a.approvalRequired)), tools))
         == PolicyHash(h, PolicyDict(Some(SortedSet(b.allowed)), Some(SortedSet(b.approvalRequired)), None))
       <==> b.allowed == a.allowed && b.approvalRequired == a.approvalRequired
  {
    PolicyHashIff(h, PolicyDict(Some(SortedSet(a.allowed)), Some(SortedSet(a.approvalRequired)), tools),
                  PolicyDict(Some(SortedSet(b.allowed)), Some(SortedSet(b.approvalRequired)), None));
    SortedSetIff(a.allowed, b.allowed);
    SortedSetIff(a.approvalRequired, b.approvalRequired);
  }

  lemma VersionsBound<D(!new)>(h: Hashes<D>, a: seq<Descriptor>, ta: map<string, Descriptor>, b: seq<Descriptor>, tb: map<string, Descriptor>)
    requires Collisionless(h) && Lists(a, ta) && Lists(b, tb)
    ensures VersionsHash(h, a) == VersionsHash(h, b) <==> SameVersions(ta, tb)
  {
    VersionsHashIff(h, a, b);
    ListingsAgree(a, ta, b, tb);
  }

  /**
   * A checkpoint of a published interaction whose pending calls arrive as `calls'` resumes on a bridge exactly when that
   * bridge has the same allowed set, the same approval set and the same tool versions (unless no tool was listed, when
   * versions are not bound), and the pending calls are the published ones or were emptied, when the checkpoint's own
   * are used. Then it continues with exactly the published calls. Neither the order of any list nor a changed approval
   * flag or description is noticed.
   */
  lemma ResumeIff<D(!new)>(h: Hashes<D>, base: PolicyDict, reason: string, task: string, conversation: string,
                           events: seq<string>, leaseEpoch: int,
                           policy: GatewayPolicy, tools: map<string, Descriptor>, listing: seq<Descriptor>, calls: Batch,
                           policy': GatewayPolicy, tools': map<string, Descriptor>, listing': seq<Descriptor>, calls': Batch)
    requires Collisionless(h) && Lists(listing, tools) && Lists(listing', tools')
    ensures
      var result := ResumeChecks(h, Received(h, base, reason, task, conversation, events, leaseEpoch, policy, listing, calls, calls'),
                                 policy', listing');
      && (result.Pass? <==>
            && policy'.allowed == policy.allowed && policy'.approvalRequired == policy.approvalRequired
            && (listing == [] || SameVersions(tools, tools'))
            && calls != [] && (calls' == calls || calls' == []))
      && (result.Pass? ==> result == Pass(calls))
  {
    var published := Published(h, policy, listing, calls);
    var c := Create(h, base, Some(published), reason, task, conversation, events, leaseEpoch);
    PolicyBound(h, policy, policy', Some(listing));
    VersionsBound(h, listing, tools, listing', tools');
    assert c.context.policy == published.policy;
    assert calls' != calls ==> h.batch(calls') != h.batch(calls);
  }

  /** The checkpoint of a published interaction, as it arrives with pending calls `calls'`. */
  ghost function Received<D>(h: Hashes<D>, base: PolicyDict, reason: string, task: string, conversation: string,
                             events: seq<string>, leaseEpoch: int, policy: GatewayPolicy, listing: seq<Descriptor>,
                             calls: Batch, calls': Batch): Checkpoint<D>
  {
    var published := Published(h, policy, listing, calls);
    var c := Create(h, base, Some(published), reason, task, conversation, events, leaseEpoch);
    c.(pending := Some(published.(pendingCalls := calls')))
  }

  /** A published interaction's checkpoint passes its own checks, whatever order the tools are listed in. */
  lemma SelfChecks<D(!new)>(h: Hashes<D>, base: PolicyDict, reason: string, task: string, conversation: string,
                            events: seq<string>, leaseEpoch: int, policy: GatewayPolicy, tools: map<string, Descriptor>,
                            listing: seq<Descriptor>, listing': seq<Descriptor>, calls: Batch)
    requires Collisionless(h) && Lists(listing, tools) && Lists(listing', tools) && calls != []
    ensures
      var c := Create(h, base, Some(Published(h, policy, listing, calls)), reason, task, conversation, events, leaseEpoch);
      var own := PolicyDict(Some(SortedSet(policy.allowed)), Some(SortedSet(policy.approvalRequired)), None);
      var versions := if listing == [] then None else Some(VersionsHash(h, listing));
      && Validate(h, c, leaseEpoch, Some(h.batch(calls)), Some(PolicyHash(h, own)), versions) == Pass(())
      && ResumeChecks(h, c, policy, listing') == Pass(calls)
  {
    var c := Create(h, base, Some(Published(h, policy, listing, calls)), reason, task, conversation, events, leaseEpoch);
    var own := PolicyDict(Some(SortedSet(policy.allowed)), Some(SortedSet(policy.approvalRequired)), None);
    PolicyBound(h, policy, policy, Some(listing));
    VersionsBound(h, listing, tools, listing', tools);
    assert c.context.policy == own.(tools := Some(listing));
  }

  /**
   * Every run: a checkpoint built from the bridge's own pending interaction passes `validate_checkpoint` at its own
   * lease epoch with the hashes of that bridge, and passes resume's checks on any bridge with the same policy and
   * tools, which then continues with exactly the pending batch.
   */
  lemma OwnCheckpointResumes<D(!new)>(h: Hashes<D>, cfg: Config, w: World, inputs: seq<Input>, listing: seq<Descriptor>,
                                      base: PolicyDict, reason: string, task: string, conversation: string,
                                      events: seq<string>, leaseEpoch: int, cfg': Config, listing': seq<Descriptor>)
    requires Collisionless(h) && Lists(listing, cfg.tools) && Lists(listing', cfg'.tools)
    requires Run(cfg, w, inputs).frame != Idle
    requires cfg'.policy == cfg.policy && cfg'.tools == cfg.tools
    ensures
      var calls := Run(cfg, w, inputs).pendingCalls;
      var c := Create(h, base, Some(Published(h, cfg.policy, listing, calls)), reason, task, conversation, events, leaseEpoch);
      var own := PolicyDict(Some(SortedSet(cfg.policy.allowed)), Some(SortedSet(cfg.policy.approvalRequired)), None);
      var versions := if listing == [] then None else Some(VersionsHash(h, listing));
      && Validate(h, c, leaseEpoch, Some(h.batch(calls)), Some(PolicyHash(h, own)), versions) == Pass(())
      && ResumeChecks(h, c, cfg'.policy, listing') == Pass(calls)
  {
    var calls := Run(cfg, w, inputs).pendingCalls;
    assert calls != [] by {
      BridgeLedger.RunBalanced(cfg, w, inputs);
    }
    SelfChecks(h, base, reason, task, conversation, events, leaseEpoch, cfg.policy, cfg.tools, listing, listing', calls);
  }

  /** Any change to the context of a checkpoint, and any other lease epoch, is refused. */
  lemma ValidateRefusesChanges<D(!new)>(h: Hashes<D>, base: PolicyDict, pending: Option<Interaction<D>>, reason: string,
                                        task: string, conversation: string, events: seq<string>, leaseEpoch: int,
                                        context': Context<D>, epoch': int)
    requires Collisionless(h)
    ensures
      var c := Create(h, base, pending, reason, task, conversation, events, leaseEpoch);
      Validate(h, c.(context := context'), epoch', None, None, None) == Pass(()) <==> context' == c.context && epoch' == leaseEpoch
  {
    var c := Create(h, base, pending, reason, task, conversation, events, leaseEpoch);
    assert context' != c.context ==> h.context(context') != h.context(c.context);
  }

  /**
   * From pause to resumed run: if the checkpoint of a bridge that waits for approval passes the checks of another bridge,
   * whatever its pending calls were turned into on the way, and that bridge executes what it was given with the approval,
   * then everything it delegates is of the batch the first bridge published, and what needs a human's approval has it
   * for that batch.
   */
  lemma ApprovalIsForPublished<D(!new)>(h: Hashes<D>, cfg: Config, w: World, inputs: seq<Input>, listing: seq<Descriptor>,
                                        base: PolicyDict, reason: string, task: string, conversation: string,
                                        events: seq<string>, leaseEpoch: int, calls': Batch,
                                        cfg': Config, w': World, listing': seq<Descriptor>, batch: Batch, how: Method, i: nat, call: ToolCall)
    requires Collisionless(h) && Lists(listing, cfg.tools) && Lists(listing', cfg'.tools) && Wired(cfg')
    requires Run(cfg, w, inputs).frame == AwaitDecision
    requires
      var calls := Run(cfg, w, inputs).pendingCalls;
      ResumeChecks(h, Received(h, base, reason, task, conversation, events, leaseEpoch, cfg.policy, listing, calls, calls'),
                   cfg'.policy, listing') == Pass(batch)
    requires BridgeSafety.DelegatedAt(Run(cfg', w', [ExecuteRestored(batch, how, ApproveOnce)]).trace, i, call)
    ensures
      var s, t := Run(cfg, w, inputs), Run(cfg', w', [ExecuteRestored(batch, how, ApproveOnce)]).trace;
      && InteractionRequested(ApprovalKind, s.pendingCalls) in s.trace
      && batch == s.pendingCalls && t[i].batch == s.pendingCalls && call in s.pendingCalls
      && BridgeSafety.CallSafe(cfg', w', t[..i], s.pendingCalls, call)
  {
    var s, input := Run(cfg, w, inputs), ExecuteRestored(batch, how, ApproveOnce);
    ResumeIff(h, base, reason, task, conversation, events, leaseEpoch, cfg.policy, cfg.tools, listing, s.pendingCalls,
              cfg'.policy, cfg'.tools, listing', calls');
    BridgeSafety.SuspendedAsked(cfg, w, inputs);
    BridgeSafety.RunInv(cfg', w', [input]);
    assert [input][..0] == [];
    assert Run(cfg', w', []) == INITIAL;
    BridgeSafety.BeginDelegatesOwn(cfg', w', INITIAL, batch, how, Some(ApproveOnce));
    var t := Run(cfg', w', [input]).trace;
    assert BridgeSafety.DelegationSafe(cfg', w', t[..i], t[i].calls, t[i].batch);
  }

  /**
   * `validate_checkpoint` on the checkpoint of a published interaction, given the hashes of some batch, policy and tools:
   * it passes exactly when the lease epoch is the same, the batch is the published one, the policy has the same two sets
   * and the tools are listed with the same versions. A hash that is not given is not compared.
   */
  lemma ValidateIff<D(!new)>(h: Hashes<D>, base: PolicyDict, reason: string, task: string, conversation: string,
                             events: seq<string>, leaseEpoch: int, policy: GatewayPolicy, tools: map<string, Descriptor>,
                             listing: seq<Descriptor>, calls: Batch, epoch': int, calls': Option<Batch>,
                             policy': Option<GatewayPolicy>, tools': map<string, Descriptor>, listing': Option<seq<Descriptor>>)
    requires Collisionless(h) && Lists(listing, tools) && (listing'.Some? ==> Lists(listing'.value, tools'))
    ensures
      var c := Create(h, base, Some(Published(h, policy, listing, calls)), reason, task, conversation, events, leaseEpoch);
      Validate(h, c, epoch', if calls'.Some? then Some(h.batch(calls'.value)) else None,
               if policy'.Some? then Some(PolicyHash(h, Own(policy'.value))) else None,
               if listing'.Some? then Some(VersionsHash(h, listing'.value)) else None) == Pass(())
      <==>
      && epoch' == leaseEpoch && (calls'.Some? ==> calls'.value == calls)
      && (policy'.Some? ==> policy'.value.allowed == policy.allowed && policy'.value.approvalRequired == policy.approvalRequired)
      && (listing'.Some? ==> listing != [] && SameVersions(tools, tools'))
  {
    var c := Create(h, base, Some(Published(h, policy, listing, calls)), reason, task, conversation, events, leaseEpoch);
    assert c.context.policy == Published(h, policy, listing, calls).policy;
    assert c.batchHash == Some(h.batch(calls));
    if calls'.Some? && calls'.value != calls {
      assert h.batch(calls'.value) != h.batch(calls);
    }
    if policy'.Some? {
      PolicyBound(h, policy, policy'.value, Some(listing));
    }
    if listing'.Some? {
      VersionsBound(h, listing, tools, listing'.value, tools');
    }
  }

  ghost function Own(policy: GatewayPolicy): PolicyDict {
    PolicyDict(Some(SortedSet(policy.allowed)), Some(SortedSet(policy.approvalRequired)), None)
  }

  /** A checkpoint of a run that does not wait is bound by the conversation's own policy and by no batch. */
  lemma CreateWithoutPending<D(!new)>(h: Hashes<D>, base: PolicyDict, reason: string, task: string, conversation: string,
                                      events: seq<string>, leaseEpoch: int, p: PolicyDict)
    requires Collisionless(h)
    ensures
      var c := Create(h, base, None, reason, task, conversation, events, leaseEpoch);
      && c.batchHash == None && c.pendingCalls == []
      && (c.policyHash == PolicyHash(h, p) <==>
            && multiset(OrEmpty(base.allowed)) == multiset(OrEmpty(p.allowed))
            && multiset(OrEmpty(base.approvals)) == multiset(OrEmpty(p.approvals)))
  {
    PolicyHashIff(h, base, p);
  }

  /**
   * A checkpoint of an interaction that carries no batch keeps its pending calls and its hash, and the policy it is
   * bound by takes each list from the interaction if it is there and from the conversation if not.
   */
  lemma CreateFromPartial<D(!new)>(h: Hashes<D>, base: PolicyDict, pending: Interaction<D>, reason: string, task: string,
                                   conversation: string, events: seq<string>, leaseEpoch: int, p: PolicyDict)
    requires Collisionless(h) && pending.batch.None?
    ensures
      var c := Create(h, base, Some(pending), reason, task, conversation, events, leaseEpoch);
      var allowed := if pending.policy.allowed.Some? then pending.policy.allowed else base.allowed;
      var approvals := if pending.policy.approvals.Some? then pending.policy.approvals else base.approvals;
      && c.pendingCalls == pending.pendingCalls && c.batchHash == pending.batchHash && c.leaseEpoch == leaseEpoch
      && (c.policyHash == PolicyHash(h, p) <==>
            && multiset(OrEmpty(allowed)) == multiset(OrEmpty(p.allowed))
            && multiset(OrEmpty(approvals)) == multiset(OrEmpty(p.approvals)))
  {
    PolicyHashIff(h, Update(base, pending.policy), p);
  }

  // ---------------------------------------------------------------- the service object

  datatype LogEvent = LogEvent(seq_: int, checkpointId: nat)

  /** The conversation's part of the service that creating a checkpoint updates. */
  class CheckpointStore<D> {
    const h: Hashes<D>
    var checkpoints: map<nat, Checkpoint<D>>
    var current: Option<nat>
    var lastSeq: int
    var log: seq<LogEvent>

    /** The run's counter is the log's length and the current checkpoint exists. */
    ghost predicate Valid()
      reads this
    {
      && lastSeq == |log|
      && (forall i | 0 <= i < |log| :: log[i].seq_ == i + 1)
      && (current.Some? ==> current.value in checkpoints)
    }

    constructor (h: Hashes<D>)
      ensures Valid() && this.h == h && checkpoints == map[] && log == []
    {
      this.h := h;
      checkpoints, current, lastSeq, log := map[], None, 0, [];
    }

    /** `id` is the fresh checkpoint id. Appending refuses an event that is not the next one. */
    method CreateCheckpoint(id: nat, base: PolicyDict, pending: Option<Interaction<D>>, reason: string, task: string,
                            conversation: string, events: seq<string>, leaseEpoch: int) returns (ok: bool)
      requires Valid() && id !in checkpoints
      modifies this
      ensures ok && Valid()
      ensures checkpoints == old(checkpoints)[id := Create(h, base, pending, reason, task, conversation, events, leaseEpoch)]
      ensures current == Some(id) && log == old(log) + [LogEvent(old(lastSeq) + 1, id)]
    {
      var calls: Batch := [];
      var batchHash: Option<D> := None;
      var policy := base;
      if pending.Some? {
        var p := pending.value;
        if p.batch.Some? {
          calls := p.batch.value;
          batchHash := Some(h.batch(calls));
        } else {
          calls := p.pendingCalls;
          batchHash := p.batchHash;
        }
        policy := Update(policy, p.policy);
      }
      var policyHash := PolicyHash(h, policy);
      var tools := OrEmpty(policy.tools);
      var versionsHash: Option<D> := None;
      if tools != [] {
        versionsHash := Some(VersionsHash(h, tools));
      }
      var context := Context(task, conversation, events, policy, reason, calls, batchHash, policyHash, versionsHash);
      var c := Checkpoint(context, pending, calls, batchHash, policyHash, versionsHash, leaseEpoch, h.context(context));
      checkpoints := checkpoints[id := c];
      current := Some(id);
      var event := LogEvent(lastSeq + 1, id);
      if event.seq_ != |log| + 1 {
        return false;
      }
      log := log + [event];
      lastSeq := event.seq_;
      ok := true;
    }
  }
}
