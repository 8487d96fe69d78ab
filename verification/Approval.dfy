/** Command approval behind the gate: the fail-closed judge and the per-run verdict cache. */
module Approval {
  import CG = CommandGate

  datatype Mode = Default | Silent | NoApproval

  datatype Request = Request(command: string, reason: string, tier: CG.Tier, gateReason: CG.Reason, mode: Mode, cwd: string,
                             allowedPrefixes: seq<string>, runId: string, conversationId: string)

  /** The fields the cache key digests; the digest is taken to be injective, so the fields are the key. */
  datatype Key = Key(command: string, reason: string, mode: Mode, cwd: string, allowedPrefixes: seq<string>)

  function CacheKey(r: Request): Key {
    Key(r.command, r.reason, r.mode, r.cwd, r.allowedPrefixes)
  }

  datatype JudgeReply = TimedOut | Broke(kind: string) | Unparsable | Parsed(allow: bool, rationale: string)

  datatype CommandApproval = CommandApproval(allowed: bool, rationale: string, source: string)

  /** Only a parsed, allowing reply allows. */
  function JudgeVerdict(reply: JudgeReply): CommandApproval {
    match reply
    case TimedOut => CommandApproval(false, "approval timed out", "llm")
    case Broke(kind) => CommandApproval(false, "approval failed: " + kind, "llm")
    case Unparsable => CommandApproval(false, "approval verdict was not parsable", "llm")
    case Parsed(allow, rationale) => CommandApproval(allow, rationale, "llm")
  }

  /** The cache of one run and the requests its judge was asked, in order. */
  datatype Cache = Cache(verdicts: map<Key, CommandApproval>, asked: seq<Request>)

  const EMPTY := Cache(map[], [])

  /** `judge(n)` is the reply to the n-th question of the run. */
  function Approve(judge: nat -> JudgeReply, c: Cache, r: Request): (Cache, CommandApproval) {
    var key := CacheKey(r);
    if key in c.verdicts then
      var v := c.verdicts[key];
      (c, v.(rationale := v.rationale + " (cached)"))
    else
      var v := JudgeVerdict(judge(|c.asked|));
      (Cache(c.verdicts[key := v], c.asked + [r]), v)
  }

  function ApproveAll(judge: nat -> JudgeReply, c: Cache, rs: seq<Request>): (Cache, seq<CommandApproval>) {
    if rs == [] then (c, [])
    else
      var (c1, front) := ApproveAll(judge, c, rs[..|rs| - 1]);
      var (c2, v) := Approve(judge, c1, rs[|rs| - 1]);
      (c2, front + [v])
  }

  function KeysOf(rs: seq<Request>): set<Key> {
    if rs == [] then {} else KeysOf(rs[..|rs| - 1]) + { CacheKey(rs[|rs| - 1]) }
  }

  /** The cache holds the judge's reply to every question asked and nothing else; no key was asked twice. */
  ghost predicate Faithful(judge: nat -> JudgeReply, c: Cache) {
    && c.verdicts.Keys == KeysOf(c.asked)
    && (forall i | 0 <= i < |c.asked| ::
         CacheKey(c.asked[i]) in c.verdicts && c.verdicts[CacheKey(c.asked[i])] == JudgeVerdict(judge(i)))
    && (forall i, j | 0 <= i < j < |c.asked| :: CacheKey(c.asked[i]) != CacheKey(c.asked[j]))
  }

  lemma ApproveFaithful(judge: nat -> JudgeReply, c: Cache, r: Request)
    requires Faithful(judge, c)
    ensures Faithful(judge, Approve(judge, c, r).0)
  {
    var key := CacheKey(r);
    if key !in c.verdicts {
      var v := JudgeVerdict(judge(|c.asked|));
      var c' := Cache(c.verdicts[key := v], c.asked + [r]);
      assert Approve(judge, c, r).0 == c';
      assert c'.asked[..|c.asked|] == c.asked;
      assert c'.verdicts.Keys == KeysOf(c'.asked);
      forall i | 0 <= i < |c'.asked|
        ensures CacheKey(c'.asked[i]) in c'.verdicts && c'.verdicts[CacheKey(c'.asked[i])] == JudgeVerdict(judge(i))
        ensures i < |c.asked| ==> CacheKey(c'.asked[i]) != key
      {
        if i < |c.asked| {
          assert c'.asked[i] == c.asked[i];
        }
      }
    }
  }

  /** `r` is the first request of the run with its key. */
  ghost predicate FirstWithKey(rs: seq<Request>, r: Request) {
    exists j | 0 <= j < |rs| :: rs[j] == r && forall i | 0 <= i < j :: CacheKey(rs[i]) != CacheKey(r)
  }

  /** Each request got the verdict on its key. */
  ghost predicate Served(rs: seq<Request>, c: Cache, vs: seq<CommandApproval>) {
    |vs| == |rs| &&
    forall i | 0 <= i < |rs| :: CacheKey(rs[i]) in c.verdicts && vs[i].allowed == c.verdicts[CacheKey(rs[i])].allowed
  }

  /** Every request the judge was asked is the first of the run with its key. */
  ghost predicate AskedFirst(rs: seq<Request>, c: Cache) {
    forall i | 0 <= i < |c.asked| :: FirstWithKey(rs, c.asked[i])
  }

  lemma ServeOne(judge: nat -> JudgeReply, front: seq<Request>, c: Cache, vs: seq<CommandApproval>, r: Request)
    requires Served(front, c, vs)
    ensures var (c', v) := Approve(judge, c, r); Served(front + [r], c', vs + [v])
  {
    var rs := front + [r];
    var (c', v) := Approve(judge, c, r);
    forall i | 0 <= i < |rs| ensures CacheKey(rs[i]) in c'.verdicts && (vs + [v])[i].allowed == c'.verdicts[CacheKey(rs[i])].allowed {
      if i < |front| {
        assert rs[i] == front[i];
      }
    }
  }

  lemma AskOne(judge: nat -> JudgeReply, front: seq<Request>, c: Cache, vs: seq<CommandApproval>, r: Request)
    requires Served(front, c, vs) && AskedFirst(front, c)
    ensures AskedFirst(front + [r], Approve(judge, c, r).0)
  {
    var rs, c' := front + [r], Approve(judge, c, r).0;
    assert forall k | 0 <= k < |front| :: rs[k] == front[k];
    forall i | 0 <= i < |c'.asked| ensures FirstWithKey(rs, c'.asked[i]) {
      if i < |c.asked| {
        assert FirstWithKey(front, c.asked[i]);
        var j :| 0 <= j < |front| && front[j] == c.asked[i] && forall k | 0 <= k < j :: CacheKey(front[k]) != CacheKey(c.asked[i]);
        assert rs[j] == c'.asked[i];
      } else {
        assert forall k | 0 <= k < |front| :: CacheKey(front[k]) in c.verdicts;
        assert rs[|front|] == c'.asked[i];
      }
    }
  }

  /**
   * Over any run of requests the judge is asked once per distinct key, the request it is asked is the first with that
   * key, and all requests with the key get the decision of its reply.
   */
  lemma {:induction false} OneVerdictPerKey(judge: nat -> JudgeReply, rs: seq<Request>)
    ensures var (c, vs) := ApproveAll(judge, EMPTY, rs); Faithful(judge, c) && Served(rs, c, vs) && AskedFirst(rs, c)
    decreases |rs|
  {
    if rs != [] {
      var front, r := rs[..|rs| - 1], rs[|rs| - 1];
      assert rs == front + [r];
      OneVerdictPerKey(judge, front);
      var (c, vs) := ApproveAll(judge, EMPTY, front);
      var (c', v) := Approve(judge, c, r);
      assert ApproveAll(judge, EMPTY, rs) == (c', vs + [v]);
      ApproveFaithful(judge, c, r);
      ServeOne(judge, front, c, vs, r);
      AskOne(judge, front, c, vs, r);
    }
  }

  /** Only a parsed, allowing reply allows. */
  predicate Allows(reply: JudgeReply) {
    reply.Parsed? && reply.allow
  }

  /** The judge's reply to the question with this key allows, or does not. */
  ghost predicate RepliedTo(judge: nat -> JudgeReply, asked: seq<Request>, key: Key, allowed: bool) {
    exists i | 0 <= i < |asked| :: CacheKey(asked[i]) == key && (allowed <==> Allows(judge(i)))
  }

  lemma CachedReply(judge: nat -> JudgeReply, c: Cache, key: Key)
    requires Faithful(judge, c) && key in c.verdicts
    ensures RepliedTo(judge, c.asked, key, c.verdicts[key].allowed)
  {
    KeyAsked(c.asked, key);
    var i :| 0 <= i < |c.asked| && CacheKey(c.asked[i]) == key;
    assert c.verdicts[key] == JudgeVerdict(judge(i));
  }

  class CachingApprover {
    const judge: nat -> JudgeReply
    var verdicts: map<Key, CommandApproval>
    var asked: seq<Request>

    function Model(): Cache
      reads this
    {
      Cache(verdicts, asked)
    }

    /** The cache holds the judge's reply to every question asked and nothing else. */
    ghost predicate Valid()
      reads this
    {
      Faithful(judge, Model())
    }

    constructor (judge: nat -> JudgeReply)
      ensures Valid() && Model() == EMPTY && this.judge == judge
    {
      this.judge := judge;
      verdicts, asked := map[], [];
    }

    /**
     * A known key costs no question; a new one costs exactly one, about this request. The request is allowed exactly
     * when the judge's reply to the one question with its key allows.
     */
    method Decide(r: Request) returns (v: CommandApproval)
      requires Valid()
      modifies this
      ensures Valid() && (Model(), v) == Approve(judge, old(Model()), r)
      ensures asked == old(asked) + if CacheKey(r) in KeysOf(old(asked)) then [] else [r]
      ensures RepliedTo(judge, asked, CacheKey(r), v.allowed)
    {
      ApproveFaithful(judge, Model(), r);
      var key := CacheKey(r);
      if key in verdicts {
        v := verdicts[key];
        CachedReply(judge, Model(), key);
        return v.(rationale := v.rationale + " (cached)");
      }
      v := JudgeVerdict(judge(|asked|));
      verdicts := verdicts[key := v];
      asked := asked + [r];
      CachedReply(judge, Model(), key);
    }
  }

  lemma {:induction false} KeyAsked(rs: seq<Request>, key: Key)
    ensures key in KeysOf(rs) <==> exists i | 0 <= i < |rs| :: CacheKey(rs[i]) == key
    decreases |rs|
  {
    if rs != [] {
      KeyAsked(rs[..|rs| - 1], key);
      if i :| 0 <= i < |rs| && CacheKey(rs[i]) == key {
        assert i < |rs| - 1 ==> rs[..|rs| - 1][i] == rs[i];
      }
    }
  }
}
