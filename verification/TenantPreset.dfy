/** Tenant presets: normalisation, the part-wise fallback, and the run policy handed to the gate. */
module TenantPreset {
  import opened Text
  import opened Sorting
  import Gate = CommandGate
  import Digests

  datatype CliDaemon = CliDaemon(command: string, port: Option<int>)

  datatype CliApp = CliApp(cliId: string, entry: string, description: string, safePrefixes: seq<string>,
                           env: seq<string>, package: Option<string>, daemon: Option<CliDaemon>)

  datatype Preset = Preset(tenantId: string, name: string, description: string, cliApps: seq<CliApp>,
                           skills: seq<string>, env: seq<string>, createdAt: int, updatedAt: int)

  function NormalizePrefix(value: string): string {
    Join(Split(value))
  }

  function SafePrefixTokens(value: string): seq<string> {
    var n := NormalizePrefix(value);
    if n == "" then [] else Fields(n, [])
  }

  predicate NonEmpty(s: string) {
    s != ""
  }

  /** `dict.fromkeys(xs)`: the first occurrence of every item, in order. */
  function Dedup(xs: seq<string>): seq<string> {
    if xs == [] then []
    else
      var front := Dedup(xs[..|xs| - 1]);
      var last := xs[|xs| - 1];
      if last in front then front else front + [last]
  }

  function Compact(xs: seq<string>): seq<string> {
    Filter(NonEmpty, Dedup(xs))
  }

  function NormalizeAll(xs: seq<string>): seq<string> {
    seq(|xs|, i requires 0 <= i < |xs| => NormalizePrefix(xs[i]))
  }

  function Canonical(xs: seq<string>): seq<string> {
    Compact(NormalizeAll(xs))
  }

  function NormalizedDaemon(d: Option<CliDaemon>): Option<CliDaemon> {
    match d case None => None case Some(v) => Some(v.(command := NormalizePrefix(v.command)))
  }

  function NormalizedApp(app: CliApp): CliApp {
    app.(entry := NormalizePrefix(app.entry), safePrefixes := Canonical(app.safePrefixes),
         env := Compact(app.env), daemon := NormalizedDaemon(app.daemon))
  }

  function NormalizedApps(apps: seq<CliApp>): seq<CliApp> {
    seq(|apps|, i requires 0 <= i < |apps| => NormalizedApp(apps[i]))
  }

  function Normalized(p: Preset): Preset {
    p.(cliApps := NormalizedApps(p.cliApps), skills := Compact(p.skills), env := Compact(p.env))
  }

  /** The raw prefixes of a list of apps, in order. */
  function AllPrefixes(apps: seq<CliApp>): seq<string> {
    if apps == [] then [] else AllPrefixes(apps[..|apps| - 1]) + apps[|apps| - 1].safePrefixes
  }

  /** Part-wise fallback: a preset without CLI apps still gets the default set. */
  function ChosenApps(preset: Option<Preset>, default: Option<Preset>): seq<CliApp> {
    if preset.Some? && preset.value.cliApps != [] then preset.value.cliApps
    else if default.Some? then default.value.cliApps else []
  }

  function ResolvedApps(preset: Option<Preset>, default: Option<Preset>): seq<CliApp> {
    NormalizedApps(ChosenApps(preset, default))
  }

  /** What is hashed: the normalised preset without its timestamps, each app with its package digest. */
  datatype Payload = Payload(tenantId: string, name: string, description: string, apps: seq<(CliApp, string)>,
                             skills: seq<string>, env: seq<string>)

  function DigestOf(digests: map<string, string>, cliId: string): string {
    if cliId in digests then digests[cliId] else ""
  }

  function ContentPayload(p: Preset, digests: map<string, string>): Payload {
    var n := Normalized(p);
    Payload(n.tenantId, n.name, n.description,
            seq(|n.cliApps|, i requires 0 <= i < |n.cliApps| => (n.cliApps[i], DigestOf(digests, n.cliApps[i].cliId))),
            n.skills, n.env)
  }

  // ---------------------------------------------------------------- normalisation of one prefix

  /** Normalising keeps the tokens, so it is idempotent and `safe_prefix_tokens` is `split()`. */
  lemma NormalizeKeepsTokens(value: string)
    ensures Split(NormalizePrefix(value)) == Split(value)
    ensures NormalizePrefix(NormalizePrefix(value)) == NormalizePrefix(value)
    ensures SafePrefixTokens(value) == Split(value)
  {
    WordsAreWords(value, []);
    SplitJoin(Split(value));
    if Split(value) != [] {
      FieldsJoin(Split(value));
      assert Split(value)[0] != [];
    }
  }

  // ---------------------------------------------------------------- de-duplication

  predicate Distinct(xs: seq<string>) {
    forall i, j | 0 <= i < j < |xs| :: xs[i] != xs[j]
  }

  lemma {:induction false} DedupDistinct(xs: seq<string>)
    ensures Distinct(Dedup(xs)) && forall z :: z in Dedup(xs) <==> z in xs
  {
    if xs != [] {
      DedupDistinct(xs[..|xs| - 1]);
      assert xs == xs[..|xs| - 1] + [xs[|xs| - 1]];
    }
  }

  lemma {:induction false} DedupFixed(xs: seq<string>)
    requires Distinct(xs)
    ensures Dedup(xs) == xs
  {
    if xs != [] {
      DedupFixed(xs[..|xs| - 1]);
    }
  }

  lemma {:induction false} FilterDistinct(xs: seq<string>)
    requires Distinct(xs)
    ensures Distinct(Filter(NonEmpty, xs))
  {
    if xs != [] {
      assert Distinct(xs[1..]);
      FilterDistinct(xs[1..]);
      FilterFrom(NonEmpty, xs[1..]);
    }
  }

  lemma CompactIdempotent(xs: seq<string>)
    ensures Compact(Compact(xs)) == Compact(xs)
    ensures forall z :: z in Compact(xs) <==> z in xs && z != ""
  {
    DedupDistinct(xs);
    FilterDistinct(Dedup(xs));
    FilterFrom(NonEmpty, Dedup(xs));
    DedupFixed(Compact(xs));
    FilterKeeps(NonEmpty, Compact(xs));
  }

  /** The appending loop of the policy builder computes the canonical list one item at a time. */
  lemma CanonicalSnoc(xs: seq<string>, z: string)
    ensures Canonical(xs + [z]) ==
            var n := NormalizePrefix(z);
            if n != "" && n !in Canonical(xs) then Canonical(xs) + [n] else Canonical(xs)
  {
    var n := NormalizePrefix(z);
    var ms := NormalizeAll(xs);
    assert NormalizeAll(xs + [z]) == ms + [n];
    assert (ms + [n])[..|ms|] == ms;
    CompactIdempotent(ms);
    DedupDistinct(ms);
    FilterConcat(NonEmpty, Dedup(ms), [n]);
  }

  lemma CanonicalIdempotent(xs: seq<string>)
    ensures Canonical(Canonical(xs)) == Canonical(xs)
  {
    var cs := Canonical(xs);
    CompactIdempotent(NormalizeAll(xs));
    assert NormalizeAll(cs) == cs by {
      forall i | 0 <= i < |cs| ensures NormalizePrefix(cs[i]) == cs[i] {
        assert cs[i] in cs;
        var k :| 0 <= k < |xs| && NormalizeAll(xs)[k] == cs[i];
        NormalizeKeepsTokens(xs[k]);
      }
    }
  }

  // ---------------------------------------------------------------- the gate decides the same

  function NormalizedMatch(m: Option<string>): Option<string> {
    match m case None => None case Some(p) => Some(NormalizePrefix(p))
  }

  lemma {:induction false} MatchConcat(tokens: seq<string>, xs: seq<string>, ys: seq<string>)
    ensures Gate.MatchDeclared(tokens, xs + ys) ==
            var m := Gate.MatchDeclared(tokens, xs); if m.Some? then m else Gate.MatchDeclared(tokens, ys)
  {
    if xs == [] {
      assert xs + ys == ys;
    } else {
      assert (xs + ys)[1..] == xs[1..] + ys;
      MatchConcat(tokens, xs[1..], ys);
    }
  }

  /** The canonical list matches a command exactly when the raw list does, at the same declared prefix. */
  lemma {:induction false} MatchCanonical(tokens: seq<string>, xs: seq<string>)
    ensures Gate.MatchDeclared(tokens, Canonical(xs)) == NormalizedMatch(Gate.MatchDeclared(tokens, xs))
    decreases |xs|
  {
    if xs != [] {
      var front, z := xs[..|xs| - 1], xs[|xs| - 1];
      assert xs == front + [z];
      MatchCanonical(tokens, front);
      MatchConcat(tokens, front, [z]);
      CanonicalSnoc(front, z);
      NormalizeKeepsTokens(z);
      var n := NormalizePrefix(z);
      assert Gate.Matches(tokens, n) == Gate.Matches(tokens, z);
      MatchConcat(tokens, Canonical(front), [n]);
      if Gate.Matches(tokens, z) {
        assert n != "";
        if n in Canonical(front) {
          Gate.MatchDeclaredFinds(tokens, Canonical(front));
        }
      }
    }
  }

  lemma {:induction false} MatchApps(tokens: seq<string>, apps: seq<CliApp>)
    ensures Gate.MatchDeclared(tokens, AllPrefixes(NormalizedApps(apps)))
         == NormalizedMatch(Gate.MatchDeclared(tokens, AllPrefixes(apps)))
    decreases |apps|
  {
    if apps != [] {
      var front, app := apps[..|apps| - 1], apps[|apps| - 1];
      assert NormalizedApps(apps)[..|apps| - 1] == NormalizedApps(front);
      MatchApps(tokens, front);
      MatchCanonical(tokens, app.safePrefixes);
      MatchConcat(tokens, AllPrefixes(front), app.safePrefixes);
      MatchConcat(tokens, AllPrefixes(NormalizedApps(front)), Canonical(app.safePrefixes));
    }
  }

  /** The verdict a caller sees, up to the spelling of the declared prefix it quotes. */
  function UpToSpelling(v: Gate.Verdict): Gate.Verdict {
    if v.reason.DeclaredPrefix? then v.(reason := Gate.DeclaredPrefix(NormalizePrefix(v.reason.prefix))) else v
  }

  /**
   * Policy normalisation preserves the gate's meaning: for every command the verdict under the resolved, flattened,
   * de-duplicated prefixes is the verdict under the raw prefixes of the tenant's own apps if it has any, else of the
   * default preset's, else of none.
   */
  lemma PolicyPreservesGate(preset: Option<Preset>, default: Option<Preset>, command: string,
                            prefixes: seq<string>, cwd: string, policy: Gate.Policy, host: Gate.Host)
    ensures
      var own := if preset.Some? then preset.value.cliApps else [];
      var fallback := if default.Some? then default.value.cliApps else [];
      var raw := Gate.Classify(command, prefixes, cwd, policy, AllPrefixes(if |own| > 0 then own else fallback), host);
      var sent := Gate.Classify(command, prefixes, cwd, policy,
                                Canonical(AllPrefixes(ResolvedApps(preset, default))), host);
      sent == UpToSpelling(raw) && sent.tier == raw.tier
  {
    var apps := ChosenApps(preset, default);
    var tokens := Gate.ComparedTokens(command, policy, host);
    if tokens.Some? {
      MatchApps(tokens.value, apps);
      MatchCanonical(tokens.value, AllPrefixes(ResolvedApps(preset, default)));
      var m := Gate.MatchDeclared(tokens.value, AllPrefixes(apps));
      if m.Some? {
        NormalizeKeepsTokens(m.value);
      }
    }
  }

  /** The prefixes of a list of apps are those of the apps. */
  lemma {:induction false} AllPrefixesIs(apps: seq<CliApp>, p: string)
    ensures p in AllPrefixes(apps) <==> exists i | 0 <= i < |apps| :: p in apps[i].safePrefixes
    decreases |apps|
  {
    if apps != [] {
      AllPrefixesIs(apps[..|apps| - 1], p);
      assert forall i | 0 <= i < |apps| - 1 :: apps[..|apps| - 1][i] == apps[i];
    }
  }

  lemma CanonicalNext(before: seq<string>, prefixes: seq<string>, j: nat)
    requires j < |prefixes|
    ensures Canonical(before + prefixes[..j + 1]) ==
            var n := NormalizePrefix(prefixes[j]);
            var done := Canonical(before + prefixes[..j]);
            if n != "" && n !in done then done + [n] else done
  {
    assert before + prefixes[..j + 1] == before + prefixes[..j] + [prefixes[j]];
    CanonicalSnoc(before + prefixes[..j], prefixes[j]);
  }

  /** The policy builder: nested loops that append each new, non-empty normalised prefix. */
  method CliPolicyFromFields(apps: seq<CliApp>) returns (allowed: seq<string>)
    ensures allowed == Canonical(AllPrefixes(apps))
    ensures Distinct(allowed) && forall p :: p in allowed ==> p != "" && NormalizePrefix(p) == p
  {
    allowed := [];
    for i := 0 to |apps|
      invariant allowed == Canonical(AllPrefixes(apps[..i]))
    {
      var prefixes := apps[i].safePrefixes;
      ghost var before := AllPrefixes(apps[..i]);
      assert before + prefixes[..0] == before;
      for j := 0 to |prefixes|
        invariant allowed == Canonical(before + prefixes[..j])
      {
        var n := NormalizePrefix(prefixes[j]);
        CanonicalNext(before, prefixes, j);
        if n != "" && n !in allowed {
          allowed := allowed + [n];
        }
      }
      assert prefixes[..|prefixes|] == prefixes;
      assert AllPrefixes(apps[..i + 1]) == before + prefixes by {
        assert apps[..i + 1][..i] == apps[..i];
      }
    }
    assert apps[..|apps|] == apps;
    CanonicalClean(AllPrefixes(apps));
  }

  /** The canonical prefixes are distinct, not empty and normalised. */
  lemma CanonicalClean(prefixes: seq<string>)
    ensures Distinct(Canonical(prefixes)) && forall p :: p in Canonical(prefixes) ==> p != "" && NormalizePrefix(p) == p
  {
    var raw := NormalizeAll(prefixes);
    CompactIdempotent(raw);
    DedupDistinct(raw);
    FilterDistinct(Dedup(raw));
    forall p | p in Canonical(prefixes) ensures NormalizePrefix(p) == p {
      assert p in raw;
      var k :| 0 <= k < |raw| && raw[k] == p;
      NormalizeKeepsTokens(prefixes[k]);
    }
  }

  // ---------------------------------------------------------------- the content hash

  lemma NormalizedAppIdempotent(app: CliApp)
    ensures NormalizedApp(NormalizedApp(app)) == NormalizedApp(app)
  {
    NormalizeKeepsTokens(app.entry);
    CanonicalIdempotent(app.safePrefixes);
    CompactIdempotent(app.env);
    if app.daemon.Some? {
      NormalizeKeepsTokens(app.daemon.value.command);
    }
  }

  /** `ys` are the non-empty items of `xs`, each once. */
  ghost predicate Condenses(xs: seq<string>, ys: seq<string>) {
    Distinct(ys) && forall z :: z in ys <==> z in xs && z != ""
  }

  lemma CompactCondenses(xs: seq<string>)
    ensures Condenses(xs, Compact(xs))
  {
    CompactIdempotent(xs);
    DedupDistinct(xs);
    FilterDistinct(Dedup(xs));
  }

  /** What normalising an app keeps and changes, part by part. */
  lemma NormalizedAppKeeps(app: CliApp)
    ensures
      var n := NormalizedApp(app);
      && n.cliId == app.cliId && n.description == app.description && n.package == app.package
      && Split(n.entry) == Split(app.entry) && Condenses(app.env, n.env) && Condenses(NormalizeAll(app.safePrefixes), n.safePrefixes)
      && (n.daemon.Some? <==> app.daemon.Some?)
      && (n.daemon.Some? ==> n.daemon.value.port == app.daemon.value.port && Split(n.daemon.value.command) == Split(app.daemon.value.command))
  {
    NormalizeKeepsTokens(app.entry);
    CompactCondenses(app.env);
    CompactCondenses(NormalizeAll(app.safePrefixes));
    if app.daemon.Some? {
      NormalizeKeepsTokens(app.daemon.value.command);
    }
  }

  /** Normalising a preset keeps its apps in order, each normalised, and the names of its skills and environment. */
  lemma NormalizedKeeps(p: Preset)
    ensures
      var n := Normalized(p);
      && n.(cliApps := p.cliApps, skills := p.skills, env := p.env) == p
      && Condenses(p.skills, n.skills) && Condenses(p.env, n.env) && |n.cliApps| == |p.cliApps|
      && forall i | 0 <= i < |p.cliApps| :: n.cliApps[i] == NormalizedApp(p.cliApps[i])
  {
    CompactCondenses(p.skills);
    CompactCondenses(p.env);
  }

  /** Normalisation is idempotent on whole presets. */
  lemma NormalizedIdempotent(p: Preset)
    ensures Normalized(Normalized(p)) == Normalized(p)
  {
    CompactIdempotent(p.skills);
    CompactIdempotent(p.env);
    forall i | 0 <= i < |p.cliApps| ensures NormalizedApp(NormalizedApp(p.cliApps[i])) == NormalizedApp(p.cliApps[i]) {
      NormalizedAppIdempotent(p.cliApps[i]);
    }
    assert NormalizedApps(NormalizedApps(p.cliApps)) == NormalizedApps(p.cliApps);
  }

  /** The content hash is unchanged by normalising first. */
  lemma HashIgnoresNormalisation<D>(hash: Payload -> D, p: Preset, digests: map<string, string>)
    ensures hash(ContentPayload(Normalized(p), digests)) == hash(ContentPayload(p, digests))
  {
    NormalizedIdempotent(p);
  }

  /**
   * Two uploads get the same hash exactly when they normalise to the same preset (timestamps aside)
   * and every app has the same package digest, an absent one counting as empty.
   */
  lemma HashIdentifiesContent<D>(hash: Payload -> D, p: Preset, pd: map<string, string>, q: Preset, qd: map<string, string>)
    requires Digests.Injective(hash)
    ensures hash(ContentPayload(p, pd)) == hash(ContentPayload(q, qd)) <==>
            && Normalized(p).(createdAt := 0, updatedAt := 0) == Normalized(q).(createdAt := 0, updatedAt := 0)
            && forall i | 0 <= i < |p.cliApps| ::
                 var id := p.cliApps[i].cliId; (if id in pd then pd[id] else "") == (if id in qd then qd[id] else "")
  {
    var a, b := ContentPayload(p, pd), ContentPayload(q, qd);
    var np, nq := Normalized(p), Normalized(q);
    if a == b {
      forall i | 0 <= i < |p.cliApps| ensures np.cliApps[i] == nq.cliApps[i]
        && DigestOf(pd, p.cliApps[i].cliId) == DigestOf(qd, p.cliApps[i].cliId)
      {
        assert a.apps[i] == b.apps[i];
        assert a.apps[i].0 == np.cliApps[i] && b.apps[i].0 == nq.cliApps[i];
        assert a.apps[i].1 == DigestOf(pd, np.cliApps[i].cliId) && b.apps[i].1 == DigestOf(qd, nq.cliApps[i].cliId);
      }
      assert |a.apps| == |b.apps|;
      assert np.cliApps == nq.cliApps;
    }
    if np.(createdAt := 0, updatedAt := 0) == nq.(createdAt := 0, updatedAt := 0)
      && forall i | 0 <= i < |p.cliApps| :: DigestOf(pd, p.cliApps[i].cliId) == DigestOf(qd, p.cliApps[i].cliId) {
      assert np.cliApps == nq.cliApps;
      forall i | 0 <= i < |a.apps| ensures a.apps[i] == b.apps[i] {
        assert np.cliApps[i].cliId == p.cliApps[i].cliId;
      }
      assert a == b;
    }
  }
}
