/** The three-tier gate for `bash` calls. */
module CommandGate {
  import opened Text
  import opened Paths

  datatype Tier = Safe | Risky | Blocked {
    /** SAFE < RISKY < BLOCKED */
    function Rank(): nat { match this case Safe => 0 case Risky => 1 case Blocked => 2 }
  }

  datatype Reason =
    | EmptyCommand | Composition | Unparseable | OnDeniedList(exe: string) | DeclaredPrefix(prefix: string)
    | UntrustedPath(raw: string) | NotWhitelisted(exe: string) | WritingFlag(exe: string, token: string)
    | OutsidePrefixes(token: string) | ReadOnlyCommand | MissingReason

  datatype Verdict = Verdict(tier: Tier, reason: Reason)

  const SAFE_COMMANDS: set<string> :=
    { "basename", "cat", "cut", "date", "dirname", "echo", "file", "grep", "head", "ls", "md5sum", "od", "pwd",
      "realpath", "readlink", "sha256sum", "sort", "stat", "tail", "tr", "uniq", "wc", "whoami" }

  const DENIED_COMMANDS: set<string> :=
    { "apt", "apt-get", "bash", "chmod", "chown", "cp", "dd", "docker", "kill", "kubectl", "mkdir", "mkfs", "mv",
      "nc", "node", "npm", "perl", "pip", "pip3", "pkill", "python", "python3", "rm", "rmdir", "rsync", "scp", "sh",
      "shred", "ssh", "su", "sudo", "tee", "touch", "truncate", "xargs", "zsh" }

  const COMPOSITION_CHARS: set<char> := { '|', '&', ';', '<', '>', '`', '$', '\n', '\r' }

  datatype Policy = Policy(safe: set<string>, denied: set<string>)

  const DEFAULT_POLICY := Policy(SAFE_COMMANDS, DENIED_COMMANDS)

  function Normalised(items: set<string>): set<string> {
    set item | item in items && !IsBlank(item) :: Lower(Strip(item))
  }

  function Tightened(p: Policy, disableSafe: set<string>, denyMore: set<string>): Policy {
    Policy(p.safe - Normalised(disableSafe), p.denied + Normalised(denyMore))
  }

  /** What the gate knows about its host: the shell tokenizer (it may fail) and the process directory. */
  datatype Host = Host(shlex: string -> Option<seq<string>>, workingDir: Location)

  predicate HasComposition(text: string) {
    exists i | 0 <= i < |text| :: text[i] in COMPOSITION_CHARS
  }

  function Unslash(s: string): string {
    seq(|s|, i requires 0 <= i < |s| => if s[i] == '\\' then '/' else s[i])
  }

  predicate IsTrustedExecutablePath(raw: string) {
    var n := Unslash(raw);
    StartsWith(n, "/bin/") || StartsWith(n, "/usr/bin/")
  }

  predicate IsUnsafeFlag(exe: string, token: string) {
    exe == "sort" && (token == "-o" || StartsWith(token, "-o=") || token == "--output" || StartsWith(token, "--output="))
  }

  /** Whether the command tokens start with the (non-empty) tokens of `declared`. */
  predicate Matches(tokens: seq<string>, declared: string) {
    var parts := Split(declared);
    parts != [] && parts <= tokens
  }

  /** The first declared prefix the command matches. */
  function MatchDeclared(tokens: seq<string>, declared: seq<string>): Option<string> {
    if declared == [] then None
    else if Matches(tokens, declared[0]) then Some(declared[0])
    else MatchDeclared(tokens, declared[1..])
  }

  function FirstUnsafeFlag(exe: string, args: seq<string>): Option<string> {
    if args == [] then None
    else if IsUnsafeFlag(exe, args[0]) then Some(args[0])
    else FirstUnsafeFlag(exe, args[1..])
  }

  predicate InsideSome(p: Location, roots: seq<Location>) {
    exists i | 0 <= i < |roots| :: Within(p, roots[i])
  }

  function FirstOutside(args: seq<string>, base: Location, roots: seq<Location>): Option<string> {
    if args == [] then None
    else if !StartsWith(args[0], "-") && !InsideSome(Resolve(base, args[0]), roots) then Some(args[0])
    else FirstOutside(args[1..], base, roots)
  }

  /** The deployment whitelist, consulted after the denied list and the declared prefixes. */
  function ClassifyReadOnly(tokens: seq<string>, prefixes: seq<string>, cwd: string, safe: set<string>, host: Host): Verdict
    requires tokens != []
  {
    var raw := tokens[0];
    var exe := Name(raw);
    if ('/' in raw || '\\' in raw) && !IsTrustedExecutablePath(raw) then Verdict(Risky, UntrustedPath(raw))
    else if exe !in safe then Verdict(Risky, NotWhitelisted(exe))
    else match FirstUnsafeFlag(exe, tokens[1..])
      case Some(flag) => Verdict(Risky, WritingFlag(exe, flag))
      case None =>
        var roots := seq(|prefixes|, i requires 0 <= i < |prefixes| => Resolve(host.workingDir, prefixes[i]));
        match FirstOutside(tokens[1..], Resolve(host.workingDir, cwd), roots)
        case Some(token) => Verdict(Risky, OutsidePrefixes(token))
        case None => Verdict(Safe, ReadOnlyCommand)
  }

  function ClassifyTokens(tokens: seq<string>, prefixes: seq<string>, cwd: string, policy: Policy,
                          declared: seq<string>, host: Host): Verdict
    requires tokens != []
  {
    var exe := Name(tokens[0]);
    if exe in policy.denied then Verdict(Blocked, OnDeniedList(exe))
    else match MatchDeclared(tokens, declared)
      case Some(prefix) => Verdict(Safe, DeclaredPrefix(prefix))
      case None => ClassifyReadOnly(tokens, prefixes, cwd, policy.safe, host)
  }

  function Classify(command: string, prefixes: seq<string>, cwd: string, policy: Policy,
                    declared: seq<string>, host: Host): Verdict
  {
    var text := Strip(command);
    if text == "" then Verdict(Blocked, EmptyCommand)
    else if HasComposition(text) then Verdict(Risky, Composition)
    else match host.shlex(text)
      case None => Verdict(Risky, Unparseable)
      case Some(tokens) =>
        if tokens == [] then Verdict(Blocked, EmptyCommand)
        else ClassifyTokens(tokens, prefixes, cwd, policy, declared, host)
  }

  /** The tokens the declared prefixes are compared with, when the gate gets that far. */
  function ComparedTokens(command: string, policy: Policy, host: Host): Option<seq<string>> {
    var text := Strip(command);
    if text == "" || HasComposition(text) then None
    else match host.shlex(text)
      case None => None
      case Some(tokens) => if tokens == [] || Name(tokens[0]) in policy.denied then None else Some(tokens)
  }

  /** The match is the first declared prefix that matches, if any does. */
  lemma {:induction false} MatchDeclaredFinds(tokens: seq<string>, declared: seq<string>)
    ensures MatchDeclared(tokens, declared).Some? <==> exists i | 0 <= i < |declared| :: Matches(tokens, declared[i])
    ensures forall i | 0 <= i < |declared| && Matches(tokens, declared[i]) && (forall j | 0 <= j < i :: !Matches(tokens, declared[j])) ::
              MatchDeclared(tokens, declared) == Some(declared[i])
  {
    if declared != [] {
      MatchDeclaredFinds(tokens, declared[1..]);
      assert forall i | 0 <= i < |declared| :: declared[i] == if i == 0 then declared[0] else declared[1..][i - 1];
      if Matches(tokens, declared[0]) {
      } else if i :| 0 <= i < |declared| && Matches(tokens, declared[i]) {
        assert declared[1..][i - 1] == declared[i];
      }
      forall i | 0 <= i < |declared| && Matches(tokens, declared[i]) && (forall j | 0 <= j < i :: !Matches(tokens, declared[j]))
        ensures MatchDeclared(tokens, declared) == Some(declared[i])
      {
        if i > 0 {
          assert !Matches(tokens, declared[0]);
          assert forall j | 0 <= j < i - 1 :: declared[1..][j] == declared[j + 1];
          assert Matches(tokens, declared[1..][i - 1]);
        }
      }
    }
  }

  // ---------------------------------------------------------------- what SAFE and BLOCKED mean

  lemma {:induction false} NoUnsafeFlag(exe: string, args: seq<string>)
    ensures FirstUnsafeFlag(exe, args).None? <==> forall i | 0 <= i < |args| :: !IsUnsafeFlag(exe, args[i])
  {
    if args != [] {
      NoUnsafeFlag(exe, args[1..]);
      assert forall i | 0 <= i < |args| :: args[i] == if i == 0 then args[0] else args[1..][i - 1];
    }
  }

  lemma {:induction false} NoneOutside(args: seq<string>, base: Location, roots: seq<Location>)
    ensures FirstOutside(args, base, roots).None? <==>
            forall i | 0 <= i < |args| :: StartsWith(args[i], "-") || InsideSome(Resolve(base, args[i]), roots)
  {
    if args != [] {
      NoneOutside(args[1..], base, roots);
      assert forall i | 0 <= i < |args| :: args[i] == if i == 0 then args[0] else args[1..][i - 1];
    }
  }

  /** A text the shell would do more with than run one command. */
  ghost predicate Composed(text: string) {
    exists c :: c in text && c in "|&;<>`$\n\r"
  }

  lemma ComposedIs(text: string)
    ensures HasComposition(text) <==> Composed(text)
  {
    if HasComposition(text) {
      var i :| 0 <= i < |text| && text[i] in COMPOSITION_CHARS;
      assert text[i] in text && text[i] in "|&;<>`$\n\r";
    }
    if c :| c in text && c in "|&;<>`$\n\r" {
      var i :| 0 <= i < |text| && text[i] == c;
      assert c in COMPOSITION_CHARS;
    }
  }

  /** `raw` starts with `dir`, a backslash counting as a slash. */
  ghost predicate Under(raw: string, dir: string) {
    |dir| <= |raw| && forall i | 0 <= i < |dir| :: raw[i] == dir[i] || (dir[i] == '/' && raw[i] == '\\')
  }

  /** The executable is named without a directory, or by a path into a trusted one. */
  ghost predicate FromTrustedPlace(raw: string) {
    ('/' !in raw && '\\' !in raw) || Under(raw, "/bin/") || Under(raw, "/usr/bin/")
  }

  lemma UnderIs(raw: string, dir: string)
    requires '\\' !in dir
    ensures StartsWith(Unslash(raw), dir) <==> Under(raw, dir)
  {
    var n := Unslash(raw);
    if StartsWith(n, dir) {
      forall i | 0 <= i < |dir| ensures raw[i] == dir[i] || (dir[i] == '/' && raw[i] == '\\') {
        assert n[i] == dir[i];
      }
    }
    if Under(raw, dir) {
      forall i | 0 <= i < |dir| ensures n[i] == dir[i] {
        assert dir[i] in dir;
      }
      assert n[..|dir|] == dir;
    }
  }

  lemma TrustedIs(raw: string)
    ensures FromTrustedPlace(raw) <==> ('/' in raw || '\\' in raw ==> IsTrustedExecutablePath(raw))
  {
    UnderIs(raw, "/bin/");
    UnderIs(raw, "/usr/bin/");
    if Under(raw, "/bin/") || Under(raw, "/usr/bin/") {
      assert raw[0] in raw;
    }
  }

  /** Every argument reads: none makes `sort` write, and each that is not an option lies under an allowed prefix. */
  ghost predicate OnlyReads(tokens: seq<string>, prefixes: seq<string>, cwd: string, host: Host)
    requires tokens != []
  {
    forall i | 1 <= i < |tokens| ::
      && (Name(tokens[0]) == "sort" ==>
            tokens[i] != "-o" && tokens[i] != "--output" && !("-o=" <= tokens[i]) && !("--output=" <= tokens[i]))
      && (StartsWith(tokens[i], "-") ||
          exists k | 0 <= k < |prefixes| ::
            Within(Resolve(Resolve(host.workingDir, cwd), tokens[i]), Resolve(host.workingDir, prefixes[k])))
  }

  /** The command, stripped, is not empty and not composed, and the tokenizer reads it as `tokens`. */
  ghost predicate Plain(command: string, host: Host, tokens: seq<string>) {
    !IsBlank(command) && !Composed(Strip(command)) && host.shlex(Strip(command)) == Some(tokens)
  }

  /**
   * A command is SAFE exactly when it is plain, its executable is not denied, and it matches a declared prefix or is a
   * whitelisted command from a trusted place all of whose arguments only read inside the allowed prefixes. It is
   * BLOCKED exactly when it is empty, before or after tokenizing, or its executable is denied.
   */
  lemma TierIff(command: string, prefixes: seq<string>, cwd: string, policy: Policy, declared: seq<string>, host: Host)
    ensures
      var tier := Classify(command, prefixes, cwd, policy, declared, host).tier;
      && (tier == Safe <==> exists tokens ::
            && Plain(command, host, tokens) && tokens != [] && Name(tokens[0]) !in policy.denied
            && (|| (exists i | 0 <= i < |declared| :: Split(declared[i]) != [] && Split(declared[i]) <= tokens)
                || (FromTrustedPlace(tokens[0]) && Name(tokens[0]) in policy.safe && OnlyReads(tokens, prefixes, cwd, host))))
      && (tier == Blocked <==>
            IsBlank(command) || exists tokens :: Plain(command, host, tokens) && (tokens == [] || Name(tokens[0]) in policy.denied))
  {
    var text := Strip(command);
    ComposedIs(text);
    if text != "" && !HasComposition(text) && host.shlex(text).Some? {
      var tokens := host.shlex(text).value;
      assert Plain(command, host, tokens);
      if tokens != [] {
        TokensIff(tokens, prefixes, cwd, policy, declared, host);
      }
    }
  }

  lemma TokensIff(tokens: seq<string>, prefixes: seq<string>, cwd: string, policy: Policy, declared: seq<string>, host: Host)
    requires tokens != []
    ensures
      var tier := ClassifyTokens(tokens, prefixes, cwd, policy, declared, host).tier;
      && (tier == Safe <==>
            && Name(tokens[0]) !in policy.denied
            && (|| (exists i | 0 <= i < |declared| :: Split(declared[i]) != [] && Split(declared[i]) <= tokens)
                || (FromTrustedPlace(tokens[0]) && Name(tokens[0]) in policy.safe && OnlyReads(tokens, prefixes, cwd, host))))
      && (tier == Blocked <==> Name(tokens[0]) in policy.denied)
  {
    MatchDeclaredFinds(tokens, declared);
    ReadOnlyIff(tokens, prefixes, cwd, policy.safe, host);
    if i :| 0 <= i < |declared| && Split(declared[i]) != [] && Split(declared[i]) <= tokens {
      assert Matches(tokens, declared[i]);
    }
  }

  lemma ReadOnlyIff(tokens: seq<string>, prefixes: seq<string>, cwd: string, safe: set<string>, host: Host)
    requires tokens != []
    ensures ClassifyReadOnly(tokens, prefixes, cwd, safe, host).tier != Blocked
    ensures ClassifyReadOnly(tokens, prefixes, cwd, safe, host).tier == Safe <==>
            FromTrustedPlace(tokens[0]) && Name(tokens[0]) in safe && OnlyReads(tokens, prefixes, cwd, host)
  {
    var exe, args, base := Name(tokens[0]), tokens[1..], Resolve(host.workingDir, cwd);
    var roots := seq(|prefixes|, i requires 0 <= i < |prefixes| => Resolve(host.workingDir, prefixes[i]));
    TrustedIs(tokens[0]);
    NoUnsafeFlag(exe, args);
    NoneOutside(args, base, roots);
    ArgumentsRead(tokens, prefixes, cwd, host, roots);
  }

  lemma ArgumentsRead(tokens: seq<string>, prefixes: seq<string>, cwd: string, host: Host, roots: seq<Location>)
    requires tokens != [] && roots == seq(|prefixes|, i requires 0 <= i < |prefixes| => Resolve(host.workingDir, prefixes[i]))
    ensures OnlyReads(tokens, prefixes, cwd, host) <==>
            forall i | 0 <= i < |tokens[1..]| ::
              && !IsUnsafeFlag(Name(tokens[0]), tokens[1..][i])
              && (StartsWith(tokens[1..][i], "-") || InsideSome(Resolve(Resolve(host.workingDir, cwd), tokens[1..][i]), roots))
  {
    var base := Resolve(host.workingDir, cwd);
    forall t: string
      ensures InsideSome(Resolve(base, t), roots) <==>
              exists k | 0 <= k < |prefixes| :: Within(Resolve(base, t), Resolve(host.workingDir, prefixes[k]))
    {
      if k :| 0 <= k < |prefixes| && Within(Resolve(base, t), Resolve(host.workingDir, prefixes[k])) {
        assert roots[k] == Resolve(host.workingDir, prefixes[k]);
      }
    }
    assert forall i | 1 <= i < |tokens| :: tokens[i] == tokens[1..][i - 1];
    assert forall i | 0 <= i < |tokens[1..]| :: tokens[1..][i] == tokens[i + 1];
  }

  /** Tightening either list never makes any command more permissive. */
  lemma TighteningNeverRelaxes(command: string, prefixes: seq<string>, cwd: string, p: Policy, q: Policy,
                               declared: seq<string>, host: Host)
    requires q.safe <= p.safe && p.denied <= q.denied
    ensures Classify(command, prefixes, cwd, p, declared, host).tier.Rank()
         <= Classify(command, prefixes, cwd, q, declared, host).tier.Rank()
  {
    var text := Strip(command);
    if text != "" && !HasComposition(text) && host.shlex(text).Some? && host.shlex(text).value != [] {
      var tokens := host.shlex(text).value;
      if MatchDeclared(tokens, declared).None? {
        var a := ClassifyReadOnly(tokens, prefixes, cwd, p.safe, host);
        var b := ClassifyReadOnly(tokens, prefixes, cwd, q.safe, host);
        assert b.tier == Safe ==> a.tier == Safe;
      }
    }
  }

  /** `tightened` only ever tightens, whatever the deployment lists hold. */
  lemma TightenedNeverRelaxes(command: string, prefixes: seq<string>, cwd: string, p: Policy,
                              disableSafe: set<string>, denyMore: set<string>, declared: seq<string>, host: Host)
    ensures Classify(command, prefixes, cwd, p, declared, host).tier.Rank()
         <= Classify(command, prefixes, cwd, Tightened(p, disableSafe, denyMore), declared, host).tier.Rank()
  {
    TighteningNeverRelaxes(command, prefixes, cwd, p, Tightened(p, disableSafe, denyMore), declared, host);
  }

  /** `tightened` takes from the safe list and adds to the denied list exactly the listed names, stripped and in lower case. */
  lemma TightenedExact(p: Policy, disableSafe: set<string>, denyMore: set<string>, name: string)
    ensures
      var q := Tightened(p, disableSafe, denyMore);
      && (name in q.safe <==> name in p.safe && !exists item :: item in disableSafe && !IsBlank(item) && Lower(Strip(item)) == name)
      && (name in q.denied <==> name in p.denied || exists item :: item in denyMore && !IsBlank(item) && Lower(Strip(item)) == name)
  {
  }

  /** So it bites: a plain command whose executable was added is BLOCKED, and one taken off the list needs a declared prefix. */
  lemma TightenedBites(command: string, prefixes: seq<string>, cwd: string, p: Policy, disableSafe: set<string>,
                       denyMore: set<string>, declared: seq<string>, host: Host, tokens: seq<string>, item: string)
    requires Plain(command, host, tokens) && tokens != [] && !IsBlank(item) && Lower(Strip(item)) == Name(tokens[0])
    ensures
      var tier := Classify(command, prefixes, cwd, Tightened(p, disableSafe, denyMore), declared, host).tier;
      && (item in denyMore ==> tier == Blocked)
      && (item in disableSafe && tier == Safe ==> exists i | 0 <= i < |declared| :: Split(declared[i]) != [] && Split(declared[i]) <= tokens)
  {
    var q := Tightened(p, disableSafe, denyMore);
    TightenedExact(p, disableSafe, denyMore, Name(tokens[0]));
    ComposedIs(Strip(command));
    TokensIff(tokens, prefixes, cwd, q, declared, host);
  }

  /**
   * What declaring prefixes does: it turns exactly the commands that reach the comparison and match
   * a declared prefix SAFE, and it leaves the whole verdict of every other command alone.
   */
  lemma DeclaredPrefixesEffect(command: string, prefixes: seq<string>, cwd: string, policy: Policy,
                               declared: seq<string>, host: Host)
    ensures
      var bare := Classify(command, prefixes, cwd, policy, [], host);
      var full := Classify(command, prefixes, cwd, policy, declared, host);
      var tokens := ComparedTokens(command, policy, host);
      var matched := tokens.Some? && exists i | 0 <= i < |declared| :: Matches(tokens.value, declared[i]);
      && (matched ==> bare.tier != Blocked && full.tier == Safe)
      && (!matched ==> full == bare)
  {
    var tokens := ComparedTokens(command, policy, host);
    if tokens.Some? {
      MatchDeclaredFinds(tokens.value, declared);
    }
  }

  /** Declared prefixes only ever move RISKY to SAFE: SAFE stays SAFE and BLOCKED stays BLOCKED. */
  lemma DeclaredOnlyRelaxesRisky(command: string, prefixes: seq<string>, cwd: string, policy: Policy,
                                 declared: seq<string>, host: Host)
    ensures
      var bare := Classify(command, prefixes, cwd, policy, [], host).tier;
      var full := Classify(command, prefixes, cwd, policy, declared, host).tier;
      && (bare == Safe ==> full == Safe)
      && (bare == Blocked <==> full == Blocked)
      && (full == Risky ==> bare == Risky)
  {
    DeclaredPrefixesEffect(command, prefixes, cwd, policy, declared, host);
  }
}
