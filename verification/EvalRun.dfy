/**
 * An evaluation run: bounded concurrency and per-case workspaces, under every interleaving of the cases. All cases share
 * one store of workspaces; each works on a clone of the baseline that it names by id.
 */
module EvalRun {
  import opened Text

  datatype Verdict = PASS | FAIL | ERROR | UNCERTAIN

  datatype Case = Case(id: int, task: string)

  datatype Result = Result(caseId: int, task: string, verdict: Verdict, detail: string)

  /** The files of a workspace. */
  type Content = map<string, string>

  type WorkspaceId = int

  /** A step of a case, from one suspension point to the next: it rewrites the workspace it is handed, or raises. */
  datatype Effect = Rewrite(content: Content) | Raise(error: string)

  /** What a case does: whether cloning fails, its steps, and the judgement of the workspace it leaves. */
  datatype Behaviour = Behaviour(cloneFails: Option<string>, steps: seq<Content -> Effect>, judge: Content -> (Verdict, string))

  /** Where the coroutine of one case is. */
  datatype Phase =
    | Queued                                        // waiting for the semaphore
    | Entered                                       // holds a permit, no clone yet
    | Working(clone: WorkspaceId, at: nat)          // about to take step `at` on its clone
    | Leaving(clone: WorkspaceId, result: Result)   // in `finally`: clean-up not attempted yet
    | Releasing(result: Result)                     // about to give the permit back
    | Finished(result: Result)

  /** `used` are the ids ever given out; `created` and `cleaned` the clones made and the clean-ups attempted. */
  datatype State = State(phases: seq<Phase>, permits: int, store: map<WorkspaceId, Content>, used: set<WorkspaceId>,
                         created: multiset<WorkspaceId>, cleaned: multiset<WorkspaceId>)

  /** Case `i` runs to its next suspension point; `drawn` is the id drawn for a clone, `fails` is a failing deletion. */
  datatype Action = Advance(i: nat, drawn: WorkspaceId, fails: bool)

  /** The dataset: its cases, what they do, and the workspace it starts from. */
  datatype Dataset = Dataset(cases: seq<Case>, behaviours: seq<Behaviour>, baseline: WorkspaceId)

  predicate WellFormed(d: Dataset) {
    |d.cases| == |d.behaviours|
  }

  function ErrorResult(c: Case, error: string): Result {
    Result(c.id, c.task, ERROR, error)
  }

  function Judge(c: Case, b: Behaviour, content: Content): Result {
    var (verdict, detail) := b.judge(content);
    Result(c.id, c.task, verdict, detail)
  }

  const MISSING := "workspace does not exist"

  function Initial(d: Dataset, store: map<WorkspaceId, Content>, limit: nat): State {
    State(seq(|d.cases|, i => Queued), limit, store, store.Keys + {d.baseline}, multiset{}, multiset{})
  }

  predicate Enabled(s: State, a: Action) {
    a.i < |s.phases| && match s.phases[a.i]
      case Queued => s.permits > 0
      case Entered => a.drawn !in s.used
      case Finished(_) => false
      case _ => true
  }

  /** `create_from_version`: a copy of the baseline under a fresh id, or a failure. */
  function Clone(d: Dataset, s: State, a: Action): State
    requires WellFormed(d) && a.i < |s.phases| == |d.cases|
  {
    var c, b := d.cases[a.i], d.behaviours[a.i];
    if d.baseline !in s.store then s.(phases := s.phases[a.i := Releasing(ErrorResult(c, MISSING))])
    else if b.cloneFails.Some? then s.(phases := s.phases[a.i := Releasing(ErrorResult(c, b.cloneFails.value))])
    else s.(phases := s.phases[a.i := Working(a.drawn, 0)], store := s.store[a.drawn := s.store[d.baseline]],
            used := s.used + {a.drawn}, created := s.created + multiset{a.drawn})
  }

  /** One step on the clone, or the judgement of it after the last; a clone that is gone is an error. */
  function Work(d: Dataset, s: State, i: nat): State
    requires WellFormed(d) && i < |s.phases| == |d.cases| && s.phases[i].Working?
  {
    var c, b, w, at := d.cases[i], d.behaviours[i], s.phases[i].clone, s.phases[i].at;
    if w !in s.store then s.(phases := s.phases[i := Leaving(w, ErrorResult(c, MISSING))])
    else if at >= |b.steps| then s.(phases := s.phases[i := Leaving(w, Judge(c, b, s.store[w]))])
    else match b.steps[at](s.store[w])
      case Raise(error) => s.(phases := s.phases[i := Leaving(w, ErrorResult(c, error))])
      case Rewrite(content) => s.(phases := s.phases[i := Working(w, at + 1)], store := s.store[w := content])
  }

  /** A disabled action changes nothing. */
  function Next(d: Dataset, s: State, a: Action): State
    requires WellFormed(d) && |s.phases| == |d.cases|
  {
    if !Enabled(s, a) then s
    else match s.phases[a.i]
      case Queued => s.(phases := s.phases[a.i := Entered], permits := s.permits - 1)
      case Entered => Clone(d, s, a)
      case Working(_, _) => Work(d, s, a.i)
      case Leaving(w, r) =>
        s.(phases := s.phases[a.i := Releasing(r)], cleaned := s.cleaned + multiset{w},
           store := if a.fails then s.store else s.store - {w})
      case Releasing(r) => s.(phases := s.phases[a.i := Finished(r)], permits := s.permits + 1)
  }

  function Run(d: Dataset, store: map<WorkspaceId, Content>, limit: nat, schedule: seq<Action>): (s: State)
    requires WellFormed(d)
    ensures |s.phases| == |d.cases|
  {
    if schedule == [] then Initial(d, store, limit)
    else Next(d, Run(d, store, limit, schedule[..|schedule| - 1]), schedule[|schedule| - 1])
  }

  // ---------------------------------------------------------------- a case on its own

  /** The rest of a case's work on a workspace nobody else touches. */
  function SoloFrom(c: Case, b: Behaviour, at: nat, content: Content): Result
    decreases |b.steps| - at
  {
    if at >= |b.steps| then Judge(c, b, content)
    else match b.steps[at](content)
      case Raise(error) => ErrorResult(c, error)
      case Rewrite(content') => SoloFrom(c, b, at + 1, content')
  }

  /** The result of a case that has the whole service to itself. */
  function Solo(c: Case, b: Behaviour, baseline: Option<Content>): Result {
    match baseline
    case None => ErrorResult(c, MISSING)
    case Some(content) => if b.cloneFails.Some? then ErrorResult(c, b.cloneFails.value) else SoloFrom(c, b, 0, content)
  }

  function Lookup(store: map<WorkspaceId, Content>, w: WorkspaceId): Option<Content> {
    if w in store then Some(store[w]) else None
  }

  /** The contents a workspace goes through, one per step taken, starting from `first`. */
  ghost predicate Contents(b: Behaviour, first: Content, xs: seq<Content>) {
    && 0 < |xs| <= |b.steps| + 1 && xs[0] == first
    && forall j | 0 <= j < |xs| - 1 :: b.steps[j](xs[j]) == Rewrite(xs[j + 1])
  }

  /** The case took every step, or the step after the last content raised. */
  ghost predicate EndsWith(c: Case, b: Behaviour, xs: seq<Content>, r: Result)
    requires 0 < |xs| <= |b.steps| + 1
  {
    var last := xs[|xs| - 1];
    if |xs| == |b.steps| + 1 then (r.verdict, r.detail) == b.judge(last)
    else b.steps[|xs| - 1](last).Raise? && r.verdict == ERROR && r.detail == b.steps[|xs| - 1](last).error
  }

  /**
   * What the result of a case means. It carries the case's id and task. A missing baseline, a clone that fails and a step
   * that raises on what the earlier steps left make it an ERROR with that error; otherwise it is the judge's verdict on
   * what all the steps left.
   */
  ghost predicate Means(c: Case, b: Behaviour, baseline: Option<Content>, r: Result) {
    && r.caseId == c.id && r.task == c.task
    && (if baseline.None? then r.verdict == ERROR && r.detail == MISSING
        else if b.cloneFails.Some? then r.verdict == ERROR && r.detail == b.cloneFails.value
        else exists xs :: Contents(b, baseline.value, xs) && EndsWith(c, b, xs, r))
  }

  lemma {:induction false} SoloFromMeans(c: Case, b: Behaviour, first: Content, xs: seq<Content>) returns (ys: seq<Content>)
    requires Contents(b, first, xs)
    ensures Contents(b, first, ys) && EndsWith(c, b, ys, SoloFrom(c, b, |xs| - 1, xs[|xs| - 1]))
    ensures SoloFrom(c, b, |xs| - 1, xs[|xs| - 1]).caseId == c.id && SoloFrom(c, b, |xs| - 1, xs[|xs| - 1]).task == c.task
    decreases |b.steps| + 1 - |xs|
  {
    ys := xs;
    var at, content := |xs| - 1, xs[|xs| - 1];
    if at < |b.steps| && b.steps[at](content).Rewrite? {
      ys := SoloFromMeans(c, b, first, xs + [b.steps[at](content).content]);
    }
  }

  lemma SoloMeans(c: Case, b: Behaviour, baseline: Option<Content>)
    ensures Means(c, b, baseline, Solo(c, b, baseline))
  {
    if baseline.Some? && b.cloneFails.None? {
      var ys := SoloFromMeans(c, b, baseline.value, [baseline.value]);
    }
  }

  // ---------------------------------------------------------------- the invariant

  predicate HoldsPermit(p: Phase) {
    !p.Queued? && !p.Finished?
  }

  /** How many cases are in flight. */
  function InFlight(phases: seq<Phase>): nat {
    if phases == [] then 0 else (if HoldsPermit(phases[0]) then 1 else 0) + InFlight(phases[1..])
  }

  lemma {:induction false} InFlightUpdate(phases: seq<Phase>, i: nat, p: Phase)
    requires i < |phases|
    ensures InFlight(phases[i := p]) + (if HoldsPermit(phases[i]) then 1 else 0) == InFlight(phases) + (if HoldsPermit(p) then 1 else 0)
  {
    if i == 0 {
      assert phases[i := p][1..] == phases[1..];
    } else {
      assert phases[i := p][1..] == phases[1..][i - 1 := p];
      InFlightUpdate(phases[1..], i - 1, p);
    }
  }

  lemma {:induction false} NoneInFlight(phases: seq<Phase>)
    requires forall i | 0 <= i < |phases| :: !HoldsPermit(phases[i])
    ensures InFlight(phases) == 0
  {
    if phases != [] {
      NoneInFlight(phases[1..]);
    }
  }

  predicate Owns(p: Phase) {
    p.Working? || p.Leaving?
  }

  /** Permits are conserved. */
  ghost predicate PermitsOk(limit: nat, s: State) {
    && 0 <= s.permits && s.permits + InFlight(s.phases) == limit
    && (limit == 0 ==> forall i | 0 <= i < |s.phases| :: s.phases[i] == Queued)
  }

  /** Every clone in use has one owner, exists, was given out, and is not the baseline; the baseline is as it was. */
  ghost predicate ClonesApart(d: Dataset, baseline: Option<Content>, s: State) {
    && Lookup(s.store, d.baseline) == baseline && d.baseline in s.used
    && (forall i | 0 <= i < |s.phases| && Owns(s.phases[i]) ::
          s.phases[i].clone in s.used && s.phases[i].clone in s.store && s.phases[i].clone != d.baseline)
    && (forall i, j | 0 <= i < j < |s.phases| && Owns(s.phases[i]) && Owns(s.phases[j]) :: s.phases[i].clone != s.phases[j].clone)
  }

  /** What a case still has to do leads to its solo result. */
  ghost predicate CaseOk(c: Case, b: Behaviour, baseline: Option<Content>, p: Phase, store: map<WorkspaceId, Content>) {
    match p
    case Queued => true
    case Entered => true
    case Working(w, at) => w in store && at <= |b.steps| && SoloFrom(c, b, at, store[w]) == Solo(c, b, baseline)
    case Leaving(_, r) => r == Solo(c, b, baseline)
    case Releasing(r) => r == Solo(c, b, baseline)
    case Finished(r) => r == Solo(c, b, baseline)
  }

  ghost predicate CasesOk(d: Dataset, baseline: Option<Content>, s: State)
    requires WellFormed(d) && |s.phases| == |d.cases|
  {
    forall i | 0 <= i < |s.phases| :: CaseOk(d.cases[i], d.behaviours[i], baseline, s.phases[i], s.store)
  }

  /** Each id was created at most once, and cleaned exactly if it was created and is no longer owned. */
  ghost predicate AccountOk(s: State, w: WorkspaceId) {
    && s.created[w] <= 1 && (w in s.created ==> w in s.used)
    && (forall i | 0 <= i < |s.phases| && Owns(s.phases[i]) && s.phases[i].clone == w :: s.created[w] == 1 && s.cleaned[w] == 0)
    && (s.cleaned[w] != s.created[w] ==> exists i | 0 <= i < |s.phases| :: Owns(s.phases[i]) && s.phases[i].clone == w)
  }

  lemma PermitsStep(d: Dataset, limit: nat, s: State, a: Action)
    requires WellFormed(d) && |s.phases| == |d.cases| && PermitsOk(limit, s)
    ensures PermitsOk(limit, Next(d, s, a))
  {
    if Enabled(s, a) {
      var s' := Next(d, s, a);
      InFlightUpdate(s.phases, a.i, s'.phases[a.i]);
      assert s'.phases == s.phases[a.i := s'.phases[a.i]];
    }
  }

  lemma BaselineStep(d: Dataset, baseline: Option<Content>, s: State, a: Action)
    requires WellFormed(d) && |s.phases| == |d.cases| && ClonesApart(d, baseline, s)
    ensures Lookup(Next(d, s, a).store, d.baseline) == baseline && s.used <= Next(d, s, a).used
  {
  }

  lemma OwnerStep(d: Dataset, baseline: Option<Content>, s: State, a: Action, i: nat)
    requires WellFormed(d) && |s.phases| == |d.cases| && ClonesApart(d, baseline, s)
    requires i < |s.phases| && Owns(Next(d, s, a).phases[i])
    ensures
      var s' := Next(d, s, a);
      var w := s'.phases[i].clone;
      && w in s'.used && w in s'.store && w != d.baseline
      && (if Owns(s.phases[i]) then w == s.phases[i].clone else i == a.i && w !in s.used)
  {
    if i != a.i {
      StepSparesOthers(d, baseline, s, a, i);
    }
  }

  lemma ClonesStep(d: Dataset, baseline: Option<Content>, s: State, a: Action)
    requires WellFormed(d) && |s.phases| == |d.cases| && ClonesApart(d, baseline, s)
    ensures ClonesApart(d, baseline, Next(d, s, a))
  {
    var s' := Next(d, s, a);
    BaselineStep(d, baseline, s, a);
    forall i | 0 <= i < |s'.phases| && Owns(s'.phases[i])
      ensures s'.phases[i].clone in s'.used && s'.phases[i].clone in s'.store && s'.phases[i].clone != d.baseline
    {
      OwnerStep(d, baseline, s, a, i);
    }
    forall i, j | 0 <= i < j < |s'.phases| && Owns(s'.phases[i]) && Owns(s'.phases[j])
      ensures s'.phases[i].clone != s'.phases[j].clone
    {
      OwnerStep(d, baseline, s, a, i);
      OwnerStep(d, baseline, s, a, j);
    }
  }

  /** A step of one case leaves the workspace of every other case, and the baseline, as it was. */
  lemma StepSparesOthers(d: Dataset, baseline: Option<Content>, s: State, a: Action, j: nat)
    requires WellFormed(d) && |s.phases| == |d.cases| && ClonesApart(d, baseline, s)
    requires j < |s.phases| && j != a.i
    ensures
      var s' := Next(d, s, a);
      && s'.phases[j] == s.phases[j]
      && (Owns(s.phases[j]) ==> s.phases[j].clone in s'.store && s'.store[s.phases[j].clone] == s.store[s.phases[j].clone])
  {
  }

  lemma CaseStep(d: Dataset, baseline: Option<Content>, s: State, a: Action)
    requires WellFormed(d) && |s.phases| == |d.cases| && ClonesApart(d, baseline, s) && CasesOk(d, baseline, s)
    requires Enabled(s, a)
    ensures CaseOk(d.cases[a.i], d.behaviours[a.i], baseline, Next(d, s, a).phases[a.i], Next(d, s, a).store)
  {
    assert CaseOk(d.cases[a.i], d.behaviours[a.i], baseline, s.phases[a.i], s.store);
  }

  lemma CasesStep(d: Dataset, baseline: Option<Content>, s: State, a: Action)
    requires WellFormed(d) && |s.phases| == |d.cases| && ClonesApart(d, baseline, s) && CasesOk(d, baseline, s)
    ensures CasesOk(d, baseline, Next(d, s, a))
  {
    var s' := Next(d, s, a);
    forall j | 0 <= j < |s'.phases| ensures CaseOk(d.cases[j], d.behaviours[j], baseline, s'.phases[j], s'.store) {
      assert CaseOk(d.cases[j], d.behaviours[j], baseline, s.phases[j], s.store);
      if j != a.i {
        StepSparesOthers(d, baseline, s, a, j);
      } else if Enabled(s, a) {
        CaseStep(d, baseline, s, a);
      }
    }
  }

  lemma AccountStep(d: Dataset, baseline: Option<Content>, s: State, a: Action, w: WorkspaceId)
    requires WellFormed(d) && |s.phases| == |d.cases| && ClonesApart(d, baseline, s) && AccountOk(s, w)
    ensures AccountOk(Next(d, s, a), w)
  {
    var s' := Next(d, s, a);
    if s'.cleaned[w] != s'.created[w] {
      if s.cleaned[w] != s.created[w] {
        var i :| 0 <= i < |s.phases| && Owns(s.phases[i]) && s.phases[i].clone == w;
        assert Owns(s'.phases[i]) && s'.phases[i].clone == w;
      } else {
        assert Owns(s'.phases[a.i]) && s'.phases[a.i].clone == w;
      }
    }
  }

  /** The whole invariant, with the account of one id. */
  ghost predicate Inv(d: Dataset, baseline: Option<Content>, limit: nat, s: State, w: WorkspaceId)
    requires WellFormed(d) && |s.phases| == |d.cases|
  {
    PermitsOk(limit, s) && ClonesApart(d, baseline, s) && CasesOk(d, baseline, s) && AccountOk(s, w)
  }

  lemma {:induction false} RunInv(d: Dataset, store: map<WorkspaceId, Content>, limit: nat, schedule: seq<Action>, w: WorkspaceId)
    requires WellFormed(d)
    ensures Inv(d, Lookup(store, d.baseline), limit, Run(d, store, limit, schedule), w)
    decreases |schedule|
  {
    if schedule == [] {
      NoneInFlight(Initial(d, store, limit).phases);
    } else {
      var front, a := schedule[..|schedule| - 1], schedule[|schedule| - 1];
      RunInv(d, store, limit, front, w);
      var s := Run(d, store, limit, front);
      PermitsStep(d, limit, s, a);
      ClonesStep(d, Lookup(store, d.baseline), s, a);
      CasesStep(d, Lookup(store, d.baseline), s, a);
      AccountStep(d, Lookup(store, d.baseline), s, a, w);
    }
  }

  // ---------------------------------------------------------------- the theorems

  /** At every moment of every interleaving at most `limit` cases are in flight. */
  lemma BoundedConcurrency(d: Dataset, store: map<WorkspaceId, Content>, limit: nat, schedule: seq<Action>)
    requires WellFormed(d)
    ensures InFlight(Run(d, store, limit, schedule).phases) <= limit
  {
    RunInv(d, store, limit, schedule, 0);
  }

  /** Over every interleaving a finished case has the result of its solo run, what that means, and the baseline is unchanged. */
  lemma Isolation(d: Dataset, store: map<WorkspaceId, Content>, limit: nat, schedule: seq<Action>, i: nat)
    requires WellFormed(d) && i < |d.cases|
    ensures
      var s := Run(d, store, limit, schedule);
      && (s.phases[i].Finished? ==>
            && s.phases[i].result == Solo(d.cases[i], d.behaviours[i], Lookup(store, d.baseline))
            && Means(d.cases[i], d.behaviours[i], Lookup(store, d.baseline), s.phases[i].result))
      && Lookup(s.store, d.baseline) == Lookup(store, d.baseline)
  {
    RunInv(d, store, limit, schedule, 0);
    var s := Run(d, store, limit, schedule);
    SoloMeans(d.cases[i], d.behaviours[i], Lookup(store, d.baseline));
    assert CaseOk(d.cases[i], d.behaviours[i], Lookup(store, d.baseline), s.phases[i], s.store);
  }

  /** Over every interleaving no step of a case, its clean-up included, touches the live clone of another. */
  lemma LiveClonesSurvive(d: Dataset, store: map<WorkspaceId, Content>, limit: nat, schedule: seq<Action>, a: Action, j: nat)
    requires WellFormed(d) && j < |d.cases| && j != a.i && Owns(Run(d, store, limit, schedule).phases[j])
    ensures
      var s, s' := Run(d, store, limit, schedule), Run(d, store, limit, schedule + [a]);
      var w := s.phases[j].clone;
      s'.phases[j] == s.phases[j] && w in s.store && w in s'.store && s'.store[w] == s.store[w]
  {
    RunInv(d, store, limit, schedule, 0);
    assert (schedule + [a])[..|schedule|] == schedule;
    StepSparesOthers(d, Lookup(store, d.baseline), Run(d, store, limit, schedule), a, j);
  }

  /** Whatever another case does instead, and however the cases are then scheduled, a case's result stays the same. */
  lemma OthersDoNotMatter(d: Dataset, d': Dataset, store: map<WorkspaceId, Content>, limit: nat, limit': nat,
                          schedule: seq<Action>, schedule': seq<Action>, j: nat)
    requires WellFormed(d) && WellFormed(d') && d'.baseline == d.baseline && j < |d.cases| && j < |d'.cases|
    requires d'.cases[j] == d.cases[j] && d'.behaviours[j] == d.behaviours[j]
    requires Run(d, store, limit, schedule).phases[j].Finished? && Run(d', store, limit', schedule').phases[j].Finished?
    ensures Run(d, store, limit, schedule).phases[j].result == Run(d', store, limit', schedule').phases[j].result
  {
    Isolation(d, store, limit, schedule, j);
    Isolation(d', store, limit', schedule', j);
  }

  predicate Movable(s: State, i: nat) {
    i < |s.phases| && !s.phases[i].Finished? && (s.phases[i].Queued? ==> s.permits > 0)
  }

  /** No action is enabled. */
  ghost predicate Stopped(s: State) {
    forall a: Action :: !Enabled(s, a)
  }

  lemma {:induction false} FreshExists(used: set<WorkspaceId>) returns (w: WorkspaceId)
    ensures forall x | x in used :: x < w
    decreases |used|
  {
    w := 0;
    if x: WorkspaceId :| x in used {
      var v := FreshExists(used - {x});
      w := if v > x then v else x + 1;
      forall y | y in used ensures y < w {
        assert y == x || y in used - {x};
      }
    }
  }

  lemma MovableMoves(s: State, i: nat)
    requires Movable(s, i)
    ensures exists a: Action :: Enabled(s, a) && a.i == i
  {
    var w := FreshExists(s.used);
    assert Enabled(s, Advance(i, w, false));
  }

  predicate AllFinished(s: State) {
    forall i | 0 <= i < |s.phases| :: s.phases[i].Finished?
  }

  /** `list(results)` of the gathered coroutines, in dataset order. */
  function Gathered(s: State): seq<Result>
    requires AllFinished(s)
  {
    seq(|s.phases|, i requires 0 <= i < |s.phases| => s.phases[i].result)
  }

  function SoloResults(d: Dataset, baseline: Option<Content>): seq<Result>
    requires WellFormed(d)
  {
    seq(|d.cases|, i requires 0 <= i < |d.cases| => Solo(d.cases[i], d.behaviours[i], baseline))
  }

  /**
   * When no case can move the run is complete, unless the semaphore admits nobody: then results are one per case in
   * dataset order, each the solo result, every permit is back, and every clone that was created, each under its own
   * id, got exactly one clean-up attempt.
   */
  lemma StoppedMeansComplete(d: Dataset, store: map<WorkspaceId, Content>, limit: nat, schedule: seq<Action>)
    requires WellFormed(d) && Stopped(Run(d, store, limit, schedule))
    ensures
      var s := Run(d, store, limit, schedule);
      && (AllFinished(s) <==> limit > 0 || d.cases == [])
      && (AllFinished(s) ==> Gathered(s) == SoloResults(d, Lookup(store, d.baseline)) && s.permits == limit)
      && (AllFinished(s) ==>
            forall i | 0 <= i < |d.cases| :: Means(d.cases[i], d.behaviours[i], Lookup(store, d.baseline), Gathered(s)[i]))
      && s.created == s.cleaned && (forall w :: s.created[w] <= 1)
  {
    var s := Run(d, store, limit, schedule);
    RunInv(d, store, limit, schedule, 0);
    forall i | 0 <= i < |s.phases| ensures !Movable(s, i) && !HoldsPermit(s.phases[i]) {
      if Movable(s, i) {
        MovableMoves(s, i);
      }
    }
    NoneInFlight(s.phases);
    forall w ensures s.created[w] == s.cleaned[w] <= 1 {
      RunInv(d, store, limit, schedule, w);
    }
    forall i | 0 <= i < |s.phases| ensures s.phases[i].Finished? <==> limit > 0 {
      assert !Movable(s, i);
    }
    if AllFinished(s) {
      forall i | 0 <= i < |s.phases|
        ensures s.phases[i].result == Solo(d.cases[i], d.behaviours[i], Lookup(store, d.baseline))
        ensures Means(d.cases[i], d.behaviours[i], Lookup(store, d.baseline), s.phases[i].result)
      {
        Isolation(d, store, limit, schedule, i);
      }
    }
  }

  // ---------------------------------------------------------------- it always gets there

  function StepsLeft(b: Behaviour, p: Phase): nat {
    match p
    case Queued => 5 + |b.steps|
    case Entered => 4 + |b.steps|
    case Working(_, at) => 3 + if at < |b.steps| then |b.steps| - at else 0
    case Leaving(_, _) => 2
    case Releasing(_) => 1
    case Finished(_) => 0
  }

  function WorkLeft(behaviours: seq<Behaviour>, phases: seq<Phase>): nat
    requires |behaviours| == |phases|
  {
    if phases == [] then 0 else StepsLeft(behaviours[0], phases[0]) + WorkLeft(behaviours[1..], phases[1..])
  }

  lemma {:induction false} WorkLeftUpdate(behaviours: seq<Behaviour>, phases: seq<Phase>, i: nat, p: Phase)
    requires |behaviours| == |phases| && i < |phases|
    ensures WorkLeft(behaviours, phases[i := p]) + StepsLeft(behaviours[i], phases[i])
         == WorkLeft(behaviours, phases) + StepsLeft(behaviours[i], p)
    decreases |phases|
  {
    if i == 0 {
      assert phases[i := p][1..] == phases[1..];
    } else {
      assert phases[i := p][1..] == phases[1..][i - 1 := p];
      WorkLeftUpdate(behaviours[1..], phases[1..], i - 1, p);
    }
  }

  /** Every enabled step uses up work, so no schedule can run for ever. */
  lemma StepsDescend(d: Dataset, s: State, a: Action)
    requires WellFormed(d) && |s.phases| == |d.cases| && Enabled(s, a)
    ensures WorkLeft(d.behaviours, Next(d, s, a).phases) < WorkLeft(d.behaviours, s.phases)
  {
    var s' := Next(d, s, a);
    WorkLeftUpdate(d.behaviours, s.phases, a.i, s'.phases[a.i]);
    assert s'.phases == s.phases[a.i := s'.phases[a.i]];
  }
}
