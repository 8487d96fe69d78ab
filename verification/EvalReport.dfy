/** Summaries and comparisons of evaluation runs. */
module EvalReport {
  import opened Text
  import opened EvalRun

  /** A case result with its usage items in order; a case that failed to execute has no duration. */
  datatype Outcome = Outcome(caseId: int, task: string, verdict: Verdict, usage: seq<(string, int)>, duration: Option<real>)

  // ---------------------------------------------------------------- summary

  function Count(v: Verdict, rs: seq<Outcome>): nat {
    if rs == [] then 0 else Count(v, rs[..|rs| - 1]) + if rs[|rs| - 1].verdict == v then 1 else 0
  }

  function Get(m: map<string, int>, key: string): int {
    if key in m then m[key] else 0
  }

  function AddItems(total: map<string, int>, items: seq<(string, int)>): map<string, int> {
    if items == [] then total
    else
      var front := AddItems(total, items[..|items| - 1]);
      var (key, value) := items[|items| - 1];
      front[key := Get(front, key) + value]
  }

  function Usage(rs: seq<Outcome>): map<string, int> {
    if rs == [] then map[] else AddItems(Usage(rs[..|rs| - 1]), rs[|rs| - 1].usage)
  }

  function Duration(rs: seq<Outcome>): real {
    if rs == [] then 0.0
    else Duration(rs[..|rs| - 1]) + if rs[|rs| - 1].duration.Some? then rs[|rs| - 1].duration.value else 0.0
  }

  /** The share of passes among the cases that were executed. */
  function PassRate(rs: seq<Outcome>): real {
    var considered := |rs| - Count(ERROR, rs);
    if considered == 0 then 0.0 else Count(PASS, rs) as real / considered as real
  }

  datatype Summary = Summary(total: nat, passed: nat, failed: nat, errors: nat, uncertain: nat, passRate: real,
                             duration: real, usage: map<string, int>)

  method TotalUsage(rs: seq<Outcome>) returns (usage: map<string, int>)
    ensures usage == Usage(rs)
  {
    usage := map[];
    for i := 0 to |rs|
      invariant usage == Usage(rs[..i])
    {
      assert rs[..i + 1][..i] == rs[..i];
      var items := rs[i].usage;
      ghost var before := usage;
      for j := 0 to |items|
        invariant usage == AddItems(before, items[..j])
      {
        assert items[..j + 1][..j] == items[..j];
        var (key, value) := items[j];
        usage := usage[key := Get(usage, key) + value];
      }
      assert items[..|items|] == items;
    }
    assert rs[..|rs|] == rs;
  }

  /** The counting loops of the summary; `round` rounds to a number of digits. */
  method Summarize(rs: seq<Outcome>, round: (real, nat) -> real) returns (s: Summary)
    ensures s == Summary(|rs|, Count(PASS, rs), Count(FAIL, rs), Count(ERROR, rs), Count(UNCERTAIN, rs),
                         if |rs| == Count(ERROR, rs) then 0.0 else round(PassRate(rs), 4), round(Duration(rs), 3), Usage(rs))
  {
    var counts: map<Verdict, nat> := map[PASS := 0, FAIL := 0, ERROR := 0, UNCERTAIN := 0];
    var duration := 0.0;
    for i := 0 to |rs|
      invariant counts.Keys == {PASS, FAIL, ERROR, UNCERTAIN}
      invariant forall v | v in counts :: counts[v] == Count(v, rs[..i])
      invariant duration == Duration(rs[..i])
    {
      assert rs[..i + 1][..i] == rs[..i];
      var v := rs[i].verdict;
      assert v in counts by {
        match v case PASS => case FAIL => case ERROR => case UNCERTAIN =>
      }
      counts := counts[v := counts[v] + 1];
      duration := duration + if rs[i].duration.Some? then rs[i].duration.value else 0.0;
    }
    var usage := TotalUsage(rs);
    assert rs[..|rs|] == rs;
    var considered := |rs| - counts[ERROR];
    var rate := if considered == 0 then 0.0 else round(counts[PASS] as real / considered as real, 4);
    s := Summary(|rs|, counts[PASS], counts[FAIL], counts[ERROR], counts[UNCERTAIN], rate, round(duration, 3), usage);
  }

  /** The four verdict counts partition the results. */
  lemma {:induction false} CountsPartition(rs: seq<Outcome>)
    ensures Count(PASS, rs) + Count(FAIL, rs) + Count(ERROR, rs) + Count(UNCERTAIN, rs) == |rs|
    decreases |rs|
  {
    if rs != [] {
      CountsPartition(rs[..|rs| - 1]);
    }
  }

  lemma {:induction false} CountAll(v: Verdict, rs: seq<Outcome>)
    ensures Count(v, rs) == 0 <==> forall r :: r in rs ==> r.verdict != v
    decreases |rs|
  {
    if rs != [] {
      CountAll(v, rs[..|rs| - 1]);
      assert rs == rs[..|rs| - 1] + [rs[|rs| - 1]];
    }
  }

  /** The pass rate is a share, and full exactly when something was executed and nothing executed failed or stayed open. */
  lemma PassRateShare(rs: seq<Outcome>)
    ensures 0.0 <= PassRate(rs) <= 1.0
    ensures PassRate(rs) == 1.0 <==> (exists r :: r in rs && r.verdict == PASS) && (forall r :: r in rs ==> r.verdict == PASS || r.verdict == ERROR)
  {
    CountsPartition(rs);
    CountAll(PASS, rs);
    CountAll(FAIL, rs);
    CountAll(UNCERTAIN, rs);
    RatioShare(Count(PASS, rs), |rs| - Count(ERROR, rs));
    assert forall r: Outcome :: r.verdict == PASS || r.verdict == FAIL || r.verdict == ERROR || r.verdict == UNCERTAIN;
  }

  /** It is the passes divided among the executed cases. */
  lemma PassRateTimes(rs: seq<Outcome>)
    ensures PassRate(rs) * (|rs| - Count(ERROR, rs)) as real == Count(PASS, rs) as real
  {
    var passed, executed := Count(PASS, rs), |rs| - Count(ERROR, rs);
    assert passed <= executed by {
      CountsPartition(rs);
    }
    RatioShare(passed, executed);
    if executed > 0 {
      assert PassRate(rs) == passed as real / executed as real;
    } else {
      assert PassRate(rs) == 0.0;
    }
  }

  lemma RatioShare(a: nat, b: nat)
    requires a <= b
    ensures b > 0 ==> 0.0 <= a as real / b as real <= 1.0 && (a as real / b as real == 1.0 <==> a == b)
    ensures b > 0 ==> (a as real / b as real) * b as real == a as real
  {
  }

  lemma {:induction false} AddItemsAdds(total: map<string, int>, items: seq<(string, int)>, key: string)
    ensures Get(AddItems(total, items), key) == Get(total, key) + Get(AddItems(map[], items), key)
    ensures key in AddItems(total, items) <==> key in total || key in AddItems(map[], items)
    decreases |items|
  {
    if items != [] {
      AddItemsAdds(total, items[..|items| - 1], key);
      AddItemsAdds(total, items[..|items| - 1], items[|items| - 1].0);
    }
  }

  lemma {:induction false} ItemsAdd(a: seq<(string, int)>, b: seq<(string, int)>, key: string)
    ensures Get(AddItems(map[], a + b), key) == Get(AddItems(map[], a), key) + Get(AddItems(map[], b), key)
    decreases |b|
  {
    if b == [] {
      assert a + b == a;
    } else {
      assert (a + b)[..|a + b| - 1] == a + b[..|b| - 1];
      ItemsAdd(a, b[..|b| - 1], key);
      ItemsAdd(a, b[..|b| - 1], b[|b| - 1].0);
    }
  }

  /** What one result contributes: one item its value under its key, more items the sum, and its duration. */
  lemma UsageOfOne(r: Outcome, key: string, value: int, other: string)
    requires r.usage == [(key, value)]
    ensures Usage([r]) == map[key := value] && Get(Usage([r]), other) == if other == key then value else 0
    ensures Duration([r]) == if r.duration.Some? then r.duration.value else 0.0
    ensures Usage([]) == map[] && Duration([]) == 0.0
  {
    assert [r][..0] == [] && r.usage[..0] == [];
    assert AddItems(map[], []) == map[];
  }

  lemma UsageOfMore(r: Outcome, a: seq<(string, int)>, b: seq<(string, int)>, key: string)
    requires r.usage == a + b
    ensures Get(Usage([r]), key) == Get(Usage([r.(usage := a)]), key) + Get(Usage([r.(usage := b)]), key)
  {
    assert [r][..0] == [] && [r.(usage := a)][..0] == [] && [r.(usage := b)][..0] == [];
    ItemsAdd(a, b, key);
  }

  /** Usage is additive: the usage of a concatenation is the sum, key by key, and verdict counts and durations add up. */
  lemma {:induction false} SummaryAdditive(a: seq<Outcome>, b: seq<Outcome>, key: string, v: Verdict)
    ensures Get(Usage(a + b), key) == Get(Usage(a), key) + Get(Usage(b), key)
    ensures key in Usage(a + b) <==> key in Usage(a) || key in Usage(b)
    ensures Count(v, a + b) == Count(v, a) + Count(v, b) && Duration(a + b) == Duration(a) + Duration(b)
    decreases |b|
  {
    if b == [] {
      assert a + b == a;
    } else {
      var front, last := b[..|b| - 1], b[|b| - 1];
      assert (a + b)[..|a + b| - 1] == a + front;
      SummaryAdditive(a, front, key, v);
      AddItemsAdds(Usage(a + front), last.usage, key);
      AddItemsAdds(Usage(front), last.usage, key);
    }
  }

  // ---------------------------------------------------------------- comparison

  datatype Change = Regression | Improvement | Unchanged | New

  datatype Delta = Delta(caseId: int, baselineCaseId: Option<int>, task: string, baseline: Option<Verdict>,
                         candidate: Verdict, change: Change)

  datatype Comparison = Comparison(regressions: nat, improvements: nat, steady: nat, deltas: seq<Delta>)

  /** The last result with this case id, as a dictionary built in order keeps it. */
  function ByCase(rs: seq<Outcome>, id: int): Option<Outcome> {
    if rs == [] then None
    else if rs[|rs| - 1].caseId == id then Some(rs[|rs| - 1])
    else ByCase(rs[..|rs| - 1], id)
  }

  function ByTask(rs: seq<Outcome>, task: string): Option<Outcome> {
    if rs == [] then None
    else if rs[|rs| - 1].task == task then Some(rs[|rs| - 1])
    else ByTask(rs[..|rs| - 1], task)
  }

  /** The case id decides; the task text is the fallback. */
  function Matching(baseline: seq<Outcome>, item: Outcome): Option<Outcome> {
    var prior := ByCase(baseline, item.caseId);
    if prior.Some? then prior else ByTask(baseline, item.task)
  }

  function ChangeOf(prior: Option<Outcome>, item: Outcome): Change {
    match prior
    case None => New
    case Some(o) =>
      if o.verdict == PASS && item.verdict != PASS then Regression
      else if o.verdict != PASS && item.verdict == PASS then Improvement
      else Unchanged
  }

  function DeltaOf(prior: Option<Outcome>, item: Outcome): Delta {
    Delta(item.caseId, if prior.Some? then Some(prior.value.caseId) else None, item.task,
          if prior.Some? then Some(prior.value.verdict) else None, item.verdict, ChangeOf(prior, item))
  }

  /** The delta is about this item: its id, task and verdict, those of the matching baseline item, and the change. */
  ghost predicate Describes(baseline: seq<Outcome>, item: Outcome, d: Delta) {
    && d.caseId == item.caseId && d.task == item.task && d.candidate == item.verdict
    && (if d.change == New then NoMatch(baseline, item) && d.baselineCaseId == None && d.baseline == None
        else exists i ::
          && MatchAt(baseline, i, item) && d.baselineCaseId == Some(baseline[i].caseId) && d.baseline == Some(baseline[i].verdict)
          && (d.change == Regression <==> baseline[i].verdict == PASS && item.verdict != PASS)
          && (d.change == Improvement <==> baseline[i].verdict != PASS && item.verdict == PASS))
  }

  ghost predicate NoMatch(baseline: seq<Outcome>, item: Outcome) {
    forall i | 0 <= i < |baseline| :: baseline[i].caseId != item.caseId && baseline[i].task != item.task
  }

  /** Position `i` is the last with the item's case id or, if no baseline item has that id, the last with its task. */
  ghost predicate MatchAt(baseline: seq<Outcome>, i: int, item: Outcome) {
    && 0 <= i < |baseline|
    && if exists j | 0 <= j < |baseline| :: baseline[j].caseId == item.caseId
       then baseline[i].caseId == item.caseId && forall j | i < j < |baseline| :: baseline[j].caseId != item.caseId
       else baseline[i].task == item.task && forall j | i < j < |baseline| :: baseline[j].task != item.task
  }

  lemma {:induction false} ByCaseIs(rs: seq<Outcome>, id: int) returns (i: int)
    ensures ByCase(rs, id).None? ==> forall j | 0 <= j < |rs| :: rs[j].caseId != id
    ensures ByCase(rs, id).Some? ==>
              0 <= i < |rs| && rs[i].caseId == id && ByCase(rs, id) == Some(rs[i]) && forall j | i < j < |rs| :: rs[j].caseId != id
    decreases |rs|
  {
    i := |rs| - 1;
    if rs != [] && rs[i].caseId != id {
      i := ByCaseIs(rs[..i], id);
    }
  }

  lemma {:induction false} ByTaskIs(rs: seq<Outcome>, task: string) returns (i: int)
    ensures ByTask(rs, task).None? ==> forall j | 0 <= j < |rs| :: rs[j].task != task
    ensures ByTask(rs, task).Some? ==>
              0 <= i < |rs| && rs[i].task == task && ByTask(rs, task) == Some(rs[i]) && forall j | i < j < |rs| :: rs[j].task != task
    decreases |rs|
  {
    i := |rs| - 1;
    if rs != [] && rs[i].task != task {
      i := ByTaskIs(rs[..i], task);
    }
  }

  /** The case id decides, the task text is the fallback, and the last item wins. */
  lemma MatchingIs(baseline: seq<Outcome>, item: Outcome)
    ensures Matching(baseline, item).None? <==> NoMatch(baseline, item)
    ensures Matching(baseline, item).Some? ==> exists i :: MatchAt(baseline, i, item) && Matching(baseline, item) == Some(baseline[i])
  {
    var i := ByCaseIs(baseline, item.caseId);
    var j := ByTaskIs(baseline, item.task);
    if ByCase(baseline, item.caseId).Some? {
      assert MatchAt(baseline, i, item);
    } else if ByTask(baseline, item.task).Some? {
      assert MatchAt(baseline, j, item);
    }
  }

  lemma DeltaDescribes(baseline: seq<Outcome>, item: Outcome)
    ensures Describes(baseline, item, DeltaOf(Matching(baseline, item), item))
  {
    MatchingIs(baseline, item);
  }

  /** How many candidate items changed in a given way. */
  function Changes(kind: Change, baseline: seq<Outcome>, candidate: seq<Outcome>): nat {
    if candidate == [] then 0
    else
      Changes(kind, baseline, candidate[..|candidate| - 1]) +
      if ChangeOf(Matching(baseline, candidate[|candidate| - 1]), candidate[|candidate| - 1]) == kind then 1 else 0
  }

  method Compare(baseline: seq<Outcome>, candidate: seq<Outcome>) returns (c: Comparison)
    ensures c.regressions == Changes(Regression, baseline, candidate)
    ensures c.improvements == Changes(Improvement, baseline, candidate)
    ensures c.steady == Changes(Unchanged, baseline, candidate)
    ensures |c.deltas| == |candidate| && forall i | 0 <= i < |candidate| :: Describes(baseline, candidate[i], c.deltas[i])
  {
    var byCase: map<int, Outcome>, byTask: map<string, Outcome> := map[], map[];
    for i := 0 to |baseline|
      invariant forall id :: ByCase(baseline[..i], id) == if id in byCase then Some(byCase[id]) else None
      invariant forall task :: ByTask(baseline[..i], task) == if task in byTask then Some(byTask[task]) else None
    {
      assert baseline[..i + 1][..i] == baseline[..i];
      byCase := byCase[baseline[i].caseId := baseline[i]];
      byTask := byTask[baseline[i].task := baseline[i]];
    }
    assert baseline[..|baseline|] == baseline;
    var regressions, improvements, steady, deltas := 0, 0, 0, [];
    for i := 0 to |candidate|
      invariant regressions == Changes(Regression, baseline, candidate[..i])
      invariant improvements == Changes(Improvement, baseline, candidate[..i])
      invariant steady == Changes(Unchanged, baseline, candidate[..i])
      invariant |deltas| == i && forall j | 0 <= j < i :: deltas[j] == DeltaOf(Matching(baseline, candidate[j]), candidate[j])
    {
      assert candidate[..i + 1][..i] == candidate[..i];
      var item := candidate[i];
      var prior: Option<Outcome> :=
        if item.caseId in byCase then Some(byCase[item.caseId])
        else if item.task in byTask then Some(byTask[item.task]) else None;
      assert prior == Matching(baseline, item);
      var change := New;
      if prior.Some? {
        if prior.value.verdict == PASS && item.verdict != PASS {
          change, regressions := Regression, regressions + 1;
        } else if prior.value.verdict != PASS && item.verdict == PASS {
          change, improvements := Improvement, improvements + 1;
        } else {
          change, steady := Unchanged, steady + 1;
        }
      }
      var delta := Delta(item.caseId, if prior.Some? then Some(prior.value.caseId) else None, item.task,
                         if prior.Some? then Some(prior.value.verdict) else None, item.verdict, change);
      deltas := deltas + [delta];
    }
    assert candidate[..|candidate|] == candidate;
    forall i | 0 <= i < |candidate| ensures Describes(baseline, candidate[i], deltas[i]) {
      DeltaDescribes(baseline, candidate[i]);
    }
    c := Comparison(regressions, improvements, steady, deltas);
  }

  // ---------------------------------------------------------------- the laws

  ghost predicate DistinctIds(rs: seq<Outcome>) {
    forall i, j | 0 <= i < j < |rs| :: rs[i].caseId != rs[j].caseId
  }

  function Ids(rs: seq<Outcome>): set<int> {
    set r | r in rs :: r.caseId
  }

  function PassedIds(rs: seq<Outcome>): set<int> {
    set r | r in rs && r.verdict == PASS :: r.caseId
  }

  lemma {:induction false} ByCaseFinds(rs: seq<Outcome>, r: Outcome)
    requires DistinctIds(rs) && r in rs
    ensures ByCase(rs, r.caseId) == Some(r)
    decreases |rs|
  {
    var k := |rs| - 1;
    var i :| 0 <= i < |rs| && rs[i] == r;
    if i < k {
      assert rs[..k][i] == r;
      ByCaseFinds(rs[..k], r);
    }
  }

  lemma PassedSnoc(front: seq<Outcome>, last: Outcome)
    ensures PassedIds(front + [last]) == PassedIds(front) + if last.verdict == PASS then {last.caseId} else {}
    ensures Ids(front + [last]) == Ids(front) + {last.caseId}
  {
  }

  lemma PassedById(rs: seq<Outcome>, r: Outcome)
    requires DistinctIds(rs) && r in rs
    ensures r.caseId in PassedIds(rs) <==> r.verdict == PASS
  {
  }

  /** How one item changed, told from the set of passed ids alone. */
  lemma ItemChange(baseline: seq<Outcome>, item: Outcome)
    requires DistinctIds(baseline) && item.caseId in Ids(baseline)
    ensures ChangeOf(Matching(baseline, item), item) ==
            if (item.caseId in PassedIds(baseline)) == (item.verdict == PASS) then Unchanged
            else if item.verdict == PASS then Improvement else Regression
  {
    var prior :| prior in baseline && prior.caseId == item.caseId;
    ByCaseFinds(baseline, prior);
    PassedById(baseline, prior);
  }

  lemma NewId(front: seq<Outcome>, last: Outcome)
    requires DistinctIds(front + [last])
    ensures DistinctIds(front) && last.caseId !in Ids(front) && last.caseId !in PassedIds(front)
  {
    var rs := front + [last];
    assert forall i | 0 <= i < |front| :: rs[i] == front[i];
    assert rs[|front|] == last;
  }

  /** With distinct ids the number of passes is the size of the set of passed ids. */
  lemma {:induction false} PassedIsCardinality(rs: seq<Outcome>)
    requires DistinctIds(rs)
    ensures Count(PASS, rs) == |PassedIds(rs)|
    decreases |rs|
  {
    if rs != [] {
      var front, last := rs[..|rs| - 1], rs[|rs| - 1];
      assert rs == front + [last];
      NewId(front, last);
      PassedSnoc(front, last);
      PassedIsCardinality(front);
    }
  }

  lemma GainGrows(passed: set<int>, base: set<int>, id: int, pass: bool)
    requires id !in passed
    ensures |passed + (if pass then {id} else {}) - base| == |passed - base| + if pass && id !in base then 1 else 0
  {
    var now := passed + (if pass then {id} else {}) - base;
    if pass && id !in base {
      assert now == passed - base + {id};
    } else {
      assert now == passed - base;
    }
  }

  lemma LossGrows(ids: set<int>, passed: set<int>, base: set<int>, id: int, pass: bool)
    requires id !in ids
    ensures |(ids + {id}) * base - (passed + if pass then {id} else {})|
         == |ids * base - passed| + if !pass && id in base && id !in passed then 1 else 0
  {
    var now := (ids + {id}) * base - (passed + if pass then {id} else {});
    if !pass && id in base && id !in passed {
      assert now == ids * base - passed + {id};
    } else {
      assert now == ids * base - passed;
    }
  }

  lemma GainStep(front: seq<Outcome>, last: Outcome, base: set<int>)
    requires DistinctIds(front + [last])
    ensures DistinctIds(front) && Ids(front) <= Ids(front + [last]) && last.caseId in Ids(front + [last])
    ensures |PassedIds(front + [last]) - base| == |PassedIds(front) - base| + if last.verdict == PASS && last.caseId !in base then 1 else 0
  {
    PassedSnoc(front, last);
    NewId(front, last);
    GainGrows(PassedIds(front), base, last.caseId, last.verdict == PASS);
  }

  lemma LossStep(front: seq<Outcome>, last: Outcome, base: set<int>)
    requires DistinctIds(front + [last])
    ensures DistinctIds(front) && Ids(front) <= Ids(front + [last]) && last.caseId in Ids(front + [last])
    ensures |Ids(front + [last]) * base - PassedIds(front + [last])|
         == |Ids(front) * base - PassedIds(front)| + if last.verdict != PASS && last.caseId in base then 1 else 0
  {
    PassedSnoc(front, last);
    NewId(front, last);
    LossGrows(Ids(front), PassedIds(front), base, last.caseId, last.verdict == PASS);
  }

  /** Improvements are the ids that pass only in the candidate. */
  lemma {:induction false} ImprovementsAreDifference(baseline: seq<Outcome>, candidate: seq<Outcome>)
    requires DistinctIds(baseline) && DistinctIds(candidate) && Ids(candidate) <= Ids(baseline)
    ensures Changes(Improvement, baseline, candidate) == |PassedIds(candidate) - PassedIds(baseline)|
    decreases |candidate|
  {
    if candidate != [] {
      var front, last := candidate[..|candidate| - 1], candidate[|candidate| - 1];
      assert candidate == front + [last];
      GainStep(front, last, PassedIds(baseline));
      ImprovementsAreDifference(baseline, front);
      ItemChange(baseline, last);
    }
  }

  /** Regressions are the ids that pass only in the baseline, among the ids of the candidate. */
  lemma {:induction false} RegressionsAreDifference(baseline: seq<Outcome>, candidate: seq<Outcome>)
    requires DistinctIds(baseline) && DistinctIds(candidate) && Ids(candidate) <= Ids(baseline)
    ensures Changes(Regression, baseline, candidate) == |Ids(candidate) * PassedIds(baseline) - PassedIds(candidate)|
    decreases |candidate|
  {
    if candidate != [] {
      var front, last := candidate[..|candidate| - 1], candidate[|candidate| - 1];
      assert candidate == front + [last];
      LossStep(front, last, PassedIds(baseline));
      RegressionsAreDifference(baseline, front);
      ItemChange(baseline, last);
    }
  }

  lemma {:induction false} NothingNew(baseline: seq<Outcome>, candidate: seq<Outcome>)
    requires DistinctIds(baseline) && Ids(candidate) <= Ids(baseline)
    ensures Changes(New, baseline, candidate) == 0
    decreases |candidate|
  {
    if candidate != [] {
      var front, last := candidate[..|candidate| - 1], candidate[|candidate| - 1];
      assert candidate == front + [last];
      PassedSnoc(front, last);
      NothingNew(baseline, front);
      ItemChange(baseline, last);
    }
  }

  lemma DifferenceLaw(a: set<int>, b: set<int>)
    ensures |a - b| - |b - a| == |a| - |b|
  {
  }

  /**
   * Two runs over the same distinct cases: improvements minus regressions is the difference of the passed counts, and
   * swapping the runs swaps the two counts.
   */
  lemma CompareConserves(baseline: seq<Outcome>, candidate: seq<Outcome>)
    requires DistinctIds(baseline) && DistinctIds(candidate) && Ids(candidate) == Ids(baseline)
    ensures Changes(Improvement, baseline, candidate) - Changes(Regression, baseline, candidate)
         == Count(PASS, candidate) - Count(PASS, baseline)
    ensures Changes(Improvement, baseline, candidate) == Changes(Regression, candidate, baseline)
    ensures Changes(Regression, baseline, candidate) == Changes(Improvement, candidate, baseline)
  {
    var b, c := PassedIds(baseline), PassedIds(candidate);
    ImprovementsAreDifference(baseline, candidate);
    ImprovementsAreDifference(candidate, baseline);
    RegressionsAreDifference(baseline, candidate);
    RegressionsAreDifference(candidate, baseline);
    PassedIsCardinality(baseline);
    PassedIsCardinality(candidate);
    assert Ids(candidate) * b - c == b - c && Ids(baseline) * c - b == c - b;
    DifferenceLaw(c, b);
  }

  /** Every candidate item is counted once: the four kinds of change partition the candidate. */
  lemma {:induction false} ChangesPartition(baseline: seq<Outcome>, candidate: seq<Outcome>)
    ensures Changes(Regression, baseline, candidate) + Changes(Improvement, baseline, candidate)
          + Changes(Unchanged, baseline, candidate) + Changes(New, baseline, candidate) == |candidate|
    decreases |candidate|
  {
    if candidate != [] {
      ChangesPartition(baseline, candidate[..|candidate| - 1]);
    }
  }

  /** A run compared with itself is all unchanged. */
  lemma SelfUnchanged(rs: seq<Outcome>)
    requires DistinctIds(rs)
    ensures Changes(Unchanged, rs, rs) == |rs|
  {
    ImprovementsAreDifference(rs, rs);
    RegressionsAreDifference(rs, rs);
    NothingNew(rs, rs);
    ChangesPartition(rs, rs);
    assert Ids(rs) * PassedIds(rs) - PassedIds(rs) == {} && PassedIds(rs) - PassedIds(rs) == {};
  }
}
