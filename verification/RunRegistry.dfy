/** The runner's registry of runs: terminal runs are kept for a while, then pruned. */
module RunRegistry {
  import opened Text
  import opened Sorting

  datatype Status = Completed | Failed | Cancelled | Lost | Active(name: string)

  /** When a run was first observed in a terminal status. */
  datatype Stamp = Stamp(id: int, at: real)

  /** `stamps` is the insertion-ordered dictionary of observed-terminal runs. */
  datatype Registry = Registry(runs: map<int, Status>, stamps: seq<Stamp>)

  /** `retain_terminal_seconds` and `max_retained_terminal`. */
  datatype Limits = Limits(retain: real, cap: int)

  predicate Older(a: Stamp, b: Stamp) { a.at <= b.at }

  function Ids(stamps: seq<Stamp>): set<int> {
    set s | s in stamps :: s.id
  }

  predicate Stamped(r: Registry, id: int) {
    id in Ids(r.stamps)
  }

  function Outside(ids: set<int>): Stamp -> bool {
    (s: Stamp) => s.id !in ids
  }

  function PastRetention(retain: real, now: real): Stamp -> bool {
    (s: Stamp) => now - s.at > retain
  }

  function InRuns(runs: map<int, Status>): Stamp -> bool {
    (s: Stamp) => s.id in runs
  }

  function Remove(r: Registry, ids: set<int>): Registry {
    Registry(r.runs - ids, Filter(Outside(ids), r.stamps))
  }

  function Expired(r: Registry, retain: real, now: real): seq<Stamp> {
    Filter(PastRetention(retain, now), r.stamps)
  }

  /** The retained terminal runs, oldest first. */
  function ByAge(r: Registry): seq<Stamp> {
    Sort(Older, Filter(InRuns(r.runs), r.stamps))
  }

  function Excess(r: Registry, cap: int): nat {
    if |ByAge(r)| - cap > 0 then |ByAge(r)| - cap else 0
  }

  /** The slice `terminal[:excess]`. */
  function Oldest(r: Registry, cap: int): seq<Stamp> {
    if Excess(r, cap) <= |ByAge(r)| then ByAge(r)[..Excess(r, cap)] else ByAge(r)
  }

  /** After the first loop of `prune`. */
  function Fresh(r: Registry, l: Limits, now: real): Registry {
    Remove(r, Ids(Expired(r, l.retain, now)))
  }

  /** After both loops. */
  function Pruned(r: Registry, l: Limits, now: real): Registry {
    var r1 := Fresh(r, l, now);
    Remove(r1, Ids(Oldest(r1, l.cap)))
  }

  /** The number `prune` returns. */
  function Reported(r: Registry, l: Limits, now: real): nat {
    |Expired(r, l.retain, now)| + Excess(Fresh(r, l, now), l.cap)
  }

  // ---------------------------------------------------------------- distinct stamps

  ghost predicate Distinct(xs: seq<Stamp>) {
    forall i, j | 0 <= i < j < |xs| :: xs[i].id != xs[j].id
  }

  /** Stamps have distinct ids and belong to registered runs. */
  ghost predicate Valid(r: Registry) {
    Distinct(r.stamps) && Ids(r.stamps) <= r.runs.Keys
  }

  lemma DistinctCons(x: Stamp, xs: seq<Stamp>)
    ensures Distinct([x] + xs) <==> Distinct(xs) && x.id !in Ids(xs)
    ensures Ids([x] + xs) == {x.id} + Ids(xs)
  {
    var ys := [x] + xs;
    assert forall s :: s in ys <==> s == x || s in xs;
    if Distinct(ys) {
      DistinctTail(x, xs);
    }
  }

  lemma DistinctTail(x: Stamp, xs: seq<Stamp>)
    requires Distinct([x] + xs)
    ensures Distinct(xs) && x.id !in Ids(xs)
  {
    var ys := [x] + xs;
    forall i, j | 0 <= i < j < |xs| ensures xs[i].id != xs[j].id {
      assert ys[i + 1] == xs[i] && ys[j + 1] == xs[j];
    }
    forall s | s in xs ensures s.id != x.id {
      var i :| 0 <= i < |xs| && xs[i] == s;
      assert ys[0] == x && ys[i + 1] == s;
    }
  }

  lemma {:induction false} DistinctFilter(p: Stamp -> bool, xs: seq<Stamp>)
    requires Distinct(xs)
    ensures Distinct(Filter(p, xs))
  {
    if xs != [] {
      assert xs == [xs[0]] + xs[1..];
      DistinctCons(xs[0], xs[1..]);
      DistinctFilter(p, xs[1..]);
      FilterFrom(p, xs[1..]);
      DistinctCons(xs[0], Filter(p, xs[1..]));
    }
  }

  lemma {:induction false} DistinctInsert(x: Stamp, ys: seq<Stamp>)
    requires Distinct(ys) && x.id !in Ids(ys)
    ensures Distinct(Insert(Older, x, ys)) && Ids(Insert(Older, x, ys)) == {x.id} + Ids(ys)
  {
    if ys == [] || Older(x, ys[0]) {
      DistinctCons(x, ys);
    } else {
      assert ys == [ys[0]] + ys[1..];
      DistinctCons(ys[0], ys[1..]);
      DistinctInsert(x, ys[1..]);
      DistinctCons(ys[0], Insert(Older, x, ys[1..]));
    }
  }

  lemma {:induction false} DistinctSort(xs: seq<Stamp>)
    requires Distinct(xs)
    ensures Distinct(Sort(Older, xs)) && Ids(Sort(Older, xs)) == Ids(xs)
  {
    if xs != [] {
      assert xs == [xs[0]] + xs[1..];
      DistinctCons(xs[0], xs[1..]);
      DistinctSort(xs[1..]);
      DistinctInsert(xs[0], Sort(Older, xs[1..]));
    }
  }

  lemma {:induction false} IdsCount(xs: seq<Stamp>)
    requires Distinct(xs)
    ensures |Ids(xs)| == |xs|
  {
    if xs != [] {
      assert xs == [xs[0]] + xs[1..];
      DistinctCons(xs[0], xs[1..]);
      IdsCount(xs[1..]);
    }
  }

  lemma SameStamp(xs: seq<Stamp>, a: Stamp, b: Stamp)
    requires Distinct(xs) && a in xs && b in xs && a.id == b.id
    ensures a == b
  {
  }

  // ---------------------------------------------------------------- removing ids

  lemma RemoveRemove(r: Registry, a: set<int>, b: set<int>)
    ensures Remove(Remove(r, a), b) == Remove(r, a + b)
  {
    FilterTwice(Outside(b), Outside(a), Outside(a + b), r.stamps);
    assert r.runs - a - b == r.runs - (a + b);
  }

  lemma RemoveNothing(r: Registry)
    ensures Remove(r, {}) == r
  {
    FilterKeeps(Outside({}), r.stamps);
    assert r.runs - {} == r.runs;
  }

  lemma RemoveStamps(r: Registry, ids: set<int>, s: Stamp)
    ensures s in Remove(r, ids).stamps <==> s in r.stamps && s.id !in ids
  {
    FilterFrom(Outside(ids), r.stamps);
  }

  lemma RemoveValid(r: Registry, ids: set<int>)
    requires Valid(r)
    ensures Valid(Remove(r, ids)) && Ids(Remove(r, ids).stamps) == Ids(r.stamps) - ids
  {
    DistinctFilter(Outside(ids), r.stamps);
    FilterFrom(Outside(ids), r.stamps);
  }

  lemma RunsRemoved(runs: map<int, Status>, ids: set<int>)
    requires ids <= runs.Keys
    ensures |runs - ids| == |runs| - |ids|
  {
  }

  // ---------------------------------------------------------------- oldest first

  lemma ByAgeIsSort(r: Registry)
    requires Valid(r)
    ensures ByAge(r) == Sort(Older, r.stamps) && |ByAge(r)| == |r.stamps|
    ensures Distinct(ByAge(r)) && Ids(ByAge(r)) == Ids(r.stamps)
  {
    forall i | 0 <= i < |r.stamps| ensures InRuns(r.runs)(r.stamps[i]) {
      assert r.stamps[i].id in Ids(r.stamps);
    }
    FilterKeeps(InRuns(r.runs), r.stamps);
    SortMultiset(Older, r.stamps);
    DistinctSort(r.stamps);
  }

  lemma OldestIds(r: Registry, cap: int)
    requires Valid(r)
    ensures Ids(Oldest(r, cap)) <= Ids(r.stamps) && |Ids(Oldest(r, cap))| == |Oldest(r, cap)|
  {
    ByAgeIsSort(r);
    var gone := Oldest(r, cap);
    assert forall i | 0 <= i < |gone| :: gone[i] == ByAge(r)[i];
    IdsCount(gone);
  }

  /** Dropping the ids of a prefix leaves the suffix. */
  lemma PrefixOut(xs: seq<Stamp>, k: nat)
    requires Distinct(xs) && k <= |xs|
    ensures Filter(Outside(Ids(xs[..k])), xs) == xs[k..]
  {
    var out := Outside(Ids(xs[..k]));
    assert xs == xs[..k] + xs[k..];
    FilterConcat(out, xs[..k], xs[k..]);
    forall i | 0 <= i < k ensures !out(xs[..k][i]) {
      assert xs[..k][i] in xs[..k];
    }
    FilterNone(out, xs[..k]);
    forall j | 0 <= j < |xs[k..]| ensures out(xs[k..][j]) {
      forall s | s in xs[..k] ensures s.id != xs[k + j].id {
        var i :| 0 <= i < k && xs[i] == s;
      }
    }
    FilterKeeps(out, xs[k..]);
  }

  /** What remains after an eviction, sorted, is the tail of the list sorted before it. */
  lemma EvictionLeavesTail(r: Registry, cap: int)
    requires Valid(r)
    ensures
      var k := |Oldest(r, cap)|;
      k <= |ByAge(r)| && Sort(Older, Remove(r, Ids(Oldest(r, cap))).stamps) == ByAge(r)[k..]
  {
    ByAgeIsSort(r);
    var gone := Oldest(r, cap);
    assert gone == ByAge(r)[..|gone|];
    PrefixOut(ByAge(r), |gone|);
    FilterSort(Outside(Ids(gone)), Older, r.stamps);
  }

  /** No evicted run is younger than one kept. */
  lemma EvictsOldest(r: Registry, cap: int, e: Stamp, s: Stamp)
    requires Valid(r) && e in r.stamps && s in Remove(r, Ids(Oldest(r, cap))).stamps
    requires e !in Remove(r, Ids(Oldest(r, cap))).stamps
    ensures e.at <= s.at
  {
    var gone := Oldest(r, cap);
    var xs := ByAge(r);
    RemoveStamps(r, Ids(gone), e);
    ByAgeIsSort(r);
    EvictionLeavesTail(r, cap);
    InSort(Older, Remove(r, Ids(gone)).stamps, s);
    InSort(Older, r.stamps, e);
    var g :| g in gone && g.id == e.id;
    assert g in xs;
    SameStamp(xs, g, e);
    var i :| 0 <= i < |gone| && gone[i] == e;
    var j :| 0 <= j < |xs[|gone|..]| && xs[|gone|..][j] == s;
    SortSorted(Older, r.stamps);
    assert Older(xs[i], xs[|gone| + j]);
  }

  lemma EvictionCount(r: Registry, cap: int)
    requires Valid(r)
    ensures |Remove(r, Ids(Oldest(r, cap))).stamps| == |r.stamps| - |Oldest(r, cap)|
    ensures cap >= 0 ==> |Oldest(r, cap)| == Excess(r, cap) && |r.stamps| - |Oldest(r, cap)| <= cap
    ensures cap < 0 ==> |Oldest(r, cap)| == |r.stamps| < Excess(r, cap)
  {
    ByAgeIsSort(r);
    EvictionLeavesTail(r, cap);
    SortMultiset(Older, Remove(r, Ids(Oldest(r, cap))).stamps);
  }

  // ---------------------------------------------------------------- what prune does

  lemma ExpiredIds(r: Registry, l: Limits, now: real)
    requires Valid(r)
    ensures Ids(Expired(r, l.retain, now)) <= Ids(r.stamps)
    ensures |Ids(Expired(r, l.retain, now))| == |Expired(r, l.retain, now)|
    ensures forall s :: s in r.stamps ==> (s.id in Ids(Expired(r, l.retain, now)) <==> now - s.at > l.retain)
  {
    var expired := Expired(r, l.retain, now);
    FilterFrom(PastRetention(l.retain, now), r.stamps);
    DistinctFilter(PastRetention(l.retain, now), r.stamps);
    IdsCount(expired);
    forall s | s in r.stamps && s.id in Ids(expired) ensures now - s.at > l.retain {
      var e :| e in expired && e.id == s.id;
      SameStamp(r.stamps, e, s);
    }
  }

  lemma PruneValid(r: Registry, l: Limits, now: real)
    requires Valid(r)
    ensures Valid(Fresh(r, l, now)) && Valid(Pruned(r, l, now))
    ensures Ids(Pruned(r, l, now).stamps) <= Ids(r.stamps)
    ensures Pruned(r, l, now).runs.Keys == r.runs.Keys - (Ids(r.stamps) - Ids(Pruned(r, l, now).stamps))
  {
    var r1 := Fresh(r, l, now);
    ExpiredIds(r, l, now);
    RemoveValid(r, Ids(Expired(r, l.retain, now)));
    OldestIds(r1, l.cap);
    RemoveValid(r1, Ids(Oldest(r1, l.cap)));
  }

  /**
   * `prune` keeps exactly the runs that were never observed terminal or whose stamp survives; the first loop drops
   * exactly the stamps past the retention, the second evicts no run younger than one it keeps.
   */
  lemma PruneExact(r: Registry, l: Limits, now: real)
    requires Valid(r)
    ensures
      var r1, r' := Fresh(r, l, now), Pruned(r, l, now);
      && (forall s :: s in r1.stamps <==> s in r.stamps && now - s.at <= l.retain)
      && (forall s :: s in r'.stamps ==> s in r1.stamps)
      && (forall e, s :: e in r1.stamps && e !in r'.stamps && s in r'.stamps ==> e.at <= s.at)
      && (forall id :: id in r'.runs <==> id in r.runs && (Stamped(r, id) ==> Stamped(r', id)))
      && (forall id :: id in r'.runs ==> r'.runs[id] == r.runs[id])
  {
    var r1, r' := Fresh(r, l, now), Pruned(r, l, now);
    PruneValid(r, l, now);
    ExpiredIds(r, l, now);
    forall s ensures s in r1.stamps <==> s in r.stamps && now - s.at <= l.retain {
      RemoveStamps(r, Ids(Expired(r, l.retain, now)), s);
    }
    forall s ensures s in r'.stamps ==> s in r1.stamps {
      RemoveStamps(r1, Ids(Oldest(r1, l.cap)), s);
    }
    forall e, s | e in r1.stamps && e !in r'.stamps && s in r'.stamps ensures e.at <= s.at {
      EvictsOldest(r1, l.cap, e, s);
    }
  }

  /** With a cap of at least zero, eviction stops exactly at the cap. */
  lemma PruneKeepsCap(r: Registry, l: Limits, now: real)
    requires Valid(r) && l.cap >= 0
    ensures
      var kept, before := |Pruned(r, l, now).stamps|, |Fresh(r, l, now).stamps|;
      kept == if before <= l.cap then before else l.cap
  {
    PruneValid(r, l, now);
    EvictionCount(Fresh(r, l, now), l.cap);
    ByAgeIsSort(Fresh(r, l, now));
  }

  lemma PruneRemoves(r: Registry, l: Limits, now: real)
    requires Valid(r)
    ensures |Pruned(r, l, now).runs| == |r.runs| - |Expired(r, l.retain, now)| - |Oldest(Fresh(r, l, now), l.cap)|
  {
    var r1 := Fresh(r, l, now);
    PruneValid(r, l, now);
    ExpiredIds(r, l, now);
    OldestIds(r1, l.cap);
    RunsRemoved(r.runs, Ids(Expired(r, l.retain, now)));
    RunsRemoved(r1.runs, Ids(Oldest(r1, l.cap)));
  }

  /** The reported number is the number of runs removed exactly when the cap is not negative. */
  lemma PruneCounts(r: Registry, l: Limits, now: real)
    requires Valid(r)
    ensures |r.runs| - |Pruned(r, l, now).runs| == Reported(r, l, now) <==> l.cap >= 0
  {
    PruneRemoves(r, l, now);
    PruneValid(r, l, now);
    EvictionCount(Fresh(r, l, now), l.cap);
  }

  // ---------------------------------------------------------------- histories

  predicate Terminal(s: Status) {
    !s.Active?
  }

  /** `_observe`: the first terminal observation is stamped, later ones are not. */
  function Observed(r: Registry, id: int, now: real): Registry {
    if id in r.runs && Terminal(r.runs[id]) && !Stamped(r, id) then r.(stamps := r.stamps + [Stamp(id, now)]) else r
  }

  /** `SetStatus` is the worker changing the status of the run object the registry holds. */
  datatype Op = Register(id: int, status: Status, pruneAt: real, now: real) | SetStatus(id: int, status: Status)
              | Lookup(id: int, now: real) | Prune(now: real)

  function Step(r: Registry, l: Limits, op: Op): Registry {
    match op
    case Register(id, status, pruneAt, now) =>
      var r1 := Pruned(r, l, pruneAt);
      Observed(r1.(runs := r1.runs[id := status]), id, now)
    case SetStatus(id, status) => if id in r.runs then r.(runs := r.runs[id := status]) else r
    case Lookup(id, now) => Observed(r, id, now)
    case Prune(now) => Pruned(r, l, now)
  }

  function After(l: Limits, ops: seq<Op>): Registry {
    if ops == [] then Registry(map[], []) else Step(After(l, ops[..|ops| - 1]), l, ops[|ops| - 1])
  }

  lemma ObservedValid(r: Registry, id: int, now: real)
    requires Valid(r)
    ensures Valid(Observed(r, id, now))
    ensures Ids(Observed(r, id, now).stamps) ==
            Ids(r.stamps) + if id in r.runs && Terminal(r.runs[id]) then {id} else {}
  {
  }

  lemma StepValid(r: Registry, l: Limits, op: Op)
    requires Valid(r)
    ensures Valid(Step(r, l, op))
  {
    match op
    case Register(id, status, pruneAt, now) =>
      var r1 := Pruned(r, l, pruneAt);
      PruneValid(r, l, pruneAt);
      ObservedValid(r1.(runs := r1.runs[id := status]), id, now);
    case SetStatus(id, status) =>
    case Lookup(id, now) => ObservedValid(r, id, now);
    case Prune(now) => PruneValid(r, l, now);
  }

  lemma {:induction false} HistoryValid(l: Limits, ops: seq<Op>)
    ensures Valid(After(l, ops))
    decreases |ops|
  {
    if ops != [] {
      HistoryValid(l, ops[..|ops| - 1]);
      StepValid(After(l, ops[..|ops| - 1]), l, ops[|ops| - 1]);
    }
  }

  /**
   * Stamps are first terminal observations: a step adds a stamp exactly for the run it observes, if that run is terminal
   * and has no stamp, with the time of the observation; all other stamps are old ones.
   */
  lemma StampsAreObservations(r: Registry, l: Limits, op: Op, s: Stamp)
    requires s in Step(r, l, op).stamps
    ensures s !in r.stamps ==>
              && (op.Lookup? || op.Register?) && s == Stamp(op.id, op.now)
              && op.id in Step(r, l, op).runs && Terminal(Step(r, l, op).runs[op.id])
  {
    match op
    case Register(id, status, pruneAt, now) =>
      var r1 := Fresh(r, l, pruneAt);
      RemoveStamps(r, Ids(Expired(r, l.retain, pruneAt)), s);
      RemoveStamps(r1, Ids(Oldest(r1, l.cap)), s);
    case SetStatus(id, status) =>
    case Lookup(id, now) =>
    case Prune(now) =>
      var r1 := Fresh(r, l, now);
      RemoveStamps(r, Ids(Expired(r, l.retain, now)), s);
      RemoveStamps(r1, Ids(Oldest(r1, l.cap)), s);
  }

  /** A terminal run that is looked up or registered has a stamp afterwards, and an earlier stamp stays. */
  lemma ObservedIsStamped(r: Registry, l: Limits, op: Op, s: Stamp)
    requires op.Lookup? || op.Register?
    requires op.id in Step(r, l, op).runs && Terminal(Step(r, l, op).runs[op.id])
    ensures Stamped(Step(r, l, op), op.id)
    ensures op.Lookup? && s in r.stamps ==> s in Step(r, l, op).stamps
  {
    var stamps := Step(r, l, op).stamps;
    if op.Lookup? && !Stamped(r, op.id) {
      assert Stamp(op.id, op.now) in stamps;
    }
    if op.Register? && !Stamped(Pruned(r, l, op.pruneAt), op.id) {
      assert Stamp(op.id, op.now) in stamps;
    }
  }

  /** Every stamped run is terminal. */
  ghost predicate StampsTerminal(r: Registry) {
    forall id :: id in Ids(r.stamps) && id in r.runs ==> Terminal(r.runs[id])
  }

  /** A caller that treats terminal statuses as final and does not put an active run under an id still stamped. */
  predicate Careful(r: Registry, l: Limits, op: Op) {
    match op
    case Register(id, status, pruneAt, _) => Terminal(status) || !Stamped(Pruned(r, l, pruneAt), id)
    case SetStatus(id, status) => Terminal(status) || !Stamped(r, id)
    case _ => true
  }

  lemma PruneKeepsTerminal(r: Registry, l: Limits, now: real)
    requires Valid(r) && StampsTerminal(r)
    ensures StampsTerminal(Pruned(r, l, now))
  {
    PruneValid(r, l, now);
    PruneExact(r, l, now);
  }

  /** A step keeps every stamped run terminal exactly when the caller is careful. */
  lemma CarefulIff(r: Registry, l: Limits, op: Op)
    requires Valid(r) && StampsTerminal(r)
    ensures StampsTerminal(Step(r, l, op)) <==> Careful(r, l, op)
  {
    match op
    case Register(id, status, pruneAt, now) =>
      var r1 := Pruned(r, l, pruneAt);
      PruneValid(r, l, pruneAt);
      PruneKeepsTerminal(r, l, pruneAt);
      ObservedValid(r1.(runs := r1.runs[id := status]), id, now);
    case SetStatus(id, status) =>
    case Lookup(id, now) => ObservedValid(r, id, now);
    case Prune(now) => PruneKeepsTerminal(r, l, now);
  }

  ghost predicate CarefulHistory(l: Limits, ops: seq<Op>) {
    ops == [] ||
    var front := ops[..|ops| - 1];
    CarefulHistory(l, front) && Careful(After(l, front), l, ops[|ops| - 1])
  }

  lemma {:induction false} CarefulHistoryTerminal(l: Limits, ops: seq<Op>)
    requires CarefulHistory(l, ops)
    ensures StampsTerminal(After(l, ops))
    decreases |ops|
  {
    if ops != [] {
      var front := ops[..|ops| - 1];
      CarefulHistoryTerminal(l, front);
      HistoryValid(l, front);
      CarefulIff(After(l, front), l, ops[|ops| - 1]);
    }
  }

  /** Pruning at `now` loses a run that is still active. */
  ghost predicate DropsActive(r: Registry, l: Limits, now: real) {
    exists id :: id in r.runs && id !in Pruned(r, l, now).runs && r.runs[id].Active?
  }

  /** Some prune would drop an active run exactly when some stamped run is not terminal. */
  lemma DropsActiveIff(r: Registry, l: Limits)
    requires Valid(r)
    ensures (exists now :: DropsActive(r, l, now)) <==> !StampsTerminal(r)
  {
    if now :| DropsActive(r, l, now) {
      PruneExact(r, l, now);
      PruneValid(r, l, now);
    }
    if !StampsTerminal(r) {
      var id :| id in Ids(r.stamps) && id in r.runs && !Terminal(r.runs[id]);
      var s :| s in r.stamps && s.id == id;
      var now := s.at + l.retain + 1.0;
      PruneExact(r, l, now);
      PruneValid(r, l, now);
      var r' := Pruned(r, l, now);
      forall x | x in r'.stamps ensures x.id != id {
        if x.id == id {
          SameStamp(r.stamps, s, x);
        }
      }
      assert DropsActive(r, l, now);
    }
  }

  /** Over every careful history no prune, at whatever time, drops an active run. */
  lemma NeverDropsActive(l: Limits, ops: seq<Op>, now: real)
    requires CarefulHistory(l, ops)
    ensures !DropsActive(After(l, ops), l, now)
  {
    HistoryValid(l, ops);
    CarefulHistoryTerminal(l, ops);
    DropsActiveIff(After(l, ops), l);
  }

  /** The first careless step makes it possible. */
  lemma CarelessStepCanDrop(l: Limits, ops: seq<Op>, op: Op)
    requires CarefulHistory(l, ops) && !Careful(After(l, ops), l, op)
    ensures exists now :: DropsActive(After(l, ops + [op]), l, now)
  {
    HistoryValid(l, ops);
    CarefulHistoryTerminal(l, ops);
    CarefulIff(After(l, ops), l, op);
    assert (ops + [op])[..|ops|] == ops;
    HistoryValid(l, ops + [op]);
    DropsActiveIff(After(l, ops + [op]), l);
  }

  // ---------------------------------------------------------------- what a caller can check

  /** A caller that registers only new ids and never leaves a terminal status. */
  predicate Plain(r: Registry, op: Op) {
    match op
    case Register(id, _, _, _) => id !in r.runs
    case SetStatus(id, status) => id in r.runs && Terminal(r.runs[id]) ==> Terminal(status)
    case _ => true
  }

  ghost predicate PlainHistory(l: Limits, ops: seq<Op>) {
    ops == [] ||
    var front := ops[..|ops| - 1];
    PlainHistory(l, front) && Plain(After(l, front), ops[|ops| - 1])
  }

  lemma PlainIsCareful(r: Registry, l: Limits, op: Op)
    requires Valid(r) && StampsTerminal(r) && Plain(r, op)
    ensures Careful(r, l, op)
  {
    if op.Register? {
      PruneValid(r, l, op.pruneAt);
    }
  }

  lemma {:induction false} PlainHistoryIsCareful(l: Limits, ops: seq<Op>)
    requires PlainHistory(l, ops)
    ensures CarefulHistory(l, ops)
    decreases |ops|
  {
    if ops != [] {
      var front := ops[..|ops| - 1];
      PlainHistoryIsCareful(l, front);
      HistoryValid(l, front);
      CarefulHistoryTerminal(l, front);
      PlainIsCareful(After(l, front), l, ops[|ops| - 1]);
    }
  }

  /** If ids are not registered twice and terminal statuses are final, no prune at any time drops an active run. */
  lemma PlainNeverDropsActive(l: Limits, ops: seq<Op>, now: real)
    requires PlainHistory(l, ops)
    ensures !DropsActive(After(l, ops), l, now)
  {
    PlainHistoryIsCareful(l, ops);
    NeverDropsActive(l, ops, now);
  }

  /** After no prefix of the history, the whole included, does a prune at any time drop an active run. */
  ghost predicate NeverDrops(l: Limits, ops: seq<Op>) {
    && (forall now: real :: !DropsActive(After(l, ops), l, now))
    && (ops == [] || NeverDrops(l, ops[..|ops| - 1]))
  }

  /** Exactly the careful histories are those after no prefix of which a prune can drop an active run. */
  lemma {:induction false} NeverDropsIff(l: Limits, ops: seq<Op>)
    ensures CarefulHistory(l, ops) <==> NeverDrops(l, ops)
    decreases |ops|
  {
    if CarefulHistory(l, ops) {
      forall now: real ensures !DropsActive(After(l, ops), l, now) {
        NeverDropsActive(l, ops, now);
      }
    }
    if ops != [] {
      var front, op := ops[..|ops| - 1], ops[|ops| - 1];
      NeverDropsIff(l, front);
      if CarefulHistory(l, front) && !Careful(After(l, front), l, op) {
        CarelessStepCanDrop(l, front, op);
        assert front + [op] == ops;
      }
    }
  }

  /** A run that completed, was looked up and is then resumed: the running run is pruned when the old stamp expires. */
  lemma ResumedRunIsDropped()
    ensures
      var l := Limits(1800.0, 200);
      var ops := [Register(7, Active("RUNNING"), 0.0, 0.0), SetStatus(7, Completed), Lookup(7, 0.0), SetStatus(7, Active("RUNNING"))];
      After(l, ops).runs == map[7 := Active("RUNNING")] && Pruned(After(l, ops), l, 1801.0).runs == map[]
  {
    var l := Limits(1800.0, 200);
    var a, b, c := Register(7, Active("RUNNING"), 0.0, 0.0), SetStatus(7, Completed), Lookup(7, 0.0);
    var d := SetStatus(7, Active("RUNNING"));
    var empty := Registry(map[], []);
    assert [a][..0] == [] && [a, b][..1] == [a] && [a, b, c][..2] == [a, b] && [a, b, c, d][..3] == [a, b, c];
    assert After(l, []) == empty;
    RemoveNothing(empty);
    assert Ids([]) == {};
    assert Pruned(empty, l, 0.0) == empty;
    assert After(l, [a]) == Registry(map[7 := Active("RUNNING")], []);
    assert After(l, [a, b]) == Registry(map[7 := Completed], []);
    assert After(l, [a, b, c]) == Registry(map[7 := Completed], [Stamp(7, 0.0)]);
    var r := Registry(map[7 := Active("RUNNING")], [Stamp(7, 0.0)]);
    assert After(l, [a, b, c, d]) == r;
    assert Expired(r, 1800.0, 1801.0) == [Stamp(7, 0.0)];
    assert Stamp(7, 0.0) in Expired(r, 1800.0, 1801.0);
    assert Fresh(r, l, 1801.0).runs == map[];
  }

  /** A run id registered again while its completed predecessor is still retained: the new, active run is pruned. */
  lemma ReusedIdIsDropped()
    ensures
      var l := Limits(1800.0, 200);
      var ops := [Register(7, Completed, 0.0, 0.0), Register(7, Active("RUNNING"), 10.0, 10.0)];
      After(l, ops).runs == map[7 := Active("RUNNING")] && Pruned(After(l, ops), l, 1801.0).runs == map[]
  {
    var l := Limits(1800.0, 200);
    var first, second := Register(7, Completed, 0.0, 0.0), Register(7, Active("RUNNING"), 10.0, 10.0);
    var empty := Registry(map[], []);
    assert [first][..0] == [] && [first, second][..1] == [first];
    assert After(l, []) == empty;
    var r1 := Registry(map[7 := Completed], [Stamp(7, 0.0)]);
    RemoveNothing(empty);
    assert Expired(empty, 1800.0, 0.0) == [] && Ids([]) == {};
    assert Pruned(empty, l, 0.0) == empty;
    assert After(l, [first]) == r1;
    assert Expired(r1, 1800.0, 10.0) == [];
    RemoveNothing(r1);
    ByAgeIsSort(r1);
    assert Oldest(r1, 200) == [];
    assert Pruned(r1, l, 10.0) == r1;
    var r2 := Registry(map[7 := Active("RUNNING")], [Stamp(7, 0.0)]);
    assert Stamp(7, 0.0) in r1.stamps;
    assert After(l, [first, second]) == r2;
    assert Expired(r2, 1800.0, 1801.0) == [Stamp(7, 0.0)];
    assert Stamp(7, 0.0) in Expired(r2, 1800.0, 1801.0);
    assert Fresh(r2, l, 1801.0).runs == map[];
  }

  // ---------------------------------------------------------------- the object

  class RunRegistry {
    var runs: map<int, Status>
    var stamps: seq<Stamp>
    const limits: Limits

    constructor (limits: Limits)
      ensures Model() == Registry(map[], []) && this.limits == limits
    {
      runs, stamps := map[], [];
      this.limits := limits;
    }

    ghost function Model(): Registry
      reads this
    {
      Registry(runs, stamps)
    }

    /** `_runs.pop(id, None)` and `_terminal_at.pop(id, None)`. */
    method Pop(id: int)
      modifies this
      ensures Model() == Remove(old(Model()), {id})
    {
      runs := runs - {id};
      stamps := Filter(Outside({id}), stamps);
    }

    method PopAll(gone: seq<Stamp>)
      modifies this
      ensures Model() == Remove(old(Model()), Ids(gone))
    {
      RemoveNothing(Model());
      assert Ids(gone[..0]) == {};
      for i := 0 to |gone|
        invariant Model() == Remove(old(Model()), Ids(gone[..i]))
      {
        Pop(gone[i].id);
        RemoveRemove(old(Model()), Ids(gone[..i]), {gone[i].id});
        assert gone[..i + 1] == gone[..i] + [gone[i]];
        assert Ids(gone[..i + 1]) == Ids(gone[..i]) + {gone[i].id};
      }
      assert gone[..|gone|] == gone;
    }

    method Prune(now: real) returns (removed: nat)
      requires Valid(Model())
      modifies this
      ensures Model() == Step(old(Model()), limits, Op.Prune(now)) && Valid(Model())
      ensures removed == Reported(old(Model()), limits, now)
    {
      PruneValid(Model(), limits, now);
      var expired := Filter(PastRetention(limits.retain, now), stamps);
      PopAll(expired);
      var terminal := Sort(Older, Filter(InRuns(runs), stamps));
      var excess := if |terminal| - limits.cap > 0 then |terminal| - limits.cap else 0;
      PopAll(if excess <= |terminal| then terminal[..excess] else terminal);
      removed := |expired| + excess;
    }

    method Observe(id: int, now: real)
      requires Valid(Model())
      modifies this
      ensures Model() == Observed(old(Model()), id, now) && Valid(Model())
    {
      ObservedValid(Model(), id, now);
      if id in runs && Terminal(runs[id]) && id !in Ids(stamps) {
        stamps := stamps + [Stamp(id, now)];
      }
    }

    method Get(id: int, now: real) returns (status: Option<Status>)
      requires Valid(Model())
      modifies this
      ensures Model() == Step(old(Model()), limits, Lookup(id, now)) && Valid(Model())
      ensures status == if id in old(runs) then Some(old(runs)[id]) else None
    {
      if id in runs {
        status := Some(runs[id]);
        Observe(id, now);
      } else {
        status := None;
      }
    }

    method Set(id: int, status: Status, pruneAt: real, now: real)
      requires Valid(Model())
      modifies this
      ensures Model() == Step(old(Model()), limits, Register(id, status, pruneAt, now)) && Valid(Model())
    {
      var _ := Prune(pruneAt);
      runs := runs[id := status];
      Observe(id, now);
    }
  }
}
