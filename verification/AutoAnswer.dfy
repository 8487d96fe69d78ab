/** Waiting for a workflow while answering its human gates with a fixed input. */
module AutoAnswer {
  import opened Text

  /** What one poll of the loop sees, and how long it takes apart from the one-second sleep. */
  datatype Poll = Poll(terminal: bool, statusFails: bool, waiting: bool, interaction: Option<string>, submitFails: bool, takes: real)

  datatype End = TimedOut | WaitForRun(remaining: real) | SubmitFailed(interaction: string)

  datatype Loop = Running(elapsed: real, answered: seq<string>) | Ended(end: End, answered: seq<string>)

  /** An interaction the loop answers in this poll. */
  function ToAnswer(p: Poll, answered: seq<string>, limit: int): Option<string> {
    if p.waiting && |answered| < limit && p.interaction.Some? && p.interaction.value != "" && p.interaction.value !in answered
    then p.interaction else None
  }

  /** One iteration: check the deadline, then the projection, then the workflow, then answer or sleep. */
  function Iterate(p: Poll, elapsed: real, answered: seq<string>, timeout: real, limit: int): Loop {
    if elapsed >= timeout then Ended(TimedOut, answered)
    else if p.terminal || p.statusFails then Ended(WaitForRun(timeout - elapsed), answered)
    else match ToAnswer(p, answered, limit)
      case Some(id) =>
        if p.submitFails then Ended(SubmitFailed(id), answered) else Running(elapsed + p.takes, answered + [id])
      case None => Running(elapsed + p.takes + 1.0, answered)
  }

  /** The loop after `n` iterations against the environment `env`. */
  function After(env: nat -> Poll, timeout: real, limit: int, n: nat): Loop {
    if n == 0 then Running(0.0, [])
    else match After(env, timeout, limit, n - 1)
      case Running(elapsed, answered) => Iterate(env(n - 1), elapsed, answered, timeout, limit)
      case ended => ended
  }

  function Cap(limit: int): nat {
    if limit < 0 then 0 else limit
  }

  ghost predicate Clock(env: nat -> Poll) {
    forall n :: env(n).takes >= 0.0
  }

  /** What the loop has submitted: distinct, real interactions, at most the limit, each seen waiting in an earlier poll. */
  ghost predicate Answers(env: nat -> Poll, limit: int, n: nat, answered: seq<string>) {
    && |answered| <= Cap(limit)
    && (forall i, j | 0 <= i < j < |answered| :: answered[i] != answered[j])
    && (forall i | 0 <= i < |answered| :: answered[i] != "" && SeenWaiting(env, n, answered[i]))
  }

  ghost predicate SeenWaiting(env: nat -> Poll, n: nat, id: string) {
    exists k: nat | k < n :: env(k).waiting && env(k).interaction == Some(id)
  }

  lemma SeenWaitingLater(env: nat -> Poll, n: nat, id: string)
    requires SeenWaiting(env, n, id)
    ensures SeenWaiting(env, n + 1, id)
  {
  }

  /** Over any number of polls the answers are as they should be; while running every poll answered or slept. */
  lemma {:induction false} AnswersHold(env: nat -> Poll, timeout: real, limit: int, n: nat)
    requires Clock(env)
    ensures
      var l := After(env, timeout, limit, n);
      && Answers(env, limit, n, l.answered)
      && (l.Running? ==> l.elapsed >= 0.0 && n as real <= |l.answered| as real + l.elapsed)
      && (l.Ended? && l.end.WaitForRun? ==> l.end.remaining > 0.0)
      && (l.Ended? && l.end.SubmitFailed? ==> |l.answered| < Cap(limit) && l.end.interaction !in l.answered)
  {
    if n > 0 {
      AnswersHold(env, timeout, limit, n - 1);
      var l, l' := After(env, timeout, limit, n - 1), After(env, timeout, limit, n);
      forall i | 0 <= i < |l.answered| ensures SeenWaiting(env, n, l.answered[i]) {
        SeenWaitingLater(env, n - 1, l.answered[i]);
      }
      if l.Running? {
        var p := env(n - 1);
        assert p.takes >= 0.0;
        var id := ToAnswer(p, l.answered, limit);
        if id.Some? {
          assert SeenWaiting(env, n, id.value);
        }
      }
    }
  }

  /** The interactions seen waiting in the first `n` polls, in order, each once. */
  function Waited(env: nat -> Poll, n: nat): seq<string> {
    if n == 0 then []
    else
      var seen, p := Waited(env, n - 1), env(n - 1);
      if p.waiting && p.interaction.Some? && p.interaction.value != "" && p.interaction.value !in seen
      then seen + [p.interaction.value] else seen
  }

  /** While the loop runs it has answered exactly the first interactions seen waiting, as many as the limit permits. */
  lemma {:induction false} AnswersFirstWaited(env: nat -> Poll, timeout: real, limit: int, n: nat)
    requires After(env, timeout, limit, n).Running?
    ensures
      var answered, seen := After(env, timeout, limit, n).answered, Waited(env, n);
      answered == if |seen| <= Cap(limit) then seen else seen[..Cap(limit)]
  {
    if n > 0 {
      var l := After(env, timeout, limit, n - 1);
      AnswersFirstWaited(env, timeout, limit, n - 1);
      assert After(env, timeout, limit, n) == Iterate(env(n - 1), l.elapsed, l.answered, timeout, limit);
      var seen, seen' := Waited(env, n - 1), Waited(env, n);
      if |seen| >= Cap(limit) {
        assert seen'[..Cap(limit)] == seen[..Cap(limit)];
        assert |seen| == Cap(limit) ==> seen[..Cap(limit)] == seen;
      }
    }
  }

  lemma {:induction false} EndedStays(env: nat -> Poll, timeout: real, limit: int, n: nat, m: nat)
    requires n <= m && After(env, timeout, limit, n).Ended?
    ensures After(env, timeout, limit, m) == After(env, timeout, limit, n)
    decreases m - n
  {
    if n < m {
      EndedStays(env, timeout, limit, n, m - 1);
    }
  }

  /**
   * With a finite timeout the loop ends against every environment, after at most one poll per permitted answer, one per
   * second of the timeout, and one more.
   */
  lemma AlwaysEnds(env: nat -> Poll, timeout: real, limit: int, n: nat)
    requires Clock(env) && n as real >= Cap(limit) as real + timeout + 1.0 && n > 0
    ensures After(env, timeout, limit, n).Ended?
  {
    AnswersHold(env, timeout, limit, n - 1);
    var l := After(env, timeout, limit, n - 1);
    if l.Running? {
      assert l.elapsed >= timeout;
    }
  }

  /** A loop still running has met no terminal state, no failing query and no deadline in any poll so far. */
  lemma {:induction false} RunningSawNoEnd(env: nat -> Poll, timeout: real, limit: int, n: nat, k: nat)
    requires After(env, timeout, limit, n).Running? && k < n
    ensures After(env, timeout, limit, k).Running? && After(env, timeout, limit, k).elapsed < timeout
    ensures !env(k).terminal && !env(k).statusFails
    decreases n
  {
    var l := After(env, timeout, limit, n - 1);
    if l.Running? {
      assert After(env, timeout, limit, n) == Iterate(env(n - 1), l.elapsed, l.answered, timeout, limit);
    }
    if k < n - 1 {
      RunningSawNoEnd(env, timeout, limit, n - 1, k);
    }
  }

  /** The loop ends in one way only, however long one looks. */
  lemma EndIsUnique(env: nat -> Poll, timeout: real, limit: int, n: nat, m: nat)
    requires After(env, timeout, limit, n).Ended? && After(env, timeout, limit, m).Ended?
    ensures After(env, timeout, limit, n) == After(env, timeout, limit, m)
  {
    if n <= m {
      EndedStays(env, timeout, limit, n, m);
    } else {
      EndedStays(env, timeout, limit, m, n);
    }
  }

  /** The workflow was seen to be over in an earlier poll. */
  ghost predicate SeenOver(env: nat -> Poll, n: nat) {
    exists k: nat | k < n :: env(k).terminal || env(k).statusFails
  }

  /** The loop hands over to the workflow's own wait exactly when, in time, a poll saw the workflow over: in its last poll. */
  lemma EndMeans(env: nat -> Poll, timeout: real, limit: int, n: nat)
    requires After(env, timeout, limit, n).Running? && After(env, timeout, limit, n + 1).Ended?
    ensures
      var late := After(env, timeout, limit, n).elapsed >= timeout;
      var end := After(env, timeout, limit, n + 1).end;
      && !SeenOver(env, n) && (late <==> end == TimedOut) && (SeenOver(env, n + 1) && !late <==> end.WaitForRun?)
      && (end.WaitForRun? ==> end.remaining == timeout - After(env, timeout, limit, n).elapsed)
  {
    var l := After(env, timeout, limit, n);
    assert After(env, timeout, limit, n + 1) == Iterate(env(n), l.elapsed, l.answered, timeout, limit);
    if k: nat :| k < n && (env(k).terminal || env(k).statusFails) {
      RunningSawNoEnd(env, timeout, limit, n, k);
    }
  }

  lemma AllEndsAgree(env: nat -> Poll, timeout: real, limit: int, m: nat)
    requires After(env, timeout, limit, m).Ended?
    ensures forall n: nat :: After(env, timeout, limit, n).Ended? ==> After(env, timeout, limit, n) == After(env, timeout, limit, m)
  {
    forall n: nat | After(env, timeout, limit, n).Ended? ensures After(env, timeout, limit, n) == After(env, timeout, limit, m) {
      EndIsUnique(env, timeout, limit, n, m);
    }
  }

  /** The loop itself: it terminates, and computes what the iterations compute. */
  method WaitWithAutoInput(env: nat -> Poll, timeout: real, limit: int) returns (end: End, answered: seq<string>, polls: nat)
    requires Clock(env)
    ensures After(env, timeout, limit, polls) == Ended(end, answered)
    ensures forall n: nat :: After(env, timeout, limit, n).Ended? ==> After(env, timeout, limit, n) == Ended(end, answered)
    ensures Answers(env, limit, polls, answered)
    ensures polls > 1 ==> (polls - 1) as real < Cap(limit) as real + timeout + 1.0
  {
    var elapsed := 0.0;
    answered := [];
    polls := 0;
    while true
      invariant After(env, timeout, limit, polls) == Running(elapsed, answered)
      invariant Answers(env, limit, polls, answered)
      invariant polls > 0 ==> polls as real < Cap(limit) as real + timeout + 1.0
      decreases Cap(limit) - |answered|, (if timeout > elapsed then (timeout - elapsed).Floor + 1 else 0)
    {
      AnswersHold(env, timeout, limit, polls);
      AnswersHold(env, timeout, limit, polls + 1);
      ghost var before := elapsed;
      var p := env(polls);
      assert p.takes >= 0.0;
      polls := polls + 1;
      if elapsed >= timeout {
        AllEndsAgree(env, timeout, limit, polls);
        return TimedOut, answered, polls;
      }
      if p.terminal || p.statusFails {
        AllEndsAgree(env, timeout, limit, polls);
        return WaitForRun(timeout - elapsed), answered, polls;
      }
      if p.waiting && |answered| < limit {
        if p.interaction.Some? && p.interaction.value != "" && p.interaction.value !in answered {
          if p.submitFails {
            AllEndsAgree(env, timeout, limit, polls);
            return SubmitFailed(p.interaction.value), answered, polls;
          }
          answered := answered + [p.interaction.value];
          elapsed := elapsed + p.takes;
          continue;
        }
      }
      elapsed := elapsed + p.takes + 1.0;
    }
  }
}
