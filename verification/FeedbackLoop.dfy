/**
  The test-repair loop: run, fix, run again, within bounds on attempts and on repeats of
  one error.  Test runs and fixes are arbitrary inputs.
 */
module FeedbackLoop {
  import opened Basics

  const LONG_RUNNING_MAX_ITERATIONS := 50

  /** A run's number of failures and the signature its errors reduce to. */
  datatype TestResult = TestResult(failed: nat, signature: string)

  /** One attempt: what it set out to fix, and whether a patch was applied. */
  datatype Attempt = Attempt(target: TestResult, applied: bool)

  /** Attempts at one signature. */
  function AttemptsAt(attempts: seq<Attempt>, signature: string): nat {
    if attempts == [] then 0
    else AttemptsAt(attempts[..|attempts| - 1], signature)
         + if attempts[|attempts| - 1].target.signature == signature then 1 else 0
  }

  function Signatures(attempts: seq<Attempt>): set<string> {
    set a | a in attempts :: a.target.signature
  }

  /** The k-th attempt answers the k-th run, and every attempt but the last was applied and left failures. */
  ghost predicate History(attempts: seq<Attempt>, tests: nat -> TestResult, fixes: nat -> bool) {
    && (forall k :: 0 <= k < |attempts| ==> attempts[k] == Attempt(tests(k), fixes(k)) && tests(k).failed > 0)
    && (forall k :: 0 <= k < |attempts| - 1 ==> fixes(k))
  }

  lemma AttemptsAtAppend(attempts: seq<Attempt>, a: Attempt, signature: string)
    ensures AttemptsAt(attempts + [a], signature)
         == AttemptsAt(attempts, signature) + if a.target.signature == signature then 1 else 0
  {
    assert (attempts + [a])[..|attempts|] == attempts;
  }

  ghost predicate WithinRetries(attempts: seq<Attempt>, retries: int) {
    forall s :: AttemptsAt(attempts, s) <= Max(0, retries)
  }

  /** The code's dictionary of how often each signature has been attempted. */
  ghost predicate Tallies(seen: map<string, nat>, attempts: seq<Attempt>) {
    forall s :: AttemptsAt(attempts, s) == if s in seen then seen[s] else 0
  }

  /** Each of the first `n` runs after the first has strictly fewer failures than the one before. */
  ghost predicate Falling(tests: nat -> TestResult, n: nat) {
    forall k :: 0 < k <= n ==> tests(k).failed < tests(k - 1).failed
  }

  lemma {:induction false} FallingBound(tests: nat -> TestResult, n: nat)
    requires Falling(tests, n)
    ensures tests(n).failed + n <= tests(0).failed
  {
    if n > 0 {
      FallingBound(tests, n - 1);
    }
  }

  lemma OneMoreAttempt(attempts: seq<Attempt>, seen: map<string, nat>, a: Attempt, count: nat, retries: int)
    requires WithinRetries(attempts, retries) && Tallies(seen, attempts)
    requires count == (if a.target.signature in seen then seen[a.target.signature] else 0) + 1 && count <= retries
    ensures WithinRetries(attempts + [a], retries) && Tallies(seen[a.target.signature := count], attempts + [a])
  {
    forall s
      ensures AttemptsAt(attempts + [a], s) == AttemptsAt(attempts, s) + if s == a.target.signature then 1 else 0
    {
      AttemptsAtAppend(attempts, a, s);
    }
  }

  /** Why the loop ended; the error texts of the result tell these apart. */
  datatype Ending = Passed | Repeated | Unapplied | Stalled | Exhausted

  predicate LastApplied(attempts: seq<Attempt>) {
    attempts != [] ==> attempts[|attempts| - 1].applied
  }

  /** The test run in hand once these attempts were made: none follows a fix that was not applied. */
  function RunInHand(attempts: seq<Attempt>): nat {
    if LastApplied(attempts) then |attempts| else |attempts| - 1
  }

  /** Each ending has its reason. */
  ghost predicate EndsAs(ending: Ending, attempts: seq<Attempt>, tests: nat -> TestResult, limit: int,
                         longRunning: bool, retries: int) {
    var n := |attempts|;
    match ending
    case Passed => LastApplied(attempts) && tests(n).failed == 0
    case Unapplied => !LastApplied(attempts)
    case Stalled => LastApplied(attempts) && !longRunning && n > 0 && tests(n).failed >= tests(n - 1).failed
        && tests(n).failed > 0
    case Repeated =>
      && LastApplied(attempts) && n < limit && AttemptsAt(attempts, tests(n).signature) >= retries
      && tests(n).failed > 0 && (!longRunning ==> Falling(tests, n))
    case Exhausted =>
      && LastApplied(attempts) && n >= limit
      && tests(n).failed > 0 && (!longRunning ==> Falling(tests, n))
  }

  function Limit(maxIterations: int, longRunning: bool): int {
    if longRunning then LONG_RUNNING_MAX_ITERATIONS else maxIterations
  }

  /** What a whole run of the loop amounts to. */
  ghost predicate IsRun(ending: Ending, attempts: seq<Attempt>, tests: nat -> TestResult, fixes: nat -> bool,
                        maxIterations: int, longRunning: bool, retries: int) {
    && History(attempts, tests, fixes)
    && EndsAs(ending, attempts, tests, Limit(maxIterations, longRunning), longRunning, retries)
    && |attempts| <= Max(0, Limit(maxIterations, longRunning))
    && WithinRetries(attempts, retries)
    && (!longRunning && attempts != [] ==> Falling(tests, |attempts| - 1))
  }

  /** The whole procedure, over the n-th test run `tests(n)` and the n-th fix `fixes(n)`. */
  method Run(tests: nat -> TestResult, fixes: nat -> bool, maxIterations: int, longRunning: bool, retries: int)
    returns (success: bool, attempts: seq<Attempt>, final: TestResult, ending: Ending)
    ensures success <==> final.failed == 0
    ensures success <==> ending.Passed?
    ensures final == tests(RunInHand(attempts))
    ensures IsRun(ending, attempts, tests, fixes, maxIterations, longRunning, retries)
    ensures !longRunning ==> |attempts| <= tests(0).failed
  {
    hide WithinRetries, Tallies, Falling, History, AttemptsAt, IsRun;
    attempts := [];
    var limit := Limit(maxIterations, longRunning);
    var seen: map<string, nat> := map[];
    Nothing(tests, fixes, retries);
    final := tests(0);
    if final.failed == 0 {
      IsSuchRun(Passed, [], tests, fixes, maxIterations, longRunning, retries);
      return true, [], final, Passed;
    }
    var previousFailed := final.failed;
    var index := 1;
    while index <= limit
      invariant 1 <= index <= Max(0, limit) + 1 && |attempts| == index - 1
      invariant History(attempts, tests, fixes) && (attempts != [] ==> attempts[|attempts| - 1].applied)
      invariant final == tests(|attempts|) && final.failed == previousFailed > 0
      invariant !longRunning ==> Falling(tests, |attempts|)
      invariant Tallies(seen, attempts) && WithinRetries(attempts, retries)
    {
      if !longRunning {
        FallingBound(tests, |attempts|);
        FallingShorter(tests, |attempts|);
      }
      var signature := final.signature;
      var count := (if signature in seen then seen[signature] else 0) + 1;
      Tallied(seen, attempts, signature);
      if count > retries {
        IsSuchRun(Repeated, attempts, tests, fixes, maxIterations, longRunning, retries);
        return false, attempts, final, Repeated;
      }
      var applied := fixes(index - 1);
      HistoryLonger(attempts, tests, fixes);
      OneMoreAttempt(attempts, seen, Attempt(final, applied), count, retries);
      seen := seen[signature := count];
      attempts := attempts + [Attempt(final, applied)];
      if !applied {
        IsSuchRun(Unapplied, attempts, tests, fixes, maxIterations, longRunning, retries);
        return false, attempts, final, Unapplied;
      }
      final := tests(index);
      if final.failed == 0 {
        IsSuchRun(Passed, attempts, tests, fixes, maxIterations, longRunning, retries);
        return true, attempts, final, Passed;
      }
      if !longRunning && final.failed >= previousFailed {
        IsSuchRun(Stalled, attempts, tests, fixes, maxIterations, longRunning, retries);
        return false, attempts, final, Stalled;
      }
      if !longRunning {
        FallingLonger(tests, |attempts|);
      }
      previousFailed := final.failed;
      index := index + 1;
    }
    if !longRunning {
      FallingBound(tests, |attempts|);
      FallingShorter(tests, |attempts|);
    }
    IsSuchRun(Exhausted, attempts, tests, fixes, maxIterations, longRunning, retries);
    return false, attempts, final, Exhausted;
  }

  lemma IsSuchRun(ending: Ending, attempts: seq<Attempt>, tests: nat -> TestResult, fixes: nat -> bool,
                  maxIterations: int, longRunning: bool, retries: int)
    requires History(attempts, tests, fixes) && WithinRetries(attempts, retries)
    requires EndsAs(ending, attempts, tests, Limit(maxIterations, longRunning), longRunning, retries)
    requires |attempts| <= Max(0, Limit(maxIterations, longRunning))
    requires !longRunning && attempts != [] ==> Falling(tests, |attempts| - 1)
    ensures IsRun(ending, attempts, tests, fixes, maxIterations, longRunning, retries)
  {
  }

  /** Which attempts answered a run with this signature. */
  function Answering(attempts: seq<Attempt>, s: string): set<nat> {
    set k | 0 <= k < |attempts| && attempts[k].target.signature == s
  }

  /** The attempts at a signature are those whose run had it. */
  lemma {:induction false} AttemptsAtCounts(attempts: seq<Attempt>, s: string)
    ensures AttemptsAt(attempts, s) == |Answering(attempts, s)|
  {
    var at := Answering(attempts, s);
    if attempts == [] {
      assert at == {};
    } else {
      var last := |attempts| - 1;
      var init := attempts[..last];
      AttemptsAtCounts(init, s);
      var before := Answering(init, s);
      assert at == before + if attempts[last].target.signature == s then {last} else {};
    }
  }

  /**
    What such a run is, in terms of the test runs and fixes alone: attempt `k` answers run
    `k`, which had failures; only the last fix may have failed; no signature is attempted
    beyond its limit, nor more than the limit in all; out of long-running mode failures
    fall from run to run; and it gives up for one of the four reasons.
   */
  lemma RunMeans(ending: Ending, attempts: seq<Attempt>, tests: nat -> TestResult, fixes: nat -> bool,
                 maxIterations: int, longRunning: bool, retries: int)
    requires IsRun(ending, attempts, tests, fixes, maxIterations, longRunning, retries)
    ensures forall k :: 0 <= k < |attempts| ==> attempts[k] == Attempt(tests(k), fixes(k)) && tests(k).failed > 0
    ensures forall k :: 0 <= k < |attempts| - 1 ==> fixes(k)
    ensures |attempts| <= if longRunning then 50 else Max(0, maxIterations)
    ensures forall s :: |Answering(attempts, s)| <= Max(0, retries)
    ensures !longRunning ==> forall k :: 0 < k < |attempts| ==> tests(k).failed < tests(k - 1).failed
    ensures
      var n := |attempts|;
      || (ending.Passed? && tests(n).failed == 0)
      || (ending.Unapplied? && n > 0 && !fixes(n - 1))
      || (tests(n).failed > 0 && (n > 0 ==> fixes(n - 1)) &&
          match ending
          case Stalled => !longRunning && n > 0 && tests(n - 1).failed <= tests(n).failed
          case Exhausted => n >= if longRunning then 50 else maxIterations
          case Repeated => |Answering(attempts, tests(n).signature)| >= retries
          case _ => false)
  {
    hide AttemptsAt;
    forall s
      ensures AttemptsAt(attempts, s) == |Answering(attempts, s)|
    {
      AttemptsAtCounts(attempts, s);
    }
  }

  lemma Tallied(seen: map<string, nat>, attempts: seq<Attempt>, s: string)
    requires Tallies(seen, attempts)
    ensures AttemptsAt(attempts, s) == if s in seen then seen[s] else 0
  {
  }

  lemma HistoryLonger(attempts: seq<Attempt>, tests: nat -> TestResult, fixes: nat -> bool)
    requires History(attempts, tests, fixes) && (attempts != [] ==> attempts[|attempts| - 1].applied)
    requires tests(|attempts|).failed > 0
    ensures History(attempts + [Attempt(tests(|attempts|), fixes(|attempts|))], tests, fixes)
  {
  }

  lemma Nothing(tests: nat -> TestResult, fixes: nat -> bool, retries: int)
    ensures History([], tests, fixes)
    ensures WithinRetries([], retries) && Tallies(map[], []) && Falling(tests, 0)
  {
  }

  lemma FallingShorter(tests: nat -> TestResult, n: nat)
    requires Falling(tests, n)
    ensures n > 0 ==> Falling(tests, n - 1)
  {
  }

  lemma FallingLonger(tests: nat -> TestResult, n: nat)
    requires n > 0 && Falling(tests, n - 1) && tests(n).failed < tests(n - 1).failed
    ensures Falling(tests, n)
  {
  }

  // ---- the description leaves nothing open ---------------------------------------------------

  lemma {:induction false} AttemptsAtMonotone(attempts: seq<Attempt>, n: nat, s: string)
    requires n <= |attempts|
    ensures AttemptsAt(attempts[..n], s) <= AttemptsAt(attempts, s)
  {
    if n < |attempts| {
      AttemptsAtMonotone(attempts[..|attempts| - 1], n, s);
      assert attempts[..|attempts| - 1][..n] == attempts[..n];
    } else {
      assert attempts[..n] == attempts;
    }
  }

  /** A run that has ended for a reason cannot also have gone on. */
  lemma NoLongerRun(ending: Ending, attempts: seq<Attempt>, ending': Ending, attempts': seq<Attempt>,
                    tests: nat -> TestResult,
                    fixes: nat -> bool, maxIterations: int, longRunning: bool, retries: int)
    requires IsRun(ending, attempts, tests, fixes, maxIterations, longRunning, retries)
    requires IsRun(ending', attempts', tests, fixes, maxIterations, longRunning, retries)
    ensures |attempts'| <= |attempts|
  {
    hide AttemptsAt;
    var n := |attempts|;
    if n < |attempts'| {
      assert attempts == attempts'[..n];
      assert attempts'[..n + 1] == attempts'[..n] + [attempts'[n]];
      AttemptsAtMonotone(attempts', n + 1, tests(n).signature);
      AttemptsAtAppend(attempts, attempts'[n], tests(n).signature);
      assert false;
    }
  }

  /** Test runs and fixes given, there is one run of the loop: its attempts and its ending are settled. */
  lemma RunDetermined(ending: Ending, attempts: seq<Attempt>, ending': Ending, attempts': seq<Attempt>,
                      tests: nat -> TestResult,
                      fixes: nat -> bool, maxIterations: int, longRunning: bool, retries: int)
    requires IsRun(ending, attempts, tests, fixes, maxIterations, longRunning, retries)
    requires IsRun(ending', attempts', tests, fixes, maxIterations, longRunning, retries)
    ensures attempts == attempts' && ending == ending'
  {
    NoLongerRun(ending, attempts, ending', attempts', tests, fixes, maxIterations, longRunning, retries);
    NoLongerRun(ending', attempts', ending, attempts, tests, fixes, maxIterations, longRunning, retries);
    assert attempts == attempts';
  }

  // ---- attempts against distinct errors ------------------------------------------------------

  function Without(attempts: seq<Attempt>, s: string): seq<Attempt> {
    if attempts == [] then []
    else Without(attempts[..|attempts| - 1], s)
         + if attempts[|attempts| - 1].target.signature == s then [] else [attempts[|attempts| - 1]]
  }

  lemma SignaturesAppend(attempts: seq<Attempt>, a: Attempt)
    ensures Signatures(attempts + [a]) == Signatures(attempts) + {a.target.signature}
  {
  }

  lemma {:induction false} WithoutSignatures(attempts: seq<Attempt>, s: string)
    ensures Signatures(Without(attempts, s)) == Signatures(attempts) - {s}
  {
    hide Signatures;
    if attempts == [] {
      NoSignatures();
    } else {
      var init, last := attempts[..|attempts| - 1], attempts[|attempts| - 1];
      WithoutSignatures(init, s);
      assert attempts == init + [last];
      SignaturesAppend(init, last);
      SignaturesAppend(Without(init, s), last);
      assert Without(init, s) + [] == Without(init, s);
    }
  }

  lemma NoSignatures()
    ensures Signatures([]) == {}
  {
  }

  lemma {:induction false} WithoutCounts(attempts: seq<Attempt>, s: string)
    ensures |Without(attempts, s)| + AttemptsAt(attempts, s) == |attempts|
    ensures forall t :: t != s ==> AttemptsAt(Without(attempts, s), t) == AttemptsAt(attempts, t)
  {
    if attempts != [] {
      var init, last := attempts[..|attempts| - 1], attempts[|attempts| - 1];
      WithoutCounts(init, s);
      var w := Without(init, s);
      assert w + [] == w;
      forall t | t != s
        ensures AttemptsAt(Without(attempts, s), t) == AttemptsAt(attempts, t)
      {
        AttemptsAtAppend(w, last, t);
      }
    }
  }

  /** A bound on repeats of each error bounds the whole: attempts are at most the limit times the distinct errors. */
  lemma {:induction false} AttemptsBounded(attempts: seq<Attempt>, limit: nat)
    requires WithinRetries(attempts, limit)
    ensures |attempts| <= limit * |Signatures(attempts)|
    decreases |Signatures(attempts)|
  {
    if attempts != [] {
      var s := attempts[0].target.signature;
      assert s in Signatures(attempts);
      WithoutCounts(attempts, s);
      WithoutSignatures(attempts, s);
      forall t
        ensures AttemptsAt(Without(attempts, s), t) <= limit
      {
        if t == s {
          NoneLeft(attempts, s);
        }
      }
      assert |Signatures(attempts) - {s}| == |Signatures(attempts)| - 1;
      AttemptsBounded(Without(attempts, s), limit);
      OneMore(limit, |Signatures(attempts)|);
    }
  }

  lemma {:induction false} NoneLeft(attempts: seq<Attempt>, s: string)
    ensures AttemptsAt(Without(attempts, s), s) == 0
  {
    if attempts != [] {
      var w := Without(attempts[..|attempts| - 1], s);
      NoneLeft(attempts[..|attempts| - 1], s);
      AttemptsAtAppend(w, attempts[|attempts| - 1], s);
      assert w + [] == w;
    }
  }

  lemma OneMore(limit: nat, n: nat)
    requires n > 0
    ensures limit * (n - 1) + limit == limit * n
  {
  }
}
