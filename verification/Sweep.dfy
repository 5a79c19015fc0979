/**
 * The load sweep (benchmark.py, _run_benchmark_iterations and run_benchmark_iterations): three
 * initialization policies, a controller per iteration or one retained controller, and failures at
 * every point, including cleanup and checkpoint writes.
 */
module Sweep {
  import opened Wrappers

  /** init_policy.py, initializes_iteration; None is the configuration error. */
  function InitializesIteration(policy: string, index: nat): Option<bool> {
    if policy !in {"each-iteration", "once", "skip"} then None
    else Some(policy == "each-iteration" || (policy == "once" && index == 1))
  }

  /** Controllers are named by the iteration that created them. */
  datatype Event =
    | Opened(controller: nat)
    | Closed(controller: nat)
    | Reset(iteration: nat, controller: nat)
    | Workload(iteration: nat, controller: nat)

  datatype Stage = Before | DuringRun | DuringCleanup | DuringCheckpoint

  datatype Outcome = Complete | Failed(iteration: nat, stage: Stage)

  /** The calls of one iteration that can fail; Begin stands for everything before the loop. */
  datatype Call =
    | Begin
    | OpenSettings
    | FirstCheck
    | PrepareReset
    | ResetDatabase
    | SecondCheck
    | Measure
    | CloseSettings
    | WriteStatus

  /** Which calls fail, by iteration. */
  type Faults = (nat, Call) -> bool

  // ---------------------------------------------------------------- what a sweep comes to

  /** Only the first iteration opens a controller that later ones retain. */
  predicate Opens(policy: string, idx: nat) {
    policy == "each-iteration" || idx == 1
  }

  predicate Initializes(policy: string, idx: nat) {
    InitializesIteration(policy, idx) == Some(true)
  }

  predicate PrepareFails(policy: string, idx: nat, fails: Faults) {
    fails(idx, FirstCheck) || (Initializes(policy, idx) && (fails(idx, PrepareReset) || fails(idx, ResetDatabase)))
  }

  /** Something fails before the point is measured. */
  predicate Breaks(policy: string, idx: nat, fails: Faults) {
    || (Opens(policy, idx) && fails(idx, OpenSettings))
    || PrepareFails(policy, idx, fails)
    || fails(idx, SecondCheck)
    || fails(idx, Measure)
  }

  function IterationFailure(policy: string, n: nat, idx: nat, fails: Faults): Option<Stage> {
    if Breaks(policy, idx, fails) then Some(DuringRun)
    else if (policy == "each-iteration" || idx == n) && fails(idx, CloseSettings) then Some(DuringCleanup)
    else if fails(idx, WriteStatus) then Some(DuringCheckpoint)
    else None
  }

  /** The first failure from an iteration on, if there is one. */
  function FirstFailure(n: nat, policy: string, idx: nat, fails: Faults): Outcome
    decreases n + 1 - idx
  {
    if idx > n then Complete
    else match IterationFailure(policy, n, idx, fails)
      case Some(stage) => Failed(idx, stage)
      case None => FirstFailure(n, policy, idx + 1, fails)
  }

  function SweepOutcome(n: nat, policy: string, recoveryPending: bool, fails: Faults): Outcome {
    if fails(0, Begin) || InitializesIteration(policy, 1).None? || (policy == "skip" && recoveryPending)
    then Failed(0, Before)
    else FirstFailure(n, policy, 1, fails)
  }

  /** How many points an outcome leaves: a failed iteration counts only if its point was measured. */
  function Points(n: nat, outcome: Outcome): int {
    match outcome
    case Complete => n
    case Failed(k, stage) => if stage == Before then 0 else if stage == DuringRun then k - 1 else k
  }

  lemma {:induction false} FailureInRange(n: nat, policy: string, idx: nat, fails: Faults)
    requires 1 <= idx <= n + 1
    ensures var outcome := FirstFailure(n, policy, idx, fails);
      && idx - 1 <= Points(n, outcome) <= n
      && (outcome.Failed? ==> idx <= outcome.iteration <= n && !outcome.stage.Before?)
    decreases n + 1 - idx
  {
    if idx <= n && IterationFailure(policy, n, idx, fails).None? {
      FailureInRange(n, policy, idx + 1, fails);
    }
  }

  function Count(log: seq<Event>, e: Event): nat {
    if log == [] then 0 else Count(log[..|log| - 1], e) + if log[|log| - 1] == e then 1 else 0
  }

  function Resets(log: seq<Event>): nat {
    if log == [] then 0 else Resets(log[..|log| - 1]) + if log[|log| - 1].Reset? then 1 else 0
  }

  lemma CountAppend(log: seq<Event>, x: Event)
    ensures forall e :: Count(log + [x], e) == Count(log, e) + if x == e then 1 else 0
    ensures Resets(log + [x]) == Resets(log) + if x.Reset? then 1 else 0
  {
    assert (log + [x])[..|log|] == log;
  }

  lemma {:induction false} CountedIsThere(log: seq<Event>, e: Event)
    ensures Count(log, e) > 0 <==> e in log
  {
    if log != [] {
      CountedIsThere(log[..|log| - 1], e);
      assert log == log[..|log| - 1] + [log[|log| - 1]];
    }
  }

  /** Exactly the given controller, if any, is open, and no controller was opened or closed twice. */
  ghost predicate OnlyOpen(log: seq<Event>, open: Option<nat>) {
    forall c: nat ::
      && Count(log, Opened(c)) <= 1
      && Count(log, Opened(c)) == Count(log, Closed(c)) + if open == Some(c) then 1 else 0
  }

  /** Work happens only between the open and the close of the controller it uses. */
  ghost predicate WorkInside(log: seq<Event>) {
    forall k :: 0 <= k < |log| && (log[k].Reset? || log[k].Workload?) ==>
      Opened(log[k].controller) in log[..k] && Closed(log[k].controller) !in log[..k]
  }

  lemma WorkInsideAppend(log: seq<Event>, x: Event)
    requires WorkInside(log)
    requires x.Reset? || x.Workload? ==> Opened(x.controller) in log && Closed(x.controller) !in log
    ensures WorkInside(log + [x])
  {
    var longer := log + [x];
    forall k | 0 <= k < |longer| && (longer[k].Reset? || longer[k].Workload?)
      ensures Opened(longer[k].controller) in longer[..k] && Closed(longer[k].controller) !in longer[..k]
    {
      assert longer[..k] == log[..k];
    }
  }

  /** The log conditions that hold whenever the given controller is the open one. */
  ghost predicate LogOk(log: seq<Event>, open: Option<nat>, nextController: nat) {
    && OnlyOpen(log, open) && WorkInside(log)
    && (forall c :: c >= nextController ==> Opened(c) !in log)
    && (open.Some? ==> open.value < nextController)
  }

  lemma OpenKeeps(log: seq<Event>, c: nat)
    requires LogOk(log, None, c)
    ensures LogOk(log + [Opened(c)], Some(c), c + 1)
  {
    CountAppend(log, Opened(c));
    CountedIsThere(log, Opened(c));
    WorkInsideAppend(log, Opened(c));
  }

  lemma CloseKeeps(log: seq<Event>, c: nat, nextController: nat)
    requires LogOk(log, Some(c), nextController)
    ensures LogOk(log + [Closed(c)], None, nextController)
  {
    CountAppend(log, Closed(c));
    WorkInsideAppend(log, Closed(c));
  }

  lemma WorkKeeps(log: seq<Event>, x: Event, nextController: nat)
    requires x.Reset? || x.Workload?
    requires LogOk(log, Some(x.controller), nextController)
    ensures LogOk(log + [x], Some(x.controller), nextController)
  {
    CountAppend(log, x);
    CountedIsThere(log, Opened(x.controller));
    CountedIsThere(log, Closed(x.controller));
    WorkInsideAppend(log, x);
  }

  function Upto(k: nat): (s: seq<nat>)
    ensures |s| == k && forall i :: 0 <= i < k ==> s[i] == i + 1
  {
    seq(k, i => i + 1)
  }

  /** Resets after the first k iterations of a sweep. */
  function ResetsAfter(policy: string, k: nat): nat {
    if policy == "each-iteration" then k else if policy == "once" && k > 0 then 1 else 0
  }

  /** Every measured iteration ran its workload. */
  ghost predicate Measured(results: seq<nat>, log: seq<Event>) {
    forall i :: i in results ==> exists c :: Workload(i, c) in log
  }

  lemma MeasuredLonger(results: seq<nat>, log: seq<Event>, longer: seq<Event>)
    requires Measured(results, log) && log <= longer
    ensures Measured(results, longer)
  {
    forall i | i in results ensures exists c :: Workload(i, c) in longer {
      var c :| Workload(i, c) in log;
      assert Workload(i, c) in longer;
    }
  }

  lemma MeasuredMore(results: seq<nat>, log: seq<Event>, i: nat, c: nat)
    requires Measured(results, log) && Workload(i, c) in log
    ensures Measured(results + [i], log)
  {
  }

  method OpenController(idx: nat, log0: seq<Event>) returns (log: seq<Event>)
    requires LogOk(log0, None, idx)
    ensures log == log0 + [Opened(idx)] && Resets(log) == Resets(log0) && LogOk(log, Some(idx), idx + 1)
  {
    OpenKeeps(log0, idx);
    CountAppend(log0, Opened(idx));
    log := log0 + [Opened(idx)];
  }

  /** close_initialization_settings is awaited once, whether it fails or not. */
  method CloseController(log0: seq<Event>, c: nat, next: nat) returns (log: seq<Event>)
    requires LogOk(log0, Some(c), next)
    ensures log == log0 + [Closed(c)] && Resets(log) == Resets(log0) && LogOk(log, None, next)
  {
    CloseKeeps(log0, c, next);
    CountAppend(log0, Closed(c));
    log := log0 + [Closed(c)];
  }

  /** A reset or a workload on the open controller; it is logged when it starts. */
  method Work(log0: seq<Event>, x: Event, next: nat) returns (log: seq<Event>)
    requires (x.Reset? || x.Workload?) && LogOk(log0, Some(x.controller), next)
    ensures log == log0 + [x] && LogOk(log, Some(x.controller), next)
    ensures Resets(log) == Resets(log0) + if x.Reset? then 1 else 0
    ensures x in log
  {
    WorkKeeps(log0, x, next);
    CountAppend(log0, x);
    log := log0 + [x];
    assert log[|log0|] == x;
  }

  /** The first check and, if due, the reset, on an open controller. */
  method Prepare(policy: string, idx: nat, c: nat, fails: Faults, log0: seq<Event>)
    returns (log: seq<Event>, ok: bool)
    requires LogOk(log0, Some(c), idx + 1)
    ensures log0 <= log && LogOk(log, Some(c), idx + 1)
    ensures ok ==> Resets(log) == Resets(log0) + if Initializes(policy, idx) then 1 else 0
    ensures ok <==> !PrepareFails(policy, idx, fails)
  {
    log := log0;
    ok := !fails(idx, FirstCheck);
    if ok && Initializes(policy, idx) {
      ok := !fails(idx, PrepareReset);
      if ok {
        log := Work(log, Reset(idx, c), idx + 1);
        ok := !fails(idx, ResetDatabase);
      }
    }
  }

  /** The retained controller, or one opened now. */
  method TakeController(policy: string, idx: nat, retained: Option<nat>, fails: Faults, log0: seq<Event>)
    returns (log: seq<Event>, preflight: Option<nat>, ok: bool)
    requires LogOk(log0, retained, idx) && (retained.None? <==> Opens(policy, idx))
    ensures log0 <= log && Resets(log) == Resets(log0) && LogOk(log, preflight, idx + 1)
    ensures ok <==> preflight.Some?
    ensures ok <==> !(Opens(policy, idx) && fails(idx, OpenSettings))
  {
    log, preflight := log0, retained;
    if preflight.None? && !fails(idx, OpenSettings) {
      log := OpenController(idx, log);
      preflight := Some(idx);
    }
    ok := preflight.Some?;
  }

  /** The second check and the workload. */
  method RunPoint(idx: nat, c: nat, fails: Faults, log0: seq<Event>) returns (log: seq<Event>, ok: bool)
    requires LogOk(log0, Some(c), idx + 1)
    ensures log0 <= log && Resets(log) == Resets(log0) && LogOk(log, Some(c), idx + 1)
    ensures ok ==> Workload(idx, c) in log
    ensures ok <==> !fails(idx, SecondCheck) && !fails(idx, Measure)
  {
    log, ok := log0, !fails(idx, SecondCheck);
    if ok {
      log := Work(log, Workload(idx, c), idx + 1);
      ok := !fails(idx, Measure);
    }
  }

  /**
   * One iteration's guarded part: open if needed, check, reset if due, check, run. It returns the
   * controller that is open, whether to retain it, and whether all went well.
   */
  method Attempt(policy: string, idx: nat, retained: Option<nat>, fails: Faults, log0: seq<Event>)
    returns (log: seq<Event>, preflight: Option<nat>, keep: Option<nat>, ok: bool)
    requires LogOk(log0, retained, idx) && (retained.None? <==> Opens(policy, idx))
    ensures log0 <= log && LogOk(log, preflight, idx + 1)
    ensures policy == "each-iteration" ==> keep.None?
    ensures ok && policy != "each-iteration" ==> keep == preflight
    ensures ok ==> preflight.Some? && Workload(idx, preflight.value) in log
    ensures ok ==> Resets(log) == Resets(log0) + if Initializes(policy, idx) then 1 else 0
    ensures ok <==> !Breaks(policy, idx, fails)
  {
    keep := retained;
    log, preflight, ok := TakeController(policy, idx, retained, fails, log0);
    if ok {
      log, ok := Prepare(policy, idx, preflight.value, fails, log);
    }
    if ok {
      if policy != "each-iteration" {
        keep := preflight;
      }
      log, ok := RunPoint(idx, preflight.value, fails, log);
    }
  }

  /**
   * The finally block and what follows it: close when due, keep a measured point even when
   * cleanup or the checkpoint fails, and close a retained controller when the checkpoint fails.
   */
  method Settle(closeNow: bool, idx: nat, ok: bool, preflight: Option<nat>, keep: Option<nat>, fails: Faults,
      log0: seq<Event>)
    returns (log: seq<Event>, retained: Option<nat>, failure: Option<Stage>)
    requires LogOk(log0, preflight, idx + 1)
    requires preflight.None? ==> !ok
    requires !ok ==> closeNow
    requires ok && !closeNow ==> keep == preflight
    ensures log0 <= log && Resets(log) == Resets(log0) && LogOk(log, retained, idx + 1)
    ensures failure.Some? || closeNow ==> retained.None?
    ensures failure.None? && !closeNow ==> retained.Some?
    ensures failure == if !ok then Some(DuringRun)
      else if closeNow && fails(idx, CloseSettings) then Some(DuringCleanup)
      else if fails(idx, WriteStatus) then Some(DuringCheckpoint)
      else None
  {
    log, retained, failure := log0, keep, None;
    if closeNow && preflight.Some? {
      log := CloseController(log, preflight.value, idx + 1);
      retained := None;
      if ok && fails(idx, CloseSettings) {
        return log, None, Some(DuringCleanup);
      }
    }
    if !ok {
      return log, None, Some(DuringRun);
    }
    if fails(idx, WriteStatus) {
      failure := Some(DuringCheckpoint);
      if retained.Some? {
        log := CloseController(log, retained.value, idx + 1);
        retained := None;
      }
    }
  }

  /** What holds before iteration idx, as long as nothing failed. */
  ghost predicate Underway(
      policy: string, n: nat, idx: nat, results: seq<nat>, log: seq<Event>, retained: Option<nat>)
  {
    && idx >= 1 && results == Upto(idx - 1)
    && LogOk(log, retained, idx) && Measured(results, log)
    && (idx <= n ==> (retained.None? <==> Opens(policy, idx)))
    && Resets(log) == ResetsAfter(policy, idx - 1)
  }

  /** The measured point joins the results. */
  lemma PointAdded(results: seq<nat>, idx: nat, log0: seq<Event>, log: seq<Event>, c: nat)
    requires idx >= 1 && results == Upto(idx - 1) && Measured(results, log0) && log0 <= log && Workload(idx, c) in log
    ensures results + [idx] == Upto(idx) && Measured(results + [idx], log)
  {
    MeasuredLonger(results, log0, log);
    MeasuredMore(results, log, idx, c);
  }

  /** One iteration; its point is kept as soon as it has been measured. */
  method Iterate(policy: string, n: nat, idx: nat, results0: seq<nat>, log0: seq<Event>, retained0: Option<nat>,
      fails: Faults)
    returns (results: seq<nat>, log: seq<Event>, retained: Option<nat>, failure: Option<Stage>)
    requires InitializesIteration(policy, idx).Some? && idx <= n && Underway(policy, n, idx, results0, log0, retained0)
    ensures LogOk(log, retained, idx + 1) && Measured(results, log)
    ensures failure == IterationFailure(policy, n, idx, fails)
    ensures failure.None? ==> Underway(policy, n, idx + 1, results, log, retained)
    ensures failure.Some? || idx == n ==> retained.None?
    ensures results == if failure == Some(DuringRun) then results0 else Upto(idx)
  {
    var preflight, keep, ok;
    log, preflight, keep, ok := Attempt(policy, idx, retained0, fails, log0);
    results := results0;
    if ok {
      PointAdded(results0, idx, log0, log, preflight.value);
      results := results + [idx];
    } else {
      MeasuredLonger(results0, log0, log);
    }
    ghost var before := log;
    var closeNow := policy == "each-iteration" || !ok || idx == n;
    log, retained, failure := Settle(closeNow, idx, ok, preflight, keep, fails, log);
    MeasuredLonger(results, before, log);
  }

  /** Every controller that was opened is closed exactly once, and nothing else is closed. */
  ghost predicate EachClosedOnce(log: seq<Event>) {
    forall c: nat :: Count(log, Opened(c)) == Count(log, Closed(c)) <= 1
  }

  lemma NothingOpen(log: seq<Event>, next: nat)
    requires LogOk(log, None, next)
    ensures EachClosedOnce(log) && WorkInside(log)
  {
  }

  /** The loop over the iterations; no controller with a number from next on was ever opened. */
  method Loop(n: nat, policy: string, fails: Faults)
    returns (results: seq<nat>, log: seq<Event>, outcome: Outcome, ghost next: nat)
    requires InitializesIteration(policy, 1).Some?
    ensures outcome == FirstFailure(n, policy, 1, fails) && LogOk(log, None, next) && Measured(results, log)
    ensures 0 <= Points(n, outcome) <= n && results == Upto(Points(n, outcome))
    ensures outcome.Complete? ==> Resets(log) == ResetsAfter(policy, n)
  {
    results, log := [], [];
    var retained: Option<nat> := None;
    var idx := 1;
    while idx <= n
      invariant 1 <= idx <= n + 1
      invariant Underway(policy, n, idx, results, log, retained)
      invariant FirstFailure(n, policy, idx, fails) == FirstFailure(n, policy, 1, fails)
      invariant idx > n ==> retained.None?
      decreases n + 1 - idx
    {
      var failure;
      results, log, retained, failure := Iterate(policy, n, idx, results, log, retained, fails);
      if failure.Some? {
        next := idx + 1;
        outcome := Failed(idx, failure.value);
        return;
      }
      idx := idx + 1;
    }
    next := idx;
    outcome := Complete;
  }

  /**
   * The whole sweep of n iterations. results lists the measured iterations, log what was done to
   * which controller.
   */
  method RunIterations(n: nat, policy: string, recoveryPending: bool, fails: Faults)
    returns (results: seq<nat>, log: seq<Event>, outcome: Outcome)
    // every controller whose open succeeded is closed exactly once, and nothing else is closed
    ensures EachClosedOnce(log)
    // no reset and no workload runs before its controller is open or after it is closed
    ensures WorkInside(log)
    // the sweep ends with the first failure, and completes exactly when there is none
    ensures outcome == SweepOutcome(n, policy, recoveryPending, fails)
    // the result list is exactly the completed iterations, in order, and each ran its workload
    ensures 0 <= Points(n, outcome) <= n && results == Upto(Points(n, outcome)) && Measured(results, log)
    ensures outcome.Complete? ==> Resets(log) == ResetsAfter(policy, n)
    ensures outcome == Failed(0, Before) ==> log == []
  {
    if fails(0, Begin) || InitializesIteration(policy, 1).None? || (policy == "skip" && recoveryPending) {
      return [], [], Failed(0, Before);
    }
    ghost var next;
    results, log, outcome, next := Loop(n, policy, fails);
    NothingOpen(log, next);
    FailureInRange(n, policy, 1, fails);
  }

  // ---------------------------------------------------------------- the winning point

  /** The tps entry of a run's metrics: a float, or absent, a bool or some other value. */
  datatype Tps = Number(value: real) | Infinite(positive: bool) | Nan | NoNumber

  datatype Run = Run(hasMetrics: bool, status: string, tps: Tps)

  predicate Candidate(run: Run) {
    run.hasMetrics && run.status == "completed" && !run.tps.NoNumber?
  }

  /** The order of floats, in which nothing is less or greater than NaN. */
  predicate Less(a: Tps, b: Tps) {
    match (a, b)
    case (Number(x), Number(y)) => x < y
    case (Number(_), Infinite(positive)) => positive
    case (Infinite(positive), Number(_)) => !positive
    case (Infinite(x), Infinite(y)) => !x && y
    case _ => false
  }

  /** The positions of the candidates, in order. */
  function Candidates(runs: seq<Run>): (r: seq<nat>)
    ensures forall k :: 0 <= k < |r| ==> r[k] < |runs| && Candidate(runs[r[k]])
    ensures forall i :: 0 <= i < |runs| && Candidate(runs[i]) ==> i in r
    ensures forall a, b :: 0 <= a < b < |r| ==> r[a] < r[b]
  {
    if runs == [] then []
    else
      var n := |runs| - 1;
      assert forall i :: 0 <= i < n ==> runs[..n][i] == runs[i];
      Candidates(runs[..n]) + if Candidate(runs[n]) then [n] else []
  }

  /** The run at b is at least as fast as the one at i, and strictly faster if it comes later. */
  predicate Beats(runs: seq<Run>, b: nat, i: nat)
    requires b < |runs| && i < |runs|
  {
    if i < b then Less(runs[i].tps, runs[b].tps)
    else runs[i].tps == runs[b].tps || Less(runs[i].tps, runs[b].tps)
  }

  /** The first of the fastest candidates, those without a comparable value set aside. */
  predicate Fastest(runs: seq<Run>, b: nat)
    requires b < |runs|
  {
    forall i :: 0 <= i < |runs| && Candidate(runs[i]) && !runs[i].tps.Nan? ==> Beats(runs, b, i)
  }

  predicate FirstCandidate(runs: seq<Run>, b: nat) {
    b < |runs| && Candidate(runs[b]) && forall i :: 0 <= i < b ==> !Candidate(runs[i])
  }

  /** The first candidate is NaN, and some other candidate is not. */
  ghost predicate NanInFront(runs: seq<Run>) {
    && (exists i: nat :: FirstCandidate(runs, i) && runs[i].tps.Nan?)
    && exists i :: 0 <= i < |runs| && Candidate(runs[i]) && !runs[i].tps.Nan?
  }

  lemma FirstOfCandidates(runs: seq<Run>)
    requires Candidates(runs) != []
    ensures FirstCandidate(runs, Candidates(runs)[0])
    ensures forall i: nat :: FirstCandidate(runs, i) ==> i == Candidates(runs)[0]
  {
    var candidates := Candidates(runs);
    forall i | 0 <= i < |runs| && Candidate(runs[i]) ensures candidates[0] <= i {
      var a :| 0 <= a < |candidates| && candidates[a] == i;
    }
  }

  /** What max keeps of the first k candidates. */
  predicate KeptOf(runs: seq<Run>, candidates: seq<nat>, k: nat, winner: nat)
    requires 1 <= k <= |candidates| && forall a :: 0 <= a < |candidates| ==> candidates[a] < |runs|
  {
    && winner < |runs| && Candidate(runs[winner]) && winner <= candidates[k - 1]
    && (runs[winner].tps.Nan? <==> runs[candidates[0]].tps.Nan?)
    && (runs[winner].tps.Nan? ==> winner == candidates[0])
    && (!runs[winner].tps.Nan? ==>
          forall a :: 0 <= a < k && !runs[candidates[a]].tps.Nan? ==> Beats(runs, winner, candidates[a]))
  }

  /** One comparison of max. */
  lemma KeptStep(runs: seq<Run>, candidates: seq<nat>, k: nat, winner: nat)
    requires 1 <= k < |candidates| && forall a :: 0 <= a < |candidates| ==> candidates[a] < |runs|
    requires candidates[k - 1] < candidates[k] && Candidate(runs[candidates[k]])
    requires KeptOf(runs, candidates, k, winner)
    ensures var greater := Less(runs[winner].tps, runs[candidates[k]].tps);
      KeptOf(runs, candidates, k + 1, if greater then candidates[k] else winner)
  {
    assert winner < candidates[k];
  }

  lemma KeptIsFastest(runs: seq<Run>, winner: nat)
    requires var candidates := Candidates(runs); candidates != [] && KeptOf(runs, candidates, |candidates|, winner)
    ensures Fastest(runs, winner) <==> !NanInFront(runs)
  {
    var candidates := Candidates(runs);
    FirstOfCandidates(runs);
    if runs[candidates[0]].tps.Nan? {
      forall i | 0 <= i < |runs| && Candidate(runs[i]) && !runs[i].tps.Nan? ensures !Beats(runs, winner, i) {
      }
    } else {
      forall i | 0 <= i < |runs| && Candidate(runs[i]) && !runs[i].tps.Nan? ensures Beats(runs, winner, i) {
        var a :| 0 <= a < |candidates| && candidates[a] == i;
      }
    }
  }

  /**
   * Python's max with a key keeps the first candidate until a greater one comes: the result is the
   * fastest point exactly when no NaN comes first of candidates that have other values.
   */
  method MaximumTps(runs: seq<Run>) returns (best: Option<nat>)
    ensures best.None? <==> forall i :: 0 <= i < |runs| ==> !Candidate(runs[i])
    ensures best.Some? ==> best.value < |runs| && Candidate(runs[best.value])
    ensures best.Some? ==> (Fastest(runs, best.value) <==> !NanInFront(runs))
    ensures best.Some? && runs[best.value].tps.Nan? ==> FirstCandidate(runs, best.value)
  {
    var candidates := Candidates(runs);
    if candidates == [] {
      return None;
    }
    FirstOfCandidates(runs);
    var winner: nat := candidates[0];
    var k := 1;
    while k < |candidates|
      invariant 1 <= k <= |candidates|
      invariant KeptOf(runs, candidates, k, winner)
    {
      KeptStep(runs, candidates, k, winner);
      if Less(runs[winner].tps, runs[candidates[k]].tps) {
        winner := candidates[k];
      }
      k := k + 1;
    }
    KeptIsFastest(runs, winner);
    best := Some(winner);
  }
}
