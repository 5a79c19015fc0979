/**
 * What a benchmark run delivers (benchmark.py, run_benchmark_iterations, partial_report and
 * run_benchmark_and_collect_metrics; errors.py, exception_evidence): how measured points travel
 * on exceptions, and when they reach a report.
 */
module Reporting {
  import opened Wrappers
  import opened Sweep

  /** CollectionError, any other Exception, CancelledError, and the rest such as KeyboardInterrupt. */
  datatype Kind = Collection | Ordinary | Cancelled | Fatal

  /** An exception object: its completed_runs attribute and its links to other objects. */
  datatype Thrown = Thrown(kind: Kind, runs: Option<seq<nat>>, context: Option<nat>, cause: Option<nat>)

  /** All exception objects, by identity; links may form cycles. */
  type Store = seq<Thrown>

  predicate Within(store: Store, link: Option<nat>) {
    link.Some? ==> link.value < |store|
  }

  predicate Linked(store: Store) {
    forall i :: 0 <= i < |store| ==> Within(store, store[i].context) && Within(store, store[i].cause)
  }

  // ---------------------------------------------------------------- exception_evidence

  predicate Inside(store: Store, pending: seq<nat>) {
    forall k :: 0 <= k < |pending| ==> pending[k] < |store|
  }

  function CancelledLink(store: Store, link: Option<nat>): (r: seq<nat>)
    requires Within(store, link)
    ensures forall k :: 0 <= k < |r| ==> r[k] < |store|
  {
    if link.Some? && store[link.value].kind.Cancelled? then [link.value] else []
  }

  /** The objects a lookup goes on to: the cancellations that a cancellation wraps. */
  function Nested(store: Store, e: nat): (r: seq<nat>)
    requires Linked(store) && e < |store|
    ensures Inside(store, r)
  {
    if store[e].kind.Cancelled? then CancelledLink(store, store[e].context) + CancelledLink(store, store[e].cause)
    else []
  }

  function Below(n: nat): (ids: set<nat>)
    ensures forall i :: i in ids <==> 0 <= i < n
  {
    if n == 0 then {} else Below(n - 1) + {n - 1}
  }

  /** The lookup with its stack and the objects seen so far. */
  function Search(store: Store, pending: seq<nat>, seen: set<nat>): Option<seq<nat>>
    requires Linked(store) && Inside(store, pending)
    decreases Below(|store|) - seen, |pending|
  {
    if pending == [] then None
    else
      var rest, e := pending[..|pending| - 1], pending[|pending| - 1];
      if e in seen then Search(store, rest, seen)
      else if store[e].runs.Some? then store[e].runs
      else
        assert e in Below(|store|) - seen;
        Search(store, rest + Nested(store, e), seen + {e})
  }

  function Evidence(store: Store, error: nat): Option<seq<nat>>
    requires Linked(store) && error < |store|
  {
    Search(store, [error], {})
  }

  method ExceptionEvidence(store: Store, error: nat) returns (runs: Option<seq<nat>>)
    requires Linked(store) && error < |store|
    ensures runs == Evidence(store, error)
  {
    var pending := [error];
    var seen: set<nat> := {};
    while pending != []
      invariant Inside(store, pending) && Search(store, pending, seen) == Evidence(store, error)
      decreases Below(|store|) - seen, |pending|
    {
      var current := pending[|pending| - 1];
      pending := pending[..|pending| - 1];
      if current !in seen {
        assert current in Below(|store|) - seen;
        seen := seen + {current};
        if store[current].runs.Some? {
          return store[current].runs;
        }
        pending := pending + Nested(store, current);
      }
    }
    runs := None;
  }

  /** A way from an exception through cancellations without evidence. */
  ghost predicate Path(store: Store, path: seq<nat>)
    requires Linked(store)
  {
    && path != [] && path[0] < |store|
    && (|path| > 1 ==> store[path[0]].runs.None? && path[1] in Nested(store, path[0]) && Path(store, path[1..]))
  }

  function Last(path: seq<nat>): nat
    requires path != []
  {
    path[|path| - 1]
  }

  /** A path leads from the error to an object that carries these runs. */
  ghost predicate Carries(store: Store, error: nat, path: seq<nat>, runs: Option<seq<nat>>)
    requires Linked(store)
  {
    Path(store, path) && path[0] == error && Last(path) < |store| && store[Last(path)].runs == runs
  }

  /** What the lookup returns is carried by an object that the error leads to. */
  lemma {:induction false} FoundIsCarried(store: Store, pending: seq<nat>, seen: set<nat>) returns (path: seq<nat>)
    requires Linked(store) && Inside(store, pending) && Search(store, pending, seen).Some?
    ensures path != [] && path[0] in pending && Carries(store, path[0], path, Search(store, pending, seen))
    decreases Below(|store|) - seen, |pending|
  {
    var rest, e := pending[..|pending| - 1], pending[|pending| - 1];
    if e in seen {
      path := FoundIsCarried(store, rest, seen);
    } else if store[e].runs.Some? {
      path := [e];
    } else {
      assert e in Below(|store|) - seen;
      path := FoundIsCarried(store, rest + Nested(store, e), seen + {e});
      if path[0] !in rest {
        var longer := [e] + path;
        assert longer[1..] == path;
        path := longer;
      }
    }
  }

  /** Nothing in the set carries runs, and everything it leads to is in the set or pending. */
  ghost predicate Barren(store: Store, seen: set<nat>, pending: seq<nat>)
    requires Linked(store)
  {
    forall e :: e in seen ==>
      e < |store| && store[e].runs.None? && forall i :: i in Nested(store, e) ==> i in seen || i in pending
  }

  lemma {:induction false} NothingFound(store: Store, pending: seq<nat>, seen: set<nat>) returns (all: set<nat>)
    requires Linked(store) && Inside(store, pending) && Search(store, pending, seen).None?
    requires Barren(store, seen, pending)
    ensures Barren(store, all, []) && seen <= all && forall i :: i in pending ==> i in all
    decreases Below(|store|) - seen, |pending|
  {
    if pending == [] {
      all := seen;
    } else {
      var rest, e := pending[..|pending| - 1], pending[|pending| - 1];
      assert pending == rest + [e];
      if e in seen {
        all := NothingFound(store, rest, seen);
      } else {
        assert e in Below(|store|) - seen;
        all := NothingFound(store, rest + Nested(store, e), seen + {e});
      }
    }
  }

  lemma {:induction false} BarrenPath(store: Store, all: set<nat>, path: seq<nat>)
    requires Linked(store) && Barren(store, all, []) && Path(store, path) && path[0] in all
    ensures Last(path) in all
  {
    if |path| > 1 {
      BarrenPath(store, all, path[1..]);
    }
  }

  ghost predicate SomethingCarried(store: Store, error: nat)
    requires Linked(store)
  {
    exists path, runs :: Carries(store, error, path, Some(runs))
  }

  /**
   * The lookup ends although exceptions may refer to each other in cycles. It finds runs exactly
   * when the error carries them or leads to them through cancellations that carry none.
   */
  lemma EvidenceExactlyWhen(store: Store, error: nat)
    requires Linked(store) && error < |store|
    ensures Evidence(store, error).Some? <==> SomethingCarried(store, error)
    ensures Evidence(store, error).Some? ==> exists path :: Carries(store, error, path, Evidence(store, error))
  {
    if Evidence(store, error).Some? {
      var path := FoundIsCarried(store, [error], {});
    } else {
      var all := NothingFound(store, [error], {});
      forall path, runs ensures !Carries(store, error, path, Some(runs)) {
        if Carries(store, error, path, Some(runs)) {
          BarrenPath(store, all, path);
        }
      }
    }
  }

  /** No cancellation wraps two different cancellations. */
  predicate Unbranched(store: Store)
    requires Linked(store)
  {
    forall e :: 0 <= e < |store| ==> forall x, y :: x in Nested(store, e) && y in Nested(store, e) ==> x == y
  }

  /** Without branches there is only one value to find, so that it is also the closest. */
  lemma {:induction false} UnbranchedIsUnambiguous(store: Store, one: seq<nat>, two: seq<nat>)
    requires Linked(store) && Unbranched(store) && Path(store, one) && Path(store, two) && one[0] == two[0]
    requires Last(one) < |store| && Last(two) < |store|
    requires store[Last(one)].runs.Some? && store[Last(two)].runs.Some?
    ensures one == two
    decreases |one|
  {
    if |one| == 1 || |two| == 1 {
      assert one == [one[0]] && two == [two[0]];
    } else {
      UnbranchedIsUnambiguous(store, one[1..], two[1..]);
      assert one == [one[0]] + one[1..] && two == [two[0]] + two[1..];
    }
  }

  /** With branches a deeper value behind the cause wins over a closer one in the context. */
  lemma DeeperCauseWins(near: seq<nat>, far: seq<nat>)
    ensures var store := [
        Thrown(Cancelled, None, Some(1), Some(2)),
        Thrown(Cancelled, Some(near), None, None),
        Thrown(Cancelled, None, Some(3), None),
        Thrown(Cancelled, Some(far), None, None)];
      Linked(store) && Evidence(store, 0) == Some(far)
  {
    var store := [
      Thrown(Cancelled, None, Some(1), Some(2)),
      Thrown(Cancelled, Some(near), None, None),
      Thrown(Cancelled, None, Some(3), None),
      Thrown(Cancelled, Some(far), None, None)];
    assert [0][..0] + Nested(store, 0) == [1, 2];
    assert [1, 2][..1] + Nested(store, 2) == [1, 3];
    assert Search(store, [1, 3], {0} + {2}) == Some(far);
    assert Search(store, [1, 2], {0}) == Some(far);
    assert {} + {0} == {0};
  }

  // ---------------------------------------------------------------- the run around the sweep

  /** The steps around the sweep that fail, and with what kind of exception. */
  datatype Setbacks = Setbacks(
    setup: Option<Kind>,
    compatibility: Option<Kind>,
    running: Option<Kind>,
    final: Option<Kind>,
    rendering: Option<Kind>,
    monitoring: Option<Kind>,
    closing: Option<Kind>)

  /** A benchmark run; error is the exception that the sweep raises if one of its calls fails. */
  datatype Benchmark = Benchmark(
    n: nat,
    policy: string,
    recoveryPending: bool,
    fails: Faults,
    store: Store,
    error: nat,
    setbacks: Setbacks)

  predicate Valid(b: Benchmark) {
    Linked(b.store) && b.error < |b.store|
  }

  function OutcomeOf(b: Benchmark): Outcome {
    SweepOutcome(b.n, b.policy, b.recoveryPending, b.fails)
  }

  lemma PointsInRange(b: Benchmark)
    ensures 0 <= Points(b.n, OutcomeOf(b)) <= b.n
  {
    FailureInRange(b.n, b.policy, 1, b.fails);
  }

  /** The points the sweep has measured when it ends. */
  function Results(b: Benchmark): seq<nat> {
    PointsInRange(b);
    Upto(Points(b.n, OutcomeOf(b)))
  }

  datatype Ending = Returned(runs: seq<nat>) | Raised(store: Store, error: nat)

  /** run_benchmark_iterations: the status writes before and after the sweep, and its exceptions. */
  function Iterations(b: Benchmark): (ending: Ending)
    requires Valid(b)
    ensures ending.Raised? ==> Linked(ending.store) && ending.error < |ending.store|
  {
    if b.setbacks.running.Some? then
      Raised([Thrown(b.setbacks.running.value, None, None, None)], 0)
    else if OutcomeOf(b).Complete? then
      if b.setbacks.final.Some? then Raised([Thrown(b.setbacks.final.value, None, None, None)], 0)
      else Returned(Results(b))
    else
      var attached := b.store[b.error := b.store[b.error].(runs := Some(Results(b)))];
      if b.setbacks.final.Some? then
        Raised(attached + [Thrown(b.setbacks.final.value, None, Some(b.error), None)], |attached|)
      else
        Raised(attached, b.error)
  }

  datatype Delivery = Report(completed: bool, runs: seq<nat>) | Nothing | Escapes(kind: Kind)

  /** The outer handler turns an Exception into a CollectionError; other kinds pass through. */
  function Outward(kind: Kind): Delivery {
    Escapes(if kind.Ordinary? then Collection else kind)
  }

  /** The first of the steps that fails, if one does. */
  function First(a: Option<Kind>, b: Option<Kind>): Option<Kind> {
    if a.Some? then a else b
  }

  /** The part under the open connection: the report, or the exception it ends with. */
  function Connected(b: Benchmark): Delivery
    requires Valid(b)
  {
    if b.setbacks.compatibility.Some? then Escapes(b.setbacks.compatibility.value)
    else match Iterations(b)
      case Raised(store, e) =>
        if store[e].kind.Fatal? then Escapes(Fatal)
        else if b.setbacks.rendering.Some? then Escapes(b.setbacks.rendering.value)
        else Report(false, match Evidence(store, e) case Some(runs) => runs case None => [])
      case Returned(runs) =>
        var problem := First(b.setbacks.rendering, b.setbacks.monitoring);
        if problem.Some? then Escapes(problem.value) else Report(true, runs)
  }

  /**
   * run_benchmark_and_collect_metrics: a report, nothing to run, or an exception. An exception on
   * closing the connection takes the place of what came before.
   */
  function Deliver(b: Benchmark): Delivery
    requires Valid(b)
  {
    if b.setbacks.setup.Some? then Outward(b.setbacks.setup.value)
    else if b.n == 0 then Nothing
    else if b.setbacks.closing.Some? then Outward(b.setbacks.closing.value)
    else match Connected(b)
      case Escapes(kind) => Outward(kind)
      case delivery => delivery
  }

  /** The points measured before the run ends; none if the sweep never starts. */
  function MeasuredPoints(b: Benchmark): seq<nat> {
    if First(b.setbacks.setup, First(b.setbacks.compatibility, b.setbacks.running)).Some? then [] else Results(b)
  }

  // ---------------------------------------------------------------- which points arrive

  lemma OwnEvidence(store: Store, e: nat)
    requires Linked(store) && e < |store| && store[e].runs.Some?
    ensures Evidence(store, e) == store[e].runs
  {
  }

  /** A lone object without runs hands over to the objects it wraps. */
  lemma EvidenceFromNested(store: Store, e: nat)
    requires Linked(store) && e < |store| && store[e].runs.None?
    ensures Evidence(store, e) == Search(store, Nested(store, e), {e})
  {
    assert [e][..0] + Nested(store, e) == Nested(store, e);
    assert {} + {e} == {e};
  }

  lemma NoEvidence(store: Store, e: nat)
    requires Linked(store) && e < |store| && store[e].runs.None? && Nested(store, e) == []
    ensures Evidence(store, e) == None
  {
    EvidenceFromNested(store, e);
  }

  lemma WrappedEvidence(store: Store, e: nat, inner: nat)
    requires Linked(store) && e < |store| && store[e].runs.None? && Nested(store, e) == [inner] && inner != e
    requires inner < |store| && store[inner].runs.Some?
    ensures Evidence(store, e) == store[inner].runs
  {
    EvidenceFromNested(store, e);
  }

  /** The runs on the exception that a failing sweep ends with, after the last status write. */
  lemma FailedSweepEvidence(b: Benchmark)
    requires Valid(b) && b.setbacks.running.None? && !OutcomeOf(b).Complete?
    ensures var Raised(store, e) := Iterations(b);
      Evidence(store, e) ==
        if b.setbacks.final.None? || BothCancelled(b) then Some(Results(b)) else None
  {
    var Raised(store, e) := Iterations(b);
    if b.setbacks.final.None? {
      OwnEvidence(store, e);
    } else if BothCancelled(b) {
      WrappedEvidence(store, e, b.error);
    } else {
      NoEvidence(store, e);
    }
  }

  predicate BothCancelled(b: Benchmark)
    requires Valid(b)
  {
    b.setbacks.final == Some(Cancelled) && b.store[b.error].kind.Cancelled?
  }

  /**
   * The guards that a run must pass. Nothing around the sweep fails. A sweep that completes writes
   * its last status and is monitored. A sweep that fails is not interrupted fatally, and its last
   * status write succeeds, unless there is no point to lose or both failures are cancellations.
   */
  predicate Arrives(b: Benchmark)
    requires Valid(b)
  {
    var final := b.setbacks.final;
    && b.n > 0
    && b.setbacks.setup.None? && b.setbacks.compatibility.None?
    && b.setbacks.rendering.None? && b.setbacks.closing.None?
    && if b.setbacks.running.Some? then
         b.setbacks.running != Some(Fatal)
       else if OutcomeOf(b).Complete? then
         final.None? && b.setbacks.monitoring.None?
       else if final.None? then
         !b.store[b.error].kind.Fatal?
       else
         final != Some(Fatal) && (Points(b.n, OutcomeOf(b)) == 0 || BothCancelled(b))
  }

  /**
   * All measured points arrive in a report if and only if the run passes every guard. An ordinary
   * exception leaves the program only as a CollectionError.
   */
  lemma PointsArriveExactlyWhen(b: Benchmark)
    requires Valid(b)
    ensures (Deliver(b).Report? && Deliver(b).runs == MeasuredPoints(b)) <==> Arrives(b)
    ensures Deliver(b) != Escapes(Ordinary)
  {
    PointsInRange(b);
    if b.setbacks.running.Some? || (OutcomeOf(b).Complete? && b.setbacks.final.Some?) {
      NoEvidence(Iterations(b).store, 0);
    } else if !OutcomeOf(b).Complete? {
      FailedSweepEvidence(b);
    }
  }

  /** A report never invents, reorders or drops single points: it holds all that were measured, or none. */
  lemma ReportsAreWholeOrEmpty(b: Benchmark)
    requires Valid(b) && Deliver(b).Report?
    ensures Deliver(b).runs == MeasuredPoints(b) || Deliver(b).runs == []
    ensures Deliver(b).completed <==> Iterations(b).Returned?
    ensures Deliver(b).completed ==> Deliver(b).runs == Upto(b.n)
  {
    PointsInRange(b);
    if b.setbacks.running.Some? || (OutcomeOf(b).Complete? && b.setbacks.final.Some?) {
      NoEvidence(Iterations(b).store, 0);
    } else if !OutcomeOf(b).Complete? {
      FailedSweepEvidence(b);
    }
  }

  const NO_SETBACKS := Setbacks(None, None, None, None, None, None, None)

  /** A run on which every call of the sweep succeeds. */
  function Smooth(n: nat, policy: string, setbacks: Setbacks): Benchmark {
    Benchmark(n, policy, false, (_, _) => false, [Thrown(Ordinary, None, None, None)], 0, setbacks)
  }

  lemma {:induction false} SmoothSweep(n: nat, policy: string, idx: nat)
    requires InitializesIteration(policy, 1).Some?
    ensures FirstFailure(n, policy, idx, (_, _) => false) == Complete
    decreases n + 1 - idx
  {
    if idx <= n {
      SmoothSweep(n, policy, idx + 1);
    }
  }

  /**
   * Two inputs on which measured points are lost: after a sweep of any length in which everything
   * went well, a failing last status write leaves a report without points, and failing monitoring
   * leaves no report at all.
   */
  lemma LosingRuns(n: nat, policy: string, kind: Kind)
    requires n > 0 && InitializesIteration(policy, 1).Some? && kind != Fatal
    ensures var b := Smooth(n, policy, NO_SETBACKS.(final := Some(kind)));
      MeasuredPoints(b) == Upto(n) && Deliver(b) == Report(false, [])
    ensures var b := Smooth(n, policy, NO_SETBACKS.(monitoring := Some(Ordinary)));
      MeasuredPoints(b) == Upto(n) && Deliver(b) == Escapes(Collection)
  {
    SmoothSweep(n, policy, 1);
    NoEvidence([Thrown(kind, None, None, None)], 0);
    assert OutcomeOf(Smooth(n, policy, NO_SETBACKS.(final := Some(kind)))).Complete?;
    assert OutcomeOf(Smooth(n, policy, NO_SETBACKS.(monitoring := Some(Ordinary)))).Complete?;
  }
}
