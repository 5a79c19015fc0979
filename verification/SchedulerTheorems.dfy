/** What run_tasks guarantees, for every interleaving of its workers. */
module SchedulerTheorems {
  import opened Wrappers
  import opened Collections
  import opened LoadPlans
  import NumberTheory
  import opened SchedulerModel
  import opened SchedulerInvariant
  import opened SchedulerSteps

  // ---------------------------------------------------------------- safety

  /** The steps are a run of an accepted phase, from the start to s. */
  ghost predicate Reaches(c: Config, s: System, steps: seq<Label>) {
    ValidConfig(c) && Possible(c, Initial(c), steps) && After(c, Initial(c), steps) == s
  }

  lemma ReachableInv(c: Config, s: System, steps: seq<Label>)
    requires Reaches(c, s, steps)
    ensures Inv(c, s)
  {
    InitialInv(c);
    RunKeepsInv(c, Initial(c), steps);
  }

  /**
   * On every interleaving, failed and cancelled runs included, a batch commits only after it was
   * issued, and before it was issued every direct and transitive dependency was fully committed.
   */
  lemma DependenciesFirst(c: Config, s: System, steps: seq<Label>, k: nat, path: seq<nat>) returns (m: nat)
    requires Reaches(c, s, steps) && k < |s.log| && s.log[k].Committed?
    requires DependencyPath(c, path) && |path| >= 2 && path[0] == s.log[k].task
    ensures m < k && s.log[m] == Issued(s.log[k].task, s.log[k].job)
    ensures FullyCommitted(c, s.log[..m], path[|path| - 1])
  {
    ReachableInv(c, s, steps);
    assert EventOk(c, s.log, k);
    m :| 0 <= m < k && s.log[..k][m] == Issued(s.log[k].task, s.log[k].job);
    assert EventOk(c, s.log, m);
  }

  /** Every batch ever issued is a legal bigint range and respects the row bound. */
  lemma BatchesBounded(c: Config, s: System, steps: seq<Label>, k: nat)
    requires Reaches(c, s, steps) && k < |s.log| && s.log[k].Issued?
    ensures JobOk(c, s.log[k].task, s.log[k].job)
  {
    ReachableInv(c, s, steps);
    assert EventOk(c, s.log, k);
  }

  /** No key is ever committed twice, whatever fails. */
  lemma NeverTwice(c: Config, s: System, steps: seq<Label>, i: nat, key: int)
    requires Reaches(c, s, steps) && i < |c.tasks|
    ensures match c.tasks[i].count
      case None => CommittedTally(s.log, i, Unit) <= 1
      case Some(count) => CommittedTally(s.log, i, Key(key)) <= Weigh(Key(key), Range(1, count))
  {
    ReachableInv(c, s, steps);
    assert TaskOk(c, s.core, i) && Balanced(c, s, i) && Cut(c, s, i);
  }

  predicate AllExited(s: System) {
    forall w :: 0 <= w < |s.workers| ==> s.workers[w].Exited?
  }

  /**
   * A counted task has loaded exactly the keys of one sequential unbatched pass over 1..count, in
   * ceil(count/stride) batches, an uncounted task ran once, and the reported rows are the rows of
   * its commits.
   */
  ghost predicate LoadedOnce(c: Config, s: System, i: nat)
    requires i < |c.tasks| && Shaped(c, s.core) && BatchesDivide(c)
  {
    var st := s.core.states[i];
    && st.completed
    && st.rows == CommittedRows(s.log, i)
    && st.batches == CommittedTally(s.log, i, Unit)
    && match c.tasks[i].count
       case None => CommittedTally(s.log, i, Unit) == 1
       case Some(count) =>
         && (forall key :: CommittedTally(s.log, i, Key(key)) == Weigh(Key(key), Range(1, count)))
         && st.batches == (count + Stride(c, i) - 1) / Stride(c, i)
  }

  lemma AllExitedLoads(c: Config, s: System, i: nat)
    requires Inv(c, s) && i < |c.tasks| && AllExited(s)
    ensures LoadedOnce(c, s, i)
  {
    assert Exited in s.workers by {
      assert s.workers[0] == Exited;
    }
    AllDone(c, s.core);
    assert TaskOk(c, s.core, i) && Balanced(c, s, i) && Cut(c, s, i);
    CompletedIsCommitted(c, s, i);
    NothingHeld(s.workers, i);
    if c.tasks[i].count.Some? {
      WellFormedFacts(c);
      var batches := s.core.states[i].batches;
      assert (batches - 1) * Stride(c, i) == batches * Stride(c, i) - Stride(c, i);
      NumberTheory.CeilingDivision(c.tasks[i].count.value, Stride(c, i), batches);
    }
  }

  /** When run_tasks returns normally, every task was loaded completely and once. */
  lemma NormalReturnLoadsEverything(c: Config, s: System, steps: seq<Label>, i: nat)
    requires Reaches(c, s, steps) && i < |c.tasks| && AllExited(s)
    ensures Shaped(c, s.core) && BatchesDivide(c) && LoadedOnce(c, s, i)
  {
    ReachableInv(c, s, steps);
    AllExitedLoads(c, s, i);
  }

  lemma AllDone(c: Config, s: Core)
    requires CoreOk(c, s) && |s.done| >= |c.tasks|
    ensures forall i :: 0 <= i < |c.tasks| ==> s.states[i].completed
  {
    UniqueNamesBySize(c.tasks);
    SubsetSize(s.done, Names(c.tasks));
    WellFormedFacts(c);
    forall i | 0 <= i < |c.tasks| ensures s.states[i].completed {
      assert TaskOk(c, s, i);
    }
  }

  // ---------------------------------------------------------------- no deadlock

  predicate HoldsJob(x: Worker) {
    x.Running? || x.Stored? || x.Lost? || x.LostStored?
  }

  lemma {:induction false} SomeoneHolds(workers: seq<Worker>, i: nat) returns (w: nat)
    requires Sum(workers, i, InFlight(Unit)) + Sum(workers, i, Uncounted) > 0
    ensures w < |workers| && HoldsJob(workers[w])
  {
    var last := |workers| - 1;
    if HoldsJob(workers[last]) {
      w := last;
    } else {
      w := SomeoneHolds(workers[..last], i);
    }
  }

  /** While something is undone, some undone task has all its dependencies done. */
  lemma UndoneFrontier(c: Config, done: set<string>) returns (i: nat)
    requires Accepted(c.tasks) && done <= Names(c.tasks) && |done| < |c.tasks|
    ensures i < |c.tasks| && c.tasks[i].name !in done && DepsDone(c, done, i)
  {
    UniqueNamesBySize(c.tasks);
    i := SomethingIsReady(c.tasks, done);
  }

  /** In a quiet state some undone task has its dependencies done and a batch in flight. */
  lemma QuietHasInFlight(c: Config, s: Core) returns (i: nat)
    requires Accepted(c.tasks) && CoreOk(c, s) && Quiet(c, s)
    ensures i < |c.tasks| && s.states[i].outstanding > 0
  {
    i := UndoneFrontier(c, s.done);
    assert TaskOk(c, s, i);
    assert !Issuable(c, s, i) && !Drained(c, s, i);
  }

  /** A worker waits only while some job is issued and not counted; its end will notify the worker. */
  lemma WaitingHasCompany(c: Config, s: System) returns (w: nat)
    requires Inv(c, s) && Waiting in s.workers
    ensures w < |s.workers| && HoldsJob(s.workers[w])
  {
    var i := QuietHasInFlight(c, s.core);
    assert Balanced(c, s, i);
    w := SomeoneHolds(s.workers, i);
  }

  predicate NoFailure(s: System) {
    forall w :: 0 <= w < |s.workers| ==> !s.workers[w].Lost? && !s.workers[w].LostStored? && !s.workers[w].Gone?
  }

  /**
   * No reachable state without failures is stuck: either every worker has returned, or some
   * worker can take, commit or finish.
   */
  lemma NoDeadlock(c: Config, s: System, steps: seq<Label>) returns (l: Label)
    requires Reaches(c, s, steps) && NoFailure(s) && !AllExited(s)
    ensures Enabled(c, s, l) && !l.FailBy?
  {
    ReachableInv(c, s, steps);
    var w: nat :| w < |s.workers| && !s.workers[w].Exited?;
    if s.workers[w].Waiting? {
      w := WaitingHasCompany(c, s);
    }
    assert WorkerOk(c, s.log, s.workers[w]);
    l := match s.workers[w]
      case Running(_, _) => CommitBy(w, 0)
      case Stored(_, _, _) => FinishBy(w)
      case _ => TakeBy(w);
  }

  // ---------------------------------------------------------------- termination

  function TaskWork(c: Config, s: Core, i: nat): int
    requires Shaped(c, s) && i < |c.tasks|
  {
    var st := s.states[i];
    var unissued := match c.tasks[i].count
      case None => if st.submitted then 0 else 1
      case Some(count) => count + 1 - st.nextKey;
    3 * unissued + if st.completed then 0 else 1
  }

  function TotalWork(c: Config, s: Core, n: nat): int
    requires Shaped(c, s) && n <= |c.tasks|
  {
    if n == 0 then 0 else TotalWork(c, s, n - 1) + TaskWork(c, s, n - 1)
  }

  function Total(workers: seq<Worker>, f: Worker -> nat): nat {
    if workers == [] then 0 else Total(workers[..|workers| - 1], f) + f(workers[|workers| - 1])
  }

  function Phase(x: Worker): nat {
    if x.Running? then 2 else if x.Stored? then 1 else 0
  }

  function ReadyOne(x: Worker): nat {
    if x.Ready? then 1 else 0
  }

  function AliveOne(x: Worker): nat {
    if x.Lost? || x.LostStored? || x.Gone? then 0 else 1
  }

  function Effort(c: Config, s: System): int
    requires Shaped(c, s.core)
  {
    TotalWork(c, s.core, |c.tasks|) + Total(s.workers, Phase)
  }

  /** Unissued keys, jobs in flight and undone tasks, then ready workers, then live workers. */
  function Budget(c: Config, s: System): int
    requires Shaped(c, s.core)
  {
    Combined(Effort(c, s), Total(s.workers, ReadyOne), Total(s.workers, AliveOne), |s.workers| + 1)
  }

  function Combined(effort: int, ready: nat, alive: nat, base: int): int {
    (effort * base + ready) * base + alive
  }

  lemma {:induction false} TotalUpdate(workers: seq<Worker>, w: nat, x: Worker, f: Worker -> nat)
    requires w < |workers|
    ensures Total(workers[w := x], f) == Total(workers, f) - f(workers[w]) + f(x)
  {
    var front := workers[..|workers| - 1];
    if w == |workers| - 1 {
      assert workers[w := x][..|workers| - 1] == front;
    } else {
      assert workers[w := x][..|workers| - 1] == front[w := x];
      TotalUpdate(front, w, x, f);
    }
  }

  lemma {:induction false} TotalBounds(workers: seq<Worker>)
    ensures Total(workers, ReadyOne) <= |workers| && Total(workers, AliveOne) <= |workers|
    ensures Total(Notified(workers), Phase) == Total(workers, Phase)
    ensures Total(Notified(workers), AliveOne) == Total(workers, AliveOne)
  {
    if workers != [] {
      TotalBounds(workers[..|workers| - 1]);
      assert Notified(workers)[..|workers| - 1] == Notified(workers[..|workers| - 1]);
    }
  }

  lemma {:induction false} TotalWorkUpdate(c: Config, s: Core, t: Core, i: nat, n: nat)
    requires Shaped(c, s) && Shaped(c, t) && i < |c.tasks| && n <= |c.tasks|
    requires forall j :: 0 <= j < |c.tasks| && j != i ==> t.states[j] == s.states[j]
    ensures TotalWork(c, t, n) == TotalWork(c, s, n) + if i < n then TaskWork(c, t, i) - TaskWork(c, s, i) else 0
  {
    if n > 0 {
      TotalWorkUpdate(c, s, t, i, n - 1);
    }
  }

  lemma {:induction false} WorkIsNatural(c: Config, s: Core, n: nat)
    requires CoreOk(c, s) && n <= |c.tasks|
    ensures TotalWork(c, s, n) >= 0
  {
    if n > 0 {
      WorkIsNatural(c, s, n - 1);
      assert TaskOk(c, s, n - 1);
    }
  }

  lemma {:induction false} ClosingSavesWork(c: Config, s: Core, t: Core, order: seq<nat>)
    requires Shaped(c, s) && Shaped(c, t) && ClosedBy(c, s, t, order)
    ensures TotalWork(c, t, |c.tasks|) == TotalWork(c, s, |c.tasks|) - |order|
    decreases |order|
  {
    if order != [] {
      TotalWorkUpdate(c, s, Close(c, s, order[0]), order[0], |c.tasks|);
      ClosingSavesWork(c, Close(c, s, order[0]), t, order[1..]);
    }
  }

  lemma IssueSavesWork(c: Config, s: Core, i: nat)
    requires CoreOk(c, s) && BatchesDivide(c) && i < |c.tasks| && Issuable(c, s, i)
    ensures TotalWork(c, IssueAt(c, s, i), |c.tasks|) <= TotalWork(c, s, |c.tasks|) - 3
  {
    assert TaskOk(c, s, i);
    TotalWorkUpdate(c, s, IssueAt(c, s, i), i, |c.tasks|);
  }

  /** The three parts of the budget decrease lexicographically. */
  predicate Cheaper(c: Config, s: System, t: System)
    requires Shaped(c, s.core) && Shaped(c, t.core)
  {
    || Effort(c, t) < Effort(c, s)
    || (Effort(c, t) == Effort(c, s) && Total(t.workers, ReadyOne) < Total(s.workers, ReadyOne))
    || (Effort(c, t) == Effort(c, s) && Total(t.workers, ReadyOne) == Total(s.workers, ReadyOne)
        && Total(t.workers, AliveOne) < Total(s.workers, AliveOne))
  }

  /** What a take saves: each completion one unit, an issued job at least three. */
  lemma TakeSavesWork(c: Config, s: System)
    requires Inv(c, s)
    ensures var (core, pick) := Take(c, s.core);
      TotalWork(c, core, |c.tasks|) <= TotalWork(c, s.core, |c.tasks|)
        - (if core.done != s.core.done then 1 else 0) - (if pick.Issue? then 3 else 0)
  {
    var (core, pick) := Take(c, s.core);
    var mid, order := TakeOutcome(c, s);
    ClosingSavesWork(c, s.core, mid, order);
    if pick.Issue? {
      IssueSavesWork(c, mid, pick.task);
    }
    if order == [] {
      assert mid == s.core;
    }
  }

  lemma TakeMovesPhase(workers: seq<Worker>, w: nat, x: Worker)
    requires w < |workers| && workers[w].Ready?
    ensures Total(Notified(workers)[w := x], Phase) == Total(workers, Phase) + Phase(x)
    ensures Total(workers[w := x], Phase) == Total(workers, Phase) + Phase(x)
  {
    TotalBounds(workers);
    TotalUpdate(Notified(workers), w, x, Phase);
    TotalUpdate(workers, w, x, Phase);
  }

  lemma TakeIsCheaper(c: Config, s: System, w: nat)
    requires Inv(c, s) && w < |s.workers| && s.workers[w].Ready?
    ensures Cheaper(c, s, DoTake(c, s, w))
  {
    var t := DoTake(c, s, w);
    TakeSavesWork(c, s);
    TakeMovesPhase(s.workers, w, t.workers[w]);
    TotalUpdate(s.workers, w, t.workers[w], ReadyOne);
  }

  lemma FinishIsCheaper(c: Config, s: System, w: nat)
    requires Inv(c, s) && Enabled(c, s, FinishBy(w))
    ensures Cheaper(c, s, Do(c, s, FinishBy(w)))
  {
    var Stored(i, job, rows) := s.workers[w];
    TotalBounds(s.workers);
    TotalUpdate(Notified(s.workers), w, Ready, Phase);
    TotalWorkUpdate(c, s.core, Finish(c, s.core, i, rows), i, |c.tasks|);
  }

  lemma StepIsCheaper(c: Config, s: System, l: Label)
    requires Inv(c, s) && Enabled(c, s, l)
    ensures Cheaper(c, s, Do(c, s, l))
  {
    var w := l.worker;
    match l
    case TakeBy(_) => TakeIsCheaper(c, s, w);
    case FinishBy(_) => FinishIsCheaper(c, s, w);
    case CommitBy(_, _) =>
      TotalUpdate(s.workers, w, Do(c, s, l).workers[w], Phase);
    case FailBy(_) =>
      TotalUpdate(s.workers, w, Do(c, s, l).workers[w], Phase);
      TotalUpdate(s.workers, w, Do(c, s, l).workers[w], ReadyOne);
      TotalUpdate(s.workers, w, Do(c, s, l).workers[w], AliveOne);
  }

  lemma Digits(a: int, r: nat, b: int, q: nat, base: int)
    requires r < base && q < base && (a < b || (a == b && r < q))
    ensures a * base + r < b * base + q
  {
    if a < b {
      assert (a + 1) * base <= b * base;
      assert (a + 1) * base == a * base + base;
    }
  }

  lemma Lexicographic(e0: int, r0: nat, a0: nat, e1: int, r1: nat, a1: nat, base: int)
    requires r0 < base && r1 < base && a0 < base && a1 < base
    requires e1 < e0 || (e1 == e0 && r1 < r0) || (e1 == e0 && r1 == r0 && a1 < a0)
    ensures Combined(e1, r1, a1, base) < Combined(e0, r0, a0, base)
  {
    if e1 < e0 || r1 < r0 {
      Digits(e1, r1, e0, r0, base);
    }
    Digits(e1 * base + r1, a1, e0 * base + r0, a0, base);
  }

  lemma BudgetDecreases(c: Config, s: System, l: Label)
    requires Inv(c, s) && Enabled(c, s, l)
    ensures Budget(c, Do(c, s, l)) < Budget(c, s)
  {
    var t := Do(c, s, l);
    StepIsCheaper(c, s, l);
    TotalBounds(s.workers);
    TotalBounds(t.workers);
    Lexicographic(
      Effort(c, s), Total(s.workers, ReadyOne), Total(s.workers, AliveOne),
      Effort(c, t), Total(t.workers, ReadyOne), Total(t.workers, AliveOne), |s.workers| + 1);
  }

  lemma CombinedIsNatural(effort: int, ready: nat, alive: nat, base: int)
    requires effort >= 0 && base >= 0
    ensures Combined(effort, ready, alive, base) >= 0
  {
    assert effort * base >= 0;
    assert (effort * base + ready) * base >= 0;
  }

  lemma BudgetIsNatural(c: Config, s: System)
    requires Inv(c, s)
    ensures Budget(c, s) >= 0
  {
    WorkIsNatural(c, s.core, |c.tasks|);
    CombinedIsNatural(Effort(c, s), Total(s.workers, ReadyOne), Total(s.workers, AliveOne), |s.workers| + 1);
  }

  /** Every run, failures included, ends: it has at most Budget steps. */
  lemma {:induction false} RunsEnd(c: Config, s: System, steps: seq<Label>)
    requires Inv(c, s) && Possible(c, s, steps)
    ensures |steps| <= Budget(c, s)
    decreases |steps|
  {
    if steps == [] {
      BudgetIsNatural(c, s);
    } else {
      BudgetDecreases(c, s, steps[0]);
      StepKeepsInv(c, s, steps[0]);
      RunsEnd(c, Do(c, s, steps[0]), steps[1..]);
    }
  }

  // ---------------------------------------------------------------- fairness

  /** A pass finds the issuable task that comes first after the cursor, or one it overtakes. */
  lemma {:induction false} ScanFinds(c: Config, s: Core, offset: nat, i: nat)
    requires Shaped(c, s) && i < |c.tasks| && Issuable(c, s, i) && offset <= Distance(c, s, i)
    ensures var r := Scan(c, s, offset);
      r.1.Some? && Distance(c, s, r.1.value) <= Distance(c, s, i)
    decreases |c.tasks| - offset
  {
    VisitedDistance(c, s, i);
    var j := Visited(c, s, offset);
    DistanceVisited(c, s, offset);
    if Issuable(c, s, j) {
    } else if Drained(c, s, j) {
      ScanFinds(c, Close(c, s, j), offset + 1, i);
    } else {
      ScanFinds(c, s, offset + 1, i);
    }
  }

  /** A take that passes over an issuable task brings the cursor strictly closer to it. */
  lemma TakeComesCloser(c: Config, s: Core, i: nat)
    requires Shaped(c, s) && BatchesDivide(c) && i < |c.tasks| && Issuable(c, s, i) && |s.done| < |c.tasks|
    ensures var (t, pick) := Take(c, s);
      pick.Issue? && (pick.task != i ==> Distance(c, t, i) < Distance(c, s, i))
  {
    ScanFinds(c, s, 0, i);
  }

  /** The takes of a run that issued a job. */
  function Issues(c: Config, s: System, steps: seq<Label>): nat
    requires Possible(c, s, steps)
    decreases |steps|
  {
    if steps == [] then 0
    else
      var t := Do(c, s, steps[0]);
      (if |t.log| > |s.log| && t.log[|s.log|].Issued? then 1 else 0) + Issues(c, t, steps[1..])
  }

  /** The task is issuable before every step, and no step issues it. */
  predicate Overlooked(c: Config, s: System, steps: seq<Label>, i: nat)
    requires i < |c.tasks| && Possible(c, s, steps)
    decreases |steps|
  {
    steps != [] ==>
      && Issuable(c, s.core, i)
      && var t := Do(c, s, steps[0]);
        && (forall k :: |s.log| <= k < |t.log| ==> t.log[k].Issued? ==> t.log[k].task != i)
        && Overlooked(c, t, steps[1..], i)
  }

  lemma OverlookedStep(c: Config, s: System, l: Label, i: nat)
    requires Inv(c, s) && Enabled(c, s, l) && i < |c.tasks| && Issuable(c, s.core, i)
    requires forall k :: |s.log| <= k < |Do(c, s, l).log| ==>
      Do(c, s, l).log[k].Issued? ==> Do(c, s, l).log[k].task != i
    ensures var t := Do(c, s, l);
      Distance(c, t.core, i) + (if |t.log| > |s.log| && t.log[|s.log|].Issued? then 1 else 0) <= Distance(c, s.core, i)
  {
    if l.TakeBy? {
      assert |s.core.done| < |c.tasks| by {
        if |s.core.done| >= |c.tasks| {
          AllDone(c, s.core);
        }
      }
      TakeComesCloser(c, s.core, i);
      var t := Do(c, s, l);
      assert t.log[|s.log|].Issued?;
    }
  }

  /** Bounded waiting: fewer than n takes can issue other jobs while a task stays issuable. */
  lemma {:induction false} RoundRobin(c: Config, s: System, steps: seq<Label>, i: nat)
    requires Inv(c, s) && Possible(c, s, steps) && i < |c.tasks| && Overlooked(c, s, steps, i)
    ensures Issues(c, s, steps) <= Distance(c, s.core, i) < |c.tasks|
    decreases |steps|
  {
    if steps != [] {
      OverlookedStep(c, s, steps[0], i);
      StepKeepsInv(c, s, steps[0]);
      RoundRobin(c, Do(c, s, steps[0]), steps[1..], i);
    }
  }
}
