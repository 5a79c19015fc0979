/** The invariant of the scheduler: what every step of every worker keeps, failures included. */
module SchedulerInvariant {
  import opened Wrappers
  import opened Collections
  import opened LoadPlans
  import opened SchedulerModel

  // ---------------------------------------------------------------- the shared variables

  predicate Started(s: Core, i: nat)
    requires i < |s.states|
  {
    var st := s.states[i];
    st.submitted || st.nextKey > 1 || st.outstanding > 0 || st.completed
  }

  ghost predicate TaskOk(c: Config, s: Core, i: nat)
    requires Shaped(c, s) && i < |c.tasks|
  {
    var st := s.states[i];
    && (st.completed <==> c.tasks[i].name in s.done)
    && (Started(s, i) ==> DepsDone(c, s.done, i))
    && 0 <= st.outstanding
    && (st.completed ==> st.outstanding == 0 && Exhausted(c, s, i))
    && match c.tasks[i].count
       case None =>
         && st.nextKey == 1
         && (st.outstanding > 0 || st.completed ==> st.submitted)
         && (st.submitted && !st.completed ==> st.outstanding > 0)
       case Some(count) => !st.submitted && 1 <= st.nextKey <= count + 1
  }

  ghost predicate CoreOk(c: Config, s: Core) {
    && Shaped(c, s) && WellFormed(c.tasks)
    && s.done <= Names(c.tasks)
    && forall i :: 0 <= i < |c.tasks| ==> TaskOk(c, s, i)
  }

  lemma WellFormedFacts(c: Config)
    requires WellFormed(c.tasks)
    ensures BatchesDivide(c)
    ensures forall i :: 0 <= i < |c.tasks| ==> c.tasks[i].name in Names(c.tasks)
    ensures forall i, j :: 0 <= i < |c.tasks| && 0 <= j < |c.tasks| && c.tasks[i].name == c.tasks[j].name ==> i == j
    ensures forall i :: 0 <= i < |c.tasks| && c.tasks[i].count.Some? ==> 0 <= c.tasks[i].count.value <= MAX_BIGINT
  {
    assert forall i :: 0 <= i < |c.tasks| ==> TaskNames(c.tasks)[i] in Names(c.tasks);
    assert forall i :: 0 <= i < |c.tasks| ==> c.tasks[i] in c.tasks;
  }

  lemma CloseKeepsCore(c: Config, s: Core, i: nat)
    requires CoreOk(c, s) && i < |c.tasks| && Drained(c, s, i)
    ensures CoreOk(c, Close(c, s, i))
    ensures c.tasks[i].name !in s.done
  {
    WellFormedFacts(c);
    assert TaskOk(c, s, i);
    var t := Close(c, s, i);
    forall j | 0 <= j < |c.tasks| ensures TaskOk(c, t, j) {
      assert TaskOk(c, s, j);
    }
  }

  lemma IssueKeepsCore(c: Config, s: Core, i: nat)
    requires CoreOk(c, s) && i < |c.tasks| && Issuable(c, s, i) && BatchesDivide(c)
    ensures CoreOk(c, IssueAt(c, s, i))
  {
    WellFormedFacts(c);
    var t := IssueAt(c, s, i);
    forall j | 0 <= j < |c.tasks| ensures TaskOk(c, t, j) {
      assert TaskOk(c, s, j);
    }
  }

  lemma FinishKeepsCore(c: Config, s: Core, i: nat, rows: nat)
    requires CoreOk(c, s) && i < |c.tasks| && s.states[i].outstanding > 0
    ensures CoreOk(c, Finish(c, s, i, rows))
  {
    WellFormedFacts(c);
    var t := Finish(c, s, i, rows);
    assert TaskOk(c, s, i);
    forall j | 0 <= j < |c.tasks| ensures TaskOk(c, t, j) {
      assert TaskOk(c, s, j);
    }
  }

  // ---------------------------------------------------------------- sums over the workers

  /** What one worker contributes: jobs issued and not committed, or committed and not counted. */
  datatype Gauge = InFlight(weight: Weight) | Uncounted | UncountedRows

  function Contribution(x: Worker, i: nat, g: Gauge): nat {
    match g
    case InFlight(weight) =>
      if (x.Running? || x.Lost?) && x.task == i then Weigh(weight, x.job) else 0
    case Uncounted => if (x.Stored? || x.LostStored?) && x.task == i then 1 else 0
    case UncountedRows => if (x.Stored? || x.LostStored?) && x.task == i then x.rows else 0
  }

  function Sum(workers: seq<Worker>, i: nat, g: Gauge): nat {
    if workers == [] then 0
    else Sum(workers[..|workers| - 1], i, g) + Contribution(workers[|workers| - 1], i, g)
  }

  lemma {:induction false} SumUpdate(workers: seq<Worker>, w: nat, x: Worker, i: nat, g: Gauge)
    requires w < |workers|
    ensures Sum(workers[w := x], i, g) == Sum(workers, i, g) - Contribution(workers[w], i, g) + Contribution(x, i, g)
  {
    var front := workers[..|workers| - 1];
    if w == |workers| - 1 {
      assert workers[w := x][..|workers| - 1] == front;
    } else {
      assert workers[w := x][..|workers| - 1] == front[w := x];
      SumUpdate(front, w, x, i, g);
    }
  }

  lemma {:induction false} SumNotified(workers: seq<Worker>, i: nat, g: Gauge)
    ensures Sum(Notified(workers), i, g) == Sum(workers, i, g)
  {
    if workers != [] {
      SumNotified(workers[..|workers| - 1], i, g);
      assert Notified(workers)[..|workers| - 1] == Notified(workers[..|workers| - 1]);
    }
  }

  lemma {:induction false} SumZero(workers: seq<Worker>, i: nat, g: Gauge)
    requires forall w :: 0 <= w < |workers| ==> Contribution(workers[w], i, g) == 0
    ensures Sum(workers, i, g) == 0
  {
    if workers != [] {
      SumZero(workers[..|workers| - 1], i, g);
    }
  }

  // ---------------------------------------------------------------- the books

  /** Issued work is committed or in flight, and the counters report exactly the counted commits. */
  ghost predicate Balanced(c: Config, s: System, i: nat)
    requires |s.core.states| == |c.tasks| && i < |c.tasks|
  {
    var st := s.core.states[i];
    && (forall v: Weight :: IssuedTally(s.log, i, v) == CommittedTally(s.log, i, v) + Sum(s.workers, i, InFlight(v)))
    && st.outstanding == Sum(s.workers, i, InFlight(Unit)) + Sum(s.workers, i, Uncounted)
    && CommittedTally(s.log, i, Unit) == st.batches + Sum(s.workers, i, Uncounted)
    && CommittedRows(s.log, i) == st.rows + Sum(s.workers, i, UncountedRows)
  }

  /** The issued batches cut 1..nextKey-1 into consecutive strides. */
  ghost predicate Cut(c: Config, s: System, i: nat)
    requires |s.core.states| == |c.tasks| && i < |c.tasks| && BatchesDivide(c)
  {
    var st := s.core.states[i];
    var batches := IssuedTally(s.log, i, Unit);
    match c.tasks[i].count
    case None => batches == if st.submitted then 1 else 0
    case Some(count) =>
      && (forall k :: IssuedTally(s.log, i, Key(k)) == Weigh(Key(k), Range(1, st.nextKey - 1)))
      && (|| (st.nextKey == batches * Stride(c, i) + 1 && st.nextKey <= count + 1)
          || (st.nextKey == count + 1 && (batches - 1) * Stride(c, i) < count < batches * Stride(c, i)))
  }

  /** A job as take computes it: a legal range within the row bound, or a single statement. */
  ghost predicate JobOk(c: Config, i: nat, job: Job)
  {
    && i < |c.tasks|
    && match c.tasks[i].count
       case None => job == Single
       case Some(count) =>
         && job.Range? && 1 <= job.first <= job.last <= count <= MAX_BIGINT
         && var rows := (job.last - job.first + 1) * c.tasks[i].maxRowsPerKey;
           rows <= c.batchRows || rows <= c.tasks[i].maxRowsPerKey
  }

  ghost predicate EventOk(c: Config, log: seq<Event>, k: nat)
    requires k < |log|
  {
    match log[k]
    case Issued(i, job) => JobOk(c, i, job) && DepsCommitted(c, log[..k], i)
    case Committed(i, job, _) => Issued(i, job) in log[..k]
  }

  ghost predicate WorkerOk(c: Config, log: seq<Event>, x: Worker) {
    match x
    case Running(i, job) => i < |c.tasks| && Issued(i, job) in log
    case Lost(i, job) => i < |c.tasks| && Issued(i, job) in log
    case Stored(i, job, _) => i < |c.tasks|
    case LostStored(i, job, _) => i < |c.tasks|
    case _ => true
  }

  /** Nothing to take: a worker that waits without having been notified saw exactly this. */
  predicate Quiet(c: Config, s: Core) {
    && Shaped(c, s)
    && |s.done| < |c.tasks|
    && forall i :: 0 <= i < |c.tasks| ==> !Issuable(c, s, i) && !Drained(c, s, i)
  }

  ghost predicate WorkersOk(c: Config, s: System) {
    && |s.workers| == c.workers
    && (forall w :: 0 <= w < |s.workers| ==> WorkerOk(c, s.log, s.workers[w]))
    && (Waiting in s.workers ==> Quiet(c, s.core))
    && (Exited in s.workers ==> |s.core.done| >= |c.tasks|)
  }

  ghost predicate BooksOk(c: Config, s: System)
    requires CoreOk(c, s.core) && BatchesDivide(c)
  {
    forall i :: 0 <= i < |c.tasks| ==> Balanced(c, s, i) && Cut(c, s, i)
  }

  ghost predicate LogOk(c: Config, log: seq<Event>) {
    forall k :: 0 <= k < |log| ==> EventOk(c, log, k)
  }

  ghost predicate Inv(c: Config, s: System) {
    && ValidConfig(c) && CoreOk(c, s.core) && BatchesDivide(c)
    && BooksOk(c, s)
    && LogOk(c, s.log)
    && WorkersOk(c, s)
  }

  lemma InitialInv(c: Config)
    requires ValidConfig(c)
    ensures Inv(c, Initial(c))
  {
    WellFormedFacts(c);
    var s := Initial(c);
    forall i | 0 <= i < |c.tasks| ensures Balanced(c, s, i) && Cut(c, s, i) {
      forall g: Gauge ensures Sum(s.workers, i, g) == 0 {
        SumZero(s.workers, i, g);
      }
    }
  }

  // ---------------------------------------------------------------- the log grows at its end

  lemma LogAppend(c: Config, log: seq<Event>, e: Event)
    requires LogOk(c, log)
    requires match e
      case Issued(i, job) => JobOk(c, i, job) && DepsCommitted(c, log, i)
      case Committed(i, job, _) => Issued(i, job) in log
    ensures LogOk(c, log + [e])
  {
    var longer := log + [e];
    forall k | 0 <= k < |longer| ensures EventOk(c, longer, k) {
      if k < |log| {
        assert EventOk(c, log, k);
        assert longer[..k] == log[..k];
      } else {
        assert longer[..k] == log;
      }
    }
  }

  lemma TallyAppend(log: seq<Event>, e: Event, i: nat, v: Weight)
    ensures IssuedTally(log + [e], i, v)
      == IssuedTally(log, i, v) + if e.Issued? && e.task == i then Weigh(v, e.job) else 0
    ensures CommittedTally(log + [e], i, v)
      == CommittedTally(log, i, v) + if e.Committed? && e.task == i then Weigh(v, e.job) else 0
    ensures CommittedRows(log + [e], i) == CommittedRows(log, i) + if e.Committed? && e.task == i then e.rows else 0
  {
    assert (log + [e])[..|log|] == log;
  }

  // ---------------------------------------------------------------- done means committed

  /** The books of a completed task: nothing is in flight, so all of it is committed. */
  lemma CompletedIsCommitted(c: Config, s: System, i: nat)
    requires CoreOk(c, s.core) && BatchesDivide(c) && BooksOk(c, s) && i < |c.tasks| && s.core.states[i].completed
    ensures FullyCommitted(c, s.log, i)
    ensures s.core.states[i].batches == IssuedTally(s.log, i, Unit)
    ensures s.core.states[i].rows == CommittedRows(s.log, i)
  {
    assert TaskOk(c, s.core, i) && Balanced(c, s, i) && Cut(c, s, i);
    NothingHeld(s.workers, i);
  }

  lemma {:induction false} NothingHeld(workers: seq<Worker>, i: nat)
    requires Sum(workers, i, InFlight(Unit)) == 0 && Sum(workers, i, Uncounted) == 0
    ensures forall v: Weight :: Sum(workers, i, InFlight(v)) == 0
    ensures Sum(workers, i, UncountedRows) == 0
  {
    if workers != [] {
      NothingHeld(workers[..|workers| - 1], i);
    }
  }

  /** The done set is closed under dependencies, so it contains everything below a started task. */
  lemma {:induction false} PathDone(c: Config, s: Core, path: seq<nat>)
    requires CoreOk(c, s) && DependencyPath(c, path) && |path| >= 2
    requires DepsDone(c, s.done, path[0])
    ensures c.tasks[path[|path| - 1]].name in s.done
  {
    assert c.tasks[path[1]].name in s.done;
    assert TaskOk(c, s, path[1]);
    if |path| > 2 {
      PathDone(c, s, path[1..]);
    }
  }

  lemma DoneDepsCommitted(c: Config, s: System, i: nat)
    requires CoreOk(c, s.core) && BatchesDivide(c) && BooksOk(c, s) && i < |c.tasks| && DepsDone(c, s.core.done, i)
    ensures DepsCommitted(c, s.log, i)
  {
    forall path | DependencyPath(c, path) && |path| >= 2 && path[0] == i
      ensures FullyCommitted(c, s.log, path[|path| - 1])
    {
      PathDone(c, s.core, path);
      assert TaskOk(c, s.core, path[|path| - 1]);
      CompletedIsCommitted(c, s, path[|path| - 1]);
    }
  }
}
