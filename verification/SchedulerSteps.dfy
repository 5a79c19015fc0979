/** Each step of the scheduler keeps the invariant; so does every list of steps. */
module SchedulerSteps {
  import opened Wrappers
  import opened Collections
  import opened LoadPlans
  import opened SchedulerModel
  import opened SchedulerInvariant

  // ---------------------------------------------------------------- what take returns

  lemma Wrap(x: int, n: int)
    requires 0 < n <= x < 2 * n
    ensures x % n == x - n
  {
    assert x == n * 1 + (x - n);
  }

  lemma VisitedDistance(c: Config, s: Core, i: nat)
    requires Shaped(c, s) && i < |c.tasks|
    ensures Visited(c, s, Distance(c, s, i)) == i
  {
    var n := |c.tasks|;
    if s.cursor > i {
      Wrap(i + n, n);
    } else {
      assert s.cursor + Distance(c, s, i) == i;
    }
  }

  lemma DistanceVisited(c: Config, s: Core, offset: nat)
    requires Shaped(c, s) && offset < |c.tasks|
    ensures Distance(c, s, Visited(c, s, offset)) == offset
  {
    var n := |c.tasks|;
    if s.cursor + offset >= n {
      Wrap(s.cursor + offset, n);
    }
  }

  /** Closing a drained task changes nothing the books or the log speak of. */
  lemma CloseKeepsInv(c: Config, s: System, i: nat)
    requires Inv(c, s) && i < |c.tasks| && Drained(c, s.core, i)
    ensures Inv(c, s.(core := Close(c, s.core, i)))
    ensures c.tasks[i].name !in s.core.done
  {
    CloseKeepsCore(c, s.core, i);
    var t := s.(core := Close(c, s.core, i));
    forall j | 0 <= j < |c.tasks| ensures Balanced(c, t, j) && Cut(c, t, j) {
      assert Balanced(c, s, j) && Cut(c, s, j);
    }
    SubsetSize(s.core.done, t.core.done);
  }

  /** One core reached from another by closing drained tasks, one after the other. */
  ghost predicate ClosedBy(c: Config, s: Core, t: Core, order: seq<nat>)
    decreases |order|
  {
    if order == [] then s == t
    else
      && Shaped(c, s) && order[0] < |c.tasks| && Drained(c, s, order[0])
      && ClosedBy(c, Close(c, s, order[0]), t, order[1..])
  }

  lemma {:induction false} ScanCloses(c: Config, s: Core, offset: nat) returns (order: seq<nat>)
    requires Shaped(c, s) && offset <= |c.tasks|
    ensures ClosedBy(c, s, Scan(c, s, offset).0, order)
    decreases |c.tasks| - offset
  {
    order := [];
    if offset < |c.tasks| {
      var i := Visited(c, s, offset);
      if Issuable(c, s, i) {
      } else if Drained(c, s, i) {
        var rest := ScanCloses(c, Close(c, s, i), offset + 1);
        order := [i] + rest;
        assert order[1..] == rest;
      } else {
        order := ScanCloses(c, s, offset + 1);
      }
    }
  }

  lemma {:induction false} ClosingKeepsInv(c: Config, s: System, t: Core, order: seq<nat>)
    requires Inv(c, s) && ClosedBy(c, s.core, t, order)
    ensures Inv(c, s.(core := t))
    decreases |order|
  {
    if order != [] {
      CloseKeepsInv(c, s, order[0]);
      ClosingKeepsInv(c, s.(core := Close(c, s.core, order[0])), t, order[1..]);
    }
  }

  /** A pass that neither finds a job nor completes anything has seen nothing to do. */
  lemma {:induction false} ScanIdle(c: Config, s: Core, offset: nat)
    requires CoreOk(c, s) && offset <= |c.tasks|
    requires Scan(c, s, offset).1.None? && Scan(c, s, offset).0.done == s.done
    ensures Scan(c, s, offset).0 == s
    ensures forall k :: offset <= k < |c.tasks| ==>
      !Issuable(c, s, Visited(c, s, k)) && !Drained(c, s, Visited(c, s, k))
    decreases |c.tasks| - offset
  {
    if offset < |c.tasks| {
      var i := Visited(c, s, offset);
      if Drained(c, s, i) {
        CloseKeepsCore(c, s, i);
      } else {
        ScanIdle(c, s, offset + 1);
      }
    }
  }

  lemma {:induction false} ScanQuiet(c: Config, s: Core, offset: nat)
    requires Quiet(c, s) && offset <= |c.tasks|
    ensures Scan(c, s, offset) == (s, None)
    decreases |c.tasks| - offset
  {
    if offset < |c.tasks| {
      var i := Visited(c, s, offset);
      ScanQuiet(c, s, offset + 1);
    }
  }

  lemma IdleIsQuiet(c: Config, s: Core)
    requires CoreOk(c, s) && |s.done| < |c.tasks|
    requires Scan(c, s, 0).1.None? && Scan(c, s, 0).0.done == s.done
    ensures Quiet(c, s) && Scan(c, s, 0).0 == s
  {
    ScanIdle(c, s, 0);
    forall i | 0 <= i < |c.tasks| ensures !Issuable(c, s, i) && !Drained(c, s, i) {
      VisitedDistance(c, s, i);
    }
  }

  lemma {:induction false} ClosedByTwice(c: Config, s: Core, m: Core, t: Core, one: seq<nat>, two: seq<nat>)
    requires ClosedBy(c, s, m, one) && ClosedBy(c, m, t, two)
    ensures ClosedBy(c, s, t, one + two)
    decreases |one|
  {
    if one == [] {
      assert one + two == two;
    } else {
      ClosedByTwice(c, Close(c, s, one[0]), m, t, one[1..], two);
      assert (one + two)[1..] == one[1..] + two;
    }
  }

  /**
   * take closes some drained tasks, reaching mid, and there issues an issuable task, or waits
   * because mid is quiet, or finishes because everything is done.
   */
  lemma {:induction false} TakeOutcome(c: Config, s: System) returns (mid: Core, order: seq<nat>)
    requires Inv(c, s)
    ensures Inv(c, s.(core := mid)) && ClosedBy(c, s.core, mid, order)
    ensures var (core, pick) := Take(c, s.core);
      match pick
      case Issue(i, job) =>
        Issuable(c, mid, i) && core == IssueAt(c, mid, i) && job == NextJob(c, mid, i)
      case Wait => core == mid && Quiet(c, mid)
      case Finished => core == mid && |mid.done| >= |c.tasks|
    ensures Waiting in s.workers ==> Take(c, s.core) == (s.core, Wait)
    ensures Exited in s.workers ==> !Take(c, s.core).1.Issue?
    decreases |c.tasks| - |s.core.done|
  {
    if |s.core.done| >= |c.tasks| {
      mid, order := s.core, [];
    } else {
      var (scanned, found) := Scan(c, s.core, 0);
      mid := scanned;
      order := ScanCloses(c, s.core, 0);
      ClosingKeepsInv(c, s, scanned, order);
      SubsetSize(s.core.done, scanned.done);
      if Waiting in s.workers {
        ScanQuiet(c, s.core, 0);
      }
      if found.Some? {
      } else if |scanned.done| < |c.tasks| && |scanned.done| == |s.core.done| {
        IdleIsQuiet(c, s.core);
      } else {
        var more: seq<nat>;
        mid, more := TakeOutcome(c, s.(core := scanned));
        ClosedByTwice(c, s.core, scanned, mid, order, more);
        order := order + more;
      }
    }
  }

  // ---------------------------------------------------------------- steps keep the invariant

  lemma NotifiedKeepsInv(c: Config, s: System)
    requires Inv(c, s)
    ensures Inv(c, s.(workers := Notified(s.workers)))
    ensures Waiting !in Notified(s.workers)
  {
    var t := s.(workers := Notified(s.workers));
    forall i | 0 <= i < |c.tasks| ensures Balanced(c, t, i) && Cut(c, t, i) {
      assert Balanced(c, s, i) && Cut(c, s, i);
      forall g: Gauge ensures Sum(t.workers, i, g) == Sum(s.workers, i, g) {
        SumNotified(s.workers, i, g);
      }
    }
    assert Exited in t.workers ==> Exited in s.workers;
  }

  predicate Empty(x: Worker) {
    x.Ready? || x.Waiting? || x.Exited? || x.Gone?
  }

  /** A worker whose contribution stays the same may change state. */
  lemma SameSumsBooks(c: Config, s: System, t: System, w: nat, x: Worker, j: nat)
    requires CoreOk(c, s.core) && BatchesDivide(c) && j < |c.tasks| && Balanced(c, s, j) && Cut(c, s, j)
    requires w < |s.workers| && t == s.(workers := s.workers[w := x])
    requires forall g: Gauge :: Contribution(x, j, g) == Contribution(s.workers[w], j, g)
    ensures Balanced(c, t, j) && Cut(c, t, j)
  {
    forall g: Gauge ensures Sum(t.workers, j, g) == Sum(s.workers, j, g) {
      SumUpdate(s.workers, w, x, j, g);
    }
  }

  /** A worker without a job may change to another state without a job. */
  lemma IdleWorkerKeepsInv(c: Config, s: System, w: nat, x: Worker)
    requires Inv(c, s) && w < |s.workers| && Empty(s.workers[w]) && Empty(x)
    requires x.Waiting? ==> Quiet(c, s.core)
    requires x.Exited? ==> |s.core.done| >= |c.tasks|
    ensures Inv(c, s.(workers := s.workers[w := x]))
  {
    var t := s.(workers := s.workers[w := x]);
    forall j | 0 <= j < |c.tasks| ensures Balanced(c, t, j) && Cut(c, t, j) {
      SameSumsBooks(c, s, t, w, x, j);
    }
    assert forall v :: 0 <= v < |t.workers| && v != w ==> t.workers[v] == s.workers[v];
  }

  /** The stride arithmetic of one more batch. */
  lemma NextBatchCut(c: Config, s: Core, i: nat, batches: nat)
    requires Shaped(c, s) && BatchesDivide(c) && i < |c.tasks| && Issuable(c, s, i)
    requires c.tasks[i].count.Some?
    requires var count := c.tasks[i].count.value;
      1 <= s.states[i].nextKey <= count && s.states[i].nextKey == batches * Stride(c, i) + 1
    ensures var count := c.tasks[i].count.value;
      var next := NextJob(c, s, i).last + 1;
      || (next == (batches + 1) * Stride(c, i) + 1 && next <= count + 1)
      || (next == count + 1 && batches * Stride(c, i) < count < (batches + 1) * Stride(c, i))
  {
    assert (batches + 1) * Stride(c, i) == batches * Stride(c, i) + Stride(c, i);
  }

  lemma NextJobOk(c: Config, s: Core, i: nat)
    requires CoreOk(c, s) && BatchesDivide(c) && i < |c.tasks| && Issuable(c, s, i) && c.batchRows >= 1
    ensures JobOk(c, i, NextJob(c, s, i))
  {
    WellFormedFacts(c);
    assert TaskOk(c, s, i);
    var t := c.tasks[i];
    if t.count.Some? {
      var job := NextJob(c, s, i);
      var keys := job.last - job.first + 1;
      assert t in c.tasks;
      assert keys <= Stride(c, i);
      if Stride(c, i) == 1 {
        assert keys == 1;
      } else {
        StrideRows(c.batchRows, t.maxRowsPerKey, keys);
      }
    }
  }

  lemma StrideRows(batchRows: int, rowsPerKey: int, keys: int)
    requires rowsPerKey >= 1 && batchRows >= 0 && 0 <= keys <= batchRows / rowsPerKey
    ensures keys * rowsPerKey <= batchRows
  {
    var q := batchRows / rowsPerKey;
    assert q * rowsPerKey <= batchRows;
    assert keys * rowsPerKey <= q * rowsPerKey;
  }

  /** The books of one task after a worker changed state and at most one event was logged. */
  lemma BooksMove(c: Config, s: System, t: System, w: nat, x: Worker, e: Event, j: nat)
    requires w < |s.workers| && t.workers == s.workers[w := x] && t.log == s.log + [e]
    ensures forall v: Weight ::
      && IssuedTally(t.log, j, v)
        == IssuedTally(s.log, j, v) + (if e.Issued? && e.task == j then Weigh(v, e.job) else 0)
      && CommittedTally(t.log, j, v)
        == CommittedTally(s.log, j, v) + (if e.Committed? && e.task == j then Weigh(v, e.job) else 0)
    ensures CommittedRows(t.log, j) == CommittedRows(s.log, j) + if e.Committed? && e.task == j then e.rows else 0
    ensures forall g: Gauge ::
      Sum(t.workers, j, g) == Sum(s.workers, j, g) - Contribution(s.workers[w], j, g) + Contribution(x, j, g)
  {
    TallyAppend(s.log, e, j, Unit);
    forall v: Weight
      ensures IssuedTally(t.log, j, v)
        == IssuedTally(s.log, j, v) + if e.Issued? && e.task == j then Weigh(v, e.job) else 0
      ensures CommittedTally(t.log, j, v)
        == CommittedTally(s.log, j, v) + if e.Committed? && e.task == j then Weigh(v, e.job) else 0
    {
      TallyAppend(s.log, e, j, v);
    }
    forall g: Gauge
      ensures Sum(t.workers, j, g) == Sum(s.workers, j, g) - Contribution(s.workers[w], j, g) + Contribution(x, j, g)
    {
      SumUpdate(s.workers, w, x, j, g);
    }
  }

  function Issuing(c: Config, s: System, w: nat, i: nat): System
    requires Shaped(c, s.core) && BatchesDivide(c) && w < |s.workers| && i < |c.tasks|
  {
    var job := NextJob(c, s.core, i);
    System(IssueAt(c, s.core, i), s.workers[w := Running(i, job)], s.log + [Issued(i, job)])
  }

  lemma IssueBalances(c: Config, s: System, t: System, w: nat, i: nat, j: nat)
    requires Shaped(c, s.core) && BatchesDivide(c) && w < |s.workers| && s.workers[w].Ready?
    requires i < |c.tasks| && j < |c.tasks| && Balanced(c, s, j) && t == Issuing(c, s, w, i)
    ensures Balanced(c, t, j)
  {
    var job := NextJob(c, s.core, i);
    BooksMove(c, s, t, w, Running(i, job), Issued(i, job), j);
  }

  lemma IssueCutsBooks(c: Config, s: System, t: System, w: nat, i: nat, j: nat)
    requires CoreOk(c, s.core) && BatchesDivide(c) && w < |s.workers|
    requires i < |c.tasks| && Issuable(c, s.core, i) && j < |c.tasks| && Cut(c, s, j)
    requires t == Issuing(c, s, w, i)
    ensures Cut(c, t, j)
  {
    var job := NextJob(c, s.core, i);
    BooksMove(c, s, t, w, Running(i, job), Issued(i, job), j);
    if j == i {
      IssueCuts(c, s, t, i);
    }
  }

  lemma IssueBooks(c: Config, s: System, t: System, w: nat, i: nat, j: nat)
    requires CoreOk(c, s.core) && BatchesDivide(c) && w < |s.workers| && s.workers[w].Ready?
    requires i < |c.tasks| && Issuable(c, s.core, i) && j < |c.tasks|
    requires Balanced(c, s, j) && Cut(c, s, j)
    requires t == Issuing(c, s, w, i)
    ensures Balanced(c, t, j) && Cut(c, t, j)
  {
    IssueBalances(c, s, t, w, i, j);
    IssueCutsBooks(c, s, t, w, i, j);
  }

  /** Issuing the next batch of a task to an idle worker, with no other worker waiting. */
  lemma IssueKeepsInv(c: Config, s: System, w: nat, i: nat)
    requires Inv(c, s) && w < |s.workers| && s.workers[w].Ready? && i < |c.tasks| && Issuable(c, s.core, i)
    requires Waiting !in s.workers && Exited !in s.workers
    ensures Inv(c, Issuing(c, s, w, i))
  {
    var job := NextJob(c, s.core, i);
    var t := Issuing(c, s, w, i);
    IssueKeepsCore(c, s.core, i);
    NextJobOk(c, s.core, i);
    DoneDepsCommitted(c, s, i);
    LogAppend(c, s.log, Issued(i, job));
    forall j | 0 <= j < |c.tasks| ensures Balanced(c, t, j) && Cut(c, t, j) {
      IssueBooks(c, s, t, w, i, j);
    }
    IssueWorkersOk(c, s, t, w, i, job);
  }

  lemma IssueCuts(c: Config, s: System, t: System, i: nat)
    requires CoreOk(c, s.core) && BatchesDivide(c) && i < |c.tasks| && Issuable(c, s.core, i) && Cut(c, s, i)
    requires t.core == IssueAt(c, s.core, i)
    requires forall v: Weight :: IssuedTally(t.log, i, v) == IssuedTally(s.log, i, v) + Weigh(v, NextJob(c, s.core, i))
    ensures Cut(c, t, i)
  {
    assert TaskOk(c, s.core, i);
    if c.tasks[i].count.Some? {
      NextBatchCut(c, s.core, i, IssuedTally(s.log, i, Unit));
    }
  }

  lemma IssueWorkersOk(c: Config, s: System, t: System, w: nat, i: nat, job: Job)
    requires WorkersOk(c, s) && w < |s.workers| && i < |c.tasks|
    requires Waiting !in s.workers && Exited !in s.workers
    requires t.workers == s.workers[w := Running(i, job)] && t.log == s.log + [Issued(i, job)]
    ensures WorkersOk(c, t)
  {
    forall v | 0 <= v < |t.workers| ensures WorkerOk(c, t.log, t.workers[v]) {
      if v != w {
        assert WorkerOk(c, s.log, s.workers[v]);
      } else {
        assert t.log[|s.log|] == Issued(i, job);
      }
    }
  }

  lemma TakeKeepsInv(c: Config, s: System, w: nat)
    requires Inv(c, s) && w < |s.workers| && s.workers[w].Ready?
    ensures Inv(c, DoTake(c, s, w))
  {
    var (core, pick) := Take(c, s.core);
    var mid, order := TakeOutcome(c, s);
    var changed := core.done != s.core.done;
    var u := s.(core := mid);
    assert core.done == mid.done;
    if changed {
      NotifiedKeepsInv(c, u);
      u := u.(workers := Notified(u.workers));
    }
    match pick
    case Issue(i, job) => IssueKeepsInv(c, u, w, i);
    case Wait => IdleWorkerKeepsInv(c, u, w, Waiting);
    case Finished => IdleWorkerKeepsInv(c, u, w, Exited);
  }

  /** A worker has committed its batch and not yet counted it. */
  predicate Committing(s: System, t: System, w: nat, i: nat, job: Job, rows: nat) {
    && w < |s.workers| && s.workers[w] == Running(i, job)
    && t.core == s.core && t.workers == s.workers[w := Stored(i, job, rows)]
    && t.log == s.log + [Committed(i, job, rows)]
  }

  lemma CommitBalances(c: Config, s: System, t: System, w: nat, i: nat, job: Job, rows: nat, j: nat)
    requires |s.core.states| == |c.tasks| && j < |c.tasks| && Balanced(c, s, j)
    requires Committing(s, t, w, i, job, rows)
    ensures Balanced(c, t, j)
  {
    BooksMove(c, s, t, w, Stored(i, job, rows), Committed(i, job, rows), j);
  }

  lemma CommitBooks(c: Config, s: System, t: System, w: nat, i: nat, job: Job, rows: nat, j: nat)
    requires |s.core.states| == |c.tasks| && BatchesDivide(c) && j < |c.tasks| && Balanced(c, s, j) && Cut(c, s, j)
    requires Committing(s, t, w, i, job, rows)
    ensures Balanced(c, t, j) && Cut(c, t, j)
  {
    CommitBalances(c, s, t, w, i, job, rows, j);
    BooksMove(c, s, t, w, Stored(i, job, rows), Committed(i, job, rows), j);
  }

  lemma CommitKeepsInv(c: Config, s: System, w: nat, rows: nat)
    requires Inv(c, s) && Enabled(c, s, CommitBy(w, rows))
    ensures Inv(c, Do(c, s, CommitBy(w, rows)))
  {
    var Running(i, job) := s.workers[w];
    var t := Do(c, s, CommitBy(w, rows));
    assert WorkerOk(c, s.log, s.workers[w]);
    LogAppend(c, s.log, Committed(i, job, rows));
    forall j | 0 <= j < |c.tasks| ensures Balanced(c, t, j) && Cut(c, t, j) {
      CommitBooks(c, s, t, w, i, job, rows, j);
    }
    OneWorkerChanges(c, s, t, w, Stored(i, job, rows));
  }

  /** The other workers keep what they know when the log grows. */
  lemma OneWorkerChanges(c: Config, s: System, t: System, w: nat, x: Worker)
    requires WorkersOk(c, s) && w < |s.workers| && t.workers == s.workers[w := x]
    requires s.log <= t.log && WorkerOk(c, t.log, x) && !x.Waiting? && !x.Exited?
    requires Waiting in s.workers ==> Quiet(c, t.core)
    requires Exited in s.workers ==> |t.core.done| >= |c.tasks|
    ensures WorkersOk(c, t)
  {
    forall v | 0 <= v < |t.workers| ensures WorkerOk(c, t.log, t.workers[v]) {
      if v != w {
        assert WorkerOk(c, s.log, s.workers[v]);
        assert forall e :: e in s.log ==> e in t.log;
      }
    }
    OthersStay(s.workers, w, x);
  }

  lemma OthersStay(workers: seq<Worker>, w: nat, x: Worker)
    requires w < |workers| && !x.Waiting? && !x.Exited?
    ensures Waiting in workers[w := x] ==> Waiting in workers
    ensures Exited in workers[w := x] ==> Exited in workers
  {
    assert forall v :: 0 <= v < |workers| && v != w ==> workers[w := x][v] == workers[v];
  }

  lemma {:induction false} HeldIsCounted(workers: seq<Worker>, w: nat, i: nat, g: Gauge)
    requires w < |workers|
    ensures Contribution(workers[w], i, g) <= Sum(workers, i, g)
  {
    if w < |workers| - 1 {
      HeldIsCounted(workers[..|workers| - 1], w, i, g);
    }
  }

  lemma FinishBooks(c: Config, s: System, t: System, w: nat, j: nat)
    requires CoreOk(c, s.core) && BatchesDivide(c) && j < |c.tasks| && Balanced(c, s, j) && Cut(c, s, j)
    requires w < |s.workers| && s.workers[w].Stored? && s.workers[w].task < |c.tasks|
    requires t == System(Finish(c, s.core, s.workers[w].task, s.workers[w].rows), s.workers[w := Ready], s.log)
    ensures Balanced(c, t, j) && Cut(c, t, j)
  {
    forall g: Gauge ensures Sum(t.workers, j, g) == Sum(s.workers, j, g) - Contribution(s.workers[w], j, g) {
      SumUpdate(s.workers, w, Ready, j, g);
    }
  }

  lemma FinishKeepsInv(c: Config, s: System, w: nat)
    requires Inv(c, s) && Enabled(c, s, FinishBy(w))
    ensures Inv(c, Do(c, s, FinishBy(w)))
  {
    var Stored(i, job, rows) := s.workers[w];
    NotifiedKeepsInv(c, s);
    FinishNotified(c, s.(workers := Notified(s.workers)), w);
  }

  lemma FinishNotified(c: Config, s: System, w: nat)
    requires Inv(c, s) && Waiting !in s.workers
    requires w < |s.workers| && s.workers[w].Stored? && s.workers[w].task < |c.tasks|
    ensures Inv(c, System(Finish(c, s.core, s.workers[w].task, s.workers[w].rows), s.workers[w := Ready], s.log))
  {
    var Stored(i, job, rows) := s.workers[w];
    var t := System(Finish(c, s.core, i, rows), s.workers[w := Ready], s.log);
    assert Balanced(c, s, i);
    HeldIsCounted(s.workers, w, i, Uncounted);
    FinishKeepsCore(c, s.core, i, rows);
    SubsetSize(s.core.done, t.core.done);
    forall j | 0 <= j < |c.tasks| ensures Balanced(c, t, j) && Cut(c, t, j) {
      FinishBooks(c, s, t, w, j);
    }
    OneWorkerChanges(c, s, t, w, Ready);
  }

  lemma FailKeepsInv(c: Config, s: System, w: nat)
    requires Inv(c, s) && Enabled(c, s, FailBy(w))
    ensures Inv(c, Do(c, s, FailBy(w)))
  {
    var x := Failed(s.workers[w]);
    var t := Do(c, s, FailBy(w));
    forall j | 0 <= j < |c.tasks| ensures Balanced(c, t, j) && Cut(c, t, j) {
      SameSumsBooks(c, s, t, w, x, j);
    }
    assert WorkerOk(c, s.log, s.workers[w]);
    OneWorkerChanges(c, s, t, w, x);
  }

  lemma StepKeepsInv(c: Config, s: System, l: Label)
    requires Inv(c, s) && Enabled(c, s, l)
    ensures Inv(c, Do(c, s, l))
  {
    match l
    case TakeBy(w) => TakeKeepsInv(c, s, w);
    case CommitBy(w, rows) => CommitKeepsInv(c, s, w, rows);
    case FinishBy(w) => FinishKeepsInv(c, s, w);
    case FailBy(w) => FailKeepsInv(c, s, w);
  }

  lemma {:induction false} RunKeepsInv(c: Config, s: System, steps: seq<Label>)
    requires Inv(c, s) && Possible(c, s, steps)
    ensures Inv(c, After(c, s, steps))
    decreases |steps|
  {
    if steps != [] {
      StepKeepsInv(c, s, steps[0]);
      RunKeepsInv(c, Do(c, s, steps[0]), steps[1..]);
    }
  }
}
