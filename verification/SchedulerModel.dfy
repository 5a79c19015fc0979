/**
 * The dependency-aware batch scheduler (initialization.py, run_tasks) as a machine whose atomic
 * steps are the critical sections of its condition variable and the commits of its workers.
 */
module SchedulerModel {
  import opened Wrappers
  import opened Collections
  import opened LoadPlans

  datatype Config = Config(tasks: seq<LoadTask>, batchRows: int, workers: int)

  /** What run_tasks demands: a validated phase with at least one task, and positive options. */
  ghost predicate ValidConfig(c: Config) {
    c.tasks != [] && Accepted(c.tasks) && c.batchRows >= 1 && c.workers >= 1
  }

  datatype TaskState = TaskState(
    nextKey: int,
    outstanding: int,
    submitted: bool,
    completed: bool,
    rows: nat,
    batches: nat)

  /** The shared variables of run_tasks. */
  datatype Core = Core(states: seq<TaskState>, done: set<string>, cursor: nat)

  datatype Job = Single | Range(first: int, last: int)

  datatype Pick = Issue(task: nat, job: Job) | Wait | Finished

  // ---------------------------------------------------------------- take and finish

  predicate Shaped(c: Config, s: Core) {
    |s.states| == |c.tasks| && s.cursor < |c.tasks|
  }

  predicate BatchesDivide(c: Config) {
    forall t :: t in c.tasks ==> t.maxRowsPerKey >= 1
  }

  predicate DepsDone(c: Config, done: set<string>, i: nat)
    requires i < |c.tasks|
  {
    Deps(c.tasks[i]) <= done
  }

  /** Keys per batch: the row target divided by the rows one key may produce, at least one. */
  function Stride(c: Config, i: nat): (step: int)
    requires i < |c.tasks| && BatchesDivide(c)
    ensures step >= 1
  {
    var keys := c.batchRows / c.tasks[i].maxRowsPerKey;
    if keys < 1 then 1 else keys
  }

  predicate Issuable(c: Config, s: Core, i: nat)
    requires Shaped(c, s) && i < |c.tasks|
  {
    && !s.states[i].completed
    && DepsDone(c, s.done, i)
    && match c.tasks[i].count
       case None => !s.states[i].submitted
       case Some(count) => s.states[i].nextKey <= count
  }

  /** A counted task with no keys left and no batch in flight, not yet marked complete. */
  predicate Drained(c: Config, s: Core, i: nat)
    requires Shaped(c, s) && i < |c.tasks|
  {
    && !s.states[i].completed
    && DepsDone(c, s.done, i)
    && match c.tasks[i].count
       case None => false
       case Some(count) => s.states[i].nextKey > count && s.states[i].outstanding == 0
  }

  function Close(c: Config, s: Core, i: nat): Core
    requires Shaped(c, s) && i < |c.tasks|
  {
    s.(states := s.states[i := s.states[i].(completed := true)], done := s.done + {c.tasks[i].name})
  }

  function NextJob(c: Config, s: Core, i: nat): Job
    requires Shaped(c, s) && i < |c.tasks| && BatchesDivide(c)
  {
    match c.tasks[i].count
    case None => Single
    case Some(count) =>
      var first := s.states[i].nextKey;
      var end := first + Stride(c, i) - 1;
      Range(first, if count < end then count else end)
  }

  function IssueAt(c: Config, s: Core, i: nat): Core
    requires Shaped(c, s) && i < |c.tasks| && BatchesDivide(c)
  {
    var st := s.states[i];
    var issued := match NextJob(c, s, i)
      case Single => st.(submitted := true)
      case Range(_, last) => st.(nextKey := last + 1);
    s.(states := s.states[i := issued.(outstanding := st.outstanding + 1)],
       cursor := if i + 1 == |c.tasks| then 0 else i + 1)
  }

  /** The task visited at the given offset of one round-robin pass. */
  function Visited(c: Config, s: Core, offset: nat): (i: nat)
    requires Shaped(c, s) && offset < |c.tasks|
    ensures i < |c.tasks|
  {
    (s.cursor + offset) % |c.tasks|
  }

  /** One pass from an offset: closes drained tasks on its way to the first issuable one. */
  function Scan(c: Config, s: Core, offset: nat): (r: (Core, Option<nat>))
    requires Shaped(c, s) && offset <= |c.tasks|
    ensures Shaped(c, r.0) && r.0.cursor == s.cursor && s.done <= r.0.done
    ensures r.1.Some? ==> r.1.value < |c.tasks| && Issuable(c, r.0, r.1.value)
    decreases |c.tasks| - offset
  {
    if offset == |c.tasks| then (s, None)
    else
      var i := Visited(c, s, offset);
      if Issuable(c, s, i) then (s, Some(i))
      else if Drained(c, s, i) then Scan(c, Close(c, s, i), offset + 1)
      else Scan(c, s, offset + 1)
  }

  /** Passes repeat while one of them completes something without finding a job. */
  function Take(c: Config, s: Core): (r: (Core, Pick))
    requires Shaped(c, s) && BatchesDivide(c)
    ensures Shaped(c, r.0) && s.done <= r.0.done
    ensures r.1.Issue? ==> r.1.task < |c.tasks|
    decreases |c.tasks| - |s.done|
  {
    if |s.done| >= |c.tasks| then (s, Finished)
    else
      var (scanned, found) := Scan(c, s, 0);
      match found
      case Some(i) => (IssueAt(c, scanned, i), Issue(i, NextJob(c, scanned, i)))
      case None =>
        SubsetSize(s.done, scanned.done);
        if |scanned.done| < |c.tasks| && |scanned.done| == |s.done| then (scanned, Wait)
        else Take(c, scanned)
  }

  predicate Exhausted(c: Config, s: Core, i: nat)
    requires Shaped(c, s) && i < |c.tasks|
  {
    match c.tasks[i].count
    case None => true
    case Some(count) => s.states[i].nextKey > count
  }

  /** The bookkeeping a worker does after its transaction committed. */
  function Finish(c: Config, s: Core, i: nat, rows: nat): (r: Core)
    requires Shaped(c, s) && i < |c.tasks|
    ensures Shaped(c, r)
  {
    var st := s.states[i];
    var counted := st.(outstanding := st.outstanding - 1, batches := st.batches + 1, rows := st.rows + rows);
    if counted.outstanding == 0 && Exhausted(c, s, i) then
      s.(states := s.states[i := counted.(completed := true)], done := s.done + {c.tasks[i].name})
    else
      s.(states := s.states[i := counted])
  }

  // ---------------------------------------------------------------- the whole system

  /**
   * Running holds an issued job whose transaction is open; Stored has committed it but not yet
   * taken the condition to count it. A worker that failed or was cancelled stays Lost with its
   * job, or Gone without one.
   */
  datatype Worker =
    | Ready
    | Waiting
    | Running(task: nat, job: Job)
    | Stored(task: nat, job: Job, rows: nat)
    | Exited
    | Lost(task: nat, job: Job)
    | LostStored(task: nat, job: Job, rows: nat)
    | Gone

  datatype Event =
    | Issued(task: nat, job: Job)
    | Committed(task: nat, job: Job, rows: nat)

  datatype System = System(core: Core, workers: seq<Worker>, log: seq<Event>)

  /** rows is the count PostgreSQL reports with the commit. */
  datatype Label =
    | TakeBy(worker: nat)
    | CommitBy(worker: nat, rows: nat)
    | FinishBy(worker: nat)
    | FailBy(worker: nat)

  function Initial(c: Config): (s: System)
    requires c.workers >= 0
    ensures c.tasks != [] ==> Shaped(c, s.core)
  {
    System(
      Core(seq(|c.tasks|, _ => TaskState(1, 0, false, false, 0, 0)), {}, 0),
      seq(c.workers, _ => Ready),
      [])
  }

  function Notified(workers: seq<Worker>): (woken: seq<Worker>)
    ensures |woken| == |workers|
    ensures forall w :: 0 <= w < |workers| ==> woken[w] == if workers[w].Waiting? then Ready else workers[w]
  {
    seq(|workers|, w requires 0 <= w < |workers| => if workers[w].Waiting? then Ready else workers[w])
  }

  predicate Enabled(c: Config, s: System, l: Label) {
    && l.worker < |s.workers|
    && Shaped(c, s.core) && BatchesDivide(c)
    && var worker := s.workers[l.worker];
      match l
      case TakeBy(_) => worker.Ready?
      case CommitBy(_, _) => worker.Running?
      case FinishBy(_) => worker.Stored? && worker.task < |c.tasks|
      case FailBy(_) => !worker.Exited? && !worker.Lost? && !worker.LostStored? && !worker.Gone?
  }

  function Failed(worker: Worker): Worker {
    match worker
    case Running(i, job) => Lost(i, job)
    case Stored(i, job, rows) => LostStored(i, job, rows)
    case _ => Gone
  }

  function Do(c: Config, s: System, l: Label): (t: System)
    requires Enabled(c, s, l)
    ensures |t.workers| == |s.workers| && Shaped(c, t.core)
  {
    var w := l.worker;
    match l
    case TakeBy(_) => DoTake(c, s, w)
    case CommitBy(_, rows) =>
      var Running(i, job) := s.workers[w];
      System(s.core, s.workers[w := Stored(i, job, rows)], s.log + [Committed(i, job, rows)])
    case FinishBy(_) =>
      var Stored(i, _, rows) := s.workers[w];
      s.(core := Finish(c, s.core, i, rows), workers := Notified(s.workers)[w := Ready])
    case FailBy(_) =>
      s.(workers := s.workers[w := Failed(s.workers[w])])
  }

  function DoTake(c: Config, s: System, w: nat): (t: System)
    requires w < |s.workers| && Shaped(c, s.core) && BatchesDivide(c)
    ensures |t.workers| == |s.workers| && Shaped(c, t.core)
  {
    var (core, pick) := Take(c, s.core);
    var woken := if core.done != s.core.done then Notified(s.workers) else s.workers;
    match pick
    case Issue(i, job) => System(core, woken[w := Running(i, job)], s.log + [Issued(i, job)])
    case Wait => s.(core := core, workers := woken[w := Waiting])
    case Finished => s.(core := core, workers := woken[w := Exited])
  }

  /** A list of steps, each enabled where it happens. */
  predicate Possible(c: Config, s: System, steps: seq<Label>)
    decreases |steps|
  {
    steps != [] ==> Enabled(c, s, steps[0]) && Possible(c, Do(c, s, steps[0]), steps[1..])
  }

  function After(c: Config, s: System, steps: seq<Label>): (t: System)
    requires Possible(c, s, steps)
    ensures Shaped(c, s.core) ==> Shaped(c, t.core)
    decreases |steps|
  {
    if steps == [] then s else After(c, Do(c, s, steps[0]), steps[1..])
  }

  // ---------------------------------------------------------------- counting jobs

  /** A way to weigh a job: 1 for each job, or 1 for each job that covers the key. */
  datatype Weight = Unit | Key(key: int)

  function Weigh(weight: Weight, job: Job): nat {
    match weight
    case Unit => 1
    case Key(k) => if job.Range? && job.first <= k <= job.last then 1 else 0
  }

  /** The weight of the jobs of one task that the log says were issued, or committed. */
  function IssuedTally(log: seq<Event>, i: nat, weight: Weight): nat {
    if log == [] then 0
    else
      var e := log[|log| - 1];
      IssuedTally(log[..|log| - 1], i, weight) + if e.Issued? && e.task == i then Weigh(weight, e.job) else 0
  }

  function CommittedTally(log: seq<Event>, i: nat, weight: Weight): nat {
    if log == [] then 0
    else
      var e := log[|log| - 1];
      CommittedTally(log[..|log| - 1], i, weight) + if e.Committed? && e.task == i then Weigh(weight, e.job) else 0
  }

  function CommittedRows(log: seq<Event>, i: nat): nat {
    if log == [] then 0
    else
      var e := log[|log| - 1];
      CommittedRows(log[..|log| - 1], i) + if e.Committed? && e.task == i then e.rows else 0
  }

  /** Every key of a counted task was committed by exactly one batch; a single statement once. */
  ghost predicate FullyCommitted(c: Config, log: seq<Event>, i: nat)
    requires i < |c.tasks|
  {
    match c.tasks[i].count
    case None => CommittedTally(log, i, Unit) == 1
    case Some(count) =>
      forall k :: CommittedTally(log, i, Key(k)) == Weigh(Key(k), Range(1, count))
  }

  /** A path in the dependency graph; each task of it names the next among its dependencies. */
  ghost predicate DependencyPath(c: Config, path: seq<nat>) {
    && (forall k :: 0 <= k < |path| ==> path[k] < |c.tasks|)
    && forall k :: 0 <= k < |path| - 1 ==> c.tasks[path[k + 1]].name in Deps(c.tasks[path[k]])
  }

  /** All direct and transitive dependencies of a task are fully committed in the log. */
  ghost predicate DepsCommitted(c: Config, log: seq<Event>, i: nat) {
    forall path :: DependencyPath(c, path) && |path| >= 2 && path[0] == i ==>
      FullyCommitted(c, log, path[|path| - 1])
  }

  // ---------------------------------------------------------------- round-robin distance

  /** Positions between the cursor and a task, going round. */
  function Distance(c: Config, s: Core, i: nat): (d: nat)
    requires Shaped(c, s) && i < |c.tasks|
    ensures d < |c.tasks|
  {
    if s.cursor <= i then i - s.cursor else i + |c.tasks| - s.cursor
  }
}
