/** The shared variables of run_tasks and the two critical sections that update them in place. */
module SchedulerBoard {
  import opened Wrappers
  import opened Collections
  import opened LoadPlans
  import opened SchedulerModel

  class TaskBoard {
    const c: Config
    const states: array<TaskState>
    var done: set<string>
    var cursor: nat

    ghost predicate Valid()
      reads this, states
    {
      && BatchesDivide(c)
      && states.Length == |c.tasks|
      && cursor < |c.tasks|
    }

    ghost function View(): (s: Core)
      requires Valid()
      reads this, states
      ensures Shaped(c, s)
    {
      Core(states[..], done, cursor)
    }

    constructor (c: Config)
      requires c.tasks != [] && BatchesDivide(c) && c.workers >= 0
      ensures this.c == c && Valid() && fresh(states)
      ensures View() == Initial(c).core
    {
      this.c := c;
      this.done := {};
      this.cursor := 0;
      states := new TaskState[|c.tasks|](_ => TaskState(1, 0, false, false, 0, 0));
    }

    /** One task of a pass: issues its next batch, or closes it when nothing of it is left. */
    method Visit(index: nat) returns (found: Option<Job>)
      requires Valid() && index < |c.tasks|
      modifies this, states
      ensures Valid()
      ensures found.Some? <==> old(Issuable(c, View(), index))
      ensures found.Some? ==> View() == IssueAt(c, old(View()), index) && found.value == NextJob(c, old(View()), index)
      ensures found.None? ==>
        View() == if old(Drained(c, View(), index)) then Close(c, old(View()), index) else old(View())
    {
      ghost var here := View();
      var state := states[index];
      var task := c.tasks[index];
      found := None;
      if !state.completed && Deps(task) <= done {
        if task.count.None? {
          if !state.submitted {
            states[index] := state.(submitted := true, outstanding := state.outstanding + 1);
            cursor := if index + 1 == |c.tasks| then 0 else index + 1;
            assert View() == IssueAt(c, here, index);
            return Some(Single);
          }
        } else if state.nextKey <= task.count.value {
          var first := state.nextKey;
          var end := first + Stride(c, index) - 1;
          var last := if task.count.value < end then task.count.value else end;
          states[index] := state.(nextKey := last + 1, outstanding := state.outstanding + 1);
          cursor := if index + 1 == |c.tasks| then 0 else index + 1;
          assert View() == IssueAt(c, here, index);
          return Some(Range(first, last));
        } else if state.outstanding == 0 {
          states[index] := state.(completed := true);
          done := done + {task.name};
          assert View() == Close(c, here, index);
        }
      }
    }

    /** Either a job with its bounds, or the decision to wait for a change, or the end. */
    method TakeJob() returns (pick: Pick)
      requires Valid()
      modifies this, states
      ensures Valid()
      ensures (View(), pick) == Take(c, old(View()))
    {
      var n := |c.tasks|;
      while |done| < n
        invariant Valid() && Take(c, View()) == Take(c, old(View()))
        decreases n - |done|
      {
        var previousDone := |done|;
        ghost var before := View();
        var offset := 0;
        while offset < n
          invariant 0 <= offset <= n && Valid() && cursor == before.cursor && before.done <= done
          invariant Scan(c, View(), offset) == Scan(c, before, 0)
          invariant Take(c, before) == Take(c, old(View()))
        {
          var index := (cursor + offset) % n;
          assert index == Visited(c, View(), offset);
          var found := Visit(index);
          if found.Some? {
            return Issue(index, found.value);
          }
          offset := offset + 1;
        }
        assert Scan(c, before, 0) == (View(), None);
        SubsetSize(before.done, done);
        if |done| < n && |done| == previousDone {
          return Wait;
        }
      }
      pick := Finished;
    }

    /** Counts one committed batch, and marks its task complete when it was the last one. */
    method FinishJob(task: nat, affected: nat)
      requires Valid() && task < |c.tasks|
      modifies this, states
      ensures Valid()
      ensures View() == Finish(c, old(View()), task, affected)
    {
      ghost var before := View();
      var state := states[task];
      state := state.(outstanding := state.outstanding - 1);
      state := state.(batches := state.batches + 1, rows := state.rows + affected);
      states[task] := state;
      var count := c.tasks[task].count;
      if state.outstanding == 0 && (count.None? || state.nextKey > count.value) {
        states[task] := state.(completed := true);
        done := done + {c.tasks[task].name};
      }
      assert View() == Finish(c, before, task, affected);
    }
  }
}
