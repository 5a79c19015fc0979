/**
 * The replica replay barrier (initialization_settings.py, _replica_keys and wait_for_replicas)
 * together with the replica requirements collected before it.
 */
module ReplicaBarrier {
  import opened Wrappers

  /** A row of pg_stat_replication joined with its slot: one walsender connection. */
  datatype Row = Row(
    application: string,
    state: Option<string>,
    address: string,
    slot: Option<string>,
    logical: bool,
    replayed: nat)

  datatype Key = Slot(name: string) | Connection(application: string, address: string)

  datatype BarrierError = NoVisibility | Timeout

  function KeyOf(row: Row): Key {
    match row.slot
    case Some(name) => Slot(name)
    case None => Connection(row.application, row.address)
  }

  /** The WHERE clause of the query, with and without a replay target. */
  predicate Selected(row: Row, target: Option<nat>) {
    && !row.logical
    && row.state != Some("backup")
    && (target.Some? ==> row.state == Some("streaming") && row.replayed >= target.value)
  }

  function Select(rows: seq<Row>, target: Option<nat>): seq<Row> {
    if rows == [] then []
    else (if Selected(rows[0], target) then [rows[0]] else []) + Select(rows[1..], target)
  }

  function KeyBag(rows: seq<Row>): multiset<Key> {
    if rows == [] then multiset{} else multiset{KeyOf(rows[0])} + KeyBag(rows[1..])
  }

  function ReplicaKeys(rows: seq<Row>, target: Option<nat>): Result<multiset<Key>, BarrierError> {
    var selected := Select(rows, target);
    if exists r :: r in selected && r.state.None? then Err(NoVisibility) else Ok(KeyBag(selected))
  }

  /** Counter union: the larger multiplicity of each key. */
  function Union(a: multiset<Key>, b: multiset<Key>): (u: multiset<Key>)
    ensures forall k :: u[k] == if a[k] < b[k] then b[k] else a[k]
    ensures a <= u && b <= u
  {
    a + (b - a)
  }

  /** How many connections of a key are selected. */
  function Connections(rows: seq<Row>, target: Option<nat>, key: Key): nat {
    if rows == [] then 0
    else Connections(rows[1..], target, key) + if Selected(rows[0], target) && KeyOf(rows[0]) == key then 1 else 0
  }

  lemma {:induction false} KeyBagAppend(a: seq<Row>, b: seq<Row>)
    ensures KeyBag(a + b) == KeyBag(a) + KeyBag(b)
  {
    if a == [] {
      assert a + b == b;
    } else {
      assert (a + b)[1..] == a[1..] + b;
      KeyBagAppend(a[1..], b);
    }
  }

  lemma {:induction false} BagCounts(rows: seq<Row>, target: Option<nat>, key: Key)
    ensures KeyBag(Select(rows, target))[key] == Connections(rows, target, key)
  {
    if rows != [] {
      BagCounts(rows[1..], target, key);
      KeyBagAppend(if Selected(rows[0], target) then [rows[0]] else [], Select(rows[1..], target));
    }
  }

  /** Every required key has its multiplicity of streaming connections at or past the target. */
  predicate CaughtUp(required: multiset<Key>, rows: seq<Row>, target: nat) {
    forall key :: key in required ==> Connections(rows, Some(target), key) >= required[key]
  }

  lemma AllBagCounts(rows: seq<Row>, target: Option<nat>)
    ensures forall key :: KeyBag(Select(rows, target))[key] == Connections(rows, target, key)
  {
    forall key ensures KeyBag(Select(rows, target))[key] == Connections(rows, target, key) {
      BagCounts(rows, target, key);
    }
  }

  /** The recorded requirement covers every connection in a list of rows. */
  ghost predicate Requires(required: multiset<Key>, rows: seq<Row>) {
    forall key :: required[key] >= Connections(rows, None, key)
  }

  /** Every key of the rows seen has as many connections that replayed up to the target. */
  ghost predicate Replayed(rows: seq<Row>, target: nat, seen: seq<Row>) {
    forall key :: Connections(rows, Some(target), key) >= Connections(seen, None, key)
  }

  /** Replayed for everything seen before the reset, on reopening after a restart, and at the barrier. */
  ghost predicate AllReplayed(
      rows: seq<Row>, target: nat, before: seq<Row>, restarted: Option<seq<Row>>, barrier: seq<Row>)
  {
    && Replayed(rows, target, before) && Replayed(rows, target, barrier)
    && (restarted.Some? ==> Replayed(rows, target, restarted.value))
  }

  lemma RequiresIsMonotone(small: multiset<Key>, large: multiset<Key>, rows: seq<Row>)
    requires Requires(small, rows) && small <= large
    ensures Requires(large, rows)
  {
  }

  lemma CaughtUpReplays(required: multiset<Key>, rows: seq<Row>, target: nat, seen: seq<Row>)
    requires CaughtUp(required, rows, target) && Requires(required, seen)
    ensures Replayed(rows, target, seen)
  {
    forall key ensures Connections(rows, Some(target), key) >= Connections(seen, None, key) {
      assert required[key] >= Connections(seen, None, key);
    }
  }

  /** The requirement covers the replicas seen before the reset and those seen on reopening. */
  ghost predicate Gathers(required: multiset<Key>, before: seq<Row>, restarted: Option<seq<Row>>) {
    Requires(required, before) && (restarted.Some? ==> Requires(required, restarted.value))
  }

  lemma GathersIsMonotone(small: multiset<Key>, large: multiset<Key>, before: seq<Row>, restarted: Option<seq<Row>>)
    requires Gathers(small, before, restarted) && small <= large
    ensures Gathers(large, before, restarted)
  {
    RequiresIsMonotone(small, large, before);
    if restarted.Some? {
      RequiresIsMonotone(small, large, restarted.value);
    }
  }

  lemma CaughtUpReplaysAll(required: multiset<Key>, rows: seq<Row>, target: nat,
      before: seq<Row>, restarted: Option<seq<Row>>, barrier: seq<Row>)
    requires CaughtUp(required, rows, target) && Gathers(required, before, restarted) && Requires(required, barrier)
    ensures AllReplayed(rows, target, before, restarted, barrier)
  {
    CaughtUpReplays(required, rows, target, before);
    CaughtUpReplays(required, rows, target, barrier);
    if restarted.Some? {
      CaughtUpReplays(required, rows, target, restarted.value);
    }
  }

  /** Polls until one snapshot shows all requirements met; polls are those before the deadline. */
  method PollUntilCaughtUp(required: multiset<Key>, target: nat, polls: seq<seq<Row>>)
    returns (failure: Option<BarrierError>)
    ensures failure.None? ==> exists p :: p in polls && CaughtUp(required, p, target)
    ensures failure == Some(Timeout) ==> forall p :: p in polls ==> !CaughtUp(required, p, target)
  {
    var i := 0;
    while i < |polls|
      invariant 0 <= i <= |polls|
      invariant forall j :: 0 <= j < i ==> !CaughtUp(required, polls[j], target)
    {
      var caught := ReplicaKeys(polls[i], Some(target));
      if caught.Err? {
        return Some(caught.error);
      }
      AllBagCounts(polls[i], Some(target));
      if forall key :: key in required ==> caught.value[key] >= required[key] {
        assert CaughtUp(required, polls[i], target);
        return None;
      }
      i := i + 1;
    }
    failure := Some(Timeout);
  }

  class Settings {
    var replicas: multiset<Key>
    var insertLsn: nat

    constructor (insertLsn: nat)
      ensures replicas == multiset{} && this.insertLsn == insertLsn
    {
      replicas := multiset{};
      this.insertLsn := insertLsn;
    }

    /** open: replaces the recorded replicas by the ones connected now. */
    method Open(rows: seq<Row>) returns (ok: bool)
      modifies this`replicas
      ensures ok ==> forall key :: replicas[key] == Connections(rows, None, key)
      ensures ok ==> Requires(replicas, rows)
      ensures !ok ==> replicas == old(replicas)
    {
      var keys := ReplicaKeys(rows, None);
      ok := keys.Ok?;
      if ok {
        replicas := keys.value;
        AllBagCounts(rows, None);
      }
    }

    /** Loading and restoring write WAL; positions only grow. */
    method WriteWal(bytes: nat)
      modifies this`insertLsn
      ensures insertLsn == old(insertLsn) + bytes
    {
      insertLsn := insertLsn + bytes;
    }

    /** Captures the target, joins all requirements, and polls unless there are none. */
    method WaitForReplicas(rows: seq<Row>, polls: seq<seq<Row>>)
      returns (r: Result<nat, BarrierError>, required: multiset<Key>)
      ensures r.Ok? ==> r.value == insertLsn
      ensures r.Ok? ==> replicas <= required && Requires(required, rows)
      ensures r.Ok? && required != multiset{} ==> exists p :: p in polls && CaughtUp(required, p, insertLsn)
      ensures r == Err(Timeout) ==> forall p :: p in polls ==> !CaughtUp(required, p, insertLsn)
    {
      var target := insertLsn;
      var keys := ReplicaKeys(rows, None);
      required := multiset{};
      if keys.Err? {
        return Err(keys.error), required;
      }
      required := Union(replicas, keys.value);
      AllBagCounts(rows, None);
      if required != multiset{} {
        var failure := PollUntilCaughtUp(required, target, polls);
        if failure.Some? {
          return Err(failure.value), required;
        }
      }
      r := Ok(target);
    }

    /** open, copy the requirement, reset with a restart that reopens and overwrites it, merge. */
    method OpenAndMerge(before: seq<Row>, restarted: Option<seq<Row>>) returns (ok: bool)
      modifies this`replicas
      ensures ok ==> Gathers(replicas, before, restarted)
    {
      ok := Open(before);
      if !ok {
        return;
      }
      var requiredReplicas := replicas;
      if restarted.Some? {
        ok := Open(restarted.value);
        if !ok {
          return;
        }
      }
      ghost var reopened := replicas;
      replicas := Union(replicas, requiredReplicas);
      RequiresIsMonotone(requiredReplicas, replicas, before);
      if restarted.Some? {
        RequiresIsMonotone(reopened, replicas, restarted.value);
      }
    }

    /**
     * The order of one initializing iteration: open, copy the requirement, reset with a restart
     * that reopens and overwrites it, merge, load, wait.
     */
    method Initialize(before: seq<Row>, restarted: Option<seq<Row>>, wal: nat, barrier: seq<Row>, polls: seq<seq<Row>>)
      returns (passed: bool, target: nat)
      modifies this
      ensures passed ==> target == insertLsn == old(insertLsn) + wal
      // the empty snapshot stands for the case that nothing was required
      ensures passed ==> exists p :: (p in polls || p == []) && AllReplayed(p, target, before, restarted, barrier)
    {
      target := insertLsn;
      passed := OpenAndMerge(before, restarted);
      if !passed {
        return;
      }
      WriteWal(wal);
      var r, required := WaitForReplicas(barrier, polls);
      passed := r.Ok?;
      if passed {
        target := r.value;
        GathersIsMonotone(replicas, required, before, restarted);
        ghost var p: seq<Row> := [];
        if required != multiset{} {
          p :| p in polls && CaughtUp(required, p, target);
        }
        CaughtUpReplaysAll(required, p, target, before, restarted, barrier);
      }
    }
  }
}
