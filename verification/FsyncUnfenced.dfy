/**
 * What the fence of FsyncClients keeps away: a client that lost its lock, was refused when it
 * reconnected and restores again, removes the journal of the client that holds the lock now.
 */
module FsyncUnfenced {
  import opened Wrappers
  import Lock = BenchmarkLock
  import opened FsyncJournal
  import opened FsyncClients
  import Single = FsyncTheorems

  /** No restore was refused the lock. */
  predicate Unrefused(steps: seq<Step>) {
    forall step :: step in steps ==> !step.Refuse?
  }

  /** Some steps lead from s to t, without any refusal. */
  ghost predicate Comes(p: Params, s: World, t: World)
    requires Shaped(s)
  {
    exists steps :: Runs(p, s, steps, t) && Unrefused(steps)
  }

  lemma Stays(p: Params, s: World)
    requires Shaped(s)
    ensures Comes(p, s, s)
  {
    assert Runs(p, s, [], s);
  }

  lemma StepFirst(p: Params, s: World, step: Step, t: World)
    requires Shaped(s) && CanHappen(p, s, step) && !step.Refuse? && Comes(p, Next(p, s, step), t)
    ensures Comes(p, s, t)
  {
    var rest :| Runs(p, Next(p, s, step), rest, t) && Unrefused(rest);
    var steps := [step] + rest;
    assert steps[1..] == rest;
    assert Runs(p, s, steps, t);
  }

  lemma OneStep(p: Params, s: World, step: Step)
    requires Shaped(s) && CanHappen(p, s, step) && !step.Refuse?
    ensures Comes(p, s, Next(p, s, step))
  {
    Stays(p, Next(p, s, step));
    StepFirst(p, s, step, Next(p, s, step));
  }

  lemma {:induction false} RunThen(p: Params, s: World, steps: seq<Step>, t: World, u: World)
    requires Shaped(s) && Runs(p, s, steps, t) && Unrefused(steps) && Shaped(t) && Comes(p, t, u)
    ensures Comes(p, s, u)
    decreases |steps|
  {
    if steps != [] {
      RunThen(p, Next(p, s, steps[0]), steps[1..], t, u);
      StepFirst(p, s, steps[0], u);
    }
  }

  lemma Then(p: Params, s: World, t: World, u: World)
    requires Shaped(s) && Comes(p, s, t) && Shaped(t) && Comes(p, t, u)
    ensures Comes(p, s, u)
  {
    var steps :| Runs(p, s, steps, t) && Unrefused(steps);
    RunThen(p, s, steps, t, u);
  }

  /** Two runs with one step between them. */
  lemma {:induction false} Splice(p: Params, s: World, one: seq<Step>, t: World, step: Step, two: seq<Step>, u: World)
    requires Shaped(s) && Runs(p, s, one, t) && Shaped(t) && CanHappen(p, t, step)
    requires Runs(p, Next(p, t, step), two, u)
    ensures Runs(p, s, one + ([step] + two), u)
    decreases |one|
  {
    var steps := one + ([step] + two);
    if one == [] {
      assert steps[1..] == two;
    } else {
      assert steps[1..] == one[1..] + ([step] + two);
      Splice(p, Next(p, s, one[0]), one[1..], t, step, two, u);
    }
  }

  // ---------------------------------------------------------------- runs of one client

  /** A client whose file is the journal may write and sync it; no other may, until it creates one. */
  predicate Plain(l: Label, current: bool) {
    !l.HostCrash? && !l.Restart? && if current then !l.Unlink? else !l.FillFile? && !l.SyncContent?
  }

  predicate Liftable(steps: seq<Label>, current: bool) {
    forall l :: l in steps ==> Plain(l, current)
  }

  /** Only the given client has acted since s. */
  predicate OnlyActed(s: World, t: World, i: nat) {
    && t.lock == s.lock && |t.members| == |s.members|
    && i < |s.members| && t.members[i].refused == s.members[i].refused
    && forall j :: 0 <= j < |s.members| && j != i ==> t.members[j] == s.members[j]
  }

  /** A run of the single-client machine is a run of the holder. */
  lemma {:induction false} HolderRuns(p: Params, s: World, i: nat, steps: seq<Label>, current: bool, v: System)
    returns (t: World)
    requires Shaped(s) && i < |s.members| && Holds(s, i)
    requires Single.Leads(p, View(s, i), steps, v) && Liftable(steps, current)
    requires current ==> s.members[i].fd == s.file
    ensures Shaped(t) && Comes(p, s, t) && OnlyActed(s, t, i) && View(t, i) == v
    ensures Unlink !in steps && (s.members[i].fd == s.file || CreateFile in steps) ==> t.members[i].fd == t.file
    decreases |steps|
  {
    if steps == [] {
      t := s;
      Stays(p, s);
    } else {
      assert steps[0] in steps && steps == [steps[0]] + steps[1..];
      t := HolderRuns(p, DoAct(p, s, i, steps[0]), i, steps[1..], current, v);
      StepFirst(p, s, Act(i, steps[0]), t);
    }
  }

  predicate Bare(s: World, i: nat)
    requires Shaped(s) && i < |s.members|
  {
    Connected(s, i) && s.members[i].refused
  }

  predicate OfRestore(l: Label) {
    l in {SwitchBack, ReloadBack, SeeBack, Checkpoint, SyncHost}
  }

  /** A refused client with an open connection can restore up to the unlink. */
  lemma {:induction false} RefusedRuns(p: Params, s: World, i: nat, steps: seq<Label>, v: System) returns (t: World)
    requires Shaped(s) && i < |s.members| && Bare(s, i)
    requires Single.Leads(p, View(s, i), steps, v) && forall l :: l in steps ==> OfRestore(l)
    ensures Shaped(t) && Comes(p, s, t) && OnlyActed(s, t, i) && View(t, i) == v
    decreases |steps|
  {
    if steps == [] {
      t := s;
      Stays(p, s);
    } else {
      assert steps[0] in steps;
      t := RefusedRuns(p, DoAct(p, s, i, steps[0]), i, steps[1..], v);
      StepFirst(p, s, Act(i, steps[0]), t);
    }
  }

  // ---------------------------------------------------------------- taking and losing the lock

  /** Nobody holds the lock, and the client is not connected. */
  predicate Free(s: World, i: nat)
    requires Shaped(s) && i < |s.members|
  {
    && s.lock.holders == {} && !s.lock.inRecovery
    && s.lock.controllers[i].phase == Lock.Off
    && s.members[i].client.pc == Down && !s.members[i].refused
  }

  /** The three lock steps of an acquisition that nobody contends. */
  lemma LockPath(lock: Lock.State, i: nat) returns (one: Lock.State, two: Lock.State, three: Lock.State)
    requires Lock.Inv(lock) && i < |lock.controllers| && lock.controllers[i].phase == Lock.Off
    requires lock.holders == {} && !lock.inRecovery
    ensures Lock.Enabled(lock, Lock.Connect(i, "postgres")) && one == Lock.Do(lock, Lock.Connect(i, "postgres"))
    ensures Lock.Enabled(one, Lock.TryLock(i)) && two == Lock.Do(one, Lock.TryLock(i))
    ensures Lock.Enabled(two, Lock.CrossCheck(i)) && three == Lock.Do(two, Lock.CrossCheck(i))
    ensures Lock.Inv(three) && |three.controllers| == |lock.controllers| && Lock.Owns(three, i) && !three.inRecovery
    ensures three.controllers[i].database == "postgres" && three.holders == {three.controllers[i].backend}
    ensures forall j :: 0 <= j < |lock.controllers| && j != i ==> three.controllers[j] == lock.controllers[j]
  {
    one := Lock.Do(lock, Lock.Connect(i, "postgres"));
    two := Lock.Do(one, Lock.TryLock(i));
    three := Lock.Do(two, Lock.CrossCheck(i));
    Lock.StepKeepsInv(lock, Lock.Connect(i, "postgres"));
    Lock.StepKeepsInv(one, Lock.TryLock(i));
    Lock.StepKeepsInv(two, Lock.CrossCheck(i));
  }

  lemma Acquires(p: Params, s: World, i: nat) returns (t: World)
    requires Shaped(s) && Lock.Inv(s.lock) && i < |s.members| && Free(s, i)
    ensures Shaped(t) && |t.members| == |s.members| && Comes(p, s, t) && Lock.Inv(t.lock) && Holds(t, i)
    ensures t == s.(lock := t.lock) && !t.lock.inRecovery
    ensures t.lock.controllers[i].database == "postgres" && t.lock.holders == {t.lock.controllers[i].backend}
    ensures forall j :: 0 <= j < |s.members| && j != i ==> t.lock.controllers[j] == s.lock.controllers[j]
  {
    var one, two, three := LockPath(s.lock, i);
    assert s.members[i := s.members[i].(refused := false)] == s.members;
    t := s.(lock := three);
    OneStep(p, s.(lock := two), OfLock(Lock.CrossCheck(i)));
    StepFirst(p, s.(lock := one), OfLock(Lock.TryLock(i)), t);
    StepFirst(p, s, OfLock(Lock.Connect(i, "postgres")), t);
  }

  /** The connection of the holder dies; the lock is free again. */
  lemma Loses(p: Params, s: World, i: nat) returns (t: World)
    requires Shaped(s) && Lock.Inv(s.lock) && i < |s.members| && Holds(s, i)
    ensures Shaped(t) && Comes(p, s, t) && Lock.Inv(t.lock) && t == s.(lock := t.lock)
    ensures t.lock.controllers == s.lock.controllers && t.lock.inRecovery == s.lock.inRecovery
    ensures !Connected(t, i) && t.lock.holders == s.lock.holders - {s.lock.controllers[i].backend}
  {
    var l := Lock.BackendDies(s.lock.controllers[i].backend);
    t := Next(p, s, OfLock(l));
    Lock.StepKeepsInv(s.lock, l);
    OneStep(p, s, OfLock(l));
  }

  /** A restore without connection reconnects, and meets another client that holds the lock. */
  lemma Reconnects(p: Params, s: World, i: nat, j: nat) returns (t: World)
    requires Shaped(s) && Lock.Inv(s.lock) && i < |s.members| && j < |s.members| && i != j
    requires Holds(s, j) && s.lock.controllers[j].database == "postgres" && !s.lock.inRecovery
    requires s.lock.controllers[i].phase == Lock.Owner && !Connected(s, i)
    requires s.members[i].client.pc == Restoring && !s.members[i].refused
    ensures Shaped(t) && |t.members| == |s.members| && Comes(p, s, t)
    ensures Lock.Inv(t.lock) && !t.lock.inRecovery && Refusing(t, i) && Holds(t, j) && t == s.(lock := t.lock)
  {
    var one := Next(p, s, OfLock(Lock.Release(i)));
    Lock.StepKeepsInv(s.lock, Lock.Release(i));
    t := Next(p, one, OfLock(Lock.Connect(i, "postgres")));
    Lock.StepKeepsInv(one.lock, Lock.Connect(i, "postgres"));
    assert t.lock.controllers[j].backend in t.lock.holders;
    OneStep(p, one, OfLock(Lock.Connect(i, "postgres")));
    StepFirst(p, s, OfLock(Lock.Release(i)), t);
  }

  // ---------------------------------------------------------------- the runs

  /** A client that loads, alone. */
  lemma LoadsAlone(p: Params) returns (steps: seq<Label>)
    requires !p.meaning(OFF)
    ensures Single.Leads(p, Initial(p), steps, Single.LoadingState(p)) && Liftable(steps, true)
  {
    steps := Single.DisableRun(p);
  }

  /** A client that recovers a pending journal, alone. */
  lemma RecoversAlone(p: Params, v: System) returns (steps: seq<Label>)
    requires v.client.pc == Down && v.journal.visible == Complete(First(p)) && Settled(p) && Restorable(p.auto)
    ensures Single.Leads(p, v, steps, Single.Recovered(p, v)) && Liftable(steps, false)
  {
    Single.RecoveryCompletes(p, v);
    steps := Single.RECOVERY;
  }

  function CreatedState(p: Params, journal: Journal): System {
    System(Single.Restored(p), Journal(Torn, journal.durable, false), Client(Created, Some(First(p)), false))
  }

  /** The second client has saved a new journal and is about to switch fsync off. */
  function MarkedState(p: Params): System {
    System(
      Single.Restored(p),
      Journal(Complete(First(p)), Complete(First(p)), true),
      Client(Marked, Some(First(p)), true))
  }

  lemma CreatesAlone(p: Params, v: System) returns (steps: seq<Label>)
    requires Settled(p) && v.server == Single.Restored(p) && v.journal.visible == Absent
    requires v.client == Client(Ready, Some(First(p)), false)
    ensures Single.Leads(p, v, steps, CreatedState(p, v.journal)) && Liftable(steps, false)
    ensures CreateFile in steps && Unlink !in steps
  {
    Single.NoSteps(p, CreatedState(p, v.journal));
    Single.Two(p, v, Capture, CreateFile, [], CreatedState(p, v.journal));
    steps := [Capture, CreateFile] + [];
  }

  lemma SavesAlone(p: Params, journal: Journal) returns (steps: seq<Label>)
    ensures Single.Leads(p, CreatedState(p, journal), steps, MarkedState(p)) && Liftable(steps, true)
  {
    var v := CreatedState(p, journal);
    var synced := Do(p, Do(p, v, FillFile), SyncContent);
    Single.NoSteps(p, MarkedState(p));
    Single.Two(p, synced, SyncDirectory, MarkChanged, [], MarkedState(p));
    Single.Two(p, v, FillFile, SyncContent, [SyncDirectory, MarkChanged] + [], MarkedState(p));
    steps := [FillFile, SyncContent] + ([SyncDirectory, MarkChanged] + []);
  }

  function SyncedState(v: System): System {
    v.(server := v.server.(reloading := true), client := v.client.(pc := Synced))
  }

  lemma SeesBack(p: Params, v: System) returns (steps: seq<Label>)
    requires v.client.pc == AwaitingBack && v.client.original == Some(First(p)) && v.server.effective == p.effective
    requires !v.server.buffers && !v.server.kernel
    ensures Single.Leads(p, v, steps, v.(client := v.client.(pc := Synced))) && forall l :: l in steps ==> OfRestore(l)
  {
    var back := Do(p, v, SeeBack);
    var t := v.(client := v.client.(pc := Synced));
    Single.NoSteps(p, t);
    Single.Two(p, back, Checkpoint, SyncHost, [], t);
    Single.Prepend(p, v, SeeBack, [Checkpoint, SyncHost] + [], t);
    steps := [SeeBack] + ([Checkpoint, SyncHost] + []);
  }

  /** The restore of a client that is not connected as the holder, up to the unlink. */
  lemma RestoresAlone(p: Params, v: System) returns (steps: seq<Label>)
    requires Settled(p) && Restorable(p.auto) && v.client == Client(Restoring, Some(First(p)), true)
    requires v.server == Single.Restored(p)
    ensures Single.Leads(p, v, steps, SyncedState(v)) && forall l :: l in steps ==> OfRestore(l)
  {
    var reloading := Do(p, Do(p, v, SwitchBack), ReloadBack);
    var rest := SeesBack(p, reloading);
    Single.Two(p, v, SwitchBack, ReloadBack, rest, SyncedState(v));
    steps := [SwitchBack, ReloadBack] + rest;
  }

  /** At least two clients on a primary; the first two are the ones that act. */
  predicate Pair(s: World) {
    Shaped(s) && |s.members| >= 2 && Lock.Inv(s.lock) && !s.lock.inRecovery
  }

  /** The first client has lost its connection, and with it the lock. */
  predicate Cut(s: World)
    requires Pair(s)
  {
    s.lock.controllers[0].phase == Lock.Owner && !Connected(s, 0)
  }

  /** The first client loads with fsync off. */
  lemma FirstDisables(p: Params, n: nat) returns (s: World)
    requires n >= 2 && !p.meaning(OFF)
    ensures Pair(s) && Comes(p, Start(p, n), s) && View(s, 0) == Single.LoadingState(p)
    ensures Holds(s, 0) && s.lock.holders == {s.lock.controllers[0].backend} && s.lock.controllers[1].phase == Lock.Off
    ensures s.members[1] == Member(NoClient, 0, false) && !s.members[0].refused && s.members[0].fd == s.file
  {
    var start := Start(p, n);
    var a := Acquires(p, start, 0);
    var steps := LoadsAlone(p);
    s := HolderRuns(p, a, 0, steps, true, Single.LoadingState(p));
    Then(p, start, a, s);
  }

  /** Its connection has died. */
  lemma FirstLoads(p: Params, n: nat) returns (s: World)
    requires n >= 2 && !p.meaning(OFF)
    ensures Pair(s) && Comes(p, Start(p, n), s) && View(s, 0) == Single.LoadingState(p) && Cut(s)
    ensures Free(s, 1) && s.members[1] == Member(NoClient, 0, false) && !s.members[0].refused
  {
    var a := FirstDisables(p, n);
    s := Loses(p, a, 0);
    Then(p, Start(p, n), a, s);
  }

  /** The second client acquires the lock and recovers the journal. */
  lemma SecondRecovers(p: Params, s: World) returns (t: World)
    requires Settled(p) && Restorable(p.auto)
    requires Pair(s) && s.journal.visible == Complete(First(p)) && Cut(s)
    requires Free(s, 1) && s.members[1] == Member(NoClient, 0, false)
    ensures Pair(t) && Comes(p, s, t) && Holds(t, 1)
    ensures t.server == Single.Restored(p) && t.journal.visible == Absent
    ensures t.members[1].client == Client(Ready, Some(First(p)), false)
    ensures Cut(t) && t.members[0] == s.members[0] && t.lock.controllers[1].database == "postgres"
  {
    var a := Acquires(p, s, 1);
    var steps := RecoversAlone(p, View(a, 1));
    t := HolderRuns(p, a, 1, steps, false, Single.Recovered(p, View(a, 1)));
    Then(p, s, a, t);
  }

  /** Then it saves a journal of its own. */
  lemma SecondSaves(p: Params, s: World) returns (t: World)
    requires Settled(p) && Pair(s) && Holds(s, 1)
    requires s.server == Single.Restored(p) && s.journal.visible == Absent
    requires s.members[1].client == Client(Ready, Some(First(p)), false)
    ensures Shaped(t) && Comes(p, s, t) && OnlyActed(s, t, 1) && View(t, 1) == MarkedState(p)
  {
    var steps := CreatesAlone(p, View(s, 1));
    var a := HolderRuns(p, s, 1, steps, false, CreatedState(p, s.journal));
    steps := SavesAlone(p, s.journal);
    t := HolderRuns(p, a, 1, steps, true, MarkedState(p));
    Then(p, s, a, t);
  }

  lemma BeginsRestore(p: Params, s: World, i: nat) returns (t: World)
    requires Shaped(s) && i < |s.members| && s.members[i].client.changed
    requires s.members[i].client.pc !in {Down, Unlinked}
    ensures Comes(p, s, t)
    ensures t == s.(members := s.members[i := s.members[i].(client := s.members[i].client.(pc := Restoring))])
  {
    t := Next(p, s, Act(i, BeginRestore));
    OneStep(p, s, Act(i, BeginRestore));
  }

  /** The first client restores and reconnects, but the lock is taken. */
  lemma FirstReconnects(p: Params, s: World) returns (t: World)
    requires Pair(s) && Holds(s, 1) && Cut(s) && s.lock.controllers[1].database == "postgres"
    requires s.members[0].client.pc == Loading && s.members[0].client.changed && !s.members[0].refused
    ensures Pair(t) && Comes(p, s, t) && Holds(t, 1) && Refusing(t, 0)
    ensures t == s.(lock := t.lock, members := t.members) && t.members[1] == s.members[1]
    ensures t.members[0].client == s.members[0].client.(pc := Restoring)
  {
    var a := BeginsRestore(p, s, 0);
    t := Reconnects(p, a, 0, 1);
    Then(p, s, a, t);
  }

  /** It restores once more on closing, over the connection that is still open. */
  lemma FirstRestoresAgain(p: Params, s: World) returns (t: World)
    requires Settled(p) && Restorable(p.auto)
    requires Pair(s) && Bare(s, 0) && s.server == Single.Restored(p)
    requires s.members[0].client == Client(Restoring, Some(First(p)), true)
    ensures Shaped(t) && Comes(p, s, t) && OnlyActed(s, t, 0)
    ensures t.members[0].client.pc == Synced && t.journal == s.journal
  {
    var a := BeginsRestore(p, s, 0);
    var steps := RestoresAlone(p, View(a, 0));
    t := RefusedRuns(p, a, 0, steps, SyncedState(View(a, 0)));
    Then(p, s, a, t);
  }

  /** The holder switches fsync off, and the other client removes its journal. */
  lemma LosesJournal(p: Params, s: World) returns (t: World)
    requires p.auto != Some(OFF) && Pair(s) && Holds(s, 1)
    requires s.members[0].client.pc == Synced && s.members[1].client.pc == Marked && s.journal.visible.Complete?
    ensures Pair(t) && Comes(p, s, t) && t.journal.visible == Absent && t.server.auto == Some(OFF)
  {
    var off := Next(p, s, Act(1, SwitchOff));
    t := Next(p, off, Act(0, Unlink));
    OneStep(p, off, Act(0, Unlink));
    StepFirst(p, s, Act(1, SwitchOff), t);
  }

  /** The lock changed hands, and the first client has reconnected without it. */
  lemma UptoRefusal(p: Params, n: nat) returns (s: World)
    requires n >= 2 && Settled(p) && Restorable(p.auto) && !p.meaning(OFF)
    ensures Pair(s) && Comes(p, Start(p, n), s) && Holds(s, 1) && Refusing(s, 0)
    ensures s.server == Single.Restored(p) && s.journal == MarkedState(p).journal
    ensures s.members[1].client == MarkedState(p).client
    ensures s.members[0].client == Client(Restoring, Some(First(p)), true)
  {
    var a := FirstLoads(p, n);
    var b := SecondRecovers(p, a);
    Then(p, Start(p, n), a, b);
    var c := SecondSaves(p, b);
    Then(p, Start(p, n), b, c);
    s := FirstReconnects(p, c);
    Then(p, Start(p, n), c, s);
  }

  /**
   * Without the fence the journal can lie: fsync is off on the server, and no journal is left to
   * say so. Two clients, one dying connection and the second restore of close are enough.
   */
  lemma RefusedRestoreStrands(p: Params, n: nat) returns (steps: seq<Step>, s: World)
    requires n >= 2 && Settled(p) && Restorable(p.auto) && p.auto != Some(OFF) && !p.meaning(OFF)
    ensures Runs(p, Start(p, n), steps, s) && !Fenced(p, Start(p, n), steps)
    ensures s.journal.visible == Absent && s.server.auto == Some(OFF) && !TellsTheTruth(p, s)
  {
    var d := UptoRefusal(p, n);
    var refused := Next(p, d, Refuse(0));
    var e := FirstRestoresAgain(p, refused);
    s := LosesJournal(p, e);
    Then(p, refused, e, s);
    steps := AroundRefusal(p, n, d, refused, s);
    NotFenced(p, n, steps, s);
  }

  /** A run to a world that lies was not fenced. */
  lemma NotFenced(p: Params, n: nat, steps: seq<Step>, s: World)
    requires Runs(p, Start(p, n), steps, s) && p.auto != Some(OFF)
    requires s.journal.visible == Absent && s.server.auto == Some(OFF)
    ensures !TellsTheTruth(p, s) && !Fenced(p, Start(p, n), steps)
  {
    if Fenced(p, Start(p, n), steps) {
      FencedRunsTellTheTruth(p, n, steps, s);
    }
  }

  lemma AroundRefusal(p: Params, n: nat, d: World, refused: World, s: World) returns (steps: seq<Step>)
    requires Comes(p, Start(p, n), d) && Shaped(d) && CanHappen(p, d, Refuse(0)) && refused == Next(p, d, Refuse(0))
    requires Comes(p, refused, s)
    ensures Runs(p, Start(p, n), steps, s)
  {
    var one :| Runs(p, Start(p, n), one, d) && Unrefused(one);
    var two :| Runs(p, refused, two, s) && Unrefused(two);
    Splice(p, Start(p, n), one, d, Refuse(0), two, s);
    steps := one + ([Refuse(0)] + two);
  }

  // ---------------------------------------------------------------- without any refusal

  function CheckpointedState(p: Params): System {
    System(
      Single.Restored(p),
      Journal(Complete(First(p)), Complete(First(p)), true),
      Client(Checkpointed, Some(First(p)), true))
  }

  lemma CheckpointsAlone(p: Params) returns (steps: seq<Label>)
    requires Settled(p) && Restorable(p.auto)
    ensures Single.Leads(p, Single.LoadingState(p), steps, CheckpointedState(p)) && Liftable(steps, true)
  {
    var v := Single.SeenBack(p, Single.LoadingState(p));
    Single.NoSteps(p, CheckpointedState(p));
    Single.Prepend(p, v, Checkpoint, [], CheckpointedState(p));
    Single.SwitchesBack(p, Single.LoadingState(p), [Checkpoint] + [], CheckpointedState(p));
    steps := [BeginRestore, SwitchBack] + ([ReloadBack, ApplyReload] + ([SeeBack] + ([Checkpoint] + [])));
  }

  /** The first client waits for sync on the database host when its connection dies. */
  lemma FirstCheckpoints(p: Params, n: nat) returns (s: World)
    requires n >= 2 && Settled(p) && Restorable(p.auto) && !p.meaning(OFF)
    ensures Pair(s) && Comes(p, Start(p, n), s) && View(s, 0) == CheckpointedState(p) && Cut(s)
    ensures Free(s, 1) && s.members[1] == Member(NoClient, 0, false)
  {
    var a := FirstDisables(p, n);
    var steps := CheckpointsAlone(p);
    var b := HolderRuns(p, a, 0, steps, true, CheckpointedState(p));
    s := Loses(p, b, 0);
    Then(p, a, b, s);
    Then(p, Start(p, n), a, s);
  }

  /**
   * The fence cannot be weakened to "no restore after a refusal": a connection that dies while the
   * host syncs is enough, as neither the sync nor the unlink needs it.
   */
  lemma SlowSyncStrands(p: Params, n: nat) returns (steps: seq<Step>, s: World)
    requires n >= 2 && Settled(p) && Restorable(p.auto) && p.auto != Some(OFF) && !p.meaning(OFF)
    ensures Runs(p, Start(p, n), steps, s) && Unrefused(steps) && !Fenced(p, Start(p, n), steps)
    ensures s.journal.visible == Absent && s.server.auto == Some(OFF) && !TellsTheTruth(p, s)
  {
    var a := FirstCheckpoints(p, n);
    var b := SecondRecovers(p, a);
    Then(p, Start(p, n), a, b);
    var c := SecondSaves(p, b);
    Then(p, Start(p, n), b, c);
    var d := Next(p, c, Act(0, SyncHost));
    OneStep(p, c, Act(0, SyncHost));
    Then(p, Start(p, n), c, d);
    s := LosesJournal(p, d);
    Then(p, Start(p, n), d, s);
    steps :| Runs(p, Start(p, n), steps, s) && Unrefused(steps);
    NotFenced(p, n, steps, s);
  }
}
