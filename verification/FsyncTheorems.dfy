/** What the fsync journal guarantees over all runs, with crashes anywhere. */
module FsyncTheorems {
  import opened Wrappers
  import opened Collections
  import opened FsyncJournal

  predicate Reaches(p: Params, s: System, steps: seq<Label>) {
    Possible(p, Initial(p), steps) && After(p, Initial(p), steps) == s
  }

  lemma ReachableInv(p: Params, s: System, steps: seq<Label>)
    requires Reaches(p, s, steps)
    ensures Inv(p, s)
  {
    RunKeepsInv(p, Initial(p), steps);
  }

  /**
   * Without a complete journal, be it absent or torn, the server is as before the first run and
   * nothing written while fsync was off is unsynced. A complete journal holds the value from before.
   */
  lemma JournalTellsTheTruth(p: Params, s: System, steps: seq<Label>)
    requires Reaches(p, s, steps)
    ensures !s.journal.visible.Complete? ==> Untouched(p, s.server)
    ensures s.journal.visible.Complete? ==> Genuine(p, s.journal.visible.original)
    ensures s.journal.visible.Complete? && Settled(p) ==> s.journal.visible.original == First(p)
    ensures !Untouched(p, s.server) ==> Durable(s.journal)
  {
    ReachableInv(p, s, steps);
  }

  /** A crash of the client host at any moment leaves a journal that can restore a touched server. */
  lemma CrashKeepsJournal(p: Params, s: System, steps: seq<Label>, left: File)
    requires Reaches(p, s, steps) && Enabled(p, s, HostCrash(left))
    ensures Untouched(p, s.server) || (left.Complete? && Genuine(p, left.original))
  {
    ReachableInv(p, s, steps);
  }

  /** The labels of a run that are not the server's own. */
  function ClientSteps(steps: seq<Label>): seq<Label> {
    if steps == [] then [] else ClientStep(steps[0]) + ClientSteps(steps[1..])
  }

  function ClientStep(l: Label): seq<Label> {
    if OfEnvironment(l) then [] else [l]
  }

  predicate EndsWith(done: seq<Label>, tail: seq<Label>) {
    |tail| <= |done| && done[|done| - |tail|..] == tail
  }

  /** The client's latest actions at a point of the restore. */
  function Tail(pc: Pc): seq<Label> {
    match pc
    case SwitchedBack => [SwitchBack]
    case AwaitingBack => [SwitchBack, ReloadBack]
    case Back => [SwitchBack, ReloadBack, SeeBack]
    case Checkpointed => [SwitchBack, ReloadBack, SeeBack, Checkpoint]
    case Synced => [SwitchBack, ReloadBack, SeeBack, Checkpoint, SyncHost]
    case _ => []
  }

  lemma TailGrows(p: Params, s: System, l: Label)
    requires Enabled(p, s, l) && !OfEnvironment(l)
    ensures var tail := Tail(Do(p, s, l).client.pc); tail == [] || tail == Tail(s.client.pc) + [l]
  {
  }

  lemma EndsWithMore(done: seq<Label>, tail: seq<Label>, l: Label)
    requires EndsWith(done, tail)
    ensures EndsWith(done + [l], tail + [l]) && EndsWith(done + [l], [])
  {
    assert (done + [l])[|done| - |tail|..] == done[|done| - |tail|..] + [l];
  }

  /** One step adds its label, if it is the client's, and leaves the tail of its new point. */
  lemma TailStep(p: Params, s: System, l: Label, done: seq<Label>)
    requires Enabled(p, s, l) && EndsWith(done, Tail(s.client.pc))
    ensures EndsWith(done + ClientStep(l), Tail(Do(p, s, l).client.pc))
  {
    if OfEnvironment(l) {
      assert done + ClientStep(l) == done;
    } else {
      TailGrows(p, s, l);
      EndsWithMore(done, Tail(s.client.pc), l);
    }
  }

  lemma Regroup(a: seq<Label>, b: seq<Label>, c: seq<Label>)
    ensures a + b + c == a + (b + c)
  {
  }

  lemma {:induction false} TailOfRun(p: Params, s: System, steps: seq<Label>, done: seq<Label>)
    requires Possible(p, s, steps) && EndsWith(done, Tail(s.client.pc))
    ensures EndsWith(done + ClientSteps(steps), Tail(After(p, s, steps).client.pc))
    decreases |steps|
  {
    if steps == [] {
      assert done + [] == done;
    } else {
      TailStep(p, s, steps[0], done);
      TailOfRun(p, Do(p, s, steps[0]), steps[1..], done + ClientStep(steps[0]));
      Regroup(done, ClientStep(steps[0]), ClientSteps(steps[1..]));
    }
  }

  lemma TailOfWholeRun(p: Params, s: System, steps: seq<Label>)
    requires Reaches(p, s, steps)
    ensures EndsWith(ClientSteps(steps), Tail(s.client.pc))
  {
    TailOfRun(p, Initial(p), steps, []);
    assert [] + ClientSteps(steps) == ClientSteps(steps);
  }

  /**
   * The journal goes only when the server is untouched, and right after the client wrote the value
   * back, reloaded, saw it, checkpointed and synced, in this order and with nothing in between.
   */
  lemma UnlinkComesLast(p: Params, s: System, steps: seq<Label>)
    requires Reaches(p, s, steps) && Enabled(p, s, Unlink)
    ensures Untouched(p, s.server)
    ensures EndsWith(ClientSteps(steps), [SwitchBack, ReloadBack, SeeBack, Checkpoint, SyncHost])
  {
    ReachableInv(p, s, steps);
    TailOfWholeRun(p, s, steps);
  }

  // ---------------------------------------------------------------- recovery

  const RESTORE: seq<Label> :=
    [BeginRestore, SwitchBack, ReloadBack, ApplyReload, SeeBack, Checkpoint, SyncHost, Unlink, Finish]
  const RECOVERY: seq<Label> := [Open, FindJournal] + RESTORE
  const DISABLE: seq<Label> :=
    [Open, FindNothing, Capture, CreateFile, FillFile, SyncContent, SyncDirectory,
     MarkChanged, SwitchOff, ReloadOff, ApplyReload, SeeOff]

  const SERVER_ACTIVITY: set<Label> := {Modify, Evict, Restart, WriteBack}

  /** The server as every completed restore leaves it. */
  function Restored(p: Params): Server {
    Server(p.auto, Own(p), false, false, false)
  }

  /** The steps are possible from s and end in t. */
  ghost predicate Leads(p: Params, s: System, steps: seq<Label>, t: System) {
    Possible(p, s, steps) && After(p, s, steps) == t
  }

  lemma NoSteps(p: Params, s: System)
    ensures Leads(p, s, [], s)
  {
  }

  lemma Prepend(p: Params, s: System, l: Label, rest: seq<Label>, t: System)
    requires Enabled(p, s, l) && Leads(p, Do(p, s, l), rest, t)
    ensures Leads(p, s, [l] + rest, t)
  {
    assert ([l] + rest)[1..] == rest;
  }

  lemma Two(p: Params, s: System, k: Label, l: Label, rest: seq<Label>, t: System)
    requires Enabled(p, s, k) && Enabled(p, Do(p, s, k), l)
    requires Leads(p, Do(p, Do(p, s, k), l), rest, t)
    ensures Leads(p, s, [k, l] + rest, t)
  {
    Prepend(p, Do(p, s, k), l, rest, t);
    Prepend(p, s, k, [l] + rest, t);
    assert [k] + ([l] + rest) == [k, l] + rest;
  }

  lemma {:induction false} Chain(p: Params, s: System, one: seq<Label>, two: seq<Label>)
    requires Possible(p, s, one) && Possible(p, After(p, s, one), two)
    ensures Possible(p, s, one + two)
    ensures After(p, s, one + two) == After(p, After(p, s, one), two)
    decreases |one|
  {
    if one == [] {
      assert one + two == two;
    } else {
      assert (one + two)[1..] == one[1..] + two;
      Chain(p, Do(p, s, one[0]), one[1..], two);
    }
  }

  /** A restore that switches the value back, reloads and sees it. */
  lemma SwitchesBack(p: Params, s: System, rest: seq<Label>, t: System)
    requires Enabled(p, s, BeginRestore) && Returns(p, s.client.original) && s.client.original.value.fsync == Own(p)
    requires Leads(p, SeenBack(p, s), rest, t)
    ensures Leads(p, s, [BeginRestore, SwitchBack] + ([ReloadBack, ApplyReload] + ([SeeBack] + rest)), t)
  {
    var s2 := Do(p, Do(p, s, BeginRestore), SwitchBack);
    var s4 := Do(p, Do(p, s2, ReloadBack), ApplyReload);
    Prepend(p, s4, SeeBack, rest, t);
    Two(p, s2, ReloadBack, ApplyReload, [SeeBack] + rest, t);
    Two(p, s, BeginRestore, SwitchBack, [ReloadBack, ApplyReload] + ([SeeBack] + rest), t);
  }

  /** The client knows a genuine original that restore is willing to write back. */
  predicate Returns(p: Params, original: Option<Original>) {
    original.Some? && Genuine(p, original.value) && Restorable(p.auto)
  }

  function SeenBack(p: Params, s: System): System {
    s.(server := s.server.(auto := p.auto, effective := Own(p), reloading := false),
       client := s.client.(pc := Back))
  }

  function Cleaned(s: System): System {
    System(s.server.(buffers := false, kernel := false), s.journal.(visible := Absent),
      s.client.(pc := Ready, changed := false))
  }

  lemma CleansUp(p: Params, s: System)
    requires s.client.pc == Back && s.journal.visible != Absent
    ensures Leads(p, s, [Checkpoint, SyncHost] + ([Unlink, Finish] + []), Cleaned(s))
  {
    var s2 := Do(p, Do(p, s, Checkpoint), SyncHost);
    NoSteps(p, Cleaned(s));
    Two(p, s2, Unlink, Finish, [], Cleaned(s));
    Two(p, s, Checkpoint, SyncHost, [Unlink, Finish] + [], Cleaned(s));
  }

  function Finished(p: Params, s: System): System {
    System(Restored(p), s.journal.(visible := Absent), s.client.(pc := Ready, changed := false))
  }

  /** One uninterrupted restore, from any point at which the client knows the configured original. */
  lemma RestoreCompletes(p: Params, s: System)
    requires Enabled(p, s, BeginRestore) && s.journal.visible != Absent
    requires Returns(p, s.client.original) && s.client.original.value.fsync == Own(p)
    ensures Leads(p, s, RESTORE, Finished(p, s))
  {
    var cleanup := [Checkpoint, SyncHost] + ([Unlink, Finish] + []);
    CleansUp(p, SeenBack(p, s));
    SwitchesBack(p, s, cleanup, Finished(p, s));
    assert [BeginRestore, SwitchBack] + ([ReloadBack, ApplyReload] + ([SeeBack] + cleanup)) == RESTORE;
  }

  function Recovered(p: Params, s: System): System
    requires s.journal.visible.Complete?
  {
    System(Restored(p), s.journal.(visible := Absent), Client(Ready, Some(s.journal.visible.original), false))
  }

  /** The client has found the pending journal. */
  function FoundState(s: System): System
    requires s.journal.visible.Complete?
  {
    s.(client := Client(Restoring, Some(s.journal.visible.original), true))
  }

  /** From any crash point with a complete journal, one uninterrupted open restores the server. */
  lemma RecoveryCompletes(p: Params, s: System)
    requires s.client.pc == Down && s.journal.visible.Complete?
    requires Returns(p, Some(s.journal.visible.original)) && s.journal.visible.original.fsync == Own(p)
    ensures Leads(p, s, RECOVERY, Recovered(p, s))
  {
    RestoreCompletes(p, FoundState(s));
    FindsJournal(p, s, RESTORE, Finished(p, FoundState(s)));
  }

  lemma FindsJournal(p: Params, s: System, rest: seq<Label>, t: System)
    requires s.client.pc == Down && s.journal.visible.Complete?
    requires Leads(p, FoundState(s), rest, t)
    ensures Leads(p, s, [Open, FindJournal] + rest, t)
  {
    Two(p, s, Open, FindJournal, rest, t);
  }

  /** The server shows the original already, so that the poll may see it before the reload. */
  lemma QuickRestoreCompletes(p: Params, s: System)
    requires s.client.pc == Restoring && s.client.changed && s.journal.visible != Absent
    requires Returns(p, s.client.original) && s.client.original.value.fsync == s.server.effective
    ensures Leads(p, s, [SwitchBack, ReloadBack] + ([SeeBack] + ([Checkpoint, SyncHost] + ([Unlink, Finish] + []))),
      Cleaned(s.(server := s.server.(auto := p.auto, reloading := true))))
  {
    var cleanup := [Checkpoint, SyncHost] + ([Unlink, Finish] + []);
    var s2 := Do(p, Do(p, s, SwitchBack), ReloadBack);
    var back := Do(p, s2, SeeBack);
    CleansUp(p, back);
    Prepend(p, s2, SeeBack, cleanup, Cleaned(back));
    Two(p, s, SwitchBack, ReloadBack, [SeeBack] + cleanup, Cleaned(back));
  }

  function SwitchedOffState(p: Params): System {
    System(
      Server(Some(OFF), p.effective, false, false, false),
      Journal(Complete(First(p)), Complete(First(p)), true),
      Client(SwitchedOff, Some(First(p)), true))
  }

  /** The client holds the journal and fsync is off: data is being loaded. */
  function LoadingState(p: Params): System {
    System(
      Server(Some(OFF), false, false, false, false),
      Journal(Complete(First(p)), Complete(First(p)), true),
      Client(Loading, Some(First(p)), true))
  }

  /** The client has read the original, and its journal file is empty. */
  function CreatedState(p: Params): System {
    System(Initial(p).server, Journal(Torn, Absent, false), Client(Created, Some(First(p)), false))
  }

  /** The client has written and synced the journal content. */
  function WrittenState(p: Params): System {
    System(
      Initial(p).server,
      Journal(Complete(First(p)), Absent, true),
      Client(ContentSynced, Some(First(p)), false))
  }

  lemma FillsJournal(p: Params, rest: seq<Label>, t: System)
    requires Leads(p, WrittenState(p), rest, t)
    ensures Leads(p, CreatedState(p), [FillFile, SyncContent] + rest, t)
  {
    Two(p, CreatedState(p), FillFile, SyncContent, rest, t);
  }

  lemma CreatesJournal(p: Params, rest: seq<Label>, t: System)
    requires Leads(p, CreatedState(p), rest, t)
    ensures Leads(p, Initial(p), [Open, FindNothing] + ([Capture, CreateFile] + rest), t)
  {
    var ready := Do(p, Do(p, Initial(p), Open), FindNothing);
    Two(p, ready, Capture, CreateFile, rest, t);
    Two(p, Initial(p), Open, FindNothing, [Capture, CreateFile] + rest, t);
  }

  lemma SavesJournal(p: Params, rest: seq<Label>, t: System)
    requires Leads(p, SwitchedOffState(p), rest, t)
    ensures Leads(p, WrittenState(p), [SyncDirectory, MarkChanged] + ([SwitchOff] + rest), t)
  {
    var s2 := Do(p, Do(p, WrittenState(p), SyncDirectory), MarkChanged);
    Prepend(p, s2, SwitchOff, rest, t);
    Two(p, WrittenState(p), SyncDirectory, MarkChanged, [SwitchOff] + rest, t);
  }

  lemma ReloadsOff(p: Params)
    requires !p.meaning(OFF)
    ensures Leads(p, SwitchedOffState(p), [ReloadOff, ApplyReload] + ([SeeOff] + []), LoadingState(p))
  {
    var t := LoadingState(p);
    var s2 := Do(p, Do(p, SwitchedOffState(p), ReloadOff), ApplyReload);
    NoSteps(p, t);
    Prepend(p, s2, SeeOff, [], t);
    Two(p, SwitchedOffState(p), ReloadOff, ApplyReload, [SeeOff] + [], t);
  }

  /** open and disable, with a reload that the server applies at once. */
  lemma DisableCompletes(p: Params)
    requires !p.meaning(OFF)
    ensures Leads(p, Initial(p), DISABLE, LoadingState(p))
  {
    var reload := [ReloadOff, ApplyReload] + ([SeeOff] + []);
    var save := [SyncDirectory, MarkChanged] + ([SwitchOff] + reload);
    ReloadsOff(p);
    SavesJournal(p, reload, LoadingState(p));
    FillsJournal(p, save, LoadingState(p));
    CreatesJournal(p, [FillFile, SyncContent] + save, LoadingState(p));
    assert [Open, FindNothing] + ([Capture, CreateFile] + ([FillFile, SyncContent] + save)) == DISABLE;
  }

  /** A run that nothing interrupts, with any server activity while the data is loaded. */
  lemma UninterruptedRun(p: Params, load: seq<Label>)
    requires Restorable(p.auto) && Settled(p) && !p.meaning(OFF)
    requires forall l :: l in load ==> l in SERVER_ACTIVITY
    ensures Possible(p, Initial(p), DISABLE + load + RESTORE)
    ensures After(p, Initial(p), DISABLE + load + RESTORE).server == Restored(p)
  {
    DisableCompletes(p);
    LoadsAndRestores(p, DISABLE, load, RESTORE);
  }

  lemma LoadsAndRestores(p: Params, disable: seq<Label>, load: seq<Label>, restore: seq<Label>)
    requires Leads(p, Initial(p), disable, LoadingState(p)) && restore == RESTORE && Restorable(p.auto) && Settled(p)
    requires forall l :: l in load ==> l in SERVER_ACTIVITY
    ensures Possible(p, Initial(p), disable + load + restore)
    ensures After(p, Initial(p), disable + load + restore).server == Restored(p)
  {
    RunKeepsInv(p, Initial(p), disable);
    LoadThenRestore(p, LoadingState(p), load, restore);
    Chain(p, Initial(p), disable, load + restore);
    assert disable + (load + restore) == disable + load + restore;
  }

  lemma LoadThenRestore(p: Params, s: System, load: seq<Label>, restore: seq<Label>)
    requires restore == RESTORE && Inv(p, s) && s.client.pc == Loading && Restorable(p.auto) && Settled(p)
    requires forall l :: l in load ==> l in SERVER_ACTIVITY
    ensures Possible(p, s, load + restore) && After(p, s, load + restore).server == Restored(p)
  {
    LoadStays(p, s, load);
    RunKeepsInv(p, s, load);
    RestoreCompletes(p, After(p, s, load));
    Chain(p, s, load, restore);
  }

  lemma {:induction false} LoadStays(p: Params, s: System, load: seq<Label>)
    requires s.client.pc == Loading && s.client.changed
    requires forall l :: l in load ==> l in SERVER_ACTIVITY
    ensures Possible(p, s, load)
    ensures After(p, s, load).client == s.client
    decreases |load|
  {
    if load != [] {
      assert load[0] in load;
      LoadStays(p, Do(p, s, load[0]), load[1..]);
    }
  }

  /**
   * Recovery is idempotent and ends where an uninterrupted run ends; afterwards the next open
   * finds no journal and leaves the server as it is.
   */
  lemma RecoveryEqualsUninterruptedRun(p: Params, s: System, steps: seq<Label>, load: seq<Label>)
    requires Reaches(p, s, steps) && Restorable(p.auto) && Settled(p) && !p.meaning(OFF)
    requires s.client.pc == Down && s.journal.visible.Complete?
    requires forall l :: l in load ==> l in SERVER_ACTIVITY
    ensures Possible(p, s, RECOVERY) && Possible(p, Initial(p), DISABLE + load + RESTORE)
    ensures After(p, s, RECOVERY).server == After(p, Initial(p), DISABLE + load + RESTORE).server
    ensures Leads(p, After(p, s, RECOVERY), [Disconnect, Open] + ([FindNothing] + []),
      After(p, s, RECOVERY).(client := Client(Ready, None, false)))
  {
    ReachableInv(p, s, steps);
    RecoveryCompletes(p, s);
    UninterruptedRun(p, load);
    var t := Recovered(p, s);
    NextOpenFindsNothing(p, t);
  }

  lemma NextOpenFindsNothing(p: Params, s: System)
    requires s.client.pc == Ready && s.journal.visible == Absent
    ensures Leads(p, s, [Disconnect, Open] + ([FindNothing] + []), s.(client := Client(Ready, None, false)))
  {
    var end := s.(client := Client(Ready, None, false));
    NoSteps(p, end);
    Prepend(p, Do(p, Do(p, s, Disconnect), Open), FindNothing, [], end);
    Two(p, s, Disconnect, Open, [FindNothing] + [], end);
  }

  // ---------------------------------------------------------------- when recovery is possible

  /** Some further run brings the server back and removes the journal. */
  ghost predicate Recoverable(p: Params, s: System) {
    exists more :: Possible(p, s, more) && BackToStart(p, After(p, s, more))
  }

  predicate BackToStart(p: Params, s: System) {
    Untouched(p, s.server) && s.journal.visible == Absent
  }

  /** A server on which a restore can still see the original value. */
  predicate CanShow(p: Params, server: Server, original: Original) {
    || original.fsync == Own(p)
    || original.fsync == server.effective
    || (!original.fsync && server.auto == Some(OFF))
  }

  /** With this journal file the next open succeeds, or can be made to. */
  predicate Helps(p: Params, server: Server, file: File) {
    match file
    case Absent => true
    case Torn => false
    case Complete(original) => Restorable(p.auto) && CanShow(p, server, original)
  }

  lemma VisibleHelps(p: Params, s: System)
    requires Inv(p, s) && s.client.pc == Down && !p.meaning(OFF) && Helps(p, s.server, s.journal.visible)
    ensures Recoverable(p, s)
  {
    if s.journal.visible == Absent {
      NoSteps(p, s);
    } else {
      var original := s.journal.visible.original;
      if original.fsync == Own(p) {
        RecoveryCompletes(p, s);
        assert BackToStart(p, After(p, s, RECOVERY));
      } else if original.fsync == s.server.effective {
        var more := QuickRecovery(p, s);
      } else {
        var more := QuickRecovery(p, Do(p, s, Restart));
        Prepend(p, s, Restart, more, After(p, Do(p, s, Restart), more));
      }
    }
  }

  /** What the directory holds on disk can help as well: a crash of the client host brings it back. */
  lemma DurableHelps(p: Params, s: System)
    requires Inv(p, s) && s.client.pc == Down && !p.meaning(OFF) && Helps(p, s.server, s.journal.durable)
    ensures Recoverable(p, s)
  {
    var l := HostCrash(s.journal.durable);
    StepKeepsInv(p, s, l);
    VisibleHelps(p, Do(p, s, l));
    var more :| Possible(p, Do(p, s, l), more) && BackToStart(p, After(p, Do(p, s, l), more));
    Prepend(p, s, l, more, After(p, Do(p, s, l), more));
  }

  lemma QuickRecovery(p: Params, s: System) returns (more: seq<Label>)
    requires s.client.pc == Down && s.journal.visible.Complete? && Returns(p, Some(s.journal.visible.original))
    requires s.journal.visible.original.fsync == s.server.effective
    ensures Possible(p, s, more) && BackToStart(p, After(p, s, more))
  {
    var found := FoundState(s);
    more := [SwitchBack, ReloadBack] + ([SeeBack] + ([Checkpoint, SyncHost] + ([Unlink, Finish] + [])));
    QuickRestoreCompletes(p, found);
    FindsJournal(p, s, more, After(p, found, more));
    more := [Open, FindJournal] + more;
  }

  predicate Hopeless(p: Params, server: Server, file: File) {
    !Helps(p, server, file) && (file.Complete? ==> file.original.auto == p.auto)
  }

  /** Some journal stays, and no restore comes further than waiting for the value. */
  predicate Stuck(p: Params, s: System) {
    && Hopeless(p, s.server, s.journal.visible) && Hopeless(p, s.server, s.journal.durable)
    && s.server.auto in {p.auto, Some(OFF)}
    && s.client.pc in {Down, Opening, Restoring, SwitchedBack, AwaitingBack}
    && (!Restorable(p.auto) ==> s.client.pc !in {SwitchedBack, AwaitingBack})
    && if s.client.pc in {Down, Opening} then !s.client.changed
       else s.client.original.Some? && Hopeless(p, s.server, Complete(s.client.original.value))
  }

  lemma StaysHopeless(p: Params, s: System, l: Label, file: File)
    requires Stuck(p, s) && Enabled(p, s, l) && !p.meaning(OFF) && Hopeless(p, s.server, file)
    ensures Hopeless(p, Do(p, s, l).server, file)
  {
    if Restorable(p.auto) && file.Complete? {
      var t := Do(p, s, l);
      assert t.server.auto in {s.server.auto, p.auto} && t.server.effective in {s.server.effective, Own(p)};
    }
  }

  lemma StuckStep(p: Params, s: System, l: Label)
    requires Stuck(p, s) && Enabled(p, s, l) && !p.meaning(OFF)
    ensures Stuck(p, Do(p, s, l))
  {
    StaysHopeless(p, s, l, s.journal.visible);
    StaysHopeless(p, s, l, s.journal.durable);
    StaysHopeless(p, s, l, Torn);
    if s.client.original.Some? && s.client.pc !in {Down, Opening} {
      StaysHopeless(p, s, l, Complete(s.client.original.value));
    }
  }

  lemma {:induction false} StaysStuck(p: Params, s: System, steps: seq<Label>)
    requires Stuck(p, s) && Possible(p, s, steps) && !p.meaning(OFF)
    ensures Stuck(p, After(p, s, steps))
    decreases |steps|
  {
    if steps != [] {
      StuckStep(p, s, steps[0]);
      StaysStuck(p, Do(p, s, steps[0]), steps[1..]);
    }
  }

  /**
   * Whenever the client is gone, the run can be brought back exactly when the journal file it left,
   * or the one that a crash of its host would leave, is absent, or complete with a text that
   * restore accepts and a value that the server can still show. A torn file never helps.
   */
  lemma RecoverableExactlyWhen(p: Params, s: System, steps: seq<Label>)
    requires Reaches(p, s, steps) && s.client.pc == Down && !p.meaning(OFF)
    ensures Recoverable(p, s) <==> Helps(p, s.server, s.journal.visible) || Helps(p, s.server, s.journal.durable)
  {
    ReachableInv(p, s, steps);
    if Helps(p, s.server, s.journal.visible) {
      VisibleHelps(p, s);
    } else if Helps(p, s.server, s.journal.durable) {
      DurableHelps(p, s);
    } else {
      forall more | Possible(p, s, more) ensures !BackToStart(p, After(p, s, more)) {
        StaysStuck(p, s, more);
      }
    }
  }

  // ---------------------------------------------------------------- torn journals

  /** A torn journal that a crash of the host would not remove either. */
  predicate DurablyTorn(s: System) {
    s.journal.visible == Torn && s.journal.durable == Torn
  }

  lemma {:induction false} TornStays(p: Params, s: System, steps: seq<Label>)
    requires DurablyTorn(s) && s.client.pc in {Down, Opening} && !s.client.changed && Possible(p, s, steps)
    ensures var t := After(p, s, steps); DurablyTorn(t) && t.client.pc in {Down, Opening}
    decreases |steps|
  {
    if steps != [] {
      TornStays(p, Do(p, s, steps[0]), steps[1..]);
    }
  }

  /** A durably torn journal blocks every later open for ever, and the server is untouched. */
  lemma TornBlocks(p: Params, s: System, steps: seq<Label>, more: seq<Label>)
    requires Reaches(p, s, steps) && s.client.pc == Down && DurablyTorn(s) && Possible(p, s, more)
    ensures Untouched(p, s.server)
    ensures DurablyTorn(After(p, s, more)) && After(p, s, more).client.pc in {Down, Opening}
  {
    ReachableInv(p, s, steps);
    TornStays(p, s, more);
  }

  /** Every configuration has such a run: a crash between creating the file and filling it. */
  lemma TornRun(p: Params) returns (steps: seq<Label>, s: System)
    ensures Reaches(p, s, steps) && s.client.pc == Down && DurablyTorn(s)
  {
    var created := CreatedState(p);
    s := created.(journal := Journal(Torn, Torn, true), client := NoClient);
    NoSteps(p, s);
    Two(p, created, WriteBack, Disconnect, [], s);
    CreatesJournal(p, [WriteBack, Disconnect] + [], s);
    steps := [Open, FindNothing] + ([Capture, CreateFile] + ([WriteBack, Disconnect] + []));
  }

  // ---------------------------------------------------------------- complete journals

  /** The client is gone and left a complete journal. */
  predicate Interrupted(s: System) {
    s.client.pc == Down && s.journal.visible.Complete?
  }

  lemma DisableIsPlain()
    ensures forall l :: l in DISABLE ==> !l.HostCrash? && !l.Restart? && !l.Unlink?
  {
  }

  lemma DisableRun(p: Params) returns (disable: seq<Label>)
    requires !p.meaning(OFF)
    ensures Leads(p, Initial(p), disable, LoadingState(p))
    ensures forall l :: l in disable ==> !l.HostCrash? && !l.Restart? && !l.Unlink?
  {
    disable := DISABLE;
    DisableCompletes(p);
    DisableIsPlain();
  }

  lemma Joined(p: Params, disable: seq<Label>, tail: seq<Label>, s: System) returns (steps: seq<Label>)
    requires Leads(p, Initial(p), disable, LoadingState(p)) && Leads(p, LoadingState(p), tail, s)
    ensures Reaches(p, s, steps)
  {
    Chain(p, Initial(p), disable, tail);
    steps := disable + tail;
  }

  /** A crash while the data is loaded. */
  lemma CrashWhileLoading(p: Params) returns (steps: seq<Label>, s: System)
    requires !p.meaning(OFF)
    ensures Reaches(p, s, steps) && s == LoadingState(p).(client := NoClient)
  {
    var disable := DisableRun(p);
    s := LoadingState(p).(client := NoClient);
    NoSteps(p, s);
    Prepend(p, LoadingState(p), Disconnect, [], s);
    steps := Joined(p, disable, [Disconnect] + [], s);
  }

  function ReloadedState(p: Params): System {
    System(
      Server(p.auto, Own(p), false, false, false),
      Journal(Complete(First(p)), Complete(First(p)), true),
      Client(AwaitingBack, Some(First(p)), true))
  }

  lemma ReloadsBack(p: Params, rest: seq<Label>, t: System)
    requires Restorable(p.auto) && Leads(p, ReloadedState(p), rest, t)
    ensures Leads(p, LoadingState(p), [BeginRestore, SwitchBack] + ([ReloadBack, ApplyReload] + rest), t)
  {
    var s2 := Do(p, Do(p, LoadingState(p), BeginRestore), SwitchBack);
    Two(p, s2, ReloadBack, ApplyReload, rest, t);
    Two(p, LoadingState(p), BeginRestore, SwitchBack, [ReloadBack, ApplyReload] + rest, t);
  }

  /** A crash during a restore, just after a reload has put the configured value into effect. */
  lemma CrashAfterReload(p: Params) returns (steps: seq<Label>, s: System)
    requires Restorable(p.auto) && !p.meaning(OFF)
    ensures Reaches(p, s, steps) && s == ReloadedState(p).(client := NoClient)
  {
    var disable := DisableRun(p);
    s := ReloadedState(p).(client := NoClient);
    NoSteps(p, s);
    Prepend(p, ReloadedState(p), Disconnect, [], s);
    ReloadsBack(p, [Disconnect] + [], s);
    var tail := [BeginRestore, SwitchBack] + ([ReloadBack, ApplyReload] + ([Disconnect] + []));
    steps := Joined(p, disable, tail, s);
  }

  ghost predicate AlwaysRecoverable(p: Params) {
    forall s, steps :: Reaches(p, s, steps) && Interrupted(s) ==> Recoverable(p, s)
  }

  /** An input that fails: an unlisted text, or an edit of auto.conf that was not reloaded. */
  lemma StrandedRun(p: Params) returns (steps: seq<Label>, s: System)
    requires !p.meaning(OFF) && !(Restorable(p.auto) && Settled(p))
    ensures Reaches(p, s, steps) && Interrupted(s) && !Recoverable(p, s)
  {
    if Restorable(p.auto) && !p.effective {
      steps, s := CrashAfterReload(p);
    } else {
      steps, s := CrashWhileLoading(p);
    }
    assert s.journal.visible == Complete(First(p)) && s.journal.durable == Complete(First(p));
    assert Restorable(p.auto) ==> !CanShow(p, s.server, First(p));
    RecoverableExactlyWhen(p, s, steps);
  }

  /** PostgreSQL reads 't' as true, but it is not one of the listed texts. */
  lemma StrandedByLetter(p: Params) returns (steps: seq<Label>, s: System)
    requires p.auto == Some("t") && !p.meaning(OFF)
    ensures Reaches(p, s, steps) && Interrupted(s) && !Recoverable(p, s)
  {
    assert |Lower("t")| == 1 && Lower("t")[0] == 't';
    steps, s := StrandedRun(p);
  }

  /**
   * Every interrupted run can be brought back if and only if auto.conf held no fsync or a listed
   * text, and no edit of it was waiting for a reload: both can be checked before the first run.
   */
  lemma AlwaysRecoverableExactlyWhen(p: Params)
    requires !p.meaning(OFF)
    ensures AlwaysRecoverable(p) <==> Restorable(p.auto) && Settled(p)
  {
    if Restorable(p.auto) && Settled(p) {
      forall s, steps | Reaches(p, s, steps) && Interrupted(s) ensures Recoverable(p, s) {
        JournalTellsTheTruth(p, s, steps);
        RecoverableExactlyWhen(p, s, steps);
      }
    } else {
      var steps, s := StrandedRun(p);
    }
  }
}
