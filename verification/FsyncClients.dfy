/**
 * Several clients of the fsync journal under the benchmark lock: the machine of FsyncJournal for
 * every client, composed with the machine of BenchmarkLock, on one server and one journal file.
 */
module FsyncClients {
  import opened Wrappers
  import Lock = BenchmarkLock
  import opened FsyncJournal

  /**
   * fd is the file that the client created last. A client is refused when its restore reconnected
   * and could not acquire the lock again; its new connection stays open.
   */
  datatype Member = Member(client: Client, fd: nat, refused: bool)

  /** file counts the journal files that were created or removed; it names the present one. */
  datatype World = World(lock: Lock.State, server: Server, journal: Journal, file: nat, members: seq<Member>)

  datatype Step =
    | OfLock(lock: Lock.Label)
    | Act(who: nat, action: Label)
    | Refuse(who: nat)
    | Crash(left: File)

  function Start(p: Params, n: nat): World {
    World(Lock.Initial(n), Initial(p).server, Initial(p).journal, 0, seq(n, _ => Member(NoClient, 0, false)))
  }

  predicate Shaped(s: World) {
    |s.lock.controllers| == |s.members|
  }

  function View(s: World, i: nat): System
    requires i < |s.members|
  {
    System(s.server, s.journal, s.members[i].client)
  }

  predicate Holds(s: World, i: nat)
    requires Shaped(s) && i < |s.members|
  {
    Lock.Owns(s.lock, i)
  }

  predicate Connected(s: World, i: nat)
    requires Shaped(s) && i < |s.members|
  {
    Lock.HasBackend(s.lock, i)
  }

  /** open and the reconnecting restore are the only places that connect and acquire. */
  predicate LockAllowed(s: World, l: Lock.Label)
    requires Shaped(s)
  {
    Lock.OfController(l) && l.who < |s.members| ==>
      var pc := s.members[l.who].client.pc;
      match l
      case Connect(i, _) => pc == Down || (pc == Restoring && !Connected(s, i))
      case TryLock(i) => pc in {Down, Restoring} && !s.members[i].refused
      case CrossCheck(i) => pc in {Down, Restoring} && !s.members[i].refused
      case Release(i) => pc == Down || !Connected(s, i)
      case Vanish(i) => pc == Down
      case _ => true
  }

  /** What a client's action needs of its connection; actions on files and on the host need none. */
  predicate Permitted(s: World, i: nat, l: Label)
    requires Shaped(s) && i < |s.members|
  {
    var owner := Connected(s, i) && s.lock.controllers[i].phase == Lock.Owner;
    match l
    case Open => owner
    case Capture => owner
    case SwitchOff => owner
    case ReloadOff => owner
    case SeeOff => owner
    case SwitchBack => owner || (Connected(s, i) && s.members[i].refused)
    case ReloadBack => owner || (Connected(s, i) && s.members[i].refused)
    case SeeBack => owner || (Connected(s, i) && s.members[i].refused)
    case Checkpoint => owner || (Connected(s, i) && s.members[i].refused)
    case Restart => false
    case HostCrash(_) => false
    case _ => true
  }

  /**
   * The acquisition that a restore attempts fails over a connection that stays open: the lock is
   * taken, or one of its two queries fails.
   */
  predicate Refusing(s: World, i: nat)
    requires Shaped(s) && i < |s.members|
  {
    && s.members[i].client.pc == Restoring && Connected(s, i)
    && s.lock.controllers[i].phase in {Lock.Connected, Lock.Locked}
  }

  predicate CanHappen(p: Params, s: World, step: Step)
    requires Shaped(s)
  {
    match step
    case OfLock(l) => Lock.Enabled(s.lock, l) && LockAllowed(s, l)
    case Act(i, l) => i < |s.members| && Enabled(p, View(s, i), l) && Permitted(s, i, l)
    case Refuse(i) => i < |s.members| && Refusing(s, i)
    case Crash(left) => Enabled(p, System(s.server, s.journal, NoClient), HostCrash(left))
  }

  function Restarted(p: Params, server: Server): Server {
    server.(effective := Configured(p, server.auto), reloading := false)
  }

  predicate Restarts(l: Lock.Label) {
    l.UnplannedRestart? || l.PlannedRestart?
  }

  /** Writing and syncing a file that is no longer the journal leaves the journal alone. */
  predicate Elsewhere(s: World, i: nat, l: Label)
    requires i < |s.members|
  {
    (l.FillFile? || l.SyncContent?) && s.members[i].fd != s.file
  }

  function NextFile(s: World, l: Label): nat {
    if l.CreateFile? || l.Unlink? then s.file + 1 else s.file
  }

  function NextMember(s: World, i: nat, l: Label, client: Client): Member
    requires i < |s.members|
  {
    s.members[i].(client := client, fd := if l.CreateFile? then s.file + 1 else s.members[i].fd)
  }

  function DoAct(p: Params, s: World, i: nat, l: Label): (t: World)
    requires Shaped(s) && i < |s.members| && Enabled(p, View(s, i), l)
    ensures Shaped(t)
  {
    var v := Do(p, View(s, i), l);
    World(s.lock, v.server, if Elsewhere(s, i, l) then s.journal else v.journal, NextFile(s, l),
      s.members[i := NextMember(s, i, l, v.client)])
  }

  function Next(p: Params, s: World, step: Step): (t: World)
    requires Shaped(s) && CanHappen(p, s, step)
    ensures Shaped(t)
  {
    match step
    case OfLock(l) =>
      var members :=
        if l.Connect? then s.members[l.who := s.members[l.who].(refused := false)] else s.members;
      World(Lock.Do(s.lock, l), if Restarts(l) then Restarted(p, s.server) else s.server, s.journal, s.file, members)
    case Act(i, l) => DoAct(p, s, i, l)
    case Refuse(i) => s.(members := s.members[i := s.members[i].(refused := true)])
    case Crash(left) =>
      s.(journal := Journal(left, left, true), file := s.file + 1,
         members := seq(|s.members|, _ => Member(NoClient, 0, false)))
  }

  /** The steps can happen one after the other and end in t. */
  ghost predicate Runs(p: Params, s: World, steps: seq<Step>, t: World)
    requires Shaped(s)
    decreases |steps|
  {
    if steps == [] then s == t
    else CanHappen(p, s, steps[0]) && Runs(p, Next(p, s, steps[0]), steps[1..], t)
  }

  /** Every journal is unlinked by the client that holds the lock at that moment. */
  ghost predicate Fenced(p: Params, s: World, steps: seq<Step>)
    requires Shaped(s)
    decreases |steps|
  {
    steps != [] && CanHappen(p, s, steps[0]) ==>
      && (steps[0].Act? && steps[0].action.Unlink? ==> Holds(s, steps[0].who))
      && Fenced(p, Next(p, s, steps[0]), steps[1..])
  }

  /** A client that holds the lock and counts on its journal file, saved or about to be saved. */
  predicate Relies(s: World, j: nat)
    requires Shaped(s) && j < |s.members|
  {
    Holds(s, j) && s.members[j].client.pc in {Created, Filled, ContentSynced, Saved, Marked}
  }

  /** An unlink that removes nothing anybody needs. */
  predicate Harmless(p: Params, s: World, i: nat)
    requires Shaped(s)
  {
    Untouched(p, s.server) && forall j :: 0 <= j < |s.members| && j != i ==> !Relies(s, j)
  }

  /** Every unlink is harmless when it happens. */
  ghost predicate Guarded(p: Params, s: World, steps: seq<Step>)
    requires Shaped(s)
    decreases |steps|
  {
    steps != [] && CanHappen(p, s, steps[0]) ==>
      && (steps[0].Act? && steps[0].action.Unlink? ==> Harmless(p, s, steps[0].who))
      && Guarded(p, Next(p, s, steps[0]), steps[1..])
  }

  // ---------------------------------------------------------------- the invariant of guarded runs

  predicate FileOk(s: World, m: Member) {
    && m.fd <= s.file
    && (m.client.pc in {Created, Filled, ContentSynced} ==> m.fd > 0)
    && (m.client.pc == Created && m.fd == s.file ==> s.journal.visible == Torn)
  }

  predicate OwnFile(s: World, m: Member) {
    match m.client.pc
    case Created => m.fd == s.file
    case Filled => m.fd == s.file && s.journal.visible.Complete?
    case ContentSynced => m.fd == s.file && s.journal.visible.Complete? && s.journal.contentSafe
    case Saved => Durable(s.journal)
    case Marked => Durable(s.journal)
    case _ => true
  }

  /** How far the holder of the lock has come. */
  predicate HolderOk(p: Params, s: World, m: Member) {
    && (UntouchedAt(m.client.pc) ==> Untouched(p, s.server))
    && OwnFile(s, m)
    && ServerAt(p, s.server, m.client.pc)
  }

  predicate MemberOk(p: Params, s: World, i: nat)
    requires Shaped(s) && i < |s.members|
  {
    MemoryOk(p, s.members[i].client) && FileOk(s, s.members[i]) && (Holds(s, i) ==> HolderOk(p, s, s.members[i]))
  }

  predicate FilesApart(s: World) {
    forall i, j :: 0 <= i < j < |s.members| ==> s.members[i].fd != s.members[j].fd || s.members[i].fd == 0
  }

  ghost predicate WorldInv(p: Params, s: World) {
    && Shaped(s) && Lock.Inv(s.lock)
    && SharedOk(p, s.server, s.journal) && FilesApart(s)
    && forall i :: 0 <= i < |s.members| ==> MemberOk(p, s, i)
  }

  lemma StartInv(p: Params, n: nat)
    ensures WorldInv(p, Start(p, n))
  {
  }

  lemma PermittedHolds(s: World, i: nat)
    requires Shaped(s) && i < |s.members| && Lock.Inv(s.lock)
    requires Connected(s, i) && s.lock.controllers[i].phase == Lock.Owner
    ensures Holds(s, i)
  {
  }

  // ---------------------------------------------------------------- one action of one client

  lemma OnlyOneHolds(s: World, i: nat, j: nat)
    requires Shaped(s) && Lock.Inv(s.lock) && i < |s.members| && j < |s.members| && i != j
    ensures !(Holds(s, i) && Holds(s, j))
  {
  }

  lemma DifferentFiles(s: World, i: nat, j: nat)
    requires FilesApart(s) && i < |s.members| && j < |s.members| && i != j
    ensures s.members[i].fd != s.members[j].fd || s.members[i].fd == 0
  {
  }

  /** An action of a guarded run. */
  predicate GuardedAct(p: Params, s: World, i: nat, l: Label)
    requires Shaped(s)
  {
    CanHappen(p, s, Act(i, l)) && (l.Unlink? ==> Harmless(p, s, i))
  }

  lemma SharedStays(p: Params, s: World, i: nat, l: Label)
    requires Shaped(s) && GuardedAct(p, s, i, l) && SharedOk(p, s.server, s.journal)
    requires MemoryOk(p, s.members[i].client) && FileOk(s, s.members[i])
    requires l.SwitchOff? ==> Durable(s.journal)
    ensures var t := DoAct(p, s, i, l); SharedOk(p, t.server, t.journal)
  {
  }

  lemma ActKeepsShared(p: Params, s: World, i: nat, l: Label)
    requires WorldInv(p, s) && GuardedAct(p, s, i, l)
    ensures var t := DoAct(p, s, i, l); SharedOk(p, t.server, t.journal)
  {
    assert MemberOk(p, s, i);
    if Connected(s, i) && s.lock.controllers[i].phase == Lock.Owner {
      PermittedHolds(s, i);
    }
    SharedStays(p, s, i, l);
  }

  lemma ActKeepsGenuine(p: Params, s: World, i: nat, l: Label)
    requires Shaped(s) && GuardedAct(p, s, i, l)
    requires MemoryOk(p, s.members[i].client) && Truthful(p, s.journal.visible)
    requires l.Capture? ==> Untouched(p, s.server)
    ensures var original := DoAct(p, s, i, l).members[i].client.original;
      original.Some? ==> Genuine(p, original.value)
  {
  }

  lemma ActKeepsMemory(p: Params, s: World, i: nat, l: Label)
    requires Shaped(s) && GuardedAct(p, s, i, l)
    requires MemoryOk(p, s.members[i].client) && Truthful(p, s.journal.visible)
    requires l.Capture? ==> Untouched(p, s.server)
    ensures MemoryOk(p, DoAct(p, s, i, l).members[i].client)
  {
    ActKeepsGenuine(p, s, i, l);
  }

  lemma ActKeepsOwnFile(p: Params, s: World, i: nat, l: Label)
    requires Shaped(s) && GuardedAct(p, s, i, l) && FileOk(s, s.members[i])
    ensures var t := DoAct(p, s, i, l); FileOk(t, t.members[i])
  {
  }

  predicate Knows(p: Params, s: World, m: Member) {
    MemoryOk(p, m.client) && FileOk(s, m) && HolderOk(p, s, m)
  }

  lemma HolderStaysUntouched(p: Params, s: World, i: nat, l: Label)
    requires Shaped(s) && GuardedAct(p, s, i, l) && SharedOk(p, s.server, s.journal) && Knows(p, s, s.members[i])
    ensures var t := DoAct(p, s, i, l); UntouchedAt(t.members[i].client.pc) ==> Untouched(p, t.server)
  {
  }

  lemma HolderOwnsFile(p: Params, s: World, i: nat, l: Label)
    requires Shaped(s) && GuardedAct(p, s, i, l) && SharedOk(p, s.server, s.journal) && Knows(p, s, s.members[i])
    ensures var t := DoAct(p, s, i, l); OwnFile(t, t.members[i])
  {
  }

  lemma HolderAdvances(p: Params, s: World, i: nat, l: Label)
    requires Shaped(s) && GuardedAct(p, s, i, l) && SharedOk(p, s.server, s.journal) && Knows(p, s, s.members[i])
    ensures var t := DoAct(p, s, i, l); ServerAt(p, t.server, t.members[i].client.pc)
  {
  }

  lemma ActKeepsSelf(p: Params, s: World, i: nat, l: Label)
    requires WorldInv(p, s) && GuardedAct(p, s, i, l)
    ensures MemberOk(p, DoAct(p, s, i, l), i)
  {
    assert MemberOk(p, s, i);
    if Connected(s, i) && s.lock.controllers[i].phase == Lock.Owner {
      PermittedHolds(s, i);
    }
    ActKeepsMemory(p, s, i, l);
    ActKeepsOwnFile(p, s, i, l);
    if Holds(s, i) {
      HolderStaysUntouched(p, s, i, l);
      HolderOwnsFile(p, s, i, l);
      HolderAdvances(p, s, i, l);
    }
  }

  /** Other clients keep their file, as only one client writes a given file. */
  lemma ActKeepsFile(p: Params, s: World, i: nat, l: Label, j: nat)
    requires Shaped(s) && GuardedAct(p, s, i, l) && FilesApart(s) && j < |s.members| && j != i
    requires FileOk(s, s.members[i]) && FileOk(s, s.members[j])
    ensures FileOk(DoAct(p, s, i, l), s.members[j])
  {
    DifferentFiles(s, i, j);
  }

  /** The action of a client without the lock while another one, j, holds it. */
  predicate BesideHolder(p: Params, s: World, i: nat, l: Label, j: nat) {
    && Shaped(s) && GuardedAct(p, s, i, l) && FilesApart(s) && Lock.Inv(s.lock) && j < |s.members| && j != i
    && SharedOk(p, s.server, s.journal) && MemberOk(p, s, i) && MemberOk(p, s, j) && Holds(s, j)
  }

  lemma OutsidersAreLimited(p: Params, s: World, i: nat, l: Label, j: nat)
    requires BesideHolder(p, s, i, l, j)
    ensures !l.SwitchOff? && !l.Capture? && !l.ReloadOff?
  {
    OnlyOneHolds(s, i, j);
    if Connected(s, i) && s.lock.controllers[i].phase == Lock.Owner {
      PermittedHolds(s, i);
    }
  }

  /** The holder keeps what it has reached while a client without the lock acts. */
  lemma ServerStaysAt(p: Params, s: World, i: nat, l: Label, j: nat)
    requires BesideHolder(p, s, i, l, j)
    ensures var t := DoAct(p, s, i, l); var pc := s.members[j].client.pc;
      ServerAt(p, t.server, pc) && (UntouchedAt(pc) ==> Untouched(p, t.server))
  {
    OutsidersAreLimited(p, s, i, l, j);
  }

  lemma FileStaysOwn(p: Params, s: World, i: nat, l: Label, j: nat)
    requires BesideHolder(p, s, i, l, j)
    ensures OwnFile(DoAct(p, s, i, l), s.members[j])
  {
    OutsidersAreLimited(p, s, i, l, j);
    DifferentFiles(s, i, j);
    assert l.Unlink? ==> !Relies(s, j);
  }

  lemma ActKeepsOther(p: Params, s: World, i: nat, l: Label, j: nat)
    requires WorldInv(p, s) && GuardedAct(p, s, i, l) && j < |s.members| && j != i
    ensures MemberOk(p, DoAct(p, s, i, l), j)
  {
    assert MemberOk(p, s, i) && MemberOk(p, s, j);
    ActKeepsFile(p, s, i, l, j);
    if Holds(s, j) {
      ServerStaysAt(p, s, i, l, j);
      FileStaysOwn(p, s, i, l, j);
    }
  }

  lemma ActKeepsInv(p: Params, s: World, i: nat, l: Label)
    requires WorldInv(p, s) && GuardedAct(p, s, i, l)
    ensures WorldInv(p, DoAct(p, s, i, l))
  {
    ActKeepsShared(p, s, i, l);
    ActKeepsApart(p, s, i, l);
    var t := DoAct(p, s, i, l);
    forall j | 0 <= j < |t.members| ensures MemberOk(p, t, j) {
      if j == i {
        ActKeepsSelf(p, s, i, l);
      } else {
        ActKeepsOther(p, s, i, l, j);
      }
    }
  }

  lemma ActKeepsApart(p: Params, s: World, i: nat, l: Label)
    requires WorldInv(p, s) && GuardedAct(p, s, i, l)
    ensures FilesApart(DoAct(p, s, i, l))
  {
    var t := DoAct(p, s, i, l);
    forall j, k | 0 <= j < k < |t.members| ensures t.members[j].fd != t.members[k].fd || t.members[j].fd == 0 {
      assert MemberOk(p, s, j) && MemberOk(p, s, k);
      assert s.members[j].fd != s.members[k].fd || s.members[j].fd == 0;
    }
  }

  // ---------------------------------------------------------------- the other steps

  /** A lock step gives the lock only to a client that is opening or begins to restore. */
  lemma NewHolder(p: Params, s: World, l: Lock.Label, i: nat)
    requires Shaped(s) && Lock.Inv(s.lock) && CanHappen(p, s, OfLock(l)) && i < |s.members|
    requires Holds(Next(p, s, OfLock(l)), i) && !Holds(s, i)
    ensures s.members[i].client.pc in {Down, Restoring}
  {
  }

  lemma LockKeepsInv(p: Params, s: World, l: Lock.Label)
    requires WorldInv(p, s) && CanHappen(p, s, OfLock(l))
    ensures WorldInv(p, Next(p, s, OfLock(l)))
  {
    var t := Next(p, s, OfLock(l));
    Lock.StepKeepsInv(s.lock, l);
    forall i | 0 <= i < |t.members| ensures MemberOk(p, t, i) {
      assert MemberOk(p, s, i);
      if Holds(t, i) && !Holds(s, i) {
        NewHolder(p, s, l, i);
      }
    }
  }

  lemma CrashKeepsInv(p: Params, s: World, left: File)
    requires WorldInv(p, s) && CanHappen(p, s, Crash(left))
    ensures WorldInv(p, Next(p, s, Crash(left)))
  {
  }

  lemma RefuseKeepsInv(p: Params, s: World, i: nat)
    requires WorldInv(p, s) && CanHappen(p, s, Refuse(i))
    ensures WorldInv(p, Next(p, s, Refuse(i)))
  {
    var t := Next(p, s, Refuse(i));
    forall j | 0 <= j < |t.members| ensures MemberOk(p, t, j) {
      assert MemberOk(p, s, j);
    }
  }

  lemma StepKeepsInv(p: Params, s: World, step: Step)
    requires WorldInv(p, s) && CanHappen(p, s, step)
    requires step.Act? && step.action.Unlink? ==> Harmless(p, s, step.who)
    ensures WorldInv(p, Next(p, s, step))
  {
    match step
    case OfLock(l) => LockKeepsInv(p, s, l);
    case Act(i, l) => ActKeepsInv(p, s, i, l);
    case Refuse(i) => RefuseKeepsInv(p, s, i);
    case Crash(left) => CrashKeepsInv(p, s, left);
  }

  lemma {:induction false} RunKeepsInv(p: Params, s: World, steps: seq<Step>, t: World)
    requires WorldInv(p, s) && Runs(p, s, steps, t) && Guarded(p, s, steps)
    ensures WorldInv(p, t)
    decreases |steps|
  {
    if steps != [] {
      StepKeepsInv(p, s, steps[0]);
      RunKeepsInv(p, Next(p, s, steps[0]), steps[1..], t);
    }
  }

  /** What JournalTellsTheTruth says of one client, for the shared server and journal. */
  predicate TellsTheTruth(p: Params, s: World) {
    && (!s.journal.visible.Complete? ==> Untouched(p, s.server))
    && (s.journal.visible.Complete? ==> Genuine(p, s.journal.visible.original))
    && (!Untouched(p, s.server) ==> Durable(s.journal))
  }

  lemma InvIsTruth(p: Params, s: World)
    requires WorldInv(p, s)
    ensures TellsTheTruth(p, s)
  {
  }

  /**
   * For any number of clients, databases, crashes, dying connections and restarts, the journal
   * tells the truth as long as every unlink is harmless.
   */
  lemma GuardedRunsTellTheTruth(p: Params, n: nat, steps: seq<Step>, s: World)
    requires Runs(p, Start(p, n), steps, s) && Guarded(p, Start(p, n), steps)
    ensures TellsTheTruth(p, s)
  {
    StartInv(p, n);
    RunKeepsInv(p, Start(p, n), steps, s);
    InvIsTruth(p, s);
  }

  /** What a client that holds the lock unlinks is its own journal, on an untouched server. */
  lemma HolderIsHarmless(p: Params, s: World, i: nat)
    requires WorldInv(p, s) && CanHappen(p, s, Act(i, Unlink)) && Holds(s, i)
    ensures Harmless(p, s, i)
  {
    assert MemberOk(p, s, i);
    forall j | 0 <= j < |s.members| && j != i ensures !Relies(s, j) {
      OnlyOneHolds(s, i, j);
    }
  }

  lemma {:induction false} FencedIsGuarded(p: Params, s: World, steps: seq<Step>, t: World)
    requires WorldInv(p, s) && Runs(p, s, steps, t) && Fenced(p, s, steps)
    ensures Guarded(p, s, steps)
    decreases |steps|
  {
    if steps != [] {
      if steps[0].Act? && steps[0].action.Unlink? {
        HolderIsHarmless(p, s, steps[0].who);
      }
      StepKeepsInv(p, s, steps[0]);
      FencedIsGuarded(p, Next(p, s, steps[0]), steps[1..], t);
    }
  }

  /** It does so in particular when every unlink is done by the client that then holds the lock. */
  lemma FencedRunsTellTheTruth(p: Params, n: nat, steps: seq<Step>, s: World)
    requires Runs(p, Start(p, n), steps, s) && Fenced(p, Start(p, n), steps)
    ensures TellsTheTruth(p, s)
  {
    StartInv(p, n);
    FencedIsGuarded(p, Start(p, n), steps, s);
    GuardedRunsTellTheTruth(p, n, steps, s);
  }

  // ---------------------------------------------------------------- what a harmful unlink leads to

  /** Whatever follows, as long as further unlinks are harmless, the journal tells the truth. */
  ghost predicate StaysTrue(p: Params, s: World)
    requires Shaped(s)
  {
    forall steps, t :: Runs(p, s, steps, t) && Guarded(p, s, steps) ==> TellsTheTruth(p, t)
  }

  /** What a client does next to switch fsync off. */
  function Onward(pc: Pc): Label {
    match pc
    case Created => FillFile
    case Filled => SyncContent
    case ContentSynced => SyncDirectory
    case Saved => MarkChanged
    case _ => SwitchOff
  }

  function Distance(pc: Pc): nat {
    match pc
    case Created => 4
    case Filled => 3
    case ContentSynced => 2
    case Saved => 1
    case _ => 0
  }

  /** A client whose file was removed goes on regardless and switches fsync off without a journal. */
  lemma {:induction false} GoesOnWithout(p: Params, s: World, j: nat) returns (steps: seq<Step>, t: World)
    requires Shaped(s) && j < |s.members| && Relies(s, j) && s.journal.visible == Absent
    requires s.members[j].client.pc in {Created, Filled} ==> s.members[j].fd != s.file
    ensures Runs(p, s, steps, t) && Guarded(p, s, steps)
    ensures t.journal.visible == Absent && t.server.auto == Some(OFF)
    decreases Distance(s.members[j].client.pc)
  {
    var l := Onward(s.members[j].client.pc);
    var next := Next(p, s, Act(j, l));
    var rest: seq<Step> := [];
    t := next;
    if !l.SwitchOff? {
      rest, t := GoesOnWithout(p, next, j);
    }
    steps := [Act(j, l)] + rest;
    assert steps[1..] == rest;
  }

  lemma UnlinkKeepsInv(p: Params, s: World, i: nat)
    requires WorldInv(p, s) && CanHappen(p, s, Act(i, Unlink)) && Harmless(p, s, i)
    ensures StaysTrue(p, Next(p, s, Act(i, Unlink)))
  {
    var next := Next(p, s, Act(i, Unlink));
    StepKeepsInv(p, s, Act(i, Unlink));
    forall steps, t | Runs(p, next, steps, t) && Guarded(p, next, steps) ensures TellsTheTruth(p, t) {
      RunKeepsInv(p, next, steps, t);
      InvIsTruth(p, t);
    }
  }

  lemma HarmfulUnlink(p: Params, s: World, i: nat)
    requires WorldInv(p, s) && CanHappen(p, s, Act(i, Unlink)) && !Harmless(p, s, i) && p.auto != Some(OFF)
    ensures !StaysTrue(p, Next(p, s, Act(i, Unlink)))
  {
    var next := Next(p, s, Act(i, Unlink));
    if !Untouched(p, s.server) {
      assert Runs(p, next, [], next) && Guarded(p, next, []) && !TellsTheTruth(p, next);
    } else {
      var j :| 0 <= j < |s.members| && j != i && Relies(s, j);
      assert MemberOk(p, s, j);
      var steps, t := GoesOnWithout(p, next, j);
      assert !TellsTheTruth(p, t);
    }
  }

  /**
   * The weakest guard: where all unlinks so far were harmless, everything that can follow another
   * one tells the truth if and only if that one is harmless too.
   */
  lemma UnlinkIsSafeExactlyWhen(p: Params, s: World, i: nat)
    requires WorldInv(p, s) && CanHappen(p, s, Act(i, Unlink)) && p.auto != Some(OFF)
    ensures StaysTrue(p, Next(p, s, Act(i, Unlink))) <==> Harmless(p, s, i)
  {
    if Harmless(p, s, i) {
      UnlinkKeepsInv(p, s, i);
    } else {
      HarmfulUnlink(p, s, i);
    }
  }
}
