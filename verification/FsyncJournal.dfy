/**
 * The crash-safe fsync protocol (initialization_settings.py, open, disable, restore, _save) as a
 * machine: the PostgreSQL server, the journal file, and one client at a time whose memory a crash
 * loses. Every action of the client is one step, and anything may happen between two steps.
 */
module FsyncJournal {
  import opened Wrappers
  import opened Collections

  /** What the journal records: the effective value and the text in postgresql.auto.conf. */
  datatype Original = Original(fsync: bool, auto: Option<string>)

  datatype File = Absent | Torn | Complete(original: Original)

  /**
   * visible is the file a process sees; durable is what its directory entry holds after a crash
   * of the client host, and contentSafe says that the visible content is on disk.
   */
  datatype Journal = Journal(visible: File, durable: File, contentSafe: bool)

  /**
   * buffers and kernel: pages modified while fsync was off that are still in shared buffers, and
   * pages handed to the kernel without reaching the disk.
   */
  datatype Server = Server(
    auto: Option<string>,
    effective: bool,
    reloading: bool,
    buffers: bool,
    kernel: bool)

  datatype Pc =
    | Down
    | Opening
    | Ready
    | Captured
    | Created
    | Filled
    | ContentSynced
    | Saved
    | Marked
    | SwitchedOff
    | AwaitingOff
    | Loading
    | Restoring
    | SwitchedBack
    | AwaitingBack
    | Back
    | Checkpointed
    | Synced
    | Unlinked

  datatype Client = Client(pc: Pc, original: Option<Original>, changed: bool)

  datatype System = System(server: Server, journal: Journal, client: Client)

  /**
   * The server before the first run. base is the value in postgresql.conf, which never changes;
   * effective differs from what the files configure when an edit of auto.conf was not yet reloaded.
   */
  datatype Params = Params(base: bool, auto: Option<string>, effective: bool, meaning: string -> bool)

  const OFF := "off"

  function Configured(p: Params, auto: Option<string>): bool {
    match auto
    case None => p.base
    case Some(text) => p.meaning(text)
  }

  /** What the files configured before the first run. */
  function Own(p: Params): bool {
    Configured(p, p.auto)
  }

  function First(p: Params): Original {
    Original(p.effective, p.auto)
  }

  /** No edit of auto.conf was waiting for a reload. */
  predicate Settled(p: Params) {
    p.effective == Own(p)
  }

  /** The values restore is willing to write back. */
  predicate Restorable(auto: Option<string>) {
    auto.None? || Lower(auto.value) in {"on", "off", "true", "false", "1", "0", "yes", "no"}
  }

  const NoClient := Client(Down, None, false)

  function Initial(p: Params): System {
    System(
      Server(p.auto, p.effective, false, false, false),
      Journal(Absent, Absent, true),
      NoClient)
  }

  datatype Label =
    // the server and the client host
    | Modify
    | Evict
    | ApplyReload
    | Restart
    | WriteBack
    | HostCrash(left: File)
    // the client
    | Open
    | FindNothing
    | FindJournal
    | Disconnect
    | Capture
    | CreateFile
    | FillFile
    | SyncContent
    | SyncDirectory
    | MarkChanged
    | SwitchOff
    | ReloadOff
    | SeeOff
    | BeginRestore
    | SwitchBack
    | ReloadBack
    | SeeBack
    | Checkpoint
    | SyncHost
    | Unlink
    | Finish

  predicate OfEnvironment(l: Label) {
    l.Modify? || l.Evict? || l.ApplyReload? || l.Restart? || l.WriteBack?
  }

  predicate Enabled(p: Params, s: System, l: Label) {
    var pc := s.client.pc;
    match l
    case Modify => true
    case Evict => true
    case ApplyReload => s.server.reloading
    case Restart => true
    case WriteBack => true
    case HostCrash(left) =>
      left == s.journal.visible || left == s.journal.durable || (left == Torn && !s.journal.contentSafe)
    case Open => pc == Down
    case FindNothing => pc == Opening && s.journal.visible == Absent
    case FindJournal => pc == Opening && s.journal.visible.Complete?
    case Disconnect => pc != Down
    case Capture => pc == Ready
    case CreateFile => pc == Captured && s.journal.visible == Absent
    case FillFile => pc == Created
    case SyncContent => pc == Filled
    case SyncDirectory => pc == ContentSynced
    case MarkChanged => pc == Saved
    case SwitchOff => pc == Marked
    case ReloadOff => pc == SwitchedOff
    case SeeOff => pc == AwaitingOff && !s.server.effective
    case BeginRestore => pc != Down && pc != Unlinked && s.client.changed
    case SwitchBack => pc == Restoring && s.client.original.Some? && Restorable(s.client.original.value.auto)
    case ReloadBack => pc == SwitchedBack
    case SeeBack =>
      pc == AwaitingBack && s.client.original.Some? && s.server.effective == s.client.original.value.fsync
    case Checkpoint => pc == Back
    case SyncHost => pc == Checkpointed
    case Unlink => pc == Synced && s.journal.visible != Absent
    case Finish => pc == Unlinked
  }

  function At(s: System, pc: Pc): System {
    s.(client := s.client.(pc := pc))
  }

  function Do(p: Params, s: System, l: Label): System
    requires Enabled(p, s, l)
  {
    var server, journal, client := s.server, s.journal, s.client;
    match l
    case Modify => s.(server := server.(buffers := server.buffers || !server.effective))
    case Evict => s.(server := server.(kernel := server.kernel || server.buffers))
    case ApplyReload => s.(server := server.(effective := Configured(p, server.auto), reloading := false))
    case Restart => s.(server := server.(effective := Configured(p, server.auto), reloading := false))
    case WriteBack => s.(journal := Journal(journal.visible, journal.visible, true))
    case HostCrash(left) => System(server, Journal(left, left, true), NoClient)
    case Open => s.(client := Client(Opening, None, false))
    case FindNothing => At(s, Ready)
    case FindJournal => s.(client := Client(Restoring, Some(journal.visible.original), true))
    case Disconnect => s.(client := NoClient)
    case Capture => s.(client := client.(pc := Captured, original := Some(Original(server.effective, server.auto))))
    case CreateFile => At(s, Created).(journal := Journal(Torn, journal.durable, false))
    case FillFile =>
      var content := if client.original.Some? then Complete(client.original.value) else Torn;
      At(s, Filled).(journal := journal.(visible := content, contentSafe := false))
    case SyncContent => At(s, ContentSynced).(journal := journal.(contentSafe := true))
    case SyncDirectory => At(s, Saved).(journal := journal.(durable := journal.visible))
    case MarkChanged => s.(client := client.(pc := Marked, changed := true))
    case SwitchOff => At(s, SwitchedOff).(server := server.(auto := Some(OFF)))
    case ReloadOff => At(s, AwaitingOff).(server := server.(reloading := true))
    case SeeOff => At(s, Loading)
    case BeginRestore => At(s, Restoring)
    case SwitchBack => At(s, SwitchedBack).(server := server.(auto := client.original.value.auto))
    case ReloadBack => At(s, AwaitingBack).(server := server.(reloading := true))
    case SeeBack => At(s, Back)
    case Checkpoint =>
      At(s, Checkpointed).(server := server.(buffers := false, kernel := server.kernel || server.buffers))
    case SyncHost => At(s, Synced).(server := server.(kernel := false))
    case Unlink => At(s, Unlinked).(journal := journal.(visible := Absent))
    case Finish => s.(client := client.(pc := Ready, changed := false))
  }

  predicate Possible(p: Params, s: System, steps: seq<Label>)
    decreases |steps|
  {
    steps != [] ==> Enabled(p, s, steps[0]) && Possible(p, Do(p, s, steps[0]), steps[1..])
  }

  function After(p: Params, s: System, steps: seq<Label>): System
    requires Possible(p, s, steps)
    decreases |steps|
  {
    if steps == [] then s else After(p, Do(p, s, steps[0]), steps[1..])
  }

  lemma {:induction false} AfterAppend(p: Params, s: System, steps: seq<Label>, l: Label)
    requires Possible(p, s, steps) && Enabled(p, After(p, s, steps), l)
    ensures Possible(p, s, steps + [l]) && After(p, s, steps + [l]) == Do(p, After(p, s, steps), l)
    decreases |steps|
  {
    if steps == [] {
      assert (steps + [l])[1..] == [];
    } else {
      assert (steps + [l])[1..] == steps[1..] + [l];
      AfterAppend(p, Do(p, s, steps[0]), steps[1..], l);
    }
  }

  // ---------------------------------------------------------------- the invariant

  /** A value the server shows without this program: the first one, or the one its files configure. */
  predicate Native(p: Params, effective: bool) {
    effective == p.effective || effective == Own(p)
  }

  /** The server always synced before the first run, and its files say that it goes on doing so. */
  predicate AlwaysSynced(p: Params) {
    p.effective && Own(p)
  }

  /** fsync is as before the first run, and nothing from a time it was switched off is unsynced. */
  predicate Untouched(p: Params, server: Server) {
    && server.auto == p.auto
    && Native(p, server.effective)
    && (AlwaysSynced(p) ==> !server.buffers && !server.kernel)
  }

  /** A value of the server before the first run, never the temporary one. */
  predicate Genuine(p: Params, original: Original) {
    original.auto == p.auto && Native(p, original.fsync)
  }

  predicate Truthful(p: Params, file: File) {
    file.Complete? ==> Genuine(p, file.original)
  }

  predicate Durable(j: Journal) {
    j.visible.Complete? && j.durable == j.visible && j.contentSafe
  }

  predicate FileAt(j: Journal, pc: Pc) {
    match pc
    case Ready => j.visible == Absent
    case Captured => j.visible == Absent
    case Created => j.visible == Torn
    case Filled => j.visible.Complete?
    case ContentSynced => j.visible.Complete? && j.contentSafe
    case Saved => Durable(j)
    case Marked => Durable(j)
    case SwitchedOff => Durable(j)
    case AwaitingOff => Durable(j)
    case Loading => Durable(j)
    case Unlinked => j.visible == Absent
    case _ => true
  }

  /** How far a restore has come. */
  predicate ServerAt(p: Params, server: Server, pc: Pc) {
    && (pc in {SwitchedBack, AwaitingBack, Back, Checkpointed, Synced} ==> server.auto == p.auto)
    && (pc in {Back, Checkpointed, Synced} ==> Native(p, server.effective))
    && (pc in {Checkpointed, Synced} && AlwaysSynced(p) ==> !server.buffers)
    && (pc == Synced && AlwaysSynced(p) ==> !server.kernel)
  }

  predicate Early(pc: Pc) {
    pc in {Down, Opening, Ready, Captured, Created, Filled, ContentSynced, Saved}
  }

  /** What a client remembers of the server is true. */
  predicate MemoryOk(p: Params, client: Client) {
    && (client.original.Some? ==> Genuine(p, client.original.value))
    && (client.pc in {Captured, Created, Filled, ContentSynced, Saved} || client.changed ==> client.original.Some?)
    && (client.changed <==> !Early(client.pc))
  }

  predicate UntouchedAt(pc: Pc) {
    pc in {Ready, Captured, Created, Filled, ContentSynced, Saved, Marked, Unlinked}
  }

  /** The server and the journal: either nothing is changed, or the journal is safe and says what was. */
  predicate SharedOk(p: Params, server: Server, journal: Journal) {
    && Truthful(p, journal.visible) && Truthful(p, journal.durable)
    && (Untouched(p, server) || Durable(journal))
    && (server.auto == p.auto || server.auto == Some(OFF))
  }

  predicate ClientOk(p: Params, s: System) {
    && MemoryOk(p, s.client)
    && (s.client.changed && s.client.pc != Unlinked ==> s.journal.visible.Complete?)
    && (UntouchedAt(s.client.pc) ==> Untouched(p, s.server))
    && FileAt(s.journal, s.client.pc)
    && ServerAt(p, s.server, s.client.pc)
  }

  ghost predicate Inv(p: Params, s: System) {
    SharedOk(p, s.server, s.journal) && ClientOk(p, s)
  }

  lemma StepKeepsShared(p: Params, s: System, l: Label)
    requires Inv(p, s) && Enabled(p, s, l)
    ensures var t := Do(p, s, l); SharedOk(p, t.server, t.journal)
  {
  }

  lemma StepKeepsMemory(p: Params, s: System, l: Label)
    requires Inv(p, s) && Enabled(p, s, l)
    ensures MemoryOk(p, Do(p, s, l).client)
  {
  }

  lemma StepKeepsFile(p: Params, s: System, l: Label)
    requires Inv(p, s) && Enabled(p, s, l)
    ensures var t := Do(p, s, l);
      FileAt(t.journal, t.client.pc) && (t.client.changed && t.client.pc != Unlinked ==> t.journal.visible.Complete?)
  {
  }

  lemma StepKeepsServer(p: Params, s: System, l: Label)
    requires Inv(p, s) && Enabled(p, s, l)
    ensures var t := Do(p, s, l); ServerAt(p, t.server, t.client.pc)
  {
  }

  lemma StepKeepsUntouched(p: Params, s: System, l: Label)
    requires Inv(p, s) && Enabled(p, s, l)
    ensures var t := Do(p, s, l); UntouchedAt(t.client.pc) ==> Untouched(p, t.server)
  {
  }

  lemma StepKeepsInv(p: Params, s: System, l: Label)
    requires Inv(p, s) && Enabled(p, s, l)
    ensures Inv(p, Do(p, s, l))
  {
    StepKeepsShared(p, s, l);
    StepKeepsMemory(p, s, l);
    StepKeepsFile(p, s, l);
    StepKeepsServer(p, s, l);
    StepKeepsUntouched(p, s, l);
  }

  lemma {:induction false} RunKeepsInv(p: Params, s: System, steps: seq<Label>)
    requires Inv(p, s) && Possible(p, s, steps)
    ensures Inv(p, After(p, s, steps))
    decreases |steps|
  {
    if steps != [] {
      StepKeepsInv(p, s, steps[0]);
      RunKeepsInv(p, Do(p, s, steps[0]), steps[1..]);
    }
  }
}
