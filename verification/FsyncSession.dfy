/**
 * InitializationSettings as a class over the server and the journal directory. Every remote call
 * may fail, and the server acts between any two calls; each field update is one machine step, so
 * all states a crash could expose lie on a run of the machine.
 */
module FsyncSession {
  import opened Wrappers
  import opened FsyncJournal
  import opened FsyncTheorems

  class InitializationSettings {
    const p: Params
    const fsyncOff: bool
    const superuser: bool

    // the world
    var server: Server
    var journal: Journal

    // the client's memory; connected stands for db, which is None without a connection object
    var connected: bool
    var original: Option<Original>
    var changed: bool

    ghost var pc: Pc
    ghost var history: seq<Label>

    ghost function Now(): System
      reads this
    {
      System(server, journal, Client(pc, original, changed))
    }

    /** The present state is where the history leads, and so is every state before it. */
    ghost predicate Valid()
      reads this
    {
      Reaches(p, Now(), history) && (connected <==> pc != Down)
    }

    constructor (p: Params, fsyncOff: bool, superuser: bool)
      ensures Valid() && pc == Down && this.p == p && this.fsyncOff == fsyncOff && this.superuser == superuser
    {
      this.p := p;
      this.fsyncOff := fsyncOff;
      this.superuser := superuser;
      server := Server(p.auto, p.effective, false, false, false);
      journal := Journal(Absent, Absent, true);
      connected := false;
      original := None;
      changed := false;
      pc := Down;
      history := [];
    }

    /** Records that the fields have just made one machine step from the given state. */
    ghost method Record(from: System, l: Label, to: Pc)
      requires Reaches(p, from, history) && Enabled(p, from, l)
      requires Do(p, from, l) == System(server, journal, Client(to, original, changed))
      requires connected <==> to != Down
      modifies this`pc, this`history
      ensures Valid() && pc == to && history == old(history) + [l]
    {
      AfterAppend(p, Initial(p), history, l);
      history := history + [l];
      pc := to;
    }

    /** One action of the server or the host. */
    method Disturb()
      requires Valid()
      modifies this`server, this`journal, this`history, this`pc
      ensures Valid() && pc == old(pc) && old(history) <= history
    {
      ghost var from := Now();
      var kind: nat := *;
      if kind == 0 {
        server := server.(buffers := server.buffers || !server.effective);
        Record(from, Modify, pc);
      } else if kind == 1 {
        server := server.(kernel := server.kernel || server.buffers);
        Record(from, Evict, pc);
      } else if kind == 2 && server.reloading {
        server := server.(effective := Configured(p, server.auto), reloading := false);
        Record(from, ApplyReload, pc);
      } else if kind == 3 {
        server := server.(effective := Configured(p, server.auto), reloading := false);
        Record(from, Restart, pc);
      } else {
        journal := Journal(journal.visible, journal.visible, true);
        Record(from, WriteBack, pc);
      }
    }

    /** The server and the host act on their own while the client waits. */
    method Interfere()
      requires Valid()
      modifies this`server, this`journal, this`history, this`pc
      ensures Valid() && pc == old(pc) && old(history) <= history
    {
      var rounds: nat := *;
      while rounds > 0
        invariant Valid() && pc == old(pc) && old(history) <= history
      {
        Disturb();
        rounds := rounds - 1;
      }
    }

    /** The settings object is dropped and its connection closed. */
    method Disconnect()
      requires Valid() && pc != Down
      modifies this
      ensures Valid() && pc == Down && server == old(server) && journal == old(journal)
      ensures old(history) <= history
    {
      ghost var from := Now();
      connected, original, changed := false, None, false;
      Record(from, Label.Disconnect, Down);
    }

    /** A call over a connection: it may take effect although its reply never arrives. */
    method Call() returns (done: bool, ok: bool)
      ensures ok ==> done
    {
      done := *;
      ok := *;
      ok := ok && done;
    }

    /** Creates the journal file, which must not exist. */
    method CreateJournal() returns (ok: bool)
      requires Valid() && pc == Captured && !changed
      modifies this
      ensures Valid() && original == old(original) && !changed && old(history) <= history
      ensures pc == if ok then Created else Captured
    {
      ReachableInv(p, Now(), history);
      ok := *;
      if ok {
        ghost var from := Now();
        journal := Journal(Torn, journal.durable, false);
        Record(from, CreateFile, Created);
        Interfere();
      }
    }

    /** Writes the content of the journal and flushes it to the kernel. */
    method FillJournal() returns (ok: bool)
      requires Valid() && pc == Created && !changed
      modifies this
      ensures Valid() && original == old(original) && !changed && old(history) <= history
      ensures pc == if ok then Filled else Created
    {
      ReachableInv(p, Now(), history);
      ok := *;
      if ok && original.Some? {
        ghost var from := Now();
        journal := journal.(visible := Complete(original.value), contentSafe := false);
        Record(from, FillFile, Filled);
        Interfere();
      }
    }

    /** fsync on the journal file. */
    method SyncJournal() returns (ok: bool)
      requires Valid() && pc == Filled && !changed
      modifies this
      ensures Valid() && original == old(original) && !changed && old(history) <= history
      ensures pc == if ok then ContentSynced else Filled
    {
      ok := *;
      if ok {
        ghost var from := Now();
        journal := journal.(contentSafe := true);
        Record(from, SyncContent, ContentSynced);
        Interfere();
      }
    }

    /** fsync on the journal directory. */
    method SyncJournalDirectory() returns (ok: bool)
      requires Valid() && pc == ContentSynced && !changed
      modifies this
      ensures Valid() && original == old(original) && !changed && old(history) <= history
      ensures pc == if ok then Saved else ContentSynced
    {
      ok := *;
      if ok {
        ghost var from := Now();
        journal := journal.(durable := journal.visible);
        Record(from, SyncDirectory, Saved);
        Interfere();
      }
    }

    /** Exclusive creation, content, content fsync, directory fsync. */
    method Save() returns (ok: bool)
      requires Valid() && pc == Captured && !changed
      modifies this
      ensures Valid() && !changed && old(history) <= history
      ensures pc in {Captured, Created, Filled, ContentSynced, Saved}
      ensures ok ==> pc == Saved && Durable(journal) && Genuine(p, journal.visible.original)
    {
      ok := CreateJournal();
      if ok {
        ok := FillJournal();
      }
      if ok {
        ok := SyncJournal();
      }
      if ok {
        ok := SyncJournalDirectory();
      }
      ReachableInv(p, Now(), history);
    }

    /** pg_reload_conf: the server will take the configured value at some later time. */
    method RequestReload() returns (ok: bool)
      requires Valid() && pc in {SwitchedOff, SwitchedBack}
      modifies this
      ensures Valid() && changed == old(changed) && original == old(original) && old(history) <= history
      ensures pc == old(pc) || pc == if old(pc) == SwitchedOff then AwaitingOff else AwaitingBack
      ensures ok ==> pc != old(pc)
    {
      ghost var from := Now();
      var done;
      done, ok := Call();
      if done {
        server := server.(reloading := true);
        Record(from, if pc == SwitchedOff then ReloadOff else ReloadBack,
          if pc == SwitchedOff then AwaitingOff else AwaitingBack);
      }
    }

    /** Polls until the server shows the expected value, or gives up at the deadline. */
    method Poll(expected: bool) returns (ok: bool)
      requires Valid()
      requires (pc == AwaitingOff && !expected)
        || (pc == AwaitingBack && original.Some? && expected == original.value.fsync)
      modifies this
      ensures Valid() && changed == old(changed) && original == old(original) && old(history) <= history
      ensures pc == if !ok then old(pc) else if old(pc) == AwaitingOff then Loading else Back
    {
      var polls: nat := *;
      while polls > 0
        invariant Valid() && changed == old(changed) && original == old(original) && old(history) <= history
        invariant pc == old(pc)
      {
        Interfere();
        if server.effective == expected {
          Record(Now(), if pc == AwaitingOff then SeeOff else SeeBack, if pc == AwaitingOff then Loading else Back);
          return true;
        }
        polls := polls - 1;
      }
      ok := false;
    }

    /** Reloads the configuration and waits until it shows. */
    method Reload(expected: bool) returns (ok: bool)
      requires Valid()
      requires (pc == SwitchedOff && !expected)
        || (pc == SwitchedBack && original.Some? && expected == original.value.fsync)
      modifies this
      ensures Valid() && changed == old(changed) && original == old(original) && old(history) <= history
      ensures ok ==> pc == if old(pc) == SwitchedOff then Loading else Back
      ensures !ok ==> pc in if old(pc) == SwitchedOff then {SwitchedOff, AwaitingOff} else {SwitchedBack, AwaitingBack}
    {
      ok := RequestReload();
      if ok {
        ok := Poll(expected);
      }
    }

    /** ALTER SYSTEM SET fsync = off. */
    method AlterSystemOff() returns (ok: bool)
      requires Valid() && pc == Marked
      modifies this
      ensures Valid() && changed == old(changed) && original == old(original) && old(history) <= history
      ensures if ok then pc == SwitchedOff else pc in {Marked, SwitchedOff}
    {
      var done;
      done, ok := Call();
      if done {
        ghost var from := Now();
        server := server.(auto := Some(OFF));
        Record(from, SwitchOff, SwitchedOff);
        Interfere();
      }
    }

    /** Reads the original and saves it durably; the server is still untouched. */
    method SaveOriginal() returns (ok: bool)
      requires Valid() && pc == Ready && !changed
      modifies this
      ensures Valid() && old(history) <= history && !changed
      ensures pc in {Captured, Created, Filled, ContentSynced, Saved}
      ensures ok ==> pc == Saved && Durable(journal) && Genuine(p, journal.visible.original)
    {
      ghost var from := Now();
      original := Some(Original(server.effective, server.auto));
      Record(from, Capture, Captured);
      Interfere();
      ok := Save();
    }

    /** Saves the journal durably, then turns fsync off. */
    method Disable() returns (ok: bool)
      requires Valid() && pc == Ready && !changed
      modifies this
      ensures Valid() && pc !in {Down, Opening, Unlinked} && old(history) <= history
      ensures !fsyncOff ==> ok && Now() == old(Now())
      ensures fsyncOff && ok ==> pc == Loading && changed && Durable(journal) && Genuine(p, journal.visible.original)
      ensures !changed ==> Untouched(p, server)
    {
      if !fsyncOff {
        ReachableInv(p, Now(), history);
        return true;
      }
      ok := SaveOriginal();
      ReachableInv(p, Now(), history);
      if !ok {
        return;
      }
      ok := TurnOff();
      ReachableInv(p, Now(), history);
    }

    /** The journal is saved: from here on the client knows that it has something to restore. */
    method TurnOff() returns (ok: bool)
      requires Valid() && pc == Saved && !changed
      modifies this
      ensures Valid() && changed && old(history) <= history
      ensures if ok then pc == Loading else pc in {Marked, SwitchedOff, AwaitingOff}
    {
      ghost var from := Now();
      changed := true;
      Record(from, MarkChanged, Marked);
      ok := AlterSystemOff();
      if ok {
        ok := Reload(false);
      }
    }

    /** ALTER SYSTEM RESET fsync, or SET to the original text when it is a listed boolean. */
    method AlterSystemBack() returns (ok: bool)
      requires Valid() && pc == Restoring && changed
      modifies this
      ensures Valid() && changed && original == old(original) && old(history) <= history
      ensures if ok then pc == SwitchedBack else pc in {Restoring, SwitchedBack}
      ensures !Restorable(p.auto) ==> !ok && pc == Restoring && server == old(server)
    {
      ReachableInv(p, Now(), history);
      if !Restorable(original.value.auto) {
        return false;
      }
      var done;
      done, ok := Call();
      if done {
        ghost var from := Now();
        server := server.(auto := original.value.auto);
        Record(from, SwitchBack, SwitchedBack);
        Interfere();
      }
    }

    method CheckpointServer() returns (ok: bool)
      requires Valid() && pc == Back
      modifies this
      ensures Valid() && changed == old(changed) && old(history) <= history
      ensures if ok then pc == Checkpointed else pc in {Back, Checkpointed}
    {
      var done;
      done, ok := Call();
      if done {
        ghost var from := Now();
        server := server.(buffers := false, kernel := server.kernel || server.buffers);
        Record(from, Checkpoint, Checkpointed);
        Interfere();
      }
    }

    method SyncDatabaseHost() returns (ok: bool)
      requires Valid() && pc == Checkpointed
      modifies this
      ensures Valid() && changed == old(changed) && old(history) <= history
      ensures if ok then pc == Synced else pc in {Checkpointed, Synced}
    {
      var done;
      done, ok := Call();
      if done {
        ghost var from := Now();
        server := server.(kernel := false);
        Record(from, SyncHost, Synced);
        Interfere();
      }
    }

    /** Removes the journal and forgets that anything was changed. */
    method DropJournal() returns (ok: bool)
      requires Valid() && pc == Synced && changed
      modifies this
      ensures Valid() && old(history) <= history
      ensures ok ==> pc == Ready && !changed && Untouched(p, server) && journal.visible == Absent
      ensures !ok ==> pc == Synced && changed
    {
      ReachableInv(p, Now(), history);
      ok := *;
      if ok {
        ghost var from := Now();
        journal := journal.(visible := Absent);
        Record(from, Unlink, Unlinked);
        from := Now();
        changed := false;
        Record(from, Finish, Ready);
      }
    }

    /** The original value is back in auto.conf and in effect. */
    method SwitchOriginalBack() returns (ok: bool)
      requires Valid() && pc == Restoring && changed
      modifies this
      ensures Valid() && changed && old(history) <= history
      ensures if ok then pc == Back else pc in {Restoring, SwitchedBack, AwaitingBack}
      ensures !Restorable(p.auto) ==> !ok
    {
      ok := AlterSystemBack();
      if ok {
        ReachableInv(p, Now(), history);
        ok := Reload(original.value.fsync);
      }
    }

    /** Everything written while fsync was off reaches the disk, and only then the journal goes. */
    method FlushAndForget() returns (ok: bool)
      requires Valid() && pc == Back && changed
      modifies this
      ensures Valid() && old(history) <= history
      ensures ok ==> pc == Ready && !changed && Untouched(p, server) && journal.visible == Absent
      ensures !ok ==> pc in {Back, Checkpointed, Synced} && changed
    {
      ok := CheckpointServer();
      if ok {
        ok := SyncDatabaseHost();
      }
      if ok {
        ok := DropJournal();
      }
    }

    /** Writes the original value back, reloads, checkpoints, syncs the host, drops the journal. */
    method Restore() returns (ok: bool)
      requires Valid() && pc !in {Down, Unlinked}
      modifies this
      ensures Valid() && pc !in {Down, Unlinked} && old(history) <= history
      ensures !old(changed) ==> ok && Now() == old(Now())
      ensures old(changed) && ok ==> pc == Ready && !changed && Untouched(p, server) && journal.visible == Absent
      ensures !ok ==> changed
      ensures old(changed) && !Restorable(p.auto) ==> !ok
    {
      if !changed {
        return true;
      }
      Record(Now(), BeginRestore, Restoring);
      Interfere();
      ok := *;  // reconnecting when needed, and the checks of role and member identity
      if ok {
        ok := SwitchOriginalBack();
      }
      if ok {
        ok := FlushAndForget();
      }
    }

    /**
     * Connects and, if a journal is pending, restores before anything else. When it returns
     * normally there is no journal and the server is as before the first run.
     */
    method Open() returns (ok: bool)
      requires Valid() && pc == Down
      modifies this
      ensures Valid() && old(history) <= history
      ensures ok ==> pc == Ready && !changed && journal.visible == Absent && Untouched(p, server)
      ensures ok && fsyncOff ==> superuser
      ensures !ok ==> pc == Down
    {
      ok := *;  // connection, role check and lock
      if !ok {
        return;
      }
      ghost var from := Now();
      connected, original, changed := true, None, false;
      Record(from, Label.Open, Opening);
      Interfere();
      ok := CheckJournal();
      if ok {
        ok := *;  // host access, replica and privilege checks
      }
      if !ok {
        Disconnect();
      }
    }

    /** A pending journal needs a superuser, must parse, and is recovered first. */
    method CheckJournal() returns (ok: bool)
      requires Valid() && pc == Opening
      modifies this
      ensures Valid() && pc != Down && old(history) <= history
      ensures ok ==> pc == Ready && !changed && journal.visible == Absent && Untouched(p, server)
      ensures ok && fsyncOff ==> superuser
    {
      var pending := journal.visible != Absent;
      if (pending || fsyncOff) && !superuser {
        return false;
      }
      if journal.visible == Torn {
        return false;
      }
      ReachableInv(p, Now(), history);
      if pending {
        ok := RecoverPending();
      } else {
        Record(Now(), FindNothing, Ready);
        ok := true;
      }
    }

    method RecoverPending() returns (ok: bool)
      requires Valid() && pc == Opening && journal.visible.Complete?
      modifies this
      ensures Valid() && pc != Down && old(history) <= history
      ensures ok ==> pc == Ready && !changed && journal.visible == Absent && Untouched(p, server)
    {
      ghost var from := Now();
      original, changed := Some(journal.visible.original), true;
      Record(from, FindJournal, Restoring);
      ok := Restore();
    }

    /**
     * Restores what is still changed, and lets go of the server in every case; a client that is
     * down already, as after a failed reopening, has nothing to restore.
     */
    method Close() returns (ok: bool)
      requires Valid() && pc !in {Opening, Unlinked}
      modifies this
      ensures Valid() && pc == Down && old(history) <= history
      ensures ok && old(changed) ==> Untouched(p, server) && journal.visible == Absent
      ensures !Untouched(p, server) ==> Durable(journal) && Genuine(p, journal.visible.original)
      ensures !Untouched(p, server) && old(pc) != Down ==> !ok
      ensures old(pc) == Down ==> ok && Now() == old(Now())
    {
      ReachableInv(p, Now(), history);
      if !connected {
        return true;
      }
      ok := Restore();
      ReachableInv(p, Now(), history);
      Disconnect();
    }
  }
}
