/**
 * The destructive reset (benchmark.py, reset_db_environment) under the benchmark lock. Every call
 * may fail, and between any two calls other controllers, dying backends and restarts interfere.
 */
module DatabaseReset {
  import opened BenchmarkLock

  datatype Mode = Schemas | Managed | HostControlled

  /** The controller's own events that certify the lock. */
  predicate Certifies(e: Event, me: nat) {
    e == Acquired(me) || e == Checked(me)
  }

  predicate Destroys(e: Event, me: nat) {
    e in {DroppedSchemas(me), DroppedDatabase(me), CreatedDatabase(me)}
  }

  /** At position k the lock was certified at some j >= from, with no own restart in between. */
  ghost predicate CertifiedSince(log: seq<Event>, from: nat, k: nat, me: nat) {
    exists j :: from <= j < k <= |log| && Certifies(log[j], me) && forall i :: j <= i < k ==> log[i] != Restarted(me)
  }

  /** Every destructive event of the controller from a position on was certified. */
  ghost predicate Guarded(log: seq<Event>, from: nat, me: nat) {
    forall k :: from <= k < |log| && Destroys(log[k], me) ==> CertifiedSince(log, from, k, me)
  }

  /** The database was dropped at d, and certified again after d, before it was created. */
  ghost predicate Recreated(log: seq<Event>, from: nat, d: nat, k: nat, me: nat) {
    from <= d < k < |log| && log[d] == DroppedDatabase(me) && CertifiedSince(log, d, k, me)
  }

  ghost predicate CreatedOnlyAfterRecheck(log: seq<Event>, from: nat, me: nat) {
    forall k :: from <= k < |log| && log[k] == CreatedDatabase(me) ==> exists d :: Recreated(log, from, d, k, me)
  }

  predicate Quiet(e: Event, me: nat) {
    !Destroys(e, me) && e != Restarted(me)
  }

  /** What other parties may add to the log keeps every certificate. */
  lemma QuietKeeps(log: seq<Event>, more: seq<Event>, from: nat, k: nat, me: nat)
    requires k <= |log| && CertifiedSince(log, from, k, me)
    requires forall e :: e in more ==> Quiet(e, me)
    ensures CertifiedSince(log + more, from, k, me)
    ensures k == |log| ==> CertifiedSince(log + more, from, |log + more|, me)
  {
    var j :| from <= j < k <= |log| && Certifies(log[j], me) && forall i :: j <= i < k ==> log[i] != Restarted(me);
    var longer := log + more;
    assert Certifies(longer[j], me);
    forall i | |log| <= i < |longer| ensures longer[i] != Restarted(me) {
      assert longer[i] in more;
    }
    assert forall i :: j <= i < k ==> longer[i] == log[i];
  }

  lemma CertifiedLonger(log: seq<Event>, e: Event, from: nat, k: nat, me: nat)
    requires k <= |log| && CertifiedSince(log, from, k, me)
    ensures CertifiedSince(log + [e], from, k, me)
  {
    var j :| from <= j < k <= |log| && Certifies(log[j], me) && forall i :: j <= i < k ==> log[i] != Restarted(me);
    assert Certifies((log + [e])[j], me);
    assert forall i :: j <= i < k ==> (log + [e])[i] == log[i];
  }

  /** The log conditions survive any event whose own certificate is present. */
  lemma GuardedAppend(log: seq<Event>, e: Event, from: nat, me: nat)
    requires Guarded(log, from, me) && CreatedOnlyAfterRecheck(log, from, me)
    requires from <= |log|
    requires Destroys(e, me) ==> CertifiedSince(log, from, |log|, me)
    requires e == CreatedDatabase(me) ==>
      exists d :: from <= d < |log| && log[d] == DroppedDatabase(me) && CertifiedSince(log, d, |log|, me)
    ensures Guarded(log + [e], from, me) && CreatedOnlyAfterRecheck(log + [e], from, me)
  {
    var longer := log + [e];
    forall k | from <= k < |longer| && Destroys(longer[k], me) ensures CertifiedSince(longer, from, k, me) {
      CertifiedLonger(log, e, from, k, me);
    }
    forall k | from <= k < |longer| && longer[k] == CreatedDatabase(me)
      ensures exists d :: Recreated(longer, from, d, k, me)
    {
      var d: nat;
      if k < |log| {
        d :| Recreated(log, from, d, k, me);
      } else {
        d :| from <= d < |log| && log[d] == DroppedDatabase(me) && CertifiedSince(log, d, |log|, me);
      }
      CertifiedLonger(log, e, d, k, me);
      assert Recreated(longer, from, d, k, me);
    }
  }

  lemma {:induction false} QuietGuarded(log: seq<Event>, more: seq<Event>, from: nat, me: nat)
    requires Guarded(log, from, me) && CreatedOnlyAfterRecheck(log, from, me) && from <= |log|
    requires forall e :: e in more ==> Quiet(e, me)
    ensures Guarded(log + more, from, me) && CreatedOnlyAfterRecheck(log + more, from, me)
    decreases |more|
  {
    if more == [] {
      assert log + more == log;
    } else {
      assert more[0] in more;
      GuardedAppend(log, more[0], from, me);
      QuietGuarded(log + [more[0]], more[1..], from, me);
      assert log + [more[0]] + more[1..] == log + more;
    }
  }

  predicate OthersStep(s: State, l: Label, me: nat) {
    Enabled(s, l) && (!OfController(l) || l.who != me)
  }

  lemma OthersStayQuiet(s: State, l: Label, me: nat)
    requires me < |s.controllers| && OthersStep(s, l, me)
    ensures s.log <= Do(s, l).log && forall e :: e in Do(s, l).log[|s.log|..] ==> Quiet(e, me)
    ensures |Do(s, l).controllers| == |s.controllers| && Do(s, l).controllers[me] == s.controllers[me]
  {
  }

  class ResetRun {
    const me: nat
    const target: string
    var s: State
    /** Where this reset began in the log. */
    ghost const start: nat
    /** The latest drop of the target database by this reset. */
    ghost var dropped: nat

    ghost predicate Valid()
      reads this
    {
      && Inv(s) && me < |s.controllers| && start <= |s.log|
      && Guarded(s.log, start, me) && CreatedOnlyAfterRecheck(s.log, start, me)
    }

    /** The lock was certified after the given position and no own restart followed. */
    ghost predicate Certified(since: nat)
      reads this
    {
      CertifiedSince(s.log, since, |s.log|, me)
    }

    ghost predicate HasDropped()
      reads this
    {
      start <= dropped < |s.log| && s.log[dropped] == DroppedDatabase(me)
    }

    /** This reset has destroyed nothing so far. */
    ghost predicate Intact()
      reads this
    {
      forall k :: start <= k < |s.log| ==> !Destroys(s.log[k], me)
    }

    constructor (s: State, me: nat, target: string)
      requires Inv(s) && me < |s.controllers|
      ensures Valid() && Intact() && this.s == s && this.me == me && this.target == target && start == |s.log|
    {
      this.s, this.me, this.target := s, me, target;
      start, dropped := |s.log|, 0;
    }

    /** Steps of anything but this controller. */
    method Interfere()
      requires Valid()
      modifies this`s
      ensures Valid() && old(s.log) <= s.log && s.controllers[me] == old(s.controllers[me])
      ensures |s.controllers| == |old(s.controllers)|
      ensures forall since: nat :: since <= |old(s.log)| && old(Certified(since)) ==> Certified(since)
      ensures old(HasDropped()) ==> HasDropped()
      ensures old(Intact()) ==> Intact()
    {
      ghost var before := s.log;
      ghost var more: seq<Event> := [];
      var rounds: nat := *;
      while rounds > 0
        invariant Inv(s) && |s.controllers| == |old(s.controllers)|
        invariant s.controllers[me] == old(s.controllers[me])
        invariant s.log == before + more && forall e :: e in more ==> Quiet(e, me)
      {
        var l: Label := *;
        if OthersStep(s, l, me) {
          StepKeepsInv(s, l);
          OthersStayQuiet(s, l, me);
          more := more + Do(s, l).log[|s.log|..];
          s := Do(s, l);
        }
        rounds := rounds - 1;
      }
      QuietGuarded(before, more, start, me);
      assert forall k :: |before| <= k < |s.log| ==> s.log[k] in more;
      forall since: nat | since <= |before| && CertifiedSince(before, since, |before|, me)
        ensures CertifiedSince(s.log, since, |s.log|, me)
      {
        QuietKeeps(before, more, since, |before|, me);
      }
    }

    /** One step of this controller. */
    method Perform(l: Label)
      requires Valid() && Enabled(s, l) && OfController(l) && l.who == me
      requires l.DropSchemas? || l.DropDatabase? || l.CreateDatabase? ==> Certified(start)
      requires l.CreateDatabase? ==> HasDropped() && Certified(dropped)
      modifies this`s
      ensures Valid() && s == Do(old(s), l)
      ensures old(HasDropped()) ==> HasDropped()
    {
      StepKeepsInv(s, l);
      if Do(s, l).log != s.log {
        GuardedAppend(s.log, Do(s, l).log[|s.log|], start, me);
      }
      s := Do(s, l);
    }

    /** Our phase is that of a controller whose open returned. */
    ghost predicate Opened()
      reads this
    {
      me < |s.controllers| && s.controllers[me].phase == Owner
    }

    /** assert_held: succeeds only for the one owner, and certifies the lock from here on. */
    method AssertHeld() returns (ok: bool)
      requires Valid() && Opened()
      modifies this`s
      ensures Valid() && Opened() && s.controllers[me].database == old(s.controllers[me].database)
      ensures |old(s.log)| <= |s.log| && (old(HasDropped()) ==> HasDropped()) && (old(Intact()) ==> Intact())
      ensures ok ==> Owns(s, me) && forall since: nat :: since <= |old(s.log)| ==> Certified(since)
    {
      Interfere();
      ok := *;
      if !ok || !Enabled(s, Label.AssertHeld(me)) {
        return false;
      }
      Perform(Label.AssertHeld(me));
      assert Certifies(s.log[|s.log| - 1], me);
    }

    /** A call that changes nothing of the lock or the database, such as an access check. */
    method RemoteCall() returns (ok: bool)
      requires Valid() && Opened()
      modifies this`s
      ensures Valid() && Opened() && s.controllers[me] == old(s.controllers[me]) && |old(s.log)| <= |s.log|
      ensures forall since: nat :: since <= |old(s.log)| && old(Certified(since)) ==> Certified(since)
      ensures (old(HasDropped()) ==> HasDropped()) && (old(Intact()) ==> Intact())
    {
      Interfere();
      ok := *;
    }

    /** drop_db: refuses protected names, ends the target's sessions, drops the target. */
    method DropTarget() returns (ok: bool)
      requires Valid() && Opened() && Certified(start)
      modifies this
      ensures Valid() && Opened() && s.controllers[me].database == old(s.controllers[me].database)
      ensures |old(s.log)| <= |s.log|
      ensures ok ==> HasDropped() && Disposable(target)
      ensures !Disposable(target) && old(Intact()) ==> Intact()
    {
      if !Disposable(target) {
        return false;
      }
      ok := RemoteCall();
      var done := *;  // the server may drop the database although the reply is lost
      if ok || done {
        Perform(DropDatabase(me, target));
        dropped := |s.log| - 1;
      }
    }

    /** init_db: creates the target in its place. */
    method CreateTarget() returns (ok: bool)
      requires Valid() && Opened() && Certified(start) && HasDropped() && Certified(dropped)
      modifies this`s
      ensures Valid() && Opened()
      ensures ok ==> Disposable(target) && |old(s.log)| < |s.log| && s.log[|s.log| - 1] == CreatedDatabase(me)
    {
      if !Disposable(target) {
        return false;
      }
      ok := RemoteCall();
      var done := *;
      if ok || done {
        Perform(CreateDatabase(me));
      }
    }

    /** A server restart ends every connection and with it every lock. */
    method RestartServer() returns (ok: bool)
      requires Valid() && Opened()
      modifies this`s
      ensures Valid() && Opened() && |old(s.log)| <= |s.log| && (ok ==> s.holders == {})
      ensures (old(HasDropped()) ==> HasDropped()) && (old(Intact()) ==> Intact())
    {
      ok := RemoteCall();
      var done := *;
      if ok || done {
        Perform(PlannedRestart(me));
      }
    }

    /** reopen_after_restart: gives up unless the lock is acquired and the cross check passes. */
    method ReopenAfterRestart() returns (ok: bool)
      requires Valid() && Opened()
      modifies this`s
      ensures Valid() && |old(s.log)| <= |s.log| && (old(HasDropped()) ==> HasDropped()) && (old(Intact()) ==> Intact())
      ensures ok ==> Opened() && Owns(s, me) && s.controllers[me].database == "postgres"
      ensures ok ==> forall since: nat :: since <= |old(s.log)| ==> Certified(since)
      ensures !ok ==> s.controllers[me].phase == Off
    {
      Perform(Release(me));
      ok := ConnectAndLock();
      if ok {
        ok := PassCrossCheck();
      }
      if ok {
        ok := *;  // the remaining checks of open
      }
      if !ok {
        GiveUp();
      }
    }

    /** The inspection of all databases: it certifies the lock from here on. */
    method PassCrossCheck() returns (ok: bool)
      requires Valid() && s.controllers[me].phase == Locked && s.controllers[me].database == "postgres"
      modifies this`s
      ensures Valid() && |old(s.log)| <= |s.log| && (old(HasDropped()) ==> HasDropped()) && (old(Intact()) ==> Intact())
      ensures ok ==> Opened() && Owns(s, me) && s.controllers[me].database == "postgres"
      ensures ok ==> forall since: nat :: since <= |old(s.log)| ==> Certified(since)
    {
      ok := Enabled(s, CrossCheck(me));
      if ok {
        Perform(CrossCheck(me));
        assert Certifies(s.log[|s.log| - 1], me);
      }
    }

    method GiveUp()
      requires Valid()
      modifies this`s
      ensures Valid() && s.controllers[me].phase == Off && s.log == old(s.log)
    {
      if s.controllers[me].phase != Off {
        Perform(Release(me));
      }
    }

    method ConnectAndLock() returns (ok: bool)
      requires Valid() && s.controllers[me].phase == Off
      modifies this`s
      ensures Valid() && |old(s.log)| <= |s.log| && (old(HasDropped()) ==> HasDropped()) && (old(Intact()) ==> Intact())
      ensures ok ==> s.controllers[me].phase == Locked && s.controllers[me].database == "postgres"
    {
      Interfere();
      ok := *;
      if !ok || !Enabled(s, Connect(me, "postgres")) {
        return false;
      }
      Perform(Connect(me, "postgres"));
      Interfere();
      if !Enabled(s, TryLock(me)) {
        return false;
      }
      Perform(TryLock(me));
      Interfere();
    }

    /** DROP SCHEMA ... CASCADE on the controller's own connection to the target database. */
    method ResetSchemas() returns (ok: bool)
      requires Valid() && Opened() && Certified(start)
      modifies this`s
      ensures Valid() && |old(s.log)| <= |s.log|
      ensures ok ==> Disposable(target)
      ensures !Disposable(target) && old(Intact()) ==> Intact()
    {
      if !Disposable(target) {
        return false;
      }
      ok := RemoteCall();
      var done := *;
      if !Enabled(s, DropSchemas(me)) {
        return false;
      }
      if ok || done {
        Perform(DropSchemas(me));
      }
    }

    /** Managed service: no restart, two more checks around the drop. */
    method ResetManaged() returns (ok: bool)
      requires Valid() && Opened()
      modifies this
      ensures Valid() && (old(Intact()) && !Disposable(target) ==> !ok && Intact())
      ensures ok ==> |s.log| > 0 && CreatedDatabase(me) in s.log[start..]
    {
      ok := RemoteCall();
      if ok {
        ok := AssertHeld();
      }
      if ok {
        ok := DropTarget();
      }
      if ok {
        ok := AssertHeld();
        if ok {
          ok := CreateAndProbe();
        }
      }
    }

    method CreateAndProbe() returns (ok: bool)
      requires Valid() && Opened() && Certified(start) && HasDropped() && Certified(dropped)
      modifies this`s
      ensures Valid()
      ensures ok ==> CreatedDatabase(me) in s.log[start..]
    {
      ok := CreateTarget();
      if ok {
        ghost var k := |s.log| - 1;
        assert s.log[start..][k - start] == CreatedDatabase(me);
        Interfere();
        assert s.log[start..][k - start] == CreatedDatabase(me);
        ok := *;
      }
    }

    /** Plain or Patroni host: the server restarts between the drop and the creation. */
    method ResetHost(patroni: bool) returns (ok: bool)
      requires Valid() && Opened()
      modifies this
      ensures Valid() && (old(Intact()) && !Disposable(target) ==> !ok && Intact())
      ensures ok ==> CreatedDatabase(me) in s.log[start..]
    {
      ok := RemoteCall();  // option and membership checks, or start_db and an access check
      if ok {
        ok := AssertHeld();
      }
      if ok {
        ok := DropTarget();
      }
      if ok {
        ok := RestartAndRecreate(patroni);
      }
    }

    method RestartAndRecreate(patroni: bool) returns (ok: bool)
      requires Valid() && Opened() && HasDropped()
      modifies this`s
      ensures Valid()
      ensures ok ==> CreatedDatabase(me) in s.log[start..]
    {
      if patroni {
        ok := RemoteCall();  // sync
        if !ok {
          return;
        }
      }
      ok := AssertHeld();
      if !ok {
        return;
      }
      ok := RestartServer();
      if !ok {
        return;
      }
      ok := RemoteCall();  // sync, cache drop, start and access checks
      if ok {
        ok := ReopenAfterRestart();
      }
      if ok {
        ok := CreateAndProbe();
      }
    }

    /**
     * The whole reset: each of its DROP and CREATE statements was certified after the last restart
     * it made, and each CREATE again after its DROP.
     */
    method Reset(allowed: bool, mode: Mode, patroni: bool) returns (ok: bool)
      requires Valid() && Intact() && Opened()
      modifies this
      ensures Valid() && Guarded(s.log, start, me) && CreatedOnlyAfterRecheck(s.log, start, me)
      ensures !allowed || !Disposable(target) ==> !ok && Intact()
      ensures ok && mode != Schemas ==> CreatedDatabase(me) in s.log[start..]
    {
      if !allowed {
        return false;
      }
      ok := AssertHeld();
      if !ok {
        return;
      }
      match mode {
        case Schemas => ok := ResetSchemas();
        case Managed => ok := ResetManaged();
        case HostControlled => ok := ResetHost(patroni);
      }
    }
  }
}
