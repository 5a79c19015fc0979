/**
 * The server-wide benchmark lock (initialization_settings.py, _acquire_lock and assert_held):
 * an advisory lock that PostgreSQL keeps per database, made exclusive across databases by
 * acquiring first and inspecting all databases afterwards. Any number of controllers contend.
 */
module BenchmarkLock {
  import opened Collections

  /** How far a controller's open has come; Owner means that it returned normally. */
  datatype Phase = Off | Connected | Locked | Owner

  datatype Controller = Controller(phase: Phase, backend: nat, database: string)

  /** What happened, in order; the number is the controller's. */
  datatype Event =
    | Acquired(who: nat)
    | Checked(who: nat)
    | DroppedSchemas(who: nat)
    | DroppedDatabase(who: nat)
    | CreatedDatabase(who: nat)
    | Restarted(who: nat)

  /** live maps each server backend to its database; holders are the backends with the lock. */
  datatype State = State(
    live: map<nat, string>,
    holders: set<nat>,
    controllers: seq<Controller>,
    next: nat,
    inRecovery: bool,
    log: seq<Event>)

  datatype Label =
    // a controller
    | Connect(who: nat, database: string)
    | TryLock(who: nat)
    | CrossCheck(who: nat)
    | AssertHeld(who: nat)
    | Release(who: nat)
    | Vanish(who: nat)
    | DropSchemas(who: nat)
    | DropDatabase(who: nat, target: string)
    | CreateDatabase(who: nat)
    | PlannedRestart(who: nat)
    // the server
    | BackendDies(backend: nat)
    | UnplannedRestart
    | ChangeRole(inRecovery: bool)

  predicate OfController(l: Label) {
    !l.BackendDies? && !l.UnplannedRestart? && !l.ChangeRole?
  }

  function Initial(n: nat): State {
    State(map[], {}, seq(n, _ => Controller(Off, 0, "")), 0, false, [])
  }

  predicate HasBackend(s: State, c: nat)
    requires c < |s.controllers|
  {
    s.controllers[c].phase != Off && s.controllers[c].backend in s.live
  }

  /** The lock check of assert_held, as the server answers it to this controller. */
  predicate HeldQuery(s: State, c: nat)
    requires c < |s.controllers|
  {
    && s.controllers[c].phase in {Locked, Owner}
    && HasBackend(s, c)
    && s.controllers[c].backend in s.holders
    && !s.inRecovery
  }

  predicate SameDatabaseFree(s: State, c: nat)
    requires c < |s.controllers|
  {
    forall b :: b in s.holders && b != s.controllers[c].backend && b in s.live ==>
      s.live[b] != s.controllers[c].database
  }

  predicate Enabled(s: State, l: Label) {
    && (OfController(l) ==> l.who < |s.controllers|)
    && match l
       case Connect(c, _) => s.controllers[c].phase == Off && !s.inRecovery
       case TryLock(c) => s.controllers[c].phase == Connected && HasBackend(s, c) && SameDatabaseFree(s, c)
       case CrossCheck(c) =>
         s.controllers[c].phase == Locked && HasBackend(s, c) && s.holders <= {s.controllers[c].backend}
       case AssertHeld(c) => s.controllers[c].phase == Owner && HeldQuery(s, c)
       case Release(c) => s.controllers[c].phase != Off
       case Vanish(c) => s.controllers[c].phase != Off
       case DropSchemas(c) => s.controllers[c].phase == Owner && HasBackend(s, c)
       case DropDatabase(c, _) => s.controllers[c].phase == Owner
       case CreateDatabase(c) => s.controllers[c].phase == Owner
       case PlannedRestart(c) => s.controllers[c].phase == Owner
       case BackendDies(b) => b in s.live
       case UnplannedRestart => true
       case ChangeRole(_) => true
  }

  function SetPhase(s: State, c: nat, phase: Phase): State
    requires c < |s.controllers|
  {
    s.(controllers := s.controllers[c := s.controllers[c].(phase := phase)])
  }

  function Logged(s: State, e: Event): State {
    s.(log := s.log + [e])
  }

  function Kill(s: State, victims: set<nat>): State {
    s.(live := s.live - victims, holders := s.holders - victims)
  }

  /** The backends of a database, which drop_db terminates. */
  function Sessions(s: State, target: string): set<nat> {
    set b | b in s.live && s.live[b] == target
  }

  function Do(s: State, l: Label): State
    requires Enabled(s, l)
  {
    match l
    case Connect(c, database) =>
      s.(live := s.live[s.next := database],
         next := s.next + 1,
         controllers := s.controllers[c := Controller(Connected, s.next, database)])
    case TryLock(c) => SetPhase(s, c, Locked).(holders := s.holders + {s.controllers[c].backend})
    case CrossCheck(c) => Logged(SetPhase(s, c, Owner), Acquired(c))
    case AssertHeld(c) => Logged(s, Checked(c))
    case Release(c) => Kill(SetPhase(s, c, Off), {s.controllers[c].backend})
    case Vanish(c) => SetPhase(s, c, Off)
    case DropSchemas(c) => Logged(s, DroppedSchemas(c))
    case DropDatabase(c, target) => Logged(Kill(s, Sessions(s, target)), DroppedDatabase(c))
    case CreateDatabase(c) => Logged(s, CreatedDatabase(c))
    case PlannedRestart(c) => Logged(Kill(s, s.live.Keys), Restarted(c))
    case BackendDies(b) => Kill(s, {b})
    case UnplannedRestart => Kill(s, s.live.Keys)
    case ChangeRole(r) => s.(inRecovery := r)
  }

  predicate Possible(s: State, steps: seq<Label>)
    decreases |steps|
  {
    steps != [] ==> Enabled(s, steps[0]) && Possible(Do(s, steps[0]), steps[1..])
  }

  function After(s: State, steps: seq<Label>): State
    requires Possible(s, steps)
    decreases |steps|
  {
    if steps == [] then s else After(Do(s, steps[0]), steps[1..])
  }

  // ---------------------------------------------------------------- exclusion

  /** A controller that passed the cross-database check and whose live backend holds the lock. */
  predicate Owns(s: State, c: nat)
    requires c < |s.controllers|
  {
    s.controllers[c].phase == Owner && HasBackend(s, c) && s.controllers[c].backend in s.holders
  }

  predicate BackendsApart(s: State) {
    && (forall c :: 0 <= c < |s.controllers| && s.controllers[c].phase != Off ==> s.controllers[c].backend < s.next)
    && (forall c, d ::
          0 <= c < d < |s.controllers| && s.controllers[c].phase != Off && s.controllers[d].phase != Off ==>
          s.controllers[c].backend != s.controllers[d].backend)
  }

  predicate OneOwner(s: State) {
    forall c, d :: 0 <= c < d < |s.controllers| ==> !(Owns(s, c) && Owns(s, d))
  }

  /** The lock table agrees with the backends, and every controller past its attempt holds the lock. */
  predicate Backed(s: State) {
    && s.holders <= s.live.Keys
    && (forall b :: b in s.live ==> b < s.next)
    && (forall c :: 0 <= c < |s.controllers| && HasBackend(s, c) ==>
          s.live[s.controllers[c].backend] == s.controllers[c].database)
    && (forall c :: 0 <= c < |s.controllers| && s.controllers[c].phase in {Locked, Owner} && HasBackend(s, c) ==>
          s.controllers[c].backend in s.holders)
  }

  predicate Inv(s: State) {
    Backed(s) && BackendsApart(s) && OneOwner(s)
  }

  lemma StepKeepsBacked(s: State, l: Label)
    requires Backed(s) && BackendsApart(s) && Enabled(s, l)
    ensures Backed(Do(s, l))
  {
  }

  lemma StepKeepsApart(s: State, l: Label)
    requires Backed(s) && BackendsApart(s) && Enabled(s, l)
    ensures BackendsApart(Do(s, l))
  {
  }

  lemma StepKeepsOneOwner(s: State, l: Label)
    requires Inv(s) && Enabled(s, l)
    ensures OneOwner(Do(s, l))
  {
    var t := Do(s, l);
    if !l.CrossCheck? {
      assert forall x :: 0 <= x < |t.controllers| && Owns(t, x) ==> Owns(s, x);
    }
  }

  lemma StepKeepsInv(s: State, l: Label)
    requires Inv(s) && Enabled(s, l)
    ensures Inv(Do(s, l))
  {
    StepKeepsBacked(s, l);
    StepKeepsApart(s, l);
    StepKeepsOneOwner(s, l);
  }

  lemma {:induction false} RunKeepsInv(s: State, steps: seq<Label>)
    requires Inv(s) && Possible(s, steps)
    ensures Inv(After(s, steps))
    decreases |steps|
  {
    if steps != [] {
      StepKeepsInv(s, steps[0]);
      RunKeepsInv(Do(s, steps[0]), steps[1..]);
    }
  }

  /**
   * For any number of controllers and databases, with backends dying and servers restarting, at
   * most one controller owns the server.
   */
  lemma AtMostOneOwner(n: nat, steps: seq<Label>, c: nat, d: nat)
    requires Possible(Initial(n), steps)
    requires var s := After(Initial(n), steps); c < |s.controllers| && d < |s.controllers| && Owns(s, c) && Owns(s, d)
    ensures c == d
  {
    RunKeepsInv(Initial(n), steps);
  }

  /** A check that succeeds after a normal open certifies the one owner. */
  lemma CheckCertifiesOwner(n: nat, steps: seq<Label>, c: nat, d: nat)
    requires Possible(Initial(n), steps)
    requires Enabled(After(Initial(n), steps), AssertHeld(c))
    requires d < |After(Initial(n), steps).controllers|
    ensures var s := After(Initial(n), steps); Owns(s, c) && (Owns(s, d) <==> d == c)
  {
    RunKeepsInv(Initial(n), steps);
    if Owns(After(Initial(n), steps), d) {
      AtMostOneOwner(n, steps, c, d);
    }
  }

  /** While somebody owns the server, nobody else can pass the cross-database check. */
  lemma NobodyPassesAnOwner(n: nat, steps: seq<Label>, c: nat, d: nat)
    requires Possible(Initial(n), steps) && c != d
    requires var s := After(Initial(n), steps); c < |s.controllers| && d < |s.controllers| && Owns(s, c)
    ensures !Enabled(After(Initial(n), steps), CrossCheck(d))
  {
    RunKeepsInv(Initial(n), steps);
  }

  predicate Leads(s: State, steps: seq<Label>, t: State) {
    Possible(s, steps) && After(s, steps) == t
  }

  lemma Prepend(s: State, l: Label, steps: seq<Label>, t: State)
    requires Enabled(s, l) && Leads(Do(s, l), steps, t)
    ensures Leads(s, [l] + steps, t)
  {
    assert ([l] + steps)[1..] == steps;
  }

  /**
   * The server's answer alone does not certify ownership: before their cross-database checks two
   * controllers of different databases can both be told that they hold the lock.
   */
  lemma AnswerAloneIsNotEnough(one: string, two: string) returns (steps: seq<Label>)
    requires one != two
    ensures Possible(Initial(2), steps)
    ensures var s := After(Initial(2), steps); |s.controllers| == 2 && HeldQuery(s, 0) && HeldQuery(s, 1)
  {
    var s1 := Do(Initial(2), Connect(0, one));
    var s2 := Do(s1, Connect(1, two));
    var s3 := Do(s2, TryLock(0));
    var s4 := Do(s3, TryLock(1));
    Prepend(s3, TryLock(1), [], s4);
    Prepend(s2, TryLock(0), [TryLock(1)] + [], s4);
    Prepend(s1, Connect(1, two), [TryLock(0)] + ([TryLock(1)] + []), s4);
    steps := [Connect(0, one)] + ([Connect(1, two)] + ([TryLock(0)] + ([TryLock(1)] + [])));
    Prepend(Initial(2), Connect(0, one), [Connect(1, two)] + ([TryLock(0)] + ([TryLock(1)] + [])), s4);
  }

  // ---------------------------------------------------------------- the destructive steps

  const PROTECTED := {"postgres", "template0", "template1"}

  predicate Disposable(target: string) {
    Lower(target) !in PROTECTED
  }

  /** Terminating the target's sessions never ends a controller that sits in postgres. */
  lemma DropSparesController(s: State, c: nat, target: string)
    requires Inv(s) && Enabled(s, DropDatabase(c, target)) && Disposable(target)
    requires s.controllers[c].database == "postgres"
    ensures var t := Do(s, DropDatabase(c, target)); Owns(s, c) <==> Owns(t, c)
  {
    assert Lower("postgres") == "postgres";
  }
}
