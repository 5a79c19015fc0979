/**
 * When the journal tells the truth for a number of clients without any guard: the configurations
 * in which no unlink can do harm, and the runs that lie in all others.
 */
module FsyncFleet {
  import opened Wrappers
  import Lock = BenchmarkLock
  import opened FsyncJournal
  import opened FsyncClients
  import opened FsyncUnfenced

  ghost predicate AllRunsTellTheTruth(p: Params, n: nat) {
    forall steps, s :: Runs(p, Start(p, n), steps, s) ==> TellsTheTruth(p, s)
  }

  // ---------------------------------------------------------------- auto.conf holds off already

  predicate MemoriesOk(p: Params, s: World) {
    forall i :: 0 <= i < |s.members| ==> MemoryOk(p, s.members[i].client)
  }

  /** Nothing this program writes to auto.conf differs from what it held before. */
  predicate OffInv(p: Params, s: World) {
    && Shaped(s) && Truthful(p, s.journal.visible) && Truthful(p, s.journal.durable)
    && Untouched(p, s.server) && MemoriesOk(p, s)
  }

  lemma OffAct(p: Params, s: World, i: nat, l: Label)
    requires p.auto == Some(OFF) && !p.meaning(OFF) && OffInv(p, s) && CanHappen(p, s, Act(i, l))
    ensures var t := DoAct(p, s, i, l);
      Truthful(p, t.journal.visible) && Truthful(p, t.journal.durable) && Untouched(p, t.server)
  {
    assert MemoryOk(p, s.members[i].client);
  }

  lemma ActRemembers(p: Params, s: World, i: nat, l: Label)
    requires Shaped(s) && CanHappen(p, s, Act(i, l)) && MemoryOk(p, s.members[i].client)
    requires Truthful(p, s.journal.visible) && (l.Capture? ==> Untouched(p, s.server))
    ensures MemoryOk(p, DoAct(p, s, i, l).members[i].client)
  {
  }

  lemma OffStep(p: Params, s: World, step: Step)
    requires p.auto == Some(OFF) && !p.meaning(OFF) && OffInv(p, s) && CanHappen(p, s, step)
    ensures OffInv(p, Next(p, s, step))
  {
    if step.Act? {
      OffAct(p, s, step.who, step.action);
      ActRemembers(p, s, step.who, step.action);
    }
  }

  lemma {:induction false} OffRun(p: Params, s: World, steps: seq<Step>, t: World)
    requires p.auto == Some(OFF) && !p.meaning(OFF) && OffInv(p, s) && Runs(p, s, steps, t)
    ensures OffInv(p, t)
    decreases |steps|
  {
    if steps != [] {
      OffStep(p, s, steps[0]);
      OffRun(p, Next(p, s, steps[0]), steps[1..], t);
    }
  }

  // ---------------------------------------------------------------- the text is not listed

  /** No restore ever gets past its first statement, so that no journal is ever unlinked. */
  predicate NobodyRestores(s: World) {
    forall i :: 0 <= i < |s.members| ==>
      s.members[i].client.pc !in {SwitchedBack, AwaitingBack, Back, Checkpointed, Synced, Unlinked}
  }

  lemma UnlistedStep(p: Params, s: World, step: Step)
    requires !Restorable(p.auto) && WorldInv(p, s) && NobodyRestores(s) && CanHappen(p, s, step)
    ensures WorldInv(p, Next(p, s, step)) && NobodyRestores(Next(p, s, step))
  {
    if step.Act? {
      assert MemberOk(p, s, step.who);
      assert !step.action.Unlink? && !step.action.SwitchBack?;
    }
    FsyncClients.StepKeepsInv(p, s, step);
  }

  lemma {:induction false} UnlistedRun(p: Params, s: World, steps: seq<Step>, t: World)
    requires !Restorable(p.auto) && WorldInv(p, s) && NobodyRestores(s) && Runs(p, s, steps, t)
    ensures WorldInv(p, t)
    decreases |steps|
  {
    if steps != [] {
      UnlistedStep(p, s, steps[0]);
      UnlistedRun(p, Next(p, s, steps[0]), steps[1..], t);
    }
  }

  // ---------------------------------------------------------------- there is only one client

  /** The only client knows as much as a holder, even while it does not hold the lock. */
  predicate SoleInv(p: Params, s: World) {
    && Shaped(s) && |s.members| <= 1 && SharedOk(p, s.server, s.journal)
    && (|s.members| == 1 ==> Knows(p, s, s.members[0]))
  }

  lemma SoleAct(p: Params, s: World, l: Label)
    requires SoleInv(p, s) && CanHappen(p, s, Act(0, l))
    ensures SoleInv(p, DoAct(p, s, 0, l))
  {
    SharedStays(p, s, 0, l);
    ActRemembers(p, s, 0, l);
    ActKeepsOwnFile(p, s, 0, l);
    HolderStaysUntouched(p, s, 0, l);
    HolderOwnsFile(p, s, 0, l);
    HolderAdvances(p, s, 0, l);
  }

  lemma SoleStep(p: Params, s: World, step: Step)
    requires SoleInv(p, s) && CanHappen(p, s, step)
    ensures SoleInv(p, Next(p, s, step))
  {
    if step.Act? {
      SoleAct(p, s, step.action);
    }
  }

  lemma {:induction false} SoleRun(p: Params, s: World, steps: seq<Step>, t: World)
    requires SoleInv(p, s) && Runs(p, s, steps, t)
    ensures SoleInv(p, t)
    decreases |steps|
  {
    if steps != [] {
      SoleStep(p, s, steps[0]);
      SoleRun(p, Next(p, s, steps[0]), steps[1..], t);
    }
  }

  // ---------------------------------------------------------------- all other configurations

  /** The configuration after a restart that applied a pending edit of auto.conf. */
  function AfterRestart(p: Params): Params {
    p.(effective := Own(p))
  }

  lemma SameSteps(p: Params, s: World, step: Step)
    requires Shaped(s) && CanHappen(AfterRestart(p), s, step)
    ensures CanHappen(p, s, step) && Next(p, s, step) == Next(AfterRestart(p), s, step)
  {
  }

  /** What a run is does not depend on the value that was in effect before it. */
  lemma {:induction false} SameRuns(p: Params, s: World, steps: seq<Step>, t: World)
    requires Shaped(s) && Runs(AfterRestart(p), s, steps, t)
    ensures Runs(p, s, steps, t)
    decreases |steps|
  {
    if steps != [] {
      SameSteps(p, s, steps[0]);
      SameRuns(p, Next(p, s, steps[0]), steps[1..], t);
    }
  }

  /** A lying run for every configuration that a restore can handle and that is not off already. */
  lemma SomeRunLies(p: Params, n: nat) returns (steps: seq<Step>, s: World)
    requires n >= 2 && Restorable(p.auto) && p.auto != Some(OFF) && !p.meaning(OFF)
    ensures Runs(p, Start(p, n), steps, s) && !TellsTheTruth(p, s)
  {
    var rest: seq<Step>;
    rest, s := SlowSyncStrands(AfterRestart(p), n);
    SameRuns(p, Start(AfterRestart(p), n), rest, s);
    var restart := OfLock(Lock.UnplannedRestart);
    assert Next(p, Start(p, n), restart) == Start(AfterRestart(p), n);
    steps := [restart] + rest;
    assert steps[1..] == rest;
  }

  /**
   * The journal tells the truth in every run of n clients, unguarded as the program is, if and only
   * if there is at most one client, or no restore can ever succeed, or auto.conf held off anyway.
   */
  lemma FleetTellsTheTruthExactlyWhen(p: Params, n: nat)
    requires !p.meaning(OFF)
    ensures AllRunsTellTheTruth(p, n) <==> n < 2 || !Restorable(p.auto) || p.auto == Some(OFF)
  {
    if n < 2 || !Restorable(p.auto) || p.auto == Some(OFF) {
      StartInv(p, n);
      forall steps, s | Runs(p, Start(p, n), steps, s) ensures TellsTheTruth(p, s) {
        if n < 2 {
          SoleRun(p, Start(p, n), steps, s);
        } else if !Restorable(p.auto) {
          UnlistedRun(p, Start(p, n), steps, s);
        } else {
          OffRun(p, Start(p, n), steps, s);
        }
      }
    } else {
      var steps, s := SomeRunLies(p, n);
    }
  }
}
