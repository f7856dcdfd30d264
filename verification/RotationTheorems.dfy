/**
  The guarantees of the rotation protocol over whole runs: any retry limit, any sequence
  of supervisor segments, hook calls, coordinator traffic, deaths and crashes.
 */
module RotationTheorems {
  import opened Options
  import opened Claims
  import opened Rotation
  import opened RotationSafety
  import opened RotationEffects

  // ---------------------------------------------------------------- what shutdown can tell

  /** The durable record of "this runtime became the user's session" is its conversation. */
  ghost predicate AdoptionOk(w: World) {
    var s := w.disk;
    && (forall g :: Acked(w.journal, g) ==> g.generation <= s.generation)
    && ((s.phase.Launching? || s.phase.AwaitingAck?) && s.generation > 0 ==>
          s.conversation.None? && forall g :: Acked(w.journal, g) ==> g.generation < s.generation)
    && (s.process.Some? ==> s.process.value.generation == s.generation)
    && (s.process.Some? && s.generation > 0 ==> (s.conversation.Some? <==> Acked(w.journal, s.process.value)))
  }

  lemma AckedExactly(journal: seq<Entry>, e: Entry, g: Guardian)
    ensures Acked(journal + [e], g) <==> Acked(journal, g) || (e.AckPersisted? && Covers(e.ack, g))
  {
    AckedGrows(journal, e);
    if Acked(journal + [e], g) {
      var i :| 0 <= i < |journal + [e]| && (journal + [e])[i].AckPersisted? && Covers((journal + [e])[i].ack, g);
      if i < |journal| {
        assert journal[i].AckPersisted?;
      }
    }
  }

  lemma AdoptionEnvironment(w: World, a: Action)
    requires AdoptionOk(w)
    ensures AdoptionOk(Environment(w, a))
  {
    if a.HookAppendsTurn? {
      forall g ensures Acked(w.journal + [TurnStarted(a.turn)], g) <==> Acked(w.journal, g) {
        AckedExactly(w.journal, TurnStarted(a.turn), g);
      }
    }
  }

  lemma AdoptionTicking(w: World, a: Action)
    requires AdoptionOk(w) && DispatchOk(w) && CapsuleReady(w.disk)
    ensures AdoptionOk(Ticking(w, a))
  {
  }

  lemma AdoptionStarting(w: World, a: Action)
    requires AdoptionOk(w) && PendingFits(w) && CapsuleReady(w.disk)
    ensures AdoptionOk(Starting(w, a))
  {
  }

  lemma AdoptionRotating(w: World, a: Action)
    requires AdoptionOk(w) && PendingFits(w) && Located(w.disk, w.driver)
    ensures AdoptionOk(Rotating(w, a))
  {
  }

  lemma AdoptionShutdown(w: World, a: Action)
    requires AdoptionOk(w)
    ensures AdoptionOk(ShuttingDownStep(w, a))
  {
  }

  lemma AdoptionRetry(w: World, a: Action)
    requires AdoptionOk(w) && PendingFits(w) && !a.WriteAcknowledged?
    ensures AdoptionOk(Acknowledging(w, a))
  {
  }

  lemma AdoptionAcknowledged(w: World)
    requires AdoptionOk(w) && Exclusive(w) && CapsulesAgree(w.disk, w.driver)
    ensures AdoptionOk(Acknowledging(w, WriteAcknowledged))
  {
    if w.pending.AckVerified? {
      forall g ensures Acked(w.journal + [AckPersisted(w.pending.ack)], g) <==> Acked(w.journal, g) || Covers(w.pending.ack, g) {
        AckedExactly(w.journal, AckPersisted(w.pending.ack), g);
      }
    }
  }

  // ---------------------------------------------------------------- reachable worlds

  ghost predicate Good(w: World) {
    && Exclusive(w) && CapsulesAgree(w.disk, w.driver) && ClaimsOk(w) && TraceOk(w) && DispatchOk(w) && AdoptionOk(w)
    && (forall g: nat :: g > 0 ==> BudgetOk(w, g))
  }

  lemma GoodStep(w: World, a: Action)
    requires Good(w)
    ensures Good(Do(w, a))
  {
    ExclusiveStep(w, a);
    AgreeStep(w, a);
    ClaimsOkStep(w, a);
    TraceStep(w, a);
    DispatchStep(w, a);
    AdoptionStep(w, a);
    forall g: nat | g > 0 ensures BudgetOk(Do(w, a), g) {
      BudgetStep(w, a, g);
    }
  }

  lemma AdoptionStep(w: World, a: Action)
    requires AdoptionOk(w) && Exclusive(w) && CapsulesAgree(w.disk, w.driver) && DispatchOk(w)
    ensures AdoptionOk(Do(w, a))
  {
    AdoptionEnvironment(w, a);
    AdoptionTicking(w, a);
    AdoptionStarting(w, a);
    AdoptionRotating(w, a);
    AdoptionShutdown(w, a);
    if a.WriteAcknowledged? {
      AdoptionAcknowledged(w);
    } else {
      AdoptionRetry(w, a);
    }
  }

  lemma GoodStart(limit: nat)
    ensures Good(Start(limit))
  {
  }

  lemma LimitQuiet(w: World, a: Action)
    ensures Environment(w, a).limit == w.limit && Starting(w, a).limit == w.limit && Ticking(w, a).limit == w.limit
  {
  }

  lemma LimitStep(w: World, a: Action)
    ensures Do(w, a).limit == w.limit
  {
    LimitQuiet(w, a);
    hide Environment, Starting, Ticking;
  }

  lemma {:induction false} Reachable(limit: nat, actions: seq<Action>)
    ensures Good(Run(Start(limit), actions)) && Run(Start(limit), actions).limit == limit
    decreases |actions|
  {
    if actions == [] {
      GoodStart(limit);
    } else {
      var before := actions[..|actions| - 1];
      Reachable(limit, before);
      GoodStep(Run(Start(limit), before), actions[|actions| - 1]);
      LimitStep(Run(Start(limit), before), actions[|actions| - 1]);
    }
  }

  // ---------------------------------------------------------------- theorems

  /** At most one runtime of the chain is ever live, including any that could still register. */
  lemma {:induction false} OneRuntimeAtATime(limit: nat, actions: seq<Action>)
    ensures var d := Run(Start(limit), actions).driver;
            forall g, h :: g in d.alive + d.starting && h in d.alive + d.starting ==> g == h
  {
    hide Run;
    Reachable(limit, actions);
  }

  /**
    A new runtime is spawned only when none of any generation is live or starting, only for
    the generation on disk, and for a successor only with the capsule checkpointed for it.
   */
  lemma {:induction false} SpawnsAlone(limit: nat, actions: seq<Action>, a: Action)
    ensures var w := Run(Start(limit), actions);
            forall g :: g in Do(w, a).driver.spawned && g !in w.driver.spawned ==>
              && w.driver.alive == {} && w.driver.starting == {}
              && g.generation == w.disk.generation
              && (g.generation > 0 ==> g.capsule == w.disk.checkpoint && w.disk.checkpoint.Some?
                                       && w.disk.checkpoint.value.target == g.generation)
  {
    hide Run;
    Reachable(limit, actions);
    SpawnStep(Run(Start(limit), actions), a);
  }

  lemma SpawnStep(w: World, a: Action)
    requires Exclusive(w)
    ensures forall g :: g in Do(w, a).driver.spawned && g !in w.driver.spawned ==>
              && w.driver.alive == {} && w.driver.starting == {}
              && g.generation == w.disk.generation
              && (g.generation > 0 ==> g.capsule == w.disk.checkpoint && w.disk.checkpoint.Some?
                                       && w.disk.checkpoint.value.target == g.generation)
  {
    if a.Launch? && w.pending.Idle? && w.disk.phase == Launching {
      StartFreshKeeps(w.driver, w.disk.generation, if w.disk.generation > 0 then w.disk.checkpoint else None, a.end);
    } else {
      SpawnedOnlyByLaunch(w, a);
    }
  }

  lemma SpawnedOnlyByLaunch(w: World, a: Action)
    requires !(a.Launch? && w.pending.Idle? && w.disk.phase == Launching)
    ensures Do(w, a).driver.spawned == w.driver.spawned
  {
    SpawnedQuiet(w, a);
    SpawnedStops(w, a);
  }

  lemma SpawnedQuiet(w: World, a: Action)
    ensures Starting(w, a).driver == w.driver && Ticking(w, a).driver == w.driver
    ensures Environment(w, a).driver.spawned == w.driver.spawned
  {
  }

  lemma SpawnedStops(w: World, a: Action)
    requires !(a.Launch? && w.pending.Idle? && w.disk.phase == Launching)
    ensures Rotating(w, a).driver.spawned == w.driver.spawned
    ensures Acknowledging(w, a).driver.spawned == w.driver.spawned
    ensures ShuttingDownStep(w, a).driver.spawned == w.driver.spawned
  {
  }

  /** Nothing is skipped: before any effect, every earlier one of the canonical order took place. */
  lemma {:induction false} EffectsNeverSkip(limit: nat, actions: seq<Action>, j: nat, position: nat)
    requires j < |Run(Start(limit), actions).trace|
    requires position < Position(Run(Start(limit), actions).trace[j]) && position != 2
    ensures exists k :: 0 <= k < j && Position(Run(Start(limit), actions).trace[k]) == position
  {
    hide Run;
    Reachable(limit, actions);
    NeverSkips(Run(Start(limit), actions).trace, j, position);
  }

  /** Nothing is repeated after a later effect, launch retries excepted. */
  lemma {:induction false} EffectsNeverGoBack(limit: nat, actions: seq<Action>, i: nat, j: nat)
    requires i <= j < |Run(Start(limit), actions).trace|
    ensures var trace := Run(Start(limit), actions).trace;
            || Position(trace[i]) <= Position(trace[j])
            || (trace[i].AckRecorded? && trace[j] == LaunchAttempted(trace[i].generation))
  {
    hide Run;
    Reachable(limit, actions);
    NeverGoesBack(Run(Start(limit), actions).trace, i, j);
  }

  /** Generation and claim move together: each advance is by one claim, with a larger epoch. */
  lemma {:induction false} ClaimsAdvance(limit: nat, actions: seq<Action>, i: nat)
    requires i <= |actions| && Run(Start(limit), actions[..i]).disk.claim.Some?
    ensures var earlier := Run(Start(limit), actions[..i]).disk;
            var later := Run(Start(limit), actions).disk;
            && earlier.claim.value.owner == Session(earlier.generation)
            && Follows(later, earlier.generation, earlier.claim.value)
            && (later.claim.Some? ==> later.claim.value.owner == Session(later.generation))
    decreases |actions|
  {
    Reachable(limit, actions);
    if i == |actions| {
      assert actions[..i] == actions;
    } else {
      var before := actions[..|actions| - 1];
      assert before[..i] == actions[..i];
      ClaimsAdvance(limit, before, i);
      Reachable(limit, before);
      var s := Run(Start(limit), actions[..i]).disk;
      FollowsStep(Run(Start(limit), before), actions[|actions| - 1], s.generation, s.claim.value);
    }
  }

  /** A generation is entered only from the one before it, right after its own claim was taken. */
  lemma {:induction false} GenerationsStepByOne(limit: nat, actions: seq<Action>, a: Action)
    ensures var w := Run(Start(limit), actions);
            var s := Do(w, a).disk;
            s.generation != w.disk.generation ==>
              && s.generation == w.disk.generation + 1
              && w.disk.phase == Claiming && s.phase == Launching
              && w.trace != [] && Last(w.trace) == ClaimTaken(s.generation)
              && s.claim.Some? && (w.disk.claim.Some? ==> s.claim.value.epoch > w.disk.claim.value.epoch)
  {
    hide Run;
    Reachable(limit, actions);
    var w := Run(Start(limit), actions);
    if a != WriteNextClaim {
      SameIdentityOrFirst(w, a);
    }
  }

  lemma SameIdentityOrFirst(w: World, a: Action)
    requires a != WriteNextClaim && CapsuleReady(w.disk)
    ensures Do(w, a).disk.generation == w.disk.generation
  {
    if a != WriteFirstClaim {
      SameIdentity(w, a);
    }
  }

  /** The retry counter respects the limit; without crashes a successor is launched at most limit + 1 times. */
  lemma {:induction false} LaunchesAreBounded(limit: nat, actions: seq<Action>, g: nat)
    requires g > 0
    ensures var w := Run(Start(limit), actions);
            && w.disk.attempt <= limit
            && Launches(w.trace, g) <= limit + 1 + w.crashes
  {
    hide Run;
    Reachable(limit, actions);
    assert BudgetOk(Run(Start(limit), actions), g);
  }

  /**
    Every turn of a successor in the ledger comes after a durable acknowledgement by that
    very guardian, for the capsule it was launched with, targeting its generation.
   */
  lemma {:induction false} NoTurnBeforeAcknowledgement(limit: nat, actions: seq<Action>, j: nat)
    requires j < |Run(Start(limit), actions).journal|
    ensures var journal := Run(Start(limit), actions).journal;
            journal[j].TurnStarted? && journal[j].turn.guardian.generation > 0 ==>
              exists i :: 0 <= i < j && journal[i].AckPersisted? && Covers(journal[i].ack, journal[j].turn.guardian)
  {
    hide Run;
    Reachable(limit, actions);
  }

  predicate Ended(p: Phase) {
    p.Blocked? || p.Completed?
  }

  /** A blocked or completed chain never launches, claims or leaves that state again. */
  lemma {:induction false} EndedForGood(w: World, actions: seq<Action>)
    requires Good(w) && Ended(w.disk.phase)
    ensures var later := Run(w, actions);
            && later.disk.phase == w.disk.phase
            && later.driver.spawned == w.driver.spawned
            && later.trace == w.trace
            && Good(later)
    decreases |actions|
  {
    if actions != [] {
      EndedForGood(w, actions[..|actions| - 1]);
      EndedStep(Run(w, actions[..|actions| - 1]), actions[|actions| - 1]);
      GoodStep(Run(w, actions[..|actions| - 1]), actions[|actions| - 1]);
    }
  }

  lemma EndedStep(w: World, a: Action)
    requires PendingFits(w) && Ended(w.disk.phase)
    ensures var w' := Do(w, a);
            w'.disk.phase == w.disk.phase && w'.driver.spawned == w.driver.spawned && w'.trace == w.trace
  {
    EndedIdle(w, a);
    EndedCleanup(w, a);
    SpawnedQuiet(w, a);
    SpawnedStops(w, a);
  }

  lemma EndedIdle(w: World, a: Action)
    requires PendingFits(w) && Ended(w.disk.phase)
    ensures Starting(w, a) == w && Rotating(w, a) == w && Acknowledging(w, a) == w
  {
  }

  lemma EndedCleanup(w: World, a: Action)
    requires PendingFits(w) && Ended(w.disk.phase)
    ensures Ticking(w, a).disk.phase == w.disk.phase && Ticking(w, a).trace == w.trace
    ensures Environment(w, a).disk == w.disk && Environment(w, a).trace == w.trace
    ensures ShuttingDownStep(w, a).disk.phase == w.disk.phase && ShuttingDownStep(w, a).trace == w.trace
  {
  }

  /**
    Shutdown detaches exactly the runtimes that became the user's session: the root, and a
    successor that acknowledged. The test reads durable state only, so it also holds after
    a restart.
   */
  lemma {:induction false} AdoptedExactly(limit: nat, actions: seq<Action>)
    ensures var w := Run(Start(limit), actions);
            w.disk.process.Some? && !w.disk.phase.AwaitingAck? && !w.disk.phase.Stopping? ==>
              (Adopted(w.disk) <==> w.disk.process.value.generation == 0 || Acked(w.journal, w.disk.process.value))
  {
    hide Run;
    Reachable(limit, actions);
  }

  /** A successor that has not acknowledged is never taken for the user's session, in any phase. */
  lemma {:induction false} UnacknowledgedNeverAdopted(limit: nat, actions: seq<Action>)
    ensures var w := Run(Start(limit), actions);
            (w.disk.process.Some? && w.disk.process.value.generation > 0 && !Acked(w.journal, w.disk.process.value)) ==>
              !Adopted(w.disk)
  {
    hide Run;
    Reachable(limit, actions);
  }

  // The other exemption, a predecessor being rotated out, is read from the phase alone.

  /** Once its rotation reached STOPPING, `p` is never again the process on disk. */
  predicate Behind(s: Snapshot, p: Guardian) {
    || s.generation > p.generation
    || (s.generation == p.generation && s.process.None? && ((Vacant(s.phase) && !s.phase.Initial?) || s.phase.Blocked?))
  }

  /** What a run makes of a predecessor found in STOPPING: `begun` says that a shutdown began since. */
  predicate StopTrail(s: Snapshot, p: Guardian, begun: bool) {
    || (&& s.process == Some(p) && (s.generation > 0 ==> s.conversation.Some?)
        && s.phase == if begun then Blocked else Stopping)
    || Behind(s, p)
  }

  lemma TrailQuiet(w: World, a: Action, p: Guardian, begun: bool)
    requires Exclusive(w) && AdoptionOk(w) && StopTrail(w.disk, p, begun)
    ensures StopTrail(Environment(w, a).disk, p, begun) && StopTrail(Starting(w, a).disk, p, begun)
  {
    hide DriverOk, Acked;
  }

  lemma TrailTicking(w: World, a: Action, p: Guardian, begun: bool)
    requires Exclusive(w) && AdoptionOk(w) && StopTrail(w.disk, p, begun)
    ensures StopTrail(Ticking(w, a).disk, p, begun)
  {
    hide DriverOk, Acked;
  }

  lemma TrailRotating(w: World, a: Action, p: Guardian, begun: bool)
    requires Exclusive(w) && AdoptionOk(w) && StopTrail(w.disk, p, begun)
    ensures StopTrail(Rotating(w, a).disk, p, begun)
  {
    hide DriverOk, Acked, StartFresh;
  }

  lemma TrailStopping(w: World, a: Action, p: Guardian, begun: bool)
    requires Exclusive(w) && AdoptionOk(w) && StopTrail(w.disk, p, begun)
    ensures StopTrail(Acknowledging(w, a).disk, p, begun)
    ensures StopTrail(ShuttingDownStep(w, a).disk, p, begun || a.BeginShutdown?)
  {
    hide DriverOk, Acked;
  }

  lemma TrailStep(w: World, a: Action, p: Guardian, begun: bool)
    requires Good(w) && StopTrail(w.disk, p, begun)
    ensures StopTrail(Do(w, a).disk, p, begun || a.BeginShutdown?)
  {
    TrailQuiet(w, a, p, begun);
    TrailTicking(w, a, p, begun);
    TrailRotating(w, a, p, begun);
    TrailStopping(w, a, p, begun);
  }

  lemma {:induction false} StopTrailHolds(w: World, later: seq<Action>, p: Guardian)
    requires Good(w) && w.disk.phase == Stopping && w.disk.process == Some(p)
    ensures Good(Run(w, later)) && StopTrail(Run(w, later).disk, p, BeginShutdown in later)
    decreases |later|
  {
    if later != [] {
      var n := |later| - 1;
      StopTrailHolds(w, later[..n], p);
      GoodStep(Run(w, later[..n]), later[n]);
      TrailStep(Run(w, later[..n]), later[n], p, BeginShutdown in later[..n]);
      assert later == later[..n] + [later[n]];
    }
  }

  /**
    From any moment its rotation is in STOPPING, and for as long as the predecessor is the
    process on disk: shutdown takes it for adopted if and only if an earlier shutdown began
    in between. That one overwrote the phase with BLOCKED, so whatever kept it from ending
    the runtime, a crash or a failed stop, the next one detaches what it should stop.
   */
  lemma {:induction false} StoppingForgottenExactly(limit: nat, actions: seq<Action>, later: seq<Action>, p: Guardian)
    requires Run(Start(limit), actions).disk.phase == Stopping && Run(Start(limit), actions).disk.process == Some(p)
    requires Run(Run(Start(limit), actions), later).disk.process == Some(p)
    ensures var w := Run(Run(Start(limit), actions), later);
            && w.disk.phase == (if BeginShutdown in later then Blocked else Stopping)
            && Do(w, BeginShutdown).pending == ShuttingDown(BeginShutdown in later)
            && Do(w, BeginShutdown).disk.process == Some(p)
  {
    hide Run;
    Reachable(limit, actions);
    StopTrailHolds(Run(Start(limit), actions), later, p);
  }

  /**
    What the two readings do to a live predecessor: unadopted, shutdown goes no further until
    it is dead, and a stop that works ends it; adopted, it is never signalled and the claim
    is released beside it.
   */
  lemma {:induction false} ShutdownStopsOrDetaches(limit: nat, actions: seq<Action>, p: Guardian, a: Action)
    requires var w := Run(Start(limit), actions);
             w.pending.ShuttingDown? && w.disk.process == Some(p) && p in w.driver.alive
    requires a.StopAtShutdown? || a.FenceAtShutdown? || a.WriteShutdown?
    ensures var w := Run(Start(limit), actions);
            if w.pending.adopted then
              Do(w, a).driver == w.driver && Do(w, FenceAtShutdown(false)).pending == ShutdownFenced(true)
            else
              && Do(w, a).pending == (if a == StopAtShutdown(false) then Idle else w.pending)
              && Do(w, a).claims == w.claims && Do(w, a).disk == w.disk
              && Do(w, a).driver == (if a.StopAtShutdown? then Signalled(w.driver, p, a.dies) else w.driver)
              && p !in Do(w, StopAtShutdown(true)).driver.alive
  {
    hide Run;
    Reachable(limit, actions);
    StopsOrDetaches(Run(Start(limit), actions), p, a);
  }

  lemma StopsOrDetaches(w: World, p: Guardian, a: Action)
    requires w.pending.ShuttingDown? && w.disk.process == Some(p) && p in w.driver.alive && w.disk.phase == Blocked
    requires a.StopAtShutdown? || a.FenceAtShutdown? || a.WriteShutdown?
    ensures if w.pending.adopted then
              Do(w, a).driver == w.driver && Do(w, FenceAtShutdown(false)).pending == ShutdownFenced(true)
            else
              && Do(w, a).pending == (if a == StopAtShutdown(false) then Idle else w.pending)
              && Do(w, a).claims == w.claims && Do(w, a).disk == w.disk
              && Do(w, a).driver == (if a.StopAtShutdown? then Signalled(w.driver, p, a.dies) else w.driver)
              && p !in Do(w, StopAtShutdown(true)).driver.alive
  {
  }

  /** A first generation with a live runtime reaches STOPPING. */
  const ToStopping: seq<Action> :=
    [TakeFirstClaim, WriteFirstClaim, Launch(Returns), WriteRunning, Observe(Draining, Some(0)),
     EnterCheckpointing, Checkpoint(7), WriteCheckpointed, WriteNextPhase]

  const Root := Guardian(0, 0, None)

  lemma RunNext(w: World, actions: seq<Action>, n: nat)
    requires n < |actions|
    ensures Run(w, actions[..n + 1]) == Do(Run(w, actions[..n]), actions[n])
    ensures Run(w, actions[..0]) == w && actions[..|actions|] == actions
  {
    RunAppend(w, actions[..n], actions[n]);
    assert actions[..n] + [actions[n]] == actions[..n + 1];
  }

  lemma RootClaimed(limit: nat)
    ensures var w := Do(Do(Start(limit), TakeFirstClaim), WriteFirstClaim);
            && w.disk.phase == Launching && w.disk.generation == 0 && w.disk.process.None?
            && w.pending == Idle && w.driver == Start(limit).driver
  {
  }

  lemma RootReturned(w: World)
    requires w.disk.phase == Launching && w.disk.generation == 0 && w.pending == Idle && w.driver == Start(0).driver
    ensures var w' := Do(w, Launch(Returns));
            w'.pending == LaunchReturned(Root) && w'.disk == w.disk && Root in w'.driver.alive
  {
    assert StartingOf(w.driver, 0) == {};
  }

  lemma RootDrained(w: World)
    requires w.disk.phase == Launching && w.disk.generation == 0 && w.pending == LaunchReturned(Root)
    ensures var w' := Do(Do(Do(w, WriteRunning), Observe(Draining, Some(0))), EnterCheckpointing);
            && w'.disk.phase == Checkpointing && w'.disk.generation == 0 && w'.disk.process == Some(Root)
            && w'.disk.conversation == Some(0) && w'.pending == Idle && w'.driver == w.driver
  {
  }

  lemma RootCheckpointed(w: World)
    requires w.disk.phase == Checkpointing && w.disk.conversation == Some(0) && w.pending == Idle
    ensures var w' := Do(Do(Do(w, Checkpoint(7)), WriteCheckpointed), WriteNextPhase);
            w'.disk == w.disk.(phase := Stopping, checkpoint := w'.disk.checkpoint) && w'.pending == Idle && w'.driver == w.driver
  {
  }

  /** Three steps of a run of which the actions are known. */
  lemma RunThree(w: World, actions: seq<Action>, n: nat)
    requires n + 3 <= |actions|
    ensures Run(w, actions[..n + 3]) == Do(Do(Do(Run(w, actions[..n]), actions[n]), actions[n + 1]), actions[n + 2])
  {
    hide Run, Do;
    RunNext(w, actions, n);
    RunNext(w, actions, n + 1);
    RunNext(w, actions, n + 2);
  }

  lemma RootStopping(limit: nat)
    ensures var w := Run(Start(limit), ToStopping);
            && w.disk.phase == Stopping && w.disk.process == Some(Root) && Root in w.driver.alive
            && w.pending == Idle && w.disk.generation == 0
  {
    hide Run, Do;
    RunNext(Start(limit), ToStopping, 0);
    RunThree(Start(limit), ToStopping, 0);
    RunThree(Start(limit), ToStopping, 3);
    RunThree(Start(limit), ToStopping, 6);
    RootClaimed(limit);
    RootReturned(Do(Do(Start(limit), TakeFirstClaim), WriteFirstClaim));
    RootDrained(Run(Start(limit), ToStopping[..3]));
    RootCheckpointed(Run(Start(limit), ToStopping[..6]));
  }

  /** The failing inputs: from there a shutdown that crashes, or whose stop fails, makes the next one detach. */
  lemma PredecessorDetached(limit: nat, interruption: Action)
    requires interruption == Crash || interruption == StopAtShutdown(false)
    ensures var w := Run(Start(limit), ToStopping);
            var next := Do(Run(w, [BeginShutdown, interruption]), BeginShutdown);
            && w.disk.phase == Stopping && w.disk.process == Some(Root)
            && next.disk.process == w.disk.process && Root in next.driver.alive
            && next.pending == ShuttingDown(true)
            && next.crashes == w.crashes + if interruption == Crash then 1 else 0
  {
    hide Run;
    RootStopping(limit);
    var w := Run(Start(limit), ToStopping);
    RunNext(w, [BeginShutdown, interruption], 0);
    RunNext(w, [BeginShutdown, interruption], 1);
  }
}
