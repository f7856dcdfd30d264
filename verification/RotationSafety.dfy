/**
  What every run of the rotation protocol keeps: one runtime at a time, claims that
  follow the generation with growing epochs, effects in their canonical order, and no
  successor turn before its acknowledgement is durable.
 */
module RotationSafety {
  import opened Options
  import opened Claims
  import opened Rotation

  // ---------------------------------------------------------------- one runtime

  /** The runtimes that are live, or may still come to life without a new launch. */
  function Chain(d: Driver): set<Guardian> {
    d.alive + d.starting
  }

  ghost predicate AtMostOne(d: Driver) {
    forall g, h :: g in Chain(d) && h in Chain(d) ==> g == h
  }

  /** Nothing of the chain runs or can start running. */
  ghost predicate Nobody(d: Driver) {
    Chain(d) == {}
  }

  /** Only this guardian may be live, and none is starting. */
  ghost predicate OnlyLive(d: Driver, p: Guardian) {
    d.starting == {} && forall g :: g in d.alive ==> g == p
  }

  /** Only guardians of this generation, registered as soon as they are live. */
  ghost predicate OnlyOf(d: Driver, generation: nat) {
    && (forall g :: g in Chain(d) ==> g.generation == generation)
    && (forall g :: g in d.alive ==> generation in d.registry && d.registry[generation] == g)
  }

  /** Every guardian ever spawned carries the capsule of its own generation. */
  ghost predicate SpawnedWell(d: Driver) {
    && (forall g :: g in d.spawned ==>
          g.nonce < d.nextNonce && (g.generation > 0 ==> g.capsule.Some? && g.capsule.value.target == g.generation))
    && (forall g :: g in Chain(d) ==> g in d.spawned)
    && d.alive !! d.starting
    && (forall k :: k in d.registry ==> d.registry[k] in d.spawned && d.registry[k].generation == k)
  }

  ghost predicate DriverOk(d: Driver) {
    AtMostOne(d) && SpawnedWell(d)
  }

  predicate Managed(p: Phase) {
    (p.Running? || p.Warning? || p.Draining? || p.Checkpointing? || p.Checkpointed? || p.Stopping? || p.AwaitingAck?)
  }

  predicate Vacant(p: Phase) {
    (p.Initial? || p.Stopped? || p.Fencing? || p.Fenced? || p.Claiming?)
  }

  ghost predicate Located(s: Snapshot, d: Driver) {
    && (Vacant(s.phase) ==> Nobody(d) && s.process.None?)
    && (s.phase == Completed ==> Nobody(d))
    && (s.phase == Launching ==> s.process.None? && OnlyOf(d, s.generation))
    && (Managed(s.phase) ==>
          && s.process.Some? && s.process.value.generation == s.generation && s.process.value in d.spawned
          && OnlyLive(d, s.process.value))
    && (s.process.Some? ==> s.process.value !in d.starting)
  }

  ghost predicate PendingFits(w: World) {
    match w.pending
    case Idle => true
    case ClaimHeld(_) => (w.disk.phase.Initial? || w.disk.phase.Claiming?)
    case CheckpointReceipt(f) => w.disk.phase == Checkpointing && f.target == w.disk.generation + 1
    case PredecessorGone => w.disk.phase == Stopping && Nobody(w.driver)
    case ClaimReleased => w.disk.phase == Fencing
    case LaunchReturned(g) =>
      w.disk.phase == Launching && g in w.driver.spawned && g.generation == w.disk.generation && OnlyLive(w.driver, g)
    case LaunchRaised => w.disk.phase == Launching && w.disk.generation > 0
    case AckVerified(ack) => w.disk.phase == AwaitingAck && AckMatches(w.disk, ack)
    case RetryWanted => w.disk.phase == AwaitingAck
    case RetryCleared =>
      w.disk.generation > 0 && (w.disk.phase.Launching? || w.disk.phase.AwaitingAck?) && (w.disk.phase == AwaitingAck ==> Nobody(w.driver))
    case ExitFenced => (w.disk.phase.Running? || w.disk.phase.Warning?) && Nobody(w.driver)
    case ShuttingDown(_) => w.disk.phase != Completed && (w.disk.process.Some? ==> w.disk.phase == Blocked)
    case ShutdownFenced(_) => w.disk.phase != Completed && (w.disk.process.Some? ==> w.disk.phase == Blocked)
  }

  ghost predicate Exclusive(w: World) {
    DriverOk(w.driver) && Located(w.disk, w.driver) && PendingFits(w) && CapsuleReady(w.disk)
  }

  /** The runtimes of the generation being brought up all carry the checkpointed capsule. */
  ghost predicate CapsulesAgree(s: Snapshot, d: Driver) {
    && (forall g :: g in d.spawned ==> g.generation <= s.generation)
    && (s.phase == Initial || s.phase == Launching || s.phase == AwaitingAck ==>
          forall g :: g in d.spawned && g.generation == s.generation ==>
            g.capsule == if s.generation > 0 then s.checkpoint else None)
  }

  /** From the verified checkpoint on, the capsule of the generation being launched is known. */
  ghost predicate CapsuleReady(s: Snapshot) {
    && ((s.phase.Checkpointed? || s.phase.Stopping? || s.phase.Stopped? || s.phase.Fencing? || s.phase.Fenced? || s.phase.Claiming?) ==>
          s.checkpoint.Some? && s.checkpoint.value.target == s.generation + 1)
    && ((s.phase.Launching? || s.phase.AwaitingAck?) && s.generation > 0 ==>
          s.checkpoint.Some? && s.checkpoint.value.target == s.generation)
    && ((s.phase.Initial? || s.phase.Launching? || s.phase.AwaitingAck?) && s.generation == 0 ==> s.checkpoint.None?)
    && (s.phase == Initial ==> s.generation == 0)
  }

  // What the driver's own operations keep.

  /** `after` has lost runtimes or records, nothing else. */
  ghost predicate Shrunk(before: Driver, after: Driver) {
    && after.alive <= before.alive && after.starting <= before.starting
    && after.spawned == before.spawned && after.nextNonce == before.nextNonce
    && (forall k :: k in after.registry ==> k in before.registry && after.registry[k] == before.registry[k])
  }

  lemma ShrunkKeeps(before: Driver, after: Driver)
    requires DriverOk(before) && Shrunk(before, after)
    ensures DriverOk(after)
    ensures Nobody(before) ==> Nobody(after)
  {
  }

  lemma ShrunkLocated(s: Snapshot, before: Driver, after: Driver)
    requires DriverOk(before) && Shrunk(before, after) && Located(s, before)
    requires s.phase == Launching ==> forall g :: g in after.alive ==> s.generation in after.registry && after.registry[s.generation] == g
    ensures Located(s, after)
  {
    ShrunkKeeps(before, after);
  }

  lemma DiedOrSignalledShrinks(d: Driver, g: Guardian, dies: bool)
    ensures Shrunk(d, Died(d, g)) && Shrunk(d, Unregistered(Died(d, g), g)) && Shrunk(d, Signalled(d, g, dies))
  {
  }

  lemma RegisteredKeeps(d: Driver, g: Guardian)
    requires DriverOk(d) && g in d.starting
    ensures DriverOk(Registered(d, g))
    ensures OnlyLive(Registered(d, g), g)
    ensures OnlyOf(d, g.generation) ==> OnlyOf(Registered(d, g), g.generation)
  {
    var d' := Registered(d, g);
    assert forall h :: h in Chain(d') <==> h in Chain(d);
    assert d'.alive == {g} && d'.starting == {};
  }

  /** Launching where only this generation can live neither adds a second runtime nor returns another's. */
  lemma StartFreshKeeps(d: Driver, generation: nat, capsule: Option<Fingerprint>, end: LaunchEnd)
    requires DriverOk(d) && OnlyOf(d, generation)
    requires generation > 0 ==> capsule.Some? && capsule.value.target == generation
    ensures var (d', launched) := StartFresh(d, generation, capsule, end);
            && DriverOk(d') && OnlyOf(d', generation) && d.spawned <= d'.spawned
            && (d.spawned != d'.spawned ==> Nobody(d))
            && (launched.Some? ==>
                  launched.value in d'.spawned && launched.value.generation == generation && OnlyLive(d', launched.value))
  {
    if !(generation in d.registry && d.registry[generation] in d.alive) {
      assert d.alive == {};
      var d1 := d.(registry := d.registry - {generation});
      ShrunkKeeps(d, d1);
      if StartingOf(d, generation) != {} {
        var g :| g in StartingOf(d, generation);
        RegisteredKeeps(d1, g);
      } else {
        NobodyStarting(d, generation);
      }
    }
  }

  lemma NobodyStarting(d: Driver, generation: nat)
    requires DriverOk(d) && OnlyOf(d, generation) && d.alive == {} && StartingOf(d, generation) == {}
    ensures Nobody(d)
  {
    AllStartingAre(d, generation);
  }

  lemma AllStartingAre(d: Driver, generation: nat)
    requires OnlyOf(d, generation)
    ensures d.starting <= StartingOf(d, generation)
  {
    forall g | g in d.starting ensures g in StartingOf(d, generation) {
      assert g in Chain(d);
    }
  }

  lemma CapsuleStarting(w: World, a: Action)
    requires CapsuleReady(w.disk) && PendingFits(w)
    ensures CapsuleReady(Starting(w, a).disk)
  {
  }

  lemma CapsuleTicking(w: World, a: Action)
    requires CapsuleReady(w.disk) && PendingFits(w)
    ensures CapsuleReady(Ticking(w, a).disk)
  {
  }

  lemma CapsuleRotating(w: World, a: Action)
    requires CapsuleReady(w.disk) && PendingFits(w)
    ensures CapsuleReady(Rotating(w, a).disk)
  {
  }

  lemma CapsuleAcknowledging(w: World, a: Action)
    requires CapsuleReady(w.disk) && PendingFits(w)
    ensures CapsuleReady(Acknowledging(w, a).disk)
  {
  }

  lemma CapsuleShuttingDownStep(w: World, a: Action)
    requires CapsuleReady(w.disk) && PendingFits(w)
    ensures CapsuleReady(ShuttingDownStep(w, a).disk)
  {
  }

  lemma TickingLocated(w: World, a: Action)
    requires Exclusive(w)
    ensures Ticking(w, a).driver == w.driver && Located(Ticking(w, a).disk, w.driver)
  {
    hide DriverOk;
  }

  lemma StartingLocated(w: World, a: Action)
    requires Exclusive(w)
    ensures Starting(w, a).driver == w.driver && Located(Starting(w, a).disk, w.driver)
  {
    hide DriverOk;
  }

  /** A segment that leaves the driver alone. */
  lemma QuietLocated(w: World, a: Action)
    requires Exclusive(w)
    ensures Ticking(w, a).driver == w.driver && Located(Ticking(w, a).disk, w.driver)
    ensures Starting(w, a).driver == w.driver && Located(Starting(w, a).disk, w.driver)
  {
    hide Ticking, Starting, Located, Exclusive;
    TickingLocated(w, a);
    StartingLocated(w, a);
  }

  lemma QuietFits(w: World, a: Action)
    requires Exclusive(w)
    ensures PendingFits(Ticking(w, a)) && PendingFits(Starting(w, a))
  {
  }

  lemma ExclusiveDeath(w: World, g: Guardian, unregisters: bool)
    requires Exclusive(w)
    ensures Exclusive(Environment(w, GuardianDies(g, unregisters)))
  {
    var after := Environment(w, GuardianDies(g, unregisters)).driver;
    DiedOrSignalledShrinks(w.driver, g, true);
    ShrunkKeeps(w.driver, after);
    ShrunkLocated(w.disk, w.driver, after);
  }

  lemma ExclusiveRegistration(w: World, g: Guardian)
    requires Exclusive(w) && g in w.driver.starting
    ensures Exclusive(Environment(w, GuardianRegisters(g)))
  {
    RegisteredKeeps(w.driver, g);
    assert g in Chain(w.driver);
  }

  lemma ExclusiveEnvironment(w: World, a: Action)
    requires Exclusive(w)
    ensures Exclusive(Environment(w, a))
  {
    match a
    case GuardianDies(g, unregisters) => ExclusiveDeath(w, g, unregisters);
    case GuardianRegisters(g) =>
      if g in w.driver.starting {
        ExclusiveRegistration(w, g);
      }
    case _ => ElsewhereQuiet(w, a);
  }

  lemma ElsewhereQuiet(w: World, a: Action)
    requires !a.GuardianDies? && !a.GuardianRegisters?
    ensures Environment(w, a).driver == w.driver && Environment(w, a).disk == w.disk
    ensures Environment(w, a).pending == w.pending || Environment(w, a).pending == Idle
  {
  }

  lemma LocatedRotating(w: World, a: Action)
    requires Exclusive(w) && !a.StopPredecessor? && !a.Launch?
    ensures Rotating(w, a).driver == w.driver && Located(Rotating(w, a).disk, w.driver)
  {
  }

  lemma FitsRotating(w: World, a: Action)
    requires Exclusive(w) && !a.StopPredecessor? && !a.Launch?
    ensures PendingFits(Rotating(w, a))
  {
  }

  lemma ExclusiveStop(w: World, dies: bool)
    requires Exclusive(w)
    ensures Exclusive(Do(w, StopPredecessor(dies)))
  {
    if w.pending.Idle? && w.disk.phase == Stopping {
      var p := w.disk.process.value;
      DiedOrSignalledShrinks(w.driver, p, dies);
      ShrunkKeeps(w.driver, Signalled(w.driver, p, dies));
      ShrunkLocated(w.disk, w.driver, Signalled(w.driver, p, dies));
    }
  }

  lemma ExclusiveLaunch(w: World, end: LaunchEnd)
    requires Exclusive(w)
    ensures Exclusive(Do(w, Launch(end)))
  {
    if w.disk.phase == Launching {
      StartFreshKeeps(w.driver, w.disk.generation, if w.disk.generation > 0 then w.disk.checkpoint else None, end);
    }
  }

  lemma LocatedAcknowledging(w: World, a: Action)
    requires Exclusive(w) && !a.StopSuccessor?
    ensures Acknowledging(w, a).driver == w.driver && Located(Acknowledging(w, a).disk, w.driver)
    ensures PendingFits(Acknowledging(w, a))
  {
  }

  lemma ExclusiveSuccessorStop(w: World, dies: bool)
    requires Exclusive(w)
    ensures Exclusive(Do(w, StopSuccessor(dies)))
  {
    if w.disk.process.Some? {
      var p := w.disk.process.value;
      DiedOrSignalledShrinks(w.driver, p, dies);
      ShrunkKeeps(w.driver, Signalled(w.driver, p, dies));
    }
  }

  lemma LocatedShutdown(w: World, a: Action)
    requires Exclusive(w) && !a.StopAtShutdown?
    ensures ShuttingDownStep(w, a).driver == w.driver && Located(ShuttingDownStep(w, a).disk, w.driver)
  {
  }

  lemma FitsShutdown(w: World, a: Action)
    requires Exclusive(w) && !a.StopAtShutdown?
    ensures PendingFits(ShuttingDownStep(w, a))
  {
  }

  lemma ExclusiveShutdownStop(w: World, dies: bool)
    requires Exclusive(w)
    ensures Exclusive(Do(w, StopAtShutdown(dies)))
  {
    if w.disk.process.Some? {
      var p := w.disk.process.value;
      DiedOrSignalledShrinks(w.driver, p, dies);
      ShrunkKeeps(w.driver, Signalled(w.driver, p, dies));
    }
  }

  lemma ExclusiveStep(w: World, a: Action)
    requires Exclusive(w)
    ensures Exclusive(Do(w, a))
  {
    match a
    case StopPredecessor(dies) => ExclusiveStop(w, dies);
    case Launch(end) => ExclusiveLaunch(w, end);
    case StopSuccessor(dies) => ExclusiveSuccessorStop(w, dies);
    case StopAtShutdown(dies) => ExclusiveShutdownStop(w, dies);
    case _ => ExclusiveOtherStep(w, a);
  }

  lemma ExclusiveOtherStep(w: World, a: Action)
    requires Exclusive(w)
    requires !a.StopPredecessor? && !a.Launch? && !a.StopSuccessor? && !a.StopAtShutdown?
    ensures Exclusive(Do(w, a))
  {
    ExclusiveEnvironment(w, a);
    QuietLocated(w, a);
    QuietFits(w, a);
    LocatedRotating(w, a);
    FitsRotating(w, a);
    LocatedAcknowledging(w, a);
    LocatedShutdown(w, a);
    FitsShutdown(w, a);
    CapsuleStarting(w, a);
    CapsuleTicking(w, a);
    CapsuleRotating(w, a);
    CapsuleAcknowledging(w, a);
    CapsuleShuttingDownStep(w, a);
  }

  lemma AgreeLaunch(w: World, end: LaunchEnd)
    requires CapsulesAgree(w.disk, w.driver)
    ensures CapsulesAgree(Do(w, Launch(end)).disk, Do(w, Launch(end)).driver)
  {
  }

  lemma AgreeAcknowledging(w: World, a: Action)
    requires CapsulesAgree(w.disk, w.driver) && PendingFits(w)
    ensures CapsulesAgree(Acknowledging(w, a).disk, Acknowledging(w, a).driver)
  {
  }

  lemma AgreeRotating(w: World, a: Action)
    requires CapsulesAgree(w.disk, w.driver) && PendingFits(w) && !a.Launch?
    ensures CapsulesAgree(Rotating(w, a).disk, Rotating(w, a).driver)
  {
  }

  lemma AgreeStarting(w: World, a: Action)
    requires CapsulesAgree(w.disk, w.driver) && CapsuleReady(w.disk)
    ensures CapsulesAgree(Environment(w, a).disk, Environment(w, a).driver)
    ensures CapsulesAgree(Starting(w, a).disk, Starting(w, a).driver)
  {
  }

  lemma AgreeTicking(w: World, a: Action)
    requires CapsulesAgree(w.disk, w.driver)
    ensures CapsulesAgree(Ticking(w, a).disk, Ticking(w, a).driver)
  {
  }

  lemma AgreeShutdown(w: World, a: Action)
    requires CapsulesAgree(w.disk, w.driver)
    ensures CapsulesAgree(ShuttingDownStep(w, a).disk, ShuttingDownStep(w, a).driver)
  {
  }

  lemma AgreeStep(w: World, a: Action)
    requires CapsulesAgree(w.disk, w.driver) && Exclusive(w)
    ensures CapsulesAgree(Do(w, a).disk, Do(w, a).driver)
  {
    AgreeStarting(w, a);
    AgreeTicking(w, a);
    AgreeShutdown(w, a);
    AgreeAcknowledging(w, a);
    if a.Launch? {
      AgreeLaunch(w, a.end);
    } else {
      AgreeRotating(w, a);
    }
  }

  // ---------------------------------------------------------------- claims

  predicate NeedsClaim(p: Phase) {
    !(p.Initial? || p.Completed? || p.Blocked?)
  }

  ghost predicate ClaimsOk(w: World) {
    var s := w.disk;
    && ValidStore(w.claims)
    && (NeedsClaim(s.phase) ==> s.claim.Some?)
    && (s.phase == Initial ==> s.claim.None? && s.generation == 0)
    && (s.claim.Some? ==> s.claim.value.owner == Session(s.generation) && AtOrAfter(w.claims, s.claim.value))
    && (w.pending.ClaimHeld? ==>
          && (s.phase.Initial? || s.phase.Claiming?)
          && w.pending.claim.owner == Session(if s.phase == Initial then 0 else s.generation + 1)
          && AtOrAfter(w.claims, w.pending.claim)
          && (s.claim.Some? ==> s.claim.value.epoch < w.pending.claim.epoch))
  }

  lemma ClaimsEnvironment(w: World, a: Action)
    requires ClaimsOk(w)
    ensures ClaimsOk(Environment(w, a))
  {
  }

  lemma ClaimsStarting(w: World, a: Action)
    requires ClaimsOk(w)
    ensures ClaimsOk(Starting(w, a))
  {
  }

  lemma ClaimsTicking(w: World, a: Action)
    requires ClaimsOk(w)
    ensures ClaimsOk(Ticking(w, a))
  {
  }

  lemma ClaimsRotating(w: World, a: Action)
    requires ClaimsOk(w)
    ensures ClaimsOk(Rotating(w, a))
  {
  }

  lemma ClaimsAcknowledging(w: World, a: Action)
    requires ClaimsOk(w)
    ensures ClaimsOk(Acknowledging(w, a))
  {
  }

  lemma ClaimsShuttingDownStep(w: World, a: Action)
    requires ClaimsOk(w)
    ensures ClaimsOk(ShuttingDownStep(w, a))
  {
  }

  lemma ClaimsOkStep(w: World, a: Action)
    requires ClaimsOk(w)
    ensures ClaimsOk(Do(w, a))
  {
    ClaimsEnvironment(w, a);
    ClaimsStarting(w, a);
    ClaimsTicking(w, a);
    ClaimsRotating(w, a);
    ClaimsAcknowledging(w, a);
    ClaimsShuttingDownStep(w, a);
  }

  /** Seen from an earlier claim of generation `g`: the same claim, or a later generation with a larger epoch. */
  ghost predicate Follows(s: Snapshot, g: nat, claim: Claim) {
    && g <= s.generation
    && (s.claim.Some? && s.generation == g ==> s.claim.value == claim)
    && (s.claim.Some? && s.generation > g ==> s.claim.value.epoch > claim.epoch)
    && s.phase != Initial
  }

  /** Only a claim write changes the generation or brings in a claim. */
  lemma SameIdentity(w: World, a: Action)
    requires a != WriteNextClaim && a != WriteFirstClaim
    ensures Do(w, a).disk.generation == w.disk.generation
    ensures Do(w, a).disk.claim.Some? ==> Do(w, a).disk.claim == w.disk.claim
    ensures Do(w, a).disk.phase == Initial ==> w.disk.phase == Initial
  {
  }

  lemma FollowsStep(w: World, a: Action, g: nat, claim: Claim)
    requires ClaimsOk(w) && Follows(w.disk, g, claim)
    ensures Follows(Do(w, a).disk, g, claim)
  {
    if a != WriteNextClaim && a != WriteFirstClaim {
      SameIdentity(w, a);
    }
  }
}
