/**
  The supervisor object of src/agent_session_harness/supervisor.py: its methods replace
  the in-memory snapshot, rewrite the state file, and drive the coordinator and the
  process driver. Each method is proved to perform a sequence of protocol actions of
  module Rotation (recorded in the ghost field `history`), so the theorems about runs
  hold of every sequence of calls, with the environment acting before every effect.
 */
module Supervision {
  import opened Options
  import opened Claims
  import opened Rotation
  import opened RotationSafety
  import opened RotationEffects
  import opened RotationTheorems

  /** Phases `_advance_rotation` moves out of by itself, in the order it reaches them. */
  function Rank(p: Phase): nat {
    match p
    case Checkpointing => 8
    case Checkpointed => 7
    case Stopping => 6
    case Stopped => 5
    case Fencing => 4
    case Fenced => 3
    case Claiming => 2
    case Launching => 1
    case AwaitingAck => 1
    case _ => 0
  }

  /** Field by field, the acknowledgement that is waited for. */
  ghost predicate Awaits(s: Snapshot, ack: Ack) {
    && s.phase == AwaitingAck
    && ack.generation == s.generation
    && ack.fingerprint.target == s.generation
    && s.checkpoint == Some(ack.fingerprint)
    && s.process == Some(ack.owner)
  }

  ghost predicate LeaseHeld(w: World) {
    w.disk.claim.Some? ==> IsCurrent(w.claims, w.disk.claim.value)
  }

  /** The record on disk is the awaited one, the lease is held, and the stores verify it. */
  ghost predicate Acceptable(w: World, a: Answers) {
    w.ackFile.Some? && Awaits(w.disk, w.ackFile.value) && LeaseHeld(w) && a.verifies
  }

  /** What the first checks of a tick let through: a live process where one is watched, and a lease if it is looked at. */
  ghost predicate Proceeds(w: World, a: Answers) {
    && (Watched(w.disk.phase) ==> a.readable && w.disk.process.Some? && w.disk.process.value in w.driver.alive)
    && (a.due ==> LeaseHeld(w))
  }

  /** Phases in which `tick` first makes sure that the process on disk is live. */
  ghost predicate Watched(p: Phase) {
    p == Running || p == Warning || p == Draining || p == Checkpointing || p == Checkpointed || p == AwaitingAck
  }

  /** What other processes do; a supervisor's own claims and fences are not among it. */
  predicate External(a: Action) {
    || a.GuardianDies? || a.GuardianRegisters? || a.Coordinate?
    || a.HookWritesAck? || a.HookPermitsTurn? || a.HookAppendsTurn?
  }

  /** What outside events leave alone: no runtime appears, no turn is lost, no retired claim returns. */
  ghost predicate Beside(before: World, after: World) {
    && Chain(after.driver) <= Chain(before.driver)
    && before.journal <= after.journal
    && before.claims.nextEpoch <= after.claims.nextEpoch
    && (forall c: Claim :: c.epoch < before.claims.nextEpoch && !IsCurrent(before.claims, c) ==> !IsCurrent(after.claims, c))
  }

  lemma OutsideBeside(w: World, a: Action)
    requires External(a)
    ensures Beside(w, Environment(w, a))
    ensures forall g :: g in w.driver.alive ==> g in Environment(w, a).driver.alive || (a.GuardianDies? && a.guardian == g)
  {
  }

  /** A death of this guardian is recorded from position `n` on. */
  ghost predicate DiedSince(history: seq<Action>, n: nat, g: Guardian) {
    exists k :: n <= k < |history| && history[k].GuardianDies? && history[k].guardian == g
  }

  lemma DiedGrows(history: seq<Action>, a: Action, n: nat)
    requires n <= |history|
    ensures forall g :: DiedSince(history, n, g) ==> DiedSince(history + [a], n, g)
    ensures a.GuardianDies? ==> DiedSince(history + [a], n, a.guardian)
  {
    forall g | DiedSince(history, n, g) ensures DiedSince(history + [a], n, g) {
      var k :| n <= k < |history| && history[k].GuardianDies? && history[k].guardian == g;
      assert (history + [a])[k] == history[k];
    }
    assert (history + [a])[|history|] == a;
  }

  lemma DiedLater(history: seq<Action>, longer: seq<Action>, from: nat, n: nat, g: Guardian)
    requires history <= longer && n <= from && (DiedSince(history, n, g) || DiedSince(longer, from, g))
    ensures DiedSince(longer, n, g)
  {
    if DiedSince(history, n, g) {
      var k :| n <= k < |history| && history[k].GuardianDies? && history[k].guardian == g;
      assert longer[k] == history[k];
    }
  }

  /**
    What the outside answers during one call: the checkpoint adapter, the runtimes that are
    stopped, `start_fresh` for each attempt, the clock, and whether the calls that may fail do.
    With these given, a call is determined but for the events that come in between.
   */
  datatype Answers = Answers(
    receipt: Option<nat>,
    obeys: Guardian -> bool,
    launch: nat -> LaunchEnd,
    due: bool,
    dueAfterLaunch: bool,
    verifies: bool,
    expired: bool,
    readable: bool,
    natural: bool,
    reachable: bool,
    cleaned: bool,
    journalled: bool)

  class Supervisor {
    const limit: nat
    const coordinator: CoordinatorAdapter

    // durable, shared with hooks and guardians
    var stateFile: Snapshot
    var ackFile: Option<Ack>
    var driver: Driver

    // memory of this supervisor process
    var snapshot: Snapshot
    var currentProcess: Option<Guardian>

    ghost var pending: Pending
    ghost var dispatching: set<Turn>
    ghost var journal: seq<Entry>
    ghost var trace: seq<Effect>
    ghost var crashes: nat
    ghost var history: seq<Action>

    ghost function View(): World
      reads this, coordinator
    {
      World(limit, stateFile, pending, coordinator.store, driver, ackFile, dispatching, journal, trace, crashes)
    }

    /** The object is where some run of the protocol is, and memory agrees with the state file. */
    ghost predicate Valid()
      reads this, coordinator
    {
      && View() == Run(Start(limit), history)
      && snapshot == stateFile
      && currentProcess == snapshot.process
    }

    /** Valid, and holding nothing that a state write has not recorded. */
    ghost predicate Ready()
      reads this, coordinator
    {
      Valid() && pending.Idle?
    }

    constructor (limit: nat)
      ensures Ready() && fresh(coordinator) && this.limit == limit && history == [] && stateFile == Fresh
    {
      this.limit := limit;
      coordinator := new CoordinatorAdapter();
      stateFile := Fresh;
      ackFile := None;
      driver := Driver(map[], {}, {}, {}, 0);
      snapshot := Fresh;
      currentProcess := None;
      pending, dispatching, journal, trace, crashes, history := Idle, {}, [], [], 0, [];
    }

    /** What every run guarantees of the state a method starts from. */
    lemma Knows()
      requires Valid()
      ensures NeedsClaim(snapshot.phase) ==> snapshot.claim.Some?
      ensures Managed(snapshot.phase) ==> snapshot.process.Some?
      ensures snapshot.phase == Launching ==>
                && DriverOk(driver) && OnlyOf(driver, snapshot.generation)
                && (snapshot.generation > 0 ==> snapshot.checkpoint.Some?)
      ensures snapshot.phase == AwaitingAck && snapshot.checkpoint.Some? ==> snapshot.generation > 0
      ensures snapshot.process.Some? ==> snapshot.process.value !in driver.starting
      ensures snapshot.claim.Some? ==> snapshot.claim.value.epoch < coordinator.store.nextEpoch
    {
      hide Run;
      Reachable(limit, history);
    }

    /** Records one protocol action that the fields already reflect. */
    ghost method Log(a: Action, before: World)
      requires before == Run(Start(limit), history) && View() == Do(before, a)
      modifies this`history
      ensures history == old(history) + [a] && View() == Run(Start(limit), history)
    {
      RunAppend(Start(limit), history, a);
      history := history + [a];
    }

    /** `_persist`: the whole snapshot replaces the state file. */
    method Persist(ghost a: Action)
      requires View() == Run(Start(limit), history)
      requires Do(View(), a) == View().(disk := snapshot, pending := Idle)
      modifies this`stateFile, this`pending, this`history
      ensures stateFile == snapshot && pending == Idle && history == old(history) + [a]
      ensures View() == Run(Start(limit), history)
    {
      ghost var before := View();
      stateFile := snapshot;
      pending := Idle;
      Log(a, before);
    }

    /** One outside event: a guardian dying or registering, a hook, another session claiming. */
    method OutsideEvent(a: Action)
      requires Valid() && External(a)
      modifies this`driver, this`ackFile, this`dispatching, this`journal, this`history, coordinator
      ensures Valid() && history == old(history) + [a] && Beside(old(View()), View())
      ensures forall g :: g in old(driver.alive) ==> g in driver.alive || (a.GuardianDies? && a.guardian == g)
    {
      hide Run;
      ghost var before := View();
      OutsideBeside(before, a);
      var seen := Environment(World(limit, stateFile, Idle, coordinator.store, driver, ackFile, {}, [], [], 0), a);
      driver, ackFile, coordinator.store := seen.driver, seen.ackFile, seen.claims;
      dispatching, journal := Environment(before, a).dispatching, Environment(before, a).journal;
      Log(a, before);
    }

    /** Any number of outside events. */
    method Disturb()
      requires Valid()
      modifies this`driver, this`ackFile, this`dispatching, this`journal, this`history, coordinator
      ensures Valid() && old(history) <= history && Beside(old(View()), View())
      ensures forall g :: g in old(driver.alive) ==> g in driver.alive || DiedSince(history, |old(history)|, g)
    {
      hide Run;
      var events: nat := *;
      while events > 0
        invariant Valid() && old(history) <= history && Beside(old(View()), View())
        invariant forall g :: g in old(driver.alive) ==> g in driver.alive || DiedSince(history, |old(history)|, g)
      {
        var a: Action := *;
        if External(a) {
          ghost var earlier := history;
          OutsideEvent(a);
          DiedGrows(earlier, a, |old(history)|);
        }
        events := events - 1;
      }
    }

    /** A crash and a restart: a new supervisor process reads the state file. */
    method Restart()
      requires Valid()
      modifies this`snapshot, this`currentProcess, this`pending, this`crashes, this`history
      ensures Ready() && history == old(history) + [Crash]
    {
      hide Run;
      ghost var before := View();
      pending, crashes := Idle, crashes + 1;
      snapshot := stateFile;
      currentProcess := stateFile.process;
      Log(Crash, before);
    }

    // ------------------------------------------------------------ effects

    /** `start_fresh`, seen through its contract. */
    method StartFreshRuntime(generation: nat, capsule: Option<Fingerprint>, end: LaunchEnd) returns (r: Result<Guardian>)
      requires DriverOk(driver) && OnlyOf(driver, generation)
      modifies this`driver
      ensures (driver, if r.Ok? then Some(r.value) else None) == StartFresh(old(driver), generation, capsule, end)
      ensures r.Raised? ==> r == Raised(RuntimeFault) && !end.Returns?
    {
      hide Run;
      if generation in driver.registry && driver.registry[generation] in driver.alive {
        return Ok(driver.registry[generation]);
      }
      var waiting := StartingOf(driver, generation);
      var d1 := driver.(registry := driver.registry - {generation});
      if waiting != {} {
        var g :| g in waiting;
        assert forall h :: h in waiting ==> h in Chain(driver);
        if end.Returns? {
          driver := Registered(d1, g);
          return Ok(g);
        }
        driver := d1;
        return Raised(RuntimeFault);
      }
      var g := Guardian(generation, driver.nextNonce, capsule);
      var d2 := d1.(nextNonce := driver.nextNonce + 1, spawned := driver.spawned + {g});
      match end {
        case Returns =>
          driver := Registered(d2, g);
          return Ok(g);
        case RaisesStillStarting =>
          driver := d2.(starting := driver.starting + {g});
          return Raised(RuntimeFault);
        case RaisesGone =>
          driver := d2;
          return Raised(RuntimeFault);
      }
    }

    /** `graceful_stop`: signals, waits, and drops the record whether or not the guardian is gone. */
    method GracefulStop(process: Guardian, obeys: bool)
      modifies this`driver
      ensures driver == Signalled(old(driver), process, obeys)
      ensures driver.alive == if obeys then old(driver.alive) - {process} else old(driver.alive)
    {
      hide Run;
      if obeys {
        driver := driver.(alive := driver.alive - {process}, starting := driver.starting - {process});
      }
      if process.generation in driver.registry && driver.registry[process.generation] == process {
        driver := driver.(registry := driver.registry - {process.generation});
      }
    }

    /** Why a call may end without having done its work. */

    /** The claim on disk is not the current lease. */
    ghost predicate LeaseLost()
      reads this`snapshot, coordinator
    {
      snapshot.claim.Some? && !IsCurrent(coordinator.store, snapshot.claim.value)
    }

    /** Another owner than the session of this generation holds an active lease. */
    ghost predicate HeldByOther(generation: nat)
      reads coordinator
    {
      && coordinator.store.current.Some?
      && coordinator.store.current.value.status == Active
      && coordinator.store.current.value.claim.owner != Session(generation)
    }

    /** The process on disk is live and did not obey. */
    ghost predicate Survives(a: Answers)
      reads this`snapshot, this`driver
    {
      && snapshot.process.Some?
      && snapshot.process.value in driver.alive
      && !a.obeys(snapshot.process.value)
    }

    /** Where and why a rotation stops short with an exception. */
    ghost predicate Excused(a: Answers)
      reads this`snapshot, this`driver, coordinator
    {
      match snapshot.phase
      case Stopping => Survives(a)
      case Claiming => HeldByOther(snapshot.generation + 1)
      case Launching => snapshot.generation == 0 && !a.launch(snapshot.attempt).Returns?
      case Blocked => LeaseLost() || Survives(a) || (snapshot.attempt >= limit && snapshot.process.None?)
      case _ => false
    }

    /** `_heartbeat_if_due`: a lost lease ends supervision but not a live runtime. */
    method HeartbeatIfDue(force: bool, due: bool, cleaned: bool) returns (r: Result<()>)
      requires Valid() && (pending.Idle? || pending.CheckpointReceipt?)
      modifies this`snapshot, this`currentProcess, this`stateFile, this`pending, this`history
      ensures Valid() && old(history) <= history
      ensures r.Ok? ==> unchanged(this)
      ensures r.Raised? ==> r.reason == StaleOwner && Ready() && snapshot.phase == Blocked && LeaseLost()
      ensures r.Raised? <==> history != old(history)
      ensures r.Raised? && old(ProcessLive(View())) ==> snapshot.process == old(snapshot).process
      ensures r.Raised? <==>
                && old(snapshot.phase == Running || snapshot.phase == Warning || snapshot.phase == Draining
                       || snapshot.phase == Checkpointing || snapshot.phase == Checkpointed
                       || snapshot.phase == Launching || snapshot.phase == AwaitingAck)
                && (force || due) && old(LeaseLost())
    {
      hide Run;
      Knows();
      if !HoldsLease(snapshot.phase) {
        return Ok(());
      }
      if !force && !due {
        return Ok(());
      }
      var refreshed := coordinator.Heartbeat(snapshot.claim.value);
      if refreshed.Ok? {
        return Ok(());
      }
      FailClosedForStaleOwner(cleaned, Heartbeat(cleaned));
      return Raised(StaleOwner);
    }

    /** `_fail_closed_for_stale_owner`; `cleaned` says whether the exit record of a dead process goes. */
    method FailClosedForStaleOwner(cleaned: bool, ghost a: Action)
      requires Valid() && Do(View(), a) == FailClosed(View(), cleaned)
      modifies this`snapshot, this`currentProcess, this`stateFile, this`pending, this`history
      ensures Ready() && history == old(history) + [a]
      ensures snapshot == if old(ProcessLive(View())) || !cleaned then old(snapshot).(phase := Blocked)
                          else old(snapshot).(phase := Blocked, process := None)
    {
      hide Run;
      snapshot := snapshot.(phase := Blocked);
      if cleaned && (currentProcess.None? || currentProcess.value !in driver.alive) {
        currentProcess := None;
        snapshot := snapshot.(process := None);
      }
      Persist(a);
    }

    // ------------------------------------------------------------ segments of a rotation

    /** Asks for the mandatory checkpoint; an unverified receipt leaves everything as it was. */
    method TakeCheckpoint(digest: Option<nat>) returns (receipt: Option<Fingerprint>)
      requires Ready() && snapshot.phase == Checkpointing && snapshot.conversation.Some?
      modifies this`pending, this`trace, this`history
      ensures Valid() && old(history) <= history
      ensures receipt == if digest.Some? then Some(Fingerprint(snapshot.generation + 1, digest.value)) else None
      ensures pending == match receipt case Some(f) => CheckpointReceipt(f) case None => Idle
    {
      hide Run;
      if digest.None? {
        return None;
      }
      ghost var w := View();
      receipt := Some(Fingerprint(snapshot.generation + 1, digest.value));
      pending := CheckpointReceipt(receipt.value);
      trace := trace + [CheckpointVerified(snapshot.generation + 1)];
      Log(Checkpoint(digest.value), w);
    }

    method RecordCheckpoint(receipt: Fingerprint)
      requires Valid() && snapshot.phase == Checkpointing && pending == CheckpointReceipt(receipt)
      modifies this, coordinator
      ensures Ready() && old(history) <= history
      ensures snapshot == old(snapshot).(phase := Checkpointed, checkpoint := Some(receipt))
    {
      hide Run;
      Disturb();
      snapshot := snapshot.(phase := Checkpointed, checkpoint := Some(receipt));
      Persist(WriteCheckpointed);
    }

    /** Heartbeats bracket the adapter call, so a lost lease is noticed before and after it. */
    method CheckpointSegment(a: Answers) returns (r: Result<bool>)
      requires Ready() && snapshot.phase == Checkpointing && snapshot.conversation.Some?
      modifies this, coordinator
      ensures Ready() && old(history) <= history
      ensures r.Ok? ==> r.value == a.receipt.Some?
      ensures r == Ok(true) ==>
                snapshot == old(snapshot).(phase := Checkpointed,
                                           checkpoint := Some(Fingerprint(old(snapshot.generation) + 1, a.receipt.value)))
      ensures r == Ok(false) ==> snapshot == old(snapshot)
      ensures r.Raised? ==> r == Raised(StaleOwner) && snapshot.phase == Blocked && LeaseLost()
    {
      hide Run;
      var before := HeartbeatIfDue(true, a.due, a.cleaned);
      if before.Raised? {
        return Raised(before.reason);
      }
      var receipt := TakeCheckpoint(a.receipt);
      Disturb();
      var after := HeartbeatIfDue(true, a.due, a.cleaned);
      if after.Raised? {
        return Raised(after.reason);
      }
      if receipt.None? {
        return Ok(false);
      }
      RecordCheckpoint(receipt.value);
      return Ok(true);
    }

    method NextPhase(phase: Phase)
      requires Ready()
      requires || (snapshot.phase == Checkpointed && phase == Stopping)
               || (snapshot.phase == Stopped && phase == Fencing)
               || (snapshot.phase == Fenced && phase == Claiming)
      modifies this, coordinator
      ensures Ready() && old(history) <= history
      ensures snapshot == old(snapshot).(phase := phase)
    {
      hide Run;
      Disturb();
      snapshot := snapshot.(phase := phase);
      Persist(WriteNextPhase);
    }

    /** Signals the predecessor and looks again: only an observed death lets the rotation go on. */
    method StopRuntime(obeys: bool) returns (gone: bool)
      requires Ready() && snapshot.phase == Stopping && currentProcess.Some?
      modifies this`driver, this`pending, this`trace, this`history
      ensures Valid() && old(history) <= history
      ensures pending == if gone then PredecessorGone else Idle
      ensures gone <==> obeys || currentProcess.value !in old(driver.alive)
      ensures gone <==> currentProcess.value !in driver.alive
    {
      hide Run;
      var process := currentProcess.value;
      ghost var w := View();
      GracefulStop(process, obeys);
      gone := process !in driver.alive;
      if gone {
        pending := PredecessorGone;
        trace := trace + [RuntimeStopped(snapshot.generation)];
      }
      Log(StopPredecessor(obeys), w);
    }

    method StopSegment(a: Answers) returns (r: Result<()>)
      requires Ready() && snapshot.phase == Stopping
      modifies this, coordinator
      ensures Ready() && old(history) <= history
      ensures r.Ok? ==> snapshot == old(snapshot).(phase := Stopped, process := None)
      ensures r.Raised? ==> r == Raised(RuntimeFault) && snapshot == old(snapshot) && Survives(a)
    {
      hide Run;
      Disturb();
      Knows();
      var gone := StopRuntime(a.obeys(currentProcess.value));
      if !gone {
        return Raised(RuntimeFault);
      }
      RecordStopped();
      return Ok(());
    }

    method RecordStopped()
      requires Valid() && snapshot.phase == Stopping && pending == PredecessorGone
      modifies this, coordinator
      ensures Ready() && old(history) <= history
      ensures snapshot == old(snapshot).(phase := Stopped, process := None)
    {
      hide Run;
      Disturb();
      currentProcess := None;
      snapshot := snapshot.(phase := Stopped, process := None);
      Persist(WriteStopped);
    }

    method FenceClaim() returns (r: Result<()>)
      requires Ready() && snapshot.phase == Fencing && snapshot.claim.Some?
      modifies this`snapshot, this`currentProcess, this`stateFile, this`pending, this`trace, this`history, coordinator
      ensures Valid() && old(history) <= history
      ensures r.Ok? ==> pending == ClaimReleased && snapshot == old(snapshot) && LeaseLost()
      ensures r.Raised? ==> Ready() && snapshot.phase == Blocked && r.reason == StaleOwner
                            && LeaseLost() && !AlreadyRotated(coordinator.store, snapshot.claim.value)
    {
      hide Run;
      ghost var w := View();
      r := coordinator.Fence(snapshot.claim.value);
      if r.Raised? {
        assert coordinator.store == w.claims;
        FailClosedForStaleOwner(true, FencePredecessor);
        return;
      }
      pending := ClaimReleased;
      trace := trace + [ClaimFenced(snapshot.generation)];
      Log(FencePredecessor, w);
    }

    /** Refused only for a claim that is neither current nor already rotated; afterwards it is not current. */
    method FenceSegment() returns (r: Result<()>)
      requires Ready() && snapshot.phase == Fencing
      modifies this, coordinator
      ensures Ready() && old(history) <= history
      ensures r.Ok? ==> snapshot == old(snapshot).(phase := Fenced)
      ensures LeaseLost()
      ensures r.Raised? ==> snapshot.phase == Blocked && r.reason == StaleOwner
                            && !AlreadyRotated(coordinator.store, snapshot.claim.value)
    {
      hide Run;
      Disturb();
      Knows();
      r := FenceClaim();
      if r.Ok? {
        Knows();
        RecordFenced();
      }
    }

    method RecordFenced()
      requires Valid() && snapshot.phase == Fencing && pending == ClaimReleased && LeaseLost()
      requires snapshot.claim.value.epoch < coordinator.store.nextEpoch
      modifies this, coordinator
      ensures Ready() && old(history) <= history
      ensures snapshot == old(snapshot).(phase := Fenced) && LeaseLost()
    {
      hide Run;
      Disturb();
      snapshot := snapshot.(phase := Fenced);
      Persist(WriteFenced);
    }

    method TakeSuccessorClaim() returns (r: Result<Claim>)
      requires Ready() && snapshot.phase == Claiming
      modifies this`pending, this`trace, this`history, coordinator
      ensures Valid() && old(history) <= history
      ensures pending == match r case Ok(claim) => ClaimHeld(claim) case Raised(_) => Idle
      ensures r.Ok? ==> r.value.owner == Session(snapshot.generation + 1)
      ensures r.Raised? ==> r == Raised(Conflict) && HeldByOther(snapshot.generation + 1)
    {
      hide Run;
      var target := snapshot.generation + 1;
      ghost var w := View();
      r := coordinator.ClaimTask(Session(target));
      if r.Ok? {
        pending := ClaimHeld(r.value);
        trace := trace + [ClaimTaken(target)];
      }
      Log(TakeNextClaim, w);
    }

    method ClaimSegment() returns (r: Result<()>)
      requires Ready() && snapshot.phase == Claiming
      modifies this, coordinator
      ensures Ready() && old(history) <= history
      ensures r.Ok? ==>
                && snapshot.claim.Some? && snapshot.claim.value.owner == Session(old(snapshot.generation) + 1)
                && snapshot == old(snapshot).(generation := old(snapshot.generation) + 1, attempt := 0, phase := Launching,
                                              conversation := None, claim := snapshot.claim)
      ensures r.Raised? ==> r == Raised(Conflict) && snapshot == old(snapshot) && HeldByOther(snapshot.generation + 1)
    {
      hide Run;
      Disturb();
      var claimed := TakeSuccessorClaim();
      if claimed.Raised? {
        return Raised(claimed.reason);
      }
      RecordClaim(claimed.value);
      return Ok(());
    }

    method RecordClaim(claim: Claim)
      requires Valid() && snapshot.phase == Claiming && pending == ClaimHeld(claim)
      modifies this, coordinator
      ensures Ready() && old(history) <= history
      ensures snapshot == old(snapshot).(generation := old(snapshot.generation) + 1, attempt := 0, phase := Launching,
                                         conversation := None, claim := Some(claim))
    {
      hide Run;
      Disturb();
      snapshot := snapshot.(generation := snapshot.generation + 1, attempt := 0, phase := Launching,
                            conversation := None, claim := Some(claim));
      Persist(WriteNextClaim);
    }

    /** A failed root launch is the caller's; a failed successor launch waits to be retried. */
    method LaunchSegment(end: LaunchEnd) returns (r: Result<Guardian>)
      requires Ready() && snapshot.phase == Launching
      modifies this, coordinator
      ensures Valid() && old(history) <= history && snapshot == old(snapshot)
      ensures r.Ok? ==> pending == LaunchReturned(r.value)
      ensures r.Raised? ==> r == Raised(RuntimeFault) && !end.Returns?
                            && pending == if snapshot.generation == 0 then Idle else LaunchRaised
    {
      hide Run;
      Disturb();
      Knows();
      r := LaunchRuntime(end);
    }

    method LaunchRuntime(end: LaunchEnd) returns (r: Result<Guardian>)
      requires Ready() && snapshot.phase == Launching
      requires DriverOk(driver) && OnlyOf(driver, snapshot.generation)
      requires snapshot.generation > 0 ==> snapshot.checkpoint.Some?
      modifies this`driver, this`pending, this`trace, this`history
      ensures Valid() && old(history) <= history
      ensures r.Raised? ==> r == Raised(RuntimeFault) && !end.Returns?
      ensures pending == match r
                         case Ok(g) => LaunchReturned(g)
                         case Raised(_) => if snapshot.generation == 0 then Idle else LaunchRaised
    {
      hide Run;
      ghost var w := View();
      r := StartFreshRuntime(snapshot.generation, if snapshot.generation > 0 then snapshot.checkpoint else None, end);
      trace := trace + [LaunchAttempted(snapshot.generation)];
      pending := match r
                 case Ok(g) => LaunchReturned(g)
                 case Raised(_) => if snapshot.generation == 0 then Idle else LaunchRaised;
      Log(Launch(end), w);
    }

    method AwaitSuccessor(process: Guardian)
      requires Valid() && snapshot.phase == Launching && pending == LaunchReturned(process)
      modifies this`snapshot, this`currentProcess, this`stateFile, this`pending, this`history
      ensures Ready() && old(history) <= history
      ensures snapshot == old(snapshot).(phase := AwaitingAck, process := Some(process))
    {
      hide Run;
      currentProcess := Some(process);
      snapshot := snapshot.(phase := AwaitingAck, process := Some(process));
      Persist(WriteAwaitingAck);
    }

    // ------------------------------------------------------------ rotation and retry

    /** One phase before the launch; `more` when `_advance_rotation` goes round its loop again. */
    method AdvanceOnce(a: Answers) returns (more: bool, r: Result<()>)
      requires Ready() && snapshot.phase != Launching
      modifies this, coordinator
      ensures Ready() && old(history) <= history
      ensures more ==>
                && r.Ok? && 0 < Rank(snapshot.phase) == Rank(old(snapshot.phase)) - 1 && snapshot.phase != AwaitingAck
                && snapshot.generation == old(snapshot.generation) + (if snapshot.phase == Launching then 1 else 0)
      ensures !more && r.Ok? ==>
                && snapshot == old(snapshot)
                && Stands(a)
      ensures r.Raised? ==> !more && r.reason != InvalidValue && Excused(a) && Rank(old(snapshot.phase)) > 1
    {
      hide Run;
      more, r := true, Ok(());
      match snapshot.phase {
        case Checkpointing =>
          if snapshot.conversation.None? {
            more := false;
          } else {
            var checkpointed := CheckpointSegment(a);
            more := checkpointed == Ok(true);
            r := if checkpointed.Raised? then Raised(checkpointed.reason) else Ok(());
          }
        case Checkpointed => NextPhase(Stopping);
        case Stopping =>
          r := StopSegment(a);
          more := r.Ok?;
        case Stopped => NextPhase(Fencing);
        case Fencing =>
          r := FenceSegment();
          more := r.Ok?;
        case Fenced => NextPhase(Claiming);
        case Claiming =>
          r := ClaimSegment();
          more := r.Ok?;
        case _ => more := false;
      }
    }

    /**
      `_advance_rotation`: moves through the rotation phases until the successor is awaited,
      the retries are spent, or a call raises. `_retry_successor_unlocked` calls back into
      it; the pair terminates for every pattern of launch failures. It stands still only
      outside a rotation or without a verified checkpoint, and raises only for a reason that
      is still there when it returns.
     */
    method AdvanceRotation(a: Answers) returns (r: Result<()>)
      requires Ready()
      modifies this, coordinator
      ensures Ready() && old(history) <= history
      ensures old(Rank(snapshot.phase) == 0 || snapshot.phase == AwaitingAck) ==> r.Ok? && snapshot == old(snapshot)
      ensures r.Ok? && old(Rank(snapshot.phase) > 0 && snapshot.phase != AwaitingAck) ==>
                Brought(old(snapshot)) || (snapshot == old(snapshot) && snapshot.phase == Checkpointing && Stands(a))
      ensures r.Raised? ==> r.reason != InvalidValue && Excused(a)
      decreases Rank(snapshot.phase), limit - snapshot.attempt, if snapshot.phase == Launching then 2 else 0
    {
      hide Run, Do, Excused;
      var more;
      more, r := ReachLaunch(a);
      if more {
        r := LaunchOrRetry(a);
      }
    }

    /** The rounds of the loop before a launch; `more` when it is time to launch. */
    method ReachLaunch(a: Answers) returns (more: bool, r: Result<()>)
      requires Ready()
      modifies this, coordinator
      ensures Ready() && old(history) <= history
      ensures more ==>
                && r.Ok? && snapshot.phase == Launching
                && (if old(snapshot.phase) == Launching then snapshot == old(snapshot)
                    else Rank(old(snapshot.phase)) > 1 && snapshot.generation == old(snapshot.generation) + 1)
      ensures !more && r.Ok? ==> snapshot == old(snapshot) && Stands(a)
      ensures r.Raised? ==> !more && r.reason != InvalidValue && Excused(a) && Rank(old(snapshot.phase)) > 1
    {
      hide Run, Do, Excused;
      more, r := true, Ok(());
      while more && snapshot.phase != Launching
        invariant Ready() && old(history) <= history && r.Ok?
        invariant snapshot == old(snapshot) || Rank(snapshot.phase) < Rank(old(snapshot.phase))
        invariant !more ==> snapshot == old(snapshot) && Stands(a)
        invariant more && snapshot != old(snapshot) ==>
                    && Rank(old(snapshot.phase)) > 1 && snapshot.phase != AwaitingAck && Rank(snapshot.phase) > 0
                    && snapshot.generation == old(snapshot.generation) + (if snapshot.phase == Launching then 1 else 0)
        invariant old(snapshot.phase) == Launching ==> more && snapshot == old(snapshot)
        decreases Rank(snapshot.phase), more
      {
        more, r := AdvanceOnce(a);
        if r.Raised? {
          return;
        }
      }
    }

    /** Nothing to advance: outside a rotation, with a successor awaited, or without a verified checkpoint. */
    ghost predicate Stands(a: Answers)
      reads this`snapshot
    {
      || Rank(snapshot.phase) == 0
      || snapshot.phase == AwaitingAck
      || (snapshot.phase == Checkpointing && (snapshot.conversation.None? || a.receipt.None?))
    }

    method LaunchOrRetry(a: Answers) returns (r: Result<()>)
      requires Ready() && snapshot.phase == Launching
      modifies this, coordinator
      ensures Ready() && old(history) <= history
      ensures r.Ok? ==> && snapshot.phase == AwaitingAck && snapshot.process.Some?
                        && snapshot.generation == old(snapshot.generation) && snapshot.attempt >= old(snapshot.attempt)
      ensures r.Raised? ==> r.reason != InvalidValue && Excused(a)
      decreases Rank(snapshot.phase), limit - snapshot.attempt, 1
    {
      hide Run, Do, Excused;
      var launched := LaunchSegment(a.launch(snapshot.attempt));
      if launched.Raised? && snapshot.generation == 0 {
        LaunchExcused(a);
        return Raised(launched.reason);
      }
      if launched.Raised? {
        r := RetrySuccessor(launched.reason, a);
      } else {
        AwaitSuccessor(launched.value);
        r := HeartbeatIfDue(false, a.dueAfterLaunch, a.cleaned);
        if r.Raised? {
          LeaseExcused(a);
        }
      }
    }

    lemma LaunchExcused(a: Answers)
      requires snapshot.phase == Launching && snapshot.generation == 0 && !a.launch(snapshot.attempt).Returns?
      ensures Excused(a)
    {
    }

    lemma SurvivorExcused(a: Answers)
      requires snapshot.phase == Blocked && Survives(a)
      ensures Excused(a)
    {
    }

    lemma SpentExcused(a: Answers)
      requires snapshot.phase == Blocked && snapshot.attempt >= limit && snapshot.process.None?
      ensures Excused(a)
    {
    }

    lemma LeaseExcused(a: Answers)
      requires snapshot.phase == Blocked && LeaseLost()
      ensures Excused(a)
    {
    }

    /** A successor is awaited: of the generation launching before, or of the next one. */
    ghost predicate Brought(before: Snapshot)
      reads this`snapshot
    {
      && snapshot.phase == AwaitingAck && snapshot.process.Some?
      && snapshot.generation == before.generation + (if before.phase == Launching then 0 else 1)
      && (before.phase == Launching ==> snapshot.attempt >= before.attempt)
    }

    /** Signals a live failed successor; one that survives blocks the chain. */
    method ClearSuccessor(obeys: Guardian -> bool) returns (gone: bool)
      requires Valid() && snapshot.generation > 0
      requires (snapshot.phase == AwaitingAck && pending.RetryWanted?) || (snapshot.phase == Launching && pending.LaunchRaised?)
      modifies this`driver, this`snapshot, this`stateFile, this`ackFile, this`pending, this`history
      ensures Valid() && old(history) <= history
      ensures gone <==> snapshot.process.None? || snapshot.process.value !in old(driver.alive) || obeys(snapshot.process.value)
      ensures gone ==> pending == RetryCleared && snapshot == old(snapshot) && ackFile == None
      ensures !gone ==> Ready() && snapshot == old(snapshot).(phase := Blocked) && snapshot.process.value in driver.alive
      ensures history[..|old(history)|] == old(history) && |history| == |old(history)| + 1
              && history[|old(history)|].StopSuccessor?
    {
      hide Run;
      ghost var w := View();
      ghost var dies := false;
      if currentProcess.Some? && currentProcess.value in driver.alive {
        GracefulStop(currentProcess.value, obeys(currentProcess.value));
        dies := obeys(currentProcess.value);
      }
      gone := currentProcess.None? || currentProcess.value !in driver.alive;
      if gone {
        ackFile := None;
        pending := RetryCleared;
      } else {
        snapshot := snapshot.(phase := Blocked);
        stateFile := snapshot;
        pending := Idle;
      }
      Log(StopSuccessor(dies), w);
    }

    /** Schedules the retry, or blocks when the budget is spent. */
    method ScheduleRetry() returns (scheduled: bool)
      requires Valid() && pending == RetryCleared && (snapshot.phase == AwaitingAck || snapshot.phase == Launching)
      modifies this`snapshot, this`currentProcess, this`stateFile, this`pending, this`history
      ensures Ready() && old(history) <= history
      ensures scheduled <==> old(snapshot.attempt) < limit
      ensures snapshot == if scheduled
                          then old(snapshot).(phase := Launching, attempt := old(snapshot.attempt) + 1, process := None, conversation := None)
                          else old(snapshot).(phase := Blocked, process := None, conversation := None)
    {
      hide Run;
      currentProcess := None;
      scheduled := snapshot.attempt < limit;
      if scheduled {
        snapshot := snapshot.(phase := Launching, attempt := snapshot.attempt + 1, process := None, conversation := None);
      } else {
        snapshot := snapshot.(phase := Blocked, process := None, conversation := None);
      }
      Persist(WriteRetry);
    }

    /** The stop of a failed successor is among the steps from position `n` on. */
    ghost predicate RetriedSince(n: nat)
      reads this`history
    {
      exists k :: n <= k < |history| && history[k].StopSuccessor?
    }

    /** `_retry_successor_unlocked`: the failed successor must be gone before it is replaced. */
    method RetrySuccessor(cause: Reason, a: Answers) returns (r: Result<()>)
      requires Valid() && snapshot.generation > 0 && cause != InvalidValue
      requires (snapshot.phase == AwaitingAck && pending.RetryWanted?) || (snapshot.phase == Launching && pending.LaunchRaised?)
      modifies this, coordinator
      ensures Ready() && old(history) <= history && RetriedSince(|old(history)|)
      ensures r.Ok? ==> && snapshot.phase == AwaitingAck && snapshot.process.Some?
                        && snapshot.generation == old(snapshot.generation) && snapshot.attempt > old(snapshot.attempt)
      ensures r.Raised? ==> r.reason != InvalidValue && Excused(a)
      decreases 1, limit - snapshot.attempt, 0
    {
      hide Run, Do, Excused;
      Disturb();
      ghost var at := |history|;
      var gone := ClearSuccessor(a.obeys);
      if !gone {
        SurvivorExcused(a);
        return Raised(RuntimeFault);
      }
      var scheduled := ScheduleRetry();
      if !scheduled {
        SpentExcused(a);
        return Raised(cause);
      }
      r := AdvanceRotation(a);
      assert history[at].StopSuccessor?;
    }

    // ------------------------------------------------------------ start

    method TakeRootClaim() returns (r: Result<Claim>)
      requires Ready() && snapshot.phase == Initial
      modifies this`pending, this`trace, this`history, coordinator
      ensures Valid() && old(history) <= history
      ensures pending == match r case Ok(claim) => ClaimHeld(claim) case Raised(_) => Idle
      ensures r.Ok? ==> r.value.owner == Session(0)
      ensures r.Raised? ==> r == Raised(Conflict) && HeldByOther(0)
    {
      hide Run;
      ghost var w := View();
      r := coordinator.ClaimTask(Session(0));
      if r.Ok? {
        pending := ClaimHeld(r.value);
        trace := trace + [ClaimTaken(0)];
      }
      Log(TakeFirstClaim, w);
    }

    method FinishCompleted()
      requires Ready() && snapshot.phase == Completed
      modifies this`snapshot, this`currentProcess, this`stateFile, this`pending, this`history
      ensures Ready() && old(history) <= history && snapshot == old(snapshot).(process := None)
    {
      hide Run;
      if currentProcess.Some? {
        currentProcess := None;
        snapshot := snapshot.(process := None);
        Persist(FinishCleanup);
      }
    }

    /**
      `start`: claims and launches the root generation, or checks on what is already running.
      From the beginning it fails only for another owner's lease or a failed launch.
     */
    method StartChain(a: Answers) returns (r: Result<()>)
      requires Ready()
      modifies this, coordinator
      ensures Ready() && old(history) <= history
      ensures r.Ok? && old(snapshot.phase == Initial || (snapshot.phase == Launching && snapshot.generation == 0)) ==>
                snapshot.phase == Running && snapshot.generation == 0 && snapshot.process.Some?
      ensures r.Raised? && old(snapshot.phase == Initial || (snapshot.phase == Launching && snapshot.generation == 0)) ==>
                || (old(snapshot.phase) == Initial && snapshot == old(snapshot) && HeldByOther(0))
                || (snapshot.phase == Launching && snapshot.generation == 0 && !a.launch(snapshot.attempt).Returns?)
      ensures old(Watched(snapshot.phase) && ProcessLive(View())) && a.readable ==> r.Ok? && snapshot == old(snapshot)
      ensures old(snapshot.phase) == Completed ==> r.Ok? && snapshot == old(snapshot).(process := None)
    {
      hide Run;
      if snapshot.phase == Completed {
        FinishCompleted();
        return Ok(());
      }
      if snapshot.phase == Initial {
        var claimed := TakeRootClaim();
        if claimed.Raised? {
          return Raised(claimed.reason);
        }
        snapshot := snapshot.(generation := 0, phase := Launching, claim := Some(claimed.value));
        Persist(WriteFirstClaim);
      }
      if snapshot.phase != Launching || snapshot.generation != 0 {
        r := EnsureActiveProcessIsLive(a);
        return;
      }
      r := LaunchRoot(a.launch(snapshot.attempt));
    }

    method LaunchRoot(end: LaunchEnd) returns (r: Result<()>)
      requires Ready() && snapshot.phase == Launching && snapshot.generation == 0
      modifies this, coordinator
      ensures Ready() && old(history) <= history
      ensures r.Ok? ==> snapshot.process.Some? && snapshot == old(snapshot).(phase := Running, process := snapshot.process)
      ensures r.Raised? ==> snapshot == old(snapshot) && !end.Returns?
    {
      hide Run;
      var launched := LaunchSegment(end);
      if launched.Raised? {
        return Raised(launched.reason);
      }
      currentProcess := Some(launched.value);
      snapshot := snapshot.(phase := Running, process := Some(launched.value));
      Persist(WriteRunning);
      return Ok(());
    }

    // ------------------------------------------------------------ one tick

    /** `_complete_clean_exit`: the claim goes before completion is written. */
    method CompleteCleanExit(reachable: bool) returns (r: Result<()>)
      requires Ready() && (snapshot.phase == Running || snapshot.phase == Warning)
      requires currentProcess.Some? && currentProcess.value !in driver.alive && snapshot.claim.Some?
      modifies this, coordinator
      ensures Ready() && old(history) <= history
      ensures r.Ok? <==> reachable
      ensures r.Ok? ==> && snapshot == old(snapshot).(phase := Completed, claim := None, process := None)
                        && !IsCurrent(coordinator.store, old(snapshot.claim.value))
      ensures r.Raised? ==> r == Raised(RuntimeFault) && snapshot == old(snapshot).(phase := Blocked)
      ensures old(history) < history
    {
      hide Run;
      if !reachable {
        snapshot := snapshot.(phase := Blocked);
        Persist(FenceCleanExit(true));
        return Raised(RuntimeFault);
      }
      FenceExitedClaim();
      snapshot := snapshot.(phase := Completed, claim := None);
      Persist(WriteCompleted);
      FinishCompleted();
      return Ok(());
    }

    method FenceExitedClaim()
      requires Ready() && (snapshot.phase == Running || snapshot.phase == Warning)
      requires currentProcess.Some? && currentProcess.value !in driver.alive && snapshot.claim.Some?
      modifies this`pending, this`history, coordinator
      ensures Valid() && old(history) < history && pending == ExitFenced && LeaseLost()
    {
      hide Run;
      ghost var w := View();
      var fenced := coordinator.Fence(snapshot.claim.value);   // a stale claim is as good as released
      pending := ExitFenced;
      Log(FenceCleanExit(false), w);
    }

    method BlockWith(ghost a: Action)
      requires Valid() && Do(View(), a) == WriteBlocked(View())
      modifies this`snapshot, this`stateFile, this`pending, this`history
      ensures Ready() && old(history) <= history && snapshot == old(snapshot).(phase := Blocked)
    {
      hide Run;
      snapshot := snapshot.(phase := Blocked);
      Persist(a);
    }

    /**
      `_ensure_active_process_is_live`: an observed live process lets the tick go on as it was;
      a dead successor is retried, a clean exit completed, and anything else blocks.
     */
    method EnsureActiveProcessIsLive(a: Answers) returns (r: Result<()>)
      requires Ready()
      modifies this, coordinator
      ensures Ready() && old(history) <= history
      ensures !Watched(old(snapshot.phase)) ==> r.Ok? && unchanged(this) && unchanged(coordinator)
      ensures Watched(old(snapshot.phase)) ==>
                if !a.readable then
                  r == Raised(RuntimeFault) && snapshot == old(snapshot).(phase := Blocked)
                else if old(ProcessLive(View())) then
                  r.Ok? && unchanged(this) && unchanged(coordinator)
                else if old(snapshot.phase) == AwaitingAck then
                  if old(snapshot.generation) == 0 then r == Raised(RuntimeFault) && snapshot == old(snapshot)
                  else RetriedSince(|old(history)|) && Replaced(old(snapshot), a, r)
                else if old(snapshot.phase == Running || snapshot.phase == Warning) && a.natural then
                  if a.reachable then r.Ok? && snapshot.phase == Completed
                  else r == Raised(RuntimeFault) && snapshot == old(snapshot).(phase := Blocked)
                else
                  r == Raised(RuntimeFault) && snapshot == old(snapshot).(phase := Blocked)
      ensures r.Raised? ==> r.reason != InvalidValue
    {
      hide Run, Excused;
      if !Supervised(snapshot.phase) {
        return Ok(());
      }
      Knows();
      if !a.readable {
        BlockWith(LoseSupervision(true));
        return Raised(RuntimeFault);
      }
      if currentProcess.value in driver.alive {
        return Ok(());
      }
      r := AfterExit(a);
    }

    /** The watched process is gone. */
    method AfterExit(a: Answers) returns (r: Result<()>)
      requires Ready() && Watched(snapshot.phase) && currentProcess.Some? && currentProcess.value !in driver.alive && a.readable
      requires snapshot.claim.Some?
      modifies this, coordinator
      ensures Ready() && old(history) <= history
      ensures if old(snapshot.phase) == AwaitingAck then
                if old(snapshot.generation) == 0 then r == Raised(RuntimeFault) && snapshot == old(snapshot)
                else RetriedSince(|old(history)|) && Replaced(old(snapshot), a, r)
              else if old(snapshot.phase == Running || snapshot.phase == Warning) && a.natural then
                if a.reachable then r.Ok? && snapshot.phase == Completed
                else r == Raised(RuntimeFault) && snapshot == old(snapshot).(phase := Blocked)
              else
                r == Raised(RuntimeFault) && snapshot == old(snapshot).(phase := Blocked)
      ensures r.Raised? ==> r.reason != InvalidValue
    {
      hide Run, Excused;
      if snapshot.phase == AwaitingAck {
        r := AbandonSuccessor(a);
        return;
      }
      if a.natural && (snapshot.phase == Running || snapshot.phase == Warning) {
        r := CompleteCleanExit(a.reachable);
        return;
      }
      BlockWith(LoseSupervision(false));
      return Raised(RuntimeFault);
    }

    /** Another successor of the generation is awaited, or the call raised for a reason that remains. */
    ghost predicate Replaced(before: Snapshot, a: Answers, r: Result<()>)
      reads this`snapshot, this`driver, coordinator
    {
      if r.Ok? then
        snapshot.phase == AwaitingAck && snapshot.generation == before.generation && snapshot.attempt > before.attempt
      else Excused(a)
    }

    /** The successor exited before it acknowledged. */
    method AbandonSuccessor(a: Answers) returns (r: Result<()>)
      requires Ready() && snapshot.phase == AwaitingAck && !ProcessLive(View())
      modifies this, coordinator
      ensures Ready() && old(history) <= history
      ensures old(snapshot.generation) == 0 ==> r == Raised(RuntimeFault) && snapshot == old(snapshot)
      ensures old(snapshot.generation) > 0 ==>
                && RetriedSince(|old(history)|)
                && Replaced(old(snapshot), a, r)
      ensures r.Raised? ==> r.reason != InvalidValue
    {
      hide Run;
      if snapshot.generation == 0 {
        return Raised(RuntimeFault);   // a retry requested outside a successor launch
      }
      ghost var w := View();
      pending := RetryWanted;
      Log(LoseSupervision(false), w);
      r := RetrySuccessor(RuntimeFault, a);
    }

    /**
      `_acknowledge_unlocked`: refused with nothing changed exactly when it is not the awaited
      acknowledgement; blocked exactly when the lease is lost; otherwise accepted if the stores
      verify it, and the successor retried if they do not.
     */
    method Acknowledge(ack: Ack, a: Answers) returns (r: Result<bool>)
      requires Ready()
      modifies this, coordinator
      ensures Ready() && old(history) <= history
      ensures r == Raised(InvalidValue) <==> !old(Awaits(snapshot, ack))
      ensures !old(Awaits(snapshot, ack)) ==> history == old(history) && snapshot == old(snapshot) && ackFile == old(ackFile)
      ensures old(Awaits(snapshot, ack) && LeaseLost()) ==> r == Raised(StaleOwner) && snapshot.phase == Blocked
      ensures old(Awaits(snapshot, ack) && !LeaseLost()) && a.verifies ==> r == Ok(true)
      ensures old(Awaits(snapshot, ack) && !LeaseLost()) && !a.verifies ==> r != Ok(true) && RetriedSince(|old(history)|)
      ensures r == Ok(true) ==>
                && snapshot == old(snapshot).(phase := Running, conversation := Some(ack.conversation))
                && PersistedNow(old(journal), ack) && old(history) < history
      ensures r == Ok(false) ==>
                snapshot.phase == AwaitingAck && snapshot.attempt > old(snapshot.attempt) && old(history) < history
      ensures r.Raised? && r.reason != InvalidValue ==> Excused(a)
    {
      hide Run, Do, Excused;
      if snapshot.phase != AwaitingAck {
        return Raised(InvalidValue);
      }
      if ack.generation != snapshot.generation || Some(ack.fingerprint) != snapshot.checkpoint
         || Some(ack.owner) != snapshot.process || ack.fingerprint.target != snapshot.generation {
        return Raised(InvalidValue);
      }
      Knows();
      var beat := HeartbeatIfDue(true, a.due, a.cleaned);
      if beat.Raised? {
        LeaseExcused(a);
        return Raised(beat.reason);
      }
      VerifyAcknowledgement(ack, a.verifies);
      if a.verifies {
        Disturb();
        RecordAck(ack);
        return Ok(true);
      }
      var retried := RetrySuccessor(RuntimeFault, a);
      return if retried.Ok? then Ok(false) else Raised(retried.reason);
    }

    /** The journal's last entry is this acknowledgement; turns may have been appended before it. */
    ghost predicate PersistedNow(before: seq<Entry>, ack: Ack)
      reads this
    {
      before < journal && journal[|journal| - 1] == AckPersisted(ack)
    }

    /** The required stores acknowledge, or the successor has to be retried. */
    method VerifyAcknowledgement(ack: Ack, verified: bool)
      requires Ready() && Awaits(snapshot, ack)
      modifies this`pending, this`trace, this`history
      ensures Valid() && old(history) < history
      ensures pending == if verified then AckVerified(ack) else RetryWanted
    {
      hide Run;
      ghost var w := View();
      pending := if verified then AckVerified(ack) else RetryWanted;
      trace := trace + [AckRecorded(snapshot.generation)];
      Log(VerifyAck(ack, verified), w);
    }

    method RecordAck(ack: Ack)
      requires Valid() && snapshot.phase == AwaitingAck && pending == AckVerified(ack)
      modifies this`snapshot, this`stateFile, this`journal, this`pending, this`history
      ensures Ready() && old(history) <= history
      ensures snapshot == old(snapshot).(phase := Running, conversation := Some(ack.conversation))
      ensures journal == old(journal) + [AckPersisted(ack)]
    {
      hide Run;
      ghost var w := View();
      snapshot := snapshot.(phase := Running, conversation := Some(ack.conversation));
      stateFile := snapshot;
      journal := journal + [AckPersisted(ack)];
      pending := Idle;
      Log(WriteAcknowledged, w);
    }

    /**
      The AWAITING_ACK part of a tick: a record is taken, and removed when it was accepted; without
      one the successor is waited for until the deadline and retried after it.
     */
    method TickAwaiting(a: Answers) returns (r: Result<()>)
      requires Ready() && snapshot.phase == AwaitingAck
      modifies this, coordinator
      ensures Ready() && old(history) <= history
      ensures Acceptable(old(View()), a) ==> r.Ok? && snapshot.phase == Running
      ensures snapshot.phase == Running ==>
                && Acceptable(old(View()), a)
                && snapshot == old(snapshot).(phase := Running, conversation := Some(old(ackFile).value.conversation))
                && PersistedNow(old(journal), old(ackFile).value)
                && ackFile != old(ackFile)
      ensures r == Raised(InvalidValue) <==> old(ackFile.Some? && !Awaits(snapshot, ackFile.value))
      ensures old(ackFile.Some? && Awaits(snapshot, ackFile.value) && !LeaseLost()) && !a.verifies ==> RetriedSince(|old(history)|)
      ensures old(ackFile.None?) && !a.expired ==> r.Ok? && snapshot == old(snapshot)
      ensures old(ackFile.None? && snapshot.generation > 0) && a.expired ==>
                RetriedSince(|old(history)|) && (r.Ok? ==> snapshot.attempt > old(snapshot.attempt))
      ensures r.Ok? ==> snapshot.phase == AwaitingAck || snapshot.phase == Running
      ensures r.Raised? ==> r == Raised(InvalidValue) || Excused(a) || (snapshot == old(snapshot) && snapshot.generation == 0)
    {
      hide Run;
      if ackFile.Some? {
        var ack := ackFile.value;
        var accepted := Acknowledge(ack, a);
        if accepted.Raised? {
          return Raised(accepted.reason);
        }
        if accepted.value && ackFile == Some(ack) {
          ghost var w := View();
          ackFile := None;
          Log(DropStaleAck, w);
        }
        return Ok(());
      }
      if !a.expired {
        return Ok(());
      }
      if snapshot.generation == 0 {
        return Raised(RuntimeFault);
      }
      ghost var w := View();
      pending := RetryWanted;
      Log(GiveUpOnSuccessor, w);
      r := RetrySuccessor(RuntimeFault, a);
    }

    /**
      `tick`, for the phases past draining: liveness, heartbeat, acknowledgement, rotation.
      `found` is the state after the events before it.
     */
    method Tick(a: Answers) returns (r: Result<()>, ghost found: World)
      requires Ready() && snapshot.phase != Initial
      modifies this, coordinator
      ensures Ready() && old(history) <= history && found.disk == old(snapshot)
      ensures exists k :: |old(history)| <= k <= |history| && found == Run(Start(limit), history[..k])
                          && (Proceeds(found, a) ==> Ticked(found, k, a, r))
      ensures r.Ok? ==> Rank(snapshot.phase) == 0 || snapshot.phase == AwaitingAck || snapshot.phase == Checkpointing
      ensures r.Raised? ==> r == Raised(InvalidValue) || snapshot.phase == Blocked || snapshot == found.disk || Excused(a)
    {
      hide Run;
      Disturb();
      found := View();
      ghost var at := |history|;
      ghost var now := history;
      r := TickFound(a);
      assert history[..at] == now;
    }

    method TickFound(a: Answers) returns (r: Result<()>)
      requires Ready() && snapshot.phase != Initial
      modifies this, coordinator
      ensures Ready() && old(history) <= history
      ensures Proceeds(old(View()), a) ==> Ticked(old(View()), |old(history)|, a, r)
      ensures r.Ok? ==> Rank(snapshot.phase) == 0 || snapshot.phase == AwaitingAck || snapshot.phase == Checkpointing
      ensures r.Raised? ==> r == Raised(InvalidValue) || snapshot.phase == Blocked || snapshot == old(snapshot) || Excused(a)
    {
      hide Run, Do, Excused, Ticked;
      r := EnsureActiveProcessIsLive(a);
      if r.Raised? {
        return;
      }
      if snapshot.phase == Completed {
        if Proceeds(old(View()), a) {
          CompletedTicks(old(View()), |old(history)|, a, r);
        }
        return;
      }
      r := TickWatched(a);
    }

    lemma CompletedTicks(found: World, n: nat, a: Answers, r: Result<()>)
      requires found.disk.phase == Completed && r.Ok? && snapshot == found.disk
      ensures Ticked(found, n, a, r)
    {
    }

    method TickWatched(a: Answers) returns (r: Result<()>)
      requires Ready() && snapshot.phase != Initial
      modifies this, coordinator
      ensures Ready() && old(history) <= history
      ensures Proceeds(old(View()), a) ==> Ticked(old(View()), |old(history)|, a, r)
      ensures r.Ok? ==> Rank(snapshot.phase) == 0 || snapshot.phase == AwaitingAck || snapshot.phase == Checkpointing
      ensures r.Raised? ==> r == Raised(InvalidValue) || snapshot.phase == Blocked || (snapshot == old(snapshot) && snapshot.generation == 0) || Excused(a)
    {
      hide Run, Do;
      r := HeartbeatIfDue(false, a.due, a.cleaned);
      if r.Raised? {
        return;
      }
      if snapshot.phase == AwaitingAck {
        r := TickAwaiting(a);
      } else {
        r := AdvanceRotation(a);
      }
    }

    /** What a tick that got past its first checks has made of the state it found. */
    ghost predicate Ticked(found: World, n: nat, a: Answers, r: Result<()>)
      reads this, coordinator
    {
      if found.disk.phase == AwaitingAck then
        && (Acceptable(found, a) <==> snapshot.phase == Running)
        && (Acceptable(found, a) ==>
              r.Ok? && snapshot == found.disk.(phase := Running, conversation := Some(found.ackFile.value.conversation)))
        && (found.ackFile.None? && !a.expired ==> r.Ok? && snapshot == found.disk)
        && (found.ackFile.None? && a.expired && found.disk.generation > 0 ==> RetriedSince(n))
        && (r.Raised? ==>
              || (r == Raised(InvalidValue) && found.ackFile.Some? && !Awaits(found.disk, found.ackFile.value))
              || Excused(a)
              || (snapshot == found.disk && snapshot.generation == 0))
      else if Rank(found.disk.phase) == 0 then
        r.Ok? && snapshot == found.disk
      else
        && (r.Ok? ==> Brought(found.disk) || (snapshot == found.disk && snapshot.phase == Checkpointing && Stands(a)))
        && (r.Raised? ==> Excused(a))
    }

    // ------------------------------------------------------------ shutdown

    method BeginTerminalShutdown() returns (adopted: bool)
      requires Ready() && snapshot.phase != Completed
      modifies this`snapshot, this`stateFile, this`pending, this`history
      ensures Valid() && old(history) <= history
      ensures adopted == Adopted(old(snapshot)) && pending == ShuttingDown(adopted)
      ensures snapshot == if old(snapshot.process.Some?) then old(snapshot).(phase := Blocked) else old(snapshot)
    {
      hide Run;
      ghost var w := View();
      adopted := !(snapshot.phase == Launching || snapshot.phase == AwaitingAck || snapshot.phase == Stopping)
                 && !(snapshot.generation > 0 && snapshot.conversation.None?);
      if currentProcess.Some? {
        snapshot := snapshot.(phase := Blocked);
        stateFile := snapshot;
      }
      pending := ShuttingDown(adopted);
      Log(BeginShutdown, w);
    }

    /** Ends a runtime that never became the user's session; one that survives is a fault. */
    method StopUnadopted(obeys: bool) returns (gone: bool)
      requires Valid() && pending == ShuttingDown(false) && ProcessLive(View())
      modifies this`driver, this`snapshot, this`stateFile, this`pending, this`history
      ensures Valid() && old(history) <= history
      ensures gone ==> pending == old(pending) && snapshot == old(snapshot) && currentProcess.value !in Chain(driver)
      ensures Chain(driver) <= Chain(old(driver))
      ensures gone <==> obeys
      ensures !gone ==> Ready() && snapshot == old(snapshot).(phase := Blocked) && snapshot.process.value in driver.alive
    {
      hide Run;
      ghost var w := View();
      GracefulStop(currentProcess.value, obeys);
      gone := currentProcess.value !in driver.alive;
      if !gone {
        snapshot := snapshot.(phase := Blocked);
        stateFile := snapshot;
        pending := Idle;
      }
      Log(StopAtShutdown(obeys), w);
    }

    method ReleaseAtShutdown(reachable: bool) returns (released: bool)
      requires Valid() && pending.ShuttingDown? && (ProcessLive(View()) ==> pending.adopted)
      modifies this`pending, this`history, coordinator
      ensures Valid() && old(history) <= history
      ensures pending == ShutdownFenced(released)
      ensures released <==> snapshot.claim.None? || reachable
      ensures released && snapshot.claim.Some? ==> !IsCurrent(coordinator.store, snapshot.claim.value)
    {
      hide Run;
      released := true;
      ghost var w := View();
      if snapshot.claim.Some? {
        if !reachable {
          released := false;
        } else {
          var fenced := coordinator.Fence(snapshot.claim.value);   // a stale claim counts as released
        }
      }
      pending := ShutdownFenced(released);
      Log(FenceAtShutdown(!released), w);
    }

    /** A process whose exit record could not be removed stays in the snapshot. */
    method WriteBlockedState(released: bool, cleaned: bool)
      requires Valid() && pending == ShutdownFenced(released) && snapshot.phase != Completed
      modifies this`snapshot, this`currentProcess, this`stateFile, this`pending, this`history
      ensures Ready() && old(history) <= history
      ensures snapshot == old(snapshot).(phase := Blocked,
                                         process := if cleaned then None else old(snapshot).process,
                                         claim := if released then None else old(snapshot).claim)
    {
      hide Run;
      snapshot := snapshot.(phase := Blocked);
      if cleaned {
        currentProcess := None;
        snapshot := snapshot.(process := None);
      }
      if released {
        snapshot := snapshot.(claim := None);
      }
      Persist(WriteShutdown(cleaned));
    }

    /** Live now, or its death is among the events from position `n` on. */
    ghost predicate LeftAlone(n: nat, g: Guardian)
      reads this`driver, this`history
    {
      g in driver.alive || DiedSince(history, n, g)
    }

    /** Others may act before the stop. */
    method StopOrDetach(adopted: bool, a: Answers) returns (stopped: bool)
      requires Valid() && pending == ShuttingDown(adopted) && snapshot.phase != Completed
      modifies this, coordinator
      ensures Valid() && old(history) <= history
      ensures stopped ==>
                && snapshot == old(snapshot) && pending == ShuttingDown(adopted)
                && (snapshot.process.Some? && snapshot.process.value in Chain(driver) ==> adopted)
      ensures !stopped ==> !adopted && Ready() && snapshot.phase == Blocked && Survives(a)
      ensures adopted ==> forall g :: g in old(driver.alive) ==> LeftAlone(|old(history)|, g)
    {
      hide Run;
      Disturb();
      Knows();
      if currentProcess.Some? && currentProcess.value in driver.alive && !adopted {
        stopped := StopUnadopted(a.obeys(currentProcess.value));
      } else {
        stopped := true;
      }
    }

    /** Nothing to remove for a detached runtime or none; otherwise the removal may fail. */
    method ClearExitRecord(works: bool) returns (cleaned: bool)
      ensures cleaned <==> works || currentProcess.None? || currentProcess.value in driver.alive
    {
      cleaned := works;
      if currentProcess.None? || currentProcess.value in driver.alive {
        cleaned := true;
      }
    }

    /** Others may act before the release, and again before the last write. */
    method ReleaseBesideOthers(reachable: bool) returns (released: bool)
      requires Valid() && pending.ShuttingDown? && snapshot.phase != Completed
      requires snapshot.process.Some? && snapshot.process.value in Chain(driver) ==> pending.adopted
      modifies this, coordinator
      ensures Valid() && old(history) <= history
      ensures pending == ShutdownFenced(released) && snapshot == old(snapshot)
      ensures released <==> snapshot.claim.None? || reachable
      ensures released && snapshot.claim.Some? ==> !IsCurrent(coordinator.store, snapshot.claim.value)
      ensures Chain(driver) <= old(Chain(driver))
      ensures forall g :: g in old(driver.alive) ==> LeftAlone(|old(history)|, g)
    {
      hide Run;
      Disturb();
      Knows();
      ghost var earlier := history;
      released := ReleaseAtShutdown(reachable);
      forall g | g in old(driver.alive) ensures LeftAlone(|old(history)|, g) {
        if DiedSince(earlier, |old(history)|, g) {
          DiedLater(earlier, history, |history|, |old(history)|, g);
        }
      }
      Knows();
      ghost var fenced := history;
      ghost var here := driver.alive;
      assert forall g :: g in old(driver.alive) ==> g in here || DiedSince(fenced, |old(history)|, g);
      Disturb();
      forall g | g in old(driver.alive) ensures LeftAlone(|old(history)|, g) {
        if g !in driver.alive {
          DiedLater(fenced, history, |fenced|, |old(history)|, g);
        }
      }
    }

    /**
      `shutdown`: fail open on the runtime, fail closed on the claim. A live adopted runtime is
      left running unless it dies by itself, any other is stopped; a normal return means the
      claim can no longer act. A failing exit-record removal, or an effect journal that cannot be
      written, is raised only after the rest is done.
     */
    method Shutdown(a: Answers) returns (r: Result<()>)
      requires Ready()
      modifies this, coordinator
      ensures Ready() && old(history) <= history
      ensures old(ProcessLive(View()) && Adopted(snapshot)) && old(snapshot.phase) != Completed ==>
                LeftAlone(|old(history)|, old(snapshot.process).value)
      ensures r.Ok? && old(snapshot.process.Some? && !Adopted(snapshot)) && old(snapshot.phase) != Completed ==>
                old(snapshot.process).value !in Chain(driver)
      ensures r.Ok? && old(snapshot.claim.Some?) && old(snapshot.phase) != Completed ==>
                !IsCurrent(coordinator.store, old(snapshot.claim).value) && snapshot.claim.None?
      ensures r.Raised? ==> !a.cleaned || !a.journalled || !a.reachable || (Survives(a) && !Adopted(old(snapshot)))
      ensures old(snapshot.phase) != Completed ==> snapshot.phase == Blocked && (r.Ok? ==> snapshot.process.None?)
      ensures old(snapshot.phase) == Completed ==> r.Ok? && snapshot == old(snapshot).(process := None)
    {
      hide Run;
      if snapshot.phase == Completed {
        FinishCompleted();
        return Ok(());
      }
      var adopted := BeginTerminalShutdown();
      ghost var began := history;
      var stopped := StopOrDetach(adopted, a);
      if !stopped {
        return Raised(RuntimeFault);
      }
      var cleaned := ClearExitRecord(a.cleaned);
      ghost var detached := history;
      ghost var here := driver.alive;
      var released := ReleaseBesideOthers(a.reachable);
      ghost var last := history;
      WriteBlockedState(released, cleaned);
      if adopted {
        forall g | g in old(driver.alive) ensures LeftAlone(|old(history)|, g) {
          if g !in driver.alive {
            if g in here {
              DiedLater(detached, last, |detached|, |old(history)|, g);
            } else {
              DiedLater(detached, last, |began|, |old(history)|, g);
            }
            DiedLater(last, history, |last|, |old(history)|, g);
          }
        }
      }
      return if released && cleaned && a.journalled then Ok(()) else Raised(RuntimeFault);
    }
  }
}
