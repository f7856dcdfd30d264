/**
  The rotation protocol of src/agent_session_harness/supervisor.py as a transition
  system: the durable state file, the coordinator's claim store, the guarded runtimes
  of one chain, the acknowledgement file, and the knowledge a running supervisor
  holds between an external effect and the state write that records it.

  An action is one code segment between two state writes, split at the effect inside
  it, or one event of the environment. A crash discards the supervisor's knowledge
  and keeps everything durable. A run is any sequence of actions; an action that is
  not enabled changes nothing.
 */
module Rotation {
  import opened Options
  import opened Claims

  datatype Phase =
    | Initial | Running | Warning | Draining | Checkpointing | Checkpointed
    | Fencing | Fenced | Stopping | Stopped | Claiming | Launching | AwaitingAck
    | Completed | Blocked

  /** A capsule fingerprint determines the capsule, so also the generation it targets. */
  datatype Fingerprint = Fingerprint(target: nat, digest: nat)

  /** One guarded runtime: the launch nonce identifies it, and `capsule` is its environment. */
  datatype Guardian = Guardian(generation: nat, nonce: nat, capsule: Option<Fingerprint>)

  /**
    The process driver's durable and live state for the chain: the registry record of each
    generation, the registered guardians still alive, and the spawned guardians whose launch
    intent is current, which may still register.
   */
  datatype Driver = Driver(
    registry: map<nat, Guardian>,
    alive: set<Guardian>,
    starting: set<Guardian>,
    spawned: set<Guardian>,
    nextNonce: nat)

  datatype Snapshot = Snapshot(
    phase: Phase,
    generation: nat,
    attempt: nat,
    conversation: Option<nat>,
    claim: Option<Claim>,
    process: Option<Guardian>,
    checkpoint: Option<Fingerprint>)

  const Fresh := Snapshot(Initial, 0, 0, None, None, None, None)

  datatype Ack = Ack(generation: nat, fingerprint: Fingerprint, conversation: nat, owner: Guardian)

  datatype Turn = Turn(guardian: Guardian, conversation: nat)

  /** What a supervisor knows beyond the state file; lost in a crash. */
  datatype Pending =
    | Idle
    | ClaimHeld(claim: Claim)
    | CheckpointReceipt(fingerprint: Fingerprint)
    | PredecessorGone
    | ClaimReleased
    | LaunchReturned(guardian: Guardian)
    | LaunchRaised
    | AckVerified(ack: Ack)
    | RetryWanted
    | RetryCleared
    | ExitFenced
    | ShuttingDown(adopted: bool)
    | ShutdownFenced(released: bool)

  /** The journalled effects of a rotation, in the order they take place. */
  datatype Effect =
    | ClaimTaken(generation: nat)
    | LaunchAttempted(generation: nat)
    | AckRecorded(generation: nat)
    | CheckpointVerified(target: nat)
    | RuntimeStopped(generation: nat)
    | ClaimFenced(generation: nat)

  /** Acknowledgements made durable and turns dispatched, in order. */
  datatype Entry = AckPersisted(ack: Ack) | TurnStarted(turn: Turn)

  datatype World = World(
    limit: nat,
    disk: Snapshot,
    pending: Pending,
    claims: Store,
    driver: Driver,
    ackFile: Option<Ack>,
    dispatching: set<Turn>,
    journal: seq<Entry>,
    trace: seq<Effect>,
    crashes: nat)

  function Start(limit: nat): World {
    World(limit, Fresh, Idle, EmptyStore, Driver(map[], {}, {}, {}, 0), None, {}, [], [], 0)
  }

  datatype Action =
    // the environment
    | Crash
    | GuardianDies(guardian: Guardian, unregisters: bool)
    | GuardianRegisters(guardian: Guardian)
    | Coordinate(operation: Operation)
    | HookWritesAck(guardian: Guardian, conversation: nat)
    | HookPermitsTurn(guardian: Guardian, conversation: nat)
    | HookAppendsTurn(turn: Turn)
    // start
    | TakeFirstClaim
    | WriteFirstClaim
    | WriteRunning
    // one tick before rotation
    | DropStaleAck
    | Heartbeat(cleaned: bool)
    | LoseSupervision(unreadable: bool)
    | FenceCleanExit(fails: bool)
    | WriteCompleted
    | FinishCleanup
    | Observe(phase: Phase, sampled: Option<nat>)
    | EnterCheckpointing
    // rotation
    | Checkpoint(digest: nat)
    | WriteCheckpointed
    | WriteNextPhase
    | StopPredecessor(dies: bool)
    | WriteStopped
    | FencePredecessor
    | WriteFenced
    | TakeNextClaim
    | WriteNextClaim
    | Launch(end: LaunchEnd)
    | WriteAwaitingAck
    // acknowledgement and retry
    | VerifyAck(ack: Ack, verified: bool)
    | WriteAcknowledged
    | GiveUpOnSuccessor
    | StopSuccessor(dies: bool)
    | WriteRetry
    // shutdown
    | BeginShutdown
    | StopAtShutdown(dies: bool)
    | FenceAtShutdown(fails: bool)
    | WriteShutdown(forgetProcess: bool)

  function Record(w: World, e: Effect): World {
    w.(trace := w.trace + [e])
  }

  function Write(w: World, s: Snapshot): World {
    w.(disk := s, pending := Idle)
  }

  /** `_persist_blocked`: only the phase changes. */
  function WriteBlocked(w: World): World {
    Write(w, w.disk.(phase := Blocked))
  }

  // ---------------------------------------------------------------- process driver

  function Died(d: Driver, g: Guardian): Driver {
    d.(alive := d.alive - {g}, starting := d.starting - {g})
  }

  /** Removes the registry record only while it is still this guardian's. */
  function Unregistered(d: Driver, g: Guardian): Driver {
    if g.generation in d.registry && d.registry[g.generation] == g
    then d.(registry := d.registry - {g.generation}) else d
  }

  function Registered(d: Driver, g: Guardian): Driver {
    d.(starting := d.starting - {g}, alive := d.alive + {g}, registry := d.registry[g.generation := g])
  }

  /** `graceful_stop`: the record goes even when the guardian outlives the signals. */
  function Signalled(d: Driver, g: Guardian, dies: bool): Driver {
    Unregistered(if dies then Died(d, g) else d, g)
  }

  /** Guardians of a generation that were spawned and may still register. */
  function StartingOf(d: Driver, generation: nat): set<Guardian> {
    set g | g in d.starting && g.generation == generation
  }

  /** How a call to `start_fresh` ends when no live guardian is registered yet. */
  datatype LaunchEnd = Returns | RaisesStillStarting | RaisesGone

  /**
    `start_fresh` for one generation, under the contract proved of the launch protocol in
    module Launch: a live registered guardian is returned; a guardian that is still starting
    is waited for; otherwise a guardian with a fresh nonce is spawned.
   */
  ghost function StartFresh(d: Driver, generation: nat, capsule: Option<Fingerprint>, end: LaunchEnd)
    : (Driver, Option<Guardian>)
  {
    if generation in d.registry && d.registry[generation] in d.alive then
      (d, Some(d.registry[generation]))
    else
      var d1 := d.(registry := d.registry - {generation});
      if StartingOf(d, generation) != {} then
        var g :| g in StartingOf(d, generation);
        if end.Returns? then (Registered(d1, g), Some(g)) else (d1, None)
      else
        var g := Guardian(generation, d.nextNonce, capsule);
        var d2 := d1.(nextNonce := d.nextNonce + 1, spawned := d.spawned + {g});
        match end
        case Returns => (Registered(d2, g), Some(g))
        case RaisesStillStarting => (d2.(starting := d.starting + {g}), None)
        case RaisesGone => (d2, None)
  }

  // ---------------------------------------------------------------- environment

  function Environment(w: World, a: Action): World {
    match a
    case Crash => w.(pending := Idle, crashes := w.crashes + 1)
    case GuardianDies(g, unregisters) =>
      w.(driver := if unregisters then Unregistered(Died(w.driver, g), g) else Died(w.driver, g))
    case GuardianRegisters(g) =>
      if g in w.driver.starting then w.(driver := Registered(w.driver, g)) else w
    case Coordinate(op) =>
      if (op.DoClaim? && op.owner.Session?) || op.DoFence? then w   // only this chain acts under its own sessions
      else w.(claims := Perform(w.claims, op))
    case HookWritesAck(g, conversation) =>
      // written under the state lock after the whole state file has been checked
      if && w.disk.phase == AwaitingAck
         && g in w.driver.spawned
         && g.capsule.Some?
         && w.disk.generation == g.generation
         && w.disk.checkpoint == g.capsule
         && w.disk.process == Some(g)
         && g.capsule.value.target == g.generation
      then w.(ackFile := Some(Ack(g.generation, g.capsule.value, conversation, g)))
      else w
    case HookPermitsTurn(g, conversation) =>
      if g in w.driver.spawned && (g.capsule.None? || DispatchAllowed(w.disk, g, conversation))
      then w.(dispatching := w.dispatching + {Turn(g, conversation)}) else w
    case HookAppendsTurn(turn) =>
      if turn in w.dispatching
      then w.(dispatching := w.dispatching - {turn}, journal := w.journal + [TurnStarted(turn)]) else w
    case _ => w
  }

  /** `_successor_dispatch_allowed`: the exact generation, process, conversation and capsule. */
  predicate DispatchAllowed(s: Snapshot, g: Guardian, conversation: nat) {
    && s.phase == Running
    && s.generation == g.generation
    && s.process == Some(g)
    && s.conversation == Some(conversation)
    && s.checkpoint == g.capsule
  }

  // ---------------------------------------------------------------- start and tick

  predicate Supervised(p: Phase) {
    (p.Running? || p.Warning? || p.Draining? || p.Checkpointing? || p.Checkpointed? || p.AwaitingAck?)
  }

  predicate HoldsLease(p: Phase) {
    (p.Running? || p.Warning? || p.Draining? || p.Checkpointing? || p.Checkpointed? || p.Launching? || p.AwaitingAck?)
  }

  predicate ProcessLive(w: World) {
    w.disk.process.Some? && w.disk.process.value in w.driver.alive
  }

  function Starting(w: World, a: Action): World {
    match a
    case TakeFirstClaim =>
      if w.disk.phase == Initial && w.pending.Idle? then
        match ClaimAnswer(w.claims, Session(0))
        case None => w
        case Some(claim) =>
          Record(w.(claims := AfterClaim(w.claims, Session(0)), pending := ClaimHeld(claim)), ClaimTaken(0))
      else w
    case WriteFirstClaim =>
      if w.disk.phase == Initial && w.pending.ClaimHeld?
      then Write(w, w.disk.(generation := 0, phase := Launching, claim := Some(w.pending.claim))) else w
    case WriteRunning =>
      if w.disk.phase == Launching && w.disk.generation == 0 && w.pending.LaunchReturned?
      then Write(w, w.disk.(phase := Running, process := Some(w.pending.guardian))) else w
    case _ => w
  }

  function Ticking(w: World, a: Action): World {
    match a
    case DropStaleAck =>
      if && w.ackFile.Some?
         && (w.disk.phase != AwaitingAck || w.ackFile.value.generation < w.disk.generation)
      then w.(ackFile := None) else w
    case Heartbeat(cleaned) =>
      if && (w.pending.Idle? || w.pending.CheckpointReceipt?)
         && HoldsLease(w.disk.phase) && w.disk.claim.Some? && !IsCurrent(w.claims, w.disk.claim.value)
      then FailClosed(w, cleaned) else w
    case LoseSupervision(unreadable) =>
      // the process is gone, or its liveness or exit record cannot be read
      if !w.pending.Idle? || !Supervised(w.disk.phase) || (ProcessLive(w) && !unreadable) then w
      else if w.disk.phase == AwaitingAck && !unreadable then w.(pending := RetryWanted)
      else WriteBlocked(w)
    case FenceCleanExit(fails) =>
      if w.pending.Idle? && (w.disk.phase.Running? || w.disk.phase.Warning?) && w.disk.process.Some? && !ProcessLive(w) then
        if w.disk.claim.None? then w.(pending := ExitFenced)
        else if fails then WriteBlocked(w)
        else w.(claims := AfterFence(w.claims, w.disk.claim.value), pending := ExitFenced)
      else w
    case WriteCompleted =>
      if w.pending.ExitFenced? && (w.disk.phase.Running? || w.disk.phase.Warning?)
      then Write(w, w.disk.(phase := Completed, claim := None)) else w
    case FinishCleanup =>
      if w.pending.Idle? && w.disk.phase == Completed
      then Write(w, w.disk.(process := None)) else w
    case Observe(phase, sampled) =>
      if && w.pending.Idle?
         && (w.disk.phase.Running? || w.disk.phase.Warning? || w.disk.phase.Draining?)
         && (phase.Running? || phase.Warning? || phase.Draining?)
      then Write(w, w.disk.(phase := phase,
                            conversation := if sampled.Some? then sampled else w.disk.conversation))
      else w
    case EnterCheckpointing =>
      if w.pending.Idle? && w.disk.phase == Draining
      then Write(w, w.disk.(phase := Checkpointing)) else w
    case _ => w
  }

  /**
    `_fail_closed_for_stale_owner`: a process is forgotten only when it was seen dead and its
    exit record was removed (`cleaned`); otherwise it stays on disk for a later shutdown.
   */
  function FailClosed(w: World, cleaned: bool): World {
    if ProcessLive(w) || !cleaned then WriteBlocked(w)
    else Write(w, w.disk.(phase := Blocked, process := None))
  }

  // ---------------------------------------------------------------- rotation

  ghost function Rotating(w: World, a: Action): World {
    match a
    case Checkpoint(digest) =>
      if w.pending.Idle? && w.disk.phase == Checkpointing && w.disk.conversation.Some? then
        var target := w.disk.generation + 1;
        Record(w.(pending := CheckpointReceipt(Fingerprint(target, digest))), CheckpointVerified(target))
      else w
    case WriteCheckpointed =>
      if w.disk.phase == Checkpointing && w.pending.CheckpointReceipt?
      then Write(w, w.disk.(phase := Checkpointed, checkpoint := Some(w.pending.fingerprint))) else w
    case WriteNextPhase =>
      if !w.pending.Idle? then w
      else if w.disk.phase == Checkpointed then Write(w, w.disk.(phase := Stopping))
      else if w.disk.phase == Stopped then Write(w, w.disk.(phase := Fencing))
      else if w.disk.phase == Fenced then Write(w, w.disk.(phase := Claiming))
      else w
    case StopPredecessor(dies) =>
      if w.pending.Idle? && w.disk.phase == Stopping && w.disk.process.Some? then
        var p := w.disk.process.value;
        var signalled := w.(driver := Signalled(w.driver, p, dies));
        if p in signalled.driver.alive then signalled   // raises: the predecessor remains live
        else Record(signalled.(pending := PredecessorGone), RuntimeStopped(w.disk.generation))
      else w
    case WriteStopped =>
      if w.disk.phase == Stopping && w.pending.PredecessorGone?
      then Write(w, w.disk.(phase := Stopped, process := None)) else w
    case FencePredecessor =>
      if w.pending.Idle? && w.disk.phase == Fencing && w.disk.claim.Some? then
        if FenceAccepted(w.claims, w.disk.claim.value)
        then Record(w.(claims := AfterFence(w.claims, w.disk.claim.value), pending := ClaimReleased),
                    ClaimFenced(w.disk.generation))
        else FailClosed(w, true)   // no process is on disk in this phase
      else w
    case WriteFenced =>
      if w.disk.phase == Fencing && w.pending.ClaimReleased?
      then Write(w, w.disk.(phase := Fenced)) else w
    case TakeNextClaim =>
      if w.pending.Idle? && w.disk.phase == Claiming then
        var target := w.disk.generation + 1;
        match ClaimAnswer(w.claims, Session(target))
        case None => w   // refused: another session holds the claim
        case Some(claim) =>
          Record(w.(claims := AfterClaim(w.claims, Session(target)), pending := ClaimHeld(claim)), ClaimTaken(target))
      else w
    case WriteNextClaim =>
      if w.disk.phase == Claiming && w.pending.ClaimHeld?
      then Write(w, w.disk.(generation := w.disk.generation + 1, attempt := 0, phase := Launching,
                            conversation := None, claim := Some(w.pending.claim)))
      else w
    case Launch(end) =>
      if w.pending.Idle? && w.disk.phase == Launching && (w.disk.generation > 0 ==> w.disk.checkpoint.Some?) then
        var capsule := if w.disk.generation > 0 then w.disk.checkpoint else None;
        var (driver, launched) := StartFresh(w.driver, w.disk.generation, capsule, end);
        var pending := match launched
                       case Some(g) => LaunchReturned(g)
                       case None => if w.disk.generation == 0 then Idle else LaunchRaised;
        Record(w.(driver := driver, pending := pending), LaunchAttempted(w.disk.generation))
      else w
    case WriteAwaitingAck =>
      if w.disk.phase == Launching && w.pending.LaunchReturned?
      then Write(w, w.disk.(phase := AwaitingAck, process := Some(w.pending.guardian))) else w
    case _ => w
  }

  // ---------------------------------------------------------------- acknowledgement and retry

  predicate AckMatches(s: Snapshot, ack: Ack) {
    && ack.generation == s.generation
    && Some(ack.fingerprint) == s.checkpoint
    && Some(ack.owner) == s.process
    && ack.fingerprint.target == s.generation
  }

  function Acknowledging(w: World, a: Action): World {
    match a
    case VerifyAck(ack, verified) =>
      // the ack file's record, or one handed over by the command line
      if w.pending.Idle? && w.disk.phase == AwaitingAck && AckMatches(w.disk, ack)
      then Record(w.(pending := if verified then AckVerified(ack) else RetryWanted), AckRecorded(w.disk.generation))
      else w
    case WriteAcknowledged =>
      if w.disk.phase == AwaitingAck && w.pending.AckVerified? then
        var ack := w.pending.ack;
        Write(w, w.disk.(phase := Running, conversation := Some(ack.conversation)))
        .(journal := w.journal + [AckPersisted(ack)])
      else w
    case GiveUpOnSuccessor =>
      // the acknowledgement deadline expired
      if w.pending.Idle? && w.disk.phase == AwaitingAck && w.ackFile.None? then w.(pending := RetryWanted) else w
    case StopSuccessor(dies) =>
      if && w.disk.generation > 0
         && ((w.disk.phase == AwaitingAck && w.pending.RetryWanted?) || (w.disk.phase == Launching && w.pending.LaunchRaised?))
      then
        match w.disk.process
        case None => w.(pending := RetryCleared, ackFile := None)
        case Some(p) =>
          var signalled := if p in w.driver.alive then w.(driver := Signalled(w.driver, p, dies)) else w;
          if p in signalled.driver.alive then WriteBlocked(signalled)
          else signalled.(pending := RetryCleared, ackFile := None)
      else w
    case WriteRetry =>
      if w.pending.RetryCleared? && (w.disk.phase.AwaitingAck? || w.disk.phase.Launching?) then
        var cleared := w.disk.(process := None, conversation := None);
        if w.disk.attempt >= w.limit then Write(w, cleared.(phase := Blocked))
        else Write(w, cleared.(phase := Launching, attempt := w.disk.attempt + 1))
      else w
    case _ => w
  }

  // ---------------------------------------------------------------- shutdown

  /** `_runtime_was_adopted`, from durable state. */
  predicate Adopted(s: Snapshot) {
    && !(s.phase.Launching? || s.phase.AwaitingAck? || s.phase.Stopping?)
    && !(s.generation > 0 && s.conversation.None?)
  }

  function ShuttingDownStep(w: World, a: Action): World {
    match a
    case BeginShutdown =>
      if w.disk.phase == Completed then w
      else if w.disk.process.Some? then WriteBlocked(w).(pending := ShuttingDown(Adopted(w.disk)))
      else w.(pending := ShuttingDown(Adopted(w.disk)))
    case StopAtShutdown(dies) =>
      if w.pending.ShuttingDown? && ProcessLive(w) && !w.pending.adopted then
        var p := w.disk.process.value;
        var signalled := w.(driver := Signalled(w.driver, p, dies));
        if p in signalled.driver.alive then WriteBlocked(signalled) else signalled
      else w
    case FenceAtShutdown(fails) =>
      if w.pending.ShuttingDown? && (ProcessLive(w) ==> w.pending.adopted) then
        match w.disk.claim
        case None => w.(pending := ShutdownFenced(true))
        case Some(claim) =>
          if fails then w.(pending := ShutdownFenced(false))
          else w.(claims := AfterFence(w.claims, claim), pending := ShutdownFenced(true))
      else w
    case WriteShutdown(forgetProcess) =>
      if w.pending.ShutdownFenced? && w.disk.phase != Completed then
        var blocked := w.disk.(phase := Blocked);
        var released := if w.pending.released then blocked.(claim := None) else blocked;
        Write(w, if forgetProcess then released.(process := None) else released)
      else w
    case _ => w
  }

  // ---------------------------------------------------------------- runs

  ghost function Do(w: World, a: Action): World {
    match a
    case Crash | GuardianDies(_, _) | GuardianRegisters(_) | Coordinate(_)
       | HookWritesAck(_, _) | HookPermitsTurn(_, _) | HookAppendsTurn(_) => Environment(w, a)
    case TakeFirstClaim | WriteFirstClaim | WriteRunning => Starting(w, a)
    case DropStaleAck | Heartbeat(_) | LoseSupervision(_) | FenceCleanExit(_) | WriteCompleted | FinishCleanup
       | Observe(_, _) | EnterCheckpointing => Ticking(w, a)
    case Checkpoint(_) | WriteCheckpointed | WriteNextPhase | StopPredecessor(_) | WriteStopped
       | FencePredecessor | WriteFenced | TakeNextClaim | WriteNextClaim | Launch(_) | WriteAwaitingAck => Rotating(w, a)
    case VerifyAck(_, _) | WriteAcknowledged | GiveUpOnSuccessor | StopSuccessor(_) | WriteRetry => Acknowledging(w, a)
    case BeginShutdown | StopAtShutdown(_) | FenceAtShutdown(_) | WriteShutdown(_) => ShuttingDownStep(w, a)
  }

  ghost function Run(w: World, actions: seq<Action>): World
    decreases |actions|
  {
    if actions == [] then w
    else Do(Run(w, actions[..|actions| - 1]), actions[|actions| - 1])
  }

  lemma RunAppend(w: World, history: seq<Action>, a: Action)
    ensures Run(w, history + [a]) == Do(Run(w, history), a)
  {
    assert (history + [a])[..|history|] == history;
  }
}
