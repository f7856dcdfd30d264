/**
  The order of a rotation's external effects, how often a successor is launched, and
  when a successor's turn may reach the ledger.
 */
module RotationEffects {
  import opened Options
  import opened Claims
  import opened Rotation
  import opened RotationSafety

  // ---------------------------------------------------------------- canonical order

  /**
    claim g, launch g, acknowledge g, checkpoint g+1, stop g, fence g, claim g+1, ...
    The root generation has no acknowledgement, so position 2 is never taken.
   */
  function Position(e: Effect): int {
    match e
    case ClaimTaken(g) => 6 * g
    case LaunchAttempted(g) => 6 * g + 1
    case AckRecorded(g) => 6 * g + 2
    case CheckpointVerified(t) => 6 * t - 3
    case RuntimeStopped(g) => 6 * g + 4
    case ClaimFenced(g) => 6 * g + 5
  }

  /** One effect directly after another: repeated, next in order, or a launch retry. */
  predicate Next(e: Effect, f: Effect) {
    || e == f
    || (Position(f) == Position(e) + 1 && f != AckRecorded(0))
    || (e == LaunchAttempted(0) && f == CheckpointVerified(1))
    || (e.AckRecorded? && f == LaunchAttempted(e.generation))
  }

  ghost predicate Ordered(trace: seq<Effect>) {
    && (trace != [] ==> trace[0] == ClaimTaken(0))
    && (forall i :: 0 < i < |trace| ==> Next(trace[i - 1], trace[i]))
  }

  /** No effect is skipped: everything earlier in the canonical order already happened. */
  lemma {:induction false} NeverSkips(trace: seq<Effect>, j: nat, position: nat)
    requires Ordered(trace) && j < |trace| && position < Position(trace[j]) && position != 2
    ensures exists i :: 0 <= i < j && Position(trace[i]) == position
    decreases j
  {
    if position < Position(trace[j - 1]) {
      NeverSkips(trace, j - 1, position);
    }
  }

  /** No effect is repeated after a later one, except that a launch may follow its own acknowledgement attempt. */
  lemma {:induction false} NeverGoesBack(trace: seq<Effect>, i: nat, j: nat)
    requires Ordered(trace) && i <= j < |trace|
    ensures Position(trace[i]) <= Position(trace[j])
         || (trace[i].AckRecorded? && trace[j] == LaunchAttempted(trace[i].generation))
    decreases j
  {
    if i < j {
      NeverGoesBack(trace, i, j - 1);
    }
  }

  /** The effect after which a generation is in use. */
  function Settled(g: nat): Effect {
    if g == 0 then LaunchAttempted(0) else AckRecorded(g)
  }

  function Last(trace: seq<Effect>): Effect
    requires trace != []
  {
    trace[|trace| - 1]
  }

  ghost predicate LastFits(s: Snapshot, pending: Pending, trace: seq<Effect>) {
    var g := s.generation;
    if trace == [] then (s.phase == Initial || s.phase == Blocked) && !pending.ClaimHeld?
    else
      var e := Last(trace);
      match s.phase
      case Initial => e == ClaimTaken(0)
      case Launching =>
        && (e == ClaimTaken(g) || e == LaunchAttempted(g) || (g > 0 && e == AckRecorded(g)))
        && (pending.LaunchReturned? ==> e == LaunchAttempted(g))
      case AwaitingAck =>
        && (e == LaunchAttempted(g) || (g > 0 && e == AckRecorded(g)))
        && (pending.AckVerified? ==> g > 0 && e == AckRecorded(g))
      case Running => e == Settled(g)
      case Warning => e == Settled(g)
      case Draining => e == Settled(g)
      case Checkpointing =>
        if pending.CheckpointReceipt? then e == CheckpointVerified(g + 1)
        else e == Settled(g) || e == CheckpointVerified(g + 1)
      case Checkpointed => e == CheckpointVerified(g + 1)
      case Stopping =>
        if pending.PredecessorGone? then e == RuntimeStopped(g)
        else e == CheckpointVerified(g + 1) || e == RuntimeStopped(g)
      case Stopped => e == RuntimeStopped(g)
      case Fencing =>
        if pending.ClaimReleased? then e == ClaimFenced(g)
        else e == RuntimeStopped(g) || e == ClaimFenced(g)
      case Fenced => e == ClaimFenced(g)
      case Claiming =>
        if pending.ClaimHeld? then e == ClaimTaken(g + 1)
        else e == ClaimFenced(g) || e == ClaimTaken(g + 1)
      case Completed => true
      case Blocked => true
  }

  ghost predicate TraceOk(w: World) {
    Ordered(w.trace) && LastFits(w.disk, w.pending, w.trace)
  }

  lemma TraceEnvironment(w: World, a: Action)
    requires TraceOk(w) && PendingFits(w)
    ensures TraceOk(Environment(w, a))
  {
  }

  lemma TraceStarting(w: World, a: Action)
    requires TraceOk(w) && PendingFits(w)
    ensures TraceOk(Starting(w, a))
  {
  }

  lemma TraceTicking(w: World, a: Action)
    requires TraceOk(w) && PendingFits(w)
    ensures TraceOk(Ticking(w, a))
  {
  }

  predicate HandsOver(a: Action) {
    a.Checkpoint? || a.StopPredecessor?
  }

  predicate ChangesOwner(a: Action) {
    a.FencePredecessor? || a.TakeNextClaim? || a.Launch?
  }

  lemma TraceHandover(w: World, a: Action)
    requires TraceOk(w) && PendingFits(w) && HandsOver(a)
    ensures TraceOk(Rotating(w, a))
  {
  }

  lemma TraceOwnerChange(w: World, a: Action)
    requires TraceOk(w) && PendingFits(w) && ChangesOwner(a)
    ensures TraceOk(Rotating(w, a))
  {
  }

  lemma TraceRotationWrite(w: World, a: Action)
    requires TraceOk(w) && PendingFits(w) && !HandsOver(a) && !ChangesOwner(a)
    ensures TraceOk(Rotating(w, a))
  {
  }

  lemma TraceAcknowledging(w: World, a: Action)
    requires TraceOk(w) && PendingFits(w) && CapsuleReady(w.disk)
    ensures TraceOk(Acknowledging(w, a))
  {
  }

  lemma TraceShutdown(w: World, a: Action)
    requires TraceOk(w) && PendingFits(w)
    ensures TraceOk(ShuttingDownStep(w, a))
  {
  }

  lemma TraceStep(w: World, a: Action)
    requires TraceOk(w) && Exclusive(w)
    ensures TraceOk(Do(w, a))
  {
    hide Ordered, LastFits;
    TraceEnvironment(w, a);
    TraceStarting(w, a);
    TraceTicking(w, a);
    if HandsOver(a) {
      TraceHandover(w, a);
    } else if ChangesOwner(a) {
      TraceOwnerChange(w, a);
    } else {
      TraceRotationWrite(w, a);
    }
    TraceAcknowledging(w, a);
    TraceShutdown(w, a);
  }

  // ---------------------------------------------------------------- launch attempts

  function Launches(trace: seq<Effect>, g: nat): nat {
    if trace == [] then 0
    else Launches(trace[..|trace| - 1], g) + if Last(trace) == LaunchAttempted(g) then 1 else 0
  }

  lemma LaunchesAppend(trace: seq<Effect>, e: Effect, g: nat)
    ensures Launches(trace + [e], g) == Launches(trace, g) + if e == LaunchAttempted(g) then 1 else 0
  {
    assert (trace + [e])[..|trace|] == trace;
  }

  /** `n` launches of generation `g` fit the retry budget; every crash may have repeated one. */
  ghost predicate BudgetFor(w: World, g: nat, n: nat) {
    var s := w.disk;
    && n <= w.limit + 1 + w.crashes
    && (g > s.generation ==> n == 0)
    && (g == s.generation && s.phase == Launching && w.pending.Idle? ==> n <= s.attempt + w.crashes)
    && (g == s.generation && (s.phase == Launching || s.phase == AwaitingAck) ==> n <= s.attempt + 1 + w.crashes)
  }

  ghost predicate BudgetOk(w: World, g: nat) {
    w.disk.attempt <= w.limit && BudgetFor(w, g, Launches(w.trace, g))
  }

  /** At most one effect is recorded per segment, and a launch only when launching. */
  lemma OneEffect(w: World, a: Action)
    ensures w.trace <= Do(w, a).trace && |Do(w, a).trace| <= |w.trace| + 1
    ensures Do(w, a).trace != w.trace ==>
              Do(w, a).trace == w.trace + [Last(Do(w, a).trace)]
              && (Last(Do(w, a).trace).LaunchAttempted? <==> a.Launch?)
              && (a.Launch? ==> w.pending.Idle? && w.disk.phase == Launching
                                && Last(Do(w, a).trace) == LaunchAttempted(w.disk.generation))
  {
  }

  lemma BudgetLaunch(w: World, end: LaunchEnd, g: nat, n: nat)
    requires g > 0 && w.disk.attempt <= w.limit && BudgetFor(w, g, n)
    requires w.pending.Idle? && w.disk.phase == Launching
    ensures var w' := Do(w, Launch(end));
            && w'.disk.attempt <= w'.limit
            && (w'.trace != w.trace ==> BudgetFor(w', g, n + if g == w.disk.generation then 1 else 0))
  {
  }

  lemma BudgetRotating(w: World, a: Action, g: nat, n: nat)
    requires g > 0 && w.disk.attempt <= w.limit && BudgetFor(w, g, n) && !a.Launch?
    ensures var w' := Rotating(w, a); w'.disk.attempt <= w'.limit && BudgetFor(w', g, n)
  {
  }

  lemma BudgetAcknowledging(w: World, a: Action, g: nat, n: nat)
    requires g > 0 && w.disk.attempt <= w.limit && BudgetFor(w, g, n) && PendingFits(w)
    ensures var w' := Acknowledging(w, a); w'.disk.attempt <= w'.limit && BudgetFor(w', g, n)
  {
  }

  lemma BudgetOther(w: World, a: Action, g: nat, n: nat)
    requires g > 0 && w.disk.attempt <= w.limit && BudgetFor(w, g, n) && Exclusive(w) && !a.Launch?
    ensures var w' := Do(w, a); w'.disk.attempt <= w'.limit && BudgetFor(w', g, n)
  {
    BudgetRotating(w, a, g, n);
    BudgetAcknowledging(w, a, g, n);
    BudgetElsewhere(w, a, g, n);
    BudgetTicking(w, a, g, n);
  }

  lemma BudgetElsewhere(w: World, a: Action, g: nat, n: nat)
    requires g > 0 && w.disk.attempt <= w.limit && BudgetFor(w, g, n) && CapsuleReady(w.disk)
    ensures var w' := Environment(w, a); w'.disk.attempt <= w'.limit && BudgetFor(w', g, n)
    ensures var w' := Starting(w, a); w'.disk.attempt <= w'.limit && BudgetFor(w', g, n)
  {
  }

  lemma BudgetTicking(w: World, a: Action, g: nat, n: nat)
    requires g > 0 && w.disk.attempt <= w.limit && BudgetFor(w, g, n)
    ensures var w' := Ticking(w, a); w'.disk.attempt <= w'.limit && BudgetFor(w', g, n)
    ensures var w' := ShuttingDownStep(w, a); w'.disk.attempt <= w'.limit && BudgetFor(w', g, n)
  {
  }

  lemma BudgetStep(w: World, a: Action, g: nat)
    requires g > 0 && BudgetOk(w, g) && Exclusive(w)
    ensures BudgetOk(Do(w, a), g)
  {
    OneEffect(w, a);
    var n := Launches(w.trace, g);
    if Do(w, a).trace == w.trace {
      if a.Launch? {
        assert Do(w, a) == w;
      } else {
        BudgetOther(w, a, g, n);
      }
    } else {
      LaunchesAppend(w.trace, Last(Do(w, a).trace), g);
      if a.Launch? {
        BudgetLaunch(w, a.end, g, n);
      } else {
        BudgetOther(w, a, g, n);
      }
    }
  }

  // ---------------------------------------------------------------- dispatch after acknowledgement

  /** This acknowledgement is the guardian's own, for its exact capsule. */
  predicate Covers(ack: Ack, g: Guardian) {
    && ack.owner == g
    && ack.generation == g.generation
    && Some(ack.fingerprint) == g.capsule
    && ack.fingerprint.target == g.generation
  }

  ghost predicate AckedBy(journal: seq<Entry>, n: nat, g: Guardian)
    requires n <= |journal|
  {
    exists i :: 0 <= i < n && journal[i].AckPersisted? && Covers(journal[i].ack, g)
  }

  ghost predicate Acked(journal: seq<Entry>, g: Guardian) {
    AckedBy(journal, |journal|, g)
  }

  ghost predicate TurnsFollowAcks(journal: seq<Entry>) {
    forall j :: 0 <= j < |journal| && journal[j].TurnStarted? && journal[j].turn.guardian.generation > 0 ==>
      AckedBy(journal, j, journal[j].turn.guardian)
  }

  predicate InUse(p: Phase) {
    p.Running? || p.Warning? || p.Draining? || p.Checkpointing? || p.Checkpointed? || p.Stopping?
  }

  ghost predicate DispatchOk(w: World) {
    && TurnsFollowAcks(w.journal)
    && (forall t :: t in w.dispatching && t.guardian.generation > 0 ==> Acked(w.journal, t.guardian))
    && (InUse(w.disk.phase) && w.disk.generation > 0 ==>
          w.disk.process.Some? && Acked(w.journal, w.disk.process.value))
  }

  lemma AckedGrows(journal: seq<Entry>, e: Entry)
    ensures forall g :: Acked(journal, g) ==> Acked(journal + [e], g)
    ensures e.AckPersisted? ==> forall g :: Covers(e.ack, g) ==> Acked(journal + [e], g)
    ensures (TurnsFollowAcks(journal) && (e.TurnStarted? && e.turn.guardian.generation > 0 ==> Acked(journal, e.turn.guardian)))
            ==> TurnsFollowAcks(journal + [e])
  {
    var grown := journal + [e];
    forall g, n: nat | n <= |journal| && AckedBy(journal, n, g) ensures AckedBy(grown, n, g) {
      var i :| 0 <= i < n && journal[i].AckPersisted? && Covers(journal[i].ack, g);
      assert grown[i] == journal[i];
    }
    forall g | Acked(journal, g) ensures Acked(grown, g) {
      var i :| 0 <= i < |journal| && journal[i].AckPersisted? && Covers(journal[i].ack, g);
      assert grown[i] == journal[i];
    }
    if e.AckPersisted? {
      assert grown[|journal|] == e;
    }
  }

  lemma DispatchEnvironment(w: World, a: Action)
    requires DispatchOk(w) && Exclusive(w)
    ensures DispatchOk(Environment(w, a))
  {
    if a.HookAppendsTurn? {
      AckedGrows(w.journal, TurnStarted(a.turn));
    }
  }

  lemma DispatchTicking(w: World, a: Action)
    requires DispatchOk(w) && PendingFits(w)
    ensures DispatchOk(Ticking(w, a))
  {
  }

  lemma DispatchStarting(w: World, a: Action)
    requires DispatchOk(w) && Exclusive(w)
    ensures DispatchOk(Starting(w, a))
  {
  }

  lemma DispatchRotating(w: World, a: Action)
    requires DispatchOk(w) && PendingFits(w)
    ensures DispatchOk(Rotating(w, a))
  {
  }

  lemma DispatchShutdown(w: World, a: Action)
    requires DispatchOk(w)
    ensures DispatchOk(ShuttingDownStep(w, a))
  {
  }

  lemma DispatchAcknowledging(w: World, a: Action)
    requires DispatchOk(w) && Exclusive(w) && CapsulesAgree(w.disk, w.driver)
    ensures DispatchOk(Acknowledging(w, a))
  {
    if a.WriteAcknowledged? && w.pending.AckVerified? {
      AckedGrows(w.journal, AckPersisted(w.pending.ack));
    }
  }

  lemma DispatchStep(w: World, a: Action)
    requires DispatchOk(w) && Exclusive(w) && CapsulesAgree(w.disk, w.driver)
    ensures DispatchOk(Do(w, a))
  {
    DispatchEnvironment(w, a);
    DispatchStarting(w, a);
    DispatchTicking(w, a);
    DispatchRotating(w, a);
    DispatchShutdown(w, a);
    DispatchAcknowledging(w, a);
  }
}
