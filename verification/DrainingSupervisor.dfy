/**
  The draining part of a tick in src/agent_session_harness/supervisor.py in imperative form:
  each method replaces fields of the snapshot one after another, as the original does with
  `model_copy`. `history` records the steps of module Drain that were performed.
 */
module DrainControl {
  import opened Options
  import opened Activity
  import opened Ledger
  import opened Drain
  import opened DrainTheorems
  import opened DrainMeaning
  import Handshake = StopRequests

  /** A release reads only the signals of a view. */
  predicate SameSignals(v: View, u: View) {
    && v.handoffSignals == u.handoffSignals && v.handoffGenerations == u.handoffGenerations && v.handoffSeen == u.handoffSeen
    && v.compactSignals == u.compactSignals && v.compactGenerations == u.compactGenerations && v.compactSeen == u.compactSeen
  }

  lemma ReleaseReadsSignals(h: Held, v: View, u: View, now: int)
    requires SameSignals(v, u)
    ensures Released(h, v, now) == Released(h, u, now) && NewCompaction(h, v) == NewCompaction(h, u)
  {
    hide ManagedIn, Remembered;
  }

  class DrainingSupervisor {
    const config: Config
    var snapshot: Held
    ghost const first: World
    ghost var ledger: seq<Event>
    ghost var read: nat
    ghost var samples: seq<Sample>
    ghost var consumed: seq<string>
    ghost var cancelled: seq<string>
    ghost var cancelledAt: seq<nat>
    ghost var entered: Option<Entry>
    var stopMarker: Option<Handshake.Marker>
    ghost var history: seq<Action>

    ghost function State(): World
      reads this
    {
      World(config, snapshot, ledger, read, samples, consumed, cancelled, cancelledAt, entered)
    }

    ghost predicate Valid()
      reads this
    {
      State() == Run(first, history) && read <= |ledger|
    }

    /** As the acknowledgement of a generation leaves it. */
    constructor (config: Config, generation: nat, conversation: Option<string>, ghost ledger: seq<Event>)
      ensures Valid() && history == [] && first == Start(config, generation, conversation, ledger)
    {
      this.config := config;
      snapshot := Fresh(generation, conversation);
      stopMarker := None;
      first := Start(config, generation, conversation, ledger);
      this.ledger := ledger;
      read, samples, consumed, cancelled, cancelledAt, entered, history := 0, [], [], [], [], None, [];
    }

    /** Brings the ghost state in line after `snapshot` moved as `a` says. */
    ghost method Log(a: Action, before: World)
      requires before == Run(first, history) && before.config == config
      requires Do(before, a).held == snapshot && Do(before, a).config == config && before.read <= |before.ledger|
      modifies this`ledger, this`read, this`samples, this`consumed, this`cancelled, this`cancelledAt, this`entered, this`history
      ensures history == old(history) + [a] && State() == Do(before, a) && Valid()
    {
      hide Run, Do, LatestManaged, NewCompaction, MayCheckpoint, ReadView;
      ReadStays(before, a);
      var after := Do(before, a);
      ledger, read, samples, consumed := after.ledger, after.read, after.samples, after.consumed;
      cancelled, cancelledAt, entered := after.cancelled, after.cancelledAt, after.entered;
      RunAppend(first, history, a);
      history := history + [a];
    }

    lemma ReadStays(w: World, a: Action)
      requires w.read <= |w.ledger|
      ensures Do(w, a).read <= |Do(w, a).ledger|
    {
      hide ReadView, MayCheckpoint, NewCompaction, LatestManaged;
    }

    /** A hook appends to the shared ledger. */
    ghost method HookAppends(e: Event)
      requires Valid()
      modifies this`ledger, this`read, this`samples, this`consumed, this`cancelled, this`cancelledAt, this`entered, this`history
      ensures Valid() && history == old(history) + [Append(e)] && ledger == old(ledger) + [e]
    {
      hide Run;
      Log(Append(e), State());
    }

    method LatestManagedSignal(signals: seq<Signal>) returns (signal: Option<Signal>)
      ensures signal == LatestManaged(signals, snapshot)
    {
      var k: nat := |signals|;
      assert signals[..|signals|] == signals;
      while k > 0
        invariant k <= |signals|
        invariant LatestManaged(signals, snapshot) == LatestManaged(signals[..k], snapshot)
      {
        k := k - 1;
        assert signals[..k + 1][..k] == signals[..k];
        if signals[k].generation == snapshot.generation && snapshot.conversation.Some?
           && signals[k].conversation == snapshot.conversation.value {
          return Some(signals[k]);
        }
      }
      return None;
    }

    // -------------------------------------------------------------- usage

    method RecordUsageSampleFailure()
      modifies this`snapshot
      ensures snapshot == Observed(old(snapshot), Failed, 0, config)
    {
      var failures := snapshot.failureStreak + 1;
      snapshot := snapshot.(confidence := Unmeasured, failureStreak := failures,
                            nonConfidentStreak := snapshot.nonConfidentStreak + 1);
    }

    method ApplyUsageThresholds(percent: real, now: int)
      modifies this`snapshot
      ensures snapshot == Thresholds(old(snapshot), percent, now, config)
    {
      if snapshot.compactionPending {
        if percent < config.rotatePercent {
          snapshot := snapshot.(compactionPending := false, pendingUntil := None);
          return;
        }
        if snapshot.pendingUntil.Some? && now < snapshot.pendingUntil.value {
          return;
        }
        snapshot := snapshot.(compactionPending := false, pendingUntil := None);
      }
      if snapshot.phase.Running? && percent >= config.warnPercent {
        snapshot := snapshot.(phase := Warned, warningEmitted := true);
      }
      if (snapshot.phase.Running? || snapshot.phase.Warned?) && percent >= config.rotatePercent {
        snapshot := snapshot.(phase := Draining);
      }
    }

    /** `_observe_usage` with a sample of the managed process. */
    method ObserveUsage(sample: Sample, now: int)
      requires Valid() && Active(snapshot.phase)
      modifies this
      ensures Valid() && history == old(history) + [Observe(sample, now)]
      ensures snapshot == Observed(old(snapshot), sample, now, config) && samples == old(samples) + [sample]
      ensures ledger == old(ledger) && read == old(read)
      ensures Sampled(old(snapshot), sample, now, config, snapshot)
    {
      ObservedIsSampled(snapshot, sample, now, config);
      hide Run;
      ghost var before := State();
      if sample.Failed? {
        RecordUsageSampleFailure();
      } else {
        var confident := sample.confidence.Confident?;
        var streak := if confident then 0 else snapshot.nonConfidentStreak + 1;
        snapshot := snapshot.(confidence := sample.confidence, failureStreak := 0, nonConfidentStreak := streak);
        if !sample.confidence.Unmeasured? {
          snapshot := snapshot.(conversation := Some(sample.conversation), percent := Some(sample.percent));
          ApplyUsageThresholds(sample.percent, now);
        }
      }
      Log(Observe(sample, now), before);
    }

    // -------------------------------------------------------------- self-compaction

    /** `_release_drain_on_self_compaction`: consume first, whatever the phase; cancel only a drain. */
    method ReleaseDrainOnSelfCompaction(v: View, now: int, removable: bool, ghost upto: nat)
      requires Valid() && Active(snapshot.phase) && read <= upto <= |ledger|
      requires SameSignals(v, ReadView(ledger, upto, [], now, 0, ProbeQuiescent))
      modifies this
      ensures Valid() && history == old(history) + [Release(upto, now)]
      ensures snapshot == Released(old(snapshot), v, now) && read == upto
      ensures ledger == old(ledger) && samples == old(samples)
      ensures Releases(old(snapshot), Dedup(old(ledger)[..upto]), now, snapshot)
      ensures stopMarker == if removable && old(snapshot).phase == Draining && Compacts(old(snapshot), Dedup(old(ledger)[..upto]))
                            then None else old(stopMarker)
    {
      hide Run, Releases, Compacts, Dedup;
      ghost var before := State();
      ReleaseReadsSignals(snapshot, v, ReadView(ledger, upto, [], now, 0, ProbeQuiescent), now);
      ReleaseStep(before, upto, now);
      ReleasedMeans(snapshot, ledger, upto, [], now, 0, ProbeQuiescent);
      CompactionMeans(snapshot, ledger, upto, [], now, 0, ProbeQuiescent);
      hide ReadView, Do;
      ApplyRelease(v, now, removable);
      Log(Release(upto, now), before);
    }

    lemma ReleaseStep(w: World, upto: nat, now: int)
      requires w.read <= upto <= |w.ledger| && Active(w.held.phase)
      ensures var w' := Do(w, Release(upto, now));
              && w'.held == Released(w.held, ReadView(w.ledger, upto, [], now, 0, ProbeQuiescent), now)
              && w'.read == upto && w'.ledger == w.ledger && w'.samples == w.samples && w'.config == w.config
    {
      hide Released, ReadView, NewCompaction, LatestManaged;
    }

    method ApplyRelease(v: View, now: int, removable: bool)
      modifies this`snapshot, this`stopMarker
      ensures snapshot == Released(old(snapshot), v, now)
      ensures stopMarker == if removable && old(snapshot).phase == Draining && NewCompaction(old(snapshot), v) then None else old(stopMarker)
    {
      hide ManagedIn, Remembered, IdsOf;
      var signal := LatestManagedSignal(v.compactSignals);
      if v.compactSignals != [] {
        if signal.None? || Some(signal.value.id) == snapshot.consumedIdentity || signal.value.id in snapshot.consumedIdentities {
          return;
        }
      } else {
        if snapshot.generation !in v.compactGenerations {
          return;
        }
        if v.compactSeen <= snapshot.consumedCount {
          return;
        }
      }
      var releasing := snapshot.phase.Draining?;
      var handoff := LatestManagedSignal(v.handoffSignals);
      snapshot := snapshot.(consumedCount := v.compactSeen,
                            consumedIdentity := if signal.Some? then Some(signal.value.id) else None,
                            consumedIdentities := Remembered(snapshot.consumedIdentities, if signal.Some? then [signal.value.id] else []));
      if releasing {
        snapshot := snapshot.(phase := Running, warningEmitted := false, compactionPending := true,
                              pendingUntil := Some(now + SELF_COMPACTION_GRACE_SECONDS));
        snapshot := snapshot.(invalidatedAt := v.handoffSeen,
                              invalidatedIdentity := if handoff.Some? then Some(handoff.value.id) else None,
                              invalidatedIdentities := Remembered(snapshot.invalidatedIdentities,
                                                                  IdsOf(ManagedIn(v.handoffSignals, snapshot.generation, snapshot.conversation))));
        ClearStopRequestMarker(removable);
      }
    }

    /** Best effort: a marker that cannot be removed stays. */
    method ClearStopRequestMarker(removable: bool)
      modifies this`stopMarker
      ensures stopMarker == Handshake.Cleared(old(stopMarker), removable)
    {
      if removable {
        stopMarker := None;
      }
    }

    // -------------------------------------------------------------- the tick

    /** The gates between DRAINING and CHECKPOINTING, in the order they are tried. */
    method PassGates(v: View) returns (open: bool)
      requires snapshot.phase.Draining?
      ensures open <==> MayCheckpoint(snapshot, v, config)
    {
      hide ManagedIn;
      var handoff := LatestManagedSignal(v.handoffSignals);
      var missingOrStale: bool;
      if v.handoffSignals != [] {
        missingOrStale := handoff.None? || Some(handoff.value.id) == snapshot.invalidatedIdentity
                          || handoff.value.id in snapshot.invalidatedIdentities;
      } else {
        missingOrStale := snapshot.generation !in v.handoffGenerations || v.handoffSeen <= snapshot.invalidatedAt;
      }
      if missingOrStale || !v.quiescence.Idle? {
        return false;
      }
      if !v.liveness.Reporting? {
        return false;
      }
      if !snapshot.confidence.Confident? && snapshot.nonConfidentStreak < config.tolerance {
        return false;
      }
      return true;
    }

    /**
      The RUNNING, WARNING and DRAINING part of a tick. What it was shown is the activity of a
      ledger no shorter than the one shown before.
    */
    method Tick(s: Snapshot, probe: Probe, sample: Option<Sample>, now: int, removable: bool,
                ghost upto: nat, ghost warnings: seq<Warning>, ghost staleAfter: int)
      returns (checkpointing: bool)
      requires Valid() && Active(snapshot.phase) && read <= upto <= |ledger|
      requires s == SnapshotOf(ledger[..upto], warnings, now, staleAfter)
      modifies this
      ensures Valid() && old(history) <= history
      ensures var v := ViewOf(s, probe);
              var shown := if sample.Some? then Observed(old(snapshot), sample.value, now, config) else old(snapshot);
              var released := Released(shown, v, now);
              && (checkpointing <==> MayCheckpoint(released, v, config))
              && snapshot == if checkpointing then released.(phase := Checkpointing) else released
      ensures checkpointing ==> |history| > 0 && history[|history| - 1] == Enter(upto, warnings, now, staleAfter, probe)
      ensures exists shown, released :: Ticked(old(snapshot), sample, old(ledger), upto, now, shown, released)
                && (checkpointing <==> GateHolds(released, Dedup(old(ledger)[..upto]), warnings, now, staleAfter, probe, config))
                && snapshot == if checkpointing then released.(phase := Checkpointing) else released
    {
      hide Run, Observed, Released, MayCheckpoint, SnapshotOf, GateHolds, Dedup, Ticked;
      ghost var (held, lines) := (snapshot, ledger);
      var v := ViewOf(s, probe);
      ghost var seen := ReadView(ledger, upto, warnings, now, staleAfter, probe);
      SignalsOnly(v, upto, warnings, now, staleAfter, probe);
      hide ReadView;
      ObserveAndRelease(v, sample, now, removable, upto);
      OnlyDrainsPass(snapshot, v);
      ghost var shown := if sample.Some? then Observed(held, sample.value, now, config) else held;
      TickedSo(held, sample, lines, upto, warnings, staleAfter, probe, now);
      GateOpensExactly(snapshot, lines, upto, warnings, now, staleAfter, probe, config);
      assert Ticked(held, sample, lines, upto, now, shown, snapshot);
      if !snapshot.phase.Draining? {
        return false;
      }
      checkpointing := EnterIfOpen(v, now, upto, warnings, staleAfter, probe);
    }

    /** The sample first, if there is one, and then the release. */
    ghost predicate Ticked(before: Held, sample: Option<Sample>, lines: seq<Event>, upto: nat, now: int, shown: Held, released: Held) {
      && upto <= |lines|
      && (if sample.Some? then Sampled(before, sample.value, now, config, shown) else shown == before)
      && Releases(shown, Dedup(lines[..upto]), now, released)
    }

    lemma TickedSo(before: Held, sample: Option<Sample>, lines: seq<Event>, upto: nat, warnings: seq<Warning>, staleAfter: int,
                   probe: Probe, now: int)
      requires upto <= |lines|
      ensures var shown := if sample.Some? then Observed(before, sample.value, now, config) else before;
              Ticked(before, sample, lines, upto, now, shown, Released(shown, ReadView(lines, upto, warnings, now, staleAfter, probe), now))
    {
      hide Observed, Released, Sampled, Releases;
      if sample.Some? {
        ObservedIsSampled(before, sample.value, now, config);
      }
      ReleasedMeans(if sample.Some? then Observed(before, sample.value, now, config) else before, lines, upto, warnings, now, staleAfter, probe);
    }

    lemma OnlyDrainsPass(h: Held, v: View)
      ensures MayCheckpoint(h, v, config) ==> h.phase.Draining?
    {
    }

    lemma SignalsOnly(v: View, upto: nat, warnings: seq<Warning>, now: int, staleAfter: int, probe: Probe)
      requires upto <= |ledger| && v == ReadView(ledger, upto, warnings, now, staleAfter, probe)
      ensures SameSignals(v, ReadView(ledger, upto, [], now, 0, ProbeQuiescent))
    {
    }

    method ObserveAndRelease(v: View, sample: Option<Sample>, now: int, removable: bool, ghost upto: nat)
      requires Valid() && Active(snapshot.phase) && read <= upto <= |ledger|
      requires SameSignals(v, ReadView(ledger, upto, [], now, 0, ProbeQuiescent))
      modifies this
      ensures Valid() && old(history) <= history && Active(snapshot.phase)
      ensures read == upto && ledger == old(ledger)
      ensures snapshot == Released(if sample.Some? then Observed(old(snapshot), sample.value, now, config) else old(snapshot), v, now)
    {
      hide Run, ReadView, Released, Observed;
      if sample.Some? {
        ObserveUsage(sample.value, now);
        StillActive(old(snapshot), sample.value, now, config);
      }
      ghost var shown := snapshot;
      ReleaseDrainOnSelfCompaction(v, now, removable, upto);
      ReleasedStillActive(shown, v, now);
    }

    method EnterIfOpen(v: View, now: int, ghost upto: nat, ghost warnings: seq<Warning>, ghost staleAfter: int, ghost probe: Probe)
      returns (open: bool)
      requires Valid() && snapshot.phase.Draining? && read <= upto <= |ledger|
      requires v == ReadView(ledger, upto, warnings, now, staleAfter, probe)
      modifies this
      ensures Valid() && old(history) <= history
      ensures open <==> MayCheckpoint(old(snapshot), v, config)
      ensures open ==> snapshot == old(snapshot).(phase := Checkpointing)
      ensures open ==> |history| > 0 && history[|history| - 1] == Enter(upto, warnings, now, staleAfter, probe)
      ensures !open ==> snapshot == old(snapshot)
    {
      hide Run, ReadView, MayCheckpoint;
      open := PassGates(v);
      if open {
        ghost var before := State();
        snapshot := snapshot.(phase := Checkpointing);
        EnterStep(before, upto, warnings, now, staleAfter, probe);
        Log(Enter(upto, warnings, now, staleAfter, probe), before);
      }
    }

    lemma EnterStep(w: World, upto: nat, warnings: seq<Warning>, now: int, staleAfter: int, probe: Probe)
      requires w.read <= upto <= |w.ledger| && MayCheckpoint(w.held, ReadView(w.ledger, upto, warnings, now, staleAfter, probe), w.config)
      ensures var w' := Do(w, Enter(upto, warnings, now, staleAfter, probe));
              w'.held == w.held.(phase := Checkpointing) && w'.config == w.config
    {
      hide ReadView, MayCheckpoint, LatestManaged;
    }

    lemma StillActive(h: Held, sample: Sample, now: int, c: Config)
      requires Active(h.phase)
      ensures Active(Observed(h, sample, now, c).phase)
    {
    }

    lemma ReleasedStillActive(h: Held, v: View, now: int)
      requires Active(h.phase)
      ensures Active(Released(h, v, now).phase)
    {
      hide ManagedIn, Remembered;
    }
  }
}
