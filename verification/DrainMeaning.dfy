/**
  What the decisions of module Drain depend on, stated on the events of the ledger, the fields
  that are held and the samples: when a signal is new, when the gate opens, and what one sample
  makes of the phase.
 */
module DrainMeaning {
  import opened Options
  import opened Activity
  import opened ActivityMeaning
  import opened Ledger
  import opened Drain
  import opened DrainTheorems

  /** Event `k` is of this type, of this generation and conversation. */
  predicate Of(e: Event, t: EventType, generation: nat, conversation: Option<string>) {
    e.eventType == t && e.generation == generation && conversation == Some(e.conversation)
  }

  /** Event `k` is the newest of its type for this generation and conversation. */
  ghost predicate Newest(d: seq<Event>, t: EventType, generation: nat, conversation: Option<string>, k: nat) {
    && k < |d| && Of(d[k], t, generation, conversation)
    && forall j :: k < j < |d| ==> !Of(d[j], t, generation, conversation)
  }

  lemma {:induction false} NewestIsLatest(d: seq<Event>, t: EventType, h: Held)
    ensures var latest := LatestManaged(SignalsOf(d, t), h);
            && (latest.None? <==> forall e :: e in d ==> !Of(e, t, h.generation, h.conversation))
            && (latest.Some? ==> exists k: nat ::
                  Newest(d, t, h.generation, h.conversation, k) && latest.value == Signal(d[k].id, d[k].generation, d[k].conversation))
  {
    if d != [] {
      var n := |d| - 1;
      var before := LatestManaged(SignalsOf(d[..n], t), h);
      NewestIsLatest(d[..n], t, h);
      LatestPush(d, t, h);
      hide LatestManaged, SignalsOf;
      if Of(d[n], t, h.generation, h.conversation) {
        assert Newest(d, t, h.generation, h.conversation, n);
      } else {
        if before.Some? {
          var k: nat :| Newest(d[..n], t, h.generation, h.conversation, k) && before.value == Signal(d[k].id, d[k].generation, d[k].conversation);
          assert Newest(d, t, h.generation, h.conversation, k);
        }
        assert forall e :: e in d <==> e in d[..n] || e == d[n];
      }
    }
  }

  lemma LatestPush(d: seq<Event>, t: EventType, h: Held)
    requires d != []
    ensures var e := d[|d| - 1];
            LatestManaged(SignalsOf(d, t), h)
            == if Of(e, t, h.generation, h.conversation) then Some(Signal(e.id, e.generation, e.conversation))
               else LatestManaged(SignalsOf(d[..|d| - 1], t), h)
  {
    var e := d[|d| - 1];
    if e.eventType == t {
      ManagedConcat(SignalsOf(d[..|d| - 1], t), [Signal(e.id, e.generation, e.conversation)], h.generation, h.conversation);
      var one := [Signal(e.id, e.generation, e.conversation)];
      assert one[..0] == [];
      assert ManagedIn(one, h.generation, h.conversation) == if Managed(one[0], h.generation, h.conversation) then one else [];
    }
  }

  lemma OneNewest(d: seq<Event>, t: EventType, generation: nat, conversation: Option<string>, j: nat, k: nat)
    requires Newest(d, t, generation, conversation, j) && Newest(d, t, generation, conversation, k)
    ensures j == k
  {
  }

  /** The newest handoff request of the managed conversation was not invalidated by a cancellation. */
  ghost predicate Consents(h: Held, d: seq<Event>) {
    exists k: nat :: Newest(d, HandoffRequested, h.generation, h.conversation, k)
                     && Some(d[k].id) != h.invalidatedIdentity && d[k].id !in h.invalidatedIdentities
  }

  /** The newest compaction of the managed conversation was not acted on. */
  ghost predicate Compacts(h: Held, d: seq<Event>) {
    exists k: nat :: Newest(d, PreCompact, h.generation, h.conversation, k)
                     && Some(d[k].id) != h.consumedIdentity && d[k].id !in h.consumedIdentities
  }

  lemma ConsentMeans(h: Held, ledger: seq<Event>, upto: nat, warnings: seq<Warning>, now: int, staleAfter: int, probe: Probe)
    requires upto <= |ledger|
    ensures !ConsentMissingOrStale(h, ReadView(ledger, upto, warnings, now, staleAfter, probe)) <==> Consents(h, Dedup(ledger[..upto]))
  {
    var d := Dedup(ledger[..upto]);
    var v := ReadView(ledger, upto, warnings, now, staleAfter, probe);
    ViewSignals(ledger, upto, warnings, now, staleAfter, probe);
    NoSignalsNoConsent(h, v);
    NewestIsLatest(d, HandoffRequested, h);
    hide ReadView, Dedup, SignalsOf, ManagedIn;
    var latest := LatestManaged(v.handoffSignals, h);
    NothingLatest(h);
    if latest.Some? {
      var k: nat :| Newest(d, HandoffRequested, h.generation, h.conversation, k) && latest.value == Signal(d[k].id, d[k].generation, d[k].conversation);
      forall j: nat | Newest(d, HandoffRequested, h.generation, h.conversation, j) ensures j == k {
        OneNewest(d, HandoffRequested, h.generation, h.conversation, j, k);
      }
    }
  }

  lemma NothingLatest(h: Held)
    ensures LatestManaged([], h).None?
  {
  }

  lemma CompactionMeans(h: Held, ledger: seq<Event>, upto: nat, warnings: seq<Warning>, now: int, staleAfter: int, probe: Probe)
    requires upto <= |ledger|
    ensures NewCompaction(h, ReadView(ledger, upto, warnings, now, staleAfter, probe)) <==> Compacts(h, Dedup(ledger[..upto]))
  {
    var d := Dedup(ledger[..upto]);
    var v := ReadView(ledger, upto, warnings, now, staleAfter, probe);
    ViewSignals(ledger, upto, warnings, now, staleAfter, probe);
    NoSignalsNoCompaction(h, v);
    NewestIsLatest(d, PreCompact, h);
    hide ReadView, Dedup, SignalsOf, ManagedIn;
    var latest := LatestManaged(v.compactSignals, h);
    NothingLatest(h);
    if latest.Some? {
      var k: nat :| Newest(d, PreCompact, h.generation, h.conversation, k) && latest.value == Signal(d[k].id, d[k].generation, d[k].conversation);
      forall j: nat | Newest(d, PreCompact, h.generation, h.conversation, j) ensures j == k {
        OneNewest(d, PreCompact, h.generation, h.conversation, j, k);
      }
    }
  }

  /**
    Everything the step to CHECKPOINTING needs: a drain, consent that still stands, nothing that
    gates, a current ledger, nothing open in it, a quiescent project, hooks that report, and
    usage that is measured or was not for as long as is tolerated.
   */
  ghost predicate GateHolds(h: Held, d: seq<Event>, warnings: seq<Warning>, now: int, staleAfter: int, probe: Probe, c: Config) {
    && h.phase == Draining
    && Consents(h, d)
    && !Gated(d, warnings, now, staleAfter) && Current(d, now, staleAfter) && NothingOpen(d)
    && probe == ProbeQuiescent
    && HooksFresh(d, now, staleAfter)
    && (h.confidence == Confident || h.nonConfidentStreak >= c.tolerance)
  }

  /** The gate opens if and only if all of it holds. */
  lemma GateOpensExactly(h: Held, ledger: seq<Event>, upto: nat, warnings: seq<Warning>, now: int, staleAfter: int, probe: Probe, c: Config)
    requires upto <= |ledger|
    ensures MayCheckpoint(h, ReadView(ledger, upto, warnings, now, staleAfter, probe), c)
       <==> GateHolds(h, Dedup(ledger[..upto]), warnings, now, staleAfter, probe, c)
  {
    ConsentMeans(h, ledger, upto, warnings, now, staleAfter, probe);
    SnapshotMeans(ledger[..upto], warnings, now, staleAfter);
    hide ConsentMissingOrStale, Consents, SnapshotOf, Dedup, Gated, Current, NothingOpen, HooksFresh;
  }

  /**
    In every run, whatever was sampled, released and appended before, an attempt to enter
    CHECKPOINTING succeeds if and only if the ledger it reads is no shorter than the one read
    before and the whole gate holds there, with the last sample confident or at least `tolerance`
    samples in a row not.
   */
  lemma {:induction false} EntryIsQuiescentAndMeasured(config: Config, g: nat, conversation: Option<string>, ledger: seq<Event>,
                                                      actions: seq<Action>, a: Action)
    requires a.Enter?
    ensures var w := Run(Start(config, g, conversation, ledger), actions);
            Do(w, a) != w <==>
              && w.read <= a.upto <= |w.ledger|
              && w.held.phase == Draining
              && Consents(w.held, Dedup(w.ledger[..a.upto]))
              && !Gated(Dedup(w.ledger[..a.upto]), a.warnings, a.now, a.staleAfter)
              && Current(Dedup(w.ledger[..a.upto]), a.now, a.staleAfter)
              && NothingOpen(Dedup(w.ledger[..a.upto]))
              && a.probe == ProbeQuiescent
              && HooksFresh(Dedup(w.ledger[..a.upto]), a.now, a.staleAfter)
              && (LastConfidence(w.samples) == Confident || Trailing(w.samples) >= config.tolerance)
    ensures var w := Run(Start(config, g, conversation, ledger), actions);
            Do(w, a) != w ==> Do(w, a).held == w.held.(phase := Checkpointing)
  {
    hide Run;
    var w := Run(Start(config, g, conversation, ledger), actions);
    StreakCountsSamples(config, g, conversation, ledger, actions);
    if w.read <= a.upto <= |w.ledger| {
      GateOpensExactly(w.held, w.ledger, a.upto, a.warnings, a.now, a.staleAfter, a.probe, config);
    }
    EnterActs(w, a);
    hide Do, MayCheckpoint, Consents, Gated, Current, NothingOpen, HooksFresh, Trailing, LastConfidence, Dedup, ReadView;
  }

  lemma EnterActs(w: World, a: Action)
    requires a.Enter?
    ensures Do(w, a) != w <==>
              && w.read <= a.upto <= |w.ledger|
              && MayCheckpoint(w.held, ReadView(w.ledger, a.upto, a.warnings, a.now, a.staleAfter, a.probe), w.config)
    ensures Do(w, a) != w ==> Do(w, a).held == w.held.(phase := Checkpointing)
    ensures w.read <= a.upto <= |w.ledger|
            && MayCheckpoint(w.held, ReadView(w.ledger, a.upto, a.warnings, a.now, a.staleAfter, a.probe), w.config) ==>
              w.held.phase == Draining
  {
    hide ReadView, ConsentMissingOrStale;
  }

  // ---------------------------------------------------------------- one sample

  /** A percentage was measured. */
  predicate Measured(sample: Sample) {
    sample.Sample? && sample.confidence != Unmeasured
  }

  /** Field by field, what one sample makes of what is held. */
  ghost predicate Sampled(h: Held, sample: Sample, now: int, c: Config, after: Held) {
    && after == h.(phase := after.phase, conversation := after.conversation, percent := after.percent, confidence := after.confidence,
                   nonConfidentStreak := after.nonConfidentStreak, failureStreak := after.failureStreak,
                   warningEmitted := after.warningEmitted, compactionPending := after.compactionPending,
                   pendingUntil := after.pendingUntil)
    && after.confidence == (if sample.Failed? then Unmeasured else sample.confidence)
    && after.failureStreak == (if sample.Failed? then h.failureStreak + 1 else 0)
    && after.nonConfidentStreak == (if sample.Sample? && sample.confidence == Confident then 0 else h.nonConfidentStreak + 1)
    && after.conversation == (if Measured(sample) then Some(sample.conversation) else h.conversation)
    && after.percent == (if Measured(sample) then Some(sample.percent) else h.percent)
    && (if !Measured(sample) || (h.compactionPending && sample.percent >= c.rotatePercent && h.pendingUntil.Some? && now < h.pendingUntil.value) then
          && after.phase == h.phase && after.warningEmitted == h.warningEmitted
          && after.compactionPending == h.compactionPending && after.pendingUntil == h.pendingUntil
        else if h.compactionPending && sample.percent < c.rotatePercent then
          after.phase == h.phase && after.warningEmitted == h.warningEmitted && !after.compactionPending && after.pendingUntil.None?
        else
          && !after.compactionPending && after.pendingUntil == (if h.compactionPending then None else h.pendingUntil)
          && (h.phase == Running ==>
                after.phase == if sample.percent >= c.rotatePercent then Draining
                               else if sample.percent >= c.warnPercent then Warned else Running)
          && (h.phase == Warned ==> after.phase == if sample.percent >= c.rotatePercent then Draining else Warned)
          && (h.phase != Running && h.phase != Warned ==> after.phase == h.phase)
          && after.warningEmitted == (h.warningEmitted || (h.phase == Running && sample.percent >= c.warnPercent)))
  }

  lemma ObservedIsSampled(h: Held, sample: Sample, now: int, c: Config)
    ensures Sampled(h, sample, now, c, Observed(h, sample, now, c))
  {
  }

  predicate OnlyWatches(a: Action) {
    a.Observe? || a.Append?
  }

  /**
    When a drain begins. Outside a grace period, over any run of samples and appended events:
    draining if and only if some measured percentage reached the rotation threshold, and warned if
    and only if none did but it was warned before or some reached the warning threshold.
   */
  lemma {:induction false} DrainBeginsExactly(w: World, later: seq<Action>)
    requires (w.held.phase == Running || w.held.phase == Warned) && !w.held.compactionPending
    requires forall k :: 0 <= k < |later| ==> OnlyWatches(later[k])
    ensures var at := Run(w, later);
            && !at.held.compactionPending && at.config == w.config
            && (at.held.phase == Running || at.held.phase == Warned || at.held.phase == Draining)
            && (at.held.phase == Draining <==> Reached(later, w.config.rotatePercent))
            && (at.held.phase == Warned <==>
                  !Reached(later, w.config.rotatePercent) && (w.held.phase == Warned || Reached(later, w.config.warnPercent)))
    decreases |later|
  {
    if later != [] {
      var n := |later| - 1;
      var before := Run(w, later[..n]);
      DrainBeginsExactly(w, later[..n]);
      ReachedPush(later, w.config.rotatePercent);
      ReachedPush(later, w.config.warnPercent);
      assert OnlyWatches(later[n]);
      hide Reached;
      if later[n].Observe? {
        ObservedIsSampled(before.held, later[n].sample, later[n].now, before.config);
        hide Observed;
      }
    }
  }

  /** Some sample of the run measured at least this percentage. */
  ghost predicate Reached(later: seq<Action>, percent: real) {
    exists k :: 0 <= k < |later| && later[k].Observe? && Measured(later[k].sample) && later[k].sample.percent >= percent
  }

  lemma ReachedPush(later: seq<Action>, percent: real)
    requires later != []
    ensures var a := later[|later| - 1];
            Reached(later, percent) <==>
              Reached(later[..|later| - 1], percent) || (a.Observe? && Measured(a.sample) && a.sample.percent >= percent)
  {
    var n := |later| - 1;
    if k :| 0 <= k < n && later[k].Observe? && Measured(later[k].sample) && later[k].sample.percent >= percent {
      assert later[..n][k] == later[k];
    }
  }

  // ---------------------------------------------------------------- one release

  /** Field by field, what a release makes of what is held. */
  ghost predicate Releases(h: Held, d: seq<Event>, now: int, after: Held) {
    if !Compacts(h, d) then after == h
    else exists k: nat ::
      && Newest(d, PreCompact, h.generation, h.conversation, k)
      && after.consumedIdentity == Some(d[k].id) && d[k].id in after.consumedIdentities
      && after.percent == h.percent && after.confidence == h.confidence && after.nonConfidentStreak == h.nonConfidentStreak
      && after.generation == h.generation && after.conversation == h.conversation
      && (h.phase != Draining ==>
            && after.phase == h.phase && after.warningEmitted == h.warningEmitted && after.compactionPending == h.compactionPending
            && after.pendingUntil == h.pendingUntil && after.invalidatedIdentity == h.invalidatedIdentity
            && after.invalidatedIdentities == h.invalidatedIdentities)
      && (h.phase == Draining ==>
            && after.phase == Running && !after.warningEmitted && after.compactionPending
            && after.pendingUntil == Some(now + SELF_COMPACTION_GRACE_SECONDS)
            && !Consents(after, d))
  }

  lemma {:induction false} FirstsKeep(ids: seq<string>)
    ensures forall id :: id in Firsts(ids) <==> id in ids
    ensures ids != [] && ids[|ids| - 1] !in ids[..|ids| - 1] ==> Firsts(ids) != [] && Firsts(ids)[|Firsts(ids)| - 1] == ids[|ids| - 1]
  {
    if ids != [] {
      FirstsKeep(ids[..|ids| - 1]);
      assert forall id :: id in ids <==> id in ids[..|ids| - 1] || id == ids[|ids| - 1];
    }
  }

  lemma NewIsRemembered(existing: seq<string>, id: string)
    requires id !in existing
    ensures id in Remembered(existing, [id])
  {
    FirstsKeep(existing + [id]);
    assert (existing + [id])[..|existing|] == existing;
    var firsts := Firsts(existing + [id]);
    assert firsts[|firsts| - 1] == id;
    assert LastOf(firsts, LIFECYCLE_IDENTITY_HISTORY_LIMIT)[|LastOf(firsts, LIFECYCLE_IDENTITY_HISTORY_LIMIT)| - 1] == id;
  }

  /** Consumed first, whatever the phase; a drain is cancelled with a grace period, and no earlier consent survives. */
  lemma ReleasedMeans(h: Held, ledger: seq<Event>, upto: nat, warnings: seq<Warning>, now: int, staleAfter: int, probe: Probe)
    requires upto <= |ledger|
    ensures Releases(h, Dedup(ledger[..upto]), now, Released(h, ReadView(ledger, upto, warnings, now, staleAfter, probe), now))
  {
    var d := Dedup(ledger[..upto]);
    var v := ReadView(ledger, upto, warnings, now, staleAfter, probe);
    var after := Released(h, v, now);
    CompactionMeans(h, ledger, upto, warnings, now, staleAfter, probe);
    ViewSignals(ledger, upto, warnings, now, staleAfter, probe);
    NoSignalsNoCompaction(h, v);
    if Compacts(h, d) {
      var k: nat :| Newest(d, PreCompact, h.generation, h.conversation, k)
                    && Some(d[k].id) != h.consumedIdentity && d[k].id !in h.consumedIdentities;
      NewestIsLatest(d, PreCompact, h);
      NewestIsLatest(d, HandoffRequested, h);
      hide ReadView, Dedup, SignalsOf, ManagedIn, Remembered, NewCompaction;
      LatestAt(d, PreCompact, h, k);
      NewIsRemembered(h.consumedIdentities, d[k].id);
      ReleasedFields(h, v, now);
      if h.phase == Draining {
        forall j: nat | Newest(d, HandoffRequested, h.generation, h.conversation, j) ensures Some(d[j].id) == after.invalidatedIdentity {
          LatestAt(d, HandoffRequested, h, j);
        }
      }
    }
  }

  lemma LatestAt(d: seq<Event>, t: EventType, h: Held, k: nat)
    requires Newest(d, t, h.generation, h.conversation, k)
    ensures LatestManaged(SignalsOf(d, t), h) == Some(Signal(d[k].id, d[k].generation, d[k].conversation))
  {
    NewestIsLatest(d, t, h);
    assert d[k] in d;
    var j: nat :| Newest(d, t, h.generation, h.conversation, j)
                  && LatestManaged(SignalsOf(d, t), h).value == Signal(d[j].id, d[j].generation, d[j].conversation);
    OneNewest(d, t, h.generation, h.conversation, j, k);
  }

  lemma ReleasedFields(h: Held, v: View, now: int)
    requires NewCompaction(h, v) && v.compactSignals != []
    ensures LatestManaged(v.compactSignals, h).Some?
    ensures var (after, id) := (Released(h, v, now), LatestManaged(v.compactSignals, h).value.id);
            && after.consumedIdentity == Some(id) && after.consumedIdentities == Remembered(h.consumedIdentities, [id])
            && after.percent == h.percent && after.confidence == h.confidence && after.nonConfidentStreak == h.nonConfidentStreak
            && after.generation == h.generation && after.conversation == h.conversation
            && (h.phase != Draining ==>
                  after == h.(consumedCount := after.consumedCount, consumedIdentity := after.consumedIdentity,
                              consumedIdentities := after.consumedIdentities))
            && (h.phase == Draining ==>
                  && after.phase == Running && !after.warningEmitted && after.compactionPending
                  && after.pendingUntil == Some(now + SELF_COMPACTION_GRACE_SECONDS)
                  && after.invalidatedIdentity == (if LatestManaged(v.handoffSignals, h).Some?
                                                   then Some(LatestManaged(v.handoffSignals, h).value.id) else None))
  {
    hide ManagedIn, Remembered;
  }
}
