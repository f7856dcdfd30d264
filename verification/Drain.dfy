/**
  Draining in src/agent_session_harness/supervisor.py: usage samples that arm a rotation, the
  runtime's own compaction that cancels it, and the gate every rotation passes on its way to
  CHECKPOINTING. The state is what the supervisor persists; a crash between two of these
  steps loses nothing else.
 */
module Drain {
  import opened Options
  import opened Activity
  import opened Ledger

  const SELF_COMPACTION_GRACE_SECONDS := 30
  const NON_CONFIDENT_ROTATION_TOLERANCE_TICKS := 5
  const LIFECYCLE_IDENTITY_HISTORY_LIMIT := 64

  datatype Phase = Running | Warned | Draining | Checkpointing

  datatype Confidence = Confident | Degraded | Unmeasured

  datatype Sample = Sample(conversation: string, percent: real, confidence: Confidence) | Failed

  datatype Config = Config(warnPercent: real, rotatePercent: real, tolerance: nat)

  datatype Probe = ProbeQuiescent | ProbeBusy | ProbeUnknown

  datatype Held = Held(
    generation: nat,
    phase: Phase,
    conversation: Option<string>,
    percent: Option<real>,
    confidence: Confidence,
    nonConfidentStreak: nat,
    failureStreak: nat,
    warningEmitted: bool,
    consumedCount: nat,
    consumedIdentity: Option<string>,
    consumedIdentities: seq<string>,
    invalidatedAt: nat,
    invalidatedIdentity: Option<string>,
    invalidatedIdentities: seq<string>,
    compactionPending: bool,
    pendingUntil: Option<int>)

  /** As an acknowledgement (or a first start, with no conversation yet) leaves it. */
  function Fresh(generation: nat, conversation: Option<string>): Held {
    Held(generation, Running, conversation, None, Unmeasured, 0, 0, false, 0, None, [], 0, None, [], false, None)
  }

  /** The runtime's activity as one tick sees it. */
  datatype View = View(
    quiescence: Quiescence,
    liveness: Liveness,
    handoffSignals: seq<Signal>,
    handoffGenerations: set<nat>,
    handoffSeen: nat,
    compactSignals: seq<Signal>,
    compactGenerations: set<nat>,
    compactSeen: nat)

  function GenerationsOf(signals: seq<Signal>): set<nat> {
    set k | 0 <= k < |signals| :: signals[k].generation
  }

  /** `merge_project_safety`: the probe can only take IDLE away. */
  function Merged(q: Quiescence, probe: Probe): Quiescence {
    if q.Unknown? || probe.ProbeUnknown? then Unknown
    else if q.Busy? || probe.ProbeBusy? then Busy
    else Idle
  }

  function ViewOf(s: Snapshot, probe: Probe): View {
    View(Merged(s.quiescence, probe), s.liveness,
         s.handoffSignals, GenerationsOf(s.handoffSignals), |s.handoffSignals|,
         s.compactSignals, GenerationsOf(s.compactSignals), |s.compactSignals|)
  }

  // ---------------------------------------------------------------- signals

  predicate Managed(s: Signal, generation: nat, conversation: Option<string>) {
    s.generation == generation && conversation == Some(s.conversation)
  }

  function ManagedIn(signals: seq<Signal>, generation: nat, conversation: Option<string>): seq<Signal> {
    if signals == [] then []
    else
      var n := |signals| - 1;
      ManagedIn(signals[..n], generation, conversation)
      + (if Managed(signals[n], generation, conversation) then [signals[n]] else [])
  }

  /** The newest signal of the managed conversation. */
  function LatestManaged(signals: seq<Signal>, h: Held): Option<Signal> {
    var managed := ManagedIn(signals, h.generation, h.conversation);
    if managed == [] then None else Some(managed[|managed| - 1])
  }

  function IdsOf(signals: seq<Signal>): seq<string> {
    seq(|signals|, k requires 0 <= k < |signals| => signals[k].id)
  }

  /** First occurrences of the remembered and the new, at most the last 64 of them. */
  function Remembered(existing: seq<string>, more: seq<string>): seq<string> {
    LastOf(Firsts(existing + more), LIFECYCLE_IDENTITY_HISTORY_LIMIT)
  }

  function Firsts(ids: seq<string>): seq<string> {
    if ids == [] then []
    else
      var n := |ids| - 1;
      if ids[n] in ids[..n] then Firsts(ids[..n]) else Firsts(ids[..n]) + [ids[n]]
  }

  function LastOf(ids: seq<string>, n: nat): seq<string> {
    if |ids| <= n then ids else ids[|ids| - n..]
  }

  // ---------------------------------------------------------------- usage samples

  function Thresholds(h: Held, percent: real, now: int, c: Config): Held {
    if h.compactionPending && percent < c.rotatePercent then h.(compactionPending := false, pendingUntil := None)
    else if h.compactionPending && h.pendingUntil.Some? && now < h.pendingUntil.value then h
    else
      var cleared := if h.compactionPending then h.(compactionPending := false, pendingUntil := None) else h;
      var warned := if cleared.phase.Running? && percent >= c.warnPercent
                    then cleared.(phase := Warned, warningEmitted := true) else cleared;
      if (warned.phase.Running? || warned.phase.Warned?) && percent >= c.rotatePercent
      then warned.(phase := Draining) else warned
  }

  function Observed(h: Held, sample: Sample, now: int, c: Config): Held {
    match sample
    case Failed => h.(confidence := Unmeasured, failureStreak := h.failureStreak + 1,
                      nonConfidentStreak := h.nonConfidentStreak + 1)
    case Sample(conversation, percent, confidence) =>
      var counted := h.(confidence := confidence, failureStreak := 0,
                        nonConfidentStreak := if confidence.Confident? then 0 else h.nonConfidentStreak + 1);
      if confidence.Unmeasured? then counted
      else Thresholds(counted.(conversation := Some(conversation), percent := Some(percent)), percent, now, c)
  }

  // ---------------------------------------------------------------- self-compaction

  /** A compaction of the managed conversation that was not acted on yet. */
  predicate NewCompaction(h: Held, v: View) {
    if v.compactSignals != [] then
      && LatestManaged(v.compactSignals, h).Some?
      && Some(LatestManaged(v.compactSignals, h).value.id) != h.consumedIdentity
      && LatestManaged(v.compactSignals, h).value.id !in h.consumedIdentities
    else
      h.generation in v.compactGenerations && v.compactSeen > h.consumedCount
  }

  function Released(h: Held, v: View, now: int): Held {
    if !NewCompaction(h, v) then h
    else
      var signal := LatestManaged(v.compactSignals, h);
      var consumed := h.(consumedCount := v.compactSeen,
                         consumedIdentity := if signal.Some? then Some(signal.value.id) else None,
                         consumedIdentities := Remembered(h.consumedIdentities, if signal.Some? then [signal.value.id] else []));
      if !h.phase.Draining? then consumed
      else
        var handoff := LatestManaged(v.handoffSignals, h);
        consumed.(phase := Running, warningEmitted := false,
                  compactionPending := true, pendingUntil := Some(now + SELF_COMPACTION_GRACE_SECONDS),
                  invalidatedAt := v.handoffSeen,
                  invalidatedIdentity := if handoff.Some? then Some(handoff.value.id) else None,
                  invalidatedIdentities := Remembered(h.invalidatedIdentities,
                                                      IdsOf(ManagedIn(v.handoffSignals, h.generation, h.conversation))))
  }

  // ---------------------------------------------------------------- the gate

  predicate ConsentMissingOrStale(h: Held, v: View) {
    if v.handoffSignals != [] then
      || LatestManaged(v.handoffSignals, h).None?
      || Some(LatestManaged(v.handoffSignals, h).value.id) == h.invalidatedIdentity
      || LatestManaged(v.handoffSignals, h).value.id in h.invalidatedIdentities
    else
      h.generation !in v.handoffGenerations || v.handoffSeen <= h.invalidatedAt
  }

  predicate MayCheckpoint(h: Held, v: View, c: Config) {
    && h.phase.Draining?
    && !ConsentMissingOrStale(h, v)
    && v.quiescence.Idle?
    && v.liveness.Reporting?
    && (h.confidence.Confident? || h.nonConfidentStreak >= c.tolerance)
  }

  // ---------------------------------------------------------------- runs of one generation

  datatype World = World(
    config: Config,
    held: Held,
    ledger: seq<Event>,
    read: nat,
    samples: seq<Sample>,
    consumed: seq<string>,
    cancelled: seq<string>,
    cancelledAt: seq<nat>,
    entered: Option<Entry>)

  /** The signal that authorised the step to CHECKPOINTING, and the ledger length it was read at. */
  datatype Entry = Entry(consent: Signal, upto: nat)

  function Start(c: Config, generation: nat, conversation: Option<string>, ledger: seq<Event>): World {
    World(c, Fresh(generation, conversation), ledger, 0, [], [], [], [], None)
  }

  datatype Action =
    | Append(event: Event)
    | Observe(sample: Sample, now: int)
    | Release(upto: nat, now: int)
    | Enter(upto: nat, warnings: seq<Warning>, now: int, staleAfter: int, probe: Probe)

  predicate Active(p: Phase) {
    p.Running? || p.Warned? || p.Draining?
  }

  function Compactions(ledger: seq<Event>, upto: nat): seq<Signal>
    requires upto <= |ledger|
  {
    SignalsOf(Dedup(ledger[..upto]), PreCompact)
  }

  function Handoffs(ledger: seq<Event>, upto: nat): seq<Signal>
    requires upto <= |ledger|
  {
    SignalsOf(Dedup(ledger[..upto]), HandoffRequested)
  }

  function ReadView(ledger: seq<Event>, upto: nat, warnings: seq<Warning>, now: int, staleAfter: int, probe: Probe): View
    requires upto <= |ledger|
  {
    ViewOf(SnapshotOf(ledger[..upto], warnings, now, staleAfter), probe)
  }

  function Do(w: World, a: Action): World {
    match a
    case Append(e) => w.(ledger := w.ledger + [e])
    case Observe(sample, now) =>
      if Active(w.held.phase)
      then w.(held := Observed(w.held, sample, now, w.config), samples := w.samples + [sample]) else w
    case Release(upto, now) =>
      if Active(w.held.phase) && w.read <= upto <= |w.ledger| then
        // neither the probe nor the clock matters to what a release reads
        var v := ReadView(w.ledger, upto, [], now, 0, ProbeQuiescent);
        var after := w.(read := upto, held := Released(w.held, v, now));
        if NewCompaction(w.held, v) && LatestManaged(v.compactSignals, w.held).Some? then
          var id := LatestManaged(v.compactSignals, w.held).value.id;
          after.(consumed := w.consumed + [id],
                 cancelled := if w.held.phase.Draining? then w.cancelled + [id] else w.cancelled,
                 cancelledAt := if w.held.phase.Draining? then w.cancelledAt + [upto] else w.cancelledAt)
        else after
      else w
    case Enter(upto, warnings, now, staleAfter, probe) =>
      if w.read <= upto <= |w.ledger| && MayCheckpoint(w.held, ReadView(w.ledger, upto, warnings, now, staleAfter, probe), w.config) then
        var v := ReadView(w.ledger, upto, warnings, now, staleAfter, probe);
        w.(read := upto, held := w.held.(phase := Checkpointing),
           entered := if LatestManaged(v.handoffSignals, w.held).Some? then Some(Entry(LatestManaged(v.handoffSignals, w.held).value, upto)) else None)
      else w
  }

  function Run(w: World, actions: seq<Action>): World
    decreases |actions|
  {
    if actions == [] then w
    else Do(Run(w, actions[..|actions| - 1]), actions[|actions| - 1])
  }

  lemma RunAppend(w: World, history: seq<Action>, a: Action)
    ensures Run(w, history + [a]) == Do(Run(w, history), a)
  {
    assert (history + [a])[..|history|] == history;
  }
}
