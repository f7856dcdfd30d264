/**
  src/agent_session_harness/ledger.py: `EventLedger`, which reads the appended tail of a
  shared file into a cache and folds the cached events into an activity snapshot.
 */
module Ledger {
  import opened Options
  import opened Activity
  import opened ActivityMeaning
  import opened LedgerText

  const MAX_LEDGER_BYTES := 16 * 1_048_576
  const MAX_LEDGER_EVENTS := 50_000
  const MAX_EVENT_BYTES := 64 * 1024

  datatype File = File(identity: nat, text: string)

  datatype Quiescence = Idle | Busy | Unknown

  datatype Liveness = Reporting | NeverReported | SilentIdle | SilentActive

  datatype Snapshot = Snapshot(
    quiescence: Quiescence,
    liveness: Liveness,
    active: map<Key, nat>,
    reaped: set<string>,
    processed: nat,
    lastEventAt: Option<int>,
    warnings: seq<Message>,
    handoffSignals: seq<Signal>,
    compactSignals: seq<Signal>)

  function FullEvents(parse: string -> Parsed, text: string): seq<Event> {
    EventsOf(parse, LinesOf(text))
  }

  function FullMessages(parse: string -> Parsed, text: string): seq<Message> {
    MessagesOf(parse, LinesOf(text), 0)
  }

  // ---------------------------------------------------------------- quiescence and liveness

  predicate Gates(w: Warning, now: int, staleAfter: int) {
    w.sticky || now - w.observedAt <= staleAfter
  }

  function Settledness(warnings: seq<Warning>, lastEventAt: Option<int>, now: int, staleAfter: int, hasActive: bool): Quiescence {
    if (exists k :: 0 <= k < |warnings| && Gates(warnings[k], now, staleAfter)) || lastEventAt.None? then Unknown
    else
      var age := now - lastEventAt.value;
      if age < 0 || age > staleAfter then Unknown
      else if hasActive then Busy else Idle
  }

  function RuntimeLiveness(lastHookEventAt: Option<int>, now: int, staleAfter: int, hasActive: bool): Liveness {
    if lastHookEventAt.None? then NeverReported
    else if now - lastHookEventAt.value <= staleAfter then Reporting
    else if hasActive then SilentActive else SilentIdle
  }

  function SnapshotOf(events: seq<Event>, readWarnings: seq<Warning>, now: int, staleAfter: int): Snapshot {
    var d := Dedup(events);
    var t := Tally(d);
    var warnings := readWarnings + t.unmatched;
    Snapshot(
      Settledness(warnings, Latest(d, false), now, staleAfter, t.active != map[]),
      RuntimeLiveness(Latest(d, true), now, staleAfter, t.active != map[]),
      t.active, t.reaped, |d|, Latest(d, false), MessagesIn(warnings),
      SignalsOf(d, HandoffRequested), SignalsOf(d, PreCompact))
  }

  /**
    IDLE says: no finding still gates, the newest event is fresh, and from every point of the
    ledger on (for tools: from every point after the last turn-idle) nothing was left open.
  */
  lemma IdleSnapshotMeans(events: seq<Event>, readWarnings: seq<Warning>, now: int, staleAfter: int)
    ensures var d := Dedup(events);
            SnapshotOf(events, readWarnings, now, staleAfter).quiescence.Idle? <==>
            && (forall w :: w in readWarnings + Tally(d).unmatched ==> !w.sticky && now - w.observedAt > staleAfter)
            && Balanced(d)
            && (exists e :: e in d && 0 <= now - e.timestamp <= staleAfter)
            && (forall e :: e in d ==> e.timestamp <= now)
  {
    var d := Dedup(events);
    var warnings := readWarnings + Tally(d).unmatched;
    LatestIsMaximum(d, false);
    IdleMeansBalanced(d);
    GatingIffMember(warnings, now, staleAfter);
    FreshIffLatest(d, now, staleAfter);
    hide Tally, Balanced, Latest, Gates, Dedup;
  }

  lemma GatingIffMember(warnings: seq<Warning>, now: int, staleAfter: int)
    ensures (exists k :: 0 <= k < |warnings| && Gates(warnings[k], now, staleAfter))
       <==> !(forall w :: w in warnings ==> !w.sticky && now - w.observedAt > staleAfter)
  {
    if k :| 0 <= k < |warnings| && Gates(warnings[k], now, staleAfter) {
      assert warnings[k] in warnings;
    }
  }

  lemma FreshIffLatest(d: seq<Event>, now: int, staleAfter: int)
    ensures Latest(d, false).Some? && 0 <= now - Latest(d, false).value <= staleAfter
       <==> (exists e :: e in d && 0 <= now - e.timestamp <= staleAfter) && (forall e :: e in d ==> e.timestamp <= now)
  {
    LatestIsMaximum(d, false);
  }

  // ---------------------------------------------------------------- what a snapshot says

  /** A finding about the file, or a finish that ended nothing, still gates. */
  ghost predicate Gated(d: seq<Event>, readWarnings: seq<Warning>, now: int, staleAfter: int) {
    || (exists w :: w in readWarnings && (w.sticky || now - w.observedAt <= staleAfter))
    || (exists j: nat, kind: Kind :: EndsNothing(d, j, kind) && now - d[j].timestamp <= staleAfter)
  }

  /** Some event is fresh, and none lies in the future. */
  ghost predicate Current(d: seq<Event>, now: int, staleAfter: int) {
    && (exists e :: e in d && 0 <= now - e.timestamp <= staleAfter)
    && (forall e :: e in d ==> e.timestamp <= now)
  }

  /** A hook wrote within the interval. */
  ghost predicate HooksFresh(d: seq<Event>, now: int, staleAfter: int) {
    exists e :: e in d && FromHook(e) && now - e.timestamp <= staleAfter
  }

  /** Each field of the snapshot, in terms of the events of the ledger, each id taken once. */
  ghost predicate Means(s: Snapshot, d: seq<Event>, readWarnings: seq<Warning>, now: int, staleAfter: int) {
    && (s.quiescence.Unknown? <==> Gated(d, readWarnings, now, staleAfter) || !Current(d, now, staleAfter))
    && (s.quiescence.Idle? <==>
          !Gated(d, readWarnings, now, staleAfter) && Current(d, now, staleAfter) && NothingOpen(d))
    && (s.liveness.Reporting? <==> HooksFresh(d, now, staleAfter))
    && (s.liveness.NeverReported? <==> forall e :: e in d ==> !FromHook(e))
    && (s.liveness.SilentIdle? ==> NothingOpen(d))
    && (s.liveness.SilentActive? ==> !NothingOpen(d))
    && (forall kind: Kind, id: string :: Key(kind, id) in s.active <==> Open(d, kind, id))
    && (forall id :: id in s.reaped <==> exists j: nat :: OpenAtIdle(d, j, id))
    && s.processed == |d|
    && SignalsFrom(s.handoffSignals, d, HandoffRequested)
    && SignalsFrom(s.compactSignals, d, PreCompact)
    && (forall m :: m in s.warnings <==> Found(d, readWarnings, m))
  }

  /** A finding of the read, or about a finish that ended nothing. */
  ghost predicate Found(d: seq<Event>, readWarnings: seq<Warning>, m: Message) {
    || (exists w :: w in readWarnings && w.message == m)
    || (exists j: nat, kind: Kind :: EndsNothing(d, j, kind) && m == FinishWithoutStart(Key(kind, d[j].activity)))
  }

  lemma FoundExactly(d: seq<Event>, readWarnings: seq<Warning>, m: Message)
    ensures m in MessagesIn(readWarnings + Tally(d).unmatched) <==> Found(d, readWarnings, m)
  {
    var warnings := readWarnings + Tally(d).unmatched;
    UnmatchedEndNothing(d);
    hide Tally, Open;
    if m in MessagesIn(warnings) {
      var k :| 0 <= k < |warnings| && warnings[k].message == m;
      var w := warnings[k];
      assert w in warnings;
      if w in Tally(d).unmatched {
        var j: nat, kind: Kind :| Stamped(d, j, kind, w);
        assert EndsNothing(d, j, kind);
      }
    }
    if w :| w in readWarnings && w.message == m {
      MessageIn(warnings, w);
    }
    if j: nat, kind: Kind :| EndsNothing(d, j, kind) && m == FinishWithoutStart(Key(kind, d[j].activity)) {
      var w := Warning(m, d[j].timestamp, false);
      assert Stamped(d, j, kind, w);
      MessageIn(warnings, w);
    }
  }

  lemma MessageIn(warnings: seq<Warning>, w: Warning)
    requires w in warnings
    ensures w.message in MessagesIn(warnings)
  {
    var k :| 0 <= k < |warnings| && warnings[k] == w;
    assert MessagesIn(warnings)[k] == w.message;
  }

  lemma SnapshotMeans(events: seq<Event>, readWarnings: seq<Warning>, now: int, staleAfter: int)
    ensures Means(SnapshotOf(events, readWarnings, now, staleAfter), Dedup(events), readWarnings, now, staleAfter)
  {
    hide Found, MessagesIn, Tally, Open, NothingOpen, SignalsOf, SignalsFrom, OpenAtIdle, Settledness, RuntimeLiveness, Gated, Current, HooksFresh, Latest, Dedup;
    var d := Dedup(events);
    QuiescenceMeans(d, readWarnings, now, staleAfter);
    LivenessMeans(d, now, staleAfter);
    forall kind: Kind, id: string ensures Key(kind, id) in Tally(d).active <==> Open(d, kind, id) {
      OutstandingIsOpen(d, kind, id);
    }
    forall id ensures id in Tally(d).reaped <==> exists j: nat :: OpenAtIdle(d, j, id) {
      ReapedWereOpen(d, id);
    }
    forall m ensures m in MessagesIn(readWarnings + Tally(d).unmatched) <==> Found(d, readWarnings, m) {
      FoundExactly(d, readWarnings, m);
    }
    SignalsAreFrom(d, HandoffRequested);
    SignalsAreFrom(d, PreCompact);
  }

  lemma QuiescenceMeans(d: seq<Event>, readWarnings: seq<Warning>, now: int, staleAfter: int)
    ensures var q := Settledness(readWarnings + Tally(d).unmatched, Latest(d, false), now, staleAfter, Tally(d).active != map[]);
            && (q.Unknown? <==> Gated(d, readWarnings, now, staleAfter) || !Current(d, now, staleAfter))
            && (q.Idle? <==> !Gated(d, readWarnings, now, staleAfter) && Current(d, now, staleAfter) && NothingOpen(d))
  {
    var warnings := readWarnings + Tally(d).unmatched;
    LatestIsMaximum(d, false);
    NothingStored(d);
    GatingIffMember(warnings, now, staleAfter);
    FreshIffLatest(d, now, staleAfter);
    GatedExactly(d, readWarnings, now, staleAfter);
    hide Tally, NothingOpen, Latest, Gates, Gated;
  }

  lemma GatedExactly(d: seq<Event>, readWarnings: seq<Warning>, now: int, staleAfter: int)
    ensures Gated(d, readWarnings, now, staleAfter) <==>
            !(forall w :: w in readWarnings + Tally(d).unmatched ==> !w.sticky && now - w.observedAt > staleAfter)
  {
    UnmatchedEndNothing(d);
    hide Tally, Open;
    if j: nat, kind: Kind :| EndsNothing(d, j, kind) && now - d[j].timestamp <= staleAfter {
      var w := Warning(FinishWithoutStart(Key(kind, d[j].activity)), d[j].timestamp, false);
      assert Stamped(d, j, kind, w);
      assert w in readWarnings + Tally(d).unmatched;
    }
    if w :| w in Tally(d).unmatched && (w.sticky || now - w.observedAt <= staleAfter) {
      var j: nat, kind: Kind :| Stamped(d, j, kind, w);
      assert EndsNothing(d, j, kind) && now - d[j].timestamp <= staleAfter;
    }
  }

  lemma LivenessMeans(d: seq<Event>, now: int, staleAfter: int)
    ensures var l := RuntimeLiveness(Latest(d, true), now, staleAfter, Tally(d).active != map[]);
            && (l.Reporting? <==> HooksFresh(d, now, staleAfter))
            && (l.NeverReported? <==> forall e :: e in d ==> !FromHook(e))
            && (l.SilentIdle? ==> NothingOpen(d)) && (l.SilentActive? ==> !NothingOpen(d))
  {
    LatestIsMaximum(d, true);
    NothingStored(d);
    hide Tally, NothingOpen, Latest;
    assert forall e: Event :: FromHook(e) <==> !SupervisorAuthored(e.eventType);
  }

  /** A sticky finding keeps the snapshot at UNKNOWN whatever else was read. */
  lemma StickyGates(events: seq<Event>, readWarnings: seq<Warning>, now: int, staleAfter: int)
    requires StickyIn(readWarnings)
    ensures SnapshotOf(events, readWarnings, now, staleAfter).quiescence.Unknown?
  {
    var k :| 0 <= k < |readWarnings| && readWarnings[k].sticky;
    var warnings := readWarnings + Tally(Dedup(events)).unmatched;
    assert Gates(warnings[k], now, staleAfter);
  }

  /** Repeated deliveries of events already in the ledger leave the snapshot as it was. */
  lemma RepeatsLeaveTheSnapshot(events: seq<Event>, repeats: seq<Event>, readWarnings: seq<Warning>, now: int, staleAfter: int)
    requires Ids(repeats) <= Ids(events)
    ensures SnapshotOf(events + repeats, readWarnings, now, staleAfter) == SnapshotOf(events, readWarnings, now, staleAfter)
  {
    RepeatsChangeNothing(events, repeats);
  }

  /** Unmatched finishes are stamped with the finish's own time, so they stop gating as they age. */
  lemma {:induction false} UnmatchedAge(events: seq<Event>)
    ensures forall w :: w in Tally(events).unmatched ==> !w.sticky && exists e :: e in events && e.timestamp == w.observedAt
  {
    if events != [] {
      var n := |events| - 1;
      UnmatchedAge(events[..n]);
      assert forall e :: e in events <==> e in events[..n] || e == events[n];
    }
  }

  // ---------------------------------------------------------------- the fold as a loop

  method Fold(events: seq<Event>, readWarnings: seq<Warning>, now: int, staleAfter: int) returns (s: Snapshot)
    ensures s == SnapshotOf(events, readWarnings, now, staleAfter)
    ensures Means(s, Dedup(events), readWarnings, now, staleAfter)
  {
    SnapshotMeans(events, readWarnings, now, staleAfter);
    hide Settledness, RuntimeLiveness, Observe, Means;
    var seen: set<string> := {};
    var active: map<Key, nat> := map[];
    var reaped: set<string> := {};
    var warnings := readWarnings;
    var handoffs: seq<Signal> := [];
    var compactions: seq<Signal> := [];
    var lastEventAt: Option<int> := None;
    var lastHookEventAt: Option<int> := None;
    var processed := 0;
    ghost var kept: seq<Event> := [];
    assert warnings == readWarnings + [];
    for k := 0 to |events|
      invariant seen == Ids(events[..k]) && kept == Dedup(events[..k]) && processed == |kept|
      invariant readWarnings <= warnings
      invariant Tallied(active, reaped, warnings[|readWarnings|..]) == Tally(kept)
      invariant handoffs == SignalsOf(kept, HandoffRequested) && compactions == SignalsOf(kept, PreCompact)
      invariant lastEventAt == Latest(kept, false) && lastHookEventAt == Latest(kept, true)
    {
      var e := events[k];
      assert events[..k + 1][..k] == events[..k];
      SeenGrows(events, k);
      if e.id in seen {
        continue;
      }
      hide Ids, Tally, SignalsOf, Latest, SupervisorAuthored;
      OneMore(kept, e);
      seen := seen + {e.id};
      processed := processed + 1;
      kept := kept + [e];
      if lastEventAt.None? || e.timestamp > lastEventAt.value {
        lastEventAt := Some(e.timestamp);
      }
      if !SupervisorAuthored(e.eventType) && (lastHookEventAt.None? || e.timestamp > lastHookEventAt.value) {
        lastHookEventAt := Some(e.timestamp);
      }
      active, reaped, warnings := CountEvent(e, active, reaped, warnings, |readWarnings|);
      if e.eventType.HandoffRequested? {
        handoffs := handoffs + [Signal(e.id, e.generation, e.conversation)];
      } else if e.eventType.PreCompact? {
        compactions := compactions + [Signal(e.id, e.generation, e.conversation)];
      }
    }
    assert events[..|events|] == events;
    assert warnings == readWarnings + warnings[|readWarnings|..];
    s := Snapshot(
      Settledness(warnings, lastEventAt, now, staleAfter, active != map[]),
      RuntimeLiveness(lastHookEventAt, now, staleAfter, active != map[]),
      active, reaped, processed, lastEventAt, MessagesIn(warnings), handoffs, compactions);
  }

  /** What one more kept event does to each part of the snapshot. */
  lemma OneMore(kept: seq<Event>, e: Event)
    ensures Tally(kept + [e]) == Observe(Tally(kept), e)
    ensures forall t: EventType :: SignalsOf(kept + [e], t) ==
              if e.eventType == t then SignalsOf(kept, t) + [Signal(e.id, e.generation, e.conversation)] else SignalsOf(kept, t)
    ensures forall hooksOnly: bool :: Latest(kept + [e], hooksOnly) ==
              if (hooksOnly && SupervisorAuthored(e.eventType)) || (Latest(kept, hooksOnly).Some? && e.timestamp <= Latest(kept, hooksOnly).value)
              then Latest(kept, hooksOnly) else Some(e.timestamp)
  {
    assert (kept + [e])[..|kept|] == kept;
  }

  /** Counters, reaping and unmatched finishes for one event. */
  method CountEvent(e: Event, active: map<Key, nat>, reaped: set<string>, warnings: seq<Warning>, ghost split: nat)
    returns (active': map<Key, nat>, reaped': set<string>, warnings': seq<Warning>)
    requires split <= |warnings|
    ensures warnings <= warnings'
    ensures Tallied(active', reaped', warnings'[split..]) == Observe(Tallied(active, reaped, warnings[split..]), e)
  {
    hide Finished;
    active', reaped', warnings' := active, reaped, warnings;
    if StartOf(e.eventType).Some? {
      var key := Key(StartOf(e.eventType).value, e.activity);
      active' := active[key := Count(active, key) + 1];
    } else if FinishOf(e.eventType).Some? {
      var key := Key(FinishOf(e.eventType).value, e.activity);
      active', warnings' := Finish(active, warnings, key, e.timestamp, reaped, split);
      if e.eventType.TurnIdle? && ToolsIn(active') != {} {
        reaped' := reaped + ToolsIn(active');
        active' := WithoutTools(active');
      } else if e.eventType.TurnIdle? {
        NoToolsToReap(active');
        assert reaped + {} == reaped;
      }
    }
  }

  lemma NoToolsToReap(active: map<Key, nat>)
    requires ToolsIn(active) == {}
    ensures WithoutTools(active) == active
  {
    forall key | key in active && key.kind.Tool? ensures key.activity in ToolsIn(active) {
    }
  }

  lemma SeenGrows(events: seq<Event>, k: nat)
    requires k < |events|
    ensures Ids(events[..k + 1]) == Ids(events[..k]) + {events[k].id}
  {
    IdsConcat(events[..k], [events[k]]);
    assert events[..k + 1] == events[..k] + [events[k]];
    assert [events[k]][0].id in Ids([events[k]]);
  }

  /** One finish: a warning when nothing is open under the id, otherwise one less of it. */
  method Finish(active: map<Key, nat>, warnings: seq<Warning>, key: Key, at: int, ghost reaped: set<string>, ghost split: nat)
    returns (active': map<Key, nat>, warnings': seq<Warning>)
    requires split <= |warnings|
    ensures warnings <= warnings'
    ensures Tallied(active', reaped, warnings'[split..]) == Finished(Tallied(active, reaped, warnings[split..]), key, at)
  {
    active', warnings' := active, warnings;
    if Count(active, key) <= 0 {
      active' := active - {key};
      warnings' := warnings + [Warning(FinishWithoutStart(key), at, false)];
      assert warnings'[split..] == warnings[split..] + [Warning(FinishWithoutStart(key), at, false)];
    } else {
      active' := active[key := active[key] - 1];
      if active'[key] == 0 {
        active' := active' - {key};
        assert active' == active - {key};
      }
    }
  }

  // ---------------------------------------------------------------- the ledger object

  class EventLedger {
    const parse: string -> Parsed
    /** The file; every process may change it, this object reads and appends. */
    var disk: Option<File>
    var fileIdentity: Option<nat>
    var readOffset: nat
    var lineCount: nat
    var cachedEvents: seq<Event>
    var cachedWarnings: seq<Warning>
    /** The text already read of the file `fileIdentity`. */
    ghost var seen: string
    /** Every read of that file so far continued at a line boundary. */
    ghost var aligned: bool
    ghost var identities: set<nat>

    ghost predicate Valid()
      reads this
    {
      && readOffset == |seen|
      && (disk.Some? ==> disk.value.identity in identities)
      && (fileIdentity.Some? ==> fileIdentity.value in identities)
      && (fileIdentity.None? ==> seen == "" && aligned)
      && (disk.Some? && fileIdentity == Some(disk.value.identity) ==> seen <= disk.value.text)
      && lineCount >= 0
      && CacheOk(parse, seen, aligned, lineCount, cachedEvents, cachedWarnings)
    }

    /** Only whole lines were ever written, and only whole lines were ever read. */
    ghost predicate Orderly()
      reads this
    {
      && aligned && Whole(seen)
      && (disk.Some? ==> Whole(disk.value.text))
    }

    constructor (parse: string -> Parsed)
      ensures Valid() && Orderly() && disk.None? && this.parse == parse
    {
      this.parse := parse;
      disk, fileIdentity := None, None;
      readOffset, lineCount := 0, 0;
      cachedEvents, cachedWarnings := [], [];
      seen, aligned, identities := "", true, {};
    }

    // -------------------------------------------------------------- writers

    /** `append`: one encoded event and its newline, within both byte limits. */
    method Append(event: Event, encoded: string, newIdentity: nat) returns (r: Result<()>)
      requires Valid() && '\n' !in encoded && parse(encoded) == Good(event)
      requires newIdentity !in identities
      modifies this`disk, this`identities
      ensures Valid() && (old(Orderly()) ==> Orderly())
      ensures r.Raised? <==> |encoded| + 1 > MAX_EVENT_BYTES || TextOf(old(disk)) + |encoded| + 1 > MAX_LEDGER_BYTES
      ensures r.Raised? ==> disk == old(disk)
      ensures r.Ok? ==> disk.Some? && disk.value.text == Content(old(disk)) + encoded + "\n"
      ensures r.Ok? && old(Orderly()) ==>
                FullEvents(parse, disk.value.text) == FullEvents(parse, Content(old(disk))) + [event]
    {
      if |encoded| + 1 > MAX_EVENT_BYTES {
        return Raised(InvalidValue);
      }
      var size := if disk.Some? then |disk.value.text| else 0;
      if size + |encoded| + 1 > MAX_LEDGER_BYTES {
        return Raised(BoundExceeded);
      }
      ghost var before := Content(disk);
      AppendedEvent(before, event, encoded);
      if disk.Some? {
        disk := Some(File(disk.value.identity, disk.value.text + (encoded + "\n")));
      } else {
        disk := Some(File(newIdentity, encoded + "\n"));
        identities := identities + {newIdentity};
      }
      assert before + (encoded + "\n") == before + encoded + "\n";
      return Ok(());
    }

    lemma AppendedEvent(before: string, event: Event, encoded: string)
      requires '\n' !in encoded && parse(encoded) == Good(event)
      ensures Whole(before + (encoded + "\n"))
      ensures Whole(before) ==> FullEvents(parse, before + (encoded + "\n")) == FullEvents(parse, before) + [event]
    {
      var line := encoded + "\n";
      assert line[..|encoded|] == encoded;
      LineEndUnique(line, |encoded|);
      assert line[|encoded| + 1..] == "";
      assert LinesOf(line) == [encoded];
      assert EventsOf(parse, [encoded]) == EventsOf(parse, []) + [event] by {
        assert [encoded][..0] == [];
      }
      if Whole(before) {
        LinesConcat(before, line);
        EventsConcat(parse, LinesOf(before), [encoded]);
      }
    }

    static ghost function Content(file: Option<File>): string {
      if file.Some? then file.value.text else ""
    }

    static ghost function TextOf(file: Option<File>): nat {
      |Content(file)|
    }

    /** Another process writes at the end, possibly only part of a line. */
    method WrittenByOther(text: string)
      requires Valid() && disk.Some?
      modifies this`disk
      ensures Valid() && disk == Some(File(old(disk).value.identity, old(disk).value.text + text))
      ensures old(Orderly()) && Whole(text) ==> Orderly()
    {
      disk := Some(File(disk.value.identity, disk.value.text + text));
    }

    /** The file is deleted, or replaced by one that never existed before. */
    method ReplacedByOther(file: Option<File>)
      requires Valid() && (file.Some? ==> file.value.identity !in identities)
      modifies this`disk, this`identities
      ensures Valid() && disk == file
      ensures old(Orderly()) && Whole(Content(file)) ==> Orderly()
    {
      disk := file;
      if file.Some? {
        identities := identities + {file.value.identity};
      }
    }

    // -------------------------------------------------------------- reading

    method ResetCache()
      requires Valid()
      modifies this`fileIdentity, this`readOffset, this`lineCount, this`cachedEvents, this`cachedWarnings, this`seen, this`aligned
      ensures Valid() && seen == "" && aligned && fileIdentity.None? && readOffset == 0
    {
      fileIdentity := None;
      readOffset, lineCount := 0, 0;
      cachedEvents, cachedWarnings := [], [];
      seen, aligned := "", true;
    }

    method RecordWarning(message: Message, now: int, sticky: bool)
      modifies this`cachedWarnings
      ensures cachedWarnings == Recorded(old(cachedWarnings), message, now, sticky)
    {
      for k := 0 to |cachedWarnings|
        invariant cachedWarnings == old(cachedWarnings)
        invariant forall j :: 0 <= j < k ==> cachedWarnings[j].message != message
      {
        if cachedWarnings[k].message == message {
          cachedWarnings := cachedWarnings[k := Warning(message, now, cachedWarnings[k].sticky || sticky)];
          return;
        }
      }
      cachedWarnings := cachedWarnings + [Warning(message, now, sticky)];
      if |cachedWarnings| > MAX_RETAINED_WARNINGS {
        var transient := 0;
        while transient < |cachedWarnings| && cachedWarnings[transient].sticky
          invariant transient <= |cachedWarnings|
          invariant forall j :: 0 <= j < transient ==> cachedWarnings[j].sticky
        {
          transient := transient + 1;
        }
        assert transient == FirstTransient(cachedWarnings);
        var drop := if transient < |cachedWarnings| then transient else 0;
        cachedWarnings := cachedWarnings[..drop] + cachedWarnings[drop + 1..];
      }
    }

    /**
      `_read_events`. With whole lines only, the cache answers what parsing the whole current
      file would, until an event is beyond the cap; then a sticky warning says so.
    */
    method ReadEvents(now: int) returns (events: seq<Event>, warnings: seq<Warning>)
      requires Valid()
      modifies this`fileIdentity, this`readOffset, this`lineCount, this`cachedEvents, this`cachedWarnings, this`seen, this`aligned
      ensures Valid() && (old(Orderly()) ==> Orderly())
      ensures disk.None? ==> events == [] && warnings == []
      ensures TextOf(disk) > MAX_LEDGER_BYTES ==> events == [] && warnings == [Warning(Unreadable, now, true)]
      ensures disk.Some? && TextOf(disk) <= MAX_LEDGER_BYTES ==>
                seen == disk.value.text && events == cachedEvents && warnings == cachedWarnings
      ensures old(Orderly()) && TextOf(disk) <= MAX_LEDGER_BYTES && |FullEvents(parse, Content(disk))| <= MAX_LEDGER_EVENTS ==>
                && events == FullEvents(parse, Content(disk))
                && (|FullMessages(parse, Content(disk))| <= MAX_RETAINED_WARNINGS ==>
                      MessagesIn(warnings) == FullMessages(parse, Content(disk)))
      ensures old(Orderly()) && |FullEvents(parse, Content(disk))| > MAX_LEDGER_EVENTS ==> StickyIn(warnings)
    {
      hide CacheOk, FullEvents, FullMessages, StickyIn;
      if disk.None? {
        NothingInNoText();
        ResetCache();
        return [], [];
      }
      if |disk.value.text| > MAX_LEDGER_BYTES {
        warnings := [Warning(Unreadable, now, true)];
        OneStickyWarning(warnings);
        return [], warnings;
      }
      var reset := (fileIdentity.Some? && fileIdentity.value != disk.value.identity) || readOffset > |disk.value.text|;
      if reset {
        ResetCache();
      }
      StartsWhereItStopped();
      var tail := disk.value.text[readOffset..];
      assert disk.value.text == seen + tail;
      ghost var boundary := Whole(seen) || tail == "";
      ReadLines(tail, now);
      readOffset := |disk.value.text|;
      fileIdentity := Some(disk.value.identity);
      aligned := aligned && boundary;
      seen := disk.value.text;
      if aligned && Whole(seen) {
        CacheAnswers(parse, seen, lineCount, cachedEvents, cachedWarnings);
      }
      return cachedEvents, cachedWarnings;
    }

    lemma NothingInNoText()
      ensures FullEvents(parse, "") == [] && FullMessages(parse, "") == []
    {
    }

    lemma OneStickyWarning(warnings: seq<Warning>)
      requires |warnings| == 1 && warnings[0].sticky
      ensures StickyIn(warnings)
    {
    }

    /** What is cached is a prefix of the file being read. */
    lemma StartsWhereItStopped()
      requires Valid() && disk.Some?
      requires fileIdentity.None? || fileIdentity.value == disk.value.identity
      ensures readOffset <= |disk.value.text| && disk.value.text[..readOffset] == seen
    {
    }

    method ReadLines(tail: string, now: int)
      requires CacheOk(parse, seen, aligned, lineCount, cachedEvents, cachedWarnings)
      modifies this`lineCount, this`cachedEvents, this`cachedWarnings
      ensures CacheOk(parse, seen + tail, aligned && (Whole(seen) || tail == ""), lineCount, cachedEvents, cachedWarnings)
    {
      hide CacheOk, EventsOf, MessagesOf, StickyIn, Roomy, Recorded, LinesOf;
      var lines := Split(tail);
      ghost var (events, warnings) := (cachedEvents, cachedWarnings);
      CacheBounded(parse, seen, aligned, lineCount, events, warnings);
      NotePartialLine(tail, now);
      ghost var kept := cachedWarnings;
      var i := 0;
      var truncated := false;
      NoLinesYet(lines, kept);
      while i < |lines| && !truncated
        invariant i <= |lines| && lineCount == old(lineCount)
        invariant cachedEvents == events + EventsOf(parse, lines[..i])
        invariant Bounded(cachedEvents, cachedWarnings)
        invariant truncated ==> |cachedEvents| > MAX_LEDGER_EVENTS
        invariant Roomy(parse, lines, lineCount, kept) && !truncated ==>
                    MessagesIn(cachedWarnings) == MessagesIn(kept) + MessagesOf(parse, lines[..i], lineCount)
      {
        truncated := ReadLine(i, now, lines, events, kept);
        i := i + 1;
      }
      assert i == |lines| ==> lines[..i] == lines;
      CacheExtends(parse, seen, tail, aligned, lineCount, events, warnings, kept, i, cachedEvents, cachedWarnings);
      lineCount := lineCount + |lines|;
    }

    lemma NoLinesYet(lines: seq<string>, kept: seq<Warning>)
      ensures EventsOf(parse, lines[..0]) == [] && MessagesOf(parse, lines[..0], lineCount) == []
    {
    }

    method NotePartialLine(tail: string, now: int)
      requires Bounded(cachedEvents, cachedWarnings)
      modifies this`cachedWarnings
      ensures Bounded(cachedEvents, cachedWarnings)
      ensures Whole(tail) ==> cachedWarnings == old(cachedWarnings)
    {
      hide StickyIn, Recorded;
      if tail != "" && tail[|tail| - 1] != '\n' {
        if StickyIn(cachedWarnings) {
          RecordedKeepsSticky(cachedWarnings, PartialFinalLine, now, false);
        }
        RecordedStaysBounded(cachedWarnings, PartialFinalLine, now, false);
        RecordWarning(PartialFinalLine, now, false);
      }
    }

    /** One line: blank, a finding, or an event; true when the event cap was passed. */
    method ReadLine(i: nat, now: int, lines: seq<string>, ghost events: seq<Event>, ghost kept: seq<Warning>) returns (truncated: bool)
      requires i < |lines|
      requires cachedEvents == events + EventsOf(parse, lines[..i])
      requires Bounded(cachedEvents, cachedWarnings)
      requires Roomy(parse, lines, lineCount, kept) ==>
                 MessagesIn(cachedWarnings) == MessagesIn(kept) + MessagesOf(parse, lines[..i], lineCount)
      modifies this`cachedEvents, this`cachedWarnings
      ensures cachedEvents == events + EventsOf(parse, lines[..i + 1])
      ensures Bounded(cachedEvents, cachedWarnings)
      ensures truncated ==> |cachedEvents| > MAX_LEDGER_EVENTS
      ensures Roomy(parse, lines, lineCount, kept) && !truncated ==>
                MessagesIn(cachedWarnings) == MessagesIn(kept) + MessagesOf(parse, lines[..i + 1], lineCount)
    {
      hide StickyIn, Recorded, Roomy;
      var line := lines[i];
      assert lines[..i + 1][..i] == lines[..i];
      if parse(line).Blank? {
        return false;
      }
      if parse(line).NotJson? {
        NoteLine(InvalidJson(lineCount + i + 1), i, now, lines, kept);
        return false;
      }
      if parse(line).Good? {
        cachedEvents := cachedEvents + [parse(line).event];
      } else {
        NoteLine(InvalidEvent(lineCount + i + 1), i, now, lines, kept);
      }
      if |cachedEvents| > MAX_LEDGER_EVENTS {
        RecordedKeepsSticky(cachedWarnings, TooManyEvents, now, true);
        RecordedStaysBounded(cachedWarnings, TooManyEvents, now, true);
        RecordWarning(TooManyEvents, now, true);
        return true;
      }
      return false;
    }

    /** A finding about line `i` is new, because every earlier one names an earlier line. */
    method NoteLine(message: Message, i: nat, now: int, ghost lines: seq<string>, ghost kept: seq<Warning>)
      requires i < |lines|
      requires || (message == InvalidJson(lineCount + i + 1) && parse(lines[i]).NotJson?)
               || (message == InvalidEvent(lineCount + i + 1) && parse(lines[i]).NotEvent?)
      requires |cachedWarnings| <= MAX_RETAINED_WARNINGS
      requires Roomy(parse, lines, lineCount, kept) ==> MessagesIn(cachedWarnings) == MessagesIn(kept) + MessagesOf(parse, lines[..i], lineCount)
      modifies this`cachedWarnings
      ensures |cachedWarnings| <= MAX_RETAINED_WARNINGS
      ensures old(StickyIn(cachedWarnings)) ==> StickyIn(cachedWarnings)
      ensures Roomy(parse, lines, lineCount, kept) ==> MessagesIn(cachedWarnings) == MessagesIn(kept) + MessagesOf(parse, lines[..i + 1], lineCount)
    {
      hide Recorded;
      assert lines[..i + 1][..i] == lines[..i];
      if StickyIn(cachedWarnings) {
        RecordedKeepsSticky(cachedWarnings, message, now, false);
      }
      RecordedStaysBounded(cachedWarnings, message, now, false);
      if Roomy(parse, lines, lineCount, kept) {
        MessagesAboutLines(parse, lines[..i], lineCount);
        MessagesPrefixShorter(parse, lines, lineCount, i + 1);
        assert |MessagesOf(parse, lines[..i + 1], lineCount)| == |MessagesOf(parse, lines[..i], lineCount)| + 1;
        assert message !in MessagesIn(kept) && message !in MessagesOf(parse, lines[..i], lineCount);
        assert |MessagesIn(cachedWarnings)| == |cachedWarnings|;
        RecordedNew(cachedWarnings, message, now, false);
      }
      RecordWarning(message, now, false);
    }

    /** `materialize`. */
    method Materialize(now: int, staleAfter: int) returns (s: Snapshot, ghost events: seq<Event>, ghost warnings: seq<Warning>)
      requires Valid()
      modifies this`fileIdentity, this`readOffset, this`lineCount, this`cachedEvents, this`cachedWarnings, this`seen, this`aligned
      ensures Valid() && (old(Orderly()) ==> Orderly())
      ensures s == SnapshotOf(events, warnings, now, staleAfter)
      ensures Means(s, Dedup(events), warnings, now, staleAfter)
      ensures old(Orderly()) && TextOf(disk) <= MAX_LEDGER_BYTES && |FullEvents(parse, Content(disk))| <= MAX_LEDGER_EVENTS
              && |FullMessages(parse, Content(disk))| <= MAX_RETAINED_WARNINGS ==>
                MessagesIn(warnings) == FullMessages(parse, Content(disk))
      ensures disk.None? ==> s.quiescence.Unknown? && s.liveness.NeverReported?
      ensures old(Orderly()) && TextOf(disk) <= MAX_LEDGER_BYTES && |FullEvents(parse, Content(disk))| <= MAX_LEDGER_EVENTS ==>
                events == FullEvents(parse, Content(disk))
      ensures TextOf(disk) > MAX_LEDGER_BYTES ==> s.quiescence.Unknown?
      ensures old(Orderly()) && |FullEvents(parse, Content(disk))| > MAX_LEDGER_EVENTS ==> s.quiescence.Unknown?
    {
      hide FullEvents, FullMessages, Tally, Dedup, Means;
      var readEvents, readWarnings := ReadEvents(now);
      s := Fold(readEvents, readWarnings, now, staleAfter);
      events, warnings := readEvents, readWarnings;
      if StickyIn(readWarnings) {
        StickyGates(readEvents, readWarnings, now, staleAfter);
      }
      if TextOf(disk) > MAX_LEDGER_BYTES {
        assert readWarnings[0].sticky;
      }
      if disk.None? {
        EmptyLedger(now, staleAfter);
      }
    }

    lemma EmptyLedger(now: int, staleAfter: int)
      ensures SnapshotOf([], [], now, staleAfter).quiescence.Unknown? && SnapshotOf([], [], now, staleAfter).liveness.NeverReported?
    {
    }
  }

  /** `str.splitlines` on text whose only line separator is the newline. */
  method Split(text: string) returns (lines: seq<string>)
    ensures lines == LinesOf(text)
  {
    lines := [];
    var rest := text;
    while rest != ""
      invariant lines + LinesOf(rest) == LinesOf(text)
      decreases |rest|
    {
      var end := LineEnd(rest);
      if end == |rest| {
        lines := lines + [rest];
        rest := "";
      } else {
        assert lines + ([rest[..end]] + LinesOf(rest[end + 1..])) == (lines + [rest[..end]]) + LinesOf(rest[end + 1..]);
        lines := lines + [rest[..end]];
        rest := rest[end + 1..];
      }
    }
  }

  /** Never more findings than the cap, and a sticky one once an event was left out. */
  ghost predicate Bounded(events: seq<Event>, warnings: seq<Warning>) {
    && |warnings| <= MAX_RETAINED_WARNINGS
    && (|events| > MAX_LEDGER_EVENTS ==> StickyIn(warnings))
  }

  /** What the cache says about the text read so far. */
  ghost predicate CacheOk(parse: string -> Parsed, seen: string, aligned: bool, lineCount: nat,
                          events: seq<Event>, warnings: seq<Warning>)
  {
    && Bounded(events, warnings)
    && (aligned ==> |events| <= |FullEvents(parse, seen)|)
    && (aligned && |events| <= MAX_LEDGER_EVENTS ==>
          && lineCount == |LinesOf(seen)|
          && events == FullEvents(parse, seen)
          && (Whole(seen) && |FullMessages(parse, seen)| <= MAX_RETAINED_WARNINGS ==>
                MessagesIn(warnings) == FullMessages(parse, seen)))
  }

  lemma CacheBounded(parse: string -> Parsed, seen: string, aligned: bool, lineCount: nat, events: seq<Event>, warnings: seq<Warning>)
    requires CacheOk(parse, seen, aligned, lineCount, events, warnings)
    ensures Bounded(events, warnings)
  {
  }

  /** What an aligned cache of whole lines answers. */
  lemma CacheAnswers(parse: string -> Parsed, text: string, lineCount: nat, events: seq<Event>, warnings: seq<Warning>)
    requires CacheOk(parse, text, true, lineCount, events, warnings) && Whole(text)
    ensures |FullEvents(parse, text)| <= MAX_LEDGER_EVENTS ==>
              && events == FullEvents(parse, text)
              && (|FullMessages(parse, text)| <= MAX_RETAINED_WARNINGS ==> MessagesIn(warnings) == FullMessages(parse, text))
    ensures |FullEvents(parse, text)| > MAX_LEDGER_EVENTS ==> StickyIn(warnings)
  {
    hide FullEvents, FullMessages, StickyIn, LinesOf;
  }

  /** The retained findings name earlier lines, and these lines' findings fit beside them. */
  ghost predicate Roomy(parse: string -> Parsed, lines: seq<string>, base: nat, kept: seq<Warning>) {
    && AboutLines(MessagesIn(kept), 0, base)
    && |kept| + |MessagesOf(parse, lines, base)| <= MAX_RETAINED_WARNINGS
  }

  lemma CacheExtends(parse: string -> Parsed, seen: string, tail: string, aligned: bool, lineCount: nat,
                     events: seq<Event>, warnings: seq<Warning>, kept: seq<Warning>, i: nat,
                     events': seq<Event>, warnings': seq<Warning>)
    requires CacheOk(parse, seen, aligned, lineCount, events, warnings)
    requires i <= |LinesOf(tail)| && events' == events + EventsOf(parse, LinesOf(tail)[..i])
    requires |events'| <= MAX_LEDGER_EVENTS ==> i == |LinesOf(tail)|
    requires Bounded(events', warnings')
    requires Whole(tail) ==> kept == warnings
    requires Roomy(parse, LinesOf(tail), lineCount, kept) && |events'| <= MAX_LEDGER_EVENTS ==>
               MessagesIn(warnings') == MessagesIn(kept) + MessagesOf(parse, LinesOf(tail), lineCount)
    ensures CacheOk(parse, seen + tail, aligned && (Whole(seen) || tail == ""), lineCount + |LinesOf(tail)|, events', warnings')
  {
    hide LinesOf, EventsOf, MessagesOf, Roomy, StickyIn;
    var lines := LinesOf(tail);
    if aligned && (Whole(seen) || tail == "") {
      LinesTogether(seen, tail);
      EventsConcat(parse, LinesOf(seen), lines);
      MessagesPrefixShorter(parse, lines, 0, i);
      if |events'| <= MAX_LEDGER_EVENTS {
        assert lines[..i] == lines;
        CacheMessages(parse, seen, lines, lineCount, kept, MessagesIn(warnings'));
        assert Whole(seen + tail) ==> Whole(tail) && Whole(seen);
      }
    }
  }

  lemma LinesTogether(seen: string, tail: string)
    requires Whole(seen) || tail == ""
    ensures LinesOf(seen + tail) == LinesOf(seen) + LinesOf(tail)
    ensures Whole(seen + tail) ==> Whole(tail) && Whole(seen)
  {
    if tail == "" {
      assert seen + tail == seen;
    } else {
      LinesConcat(seen, tail);
    }
  }

  lemma CacheMessages(parse: string -> Parsed, seen: string, lines: seq<string>, base: nat, kept: seq<Warning>, messages: seq<Message>)
    requires base == |LinesOf(seen)|
    requires Roomy(parse, lines, base, kept) ==> messages == MessagesIn(kept) + MessagesOf(parse, lines, base)
    ensures var whole := MessagesOf(parse, LinesOf(seen) + lines, 0);
            && |FullMessages(parse, seen)| <= |whole|
            && (MessagesIn(kept) == FullMessages(parse, seen) && |whole| <= MAX_RETAINED_WARNINGS ==> messages == whole)
  {
    MessagesConcat(parse, LinesOf(seen), lines, 0);
    MessagesAboutLines(parse, LinesOf(seen), 0);
    assert |MessagesIn(kept)| == |kept|;
  }
}
