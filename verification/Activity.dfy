/**
  The activity fold of src/agent_session_harness/ledger.py: de-duplication by event id,
  counters clamped at zero, and the reaping of tools when a turn goes idle, together with
  the closed form the fold computes.
 */
module Activity {
  import opened Options

  datatype EventType =
    | SessionStarted | SessionEnded
    | TurnStarted | TurnIdle
    | ToolStarted | ToolFinished | ToolFailed
    | SubagentStarted | SubagentFinished
    | PreCompact | Compacted
    | CriticalEntered | CriticalExited
    | HandoffRequested | HandoffCheckpointed | HandoffFenced | HandoffAcknowledged

  /** `activity` is "" when the event carries no activity id. */
  datatype Event = Event(id: string, generation: nat, conversation: string, eventType: EventType,
                         timestamp: int, activity: string)

  datatype Kind = Turn | Tool | Subagent | Critical

  datatype Key = Key(kind: Kind, activity: string)

  datatype Message =
    | PartialFinalLine
    | InvalidJson(line: nat)
    | InvalidEvent(line: nat)
    | TooManyEvents
    | Unreadable
    | FinishWithoutStart(key: Key)

  datatype Warning = Warning(message: Message, observedAt: int, sticky: bool)

  datatype Signal = Signal(id: string, generation: nat, conversation: string)

  function StartOf(t: EventType): Option<Kind> {
    match t
    case TurnStarted => Some(Turn)
    case ToolStarted => Some(Tool)
    case SubagentStarted => Some(Subagent)
    case CriticalEntered => Some(Critical)
    case _ => None
  }

  function FinishOf(t: EventType): Option<Kind> {
    match t
    case TurnIdle => Some(Turn)
    case ToolFinished => Some(Tool)
    case ToolFailed => Some(Tool)
    case SubagentFinished => Some(Subagent)
    case CriticalExited => Some(Critical)
    case _ => None
  }

  predicate SupervisorAuthored(t: EventType) {
    t.HandoffCheckpointed? || t.HandoffAcknowledged? || t.HandoffFenced?
  }

  // ---------------------------------------------------------------- de-duplication

  function Ids(events: seq<Event>): set<string> {
    set k | 0 <= k < |events| :: events[k].id
  }

  /** First occurrences, in order. */
  function Dedup(events: seq<Event>): seq<Event> {
    if events == [] then []
    else
      var n := |events| - 1;
      if events[n].id in Ids(events[..n]) then Dedup(events[..n]) else Dedup(events[..n]) + [events[n]]
  }

  lemma IdsConcat(s: seq<Event>, t: seq<Event>)
    ensures Ids(s + t) == Ids(s) + Ids(t)
  {
    forall id | id in Ids(s) + Ids(t) ensures id in Ids(s + t) {
      if id in Ids(s) {
        var k :| 0 <= k < |s| && s[k].id == id;
        assert (s + t)[k].id == id;
      } else {
        var k :| 0 <= k < |t| && t[k].id == id;
        assert (s + t)[|s| + k].id == id;
      }
    }
  }

  /** De-duplication keeps every id exactly once. */
  lemma {:induction false} DedupKeepsIds(events: seq<Event>)
    ensures Ids(Dedup(events)) == Ids(events)
    ensures forall i, j :: 0 <= i < j < |Dedup(events)| ==> Dedup(events)[i].id != Dedup(events)[j].id
    ensures forall e :: e in Dedup(events) ==> e in events
  {
    if events != [] {
      var n := |events| - 1;
      DedupKeepsIds(events[..n]);
      IdsConcat(events[..n], [events[n]]);
      IdsConcat(Dedup(events[..n]), [events[n]]);
      assert events == events[..n] + [events[n]];
      assert Ids([events[n]]) == {events[n].id} by {
        assert [events[n]][0].id in Ids([events[n]]);
      }
      forall i | 0 <= i < |Dedup(events[..n])| ensures Dedup(events[..n])[i].id in Ids(events[..n]) {
        assert Dedup(events[..n])[i].id in Ids(Dedup(events[..n]));
      }
    }
  }

  /** Re-appending events whose ids were all seen changes nothing the fold looks at. */
  lemma {:induction false} RepeatsChangeNothing(events: seq<Event>, repeats: seq<Event>)
    requires Ids(repeats) <= Ids(events)
    ensures Dedup(events + repeats) == Dedup(events)
  {
    if repeats == [] {
      assert events + repeats == events;
    } else {
      var n := |repeats| - 1;
      assert (events + repeats)[..|events| + n] == events + repeats[..n];
      assert repeats[n].id in Ids(repeats);
      assert repeats == repeats[..n] + [repeats[n]];
      IdsConcat(repeats[..n], [repeats[n]]);
      IdsConcat(events, repeats[..n]);
      RepeatsChangeNothing(events, repeats[..n]);
    }
  }

  /** More events only extend what was kept. */
  lemma {:induction false} DedupGrows(events: seq<Event>, more: seq<Event>)
    ensures Dedup(events) <= Dedup(events + more)
  {
    if more == [] {
      assert events + more == events;
    } else {
      var n := |more| - 1;
      assert (events + more)[..|events| + n] == events + more[..n];
      DedupGrows(events, more[..n]);
    }
  }

  // ---------------------------------------------------------------- the fold

  datatype Tallied = Tallied(active: map<Key, nat>, reaped: set<string>, unmatched: seq<Warning>)

  function Count(active: map<Key, nat>, key: Key): nat {
    if key in active then active[key] else 0
  }

  function ToolsIn(active: map<Key, nat>): set<string> {
    set key | key in active && key.kind.Tool? :: key.activity
  }

  function WithoutTools(active: map<Key, nat>): map<Key, nat> {
    map key | key in active && !key.kind.Tool? :: active[key]
  }

  function Started(t: Tallied, key: Key): Tallied {
    t.(active := t.active[key := Count(t.active, key) + 1])
  }

  function Finished(t: Tallied, key: Key, at: int): Tallied {
    if Count(t.active, key) <= 0 then t.(active := t.active - {key}, unmatched := t.unmatched + [Warning(FinishWithoutStart(key), at, false)])
    else if Count(t.active, key) == 1 then t.(active := t.active - {key})
    else t.(active := t.active[key := Count(t.active, key) - 1])
  }

  function Reaped(t: Tallied): Tallied {
    t.(reaped := t.reaped + ToolsIn(t.active), active := WithoutTools(t.active))
  }

  function Tally(events: seq<Event>): Tallied {
    if events == [] then Tallied(map[], {}, [])
    else
      var n := |events| - 1;
      Observe(Tally(events[..n]), events[n])
  }

  function Observe(t: Tallied, e: Event): Tallied {
    if StartOf(e.eventType).Some? then Started(t, Key(StartOf(e.eventType).value, e.activity))
    else if FinishOf(e.eventType).Some? then
      var finished := Finished(t, Key(FinishOf(e.eventType).value, e.activity), e.timestamp);
      if e.eventType.TurnIdle? then Reaped(finished) else finished
    else t
  }

  // ---------------------------------------------------------------- clamped counters

  /** A counter that stays at zero: the final value, and the decrements it ignored. */
  function Clamp(deltas: seq<int>): (r: (nat, nat)) {
    if deltas == [] then (0, 0)
    else
      var (count, ignored) := Clamp(deltas[..|deltas| - 1]);
      var d := deltas[|deltas| - 1];
      if count + d < 0 then (0, ignored - (count + d)) else (count + d, ignored)
  }

  function Sum(deltas: seq<int>): int {
    if deltas == [] then 0 else Sum(deltas[..|deltas| - 1]) + deltas[|deltas| - 1]
  }

  lemma {:induction false} SumConcat(s: seq<int>, t: seq<int>)
    ensures Sum(s + t) == Sum(s) + Sum(t)
  {
    if t == [] {
      assert s + t == s;
    } else {
      assert (s + t)[..|s + t| - 1] == s + t[..|t| - 1];
      SumConcat(s, t[..|t| - 1]);
    }
  }

  lemma {:induction false} ClampBalances(deltas: seq<int>)
    ensures Clamp(deltas).0 - Clamp(deltas).1 == Sum(deltas)
  {
    if deltas != [] {
      ClampBalances(deltas[..|deltas| - 1]);
    }
  }

  /** The value is the largest suffix sum. */
  lemma {:induction false} ClampIsMaxSuffix(deltas: seq<int>)
    ensures forall k :: 0 <= k <= |deltas| ==> Sum(deltas[k..]) <= Clamp(deltas).0
    ensures exists k :: 0 <= k <= |deltas| && Sum(deltas[k..]) == Clamp(deltas).0
  {
    if deltas == [] {
      assert Sum(deltas[0..]) == 0;
    } else {
      var n := |deltas| - 1;
      var before := deltas[..n];
      ClampIsMaxSuffix(before);
      forall k | 0 <= k <= n ensures Sum(deltas[k..]) == Sum(before[k..]) + deltas[n] {
        assert deltas[k..][..n - k] == before[k..];
      }
      assert Sum(deltas[n + 1..]) == 0;
      var best :| 0 <= best <= n && Sum(before[best..]) == Clamp(before).0;
      assert Sum(deltas[best..]) == Clamp(before).0 + deltas[n];
    }
  }

  /** What was ignored is the largest negated prefix sum. */
  lemma {:induction false} ClampIsMaxPrefix(deltas: seq<int>)
    ensures forall k :: 0 <= k <= |deltas| ==> -Sum(deltas[..k]) <= Clamp(deltas).1
    ensures exists k :: 0 <= k <= |deltas| && -Sum(deltas[..k]) == Clamp(deltas).1
  {
    if deltas == [] {
      assert Sum(deltas[..0]) == 0;
    } else {
      var n := |deltas| - 1;
      var before := deltas[..n];
      ClampIsMaxPrefix(before);
      ClampBalances(before);
      forall k | 0 <= k <= n ensures deltas[..k] == before[..k] {
      }
      assert deltas[..n + 1] == deltas;
      var worst :| 0 <= worst <= n && -Sum(before[..worst]) == Clamp(before).1;
      assert -Sum(deltas[..worst]) == Clamp(before).1;
      assert Sum(deltas[..n + 1]) == Sum(before) + deltas[n];
    }
  }

  // ---------------------------------------------------------------- closed form

  function Delta(e: Event, key: Key): int {
    if StartOf(e.eventType) == Some(key.kind) && e.activity == key.activity then 1
    else if FinishOf(e.eventType) == Some(key.kind) && e.activity == key.activity then -1
    else 0
  }

  function Deltas(events: seq<Event>, key: Key): seq<int> {
    seq(|events|, k requires 0 <= k < |events| => Delta(events[k], key))
  }

  /** Starts minus finishes. */
  function Net(events: seq<Event>, key: Key): int {
    Sum(Deltas(events, key))
  }

  /** One past the last turn-idle, or 0. */
  function AfterLastIdle(events: seq<Event>): (r: nat)
    ensures r <= |events|
  {
    if events == [] then 0
    else if events[|events| - 1].eventType.TurnIdle? then |events|
    else AfterLastIdle(events[..|events| - 1])
  }

  /** Tools count from the last turn-idle on; everything else from the beginning. */
  function From(events: seq<Event>, kind: Kind): (r: nat)
    ensures r <= |events|
  {
    if kind.Tool? then AfterLastIdle(events) else 0
  }

  /** The events that can still matter for a kind. */
  function Segment(events: seq<Event>, kind: Kind): seq<Event> {
    events[From(events, kind)..]
  }

  function UnmatchedOf(warnings: seq<Warning>, key: Key): nat {
    if warnings == [] then 0
    else UnmatchedOf(warnings[..|warnings| - 1], key)
         + if warnings[|warnings| - 1].message == FinishWithoutStart(key) then 1 else 0
  }

  lemma DeltasPush(events: seq<Event>, from: nat, key: Key)
    requires from < |events|
    ensures Deltas(events[from..], key)
         == Deltas(events[..|events| - 1][from..], key) + [Delta(events[|events| - 1], key)]
  {
  }

  lemma UnmatchedPush(warnings: seq<Warning>, w: Warning, key: Key)
    ensures UnmatchedOf(warnings + [w], key) == UnmatchedOf(warnings, key) + if w.message == FinishWithoutStart(key) then 1 else 0
  {
    assert (warnings + [w])[..|warnings|] == warnings;
  }

  /** Stored counts are never zero. */
  ghost predicate Positive(active: map<Key, nat>) {
    forall key :: key in active ==> active[key] > 0
  }

  lemma {:induction false} StoredCountsArePositive(events: seq<Event>)
    ensures Positive(Tally(events).active)
  {
    if events != [] {
      StoredCountsArePositive(events[..|events| - 1]);
    }
  }

  /** One observed event moves one clamped counter. */
  lemma ObserveMoves(t: Tallied, e: Event, key: Key)
    ensures var (c, d) := (Count(t.active, key), Delta(e, key));
            var after := Observe(t, e);
            && Count(after.active, key) == (if key.kind.Tool? && e.eventType.TurnIdle? then 0 else if c + d < 0 then 0 else c + d)
            && UnmatchedOf(after.unmatched, key) == UnmatchedOf(t.unmatched, key) + if c + d < 0 then 1 else 0
  {
    if FinishOf(e.eventType).Some? {
      UnmatchedPush(t.unmatched, Warning(FinishWithoutStart(Key(FinishOf(e.eventType).value, e.activity)), e.timestamp, false), key);
    }
  }

  /** The fold runs one clamped counter per kind and id. */
  lemma {:induction false} TallyIsClamp(events: seq<Event>, key: Key)
    ensures var lo := From(events, key.kind);
            var (count, ignored) := Clamp(Deltas(events[lo..], key));
            && Count(Tally(events).active, key) == count
            && UnmatchedOf(Tally(events).unmatched, key) == UnmatchedOf(Tally(events[..lo]).unmatched, key) + ignored
  {
    var lo := From(events, key.kind);
    if lo == |events| {
      assert events[lo..] == [] && events[..lo] == events;
      if events != [] {
        ObserveMoves(Tally(events[..lo - 1]), events[lo - 1], key);
      }
    } else {
      var n := |events| - 1;
      hide Observe, Delta, Deltas, UnmatchedOf, Sum;
      TallyIsClamp(events[..n], key);
      DeltasPush(events, lo, key);
      var deltas := Deltas(events[lo..], key);
      assert deltas[..|deltas| - 1] == Deltas(events[..n][lo..], key);
      assert events[..n][..lo] == events[..lo];
      assert deltas != [];
      ObserveMoves(Tally(events[..n]), events[n], key);
    }
  }

  lemma SuffixNets(segment: seq<Event>, key: Key)
    ensures forall k :: 0 <= k <= |segment| ==> Net(segment[k..], key) <= Clamp(Deltas(segment, key)).0
    ensures exists k :: 0 <= k <= |segment| && Net(segment[k..], key) == Clamp(Deltas(segment, key)).0
  {
    hide Clamp, Sum, Delta;
    var deltas := Deltas(segment, key);
    ClampIsMaxSuffix(deltas);
    forall k | 0 <= k <= |segment| ensures Net(segment[k..], key) == Sum(deltas[k..]) {
      assert Deltas(segment[k..], key) == deltas[k..];
    }
    var best :| 0 <= best <= |deltas| && Sum(deltas[best..]) == Clamp(deltas).0;
    assert Net(segment[best..], key) == Clamp(deltas).0;
  }

  /**
    The outstanding count of an id is the largest starts-minus-finishes over the suffixes (for
    tools, over the suffixes of what follows the last turn-idle).
  */
  lemma OutstandingIsMaxSuffix(events: seq<Event>, key: Key)
    ensures var (segment, count) := (Segment(events, key.kind), Count(Tally(events).active, key));
            && (forall k :: 0 <= k <= |segment| ==> Net(segment[k..], key) <= count)
            && (exists k :: 0 <= k <= |segment| && Net(segment[k..], key) == count)
  {
    hide Tally, Clamp, From, Net, Count, Deltas;
    var segment := Segment(events, key.kind);
    TallyIsClamp(events, key);
    SuffixNets(segment, key);
    var best :| 0 <= best <= |segment| && Net(segment[best..], key) == Clamp(Deltas(segment, key)).0;
  }

  lemma PrefixDeficits(segment: seq<Event>, key: Key)
    ensures forall k :: 0 <= k <= |segment| ==> -Net(segment[..k], key) <= Clamp(Deltas(segment, key)).1
    ensures exists k :: 0 <= k <= |segment| && -Net(segment[..k], key) == Clamp(Deltas(segment, key)).1
    ensures Clamp(Deltas(segment, key)).0 - Clamp(Deltas(segment, key)).1 == Net(segment, key)
  {
    hide Clamp, Sum, Delta;
    var deltas := Deltas(segment, key);
    ClampIsMaxPrefix(deltas);
    ClampBalances(deltas);
    forall k | 0 <= k <= |segment| ensures Net(segment[..k], key) == Sum(deltas[..k]) {
      assert Deltas(segment[..k], key) == deltas[..k];
    }
    var worst :| 0 <= worst <= |deltas| && -Sum(deltas[..worst]) == Clamp(deltas).1;
    assert -Net(segment[..worst], key) == Clamp(deltas).1;
  }

  /** Unmatched-finish warnings are the deficit: the largest finishes-minus-starts over the prefixes. */
  lemma UnmatchedIsMaxDeficit(events: seq<Event>, key: Key)
    ensures var lo := From(events, key.kind);
            var segment := Segment(events, key.kind);
            var unmatched := UnmatchedOf(Tally(events).unmatched, key) - UnmatchedOf(Tally(events[..lo]).unmatched, key);
            && (forall k :: 0 <= k <= |segment| ==> -Net(segment[..k], key) <= unmatched)
            && (exists k :: 0 <= k <= |segment| && -Net(segment[..k], key) == unmatched)
            && Count(Tally(events).active, key) - unmatched == Net(segment, key)
  {
    hide Tally, Clamp, From, Net, UnmatchedOf, Count, Deltas;
    TallyIsClamp(events, key);
    PrefixDeficits(Segment(events, key.kind), key);
  }

  /** The largest finishes-minus-starts over the prefixes. */
  function Deficit(segment: seq<Event>, key: Key): int {
    if segment == [] then 0
    else
      var before := Deficit(segment[..|segment| - 1], key);
      if -Net(segment, key) > before then -Net(segment, key) else before
  }

  lemma {:induction false} DeficitIsMax(segment: seq<Event>, key: Key)
    ensures forall k :: 0 <= k <= |segment| ==> -Net(segment[..k], key) <= Deficit(segment, key)
    ensures exists k :: 0 <= k <= |segment| && -Net(segment[..k], key) == Deficit(segment, key)
  {
    if segment == [] {
      assert segment[..0] == [] && Deltas([], key) == [];
      assert -Net(segment[..0], key) == 0;
    } else {
      hide Net;
      var n := |segment| - 1;
      DeficitIsMax(segment[..n], key);
      assert segment[..n + 1] == segment;
      forall k | 0 <= k <= n ensures segment[..n][..k] == segment[..k] {
      }
      var worst :| 0 <= worst <= n && -Net(segment[..n][..worst], key) == Deficit(segment[..n], key);
      assert -Net(segment[..worst], key) == Deficit(segment[..n], key);
    }
  }

  /** The deficits of a ledger: of the whole of it, or for tools the sum over the stretches between turn-idles. */
  function Deficits(events: seq<Event>, key: Key): int
    decreases |events|
  {
    if !key.kind.Tool? then Deficit(events, key)
    else
      var lo := AfterLastIdle(events);
      Deficit(events[lo..], key) + if lo == 0 then 0 else Deficits(events[..lo - 1], key)
  }

  lemma {:induction false} LastIdleIsIdle(events: seq<Event>)
    ensures AfterLastIdle(events) > 0 ==> events[AfterLastIdle(events) - 1].eventType.TurnIdle?
  {
    if events != [] && !events[|events| - 1].eventType.TurnIdle? {
      LastIdleIsIdle(events[..|events| - 1]);
    }
  }

  /** All the unmatched finishes of an id, over the whole ledger. */
  lemma {:induction false} UnmatchedInAll(events: seq<Event>, key: Key)
    ensures UnmatchedOf(Tally(events).unmatched, key) == Deficits(events, key)
    decreases |events|
  {
    var lo := From(events, key.kind);
    SegmentDeficit(events, key);
    assert events[0..] == events && events[..0] == [];
    if lo > 0 {
      LastIdleIsIdle(events);
      assert events[..lo][..lo - 1] == events[..lo - 1];
      hide Observe, Deficit, Delta, UnmatchedOf;
      ObserveMoves(Tally(events[..lo - 1]), events[lo - 1], key);
      IdleMovesNoTool(events[lo - 1], key);
      UnmatchedInAll(events[..lo - 1], key);
    }
  }

  lemma IdleMovesNoTool(e: Event, key: Key)
    requires e.eventType.TurnIdle? && key.kind.Tool?
    ensures Delta(e, key) == 0
  {
  }

  lemma SegmentDeficit(events: seq<Event>, key: Key)
    ensures UnmatchedOf(Tally(events).unmatched, key)
         == UnmatchedOf(Tally(events[..From(events, key.kind)]).unmatched, key) + Deficit(Segment(events, key.kind), key)
  {
    hide Tally, From, Net, UnmatchedOf, Deficit;
    var segment := Segment(events, key.kind);
    UnmatchedIsMaxDeficit(events, key);
    DeficitIsMax(segment, key);
    var worst :| 0 <= worst <= |segment| && -Net(segment[..worst], key) == Deficit(segment, key);
  }

  /** From every point of its segment on, no id has more starts than finishes. */
  ghost predicate Balanced(events: seq<Event>) {
    forall key: Key, k: nat :: k <= |Segment(events, key.kind)| ==> Net(Segment(events, key.kind)[k..], key) <= 0
  }

  /** Nothing is stored exactly when everything balances. */
  lemma IdleMeansBalanced(events: seq<Event>)
    ensures Tally(events).active == map[] <==> Balanced(events)
  {
    hide Segment, Net, Tally;
    StoredCountsArePositive(events);
    if Tally(events).active == map[] {
      forall key: Key, k: nat | k <= |Segment(events, key.kind)| ensures Net(Segment(events, key.kind)[k..], key) <= 0 {
        OutstandingIsMaxSuffix(events, key);
      }
    } else {
      var key :| key in Tally(events).active;
      OutstandingIsMaxSuffix(events, key);
      var k :| 0 <= k <= |Segment(events, key.kind)| && Net(Segment(events, key.kind)[k..], key) == Count(Tally(events).active, key);
    }
  }

  // ---------------------------------------------------------------- signals and times

  function SignalsOf(events: seq<Event>, t: EventType): seq<Signal> {
    if events == [] then []
    else
      var n := |events| - 1;
      if events[n].eventType == t
      then SignalsOf(events[..n], t) + [Signal(events[n].id, events[n].generation, events[n].conversation)]
      else SignalsOf(events[..n], t)
  }

  lemma {:induction false} SignalsConcat(s: seq<Event>, m: seq<Event>, t: EventType)
    ensures SignalsOf(s + m, t) == SignalsOf(s, t) + SignalsOf(m, t)
  {
    if m == [] {
      assert s + m == s;
    } else {
      var n := |m| - 1;
      assert (s + m)[..|s| + n] == s + m[..n];
      SignalsConcat(s, m[..n], t);
    }
  }

  /** Signals already reported stay, in place, however the ledger grows; each id is reported once. */
  lemma SignalsOnlyGrow(events: seq<Event>, more: seq<Event>, t: EventType)
    ensures SignalsOf(Dedup(events), t) <= SignalsOf(Dedup(events + more), t)
  {
    DedupGrows(events, more);
    var (before, after) := (Dedup(events), Dedup(events + more));
    assert after == before + after[|before|..];
    SignalsConcat(before, after[|before|..], t);
  }

  lemma {:induction false} SignalMembers(events: seq<Event>, t: EventType)
    ensures forall s :: s in SignalsOf(events, t) ==>
              exists k :: 0 <= k < |events| && events[k].eventType == t && s == Signal(events[k].id, events[k].generation, events[k].conversation)
  {
    if events != [] {
      var n := |events| - 1;
      SignalMembers(events[..n], t);
      forall s | s in SignalsOf(events[..n], t)
        ensures exists k :: 0 <= k < |events| && events[k].eventType == t && s == Signal(events[k].id, events[k].generation, events[k].conversation)
      {
        var k :| 0 <= k < n && events[..n][k].eventType == t && s == Signal(events[..n][k].id, events[..n][k].generation, events[..n][k].conversation);
        assert events[k].eventType == t;
      }
    }
  }

  lemma {:induction false} SignalsAreDistinct(events: seq<Event>, t: EventType)
    requires forall i, j :: 0 <= i < j < |events| ==> events[i].id != events[j].id
    ensures forall i, j :: 0 <= i < j < |SignalsOf(events, t)| ==> SignalsOf(events, t)[i].id != SignalsOf(events, t)[j].id
  {
    if events != [] {
      var n := |events| - 1;
      SignalsAreDistinct(events[..n], t);
      SignalMembers(events[..n], t);
      var earlier := SignalsOf(events[..n], t);
      forall i | 0 <= i < |earlier| ensures earlier[i].id != events[n].id {
        assert earlier[i] in earlier;
      }
    }
  }

  /** Latest timestamp of the events that count (all of them, or only those of the runtime's hooks). */
  function Latest(events: seq<Event>, hooksOnly: bool): Option<int> {
    if events == [] then None
    else
      var n := |events| - 1;
      var before := Latest(events[..n], hooksOnly);
      if (hooksOnly && SupervisorAuthored(events[n].eventType)) || (before.Some? && events[n].timestamp <= before.value)
      then before else Some(events[n].timestamp)
  }

  lemma {:induction false} LatestIsMaximum(events: seq<Event>, hooksOnly: bool)
    ensures Latest(events, hooksOnly).None? <==> forall e :: e in events ==> hooksOnly && SupervisorAuthored(e.eventType)
    ensures forall e :: e in events && !(hooksOnly && SupervisorAuthored(e.eventType)) ==>
              Latest(events, hooksOnly).Some? && e.timestamp <= Latest(events, hooksOnly).value
    ensures Latest(events, hooksOnly).Some? ==>
              exists e :: e in events && !(hooksOnly && SupervisorAuthored(e.eventType)) && e.timestamp == Latest(events, hooksOnly).value
  {
    if events != [] {
      var n := |events| - 1;
      LatestIsMaximum(events[..n], hooksOnly);
      assert forall e :: e in events <==> e in events[..n] || e == events[n];
    }
  }
}
