/**
  What the activity fold means, stated on the event types themselves: which ids are open, which
  finishes match nothing, and which events show that the hooks are alive.
 */
module ActivityMeaning {
  import opened Options
  import opened Activity

  /** How many events of this type carry this activity id. */
  function Occurring(events: seq<Event>, t: EventType, id: string): nat {
    if events == [] then 0
    else
      var last := events[|events| - 1];
      Occurring(events[..|events| - 1], t, id) + if last.eventType == t && last.activity == id then 1 else 0
  }

  /** More starts than finishes, for each of the four kinds. */
  predicate Exceeds(events: seq<Event>, kind: Kind, id: string) {
    match kind
    case Turn => Occurring(events, TurnStarted, id) > Occurring(events, TurnIdle, id)
    case Tool => Occurring(events, ToolStarted, id) > Occurring(events, ToolFinished, id) + Occurring(events, ToolFailed, id)
    case Subagent => Occurring(events, SubagentStarted, id) > Occurring(events, SubagentFinished, id)
    case Critical => Occurring(events, CriticalEntered, id) > Occurring(events, CriticalExited, id)
  }

  /** No turn goes idle between these positions. */
  ghost predicate Quiet(events: seq<Event>, from: nat, upto: nat)
    requires upto <= |events|
  {
    forall j :: from <= j < upto ==> events[j].eventType != TurnIdle
  }

  /** Counted from some point on, more was started than finished; a tool only since the last turn-idle. */
  ghost predicate Open(events: seq<Event>, kind: Kind, id: string) {
    exists k: nat :: k <= |events| && (kind.Tool? ==> Quiet(events, k, |events|)) && Exceeds(events[k..], kind, id)
  }

  ghost predicate NothingOpen(events: seq<Event>) {
    forall kind: Kind, id: string :: !Open(events, kind, id)
  }

  /** The event ends something of this kind. */
  predicate Ends(t: EventType, kind: Kind) {
    match kind
    case Turn => t == TurnIdle
    case Tool => t == ToolFinished || t == ToolFailed
    case Subagent => t == SubagentFinished
    case Critical => t == CriticalExited
  }

  /** Event `j` ends something of which nothing was open. */
  ghost predicate EndsNothing(events: seq<Event>, j: nat, kind: Kind) {
    j < |events| && Ends(events[j].eventType, kind) && !Open(events[..j], kind, events[j].activity)
  }

  /** Written by a hook of the runtime: anything but the three events the supervisor writes itself. */
  predicate FromHook(e: Event) {
    e.eventType != HandoffCheckpointed && e.eventType != HandoffAcknowledged && e.eventType != HandoffFenced
  }

  // ---------------------------------------------------------------- the fold computes it

  /** Starts minus finishes, by type. */
  function Excess(events: seq<Event>, kind: Kind, id: string): int {
    match kind
    case Turn => Occurring(events, TurnStarted, id) - Occurring(events, TurnIdle, id)
    case Tool => Occurring(events, ToolStarted, id) - Occurring(events, ToolFinished, id) - Occurring(events, ToolFailed, id)
    case Subagent => Occurring(events, SubagentStarted, id) - Occurring(events, SubagentFinished, id)
    case Critical => Occurring(events, CriticalEntered, id) - Occurring(events, CriticalExited, id)
  }

  lemma OccurringPush(events: seq<Event>, t: EventType, id: string)
    requires events != []
    ensures var last := events[|events| - 1];
            Occurring(events, t, id)
            == Occurring(events[..|events| - 1], t, id) + if last.eventType == t && last.activity == id then 1 else 0
  {
  }

  lemma ExcessPush(events: seq<Event>, kind: Kind, id: string)
    requires events != []
    ensures Excess(events, kind, id) == Excess(events[..|events| - 1], kind, id) + Delta(events[|events| - 1], Key(kind, id))
  {
    hide Occurring;
    match kind
    case Turn =>
      OccurringPush(events, TurnStarted, id);
      OccurringPush(events, TurnIdle, id);
    case Tool =>
      OccurringPush(events, ToolStarted, id);
      OccurringPush(events, ToolFinished, id);
      OccurringPush(events, ToolFailed, id);
    case Subagent =>
      OccurringPush(events, SubagentStarted, id);
      OccurringPush(events, SubagentFinished, id);
    case Critical =>
      OccurringPush(events, CriticalEntered, id);
      OccurringPush(events, CriticalExited, id);
  }

  lemma {:induction false} NetCounts(events: seq<Event>, kind: Kind, id: string)
    ensures Net(events, Key(kind, id)) == Excess(events, kind, id)
  {
    var key := Key(kind, id);
    if events == [] {
      assert Deltas(events, key) == [];
    } else {
      NetCounts(events[..|events| - 1], kind, id);
      NetPush(events, key);
      ExcessPush(events, kind, id);
      hide Net, Excess, Delta;
    }
  }

  lemma NetPush(events: seq<Event>, key: Key)
    requires events != []
    ensures Net(events, key) == Net(events[..|events| - 1], key) + Delta(events[|events| - 1], key)
  {
    var deltas := Deltas(events, key);
    assert deltas[..|deltas| - 1] == Deltas(events[..|events| - 1], key);
  }

  lemma ExceedsIsNet(events: seq<Event>, kind: Kind, id: string)
    ensures Exceeds(events, kind, id) <==> Net(events, Key(kind, id)) > 0
  {
    NetCounts(events, kind, id);
  }

  lemma {:induction false} LastIdleIsLast(events: seq<Event>, k: nat)
    requires k <= |events|
    ensures Quiet(events, k, |events|) <==> AfterLastIdle(events) <= k
  {
    if events != [] && k < |events| {
      var n := |events| - 1;
      if events[n].eventType.TurnIdle? {
        assert !Quiet(events, k, |events|);
      } else {
        LastIdleIsLast(events[..n], k);
        assert Quiet(events[..n], k, n) <==> Quiet(events, k, |events|);
      }
    }
  }

  /** An id is counted as outstanding exactly when it is open. */
  lemma OutstandingIsOpen(events: seq<Event>, kind: Kind, id: string)
    ensures Count(Tally(events).active, Key(kind, id)) > 0 <==> Open(events, kind, id)
    ensures Key(kind, id) in Tally(events).active <==> Open(events, kind, id)
  {
    var key := Key(kind, id);
    var (lo, segment) := (From(events, kind), Segment(events, kind));
    StoredCountsArePositive(events);
    OutstandingIsMaxSuffix(events, key);
    hide Tally, Net, Exceeds;
    if Count(Tally(events).active, key) > 0 {
      var best :| 0 <= best <= |segment| && Net(segment[best..], key) == Count(Tally(events).active, key);
      assert segment[best..] == events[lo + best..];
      ExceedsIsNet(events[lo + best..], kind, id);
      LastIdleIsLast(events, lo + best);
      assert Exceeds(events[lo + best..], kind, id);
    }
    if k: nat :| k <= |events| && (kind.Tool? ==> Quiet(events, k, |events|)) && Exceeds(events[k..], kind, id) {
      LastIdleIsLast(events, k);
      assert segment[k - lo..] == events[k..];
      ExceedsIsNet(events[k..], kind, id);
      assert Net(segment[k - lo..], key) <= Count(Tally(events).active, key);
    }
  }

  /** Nothing is stored exactly when nothing is open. */
  lemma NothingStored(events: seq<Event>)
    ensures Tally(events).active == map[] <==> NothingOpen(events)
  {
    hide Tally, Open;
    forall key: Key ensures key in Tally(events).active <==> Open(events, key.kind, key.activity) {
      OutstandingIsOpen(events, key.kind, key.activity);
    }
    if Tally(events).active == map[] {
      forall kind: Kind, id: string ensures !Open(events, kind, id) {
        OutstandingIsOpen(events, kind, id);
      }
    } else {
      var key :| key in Tally(events).active;
      assert Open(events, key.kind, key.activity);
    }
  }

  /** `w` is the finding about event `j`, which ended nothing, stamped with the event's own time. */
  ghost predicate Stamped(events: seq<Event>, j: nat, kind: Kind, w: Warning) {
    EndsNothing(events, j, kind) && w == Warning(FinishWithoutStart(Key(kind, events[j].activity)), events[j].timestamp, false)
  }

  lemma ObserveUnmatched(t: Tallied, e: Event)
    ensures Observe(t, e).unmatched
         == t.unmatched
            + if FinishOf(e.eventType).Some? && Count(t.active, Key(FinishOf(e.eventType).value, e.activity)) == 0
              then [Warning(FinishWithoutStart(Key(FinishOf(e.eventType).value, e.activity)), e.timestamp, false)] else []
    ensures forall kind: Kind :: Ends(e.eventType, kind) <==> FinishOf(e.eventType) == Some(kind)
  {
  }

  lemma StampedEarlier(events: seq<Event>, j: nat, kind: Kind, w: Warning)
    requires events != [] && j < |events| - 1
    ensures Stamped(events, j, kind, w) <==> Stamped(events[..|events| - 1], j, kind, w)
  {
    assert events[..|events| - 1][..j] == events[..j];
  }

  lemma StampedLast(events: seq<Event>, kind: Kind, w: Warning)
    requires events != []
    ensures var (n, e) := (|events| - 1, events[|events| - 1]);
            Stamped(events, n, kind, w) <==>
              && Ends(e.eventType, kind) && Count(Tally(events[..n]).active, Key(kind, e.activity)) == 0
              && w == Warning(FinishWithoutStart(Key(kind, e.activity)), e.timestamp, false)
  {
    var n := |events| - 1;
    OutstandingIsOpen(events[..n], kind, events[n].activity);
  }

  ghost predicate IsStamped(events: seq<Event>, w: Warning) {
    exists j: nat, kind: Kind :: Stamped(events, j, kind, w)
  }

  lemma StampedSplit(events: seq<Event>, w: Warning)
    requires events != []
    ensures var n := |events| - 1;
            IsStamped(events, w) <==> IsStamped(events[..n], w) || exists kind: Kind :: Stamped(events, n, kind, w)
  {
    var n := |events| - 1;
    var before := events[..n];
    if j: nat, kind: Kind :| Stamped(events, j, kind, w) {
      assert j < |events|;
      if j < n {
        StampedEarlier(events, j, kind, w);
        assert Stamped(before, j, kind, w);
      } else {
        assert Stamped(events, n, kind, w);
      }
    }
    if j: nat, kind: Kind :| Stamped(before, j, kind, w) {
      assert j < n;
      StampedEarlier(events, j, kind, w);
      assert Stamped(events, j, kind, w);
    }
  }

  lemma UnmatchedStep(events: seq<Event>, w: Warning)
    requires events != []
    requires w in Tally(events[..|events| - 1]).unmatched <==> IsStamped(events[..|events| - 1], w)
    ensures w in Tally(events).unmatched <==> IsStamped(events, w)
  {
    var n := |events| - 1;
    var (e, before) := (events[n], Tally(events[..n]));
    assert Tally(events) == Observe(before, e);
    ObserveUnmatched(before, e);
    StampedSplit(events, w);
    hide Tally, Observe, Ends, Count, IsStamped, Stamped;
    forall kind: Kind
      ensures Stamped(events, n, kind, w) <==>
                FinishOf(e.eventType) == Some(kind) && Count(before.active, Key(kind, e.activity)) == 0
                && w == Warning(FinishWithoutStart(Key(kind, e.activity)), e.timestamp, false)
    {
      StampedLast(events, kind, w);
    }
    hide FinishOf;
    if FinishOf(e.eventType).Some? {
      var kind := FinishOf(e.eventType).value;
      assert Stamped(events, n, kind, w) <==>
               Count(before.active, Key(kind, e.activity)) == 0 && w == Warning(FinishWithoutStart(Key(kind, e.activity)), e.timestamp, false);
    }
  }

  /** The unmatched finishes are exactly the events that ended nothing. */
  lemma {:induction false} UnmatchedEndNothing(events: seq<Event>)
    ensures forall w :: w in Tally(events).unmatched <==> IsStamped(events, w)
  {
    if events != [] {
      UnmatchedEndNothing(events[..|events| - 1]);
      forall w ensures w in Tally(events).unmatched <==> IsStamped(events, w) {
        UnmatchedStep(events, w);
      }
    }
  }

  /** A tool was open when a turn went idle at position `j`. */
  ghost predicate OpenAtIdle(events: seq<Event>, j: nat, id: string) {
    j < |events| && events[j].eventType == TurnIdle && Open(events[..j], Tool, id)
  }

  /** The reaped tools are exactly those that were open when some turn went idle. */
  lemma {:induction false} ReapedWereOpen(events: seq<Event>, id: string)
    ensures id in Tally(events).reaped <==> exists j: nat :: OpenAtIdle(events, j, id)
  {
    if events != [] {
      var n := |events| - 1;
      ReapedWereOpen(events[..n], id);
      OutstandingIsOpen(events[..n], Tool, id);
      ObserveReaps(Tally(events[..n]), events[n], id);
      hide Observe, Open;
      forall j: nat | j < n ensures OpenAtIdle(events, j, id) <==> OpenAtIdle(events[..n], j, id) {
        assert events[..n][..j] == events[..j];
      }
      assert OpenAtIdle(events, n, id) <==> events[n].eventType == TurnIdle && Open(events[..n], Tool, id);
    }
  }

  lemma ObserveReaps(t: Tallied, e: Event, id: string)
    ensures id in Observe(t, e).reaped <==> id in t.reaped || (e.eventType == TurnIdle && Key(Tool, id) in t.active)
  {
    if e.eventType.TurnIdle? {
      var finished := Finished(t, Key(Turn, e.activity), e.timestamp);
      assert Key(Tool, id) in finished.active <==> Key(Tool, id) in t.active;
      assert id in ToolsIn(finished.active) <==> Key(Tool, id) in finished.active;
    }
  }

  /** The signals of a type are those of its events. */
  ghost predicate SignalsFrom(signals: seq<Signal>, events: seq<Event>, t: EventType) {
    forall x :: x in signals <==> exists e :: e in events && e.eventType == t && x == Signal(e.id, e.generation, e.conversation)
  }

  lemma {:induction false} SignalsAreFrom(events: seq<Event>, t: EventType)
    ensures SignalsFrom(SignalsOf(events, t), events, t)
  {
    if events != [] {
      var n := |events| - 1;
      SignalsAreFrom(events[..n], t);
      assert forall e :: e in events <==> e in events[..n] || e == events[n];
    }
  }
}
