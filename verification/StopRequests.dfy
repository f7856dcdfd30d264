/**
  The Stop handshake of src/agent_session_harness/hooks/command.py: while a rotation drains,
  the first Stop of a generation asks for a handoff and leaves a marker; a later one closes the
  turn once. A cancelled drain clears the marker if it can, and a crash may come between an append to
  the ledger and the marker that records it.
 */
module StopRequests {
  import opened Options

  datatype Marker = Marker(generation: nat, idleEmitted: bool)

  /** What a Stop appends: the runtime's idle event as it is, a handoff request, or the stable idle of a repeated Stop. */
  datatype Emitted = PlainIdle(generation: nat) | HandoffRequest(generation: nat) | RepeatedIdle(generation: nat)

  datatype World = World(
    generation: nat,
    marker: Option<Marker>,
    ledger: seq<Emitted>,
    cancelled: seq<nat>,
    crashed: seq<nat>)

  function Start(generation: nat): World {
    World(generation, None, [], [], [])
  }

  datatype Action =
    | Stop(draining: bool)
    | StopThenCrash
    | CancelDrain(cleared: bool)
    | NextGeneration

  /** The marker of this generation, if any. */
  function Current(marker: Option<Marker>, generation: nat): Option<Marker> {
    if marker.Some? && marker.value.generation == generation then marker else None
  }

  /** `_record_stop_request`: what is appended, and the marker left behind. */
  function Recorded(marker: Option<Marker>, generation: nat): (seq<Emitted>, Option<Marker>) {
    match Current(marker, generation)
    case None => ([HandoffRequest(generation)], Some(Marker(generation, false)))
    case Some(m) =>
      if m.idleEmitted then ([], marker) else ([RepeatedIdle(generation)], Some(Marker(generation, true)))
  }

  /** `_clear_stop_request_marker`. */
  function Cleared(marker: Option<Marker>, cleared: bool): Option<Marker> {
    if cleared then None else marker
  }

  function Do(w: World, a: Action): World {
    match a
    case Stop(draining) =>
      if draining then
        var (emitted, marker) := Recorded(w.marker, w.generation);
        w.(ledger := w.ledger + emitted, marker := marker)
      else w.(ledger := w.ledger + [PlainIdle(w.generation)])
    case StopThenCrash =>
      // the append is durable, the marker is not
      w.(ledger := w.ledger + Recorded(w.marker, w.generation).0, crashed := w.crashed + [w.generation])
    case CancelDrain(cleared) =>
      // removing the marker is best effort
      w.(marker := Cleared(w.marker, cleared), cancelled := w.cancelled + [w.generation])
    case NextGeneration => w.(generation := w.generation + 1)
  }

  function Run(w: World, actions: seq<Action>): World
    decreases |actions|
  {
    if actions == [] then w
    else Do(Run(w, actions[..|actions| - 1]), actions[|actions| - 1])
  }

  function Count(ledger: seq<Emitted>, e: Emitted): nat {
    if ledger == [] then 0
    else Count(ledger[..|ledger| - 1], e) + if ledger[|ledger| - 1] == e then 1 else 0
  }

  /** How often a generation had its drain cancelled, or a hook of it crash. */
  function Times(generations: seq<nat>, g: nat): nat {
    if generations == [] then 0
    else Times(generations[..|generations| - 1], g) + if generations[|generations| - 1] == g then 1 else 0
  }

  lemma CountPush(ledger: seq<Emitted>, x: Emitted, e: Emitted)
    ensures Count(ledger + [x], e) == Count(ledger, e) + if x == e then 1 else 0
  {
    assert (ledger + [x])[..|ledger|] == ledger;
  }

  lemma TimesPush(generations: seq<nat>, h: nat, g: nat)
    ensures Times(generations + [h], g) == Times(generations, g) + if h == g then 1 else 0
  {
    assert (generations + [h])[..|generations|] == generations;
  }

  /** How many requests and repeated idles a generation may have, given the marker that is left. */
  ghost predicate Within(requests: nat, idles: nat, extra: nat, marker: Option<Marker>, generation: nat, g: nat) {
    var m := Current(marker, g);
    && requests <= extra + (if g < generation || m.Some? then 1 else 0)
    && idles <= extra + (if g < generation || (m.Some? && m.value.idleEmitted) then 1 else 0)
    && (g > generation ==> m.None?)
  }

  ghost predicate Bounded(w: World, g: nat) {
    Within(Count(w.ledger, HandoffRequest(g)), Count(w.ledger, RepeatedIdle(g)),
           Times(w.cancelled, g) + Times(w.crashed, g), w.marker, w.generation, g)
  }

  lemma CountMore(ledger: seq<Emitted>, more: seq<Emitted>, e: Emitted)
    requires |more| <= 1
    ensures Count(ledger + more, e) == Count(ledger, e) + if more == [e] then 1 else 0
  {
    if more == [] {
      assert ledger + more == ledger;
    } else {
      assert more == [more[0]];
      CountPush(ledger, more[0], e);
    }
  }

  lemma RecordedWithin(requests: nat, idles: nat, extra: nat, marker: Option<Marker>, generation: nat, g: nat)
    requires Within(requests, idles, extra, marker, generation, g)
    ensures var (emitted, marker') := Recorded(marker, generation);
            var requests' := requests + if emitted == [HandoffRequest(g)] then 1 else 0;
            var idles' := idles + if emitted == [RepeatedIdle(g)] then 1 else 0;
            && |emitted| <= 1
            && Within(requests', idles', extra, marker', generation, g)
            && Within(requests', idles', extra + (if g == generation then 1 else 0), marker, generation, g)
  {
  }

  lemma BoundedStep(w: World, a: Action, g: nat)
    requires Bounded(w, g)
    ensures Bounded(Do(w, a), g)
  {
    var (requests, idles) := (Count(w.ledger, HandoffRequest(g)), Count(w.ledger, RepeatedIdle(g)));
    var extra := Times(w.cancelled, g) + Times(w.crashed, g);
    hide Count, Times, Recorded;
    RecordedWithin(requests, idles, extra, w.marker, w.generation, g);
    var emitted := Recorded(w.marker, w.generation).0;
    CountMore(w.ledger, emitted, HandoffRequest(g));
    CountMore(w.ledger, emitted, RepeatedIdle(g));
    CountPush(w.ledger, PlainIdle(w.generation), HandoffRequest(g));
    CountPush(w.ledger, PlainIdle(w.generation), RepeatedIdle(g));
    TimesPush(w.cancelled, w.generation, g);
    TimesPush(w.crashed, w.generation, g);
  }

  /**
    A generation is asked for a handoff at most once per drain: one request, and one repeated
    idle, plus one for each of its own drains cancelled and each crash of one of its own hooks.
  */
  lemma {:induction false} AskedOncePerDrain(first: nat, actions: seq<Action>, g: nat)
    ensures var w := Run(Start(first), actions);
            && Bounded(w, g)
            && Count(w.ledger, HandoffRequest(g)) <= 1 + Times(w.cancelled, g) + Times(w.crashed, g)
            && Count(w.ledger, RepeatedIdle(g)) <= 1 + Times(w.cancelled, g) + Times(w.crashed, g)
    decreases |actions|
  {
    if actions != [] {
      AskedOncePerDrain(first, actions[..|actions| - 1], g);
      BoundedStep(Run(Start(first), actions[..|actions| - 1]), actions[|actions| - 1], g);
      hide Do;
    }
  }

  /** A turn that ends while draining is closed only after the handoff was requested. */
  ghost predicate RequestedFirst(w: World) {
    && (forall k :: 0 <= k < |w.ledger| && w.ledger[k].RepeatedIdle? ==>
          exists j :: 0 <= j < k && w.ledger[j] == HandoffRequest(w.ledger[k].generation))
    && (Current(w.marker, w.generation).Some? ==> HandoffRequest(w.generation) in w.ledger)
    && (w.marker.Some? ==> w.marker.value.generation <= w.generation)
  }

  lemma RequestedFirstStep(w: World, a: Action)
    requires RequestedFirst(w)
    ensures RequestedFirst(Do(w, a))
  {
    var w' := Do(w, a);
    forall k | 0 <= k < |w'.ledger| && w'.ledger[k].RepeatedIdle?
      ensures exists j :: 0 <= j < k && w'.ledger[j] == HandoffRequest(w'.ledger[k].generation)
    {
      if k < |w.ledger| {
        assert w'.ledger[k] == w.ledger[k];
        var j :| 0 <= j < k && w.ledger[j] == HandoffRequest(w.ledger[k].generation);
        assert w'.ledger[j] == w.ledger[j];
      } else {
        var j :| 0 <= j < |w.ledger| && w.ledger[j] == HandoffRequest(w.generation);
        assert w'.ledger[j] == w.ledger[j];
      }
    }
    if Current(w'.marker, w'.generation).Some? && HandoffRequest(w.generation) in w.ledger {
      var j :| 0 <= j < |w.ledger| && w.ledger[j] == HandoffRequest(w.generation);
      assert w'.ledger[j] == w.ledger[j];
    }
  }

  lemma {:induction false} IdleFollowsRequest(first: nat, actions: seq<Action>)
    ensures RequestedFirst(Run(Start(first), actions))
    decreases |actions|
  {
    if actions != [] {
      IdleFollowsRequest(first, actions[..|actions| - 1]);
      RequestedFirstStep(Run(Start(first), actions[..|actions| - 1]), actions[|actions| - 1]);
      hide Do;
    }
  }
}
