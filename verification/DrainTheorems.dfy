/** Consent, consumption and measurement over every run of one generation's draining. */
module DrainTheorems {
  import opened Options
  import opened Sequences
  import opened Activity
  import opened Ledger
  import opened Drain

  // ---------------------------------------------------------------- signals grow

  lemma {:induction false} ManagedConcat(s: seq<Signal>, t: seq<Signal>, g: nat, c: Option<string>)
    ensures ManagedIn(s + t, g, c) == ManagedIn(s, g, c) + ManagedIn(t, g, c)
  {
    if t == [] {
      assert s + t == s;
    } else {
      assert (s + t)[..|s + t| - 1] == s + t[..|t| - 1];
      ManagedConcat(s, t[..|t| - 1], g, c);
    }
  }

  lemma ManagedGrows(s: seq<Signal>, t: seq<Signal>, g: nat, c: Option<string>)
    requires s <= t
    ensures ManagedIn(s, g, c) <= ManagedIn(t, g, c)
  {
    assert t == s + t[|s|..];
    ManagedConcat(s, t[|s|..], g, c);
  }

  lemma {:induction false} ManagedMembers(s: seq<Signal>, g: nat, c: Option<string>)
    ensures forall x :: x in ManagedIn(s, g, c) <==> x in s && Managed(x, g, c)
  {
    if s != [] {
      var n := |s| - 1;
      ManagedMembers(s[..n], g, c);
      assert forall x :: x in s <==> x in s[..n] || x == s[n];
    }
  }

  ghost predicate DistinctIds(s: seq<Signal>) {
    forall i, j :: 0 <= i < j < |s| ==> s[i].id != s[j].id
  }

  lemma {:induction false} ManagedDistinct(s: seq<Signal>, g: nat, c: Option<string>)
    requires DistinctIds(s)
    ensures DistinctIds(ManagedIn(s, g, c))
  {
    if s != [] {
      var n := |s| - 1;
      ManagedDistinct(s[..n], g, c);
      ManagedMembers(s[..n], g, c);
      var earlier := ManagedIn(s[..n], g, c);
      forall i | 0 <= i < |earlier| ensures earlier[i].id != s[n].id {
        assert earlier[i] in earlier;
      }
    }
  }

  /** Reading further only appends signals, and no two signals share an id. */
  lemma ReadsGrow(ledger: seq<Event>, more: seq<Event>, from: nat, upto: nat, t: EventType)
    requires from <= |ledger| && from <= upto <= |ledger + more|
    ensures SignalsOf(Dedup(ledger[..from]), t) <= SignalsOf(Dedup((ledger + more)[..upto]), t)
    ensures DistinctIds(SignalsOf(Dedup((ledger + more)[..upto]), t))
  {
    var longer := (ledger + more)[..upto];
    assert longer == ledger[..from] + longer[from..];
    SignalsOnlyGrow(ledger[..from], longer[from..], t);
    DedupKeepsIds(longer);
    SignalsAreDistinct(Dedup(longer), t);
  }

  // ---------------------------------------------------------------- one managed conversation

  /** Every sample that names a conversation names this one. */
  ghost predicate OneConversation(a: Action, c: string) {
    a.Observe? && a.sample.Sample? && !a.sample.confidence.Unmeasured? ==> a.sample.conversation == c
  }

  ghost predicate Follows(w: World, c: string) {
    && w.read <= |w.ledger|
    && (w.held.conversation.None? || w.held.conversation == Some(c))
    && ConsumedOk(w.ledger, w.read, w.held.generation, c, w.held.consumedIdentity, w.consumed)
    && CancelledOk(w.ledger, w.read, w.held.generation, c, w.held.invalidatedIdentity, w.cancelledAt)
    && (forall k :: 0 <= k < |w.cancelled| ==> w.cancelled[k] in w.consumed)
    && Distinct(w.cancelled)
  }

  function ManagedCompactions(ledger: seq<Event>, upto: nat, g: nat, c: string): seq<Signal>
    requires upto <= |ledger|
  {
    ManagedIn(Compactions(ledger, upto), g, Some(c))
  }

  function ManagedHandoffs(ledger: seq<Event>, upto: nat, g: nat, c: string): seq<Signal>
    requires upto <= |ledger|
  {
    ManagedIn(Handoffs(ledger, upto), g, Some(c))
  }

  /** What was consumed sits at increasing positions among the managed compactions; the last is remembered. */
  ghost predicate ConsumedOk(ledger: seq<Event>, read: nat, g: nat, c: string, identity: Option<string>, consumed: seq<string>)
    requires read <= |ledger|
  {
    && Distinct(consumed)
    && (consumed == [] <==> identity.None?)
    && (identity.Some? ==>
          && consumed[|consumed| - 1] == identity.value
          && exists p: nat :: UpTo(ManagedCompactions(ledger, read, g, c), p, identity.value, consumed))
  }

  /** `id` is at position `p` and everything consumed is at or before it. */
  ghost predicate UpTo(managed: seq<Signal>, p: nat, id: string, consumed: seq<string>) {
    && p < |managed| && managed[p].id == id
    && (forall x :: x in consumed ==> x in IdsOf(managed[..p + 1]))
  }

  /** The last cancellation's newest managed handoff is the one invalidated. */
  ghost predicate CancelledOk(ledger: seq<Event>, read: nat, g: nat, c: string, identity: Option<string>, at: seq<nat>)
    requires read <= |ledger|
  {
    && (forall k :: 0 <= k < |at| ==> at[k] <= read)
    && (forall j, k :: 0 <= j < k < |at| ==> at[j] <= at[k])
    && (at != [] ==>
          var managed := ManagedHandoffs(ledger, at[|at| - 1], g, c);
          identity == if managed == [] then None else Some(managed[|managed| - 1].id))
  }

  /** Appending to the ledger changes no earlier read. */
  lemma ReadsStay(ledger: seq<Event>, e: Event, upto: nat, g: nat, c: string)
    requires upto <= |ledger|
    ensures ManagedCompactions(ledger + [e], upto, g, c) == ManagedCompactions(ledger, upto, g, c)
    ensures ManagedHandoffs(ledger + [e], upto, g, c) == ManagedHandoffs(ledger, upto, g, c)
  {
    hide ManagedIn, SignalsOf, Dedup;
    assert (ledger + [e])[..upto] == ledger[..upto];
  }

  lemma AppendKeeps(w: World, a: Action, c: string)
    requires Follows(w, c) && a.Append?
    ensures Follows(Do(w, a), c)
  {
    hide ManagedCompactions, ManagedHandoffs, UpTo;
    ReadsStay(w.ledger, a.event, w.read, w.held.generation, c);
    if w.cancelledAt != [] {
      ReadsStay(w.ledger, a.event, w.cancelledAt[|w.cancelledAt| - 1], w.held.generation, c);
    }
  }

  lemma ObserveKeeps(w: World, a: Action, c: string)
    requires Follows(w, c) && a.Observe? && OneConversation(a, c)
    ensures Follows(Do(w, a), c)
  {
    hide ConsumedOk, CancelledOk, Distinct;
  }

  /** Moving the read position on keeps what was consumed where it is. */
  lemma ConsumedMoves(ledger: seq<Event>, read: nat, upto: nat, g: nat, c: string, identity: Option<string>, consumed: seq<string>)
    requires read <= upto <= |ledger| && ConsumedOk(ledger, read, g, c, identity, consumed)
    ensures ConsumedOk(ledger, upto, g, c, identity, consumed)
  {
    if identity.Some? {
      var before := ManagedCompactions(ledger, read, g, c);
      var after := ManagedCompactions(ledger, upto, g, c);
      assert ledger + [] == ledger;
      ReadsGrow(ledger, [], read, upto, PreCompact);
      ManagedGrows(Compactions(ledger, read), Compactions(ledger, upto), g, Some(c));
      var p: nat :| UpTo(before, p, identity.value, consumed);
      assert after[..p + 1] == before[..p + 1];
      assert UpTo(after, p, identity.value, consumed);
    }
  }

  /** Consuming the newest managed compaction, when it is not the remembered one, consumes a new id. */
  lemma ConsumesNew(ledger: seq<Event>, upto: nat, g: nat, c: string, identity: Option<string>, consumed: seq<string>)
    requires upto <= |ledger| && ConsumedOk(ledger, upto, g, c, identity, consumed)
    requires ManagedCompactions(ledger, upto, g, c) != []
    requires var managed := ManagedCompactions(ledger, upto, g, c); Some(managed[|managed| - 1].id) != identity
    ensures var managed := ManagedCompactions(ledger, upto, g, c);
            var id := managed[|managed| - 1].id;
            id !in consumed && ConsumedOk(ledger, upto, g, c, Some(id), consumed + [id])
  {
    hide ManagedIn, SignalsOf, Dedup;
    var managed := ManagedCompactions(ledger, upto, g, c);
    var last := |managed| - 1;
    assert ledger + [] == ledger;
    ReadsGrow(ledger, [], upto, upto, PreCompact);
    ManagedDistinct(Compactions(ledger, upto), g, Some(c));
    if identity.Some? {
      var p: nat :| UpTo(managed, p, identity.value, consumed);
      forall x | x in consumed ensures x != managed[last].id && x in IdsOf(managed[..last + 1]) {
        var k :| 0 <= k < p + 1 && IdsOf(managed[..p + 1])[k] == x;
        assert managed[k].id == x && k < last;
        assert IdsOf(managed[..last + 1])[k] == x;
      }
    }
    assert IdsOf(managed[..last + 1])[last] == managed[last].id;
    assert UpTo(managed, last, managed[last].id, consumed + [managed[last].id]);
  }

  lemma CancelledMoves(ledger: seq<Event>, read: nat, upto: nat, g: nat, c: string, identity: Option<string>, at: seq<nat>)
    requires read <= upto <= |ledger| && CancelledOk(ledger, read, g, c, identity, at)
    ensures CancelledOk(ledger, upto, g, c, identity, at)
  {
    hide ManagedHandoffs;
  }

  lemma CancelledNow(ledger: seq<Event>, read: nat, upto: nat, g: nat, c: string, identity: Option<string>, at: seq<nat>)
    requires read <= upto <= |ledger| && CancelledOk(ledger, read, g, c, identity, at)
    ensures var managed := ManagedHandoffs(ledger, upto, g, c);
            CancelledOk(ledger, upto, g, c, if managed == [] then None else Some(managed[|managed| - 1].id), at + [upto])
  {
    hide ManagedHandoffs;
  }

  /** A release that acts consumes the newest managed compaction and, when draining, invalidates the newest managed handoff. */
  lemma ReleaseActs(w: World, a: Action, c: string)
    requires a.Release? && w.read <= a.upto <= |w.ledger| && StartsWith(w.held.conversation, c)
    requires NewCompaction(w.held, ReadView(w.ledger, a.upto, [], a.now, 0, ProbeQuiescent)) && Active(w.held.phase)
    ensures var managed := ManagedCompactions(w.ledger, a.upto, w.held.generation, c);
            var handoffs := ManagedHandoffs(w.ledger, a.upto, w.held.generation, c);
            && managed != []
            && (var id := managed[|managed| - 1].id;
                var w' := Do(w, a);
                && Some(id) != w.held.consumedIdentity
                && w'.ledger == w.ledger && w'.read == a.upto
                && w'.held.generation == w.held.generation && w'.held.conversation == w.held.conversation
                && w'.held.consumedIdentity == Some(id) && w'.consumed == w.consumed + [id]
                && w'.cancelled == (if w.held.phase.Draining? then w.cancelled + [id] else w.cancelled)
                && w'.cancelledAt == (if w.held.phase.Draining? then w.cancelledAt + [a.upto] else w.cancelledAt)
                && w'.held.invalidatedIdentity ==
                   (if !w.held.phase.Draining? then w.held.invalidatedIdentity
                    else if handoffs == [] then None else Some(handoffs[|handoffs| - 1].id)))
  {
    hide ManagedIn, SignalsOf, Dedup, SnapshotOf, Remembered;
    var v := ReadView(w.ledger, a.upto, [], a.now, 0, ProbeQuiescent);
    ViewSignals(w.ledger, a.upto, [], a.now, 0, ProbeQuiescent);
    NoSignalsNoCompaction(w.held, v);
    UnmanagedSeesNothing(v.compactSignals, w.held.generation);
    hide ReadView;
  }

  /** A consumed id that is new extends both lists. */
  lemma NewId(cancelled: seq<string>, consumed: seq<string>, id: string, draining: bool)
    requires Distinct(cancelled) && id !in consumed
    requires forall k :: 0 <= k < |cancelled| ==> cancelled[k] in consumed
    ensures var cancelled' := if draining then cancelled + [id] else cancelled;
            Distinct(cancelled') && forall k :: 0 <= k < |cancelled'| ==> cancelled'[k] in consumed + [id]
  {
  }

  lemma ReleaseActsKeeps(w: World, a: Action, c: string)
    requires Follows(w, c) && a.Release? && w.read <= a.upto <= |w.ledger| && Active(w.held.phase)
    requires NewCompaction(w.held, ReadView(w.ledger, a.upto, [], a.now, 0, ProbeQuiescent))
    ensures Follows(Do(w, a), c)
  {
    hide ConsumedOk, CancelledOk, ManagedCompactions, ManagedHandoffs, Do, ReadView, NewCompaction, Distinct;
    var h := w.held;
    ReleaseActs(w, a, c);
    var managed := ManagedCompactions(w.ledger, a.upto, h.generation, c);
    ConsumedMoves(w.ledger, w.read, a.upto, h.generation, c, h.consumedIdentity, w.consumed);
    CancelledMoves(w.ledger, w.read, a.upto, h.generation, c, h.invalidatedIdentity, w.cancelledAt);
    ConsumesNew(w.ledger, a.upto, h.generation, c, h.consumedIdentity, w.consumed);
    CancelledNow(w.ledger, w.read, a.upto, h.generation, c, h.invalidatedIdentity, w.cancelledAt);
    NewId(w.cancelled, w.consumed, managed[|managed| - 1].id, h.phase.Draining?);
  }

  lemma ReleaseKeeps(w: World, a: Action, c: string)
    requires Follows(w, c) && a.Release?
    ensures Follows(Do(w, a), c)
  {
    hide ConsumedOk, CancelledOk, ReadView, NewCompaction, Distinct, LatestManaged, Remembered;
    if Active(w.held.phase) && w.read <= a.upto <= |w.ledger| {
      if NewCompaction(w.held, ReadView(w.ledger, a.upto, [], a.now, 0, ProbeQuiescent)) {
        ReleaseActsKeeps(w, a, c);
      } else {
        ConsumedMoves(w.ledger, w.read, a.upto, w.held.generation, c, w.held.consumedIdentity, w.consumed);
        CancelledMoves(w.ledger, w.read, a.upto, w.held.generation, c, w.held.invalidatedIdentity, w.cancelledAt);
      }
    }
  }

  lemma ViewSignals(ledger: seq<Event>, upto: nat, warnings: seq<Warning>, now: int, staleAfter: int, probe: Probe)
    requires upto <= |ledger|
    ensures var v := ReadView(ledger, upto, warnings, now, staleAfter, probe);
            && v.compactSignals == Compactions(ledger, upto) && v.handoffSignals == Handoffs(ledger, upto)
            && v.compactGenerations == GenerationsOf(v.compactSignals) && v.handoffGenerations == GenerationsOf(v.handoffSignals)
            && v.compactSeen == |v.compactSignals| && v.handoffSeen == |v.handoffSignals|
  {
  }

  /** A ledger without compactions or handoffs reports no generation either: the count-only branch never fires. */
  lemma NoSignalsNoCompaction(h: Held, v: View)
    requires v.compactGenerations == GenerationsOf(v.compactSignals)
    ensures v.compactSignals == [] ==> !NewCompaction(h, v)
  {
  }

  lemma NoSignalsNoConsent(h: Held, v: View)
    requires v.handoffGenerations == GenerationsOf(v.handoffSignals)
    ensures v.handoffSignals == [] ==> ConsentMissingOrStale(h, v)
  {
  }

  lemma {:induction false} UnmanagedSeesNothing(signals: seq<Signal>, g: nat)
    ensures ManagedIn(signals, g, None) == []
  {
    if signals != [] {
      UnmanagedSeesNothing(signals[..|signals| - 1], g);
    }
  }

  lemma EnterKeeps(w: World, a: Action, c: string)
    requires Follows(w, c) && a.Enter?
    ensures Follows(Do(w, a), c)
  {
    hide MayCheckpoint, ReadView, ConsumedOk, CancelledOk, LatestManaged;
    if w.read <= a.upto <= |w.ledger| {
      ConsumedMoves(w.ledger, w.read, a.upto, w.held.generation, c, w.held.consumedIdentity, w.consumed);
      CancelledMoves(w.ledger, w.read, a.upto, w.held.generation, c, w.held.invalidatedIdentity, w.cancelledAt);
    }
  }

  lemma FollowsStep(w: World, a: Action, c: string)
    requires Follows(w, c) && OneConversation(a, c)
    ensures Follows(Do(w, a), c)
  {
    hide Follows, Do;
    match a
    case Append(_) => AppendKeeps(w, a, c);
    case Observe(_, _) => ObserveKeeps(w, a, c);
    case Release(_, _) => ReleaseKeeps(w, a, c);
    case Enter(_, _, _, _, _) => EnterKeeps(w, a, c);
  }

  ghost predicate StartsWith(conversation: Option<string>, c: string) {
    conversation.None? || conversation == Some(c)
  }

  lemma {:induction false} Reachable(config: Config, g: nat, conversation: Option<string>, ledger: seq<Event>,
                                     actions: seq<Action>, c: string)
    requires StartsWith(conversation, c) && forall k :: 0 <= k < |actions| ==> OneConversation(actions[k], c)
    ensures Follows(Run(Start(config, g, conversation, ledger), actions), c)
    decreases |actions|
  {
    if actions != [] {
      Reachable(config, g, conversation, ledger, actions[..|actions| - 1], c);
      FollowsStep(Run(Start(config, g, conversation, ledger), actions[..|actions| - 1]), actions[|actions| - 1], c);
    }
  }

  /** Each compaction event is consumed at most once, and so cancels at most one drain. */
  lemma {:induction false} CompactionCancelsOnce(config: Config, g: nat, conversation: Option<string>, ledger: seq<Event>,
                              actions: seq<Action>, c: string)
    requires StartsWith(conversation, c) && forall k :: 0 <= k < |actions| ==> OneConversation(actions[k], c)
    ensures var w := Run(Start(config, g, conversation, ledger), actions);
            Distinct(w.consumed) && Distinct(w.cancelled) && |w.cancelled| == |w.cancelledAt|
  {
    Reachable(config, g, conversation, ledger, actions, c);
    CancellationsPaired(config, g, conversation, ledger, actions);
  }

  lemma {:induction false} CancellationsPaired(config: Config, g: nat, conversation: Option<string>, ledger: seq<Event>, actions: seq<Action>)
    ensures var w := Run(Start(config, g, conversation, ledger), actions); |w.cancelled| == |w.cancelledAt|
    decreases |actions|
  {
    if actions != [] {
      CancellationsPaired(config, g, conversation, ledger, actions[..|actions| - 1]);
      hide Released, ReadView, Observed, MayCheckpoint, NewCompaction;
    }
  }

  /**
    The step to CHECKPOINTING is authorised by a handoff request of this generation and
    conversation that no earlier cancellation of this generation had in its view.
  */
  lemma {:induction false} EntryHasFreshConsent(config: Config, g: nat, conversation: Option<string>, ledger: seq<Event>,
                             actions: seq<Action>, c: string, a: Action)
    requires StartsWith(conversation, c) && forall k :: 0 <= k < |actions| ==> OneConversation(actions[k], c)
    requires a.Enter?
    requires var w := Run(Start(config, g, conversation, ledger), actions);
             !w.held.phase.Checkpointing? && Do(w, a).held.phase.Checkpointing?
    ensures var w := Run(Start(config, g, conversation, ledger), actions);
            var after := Do(w, a);
            && a.upto <= |w.ledger| && after.entered.Some?
            && after.entered.value.consent in Handoffs(w.ledger, a.upto)
            && Managed(after.entered.value.consent, w.held.generation, Some(c))
            && forall k :: 0 <= k < |w.cancelledAt| ==>
                 w.cancelledAt[k] <= |w.ledger|
                 && forall s :: s in Handoffs(w.ledger, w.cancelledAt[k]) ==> s.id != after.entered.value.consent.id
  {
    hide Run;
    Reachable(config, g, conversation, ledger, actions, c);
    var w := Run(Start(config, g, conversation, ledger), actions);
    ConsentIsNew(w, a, c);
  }

  lemma ConsentIsNew(w: World, a: Action, c: string)
    requires Follows(w, c) && a.Enter? && !w.held.phase.Checkpointing? && Do(w, a).held.phase.Checkpointing?
    ensures var after := Do(w, a);
            && a.upto <= |w.ledger| && after.entered.Some?
            && after.entered.value.consent in Handoffs(w.ledger, a.upto)
            && Managed(after.entered.value.consent, w.held.generation, Some(c))
            && forall k :: 0 <= k < |w.cancelledAt| ==>
                 w.cancelledAt[k] <= |w.ledger|
                 && forall s :: s in Handoffs(w.ledger, w.cancelledAt[k]) ==> s.id != after.entered.value.consent.id
  {
    hide ConsumedOk, SignalsOf, Dedup, SnapshotOf, ManagedIn, Distinct;
    var (g, h) := (w.held.generation, w.held);
    var v := ReadView(w.ledger, a.upto, a.warnings, a.now, a.staleAfter, a.probe);
    ViewSignals(w.ledger, a.upto, a.warnings, a.now, a.staleAfter, a.probe);
    NoSignalsNoConsent(h, v);
    UnmanagedSeesNothing(v.handoffSignals, g);
    var managed := ManagedHandoffs(w.ledger, a.upto, g, c);
    var consent := managed[|managed| - 1];
    ManagedMembers(Handoffs(w.ledger, a.upto), g, Some(c));
    assert consent in managed;
    if w.cancelledAt != [] {
      var last := w.cancelledAt[|w.cancelledAt| - 1];
      NewerThan(w.ledger, last, a.upto, g, c, h.invalidatedIdentity);
      forall k | 0 <= k < |w.cancelledAt|
        ensures forall s :: s in Handoffs(w.ledger, w.cancelledAt[k]) ==> s.id != consent.id
      {
        assert w.ledger + [] == w.ledger;
        ReadsGrow(w.ledger, [], w.cancelledAt[k], last, HandoffRequested);
      }
    }
  }

  /** A newest managed handoff other than the invalidated one was not in the invalidating view. */
  lemma NewerThan(ledger: seq<Event>, from: nat, upto: nat, g: nat, c: string, identity: Option<string>)
    requires from <= upto <= |ledger|
    requires var managed := ManagedHandoffs(ledger, from, g, c);
             identity == if managed == [] then None else Some(managed[|managed| - 1].id)
    requires var managed := ManagedHandoffs(ledger, upto, g, c);
             managed != [] && Some(managed[|managed| - 1].id) != identity
    ensures var managed := ManagedHandoffs(ledger, upto, g, c);
            forall s :: s in Handoffs(ledger, from) ==> s.id != managed[|managed| - 1].id
  {
    hide SignalsOf, Dedup, ManagedIn;
    assert ledger + [] == ledger;
    ReadsGrow(ledger, [], from, upto, HandoffRequested);
    var (seen, all) := (Handoffs(ledger, from), Handoffs(ledger, upto));
    var rest := all[|seen|..];
    assert all == seen + rest;
    ManagedConcat(seen, rest, g, Some(c));
    ManagedMembers(rest, g, Some(c));
    var newer := ManagedIn(rest, g, Some(c));
    var managed := ManagedHandoffs(ledger, upto, g, c);
    var earlier := ManagedHandoffs(ledger, from, g, c);
    assert newer == [] ==> managed == earlier;
    var consent := managed[|managed| - 1];
    assert consent == newer[|newer| - 1] && consent in newer;
    var j :| 0 <= j < |rest| && rest[j] == consent;
    forall s | s in seen ensures s.id != consent.id {
      var i :| 0 <= i < |seen| && seen[i] == s;
      assert all[i].id != all[|seen| + j].id;
    }
  }

  // ---------------------------------------------------------------- any conversations

  /** Whatever conversations are sampled: what is remembered is the last 64 consumed, all different. */
  ghost predicate Recent(remembered: seq<string>, consumed: seq<string>) {
    && remembered == LastOf(consumed, LIFECYCLE_IDENTITY_HISTORY_LIMIT)
    && Distinct(remembered)
    && (forall i, j :: 0 <= i < j < |consumed| && j - i <= LIFECYCLE_IDENTITY_HISTORY_LIMIT ==> consumed[i] != consumed[j])
  }

  lemma {:induction false} FirstsOfDistinct(ids: seq<string>)
    requires Distinct(ids)
    ensures Firsts(ids) == ids
  {
    if ids != [] {
      var n := |ids| - 1;
      FirstsOfDistinct(ids[..n]);
      assert forall k | 0 <= k < n :: ids[..n][k] != ids[n];
    }
  }

  lemma LastDistinct(ids: seq<string>, n: nat)
    requires Distinct(ids)
    ensures Distinct(LastOf(ids, n))
  {
  }

  lemma DistinctPush(ids: seq<string>, id: string)
    requires Distinct(ids) && id !in ids
    ensures Distinct(ids + [id])
  {
  }

  /** The last of the last are the last. */
  lemma LastPush(ids: seq<string>, id: string, n: nat)
    requires n > 0
    ensures LastOf(LastOf(ids, n) + [id], n) == LastOf(ids + [id], n)
  {
  }

  lemma WindowGrows(consumed: seq<string>, id: string, n: nat)
    requires forall i, j :: 0 <= i < j < |consumed| && j - i <= n ==> consumed[i] != consumed[j]
    requires id !in LastOf(consumed, n)
    ensures var grown := consumed + [id]; forall i, j :: 0 <= i < j < |grown| && j - i <= n ==> grown[i] != grown[j]
  {
    var last := LastOf(consumed, n);
    forall i | 0 <= i < |consumed| && |consumed| - i <= n ensures consumed[i] != id {
      assert last[i - (|consumed| - |last|)] == consumed[i];
    }
  }

  lemma RecentGrows(remembered: seq<string>, consumed: seq<string>, id: string)
    requires Recent(remembered, consumed) && id !in remembered
    ensures Recent(Remembered(remembered, [id]), consumed + [id])
  {
    var limit := LIFECYCLE_IDENTITY_HISTORY_LIMIT;
    DistinctPush(remembered, id);
    FirstsOfDistinct(remembered + [id]);
    LastDistinct(remembered + [id], limit);
    LastPush(consumed, id, limit);
    WindowGrows(consumed, id, limit);
    hide Distinct, LastOf, Firsts;
  }

  lemma RecentStep(w: World, a: Action)
    requires Recent(w.held.consumedIdentities, w.consumed) && w.read <= |w.ledger|
    ensures Recent(Do(w, a).held.consumedIdentities, Do(w, a).consumed) && Do(w, a).read <= |Do(w, a).ledger|
  {
    hide Recent, ReadView, MayCheckpoint, ManagedIn, Remembered;
    if a.Release? && Active(w.held.phase) && w.read <= a.upto <= |w.ledger| {
      var v := ReadView(w.ledger, a.upto, [], a.now, 0, ProbeQuiescent);
      ViewSignals(w.ledger, a.upto, [], a.now, 0, ProbeQuiescent);
      NoSignalsNoCompaction(w.held, v);
      if NewCompaction(w.held, v) {
        RecentGrows(w.held.consumedIdentities, w.consumed, LatestManaged(v.compactSignals, w.held).value.id);
      }
    }
  }

  /** With any number of conversations, a compaction acts a second time only after at least 64 others acted in between. */
  lemma {:induction false} ConsumedAgainOnlyAfterSixtyFour(config: Config, g: nat, conversation: Option<string>,
                                                          ledger: seq<Event>, actions: seq<Action>)
    ensures var w := Run(Start(config, g, conversation, ledger), actions);
            && Recent(w.held.consumedIdentities, w.consumed) && w.read <= |w.ledger|
            && forall i, j :: 0 <= i < j < |w.consumed| && w.consumed[i] == w.consumed[j] ==> j - i > 64
    decreases |actions|
  {
    if actions != [] {
      ConsumedAgainOnlyAfterSixtyFour(config, g, conversation, ledger, actions[..|actions| - 1]);
      RecentStep(Run(Start(config, g, conversation, ledger), actions[..|actions| - 1]), actions[|actions| - 1]);
      hide Do;
    }
  }

  // ---------------------------------------------------------------- measurement

  /** Consecutive samples at the end that were not confident. */
  function Trailing(samples: seq<Sample>): nat {
    if samples == [] then 0
    else
      var s := samples[|samples| - 1];
      if s.Sample? && s.confidence.Confident? then 0 else Trailing(samples[..|samples| - 1]) + 1
  }

  function LastConfidence(samples: seq<Sample>): Confidence {
    if samples == [] || samples[|samples| - 1].Failed? then Unmeasured else samples[|samples| - 1].confidence
  }

  lemma {:induction false} StreakCountsSamples(config: Config, g: nat, conversation: Option<string>, ledger: seq<Event>, actions: seq<Action>)
    ensures var w := Run(Start(config, g, conversation, ledger), actions);
            && w.held.nonConfidentStreak == Trailing(w.samples) && w.held.confidence == LastConfidence(w.samples)
            && w.config == config
    decreases |actions|
  {
    if actions != [] {
      var before := Run(Start(config, g, conversation, ledger), actions[..|actions| - 1]);
      var a := actions[|actions| - 1];
      StreakCountsSamples(config, g, conversation, ledger, actions[..|actions| - 1]);
      StreakStep(before, a);
      hide Do;
    }
  }

  lemma StreakStep(w: World, a: Action)
    requires w.held.nonConfidentStreak == Trailing(w.samples) && w.held.confidence == LastConfidence(w.samples)
    ensures var w' := Do(w, a);
            && w'.held.nonConfidentStreak == Trailing(w'.samples) && w'.held.confidence == LastConfidence(w'.samples)
            && w'.config == w.config
  {
    hide ReadView, NewCompaction, MayCheckpoint, LatestManaged, Remembered, ManagedIn, Observed;
    if a.Observe? {
      assert (w.samples + [a.sample])[..|w.samples|] == w.samples;
      StreakSample(w.held, a.sample, a.now, w.config);
    }
  }

  lemma StreakSample(h: Held, sample: Sample, now: int, c: Config)
    ensures var h' := Observed(h, sample, now, c);
            && h'.nonConfidentStreak == (if sample.Sample? && sample.confidence.Confident? then 0 else h.nonConfidentStreak + 1)
            && h'.confidence == (if sample.Failed? then Unmeasured else sample.confidence)
  {
  }

  // ---------------------------------------------------------------- when a drain begins and ends

  /** A release that acts: it reads a compaction of the managed conversation not consumed before. */
  predicate Acts(w: World, a: Action) {
    && a.Release? && Active(w.held.phase) && w.read <= a.upto <= |w.ledger|
    && NewCompaction(w.held, ReadView(w.ledger, a.upto, [], a.now, 0, ProbeQuiescent))
  }

  /** A drain ends in exactly two ways: a release that acts, or the step to CHECKPOINTING. */
  lemma DrainEndsExactly(w: World, a: Action)
    requires w.held.phase.Draining?
    ensures Do(w, a).held.phase.Draining? <==> !(Acts(w, a) || (a.Enter? && Do(w, a) != w))
    ensures Acts(w, a) ==> Do(w, a).held.phase.Running?
    ensures a.Enter? && Do(w, a) != w ==> Do(w, a).held.phase.Checkpointing?
  {
    hide ReadView, NewCompaction, Remembered, ManagedIn, ConsentMissingOrStale;
  }

  /** Over any run a drain persists until one of the two: no sample, and no falling percentage, cancels it. */
  lemma {:induction false} DrainPersists(w: World, later: seq<Action>)
    requires w.held.phase.Draining? && !Run(w, later).held.phase.Draining?
    ensures exists k: nat :: k < |later| && EndsDrain(w, later, k)
    decreases |later|
  {
    if later != [] {
      var n := |later| - 1;
      if Run(w, later[..n]).held.phase.Draining? {
        DrainEndsExactly(Run(w, later[..n]), later[n]);
        assert EndsDrain(w, later, n);
      } else {
        DrainPersists(w, later[..n]);
        var k: nat :| k < n && EndsDrain(w, later[..n], k);
        assert later[..n][..k] == later[..k];
        assert EndsDrain(w, later, k);
      }
    }
  }

  /** The action at position `k` finds the drain and ends it, by a release that acts or by entering. */
  predicate EndsDrain(w: World, later: seq<Action>, k: nat)
    requires k < |later|
  {
    var at := Run(w, later[..k]);
    at.held.phase.Draining? && (Acts(at, later[k]) || (later[k].Enter? && Do(at, later[k]) != at))
  }

  /** Between a cancellation and the end of its grace period. */
  predicate InGrace(w: World, until: int) {
    w.held.phase.Running? && w.held.compactionPending && w.held.pendingUntil == Some(until)
  }

  /** A sample that ends the grace: usage measured below the threshold, or measured after the period. */
  predicate EndsGrace(a: Action, until: int, c: Config) {
    && a.Observe? && a.sample.Sample? && !a.sample.confidence.Unmeasured?
    && (a.sample.percent < c.rotatePercent || a.now >= until)
  }

  lemma GraceStep(w: World, a: Action, until: int)
    requires InGrace(w, until)
    ensures InGrace(Do(w, a), until) <==> !EndsGrace(a, until, w.config)
    ensures Do(w, a).config == w.config
  {
    hide ReadView, NewCompaction, Remembered, ManagedIn, ConsentMissingOrStale, LatestManaged;
  }

  lemma {:induction false} GraceRun(w: World, later: seq<Action>, until: int)
    requires InGrace(w, until)
    ensures Run(w, later).config == w.config
    ensures (forall k :: 0 <= k < |later| ==> !EndsGrace(later[k], until, w.config)) ==> InGrace(Run(w, later), until)
    decreases |later|
  {
    if later != [] {
      var n := |later| - 1;
      GraceRun(w, later[..n], until);
      ConfigStays(Run(w, later[..n]), later[n]);
      hide Do;
      if InGrace(Run(w, later[..n]), until) {
        GraceStep(Run(w, later[..n]), later[n], until);
      }
    }
  }

  lemma ConfigStays(w: World, a: Action)
    ensures Do(w, a).config == w.config
  {
    hide ReadView, NewCompaction, MayCheckpoint, Released, Observed, LatestManaged;
  }

  /**
    A cancellation holds: whatever is sampled, released, appended or tried after it, until usage
    is measured below the threshold or after the grace period the drain is not armed again, not
    even announced, and the marker stays. The next measurement that does either ends it.
   */
  lemma {:induction false} GraceHolds(w: World, a: Action, later: seq<Action>, next: Action)
    requires w.held.phase.Draining? && Acts(w, a)
    requires forall k :: 0 <= k < |later| ==> !EndsGrace(later[k], a.now + SELF_COMPACTION_GRACE_SECONDS, w.config)
    ensures var at := Run(Do(w, a), later);
            && InGrace(at, a.now + SELF_COMPACTION_GRACE_SECONDS)
            && (InGrace(Do(at, next), a.now + SELF_COMPACTION_GRACE_SECONDS) <==>
                !EndsGrace(next, a.now + SELF_COMPACTION_GRACE_SECONDS, w.config))
  {
    var until := a.now + SELF_COMPACTION_GRACE_SECONDS;
    GraceBegins(w, a);
    ConfigStays(w, a);
    hide Do;
    GraceRun(Do(w, a), later, until);
    GraceStep(Run(Do(w, a), later), next, until);
  }

  lemma GraceBegins(w: World, a: Action)
    requires w.held.phase.Draining? && Acts(w, a)
    ensures InGrace(Do(w, a), a.now + SELF_COMPACTION_GRACE_SECONDS)
  {
    hide ReadView, NewCompaction, Remembered, ManagedIn, LatestManaged;
  }
}
