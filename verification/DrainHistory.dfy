/**
  The bounded history of consumed compactions: exactly when a release acts, and a run in which
  the conversation changes often enough for one compaction to act twice.
 */
module DrainHistory {
  import opened Options
  import opened Activity
  import opened Ledger
  import opened Drain
  import opened DrainTheorems

  /** The remembered identity is the last one consumed. */
  ghost predicate LastRemembered(h: Held, consumed: seq<string>) {
    h.consumedIdentity == if consumed == [] then None else Some(consumed[|consumed| - 1])
  }

  lemma {:induction false} RemembersLast(config: Config, g: nat, conversation: Option<string>, ledger: seq<Event>, actions: seq<Action>)
    ensures var w := Run(Start(config, g, conversation, ledger), actions); LastRemembered(w.held, w.consumed)
    decreases |actions|
  {
    if actions != [] {
      var w := Run(Start(config, g, conversation, ledger), actions[..|actions| - 1]);
      RemembersLast(config, g, conversation, ledger, actions[..|actions| - 1]);
      ConsumedAgainOnlyAfterSixtyFour(config, g, conversation, ledger, actions[..|actions| - 1]);
      RemembersStep(w, actions[|actions| - 1]);
      hide Do;
    }
  }

  lemma RemembersStep(w: World, a: Action)
    requires LastRemembered(w.held, w.consumed) && w.read <= |w.ledger|
    ensures LastRemembered(Do(w, a).held, Do(w, a).consumed)
  {
    hide ReadView, MayCheckpoint, LatestManaged, Remembered;
    if a.Release? && Active(w.held.phase) && w.read <= a.upto <= |w.ledger| {
      var v := ReadView(w.ledger, a.upto, [], a.now, 0, ProbeQuiescent);
      ViewSignals(w.ledger, a.upto, [], a.now, 0, ProbeQuiescent);
      NoSignalsNoCompaction(w.held, v);
    }
  }

  /** A release acts exactly when the newest managed compaction is not among the last 64 consumed. */
  lemma {:induction false} ReleaseActsExactlyWhenForgotten(config: Config, g: nat, conversation: Option<string>, ledger: seq<Event>,
                                        actions: seq<Action>, upto: nat, now: int)
    requires var w := Run(Start(config, g, conversation, ledger), actions);
             Active(w.held.phase) && w.read <= upto <= |w.ledger|
    ensures var w := Run(Start(config, g, conversation, ledger), actions);
            var managed := ManagedIn(Compactions(w.ledger, upto), w.held.generation, w.held.conversation);
            |Do(w, Release(upto, now)).consumed| > |w.consumed|
            <==> managed != [] && managed[|managed| - 1].id !in LastOf(w.consumed, LIFECYCLE_IDENTITY_HISTORY_LIMIT)
  {
    hide Run;
    var w := Run(Start(config, g, conversation, ledger), actions);
    RemembersLast(config, g, conversation, ledger, actions);
    ConsumedAgainOnlyAfterSixtyFour(config, g, conversation, ledger, actions);
    var v := ReadView(w.ledger, upto, [], now, 0, ProbeQuiescent);
    ViewSignals(w.ledger, upto, [], now, 0, ProbeQuiescent);
    NoSignalsNoCompaction(w.held, v);
    if v.compactSignals == [] {
      assert ManagedIn(v.compactSignals, w.held.generation, w.held.conversation) == [];
    }
    if w.consumed != [] {
      var last := LastOf(w.consumed, LIFECYCLE_IDENTITY_HISTORY_LIMIT);
      assert last[|last| - 1] == w.consumed[|w.consumed| - 1];
    }
    hide ReadView, Remembered, ManagedIn, Compactions;
  }

  // ---------------------------------------------------------------- a run that consumes one event twice

  function Compaction(id: string, conversation: string): Event {
    Event(id, 0, conversation, PreCompact, 0, "")
  }

  function Name(k: nat): string {
    seq(k, _ => 'b')
  }

  function Names(k: nat): seq<string> {
    seq(k, j requires 0 <= j < k => Name(j))
  }

  /** The first event is of conversation A, `k` later ones of conversation B; all were consumed in turn. */
  ghost predicate Alternated(w: World, k: nat) {
    && w.config == Config(50.0, 80.0, 5)
    && w.held.phase.Running? && w.held.generation == 0 && w.held.conversation == Some("B") && !w.held.compactionPending
    && w.read == |w.ledger| == k + 1
    && (forall x :: x in Ids(w.ledger) ==> x in w.consumed)
    && w.consumed == ["a"] + Names(k)
    && w.held.consumedIdentities == LastOf(w.consumed, LIFECYCLE_IDENTITY_HISTORY_LIMIT)
    && Recent(w.held.consumedIdentities, w.consumed)
    && LastRemembered(w.held, w.consumed)
    && ManagedIn(Compactions(w.ledger, w.read), 0, Some("A")) == [Signal("a", 0, "A")]
  }

  /** A new compaction at the end of the ledger is the newest signal. */
  lemma NewestSignal(ledger: seq<Event>, id: string, conversation: string)
    requires id !in Ids(ledger)
    ensures var longer := ledger + [Compaction(id, conversation)];
            && Compactions(longer, |longer|) == Compactions(ledger, |ledger|) + [Signal(id, 0, conversation)]
            && Ids(longer) == Ids(ledger) + {id}
  {
    var e := Compaction(id, conversation);
    var longer := ledger + [e];
    assert longer[..|ledger|] == ledger && longer[..|longer|] == longer && ledger[..|ledger|] == ledger;
    assert (Dedup(ledger) + [e])[..|Dedup(ledger)|] == Dedup(ledger);
    IdsConcat(ledger, [e]);
    assert [e][0].id in Ids([e]);
  }

  lemma ManagedPush(signals: seq<Signal>, s: Signal, conversation: string)
    ensures ManagedIn(signals + [s], 0, Some(conversation))
         == ManagedIn(signals, 0, Some(conversation)) + if Managed(s, 0, Some(conversation)) then [s] else []
  {
    assert (signals + [s])[..|signals|] == signals;
  }

  /** Releasing on a ledger whose newest managed compaction is not remembered consumes it. */
  lemma Consumes(w: World, id: string)
    requires w.held.phase.Running? && w.read <= |w.ledger|
    requires var managed := ManagedIn(Compactions(w.ledger, |w.ledger|), w.held.generation, w.held.conversation);
             managed != [] && managed[|managed| - 1].id == id
    requires Recent(w.held.consumedIdentities, w.consumed) && LastRemembered(w.held, w.consumed)
    requires id !in w.held.consumedIdentities
    ensures var w' := Do(w, Release(|w.ledger|, 0));
            && w'.consumed == w.consumed + [id]
            && w'.held.consumedIdentities == Remembered(w.held.consumedIdentities, [id])
            && Recent(w'.held.consumedIdentities, w'.consumed) && LastRemembered(w'.held, w'.consumed)
            && w'.read == |w.ledger| && w'.ledger == w.ledger && w'.config == w.config
            && w'.held.phase.Running? && w'.held.generation == w.held.generation && w'.held.conversation == w.held.conversation
            && w'.held.compactionPending == w.held.compactionPending
  {
    hide Recent, Remembered, ManagedIn, Compactions, LastRemembered, ReadView;
    NewestActs(w, id);
    RecentGrows(w.held.consumedIdentities, w.consumed, id);
    LastAdded(w.consumed, id, Do(w, Release(|w.ledger|, 0)).held);
  }

  lemma LastAdded(consumed: seq<string>, id: string, h: Held)
    requires h.consumedIdentity == Some(id)
    ensures LastRemembered(h, consumed + [id])
  {
  }

  lemma LastIsRecent(h: Held, consumed: seq<string>)
    requires Recent(h.consumedIdentities, consumed) && LastRemembered(h, consumed)
    ensures forall id :: Some(id) == h.consumedIdentity ==> id in h.consumedIdentities
  {
    if consumed != [] {
      assert h.consumedIdentities[|h.consumedIdentities| - 1] == consumed[|consumed| - 1];
    }
  }

  lemma NewestActs(w: World, id: string)
    requires w.held.phase.Running? && w.read <= |w.ledger|
    requires var managed := ManagedIn(Compactions(w.ledger, |w.ledger|), w.held.generation, w.held.conversation);
             managed != [] && managed[|managed| - 1].id == id
    requires Recent(w.held.consumedIdentities, w.consumed) && LastRemembered(w.held, w.consumed)
    requires id !in w.held.consumedIdentities
    ensures var w' := Do(w, Release(|w.ledger|, 0));
            && w'.consumed == w.consumed + [id] && w'.held.consumedIdentity == Some(id)
            && w'.held.consumedIdentities == Remembered(w.held.consumedIdentities, [id])
            && w'.read == |w.ledger| && w'.ledger == w.ledger && w'.config == w.config
            && w'.held.phase.Running? && w'.held.generation == w.held.generation && w'.held.conversation == w.held.conversation
            && w'.held.compactionPending == w.held.compactionPending
  {
    hide Recent, Remembered, Compactions, LastRemembered, SnapshotOf;
    var v := ReadView(w.ledger, |w.ledger|, [], 0, 0, ProbeQuiescent);
    ViewSignals(w.ledger, |w.ledger|, [], 0, 0, ProbeQuiescent);
    assert v.compactSignals == [] ==> ManagedIn(v.compactSignals, w.held.generation, w.held.conversation) == [];
    LastIsRecent(w.held, w.consumed);
    hide ReadView, ManagedIn;
  }

  lemma OneCompaction()
    ensures var e := Compaction("a", "A");
            Ids([e]) == {"a"} && Compactions([e], 1) == [Signal("a", 0, "A")]
            && ManagedIn(Compactions([e], 1), 0, Some("A")) == [Signal("a", 0, "A")]
  {
    var e := Compaction("a", "A");
    assert Compactions([], 0) == [] && Ids([]) == {};
    hide SignalsOf, Dedup, Ids, Compactions;
    NewestSignal([], "a", "A");
    assert [] + [e] == [e];
    assert [] + [Signal("a", 0, "A")] == [Signal("a", 0, "A")];
    assert ManagedIn([], 0, Some("A")) == [];
    ManagedPush([], Signal("a", 0, "A"), "A");
  }

  lemma FirstConsumed(w: World)
    requires w.ledger == [Compaction("a", "A")] && w.read == 0 && w.consumed == [] && w.config == Config(50.0, 80.0, 5)
    requires w.held.phase.Running? && w.held.generation == 0 && w.held.conversation == Some("A") && !w.held.compactionPending
    requires w.held.consumedIdentities == [] && w.held.consumedIdentity.None?
    ensures Alternated(Do(Do(w, Release(1, 0)), Observe(Sample("B", 0.0, Degraded), 0)), 0)
  {
    OneCompaction();
    assert Recent([], []);
    hide Do, ManagedIn, Compactions, Ids, Recent, Remembered;
    Consumes(w, "a");
    var consumed := Do(w, Release(1, 0));
    FirstAlternated(consumed);
  }

  lemma FirstAlternated(w: World)
    requires w.ledger == [Compaction("a", "A")] && w.read == 1 && w.config == Config(50.0, 80.0, 5)
    requires w.held.phase.Running? && w.held.generation == 0 && !w.held.compactionPending
    requires w.consumed == [] + ["a"] && Recent(w.held.consumedIdentities, w.consumed) && LastRemembered(w.held, w.consumed)
    ensures Alternated(Do(w, Observe(Sample("B", 0.0, Degraded), 0)), 0)
  {
    OneCompaction();
    hide Do, ManagedIn, Compactions, Ids, Remembered;
    RecentIsLast(w.held.consumedIdentities, w.consumed);
    hide Recent, LastOf;
    assert Names(0) == [] && [] + ["a"] == ["a"] + Names(0);
    SampleMovesConversation(w, "B");
  }

  /** A degraded sample far below the thresholds only moves the managed conversation. */
  lemma SampleMovesConversation(w: World, conversation: string)
    requires w.held.phase.Running? && !w.held.compactionPending && w.config == Config(50.0, 80.0, 5)
    ensures var w' := Do(w, Observe(Sample(conversation, 0.0, Degraded), 0));
            && w'.ledger == w.ledger && w'.read == w.read && w'.consumed == w.consumed && w'.config == w.config
            && w'.held.conversation == Some(conversation) && w'.held.phase.Running? && w'.held.generation == w.held.generation
            && w'.held.consumedIdentities == w.held.consumedIdentities && w'.held.consumedIdentity == w.held.consumedIdentity
            && !w'.held.compactionPending
  {
  }

  lemma NamesDiffer(k: nat, j: nat)
    requires j < k
    ensures Name(k) != Name(j) && Name(k) != "a"
  {
    assert |Name(k)| == k && |Name(j)| == j;
    if k == 1 {
      assert Name(k)[0] == 'b';
    }
  }

  lemma NameIsNew(w: World, k: nat)
    requires Alternated(w, k)
    ensures Name(k) !in w.consumed && Name(k) !in Ids(w.ledger) && Name(k) !in w.held.consumedIdentities
    ensures Names(k + 1) == Names(k) + [Name(k)]
  {
    hide Recent, ManagedIn, Compactions, Ids;
    assert "a" != Name(k) by {
      assert |Name(k)| == k;
      if k == 1 {
        assert Name(k)[0] == 'b';
      }
    }
    forall j | 0 <= j < k ensures Name(j) != Name(k) {
      NamesDiffer(k, j);
    }
    forall x | x in w.held.consumedIdentities ensures x in w.consumed {
    }
  }

  lemma OneMoreAppended(w: World, k: nat)
    requires Alternated(w, k)
    ensures var appended := Do(w, Append(Compaction(Name(k), "B")));
            && appended == w.(ledger := appended.ledger) && |appended.ledger| == k + 2
            && Ids(appended.ledger) == Ids(w.ledger) + {Name(k)}
            && (var managed := ManagedIn(Compactions(appended.ledger, k + 2), 0, Some("B"));
                managed != [] && managed[|managed| - 1].id == Name(k))
            && ManagedIn(Compactions(appended.ledger, k + 2), 0, Some("A")) == [Signal("a", 0, "A")]
  {
    NameIsNew(w, k);
    hide Recent, LastOf, LastRemembered, ManagedIn, Compactions, Ids, Names, Name;
    NewestSignal(w.ledger, Name(k), "B");
    ManagedPush(Compactions(w.ledger, |w.ledger|), Signal(Name(k), 0, "B"), "B");
    ManagedPush(Compactions(w.ledger, |w.ledger|), Signal(Name(k), 0, "B"), "A");
  }

  lemma OneMoreConsumed(w: World, k: nat)
    requires Alternated(w, k)
    ensures Alternated(Do(Do(w, Append(Compaction(Name(k), "B"))), Release(k + 2, 0)), k + 1)
  {
    NameIsNew(w, k);
    OneMoreAppended(w, k);
    hide Do, ManagedIn, Compactions, Ids, Names, Name, Recent, LastRemembered, Remembered;
    var appended := Do(w, Append(Compaction(Name(k), "B")));
    Consumes(appended, Name(k));
    var after := Do(appended, Release(k + 2, 0));
    assert (["a"] + Names(k)) + [Name(k)] == ["a"] + (Names(k) + [Name(k)]);
    RecentIsLast(after.held.consumedIdentities, after.consumed);
    hide LastOf;
  }

  lemma RecentIsLast(remembered: seq<string>, consumed: seq<string>)
    requires Recent(remembered, consumed)
    ensures remembered == LastOf(consumed, LIFECYCLE_IDENTITY_HISTORY_LIMIT)
  {
  }

  lemma AppendFirst(w: World, e: Event)
    requires w.ledger == []
    ensures Do(w, Append(e)) == w.(ledger := [e])
  {
    assert [] + [e] == [e];
  }

  lemma {:induction false} ManyConsumed(start: World, k: nat) returns (actions: seq<Action>)
    requires start == Start(Config(50.0, 80.0, 5), 0, Some("A"), [])
    ensures Alternated(Run(start, actions), k)
  {
    hide Do, Alternated;
    if k == 0 {
      AppendFirst(start, Compaction("a", "A"));
      FirstConsumed(Do(start, Append(Compaction("a", "A"))));
      var a := [] + [Append(Compaction("a", "A"))];
      RunAppend(start, [], Append(Compaction("a", "A")));
      RunAppend(start, a, Release(1, 0));
      RunAppend(start, a + [Release(1, 0)], Observe(Sample("B", 0.0, Degraded), 0));
      actions := a + [Release(1, 0)] + [Observe(Sample("B", 0.0, Degraded), 0)];
      assert Run(start, []) == start;
      hide Run;
    } else {
      var fewer := ManyConsumed(start, k - 1);
      hide Run;
      OneMoreConsumed(Run(start, fewer), k - 1);
      RunAppend(start, fewer, Append(Compaction(Name(k - 1), "B")));
      RunAppend(start, fewer + [Append(Compaction(Name(k - 1), "B"))], Release(k + 1, 0));
      actions := fewer + [Append(Compaction(Name(k - 1), "B"))] + [Release(k + 1, 0)];
    }
  }

  lemma FirstForgotten(w: World)
    requires Alternated(w, 64)
    ensures "a" !in w.held.consumedIdentities && |w.consumed| == 65 && w.consumed[0] == "a"
  {
    hide Recent, ManagedIn, Compactions, Ids, LastRemembered;
    forall k | 0 <= k < 64 ensures w.held.consumedIdentities[k] != "a" {
      assert w.held.consumedIdentities[k] == w.consumed[k + 1] == Name(k);
      if k == 1 {
        assert Name(k)[0] == 'b';
      }
    }
  }

  /** Back in the first conversation, its one compaction is the newest, and it is no longer remembered. */
  lemma ActsAgain(w: World)
    requires Alternated(w, 64)
    ensures Do(Do(w, Observe(Sample("A", 0.0, Degraded), 0)), Release(65, 0)).consumed == w.consumed + ["a"]
  {
    hide Recent, Do, ManagedIn, Compactions, Ids, Names, LastRemembered, LastOf, Remembered;
    FirstForgotten(w);
    SampleMovesConversation(w, "A");
    var back := Do(w, Observe(Sample("A", 0.0, Degraded), 0));
    StillRemembered(w.held, back.held, w.consumed);
    Consumes(back, "a");
  }

  lemma TwiceFrom(start: World) returns (actions: seq<Action>)
    requires start == Start(Config(50.0, 80.0, 5), 0, Some("A"), [])
    ensures var w := Run(start, actions); |w.consumed| == 66 && w.consumed[0] == w.consumed[65]
  {
    hide Run, Do, Start, Alternated;
    var prefix := ManyConsumed(start, 64);
    FirstForgotten(Run(start, prefix));
    ActsAgain(Run(start, prefix));
    RunAppend(start, prefix, Observe(Sample("A", 0.0, Degraded), 0));
    RunAppend(start, prefix + [Observe(Sample("A", 0.0, Degraded), 0)], Release(65, 0));
    actions := prefix + [Observe(Sample("A", 0.0, Degraded), 0)] + [Release(65, 0)];
    assert Run(start, actions).consumed == Run(start, prefix).consumed + ["a"];
  }

  /** After 64 compactions of another conversation, the first conversation's old compaction acts again. */
  lemma ConsumedTwiceAfterSixtyFour()
    ensures exists actions: seq<Action> ::
              var w := Run(Start(Config(50.0, 80.0, 5), 0, Some("A"), []), actions);
              |w.consumed| == 66 && w.consumed[0] == w.consumed[65]
  {
    hide Run, Start;
    var actions := TwiceFrom(Start(Config(50.0, 80.0, 5), 0, Some("A"), []));
  }

  lemma StillRemembered(h: Held, h': Held, consumed: seq<string>)
    requires LastRemembered(h, consumed) && h'.consumedIdentity == h.consumedIdentity
    ensures LastRemembered(h', consumed)
  {
  }
}
