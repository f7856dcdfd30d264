/** What every run of the mirror outbox keeps, however enqueuers, replayers and crashes interleave. */
module OutboxTheorems {
  import opened Outbox
  import opened Sequences
  import opened OutboxSafety

  /** An accepted entry is pending, delivered or dead-lettered, and never two of these. */
  lemma {:induction false} EveryEntryAccountedFor(maxBytes: nat, actions: seq<Action>, e: Entry)
    ensures var w := Run(Start(maxBytes), actions);
            && (e in w.accepted <==> e in w.queue || e in w.delivered || e in w.buried)
            && !(e in w.queue && e in w.delivered)
            && !(e in w.queue && e in w.buried)
            && !(e in w.delivered && e in w.buried)
  {
    hide Run, LettersOk, ReplaysOk, OneExecutor;
    var w := Run(Start(maxBytes), actions);
    Reachable(maxBytes, actions);
    KeepMembers(w.accepted, w.delivered + w.buried);
  }

  /** The pending entries are the accepted ones that were not settled, in enqueue order, within the bound. */
  lemma {:induction false} PendingInEnqueueOrder(maxBytes: nat, actions: seq<Action>)
    ensures var w := Run(Start(maxBytes), actions);
            && w.queue == Keep(w.accepted, w.delivered + w.buried)
            && Ascending(w.queue)
            && DistinctPairs(w.queue)
            && Bytes(w.queue) <= maxBytes
            && LetterBytes(w.letters) <= maxBytes
  {
    hide Run, ReplaysOk, OneExecutor;
    var w := Run(Start(maxBytes), actions);
    Reachable(maxBytes, actions);
    BoundIsFixed(maxBytes, actions);
    KeepAscending(w.accepted, w.delivered + w.buried);
  }

  lemma {:induction false} BoundIsFixed(maxBytes: nat, actions: seq<Action>)
    ensures Run(Start(maxBytes), actions).maxBytes == maxBytes
    decreases |actions|
  {
    if actions != [] {
      BoundIsFixed(maxBytes, actions[..|actions| - 1]);
      BoundStep(Run(Start(maxBytes), actions[..|actions| - 1]), actions[|actions| - 1]);
      hide Do;
    }
  }

  lemma BoundStep(w: World, a: Action)
    ensures Do(w, a).maxBytes == w.maxBytes
  {
    hide Keep, Reconciled, Queued, StripeFree;
  }

  /** Delivery needs an execution that echoed the exact fingerprint; burial one that cannot succeed. */
  lemma {:induction false} SettledForCause(maxBytes: nat, actions: seq<Action>, e: Entry)
    ensures var w := Run(Start(maxBytes), actions);
            && (e in w.delivered ==> (e, Accepted(e.fingerprint)) in w.executions)
            && (e in w.buried ==> Unmirrorable(w.executions, e))
  {
    hide Run, QueueOk, ReplaysOk, OneExecutor;
    Reachable(maxBytes, actions);
  }

  /** This step is a reconciliation that stops between its two files with the letter of `e` on disk. */
  predicate HalfBuries(w: World, a: Action, e: Entry) {
    && a.CrashInReconcile?
    && Reconcilable(w, a.replay)
    && var letters := Reconciled(w.queue, w.replays[a.replay].batch, w.replays[a.replay].outcomes).1;
       && a.written <= |letters|
       && LetterBytes(w.letters) + LetterBytes(letters) <= w.maxBytes
       && e in BuriedBy(letters[..a.written])
  }

  /** How many steps of a run did that. */
  function HalfBurials(maxBytes: nat, actions: seq<Action>, e: Entry): nat
    decreases |actions|
  {
    if actions == [] then 0
    else
      var n := |actions| - 1;
      HalfBurials(maxBytes, actions[..n], e) + if HalfBuries(Run(Start(maxBytes), actions[..n]), actions[n], e) then 1 else 0
  }

  /** An entry's letters, exactly: one if it is buried, and one for each reconciliation interrupted after writing it. */
  lemma {:induction false} LettersCounted(maxBytes: nat, actions: seq<Action>, e: Entry)
    ensures var w := Run(Start(maxBytes), actions);
            Copies(w.letters, e) == (if e in w.buried then 1 else 0) + HalfBurials(maxBytes, actions, e)
    decreases |actions|
  {
    if actions != [] {
      var n := |actions| - 1;
      LettersCounted(maxBytes, actions[..n], e);
      Reachable(maxBytes, actions[..n]);
      hide Run;
      LettersStep(Run(Start(maxBytes), actions[..n]), actions[n], e);
    }
  }

  lemma LettersStep(w: World, a: Action, e: Entry)
    requires Conserved(w)
    ensures Copies(Do(w, a).letters, e) + (if e in w.buried then 1 else 0)
         == Copies(w.letters, e) + (if e in Do(w, a).buried then 1 else 0) + (if HalfBuries(w, a, e) then 1 else 0)
  {
    hide Conserved;
    match a
    case Reconcile(i) =>
      if Reconcilable(w, i) {
        ReconcileSplits(w, i);
        CopiesConcat(w.letters, Reconciled(w.queue, w.replays[i].batch, w.replays[i].outcomes).1, e);
      }
    case CrashInReconcile(i, written) =>
      if Reconcilable(w, i) {
        ReconcileSplits(w, i);
        var letters := Reconciled(w.queue, w.replays[i].batch, w.replays[i].outcomes).1;
        if written <= |letters| {
          CopiesConcat(w.letters, letters[..written], e);
          PrefixCopies(letters, written, e);
        }
      }
    case _ => LettersUntouched(w, a);
  }

  lemma LettersUntouched(w: World, a: Action)
    requires !a.Reconcile? && !a.CrashInReconcile?
    ensures Do(w, a).letters == w.letters && Do(w, a).buried == w.buried
  {
    hide StripeFree, Queued;
  }

  /** Of letters without repetition a prefix holds one for an entry or none. */
  lemma PrefixCopies(letters: seq<Letter>, written: nat, e: Entry)
    requires written <= |letters| && Copies(letters, e) <= 1
    ensures Copies(letters[..written], e) == if e in BuriedBy(letters[..written]) then 1 else 0
  {
    assert letters == letters[..written] + letters[written..];
    CopiesConcat(letters[..written], letters[written..], e);
    CopiesPositive(letters[..written], e);
  }

  lemma {:induction false} CopiesPositive(letters: seq<Letter>, e: Entry)
    ensures Copies(letters, e) > 0 <==> e in BuriedBy(letters)
  {
    if letters != [] {
      var n := |letters| - 1;
      CopiesPositive(letters[..n], e);
      assert letters[..n] + [letters[n]] == letters;
      LetterAdded(letters[..n], letters[n]);
    }
  }

  /** The world after the first `m` actions of a run. */
  function At(maxBytes: nat, actions: seq<Action>, m: nat): World
    requires m <= |actions|
  {
    Run(Start(maxBytes), actions[..m])
  }

  lemma AtPrefix(maxBytes: nat, actions: seq<Action>, n: nat, m: nat)
    requires m <= n <= |actions|
    ensures At(maxBytes, actions[..n], m) == At(maxBytes, actions, m)
  {
    assert actions[..n][..m] == actions[..m];
  }

  lemma AtEnd(maxBytes: nat, actions: seq<Action>)
    ensures At(maxBytes, actions, |actions|) == Run(Start(maxBytes), actions)
  {
    assert actions[..|actions|] == actions;
  }

  predicate HalfBuriesAt(maxBytes: nat, actions: seq<Action>, k: nat, e: Entry)
    requires k < |actions|
  {
    HalfBuries(At(maxBytes, actions, k), actions[k], e)
  }

  lemma HalfBuriesPrefix(maxBytes: nat, actions: seq<Action>, n: nat, k: nat, e: Entry)
    requires k < n <= |actions|
    ensures HalfBuriesAt(maxBytes, actions[..n], k, e) == HalfBuriesAt(maxBytes, actions, k, e)
  {
    hide HalfBuries, Run;
    AtPrefix(maxBytes, actions, n, k);
  }

  /**
    Dead-lettered exactly once when buried and never otherwise: this holds of an entry if and
    only if no reconciliation was interrupted after writing that entry's own letter.
   */
  lemma {:induction false} DeadLetteredOnce(maxBytes: nat, actions: seq<Action>, e: Entry)
    ensures var w := Run(Start(maxBytes), actions);
            && (Copies(w.letters, e) == (if e in w.buried then 1 else 0) <==>
                forall k: nat :: k < |actions| ==> !HalfBuriesAt(maxBytes, actions, k, e))
            && (e in w.buried ==> Copies(w.letters, e) >= 1)
  {
    LettersCounted(maxBytes, actions, e);
    NoHalfBurials(maxBytes, actions, e);
  }

  lemma {:induction false} NoHalfBurials(maxBytes: nat, actions: seq<Action>, e: Entry)
    ensures HalfBurials(maxBytes, actions, e) == 0 <==>
            forall k: nat :: k < |actions| ==> !HalfBuriesAt(maxBytes, actions, k, e)
    decreases |actions|
  {
    if actions != [] {
      var n := |actions| - 1;
      NoHalfBurials(maxBytes, actions[..n], e);
      assert HalfBuriesAt(maxBytes, actions, n, e) == HalfBuries(Run(Start(maxBytes), actions[..n]), actions[n], e);
      assert HalfBurials(maxBytes, actions, e)
          == HalfBurials(maxBytes, actions[..n], e) + if HalfBuriesAt(maxBytes, actions, n, e) then 1 else 0;
      hide HalfBuries, HalfBuriesAt, HalfBurials, Run;
      if HalfBurials(maxBytes, actions[..n], e) == 0 {
        forall k: nat | k < n ensures !HalfBuriesAt(maxBytes, actions, k, e) {
          HalfBuriesPrefix(maxBytes, actions, n, k, e);
          assert !HalfBuriesAt(maxBytes, actions[..n], k, e);
        }
      } else {
        var k: nat :| k < n && HalfBuriesAt(maxBytes, actions[..n], k, e);
        HalfBuriesPrefix(maxBytes, actions, n, k, e);
      }
    }
  }

  /** Two replayers never execute entries of one stripe, hence one entry, at the same time. */
  lemma {:induction false} ExecutionsDoNotOverlap(maxBytes: nat, actions: seq<Action>, i: nat, j: nat)
    requires var w := Run(Start(maxBytes), actions);
             && i in w.replays && j in w.replays && i != j
             && w.replays[i].executing && w.replays[j].executing
             && |w.replays[i].outcomes| < |w.replays[i].batch| && |w.replays[j].outcomes| < |w.replays[j].batch|
    ensures var w := Run(Start(maxBytes), actions); Next(w.replays[i]).stripe != Next(w.replays[j]).stripe
  {
    hide Run, QueueOk, ReplaysOk, LettersOk;
    Reachable(maxBytes, actions);
  }

  /** Settling is final: whatever follows, the entry does not come back to the queue. */
  lemma {:induction false} SettledForever(maxBytes: nat, earlier: seq<Action>, later: seq<Action>, e: Entry)
    ensures var (before, after) := (Run(Start(maxBytes), earlier), Run(Start(maxBytes), earlier + later));
            && (e in before.delivered ==> e in after.delivered && e !in after.queue)
            && (e in before.buried ==> e in after.buried && e !in after.queue)
            && before.accepted <= after.accepted
    decreases |later|
  {
    EveryEntryAccountedFor(maxBytes, earlier + later, e);
    hide Do;
    if later == [] {
      assert earlier + later == earlier;
    } else {
      var n := |later| - 1;
      assert (earlier + later)[..|earlier| + n] == earlier + later[..n];
      RunUnfold(Start(maxBytes), earlier + later);
      hide Run;
      SettledForever(maxBytes, earlier, later[..n], e);
      SettledGrowsOnly(Run(Start(maxBytes), earlier + later[..n]), later[n]);
    }
  }

  lemma {:induction false} RunUnfold(w: World, actions: seq<Action>)
    requires actions != []
    ensures Run(w, actions) == Do(Run(w, actions[..|actions| - 1]), actions[|actions| - 1])
  {
  }

  lemma SettledGrowsOnly(w: World, a: Action)
    ensures w.delivered <= Do(w, a).delivered && w.buried <= Do(w, a).buried && w.accepted <= Do(w, a).accepted
  {
    hide Reconciled, StripeFree, Queued;
  }

  /**
    Nothing but a completed reconciliation takes an entry out: after any run, whatever crashes,
    executions and enqueues follow, every pending entry is still pending at its place.
   */
  lemma {:induction false} CrashesLoseNothing(maxBytes: nat, earlier: seq<Action>, later: seq<Action>)
    requires forall k :: 0 <= k < |later| ==> !later[k].Reconcile?
    ensures var (before, after) := (Run(Start(maxBytes), earlier), Run(Start(maxBytes), earlier + later));
            && before.queue <= after.queue
            && before.letters <= after.letters
            && after.delivered == before.delivered && after.buried == before.buried
    decreases |later|
  {
    hide Do;
    if later == [] {
      assert earlier + later == earlier;
    } else {
      var n := |later| - 1;
      CrashesLoseNothing(maxBytes, earlier, later[..n]);
      assert earlier + later == (earlier + later[..n]) + [later[n]];
      RunAppend(Start(maxBytes), earlier + later[..n], later[n]);
      hide Run;
      PendingStays(Run(Start(maxBytes), earlier + later[..n]), later[n]);
    }
  }

  lemma PendingStays(w: World, a: Action)
    requires !a.Reconcile?
    ensures var w' := Do(w, a);
            && w.queue <= w'.queue && w.letters <= w'.letters
            && w'.delivered == w.delivered && w'.buried == w.buried
  {
    hide Reconciled, StripeFree, Queued;
  }

  // ---------------------------------------------------------------- replays and entries settled by others

  ghost function SettledIn(w: World): set<Entry> {
    w.delivered + w.buried
  }

  /** Replay `i`, as it stands after the run, took its batch at position `k`. */
  ghost predicate TakenAt(maxBytes: nat, actions: seq<Action>, i: nat, k: nat) {
    && k < |actions| && actions[k].Begin? && actions[k].replay == i
    && i !in At(maxBytes, actions, k).replays
    && forall m :: k < m <= |actions| ==> i in At(maxBytes, actions, m).replays
  }

  lemma BatchStep(w: World, a: Action, i: nat)
    ensures i in w.replays && i in Do(w, a).replays ==> Do(w, a).replays[i].batch == w.replays[i].batch
    ensures i !in w.replays && i in Do(w, a).replays ==>
              a.Begin? && a.replay == i && Do(w, a).replays[i].batch == Taken(w.queue, a.maxAttempts)
  {
    hide Reconciled, StripeFree, Queued;
  }

  /** The last step of a run, seen from replay `i`. */
  lemma LastBatchStep(maxBytes: nat, actions: seq<Action>, i: nat)
    requires actions != []
    ensures var n := |actions| - 1;
            var (before, after) := (At(maxBytes, actions, n), Run(Start(maxBytes), actions));
            && before == Run(Start(maxBytes), actions[..n]) && after == At(maxBytes, actions, n + 1)
            && (i in before.replays && i in after.replays ==> after.replays[i].batch == before.replays[i].batch)
            && (i !in before.replays && i in after.replays ==>
                  && actions[n].Begin? && actions[n].replay == i
                  && after.replays[i].batch == Taken(before.queue, actions[n].maxAttempts))
  {
    hide Do;
    AtEnd(maxBytes, actions);
    BatchStep(At(maxBytes, actions, |actions| - 1), actions[|actions| - 1], i);
  }

  lemma {:induction false} EveryReplayBegan(maxBytes: nat, actions: seq<Action>, i: nat)
    requires i in Run(Start(maxBytes), actions).replays
    ensures exists k: nat :: TakenAt(maxBytes, actions, i, k)
    decreases |actions|
  {
    if actions != [] {
      var n := |actions| - 1;
      LastBatchStep(maxBytes, actions, i);
      hide Run, At;
      if i in At(maxBytes, actions, n).replays {
        EveryReplayBegan(maxBytes, actions[..n], i);
        var k: nat :| TakenAt(maxBytes, actions[..n], i, k);
        TakenStill(maxBytes, actions, i, k);
      } else {
        assert TakenAt(maxBytes, actions, i, n);
      }
    }
  }

  lemma TakenStill(maxBytes: nat, actions: seq<Action>, i: nat, k: nat)
    requires actions != [] && k < |actions| - 1 && i in Run(Start(maxBytes), actions).replays
    ensures TakenAt(maxBytes, actions, i, k) <==> TakenAt(maxBytes, actions[..|actions| - 1], i, k)
  {
    var n := |actions| - 1;
    AtEnd(maxBytes, actions);
    hide Run, At;
    AtPrefix(maxBytes, actions, n, k);
    forall m: nat | k < m <= n ensures At(maxBytes, actions[..n], m) == At(maxBytes, actions, m) {
      AtPrefix(maxBytes, actions, n, m);
    }
  }

  lemma {:induction false} BatchIsTaken(maxBytes: nat, actions: seq<Action>, i: nat, k: nat)
    requires TakenAt(maxBytes, actions, i, k)
    ensures var w := Run(Start(maxBytes), actions);
            i in w.replays && w.replays[i].batch == Taken(At(maxBytes, actions, k).queue, actions[k].maxAttempts)
    decreases |actions|
  {
    var n := |actions| - 1;
    LastBatchStep(maxBytes, actions, i);
    hide Run, At;
    if k < n {
      assert i in At(maxBytes, actions, n + 1).replays && i in At(maxBytes, actions, n).replays;
      TakenStill(maxBytes, actions, i, k);
      BatchIsTaken(maxBytes, actions[..n], i, k);
      AtPrefix(maxBytes, actions, n, k);
    }
  }

  /**
    When a replay holds an entry that is settled already: exactly when the entry was in the
    snapshot it took and was settled after that snapshot, by another replay. Seen in the
    files, exactly when the entry has left the queue.
   */
  lemma {:induction false} HoldsSettledExactly(maxBytes: nat, actions: seq<Action>, i: nat, e: Entry)
    requires i in Run(Start(maxBytes), actions).replays
    ensures exists k: nat :: TakenAt(maxBytes, actions, i, k)
    ensures var w := Run(Start(maxBytes), actions);
            && (e in w.replays[i].batch ==> (e in SettledIn(w) <==> e !in w.queue))
            && (forall k: nat :: TakenAt(maxBytes, actions, i, k) ==>
                  var began := At(maxBytes, actions, k);
                  && (e in w.replays[i].batch && e in SettledIn(w) <==>
                      e in Taken(began.queue, actions[k].maxAttempts) && e in SettledIn(w) && e !in SettledIn(began)))
  {
    var w := Run(Start(maxBytes), actions);
    EveryReplayBegan(maxBytes, actions, i);
    EveryEntryAccountedFor(maxBytes, actions, e);
    BatchAccepted(maxBytes, actions, i, e);
    hide Run;
    forall k: nat | TakenAt(maxBytes, actions, i, k)
      ensures var began := At(maxBytes, actions, k);
              && w.replays[i].batch == Taken(began.queue, actions[k].maxAttempts)
              && (e in Taken(began.queue, actions[k].maxAttempts) ==> e !in SettledIn(began))
    {
      BatchIsTaken(maxBytes, actions, i, k);
      EveryEntryAccountedFor(maxBytes, actions[..k], e);
    }
  }

  lemma {:induction false} BatchAccepted(maxBytes: nat, actions: seq<Action>, i: nat, e: Entry)
    requires i in Run(Start(maxBytes), actions).replays
    ensures var w := Run(Start(maxBytes), actions); e in w.replays[i].batch ==> e in w.accepted
  {
    hide Run, QueueOk, LettersOk, OneExecutor;
    Reachable(maxBytes, actions);
  }

  // ---------------------------------------------------------------- an execution and what becomes of it

  /** The adapter took the entry: it answered with the entry's own fingerprint. */
  predicate Echoes(e: Entry, response: Response) {
    response == Accepted(e.fingerprint)
  }

  /** The adapter will never take it: a permanent refusal, or another fingerprint. */
  predicate Condemns(e: Entry, response: Response) {
    response.Refused? || (response.Accepted? && response.fingerprint != e.fingerprint)
  }

  lemma OutcomesStep(w: World, a: Action, i: nat)
    requires i in w.replays && i in Do(w, a).replays
    ensures w.replays[i].outcomes <= Do(w, a).replays[i].outcomes
  {
    hide Reconciled, StripeFree, Queued, Judge;
  }

  /** What a replay has decided stays decided. */
  lemma {:induction false} OutcomesStand(maxBytes: nat, actions: seq<Action>, i: nat, k: nat, m: nat)
    requires TakenAt(maxBytes, actions, i, k) && k < m <= |actions|
    ensures i in At(maxBytes, actions, m).replays && i in Run(Start(maxBytes), actions).replays
    ensures At(maxBytes, actions, m).replays[i].outcomes <= Run(Start(maxBytes), actions).replays[i].outcomes
    decreases |actions|
  {
    var n := |actions| - 1;
    AtEnd(maxBytes, actions);
    if m <= n {
      assert i in At(maxBytes, actions, n).replays && i in At(maxBytes, actions, n + 1).replays;
      OutcomesStep(At(maxBytes, actions, n), actions[n], i);
      assert Run(Start(maxBytes), actions) == Do(At(maxBytes, actions, n), actions[n]);
      hide Run, At, Do;
      TakenStill(maxBytes, actions, i, k);
      OutcomesStand(maxBytes, actions[..n], i, k, m);
      AtPrefix(maxBytes, actions, n, m);
      AtPrefix(maxBytes, actions, n, n);
      AtEnd(maxBytes, actions[..n]);
    }
  }

  /** Step `m` of the run is replay `i` finishing its execution of `e` with this response. */
  ghost predicate ExecutedAt(maxBytes: nat, actions: seq<Action>, i: nat, m: nat, e: Entry, response: Response, bytes: nat) {
    && m < |actions| && actions[m] == Finish(i, response, bytes)
    && var w := At(maxBytes, actions, m);
       && i in w.replays && w.replays[i].executing
       && |w.replays[i].outcomes| < |w.replays[i].batch| && Next(w.replays[i]) == e
  }

  /** The outcome an execution leads to, and what it is. */
  lemma FinishDecides(w: World, i: nat, response: Response, bytes: nat)
    requires i in w.replays && w.replays[i].executing && |w.replays[i].outcomes| < |w.replays[i].batch|
    ensures var (r, w') := (w.replays[i], Do(w, Finish(i, response, bytes)));
            && i in w'.replays && w'.replays[i].batch == r.batch && |w'.replays[i].outcomes| == |r.outcomes| + 1
            && var o := w'.replays[i].outcomes[|r.outcomes|];
               && (o == Success <==> Echoes(Next(r), response))
               && (o.Bury? <==> Condemns(Next(r), response))
               && (o.Bury? ==> o.letter == Letter(Next(r), response.Accepted?, bytes))
  {
  }

  lemma {:induction false} LetterWritten(queue: seq<Entry>, batch: seq<Entry>, outcomes: seq<Outcome>, j: nat)
    requires j < |outcomes| <= |batch| && Ascending(queue) && Distinct(batch)
    requires outcomes[j].Bury? && batch[j] in queue
    ensures outcomes[j].letter in Reconciled(queue, batch, outcomes).1
  {
    var n := |outcomes| - 1;
    var (retained, letters) := Reconciled(queue, batch, outcomes[..n]);
    if j < n {
      LetterWritten(queue, batch, outcomes[..n], j);
    } else {
      ReconciledQueue(queue, batch, outcomes[..n]);
      KeepMembers(queue, Settled(batch, outcomes[..n]));
      NotYetSettled(batch, outcomes);
    }
  }

  /** What a completed reconciliation makes of the entry an outcome is about. */
  lemma ReconcileDecides(w: World, i: nat, j: nat)
    requires Conserved(w) && Reconcilable(w, i) && j < |w.replays[i].outcomes|
    requires LetterBytes(w.letters) + LetterBytes(Reconciled(w.queue, w.replays[i].batch, w.replays[i].outcomes).1) <= w.maxBytes
    requires w.replays[i].batch[j] in w.queue
    ensures var (e, o, w') := (w.replays[i].batch[j], w.replays[i].outcomes[j], Do(w, Reconcile(i)));
            && (e in w'.queue <==> o == Retain)
            && (e in w'.delivered <==> o == Success)
            && (e in w'.buried <==> o.Bury?)
            && (o.Bury? ==> o.letter in w'.letters)
            && Copies(w'.letters, e) == Copies(w.letters, e) + if o.Bury? then 1 else 0
  {
    var r := w.replays[i];
    var (e, o) := (r.batch[j], r.outcomes[j]);
    PendingUnsettled(w, e);
    ReconcileSplits(w, i);
    ReconcileFields(w, i);
    hide Do, Reconciled, Keep, Copies, BuriedBy, Gone, Bytes, LetterBytes, QueueOk, LettersOk, OneExecutor;
    var letters := Reconciled(w.queue, r.batch, r.outcomes).1;
    assert ReplayOk(w.accepted, w.executions, r);
    ReplayLetters(w.accepted, w.executions, r);
    AscendingQueue(w);
    KeepMembers(w.queue, Settled(r.batch, r.outcomes));
    ReconciledLetters(w.queue, r.batch, r.outcomes);
    OneOutcome(r.batch, r.outcomes, j);
    CopiesConcat(w.letters, letters, e);
    if o.Bury? {
      LetterWritten(w.queue, r.batch, r.outcomes, j);
    }
  }

  lemma PendingUnsettled(w: World, e: Entry)
    requires Conserved(w) && e in w.queue
    ensures e !in w.delivered && e !in w.buried
  {
    KeepMembers(w.accepted, w.delivered + w.buried);
  }

  lemma AscendingQueue(w: World)
    requires Conserved(w)
    ensures Ascending(w.queue)
  {
    KeepAscending(w.accepted, w.delivered + w.buried);
  }

  lemma ReconcileFields(w: World, i: nat)
    requires Reconcilable(w, i)
    requires LetterBytes(w.letters) + LetterBytes(Reconciled(w.queue, w.replays[i].batch, w.replays[i].outcomes).1) <= w.maxBytes
    ensures var (retained, letters) := Reconciled(w.queue, w.replays[i].batch, w.replays[i].outcomes);
            var w' := Do(w, Reconcile(i));
            && w'.queue == retained && w'.letters == w.letters + letters
            && w'.buried == w.buried + BuriedBy(letters)
            && w'.delivered == w.delivered + (Gone(w.queue, retained) - BuriedBy(letters))
  {
    hide Reconciled;
  }

  lemma OneOutcome(batch: seq<Entry>, outcomes: seq<Outcome>, j: nat)
    requires j < |outcomes| <= |batch| && Distinct(batch)
    ensures batch[j] in Settled(batch, outcomes) <==> outcomes[j] != Retain
    ensures batch[j] in Condemned(batch, outcomes) <==> outcomes[j].Bury?
  {
  }

  /**
    An execution decides. When a replay executed an entry that is still queued as it completes its
    reconciliation within the bound, the entry is delivered exactly if the adapter echoed its
    fingerprint, dead-lettered with that reason exactly if it refused for good or answered with
    another fingerprint, and stays queued exactly in the other cases.
   */
  lemma {:induction false} ExecutionDecides(maxBytes: nat, actions: seq<Action>, i: nat, k: nat, m: nat,
                                            e: Entry, response: Response, bytes: nat)
    requires TakenAt(maxBytes, actions, i, k) && k < m && ExecutedAt(maxBytes, actions, i, m, e, response, bytes)
    requires var w := Run(Start(maxBytes), actions);
             && Reconcilable(w, i) && e in w.queue
             && LetterBytes(w.letters) + LetterBytes(Reconciled(w.queue, w.replays[i].batch, w.replays[i].outcomes).1) <= w.maxBytes
    ensures var (w, w') := (Run(Start(maxBytes), actions), Do(Run(Start(maxBytes), actions), Reconcile(i)));
            && (e in w'.delivered <==> Echoes(e, response))
            && (e in w'.buried <==> Condemns(e, response))
            && (e in w'.queue <==> !Echoes(e, response) && !Condemns(e, response))
            && (Condemns(e, response) ==>
                  Letter(e, response.Accepted?, bytes) in w'.letters && Copies(w'.letters, e) == Copies(w.letters, e) + 1)
  {
    hide Run, At, Do, Conserved, Reconciled, Judge, LetterBytes, Echoes, Condemns, Copies;
    var w := Run(Start(maxBytes), actions);
    var before := At(maxBytes, actions, m);
    var j := |before.replays[i].outcomes|;
    FinishDecides(before, i, response, bytes);
    AtNext(maxBytes, actions, m);
    OutcomesStand(maxBytes, actions, i, k, m + 1);
    BatchStands(maxBytes, actions, i, k, m);
    Reachable(maxBytes, actions);
    hide TakenAt;
    assert w.replays[i].outcomes[j] == At(maxBytes, actions, m + 1).replays[i].outcomes[j];
    assert w.replays[i].batch[j] == e;
    ReconcileDecides(w, i, j);
  }

  lemma AtNext(maxBytes: nat, actions: seq<Action>, m: nat)
    requires m < |actions|
    ensures At(maxBytes, actions, m + 1) == Do(At(maxBytes, actions, m), actions[m])
  {
    assert actions[..m + 1][..m] == actions[..m];
  }

  /** The batch is the one taken, at every moment in between. */
  lemma {:induction false} BatchStands(maxBytes: nat, actions: seq<Action>, i: nat, k: nat, m: nat)
    requires TakenAt(maxBytes, actions, i, k) && k < m <= |actions|
    ensures i in At(maxBytes, actions, m).replays && i in Run(Start(maxBytes), actions).replays
    ensures At(maxBytes, actions, m).replays[i].batch == Run(Start(maxBytes), actions).replays[i].batch
  {
    BatchIsTaken(maxBytes, actions, i, k);
    hide Run;
    forall n: nat | k < n <= m ensures i in At(maxBytes, actions[..m], n).replays {
      AtPrefix(maxBytes, actions, m, n);
      assert i in At(maxBytes, actions, n).replays;
    }
    AtPrefix(maxBytes, actions, m, k);
    BatchIsTaken(maxBytes, actions[..m], i, k);
    assert At(maxBytes, actions, m) == Run(Start(maxBytes), actions[..m]);
    assert actions[..m][k] == actions[k];
  }

  /** Hence no replay begun after an entry was settled ever executes that entry. */
  lemma {:induction false} NeverExecutedByLaterReplays(maxBytes: nat, actions: seq<Action>, i: nat, k: nat, j: nat, e: Entry)
    requires TakenAt(maxBytes, actions, i, k) && j <= k && e in SettledIn(At(maxBytes, actions, j))
    ensures i in Run(Start(maxBytes), actions).replays && e !in Run(Start(maxBytes), actions).replays[i].batch
  {
    BatchIsTaken(maxBytes, actions, i, k);
    hide Run, TakenAt;
    assert actions[..j] + actions[j..k] == actions[..k];
    SettledForever(maxBytes, actions[..j], actions[j..k], e);
  }

  /** One undisturbed attempt at a one-entry queue, up to its reconciliation. */
  lemma OneAttempt(w: World, e: Entry, response: Response, letterBytes: nat)
    requires w.queue == [e] && 0 !in w.replays && StripeFree(w.replays, e.stripe)
    ensures Do(Do(Do(w, Begin(0, 5)), Execute(0)), Finish(0, response, letterBytes))
         == w.(replays := w.replays[0 := Replay([e], [Judge(e, response, letterBytes)], false)],
               executions := w.executions + {(e, response)})
  {
    var begun := Do(w, Begin(0, 5));
    assert begun.replays[0] == Replay([e], [], false);
    assert StripeFree(begun.replays, e.stripe);
    var executing := Do(begun, Execute(0));
    assert Next(executing.replays[0]) == e && [] + [Judge(e, response, letterBytes)] == [Judge(e, response, letterBytes)];
    var judged := Do(executing, Finish(0, response, letterBytes));
    assert judged.replays == w.replays[0 := Replay([e], [Judge(e, response, letterBytes)], false)];
  }

  lemma {:induction false} Attempted(prefix: seq<Action>, e: Entry, response: Response, letterBytes: nat) returns (longer: seq<Action>)
    requires var w := Run(Start(100), prefix); w.queue == [e] && 0 !in w.replays && StripeFree(w.replays, e.stripe)
    ensures var w := Run(Start(100), prefix);
            Run(Start(100), longer) ==
            w.(replays := w.replays[0 := Replay([e], [Judge(e, response, letterBytes)], false)],
               executions := w.executions + {(e, response)})
  {
    hide Run, Do;
    OneAttempt(Run(Start(100), prefix), e, response, letterBytes);
    RunAppend(Start(100), prefix, Begin(0, 5));
    RunAppend(Start(100), prefix + [Begin(0, 5)], Execute(0));
    longer := prefix + [Begin(0, 5)] + [Execute(0)] + [Finish(0, response, letterBytes)];
    RunAppend(Start(100), prefix + [Begin(0, 5)] + [Execute(0)], Finish(0, response, letterBytes));
  }

  lemma OneSettled(e: Entry, o: Outcome)
    requires !o.Retain?
    ensures Reconciled([e], [e], [o]) == ([], if o.Bury? then [o.letter] else [])
    ensures Gone([e], []) == {e}
    ensures o.Bury? ==> LetterBytes([o.letter]) == o.letter.bytes && Copies([o.letter], e) == if o.letter.entry == e then 1 else 0
  {
    assert Reconciled([e], [e], [o][..0]) == ([e], []);
    assert Without([e], e) == [];
    assert [e][0] in Gone([e], []);
    if o.Bury? {
      assert [] + [o.letter] == [o.letter];
      assert [o.letter][..0] == [];
      assert LetterBytes([o.letter]) == LetterBytes([]) + o.letter.bytes;
      assert Copies([o.letter][..0], e) == 0;
    }
  }

  lemma FirstEntry(e: Entry)
    requires e == Entry(0, 0, 7, 0, 10, 3)
    ensures Run(Start(100), [Enqueue(0, 0, 7, 10, 3)]) == Start(100).(queue := [e], accepted := [e], clock := 1)
  {
    assert [] + [Enqueue(0, 0, 7, 10, 3)] == [Enqueue(0, 0, 7, 10, 3)];
    RunAppend(Start(100), [], Enqueue(0, 0, 7, 10, 3));
    assert !Queued([], 0, 0);
  }

  /** Reconciling one settled entry of a one-entry queue: the letter, if any, and an empty queue. */
  lemma OneReconciled(w: World, e: Entry, o: Outcome)
    requires w.queue == [e] && 0 in w.replays && w.replays[0] == Replay([e], [o], false) && !o.Retain?
    requires o.Bury? ==> w.letters == [] && o.letter.bytes <= w.maxBytes
    requires o.Success? ==> LetterBytes(w.letters) <= w.maxBytes
    ensures o.Success? ==> Do(w, Reconcile(0)) == w.(queue := [], replays := w.replays - {0}, delivered := w.delivered + {e})
    ensures o.Bury? ==> Do(w, CrashInReconcile(0, 1)) ==
                        w.(letters := [o.letter], replays := w.replays - {0})
  {
    OneSettled(e, o);
    assert w.letters + [] == w.letters && BuriedBy([]) == {} && w.buried + {} == w.buried && {e} - {} == {e};
    assert o.Bury? ==> [] + [o.letter][..1] == [o.letter];
  }

  /**
    What is not excluded: a replayer that snapshotted before another one delivered and removed
    an entry executes the same entry again. Only overlap is excluded.
  */
  lemma ExecutedAgainAfterDelivery()
    ensures exists actions: seq<Action> ::
              var w := Run(Start(100), actions);
              && 1 in w.replays && w.replays[1].executing
              && |w.replays[1].outcomes| < |w.replays[1].batch|
              && Next(w.replays[1]) in w.delivered
  {
    hide Run;
    var e := Entry(0, 0, 7, 0, 10, 3);
    FirstEntry(e);
    var snapshot := [Enqueue(0, 0, 7, 10, 3)] + [Begin(1, 5)];
    RunAppend(Start(100), [Enqueue(0, 0, 7, 10, 3)], Begin(1, 5));
    var delivered := Attempted(snapshot, e, Accepted(7), 0);
    OneReconciled(Run(Start(100), delivered), e, Success);
    RunAppend(Start(100), delivered, Reconcile(0));
    RunAppend(Start(100), delivered + [Reconcile(0)], Execute(1));
    var w := Run(Start(100), delivered + [Reconcile(0)] + [Execute(1)]);
    assert w.replays[1] == Replay([e], [], true) && e in w.delivered;
  }

  /** And an interrupted reconciliation can leave a dead letter for an entry that is delivered later. */
  lemma LetterForDeliveredEntry()
    ensures exists actions: seq<Action>, e: Entry ::
              var w := Run(Start(100), actions);
              e in w.delivered && Copies(w.letters, e) == 1
  {
    hide Run, Do, Reconciled;
    var e := Entry(0, 0, 7, 0, 10, 3);
    var letter := Letter(e, false, 20);
    FirstEntry(e);
    OneSettled(e, Bury(letter));
    var refused := Attempted([Enqueue(0, 0, 7, 10, 3)], e, Refused, 20);
    OneReconciled(Run(Start(100), refused), e, Bury(letter));
    RunAppend(Start(100), refused, CrashInReconcile(0, 1));
    var delivered := Attempted(refused + [CrashInReconcile(0, 1)], e, Accepted(7), 0);
    OneReconciled(Run(Start(100), delivered), e, Success);
    RunAppend(Start(100), delivered, Reconcile(0));
    var w := Run(Start(100), delivered + [Reconcile(0)]);
    assert e in w.delivered && Copies(w.letters, e) == 1;
  }
}
