/** Conservation: what happens to every entry the outbox ever accepted. */
module OutboxSafety {
  import opened Outbox
  import opened Sequences

  // ---------------------------------------------------------------- sequences

  ghost predicate Ascending(s: seq<Entry>) {
    forall i, j :: 0 <= i < j < |s| ==> s[i].stamp < s[j].stamp
  }

  lemma {:induction false} KeepMembers(s: seq<Entry>, gone: set<Entry>)
    ensures forall e :: e in Keep(s, gone) <==> e in s && e !in gone
  {
    if s != [] {
      var n := |s| - 1;
      KeepMembers(s[..n], gone);
      assert forall e :: e in s <==> e in s[..n] || e == s[n];
    }
  }

  lemma {:induction false} KeepAscending(s: seq<Entry>, gone: set<Entry>)
    requires Ascending(s)
    ensures Ascending(Keep(s, gone))
  {
    if s != [] {
      var n := |s| - 1;
      KeepAscending(s[..n], gone);
      KeepMembers(s[..n], gone);
      var kept := Keep(s[..n], gone);
      forall k | 0 <= k < |kept| ensures kept[k].stamp < s[n].stamp {
        assert kept[k] in kept;
        var m :| 0 <= m < n && s[m] == kept[k];
      }
    }
  }

  lemma {:induction false} KeepBytes(s: seq<Entry>, gone: set<Entry>)
    ensures Bytes(Keep(s, gone)) <= Bytes(s)
  {
    if s != [] {
      var n := |s| - 1;
      KeepBytes(s[..n], gone);
      var kept := Keep(s[..n], gone);
      assert (kept + [s[n]])[..|kept|] == kept;
    }
  }

  lemma {:induction false} KeepTwice(s: seq<Entry>, first: set<Entry>, second: set<Entry>)
    ensures Keep(Keep(s, first), second) == Keep(s, first + second)
  {
    if s != [] {
      var n := |s| - 1;
      KeepTwice(s[..n], first, second);
      var kept := Keep(s[..n], first);
      assert (kept + [s[n]])[..|kept|] == kept;
    }
  }

  /** Only the members that occur matter. */
  lemma {:induction false} KeepSame(s: seq<Entry>, g: set<Entry>, h: set<Entry>)
    requires forall e :: e in s ==> (e in g <==> e in h)
    ensures Keep(s, g) == Keep(s, h)
  {
    if s != [] {
      KeepSame(s[..|s| - 1], g, h);
    }
  }

  lemma {:induction false} KeepAll(s: seq<Entry>)
    ensures Keep(s, {}) == s
  {
    if s != [] {
      KeepAll(s[..|s| - 1]);
    }
  }

  lemma {:induction false} KeepConcat(s: seq<Entry>, t: seq<Entry>, gone: set<Entry>)
    ensures Keep(s + t, gone) == Keep(s, gone) + Keep(t, gone)
  {
    if t == [] {
      assert s + t == s;
    } else {
      var n := |t| - 1;
      assert (s + t)[..|s| + n] == s + t[..n];
      KeepConcat(s, t[..n], gone);
    }
  }

  lemma KeepHead(s: seq<Entry>, gone: set<Entry>)
    requires s != []
    ensures Keep(s, gone) == (if s[0] in gone then [] else [s[0]]) + Keep(s[1..], gone)
  {
    assert s == [s[0]] + s[1..];
    KeepConcat([s[0]], s[1..], gone);
    assert [s[0]][..0] == [];
  }

  lemma {:induction false} WithoutKeeps(s: seq<Entry>, e: Entry)
    requires Ascending(s) && e in s
    ensures Without(s, e) == Keep(s, {e})
  {
    KeepHead(s, {e});
    hide Keep;
    if s[0] == e {
      forall x | x in s[1..] ensures x != e {
        assert x.stamp > s[0].stamp;
      }
      KeepSame(s[1..], {e}, {});
      KeepAll(s[1..]);
    } else {
      WithoutKeeps(s[1..], e);
    }
  }

  lemma {:induction false} LetterBytesConcat(s: seq<Letter>, t: seq<Letter>)
    ensures LetterBytes(s + t) == LetterBytes(s) + LetterBytes(t)
  {
    if t == [] {
      assert s + t == s;
    } else {
      assert (s + t)[..|s + t| - 1] == s + t[..|t| - 1];
      LetterBytesConcat(s, t[..|t| - 1]);
    }
  }

  function Copies(letters: seq<Letter>, e: Entry): nat {
    if letters == [] then 0
    else Copies(letters[..|letters| - 1], e) + if letters[|letters| - 1].entry == e then 1 else 0
  }

  lemma {:induction false} CopiesConcat(s: seq<Letter>, t: seq<Letter>, e: Entry)
    ensures Copies(s + t, e) == Copies(s, e) + Copies(t, e)
  {
    if t == [] {
      assert s + t == s;
    } else {
      assert (s + t)[..|s + t| - 1] == s + t[..|t| - 1];
      CopiesConcat(s, t[..|t| - 1], e);
    }
  }

  // ---------------------------------------------------------------- reconciliation

  /** Entries of the batch whose outcome takes them out of the queue. */
  function Settled(batch: seq<Entry>, outcomes: seq<Outcome>): set<Entry>
    requires |outcomes| <= |batch|
  {
    set k | 0 <= k < |outcomes| && !outcomes[k].Retain? :: batch[k]
  }

  /** Letters carry the entry they are about. */
  ghost predicate LettersMatch(batch: seq<Entry>, outcomes: seq<Outcome>)
    requires |outcomes| <= |batch|
  {
    forall k :: 0 <= k < |outcomes| && outcomes[k].Bury? ==> outcomes[k].letter.entry == batch[k]
  }

  /** Entries of the batch that were judged unmirrorable. */
  function Condemned(batch: seq<Entry>, outcomes: seq<Outcome>): set<Entry>
    requires |outcomes| <= |batch|
  {
    set k | 0 <= k < |outcomes| && outcomes[k].Bury? :: batch[k]
  }

  /** The loop of list deletions equals one filter: exactly the settled entries still queued leave. */
  lemma {:induction false} ReconciledQueue(queue: seq<Entry>, batch: seq<Entry>, outcomes: seq<Outcome>)
    requires |outcomes| <= |batch| && Ascending(queue) && Distinct(batch)
    ensures Reconciled(queue, batch, outcomes).0 == Keep(queue, Settled(batch, outcomes))
  {
    if outcomes == [] {
      assert Settled(batch, outcomes) == {};
      KeepAll(queue);
    } else {
      var n := |outcomes| - 1;
      var retained := Reconciled(queue, batch, outcomes[..n]).0;
      var before := Settled(batch, outcomes[..n]);
      ReconciledQueue(queue, batch, outcomes[..n]);
      KeepMembers(queue, before);
      SettledGrows(batch, outcomes);
      NotYetSettled(batch, outcomes);
      assert before + {} == before;
      if !outcomes[n].Retain? && batch[n] in retained {
        KeepAscending(queue, before);
        WithoutKeeps(retained, batch[n]);
        KeepTwice(queue, before, {batch[n]});
      } else if !outcomes[n].Retain? {
        KeepSame(queue, Settled(batch, outcomes), before);
      }
    }
  }

  /** Each condemned entry still queued leaves exactly one letter, and no other letter is written. */
  lemma {:induction false} ReconciledLetters(queue: seq<Entry>, batch: seq<Entry>, outcomes: seq<Outcome>)
    requires |outcomes| <= |batch| && Ascending(queue) && Distinct(batch) && LettersMatch(batch, outcomes)
    ensures var letters := Reconciled(queue, batch, outcomes).1;
            && (forall e :: Copies(letters, e) == if e in queue && e in Condemned(batch, outcomes) then 1 else 0)
            && (forall e :: e in BuriedBy(letters) <==> e in queue && e in Condemned(batch, outcomes))
  {
    if outcomes != [] {
      var n := |outcomes| - 1;
      var (retained, letters) := Reconciled(queue, batch, outcomes[..n]);
      ReconciledLetters(queue, batch, outcomes[..n]);
      ReconciledQueue(queue, batch, outcomes[..n]);
      KeepMembers(queue, Settled(batch, outcomes[..n]));
      CondemnedGrows(batch, outcomes);
      NotYetSettled(batch, outcomes);
      if outcomes[n].Bury? && batch[n] in retained {
        LetterAdded(letters, outcomes[n].letter);
      }
    }
  }

  lemma NotYetSettled(batch: seq<Entry>, outcomes: seq<Outcome>)
    requires 0 < |outcomes| <= |batch| && Distinct(batch)
    ensures batch[|outcomes| - 1] !in Settled(batch, outcomes[..|outcomes| - 1])
    ensures batch[|outcomes| - 1] !in Condemned(batch, outcomes[..|outcomes| - 1])
  {
  }

  lemma SettledGrows(batch: seq<Entry>, outcomes: seq<Outcome>)
    requires 0 < |outcomes| <= |batch|
    ensures var n := |outcomes| - 1;
            Settled(batch, outcomes) == Settled(batch, outcomes[..n]) + if outcomes[n].Retain? then {} else {batch[n]}
  {
    var n := |outcomes| - 1;
    forall e | e in Settled(batch, outcomes[..n]) ensures e in Settled(batch, outcomes) {
      var k :| 0 <= k < n && !outcomes[..n][k].Retain? && batch[k] == e;
      assert !outcomes[k].Retain?;
    }
    forall e | e in Settled(batch, outcomes) && e != batch[n] ensures e in Settled(batch, outcomes[..n]) {
      var k :| 0 <= k < |outcomes| && !outcomes[k].Retain? && batch[k] == e;
      assert !outcomes[..n][k].Retain?;
    }
  }

  lemma CondemnedGrows(batch: seq<Entry>, outcomes: seq<Outcome>)
    requires 0 < |outcomes| <= |batch|
    ensures var n := |outcomes| - 1;
            Condemned(batch, outcomes) == Condemned(batch, outcomes[..n]) + if outcomes[n].Bury? then {batch[n]} else {}
  {
    var n := |outcomes| - 1;
    forall e | e in Condemned(batch, outcomes[..n]) ensures e in Condemned(batch, outcomes) {
      var k :| 0 <= k < n && outcomes[..n][k].Bury? && batch[k] == e;
      assert outcomes[k].Bury?;
    }
    forall e | e in Condemned(batch, outcomes) && e != batch[n] ensures e in Condemned(batch, outcomes[..n]) {
      var k :| 0 <= k < |outcomes| && outcomes[k].Bury? && batch[k] == e;
      assert outcomes[..n][k].Bury?;
    }
  }

  lemma LetterAdded(letters: seq<Letter>, x: Letter)
    ensures BuriedBy(letters + [x]) == BuriedBy(letters) + {x.entry}
    ensures forall e :: Copies(letters + [x], e) == Copies(letters, e) + if x.entry == e then 1 else 0
  {
    var grown := letters + [x];
    assert grown[..|letters|] == letters;
    assert grown[|letters|] == x;
    forall e | e in BuriedBy(letters) ensures e in BuriedBy(grown) {
      var k :| 0 <= k < |letters| && letters[k].entry == e;
      assert grown[k] == letters[k];
    }
  }

  // ---------------------------------------------------------------- the invariant

  ghost predicate Judged(executions: set<(Entry, Response)>, e: Entry, o: Outcome) {
    match o
    case Retain => true
    case Success => (e, Accepted(e.fingerprint)) in executions
    case Bury(letter) => letter.entry == e && Unmirrorable(executions, e)
  }

  /** Some execution ended in a permanent refusal or a foreign fingerprint. */
  ghost predicate Unmirrorable(executions: set<(Entry, Response)>, e: Entry) {
    exists r: Response :: (e, r) in executions && (r.Refused? || (r.Accepted? && r.fingerprint != e.fingerprint))
  }

  ghost predicate ReplayOk(accepted: seq<Entry>, executions: set<(Entry, Response)>, r: Replay) {
    && |r.outcomes| <= |r.batch|
    && Ascending(r.batch)
    && (forall e :: e in r.batch ==> e in accepted)
    && (forall k :: 0 <= k < |r.outcomes| ==> Judged(executions, r.batch[k], r.outcomes[k]))
  }

  ghost predicate DistinctPairs(s: seq<Entry>) {
    forall i, j :: 0 <= i < j < |s| ==> !SamePair(s[i], s[j].adapter, s[j].key)
  }

  /** The queue is what was accepted minus what was settled, in the order it was accepted. */
  ghost predicate QueueOk(accepted: seq<Entry>, queue: seq<Entry>, delivered: set<Entry>, buried: set<Entry>, clock: nat, maxBytes: nat) {
    && Ascending(accepted)
    && (forall e :: e in accepted ==> e.stamp < clock)
    && queue == Keep(accepted, delivered + buried)
    && delivered !! buried
    && (forall e :: e in delivered || e in buried ==> e in accepted)
    && DistinctPairs(queue)
    && Bytes(queue) <= maxBytes
  }

  ghost predicate ReplaysOk(accepted: seq<Entry>, executions: set<(Entry, Response)>, replays: map<nat, Replay>) {
    forall i :: i in replays ==> ReplayOk(accepted, executions, replays[i])
  }

  ghost predicate LettersOk(letters: seq<Letter>, maxBytes: nat, executions: set<(Entry, Response)>,
                            delivered: set<Entry>, buried: set<Entry>)
  {
    && LetterBytes(letters) <= maxBytes
    && (forall e :: e in delivered ==> (e, Accepted(e.fingerprint)) in executions)
    && (forall e :: e in buried ==> Unmirrorable(executions, e))
  }

  ghost predicate OneExecutor(replays: map<nat, Replay>) {
    forall i, j :: (i in replays && j in replays && replays[i].executing && replays[j].executing
                    && |replays[i].outcomes| < |replays[i].batch| && |replays[j].outcomes| < |replays[j].batch|
                    && Next(replays[i]).stripe == Next(replays[j]).stripe) ==> i == j
  }

  ghost predicate Conserved(w: World) {
    && QueueOk(w.accepted, w.queue, w.delivered, w.buried, w.clock, w.maxBytes)
    && ReplaysOk(w.accepted, w.executions, w.replays)
    && LettersOk(w.letters, w.maxBytes, w.executions, w.delivered, w.buried)
    && OneExecutor(w.replays)
  }

  lemma PairsGrow(queue: seq<Entry>, e: Entry)
    requires DistinctPairs(queue) && !Queued(queue, e.adapter, e.key)
    ensures DistinctPairs(queue + [e])
  {
  }

  lemma AcceptedGrows(accepted: seq<Entry>, clock: nat, e: Entry)
    requires Ascending(accepted) && e.stamp == clock
    requires forall x :: x in accepted ==> x.stamp < clock
    ensures e !in accepted && Ascending(accepted + [e])
    ensures forall x :: x in accepted + [e] <==> x in accepted || x == e
  {
    var grown := accepted + [e];
    forall i, j | 0 <= i < j < |grown| ensures grown[i].stamp < grown[j].stamp {
      assert grown[i] in accepted;
    }
  }

  lemma BytesGrow(queue: seq<Entry>, e: Entry)
    ensures Bytes(queue + [e]) == Bytes(queue) + e.bytes
  {
    assert (queue + [e])[..|queue|] == queue;
  }

  lemma KeepAnother(accepted: seq<Entry>, gone: set<Entry>, e: Entry)
    requires e !in gone
    ensures Keep(accepted + [e], gone) == Keep(accepted, gone) + [e]
  {
    assert (accepted + [e])[..|accepted|] == accepted;
  }

  /** An entry accepted now was never settled before. */
  lemma NeverSettled(accepted: seq<Entry>, settled: set<Entry>, clock: nat, e: Entry)
    requires e.stamp == clock && forall x :: x in accepted ==> x.stamp < clock
    requires forall x :: x in settled ==> x in accepted
    ensures e !in settled
  {
  }

  lemma QueueGrows(accepted: seq<Entry>, queue: seq<Entry>, delivered: set<Entry>, buried: set<Entry>, clock: nat,
                   maxBytes: nat, e: Entry)
    requires QueueOk(accepted, queue, delivered, buried, clock, maxBytes) && e.stamp == clock
    requires !Queued(queue, e.adapter, e.key) && Bytes(queue) + e.bytes <= maxBytes
    ensures QueueOk(accepted + [e], queue + [e], delivered, buried, clock + 1, maxBytes)
  {
    hide Ascending, DistinctPairs, Queued, Keep, Bytes;
    AcceptedGrows(accepted, clock, e);
    PairsGrow(queue, e);
    NeverSettled(accepted, delivered + buried, clock, e);
    KeepAnother(accepted, delivered + buried, e);
    BytesGrow(queue, e);
  }

  lemma ReplaysGrow(accepted: seq<Entry>, executions: set<(Entry, Response)>, replays: map<nat, Replay>,
                    accepted': seq<Entry>, executions': set<(Entry, Response)>, fewer: map<nat, Replay>)
    requires ReplaysOk(accepted, executions, replays) && accepted <= accepted' && executions <= executions'
    requires forall i :: i in fewer ==> i in replays && fewer[i] == replays[i]
    ensures ReplaysOk(accepted', executions', fewer)
  {
    forall i | i in fewer ensures ReplayOk(accepted', executions', fewer[i]) {
      assert ReplayOk(accepted, executions, replays[i]);
    }
  }

  lemma EnqueueKeeps(w: World, a: Action)
    requires Conserved(w) && a.Enqueue?
    ensures Conserved(Do(w, a))
  {
    hide LettersOk, OneExecutor;
    var e := Entry(a.adapter, a.key, a.fingerprint, w.clock, a.bytes, a.stripe);
    if !Queued(w.queue, a.adapter, a.key) && Bytes(w.queue) + a.bytes <= w.maxBytes {
      hide QueueOk;
      QueueGrows(w.accepted, w.queue, w.delivered, w.buried, w.clock, w.maxBytes, e);
      ReplaysGrow(w.accepted, w.executions, w.replays, w.accepted + [e], w.executions, w.replays);
    }
  }

  lemma BeginKeeps(w: World, a: Action)
    requires Conserved(w) && a.Begin?
    ensures Conserved(Do(w, a))
  {
    hide LettersOk;
    KeepMembers(w.accepted, w.delivered + w.buried);
    KeepAscending(w.accepted, w.delivered + w.buried);
    hide QueueOk;
  }

  lemma ReplayStepKeeps(w: World, a: Action)
    requires Conserved(w) && (a.Skip? || a.Execute? || a.Crash?)
    ensures Conserved(Do(w, a))
  {
    hide QueueOk, LettersOk;
  }

  lemma FinishKeeps(w: World, a: Action)
    requires Conserved(w) && a.Finish?
    ensures Conserved(Do(w, a))
  {
    hide QueueOk;
    var w' := Do(w, a);
    if w' != w {
      ReplaysGrow(w.accepted, w.executions, w.replays, w.accepted, w'.executions, w.replays);
    }
  }

  lemma ReplayLetters(accepted: seq<Entry>, executions: set<(Entry, Response)>, r: Replay)
    requires ReplayOk(accepted, executions, r)
    ensures Distinct(r.batch) && LettersMatch(r.batch, r.outcomes)
    ensures forall e :: e in Condemned(r.batch, r.outcomes) ==> Unmirrorable(executions, e)
    ensures forall e :: e in Settled(r.batch, r.outcomes) && e !in Condemned(r.batch, r.outcomes) ==>
              (e, Accepted(e.fingerprint)) in executions
    ensures Condemned(r.batch, r.outcomes) <= Settled(r.batch, r.outcomes)
  {
    forall i, j | 0 <= i < j < |r.batch| ensures r.batch[i] != r.batch[j] {
      assert r.batch[i].stamp < r.batch[j].stamp;
    }
    forall k | 0 <= k < |r.outcomes| && r.outcomes[k].Bury? ensures r.outcomes[k].letter.entry == r.batch[k] {
      assert Judged(executions, r.batch[k], r.outcomes[k]);
    }
  }

  /** What one reconciliation does to the queue, the letters and the sets of settled entries. */
  lemma ReconcileSplits(w: World, i: nat)
    requires Conserved(w) && Reconcilable(w, i)
    ensures var r := w.replays[i];
            var (retained, letters) := Reconciled(w.queue, r.batch, r.outcomes);
            var settled := Settled(r.batch, r.outcomes);
            && retained == Keep(w.queue, settled)
            && (forall e :: e in Gone(w.queue, retained) <==> e in w.queue && e in settled)
            && BuriedBy(letters) <= Gone(w.queue, retained)
            && Gone(w.queue, retained) !! w.delivered + w.buried
            && (forall e :: Copies(letters, e) == if e in BuriedBy(letters) then 1 else 0)
            && (forall e :: e in BuriedBy(letters) ==> Unmirrorable(w.executions, e))
            && (forall e :: e in Gone(w.queue, retained) - BuriedBy(letters) ==> (e, Accepted(e.fingerprint)) in w.executions)
  {
    hide LettersOk, OneExecutor;
    var r := w.replays[i];
    assert ReplayOk(w.accepted, w.executions, r);
    ReplayLetters(w.accepted, w.executions, r);
    KeepAscending(w.accepted, w.delivered + w.buried);
    KeepMembers(w.accepted, w.delivered + w.buried);
    ReconciledQueue(w.queue, r.batch, r.outcomes);
    ReconciledLetters(w.queue, r.batch, r.outcomes);
    KeepMembers(w.queue, Settled(r.batch, r.outcomes));
  }

  lemma ReconcileQueueOk(w: World, i: nat)
    requires Conserved(w)
    ensures var w' := Do(w, Reconcile(i)); QueueOk(w'.accepted, w'.queue, w'.delivered, w'.buried, w'.clock, w'.maxBytes)
  {
    hide LettersOk, OneExecutor, ReplaysOk;
    if Reconcilable(w, i) {
      var r := w.replays[i];
      var (retained, letters) := Reconciled(w.queue, r.batch, r.outcomes);
      var gone := w.delivered + w.buried;
      var settled := Settled(r.batch, r.outcomes);
      ReconcileSplits(w, i);
      KeepMembers(w.accepted, gone);
      KeepBytes(w.queue, settled);
      KeepTwice(w.accepted, gone, settled);
      KeepSame(w.accepted, gone + settled, gone + Gone(w.queue, retained));
      KeepDistinctPairs(w.queue, settled);
      assert gone + Gone(w.queue, retained)
          == (w.delivered + (Gone(w.queue, retained) - BuriedBy(letters))) + (w.buried + BuriedBy(letters));
    }
  }

  lemma {:induction false} KeepDistinctPairs(s: seq<Entry>, gone: set<Entry>)
    requires DistinctPairs(s)
    ensures DistinctPairs(Keep(s, gone))
  {
    if s != [] {
      var n := |s| - 1;
      KeepDistinctPairs(s[..n], gone);
      KeepMembers(s[..n], gone);
      var kept := Keep(s[..n], gone);
      forall k | 0 <= k < |kept| ensures !SamePair(kept[k], s[n].adapter, s[n].key) {
        assert kept[k] in kept;
        var m :| 0 <= m < n && s[m] == kept[k];
      }
    }
  }

  lemma LettersAppended(letters: seq<Letter>, more: seq<Letter>, maxBytes: nat, executions: set<(Entry, Response)>,
                        delivered: set<Entry>, buried: set<Entry>, gone: set<Entry>)
    requires LettersOk(letters, maxBytes, executions, delivered, buried)
    requires LetterBytes(letters) + LetterBytes(more) <= maxBytes
    requires forall e :: e in BuriedBy(more) ==> Unmirrorable(executions, e)
    requires forall e :: e in gone - BuriedBy(more) ==> (e, Accepted(e.fingerprint)) in executions
    ensures LettersOk(letters + more, maxBytes, executions, delivered + (gone - BuriedBy(more)), buried + BuriedBy(more))
  {
    LetterBytesConcat(letters, more);
  }

  lemma ReconcileLettersOk(w: World, i: nat)
    requires Conserved(w)
    ensures var w' := Do(w, Reconcile(i));
            LettersOk(w'.letters, w'.maxBytes, w'.executions, w'.delivered, w'.buried)
  {
    hide OneExecutor, LettersOk, QueueOk, ReplaysOk, Settled;
    if Reconcilable(w, i) {
      var (retained, letters) := Reconciled(w.queue, w.replays[i].batch, w.replays[i].outcomes);
      ReconcileSplits(w, i);
      if LetterBytes(w.letters) + LetterBytes(letters) <= w.maxBytes {
        LettersAppended(w.letters, letters, w.maxBytes, w.executions, w.delivered, w.buried, Gone(w.queue, retained));
      }
    }
  }

  lemma ReconcileKeeps(w: World, i: nat)
    requires Conserved(w)
    ensures Conserved(Do(w, Reconcile(i)))
  {
    hide QueueOk, LettersOk;
    ReconcileQueueOk(w, i);
    ReconcileLettersOk(w, i);
  }

  /** A crash in the middle: some of the letters are on disk, and nothing has left the queue. */
  lemma CrashKeeps(w: World, i: nat, written: nat)
    requires Conserved(w)
    ensures Conserved(Do(w, CrashInReconcile(i, written)))
  {
    hide QueueOk, Settled;
    if Reconcilable(w, i) {
      var more := Reconciled(w.queue, w.replays[i].batch, w.replays[i].outcomes).1;
      if written <= |more| && LetterBytes(w.letters) + LetterBytes(more) <= w.maxBytes {
        assert more == more[..written] + more[written..];
        LetterBytesConcat(more[..written], more[written..]);
        LetterBytesConcat(w.letters, more[..written]);
      }
    }
  }

  lemma ConservedStep(w: World, a: Action)
    requires Conserved(w)
    ensures Conserved(Do(w, a))
  {
    hide Conserved;
    match a
    case Enqueue(_, _, _, _, _) => EnqueueKeeps(w, a);
    case Begin(_, _) => BeginKeeps(w, a);
    case Skip(_) => ReplayStepKeeps(w, a);
    case Execute(_) => ReplayStepKeeps(w, a);
    case Crash(_) => ReplayStepKeeps(w, a);
    case Finish(_, _, _) => FinishKeeps(w, a);
    case Reconcile(i) => ReconcileKeeps(w, i);
    case CrashInReconcile(i, written) => CrashKeeps(w, i, written);
  }

  lemma {:induction false} Reachable(maxBytes: nat, actions: seq<Action>)
    ensures Conserved(Run(Start(maxBytes), actions))
    decreases |actions|
  {
    if actions != [] {
      Reachable(maxBytes, actions[..|actions| - 1]);
      ConservedStep(Run(Start(maxBytes), actions[..|actions| - 1]), actions[|actions| - 1]);
    }
  }
}
