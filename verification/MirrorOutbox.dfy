/**
  src/agent_session_harness/outbox.py in imperative form: `MirrorOutbox` over its queue and
  dead-letter files. Enqueuing and reconciling are locked sections; between the snapshot and
  the reconciliation of a replay any other process may act. `history` records the actions of
  module Outbox that were performed.
 */
module OutboxReplaying {
  import opened Options
  import opened Outbox
  import opened Sequences
  import opened OutboxSafety
  import opened OutboxTheorems

  datatype ReplayResult = ReplayResult(attempted: nat, succeeded: nat, retained: nat, deadLettered: nat)

  /** Not a step of replay `id`. */
  predicate ByOthers(a: Action, id: nat) {
    match a
    case Enqueue(_, _, _, _, _) => true
    case Begin(i, _) => i != id
    case Skip(i) => i != id
    case Execute(i) => i != id
    case Finish(i, _, _) => i != id
    case Reconcile(i) => i != id
    case CrashInReconcile(i, _) => i != id
    case Crash(i) => i != id
  }

  lemma OthersLeaveTheReplay(w: World, a: Action, id: nat)
    requires ByOthers(a, id)
    ensures id in Do(w, a).replays <==> id in w.replays
    ensures id in w.replays ==> Do(w, a).replays[id] == w.replays[id]
  {
    hide Reconciled, StripeFree;
  }

  lemma BytesPrefix(s: seq<Entry>, k: nat)
    requires k < |s|
    ensures Bytes(s[..k + 1]) == Bytes(s[..k]) + s[k].bytes
  {
    assert s[..k + 1][..k] == s[..k];
  }

  lemma LetterBytesPrefix(s: seq<Letter>, k: nat)
    requires k < |s|
    ensures LetterBytes(s[..k + 1]) == LetterBytes(s[..k]) + s[k].bytes
  {
    assert s[..k + 1][..k] == s[..k];
  }

  lemma {:induction false} WithoutAt(s: seq<Entry>, e: Entry, index: nat)
    requires index < |s| && s[index] == e && e !in s[..index]
    ensures Without(s, e) == s[..index] + s[index + 1..]
  {
    if index == 0 {
      assert s[..0] + s[1..] == s[1..];
    } else {
      assert s[0] in s[..index];
      forall k | 0 <= k < index - 1 ensures s[1..][k] != e {
        assert s[1..][k] == s[..index][k + 1];
      }
      WithoutAt(s[1..], e, index - 1);
      assert [s[0]] + (s[1..][..index - 1] + s[1..][index..]) == s[..index] + s[index + 1..];
    }
  }

  /** Sum of the encoded lines. */
  method QueueSize(entries: seq<Entry>) returns (size: nat)
    ensures size == Bytes(entries)
  {
    size := 0;
    for k := 0 to |entries|
      invariant size == Bytes(entries[..k])
    {
      BytesPrefix(entries, k);
      size := size + entries[k].bytes;
    }
    assert entries[..|entries|] == entries;
  }

  method LettersSize(letters: seq<Letter>) returns (size: nat)
    ensures size == LetterBytes(letters)
  {
    size := 0;
    for k := 0 to |letters|
      invariant size == LetterBytes(letters[..k])
    {
      LetterBytesPrefix(letters, k);
      size := size + letters[k].bytes;
    }
    assert letters[..|letters|] == letters;
  }

  method HasPair(entries: seq<Entry>, adapter: nat, key: nat) returns (found: bool)
    ensures found <==> Queued(entries, adapter, key)
  {
    for k := 0 to |entries|
      invariant forall j :: 0 <= j < k ==> !SamePair(entries[j], adapter, key)
    {
      if entries[k].adapter == adapter && entries[k].key == key {
        assert SamePair(entries[k], adapter, key);
        return true;
      }
    }
    return false;
  }

  /** `list.index`: the first position, or none. */
  method IndexOf(entries: seq<Entry>, e: Entry) returns (index: Option<nat>)
    ensures index.None? <==> e !in entries
    ensures index.Some? ==> index.value < |entries| && entries[index.value] == e && e !in entries[..index.value]
  {
    for k := 0 to |entries|
      invariant e !in entries[..k]
    {
      if entries[k] == e {
        return Some(k);
      }
    }
    return None;
  }

  /** The reconciliation loop over the outcomes, deleting from the fresh queue in place. */
  method Settle(queue: seq<Entry>, batch: seq<Entry>, outcomes: seq<Outcome>)
    returns (retained: seq<Entry>, deadLetters: seq<Letter>)
    requires |outcomes| == |batch|
    ensures (retained, deadLetters) == Reconciled(queue, batch, outcomes)
  {
    retained, deadLetters := queue, [];
    for k := 0 to |outcomes|
      invariant (retained, deadLetters) == Reconciled(queue, batch, outcomes[..k])
    {
      assert outcomes[..k + 1][..k] == outcomes[..k];
      if outcomes[k].Retain? {
        continue;
      }
      var index := IndexOf(retained, batch[k]);
      if index.None? {
        continue;
      }
      if outcomes[k].Bury? {
        deadLetters := deadLetters + [outcomes[k].letter];
      }
      WithoutAt(retained, batch[k], index.value);
      retained := retained[..index.value] + retained[index.value + 1..];
    }
    assert outcomes[..|outcomes|] == outcomes;
  }

  /** Some replay is executing an entry under this lock. */
  ghost predicate Busy(w: World, stripe: nat) {
    exists j :: j in w.replays && w.replays[j].executing && |w.replays[j].outcomes| < |w.replays[j].batch|
                && Next(w.replays[j]).stripe == stripe
  }

  /** The outcome of an entry that was executed: what the adapter's answer says and nothing else. */
  ghost predicate Answered(e: Entry, response: Response, bytes: nat, outcome: Outcome) {
    match response
    case Accepted(f) =>
      if f == e.fingerprint then outcome == Success else outcome == Bury(Letter(e, true, bytes))
    case Refused => outcome == Bury(Letter(e, false, bytes))
    case Retryable => outcome == Retain
    case Raises => outcome == Retain
  }

  /**
    Why the outcome of a batch entry is what it is: its answer, or the entry was skipped, for an
    unknown adapter or at a moment `h` since `from` when its lock was taken.
   */
  ghost predicate Explained(first: World, history: seq<Action>, from: nat, e: Entry, configured: set<nat>,
                            response: Response, bytes: nat, outcome: Outcome)
  {
    || Answered(e, response, bytes, outcome)
    || (outcome == Retain && e.adapter !in configured)
    || (outcome == Retain && exists h: nat :: from <= h <= |history| && Busy(Run(first, history[..h]), e.stripe))
  }

  lemma StaysExplained(first: World, history: seq<Action>, longer: seq<Action>, from: nat, e: Entry, configured: set<nat>,
                       response: Response, bytes: nat, outcome: Outcome)
    requires history <= longer && Explained(first, history, from, e, configured, response, bytes, outcome)
    ensures Explained(first, longer, from, e, configured, response, bytes, outcome)
  {
    hide Run, Busy, Answered;
    if h: nat :| from <= h <= |history| && Busy(Run(first, history[..h]), e.stripe) {
      assert longer[..h] == history[..h];
    }
  }

  lemma ExplainedNow(first: World, history: seq<Action>, from: nat, e: Entry, configured: set<nat>, response: Response, bytes: nat,
                     outcome: Outcome, at: nat)
    requires from <= at <= |history|
    requires if e.adapter !in configured || Busy(Run(first, history[..at]), e.stripe) then outcome == Retain
             else Answered(e, response, bytes, outcome)
    ensures Explained(first, history, from, e, configured, response, bytes, outcome)
  {
    hide Run, Busy, Answered;
  }

  class MirrorOutbox {
    const maxQueueBytes: nat
    var queue: seq<Entry>
    var letters: seq<Letter>
    var replays: map<nat, Replay>
    var clock: nat
    ghost var accepted: seq<Entry>
    ghost var executions: set<(Entry, Response)>
    ghost var delivered: set<Entry>
    ghost var buried: set<Entry>
    ghost var history: seq<Action>

    ghost function View(): World
      reads this
    {
      World(maxQueueBytes, queue, letters, replays, clock, accepted, executions, delivered, buried)
    }

    ghost predicate Valid()
      reads this
    {
      View() == Run(Start(maxQueueBytes), history)
    }

    constructor (maxQueueBytes: nat)
      requires maxQueueBytes > 0
      ensures Valid() && history == [] && this.maxQueueBytes == maxQueueBytes
    {
      this.maxQueueBytes := maxQueueBytes;
      queue, letters, replays, clock := [], [], map[], 0;
      accepted, executions, delivered, buried, history := [], {}, {}, {}, [];
    }

    /** Brings the ghost state in line after the fields have moved as `a` says. */
    ghost method Log(a: Action, before: World)
      requires before == Run(Start(maxQueueBytes), history) && before.maxBytes == maxQueueBytes
      requires var after := Do(before, a);
               after.queue == queue && after.letters == letters && after.replays == replays && after.clock == clock
               && after.maxBytes == maxQueueBytes
      modifies this`accepted, this`executions, this`delivered, this`buried, this`history
      ensures history == old(history) + [a] && Valid()
      ensures View() == Do(before, a)
    {
      hide Run, Do;
      var after := Do(before, a);
      accepted, executions, delivered, buried := after.accepted, after.executions, after.delivered, after.buried;
      RunAppend(Start(maxQueueBytes), history, a);
      history := history + [a];
    }

    lemma BoundKept(before: World, a: Action)
      ensures Do(before, a).maxBytes == before.maxBytes
    {
      hide Reconciled, StripeFree, Queued;
    }

    /** One step of another process. */
    method OthersStep(a: Action, id: nat)
      requires Valid() && ByOthers(a, id)
      modifies this
      ensures Valid() && history == old(history) + [a]
      ensures id in replays <==> id in old(replays)
      ensures id in replays ==> replays[id] == old(replays)[id]
    {
      hide Run, Do;
      ghost var before := View();
      var seen := Do(World(maxQueueBytes, queue, letters, replays, clock, [], {}, {}, {}), a);
      GhostsDoNotSteer(before, a);
      BoundKept(before, a);
      OthersLeaveTheReplay(before, a, id);
      queue, letters, replays, clock := seen.queue, seen.letters, seen.replays, seen.clock;
      Log(a, before);
    }

    lemma GhostsDoNotSteer(w: World, a: Action)
      ensures var blind := Do(World(w.maxBytes, w.queue, w.letters, w.replays, w.clock, [], {}, {}, {}), a);
              && blind.queue == Do(w, a).queue && blind.letters == Do(w, a).letters
              && blind.replays == Do(w, a).replays && blind.clock == Do(w, a).clock
    {
      hide Reconciled, StripeFree, Queued;
    }

    method Wait(id: nat)
      requires Valid()
      modifies this
      ensures Valid() && old(history) <= history
      ensures id in replays <==> id in old(replays)
      ensures id in replays ==> replays[id] == old(replays)[id]
    {
      hide Run;
      var steps: nat := *;
      while steps > 0
        invariant Valid() && old(history) <= history
        invariant id in replays <==> id in old(replays)
        invariant id in replays ==> replays[id] == old(replays)[id]
      {
        var a: Action := *;
        if ByOthers(a, id) {
          OthersStep(a, id);
        }
        steps := steps - 1;
      }
    }

    /**
      `enqueue`: False for a queued pair, an exception when the bound would be passed, and
      otherwise exactly one new entry at the end.
    */
    method EnqueueEntry(adapter: nat, key: nat, fingerprint: nat, bytes: nat, stripe: nat) returns (r: Result<bool>)
      requires Valid()
      modifies this
      ensures Valid() && history == old(history) + [Enqueue(adapter, key, fingerprint, bytes, stripe)]
      ensures r == Ok(false) <==> Queued(old(queue), adapter, key)
      ensures r.Raised? <==> !Queued(old(queue), adapter, key) && Bytes(old(queue)) + bytes > maxQueueBytes
      ensures queue == if r == Ok(true) then old(queue) + [Entry(adapter, key, fingerprint, old(clock), bytes, stripe)] else old(queue)
      ensures accepted == old(accepted) + queue[|old(queue)|..] && letters == old(letters)
    {
      hide Run, Queued, Bytes;
      ghost var before := View();
      var found := HasPair(queue, adapter, key);
      var size := QueueSize(queue);
      var e := Entry(adapter, key, fingerprint, clock, bytes, stripe);
      clock := clock + 1;
      if found {
        Log(Enqueue(adapter, key, fingerprint, bytes, stripe), before);
        return Ok(false);
      }
      if size + bytes > maxQueueBytes {
        Log(Enqueue(adapter, key, fingerprint, bytes, stripe), before);
        return Raised(RuntimeFault);
      }
      queue := queue + [e];
      Log(Enqueue(adapter, key, fingerprint, bytes, stripe), before);
      return Ok(true);
    }

    method Snapshot(id: nat, maxAttempts: nat) returns (batch: seq<Entry>)
      requires Valid() && id !in replays
      modifies this
      ensures Valid() && history == old(history) + [Begin(id, maxAttempts)]
      ensures batch <= old(queue) && |batch| == if maxAttempts < |old(queue)| then maxAttempts else |old(queue)|
      ensures batch == Taken(old(queue), maxAttempts)
      ensures id in replays && replays[id] == Replay(batch, [], false)
    {
      hide Run;
      ghost var before := View();
      batch := if |queue| <= maxAttempts then queue else queue[..maxAttempts];
      replays := replays[id := Replay(batch, [], false)];
      Log(Begin(id, maxAttempts), before);
    }

    /** One entry: skipped exactly while its lock is taken or its adapter is unknown, otherwise executed and judged. */
    method Attempt(id: nat, configured: set<nat>, response: Response, letterBytes: nat) returns (outcome: Outcome)
      requires Valid() && id in replays && !replays[id].executing && |replays[id].outcomes| < |replays[id].batch|
      modifies this
      ensures Valid() && old(history) <= history
      ensures id in replays
      ensures replays[id] == old(replays)[id].(outcomes := old(replays)[id].outcomes + [outcome])
      ensures var e := Next(old(replays)[id]);
              if e.adapter !in configured || Busy(old(View()), e.stripe) then
                outcome == Retain && history == old(history) + [Skip(id)] && executions == old(executions)
              else
                && Answered(e, response, letterBytes, outcome)
                && old(history) < history && history[|old(history)|] == Execute(id)
                && history[|history| - 1] == Finish(id, response, letterBytes)
                && (e, response) in executions
    {
      hide Run, Reconciled;
      var r := replays[id];
      ghost var before := View();
      if !StripeFree(replays, Next(r).stripe) || Next(r).adapter !in configured {
        outcome := Retain;
        replays := replays[id := r.(outcomes := r.outcomes + [Retain])];
        Log(Skip(id), before);
        return;
      }
      replays := replays[id := r.(executing := true)];
      Log(Execute(id), before);
      ghost var now := history;
      Wait(id);
      before := View();
      outcome := Judge(Next(r), response, letterBytes);
      replays := replays[id := r.(outcomes := r.outcomes + [outcome])];
      Log(Finish(id, response, letterBytes), before);
      assert history[..|now|] == now;
    }

    /** The last locked section: settle the outcomes against the queue as it is now. */
    method ReconcileOutcomes(id: nat) returns (r: Result<(nat, nat)>)
      requires Valid() && Reconcilable(View(), id)
      modifies this
      ensures Valid() && history == old(history) + [Reconcile(id)] && id !in replays
      ensures r.Raised? ==> queue == old(queue) && letters == old(letters)
      ensures r.Raised? <==> LetterBytes(old(letters)) + LetterBytes(WrittenBy(old(View()), id)) > maxQueueBytes
      ensures r.Ok? ==> letters == old(letters) + WrittenBy(old(View()), id)
      ensures r.Ok? ==>
                && queue == Keep(old(queue), Settled(old(replays)[id].batch, old(replays)[id].outcomes))
                && old(letters) <= letters && LetterBytes(letters) <= maxQueueBytes
                && BuriedBy(letters[|old(letters)|..]) == CondemnedIn(old(View()), id)
                && r.value == (|queue|, |CondemnedIn(old(View()), id)|)
                && |letters| == |old(letters)| + r.value.1
    {
      hide Run, Do, Condemned, Copies, BuriedBy, DistinctPairs, OneExecutor, LettersOk;
      ghost var before := View();
      var mine := replays[id];
      Reachable(maxQueueBytes, history);
      assert ReplayOk(accepted, executions, mine);
      BatchDistinct(mine.batch);
      KeepAscending(accepted, delivered + buried);
      ReconciledQueue(queue, mine.batch, mine.outcomes);
      OneLetterEach(before, id);
      var retained, deadLetters := Settle(queue, mine.batch, mine.outcomes);
      var existing := LettersSize(letters);
      var added := LettersSize(deadLetters);
      ReconcileStep(before, id);
      BoundKept(before, Reconcile(id));
      replays := replays - {id};
      if existing + added > maxQueueBytes {
        Log(Reconcile(id), before);
        return Raised(RuntimeFault);
      }
      LetterBytesConcat(letters, deadLetters);
      letters := letters + deadLetters;
      queue := retained;
      Log(Reconcile(id), before);
      return Ok((|retained|, |deadLetters|));
    }

    /** The letters a reconciliation of this replay has to write. */
    ghost function WrittenBy(w: World, id: nat): seq<Letter>
      requires id in w.replays && |w.replays[id].outcomes| <= |w.replays[id].batch|
    {
      Reconciled(w.queue, w.replays[id].batch, w.replays[id].outcomes).1
    }

    /** Entries that this replay condemned and that are still queued. */
    ghost function CondemnedIn(w: World, id: nat): set<Entry>
      requires id in w.replays && |w.replays[id].outcomes| <= |w.replays[id].batch|
    {
      set e | e in w.queue && e in Condemned(w.replays[id].batch, w.replays[id].outcomes)
    }

    lemma OneLetterEach(w: World, id: nat)
      requires Conserved(w) && Reconcilable(w, id)
      ensures var more := Reconciled(w.queue, w.replays[id].batch, w.replays[id].outcomes).1;
              BuriedBy(more) == CondemnedIn(w, id) && |more| == |CondemnedIn(w, id)|
    {
      var r := w.replays[id];
      var more := Reconciled(w.queue, r.batch, r.outcomes).1;
      assert ReplayOk(w.accepted, w.executions, r);
      ReplayLetters(w.accepted, w.executions, r);
      KeepAscending(w.accepted, w.delivered + w.buried);
      ReconciledLetters(w.queue, r.batch, r.outcomes);
      forall e ensures Copies(more, e) <= 1 {
        assert Copies(more, e) == if e in w.queue && e in Condemned(r.batch, r.outcomes) then 1 else 0;
      }
      hide Copies, Reconciled, Condemned;
      LettersAreDistinct(more);
    }

    lemma {:induction false} LettersAreDistinct(letters: seq<Letter>)
      requires forall e :: Copies(letters, e) <= 1
      ensures |BuriedBy(letters)| == |letters|
    {
      if letters != [] {
        var n := |letters| - 1;
        forall e ensures Copies(letters[..n], e) <= 1 {
          assert Copies(letters, e) <= 1;
        }
        LettersAreDistinct(letters[..n]);
        assert Copies(letters, letters[n].entry) <= 1;
        CopiesPositive(letters[..n], letters[n].entry);
        assert letters[..n] + [letters[n]] == letters;
        LetterAdded(letters[..n], letters[n]);
      }
    }

    lemma BatchDistinct(batch: seq<Entry>)
      requires Ascending(batch)
      ensures Distinct(batch)
    {
      forall i, j | 0 <= i < j < |batch| ensures batch[i] != batch[j] {
        assert batch[i].stamp < batch[j].stamp;
      }
    }

    lemma ReconcileStep(w: World, id: nat)
      requires Reconcilable(w, id)
      ensures var (retained, more) := Reconciled(w.queue, w.replays[id].batch, w.replays[id].outcomes);
              var fits := LetterBytes(w.letters) + LetterBytes(more) <= w.maxBytes;
              var w' := Do(w, Reconcile(id));
              && w'.replays == w.replays - {id} && w'.clock == w.clock
              && w'.queue == (if fits then retained else w.queue)
              && w'.letters == (if fits then w.letters + more else w.letters)
    {
    }

    /**
      `replay`: each entry of the head of the queue is executed unless it is skipped for cause, and
      judged by its answer. Whatever others do meanwhile, the last step takes exactly the entries
      this call settled out of the queue found then, and the counts are those of this call: the
      dead letters are the entries it condemned that nobody else had settled before. It fails
      only without attempts to make, or when the letters do not fit.
    */
    method ReplayQueue(id: nat, configured: set<nat>, maxAttempts: nat, responses: nat -> Response, sizes: nat -> nat)
      returns (r: Result<ReplayResult>, ghost outcomes: seq<Outcome>, ghost found: World)
      requires Valid() && id !in replays
      modifies this
      ensures Valid() && old(history) <= history && id !in replays
      ensures maxAttempts == 0 ==> r.Raised? && history == old(history)
      ensures maxAttempts > 0 ==>
                && |history| > |old(history)| && history[|history| - 1] == Reconcile(id)
                && found == Run(Start(maxQueueBytes), history[..|history| - 1])
                && Reconcilable(found, id) && found.replays[id].outcomes == outcomes
                && found.replays[id].batch <= old(queue)
                && |outcomes| == (if maxAttempts < |old(queue)| then maxAttempts else |old(queue)|)
      ensures maxAttempts > 0 ==> forall k: nat :: k < |outcomes| ==>
                Explained(Start(maxQueueBytes), history, |old(history)|, old(queue)[k], configured, responses(k), sizes(k), outcomes[k])
      ensures maxAttempts > 0 ==>
                (r.Raised? <==> LetterBytes(found.letters) + LetterBytes(WrittenBy(found, id)) > maxQueueBytes)
      ensures r.Ok? ==> r.value.attempted == |outcomes| && r.value.succeeded == Successes(outcomes)
      ensures r.Ok? ==>
                && queue == Keep(found.queue, Settled(found.replays[id].batch, outcomes))
                && letters == found.letters + WrittenBy(found, id)
                && r.value.retained == |queue|
                && r.value.deadLettered == |CondemnedIn(found, id)| == |letters| - |found.letters|
      ensures maxAttempts > 0 && r.Raised? ==> queue == found.queue && letters == found.letters
    {
      hide Run, Explained, Reconciled, Settled, Keep, LetterBytes;
      outcomes, found := [], View();
      if maxAttempts == 0 {
        r := Raised(RuntimeFault);
        return;
      }
      var batch := Snapshot(id, maxAttempts);
      var succeeded := 0;
      for k := 0 to |batch|
        invariant Valid() && old(history) < history
        invariant id in replays && replays[id].batch == batch && replays[id].outcomes == outcomes && !replays[id].executing
        invariant |outcomes| == k && succeeded == Successes(outcomes)
        invariant forall j: nat :: j < k ==>
                    Explained(Start(maxQueueBytes), history, |old(history)|, batch[j], configured, responses(j), sizes(j), outcomes[j])
      {
        var outcome := AttemptNext(id, batch, configured, responses, sizes, |old(history)|, k, outcomes);
        assert (outcomes + [outcome])[..k] == outcomes;
        outcomes := outcomes + [outcome];
        if outcome.Success? {
          succeeded := succeeded + 1;
        }
      }
      r, found := FinishReplay(id, batch, configured, responses, sizes, |old(history)|, outcomes, succeeded);
    }

    /** One round: others act, then the next entry is attempted; what was explained stays so. */
    method AttemptNext(id: nat, batch: seq<Entry>, configured: set<nat>, responses: nat -> Response, sizes: nat -> nat,
                       ghost from: nat, k: nat, ghost outcomes: seq<Outcome>)
      returns (outcome: Outcome)
      requires Valid() && id in replays && k < |batch| && k == |outcomes| && from <= |history|
      requires replays[id].batch == batch && replays[id].outcomes == outcomes && !replays[id].executing
      requires forall j: nat :: j < k ==> Explained(Start(maxQueueBytes), history, from, batch[j], configured, responses(j), sizes(j), outcomes[j])
      modifies this
      ensures Valid() && old(history) <= history && id in replays
      ensures replays[id] == old(replays)[id].(outcomes := outcomes + [outcome])
      ensures forall j: nat :: j < k ==> Explained(Start(maxQueueBytes), history, from, batch[j], configured, responses(j), sizes(j), outcomes[j])
      ensures Explained(Start(maxQueueBytes), history, from, batch[k], configured, responses(k), sizes(k), outcome)
    {
      hide Run, Explained, Answered, Busy;
      Wait(id);
      ghost var now := history;
      outcome := Attempt(id, configured, responses(k), sizes(k));
      assert history[..|now|] == now;
      ExplainedNow(Start(maxQueueBytes), history, from, batch[k], configured, responses(k), sizes(k), outcome, |now|);
      forall j: nat | j < k ensures Explained(Start(maxQueueBytes), history, from, batch[j], configured, responses(j), sizes(j), outcomes[j]) {
        StaysExplained(Start(maxQueueBytes), old(history), history, from, batch[j], configured, responses(j), sizes(j), outcomes[j]);
      }
    }

    method FinishReplay(id: nat, batch: seq<Entry>, configured: set<nat>, responses: nat -> Response, sizes: nat -> nat,
                        ghost from: nat, ghost outcomes: seq<Outcome>, succeeded: nat)
      returns (r: Result<ReplayResult>, ghost found: World)
      requires Valid() && id in replays && replays[id] == Replay(batch, outcomes, false) && |outcomes| == |batch| && from <= |history|
      requires forall j: nat :: j < |outcomes| ==> Explained(Start(maxQueueBytes), history, from, batch[j], configured, responses(j), sizes(j), outcomes[j])
      modifies this
      ensures Valid() && old(history) <= history && id !in replays
      ensures |history| > |old(history)| && history[|history| - 1] == Reconcile(id)
      ensures found == Run(Start(maxQueueBytes), history[..|history| - 1])
      ensures Reconcilable(found, id) && found.replays[id] == Replay(batch, outcomes, false)
      ensures forall j: nat :: j < |outcomes| ==> Explained(Start(maxQueueBytes), history, from, batch[j], configured, responses(j), sizes(j), outcomes[j])
      ensures r.Raised? <==> LetterBytes(found.letters) + LetterBytes(WrittenBy(found, id)) > maxQueueBytes
      ensures r.Ok? ==> r.value.attempted == |batch| && r.value.succeeded == succeeded
      ensures r.Ok? ==>
                && queue == Keep(found.queue, Settled(batch, outcomes))
                && letters == found.letters + WrittenBy(found, id)
                && r.value.retained == |queue|
                && r.value.deadLettered == |CondemnedIn(found, id)| == |letters| - |found.letters|
      ensures r.Raised? ==> queue == found.queue && letters == found.letters
    {
      hide Run, Explained, Reconciled, Settled, Keep, LetterBytes;
      Wait(id);
      found := View();
      var counts := ReconcileOutcomes(id);
      forall j: nat | j < |outcomes| ensures Explained(Start(maxQueueBytes), history, from, batch[j], configured, responses(j), sizes(j), outcomes[j]) {
        StaysExplained(Start(maxQueueBytes), old(history), history, from, batch[j], configured, responses(j), sizes(j), outcomes[j]);
      }
      if counts.Raised? {
        r := Raised(counts.reason);
        return;
      }
      r := Ok(ReplayResult(|batch|, succeeded, counts.value.0, counts.value.1));
    }
  }

  function Successes(outcomes: seq<Outcome>): nat {
    if outcomes == [] then 0
    else Successes(outcomes[..|outcomes| - 1]) + if outcomes[|outcomes| - 1].Success? then 1 else 0
  }
}
