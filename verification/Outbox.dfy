/**
  The mirror outbox of src/agent_session_harness/outbox.py as a transition system: a
  bounded queue file and a dead-letter file, any number of enqueuers, and any number of
  replayers that snapshot a batch under the queue lock, execute it without that lock
  (one striped lock per entry), and reconcile the outcomes under the lock again.
 */
module Outbox {

  /**
    `stamp` is the enqueue time, and the clock never gives two entries the same one; `bytes`
    is the size of the encoded line, `stripe` the lock its digest selects.
   */
  datatype Entry = Entry(adapter: nat, key: nat, fingerprint: nat, stamp: nat, bytes: nat, stripe: nat)

  datatype Letter = Letter(entry: Entry, wrongFingerprint: bool, bytes: nat)

  datatype Response = Accepted(fingerprint: nat) | Retryable | Refused | Raises

  datatype Outcome = Retain | Success | Bury(letter: Letter)

  /** A replay between its snapshot and its reconciliation. */
  datatype Replay = Replay(batch: seq<Entry>, outcomes: seq<Outcome>, executing: bool)

  datatype World = World(
    maxBytes: nat,
    queue: seq<Entry>,
    letters: seq<Letter>,
    replays: map<nat, Replay>,
    clock: nat,
    accepted: seq<Entry>,
    executions: set<(Entry, Response)>,
    delivered: set<Entry>,
    buried: set<Entry>)

  function Start(maxBytes: nat): World {
    World(maxBytes, [], [], map[], 0, [], {}, {}, {})
  }

  datatype Action =
    | Enqueue(adapter: nat, key: nat, fingerprint: nat, bytes: nat, stripe: nat)
    | Begin(replay: nat, maxAttempts: nat)
    | Skip(replay: nat)
    | Execute(replay: nat)
    | Finish(replay: nat, response: Response, letterBytes: nat)
    | Reconcile(replay: nat)
    | CrashInReconcile(replay: nat, written: nat)
    | Crash(replay: nat)

  // ---------------------------------------------------------------- queue arithmetic

  function Bytes(entries: seq<Entry>): nat {
    if entries == [] then 0 else Bytes(entries[..|entries| - 1]) + entries[|entries| - 1].bytes
  }

  function LetterBytes(letters: seq<Letter>): nat {
    if letters == [] then 0 else LetterBytes(letters[..|letters| - 1]) + letters[|letters| - 1].bytes
  }

  predicate SamePair(e: Entry, adapter: nat, key: nat) {
    e.adapter == adapter && e.key == key
  }

  predicate Queued(entries: seq<Entry>, adapter: nat, key: nat) {
    exists k :: 0 <= k < |entries| && SamePair(entries[k], adapter, key)
  }

  /** The entries not in `gone`, in order. */
  function Keep(entries: seq<Entry>, gone: set<Entry>): seq<Entry> {
    if entries == [] then []
    else
      var kept := Keep(entries[..|entries| - 1], gone);
      if entries[|entries| - 1] in gone then kept else kept + [entries[|entries| - 1]]
  }

  /** Removes the first occurrence, as a list deletion by index does. */
  function Without(entries: seq<Entry>, e: Entry): seq<Entry> {
    if entries == [] then []
    else if entries[0] == e then entries[1..]
    else [entries[0]] + Without(entries[1..], e)
  }

  /** What the reconciliation loop has left of the queue, and the letters it has to write. */
  function Reconciled(queue: seq<Entry>, batch: seq<Entry>, outcomes: seq<Outcome>): (seq<Entry>, seq<Letter>)
    requires |outcomes| <= |batch|
    decreases |outcomes|
  {
    if outcomes == [] then (queue, [])
    else
      var n := |outcomes| - 1;
      var (retained, letters) := Reconciled(queue, batch, outcomes[..n]);
      if outcomes[n].Retain? || batch[n] !in retained then (retained, letters)
      else (Without(retained, batch[n]), if outcomes[n].Bury? then letters + [outcomes[n].letter] else letters)
  }

  /** Outcome of one executed entry. */
  function Judge(e: Entry, response: Response, letterBytes: nat): Outcome {
    match response
    case Accepted(f) => if f == e.fingerprint then Success else Bury(Letter(e, true, letterBytes))
    case Retryable => Retain
    case Refused => Bury(Letter(e, false, letterBytes))
    case Raises => Retain
  }

  function Next(r: Replay): Entry
    requires |r.outcomes| < |r.batch|
  {
    r.batch[|r.outcomes|]
  }

  predicate Holds(r: Replay, stripe: nat) {
    r.executing && |r.outcomes| < |r.batch| && Next(r).stripe == stripe
  }

  predicate StripeFree(replays: map<nat, Replay>, stripe: nat) {
    forall i :: i in replays ==> !Holds(replays[i], stripe)
  }

  // ---------------------------------------------------------------- actions

  /** The batch of one replay: the head of the queue. */
  function Taken(queue: seq<Entry>, maxAttempts: nat): seq<Entry> {
    if |queue| <= maxAttempts then queue else queue[..maxAttempts]
  }

  predicate Reconcilable(w: World, i: nat) {
    i in w.replays && !w.replays[i].executing && |w.replays[i].outcomes| == |w.replays[i].batch|
  }

  function Do(w: World, a: Action): World {
    match a
    case Enqueue(adapter, key, fingerprint, bytes, stripe) =>
      var e := Entry(adapter, key, fingerprint, w.clock, bytes, stripe);
      var later := w.(clock := w.clock + 1);
      if Queued(w.queue, adapter, key) || Bytes(w.queue) + bytes > w.maxBytes then later
      else later.(queue := w.queue + [e], accepted := w.accepted + [e])
    case Begin(i, maxAttempts) =>
      if i in w.replays then w
      else
        w.(replays := w.replays[i := Replay(Taken(w.queue, maxAttempts), [], false)])
    case Skip(i) =>
      // the entry's lock is taken, or its adapter is not configured
      if i in w.replays && !w.replays[i].executing && |w.replays[i].outcomes| < |w.replays[i].batch|
      then w.(replays := w.replays[i := w.replays[i].(outcomes := w.replays[i].outcomes + [Retain])]) else w
    case Execute(i) =>
      if && i in w.replays && !w.replays[i].executing && |w.replays[i].outcomes| < |w.replays[i].batch|
         && StripeFree(w.replays, Next(w.replays[i]).stripe)
      then w.(replays := w.replays[i := w.replays[i].(executing := true)]) else w
    case Finish(i, response, letterBytes) =>
      if i in w.replays && w.replays[i].executing && |w.replays[i].outcomes| < |w.replays[i].batch| then
        var r := w.replays[i];
        w.(replays := w.replays[i := r.(outcomes := r.outcomes + [Judge(Next(r), response, letterBytes)], executing := false)],
           executions := w.executions + {(Next(r), response)})
      else w
    case Reconcile(i) =>
      if Reconcilable(w, i) then
        var (retained, letters) := Reconciled(w.queue, w.replays[i].batch, w.replays[i].outcomes);
        var ended := w.(replays := w.replays - {i});
        if LetterBytes(w.letters) + LetterBytes(letters) > w.maxBytes then ended   // raises; nothing is written
        else
          var newlyBuried := BuriedBy(letters);
          var gone := Gone(w.queue, retained);
          ended.(queue := retained, letters := w.letters + letters,
                 buried := w.buried + newlyBuried, delivered := w.delivered + (gone - newlyBuried))
      else w
    case CrashInReconcile(i, written) =>
      // some letters are on disk, the queue file is still the old one
      if Reconcilable(w, i) then
        var (retained, letters) := Reconciled(w.queue, w.replays[i].batch, w.replays[i].outcomes);
        var ended := w.(replays := w.replays - {i});
        if LetterBytes(w.letters) + LetterBytes(letters) > w.maxBytes || written > |letters| then ended
        else ended.(letters := w.letters + letters[..written])
      else w
    case Crash(i) => w.(replays := w.replays - {i})
  }

  function BuriedBy(letters: seq<Letter>): set<Entry> {
    set k | 0 <= k < |letters| :: letters[k].entry
  }

  function Gone(before: seq<Entry>, after: seq<Entry>): set<Entry> {
    set k | 0 <= k < |before| && before[k] !in after :: before[k]
  }

  function Run(w: World, actions: seq<Action>): World
    decreases |actions|
  {
    if actions == [] then w
    else Do(Run(w, actions[..|actions| - 1]), actions[|actions| - 1])
  }

  lemma RunAppend(w: World, history: seq<Action>, a: Action)
    ensures Run(w, history + [a]) == Do(Run(w, history), a)
  {
    assert (history + [a])[..|history|] == history;
  }
}
