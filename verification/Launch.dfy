/**
  The launch protocol of src/agent_session_harness/process.py for one chain:generation
  key. Any number of `start_fresh` callers, guardians, deaths, stops and caller crashes
  interleave around one lock; what happens under the lock is one action here. Durable
  are the launch intent, the registry record and the exit file.
 */
module Launch {
  import opened Options

  type Nonce = nat

  /** A guardian process: `pid` stands for its process identity, the rest for its arguments. */
  datatype Guardian = Guardian(pid: nat, nonce: Nonce, digest: nat, supersedes: Option<Nonce>)

  datatype Intent = Intent(nonce: Nonce, digest: nat, supersedes: Option<Nonce>)

  datatype Files = Files(intent: Option<Intent>, record: Option<Guardian>, exit: Option<Guardian>)

  /** Starting: its child runs, it has not registered. Watching: registered. Gone: exited. */
  datatype Stage = Starting | Watching | Gone

  /** Where a `start_fresh` call is between two of its locked sections; `digest` is the command it asked for. */
  datatype Caller =
    | Spawning(nonce: Nonce, digest: nat, supersedes: Option<Nonce>)
    | AwaitingOther(nonce: Nonce, digest: nat, supersedes: Option<Nonce>)
    | AwaitingOwn(nonce: Nonce, digest: nat, guardian: Guardian)
    | Checking(nonce: Nonce, digest: nat, managed: Guardian)
    | Cleaning(nonce: Nonce, digest: nat, managed: Guardian)
    | Returned(digest: nat, managed: Guardian)
    | Failed

  /**
    `registered` lists the successful registrations in order; `retired` are the guardians
    whose record was taken away while they may have been alive, by a stop or by themselves.
   */
  datatype World = World(
    files: Files,
    stage: map<Guardian, Stage>,
    callers: map<nat, Caller>,
    nextNonce: nat,
    nextPid: nat,
    registered: seq<Guardian>,
    retired: set<Guardian>)

  const Start := World(Files(None, None, None), map[], map[], 0, 0, [], {})

  datatype Action =
    | Reserve(caller: nat, digest: nat, stale: bool, probeFails: bool)
    | Spawn(caller: nat)
    | SeeRecord(caller: nat)
    | AwaitTimeout(caller: nat, probeFails: bool)
    | GiveUp(caller: nat)
    | FindNotReady(caller: nat)
    | FindReady(caller: nat)
    | DropIntent(caller: nat)
    | CallerCrash(caller: nat)
    | Register(guardian: Guardian)
    | Die(guardian: Guardian)
    | RecordExit(guardian: Guardian)
    | Unregister(guardian: Guardian)
    | StopUnlinks(guardian: Guardian)
    | ClearExit(guardian: Guardian)

  // ---------------------------------------------------------------- the files under the lock

  predicate Alive(stage: map<Guardian, Stage>, g: Guardian) {
    g in stage && stage[g] != Gone
  }

  /** `ps` finds a guardian by its nonce; its arguments also name the nonce it supersedes. */
  predicate Visible(stage: map<Guardian, Stage>, nonce: Nonce) {
    exists g :: g in stage && stage[g] != Gone && (g.nonce == nonce || g.supersedes == Some(nonce))
  }

  function SupersededBy(files: Files): Option<Nonce> {
    match files.record
    case Some(r) => Some(r.nonce)
    case None => match files.intent
                 case Some(i) => i.supersedes
                 case None => None
  }

  /** The first locked section of `start_fresh`: the files it leaves and the caller's next state. */
  function Reserved(files: Files, stage: map<Guardian, Stage>, drawn: Nonce, digest: nat, stale: bool, probeFails: bool)
    : (Files, Caller)
  {
    if files.record.Some? && files.record.value.digest != digest then (files, Failed)
    else if files.record.Some? && Alive(stage, files.record.value) then (files, Returned(digest, files.record.value))
    else
      var supersedes := SupersededBy(files);
      var swept := files.(record := None);
      if files.intent.Some? && files.intent.value.digest != digest then (swept, Failed)
      else if files.intent.Some? && !stale then (swept, AwaitingOther(files.intent.value.nonce, digest, supersedes))
      else if files.intent.Some? && (probeFails || Visible(stage, files.intent.value.nonce)) then (swept, Failed)
      else (swept.(intent := Some(Intent(drawn, digest, supersedes))), Spawning(drawn, digest, supersedes))
  }

  /** The locked section after waiting in vain for somebody else's guardian. */
  function TakenOver(files: Files, stage: map<Guardian, Stage>, drawn: Nonce, c: Caller, probeFails: bool): (Files, Caller)
    requires c.AwaitingOther?
  {
    if files.record.Some? && Alive(stage, files.record.value) then (files, Checking(c.nonce, c.digest, files.record.value))
    else if files.intent != Some(Intent(c.nonce, c.digest, c.supersedes)) then (files, Failed)
    else if probeFails || Visible(stage, c.nonce) then (files, Failed)
    else (files.(intent := Some(Intent(drawn, c.digest, c.supersedes))), Spawning(drawn, c.digest, c.supersedes))
  }

  function IntentDropped(files: Files, nonce: Nonce): Files {
    if files.intent.Some? && files.intent.value.nonce == nonce then files.(intent := None) else files
  }

  function RecordDropped(files: Files, g: Guardian): Files {
    if files.record == Some(g) then files.(record := None) else files
  }

  predicate IntentIs(files: Files, g: Guardian) {
    files.intent == Some(Intent(g.nonce, g.digest, g.supersedes))
  }

  predicate ProvenSuccessor(obsolete: Guardian, candidate: Option<Guardian>) {
    && candidate.Some?
    && candidate.value.digest == obsolete.digest
    && candidate.value.pid != obsolete.pid
    && candidate.value.nonce != obsolete.nonce
    && candidate.value.supersedes == Some(obsolete.nonce)
  }

  /** `record_guarded_exit`: written, or left to a proven successor, or refused. */
  function ExitOutcome(files: Files, g: Guardian): Result<Files> {
    if files.record == Some(g) then Ok(files.(exit := Some(g)))
    else if files.record.Some? && ProvenSuccessor(g, files.record) then Ok(files)
    else if files.record.None? && ProvenSuccessor(g, files.exit) then Ok(files)
    else Raised(RuntimeFault)
  }

  // ---------------------------------------------------------------- actions

  function Put(w: World, caller: nat, c: Caller): World {
    w.(callers := w.callers[caller := c])
  }

  function Calling(w: World, a: Action): World {
    match a
    case Reserve(id, digest, stale, probeFails) =>
      if id in w.callers then w
      else
        var (files, next) := Reserved(w.files, w.stage, w.nextNonce, digest, stale, probeFails);
        Put(w.(files := files, nextNonce := w.nextNonce + 1), id, next)
    case Spawn(id) =>
      if id in w.callers && w.callers[id].Spawning? then
        var c := w.callers[id];
        var g := Guardian(w.nextPid, c.nonce, c.digest, c.supersedes);
        Put(w.(stage := w.stage[g := Starting], nextPid := w.nextPid + 1), id, AwaitingOwn(c.nonce, c.digest, g))
      else w
    case SeeRecord(id) =>
      if && id in w.callers && (w.callers[id].AwaitingOther? || w.callers[id].AwaitingOwn?)
         && w.files.record.Some? && w.files.record.value.nonce == w.callers[id].nonce
      then Put(w, id, Checking(w.callers[id].nonce, w.callers[id].digest, w.files.record.value)) else w
    case AwaitTimeout(id, probeFails) =>
      if id in w.callers && w.callers[id].AwaitingOther? then
        var (files, next) := TakenOver(w.files, w.stage, w.nextNonce, w.callers[id], probeFails);
        Put(w.(files := files, nextNonce := w.nextNonce + 1), id, next)
      else w
    case GiveUp(id) =>
      if id in w.callers && w.callers[id].AwaitingOwn? then
        var c := w.callers[id];
        Put(if Alive(w.stage, c.guardian) then w else w.(files := IntentDropped(w.files, c.nonce)), id, Failed)
      else w
    case FindNotReady(id) =>
      if id in w.callers && w.callers[id].Checking? && !Alive(w.stage, w.callers[id].managed)
      then Put(w.(files := RecordDropped(w.files, w.callers[id].managed)), id, Failed) else w
    case FindReady(id) =>
      if id in w.callers && w.callers[id].Checking? && Alive(w.stage, w.callers[id].managed)
      then Put(w, id, Cleaning(w.callers[id].nonce, w.callers[id].digest, w.callers[id].managed)) else w
    case DropIntent(id) =>
      if id in w.callers && w.callers[id].Cleaning?
      then Put(w.(files := IntentDropped(w.files, w.callers[id].nonce)), id, Returned(w.callers[id].digest, w.callers[id].managed)) else w
    case CallerCrash(id) => w.(callers := w.callers - {id})
    case _ => w
  }

  function Guarding(w: World, a: Action): World {
    match a
    case Register(g) =>
      if g in w.stage && w.stage[g] == Starting then
        if IntentIs(w.files, g)
        then w.(files := w.files.(record := Some(g)), stage := w.stage[g := Watching], registered := w.registered + [g])
        else w.(stage := w.stage[g := Gone])
      else w
    case Die(g) => if g in w.stage then w.(stage := w.stage[g := Gone]) else w
    case RecordExit(g) =>
      if g in w.stage && w.stage[g] == Watching then
        match ExitOutcome(w.files, g)
        case Ok(files) => w.(files := files)
        case Raised(_) => w
      else w
    case Unregister(g) =>
      if g in w.stage && w.stage[g] == Watching
      then w.(files := RecordDropped(w.files, g), retired := w.retired + {g}) else w
    case StopUnlinks(g) => w.(files := RecordDropped(w.files, g), retired := w.retired + {g})
    case ClearExit(g) => if w.files.exit == Some(g) then w.(files := w.files.(exit := None)) else w
    case _ => w
  }

  function Do(w: World, a: Action): World {
    match a
    case Register(_) | Die(_) | RecordExit(_) | Unregister(_) | StopUnlinks(_) | ClearExit(_) => Guarding(w, a)
    case _ => Calling(w, a)
  }

  function Run(w: World, actions: seq<Action>): World
    decreases |actions|
  {
    if actions == [] then w
    else Do(Run(w, actions[..|actions| - 1]), actions[|actions| - 1])
  }

  lemma RunAppend(w: World, history: seq<Action>, a: Action)
    ensures Run(w, history + [a]) == Do(Run(w, history), a)
  {
    assert (history + [a])[..|history|] == history;
  }
}
