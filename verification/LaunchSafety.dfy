/** What every interleaving of the launch protocol keeps. */
module LaunchSafety {
  import opened Options
  import opened Launch

  ghost predicate WasRegistered(registered: seq<Guardian>, nonce: Nonce) {
    exists g :: g in registered && g.nonce == nonce
  }

  /** A supersedes link below `bound`: it names an earlier nonce that did register. */
  ghost predicate LinkOk(registered: seq<Guardian>, link: Option<Nonce>, bound: nat) {
    link.Some? ==> link.value < bound && WasRegistered(registered, link.value)
  }

  /** Nonces and pids are drawn once; a reserved nonce belongs to one caller until it spawns. */
  ghost predicate Fresh(w: World) {
    && (forall g :: g in w.stage ==> g.nonce < w.nextNonce && g.pid < w.nextPid)
    && (forall g, h :: g in w.stage && h in w.stage && g.nonce == h.nonce ==> g == h)
    && (forall id :: id in w.callers && w.callers[id].Spawning? ==>
          w.callers[id].nonce < w.nextNonce && (forall g :: g in w.stage ==> g.nonce != w.callers[id].nonce))
    && (forall i, j :: (i in w.callers && j in w.callers && w.callers[i].Spawning? && w.callers[j].Spawning?
                        && w.callers[i].nonce == w.callers[j].nonce) ==> i == j)
    && (w.files.intent.Some? ==> w.files.intent.value.nonce < w.nextNonce)
  }

  ghost predicate Registrations(w: World) {
    && (forall g :: g in w.registered ==> g in w.stage && w.stage[g] != Starting)
    && (w.files.record.Some? ==> w.registered != [] && w.files.record.value == w.registered[|w.registered| - 1])
    && (w.files.exit.Some? ==> w.files.exit.value in w.registered)
    && (forall g :: g in w.stage && w.stage[g] == Watching ==> g in w.registered)
    && (forall g :: g in w.stage && w.stage[g] == Watching && g !in w.retired ==> w.files.record == Some(g))
    && (forall id :: id in w.callers && (w.callers[id].Checking? || w.callers[id].Cleaning? || w.callers[id].Returned?) ==>
          w.callers[id].managed in w.registered)
  }

  /** A live record and an intent that coexist carry the same nonce. */
  ghost predicate RecordMatchesIntent(w: World) {
    w.files.record.Some? && w.files.intent.Some? && Alive(w.stage, w.files.record.value) ==>
      w.files.record.value.nonce == w.files.intent.value.nonce
  }

  ghost predicate Links(w: World) {
    && (forall g :: g in w.stage ==> LinkOk(w.registered, g.supersedes, g.nonce))
    && (w.files.intent.Some? ==> LinkOk(w.registered, w.files.intent.value.supersedes, w.files.intent.value.nonce))
    && (forall id :: id in w.callers && w.callers[id].Spawning? ==>
          LinkOk(w.registered, w.callers[id].supersedes, w.callers[id].nonce))
    && (forall id :: id in w.callers && w.callers[id].AwaitingOther? ==>
          LinkOk(w.registered, w.callers[id].supersedes, w.nextNonce))
  }

  ghost predicate Safe(w: World) {
    Fresh(w) && Registrations(w) && RecordMatchesIntent(w) && Links(w)
  }

  lemma FreshReserve(w: World, a: Action)
    requires Fresh(w) && a.Reserve?
    ensures Fresh(Calling(w, a))
  {
  }

  lemma FreshTimeout(w: World, a: Action)
    requires Fresh(w) && a.AwaitTimeout?
    ensures Fresh(Calling(w, a))
  {
  }

  lemma FreshSpawn(w: World, a: Action)
    requires Fresh(w) && a.Spawn?
    ensures Fresh(Calling(w, a))
  {
  }

  lemma FreshPut(w: World, files: Files, id: nat, c: Caller)
    requires Fresh(w)
    requires !c.Spawning? && (files.intent == w.files.intent || files.intent.None?)
    ensures Fresh(Put(w.(files := files), id, c))
  {
  }

  lemma FreshDropping(w: World, a: Action)
    requires Fresh(w) && (a.GiveUp? || a.FindNotReady? || a.DropIntent?)
    ensures Fresh(Calling(w, a))
  {
    if a.caller in w.callers {
      var c := w.callers[a.caller];
      if a.GiveUp? && c.AwaitingOwn? {
        FreshPut(w, w.files, a.caller, Failed);
        FreshPut(w, IntentDropped(w.files, c.nonce), a.caller, Failed);
      } else if a.FindNotReady? && c.Checking? && !Alive(w.stage, c.managed) {
        FreshPut(w, RecordDropped(w.files, c.managed), a.caller, Failed);
      } else if a.DropIntent? && c.Cleaning? {
        FreshPut(w, IntentDropped(w.files, c.nonce), a.caller, Returned(c.digest, c.managed));
      }
    }
  }

  lemma FreshQuiet(w: World, a: Action)
    requires Fresh(w) && !a.Reserve? && !a.AwaitTimeout? && !a.Spawn?
    requires !a.GiveUp? && !a.FindNotReady? && !a.DropIntent?
    ensures Fresh(Calling(w, a))
  {
  }

  lemma FreshCalling(w: World, a: Action)
    requires Fresh(w)
    ensures Fresh(Calling(w, a))
  {
    if a.Reserve? {
      FreshReserve(w, a);
    } else if a.AwaitTimeout? {
      FreshTimeout(w, a);
    } else if a.Spawn? {
      FreshSpawn(w, a);
    } else if a.GiveUp? || a.FindNotReady? || a.DropIntent? {
      FreshDropping(w, a);
    } else {
      FreshQuiet(w, a);
    }
  }

  lemma RegistrationsReserve(w: World, a: Action)
    requires Registrations(w) && Fresh(w) && a.Reserve?
    ensures Registrations(Calling(w, a))
  {
  }

  lemma RegistrationsTimeout(w: World, a: Action)
    requires Registrations(w) && Fresh(w) && a.AwaitTimeout?
    ensures Registrations(Calling(w, a))
  {
  }

  lemma RegistrationsPut(w: World, files: Files, id: nat, c: Caller)
    requires Registrations(w) && Fresh(w)
    requires c.Failed? || (c.Returned? && c.managed in w.registered)
    requires files.exit == w.files.exit
    requires files.record == w.files.record
          || (files.record.None? && w.files.record.Some? && !Alive(w.stage, w.files.record.value))
    ensures Registrations(Put(w.(files := files), id, c))
  {
  }

  lemma RegistrationsDropping(w: World, a: Action)
    requires Registrations(w) && Fresh(w) && (a.GiveUp? || a.FindNotReady? || a.DropIntent?)
    ensures Registrations(Calling(w, a))
  {
    if a.caller in w.callers {
      var c := w.callers[a.caller];
      if a.GiveUp? && c.AwaitingOwn? {
        RegistrationsPut(w, w.files, a.caller, Failed);
        RegistrationsPut(w, IntentDropped(w.files, c.nonce), a.caller, Failed);
      } else if a.FindNotReady? && c.Checking? && !Alive(w.stage, c.managed) {
        RegistrationsPut(w, RecordDropped(w.files, c.managed), a.caller, Failed);
      } else if a.DropIntent? && c.Cleaning? {
        RegistrationsPut(w, IntentDropped(w.files, c.nonce), a.caller, Returned(c.digest, c.managed));
      }
    }
  }

  lemma RegistrationsQuiet(w: World, a: Action)
    requires Registrations(w) && Fresh(w) && !a.Reserve? && !a.AwaitTimeout?
    requires !a.GiveUp? && !a.FindNotReady? && !a.DropIntent?
    ensures Registrations(Calling(w, a))
  {
  }

  lemma RegistrationsCalling(w: World, a: Action)
    requires Registrations(w) && Fresh(w)
    ensures Registrations(Calling(w, a))
  {
    if a.Reserve? {
      RegistrationsReserve(w, a);
    } else if a.AwaitTimeout? {
      RegistrationsTimeout(w, a);
    } else if a.GiveUp? || a.FindNotReady? || a.DropIntent? {
      RegistrationsDropping(w, a);
    } else {
      RegistrationsQuiet(w, a);
    }
  }

  lemma LinksReserve(w: World, a: Action)
    requires Links(w) && Registrations(w) && Fresh(w) && a.Reserve?
    ensures Links(Calling(w, a))
  {
  }

  lemma LinksTimeout(w: World, a: Action)
    requires Links(w) && Registrations(w) && Fresh(w) && a.AwaitTimeout?
    ensures Links(Calling(w, a))
  {
  }

  lemma LinksPut(w: World, files: Files, id: nat, c: Caller)
    requires Links(w) && Registrations(w) && Fresh(w)
    requires (c.Failed? || c.Returned?) && (files.intent == w.files.intent || files.intent.None?)
    ensures Links(Put(w.(files := files), id, c))
  {
  }

  lemma LinksDropping(w: World, a: Action)
    requires Links(w) && Registrations(w) && Fresh(w) && (a.GiveUp? || a.FindNotReady? || a.DropIntent?)
    ensures Links(Calling(w, a))
  {
    if a.caller in w.callers {
      var c := w.callers[a.caller];
      if a.GiveUp? && c.AwaitingOwn? {
        LinksPut(w, w.files, a.caller, Failed);
        LinksPut(w, IntentDropped(w.files, c.nonce), a.caller, Failed);
      } else if a.FindNotReady? && c.Checking? && !Alive(w.stage, c.managed) {
        LinksPut(w, RecordDropped(w.files, c.managed), a.caller, Failed);
      } else if a.DropIntent? && c.Cleaning? {
        LinksPut(w, IntentDropped(w.files, c.nonce), a.caller, Returned(c.digest, c.managed));
      }
    }
  }

  lemma LinksQuiet(w: World, a: Action)
    requires Links(w) && Registrations(w) && Fresh(w) && !a.Reserve? && !a.AwaitTimeout?
    requires !a.GiveUp? && !a.FindNotReady? && !a.DropIntent?
    ensures Links(Calling(w, a))
  {
  }

  lemma LinksCalling(w: World, a: Action)
    requires Links(w) && Registrations(w) && Fresh(w)
    ensures Links(Calling(w, a))
  {
    if a.Reserve? {
      LinksReserve(w, a);
    } else if a.AwaitTimeout? {
      LinksTimeout(w, a);
    } else if a.GiveUp? || a.FindNotReady? || a.DropIntent? {
      LinksDropping(w, a);
    } else {
      LinksQuiet(w, a);
    }
  }

  lemma MatchCalling(w: World, a: Action)
    requires Safe(w)
    ensures RecordMatchesIntent(Calling(w, a))
  {
  }

  lemma FreshGuarding(w: World, a: Action)
    requires Fresh(w)
    ensures Fresh(Guarding(w, a))
  {
  }

  lemma RegistrationsGuarding(w: World, a: Action)
    requires Safe(w)
    ensures Registrations(Guarding(w, a))
  {
  }

  lemma MatchGuarding(w: World, a: Action)
    requires Safe(w)
    ensures RecordMatchesIntent(Guarding(w, a))
  {
  }

  lemma LinksGuarding(w: World, a: Action)
    requires Links(w) && Fresh(w)
    ensures Links(Guarding(w, a))
  {
  }

  lemma SafeStep(w: World, a: Action)
    requires Safe(w)
    ensures Safe(Do(w, a))
  {
    hide Fresh, Registrations, RecordMatchesIntent, Links;
    FreshCalling(w, a);
    FreshGuarding(w, a);
    RegistrationsCalling(w, a);
    RegistrationsGuarding(w, a);
    MatchCalling(w, a);
    MatchGuarding(w, a);
    LinksCalling(w, a);
    LinksGuarding(w, a);
  }

  lemma {:induction false} Reachable(actions: seq<Action>)
    ensures Safe(Run(Start, actions))
    decreases |actions|
  {
    if actions != [] {
      Reachable(actions[..|actions| - 1]);
      SafeStep(Run(Start, actions[..|actions| - 1]), actions[|actions| - 1]);
    }
  }

  // ---------------------------------------------------------------- theorems

  /** A registration never replaces the record of a guardian that is still alive. */
  lemma {:induction false} NeverOverwritesTheLiving(actions: seq<Action>, g: Guardian)
    requires var w := Run(Start, actions); g in w.stage && w.stage[g] == Starting && IntentIs(w.files, g)
    ensures var w := Run(Start, actions);
            && Do(w, Register(g)).files.record == Some(g)
            && (w.files.record.Some? ==> !Alive(w.stage, w.files.record.value))
  {
    hide Run;
    Reachable(actions);
  }

  /** Whatever coexists with a live record agrees with it. */
  lemma {:induction false} LiveRecordMatchesIntent(actions: seq<Action>)
    ensures var w := Run(Start, actions);
            w.files.record.Some? && w.files.intent.Some? && Alive(w.stage, w.files.record.value) ==>
              w.files.record.value.nonce == w.files.intent.value.nonce
  {
    hide Run;
    Reachable(actions);
  }

  /** No nonce is ever given to two guardians. */
  lemma {:induction false} EachNonceSpawnsOnce(actions: seq<Action>)
    ensures var w := Run(Start, actions);
            forall g, h :: g in w.stage && h in w.stage && g.nonce == h.nonce ==> g == h
  {
    hide Run;
    Reachable(actions);
  }

  /**
    The guardians that are registered, alive and not deliberately unlinked, together with
    those that could still register: there is never more than one.
   */
  predicate InCharge(w: World, g: Guardian) {
    && g in w.stage
    && ((w.stage[g] == Watching && g !in w.retired) || (w.stage[g] == Starting && IntentIs(w.files, g)))
  }

  lemma {:induction false} OneInCharge(actions: seq<Action>, g: Guardian, h: Guardian)
    requires InCharge(Run(Start, actions), g) && InCharge(Run(Start, actions), h)
    ensures g == h
  {
    hide Run;
    Reachable(actions);
  }

  /** Calls that have returned agree: the guardians they name and that still run are one. */
  lemma {:induction false} LaunchIsIdempotent(actions: seq<Action>, i: nat, j: nat)
    ensures var w := Run(Start, actions);
            (i in w.callers && w.callers[i].Returned? && InCharge(w, w.callers[i].managed)
             && j in w.callers && w.callers[j].Returned? && InCharge(w, w.callers[j].managed)) ==>
              w.callers[i].managed == w.callers[j].managed && w.files.record == Some(w.callers[i].managed)
  {
    hide Run;
    Reachable(actions);
  }

  /** A nonce the intent no longer names is finished: the intent never names it again. */
  ghost predicate Superseded(w: World, nonce: Nonce) {
    nonce < w.nextNonce && (w.files.intent.Some? ==> w.files.intent.value.nonce != nonce)
  }

  lemma SupersededStep(w: World, a: Action, nonce: Nonce)
    requires Superseded(w, nonce)
    ensures Superseded(Do(w, a), nonce)
    ensures w.registered <= Do(w, a).registered
    ensures forall k :: |w.registered| <= k < |Do(w, a).registered| ==> Do(w, a).registered[k].nonce != nonce
  {
  }

  /** A guardian whose intent was replaced or removed can never register. */
  lemma {:induction false} SupersededNeverRegisters(w: World, actions: seq<Action>, nonce: Nonce)
    requires Superseded(w, nonce)
    ensures var later := Run(w, actions);
            && Superseded(later, nonce)
            && w.registered <= later.registered
            && forall k :: |w.registered| <= k < |later.registered| ==> later.registered[k].nonce != nonce
    decreases |actions|
  {
    if actions != [] {
      SupersededNeverRegisters(w, actions[..|actions| - 1], nonce);
      SupersededStep(Run(w, actions[..|actions| - 1]), actions[|actions| - 1], nonce);
    }
  }

  /** Lineage is acyclic: every supersedes link leads to a smaller nonce, which did register. */
  lemma {:induction false} LinksLeadBack(actions: seq<Action>, g: Guardian)
    requires g in Run(Start, actions).stage && g.supersedes.Some?
    ensures var w := Run(Start, actions);
            exists h :: h in w.registered && h in w.stage && h.nonce == g.supersedes.value && h.nonce < g.nonce
  {
    hide Run;
    Reachable(actions);
    var w := Run(Start, actions);
    var h :| h in w.registered && h.nonce == g.supersedes.value;
    assert h in w.stage;
  }

  /** Where in registration order the owner of the exit file stands; at or after `position`. */
  ghost predicate ExitAtOrAfter(w: World, position: nat) {
    w.files.exit.Some? ==> exists k :: position <= k < |w.registered| && w.registered[k] == w.files.exit.value
  }

  lemma ExitStep(w: World, a: Action, position: nat)
    requires Registrations(w) && ExitAtOrAfter(w, position) && position < |w.registered|
    ensures ExitAtOrAfter(Do(w, a), position) && w.registered <= Do(w, a).registered
  {
    ExitUntouched(w, a);
    var w' := Guarding(w, a);
    assert w.registered <= w'.registered;
    if w'.files.exit.Some? && w'.files.exit != w.files.exit {
      assert w.registered[|w.registered| - 1] == w'.files.exit.value;
    }
  }

  lemma ExitUntouched(w: World, a: Action)
    ensures Calling(w, a).files.exit == w.files.exit && Calling(w, a).registered == w.registered
  {
  }

  /** The exit file's owner only moves forward: an obsolete exit never replaces a later one. */
  lemma {:induction false} ExitMovesForward(w: World, actions: seq<Action>, position: nat)
    requires Safe(w) && position < |w.registered| && w.files.exit == Some(w.registered[position])
    ensures var later := Run(w, actions);
            && w.registered <= later.registered
            && (later.files.exit.Some? ==>
                  exists k :: position <= k < |later.registered| && later.registered[k] == later.files.exit.value)
  {
    hide Run;
    ExitForward(w, actions, position);
  }

  lemma {:induction false} ExitForward(w: World, actions: seq<Action>, position: nat)
    requires Safe(w) && position < |w.registered| && ExitAtOrAfter(w, position)
    ensures var later := Run(w, actions);
            Safe(later) && ExitAtOrAfter(later, position) && w.registered <= later.registered
    decreases |actions|
  {
    if actions != [] {
      var before := Run(w, actions[..|actions| - 1]);
      ExitForward(w, actions[..|actions| - 1], position);
      ExitStep(before, actions[|actions| - 1], position);
      SafeStep(before, actions[|actions| - 1]);
    }
  }

  /**
    The driver contract the rotation protocol relies on: a guardian that is spawned while
    another is in charge is not in charge itself, so it can never register.
   */
  lemma {:induction false} SpawnsIntoVacancy(actions: seq<Action>, caller: nat, g: Guardian, h: Guardian)
    requires var w := Run(Start, actions); InCharge(w, h) && g !in w.stage
    ensures var w' := Do(Run(Start, actions), Spawn(caller));
            g in w'.stage ==> !InCharge(w', g)
  {
    hide Run;
    Reachable(actions);
    SafeStep(Run(Start, actions), Spawn(caller));
  }

  /**
    Crash recovery. In every run, a guardian that registered, still runs and was not unlinked is
    the one on record, and any further call for its command gets it back at once: whatever
    happened to the call that launched it, nothing is spawned or reserved.
   */
  lemma {:induction false} LaunchedIsFoundAgain(actions: seq<Action>, g: Guardian, caller: nat, stale: bool, probeFails: bool)
    requires var w := Run(Start, actions);
             g in w.stage && w.stage[g] == Watching && g !in w.retired && caller !in w.callers
    ensures var w := Run(Start, actions);
            var w' := Do(w, Reserve(caller, g.digest, stale, probeFails));
            && w.files.record == Some(g)
            && caller in w'.callers && w'.callers[caller] == Returned(g.digest, g)
            && w'.files == w.files && w'.stage == w.stage && w'.registered == w.registered
            && forall other :: other in w.callers ==> other in w'.callers && w'.callers[other] == w.callers[other]
  {
    hide Run;
    Reachable(actions);
  }

  // ---------------------------------------------------------------- the command that was asked for

  /** Every call asks for this command, as the calls of one supervisor run do. */
  predicate AllAskFor(actions: seq<Action>, digest: nat) {
    forall k :: 0 <= k < |actions| && actions[k].Reserve? ==> actions[k].digest == digest
  }

  ghost predicate AllRun(w: World, digest: nat) {
    && (forall g :: g in w.stage ==> g.digest == digest)
    && (forall g :: g in w.registered ==> g in w.stage)
    && (w.files.intent.Some? ==> w.files.intent.value.digest == digest)
    && (forall id :: id in w.callers && (w.callers[id].Spawning? || w.callers[id].AwaitingOther?) ==>
          w.callers[id].digest == digest)
  }

  lemma AllRunStep(w: World, a: Action, digest: nat)
    requires AllRun(w, digest) && (a.Reserve? ==> a.digest == digest)
    ensures AllRun(Do(w, a), digest)
  {
  }

  /** With one command per key, every guardian a call returns runs that command. */
  lemma {:induction false} ReturnedCommand(actions: seq<Action>, digest: nat)
    requires AllAskFor(actions, digest)
    ensures var w := Run(Start, actions);
            && AllRun(w, digest)
            && forall id :: id in w.callers && w.callers[id].Returned? ==> w.callers[id].managed.digest == digest
    decreases |actions|
  {
    Reachable(actions);
    if actions != [] {
      var before := actions[..|actions| - 1];
      assert forall k :: 0 <= k < |before| ==> before[k] == actions[k];
      ReturnedCommand(before, digest);
      AllRunStep(Run(Start, before), actions[|actions| - 1], digest);
    }
  }

  // ---------------------------------------------------------------- exactly when another command is returned

  /** Nonces keep the command they were issued for. */
  ghost predicate Tag(issued: map<Nonce, nat>, nonce: Nonce, digest: nat) {
    nonce in issued && issued[nonce] == digest
  }

  ghost predicate Tagged(w: World, issued: map<Nonce, nat>) {
    && (forall n :: n in issued ==> n < w.nextNonce)
    && (forall g :: g in w.stage ==> Tag(issued, g.nonce, g.digest))
    && (w.files.intent.Some? ==> Tag(issued, w.files.intent.value.nonce, w.files.intent.value.digest))
    && (forall id :: id in w.callers && (w.callers[id].Spawning? || w.callers[id].AwaitingOther? || w.callers[id].AwaitingOwn?) ==>
          Tag(issued, w.callers[id].nonce, w.callers[id].digest))
  }

  /** The command a nonce drawn by this step is issued for. */
  function Issued(w: World, a: Action, issued: map<Nonce, nat>): map<Nonce, nat> {
    if a.Reserve? && a.caller !in w.callers then issued[w.nextNonce := a.digest]
    else if a.AwaitTimeout? && a.caller in w.callers && w.callers[a.caller].AwaitingOther?
    then issued[w.nextNonce := w.callers[a.caller].digest]
    else issued
  }

  lemma TaggedDrawing(w: World, a: Action, issued: map<Nonce, nat>)
    requires Tagged(w, issued) && (a.Reserve? || a.AwaitTimeout?)
    ensures Tagged(Calling(w, a), Issued(w, a, issued))
  {
  }

  lemma TaggedCalling(w: World, a: Action, issued: map<Nonce, nat>)
    requires Tagged(w, issued) && !a.Reserve? && !a.AwaitTimeout?
    ensures Tagged(Calling(w, a), issued)
  {
  }

  lemma TaggedGuarding(w: World, a: Action, issued: map<Nonce, nat>)
    requires Tagged(w, issued)
    ensures Tagged(Guarding(w, a), issued)
  {
  }

  lemma TaggedStep(w: World, a: Action, issued: map<Nonce, nat>)
    requires Tagged(w, issued)
    ensures Tagged(Do(w, a), Issued(w, a, issued))
  {
    hide Tagged, Calling, Guarding;
    TaggedGuarding(w, a, issued);
    if a.Reserve? || a.AwaitTimeout? {
      TaggedDrawing(w, a, issued);
    } else {
      TaggedCalling(w, a, issued);
    }
  }

  lemma {:induction false} ReachableTagged(actions: seq<Action>) returns (issued: map<Nonce, nat>)
    ensures Tagged(Run(Start, actions), issued)
    decreases |actions|
  {
    if actions == [] {
      issued := map[];
    } else {
      var fewer := ReachableTagged(actions[..|actions| - 1]);
      var w := Run(Start, actions[..|actions| - 1]);
      TaggedStep(w, actions[|actions| - 1], fewer);
      issued := Issued(w, actions[|actions| - 1], fewer);
    }
  }

  /** The locked section after a timeout finds a live record of another command than the caller asked for. */
  predicate FindsAnotherCommand(w: World, caller: nat) {
    && caller in w.callers && w.callers[caller].AwaitingOther?
    && w.files.record.Some? && Alive(w.stage, w.files.record.value)
    && w.files.record.value.digest != w.callers[caller].digest
  }

  /** Step `k` is that section, and the caller has not crashed since. */
  ghost predicate AdoptedAt(actions: seq<Action>, k: nat, caller: nat) {
    && k < |actions| && actions[k].AwaitTimeout? && actions[k].caller == caller
    && FindsAnotherCommand(Run(Start, actions[..k]), caller)
    && CallerCrash(caller) !in actions[k + 1..]
  }

  ghost predicate Adopted(actions: seq<Action>, caller: nat) {
    exists k: nat :: AdoptedAt(actions, k, caller)
  }

  lemma {:induction false} AdoptedPush(actions: seq<Action>, a: Action, caller: nat)
    ensures Adopted(actions + [a], caller) <==>
            a != CallerCrash(caller)
            && (Adopted(actions, caller)
                || (a.AwaitTimeout? && a.caller == caller && FindsAnotherCommand(Run(Start, actions), caller)))
  {
    hide Run, FindsAnotherCommand;
    var n := |actions|;
    var longer := actions + [a];
    assert longer[..n] == actions && longer[n + 1..] == [];
    forall k: nat | k < n
      ensures AdoptedAt(longer, k, caller) <==> AdoptedAt(actions, k, caller) && a != CallerCrash(caller)
    {
      assert longer[..k] == actions[..k];
      assert longer[k + 1..] == actions[k + 1..] + [a];
    }
    if a.AwaitTimeout? && a.caller == caller && FindsAnotherCommand(Run(Start, actions), caller) {
      assert AdoptedAt(longer, n, caller);
    }
    if k: nat :| AdoptedAt(actions, k, caller) {
      assert AdoptedAt(longer, k, caller) <==> a != CallerCrash(caller);
    }
    if k: nat :| AdoptedAt(longer, k, caller) {
      assert k == n || AdoptedAt(actions, k, caller);
    }
  }

  /** A call that holds a guardian holds one of another command exactly when it adopted one after a timeout. */
  ghost predicate HoldsAsAsked(w: World, caller: nat, adopted: bool) {
    if caller in w.callers && (w.callers[caller].Checking? || w.callers[caller].Cleaning? || w.callers[caller].Returned?)
    then w.callers[caller].managed.digest != w.callers[caller].digest <==> adopted
    else (caller in w.callers && w.callers[caller].Failed?) || !adopted
  }

  lemma HoldsStep(w: World, a: Action, caller: nat, adopted: bool, issued: map<Nonce, nat>)
    requires HoldsAsAsked(w, caller, adopted) && Registrations(w) && Tagged(w, issued)
    ensures HoldsAsAsked(Do(w, a), caller,
              a != CallerCrash(caller)
              && (adopted || (a.AwaitTimeout? && a.caller == caller && FindsAnotherCommand(w, caller))))
  {
    hide Tagged;
    if a.SeeRecord? && w.files.record.Some? {
      RecordTagged(w, caller, issued);
    }
  }

  /** A record that carries the awaited nonce runs the command asked for. */
  lemma RecordTagged(w: World, caller: nat, issued: map<Nonce, nat>)
    requires Registrations(w) && Tagged(w, issued) && w.files.record.Some?
    ensures caller in w.callers && (w.callers[caller].AwaitingOther? || w.callers[caller].AwaitingOwn?)
            && w.files.record.value.nonce == w.callers[caller].nonce ==>
              w.files.record.value.digest == w.callers[caller].digest
  {
  }

  /**
    A call returns a guardian of another command than it asked for exactly when, after a wait
    in vain, it found that guardian live on record. Returning at once, seeing the awaited
    record or spawning always gives the command asked for.
   */
  lemma {:induction false} ReturnsAnotherCommandExactly(actions: seq<Action>, caller: nat)
    ensures var w := Run(Start, actions);
            && HoldsAsAsked(w, caller, Adopted(actions, caller))
            && (caller in w.callers && w.callers[caller].Returned? ==>
                  (w.callers[caller].managed.digest != w.callers[caller].digest <==> Adopted(actions, caller)))
    decreases |actions|
  {
    hide HoldsAsAsked;
    if actions == [] {
      NothingHeld(caller);
    } else {
      var n := |actions| - 1;
      ReturnsAnotherCommandExactly(actions[..n], caller);
      Reachable(actions[..n]);
      var issued := ReachableTagged(actions[..n]);
      HoldsStep(Run(Start, actions[..n]), actions[n], caller, Adopted(actions[..n], caller), issued);
      AdoptedPush(actions[..n], actions[n], caller);
      assert actions == actions[..n] + [actions[n]];
    }
    hide Run, Adopted;
    var w := Run(Start, actions);
    if caller in w.callers && w.callers[caller].Returned? {
      HoldsWhenReturned(w, caller, Adopted(actions, caller));
    }
  }

  lemma NothingHeld(caller: nat)
    ensures HoldsAsAsked(Run(Start, []), caller, Adopted([], caller))
  {
  }

  lemma HoldsWhenReturned(w: World, caller: nat, adopted: bool)
    requires HoldsAsAsked(w, caller, adopted) && caller in w.callers && w.callers[caller].Returned?
    ensures w.callers[caller].managed.digest != w.callers[caller].digest <==> adopted
  {
  }

  /**
    Such a run exists. The first locked section compares commands, the one after a timeout
    does not: a caller whose awaited launch was abandoned returns the live guardian of a
    different command.
   */
  const MixedCommands: seq<Action> :=
    [Reserve(1, 10, false, false), Reserve(2, 10, false, false), Spawn(1), Die(Guardian(0, 0, 10, None)), GiveUp(1),
     Reserve(3, 20, false, false), Spawn(3), Register(Guardian(1, 2, 20, None)),
     AwaitTimeout(2, false), FindReady(2), DropIntent(2)]

  ghost predicate StillWaiting(w: World, files: Files, nextNonce: nat, nextPid: nat) {
    && w.files == files && w.nextNonce == nextNonce && w.nextPid == nextPid
    && 2 in w.callers && w.callers[2] == AwaitingOther(0, 10, None)
  }

  lemma TwoCallers()
    ensures var w := Run(Start, MixedCommands[..2]);
            && StillWaiting(w, Files(Some(Intent(0, 10, None)), None, None), 2, 0)
            && 1 in w.callers && w.callers[1] == Spawning(0, 10, None) && 3 !in w.callers
  {
    UnrollTwo(Start, MixedCommands, 0);
    assert MixedCommands[..0] == [];
    var w1 := Do(Start, MixedCommands[0]);
    assert w1.files == Files(Some(Intent(0, 10, None)), None, None) && w1.nextNonce == 1;
  }

  /** Caller 1's guardian dies before it registers; caller 2 keeps waiting for it. */
  lemma Abandoned()
    ensures var w := Run(Start, MixedCommands[..5]);
            StillWaiting(w, Files(None, None, None), 2, 1) && 3 !in w.callers
  {
    hide Run;
    TwoCallers();
    var g0 := Guardian(0, 0, 10, None);
    var w2 := Run(Start, MixedCommands[..2]);
    var w3 := Do(w2, Spawn(1));
    assert w3.callers[1] == AwaitingOwn(0, 10, g0) && g0 in w3.stage && StillWaiting(w3, w2.files, 2, 1);
    var w4 := Do(w3, Die(g0));
    assert !Alive(w4.stage, g0) && w4.callers == w3.callers && w4.files == w3.files;
    UnrollTwo(Start, MixedCommands, 2);
    UnrollTwo(Start, MixedCommands, 3);
  }

  /** Caller 3 launches another command under the same key. */
  lemma Relaunched()
    ensures var w := Run(Start, MixedCommands[..8]);
            && StillWaiting(w, Files(Some(Intent(2, 20, None)), Some(Guardian(1, 2, 20, None)), None), 3, 2)
            && Alive(w.stage, Guardian(1, 2, 20, None))
  {
    hide Run;
    Abandoned();
    var g1 := Guardian(1, 2, 20, None);
    var w5 := Run(Start, MixedCommands[..5]);
    var w6 := Do(w5, MixedCommands[5]);
    assert w6.callers[3] == Spawning(2, 20, None) && StillWaiting(w6, Files(Some(Intent(2, 20, None)), None, None), 3, 1);
    var w7 := Do(w6, Spawn(3));
    assert g1 in w7.stage && w7.stage[g1] == Starting && StillWaiting(w7, w6.files, 3, 2);
    UnrollTwo(Start, MixedCommands, 5);
    UnrollTwo(Start, MixedCommands, 6);
  }

  lemma ReturnsAnotherCommand()
    ensures var w := Run(Start, MixedCommands);
            MixedCommands[1] == Reserve(2, 10, false, false)
            && 2 in w.callers && w.callers[2] == Returned(10, Guardian(1, 2, 20, None))
  {
    hide Run;
    Relaunched();
    UnrollTwo(Start, MixedCommands, 8);
    UnrollTwo(Start, MixedCommands, 9);
    assert MixedCommands[..11] == MixedCommands;
    TakesOver(Run(Start, MixedCommands[..8]), Guardian(1, 2, 20, None));
  }

  lemma TakesOver(w: World, g: Guardian)
    requires 2 in w.callers && w.callers[2].AwaitingOther? && w.files.record == Some(g) && Alive(w.stage, g)
    ensures var w' := Do(Do(Do(w, AwaitTimeout(2, false)), FindReady(2)), DropIntent(2));
            2 in w'.callers && w'.callers[2] == Returned(w.callers[2].digest, g)
  {
    var w1 := Do(w, AwaitTimeout(2, false));
    assert w1.callers[2] == Checking(w.callers[2].nonce, w.callers[2].digest, g);
  }

  lemma {:induction false} UnrollTwo(w: World, actions: seq<Action>, k: nat)
    requires k + 2 <= |actions|
    ensures Run(w, actions[..k + 1]) == Do(Run(w, actions[..k]), actions[k])
    ensures Run(w, actions[..k + 2]) == Do(Run(w, actions[..k + 1]), actions[k + 1])
  {
    assert actions[..k + 1][..k] == actions[..k];
    assert actions[..k + 2][..k + 1] == actions[..k + 1];
  }
}
