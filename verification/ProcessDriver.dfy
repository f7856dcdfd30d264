/**
  The process driver of src/agent_session_harness/process.py in imperative form: each
  locked section reads and rewrites the intent, registry and exit files, and `StartFresh`
  strings its sections together with polling in between, where every other caller and
  guardian may act. `history` records the protocol actions of module Launch performed.
 */
module ProcessDriving {
  import opened Options
  import opened Launch
  import opened LaunchSafety

  /** Not a step of this call. */
  predicate ByOthers(a: Action, caller: nat) {
    match a
    case Reserve(id, _, _, _) => id != caller
    case Spawn(id) => id != caller
    case SeeRecord(id) => id != caller
    case AwaitTimeout(id, _) => id != caller
    case GiveUp(id) => id != caller
    case FindNotReady(id) => id != caller
    case FindReady(id) => id != caller
    case DropIntent(id) => id != caller
    case CallerCrash(id) => id != caller
    case _ => true
  }

  lemma OthersLeaveTheCall(w: World, a: Action, caller: nat)
    requires ByOthers(a, caller)
    ensures caller in Do(w, a).callers <==> caller in w.callers
    ensures caller in w.callers ==> Do(w, a).callers[caller] == w.callers[caller]
    ensures w.registered <= Do(w, a).registered
  {
  }

  /** Alive, whether registered or not. */
  ghost predicate Runs(stage: map<Guardian, Stage>, g: Guardian) {
    g in stage && (stage[g] == Starting || stage[g] == Watching)
  }

  /** A process list shows a guardian of this nonce, or one that was launched to supersede it. */
  ghost predicate Shows(stage: map<Guardian, Stage>, nonce: Nonce) {
    exists g :: Runs(stage, g) && (g.nonce == nonce || g.supersedes == Some(nonce))
  }

  /** The nonce a new launch has to supersede. */
  ghost function LinkOf(files: Files): Option<Nonce> {
    if files.record.Some? then Some(files.record.value.nonce)
    else if files.intent.Some? then files.intent.value.supersedes
    else None
  }

  /** Launched by the same command as `g`, as another process, to supersede exactly `g`. */
  ghost predicate Follows(g: Guardian, h: Guardian) {
    h.digest == g.digest && h.pid != g.pid && h.nonce != g.nonce && h.supersedes == Some(g.nonce)
  }

  /** The first section has nothing to return, to wait for or to start. */
  ghost predicate FirstRefuses(files: Files, stage: map<Guardian, Stage>, digest: nat, stale: bool, probeFails: bool) {
    || (files.record.Some? && files.record.value.digest != digest)
    || (&& !(files.record.Some? && Runs(stage, files.record.value))
        && files.intent.Some?
        && (files.intent.value.digest != digest || (stale && (probeFails || Shows(stage, files.intent.value.nonce)))))
  }

  /** The section after a wait in vain finds neither a live record nor its own launch still to be made. */
  ghost predicate SecondRefuses(files: Files, stage: map<Guardian, Stage>, c: Caller, probeFails: bool)
    requires c.AwaitingOther?
  {
    && !(files.record.Some? && Runs(stage, files.record.value))
    && (files.intent != Some(Intent(c.nonce, c.digest, c.supersedes)) || probeFails || Shows(stage, c.nonce))
  }

  /** The call has spawned this guardian, or seen its record. */
  ghost predicate Held(w: World, caller: nat, g: Guardian) {
    && caller in w.callers
    && ((w.callers[caller].AwaitingOwn? && w.callers[caller].guardian == g)
        || (w.callers[caller].Checking? && w.callers[caller].managed == g))
  }

  class PosixProcessDriver {
    var files: Files
    var stage: map<Guardian, Stage>
    var callers: map<nat, Caller>
    var nextNonce: nat
    var nextPid: nat
    ghost var registered: seq<Guardian>
    ghost var retired: set<Guardian>
    ghost var history: seq<Action>
    /** How often this process has polled the registry. */
    ghost var looks: nat

    ghost function View(): World
      reads this
    {
      World(files, stage, callers, nextNonce, nextPid, registered, retired)
    }

    ghost predicate Valid()
      reads this
    {
      View() == Run(Start, history)
    }

    constructor ()
      ensures Valid() && history == []
    {
      files := Files(None, None, None);
      stage, callers := map[], map[];
      nextNonce, nextPid := 0, 0;
      registered, retired, history, looks := [], {}, [], 0;
    }

    ghost method Log(a: Action, before: World)
      requires before == Run(Start, history) && View() == Do(before, a)
      modifies this`history
      ensures history == old(history) + [a] && Valid()
    {
      hide Run, Do;
      RunAppend(Start, history, a);
      history := history + [a];
    }

    /** One step of another caller, a guardian, or a stop. */
    method OthersStep(a: Action, caller: nat)
      requires Valid() && ByOthers(a, caller)
      modifies this
      ensures Valid() && history == old(history) + [a] && old(registered) <= registered
      ensures caller in callers <==> caller in old(callers)
      ensures caller in callers ==> callers[caller] == old(callers)[caller]
      ensures looks == old(looks)
    {
      hide Run, Calling, Guarding;
      ghost var before := View();
      var seen := Do(World(files, stage, callers, nextNonce, nextPid, [], {}), a);
      GhostsDoNotSteer(before, a);
      OthersLeaveTheCall(before, a, caller);
      files, stage, callers, nextNonce, nextPid := seen.files, seen.stage, seen.callers, seen.nextNonce, seen.nextPid;
      registered, retired := Do(before, a).registered, Do(before, a).retired;
      Log(a, before);
    }

    lemma GhostsDoNotSteer(w: World, a: Action)
      ensures Do(w.(registered := [], retired := {}), a)
           == Do(w, a).(registered := Do(w.(registered := [], retired := {}), a).registered,
                        retired := Do(w.(registered := [], retired := {}), a).retired)
    {
    }

    /** Any number of steps by others. */
    method Wait(caller: nat)
      requires Valid()
      modifies this
      ensures Valid() && old(history) <= history && old(registered) <= registered
      ensures caller in callers <==> caller in old(callers)
      ensures caller in callers ==> callers[caller] == old(callers)[caller]
      ensures looks == old(looks)
    {
      hide Run;
      var steps: nat := *;
      while steps > 0
        invariant Valid() && old(history) <= history && old(registered) <= registered
        invariant caller in callers <==> caller in old(callers)
        invariant caller in callers ==> callers[caller] == old(callers)[caller]
        invariant looks == old(looks)
      {
        var a: Action := *;
        if ByOthers(a, caller) {
          OthersStep(a, caller);
        }
        steps := steps - 1;
      }
    }

    predicate Live(g: Guardian)
      reads this
    {
      g in stage && stage[g] != Gone
    }

    /** At some moment since `from` the guardian was alive. */
    ghost predicate SeenLive(from: nat, g: Guardian)
      reads this
    {
      exists k: nat :: from <= k <= |history| && Alive(Run(Start, history[..k]).stage, g)
    }

    // ------------------------------------------------------------ guardian side

    /** `register_guarded_process`: only the guardian the current intent names may register. */
    method RegisterGuardedProcess(g: Guardian) returns (r: Result<()>)
      requires Valid() && g in stage && stage[g] == Starting
      modifies this
      ensures Valid() && history == old(history) + [Register(g)]
      ensures r.Ok? <==> old(files.intent) == Some(Intent(g.nonce, g.digest, g.supersedes))
      ensures r.Ok? ==> files == old(files).(record := Some(g)) && Live(g) && registered == old(registered) + [g]
      ensures r.Ok? && old(files.record).Some? ==> !Alive(old(stage), old(files.record).value)
      ensures r.Raised? ==> files == old(files) && registered == old(registered) && !Live(g)
    {
      hide Run;
      if IntentIs(files, g) {
        NeverOverwritesTheLiving(history, g);
      }
      ghost var before := View();
      if files.intent.None? || files.intent.value.digest != g.digest || files.intent.value.nonce != g.nonce
         || files.intent.value.supersedes != g.supersedes {
        stage := stage[g := Gone];
        Log(Register(g), before);
        return Raised(RuntimeFault);
      }
      files := files.(record := Some(g));
      stage := stage[g := Watching];
      registered := registered + [g];
      Log(Register(g), before);
      return Ok(());
    }

    /** `record_guarded_exit`: the current registrant writes; an obsolete one yields to its successor. */
    method RecordGuardedExit(g: Guardian) returns (r: Result<()>)
      requires Valid() && g in stage && stage[g] == Watching
      modifies this
      ensures Valid() && history == old(history) + [RecordExit(g)]
      ensures files.exit != old(files.exit) ==> files.exit == Some(g) && old(files.record) == Some(g)
      ensures old(files.record) == Some(g) ==> r.Ok? && files == old(files).(exit := Some(g))
      ensures r.Raised? ==> files == old(files)
      ensures r.Ok? <==> var (record, exit) := (old(files.record), old(files.exit));
                         || record == Some(g)
                         || (record.Some? && Follows(g, record.value))
                         || (record.None? && exit.Some? && Follows(g, exit.value))
      ensures r.Ok? && old(files.record) != Some(g) ==> files == old(files)
    {
      hide Run;
      ghost var before := View();
      if files.record.Some? {
        if files.record.value == g {
          files := files.(exit := Some(g));
          r := Ok(());
        } else if IsProvenSuccessor(g, files.record.value) {
          r := Ok(());
        } else {
          r := Raised(RuntimeFault);
        }
      } else if files.exit.Some? && IsProvenSuccessor(g, files.exit.value) {
        r := Ok(());
      } else {
        r := Raised(RuntimeFault);
      }
      Log(RecordExit(g), before);
    }

    static predicate IsProvenSuccessor(obsolete: Guardian, candidate: Guardian) {
      && candidate.digest == obsolete.digest
      && candidate.pid != obsolete.pid
      && candidate.nonce != obsolete.nonce
      && candidate.supersedes == Some(obsolete.nonce)
    }

    /** `unregister_guarded_process`: only its own record. */
    method UnregisterGuardedProcess(g: Guardian)
      requires Valid() && g in stage && stage[g] == Watching
      modifies this
      ensures Valid() && history == old(history) + [Unregister(g)]
      ensures files == if old(files.record) == Some(g) then old(files).(record := None) else old(files)
    {
      hide Run;
      ghost var before := View();
      if files.record.Some? && files.record.value == g {
        files := files.(record := None);
      }
      retired := retired + {g};
      Log(Unregister(g), before);
    }

    // ------------------------------------------------------------ the locked sections of start_fresh

    /**
      First section: a live guardian of the command asked for is returned; a pending launch is
      waited for; otherwise a fresh nonce is reserved, unless `FirstRefuses`.
     */
    method ReserveLaunch(caller: nat, digest: nat, stale: bool, probeFails: bool) returns (next: Caller)
      requires Valid() && caller !in callers
      modifies this
      ensures Valid() && history == old(history) + [Reserve(caller, digest, stale, probeFails)]
      ensures registered == old(registered) && looks == old(looks)
      ensures stage == old(stage) && callers == old(callers)[caller := next]
      ensures next == Failed <==> FirstRefuses(old(files), stage, digest, stale, probeFails)
      ensures old(files.record).Some? && old(files.record).value.digest == digest && Runs(stage, old(files.record).value) ==>
                next == Returned(digest, old(files.record).value) && files == old(files)
      ensures next.Returned? ==> old(files.record) == Some(next.managed) && next.managed.digest == digest && Runs(stage, next.managed)
      ensures !next.Returned? && !next.Failed? ==> files.record.None?
      ensures old(files.intent).Some? && !stale && !next.Returned? && !next.Failed? ==>
                next == AwaitingOther(old(files.intent).value.nonce, digest, LinkOf(old(files))) && files.intent == old(files.intent)
      ensures (old(files.intent).None? || stale) && !next.Returned? && !next.Failed? ==>
                next == Spawning(old(nextNonce), digest, LinkOf(old(files)))
                && files.intent == Some(Intent(old(nextNonce), digest, LinkOf(old(files))))
    {
      hide Run;
      ghost var before := View();
      var drawn := nextNonce;
      nextNonce := nextNonce + 1;
      next := ReserveUnderLock(digest, drawn, stale, probeFails);
      callers := callers[caller := next];
      Log(Reserve(caller, digest, stale, probeFails), before);
    }

    method ReserveUnderLock(digest: nat, drawn: Nonce, stale: bool, probeFails: bool) returns (next: Caller)
      modifies this`files
      ensures (files, next) == Reserved(old(files), stage, drawn, digest, stale, probeFails)
    {
      var supersedes: Option<Nonce> := None;
      if files.record.Some? {
        var existing := files.record.value;
        if existing.digest != digest {
          return Failed;
        }
        if existing in stage && stage[existing] != Gone {
          return Returned(digest, existing);
        }
        supersedes := Some(existing.nonce);
        files := files.(record := None);
      }
      if files.intent.Some? {
        var intent := files.intent.value;
        if intent.digest != digest {
          return Failed;
        }
        if supersedes.None? {
          supersedes := intent.supersedes;
        }
        if !stale {
          return AwaitingOther(intent.nonce, digest, supersedes);
        }
        if probeFails || (exists g :: g in stage && stage[g] != Gone && (g.nonce == intent.nonce || g.supersedes == Some(intent.nonce))) {
          return Failed;
        }
      }
      files := files.(intent := Some(Intent(drawn, digest, supersedes)));
      return Spawning(drawn, digest, supersedes);
    }

    /** The section after a wait in vain: use what registered meanwhile, or take the launch over, unless `SecondRefuses`. */
    method TakeOverLaunch(caller: nat, probeFails: bool) returns (next: Caller)
      requires Valid() && caller in callers && callers[caller].AwaitingOther?
      modifies this
      ensures Valid() && history == old(history) + [AwaitTimeout(caller, probeFails)]
      ensures registered == old(registered) && looks == old(looks)
      ensures stage == old(stage) && callers == old(callers)[caller := next]
      ensures next == Failed <==> SecondRefuses(old(files), stage, old(callers)[caller], probeFails)
      ensures var c := old(callers)[caller];
              if old(files.record).Some? && Runs(stage, old(files.record).value) then
                next == Checking(c.nonce, c.digest, old(files.record).value) && files == old(files)
              else if next == Failed then
                files == old(files)
              else
                && next == Spawning(old(nextNonce), c.digest, c.supersedes)
                && files == old(files).(intent := Some(Intent(old(nextNonce), c.digest, c.supersedes)))
    {
      hide Run;
      ghost var before := View();
      var drawn := nextNonce;
      nextNonce := nextNonce + 1;
      next := TakeOverUnderLock(callers[caller], drawn, probeFails);
      callers := callers[caller := next];
      Log(AwaitTimeout(caller, probeFails), before);
    }

    method TakeOverUnderLock(c: Caller, drawn: Nonce, probeFails: bool) returns (next: Caller)
      requires c.AwaitingOther?
      modifies this`files
      ensures (files, next) == TakenOver(old(files), stage, drawn, c, probeFails)
    {
      if files.record.Some? && files.record.value in stage && stage[files.record.value] != Gone {
        return Checking(c.nonce, c.digest, files.record.value);
      }
      if files.intent.None? || files.intent.value.digest != c.digest || files.intent.value.nonce != c.nonce
         || files.intent.value.supersedes != c.supersedes {
        return Failed;
      }
      if probeFails || (exists g :: g in stage && stage[g] != Gone && (g.nonce == c.nonce || g.supersedes == Some(c.nonce))) {
        return Failed;
      }
      files := files.(intent := Some(Intent(drawn, c.digest, c.supersedes)));
      return Spawning(drawn, c.digest, c.supersedes);
    }

    method SpawnGuardian(caller: nat)
      requires Valid() && caller in callers && callers[caller].Spawning?
      modifies this
      ensures Valid() && history == old(history) + [Spawn(caller)] && registered == old(registered) && files == old(files) && looks == old(looks)
      ensures callers[caller].guardian == Guardian(old(nextPid), old(callers)[caller].nonce, old(callers)[caller].digest, old(callers)[caller].supersedes)
      ensures stage == old(stage)[callers[caller].guardian := Starting]
      ensures caller in callers && callers[caller].AwaitingOwn? && callers[caller].digest == old(callers)[caller].digest
      ensures callers[caller].guardian in stage && callers[caller].guardian !in old(stage)
    {
      hide Run;
      ghost var before := View();
      FreshPid();
      var c := callers[caller];
      var g := Guardian(nextPid, c.nonce, c.digest, c.supersedes);
      stage := stage[g := Starting];
      nextPid := nextPid + 1;
      callers := callers[caller := AwaitingOwn(c.nonce, c.digest, g)];
      Log(Spawn(caller), before);
    }

    lemma FreshPid()
      requires Valid()
      ensures forall g :: g in stage ==> g.pid < nextPid
    {
      hide Run;
      Reachable(history);
    }

    // ------------------------------------------------------------ polling

    /**
      `_await_registry`: poll until the record carries the awaited nonce; given up only after all
      polls, or for the call's own guardian once it is dead, and never while such a record is there.
     */
    method AwaitRegistry(caller: nat, polls: nat) returns (seen: bool)
      requires Valid() && caller in callers && (callers[caller].AwaitingOther? || callers[caller].AwaitingOwn?)
      modifies this
      ensures Valid() && old(history) <= history && old(looks) <= looks
      ensures caller in callers
      ensures seen ==> callers[caller].Checking? && callers[caller].nonce == old(callers)[caller].nonce
                       && callers[caller].digest == old(callers)[caller].digest
                       && callers[caller].managed.nonce == old(callers)[caller].nonce
                       && files.record == Some(callers[caller].managed)
      ensures !seen ==> callers[caller] == old(callers)[caller]
      ensures !seen && polls > 0 ==> !(files.record.Some? && files.record.value.nonce == callers[caller].nonce)
      ensures !seen ==> looks == old(looks) + polls || (callers[caller].AwaitingOwn? && !Runs(stage, callers[caller].guardian))
    {
      hide Run;
      var left: nat := polls;
      while left > 0
        invariant Valid() && old(history) <= history && looks == old(looks) + polls - left
        invariant caller in callers && callers[caller] == old(callers)[caller]
        invariant left < polls ==> !(files.record.Some? && files.record.value.nonce == callers[caller].nonce)
      {
        Wait(caller);
        looks := looks + 1;
        if files.record.Some? && files.record.value.nonce == callers[caller].nonce {
          ghost var before := View();
          callers := callers[caller := Checking(callers[caller].nonce, callers[caller].digest, files.record.value)];
          Log(SeeRecord(caller), before);
          return true;
        }
        if callers[caller].AwaitingOwn? && !Live(callers[caller].guardian) {
          return false;
        }
        left := left - 1;
      }
      return false;
    }

    /** The guardian did not become ready: its intent goes only if it is dead and still current. */
    method AbandonLaunch(caller: nat)
      requires Valid() && caller in callers && callers[caller].AwaitingOwn?
      modifies this
      ensures Valid() && old(history) <= history && caller in callers && callers[caller] == Failed
      ensures stage == old(stage) && looks == old(looks)
      ensures var own := old(files.intent).Some? && old(files.intent).value.nonce == old(callers)[caller].nonce;
              files == if !Runs(stage, old(callers)[caller].guardian) && own then old(files).(intent := None) else old(files)
    {
      hide Run;
      ghost var before := View();
      var c := callers[caller];
      if !Live(c.guardian) && files.intent.Some? && files.intent.value.nonce == c.nonce {
        files := files.(intent := None);
      }
      callers := callers[caller := Failed];
      Log(GiveUp(caller), before);
    }

    /** `_await_process_readiness`, then dropping the intent this call still owns. */
    method ConfirmReady(caller: nat) returns (r: Result<Guardian>)
      requires Valid() && caller in callers && callers[caller].Checking?
      modifies this
      ensures Valid() && old(history) <= history && caller in callers
      ensures r.Ok? ==> r.value == old(callers)[caller].managed && callers[caller] == Returned(old(callers)[caller].digest, r.value)
      ensures r.Ok? ==> SeenLive(|old(history)|, r.value)
      ensures r.Raised? ==> callers[caller] == Failed && files.record != Some(old(callers)[caller].managed)
      ensures r.Raised? ==> !Runs(stage, old(callers)[caller].managed)
      ensures r.Ok? ==> !(files.intent.Some? && files.intent.value.nonce == old(callers)[caller].nonce)
      ensures old(looks) <= looks
    {
      hide Run;
      Wait(caller);
      var c := callers[caller];
      ghost var before := View();
      if !Live(c.managed) {
        if files.record.Some? && files.record.value == c.managed {
          files := files.(record := None);
        }
        callers := callers[caller := Failed];
        Log(FindNotReady(caller), before);
        return Raised(RuntimeFault);
      }
      ghost var now, at := history, |history|;
      assert Alive(Run(Start, now).stage, c.managed);
      callers := callers[caller := Cleaning(c.nonce, c.digest, c.managed)];
      Log(FindReady(caller), before);
      DropOwnIntent(caller);
      assert history[..at] == now;
      return Ok(c.managed);
    }

    method DropOwnIntent(caller: nat)
      requires Valid() && caller in callers && callers[caller].Cleaning?
      modifies this
      ensures Valid() && old(history) <= history && caller in callers
      ensures callers[caller] == Returned(old(callers)[caller].digest, old(callers)[caller].managed)
      ensures !(files.intent.Some? && files.intent.value.nonce == old(callers)[caller].nonce)
      ensures looks == old(looks)
    {
      hide Run;
      Wait(caller);
      var c := callers[caller];
      ghost var before := View();
      if files.intent.Some? && files.intent.value.nonce == c.nonce {
        files := files.(intent := None);
      }
      callers := callers[caller := Returned(c.digest, c.managed)];
      Log(DropIntent(caller), before);
    }

    // ------------------------------------------------------------ start_fresh

    /**
      `start_fresh`, as its first section finds the files (`found`). A live guardian of the command
      asked for is the answer. Whatever others do in between, a returned guardian did register and
      was alive during the call, and it runs another command than asked for exactly when the call
      adopted it after a timeout. A call fails only if its first section refuses, if it polled in
      vain, or if the guardian it spawned or saw is dead.
     */
    method StartFresh(caller: nat, digest: nat, polls: nat, stale: bool, probeFails: bool, probeFailsLater: bool)
      returns (r: Result<Guardian>, ghost found: World, ghost mine: Option<Guardian>)
      requires Valid() && caller !in callers
      modifies this
      ensures Valid() && old(history) <= history && caller in callers
      ensures exists k :: |old(history)| <= k < |history| && found == Run(Start, history[..k])
                          && history[k] == Reserve(caller, digest, stale, probeFails)
      ensures found.files.record.Some? && found.files.record.value.digest == digest && Runs(found.stage, found.files.record.value) ==>
                r == Ok(found.files.record.value)
      ensures r.Ok? ==> callers[caller] == Returned(digest, r.value) && r.value in registered
      ensures r.Ok? ==> SeenLive(|old(history)|, r.value)
      ensures r.Ok? ==> (r.value.digest != digest <==> Adopted(history, caller))
      ensures r.Raised? ==> callers[caller] == Failed
      ensures r.Raised? ==>
                || FirstRefuses(found.files, found.stage, digest, stale, probeFails)
                || looks >= old(looks) + polls
                || (mine.Some? && !Runs(stage, mine.value))
      ensures mine.Some? ==> exists k :: |old(history)| <= k <= |history| && Held(Run(Start, history[..k]), caller, mine.value)
    {
      hide Run, Adopted, Held, FirstRefuses;
      Wait(caller);
      ghost var from := |history|;
      ghost var now := history;
      found := View();
      var next := ReserveLaunch(caller, digest, stale, probeFails);
      r, mine := FinishLaunch(caller, polls, probeFailsLater);
      assert history[..from] == now;
      if r.Ok? {
        SeenEarlier(|old(history)|, from, r.value);
        ReturnedRegistered(caller);
      }
    }

    lemma SeenEarlier(from: nat, later: nat, g: Guardian)
      requires from <= later && SeenLive(later, g)
      ensures SeenLive(from, g)
    {
    }

    lemma ReturnedRegistered(caller: nat)
      requires Valid() && caller in callers && callers[caller].Returned?
      ensures callers[caller].managed in registered
      ensures callers[caller].managed.digest != callers[caller].digest <==> Adopted(history, caller)
    {
      hide Run, Adopted;
      Reachable(history);
      ReturnsAnotherCommandExactly(history, caller);
    }

    /** What is seen now stays seen as the history grows. */
    lemma SeenNow(g: Guardian)
      requires Valid() && Live(g)
      ensures SeenLive(|history|, g)
    {
      assert history[..|history|] == history;
    }

    method FinishLaunch(caller: nat, polls: nat, probeFails: bool) returns (r: Result<Guardian>, ghost mine: Option<Guardian>)
      requires Valid() && caller in callers
      requires callers[caller].Spawning? || callers[caller].AwaitingOther? || callers[caller].Returned? || callers[caller].Failed?
      requires callers[caller].Returned? ==> Live(callers[caller].managed)
      modifies this
      ensures Valid() && old(history) <= history && caller in callers
      ensures r.Ok? ==> !old(callers)[caller].Failed? && callers[caller] == Returned(old(callers)[caller].digest, r.value)
      ensures r.Ok? ==> SeenLive(|old(history)|, r.value)
      ensures old(callers)[caller].Returned? ==> r == Ok(old(callers)[caller].managed)
      ensures r.Raised? ==> callers[caller] == Failed
      ensures r.Raised? ==> || old(callers)[caller].Failed? || looks >= old(looks) + polls
                            || (mine.Some? && !Runs(stage, mine.value))
      ensures mine.Some? ==> exists k :: |old(history)| <= k <= |history| && Held(Run(Start, history[..k]), caller, mine.value)
    {
      hide Run;
      hide Held, SecondRefuses;
      mine := None;
      if callers[caller].Returned? {
        SeenNow(callers[caller].managed);
        r := Ok(callers[caller].managed);
        return;
      }
      if callers[caller].AwaitingOther? {
        var registeredByOther := AwaitRegistry(caller, polls);
        if !registeredByOther {
          var next := TakeOverLaunch(caller, probeFails);
        }
      }
      if callers[caller].Spawning? {
        ghost var now := history;
        ghost var at;
        mine, at := LaunchOwn(caller, polls);
        assert now <= history;
      }
      if callers[caller].Failed? {
        r := Raised(RuntimeFault);
        return;
      }
      ghost var now := history;
      mine := Some(callers[caller].managed);
      HeldNow(caller, callers[caller].managed);
      r := ConfirmReady(caller);
      assert history[..|now|] == now;
      if r.Ok? {
        SeenEarlier(|old(history)|, |now|, r.value);
      }
    }

    lemma HeldNow(caller: nat, g: Guardian)
      requires Valid() && caller in callers
      requires (callers[caller].AwaitingOwn? && callers[caller].guardian == g) || (callers[caller].Checking? && callers[caller].managed == g)
      ensures Held(Run(Start, history), caller, g)
    {
    }

    /** Spawns the guardian of a reserved nonce and waits for it. */
    method LaunchOwn(caller: nat, polls: nat) returns (ghost mine: Option<Guardian>, ghost at: nat)
      requires Valid() && caller in callers && callers[caller].Spawning?
      modifies this
      ensures Valid() && old(history) <= history && caller in callers && looks >= old(looks)
      ensures callers[caller].Checking? || callers[caller].Failed?
      ensures callers[caller].Checking? ==> callers[caller].digest == old(callers)[caller].digest
      ensures mine.Some? && |old(history)| <= at <= |history| && Held(Run(Start, history[..at]), caller, mine.value)
      ensures callers[caller].Failed? ==> looks >= old(looks) + polls || !Runs(stage, mine.value)
    {
      hide Run, Held;
      Wait(caller);
      SpawnGuardian(caller);
      HeldNow(caller, callers[caller].guardian);
      ghost var now := history;
      mine, at := Some(callers[caller].guardian), |history|;
      var ready := AwaitRegistry(caller, polls);
      if !ready {
        AbandonLaunch(caller);
      }
      assert history[..at] == now;
    }
  }
}
