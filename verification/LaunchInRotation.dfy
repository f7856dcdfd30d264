/**
  The two views of the process driver agree: module Launch interleaves the locked sections of
  one chain:generation key, module Rotation sees one driver whose `start_fresh` is a single
  effect. Both are made of the same moves of the driver's state.
 */
module LaunchInRotation {
  import opened Options
  import opened LaunchSafety
  import L = Launch
  import R = Rotation

  /** What can happen to the driver's state at once; `current` says that the launch intent names the guardian. */
  datatype Move =
    | Stays
    | Dies(guardian: R.Guardian)
    | Registers(guardian: R.Guardian)
    | Unregisters(guardian: R.Guardian)
    | Spawns(guardian: R.Guardian, current: bool)

  /** A guardian that can still register is spawned only beside no live record and no other such guardian. */
  predicate Possible(d: R.Driver, m: Move) {
    match m
    case Registers(g) => g in d.starting
    case Spawns(g, current) =>
      && g.nonce == d.nextNonce
      && (current ==>
            && !(g.generation in d.registry && d.registry[g.generation] in d.alive)
            && R.StartingOf(d, g.generation) == {})
    case _ => true
  }

  function Moved(d: R.Driver, m: Move): R.Driver {
    match m
    case Stays => d
    case Dies(g) => R.Died(d, g)
    case Registers(g) => R.Registered(d, g)
    case Unregisters(g) => R.Unregistered(d, g)
    case Spawns(g, current) =>
      d.(nextNonce := d.nextNonce + 1, spawned := d.spawned + {g},
         starting := if current then d.starting + {g} else d.starting)
  }

  function MovedAll(d: R.Driver, moves: seq<Move>): R.Driver {
    if moves == [] then d else Moved(MovedAll(d, moves[..|moves| - 1]), moves[|moves| - 1])
  }

  /** Each move is possible where it happens. */
  predicate AllPossible(d: R.Driver, moves: seq<Move>) {
    moves == [] || (AllPossible(d, moves[..|moves| - 1]) && Possible(MovedAll(d, moves[..|moves| - 1]), moves[|moves| - 1]))
  }

  lemma MovesPush(d: R.Driver, moves: seq<Move>, m: Move)
    ensures MovedAll(d, moves + [m]) == Moved(MovedAll(d, moves), m)
    ensures AllPossible(d, moves + [m]) <==> AllPossible(d, moves) && Possible(MovedAll(d, moves), m)
  {
    assert (moves + [m])[..|moves|] == moves;
  }

  // ---------------------------------------------------------------- one key's launches as a driver

  /** A guardian of this generation, with its process id as the nonce that orders spawns. */
  function Shown(g: L.Guardian, generation: nat, capsule: Option<R.Fingerprint>): R.Guardian {
    R.Guardian(generation, g.pid, capsule)
  }

  /** The guardian the current intent names, while it has not registered. */
  predicate Waits(w: L.World, g: L.Guardian) {
    g in w.stage && w.stage[g] == L.Starting && L.IntentIs(w.files, g)
  }

  ghost function DriverOf(w: L.World, generation: nat, capsule: Option<R.Fingerprint>): R.Driver {
    R.Driver(
      if w.files.record.Some? then map[generation := Shown(w.files.record.value, generation, capsule)] else map[],
      set g | g in w.stage && w.stage[g] == L.Watching :: Shown(g, generation, capsule),
      set g | g in w.stage && Waits(w, g) :: Shown(g, generation, capsule),
      set g | g in w.stage :: Shown(g, generation, capsule),
      w.nextPid)
  }

  ghost predicate Pids(w: L.World) {
    && (forall g, h :: g in w.stage && h in w.stage && g.pid == h.pid ==> g == h)
    && (w.files.record.Some? ==> w.files.record.value in w.stage)
  }

  lemma PidsStep(w: L.World, a: L.Action)
    requires Safe(w) && Pids(w)
    ensures Pids(L.Do(w, a))
  {
    hide Links, RecordMatchesIntent;
  }

  lemma {:induction false} PidsHold(actions: seq<L.Action>)
    ensures Safe(L.Run(L.Start, actions)) && Pids(L.Run(L.Start, actions))
    decreases |actions|
  {
    Reachable(actions);
    if actions != [] {
      PidsHold(actions[..|actions| - 1]);
      PidsStep(L.Run(L.Start, actions[..|actions| - 1]), actions[|actions| - 1]);
    }
  }

  /** The step looks like this move from outside. */
  ghost predicate Looks(w: L.World, a: L.Action, m: Move, generation: nat, capsule: Option<R.Fingerprint>) {
    && Possible(DriverOf(w, generation, capsule), m)
    && DriverOf(L.Do(w, a), generation, capsule) == Moved(DriverOf(w, generation, capsule), m)
  }

  /** The guardian a reserved nonce is spawned for: its intent is current only in a vacant place. */
  lemma SpawnVacancy(w: L.World, id: nat, g: L.Guardian)
    requires Safe(w) && id in w.callers && w.callers[id].Spawning? && g.nonce == w.callers[id].nonce && L.IntentIs(w.files, g)
    ensures forall h :: !Waits(w, h)
    ensures w.files.record.Some? ==> w.files.record.value in w.stage && w.stage[w.files.record.value] != L.Watching
  {
    hide Links;
  }

  lemma StageGrows(w: L.World, w': L.World, g: L.Guardian, generation: nat, capsule: Option<R.Fingerprint>)
    requires g !in w.stage && w'.stage == w.stage[g := L.Starting] && w'.files == w.files && w'.nextPid == w.nextPid + 1
    ensures var (d, d') := (DriverOf(w, generation, capsule), DriverOf(w', generation, capsule));
            && d'.registry == d.registry && d'.alive == d.alive && d'.nextNonce == d.nextNonce + 1
            && d'.spawned == d.spawned + {Shown(g, generation, capsule)}
            && d'.starting == if L.IntentIs(w.files, g) then d.starting + {Shown(g, generation, capsule)} else d.starting
  {
    assert forall h :: Waits(w', h) <==> Waits(w, h) || (h == g && L.IntentIs(w.files, g));
    hide Waits;
  }

  lemma NobodyWaits(w: L.World, generation: nat, capsule: Option<R.Fingerprint>)
    requires forall h :: !Waits(w, h)
    ensures R.StartingOf(DriverOf(w, generation, capsule), generation) == {}
  {
    hide Waits;
    assert DriverOf(w, generation, capsule).starting == {};
  }

  lemma SpawnLooks(w: L.World, id: nat, generation: nat, capsule: Option<R.Fingerprint>)
    requires Safe(w) && Pids(w) && id in w.callers && w.callers[id].Spawning?
    ensures var g := L.Guardian(w.nextPid, w.callers[id].nonce, w.callers[id].digest, w.callers[id].supersedes);
            Looks(w, L.Spawn(id), Spawns(Shown(g, generation, capsule), L.IntentIs(w.files, g)), generation, capsule)
  {
    var c := w.callers[id];
    var g := L.Guardian(w.nextPid, c.nonce, c.digest, c.supersedes);
    assert g !in w.stage;
    var w' := L.Do(w, L.Spawn(id));
    assert w'.stage == w.stage[g := L.Starting] && w'.files == w.files && w'.nextPid == w.nextPid + 1;
    assert DriverOf(w, generation, capsule).nextNonce == Shown(g, generation, capsule).nonce;
    hide L.Do, DriverOf, Waits;
    StageGrows(w, w', g, generation, capsule);
    if L.IntentIs(w.files, g) {
      SpawnVacancy(w, id, g);
      NobodyWaits(w, generation, capsule);
      RecordGone(w, generation, capsule);
    }
  }

  lemma RecordGone(w: L.World, generation: nat, capsule: Option<R.Fingerprint>)
    requires Pids(w) && (w.files.record.Some? ==> w.stage[w.files.record.value] != L.Watching)
    ensures var d := DriverOf(w, generation, capsule); !(generation in d.registry && d.registry[generation] in d.alive)
  {
  }

  lemma RegisterLooks(w: L.World, g: L.Guardian, generation: nat, capsule: Option<R.Fingerprint>)
    requires Safe(w) && Pids(w) && Waits(w, g)
    ensures Looks(w, L.Register(g), Registers(Shown(g, generation, capsule)), generation, capsule)
  {
    hide Links, RecordMatchesIntent, Registrations;
    var (d, w') := (DriverOf(w, generation, capsule), L.Do(w, L.Register(g)));
    var d' := DriverOf(w', generation, capsule);
    assert w'.stage == w.stage[g := L.Watching] && w'.files == w.files.(record := Some(g));
    hide L.Do, Safe;
    assert d'.spawned == d.spawned;
    assert Shown(g, generation, capsule) in d.starting;
    assert d'.starting == d.starting - {Shown(g, generation, capsule)};
    assert d'.alive == d.alive + {Shown(g, generation, capsule)};
  }

  lemma RefusalLooks(w: L.World, g: L.Guardian, generation: nat, capsule: Option<R.Fingerprint>)
    requires !Waits(w, g)
    ensures Looks(w, L.Register(g), Stays, generation, capsule)
  {
    var (d, w') := (DriverOf(w, generation, capsule), L.Do(w, L.Register(g)));
    var d' := DriverOf(w', generation, capsule);
    if w' != w {
      assert w'.stage == w.stage[g := L.Gone] && w'.files == w.files;
      hide L.Do;
      assert d'.spawned == d.spawned;
      assert d'.starting == d.starting;
      assert d'.alive == d.alive;
    }
  }

  lemma DeathLooks(w: L.World, g: L.Guardian, generation: nat, capsule: Option<R.Fingerprint>)
    requires Safe(w) && Pids(w)
    ensures Looks(w, L.Die(g), if g in w.stage then Dies(Shown(g, generation, capsule)) else Stays, generation, capsule)
  {
    hide Links, RecordMatchesIntent, Registrations;
    var (d, w') := (DriverOf(w, generation, capsule), L.Do(w, L.Die(g)));
    var d' := DriverOf(w', generation, capsule);
    if g in w.stage {
      assert d'.spawned == d.spawned;
      assert d'.starting == d.starting - {Shown(g, generation, capsule)};
      assert d'.alive == d.alive - {Shown(g, generation, capsule)};
    }
  }

  /** A step that leaves the guardians as they are: a record may go, and the intent with who waited for it. */
  lemma FilesLook(w: L.World, w': L.World, generation: nat, capsule: Option<R.Fingerprint>)
    requires w'.stage == w.stage && w'.nextPid == w.nextPid
    requires w'.files.record == w.files.record || w'.files.record.None?
    requires forall g :: Waits(w', g) <==> Waits(w, g)
    ensures var (d, d') := (DriverOf(w, generation, capsule), DriverOf(w', generation, capsule));
            d' == if w'.files.record == w.files.record then d
                  else R.Unregistered(d, Shown(w.files.record.value, generation, capsule))
  {
    var (d, d') := (DriverOf(w, generation, capsule), DriverOf(w', generation, capsule));
    hide Waits;
    assert d'.starting == d.starting;
    assert d'.alive == d.alive && d'.spawned == d.spawned;
  }

  lemma IntentLooks(w: L.World, w': L.World, g: L.Guardian, generation: nat, capsule: Option<R.Fingerprint>)
    requires Safe(w) && Pids(w) && Waits(w, g)
    requires w' == w.(files := w.files.(intent := None), callers := w'.callers)
    ensures DriverOf(w', generation, capsule) == R.Died(DriverOf(w, generation, capsule), Shown(g, generation, capsule))
  {
    hide Links, RecordMatchesIntent, Registrations;
    var (d, d') := (DriverOf(w, generation, capsule), DriverOf(w', generation, capsule));
    assert d'.starting == {};
    assert d.starting == {Shown(g, generation, capsule)};
    assert d.alive == d.alive - {Shown(g, generation, capsule)};
  }

  /** The other actions: what they leave of the files. */
  ghost predicate Quiet(w: L.World, w': L.World) {
    && w'.stage == w.stage && w'.nextPid == w.nextPid
    && (w'.files.record == w.files.record || w'.files.record.None?)
    && forall g :: Waits(w', g) <==> Waits(w, g)
  }

  lemma ReserveIsQuiet(w: L.World, a: L.Action)
    requires Safe(w) && a.Reserve?
    ensures Quiet(w, L.Do(w, a))
  {
    hide Links, Registrations, RecordMatchesIntent;
  }

  lemma TimeoutIsQuiet(w: L.World, a: L.Action)
    requires Safe(w) && a.AwaitTimeout?
    ensures Quiet(w, L.Do(w, a))
  {
    hide Links, Registrations, RecordMatchesIntent;
  }

  lemma OthersAreQuiet(w: L.World, a: L.Action)
    requires !a.Reserve? && !a.AwaitTimeout? && !a.Spawn? && !a.Register? && !a.Die?
    ensures var w' := L.Do(w, a);
            || Quiet(w, w')
            || (w'.files == w.files.(intent := None) && w' == w.(files := w'.files, callers := w'.callers) && exists g :: Waits(w, g))
  {
  }

  lemma QuietLooks(w: L.World, a: L.Action, generation: nat, capsule: Option<R.Fingerprint>)
    requires Quiet(w, L.Do(w, a))
    ensures exists m :: Looks(w, a, m, generation, capsule)
  {
    var w' := L.Do(w, a);
    hide L.Do;
    FilesLook(w, w', generation, capsule);
    hide DriverOf;
    if w'.files.record == w.files.record {
      assert Looks(w, a, Stays, generation, capsule);
    } else {
      assert Looks(w, a, Unregisters(Shown(w.files.record.value, generation, capsule)), generation, capsule);
    }
  }

  lemma StepLooks(w: L.World, a: L.Action, generation: nat, capsule: Option<R.Fingerprint>)
    requires Safe(w) && Pids(w)
    ensures exists m :: Looks(w, a, m, generation, capsule)
  {
    hide Looks, Waits, Safe, Pids, DriverOf, Quiet;
    match a
    case Reserve(_, _, _, _) =>
      ReserveIsQuiet(w, a);
      QuietLooks(w, a, generation, capsule);
    case AwaitTimeout(_, _) =>
      TimeoutIsQuiet(w, a);
      QuietLooks(w, a, generation, capsule);
    case Spawn(id) =>
      if id in w.callers && w.callers[id].Spawning? {
        SpawnLooks(w, id, generation, capsule);
      } else {
        NothingLooks(w, a, generation, capsule);
      }
    case Register(g) =>
      if Waits(w, g) {
        RegisterLooks(w, g, generation, capsule);
      } else {
        RefusalLooks(w, g, generation, capsule);
      }
    case Die(g) => DeathLooks(w, g, generation, capsule);
    case _ =>
      OthersAreQuiet(w, a);
      if Quiet(w, L.Do(w, a)) {
        QuietLooks(w, a, generation, capsule);
      } else {
        var g :| Waits(w, g);
        DroppedLooks(w, a, g, generation, capsule);
      }
  }

  lemma NothingLooks(w: L.World, a: L.Action, generation: nat, capsule: Option<R.Fingerprint>)
    requires L.Do(w, a) == w
    ensures Looks(w, a, Stays, generation, capsule)
  {
  }

  lemma DroppedLooks(w: L.World, a: L.Action, g: L.Guardian, generation: nat, capsule: Option<R.Fingerprint>)
    requires Safe(w) && Pids(w) && Waits(w, g)
    requires var w' := L.Do(w, a); w' == w.(files := w.files.(intent := None), callers := w'.callers)
    ensures Looks(w, a, Dies(Shown(g, generation, capsule)), generation, capsule)
  {
    hide L.Do, Waits, Safe, Pids, DriverOf;
    IntentLooks(w, L.Do(w, a), g, generation, capsule);
  }

  /** Every run of launches under one key, seen as a driver, is a sequence of possible moves. */
  lemma {:induction false} LaunchesAreMoves(actions: seq<L.Action>, generation: nat, capsule: Option<R.Fingerprint>)
    returns (moves: seq<Move>)
    ensures var d := R.Driver(map[], {}, {}, {}, 0);
            AllPossible(d, moves) && MovedAll(d, moves) == DriverOf(L.Run(L.Start, actions), generation, capsule)
    decreases |actions|
  {
    var d := R.Driver(map[], {}, {}, {}, 0);
    if actions == [] {
      moves := [];
      assert DriverOf(L.Start, generation, capsule) == d;
    } else {
      var n := |actions| - 1;
      var fewer := LaunchesAreMoves(actions[..n], generation, capsule);
      PidsHold(actions[..n]);
      var w := L.Run(L.Start, actions[..n]);
      hide L.Do, DriverOf, Safe, Pids;
      StepLooks(w, actions[n], generation, capsule);
      var m :| Looks(w, actions[n], m, generation, capsule);
      MovesPush(d, fewer, m);
      moves := fewer + [m];
    }
  }

  /**
    And so is the one effect the rotation sees: `start_fresh` drops a dead record, spawns beside
    nobody the one guardian of a fresh nonce, and what it returns is registered and alive.
   */
  lemma StartFreshIsMoves(d: R.Driver, generation: nat, capsule: Option<R.Fingerprint>, end: R.LaunchEnd)
    returns (moves: seq<Move>)
    requires forall k :: k in d.registry ==> d.registry[k].generation == k
    ensures var (after, launched) := R.StartFresh(d, generation, capsule, end);
            && AllPossible(d, moves) && MovedAll(d, moves) == after
            && (launched.Some? ==> generation in after.registry && after.registry[generation] == launched.value
                                   && launched.value in after.alive)
    ensures forall m :: m in moves && m.Spawns? ==> m.guardian == R.Guardian(generation, d.nextNonce, capsule)
  {
    hide MovedAll, AllPossible, R.StartFresh, R.StartingOf;
    if generation in d.registry && d.registry[generation] in d.alive {
      LiveIsReturned(d, generation, capsule, end);
      moves := [];
    } else {
      var dropped := DeadRecordGoes(d, generation);
      if R.StartingOf(d, generation) != {} {
        moves := WaitMoves(d, dropped, generation, capsule, end);
      } else {
        moves := SpawnMoves(d, dropped, generation, capsule, end);
        SpawnIsFresh(d, generation, capsule, end);
      }
    }
  }

  lemma LiveIsReturned(d: R.Driver, generation: nat, capsule: Option<R.Fingerprint>, end: R.LaunchEnd)
    requires generation in d.registry && d.registry[generation] in d.alive
    ensures R.StartFresh(d, generation, capsule, end) == (d, Some(d.registry[generation]))
    ensures AllPossible(d, []) && MovedAll(d, []) == d
  {
  }

  lemma SpawnIsFresh(d: R.Driver, generation: nat, capsule: Option<R.Fingerprint>, end: R.LaunchEnd)
    requires !(generation in d.registry && d.registry[generation] in d.alive) && R.StartingOf(d, generation) == {}
    ensures var g := R.Guardian(generation, d.nextNonce, capsule);
            var spawned := d.(registry := d.registry - {generation}, nextNonce := d.nextNonce + 1, spawned := d.spawned + {g});
            R.StartFresh(d, generation, capsule, end)
            == match end
               case Returns => (R.Registered(spawned, g), Some(g))
               case RaisesStillStarting => (spawned.(starting := d.starting + {g}), None)
               case RaisesGone => (spawned, None)
  {
  }

  lemma WaitMoves(d: R.Driver, moves: seq<Move>, generation: nat, capsule: Option<R.Fingerprint>, end: R.LaunchEnd)
    returns (more: seq<Move>)
    requires !(generation in d.registry && d.registry[generation] in d.alive) && R.StartingOf(d, generation) != {}
    requires AllPossible(d, moves) && MovedAll(d, moves) == d.(registry := d.registry - {generation})
    requires forall m :: m in moves ==> !m.Spawns?
    ensures var (after, launched) := R.StartFresh(d, generation, capsule, end);
            && AllPossible(d, more) && MovedAll(d, more) == after
            && (launched.Some? ==> generation in after.registry && after.registry[generation] == launched.value
                                   && launched.value in after.alive)
    ensures forall m :: m in more ==> !m.Spawns?
  {
    hide MovedAll, AllPossible;
    var launched := R.StartFresh(d, generation, capsule, end).1;
    more := moves;
    if launched.Some? {
      MovesPush(d, moves, Registers(launched.value));
      more := moves + [Registers(launched.value)];
    }
  }

  lemma SpawnMoves(d: R.Driver, moves: seq<Move>, generation: nat, capsule: Option<R.Fingerprint>, end: R.LaunchEnd)
    returns (more: seq<Move>)
    requires AllPossible(d, moves) && MovedAll(d, moves) == d.(registry := d.registry - {generation})
    requires R.StartingOf(d, generation) == {} && forall m :: m in moves ==> !m.Spawns?
    ensures var g := R.Guardian(generation, d.nextNonce, capsule);
            var spawned := d.(registry := d.registry - {generation}, nextNonce := d.nextNonce + 1, spawned := d.spawned + {g});
            && AllPossible(d, more)
            && MovedAll(d, more) == (match end
                                     case Returns => R.Registered(spawned, g)
                                     case RaisesStillStarting => spawned.(starting := d.starting + {g})
                                     case RaisesGone => spawned)
            && forall m :: m in more && m.Spawns? ==> m.guardian == g
  {
    hide MovedAll, AllPossible;
    var g := R.Guardian(generation, d.nextNonce, capsule);
    var spawn := Spawns(g, !end.RaisesGone?);
    NoneStarts(d, generation, g);
    assert R.StartingOf(MovedAll(d, moves), generation) == R.StartingOf(d, generation);
    hide R.StartingOf;
    MovesPush(d, moves, spawn);
    MovesPush(d, moves + [spawn], Registers(g));
    assert d.starting + {g} - {g} == d.starting - {g};
    more := if end.Returns? then moves + [spawn] + [Registers(g)] else moves + [spawn];
  }

  lemma NoneStarts(d: R.Driver, generation: nat, g: R.Guardian)
    requires R.StartingOf(d, generation) == {} && g.generation == generation
    ensures g !in d.starting
  {
    assert g in d.starting ==> g in R.StartingOf(d, generation);
  }

  lemma DeadRecordGoes(d: R.Driver, generation: nat) returns (moves: seq<Move>)
    requires generation in d.registry ==> d.registry[generation].generation == generation
    ensures MovedAll(d, moves) == d.(registry := d.registry - {generation}) && AllPossible(d, moves)
    ensures |moves| <= 1 && forall m :: m in moves ==> m.Unregisters?
  {
    if generation in d.registry {
      MovesPush(d, [], Unregisters(d.registry[generation]));
      moves := [] + [Unregisters(d.registry[generation])];
    } else {
      moves := [];
      assert d.registry - {generation} == d.registry;
    }
  }
}
