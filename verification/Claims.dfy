/**
  Fenced ownership of one task, as the supervisor sees it through its coordinator
  adapter (src/agent_session_harness/coordinator.py).

  The coordinator library itself is not part of this model: its store is reduced to
  the lease it currently reports, plus counters from which claim ids and lease
  epochs are drawn. A claim by the owner of the active lease returns that lease; a
  claim against another owner's active lease is refused; any other claim draws a new
  id and a larger epoch.
 */
module Claims {
  import opened Options

  /** "chain:generation" for this chain, or some other session of the same task. */
  datatype Owner = Session(generation: nat) | Foreign(id: nat)

  datatype Claim = Claim(id: nat, epoch: nat, owner: Owner)

  datatype Status = Active | Rotated | ReleasedOtherwise | Lapsed

  datatype Lease = Lease(claim: Claim, status: Status)

  datatype Store = Store(current: Option<Lease>, nextId: nat, nextEpoch: nat)

  const EmptyStore := Store(None, 0, 1)

  ghost predicate ValidStore(s: Store) {
    s.current.Some? ==> s.current.value.claim.epoch < s.nextEpoch && s.current.value.claim.id < s.nextId
  }

  predicate IsCurrent(s: Store, handle: Claim) {
    && s.current.Some?
    && s.current.value.claim.id == handle.id
    && s.current.value.claim.epoch == handle.epoch
    && s.current.value.status == Active
  }

  predicate AlreadyRotated(s: Store, handle: Claim) {
    && s.current.Some?
    && s.current.value.claim.id == handle.id
    && s.current.value.claim.epoch == handle.epoch
    && s.current.value.status == Rotated
  }

  /** What the store answers to a claim, before anything is written. */
  function ClaimAnswer(s: Store, owner: Owner): Option<Claim> {
    if s.current.Some? && s.current.value.status == Active then
      if s.current.value.claim.owner == owner then Some(s.current.value.claim) else None
    else
      Some(Claim(s.nextId, s.nextEpoch, owner))
  }

  function AfterClaim(s: Store, owner: Owner): Store {
    if s.current.Some? && s.current.value.status == Active then s
    else Store(Some(Lease(Claim(s.nextId, s.nextEpoch, owner), Active)), s.nextId + 1, s.nextEpoch + 1)
  }

  predicate FenceAccepted(s: Store, handle: Claim) {
    AlreadyRotated(s, handle) || IsCurrent(s, handle)
  }

  function AfterFence(s: Store, handle: Claim): Store {
    if IsCurrent(s, handle) then s.(current := Some(s.current.value.(status := Rotated))) else s
  }

  /** Everything that can happen to the store, from this chain or from elsewhere. */
  datatype Operation =
    | DoClaim(owner: Owner)
    | DoFence(handle: Claim)
    | Expire
    | ReleaseElsewhere

  function Perform(s: Store, op: Operation): Store {
    match op
    case DoClaim(owner) => AfterClaim(s, owner)
    case DoFence(handle) => AfterFence(s, handle)
    case Expire =>
      if s.current.Some? && s.current.value.status == Active
      then s.(current := Some(s.current.value.(status := Lapsed))) else s
    case ReleaseElsewhere =>
      if s.current.Some? && s.current.value.status == Active
      then s.(current := Some(s.current.value.(status := ReleasedOtherwise))) else s
  }

  function PerformAll(s: Store, ops: seq<Operation>): Store
    decreases |ops|
  {
    if ops == [] then s else PerformAll(Perform(s, ops[0]), ops[1..])
  }

  /** A handle that can no longer act: its epoch was issued and is not the active one. */
  ghost predicate Retired(s: Store, handle: Claim) {
    ValidStore(s) && handle.epoch < s.nextEpoch && !IsCurrent(s, handle)
  }

  /** Once a handle has stopped being current, no later traffic revives it. */
  lemma {:induction false} RetiredForever(s: Store, handle: Claim, ops: seq<Operation>)
    requires Retired(s, handle)
    ensures Retired(PerformAll(s, ops), handle)
    decreases |ops|
  {
    if ops != [] {
      RetiredForever(Perform(s, ops[0]), handle, ops[1..]);
    }
  }

  /**
    Fencing is final and idempotent: after an accepted fence the handle never passes
    the ownership check again, whatever follows, and as long as nobody has claimed
    since, the fence can be repeated with the same answer and no further change.
   */
  lemma FenceIsFinal(s: Store, handle: Claim, ops: seq<Operation>)
    requires ValidStore(s) && handle.epoch < s.nextEpoch && FenceAccepted(s, handle)
    ensures AlreadyRotated(AfterFence(s, handle), handle)
    ensures FenceAccepted(AfterFence(s, handle), handle)
    ensures AfterFence(AfterFence(s, handle), handle) == AfterFence(s, handle)
    ensures !IsCurrent(PerformAll(AfterFence(s, handle), ops), handle)
  {
    RetiredForever(AfterFence(s, handle), handle, ops);
  }

  /**
    A crash after a claim may repeat it: the repetition returns the same handle, until
    the lease is lost. Every claim answered after that carries a larger epoch.
   */
  lemma {:induction false} ReclaimOrAdvance(s: Store, owner: Owner, ops: seq<Operation>)
    requires ValidStore(s) && ClaimAnswer(s, owner).Some?
    ensures var held := ClaimAnswer(s, owner).value;
            var later := PerformAll(AfterClaim(s, owner), ops);
            forall again :: ClaimAnswer(later, again).Some? ==>
              var answer := ClaimAnswer(later, again).value;
              held.epoch <= answer.epoch && (held.epoch == answer.epoch <==> IsCurrent(later, held) && again == owner)
  {
    var held := ClaimAnswer(s, owner).value;
    EpochsGrow(AfterClaim(s, owner), held, ops);
  }

  /** The reported lease is either the held one or has a strictly larger epoch. */
  ghost predicate AtOrAfter(s: Store, held: Claim) {
    && ValidStore(s)
    && held.epoch < s.nextEpoch
    && s.current.Some?
    && held.epoch <= s.current.value.claim.epoch
    && (held.epoch == s.current.value.claim.epoch ==> s.current.value.claim == held)
  }

  lemma {:induction false} EpochsGrow(s: Store, held: Claim, ops: seq<Operation>)
    requires AtOrAfter(s, held)
    ensures AtOrAfter(PerformAll(s, ops), held)
    decreases |ops|
  {
    if ops != [] {
      EpochsGrow(Perform(s, ops[0]), held, ops[1..]);
    }
  }

  /** The adapter object: it reads the reported lease, then asks the store to change it. */
  class CoordinatorAdapter {
    var store: Store

    constructor ()
      ensures store == EmptyStore
    {
      store := EmptyStore;
    }

    method ClaimTask(owner: Owner) returns (r: Result<Claim>)
      modifies this
      ensures store == AfterClaim(old(store), owner)
      ensures r == match ClaimAnswer(old(store), owner)
                   case Some(claim) => Ok(claim)
                   case None => Raised(Conflict)
      ensures var held := old(store).current;
              if held.Some? && held.value.status == Active then
                store == old(store) && r == if held.value.claim.owner == owner then Ok(held.value.claim) else Raised(Conflict)
              else
                && r.Ok? && r.value.owner == owner && r.value.epoch == old(store).nextEpoch
                && store.current == Some(Lease(r.value, Active)) && store.nextEpoch > r.value.epoch
    {
      if store.current.Some? && store.current.value.status == Active {
        if store.current.value.claim.owner == owner {
          return Ok(store.current.value.claim);
        }
        return Raised(Conflict);
      }
      var claim := Claim(store.nextId, store.nextEpoch, owner);
      store := Store(Some(Lease(claim, Active)), store.nextId + 1, store.nextEpoch + 1);
      return Ok(claim);
    }

    method AssertCurrent(handle: Claim) returns (r: Result<()>)
      ensures r == if IsCurrent(store, handle) then Ok(()) else Raised(StaleOwner)
      ensures r.Ok? <==> && store.current.Some? && store.current.value.status == Active
                         && store.current.value.claim.id == handle.id && store.current.value.claim.epoch == handle.epoch
    {
      match store.current {
        case None => return Raised(StaleOwner);
        case Some(lease) =>
          if lease.claim.id != handle.id || lease.claim.epoch != handle.epoch || lease.status != Active {
            return Raised(StaleOwner);
          }
          return Ok(());
      }
    }

    method Heartbeat(handle: Claim) returns (r: Result<Claim>)
      ensures r == if IsCurrent(store, handle) then Ok(handle) else Raised(StaleOwner)
      ensures r.Ok? <==> && store.current.Some? && store.current.value.status == Active
                         && store.current.value.claim.id == handle.id && store.current.value.claim.epoch == handle.epoch
    {
      var current := AssertCurrent(handle);
      if current.Raised? {
        return Raised(current.reason);
      }
      return Ok(handle);
    }

    method Fence(handle: Claim) returns (r: Result<()>)
      modifies this
      ensures store == AfterFence(old(store), handle)
      ensures r == if FenceAccepted(old(store), handle) then Ok(()) else Raised(StaleOwner)
      ensures var held := old(store).current;
              var own := held.Some? && held.value.claim.id == handle.id && held.value.claim.epoch == handle.epoch;
              && (r.Ok? <==> own && (held.value.status == Active || held.value.status == Rotated))
              && store == if own && held.value.status == Active
                          then old(store).(current := Some(Lease(held.value.claim, Rotated))) else old(store)
    {
      if store.current.Some? {
        var lease := store.current.value;
        if lease.claim.id == handle.id && lease.claim.epoch == handle.epoch && lease.status == Rotated {
          return Ok(());
        }
      }
      var current := AssertCurrent(handle);
      if current.Raised? {
        return Raised(current.reason);
      }
      store := store.(current := Some(store.current.value.(status := Rotated)));
      return Ok(());
    }
  }
}
