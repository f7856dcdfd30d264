/**
  Draining is part of the rotation protocol: every step of module Drain is a step of module
  Rotation, so what is proved of all rotation runs holds of runs that drain as the code does.
 */
module DrainInRotation {
  import opened Options
  import D = Drain
  import R = Rotation

  function PhaseOf(p: D.Phase): R.Phase {
    match p
    case Running => R.Running
    case Warned => R.Warning
    case Draining => R.Draining
    case Checkpointing => R.Checkpointing
  }

  /** Conversations are named by strings in one module and numbered in the other. */
  function Numbered(number: string -> nat, conversation: Option<string>): Option<nat> {
    if conversation.Some? then Some(number(conversation.value)) else None
  }

  ghost predicate Shows(w: R.World, h: D.Held, number: string -> nat) {
    && w.pending.Idle? && w.disk.generation == h.generation
    && w.disk.phase == PhaseOf(h.phase)
    && w.disk.conversation == Numbered(number, h.conversation)
  }

  /** The rotation step that shows the draining state `h` at the new one. */
  function StepTo(h: D.Held, number: string -> nat): R.Action {
    if h.phase.Checkpointing? then R.EnterCheckpointing else R.Observe(PhaseOf(h.phase), Numbered(number, h.conversation))
  }

  /** From one of the three draining phases to another, with any conversation. */
  lemma AnyObservation(w: R.World, h: D.Held, h': D.Held, number: string -> nat)
    requires Shows(w, h, number) && D.Active(h.phase) && D.Active(h'.phase) && h'.generation == h.generation
    requires h.conversation.Some? ==> h'.conversation.Some?
    ensures Shows(R.Do(w, StepTo(h', number)), h', number)
  {
  }

  lemma SampleShape(h: D.Held, sample: D.Sample, now: int, c: D.Config)
    requires D.Active(h.phase)
    ensures var h' := D.Observed(h, sample, now, c);
            && D.Active(h'.phase) && h'.generation == h.generation && (h.conversation.Some? ==> h'.conversation.Some?)
  {
  }

  lemma SampleIsAStep(w: R.World, h: D.Held, number: string -> nat, sample: D.Sample, now: int, c: D.Config)
    requires Shows(w, h, number) && D.Active(h.phase)
    ensures var h' := D.Observed(h, sample, now, c);
            Shows(R.Do(w, StepTo(h', number)), h', number)
  {
    hide R.Do, Shows, D.Observed;
    SampleShape(h, sample, now, c);
    AnyObservation(w, h, D.Observed(h, sample, now, c), number);
  }

  lemma ReleaseShape(h: D.Held, v: D.View, now: int)
    requires D.Active(h.phase)
    ensures var h' := D.Released(h, v, now);
            && D.Active(h'.phase) && h'.generation == h.generation && h'.conversation == h.conversation
  {
    hide D.Remembered, D.ManagedIn;
  }

  lemma ReleaseIsAStep(w: R.World, h: D.Held, number: string -> nat, v: D.View, now: int)
    requires Shows(w, h, number) && D.Active(h.phase)
    ensures var h' := D.Released(h, v, now);
            Shows(R.Do(w, StepTo(h', number)), h', number)
  {
    hide R.Do, Shows, D.Released;
    ReleaseShape(h, v, now);
    AnyObservation(w, h, D.Released(h, v, now), number);
  }

  lemma EntryIsAStep(w: R.World, h: D.Held, number: string -> nat, v: D.View, c: D.Config)
    requires Shows(w, h, number) && D.MayCheckpoint(h, v, c)
    ensures var h' := h.(phase := D.Checkpointing);
            Shows(R.Do(w, StepTo(h', number)), h', number)
  {
    hide D.ConsentMissingOrStale;
  }

  /**
    Every run of one generation's draining is a run of the rotation protocol that ends in a
    state showing the same phase and conversation.
   */
  lemma {:induction false} DrainingIsRotating(w: R.World, start: D.World, actions: seq<D.Action>, number: string -> nat)
    returns (steps: seq<R.Action>)
    requires Shows(w, start.held, number)
    ensures Shows(R.Run(w, steps), D.Run(start, actions).held, number)
    decreases |actions|
  {
    if actions == [] {
      steps := [];
    } else {
      var n := |actions| - 1;
      var fewer := DrainingIsRotating(w, start, actions[..n], number);
      var at := D.Run(start, actions[..n]);
      var next := D.Do(at, actions[n]);
      hide R.Run, R.Do, D.Run, Shows;
      if next.held == at.held {
        steps := fewer;
      } else {
        OneStep(R.Run(w, fewer), at, actions[n], number);
        steps := fewer + [StepTo(next.held, number)];
        R.RunAppend(w, fewer, StepTo(next.held, number));
      }
      RunUnfold(start, actions);
    }
  }

  lemma RunUnfold(start: D.World, actions: seq<D.Action>)
    requires actions != []
    ensures D.Run(start, actions) == D.Do(D.Run(start, actions[..|actions| - 1]), actions[|actions| - 1])
  {
  }

  lemma OneStep(w: R.World, at: D.World, a: D.Action, number: string -> nat)
    requires Shows(w, at.held, number) && D.Do(at, a).held != at.held
    ensures var held := D.Do(at, a).held; Shows(R.Do(w, StepTo(held, number)), held, number)
  {
    hide R.Do, Shows, D.Observed, D.Released, D.MayCheckpoint, D.ReadView, D.NewCompaction, D.LatestManaged;
    match a
    case Append(_) => assert false;
    case Observe(sample, now) => SampleIsAStep(w, at.held, number, sample, now, at.config);
    case Release(upto, now) =>
      ReleaseIsAStep(w, at.held, number, D.ReadView(at.ledger, upto, [], now, 0, D.ProbeQuiescent), now);
    case Enter(upto, warnings, now, staleAfter, probe) =>
      EntryIsAStep(w, at.held, number, D.ReadView(at.ledger, upto, warnings, now, staleAfter, probe), at.config);
  }
}
