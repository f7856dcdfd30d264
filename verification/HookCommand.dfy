/**
  src/agent_session_harness/hooks/command.py in imperative form: a hook process of one managed
  runtime. Between two of its reads the supervisor may have written any state file, so every
  step relies only on what it reads under the lock.
 */
module HookCommands {
  import opened Options
  import opened Claims
  import opened Rotation
  import Handshake = StopRequests

  /** The managed environment: who runs, and what a successor was launched with. */
  datatype Managed = Managed(guardian: Guardian, pathSet: bool, fingerprint: Option<Fingerprint>, target: Option<nat>)

  datatype Kind = SessionStarted | TurnStarted | Stopped | OtherEvent

  datatype Response = Allow | BlockPrompt | AskForHandoff | AlreadyAsked | Abort

  /** What is appended to the lifecycle ledger. */
  datatype Line = Line(kind: Kind, turn: Turn) | FromStop(emitted: Handshake.Emitted)

  class HookCommand {
    const env: Managed
    // shared with the supervisor and with other hooks
    var stateFile: Snapshot
    var ackFile: Option<Ack>
    var capsuleFile: Option<Fingerprint>
    var ledger: seq<Line>
    var marker: Option<Handshake.Marker>
    /** The state files this process has read, and the last of them; the acknowledgements it wrote. */
    ghost var seen: seq<Snapshot>
    ghost var lastRead: Snapshot
    ghost var lastCapsule: Option<Fingerprint>
    ghost var written: seq<Ack>

    /** The environment of a launch names the runtime's own capsule. */
    predicate Valid() {
      env.guardian.capsule == env.fingerprint
    }

    constructor (env: Managed, stateFile: Snapshot)
      requires env.guardian.capsule == env.fingerprint
      ensures Valid() && this.env == env && this.stateFile == stateFile && ledger == []
    {
      this.env, this.stateFile := env, stateFile;
      ackFile, capsuleFile, ledger, marker := None, None, [], None;
      seen, lastRead, lastCapsule, written := [], stateFile, None, [];
    }

    predicate AckRequired() {
      env.pathSet || env.fingerprint.Some? || env.target.Some?
    }

    /** Anything the supervisor and other hooks may do to the shared files. */
    method OthersAct()
      modifies this`stateFile, this`ackFile, this`capsuleFile
    {
      stateFile := *;
      ackFile := *;
      capsuleFile := *;
    }

    method ReadSnapshot() returns (s: Snapshot)
      modifies this`stateFile, this`ackFile, this`capsuleFile, this`lastRead, this`seen
      ensures s == stateFile == lastRead && seen == old(seen) + [s]
    {
      OthersAct();
      s := stateFile;
      lastRead, seen := s, seen + [s];
    }

    /** `_validate_snapshot`: the exact generation and process. */
    predicate Matches(s: Snapshot) {
      s.generation == env.guardian.generation && s.process == Some(env.guardian)
    }

    /** Running under this very acknowledgement. */
    predicate Acknowledged(s: Snapshot, conversation: nat) {
      s.phase.Running? && Matches(s) && s.conversation == Some(conversation) && s.checkpoint == env.fingerprint
    }

    /** This process runs as the user's session: phase, generation, process, conversation and capsule. */
    ghost predicate Runs(s: Snapshot, conversation: nat) {
      && s.phase == Running
      && s.generation == env.guardian.generation
      && s.process == Some(env.guardian)
      && s.conversation == Some(conversation)
      && s.checkpoint == env.fingerprint
    }

    /** The supervisor awaits this process: phase, generation, process and capsule. */
    ghost predicate AwaitsMe(s: Snapshot) {
      && s.phase == AwaitingAck
      && s.generation == env.guardian.generation
      && s.process == Some(env.guardian)
      && s.checkpoint == env.fingerprint
    }

    /** The launch has not recorded its process yet. */
    ghost predicate NotYetLaunched(s: Snapshot) {
      s.phase == Launching && s.generation == env.guardian.generation && s.process == None
    }

    /** `write_acknowledgement`: one locked section; it is the protocol's step of writing the acknowledgement. */
    method WriteAcknowledgement(conversation: nat) returns (r: Result<()>)
      requires Valid() && env.fingerprint.Some?
      modifies this`stateFile, this`ackFile, this`capsuleFile, this`lastRead, this`seen, this`lastCapsule, this`written
      ensures r.Ok? ==> ackFile == Some(Ack(env.guardian.generation, env.fingerprint.value, conversation, env.guardian))
      ensures r.Ok? <==> AwaitsMe(lastRead) && lastCapsule == env.fingerprint && env.fingerprint.value.target == env.guardian.generation
      ensures lastRead == stateFile && lastCapsule == capsuleFile && seen == old(seen) + [lastRead]
      ensures written == old(written) + (if r.Ok? then [ackFile.value] else [])
      ensures r.Ok? ==> forall w: World :: w.disk == stateFile && env.guardian in w.driver.spawned ==>
                Environment(w, HookWritesAck(env.guardian, conversation)) == w.(ackFile := ackFile)
    {
      var s := ReadSnapshot();
      lastCapsule := capsuleFile;
      var fingerprint := env.fingerprint.value;
      if !s.phase.AwaitingAck? {
        return Raised(InvalidValue);
      }
      if env.guardian.generation != s.generation {
        return Raised(InvalidValue);
      }
      if s.checkpoint.None? || s.checkpoint.value != fingerprint {
        return Raised(InvalidValue);
      }
      if s.process != Some(env.guardian) {
        return Raised(InvalidValue);
      }
      if capsuleFile.None? || capsuleFile.value != fingerprint || capsuleFile.value.target != env.guardian.generation {
        return Raised(InvalidValue);
      }
      ackFile := Some(Ack(env.guardian.generation, fingerprint, conversation, env.guardian));
      written := written + [ackFile.value];
      return Ok(());
    }

    /**
      `_await_successor_snapshot`: waits exactly while the launch has not recorded its process, and
      gives up only for another generation or after all its polls.
     */
    method AwaitSuccessorSnapshot(polls: nat) returns (r: Result<Snapshot>)
      modifies this`stateFile, this`ackFile, this`capsuleFile, this`lastRead, this`seen
      ensures old(seen) < seen && lastRead == seen[|seen| - 1] && |seen| <= |old(seen)| + polls + 1
      ensures forall k :: |old(seen)| <= k < |seen| - 1 ==> NotYetLaunched(seen[k])
      ensures r.Ok? <==> lastRead.generation == env.guardian.generation && !NotYetLaunched(lastRead)
      ensures r.Ok? ==> r.value == lastRead
      ensures r.Raised? ==> lastRead.generation != env.guardian.generation || |seen| == |old(seen)| + polls + 1
    {
      var left: nat := polls;
      while true
        invariant left <= polls && |seen| == |old(seen)| + polls - left && old(seen) <= seen
        invariant forall k :: |old(seen)| <= k < |seen| ==> NotYetLaunched(seen[k])
        decreases left
      {
        var s := ReadSnapshot();
        if s.generation != env.guardian.generation {
          return Raised(RuntimeFault);
        }
        if !s.phase.Launching? || s.process.Some? {
          return Ok(s);
        }
        if left == 0 {
          return Raised(RuntimeFault);
        }
        left := left - 1;
      }
      return Raised(RuntimeFault);
    }

    /**
      `_await_durable_acknowledgement`: until the state file runs under it, or no longer waits for
      it, or all polls are spent.
     */
    method AwaitDurableAcknowledgement(conversation: nat, polls: nat) returns (r: Result<()>)
      modifies this`stateFile, this`ackFile, this`capsuleFile, this`lastRead, this`seen
      ensures old(seen) < seen && lastRead == seen[|seen| - 1]
      ensures forall k :: |old(seen)| <= k < |seen| - 1 ==> seen[k].phase == AwaitingAck
      ensures r.Ok? <==> Runs(lastRead, conversation)
      ensures r.Raised? ==> lastRead.phase != AwaitingAck || |seen| == |old(seen)| + polls + 1
    {
      var left: nat := polls;
      while true
        invariant left <= polls && |seen| == |old(seen)| + polls - left && old(seen) <= seen
        invariant forall k :: |old(seen)| <= k < |seen| ==> seen[k].phase == AwaitingAck
        decreases left
      {
        var s := ReadSnapshot();
        if Acknowledged(s, conversation) {
          return Ok(());
        }
        if !s.phase.AwaitingAck? || left == 0 {
          return Raised(RuntimeFault);
        }
        left := left - 1;
      }
      return Raised(RuntimeFault);
    }

    /** Everything a successor's environment has to carry, for this generation. */
    ghost predicate Complete() {
      env.pathSet && env.fingerprint.Some? && env.target == Some(env.guardian.generation)
    }

    /**
      `_acknowledge_verified_successor`: a successor's SessionStart succeeds only after a state
      file was read that runs this very process under its capsule and conversation. It writes an
      acknowledgement as soon as it finds itself awaited, and fails only without a complete
      environment, for a state file that neither awaits it nor is about to, for a capsule that
      cannot be verified, or after its polls.
     */
    method AcknowledgeVerifiedSuccessor(conversation: nat, polls: nat) returns (r: Result<()>)
      requires Valid()
      modifies this`stateFile, this`ackFile, this`capsuleFile, this`lastRead, this`seen, this`lastCapsule, this`written
      ensures old(seen) <= seen && old(written) <= written
      ensures !AckRequired() ==> r.Ok?
      ensures AckRequired() && r.Ok? ==> Complete() && Runs(lastRead, conversation) && old(seen) < seen
      ensures Complete() ==> old(seen) < seen && (Runs(seen[|old(seen)|], conversation) ==> r.Ok?)
      ensures Complete() && r.Raised? ==> !Runs(lastRead, conversation)
      ensures Complete() && r.Raised? ==>
                || |seen| > |old(seen)| + polls
                || (lastCapsule != env.fingerprint || env.fingerprint.value.target != env.guardian.generation)
                || (exists k :: |old(seen)| <= k < |seen| && !AwaitsMe(seen[k]) && !NotYetLaunched(seen[k]))
                || (exists k :: |old(seen)| < k < |seen| && AwaitsMe(seen[k - 1]) && !AwaitsMe(seen[k]))
                || (old(written) < written && lastRead.phase != AwaitingAck)
      ensures forall k :: |old(written)| <= k < |written| ==>
                env.fingerprint.Some? && written[k] == Ack(env.guardian.generation, env.fingerprint.value, conversation, env.guardian)
    {
      if !AckRequired() {
        return Ok(());
      }
      if !(env.pathSet && env.fingerprint.Some? && env.target.Some?) {
        return Raised(RuntimeFault);
      }
      var ready := AwaitSuccessorSnapshot(polls);
      ghost var at := |seen| - 1;
      if ready.Raised? {
        assert !AwaitsMe(seen[at]);
        return Raised(ready.reason);
      }
      var s := ready.value;
      assert seen[at] == s;
      if !Matches(s) {
        return Raised(RuntimeFault);
      }
      if env.target.value != env.guardian.generation || s.checkpoint != env.fingerprint {
        return Raised(RuntimeFault);
      }
      if s.phase.Running? && s.conversation == Some(conversation) {
        return Ok(());
      }
      if !s.phase.AwaitingAck? {
        return Raised(RuntimeFault);
      }
      var acknowledged := WriteAcknowledgement(conversation);
      if acknowledged.Raised? {
        assert AwaitsMe(seen[at]) && seen[at + 1] == lastRead;
        var refreshed := ReadSnapshot();
        if lastCapsule == env.fingerprint && env.fingerprint.value.target == env.guardian.generation {
          assert AwaitsMe(seen[at]) && !AwaitsMe(seen[at + 1]);
          assert exists k :: |old(seen)| < k < |seen| && AwaitsMe(seen[k - 1]) && !AwaitsMe(seen[k]) by {
            var k := at + 1;
            assert AwaitsMe(seen[k - 1]) && !AwaitsMe(seen[k]);
          }
        }
        if Acknowledged(refreshed, conversation) {
          return Ok(());
        }
        return Raised(acknowledged.reason);
      }
      r := AwaitDurableAcknowledgement(conversation, polls);
    }

    /** `_successor_dispatch_allowed`; a state file that cannot be read allows nothing. */
    method SuccessorDispatchAllowed(conversation: nat, readable: bool) returns (allowed: bool)
      requires Valid()
      modifies this`stateFile, this`ackFile, this`capsuleFile, this`lastRead, this`seen
      ensures allowed <==> readable && Runs(lastRead, conversation)
      ensures seen == old(seen) + [lastRead]
    {
      var s := ReadSnapshot();
      return readable && s.phase.Running? && Matches(s) && s.conversation == Some(conversation) && s.checkpoint == env.fingerprint;
    }

    /** What a hook of the model calls running is what the rotation protocol lets dispatch. */
    lemma RunsIsDispatch(s: Snapshot, conversation: nat)
      requires Valid()
      ensures Runs(s, conversation) <==> DispatchAllowed(s, env.guardian, conversation)
    {
    }

    /**
      `run_hook`. Outside a start and a Stop, an event is let through exactly when it reached the
      ledger, and the prompt of a successor is blocked exactly when no state file was read that
      runs this process under its capsule and conversation. A start that cannot be acknowledged
      is aborted.
    */
    method RunHook(kind: Kind, conversation: nat, polls: nat, readable: bool, appendFails: bool) returns (r: Result<Response>)
      requires Valid()
      modifies this
      ensures Valid() && old(ledger) <= ledger
      ensures !kind.SessionStarted? && !kind.Stopped? ==>
                && (r == Ok(Allow) <==> ledger == old(ledger) + [Line(kind, Turn(env.guardian, conversation))])
                && (r != Ok(Allow) <==> ledger == old(ledger))
                && marker == old(marker)
      ensures kind.TurnStarted? && AckRequired() ==>
                && seen == old(seen) + [lastRead]
                && (r == Ok(BlockPrompt) <==> !(readable && Runs(lastRead, conversation)))
                && (r == Ok(Allow) <==> readable && Runs(lastRead, conversation) && !appendFails)
      ensures kind.OtherEvent? || (kind.TurnStarted? && !AckRequired()) ==>
                r == if appendFails then Raised(RuntimeFault) else Ok(Allow)
      ensures kind.SessionStarted? ==> Started(old(seen), old(ledger), conversation, polls, appendFails, r)
      ensures kind.Stopped? ==> seen == old(seen) + [lastRead] && StopAnswered(lastRead, old(ledger), old(marker), r)
    {
      var line := Line(kind, Turn(env.guardian, conversation));
      if kind.SessionStarted? {
        r := StartSession(conversation, polls, appendFails);
        return;
      }
      if !kind.Stopped? {
        if kind.TurnStarted? && AckRequired() {
          var allowed := SuccessorDispatchAllowed(conversation, readable);
          if !allowed {
            return Ok(BlockPrompt);
          }
        }
        if appendFails {
          return Raised(RuntimeFault);
        }
        ledger := ledger + [line];
        return Ok(Allow);
      }
      r := HandleStop();
    }

    /** How a start ends: recorded, and for a successor allowed exactly once it runs, and aborted otherwise. */
    ghost predicate Started(before: seq<Snapshot>, lines: seq<Line>, conversation: nat, polls: nat, appendFails: bool, r: Result<Response>)
      reads this
    {
      && ledger == lines + (if appendFails then [] else [Line(SessionStarted, Turn(env.guardian, conversation))])
      && (appendFails ==> r == if AckRequired() then Ok(Abort) else Raised(RuntimeFault))
      && (!appendFails && !AckRequired() ==> r == Ok(Allow))
      && (!appendFails && AckRequired() ==>
            && before <= seen
            && (r == Ok(Allow) || r == Ok(Abort))
            && (r == Ok(Allow) ==> Complete() && Runs(lastRead, conversation))
            && (Complete() && before < seen && Runs(seen[|before|], conversation) ==> r == Ok(Allow))
            && (r == Ok(Abort) && Complete() ==> !Runs(lastRead, conversation) && before < seen))
    }

    method StartSession(conversation: nat, polls: nat, appendFails: bool) returns (r: Result<Response>)
      requires Valid()
      modifies this
      ensures Valid() && old(ledger) <= ledger
      ensures Started(old(seen), old(ledger), conversation, polls, appendFails, r)
    {
      if appendFails {
        return if AckRequired() then Ok(Abort) else Raised(RuntimeFault);
      }
      ledger := ledger + [Line(SessionStarted, Turn(env.guardian, conversation))];
      var acknowledged := AcknowledgeVerifiedSuccessor(conversation, polls);
      if acknowledged.Raised? {
        return if AckRequired() then Ok(Abort) else Raised(acknowledged.reason);
      }
      return Ok(Allow);
    }

    // -------------------------------------------------------------- Stop

    /** The handshake's view of the marker and of what Stops appended. */
    ghost function Emitted(): seq<Handshake.Emitted>
      reads this
    {
      EmittedIn(ledger)
    }

    static ghost function EmittedIn(lines: seq<Line>): seq<Handshake.Emitted> {
      if lines == [] then []
      else EmittedIn(lines[..|lines| - 1]) + if lines[|lines| - 1].FromStop? then [lines[|lines| - 1].emitted] else []
    }

    lemma EmittedPush(lines: seq<Line>, e: Handshake.Emitted)
      ensures EmittedIn(lines + [FromStop(e)]) == EmittedIn(lines) + [e]
    {
      assert (lines + [FromStop(e)])[..|lines|] == lines;
    }

    /** What the file this Stop read asks for, in the ledger, the marker and the answer. */
    ghost predicate StopAnswered(s: Snapshot, lines: seq<Line>, before: Option<Handshake.Marker>, r: Result<Response>)
      reads this
    {
      var generation := env.guardian.generation;
      var asked := before.Some? && before.value.generation == generation;
      if s.generation != generation || s.process != Some(env.guardian) then
        r.Raised? && ledger == lines && marker == before
      else if s.phase != Draining && s.phase != Checkpointing then
        r == Ok(Allow) && ledger == lines + [FromStop(Handshake.PlainIdle(generation))] && marker == before
      else if !asked then
        && r == Ok(AskForHandoff)
        && ledger == lines + [FromStop(Handshake.HandoffRequest(generation))]
        && marker == Some(Handshake.Marker(generation, false))
      else
        && r == Ok(AlreadyAsked)
        && ledger == lines + (if before.value.idleEmitted then [] else [FromStop(Handshake.RepeatedIdle(generation))])
        && marker == Some(Handshake.Marker(generation, true))
    }

    /**
      `_handle_stop`, under the transition lock: a Stop of another process is refused; otherwise
      it is the handshake's step for the phase read.
    */
    method HandleStop() returns (r: Result<Response>)
      requires Valid()
      modifies this
      ensures Valid() && old(ledger) <= ledger
      ensures seen == old(seen) + [lastRead] && StopAnswered(lastRead, old(ledger), old(marker), r)
      ensures r.Raised? <==> !Matches(lastRead)
      ensures r.Raised? ==> ledger == old(ledger) && marker == old(marker)
      ensures r.Ok? ==> forall w: Handshake.World ::
                w.generation == env.guardian.generation && w.marker == old(marker) && w.ledger == old(Emitted()) ==>
                  Handshake.Do(w, Handshake.Stop(lastRead.phase.Draining? || lastRead.phase.Checkpointing?)) == w.(marker := marker, ledger := Emitted())
      ensures r.Ok? ==> (r.value.AskForHandoff? <==>
                |Emitted()| > |old(Emitted())| && Emitted()[|old(Emitted())|] == Handshake.HandoffRequest(env.guardian.generation))
    {
      var s := ReadSnapshot();
      if !Matches(s) {
        return Raised(RuntimeFault);
      }
      var draining := s.phase.Draining? || s.phase.Checkpointing?;
      var verified := s.checkpoint.Some? && !(s.phase.Draining? || s.phase.Checkpointing?);
      if draining && !verified {
        var recorded := RecordStopRequest();
        return Ok(if recorded then AskForHandoff else AlreadyAsked);
      }
      EmittedPush(ledger, Handshake.PlainIdle(env.guardian.generation));
      ledger := ledger + [FromStop(Handshake.PlainIdle(env.guardian.generation))];
      return Ok(Allow);
    }

    /** `_record_stop_request`: true exactly when this Stop is the one that asks. */
    method RecordStopRequest() returns (recorded: bool)
      modifies this`ledger, this`marker
      ensures old(ledger) <= ledger
      ensures (old(Emitted()) + Handshake.Recorded(old(marker), env.guardian.generation).0, Handshake.Recorded(old(marker), env.guardian.generation).1)
           == (Emitted(), marker)
      ensures recorded <==> old(marker).None? || old(marker).value.generation != env.guardian.generation
      ensures var generation := env.guardian.generation;
              if recorded then
                && ledger == old(ledger) + [FromStop(Handshake.HandoffRequest(generation))]
                && marker == Some(Handshake.Marker(generation, false))
              else
                && ledger == old(ledger) + (if old(marker).value.idleEmitted then [] else [FromStop(Handshake.RepeatedIdle(generation))])
                && marker == Some(Handshake.Marker(generation, true))
    {
      var generation := env.guardian.generation;
      if marker.Some? && marker.value.generation == generation {
        if !marker.value.idleEmitted {
          EmittedPush(ledger, Handshake.RepeatedIdle(generation));
          ledger := ledger + [FromStop(Handshake.RepeatedIdle(generation))];
          marker := Some(marker.value.(idleEmitted := true));
        } else {
          assert Emitted() + [] == Emitted();
        }
        return false;
      }
      EmittedPush(ledger, Handshake.HandoffRequest(generation));
      ledger := ledger + [FromStop(Handshake.HandoffRequest(generation))];
      marker := Some(Handshake.Marker(generation, false));
      return true;
    }
  }
}
