/**
 One grant as the code has it: `run` takes its audit id, passes or fails the gate
 under the lock, re-checks for cancellation outside it, records a start, executes
 and records an end; `Close` sets its flag under the lock and cancels outside it.
 Between any two lock sections other commands and Close itself may run. The
 methods are proved to take only steps of the gate machine.
 */
module GrantGate {
  import opened Common
  import opened GateMachine
  import opened GateSafety

  class Grant {
    const maxInFlight: nat
    var closed: bool
    var cancelled: bool       // the context's state
    var count: int
    var inFlight: int
    var seqNo: nat            // the last audit id handed out

    // the other commands, the clock, and the events delivered so far
    var world: State
    ghost var acts: seq<Action>

    ghost predicate Running()
      reads this
    {
      CanRun(Fresh(maxInFlight), acts) && world == Run(Fresh(maxInFlight), acts)
    }

    ghost predicate Valid()
      reads this
    {
      && Running()
      && closed == world.closed && cancelled == world.cancelled
      && count == world.count && inFlight == world.inFlight && seqNo == |world.runs|
    }

    /** Command me has its own phase to itself; a closed grant stays closed. */
    twostate predicate Undisturbed(me: nat)
      reads this
    {
      && old(acts) <= acts && |old(world).runs| <= |world.runs| && old(world).events <= world.events
      && (me < |old(world).runs| ==> world.runs[me] == old(world).runs[me])
      && (me < |old(world).runs| ==> EventsOf(me + 1, world.events) == EventsOf(me + 1, old(world).events))
      && (old(closed) ==> closed) && (old(cancelled) ==> cancelled) && (old(world).expired ==> world.expired)
    }

    constructor (maxInFlight: nat)
      ensures Valid() && world == Fresh(maxInFlight) && this.maxInFlight == maxInFlight
    {
      this.maxInFlight := maxInFlight;
      closed, cancelled, count, inFlight, seqNo := false, false, 0, 0, 0;
      world, acts := Fresh(maxInFlight), [];
    }

    method Take(a: Action)
      requires Running() && Enabled(world, a)
      modifies this`world, this`acts
      ensures Running() && world == Step(old(world), a) && acts == old(acts) + [a]
    {
      RunExtend(Fresh(maxInFlight), acts, a);
      world, acts := Step(world, a), acts + [a];
    }

    /** Some step of another command, of the clock or of Close. */
    method OtherStep(me: nat, a: Action)
      requires Valid() && Enabled(world, a) && !IsStepOf(a, me)
      modifies this
      ensures Valid() && Undisturbed(me)
    {
      StepMoves(world, a);
      StepEvents(world, a);
      if a.Record? {
        EventsOfExtended(me + 1, world.events, EventOf(a.run, world.runs[a.run]));
      }
      Take(a);
      closed, cancelled, count, inFlight, seqNo :=
        world.closed, world.cancelled, world.count, world.inFlight, |world.runs|;
    }

    /** The mutex is free: any number of such steps. */
    method Unlocked(me: nat)
      requires Valid()
      modifies this
      ensures Valid() && Undisturbed(me)
    {
      var n: int := *;
      for i := 0 to if n < 0 then 0 else n
        invariant Valid() && Undisturbed(me)
      {
        var a: Action := *;
        if Enabled(world, a) && !IsStepOf(a, me) {
          OtherStep(me, a);
        }
      }
    }

    /** Delivers the audit event that is due, outside the lock. */
    method Emit(me: nat)
      requires Valid() && me < |world.runs| && MustRecord(world.runs[me])
      modifies this
      ensures Valid() && old(acts) <= acts && |old(world).runs| <= |world.runs|
      ensures world.runs[me] == AfterRecord(old(world).runs[me])
      ensures EventsOf(me + 1, world.events) ==
                EventsOf(me + 1, old(world).events) + [EventOf(me, old(world).runs[me])]
      ensures (old(closed) ==> closed) && (old(cancelled) ==> cancelled) && (old(world).expired ==> world.expired)
    {
      Unlocked(me);
      EventsOfExtended(me + 1, world.events, EventOf(me, world.runs[me]));
      Take(Record(me));
      Unlocked(me);
    }

    /** The first lock section: turned away for a reason, or counted in. */
    method EnterGate(me: nat) returns (refused: Option<Why>)
      requires Valid() && me < |world.runs| && world.runs[me].Numbered?
      modifies this
      ensures Valid() && old(acts) <= acts && |old(world).runs| == |world.runs|
      ensures world.events == old(world).events
      ensures world.runs[me] == if refused.Some? then Turned(refused.value) else Admitted
      ensures closed == old(closed) && cancelled == old(cancelled) && world.expired == old(world).expired
      ensures refused == Some(GrantRevoked) <==> closed
      ensures refused == Some(GrantExpired) <==> !closed && world.expired
      ensures refused == Some(TooMany) <==>
                !closed && !world.expired && CountIf(InGate, old(world).runs) == maxInFlight
      ensures refused == None <==> !closed && !world.expired && CountIf(InGate, old(world).runs) < maxInFlight
    {
      RunKeepsInv(maxInFlight, acts);
      refused := if closed then Some(GrantRevoked)
                 else if world.expired then Some(GrantExpired)
                 else if inFlight >= maxInFlight then Some(TooMany)
                 else None;
      Take(Gate(me));
      if refused.None? {
        inFlight := inFlight + 1;
        count := count + 1;
      }
    }

    /** Takes back the count of a command that turned out not to start. */
    method Uncount(me: nat)
      requires Valid() && me < |world.runs| && world.runs[me].Unstarted?
      modifies this
      ensures Valid() && old(acts) <= acts && |old(world).runs| == |world.runs|
      ensures world.events == old(world).events && world.runs[me] == RolledBack
      ensures closed == old(closed) && cancelled == old(cancelled)
    {
      Take(RollBack(me));
      count := count - 1;
    }

    /** The deferred lock section. */
    method LeaveGate(me: nat)
      requires Valid() && me < |world.runs| && world.runs[me].Leaving?
      modifies this
      ensures Valid() && old(acts) <= acts && |old(world).runs| == |world.runs|
      ensures world.events == old(world).events && world.runs[me] == Gone(true, old(world).runs[me].ran)
      ensures closed == old(closed) && cancelled == old(cancelled)
    {
      Take(Leave(me));
      inFlight := inFlight - 1;
    }

    /** Looks at the context once more before the command is dispatched. */
    method RecheckContext(me: nat) returns (dead: bool)
      requires Valid() && me < |world.runs| && world.runs[me].Admitted?
      modifies this
      ensures Valid() && old(acts) <= acts && |old(world).runs| == |world.runs|
      ensures world.events == old(world).events && world.runs[me] == if dead then Unstarted else Starting
      ensures dead == cancelled == old(cancelled) && (cancelled ==> closed)
    {
      RunKeepsInv(maxInFlight, acts);
      dead := cancelled;
      Take(Recheck(me));
    }

    /** A new command takes its audit id. */
    method TakeNumber() returns (id: nat)
      requires Valid()
      modifies this
      ensures Valid() && old(acts) <= acts && |world.runs| == |old(world).runs| + 1 == id
      ensures world.runs[id - 1].Numbered? && EventsOf(id, world.events) == [] && closed == old(closed)
      ensures world.expired == old(world).expired
    {
      RunKeepsInv(maxInFlight, acts);
      NoEventsYet(|world.runs| + 1, world.events);
      Take(Arrive);
      seqNo := seqNo + 1;
      id := seqNo;
    }

    /**
     Executes one command. It is either refused, which leaves exactly one refusal
     in the audit trail of its id, or run, which leaves exactly its start and its
     end with the code that was returned.
     */
    method RunCommand() returns (id: nat, refused: Option<Why>, code: int)
      requires Valid()
      modifies this
      ensures Valid() && old(acts) <= acts
      ensures id == |old(world).runs| + 1 <= |world.runs|
      ensures world.runs[id - 1].Gone?
      ensures EventsOf(id, world.events) ==
                if refused.Some? then [Refused(id, refused.value)] else [Started(id), Ended(id, code)]
      ensures old(closed) ==> refused == Some(GrantRevoked)
      ensures old(world).expired ==> refused == Some(GrantExpired) || (refused == Some(GrantRevoked) && closed)
      ensures refused == Some(GrantRevoked) ==> closed
      ensures refused == Some(GrantExpired) ==> world.expired
    {
      id := TakeNumber();
      refused, code := RunNumbered(id - 1);
    }

    method RunNumbered(me: nat) returns (refused: Option<Why>, code: int)
      requires Valid() && me < |world.runs| && world.runs[me].Numbered? && EventsOf(me + 1, world.events) == []
      modifies this
      ensures Valid() && old(acts) <= acts && |old(world).runs| <= |world.runs|
      ensures world.runs[me].Gone?
      ensures EventsOf(me + 1, world.events) ==
                if refused.Some? then [Refused(me + 1, refused.value)] else [Started(me + 1), Ended(me + 1, code)]
      ensures old(closed) ==> refused == Some(GrantRevoked)
      ensures old(world).expired ==> refused == Some(GrantExpired) || (refused == Some(GrantRevoked) && closed)
      ensures refused == Some(GrantRevoked) ==> closed
      ensures refused == Some(GrantExpired) ==> world.expired
    {
      Unlocked(me);
      code := 0;
      refused := EnterGate(me);
      if refused.Some? {
        Emit(me);
      } else {
        refused, code := RunAdmitted(me);
      }
    }

    /** The part behind the gate. */
    method RunAdmitted(me: nat) returns (refused: Option<Why>, code: int)
      requires Valid() && me < |world.runs| && world.runs[me].Admitted? && EventsOf(me + 1, world.events) == []
      modifies this
      ensures Valid() && old(acts) <= acts && |old(world).runs| <= |world.runs|
      ensures world.runs[me].Gone?
      ensures EventsOf(me + 1, world.events) ==
                if refused.Some? then [Refused(me + 1, refused.value)] else [Started(me + 1), Ended(me + 1, code)]
      ensures refused.Some? ==> refused == Some(GrantRevoked) && closed && cancelled
      ensures old(cancelled) ==> refused.Some?
    {
      hide EventsOf, Step, Enabled, CanRun, Run;
      Unlocked(me);
      var dead := RecheckContext(me);
      code := 0;
      if dead {
        refused := Some(GrantRevoked);
        RollBackAndRefuse(me);
      } else {
        refused := None;
        code := RecordAndExec(me);
      }
      LeaveGate(me);
    }

    /** The context was cancelled in the meantime: the command is taken out of the count and refused. */
    method RollBackAndRefuse(me: nat)
      requires Valid() && me < |world.runs| && world.runs[me].Unstarted?
      modifies this
      ensures Valid() && old(acts) <= acts && |old(world).runs| <= |world.runs|
      ensures world.runs[me] == Leaving(false)
      ensures EventsOf(me + 1, world.events) == EventsOf(me + 1, old(world).events) + [Refused(me + 1, GrantRevoked)]
      ensures (old(closed) ==> closed) && (old(cancelled) ==> cancelled)
    {
      Unlocked(me);
      Uncount(me);
      Emit(me);
    }

    /** Start event, the command itself, end event. */
    method RecordAndExec(me: nat) returns (code: int)
      requires Valid() && me < |world.runs| && world.runs[me].Starting?
      modifies this
      ensures Valid() && old(acts) <= acts && |old(world).runs| <= |world.runs|
      ensures world.runs[me] == Leaving(true)
      ensures EventsOf(me + 1, world.events) ==
                EventsOf(me + 1, old(world).events) + [Started(me + 1)] + [Ended(me + 1, code)]
    {
      Emit(me);
      code := Exec(me);
      Emit(me);
    }

    /** Hands the command and the grant's context to the session's executor. */
    method Exec(me: nat) returns (code: int)
      requires Valid() && me < |world.runs| && world.runs[me].Dispatching?
      modifies this
      ensures Valid() && MovedSilently(me)
      ensures world.runs[me].Executed? && world.runs[me].code == code
    {
      Unlocked(me);
      Take(Dispatch(me));
      Unlocked(me);
      code := *;
      Take(Return(me, code));
    }

    /** As Undisturbed, but for a command that moves on without recording anything. */
    twostate predicate MovedSilently(me: nat)
      reads this
    {
      && old(acts) <= acts && |old(world).runs| <= |world.runs|
      && me < |old(world).runs| && EventsOf(me + 1, world.events) == EventsOf(me + 1, old(world).events)
    }

    /**
     Revokes the grant. The caller that closes it returns with the context
     cancelled; a second caller returns at once and has done nothing, see
     GateSafety.LateStartIff and LateStart below.
     */
    method Close()
      requires Valid()
      modifies this
      ensures Valid() && old(acts) <= acts && closed
      ensures !old(closed) ==> cancelled
      ensures old(closed) ==> unchanged(this)
    {
      // lock
      if closed {
        return;
      }
      closed := true;
      Take(SetClosed);
      // unlock
      Unlocked(seqNo);
      cancelled := true;
      Take(Cancel);
    }
  }

  /** A grant with one command past its gate, inside a Close that has set its flag and not yet cancelled. */
  method WithinClose(maxInFlight: nat) returns (g: Grant)
    requires maxInFlight > 0
    ensures fresh(g) && g.Valid() && g.maxInFlight == maxInFlight && g.acts == AfterSecondClose
    ensures g.world == State(maxInFlight, true, false, false, 1, 1, [Admitted], [])
  {
    g := new Grant(maxInFlight);
    g.Take(Arrive);
    assert g.world.runs == [Numbered];
    g.Take(Gate(0));
    assert g.world.runs == [Admitted];
    g.Take(SetClosed);
    g.seqNo, g.count, g.inFlight, g.closed := 1, 1, 1, true;
  }

  /**
   The run of GateSafety.CommandStartsAfterSecondClose with its second Close as the
   call it is: it returns, and the command that is past the gate starts after that.
   */
  method LateStart(maxInFlight: nat) returns (g: Grant)
    requires maxInFlight > 0
    ensures fresh(g) && g.Running() && g.acts == AfterSecondClose + LateSteps
    ensures g.closed && !g.cancelled && g.world.runs == [Executing(false)]
  {
    g := WithinClose(maxInFlight);
    g.Close();
    g.Take(Recheck(0));
    assert g.world.runs == [Starting];
    g.Take(Record(0));
    assert g.world.runs == [Dispatching];
    g.Take(Dispatch(0));
  }
}
