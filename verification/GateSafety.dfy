/** What every interleaving of commands, expiry and Close keeps on one grant. */
module GateSafety {
  import opened Common
  import opened GateMachine

  predicate HasStarted(p: Phase) {
    p.Dispatching? || p.Executing? || p.Executed? || (p.Leaving? && p.ran) || (p.Gone? && p.ran)
  }

  predicate HasEnded(p: Phase) { (p.Leaving? && p.ran) || (p.Gone? && p.ran) }

  predicate HasBeenRefused(p: Phase) { (p.Leaving? && !p.ran) || (p.Gone? && !p.ran) }

  predicate IsStart(e: Event) { e.Started? }
  predicate IsEnd(e: Event) { e.Ended? }
  predicate IsRefusal(e: Event) { e.Refused? }

  ghost predicate EventsTally(s: State) {
    && CountIf(IsStart, s.events) == CountIf(HasStarted, s.runs)
    && CountIf(IsEnd, s.events) == CountIf(HasEnded, s.runs)
    && CountIf(IsRefusal, s.events) == CountIf(HasBeenRefused, s.runs)
  }

  /** Recording an event of the kind, and nothing else, moves a run into the phases that have it. */
  ghost predicate Tracks(s: State, a: Action, isE: Event -> bool, hasE: Phase -> bool)
    requires Enabled(s, a)
  {
    !hasE(Numbered) &&
    (OfRun(a) && a.run < |Step(s, a).runs| ==>
       var p, p' := s.runs[a.run], Step(s, a).runs[a.run];
       if a.Record? && isE(EventOf(a.run, p)) then !hasE(p) && hasE(p') else hasE(p) == hasE(p'))
  }

  lemma StepTallies(s: State, a: Action, isE: Event -> bool, hasE: Phase -> bool)
    requires Enabled(s, a) && Tracks(s, a, isE, hasE) && CountIf(isE, s.events) == CountIf(hasE, s.runs)
    ensures CountIf(isE, Step(s, a).events) == CountIf(hasE, Step(s, a).runs)
  {
    StepMoves(s, a);
    StepEvents(s, a);
    CountMoves(hasE, s, a);
    if a.Record? {
      CountAppend(isE, s.events, EventOf(a.run, s.runs[a.run]));
    }
  }

  lemma EventsTrackPhases(s: State, a: Action)
    requires Enabled(s, a)
    ensures Tracks(s, a, IsStart, HasStarted) && Tracks(s, a, IsEnd, HasEnded) && Tracks(s, a, IsRefusal, HasBeenRefused)
  {
  }

  lemma {:induction false} RunTallies(max: nat, acts: seq<Action>)
    requires CanRun(Fresh(max), acts)
    ensures EventsTally(Run(Fresh(max), acts))
    decreases |acts|
  {
    if acts != [] {
      var before := acts[..|acts| - 1];
      RunTallies(max, before);
      var s := Run(Fresh(max), before);
      EventsTrackPhases(s, Last(acts));
      StepTallies(s, Last(acts), IsStart, HasStarted);
      StepTallies(s, Last(acts), IsEnd, HasEnded);
      StepTallies(s, Last(acts), IsRefusal, HasBeenRefused);
    }
  }

  lemma {:induction false} CountSame<T>(f: T -> bool, g: T -> bool, s: seq<T>)
    requires forall x | x in s :: f(x) == g(x)
    ensures CountIf(f, s) == CountIf(g, s)
  {
    if s != [] {
      CountSame(f, g, s[..|s| - 1]);
    }
  }

  lemma {:induction false} CountSplit<T>(f: T -> bool, g: T -> bool, s: seq<T>)
    requires forall x | x in s :: f(x) != g(x)
    ensures CountIf(f, s) + CountIf(g, s) == |s|
  {
    if s != [] {
      CountSplit(f, g, s[..|s| - 1]);
    }
  }

  lemma {:induction false} CountNone<T>(f: T -> bool, s: seq<T>)
    requires forall x | x in s :: !f(x)
    ensures CountIf(f, s) == 0
  {
    if s != [] {
      CountNone(f, s[..|s| - 1]);
    }
  }

  predicate Quiescent(s: State) {
    forall p | p in s.runs :: p.Gone?
  }

  /** The in-flight count is the number of commands in the gate, and the ceiling holds at every moment. */
  lemma InFlightIsExact(max: nat, acts: seq<Action>)
    requires CanRun(Fresh(max), acts)
    ensures var s := Run(Fresh(max), acts);
            s.inFlight == CountIf(InGate, s.runs) <= max
  {
    RunKeepsInv(max, acts);
  }

  /**
   Once every command has left: nothing is in flight, Count is the number of
   commands that started, every start has an end, and every id that was handed out
   is either a start or a refusal.
   */
  lemma AccountsBalance(max: nat, acts: seq<Action>)
    requires CanRun(Fresh(max), acts) && Quiescent(Run(Fresh(max), acts))
    ensures var s := Run(Fresh(max), acts);
            && s.inFlight == 0
            && s.count == CountIf(IsStart, s.events) == CountIf(IsEnd, s.events)
            && |s.runs| == CountIf(IsStart, s.events) + CountIf(IsRefusal, s.events)
  {
    RunKeepsInv(max, acts);
    RunTallies(max, acts);
    var s := Run(Fresh(max), acts);
    CountNone(InGate, s.runs);
    CountSame(Counted, HasStarted, s.runs);
    CountSame(HasStarted, HasEnded, s.runs);
    CountSplit(HasStarted, HasBeenRefused, s.runs);
  }

  /** Each audit id's trail: one refusal and nothing else, or a start followed by an end. */
  lemma EveryIdAccountedFor(max: nat, acts: seq<Action>, id: nat)
    requires CanRun(Fresh(max), acts) && 1 <= id <= |Run(Fresh(max), acts).runs|
    ensures var s := Run(Fresh(max), acts);
            var trail := EventsOf(id, s.events);
            && (trail == [] || (|trail| == 1 && trail[0].Refused?) || trail == [Started(id)] ||
                (|trail| == 2 && trail[0] == Started(id) && trail[1].Ended?))
            && (s.runs[id - 1].Gone? ==> |trail| == 2 || (|trail| == 1 && trail[0].Refused?))
  {
    hide CanRun, Run, CountIf, EventsOf;
    RunKeepsInv(max, acts);
    var s := Run(Fresh(max), acts);
    assert TrailOk(id - 1 + 1, s.runs[id - 1], EventsOf(id - 1 + 1, s.events));
  }

  // ---------------------------------------------------------------------------
  // At the gate
  // ---------------------------------------------------------------------------

  /** The flags tell what has happened: a close, a cancel, the TTL running out. */
  lemma {:induction false} FlagsTell(max: nat, acts: seq<Action>)
    requires CanRun(Fresh(max), acts)
    ensures var s := Run(Fresh(max), acts);
            && (s.closed <==> SetClosed in acts)
            && (s.expired <==> Expire in acts)
            && (s.cancelled <==> Cancel in acts)
    decreases |acts|
  {
    if acts != [] {
      FlagsTell(max, acts[..|acts| - 1]);
      assert acts == acts[..|acts| - 1] + [Last(acts)];
    }
  }

  predicate PassedGate(p: Phase) {
    InGate(p) || (p.Gone? && p.admitted)
  }

  /** Command k was turned away for this reason, which is all its trail says, once it is recorded. */
  predicate TurnedAway(s: State, k: nat, why: Why)
    requires k < |s.runs|
  {
    || (s.runs[k] == Turned(why) && EventsOf(k + 1, s.events) == [])
    || (s.runs[k] == Gone(false, false) && EventsOf(k + 1, s.events) == [Refused(k + 1, why)])
  }

  /** Command k was turned away for this reason, or let in. */
  predicate Judged(s: State, k: nat, why: Option<Why>)
    requires k < |s.runs|
  {
    if why.Some? then TurnedAway(s, k, why.value) else PassedGate(s.runs[k])
  }

  lemma OneVerdict(s: State, k: nat, x: Option<Why>, y: Option<Why>)
    requires k < |s.runs| && Judged(s, k, x) && Judged(s, k, y)
    ensures x == y
  {
  }

  lemma OthersLeaveIt(s: State, a: Action, k: nat)
    requires Enabled(s, a) && k < |s.runs| && !IsStepOf(a, k)
    ensures k < |Step(s, a).runs| && Step(s, a).runs[k] == s.runs[k]
    ensures EventsOf(k + 1, Step(s, a).events) == EventsOf(k + 1, s.events)
  {
    StepMoves(s, a);
    StepEvents(s, a);
    if a.Record? {
      EventsOfExtended(k + 1, s.events, EventOf(a.run, s.runs[a.run]));
    }
  }

  lemma OwnStepKeepsVerdict(s: State, a: Action, k: nat, why: Option<Why>)
    requires Enabled(s, a) && k < |s.runs| && IsStepOf(a, k) && Judged(s, k, why)
    ensures Judged(Step(s, a), k, why)
  {
    StepMoves(s, a);
    if why.Some? {
      assert s.runs[k] == Turned(why.value) && a == Record(k);
      EventsOfExtended(k + 1, s.events, EventOf(k, s.runs[k]));
    }
  }

  lemma {:induction false} VerdictStands(max: nat, before: seq<Action>, after: seq<Action>, k: nat, why: Option<Why>)
    requires CanRun(Fresh(max), before) && CanRun(Fresh(max), before + after)
    requires k < |Run(Fresh(max), before).runs| && Judged(Run(Fresh(max), before), k, why)
    ensures k < |Run(Fresh(max), before + after).runs| && Judged(Run(Fresh(max), before + after), k, why)
    decreases |after|
  {
    hide Judged, Enabled, Step;
    if after == [] {
      assert before + after == before;
    } else {
      var shorter := after[..|after| - 1];
      assert (before + after)[..|before + after| - 1] == before + shorter;
      VerdictStands(max, before, shorter, k, why);
      OneStepOn(Run(Fresh(max), before + shorter), Last(after), k, why);
    }
  }

  lemma OneStepOn(s: State, a: Action, k: nat, why: Option<Why>)
    requires Enabled(s, a) && k < |s.runs| && Judged(s, k, why)
    ensures k < |Step(s, a).runs| && Judged(Step(s, a), k, why)
  {
    hide Enabled, Step;
    if IsStepOf(a, k) {
      OwnStepKeepsVerdict(s, a, k, why);
    } else {
      OthersLeaveIt(s, a, k);
    }
  }

  /** Where the gate leaves a command, by what had happened up to then and how many were inside. */
  ghost predicate GateSays(before: seq<Action>, inside: nat, max: nat, s: State, k: nat)
    requires k < |s.runs|
  {
    && (TurnedAway(s, k, GrantRevoked) <==> SetClosed in before)
    && (TurnedAway(s, k, GrantExpired) <==> SetClosed !in before && Expire in before)
    && (TurnedAway(s, k, TooMany) <==> SetClosed !in before && Expire !in before && inside == max)
    && (PassedGate(s.runs[k]) <==> SetClosed !in before && Expire !in before && inside < max)
  }

  lemma AtTheGate(s: State, k: nat) returns (why: Option<Why>)
    requires Enabled(s, Gate(k)) && EventsOf(k + 1, s.events) == []
    ensures k < |Step(s, Gate(k)).runs| && Judged(Step(s, Gate(k)), k, why)
    ensures why == Some(GrantRevoked) <==> s.closed
    ensures why == Some(GrantExpired) <==> !s.closed && s.expired
    ensures why == Some(TooMany) <==> !s.closed && !s.expired && s.inFlight >= s.max
  {
    why := TurnedAwayFor(s);
  }

  lemma NoTrailYet(max: nat, before: seq<Action>, k: nat)
    requires CanRun(Fresh(max), before) && Enabled(Run(Fresh(max), before), Gate(k))
    ensures EventsOf(k + 1, Run(Fresh(max), before).events) == []
  {
    RunKeepsInv(max, before);
    var s := Run(Fresh(max), before);
    assert TrailOk(k + 1, s.runs[k], EventsOf(k + 1, s.events));
  }

  lemma VerdictSays(before: seq<Action>, inside: nat, max: nat, s: State, k: nat, why: Option<Why>)
    requires k < |s.runs| && Judged(s, k, why) && inside <= max
    requires why == Some(GrantRevoked) <==> SetClosed in before
    requires why == Some(GrantExpired) <==> SetClosed !in before && Expire in before
    requires why == Some(TooMany) <==> SetClosed !in before && Expire !in before && inside >= max
    ensures GateSays(before, inside, max, s, k)
  {
    assert why.None? || why.value.GrantRevoked? || why.value.GrantExpired? || why.value.TooMany?;
    if TurnedAway(s, k, GrantRevoked) { OneVerdict(s, k, why, Some(GrantRevoked)); }
    if TurnedAway(s, k, GrantExpired) { OneVerdict(s, k, why, Some(GrantExpired)); }
    if TurnedAway(s, k, TooMany) { OneVerdict(s, k, why, Some(TooMany)); }
    if PassedGate(s.runs[k]) { OneVerdict(s, k, why, None); }
  }

  /**
   What becomes of a command at the gate, whatever happens later. It is refused as
   revoked exactly if the grant was closed by then, as expired exactly if it was open
   and past its TTL, as one too many exactly if neither and the gate was full, and
   let in otherwise; and a refusal is what its audit trail then says.
   */
  lemma GateVerdictIff(max: nat, before: seq<Action>, after: seq<Action>, k: nat)
    requires CanRun(Fresh(max), before) && Enabled(Run(Fresh(max), before), Gate(k))
    requires CanRun(Fresh(max), before + [Gate(k)] + after)
    ensures var s, s' := Run(Fresh(max), before), Run(Fresh(max), before + [Gate(k)] + after);
            k < |s'.runs| && GateSays(before, CountIf(InGate, s.runs), max, s', k)
  {
    hide Judged, GateSays, Step, Run, CanRun, Enabled, CountIf;
    var s := Run(Fresh(max), before);
    NoTrailYet(max, before, k);
    FlagsTell(max, before);
    InFlightIsExact(max, before);
    RunExtend(Fresh(max), before, Gate(k));
    var why := AtTheGate(s, k);
    VerdictStands(max, before + [Gate(k)], after, k, why);
    VerdictSays(before, CountIf(InGate, s.runs), max, Run(Fresh(max), before + [Gate(k)] + after), k, why);
  }

  /** A command that has not passed the gate of an expired grant. */
  lemma ExpiredStaysOut(s: State, a: Action, k: nat)
    requires Enabled(s, a) && k < |Step(s, a).runs| && s.expired && (k < |s.runs| ==> !PassedGate(s.runs[k]))
    ensures !PassedGate(Step(s, a).runs[k]) && Step(s, a).expired
  {
    StepMoves(s, a);
  }

  /** A command that has not passed the gate when the TTL runs out never does. */
  lemma {:induction false} ExpiryIsFinal(max: nat, before: seq<Action>, after: seq<Action>, k: nat)
    requires CanRun(Fresh(max), before) && CanRun(Fresh(max), before + after) && Run(Fresh(max), before).expired
    requires k < |Run(Fresh(max), before).runs| ==> !PassedGate(Run(Fresh(max), before).runs[k])
    ensures var s' := Run(Fresh(max), before + after);
            s'.expired && (k < |s'.runs| ==> !PassedGate(s'.runs[k]))
    decreases |after|
  {
    hide PassedGate, Enabled, Step;
    if after == [] {
      assert before + after == before;
    } else {
      var shorter := after[..|after| - 1];
      assert (before + after)[..|before + after| - 1] == before + shorter;
      ExpiryIsFinal(max, before, shorter, k);
      var s := Run(Fresh(max), before + shorter);
      if k < |Step(s, Last(after)).runs| {
        ExpiredStaysOut(s, Last(after), k);
      } else {
        ExpiredStays(s, Last(after));
      }
    }
  }

  lemma ExpiredStays(s: State, a: Action)
    requires Enabled(s, a) && s.expired
    ensures Step(s, a).expired
  {
  }

  /** A command that will run, is running or has run. */
  predicate Runs(p: Phase) {
    p.Starting? || HasStarted(p)
  }

  /** A command past the gate that was found cancelled. */
  predicate Revoked(p: Phase) {
    p.Unstarted? || p.RolledBack? || p == Leaving(false) || p == Gone(true, false)
  }

  /** Past the gate, a command runs exactly if the grant was not cancelled when it looked again. */
  lemma {:induction false} RunsIff(max: nat, before: seq<Action>, after: seq<Action>, k: nat)
    requires CanRun(Fresh(max), before) && Enabled(Run(Fresh(max), before), Recheck(k))
    requires CanRun(Fresh(max), before + [Recheck(k)] + after)
    ensures var s' := Run(Fresh(max), before + [Recheck(k)] + after);
            && k < |s'.runs|
            && (Runs(s'.runs[k]) <==> Cancel !in before)
            && (Revoked(s'.runs[k]) <==> Cancel in before)
    decreases |after|
  {
    var acts := before + [Recheck(k)] + after;
    if after == [] {
      RunExtend(Fresh(max), before, Recheck(k));
      assert acts == before + [Recheck(k)];
      FlagsTell(max, before);
    } else {
      var shorter := after[..|after| - 1];
      assert acts[..|acts| - 1] == before + [Recheck(k)] + shorter;
      RunsIff(max, before, shorter, k);
    }
  }

  // ---------------------------------------------------------------------------
  // After Close
  // ---------------------------------------------------------------------------

  /** Command k had not called Exec when the grant was closed, and cannot run any more. */
  predicate CutOff(p: Phase) {
    match p
    case Executing(aborted) => aborted
    case Executed(aborted, _) => aborted
    case _ => true
  }

  /** Command k had not passed the gate when the grant was closed, and never will. */
  predicate ShutOut(p: Phase) {
    p.Numbered? || p == Turned(GrantRevoked) || (p.Gone? && !p.admitted)
  }

  lemma StepAfterClose(s: State, a: Action, k: nat)
    requires Enabled(s, a) && k < |Step(s, a).runs|
    ensures s.closed && (k < |s.runs| ==> ShutOut(s.runs[k])) ==> ShutOut(Step(s, a).runs[k])
    ensures s.cancelled && (k < |s.runs| ==> CutOff(s.runs[k])) ==> CutOff(Step(s, a).runs[k])
  {
  }

  /** A command that has not passed the gate when Close sets its flag never does. */
  lemma {:induction false} CloseIsFinal(max: nat, before: seq<Action>, after: seq<Action>, k: nat)
    requires CanRun(Fresh(max), before) && CanRun(Fresh(max), before + after)
    requires k < |Run(Fresh(max), before + after).runs|
    requires var s := Run(Fresh(max), before);
             s.closed && (k < |s.runs| ==> s.runs[k].Numbered?)
    ensures ShutOut(Run(Fresh(max), before + after).runs[k])
    ensures Run(Fresh(max), before + after).closed
    decreases |after|
  {
    if after == [] {
      assert before + after == before;
    } else {
      var shorter := after[..|after| - 1];
      assert (before + after)[..|before + after| - 1] == before + shorter;
      ClosedStays(max, before, shorter);
      if k < |Run(Fresh(max), before + shorter).runs| {
        CloseIsFinal(max, before, shorter, k);
      }
      StepAfterClose(Run(Fresh(max), before + shorter), Last(after), k);
    }
  }

  lemma {:induction false} ClosedStays(max: nat, before: seq<Action>, after: seq<Action>)
    requires CanRun(Fresh(max), before) && CanRun(Fresh(max), before + after)
    ensures var s, s' := Run(Fresh(max), before), Run(Fresh(max), before + after);
            (s.closed ==> s'.closed) && (s.cancelled ==> s'.cancelled) && |s.runs| <= |s'.runs|
    decreases |after|
  {
    if after == [] {
      assert before + after == before;
    } else {
      var shorter := after[..|after| - 1];
      assert (before + after)[..|before + after| - 1] == before + shorter;
      ClosedStays(max, before, shorter);
    }
  }

  /**
   Once Close has set its flag and cancelled, no command starts any more: one that
   has not called Exec by then either never calls it or hands it a context that is
   already cancelled.
   */
  lemma {:induction false} NothingStartsAfterClose(max: nat, before: seq<Action>, after: seq<Action>, k: nat)
    requires CanRun(Fresh(max), before) && CanRun(Fresh(max), before + after)
    requires k < |Run(Fresh(max), before + after).runs|
    requires var s := Run(Fresh(max), before);
             s.cancelled && (k < |s.runs| ==> !s.runs[k].Executing? && !s.runs[k].Executed?)
    ensures CutOff(Run(Fresh(max), before + after).runs[k])
    decreases |after|
  {
    if after == [] {
      assert before + after == before;
    } else {
      var shorter := after[..|after| - 1];
      assert (before + after)[..|before + after| - 1] == before + shorter;
      ClosedStays(max, before, shorter);
      if k < |Run(Fresh(max), before + shorter).runs| {
        NothingStartsAfterClose(max, before, shorter, k);
      }
      StepAfterClose(Run(Fresh(max), before + shorter), Last(after), k);
    }
  }

  /** Past the gate, with Exec still to be called. */
  predicate OnItsWay(p: Phase) {
    p.Admitted? || p.Starting? || p.Dispatching?
  }

  /** Some continuation has command k call Exec with a live context. */
  ghost predicate CanStillStart(max: nat, acts: seq<Action>, k: nat)
    requires CanRun(Fresh(max), acts)
  {
    exists after ::
      && CanRun(Fresh(max), acts + after)
      && k < |Run(Fresh(max), acts + after).runs| && Run(Fresh(max), acts + after).runs[k] == Executing(false)
  }

  /**
   Between a Close setting its flag and cancelling, commands past the gate can
   still start. A second Close returns in that window: so the promise that nothing
   starts after Close returned holds of a Close call exactly when the context is
   cancelled by then, or nothing was on its way.
   */
  lemma LateStartIff(max: nat, acts: seq<Action>, k: nat)
    requires CanRun(Fresh(max), acts) && Run(Fresh(max), acts).closed
    requires k < |Run(Fresh(max), acts).runs| && !Run(Fresh(max), acts).runs[k].Executing?
    ensures CanStillStart(max, acts, k) <==>
              !Run(Fresh(max), acts).cancelled && OnItsWay(Run(Fresh(max), acts).runs[k])
  {
    var s := Run(Fresh(max), acts);
    if !s.cancelled && OnItsWay(s.runs[k]) {
      assert acts + [] == acts;
      LateStart(max, acts, [], k);
    } else if CanStillStart(max, acts, k) {
      var after :| CanRun(Fresh(max), acts + after) && k < |Run(Fresh(max), acts + after).runs| &&
                   Run(Fresh(max), acts + after).runs[k] == Executing(false);
      NoLateStart(max, acts, after, k);
    }
  }

  /** A command passes the gate, and a first Close sets its flag; now a second Close returns. */
  const AfterSecondClose: seq<Action> := [Arrive, Gate(0), SetClosed]

  /** What the command does next, the first Close not having cancelled yet. */
  const LateSteps: seq<Action> := [Recheck(0), Record(0), Dispatch(0)]

  lemma OneMore(max: nat, acts: seq<Action>, a: Action, s: State) returns (s': State)
    requires CanRun(Fresh(max), acts) && s == Run(Fresh(max), acts) && Enabled(s, a)
    ensures CanRun(Fresh(max), acts + [a]) && s' == Step(s, a) == Run(Fresh(max), acts + [a])
  {
    RunExtend(Fresh(max), acts, a);
    s' := Step(s, a);
  }

  lemma SecondCloseReturns(max: nat)
    requires max > 0
    ensures CanRun(Fresh(max), AfterSecondClose)
    ensures Run(Fresh(max), AfterSecondClose) == State(max, true, false, false, 1, 1, [Admitted], [])
  {
    var s := OneMore(max, [], Arrive, Fresh(max));
    assert s.runs == [Numbered];
    s := OneMore(max, [] + [Arrive], Gate(0), s);
    assert s.runs == [Admitted];
    s := OneMore(max, [] + [Arrive] + [Gate(0)], SetClosed, s);
    assert [] + [Arrive] + [Gate(0)] + [SetClosed] == AfterSecondClose;
  }

  /** It happens: after that return the command is dispatched, with a context that is not cancelled. */
  lemma CommandStartsAfterSecondClose(max: nat)
    requires max > 0
    ensures CanRun(Fresh(max), AfterSecondClose) && Run(Fresh(max), AfterSecondClose).closed
    ensures CanRun(Fresh(max), AfterSecondClose + LateSteps)
    ensures Run(Fresh(max), AfterSecondClose + LateSteps).runs == [Executing(false)]
  {
    SecondCloseReturns(max);
    var acts, s := AfterSecondClose, Run(Fresh(max), AfterSecondClose);
    s := OneMore(max, acts, Recheck(0), s);
    assert s.runs == [Starting];
    s := OneMore(max, acts + [Recheck(0)], Record(0), s);
    assert s.runs == [Dispatching];
    s := OneMore(max, acts + [Recheck(0)] + [Record(0)], Dispatch(0), s);
    assert acts + [Recheck(0)] + [Record(0)] + [Dispatch(0)] == acts + LateSteps;
  }

  function OnwardStep(k: nat, p: Phase): Action
    requires OnItsWay(p)
  {
    if p.Admitted? then Recheck(k) else if p.Starting? then Record(k) else Dispatch(k)
  }

  lemma OnwardStepAdvances(s: State, k: nat)
    requires k < |s.runs| && OnItsWay(s.runs[k]) && !s.cancelled
    ensures var a := OnwardStep(k, s.runs[k]);
            && Enabled(s, a) && !Step(s, a).cancelled && Rank(Step(s, a).runs[k]) < Rank(s.runs[k])
            && (OnItsWay(Step(s, a).runs[k]) || Step(s, a).runs[k] == Executing(false))
  {
  }

  lemma {:induction false} LateStart(max: nat, acts: seq<Action>, after: seq<Action>, k: nat)
    requires CanRun(Fresh(max), acts) && CanRun(Fresh(max), acts + after)
    requires k < |Run(Fresh(max), acts + after).runs| && !Run(Fresh(max), acts + after).cancelled
    requires var p := Run(Fresh(max), acts + after).runs[k]; OnItsWay(p) || p == Executing(false)
    ensures CanStillStart(max, acts, k)
    decreases Rank(Run(Fresh(max), acts + after).runs[k])
  {
    var s := Run(Fresh(max), acts + after);
    if OnItsWay(s.runs[k]) {
      var a := OnwardStep(k, s.runs[k]);
      OnwardStepAdvances(s, k);
      RunExtend(Fresh(max), acts + after, a);
      assert acts + after + [a] == acts + (after + [a]);
      LateStart(max, acts, after + [a], k);
    }
  }

  /** Where a closed grant's command can be, if it was not on its way or the context is cancelled. */
  predicate CannotStart(s: State, p: Phase) {
    !(p == Executing(false)) && (s.cancelled || !OnItsWay(p)) && s.closed
  }

  lemma {:induction false} NoLateStart(max: nat, acts: seq<Action>, after: seq<Action>, k: nat)
    requires CanRun(Fresh(max), acts) && CanRun(Fresh(max), acts + after)
    requires k < |Run(Fresh(max), acts).runs| && CannotStart(Run(Fresh(max), acts), Run(Fresh(max), acts).runs[k])
    ensures k < |Run(Fresh(max), acts + after).runs|
    ensures CannotStart(Run(Fresh(max), acts + after), Run(Fresh(max), acts + after).runs[k])
    decreases |after|
  {
    if after == [] {
      assert acts + after == acts;
    } else {
      var shorter := after[..|after| - 1];
      assert (acts + after)[..|acts + after| - 1] == acts + shorter;
      NoLateStart(max, acts, shorter, k);
      CannotStartStays(Run(Fresh(max), acts + shorter), Last(after), k);
    }
  }

  lemma CannotStartStays(s: State, a: Action, k: nat)
    requires Enabled(s, a) && k < |s.runs| && CannotStart(s, s.runs[k])
    ensures CannotStart(Step(s, a), Step(s, a).runs[k])
  {
  }

  // ---------------------------------------------------------------------------
  // Progress
  // ---------------------------------------------------------------------------

  function Rank(p: Phase): nat {
    match p
    case Numbered => 8
    case Admitted => 7
    case Starting => 6
    case Unstarted => 6
    case Dispatching => 5
    case RolledBack => 5
    case Executing(_) => 4
    case Executed(_, _) => 3
    case Leaving(_) => 2
    case Turned(_) => 2
    case Gone(_, _) => 0
  }

  /** A command never waits for another command or for Close: only Exec itself can take long. */
  lemma EveryStepAdvances(s: State, a: Action)
    requires Enabled(s, a) && OfRun(a)
    ensures Rank(Step(s, a).runs[a.run]) < Rank(s.runs[a.run])
  {
  }
}
