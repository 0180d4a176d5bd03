/**
 One grant's command path as a transition system: any number of commands pass the
 gate, run and leave, concurrently with each other, with the TTL running out and
 with Close, which sets its flag under the lock and cancels outside it.

 A command is named by its audit id, less one: ids are handed out in order.
 */
module GateMachine {
  import opened Common

  datatype Why = GrantRevoked | GrantExpired | TooMany

  datatype Event =
    | Started(id: nat)
    | Ended(id: nat, code: int)
    | Refused(id: nat, why: Why)

  datatype Phase =
    | Numbered                         // holds an audit id, has not reached the gate
    | Turned(why: Why)                 // turned away at the gate, refusal not yet recorded
    | Admitted                         // past the gate, context not yet re-checked
    | Unstarted                        // context was cancelled, count not yet rolled back
    | RolledBack                       // refusal not yet recorded, still in the gate
    | Starting                         // about to record its start
    | Dispatching                      // recorded; Exec not called yet
    | Executing(aborted: bool)         // Exec called; aborted if its context was already cancelled
    | Executed(aborted: bool, code: int) // Exec returned, end not yet recorded
    | Leaving(ran: bool)               // still counted as in flight
    | Gone(admitted: bool, ran: bool)

  datatype State = State(
    max: nat, closed: bool, cancelled: bool, expired: bool,
    count: int, inFlight: int, runs: seq<Phase>, events: seq<Event>)

  datatype Action =
    | Arrive
    | Expire
    | SetClosed
    | Cancel
    | Gate(run: nat)
    | Recheck(run: nat)
    | RollBack(run: nat)
    | Record(run: nat)                 // emit the event that is due
    | Dispatch(run: nat)
    | Return(run: nat, code: int)
    | Leave(run: nat)

  /** Whether a step is one command's, rather than an arrival, the clock's or Close's. */
  predicate OfRun(a: Action) {
    match a
    case Arrive | Expire | SetClosed | Cancel => false
    case _ => true
  }

  predicate IsStepOf(a: Action, k: nat) {
    OfRun(a) && a.run == k
  }

  function Fresh(max: nat): State {
    State(max, false, false, false, 0, 0, [], [])
  }

  predicate MustRecord(p: Phase) {
    p.Turned? || p.RolledBack? || p.Starting? || p.Executed?
  }

  predicate Enabled(s: State, a: Action) {
    match a
    case Arrive => true
    case Expire => true
    case SetClosed => true
    case Cancel => s.closed
    case Gate(k) => k < |s.runs| && s.runs[k].Numbered?
    case Recheck(k) => k < |s.runs| && s.runs[k].Admitted?
    case RollBack(k) => k < |s.runs| && s.runs[k].Unstarted?
    case Record(k) => k < |s.runs| && MustRecord(s.runs[k])
    case Dispatch(k) => k < |s.runs| && s.runs[k].Dispatching?
    case Return(k, _) => k < |s.runs| && s.runs[k].Executing?
    case Leave(k) => k < |s.runs| && s.runs[k].Leaving?
  }

  /** The gate's verdict, in the order the checks are made. */
  function TurnedAwayFor(s: State): Option<Why> {
    if s.closed then Some(GrantRevoked)
    else if s.expired then Some(GrantExpired)
    else if s.inFlight >= s.max then Some(TooMany)
    else None
  }

  function EventOf(k: nat, p: Phase): Event
    requires MustRecord(p)
  {
    match p
    case Turned(why) => Refused(k + 1, why)
    case RolledBack => Refused(k + 1, GrantRevoked)
    case Starting => Started(k + 1)
    case Executed(_, code) => Ended(k + 1, code)
  }

  function AfterRecord(p: Phase): Phase
    requires MustRecord(p)
  {
    match p
    case Turned(_) => Gone(false, false)
    case RolledBack => Leaving(false)
    case Starting => Dispatching
    case Executed(_, _) => Leaving(true)
  }

  function Step(s: State, a: Action): (s': State)
    requires Enabled(s, a)
    ensures |s.runs| <= |s'.runs| && s'.max == s.max && s.events <= s'.events
    ensures (s.closed ==> s'.closed) && (s.cancelled ==> s'.cancelled)
  {
    match a
    case Arrive => s.(runs := s.runs + [Numbered])
    case Expire => s.(expired := true)
    case SetClosed => s.(closed := true)
    case Cancel => s.(cancelled := true)
    case Gate(k) =>
      var why := TurnedAwayFor(s);
      if why.Some? then s.(runs := s.runs[k := Turned(why.value)])
      else s.(inFlight := s.inFlight + 1, count := s.count + 1, runs := s.runs[k := Admitted])
    case Recheck(k) => s.(runs := s.runs[k := if s.cancelled then Unstarted else Starting])
    case RollBack(k) => s.(count := s.count - 1, runs := s.runs[k := RolledBack])
    case Record(k) => s.(events := s.events + [EventOf(k, s.runs[k])], runs := s.runs[k := AfterRecord(s.runs[k])])
    case Dispatch(k) => s.(runs := s.runs[k := Executing(s.cancelled)])
    case Return(k, code) => s.(runs := s.runs[k := Executed(s.runs[k].aborted, code)])
    case Leave(k) => s.(inFlight := s.inFlight - 1, runs := s.runs[k := Gone(true, s.runs[k].ran)])
  }

  predicate CanRun(s: State, acts: seq<Action>)
    decreases |acts|, 0
  {
    acts == [] || (CanRun(s, acts[..|acts| - 1]) && Enabled(Run(s, acts[..|acts| - 1]), Last(acts)))
  }

  function Run(s: State, acts: seq<Action>): (s': State)
    requires CanRun(s, acts)
    ensures s'.max == s.max
    decreases |acts|, 1
  {
    if acts == [] then s else Step(Run(s, acts[..|acts| - 1]), Last(acts))
  }

  lemma RunExtend(s: State, acts: seq<Action>, a: Action)
    requires CanRun(s, acts) && Enabled(Run(s, acts), a)
    ensures CanRun(s, acts + [a]) && Run(s, acts + [a]) == Step(Run(s, acts), a)
  {
    assert (acts + [a])[..|acts|] == acts;
  }

  // ---------------------------------------------------------------------------
  // Counting
  // ---------------------------------------------------------------------------

  function CountIf<T>(f: T -> bool, s: seq<T>): nat {
    if s == [] then 0 else CountIf(f, s[..|s| - 1]) + (if f(Last(s)) then 1 else 0)
  }

  lemma {:induction false} CountUpdate<T>(f: T -> bool, s: seq<T>, k: nat, x: T)
    requires k < |s|
    ensures CountIf(f, s[k := x]) == CountIf(f, s) - (if f(s[k]) then 1 else 0) + (if f(x) then 1 else 0)
  {
    var t := s[k := x];
    if k < |s| - 1 {
      CountUpdate(f, s[..|s| - 1], k, x);
      assert t[..|t| - 1] == s[..|s| - 1][k := x];
    } else {
      assert t[..|t| - 1] == s[..|s| - 1];
    }
  }

  lemma CountAppend<T>(f: T -> bool, s: seq<T>, x: T)
    ensures CountIf(f, s + [x]) == CountIf(f, s) + (if f(x) then 1 else 0)
  {
    assert (s + [x])[..|s|] == s;
  }

  // ---------------------------------------------------------------------------
  // Invariant
  // ---------------------------------------------------------------------------

  /** Between its admission and its deferred decrement. */
  predicate InGate(p: Phase) {
    p.Admitted? || p.Unstarted? || p.RolledBack? || p.Starting? || p.Dispatching? || p.Executing? || p.Executed? || p.Leaving?
  }

  /** What Count is meant to count: commands admitted and not rolled back. */
  predicate Counted(p: Phase) {
    p.Admitted? || p.Unstarted? || p.Starting? || p.Dispatching? || p.Executing? || p.Executed? ||
    (p.Leaving? && p.ran) || (p.Gone? && p.ran)
  }

  function EventsOf(id: nat, events: seq<Event>): (r: seq<Event>)
    ensures forall e | e in r :: e.id == id
  {
    if events == [] then []
    else EventsOf(id, events[..|events| - 1]) + (if Last(events).id == id then [Last(events)] else [])
  }

  /** The audit trail a command in this phase has left so far. */
  predicate TrailOk(id: nat, p: Phase, trail: seq<Event>) {
    match p
    case Numbered | Turned(_) | Admitted | Unstarted | RolledBack | Starting => trail == []
    case Dispatching | Executing(_) | Executed(_, _) => trail == [Started(id)]
    case Leaving(ran) =>
      if ran then |trail| == 2 && trail[0] == Started(id) && trail[1].Ended? else trail == [Refused(id, GrantRevoked)]
    case Gone(admitted, ran) =>
      if ran then admitted && |trail| == 2 && trail[0] == Started(id) && trail[1].Ended?
      else |trail| == 1 && trail[0].Refused?
  }

  ghost predicate Inv(s: State) {
    && s.inFlight == CountIf(InGate, s.runs) && s.inFlight <= s.max
    && s.count == CountIf(Counted, s.runs)
    && (s.cancelled ==> s.closed)
    && Trails(s)
  }

  /** A step changes at most one run's phase, or adds one. */
  predicate Moves(s: State, a: Action, s': State) {
    if a.Arrive? then s'.runs == s.runs + [Numbered]
    else if !OfRun(a) then s'.runs == s.runs
    else a.run < |s.runs| == |s'.runs| && s'.runs == s.runs[a.run := s'.runs[a.run]]
  }

  lemma StepMoves(s: State, a: Action)
    requires Enabled(s, a)
    ensures Moves(s, a, Step(s, a))
  {
  }

  lemma CountMoves(f: Phase -> bool, s: State, a: Action)
    requires Enabled(s, a) && !f(Numbered)
    ensures var s' := Step(s, a);
            CountIf(f, s'.runs) == CountIf(f, s.runs) +
              if !OfRun(a) then 0
              else (if f(s'.runs[a.run]) then 1 else 0) - (if f(s.runs[a.run]) then 1 else 0)
  {
    StepMoves(s, a);
    if a.Arrive? {
      CountAppend(f, s.runs, Numbered);
    } else if OfRun(a) {
      CountUpdate(f, s.runs, a.run, Step(s, a).runs[a.run]);
    }
  }

  lemma StepKeepsInFlight(s: State, a: Action)
    requires s.inFlight == CountIf(InGate, s.runs) <= s.max && Enabled(s, a)
    ensures Step(s, a).inFlight == CountIf(InGate, Step(s, a).runs) <= s.max
  {
    CountMoves(InGate, s, a);
  }

  lemma StepKeepsCount(s: State, a: Action)
    requires s.count == CountIf(Counted, s.runs) && Enabled(s, a)
    ensures Step(s, a).count == CountIf(Counted, Step(s, a).runs)
  {
    CountMoves(Counted, s, a);
  }

  ghost predicate Trails(s: State) {
    && (forall k | 0 <= k < |s.runs| :: TrailOk(k + 1, s.runs[k], EventsOf(k + 1, s.events)))
    && (forall e | e in s.events :: 1 <= e.id <= |s.runs|)
  }

  /** The run that steps extends its own trail, as its new phase says. */
  lemma OwnTrail(s: State, a: Action, trail: seq<Event>)
    requires Enabled(s, a) && OfRun(a) && TrailOk(a.run + 1, s.runs[a.run], trail)
    ensures TrailOk(a.run + 1, Step(s, a).runs[a.run],
                    trail + if a.Record? then [EventOf(a.run, s.runs[a.run])] else [])
  {
    if !a.Record? {
      assert trail + [] == trail;
    }
  }

  lemma EventsOfExtended(id: nat, events: seq<Event>, e: Event)
    ensures EventsOf(id, events + [e]) == EventsOf(id, events) + if e.id == id then [e] else []
  {
    assert (events + [e])[..|events|] == events;
  }

  lemma StepEvents(s: State, a: Action)
    requires Enabled(s, a)
    ensures Step(s, a).events == s.events + if a.Record? then [EventOf(a.run, s.runs[a.run])] else []
  {
  }

  lemma StepTrail(s: State, a: Action, k: nat)
    requires Trails(s) && Enabled(s, a) && k < |Step(s, a).runs|
    ensures TrailOk(k + 1, Step(s, a).runs[k], EventsOf(k + 1, Step(s, a).events))
  {
    StepMoves(s, a);
    StepEvents(s, a);
    if a.Record? {
      EventsOfExtended(k + 1, s.events, EventOf(a.run, s.runs[a.run]));
    }
    if k == |s.runs| {
      NoEventsYet(k + 1, s.events);
    } else if OfRun(a) && k == a.run {
      OwnTrail(s, a, EventsOf(k + 1, s.events));
    }
  }

  lemma StepKeepsTrails(s: State, a: Action)
    requires Trails(s) && Enabled(s, a)
    ensures Trails(Step(s, a))
  {
    forall k: nat | k < |Step(s, a).runs|
      ensures TrailOk(k + 1, Step(s, a).runs[k], EventsOf(k + 1, Step(s, a).events))
    {
      StepTrail(s, a, k);
    }
    StepEvents(s, a);
  }

  lemma {:induction false} NoEventsYet(id: nat, events: seq<Event>)
    requires forall e | e in events :: e.id != id
    ensures EventsOf(id, events) == []
  {
    if events != [] {
      NoEventsYet(id, events[..|events| - 1]);
    }
  }

  lemma StepKeepsInv(s: State, a: Action)
    requires Inv(s) && Enabled(s, a)
    ensures Inv(Step(s, a))
  {
    StepKeepsInFlight(s, a);
    StepKeepsCount(s, a);
    StepKeepsTrails(s, a);
  }

  lemma {:induction false} RunKeepsInv(max: nat, acts: seq<Action>)
    requires CanRun(Fresh(max), acts)
    ensures Inv(Run(Fresh(max), acts))
    decreases |acts|
  {
    if acts != [] {
      RunKeepsInv(max, acts[..|acts| - 1]);
      StepKeepsInv(Run(Fresh(max), acts[..|acts| - 1]), Last(acts));
    }
  }
}
