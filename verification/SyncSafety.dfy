/**
 What every run of the sync protocol keeps, whatever the interleaving and
 whatever the faults: agreement, justified writes, honest results.
 */
module SyncSafety {
  import opened Common
  import opened SyncMachine

  predicate Holds(h: seq<Version>, version: nat, p: Payload) {
    0 < version <= |h| && h[version - 1].payload == p
  }

  ghost predicate Stored(h: seq<Version>, p: Payload) {
    exists v :: Holds(h, v, p)
  }

  /** The bookkeeping is true: it names a version and that version's content. */
  predicate Agrees(h: seq<Version>, s: Session) {
    if s.version == 0 then s.fingerprint == NoFingerprint
    else s.version <= |h| && s.fingerprint == Sha256(h[s.version - 1].payload)
  }

  /** The version a write is aimed at is one the device may replace. */
  predicate Justified(h: seq<Version>, d: Device, given: Payload, expected: nat, cause: Cause)
    requires d.session.Some?
  {
    match cause
    case NoRemote => expected == 0 && CountHosts(given) > 0
    case RemoteUnmoved => 0 < expected == d.session.value.version && d.session.value.fingerprint != Sha256(given)
    case RemoteEmpty => 0 < expected <= |h| && CountHosts(h[expected - 1].payload) == 0
    case UserChoseLocal =>
      d.pending.Some? && d.pending.value.version == expected && d.call == ResolveCall(true, given)
  }

  ghost predicate ResultHonest(h: seq<Version>, i: nat, call: Call, r: Result) {
    match r
    case InSync(v) => call.NoCall? || (if v == 0 then CountHosts(call.given) == 0 else Holds(h, v, call.given))
    case Pushed(v) => !call.NoCall? && Holds(h, v, call.given) && h[v - 1].author == i
    case Adopt(p, v) =>
      !call.NoCall? && Holds(h, v, p) &&
      (Stored(h, call.given) || CountHosts(call.given) == 0 || (call.ResolveCall? && !call.keepLocal))
    case Conflict(lh, rh, v) =>
      !call.NoCall? && 0 < v <= |h| && h[v - 1].payload != call.given &&
      0 < lh == CountHosts(call.given) && 0 < rh == CountHosts(h[v - 1].payload)
    case _ => true
  }

  function Budget(c: Call): nat { if c.ResolveCall? then 3 else 2 }

  ghost predicate PhaseOk(h: seq<Version>, i: nat, d: Device) {
    && (d.phase.Idle? ==> d.puts <= Budget(d.call) && ResultHonest(h, i, d.call, d.outcome))
    && (!d.phase.Idle? ==> d.session.Some? && !d.call.NoCall? && d.phase.payload == d.call.given)
    && match d.phase
       case Idle => true
       case Fetching(p, retry) => d.puts + (if retry then 2 else 1) <= Budget(d.call)
       case Fetched(p, retry, got) =>
         && d.puts + (if retry then 2 else 1) <= Budget(d.call)
         && (got.Vault? ==> Holds(h, got.remote.version, got.remote.payload))
       case Pushing(p, retry, expected, cause) =>
         && d.puts + (if cause == UserChoseLocal then 3 else if retry then 2 else 1) <= Budget(d.call)
         && Justified(h, d, p, expected, cause)
       case Answered(p, retry, expected, cause, put) =>
         && d.puts + (if cause == UserChoseLocal then 2 else if retry then 1 else 0) <= Budget(d.call)
         && (put.PutOk? ==> put.version == expected + 1 <= |h| && h[expected] == Version(p, i, cause))
  }

  ghost predicate DeviceOk(h: seq<Version>, i: nat, d: Device) {
    && (d.session.Some? ==> Agrees(h, d.session.value))
    && (d.pending.Some? ==> Holds(h, d.pending.value.version, d.pending.value.payload))
    && PhaseOk(h, i, d)
  }

  ghost predicate Inv(w: World) {
    forall i | 0 <= i < |w.devices| :: DeviceOk(w.history, i, w.devices[i])
  }

  /** The server only ever appends, and nothing a device relies on minds. */
  lemma DeviceOkStable(h: seq<Version>, h': seq<Version>, i: nat, d: Device)
    requires h <= h' && DeviceOk(h, i, d)
    ensures DeviceOk(h', i, d)
  {
    if d.phase.Idle? && d.outcome.Adopt? && Stored(h, d.call.given) {
      var v :| Holds(h, v, d.call.given);
      assert Holds(h', v, d.call.given);
    }
  }

  /** What makes a verdict on a version read from the server a sound one. */
  ghost predicate Sound(h: seq<Version>, s: Session, given: Payload, remote: Remote, v: Verdict) {
    match v
    case NothingToDo => remote.payload == given
    case RecordAgreement => remote.payload == given
    case Unopened => true
    case Upload(cause) =>
      (cause == RemoteUnmoved && remote.version == s.version && s.fingerprint != Sha256(given)) ||
      (cause == RemoteEmpty && CountHosts(remote.payload) == 0)
    case TakeRemote => Stored(h, given) || CountHosts(given) == 0
    case AskUser => remote.payload != given && CountHosts(given) > 0 && CountHosts(remote.payload) > 0
  }

  lemma JudgeIsSound(h: seq<Version>, s: Session, given: Payload, remote: Remote, opens: bool)
    requires Agrees(h, s) && Holds(h, remote.version, remote.payload)
    ensures Sound(h, s, given, remote, Judge(s, given, remote, opens))
  {
    if s.fingerprint == Sha256(given) {
      assert Holds(h, s.version, given);
    }
  }

  lemma ConcludeOk(h: seq<Version>, i: nat, d: Device, verdict: Verdict, saves: bool)
    requires DeviceOk(h, i, d) && d.phase.Fetched? && d.phase.got.Vault?
    requires Sound(h, d.session.value, d.phase.payload, d.phase.got.remote, verdict)
    ensures DeviceOk(h, i, Conclude(d, d.phase.payload, d.phase.retry, d.phase.got.remote, verdict, saves))
  {
  }

  lemma AfterGetOk(h: seq<Version>, i: nat, d: Device, saves: bool)
    requires DeviceOk(h, i, d) && d.phase.Fetched?
    ensures DeviceOk(h, i, AfterGet(d, saves))
  {
    if d.phase.got.Vault? {
      var got := d.phase.got;
      JudgeIsSound(h, d.session.value, d.phase.payload, got.remote, got.opens);
      ConcludeOk(h, i, d, Judge(d.session.value, d.phase.payload, got.remote, got.opens), saves);
    }
  }

  lemma AfterPutOk(h: seq<Version>, i: nat, d: Device, saves: bool)
    requires DeviceOk(h, i, d) && d.phase.Answered?
    ensures DeviceOk(h, i, AfterPut(d, saves))
  {
  }

  lemma StepDeviceOk(w: World, a: Action)
    requires Enabled(w, a) && DeviceOk(w.history, a.dev, w.devices[a.dev])
    ensures DeviceOk(Step(w, a).history, a.dev, StepDevice(w, a))
  {
    var d := w.devices[a.dev];
    if a.Decide? {
      AfterGetOk(w.history, a.dev, d, a.saves);
    } else if a.Settle? {
      AfterPutOk(w.history, a.dev, d, a.saves);
    }
  }

  lemma StepKeepsInv(w: World, a: Action)
    requires Inv(w) && Enabled(w, a)
    ensures Inv(Step(w, a))
  {
    var w' := Step(w, a);
    StepDeviceOk(w, a);
    forall i | 0 <= i < |w'.devices|
      ensures DeviceOk(w'.history, i, w'.devices[i])
    {
      DeviceOkStable(w.history, w'.history, i, w.devices[i]);
    }
  }

  lemma {:induction false} RunKeepsInv(w: World, acts: seq<Action>)
    requires Inv(w) && CanRun(w, acts)
    ensures Inv(Run(w, acts))
    decreases |acts|
  {
    if acts != [] {
      RunKeepsInv(w, acts[..|acts| - 1]);
      StepKeepsInv(Run(w, acts[..|acts| - 1]), Last(acts));
    }
  }

  lemma StartIsOk(n: nat)
    ensures Inv(Start(n))
  {
  }

  // ---------------------------------------------------------------------------
  // No silent loss
  // ---------------------------------------------------------------------------

  /** The call a device last finished told its user about a conflict with this version. */
  predicate ShowedConflict(w: World, dev: nat, version: nat) {
    dev < |w.devices| && w.devices[dev].phase.Idle? && w.devices[dev].outcome.Conflict? &&
    w.devices[dev].outcome.remoteVersion == version
  }

  /** At some point of the run the device's user was shown a conflict with this version. */
  ghost predicate UserSawConflict(w: World, acts: seq<Action>, dev: nat, version: nat)
    requires CanRun(w, acts)
  {
    exists j :: 0 <= j <= |acts| && CanRun(w, acts[..j]) && ShowedConflict(Run(w, acts[..j]), dev, version)
  }

  lemma UserSawConflictExtend(w: World, acts: seq<Action>, dev: nat, version: nat)
    requires acts != [] && CanRun(w, acts) && UserSawConflict(w, acts[..|acts| - 1], dev, version)
    ensures UserSawConflict(w, acts, dev, version)
  {
    var before := acts[..|acts| - 1];
    var j :| 0 <= j <= |before| && CanRun(w, before[..j]) && ShowedConflict(Run(w, before[..j]), dev, version);
    assert before[..j] == acts[..j];
  }

  /** A stashed remote side is always one the user was asked about. */
  lemma {:induction false} PendingWasShown(n: nat, acts: seq<Action>, dev: nat)
    requires CanRun(Start(n), acts) && dev < n
    requires Run(Start(n), acts).devices[dev].pending.Some?
    ensures UserSawConflict(Start(n), acts, dev, Run(Start(n), acts).devices[dev].pending.value.version)
    decreases |acts|
  {
    var before := acts[..|acts| - 1];
    var was := Run(Start(n), before).devices[dev];
    var now := Run(Start(n), acts).devices[dev];
    if was.pending == now.pending {
      PendingWasShown(n, before, dev);
      UserSawConflictExtend(Start(n), acts, dev, now.pending.value.version);
    } else {
      assert acts[..|acts|] == acts;
      assert ShowedConflict(Run(Start(n), acts), dev, now.pending.value.version);
    }
  }

  /**
   No silent loss on the server. Whenever, in any run of any number of devices, a
   write lands, it replaces exactly the newest version; and either there was none,
   or the writer had agreed with precisely that version, or that version held no
   hosts, or the writer's user was shown the conflict with it and chose to keep
   the local side.
   */
  lemma NoSilentOverwrite(n: nat, acts: seq<Action>, put: Action)
    requires CanRun(Start(n), acts) && put.Put? && Enabled(Run(Start(n), acts), put)
    requires Lands(Run(Start(n), acts), put)
    ensures var w := Run(Start(n), acts);
            var d := w.devices[put.dev];
            var cause := d.phase.cause;
            && !d.call.NoCall?
            && Step(w, put).history == w.history + [Version(d.call.given, put.dev, cause)]
            && (w.history == [] <==> cause == NoRemote)
            && (cause == RemoteUnmoved ==>
                  d.session.value == Session(|w.history|, Sha256(Last(w.history).payload)))
            && (cause == RemoteEmpty ==> CountHosts(Last(w.history).payload) == 0)
            && (cause == UserChoseLocal ==>
                  d.call == ResolveCall(true, d.call.given) &&
                  UserSawConflict(Start(n), acts, put.dev, |w.history|))
  {
    StartIsOk(n);
    RunKeepsInv(Start(n), acts);
    var w := Run(Start(n), acts);
    var d := w.devices[put.dev];
    assert DeviceOk(w.history, put.dev, d);
    if d.phase.cause == UserChoseLocal {
      PendingWasShown(n, acts, put.dev);
    }
  }

  /**
   No silent loss on the device. A remote payload is handed over for adoption
   only if it is a stored version and the local payload either is itself a stored
   version, or has no hosts, or its user chose the remote side.
   */
  lemma NoSilentDiscard(n: nat, acts: seq<Action>, dev: nat)
    requires CanRun(Start(n), acts) && dev < n
    ensures var w := Run(Start(n), acts);
            var d := w.devices[dev];
            d.phase.Idle? && d.outcome.Adopt? ==>
              && !d.call.NoCall?
              && Holds(w.history, d.outcome.version, d.outcome.payload)
              && (Stored(w.history, d.call.given) || CountHosts(d.call.given) == 0 ||
                  d.call == ResolveCall(false, d.call.given))
  {
    StartIsOk(n);
    RunKeepsInv(Start(n), acts);
    assert DeviceOk(Run(Start(n), acts).history, dev, Run(Start(n), acts).devices[dev]);
  }

  /** The agreement every device records is true of the server, in every run. */
  lemma AgreementIsTrue(n: nat, acts: seq<Action>, dev: nat)
    requires CanRun(Start(n), acts) && dev < n
    ensures var w := Run(Start(n), acts);
            w.devices[dev].session.Some? ==> Agrees(w.history, w.devices[dev].session.value)
  {
    StartIsOk(n);
    RunKeepsInv(Start(n), acts);
    assert DeviceOk(Run(Start(n), acts).history, dev, Run(Start(n), acts).devices[dev]);
  }

  /** A Sync makes at most two write attempts and a Resolve at most three. */
  lemma AttemptsAreBounded(n: nat, acts: seq<Action>, dev: nat)
    requires CanRun(Start(n), acts) && dev < n
    ensures Run(Start(n), acts).devices[dev].puts <= Budget(Run(Start(n), acts).devices[dev].call)
  {
    StartIsOk(n);
    RunKeepsInv(Start(n), acts);
    assert DeviceOk(Run(Start(n), acts).history, dev, Run(Start(n), acts).devices[dev]);
  }

  /** What a report of being in sync, or of having pushed, promises of the device. */
  predicate SidesEqual(h: seq<Version>, d: Device) {
    d.phase.Idle? && !d.call.NoCall? && (d.outcome.Pushed? || (d.outcome.InSync? && d.outcome.version > 0)) ==>
      Holds(h, d.outcome.version, d.call.given) && d.session == Some(Session(d.outcome.version, Sha256(d.call.given)))
  }

  lemma DecideLeavesSidesEqual(h: seq<Version>, i: nat, d: Device, saves: bool)
    requires DeviceOk(h, i, d) && d.phase.Fetched?
    ensures SidesEqual(h, AfterGet(d, saves))
  {
    if d.phase.got.Vault? {
      var got := d.phase.got;
      JudgeIsSound(h, d.session.value, d.phase.payload, got.remote, got.opens);
    }
  }

  /**
   A call that reports being in sync at, or having pushed, a version leaves both
   sides equal: the server's copy of that version is the payload the caller gave,
   and that is what the device now records.
   */
  lemma SyncedMeansEqual(n: nat, acts: seq<Action>, a: Action)
    requires CanRun(Start(n), acts) && Enabled(Run(Start(n), acts), a)
    requires a.Decide? || a.Settle?
    ensures var w' := Step(Run(Start(n), acts), a);
            SidesEqual(w'.history, w'.devices[a.dev])
  {
    StartIsOk(n);
    RunKeepsInv(Start(n), acts);
    var w := Run(Start(n), acts);
    assert DeviceOk(w.history, a.dev, w.devices[a.dev]);
    if a.Decide? {
      DecideLeavesSidesEqual(w.history, a.dev, w.devices[a.dev], a.saves);
    }
  }
}
