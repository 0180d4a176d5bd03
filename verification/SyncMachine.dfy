/**
 The personal-vault sync protocol as a transition system: any number of devices,
 one server that stores a versioned blob and accepts a write only against the
 version it currently holds, and every network fault.

 A device performs one engine call at a time (the engine's mutex), but a call is
 several steps, and steps of different devices interleave freely: in particular
 other devices' writes fall between a device's read and its write.
 */
module SyncMachine {
  import opened Common

  /** A vault payload. Unreadable stands for the empty and the unparsable one. */
  datatype Payload = Document(hosts: seq<string>, rest: string) | Unreadable(text: string)

  /** SHA-256 of a payload, taken to be injective. A fresh session has none. */
  datatype Fingerprint = NoFingerprint | Sha256(of: Payload)

  function CountHosts(p: Payload): nat {
    if p.Document? then |p.hosts| else 0
  }

  datatype Session = Session(version: nat, fingerprint: Fingerprint)

  datatype Remote = Remote(payload: Payload, version: nat)

  datatype Fault = SessionExpired | EmailNotVerified | Unreachable

  datatype Error = VaultConflict | Network | BlobUnopened | BlobUnread | SessionUnsaved

  datatype Result =
    | SignedOut
    | SessionDead
    | EmailUnverified
    | Failed(error: Error)
    | Conflict(localHosts: nat, remoteHosts: nat, remoteVersion: nat)
    | Adopt(payload: Payload, version: nat)
    | Pushed(version: nat)
    | InSync(version: nat)

  /** Why a device decided to write. */
  datatype Cause = NoRemote | RemoteUnmoved | RemoteEmpty | UserChoseLocal

  datatype GetReply =
    | NoVault
    | Vault(remote: Remote, opens: bool)
    | GetFault(fault: Fault)

  datatype PutReply =
    | PutOk(version: nat)
    | PutConflict
    | PutFault(fault: Fault)

  datatype Phase =
    | Idle
    | Fetching(payload: Payload, retry: bool)
    | Fetched(payload: Payload, retry: bool, got: GetReply)
    | Pushing(payload: Payload, retry: bool, expected: nat, cause: Cause)
    | Answered(payload: Payload, retry: bool, expected: nat, cause: Cause, put: PutReply)

  /** The engine call a device is in, or was last in. */
  datatype Call = NoCall | SyncCall(given: Payload) | ResolveCall(keepLocal: bool, given: Payload)

  datatype Device = Device(
    session: Option<Session>,
    pending: Option<Remote>,
    phase: Phase,
    call: Call,
    puts: nat,        // write attempts made by that call
    outcome: Result)  // what that call returned, once the phase is Idle

  /** One stored version of the vault: version v is history[v - 1]. */
  datatype Version = Version(payload: Payload, author: nat, cause: Cause)

  datatype World = World(history: seq<Version>, devices: seq<Device>)

  datatype Action =
    | Pair(dev: nat)
    | Attach(dev: nat, version: nat)
    | SignOut(dev: nat)
    | BeginSync(dev: nat, given: Payload)
    | BeginResolve(dev: nat, keepLocal: bool, given: Payload)
    | Get(dev: nat, fault: Option<Fault>, opens: bool)
    | Decide(dev: nat, saves: bool)
    | ReadFails(dev: nat)
    | Put(dev: nat, fault: Option<Fault>, reachesServer: bool)
    | Settle(dev: nat, saves: bool)
    | CommitAdopt(dev: nat, version: nat)

  // ---------------------------------------------------------------------------
  // Steps
  // ---------------------------------------------------------------------------

  /** What one evaluation pass concludes from the remote vault it read. */
  datatype Verdict = NothingToDo | Unopened | RecordAgreement | Upload(cause: Cause) | TakeRemote | AskUser

  function Judge(s: Session, local: Payload, remote: Remote, opens: bool): Verdict {
    var localChanged := Sha256(local) != s.fingerprint;
    var remoteMoved := remote.version != s.version;
    if !remoteMoved then (if localChanged then Upload(RemoteUnmoved) else NothingToDo)
    else if !opens then Unopened
    else if remote.payload == local then RecordAgreement
    else if !localChanged || CountHosts(local) == 0 then TakeRemote
    else if CountHosts(remote.payload) == 0 then Upload(RemoteEmpty)
    else AskUser
  }

  function Finish(d: Device, r: Result): Device {
    d.(phase := Idle, outcome := r)
  }

  function Fail(d: Device, f: Fault): Device {
    match f
    case EmailNotVerified => Finish(d, EmailUnverified)
    case SessionExpired => Finish(d.(session := None, pending := None), SessionDead)
    case Unreachable => Finish(d, Failed(Network))
  }

  function Agree(d: Device, version: nat, p: Payload): Device {
    d.(session := Some(Session(version, Sha256(p))))
  }

  /** Acts on the verdict of a pass that read `remote`. */
  function Conclude(d: Device, payload: Payload, retry: bool, remote: Remote, verdict: Verdict, saves: bool): Device {
    match verdict
    case NothingToDo => Finish(d, InSync(remote.version))
    case Unopened => Finish(d, Failed(BlobUnopened))
    case RecordAgreement =>
      Finish(Agree(d, remote.version, payload), if saves then InSync(remote.version) else Failed(SessionUnsaved))
    case Upload(cause) => d.(phase := Pushing(payload, retry, remote.version, cause))
    case TakeRemote => Finish(d, Adopt(remote.payload, remote.version))
    case AskUser =>
      Finish(d.(pending := Some(remote)),
             Conflict(CountHosts(payload), CountHosts(remote.payload), remote.version))
  }

  function AfterGet(d: Device, saves: bool): Device
    requires d.session.Some? && d.phase.Fetched?
  {
    var Fetched(payload, retry, got) := d.phase;
    match got
    case NoVault =>
      if CountHosts(payload) == 0 then Finish(d, InSync(0))
      else d.(phase := Pushing(payload, retry, 0, NoRemote))
    case GetFault(f) => Fail(d, f)
    case Vault(remote, opens) =>
      Conclude(d, payload, retry, remote, Judge(d.session.value, payload, remote, opens), saves)
  }

  function AfterPut(d: Device, saves: bool): Device
    requires d.session.Some? && d.phase.Answered?
  {
    var Answered(payload, retry, expected, cause, put) := d.phase;
    match put
    case PutFault(f) => Fail(d, f)
    case PutConflict =>
      if cause == UserChoseLocal then d.(pending := None, phase := Fetching(payload, true))
      else if retry then d.(phase := Fetching(payload, false))
      else Finish(d, Failed(VaultConflict))
    case PutOk(v) =>
      var agreed := Agree(d, v, payload);
      if saves then Finish(agreed.(pending := None), Pushed(v))
      else Finish(agreed, Failed(SessionUnsaved))
  }

  /** The reply to a read: the newest version, or the fault that hit it. */
  function ReadServer(h: seq<Version>, fault: Option<Fault>, opens: bool): GetReply {
    if fault.Some? then GetFault(fault.value)
    else if h == [] then NoVault
    else Vault(Remote(Last(h).payload, |h|), opens)
  }

  /** Whether a write lands: it reached the server, which holds exactly the expected version. */
  predicate Lands(w: World, a: Action)
    requires a.Put? && a.dev < |w.devices| && w.devices[a.dev].phase.Pushing?
  {
    a.reachesServer && w.devices[a.dev].phase.expected == |w.history|
  }

  predicate Enabled(w: World, a: Action) {
    && a.dev < |w.devices|
    && var d := w.devices[a.dev];
       match a
       case Pair(_) => d.phase.Idle?
       case Attach(_, v) => d.phase.Idle? && 0 < v <= |w.history|
       case SignOut(_) => d.phase.Idle?
       case BeginSync(_, _) => d.phase.Idle?
       case BeginResolve(_, _, _) => d.phase.Idle?
       case Get(_, _, _) => d.session.Some? && d.phase.Fetching?
       case Decide(_, _) => d.session.Some? && d.phase.Fetched?
       case ReadFails(_) => d.session.Some? && d.phase.Pushing?
       case Put(_, fault, reaches) => d.session.Some? && d.phase.Pushing? && (fault.None? ==> reaches)
       case Settle(_, _) => d.session.Some? && d.phase.Answered?
       case CommitAdopt(_, v) => d.phase.Idle? && 0 < v <= |w.history|
  }

  function Begin(d: Device, call: Call): Device
    requires call != NoCall
  {
    var d := d.(call := call, puts := 0);
    if d.session.None? then Finish(d, SignedOut)
    else if call.SyncCall? || d.pending.None? then d.(phase := Fetching(call.given, true))
    else if call.keepLocal then d.(phase := Pushing(call.given, false, d.pending.value.version, UserChoseLocal))
    else Finish(d, Adopt(d.pending.value.payload, d.pending.value.version))
  }

  function StepDevice(w: World, a: Action): Device
    requires Enabled(w, a)
  {
    var d := w.devices[a.dev];
    match a
    case Pair(_) => d.(session := Some(Session(0, NoFingerprint)))
    case Attach(_, v) => Agree(d, v, w.history[v - 1].payload)
    case SignOut(_) => d.(session := None, pending := None)
    case BeginSync(_, p) => Begin(d, SyncCall(p))
    case BeginResolve(_, keep, p) => Begin(d, ResolveCall(keep, p))
    case Get(_, fault, opens) =>
      d.(phase := Fetched(d.phase.payload, d.phase.retry, ReadServer(w.history, fault, opens)))
    case Decide(_, saves) => AfterGet(d, saves)
    case ReadFails(_) => Finish(d, Failed(BlobUnread))
    case Put(_, fault, _) =>
      var put := if fault.Some? then PutFault(fault.value)
                 else if Lands(w, a) then PutOk(|w.history| + 1)
                 else PutConflict;
      d.(puts := d.puts + 1,
         phase := Answered(d.phase.payload, d.phase.retry, d.phase.expected, d.phase.cause, put))
    case Settle(_, saves) => AfterPut(d, saves)
    case CommitAdopt(_, v) =>
      if d.session.None? then d else Agree(d.(pending := None), v, w.history[v - 1].payload)
  }

  function Step(w: World, a: Action): (w': World)
    requires Enabled(w, a)
    ensures |w'.devices| == |w.devices|
    ensures w.history <= w'.history
    ensures forall i | 0 <= i < |w.devices| && i != a.dev :: w'.devices[i] == w.devices[i]
  {
    var devices := w.devices[a.dev := StepDevice(w, a)];
    if a.Put? && Lands(w, a) then
      var p := w.devices[a.dev].phase;
      World(w.history + [Version(p.payload, a.dev, p.cause)], devices)
    else
      World(w.history, devices)
  }

  // ---------------------------------------------------------------------------
  // Runs
  // ---------------------------------------------------------------------------

  const NewDevice := Device(None, None, Idle, NoCall, 0, SignedOut)

  function Start(devices: nat): World {
    World([], seq(devices, _ => NewDevice))
  }

  predicate CanRun(w: World, acts: seq<Action>)
    decreases |acts|, 0
  {
    acts == [] ||
    (CanRun(w, acts[..|acts| - 1]) && Enabled(Run(w, acts[..|acts| - 1]), Last(acts)))
  }

  /** The world after a sequence of steps, each enabled where it is taken. */
  function Run(w: World, acts: seq<Action>): (w': World)
    requires CanRun(w, acts)
    ensures |w'.devices| == |w.devices|
    ensures w.history <= w'.history
    decreases |acts|, 1
  {
    if acts == [] then w else Step(Run(w, acts[..|acts| - 1]), Last(acts))
  }

  lemma RunExtend(w: World, acts: seq<Action>, a: Action)
    requires CanRun(w, acts) && Enabled(Run(w, acts), a)
    ensures CanRun(w, acts + [a]) && Run(w, acts + [a]) == Step(Run(w, acts), a)
  {
    assert (acts + [a])[..|acts|] == acts;
  }

  // ---------------------------------------------------------------------------
  // Calls end
  // ---------------------------------------------------------------------------

  /** How many more steps of its own a device's call can take. */
  function Rank(p: Phase): nat {
    match p
    case Idle => 0
    case Fetching(_, retry) => if retry then 8 else 4
    case Fetched(_, retry, _) => if retry then 7 else 3
    case Pushing(_, retry, _, cause) => if cause == UserChoseLocal then 10 else if retry then 6 else 2
    case Answered(_, retry, _, cause, _) => if cause == UserChoseLocal then 9 else if retry then 5 else 1
  }

  predicate IsCallStep(a: Action) {
    a.Get? || a.Decide? || a.ReadFails? || a.Put? || a.Settle?
  }

  /** Every step of a call brings it closer to its end, however other devices interleave. */
  lemma CallStepsCountDown(w: World, a: Action)
    requires Enabled(w, a) && IsCallStep(a)
    ensures Rank(Step(w, a).devices[a.dev].phase) < Rank(w.devices[a.dev].phase)
  {
    if a.Decide? {
      var d := w.devices[a.dev];
      if d.phase.got.Vault? {
        var v := Judge(d.session.value, d.phase.payload, d.phase.got.remote, d.phase.got.opens);
        assert v.Upload? ==> v.cause != UserChoseLocal;
      }
    }
  }

  /** The step a call takes next when nothing goes wrong. */
  function QuietStep(dev: nat, p: Phase): Action
    requires !p.Idle?
  {
    match p
    case Fetching(_, _) => Get(dev, None, true)
    case Fetched(_, _, _) => Decide(dev, true)
    case Pushing(_, _, _, _) => Put(dev, None, true)
    case Answered(_, _, _, _, _) => Settle(dev, true)
  }

  /** A call run to its end with no fault and no other device in between. */
  function Finished(w: World, dev: nat): (w': World)
    requires dev < |w.devices| && (w.devices[dev].phase.Idle? || w.devices[dev].session.Some?)
    ensures |w'.devices| == |w.devices| && w'.devices[dev].phase.Idle?
    ensures forall i | 0 <= i < |w.devices| && i != dev :: w'.devices[i] == w.devices[i]
    decreases Rank(w.devices[dev].phase)
  {
    if w.devices[dev].phase.Idle? then w
    else
      var a := QuietStep(dev, w.devices[dev].phase);
      CallStepsCountDown(w, a);
      Finished(Step(w, a), dev)
  }

  /** The steps it takes. */
  function QuietSteps(w: World, dev: nat): seq<Action>
    requires dev < |w.devices| && (w.devices[dev].phase.Idle? || w.devices[dev].session.Some?)
    decreases Rank(w.devices[dev].phase)
  {
    if w.devices[dev].phase.Idle? then []
    else
      var a := QuietStep(dev, w.devices[dev].phase);
      CallStepsCountDown(w, a);
      [a] + QuietSteps(Step(w, a), dev)
  }

  lemma FinishedUnfolds(w: World, dev: nat)
    requires dev < |w.devices| && !w.devices[dev].phase.Idle? && w.devices[dev].session.Some?
    ensures var a := QuietStep(dev, w.devices[dev].phase);
            && Enabled(w, a)
            && (Step(w, a).devices[dev].phase.Idle? || Step(w, a).devices[dev].session.Some?)
            && Rank(Step(w, a).devices[dev].phase) < Rank(w.devices[dev].phase)
            && Finished(w, dev) == Finished(Step(w, a), dev)
            && QuietSteps(w, dev) == [a] + QuietSteps(Step(w, a), dev)
  {
    CallStepsCountDown(w, QuietStep(dev, w.devices[dev].phase));
  }

  lemma Regroup<T>(xs: seq<T>, x: T, ys: seq<T>, zs: seq<T>)
    requires zs == [x] + ys
    ensures xs + [x] + ys == xs + zs
  {
  }

  /** Finishing a call is a run of the machine. */
  lemma {:induction false} FinishedIsRun(w0: World, acts: seq<Action>, dev: nat)
    requires CanRun(w0, acts) && dev < |Run(w0, acts).devices|
    requires Run(w0, acts).devices[dev].phase.Idle? || Run(w0, acts).devices[dev].session.Some?
    ensures var w := Run(w0, acts);
            CanRun(w0, acts + QuietSteps(w, dev)) && Run(w0, acts + QuietSteps(w, dev)) == Finished(w, dev)
    decreases Rank(Run(w0, acts).devices[dev].phase)
  {
    FinishedFromHere(w0, acts, Run(w0, acts), dev);
  }

  lemma {:induction false} FinishedFromHere(w0: World, acts: seq<Action>, w: World, dev: nat)
    requires CanRun(w0, acts) && w == Run(w0, acts) && dev < |w.devices|
    requires w.devices[dev].phase.Idle? || w.devices[dev].session.Some?
    ensures CanRun(w0, acts + QuietSteps(w, dev)) && Run(w0, acts + QuietSteps(w, dev)) == Finished(w, dev)
    decreases Rank(w.devices[dev].phase)
  {
    if w.devices[dev].phase.Idle? {
      assert acts + QuietSteps(w, dev) == acts;
    } else {
      var a := QuietStep(dev, w.devices[dev].phase);
      FinishedUnfolds(w, dev);
      RunExtend(w0, acts, a);
      FinishedFromHere(w0, acts + [a], Step(w, a), dev);
      Regroup(acts, a, QuietSteps(Step(w, a), dev), QuietSteps(w, dev));
    }
  }
}
