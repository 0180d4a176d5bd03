/**
 Shared projects as a transition system (internal/sync/projects.go): one project,
 its versioned vault on the server, any number of member devices, and every
 network fault.

 A project's vault is sealed under a data key that members hold wrapped to their
 identity, and that removing a member replaces. Like the personal vault it is
 written by compare-and-swap; unlike it, a device can lose the key, and a rotation
 re-seals the vault under a new one.
 */
module ProjectMachine {
  import opened Common
  import Personal = SyncMachine

  type Payload = Personal.Payload
  type Fingerprint = Personal.Fingerprint
  type Key = nat
  type User = nat

  function Sha(p: Payload): Fingerprint { Personal.Sha256(p) }

  /** A payload sealed under a key: it opens with that key and no other. */
  datatype Sealed = Sealed(payload: Payload, key: Key)

  datatype Remote = Remote(payload: Payload, version: nat)

  /** Why a device decided to write. */
  datatype Cause = Created | LastAgreed | UserChoseLocal | Resealed

  /** One stored version of the vault: version v is history[v - 1]. */
  datatype Version = Version(blob: Sealed, author: nat, cause: Cause, rekeyed: bool)

  /** The persisted bookkeeping; the wrapped key is named by the key it unwraps to. */
  datatype Book = Book(version: nat, fingerprint: Fingerprint, wrapped: Option<Key>)

  datatype Fault = SessionExpired | NotFound | Unreachable | CryptoFailed | KeyMissing

  datatype Reply =
    | Gone
    | NoWrappedKey
    | Vault(version: nat, blob: Sealed, unwrapped: Option<Key>)
    | GetFault(fault: Fault)

  datatype PutReply = PutOk(version: nat) | PutConflict | PutGone | PutFault(fault: Fault)

  /** Whom a new key is wrapped to, in order, and whether the caller is among them. */
  datatype Wraps = Wraps(users: seq<User>, selfKeyed: bool)

  datatype Call =
    | NoCall
    | SyncCall(local: Option<Payload>)
    | PushCall(given: Payload)
    | ResolveCall(keepLocal: bool, given: Payload)
    | RemoveCall(given: Payload, newKey: Key, wraps: Wraps)

  datatype Phase =
    | Idle
    | Fetching
    | Fetched(got: Reply)
    | Pushing(expected: nat, blob: Sealed, cause: Cause)
    | Answered(expected: nat, blob: Sealed, cause: Cause, put: PutReply)
    | Refetching(blob: Sealed)
    | Refetched(blob: Sealed, got: Reply)

  datatype State =
    | UpToDate(version: nat)
    | Pushed(version: nat)
    | Pulled(version: nat)
    | InConflict(version: nat, localHosts: nat, remoteHosts: nat)
    | NotSaved

  datatype Outcome =
    | Nothing                               // no call yet, or nothing left to resolve
    | Awaiting                              // no key that opens the vault
    | Shown(payload: Payload, state: State) // what a pass has the user look at
    | OpPushed(payload: Payload, version: nat)
    | OpAdopted(payload: Payload, version: nat)
    | OpConflict
    | Removed
    | Failed(fault: Fault)

  datatype Device = Device(
    book: Option<Book>,
    key: Option<Key>,
    pending: Option<Remote>,
    cache: Option<Sealed>,
    phase: Phase,
    call: Call,
    puts: nat,
    outcome: Outcome)

  /** A key handed to a member, asserted to open that version. */
  datatype Grant = Grant(user: User, key: Key, version: nat)

  datatype World = World(history: seq<Version>, devices: seq<Device>, drawn: set<Key>, grants: seq<Grant>)

  datatype Action =
    | BeginSync(dev: nat, local: Option<Payload>, awaiting: bool)
    | BeginPush(dev: nat, given: Payload, seals: bool)
    | BeginResolve(dev: nat, keepLocal: bool, given: Payload, seals: bool)
    | BeginRemove(dev: nat, given: Payload, newKey: Key, wraps: Wraps)
    | Get(dev: nat, trouble: Option<Reply>, unwrapped: Option<Key>)
    | Decide(dev: nat, seals: bool)
    | Put(dev: nat, fault: Option<PutReply>, reachesServer: bool)
    | Settle(dev: nat)
    | GrantKey(dev: nat, user: User, reachesServer: bool)
    | Load(dev: nat)
    | Drop(dev: nat)
    | Forget(dev: nat, keepsPending: bool)
    | Restart(dev: nat)

  // ---------------------------------------------------------------------------
  // What one device does
  // ---------------------------------------------------------------------------

  /** The bookkeeping, which for an unknown project is the zero value. */
  function BookOf(d: Device): Book {
    if d.book.Some? then d.book.value else Book(0, Personal.NoFingerprint, None)
  }

  function Finish(d: Device, o: Outcome): Device {
    d.(phase := Idle, outcome := o)
  }

  function Agree(d: Device, version: nat, p: Payload): Device {
    d.(book := Some(BookOf(d).(version := version, fingerprint := Sha(p))))
  }

  /** The project cannot be read for now; nothing but its key is forgotten. */
  function Await(d: Device): Device {
    Finish(d.(key := None, book := Some(BookOf(d))), Awaiting)
  }

  function Dropped(d: Device): Device {
    d.(book := None, key := None, pending := None, cache := None)
  }

  function AskUser(d: Device, local: Payload, remote: Payload, version: nat): Device {
    Finish(d.(pending := Some(Remote(remote, version))),
           Shown(local, InConflict(version, Personal.CountHosts(local), Personal.CountHosts(remote))))
  }

  /** Local-changed by remote-moved, once the vault is open. */
  function Weigh(d: Device, local: Option<Payload>, version: nat, blob: Sealed, seals: bool): Device {
    var localChanged := local.Some? && Sha(local.value) != BookOf(d).fingerprint;
    var remoteMoved := version != BookOf(d).version;
    if localChanged && !remoteMoved then
      if seals then d.(phase := Pushing(version, Sealed(local.value, blob.key), LastAgreed))
      else Finish(d, Shown(local.value, NotSaved))
    else if localChanged then
      if local.value == blob.payload then Finish(Agree(d, version, blob.payload), Shown(blob.payload, UpToDate(version)))
      else AskUser(d, local.value, blob.payload, version)
    else if remoteMoved || local.None? then
      Finish(Agree(d, version, blob.payload), Shown(blob.payload, Pulled(version)))
    else
      Finish(Agree(d, version, blob.payload), Shown(blob.payload, UpToDate(version)))
  }

  /** The vault as read: cached whether or not it opens. */
  function Opened(d: Device, blob: Sealed, key: Key): Device {
    d.(cache := Some(blob), book := Some(BookOf(d).(wrapped := Some(key))), key := Some(key))
  }

  function AfterGet(d: Device, seals: bool): Device
    requires d.phase.Fetched? && d.call.SyncCall?
  {
    match d.phase.got
    case Gone => Finish(Dropped(d), Removed)
    case GetFault(f) => Finish(d, Failed(f))
    case NoWrappedKey => Await(d)
    case Vault(version, blob, unwrapped) =>
      if unwrapped.None? then Await(d)
      else if unwrapped.value != blob.key then Await(Opened(d, blob, unwrapped.value))
      else Weigh(Opened(d, blob, blob.key), d.call.local, version, blob, seals)
  }

  function AfterPut(d: Device): Device
    requires d.phase.Answered? && !d.call.NoCall?
    requires d.call.SyncCall? ==> d.call.local.Some?
  {
    var Answered(expected, blob, cause, put) := d.phase;
    match put
    case PutOk(v) =>
      var agreed := Agree(d.(cache := Some(blob)), v, blob.payload);
      (match d.call
       case SyncCall(_) => Finish(agreed, Shown(blob.payload, Pushed(v)))
       case ResolveCall(_, _) => Finish(agreed.(pending := None), OpPushed(blob.payload, v))
       case RemoveCall(_, newKey, wraps) =>
         var rekeyed := agreed.(key := Some(newKey));
         Finish(if wraps.selfKeyed then rekeyed.(book := Some(BookOf(rekeyed).(wrapped := Some(newKey)))) else rekeyed,
                OpPushed(blob.payload, v))
       case _ => Finish(agreed, OpPushed(blob.payload, v)))
    case PutConflict =>
      (match d.call
       case SyncCall(_) => d.(phase := Refetching(blob))
       case ResolveCall(_, _) => Finish(d.(pending := None), OpConflict)
       case RemoveCall(_, _, _) => if cause == LastAgreed then d.(phase := Refetching(blob)) else Finish(d, OpConflict)
       case _ => Finish(d, OpConflict))
    case PutGone =>
      if d.call.PushCall? then Finish(Dropped(d), Removed)
      else if d.call.SyncCall? then Finish(d, Shown(d.call.local.value, NotSaved))
      else Finish(d, Failed(NotFound))
    case PutFault(f) =>
      if d.call.SyncCall? && f != SessionExpired then Finish(d, Shown(d.call.local.value, NotSaved))
      else Finish(d, Failed(f))
  }

  /** After a lost race: a pass settles for the same content or asks; a rotation re-seals what it now read. */
  function AfterRefetch(d: Device, seals: bool): Device
    requires d.phase.Refetched? && (d.call.SyncCall? || d.call.RemoveCall?)
    requires d.call.SyncCall? ==> d.call.local.Some?
  {
    var Refetched(blob, got) := d.phase;
    if d.call.SyncCall? then
      var local := d.call.local.value;
      if !got.Vault? || got.blob.key != blob.key then Finish(d, Shown(local, NotSaved))
      else if local == got.blob.payload then
        Finish(Agree(d, got.version, local), Shown(local, UpToDate(got.version)))
      else AskUser(d, local, got.blob.payload, got.version)
    else if got.Vault? && got.unwrapped == Some(got.blob.key) && seals then
      d.(phase := Pushing(got.version, Sealed(got.blob.payload, d.call.newKey), Resealed))
    else Finish(d, OpConflict)
  }

  function Begin(d: Device, a: Action): Device
    requires a.BeginSync? || a.BeginPush? || a.BeginResolve? || a.BeginRemove?
  {
    match a
    case BeginSync(_, local, awaiting) =>
      var d := d.(call := SyncCall(local), puts := 0);
      if awaiting then Await(d) else d.(phase := Fetching)
    case BeginPush(_, given, seals) =>
      var d := d.(call := PushCall(given), puts := 0);
      if d.key.None? then Finish(d, Failed(KeyMissing))
      else if !seals then Finish(d, Failed(CryptoFailed))
      else d.(phase := Pushing(BookOf(d).version, Sealed(given, d.key.value), LastAgreed))
    case BeginResolve(_, keepLocal, given, seals) =>
      var d := d.(call := ResolveCall(keepLocal, given), puts := 0);
      if d.pending.None? then Finish(d, Nothing)
      else if !keepLocal then
        var remote := d.pending.value;
        Finish(Agree(d, remote.version, remote.payload).(pending := None), OpAdopted(remote.payload, remote.version))
      else if d.key.None? then Finish(d, Failed(KeyMissing))
      else if !seals then Finish(d, Failed(CryptoFailed))
      else d.(phase := Pushing(d.pending.value.version, Sealed(given, d.key.value), UserChoseLocal))
    case BeginRemove(_, given, newKey, wraps) =>
      d.(call := RemoveCall(given, newKey, wraps), puts := 0,
         phase := Pushing(BookOf(d).version, Sealed(given, newKey), LastAgreed))
  }

  /** The cached blob, if the persisted wrapped key opens it, lends its key before any sync. */
  function Loaded(d: Device): Device {
    if d.book.Some? && d.cache.Some? && d.book.value.wrapped == Some(d.cache.value.key)
    then d.(key := Some(d.cache.value.key)) else d
  }

  // ---------------------------------------------------------------------------
  // Steps
  // ---------------------------------------------------------------------------

  predicate Lands(w: World, a: Action)
    requires a.Put? && a.dev < |w.devices| && w.devices[a.dev].phase.Pushing?
  {
    a.reachesServer && w.devices[a.dev].phase.expected == |w.history|
  }

  /** Whether handing out a key succeeds: the server still has the version it is asserted to open. */
  predicate GrantLands(w: World, a: Action)
    requires a.GrantKey? && a.dev < |w.devices|
  {
    a.reachesServer && w.devices[a.dev].book.Some? && w.devices[a.dev].book.value.version == |w.history|
  }

  predicate Enabled(w: World, a: Action) {
    && w.history != [] && a.dev < |w.devices|
    && var d := w.devices[a.dev];
       match a
       case BeginSync(_, _, _) => d.phase.Idle?
       case BeginPush(_, _, _) => d.phase.Idle?
       case BeginResolve(_, _, _, _) => d.phase.Idle?
       case BeginRemove(_, _, newKey, _) => d.phase.Idle? && newKey !in w.drawn
       case Get(_, trouble, _) =>
         (d.phase.Fetching? || d.phase.Refetching?) && (trouble.Some? ==> !trouble.value.Vault?)
       case Decide(_, _) =>
         (d.phase.Fetched? && d.call.SyncCall?) ||
         (d.phase.Refetched? && (d.call.RemoveCall? || (d.call.SyncCall? && d.call.local.Some?)))
       case Put(_, fault, reaches) =>
         d.phase.Pushing? && (fault.None? ==> reaches) &&
         (fault.Some? ==> !fault.value.PutOk? && !fault.value.PutConflict?)
       case Settle(_) => d.phase.Answered? && !d.call.NoCall? && (d.call.SyncCall? ==> d.call.local.Some?)
       case GrantKey(_, _, _) => d.phase.Idle? && d.key.Some?
       case Load(_) => d.phase.Idle?
       case Drop(_) => d.phase.Idle?
       case Forget(_, _) => d.phase.Idle?
       case Restart(_) => d.phase.Idle?
  }

  function ReadServer(h: seq<Version>, trouble: Option<Reply>, unwrapped: Option<Key>): Reply
    requires h != []
  {
    if trouble.Some? then trouble.value else Vault(|h|, Last(h).blob, unwrapped)
  }

  function StepDevice(w: World, a: Action): Device
    requires Enabled(w, a)
  {
    var d := w.devices[a.dev];
    match a
    case Get(_, trouble, unwrapped) =>
      var got := ReadServer(w.history, trouble, unwrapped);
      d.(phase := if d.phase.Fetching? then Fetched(got) else Refetched(d.phase.blob, got))
    case Decide(_, seals) => if d.phase.Fetched? then AfterGet(d, seals) else AfterRefetch(d, seals)
    case Put(_, fault, _) =>
      var put := if fault.Some? then fault.value
                 else if Lands(w, a) then PutOk(|w.history| + 1) else PutConflict;
      d.(puts := d.puts + 1, phase := Answered(d.phase.expected, d.phase.blob, d.phase.cause, put))
    case Settle(_) => AfterPut(d)
    case GrantKey(_, _, _) => d
    case Load(_) => Loaded(d)
    case Drop(_) => Dropped(d)
    case Forget(_, keepsPending) => d.(book := None, pending := if keepsPending then d.pending else None)
    case Restart(_) => d.(key := None, pending := None)
    case _ => Begin(d, a)
  }

  /** The keys a step hands out: one to a waiting member, or with a rotation one to everybody it was wrapped to. */
  function NewGrants(w: World, a: Action): seq<Grant>
    requires Enabled(w, a)
  {
    var d := w.devices[a.dev];
    if a.GrantKey? && GrantLands(w, a) then [Grant(a.user, d.key.value, d.book.value.version)]
    else if a.Put? && Lands(w, a) && d.call.RemoveCall? then
      seq(|d.call.wraps.users|, i requires 0 <= i < |d.call.wraps.users| =>
            Grant(d.call.wraps.users[i], d.phase.blob.key, |w.history| + 1))
    else []
  }

  function Step(w: World, a: Action): (w': World)
    requires Enabled(w, a)
    ensures |w'.devices| == |w.devices| && w.history <= w'.history && w'.history != []
    ensures forall i | 0 <= i < |w.devices| && i != a.dev :: w'.devices[i] == w.devices[i]
  {
    var d := w.devices[a.dev];
    World(
      if a.Put? && Lands(w, a)
        then w.history + [Version(d.phase.blob, a.dev, d.phase.cause, d.call.RemoveCall?)] else w.history,
      w.devices[a.dev := StepDevice(w, a)],
      if a.BeginRemove? then w.drawn + {a.newKey} else w.drawn,
      w.grants + NewGrants(w, a))
  }

  // ---------------------------------------------------------------------------
  // Runs
  // ---------------------------------------------------------------------------

  const NewDevice := Device(None, None, None, None, Idle, NoCall, 0, Nothing)

  /** What the device that created the project knows, if the server's answer reached it. */
  function Creator(p: Payload, key: Key): Device {
    NewDevice.(book := Some(Book(1, Sha(p), Some(key))), key := Some(key), cache := Some(Sealed(p, key)))
  }

  /** A project just created with this document under this key. */
  function Start(devices: nat, creator: nat, told: bool, p: Payload, key: Key): World {
    World([Version(Sealed(p, key), creator, Created, true)],
          seq(devices, i => if i == creator && told then Creator(p, key) else NewDevice),
          {key}, [])
  }

  predicate CanRun(w: World, acts: seq<Action>)
    decreases |acts|, 0
  {
    acts == [] ||
    (CanRun(w, acts[..|acts| - 1]) && Enabled(Run(w, acts[..|acts| - 1]), Last(acts)))
  }

  function Run(w: World, acts: seq<Action>): (w': World)
    requires CanRun(w, acts)
    ensures |w'.devices| == |w.devices|
    ensures w.history <= w'.history
    decreases |acts|, 1
  {
    if acts == [] then w else Step(Run(w, acts[..|acts| - 1]), Last(acts))
  }

  lemma RunExtend(w: World, acts: seq<Action>, a: Action)
    requires CanRun(w, acts) && Enabled(Run(w, acts), a)
    ensures CanRun(w, acts + [a]) && Run(w, acts + [a]) == Step(Run(w, acts), a)
  {
    assert (acts + [a])[..|acts|] == acts;
  }

  // ---------------------------------------------------------------------------
  // Undisturbed calls
  // ---------------------------------------------------------------------------

  /** A device that is in the middle of a call is in one that has such a middle. */
  predicate Coherent(d: Device) {
    match d.phase
    case Idle => true
    case Fetching => d.call.SyncCall?
    case Fetched(_) => d.call.SyncCall?
    case Pushing(_, _, cause) => !d.call.NoCall? && (d.call.SyncCall? ==> d.call.local.Some? && cause == LastAgreed)
    case Answered(_, _, cause, _) => !d.call.NoCall? && (d.call.SyncCall? ==> d.call.local.Some? && cause == LastAgreed)
    case Refetching(_) => d.call.RemoveCall? || (d.call.SyncCall? && d.call.local.Some?)
    case Refetched(_, _) => d.call.RemoveCall? || (d.call.SyncCall? && d.call.local.Some?)
  }

  /** How many more steps of its own a call can take. */
  function Rank(d: Device): nat {
    match d.phase
    case Idle => 0
    case Fetching => 8
    case Fetched(_) => 7
    case Pushing(_, _, cause) => if cause == Resealed then 2 else 6
    case Answered(_, _, cause, _) => if cause == Resealed then 1 else 5
    case Refetching(_) => 4
    case Refetched(_, _) => 3
  }

  /** The step a call takes next when nothing goes wrong: the caller's wrapped key opens the vault, too. */
  function QuietStep(w: World, dev: nat): Action
    requires w.history != [] && dev < |w.devices| && !w.devices[dev].phase.Idle?
  {
    match w.devices[dev].phase
    case Fetching => Get(dev, None, Some(Last(w.history).blob.key))
    case Refetching(_) => Get(dev, None, Some(Last(w.history).blob.key))
    case Fetched(_) => Decide(dev, true)
    case Refetched(_, _) => Decide(dev, true)
    case Pushing(_, _, _) => Put(dev, None, true)
    case _ => Settle(dev)
  }

  predicate IsCallStep(a: Action) {
    a.Get? || a.Decide? || a.Put? || a.Settle?
  }

  /** Every step of a call brings it nearer its end, whatever other devices do, and leaves it coherent. */
  lemma CallStepsCountDown(w: World, a: Action)
    requires Enabled(w, a) && IsCallStep(a) && Coherent(w.devices[a.dev])
    ensures Rank(Step(w, a).devices[a.dev]) < Rank(w.devices[a.dev]) && Coherent(Step(w, a).devices[a.dev])
  {
  }

  lemma QuietStepEnabled(w: World, dev: nat)
    requires w.history != [] && dev < |w.devices| && Coherent(w.devices[dev]) && !w.devices[dev].phase.Idle?
    ensures Enabled(w, QuietStep(w, dev)) && IsCallStep(QuietStep(w, dev)) && QuietStep(w, dev).dev == dev
  {
  }

  /** A call run to its end with no fault and no other device in between. */
  function Finished(w: World, dev: nat): (w': World)
    requires w.history != [] && dev < |w.devices| && Coherent(w.devices[dev])
    ensures w'.history != [] && |w'.devices| == |w.devices| && w'.devices[dev].phase.Idle?
    decreases Rank(w.devices[dev])
  {
    if w.devices[dev].phase.Idle? then w
    else
      QuietStepEnabled(w, dev);
      CallStepsCountDown(w, QuietStep(w, dev));
      Finished(Step(w, QuietStep(w, dev)), dev)
  }

  /** Its next step does not change where it ends. */
  lemma FinishedUnfolds(w: World, dev: nat)
    requires w.history != [] && dev < |w.devices| && Coherent(w.devices[dev]) && !w.devices[dev].phase.Idle?
    ensures var a := QuietStep(w, dev);
            Enabled(w, a) && Coherent(Step(w, a).devices[dev]) && Finished(w, dev) == Finished(Step(w, a), dev)
  {
    QuietStepEnabled(w, dev);
    CallStepsCountDown(w, QuietStep(w, dev));
  }
}
