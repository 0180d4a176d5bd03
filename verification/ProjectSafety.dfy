/**
 What every run of a project keeps, whatever the interleaving and the faults:
 the bookkeeping is true, no unseen version is overwritten, results are honest.
 */
module ProjectSafety {
  import opened Common
  import opened ProjectMachine
  import Personal = SyncMachine

  predicate Holds(h: seq<Version>, v: nat, p: Payload) {
    0 < v <= |h| && h[v - 1].blob.payload == p
  }

  ghost predicate Stored(h: seq<Version>, p: Payload) {
    exists v :: Holds(h, v, p)
  }

  predicate KeyedAt(h: seq<Version>, v: nat, k: Key) {
    0 < v <= |h| && h[v - 1].blob.key == k
  }

  /** The key opens some version no older than this one. */
  ghost predicate KeyFrom(h: seq<Version>, oldest: nat, k: Key) {
    exists v :: oldest <= v && KeyedAt(h, v, k)
  }

  /** The newest version this device would replace. */
  function Newest(d: Device): nat {
    var b := BookOf(d).version;
    if d.pending.Some? && d.pending.value.version > b then d.pending.value.version else b
  }

  predicate BookTrue(h: seq<Version>, b: Book) {
    if b.version == 0 then b.fingerprint == Personal.NoFingerprint
    else b.version <= |h| && b.fingerprint == Sha(h[b.version - 1].blob.payload)
  }

  // ---------------------------------------------------------------------------
  // The invariant
  // ---------------------------------------------------------------------------

  /** What a write in progress is: its content, its key and the version it is aimed at. */
  predicate TargetOk(h: seq<Version>, d: Device, expected: nat, blob: Sealed, cause: Cause) {
    match d.call
    case NoCall => false
    case SyncCall(local) =>
      && local == Some(blob.payload) && cause == LastAgreed && expected == BookOf(d).version
      && d.key == Some(blob.key) && d.cache.Some? && d.cache.value.key == blob.key
    case PushCall(given) =>
      given == blob.payload && cause == LastAgreed && expected == BookOf(d).version && d.key == Some(blob.key)
    case ResolveCall(keepLocal, given) =>
      && keepLocal && given == blob.payload && cause == UserChoseLocal && d.key == Some(blob.key)
      && d.pending.Some? && expected == d.pending.value.version
    case RemoveCall(given, newKey, _) =>
      && blob.key == newKey
      && ((cause == LastAgreed && given == blob.payload && expected == BookOf(d).version) ||
          (cause == Resealed && Holds(h, expected, blob.payload)))
  }

  predicate RetryOk(d: Device, blob: Sealed) {
    match d.call
    case SyncCall(local) =>
      local == Some(blob.payload) && d.key == Some(blob.key) && d.cache.Some? && d.cache.value.key == blob.key
    case RemoveCall(given, newKey, _) => blob.key == newKey
    case _ => false
  }

  predicate GotOk(h: seq<Version>, d: Device, got: Reply) {
    got.Vault? ==> 0 < got.version <= |h| && h[got.version - 1].blob == got.blob && Newest(d) <= got.version
  }

  predicate LandedOk(h: seq<Version>, i: nat, d: Device, expected: nat, blob: Sealed, cause: Cause, put: PutReply) {
    put.PutOk? ==>
      && put.version == expected + 1 <= |h| && Newest(d) <= put.version
      && h[expected] == Version(blob, i, cause, d.call.RemoveCall?)
      && (d.call.RemoveCall? && cause == Resealed ==> expected > 0)
  }

  ghost predicate StateOk(h: seq<Version>, i: nat, local: Option<Payload>, p: Payload, s: State) {
    match s
    case UpToDate(v) => local == Some(p) && Holds(h, v, p)
    case Pushed(v) => local == Some(p) && Holds(h, v, p) && h[v - 1].author == i
    case Pulled(v) => Holds(h, v, p) && (local.Some? ==> Stored(h, local.value))
    case InConflict(v, lh, rh) =>
      && local == Some(p) && 0 < v <= |h| && h[v - 1].blob.payload != p
      && lh == Personal.CountHosts(p) && rh == Personal.CountHosts(h[v - 1].blob.payload)
    case NotSaved => local == Some(p)
  }

  predicate PushedOk(h: seq<Version>, i: nat, call: Call, p: Payload, v: nat) {
    && Holds(h, v, p) && h[v - 1].author == i
    && match call
       case PushCall(given) => p == given
       case ResolveCall(keepLocal, given) => keepLocal && p == given
       case RemoveCall(given, newKey, _) =>
         && h[v - 1].rekeyed && h[v - 1].blob.key == newKey
         && (h[v - 1].cause == LastAgreed ==> p == given)
         && (h[v - 1].cause != LastAgreed ==> v >= 2 && h[v - 2].blob.payload == p)
       case _ => false
  }

  ghost predicate OutcomeOk(h: seq<Version>, i: nat, call: Call, o: Outcome) {
    match o
    case Shown(p, s) => call.SyncCall? && StateOk(h, i, call.local, p, s)
    case OpPushed(p, v) => PushedOk(h, i, call, p, v)
    case OpAdopted(p, v) => call.ResolveCall? && !call.keepLocal && Holds(h, v, p)
    case _ => true
  }

  function Budget(c: Call): nat { if c.RemoveCall? then 2 else 1 }

  ghost predicate PhaseOk(h: seq<Version>, i: nat, d: Device) {
    match d.phase
    case Idle => OutcomeOk(h, i, d.call, d.outcome) && d.puts <= Budget(d.call)
    case Fetching => d.call.SyncCall? && d.puts == 0
    case Fetched(got) => d.call.SyncCall? && d.puts == 0 && GotOk(h, d, got)
    case Pushing(expected, blob, cause) =>
      TargetOk(h, d, expected, blob, cause) && d.puts == (if cause == Resealed then 1 else 0)
    case Answered(expected, blob, cause, put) =>
      && TargetOk(h, d, expected, blob, cause) && d.puts == (if cause == Resealed then 2 else 1)
      && LandedOk(h, i, d, expected, blob, cause, put)
    case Refetching(blob) => RetryOk(d, blob) && d.puts == 1
    case Refetched(blob, got) => RetryOk(d, blob) && d.puts == 1 && GotOk(h, d, got)
  }

  ghost predicate HeldOk(h: seq<Version>, d: Device) {
    && BookTrue(h, BookOf(d))
    && (d.pending.Some? ==> Holds(h, d.pending.value.version, d.pending.value.payload))
    && (d.key.Some? ==> KeyFrom(h, Newest(d), d.key.value))
    && (d.cache.Some? ==> KeyFrom(h, Newest(d), d.cache.value.key))
  }

  ghost predicate DeviceOk(h: seq<Version>, i: nat, d: Device) {
    HeldOk(h, d) && PhaseOk(h, i, d)
  }

  ghost predicate Inv(w: World) {
    w.history != [] && forall i | 0 <= i < |w.devices| :: DeviceOk(w.history, i, w.devices[i])
  }

  // ---------------------------------------------------------------------------
  // The server only appends
  // ---------------------------------------------------------------------------

  lemma KeyFromStable(h: seq<Version>, h': seq<Version>, oldest: nat, k: Key)
    requires h <= h' && KeyFrom(h, oldest, k)
    ensures KeyFrom(h', oldest, k)
  {
    var v :| oldest <= v && KeyedAt(h, v, k);
    assert KeyedAt(h', v, k);
  }

  lemma KeyFromOlder(h: seq<Version>, newer: nat, oldest: nat, k: Key)
    requires KeyFrom(h, newer, k) && oldest <= newer
    ensures KeyFrom(h, oldest, k)
  {
    var v :| newer <= v && KeyedAt(h, v, k);
    assert oldest <= v;
  }

  lemma HeldOkStable(h: seq<Version>, h': seq<Version>, d: Device)
    requires h <= h' && HeldOk(h, d)
    ensures HeldOk(h', d)
  {
    if d.key.Some? {
      KeyFromStable(h, h', Newest(d), d.key.value);
    }
    if d.cache.Some? {
      KeyFromStable(h, h', Newest(d), d.cache.value.key);
    }
  }

  lemma OutcomeOkStable(h: seq<Version>, h': seq<Version>, i: nat, call: Call, o: Outcome)
    requires h <= h' && OutcomeOk(h, i, call, o)
    ensures OutcomeOk(h', i, call, o)
  {
    if o.Shown? && o.state.Pulled? && call.local.Some? {
      var v :| Holds(h, v, call.local.value);
      assert Holds(h', v, call.local.value);
    }
  }

  lemma DeviceOkStable(h: seq<Version>, h': seq<Version>, i: nat, d: Device)
    requires h <= h' && DeviceOk(h, i, d)
    ensures DeviceOk(h', i, d)
  {
    HeldOkStable(h, h', d);
    if d.phase.Idle? {
      OutcomeOkStable(h, h', i, d.call, d.outcome);
    }
  }

  // ---------------------------------------------------------------------------
  // Every step keeps the invariant
  // ---------------------------------------------------------------------------

  /** What is held stays true when it moves to a version that the held keys open. */
  lemma HeldAt(h: seq<Version>, d: Device, v: nat)
    requires BookTrue(h, BookOf(d)) && Newest(d) <= v
    requires d.pending.Some? ==> Holds(h, d.pending.value.version, d.pending.value.payload)
    requires d.key.Some? ==> KeyedAt(h, v, d.key.value)
    requires d.cache.Some? ==> KeyedAt(h, v, d.cache.value.key)
    ensures HeldOk(h, d)
  {
  }

  /** Forgetting, or going back to an older version, leaves what is held true. */
  lemma HeldLess(h: seq<Version>, d: Device, d': Device)
    requires HeldOk(h, d) && BookTrue(h, BookOf(d')) && Newest(d') <= Newest(d)
    requires d'.pending.Some? ==> d'.pending == d.pending
    requires d'.key.Some? ==> d'.key == d.key || (d.cache.Some? && d'.key.value == d.cache.value.key)
    requires d'.cache.Some? ==> d'.cache == d.cache
    ensures HeldOk(h, d')
  {
    if d'.key.Some? {
      KeyFromOlder(h, Newest(d), Newest(d'), d'.key.value);
    }
    if d'.cache.Some? {
      KeyFromOlder(h, Newest(d), Newest(d'), d'.cache.value.key);
    }
  }

  predicate IsBegin(a: Action) {
    a.BeginSync? || a.BeginPush? || a.BeginResolve? || a.BeginRemove?
  }

  lemma BeginHeld(h: seq<Version>, d: Device, a: Action)
    requires HeldOk(h, d) && IsBegin(a)
    ensures HeldOk(h, Begin(d, a))
  {
    HeldLess(h, d, Begin(d, a));
  }

  lemma BeginOk(h: seq<Version>, i: nat, d: Device, a: Action)
    requires DeviceOk(h, i, d) && d.phase.Idle? && IsBegin(a)
    ensures DeviceOk(h, i, Begin(d, a))
  {
    BeginHeld(h, d, a);
  }

  lemma WeighHeld(h: seq<Version>, d: Device, version: nat, blob: Sealed, seals: bool)
    requires HeldOk(h, d) && d.call.SyncCall? && d.book.Some?
    requires d.key == Some(blob.key) && d.cache == Some(blob)
    requires 0 < version <= |h| && h[version - 1].blob == blob && Newest(d) <= version
    ensures HeldOk(h, Weigh(d, d.call.local, version, blob, seals))
  {
    HeldAt(h, Weigh(d, d.call.local, version, blob, seals), version);
  }

  lemma WeighOk(h: seq<Version>, i: nat, d: Device, version: nat, blob: Sealed, seals: bool)
    requires HeldOk(h, d) && d.call.SyncCall? && d.puts == 0 && d.book.Some?
    requires d.key == Some(blob.key) && d.cache == Some(blob)
    requires 0 < version <= |h| && h[version - 1].blob == blob && Newest(d) <= version
    ensures DeviceOk(h, i, Weigh(d, d.call.local, version, blob, seals))
  {
    WeighHeld(h, d, version, blob, seals);
    if d.call.local.Some? && Sha(d.call.local.value) == BookOf(d).fingerprint {
      assert Holds(h, BookOf(d).version, d.call.local.value);
    }
  }

  lemma OpenedOk(h: seq<Version>, i: nat, d: Device, version: nat, blob: Sealed, key: Key)
    requires HeldOk(h, d) && 0 < version <= |h| && h[version - 1].blob == blob && Newest(d) <= version
    ensures key == blob.key ==> HeldOk(h, Opened(d, blob, key))
    ensures d.call.SyncCall? && d.puts == 0 ==> DeviceOk(h, i, Await(Opened(d, blob, key)))
  {
    assert KeyedAt(h, version, blob.key);
    if key == blob.key {
      HeldAt(h, Opened(d, blob, key), version);
    }
    HeldAt(h, Await(Opened(d, blob, key)), version);
  }

  lemma AfterGetOk(h: seq<Version>, i: nat, d: Device, seals: bool)
    requires DeviceOk(h, i, d) && d.phase.Fetched?
    ensures DeviceOk(h, i, AfterGet(d, seals))
  {
    if d.phase.got.Vault? && d.phase.got.unwrapped.Some? {
      var Vault(version, blob, unwrapped) := d.phase.got;
      OpenedOk(h, i, d, version, blob, unwrapped.value);
      if unwrapped.value == blob.key {
        WeighOk(h, i, Opened(d, blob, blob.key), version, blob, seals);
      }
    } else {
      HeldLess(h, d, AfterGet(d, seals));
    }
  }

  lemma AfterRefetchOk(h: seq<Version>, i: nat, d: Device, seals: bool)
    requires DeviceOk(h, i, d) && d.phase.Refetched?
    ensures DeviceOk(h, i, AfterRefetch(d, seals))
  {
    var d' := AfterRefetch(d, seals);
    if d.call.SyncCall? && d.phase.got.Vault? && d.phase.got.blob.key == d.phase.blob.key {
      assert KeyedAt(h, d.phase.got.version, d.phase.blob.key);
      HeldAt(h, d', d.phase.got.version);
    } else {
      HeldLess(h, d, d');
    }
  }

  lemma LandingHeld(h: seq<Version>, i: nat, d: Device)
    requires DeviceOk(h, i, d) && d.phase.Answered? && d.phase.put.PutOk?
    ensures HeldOk(h, AfterPut(d))
  {
    assert KeyedAt(h, d.phase.put.version, d.phase.blob.key);
    HeldAt(h, AfterPut(d), d.phase.put.version);
  }

  lemma LandingHonest(h: seq<Version>, i: nat, d: Device)
    requires PhaseOk(h, i, d) && d.phase.Answered? && d.phase.put.PutOk?
    ensures PhaseOk(h, i, AfterPut(d))
  {
  }

  lemma RefusalHeld(h: seq<Version>, i: nat, d: Device)
    requires HeldOk(h, d) && PhaseOk(h, i, d) && d.phase.Answered? && !d.phase.put.PutOk?
    ensures HeldOk(h, AfterPut(d))
  {
    HeldLess(h, d, AfterPut(d));
  }

  lemma LostRaceHonest(h: seq<Version>, i: nat, d: Device)
    requires PhaseOk(h, i, d) && d.phase.Answered? && d.phase.put.PutConflict?
    ensures PhaseOk(h, i, AfterPut(d))
  {
  }

  lemma FaultHonest(h: seq<Version>, i: nat, d: Device)
    requires PhaseOk(h, i, d) && d.phase.Answered? && (d.phase.put.PutGone? || d.phase.put.PutFault?)
    ensures PhaseOk(h, i, AfterPut(d))
  {
  }

  lemma AfterPutOk(h: seq<Version>, i: nat, d: Device)
    requires DeviceOk(h, i, d) && d.phase.Answered?
    ensures DeviceOk(h, i, AfterPut(d))
  {
    if d.phase.put.PutOk? {
      LandingHeld(h, i, d);
      LandingHonest(h, i, d);
    } else {
      RefusalHeld(h, i, d);
      if d.phase.put.PutConflict? { LostRaceHonest(h, i, d); } else { FaultHonest(h, i, d); }
    }
  }

  lemma NewestStored(h: seq<Version>, d: Device)
    requires HeldOk(h, d)
    ensures Newest(d) <= |h|
  {
  }

  lemma PutOkOk(w: World, a: Action)
    requires Enabled(w, a) && a.Put? && DeviceOk(w.history, a.dev, w.devices[a.dev])
    ensures DeviceOk(Step(w, a).history, a.dev, StepDevice(w, a))
  {
    var d, h' := w.devices[a.dev], Step(w, a).history;
    NewestStored(w.history, d);
    HeldOkStable(w.history, h', d);
  }

  lemma CallStepOk(w: World, a: Action)
    requires Enabled(w, a) && (a.Get? || a.Decide? || a.Settle?) && DeviceOk(w.history, a.dev, w.devices[a.dev])
    ensures DeviceOk(w.history, a.dev, StepDevice(w, a))
  {
    var h, d := w.history, w.devices[a.dev];
    match a
    case Get(_, _, _) => NewestStored(h, d);
    case Decide(_, seals) =>
      if d.phase.Fetched? { AfterGetOk(h, a.dev, d, seals); } else { AfterRefetchOk(h, a.dev, d, seals); }
    case Settle(_) => AfterPutOk(h, a.dev, d);
  }

  lemma StepDeviceOk(w: World, a: Action)
    requires Enabled(w, a) && DeviceOk(w.history, a.dev, w.devices[a.dev])
    ensures DeviceOk(Step(w, a).history, a.dev, StepDevice(w, a))
  {
    var h, d := w.history, w.devices[a.dev];
    if a.Put? {
      PutOkOk(w, a);
    } else if IsBegin(a) {
      BeginOk(h, a.dev, d, a);
    } else if a.Get? || a.Decide? || a.Settle? {
      CallStepOk(w, a);
    } else {
      HeldLess(h, d, StepDevice(w, a));
    }
  }

  lemma StepKeepsInv(w: World, a: Action)
    requires Inv(w) && Enabled(w, a)
    ensures Inv(Step(w, a))
  {
    var w' := Step(w, a);
    StepDeviceOk(w, a);
    forall i | 0 <= i < |w'.devices|
      ensures DeviceOk(w'.history, i, w'.devices[i])
    {
      DeviceOkStable(w.history, w'.history, i, w.devices[i]);
    }
  }

  lemma {:induction false} RunKeepsInv(w: World, acts: seq<Action>)
    requires Inv(w) && CanRun(w, acts)
    ensures Inv(Run(w, acts))
    decreases |acts|
  {
    if acts != [] {
      RunKeepsInv(w, acts[..|acts| - 1]);
      StepKeepsInv(Run(w, acts[..|acts| - 1]), Last(acts));
    }
  }

  lemma StartIsOk(n: nat, creator: nat, told: bool, p: Payload, key: Key)
    ensures Inv(Start(n, creator, told, p, key))
  {
    var w := Start(n, creator, told, p, key);
    assert KeyedAt(w.history, 1, key);
  }

  // ---------------------------------------------------------------------------
  // No silent overwrite
  // ---------------------------------------------------------------------------

  /** The pass a device last finished told its user about a conflict with this version. */
  predicate ShowedConflict(w: World, dev: nat, version: nat) {
    && dev < |w.devices| && w.devices[dev].phase.Idle?
    && w.devices[dev].outcome.Shown? && w.devices[dev].outcome.state.InConflict?
    && w.devices[dev].outcome.state.version == version
  }

  ghost predicate UserSawConflict(w: World, acts: seq<Action>, dev: nat, version: nat)
    requires CanRun(w, acts)
  {
    exists j :: 0 <= j <= |acts| && CanRun(w, acts[..j]) && ShowedConflict(Run(w, acts[..j]), dev, version)
  }

  lemma UserSawConflictExtend(w: World, acts: seq<Action>, dev: nat, version: nat)
    requires acts != [] && CanRun(w, acts) && UserSawConflict(w, acts[..|acts| - 1], dev, version)
    ensures UserSawConflict(w, acts, dev, version)
  {
    var before := acts[..|acts| - 1];
    var j :| 0 <= j <= |before| && CanRun(w, before[..j]) && ShowedConflict(Run(w, before[..j]), dev, version);
    assert before[..j] == acts[..j];
  }

  /** A step that stashes a remote side shows it. */
  lemma StashingShows(w: World, a: Action)
    requires Enabled(w, a)
    ensures var d' := StepDevice(w, a);
            d'.pending.Some? && d'.pending != w.devices[a.dev].pending ==>
              ShowedConflict(Step(w, a), a.dev, d'.pending.value.version)
  {
  }

  /** A stashed remote side is always one the user was shown. */
  lemma {:induction false} PendingWasShown(w: World, acts: seq<Action>, dev: nat)
    requires CanRun(w, acts) && dev < |w.devices| && w.devices[dev].pending.None?
    requires Run(w, acts).devices[dev].pending.Some?
    ensures UserSawConflict(w, acts, dev, Run(w, acts).devices[dev].pending.value.version)
    decreases |acts|
  {
    var before := acts[..|acts| - 1];
    var was, now := Run(w, before).devices[dev], Run(w, acts).devices[dev];
    if was.pending == now.pending {
      PendingWasShown(w, before, dev);
      UserSawConflictExtend(w, acts, dev, now.pending.value.version);
    } else {
      StashingShows(Run(w, before), Last(acts));
      assert acts[..|acts|] == acts;
      assert ShowedConflict(Run(w, acts), dev, now.pending.value.version);
    }
  }

  /**
   Whenever, in any run, a write or a rotation lands, it replaces exactly the
   newest version; and either that is the version its device last agreed with, or
   the one whose conflict its user was shown and chose to overwrite, or the write
   is a rotation that keeps that version's payload as it is.
   */
  lemma NoUnseenOverwrite(n: nat, creator: nat, told: bool, p: Payload, key: Key, acts: seq<Action>, put: Action)
    requires var w0 := Start(n, creator, told, p, key);
             CanRun(w0, acts) && put.Put? && Enabled(Run(w0, acts), put) && Lands(Run(w0, acts), put)
    ensures var w0 := Start(n, creator, told, p, key);
            var w := Run(w0, acts);
            var d := w.devices[put.dev];
            && Step(w, put).history == w.history + [Version(d.phase.blob, put.dev, d.phase.cause, d.call.RemoveCall?)]
            && match d.phase.cause
               case Created => false
               case LastAgreed =>
                 d.book.Some? && d.book.value.version == |w.history|
                 && d.book.value.fingerprint == Sha(Last(w.history).blob.payload)
               case UserChoseLocal =>
                 d.call == ResolveCall(true, d.phase.blob.payload)
                 && UserSawConflict(w0, acts, put.dev, |w.history|)
               case Resealed => d.call.RemoveCall? && d.phase.blob.payload == Last(w.history).blob.payload
  {
    var w0 := Start(n, creator, told, p, key);
    StartIsOk(n, creator, told, p, key);
    RunKeepsInv(w0, acts);
    var w := Run(w0, acts);
    assert DeviceOk(w.history, put.dev, w.devices[put.dev]);
    if w.devices[put.dev].phase.cause == UserChoseLocal {
      PendingWasShown(w0, acts, put.dev);
    }
  }

  /** Every device's bookkeeping is true of the server's history, in every run. */
  lemma BooksAreTrue(n: nat, creator: nat, told: bool, p: Payload, key: Key, acts: seq<Action>, dev: nat)
    requires CanRun(Start(n, creator, told, p, key), acts) && dev < n
    ensures var w := Run(Start(n, creator, told, p, key), acts);
            BookTrue(w.history, BookOf(w.devices[dev]))
  {
    StartIsOk(n, creator, told, p, key);
    RunKeepsInv(Start(n, creator, told, p, key), acts);
    var w := Run(Start(n, creator, told, p, key), acts);
    assert DeviceOk(w.history, dev, w.devices[dev]);
  }

  /**
   What a finished call reported is so: which payload is stored at which version,
   that a local edit was neither replaced nor lost on the way, and how often the
   call wrote.
   */
  lemma OutcomesAreHonest(n: nat, creator: nat, told: bool, p: Payload, key: Key, acts: seq<Action>, dev: nat)
    requires CanRun(Start(n, creator, told, p, key), acts) && dev < n
    ensures var w := Run(Start(n, creator, told, p, key), acts);
            var d := w.devices[dev];
            && d.puts <= Budget(d.call)
            && (d.phase.Idle? ==> OutcomeOk(w.history, dev, d.call, d.outcome))
  {
    StartIsOk(n, creator, told, p, key);
    RunKeepsInv(Start(n, creator, told, p, key), acts);
    var w := Run(Start(n, creator, told, p, key), acts);
    assert DeviceOk(w.history, dev, w.devices[dev]);
  }

  /** A pass never shows anything but the local payload, unless that payload is safe on the server. */
  lemma PassKeepsLocalEdits(n: nat, creator: nat, told: bool, p: Payload, key: Key, acts: seq<Action>, dev: nat)
    requires CanRun(Start(n, creator, told, p, key), acts) && dev < n
    requires var d := Run(Start(n, creator, told, p, key), acts).devices[dev];
             d.phase.Idle? && d.call.SyncCall? && d.call.local.Some? && d.outcome.Shown?
    ensures var w := Run(Start(n, creator, told, p, key), acts);
            var d := w.devices[dev];
            d.outcome.payload == d.call.local.value || Stored(w.history, d.call.local.value)
  {
    OutcomesAreHonest(n, creator, told, p, key, acts, dev);
  }
}
