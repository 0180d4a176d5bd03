/**
 The projects half of one device's sync engine, as the code has it: what the
 engine holds of each project, updated step by step by methods that talk to the
 server, and the loops over all projects. Each method takes only steps of the
 project machine and leaves the fields as the machine has them, so what holds of
 every run of the machine holds of the engine.

 The engine's maps from project to bookkeeping, key and stashed conflict, and its
 blob cache on disk, are one object per project here; an absent entry is None.
 */
module ProjectEngine {
  import opened Common
  import opened ProjectCalls
  import opened ProjectMachine
  import opened ProjectSafety
  import opened ProjectKeys
  import Personal = SyncMachine

  // ---------------------------------------------------------------------------
  // The server and the other members
  // ---------------------------------------------------------------------------

  /** A project that has lived through some run. */
  ghost predicate Reachable(fleet: nat, w: World) {
    exists creator: nat, told: bool, p: Payload, key: Key, acts: seq<Action> ::
      CanRun(Start(fleet, creator, told, p, key), acts) && w == Run(Start(fleet, creator, told, p, key), acts)
  }

  lemma ReachableStep(fleet: nat, w: World, a: Action)
    requires Reachable(fleet, w) && Enabled(w, a)
    ensures Reachable(fleet, Step(w, a))
  {
    var creator: nat, told: bool, p: Payload, key: Key, acts: seq<Action> :|
      CanRun(Start(fleet, creator, told, p, key), acts) && w == Run(Start(fleet, creator, told, p, key), acts);
    RunExtend(Start(fleet, creator, told, p, key), acts, a);
  }

  lemma ReachableKeepsAll(fleet: nat, w: World)
    requires Reachable(fleet, w)
    ensures Inv(w) && KeyInv(w) && |w.devices| == fleet
  {
    var creator: nat, told: bool, p: Payload, key: Key, acts: seq<Action> :|
      CanRun(Start(fleet, creator, told, p, key), acts) && w == Run(Start(fleet, creator, told, p, key), acts);
    ProjectKeepsKeys(fleet, creator, told, p, key, acts);
  }

  /** One project's vault and everybody else's devices; between any two requests the others may do anything. */
  class Cloud {
    const fleet: nat
    const quiet: bool   // no faults and no activity of other devices
    var world: World

    ghost predicate Valid()
      reads this
    {
      |world.devices| == fleet && world.history != [] && Reachable(fleet, world)
    }

    /** Device me is in a call, and the call has a way to end. */
    ghost predicate Calling(me: nat)
      reads this
    {
      Valid() && me < fleet && Coherent(world.devices[me])
    }

    /** Where the call of device me ends if nothing disturbs it from here. */
    ghost function End(me: nat): World
      requires Calling(me)
      reads this
    {
      Finished(world, me)
    }

    /** A call that is over ends where it is. */
    lemma Ended(me: nat)
      requires Calling(me)
      ensures world.devices[me].phase.Idle? ==> End(me) == world
    {
    }

    method Take(a: Action)
      requires Valid() && Enabled(world, a)
      modifies this
      ensures Valid() && world == Step(old(world), a)
    {
      ReachableStep(fleet, world, a);
      world := Step(world, a);
    }

    /** A step of the call device me is in; a quiet one does not change where the call ends. */
    method CallStep(me: nat, a: Action)
      requires Calling(me) && Enabled(world, a) && IsCallStep(a) && a.dev == me
      modifies this
      ensures Calling(me) && world == Step(old(world), a)
      ensures a == QuietStep(old(world), me) ==> End(me) == old(End(me))
    {
      CallStepsCountDown(world, a);
      if a == QuietStep(world, me) {
        FinishedUnfolds(world, me);
      }
      Take(a);
    }

    /** Any number of steps of any other devices. */
    method OthersAct(me: nat)
      requires Valid() && me < fleet
      modifies this
      ensures Valid() && world.devices[me] == old(world).devices[me]
      ensures old(world).history <= world.history && old(world).grants <= world.grants
      ensures quiet ==> world == old(world)
    {
      if quiet {
        return;
      }
      var n: int := *;
      for i := 0 to if n < 0 then 0 else n
        invariant Valid() && world.devices[me] == old(world).devices[me]
        invariant old(world).history <= world.history && old(world).grants <= world.grants
      {
        var a: Action := *;
        if a.dev != me && Enabled(world, a) {
          Take(a);
        }
      }
    }

    /** Whether sealing, wrapping or another request outside the machine works out. */
    method Works() returns (ok: bool)
      ensures quiet ==> ok
    {
      ok := *;
      if quiet {
        ok := true;
      }
    }

    method GetVault(me: nat) returns (got: Reply)
      requires Calling(me) && (world.devices[me].phase.Fetching? || world.devices[me].phase.Refetching?)
      modifies this
      ensures Calling(me)
      ensures var d := old(world).devices[me];
              world.devices[me] == d.(phase := if d.phase.Fetching? then Fetched(got) else Refetched(d.phase.blob, got))
      ensures quiet ==> End(me) == old(End(me))
    {
      OthersAct(me);
      var trouble: Option<Reply>, unwrapped: Option<Key> := *, *;
      if quiet {
        trouble, unwrapped := None, Some(Last(world.history).blob.key);
      } else if trouble.Some? && trouble.value.Vault? {
        trouble := None;
      }
      got := ReadServer(world.history, trouble, unwrapped);
      CallStep(me, Get(me, trouble, unwrapped));
    }

    /** A compare-and-swap upload, plain or rotating; a rotation that lands hands out the keys that came with it. */
    method PutVault(me: nat, blob: Sealed, expected: nat) returns (put: PutReply)
      requires Calling(me) && world.devices[me].phase.Pushing?
      requires world.devices[me].phase.blob == blob && world.devices[me].phase.expected == expected
      modifies this
      ensures Calling(me)
      ensures var d := old(world).devices[me];
              && world.devices[me] == d.(puts := d.puts + 1, phase := Answered(expected, blob, d.phase.cause, put))
              && (put.PutOk? ==> put.version == expected + 1)
      ensures put.PutOk? && old(world).devices[me].call.RemoveCall? ==>
                KeysOut(world.grants, old(world).devices[me].call.wraps.users, blob.key, put.version)
      ensures quiet ==> End(me) == old(End(me))
    {
      OthersAct(me);
      var fault: Option<PutReply>, reaches: bool := *, *;
      if quiet || (fault.Some? && (fault.value.PutOk? || fault.value.PutConflict?)) {
        fault := None;
      }
      put := Post(me, Put(me, fault, reaches || fault.None?));
    }

    method Post(me: nat, a: Action) returns (put: PutReply)
      requires Calling(me) && a.Put? && a.dev == me && Enabled(world, a)
      modifies this
      ensures Calling(me)
      ensures var d := old(world).devices[me];
              && world.devices[me] == d.(puts := d.puts + 1, phase := Answered(d.phase.expected, d.phase.blob, d.phase.cause, put))
              && (put.PutOk? ==> put.version == d.phase.expected + 1)
      ensures put.PutOk? && old(world).devices[me].call.RemoveCall? ==>
                KeysOut(world.grants, old(world).devices[me].call.wraps.users, old(world).devices[me].phase.blob.key, put.version)
      ensures a == QuietStep(old(world), me) ==> End(me) == old(End(me))
    {
      put := PutAnswers(world, a);
      CallStep(me, a);
    }

    /** Device me acts on a reply to a read. */
    method Decided(me: nat, seals: bool)
      requires Calling(me) && Enabled(world, Decide(me, seals))
      modifies this
      ensures Calling(me)
      ensures var d := old(world).devices[me];
              world.devices[me] == if d.phase.Fetched? then AfterGet(d, seals) else AfterRefetch(d, seals)
      ensures seals ==> End(me) == old(End(me))
      ensures seals && world.devices[me].phase.Idle? ==> world == old(End(me))
    {
      CallStep(me, Decide(me, seals));
      Ended(me);
    }

    /** Device me acts on a reply to a write. */
    method Settled(me: nat)
      requires Calling(me) && Enabled(world, Settle(me))
      modifies this
      ensures Calling(me) && world.devices[me] == AfterPut(old(world).devices[me]) && world.grants == old(world).grants
      ensures End(me) == old(End(me))
      ensures world.devices[me].phase.Idle? ==> world == old(End(me))
    {
      CallStep(me, Settle(me));
      Ended(me);
    }

    /** Hands a member a key for the version it is asserted to open. */
    method SubmitMemberKey(me: nat, user: User, key: Key, version: nat) returns (ok: bool)
      requires Valid() && me < fleet && world.devices[me].phase.Idle?
      requires world.devices[me].key == Some(key) && world.devices[me].book.Some?
      requires world.devices[me].book.value.version == version
      modifies this
      ensures Valid() && world.devices[me] == old(world).devices[me] && old(world).history <= world.history
      ensures old(world).grants <= world.grants
      ensures ok ==> Grant(user, key, version) in world.grants && KeyedAt(world.history, version, key)
      ensures quiet ==> ok == (version == |world.history|) && world.history == old(world).history
    {
      OthersAct(me);
      var reaches := Works();
      ok := reaches && version == |world.history|;
      Take(GrantKey(me, user, reaches));
      if ok {
        ReachableKeepsAll(fleet, world);
        assert Last(world.grants) == Grant(user, key, version);
      }
    }
  }

  /** Each of these users was handed this key for this version. */
  predicate KeysOut(grants: seq<Grant>, users: seq<User>, key: Key, version: nat) {
    forall u <- users :: Grant(u, key, version) in grants
  }

  /** The server's answer to an upload. */
  function PutAnswers(w: World, a: Action): (put: PutReply)
    requires Enabled(w, a) && a.Put?
    ensures var d := w.devices[a.dev];
            Step(w, a).devices[a.dev] ==
              d.(puts := d.puts + 1, phase := Answered(d.phase.expected, d.phase.blob, d.phase.cause, put))
    ensures put.PutOk? ==> put.version == w.devices[a.dev].phase.expected + 1
    ensures put.PutOk? && w.devices[a.dev].call.RemoveCall? ==>
              KeysOut(Step(w, a).grants, w.devices[a.dev].call.wraps.users, w.devices[a.dev].phase.blob.key, put.version)
  {
    var put := Step(w, a).devices[a.dev].phase.put;
    if put.PutOk? && w.devices[a.dev].call.RemoveCall? then
      RotationHandsOut(w, a);
      put
    else
      put
  }

  lemma RotationHandsOut(w: World, a: Action)
    requires Enabled(w, a) && a.Put? && Lands(w, a) && w.devices[a.dev].call.RemoveCall?
    ensures KeysOut(Step(w, a).grants, w.devices[a.dev].call.wraps.users, w.devices[a.dev].phase.blob.key, |w.history| + 1)
  {
    var users := w.devices[a.dev].call.wraps.users;
    forall u | u in users
      ensures Grant(u, w.devices[a.dev].phase.blob.key, |w.history| + 1) in Step(w, a).grants
    {
      var i :| 0 <= i < |users| && users[i] == u;
      assert NewGrants(w, a)[i] in w.grants + NewGrants(w, a);
    }
  }

  // ---------------------------------------------------------------------------
  // Who gets a new key
  // ---------------------------------------------------------------------------

  /** A member, and whether a public key of theirs is published. */
  datatype Recipient = Recipient(user: User, published: bool)

  /** The members a key can be wrapped to, in order. */
  function Published(recipients: seq<Recipient>): seq<User> {
    if recipients == [] then []
    else (if recipients[0].published then [recipients[0].user] else []) + Published(recipients[1..])
  }

  lemma {:induction false} PublishedIff(recipients: seq<Recipient>, u: User)
    ensures u in Published(recipients) <==> Recipient(u, true) in recipients
  {
    if recipients != [] {
      PublishedIff(recipients[1..], u);
      assert recipients == [recipients[0]] + recipients[1..];
    }
  }

  lemma {:induction false} PublishedMore(recipients: seq<Recipient>, i: nat)
    requires i < |recipients|
    ensures Published(recipients[..i + 1]) == Published(recipients[..i]) + Published([recipients[i]])
  {
    if i > 0 {
      PublishedMore(recipients[1..], i - 1);
      assert recipients[1..][..i] == recipients[..i + 1][1..] && recipients[1..][..i - 1] == recipients[..i][1..];
    }
  }

  /** Wraps a key to every member with a published key; says whether the caller is one of them. */
  method WrapForRecipients(recipients: seq<Recipient>, self: User) returns (wraps: Wraps)
    ensures wraps.users == Published(recipients)
    ensures wraps.selfKeyed <==> Recipient(self, true) in recipients
  {
    var users: seq<User>, selfKeyed := [], false;
    for i := 0 to |recipients|
      invariant users == Published(recipients[..i])
      invariant selfKeyed <==> Recipient(self, true) in recipients[..i]
    {
      var r := recipients[i];
      PublishedMore(recipients, i);
      assert recipients[..i + 1] == recipients[..i] + [r];
      if r.published {
        users := users + [r.user];
        selfKeyed := selfKeyed || r.user == self;
      }
    }
    assert recipients[..|recipients|] == recipients;
    wraps := Wraps(users, selfKeyed);
  }

  // ---------------------------------------------------------------------------
  // One project on this device
  // ---------------------------------------------------------------------------

  class Project {
    const me: nat
    const cloud: Cloud
    var book: Option<Book>
    var key: Option<Key>
    var pending: Option<Remote>
    var cache: Option<Sealed>

    ghost function Me(): Device
      reads cloud
      requires me < |cloud.world.devices|
    {
      cloud.world.devices[me]
    }

    ghost predicate Based()
      reads this, cloud
    {
      cloud.Calling(me)
    }

    /** The fields are what the machine has for this device. */
    ghost predicate Coupled()
      reads this, cloud
    {
      Based() && Me().book == book && Me().key == key && Me().pending == pending && Me().cache == cache
    }

    ghost predicate Valid()
      reads this, cloud
    {
      Coupled() && Me().phase.Idle?
    }

    constructor (me: nat, cloud: Cloud)
      requires cloud.Valid() && me < cloud.fleet && cloud.world.devices[me] == NewDevice
      ensures Valid() && this.me == me && this.cloud == cloud
    {
      this.me, this.cloud := me, cloud;
      book, key, pending, cache := None, None, None, None;
    }

    /** Between calls, whatever the other members did. */
    lemma BetweenCalls()
      requires Valid()
      ensures book.Some? ==> BookTrue(cloud.world.history, book.value)
      ensures pending.Some? ==> Holds(cloud.world.history, pending.value.version, pending.value.payload)
      ensures key.Some? && book.Some? ==> KeyFrom(cloud.world.history, book.value.version, key.value)
      ensures OutcomeOk(cloud.world.history, me, Me().call, Me().outcome) && Me().puts <= Budget(Me().call)
    {
      ReachableKeepsAll(cloud.fleet, cloud.world);
      assert DeviceOk(cloud.world.history, me, Me());
      if key.Some? && book.Some? {
        KeyFromOlder(cloud.world.history, Newest(Me()), book.value.version, key.value);
      }
    }

    function Held(): Holding
      reads this
    {
      Holding(book, key, pending, cache)
    }

    function Known(): Book
      reads this
    {
      if book.Some? then book.value else Book(0, Personal.NoFingerprint, None)
    }

    method MarkAwaiting(st: Book)
      modifies this
      ensures book == Some(st) && key == None && pending == old(pending) && cache == old(cache)
    {
      key, book := None, Some(st);
    }

    /** Forgets the project: its membership vanished. */
    method DropProject()
      modifies this
      ensures book == None && key == None && pending == None && cache == None
    {
      key, pending, book, cache := None, None, None, None;
    }

    // A pass

    /** The fields are as they were, and the machine's device has them too. */
    twostate predicate Kept()
      reads this
    {
      book == old(book) && key == old(key) && pending == old(pending) && cache == old(cache)
    }

    /**
     The body of a pass's loop over the listed projects. The session is dead exactly
     if that is what a request was answered with.
     */
    method Sync(local: Option<Payload>, awaitingKey: bool) returns (o: Outcome, dead: bool)
      requires Valid()
      modifies this, cloud
      ensures Valid() && Me().call == SyncCall(local) && Me().outcome == o
      ensures dead <==> o == Failed(SessionExpired)
      ensures awaitingKey ==> o == Awaiting && book == Some(old(Known())) && key == None
      ensures awaitingKey ==> pending == old(pending) && cache == old(cache)
      ensures o == Awaiting ==> key == None && pending == old(pending)
      ensures o == Removed ==> book == None && key == None && pending == None && cache == None
      ensures o.Failed? ==> book.Some? ==> old(Known()).version == book.value.version
      ensures cloud.quiet ==> cloud.world == Finished(Step(old(cloud.world), BeginSync(me, local, awaitingKey)), me)
      ensures cloud.quiet && !awaitingKey ==>
                PassComesTo(old(cloud.world).history, me, old(Held()), local, o, cloud.world.history, Held())
    {
      hide Finished, PassComesTo, NewGrants, AfterRefetch, AfterGet, AfterPut;
      PassIff(cloud.world, me, local);
      cloud.Take(BeginSync(me, local, awaitingKey));
      cloud.Ended(me);
      if awaitingKey {
        MarkAwaiting(Known());
        return Awaiting, false;
      }
      o, dead := Pass(local);
    }

    /** The pass over a project whose key has been granted. */
    method Pass(local: Option<Payload>) returns (o: Outcome, dead: bool)
      requires Coupled() && Me().call == SyncCall(local) && Me().phase == Fetching
      modifies this, cloud
      ensures Valid() && Me().call == SyncCall(local) && Me().outcome == o
      ensures dead <==> o == Failed(SessionExpired)
      ensures o == Awaiting ==> key == None && pending == old(pending)
      ensures o == Removed ==> book == None && key == None && pending == None && cache == None
      ensures o.Failed? ==> book.Some? ==> old(Known()).version == book.value.version
      ensures cloud.quiet ==> cloud.world == old(cloud.End(me))
    {
      hide Finished, Step, Enabled, AfterRefetch, AfterPut;
      dead := false;
      var st := Known();
      var got := cloud.GetVault(me);
      match got {
        case Gone =>
          cloud.Decided(me, true);
          DropProject();
          o := Removed;
        case GetFault(f) =>
          cloud.Decided(me, true);
          o, dead := Failed(f), f == SessionExpired;
        case NoWrappedKey =>
          cloud.Decided(me, true);
          MarkAwaiting(st);
          o := Awaiting;
        case Vault(version, blob, unwrapped) =>
          o, dead := Open(local, version, blob, unwrapped);
      }
    }

    /** The vault was read: unwrap the key, cache the blob, open it. */
    method Open(local: Option<Payload>, version: nat, blob: Sealed, unwrapped: Option<Key>)
      returns (o: Outcome, dead: bool)
      requires Coupled() && Me().call == SyncCall(local) && Me().phase == Fetched(Vault(version, blob, unwrapped))
      modifies this, cloud
      ensures Valid() && Me().call == SyncCall(local) && Me().outcome == o
      ensures dead <==> o == Failed(SessionExpired)
      ensures unwrapped != Some(blob.key) ==> o == Awaiting && pending == old(pending)
      ensures unwrapped.None? ==> book == Some(old(Known())) && cache == old(cache)
      ensures unwrapped.Some? && unwrapped != Some(blob.key) ==>
                book == Some(old(Known()).(wrapped := unwrapped)) && cache == Some(blob)
      ensures o == Awaiting ==> unwrapped != Some(blob.key) && key == None
      ensures o != Removed && (o.Failed? ==> book.Some? && book.value.version == old(Known()).version)
      ensures cloud.quiet ==> cloud.world == old(cloud.End(me))
    {
      var st := Known();
      if unwrapped.None? {
        cloud.Decided(me, true);
        MarkAwaiting(st);
        return Awaiting, false;
      }
      var dek := unwrapped.value;
      key := Some(dek);
      st := st.(wrapped := Some(dek));
      cache := Some(blob);
      if dek != blob.key {
        cloud.Decided(me, true);
        MarkAwaiting(st);
        return Awaiting, false;
      }
      o, dead := Weigh(st, local, version, blob);
    }

    /** What the two-by-two of local change and remote movement comes to when it takes no upload. */
    function Weighed(st: Book, local: Option<Payload>, version: nat, blob: Sealed): Outcome {
      var localChanged := local.Some? && Sha(local.value) != st.fingerprint;
      if !localChanged then
        Shown(blob.payload, if version != st.version || local.None? then Pulled(version) else UpToDate(version))
      else if local.value == blob.payload then Shown(blob.payload, UpToDate(version))
      else
        Shown(local.value,
              InConflict(version, Personal.CountHosts(local.value), Personal.CountHosts(blob.payload)))
    }

    predicate MustUpload(st: Book, local: Option<Payload>, version: nat) {
      local.Some? && Sha(local.value) != st.fingerprint && version == st.version
    }

    /** The vault is open: local-changed by remote-moved. */
    method Weigh(st0: Book, local: Option<Payload>, version: nat, blob: Sealed) returns (o: Outcome, dead: bool)
      requires Based() && Me().call == SyncCall(local) && Me().phase == Fetched(Vault(version, blob, Some(blob.key)))
      requires st0 == BookOf(Me()).(wrapped := Some(blob.key)) && pending == Me().pending
      requires key == Some(blob.key) && cache == Some(blob)
      modifies this, cloud
      ensures Valid() && Me().call == SyncCall(local) && Me().outcome == o
      ensures dead <==> o == Failed(SessionExpired)
      ensures !MustUpload(st0, local, version) ==>
                && o == Weighed(st0, local, version, blob) && key == old(key) && cache == old(cache)
                && (o.state.InConflict? ==> book == Some(st0) && pending == Some(Remote(blob.payload, version)))
                && (!o.state.InConflict? ==>
                      book == Some(st0.(version := version, fingerprint := Sha(blob.payload))) && pending == old(pending))
      ensures MustUpload(st0, local, version) ==> book.Some? && Uploaded(st0, local.value, version, o, book.value)
      ensures cloud.quiet ==> cloud.world == old(cloud.End(me))
    {
      var st := st0;
      dead := false;
      var localChanged := local.Some? && Sha(local.value) != st.fingerprint;
      var remoteMoved := version != st.version;
      if localChanged && !remoteMoved {
        o, st, dead := SealAndPush(st, local.value, version, blob);
      } else {
        cloud.Decided(me, true);
        if localChanged {
          if Sha(local.value) == Sha(blob.payload) {
            st := st.(version := version, fingerprint := Sha(blob.payload));
            o := Shown(blob.payload, UpToDate(version));
          } else {
            o := Stash(local.value, blob.payload, version);
          }
        } else {
          st := st.(version := version, fingerprint := Sha(blob.payload));
          o := Shown(blob.payload, if remoteMoved || local.None? then Pulled(version) else UpToDate(version));
        }
      }
      book := Some(st);
    }

    /** Only this device moved: seal its document and upload it. */
    method SealAndPush(st0: Book, local: Payload, version: nat, blob: Sealed)
      returns (o: Outcome, st: Book, dead: bool)
      requires Based() && Me().call == SyncCall(Some(local)) && Me().phase == Fetched(Vault(version, blob, Some(blob.key)))
      requires st0 == BookOf(Me()).(wrapped := Some(blob.key)) && pending == Me().pending
      requires key == Some(blob.key) && cache == Some(blob) && MustUpload(st0, Some(local), version)
      modifies this`pending, this`cache, cloud
      ensures Based() && Me().phase.Idle? && Me().call == SyncCall(Some(local)) && Me().outcome == o
      ensures Me().book == Some(st) && RestCoupled() && Uploaded(st0, local, version, o, st)
      ensures dead <==> o == Failed(SessionExpired)
      ensures cloud.quiet ==> cloud.world == old(cloud.End(me))
    {
      var seals := cloud.Works();
      cloud.Decided(me, seals);
      if seals {
        o, st, dead := Push(st0, local, version, blob.key);
      } else {
        o, st, dead := Shown(local, NotSaved), st0, false;
      }
    }

    /**
     What an upload over this version can come to: pushed, or the race lost to the
     same content or to a conflict, or nothing; and what is recorded in each case.
     */
    predicate Uploaded(st0: Book, local: Payload, version: nat, o: Outcome, st: Book)
      reads this
    {
      match o
      case Shown(p, s) =>
        && p == local
        && (match s
            case Pushed(v) => v == version + 1 && st == st0.(version := v, fingerprint := Sha(local))
            case UpToDate(v) => st == st0.(version := v, fingerprint := Sha(local))
            case InConflict(v, _, _) =>
              st == st0 && pending.Some? && pending.value.version == v && pending.value.payload != local
            case NotSaved => st == st0
            case Pulled(_) => false)
      case Failed(f) => f == SessionExpired && st == st0
      case _ => false
    }

    method Stash(local: Payload, remote: Payload, version: nat) returns (o: Outcome)
      modifies this`pending
      ensures pending == Some(Remote(remote, version))
      ensures o == Shown(local, InConflict(version, Personal.CountHosts(local), Personal.CountHosts(remote)))
    {
      pending := Some(Remote(remote, version));
      o := Shown(local, InConflict(version, Personal.CountHosts(local), Personal.CountHosts(remote)));
    }

    /** What is recorded besides the book is what the machine has. */
    ghost predicate RestCoupled()
      reads this, cloud
      requires me < |cloud.world.devices|
    {
      pending == Me().pending && key == Me().key && cache == Me().cache
    }

    /** The upload of a pass, and what follows from its answer. */
    method Push(st0: Book, local: Payload, version: nat, dek: Key) returns (o: Outcome, st: Book, dead: bool)
      requires Based() && Me().call == SyncCall(Some(local))
      requires Me().phase == Pushing(version, Sealed(local, dek), LastAgreed)
      requires Me().book == Some(st0) && RestCoupled()
      modifies this`pending, this`cache, cloud
      ensures Based() && Me().phase.Idle? && Me().call == SyncCall(Some(local)) && Me().outcome == o
      ensures Me().book == Some(st) && RestCoupled()
      ensures dead <==> o == Failed(SessionExpired)
      ensures o == Failed(SessionExpired) || (o.Shown? && o.payload == local && !o.state.Pulled?)
      ensures o.Shown? && o.state.Pushed? ==> o.state.version == version + 1
      ensures o.Shown? && (o.state.Pushed? || o.state.UpToDate?) ==>
                st == st0.(version := o.state.version, fingerprint := Sha(local))
      ensures o.Shown? && o.state.InConflict? ==>
                st == st0 && pending.Some? && pending.value.version == o.state.version && pending.value.payload != local
      ensures o.Failed? || o.state.NotSaved? ==> st == st0 && pending == old(pending)
      ensures cloud.quiet ==> cloud.world == old(cloud.End(me))
    {
      st, dead := st0, false;
      var put := cloud.PutVault(me, Sealed(local, dek), version);
      cloud.Settled(me);
      match put {
        case PutConflict =>
          o, st := Refetch(st, local, dek);
        case PutOk(v) =>
          cache := Some(Sealed(local, dek));
          st := st.(version := v, fingerprint := Sha(local));
          o := Shown(local, Pushed(v));
        case PutGone =>
          o := Shown(local, NotSaved);
        case PutFault(f) =>
          if f == SessionExpired {
            o, dead := Failed(f), true;
          } else {
            o := Shown(local, NotSaved);
          }
      }
    }

    /** A lost push race: same content after all, or a conflict to ask about, or unreadable and so nothing. */
    method Refetch(st0: Book, local: Payload, dek: Key) returns (o: Outcome, st: Book)
      requires Based() && Me().call == SyncCall(Some(local)) && Me().phase == Refetching(Sealed(local, dek))
      requires Me().book == Some(st0) && RestCoupled()
      modifies this`pending, cloud
      ensures Based() && Me().phase.Idle? && Me().call == SyncCall(Some(local)) && Me().outcome == o
      ensures Me().book == Some(st) && RestCoupled()
      ensures o.Shown? && o.payload == local && (o.state.NotSaved? || o.state.UpToDate? || o.state.InConflict?)
      ensures o.state.UpToDate? ==> st == st0.(version := o.state.version, fingerprint := Sha(local)) && pending == old(pending)
      ensures o.state.InConflict? ==>
                && st == st0 && pending.Some? && pending.value.version == o.state.version && pending.value.payload != local
                && o.state.remoteHosts == Personal.CountHosts(pending.value.payload)
                && o.state.localHosts == Personal.CountHosts(local)
      ensures o.state.NotSaved? ==> st == st0 && pending == old(pending)
      ensures cloud.quiet ==> cloud.world == old(cloud.End(me))
      ensures cloud.quiet ==>
                RefetchComesTo(old(cloud.world).history, old(Held()).(book := Some(st0)), local, dek, o,
                               cloud.world.history, Held().(book := Some(st)))
    {
      hide Finished, RefetchComesTo;
      RefetchIff(cloud.world, me);
      st := st0;
      o := Shown(local, NotSaved);
      var got := cloud.GetVault(me);
      cloud.Decided(me, true);
      if !got.Vault? || got.blob.key != dek {
        return;
      }
      if Sha(local) == Sha(got.blob.payload) {
        st := st.(version := got.version, fingerprint := Sha(got.blob.payload));
        return Shown(got.blob.payload, UpToDate(got.version)), st;
      }
      o := Stash(local, got.blob.payload, got.version);
    }

    // Single operations

    /** A document was recorded as the one of this version, and its blob cached. */
    twostate predicate Recorded(version: nat, blob: Sealed)
      reads this
    {
      book == Some(old(Known()).(version := version, fingerprint := Sha(blob.payload))) && cache == Some(blob)
    }

    /** Settles a stashed conflict: push over the remote side, or take it. */
    method Resolve(keepLocal: bool, local: Payload) returns (o: Outcome)
      requires Valid()
      modifies this, cloud
      ensures Valid() && Me().call == ResolveCall(keepLocal, local) && Me().outcome == o
      ensures key == old(key)
      ensures old(pending).None? <==> o == Nothing
      ensures old(pending).Some? && !keepLocal ==>
                && o == OpAdopted(old(pending).value.payload, old(pending).value.version)
                && pending.None? && cache == old(cache)
                && book == Some(old(Known()).(version := o.version, fingerprint := Sha(o.payload)))
      ensures old(pending).Some? && keepLocal && key.None? ==> o == Failed(KeyMissing)
      ensures o.OpPushed? ==>
                && old(pending).Some? && o == OpPushed(local, old(pending).value.version + 1)
                && pending.None? && key.Some? && Recorded(o.version, Sealed(local, key.value))
      ensures o == OpConflict ==> pending.None? && book == old(book) && cache == old(cache)
      ensures o.Failed? || o == Nothing ==> Kept()
      ensures old(pending).Some? && keepLocal && key.Some? ==> Me().puts == 1 || o == Failed(CryptoFailed)
      ensures cloud.quiet ==>
                cloud.world == Finished(Step(old(cloud.world), BeginResolve(me, keepLocal, local, true)), me)
      ensures cloud.quiet ==>
                ResolveComesTo(old(cloud.world).history, me, old(Held()), keepLocal, local, o, cloud.world.history, Held())
    {
      hide Finished, ResolveComesTo, NewGrants, AfterRefetch, AfterGet, AfterPut;
      ResolveIff(cloud.world, me, keepLocal, local);
      var seals := cloud.Works();
      cloud.Take(BeginResolve(me, keepLocal, local, seals));
      cloud.Ended(me);
      if pending.None? {
        return Nothing;
      }
      var remote := pending.value;
      if !keepLocal {
        book := Some(Known().(version := remote.version, fingerprint := Sha(remote.payload)));
        pending := None;
        return OpAdopted(remote.payload, remote.version);
      }
      if key.None? {
        return Failed(KeyMissing);
      }
      if !seals {
        return Failed(CryptoFailed);
      }
      o := Overwrite(local, key.value, remote.version);
    }

    /** The user keeps the local side: one upload over the remote one that was shown. */
    method Overwrite(local: Payload, dek: Key, version: nat) returns (o: Outcome)
      requires Coupled() && Me().call == ResolveCall(true, local)
      requires Me().phase == Pushing(version, Sealed(local, dek), UserChoseLocal)
      modifies this, cloud
      ensures Valid() && Me().call == ResolveCall(true, local) && Me().outcome == o
      ensures key == old(key) && (o.OpPushed? || o == OpConflict || o.Failed?)
      ensures o.OpPushed? ==> o == OpPushed(local, version + 1) && pending.None? && Recorded(o.version, Sealed(local, dek))
      ensures o == OpConflict ==> pending.None? && book == old(book) && cache == old(cache)
      ensures o.Failed? ==> Kept()
      ensures Me().puts == old(Me()).puts + 1
      ensures cloud.quiet ==> cloud.world == old(cloud.End(me))
    {
      hide Finished, Step, Enabled, Lands, NewGrants, AfterRefetch, AfterGet;
      var blob := Sealed(local, dek);
      var put := cloud.PutVault(me, blob, version);
      cloud.Settled(me);
      match put {
        case PutConflict =>
          pending := None;
          o := OpConflict;
        case PutGone =>
          o := Failed(NotFound);
        case PutFault(f) =>
          o := Failed(f);
        case PutOk(v) =>
          cache := Some(blob);
          book := Some(Known().(version := v, fingerprint := Sha(local)));
          pending := None;
          o := OpPushed(local, v);
      }
    }

    /** Uploads an edited document against the version last agreed with. */
    method PushProject(payload: Payload) returns (o: Outcome)
      requires Valid()
      modifies this, cloud
      ensures Valid() && Me().call == PushCall(payload) && Me().outcome == o
      ensures old(key).None? ==> o == Failed(KeyMissing)
      ensures o.OpPushed? ==>
                && o == OpPushed(payload, old(Known()).version + 1) && key == old(key) && key.Some? && pending == old(pending)
                && Recorded(o.version, Sealed(payload, key.value))
      ensures o == Removed ==> book == None && key == None && pending == None && cache == None
      ensures o.OpPushed? || o == Removed || o == OpConflict || o.Failed?
      ensures o == OpConflict || o.Failed? ==> Kept()
      ensures old(key).Some? ==> Me().puts == 1 || o == Failed(CryptoFailed)
      ensures cloud.quiet ==> cloud.world == Finished(Step(old(cloud.world), BeginPush(me, payload, true)), me)
      ensures cloud.quiet ==>
                PushComesTo(old(cloud.world).history, me, old(Held()), payload, o, cloud.world.history, Held())
    {
      hide Finished, PushComesTo;
      PushIff(cloud.world, me, payload);
      var seals := cloud.Works();
      cloud.Take(BeginPush(me, payload, seals));
      cloud.Ended(me);
      if key.None? {
        return Failed(KeyMissing);
      }
      if !seals {
        return Failed(CryptoFailed);
      }
      o := Upload(payload, key.value);
    }

    /** The one upload of an edited document, against the version last agreed with. */
    method Upload(payload: Payload, dek: Key) returns (o: Outcome)
      requires Coupled() && Me().call == PushCall(payload) && key == Some(dek)
      requires Me().phase == Pushing(Known().version, Sealed(payload, dek), LastAgreed)
      modifies this, cloud
      ensures Valid() && Me().call == PushCall(payload) && Me().outcome == o
      ensures o.OpPushed? || o == Removed || o == OpConflict || o.Failed?
      ensures o.OpPushed? ==>
                && o == OpPushed(payload, old(Known()).version + 1) && key == old(key) && pending == old(pending)
                && Recorded(o.version, Sealed(payload, dek))
      ensures o == Removed ==> book == None && key == None && pending == None && cache == None
      ensures o == OpConflict || o.Failed? ==> Kept()
      ensures Me().puts == old(Me()).puts + 1
      ensures cloud.quiet ==> cloud.world == old(cloud.End(me))
    {
      hide Finished, Step, Enabled, Lands, NewGrants, AfterRefetch, AfterGet;
      var st := Known();
      var blob := Sealed(payload, dek);
      var put := cloud.PutVault(me, blob, st.version);
      cloud.Settled(me);
      match put {
        case PutConflict =>
          o := OpConflict;
        case PutGone =>
          DropProject();
          o := Removed;
        case PutFault(f) =>
          o := Failed(f);
        case PutOk(v) =>
          cache := Some(blob);
          book := Some(st.(version := v, fingerprint := Sha(payload)));
          o := OpPushed(payload, v);
      }
    }

    /**
     Re-keys the project, removing a member; after a lost race it re-seals the remote
     document, once. Everybody to keep with a published key is handed the new one.
     */
    method RemoveMember(given: Payload, newKey: Key, recipients: seq<Recipient>, self: User)
      returns (o: Outcome, ghost wraps: Wraps)
      requires Valid() && newKey !in cloud.world.drawn
      modifies this, cloud
      ensures Valid() && wraps.users == Published(recipients)
      ensures wraps.selfKeyed <==> Recipient(self, true) in recipients
      ensures (o == Failed(CryptoFailed) && cloud.world == old(cloud.world)) ||
              (Me().call == RemoveCall(given, newKey, wraps) && Me().outcome == o)
      ensures o.OpPushed? ==>
                && Rotation(old(Known()), o.version, Sealed(o.payload, newKey), wraps.selfKeyed) && pending == old(pending)
                && KeysOut(cloud.world.grants, Published(recipients), newKey, o.version)
      ensures !o.OpPushed? ==> (o == OpConflict || o.Failed?) && Kept()
      ensures cloud.quiet ==>
                cloud.world == Finished(Step(old(cloud.world), BeginRemove(me, given, newKey, wraps)), me)
      ensures cloud.quiet ==>
                RemovalComesTo(old(cloud.world).history, me, old(Held()), given, newKey, wraps, o,
                               cloud.world.history, Held())
    {
      hide Finished, RemovalComesTo;
      var to := WrapForRecipients(recipients, self);
      wraps := to;
      RemovalIff(cloud.world, me, given, newKey, wraps);
      var works := cloud.Works();
      if !works {
        return Failed(CryptoFailed), wraps;
      }
      cloud.Take(BeginRemove(me, given, newKey, to));
      o := Rotate(given, newKey, to);
    }

    /** This rotation was recorded. */
    predicate Rotation(st: Book, version: nat, blob: Sealed, selfKeyed: bool)
      reads this
    {
      && book == Some(st.(version := version, fingerprint := Sha(blob.payload),
                          wrapped := if selfKeyed then Some(blob.key) else st.wrapped))
      && key == Some(blob.key) && cache == Some(blob)
    }

    method Rotate(given: Payload, newKey: Key, wraps: Wraps) returns (o: Outcome)
      requires Coupled() && Me().call == RemoveCall(given, newKey, wraps)
      requires Me().phase == Pushing(Known().version, Sealed(given, newKey), LastAgreed)
      modifies this, cloud
      ensures Valid() && Me().call == RemoveCall(given, newKey, wraps) && Me().outcome == o
      ensures o.OpPushed? ==>
                && Rotation(old(Known()), o.version, Sealed(o.payload, newKey), wraps.selfKeyed) && pending == old(pending)
                && KeysOut(cloud.world.grants, wraps.users, newKey, o.version)
      ensures !o.OpPushed? ==> (o == OpConflict || o.Failed?) && Kept()
      ensures cloud.quiet ==> cloud.world == old(cloud.End(me))
    {
      var payload := given;
      var put := RotateOnce(given, newKey, wraps, Known().version, LastAgreed);
      if put.PutConflict? {
        put, payload := RotateAgain(given, newKey, wraps);
      }
      o := Rekeyed(put, payload, newKey, wraps);
    }

    /** One attempt: against the version last agreed with, or against the one just read. */
    method RotateOnce(payload: Payload, newKey: Key, wraps: Wraps, expected: nat, cause: Cause) returns (put: PutReply)
      requires Coupled() && Me().call.RemoveCall? && Me().call.newKey == newKey && Me().call.wraps == wraps
      requires Me().phase == Pushing(expected, Sealed(payload, newKey), cause)
      modifies cloud
      ensures Based() && Me().call == old(Me().call)
      ensures put.PutConflict? && cause == LastAgreed ==> Coupled() && Me().phase == Refetching(Sealed(payload, newKey))
      ensures !put.PutConflict? || cause != LastAgreed ==> Me().phase.Idle? && Rotated(put, payload, newKey, wraps)
      ensures cloud.quiet ==> cloud.End(me) == old(cloud.End(me))
    {
      put := cloud.PutVault(me, Sealed(payload, newKey), expected);
      cloud.Settled(me);
    }

    /** Records an answered rotation. */
    method Rekeyed(put: PutReply, payload: Payload, newKey: Key, wraps: Wraps) returns (o: Outcome)
      requires Based() && Me().phase.Idle? && Rotated(put, payload, newKey, wraps)
      modifies this
      ensures Valid() && Me().outcome == o
      ensures put.PutOk? ==>
                && o == OpPushed(payload, put.version) && pending == old(pending)
                && Rotation(old(Known()), put.version, Sealed(payload, newKey), wraps.selfKeyed)
      ensures !put.PutOk? ==> (o == OpConflict || o.Failed?) && Kept()
    {
      match put {
        case PutConflict =>
          o := OpConflict;
        case PutGone =>
          o := Failed(NotFound);
        case PutFault(f) =>
          o := Failed(f);
        case PutOk(v) =>
          key := Some(newKey);
          cache := Some(Sealed(payload, newKey));
          var st := Known().(version := v, fingerprint := Sha(payload));
          if wraps.selfKeyed {
            st := st.(wrapped := Some(newKey));
          }
          book := Some(st);
          o := OpPushed(payload, v);
      }
    }

    /** The one retry: over the vault as it is now. */
    method RotateAgain(given: Payload, newKey: Key, wraps: Wraps) returns (put: PutReply, payload: Payload)
      requires Coupled() && Me().call == RemoveCall(given, newKey, wraps)
      requires Me().phase == Refetching(Sealed(given, newKey))
      modifies cloud
      ensures Based() && Me().call == RemoveCall(given, newKey, wraps) && Me().phase.Idle?
      ensures Rotated(put, payload, newKey, wraps)
      ensures cloud.quiet ==> cloud.world == old(cloud.End(me))
    {
      put, payload := PutConflict, given;
      var got := cloud.GetVault(me);
      var seals := cloud.Works();
      cloud.Decided(me, seals);
      if got.Vault? && got.unwrapped == Some(got.blob.key) && seals {
        payload := got.blob.payload;
        put := RotateOnce(payload, newKey, wraps, got.version, Resealed);
      }
    }

    /** Where an answered rotation leaves the machine, the fields being those from before it. */
    ghost predicate Rotated(put: PutReply, payload: Payload, newKey: Key, wraps: Wraps)
      reads this, cloud
      requires Based()
    {
      match put
      case PutOk(v) =>
        var st := Known().(version := v, fingerprint := Sha(payload));
        && Me().book == Some(if wraps.selfKeyed then st.(wrapped := Some(newKey)) else st)
        && Me().key == Some(newKey) && Me().pending == pending && Me().cache == Some(Sealed(payload, newKey))
        && Me().outcome == OpPushed(payload, v) && KeysOut(cloud.world.grants, wraps.users, newKey, v)
      case _ =>
        && Me().book == book && Me().key == key && Me().pending == pending && Me().cache == cache
        && Me().outcome == (match put case PutGone => Failed(NotFound) case PutFault(f) => Failed(f) case _ => OpConflict)
    }

    // Without a call

    /** Opens the cached blob with the persisted key, before any sync. */
    method LoadCached() returns (payload: Option<Payload>)
      requires Valid()
      modifies this`key, cloud
      ensures Valid()
      ensures payload.Some? <==> book.Some? && cache.Some? && book.value.wrapped == Some(cache.value.key)
      ensures payload.Some? ==> payload.value == cache.value.payload && key == Some(cache.value.key)
      ensures payload.None? ==> key == old(key)
    {
      cloud.Take(Load(me));
      if book.Some? && cache.Some? && book.value.wrapped == Some(cache.value.key) {
        key := book.value.wrapped;
        return Some(cache.value.payload);
      }
      return None;
    }

    /** The membership is not listed any more. */
    method Vanish()
      requires Valid()
      modifies this, cloud
      ensures Valid() && book == None && key == None && pending == None && cache == None
    {
      cloud.Take(Drop(me));
      DropProject();
    }

    /** The session went: a dead one takes every question to the user with it, a sign-out does not. */
    method Forgotten(keepsPending: bool)
      requires Valid()
      modifies this, cloud
      ensures Valid() && book == None && key == old(key) && cache == old(cache)
      ensures pending == if keepsPending then old(pending) else None
      ensures Me().call == old(Me().call) && Me().outcome == old(Me().outcome)
    {
      cloud.Take(Forget(me, keepsPending));
      book := None;
      if !keepsPending {
        pending := None;
      }
    }

    /** The process restarts: what was only in memory is gone. */
    method Restarted()
      requires Valid()
      modifies this, cloud
      ensures Valid() && book == old(book) && cache == old(cache) && key == None && pending == None
    {
      cloud.Take(Restart(me));
      key, pending := None, None;
    }

    /**
     Hands the key to the waiting members with a published key. Everybody reported
     was one of them and got a key that opens the vault at the version it is for;
     undisturbed it is all of them, or nobody if the book is behind the server.
     */
    method Finalize(waiting: seq<Recipient>) returns (granted: seq<User>)
      requires Valid()
      modifies cloud
      ensures Valid()
      ensures forall u <- granted :: Recipient(u, true) in waiting
      ensures granted != [] ==>
                && book.Some? && key.Some? && KeyedAt(cloud.world.history, book.value.version, key.value)
                && KeysOut(cloud.world.grants, granted, key.value, book.value.version)
      ensures cloud.quiet ==>
                && cloud.world.history == old(cloud.world).history
                && granted == if book.Some? && key.Some? && book.value.version == |cloud.world.history|
                              then Published(waiting) else []
    {
      granted := [];
      if book.None? || key.None? {
        return;
      }
      for i := 0 to |waiting|
        invariant Valid() && HandedOut(waiting, granted)
        invariant cloud.quiet ==> cloud.world.history == old(cloud.world).history
        invariant cloud.quiet ==> granted == if AtNewest(cloud.world) then Published(waiting[..i]) else []
      {
        granted := FinalizeNext(waiting, i, granted);
      }
      assert waiting[..|waiting|] == waiting;
    }

    /** The book is at the server's version. */
    ghost predicate AtNewest(w: World)
      reads this
    {
      book.Some? && book.value.version == |w.history|
    }

    /** Each of these users was waiting with a published key, and has been handed this project's. */
    ghost predicate HandedOut(waiting: seq<Recipient>, granted: seq<User>)
      reads this, cloud
    {
      && (forall u <- granted :: Recipient(u, true) in waiting)
      && (granted != [] ==>
            && book.Some? && key.Some? && KeyedAt(cloud.world.history, book.value.version, key.value)
            && KeysOut(cloud.world.grants, granted, key.value, book.value.version))
    }

    method FinalizeNext(waiting: seq<Recipient>, i: nat, before: seq<User>) returns (granted: seq<User>)
      requires Valid() && book.Some? && key.Some? && i < |waiting| && HandedOut(waiting, before)
      modifies cloud
      ensures Valid() && HandedOut(waiting, granted)
      ensures cloud.quiet ==> cloud.world.history == old(cloud.world).history
      ensures cloud.quiet && before == (if AtNewest(cloud.world) then Published(waiting[..i]) else []) ==>
                granted == if AtNewest(cloud.world) then Published(waiting[..i + 1]) else []
    {
      var one := FinalizeOne(waiting[i]);
      PublishedMore(waiting, i);
      granted := before + one;
    }

    /** Hands the key to one waiting member, if a public key of theirs is published and all goes well. */
    method FinalizeOne(member: Recipient) returns (granted: seq<User>)
      requires Valid() && book.Some? && key.Some?
      modifies cloud
      ensures Valid() && old(cloud.world).history <= cloud.world.history && old(cloud.world).grants <= cloud.world.grants
      ensures granted == [] || (granted == [member.user] && member.published)
      ensures granted != [] ==>
                && KeyedAt(cloud.world.history, book.value.version, key.value)
                && Grant(member.user, key.value, book.value.version) in cloud.world.grants
      ensures cloud.quiet ==>
                && cloud.world.history == old(cloud.world).history
                && granted == if book.value.version == |cloud.world.history| then Published([member]) else []
    {
      granted := [];
      if member.published {
        var works := cloud.Works();
        if works {
          var ok := cloud.SubmitMemberKey(me, member.user, key.value, book.value.version);
          if ok {
            granted := [member.user];
          }
        }
      }
    }
  }

  // ---------------------------------------------------------------------------
  // All projects
  // ---------------------------------------------------------------------------

  /** A project's id: its place among the projects there are. */
  type Id = nat

  datatype Listed = Listed(id: Id, awaitingKey: bool)

  /** One outcome per listed project, in order: each is a view, a removal or an error; and every project dropped. */
  datatype PassOutcome =
    | SignedOut
    | NoIdentity
    | SessionDead
    | PassFailed(fault: Fault)
    | Passed(outcomes: seq<Outcome>, removed: set<Id>)

  class Engine {
    const rows: seq<Project>
    const identity: bool
    var signedIn: bool
    var identityMismatch: bool

    /** No two projects share anything. */
    ghost predicate Apart() {
      forall i, j :: 0 <= i < j < |rows| ==> rows[i] != rows[j] && rows[i].cloud != rows[j].cloud
    }

    ghost function Clouds(): set<Cloud> {
      set i | 0 <= i < |rows| :: rows[i].cloud
    }

    ghost predicate AllValid()
      reads rows, Clouds()
    {
      Apart() && forall i :: 0 <= i < |rows| ==> rows[i].Valid()
    }

    ghost predicate Blank(id: Id)
      requires id < |rows|
      reads rows
    {
      rows[id].book.None?
    }

    ghost predicate Valid()
      reads this, rows, Clouds()
    {
      AllValid() && (!signedIn ==> forall i :: 0 <= i < |rows| ==> Blank(i))
    }

    constructor (rows: seq<Project>, identity: bool)
      requires forall i :: 0 <= i < |rows| ==> rows[i].Valid() && rows[i].book.None?
      requires forall i, j :: 0 <= i < j < |rows| ==> rows[i] != rows[j] && rows[i].cloud != rows[j].cloud
      ensures Valid() && this.rows == rows && this.identity == identity && !signedIn && !identityMismatch
    {
      this.rows, this.identity := rows, identity;
      signedIn, identityMismatch := false, false;
    }

    method VanishRow(id: Id)
      requires AllValid() && id < |rows|
      modifies rows[id], rows[id].cloud
      ensures AllValid() && rows[id].book.None?
      ensures forall j :: 0 <= j < |rows| && j != id ==> rows[j].book == old(rows[j].book)
    {
      rows[id].Vanish();
    }

    method BlankRow(id: Id, keepsPending: bool)
      requires AllValid() && id < |rows|
      modifies rows[id], rows[id].cloud
      ensures AllValid() && Blank(id) && (!keepsPending ==> rows[id].pending.None?)
      ensures Told(id) == old(Told(id))
      ensures forall j :: 0 <= j < |rows| && j != id ==>
                Blank(j) == old(Blank(j)) && rows[j].pending == old(rows[j].pending) && Told(j) == old(Told(j))
    {
      rows[id].Forgotten(keepsPending);
    }

    method SyncRow(id: Id, local: Option<Payload>, awaitingKey: bool) returns (o: Outcome, dead: bool)
      requires AllValid() && id < |rows|
      modifies rows[id], rows[id].cloud
      ensures AllValid() && Told(id) == (SyncCall(local), o)
      ensures dead <==> o == Failed(SessionExpired)
      ensures awaitingKey ==> o == Awaiting
      ensures forall j :: 0 <= j < |rows| && j != id ==> Told(j) == old(Told(j)) && rows[j].book == old(rows[j].book)
    {
      o, dead := rows[id].Sync(local, awaitingKey);
    }

    /** The call last made about a project, and what it came to. */
    ghost function Told(id: Id): (Call, Outcome)
      requires id < |rows|
      reads rows, Clouds()
    {
      var devices := rows[id].cloud.world.devices;
      if rows[id].me < |devices| then (devices[rows[id].me].call, devices[rows[id].me].outcome) else (NoCall, Nothing)
    }

    /** Drops every known project the server does not list any more, and touches no other. */
    method DropVanished(live: set<Id>) returns (removed: set<Id>)
      requires AllValid()
      modifies rows, Clouds()
      ensures AllValid()
      ensures removed == Vanished(live, old(Known()))
      ensures forall i :: 0 <= i < |rows| && i !in live ==> rows[i].book.None?
      ensures forall i :: 0 <= i < |rows| && i in live ==> rows[i].book == old(rows[i].book)
    {
      removed := {};
      ghost var known := Known();
      for i := 0 to |rows|
        invariant AllValid()
        invariant forall j :: 0 <= j < i && j !in live ==> rows[j].book.None?
        invariant forall j :: 0 <= j < |rows| && (j >= i || j in live) ==> rows[j].book == old(rows[j].book)
        invariant forall j :: j in removed <==> j in known && j < i && j !in live
      {
        if rows[i].book.Some? && i !in live {
          VanishRow(i);
          removed := removed + {i};
        }
      }
    }

    /** The projects there is bookkeeping of. */
    ghost function Known(): set<Id>
      reads rows
    {
      set i | 0 <= i < |rows| && rows[i].book.Some?
    }

    function Vanished(live: set<Id>, known: set<Id>): set<Id> {
      known - live
    }

    /** Forgets every project, and with a dead session every question to the user too. */
    method BlankAll(keepsPending: bool)
      requires AllValid()
      modifies rows, Clouds()
      ensures AllValid() && forall i :: 0 <= i < |rows| ==> Blank(i) && Told(i) == old(Told(i))
      ensures !keepsPending ==> forall i :: 0 <= i < |rows| ==> rows[i].pending.None?
    {
      ghost var told := seq(|rows|, i requires 0 <= i < |rows| reads rows, Clouds() => Told(i));
      for i := 0 to |rows|
        invariant AllValid()
        invariant forall j :: 0 <= j < i ==> Blank(j) && (!keepsPending ==> rows[j].pending.None?)
        invariant forall j :: 0 <= j < |rows| ==> Told(j) == told[j]
      {
        BlankRow(i, keepsPending);
      }
    }

    /** Pairing anew and signing out both leave a session, or none, without projects. */
    method SetSession(signedIn: bool)
      requires Valid()
      modifies this, rows, Clouds()
      ensures Valid() && this.signedIn == signedIn && forall i :: 0 <= i < |rows| ==> Blank(i)
    {
      this.signedIn := signedIn;
      BlankAll(true);
    }

    /** The session is dead: every project's bookkeeping and open question goes. */
    method DeadLocked()
      requires AllValid()
      modifies this, rows, Clouds()
      ensures Valid() && !signedIn && forall i :: 0 <= i < |rows| ==> rows[i].pending.None? && Told(i) == old(Told(i))
    {
      signedIn := false;
      BlankAll(false);
    }

    method ListedIds(listing: seq<Listed>) returns (live: set<Id>)
      ensures live == IdsOf(listing)
    {
      live := {};
      for k := 0 to |listing|
        invariant live == set j | 0 <= j < k :: listing[j].id
      {
        live := live + {listing[k].id};
      }
    }

    predicate Distinct(listing: seq<Listed>) {
      forall j, k :: 0 <= j < k < |listing| ==> listing[j].id != listing[k].id
    }

    function LocalOf(local: map<Id, Payload>, id: Id): Option<Payload> {
      if id in local then Some(local[id]) else None
    }

    /** Those of the listed projects that turned out to be gone. */
    function Gone(listing: seq<Listed>, outcomes: seq<Outcome>): set<Id>
      requires |outcomes| <= |listing|
    {
      set k | 0 <= k < |outcomes| && outcomes[k] == Removed :: listing[k].id
    }

    /** The session dies of the listing, or of some listed project's pass. */
    ghost predicate Died(listFault: Option<Fault>, listing: seq<Listed>)
      requires InRange(listing)
      reads rows, Clouds()
    {
      listFault == Some(SessionExpired) ||
      (listFault.None? &&
       exists k :: 0 <= k < |listing| && Told(listing[k].id).0.SyncCall? && Told(listing[k].id).1 == Failed(SessionExpired))
    }

    /**
     One full pass over the projects the server lists: the vanished ones are
     dropped, every listed one gets its own pass, in order, unless the session dies.
     It dies exactly when the listing or a project's pass is told so.
     */
    method SyncProjects(listFault: Option<Fault>, listing: seq<Listed>, local: map<Id, Payload>)
      returns (res: PassOutcome)
      requires Valid() && InRange(listing)
      modifies this, rows, Clouds()
      ensures Valid()
      ensures !old(signedIn) <==> res == SignedOut
      ensures old(signedIn) && !identity <==> res == NoIdentity
      ensures res.PassFailed? <==> old(signedIn) && identity && listFault.Some? && listFault.value != SessionExpired
      ensures res.PassFailed? ==> listFault == Some(res.fault)
      ensures res == SessionDead ==> !signedIn && Died(listFault, listing)
      ensures !res.Passed? && res != SessionDead ==> unchanged(this) && unchanged(rows) && unchanged(Clouds())
      ensures res.Passed? ==> signedIn && |res.outcomes| == |listing| && Progress(listing, local, res.outcomes)
      ensures res.Passed? ==> forall i :: 0 <= i < |rows| && i !in IdsOf(listing) ==> rows[i].book.None?
      ensures res.Passed? ==> res.removed == Vanished(IdsOf(listing), old(Known())) + Gone(listing, res.outcomes)
    {
      if !signedIn {
        return SignedOut;
      }
      if !identity {
        return NoIdentity;
      }
      if listFault.Some? {
        if listFault.value == SessionExpired {
          DeadLocked();
          return SessionDead;
        }
        return PassFailed(listFault.value);
      }
      res := SyncLive(listing, local);
    }

    /** The pass proper, once the server has listed the projects. */
    method SyncLive(listing: seq<Listed>, local: map<Id, Payload>) returns (res: PassOutcome)
      requires Valid() && signedIn && InRange(listing)
      modifies this, rows, Clouds()
      ensures Valid() && (res == SessionDead || res.Passed?)
      ensures res == SessionDead ==> !signedIn && Died(None, listing)
      ensures res.Passed? ==> signedIn && |res.outcomes| == |listing| && Progress(listing, local, res.outcomes)
      ensures res.Passed? ==> forall i :: 0 <= i < |rows| && i !in IdsOf(listing) ==> rows[i].book.None?
      ensures res.Passed? ==> res.removed == Vanished(IdsOf(listing), old(Known())) + Gone(listing, res.outcomes)
    {
      var live := ListedIds(listing);
      var removed := DropVanished(live);
      var outcomes, dead := SyncListed(listing, local, live);
      if dead {
        DeadLocked();
        return SessionDead;
      }
      res := Passed(outcomes, removed + Gone(listing, outcomes));
    }

    /** The first k listed projects each had their pass, which came to these outcomes. */
    ghost predicate AllTold(listing: seq<Listed>, local: map<Id, Payload>, outcomes: seq<Outcome>, k: nat)
      requires k <= |listing| && k <= |outcomes| && InRange(listing)
      reads rows, Clouds()
    {
      forall j :: 0 <= j < k ==> Told(listing[j].id) == (SyncCall(LocalOf(local, listing[j].id)), outcomes[j])
    }

    predicate InRange(listing: seq<Listed>) {
      forall k :: 0 <= k < |listing| ==> listing[k].id < |rows|
    }

    function IdsOf(listing: seq<Listed>): set<Id> {
      set k | 0 <= k < |listing| :: listing[k].id
    }

    /** Projects the listing itself says are without a key await one. */
    predicate KeylessAwait(listing: seq<Listed>, outcomes: seq<Outcome>)
      requires |outcomes| <= |listing|
    {
      forall k :: 0 <= k < |outcomes| && listing[k].awaitingKey ==> outcomes[k] == Awaiting
    }

    /** The pass so far: each project has had its turn, and the session lives. */
    ghost predicate Progress(listing: seq<Listed>, local: map<Id, Payload>, outcomes: seq<Outcome>)
      requires |outcomes| <= |listing| && InRange(listing)
      reads rows, Clouds()
    {
      && Failed(SessionExpired) !in outcomes && KeylessAwait(listing, outcomes)
      && (Distinct(listing) ==> AllTold(listing, local, outcomes, |outcomes|))
    }

    /** This listed project's pass was answered that the session is dead. */
    ghost predicate AskedAndDead(listing: seq<Listed>, local: map<Id, Payload>, k: nat)
      requires k < |listing| && InRange(listing)
      reads rows, Clouds()
    {
      Told(listing[k].id) == (SyncCall(LocalOf(local, listing[k].id)), Failed(SessionExpired))
    }

    /** The loop over the listed projects; it stops where the session dies. */
    method SyncListed(listing: seq<Listed>, local: map<Id, Payload>, live: set<Id>)
      returns (outcomes: seq<Outcome>, dead: bool)
      requires AllValid() && InRange(listing) && forall k :: 0 <= k < |listing| ==> listing[k].id in live
      modifies rows, Clouds()
      ensures AllValid()
      ensures forall i :: 0 <= i < |rows| && i !in live ==> rows[i].book == old(rows[i].book)
      ensures |outcomes| <= |listing|
      ensures dead ==> outcomes != [] && AskedAndDead(listing, local, |outcomes| - 1)
      ensures !dead ==> |outcomes| == |listing| && Progress(listing, local, outcomes)
    {
      outcomes, dead := [], false;
      for k := 0 to |listing|
        invariant AllValid() && |outcomes| == k && !dead && Progress(listing, local, outcomes)
        invariant forall i :: 0 <= i < |rows| && i !in live ==> rows[i].book == old(rows[i].book)
      {
        outcomes, dead := SyncNext(listing, local, outcomes);
        if dead {
          return;
        }
      }
    }

    method SyncNext(listing: seq<Listed>, local: map<Id, Payload>, before: seq<Outcome>)
      returns (outcomes: seq<Outcome>, dead: bool)
      requires AllValid() && |before| < |listing| && InRange(listing) && Progress(listing, local, before)
      modifies rows[listing[|before|].id], rows[listing[|before|].id].cloud
      ensures AllValid() && |outcomes| == |before| + 1
      ensures dead ==> AskedAndDead(listing, local, |before|)
      ensures !dead ==> Progress(listing, local, outcomes)
      ensures forall i :: 0 <= i < |rows| && i != listing[|before|].id ==> rows[i].book == old(rows[i].book)
    {
      var id := listing[|before|].id;
      var o;
      o, dead := SyncRow(id, LocalOf(local, id), listing[|before|].awaitingKey);
      outcomes := before + [o];
    }

    /** This member has been handed the key of that project, and it opens the vault at the version it is for. */
    ghost predicate Served(id: Id, user: User)
      reads rows, Clouds()
    {
      && id < |rows| && rows[id].book.Some? && rows[id].key.Some?
      && Grant(user, rows[id].key.value, rows[id].book.value.version) in rows[id].cloud.world.grants
      && KeyedAt(rows[id].cloud.world.history, rows[id].book.value.version, rows[id].key.value)
    }

    /** There is a key for the newest version of that project. */
    ghost predicate Current(id: Id)
      reads rows, Clouds()
    {
      && id < |rows| && rows[id].book.Some? && rows[id].key.Some?
      && rows[id].book.value.version == |rows[id].cloud.world.history|
    }

    /**
     The unattended pass that hands keys to waiting members, over the projects the
     user administers; once the server was caught publishing a foreign key for this
     account it hands out none and asks nothing. Everybody it reports was waiting,
     with a published key, in a project the user administers, and has been served;
     in an undisturbed project that is everybody, if there is a key for its newest
     version, and nobody if there is none.
     */
    method FinalizeProjects(administered: set<Id>, waiting: map<Id, seq<Recipient>>)
      returns (granted: seq<(Id, User)>)
      requires Valid()
      modifies Clouds()
      ensures Valid()
      ensures !signedIn || !identity || identityMismatch ==>
                granted == [] && forall i :: 0 <= i < |rows| ==> rows[i].cloud.world == old(rows[i].cloud.world)
      ensures forall g <- granted ::
                g.0 in administered && g.0 in waiting && Recipient(g.1, true) in waiting[g.0] && Served(g.0, g.1)
      ensures signedIn && identity && !identityMismatch ==>
                forall i: Id, u: User :: i < |rows| && rows[i].cloud.quiet ==>
                  ((i, u) in granted <==>
                   i in administered && i in waiting && old(Current(i)) && Recipient(u, true) in waiting[i])
    {
      granted := [];
      if !signedIn || !identity || identityMismatch {
        return;
      }
      ghost var current := set i | 0 <= i < |rows| && Current(i);
      for i := 0 to |rows|
        invariant AllValid() && Reported(administered, waiting, granted)
        invariant forall j :: i <= j < |rows| ==> (Current(j) <==> j in current)
        invariant Complete(administered, waiting, granted, current, i)
      {
        var users: seq<User> := [];
        if i in administered && i in waiting {
          users := FinalizeRow(i, waiting[i]);
        }
        CompleteMore(administered, waiting, granted, current, i, users);
        PairedIff(i, users);
        granted := granted + Paired(i, users);
      }
    }

    /** Everybody reported was due, and has been served. */
    ghost predicate Reported(administered: set<Id>, waiting: map<Id, seq<Recipient>>, granted: seq<(Id, User)>)
      reads rows, Clouds()
    {
      forall g <- granted ::
        g.0 in administered && g.0 in waiting && Recipient(g.1, true) in waiting[g.0] && Served(g.0, g.1)
    }

    /** Of the first n projects those undisturbed have given their key to everybody due, and to nobody without one. */
    ghost predicate Complete(administered: set<Id>, waiting: map<Id, seq<Recipient>>, granted: seq<(Id, User)>,
                             current: set<Id>, n: nat)
      requires n <= |rows|
    {
      && (forall g <- granted :: g.0 < n)
      && forall i: Id, u: User :: i < n && rows[i].cloud.quiet ==>
           ((i, u) in granted <==> i in administered && i in waiting && i in current && Recipient(u, true) in waiting[i])
    }

    lemma CompleteMore(administered: set<Id>, waiting: map<Id, seq<Recipient>>, granted: seq<(Id, User)>,
                       current: set<Id>, n: nat, users: seq<User>)
      requires n < |rows| && Complete(administered, waiting, granted, current, n)
      requires rows[n].cloud.quiet ==>
                 forall u :: u in users <==> n in administered && n in waiting && n in current && Recipient(u, true) in waiting[n]
      ensures Complete(administered, waiting, granted + Paired(n, users), current, n + 1)
    {
      PairedIff(n, users);
      forall i: Id, u: User | i <= n && rows[i].cloud.quiet
        ensures (i, u) in granted + Paired(n, users) <==>
                  i in administered && i in waiting && i in current && Recipient(u, true) in waiting[i]
      {
        assert (i, u) in granted ==> i < n;
      }
    }

    function Paired(id: Id, users: seq<User>): seq<(Id, User)> {
      seq(|users|, k requires 0 <= k < |users| => (id, users[k]))
    }

    lemma PairedIff(id: Id, users: seq<User>)
      ensures forall j: Id, u: User :: (j, u) in Paired(id, users) <==> j == id && u in users
    {
      forall u | u in users
        ensures (id, u) in Paired(id, users)
      {
        var k :| 0 <= k < |users| && users[k] == u;
        assert Paired(id, users)[k] == (id, u);
      }
    }

    method FinalizeRow(id: Id, waiting: seq<Recipient>) returns (users: seq<User>)
      requires AllValid() && id < |rows|
      modifies rows[id].cloud
      ensures AllValid()
      ensures forall u <- users :: Recipient(u, true) in waiting && Served(id, u)
      ensures forall j, u :: 0 <= j < |rows| && j != id && old(Served(j, u)) ==> Served(j, u)
      ensures forall j :: 0 <= j < |rows| && j != id ==> Current(j) == old(Current(j))
      ensures rows[id].cloud.quiet ==> forall u :: u in users <==> old(Current(id)) && Recipient(u, true) in waiting
    {
      users := rows[id].Finalize(waiting);
      forall u: User
        ensures u in Published(waiting) <==> Recipient(u, true) in waiting
      {
        PublishedIff(waiting, u);
      }
    }
  }
}
