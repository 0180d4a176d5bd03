/**
 The sync engine of one device, as the code has it: fields updated step by step
 by methods that talk to the server. Each method is proved to take only steps of
 the protocol machine and to leave the fields as the machine has them, so what
 holds of every run of the machine holds of the engine.
 */
module SyncEngine {
  import opened Common
  import opened SyncMachine
  import opened SyncSafety
  import opened SyncConvergence

  /** The server and the other devices. Between any two requests the others may do anything. */
  class Cloud {
    const fleet: nat    // how many devices there are
    const quiet: bool   // no faults and no activity of other devices
    var world: World
    ghost var acts: seq<Action>

    ghost predicate Valid()
      reads this
    {
      CanRun(Start(fleet), acts) && world == Run(Start(fleet), acts)
    }

    constructor (fleet: nat, quiet: bool)
      ensures Valid() && world == Start(fleet) && this.fleet == fleet && this.quiet == quiet && acts == []
    {
      this.fleet, this.quiet := fleet, quiet;
      world, acts := Start(fleet), [];
    }

    method Take(a: Action)
      requires Valid() && Enabled(world, a)
      modifies this
      ensures Valid() && world == Step(old(world), a) && acts == old(acts) + [a]
    {
      RunExtend(Start(fleet), acts, a);
      world := Step(world, a);
      acts := acts + [a];
    }

    /** Any number of steps of any other devices. */
    method OthersAct(me: nat)
      requires Valid() && me < |world.devices|
      modifies this
      ensures Valid() && old(acts) <= acts
      ensures |world.devices| == |old(world).devices| && world.devices[me] == old(world).devices[me]
      ensures quiet ==> world == old(world)
    {
      if !quiet {
        var n: int := *;
        for i := 0 to if n < 0 then 0 else n
          invariant Valid() && old(acts) <= acts
          invariant |world.devices| == |old(world).devices| && world.devices[me] == old(world).devices[me]
        {
          var a: Action := *;
          if a.dev != me && Enabled(world, a) {
            Take(a);
          }
        }
      }
    }

    method GetVault(me: nat) returns (reply: GetReply)
      requires Valid() && me < |world.devices|
      requires world.devices[me].session.Some? && world.devices[me].phase.Fetching?
      modifies this
      ensures Valid() && old(acts) <= acts && |world.devices| == |old(world).devices|
      ensures var d := old(world).devices[me];
              world.devices[me] == d.(phase := Fetched(d.phase.payload, d.phase.retry, reply))
      ensures quiet ==> Finished(world, me) == Finished(old(world), me)
    {
      OthersAct(me);
      var fault: Option<Fault>, opens: bool := *, *;
      if quiet {
        fault, opens := None, true;
      }
      Take(Get(me, fault, opens));
      reply := world.devices[me].phase.got;
    }

    method PutVault(me: nat, blob: Payload, expected: nat) returns (reply: PutReply)
      requires Valid() && me < |world.devices|
      requires world.devices[me].session.Some? && world.devices[me].phase.Pushing?
      requires world.devices[me].phase.payload == blob && world.devices[me].phase.expected == expected
      modifies this
      ensures Valid() && old(acts) <= acts && |world.devices| == |old(world).devices|
      ensures var d := old(world).devices[me];
              world.devices[me] ==
                d.(puts := d.puts + 1, phase := Answered(blob, d.phase.retry, expected, d.phase.cause, reply))
      ensures reply.PutOk? ==> reply.version == expected + 1
      ensures quiet ==> Finished(world, me) == Finished(old(world), me)
    {
      OthersAct(me);
      var fault: Option<Fault>, reaches: bool := *, *;
      if quiet || fault.None? {
        fault, reaches := None, true;
      }
      Take(Put(me, fault, reaches));
      reply := world.devices[me].phase.put;
    }

    /** Device me acts on the reply to its read. */
    method Decided(me: nat, saves: bool)
      requires Valid() && me < |world.devices|
      requires world.devices[me].session.Some? && world.devices[me].phase.Fetched?
      modifies this
      ensures Valid() && old(acts) <= acts
      ensures world == World(old(world).history, old(world).devices[me := AfterGet(old(world).devices[me], saves)])
      ensures saves ==> Finished(world, me) == Finished(old(world), me)
      ensures saves && world.devices[me].phase.Idle? ==> world == Finished(old(world), me)
    {
      Take(Decide(me, saves));
    }

    /** Device me acts on the reply to its write. */
    method Settled(me: nat, saves: bool)
      requires Valid() && me < |world.devices|
      requires world.devices[me].session.Some? && world.devices[me].phase.Answered?
      modifies this
      ensures Valid() && old(acts) <= acts
      ensures world == World(old(world).history, old(world).devices[me := AfterPut(old(world).devices[me], saves)])
      ensures saves ==> Finished(world, me) == Finished(old(world), me)
      ensures saves && world.devices[me].phase.Idle? ==> world == Finished(old(world), me)
    {
      Take(Settle(me, saves));
    }

    /** Device me gives up on its upload: its own vault file cannot be read. */
    method Unread(me: nat)
      requires Valid() && me < |world.devices|
      requires world.devices[me].session.Some? && world.devices[me].phase.Pushing?
      modifies this
      ensures Valid() && old(acts) <= acts
      ensures world == World(old(world).history,
                             old(world).devices[me := Finish(old(world).devices[me], Failed(BlobUnread))])
    {
      Take(ReadFails(me));
    }

    /** Whether reading the vault file, or writing the session file, works out. */
    method FileSystemWorks() returns (ok: bool)
      ensures quiet ==> ok
    {
      ok := *;
      if quiet {
        ok := true;
      }
    }
  }

  class Engine {
    const id: nat
    const cloud: Cloud
    var sess: Option<Session>
    var pending: Option<Remote>

    ghost function Me(): Device
      reads cloud
      requires id < |cloud.world.devices|
    {
      cloud.world.devices[id]
    }

    /** The fields are what the machine has for this device. */
    ghost predicate Coupled()
      reads this, cloud
    {
      cloud.Valid() && id < |cloud.world.devices| && Me().session == sess && Me().pending == pending
    }

    ghost predicate Valid()
      reads this, cloud
    {
      Coupled() && Me().phase.Idle?
    }

    /** What a call goes by, and may change. */
    ghost function Seen(): View
      requires sess.Some?
      reads this, cloud
    {
      View(cloud.world.history, sess.value, pending)
    }

    constructor (id: nat, cloud: Cloud)
      requires cloud.Valid() && id < |cloud.world.devices| && cloud.world.devices[id] == NewDevice
      ensures Valid() && this.id == id && this.cloud == cloud
    {
      this.id, this.cloud := id, cloud;
      sess, pending := None, None;
    }

    /** Between calls, whatever the other devices did: the bookkeeping is true and the last result honest. */
    lemma BetweenCalls()
      requires Valid()
      ensures sess.Some? ==> Agrees(cloud.world.history, sess.value)
      ensures ResultHonest(cloud.world.history, id, Me().call, Me().outcome)
      ensures Me().puts <= Budget(Me().call)
    {
      StartIsOk(cloud.fleet);
      RunKeepsInv(Start(cloud.fleet), cloud.acts);
      assert DeviceOk(cloud.world.history, id, Me());
    }

    /** A new session has agreed with nothing yet, and counts whether or not it could be saved. */
    method Pair() returns (exchanged: bool, saved: bool)
      requires Valid()
      modifies this, cloud
      ensures Valid() && old(cloud.acts) <= cloud.acts
      ensures pending == old(pending)
      ensures sess == if exchanged then Some(Session(0, NoFingerprint)) else old(sess)
      ensures saved ==> exchanged
      ensures cloud.quiet ==> saved
    {
      saved := false;
      exchanged := *;
      if exchanged || cloud.quiet {
        exchanged := true;
        cloud.Take(SyncMachine.Pair(id));
        sess := Some(Session(0, NoFingerprint));
        saved := cloud.FileSystemWorks();
      }
    }

    /**
     Takes over a pairing made elsewhere, and the version said to be installed with
     it. Nothing is checked: the device goes on as one of the machine's exactly if
     that is what the server has at this version.
     */
    method Attach(version: nat, payload: Payload) returns (saved: bool)
      requires Valid()
      modifies this, cloud
      ensures cloud.Valid() && old(cloud.acts) <= cloud.acts
      ensures sess == Some(Session(version, Sha256(payload))) && pending == old(pending)
      ensures Valid() <==> Holds(old(cloud.world).history, version, payload)
    {
      BetweenCalls();
      if Holds(cloud.world.history, version, payload) {
        cloud.Take(SyncMachine.Attach(id, version));
      }
      saved := Commit(version, Sha256(payload));
    }

    method SignOut()
      requires Valid()
      modifies this, cloud
      ensures Valid() && old(cloud.acts) <= cloud.acts
      ensures sess.None? && pending.None?
    {
      cloud.Take(SyncMachine.SignOut(id));
      sess, pending := None, None;
    }

    /** A call of its own: some steps of the machine, from its beginning to its result. */
    method Sync(payload: Payload) returns (res: Result)
      requires Valid()
      modifies this, cloud
      ensures Valid() && old(cloud.acts) <= cloud.acts && |cloud.world.devices| == |old(cloud.world).devices|
      ensures Me().call == SyncCall(payload) && Me().outcome == res
      ensures old(sess).None? ==> res == SignedOut && sess.None? && pending == old(pending)
      ensures cloud.quiet ==> cloud.world == Finished(Step(old(cloud.world), BeginSync(id, payload)), id)
      ensures cloud.quiet && old(sess).Some? ==> sess.Some? && PassComesTo(old(Seen()), id, payload, res, Seen())
    {
      cloud.Take(BeginSync(id, payload));
      if sess.None? {
        return SignedOut;
      }
      res := SyncLocked(payload, true);
    }

    method SyncLocked(payload: Payload, retryOn409: bool) returns (res: Result)
      requires Coupled() && sess.Some? && Me().phase == Fetching(payload, retryOn409)
      modifies this, cloud
      ensures Valid() && old(cloud.acts) <= cloud.acts && |cloud.world.devices| == |old(cloud.world).devices|
      ensures Me().call == old(Me().call) && Me().outcome == res
      ensures cloud.quiet ==> cloud.world == Finished(old(cloud.world), id)
      ensures cloud.quiet ==> sess.Some? && PassComesTo(old(Seen()), id, payload, res, Seen())
      ensures Me().puts >= old(Me().puts)
      decreases retryOn409, 3
    {
      hide Finished, Step, Enabled, CanRun, Run, PassComesTo;
      FetchComesTo(cloud.world, id);
      var reply := cloud.GetVault(id);
      match reply {
        case GetFault(fault) =>
          cloud.Decided(id, true);
          res := Failure(fault);
        case NoVault =>
          cloud.Decided(id, true);
          if CountHosts(payload) == 0 {
            return InSync(0);
          }
          res := PushLocked(payload, Sha256(payload), 0, retryOn409);
        case Vault(remote, opens) =>
          res := Evaluate(payload, retryOn409, remote, opens);
      }
    }

    /** The part of a pass that weighs the local payload against the remote vault it read. */
    method Evaluate(payload: Payload, retryOn409: bool, remote: Remote, opens: bool) returns (res: Result)
      requires Coupled() && sess.Some? && Me().phase == Fetched(payload, retryOn409, Vault(remote, opens))
      modifies this, cloud
      ensures Valid() && old(cloud.acts) <= cloud.acts && |cloud.world.devices| == |old(cloud.world).devices|
      ensures Me().call == old(Me().call) && Me().outcome == res
      ensures cloud.quiet ==> cloud.world == Finished(old(cloud.world), id)
      ensures WeighingComesTo(old(sess).value, old(pending), payload, remote, opens,
                              res, sess, pending, Me().puts - old(Me().puts))
      decreases retryOn409, 2
    {
      hide Finished, Step, Enabled, CanRun, Run;
      var fp := Sha256(payload);
      var localChanged := fp != sess.value.fingerprint;
      var remoteMoved := remote.version != sess.value.version;
      if !localChanged && !remoteMoved {
        cloud.Decided(id, true);
        return InSync(remote.version);
      }
      if localChanged && !remoteMoved {
        cloud.Decided(id, true);
        res := PushLocked(payload, fp, remote.version, retryOn409);
        return;
      }
      res := EvaluateMoved(payload, retryOn409, remote, opens);
    }

    /** The case that the remote moved: its payload decides, so it has to open. */
    method EvaluateMoved(payload: Payload, retryOn409: bool, remote: Remote, opens: bool) returns (res: Result)
      requires Coupled() && sess.Some? && Me().phase == Fetched(payload, retryOn409, Vault(remote, opens))
      requires remote.version != sess.value.version
      modifies this, cloud
      ensures Valid() && old(cloud.acts) <= cloud.acts && |cloud.world.devices| == |old(cloud.world).devices|
      ensures Me().call == old(Me().call) && Me().outcome == res
      ensures cloud.quiet ==> cloud.world == Finished(old(cloud.world), id)
      ensures WeighingComesTo(old(sess).value, old(pending), payload, remote, opens,
                              res, sess, pending, Me().puts - old(Me().puts))
      decreases retryOn409, 1
    {
      hide Finished, Step, Enabled, CanRun, Run;
      var fp := Sha256(payload);
      var localChanged := fp != sess.value.fingerprint;
      var lh, rh := CountHosts(payload), CountHosts(remote.payload);
      if !opens {
        cloud.Decided(id, true);
        res := Failed(BlobUnopened);
      } else if Sha256(remote.payload) == fp {
        var saved := Commit(remote.version, fp);
        cloud.Decided(id, saved);
        res := if saved then InSync(remote.version) else Failed(SessionUnsaved);
      } else if !localChanged || lh == 0 {
        cloud.Decided(id, true);
        res := Adopt(remote.payload, remote.version);
      } else if rh == 0 {
        cloud.Decided(id, true);
        res := PushLocked(payload, fp, remote.version, retryOn409);
      } else {
        pending := Some(remote);
        cloud.Decided(id, true);
        res := Conflict(lh, rh, remote.version);
      }
    }

    /** One upload against the expected version; refused, one more pass if that is still allowed. */
    method PushLocked(payload: Payload, fp: Fingerprint, expected: nat, retryOn409: bool) returns (res: Result)
      requires Coupled() && sess.Some? && fp == Sha256(payload)
      requires Me().phase.Pushing? && Me().phase.cause != UserChoseLocal
      requires Me().phase == Pushing(payload, retryOn409, expected, Me().phase.cause)
      modifies this, cloud
      ensures Valid() && old(cloud.acts) <= cloud.acts && |cloud.world.devices| == |old(cloud.world).devices|
      ensures Me().call == old(Me().call) && Me().outcome == res
      ensures cloud.quiet ==> cloud.world == Finished(old(cloud.world), id)
      ensures Me().puts > old(Me().puts)
              || (res == Failed(BlobUnread) && Me().puts == old(Me().puts) && sess == old(sess) && pending == old(pending))
      ensures cloud.quiet ==>
                && sess.Some?
                && UploadComesTo(old(Seen()), id, payload, retryOn409, expected, old(Me().phase.cause), res, Seen())
      decreases retryOn409, 0
    {
      hide Finished, Step, Enabled, CanRun, Run, UploadComesTo;
      PushingComesTo(cloud.world, id);
      var refused;
      res, refused := PutAndCommit(payload, fp, expected);
      if refused {
        cloud.Settled(id, true);
        if retryOn409 {
          res := SyncLocked(payload, false);
        }
      }
    }

    /** The write itself. On a lost race it leaves the answer to be settled by the caller. */
    method PutAndCommit(payload: Payload, fp: Fingerprint, expected: nat) returns (res: Result, refused: bool)
      requires Coupled() && sess.Some? && fp == Sha256(payload)
      requires Me().phase.Pushing? && Me().phase.payload == payload && Me().phase.expected == expected
      modifies this, cloud
      ensures Coupled() && old(cloud.acts) <= cloud.acts && |cloud.world.devices| == |old(cloud.world).devices|
      ensures Me().call == old(Me().call)
      ensures Me().puts == old(Me().puts) + (if res == Failed(BlobUnread) then 0 else 1)
      ensures refused ==>
                && sess.Some? && res == Failed(VaultConflict) && sess == old(sess) && pending == old(pending)
                && Me().phase == Answered(payload, old(Me().phase.retry), expected, old(Me().phase.cause), PutConflict)
                && (cloud.quiet ==> Finished(cloud.world, id) == Finished(old(cloud.world), id))
      ensures !refused ==>
                && Me().phase.Idle? && Me().outcome == res
                && (cloud.quiet ==> cloud.world == Finished(old(cloud.world), id))
      ensures res == Pushed(expected + 1) ==> sess == Some(Session(expected + 1, fp)) && pending.None?
      ensures res == Failed(SessionUnsaved) ==> sess == Some(Session(expected + 1, fp)) && pending == old(pending)
      ensures res == SessionDead ==> sess.None? && pending.None?
      ensures res in {EmailUnverified, Failed(Network), Failed(BlobUnread)} ==> sess == old(sess) && pending == old(pending)
      ensures res in {Pushed(expected + 1), Failed(SessionUnsaved), SessionDead, EmailUnverified, Failed(Network),
                      Failed(BlobUnread), Failed(VaultConflict)}
      ensures refused <==> res == Failed(VaultConflict)
    {
      hide Finished, Step, Enabled, CanRun, Run;
      refused := false;
      var blobRead := cloud.FileSystemWorks();
      if !blobRead {
        cloud.Unread(id);
        return Failed(BlobUnread), false;
      }
      var reply := cloud.PutVault(id, payload, expected);
      match reply {
        case PutConflict =>
          return Failed(VaultConflict), true;
        case PutFault(fault) =>
          cloud.Settled(id, true);
          res := Failure(fault);
        case PutOk(version) =>
          var saved := Commit(version, fp);
          if !saved {
            cloud.Settled(id, false);
            return Failed(SessionUnsaved), false;
          }
          pending := None;
          cloud.Settled(id, true);
          res := Pushed(version);
      }
    }

    /** The user's answer to a conflict; with none stashed it is a pass like any other. */
    method Resolve(keepLocal: bool, payload: Payload) returns (res: Result)
      requires Valid()
      modifies this, cloud
      ensures Valid() && old(cloud.acts) <= cloud.acts && |cloud.world.devices| == |old(cloud.world).devices|
      ensures Me().call == ResolveCall(keepLocal, payload) && Me().outcome == res
      ensures old(sess).None? ==> res == SignedOut && sess.None? && pending == old(pending)
      ensures old(sess).Some? && old(pending).Some? && !keepLocal ==>
                && res == Adopt(old(pending).value.payload, old(pending).value.version)
                && sess == old(sess) && pending == old(pending)
                && cloud.world.history == old(cloud.world).history && Me().puts == 0
      ensures old(sess).Some? && old(pending).Some? && keepLocal ==>
                Me().puts > 0 || (res == Failed(BlobUnread) && sess == old(sess) && pending == old(pending))
      ensures cloud.quiet && old(sess).Some? ==>
                sess.Some? && AnswerComesTo(old(Seen()), id, keepLocal, payload, res, Seen())
      ensures cloud.quiet ==> cloud.world == Finished(Step(old(cloud.world), BeginResolve(id, keepLocal, payload)), id)
    {
      cloud.Take(BeginResolve(id, keepLocal, payload));
      if sess.None? {
        return SignedOut;
      }
      if pending.None? {
        res := SyncLocked(payload, true);
      } else if keepLocal {
        res := KeepLocal(payload, pending.value.version);
      } else {
        res := Adopt(pending.value.payload, pending.value.version);
      }
    }

    /** Overwrites the version of the pending conflict; if the remote moved again, starts over. */
    method KeepLocal(payload: Payload, expected: nat) returns (res: Result)
      requires Coupled() && sess.Some? && Me().phase == Pushing(payload, false, expected, UserChoseLocal)
      modifies this, cloud
      ensures Valid() && old(cloud.acts) <= cloud.acts && |cloud.world.devices| == |old(cloud.world).devices|
      ensures Me().call == old(Me().call) && Me().outcome == res
      ensures cloud.quiet ==> cloud.world == Finished(old(cloud.world), id)
      ensures Me().puts > old(Me().puts) || (res == Failed(BlobUnread) && sess == old(sess) && pending == old(pending))
      ensures cloud.quiet ==>
                sess.Some? && UploadComesTo(old(Seen()), id, payload, false, expected, UserChoseLocal, res, Seen())
    {
      hide Finished, Step, Enabled, CanRun, Run, UploadComesTo;
      PushingComesTo(cloud.world, id);
      var refused;
      res, refused := PutAndCommit(payload, Sha256(payload), expected);
      if refused {
        cloud.Settled(id, true);
        pending := None;
        res := SyncLocked(payload, true);
      }
    }

    /**
     The caller has installed what it was offered. Nothing is checked: the device
     goes on as one of the machine's exactly if it is signed out, or that is what the
     server has at this version.
     */
    method CommitAdopt(version: nat, payload: Payload) returns (saved: bool)
      requires Valid()
      modifies this, cloud
      ensures cloud.Valid() && old(cloud.acts) <= cloud.acts
      ensures old(sess).Some? ==> sess == Some(Session(version, Sha256(payload))) && pending.None?
      ensures old(sess).None? ==> saved && sess.None? && pending == old(pending) && cloud.world == old(cloud.world)
      ensures Valid() <==> old(sess).None? || Holds(old(cloud.world).history, version, payload)
      ensures old(sess).Some? && Valid() ==>
                cloud.world == Step(old(cloud.world), SyncMachine.CommitAdopt(id, version))
    {
      if sess.None? {
        return true;
      }
      BetweenCalls();
      if Holds(cloud.world.history, version, payload) {
        cloud.Take(SyncMachine.CommitAdopt(id, version));
      }
      pending := None;
      saved := Commit(version, Sha256(payload));
    }

    /** Remembers what was agreed on, in memory and then on disk. */
    method Commit(version: nat, fp: Fingerprint) returns (saved: bool)
      modifies this`sess
      ensures sess == Some(Session(version, fp))
      ensures cloud.quiet ==> saved
    {
      sess := Some(Session(version, fp));
      saved := cloud.FileSystemWorks();
    }

    /** What a request's fault comes to: session and stash survive all but an expired session. */
    method Failure(fault: Fault) returns (res: Result)
      modifies this
      ensures fault == EmailNotVerified ==> res == EmailUnverified && sess == old(sess) && pending == old(pending)
      ensures fault == SessionExpired ==> res == SessionDead && sess.None? && pending.None?
      ensures fault == Unreachable ==> res == Failed(Network) && sess == old(sess) && pending == old(pending)
    {
      if fault == EmailNotVerified {
        return EmailUnverified;
      }
      if fault == SessionExpired {
        sess, pending := None, None;
        return SessionDead;
      }
      res := Failed(Network);
    }
  }
}
