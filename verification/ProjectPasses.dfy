/**
 What project calls achieve when nothing interferes: a pass settles, a repeat of
 it changes nothing, devices without edits converge; and exactly when removing a
 member keeps the document the caller passed in.
 */
module ProjectPasses {
  import opened Common
  import opened ProjectMachine
  import opened ProjectSafety

  /** Device dev is between calls, and the vault is there. */
  predicate Ready(w: World, dev: nat) {
    w.history != [] && dev < |w.devices| && w.devices[dev].phase.Idle?
  }

  function Vaulted(w: World): Sealed
    requires w.history != []
  {
    Last(w.history).blob
  }

  /** The reading half of a pass: no fault, the caller's wrapped key opens the vault. */
  function PassRead(w: World, dev: nat, local: Option<Payload>): (w': World)
    requires Ready(w, dev)
    ensures w'.history == w.history && |w'.devices| == |w.devices|
  {
    var w1 := Step(w, BeginSync(dev, local, false));
    var w2 := Step(w1, Get(dev, None, Some(Vaulted(w).key)));
    Step(w2, Decide(dev, true))
  }

  /** A write that nothing hinders, and acting on its answer. */
  function PutAndSettle(w: World, dev: nat): (w': World)
    requires w.history != [] && dev < |w.devices| && w.devices[dev].phase.Pushing? && !w.devices[dev].call.NoCall?
    requires w.devices[dev].call.SyncCall? ==> w.devices[dev].call.local.Some?
    ensures |w'.devices| == |w.devices|
  {
    Step(Step(w, Put(dev, None, true)), Settle(dev))
  }

  /** One pass with no fault and no other device in between. */
  function Pass(w: World, dev: nat, local: Option<Payload>): (w': World)
    requires Ready(w, dev)
    ensures |w'.devices| == |w.devices|
  {
    var w3 := PassRead(w, dev, local);
    var d := w3.devices[dev];
    if d.phase.Pushing? && d.call == SyncCall(local) && local.Some? then PutAndSettle(w3, dev) else w3
  }

  /** The device shows, and has recorded, the newest version. */
  predicate Settled(w: World, dev: nat, p: Payload) {
    && Ready(w, dev) && p == Vaulted(w).payload
    && BookOf(w.devices[dev]).version == |w.history| && BookOf(w.devices[dev]).fingerprint == Sha(p)
  }

  /** Nothing was edited on the device since it last agreed with the server. */
  predicate Unedited(w: World, dev: nat, local: Option<Payload>) {
    Ready(w, dev) && (local.Some? ==> BookOf(w.devices[dev]).fingerprint == Sha(local.value))
  }

  /** What a quiet pass reports, and what it leaves behind. */
  predicate PassResult(w: World, dev: nat, local: Option<Payload>, w': World, o: Outcome) {
    && Ready(w, dev) && o.Shown? && Ready(w', dev)
    && match o.state
       case UpToDate(v) => w'.history == w.history && local == Some(o.payload) && Settled(w', dev, o.payload)
       case Pulled(v) => w'.history == w.history && Unedited(w, dev, local) && Settled(w', dev, o.payload)
       case Pushed(v) =>
         local == Some(o.payload) && |w'.history| == |w.history| + 1 && w.history <= w'.history
         && Settled(w', dev, o.payload) && !Unedited(w, dev, local)
       case InConflict(v, _, _) =>
         && w'.history == w.history && local == Some(o.payload) && !Unedited(w, dev, local)
         && w'.devices[dev].pending == Some(Remote(Vaulted(w).payload, |w.history|))
         && o.payload != Vaulted(w).payload && BookOf(w.devices[dev]).version != |w.history|
       case NotSaved => false
  }

  /** The device after the reading half. */
  lemma PassReads(w: World, dev: nat, local: Option<Payload>)
    requires Ready(w, dev)
    ensures var d := w.devices[dev].(call := SyncCall(local), puts := 0,
                                     phase := Fetched(Vault(|w.history|, Vaulted(w), Some(Vaulted(w).key))));
            PassRead(w, dev, local)
              == World(w.history,
                       w.devices[dev := Weigh(Opened(d, Vaulted(w), Vaulted(w).key), local, |w.history|, Vaulted(w), true)],
                       w.drawn, w.grants)
  {
    var w1 := Step(w, BeginSync(dev, local, false));
    var w2 := Step(w1, Get(dev, None, Some(Vaulted(w).key)));
    var w3 := Step(w2, Decide(dev, true));
    assert w3.devices == w.devices[dev := w3.devices[dev]];
  }

  /** A write that meets the version it expects lands, and its answer is acted on. */
  lemma PutLands(w: World, dev: nat)
    requires w.history != [] && dev < |w.devices| && w.devices[dev].phase.Pushing? && !w.devices[dev].call.NoCall?
    requires w.devices[dev].call.SyncCall? ==> w.devices[dev].call.local.Some?
    requires w.devices[dev].phase.expected == |w.history|
    ensures var d := w.devices[dev];
            var answered := d.(puts := d.puts + 1,
                               phase := Answered(|w.history|, d.phase.blob, d.phase.cause, PutOk(|w.history| + 1)));
            var w' := PutAndSettle(w, dev);
            && w'.history == w.history + [Version(d.phase.blob, dev, d.phase.cause, d.call.RemoveCall?)]
            && |w'.devices| == |w.devices| && w'.devices[dev] == AfterPut(answered) && w'.drawn == w.drawn
            && forall i :: 0 <= i < |w.devices| && i != dev ==> w'.devices[i] == w.devices[i]
  {
    var w1 := Step(w, Put(dev, None, true));
    assert w1.devices[dev].phase.put == PutOk(|w.history| + 1);
  }

  lemma PassOutcome(w: World, dev: nat, local: Option<Payload>)
    requires Inv(w) && Ready(w, dev)
    ensures PassResult(w, dev, local, Pass(w, dev, local), Pass(w, dev, local).devices[dev].outcome)
  {
    assert DeviceOk(w.history, dev, w.devices[dev]);
    PassReads(w, dev, local);
    var w3 := PassRead(w, dev, local);
    if w3.devices[dev].phase.Pushing? {
      PassPushes(w, dev, local, w3);
    }
  }

  lemma PassPushes(w: World, dev: nat, local: Option<Payload>, w3: World)
    requires Ready(w, dev) && w3 == PassRead(w, dev, local) && w3.devices[dev].phase.Pushing?
    ensures local.Some? && !Unedited(w, dev, local)
    ensures PassResult(w, dev, local, Pass(w, dev, local), Pass(w, dev, local).devices[dev].outcome)
  {
    PassReads(w, dev, local);
    PutLands(w3, dev);
  }

  /** After a pass that asks nothing, another pass over what was shown changes nothing but its own report. */
  lemma RepeatIsNoOp(w: World, dev: nat, local: Option<Payload>, w': World, o: Outcome)
    requires Inv(w) && Ready(w, dev)
    requires w' == Pass(w, dev, local) && o == w'.devices[dev].outcome
    requires o.Shown? ==> !o.state.InConflict?
    ensures o.Shown? && Ready(w', dev)
    ensures Pass(w', dev, Some(o.payload)).history == w'.history
    ensures Pass(w', dev, Some(o.payload)).devices[dev].outcome == Shown(o.payload, UpToDate(|w'.history|))
  {
    PassOutcome(w, dev, local);
    PassReads(w', dev, Some(o.payload));
  }

  /** A pass without local edits ends with the newest version in hand, and writes nothing. */
  lemma UneditedPassPulls(w: World, dev: nat, local: Option<Payload>)
    requires Inv(w) && Unedited(w, dev, local)
    ensures Pass(w, dev, local).history == w.history
    ensures Settled(Pass(w, dev, local), dev, Vaulted(w).payload)
    ensures Pass(w, dev, local).devices[dev].outcome.Shown?
            && Pass(w, dev, local).devices[dev].outcome.payload == Vaulted(w).payload
  {
    PassOutcome(w, dev, local);
    PassReads(w, dev, local);
  }

  /** This pass is the call run to its end. */
  lemma PassIsFinished(w: World, dev: nat, local: Option<Payload>)
    requires Inv(w) && Ready(w, dev)
    ensures var w1 := Step(w, BeginSync(dev, local, false));
            Coherent(w1.devices[dev]) && Finished(w1, dev) == Pass(w, dev, local)
  {
    var w1 := Step(w, BeginSync(dev, local, false));
    FinishedUnfolds(w1, dev);
    var w2 := Step(w1, Get(dev, None, Some(Vaulted(w).key)));
    FinishedUnfolds(w2, dev);
    var w3 := Step(w2, Decide(dev, true));
    assert w3 == PassRead(w, dev, local);
    PassReads(w, dev, local);
    if w3.devices[dev].phase.Pushing? {
      assert DeviceOk(w.history, dev, w.devices[dev]);
      WriteIsFinished(w3, dev);
    }
  }

  /** A write that meets the version it expects ends the call. */
  lemma WriteIsFinished(w: World, dev: nat)
    requires w.history != [] && dev < |w.devices| && Coherent(w.devices[dev])
    requires w.devices[dev].phase.Pushing? && w.devices[dev].phase.expected == |w.history|
    ensures Finished(w, dev) == PutAndSettle(w, dev)
  {
    FinishedUnfolds(w, dev);
    var w4 := Step(w, Put(dev, None, true));
    assert w4.devices[dev].phase.put == PutOk(|w.history| + 1);
    FinishedUnfolds(w4, dev);
  }

  // ---------------------------------------------------------------------------
  // Removing a member
  // ---------------------------------------------------------------------------

  /** The retry of a rotation that lost its race: read again, re-seal, write. */
  function Retry(w3: World, dev: nat): (w': World)
    requires w3.history != [] && dev < |w3.devices|
    requires w3.devices[dev].phase.Refetching? && w3.devices[dev].call.RemoveCall?
    ensures |w'.devices| == |w3.devices|
  {
    PutAndSettle(Resealing(w3, dev), dev)
  }

  function Resealing(w3: World, dev: nat): (w5: World)
    requires w3.history != [] && dev < |w3.devices|
    requires w3.devices[dev].phase.Refetching? && w3.devices[dev].call.RemoveCall?
    ensures w5.history == w3.history && |w5.devices| == |w3.devices|
    ensures w5.devices[dev] == w3.devices[dev].(
              phase := Pushing(|w3.history|, Sealed(Vaulted(w3).payload, w3.devices[dev].call.newKey), Resealed))
  {
    Step(Step(w3, Get(dev, None, Some(Vaulted(w3).key))), Decide(dev, true))
  }

  /** A removal with no fault and no other device in between. */
  function Removal(w: World, dev: nat, given: Payload, newKey: Key, wraps: Wraps): (w': World)
    requires Ready(w, dev) && newKey !in w.drawn
    ensures |w'.devices| == |w.devices|
  {
    var w3 := PutAndSettle(Step(w, BeginRemove(dev, given, newKey, wraps)), dev);
    if w3.devices[dev].phase.Refetching? && w3.devices[dev].call.RemoveCall? then Retry(w3, dev) else w3
  }

  /** The device was up to date with the server when the call began. */
  predicate Current(w: World, dev: nat) {
    Ready(w, dev) && BookOf(w.devices[dev]).version == |w.history|
  }

  lemma RemovalWhenCurrent(w: World, dev: nat, given: Payload, newKey: Key, wraps: Wraps)
    requires Current(w, dev) && newKey !in w.drawn
    ensures var w' := Removal(w, dev, given, newKey, wraps);
            && w'.devices[dev].outcome == OpPushed(given, |w.history| + 1)
            && w'.history == w.history + [Version(Sealed(given, newKey), dev, LastAgreed, true)]
  {
    var w1 := Step(w, BeginRemove(dev, given, newKey, wraps));
    assert w1.devices[dev].phase == Pushing(|w.history|, Sealed(given, newKey), LastAgreed) && w1.history == w.history;
    PutLands(w1, dev);
  }

  /** Against a newer version the first rotation loses its race. */
  lemma RotationRefused(w: World, dev: nat, given: Payload, newKey: Key, wraps: Wraps) returns (w3: World)
    requires Ready(w, dev) && !Current(w, dev) && newKey !in w.drawn
    ensures w3 == PutAndSettle(Step(w, BeginRemove(dev, given, newKey, wraps)), dev)
    ensures w3.history == w.history && |w3.devices| == |w.devices|
    ensures w3.devices[dev].call == RemoveCall(given, newKey, wraps)
    ensures w3.devices[dev].phase == Refetching(Sealed(given, newKey))
  {
    var w1 := Step(w, BeginRemove(dev, given, newKey, wraps));
    var w2 := Step(w1, Put(dev, None, true));
    assert w2.devices[dev].phase.put == PutConflict;
    w3 := Step(w2, Settle(dev));
  }

  /** The retry lands on the version it read. */
  lemma RetryLands(w3: World, dev: nat)
    requires w3.history != [] && dev < |w3.devices|
    requires w3.devices[dev].phase.Refetching? && w3.devices[dev].call.RemoveCall?
    ensures var blob := Sealed(Vaulted(w3).payload, w3.devices[dev].call.newKey);
            && Retry(w3, dev).devices[dev].outcome == OpPushed(blob.payload, |w3.history| + 1)
            && Retry(w3, dev).history == w3.history + [Version(blob, dev, Resealed, true)]
  {
    PutLands(Resealing(w3, dev), dev);
  }

  lemma RemovalWhenBehind(w: World, dev: nat, given: Payload, newKey: Key, wraps: Wraps)
    requires Ready(w, dev) && !Current(w, dev) && newKey !in w.drawn
    ensures var w' := Removal(w, dev, given, newKey, wraps);
            && w'.devices[dev].outcome == OpPushed(Vaulted(w).payload, |w.history| + 1)
            && w'.history == w.history + [Version(Sealed(Vaulted(w).payload, newKey), dev, Resealed, true)]
  {
    var w3 := RotationRefused(w, dev, given, newKey, wraps);
    RetryLands(w3, dev);
  }

  /**
   Removing a member always rotates the key. It uploads the document the caller
   passed in, edits included, if and only if the device was up to date or that
   document is the one on the server; otherwise the retry re-seals the server's
   document, reports that one as pushed, and the caller's edit is not in it.
   */
  lemma RemovalKeepsEditIff(w: World, dev: nat, given: Payload, newKey: Key, wraps: Wraps)
    requires Ready(w, dev) && newKey !in w.drawn
    ensures var w' := Removal(w, dev, given, newKey, wraps);
            && w'.devices[dev].outcome.OpPushed?
            && Vaulted(w') == Sealed(w'.devices[dev].outcome.payload, newKey)
            && (w'.devices[dev].outcome.payload == given <==> Current(w, dev) || given == Vaulted(w).payload)
  {
    if Current(w, dev) {
      RemovalWhenCurrent(w, dev, given, newKey, wraps);
    } else {
      RemovalWhenBehind(w, dev, given, newKey, wraps);
    }
  }

  /** This removal is the call run to its end. */
  lemma RemovalIsFinished(w: World, dev: nat, given: Payload, newKey: Key, wraps: Wraps)
    requires Ready(w, dev) && newKey !in w.drawn
    ensures var w1 := Step(w, BeginRemove(dev, given, newKey, wraps));
            Coherent(w1.devices[dev]) && Finished(w1, dev) == Removal(w, dev, given, newKey, wraps)
  {
    var w1 := Step(w, BeginRemove(dev, given, newKey, wraps));
    if Current(w, dev) {
      RemovalWhenCurrent(w, dev, given, newKey, wraps);
      WriteIsFinished(w1, dev);
    } else {
      FinishedUnfolds(w1, dev);
      var w2 := Step(w1, Put(dev, None, true));
      assert w2.devices[dev].phase.put == PutConflict;
      FinishedUnfolds(w2, dev);
      RetryIsFinished(Step(w2, Settle(dev)), dev);
    }
  }

  lemma RetryIsFinished(w3: World, dev: nat)
    requires w3.history != [] && dev < |w3.devices|
    requires w3.devices[dev].phase.Refetching? && w3.devices[dev].call.RemoveCall?
    ensures Coherent(w3.devices[dev]) && Finished(w3, dev) == Retry(w3, dev)
  {
    FinishedUnfolds(w3, dev);
    FinishedUnfolds(Step(w3, Get(dev, None, Some(Vaulted(w3).key))), dev);
    WriteIsFinished(Resealing(w3, dev), dev);
  }

  /** A pass on a device that is current and edited uploads the edit. */
  lemma EditedPassPushes(w: World, dev: nat, p: Payload)
    requires Current(w, dev) && BookOf(w.devices[dev]).fingerprint != Sha(p)
    ensures var w' := Pass(w, dev, Some(p));
            && w'.history == w.history + [Version(Sealed(p, Vaulted(w).key), dev, LastAgreed, false)]
            && w'.drawn == w.drawn && |w'.devices| == |w.devices|
            && forall i :: 0 <= i < |w.devices| && i != dev ==> w'.devices[i] == w.devices[i]
  {
    PassReads(w, dev, Some(p));
  }

  /** A pass on a device that knows nothing of the project yet. */
  lemma FirstPassPulls(w: World, dev: nat)
    requires Ready(w, dev) && w.devices[dev] == NewDevice
    ensures var w' := Pass(w, dev, None);
            && w'.history == w.history && w'.drawn == w.drawn && |w'.devices| == |w.devices|
            && Current(w', dev) && BookOf(w'.devices[dev]).fingerprint == Sha(Vaulted(w).payload)
            && forall i :: 0 <= i < |w.devices| && i != dev ==> w'.devices[i] == w.devices[i]
  {
    PassReads(w, dev, None);
  }

  /**
   The edit can be lost: device 0 created the project, device 1 pushed a change of
   its own, and device 0, with an edit nobody else has, removes a member. The call
   reports success, and the edit is on no version of the server.
   */
  lemma RemovalCanDropEdit(first: Payload, theirs: Payload, mine: Payload, wraps: Wraps, w0: World, w1: World)
    returns (w2: World, w3: World)
    requires mine != first && mine != theirs && theirs != first
    requires w0 == Start(2, 0, true, first, 7)
    requires w1 == Pass(w0, 1, None)
    ensures Ready(w1, 1) && w2 == Pass(w1, 1, Some(theirs))
    ensures Ready(w2, 0) && 8 !in w2.drawn && w3 == Removal(w2, 0, mine, 8, wraps)
    ensures w3.devices[0].outcome == OpPushed(theirs, 3)
    ensures !Stored(w3.history, mine)
  {
    FirstPassPulls(w0, 1);
    w2 := ColleaguePushed(w1, first, theirs);
    w3 := BehindDrops(w2, theirs, mine, wraps);
  }

  lemma BehindDrops(w2: World, theirs: Payload, mine: Payload, wraps: Wraps) returns (w3: World)
    requires Ready(w2, 0) && !Current(w2, 0) && 8 !in w2.drawn
    requires |w2.history| == 2 && w2.history[0].blob.payload != mine && w2.history[1].blob.payload == theirs != mine
    ensures w3 == Removal(w2, 0, mine, 8, wraps)
    ensures w3.devices[0].outcome == OpPushed(theirs, 3) && !Stored(w3.history, mine)
  {
    RemovalWhenBehind(w2, 0, mine, 8, wraps);
    w3 := Removal(w2, 0, mine, 8, wraps);
    NotAmong(w2.history, mine, Last(w3.history));
  }

  lemma ColleaguePushed(w1: World, first: Payload, theirs: Payload) returns (w2: World)
    requires Current(w1, 1) && BookOf(w1.devices[1]).fingerprint == Sha(first) && theirs != first
    requires |w1.history| == 1 && w1.history[0].blob.payload == first
    requires |w1.devices| == 2 && w1.devices[0].phase.Idle? && BookOf(w1.devices[0]).version == 1
    ensures w2 == Pass(w1, 1, Some(theirs)) && w2.drawn == w1.drawn
    ensures |w2.history| == 2 && w2.history[0].blob.payload == first && w2.history[1].blob.payload == theirs
    ensures Ready(w2, 0) && !Current(w2, 0)
  {
    EditedPassPushes(w1, 1, theirs);
    w2 := Pass(w1, 1, Some(theirs));
  }

  lemma NotAmong(h: seq<Version>, mine: Payload, x: Version)
    requires |h| == 2 && h[0].blob.payload != mine && h[1].blob.payload != mine && x.blob.payload != mine
    ensures !Stored(h + [x], mine)
  {
  }
}
