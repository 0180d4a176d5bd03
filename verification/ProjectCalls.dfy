/**
 What an undisturbed call on a shared project comes to: each outcome exactly when
 it is due, with what it leaves on the server and on the device.
 */
module ProjectCalls {
  import opened Common
  import opened ProjectMachine
  import opened ProjectPasses
  import Personal = SyncMachine

  /** What a device has of a project between calls. */
  datatype Holding = Holding(book: Option<Book>, key: Option<Key>, pending: Option<Remote>, cache: Option<Sealed>) {
    function Known(): Book {
      if book.Some? then book.value else Book(0, Personal.NoFingerprint, None)
    }

    /** The same with this version recorded as the one last agreed on. */
    function Agreed(version: nat, p: Payload): Holding {
      this.(book := Some(Known().(version := version, fingerprint := Sha(p))))
    }
  }

  function HeldBy(d: Device): Holding {
    Holding(d.book, d.key, d.pending, d.cache)
  }

  /**
   A pass over a vault that opens: by whether the local document was edited since
   the last agreement, and whether the server has moved on since.
   */
  predicate PassComesTo(h: seq<Version>, me: nat, x: Holding, local: Option<Payload>, o: Outcome,
                        h': seq<Version>, x': Holding)
    requires h != []
  {
    var n, top := |h|, Last(h).blob;
    var edited := local.Some? && Sha(local.value) != x.Known().fingerprint;
    var moved := x.Known().version != n;
    var read := Holding(Some(x.Known().(wrapped := Some(top.key))), Some(top.key), x.pending, Some(top));
    && (o == Shown(top.payload, UpToDate(n)) <==>
          (edited && moved && local.value == top.payload) || (!edited && !moved && local.Some?))
    && (o == Shown(top.payload, Pulled(n)) <==> !edited && (moved || local.None?))
    && (o.Shown? && o.state.Pushed? <==> edited && !moved)
    && (o.Shown? && o.state.InConflict? <==> edited && moved && local.value != top.payload)
    && (edited && !moved ==>
          && o == Shown(local.value, Pushed(n + 1))
          && h' == h + [Version(Sealed(local.value, top.key), me, LastAgreed, false)]
          && x' == read.Agreed(n + 1, local.value).(cache := Some(Sealed(local.value, top.key))))
    && (edited && moved && local.value != top.payload ==>
          && o == Shown(local.value, InConflict(n, Personal.CountHosts(local.value), Personal.CountHosts(top.payload)))
          && h' == h && x' == read.(pending := Some(Remote(top.payload, n))))
    && (!edited || (moved && local.value == top.payload) ==> h' == h && x' == read.Agreed(n, top.payload))
  }

  /** The upload of an edited document: stored under the key held exactly over the newest version. */
  predicate PushComesTo(h: seq<Version>, me: nat, x: Holding, given: Payload, o: Outcome, h': seq<Version>, x': Holding) {
    var n := |h|;
    && (o == Failed(KeyMissing) <==> x.key.None?)
    && (o == OpPushed(given, n + 1) <==> x.key.Some? && x.Known().version == n)
    && (o == OpConflict <==> x.key.Some? && x.Known().version != n)
    && (o.OpPushed? ==>
          && h' == h + [Version(Sealed(given, x.key.value), me, LastAgreed, false)]
          && x' == x.Agreed(n + 1, given).(cache := Some(Sealed(given, x.key.value))))
    && (!o.OpPushed? ==> h' == h && x' == x)
  }

  /** The user's answer to a conflict: the other side as it was shown, or an upload over exactly that. */
  predicate ResolveComesTo(h: seq<Version>, me: nat, x: Holding, keepLocal: bool, given: Payload, o: Outcome,
                           h': seq<Version>, x': Holding)
  {
    var n := |h|;
    && (o == Nothing <==> x.pending.None?)
    && (o.OpAdopted? <==> x.pending.Some? && !keepLocal)
    && (o == Failed(KeyMissing) <==> x.pending.Some? && keepLocal && x.key.None?)
    && (o == OpPushed(given, n + 1) <==> x.pending.Some? && keepLocal && x.key.Some? && x.pending.value.version == n)
    && (o == OpConflict <==> x.pending.Some? && keepLocal && x.key.Some? && x.pending.value.version != n)
    && (o.OpAdopted? ==>
          && o == OpAdopted(x.pending.value.payload, x.pending.value.version)
          && h' == h && x' == x.Agreed(o.version, o.payload).(pending := None))
    && (o.OpPushed? ==>
          && h' == h + [Version(Sealed(given, x.key.value), me, UserChoseLocal, false)]
          && x' == x.Agreed(n + 1, given).(pending := None, cache := Some(Sealed(given, x.key.value))))
    && (o == OpConflict ==> h' == h && x' == x.(pending := None))
    && (o == Nothing || o.Failed? ==> h' == h && x' == x)
  }

  /** After a lost race: the newest vault, if this pass's key opens it, is the same document or asked about. */
  predicate RefetchComesTo(h: seq<Version>, x: Holding, local: Payload, dek: Key, o: Outcome,
                           h': seq<Version>, x': Holding)
    requires h != []
  {
    var n, top := |h|, Last(h).blob;
    && h' == h
    && (o == Shown(local, NotSaved) <==> top.key != dek)
    && (o == Shown(local, UpToDate(n)) <==> top == Sealed(local, dek))
    && (o.Shown? && o.state.InConflict? <==> top.key == dek && top.payload != local)
    && (top.key != dek ==> x' == x)
    && (top == Sealed(local, dek) ==> x' == x.Agreed(n, local))
    && (top.key == dek && top.payload != local ==>
          && o == Shown(local, InConflict(n, Personal.CountHosts(local), Personal.CountHosts(top.payload)))
          && x' == x.(pending := Some(Remote(top.payload, n))))
  }

  /** A removal: the key is rotated, over the caller's document when that is current and over the server's otherwise. */
  predicate RemovalComesTo(h: seq<Version>, me: nat, x: Holding, given: Payload, newKey: Key, wraps: Wraps, o: Outcome,
                           h': seq<Version>, x': Holding)
    requires h != []
  {
    var n, current := |h|, x.Known().version == |h|;
    var blob := Sealed(if current then given else Last(h).blob.payload, newKey);
    var book := x.Known().(version := n + 1, fingerprint := Sha(blob.payload));
    && o == OpPushed(blob.payload, n + 1)
    && h' == h + [Version(blob, me, if current then LastAgreed else Resealed, true)]
    && x' == Holding(Some(if wraps.selfKeyed then book.(wrapped := Some(newKey)) else book), Some(newKey), x.pending,
                     Some(blob))
  }

  // ---------------------------------------------------------------------------
  // The calls of the machine
  // ---------------------------------------------------------------------------

  /** What a pass decides on an open vault: its result, or an upload. */
  lemma WeighDecides(h: seq<Version>, me: nat, d: Device, local: Option<Payload>, d': Device)
    requires h != [] && d.phase.Fetched?
    requires d' == Weigh(Opened(d, Last(h).blob, Last(h).blob.key), local, |h|, Last(h).blob, true)
    ensures d'.phase.Idle? ==> PassComesTo(h, me, HeldBy(d), local, d'.outcome, h, HeldBy(d'))
    ensures d'.call == d.call && (d'.phase.Pushing? || d'.phase.Idle?)
    ensures d'.phase.Pushing? ==>
              && local.Some? && Sha(local.value) != HeldBy(d).Known().fingerprint && HeldBy(d).Known().version == |h|
              && d'.phase == Pushing(|h|, Sealed(local.value, Last(h).blob.key), LastAgreed)
              && HeldBy(d') == Holding(Some(HeldBy(d).Known().(wrapped := Some(Last(h).blob.key))),
                                       Some(Last(h).blob.key), d.pending, Some(Last(h).blob))
  {
  }

  /** Reading the vault does not change where the pass ends. */
  lemma ReadingHalf(w: World, dev: nat, local: Option<Payload>)
    requires Ready(w, dev)
    ensures var w1, w3 := Step(w, BeginSync(dev, local, false)), PassRead(w, dev, local);
            && Coherent(w1.devices[dev]) && Coherent(w3.devices[dev])
            && Finished(w1, dev) == Finished(w3, dev)
  {
    hide Finished, Weigh, Opened;
    var w1 := Step(w, BeginSync(dev, local, false));
    FinishedUnfolds(w1, dev);
    var w2 := Step(w1, Get(dev, None, Some(Vaulted(w).key)));
    FinishedUnfolds(w2, dev);
  }

  lemma PassIff(w: World, dev: nat, local: Option<Payload>)
    requires Ready(w, dev)
    ensures var w1 := Step(w, BeginSync(dev, local, false));
            && Coherent(w1.devices[dev])
            && var w' := Finished(w1, dev);
               PassComesTo(w.history, dev, HeldBy(w.devices[dev]), local, w'.devices[dev].outcome,
                           w'.history, HeldBy(w'.devices[dev]))
  {
    hide PassComesTo, Weigh, Opened, PassRead;
    ReadingHalf(w, dev, local);
    PassReads(w, dev, local);
    var w3 := PassRead(w, dev, local);
    var d := w.devices[dev].(call := SyncCall(local), puts := 0,
                             phase := Fetched(Vault(|w.history|, Vaulted(w), Some(Vaulted(w).key))));
    WeighDecides(w.history, dev, d, local, w3.devices[dev]);
    if w3.devices[dev].phase.Pushing? {
      PassUploads(w, dev, local, w3);
    }
  }

  lemma PassUploads(w: World, dev: nat, local: Option<Payload>, w3: World)
    requires Ready(w, dev) && |w3.devices| == |w.devices| && w3.history == w.history
    requires Coherent(w3.devices[dev]) && w3.devices[dev].phase.Pushing? && w3.devices[dev].call == SyncCall(local)
    requires local.Some? && Sha(local.value) != HeldBy(w.devices[dev]).Known().fingerprint
    requires HeldBy(w.devices[dev]).Known().version == |w.history|
    requires w3.devices[dev].phase == Pushing(|w.history|, Sealed(local.value, Vaulted(w).key), LastAgreed)
    requires HeldBy(w3.devices[dev]) ==
               Holding(Some(HeldBy(w.devices[dev]).Known().(wrapped := Some(Vaulted(w).key))),
                       Some(Vaulted(w).key), w.devices[dev].pending, Some(Vaulted(w)))
    ensures var w' := Finished(w3, dev);
            PassComesTo(w.history, dev, HeldBy(w.devices[dev]), local, w'.devices[dev].outcome,
                        w'.history, HeldBy(w'.devices[dev]))
  {
    hide Finished, Step, PutAndSettle;
    WriteIsFinished(w3, dev);
    PutLands(w3, dev);
  }

  /** An upload that meets a version other than the one it expects. */
  lemma PutRefused(w: World, dev: nat) returns (w2: World)
    requires w.history != [] && dev < |w.devices| && Coherent(w.devices[dev]) && w.devices[dev].phase.Pushing?
    requires w.devices[dev].phase.expected != |w.history|
    ensures |w2.devices| == |w.devices| && Coherent(w2.devices[dev]) && w2.history == w.history
    ensures var d := w.devices[dev];
            w2.devices[dev] == AfterPut(d.(puts := d.puts + 1,
                                           phase := Answered(d.phase.expected, d.phase.blob, d.phase.cause, PutConflict)))
    ensures Finished(w, dev) == Finished(w2, dev)
  {
    FinishedUnfolds(w, dev);
    var w1 := Step(w, Put(dev, None, true));
    assert w1.devices[dev].phase.put == PutConflict;
    FinishedUnfolds(w1, dev);
    w2 := Step(w1, Settle(dev));
  }

  lemma PushIff(w: World, dev: nat, given: Payload)
    requires Ready(w, dev)
    ensures var w1 := Step(w, BeginPush(dev, given, true));
            && Coherent(w1.devices[dev])
            && var w' := Finished(w1, dev);
               PushComesTo(w.history, dev, HeldBy(w.devices[dev]), given, w'.devices[dev].outcome,
                           w'.history, HeldBy(w'.devices[dev]))
  {
    hide PutAndSettle, NewGrants, AfterGet, AfterRefetch;
    var w1 := Step(w, BeginPush(dev, given, true));
    if w.devices[dev].key.Some? {
      if BookOf(w.devices[dev]).version == |w.history| {
        WriteIsFinished(w1, dev);
        PutLands(w1, dev);
      } else {
        var w3 := PutRefused(w1, dev);
      }
    }
  }

  lemma ResolveIff(w: World, dev: nat, keepLocal: bool, given: Payload)
    requires Ready(w, dev)
    ensures var w1 := Step(w, BeginResolve(dev, keepLocal, given, true));
            && Coherent(w1.devices[dev])
            && var w' := Finished(w1, dev);
               ResolveComesTo(w.history, dev, HeldBy(w.devices[dev]), keepLocal, given, w'.devices[dev].outcome,
                              w'.history, HeldBy(w'.devices[dev]))
  {
    hide PutAndSettle, NewGrants, AfterGet, AfterRefetch;
    var w1 := Step(w, BeginResolve(dev, keepLocal, given, true));
    if w.devices[dev].pending.Some? && keepLocal && w.devices[dev].key.Some? {
      if w.devices[dev].pending.value.version == |w.history| {
        WriteIsFinished(w1, dev);
        PutLands(w1, dev);
      } else {
        var w3 := PutRefused(w1, dev);
      }
    }
  }

  /** What a pass makes of a lost race. */
  lemma RefetchIff(w: World, dev: nat)
    requires w.history != [] && dev < |w.devices| && Coherent(w.devices[dev])
    requires w.devices[dev].phase.Refetching? && w.devices[dev].call.SyncCall?
    requires w.devices[dev].call.local == Some(w.devices[dev].phase.blob.payload)
    ensures var Sealed(local, dek) := w.devices[dev].phase.blob;
            var w' := Finished(w, dev);
            RefetchComesTo(w.history, HeldBy(w.devices[dev]), local, dek, w'.devices[dev].outcome,
                           w'.history, HeldBy(w'.devices[dev]))
  {
    FinishedUnfolds(w, dev);
    var w1 := Step(w, Get(dev, None, Some(Vaulted(w).key)));
    FinishedUnfolds(w1, dev);
    var w2 := Step(w1, Decide(dev, true));
    assert Finished(w, dev) == Finished(w2, dev) == w2;
  }

  /** A removal by a device that is up to date. */
  lemma CurrentRemovalIff(w: World, dev: nat, given: Payload, newKey: Key, wraps: Wraps)
    requires Current(w, dev) && newKey !in w.drawn
    ensures var w1 := Step(w, BeginRemove(dev, given, newKey, wraps));
            && Coherent(w1.devices[dev])
            && var w' := Finished(w1, dev);
               RemovalComesTo(w.history, dev, HeldBy(w.devices[dev]), given, newKey, wraps, w'.devices[dev].outcome,
                              w'.history, HeldBy(w'.devices[dev]))
  {
    hide Finished, PutAndSettle, AfterGet, AfterRefetch;
    var w1 := Step(w, BeginRemove(dev, given, newKey, wraps));
    WriteIsFinished(w1, dev);
    PutLands(w1, dev);
  }

  /** The rest of a removal that lost its race. */
  lemma RetryComesTo(w3: World, dev: nat)
    requires w3.history != [] && dev < |w3.devices|
    requires w3.devices[dev].phase.Refetching? && w3.devices[dev].call.RemoveCall?
    requires BookOf(w3.devices[dev]).version != |w3.history|
    ensures Coherent(w3.devices[dev])
    ensures var RemoveCall(given, newKey, wraps) := w3.devices[dev].call;
            var w' := Finished(w3, dev);
            RemovalComesTo(w3.history, dev, HeldBy(w3.devices[dev]), given, newKey, wraps, w'.devices[dev].outcome,
                           w'.history, HeldBy(w'.devices[dev]))
  {
    hide Finished, Step, PutAndSettle, Resealing;
    RetryIsFinished(w3, dev);
    var w5 := Resealing(w3, dev);
    assert Retry(w3, dev) == PutAndSettle(w5, dev);
    PutLands(w5, dev);
  }

  lemma RemovalIff(w: World, dev: nat, given: Payload, newKey: Key, wraps: Wraps)
    requires Ready(w, dev) && newKey !in w.drawn
    ensures var w1 := Step(w, BeginRemove(dev, given, newKey, wraps));
            && Coherent(w1.devices[dev])
            && var w' := Finished(w1, dev);
               RemovalComesTo(w.history, dev, HeldBy(w.devices[dev]), given, newKey, wraps, w'.devices[dev].outcome,
                              w'.history, HeldBy(w'.devices[dev]))
  {
    if Current(w, dev) {
      CurrentRemovalIff(w, dev, given, newKey, wraps);
    } else {
      hide RemovalComesTo, Finished;
      var w1 := Step(w, BeginRemove(dev, given, newKey, wraps));
      var w3 := PutRefused(w1, dev);
      RetryComesTo(w3, dev);
    }
  }

  // ---------------------------------------------------------------------------
  // Trouble
  // ---------------------------------------------------------------------------

  /**
   A pass that cannot read the vault: a project that is gone is forgotten, a fault
   changes nothing, and without the right key only the key is given up.
   */
  lemma UnreadIff(d: Device, seals: bool)
    requires d.phase.Fetched? && d.call.SyncCall?
    ensures var got, x, d' := d.phase.got, HeldBy(d), AfterGet(d, seals);
            var opens := got.Vault? && got.unwrapped == Some(got.blob.key);
            && (got.Gone? ==> d'.outcome == Removed && HeldBy(d') == Holding(None, None, None, None))
            && (got.GetFault? ==> d'.outcome == Failed(got.fault) && HeldBy(d') == x)
            && (got.NoWrappedKey? || (got.Vault? && !opens) ==>
                  && d'.outcome == Awaiting && d'.key == None && d'.pending == d.pending
                  && d'.book.Some? && HeldBy(d').Known().(wrapped := None) == x.Known().(wrapped := None))
            && (!opens ==> d'.phase.Idle?)
  {
  }

  /**
   An upload that is answered with a fault leaves what the device has of the project
   as it was, except that an edit to a project that is gone makes the device forget
   it; a pass goes on to the other projects unless the session died.
   */
  lemma TroubleKeepsTheBooks(d: Device)
    requires d.phase.Answered? && Coherent(d) && (d.phase.put.PutGone? || d.phase.put.PutFault?)
    ensures var put, d' := d.phase.put, AfterPut(d);
            && d'.phase.Idle?
            && (HeldBy(d') == HeldBy(d) || (put.PutGone? && d.call.PushCall?))
            && (d'.outcome == Removed <==> put.PutGone? && d.call.PushCall?)
            && (d'.outcome == Removed ==> HeldBy(d') == Holding(None, None, None, None))
            && (d'.outcome.Shown? <==> d.call.SyncCall? && put != PutFault(SessionExpired))
            && (d'.outcome.Shown? ==> d'.outcome == Shown(d.call.local.value, NotSaved))
            && (put.PutFault? && !d.call.SyncCall? ==> d'.outcome == Failed(put.fault))
            && (put == PutFault(SessionExpired) ==> d'.outcome == Failed(SessionExpired))
            && (put.PutGone? && (d.call.ResolveCall? || d.call.RemoveCall?) ==> d'.outcome == Failed(NotFound))
  {
  }
}
