/**
 The data key of a project over all runs: it changes exactly when a member is
 removed, whoever writes in between, and a key handed to a member opens the vault
 it is said to open.
 */
module ProjectKeys {
  import opened Common
  import opened ProjectMachine
  import opened ProjectSafety

  // ---------------------------------------------------------------------------
  // The invariant
  // ---------------------------------------------------------------------------

  /** A rotation in progress, whose new key is on no stored version yet. */
  predicate Rotating(d: Device) {
    && d.call.RemoveCall?
    && (d.phase.Pushing? || d.phase.Refetching? || d.phase.Refetched? ||
        (d.phase.Answered? && d.phase.put.PutConflict?))
  }

  predicate Unused(h: seq<Version>, k: Key) {
    forall v :: 0 <= v < |h| ==> h[v].blob.key != k
  }

  /** Only a rotation changes the key, and it changes it to a new one. */
  ghost predicate KeyHistory(h: seq<Version>) {
    && (forall v :: 0 < v < |h| && !h[v].rekeyed ==> h[v].blob.key == h[v - 1].blob.key)
    && (forall u, v :: 0 <= u < v < |h| && h[v].rekeyed ==> h[u].blob.key != h[v].blob.key)
  }

  ghost predicate KeysDrawn(w: World) {
    forall v :: 0 <= v < |w.history| ==> w.history[v].blob.key in w.drawn
  }

  ghost predicate RotationsApart(w: World) {
    && (forall i :: 0 <= i < |w.devices| && Rotating(w.devices[i]) ==>
          w.devices[i].call.newKey in w.drawn && Unused(w.history, w.devices[i].call.newKey))
    && (forall i, j :: 0 <= i < j < |w.devices| && Rotating(w.devices[i]) && Rotating(w.devices[j]) ==>
          w.devices[i].call.newKey != w.devices[j].call.newKey)
  }

  ghost predicate GrantsTrue(w: World) {
    forall g <- w.grants :: KeyedAt(w.history, g.version, g.key)
  }

  ghost predicate KeyInv(w: World) {
    KeyHistory(w.history) && KeysDrawn(w) && RotationsApart(w) && GrantsTrue(w)
  }

  // ---------------------------------------------------------------------------
  // Every step keeps it
  // ---------------------------------------------------------------------------

  /** A held key aimed at the newest version is that version's key. */
  lemma HeldKeyIsCurrent(h: seq<Version>, d: Device, version: nat, k: Key)
    requires HeldOk(h, d) && d.key == Some(k) && version <= Newest(d) && version == |h|
    ensures KeyedAt(h, |h|, k)
  {
    var v :| Newest(d) <= v && KeyedAt(h, v, k);
    assert v == |h|;
  }

  /** A write that is not a rotation keeps the key of the version it replaces. */
  lemma WriteKeepsKey(w: World, a: Action)
    requires Inv(w) && Enabled(w, a) && a.Put? && Lands(w, a) && !w.devices[a.dev].call.RemoveCall?
    ensures w.devices[a.dev].phase.blob.key == Last(w.history).blob.key
  {
    var d := w.devices[a.dev];
    assert DeviceOk(w.history, a.dev, d);
    HeldKeyIsCurrent(w.history, d, d.phase.expected, d.phase.blob.key);
  }

  /** A key is handed out only for the version it opens. */
  lemma GrantIsCurrent(w: World, a: Action)
    requires Inv(w) && Enabled(w, a) && a.GrantKey? && GrantLands(w, a)
    ensures KeyedAt(w.history, |w.history|, w.devices[a.dev].key.value)
  {
    var d := w.devices[a.dev];
    assert DeviceOk(w.history, a.dev, d);
    HeldKeyIsCurrent(w.history, d, d.book.value.version, d.key.value);
  }

  /** Only beginning one makes a rotation. */
  lemma RotatingBefore(w: World, a: Action)
    requires Enabled(w, a) && !a.BeginRemove? && Rotating(StepDevice(w, a))
    ensures Rotating(w.devices[a.dev]) && StepDevice(w, a).call == w.devices[a.dev].call
    ensures a.Put? ==> !Lands(w, a)
  {
  }

  lemma HistoryGrows(h: seq<Version>, x: Version)
    requires h != [] && KeyHistory(h)
    requires if x.rekeyed then Unused(h, x.blob.key) else x.blob.key == Last(h).blob.key
    ensures KeyHistory(h + [x])
  {
  }

  lemma LandingKeepsKeys(w: World, a: Action)
    requires Inv(w) && KeyInv(w) && Enabled(w, a) && a.Put? && Lands(w, a)
    ensures KeyHistory(Step(w, a).history) && KeysDrawn(Step(w, a))
    ensures forall k :: Unused(w.history, k) && k != w.devices[a.dev].phase.blob.key ==> Unused(Step(w, a).history, k)
    ensures w.devices[a.dev].call.RemoveCall? ==> w.devices[a.dev].phase.blob.key == w.devices[a.dev].call.newKey
    ensures !w.devices[a.dev].call.RemoveCall? ==> !Unused(w.history, w.devices[a.dev].phase.blob.key)
  {
    var d := w.devices[a.dev];
    assert DeviceOk(w.history, a.dev, d);
    if d.call.RemoveCall? {
      assert Rotating(d);
    } else {
      WriteKeepsKey(w, a);
      assert w.history[|w.history| - 1].blob.key == d.phase.blob.key;
    }
    HistoryGrows(w.history, Version(d.phase.blob, a.dev, d.phase.cause, d.call.RemoveCall?));
  }

  lemma LandingKeepsApart(w: World, a: Action)
    requires Inv(w) && KeyInv(w) && Enabled(w, a) && a.Put? && Lands(w, a)
    ensures RotationsApart(Step(w, a))
  {
    LandingKeepsKeys(w, a);
    var w' := Step(w, a);
    assert !Rotating(w'.devices[a.dev]);
    assert w.devices[a.dev].call.RemoveCall? ==> Rotating(w.devices[a.dev]);
  }

  lemma OtherKeepsApart(w: World, a: Action)
    requires KeyInv(w) && Enabled(w, a) && !(a.Put? && Lands(w, a))
    ensures RotationsApart(Step(w, a))
  {
    var w' := Step(w, a);
    if !a.BeginRemove? && Rotating(w'.devices[a.dev]) {
      RotatingBefore(w, a);
    }
    if a.BeginRemove? {
      assert forall v :: 0 <= v < |w.history| ==> w.history[v].blob.key != a.newKey;
    }
  }

  lemma StepKeepsKeyInv(w: World, a: Action)
    requires Inv(w) && KeyInv(w) && Enabled(w, a)
    ensures KeyInv(Step(w, a))
  {
    if a.Put? && Lands(w, a) {
      LandingKeepsKeys(w, a);
      LandingKeepsApart(w, a);
    } else {
      OtherKeepsApart(w, a);
      if a.GrantKey? && GrantLands(w, a) {
        GrantIsCurrent(w, a);
      }
    }
  }

  lemma {:induction false} RunKeepsKeyInv(w: World, acts: seq<Action>)
    requires Inv(w) && KeyInv(w) && CanRun(w, acts)
    ensures Inv(Run(w, acts)) && KeyInv(Run(w, acts))
    decreases |acts|
  {
    if acts != [] {
      var before := acts[..|acts| - 1];
      RunKeepsKeyInv(w, before);
      StepKeepsInv(Run(w, before), Last(acts));
      StepKeepsKeyInv(Run(w, before), Last(acts));
    }
  }

  lemma ProjectKeepsKeys(n: nat, creator: nat, told: bool, p: Payload, key: Key, acts: seq<Action>)
    requires CanRun(Start(n, creator, told, p, key), acts)
    ensures Inv(Run(Start(n, creator, told, p, key), acts)) && KeyInv(Run(Start(n, creator, told, p, key), acts))
  {
    StartIsOk(n, creator, told, p, key);
    RunKeepsKeyInv(Start(n, creator, told, p, key), acts);
  }

  // ---------------------------------------------------------------------------
  // Main results
  // ---------------------------------------------------------------------------

  predicate RekeyedWithin(h: seq<Version>, u: nat, v: nat)
    requires u <= v < |h|
  {
    exists t :: u < t <= v && h[t].rekeyed
  }

  lemma {:induction false} NoRekeyNoChange(h: seq<Version>, u: nat, v: nat)
    requires KeyHistory(h) && u <= v < |h| && !RekeyedWithin(h, u, v)
    ensures h[u].blob.key == h[v].blob.key
    decreases v
  {
    if u < v {
      NoRekeyNoChange(h, u, v - 1);
    }
  }

  lemma {:induction false} RekeyChanges(h: seq<Version>, u: nat, v: nat)
    requires KeyHistory(h) && u <= v < |h| && RekeyedWithin(h, u, v)
    ensures h[u].blob.key != h[v].blob.key
    decreases v
  {
    if !h[v].rekeyed {
      assert RekeyedWithin(h, u, v - 1);
      RekeyChanges(h, u, v - 1);
    }
  }

  /**
   Two versions open with the same key if and only if no member was removed, and
   no key rotated, between them: the key of an earlier time never opens a later
   vault, and no ordinary write, by any member, ever locks the others out.
   */
  lemma KeyChangesExactlyOnRotation(n: nat, creator: nat, told: bool, p: Payload, key: Key, acts: seq<Action>,
                                    u: nat, v: nat)
    requires CanRun(Start(n, creator, told, p, key), acts)
    requires u <= v < |Run(Start(n, creator, told, p, key), acts).history|
    ensures var h := Run(Start(n, creator, told, p, key), acts).history;
            h[u].blob.key == h[v].blob.key <==> !RekeyedWithin(h, u, v)
  {
    ProjectKeepsKeys(n, creator, told, p, key, acts);
    var h := Run(Start(n, creator, told, p, key), acts).history;
    if RekeyedWithin(h, u, v) {
      RekeyChanges(h, u, v);
    } else {
      NoRekeyNoChange(h, u, v);
    }
  }

  /** Every key ever handed to a member opens the version it was said to open. */
  lemma GrantedKeysOpen(n: nat, creator: nat, told: bool, p: Payload, key: Key, acts: seq<Action>, g: Grant)
    requires CanRun(Start(n, creator, told, p, key), acts)
    requires g in Run(Start(n, creator, told, p, key), acts).grants
    ensures KeyedAt(Run(Start(n, creator, told, p, key), acts).history, g.version, g.key)
  {
    ProjectKeepsKeys(n, creator, told, p, key, acts);
  }
}
