/**
 What sync passes achieve when nothing interferes: a pass leaves both sides
 equal, a repeat of it changes nothing, and a fleet of devices converges.
 */
module SyncConvergence {
  import opened Common
  import opened SyncMachine
  import opened SyncSafety

  /** Device dev is signed in and not in the middle of a call. */
  predicate Ready(w: World, dev: nat) {
    dev < |w.devices| && w.devices[dev].phase.Idle? && w.devices[dev].session.Some?
  }

  /** The world after one Sync call with no fault and with no other device in between. */
  function Pass(w: World, dev: nat, p: Payload): (w': World)
    requires Ready(w, dev)
    ensures |w'.devices| == |w.devices|
    ensures forall i | 0 <= i < |w.devices| && i != dev :: w'.devices[i] == w.devices[i]
  {
    Finished(Step(w, BeginSync(dev, p)), dev)
  }

  lemma PassKeepsInv(w: World, dev: nat, p: Payload)
    requires Inv(w) && Ready(w, dev)
    ensures Inv(Pass(w, dev, p))
  {
    var w1 := Step(w, BeginSync(dev, p));
    StepKeepsInv(w, BeginSync(dev, p));
    assert CanRun(w1, []) && Run(w1, []) == w1;
    FinishedIsRun(w1, [], dev);
    RunKeepsInv(w1, [] + QuietSteps(w1, dev));
  }

  /** The device holds the newest version and has recorded so. */
  predicate Settled(w: World, dev: nat, p: Payload) {
    Ready(w, dev) && w.history != [] && p == Last(w.history).payload &&
    w.devices[dev].session.value == Session(|w.history|, Sha256(p))
  }

  /** Nothing was edited on the device since it last agreed with the server. */
  predicate Unedited(w: World, dev: nat, p: Payload) {
    Ready(w, dev) && w.devices[dev].session.value.fingerprint == Sha256(p)
  }

  /** One device's turn: a pass, and if that offers a remote payload, taking it. */
  function Turn(w: World, dev: nat, p: Payload): (r: (World, Payload))
    requires Ready(w, dev)
    ensures |r.0.devices| == |w.devices|
    ensures forall i | 0 <= i < |w.devices| && i != dev :: r.0.devices[i] == w.devices[i]
  {
    var w' := Pass(w, dev, p);
    var d := w'.devices[dev];
    if d.phase.Idle? && d.outcome.Adopt? && 0 < d.outcome.version <= |w'.history| then
      (Step(w', CommitAdopt(dev, d.outcome.version)), d.outcome.payload)
    else
      (w', p)
  }

  /** The device after the reading half of a quiet pass. */
  function AfterRead(w: World, dev: nat, p: Payload): Device
    requires Ready(w, dev)
  {
    var d := w.devices[dev].(call := SyncCall(p), puts := 0);
    AfterGet(d.(phase := Fetched(p, true, ReadServer(w.history, None, true))), true)
  }

  lemma PassReads(w: World, dev: nat, p: Payload)
    requires Ready(w, dev)
    ensures Pass(w, dev, p) == Finished(World(w.history, w.devices[dev := AfterRead(w, dev, p)]), dev)
  {
    var w1 := Step(w, BeginSync(dev, p));
    var w2 := Step(w1, Get(dev, None, true));
    var w3 := Step(w2, Decide(dev, true));
    assert Finished(w1, dev) == Finished(w2, dev) == Finished(w3, dev);
    assert w3 == World(w.history, w.devices[dev := AfterRead(w, dev, p)]);
  }

  /** A quiet pass that decides to write writes, on top of the version it read. */
  lemma PassWrites(w: World, dev: nat, p: Payload)
    requires Ready(w, dev) && AfterRead(w, dev, p).phase.Pushing?
    requires AfterRead(w, dev, p).phase.expected == |w.history|
    ensures var d := AfterRead(w, dev, p);
            var v := |w.history| + 1;
            Pass(w, dev, p) ==
              World(w.history + [Version(d.phase.payload, dev, d.phase.cause)],
                    w.devices[dev := Finish(Agree(d.(puts := d.puts + 1), v, d.phase.payload).(pending := None), Pushed(v))])
  {
    PassReads(w, dev, p);
    var w3 := World(w.history, w.devices[dev := AfterRead(w, dev, p)]);
    var w4 := Step(w3, Put(dev, None, true));
    assert w4.devices[dev].phase.put == PutOk(|w.history| + 1);
    var w5 := Step(w4, Settle(dev, true));
    assert Finished(w3, dev) == Finished(w4, dev) == Finished(w5, dev) == w5;
    assert w5.devices == w.devices[dev := w5.devices[dev]];
  }

  lemma TurnKeepsInv(w: World, dev: nat, p: Payload)
    requires Inv(w) && Ready(w, dev)
    ensures Inv(Pass(w, dev, p)) && Inv(Turn(w, dev, p).0)
  {
    PassKeepsInv(w, dev, p);
    var w' := Pass(w, dev, p);
    var d := w'.devices[dev];
    if d.phase.Idle? && d.outcome.Adopt? && 0 < d.outcome.version <= |w'.history| {
      StepKeepsInv(w', CommitAdopt(dev, d.outcome.version));
    }
  }

  // ---------------------------------------------------------------------------
  // What an undisturbed call comes to
  // ---------------------------------------------------------------------------

  /** What a call goes by, and may change: the server's versions, and what the device has recorded and asked. */
  datatype View = View(history: seq<Version>, session: Session, pending: Option<Remote>)

  predicate SignedIn(w: World, dev: nat) {
    dev < |w.devices| && w.devices[dev].session.Some?
  }

  function ViewOf(w: World, dev: nat): View
    requires SignedIn(w, dev)
  {
    View(w.history, w.devices[dev].session.value, w.devices[dev].pending)
  }

  /** The local payload is not the one last agreed on. */
  predicate Edited(v: View, p: Payload) {
    Sha256(p) != v.session.fingerprint
  }

  /** The server has a version other than the one last agreed on. */
  predicate Moved(v: View) {
    v.history != [] && |v.history| != v.session.version
  }

  /** It moved, and to another payload than the local one. */
  predicate Diverged(v: View, p: Payload) {
    Moved(v) && Last(v.history).payload != p
  }

  /** The local payload is now the newest version. */
  predicate BecomesNewest(v: View, me: nat, p: Payload, cause: Cause, r: Result, v': View) {
    && r == Pushed(|v.history| + 1)
    && v' == View(v.history + [Version(p, me, cause)], Session(|v.history| + 1, Sha256(p)), None)
  }

  /**
   What an undisturbed pass reports and leaves, each result exactly when it is due.
   A side without hosts gives way to the other, the local side first.
   */
  predicate PassComesTo(v: View, me: nat, p: Payload, r: Result, v': View) {
    && (r == InSync(0) <==> v.history == [] && CountHosts(p) == 0)
    && (r == InSync(|v.history|) && v.history != [] <==>
          v.history != [] && (if Moved(v) then !Diverged(v, p) else !Edited(v, p)))
    && (r.Adopt? <==> Diverged(v, p) && (!Edited(v, p) || CountHosts(p) == 0))
    && (r.Pushed? <==>
          || (v.history == [] && CountHosts(p) > 0)
          || (v.history != [] && !Moved(v) && Edited(v, p))
          || (Diverged(v, p) && Edited(v, p) && CountHosts(p) > 0 && CountHosts(Last(v.history).payload) == 0))
    && (r.Conflict? <==>
          Diverged(v, p) && Edited(v, p) && CountHosts(p) > 0 && CountHosts(Last(v.history).payload) > 0)
    && (r.InSync? ==> r.version == |v.history|)
    && (r.InSync? ==> v' == if Moved(v) then v.(session := Session(|v.history|, Sha256(p))) else v)
    && (r.Adopt? ==> r == Adopt(Last(v.history).payload, |v.history|) && v' == v)
    && (r.Pushed? ==>
          BecomesNewest(v, me, p, if v.history == [] then NoRemote else if Moved(v) then RemoteEmpty else RemoteUnmoved, r, v'))
    && (r.Conflict? ==>
          && r == Conflict(CountHosts(p), CountHosts(Last(v.history).payload), |v.history|)
          && v' == v.(pending := Some(Remote(Last(v.history).payload, |v.history|))))
  }

  /** An upload against the newest version is stored; against another it is not, and may be weighed anew. */
  predicate UploadComesTo(v: View, me: nat, p: Payload, retry: bool, expected: nat, cause: Cause, r: Result, v': View) {
    if expected == |v.history| then BecomesNewest(v, me, p, cause, r, v')
    else if cause == UserChoseLocal then PassComesTo(v.(pending := None), me, p, r, v')
    else if retry then PassComesTo(v, me, p, r, v')
    else r == Failed(VaultConflict) && v' == v
  }

  /** The user's answer to a conflict that was asked, or, with nothing to answer, a pass. */
  predicate AnswerComesTo(v: View, me: nat, keepLocal: bool, p: Payload, r: Result, v': View) {
    if v.pending.None? then PassComesTo(v, me, p, r, v')
    else if keepLocal then UploadComesTo(v, me, p, false, v.pending.value.version, UserChoseLocal, r, v')
    else r == Adopt(v.pending.value.payload, v.pending.value.version) && v' == v
  }

  /**
   What weighing the local payload against a vault that was read comes to, whatever
   the other devices do meanwhile: the result, what is recorded and asked then, and
   how many writes were attempted.
   */
  predicate WeighingComesTo(s: Session, asked: Option<Remote>, p: Payload, remote: Remote, opens: bool,
                            r: Result, s': Option<Session>, asked': Option<Remote>, writes: int)
  {
    var edited := Sha256(p) != s.fingerprint;
    var moved := remote.version != s.version;
    var diverged := moved && opens && remote.payload != p;
    && (!edited && !moved ==> r == InSync(remote.version) && s' == Some(s) && asked' == asked && writes == 0)
    && (moved && !opens ==> r == Failed(BlobUnopened) && s' == Some(s) && asked' == asked && writes == 0)
    && (moved && opens && remote.payload == p ==>
          && (r == InSync(remote.version) || r == Failed(SessionUnsaved))
          && s' == Some(Session(remote.version, Sha256(p))) && asked' == asked && writes == 0)
    && (diverged && (!edited || CountHosts(p) == 0) ==>
          r == Adopt(remote.payload, remote.version) && s' == Some(s) && asked' == asked && writes == 0)
    && (diverged && edited && CountHosts(p) > 0 && CountHosts(remote.payload) > 0 ==>
          && r == Conflict(CountHosts(p), CountHosts(remote.payload), remote.version)
          && s' == Some(s) && asked' == Some(remote) && writes == 0)
    && (edited && (!moved || (diverged && CountHosts(p) > 0 && CountHosts(remote.payload) == 0)) ==>
          writes > 0 || (r == Failed(BlobUnread) && s' == Some(s) && asked' == asked && writes == 0))
  }

  /** A call that is about to upload to the newest version. */
  lemma UploadLands(w: World, dev: nat)
    requires SignedIn(w, dev) && w.devices[dev].phase.Pushing? && w.devices[dev].phase.expected == |w.history|
    ensures var Pushing(p, _, _, cause) := w.devices[dev].phase;
            var w' := Finished(w, dev);
            SignedIn(w', dev) && BecomesNewest(ViewOf(w, dev), dev, p, cause, w'.devices[dev].outcome, ViewOf(w', dev))
  {
    var w1 := Step(w, Put(dev, None, true));
    var w2 := Step(w1, Settle(dev, true));
    FinishedUnfolds(w, dev);
    FinishedUnfolds(w1, dev);
    assert Finished(w, dev) == Finished(w1, dev) == w2;
  }

  /** What a pass decides on what it read: its result, or an upload that will be its result. */
  lemma ReadDecides(v: View, me: nat, p: Payload, d: Device, d': Device)
    requires d.phase.Fetched? && d.phase.payload == p && d.phase.got == ReadServer(v.history, None, true)
    requires d.session == Some(v.session) && d.pending == v.pending && d' == AfterGet(d, true)
    ensures d'.session.Some?
    ensures d'.phase.Idle? ==> PassComesTo(v, me, p, d'.outcome, View(v.history, d'.session.value, d'.pending))
    ensures !d'.phase.Idle? ==>
              && d'.session == d.session && d'.pending == d.pending
              && d'.phase.Pushing? && d'.phase.payload == p && d'.phase.expected == |v.history|
              && forall r, v' | BecomesNewest(v, me, p, d'.phase.cause, r, v') :: PassComesTo(v, me, p, r, v')
  {
  }

  lemma FetchComesTo(w: World, dev: nat)
    requires SignedIn(w, dev) && w.devices[dev].phase.Fetching?
    ensures var p := w.devices[dev].phase.payload;
            var w' := Finished(w, dev);
            SignedIn(w', dev) && PassComesTo(ViewOf(w, dev), dev, p, w'.devices[dev].outcome, ViewOf(w', dev))
  {
    var Fetching(p, _) := w.devices[dev].phase;
    var w1 := Step(w, Get(dev, None, true));
    var w2 := Step(w1, Decide(dev, true));
    FinishedUnfolds(w, dev);
    FinishedUnfolds(w1, dev);
    ReadDecides(ViewOf(w, dev), dev, p, w1.devices[dev], w2.devices[dev]);
    if !w2.devices[dev].phase.Idle? {
      UploadLands(w2, dev);
    }
  }

  lemma PushingComesTo(w: World, dev: nat)
    requires SignedIn(w, dev) && w.devices[dev].phase.Pushing?
    ensures var Pushing(p, retry, expected, cause) := w.devices[dev].phase;
            var w' := Finished(w, dev);
            && SignedIn(w', dev)
            && UploadComesTo(ViewOf(w, dev), dev, p, retry, expected, cause, w'.devices[dev].outcome, ViewOf(w', dev))
  {
    var Pushing(p, retry, expected, cause) := w.devices[dev].phase;
    if expected == |w.history| {
      UploadLands(w, dev);
    } else {
      var w1 := Step(w, Put(dev, None, true));
      var w2 := Step(w1, Settle(dev, true));
      FinishedUnfolds(w, dev);
      FinishedUnfolds(w1, dev);
      assert Finished(w, dev) == Finished(w2, dev);
      if cause == UserChoseLocal || retry {
        FetchComesTo(w2, dev);
      }
    }
  }

  /** What an undisturbed pass comes to, from any state between calls. */
  lemma PassIff(w: World, dev: nat, p: Payload)
    requires Ready(w, dev)
    ensures var w' := Pass(w, dev, p);
            SignedIn(w', dev) && PassComesTo(ViewOf(w, dev), dev, p, w'.devices[dev].outcome, ViewOf(w', dev))
  {
    FetchComesTo(Step(w, BeginSync(dev, p)), dev);
  }

  /** The world after one Resolve call with no fault and with no other device in between. */
  function Answer(w: World, dev: nat, keepLocal: bool, p: Payload): World
    requires Ready(w, dev)
  {
    Finished(Step(w, BeginResolve(dev, keepLocal, p)), dev)
  }

  /** What the user's answer to a conflict comes to. */
  lemma AnswerIff(w: World, dev: nat, keepLocal: bool, p: Payload)
    requires Ready(w, dev)
    ensures var w' := Answer(w, dev, keepLocal, p);
            && SignedIn(w', dev)
            && AnswerComesTo(ViewOf(w, dev), dev, keepLocal, p, w'.devices[dev].outcome, ViewOf(w', dev))
  {
    var w1 := Step(w, BeginResolve(dev, keepLocal, p));
    if w.devices[dev].pending.None? {
      FetchComesTo(w1, dev);
    } else if keepLocal {
      PushingComesTo(w1, dev);
    }
  }

  /** The fault that hit the request this call has just made, if one did. */
  function FaultOf(d: Device): Option<Fault> {
    if d.phase.Fetched? && d.phase.got.GetFault? then Some(d.phase.got.fault)
    else if d.phase.Answered? && d.phase.put.PutFault? then Some(d.phase.put.fault)
    else None
  }

  /** A fault, in reading or in writing, ends the call; it says which, and only a dead session is forgotten. */
  lemma FaultComesTo(w: World, a: Action)
    requires Enabled(w, a) && (a.Decide? || a.Settle?) && FaultOf(w.devices[a.dev]).Some?
    ensures var f, d, w' := FaultOf(w.devices[a.dev]).value, w.devices[a.dev], Step(w, a);
            var d' := w'.devices[a.dev];
            && w'.history == w.history && d'.phase.Idle? && d'.puts == d.puts
            && (d'.outcome == SessionDead <==> f == SessionExpired)
            && (d'.outcome == EmailUnverified <==> f == EmailNotVerified)
            && (d'.outcome == Failed(Network) <==> f == Unreachable)
            && (if f == SessionExpired then d'.session == None && d'.pending == None
                else d'.session == d.session && d'.pending == d.pending)
  {
  }

  /** What a quiet turn reports, and what it leaves behind. */
  ghost predicate TurnResult(w: World, dev: nat, p: Payload, w': World, p': Payload, r: Result) {
    Ready(w, dev) &&
    match r
    case InSync(v) =>
      w'.history == w.history && p' == p && v == |w.history| &&
      (if v == 0 then CountHosts(p) == 0 else Settled(w', dev, p))
    case Pushed(v) =>
      p' == p && Settled(w', dev, p) && v == |w.history| + 1 == |w'.history| && w.history <= w'.history
    case Adopt(q, v) =>
      w'.history == w.history && p' == q && v == |w.history| && Settled(w', dev, q)
    case Conflict(lh, rh, v) =>
      w'.history == w.history && p' == p && v == |w.history| > 0 && 0 < lh && 0 < rh &&
      p != Last(w.history).payload && w.devices[dev].session.value.version != v && !Unedited(w, dev, p)
    case _ => false
  }

  /** A quiet pass that does not write ends with its read. */
  lemma PassOutcome(w: World, dev: nat, p: Payload)
    requires Inv(w) && Ready(w, dev)
    ensures var d := AfterRead(w, dev, p);
            if d.phase.Pushing? then d.phase.expected == |w.history| && d.phase.payload == p
            else Pass(w, dev, p) == World(w.history, w.devices[dev := d])
  {
    PassReads(w, dev, p);
    assert DeviceOk(w.history, dev, w.devices[dev]);
  }

  /**
   A quiet turn has exactly these outcomes: both sides had nothing, the user must
   choose, the local payload became the newest version, or the device now holds
   the newest version and the server is untouched.
   */
  lemma TurnOutcome(w: World, dev: nat, p: Payload)
    requires Inv(w) && Ready(w, dev)
    ensures var (w', p') := Turn(w, dev, p);
            Ready(w', dev) && TurnResult(w, dev, p, w', p', Pass(w, dev, p).devices[dev].outcome)
  {
    PassOutcome(w, dev, p);
    if AfterRead(w, dev, p).phase.Pushing? {
      PassWrites(w, dev, p);
    } else {
      assert Agrees(w.history, w.devices[dev].session.value) by {
        assert DeviceOk(w.history, dev, w.devices[dev]);
      }
    }
  }

  /** A pass on a device that already holds the newest version is a no-op. */
  lemma RepeatIsNoOp(w: World, dev: nat, p: Payload)
    requires Settled(w, dev, p)
    ensures var (w', p') := Turn(w, dev, p);
            && w'.history == w.history && p' == p && Settled(w', dev, p)
            && Pass(w, dev, p).devices[dev].outcome == InSync(|w.history|)
            && w'.devices[dev].pending == w.devices[dev].pending
  {
    PassReads(w, dev, p);
  }

  /** A pass that finds a conflict, or nothing on either side, finds it again and changes nothing. */
  lemma StandstillRepeats(w: World, dev: nat, p: Payload)
    requires Inv(w) && Ready(w, dev)
    requires var r := Pass(w, dev, p).devices[dev].outcome; r.Conflict? || r == InSync(0)
    ensures var (w', p') := Turn(w, dev, p);
            && p' == p && Ready(w', dev) && Turn(w', dev, p) == (w', p)
            && w'.devices[dev] == AfterRead(w, dev, p)
  {
    PassOutcome(w, dev, p);
    TurnOutcome(w, dev, p);
    if AfterRead(w, dev, p).phase.Pushing? {
      PassWrites(w, dev, p);
    }
    var w' := Turn(w, dev, p).0;
    PassReads(w', dev, p);
    assert w'.devices[dev] == AfterRead(w, dev, p) == AfterRead(w', dev, p);
    assert w'.devices == w'.devices[dev := AfterRead(w', dev, p)];
  }

  /**
   Whatever a turn came to, a second one changes nothing: not the server, not the
   payload, nor what the device has recorded or asked; it reports the same conflict,
   or in sync.
   */
  lemma SecondTurnIsNoOp(w: World, dev: nat, p: Payload)
    requires Inv(w) && Ready(w, dev)
    ensures var r := Pass(w, dev, p).devices[dev].outcome;
            var (w', p') := Turn(w, dev, p);
            && Ready(w', dev)
            && var again := if r.Conflict? then r else InSync(|w'.history|);
               Turn(w', dev, p') ==
                 (World(w'.history, w'.devices[dev := w'.devices[dev].(call := SyncCall(p'), puts := 0, outcome := again)]), p')
  {
    TurnOutcome(w, dev, p);
    var r := Pass(w, dev, p).devices[dev].outcome;
    var (w', p') := Turn(w, dev, p);
    if r.Conflict? || r == InSync(0) {
      StandstillRepeats(w, dev, p);
      assert AfterRead(w, dev, p).outcome == r by { PassOutcome(w, dev, p); PassReads(w, dev, p); }
      var d := w'.devices[dev];
      assert d == d.(call := SyncCall(p'), puts := 0, outcome := r) && w'.devices == w'.devices[dev := d];
    } else {
      PassReads(w', dev, p');
    }
  }

  // ---------------------------------------------------------------------------
  // The fleet
  // ---------------------------------------------------------------------------

  predicate AllReady(w: World) {
    forall i | 0 <= i < |w.devices| :: Ready(w, i)
  }

  lemma TurnKeepsReady(w: World, dev: nat, p: Payload)
    requires Inv(w) && AllReady(w) && dev < |w.devices|
    ensures Inv(Turn(w, dev, p).0) && AllReady(Turn(w, dev, p).0)
  {
    TurnKeepsInv(w, dev, p);
    TurnOutcome(w, dev, p);
    var w' := Turn(w, dev, p).0;
    forall i | 0 <= i < |w'.devices|
      ensures Ready(w', i)
    {
      assert Ready(w, i);
    }
  }

  /** Devices from, from + 1, ..., take one quiet turn each. */
  function Round(w: World, vaults: seq<Payload>, from: nat): (r: (World, seq<Payload>))
    requires |vaults| == |w.devices| && from <= |vaults| && AllReady(w) && Inv(w)
    ensures |r.1| == |r.0.devices| == |vaults|
    decreases |vaults| - from
  {
    if from == |vaults| then (w, vaults)
    else
      var (w', p) := Turn(w, from, vaults[from]);
      TurnKeepsReady(w, from, vaults[from]);
      Round(w', vaults[from := p], from + 1)
  }

  /** Once no device has unsynced edits, one turn each makes every payload the server's newest. */
  lemma {:induction false} FleetConverges(w: World, vaults: seq<Payload>, from: nat)
    requires |vaults| == |w.devices| && from <= |vaults| && AllReady(w) && Inv(w)
    requires w.history != []
    requires forall i | 0 <= i < from :: Settled(w, i, vaults[i])
    requires forall i | from <= i < |vaults| :: Unedited(w, i, vaults[i])
    ensures var (w', vaults') := Round(w, vaults, from);
            && w'.history == w.history
            && forall i | 0 <= i < |vaults'| :: vaults'[i] == Last(w.history).payload && Settled(w', i, vaults'[i])
    decreases |vaults| - from
  {
    if from < |vaults| {
      TurnOutcome(w, from, vaults[from]);
      UneditedNeverPushes(w, from, vaults[from]);
      var (w', p) := Turn(w, from, vaults[from]);
      TurnKeepsReady(w, from, vaults[from]);
      FleetConverges(w', vaults[from := p], from + 1);
    }
  }

  lemma UneditedNeverPushes(w: World, dev: nat, p: Payload)
    requires Inv(w) && Unedited(w, dev, p) && w.history != []
    ensures var r := Pass(w, dev, p).devices[dev].outcome;
            (r.InSync? && r.version > 0) || r.Adopt?
  {
    TurnOutcome(w, dev, p);
    PassReads(w, dev, p);
    assert DeviceOk(w.history, dev, w.devices[dev]);
  }

  /** A device that edited on top of the newest version gets its edit stored, without being asked. */
  lemma EditorIsHeard(w: World, editor: nat, p: Payload)
    requires Inv(w) && Ready(w, editor) && w.history != []
    requires w.devices[editor].session.value.version == |w.history|
    ensures var (w', p') := Turn(w, editor, p);
            p' == p && Settled(w', editor, p) && |w'.history| <= |w.history| + 1
  {
    TurnOutcome(w, editor, p);
    PassOutcome(w, editor, p);
    if AfterRead(w, editor, p).phase.Pushing? {
      PassWrites(w, editor, p);
    }
  }

  /**
   One device edited while agreeing with the newest version, the others have no
   edits. Its turn followed by everyone's makes the edit every device's payload.
   */
  lemma EditReachesEveryone(w: World, vaults: seq<Payload>, editor: nat)
    requires |vaults| == |w.devices| && editor < |vaults| && AllReady(w) && Inv(w) && w.history != []
    requires Ready(w, editor) && w.devices[editor].session.value.version == |w.history|
    requires forall i | 0 <= i < |vaults| && i != editor :: Unedited(w, i, vaults[i])
    ensures var w1 := Turn(w, editor, vaults[editor]).0;
            && Inv(w1) && AllReady(w1)
            && forall i | 0 <= i < |vaults| :: Round(w1, vaults, 0).1[i] == vaults[editor]
  {
    EditorIsHeard(w, editor, vaults[editor]);
    TurnKeepsReady(w, editor, vaults[editor]);
    var w1 := Turn(w, editor, vaults[editor]).0;
    forall i | 0 <= i < |vaults|
      ensures Unedited(w1, i, vaults[i])
    {
      if i != editor {
        assert Unedited(w, i, vaults[i]) && w1.devices[i] == w.devices[i];
      }
    }
    FleetConverges(w1, vaults, 0);
  }
}
