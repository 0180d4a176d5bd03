/**
 Ownership of the process's single remote-access grant, as a transition system.

 A Toggle captures the holder's state under the lock, mints a grant outside it
 (which may be slow, or fail), and takes the lock again to publish; a Revoke
 clears the grant under the lock and closes it outside. Any number of operations
 are in flight at once, and their lock sections interleave freely.
 */
module HolderMachine {
  import opened Common

  /** A minted grant. Grants are named by the order in which they were minted. */
  datatype Grant = Grant(host: string, closed: bool, publishedIn: Option<nat>)

  datatype Outcome =
    | OpenFailed
    | Granted(grant: nat)
    | Replaced(grant: nat, lost: nat)
    | Superseded
    | Revoked(host: string)
    | Withdrawn               // what a plain Revoke comes to

  datatype Phase =
    | Minting                 // inside Open
    | Opened                  // Open returned, not published yet
    | MustRevoke              // about to enter Revoke's lock section
    | Closing(victim: Option<nat>, answer: Outcome)
    | Returned(outcome: Outcome)

  /** One Toggle or Revoke, with what it captured on entry. */
  datatype Op = Op(host: string, cur: Option<nat>, epoch: nat, gen: nat, minted: Option<nat>, phase: Phase)

  datatype State = State(grant: Option<nat>, epoch: nat, gen: nat, grants: seq<Grant>, ops: seq<Op>)

  datatype Action =
    | BeginToggle(host: string)
    | BeginRevoke
    | Open(op: nat, ok: bool)
    | Publish(op: nat)
    | Clear(op: nat)
    | Close(op: nat)

  const Empty := State(None, 0, 0, [], [])

  predicate Enabled(s: State, a: Action) {
    match a
    case BeginToggle(_) => s.grant.Some? ==> s.grant.value < |s.grants|
    case BeginRevoke => true
    case Open(k, _) => k < |s.ops| && s.ops[k].phase.Minting?
    case Publish(k) => k < |s.ops| && s.ops[k].phase.Opened? && s.ops[k].minted.Some? && s.ops[k].minted.value < |s.grants|
    case Clear(k) => k < |s.ops| && s.ops[k].phase.MustRevoke?
    case Close(k) => k < |s.ops| && s.ops[k].phase.Closing? &&
                     (s.ops[k].phase.victim.Some? ==> s.ops[k].phase.victim.value < |s.grants|)
  }

  /** Whether a publish goes through: nothing settled since the Toggle's capture. */
  predicate Wins(s: State, a: Action)
    requires a.Publish? && Enabled(s, a)
  {
    s.ops[a.op].epoch == s.epoch
  }

  function Step(s: State, a: Action): (s': State)
    requires Enabled(s, a)
    ensures |s.ops| <= |s'.ops| && |s.grants| <= |s'.grants| && s.epoch <= s'.epoch
    ensures forall k | 0 <= k < |s.ops| ::
              s'.ops[k].epoch == s.ops[k].epoch && s'.ops[k].host == s.ops[k].host && s'.ops[k].cur == s.ops[k].cur
  {
    match a
    case BeginToggle(host) =>
      var sameHost := s.grant.Some? && s.grants[s.grant.value].host == host;
      var op := Op(host, s.grant, s.epoch, s.gen + 1, None, if sameHost then MustRevoke else Minting);
      s.(gen := s.gen + 1, ops := s.ops + [op])
    case BeginRevoke =>
      s.(ops := s.ops + [Op("", None, s.epoch, 0, None, MustRevoke)])
    case Open(k, ok) =>
      if ok then
        s.(grants := s.grants + [Grant(s.ops[k].host, false, None)],
           ops := s.ops[k := s.ops[k].(minted := Some(|s.grants|), phase := Opened)])
      else
        s.(ops := s.ops[k := s.ops[k].(phase := Returned(OpenFailed))])
    case Publish(k) =>
      var op := s.ops[k];
      var g := op.minted.value;
      if !Wins(s, a) then
        s.(ops := s.ops[k := op.(phase := Closing(Some(g), Superseded))])
      else
        var out := if op.cur.Some? then Replaced(g, op.cur.value) else Granted(g);
        s.(grant := Some(g), epoch := s.epoch + 1,
           grants := s.grants[g := s.grants[g].(publishedIn := Some(s.epoch))],
           ops := s.ops[k := op.(phase := Closing(op.cur, out))])
    case Clear(k) =>
      var op := s.ops[k];
      var out := if op.cur.Some? then Revoked(op.host) else Withdrawn;
      s.(grant := None, epoch := s.epoch + 1, ops := s.ops[k := op.(phase := Closing(s.grant, out))])
    case Close(k) =>
      var op := s.ops[k];
      var grants := if op.phase.victim.None? then s.grants
                    else s.grants[op.phase.victim.value := s.grants[op.phase.victim.value].(closed := true)];
      s.(grants := grants, ops := s.ops[k := op.(phase := Returned(op.phase.answer))])
  }

  /** The operation a step belongs to, once it has begun. */
  function Owner(a: Action): Option<nat> {
    if a.BeginToggle? || a.BeginRevoke? then None else Some(a.op)
  }

  predicate CanRun(s: State, acts: seq<Action>)
    decreases |acts|, 0
  {
    acts == [] ||
    (CanRun(s, acts[..|acts| - 1]) && Enabled(Run(s, acts[..|acts| - 1]), Last(acts)))
  }

  function Run(s: State, acts: seq<Action>): State
    requires CanRun(s, acts)
    decreases |acts|, 1
  {
    if acts == [] then s else Step(Run(s, acts[..|acts| - 1]), Last(acts))
  }

  lemma RunExtend(s: State, acts: seq<Action>, a: Action)
    requires CanRun(s, acts) && Enabled(Run(s, acts), a)
    ensures CanRun(s, acts + [a]) && Run(s, acts + [a]) == Step(Run(s, acts), a)
  {
    assert (acts + [a])[..|acts|] == acts;
  }

  // ---------------------------------------------------------------------------
  // Invariant
  // ---------------------------------------------------------------------------

  /** Op is the one operation that will publish or close grant g. */
  predicate Holds(op: Op, g: nat) {
    (op.phase.Opened? && op.minted == Some(g)) || (op.phase.Closing? && op.phase.victim == Some(g))
  }

  predicate OpOk(s: State, op: Op) {
    && op.epoch <= s.epoch
    && (op.phase.Minting? ==> op.minted.None?)
    && (op.minted.Some? ==> op.minted.value < |s.grants|)
    && (op.cur.Some? ==> op.cur.value < |s.grants| && 0 < op.epoch &&
                         s.grants[op.cur.value].publishedIn == Some(op.epoch - 1))
    && (op.minted.Some? ==> s.grants[op.minted.value].host == op.host)
    && (op.minted.Some? && s.grants[op.minted.value].publishedIn.Some? ==>
          s.grants[op.minted.value].publishedIn == Some(op.epoch))
    && (op.cur.Some? && op.phase.MustRevoke? ==> s.grants[op.cur.value].host == op.host)
    && (op.cur.Some? && (op.phase.Minting? || op.phase.Opened?) ==> s.grants[op.cur.value].host != op.host)
    && (op.epoch == s.epoch && (op.phase.Minting? || op.phase.Opened?) ==> op.cur == s.grant)
    && (op.epoch == s.epoch && op.phase.MustRevoke? && op.cur.Some? ==> op.cur == s.grant)
    && (op.phase.Opened? ==> op.minted.Some? && s.grants[op.minted.value].publishedIn.None?)
    && (op.phase.Closing? && op.phase.victim.Some? ==> op.phase.victim.value < |s.grants|)
    && OutcomeOk(s, op)
  }

  /** What the outcome an operation returns, or is about to return, says is so. */
  predicate OutcomeOk(s: State, op: Op) {
    && (op.phase.Closing? ==> ClaimOk(s, op, op.phase.answer, op.phase.victim, false))
    && (op.phase.Returned? ==> ClaimOk(s, op, op.phase.outcome, None, true))
  }

  predicate ClaimOk(s: State, op: Op, out: Outcome, victim: Option<nat>, done: bool) {
    match out
    case OpenFailed => done && op.minted.None?
    case Granted(g) => op.minted == Some(g) && g < |s.grants| && s.grants[g].publishedIn == Some(op.epoch) && op.cur.None?
    case Replaced(g, lost) =>
      && op.minted == Some(g) && g < |s.grants| && s.grants[g].publishedIn == Some(op.epoch)
      && op.cur == Some(lost) && lost < |s.grants| && s.grants[lost].host != op.host
      && (if done then s.grants[lost].closed else victim == Some(lost))
    case Superseded =>
      && op.minted.Some? && op.minted.value < |s.grants| && s.grants[op.minted.value].publishedIn.None?
      && (if done then s.grants[op.minted.value].closed else victim == op.minted)
    case Revoked(host) => op.host == host && op.cur.Some? && op.cur.value < |s.grants| && s.grants[op.cur.value].host == host
    case Withdrawn => op.cur.None?
  }

  /** The current grant is live, and what was published last: the epoch has not moved since. */
  predicate CurrentLive(s: State) {
    s.grant.Some? ==>
      s.grant.value < |s.grants| && !s.grants[s.grant.value].closed &&
      0 < s.epoch && s.grants[s.grant.value].publishedIn == Some(s.epoch - 1)
  }

  /** An operation holds only live grants, and never the current one. */
  ghost predicate HeldLive(s: State) {
    forall k, g | 0 <= k < |s.ops| && 0 <= g < |s.grants| && Holds(s.ops[k], g) ::
      !s.grants[g].closed && s.grant != Some(g)
  }

  ghost predicate HeldOnce(s: State) {
    forall j, k, g | 0 <= j < |s.ops| && 0 <= k < |s.ops| && 0 <= g < |s.grants| &&
                     Holds(s.ops[j], g) && Holds(s.ops[k], g) :: j == k
  }

  ghost predicate Owned(s: State, g: nat) {
    s.grant == Some(g) || exists k :: 0 <= k < |s.ops| && Holds(s.ops[k], g)
  }

  /** Every live grant is the current one or held by an operation. */
  ghost predicate LiveOwned(s: State) {
    forall g | 0 <= g < |s.grants| && !s.grants[g].closed :: Owned(s, g)
  }

  /** Every publish happened in an epoch of its own. */
  predicate EpochsApart(s: State) {
    && (forall g | 0 <= g < |s.grants| && s.grants[g].publishedIn.Some? :: s.grants[g].publishedIn.value < s.epoch)
    && (forall f, g | 0 <= f < |s.grants| && 0 <= g < |s.grants| && f != g &&
                      s.grants[f].publishedIn.Some? && s.grants[g].publishedIn.Some? ::
          s.grants[f].publishedIn.value != s.grants[g].publishedIn.value)
  }

  ghost predicate OpsOk(s: State) {
    forall k | 0 <= k < |s.ops| :: OpOk(s, s.ops[k])
  }

  predicate MintedOnce(s: State) {
    forall j, k | 0 <= j < |s.ops| && 0 <= k < |s.ops| && s.ops[j].minted.Some? && s.ops[j].minted == s.ops[k].minted ::
      j == k
  }

  ghost predicate Inv(s: State) {
    CurrentLive(s) && HeldLive(s) && HeldOnce(s) && LiveOwned(s) && EpochsApart(s) && MintedOnce(s) && OpsOk(s)
  }

  lemma StepKeepsCurrentLive(s: State, a: Action)
    requires CurrentLive(s) && HeldLive(s) && OpsOk(s) && Enabled(s, a)
    ensures CurrentLive(Step(s, a))
  {
    if a.Publish? {
      assert Holds(s.ops[a.op], s.ops[a.op].minted.value);
    } else if a.Close? && s.ops[a.op].phase.victim.Some? {
      assert Holds(s.ops[a.op], s.ops[a.op].phase.victim.value);
    }
  }

  /** The grant an operation takes on in a step is nobody else's. */
  lemma StepKeepsHeldLive(s: State, a: Action)
    requires CurrentLive(s) && HeldLive(s) && HeldOnce(s) && OpsOk(s) && Enabled(s, a)
    ensures HeldLive(Step(s, a))
  {
    var s' := Step(s, a);
    forall k, g | 0 <= k < |s'.ops| && 0 <= g < |s'.grants| && Holds(s'.ops[k], g)
      ensures !s'.grants[g].closed && s'.grant != Some(g)
    {
      if k < |s.ops| && s'.ops[k] == s.ops[k] {
        assert OpOk(s, s.ops[k]);
        assert g < |s.grants| && Holds(s.ops[k], g);
        assert a.Close? || a.Publish? ==> !Holds(s.ops[a.op], g);
      } else if a.Publish? {
        assert OpOk(s, s.ops[k]) && Holds(s.ops[k], s.ops[k].minted.value);
      }
    }
  }

  lemma StepKeepsHeldOnce(s: State, a: Action)
    requires CurrentLive(s) && HeldLive(s) && HeldOnce(s) && OpsOk(s) && Enabled(s, a)
    ensures HeldOnce(Step(s, a))
  {
    var s' := Step(s, a);
    forall j, k, g | 0 <= j < |s'.ops| && 0 <= k < |s'.ops| && 0 <= g < |s'.grants| &&
                     Holds(s'.ops[j], g) && Holds(s'.ops[k], g)
      ensures j == k
    {
      if j < |s.ops| {
        assert OpOk(s, s.ops[j]);
      }
      if k < |s.ops| {
        assert OpOk(s, s.ops[k]);
      }
    }
  }

  lemma StepKeepsLiveOwned(s: State, a: Action)
    requires LiveOwned(s) && OpsOk(s) && Enabled(s, a)
    ensures LiveOwned(Step(s, a))
  {
    var s' := Step(s, a);
    forall g | 0 <= g < |s'.grants| && !s'.grants[g].closed
      ensures Owned(s', g)
    {
      if g < |s.grants| {
        assert Owned(s, g);
        if s.grant == Some(g) && s'.grant != Some(g) {
          assert OpOk(s, s.ops[a.op]);
          assert Holds(s'.ops[a.op], g);
        } else if s.grant != Some(g) {
          var k :| 0 <= k < |s.ops| && Holds(s.ops[k], g);
          assert s'.grant == Some(g) || Holds(s'.ops[k], g);
        }
      } else {
        assert Holds(s'.ops[a.op], g);
      }
    }
  }

  lemma StepKeepsEpochsApart(s: State, a: Action)
    requires EpochsApart(s) && Enabled(s, a)
    ensures EpochsApart(Step(s, a))
  {
  }

  /** What is recorded about an operation is not disturbed by a step of another. */
  lemma StepKeepsOtherOp(s: State, a: Action, op: Op)
    requires CurrentLive(s) && HeldLive(s) && OpsOk(s) && Enabled(s, a) && OpOk(s, op)
    requires a.Publish? && Wins(s, a) && op.minted.Some? ==> op.minted != s.ops[a.op].minted
    ensures OpOk(Step(s, a), op)
  {
    if a.Publish? {
      assert OpOk(s, s.ops[a.op]);
    }
  }

  lemma StepKeepsOwnOp(s: State, a: Action)
    requires CurrentLive(s) && HeldLive(s) && OpsOk(s) && Enabled(s, a)
    requires !a.BeginToggle? && !a.BeginRevoke?
    ensures OpOk(Step(s, a), Step(s, a).ops[a.op])
  {
    assert OpOk(s, s.ops[a.op]);
  }

  lemma StepKeepsMintedOnce(s: State, a: Action)
    requires MintedOnce(s) && OpsOk(s) && Enabled(s, a)
    ensures MintedOnce(Step(s, a))
  {
    var s' := Step(s, a);
    forall j, k | 0 <= j < |s'.ops| && 0 <= k < |s'.ops| && s'.ops[j].minted.Some? && s'.ops[j].minted == s'.ops[k].minted
      ensures j == k
    {
      if j < |s.ops| {
        assert OpOk(s, s.ops[j]);
      }
      if k < |s.ops| {
        assert OpOk(s, s.ops[k]);
      }
    }
  }

  lemma StepKeepsOpsOk(s: State, a: Action)
    requires CurrentLive(s) && HeldLive(s) && MintedOnce(s) && OpsOk(s) && Enabled(s, a)
    ensures OpsOk(Step(s, a))
  {
    var s' := Step(s, a);
    forall k | 0 <= k < |s'.ops|
      ensures OpOk(s', s'.ops[k])
    {
      if (a.BeginToggle? || a.BeginRevoke?) && k == |s.ops| {
      } else if !a.BeginToggle? && !a.BeginRevoke? && k == a.op {
        StepKeepsOwnOp(s, a);
      } else {
        assert OpOk(s, s.ops[k]);
        StepKeepsOtherOp(s, a, s.ops[k]);
      }
    }
  }

  lemma StepKeepsInv(s: State, a: Action)
    requires Inv(s) && Enabled(s, a)
    ensures Inv(Step(s, a))
  {
    StepKeepsCurrentLive(s, a);
    StepKeepsHeldLive(s, a);
    StepKeepsHeldOnce(s, a);
    StepKeepsLiveOwned(s, a);
    StepKeepsEpochsApart(s, a);
    StepKeepsMintedOnce(s, a);
    StepKeepsOpsOk(s, a);
  }

  lemma {:induction false} RunKeepsInv(acts: seq<Action>)
    requires CanRun(Empty, acts)
    ensures Inv(Run(Empty, acts))
    decreases |acts|
  {
    if acts != [] {
      RunKeepsInv(acts[..|acts| - 1]);
      StepKeepsInv(Run(Empty, acts[..|acts| - 1]), Last(acts));
    }
  }
}
