/**
 The holder as the code has it: three fields guarded by a mutex that is held only
 for a few instructions. Each method is a sequence of lock sections; between two
 of them any number of lock sections of other operations may happen. The methods
 are proved to take only steps of the holder machine, and to keep the fields what
 the machine has them.
 */
module GrantHolder {
  import opened Common
  import opened HolderMachine
  import opened HolderSafety

  lemma CurrentIsMinted(acts: seq<Action>)
    requires CanRun(Empty, acts)
    ensures var s := Run(Empty, acts); s.grant.Some? ==> s.grant.value < |s.grants|
  {
    RunKeepsInv(acts);
  }

  lemma OpenedHasGrant(acts: seq<Action>, k: nat)
    requires CanRun(Empty, acts) && k < |Run(Empty, acts).ops| && Run(Empty, acts).ops[k].phase.Opened?
    ensures Enabled(Run(Empty, acts), Publish(k))
  {
    RunKeepsInv(acts);
    assert OpOk(Run(Empty, acts), Run(Empty, acts).ops[k]);
  }

  lemma TheRest<T>(part: seq<T>, whole: seq<T>)
    requires part <= whole
    ensures whole == part + whole[|part|..]
  {
  }

  class Holder {
    const quiet: bool   // no other operations

    // guarded by the mutex
    var grant: Option<nat>
    var epoch: nat
    var gen: nat

    // everything else there is: the grants minted so far, and the operations in flight
    var world: State
    ghost var acts: seq<Action>

    ghost predicate Running()
      reads this
    {
      CanRun(Empty, acts) && world == Run(Empty, acts)
    }

    ghost predicate Valid()
      reads this
    {
      Running() && world.grant == grant && world.epoch == epoch && world.gen == gen
    }

    /** What stays as it was for operation me while others run. */
    twostate predicate Undisturbed(me: nat)
      reads this
    {
      && old(acts) <= acts
      && |old(world).ops| <= |world.ops| && |old(world).grants| <= |world.grants|
      && (me < |old(world).ops| ==> world.ops[me] == old(world).ops[me])
      && (forall g | 0 <= g < |old(world).grants| :: world.grants[g].host == old(world).grants[g].host)
      && (quiet ==> acts == old(acts) && world == old(world))
    }

    constructor (quiet: bool)
      ensures Valid() && world == Empty && this.quiet == quiet
    {
      this.quiet := quiet;
      grant, epoch, gen := None, 0, 0;
      world, acts := Empty, [];
    }

    method Take(a: Action)
      requires Running() && Enabled(world, a)
      modifies this`world, this`acts
      ensures Running() && world == Step(old(world), a) && acts == old(acts) + [a]
    {
      RunExtend(Empty, acts, a);
      world, acts := Step(world, a), acts + [a];
    }

    /** The mutex is free: others run any number of their lock sections. */
    method Unlocked(me: nat)
      requires Valid()
      modifies this
      ensures Valid() && Undisturbed(me)
    {
      hide CanRun, Run;
      var n: int := *;
      for i := 0 to if n < 0 then 0 else n
        invariant Valid() && Undisturbed(me)
      {
        var a: Action := *;
        if !quiet && Enabled(world, a) && Owner(a) != Some(me) {
          Take(a);
          grant, epoch, gen := world.grant, world.epoch, world.gen;
        }
      }
    }

    /** Grant.Close on the grant this operation took away, or nothing if there is none. */
    method CloseVictim(me: nat)
      requires Valid() && me < |world.ops| && world.ops[me].phase.Closing?
      modifies this
      ensures Valid() && old(acts) <= acts && |old(world).ops| <= |world.ops|
      ensures world.ops[me] == old(world).ops[me].(phase := Returned(old(world).ops[me].phase.answer))
      ensures quiet ==> acts == old(acts) + [Close(me)]
    {
      Unlocked(me);
      RunKeepsInv(acts);
      assert OpOk(world, world.ops[me]);
      Take(Close(me));
    }

    /** Open: slow, outside the lock, and it may fail. */
    method OpenGrant(me: nat) returns (g: Option<nat>)
      requires Valid() && me < |world.ops| && world.ops[me].phase.Minting?
      modifies this
      ensures Valid() && old(acts) <= acts && |old(world).ops| <= |world.ops|
      ensures var op := old(world).ops[me];
              world.ops[me] == if g.Some? then op.(minted := g, phase := Opened)
                               else op.(phase := Returned(OpenFailed))
      ensures quiet ==> acts == old(acts) + [Open(me, g.Some?)]
    {
      Unlocked(me);
      var ok: bool := *;
      Take(Open(me, ok));
      g := if ok then world.ops[me].minted else None;
      Unlocked(me);
    }

    /**
     One key for both directions: off if this host is the one that has access, on
     otherwise, wherever access was before. The outcome is the one the machine gives to an
     operation that captured the state Toggle was called in.
     */
    method Toggle(host: string) returns (out: Outcome, me: nat)
      requires Valid()
      modifies this
      ensures Valid() && old(acts) <= acts
      ensures me == |old(world).ops| < |world.ops| && world.ops[me].phase == Returned(out)
      ensures world.ops[me].host == host && world.ops[me].cur == old(grant)
      ensures world.ops[me].epoch == old(epoch) && world.ops[me].gen == old(gen) + 1
      ensures old(grant).Some? ==> old(grant).value < |old(world).grants|
      ensures out.Revoked? <==> old(grant).Some? && old(world).grants[old(grant).value].host == host
      ensures out.Granted? ==> old(grant).None?
      ensures out.Replaced? ==> old(grant) == Some(out.lost)
      ensures quiet ==> ToggleComesTo(host, old(grant), old(world).grants, out != OpenFailed, out, grant, world.grants)
    {
      hide CanRun, Run, ToggleComesTo, AloneSteps;
      // lock
      CurrentIsMinted(acts);
      me := |world.ops|;
      var cur, captured := grant, epoch;
      gen := gen + 1;
      Take(BeginToggle(host));
      // unlock
      if cur.Some? && world.grants[cur.value].host == host {
        ToggleIff(old(acts), host, true);
        ghost var _, _ := ClearAndClose(me);
        return Revoked(host), me;
      }
      out := MintAndPublish(me, cur, captured);
      ToggleIff(old(acts), host, out != OpenFailed);
    }

    /** Mints a grant, and publishes it unless something settled since the state was captured. */
    method MintAndPublish(me: nat, cur: Option<nat>, captured: nat) returns (out: Outcome)
      requires Valid() && me < |world.ops| && world.ops[me].phase.Minting?
      requires world.ops[me].cur == cur && world.ops[me].epoch == captured
      modifies this
      ensures Valid() && old(acts) <= acts && |old(world).ops| <= |world.ops|
      ensures world.ops[me].phase == Returned(out)
      ensures var op := old(world).ops[me];
              world.ops[me] == op.(minted := world.ops[me].minted, phase := Returned(out))
      ensures out == OpenFailed || out == Superseded || (cur.None? && out.Granted?) ||
              (cur.Some? && out.Replaced? && out.lost == cur.value)
      ensures quiet ==> acts == old(acts) + AloneSteps(me, false, out != OpenFailed)
    {
      hide CanRun, Run;
      var g := OpenGrant(me);
      if g.None? {
        return OpenFailed;
      }
      // lock
      OpenedHasGrant(acts, me);
      Take(Publish(me));
      if epoch != captured {
        // unlock
        CloseVictim(me);
        return Superseded;
      }
      epoch := epoch + 1;
      grant := g;
      // unlock
      out := if cur.Some? then Replaced(g.value, cur.value) else Granted(g.value);
      CloseVictim(me);
    }

    /**
     When it returns, no grant minted by an operation begun before the call is
     current, and none of those operations that has yet to publish can: it is behind
     the epoch.
     */
    method Revoke() returns (me: nat)
      requires Valid()
      modifies this
      ensures Valid() && old(acts) <= acts
      ensures me == |old(world).ops| < |world.ops| && world.ops[me].phase == Returned(Withdrawn)
      ensures forall k | 0 <= k < |old(world).ops| ::
                world.ops[k].epoch < epoch && (world.ops[k].minted.Some? ==> grant != world.ops[k].minted)
      ensures old(grant).Some? ==> old(grant).value < |old(world).grants|
      ensures quiet ==>
                && grant == None
                && world.grants == if old(grant).Some? then ClosedAt(old(world).grants, old(grant).value) else old(world).grants
    {
      hide CanRun, Run;
      CurrentIsMinted(acts);
      me := |world.ops|;
      Take(BeginRevoke);
      ClearsAlone(acts, me, AloneSteps(me, true, true));
      ghost var cleared, after := ClearAndClose(me);
      forall k | 0 <= k < |old(world).ops|
        ensures world.ops[k].epoch < epoch && (world.ops[k].minted.Some? ==> grant != world.ops[k].minted)
      {
        RevokeIsFinal(cleared, me, after, k);
      }
    }

    /** Revoke's body: clear the grant and bump the epoch under the lock, close outside it. */
    method ClearAndClose(me: nat) returns (ghost cleared: seq<Action>, ghost after: seq<Action>)
      requires Valid() && me < |world.ops| && world.ops[me].phase.MustRevoke?
      modifies this
      ensures Valid() && |old(world).ops| <= |world.ops|
      ensures var op := old(world).ops[me];
              world.ops[me] == op.(phase := Returned(if op.cur.Some? then Revoked(op.host) else Withdrawn))
      ensures old(acts) <= cleared && acts == cleared + [Clear(me)] + after
      ensures CanRun(Empty, cleared) && Enabled(Run(Empty, cleared), Clear(me))
      ensures |old(world).ops| <= |Run(Empty, cleared).ops|
      ensures quiet ==> acts == old(acts) + AloneSteps(me, true, true)
    {
      hide CanRun, Run;
      Unlocked(me);
      cleared := acts;
      // lock
      Take(Clear(me));
      grant := None;
      epoch := epoch + 1;
      // unlock
      ghost var settled := acts;
      CloseVictim(me);
      after := acts[|settled|..];
      TheRest(settled, acts);
    }
  }
}
