/** What every interleaving of Toggles and Revokes keeps. */
module HolderSafety {
  import opened Common
  import opened HolderMachine

  /**
   No grant is ever leaked or shared: a live grant is the current one, or exactly
   one operation in flight holds it and will publish or close it; and what is
   current or held is live.
   */
  lemma LiveGrantsHaveOneOwner(acts: seq<Action>, g: nat)
    requires CanRun(Empty, acts) && g < |Run(Empty, acts).grants|
    ensures var s := Run(Empty, acts);
            && (!s.grants[g].closed <==> Owned(s, g))
            && (forall j, k | 0 <= j < |s.ops| && 0 <= k < |s.ops| && Holds(s.ops[j], g) && Holds(s.ops[k], g) :: j == k)
            && (s.grant == Some(g) ==> forall k | 0 <= k < |s.ops| :: !Holds(s.ops[k], g))
  {
    RunKeepsInv(acts);
  }

  predicate Quiescent(s: State) {
    forall k | 0 <= k < |s.ops| :: s.ops[k].phase.Returned?
  }

  /** With nothing in flight, at most one grant is live: the one Current answers. */
  lemma AtMostOneLive(acts: seq<Action>)
    requires CanRun(Empty, acts) && Quiescent(Run(Empty, acts))
    ensures var s := Run(Empty, acts);
            forall g | 0 <= g < |s.grants| :: !s.grants[g].closed <==> s.grant == Some(g)
  {
    RunKeepsInv(acts);
    var s := Run(Empty, acts);
    forall g | 0 <= g < |s.grants|
      ensures !s.grants[g].closed <==> s.grant == Some(g)
    {
      LiveGrantsHaveOneOwner(acts, g);
    }
  }

  /** The holder's grant changes only together with the epoch, and a publisher replaces the grant it captured. */
  lemma GrantChangesWithEpoch(acts: seq<Action>, a: Action)
    requires CanRun(Empty, acts) && Enabled(Run(Empty, acts), a)
    ensures var s := Run(Empty, acts);
            var s' := Step(s, a);
            && (s'.grant != s.grant ==> s'.epoch == s.epoch + 1)
            && (s'.epoch != s.epoch <==> a.Clear? || (a.Publish? && Wins(s, a)))
            && (a.Publish? && Wins(s, a) ==> s.ops[a.op].cur == s.grant && s'.grant == s.ops[a.op].minted)
  {
    RunKeepsInv(acts);
    if a.Publish? {
      assert OpOk(Run(Empty, acts), Run(Empty, acts).ops[a.op]);
    }
  }

  // ---------------------------------------------------------------------------
  // Overtaken Toggles
  // ---------------------------------------------------------------------------

  /** A step that settles the question: a Revoke's clearing, or a publish that wins. */
  predicate Settles(s: State, a: Action) {
    Enabled(s, a) && (a.Clear? || (a.Publish? && Wins(s, a)))
  }

  /** Toggle k has not published, and never will: something settled after its capture. */
  predicate Overtaken(s: State, k: nat) {
    k < |s.ops| &&
    var op := s.ops[k];
    && (op.minted.Some? ==> op.minted.value < |s.grants| && s.grants[op.minted.value].publishedIn.None?)
    && match op.phase
       case Minting => op.epoch < s.epoch
       case Opened => op.epoch < s.epoch && op.minted.Some?
       case Closing(victim, answer) => answer == Superseded && op.minted.Some? && victim == op.minted
       case Returned(out) =>
         out == OpenFailed || (out == Superseded && op.minted.Some? && s.grants[op.minted.value].closed)
       case MustRevoke => false
  }

  lemma SettlingOvertakes(acts: seq<Action>, a: Action, k: nat)
    requires CanRun(Empty, acts) && Settles(Run(Empty, acts), a)
    requires k < |Run(Empty, acts).ops| && k != a.op
    requires Run(Empty, acts).ops[k].phase.Minting? || Run(Empty, acts).ops[k].phase.Opened?
    ensures Overtaken(Step(Run(Empty, acts), a), k)
  {
    RunKeepsInv(acts);
    assert OpOk(Run(Empty, acts), Run(Empty, acts).ops[k]);
  }

  lemma OvertakenStays(s: State, a: Action, k: nat)
    requires Inv(s) && Overtaken(s, k) && Enabled(s, a)
    ensures Overtaken(Step(s, a), k)
  {
    if a.Publish? {
      assert OpOk(s, s.ops[a.op]) && OpOk(s, s.ops[k]);
    }
  }

  lemma {:induction false} OvertakenForever(before: seq<Action>, after: seq<Action>, k: nat)
    requires CanRun(Empty, before) && Overtaken(Run(Empty, before), k) && CanRun(Empty, before + after)
    ensures Overtaken(Run(Empty, before + after), k)
    decreases |after|
  {
    if after == [] {
      assert before + after == before;
    } else {
      var shorter := after[..|after| - 1];
      assert (before + after)[..|before + after| - 1] == before + shorter;
      OvertakenForever(before, shorter, k);
      RunKeepsInv(before + shorter);
      OvertakenStays(Run(Empty, before + shorter), Last(before + after), k);
    }
  }

  /**
   A Revoke or a publish that settles while a Toggle is still minting, or has
   minted but not published, defeats it for good: whatever happens afterwards, the
   grant it mints is never published, and when the Toggle returns it has either
   failed to open or has closed that grant and says it was superseded.
   */
  lemma RevokeDefeatsToggle(before: seq<Action>, settle: Action, after: seq<Action>, k: nat)
    requires CanRun(Empty, before) && Settles(Run(Empty, before), settle)
    requires k < |Run(Empty, before).ops| && k != settle.op
    requires Run(Empty, before).ops[k].phase.Minting? || Run(Empty, before).ops[k].phase.Opened?
    requires CanRun(Empty, before + [settle] + after)
    ensures var s := Run(Empty, before + [settle] + after);
            && k < |s.ops|
            && (s.ops[k].minted.Some? ==>
                  s.ops[k].minted.value < |s.grants| && s.grants[s.ops[k].minted.value].publishedIn.None?)
            && (s.ops[k].phase.Returned? ==>
                  s.ops[k].phase.outcome == OpenFailed ||
                  (s.ops[k].phase.outcome == Superseded && s.ops[k].minted.Some? &&
                   s.grants[s.ops[k].minted.value].closed))
  {
    SettlingOvertakes(before, settle, k);
    RunExtend(Empty, before, settle);
    OvertakenForever(before + [settle], after, k);
  }

  /** From a moment at which there is no grant: there is still none, or a later epoch. */
  lemma {:induction false} NoGrantUntilLaterEpoch(before: seq<Action>, after: seq<Action>, k: nat)
    requires CanRun(Empty, before) && CanRun(Empty, before + after) && k < |Run(Empty, before).ops|
    ensures var s, s' := Run(Empty, before), Run(Empty, before + after);
            && k < |s'.ops| && s'.ops[k].epoch == s.ops[k].epoch && s.epoch <= s'.epoch
            && (s.grant.None? ==> s'.grant.None? || s.epoch < s'.epoch)
    decreases |after|
  {
    if after == [] {
      assert before + after == before;
    } else {
      var shorter := after[..|after| - 1];
      assert (before + after)[..|before + after| - 1] == before + shorter;
      NoGrantUntilLaterEpoch(before, shorter, k);
      GrantChangesWithEpoch(before + shorter, Last(before + after));
    }
  }

  /**
   A Revoke is final for everything that began before it: from its lock section
   on, whatever happens, no operation begun earlier ever has its grant current
   again, and one that has not published yet is behind the epoch.
   */
  lemma RevokeIsFinal(before: seq<Action>, me: nat, after: seq<Action>, k: nat)
    requires CanRun(Empty, before) && Enabled(Run(Empty, before), Clear(me)) && k < |Run(Empty, before).ops|
    requires CanRun(Empty, before + [Clear(me)] + after)
    ensures var s := Run(Empty, before + [Clear(me)] + after);
            && k < |s.ops|
            && (s.ops[k].minted.Some? ==> s.grant != s.ops[k].minted)
            && s.ops[k].epoch < s.epoch
  {
    RunKeepsInv(before);
    assert OpOk(Run(Empty, before), Run(Empty, before).ops[k]);
    RunExtend(Empty, before, Clear(me));
    NoGrantUntilLaterEpoch(before + [Clear(me)], after, k);
    RunKeepsInv(before + [Clear(me)] + after);
    var s := Run(Empty, before + [Clear(me)] + after);
    assert OpOk(s, s.ops[k]);
  }

  predicate Published(op: Op) {
    (op.phase.Closing? && (op.phase.answer.Granted? || op.phase.answer.Replaced?)) ||
    (op.phase.Returned? && (op.phase.outcome.Granted? || op.phase.outcome.Replaced?))
  }

  /** Among Toggles that captured the same epoch, at most one publishes. */
  lemma OnePublishPerEpoch(acts: seq<Action>, j: nat, k: nat)
    requires CanRun(Empty, acts)
    requires var s := Run(Empty, acts);
             j < |s.ops| && k < |s.ops| && Published(s.ops[j]) && Published(s.ops[k]) && s.ops[j].epoch == s.ops[k].epoch
    ensures j == k
  {
    RunKeepsInv(acts);
    var s := Run(Empty, acts);
    assert OpOk(s, s.ops[j]) && OpOk(s, s.ops[k]);
  }

  /** A Toggle that reports a replacement minted a grant on its host, and has closed the other host's it took away. */
  lemma ReplacedMeansClosed(acts: seq<Action>, k: nat)
    requires CanRun(Empty, acts) && k < |Run(Empty, acts).ops|
    ensures var s := Run(Empty, acts);
            s.ops[k].phase.Returned? && s.ops[k].phase.outcome.Replaced? ==>
              var out := s.ops[k].phase.outcome;
              && out.lost < |s.grants| && s.grants[out.lost].closed
              && s.grants[out.lost].host != s.ops[k].host
              && out.grant < |s.grants| && s.grants[out.grant].host == s.ops[k].host
              && s.ops[k].cur == Some(out.lost) && s.ops[k].minted == Some(out.grant)
  {
    RunKeepsInv(acts);
    assert OpOk(Run(Empty, acts), Run(Empty, acts).ops[k]);
  }

  /** Generations: a Revoke has none, and every Toggle one no other Toggle has. */
  ghost predicate GenerationsApart(s: State) {
    && (forall k :: 0 <= k < |s.ops| ==> s.ops[k].gen <= s.gen)
    && (forall j, k :: 0 <= j < k < |s.ops| && s.ops[j].gen > 0 ==> s.ops[j].gen != s.ops[k].gen)
  }

  lemma StepKeepsGenerations(s: State, a: Action)
    requires GenerationsApart(s) && Enabled(s, a)
    ensures GenerationsApart(Step(s, a))
  {
    var s' := Step(s, a);
    assert forall k :: 0 <= k < |s.ops| ==> s'.ops[k].gen == s.ops[k].gen;
  }

  /** So the audit log's pairs of generation and command id tell the commands of different grants apart. */
  lemma {:induction false} GenerationsDiffer(acts: seq<Action>)
    requires CanRun(Empty, acts)
    ensures GenerationsApart(Run(Empty, acts))
    decreases |acts|
  {
    if acts != [] {
      GenerationsDiffer(acts[..|acts| - 1]);
      StepKeepsGenerations(Run(Empty, acts[..|acts| - 1]), Last(acts));
    }
  }

  // ---------------------------------------------------------------------------
  // Progress
  // ---------------------------------------------------------------------------

  function Rank(p: Phase): nat {
    match p
    case Minting => 3
    case Opened => 2
    case MustRevoke => 2
    case Closing(_, _) => 1
    case Returned(_) => 0
  }

  function NextStep(k: nat, p: Phase, opens: bool): Action
    requires !p.Returned?
  {
    match p
    case Minting => Open(k, opens)
    case Opened => Publish(k)
    case MustRevoke => Clear(k)
    case Closing(_, _) => Close(k)
  }

  /** No operation waits for another: its next step is always enabled, and at most three remain. */
  lemma NothingBlocks(acts: seq<Action>, k: nat, opens: bool)
    requires CanRun(Empty, acts) && k < |Run(Empty, acts).ops| && !Run(Empty, acts).ops[k].phase.Returned?
    ensures var s := Run(Empty, acts);
            var a := NextStep(k, s.ops[k].phase, opens);
            Enabled(s, a) && Rank(Step(s, a).ops[k].phase) < Rank(s.ops[k].phase)
  {
    RunKeepsInv(acts);
    assert OpOk(Run(Empty, acts), Run(Empty, acts).ops[k]);
  }

  // ---------------------------------------------------------------------------
  // What "revoked" means
  // ---------------------------------------------------------------------------

  /** A Toggle of the host that already has the grant, about to revoke in this state. */
  ghost predicate Revoking(acts: seq<Action>, k: nat) {
    CanRun(Empty, acts) && Enabled(Run(Empty, acts), Clear(k)) && Run(Empty, acts).ops[k].cur.Some?
  }

  /** The current grant, if any, is one on this host. */
  predicate CurrentOn(s: State, host: string) {
    s.grant.Some? && s.grant.value < |s.grants| && s.grants[s.grant.value].host == host
  }

  /** What such a Toggle withdraws is the very grant it captured if and only if nothing settled in between. */
  lemma RevokesSameGrantIff(acts: seq<Action>, k: nat)
    requires Revoking(acts, k)
    ensures var s := Run(Empty, acts);
            Step(s, Clear(k)).ops[k].phase.victim == s.ops[k].cur <==> s.epoch == s.ops[k].epoch
  {
    RunKeepsInv(acts);
    assert OpOk(Run(Empty, acts), Run(Empty, acts).ops[k]);
  }

  /**
   It reports its own host as revoked whatever it withdraws. That is right of what
   it withdraws if and only if nothing settled in between, or what settled left a
   grant on that same host current. With nothing current it withdraws nothing; with
   another host's grant current it withdraws that one.
   */
  lemma RevokedIsAccurateIff(acts: seq<Action>, k: nat)
    requires Revoking(acts, k)
    ensures var s := Run(Empty, acts);
            var host := s.ops[k].host;
            var victim := Step(s, Clear(k)).ops[k].phase.victim;
            && Step(s, Clear(k)).ops[k].phase.answer == Revoked(host)
            && (victim.Some? ==> victim.value < |s.grants|)
            && ((victim.Some? && s.grants[victim.value].host == host) <==>
                (s.epoch == s.ops[k].epoch || CurrentOn(s, host)))
            && (victim.None? <==> s.grant.None?)
            && (victim.None? ==> s.epoch != s.ops[k].epoch)
  {
    RunKeepsInv(acts);
    assert OpOk(Run(Empty, acts), Run(Empty, acts).ops[k]);
  }

  /** And in every case the grant it captured, which is on that host, is current no more, and closed or about to be. */
  lemma RevokedGrantIsWithdrawn(acts: seq<Action>, k: nat)
    requires Revoking(acts, k)
    ensures var s' := Step(Run(Empty, acts), Clear(k));
            var g := s'.ops[k].cur.value;
            && g < |s'.grants| && s'.grants[g].host == s'.ops[k].host && s'.grant != Some(g)
            && (s'.grants[g].closed ||
                exists j :: 0 <= j < |s'.ops| && s'.ops[j].phase.Closing? && s'.ops[j].phase.victim == Some(g))
  {
    RunKeepsInv(acts);
    var s := Run(Empty, acts);
    assert OpOk(s, s.ops[k]);
    StepKeepsInv(s, Clear(k));
    var s' := Step(s, Clear(k));
    var g := s'.ops[k].cur.value;
    if !s'.grants[g].closed {
      assert Owned(s', g);
      var j :| 0 <= j < |s'.ops| && Holds(s'.ops[j], g);
      assert OpOk(s', s'.ops[j]);
    }
  }

  /** Two Toggles of web, the second overtaken by one of db before it enters Revoke. */
  const WrongHost: seq<Action> :=
    [BeginToggle("web"), Open(0, true), Publish(0),
     BeginToggle("web"),
     BeginToggle("db"), Open(2, true), Publish(2),
     Clear(1)]

  lemma RunByPrefix(acts: seq<Action>, n: nat)
    requires n < |acts| && CanRun(Empty, acts[..n]) && Enabled(Run(Empty, acts[..n]), acts[n])
    ensures CanRun(Empty, acts[..n + 1]) && Run(Empty, acts[..n + 1]) == Step(Run(Empty, acts[..n]), acts[n])
  {
    assert acts[..n + 1] == acts[..n] + [acts[n]];
    RunExtend(Empty, acts[..n], acts[n]);
  }

  const WebGranted := State(Some(0), 1, 1, [Grant("web", false, Some(0))],
                            [Op("web", None, 0, 1, Some(0), Closing(None, Granted(0)))])

  lemma WebIsGranted()
    ensures CanRun(Empty, WrongHost[..3]) && Run(Empty, WrongHost[..3]) == WebGranted
  {
    assert WrongHost[..0] == [];
    RunByPrefix(WrongHost, 0);
    RunByPrefix(WrongHost, 1);
    RunByPrefix(WrongHost, 2);
  }

  const DbGranted :=
    State(Some(1), 2, 3, [Grant("web", false, Some(0)), Grant("db", false, Some(1))],
          [Op("web", None, 0, 1, Some(0), Closing(None, Granted(0))),
           Op("web", Some(0), 1, 2, None, MustRevoke),
           Op("db", Some(0), 1, 3, Some(1), Closing(Some(0), Replaced(1, 0)))])

  const WebTwice := WebGranted.(gen := 2, ops := WebGranted.ops + [Op("web", Some(0), 1, 2, None, MustRevoke)])
  const DbMinting := WebTwice.(gen := 3, ops := WebTwice.ops + [Op("db", Some(0), 1, 3, None, Minting)])
  const DbOpened :=
    DbMinting.(grants := WebGranted.grants + [Grant("db", false, None)],
               ops := WebTwice.ops + [Op("db", Some(0), 1, 3, Some(1), Opened)])

  lemma Reaches(acts: seq<Action>, n: nat, s: State, a: Action)
    requires n < |acts| && CanRun(Empty, acts[..n]) && Run(Empty, acts[..n]) == s
    requires acts[n] == a && Enabled(s, a)
    ensures CanRun(Empty, acts[..n + 1]) && Run(Empty, acts[..n + 1]) == Step(s, a)
  {
    RunByPrefix(acts, n);
  }

  lemma DbIsMinting()
    ensures CanRun(Empty, WrongHost[..5]) && Run(Empty, WrongHost[..5]) == DbMinting
  {
    WebIsGranted();
    Reaches(WrongHost, 3, WebGranted, BeginToggle("web"));
    Reaches(WrongHost, 4, WebTwice, BeginToggle("db"));
  }

  lemma DbIsGranted()
    ensures CanRun(Empty, WrongHost[..7]) && Run(Empty, WrongHost[..7]) == DbGranted
  {
    DbIsMinting();
    Reaches(WrongHost, 5, DbMinting, Open(2, true));
    Reaches(WrongHost, 6, DbOpened, Publish(2));
  }

  /** Something can settle in between: here web's Toggle reports web revoked while it is db that loses its grant. */
  lemma RevokedCanNameTheWrongHost()
    ensures CanRun(Empty, WrongHost) && |Run(Empty, WrongHost).ops| == 3
    ensures Run(Empty, WrongHost).ops[1].phase == Closing(Some(1), Revoked("web"))
    ensures Run(Empty, WrongHost).grants == DbGranted.grants && Run(Empty, WrongHost).grant.None?
  {
    DbIsGranted();
    RunByPrefix(WrongHost, 7);
    assert WrongHost[..8] == WrongHost;
  }

  /** Three Toggles of web on its one grant: the last to enter Revoke finds nothing current. */
  const NothingLeft: seq<Action> :=
    [BeginToggle("web"), Open(0, true), Publish(0), BeginToggle("web"), BeginToggle("web"), Clear(2), Clear(1)]

  const WebThrice := WebTwice.(gen := 3, ops := WebTwice.ops + [Op("web", Some(0), 1, 3, None, MustRevoke)])
  const WebCleared := WebThrice.(grant := None, epoch := 2,
    ops := WebTwice.ops + [Op("web", Some(0), 1, 3, None, Closing(Some(0), Revoked("web")))])

  lemma WebIsToggledTwice()
    ensures CanRun(Empty, NothingLeft[..4]) && Run(Empty, NothingLeft[..4]) == WebTwice
  {
    WebIsGranted();
    assert NothingLeft[..3] == WrongHost[..3];
    Reaches(NothingLeft, 3, WebGranted, BeginToggle("web"));
  }

  lemma WebIsToggledThrice()
    ensures CanRun(Empty, NothingLeft[..5]) && Run(Empty, NothingLeft[..5]) == WebThrice
  {
    WebIsToggledTwice();
    Reaches(NothingLeft, 4, WebTwice, BeginToggle("web"));
  }

  lemma WebIsCleared()
    ensures CanRun(Empty, NothingLeft[..6]) && Run(Empty, NothingLeft[..6]) == WebCleared
  {
    hide CanRun, Run;
    WebIsToggledThrice();
    Reaches(NothingLeft, 5, WebThrice, Clear(2));
  }

  /** It too reports web revoked, having withdrawn nothing itself. */
  lemma RevokedCanWithdrawNothing()
    ensures CanRun(Empty, NothingLeft) && |Run(Empty, NothingLeft).ops| == 3
    ensures Run(Empty, NothingLeft).ops[1].phase == Closing(None, Revoked("web"))
  {
    WebIsCleared();
    Reaches(NothingLeft, 6, WebCleared, Clear(1));
    assert NothingLeft[..7] == NothingLeft;
  }

  /** As before, but web is granted anew before the last one enters Revoke. */
  const NewGrant: seq<Action> :=
    [BeginToggle("web"), Open(0, true), Publish(0), BeginToggle("web"), BeginToggle("web"), Clear(2),
     BeginToggle("web"), Open(3, true), Publish(3), Clear(1)]

  const WebMinting := WebCleared.(gen := 4, ops := WebCleared.ops + [Op("web", None, 2, 4, None, Minting)])
  const WebOpened := WebMinting.(grants := WebGranted.grants + [Grant("web", false, None)],
    ops := WebCleared.ops + [Op("web", None, 2, 4, Some(1), Opened)])
  const WebAnew := WebOpened.(grant := Some(1), epoch := 3, grants := WebGranted.grants + [Grant("web", false, Some(2))],
    ops := WebCleared.ops + [Op("web", None, 2, 4, Some(1), Closing(None, Granted(1)))])

  lemma WebIsMintingAnew()
    ensures CanRun(Empty, NewGrant[..7]) && Run(Empty, NewGrant[..7]) == WebMinting
  {
    WebIsCleared();
    assert NewGrant[..6] == NothingLeft[..6];
    Reaches(NewGrant, 6, WebCleared, BeginToggle("web"));
  }

  lemma WebIsGrantedAnew()
    ensures CanRun(Empty, NewGrant[..9]) && Run(Empty, NewGrant[..9]) == WebAnew
  {
    WebIsMintingAnew();
    Reaches(NewGrant, 7, WebMinting, Open(3, true));
    Reaches(NewGrant, 8, WebOpened, Publish(3));
  }

  /** The epoch has moved twice, the grant is another one, and "web revoked" is right all the same. */
  lemma RevokedCanBeRightThoughOvertaken()
    ensures CanRun(Empty, NewGrant) && |Run(Empty, NewGrant).ops| == 4 && |Run(Empty, NewGrant).grants| == 2
    ensures Run(Empty, NewGrant).ops[1].phase == Closing(Some(1), Revoked("web"))
    ensures Run(Empty, NewGrant).grants[1].host == "web" && Run(Empty, NewGrant).ops[1].epoch == 1
  {
    WebIsGrantedAnew();
    Reaches(NewGrant, 9, WebAnew, Clear(1));
    assert NewGrant[..10] == NewGrant;
  }

  // ---------------------------------------------------------------------------
  // Undisturbed operations
  // ---------------------------------------------------------------------------

  /** The same grants, this one closed. */
  function ClosedAt(grants: seq<Grant>, g: nat): seq<Grant>
    requires g < |grants|
  {
    grants[g := grants[g].(closed := true)]
  }

  /** A grant on that host was minted, and is live. */
  predicate NewlyLive(grants: seq<Grant>, grants': seq<Grant>, host: string) {
    |grants'| == |grants| + 1 && Last(grants').host == host && !Last(grants').closed
  }

  /**
   What an undisturbed Toggle reports and leaves, each outcome exactly when it is due.
   The key goes off on the host that has access; elsewhere it goes on, and access goes
   away from where it was, or, if no grant can be opened, stays.
   */
  predicate ToggleComesTo(host: string, cur: Option<nat>, grants: seq<Grant>, opens: bool, out: Outcome,
                          cur': Option<nat>, grants': seq<Grant>)
    requires cur.Some? ==> cur.value < |grants|
  {
    var here := cur.Some? && grants[cur.value].host == host;
    && (out == Revoked(host) <==> here)
    && (out == OpenFailed <==> !here && !opens)
    && (out == Granted(|grants|) <==> cur.None? && opens)
    && (cur.Some? ==> (out == Replaced(|grants|, cur.value) <==> !here && opens))
    && (here ==> cur' == None && grants' == ClosedAt(grants, cur.value))
    && (!here && !opens ==> cur' == cur && grants' == grants)
    && (!here && opens ==>
          && cur' == Some(|grants|) && NewlyLive(grants, grants', host)
          && grants'[..|grants|] == if cur.Some? then ClosedAt(grants, cur.value) else grants)
  }

  /** All the steps a Toggle still has in front of it, once it has begun and nobody else moves. */
  function AloneSteps(k: nat, revokes: bool, opens: bool): seq<Action> {
    if revokes then [Clear(k), Close(k)] else if opens then [Open(k, true), Publish(k), Close(k)] else [Open(k, false)]
  }

  /** Clearing and closing, undisturbed. */
  lemma ClearsAlone(acts: seq<Action>, k: nat, more: seq<Action>)
    requires more == [Clear(k), Close(k)]
    requires CanRun(Empty, acts) && k < |Run(Empty, acts).ops| && Run(Empty, acts).ops[k].phase.MustRevoke?
    ensures CanRun(Empty, acts + more)
    ensures var s, s' := Run(Empty, acts), Run(Empty, acts + more);
            && |s'.ops| == |s.ops| && s'.grant == None && s'.epoch == s.epoch + 1
            && (s.grant.Some? ==> s.grant.value < |s.grants|)
            && s'.grants == (if s.grant.Some? then ClosedAt(s.grants, s.grant.value) else s.grants)
            && s'.ops[k].phase == Returned(if s.ops[k].cur.Some? then Revoked(s.ops[k].host) else Withdrawn)
  {
    hide CanRun, Run, HeldLive, HeldOnce, LiveOwned, EpochsApart, MintedOnce, OpsOk;
    RunKeepsInv(acts);
    var s := Run(Empty, acts);
    RunExtend(Empty, acts, Clear(k));
    RunExtend(Empty, acts + [Clear(k)], Close(k));
    assert acts + [Clear(k)] + [Close(k)] == acts + more;
  }

  /** Publishing, and closing what was there before, undisturbed. */
  lemma PublishThenClose(s: State, k: nat) returns (s': State)
    requires Inv(s) && k < |s.ops| && s.ops[k].phase.Opened? && s.ops[k].epoch == s.epoch
    ensures Enabled(s, Publish(k)) && Enabled(Step(s, Publish(k)), Close(k)) && s' == Step(Step(s, Publish(k)), Close(k))
    ensures |s'.ops| == |s.ops| && |s'.grants| == |s.grants|
    ensures s.ops[k].minted.Some? && s.ops[k].minted.value < |s.grants| && s'.grant == s.ops[k].minted
    ensures var g := s.ops[k].minted.value;
            && s'.grants[g].host == s.grants[g].host && s'.grants[g].closed == s.grants[g].closed
            && (forall i | 0 <= i < |s.grants| && i != g ::
                  s'.grants[i] == if s.grant == Some(i) then s.grants[i].(closed := true) else s.grants[i])
            && s'.ops[k].phase == Returned(if s.grant.Some? then Replaced(g, s.grant.value) else Granted(g))
  {
    assert OpOk(s, s.ops[k]) && Holds(s.ops[k], s.ops[k].minted.value);
    hide OpOk, HeldOnce, LiveOwned, EpochsApart, MintedOnce, OpsOk;
    s' := Step(Step(s, Publish(k)), Close(k));
  }

  lemma OpenThenPublish(s: State, k: nat) returns (s2: State, s': State)
    requires Inv(s) && k < |s.ops| && s.ops[k].phase.Minting? && s.ops[k].epoch == s.epoch
    ensures Enabled(s, Open(k, true)) && s2 == Step(s, Open(k, true))
    ensures Enabled(s2, Publish(k)) && Enabled(Step(s2, Publish(k)), Close(k)) && s' == Step(Step(s2, Publish(k)), Close(k))
    ensures |s'.ops| == |s.ops| && s'.grant == Some(|s.grants|) && NewlyLive(s.grants, s'.grants, s.ops[k].host)
    ensures s.grant.Some? ==> s.grant.value < |s.grants|
    ensures s'.grants[..|s.grants|] == if s.grant.Some? then ClosedAt(s.grants, s.grant.value) else s.grants
    ensures s'.ops[k].phase == Returned(if s.grant.Some? then Replaced(|s.grants|, s.grant.value) else Granted(|s.grants|))
  {
    hide OpOk, HeldOnce, LiveOwned, EpochsApart, MintedOnce, OpsOk;
    s2 := Step(s, Open(k, true));
    StepKeepsInv(s, Open(k, true));
    s' := PublishThenClose(s2, k);
  }

  lemma ThreeMore(acts: seq<Action>, a: Action, b: Action, c: Action, s: State, s2: State, s3: State)
    requires CanRun(Empty, acts) && s == Run(Empty, acts) && Enabled(s, a) && s2 == Step(s, a)
    requires Enabled(s2, b) && s3 == Step(s2, b) && Enabled(s3, c)
    ensures CanRun(Empty, acts + [a, b, c]) && Run(Empty, acts + [a, b, c]) == Step(s3, c)
  {
    hide Step, Enabled;
    RunExtend(Empty, acts, a);
    RunExtend(Empty, acts + [a], b);
    RunExtend(Empty, acts + [a] + [b], c);
    assert acts + [a] + [b] + [c] == acts + [a, b, c];
  }

  /** Opening, publishing and closing what was there before, undisturbed. */
  lemma OpensAlone(acts: seq<Action>, k: nat, more: seq<Action>)
    requires more == [Open(k, true), Publish(k), Close(k)]
    requires CanRun(Empty, acts) && k < |Run(Empty, acts).ops| && Run(Empty, acts).ops[k].phase.Minting?
    requires Run(Empty, acts).ops[k].epoch == Run(Empty, acts).epoch
    ensures CanRun(Empty, acts + more)
    ensures var s, s' := Run(Empty, acts), Run(Empty, acts + more);
            && |s'.ops| == |s.ops| && (s.grant.Some? ==> s.grant.value < |s.grants|)
            && s'.grant == Some(|s.grants|) && NewlyLive(s.grants, s'.grants, s.ops[k].host)
            && s'.grants[..|s.grants|] == (if s.grant.Some? then ClosedAt(s.grants, s.grant.value) else s.grants)
            && s'.ops[k].phase == Returned(if s.grant.Some? then Replaced(|s.grants|, s.grant.value)
                                           else Granted(|s.grants|))
  {
    hide Step, Enabled, Inv, CanRun, Run, ClosedAt;
    RunKeepsInv(acts);
    var s2, s' := OpenThenPublish(Run(Empty, acts), k);
    ThreeMore(acts, Open(k, true), Publish(k), Close(k), Run(Empty, acts), s2, Step(s2, Publish(k)));
  }

  /** What a Toggle comes to that nothing disturbs. */
  lemma ToggleIff(acts: seq<Action>, host: string, opens: bool)
    requires CanRun(Empty, acts)
    ensures var s, begun := Run(Empty, acts), acts + [BeginToggle(host)];
            && (s.grant.Some? ==> s.grant.value < |s.grants|)
            && var more := AloneSteps(|s.ops|, s.grant.Some? && s.grants[s.grant.value].host == host, opens);
               && CanRun(Empty, begun + more)
               && var s' := Run(Empty, begun + more);
                  && |s'.ops| == |s.ops| + 1 && s'.ops[|s.ops|].phase.Returned?
                  && ToggleComesTo(host, s.grant, s.grants, opens,
                                   s'.ops[|s.ops|].phase.outcome, s'.grant, s'.grants)
  {
    RunKeepsInv(acts);
    var s := Run(Empty, acts);
    RunExtend(Empty, acts, BeginToggle(host));
    if s.grant.Some? && s.grants[s.grant.value].host == host {
      ClearsAlone(acts + [BeginToggle(host)], |s.ops|, AloneSteps(|s.ops|, true, opens));
    } else if opens {
      OpensAlone(acts + [BeginToggle(host)], |s.ops|, AloneSteps(|s.ops|, false, true));
    } else {
      RunExtend(Empty, acts + [BeginToggle(host)], Open(|s.ops|, false));
    }
  }
}
