/**
 What the challenge-response guarantees in every run, against every adversary
 that does not hold the token in question.
 */
module HandshakeSafety {
  import opened Common
  import opened Handshake

  predicate SameExchange(a: Event, b: Event) {
    a.token == b.token && a.sn == b.sn && a.cn == b.cn && a.name == b.name
  }

  /** The MAC that an event put on the wire. */
  function Sent(e: Event): Mac {
    if e.kind == Proof then ClientProof(e.token, e.sn, e.cn, e.name)
    else ServerProof(e.token, e.sn, e.cn, e.name)
  }

  ghost predicate Happened(log: seq<Event>, kind: Kind, e: Event) {
    exists i :: 0 <= i < |log| && log[i].kind == kind && SameExchange(log[i], e)
  }

  /** What must have come before: a proof before an acceptance, an acceptance before a command. */
  ghost predicate Caused(log: seq<Event>, e: Event) {
    match e.kind
    case Proof => true
    case Acceptance => Happened(log, Proof, e)
    case Command => Happened(log, Acceptance, e)
  }

  // ---------------------------------------------------------------------------
  // The invariant
  // ---------------------------------------------------------------------------

  predicate Wide(n: Bytes) {
    |n| == NONCE_LEN
  }

  ghost predicate WideEvents(w: World) {
    forall k :: 0 <= k < |w.log| ==> Wide(w.log[k].sn) && Wide(w.log[k].cn)
  }

  /** Every MAC on the wire was computed by an honest session, which the log shows. */
  ghost predicate Sourced(w: World) {
    forall m <- w.known :: exists k :: 0 <= k < |w.log| && w.log[k].kind != Command && m == Sent(w.log[k])
  }

  ghost predicate Ordered(w: World) {
    forall k :: 0 <= k < |w.log| && w.log[k].token !in w.leaked ==> Caused(w.log[..k], w.log[k])
  }

  /** A server's nonce is its own. */
  ghost predicate Servers(w: World) {
    && (forall s :: 0 <= s < |w.servers| ==> w.servers[s].nonce in w.drawn && Wide(w.servers[s].nonce))
    && (forall s, t :: 0 <= s < t < |w.servers| ==> w.servers[s].nonce != w.servers[t].nonce)
  }

  predicate ProofFits(w: World, e: Event) {
    && e.session < |w.clients| && e.cn in w.drawn
    && var c := w.clients[e.session];
       && c.token == e.token && c.name == e.name && !c.phase.Dialled?
       && (PastProof(c) ==> c.phase.serverNonce == e.sn && c.phase.clientNonce == e.cn)
  }

  predicate AcceptanceFits(w: World, e: Event) {
    e.session < |w.servers| && w.servers[e.session] == Server(e.token, e.name, e.sn, Accepted(e.cn))
  }

  predicate CommandFits(w: World, e: Event) {
    e.session < |w.clients| && w.clients[e.session] == Client(e.token, e.name, Commanded(e.sn, e.cn))
  }

  predicate Fits(w: World, e: Event) {
    match e.kind
    case Proof => ProofFits(w, e)
    case Acceptance => AcceptanceFits(w, e)
    case Command => CommandFits(w, e)
  }

  /** The log agrees with the sessions, and no session does the same thing twice. */
  ghost predicate Matched(w: World) {
    && (forall k :: 0 <= k < |w.log| ==> Fits(w, w.log[k]))
    && (forall j, k :: 0 <= j < k < |w.log| && w.log[j].kind == w.log[k].kind ==> w.log[j].session != w.log[k].session)
    && (forall j, k :: 0 <= j < k < |w.log| && w.log[j].kind == w.log[k].kind == Proof ==> w.log[j].cn != w.log[k].cn)
  }

  predicate PastProof(c: Client) {
    c.phase.Proved? || c.phase.Commanded?
  }

  ghost predicate ProvedBy(w: World, c: nat)
    requires c < |w.clients|
  {
    exists k :: 0 <= k < |w.log| && w.log[k].kind == Proof && w.log[k].session == c
  }

  /** A client that is past its proof has one in the log. */
  ghost predicate Clients(w: World) {
    forall c :: 0 <= c < |w.clients| && PastProof(w.clients[c]) ==> ProvedBy(w, c)
  }

  ghost predicate Inv(w: World) {
    WideEvents(w) && Sourced(w) && Ordered(w) && Servers(w) && Matched(w) && Clients(w)
  }

  // ---------------------------------------------------------------------------
  // MACs cannot be forged or confused
  // ---------------------------------------------------------------------------

  /** A MAC the adversary can present, over a token it does not hold, was sent by an honest session. */
  lemma Unforgeable(w: World, m: Mac) returns (k: nat)
    requires Inv(w) && Makeable(w, m) && m.Mac? && m.token !in w.leaked
    ensures k < |w.log| && w.log[k].kind != Command && m == Sent(w.log[k])
  {
    k :| 0 <= k < |w.log| && w.log[k].kind != Command && m == Sent(w.log[k]);
  }

  /** A client's proof can only have come from a client's proof of the same exchange. */
  lemma ProofHasAuthor(w: World, e: Event)
    requires Inv(w) && e.token !in w.leaked && Wide(e.sn) && Wide(e.cn)
    requires Makeable(w, ClientProof(e.token, e.sn, e.cn, e.name))
    ensures Happened(w.log, Proof, e)
  {
    var k := Unforgeable(w, ClientProof(e.token, e.sn, e.cn, e.name));
    var f := w.log[k];
    LabelsDiffer();
    TranscriptInjective(LABEL_CLIENT, e.sn, e.cn, e.name,
                        if f.kind == Proof then LABEL_CLIENT else LABEL_SERVER, f.sn, f.cn, f.name);
  }

  lemma AcceptanceHasAuthor(w: World, e: Event)
    requires Inv(w) && e.token !in w.leaked && Wide(e.sn) && Wide(e.cn)
    requires Makeable(w, ServerProof(e.token, e.sn, e.cn, e.name))
    ensures Happened(w.log, Acceptance, e)
  {
    var k := Unforgeable(w, ServerProof(e.token, e.sn, e.cn, e.name));
    var f := w.log[k];
    LabelsDiffer();
    TranscriptInjective(LABEL_SERVER, e.sn, e.cn, e.name,
                        if f.kind == Proof then LABEL_CLIENT else LABEL_SERVER, f.sn, f.cn, f.name);
  }

  // ---------------------------------------------------------------------------
  // Every step keeps the invariant
  // ---------------------------------------------------------------------------

  lemma OrderedGrows(w: World, w': World, e: Event)
    requires Ordered(w) && w'.log == w.log + [e] && w'.leaked == w.leaked
    requires e.token in w.leaked || Caused(w.log, e)
    ensures Ordered(w')
  {
    forall k | 0 <= k < |w'.log| && w'.log[k].token !in w'.leaked
      ensures Caused(w'.log[..k], w'.log[k])
    {
      assert w'.log[..k] == w.log[..k];
      assert k == |w.log| ==> w.log[..k] == w.log;
    }
  }

  lemma SourcedGrows(w: World, w': World, e: Event)
    requires Sourced(w) && w'.log == w.log + [e] && w'.known == w.known + {Sent(e)} && e.kind != Command
    ensures Sourced(w')
  {
    forall m | m in w'.known
      ensures exists k :: 0 <= k < |w'.log| && w'.log[k].kind != Command && m == Sent(w'.log[k])
    {
      if m in w.known {
        var k :| 0 <= k < |w.log| && w.log[k].kind != Command && m == Sent(w.log[k]);
        assert w'.log[k] == w.log[k];
      } else {
        assert w'.log[|w.log|] == e;
      }
    }
  }

  lemma ClientsKeep(w: World, w': World)
    requires Clients(w) && w.log <= w'.log && |w.clients| <= |w'.clients|
    requires forall c :: 0 <= c < |w'.clients| && PastProof(w'.clients[c]) ==>
               ProvedBy(w', c) || (c < |w.clients| && PastProof(w.clients[c]))
    ensures Clients(w')
  {
    forall c | 0 <= c < |w'.clients| && PastProof(w'.clients[c])
      ensures ProvedBy(w', c)
    {
      if c < |w.clients| && PastProof(w.clients[c]) {
        assert ProvedBy(w, c);
        var k :| 0 <= k < |w.log| && w.log[k].kind == Proof && w.log[k].session == c;
        assert w'.log[k] == w.log[k];
      }
    }
  }

  /** A new event that fits, by a session new to it, keeps log and sessions matched. */
  lemma MatchedGrows(w: World, w': World, e: Event)
    requires Matched(w) && w'.log == w.log + [e]
    requires forall k :: 0 <= k < |w.log| ==> Fits(w', w.log[k])
    requires Fits(w', e)
    requires forall k :: 0 <= k < |w.log| && w.log[k].kind == e.kind ==> w.log[k].session != e.session
    requires e.kind == Proof ==> forall k :: 0 <= k < |w.log| && w.log[k].kind == Proof ==> w.log[k].cn != e.cn
    ensures Matched(w')
  {
  }

  lemma ListenKeeps(w: World, a: Action)
    requires Inv(w) && Enabled(w, a) && a.Listen?
    ensures Inv(Step(w, a))
  {
  }

  lemma DialKeeps(w: World, a: Action)
    requires Inv(w) && Enabled(w, a) && a.Dial?
    ensures Inv(Step(w, a))
  {
    ClientsKeep(w, Step(w, a));
  }

  /** No step unsettles what the log already says. */
  lemma EventStillFits(w: World, a: Action, e: Event)
    requires Enabled(w, a) && Fits(w, e)
    ensures Fits(Step(w, a), e)
  {
  }

  lemma EventsStillFit(w: World, a: Action)
    requires Enabled(w, a) && Matched(w)
    ensures forall k :: 0 <= k < |w.log| ==> Fits(Step(w, a), w.log[k])
  {
    forall k | 0 <= k < |w.log|
      ensures Fits(Step(w, a), w.log[k])
    {
      EventStillFits(w, a, w.log[k]);
    }
  }

  lemma GreetKeeps(w: World, a: Action)
    requires Inv(w) && Enabled(w, a) && a.Greet?
    ensures Inv(Step(w, a))
  {
    var w', c := Step(w, a), a.who;
    EventsStillFit(w, a);
    if Greeted(a.frame, a.drawn).Proved? {
      var e := Event(Proof, w.clients[c].token, a.frame.nonce, a.drawn, w.clients[c].name, c);
      assert w'.log[|w.log|] == e && ProvedBy(w', c);
      OrderedGrows(w, w', e);
      SourcedGrows(w, w', e);
      MatchedGrows(w, w', e);
    }
    ClientsKeep(w, w');
  }

  lemma OfferAccepted(w: World, a: Action, e: Event)
    requires Inv(w) && Enabled(w, a) && a.Offer?
    requires var s := w.servers[a.who];
             Judged(s, a.frame).Accepted? && e == Event(Acceptance, s.token, s.nonce, a.frame.nonce, s.name, a.who)
    ensures WideEvents(Step(w, a)) && Ordered(Step(w, a)) && Sourced(Step(w, a))
  {
    if e.token !in w.leaked {
      ProofHasAuthor(w, e);
    }
    OrderedGrows(w, Step(w, a), e);
    SourcedGrows(w, Step(w, a), e);
  }

  lemma OfferKeeps(w: World, a: Action)
    requires Inv(w) && Enabled(w, a) && a.Offer?
    ensures Inv(Step(w, a))
  {
    var w', s := Step(w, a), w.servers[a.who];
    EventsStillFit(w, a);
    ClientsKeep(w, w');
    if Judged(s, a.frame).Accepted? {
      var e := Event(Acceptance, s.token, s.nonce, a.frame.nonce, s.name, a.who);
      OfferAccepted(w, a, e);
      MatchedGrows(w, w', e);
    }
  }

  lemma AnswerKeeps(w: World, a: Action)
    requires Inv(w) && Enabled(w, a) && a.Answer?
    ensures Inv(Step(w, a))
  {
    var w', c := Step(w, a), w.clients[a.who];
    EventsStillFit(w, a);
    ClientsKeep(w, w');
    if Verified(c, a.frame).Commanded? {
      var e := Event(Command, c.token, c.phase.serverNonce, c.phase.clientNonce, c.name, a.who);
      ClientNoncesWide(w, a.who);
      if e.token !in w.leaked {
        AcceptanceHasAuthor(w, e);
      }
      OrderedGrows(w, w', e);
      SourcedStays(w, w');
      MatchedGrows(w, w', e);
    }
  }

  lemma ClientNoncesWide(w: World, c: nat)
    requires WideEvents(w) && Matched(w) && Clients(w) && c < |w.clients| && PastProof(w.clients[c])
    ensures Wide(w.clients[c].phase.serverNonce) && Wide(w.clients[c].phase.clientNonce)
  {
    assert ProvedBy(w, c);
    var k :| 0 <= k < |w.log| && w.log[k].kind == Proof && w.log[k].session == c;
    assert Fits(w, w.log[k]);
  }

  lemma SourcedStays(w: World, w': World)
    requires Sourced(w) && w.log <= w'.log && w'.known == w.known
    ensures Sourced(w')
  {
    forall m | m in w'.known
      ensures exists k :: 0 <= k < |w'.log| && w'.log[k].kind != Command && m == Sent(w'.log[k])
    {
      var k :| 0 <= k < |w.log| && w.log[k].kind != Command && m == Sent(w.log[k]);
      assert w'.log[k] == w.log[k];
    }
  }

  lemma StepKeepsInv(w: World, a: Action)
    requires Inv(w) && Enabled(w, a)
    ensures Inv(Step(w, a)) && Step(w, a).leaked == w.leaked
  {
    match a
    case Listen(_, _, _) => ListenKeeps(w, a);
    case Dial(_, _) => DialKeeps(w, a);
    case Greet(_, _, _) => GreetKeeps(w, a);
    case Offer(_, _) => OfferKeeps(w, a);
    case Answer(_, _) => AnswerKeeps(w, a);
  }

  lemma {:induction false} RunKeepsInv(leaked: set<Token>, acts: seq<Action>)
    requires CanRun(Initial(leaked), acts)
    ensures Inv(Run(Initial(leaked), acts)) && Run(Initial(leaked), acts).leaked == leaked
    decreases |acts|
  {
    if acts != [] {
      RunKeepsInv(leaked, acts[..|acts| - 1]);
      StepKeepsInv(Run(Initial(leaked), acts[..|acts| - 1]), Last(acts));
    }
  }

  // ---------------------------------------------------------------------------
  // Main results
  // ---------------------------------------------------------------------------

  /** A run, and an event of its log about a token nobody leaked. */
  ghost predicate Observed(leaked: set<Token>, acts: seq<Action>, k: nat) {
    && CanRun(Initial(leaked), acts)
    && k < |Run(Initial(leaked), acts).log|
    && Run(Initial(leaked), acts).log[k].token !in leaked
  }

  /** Exactly one event of this kind for the same exchange in the log, and it comes before k. */
  predicate IsOnlyCause(log: seq<Event>, kind: Kind, i: nat, k: nat) {
    && i < k < |log| && log[i].kind == kind && SameExchange(log[i], log[k])
    && forall j :: 0 <= j < |log| && log[j].kind == kind && SameExchange(log[j], log[k]) ==> j == i
  }

  lemma CauseIsBefore(log: seq<Event>, kind: Kind, k: nat) returns (i: nat)
    requires k < |log| && Happened(log[..k], kind, log[k])
    ensures i < k && log[i].kind == kind && SameExchange(log[i], log[k])
  {
    i :| 0 <= i < k && log[..k][i].kind == kind && SameExchange(log[..k][i], log[k]);
  }

  /**
   A grant accepts only a transcript that one holder of its token, and only one,
   proved earlier: for this very nonce of the grant and under this socket name.
   */
  lemma AcceptanceMeansProof(leaked: set<Token>, acts: seq<Action>, k: nat) returns (i: nat)
    requires Observed(leaked, acts, k) && Run(Initial(leaked), acts).log[k].kind == Acceptance
    ensures IsOnlyCause(Run(Initial(leaked), acts).log, Proof, i, k)
  {
    RunKeepsInv(leaked, acts);
    var w := Run(Initial(leaked), acts);
    assert Caused(w.log[..k], w.log[k]);
    i := CauseIsBefore(w.log, Proof, k);
  }

  /**
   A client sends its command only after the grant with its token, serving that
   very socket name, accepted the client's own transcript, and accepted it once.
   */
  lemma CommandMeansAcceptance(leaked: set<Token>, acts: seq<Action>, k: nat) returns (i: nat)
    requires Observed(leaked, acts, k) && Run(Initial(leaked), acts).log[k].kind == Command
    ensures var w := Run(Initial(leaked), acts);
            && IsOnlyCause(w.log, Acceptance, i, k)
            && w.log[i].session < |w.servers|
            && w.servers[w.log[i].session]
               == Server(w.log[k].token, w.log[k].name, w.log[k].sn, Accepted(w.log[k].cn))
  {
    RunKeepsInv(leaked, acts);
    var w := Run(Initial(leaked), acts);
    assert Caused(w.log[..k], w.log[k]);
    i := CauseIsBefore(w.log, Acceptance, k);
    forall j | 0 <= j < |w.log| && w.log[j].kind == Acceptance && SameExchange(w.log[j], w.log[k])
      ensures j == i
    {
      SameAcceptance(w, i, j);
    }
    assert Fits(w, w.log[i]);
  }

  /** Two acceptances over one server nonce are one event. */
  lemma SameAcceptance(w: World, i: nat, j: nat)
    requires Inv(w) && i < |w.log| && j < |w.log|
    requires w.log[i].kind == w.log[j].kind == Acceptance && w.log[i].sn == w.log[j].sn
    ensures i == j
  {
    assert Fits(w, w.log[i]) && Fits(w, w.log[j]);
  }

  lemma SameProof(w: World, i: nat, j: nat)
    requires Inv(w) && i < |w.log| && j < |w.log|
    requires w.log[i].kind == w.log[j].kind == Proof && w.log[i].cn == w.log[j].cn
    ensures i == j
  {
  }

  /** No exchange carries two commands: commands and acceptances pair off one to one. */
  lemma CommandsDoNotShareAcceptance(leaked: set<Token>, acts: seq<Action>, j: nat, k: nat)
    requires CanRun(Initial(leaked), acts)
    requires var log := Run(Initial(leaked), acts).log;
             j < |log| && k < |log| && log[j].kind == log[k].kind == Command && SameExchange(log[j], log[k])
    ensures j == k
  {
    RunKeepsInv(leaked, acts);
    var w := Run(Initial(leaked), acts);
    assert Fits(w, w.log[j]) && Fits(w, w.log[k]);
    assert ProvedBy(w, w.log[j].session) && ProvedBy(w, w.log[k].session);
    var p :| 0 <= p < |w.log| && w.log[p].kind == Proof && w.log[p].session == w.log[j].session;
    var q :| 0 <= q < |w.log| && w.log[q].kind == Proof && w.log[q].session == w.log[k].session;
    assert Fits(w, w.log[p]) && Fits(w, w.log[q]);
    SameProof(w, p, q);
  }

  /** A socket name that no grant with the client's token serves never gets to see a command. */
  lemma RogueSocketSeesNoCommand(leaked: set<Token>, acts: seq<Action>, c: nat)
    requires CanRun(Initial(leaked), acts)
    requires c < |Run(Initial(leaked), acts).clients|
    requires var w := Run(Initial(leaked), acts);
             && w.clients[c].token !in leaked
             && forall s <- w.servers :: s.token == w.clients[c].token ==> s.name != w.clients[c].name
    ensures !Run(Initial(leaked), acts).clients[c].phase.Commanded?
  {
    var w := Run(Initial(leaked), acts);
    if w.clients[c].phase.Commanded? {
      RunKeepsInv(leaked, acts);
      var k := CommandLogged(leaked, acts, c);
      var i := CommandMeansAcceptance(leaked, acts, k);
    }
  }

  /** Every command sent is in the log. */
  lemma {:induction false} CommandLogged(leaked: set<Token>, acts: seq<Action>, c: nat) returns (k: nat)
    requires CanRun(Initial(leaked), acts)
    requires c < |Run(Initial(leaked), acts).clients| && Run(Initial(leaked), acts).clients[c].phase.Commanded?
    ensures var w := Run(Initial(leaked), acts);
            && k < |w.log| && w.log[k].kind == Command
            && w.log[k].token == w.clients[c].token && w.log[k].name == w.clients[c].name
    decreases |acts|
  {
    var before, a := acts[..|acts| - 1], Last(acts);
    var w, w' := Run(Initial(leaked), before), Run(Initial(leaked), acts);
    if c < |w.clients| && w.clients[c].phase.Commanded? {
      k := CommandLogged(leaked, before, c);
      assert w.log <= w'.log;
    } else {
      k := |w.log|;
    }
  }

  /** The exchange completes when nobody interferes: the guarantees are not met by refusing everything. */
  lemma HonestExchangeSucceeds(w: World, c: nat, s: nat, nonce: Bytes)
    requires c < |w.clients| && s < |w.servers| && Fresh(w, nonce) && Wide(w.servers[s].nonce)
    requires w.clients[c].phase.Dialled? && w.servers[s].phase.Waiting?
    requires w.clients[c].token == w.servers[s].token && w.clients[c].name == w.servers[s].name
    ensures var (token, sn, name) := (w.servers[s].token, w.servers[s].nonce, w.servers[s].name);
            var greet := Greet(c, Challenge(sn), nonce);
            var offer := Offer(s, Auth(nonce, ClientProof(token, sn, nonce, name)));
            var answer := Answer(c, AuthOk(ServerProof(token, sn, nonce, name)));
            && Enabled(w, greet) && Enabled(Step(w, greet), offer)
            && Enabled(Step(Step(w, greet), offer), answer)
            && var w' := Step(Step(Step(w, greet), offer), answer);
               && w'.servers[s].phase == Accepted(nonce)
               && w'.clients[c].phase == Commanded(sn, nonce)
  {
  }
}
