/**
 The grant socket's mutual challenge-response (internal/remoteaccess/proto.go,
 dial_unix.go, grant.go), run by any number of grants and clients over a network
 that belongs to the adversary.

 The adversary sees every frame, delivers any frame it can put together to
 anyone, listens under any socket name and holds any set of leaked tokens. MACs
 are symbolic: a MAC over a token's transcript exists only if somebody who holds
 the token computed it, and equal MACs have equal tokens and transcripts.
 */
module Handshake {
  import opened Common

  type Token = nat
  type Bytes = seq<byte>

  const NONCE_LEN: nat := 32

  function Ascii(s: string): (b: Bytes)
    requires forall i :: 0 <= i < |s| ==> 0 < s[i] as int < 128
    ensures |b| == |s| && forall i :: 0 <= i < |s| ==> b[i] as int == s[i] as int
  {
    seq(|s|, i requires 0 <= i < |s| => s[i] as int as byte)
  }

  const LABEL_CLIENT: Bytes := Ascii("wharf-remoteaccess-client-v1")
  const LABEL_SERVER: Bytes := Ascii("wharf-remoteaccess-server-v1")

  // ---------------------------------------------------------------------------
  // Transcripts
  // ---------------------------------------------------------------------------

  /** What is MACed: label, a zero byte, both nonces, the socket's base name; no lengths. */
  function Transcript(tag: Bytes, serverNonce: Bytes, clientNonce: Bytes, name: Bytes): Bytes {
    tag + [0] + serverNonce + clientNonce + name
  }

  predicate IsLabel(l: Bytes) {
    forall i :: 0 <= i < |l| ==> l[i] != 0
  }

  lemma LabelsDiffer()
    ensures IsLabel(LABEL_CLIENT) && IsLabel(LABEL_SERVER) && LABEL_CLIENT != LABEL_SERVER
  {
    assert LABEL_CLIENT[19] as int == 'c' as int && LABEL_SERVER[19] as int == 's' as int;
  }

  lemma FirstZero(l: Bytes, rest: Bytes)
    requires IsLabel(l)
    ensures var t := l + [0] + rest;
            t[|l|] == 0 && (forall i :: 0 <= i < |l| ==> t[i] != 0) && t[..|l|] == l && t[|l| + 1..] == rest
  {
  }

  lemma SameLabel(l: Bytes, rest: Bytes, l': Bytes, rest': Bytes)
    requires IsLabel(l) && IsLabel(l') && l + [0] + rest == l' + [0] + rest'
    ensures l == l' && rest == rest'
  {
    FirstZero(l, rest);
    FirstZero(l', rest');
  }

  /** The bare concatenation is unambiguous, for labels without a zero byte and nonces of one width. */
  lemma TranscriptInjective(l: Bytes, sn: Bytes, cn: Bytes, name: Bytes,
                            l': Bytes, sn': Bytes, cn': Bytes, name': Bytes)
    requires IsLabel(l) && IsLabel(l')
    requires |sn| == |sn'| == |cn| == |cn'| == NONCE_LEN
    requires Transcript(l, sn, cn, name) == Transcript(l', sn', cn', name')
    ensures l == l' && sn == sn' && cn == cn' && name == name'
  {
    var rest, rest' := sn + cn + name, sn' + cn' + name';
    assert Transcript(l, sn, cn, name) == l + [0] + rest;
    assert Transcript(l', sn', cn', name') == l' + [0] + rest';
    SameLabel(l, rest, l', rest');
    assert sn == rest[..32] && sn' == rest'[..32];
    assert cn == rest[32..64] && cn' == rest'[32..64];
    assert name == rest[64..] && name' == rest'[64..];
  }

  // ---------------------------------------------------------------------------
  // Frames and sessions
  // ---------------------------------------------------------------------------

  datatype Mac = Mac(token: Token, transcript: Bytes) | Noise(bytes: Bytes)

  datatype Frame =
    | Challenge(nonce: Bytes)
    | Auth(nonce: Bytes, mac: Mac)
    | AuthOk(mac: Mac)
    | RunFrame(command: string)
    | Refusal
    | Other

  function ClientProof(token: Token, sn: Bytes, cn: Bytes, name: Bytes): Mac {
    Mac(token, Transcript(LABEL_CLIENT, sn, cn, name))
  }

  function ServerProof(token: Token, sn: Bytes, cn: Bytes, name: Bytes): Mac {
    Mac(token, Transcript(LABEL_SERVER, sn, cn, name))
  }

  datatype ServerPhase = Waiting | Accepted(clientNonce: Bytes) | HungUp

  /** One connection a grant accepted. */
  datatype Server = Server(token: Token, name: Bytes, nonce: Bytes, phase: ServerPhase)

  datatype ClientPhase =
    | Dialled
    | Proved(serverNonce: Bytes, clientNonce: Bytes)
    | Commanded(serverNonce: Bytes, clientNonce: Bytes)
    | GaveUp

  /** One connection a client opened to the socket of this name, whoever listens there. */
  datatype Client = Client(token: Token, name: Bytes, phase: ClientPhase)

  /** The grant's answer to its first frame: only one well-formed, correct proof is accepted. */
  function Judged(s: Server, f: Frame): ServerPhase {
    if f.Auth? && |f.nonce| == NONCE_LEN && f.mac == ClientProof(s.token, s.nonce, f.nonce, s.name)
    then Accepted(f.nonce) else HungUp
  }

  /** The client's answer to its first frame. */
  function Greeted(f: Frame, nonce: Bytes): ClientPhase {
    if f.Challenge? && |f.nonce| == NONCE_LEN then Proved(f.nonce, nonce) else GaveUp
  }

  /** The client's answer to the reply: the command goes out only after the grant's own proof. */
  function Verified(c: Client, f: Frame): ClientPhase
    requires c.phase.Proved?
  {
    if f == AuthOk(ServerProof(c.token, c.phase.serverNonce, c.phase.clientNonce, c.name))
    then Commanded(c.phase.serverNonce, c.phase.clientNonce) else GaveUp
  }

  // ---------------------------------------------------------------------------
  // The network
  // ---------------------------------------------------------------------------

  datatype Kind = Proof | Acceptance | Command

  /** Something a grant or a client did; `session` is the one that did it. */
  datatype Event = Event(kind: Kind, token: Token, sn: Bytes, cn: Bytes, name: Bytes, session: nat)

  datatype World = World(
    servers: seq<Server>,
    clients: seq<Client>,
    drawn: set<Bytes>,     // the nonces drawn so far
    known: set<Mac>,       // the MACs sent so far
    leaked: set<Token>,    // tokens the adversary holds
    log: seq<Event>)

  datatype Action =
    | Listen(token: Token, name: Bytes, drawn: Bytes)
    | Dial(token: Token, name: Bytes)
    | Greet(who: nat, frame: Frame, drawn: Bytes)
    | Offer(who: nat, frame: Frame)
    | Answer(who: nat, frame: Frame)

  predicate Makeable(w: World, m: Mac) {
    m in w.known || m.Noise? || m.token in w.leaked
  }

  predicate Deliverable(w: World, f: Frame) {
    match f
    case Auth(_, mac) => Makeable(w, mac)
    case AuthOk(mac) => Makeable(w, mac)
    case _ => true
  }

  predicate Fresh(w: World, nonce: Bytes) {
    |nonce| == NONCE_LEN && nonce !in w.drawn
  }

  predicate Enabled(w: World, a: Action) {
    match a
    case Listen(_, _, nonce) => Fresh(w, nonce)
    case Dial(_, _) => true
    case Greet(c, f, nonce) =>
      c < |w.clients| && w.clients[c].phase.Dialled? && Deliverable(w, f) && Fresh(w, nonce)
    case Offer(s, f) => s < |w.servers| && w.servers[s].phase.Waiting? && Deliverable(w, f)
    case Answer(c, f) => c < |w.clients| && w.clients[c].phase.Proved? && Deliverable(w, f)
  }

  function Step(w: World, a: Action): World
    requires Enabled(w, a)
  {
    match a
    case Listen(token, name, nonce) =>
      w.(servers := w.servers + [Server(token, name, nonce, Waiting)], drawn := w.drawn + {nonce})
    case Dial(token, name) =>
      w.(clients := w.clients + [Client(token, name, Dialled)])
    case Greet(c, f, nonce) =>
      var cl := w.clients[c];
      var ph := Greeted(f, nonce);
      var w' := w.(clients := w.clients[c := cl.(phase := ph)], drawn := w.drawn + {nonce});
      if ph.Proved? then
        w'.(known := w.known + {ClientProof(cl.token, f.nonce, nonce, cl.name)},
            log := w.log + [Event(Proof, cl.token, f.nonce, nonce, cl.name, c)])
      else w'
    case Offer(s, f) =>
      var sv := w.servers[s];
      var ph := Judged(sv, f);
      var w' := w.(servers := w.servers[s := sv.(phase := ph)]);
      if ph.Accepted? then
        w'.(known := w.known + {ServerProof(sv.token, sv.nonce, f.nonce, sv.name)},
            log := w.log + [Event(Acceptance, sv.token, sv.nonce, f.nonce, sv.name, s)])
      else w'
    case Answer(c, f) =>
      var cl := w.clients[c];
      var ph := Verified(cl, f);
      var w' := w.(clients := w.clients[c := cl.(phase := ph)]);
      if ph.Commanded? then
        w'.(log := w.log + [Event(Command, cl.token, ph.serverNonce, ph.clientNonce, cl.name, c)])
      else w'
  }

  predicate CanRun(w: World, acts: seq<Action>)
    decreases |acts|, 0
  {
    acts == [] ||
    (CanRun(w, acts[..|acts| - 1]) && Enabled(Run(w, acts[..|acts| - 1]), Last(acts)))
  }

  function Run(w: World, acts: seq<Action>): World
    requires CanRun(w, acts)
    decreases |acts|, 1
  {
    if acts == [] then w else Step(Run(w, acts[..|acts| - 1]), Last(acts))
  }

  function Initial(leaked: set<Token>): World {
    World([], [], {}, {}, leaked, [])
  }
}
