/**
 Both ends of the handshake as they run (dial_unix.go and grant.go): frames in,
 frames out, and the scan over every socket in the grants directory.
 */
module Dialling {
  import opened Common
  import opened Handshake

  /** One connection, to whoever listens: the frames the peer will send, and how many it will take. */
  class Conn {
    const script: seq<Frame>
    const accepts: nat
    var taken: nat
    var sent: seq<Frame>

    ghost predicate Valid()
      reads this
    {
      taken <= |script| && |sent| <= accepts
    }

    constructor (script: seq<Frame>, accepts: nat)
      ensures Valid() && this.script == script && this.accepts == accepts && taken == 0 && sent == []
    {
      this.script, this.accepts, taken, sent := script, accepts, 0, [];
    }

    method ReadFrame() returns (f: Option<Frame>)
      requires Valid()
      modifies `taken
      ensures Valid()
      ensures if old(taken) < |script| then f == Some(script[old(taken)]) && taken == old(taken) + 1
              else f == None && taken == old(taken)
    {
      if taken == |script| {
        return None;
      }
      f, taken := Some(script[taken]), taken + 1;
    }

    method WriteFrame(f: Frame) returns (ok: bool)
      requires Valid()
      modifies `sent
      ensures Valid()
      ensures ok == (|old(sent)| < accepts) && sent == (if ok then old(sent) + [f] else old(sent))
    {
      ok := |sent| < accepts;
      if ok {
        sent := sent + [f];
      }
    }
  }

  // ---------------------------------------------------------------------------
  // The client
  // ---------------------------------------------------------------------------

  /** What the client's connection must have been for the handshake to succeed. */
  predicate Convinced(script: seq<Frame>, token: Token, name: Bytes, nonce: Bytes) {
    && |script| >= 2
    && Greeted(script[0], nonce).Proved?
    && Verified(Client(token, name, Greeted(script[0], nonce)), script[1]).Commanded?
  }

  /** The client's half, against one candidate socket; the nonce is the one it draws. */
  method Authenticate(c: Conn, token: Token, name: Bytes, nonce: Bytes) returns (ok: bool)
    requires c.Valid() && c.taken == 0 && c.sent == []
    modifies c
    ensures c.Valid()
    ensures ok == (c.accepts > 0 && Convinced(c.script, token, name, nonce))
    ensures forall f <- c.sent :: f.Auth? && f.nonce == nonce
    ensures forall f <- c.sent :: c.script != [] && c.script[0].Challenge?
              && f.mac == ClientProof(token, c.script[0].nonce, nonce, name)
    ensures ok ==> |c.sent| == 1 && c.taken == 2
  {
    var first := c.ReadFrame();
    if first.None? || !first.value.Challenge? || |first.value.nonce| != NONCE_LEN {
      return false;
    }
    var serverNonce := first.value.nonce;
    var written := c.WriteFrame(Auth(nonce, ClientProof(token, serverNonce, nonce, name)));
    if !written {
      return false;
    }
    var reply := c.ReadFrame();
    if reply.None? || !reply.value.AuthOk? {
      return false;
    }
    ok := reply.value.mac == ServerProof(token, serverNonce, nonce, name);
  }

  /** A socket file: its base name and, when somebody listens, the connection one gets. */
  datatype Socket = Socket(name: Bytes, conn: Option<Conn>)

  /** One turn of the scan: the command goes out only over a connection whose holder proved itself. */
  method TrySocket(c: Conn, token: Token, name: Bytes, nonce: Bytes, command: string) returns (ok: bool)
    requires c.Valid() && c.taken == 0 && c.sent == []
    modifies c
    ensures ok == (c.accepts > 0 && Convinced(c.script, token, name, nonce))
    ensures !ok ==> RunFrame(command) !in c.sent
    ensures ok && c.accepts >= 2 ==> |c.sent| == 2 && c.sent[1] == RunFrame(command)
  {
    ok := Authenticate(c, token, name, nonce);
    if ok {
      var _ := c.WriteFrame(RunFrame(command));
    }
  }

  ghost predicate Ready(socks: seq<Socket>)
    reads set i | 0 <= i < |socks| && socks[i].conn.Some? :: socks[i].conn.value
  {
    && (forall i :: 0 <= i < |socks| && socks[i].conn.Some? ==>
          socks[i].conn.value.Valid() && socks[i].conn.value.taken == 0 && socks[i].conn.value.sent == [])
    && (forall i, j :: 0 <= i < j < |socks| && socks[i].conn.Some? && socks[j].conn.Some? ==>
          socks[i].conn.value != socks[j].conn.value)
  }

  /** The socket answers and its holder proves itself. */
  predicate Proves(s: Socket, token: Token, nonce: Bytes) {
    s.conn.Some? && s.conn.value.accepts > 0 && Convinced(s.conn.value.script, token, s.name, nonce)
  }

  function ConnsOf(socks: seq<Socket>): set<Conn> {
    set i | 0 <= i < |socks| && socks[i].conn.Some? :: socks[i].conn.value
  }

  /**
   Offers the command to the first socket that proves it holds the token, and to
   no other; the chosen one is named, or no socket qualified. An empty token is
   refused before anything is opened.
   */
  method DialGrant(token: Token, emptyToken: bool, socks: seq<Socket>, nonces: seq<Bytes>, command: string)
    returns (chosen: Option<nat>)
    requires |nonces| == |socks| && Ready(socks)
    modifies ConnsOf(socks)
    ensures match chosen
            case None => emptyToken || forall i :: 0 <= i < |socks| ==> !Proves(socks[i], token, nonces[i])
            case Some(k) =>
              && !emptyToken && k < |socks| && Proves(socks[k], token, nonces[k])
              && forall i :: 0 <= i < k ==> !Proves(socks[i], token, nonces[i])
    ensures forall i :: 0 <= i < |socks| && socks[i].conn.Some? && chosen != Some(i) ==>
              RunFrame(command) !in socks[i].conn.value.sent
    ensures chosen.Some? && socks[chosen.value].conn.value.accepts >= 2 ==>
              var sent := socks[chosen.value].conn.value.sent; |sent| == 2 && sent[1] == RunFrame(command)
  {
    if emptyToken {
      return None;
    }
    for i := 0 to |socks|
      invariant forall j :: 0 <= j < i ==> !Proves(socks[j], token, nonces[j])
      invariant forall j :: 0 <= j < i && socks[j].conn.Some? ==> RunFrame(command) !in socks[j].conn.value.sent
      invariant Ready(socks[i..])
      invariant forall j :: 0 <= j < |socks| && socks[j].conn.Some? ==> socks[j].conn.value in ConnsOf(socks)
    {
      if socks[i].conn.None? {
        continue;
      }
      var c := socks[i].conn.value;
      assert socks[i..][0] == socks[i];
      var ok := TrySocket(c, token, socks[i].name, nonces[i], command);
      forall j | i < j < |socks| && socks[j].conn.Some?
        ensures socks[j].conn.value != c
      {
        assert socks[i..][j - i] == socks[j];
      }
      if ok {
        return Some(i);
      }
    }
    return None;
  }

  // ---------------------------------------------------------------------------
  // The grant
  // ---------------------------------------------------------------------------

  /** What the grant says to the first frame: nothing at all unless it is one well-formed proof. */
  function Replies(script: seq<Frame>, token: Token, name: Bytes, nonce: Bytes): seq<Frame> {
    if script == [] || !script[0].Auth? || |script[0].nonce| != NONCE_LEN then []
    else if script[0].mac == ClientProof(token, nonce, script[0].nonce, name)
    then [AuthOk(ServerProof(token, nonce, script[0].nonce, name))]
    else [Refusal]
  }

  /** The grant's half of one connection: what it reads, what it says, whether the peer is in. */
  method Handle(c: Conn, token: Token, name: Bytes, nonce: Bytes) returns (accepted: Option<Bytes>)
    requires c.Valid() && c.taken == 0 && c.sent == []
    modifies c
    ensures c.Valid()
    ensures accepted.Some? == (c.accepts >= 2 && c.script != [] &&
              Judged(Server(token, name, nonce, Waiting), c.script[0]).Accepted?)
    ensures accepted.Some? ==>
              && Judged(Server(token, name, nonce, Waiting), c.script[0]) == Accepted(accepted.value)
              && c.sent == [Challenge(nonce), AuthOk(ServerProof(token, nonce, accepted.value, name))]
    ensures c.sent ==
              if c.accepts == 0 then []
              else [Challenge(nonce)] + if c.accepts == 1 then [] else Replies(c.script, token, name, nonce)
  {
    var challenged := c.WriteFrame(Challenge(nonce));
    if !challenged {
      return None;
    }
    var first := c.ReadFrame();
    if first.None? || !first.value.Auth? || |first.value.nonce| != NONCE_LEN {
      return None;
    }
    var clientNonce := first.value.nonce;
    if first.value.mac != ClientProof(token, nonce, clientNonce, name) {
      var _ := c.WriteFrame(Refusal);
      return None;
    }
    var said := c.WriteFrame(AuthOk(ServerProof(token, nonce, clientNonce, name)));
    if !said {
      return None;
    }
    accepted := Some(clientNonce);
  }
}
