/**
 Length-prefixed frames: one kind byte, a 4-byte big-endian length, the payload.
 Both the grant socket and the session socket frame their bytes this way.
 */
module Framing {
  import opened Common

  const MAX_FRAME: nat := 1024 * 1024

  datatype Frame = Frame(kind: byte, payload: seq<byte>)

  function BigEndian(n: nat): (b: seq<byte>)
    requires n < 0x1_0000_0000
    ensures |b| == 4
  {
    var high := n / 0x100;
    var higher := high / 0x100;
    [(higher / 0x100) as byte, (higher % 0x100) as byte, (high % 0x100) as byte, (n % 0x100) as byte]
  }

  function FromBigEndian(b: seq<byte>): (n: nat)
    requires |b| == 4
    ensures n < 0x1_0000_0000
  {
    ((b[0] as nat * 0x100 + b[1] as nat) * 0x100 + b[2] as nat) * 0x100 + b[3] as nat
  }

  lemma BigEndianInverse(n: nat)
    requires n < 0x1_0000_0000
    ensures FromBigEndian(BigEndian(n)) == n
  {
  }

  /** A frame on the wire. */
  function Encode(f: Frame): (b: seq<byte>)
    requires |f.payload| < 0x1_0000_0000
    ensures |b| == 5 + |f.payload|
  {
    [f.kind] + BigEndian(|f.payload|) + f.payload
  }

  datatype Status = Closed | Truncated | TooLong

  datatype ReadResult = Got(frame: Frame, rest: seq<byte>) | Stopped(status: Status)

  /** One frame off the front of a byte stream that ends where the sequence ends. */
  function Read(stream: seq<byte>, limit: nat): (r: ReadResult)
    ensures r.Got? ==> |r.rest| < |stream|
  {
    if |stream| == 0 then Stopped(Closed)
    else if |stream| < 5 then Stopped(Truncated)
    else
      var n := FromBigEndian(stream[1..5]);
      if n > limit then Stopped(TooLong)
      else if |stream| < 5 + n then Stopped(Truncated)
      else Got(Frame(stream[0], stream[5..5 + n]), stream[5 + n..])
  }

  /** All frames of a stream, and how it ended. */
  function ReadAll(stream: seq<byte>, limit: nat): (r: (seq<Frame>, Status))
    decreases |stream|
  {
    match Read(stream, limit)
    case Stopped(status) => ([], status)
    case Got(f, rest) =>
      var (frames, status) := ReadAll(rest, limit);
      ([f] + frames, status)
  }

  predicate Fit(frames: seq<Frame>, limit: nat) {
    forall f | f in frames :: |f.payload| <= limit
  }

  function EncodeAll(frames: seq<Frame>): seq<byte>
    requires Fit(frames, MAX_FRAME)
  {
    if frames == [] then [] else Encode(frames[0]) + EncodeAll(frames[1..])
  }

  // ---------------------------------------------------------------------------
  // The code's two loops over a stream
  // ---------------------------------------------------------------------------

  /** A connection's bytes: what was written to it, and how far it has been read. */
  class Stream {
    var bytes: seq<byte>
    var pos: nat

    ghost predicate Valid()
      reads this
    {
      pos <= |bytes|
    }

    ghost function Rest(): seq<byte>
      reads this
      requires Valid()
    {
      bytes[pos..]
    }

    constructor ()
      ensures Valid() && bytes == [] && pos == 0
    {
      bytes, pos := [], 0;
    }

    /** io.ReadFull: n bytes, or as many as there are. */
    method ReadFull(n: nat) returns (b: seq<byte>)
      requires Valid()
      modifies this`pos
      ensures Valid()
      ensures if n <= |old(Rest())| then b == old(Rest())[..n] && Rest() == old(Rest())[n..]
              else b == old(Rest()) && Rest() == []
    {
      var end := if n <= |bytes| - pos then pos + n else |bytes|;
      b := bytes[pos..end];
      pos := end;
    }

    method WriteFrame(kind: byte, payload: seq<byte>) returns (ok: bool)
      requires Valid()
      modifies this`bytes
      ensures Valid() && (ok <==> |payload| <= MAX_FRAME)
      ensures bytes == if ok then old(bytes) + Encode(Frame(kind, payload)) else old(bytes)
      ensures pos == old(pos)
    {
      if |payload| > MAX_FRAME {
        return false;
      }
      var head := [kind] + BigEndian(|payload|);
      bytes := bytes + head;
      ok := true;
      if |payload| == 0 {
        assert head == Encode(Frame(kind, payload));
        return;
      }
      assert bytes + payload == old(bytes) + Encode(Frame(kind, payload));
      bytes := bytes + payload;
    }

    /** Reads exactly one frame; a declared length over the limit is refused before the payload is read. */
    method ReadFrameLimit(limit: nat) returns (r: ReadResult)
      requires Valid()
      modifies this`pos
      ensures Valid() && bytes == old(bytes)
      ensures r == Read(old(Rest()), limit)
      ensures r.Got? ==> Rest() == r.rest
      ensures r == Stopped(TooLong) ==> pos == old(pos) + 5
      ensures r == Stopped(TooLong) <==> |old(Rest())| >= 5 && FromBigEndian(old(Rest())[1..5]) > limit
      ensures r == Stopped(Closed) <==> old(Rest()) == []
    {
      var head := ReadFull(5);
      if |head| < 5 {
        return Stopped(if |head| == 0 then Closed else Truncated);
      }
      ghost var all := old(Rest());
      assert head[1..] == all[1..5];
      var n := FromBigEndian(head[1..]);
      if n > limit {
        return Stopped(TooLong);
      }
      if n == 0 {
        assert all[5..5] == [];
        return Got(Frame(head[0], []), bytes[pos..]);
      }
      var buf := ReadFull(n);
      if |buf| < n {
        return Stopped(Truncated);
      }
      assert buf == all[5..5 + n] && bytes[pos..] == all[5 + n..];
      r := Got(Frame(head[0], buf), bytes[pos..]);
    }
  }

  // ---------------------------------------------------------------------------
  // Round trip
  // ---------------------------------------------------------------------------

  lemma ReadEncoded(f: Frame, rest: seq<byte>, limit: nat)
    requires |f.payload| <= limit <= MAX_FRAME
    ensures Read(Encode(f) + rest, limit) == Got(f, rest)
  {
    var s := Encode(f) + rest;
    assert s[1..5] == BigEndian(|f.payload|);
    BigEndianInverse(|f.payload|);
    assert s[5..5 + |f.payload|] == f.payload;
    assert s[5 + |f.payload|..] == rest;
  }

  /** What was written is what is read: the same frames, every byte of them used, then a clean end. */
  lemma {:induction false} FramesRoundTrip(frames: seq<Frame>, limit: nat)
    requires limit <= MAX_FRAME && Fit(frames, limit)
    ensures ReadAll(EncodeAll(frames), limit) == (frames, Closed)
  {
    if frames != [] {
      ReadEncoded(frames[0], EncodeAll(frames[1..]), limit);
      FramesRoundTrip(frames[1..], limit);
      assert [frames[0]] + frames[1..] == frames;
    }
  }

  /** Why no frame is read: the end, a head or a payload cut short, or a length over the limit, payload or not. */
  lemma ReadStopsIff(stream: seq<byte>, limit: nat)
    ensures Read(stream, limit) == Stopped(Closed) <==> stream == []
    ensures Read(stream, limit) == Stopped(TooLong) <==> |stream| >= 5 && FromBigEndian(stream[1..5]) > limit
    ensures Read(stream, limit).Got? <==>
              |stream| >= 5 && FromBigEndian(stream[1..5]) <= limit && |stream| - 5 >= FromBigEndian(stream[1..5])
  {
  }

  /** A stream cut anywhere inside a frame: the frame is not delivered. */
  lemma ReadCut(f: Frame, n: nat, limit: nat)
    requires |f.payload| <= limit <= MAX_FRAME && n < |Encode(f)|
    ensures Read(Encode(f)[..n], limit) == Stopped(if n == 0 then Closed else Truncated)
  {
    if n >= 5 {
      assert Encode(f)[..n][1..5] == Encode(f)[1..5] == BigEndian(|f.payload|);
      BigEndianInverse(|f.payload|);
    }
  }

  /** How many of the frames fit completely into the first n bytes. */
  function Whole(frames: seq<Frame>, n: nat): (k: nat)
    requires Fit(frames, MAX_FRAME)
    ensures k <= |frames|
  {
    if frames == [] || n < |Encode(frames[0])| then 0 else 1 + Whole(frames[1..], n - |Encode(frames[0])|)
  }

  /** A truncated stream yields exactly the frames that arrived whole, and says so unless it was cut between frames. */
  lemma {:induction false} TruncationLosesOnlyTheEnd(frames: seq<Frame>, n: nat, limit: nat)
    requires limit <= MAX_FRAME && Fit(frames, limit) && n <= |EncodeAll(frames)|
    ensures var k := Whole(frames, n);
            ReadAll(EncodeAll(frames)[..n], limit) ==
              (frames[..k], if n == |EncodeAll(frames[..k])| then Closed else Truncated)
  {
    hide Encode, Read;
    if frames == [] {
      ReadStopsIff([], limit);
    } else {
      var first := Encode(frames[0]);
      if n < |first| {
        assert EncodeAll(frames)[..n] == first[..n];
        ReadCut(frames[0], n, limit);
      } else {
        var m := n - |first|;
        var k := Whole(frames[1..], m);
        assert EncodeAll(frames)[..n] == first + EncodeAll(frames[1..])[..m];
        ReadEncoded(frames[0], EncodeAll(frames[1..])[..m], limit);
        TruncationLosesOnlyTheEnd(frames[1..], m, limit);
        assert frames[..k + 1] == [frames[0]] + frames[1..][..k];
        assert frames[..k + 1][1..] == frames[1..][..k];
      }
    }
  }

  /** Conversely, the frames read off any stream at all are its bytes: encoded again they are a prefix of it. */
  lemma {:induction false} ReadIsFaithful(stream: seq<byte>, limit: nat)
    requires limit <= MAX_FRAME
    ensures var (frames, status) := ReadAll(stream, limit);
            && Fit(frames, limit) && EncodeAll(frames) <= stream
            && (status == Closed <==> EncodeAll(frames) == stream)
    decreases |stream|
  {
    hide Encode, Read;
    var r := Read(stream, limit);
    if r.Got? {
      ReadIsFaithful(r.rest, limit);
      GotStands(stream, limit);
      var (frames, status) := ReadAll(r.rest, limit);
      OneMoreFrame(r.frame, frames, r.rest, stream, limit);
    } else {
      ReadStopsIff(stream, limit);
    }
  }

  /** A frame that was read stands there. */
  lemma GotStands(stream: seq<byte>, limit: nat)
    requires limit <= MAX_FRAME && Read(stream, limit).Got?
    ensures var r := Read(stream, limit);
            |r.frame.payload| <= limit && stream == Encode(r.frame) + r.rest
  {
    LengthInverse(stream[1..5]);
  }

  lemma OneMoreFrame(f: Frame, frames: seq<Frame>, rest: seq<byte>, stream: seq<byte>, limit: nat)
    requires limit <= MAX_FRAME && |f.payload| <= limit && Fit(frames, limit)
    requires stream == Encode(f) + rest && EncodeAll(frames) <= rest
    ensures Fit([f] + frames, limit) && EncodeAll([f] + frames) <= stream
    ensures EncodeAll([f] + frames) == stream <==> EncodeAll(frames) == rest
  {
    hide Encode;
    var first, more := Encode(f), EncodeAll(frames);
    assert ([f] + frames)[1..] == frames;
    assert EncodeAll([f] + frames) == first + more;
    assert first + more == stream <==> more == rest by {
      assert (first + more)[|first|..] == more && stream[|first|..] == rest;
    }
  }

  lemma LengthInverse(b: seq<byte>)
    requires |b| == 4
    ensures BigEndian(FromBigEndian(b)) == b
  {
    var higher := b[0] as nat * 0x100 + b[1] as nat;
    SplitByte(b[0] as nat, b[1]);
    SplitByte(higher, b[2]);
    SplitByte(higher * 0x100 + b[2] as nat, b[3]);
  }

  lemma SplitByte(high: nat, low: byte)
    ensures (high * 0x100 + low as nat) / 0x100 == high && (high * 0x100 + low as nat) % 0x100 == low as nat
  {
  }
}
