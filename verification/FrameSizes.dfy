/**
 Why a request or a chunk of output never exceeds the frame limit: the JSON each of
 them becomes on the grant socket and on the session socket, and the check the
 client makes before it sends anything.
 */
module FrameSizes {
  import opened Common
  import opened Framing

  const OUT_CHUNK: nat := 32 * 1024
  const FRAME_RESERVE: nat := 64 * 1024
  const FRAME_FIXED: nat := 256
  const STDIN_LIMIT: nat := (MAX_FRAME - FRAME_RESERVE) * 3 / 4

  /** The base64 character for the low six bits. */
  function Sextet(n: nat): char {
    var k := n % 64;
    if k < 26 then ('A' as int + k) as char
    else if k < 52 then ('a' as int + (k - 26)) as char
    else if k < 62 then ('0' as int + (k - 52)) as char
    else if k == 62 then '+' else '/'
  }

  /** One group of up to three bytes. */
  function Group(b: seq<byte>): (s: string)
    requires 1 <= |b| <= 3
    ensures |s| == 4
  {
    var x := b[0] as nat;
    var y := if |b| > 1 then b[1] as nat else 0;
    var z := if |b| > 2 then b[2] as nat else 0;
    [Sextet(x / 4), Sextet(x * 16 + y / 16),
     if |b| > 1 then Sextet(y * 4 + z / 64) else '=',
     if |b| > 2 then Sextet(z) else '=']
  }

  /** Base64 as section 4 of RFC 4648 has it. */
  function Base64(b: seq<byte>): (s: string)
    ensures |s| == 4 * ((|b| + 2) / 3)
  {
    if b == [] then "" else if |b| <= 3 then Group(b) else Group(b[..3]) + Base64(b[3..])
  }

  /** A 64-bit integer in decimal. */
  function Decimal(n: nat): (s: string)
    ensures 1 <= |s|
    ensures n < 10 ==> |s| == 1
  {
    if n < 10 then [('0' as int + n) as char] else Decimal(n / 10) + [('0' as int + n % 10) as char]
  }

  function Power10(k: nat): nat { if k == 0 then 1 else 10 * Power10(k - 1) }

  lemma {:induction false} DecimalLength(n: nat, k: nat)
    requires 1 <= k && n < Power10(k)
    ensures |Decimal(n)| <= k
  {
    if n >= 10 {
      assert k > 1 by {
        assert Power10(1) == 10 * Power10(0) == 10;
      }
      DecimalLength(n / 10, k - 1);
    }
  }

  lemma Power10Of19()
    ensures Power10(19) == 10_000_000_000_000_000_000
  {
    assert Power10(5) == 100_000;
    assert Power10(10) == 10_000_000_000;
    assert Power10(15) == 1_000_000_000_000_000;
  }

  /** The optional members of a request. */
  function StdinAndTimeout(stdin: seq<byte>, timeoutMs: nat): string {
    (if stdin == [] then "" else ",\"stdin\":\"" + Base64(stdin) + "\"") +
    (if timeoutMs == 0 then "" else ",\"timeoutMs\":" + Decimal(timeoutMs))
  }

  /** The request on the grant socket; command is the JSON string literal of the command. */
  function RunRequest(command: string, stdin: seq<byte>, timeoutMs: nat): string {
    "{\"command\":" + command + StdinAndTimeout(stdin, timeoutMs) + "}"
  }

  /** The same request on the session socket, under a 16-digit correlation id. */
  function ExecRequest(id: string, command: string, stdin: seq<byte>, timeoutMs: nat): string {
    "{\"id\":\"" + id + "\",\"command\":" + command + StdinAndTimeout(stdin, timeoutMs) + "}"
  }

  function OutFrame(stream: string, data: seq<byte>): string {
    "{\"stream\":\"" + stream + "\",\"data\":\"" + Base64(data) + "\"}"
  }

  function ExecOutput(id: string, stream: string, data: seq<byte>): string {
    "{\"id\":\"" + id + "\"," + OutFrame(stream, data)[1..]
  }

  /** The client's check, on the length of the encoded command and of stdin. */
  predicate CheckRemoteFrame(command: string, stdin: seq<byte>) {
    |command| + 4 * ((|stdin| + 2) / 3) + FRAME_FIXED <= MAX_FRAME
  }

  /** A request the client's check accepts fits one frame on both hops. */
  lemma AcceptedRequestsFit(id: string, command: string, stdin: seq<byte>, timeoutMs: nat)
    requires CheckRemoteFrame(command, stdin) && |id| == 16 && timeoutMs < 0x8000_0000_0000_0000
    ensures |RunRequest(command, stdin, timeoutMs)| <= MAX_FRAME
    ensures |ExecRequest(id, command, stdin, timeoutMs)| <= MAX_FRAME
  {
    Power10Of19();
    DecimalLength(timeoutMs, 19);
    assert |StdinAndTimeout(stdin, timeoutMs)| <= 4 * ((|stdin| + 2) / 3) + 50;
  }

  /** The promised stdin capacity can be reached with any command that stays within the reserve. */
  lemma PromisedStdinIsAccepted(command: string, stdin: seq<byte>)
    requires |stdin| <= STDIN_LIMIT && |command| + FRAME_FIXED <= FRAME_RESERVE
    ensures CheckRemoteFrame(command, stdin)
  {
  }

  /** One byte over the promise, and a command that fills the reserve is refused. */
  lemma PromiseIsTight(command: string, stdin: seq<byte>)
    requires |stdin| == STDIN_LIMIT + 1 && |command| + FRAME_FIXED == FRAME_RESERVE
    ensures !CheckRemoteFrame(command, stdin)
  {
  }

  /** A chunk of output fits one frame on both hops. */
  lemma ChunksFit(id: string, stream: string, data: seq<byte>)
    requires |data| <= OUT_CHUNK && |id| == 16 && |stream| == 3
    ensures |OutFrame(stream, data)| <= MAX_FRAME && |ExecOutput(id, stream, data)| <= MAX_FRAME
  {
    assert |OutFrame(stream, data)| <= 4 * ((|data| + 2) / 3) + 40;
  }

  /** Splits output into frames of at most OUT_CHUNK bytes each, in order. */
  method StreamWrite(stream: string, p: seq<byte>) returns (chunks: seq<seq<byte>>)
    requires |stream| == 3
    ensures Concat(chunks) == p
    ensures forall c | c in chunks :: 0 < |c| <= OUT_CHUNK && |OutFrame(stream, c)| <= MAX_FRAME
  {
    chunks := [];
    var rest := p;
    while |rest| > 0
      invariant Concat(chunks) + rest == p
      invariant AllFit(chunks)
      decreases |rest|
    {
      var chunk := rest;
      if |chunk| > OUT_CHUNK {
        chunk := chunk[..OUT_CHUNK];
      }
      ConcatAppend(chunks, chunk);
      assert chunk + rest[|chunk|..] == rest;
      chunks := chunks + [chunk];
      rest := rest[|chunk|..];
    }
    FittingChunksFrame(chunks, stream);
  }

  predicate AllFit(chunks: seq<seq<byte>>) {
    forall c | c in chunks :: 0 < |c| <= OUT_CHUNK
  }

  lemma FittingChunksFrame(chunks: seq<seq<byte>>, stream: string)
    requires AllFit(chunks) && |stream| == 3
    ensures forall c | c in chunks :: 0 < |c| <= OUT_CHUNK && |OutFrame(stream, c)| <= MAX_FRAME
  {
    forall c | c in chunks
      ensures |OutFrame(stream, c)| <= MAX_FRAME
    {
      ChunksFit("0123456789abcdef", stream, c);
    }
  }

  lemma {:induction false} ConcatAppend(chunks: seq<seq<byte>>, c: seq<byte>)
    ensures Concat(chunks + [c]) == Concat(chunks) + c
  {
    if chunks != [] {
      assert (chunks + [c])[1..] == chunks[1..] + [c];
      ConcatAppend(chunks[1..], c);
    }
  }
}
