/** The client's end of one remote command: output frames in, two output streams and an exit code out (dial_unix.go). */
module CommandPump {
  import opened Common

  datatype Frame =
    | Out(isErr: bool, data: seq<byte>)
    | End(code: int, err: string)
    | Error(err: string)
    | Malformed
    | Unexpected

  datatype Result =
    | Exited(code: int)
    | Ended(code: int, err: string)   // the grant says the command did not finish
    | Refused(err: string)            // the grant says the command did not run
    | Garbled
    | WriteFailed
    | HungUp
    | Cancelled

  datatype Pumped = Pumped(out: seq<byte>, err: seq<byte>, result: Result)

  /**
   What the caller sees of a stream of frames that ends where the sequence ends;
   its writers take that many writes before one fails.
   */
  function Pump(frames: seq<Frame>, takes: nat, cancelled: bool): Pumped {
    if frames == [] then Pumped([], [], if cancelled then Cancelled else HungUp)
    else
      match frames[0]
      case Out(isErr, data) =>
        if takes == 0 then Pumped([], [], WriteFailed)
        else
          var rest := Pump(frames[1..], takes - 1, cancelled);
          if isErr then rest.(err := data + rest.err) else rest.(out := data + rest.out)
      case End(code, e) => Pumped([], [], if e == "" then Exited(code) else Ended(code, e))
      case Error(e) => Pumped([], [], Refused(e))
      case Malformed => Pumped([], [], Garbled)
      case Unexpected => Pumped([], [], Garbled)
  }

  method RunCommand(frames: seq<Frame>, takes: nat, cancelled: bool) returns (p: Pumped)
    ensures p == Pump(frames, takes, cancelled)
    ensures ComesTo(frames, takes, cancelled, p)
  {
    PumpIff(frames, takes, cancelled);
    hide ComesTo;
    var out, err, i: nat, left := [], [], 0, takes;
    while i < |frames|
      invariant i <= |frames|
      invariant Extended(out, err, Pump(frames[i..], left, cancelled)) == Pump(frames, takes, cancelled)
    {
      ghost var ahead := Pump(frames[i..], left, cancelled);
      assert frames[i..][0] == frames[i] && frames[i..][1..] == frames[i + 1..];
      match frames[i] {
        case Out(isErr, data) =>
          if left == 0 {
            return Pumped(out, err, WriteFailed);
          }
          left := left - 1;
          ExtendedTwice(out, err, isErr, data, Pump(frames[i + 1..], left, cancelled));
          if isErr {
            err := err + data;
          } else {
            out := out + data;
          }
        case End(code, e) =>
          return Pumped(out, err, if e == "" then Exited(code) else Ended(code, e));
        case Error(e) =>
          return Pumped(out, err, Refused(e));
        case Malformed =>
          return Pumped(out, err, Garbled);
        case Unexpected =>
          return Pumped(out, err, Garbled);
      }
      i := i + 1;
    }
    p := Pumped(out, err, if cancelled then Cancelled else HungUp);
  }

  function Extended(out: seq<byte>, err: seq<byte>, p: Pumped): Pumped {
    Pumped(out + p.out, err + p.err, p.result)
  }

  lemma ExtendedTwice(out: seq<byte>, err: seq<byte>, isErr: bool, data: seq<byte>, p: Pumped)
    ensures Extended(out, err, if isErr then p.(err := data + p.err) else p.(out := data + p.out))
         == Extended(if isErr then out else out + data, if isErr then err + data else err, p)
  {
    assert out + (data + p.out) == (out + data) + p.out;
    assert err + (data + p.err) == (err + data) + p.err;
  }

  // ---------------------------------------------------------------------------
  // What the frames said
  // ---------------------------------------------------------------------------

  /** Everything the frames carry for one of the two streams, in order. */
  function Carried(frames: seq<Frame>, isErr: bool): seq<byte> {
    if frames == [] then []
    else (if frames[0].Out? && frames[0].isErr == isErr then frames[0].data else []) + Carried(frames[1..], isErr)
  }

  predicate AllOut(frames: seq<Frame>) {
    forall f <- frames :: f.Out?
  }

  /** Output, however it is chunked and interleaved, followed by the end frame, arrives whole and in order. */
  lemma {:induction false} OutputArrives(outs: seq<Frame>, code: int, rest: seq<Frame>, takes: nat, cancelled: bool)
    requires AllOut(outs) && |outs| <= takes
    ensures Pump(outs + [End(code, "")] + rest, takes, cancelled)
         == Pumped(Carried(outs, false), Carried(outs, true), Exited(code))
    decreases |outs|
  {
    var all := outs + [End(code, "")] + rest;
    if outs != [] {
      assert all[0] == outs[0] && all[1..] == outs[1..] + [End(code, "")] + rest;
      OutputArrives(outs[1..], code, rest, takes - 1, cancelled);
    }
  }

  /**
   And only that way is an exit code reported: an error-free result means the end
   frame with that code was reached over nothing but output frames, and all of
   their bytes were written.
   */
  lemma {:induction false} ExitMeansComplete(frames: seq<Frame>, takes: nat, cancelled: bool) returns (n: nat)
    requires Pump(frames, takes, cancelled).result.Exited?
    ensures n < |frames| && n <= takes && AllOut(frames[..n])
    ensures frames[n] == End(Pump(frames, takes, cancelled).result.code, "")
    ensures Pump(frames, takes, cancelled).out == Carried(frames[..n], false)
    ensures Pump(frames, takes, cancelled).err == Carried(frames[..n], true)
    decreases |frames|
  {
    if frames[0].End? {
      n := 0;
    } else {
      var m := ExitMeansComplete(frames[1..], takes - 1, cancelled);
      n := m + 1;
      assert frames[..n][0] == frames[0] && frames[..n][1..] == frames[1..][..m];
    }
  }

  /** How many output frames come before the first other frame. */
  function Leading(frames: seq<Frame>): (n: nat)
    ensures n <= |frames| && AllOut(frames[..n])
    ensures n < |frames| ==> !frames[n].Out?
  {
    if frames == [] || !frames[0].Out? then 0
    else
      var n := Leading(frames[1..]) + 1;
      assert frames[..n] == [frames[0]] + frames[1..][..n - 1];
      n
  }

  /**
   The result, by the first frame that is no output, each exactly when it is due; and
   whatever it is, the bytes of the output frames before it have been written, up to
   the write that failed.
   */
  predicate ComesTo(frames: seq<Frame>, takes: nat, cancelled: bool, p: Pumped) {
    var n := Leading(frames);
    var last := if n < |frames| then Some(frames[n]) else None;
    var written := if takes < n then takes else n;
    && p.out == Carried(frames[..written], false) && p.err == Carried(frames[..written], true)
    && (p.result == WriteFailed <==> takes < n)
    && (p.result == HungUp <==> takes >= n && last == None && !cancelled)
    && (p.result == Cancelled <==> takes >= n && last == None && cancelled)
    && (p.result == Garbled <==> takes >= n && (last == Some(Malformed) || last == Some(Unexpected)))
    && (p.result.Refused? <==> takes >= n && last.Some? && last.value.Error?)
    && (p.result.Refused? ==> last == Some(Error(p.result.err)))
    && (p.result.Exited? <==> takes >= n && last.Some? && last.value.End? && last.value.err == "")
    && (p.result.Exited? ==> last.value.code == p.result.code)
    && (p.result.Ended? <==> takes >= n && last.Some? && last.value.End? && last.value.err != "")
    && (p.result.Ended? ==> last == Some(End(p.result.code, p.result.err)))
  }

  lemma CarriedMore(f: Frame, frames: seq<Frame>, isErr: bool)
    ensures Carried([f] + frames, isErr) == (if f.Out? && f.isErr == isErr then f.data else []) + Carried(frames, isErr)
  {
    assert ([f] + frames)[1..] == frames;
  }

  /** What every stream of frames comes to. */
  lemma {:induction false} PumpIff(frames: seq<Frame>, takes: nat, cancelled: bool)
    ensures ComesTo(frames, takes, cancelled, Pump(frames, takes, cancelled))
    decreases |frames|
  {
    if frames != [] && frames[0].Out? && takes > 0 {
      PumpIff(frames[1..], takes - 1, cancelled);
      var n := Leading(frames);
      var written := if takes < n then takes else n;
      assert frames[..written] == [frames[0]] + frames[1..][..written - 1];
      CarriedMore(frames[0], frames[1..][..written - 1], false);
      CarriedMore(frames[0], frames[1..][..written - 1], true);
    }
  }
}
