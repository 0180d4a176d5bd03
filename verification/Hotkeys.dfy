/**
 The keys watched while a terminal is attached: one byte ends the attachment, one
 toggles remote access, and everything else goes to the remote. Input arrives in
 reads of arbitrary sizes; what happens must not depend on where they are cut.
 */
module Hotkeys {
  import opened Common

  const DEFAULT_DETACH: byte := 0x1c

  /** What the caller asks for. A hotkey of zero, or no callback, disables the hotkey. */
  datatype Options = Options(detach: byte, remoteAccess: byte, hasCallback: bool)

  /** Defaults and the collision rule. */
  function Normalized(o: Options): Options {
    var o := if o.detach == 0 then o.(detach := DEFAULT_DETACH) else o;
    if o.remoteAccess == o.detach then o.(remoteAccess := 0) else o
  }

  /** The byte that ends an attachment with these options: the one asked for, or ctrl+\ if none was. */
  predicate Detaches(o: Options, b: byte) {
    if o.detach != 0 then b == o.detach else b == 0x1c
  }

  /** The byte that toggles remote access: the one asked for, if that can be answered and does not detach. */
  predicate Toggles(o: Options, b: byte) {
    b == o.remoteAccess && b != 0 && o.hasCallback && !Detaches(o, b)
  }

  predicate IsHotkey(o: Options, b: byte) {
    o.remoteAccess != 0 && o.hasCallback && b == o.remoteAccess
  }

  // ---------------------------------------------------------------------------
  // What an input means, as a whole
  // ---------------------------------------------------------------------------

  /** The input before the first detach byte. */
  function Typed(o: Options, input: seq<byte>): seq<byte> {
    if input == [] || input[0] == o.detach then [] else [input[0]] + Typed(o, input[1..])
  }

  /** The bytes of it that are the remote's. */
  function Kept(o: Options, input: seq<byte>): seq<byte> {
    if input == [] then []
    else (if IsHotkey(o, input[0]) then [] else [input[0]]) + Kept(o, input[1..])
  }

  function Presses(o: Options, input: seq<byte>): nat {
    if input == [] then 0 else (if IsHotkey(o, input[0]) then 1 else 0) + Presses(o, input[1..])
  }

  /** The bytes an input sends to the remote, and how often it fires the callback. */
  function Forwarded(o: Options, input: seq<byte>): seq<byte> { Kept(o, Typed(o, input)) }

  function Fires(o: Options, input: seq<byte>): nat { Presses(o, Typed(o, input)) }

  lemma {:induction false} TypedWithoutDetach(o: Options, input: seq<byte>)
    requires o.detach !in input
    ensures Typed(o, input) == input
  {
    if input != [] {
      TypedWithoutDetach(o, input[1..]);
    }
  }

  lemma {:induction false} TypedSplit(o: Options, a: seq<byte>, b: seq<byte>)
    ensures Typed(o, a + b) == if o.detach in a then Typed(o, a) else a + Typed(o, b)
  {
    if a == [] {
      assert a + b == b;
    } else {
      assert (a + b)[1..] == a[1..] + b;
      TypedSplit(o, a[1..], b);
    }
  }

  lemma {:induction false} KeptSplit(o: Options, a: seq<byte>, b: seq<byte>)
    ensures Kept(o, a + b) == Kept(o, a) + Kept(o, b)
    ensures Presses(o, a + b) == Presses(o, a) + Presses(o, b)
  {
    if a == [] {
      assert a + b == b;
    } else {
      assert (a + b)[1..] == a[1..] + b;
      KeptSplit(o, a[1..], b);
    }
  }

  lemma {:induction false} KeptPlain(o: Options, input: seq<byte>)
    requires forall b | b in input :: !IsHotkey(o, b)
    ensures Kept(o, input) == input && Presses(o, input) == 0
  {
    if input != [] {
      KeptPlain(o, input[1..]);
    }
  }

  lemma NothingWatched(o: Options, input: seq<byte>)
    requires o.detach !in input && forall b | b in input :: !IsHotkey(o, b)
    ensures Forwarded(o, input) == input && Fires(o, input) == 0
  {
    TypedWithoutDetach(o, input);
    KeptPlain(o, input);
  }

  /** What an input amounts to, split at its first watched byte. */
  lemma {:induction false} FirstWatched(o: Options, input: seq<byte>, i: nat)
    requires i < |input| && (input[i] == o.detach || IsHotkey(o, input[i]))
    requires o.detach !in input[..i] && forall b | b in input[..i] :: !IsHotkey(o, b)
    ensures input[i] == o.detach ==>
              Forwarded(o, input) == input[..i] && Fires(o, input) == 0 && o.detach in input
    ensures input[i] != o.detach ==>
              && Forwarded(o, input) == input[..i] + Forwarded(o, input[i + 1..])
              && Fires(o, input) == 1 + Fires(o, input[i + 1..])
              && (o.detach in input <==> o.detach in input[i + 1..])
  {
    if i == 0 {
      assert input[..0] == [];
    } else {
      var tail := input[1..];
      assert input[..i] == [input[0]] + tail[..i - 1];
      assert input[0] in input[..i];
      assert forall b | b in tail[..i - 1] :: b in input[..i];
      FirstWatched(o, tail, i - 1);
      assert tail[i..] == input[i + 1..];
      assert input == [input[0]] + tail;
    }
  }

  /** What an input amounts to, cut anywhere: what follows a detach byte does not matter. */
  lemma CutAnywhere(o: Options, piece: seq<byte>, rest: seq<byte>)
    ensures Forwarded(o, piece + rest) ==
              Forwarded(o, piece) + if o.detach in piece then [] else Forwarded(o, rest)
    ensures Fires(o, piece + rest) ==
              Fires(o, piece) + if o.detach in piece then 0 else Fires(o, rest)
  {
    TypedSplit(o, piece, rest);
    if o.detach in piece {
      assert Forwarded(o, piece) + [] == Forwarded(o, piece);
    } else {
      TypedWithoutDetach(o, piece);
      KeptSplit(o, piece, Typed(o, rest));
    }
  }

  /** Even if both keys are configured to the same byte, that byte detaches. */
  lemma CollisionStillDetaches(o: Options, before: seq<byte>, after: seq<byte>)
    requires o.remoteAccess == o.detach != 0 && o.detach !in before
    ensures Typed(Normalized(o), before + [o.detach] + after) == before
    ensures Kept(Normalized(o), before) == before && Presses(Normalized(o), before) == 0
  {
    var n := Normalized(o);
    assert before + [o.detach] + after == before + ([o.detach] + after);
    TypedSplit(n, before, [o.detach] + after);
    KeptPlain(n, before);
  }

  /** What was asked for is what is watched. */
  lemma WatchedAsAsked(o: Options, b: byte)
    ensures b == Normalized(o).detach <==> Detaches(o, b)
    ensures IsHotkey(Normalized(o), b) && b != Normalized(o).detach <==> Toggles(o, b)
    ensures IsHotkey(Normalized(o), b) ==> b != Normalized(o).detach
  {
  }

  /** These bytes without the toggling ones. */
  function Untoggled(o: Options, input: seq<byte>): seq<byte> {
    if input == [] then []
    else (if Toggles(o, input[0]) then [] else [input[0]]) + Untoggled(o, input[1..])
  }

  function Toggling(o: Options, input: seq<byte>): nat {
    if input == [] then 0 else (if Toggles(o, input[0]) then 1 else 0) + Toggling(o, input[1..])
  }

  /** In the terms of the options asked for: of an input, all but the toggling bytes reaches the remote, until it detaches. */
  lemma {:induction false} InputAsAsked(o: Options, input: seq<byte>, rest: seq<byte>)
    requires forall b | b in input :: !Detaches(o, b)
    requires rest == [] || Detaches(o, rest[0])
    ensures Forwarded(Normalized(o), input + rest) == Untoggled(o, input)
    ensures Fires(Normalized(o), input + rest) == Toggling(o, input)
  {
    if input == [] {
      assert input + rest == rest;
      if rest != [] {
        WatchedAsAsked(o, rest[0]);
      }
    } else {
      assert (input + rest)[0] == input[0] && (input + rest)[1..] == input[1..] + rest;
      WatchedAsAsked(o, input[0]);
      assert input[0] in input;
      InputAsAsked(o, input[1..], rest);
    }
  }

  // ---------------------------------------------------------------------------
  // The implementation
  // ---------------------------------------------------------------------------

  /** bytes.IndexByte */
  function IndexByte(s: seq<byte>, b: byte): (i: int)
    ensures -1 <= i < |s|
    ensures i >= 0 ==> s[i] == b && b !in s[..i]
    ensures i < 0 <==> b !in s
  {
    if s == [] then -1
    else if s[0] == b then 0
    else
      var i := IndexByte(s[1..], b);
      assert s == [s[0]] + s[1..];
      if i < 0 then -1
      else
        assert s[..i + 1] == [s[0]] + s[1..][..i];
        i + 1
  }

  // Taking an input piece by piece

  /** A run without a watched byte, behind what was taken already. */
  lemma TakeRun(o: Options, input: seq<byte>, i: nat, m: nat)
    requires i <= m <= |input| && o.detach !in input[..i]
    requires o.detach !in input[i..m] && forall b | b in input[i..m] :: !IsHotkey(o, b)
    ensures o.detach !in input[..m]
    ensures Forwarded(o, input[..m]) == Forwarded(o, input[..i]) + input[i..m] && Fires(o, input[..m]) == Fires(o, input[..i])
  {
    assert input[..m] == input[..i] + input[i..m];
    CutAnywhere(o, input[..i], input[i..m]);
    NothingWatched(o, input[i..m]);
  }

  lemma TakeHotkey(o: Options, input: seq<byte>, m: nat)
    requires m < |input| && o.detach !in input[..m] && IsHotkey(o, input[m]) && input[m] != o.detach
    ensures o.detach !in input[..m + 1]
    ensures Forwarded(o, input[..m + 1]) == Forwarded(o, input[..m]) && Fires(o, input[..m + 1]) == Fires(o, input[..m]) + 1
  {
    assert input[..m + 1] == input[..m] + [input[m]];
    CutAnywhere(o, input[..m], [input[m]]);
    FirstWatched(o, [input[m]], 0);
  }

  lemma TakeDetach(o: Options, input: seq<byte>, m: nat)
    requires m < |input| && o.detach !in input[..m] && input[m] == o.detach
    ensures Forwarded(o, input) == Forwarded(o, input[..m]) && Fires(o, input) == Fires(o, input[..m])
  {
    assert input == input[..m] + input[m..];
    CutAnywhere(o, input[..m], input[m..]);
    FirstWatched(o, input[m..], 0);
  }

  /**
   A write failed on the run input[i..m]: all before it was handled, and the
   remote was given some part of the run.
   */
  predicate FailedAt(o: Options, input: seq<byte>, i: nat, m: nat, out: seq<byte>, presses: nat) {
    && i < m <= |input| && o.detach !in input[..m] && (forall b | b in input[i..m] :: !IsHotkey(o, b))
    && Forwarded(o, input[..i]) <= out <= Forwarded(o, input[..i]) + input[i..m] && presses == Fires(o, input[..i])
  }

  /** Some write failed; the hotkeys before that run have fired and none behind it. */
  ghost predicate Failed(o: Options, input: seq<byte>, out: seq<byte>, presses: nat) {
    exists i: nat, m: nat :: FailedAt(o, input, i, m, out, presses)
  }

  lemma FailsAtRun(o: Options, input: seq<byte>, i: nat, m: nat, before: seq<byte>, now: seq<byte>)
    requires i < m <= |input| && o.detach !in input[..m] && forall b | b in input[i..m] :: !IsHotkey(o, b)
    requires before + Forwarded(o, input[..i]) <= now <= before + Forwarded(o, input[..i]) + input[i..m]
    ensures before <= now && Failed(o, input, now[|before|..], Fires(o, input[..i]))
  {
    var out := now[|before|..];
    assert now == before + out;
    assert FailedAt(o, input, i, m, out, Fires(o, input[..i]));
  }

  /** What the remote was given is then a prefix of what it was due. */
  lemma FailedIsPrefix(o: Options, input: seq<byte>, out: seq<byte>, presses: nat)
    requires Failed(o, input, out, presses)
    ensures out <= Forwarded(o, input) && presses <= Fires(o, input)
  {
    var i: nat, m: nat :| FailedAt(o, input, i, m, out, presses);
    var part, rest := input[..m], input[m..];
    assert forall b | b in input[..i] :: b in part;
    assert forall b | b in input[i..m] :: b in part;
    TakeRun(o, input, i, m);
    assert input == part + rest;
    CutAnywhere(o, part, rest);
  }

  lemma FailedInside(o: Options, before: seq<byte>, chunk: seq<byte>, after: seq<byte>, out: seq<byte>, presses: nat)
    requires o.detach !in before && Failed(o, chunk, out, presses)
    ensures Failed(o, before + chunk + after, Forwarded(o, before) + out, Fires(o, before) + presses)
  {
    var i: nat, m: nat :| FailedAt(o, chunk, i, m, out, presses);
    var input, n := before + chunk + after, |before|;
    assert input[..n + i] == before + chunk[..i] && input[..n + m] == before + chunk[..m];
    assert input[n + i..n + m] == chunk[i..m];
    CutAnywhere(o, before, chunk[..i]);
    assert (Forwarded(o, before) + Forwarded(o, chunk[..i])) + chunk[i..m] ==
           Forwarded(o, before) + (Forwarded(o, chunk[..i]) + chunk[i..m]);
    assert FailedAt(o, input, n + i, n + m, Forwarded(o, before) + out, Fires(o, before) + presses);
  }

  /** The same, in terms of what the remote has been given altogether. */
  lemma BrokeInside(o: Options, before: seq<byte>, chunk: seq<byte>, after: seq<byte>, base: seq<byte>, given: seq<byte>,
                    sent: seq<byte>, presses: nat)
    requires o.detach !in before && given == base + Forwarded(o, before) && given <= sent
    requires Failed(o, chunk, sent[|given|..], presses)
    ensures base <= sent && Failed(o, before + chunk + after, sent[|base|..], Fires(o, before) + presses)
  {
    hide Forwarded, Fires, Failed;
    FailedInside(o, before, chunk, after, sent[|given|..], presses);
    assert sent[|base|..] == Forwarded(o, before) + sent[|given|..];
  }

  lemma Nothing(a: seq<byte>)
    ensures a + [] == a
  {
  }

  lemma OneRun(a: seq<byte>, b: seq<byte>, c: seq<byte>)
    ensures (a + b) + c == a + (b + c)
  {
  }

  lemma NoneYet(o: Options, pieces: seq<seq<byte>>)
    ensures Concat(pieces[..0]) == [] && Forwarded(o, []) == [] && Fires(o, []) == 0 && pieces[..|pieces|] == pieces
  {
  }

  lemma {:induction false} ConcatSplit(pieces: seq<seq<byte>>, n: nat)
    requires n < |pieces|
    ensures Concat(pieces[..n + 1]) == Concat(pieces[..n]) + pieces[n]
    ensures Concat(pieces) == Concat(pieces[..n]) + pieces[n] + Concat(pieces[n + 1..])
  {
    if n == 0 {
      assert pieces[..1] == [pieces[0]];
    } else {
      var rest := pieces[1..];
      assert pieces[..n + 1][1..] == rest[..n] && pieces[..n][1..] == rest[..n - 1] && rest[n..] == pieces[n + 1..];
      ConcatSplit(rest, n - 1);
    }
  }

  class Attachment {
    const opts: Options
    var sent: seq<byte>     // what the remote has been given
    var fired: nat          // how often the callback ran
    var broken: bool        // a write to the remote failed

    constructor (o: Options)
      ensures opts == Normalized(o) && sent == [] && fired == 0 && !broken
      ensures forall b: byte :: b == opts.detach <==> Detaches(o, b)
      ensures forall b: byte :: IsHotkey(opts, b) <==> Toggles(o, b)
    {
      opts := Normalized(o);
      sent, fired, broken := [], 0, false;
    }

    /** Writes to the remote; a failure is remembered, and can come in the middle. */
    method Write(p: seq<byte>) returns (ok: bool)
      modifies this`sent, this`broken
      ensures ok ==> sent == old(sent) + p && broken == old(broken)
      ensures !ok ==> old(sent) <= sent <= old(sent) + p && broken
    {
      ok := *;
      if ok {
        sent := sent + p;
      } else {
        var n: int := *;
        sent, broken := sent + (if 0 <= n <= |p| then p[..n] else []), true;
      }
    }

    /** The first watched byte, and whether it is the detach byte; on a tie it is. */
    function Scan(chunk: seq<byte>): (r: (int, bool))
      ensures -1 <= r.0 < |chunk|
      ensures r.0 < 0 ==> opts.detach !in chunk && forall b | b in chunk :: !IsHotkey(opts, b)
      ensures r.0 >= 0 ==>
                && (if r.1 then chunk[r.0] == opts.detach else IsHotkey(opts, chunk[r.0]) && chunk[r.0] != opts.detach)
                && opts.detach !in chunk[..r.0] && forall b | b in chunk[..r.0] :: !IsHotkey(opts, b)
    {
      var d := IndexByte(chunk, opts.detach);
      if opts.remoteAccess == 0 || !opts.hasCallback then (d, true)
      else
        var h := IndexByte(chunk, opts.remoteAccess);
        if h < 0 || (d >= 0 && d <= h) then
          assert d >= 0 && h >= 0 ==> forall i | 0 <= i < d :: chunk[i] in chunk[..h];
          (d, true)
        else
          assert d >= 0 ==> forall i | 0 <= i < h :: chunk[i] in chunk[..d];
          (h, false)
    }

    /** What it was given of an input so far, if no write failed. */
    twostate predicate Took(input: seq<byte>)
      reads this
    {
      !broken && sent == old(sent) + Forwarded(opts, input) && fired == old(fired) + Fires(opts, input)
    }

    /** It broke while taking this input. */
    twostate predicate BrokeIn(input: seq<byte>)
      reads this
    {
      && broken && old(sent) <= sent && old(fired) <= fired
      && Failed(opts, input, sent[|old(sent)|..], fired - old(fired))
    }

    /** Writes the run chunk[i..m] behind what the remote was given of the chunk. */
    method WriteRun(run: seq<byte>, ghost chunk: seq<byte>, ghost i: nat, ghost m: nat, ghost base: seq<byte>)
      returns (ok: bool)
      requires !broken && i < m <= |chunk| && run == chunk[i..m] && sent == base + Forwarded(opts, chunk[..i])
      requires opts.detach !in chunk[..i] && opts.detach !in run && forall b | b in run :: !IsHotkey(opts, b)
      modifies this`sent, this`broken
      ensures ok == !broken && opts.detach !in chunk[..m]
      ensures ok ==> sent == base + Forwarded(opts, chunk[..m]) && Fires(opts, chunk[..m]) == Fires(opts, chunk[..i])
      ensures !ok ==> base <= sent && Failed(opts, chunk, sent[|base|..], Fires(opts, chunk[..i]))
    {
      TakeRun(opts, chunk, i, m);
      ok := Write(run);
      if !ok {
        FailsAtRun(opts, chunk, i, m, base, sent);
      }
    }

    /** Consumes one read; reports whether the attachment goes on. */
    method Dispatch(chunk: seq<byte>) returns (goesOn: bool)
      requires !broken
      modifies this`sent, this`fired, this`broken
      ensures if broken then !goesOn && BrokeIn(chunk) else Took(chunk) && (goesOn <==> opts.detach !in chunk)
    {
      hide Forwarded, Fires, Failed;
      var rest := chunk;
      ghost var pos := 0;
      assert chunk[..0] == [];
      NothingWatched(opts, []);
      while |rest| > 0
        invariant pos <= |chunk| && rest == chunk[pos..] && opts.detach !in chunk[..pos]
        invariant Took(chunk[..pos])
        decreases |rest|
      {
        var (i, isDetach) := Scan(rest);
        ghost var m := pos + if i < 0 then |rest| else i;
        assert chunk[pos..m] == if i < 0 then rest else rest[..i];
        if i != 0 {
          goesOn := WriteRun(if i < 0 then rest else rest[..i], chunk, pos, m, old(sent));
          if !goesOn {
            return;
          }
        }
        if i < 0 {
          assert chunk[..m] == chunk;
          return;
        }
        if isDetach {
          TakeDetach(opts, chunk, m);
          return false;
        }
        assert Took(chunk[..m]);
        TakeHotkey(opts, chunk, m);
        fired := fired + 1;
        rest, pos := rest[i + 1..], m + 1;
      }
      assert chunk[..pos] == chunk;
      goesOn := true;
    }

    /**
     Copies reads until the detach byte, the end of input or a broken remote. What
     is forwarded and how often the callback fires depend on the input as a whole,
     not on how it was cut into reads; on a broken remote, so does what was left out.
     */
    method Forward(pieces: seq<seq<byte>>)
      requires !broken
      modifies this`sent, this`fired, this`broken
      ensures if broken then BrokeIn(Concat(pieces)) else Took(Concat(pieces))
    {
      hide Forwarded, Fires, Failed, Concat;
      NoneYet(opts, pieces);
      for n := 0 to |pieces|
        invariant opts.detach !in Concat(pieces[..n]) && Took(Concat(pieces[..n]))
      {
        ghost var before, after := Concat(pieces[..n]), Concat(pieces[n + 1..]);
        var chunk := pieces[n];
        ConcatSplit(pieces, n);
        CutAnywhere(opts, before, chunk);
        CutAnywhere(opts, before + chunk, after);
        Nothing(Forwarded(opts, before + chunk));
        if |chunk| > 0 {
          ghost var given, pressed := sent, fired;
          var goesOn := Dispatch(chunk);
          if !goesOn {
            if broken {
              BrokeInside(opts, before, chunk, after, old(sent), given, sent, fired - pressed);
            } else {
              OneRun(old(sent), Forwarded(opts, before), Forwarded(opts, chunk));
            }
            return;
          }
          OneRun(old(sent), Forwarded(opts, before), Forwarded(opts, chunk));
        } else {
          assert before + chunk == before;
        }
      }
    }
  }
}
