/**
 The tee in front of the scrollback ring: all output goes into the ring, and while
 a terminal is attached to it as well. Going live replays the ring and installs the
 terminal in one critical section, so that its stretch of the output has no gap and
 no repetition.
 */
module Handover {
  import opened Common
  import opened Scrollback

  /** Something that can be attached. A write to it may fail half way. */
  class Terminal {
    var received: seq<byte>

    // the current or last period of being attached
    ghost var mark: nat        // what it had received when the period began
    ghost var from: nat        // where in the output history its stretch begins
    ghost var attachedAt: nat  // how long the history was when it attached

    constructor ()
      ensures received == [] && mark == 0 && from == 0 && attachedAt == 0
    {
      received := [];
      mark, from, attachedAt := 0, 0, 0;
    }

    method Write(p: seq<byte>) returns (ok: bool)
      modifies this`received
      ensures ok ==> received == old(received) + p
      ensures old(received) <= received <= old(received) + p
    {
      var n: int := *;
      if n < 0 || n >= |p| {
        received := received + p;
        ok := true;
      } else {
        received := received + p[..n];
        ok := false;
      }
    }

    /** How much of the history it has been given in this period. */
    ghost function Upto(): int
      reads this
    {
      from + |received| - mark
    }

    /** What it has received in this period is one contiguous stretch of the history. */
    ghost predicate HasStretch(history: seq<byte>, cap: nat)
      reads this
    {
      && mark <= |received| && from <= attachedAt <= from + cap && Upto() <= |history|
      && received[mark..] == history[from..Upto()]
    }
  }

  class Tee {
    const ring: Ring
    var live: Terminal?

    /** Every terminal that was ever attached, or tried to. */
    ghost var terminals: set<Terminal>

    ghost predicate Valid()
      reads this, ring, ring.data, terminals
    {
      && ring.Valid()
      && (forall t | t in terminals :: t.HasStretch(ring.history, ring.data.Length))
      && (live != null ==> live in terminals && live.Upto() == |ring.history|)
    }

    constructor (ring: Ring)
      requires ring.Valid()
      ensures Valid() && this.ring == ring && live == null && terminals == {}
    {
      this.ring := ring;
      live := null;
      terminals := {};
    }

    /** Records output, and mirrors it to the live terminal; a broken one is dropped. */
    method Write(p: seq<byte>)
      requires Valid()
      modifies this`live, ring, ring.data, terminals
      ensures Valid() && ring.history == old(ring.history) + p
      ensures live == old(live) || live == null
      ensures forall t | t in terminals && t != old(live) :: unchanged(t)
      ensures forall t | t in terminals :: t.mark == old(t.mark) && t.from == old(t.from) && t.attachedAt == old(t.attachedAt)
      ensures live != null ==> live.received == old(live.received) + p
    {
      ring.Write(p);
      forall t | t in terminals
        ensures t.HasStretch(ring.history, ring.data.Length)
      {
        StretchStays(old(ring.history), p, t.from, t.Upto());
      }
      if live != null {
        var ok := live.Write(p);
        StretchGrows(old(ring.history), p, old(live.received), live.received, live.mark, live.from);
        if !ok {
          live := null;
        }
      }
    }

    /**
     Shows w what was kept of the past and, if that got through, makes it live; if
     not, whoever was live stays. Every terminal's stretch is then intact unless w was
     live already and its second replay stopped short.
     */
    method GoLive(w: Terminal) returns (ok: bool)
      requires Valid()
      modifies this, w
      ensures Valid() <==>
                ok || w != old(live) || w.received == old(w.received) + LastN(ring.history, ring.data.Length)
      ensures ring.Valid() && ring.history == old(ring.history) && terminals == old(terminals) + {w}
      ensures live == if ok then w else old(live)
      ensures w.mark == |old(w.received)| && w.attachedAt == |ring.history|
      ensures w.from == |ring.history| - |LastN(ring.history, ring.data.Length)|
      ensures ok ==> w.received == old(w.received) + LastN(ring.history, ring.data.Length)
    {
      var snap := ring.Snapshot();
      ok := Replay(w, snap[..]);
      terminals := terminals + {w};
      if ok {
        live := w;
      }
      forall t | t in terminals
        ensures t.HasStretch(ring.history, ring.data.Length)
      {
        assert t != w ==> t in old(terminals) && old(t.HasStretch(ring.history, ring.data.Length));
      }
    }

    /** Begins a period for w with the replay of these last bytes of the history. */
    method Replay(w: Terminal, snap: seq<byte>) returns (ok: bool)
      requires ring.Valid() && snap == LastN(ring.history, ring.data.Length)
      modifies w
      ensures w.mark == |old(w.received)| && w.attachedAt == |ring.history| && w.from == |ring.history| - |snap|
      ensures w.HasStretch(ring.history, ring.data.Length)
      ensures ok ==> w.received == old(w.received) + snap
      ensures w.Upto() == |ring.history| <==> w.received == old(w.received) + snap
    {
      w.mark, w.attachedAt, w.from := |w.received|, |ring.history|, |ring.history| - |snap|;
      ok := w.Write(snap);
      assert w.received == old(w.received) + snap[..|w.received| - |old(w.received)|];
      ReplayIsStretch(ring.history, ring.data.Length, old(w.received), w.received);
    }

    /** Detaches w, and nobody else. */
    method UnsetLive(w: Terminal)
      requires Valid()
      modifies this`live
      ensures Valid()
      ensures live == if old(live) == w then null else old(live)
    {
      if live == w {
        live := null;
      }
    }
  }

  lemma ReplayIsStretch(history: seq<byte>, cap: nat, was: seq<byte>, now: seq<byte>)
    requires was <= now <= was + LastN(history, cap)
    ensures var from := |history| - |LastN(history, cap)|;
            |history| - from <= cap && from + |now| - |was| <= |history| &&
            now[|was|..] == history[from..from + |now| - |was|]
  {
    var from := |history| - |LastN(history, cap)|;
    StretchGrows(history[..from], LastN(history, cap), was, now, |was|, from);
    assert history[..from] + LastN(history, cap) == history;
  }

  lemma StretchStays(history: seq<byte>, p: seq<byte>, from: nat, upto: int)
    requires from <= upto <= |history|
    ensures (history + p)[from..upto] == history[from..upto]
  {
  }

  /** Receiving a prefix of what the history grows by continues the stretch. */
  lemma StretchGrows(history: seq<byte>, p: seq<byte>, was: seq<byte>, now: seq<byte>, mark: nat, from: nat)
    requires mark <= |was| && from + |was| - mark == |history|
    requires was[mark..] == history[from..]
    requires was <= now <= was + p
    ensures now[mark..] == (history + p)[from..from + |now| - mark]
  {
    assert now == was + p[..|now| - |was|];
    assert (history + p)[from..from + |now| - mark] == history[from..] + p[..|now| - |was|];
  }
}
