/**
 The scrollback ring of a session and the tee in front of it: a fixed-size circular
 buffer that must hold the last bytes of all output, and an exact handover from
 replaying it to streaming live.
 */
module Scrollback {
  import opened Common

  /** The last n bytes of a history, or all of it. */
  function LastN(history: seq<byte>, n: nat): (r: seq<byte>)
    ensures |r| == if |history| < n then |history| else n
  {
    if |history| <= n then history else history[|history| - n..]
  }

  /** Remembering the last n of the last n remembers the last n. */
  lemma LastNOfLastN(history: seq<byte>, p: seq<byte>, n: nat)
    ensures LastN(history + p, n) == LastN(LastN(history, n) + p, n)
  {
  }

  lemma LastNLarge(history: seq<byte>, p: seq<byte>, n: nat)
    requires n <= |p|
    ensures LastN(history + p, n) == p[|p| - n..]
  {
  }

  /** The physical position of the k-th byte after start, when x is start + k. */
  function Wrap(x: nat, cap: nat): (r: nat)
    requires x < 3 * cap
    ensures r < cap
  {
    if x < cap then x else if x < 2 * cap then x - cap else x - 2 * cap
  }

  /** What a circular buffer holds, in write order. */
  function Unrolled(data: seq<byte>, start: nat, len: nat): (r: seq<byte>)
    requires len <= |data| && (len > 0 ==> start < |data|)
    ensures |r| == len && forall i | 0 <= i < len :: r[i] == data[Wrap(start + i, |data|)]
  {
    seq(len, i requires 0 <= i < len => data[Wrap(start + i, |data|)])
  }

  lemma UnrolledWhole(data: seq<byte>)
    ensures Unrolled(data, 0, |data|) == data
  {
  }

  /** Two segments laid end to end are what the buffer holds. */
  lemma UnrolledSegments(data: seq<byte>, start: nat, len: nat, first: nat, out: seq<byte>)
    requires len <= |data| && (len > 0 ==> start < |data|) && start <= |data| && |out| == len
    requires first == if |data| - start >= len then len else |data| - start
    requires forall j | 0 <= j < first :: out[j] == data[start + j]
    requires forall j | first <= j < len :: out[j] == data[j - first]
    ensures out == Unrolled(data, start, len)
  {
  }

  class Ring {
    const data: array<byte>
    var start: nat   // index of the oldest valid byte
    var len: nat     // number of valid bytes

    /** Everything ever written. */
    ghost var history: seq<byte>

    ghost predicate Shaped()
      reads this, data
    {
      len <= data.Length && start <= data.Length && (start == data.Length ==> data.Length == 0)
    }

    ghost predicate Valid()
      reads this, data
    {
      Shaped() && Unrolled(data[..], start, len) == LastN(history, data.Length)
    }

    constructor (n: nat)
      ensures Valid() && fresh(data) && data.Length == n && history == []
    {
      data := new byte[n](_ => 0);
      start, len := 0, 0;
      history := [];
    }

    /** The built-in copy: as much of src as fits into data from at on. */
    method Copy(at: nat, src: seq<byte>) returns (n: nat)
      requires at <= data.Length
      modifies data
      ensures n == if |src| < data.Length - at then |src| else data.Length - at
      ensures data[..] == old(data[..at]) + src[..n] + old(data[at + n..])
    {
      n := if |src| < data.Length - at then |src| else data.Length - at;
      for i := 0 to n
        invariant data[..] == old(data[..at]) + src[..i] + old(data[at + i..])
      {
        data[at + i] := src[i];
      }
    }

    /** From the last bytes of the history to the last bytes of the history and p. */
    method Write(p: seq<byte>)
      requires Valid()
      modifies this, data
      ensures Valid() && history == old(history) + p
    {
      if |p| == 0 {
        assert history + p == history;
      } else if |p| >= data.Length {
        // More than fits: all that counts is what would have been left of it.
        var _ := Copy(0, p[|p| - data.Length..]);
        start := 0;
        len := data.Length;
        LastNLarge(history, p, data.Length);
        assert data[..] == p[|p| - data.Length..];
        UnrolledWhole(data[..]);
      } else {
        WriteAround(p);
      }
      history := history + p;
    }

    /** The ordinary case: at most two segments, around the physical end. */
    method WriteAround(p: seq<byte>)
      requires Valid() && 0 < |p| < data.Length
      modifies this, data
      ensures history == old(history)
      ensures Shaped() && Unrolled(data[..], start, len) == LastN(history + p, data.Length)
    {
      ghost var before := data[..];
      WritePosition(start, len, data.Length);
      Overwrite((start + len) % data.Length, p);
      Advanced(before, start, len, p, data[..], history);
      var newLen := len + |p|;
      if newLen > data.Length {
        // Overwrote the oldest bytes: advance past them.
        start := (start + (newLen - data.Length)) % data.Length;
        len := data.Length;
      } else {
        len := newLen;
      }
    }

    method Overwrite(pos: nat, p: seq<byte>)
      requires pos < data.Length && 0 < |p| < data.Length
      modifies data
      ensures Overlay(old(data[..]), pos, p, data[..])
    {
      var n1 := Copy(pos, p);
      if n1 < |p| {
        var _ := Copy(0, p[n1..]);
      }
      Overlaid(old(data[..]), pos, p, n1, data[..]);
    }

    /** An array of its own with what the ring holds, oldest byte first. */
    method Snapshot() returns (out: array<byte>)
      requires Valid()
      ensures fresh(out) && out[..] == LastN(history, data.Length)
    {
      out := new byte[len](_ => 0);
      var tail := data.Length - start;
      var first := if tail >= len then len else tail;
      for i := 0 to first
        invariant forall j | 0 <= j < i :: out[j] == data[start + j]
      {
        out[i] := data[start + i];
      }
      for i := 0 to len - first
        invariant forall j | 0 <= j < first :: out[j] == data[start + j]
        invariant forall j | first <= j < first + i :: out[j] == data[j - first]
      {
        out[first + i] := data[i];
      }
      UnrolledSegments(data[..], start, len, first, out[..]);
    }
  }

  /** Where the modulus puts the write position. */
  lemma WritePosition(start: nat, len: nat, cap: nat)
    requires start < cap && len <= cap
    ensures (start + len) % cap == Wrap(start + len, cap)
  {
    if start + len >= cap {
      assert (start + len) % cap == (start + len - cap) % cap;
    }
  }

  /** Position i of the buffer once p was laid over it from pos on, around the end. */
  predicate Overlay(before: seq<byte>, pos: nat, p: seq<byte>, after: seq<byte>) {
    && |after| == |before| && pos < |before| && |p| < |before|
    && (forall i | 0 <= i < |p| :: after[if pos + i < |before| then pos + i else pos + i - |before|] == p[i])
    && (forall j | 0 <= j < |before| && !(pos <= j < pos + |p|) && !(j + |before| < pos + |p|) :: after[j] == before[j])
  }

  lemma Overlaid(before: seq<byte>, pos: nat, p: seq<byte>, n1: nat, after: seq<byte>)
    requires pos < |before| && 0 < |p| < |before|
    requires n1 == if |p| < |before| - pos then |p| else |before| - pos
    requires var mid := before[..pos] + p[..n1] + before[pos + n1..];
             after == if n1 < |p| then p[n1..] + mid[|p| - n1..] else mid
    ensures Overlay(before, pos, p, after)
  {
  }

  /** A byte that the write does not push out is where it was. */
  lemma KeptAt(before: seq<byte>, start: nat, len: nat, p: seq<byte>, after: seq<byte>, k: nat)
    requires start < |before| && len <= |before| && Overlay(before, Wrap(start + len, |before|), p, after)
    requires k < len && len + |p| <= k + |before|
    ensures after[Wrap(start + k, |before|)] == before[Wrap(start + k, |before|)]
  {
  }

  /** A byte of p is where the bytes after the old contents go. */
  lemma PlacedAt(before: seq<byte>, start: nat, len: nat, p: seq<byte>, after: seq<byte>, k: nat)
    requires start < |before| && len <= |before| && Overlay(before, Wrap(start + len, |before|), p, after)
    requires len <= k < len + |p|
    ensures after[Wrap(start + k, |before|)] == p[k - len]
  {
    var pos := Wrap(start + len, |before|);
    var i := k - len;
    assert Wrap(start + k, |before|) == if pos + i < |before| then pos + i else pos + i - |before|;
  }

  lemma LastNAt(history: seq<byte>, n: nat, drop: nat, i: nat)
    requires drop == (if |history| <= n then 0 else |history| - n) && drop + i < |history|
    ensures LastN(history, n)[i] == history[drop + i]
  {
  }

  lemma WrapTwice(start: nat, drop: nat, i: nat, cap: nat)
    requires start < cap && drop <= cap && i < cap && drop + i < 2 * cap
    ensures Wrap(Wrap(start + drop, cap) + i, cap) == Wrap(start + drop + i, cap)
  {
  }

  lemma AppendedAt(before: seq<byte>, start: nat, len: nat, p: seq<byte>, after: seq<byte>, drop: nat, i: nat)
    requires start < |before| == |after| && len <= |before| && |p| < |before|
    requires drop == (if len + |p| > |before| then len + |p| - |before| else 0) && drop + i < len + |p|
    requires var at := Wrap(start + drop + i, |before|);
             after[at] == if drop + i < len then before[at] else p[drop + i - len]
    ensures Unrolled(after, Wrap(start + drop, |before|), len + |p| - drop)[i] == (Unrolled(before, start, len) + p)[drop + i]
  {
    WrapTwice(start, drop, i, |before|);
  }

  /** After such a write the buffer, read from its new start, holds the last bytes of old contents and p. */
  lemma Appended(before: seq<byte>, start: nat, len: nat, p: seq<byte>, after: seq<byte>, drop: nat)
    requires start < |before| && len <= |before| && Overlay(before, Wrap(start + len, |before|), p, after)
    requires drop == if len + |p| > |before| then len + |p| - |before| else 0
    ensures Unrolled(after, Wrap(start + drop, |before|), len + |p| - drop) ==
              LastN(Unrolled(before, start, len) + p, |before|)
  {
    var have := Unrolled(after, Wrap(start + drop, |before|), len + |p| - drop);
    var all := Unrolled(before, start, len) + p;
    forall i | 0 <= i < |have|
      ensures have[i] == LastN(all, |before|)[i]
    {
      if drop + i < len {
        KeptAt(before, start, len, p, after, drop + i);
      } else {
        PlacedAt(before, start, len, p, after, drop + i);
      }
      AppendedAt(before, start, len, p, after, drop, i);
      LastNAt(all, |before|, drop, i);
    }
  }

  /** The new start and length, as the code computes them. */
  lemma Advanced(before: seq<byte>, start: nat, len: nat, p: seq<byte>, after: seq<byte>, history: seq<byte>)
    requires start < |before| && len <= |before| && Overlay(before, Wrap(start + len, |before|), p, after)
    requires Unrolled(before, start, len) == LastN(history, |before|)
    ensures var cap := |before|;
            var newLen := len + |p|;
            var start' := if newLen > cap then (start + (newLen - cap)) % cap else start;
            start' < cap &&
            Unrolled(after, start', if newLen > cap then cap else newLen) == LastN(history + p, cap)
  {
    var drop := if len + |p| > |before| then len + |p| - |before| else 0;
    Appended(before, start, len, p, after, drop);
    WritePosition(start, drop, |before|);
    LastNOfLastN(history, p, |before|);
  }
}
