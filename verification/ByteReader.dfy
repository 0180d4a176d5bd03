/** The byte cursor under the Termius decoders: single bytes, base-128 varints, runs of bytes. */
module ByteReader {
  import opened Common

  /** What the run time stops a program for. */
  datatype Cause = IndexOutOfRange | CapOutOfRange | SliceOutOfRange

  /**
   Why nothing was read: an error that is returned; a panic, which no caller here
   recovers from; or a call that never comes back, and runs out of stack.
   */
  datatype DecodeError =
    | EndOfValue
    | VarintOverflow
    | ValueTruncated
    | BadReference
    | BadTag
    | Panic(cause: Cause)
    | Endless

  /** What was read, and where the cursor is afterwards. */
  datatype Read<+T> = Got(value: T, next: nat) | Failed(error: DecodeError)

  const TWO_TO_63: nat := 0x8000_0000_0000_0000
  const TWO_TO_64: nat := 0x1_0000_0000_0000_0000

  /** No slice is longer than an int can say. */
  predicate IsSlice(b: seq<byte>) {
    |b| < TWO_TO_63
  }

  function ReadByte(b: seq<byte>, i: nat): Read<byte> {
    if i < |b| then Got(b[i], i + 1) else Failed(EndOfValue)
  }

  /** n << shift, before any bit is discarded. */
  function Shifted(n: nat, shift: nat): nat {
    if shift == 0 then n else 2 * Shifted(n, shift - 1)
  }

  /** The rest of a varint, given the digits so far; 64-bit arithmetic discards what overflows. */
  function ReadDigits(b: seq<byte>, i: nat, x: nat, shift: nat): (r: Read<nat>)
    ensures r.Got? ==> i < r.next <= |b| && r.value < TWO_TO_64
    ensures r.Failed? ==> !r.error.Panic? && !r.error.Endless?
    decreases |b| - i
  {
    if i >= |b| then Failed(EndOfValue)
    else
      var x' := (x + Shifted(b[i] as nat % 128, shift)) % TWO_TO_64;
      if b[i] < 128 then Got(x', i + 1)
      else if shift + 7 > 63 then Failed(VarintOverflow)
      else ReadDigits(b, i + 1, x', shift + 7)
  }

  function ReadVarint(b: seq<byte>, i: nat): (r: Read<nat>)
    ensures r.Got? ==> i < r.next <= |b| && r.value < TWO_TO_64
    ensures r.Failed? ==> !r.error.Panic? && !r.error.Endless?
  {
    ReadDigits(b, i, 0, 0)
  }

  /** The signed reading of a varint. */
  function Unzigzag(u: nat): int {
    if u % 2 == 0 then u / 2 else -(u / 2) - 1
  }

  function Zigzag(z: int): (u: nat) {
    if z >= 0 then 2 * z else -2 * z - 1
  }

  lemma ZigzagInverse(z: int)
    ensures Unzigzag(Zigzag(z)) == z
  {
  }

  /** A number below 2^64 as the signed 64-bit integer of the same bits: int(u), and what a sum of two ints wraps to. */
  function ToInt64(u: nat): int {
    if u < TWO_TO_63 then u else u - TWO_TO_64
  }

  /** take(int(n)): the guard adds in 64 bits, so a long run can slip past it and panic in the slice expression. */
  function Take(b: seq<byte>, i: nat, n: nat): (r: Read<seq<byte>>)
    ensures r.Got? ==> i <= r.next <= |b|
    ensures r.Failed? ==> !r.error.Endless?
  {
    var k := ToInt64(n);
    if k < 0 || ToInt64(i + k) > |b| then Failed(ValueTruncated)
    else if i + k > |b| then Failed(Panic(SliceOutOfRange))
    else Got(b[i..i + k], i + k)
  }

  /** A length and that many bytes. */
  function ReadRun(b: seq<byte>, i: nat): (r: Read<seq<byte>>)
    ensures r.Got? ==> i < r.next <= |b|
    ensures r.Failed? ==> !r.error.Endless?
  {
    var n := ReadVarint(b, i);
    if n.Failed? then Failed(n.error) else Take(b, n.next, n.value)
  }

  /** The lengths whose sum with the cursor wraps. */
  predicate Wraps(i: nat, n: nat) {
    n < TWO_TO_63 && i + n >= TWO_TO_63
  }

  /** Taking panics for exactly these; every other length gives the run, or the error that it is cut short. */
  lemma TakePanicsIff(b: seq<byte>, i: nat, n: nat)
    requires IsSlice(b) && i <= |b| && n < TWO_TO_64
    ensures Take(b, i, n) == Failed(Panic(SliceOutOfRange)) <==> Wraps(i, n)
    ensures Take(b, i, n) == Failed(ValueTruncated) <==> !Wraps(i, n) && i + n > |b|
    ensures Take(b, i, n).Got? <==> i + n <= |b|
  {
  }

  /** These bytes are in b at position i. */
  predicate At(b: seq<byte>, i: nat, s: seq<byte>) {
    i + |s| <= |b| && b[i..i + |s|] == s
  }

  lemma AtSplit(b: seq<byte>, i: nat, s: seq<byte>, t: seq<byte>)
    requires At(b, i, s + t)
    ensures At(b, i, s) && At(b, i + |s|, t)
  {
    var whole := b[i..i + |s + t|];
    assert whole[..|s|] == s && whole[|s|..] == t;
    assert b[i..i + |s|] == whole[..|s|];
    assert b[i + |s|..i + |s| + |t|] == whole[|s|..];
  }

  lemma AtHead(b: seq<byte>, i: nat, c: byte, t: seq<byte>)
    requires At(b, i, [c] + t)
    ensures i < |b| && b[i] == c && At(b, i + 1, t)
  {
    AtSplit(b, i, [c], t);
    assert b[i] == b[i..i + 1][0];
  }

  // ---------------------------------------------------------------------------
  // The implementation
  // ---------------------------------------------------------------------------

  class Reader {
    const b: seq<byte>
    var i: nat

    ghost predicate Valid()
      reads this
    {
      i <= |b|
    }

    constructor (b: seq<byte>, at: nat)
      requires at <= |b|
      ensures Valid() && this.b == b && i == at
    {
      this.b, this.i := b, at;
    }

    method Byte() returns (r: Read<byte>)
      requires Valid()
      modifies this
      ensures Valid() && r == ReadByte(b, old(i)) && old(i) <= i && (r.Got? ==> i == r.next)
    {
      if i >= |b| {
        return Failed(EndOfValue);
      }
      r := Got(b[i], i + 1);
      i := i + 1;
    }

    method Varint() returns (r: Read<nat>)
      requires Valid()
      modifies this
      ensures Valid() && r == ReadVarint(b, old(i)) && old(i) <= i && (r.Got? ==> i == r.next)
      ensures var n := Continued(b, old(i));
              && (r == Failed(VarintOverflow) <==> n >= 10)
              && (r == Failed(EndOfValue) <==> n < 10 && old(i) + n == |b|)
              && (r.Got? ==> r == Got(NumberOf(b[old(i)..old(i) + n + 1]) % TWO_TO_64, old(i) + n + 1))
    {
      VarintIff(b, i);
      hide Continued, NumberOf;
      var x: nat, shift: nat := 0, 0;
      while true
        invariant Valid() && old(i) <= i
        invariant ReadDigits(b, i, x, shift) == ReadVarint(b, old(i))
        decreases |b| - i
      {
        var c := Byte();
        if c.Failed? {
          return Failed(c.error);
        }
        x := (x + Shifted(c.value as nat % 128, shift)) % TWO_TO_64;
        if c.value < 128 {
          return Got(x, i);
        }
        shift := shift + 7;
        if shift > 63 {
          return Failed(VarintOverflow);
        }
      }
    }

    method TakeBytes(n: nat) returns (r: Read<seq<byte>>)
      requires Valid()
      modifies this
      ensures Valid() && r == Take(b, old(i), n) && old(i) <= i && (r.Got? ==> i == r.next)
    {
      var k := ToInt64(n);
      if k < 0 || ToInt64(i + k) > |b| {
        return Failed(ValueTruncated);
      }
      if i + k > |b| {
        return Failed(Panic(SliceOutOfRange));
      }
      r := Got(b[i..i + k], i + k);
      i := i + k;
    }
  }

  // ---------------------------------------------------------------------------
  // Varints round trip
  // ---------------------------------------------------------------------------

  /** The canonical encoding: seven bits a byte, least significant first. */
  function Varint(n: nat): (b: seq<byte>)
    ensures |b| > 0
  {
    if n < 128 then [n as byte] else [(128 + n % 128) as byte] + Varint(n / 128)
  }

  lemma {:induction false} ShiftedAdds(m: nat, n: nat, shift: nat)
    ensures Shifted(m + n, shift) == Shifted(m, shift) + Shifted(n, shift)
  {
    if shift > 0 {
      ShiftedAdds(m, n, shift - 1);
    }
  }

  lemma {:induction false} ShiftedMore(n: nat, shift: nat, more: nat)
    ensures Shifted(n, shift + more) == Shifted(Shifted(n, more), shift)
  {
    if shift > 0 {
      ShiftedMore(n, shift - 1, more);
    }
  }

  lemma ShiftedBySeven(n: nat)
    ensures Shifted(n, 7) == 128 * n
  {
    assert Shifted(n, 6) == 2 * Shifted(n, 5) && Shifted(n, 5) == 2 * Shifted(n, 4);
    assert Shifted(n, 4) == 2 * Shifted(n, 3) && Shifted(n, 3) == 2 * Shifted(n, 2);
    assert Shifted(n, 2) == 2 * Shifted(n, 1) && Shifted(n, 1) == 2 * n;
  }

  lemma ShiftedBy64()
    ensures Shifted(1, 64) == TWO_TO_64
  {
    ShiftedBySeven(1);
    SevenMore(1, 7);
    SevenMore(1, 14);
    SevenMore(1, 21);
    SevenMore(1, 28);
    SevenMore(1, 35);
    SevenMore(1, 42);
    SevenMore(1, 49);
    SevenMore(1, 56);
    assert Shifted(1, 64) == 2 * Shifted(1, 63);
  }

  lemma SevenMore(n: nat, shift: nat)
    ensures Shifted(n, shift + 7) == 128 * Shifted(n, shift)
  {
    ShiftedMore(n, 7, shift);
    ShiftedBySeven(Shifted(n, shift));
  }

  /** One digit of the encoding: what is left fits above the digits already read. */
  lemma DigitStep(n: nat, x: nat, shift: nat)
    requires n >= 128 && x < Shifted(1, shift) && x + Shifted(n, shift) < TWO_TO_64
    ensures var x' := x + Shifted(n % 128, shift);
            && shift + 7 <= 63 && x' < Shifted(1, shift + 7) && x' < TWO_TO_64
            && x' + Shifted(n / 128, shift + 7) == x + Shifted(n, shift)
  {
    var low, high := n % 128, n / 128;
    ShiftedAdds(low, 128 * high, shift);
    ShiftedMore(high, shift, 7);
    ShiftedBySeven(high);
    assert Shifted(high, shift + 7) == Shifted(128 * high, shift);
    ShiftedAdds(low, 1, shift);
    ShiftedAdds(low + 1, 127 - low, shift);
    ShiftedMore(1, shift, 7);
    ShiftedBySeven(1);
    ShiftedAdds(128, n - 128, shift);
    if shift + 7 > 63 {
      ShiftedBy64();
      ShiftedMore(1, 64, shift + 7 - 64);
      ShiftedAtLeast(1, shift + 7 - 64);
      ShiftedAdds(1, Shifted(1, shift + 7 - 64) - 1, 64);
    }
  }

  lemma {:induction false} ShiftedAtLeast(n: nat, shift: nat)
    ensures Shifted(n, shift) >= n
  {
    if shift > 0 {
      ShiftedAtLeast(n, shift - 1);
    }
  }

  lemma DigitRead(b: seq<byte>, i: nat, x: nat, shift: nat, low: nat)
    requires i < |b| && low < 128 && b[i] as nat == 128 + low && shift + 7 <= 63
    requires x + Shifted(low, shift) < TWO_TO_64
    ensures ReadDigits(b, i, x, shift) == ReadDigits(b, i + 1, x + Shifted(low, shift), shift + 7)
  {
  }

  lemma EncodingSplits(b: seq<byte>, i: nat, n: nat)
    requires i + |Varint(n)| <= |b| && b[i..i + |Varint(n)|] == Varint(n) && n >= 128
    ensures b[i] as nat == 128 + n % 128 && |Varint(n)| == 1 + |Varint(n / 128)|
    ensures b[i + 1..i + 1 + |Varint(n / 128)|] == Varint(n / 128)
  {
    assert b[i] == b[i..i + |Varint(n)|][0];
    assert b[i + 1..i + 1 + |Varint(n / 128)|] == b[i..i + |Varint(n)|][1..];
  }

  /** The encoding of n, read on top of the digits x, gives x and n put together. */
  lemma {:induction false} DigitsRoundTrip(b: seq<byte>, i: nat, n: nat, x: nat, shift: nat)
    requires i + |Varint(n)| <= |b| && b[i..i + |Varint(n)|] == Varint(n)
    requires x < Shifted(1, shift) && x + Shifted(n, shift) < TWO_TO_64
    ensures ReadDigits(b, i, x, shift) == Got(x + Shifted(n, shift), i + |Varint(n)|)
    decreases n
  {
    if n < 128 {
      assert b[i] == b[i..i + |Varint(n)|][0];
    } else {
      EncodingSplits(b, i, n);
      DigitStep(n, x, shift);
      DigitRead(b, i, x, shift, n % 128);
      DigitsRoundTrip(b, i + 1, n / 128, x + Shifted(n % 128, shift), shift + 7);
    }
  }

  /** Every 64-bit value is read back from its encoding, and exactly its bytes are consumed. */
  lemma VarintRoundTrip(before: seq<byte>, n: nat, after: seq<byte>)
    requires n < TWO_TO_64
    ensures ReadVarint(before + Varint(n) + after, |before|) == Got(n, |before| + |Varint(n)|)
  {
    var b := before + Varint(n) + after;
    assert b[|before|..|before| + |Varint(n)|] == Varint(n);
    DigitsRoundTrip(b, |before|, n, 0, 0);
  }

  // ---------------------------------------------------------------------------
  // What any bytes are read as
  // ---------------------------------------------------------------------------

  /** How many bytes with the high bit set stand at i, one after the other. */
  function Continued(b: seq<byte>, i: nat): (n: nat)
    requires i <= |b|
    ensures i + n <= |b| && (i + n < |b| ==> b[i + n] < 128) && forall k | i <= k < i + n :: b[k] >= 128
    decreases |b| - i
  {
    if i < |b| && b[i] >= 128 then 1 + Continued(b, i + 1) else 0
  }

  /** The number these digits make, seven bits each, the least significant first. */
  function NumberOf(digits: seq<byte>): nat {
    if digits == [] then 0 else digits[0] as nat % 128 + 128 * NumberOf(digits[1..])
  }

  lemma WrapTwice(x: nat, y: nat)
    ensures (x % TWO_TO_64 + y) % TWO_TO_64 == (x + y) % TWO_TO_64
  {
  }

  /** One digit more, in front. */
  lemma DigitInFront(digits: seq<byte>, x: nat, shift: nat)
    requires digits != []
    ensures var x' := (x + Shifted(digits[0] as nat % 128, shift)) % TWO_TO_64;
            (x' + Shifted(NumberOf(digits[1..]), shift + 7)) % TWO_TO_64 ==
              (x + Shifted(NumberOf(digits), shift)) % TWO_TO_64
  {
    var low, high := digits[0] as nat % 128, NumberOf(digits[1..]);
    ShiftedMore(high, shift, 7);
    ShiftedBySeven(high);
    ShiftedAdds(low, 128 * high, shift);
    WrapTwice(x + Shifted(low, shift), Shifted(high, shift + 7));
  }

  lemma {:induction false} DigitsIff(b: seq<byte>, i: nat, x: nat, shift: nat, room: nat)
    requires i <= |b| && x < TWO_TO_64 && room > 0 && shift + 7 * room == 70
    ensures var n, r := Continued(b, i), ReadDigits(b, i, x, shift);
            && (r == Failed(VarintOverflow) <==> n >= room)
            && (r == Failed(EndOfValue) <==> n < room && i + n == |b|)
            && (r.Got? <==> n < room && i + n < |b|)
            && (r.Got? ==>
                  r == Got((x + Shifted(NumberOf(b[i..i + n + 1]), shift)) % TWO_TO_64, i + n + 1))
    decreases |b| - i
  {
    if i < |b| {
      var n := Continued(b, i);
      var x' := (x + Shifted(b[i] as nat % 128, shift)) % TWO_TO_64;
      if n < room && i + n < |b| {
        assert b[i..i + n + 1][1..] == b[i + 1..i + n + 1];
        DigitInFront(b[i..i + n + 1], x, shift);
        ShiftedNothing(shift + 7);
      }
      if b[i] >= 128 && room > 1 {
        DigitsIff(b, i + 1, x', shift + 7, room - 1);
      }
    }
  }

  lemma {:induction false} ShiftedNothing(shift: nat)
    ensures Shifted(0, shift) == 0
  {
    if shift > 0 {
      ShiftedNothing(shift - 1);
    }
  }

  /**
   What any bytes are read as: with ten digits that all go on an overflow, with fewer
   and then the end of the input an error, and otherwise the number the digits make,
   as far as 64 bits hold it.
   */
  lemma VarintIff(b: seq<byte>, i: nat)
    requires i <= |b|
    ensures var n, r := Continued(b, i), ReadVarint(b, i);
            && (r == Failed(VarintOverflow) <==> n >= 10)
            && (r == Failed(EndOfValue) <==> n < 10 && i + n == |b|)
            && (r.Got? <==> n < 10 && i + n < |b|)
            && (r.Got? ==> r == Got(NumberOf(b[i..i + n + 1]) % TWO_TO_64, i + n + 1))
  {
    DigitsIff(b, i, 0, 0, 10);
  }

  lemma VarintAt(b: seq<byte>, i: nat, n: nat, s: seq<byte>)
    requires n < TWO_TO_64 && s == Varint(n) && At(b, i, s)
    ensures ReadVarint(b, i) == Got(n, i + |s|)
  {
    DigitsRoundTrip(b, i, n, 0, 0);
  }

  lemma TakeAt(b: seq<byte>, i: nat, s: seq<byte>)
    requires IsSlice(b) && At(b, i, s)
    ensures Take(b, i, |s|) == Got(s, i + |s|)
  {
    TakePanicsIff(b, i, |s|);
  }

  /** A length and that many bytes, written, are read back. */
  lemma RunRoundTrip(b: seq<byte>, i: nat, s: seq<byte>, length: seq<byte>)
    requires IsSlice(b) && IsSlice(s) && length == Varint(|s|) && At(b, i, length + s)
    ensures ReadRun(b, i) == Got(s, i + |length| + |s|)
  {
    hide At, Varint, ReadVarint, Take;
    AtSplit(b, i, length, s);
    VarintAt(b, i, |s|, length);
    TakeAt(b, i + |length|, s);
  }
}
