/**
 On which inputs decoding panics, and on which it never comes back. Go converts the
 unsigned lengths and ids it reads to signed ints, and adds them in 64 bits; and it
 prints the key of every field, which may be a map that contains itself.
 */
module ClonePanics {
  import opened Common
  import opened ByteReader
  import opened CloneDecoder
  import opened CloneValues

  /**
   What decoding gets to: the start of a value, where its tag is and how many
   objects are numbered by then; or a field about to be stored, its key and what the
   table has at that moment.
   */
  datatype Visit = Begin(at: nat, objects: nat) | Key(table: Table, key: Value)

  // ---------------------------------------------------------------------------
  // The walk: what decoding gets to, in order, up to where it stops
  // ---------------------------------------------------------------------------

  function Walk(lib: Library, b: seq<byte>, i: nat, t: Table): seq<Visit>
    requires i <= |b|
    decreases |b| - i, 1
  {
    var at := SkipPadding(b, i);
    if at >= |b| then [] else [Begin(at, |t|)] + WalkInside(lib, b, at, t)
  }

  function WalkInside(lib: Library, b: seq<byte>, at: nat, t: Table): seq<Visit>
    requires at < |b|
    decreases |b| - at, 0
  {
    var n := ReadVarint(b, at + 1);
    if b[at] == OBJECT then WalkFields(lib, b, at + 1, t + [AMap([])], |t|, OBJECT_END)
    else if n.Failed? then []
    else if b[at] == VERSION then Walk(lib, b, n.next, t)
    else if b[at] == SPARSE then WalkFields(lib, b, n.next, t + [AMap([])], |t|, SPARSE_END)
    else if b[at] == DENSE && n.value < TWO_TO_63 then WalkItems(lib, b, n.next, t + [AList])
    else []
  }

  function WalkFields(lib: Library, b: seq<byte>, i: nat, t: Table, id: nat, end: byte): seq<Visit>
    requires i <= |b| && id < |t|
    decreases |b| - i, 2
  {
    var at := SkipPadding(b, i);
    if at >= |b| || b[at] == end then []
    else
      var k := Decode(lib, b, at, t);
      Walk(lib, b, at, t) + if k.Err? then [] else WalkBehindKey(lib, b, k.next, k.table, id, end, k.value)
  }

  function WalkBehindKey(lib: Library, b: seq<byte>, i: nat, t: Table, id: nat, end: byte, key: Value): seq<Visit>
    requires i <= |b| && id < |t|
    decreases |b| - i, 3
  {
    var v := Decode(lib, b, i, t);
    Walk(lib, b, i, t) +
      if v.Err? then []
      else
        var t' := Stored(lib, v.table, id, key, v.value);
        [Key(v.table, key)] + if t'.None? then [] else WalkFields(lib, b, v.next, t'.value, id, end)
  }

  function WalkItems(lib: Library, b: seq<byte>, i: nat, t: Table): seq<Visit>
    requires i <= |b|
    decreases |b| - i, 2
  {
    var at := SkipPadding(b, i);
    if at >= |b| || b[at] == DENSE_END then []
    else
      var v := Decode(lib, b, at, t);
      Walk(lib, b, at, t) + if v.Err? then [] else WalkItems(lib, b, v.next, v.table)
  }

  function WalkRecord(lib: Library, raw: seq<byte>): seq<Visit> {
    var prefix := ReadVarint(raw, 0);
    if prefix.Failed? then [] else Walk(lib, raw, prefix.next, [])
  }

  // ---------------------------------------------------------------------------
  // What stops the program
  // ---------------------------------------------------------------------------

  /**
   The value there cannot be read without a panic: a reference to object 2^63 or
   beyond, a dense array of that length, or a run, or a double, whose end wraps.
   */
  predicate Hazard(b: seq<byte>, at: nat, objects: nat) {
    at < |b| &&
    var n := ReadVarint(b, at + 1);
    if b[at] == REFERENCE then
      n.Got? && n.value >= TWO_TO_63 && n.value >= objects
    else if b[at] == DENSE then
      n.Got? && n.value >= TWO_TO_63
    else if b[at] in [ONE_BYTE, UTF8, TWO_BYTE] then
      n.Got? && Wraps(n.next, n.value)
    else
      b[at] in [DOUBLE, DATE] && Wraps(at + 1, 8)
  }

  datatype Fate = ByPanic | ByLoop

  ghost predicate Deadly(b: seq<byte>, v: Visit, fate: Fate) {
    match v
    case Begin(at, objects) => fate.ByPanic? && Hazard(b, at, objects)
    case Key(t, key) => fate.ByLoop? && ReachesCycle(t, key)
  }

  ghost predicate AnyDeadly(b: seq<byte>, visits: seq<Visit>, fate: Fate) {
    exists v :: v in visits && Deadly(b, v, fate)
  }

  predicate Dies<T>(r: Result<T>, fate: Fate) {
    r.Err? && if fate.ByPanic? then r.error.Panic? else r.error.Endless?
  }

  lemma DeadlyInBoth(b: seq<byte>, p: seq<Visit>, q: seq<Visit>, fate: Fate)
    ensures AnyDeadly(b, p + q, fate) <==> AnyDeadly(b, p, fate) || AnyDeadly(b, q, fate)
  {
    if AnyDeadly(b, p, fate) {
      var v :| v in p && Deadly(b, v, fate);
      assert v in p + q;
    }
    if AnyDeadly(b, q, fate) {
      var v :| v in q && Deadly(b, v, fate);
      assert v in p + q;
    }
  }

  lemma DeadlyInOne(b: seq<byte>, v: Visit, fate: Fate)
    ensures AnyDeadly(b, [v], fate) <==> Deadly(b, v, fate)
  {
    assert v in [v];
  }

  lemma SkippingIsHarmless<T>(b: seq<byte>, r: Result<T>, fate: Fate)
    ensures Dies(SkipVarint(b, r), fate) <==> Dies(r, fate)
  {
  }

  // ---------------------------------------------------------------------------
  // It stops there if and only if the walk gets to such a thing
  // ---------------------------------------------------------------------------

  predicate Nests(t: byte) {
    t in [VERSION, OBJECT, DENSE, SPARSE]
  }

  lemma LeafDiesIff(b: seq<byte>, at: nat, t: Table, fate: Fate)
    requires IsSlice(b) && at < |b| && !Nests(b[at])
    ensures Dies(DecodeLeaf(b, at, t), fate) <==> Deadly(b, Begin(at, |t|), fate)
  {
    var n := ReadVarint(b, at + 1);
    if n.Got? {
      TakePanicsIff(b, n.next, n.value);
    }
    TakePanicsIff(b, at + 1, 8);
  }

  lemma {:induction false} ValueDiesIff(lib: Library, b: seq<byte>, i: nat, t: Table, fate: Fate)
    requires IsSlice(b) && i <= |b|
    ensures Dies(Decode(lib, b, i, t), fate) <==> AnyDeadly(b, Walk(lib, b, i, t), fate)
    decreases |b| - i, 1
  {
    var at := SkipPadding(b, i);
    if at < |b| {
      var here, inside := Begin(at, |t|), WalkInside(lib, b, at, t);
      DeadlyInOne(b, here, fate);
      DeadlyInBoth(b, [here], inside, fate);
      if b[at] == OBJECT {
        ObjectDiesIff(lib, b, i, at, t, fate);
      } else if Nests(b[at]) {
        InsideDiesIff(lib, b, i, at, t, fate);
      } else {
        LeafDiesIff(b, at, t, fate);
      }
    }
  }

  lemma {:induction false} ObjectDiesIff(lib: Library, b: seq<byte>, i: nat, at: nat, t: Table, fate: Fate)
    requires IsSlice(b) && i <= |b| && at == SkipPadding(b, i) < |b| && b[at] == OBJECT
    ensures Dies(Decode(lib, b, i, t), fate) <==>
              Deadly(b, Begin(at, |t|), fate) || AnyDeadly(b, WalkInside(lib, b, at, t), fate)
    decreases |b| - i, 0
  {
    hide ReadVarint, Stored;
    var fields := DecodeFields(lib, b, at + 1, t + [AMap([])], |t|, OBJECT_END);
    FieldsDieIff(lib, b, at + 1, t + [AMap([])], |t|, OBJECT_END, fate);
    SkippingIsHarmless(b, fields, fate);
  }

  lemma {:induction false} InsideDiesIff(lib: Library, b: seq<byte>, i: nat, at: nat, t: Table, fate: Fate)
    requires IsSlice(b) && i <= |b| && at == SkipPadding(b, i) < |b| && b[at] in [VERSION, SPARSE, DENSE]
    ensures Dies(Decode(lib, b, i, t), fate) <==>
              Deadly(b, Begin(at, |t|), fate) || AnyDeadly(b, WalkInside(lib, b, at, t), fate)
    decreases |b| - i, 0
  {
    hide ReadVarint, Stored;
    var n := ReadVarint(b, at + 1);
    if n.Failed? {
      assert !AnyDeadly(b, [], fate);
    } else if b[at] == VERSION {
      ValueDiesIff(lib, b, n.next, t, fate);
    } else if b[at] == SPARSE {
      var fields := DecodeFields(lib, b, n.next, t + [AMap([])], |t|, SPARSE_END);
      FieldsDieIff(lib, b, n.next, t + [AMap([])], |t|, SPARSE_END, fate);
      SkippingIsHarmless(b, fields, fate);
      SkippingIsHarmless(b, SkipVarint(b, fields), fate);
    } else if n.value >= TWO_TO_63 {
      assert !AnyDeadly(b, [], fate);
    } else {
      var items := DecodeItems(lib, b, n.next, t + [AList]);
      ItemsDieIff(lib, b, n.next, t + [AList], fate);
      SkippingIsHarmless(b, AsList(items), fate);
      SkippingIsHarmless(b, SkipVarint(b, AsList(items)), fate);
    }
  }

  lemma {:induction false} FieldsDieIff(lib: Library, b: seq<byte>, i: nat, t: Table, id: nat, end: byte, fate: Fate)
    requires IsSlice(b) && i <= |b| && id < |t|
    ensures Dies(DecodeFields(lib, b, i, t, id, end), fate) <==> AnyDeadly(b, WalkFields(lib, b, i, t, id, end), fate)
    decreases |b| - i, 2
  {
    hide Stored;
    var at := SkipPadding(b, i);
    if at < |b| && b[at] != end {
      ValueDiesIff(lib, b, at, t, fate);
      var k := Decode(lib, b, at, t);
      if k.Ok? {
        BehindKeyDiesIff(lib, b, k.next, k.table, id, end, k.value, fate);
        DeadlyInBoth(b, Walk(lib, b, at, t), WalkBehindKey(lib, b, k.next, k.table, id, end, k.value), fate);
      } else {
        DeadlyInBoth(b, Walk(lib, b, at, t), [], fate);
      }
    }
  }

  lemma {:induction false} BehindKeyDiesIff(lib: Library, b: seq<byte>, i: nat, t: Table, id: nat, end: byte, key: Value, fate: Fate)
    requires IsSlice(b) && i <= |b| && id < |t|
    ensures var v := Decode(lib, b, i, t);
            AnyDeadly(b, WalkBehindKey(lib, b, i, t, id, end, key), fate) <==>
              if v.Err? then Dies(v, fate)
              else
                var t' := Stored(lib, v.table, id, key, v.value);
                if t'.None? then fate.ByLoop? else Dies(DecodeFields(lib, b, v.next, t'.value, id, end), fate)
    decreases |b| - i, 3
  {
    ValueDiesIff(lib, b, i, t, fate);
    var v := Decode(lib, b, i, t);
    if v.Ok? {
      PrintsIff(lib, v.table, key);
      var t' := Stored(lib, v.table, id, key, v.value);
      var rest := if t'.None? then [] else WalkFields(lib, b, v.next, t'.value, id, end);
      if t'.Some? {
        FieldsDieIff(lib, b, v.next, t'.value, id, end, fate);
      }
      DeadlyInOne(b, Key(v.table, key), fate);
      DeadlyInBoth(b, [Key(v.table, key)], rest, fate);
      DeadlyInBoth(b, Walk(lib, b, i, t), [Key(v.table, key)] + rest, fate);
    } else {
      DeadlyInBoth(b, Walk(lib, b, i, t), [], fate);
    }
  }

  lemma {:induction false} ItemsDieIff(lib: Library, b: seq<byte>, i: nat, t: Table, fate: Fate)
    requires IsSlice(b) && i <= |b|
    ensures Dies(DecodeItems(lib, b, i, t), fate) <==> AnyDeadly(b, WalkItems(lib, b, i, t), fate)
    decreases |b| - i, 2
  {
    var at := SkipPadding(b, i);
    if at < |b| && b[at] != DENSE_END {
      ValueDiesIff(lib, b, at, t, fate);
      var v := Decode(lib, b, at, t);
      var rest := if v.Err? then [] else WalkItems(lib, b, v.next, v.table);
      if v.Ok? {
        ItemsDieIff(lib, b, v.next, v.table, fate);
      }
      DeadlyInBoth(b, Walk(lib, b, at, t), rest, fate);
    }
  }

  /** Decoding a record body panics if and only if it gets to a value whose own bytes are a hazard. */
  lemma DecodePanicsIff(lib: Library, raw: seq<byte>)
    requires IsSlice(raw)
    ensures Dies(DecodeValue(lib, raw), ByPanic) <==>
              exists v :: v in WalkRecord(lib, raw) && v.Begin? && Hazard(raw, v.at, v.objects)
  {
    if ReadVarint(raw, 0).Got? {
      ValueDiesIff(lib, raw, ReadVarint(raw, 0).next, [], ByPanic);
      assert AnyDeadly(raw, WalkRecord(lib, raw), ByPanic) <==>
             exists v :: v in WalkRecord(lib, raw) && v.Begin? && Hazard(raw, v.at, v.objects);
    }
  }

  /**
   It never comes back if and only if it gets to a field whose key, as the table has
   it at that moment, leads to a map that contains itself. On every other input it
   returns a value or an error, or panics as above.
   */
  lemma DecodeIsEndlessIff(lib: Library, raw: seq<byte>)
    requires IsSlice(raw)
    ensures DecodeValue(lib, raw) == Err(Endless) <==>
              exists v :: v in WalkRecord(lib, raw) && v.Key? && ReachesCycle(v.table, v.key)
  {
    if ReadVarint(raw, 0).Got? {
      ValueDiesIff(lib, raw, ReadVarint(raw, 0).next, [], ByLoop);
      assert AnyDeadly(raw, WalkRecord(lib, raw), ByLoop) <==>
             exists v :: v in WalkRecord(lib, raw) && v.Key? && ReachesCycle(v.table, v.key);
    }
  }

  // ---------------------------------------------------------------------------
  // The three ways, for every length and id that takes them
  // ---------------------------------------------------------------------------

  lemma TaggedVarint(lib: Library, prefix: nat, tag: byte, n: nat, after: seq<byte>) returns (raw: seq<byte>, at: nat)
    requires prefix < TWO_TO_64 && n < TWO_TO_64 && tag != PADDING
    ensures raw == Varint(prefix) + ([tag] + (Varint(n) + after)) && at == |Varint(prefix)| < |raw|
    ensures raw[at] == tag && SkipPadding(raw, at) == at && DecodeValue(lib, raw) == Decode(lib, raw, at, [])
    ensures ReadVarint(raw, at + 1) == Got(n, at + 1 + |Varint(n)|)
  {
    var v := Varint(prefix);
    raw, at := v + ([tag] + (Varint(n) + after)), |v|;
    assert raw == [] + v + ([tag] + (Varint(n) + after));
    VarintRoundTrip([], prefix, [tag] + (Varint(n) + after));
    assert raw == (v + [tag]) + Varint(n) + after;
    VarintRoundTrip(v + [tag], n, after);
  }

  /** A reference to an object numbered 2^63 or beyond passes the range check as a negative number. */
  lemma HugeReferencePanics(lib: Library, prefix: nat, id: nat, after: seq<byte>)
    requires prefix < TWO_TO_64 && TWO_TO_63 <= id < TWO_TO_64
    ensures DecodeValue(lib, Varint(prefix) + ([REFERENCE] + (Varint(id) + after))) == Err(Panic(IndexOutOfRange))
  {
    var _, _ := TaggedVarint(lib, prefix, REFERENCE, id, after);
  }

  /** A dense array that declares such a length asks for a negative capacity. */
  lemma HugeArrayPanics(lib: Library, prefix: nat, length: nat, after: seq<byte>)
    requires prefix < TWO_TO_64 && TWO_TO_63 <= length < TWO_TO_64
    ensures DecodeValue(lib, Varint(prefix) + ([DENSE] + (Varint(length) + after))) == Err(Panic(CapOutOfRange))
  {
    var _, _ := TaggedVarint(lib, prefix, DENSE, length, after);
  }

  lemma CutStringFails(lib: Library, b: seq<byte>, at: nat, t: Table)
    requires at < |b| && SkipPadding(b, at) == at && b[at] in [ONE_BYTE, UTF8, TWO_BYTE] && ReadRun(b, at + 1).Failed?
    ensures Decode(lib, b, at, t) == Err(ReadRun(b, at + 1).error)
  {
  }

  /** A string that declares a length just below it makes the guard's sum wrap. */
  lemma WrappingStringPanics(lib: Library, prefix: nat, tag: byte, n: nat, after: seq<byte>)
    requires prefix < TWO_TO_64 && tag in [ONE_BYTE, UTF8, TWO_BYTE]
    requires n < TWO_TO_63 <= |Varint(prefix)| + 1 + |Varint(n)| + n
    requires IsSlice(Varint(prefix) + ([tag] + (Varint(n) + after)))
    ensures DecodeValue(lib, Varint(prefix) + ([tag] + (Varint(n) + after))) == Err(Panic(SliceOutOfRange))
  {
    var raw, at := TaggedVarint(lib, prefix, tag, n, after);
    TakePanicsIff(raw, at + 1 + |Varint(n)|, n);
    CutStringFails(lib, raw, at, []);
  }

  const MAX_INT: nat := 0x7fff_ffff_ffff_ffff

  // One short input of each kind.

  lemma SmallReferencePanics(lib: Library, raw: seq<byte>)
    requires raw == [0, 0x5e, 0x80, 0x80, 0x80, 0x80, 0x80, 0x80, 0x80, 0x80, 0x80, 1]
    ensures DecodeValue(lib, raw) == Err(Panic(IndexOutOfRange))
  {
    var digits: seq<byte> := [0x80, 0x80, 0x80, 0x80, 0x80, 0x80, 0x80, 0x80, 0x80, 1];
    assert Varint(0) == [0] && Varint(TWO_TO_63) == digits;
    assert raw == [0] + ([REFERENCE] + (digits + []));
    HugeReferencePanics(lib, 0, TWO_TO_63, []);
  }

  lemma SmallArrayPanics(lib: Library, raw: seq<byte>)
    requires raw == [0, 0x41, 0x80, 0x80, 0x80, 0x80, 0x80, 0x80, 0x80, 0x80, 0x80, 1]
    ensures DecodeValue(lib, raw) == Err(Panic(CapOutOfRange))
  {
    var digits: seq<byte> := [0x80, 0x80, 0x80, 0x80, 0x80, 0x80, 0x80, 0x80, 0x80, 1];
    assert Varint(0) == [0] && Varint(TWO_TO_63) == digits;
    assert raw == [0] + ([DENSE] + (digits + []));
    HugeArrayPanics(lib, 0, TWO_TO_63, []);
  }

  lemma SmallStringPanics(lib: Library, raw: seq<byte>)
    requires raw == [0, 0x22, 0xff, 0xff, 0xff, 0xff, 0xff, 0xff, 0xff, 0xff, 0x7f]
    ensures DecodeValue(lib, raw) == Err(Panic(SliceOutOfRange))
  {
    var digits: seq<byte> := [0xff, 0xff, 0xff, 0xff, 0xff, 0xff, 0xff, 0xff, 0x7f];
    assert Varint(0) == [0] && Varint(MAX_INT) == digits;
    assert raw == [0] + ([ONE_BYTE] + (digits + []));
    WrappingStringPanics(lib, 0, ONE_BYTE, MAX_INT, []);
  }

  // ---------------------------------------------------------------------------
  // A guard a caller could check
  // ---------------------------------------------------------------------------

  /** Eight bytes in a row with the high bit set: what a varint of nine bytes or more begins with. */
  predicate LongVarintAt(b: seq<byte>, i: nat) {
    i + 8 <= |b| && forall k | i <= k < i + 8 :: b[k] >= 128
  }

  lemma {:induction false} DigitsBounded(b: seq<byte>, i: nat, x: nat, shift: nat)
    requires x < Shifted(1, shift) && ReadDigits(b, i, x, shift).Got?
    ensures var r := ReadDigits(b, i, x, shift);
            && r.value < Shifted(1, shift + 7 * (r.next - i))
            && forall k | i <= k < r.next - 1 :: b[k] >= 128
    decreases |b| - i
  {
    var low := b[i] as nat % 128;
    ShiftedAdds(low, 1, shift);
    ShiftedAdds(low + 1, 127 - low, shift);
    ShiftedMore(1, shift, 7);
    ShiftedBySeven(1);
    var x' := (x + Shifted(low, shift)) % TWO_TO_64;
    assert x' <= x + Shifted(low, shift) < Shifted(1, shift + 7);
    if b[i] >= 128 {
      DigitsBounded(b, i + 1, x', shift + 7);
      var r := ReadDigits(b, i + 1, x', shift + 7);
      assert shift + 7 + 7 * (r.next - (i + 1)) == shift + 7 * (r.next - i);
    }
  }

  lemma Short(b: seq<byte>, i: nat)
    requires !LongVarintAt(b, i) && ReadVarint(b, i).Got?
    ensures ReadVarint(b, i).value < 0x100_0000_0000_0000
  {
    DigitsBounded(b, i, 0, 0);
    var r := ReadVarint(b, i);
    assert r.next - i > 8 ==> LongVarintAt(b, i);
    var bits := 7 * (r.next - i);
    FiftySix();
    ShiftedMore(1, 56 - bits, bits);
    ShiftedAtLeast(Shifted(1, bits), 56 - bits);
  }

  lemma FiftySix()
    ensures Shifted(1, 56) == 0x100_0000_0000_0000
  {
    ShiftedBySeven(1);
    SevenMore(1, 7);
    SevenMore(1, 14);
    SevenMore(1, 21);
    SevenMore(1, 28);
    SevenMore(1, 35);
    SevenMore(1, 42);
    SevenMore(1, 49);
  }

  /** Without eight such bytes in a row there is no panic, whatever else the input holds; it may still never end. */
  lemma ShortVarintsNeverPanic(lib: Library, raw: seq<byte>)
    requires |raw| < TWO_TO_63 / 2 && forall i :: !LongVarintAt(raw, i)
    ensures !Dies(DecodeValue(lib, raw), ByPanic)
  {
    DecodePanicsIff(lib, raw);
    forall at: nat, objects: nat
      ensures !Hazard(raw, at, objects)
    {
      if at < |raw| && ReadVarint(raw, at + 1).Got? {
        Short(raw, at + 1);
      }
    }
  }
}
