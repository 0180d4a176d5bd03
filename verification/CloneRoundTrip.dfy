/**
 The decoder inverts the encoding: an independent description of what may be
 written for a value, with padding and version tags wherever they may appear, what
 value and maps that means, and the proof that decoding gives them back and uses up
 exactly its bytes; or, if a key cannot be printed, that it never comes back.
 */
module CloneRoundTrip {
  import opened Common
  import opened ByteReader
  import opened CloneDecoder
  import opened CloneValues

  /** A value as it is written, with everything the writer is free to choose. */
  datatype Written =
    | WPadded(inner: Written)
    | WVersioned(version: nat, inner: Written)
    | WNull
    | WUndefined
    | WBool(b: bool)
    | WInt32(z: int)
    | WUint32(n: nat)
    | WDouble(bits: seq<byte>)
    | WDate(bits: seq<byte>)
    | WOneByte(bytes: seq<byte>)
    | WUtf8(bytes: seq<byte>)
    | WTwoByte(units: seq<Unit>, odd: seq<byte>)   // an odd byte behind the units is dropped
    | WObject(fields: Fields, count: nat)
    | WSparse(length: nat, fields: Fields, count: nat, length2: nat)
    | WDense(capacity: nat, items: Items, count: nat, length: nat)
    | WReference(target: nat)

  datatype Fields = NoFields | Field(key: Written, value: Written, rest: Fields) | FieldsPadded(rest: Fields)

  datatype Items = NoItems | Item(value: Written, rest: Items) | ItemsPadded(rest: Items)

  function UnitBytes(units: seq<Unit>): (b: seq<byte>)
    ensures |b| == 2 * |units|
  {
    if units == [] then [] else [(units[0] % 256) as byte, (units[0] / 256) as byte] + UnitBytes(units[1..])
  }

  /** The value fits the format: 64-bit numbers, 16-bit units, eight bytes of a double, references backwards. */
  predicate WellFormed(w: Written, objects: nat) {
    match w
    case WPadded(inner) => WellFormed(inner, objects)
    case WVersioned(v, inner) => v < TWO_TO_64 && WellFormed(inner, objects)
    case WNull | WUndefined | WBool(_) => true
    case WInt32(z) => Zigzag(z) < TWO_TO_64
    case WUint32(n) => n < TWO_TO_64
    case WDouble(bits) => |bits| == 8
    case WDate(bits) => |bits| == 8
    case WOneByte(bytes) => IsSlice(bytes)
    case WUtf8(bytes) => IsSlice(bytes)
    case WTwoByte(units, odd) => |odd| < 2 && 2 * |units| + |odd| < TWO_TO_63
    case WObject(fields, count) => count < TWO_TO_64 && FieldsWellFormed(fields, objects + 1)
    case WSparse(length, fields, count, length2) =>
      length < TWO_TO_64 && count < TWO_TO_64 && length2 < TWO_TO_64 && FieldsWellFormed(fields, objects + 1)
    case WDense(capacity, items, count, length) =>
      capacity < TWO_TO_63 && count < TWO_TO_64 && length < TWO_TO_64 && ItemsWellFormed(items, objects + 1)
    case WReference(id) => id < objects && id < TWO_TO_64
  }

  predicate FieldsWellFormed(f: Fields, objects: nat) {
    match f
    case NoFields => true
    case FieldsPadded(rest) => FieldsWellFormed(rest, objects)
    case Field(k, v, rest) =>
      && WellFormed(k, objects) && WellFormed(v, objects + Objects(k))
      && FieldsWellFormed(rest, objects + Objects(k) + Objects(v))
  }

  predicate ItemsWellFormed(s: Items, objects: nat) {
    match s
    case NoItems => true
    case ItemsPadded(rest) => ItemsWellFormed(rest, objects)
    case Item(v, rest) => WellFormed(v, objects) && ItemsWellFormed(rest, objects + Objects(v))
  }

  /** How many objects reading it numbers. */
  function Objects(w: Written): nat {
    match w
    case WPadded(inner) => Objects(inner)
    case WVersioned(_, inner) => Objects(inner)
    case WObject(fields, _) => 1 + FieldsObjects(fields)
    case WSparse(_, fields, _, _) => 1 + FieldsObjects(fields)
    case WDense(_, items, _, _) => 1 + ItemsObjects(items)
    case WDate(_) => 1
    case _ => 0
  }

  function FieldsObjects(f: Fields): nat {
    match f
    case NoFields => 0
    case FieldsPadded(rest) => FieldsObjects(rest)
    case Field(k, v, rest) => Objects(k) + Objects(v) + FieldsObjects(rest)
  }

  function ItemsObjects(s: Items): nat {
    match s
    case NoItems => 0
    case ItemsPadded(rest) => ItemsObjects(rest)
    case Item(v, rest) => Objects(v) + ItemsObjects(rest)
  }

  /** What is meant: a value and the maps made for it, or a key on the way that cannot be printed. */
  datatype Meant<+T> = Made(value: T, table: Table) | Stuck

  /** The value that is meant, where this table is known. */
  function Meaning(lib: Library, w: Written, t: Table): (m: Meant<Value>)
    requires WellFormed(w, |t|)
    ensures m.Made? ==> |m.table| == |t| + Objects(w)
  {
    match w
    case WPadded(inner) => Meaning(lib, inner, t)
    case WVersioned(_, inner) => Meaning(lib, inner, t)
    case WNull | WUndefined => Made(Null, t)
    case WBool(b) => Made(Bool(b), t)
    case WInt32(z) => Made(Int(z), t)
    case WUint32(n) => Made(Int(ToInt64(n)), t)
    case WDouble(bits) => Made(Double(bits), t)
    case WDate(bits) => Made(Date(bits), t + [ATime(bits)])
    case WOneByte(bytes) => Made(Text(bytes), t)
    case WUtf8(bytes) => Made(Text(bytes), t)
    case WTwoByte(units, _) => Made(WideText(units), t)
    case WObject(fields, _) => Filled(lib, fields, |t|, t + [AMap([])])
    case WSparse(_, fields, _, _) => Filled(lib, fields, |t|, t + [AMap([])])
    case WDense(_, items, _, _) =>
      var m := ItemsMeaning(lib, items, t + [AList]);
      if m.Stuck? then Stuck else Made(List(m.value), m.table)
    case WReference(id) => Made(Deref(t, id), t)
  }

  /** Map id with these fields put into it, one after the other. */
  function Filled(lib: Library, f: Fields, id: nat, t: Table): (m: Meant<Value>)
    requires FieldsWellFormed(f, |t|) && id < |t|
    ensures m.Made? ==> |m.table| == |t| + FieldsObjects(f) && m.value == Map(id)
  {
    match f
    case NoFields => Made(Map(id), t)
    case FieldsPadded(rest) => Filled(lib, rest, id, t)
    case Field(k, v, rest) =>
      var key := Meaning(lib, k, t);
      if key.Stuck? then Stuck
      else
        var value := Meaning(lib, v, key.table);
        if value.Stuck? then Stuck
        else
          var t' := Stored(lib, value.table, id, key.value, value.value);
          if t'.None? then Stuck else Filled(lib, rest, id, t'.value)
  }

  function ItemsMeaning(lib: Library, s: Items, t: Table): (m: Meant<seq<Value>>)
    requires ItemsWellFormed(s, |t|)
    ensures m.Made? ==> |m.table| == |t| + ItemsObjects(s)
  {
    match s
    case NoItems => Made([], t)
    case ItemsPadded(rest) => ItemsMeaning(lib, rest, t)
    case Item(v, rest) =>
      var value := Meaning(lib, v, t);
      if value.Stuck? then Stuck
      else
        var more := ItemsMeaning(lib, rest, value.table);
        if more.Stuck? then Stuck else Made([value.value] + more.value, more.table)
  }

  /** Its bytes. */
  function Bytes(w: Written): (b: seq<byte>)
    ensures |b| > 0
  {
    match w
    case WPadded(inner) => [PADDING] + Bytes(inner)
    case WVersioned(v, inner) => [VERSION] + (Varint(v) + Bytes(inner))
    case WNull => [NULL]
    case WUndefined => [UNDEFINED]
    case WBool(b) => [if b then TRUE else FALSE]
    case WInt32(z) => [INT32] + Varint(Zigzag(z))
    case WUint32(n) => [UINT32] + Varint(n)
    case WDouble(bits) => [DOUBLE] + bits
    case WDate(bits) => [DATE] + bits
    case WOneByte(bytes) => [ONE_BYTE] + (Varint(|bytes|) + bytes)
    case WUtf8(bytes) => [UTF8] + (Varint(|bytes|) + bytes)
    case WTwoByte(units, odd) => [TWO_BYTE] + (Varint(2 * |units| + |odd|) + (UnitBytes(units) + odd))
    case WObject(fields, count) => [OBJECT] + (FieldsBytes(fields, OBJECT_END) + Varint(count))
    case WSparse(length, fields, count, length2) =>
      [SPARSE] + (Varint(length) + (FieldsBytes(fields, SPARSE_END) + (Varint(count) + Varint(length2))))
    case WDense(capacity, items, count, length) =>
      [DENSE] + (Varint(capacity) + (ItemsBytes(items) + (Varint(count) + Varint(length))))
    case WReference(id) => [REFERENCE] + Varint(id)
  }

  function FieldsBytes(f: Fields, end: byte): (b: seq<byte>)
    ensures |b| > 0
  {
    match f
    case NoFields => [end]
    case FieldsPadded(rest) => [PADDING] + FieldsBytes(rest, end)
    case Field(k, v, rest) => Bytes(k) + (Bytes(v) + FieldsBytes(rest, end))
  }

  function ItemsBytes(s: Items): (b: seq<byte>)
    ensures |b| > 0
  {
    match s
    case NoItems => [DENSE_END]
    case ItemsPadded(rest) => [PADDING] + ItemsBytes(rest)
    case Item(v, rest) => Bytes(v) + ItemsBytes(rest)
  }

  // ---------------------------------------------------------------------------
  // Where what was written stands
  // ---------------------------------------------------------------------------

  /** Where w ends if it stands in b at position i: its tags and numbers are read there, one after the other. */
  function End(w: Written, b: seq<byte>, i: nat): (r: Option<nat>)
    ensures r.Some? ==> i < r.value <= |b|
    decreases w, 0
  {
    if i >= |b| || b[i] != Tag(w) then None
    else
      match w
      case WPadded(inner) => End(inner, b, i + 1)
      case WVersioned(v, inner) =>
        var at := Past(b, i + 1, v);
        if at.None? then None else End(inner, b, at.value)
      case WNull | WUndefined | WBool(_) => Some(i + 1)
      case WInt32(z) => Past(b, i + 1, Zigzag(z))
      case WUint32(n) => Past(b, i + 1, n)
      case WReference(id) => Past(b, i + 1, id)
      case WDouble(bits) => PastRun(Take(b, i + 1, 8), bits)
      case WDate(bits) => PastRun(Take(b, i + 1, 8), bits)
      case WOneByte(bytes) => PastRun(ReadRun(b, i + 1), bytes)
      case WUtf8(bytes) => PastRun(ReadRun(b, i + 1), bytes)
      case WTwoByte(units, odd) => PastRun(ReadRun(b, i + 1), UnitBytes(units) + odd)
      case WObject(fields, count) => ThenPast(b, FieldsEnd(fields, OBJECT_END, b, i + 1), count)
      case WSparse(n, fields, count, length) =>
        var at := Past(b, i + 1, n);
        if at.None? then None
        else ThenPast(b, ThenPast(b, FieldsEnd(fields, SPARSE_END, b, at.value), count), length)
      case WDense(n, items, count, length) =>
        var at := Past(b, i + 1, n);
        if at.None? then None else ThenPast(b, ThenPast(b, ItemsEnd(items, b, at.value), count), length)
  }

  function FieldsEnd(f: Fields, end: byte, b: seq<byte>, i: nat): (r: Option<nat>)
    ensures r.Some? ==> i < r.value <= |b|
    decreases f, 0
  {
    match f
    case NoFields => if i < |b| && b[i] == end then Some(i + 1) else None
    case FieldsPadded(rest) => if i < |b| && b[i] == PADDING then FieldsEnd(rest, end, b, i + 1) else None
    case Field(k, v, rest) =>
      var at := End(k, b, i);
      if at.None? then None
      else
        var next := End(v, b, at.value);
        if next.None? then None else FieldsEnd(rest, end, b, next.value)
  }

  function ItemsEnd(s: Items, b: seq<byte>, i: nat): (r: Option<nat>)
    ensures r.Some? ==> i < r.value <= |b|
    decreases s, 0
  {
    match s
    case NoItems => if i < |b| && b[i] == DENSE_END then Some(i + 1) else None
    case ItemsPadded(rest) => if i < |b| && b[i] == PADDING then ItemsEnd(rest, b, i + 1) else None
    case Item(v, rest) =>
      var at := End(v, b, i);
      if at.None? then None else ItemsEnd(rest, b, at.value)
  }

  function Tag(w: Written): byte {
    match w
    case WPadded(_) => PADDING
    case WVersioned(_, _) => VERSION
    case WNull => NULL
    case WUndefined => UNDEFINED
    case WBool(b) => if b then TRUE else FALSE
    case WInt32(_) => INT32
    case WUint32(_) => UINT32
    case WDouble(_) => DOUBLE
    case WDate(_) => DATE
    case WOneByte(_) => ONE_BYTE
    case WUtf8(_) => UTF8
    case WTwoByte(_, _) => TWO_BYTE
    case WObject(_, _) => OBJECT
    case WSparse(_, _, _, _) => SPARSE
    case WDense(_, _, _, _) => DENSE
    case WReference(_) => REFERENCE
  }

  /** Past the varint of this number, if that is what is there. */
  function Past(b: seq<byte>, i: nat, n: nat): (r: Option<nat>)
    ensures r.Some? ==> i < r.value <= |b|
  {
    var v := ReadVarint(b, i);
    if v.Got? && v.value == n then Some(v.next) else None
  }

  function ThenPast(b: seq<byte>, at: Option<nat>, n: nat): (r: Option<nat>)
    ensures r.Some? ==> at.Some? && at.value < r.value <= |b|
  {
    if at.None? then None else Past(b, at.value, n)
  }

  function PastRun(r: Read<seq<byte>>, bytes: seq<byte>): Option<nat> {
    if r.Got? && r.value == bytes then Some(r.next) else None
  }

  // In the lemmas that follow, s is what was written, and parts of it have names of their own.

  lemma PastVarint(b: seq<byte>, i: nat, n: nat, s: seq<byte>)
    requires n < TWO_TO_64 && s == Varint(n) && At(b, i, s)
    ensures Past(b, i, n) == Some(i + |s|)
  {
    VarintAt(b, i, n, s);
  }

  lemma PastTwo(b: seq<byte>, i: nat, inner: seq<byte>, n: nat, nb: seq<byte>, m: nat, mb: seq<byte>)
    requires n < TWO_TO_64 && nb == Varint(n) && m < TWO_TO_64 && mb == Varint(m) && At(b, i, inner + (nb + mb))
    ensures At(b, i, inner) && ThenPast(b, ThenPast(b, Some(i + |inner|), n), m) == Some(i + |inner| + |nb| + |mb|)
  {
    hide At, Varint, ReadVarint;
    AtSplit(b, i, inner, nb + mb);
    AtSplit(b, i + |inner|, nb, mb);
    PastVarint(b, i + |inner|, n, nb);
    PastVarint(b, i + |inner| + |nb|, m, mb);
  }

  lemma PastOne(b: seq<byte>, i: nat, inner: seq<byte>, n: nat, nb: seq<byte>)
    requires n < TWO_TO_64 && nb == Varint(n) && At(b, i, inner + nb)
    ensures At(b, i, inner) && ThenPast(b, Some(i + |inner|), n) == Some(i + |inner| + |nb|)
  {
    hide At, Varint, ReadVarint;
    AtSplit(b, i, inner, nb);
    PastVarint(b, i + |inner|, n, nb);
  }

  lemma PastFirst(b: seq<byte>, i: nat, n: nat, nb: seq<byte>, more: seq<byte>)
    requires n < TWO_TO_64 && nb == Varint(n) && At(b, i, nb + more)
    ensures Past(b, i, n) == Some(i + |nb|) && At(b, i + |nb|, more)
  {
    hide At, Varint, ReadVarint;
    AtSplit(b, i, nb, more);
    PastVarint(b, i, n, nb);
  }

  lemma RunStands(b: seq<byte>, i: nat, run: seq<byte>, nb: seq<byte>)
    requires IsSlice(b) && IsSlice(run) && nb == Varint(|run|) && At(b, i, nb + run)
    ensures PastRun(ReadRun(b, i), run) == Some(i + |nb| + |run|)
  {
    RunRoundTrip(b, i, run, nb);
  }

  /** Where the bytes of a value are, the value stands, and ends where they do. */
  lemma {:induction false} WrittenStands(w: Written, objects: nat, b: seq<byte>, i: nat, s: seq<byte>)
    requires WellFormed(w, objects) && s == Bytes(w) && IsSlice(b) && At(b, i, s)
    ensures End(w, b, i) == Some(i + |s|)
    decreases w, 0
  {
    hide At, Varint, ReadVarint;
    match w {
      case WPadded(inner) =>
        var rest := Bytes(inner);
        AtHead(b, i, PADDING, rest);
        WrittenStands(inner, objects, b, i + 1, rest);
      case WVersioned(v, inner) =>
        var nb, rest := Varint(v), Bytes(inner);
        AtHead(b, i, VERSION, nb + rest);
        PastFirst(b, i + 1, v, nb, rest);
        WrittenStands(inner, objects, b, i + 1 + |nb|, rest);
      case WObject(fields, count) =>
        var inner, nb := FieldsBytes(fields, OBJECT_END), Varint(count);
        AtHead(b, i, OBJECT, inner + nb);
        PastOne(b, i + 1, inner, count, nb);
        FieldsStand(fields, objects + 1, OBJECT_END, b, i + 1, inner);
      case WSparse(_, _, _, _) => SparseStands(w, objects, b, i, s);
      case WDense(_, _, _, _) => DenseStands(w, objects, b, i, s);
      case _ => LeafStands(w, objects, b, i, s);
    }
  }

  predicate IsLeaf(w: Written) {
    !w.WPadded? && !w.WVersioned? && !w.WObject? && !w.WSparse? && !w.WDense?
  }

  lemma LeafStands(w: Written, objects: nat, b: seq<byte>, i: nat, s: seq<byte>)
    requires WellFormed(w, objects) && IsLeaf(w) && s == Bytes(w) && IsSlice(b) && At(b, i, s)
    ensures End(w, b, i) == Some(i + |s|)
  {
    hide Varint, ReadVarint, ReadRun;
    var rest := s[1..];
    assert s == [Tag(w)] + rest;
    AtHead(b, i, Tag(w), rest);
    match w {
      case WInt32(z) => PastVarint(b, i + 1, Zigzag(z), rest);
      case WUint32(n) => PastVarint(b, i + 1, n, rest);
      case WReference(id) => PastVarint(b, i + 1, id, rest);
      case WDouble(bits) => assert Take(b, i + 1, 8) == Got(bits, i + 9);
      case WDate(bits) => assert Take(b, i + 1, 8) == Got(bits, i + 9);
      case WOneByte(bytes) => RunStands(b, i + 1, bytes, Varint(|bytes|));
      case WUtf8(bytes) => RunStands(b, i + 1, bytes, Varint(|bytes|));
      case WTwoByte(units, odd) => RunStands(b, i + 1, UnitBytes(units) + odd, Varint(2 * |units| + |odd|));
      case _ =>
    }
  }

  lemma {:induction false} SparseStands(w: Written, objects: nat, b: seq<byte>, i: nat, s: seq<byte>)
    requires w.WSparse? && WellFormed(w, objects) && s == Bytes(w) && IsSlice(b) && At(b, i, s)
    ensures End(w, b, i) == Some(i + |s|)
    decreases w.fields, 2
  {
    hide At, Varint, ReadVarint;
    var inner := FieldsBytes(w.fields, SPARSE_END);
    var nb, cb, mb := Varint(w.length), Varint(w.count), Varint(w.length2);
    AtHead(b, i, SPARSE, nb + (inner + (cb + mb)));
    PastFirst(b, i + 1, w.length, nb, inner + (cb + mb));
    PastTwo(b, i + 1 + |nb|, inner, w.count, cb, w.length2, mb);
    FieldsStand(w.fields, objects + 1, SPARSE_END, b, i + 1 + |nb|, inner);
  }

  lemma {:induction false} DenseStands(w: Written, objects: nat, b: seq<byte>, i: nat, s: seq<byte>)
    requires w.WDense? && WellFormed(w, objects) && s == Bytes(w) && IsSlice(b) && At(b, i, s)
    ensures End(w, b, i) == Some(i + |s|)
    decreases w.items, 2
  {
    hide At, Varint, ReadVarint;
    var inner := ItemsBytes(w.items);
    var nb, cb, mb := Varint(w.capacity), Varint(w.count), Varint(w.length);
    AtHead(b, i, DENSE, nb + (inner + (cb + mb)));
    PastFirst(b, i + 1, w.capacity, nb, inner + (cb + mb));
    PastTwo(b, i + 1 + |nb|, inner, w.count, cb, w.length, mb);
    ItemsStand(w.items, objects + 1, b, i + 1 + |nb|, inner);
  }

  lemma {:induction false} FieldsStand(f: Fields, objects: nat, end: byte, b: seq<byte>, i: nat, s: seq<byte>)
    requires FieldsWellFormed(f, objects) && s == FieldsBytes(f, end) && IsSlice(b) && At(b, i, s)
    ensures FieldsEnd(f, end, b, i) == Some(i + |s|)
    decreases f, 1
  {
    hide At, Varint, ReadVarint;
    match f {
      case NoFields =>
        assert [end] + [] == s;
        AtHead(b, i, end, []);
      case FieldsPadded(rest) =>
        AtHead(b, i, PADDING, FieldsBytes(rest, end));
        FieldsStand(rest, objects, end, b, i + 1, FieldsBytes(rest, end));
      case Field(_, _, _) => FieldStands(f, objects, end, b, i, s);
    }
  }

  lemma {:induction false} FieldStands(f: Fields, objects: nat, end: byte, b: seq<byte>, i: nat, s: seq<byte>)
    requires f.Field? && FieldsWellFormed(f, objects) && s == FieldsBytes(f, end) && IsSlice(b) && At(b, i, s)
    ensures FieldsEnd(f, end, b, i) == Some(i + |s|)
    decreases f, 0
  {
    hide At, Varint, ReadVarint;
    var kb, vb, rb := Bytes(f.key), Bytes(f.value), FieldsBytes(f.rest, end);
    AtSplit(b, i, kb, vb + rb);
    AtSplit(b, i + |kb|, vb, rb);
    hide Bytes;
    WrittenStands(f.key, objects, b, i, kb);
    WrittenStands(f.value, objects + Objects(f.key), b, i + |kb|, vb);
    FieldsStand(f.rest, objects + Objects(f.key) + Objects(f.value), end, b, i + |kb| + |vb|, rb);
  }

  lemma {:induction false} ItemsStand(f: Items, objects: nat, b: seq<byte>, i: nat, s: seq<byte>)
    requires ItemsWellFormed(f, objects) && s == ItemsBytes(f) && IsSlice(b) && At(b, i, s)
    ensures ItemsEnd(f, b, i) == Some(i + |s|)
    decreases f, 1
  {
    hide At, Varint, ReadVarint;
    match f {
      case NoItems =>
        assert [DENSE_END] + [] == s;
        AtHead(b, i, DENSE_END, []);
      case ItemsPadded(rest) =>
        AtHead(b, i, PADDING, ItemsBytes(rest));
        ItemsStand(rest, objects, b, i + 1, ItemsBytes(rest));
      case Item(v, rest) =>
        var vb, rb := Bytes(v), ItemsBytes(rest);
        AtSplit(b, i, vb, rb);
        WrittenStands(v, objects, b, i, vb);
        ItemsStand(rest, objects + Objects(v), b, i + |vb|, rb);
    }
  }

  // ---------------------------------------------------------------------------
  // Decoding what stands there
  // ---------------------------------------------------------------------------

  /** Where reading should end up: at the value and its end, or nowhere. */
  function Outcome<T>(m: Meant<T>, next: nat): Result<T> {
    if m.Stuck? then Err(Endless) else Ok(m.value, next, m.table)
  }

  lemma {:induction false} UnitsRoundTrip(units: seq<Unit>, odd: seq<byte>)
    requires |odd| < 2
    ensures Units(UnitBytes(units) + odd) == units
  {
    if units != [] {
      UnitsRoundTrip(units[1..], odd);
      assert (UnitBytes(units) + odd)[2..] == UnitBytes(units[1..]) + odd;
      assert [units[0]] + units[1..] == units;
    }
  }

  predicate IsTag(c: byte) {
    c in [VERSION, UNDEFINED, NULL, TRUE, FALSE, INT32, UINT32, DOUBLE, DATE, ONE_BYTE, TWO_BYTE, UTF8, OBJECT, DENSE,
          SPARSE, REFERENCE]
  }

  /** Behind its padding, what is written begins with a tag, never with the end of an object or an array. */
  lemma {:induction false} BeginsWithTag(w: Written, b: seq<byte>, i: nat)
    requires End(w, b, i).Some?
    ensures i <= |b| && SkipPadding(b, i) < |b| && IsTag(b[SkipPadding(b, i)])
  {
    if w.WPadded? {
      BeginsWithTag(w.inner, b, i + 1);
    }
  }

  lemma LeafReads(lib: Library, w: Written, t: Table, b: seq<byte>, i: nat, next: nat)
    requires WellFormed(w, |t|) && IsLeaf(w) && End(w, b, i) == Some(next)
    ensures Decode(lib, b, i, t) == Outcome(Meaning(lib, w, t), next)
  {
    hide ReadVarint, ReadRun;
    assert Decode(lib, b, i, t) == DecodeLeaf(b, i, t);
    match w {
      case WInt32(z) => ZigzagInverse(z);
      case WTwoByte(units, odd) => UnitsRoundTrip(units, odd);
      case _ =>
    }
  }

  /** Reading a value, the properties of an object, the items of an array: by the structure of what was written. */
  lemma {:induction false} WrittenReads(lib: Library, w: Written, t: Table, b: seq<byte>, i: nat, next: nat)
    requires WellFormed(w, |t|) && End(w, b, i) == Some(next)
    ensures i <= |b| && Decode(lib, b, i, t) == Outcome(Meaning(lib, w, t), next)
    decreases w, 0
  {
    hide ReadVarint, DecodeLeaf;
    match w {
      case WPadded(inner) => WrittenReads(lib, inner, t, b, i + 1, next);
      case WVersioned(v, inner) => WrittenReads(lib, inner, t, b, Past(b, i + 1, v).value, next);
      case WObject(_, _) => ObjectReads(lib, w, t, b, i, next);
      case WSparse(_, _, _, _) => SparseReads(lib, w, t, b, i, next);
      case WDense(_, _, _, _) => DenseReads(lib, w, t, b, i, next);
      case _ => LeafReads(lib, w, t, b, i, next);
    }
  }

  lemma {:induction false} ObjectReads(lib: Library, w: Written, t: Table, b: seq<byte>, i: nat, next: nat)
    requires w.WObject? && WellFormed(w, |t|) && End(w, b, i) == Some(next)
    ensures i <= |b| && Decode(lib, b, i, t) == Outcome(Meaning(lib, w, t), next)
    decreases w.fields, 2
  {
    hide ReadVarint, DecodeLeaf;
    FieldsRead(lib, w.fields, |t|, t + [AMap([])], OBJECT_END, b, i + 1, FieldsEnd(w.fields, OBJECT_END, b, i + 1).value);
  }

  lemma {:induction false} SparseReads(lib: Library, w: Written, t: Table, b: seq<byte>, i: nat, next: nat)
    requires w.WSparse? && WellFormed(w, |t|) && End(w, b, i) == Some(next)
    ensures i <= |b| && Decode(lib, b, i, t) == Outcome(Meaning(lib, w, t), next)
    decreases w.fields, 2
  {
    hide ReadVarint, DecodeLeaf;
    var at := Past(b, i + 1, w.length).value;
    FieldsRead(lib, w.fields, |t|, t + [AMap([])], SPARSE_END, b, at, FieldsEnd(w.fields, SPARSE_END, b, at).value);
  }

  lemma {:induction false} DenseReads(lib: Library, w: Written, t: Table, b: seq<byte>, i: nat, next: nat)
    requires w.WDense? && WellFormed(w, |t|) && End(w, b, i) == Some(next)
    ensures i <= |b| && Decode(lib, b, i, t) == Outcome(Meaning(lib, w, t), next)
    decreases w.items, 2
  {
    hide ReadVarint, DecodeLeaf;
    var at := Past(b, i + 1, w.capacity).value;
    ItemsRead(lib, w.items, t + [AList], b, at, ItemsEnd(w.items, b, at).value);
  }

  lemma {:induction false} FieldsRead(lib: Library, f: Fields, id: nat, t: Table, end: byte, b: seq<byte>, i: nat, next: nat)
    requires FieldsWellFormed(f, |t|) && id < |t| && FieldsEnd(f, end, b, i) == Some(next)
    requires end == OBJECT_END || end == SPARSE_END
    ensures i <= |b| && DecodeFields(lib, b, i, t, id, end) == Outcome(Filled(lib, f, id, t), next)
    decreases f, 1
  {
    hide ReadVarint, DecodeLeaf;
    match f {
      case NoFields =>
      case FieldsPadded(rest) => FieldsRead(lib, rest, id, t, end, b, i + 1, next);
      case Field(k, v, rest) => FieldReads(lib, f, id, t, end, b, i, End(k, b, i).value, next);
    }
  }

  lemma {:induction false} FieldReads(lib: Library, f: Fields, id: nat, t: Table, end: byte, b: seq<byte>,
                                      i: nat, at: nat, next: nat)
    requires f.Field? && FieldsWellFormed(f, |t|) && id < |t| && FieldsEnd(f, end, b, i) == Some(next)
    requires End(f.key, b, i) == Some(at) && (end == OBJECT_END || end == SPARSE_END)
    ensures i <= |b| && DecodeFields(lib, b, i, t, id, end) == Outcome(Filled(lib, f, id, t), next)
    decreases f, 0
  {
    hide ReadVarint, DecodeLeaf;
    BeginsWithTag(f.key, b, i);
    WrittenReads(lib, f.key, t, b, i, at);
    SkipTwice(lib, b, i, t);
    var key := Meaning(lib, f.key, t);
    if key.Made? {
      BehindKey(lib, f, id, t, end, b, at, key.value, key.table, next);
    }
  }

  /** The value of a field, and, if its key can be printed, the fields behind it. */
  lemma {:induction false} BehindKey(lib: Library, f: Fields, id: nat, t: Table, end: byte, b: seq<byte>, i: nat,
                                     key: Value, t1: Table, next: nat)
    requires f.Field? && FieldsWellFormed(f, |t|) && id < |t| && Meaning(lib, f.key, t) == Made(key, t1)
    requires End(f.value, b, i).Some? && FieldsEnd(f.rest, end, b, End(f.value, b, i).value) == Some(next)
    requires end == OBJECT_END || end == SPARSE_END
    ensures var v := Decode(lib, b, i, t1);
            Outcome(Filled(lib, f, id, t), next) ==
              if v.Err? then v
              else
                var t' := Stored(lib, v.table, id, key, v.value);
                if t'.None? then Err(Endless) else DecodeFields(lib, b, v.next, t'.value, id, end)
    decreases f, 0, 0
  {
    hide ReadVarint, DecodeLeaf, Decode, Stored;
    var at := End(f.value, b, i).value;
    WrittenReads(lib, f.value, t1, b, i, at);
    var value := Meaning(lib, f.value, t1);
    if value.Made? {
      var t' := Stored(lib, value.table, id, key, value.value);
      if t'.Some? {
        FieldsRead(lib, f.rest, id, t'.value, end, b, at, next);
      }
    }
  }

  lemma {:induction false} ItemsRead(lib: Library, f: Items, t: Table, b: seq<byte>, i: nat, next: nat)
    requires ItemsWellFormed(f, |t|) && ItemsEnd(f, b, i) == Some(next)
    ensures i <= |b| && DecodeItems(lib, b, i, t) == Outcome(ItemsMeaning(lib, f, t), next)
    decreases f, 1
  {
    hide ReadVarint, DecodeLeaf;
    match f {
      case NoItems =>
      case ItemsPadded(rest) => ItemsRead(lib, rest, t, b, i + 1, next);
      case Item(v, rest) =>
        var at := End(v, b, i).value;
        BeginsWithTag(v, b, i);
        WrittenReads(lib, v, t, b, i, at);
        SkipTwice(lib, b, i, t);
        var value := Meaning(lib, v, t);
        if value.Made? {
          ItemsRead(lib, rest, value.table, b, at, next);
        }
    }
  }

  // ---------------------------------------------------------------------------
  // Nothing else is decoded
  // ---------------------------------------------------------------------------

  /** Any bytes are units, but for an odd one at the end. */
  lemma {:induction false} AnyBytesAreUnits(b: seq<byte>) returns (odd: seq<byte>)
    ensures |odd| < 2 && UnitBytes(Units(b)) + odd == b
  {
    if |b| < 2 {
      odd := b;
    } else {
      odd := AnyBytesAreUnits(b[2..]);
      assert b == [b[0], b[1]] + b[2..];
      assert Units(b)[1..] == Units(b[2..]);
    }
  }

  lemma AnyVarintIsZigzag(n: nat)
    ensures Zigzag(Unzigzag(n)) == n
  {
  }

  lemma {:induction false} Padded(w: Written, objects: nat, b: seq<byte>, i: nat, at: nat) returns (p: Written)
    requires i <= |b| && at == SkipPadding(b, i) && WellFormed(w, objects) && End(w, b, at).Some?
    ensures WellFormed(p, objects) && End(p, b, i) == End(w, b, at)
    decreases at - i
  {
    if i == at {
      p := w;
    } else {
      var q := Padded(w, objects, b, i + 1, at);
      p := WPadded(q);
    }
  }

  lemma {:induction false} PaddedFields(f: Fields, objects: nat, end: byte, b: seq<byte>, i: nat, at: nat) returns (p: Fields)
    requires i <= |b| && at == SkipPadding(b, i) && FieldsWellFormed(f, objects) && FieldsEnd(f, end, b, at).Some?
    ensures FieldsWellFormed(p, objects) && FieldsEnd(p, end, b, i) == FieldsEnd(f, end, b, at)
    decreases at - i
  {
    if i == at {
      p := f;
    } else {
      var q := PaddedFields(f, objects, end, b, i + 1, at);
      p := FieldsPadded(q);
    }
  }

  lemma {:induction false} PaddedItems(s: Items, objects: nat, b: seq<byte>, i: nat, at: nat) returns (p: Items)
    requires i <= |b| && at == SkipPadding(b, i) && ItemsWellFormed(s, objects) && ItemsEnd(s, b, at).Some?
    ensures ItemsWellFormed(p, objects) && ItemsEnd(p, b, i) == ItemsEnd(s, b, at)
    decreases at - i
  {
    if i == at {
      p := s;
    } else {
      var q := PaddedItems(s, objects, b, i + 1, at);
      p := ItemsPadded(q);
    }
  }

  /** What is decoded as text stands there. */
  lemma TextStands(b: seq<byte>, at: nat, objects: nat) returns (w: Written)
    requires IsSlice(b) && at < |b| && b[at] in [ONE_BYTE, UTF8, TWO_BYTE] && ReadRun(b, at + 1).Got?
    ensures WellFormed(w, objects) && End(w, b, at).Some?
  {
    var run := ReadRun(b, at + 1).value;
    RunIsSlice(b, at + 1);
    if b[at] == ONE_BYTE {
      w := WOneByte(run);
    } else if b[at] == UTF8 {
      w := WUtf8(run);
    } else {
      var odd := AnyBytesAreUnits(run);
      w := WTwoByte(Units(run), odd);
    }
  }

  lemma RunIsSlice(b: seq<byte>, i: nat)
    requires IsSlice(b) && ReadRun(b, i).Got?
    ensures IsSlice(ReadRun(b, i).value)
  {
  }

  /** What is decoded as a value that contains no others stands there. */
  lemma LeafDecodedStands(lib: Library, b: seq<byte>, at: nat, t: Table) returns (w: Written)
    requires IsSlice(b) && at < |b| && DecodeLeaf(b, at, t).Ok?
    ensures WellFormed(w, |t|) && End(w, b, at).Some?
  {
    hide ReadVarint, ReadRun;
    var tag := b[at];
    var n := ReadVarint(b, at + 1);
    if tag == REFERENCE {
      w := WReference(n.value);
    } else if tag in [ONE_BYTE, UTF8, TWO_BYTE] {
      w := TextStands(b, at, |t|);
    } else if tag == INT32 {
      AnyVarintIsZigzag(n.value);
      w := WInt32(Unzigzag(n.value));
    } else if tag == UINT32 {
      w := WUint32(n.value);
    } else if tag == DOUBLE {
      w := WDouble(Take(b, at + 1, 8).value);
    } else if tag == DATE {
      w := WDate(Take(b, at + 1, 8).value);
    } else if tag in [TRUE, FALSE] {
      w := WBool(tag == TRUE);
    } else {
      w := if tag == NULL then WNull else WUndefined;
    }
  }

  /** Whatever is decoded is written there: there is a way of writing it that stands there. */
  lemma {:induction false} DecodedStands(lib: Library, b: seq<byte>, i: nat, t: Table) returns (w: Written)
    requires IsSlice(b) && i <= |b| && Decode(lib, b, i, t).Ok?
    ensures WellFormed(w, |t|) && End(w, b, i).Some?
    decreases |b| - i, 0, 1
  {
    hide ReadVarint, DecodeLeaf, Stored;
    var at := SkipPadding(b, i);
    var v: Written;
    if b[at] == OBJECT || b[at] == SPARSE {
      v := MapDecodedStands(lib, b, i, at, t);
    } else if b[at] == VERSION {
      var n := ReadVarint(b, at + 1);
      var inner := DecodedStands(lib, b, n.next, t);
      v := WVersioned(n.value, inner);
    } else if b[at] == DENSE {
      v := ListDecodedStands(lib, b, i, at, t);
    } else {
      v := LeafDecodedStands(lib, b, at, t);
    }
    w := Padded(v, |t|, b, i, at);
  }

  /** And read, it is what was decoded. */
  lemma {:induction false} ReadBack(lib: Library, b: seq<byte>, i: nat, t: Table) returns (w: Written)
    requires IsSlice(b) && i <= |b| && Decode(lib, b, i, t).Ok?
    ensures var r := Decode(lib, b, i, t);
            && WellFormed(w, |t|) && End(w, b, i) == Some(r.next)
            && Meaning(lib, w, t) == Made(r.value, r.table) && |r.table| == |t| + Objects(w)
    decreases |b| - i, 1, 0
  {
    hide Decode, End, Meaning, WellFormed;
    w := DecodedStands(lib, b, i, t);
    WrittenReads(lib, w, t, b, i, End(w, b, i).value);
  }

  lemma {:induction false} MapDecodedStands(lib: Library, b: seq<byte>, i: nat, at: nat, t: Table) returns (w: Written)
    requires IsSlice(b) && i <= |b| && at == SkipPadding(b, i) < |b| && b[at] in [OBJECT, SPARSE]
    requires Decode(lib, b, i, t).Ok?
    ensures WellFormed(w, |t|) && End(w, b, at).Some?
    decreases |b| - i, 0, 0
  {
    hide ReadVarint, DecodeLeaf, Stored;
    var end := if b[at] == OBJECT then OBJECT_END else SPARSE_END;
    var n := ReadVarint(b, at + 1);
    var from := if b[at] == OBJECT then at + 1 else n.next;
    var r := DecodeFields(lib, b, from, t + [AMap([])], |t|, end);
    var f := FieldsDecodedStand(lib, b, from, t + [AMap([])], |t|, end);
    FieldsRead(lib, f, |t|, t + [AMap([])], end, b, from, FieldsEnd(f, end, b, from).value);
    var c := ReadVarint(b, r.next);
    w := if b[at] == OBJECT then WObject(f, c.value) else WSparse(n.value, f, c.value, ReadVarint(b, c.next).value);
  }

  lemma {:induction false} ListDecodedStands(lib: Library, b: seq<byte>, i: nat, at: nat, t: Table) returns (w: Written)
    requires IsSlice(b) && i <= |b| && at == SkipPadding(b, i) < |b| && b[at] == DENSE && Decode(lib, b, i, t).Ok?
    ensures WellFormed(w, |t|) && End(w, b, at).Some?
    decreases |b| - i, 0, 0
  {
    hide ReadVarint, DecodeLeaf, Stored;
    var n := ReadVarint(b, at + 1);
    var r := DecodeItems(lib, b, n.next, t + [AList]);
    var s := ItemsDecodedStand(lib, b, n.next, t + [AList]);
    ItemsRead(lib, s, t + [AList], b, n.next, ItemsEnd(s, b, n.next).value);
    var c := ReadVarint(b, r.next);
    w := WDense(n.value, s, c.value, ReadVarint(b, c.next).value);
  }

  lemma {:induction false} FieldsDecodedStand(lib: Library, b: seq<byte>, i: nat, t: Table, id: nat, end: byte)
    returns (f: Fields)
    requires IsSlice(b) && i <= |b| && id < |t| && DecodeFields(lib, b, i, t, id, end).Ok?
    requires end == OBJECT_END || end == SPARSE_END
    ensures FieldsWellFormed(f, |t|) && FieldsEnd(f, end, b, i).Some?
    decreases |b| - i, 2
  {
    hide ReadVarint, DecodeLeaf, Stored;
    var at := SkipPadding(b, i);
    var g := NoFields;
    if b[at] != end {
      var k := Decode(lib, b, at, t);
      var key := ReadBack(lib, b, at, t);
      var v := Decode(lib, b, k.next, k.table);
      var value := ReadBack(lib, b, k.next, k.table);
      var t' := Stored(lib, v.table, id, k.value, v.value);
      var rest := FieldsDecodedStand(lib, b, v.next, t'.value, id, end);
      g := Field(key, value, rest);
    }
    f := PaddedFields(g, |t|, end, b, i, at);
  }

  lemma {:induction false} ItemsDecodedStand(lib: Library, b: seq<byte>, i: nat, t: Table) returns (s: Items)
    requires IsSlice(b) && i <= |b| && DecodeItems(lib, b, i, t).Ok?
    ensures ItemsWellFormed(s, |t|) && ItemsEnd(s, b, i).Some?
    decreases |b| - i, 2
  {
    hide ReadVarint, DecodeLeaf, Stored;
    var at := SkipPadding(b, i);
    var g := NoItems;
    if b[at] != DENSE_END {
      var v := Decode(lib, b, at, t);
      var value := ReadBack(lib, b, at, t);
      var rest := ItemsDecodedStand(lib, b, v.next, v.table);
      g := Item(value, rest);
    }
    s := PaddedItems(g, |t|, b, i, at);
  }

  /** This way of writing a value stands at i, ends at next and means this. */
  ghost predicate Stands(lib: Library, w: Written, b: seq<byte>, i: nat, t: Table, v: Value, next: nat, t': Table) {
    WellFormed(w, |t|) && End(w, b, i) == Some(next) && Meaning(lib, w, t) == Made(v, t')
  }

  /**
   A value is decoded, with these maps and up to there, if and only if there is a way
   of writing it that stands there, ends there and means that. So nothing is decoded
   that cannot be written, and nothing is decoded as anything else.
   */
  lemma DecodesIff(lib: Library, b: seq<byte>, i: nat, t: Table, v: Value, next: nat, t': Table)
    requires IsSlice(b) && i <= |b|
    ensures (Decode(lib, b, i, t) == Ok(v, next, t')) <==> exists w :: Stands(lib, w, b, i, t, v, next, t')
  {
    hide Decode, End, Meaning;
    if Decode(lib, b, i, t) == Ok(v, next, t') {
      var w := DecodedStands(lib, b, i, t);
      WrittenReads(lib, w, t, b, i, End(w, b, i).value);
      assert Stands(lib, w, b, i, t, v, next, t');
    } else if exists w :: Stands(lib, w, b, i, t, v, next, t') {
      var w :| Stands(lib, w, b, i, t, v, next, t');
      WrittenReads(lib, w, t, b, i, next);
    }
  }

  /** Behind the varint a record begins with, this value is written, with these maps. */
  ghost predicate Records(lib: Library, raw: seq<byte>, v: Value, maps: Table) {
    ReadVarint(raw, 0).Got? && exists w, next: nat :: Stands(lib, w, raw, ReadVarint(raw, 0).next, [], v, next, maps)
  }

  /** A record body is decoded to a value with these maps if and only if that is what is written in it. */
  lemma RecordDecodesIff(lib: Library, raw: seq<byte>, v: Value, maps: Table)
    requires IsSlice(raw)
    ensures Records(lib, raw, v, maps) <==>
              DecodeValue(lib, raw).Ok? && DecodeValue(lib, raw).value == v && DecodeValue(lib, raw).table == maps
  {
    hide Stands, Decode, ReadVarint;
    var r := DecodeValue(lib, raw);
    if Records(lib, raw, v, maps) {
      var at := ReadVarint(raw, 0).next;
      var w, next: nat :| Stands(lib, w, raw, at, [], v, next, maps);
      DecodesIff(lib, raw, at, [], v, next, maps);
    } else if r.Ok? {
      DecodesIff(lib, raw, ReadVarint(raw, 0).next, [], r.value, r.next, r.table);
    }
  }

  /** A record body is read back as the value and the maps that were written into it, if their keys can be printed. */
  lemma RecordRoundTrips(lib: Library, prefix: nat, w: Written, after: seq<byte>)
    requires prefix < TWO_TO_64 && WellFormed(w, 0) && IsSlice(Varint(prefix) + (Bytes(w) + after))
    ensures DecodeValue(lib, Varint(prefix) + (Bytes(w) + after)) ==
              Outcome(Meaning(lib, w, []), |Varint(prefix)| + |Bytes(w)|)
  {
    hide At, Bytes, Varint, Meaning, End;
    var p, s := Varint(prefix), Bytes(w);
    RecordStands(prefix, p, w, s, after);
    WrittenReads(lib, w, [], p + (s + after), |p|, |p| + |s|);
  }

  lemma PastReads(b: seq<byte>, i: nat, n: nat)
    requires Past(b, i, n).Some?
    ensures ReadVarint(b, i) == Got(n, Past(b, i, n).value)
  {
  }

  lemma WholeAt(raw: seq<byte>)
    ensures At(raw, 0, raw)
  {
    assert raw[0..|raw|] == raw;
  }

  lemma RecordStands(prefix: nat, p: seq<byte>, w: Written, s: seq<byte>, after: seq<byte>)
    requires prefix < TWO_TO_64 && p == Varint(prefix) && IsSlice(p + (s + after))
    requires WellFormed(w, 0) && s == Bytes(w)
    ensures ReadVarint(p + (s + after), 0) == Got(prefix, |p|) && End(w, p + (s + after), |p|) == Some(|p| + |s|)
  {
    hide *;
    WholeAt(p + (s + after));
    PastFirst(p + (s + after), 0, prefix, p, s + after);
    PastReads(p + (s + after), 0, prefix);
    AtSplit(p + (s + after), |p|, s, after);
    WrittenStands(w, 0, p + (s + after), |p|, s);
  }
}
