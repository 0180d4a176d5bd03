/**
 Inputs on which the structured-clone decoder never comes back, and how to know
 beforehand that it will: the key of a field may refer to a map that contains itself,
 and is printed without regard to that.
 */
module CloneEndless {
  import opened Common
  import opened ByteReader
  import opened CloneValues
  import opened CloneDecoder
  import opened CloneRoundTrip
  import opened ClonePanics

  // ---------------------------------------------------------------------------
  // Making a value leaves the maps there were alone
  // ---------------------------------------------------------------------------

  /** Nothing but, perhaps, map id is another than before. */
  predicate KeepsAllBut(t: Table, t': Table, id: nat) {
    |t| <= |t'| && forall j | 0 <= j < |t| && j != id :: t'[j] == t[j]
  }

  lemma {:induction false} MakingKeeps(lib: Library, w: Written, t: Table)
    requires WellFormed(w, |t|) && Meaning(lib, w, t).Made?
    ensures KeepsAllBut(t, Meaning(lib, w, t).table, |t|)
    decreases w, 0
  {
    match w {
      case WPadded(inner) => MakingKeeps(lib, inner, t);
      case WVersioned(_, inner) => MakingKeeps(lib, inner, t);
      case WObject(fields, _) => FillingKeeps(lib, fields, |t|, t + [AMap([])]);
      case WSparse(_, fields, _, _) => FillingKeeps(lib, fields, |t|, t + [AMap([])]);
      case WDense(_, items, _, _) => ItemsKeep(lib, items, t + [AList]);
      case _ =>
    }
  }

  lemma {:induction false} FillingKeeps(lib: Library, f: Fields, id: nat, t: Table)
    requires FieldsWellFormed(f, |t|) && id < |t| && Filled(lib, f, id, t).Made?
    ensures KeepsAllBut(t, Filled(lib, f, id, t).table, id)
    decreases f, 0
  {
    match f {
      case NoFields =>
      case FieldsPadded(rest) => FillingKeeps(lib, rest, id, t);
      case Field(k, v, rest) =>
        var key := Meaning(lib, k, t);
        var value := Meaning(lib, v, key.table);
        MakingKeeps(lib, k, t);
        MakingKeeps(lib, v, key.table);
        FillingKeeps(lib, rest, id, Stored(lib, value.table, id, key.value, value.value).value);
    }
  }

  lemma {:induction false} ItemsKeep(lib: Library, s: Items, t: Table)
    requires ItemsWellFormed(s, |t|) && ItemsMeaning(lib, s, t).Made?
    ensures KeepsAllBut(t, ItemsMeaning(lib, s, t).table, |t|)
    decreases s, 0
  {
    match s {
      case NoItems =>
      case ItemsPadded(rest) => ItemsKeep(lib, rest, t);
      case Item(v, rest) =>
        MakingKeeps(lib, v, t);
        ItemsKeep(lib, rest, Meaning(lib, v, t).table);
    }
  }

  // ---------------------------------------------------------------------------
  // It happens
  // ---------------------------------------------------------------------------

  /** An object that has itself under some name, and then itself as a key. */
  function SelfKeyed(name: seq<byte>, value: Written, rest: Fields, count: nat): Written {
    WObject(Field(WOneByte(name), WReference(0), Field(WReference(0), value, rest)), count)
  }

  lemma SelfKeyedIsStuck(lib: Library, name: seq<byte>, value: Written, rest: Fields, count: nat)
    requires WellFormed(SelfKeyed(name, value, rest, count), 0)
    ensures Meaning(lib, SelfKeyed(name, value, rest, count), []) == Stuck
  {
    var t0: Table := [] + [AMap([])];
    var more := Field(WReference(0), value, rest);
    assert FieldsWellFormed(Field(WOneByte(name), WReference(0), more), 1) && FieldsWellFormed(more, 1);
    assert Insert([], name, Map(0)) == [Property(name, Map(0))];
    var t1 := t0[0 := AMap([Property(name, Map(0))])];
    assert Print(lib, t0, Text(name)) == Some(name);
    assert Stored(lib, t0, 0, Text(name), Map(0)) == Some(t1);
    assert Filled(lib, Field(WOneByte(name), WReference(0), more), 0, t0) == Filled(lib, more, 0, t1);
    var made := Meaning(lib, value, t1);
    if made.Made? {
      MakingKeeps(lib, value, t1);
      assert PropertiesOf(made.table, 0)[0].value == Map(0);
      assert Circles(made.table, Map(0), [0, 0]);
      PrintsIff(lib, made.table, Map(0));
    }
  }

  /** Whatever the name, and whatever stands behind the reference that is the key, decoding such an object never ends. */
  lemma SelfKeyedNeverEnds(lib: Library, prefix: nat, name: seq<byte>, value: Written, rest: Fields, count: nat, after: seq<byte>)
    requires prefix < TWO_TO_64 && WellFormed(SelfKeyed(name, value, rest, count), 0)
    requires IsSlice(Varint(prefix) + (Bytes(SelfKeyed(name, value, rest, count)) + after))
    ensures DecodeValue(lib, Varint(prefix) + (Bytes(SelfKeyed(name, value, rest, count)) + after)) == Err(Endless)
  {
    SelfKeyedIsStuck(lib, name, value, rest, count);
    RecordRoundTrips(lib, prefix, SelfKeyed(name, value, rest, count), after);
  }

  /** Twelve bytes of the kind. */
  lemma SmallSelfKeyedNeverEnds(lib: Library, raw: seq<byte>)
    requires raw == [0x00, 0x6f, 0x22, 0x01, 0x61, 0x5e, 0x00, 0x5e, 0x00, 0x30, 0x7b, 0x02]
    ensures DecodeValue(lib, raw) == Err(Endless)
  {
    var w := SelfKeyed([0x61], WNull, NoFields, 2);
    SmallBytes();
    assert raw == Varint(0) + (Bytes(w) + []);
    SelfKeyedNeverEnds(lib, 0, [0x61], WNull, NoFields, 2, []);
  }

  lemma SmallBytes()
    ensures Varint(0) == [0x00]
    ensures Bytes(SelfKeyed([0x61], WNull, NoFields, 2)) ==
              [0x6f, 0x22, 0x01, 0x61, 0x5e, 0x00, 0x5e, 0x00, 0x30, 0x7b, 0x02]
  {
    assert Bytes(WOneByte([0x61])) == [0x22, 0x01, 0x61];
    assert Bytes(WReference(0)) == [0x5e, 0x00] && Bytes(WNull) == [0x30];
    var inner := Field(WReference(0), WNull, NoFields);
    assert FieldsBytes(inner, OBJECT_END) == [0x5e, 0x00, 0x30, 0x7b];
    assert FieldsBytes(Field(WOneByte([0x61]), WReference(0), inner), OBJECT_END) ==
           [0x22, 0x01, 0x61, 0x5e, 0x00, 0x5e, 0x00, 0x30, 0x7b];
  }

  // The same with the name given another value before.

  const LastField: Fields := Field(WReference(0), WNull, NoFields)

  function NextFields(name: seq<byte>): Fields {
    Field(WOneByte(name), WNull, LastField)
  }

  function Overwritten(name: seq<byte>): Written {
    WObject(Field(WOneByte(name), WReference(0), NextFields(name)), 2)
  }

  lemma OverwrittenIsWellFormed(name: seq<byte>)
    requires IsSlice(name)
    ensures FieldsWellFormed(LastField, 1) && FieldsWellFormed(NextFields(name), 1) && WellFormed(Overwritten(name), 0)
  {
    assert Objects(WOneByte(name)) == 0 && Objects(WNull) == 0 && Objects(WReference(0)) == 0;
    assert WellFormed(WOneByte(name), 1) && WellFormed(WNull, 1) && WellFormed(WReference(0), 1);
  }

  /** It is what the map has at that moment that counts: overwritten in time, all is well. */
  lemma OverwrittenIsMade(lib: Library, name: seq<byte>)
    requires IsSlice(name)
    ensures WellFormed(Overwritten(name), 0) && Meaning(lib, Overwritten(name), []).Made?
  {
    var t0: Table := [] + [AMap([])];
    var t1 := t0[0 := AMap([Property(name, Map(0))])];
    var t2 := t0[0 := AMap([Property(name, Null)])];
    OverwrittenIsWellFormed(name);
    StoredFirst(lib, name, t0, t1, t2);
    OneField(lib, WOneByte(name), WReference(0), NextFields(name), t0, Text(name), Map(0), t1);
    OneField(lib, WOneByte(name), WNull, LastField, t1, Text(name), Null, t2);
    LastIsStored(lib, name, t2);
  }

  lemma OneField(lib: Library, k: Written, v: Written, rest: Fields, t: Table, key: Value, value: Value, t': Table)
    requires FieldsWellFormed(Field(k, v, rest), |t|) && 0 < |t|
    requires Meaning(lib, k, t) == Made(key, t) && Meaning(lib, v, t) == Made(value, t)
    requires Stored(lib, t, 0, key, value) == Some(t')
    ensures FieldsWellFormed(rest, |t'|) && Filled(lib, Field(k, v, rest), 0, t) == Filled(lib, rest, 0, t')
  {
    hide Stored;
  }

  lemma LastIsStored(lib: Library, name: seq<byte>, t2: Table)
    requires t2 == [AMap([Property(name, Null)])] && FieldsWellFormed(LastField, 1)
    ensures Filled(lib, LastField, 0, t2).Made?
  {
    forall p: seq<nat>
      ensures !Circles(t2, Map(0), p)
    {
      assert |p| >= 2 ==> !Edge(t2, p[0], p[1]);
    }
    PrintsIff(lib, t2, Map(0));
    hide PrintTo, Insert;
  }

  lemma StoredFirst(lib: Library, name: seq<byte>, t0: Table, t1: Table, t2: Table)
    requires t0 == [AMap([])] && t1 == [AMap([Property(name, Map(0))])] && t2 == [AMap([Property(name, Null)])]
    ensures Stored(lib, t0, 0, Text(name), Map(0)) == Some(t1) && Stored(lib, t1, 0, Text(name), Null) == Some(t2)
  {
    NotBeforeItself(name);
    assert Insert([], name, Map(0)) == [Property(name, Map(0))];
    assert Insert([Property(name, Map(0))], name, Null) == [Property(name, Null)];
    assert Print(lib, t0, Text(name)) == Some(name) == Print(lib, t1, Text(name));
    assert PropertiesOf(t0, 0) == [] && PropertiesOf(t1, 0) == [Property(name, Map(0))];
    assert t0[0 := t1[0]] == t1 && t1[0 := t2[0]] == t2;
  }

  lemma {:induction false} NotBeforeItself(a: seq<byte>)
    ensures !Before(a, a)
  {
    if a != [] {
      NotBeforeItself(a[1..]);
    }
  }

  // ---------------------------------------------------------------------------
  // A guard a caller could check
  // ---------------------------------------------------------------------------

  predicate NoReferences(b: seq<byte>) {
    REFERENCE !in b
  }

  /** Maps are only in maps made before them. */
  ghost predicate Upward(t: Table) {
    forall a: nat, b: nat :: Edge(t, a, b) ==> a < b
  }

  /** The maps in a value were made from here on. */
  ghost predicate HoldsFrom(v: Value, lo: nat) {
    forall id: nat :: Holds(v, id) ==> lo <= id
  }

  lemma {:induction false} PathRises(t: Table, p: seq<nat>, i: nat, j: nat)
    requires Upward(t) && IsPath(t, p) && i < j < |p|
    ensures p[i] < p[j]
    decreases j
  {
    assert Edge(t, p[j - 1], p[j]);
    if i < j - 1 {
      PathRises(t, p, i, j - 1);
    }
  }

  lemma UpwardEnds(t: Table, v: Value)
    requires Upward(t)
    ensures !ReachesCycle(t, v)
  {
    if p: seq<nat> :| Circles(t, v, p) {
      var i :| 0 <= i < |p| - 1 && p[i] == Last(p);
      PathRises(t, p, i, |p| - 1);
    }
  }

  lemma NewMapIsUpward(t: Table, e: Entry)
    requires Upward(t) && (e == AMap([]) || !e.AMap?)
    ensures Upward(t + [e])
  {
    forall a: nat, b: nat | Edge(t + [e], a, b)
      ensures a < b
    {
      assert PropertiesOf(t + [e], a) == PropertiesOf(t, a);
      assert Edge(t, a, b);
    }
  }

  lemma StoringIsUpward(lib: Library, t: Table, id: nat, key: Value, value: Value)
    requires Upward(t) && id < |t| && HoldsFrom(value, id + 1)
    ensures var t' := Stored(lib, t, id, key, value);
            t'.Some? && Upward(t'.value)
  {
    UpwardEnds(t, key);
    PrintsIff(lib, t, key);
    var ps, text := PropertiesOf(t, id), Print(lib, t, key).value;
    var t' := Stored(lib, t, id, key, value).value;
    forall a: nat, b: nat | Edge(t', a, b)
      ensures a < b
    {
      if a == id {
        var qs := Insert(ps, text, value);
        var i :| 0 <= i < |qs| && Holds(qs[i].value, b);
        InsertAddsOne(ps, text, value, qs[i]);
        if qs[i].value != value {
          var j :| 0 <= j < |ps| && ps[j] == qs[i];
          assert Edge(t, a, b);
        }
      } else {
        assert PropertiesOf(t', a) == PropertiesOf(t, a);
        assert Edge(t, a, b);
      }
    }
  }

  /** Made without a reference, a value comes back, and holds no map from before. */
  ghost predicate Fine(r: Result<Value>, lo: nat) {
    if r.Err? then !r.error.Endless? else Upward(r.table) && HoldsFrom(r.value, lo)
  }

  lemma SkippingIsFine(b: seq<byte>, r: Result<Value>, lo: nat)
    requires Fine(r, lo)
    ensures Fine(SkipVarint(b, r), lo)
  {
  }

  lemma LeafIsFine(b: seq<byte>, at: nat, t: Table)
    requires at < |b| && b[at] != REFERENCE && Upward(t)
    ensures Fine(DecodeLeaf(b, at, t), |t|)
  {
    if b[at] == DATE && DecodeLeaf(b, at, t).Ok? {
      NewMapIsUpward(t, ATime(DecodeLeaf(b, at, t).value.bits));
    }
  }

  lemma {:induction false} ValueIsFine(lib: Library, b: seq<byte>, i: nat, t: Table)
    requires NoReferences(b) && i <= |b| && Upward(t)
    ensures Fine(Decode(lib, b, i, t), |t|)
    decreases |b| - i, 0
  {
    hide Upward, ReadVarint;
    var at := SkipPadding(b, i);
    if at < |b| {
      var n := ReadVarint(b, at + 1);
      NewMapIsUpward(t, AMap([]));
      if b[at] == OBJECT {
        FieldsAreFine(lib, b, at + 1, t + [AMap([])], |t|, OBJECT_END);
        SkippingIsFine(b, DecodeFields(lib, b, at + 1, t + [AMap([])], |t|, OBJECT_END), |t|);
      } else if b[at] == VERSION && n.Got? {
        ValueIsFine(lib, b, n.next, t);
      } else if b[at] == SPARSE && n.Got? {
        var fields := DecodeFields(lib, b, n.next, t + [AMap([])], |t|, SPARSE_END);
        FieldsAreFine(lib, b, n.next, t + [AMap([])], |t|, SPARSE_END);
        SkippingIsFine(b, fields, |t|);
        SkippingIsFine(b, SkipVarint(b, fields), |t|);
      } else if b[at] == DENSE && n.Got? {
        ListIsFine(lib, b, n.next, t);
      } else if !Nests(b[at]) {
        LeafIsFine(b, at, t);
      }
    }
  }

  lemma {:induction false} FieldsAreFine(lib: Library, b: seq<byte>, i: nat, t: Table, id: nat, end: byte)
    requires NoReferences(b) && i <= |b| && id < |t| && Upward(t)
    ensures Fine(DecodeFields(lib, b, i, t, id, end), id)
    decreases |b| - i, 1
  {
    hide Upward, Stored;
    var at := SkipPadding(b, i);
    if at < |b| && b[at] != end {
      ValueIsFine(lib, b, at, t);
      var k := Decode(lib, b, at, t);
      if k.Ok? {
        ValueIsFine(lib, b, k.next, k.table);
        var v := Decode(lib, b, k.next, k.table);
        if v.Ok? {
          StoringIsUpward(lib, v.table, id, k.value, v.value);
          FieldsAreFine(lib, b, v.next, Stored(lib, v.table, id, k.value, v.value).value, id, end);
        }
      }
    }
  }

  lemma {:induction false} ListIsFine(lib: Library, b: seq<byte>, i: nat, t: Table)
    requires NoReferences(b) && i <= |b| && Upward(t)
    ensures var list := AsList(DecodeItems(lib, b, i, t + [AList]));
            Fine(SkipVarint(b, SkipVarint(b, list)), |t|)
    decreases |b| - i, 2
  {
    NewMapIsUpward(t, AList);
    ItemsAreFine(lib, b, i, t + [AList]);
    var list := AsList(DecodeItems(lib, b, i, t + [AList]));
    SkippingIsFine(b, list, |t|);
    SkippingIsFine(b, SkipVarint(b, list), |t|);
  }

  lemma {:induction false} ItemsAreFine(lib: Library, b: seq<byte>, i: nat, t: Table)
    requires NoReferences(b) && i <= |b| && Upward(t)
    ensures Fine(AsList(DecodeItems(lib, b, i, t)), |t|)
    decreases |b| - i, 1
  {
    hide Upward;
    var at := SkipPadding(b, i);
    if at < |b| && b[at] != DENSE_END {
      ValueIsFine(lib, b, at, t);
      var v := Decode(lib, b, at, t);
      if v.Ok? {
        ItemsAreFine(lib, b, v.next, v.table);
        var rest := DecodeItems(lib, b, v.next, v.table);
        if rest.Ok? {
          OneMoreItem(v.value, rest.value, |t|);
        }
      }
    }
  }

  lemma OneMoreItem(v: Value, rest: seq<Value>, lo: nat)
    requires HoldsFrom(v, lo) && HoldsFrom(List(rest), lo)
    ensures HoldsFrom(List([v] + rest), lo)
  {
    var all := [v] + rest;
    forall id: nat | Holds(List(all), id)
      ensures lo <= id
    {
      var i :| 0 <= i < |all| && Holds(all[i], id);
      assert i > 0 ==> all[i] == rest[i - 1] && Holds(List(rest), id);
    }
  }

  /** An input without the byte of a reference is decoded to an end. */
  lemma NoReferenceAlwaysEnds(lib: Library, raw: seq<byte>)
    requires NoReferences(raw)
    ensures DecodeValue(lib, raw) != Err(Endless)
  {
    var prefix := ReadVarint(raw, 0);
    if prefix.Got? {
      assert Upward([]);
      ValueIsFine(lib, raw, prefix.next, []);
    }
  }

  /** Nor does one whose keys, as the walk gets to them, are no maps and have none in them. */
  lemma PlainKeysAlwaysEnd(lib: Library, raw: seq<byte>)
    requires IsSlice(raw)
    requires forall v, id: nat | v in WalkRecord(lib, raw) && v.Key? :: !Holds(v.key, id)
    ensures DecodeValue(lib, raw) != Err(Endless)
  {
    DecodeIsEndlessIff(lib, raw);
    forall v | v in WalkRecord(lib, raw) && v.Key?
      ensures !ReachesCycle(v.table, v.key)
    {
      forall p: seq<nat>
        ensures !Circles(v.table, v.key, p)
      {
        assert |p| >= 2 ==> !Holds(v.key, p[0]);
      }
    }
  }

  /** Both guards together: a value or an error, and nothing worse. */
  lemma GuardedInputIsDecoded(lib: Library, raw: seq<byte>)
    requires NoReferences(raw) && |raw| < TWO_TO_63 / 2 && forall i :: !LongVarintAt(raw, i)
    ensures DecodeValue(lib, raw).Ok? ||
            DecodeValue(lib, raw).error in [EndOfValue, VarintOverflow, ValueTruncated, BadReference, BadTag]
  {
    NoReferenceAlwaysEnds(lib, raw);
    ShortVarintsNeverPanic(lib, raw);
  }
}
