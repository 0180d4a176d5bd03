/** The decoder as the code has it: a cursor that moves, and a table that grows, while it recurses. */
module CloneReader {
  import opened Common
  import opened ByteReader
  import opened CloneDecoder
  import CloneRoundTrip
  import opened CloneValues

  /** A value, or why there is none. */
  datatype Decoded<+T> = Done(value: T) | Bad(error: DecodeError)

  class Decoder {
    const lib: Library
    const reader: Reader
    var objects: Table     // the back-references, with the maps as filled so far

    ghost predicate Valid()
      reads this, reader
    {
      reader.Valid()
    }

    constructor (lib: Library, raw: seq<byte>)
      ensures Valid() && fresh(reader) && this.lib == lib && reader.b == raw && reader.i == 0 && objects == []
    {
      this.lib := lib;
      reader := new Reader(raw, 0);
      objects := [];
    }

    /** The outcome of a step is what the specification says, and so is where the cursor and the table are. */
    ghost predicate Matches<T>(d: Decoded<T>, r: Result<T>)
      reads this, reader
    {
      if d.Bad? then r == Err(d.error) else r == Ok(d.value, reader.i, objects)
    }

    method SkipPad()
      requires Valid()
      modifies reader
      ensures Valid() && old(reader.i) <= reader.i == SkipPadding(reader.b, old(reader.i))
    {
      while reader.i < |reader.b| && reader.b[reader.i] == PADDING
        invariant Valid() && old(reader.i) <= reader.i
        invariant SkipPadding(reader.b, reader.i) == SkipPadding(reader.b, old(reader.i))
        decreases |reader.b| - reader.i
      {
        reader.i := reader.i + 1;
      }
    }

    /** A length and that many bytes. */
    method Run() returns (d: Read<seq<byte>>)
      requires Valid()
      modifies reader
      ensures Valid() && d == ReadRun(reader.b, old(reader.i)) && old(reader.i) <= reader.i
      ensures d.Got? ==> reader.i == d.next
    {
      var n := reader.Varint();
      if n.Failed? {
        return Failed(n.error);
      }
      d := reader.TakeBytes(n.value);
    }

    method Value() returns (d: Decoded<Value>)
      requires Valid()
      modifies this, reader
      ensures Valid() && old(reader.i) <= reader.i && Matches(d, Decode(lib, reader.b, old(reader.i), old(objects)))
      decreases |reader.b| - reader.i, 0
    {
      hide ReadVarint, DecodeLeaf, DecodeFields, DecodeItems, Stored, Continued, NumberOf;
      SkipTwice(lib, reader.b, reader.i, objects);
      SkipPad();
      var t := reader.Byte();
      if t.Failed? {
        return Bad(t.error);
      }
      if t.value == VERSION {
        var v := reader.Varint();
        if v.Failed? {
          return Bad(v.error);
        }
        d := Value();
      } else if t.value == OBJECT {
        objects := objects + [AMap([])];
        d := Properties(|objects| - 1, OBJECT_END);
        if d.Done? {
          d := SkipCount(d.value);
        }
      } else if t.value == SPARSE {
        var n := reader.Varint();
        if n.Failed? {
          return Bad(n.error);
        }
        objects := objects + [AMap([])];
        d := Properties(|objects| - 1, SPARSE_END);
        if d.Done? {
          d := SkipTwoCounts(d.value);
        }
      } else if t.value == DENSE {
        var n := reader.Varint();
        if n.Failed? {
          return Bad(n.error);
        }
        if ToInt64(n.value) < 0 {
          return Bad(Panic(CapOutOfRange));
        }
        objects := objects + [AList];
        var items := Elements();
        if items.Bad? {
          return Bad(items.error);
        }
        d := SkipTwoCounts(List(items.value));
      } else {
        d := Leaf(t.value);
      }
    }

    /** The rest of a value that contains no others. */
    method Leaf(t: byte) returns (d: Decoded<Value>)
      requires 0 < reader.i && Valid() && reader.b[reader.i - 1] == t && t != PADDING
      requires t !in [VERSION, OBJECT, SPARSE, DENSE]
      modifies this, reader
      ensures Valid() && old(reader.i) <= reader.i && Matches(d, Decode(lib, reader.b, old(reader.i) - 1, old(objects)))
    {
      hide ReadVarint, ReadRun, Continued, NumberOf;
      if t == REFERENCE {
        var n := reader.Varint();
        if n.Failed? {
          return Bad(n.error);
        }
        d := if ToInt64(n.value) >= |objects| then Bad(BadReference)
             else if n.value >= |objects| then Bad(Panic(IndexOutOfRange))
             else Done(Deref(objects, n.value));
      } else if t == ONE_BYTE || t == UTF8 || t == TWO_BYTE {
        var s := Run();
        d := if s.Failed? then Bad(s.error) else Done(if t == TWO_BYTE then WideText(Units(s.value)) else Text(s.value));
      } else if t == INT32 || t == UINT32 {
        var n := reader.Varint();
        d := if n.Failed? then Bad(n.error) else Done(Int(if t == INT32 then Unzigzag(n.value) else ToInt64(n.value)));
      } else if t == DOUBLE || t == DATE {
        var s := reader.TakeBytes(8);
        if s.Failed? {
          return Bad(s.error);
        }
        if t == DATE {
          objects := objects + [ATime(s.value)];
        }
        d := Done(if t == DATE then Date(s.value) else Double(s.value));
      } else if t == TRUE || t == FALSE {
        d := Done(Bool(t == TRUE));
      } else if t == NULL || t == UNDEFINED {
        d := Done(Null);
      } else {
        d := Bad(BadTag);
      }
    }

    /** The properties of an object or a sparse array, put into its map, and its end tag. */
    method Properties(id: nat, end: byte) returns (d: Decoded<Value>)
      requires Valid() && id < |objects|
      modifies this, reader
      ensures Valid() && old(reader.i) <= reader.i
      ensures Matches(d, DecodeFields(lib, reader.b, old(reader.i), old(objects), id, end))
      decreases |reader.b| - reader.i, 2
    {
      while true
        invariant Valid() && old(reader.i) <= reader.i && id < |objects|
        invariant DecodeFields(lib, reader.b, reader.i, objects, id, end) ==
                  DecodeFields(lib, reader.b, old(reader.i), old(objects), id, end)
        decreases |reader.b| - reader.i
      {
        SkipTwiceInFields(lib, reader.b, reader.i, objects, id, end);
        SkipPad();
        if reader.i >= |reader.b| {
          return Bad(EndOfValue);
        }
        if reader.b[reader.i] == end {
          reader.i := reader.i + 1;
          return Done(Map(id));
        }
        var k := Value();
        if k.Bad? {
          return Bad(k.error);
        }
        var v := Value();
        if v.Bad? {
          return Bad(v.error);
        }
        var printed := Print(lib, objects, k.value);
        if printed.None? {
          return Bad(Endless);
        }
        objects := objects[id := AMap(Insert(PropertiesOf(objects, id), printed.value, v.value))];
      }
    }

    /** The elements of a dense array, and its end tag. */
    method Elements() returns (d: Decoded<seq<Value>>)
      requires Valid()
      modifies this, reader
      ensures Valid() && old(reader.i) <= reader.i
      ensures Matches(d, DecodeItems(lib, reader.b, old(reader.i), old(objects)))
      decreases |reader.b| - reader.i, 2
    {
      ghost var whole := DecodeItems(lib, reader.b, reader.i, objects);
      var items: seq<Value> := [];
      AfterNone(whole);
      while true
        invariant Valid() && old(reader.i) <= reader.i
        invariant whole == After(items, DecodeItems(lib, reader.b, reader.i, objects))
        decreases |reader.b| - reader.i
      {
        SkipTwiceInItems(lib, reader.b, reader.i, objects);
        SkipPad();
        if reader.i >= |reader.b| {
          return Bad(EndOfValue);
        }
        if reader.b[reader.i] == DENSE_END {
          reader.i := reader.i + 1;
          assert items + [] == items;
          return Done(items);
        }
        var v := Value();
        if v.Bad? {
          return Bad(v.error);
        }
        AfterMore(items, v.value, DecodeItems(lib, reader.b, reader.i, objects));
        items := items + [v.value];
      }
    }

    /** The varint that closes an object, whose value does not matter. */
    method SkipCount(v: Value) returns (d: Decoded<Value>)
      requires Valid()
      modifies reader
      ensures Valid() && old(reader.i) <= reader.i
      ensures Matches(d, SkipVarint(reader.b, Ok(v, old(reader.i), objects)))
    {
      var n := reader.Varint();
      d := if n.Failed? then Bad(n.error) else Done(v);
    }

    /** The two that close an array. */
    method SkipTwoCounts(v: Value) returns (d: Decoded<Value>)
      requires Valid()
      modifies reader
      ensures Valid() && old(reader.i) <= reader.i
      ensures Matches(d, SkipVarint(reader.b, SkipVarint(reader.b, Ok(v, old(reader.i), objects))))
    {
      d := SkipCount(v);
      if d.Done? {
        d := SkipCount(v);
      }
    }
  }

  /** Decodes a record body: its value, and the maps the value refers to. */
  method DecodeRecord(lib: Library, raw: seq<byte>) returns (d: Decoded<Value>, maps: Table)
    ensures match DecodeValue(lib, raw)
            case Ok(v, _, t) => d == Done(v) && maps == t
            case Err(e) => d == Bad(e)
    ensures IsSlice(raw) && d.Done? ==> CloneRoundTrip.Records(lib, raw, d.value, maps)
    ensures IsSlice(raw) && d.Bad? ==> !exists v, table :: CloneRoundTrip.Records(lib, raw, v, table)
  {
    if IsSlice(raw) {
      forall v, table
        ensures CloneRoundTrip.Records(lib, raw, v, table) <==>
                  DecodeValue(lib, raw).Ok? && DecodeValue(lib, raw).value == v && DecodeValue(lib, raw).table == table
      {
        CloneRoundTrip.RecordDecodesIff(lib, raw, v, table);
      }
    }
    hide CloneRoundTrip.Records;
    var decoder := new Decoder(lib, raw);
    var prefix := decoder.reader.Varint();
    if prefix.Failed? {
      return Bad(prefix.error), [];
    }
    d := decoder.Value();
    maps := decoder.objects;
  }

  lemma SkipTwiceInFields(lib: Library, b: seq<byte>, i: nat, t: Table, id: nat, end: byte)
    requires i <= |b| && id < |t|
    ensures DecodeFields(lib, b, SkipPadding(b, i), t, id, end) == DecodeFields(lib, b, i, t, id, end)
  {
    SkipTwice(lib, b, i, t);
  }

  lemma SkipTwiceInItems(lib: Library, b: seq<byte>, i: nat, t: Table)
    requires i <= |b|
    ensures DecodeItems(lib, b, SkipPadding(b, i), t) == DecodeItems(lib, b, i, t)
  {
    SkipTwice(lib, b, i, t);
  }

  lemma AfterMore<T>(done: seq<T>, x: T, rest: Result<seq<T>>)
    ensures After(done + [x], rest) == After(done, After([x], rest))
  {
    if rest.Ok? {
      assert done + [x] + rest.value == done + ([x] + rest.value);
    }
  }

  /** What was decoded already, put before the rest. */
  function After<T>(done: seq<T>, rest: Result<seq<T>>): Result<seq<T>> {
    if rest.Err? then rest else rest.(value := done + rest.value)
  }

  lemma AfterNone<T>(rest: Result<seq<T>>)
    ensures After([], rest) == rest
  {
    if rest.Ok? {
      assert [] + rest.value == rest.value;
    }
  }
}
