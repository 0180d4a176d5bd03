/**
 The structured-clone decoder: a recursive descent over tagged bytes, with a table
 of back-references that grows and a map in it that is filled as it goes. The key of
 a map is printed, and printing one that contains itself never comes back.
 */
module CloneDecoder {
  import opened Common
  import opened ByteReader
  import opened CloneValues

  const VERSION: byte := 0xff
  const PADDING: byte := 0x00
  const UNDEFINED: byte := 0x5f      // '_'
  const NULL: byte := 0x30           // '0'
  const TRUE: byte := 0x54           // 'T'
  const FALSE: byte := 0x46          // 'F'
  const INT32: byte := 0x49          // 'I'
  const UINT32: byte := 0x55         // 'U'
  const DOUBLE: byte := 0x4e         // 'N'
  const DATE: byte := 0x44           // 'D'
  const ONE_BYTE: byte := 0x22       // '"'
  const TWO_BYTE: byte := 0x63       // 'c'
  const UTF8: byte := 0x53           // 'S'
  const OBJECT: byte := 0x6f         // 'o'
  const OBJECT_END: byte := 0x7b     // '{'
  const DENSE: byte := 0x41          // 'A'
  const DENSE_END: byte := 0x24      // '$'
  const SPARSE: byte := 0x61         // 'a'
  const SPARSE_END: byte := 0x40     // '@'
  const REFERENCE: byte := 0x5e      // '^'

  /** A decoded part, where the cursor is afterwards, and the table of back-references by then. */
  datatype Result<+T> = Ok(value: T, next: nat, table: Table) | Err(error: DecodeError)

  function SkipPadding(b: seq<byte>, i: nat): (j: nat)
    requires i <= |b|
    ensures i <= j <= |b| && (j < |b| ==> b[j] != PADDING)
    decreases |b| - i
  {
    if i < |b| && b[i] == PADDING then SkipPadding(b, i + 1) else i
  }

  /** Little-endian 16-bit units; an odd byte at the end is dropped. */
  function Units(b: seq<byte>): seq<Unit> {
    if |b| < 2 then [] else [b[0] as nat + 256 * b[1] as nat] + Units(b[2..])
  }

  /** Skips one varint, whose value does not matter. */
  function SkipVarint<T>(b: seq<byte>, r: Result<T>): Result<T> {
    if r.Err? then r
    else
      var n := ReadVarint(b, r.next);
      if n.Got? then r.(next := n.next) else Err(n.error)
  }

  /** m[fmt.Sprint(k)] = v in map id; None if the key cannot be printed. */
  function Stored(lib: Library, t: Table, id: nat, k: Value, v: Value): (t': Option<Table>)
    requires id < |t|
    ensures t'.Some? ==> |t'.value| == |t|
  {
    var key := Print(lib, t, k);
    if key.None? then None else Some(t[id := AMap(Insert(PropertiesOf(t, id), key.value, v))])
  }

  function DecodeReference(b: seq<byte>, i: nat, t: Table): Result<Value> {
    var n := ReadVarint(b, i);
    if n.Failed? then Err(n.error)
    else if ToInt64(n.value) >= |t| then Err(BadReference)
    else if n.value >= |t| then Err(Panic(IndexOutOfRange))
    else Ok(Deref(t, n.value), n.next, t)
  }

  function DecodeText(b: seq<byte>, i: nat, wide: bool, t: Table): Result<Value> {
    var s := ReadRun(b, i);
    if s.Failed? then Err(s.error) else Ok(if wide then WideText(Units(s.value)) else Text(s.value), s.next, t)
  }

  function DecodeInt(b: seq<byte>, i: nat, zigzag: bool, t: Table): Result<Value> {
    var n := ReadVarint(b, i);
    if n.Failed? then Err(n.error) else Ok(Int(if zigzag then Unzigzag(n.value) else ToInt64(n.value)), n.next, t)
  }

  function DecodeDouble(b: seq<byte>, i: nat, date: bool, t: Table): Result<Value>
    requires i <= |b|
  {
    var s := Take(b, i, 8);
    if s.Failed? then Err(s.error)
    else if date then Ok(Date(s.value), s.next, t + [ATime(s.value)])
    else Ok(Double(s.value), s.next, t)
  }

  /** The value whose tag is there, if it contains no others. */
  function DecodeLeaf(b: seq<byte>, at: nat, t: Table): (r: Result<Value>)
    requires at < |b|
    ensures r.Ok? ==> at < r.next <= |b| && |t| <= |r.table|
    ensures r.Err? ==> !r.error.Endless?
  {
    var tag := b[at];
    if tag == REFERENCE then DecodeReference(b, at + 1, t)
    else if tag in [ONE_BYTE, UTF8, TWO_BYTE] then DecodeText(b, at + 1, tag == TWO_BYTE, t)
    else if tag in [INT32, UINT32] then DecodeInt(b, at + 1, tag == INT32, t)
    else if tag in [DOUBLE, DATE] then DecodeDouble(b, at + 1, tag == DATE, t)
    else if tag in [TRUE, FALSE] then Ok(Bool(tag == TRUE), at + 1, t)
    else if tag in [NULL, UNDEFINED] then Ok(Null, at + 1, t)
    else Err(BadTag)
  }

  /** One value. The cursor only advances, stays in bounds, and table entries are only added. */
  function Decode(lib: Library, b: seq<byte>, i: nat, t: Table): (r: Result<Value>)
    requires i <= |b|
    ensures r.Ok? ==> i < r.next <= |b| && |t| <= |r.table|
    decreases |b| - i, 0
  {
    var at := SkipPadding(b, i);
    if at >= |b| then Err(EndOfValue)
    else if b[at] == OBJECT then
      SkipVarint(b, DecodeFields(lib, b, at + 1, t + [AMap([])], |t|, OBJECT_END))
    else if b[at] in [VERSION, SPARSE, DENSE] then
      var n := ReadVarint(b, at + 1);
      if n.Failed? then Err(n.error)
      else if b[at] == VERSION then Decode(lib, b, n.next, t)
      else if b[at] == SPARSE then
        SkipVarint(b, SkipVarint(b, DecodeFields(lib, b, n.next, t + [AMap([])], |t|, SPARSE_END)))
      else if ToInt64(n.value) < 0 then Err(Panic(CapOutOfRange))
      else SkipVarint(b, SkipVarint(b, AsList(DecodeItems(lib, b, n.next, t + [AList]))))
    else DecodeLeaf(b, at, t)
  }

  function AsList(r: Result<seq<Value>>): Result<Value> {
    if r.Err? then Err(r.error) else Ok(List(r.value), r.next, r.table)
  }

  /** Key and value pairs up to the end tag, put into map id. */
  function DecodeFields(lib: Library, b: seq<byte>, i: nat, t: Table, id: nat, end: byte): (r: Result<Value>)
    requires i <= |b| && id < |t|
    ensures r.Ok? ==> i < r.next <= |b| && |t| <= |r.table|
    decreases |b| - i, 1
  {
    var at := SkipPadding(b, i);
    if at >= |b| then Err(EndOfValue)
    else if b[at] == end then Ok(Map(id), at + 1, t)
    else
      var k := Decode(lib, b, at, t);
      if k.Err? then k
      else
        var v := Decode(lib, b, k.next, k.table);
        if v.Err? then v
        else
          var t' := Stored(lib, v.table, id, k.value, v.value);
          if t'.None? then Err(Endless) else DecodeFields(lib, b, v.next, t'.value, id, end)
  }

  /** Values up to the end of a dense array. */
  function DecodeItems(lib: Library, b: seq<byte>, i: nat, t: Table): (r: Result<seq<Value>>)
    requires i <= |b|
    ensures r.Ok? ==> i < r.next <= |b| && |t| <= |r.table|
    decreases |b| - i, 1
  {
    var at := SkipPadding(b, i);
    if at >= |b| then Err(EndOfValue)
    else if b[at] == DENSE_END then Ok([], at + 1, t)
    else
      var v := Decode(lib, b, at, t);
      if v.Err? then Err(v.error)
      else
        var rest := DecodeItems(lib, b, v.next, v.table);
        if rest.Err? then rest else rest.(value := [v.value] + rest.value)
  }

  /** A record body: the varint the storage layer writes ahead, then one value. */
  function DecodeValue(lib: Library, raw: seq<byte>): Result<Value> {
    var prefix := ReadVarint(raw, 0);
    if prefix.Failed? then Err(prefix.error) else Decode(lib, raw, prefix.next, [])
  }

  /** Decoding skips padding itself. */
  lemma {:induction false} SkipTwice(lib: Library, b: seq<byte>, i: nat, t: Table)
    requires i <= |b|
    ensures SkipPadding(b, SkipPadding(b, i)) == SkipPadding(b, i)
    ensures Decode(lib, b, SkipPadding(b, i), t) == Decode(lib, b, i, t)
    decreases |b| - i
  {
    if i < |b| && b[i] == PADDING {
      SkipTwice(lib, b, i + 1, t);
    }
  }
}
