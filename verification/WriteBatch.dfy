/** LevelDB write batches as the Termius importer walks them (internal/termius/idb.go). */
module WriteBatch {
  import opened Common
  import opened ByteReader

  datatype Record = Record(key: seq<byte>, val: seq<byte>)

  /** What a writer put in a batch. */
  datatype Entry = Put(record: Record) | Delete(key: seq<byte>)

  /** A sequence number of eight bytes and an entry count of four. */
  const BATCH_HEADER: nat := 12

  // ---------------------------------------------------------------------------
  // The grammar, as a recursive reader
  // ---------------------------------------------------------------------------

  function ReadEntry(b: seq<byte>, i: nat): (r: Read<Entry>)
    ensures r.Got? ==> i < r.next <= |b|
  {
    var kind := ReadByte(b, i);
    if kind.Failed? then Failed(kind.error)
    else
      var key := ReadRun(b, kind.next);
      if key.Failed? then Failed(key.error)
      else if kind.value == 0 then Got(Delete(key.value), key.next)
      else
        var val := ReadRun(b, key.next);
        if val.Failed? then Failed(val.error) else Got(Put(Record(key.value, val.value)), val.next)
  }

  /** The records an entry leaves behind. */
  function Kept(e: Entry): seq<Record> {
    if e.Put? then [e.record] else []
  }

  /** The records gathered from here to the first entry that does not read, or the end. */
  function Records(b: seq<byte>, i: nat): seq<Record>
    decreases |b| - i
  {
    if i >= |b| then []
    else
      var e := ReadEntry(b, i);
      if e.Failed? then [] else Kept(e.value) + Records(b, e.next)
  }

  function Decoded(b: seq<byte>): seq<Record> {
    if |b| < BATCH_HEADER then [] else Records(b, BATCH_HEADER)
  }

  /** How the walk from here ends: it stops, or panics and loses what it has gathered. */
  datatype Ending = Stops | Panics

  function EndingFrom(b: seq<byte>, i: nat): Ending
    decreases |b| - i
  {
    if i >= |b| then Stops
    else
      var e := ReadEntry(b, i);
      if e.Got? then EndingFrom(b, e.next) else if e.error.Panic? then Panics else Stops
  }

  predicate PanicsFrom(b: seq<byte>, i: nat) {
    EndingFrom(b, i) == Panics
  }

  predicate BatchPanics(b: seq<byte>) {
    |b| >= BATCH_HEADER && PanicsFrom(b, BATCH_HEADER)
  }

  lemma RecordsStep(b: seq<byte>, i: nat, e: Entry, m: nat)
    requires ReadEntry(b, i) == Got(e, m)
    ensures Records(b, i) == Kept(e) + Records(b, m)
  {
  }

  // ---------------------------------------------------------------------------
  // The walker
  // ---------------------------------------------------------------------------

  /** What has been collected and what is still ahead make up the whole. */
  predicate OnCourse(b: seq<byte>, i: nat, out: seq<Record>, all: seq<Record>) {
    out + Records(b, i) == all
  }

  lemma NothingMore(b: seq<byte>, i: nat, out: seq<Record>, all: seq<Record>)
    requires i >= |b| || ReadEntry(b, i).Failed?
    requires OnCourse(b, i, out, all)
    ensures out == all
  {
  }

  lemma OneMore(b: seq<byte>, i: nat, e: Entry, m: nat, out: seq<Record>, all: seq<Record>)
    requires ReadEntry(b, i) == Got(e, m)
    requires OnCourse(b, i, out, all)
    ensures OnCourse(b, m, out + Kept(e), all)
  {
    RecordsStep(b, i, e, m);
    RegroupAfter(out, Records(b, i), Kept(e), Records(b, m));
  }

  lemma RegroupAfter<T>(out: seq<T>, all: seq<T>, c: seq<T>, d: seq<T>)
    requires all == c + d
    ensures out + all == (out + c) + d
  {
  }

  /** One turn of the loop: an entry, or the reason to stop. */
  method NextEntry(r: Reader) returns (e: Read<Entry>)
    requires r.Valid()
    modifies r
    ensures r.Valid() && e == ReadEntry(r.b, old(r.i)) && (e.Got? ==> r.i == e.next)
  {
    var kind := r.Byte();
    if kind.Failed? {
      return Failed(kind.error);
    }
    var kl := r.Varint();
    if kl.Failed? {
      return Failed(kl.error);
    }
    var k := r.TakeBytes(kl.value);
    if k.Failed? {
      return Failed(k.error);
    }
    if kind.value == 0 {
      return Got(Delete(k.value), r.i);
    }
    var vl := r.Varint();
    if vl.Failed? {
      return Failed(vl.error);
    }
    var v := r.TakeBytes(vl.value);
    if v.Failed? {
      return Failed(v.error);
    }
    e := Got(Put(Record(k.value, v.value)), r.i);
  }

  /** The walk; when it panics nothing is returned. */
  method DecodeBatch(b: seq<byte>) returns (out: seq<Record>, panicked: bool)
    ensures panicked == BatchPanics(b)
    ensures !panicked ==> out == Decoded(b)
    ensures IsSlice(b) && !panicked && |b| < BATCH_HEADER ==> out == []
    ensures IsSlice(b) && !panicked && |b| >= BATCH_HEADER ==>
              exists es, end: nat :: Holds(b, es, end) && out == Puts(es)
  {
    if IsSlice(b) && |b| >= BATCH_HEADER {
      ghost var es, end := WholeEntries(b);
      assert Holds(b, es, end) && Decoded(b) == Puts(es);
    }
    hide Holds;
    out, panicked := [], false;
    if |b| < BATCH_HEADER {
      return;
    }
    var r := new Reader(b, BATCH_HEADER);
    ghost var all := Decoded(b);
    Started(b);
    while r.i < |r.b|
      invariant r.Valid() && r.b == b && fresh(r)
      invariant OnCourse(b, r.i, out, all)
      invariant PanicsFrom(b, r.i) == BatchPanics(b)
      decreases |b| - r.i
    {
      ghost var at := r.i;
      var e := NextEntry(r);
      if e.Failed? {
        NothingMore(b, at, out, all);
        return out, e.error.Panic?;
      }
      OneMore(b, at, e.value, r.i, out, all);
      out := out + Kept(e.value);
    }
    NothingMore(b, r.i, out, all);
  }

  lemma Started(b: seq<byte>)
    requires |b| >= BATCH_HEADER
    ensures OnCourse(b, BATCH_HEADER, [], Decoded(b))
  {
  }

  // ---------------------------------------------------------------------------
  // Cutting the input short
  // ---------------------------------------------------------------------------

  /** What reads within a prefix reads the same in the whole. */
  lemma {:induction false} DigitsIgnoreTheRest(b: seq<byte>, j: nat, i: nat, x: nat, shift: nat)
    requires j <= |b| && ReadDigits(b[..j], i, x, shift).Got?
    ensures ReadDigits(b, i, x, shift) == ReadDigits(b[..j], i, x, shift)
    decreases |b| - i
  {
    var x' := (x + Shifted(b[i] as nat % 128, shift)) % TWO_TO_64;
    if b[i] >= 128 {
      DigitsIgnoreTheRest(b, j, i + 1, x', shift + 7);
    }
  }

  lemma RunIgnoresTheRest(b: seq<byte>, j: nat, i: nat)
    requires j <= |b| && ReadRun(b[..j], i).Got?
    ensures ReadRun(b, i) == ReadRun(b[..j], i)
  {
    DigitsIgnoreTheRest(b, j, i, 0, 0);
    var n := ReadVarint(b, i);
    assert b[..j][n.next..n.next + n.value] == b[n.next..n.next + n.value];
  }

  lemma EntryIgnoresTheRest(b: seq<byte>, j: nat, i: nat)
    requires j <= |b| && ReadEntry(b[..j], i).Got?
    ensures ReadEntry(b, i) == ReadEntry(b[..j], i)
  {
    RunIgnoresTheRest(b, j, i + 1);
    if b[i] != 0 {
      RunIgnoresTheRest(b, j, ReadRun(b, i + 1).next);
    }
  }

  lemma {:induction false} RecordsOfPrefix(b: seq<byte>, j: nat, i: nat)
    requires j <= |b|
    ensures Records(b[..j], i) <= Records(b, i)
    decreases |b| - i
  {
    if i < j && ReadEntry(b[..j], i).Got? {
      EntryIgnoresTheRest(b, j, i);
      RecordsOfPrefix(b, j, ReadEntry(b, i).next);
    }
  }

  /** A panic within a prefix is one in the whole: it depends on the cursor and the length alone. */
  lemma RunPanicsAlike(b: seq<byte>, j: nat, i: nat)
    requires IsSlice(b) && j <= |b| && ReadRun(b[..j], i) == Failed(Panic(SliceOutOfRange))
    ensures ReadRun(b, i) == Failed(Panic(SliceOutOfRange))
  {
    DigitsIgnoreTheRest(b, j, i, 0, 0);
    var n := ReadVarint(b, i);
    TakePanicsIff(b[..j], n.next, n.value);
    TakePanicsIff(b, n.next, n.value);
  }

  lemma RunStops(b: seq<byte>, i: nat)
    requires IsSlice(b)
    ensures var r := ReadRun(b, i); r.Failed? && r.error.Panic? ==> r == Failed(Panic(SliceOutOfRange))
  {
  }

  lemma EntryPanicsAlike(b: seq<byte>, j: nat, i: nat)
    requires IsSlice(b) && j <= |b| && ReadEntry(b[..j], i).Failed? && ReadEntry(b[..j], i).error.Panic?
    ensures ReadEntry(b, i) == ReadEntry(b[..j], i)
  {
    RunStops(b[..j], i + 1);
    if ReadRun(b[..j], i + 1).Failed? {
      RunPanicsAlike(b, j, i + 1);
    } else {
      RunIgnoresTheRest(b, j, i + 1);
      RunStops(b[..j], ReadRun(b, i + 1).next);
      RunPanicsAlike(b, j, ReadRun(b, i + 1).next);
    }
  }

  lemma {:induction false} PanicOfPrefix(b: seq<byte>, j: nat, i: nat)
    requires IsSlice(b) && j <= |b| && PanicsFrom(b[..j], i)
    ensures PanicsFrom(b, i)
    decreases |b| - i
  {
    if ReadEntry(b[..j], i).Got? {
      EntryIgnoresTheRest(b, j, i);
      PanicOfPrefix(b, j, ReadEntry(b, i).next);
    } else {
      EntryPanicsAlike(b, j, i);
    }
  }

  /**
   Any bytes, cut anywhere: what is gathered is a prefix of what the whole would
   gather, never a record of its own, and if the whole does not panic the cut does
   not either.
   */
  lemma TornBatchYieldsPrefix(b: seq<byte>, j: nat)
    requires IsSlice(b) && j <= |b|
    ensures Decoded(b[..j]) <= Decoded(b)
    ensures BatchPanics(b[..j]) ==> BatchPanics(b)
  {
    if j >= BATCH_HEADER {
      RecordsOfPrefix(b, j, BATCH_HEADER);
      if BatchPanics(b[..j]) {
        PanicOfPrefix(b, j, BATCH_HEADER);
      }
    }
  }

  // ---------------------------------------------------------------------------
  // When the walk panics
  // ---------------------------------------------------------------------------

  /** The entries the walk gets to. */
  function EntryStarts(b: seq<byte>, i: nat): seq<nat>
    decreases |b| - i
  {
    if i >= |b| then []
    else
      var e := ReadEntry(b, i);
      [i] + if e.Failed? then [] else EntryStarts(b, e.next)
  }

  predicate LengthWraps(b: seq<byte>, i: nat) {
    ReadVarint(b, i).Got? && Wraps(ReadVarint(b, i).next, ReadVarint(b, i).value)
  }

  /** The entry there declares a key, or behind a whole key a value, whose end wraps. */
  predicate EntryHazard(b: seq<byte>, at: nat) {
    at < |b| &&
    (LengthWraps(b, at + 1) ||
     (b[at] != 0 && ReadRun(b, at + 1).Got? && LengthWraps(b, ReadRun(b, at + 1).next)))
  }

  lemma RunPanicsIff(b: seq<byte>, i: nat)
    requires IsSlice(b)
    ensures ReadRun(b, i) == Failed(Panic(SliceOutOfRange)) <==> LengthWraps(b, i)
  {
    if ReadVarint(b, i).Got? {
      TakePanicsIff(b, ReadVarint(b, i).next, ReadVarint(b, i).value);
    }
  }

  lemma EntryPanicsIff(b: seq<byte>, at: nat)
    requires IsSlice(b) && at < |b|
    ensures ReadEntry(b, at).Failed? && ReadEntry(b, at).error.Panic? <==> EntryHazard(b, at)
  {
    RunPanicsIff(b, at + 1);
    RunStops(b, at + 1);
    if b[at] != 0 && ReadRun(b, at + 1).Got? {
      RunPanicsIff(b, ReadRun(b, at + 1).next);
      RunStops(b, ReadRun(b, at + 1).next);
    }
  }

  lemma {:induction false} PanicsFromIff(b: seq<byte>, i: nat)
    requires IsSlice(b)
    ensures PanicsFrom(b, i) <==> exists at :: at in EntryStarts(b, i) && EntryHazard(b, at)
    decreases |b| - i
  {
    if i < |b| {
      EntryPanicsIff(b, i);
      assert i in EntryStarts(b, i);
      if ReadEntry(b, i).Got? {
        var next := ReadEntry(b, i).next;
        PanicsFromIff(b, next);
        assert EntryStarts(b, i) == [i] + EntryStarts(b, next);
      }
    }
  }

  /** A batch panics if and only if the walk gets to an entry whose key or value length wraps the cursor. */
  lemma BatchPanicsIff(b: seq<byte>)
    requires IsSlice(b)
    ensures BatchPanics(b) <==>
              |b| >= BATCH_HEADER && exists at :: at in EntryStarts(b, BATCH_HEADER) && EntryHazard(b, at)
  {
    PanicsFromIff(b, BATCH_HEADER);
  }

  /** It happens: any key length just below 2^63 does it. */
  lemma WrappingKeyPanics(header: seq<byte>, kind: byte, n: nat, after: seq<byte>)
    requires |header| == BATCH_HEADER && n < TWO_TO_63 <= BATCH_HEADER + 1 + |Varint(n)| + n
    requires IsSlice((header + [kind]) + Varint(n) + after)
    ensures BatchPanics((header + [kind]) + Varint(n) + after)
  {
    var b := (header + [kind]) + Varint(n) + after;
    VarintRoundTrip(header + [kind], n, after);
    EntryPanicsIff(b, BATCH_HEADER);
  }

  // ---------------------------------------------------------------------------
  // Round trip
  // ---------------------------------------------------------------------------

  function Run(s: seq<byte>): seq<byte> {
    Varint(|s|) + s
  }

  function Encoded(e: Entry): seq<byte> {
    match e
    case Put(r) => [1] + (Run(r.key) + Run(r.val))
    case Delete(k) => [0] + Run(k)
  }

  function EncodedAll(es: seq<Entry>): seq<byte> {
    if es == [] then [] else Encoded(es[0]) + EncodedAll(es[1..])
  }

  function Puts(es: seq<Entry>): seq<Record> {
    if es == [] then [] else Kept(es[0]) + Puts(es[1..])
  }

  /** The lengths the format can carry. */
  predicate Sized(e: Entry) {
    match e
    case Put(r) => IsSlice(r.key) && IsSlice(r.val)
    case Delete(k) => IsSlice(k)
  }

  predicate AllSized(es: seq<Entry>) {
    es == [] || (Sized(es[0]) && AllSized(es[1..]))
  }

  lemma RunReads(b: seq<byte>, i: nat, s: seq<byte>, block: seq<byte>)
    requires IsSlice(b) && IsSlice(s) && block == Run(s) && At(b, i, block)
    ensures ReadRun(b, i) == Got(s, i + |block|)
  {
    RunRoundTrip(b, i, s, Varint(|s|));
  }

  lemma PutReads(b: seq<byte>, i: nat, r: Record, kb: seq<byte>, vb: seq<byte>)
    requires IsSlice(b) && Sized(Put(r)) && kb == Run(r.key) && vb == Run(r.val) && At(b, i, [1] + (kb + vb))
    ensures ReadEntry(b, i) == Got(Put(r), i + 1 + |kb| + |vb|)
  {
    hide At, Run, ReadRun;
    AtHead(b, i, 1, kb + vb);
    AtSplit(b, i + 1, kb, vb);
    RunReads(b, i + 1, r.key, kb);
    RunReads(b, i + 1 + |kb|, r.val, vb);
  }

  lemma DeleteReads(b: seq<byte>, i: nat, key: seq<byte>, kb: seq<byte>)
    requires IsSlice(b) && IsSlice(key) && kb == Run(key) && At(b, i, [0] + kb)
    ensures ReadEntry(b, i) == Got(Delete(key), i + 1 + |kb|)
  {
    hide At, Run, ReadRun;
    AtHead(b, i, 0, kb);
    RunReads(b, i + 1, key, kb);
  }

  lemma EntryReads(b: seq<byte>, i: nat, e: Entry)
    requires IsSlice(b) && Sized(e) && At(b, i, Encoded(e))
    ensures ReadEntry(b, i) == Got(e, i + |Encoded(e)|)
  {
    match e
    case Put(r) => PutReads(b, i, r, Run(r.key), Run(r.val));
    case Delete(k) => DeleteReads(b, i, k, Run(k));
  }

  /** From i on, b reads as these entries, up to end. */
  predicate ReadsAs(b: seq<byte>, i: nat, es: seq<Entry>, end: nat)
    decreases |es|
  {
    if es == [] then i == end
    else
      var r := ReadEntry(b, i);
      r.Got? && r.value == es[0] && ReadsAs(b, r.next, es[1..], end)
  }

  lemma EncodedAllParts(es: seq<Entry>, p: seq<byte>, q: seq<byte>)
    requires es != [] && p == Encoded(es[0]) && q == EncodedAll(es[1..])
    ensures EncodedAll(es) == p + q
  {
  }

  lemma ReadsOneMore(b: seq<byte>, i: nat, es: seq<Entry>, m: nat, end: nat)
    requires es != [] && ReadEntry(b, i) == Got(es[0], m) && ReadsAs(b, m, es[1..], end)
    ensures ReadsAs(b, i, es, end)
  {
  }

  /** What was written reads as what was written. */
  lemma {:induction false} WrittenReadsAs(b: seq<byte>, i: nat, es: seq<Entry>, s: seq<byte>)
    requires IsSlice(b) && AllSized(es) && s == EncodedAll(es) && At(b, i, s)
    ensures ReadsAs(b, i, es, i + |s|)
    decreases |es|
  {
    if es != [] {
      var p, q := Encoded(es[0]), EncodedAll(es[1..]);
      EncodedAllParts(es, p, q);
      AtSplit(b, i, p, q);
      WrittenReadsAs(b, i + |p|, es[1..], q);
      EntryReads(b, i, es[0]);
      ReadsOneMore(b, i, es, i + |p|, i + |s|);
    }
  }

  /** Reading on from a run of whole entries gives their puts, then what the rest gives. */
  lemma {:induction false} EntriesRead(b: seq<byte>, i: nat, es: seq<Entry>, end: nat)
    requires ReadsAs(b, i, es, end)
    ensures Records(b, i) == Puts(es) + Records(b, end)
    decreases |es|
  {
    if es == [] {
      assert Puts(es) == [];
    } else {
      var m := ReadEntry(b, i).next;
      EntriesRead(b, m, es[1..], end);
      RecordsStep(b, i, es[0], m);
      PutsStep(es);
      Regroup(Records(b, i), Kept(es[0]), Records(b, m), Puts(es[1..]), Records(b, end));
    }
  }

  /** And ends as the rest does. */
  lemma {:induction false} EntriesPass(b: seq<byte>, i: nat, es: seq<Entry>, end: nat)
    requires ReadsAs(b, i, es, end)
    ensures EndingFrom(b, i) == EndingFrom(b, end)
    decreases |es|
  {
    if es != [] {
      EntriesPass(b, ReadEntry(b, i).next, es[1..], end);
    }
  }

  lemma PutsStep(es: seq<Entry>)
    requires es != []
    ensures Puts(es) == Kept(es[0]) + Puts(es[1..])
  {
  }

  lemma Regroup<T>(all: seq<T>, a: seq<T>, rest: seq<T>, c: seq<T>, d: seq<T>)
    requires all == a + rest && rest == c + d
    ensures all == (a + c) + d
  {
  }

  // ---------------------------------------------------------------------------
  // What any bytes hold
  // ---------------------------------------------------------------------------

  /** A varint stands at i, and behind it that many bytes, which are these, up to m. */
  predicate RunStands(b: seq<byte>, i: nat, s: seq<byte>, m: nat) {
    ReadVarint(b, i).Got? && ReadVarint(b, i).value == |s| && m == ReadVarint(b, i).next + |s| &&
    At(b, ReadVarint(b, i).next, s)
  }

  /** A put stands at i, up to m: any byte but zero, a key and a value. Or a deletion: zero and a key. */
  ghost predicate EntryStands(b: seq<byte>, i: nat, e: Entry, m: nat) {
    i < |b| &&
    match e
    case Delete(key) => b[i] == 0 && RunStands(b, i + 1, key, m)
    case Put(r) => b[i] != 0 && exists k: nat :: RunStands(b, i + 1, r.key, k) && RunStands(b, k, r.val, m)
  }

  lemma RunStandsIff(b: seq<byte>, i: nat, s: seq<byte>, m: nat)
    requires IsSlice(b)
    ensures RunStands(b, i, s, m) <==> ReadRun(b, i) == Got(s, m)
  {
    var n := ReadVarint(b, i);
    if n.Got? {
      TakePanicsIff(b, n.next, n.value);
    }
  }

  /** An entry is read exactly where it stands. */
  lemma EntryReadsIff(b: seq<byte>, i: nat, e: Entry, m: nat)
    requires IsSlice(b)
    ensures ReadEntry(b, i) == Got(e, m) <==> EntryStands(b, i, e, m)
  {
    hide ReadRun, RunStands;
    forall j, s, k
      ensures RunStands(b, j, s, k) <==> ReadRun(b, j) == Got(s, k)
    {
      RunStandsIff(b, j, s, k);
    }
  }

  /** From i on these entries stand one after the other, up to end. */
  ghost predicate EntriesStand(b: seq<byte>, i: nat, es: seq<Entry>, end: nat)
    decreases |es|
  {
    if es == [] then i == end else exists m: nat :: EntryStands(b, i, es[0], m) && EntriesStand(b, m, es[1..], end)
  }

  /** A batch holds these whole entries: behind its header, one after the other, and at the end of the last no other. */
  ghost predicate Holds(b: seq<byte>, es: seq<Entry>, end: nat) {
    EntriesStand(b, BATCH_HEADER, es, end) && forall e, m: nat :: !EntryStands(b, end, e, m)
  }

  lemma {:induction false} WholeEntriesFrom(b: seq<byte>, i: nat) returns (es: seq<Entry>, end: nat)
    requires IsSlice(b)
    ensures EntriesStand(b, i, es, end) && ReadEntry(b, end).Failed? && Records(b, i) == Puts(es)
    decreases |b| - i
  {
    hide EntryStands;
    es, end := [], i;
    if i < |b| && ReadEntry(b, i).Got? {
      var e := ReadEntry(b, i);
      var more, last := WholeEntriesFrom(b, e.next);
      EntryReadsIff(b, i, e.value, e.next);
      es, end := [e.value] + more, last;
      assert es[1..] == more;
    }
  }

  /** Whatever the bytes are: what is gathered are the puts among the whole entries the batch holds. */
  lemma WholeEntries(b: seq<byte>) returns (es: seq<Entry>, end: nat)
    requires IsSlice(b) && |b| >= BATCH_HEADER
    ensures Holds(b, es, end) && Decoded(b) == Puts(es)
  {
    hide EntryStands;
    es, end := WholeEntriesFrom(b, BATCH_HEADER);
    forall e, m: nat
      ensures !EntryStands(b, end, e, m)
    {
      EntryReadsIff(b, end, e, m);
    }
  }

  /** A proper prefix of an entry does not read as one; it is an error, not a panic. */
  lemma PartOfEntryFails(before: seq<byte>, e: Entry, n: nat)
    requires Sized(e) && n < |Encoded(e)| && IsSlice(before + Encoded(e))
    ensures ReadEntry(before + Encoded(e)[..n], |before|).Failed?
    ensures !ReadEntry(before + Encoded(e)[..n], |before|).error.Panic?
  {
    var whole, j := before + Encoded(e), |before| + n;
    assert whole[..j] == before + Encoded(e)[..n];
    assert At(whole, |before|, Encoded(e));
    EntryReads(whole, |before|, e);
    if ReadEntry(whole[..j], |before|).Got? {
      EntryIgnoresTheRest(whole, j, |before|);
    } else if ReadEntry(whole[..j], |before|).error.Panic? {
      EntryPanicsAlike(whole, j, |before|);
    }
  }

  /** Decoding inverts writing, minus deletions. */
  lemma BatchRoundTrips(header: seq<byte>, es: seq<Entry>)
    requires |header| == BATCH_HEADER && AllSized(es) && IsSlice(header + EncodedAll(es))
    ensures !BatchPanics(header + EncodedAll(es)) && Decoded(header + EncodedAll(es)) == Puts(es)
  {
    var b := header + EncodedAll(es);
    assert At(b, BATCH_HEADER, EncodedAll(es));
    WrittenReadsAs(b, BATCH_HEADER, es, EncodedAll(es));
    EntriesRead(b, BATCH_HEADER, es, |b|);
    EntriesPass(b, BATCH_HEADER, es, |b|);
  }

  /** And a batch torn inside an entry gives exactly the puts before that entry. */
  lemma TornBatchKeepsWholeEntries(header: seq<byte>, es: seq<Entry>, e: Entry, n: nat)
    requires |header| == BATCH_HEADER && AllSized(es) && Sized(e)
    requires n < |Encoded(e)| && IsSlice(header + EncodedAll(es) + Encoded(e))
    ensures var torn := header + EncodedAll(es) + Encoded(e)[..n];
            !BatchPanics(torn) && Decoded(torn) == Puts(es)
  {
    var before := header + EncodedAll(es);
    var b := before + Encoded(e)[..n];
    assert b[BATCH_HEADER..|before|] == EncodedAll(es);
    WrittenReadsAs(b, BATCH_HEADER, es, EncodedAll(es));
    PartOfEntryFails(before, e, n);
    assert Records(b, |before|) == [] && !PanicsFrom(b, |before|);
    EntriesRead(b, BATCH_HEADER, es, |before|);
    EntriesPass(b, BATCH_HEADER, es, |before|);
  }
}
