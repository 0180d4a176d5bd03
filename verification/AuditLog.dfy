/**
 The audit log: a capped list of entries, newest first, into which the start and
 the end of a command fold. Events arrive from several grants; an event's id is
 unique only within its grant, and the grant's generation tells the grants apart.
 */
module AuditLog {
  import opened Common

  const LOG_MAX: nat := 200

  datatype Event = Event(id: nat, command: string, at: int, code: int, err: string, finished: bool, refused: bool)

  /** An event with the grant it came from. */
  datatype Stamped = Stamped(gen: nat, hostID: string, hostName: string, ev: Event)

  datatype Key = Key(gen: nat, id: nat)

  datatype Entry = Entry(
    id: nat, hostName: string, hostID: string, at: int, command: string,
    finished: bool, code: int, err: string, refused: bool)

  datatype Row = Row(entry: Entry, key: Key)

  datatype Book = Book(log: seq<Row>, nextID: nat)

  function KeyOf(e: Stamped): Key { Key(e.gen, e.ev.id) }

  // ---------------------------------------------------------------------------
  // Specification
  // ---------------------------------------------------------------------------

  /** The first entry with this key, or the length of the log. */
  function Find(log: seq<Row>, key: Key): (i: nat)
    ensures i <= |log| && (i < |log| ==> log[i].key == key) && (forall j | 0 <= j < i :: log[j].key != key)
  {
    if log == [] || log[0].key == key then 0 else 1 + Find(log[1..], key)
  }

  function Updated(e: Entry, ev: Event): Entry {
    e.(finished := ev.finished, code := ev.code, refused := ev.refused, err := ev.err)
  }

  function NewEntry(id: nat, e: Stamped): Entry {
    Entry(id, e.hostName, e.hostID, e.ev.at, e.ev.command, e.ev.finished, e.ev.code, e.ev.err, e.ev.refused)
  }

  function Capped(log: seq<Row>): seq<Row> {
    if |log| > LOG_MAX then log[..LOG_MAX] else log
  }

  /** Whether an event finds an entry to fold into. */
  predicate Folds(b: Book, e: Stamped) {
    e.ev.id != 0 && Find(b.log, KeyOf(e)) < |b.log|
  }

  function Recorded(b: Book, e: Stamped): Book {
    if Folds(b, e) then
      var i := Find(b.log, KeyOf(e));
      b.(log := b.log[i := b.log[i].(entry := Updated(b.log[i].entry, e.ev))])
    else
      Book(Capped([Row(NewEntry(b.nextID + 1, e), KeyOf(e))] + b.log), b.nextID + 1)
  }

  /** The log after a sequence of events. */
  function Fold(events: seq<Stamped>): Book {
    if events == [] then Book([], 0) else Recorded(Fold(events[..|events| - 1]), Last(events))
  }

  lemma FoldGrows(events: seq<Stamped>, e: Stamped)
    ensures Fold(events + [e]) == Recorded(Fold(events), e)
  {
    assert (events + [e])[..|events|] == events;
  }

  // ---------------------------------------------------------------------------
  // The implementation
  // ---------------------------------------------------------------------------

  class Log {
    var log: seq<Row>
    var nextID: nat
    ghost var events: seq<Stamped>

    ghost predicate Valid()
      reads this
    {
      Book(log, nextID) == Fold(events)
    }

    constructor ()
      ensures Valid() && events == []
    {
      log, nextID, events := [], 0, [];
    }

    /** Takes note of one event. */
    method Record(gen: nat, hostID: string, hostName: string, ev: Event)
      requires Valid()
      modifies this
      ensures Valid() && events == old(events) + [Stamped(gen, hostID, hostName, ev)]
    {
      ghost var e := Stamped(gen, hostID, hostName, ev);
      FoldGrows(events, e);
      RecordRow(gen, hostID, hostName, ev);
      events := events + [e];
    }

    method RecordRow(gen: nat, hostID: string, hostName: string, ev: Event)
      modifies this`log, this`nextID
      ensures Book(log, nextID) == Recorded(old(Book(log, nextID)), Stamped(gen, hostID, hostName, ev))
    {
      var key := Key(gen, ev.id);
      ghost var b, e := Book(log, nextID), Stamped(gen, hostID, hostName, ev);
      if ev.id != 0 {
        for i := 0 to |log|
          invariant Book(log, nextID) == b
          invariant forall j | 0 <= j < i :: log[j].key != key
        {
          if log[i].key == key {
            assert Find(b.log, key) == i;
            log := log[i := log[i].(entry := Updated(log[i].entry, ev))];
            return;
          }
        }
      }
      assert !Folds(b, e);
      nextID := nextID + 1;
      var r := Row(
        Entry(nextID, hostName, hostID, ev.at, ev.command, ev.finished, ev.code, ev.err, ev.refused), key);
      log := [r] + log;
      if |log| > LOG_MAX {
        log := log[..LOG_MAX];
      }
    }

    /** A copy of the log for the renderer. */
    method Entries() returns (out: array<Entry>)
      requires Valid()
      ensures fresh(out) && out.Length == |log|
      ensures forall i | 0 <= i < |log| :: out[i] == log[i].entry
    {
      out := new Entry[|log|](_ => Entry(0, "", "", 0, "", false, 0, "", false));
      for i := 0 to |log|
        invariant forall j | 0 <= j < i :: out[j] == log[j].entry
      {
        out[i] := log[i].entry;
      }
    }
  }

  // ---------------------------------------------------------------------------
  // What every log keeps
  // ---------------------------------------------------------------------------

  /** Entries are numbered without gaps, newest first, and exactly the newest are kept. */
  predicate Numbered(b: Book) {
    && |b.log| == (if b.nextID < LOG_MAX then b.nextID else LOG_MAX)
    && forall i | 0 <= i < |b.log| :: b.log[i].entry.id == b.nextID - i
  }

  predicate KeysDistinct(b: Book) {
    forall i, j | 0 <= i < j < |b.log| && b.log[i].key.id != 0 :: b.log[i].key != b.log[j].key
  }

  /** What recording an event does to the row at position i of the new log. */
  lemma RecordedRow(b: Book, e: Stamped, i: nat)
    requires Numbered(b) && KeysDistinct(b) && i < |Recorded(b, e).log|
    ensures var b' := Recorded(b, e);
            if Folds(b, e) then
              && b'.nextID == b.nextID && |b'.log| == |b.log| && b'.log[i].key == b.log[i].key
              && b'.log[i].entry ==
                   if b.log[i].key == KeyOf(e) then Updated(b.log[i].entry, e.ev) else b.log[i].entry
            else
              && b'.nextID == b.nextID + 1
              && if i == 0 then b'.log[i] == Row(NewEntry(b.nextID + 1, e), KeyOf(e))
                 else i - 1 < |b.log| && b'.log[i] == b.log[i - 1]
  {
  }

  lemma RecordedWellFormed(b: Book, e: Stamped)
    requires Numbered(b) && KeysDistinct(b)
    ensures Numbered(Recorded(b, e)) && KeysDistinct(Recorded(b, e))
  {
  }

  lemma {:induction false} LogIsWellFormed(events: seq<Stamped>)
    ensures Numbered(Fold(events)) && KeysDistinct(Fold(events))
  {
    if events != [] {
      LogIsWellFormed(events[..|events| - 1]);
      RecordedWellFormed(Fold(events[..|events| - 1]), Last(events));
    }
  }

  /** The entry an event went to: its number never changes. */
  function EntryOf(events: seq<Stamped>, j: nat): nat
    requires j < |events|
  {
    var before := Fold(events[..j]);
    if Folds(before, events[j]) then before.log[Find(before.log, KeyOf(events[j]))].entry.id else before.nextID + 1
  }

  /** The last event with a key, or the number of events. */
  function LastWith(events: seq<Stamped>, key: Key): (j: nat)
    ensures j <= |events|
    ensures j < |events| ==> KeyOf(events[j]) == key && forall k | j < k < |events| :: KeyOf(events[k]) != key
    ensures j == |events| ==> forall k | 0 <= k < |events| :: KeyOf(events[k]) != key
  {
    if events == [] then 0
    else if KeyOf(Last(events)) == key then |events| - 1
    else
      var j := LastWith(events[..|events| - 1], key);
      if j == |events| - 1 then |events| else j
  }

  /** Event j opened entry e: it found no entry to fold into, and e still says when, where and what it was. */
  predicate OpenedBy(events: seq<Stamped>, r: Row, j: nat) {
    && j < |events| && !Folds(Fold(events[..j]), events[j])
    && r.key == KeyOf(events[j]) && r.entry.id == Fold(events[..j]).nextID + 1
    && r.entry.at == events[j].ev.at && r.entry.command == events[j].ev.command
    && r.entry.hostID == events[j].hostID && r.entry.hostName == events[j].hostName
  }

  predicate ShowsStatus(entry: Entry, ev: Event) {
    entry.finished == ev.finished && entry.code == ev.code && entry.err == ev.err && entry.refused == ev.refused
  }

  /** The row shows the status of the last event with its key. */
  predicate Shown(events: seq<Stamped>, r: Row) {
    LastWith(events, r.key) < |events| && ShowsStatus(r.entry, events[LastWith(events, r.key)].ev)
  }

  /**
   Every entry is one command's: it keeps the time, host and text of the event that
   opened it, and shows the status of the last event with its key. In particular
   events of different grants never meet in one entry.
   */
  lemma {:induction false} EntryTellsOneCommand(events: seq<Stamped>, i: nat) returns (j: nat)
    requires i < |Fold(events).log|
    ensures OpenedBy(events, Fold(events).log[i], j)
    ensures Fold(events).log[i].key.id != 0 ==> Shown(events, Fold(events).log[i])
    ensures Fold(events).log[i].key.id == 0 ==> ShowsStatus(Fold(events).log[i].entry, events[j].ev)
  {
    var before := events[..|events| - 1];
    LogIsWellFormed(before);
    var b, e := Fold(before), Last(events);
    RecordedRow(b, e, i);
    if !Folds(b, e) && i == 0 {
      j := |before|;
      assert events[..j] == before;
    } else {
      var was := if Folds(b, e) then i else i - 1;
      j := EntryTellsOneCommand(before, was);
      StillOpenedBy(events, b.log[was], Fold(events).log[i], j);
      if !Folds(b, e) && e.ev.id != 0 {
        assert b.log[was].key != KeyOf(e);
      }
    }
  }

  lemma StillOpenedBy(events: seq<Stamped>, was: Row, now: Row, j: nat)
    requires events != [] && OpenedBy(events[..|events| - 1], was, j) && SameCommand(was, now)
    ensures OpenedBy(events, now, j)
  {
    assert events[..|events| - 1][..j] == events[..j];
  }

  /** The entry that recording an event touches or adds is in place. */
  lemma RecordedInPlace(b: Book, e: Stamped)
    requires Numbered(b) && KeysDistinct(b)
    ensures var n := if Folds(b, e) then b.log[Find(b.log, KeyOf(e))].entry.id else b.nextID + 1;
            1 <= n <= Recorded(b, e).nextID && InPlace(Recorded(b, e), n, KeyOf(e))
  {
    RecordedRow(b, e, if Folds(b, e) then Find(b.log, KeyOf(e)) else 0);
  }

  /** An entry in place stays in place, one further down when an entry is added. */
  lemma StaysInPlace(b: Book, e: Stamped, n: nat, key: Key)
    requires Numbered(b) && KeysDistinct(b) && 1 <= n <= b.nextID && InPlace(b, n, key)
    ensures n <= Recorded(b, e).nextID && InPlace(Recorded(b, e), n, key)
  {
    RecordedWellFormed(b, e);
    var i := Recorded(b, e).nextID - n;
    if i < LOG_MAX {
      RecordedRow(b, e, i);
    }
  }

  /**
   No event is lost: the entry it went to is in the log, at its place, unless two
   hundred newer entries have pushed it out.
   */
  lemma {:induction false} NothingIsLost(events: seq<Stamped>, j: nat)
    requires j < |events|
    ensures 1 <= EntryOf(events, j) <= Fold(events).nextID
    ensures InPlace(Fold(events), EntryOf(events, j), KeyOf(events[j]))
  {
    var before := events[..|events| - 1];
    LogIsWellFormed(before);
    var b, e := Fold(before), Last(events);
    if j == |events| - 1 {
      assert events[..j] == before;
      RecordedInPlace(b, e);
    } else {
      NothingIsLost(before, j);
      assert before[..j] == events[..j];
      StaysInPlace(b, e, EntryOf(before, j), KeyOf(events[j]));
    }
  }

  /** Entry number n, if among the newest two hundred, is in the log at its place, under this key. */
  predicate InPlace(b: Book, n: nat, key: Key) {
    n <= b.nextID && (b.nextID - n < LOG_MAX ==> b.nextID - n < |b.log| && b.log[b.nextID - n].key == key)
  }

  /** Recording touches at most one entry, and one with the event's own key; everything older stays. */
  lemma RecordTouchesOne(events: seq<Stamped>, e: Stamped, n: nat)
    requires 1 <= n <= Fold(events).nextID && Fold(events + [e]).nextID - n < LOG_MAX
    ensures var b, b' := Fold(events), Fold(events + [e]);
            && b.nextID - n < |b.log| && 0 <= b'.nextID - n < |b'.log|
            && SameCommand(b.log[b.nextID - n], b'.log[b'.nextID - n])
            && (b'.log[b'.nextID - n] != b.log[b.nextID - n] ==> b.log[b.nextID - n].key == KeyOf(e))
  {
    assert (events + [e])[..|events|] == events;
    LogIsWellFormed(events);
    LogIsWellFormed(events + [e]);
    RecordedRow(Fold(events), e, Fold(events + [e]).nextID - n);
  }

  /** Same entry number, key, start time, text and host. */
  predicate SameCommand(r: Row, r': Row) {
    r'.key == r.key && r'.entry.id == r.entry.id && r'.entry.at == r.entry.at && r'.entry.command == r.entry.command &&
    r'.entry.hostID == r.entry.hostID && r'.entry.hostName == r.entry.hostName
  }
}
