/**
 What the structured-clone decoder makes: values, the maps among them, and how a
 value is printed to become the key of a map.

 A map is shared: it is filled while later values already refer to it, so it can
 come to contain itself. Maps live in the table of back-references, and a value only
 says which one it is.
 */
module CloneValues {
  import opened Common

  /** A UTF-16 code unit. */
  type Unit = n: nat | n < 0x1_0000

  /** A decoded value. A date is decoded to text; Time is what a reference to it finds in the table. */
  datatype Value =
    | Null
    | Bool(b: bool)
    | Int(n: int)
    | Double(bits: seq<byte>)
    | Date(bits: seq<byte>)
    | Text(bytes: seq<byte>)
    | WideText(units: seq<Unit>)
    | List(items: seq<Value>)
    | Map(id: nat)
    | Time(bits: seq<byte>)

  /** One key of a map, as printed, and its value. */
  datatype Property = Property(key: seq<byte>, value: Value)

  /** What a back-reference finds: a map as filled so far, the list stored before anything was appended, or a time. */
  datatype Entry = AMap(properties: seq<Property>) | AList | ATime(bits: seq<byte>)

  type Table = seq<Entry>

  /** Back-reference number id. */
  function Deref(t: Table, id: nat): Value
    requires id < |t|
  {
    match t[id]
    case AMap(_) => Map(id)
    case AList => List([])
    case ATime(bits) => Time(bits)
  }

  function PropertiesOf(t: Table, id: nat): seq<Property> {
    if id < |t| && t[id].AMap? then t[id].properties else []
  }

  // ---------------------------------------------------------------------------
  // Maps, ordered by key, as they are printed
  // ---------------------------------------------------------------------------

  /** Byte-wise order of strings. */
  predicate Before(a: seq<byte>, b: seq<byte>) {
    if b == [] then false
    else if a == [] then true
    else a[0] < b[0] || (a[0] == b[0] && Before(a[1..], b[1..]))
  }

  lemma {:induction false} OneIsBefore(a: seq<byte>, b: seq<byte>)
    ensures a == b || Before(a, b) || Before(b, a)
  {
    if a != [] && b != [] && a[0] == b[0] {
      OneIsBefore(a[1..], b[1..]);
      assert a == [a[0]] + a[1..] && b == [b[0]] + b[1..];
    }
  }

  predicate Ordered(ps: seq<Property>) {
    forall i | 0 < i < |ps| :: Before(ps[i - 1].key, ps[i].key)
  }

  /** m[key] = value */
  function Insert(ps: seq<Property>, key: seq<byte>, value: Value): seq<Property> {
    if ps == [] || Before(key, ps[0].key) then [Property(key, value)] + ps
    else if ps[0].key == key then [Property(key, value)] + ps[1..]
    else [ps[0]] + Insert(ps[1..], key, value)
  }

  function Lookup(ps: seq<Property>, key: seq<byte>): Option<Value> {
    if ps == [] then None else if ps[0].key == key then Some(ps[0].value) else Lookup(ps[1..], key)
  }

  /** A key that is there already gets the new value; all others keep theirs. */
  lemma {:induction false} InsertUpdates(ps: seq<Property>, key: seq<byte>, value: Value, k: seq<byte>)
    ensures Lookup(Insert(ps, key, value), k) == if k == key then Some(value) else Lookup(ps, k)
  {
    if ps != [] && !Before(key, ps[0].key) && ps[0].key != key {
      InsertUpdates(ps[1..], key, value, k);
    }
  }

  lemma {:induction false} InsertKeepsOrder(ps: seq<Property>, key: seq<byte>, value: Value)
    requires Ordered(ps)
    ensures Ordered(Insert(ps, key, value))
    ensures ps != [] ==> Insert(ps, key, value)[0].key in [key, ps[0].key]
  {
    if ps != [] && !Before(key, ps[0].key) && ps[0].key != key {
      OneIsBefore(key, ps[0].key);
      InsertKeepsOrder(ps[1..], key, value);
      var rest := Insert(ps[1..], key, value);
      assert Insert(ps, key, value) == [ps[0]] + rest;
      assert ps[1..] != [] ==> Before(ps[0].key, ps[1].key);
    }
  }

  /** Nothing is in a map but what was, and what was put there. */
  lemma {:induction false} InsertAddsOne(ps: seq<Property>, key: seq<byte>, value: Value, p: Property)
    requires p in Insert(ps, key, value)
    ensures p in ps || p.value == value
  {
    if ps != [] && !Before(key, ps[0].key) && ps[0].key != key && p != ps[0] {
      InsertAddsOne(ps[1..], key, value, p);
    }
  }

  // ---------------------------------------------------------------------------
  // Printing
  // ---------------------------------------------------------------------------

  /** What the decoder leaves to libraries: the text of a number, of UTF-16, and of a date in two formats. */
  datatype Library = Library(
    float: seq<byte> -> seq<byte>,
    utf16: seq<Unit> -> seq<byte>,
    rfc3339: seq<byte> -> seq<byte>,
    timeString: seq<byte> -> seq<byte>)

  function Ascii(s: string): seq<byte> {
    seq(|s|, i requires 0 <= i < |s| => (s[i] as int % 256) as byte)
  }

  function Digits(n: nat): seq<byte> {
    (if n < 10 then [] else Digits(n / 10)) + [(0x30 + n % 10) as byte]
  }

  /** The text of a value, following maps no deeper than this; None if that is not deep enough. */
  function PrintTo(lib: Library, t: Table, v: Value, depth: nat): Option<seq<byte>>
    decreases depth, v
  {
    match v
    case Null => Some(Ascii("<nil>"))
    case Bool(b) => Some(Ascii(if b then "true" else "false"))
    case Int(n) => Some(if n < 0 then Ascii("-") + Digits(-n) else Digits(n))
    case Double(bits) => Some(lib.float(bits))
    case Date(bits) => Some(lib.rfc3339(bits))
    case Text(bytes) => Some(bytes)
    case WideText(units) => Some(lib.utf16(units))
    case Time(bits) => Some(lib.timeString(bits))
    case List(items) => Bracketed("[", PrintItems(lib, t, items, depth))
    case Map(id) =>
      if depth == 0 then None else Bracketed("map[", PrintProperties(lib, t, PropertiesOf(t, id), depth - 1))
  }

  function Bracketed(open: string, text: Option<seq<byte>>): Option<seq<byte>> {
    if text.None? then None else Some(Ascii(open) + text.value + Ascii("]"))
  }

  /** One piece of text, a space if more follows, and the rest. */
  function Spaced(first: Option<seq<byte>>, more: bool, rest: Option<seq<byte>>): Option<seq<byte>> {
    if first.None? || rest.None? then None
    else Some(first.value + (if more then Ascii(" ") else []) + rest.value)
  }

  function PrintItems(lib: Library, t: Table, items: seq<Value>, depth: nat): Option<seq<byte>>
    decreases depth, items
  {
    if items == [] then Some([])
    else Spaced(PrintTo(lib, t, items[0], depth), |items| > 1, PrintItems(lib, t, items[1..], depth))
  }

  function PrintProperties(lib: Library, t: Table, ps: seq<Property>, depth: nat): Option<seq<byte>>
    decreases depth, ps
  {
    if ps == [] then Some([])
    else
      var value := PrintTo(lib, t, ps[0].value, depth);
      Spaced(if value.None? then None else Some(ps[0].key + Ascii(":") + value.value), |ps| > 1,
             PrintProperties(lib, t, ps[1..], depth))
  }

  /** fmt.Sprint; None if it never comes back. As deep as there are maps is deep enough. */
  function Print(lib: Library, t: Table, v: Value): Option<seq<byte>> {
    PrintTo(lib, t, v, |t| + 1)
  }

  /** The number that decimal digits make. */
  function Decimal(digits: seq<byte>): int {
    if digits == [] then 0 else 10 * Decimal(digits[..|digits| - 1]) + (Last(digits) as int - 0x30)
  }

  /** Digits are decimal, without a leading zero. */
  lemma {:induction false} DigitsRead(n: nat)
    ensures Decimal(Digits(n)) == n && Digits(n) != []
    ensures forall d | d in Digits(n) :: 0x30 <= d <= 0x39
    ensures Digits(n)[0] == 0x30 ==> n == 0
  {
    if n >= 10 {
      DigitsRead(n / 10);
      assert Digits(n)[..|Digits(n)| - 1] == Digits(n / 10);
    }
  }

  /** A text is the key it is printed as, and different numbers are different keys. */
  lemma KeysAreWhatTheySay(lib: Library, t: Table, text: seq<byte>, m: nat, n: nat)
    ensures Print(lib, t, Text(text)) == Some(text)
    ensures Print(lib, t, Int(m)) == Print(lib, t, Int(n)) <==> m == n
    ensures Print(lib, t, Int(n)).Some? && Decimal(Print(lib, t, Int(n)).value) == n
  {
    DigitsRead(m);
    DigitsRead(n);
  }

  // ---------------------------------------------------------------------------
  // Values that contain themselves
  // ---------------------------------------------------------------------------

  /** A map is in this value, and not inside another map in it. */
  predicate Holds(v: Value, id: nat)
    decreases v
  {
    v == Map(id) || (v.List? && exists i | 0 <= i < |v.items| :: Holds(v.items[i], id))
  }

  predicate AnyHolds(ps: seq<Property>, id: nat) {
    exists i | 0 <= i < |ps| :: Holds(ps[i].value, id)
  }

  /** Map a has map b as a value, or in a list that is one. */
  predicate Edge(t: Table, a: nat, b: nat) {
    AnyHolds(PropertiesOf(t, a), b)
  }

  /** From each of these maps to the next. */
  predicate IsPath(t: Table, p: seq<nat>) {
    forall i | 0 < i < |p| :: Edge(t, p[i - 1], p[i])
  }

  /** A path from a value that ends at a map it has been to. */
  predicate Circles(t: Table, v: Value, p: seq<nat>) {
    |p| >= 2 && Holds(v, p[0]) && IsPath(t, p) && Last(p) in p[..|p| - 1]
  }

  /** The value leads to a map that contains itself. */
  ghost predicate ReachesCycle(t: Table, v: Value) {
    exists p: seq<nat> :: Circles(t, v, p)
  }

  // Printing a value prints what it holds, one level down.

  lemma {:induction false} PrintsHeld(lib: Library, t: Table, v: Value, depth: nat, id: nat)
    requires PrintTo(lib, t, v, depth).Some? && Holds(v, id)
    ensures PrintTo(lib, t, Map(id), depth).Some?
    decreases v, 1
  {
    if v.List? {
      var i :| 0 <= i < |v.items| && Holds(v.items[i], id);
      PrintsItem(lib, t, v.items, depth, i);
      PrintsHeld(lib, t, v.items[i], depth, id);
    }
  }

  lemma {:induction false} PrintsItem(lib: Library, t: Table, items: seq<Value>, depth: nat, i: nat)
    requires i < |items| && PrintItems(lib, t, items, depth).Some?
    ensures PrintTo(lib, t, items[i], depth).Some?
  {
    if i > 0 {
      PrintsItem(lib, t, items[1..], depth, i - 1);
    }
  }

  lemma {:induction false} PrintsProperty(lib: Library, t: Table, ps: seq<Property>, depth: nat, i: nat)
    requires i < |ps| && PrintProperties(lib, t, ps, depth).Some?
    ensures PrintTo(lib, t, ps[i].value, depth).Some?
  {
    if i > 0 {
      PrintsProperty(lib, t, ps[1..], depth, i - 1);
    }
  }

  lemma PrintsNext(lib: Library, t: Table, a: nat, b: nat, depth: nat)
    requires PrintTo(lib, t, Map(a), depth).Some? && Edge(t, a, b)
    ensures depth > 0 && PrintTo(lib, t, Map(b), depth - 1).Some?
  {
    var ps := PropertiesOf(t, a);
    var i :| 0 <= i < |ps| && Holds(ps[i].value, b);
    PrintsProperty(lib, t, ps, depth - 1, i);
    PrintsHeld(lib, t, ps[i].value, depth - 1, b);
  }

  lemma {:induction false} PrintsAlong(lib: Library, t: Table, p: seq<nat>, depth: nat)
    requires p != [] && IsPath(t, p) && PrintTo(lib, t, Map(p[0]), depth).Some?
    ensures depth >= |p| - 1 && PrintTo(lib, t, Map(Last(p)), depth - (|p| - 1)).Some?
    decreases |p|
  {
    if |p| > 1 {
      PrintsNext(lib, t, p[0], p[1], depth);
      assert forall i | 0 < i < |p[1..]| :: Edge(t, p[i], p[i + 1]);
      PrintsAlong(lib, t, p[1..], depth - 1);
    }
  }

  lemma {:induction false} NoDepthIsEnough(lib: Library, t: Table, p: seq<nat>, depth: nat)
    requires |p| >= 2 && IsPath(t, p) && Last(p) == p[0]
    ensures PrintTo(lib, t, Map(p[0]), depth).None?
  {
    if PrintTo(lib, t, Map(p[0]), depth).Some? {
      PrintsAlong(lib, t, p, depth);
      NoDepthIsEnough(lib, t, p, depth - (|p| - 1));
    }
  }

  /** A value that leads to a map that contains itself cannot be printed, to whatever depth. */
  lemma CircleNeverPrints(lib: Library, t: Table, v: Value, p: seq<nat>, depth: nat)
    requires Circles(t, v, p)
    ensures PrintTo(lib, t, v, depth).None?
  {
    if PrintTo(lib, t, v, depth).Some? {
      var i :| 0 <= i < |p| - 1 && p[i] == Last(p);
      PrintsHeld(lib, t, v, depth, p[0]);
      PrintsAlong(lib, t, p[..i + 1], depth);
      NoDepthIsEnough(lib, t, p[i..], depth - i);
    }
  }

  // What cannot be printed to some depth holds a path of maps that long.

  /** A path of maps from this value, one longer than the depth. */
  ghost predicate LeadsDeeper(t: Table, v: Value, depth: nat) {
    exists p: seq<nat> :: |p| == depth + 1 && Holds(v, p[0]) && IsPath(t, p)
  }

  lemma {:induction false} TooDeep(lib: Library, t: Table, v: Value, depth: nat)
    requires PrintTo(lib, t, v, depth).None?
    ensures LeadsDeeper(t, v, depth)
    decreases depth, v
  {
    if v.List? {
      var i := TooDeepItem(lib, t, v.items, depth);
      var p: seq<nat> :| |p| == depth + 1 && Holds(v.items[i], p[0]) && IsPath(t, p);
      assert Holds(v, p[0]);
    } else if depth == 0 {
      assert |[v.id]| == 1 && Holds(v, [v.id][0]) && IsPath(t, [v.id]);
    } else {
      var ps := PropertiesOf(t, v.id);
      var i := TooDeepProperty(lib, t, ps, depth - 1);
      var p: seq<nat> :| |p| == depth && Holds(ps[i].value, p[0]) && IsPath(t, p);
      assert AnyHolds(ps, p[0]);
      var q := [v.id] + p;
      assert forall j | 0 < j < |q| :: q[j] == p[j - 1];
      assert |q| == depth + 1 && Holds(v, q[0]) && IsPath(t, q);
    }
  }

  lemma {:induction false} TooDeepItem(lib: Library, t: Table, items: seq<Value>, depth: nat) returns (i: nat)
    requires PrintItems(lib, t, items, depth).None?
    ensures i < |items| && LeadsDeeper(t, items[i], depth)
    decreases depth, items
  {
    if PrintTo(lib, t, items[0], depth).None? {
      TooDeep(lib, t, items[0], depth);
      i := 0;
    } else {
      i := TooDeepItem(lib, t, items[1..], depth);
      i := i + 1;
    }
  }

  lemma {:induction false} TooDeepProperty(lib: Library, t: Table, ps: seq<Property>, depth: nat) returns (i: nat)
    requires PrintProperties(lib, t, ps, depth).None?
    ensures i < |ps| && LeadsDeeper(t, ps[i].value, depth)
    decreases depth, ps
  {
    if PrintTo(lib, t, ps[0].value, depth).None? {
      TooDeep(lib, t, ps[0].value, depth);
      i := 0;
    } else {
      i := TooDeepProperty(lib, t, ps[1..], depth);
      i := i + 1;
    }
  }

  /** More numbers than there are to choose from: one occurs twice. */
  lemma {:induction false} Pigeonhole(s: seq<nat>, n: nat) returns (i: nat, j: nat)
    requires |s| > n && forall k | 0 <= k < |s| :: s[k] < n
    ensures i < j < |s| && s[i] == s[j]
    decreases n
  {
    var last := |s| - 1;
    if k :| 0 <= k < last && s[k] == s[last] {
      i, j := k, last;
    } else {
      // rename n - 1 to the number at the end, which occurs nowhere else
      var rest: seq<nat> := seq(last, k requires 0 <= k < last => if s[k] == n - 1 then s[last] else s[k]);
      i, j := Pigeonhole(rest, n - 1);
    }
  }

  lemma TooDeepCircles(lib: Library, t: Table, v: Value)
    requires Print(lib, t, v).None?
    ensures ReachesCycle(t, v)
  {
    TooDeep(lib, t, v, |t| + 1);
    var p: seq<nat> :| |p| == |t| + 2 && Holds(v, p[0]) && IsPath(t, p);
    var q := p[..|t| + 1];
    forall k | 0 <= k < |q|
      ensures q[k] < |t|
    {
      assert Edge(t, p[k], p[k + 1]);
    }
    var i, j := Pigeonhole(q, |t|);
    var r := p[..j + 1];
    assert r[..|r| - 1][i] == p[i] == Last(r);
    assert Circles(t, v, r);
  }

  /** Printing comes back, at whatever depth, if and only if the value leads to no map that contains itself. */
  lemma PrintsIff(lib: Library, t: Table, v: Value)
    ensures Print(lib, t, v).Some? <==> !ReachesCycle(t, v)
    ensures (exists depth: nat :: PrintTo(lib, t, v, depth).Some?) <==> !ReachesCycle(t, v)
  {
    if ReachesCycle(t, v) {
      var p: seq<nat> :| Circles(t, v, p);
      forall depth: nat
        ensures PrintTo(lib, t, v, depth).None?
      {
        CircleNeverPrints(lib, t, v, p, depth);
      }
    } else {
      if Print(lib, t, v).None? {
        TooDeepCircles(lib, t, v);
      }
      assert PrintTo(lib, t, v, |t| + 1).Some?;
    }
  }

  /** Going deeper than needed makes no difference. */
  lemma {:induction false} DepthDoesNotMatter(lib: Library, t: Table, v: Value, depth: nat, more: nat)
    requires PrintTo(lib, t, v, depth).Some?
    ensures PrintTo(lib, t, v, depth + more) == PrintTo(lib, t, v, depth)
    decreases depth, v
  {
    if v.List? {
      ItemsDepth(lib, t, v.items, depth, more);
    } else if v.Map? {
      PropertiesDepth(lib, t, PropertiesOf(t, v.id), depth - 1, more);
    }
  }

  lemma {:induction false} ItemsDepth(lib: Library, t: Table, items: seq<Value>, depth: nat, more: nat)
    requires PrintItems(lib, t, items, depth).Some?
    ensures PrintItems(lib, t, items, depth + more) == PrintItems(lib, t, items, depth)
    decreases depth, items
  {
    if items != [] {
      DepthDoesNotMatter(lib, t, items[0], depth, more);
      ItemsDepth(lib, t, items[1..], depth, more);
    }
  }

  lemma {:induction false} PropertiesDepth(lib: Library, t: Table, ps: seq<Property>, depth: nat, more: nat)
    requires PrintProperties(lib, t, ps, depth).Some?
    ensures PrintProperties(lib, t, ps, depth + more) == PrintProperties(lib, t, ps, depth)
    decreases depth, ps
  {
    if ps != [] {
      DepthDoesNotMatter(lib, t, ps[0].value, depth, more);
      PropertiesDepth(lib, t, ps[1..], depth, more);
    }
  }
}
