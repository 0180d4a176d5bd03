/**
 The working copy of the document: importing hosts again and again, and the edits
 that must keep names unique and bindings live.
 */
module Store {
  import opened Common
  import opened Documents
  import opened Merge

  // ---------------------------------------------------------------------------
  // Import, one host at a time
  // ---------------------------------------------------------------------------

  /** What an incoming host makes of the stored one of the same name. */
  function Combined(existing: Host, incoming: Host, withSecrets: bool): Host {
    incoming.(
      id := existing.id,
      lastSeen := existing.lastSeen,
      keyID := if incoming.keyID == "" then existing.keyID else incoming.keyID,
      authMethod := if withSecrets then incoming.authMethod else existing.authMethod,
      password := if !withSecrets || incoming.password == "" then existing.password else incoming.password)
  }

  datatype Tally = Tally(hosts: seq<Host>, added: nat, updated: nat, skipped: nat, used: nat)

  function Upsert(t: Tally, incoming: Host, withSecrets: bool, supply: Supply): (t': Tally)
    ensures |t.hosts| <= |t'.hosts|
  {
    var i := IndexByName(t.hosts, incoming.name);
    if i < 0 then
      var id := if incoming.id == "" then supply(t.used) else incoming.id;
      t.(hosts := t.hosts + [incoming.(id := id)], added := t.added + 1,
         used := if incoming.id == "" then t.used + 1 else t.used)
    else if t.hosts[i].source == "manual" || Combined(t.hosts[i], incoming, withSecrets) == t.hosts[i] then
      t.(skipped := t.skipped + 1)
    else
      t.(hosts := t.hosts[i := Combined(t.hosts[i], incoming, withSecrets)], updated := t.updated + 1)
  }

  function Upserts(hosts: seq<Host>, incoming: seq<Host>, withSecrets: bool, supply: Supply): (t: Tally)
    ensures |hosts| <= |t.hosts|
  {
    if incoming == [] then Tally(hosts, 0, 0, 0, 0)
    else Upsert(Upserts(hosts, incoming[..|incoming| - 1], withSecrets, supply), Last(incoming), withSecrets, supply)
  }

  /** What importing may do to a stored host: nothing to a manual one; never its id or when it was last seen. */
  predicate Survives(before: Host, after: Host, withSecrets: bool) {
    && after.id == before.id && after.lastSeen == before.lastSeen && NameKey(after.name) == NameKey(before.name)
    && (before.source == "manual" ==> after == before)
    && (before.keyID != "" ==> after.keyID != "")
    && (before.password != "" ==> after.password != "")
    && (!withSecrets ==> after.password == before.password && after.authMethod == before.authMethod)
  }

  /** Importing is conservative: every stored host is still in its place, and survives. */
  lemma {:induction false} ImportIsConservative(hosts: seq<Host>, incoming: seq<Host>, withSecrets: bool, supply: Supply, i: nat)
    requires i < |hosts|
    ensures Survives(hosts[i], Upserts(hosts, incoming, withSecrets, supply).hosts[i], withSecrets)
  {
    if incoming != [] {
      ImportIsConservative(hosts, incoming[..|incoming| - 1], withSecrets, supply, i);
    }
  }

  /** The stored host of this name is what importing this host again would leave alone. */
  predicate Absorbed(hosts: seq<Host>, incoming: Host, withSecrets: bool) {
    var i := IndexByName(hosts, incoming.name);
    i >= 0 && (hosts[i].source == "manual" || Combined(hosts[i], incoming, withSecrets) == hosts[i])
  }

  lemma UpsertAbsorbs(t: Tally, incoming: Host, withSecrets: bool, supply: Supply)
    ensures Absorbed(Upsert(t, incoming, withSecrets, supply).hosts, incoming, withSecrets)
  {
    var t' := Upsert(t, incoming, withSecrets, supply);
    var i := IndexByName(t.hosts, incoming.name);
    var j := IndexByName(t'.hosts, incoming.name);
    if i < 0 {
      assert t'.hosts[|t.hosts|] in t'.hosts;
      assert j == |t.hosts|;
    } else {
      assert NameKey(t'.hosts[i].name) == NameKey(incoming.name);
      assert t'.hosts[i] in t'.hosts;
      assert j == i;
    }
  }

  lemma UpsertLeavesOthers(t: Tally, other: Host, incoming: Host, withSecrets: bool, supply: Supply)
    requires Absorbed(t.hosts, other, withSecrets) && NameKey(other.name) != NameKey(incoming.name)
    ensures Absorbed(Upsert(t, incoming, withSecrets, supply).hosts, other, withSecrets)
  {
    var t' := Upsert(t, incoming, withSecrets, supply);
    var i := IndexByName(t.hosts, other.name);
    assert t'.hosts[i] == t.hosts[i];
    assert t'.hosts[i] in t'.hosts;
    assert IndexByName(t'.hosts, other.name) == i;
  }

  /** After importing a list with distinct names, importing any of its hosts again would change nothing. */
  lemma {:induction false} AllAbsorbed(hosts: seq<Host>, incoming: seq<Host>, withSecrets: bool, supply: Supply, j: nat)
    requires HostNamesUnique(incoming) && j < |incoming|
    ensures Absorbed(Upserts(hosts, incoming, withSecrets, supply).hosts, incoming[j], withSecrets)
  {
    var shorter := incoming[..|incoming| - 1];
    var before := Upserts(hosts, shorter, withSecrets, supply);
    if j == |incoming| - 1 {
      UpsertAbsorbs(before, Last(incoming), withSecrets, supply);
    } else {
      AllAbsorbed(hosts, shorter, withSecrets, supply, j);
      UpsertLeavesOthers(before, incoming[j], Last(incoming), withSecrets, supply);
    }
  }

  lemma {:induction false} AbsorbedMeansSkipped(hosts: seq<Host>, incoming: seq<Host>, withSecrets: bool, supply: Supply)
    requires forall h | h in incoming :: Absorbed(hosts, h, withSecrets)
    ensures Upserts(hosts, incoming, withSecrets, supply) == Tally(hosts, 0, 0, |incoming|, 0)
  {
    if incoming != [] {
      AbsorbedMeansSkipped(hosts, incoming[..|incoming| - 1], withSecrets, supply);
    }
  }

  /** Importing the same list twice: the second time nothing is added, nothing is updated, nothing changes. */
  lemma ImportIsIdempotent(hosts: seq<Host>, incoming: seq<Host>, withSecrets: bool, supply: Supply, supply2: Supply)
    requires HostNamesUnique(incoming)
    ensures var first := Upserts(hosts, incoming, withSecrets, supply);
            Upserts(first.hosts, incoming, withSecrets, supply2) == Tally(first.hosts, 0, 0, |incoming|, 0)
  {
    var first := Upserts(hosts, incoming, withSecrets, supply);
    forall h | h in incoming
      ensures Absorbed(first.hosts, h, withSecrets)
    {
      var j :| 0 <= j < |incoming| && incoming[j] == h;
      AllAbsorbed(hosts, incoming, withSecrets, supply, j);
    }
    AbsorbedMeansSkipped(first.hosts, incoming, withSecrets, supply2);
  }

  lemma UpsertKeepsNamesUnique(t: Tally, incoming: Host, withSecrets: bool, supply: Supply)
    requires HostNamesUnique(t.hosts)
    ensures var t' := Upsert(t, incoming, withSecrets, supply);
            HostNamesUnique(t'.hosts) && t'.added + t'.updated + t'.skipped == t.added + t.updated + t.skipped + 1
  {
    var i := IndexByName(t.hosts, incoming.name);
    assert i < 0 ==> forall j :: 0 <= j < |t.hosts| ==> NameKey(t.hosts[j].name) != NameKey(incoming.name);
  }

  lemma {:induction false} ImportKeepsNamesUnique(hosts: seq<Host>, incoming: seq<Host>, withSecrets: bool, supply: Supply)
    requires HostNamesUnique(hosts)
    ensures HostNamesUnique(Upserts(hosts, incoming, withSecrets, supply).hosts)
    ensures var t := Upserts(hosts, incoming, withSecrets, supply); t.added + t.updated + t.skipped == |incoming|
  {
    if incoming != [] {
      var shorter := incoming[..|incoming| - 1];
      ImportKeepsNamesUnique(hosts, shorter, withSecrets, supply);
      UpsertKeepsNamesUnique(Upserts(hosts, shorter, withSecrets, supply), Last(incoming), withSecrets, supply);
    }
  }

  // ---------------------------------------------------------------------------
  // What an import makes of each host
  // ---------------------------------------------------------------------------

  /**
   What has become of this incoming host. A new name is stored with all its fields;
   a manual host of the name stays as it is; any other takes what the import says
   of the machine, keeps its identity, and loses neither its key nor its secrets.
   */
  ghost predicate ImportedAs(hosts: seq<Host>, hosts': seq<Host>, h: Host, withSecrets: bool, supply: Supply) {
    var i, i' := IndexByName(hosts, h.name), IndexByName(hosts', h.name);
    && i' >= 0
    && var now := hosts'[i'];
    && (i < 0 ==>
          && i' >= |hosts| && now == h.(id := now.id)
          && if h.id == "" then exists u: nat :: now.id == supply(u) else now.id == h.id)
    && (i >= 0 ==> i' == i)
    && (i >= 0 && hosts[i].source == "manual" ==> now == hosts[i])
    && (i >= 0 && hosts[i].source != "manual" ==>
          && now.name == h.name && now.user == h.user && now.addr == h.addr && now.port == h.port
          && now.tags == h.tags && now.keyPath == h.keyPath && now.source == h.source
          && now.id == hosts[i].id && now.lastSeen == hosts[i].lastSeen
          && now.keyID == (if h.keyID != "" then h.keyID else hosts[i].keyID)
          && now.authMethod == (if withSecrets then h.authMethod else hosts[i].authMethod)
          && now.password == (if withSecrets && h.password != "" then h.password else hosts[i].password))
  }

  /** One host coming in adds one, changes the one of its name, or changes nothing; and that is what is counted. */
  lemma UpsertCases(t: Tally, incoming: Host, withSecrets: bool, supply: Supply)
    ensures var t', i := Upsert(t, incoming, withSecrets, supply), IndexByName(t.hosts, incoming.name);
            if i < 0 then
              && |t'.hosts| == |t.hosts| + 1 && t'.hosts == t.hosts + [Last(t'.hosts)] && Last(t'.hosts).name == incoming.name
              && t'.added == t.added + 1 && t'.updated == t.updated
            else
              && t'.hosts == t.hosts[i := t'.hosts[i]] && NameKey(t'.hosts[i].name) == NameKey(incoming.name)
              && t'.added == t.added && t'.updated == t.updated + if t'.hosts[i] != t.hosts[i] then 1 else 0
  {
  }

  /** A stored host that the import does not name stays as it is. */
  lemma {:induction false} UnnamedStays(hosts: seq<Host>, incoming: seq<Host>, withSecrets: bool, supply: Supply, i: nat)
    requires i < |hosts| && forall h | h in incoming :: NameKey(h.name) != NameKey(hosts[i].name)
    ensures Upserts(hosts, incoming, withSecrets, supply).hosts[i] == hosts[i]
  {
    if incoming != [] {
      UnnamedStays(hosts, incoming[..|incoming| - 1], withSecrets, supply, i);
    }
  }

  /** Every further host has the name of one that came in. */
  lemma {:induction false} FurtherCameIn(hosts: seq<Host>, incoming: seq<Host>, withSecrets: bool, supply: Supply, i: nat)
    requires |hosts| <= i < |Upserts(hosts, incoming, withSecrets, supply).hosts|
    ensures exists h :: h in incoming && NameKey(h.name) == NameKey(Upserts(hosts, incoming, withSecrets, supply).hosts[i].name)
  {
    hide Upsert;
    var shorter := incoming[..|incoming| - 1];
    var before := Upserts(hosts, shorter, withSecrets, supply);
    UpsertCases(before, Last(incoming), withSecrets, supply);
    if i < |before.hosts| && IndexByName(before.hosts, Last(incoming).name) != i {
      FurtherCameIn(hosts, shorter, withSecrets, supply, i);
      var h :| h in shorter && NameKey(h.name) == NameKey(before.hosts[i].name);
      assert h in incoming;
    } else {
      assert Last(incoming) in incoming;
    }
  }

  /** The last host to come in meets the stored host of its name as it was. */
  lemma MeetsTheStored(hosts: seq<Host>, incoming: seq<Host>, withSecrets: bool, supply: Supply)
    requires incoming != [] && HostNamesUnique(incoming)
    ensures var before := Upserts(hosts, incoming[..|incoming| - 1], withSecrets, supply);
            var i := IndexByName(hosts, Last(incoming).name);
            IndexByName(before.hosts, Last(incoming).name) == i && (i >= 0 ==> before.hosts[i] == hosts[i])
  {
    var shorter, h := incoming[..|incoming| - 1], Last(incoming);
    var before := Upserts(hosts, shorter, withSecrets, supply);
    var i := IndexByName(hosts, h.name);
    assert forall x | x in shorter :: NameKey(x.name) != NameKey(h.name);
    if i >= 0 {
      UnnamedStays(hosts, shorter, withSecrets, supply, i);
      assert before.hosts[i] in before.hosts;
    }
    var k := IndexByName(before.hosts, h.name);
    if k >= |hosts| {
      FurtherCameIn(hosts, shorter, withSecrets, supply, k);
    } else if k >= 0 {
      ImportIsConservative(hosts, shorter, withSecrets, supply, k);
      assert hosts[k] in hosts;
    }
  }

  lemma UpsertImportsAs(hosts: seq<Host>, t: Tally, incoming: Host, withSecrets: bool, supply: Supply)
    requires |hosts| <= |t.hosts|
    requires var i := IndexByName(hosts, incoming.name);
             IndexByName(t.hosts, incoming.name) == i && (i >= 0 ==> t.hosts[i] == hosts[i])
    ensures ImportedAs(hosts, Upsert(t, incoming, withSecrets, supply).hosts, incoming, withSecrets, supply)
  {
    var t' := Upsert(t, incoming, withSecrets, supply);
    var i := IndexByName(t.hosts, incoming.name);
    var home := if i < 0 then |t.hosts| else i;
    assert NameKey(t'.hosts[home].name) == NameKey(incoming.name) && t'.hosts[home] in t'.hosts;
    assert IndexByName(t'.hosts, incoming.name) == home;
  }

  lemma UpsertKeepsPlace(t: Tally, name: string, incoming: Host, withSecrets: bool, supply: Supply)
    requires IndexByName(t.hosts, name) >= 0 && NameKey(name) != NameKey(incoming.name)
    ensures var t', i := Upsert(t, incoming, withSecrets, supply), IndexByName(t.hosts, name);
            IndexByName(t'.hosts, name) == i && t'.hosts[i] == t.hosts[i]
  {
    hide Upsert, NameKey, IndexByName;
    UpsertCases(t, incoming, withSecrets, supply);
    var t', i, k := Upsert(t, incoming, withSecrets, supply), IndexByName(t.hosts, name), IndexByName(t.hosts, incoming.name);
    assert k != i;
    forall x | 0 <= x < |t.hosts|
      ensures NameKey(t'.hosts[x].name) == NameKey(t.hosts[x].name)
    {
      assert x != k ==> t'.hosts[x] == t.hosts[x];
    }
    SamePlace(t.hosts, t'.hosts, name);
  }

  lemma SamePlace(hosts: seq<Host>, hosts': seq<Host>, name: string)
    requires IndexByName(hosts, name) >= 0 && |hosts| <= |hosts'|
    requires forall x | 0 <= x < |hosts| :: NameKey(hosts'[x].name) == NameKey(hosts[x].name)
    ensures IndexByName(hosts', name) == IndexByName(hosts, name)
  {
    hide NameKey;
    assert hosts'[IndexByName(hosts, name)] in hosts';
    var i := IndexByName(hosts', name);
    assert i < |hosts| ==> hosts[i] in hosts;
  }

  /** What has become of one host of an import is not changed by a later one of another name. */
  lemma OtherKeepsImported(hosts: seq<Host>, t: Tally, h: Host, incoming: Host, withSecrets: bool, supply: Supply)
    requires ImportedAs(hosts, t.hosts, h, withSecrets, supply) && NameKey(h.name) != NameKey(incoming.name)
    ensures ImportedAs(hosts, Upsert(t, incoming, withSecrets, supply).hosts, h, withSecrets, supply)
  {
    UpsertKeepsPlace(t, h.name, incoming, withSecrets, supply);
    hide Upsert;
  }

  /** What an import makes of each of its hosts, field by field, when their names are distinct. */
  lemma {:induction false} ImportTakesOver(hosts: seq<Host>, incoming: seq<Host>, withSecrets: bool, supply: Supply, j: nat)
    requires HostNamesUnique(incoming) && j < |incoming|
    ensures ImportedAs(hosts, Upserts(hosts, incoming, withSecrets, supply).hosts, incoming[j], withSecrets, supply)
  {
    hide Upsert, ImportedAs;
    var shorter := incoming[..|incoming| - 1];
    var before := Upserts(hosts, shorter, withSecrets, supply);
    if j == |incoming| - 1 {
      MeetsTheStored(hosts, incoming, withSecrets, supply);
      UpsertImportsAs(hosts, before, Last(incoming), withSecrets, supply);
    } else {
      ImportTakesOver(hosts, shorter, withSecrets, supply, j);
      OtherKeepsImported(hosts, before, incoming[j], Last(incoming), withSecrets, supply);
    }
  }

  /** The places whose hosts are not what they were. */
  function Changed(hosts: seq<Host>, hosts': seq<Host>): set<nat> {
    set i: nat | i < |hosts| && i < |hosts'| && hosts'[i] != hosts[i]
  }

  lemma UpsertCounts(hosts: seq<Host>, t: Tally, incoming: Host, withSecrets: bool, supply: Supply)
    requires |hosts| <= |t.hosts| && t.added == |t.hosts| - |hosts| && t.updated == |Changed(hosts, t.hosts)|
    requires var i := IndexByName(hosts, incoming.name);
             IndexByName(t.hosts, incoming.name) == i && (i >= 0 ==> t.hosts[i] == hosts[i])
    ensures var t' := Upsert(t, incoming, withSecrets, supply);
            t'.added == |t'.hosts| - |hosts| && t'.updated == |Changed(hosts, t'.hosts)|
  {
    hide Upsert, Changed;
    UpsertCases(t, incoming, withSecrets, supply);
    var t', i := Upsert(t, incoming, withSecrets, supply), IndexByName(hosts, incoming.name);
    if i < 0 {
      ChangedMore(hosts, t.hosts, Last(t'.hosts));
    } else {
      ChangedAt(hosts, t.hosts, i, t'.hosts[i]);
    }
  }

  lemma ChangedMore(hosts: seq<Host>, now: seq<Host>, h: Host)
    requires |hosts| <= |now|
    ensures Changed(hosts, now + [h]) == Changed(hosts, now)
  {
  }

  lemma ChangedAt(hosts: seq<Host>, now: seq<Host>, i: nat, h: Host)
    requires i < |hosts| <= |now| && now[i] == hosts[i]
    ensures |Changed(hosts, now[i := h])| == |Changed(hosts, now)| + if h != now[i] then 1 else 0
  {
    if h != now[i] {
      assert i !in Changed(hosts, now) && Changed(hosts, now[i := h]) == Changed(hosts, now) + {i};
    } else {
      assert now[i := h] == now;
    }
  }

  /** The counters tell what happened: so many hosts more, so many changed. */
  lemma {:induction false} CountersTell(hosts: seq<Host>, incoming: seq<Host>, withSecrets: bool, supply: Supply)
    requires HostNamesUnique(incoming)
    ensures var t := Upserts(hosts, incoming, withSecrets, supply);
            t.added == |t.hosts| - |hosts| && t.updated == |Changed(hosts, t.hosts)|
  {
    if incoming == [] {
      assert Changed(hosts, hosts) == {};
    } else {
      hide Upsert, Changed;
      var shorter := incoming[..|incoming| - 1];
      CountersTell(hosts, shorter, withSecrets, supply);
      MeetsTheStored(hosts, incoming, withSecrets, supply);
      UpsertCounts(hosts, Upserts(hosts, shorter, withSecrets, supply), Last(incoming), withSecrets, supply);
    }
  }

  /** All of this together. */
  lemma ImportMeans(hosts: seq<Host>, incoming: seq<Host>, withSecrets: bool, supply: Supply)
    ensures var t := Upserts(hosts, incoming, withSecrets, supply);
            && t.added + t.updated + t.skipped == |incoming|
            && (HostNamesUnique(incoming) ==>
                  && (forall h | h in incoming :: ImportedAs(hosts, t.hosts, h, withSecrets, supply))
                  && t.added == |t.hosts| - |hosts| && t.updated == |Changed(hosts, t.hosts)|)
            && (forall i | 0 <= i < |hosts| ::
                  (forall h | h in incoming :: NameKey(h.name) != NameKey(hosts[i].name)) ==> t.hosts[i] == hosts[i])
  {
    hide Upsert, Upserts, ImportedAs, Changed;
    AllCounted(hosts, incoming, withSecrets, supply);
    if HostNamesUnique(incoming) {
      CountersTell(hosts, incoming, withSecrets, supply);
      forall h | h in incoming
        ensures ImportedAs(hosts, Upserts(hosts, incoming, withSecrets, supply).hosts, h, withSecrets, supply)
      {
        var j :| 0 <= j < |incoming| && incoming[j] == h;
        ImportTakesOver(hosts, incoming, withSecrets, supply, j);
      }
    }
    forall i: nat | i < |hosts| && forall h | h in incoming :: NameKey(h.name) != NameKey(hosts[i].name)
      ensures Upserts(hosts, incoming, withSecrets, supply).hosts[i] == hosts[i]
    {
      UnnamedStays(hosts, incoming, withSecrets, supply, i);
    }
  }

  lemma {:induction false} AllCounted(hosts: seq<Host>, incoming: seq<Host>, withSecrets: bool, supply: Supply)
    ensures var t := Upserts(hosts, incoming, withSecrets, supply); t.added + t.updated + t.skipped == |incoming|
  {
    if incoming != [] {
      AllCounted(hosts, incoming[..|incoming| - 1], withSecrets, supply);
    }
  }

  lemma UpsertsGrow(hosts: seq<Host>, incoming: seq<Host>, n: nat, withSecrets: bool, supply: Supply, t: Tally)
    requires n < |incoming| && Upserts(hosts, incoming[..n], withSecrets, supply) == t
    ensures Upserts(hosts, incoming[..n + 1], withSecrets, supply) == Upsert(t, incoming[n], withSecrets, supply)
  {
    assert incoming[..n + 1][..n] == incoming[..n];
  }

  // ---------------------------------------------------------------------------
  // The store
  // ---------------------------------------------------------------------------

  datatype Failure = NameRequired | AddrRequired | PortOutOfRange | NameTaken | BadAuthMethod | NoSuchHost | NoSuchKey

  function NormalizeAuthMethod(v: string): Option<string> {
    if v in ["", "auto", "key"] then Some("key") else if v == "password" then Some("password") else None
  }

  /** Another host, not the one being updated, has this name. */
  predicate Taken(hosts: seq<Host>, name: string, excludeID: string) {
    exists i :: 0 <= i < |hosts| && hosts[i].id != excludeID && NameKey(hosts[i].name) == NameKey(name)
  }

  function Check(hosts: seq<Host>, h: Host, excludeID: string): Option<Failure> {
    if TrimSpace(h.name) == "" then Some(NameRequired)
    else if TrimSpace(h.addr) == "" then Some(AddrRequired)
    else if h.port < 1 || h.port > 65535 then Some(PortOutOfRange)
    else if Taken(hosts, h.name, excludeID) then Some(NameTaken)
    else None
  }

  /** What a host must be to be stored: named, addressed, with a port, a known way to sign in, and a name of its own. */
  predicate Acceptable(hosts: seq<Host>, h: Host, excludeID: string) {
    && TrimSpace(h.name) != "" && TrimSpace(h.addr) != "" && 1 <= h.port <= 65535
    && h.authMethod in ["", "auto", "key", "password"] && !Taken(hosts, h.name, excludeID)
  }

  /** The reason given is a rule the host breaks. */
  predicate Explains(f: Failure, hosts: seq<Host>, h: Host, excludeID: string) {
    match f
    case NameRequired => TrimSpace(h.name) == ""
    case AddrRequired => TrimSpace(h.addr) == ""
    case PortOutOfRange => h.port < 1 || h.port > 65535
    case NameTaken => Taken(hosts, h.name, excludeID)
    case BadAuthMethod => h.authMethod !in ["", "auto", "key", "password"]
    case NoSuchHost => IndexById(hosts, excludeID) < 0
    case NoSuchKey => false
  }

  predicate NoEmptyIds(hosts: seq<Host>) {
    forall h | h in hosts :: h.id != ""
  }

  /** How a host that was given is stored: defaults filled in, nothing else changed. */
  predicate Stored(given: Host, h: Host, newID: string) {
    && h == given.(id := h.id, port := h.port, source := h.source, authMethod := h.authMethod)
    && h.id == (if given.id == "" then newID else given.id)
    && h.port == (if given.port == 0 then 22 else given.port) && 1 <= h.port <= 65535
    && h.source == (if given.source == "" then "manual" else given.source)
    && NormalizeAuthMethod(given.authMethod) == Some(h.authMethod)
    && h.authMethod == (if given.authMethod == "password" then "password" else "key")
    && TrimSpace(h.name) != "" && TrimSpace(h.addr) != ""
  }

  /** The hosts are the same but for bindings to this key, which are gone. */
  predicate Unbound(before: seq<Host>, after: seq<Host>, id: string) {
    |after| == |before| &&
    forall j | 0 <= j < |before| :: after[j] == if before[j].keyID == id then before[j].(keyID := "") else before[j]
  }

  class Store {
    var hosts: seq<Host>
    var keys: seq<VaultKey>

    constructor (hosts: seq<Host>, keys: seq<VaultKey>)
      ensures this.hosts == hosts && this.keys == keys
    {
      this.hosts, this.keys := hosts, keys;
    }

    /** Merges imported hosts into the stored ones. */
    method UpsertImported(incoming: seq<Host>, withSecrets: bool, supply: Supply)
      returns (added: nat, updated: nat, skipped: nat)
      modifies this`hosts
      ensures var t := Upserts(old(hosts), incoming, withSecrets, supply);
              hosts == t.hosts && added == t.added && updated == t.updated && skipped == t.skipped
      ensures added + updated + skipped == |incoming|
      ensures HostNamesUnique(incoming) ==>
                && (forall h | h in incoming :: ImportedAs(old(hosts), hosts, h, withSecrets, supply))
                && added == |hosts| - |old(hosts)| && updated == |Changed(old(hosts), hosts)|
      ensures forall i | 0 <= i < |old(hosts)| ::
                (forall h | h in incoming :: NameKey(h.name) != NameKey(old(hosts)[i].name)) ==> hosts[i] == old(hosts)[i]
    {
      added, updated, skipped := 0, 0, 0;
      var used := 0;
      ghost var hosts0 := hosts;
      for n := 0 to |incoming|
        invariant Upserts(hosts0, incoming[..n], withSecrets, supply) == Tally(hosts, added, updated, skipped, used)
      {
        UpsertsGrow(hosts0, incoming, n, withSecrets, supply, Tally(hosts, added, updated, skipped, used));
        added, updated, skipped, used := UpsertOne(incoming[n], withSecrets, supply, added, updated, skipped, used);
      }
      assert incoming[..|incoming|] == incoming;
      ImportMeans(hosts0, incoming, withSecrets, supply);
    }

    /** One turn of the loop, with the counters so far. */
    method UpsertOne(incoming: Host, withSecrets: bool, supply: Supply, added0: nat, updated0: nat, skipped0: nat, used0: nat)
      returns (added: nat, updated: nat, skipped: nat, used: nat)
      modifies this`hosts
      ensures Tally(hosts, added, updated, skipped, used)
           == Upsert(Tally(old(hosts), added0, updated0, skipped0, used0), incoming, withSecrets, supply)
    {
      added, updated, skipped, used := added0, updated0, skipped0, used0;
      var h := incoming;
      var i := IndexByName(hosts, h.name);
      if i < 0 {
        if h.id == "" {
          h := h.(id := supply(used));
          used := used + 1;
        }
        hosts := hosts + [h];
        added := added + 1;
        return;
      }
      var existing := hosts[i];
      if existing.source == "manual" {
        skipped := skipped + 1;
        return;
      }
      var merged := MergeInto(existing, h, withSecrets);
      if existing == merged {
        skipped := skipped + 1;
        return;
      }
      hosts := hosts[i := merged];
      updated := updated + 1;
    }

    /** The incoming host over the stored one: identity, and what the import has no value for, stay. */
    static method MergeInto(existing: Host, incoming: Host, withSecrets: bool) returns (merged: Host)
      ensures merged == Combined(existing, incoming, withSecrets)
    {
      merged := incoming.(id := existing.id, lastSeen := existing.lastSeen);
      if merged.keyID == "" {
        merged := merged.(keyID := existing.keyID);
      }
      if !withSecrets {
        merged := merged.(authMethod := existing.authMethod, password := existing.password);
      } else if merged.password == "" {
        merged := merged.(password := existing.password);
      }
    }

    /** Adds a host, unless it is invalid or its name is taken. */
    method AddHost(given: Host, newID: string) returns (failure: Option<Failure>)
      modifies this`hosts
      ensures HostNamesUnique(old(hosts)) && NoEmptyIds(old(hosts)) ==> HostNamesUnique(hosts)
      ensures failure.Some? ==> hosts == old(hosts)
      ensures failure.None? ==>
                |hosts| == |old(hosts)| + 1 && hosts[..|old(hosts)|] == old(hosts) && Stored(given, Last(hosts), newID)
      ensures var h := if given.port == 0 then given.(port := 22) else given;
              && (failure.None? <==> Acceptable(old(hosts), h, ""))
              && (failure.Some? ==> failure.value != NoSuchHost && Explains(failure.value, old(hosts), h, ""))
      ensures NoEmptyIds(old(hosts)) && IndexByName(old(hosts), given.name) >= 0 ==> failure.Some?
    {
      var h := given;
      if h.port == 0 {
        h := h.(port := 22);
      }
      if h.source == "" {
        h := h.(source := "manual");
      }
      var am := NormalizeAuthMethod(h.authMethod);
      if am.None? {
        return Some(BadAuthMethod);
      }
      h := h.(authMethod := am.value);
      failure := Check(hosts, h, "");
      if failure.Some? {
        return;
      }
      assert NoEmptyIds(hosts) ==> forall i | 0 <= i < |hosts| :: NameKey(hosts[i].name) != NameKey(h.name);
      if h.id == "" {
        h := h.(id := newID);
      }
      hosts := hosts + [h];
    }

    /** Replaces the host with the same id, unless the result is invalid or its name is another host's. */
    method UpdateHost(given: Host) returns (failure: Option<Failure>)
      modifies this`hosts
      ensures HostIdsUnique(old(hosts)) ==> HostIdsUnique(hosts)
      ensures HostNamesUnique(old(hosts)) && HostIdsUnique(old(hosts)) ==> HostNamesUnique(hosts)
      ensures failure.Some? ==> hosts == old(hosts)
      ensures failure.None? <==> IndexById(old(hosts), given.id) >= 0 && Acceptable(old(hosts), given, given.id)
      ensures failure.Some? ==> Explains(failure.value, old(hosts), given, given.id)
      ensures failure.None? ==>
                var am := if given.authMethod == "password" then "password" else "key";
                hosts == old(hosts)[IndexById(old(hosts), given.id) := given.(authMethod := am)]
    {
      var i := IndexById(hosts, given.id);
      if i < 0 {
        return Some(NoSuchHost);
      }
      var am := NormalizeAuthMethod(given.authMethod);
      if am.None? {
        return Some(BadAuthMethod);
      }
      var h := given.(authMethod := am.value);
      failure := Check(hosts, h, h.id);
      if failure.Some? {
        return;
      }
      assert HostIdsUnique(hosts) ==>
               forall j | 0 <= j < |hosts| && j != i :: hosts[j].id != h.id && NameKey(hosts[j].name) != NameKey(h.name);
      hosts := hosts[i := h];
    }

    /** Drops a key; hosts that used it are left without one. */
    method RemoveKey(id: string) returns (failure: Option<Failure>)
      modifies this`hosts, this`keys
      ensures IndexKeyById(old(keys), id) < 0 ==> failure == Some(NoSuchKey) && hosts == old(hosts) && keys == old(keys)
      ensures var i := IndexKeyById(old(keys), id);
              i >= 0 ==> failure.None? && keys == old(keys)[..i] + old(keys)[i + 1..]
      ensures failure.None? ==> Unbound(old(hosts), hosts, id)
    {
      var i := IndexKeyById(keys, id);
      if i < 0 {
        return Some(NoSuchKey);
      }
      keys := keys[..i] + keys[i + 1..];
      for j := 0 to |hosts|
        invariant keys == old(keys)[..i] + old(keys)[i + 1..]
        invariant |hosts| == |old(hosts)| && Unbound(old(hosts)[..j], hosts[..j], id)
        invariant forall k | j <= k < |hosts| :: hosts[k] == old(hosts)[k]
      {
        if hosts[j].keyID == id {
          hosts := hosts[j := hosts[j].(keyID := "")];
        }
      }
      failure := None;
    }
  }

  /** Every binding names a key the vault holds, or nothing. */
  predicate NoDanglingBindings(hosts: seq<Host>, keys: seq<VaultKey>) {
    forall h | h in hosts :: h.keyID == "" || IndexKeyById(keys, h.keyID) >= 0
  }

  /** What RemoveKey leaves has no dangling binding, if there was none. */
  lemma RemoveKeyLeavesNoDangling(hosts: seq<Host>, keys: seq<VaultKey>, hosts': seq<Host>, i: nat)
    requires i < |keys| && NoDanglingBindings(hosts, keys) && Unbound(hosts, hosts', keys[i].id)
    ensures NoDanglingBindings(hosts', keys[..i] + keys[i + 1..])
  {
    var keys' := keys[..i] + keys[i + 1..];
    forall h | h in hosts'
      ensures h.keyID == "" || IndexKeyById(keys', h.keyID) >= 0
    {
      var j :| 0 <= j < |hosts'| && hosts'[j] == h;
      if h.keyID != "" {
        assert hosts[j] in hosts;
        var n := IndexKeyById(keys, h.keyID);
        var n' := if n < i then n else n - 1;
        assert keys'[n'] == keys[n] && keys'[n'] in keys';
      }
    }
  }
}
