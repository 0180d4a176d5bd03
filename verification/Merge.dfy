/**
 Folding the vault a machine had before sign-in into the account's. The account's
 side always wins; local hosts and keys are carried over only under names that are
 free, re-identified where an id is taken, and their key bindings follow.
 */
module Merge {
  import opened Common
  import opened Documents

  datatype MergeResult = MergeResult(hostsAdded: nat, hostsSkipped: nat, keysAdded: nat, keysSkipped: nat)

  /** Ids that newID hands out, in order: never the same twice, and never one in use. */
  type Supply = nat -> string

  // ---------------------------------------------------------------------------
  // Specification: one entry at a time
  // ---------------------------------------------------------------------------

  datatype KeyState = KeyState(keys: seq<VaultKey>, rebind: map<string, string>, added: nat, skipped: nat, used: nat)

  function AddKey(st: KeyState, k: VaultKey, supply: Supply): KeyState {
    var i := IndexKeyByName(st.keys, k.name);
    if i >= 0 then st.(rebind := st.rebind[k.id := st.keys[i].id], skipped := st.skipped + 1)
    else
      var taken := k.id == "" || IndexKeyById(st.keys, k.id) >= 0;
      var id := if taken then supply(st.used) else k.id;
      KeyState(st.keys + [k.(id := id)], st.rebind[k.id := id], st.added + 1, st.skipped,
               if taken then st.used + 1 else st.used)
  }

  function AddKeys(base: seq<VaultKey>, local: seq<VaultKey>, supply: Supply): KeyState {
    if local == [] then KeyState(base, map[], 0, 0, 0)
    else AddKey(AddKeys(base, local[..|local| - 1], supply), Last(local), supply)
  }

  /** Where a carried-over host's binding leads. */
  function Rebound(keyID: string, keys: KeyState): string {
    if keyID == "" then ""
    else if keyID in keys.rebind then keys.rebind[keyID]
    else if IndexKeyById(keys.keys, keyID) < 0 then ""
    else keyID
  }

  datatype HostState = HostState(hosts: seq<Host>, added: nat, skipped: nat, used: nat)

  function AddHost(st: HostState, h: Host, keys: KeyState, supply: Supply): HostState {
    if IndexByName(st.hosts, h.name) >= 0 then st.(skipped := st.skipped + 1)
    else
      var taken := h.id == "" || IndexById(st.hosts, h.id) >= 0;
      var id := if taken then supply(st.used) else h.id;
      HostState(st.hosts + [h.(id := id, keyID := Rebound(h.keyID, keys))], st.added + 1, st.skipped,
                if taken then st.used + 1 else st.used)
  }

  function AddHosts(base: seq<Host>, local: seq<Host>, keys: KeyState, supply: Supply): HostState {
    if local == [] then HostState(base, 0, 0, keys.used)
    else AddHost(AddHosts(base, local[..|local| - 1], keys, supply), Last(local), keys, supply)
  }

  function Merged(base: Document, local: Document, supply: Supply): Document {
    var ks := AddKeys(base.keys, local.keys, supply);
    var hs := AddHosts(base.hosts, local.hosts, ks, supply);
    base.(schema := SCHEMA_VERSION, keys := ks.keys, hosts := hs.hosts)
  }

  // ---------------------------------------------------------------------------
  // The implementation
  // ---------------------------------------------------------------------------

  /** A payload before it is parsed. */
  datatype Payload = Empty | Garbage | Parsed(doc: Document)

  function ParseDocument(p: Payload): Option<Document> {
    match p
    case Empty => Some(Document(SCHEMA_VERSION, [], Settings("abyss", true, true, false), None, []))
    case Garbage => None
    case Parsed(doc) => if doc.schema < 1 || doc.schema > SCHEMA_VERSION then None else Some(doc)
  }

  /** Empty, or a document of a schema this build understands. */
  predicate IsReadable(p: Payload) {
    p.Empty? || (p.Parsed? && 1 <= p.doc.schema <= SCHEMA_VERSION)
  }

  /** The document a readable payload holds; an empty one holds no hosts and no keys. */
  function Read(p: Payload): (d: Document)
    requires IsReadable(p)
    ensures p.Parsed? ==> d == p.doc
    ensures p.Empty? ==> d.hosts == [] && d.keys == [] && d.identity == None
  {
    ParseDocument(p).value
  }

  /** The first loop: keys, and where each local key id leads. */
  method MergeKeys(base: seq<VaultKey>, local: seq<VaultKey>, supply: Supply) returns (st: KeyState)
    ensures st == AddKeys(base, local, supply)
  {
    var keys, rebind, added, skipped, used := base, map[], 0, 0, 0;
    for i := 0 to |local|
      invariant AddKeys(base, local[..i], supply) == KeyState(keys, rebind, added, skipped, used)
    {
      assert local[..i + 1][..i] == local[..i];
      var k := local[i];
      var at := IndexKeyByName(keys, k.name);
      if at >= 0 {
        rebind := rebind[k.id := keys[at].id];
        skipped := skipped + 1;
        continue;
      }
      var oldID := k.id;
      if k.id == "" || IndexKeyById(keys, k.id) >= 0 {
        k := k.(id := supply(used));
        used := used + 1;
      }
      rebind := rebind[oldID := k.id];
      keys := keys + [k];
      added := added + 1;
    }
    assert local[..|local|] == local;
    st := KeyState(keys, rebind, added, skipped, used);
  }

  /** The second loop: hosts, with their bindings rewritten. */
  method MergeHosts(base: seq<Host>, local: seq<Host>, ks: KeyState, supply: Supply) returns (st: HostState)
    ensures st == AddHosts(base, local, ks, supply)
  {
    var hosts, added, skipped, used := base, 0, 0, ks.used;
    for i := 0 to |local|
      invariant AddHosts(base, local[..i], ks, supply) == HostState(hosts, added, skipped, used)
    {
      assert local[..i + 1][..i] == local[..i];
      var h := local[i];
      if IndexByName(hosts, h.name) >= 0 {
        skipped := skipped + 1;
        continue;
      }
      if h.id == "" || IndexById(hosts, h.id) >= 0 {
        h := h.(id := supply(used));
        used := used + 1;
      }
      if h.keyID != "" {
        if h.keyID in ks.rebind {
          h := h.(keyID := ks.rebind[h.keyID]);
        } else if IndexKeyById(ks.keys, h.keyID) < 0 {
          h := h.(keyID := "");
        }
      }
      hosts := hosts + [h];
      added := added + 1;
    }
    assert local[..|local|] == local;
    st := HostState(hosts, added, skipped, used);
  }

  method MergePayloads(base: Payload, local: Payload, supply: Supply) returns (out: Option<Document>, res: MergeResult)
    ensures out.Some? <==> IsReadable(base) && IsReadable(local)
    ensures out.Some? ==>
              var b, l, ks := Read(base), Read(local), AddKeys(Read(base).keys, Read(local).keys, supply);
              && out.value == Merged(b, l, supply)
              && KeysCarried(b.keys, FreeKeys(b.keys, l.keys), out.value.keys, supply)
              && HostsCarried(b.hosts, FreeHosts(b.hosts, l.hosts), out.value.hosts, ks, supply)
              && res.keysAdded + res.keysSkipped == |l.keys| && res.hostsAdded + res.hostsSkipped == |l.hosts|
              && |out.value.keys| == |b.keys| + res.keysAdded && |out.value.hosts| == |b.hosts| + res.hostsAdded
  {
    res := MergeResult(0, 0, 0, 0);
    var baseDoc, localDoc := ParseDocument(base), ParseDocument(local);
    if baseDoc.None? || localDoc.None? {
      return None, res;
    }
    var b, l := baseDoc.value, localDoc.value;
    var ks := MergeKeys(b.keys, l.keys, supply);
    var hs := MergeHosts(b.hosts, l.hosts, ks, supply);
    KeysAreCarriedIff(b.keys, l.keys, supply);
    HostsAreCarriedIff(b.hosts, l.hosts, ks, supply);
    KeyCounts(b.keys, l.keys, supply);
    HostCounts(b.hosts, l.hosts, ks, supply);
    res := MergeResult(hs.added, hs.skipped, ks.added, ks.skipped);
    out := Some(b.(schema := SCHEMA_VERSION, keys := ks.keys, hosts := hs.hosts));
  }

  // ---------------------------------------------------------------------------
  // Nothing of the account's side changes; every local entry is counted
  // ---------------------------------------------------------------------------

  lemma {:induction false} KeyCounts(base: seq<VaultKey>, local: seq<VaultKey>, supply: Supply)
    ensures var st := AddKeys(base, local, supply);
            base <= st.keys && st.added + st.skipped == |local| && |st.keys| == |base| + st.added
  {
    if local != [] {
      KeyCounts(base, local[..|local| - 1], supply);
    }
  }

  lemma {:induction false} HostCounts(base: seq<Host>, local: seq<Host>, ks: KeyState, supply: Supply)
    ensures var st := AddHosts(base, local, ks, supply);
            base <= st.hosts && st.added + st.skipped == |local| && |st.hosts| == |base| + st.added
  {
    if local != [] {
      HostCounts(base, local[..|local| - 1], ks, supply);
    }
  }

  // ---------------------------------------------------------------------------
  // Names and ids stay unique
  // ---------------------------------------------------------------------------

  /** The id is one of these, or was handed out by the supply. */
  ghost predicate Known(id: string, ids: set<string>, supply: Supply, used: nat) {
    id in ids || exists i: nat :: i < used && supply(i) == id
  }

  ghost predicate FreshFor(supply: Supply, ids: set<string>) {
    && (forall i: nat, j: nat | i < j :: supply(i) != supply(j))
    && (forall i: nat :: supply(i) !in ids && supply(i) != "")
  }

  function KeyIds(keys: seq<VaultKey>): set<string> { set k | k in keys :: k.id }

  function HostIds(hosts: seq<Host>): set<string> { set h | h in hosts :: h.id }

  lemma KnownLater(id: string, ids: set<string>, supply: Supply, used: nat, later: nat)
    requires Known(id, ids, supply, used) && used <= later
    ensures Known(id, ids, supply, later)
  {
  }

  lemma FreshIsNotKnown(ids: set<string>, supply: Supply, used: nat)
    requires FreshFor(supply, ids)
    ensures !Known(supply(used), ids, supply, used) && Known(supply(used), ids, supply, used + 1)
  {
  }

  ghost predicate KeysUnique(base: seq<VaultKey>, st: KeyState, ids: set<string>, supply: Supply) {
    && (KeyNamesUnique(base) ==> KeyNamesUnique(st.keys))
    && (KeyIdsUnique(base) ==> KeyIdsUnique(st.keys))
    && (forall k | k in st.keys :: Known(k.id, ids, supply, st.used))
  }

  lemma KeyAppended(keys: seq<VaultKey>, k: VaultKey)
    requires IndexKeyByName(keys, k.name) < 0 && IndexKeyById(keys, k.id) < 0
    ensures KeyNamesUnique(keys) ==> KeyNamesUnique(keys + [k])
    ensures KeyIdsUnique(keys) ==> KeyIdsUnique(keys + [k])
  {
  }

  lemma AddKeyUnique(base: seq<VaultKey>, st: KeyState, k: VaultKey, ids: set<string>, supply: Supply)
    requires FreshFor(supply, ids) && k.id in ids && KeysUnique(base, st, ids, supply)
    ensures KeysUnique(base, AddKey(st, k, supply), ids, supply)
  {
    if IndexKeyByName(st.keys, k.name) < 0 {
      var st' := AddKey(st, k, supply);
      FreshIsNotKnown(ids, supply, st.used);
      KeyAppended(st.keys, Last(st'.keys));
      forall x | x in st'.keys
        ensures Known(x.id, ids, supply, st'.used)
      {
        if x in st.keys {
          KnownLater(x.id, ids, supply, st.used, st'.used);
        }
      }
    }
  }

  lemma {:induction false} AddKeysUnique(base: seq<VaultKey>, local: seq<VaultKey>, ids: set<string>, supply: Supply)
    requires FreshFor(supply, ids) && KeyIds(base) <= ids && KeyIds(local) <= ids
    ensures KeysUnique(base, AddKeys(base, local, supply), ids, supply)
  {
    if local == [] {
      assert forall k | k in base :: k.id in KeyIds(base);
    } else {
      var shorter := local[..|local| - 1];
      assert KeyIds(shorter) <= KeyIds(local) && Last(local).id in KeyIds(local);
      AddKeysUnique(base, shorter, ids, supply);
      AddKeyUnique(base, AddKeys(base, shorter, supply), Last(local), ids, supply);
    }
  }

  ghost predicate HostsUnique(base: seq<Host>, st: HostState, ids: set<string>, supply: Supply) {
    && (HostNamesUnique(base) ==> HostNamesUnique(st.hosts))
    && (HostIdsUnique(base) ==> HostIdsUnique(st.hosts))
    && (forall h | h in st.hosts :: Known(h.id, ids, supply, st.used))
  }

  lemma HostAppended(hosts: seq<Host>, h: Host)
    requires IndexByName(hosts, h.name) < 0 && IndexById(hosts, h.id) < 0
    ensures HostNamesUnique(hosts) ==> HostNamesUnique(hosts + [h])
    ensures HostIdsUnique(hosts) ==> HostIdsUnique(hosts + [h])
  {
  }

  lemma AddHostUnique(base: seq<Host>, st: HostState, h: Host, ks: KeyState, ids: set<string>, supply: Supply)
    requires FreshFor(supply, ids) && h.id in ids && HostsUnique(base, st, ids, supply)
    ensures HostsUnique(base, AddHost(st, h, ks, supply), ids, supply)
  {
    if IndexByName(st.hosts, h.name) < 0 {
      var st' := AddHost(st, h, ks, supply);
      FreshIsNotKnown(ids, supply, st.used);
      HostAppended(st.hosts, Last(st'.hosts));
      forall x | x in st'.hosts
        ensures Known(x.id, ids, supply, st'.used)
      {
        if x in st.hosts {
          KnownLater(x.id, ids, supply, st.used, st'.used);
        }
      }
    }
  }

  lemma {:induction false} AddHostsUnique(base: seq<Host>, local: seq<Host>, ks: KeyState, ids: set<string>, supply: Supply)
    requires FreshFor(supply, ids) && HostIds(base) <= ids && HostIds(local) <= ids
    ensures HostsUnique(base, AddHosts(base, local, ks, supply), ids, supply)
  {
    if local == [] {
      assert forall h | h in base :: h.id in HostIds(base);
    } else {
      var shorter := local[..|local| - 1];
      assert HostIds(shorter) <= HostIds(local) && Last(local).id in HostIds(local);
      AddHostsUnique(base, shorter, ks, ids, supply);
      AddHostUnique(base, AddHosts(base, shorter, ks, supply), Last(local), ks, ids, supply);
    }
  }

  function IdsOf(d: Document): set<string> { KeyIds(d.keys) + HostIds(d.hosts) }

  /**
   The account's hosts, keys, settings and identity are untouched, with the carried
   entries behind them; names and ids are as unique as they were.
   */
  lemma MergeKeepsTheAccount(base: Document, local: Document, supply: Supply)
    requires FreshFor(supply, IdsOf(base) + IdsOf(local))
    ensures var m := Merged(base, local, supply);
            && base.hosts <= m.hosts && base.keys <= m.keys
            && m.settings == base.settings && m.identity == base.identity && m.schema == SCHEMA_VERSION
            && (HostNamesUnique(base.hosts) ==> HostNamesUnique(m.hosts))
            && (HostIdsUnique(base.hosts) ==> HostIdsUnique(m.hosts))
            && (KeyNamesUnique(base.keys) ==> KeyNamesUnique(m.keys))
            && (KeyIdsUnique(base.keys) ==> KeyIdsUnique(m.keys))
  {
    var ids := IdsOf(base) + IdsOf(local);
    var ks := AddKeys(base.keys, local.keys, supply);
    KeyCounts(base.keys, local.keys, supply);
    HostCounts(base.hosts, local.hosts, ks, supply);
    AddKeysUnique(base.keys, local.keys, ids, supply);
    AddHostsUnique(base.hosts, local.hosts, ks, ids, supply);
  }

  // ---------------------------------------------------------------------------
  // Bindings
  // ---------------------------------------------------------------------------

  /** A key by this id is among the keys. */
  ghost predicate Names(keys: seq<VaultKey>, id: string) {
    exists i :: 0 <= i < |keys| && keys[i].id == id
  }

  /** A key by this id, answering to this name, is among the keys. */
  ghost predicate LeadsTo(keys: seq<VaultKey>, id: string, name: string) {
    exists i :: 0 <= i < |keys| && keys[i].id == id && NameKey(keys[i].name) == NameKey(name)
  }

  lemma LeadsToLater(keys: seq<VaultKey>, more: seq<VaultKey>, id: string, name: string)
    requires keys <= more
    ensures Names(keys, id) ==> Names(more, id)
    ensures LeadsTo(keys, id, name) ==> LeadsTo(more, id, name)
  {
  }

  lemma AddedKeyLeads(before: KeyState, k: VaultKey, supply: Supply)
    ensures var st := AddKey(before, k, supply);
            && before.keys <= st.keys && k.id in st.rebind
            && Names(st.keys, st.rebind[k.id]) && LeadsTo(st.keys, st.rebind[k.id], k.name)
  {
    var st := AddKey(before, k, supply);
    var at := IndexKeyByName(before.keys, k.name);
    var home := if at >= 0 then at else |before.keys|;
    assert st.keys[home].id == st.rebind[k.id] && NameKey(st.keys[home].name) == NameKey(k.name);
  }

  /** No later local key reuses the id of this one. */
  predicate LastOfItsId(local: seq<VaultKey>, j: nat)
    requires j < |local|
  {
    forall i | j < i < |local| :: local[i].id != local[j].id
  }

  /** The id of each local key leads to a merged key; to one of the same name, if no later local key reuses the id. */
  lemma {:induction false} RebindLeads(base: seq<VaultKey>, local: seq<VaultKey>, supply: Supply, j: nat)
    requires j < |local|
    ensures var st := AddKeys(base, local, supply);
            && local[j].id in st.rebind && Names(st.keys, st.rebind[local[j].id])
            && (LastOfItsId(local, j) ==> LeadsTo(st.keys, st.rebind[local[j].id], local[j].name))
  {
    var shorter := local[..|local| - 1];
    var before := AddKeys(base, shorter, supply);
    AddedKeyLeads(before, Last(local), supply);
    if local[j].id == Last(local).id {
      assert LastOfItsId(local, j) ==> j == |local| - 1;
    } else {
      assert LastOfItsId(local, j) ==> LastOfItsId(shorter, j);
      RebindLeads(base, shorter, supply, j);
      AddKeyRebindsOne(before, Last(local), supply, local[j].id);
      LeadsToLater(before.keys, AddKeys(base, local, supply).keys, before.rebind[local[j].id], local[j].name);
    }
  }

  lemma AddKeyRebindsOne(before: KeyState, k: VaultKey, supply: Supply, id: string)
    requires id in before.rebind && id != k.id
    ensures id in AddKey(before, k, supply).rebind && AddKey(before, k, supply).rebind[id] == before.rebind[id]
  {
  }

  /** Only local key ids are rebound. */
  lemma {:induction false} OnlyLocalRebound(base: seq<VaultKey>, local: seq<VaultKey>, supply: Supply, id: string)
    requires id in AddKeys(base, local, supply).rebind
    ensures exists j :: 0 <= j < |local| && local[j].id == id
  {
    var shorter := local[..|local| - 1];
    if Last(local).id != id {
      OnlyLocalRebound(base, shorter, supply, id);
      var j :| 0 <= j < |shorter| && shorter[j].id == id;
      assert local[j].id == id;
    }
  }

  /** Which local host a carried-over host came from. */
  ghost predicate CameFrom(local: seq<Host>, h: Host, ks: KeyState) {
    exists j :: 0 <= j < |local| && h == local[j].(id := h.id, keyID := Rebound(local[j].keyID, ks))
  }

  /** Every carried-over host is a local one, unchanged but for its id and its binding. */
  lemma {:induction false} CarriedHostsAreLocal(base: seq<Host>, local: seq<Host>, ks: KeyState, supply: Supply, i: nat)
    requires |base| <= i < |AddHosts(base, local, ks, supply).hosts|
    ensures CameFrom(local, AddHosts(base, local, ks, supply).hosts[i], ks)
  {
    var shorter := local[..|local| - 1];
    var before := AddHosts(base, shorter, ks, supply);
    var st := AddHosts(base, local, ks, supply);
    if i < |before.hosts| {
      CarriedHostsAreLocal(base, shorter, ks, supply, i);
      var j :| 0 <= j < |shorter| && st.hosts[i] == shorter[j].(id := st.hosts[i].id, keyID := Rebound(shorter[j].keyID, ks));
      assert local[j] == shorter[j];
    } else {
      assert st.hosts[i] == local[|local| - 1].(id := st.hosts[i].id, keyID := Rebound(local[|local| - 1].keyID, ks));
    }
  }

  lemma NamesIff(keys: seq<VaultKey>, id: string)
    ensures Names(keys, id) <==> IndexKeyById(keys, id) >= 0
  {
    var i := IndexKeyById(keys, id);
    assert i >= 0 ==> keys[i].id == id;
  }

  /**
   A carried-over host's binding is empty or names a key the merged vault holds;
   and a binding to a local key ends on a key of the same name, when the local key
   ids are unique.
   */
  lemma BindingsFollow(base: Document, local: Document, supply: Supply, keyID: string)
    ensures var ks := AddKeys(base.keys, local.keys, supply);
            var to := Rebound(keyID, ks);
            && (to == "" || Names(ks.keys, to))
            && (keyID != "" && Names(ks.keys, keyID) && (forall k | k in local.keys :: k.id != keyID) ==> to == keyID)
            && (keyID != "" && KeyIdsUnique(local.keys) ==>
                  forall j | 0 <= j < |local.keys| && local.keys[j].id == keyID :: LeadsTo(ks.keys, to, local.keys[j].name))
  {
    hide AddKeys, Names, LeadsTo, NameKey;
    var ks := AddKeys(base.keys, local.keys, supply);
    if keyID in ks.rebind {
      OnlyLocalRebound(base.keys, local.keys, supply, keyID);
      var j :| 0 <= j < |local.keys| && local.keys[j].id == keyID;
      RebindLeads(base.keys, local.keys, supply, j);
    } else {
      forall j | 0 <= j < |local.keys| && local.keys[j].id == keyID
        ensures false
      {
        RebindLeads(base.keys, local.keys, supply, j);
      }
      NamesIff(ks.keys, keyID);
    }
  }

  // ---------------------------------------------------------------------------
  // Every name is taken care of, and merging again adds nothing
  // ---------------------------------------------------------------------------

  lemma {:induction false} KeyNamesCovered(base: seq<VaultKey>, local: seq<VaultKey>, supply: Supply, j: nat)
    requires j < |local|
    ensures IndexKeyByName(AddKeys(base, local, supply).keys, local[j].name) >= 0
  {
    var before := AddKeys(base, local[..|local| - 1], supply);
    if j < |local| - 1 {
      KeyNamesCovered(base, local[..|local| - 1], supply, j);
      var i := IndexKeyByName(before.keys, local[j].name);
      assert before.keys[i] in AddKeys(base, local, supply).keys;
    } else if IndexKeyByName(before.keys, local[j].name) < 0 {
      assert Last(AddKeys(base, local, supply).keys).name == local[j].name;
    }
  }

  lemma {:induction false} HostNamesCovered(base: seq<Host>, local: seq<Host>, ks: KeyState, supply: Supply, j: nat)
    requires j < |local|
    ensures IndexByName(AddHosts(base, local, ks, supply).hosts, local[j].name) >= 0
  {
    var before := AddHosts(base, local[..|local| - 1], ks, supply);
    if j < |local| - 1 {
      HostNamesCovered(base, local[..|local| - 1], ks, supply, j);
      var i := IndexByName(before.hosts, local[j].name);
      assert before.hosts[i] in AddHosts(base, local, ks, supply).hosts;
    } else if IndexByName(before.hosts, local[j].name) < 0 {
      assert Last(AddHosts(base, local, ks, supply).hosts).name == local[j].name;
    }
  }

  lemma {:induction false} CoveredKeysAddNothing(base: seq<VaultKey>, local: seq<VaultKey>, supply: Supply)
    requires forall k | k in local :: IndexKeyByName(base, k.name) >= 0
    ensures AddKeys(base, local, supply).keys == base && AddKeys(base, local, supply).skipped == |local|
  {
    if local != [] {
      CoveredKeysAddNothing(base, local[..|local| - 1], supply);
    }
  }

  lemma {:induction false} CoveredHostsAddNothing(base: seq<Host>, local: seq<Host>, ks: KeyState, supply: Supply)
    requires forall h | h in local :: IndexByName(base, h.name) >= 0
    ensures AddHosts(base, local, ks, supply).hosts == base && AddHosts(base, local, ks, supply).skipped == |local|
  {
    if local != [] {
      CoveredHostsAddNothing(base, local[..|local| - 1], ks, supply);
    }
  }

  /** Merging the same local vault a second time changes nothing. */
  lemma MergeIsIdempotent(base: Document, local: Document, supply: Supply, supply2: Supply)
    ensures var m := Merged(base, local, supply);
            Merged(m, local, supply2) == m
  {
    var m := Merged(base, local, supply);
    var ks := AddKeys(base.keys, local.keys, supply);
    forall k | k in local.keys
      ensures IndexKeyByName(m.keys, k.name) >= 0
    {
      var j :| 0 <= j < |local.keys| && local.keys[j] == k;
      KeyNamesCovered(base.keys, local.keys, supply, j);
    }
    forall h | h in local.hosts
      ensures IndexByName(m.hosts, h.name) >= 0
    {
      var j :| 0 <= j < |local.hosts| && local.hosts[j] == h;
      HostNamesCovered(base.hosts, local.hosts, ks, supply, j);
    }
    CoveredKeysAddNothing(m.keys, local.keys, supply2);
    CoveredHostsAddNothing(m.hosts, local.hosts, AddKeys(m.keys, local.keys, supply2), supply2);
  }

  // ---------------------------------------------------------------------------
  // Exactly what is carried over
  // ---------------------------------------------------------------------------

  function KeyNames(keys: seq<VaultKey>): set<string> { set k | k in keys :: NameKey(k.name) }

  function HostNames(hosts: seq<Host>): set<string> { set h | h in hosts :: NameKey(h.name) }

  /** The local keys whose names are free: neither an account key nor an earlier local key has them. In local order. */
  function FreeKeys(base: seq<VaultKey>, local: seq<VaultKey>): seq<VaultKey> {
    if local == [] then []
    else
      var earlier := local[..|local| - 1];
      FreeKeys(base, earlier) +
      if NameKey(Last(local).name) in KeyNames(base) + KeyNames(earlier) then [] else [Last(local)]
  }

  function FreeHosts(base: seq<Host>, local: seq<Host>): seq<Host> {
    if local == [] then []
    else
      var earlier := local[..|local| - 1];
      FreeHosts(base, earlier) +
      if NameKey(Last(local).name) in HostNames(base) + HostNames(earlier) then [] else [Last(local)]
  }

  /** This local key as it is, except that an empty id or one taken by the keys before it gave way to a new one. */
  ghost predicate KeyCarried(before: seq<VaultKey>, k: VaultKey, carried: VaultKey, supply: Supply) {
    && carried == k.(id := carried.id)
    && if k.id == "" || k.id in KeyIds(before) then exists u: nat :: carried.id == supply(u) else carried.id == k.id
  }

  /** The account's keys, and behind them exactly these local ones, in this order. */
  ghost predicate KeysCarried(base: seq<VaultKey>, free: seq<VaultKey>, keys: seq<VaultKey>, supply: Supply) {
    && |keys| == |base| + |free| && base <= keys
    && forall i | 0 <= i < |free| :: KeyCarried(keys[..|base| + i], free[i], keys[|base| + i], supply)
  }

  ghost predicate HostCarried(before: seq<Host>, h: Host, carried: Host, ks: KeyState, supply: Supply) {
    && carried == h.(id := carried.id, keyID := Rebound(h.keyID, ks))
    && if h.id == "" || h.id in HostIds(before) then exists u: nat :: carried.id == supply(u) else carried.id == h.id
  }

  ghost predicate HostsCarried(base: seq<Host>, free: seq<Host>, hosts: seq<Host>, ks: KeyState, supply: Supply) {
    && |hosts| == |base| + |free| && base <= hosts
    && forall i | 0 <= i < |free| :: HostCarried(hosts[..|base| + i], free[i], hosts[|base| + i], ks, supply)
  }

  lemma KeyAdded(st: KeyState, k: VaultKey, supply: Supply)
    ensures var st' := AddKey(st, k, supply);
            && KeyNames(st'.keys) == KeyNames(st.keys) + {NameKey(k.name)}
            && if NameKey(k.name) in KeyNames(st.keys) then st'.keys == st.keys
               else |st'.keys| == |st.keys| + 1 && st.keys <= st'.keys && KeyCarried(st.keys, k, Last(st'.keys), supply)
  {
    var st' := AddKey(st, k, supply);
    if IndexKeyByName(st.keys, k.name) < 0 {
      assert st'.keys == st.keys + [Last(st'.keys)];
      assert IndexKeyById(st.keys, k.id) >= 0 <==> k.id in KeyIds(st.keys);
    } else {
      assert st.keys[IndexKeyByName(st.keys, k.name)] in st.keys;
    }
  }

  lemma HostAdded(st: HostState, h: Host, ks: KeyState, supply: Supply)
    ensures var st' := AddHost(st, h, ks, supply);
            && HostNames(st'.hosts) == HostNames(st.hosts) + {NameKey(h.name)}
            && if NameKey(h.name) in HostNames(st.hosts) then st'.hosts == st.hosts
               else |st'.hosts| == |st.hosts| + 1 && st.hosts <= st'.hosts
                    && HostCarried(st.hosts, h, Last(st'.hosts), ks, supply)
  {
    var st' := AddHost(st, h, ks, supply);
    if IndexByName(st.hosts, h.name) < 0 {
      assert st'.hosts == st.hosts + [Last(st'.hosts)];
      assert IndexById(st.hosts, h.id) >= 0 <==> h.id in HostIds(st.hosts);
    } else {
      assert st.hosts[IndexByName(st.hosts, h.name)] in st.hosts;
    }
  }

  lemma OneMoreKey(base: seq<VaultKey>, free: seq<VaultKey>, keys: seq<VaultKey>, k: VaultKey, keys': seq<VaultKey>,
                   supply: Supply)
    requires KeysCarried(base, free, keys, supply)
    requires |keys'| == |keys| + 1 && keys <= keys' && KeyCarried(keys, k, Last(keys'), supply)
    ensures KeysCarried(base, free + [k], keys', supply)
  {
    forall i | 0 <= i < |free| + 1
      ensures KeyCarried(keys'[..|base| + i], (free + [k])[i], keys'[|base| + i], supply)
    {
      if i < |free| {
        assert keys'[..|base| + i] == keys[..|base| + i];
      } else {
        assert keys'[..|base| + i] == keys;
      }
    }
  }

  lemma OneMoreHost(base: seq<Host>, free: seq<Host>, hosts: seq<Host>, h: Host, hosts': seq<Host>, ks: KeyState,
                    supply: Supply)
    requires HostsCarried(base, free, hosts, ks, supply)
    requires |hosts'| == |hosts| + 1 && hosts <= hosts' && HostCarried(hosts, h, Last(hosts'), ks, supply)
    ensures HostsCarried(base, free + [h], hosts', ks, supply)
  {
    forall i | 0 <= i < |free| + 1
      ensures HostCarried(hosts'[..|base| + i], (free + [h])[i], hosts'[|base| + i], ks, supply)
    {
      if i < |free| {
        assert hosts'[..|base| + i] == hosts[..|base| + i];
      } else {
        assert hosts'[..|base| + i] == hosts;
      }
    }
  }

  /**
   What becomes of the local keys: carried, behind the account's keys and in local
   order, are exactly those whose name neither an account key nor an earlier local key
   has; each as it is, its id changing only if it was empty or taken.
   */
  lemma {:induction false} KeysAreCarriedIff(base: seq<VaultKey>, local: seq<VaultKey>, supply: Supply)
    ensures var st := AddKeys(base, local, supply);
            && KeysCarried(base, FreeKeys(base, local), st.keys, supply)
            && KeyNames(st.keys) == KeyNames(base) + KeyNames(local)
  {
    hide AddKey, KeysCarried, KeyCarried, KeyNames;
    if local == [] {
      NothingCarried(base, [], AddKeys(base, [], supply), supply);
    } else {
      var earlier := local[..|local| - 1];
      var before := AddKeys(base, earlier, supply);
      KeysAreCarriedIff(base, earlier, supply);
      KeyAdded(before, Last(local), supply);
      KeyNamesOfMore(earlier, Last(local), local);
      if NameKey(Last(local).name) !in KeyNames(base) + KeyNames(earlier) {
        OneMoreKey(base, FreeKeys(base, earlier), before.keys, Last(local), AddKeys(base, local, supply).keys, supply);
      } else {
        assert FreeKeys(base, local) == FreeKeys(base, earlier);
      }
    }
  }

  lemma KeyNamesOfMore(earlier: seq<VaultKey>, k: VaultKey, keys: seq<VaultKey>)
    requires keys == earlier + [k]
    ensures KeyNames(keys) == KeyNames(earlier) + {NameKey(k.name)}
  {
  }

  lemma HostNamesOfMore(earlier: seq<Host>, h: Host, hosts: seq<Host>)
    requires hosts == earlier + [h]
    ensures HostNames(hosts) == HostNames(earlier) + {NameKey(h.name)}
  {
  }

  /** What becomes of the local hosts, likewise, with their bindings rewritten. */
  lemma {:induction false} HostsAreCarriedIff(base: seq<Host>, local: seq<Host>, ks: KeyState, supply: Supply)
    ensures var st := AddHosts(base, local, ks, supply);
            && HostsCarried(base, FreeHosts(base, local), st.hosts, ks, supply)
            && HostNames(st.hosts) == HostNames(base) + HostNames(local)
  {
    hide AddHost, HostsCarried, HostCarried, HostNames;
    if local == [] {
      NothingCarried([], base, ks, supply);
    } else {
      var earlier := local[..|local| - 1];
      var before := AddHosts(base, earlier, ks, supply);
      HostsAreCarriedIff(base, earlier, ks, supply);
      HostAdded(before, Last(local), ks, supply);
      HostNamesOfMore(earlier, Last(local), local);
      if NameKey(Last(local).name) !in HostNames(base) + HostNames(earlier) {
        OneMoreHost(base, FreeHosts(base, earlier), before.hosts, Last(local), AddHosts(base, local, ks, supply).hosts, ks,
                    supply);
      } else {
        assert FreeHosts(base, local) == FreeHosts(base, earlier);
      }
    }
  }

  lemma NothingCarried(keys: seq<VaultKey>, hosts: seq<Host>, ks: KeyState, supply: Supply)
    ensures KeysCarried(keys, [], keys, supply) && HostsCarried(hosts, [], hosts, ks, supply)
    ensures KeyNames([]) == {} && HostNames([]) == {}
  {
  }
}
