/** The vault document: hosts and synced keys, with names compared trimmed and case-insensitively. */
module Documents {
  import opened Common

  datatype Host = Host(
    id: string, name: string, user: string, addr: string, port: int, tags: seq<string>, keyPath: string,
    keyID: string, authMethod: string, password: string, source: string, lastSeen: int)

  datatype VaultKey = VaultKey(
    id: string, name: string, keyType: string, material: string, publicKey: string, sourcePath: string, addedAt: int)

  datatype Settings = Settings(theme: string, agent: bool, keepalive: bool, telemetry: bool)

  datatype Identity = Identity(x25519Priv: string, x25519Pub: string, mlkemSeed: string, createdAt: int)

  datatype Document = Document(
    schema: int, hosts: seq<Host>, settings: Settings, identity: Option<Identity>, keys: seq<VaultKey>)

  const SCHEMA_VERSION: int := 5

  predicate IsSpace(c: char) { c in " \t\n\r\U{0b}\U{0c}" }

  function TrimLeft(s: string): string {
    if s != "" && IsSpace(s[0]) then TrimLeft(s[1..]) else s
  }

  function TrimRight(s: string): string {
    if s != "" && IsSpace(Last(s)) then TrimRight(s[..|s| - 1]) else s
  }

  function TrimSpace(s: string): string { TrimRight(TrimLeft(s)) }

  function ToLower(s: string): string {
    seq(|s|, i requires 0 <= i < |s| => if 'A' <= s[i] <= 'Z' then s[i] - 'A' + 'a' else s[i])
  }

  /** The user-facing identity of a host or a key. */
  function NameKey(name: string): string { ToLower(TrimSpace(name)) }

  // Index of the first match, or -1 -- as the store's lookups are.

  function IndexByName(hosts: seq<Host>, name: string): (i: int)
    ensures -1 <= i < |hosts|
    ensures i >= 0 ==> NameKey(hosts[i].name) == NameKey(name) && forall j | 0 <= j < i :: NameKey(hosts[j].name) != NameKey(name)
    ensures i < 0 <==> forall h | h in hosts :: NameKey(h.name) != NameKey(name)
  {
    if hosts == [] then -1
    else if NameKey(hosts[0].name) == NameKey(name) then 0
    else
      var i := IndexByName(hosts[1..], name);
      assert forall h | h in hosts :: h == hosts[0] || h in hosts[1..];
      if i < 0 then -1 else i + 1
  }

  function IndexById(hosts: seq<Host>, id: string): (i: int)
    ensures -1 <= i < |hosts|
    ensures i >= 0 ==> hosts[i].id == id && forall j | 0 <= j < i :: hosts[j].id != id
    ensures i < 0 <==> forall h | h in hosts :: h.id != id
  {
    if hosts == [] then -1
    else if hosts[0].id == id then 0
    else
      var i := IndexById(hosts[1..], id);
      assert forall h | h in hosts :: h == hosts[0] || h in hosts[1..];
      if i < 0 then -1 else i + 1
  }

  function IndexKeyByName(keys: seq<VaultKey>, name: string): (i: int)
    ensures -1 <= i < |keys|
    ensures i >= 0 ==> NameKey(keys[i].name) == NameKey(name) && forall j | 0 <= j < i :: NameKey(keys[j].name) != NameKey(name)
    ensures i < 0 <==> forall k | k in keys :: NameKey(k.name) != NameKey(name)
  {
    if keys == [] then -1
    else if NameKey(keys[0].name) == NameKey(name) then 0
    else
      var i := IndexKeyByName(keys[1..], name);
      assert forall k | k in keys :: k == keys[0] || k in keys[1..];
      if i < 0 then -1 else i + 1
  }

  function IndexKeyById(keys: seq<VaultKey>, id: string): (i: int)
    ensures -1 <= i < |keys|
    ensures i >= 0 ==> keys[i].id == id && forall j | 0 <= j < i :: keys[j].id != id
    ensures i < 0 <==> forall k | k in keys :: k.id != id
  {
    if keys == [] then -1
    else if keys[0].id == id then 0
    else
      var i := IndexKeyById(keys[1..], id);
      assert forall k | k in keys :: k == keys[0] || k in keys[1..];
      if i < 0 then -1 else i + 1
  }

  predicate HostNamesUnique(hosts: seq<Host>) {
    forall i, j | 0 <= i < j < |hosts| :: NameKey(hosts[i].name) != NameKey(hosts[j].name)
  }

  predicate HostIdsUnique(hosts: seq<Host>) {
    forall i, j | 0 <= i < j < |hosts| :: hosts[i].id != hosts[j].id
  }

  predicate KeyNamesUnique(keys: seq<VaultKey>) {
    forall i, j | 0 <= i < j < |keys| :: NameKey(keys[i].name) != NameKey(keys[j].name)
  }

  predicate KeyIdsUnique(keys: seq<VaultKey>) {
    forall i, j | 0 <= i < j < |keys| :: keys[i].id != keys[j].id
  }
}
