/**
 * The in-memory EDR connection cache: counter-party id -> counter-party address ->
 * query checksum -> policy checksum -> stored entry, plus a running counter of the
 * entries saved so far.
 */
module MemoryConnection {
  import opened Wrappers
  import opened Json

  /** A negotiated transfer descriptor, as the dictionary the connector returned. */
  type Entry = map<string, Json>
  type PolicyLevel = map<string, Entry>
  type QueryLevel = map<string, PolicyLevel>
  type AddressLevel = map<string, QueryLevel>
  type Connections = map<string, AddressLevel>

  /** The four keys under which one entry is cached. */
  datatype Key = Key(counterPartyId: string, counterPartyAddress: string, queryChecksum: string, policyChecksum: string)

  datatype AddError =
    | MissingTransferId   // the transfer id is absent, None or ""
    | MissingEnvelopeKey  // `del` of @type, the provider-id key or @context raised KeyError

  const AtType := "@type"
  const AtContext := "@context"

  /** The entry stored under `k`, when every level of its path exists. */
  function Lookup(c: Connections, k: Key): Option<Entry> {
    if k.counterPartyId in c
       && k.counterPartyAddress in c[k.counterPartyId]
       && k.queryChecksum in c[k.counterPartyId][k.counterPartyAddress]
       && k.policyChecksum in c[k.counterPartyId][k.counterPartyAddress][k.queryChecksum]
    then Some(c[k.counterPartyId][k.counterPartyAddress][k.queryChecksum][k.policyChecksum])
    else None
  }

  /** `c` with `e` stored under `k`; the levels of the path that are missing are created. */
  function Store(c: Connections, k: Key, e: Entry): Connections {
    var edcs := if k.counterPartyId in c then c[k.counterPartyId] else map[];
    var oids := if k.counterPartyAddress in edcs then edcs[k.counterPartyAddress] else map[];
    var details := if k.queryChecksum in oids then oids[k.queryChecksum] else map[];
    c[k.counterPartyId := edcs[k.counterPartyAddress := oids[k.queryChecksum := details[k.policyChecksum := e]]]]
  }

  /** `c` without the entry under `k`; emptied intermediate levels are kept. */
  function Remove(c: Connections, k: Key): Connections {
    if Lookup(c, k).Some? then
      var edcs := c[k.counterPartyId];
      var oids := edcs[k.counterPartyAddress];
      var details := oids[k.queryChecksum];
      c[k.counterPartyId := edcs[k.counterPartyAddress := oids[k.queryChecksum := details - {k.policyChecksum}]]]
    else c
  }

  /** Every key path that leads to a stored entry. */
  function Paths(c: Connections): set<Key> {
    set cp, a, q, p | cp in c && a in c[cp] && q in c[cp][a] && p in c[cp][a][q] :: Key(cp, a, q, p)
  }

  /** The cache seen as one flat map from the four keys to the stored entry. */
  function Entries(c: Connections): map<Key, Entry> {
    map k | k in Paths(c) :: Lookup(c, k).GetOr(map[])
  }

  /** The flat view holds exactly what `Lookup` finds. */
  lemma EntriesLookup(c: Connections, k: Key)
    ensures k in Entries(c) <==> Lookup(c, k).Some?
    ensures k in Entries(c) ==> Entries(c)[k] == Lookup(c, k).value
  {
    if Lookup(c, k).Some? {
      assert k == Key(k.counterPartyId, k.counterPartyAddress, k.queryChecksum, k.policyChecksum);
      assert k in Paths(c);
    }
  }

  /** A stored entry is found again under its own keys. */
  lemma LookupStore(c: Connections, k: Key, e: Entry)
    ensures Lookup(Store(c, k, e), k) == Some(e)
  {
  }

  /** Storing under `k` changes nothing under any other four keys. */
  lemma LookupStoreOther(c: Connections, k: Key, e: Entry, k': Key)
    requires k' != k
    ensures Lookup(Store(c, k, e), k') == Lookup(c, k')
  {
  }

  /** Removing `k` makes it absent and changes nothing under any other four keys. */
  lemma LookupRemove(c: Connections, k: Key, k': Key)
    ensures Lookup(Remove(c, k), k).None?
    ensures k' != k ==> Lookup(Remove(c, k), k') == Lookup(c, k')
  {
  }

  /** In the flat view, storing is a single-key map update: an overwrite replaces, everything else stays. */
  lemma EntriesStore(c: Connections, k: Key, e: Entry)
    ensures Entries(Store(c, k, e)) == Entries(c)[k := e]
  {
    var c' := Store(c, k, e);
    forall k' | true
      ensures k' in Entries(c') <==> k' in Entries(c)[k := e]
      ensures k' in Entries(c') ==> Entries(c')[k'] == Entries(c)[k := e][k']
    {
      EntriesLookup(c', k');
      EntriesLookup(c, k');
      if k' != k {
        LookupStoreOther(c, k, e, k');
      }
    }
  }

  /** In the flat view, removing a present key is a single-key map removal. */
  lemma EntriesRemove(c: Connections, k: Key)
    ensures Entries(Remove(c, k)) == Entries(c) - {k}
  {
    var c' := Remove(c, k);
    forall k' | true
      ensures k' in Entries(c') <==> k' in Entries(c) - {k}
      ensures k' in Entries(c') ==> Entries(c')[k'] == (Entries(c) - {k})[k']
    {
      EntriesLookup(c', k');
      EntriesLookup(c, k');
      LookupRemove(c, k, k');
    }
  }

  /** Two assignments to one key: the second one wins. */
  lemma UpdateTwice<K, V>(m: map<K, V>, k: K, a: V, b: V)
    ensures m[k := a][k := b] == m[k := b]
  {
  }

  /** Writing into the stored entry's slot of a cache that already holds the path is storing over it. */
  lemma StoreOver(c: Connections, k: Key, e: Entry, e': Entry)
    ensures var s := Store(c, k, e);
      s[k.counterPartyId := s[k.counterPartyId][k.counterPartyAddress := s[k.counterPartyId][k.counterPartyAddress][k.queryChecksum :=
        s[k.counterPartyId][k.counterPartyAddress][k.queryChecksum][k.policyChecksum := e']]]]
      == Store(c, k, e')
  {
    var edcs := if k.counterPartyId in c then c[k.counterPartyId] else map[];
    var oids := if k.counterPartyAddress in edcs then edcs[k.counterPartyAddress] else map[];
    var details := if k.queryChecksum in oids then oids[k.queryChecksum] else map[];
    UpdateTwice(details, k.policyChecksum, e, e');
    UpdateTwice(oids, k.queryChecksum, details[k.policyChecksum := e], details[k.policyChecksum := e']);
    UpdateTwice(edcs, k.counterPartyAddress, oids[k.queryChecksum := details[k.policyChecksum := e]],
                oids[k.queryChecksum := details[k.policyChecksum := e']]);
    UpdateTwice(c, k.counterPartyId, edcs[k.counterPartyAddress := oids[k.queryChecksum := details[k.policyChecksum := e]]],
                edcs[k.counterPartyAddress := oids[k.queryChecksum := details[k.policyChecksum := e']]]);
  }

  /** Assigning one key adds at most one entry. */
  lemma CardUpdate<K, V>(m: map<K, V>, k: K, v: V)
    ensures |m[k := v]| <= |m| + 1
  {
    assert m[k := v].Keys == m.Keys + {k};
    assert |m.Keys + {k}| <= |m.Keys| + 1;
  }

  /** Removing a present key removes exactly one entry. */
  lemma CardRemove<K, V>(m: map<K, V>, k: K)
    requires k in m
    ensures |m - {k}| == |m| - 1
  {
    assert (m - {k}).Keys == m.Keys - {k};
  }

  /** The transfer id `add_connection` accepts: present, not None and not "". */
  function TransferIdOf(e: Entry, transferIdKey: string): (r: Option<Json>)
    ensures r.Some? <==> transferIdKey in e && e[transferIdKey] != JNull && e[transferIdKey] != JStr("")
    ensures r.Some? ==> r.value == e[transferIdKey]
  {
    var tid := if transferIdKey in e then e[transferIdKey] else JNull;
    if tid == JNull || tid == JStr("") then None else Some(tid)
  }

  /** `del e["@type"], e[providerIdKey], e["@context"]` succeeds: three distinct keys, all present. */
  predicate HasEnvelope(e: Entry, providerIdKey: string) {
    AtType in e && providerIdKey in e && AtContext in e
    && providerIdKey != AtType && providerIdKey != AtContext
  }

  /** The copy that is cached: the entry without its transport envelope. */
  function Sanitized(e: Entry, providerIdKey: string): (r: Entry)
    ensures r.Keys == e.Keys - {AtType, providerIdKey, AtContext}
    ensures forall k :: k in r ==> r[k] == e[k]
  {
    e - {AtType, providerIdKey, AtContext}
  }

  class MemoryConnectionManager {
    const transferIdKey: string
    const providerIdKey: string
    var openConnections: Connections
    /** The saved-EDR counter; `None` until the first successful add creates it. */
    var edrs: Option<int>

    /** The counter never falls below the number of cached entries, and exists once any entry does. */
    ghost predicate Valid()
      reads this
    {
      edrs.GetOr(0) >= |Entries(openConnections)|
      && (edrs.None? ==> Entries(openConnections) == map[])
    }

    constructor (transferIdKey: string, providerIdKey: string := "providerId")
      ensures this.transferIdKey == transferIdKey && this.providerIdKey == providerIdKey
      ensures openConnections == map[] && edrs == None
      ensures Valid()
    {
      this.transferIdKey := transferIdKey;
      this.providerIdKey := providerIdKey;
      openConnections := map[];
      edrs := None;
      new;
      assert Paths(openConnections) == {};
    }

    /**
     * The first half of `add_connection`: each missing level of the path is created, and an
     * empty entry is put under the policy checksum unless one is stored there already.
     */
    method EnsurePath(cp: string, addr: string, q: string, p: string)
      modifies this`openConnections
      ensures openConnections == Store(old(openConnections), Key(cp, addr, q, p),
                                       Lookup(old(openConnections), Key(cp, addr, q, p)).GetOr(map[]))
    {
      ghost var c0 := openConnections;
      ghost var edcs0 := if cp in c0 then c0[cp] else map[];
      ghost var oids0 := if addr in edcs0 then edcs0[addr] else map[];
      ghost var details0 := if q in oids0 then oids0[q] else map[];
      if cp !in openConnections {
        openConnections := openConnections[cp := map[]];
      }
      var cachedEdcs := openConnections[cp];
      if addr !in cachedEdcs {
        cachedEdcs := cachedEdcs[addr := map[]];
      }
      var cachedOids := cachedEdcs[addr];
      if q !in cachedOids {
        cachedOids := cachedOids[q := map[]];
      }
      var cachedDetails := cachedOids[q];
      if p !in cachedDetails {
        cachedDetails := cachedDetails[p := map[]];
      }
      assert cachedOids == oids0 || cachedOids == oids0[q := map[]];
      // The source mutates the nested dictionaries through shared references: write the levels back.
      openConnections := openConnections[cp := cachedEdcs[addr := cachedOids[q := cachedDetails]]];
      ghost var old0 := Lookup(c0, Key(cp, addr, q, p)).GetOr(map[]);
      assert cachedDetails == details0[p := old0];
      UpdateTwice(edcs0, addr, map[], oids0[q := details0[p := old0]]);
      UpdateTwice(oids0, q, map[], details0[p := old0]);
      UpdateTwice(c0, cp, map[], edcs0[addr := oids0[q := details0[p := old0]]]);
    }

    /**
     * Caches a sanitized copy of `entry` and returns its transfer id, as the source does:
     * the intermediate levels and an empty placeholder entry are created before the
     * envelope keys are deleted, so a missing envelope key leaves them behind.
     */
    method AddConnection(cp: string, addr: string, q: string, p: string, entry: Entry)
      returns (r: Result<Json, AddError>)
      modifies this
      ensures TransferIdOf(entry, transferIdKey).None? ==>
        r == Err(MissingTransferId) && openConnections == old(openConnections) && edrs == old(edrs)
      ensures TransferIdOf(entry, transferIdKey).Some? && !HasEnvelope(entry, providerIdKey) ==>
        && r == Err(MissingEnvelopeKey)
        && openConnections == Store(old(openConnections), Key(cp, addr, q, p),
                                    Lookup(old(openConnections), Key(cp, addr, q, p)).GetOr(map[]))
        && edrs == old(edrs)
      ensures TransferIdOf(entry, transferIdKey).Some? && HasEnvelope(entry, providerIdKey) ==>
        && r == Ok(entry[transferIdKey])
        && openConnections == Store(old(openConnections), Key(cp, addr, q, p), Sanitized(entry, providerIdKey))
        && edrs == Some(old(edrs).GetOr(0) + 1)
    {
      var tid := if transferIdKey in entry then entry[transferIdKey] else JNull;
      if tid == JNull || tid == JStr("") {
        return Err(MissingTransferId);
      }
      ghost var c0 := openConnections;
      EnsurePath(cp, addr, q, p);
      if !HasEnvelope(entry, providerIdKey) {
        return Err(MissingEnvelopeKey);
      }
      var savedEdr := entry - {AtType, providerIdKey, AtContext};
      StoreOver(c0, Key(cp, addr, q, p), Lookup(c0, Key(cp, addr, q, p)).GetOr(map[]), savedEdr);
      openConnections := openConnections[cp := openConnections[cp][addr := openConnections[cp][addr][q :=
                           openConnections[cp][addr][q][p := savedEdr]]]];
      if edrs.None? {
        edrs := Some(0);
      }
      edrs := Some(edrs.value + 1);
      return Ok(tid);
    }

    /**
     * The intended `add_connection`: every check happens before the cache is touched, so a
     * rejected entry leaves both the map and the counter as they were.
     */
    method AddConnectionChecked(cp: string, addr: string, q: string, p: string, entry: Entry)
      returns (r: Result<Json, AddError>)
      requires Valid()
      modifies this
      ensures Valid()
      ensures r.Err? <==> TransferIdOf(entry, transferIdKey).None? || !HasEnvelope(entry, providerIdKey)
      ensures r.Err? ==> openConnections == old(openConnections) && edrs == old(edrs)
      ensures r.Ok? ==>
        && r.value == entry[transferIdKey]
        && Entries(openConnections) == Entries(old(openConnections))[Key(cp, addr, q, p) := Sanitized(entry, providerIdKey)]
        && edrs == Some(old(edrs).GetOr(0) + 1)
    {
      var tid := if transferIdKey in entry then entry[transferIdKey] else JNull;
      if tid == JNull || tid == JStr("") {
        return Err(MissingTransferId);
      }
      if !HasEnvelope(entry, providerIdKey) {
        return Err(MissingEnvelopeKey);
      }
      var k := Key(cp, addr, q, p);
      EntriesStore(openConnections, k, Sanitized(entry, providerIdKey));
      CardUpdate(Entries(openConnections), k, Sanitized(entry, providerIdKey));
      openConnections := Store(openConnections, k, Sanitized(entry, providerIdKey));
      edrs := Some(edrs.GetOr(0) + 1);
      return Ok(tid);
    }

    /** `get_connection`: the stored entry, or `{}` when any level of the path is missing. */
    method GetConnection(cp: string, addr: string, q: string, p: string) returns (e: Entry)
      ensures Lookup(openConnections, Key(cp, addr, q, p)).Some? ==>
        e == Lookup(openConnections, Key(cp, addr, q, p)).value
      ensures Lookup(openConnections, Key(cp, addr, q, p)).None? ==> e == map[]
    {
      var counterpartyData := if cp in openConnections then openConnections[cp] else map[];
      var edcData := if addr in counterpartyData then counterpartyData[addr] else map[];
      var oidData := if q in edcData then edcData[q] else map[];
      e := if p in oidData then oidData[p] else map[];
    }

    /** `get_connection_transfer_id`: the stored entry's transfer id, or None. */
    method GetConnectionTransferId(cp: string, addr: string, q: string, p: string) returns (t: Json)
      ensures var found := Lookup(openConnections, Key(cp, addr, q, p));
        t == if found.Some? && transferIdKey in found.value then found.value[transferIdKey] else JNull
    {
      var cachedEntry := GetConnection(cp, addr, q, p);
      t := if transferIdKey in cachedEntry then cachedEntry[transferIdKey] else JNull;
    }

    /**
     * `delete_connection`: True, with the counter decremented when it exists, iff an entry is
     * stored under the four keys; otherwise False and nothing changes.
     */
    method DeleteConnection(cp: string, addr: string, q: string, p: string) returns (deleted: bool)
      modifies this
      ensures deleted <==> Lookup(old(openConnections), Key(cp, addr, q, p)).Some?
      ensures deleted ==>
        && openConnections == Remove(old(openConnections), Key(cp, addr, q, p))
        && edrs == (if old(edrs).Some? then Some(old(edrs).value - 1) else None)
      ensures !deleted ==> openConnections == old(openConnections) && edrs == old(edrs)
    {
      if cp !in openConnections || addr !in openConnections[cp] || q !in openConnections[cp][addr] {
        // KeyError on one of the outer levels
        return false;
      }
      var cachedDetails := openConnections[cp][addr][q];
      if p in cachedDetails {
        cachedDetails := cachedDetails - {p};
        openConnections := openConnections[cp := openConnections[cp][addr := openConnections[cp][addr][q := cachedDetails]]];
        if edrs.Some? {
          edrs := Some(edrs.value - 1);
        }
        return true;
      }
      return false;
    }

    /** Deleting keeps the counter at or above the number of entries. */
    method DeleteConnectionValid(cp: string, addr: string, q: string, p: string) returns (deleted: bool)
      requires Valid()
      modifies this
      ensures Valid()
      ensures deleted <==> Key(cp, addr, q, p) in Entries(old(openConnections))
      ensures Entries(openConnections) == Entries(old(openConnections)) - {Key(cp, addr, q, p)}
    {
      ghost var k := Key(cp, addr, q, p);
      ghost var before := openConnections;
      EntriesLookup(before, k);
      EntriesRemove(before, k);
      if k in Entries(before) {
        CardRemove(Entries(before), k);
      }
      deleted := DeleteConnection(cp, addr, q, p);
    }
  }

  /**
   * As written, a rejected add leaves an empty placeholder entry that a later delete
   * reports as deleted and counts down: after one good add, its delete, and one add
   * without envelope keys followed by its delete, the counter reads -1.
   */
  method PhantomEntryScenario() returns (deleted: bool, count: Option<int>)
    ensures deleted && count == Some(-1)
  {
    var m := new MemoryConnectionManager("transferId");
    var good := map["transferId" := JStr("T1"), AtType := JStr("X"), "providerId" := JStr("bpnA"), AtContext := JObj([])];
    var bad := map["transferId" := JStr("T2")];
    assert HasEnvelope(good, "providerId") && !HasEnvelope(bad, "providerId");
    var r1 := m.AddConnection("bpnA", "https://edcA", "q1", "p1", good);
    var d1 := m.DeleteConnection("bpnA", "https://edcA", "q1", "p1");
    var r2 := m.AddConnection("bpnA", "https://edcA", "q2", "p1", bad);
    assert r2 == Err(MissingEnvelopeKey);
    deleted := m.DeleteConnection("bpnA", "https://edcA", "q2", "p1");
    count := m.edrs;
  }
}
