/**
 The dual-keyed read-through caches of src/cache.rs and their invalidation across
 replicas. `ChannelCache` and `ClientCache` have the same two maps and the same four
 operations; `DualKeyedCache` is both.
 */
module Cache {
  import opened Wrappers
  import opened ExternalId
  import opened Model

  // A provider's identity for a channel or a client.
  datatype Key = Key(provider: ProviderKind, external: string)

  // A row of `channels` (always keyed, live until soft-deleted) or of `clients` (keyed when
  // it has an external id, always live). `body` stands for the remaining columns.
  datatype Entity = Entity(key: Option<Key>, body: string, live: bool)

  type Table = map<Uuid, Entity>

  // No two rows share a key, deleted rows included.
  ghost predicate UniqueKeys(table: Table) {
    forall a, b :: a in table && b in table && table[a].key.Some? && table[a].key == table[b].key ==> a == b
  }

  ghost predicate LiveUnder(table: Table, key: Key, id: Uuid) {
    id in table && table[id].live && table[id].key == Some(key)
  }

  // SELECT … WHERE provider = $1 AND external_key = $2 AND deleted_at IS NULL.
  ghost function FindLive(table: Table, key: Key): Option<Uuid> {
    if id :| LiveUnder(table, key, id) then Some(id) else None
  }

  function FindLiveById(table: Table, id: Uuid): Option<Entity> {
    if id in table && table[id].live then Some(table[id]) else None
  }

  // ── The cache as a value ────────────────────────────────────────────

  datatype Maps = Maps(byId: Table, extIndex: map<Key, Uuid>)

  const EMPTY := Maps(map[], map[])

  function Inserted(c: Maps, id: Uuid, e: Entity): Maps {
    Maps(c.byId[id := e], if e.key.Some? then c.extIndex[e.key.value := id] else c.extIndex)
  }

  function Evicted(c: Maps, id: Uuid): Maps {
    Maps(map k | k in c.byId && k != id :: c.byId[k], map k | k in c.extIndex && c.extIndex[k] != id :: c.extIndex[k])
  }

  function GotById(c: Maps, table: Table, id: Uuid): (Maps, Option<Entity>) {
    if id in c.byId then (c, Some(c.byId[id]))
    else if id in table && table[id].live then (Inserted(c, id, table[id]), Some(table[id]))
    else (c, None)
  }

  predicate Cached(c: Maps, key: Key) {
    key in c.extIndex && c.extIndex[key] in c.byId
  }

  // The row that answers a lookup by key.
  ghost function Answering(c: Maps, table: Table, key: Key): Option<Uuid> {
    if Cached(c, key) then Some(c.extIndex[key]) else FindLive(table, key)
  }

  ghost function GotByKey(c: Maps, table: Table, key: Key): (Maps, Option<Entity>) {
    if Cached(c, key) then (c, Some(c.byId[c.extIndex[key]]))
    else match FindLive(table, key)
      case Some(id) => (Inserted(c, id, table[id]), Some(table[id]))
      case None => (c, None)
  }

  /** A lookup by id stores exactly the row it answers with, so that every later lookup gives
      that row again, whatever the table then holds, until an eviction. */
  lemma LookupIsRemembered(c: Maps, table: Table, later: Table, id: Uuid)
    ensures
      var (after, answer) := GotById(c, table, id);
      && (id in c.byId ==> answer == Some(c.byId[id]))
      && (id !in c.byId ==> answer == if id in table && table[id].live then Some(table[id]) else None)
      && (id in c.byId || answer.None? ==> after == c)
      && (id !in c.byId && answer.Some? ==> after.byId == c.byId[id := answer.value] && Indexes(c.extIndex, after.extIndex, id, answer.value))
      && (answer.Some? ==> GotById(after, later, id) == (after, answer))
  {
  }

  // The row's own key leads to it, and every other key where it led before.
  ghost predicate Indexes(index: map<Key, Uuid>, next: map<Key, Uuid>, id: Uuid, e: Entity) {
    && (e.key.Some? ==> e.key.value in next && next[e.key.value] == id)
    && (forall k :: e.key != Some(k) ==> (k in next <==> k in index) && (k in next ==> next[k] == index[k]))
  }

  /** So does a lookup by key, for lookups by that key and by the row's id alike. */
  lemma KeyLookupIsRemembered(c: Maps, table: Table, later: Table, key: Key)
    ensures
      var (after, answer) := GotByKey(c, table, key);
      && (Cached(c, key) ==> answer == Some(c.byId[c.extIndex[key]]))
      && (Cached(c, key) || answer.None? ==> after == c)
      && (answer.None? ==> forall id :: !LiveUnder(table, key, id))
      && (!Cached(c, key) && answer.Some? ==>
            exists id :: LiveUnder(table, key, id) && answer == Some(table[id])
              && after.byId == c.byId[id := table[id]] && Indexes(c.extIndex, after.extIndex, id, table[id])
              && GotById(after, later, id) == (after, answer))
      && (answer.Some? ==> Cached(after, key) && GotByKey(after, later, key) == (after, answer))
  {
    if !Cached(c, key) && FindLive(table, key).Some? {
      var id := FindLive(table, key).value;
      assert LiveUnder(table, key, id);
      LookupIsRemembered(c, table, later, id);
      assert Indexes(c.extIndex, GotByKey(c, table, key).0.extIndex, id, table[id]);
    }
  }

  class DualKeyedCache {
    var byId: Table
    var extIndex: map<Key, Uuid>

    ghost function View(): Maps
      reads this
    {
      Maps(byId, extIndex)
    }

    constructor ()
      ensures View() == EMPTY
    {
      byId, extIndex := map[], map[];
    }

    method Insert(id: Uuid, e: Entity)
      modifies this
      ensures byId == old(byId)[id := e] && Indexes(old(extIndex), extIndex, id, e)
      ensures View() == Inserted(old(View()), id, e)
    {
      byId := byId[id := e];
      if e.key.Some? {
        extIndex := extIndex[e.key.value := id];
      }
    }

    method GetById(table: Table, id: Uuid) returns (answer: Option<Entity>)
      modifies this
      ensures answer ==
        if id in old(byId) then Some(old(byId)[id]) else if id in table && table[id].live then Some(table[id]) else None
      ensures id in old(byId) || answer.None? ==> View() == old(View())
      ensures id !in old(byId) && answer.Some? ==>
        byId == old(byId)[id := answer.value] && Indexes(old(extIndex), extIndex, id, answer.value)
      ensures (View(), answer) == GotById(old(View()), table, id)
    {
      if id in byId {
        return Some(byId[id]);
      }
      answer := FindLiveById(table, id);
      if answer.Some? {
        Insert(id, answer.value);
      }
    }

    method GetByKey(table: Table, key: Key) returns (answer: Option<Entity>)
      requires UniqueKeys(table)
      modifies this
      ensures old(Cached(View(), key)) ==> answer == Some(old(byId[extIndex[key]])) && View() == old(View())
      ensures !old(Cached(View(), key)) && answer.None? ==> View() == old(View()) && forall id :: !LiveUnder(table, key, id)
      ensures !old(Cached(View(), key)) && answer.Some? ==>
        exists id :: LiveUnder(table, key, id) && answer == Some(table[id])
          && byId == old(byId)[id := table[id]] && Indexes(old(extIndex), extIndex, id, table[id])
      ensures (View(), answer) == GotByKey(old(View()), table, key)
    {
      if key in extIndex && extIndex[key] in byId {
        return Some(byId[extIndex[key]]);
      }
      var id := QueryLive(table, key);
      if id.None? {
        return None;
      }
      Insert(id.value, table[id.value]);
      return Some(table[id.value]);
    }

    // `remove` from the primary store, `retain` over the secondary index.
    method Invalidate(id: Uuid)
      modifies this
      ensures byId == old(byId) - {id}
      ensures forall k :: k in extIndex <==> k in old(extIndex) && old(extIndex)[k] != id
      ensures forall k :: k in extIndex ==> extIndex[k] == old(extIndex)[k]
      ensures View() == Evicted(old(View()), id)
    {
      byId := map k | k in byId && k != id :: byId[k];
      var kept := Retain(extIndex, id);
      extIndex := kept;
    }
  }

  method Retain(index: map<Key, Uuid>, id: Uuid) returns (kept: map<Key, Uuid>)
    ensures kept == map k | k in index && index[k] != id :: index[k]
  {
    kept := map[];
    var todo := index.Keys;
    while todo != {}
      invariant todo <= index.Keys
      invariant forall k :: k in kept <==> k in index && k !in todo && index[k] != id
      invariant forall k :: k in kept ==> kept[k] == index[k]
      decreases todo
    {
      var k :| k in todo;
      if index[k] != id {
        kept := kept[k := index[k]];
      }
      todo := todo - {k};
    }
  }

  method QueryLive(table: Table, key: Key) returns (found: Option<Uuid>)
    requires UniqueKeys(table)
    ensures found == FindLive(table, key)
  {
    found := None;
    var todo := table.Keys;
    while todo != {}
      invariant todo <= table.Keys
      invariant found.Some? ==> LiveUnder(table, key, found.value)
      invariant found.None? ==> forall id :: id in table && id !in todo ==> !LiveUnder(table, key, id)
      decreases todo
    {
      var id :| id in todo;
      if table[id].live && table[id].key == Some(key) {
        found := Some(id);
      }
      todo := todo - {id};
    }
  }

  // ── The invalidation listener ───────────────────────────────────────

  // A payload of the invalidation topic after parsing: entity type and id.
  datatype Invalidation = ChannelPayload(id: Uuid) | ClientPayload(id: Uuid) | OtherPayload

  ghost function EvictedByAll(c: Maps, payloads: seq<Invalidation>, channels: bool): Maps {
    if payloads == [] then c
    else
      var before := EvictedByAll(c, payloads[..|payloads| - 1], channels);
      match payloads[|payloads| - 1]
      case ChannelPayload(id) => if channels then Evicted(before, id) else before
      case ClientPayload(id) => if channels then before else Evicted(before, id)
      case OtherPayload => before
  }

  method ListenForInvalidations(payloads: seq<Invalidation>, channels: DualKeyedCache, clients: DualKeyedCache)
    requires channels != clients
    modifies channels, clients
    ensures channels.View() == EvictedByAll(old(channels.View()), payloads, true)
    ensures clients.View() == EvictedByAll(old(clients.View()), payloads, false)
  {
    for i := 0 to |payloads|
      invariant channels.View() == EvictedByAll(old(channels.View()), payloads[..i], true)
      invariant clients.View() == EvictedByAll(old(clients.View()), payloads[..i], false)
    {
      assert payloads[..i + 1][..i] == payloads[..i];
      match payloads[i] {
        case ChannelPayload(id) => channels.Invalidate(id);
        case ClientPayload(id) => clients.Invalidate(id);
        case OtherPayload =>
      }
    }
    assert payloads[..|payloads|] == payloads;
  }

  // The payload evicts this entity from the cache of channels, or from that of clients.
  predicate Names(payload: Invalidation, channels: bool, id: Uuid) {
    match payload
    case ChannelPayload(named) => channels && named == id
    case ClientPayload(named) => !channels && named == id
    case OtherPayload => false
  }

  ghost predicate NamedIn(payloads: seq<Invalidation>, channels: bool, id: Uuid) {
    exists i :: 0 <= i < |payloads| && Names(payloads[i], channels, id)
  }

  lemma NamedInGrows(payloads: seq<Invalidation>, channels: bool, id: Uuid)
    requires payloads != []
    ensures
      var init, last := payloads[..|payloads| - 1], payloads[|payloads| - 1];
      NamedIn(payloads, channels, id) <==> NamedIn(init, channels, id) || Names(last, channels, id)
  {
    var init := payloads[..|payloads| - 1];
    if i :| 0 <= i < |init| && Names(init[i], channels, id) {
      assert Names(payloads[i], channels, id);
    }
  }

  // The cache without every entity the payloads name for it.
  ghost function Without(c: Maps, payloads: seq<Invalidation>, channels: bool): Maps {
    Maps(map id | id in c.byId && !NamedIn(payloads, channels, id) :: c.byId[id],
         map k | k in c.extIndex && !NamedIn(payloads, channels, c.extIndex[k]) :: c.extIndex[k])
  }

  /** After the listener has run through a list of payloads, with no lookup in between, each
      cache holds exactly what it held before, less the entities the payloads name for it. */
  lemma {:induction false} ListenerEvicts(c: Maps, payloads: seq<Invalidation>, channels: bool)
    ensures EvictedByAll(c, payloads, channels) == Without(c, payloads, channels)
    decreases |payloads|
  {
    if payloads != [] {
      ListenerEvicts(c, payloads[..|payloads| - 1], channels);
      forall id ensures NamedIn(payloads, channels, id)
        <==> NamedIn(payloads[..|payloads| - 1], channels, id) || Names(payloads[|payloads| - 1], channels, id)
      {
        NamedInGrows(payloads, channels, id);
      }
      hide NamedIn;
    }
  }
}
