/**
 Any number of replicas, one database table and one invalidation queue per replica, with
 each lock of the caches taken on its own.

 A channel handler commits its row, evicts the row from its own replica and publishes the
 row's id (src/handler/channels.rs, src/handler/oauth.rs, src/refresh.rs). Redis delivers
 each publication to every replica's queue in order. A lookup misses, then reads the
 database, then writes the store, then the index; an eviction clears the store, then the
 index; anything may happen in between. A hit is one moment: a lookup by key still holds
 the index's lock when it reads the store (src/cache.rs:77-81).
 */
module CacheCoherence {
  import opened Wrappers
  import opened ExternalId
  import opened Model
  import opened Cache

  datatype Replica = Replica(cache: Maps, queue: seq<Uuid>)

  // An operation on a replica's cache between two of its locks.
  datatype Op =
    | MissedId(r: nat, id: Uuid)                         // not cached, database not read
    | MissedKey(r: nat, key: Key)
    | Lookup(r: nat, id: Uuid, e: Entity, stored: bool)  // the row it read, and whether the store has it
    | Eviction(r: nat, id: Uuid, delivery: bool)         // the index is still to be cleared

  datatype State = State(
    table: Table,
    replicas: map<nat, Replica>,
    owed: multiset<Uuid>,        // committed by a handler that has not published yet
    ops: map<nat, Op>)

  datatype Step =
    | Create(id: Uuid, e: Entity)
    | Commit(id: Uuid, e: Entity)
    | HardDelete(id: Uuid)
    | Publish(id: Uuid)
    | LookUpId(k: nat, r: nat, id: Uuid)
    | LookUpKey(k: nat, r: nat, key: Key)
    | EvictLocally(k: nat, r: nat, id: Uuid)
    | Deliver(k: nat, r: nat)
    | Continue(k: nat)

  // The listener handles one payload at a time.
  predicate Delivering(ops: map<nat, Op>, r: nat) {
    exists k :: k in ops && ops[k].Eviction? && ops[k].delivery && ops[k].r == r
  }

  ghost predicate Enabled(s: State, step: Step) {
    match step
    case Create(id, e) => id !in s.table && UniqueKeys(s.table[id := e])
    case Commit(id, e) => id in s.table && UniqueKeys(s.table[id := e])
    case HardDelete(id) => true
    case Publish(id) => id in s.owed
    case LookUpId(k, r, _) => k !in s.ops && r in s.replicas
    case LookUpKey(k, r, _) => k !in s.ops && r in s.replicas
    case EvictLocally(k, r, _) => k !in s.ops && r in s.replicas
    case Deliver(k, r) => k !in s.ops && r in s.replicas && s.replicas[r].queue != [] && !Delivering(s.ops, r)
    case Continue(k) => k in s.ops && s.ops[k].r in s.replicas
  }

  // ── The halves of an insert and of an eviction ──────────────────────

  function Stored(c: Maps, id: Uuid, e: Entity): Maps {
    c.(byId := c.byId[id := e])
  }

  function Indexed(c: Maps, id: Uuid, e: Entity): Maps {
    if e.key.Some? then c.(extIndex := c.extIndex[e.key.value := id]) else c
  }

  function Unstored(c: Maps, id: Uuid): Maps {
    c.(byId := c.byId - {id})
  }

  function Unindexed(c: Maps, id: Uuid): Maps {
    c.(extIndex := map k | k in c.extIndex && c.extIndex[k] != id :: c.extIndex[k])
  }

  /** The halves in sequence are the insert and the eviction of the caches. */
  lemma HalvesMakeWholes(c: Maps, id: Uuid, e: Entity)
    ensures Indexed(Stored(c, id, e), id, e) == Inserted(c, id, e)
    ensures Unindexed(Unstored(c, id), id) == Evicted(c, id)
  {
  }

  function Enqueue(replicas: map<nat, Replica>, id: Uuid): map<nat, Replica> {
    map r | r in replicas :: replicas[r].(queue := replicas[r].queue + [id])
  }

  function SetCache(s: State, r: nat, cache: Maps): State
    requires r in s.replicas
  {
    s.(replicas := s.replicas[r := s.replicas[r].(cache := cache)])
  }

  function Start(s: State, k: nat, op: Op): State {
    s.(ops := s.ops[k := op])
  }

  function StartEviction(s: State, k: nat, r: nat, id: Uuid, delivery: bool): State
    requires r in s.replicas
  {
    Start(SetCache(s, r, Unstored(s.replicas[r].cache, id)), k, Eviction(r, id, delivery))
  }

  function Popped(queue: seq<Uuid>): seq<Uuid> {
    if queue == [] then [] else queue[1..]
  }

  // A delivery leaves the queue when it is done.
  function Continued(replica: Replica, op: Op): Replica {
    match op
    case Lookup(_, id, e, stored) =>
      replica.(cache := if stored then Indexed(replica.cache, id, e) else Stored(replica.cache, id, e))
    case Eviction(_, id, delivery) =>
      Replica(Unindexed(replica.cache, id), if delivery then Popped(replica.queue) else replica.queue)
    case _ => replica
  }

  function ReadRow(r: nat, id: Uuid, found: Option<Entity>): Option<Op> {
    if found.Some? then Some(Lookup(r, id, found.value, false)) else None
  }

  // What is left of an operation: a miss reads the database, a row read is stored, then indexed.
  ghost function Rest(table: Table, op: Op): Option<Op> {
    match op
    case MissedId(r, id) => ReadRow(r, id, FindLiveById(table, id))
    case MissedKey(r, key) =>
      var found := FindLive(table, key);
      if found.Some? then ReadRow(r, found.value, FindLiveById(table, found.value)) else None
    case Lookup(r, id, e, stored) => if stored then None else Some(Lookup(r, id, e, true))
    case Eviction(_, _, _) => None
  }

  ghost function Apply(s: State, step: Step): State
    requires Enabled(s, step)
  {
    match step
    case Create(id, e) => s.(table := s.table[id := e])
    case Commit(id, e) => s.(table := s.table[id := e], owed := s.owed + multiset{id})
    case HardDelete(id) => s.(table := s.table - {id})
    case Publish(id) => s.(replicas := Enqueue(s.replicas, id), owed := s.owed - multiset{id})
    case LookUpId(k, r, id) => if id in s.replicas[r].cache.byId then s else Start(s, k, MissedId(r, id))
    case LookUpKey(k, r, key) => if Cached(s.replicas[r].cache, key) then s else Start(s, k, MissedKey(r, key))
    case EvictLocally(k, r, id) => StartEviction(s, k, r, id, false)
    case Deliver(k, r) => StartEviction(s, k, r, s.replicas[r].queue[0], true)
    case Continue(k) =>
      var op, rest := s.ops[k], Rest(s.table, s.ops[k]);
      s.(replicas := s.replicas[op.r := Continued(s.replicas[op.r], op)],
         ops := if rest.Some? then s.ops[k := rest.value] else s.ops - {k})
  }

  // A lookup that is not interrupted, from its start to its end.
  ghost function Looked(s: State, step: Step, k: nat): State
    requires Enabled(s, step) && (step.LookUpId? || step.LookUpKey?)
  {
    Finished(Apply(s, step), k, 3)
  }

  ghost function Finished(s: State, k: nat, n: nat): State
    decreases n
  {
    if n == 0 || !Enabled(s, Continue(k)) then s else Finished(Apply(s, Continue(k)), k, n - 1)
  }

  // The read of a row, its store and its index, one after the other, are an insert.
  lemma MissEnds(s: State, k: nat, op: Op, id: Uuid)
    requires k !in s.ops && op.r in s.replicas && (op.MissedId? || op.MissedKey?)
    requires Rest(s.table, op) == ReadRow(op.r, id, FindLiveById(s.table, id))
    ensures Finished(Start(s, k, op), k, 3) ==
      if FindLiveById(s.table, id).Some? then SetCache(s, op.r, Inserted(s.replicas[op.r].cache, id, s.table[id])) else s
  {
    var begun := Start(s, k, op);
    var read := Apply(begun, Continue(k));
    if FindLiveById(s.table, id).Some? {
      var e := s.table[id];
      RowIsInserted(s, k, op.r, id, e);
      assert read == Start(s, k, Lookup(op.r, id, e, false));
    } else {
      assert read == s;
    }
    hide Inserted, FindLiveById;
  }

  lemma RowIsInserted(s: State, k: nat, r: nat, id: Uuid, e: Entity)
    requires k !in s.ops && r in s.replicas
    ensures Finished(Start(s, k, Lookup(r, id, e, false)), k, 2) == SetCache(s, r, Inserted(s.replicas[r].cache, id, e))
  {
    var stored := SetCache(s, r, Stored(s.replicas[r].cache, id, e));
    RowIsStored(s, k, r, id, e);
    RowIsIndexed(stored, k, r, id, e);
    HalvesMakeWholes(s.replicas[r].cache, id, e);
    assert SetCache(stored, r, Inserted(s.replicas[r].cache, id, e)) == SetCache(s, r, Inserted(s.replicas[r].cache, id, e));
    hide Apply, Stored, Indexed, Inserted;
  }

  lemma RowIsStored(s: State, k: nat, r: nat, id: Uuid, e: Entity)
    requires k !in s.ops && r in s.replicas
    ensures
      var read := Start(s, k, Lookup(r, id, e, false));
      && Enabled(read, Continue(k))
      && Apply(read, Continue(k)) == Start(SetCache(s, r, Stored(s.replicas[r].cache, id, e)), k, Lookup(r, id, e, true))
  {
    hide Stored, Indexed;
  }

  lemma RowIsIndexed(s: State, k: nat, r: nat, id: Uuid, e: Entity)
    requires k !in s.ops && r in s.replicas
    ensures
      var kept := Start(s, k, Lookup(r, id, e, true));
      && Enabled(kept, Continue(k))
      && Apply(kept, Continue(k)) == SetCache(s, r, Indexed(s.replicas[r].cache, id, e))
  {
    hide Stored, Indexed;
  }

  lemma MissByKeyEnds(s: State, k: nat, r: nat, key: Key)
    requires k !in s.ops && r in s.replicas
    ensures Finished(Start(s, k, MissedKey(r, key)), k, 3) ==
      match FindLive(s.table, key)
      case None => s
      case Some(id) => SetCache(s, r, Inserted(s.replicas[r].cache, id, s.table[id]))
  {
    var found := FindLive(s.table, key);
    if found.Some? {
      MissEnds(s, k, MissedKey(r, key), found.value);
    } else {
      assert Apply(Start(s, k, MissedKey(r, key)), Continue(k)) == s;
    }
  }

  /** A lookup that is not interrupted ends as the one of `DualKeyedCache` does, in the maps that
      leaves and with its answer; without an interruption the locks do not matter. */
  lemma WholeLookupsAreLookups(s: State, k: nat, r: nat, id: Uuid, key: Key)
    requires k !in s.ops && r in s.replicas
    ensures Looked(s, LookUpId(k, r, id), k) == SetCache(s, r, GotById(s.replicas[r].cache, s.table, id).0)
    ensures Looked(s, LookUpKey(k, r, key), k) == SetCache(s, r, GotByKey(s.replicas[r].cache, s.table, key).0)
  {
    var c := s.replicas[r].cache;
    assert SetCache(s, r, c) == s;
    MissEnds(s, k, MissedId(r, id), id);
    MissByKeyEnds(s, k, r, key);
    hide Inserted, FindLive, Rest;
  }

  /** So does an eviction, and a delivery takes its payload from the queue. */
  lemma WholeEvictionsAreEvictions(s: State, k: nat, r: nat, id: Uuid)
    requires k !in s.ops && r in s.replicas
    ensures
      var begun := Apply(s, EvictLocally(k, r, id));
      && Enabled(begun, Continue(k))
      && Apply(begun, Continue(k)) == SetCache(s, r, Evicted(s.replicas[r].cache, id))
    ensures Enabled(s, Deliver(k, r)) ==>
      var replica, begun := s.replicas[r], Apply(s, Deliver(k, r));
      && Enabled(begun, Continue(k))
      && Apply(begun, Continue(k)) ==
           s.(replicas := s.replicas[r := Replica(Evicted(replica.cache, replica.queue[0]), replica.queue[1..])])
  {
    EvictionIsWhole(s, k, r, id, false);
    if Enabled(s, Deliver(k, r)) {
      EvictionIsWhole(s, k, r, s.replicas[r].queue[0], true);
    }
    hide Evicted, StartEviction, Continued, Rest;
  }

  lemma EvictionIsWhole(s: State, k: nat, r: nat, id: Uuid, delivery: bool)
    requires k !in s.ops && r in s.replicas
    ensures
      var begun, queue := StartEviction(s, k, r, id, delivery), s.replicas[r].queue;
      && Enabled(begun, Continue(k))
      && Apply(begun, Continue(k)) ==
           s.(replicas := s.replicas[r := Replica(Evicted(s.replicas[r].cache, id), if delivery then Popped(queue) else queue)])
  {
    HalvesMakeWholes(s.replicas[r].cache, id, Entity(None, "", true));
    hide Evicted, Unstored, Unindexed, Popped;
    var begun := StartEviction(s, k, r, id, delivery);
    assert begun.ops - {k} == s.ops;
  }

  // ── Coherence ───────────────────────────────────────────────────────

  // An invalidation for `id` is still on its way to this replica.
  predicate Pending(queue: seq<Uuid>, owed: multiset<Uuid>, id: Uuid) {
    id in queue || id in owed
  }

  predicate Current(c: Maps, table: Table, id: Uuid)
    requires id in c.byId
  {
    FindLiveById(table, id) == Some(c.byId[id])
  }

  // Whatever the store and the index answer is the live row, or an invalidation is coming.
  ghost predicate ReplicaCoherent(replica: Replica, table: Table, owed: multiset<Uuid>) {
    var c := replica.cache;
    && (forall id :: id in c.byId ==> Pending(replica.queue, owed, id) || Current(c, table, id))
    && (forall k :: Cached(c, k) ==> Pending(replica.queue, owed, c.extIndex[k]) || c.byId[c.extIndex[k]].key == Some(k))
  }

  ghost predicate Coherent(s: State) {
    forall r :: r in s.replicas ==> ReplicaCoherent(s.replicas[r], s.table, s.owed)
  }

  // ── Exactly which steps keep it ─────────────────────────────────────

  // The index names `id` only under the row's own key.
  ghost predicate IndexAgrees(c: Maps, id: Uuid, e: Entity) {
    forall k :: k in c.extIndex && c.extIndex[k] == id ==> e.key == Some(k)
  }

  // What a caller could check before the step, on the replica it is about.
  ghost predicate HarmlessOp(replica: Replica, table: Table, owed: multiset<Uuid>, op: Op) {
    var c := replica.cache;
    match op
    case Lookup(_, id, e, false) =>
      // The row that was read is still the live one.
      Pending(replica.queue, owed, id) || (FindLiveById(table, id) == Some(e) && IndexAgrees(c, id, e))
    case Lookup(_, id, e, true) =>
      // The store still holds it, or holds nothing.
      Pending(replica.queue, owed, id) || e.key.None? || (id in c.byId ==> c.byId[id].key == e.key)
    case Eviction(_, id, delivery) =>
      // Nothing stale was stored behind the eviction's back.
      delivery ==> Pending(Popped(replica.queue), owed, id) || (id in c.byId ==> Current(c, table, id))
    case _ => true
  }

  ghost predicate Harmless(s: State, step: Step)
    requires Enabled(s, step)
  {
    match step
    case HardDelete(id) =>
      forall r :: r in s.replicas && id in s.replicas[r].cache.byId ==> Pending(s.replicas[r].queue, s.owed, id)
    case Continue(k) => HarmlessOp(s.replicas[s.ops[k].r], s.table, s.owed, s.ops[k])
    case _ => true
  }

  // A delivery works on the head of its queue, one at a time.
  predicate AtHead(s: State, op: Op) {
    op.Eviction? && op.delivery ==> op.r in s.replicas && s.replicas[op.r].queue != [] && s.replicas[op.r].queue[0] == op.id
  }

  predicate SameDelivery(a: Op, b: Op) {
    a.Eviction? && b.Eviction? && a.delivery && b.delivery && a.r == b.r
  }

  ghost predicate OneDelivery(s: State) {
    && (forall k :: k in s.ops ==> AtHead(s, s.ops[k]))
    && (forall j, k :: j in s.ops && k in s.ops && SameDelivery(s.ops[j], s.ops[k]) ==> j == k)
  }

  // ── One replica ─────────────────────────────────────────────────────

  lemma StoreKeepsExactly(replica: Replica, table: Table, owed: multiset<Uuid>, r: nat, id: Uuid, e: Entity)
    requires ReplicaCoherent(replica, table, owed)
    ensures ReplicaCoherent(Continued(replica, Lookup(r, id, e, false)), table, owed)
      <==> HarmlessOp(replica, table, owed, Lookup(r, id, e, false))
  {
    var next := Continued(replica, Lookup(r, id, e, false));
    assert next.cache.byId[id] == e;
    assert forall k :: k in replica.cache.extIndex && replica.cache.extIndex[k] == id ==> Cached(next.cache, k);
    assert forall k :: Cached(next.cache, k) && next.cache.extIndex[k] != id ==> Cached(replica.cache, k);
  }

  lemma IndexKeepsExactly(replica: Replica, table: Table, owed: multiset<Uuid>, r: nat, id: Uuid, e: Entity)
    requires ReplicaCoherent(replica, table, owed)
    ensures ReplicaCoherent(Continued(replica, Lookup(r, id, e, true)), table, owed)
      <==> HarmlessOp(replica, table, owed, Lookup(r, id, e, true))
  {
    var next := Continued(replica, Lookup(r, id, e, true));
    assert forall k :: Cached(next.cache, k) && Some(k) != e.key ==> Cached(replica.cache, k);
    assert e.key.Some? && id in next.cache.byId ==> Cached(next.cache, e.key.value);
  }

  lemma EvictionKeepsExactly(replica: Replica, table: Table, owed: multiset<Uuid>, op: Op)
    requires ReplicaCoherent(replica, table, owed) && op.Eviction?
    requires op.delivery ==> replica.queue != [] && replica.queue[0] == op.id
    ensures ReplicaCoherent(Continued(replica, op), table, owed) <==> HarmlessOp(replica, table, owed, op)
  {
    var next := Continued(replica, op);
    assert forall id :: id in replica.queue && id != op.id ==> id in next.queue;
    assert forall k :: Cached(next.cache, k) ==> Cached(replica.cache, k) && next.cache.extIndex[k] != op.id;
  }

  lemma UnstoredKeeps(replica: Replica, table: Table, owed: multiset<Uuid>, id: Uuid)
    requires ReplicaCoherent(replica, table, owed)
    ensures ReplicaCoherent(replica.(cache := Unstored(replica.cache, id)), table, owed)
  {
    var next := Unstored(replica.cache, id);
    assert forall k :: Cached(next, k) ==> Cached(replica.cache, k);
  }

  lemma CommitKeeps(replica: Replica, table: Table, owed: multiset<Uuid>, id: Uuid, e: Entity)
    requires ReplicaCoherent(replica, table, owed)
    ensures ReplicaCoherent(replica, table[id := e], owed + multiset{id})
  {
  }

  lemma CreateKeeps(replica: Replica, table: Table, owed: multiset<Uuid>, id: Uuid, e: Entity)
    requires ReplicaCoherent(replica, table, owed) && id !in table
    ensures ReplicaCoherent(replica, table[id := e], owed)
  {
  }

  lemma PublishKeeps(replica: Replica, table: Table, owed: multiset<Uuid>, id: Uuid)
    requires ReplicaCoherent(replica, table, owed) && id in owed
    ensures ReplicaCoherent(replica.(queue := replica.queue + [id]), table, owed - multiset{id})
  {
    assert forall k :: k in owed ==> k == id || k in owed - multiset{id};
  }

  lemma DeleteKeepsExactly(replica: Replica, table: Table, owed: multiset<Uuid>, id: Uuid)
    requires ReplicaCoherent(replica, table, owed)
    ensures ReplicaCoherent(replica, table - {id}, owed) <==> (id in replica.cache.byId ==> Pending(replica.queue, owed, id))
  {
  }

  // ── One step ────────────────────────────────────────────────────────

  ghost predicate CoherentAt(s: State, r: nat)
    requires r in s.replicas
  {
    ReplicaCoherent(s.replicas[r], s.table, s.owed)
  }

  lemma ContinueKeepsExactly(s: State, k: nat)
    requires Coherent(s) && OneDelivery(s) && Enabled(s, Continue(k))
    ensures Coherent(Apply(s, Continue(k))) <==> Harmless(s, Continue(k))
  {
    var op, next := s.ops[k], Apply(s, Continue(k));
    var replica := s.replicas[op.r];
    assert CoherentAt(s, op.r) && AtHead(s, op);
    match op {
      case Lookup(r, id, e, stored) =>
        if stored { IndexKeepsExactly(replica, s.table, s.owed, r, id, e); } else { StoreKeepsExactly(replica, s.table, s.owed, r, id, e); }
      case Eviction(_, _, _) => EvictionKeepsExactly(replica, s.table, s.owed, op);
      case MissedId(_, _) =>
      case MissedKey(_, _) =>
    }
    assert ReplicaCoherent(Continued(replica, op), s.table, s.owed) <==> HarmlessOp(replica, s.table, s.owed, op);
    hide ReplicaCoherent, HarmlessOp, Continued, Rest;
    assert next.replicas[op.r] == Continued(replica, op);
  }

  lemma HardDeleteKeepsExactly(s: State, id: Uuid)
    requires Coherent(s)
    ensures Coherent(Apply(s, HardDelete(id))) <==> Harmless(s, HardDelete(id))
  {
    forall r | r in s.replicas
      ensures ReplicaCoherent(s.replicas[r], s.table - {id}, s.owed) <==>
        (id in s.replicas[r].cache.byId ==> Pending(s.replicas[r].queue, s.owed, id))
    {
      DeleteKeepsExactly(s.replicas[r], s.table, s.owed, id);
    }
    hide ReplicaCoherent;
  }

  lemma OthersKeep(s: State, step: Step)
    requires Coherent(s) && Enabled(s, step) && !step.Continue? && !step.HardDelete?
    ensures Coherent(Apply(s, step))
  {
    var next := Apply(s, step);
    forall r | r in next.replicas ensures CoherentAt(next, r) {
      var replica := s.replicas[r];
      assert CoherentAt(s, r);
      match step {
        case Create(id, e) => CreateKeeps(replica, s.table, s.owed, id, e);
        case Commit(id, e) => CommitKeeps(replica, s.table, s.owed, id, e);
        case Publish(id) => PublishKeeps(replica, s.table, s.owed, id);
        case EvictLocally(_, at, id) => UnstoredKeeps(replica, s.table, s.owed, id);
        case Deliver(_, at) => if at == r { UnstoredKeeps(replica, s.table, s.owed, replica.queue[0]); }
        case LookUpId(_, _, _) =>
        case LookUpKey(_, _, _) =>
      }
      hide ReplicaCoherent;
    }
  }

  /** A step keeps the caches coherent exactly when it is harmless: a lookup stores a row that
      is still live, indexes a row the store still holds, a delivery ends with nothing stale
      stored meanwhile, a rollback deletes a row no replica has cached; or else an
      invalidation for the row is under way. Every other step always keeps them. */
  lemma StepKeepsExactly(s: State, step: Step)
    requires Coherent(s) && OneDelivery(s) && Enabled(s, step)
    ensures Coherent(Apply(s, step)) <==> Harmless(s, step)
  {
    match step {
      case Continue(k) => ContinueKeepsExactly(s, k);
      case HardDelete(id) => HardDeleteKeepsExactly(s, id);
      case _ => OthersKeep(s, step);
    }
    hide Coherent, Apply, HarmlessOp, OneDelivery;
  }

  lemma StepKeepsKeys(s: State, step: Step)
    requires UniqueKeys(s.table) && Enabled(s, step)
    ensures UniqueKeys(Apply(s, step).table)
  {
  }

  lemma StepKeepsOneDelivery(s: State, step: Step)
    requires OneDelivery(s) && Enabled(s, step)
    ensures OneDelivery(Apply(s, step))
  {
  }

  // ── Runs ────────────────────────────────────────────────────────────

  datatype Run = Run(states: seq<State>, steps: seq<Step>)

  // Replicas start empty; the table may hold rows already.
  ghost predicate Starts(s: State) {
    && UniqueKeys(s.table) && s.owed == multiset{} && s.ops == map[]
    && forall r :: r in s.replicas ==> s.replicas[r] == Replica(EMPTY, [])
  }

  ghost predicate Follows(s: State, step: Step, next: State) {
    Enabled(s, step) && next == Apply(s, step)
  }

  ghost predicate IsRun(run: Run) {
    && |run.states| == |run.steps| + 1 && Starts(run.states[0])
    && forall i :: 0 <= i < |run.steps| ==> Follows(run.states[i], run.steps[i], run.states[i + 1])
  }

  ghost predicate HarmlessAt(run: Run, i: nat) {
    i < |run.steps| && i < |run.states| && Enabled(run.states[i], run.steps[i]) && Harmless(run.states[i], run.steps[i])
  }

  lemma StartsCoherent(s: State)
    requires Starts(s)
    ensures Coherent(s) && UniqueKeys(s.table) && OneDelivery(s)
  {
  }

  lemma {:induction false} RunIsOrderly(run: Run, i: nat)
    requires IsRun(run) && i < |run.states|
    ensures UniqueKeys(run.states[i].table) && OneDelivery(run.states[i])
  {
    hide Starts, Apply, Enabled, UniqueKeys, OneDelivery;
    if i == 0 {
      StartsCoherent(run.states[0]);
    } else {
      RunIsOrderly(run, i - 1);
      assert Follows(run.states[i - 1], run.steps[i - 1], run.states[i]);
      StepKeepsKeys(run.states[i - 1], run.steps[i - 1]);
      StepKeepsOneDelivery(run.states[i - 1], run.steps[i - 1]);
    }
  }

  /** A run is coherent throughout exactly when each of its steps is harmless. */
  lemma {:induction false} CoherentExactlyWhenHarmless(run: Run, n: nat)
    requires IsRun(run) && n < |run.states|
    ensures (forall i :: 0 <= i <= n ==> Coherent(run.states[i])) <==> (forall i :: 0 <= i < n ==> HarmlessAt(run, i))
  {
    hide Starts, Apply, Enabled, Coherent, Harmless, OneDelivery;
    if n == 0 {
      StartsCoherent(run.states[0]);
    } else {
      CoherentExactlyWhenHarmless(run, n - 1);
      RunIsOrderly(run, n - 1);
      assert Follows(run.states[n - 1], run.steps[n - 1], run.states[n]);
      if Coherent(run.states[n - 1]) {
        StepKeepsExactly(run.states[n - 1], run.steps[n - 1]);
        assert HarmlessAt(run, n - 1) <==> Coherent(run.states[n]);
      }
    }
  }

  /** After harmless steps a lookup by id answers with the live database row, or with nothing
      when there is none, unless an invalidation for that channel is queued at this replica or
      still owed. */
  lemma AnswersById(run: Run, i: nat, r: nat, id: Uuid)
    requires IsRun(run) && i < |run.states| && r in run.states[i].replicas
    requires forall j :: 0 <= j < i ==> HarmlessAt(run, j)
    requires !Pending(run.states[i].replicas[r].queue, run.states[i].owed, id)
    ensures GotById(run.states[i].replicas[r].cache, run.states[i].table, id).1 == FindLiveById(run.states[i].table, id)
  {
    CoherentExactlyWhenHarmless(run, i);
    assert CoherentAt(run.states[i], r);
  }

  /** The same for a lookup by the provider's key, with the channel that answers. Without one
      the database has no live row under the key either. */
  lemma AnswersByKey(run: Run, i: nat, r: nat, key: Key)
    requires IsRun(run) && i < |run.states| && r in run.states[i].replicas
    requires forall j :: 0 <= j < i ==> HarmlessAt(run, j)
    ensures
      var s, c := run.states[i], run.states[i].replicas[r].cache;
      var answer := GotByKey(c, s.table, key).1;
      match Answering(c, s.table, key)
      case None => answer.None? && forall id :: !LiveUnder(s.table, key, id)
      case Some(id) =>
        Pending(s.replicas[r].queue, s.owed, id)
        || (FindLive(s.table, key) == Some(id) && answer == FindLiveById(s.table, id))
  {
    CoherentExactlyWhenHarmless(run, i);
    RunIsOrderly(run, i);
    assert CoherentAt(run.states[i], r);
    var s, c := run.states[i], run.states[i].replicas[r].cache;
    if Cached(c, key) && !Pending(s.replicas[r].queue, s.owed, c.extIndex[key]) {
      assert Current(c, s.table, c.extIndex[key]);
      assert LiveUnder(s.table, key, c.extIndex[key]);
    }
  }

  // ── Undisturbed operations ──────────────────────────────────────────

  // No lookup or eviction is interrupted between its locks.
  ghost predicate Whole(run: Run)
    requires |run.states| == |run.steps| + 1
  {
    forall i :: 0 <= i < |run.steps| && run.states[i].ops != map[] ==> run.steps[i].Continue?
  }

  predicate Undisturbed(s: State, op: Op) {
    && op.r in s.replicas
    && var c := s.replicas[op.r].cache;
       match op
       case Lookup(_, id, e, false) => FindLiveById(s.table, id) == Some(e)
       case Lookup(_, id, e, true) => id in c.byId && c.byId[id] == e
       case Eviction(_, id, _) => id !in c.byId
       case _ => true
  }

  // The index names cached rows, the one being evicted aside.
  ghost predicate Backed(s: State, r: nat)
    requires r in s.replicas
  {
    var c := s.replicas[r].cache;
    forall k :: k in c.extIndex ==> c.extIndex[k] in c.byId || exists j :: j in s.ops && s.ops[j].Eviction? && s.ops[j].r == r && s.ops[j].id == c.extIndex[k]
  }

  ghost predicate Calm(s: State) {
    && (forall j, k :: j in s.ops && k in s.ops ==> j == k)
    && (forall k :: k in s.ops ==> Undisturbed(s, s.ops[k]))
    && (forall r :: r in s.replicas ==> Backed(s, r))
  }

  lemma CalmIsHarmless(s: State, k: nat)
    requires Coherent(s) && Calm(s) && Enabled(s, Continue(k))
    ensures Harmless(s, Continue(k))
  {
    var op := s.ops[k];
    assert CoherentAt(s, op.r) && Undisturbed(s, op) && Backed(s, op.r);
    var c := s.replicas[op.r].cache;
    if op.Lookup? {
      assert forall key :: key in c.extIndex && c.extIndex[key] == op.id ==> Cached(c, key);
    }
  }

  lemma ContinueKeepsCalm(s: State, k: nat)
    requires Calm(s) && Enabled(s, Continue(k))
    ensures Calm(Apply(s, Continue(k)))
  {
    var op, next := s.ops[k], Apply(s, Continue(k));
    assert Undisturbed(s, op) && forall j :: j in s.ops ==> j == k;
    forall r | r in next.replicas ensures Backed(next, r) {
      assert Backed(s, r);
    }
  }

  predicate StartsOp(step: Step) {
    step.LookUpId? || step.LookUpKey? || step.EvictLocally? || step.Deliver?
  }

  lemma EvictionStartsCalm(s: State, k: nat, r: nat, id: Uuid, delivery: bool)
    requires Calm(s) && s.ops == map[] && r in s.replicas
    ensures Calm(StartEviction(s, k, r, id, delivery))
  {
    var next := StartEviction(s, k, r, id, delivery);
    assert next.ops[k] == Eviction(r, id, delivery);
    forall at | at in next.replicas ensures Backed(next, at) {
      assert Backed(s, at);
    }
  }

  lemma MissStartsCalm(s: State, k: nat, op: Op)
    requires Calm(s) && s.ops == map[] && op.r in s.replicas && (op.MissedId? || op.MissedKey?)
    ensures Calm(Start(s, k, op))
  {
    var next := Start(s, k, op);
    forall at | at in next.replicas ensures Backed(next, at) {
      assert Backed(s, at);
    }
  }

  lemma HandlersKeepCalm(s: State, step: Step)
    requires Calm(s) && Enabled(s, step) && s.ops == map[] && !step.Continue? && !StartsOp(step)
    ensures Calm(Apply(s, step))
  {
    var next := Apply(s, step);
    forall r | r in next.replicas ensures Backed(next, r) {
      assert Backed(s, r);
    }
  }

  lemma StartKeepsCalm(s: State, step: Step)
    requires Calm(s) && Enabled(s, step) && s.ops == map[] && !step.Continue?
    ensures Calm(Apply(s, step))
  {
    match step {
      case LookUpId(k, r, id) => MissStartsCalm(s, k, MissedId(r, id));
      case LookUpKey(k, r, key) => MissStartsCalm(s, k, MissedKey(r, key));
      case EvictLocally(k, r, id) => EvictionStartsCalm(s, k, r, id, false);
      case Deliver(k, r) => EvictionStartsCalm(s, k, r, s.replicas[r].queue[0], true);
      case _ => HandlersKeepCalm(s, step);
    }
    hide Calm, StartEviction, Delivering, Cached;
  }

  lemma StartsCalm(s: State)
    requires Starts(s)
    ensures Calm(s)
  {
  }

  /** When no lookup or eviction is interrupted and each rollback is harmless, all steps are. */
  lemma {:induction false} WholeRunsAreHarmless(run: Run, n: nat)
    requires IsRun(run) && Whole(run) && n < |run.states|
    requires forall i :: 0 <= i < |run.steps| && run.steps[i].HardDelete? ==> HarmlessAt(run, i)
    ensures Calm(run.states[n]) && forall i :: 0 <= i < n ==> HarmlessAt(run, i)
  {
    hide Starts, Apply, Enabled, Coherent, Calm, OneDelivery;
    if n == 0 {
      StartsCalm(run.states[0]);
    } else {
      WholeRunsAreHarmless(run, n - 1);
      CoherentExactlyWhenHarmless(run, n - 1);
      var s, step := run.states[n - 1], run.steps[n - 1];
      assert Follows(s, step, run.states[n]);
      if step.Continue? {
        CalmIsHarmless(s, step.k);
        ContinueKeepsCalm(s, step.k);
      } else {
        StartKeepsCalm(s, step);
      }
      assert HarmlessAt(run, n - 1);
    }
  }

  // ── What breaks coherence ───────────────────────────────────────────

  const OLD_ROW := Entity(Some(Key(Telegram, "7")), "old token", true)
  const NEW_ROW := Entity(Some(Key(Telegram, "7")), "new token", true)
  const ALONE := State(map[], map[0 := Replica(EMPTY, [])], multiset{}, map[])

  // The replica answers with a row that is not the live one, and nothing is on its way.
  ghost predicate Stale(s: State, id: Uuid) {
    && 0 in s.replicas && !Pending(s.replicas[0].queue, s.owed, id)
    && GotById(s.replicas[0].cache, s.table, id).1 == Some(OLD_ROW)
    && FindLiveById(s.table, id) != Some(OLD_ROW)
  }

  // A lookup reads the row, a commit and its whole invalidation go by, the lookup stores it.
  function Torn(n: nat): (State, Step) {
    var before: Table := map[1 := OLD_ROW];
    var after: Table := map[1 := NEW_ROW];
    var idle: map<nat, Replica> := map[0 := Replica(EMPTY, [])];
    var told: map<nat, Replica> := map[0 := Replica(EMPTY, [1])];
    var stale: map<nat, Replica> := map[0 := Replica(Maps(map[1 := OLD_ROW], map[]), [])];
    var read: map<nat, Op> := map[0 := Lookup(0, 1, OLD_ROW, false)];
    var both: map<nat, Op> := map[0 := Lookup(0, 1, OLD_ROW, false), 1 := Eviction(0, 1, true)];
    var done: map<nat, Op> := map[0 := Lookup(0, 1, OLD_ROW, true)];
    var missed: map<nat, Op> := map[0 := MissedId(0, 1)];
    if n == 0 then (ALONE, Create(1, OLD_ROW))
    else if n == 1 then (State(before, idle, multiset{}, map[]), LookUpId(0, 0, 1))
    else if n == 2 then (State(before, idle, multiset{}, missed), Continue(0))
    else if n == 3 then (State(before, idle, multiset{}, read), Commit(1, NEW_ROW))
    else if n == 4 then (State(after, idle, multiset{1}, read), Publish(1))
    else if n == 5 then (State(after, told, multiset{}, read), Deliver(1, 0))
    else if n == 6 then (State(after, told, multiset{}, both), Continue(1))
    else if n == 7 then (State(after, idle, multiset{}, read), Continue(0))
    else (State(after, stale, multiset{}, done), Continue(0))
  }

  ghost predicate TornFollows(n: nat) {
    Follows(Torn(n).0, Torn(n).1, Torn(n + 1).0)
  }

  lemma TornMisses()
    ensures TornFollows(0) && TornFollows(1)
  {
  }

  lemma TornReads()
    ensures TornFollows(2) && TornFollows(3)
  {
  }

  lemma PublishIs(s: State, id: Uuid)
    requires Enabled(s, Publish(id))
    ensures Apply(s, Publish(id)) == s.(replicas := Enqueue(s.replicas, id), owed := s.owed - multiset{id})
  {
  }

  lemma DeliverIs(s: State, k: nat, r: nat)
    requires Enabled(s, Deliver(k, r))
    ensures Apply(s, Deliver(k, r)) == StartEviction(s, k, r, s.replicas[r].queue[0], true)
  {
  }

  lemma TornIsPublished()
    ensures TornFollows(4)
  {
    var none: seq<Uuid> := [];
    assert none + [1] == [1];
    PublishIs(Torn(4).0, 1);
    assert Enqueue(Torn(4).0.replicas, 1) == Torn(5).0.replicas;
    assert multiset{1} - multiset{1} == multiset{};
    hide Apply, Enqueue, UniqueKeys;
  }

  lemma TornIsDelivered()
    ensures TornFollows(5)
  {
    assert Unstored(EMPTY, 1) == EMPTY;
    assert !Delivering(Torn(5).0.ops, 0);
    DeliverIs(Torn(5).0, 1, 0);
    hide Apply, Delivering;
  }

  lemma EmptyStaysEmpty()
    ensures Continued(Replica(EMPTY, [1]), Eviction(0, 1, true)) == Replica(EMPTY, [])
  {
    assert Unindexed(EMPTY, 1) == EMPTY;
  }

  lemma EvictionEnds(s: State, k: nat)
    requires Enabled(s, Continue(k)) && s.ops[k].Eviction?
    ensures Apply(s, Continue(k)) ==
      s.(replicas := s.replicas[s.ops[k].r := Continued(s.replicas[s.ops[k].r], s.ops[k])], ops := s.ops - {k})
  {
    hide Continued;
  }

  lemma TornIsEvicted()
    ensures TornFollows(6)
  {
    EmptyStaysEmpty();
    EvictionEnds(Torn(6).0, 1);
    hide Continued, Apply;
    assert Torn(6).0.ops - {1} == Torn(7).0.ops;
    assert Torn(6).0.replicas[0 := Replica(EMPTY, [])] == Torn(7).0.replicas;
  }

  lemma TornIsStored()
    ensures TornFollows(7)
  {
    hide FindLive, FindLiveById, StartEviction, Enqueue, Delivering, UniqueKeys;
  }

  lemma TornEndsStale()
    ensures Starts(Torn(0).0) && Stale(Torn(8).0, 1)
  {
  }

  /** From empty tables and one replica, a lookup torn between its read and its insert ends
      with the replaced row cached and nothing to evict it. */
  lemma TornLookupStaysStale()
    ensures exists run :: IsRun(run) && |run.steps| == 8 && Stale(run.states[8], 1)
  {
    hide Torn, Follows, Stale, Starts;
    TornMisses();
    TornReads();
    TornIsPublished();
    TornIsDelivered();
    TornIsEvicted();
    TornIsStored();
    TornEndsStale();
    var run := Run(seq(9, n requires 0 <= n < 9 => Torn(n).0), seq(8, n requires 0 <= n < 8 => Torn(n).1));
    forall i | 0 <= i < 8 ensures Follows(run.states[i], run.steps[i], run.states[i + 1]) {
      assert TornFollows(i);
    }
    assert IsRun(run);
  }

  // A create is looked up, then rolled back.
  function RolledBack(n: nat): (State, Step) {
    var before: Table := map[1 := OLD_ROW];
    var idle: map<nat, Replica> := map[0 := Replica(EMPTY, [])];
    var half: map<nat, Replica> := map[0 := Replica(Maps(map[1 := OLD_ROW], map[]), [])];
    var full: map<nat, Replica> := map[0 := Replica(Maps(map[1 := OLD_ROW], map[Key(Telegram, "7") := 1]), [])];
    if n == 0 then (ALONE, Create(1, OLD_ROW))
    else if n == 1 then (State(before, idle, multiset{}, map[]), LookUpId(0, 0, 1))
    else if n == 2 then (State(before, idle, multiset{}, map[0 := MissedId(0, 1)]), Continue(0))
    else if n == 3 then (State(before, idle, multiset{}, map[0 := Lookup(0, 1, OLD_ROW, false)]), Continue(0))
    else if n == 4 then (State(before, half, multiset{}, map[0 := Lookup(0, 1, OLD_ROW, true)]), Continue(0))
    else if n == 5 then (State(before, full, multiset{}, map[]), HardDelete(1))
    else (State(map[], full, multiset{}, map[]), HardDelete(1))
  }

  ghost predicate RolledBackFollows(n: nat) {
    Follows(RolledBack(n).0, RolledBack(n).1, RolledBack(n + 1).0)
  }

  lemma RolledBackUpToInsert()
    ensures RolledBackFollows(0) && RolledBackFollows(1) && RolledBackFollows(2)
  {
  }

  lemma RolledBackIsStored()
    ensures RolledBackFollows(3)
  {
  }

  lemma RolledBackIsIndexed()
    ensures RolledBackFollows(4)
  {
  }

  lemma RolledBackIsDeleted()
    ensures RolledBackFollows(5)
  {
  }

  lemma RolledBackEndsStale()
    ensures Starts(RolledBack(0).0) && Stale(RolledBack(6).0, 1)
    ensures forall n :: 0 <= n < 6 && RolledBack(n).0.ops != map[] ==> RolledBack(n).1.Continue?
  {
  }

  /** So does the rollback of a create that a lookup saw, with every operation whole. */
  lemma RollbackStaysStale()
    ensures exists run :: IsRun(run) && Whole(run) && |run.steps| == 6 && Stale(run.states[6], 1)
  {
    hide RolledBack, Follows, Stale, Starts;
    RolledBackUpToInsert();
    RolledBackIsStored();
    RolledBackIsIndexed();
    RolledBackIsDeleted();
    RolledBackEndsStale();
    var run := Run(seq(7, n requires 0 <= n < 7 => RolledBack(n).0), seq(6, n requires 0 <= n < 6 => RolledBack(n).1));
    forall i | 0 <= i < 6 ensures Follows(run.states[i], run.steps[i], run.states[i + 1]) {
      assert RolledBackFollows(i);
    }
    assert IsRun(run) && Whole(run);
  }
}
