/** What every step of the delivery protocol keeps. */
module ProtocolInvariants {
  import opened Wrappers
  import opened ExternalId
  import opened Model
  import opened Tables
  import opened Protocol

  // ── The invariant ───────────────────────────────────────────────────

  // Ids come from one random generator: no table reuses one, and none is nil.
  ghost predicate IdsUsed(db: Db, used: set<Uuid>) {
    && db.rows.Keys + db.chats.Keys + db.clients + db.operators + db.channels.Keys <= used
    && NIL in used && NIL !in db.clients && NIL !in db.operators
    && db.clients !! db.operators
  }

  // The row a reply task works for.
  predicate TaskRow(r: Row, phase: Phase) {
    && r.side.Operator? && r.sender.Some? && r.chat.Some?
    && (if phase.Adopted? then r.extId == phase.p && IsProviderId(phase.p) else r.extId.OperatorId?)
    && (r.status.Failed? ==> phase.Closed?)
  }

  ghost predicate TaskRows(rows: Rows, tasks: map<Uuid, Phase>) {
    forall m :: m in tasks ==> m in rows && TaskRow(rows[m], tasks[m])
  }

  ghost predicate AuthoredRows(rows: Rows, tasks: map<Uuid, Phase>) {
    forall id :: id in rows && rows[id].side.Operator? && rows[id].sender.Some? ==> id in tasks
  }

  // What an external id says about its row.
  predicate Shaped(r: Row) {
    match r.extId
    case OperatorId(_) => r.side.Operator? && r.sender.Some?
    case WidgetId(client, _) => r.side.Client? && (r.sender == None || r.sender == Some(client))
    case TelegramUpdateId(_) => false
    case _ => true
  }

  ghost predicate RowsShaped(rows: Rows) {
    forall id :: id in rows ==> Shaped(rows[id])
  }

  // A task that holds a provider id was given it; a reply's provider id names a stored reply.
  ghost predicate Held(rows: Rows, tasks: map<Uuid, Phase>, origin: map<(Uuid, ExtId), Origin>) {
    forall m, p :: m in tasks && m in rows && Holding(tasks[m], p) ==>
      (rows[m].channel, p) in origin && origin[(rows[m].channel, p)] == Reply(m)
  }

  ghost predicate Given(rows: Rows, tasks: map<Uuid, Phase>, origin: map<(Uuid, ExtId), Origin>) {
    forall k :: k in origin ==>
      && IsProviderId(k.1)
      && (origin[k].Reply? ==> var m := origin[k].message; m in tasks && m in rows && rows[m].channel == k.0)
  }

  // An echo row against the reply it copies.
  predicate CopyOf(e: Row, r: Row) {
    && e.side.Operator? && e.sender.None?
    && (e.chat.Some? ==> e.chat == r.chat)
    && r.createdAt <= e.createdAt
    && (e.status.Read? ==> Settled(r.status))
  }

  predicate Accounted(rows: Rows, origin: map<(Uuid, ExtId), Origin>, id: Uuid)
    requires id in rows
  {
    var r := rows[id];
    IsProviderId(r.extId) ==>
      && (r.channel, r.extId) in origin
      && match origin[(r.channel, r.extId)]
         case Inbound => r.side.Client?
         case OwnApp(_) => r.side.Operator? && r.sender.None?
         case Reply(m) => m in rows && (id == m || CopyOf(r, rows[m]))
  }

  ghost predicate ProviderRows(rows: Rows, origin: map<(Uuid, ExtId), Origin>) {
    forall id :: id in rows ==> Accounted(rows, origin, id)
  }

  // Rows, delivery tasks and provider ids agree.
  ghost predicate Linked(rows: Rows, tasks: map<Uuid, Phase>, origin: map<(Uuid, ExtId), Origin>) {
    && TaskRows(rows, tasks)
    && AuthoredRows(rows, tasks)
    && RowsShaped(rows)
    && Held(rows, tasks, origin)
    && Given(rows, tasks, origin)
    && ProviderRows(rows, origin)
  }

  // Row ids whose Read event was published, is owed, or was lost.
  ghost function Heard(feed: Feed): set<Uuid> {
    Elements(feed.announced) + feed.owed + feed.lost
  }

  ghost predicate ReadLog(rows: Rows, used: set<Uuid>, feed: Feed) {
    && Distinct(feed.announced)
    && Elements(feed.announced) !! feed.owed !! feed.lost
    && Heard(feed) <= used
    && (forall id :: id in rows ==> (rows[id].status.Read? <==> id in Heard(feed)))
  }

  ghost predicate SendLog(sends: seq<Uuid>, tasks: map<Uuid, Phase>) {
    && Distinct(sends)
    && forall m :: m in sends ==> m in tasks && !tasks[m].Stored? && !tasks[m].Spawned?
  }

  ghost predicate Sound(db: Db, used: set<Uuid>, tasks: map<Uuid, Phase>, origin: map<(Uuid, ExtId), Origin>,
                        sends: seq<Uuid>, feed: Feed)
  {
    && WellFormed(db)
    && IdsUsed(db, used)
    && Linked(db.rows, tasks, origin)
    && ReadLog(db.rows, used, feed)
    && SendLog(sends, tasks)
  }

  ghost predicate Inv(s: State) {
    Sound(s.db, s.used, s.tasks, s.origin, s.sends, s.feed)
  }

  lemma InitiallyInv()
    ensures Inv(INITIAL)
  {
  }

  // ── UPDATE statements ───────────────────────────────────────────────

  lemma TaskRowsUpdated(rows: Rows, next: Rows, tasks: map<Uuid, Phase>)
    requires TaskRows(rows, tasks) && Updated(rows, next)
    requires forall k :: k in next && next[k].status.Failed? ==> rows[k].status.Failed?
    ensures TaskRows(next, tasks)
  {
  }

  lemma LinksUpdated(rows: Rows, next: Rows, tasks: map<Uuid, Phase>, origin: map<(Uuid, ExtId), Origin>)
    requires AuthoredRows(rows, tasks) && RowsShaped(rows) && Held(rows, tasks, origin) && Given(rows, tasks, origin)
    requires Updated(rows, next)
    ensures AuthoredRows(next, tasks) && RowsShaped(next) && Held(next, tasks, origin) && Given(next, tasks, origin)
  {
  }

  lemma ProviderRowsUpdated(rows: Rows, next: Rows, origin: map<(Uuid, ExtId), Origin>)
    requires ProviderRows(rows, origin) && Updated(rows, next)
    requires forall k :: k in next && next[k].status.Read? ==> rows[k].status.Read?
    ensures ProviderRows(next, origin)
  {
    forall k | k in next ensures Accounted(next, origin, k) {
      assert Accounted(rows, origin, k) && Evolves(rows[k], next[k]);
    }
  }

  /** A read query that turns an echo Read also settles the reply it copies: the reply is
      in the same chat, on the same side and no newer. */
  lemma ProviderRowsRead(rows: Rows, origin: map<(Uuid, ExtId), Origin>, scope: Scope, reader: Side)
    requires ProviderRows(rows, origin)
    requires forall k :: k in origin && origin[k].Reply? && origin[k].message in rows ==>
      rows[origin[k].message].side.Operator? && rows[origin[k].message].channel == k.0
    ensures ProviderRows(MarkRead(rows, scope, reader), origin)
  {
    var next := MarkRead(rows, scope, reader);
    forall k | k in next ensures Accounted(next, origin, k) {
      assert Accounted(rows, origin, k);
      assert next[k] == ReadRow(rows[k], scope, reader);
      var key := (rows[k].channel, rows[k].extId);
      if IsProviderId(rows[k].extId) && origin[key].Reply? && origin[key].message != k {
        var m := origin[key].message;
        assert CopyOf(rows[k], rows[m]) && next[m] == ReadRow(rows[m], scope, reader);
        if Hit(rows[k], scope, reader) {
          assert Within(rows[m], scope);
        }
      }
    }
  }

  // An UPDATE that turns no row Read and fails no row.
  predicate Mild(r: Row, n: Row) {
    && (n.status.Read? ==> r.status.Read?)
    && (n.status.Failed? ==> r.status.Failed?)
  }

  lemma LinkedUpdated(rows: Rows, next: Rows, tasks: map<Uuid, Phase>, origin: map<(Uuid, ExtId), Origin>)
    requires Linked(rows, tasks, origin) && Updated(rows, next)
    requires forall k :: k in next ==> Mild(rows[k], next[k])
    ensures Linked(next, tasks, origin)
  {
    TaskRowsUpdated(rows, next, tasks);
    LinksUpdated(rows, next, tasks, origin);
    ProviderRowsUpdated(rows, next, origin);
  }

  lemma LinkedRead(rows: Rows, tasks: map<Uuid, Phase>, origin: map<(Uuid, ExtId), Origin>, scope: Scope, reader: Side)
    requires Linked(rows, tasks, origin)
    ensures Linked(MarkRead(rows, scope, reader), tasks, origin)
  {
    var next := MarkRead(rows, scope, reader);
    ReadUpdates(rows, scope, reader);
    TaskRowsUpdated(rows, next, tasks);
    LinksUpdated(rows, next, tasks, origin);
    ProviderRowsRead(rows, origin, scope, reader);
  }

  lemma ReadLogUpdated(rows: Rows, next: Rows, used: set<Uuid>, feed: Feed)
    requires ReadLog(rows, used, feed) && next.Keys <= rows.Keys
    requires forall k :: k in next ==> (next[k].status.Read? <==> rows[k].status.Read?)
    ensures ReadLog(next, used, feed)
  {
  }

  lemma ReadLogMarked(rows: Rows, used: set<Uuid>, feed: Feed, id: Uuid, status: MessageStatus)
    requires ReadLog(rows, used, feed) && (status.Delivered? || status.Failed?)
    ensures ReadLog(MarkIfNew(rows, id, status), used, feed)
  {
  }

  lemma ReadLogAdopted(rows: Rows, used: set<Uuid>, feed: Feed, id: Uuid, p: ExtId)
    requires ReadLog(rows, used, feed)
    ensures ReadLog(Adopt(rows, id, p), used, feed)
  {
  }

  lemma ReadLogRead(rows: Rows, used: set<Uuid>, feed: Feed, scope: Scope, reader: Side)
    requires ReadLog(rows, used, feed) && rows.Keys <= used
    ensures
      var hits := HitIds(rows, scope, reader);
      && ReadLog(MarkRead(rows, scope, reader), used, Owe(feed, hits))
      && Heard(Owe(feed, hits)) == Heard(feed) + hits
      && hits !! Heard(feed)
  {
  }

  lemma ReadsKeep(s: State, scope: Scope, reader: Side)
    requires Inv(s)
    ensures Inv(Reads(s, scope, reader))
  {
    MarkReadKeeps(s.db, scope, reader);
    LinkedRead(s.db.rows, s.tasks, s.origin, scope, reader);
    ReadLogRead(s.db.rows, s.used, s.feed, scope, reader);
  }

  // An UPDATE elsewhere in the row: no read, no failure.
  ghost predicate MildUpdate(rows: Rows, next: Rows) {
    && Updated(rows, next)
    && forall k :: k in next ==> Mild(rows[k], next[k]) && (rows[k].status.Read? ==> next[k].status.Read?)
  }

  lemma EditIsMild(rows: Rows, channel: Uuid, ext: ExtId, text: Option<string>, now: nat)
    ensures MildUpdate(rows, EditRows(rows, channel, ext, text, now))
  {
    EditEvolves(rows, channel, ext, text, now);
  }

  lemma DeliveredIsMild(rows: Rows, id: Uuid)
    ensures MildUpdate(rows, MarkIfNew(rows, id, Delivered))
  {
  }

  lemma MildUpdateKeeps(s: State, next: Rows)
    requires Inv(s) && MildUpdate(s.db.rows, next) && WellFormed(s.db.(rows := next))
    ensures Inv(SetRows(s, next))
  {
    LinkedUpdated(s.db.rows, next, s.tasks, s.origin);
    ReadLogUpdated(s.db.rows, next, s.used, s.feed);
  }

  lemma EditsKeep(s: State, channel: Uuid, ext: ExtId, text: Option<string>, now: nat)
    requires Inv(s)
    ensures Inv(SetRows(s, EditRows(s.db.rows, channel, ext, text, now)))
  {
    EditKeeps(s.db, channel, ext, text, now);
    EditIsMild(s.db.rows, channel, ext, text, now);
    MildUpdateKeeps(s, EditRows(s.db.rows, channel, ext, text, now));
  }

  lemma MarkDeliveredKeeps(s: State, id: Uuid)
    requires Inv(s)
    ensures Inv(SetRows(s, MarkIfNew(s.db.rows, id, Delivered)))
  {
    MarkIfNewKeeps(s.db, id, Delivered);
    DeliveredIsMild(s.db.rows, id);
    MildUpdateKeeps(s, MarkIfNew(s.db.rows, id, Delivered));
  }

  // ── Phase changes ───────────────────────────────────────────────────

  lemma LinkedPhase(rows: Rows, tasks: map<Uuid, Phase>, origin: map<(Uuid, ExtId), Origin>, id: Uuid, phase: Phase)
    requires Linked(rows, tasks, origin) && id in tasks && TaskRow(rows[id], phase)
    requires forall p :: Holding(phase, p) ==> Holding(tasks[id], p)
    ensures Linked(rows, tasks[id := phase], origin)
  {
  }

  lemma PhaseKeeps(s: State, id: Uuid, phase: Phase)
    requires Inv(s) && id in s.tasks && !phase.Stored? && TaskRow(s.db.rows[id], phase)
    requires forall p :: Holding(phase, p) ==> Holding(s.tasks[id], p)
    requires phase.Spawned? ==> s.tasks[id].Stored?
    ensures Inv(SetPhase(s, id, phase))
  {
    LinkedPhase(s.db.rows, s.tasks, s.origin, id, phase);
  }

  lemma TaskRowsWhenClosedFails(rows: Rows, tasks: map<Uuid, Phase>, id: Uuid)
    requires TaskRows(rows, tasks) && id in tasks && tasks[id].Closed?
    ensures TaskRows(MarkIfNew(rows, id, Failed), tasks)
  {
  }

  lemma LinkedWhenClosedFails(rows: Rows, tasks: map<Uuid, Phase>, origin: map<(Uuid, ExtId), Origin>, id: Uuid)
    requires Linked(rows, tasks, origin) && id in tasks && tasks[id].Closed?
    ensures Linked(MarkIfNew(rows, id, Failed), tasks, origin)
  {
    var next := MarkIfNew(rows, id, Failed);
    assert Updated(rows, next);
    TaskRowsWhenClosedFails(rows, tasks, id);
    LinksUpdated(rows, next, tasks, origin);
    ProviderRowsUpdated(rows, next, origin);
  }

  lemma ClosedMayFail(s: State, id: Uuid)
    requires Inv(s) && id in s.tasks && s.tasks[id].Closed?
    ensures Inv(SetRows(s, MarkIfNew(s.db.rows, id, Failed)))
  {
    MarkIfNewKeeps(s.db, id, Failed);
    LinkedWhenClosedFails(s.db.rows, s.tasks, s.origin, id);
    ReadLogMarked(s.db.rows, s.used, s.feed, id, Failed);
  }

  lemma MarkFailedKeeps(s: State, id: Uuid)
    requires Inv(s) && id in s.tasks && s.tasks[id].Errored?
    ensures Inv(SetPhase(SetRows(s, MarkIfNew(s.db.rows, id, Failed)), id, Closed))
  {
    PhaseKeeps(s, id, Closed);
    ClosedMayFail(SetPhase(s, id, Closed), id);
  }

  // ── INSERT ──────────────────────────────────────────────────────────

  lemma LinkedInsert(rows: Rows, tasks: map<Uuid, Phase>, origin: map<(Uuid, ExtId), Origin>, id: Uuid, r: Row)
    requires Linked(rows, tasks, origin) && id !in rows && Shaped(r)
    requires r.side.Operator? ==> r.sender.None?
    requires Accounted(rows[id := r], origin, id)
    ensures Linked(rows[id := r], tasks, origin)
  {
  }

  lemma LinkedReply(rows: Rows, tasks: map<Uuid, Phase>, origin: map<(Uuid, ExtId), Origin>, id: Uuid, r: Row)
    requires Linked(rows, tasks, origin) && id !in rows
    requires r.extId.OperatorId? && r.status.New? && TaskRow(r, Stored)
    ensures Linked(rows[id := r], tasks[id := Stored], origin)
  {
    var next := rows[id := r];
    assert TaskRows(next, tasks[id := Stored]);
    assert RowsShaped(next);
    assert Held(next, tasks[id := Stored], origin);
    forall k | k in next ensures Accounted(next, origin, k) {
      if k != id {
        assert Accounted(rows, origin, k);
      }
    }
  }

  lemma ReadLogInsert(rows: Rows, used: set<Uuid>, feed: Feed, id: Uuid, r: Row)
    requires ReadLog(rows, used, feed) && id !in used && r.status.New?
    ensures ReadLog(rows[id := r], used + {id}, feed) && ReadLog(rows, used + {id}, feed)
  {
  }

  lemma IdsUsedInsert(s: State, id: Uuid, r: Row)
    requires IdsUsed(s.db, s.used)
    ensures IdsUsed(Insert(s, id, r).db, Insert(s, id, r).used)
  {
  }

  // An insert by a webhook: an echo or a customer's message.
  lemma InsertsKeep(s: State, id: Uuid, r: Row)
    requires Inv(s) && id !in s.used && r.status.New? && r.createdAt >= s.db.clock
    requires Shaped(r) && (r.side.Operator? ==> r.sender.None?)
    requires Accounted(s.db.rows[id := r], s.origin, id)
    requires References(s.db, r) ==> RowPlaced(s.db.(clock := r.createdAt), r)
    ensures Inv(Insert(s, id, r))
  {
    InsertKeeps(s.db, id, r);
    LinkedInsert(s.db.rows, s.tasks, s.origin, id, r);
    ReadLogInsert(s.db.rows, s.used, s.feed, id, r);
    IdsUsedInsert(s, id, r);
  }

  lemma ReplyIsPlaced(s: State, step: Step)
    requires Inv(s) && step.StoreReply? && Enabled(s, step)
    ensures RowPlaced(s.db.(clock := step.now), ReplyRow(s, step.replyChat, step.operator, step.mid, step.text, step.now))
  {
  }

  lemma StoreReplyKeeps(s: State, step: Step)
    requires Inv(s) && step.StoreReply? && Enabled(s, step)
    ensures Inv(Apply(s, step))
  {
    var r := ReplyRow(s, step.replyChat, step.operator, step.mid, step.text, step.now);
    ReplyIsPlaced(s, step);
    InsertKeeps(s.db, step.id, r);
    ReadLogInsert(s.db.rows, s.used, s.feed, step.id, r);
    IdsUsedInsert(s, step.id, r);
    if Accepts(s.db, r) {
      LinkedReply(s.db.rows, s.tasks, s.origin, step.id, r);
      StoredIsUnsent(s.sends, s.tasks, step.id);
    }
  }

  lemma StoredIsUnsent(sends: seq<Uuid>, tasks: map<Uuid, Phase>, id: Uuid)
    requires SendLog(sends, tasks) && id !in tasks
    ensures SendLog(sends, tasks[id := Stored])
  {
  }

  lemma EchoIsAccounted(s: State, step: Step)
    requires Inv(s) && step.Echo? && Enabled(s, step)
    ensures Accounted(s.db.rows[step.id := EchoRow(step.channel, step.p, step.chat, step.text, step.now)], s.origin, step.id)
    ensures IsProviderId(step.p)
  {
  }

  lemma EchoIsPlaced(s: State, step: Step)
    requires Inv(s) && step.Echo? && Enabled(s, step)
    requires References(s.db, EchoRow(step.channel, step.p, step.chat, step.text, step.now))
    ensures RowPlaced(s.db.(clock := step.now), EchoRow(step.channel, step.p, step.chat, step.text, step.now))
  {
  }

  lemma EchoKeeps(s: State, step: Step)
    requires Inv(s) && step.Echo? && Enabled(s, step)
    ensures Inv(Apply(s, step))
  {
    var r := EchoRow(step.channel, step.p, step.chat, step.text, step.now);
    EchoIsAccounted(s, step);
    if References(s.db, r) {
      EchoIsPlaced(s, step);
    }
    InsertsKeep(s, step.id, r);
  }

  lemma StoreInboundKeeps(s: State, step: Step)
    requires Inv(s) && step.StoreInbound? && Enabled(s, step)
    ensures Inv(Apply(s, step))
  {
    InsertsKeep(s, step.id, InboundRow(step.channel, step.ext, step.client, step.chat, step.text, step.now));
  }

  // ── Adoption ────────────────────────────────────────────────────────

  // Only copies of the reply are displaced, and no task owns a copy.
  lemma DisplacedAreCopies(rows: Rows, tasks: map<Uuid, Phase>, origin: map<(Uuid, ExtId), Origin>, id: Uuid, p: ExtId, k: Uuid)
    requires Linked(rows, tasks, origin) && id in tasks && Holding(tasks[id], p) && id in rows
    requires Displaced(rows, id, p, k)
    ensures CopyOf(rows[k], rows[id]) && k !in tasks && IsProviderId(p)
  {
  }

  lemma TaskRowsAdopt(rows: Rows, tasks: map<Uuid, Phase>, origin: map<(Uuid, ExtId), Origin>, id: Uuid, p: ExtId)
    requires Linked(rows, tasks, origin) && id in tasks && tasks[id] == Marked(p)
    ensures TaskRows(Adopt(rows, id, p), tasks[id := Adopted(p)])
  {
    var next := Adopt(rows, id, p);
    assert (rows[id].channel, p) in origin && IsProviderId(p);
    forall m | m in tasks ensures m in next && TaskRow(next[m], tasks[id := Adopted(p)][m]) {
      assert TaskRow(rows[m], tasks[m]);
      if Displaced(rows, id, p, m) {
        DisplacedAreCopies(rows, tasks, origin, id, p, m);
      }
    }
  }

  lemma ProviderRowsAdopt(rows: Rows, tasks: map<Uuid, Phase>, origin: map<(Uuid, ExtId), Origin>, id: Uuid, p: ExtId)
    requires Linked(rows, tasks, origin) && id in tasks && tasks[id] == Marked(p)
    ensures ProviderRows(Adopt(rows, id, p), origin)
  {
    var next := Adopt(rows, id, p);
    TaskRowsAdopt(rows, tasks, origin, id, p);
    forall k | k in next ensures Accounted(next, origin, k) {
      assert Accounted(rows, origin, k);
      assert (rows[id].channel, p) in origin && origin[(rows[id].channel, p)] == Reply(id);
      var key := (rows[k].channel, rows[k].extId);
      if k != id && IsProviderId(rows[k].extId) && origin[key].Reply? {
        assert origin[key].message in tasks && origin[key].message in next;
      }
    }
  }

  lemma LinkedAdopt(rows: Rows, tasks: map<Uuid, Phase>, origin: map<(Uuid, ExtId), Origin>, id: Uuid, p: ExtId)
    requires Linked(rows, tasks, origin) && id in tasks && tasks[id] == Marked(p)
    ensures Linked(Adopt(rows, id, p), tasks[id := Adopted(p)], origin)
  {
    var next := Adopt(rows, id, p);
    TaskRowsAdopt(rows, tasks, origin, id, p);
    ProviderRowsAdopt(rows, tasks, origin, id, p);
    RestOfLinkedAdopt(rows, tasks, origin, id, p);
  }

  lemma RestOfLinkedAdopt(rows: Rows, tasks: map<Uuid, Phase>, origin: map<(Uuid, ExtId), Origin>, id: Uuid, p: ExtId)
    requires Linked(rows, tasks, origin) && id in tasks && tasks[id] == Marked(p)
    requires TaskRows(Adopt(rows, id, p), tasks[id := Adopted(p)])
    ensures
      var next, after := Adopt(rows, id, p), tasks[id := Adopted(p)];
      AuthoredRows(next, after) && RowsShaped(next) && Held(next, after, origin) && Given(next, after, origin)
  {
    var next, after := Adopt(rows, id, p), tasks[id := Adopted(p)];
    forall k | k in next ensures Shaped(next[k]) {
      assert Shaped(rows[k]) && (k == id ==> TaskRow(next[id], Adopted(p)));
    }
  }

  lemma SendLogPhase(sends: seq<Uuid>, tasks: map<Uuid, Phase>, id: Uuid, phase: Phase)
    requires SendLog(sends, tasks) && !phase.Stored? && !phase.Spawned?
    ensures SendLog(sends, tasks[id := phase])
  {
  }

  lemma AdoptIdKeeps(s: State, step: Step)
    requires Inv(s) && step.AdoptId? && Enabled(s, step)
    ensures Inv(Apply(s, step))
  {
    var p := s.tasks[step.id].p;
    AdoptKeeps(s.db, step.id, p);
    LinkedAdopt(s.db.rows, s.tasks, s.origin, step.id, p);
    ReadLogAdopted(s.db.rows, s.used, s.feed, step.id, p);
    SendLogPhase(s.sends, s.tasks, step.id, Adopted(p));
  }

  // ── Provider answers ────────────────────────────────────────────────

  lemma LinkedGiven(rows: Rows, tasks: map<Uuid, Phase>, origin: map<(Uuid, ExtId), Origin>, key: (Uuid, ExtId), o: Origin)
    requires Linked(rows, tasks, origin) && key !in origin && IsProviderId(key.1)
    requires o.Reply? ==> o.message in tasks && o.message in rows && rows[o.message].channel == key.0
    ensures Linked(rows, tasks, origin[key := o])
  {
  }

  lemma GivenKeeps(s: State, key: (Uuid, ExtId), o: Origin)
    requires Inv(s) && key !in s.origin && IsProviderId(key.1)
    requires o.Reply? ==> o.message in s.tasks && s.db.rows[o.message].channel == key.0
    ensures Inv(s.(origin := s.origin[key := o]))
  {
    LinkedGiven(s.db.rows, s.tasks, s.origin, key, o);
  }

  lemma LinkedAccepted(rows: Rows, tasks: map<Uuid, Phase>, origin: map<(Uuid, ExtId), Origin>, id: Uuid, p: ExtId)
    requires Linked(rows, tasks, origin) && id in tasks && tasks[id].Spawned? && id in rows
    requires (rows[id].channel, p) in origin && origin[(rows[id].channel, p)] == Reply(id)
    ensures Linked(rows, tasks[id := Accepted(p)], origin)
  {
  }

  lemma SentOnce(sends: seq<Uuid>, tasks: map<Uuid, Phase>, id: Uuid, phase: Phase)
    requires SendLog(sends, tasks) && id in tasks && tasks[id].Spawned? && !phase.Stored? && !phase.Spawned?
    ensures SendLog(sends + [id], tasks[id := phase])
  {
  }

  lemma SendAcceptedKeeps(s: State, step: Step)
    requires Inv(s) && step.SendAccepted? && Enabled(s, step)
    ensures Inv(Apply(s, step))
  {
    var key := (s.db.rows[step.id].channel, step.p);
    LinkedGiven(s.db.rows, s.tasks, s.origin, key, Reply(step.id));
    LinkedAccepted(s.db.rows, s.tasks, s.origin[key := Reply(step.id)], step.id, step.p);
    SentOnce(s.sends, s.tasks, step.id, Accepted(step.p));
  }

  lemma SendRefusedKeeps(s: State, step: Step)
    requires Inv(s) && step.SendRefused? && Enabled(s, step)
    ensures Inv(Apply(s, step))
  {
    LinkedPhase(s.db.rows, s.tasks, s.origin, step.id, Errored);
    SentOnce(s.sends, s.tasks, step.id, Errored);
  }

  // ── Publishing ──────────────────────────────────────────────────────

  lemma PublishKeepsLog(rows: Rows, used: set<Uuid>, feed: Feed, id: Uuid)
    requires ReadLog(rows, used, feed) && id in feed.owed
    ensures ReadLog(rows, used, Publish(feed, id)) && Heard(Publish(feed, id)) == Heard(feed)
    ensures ReadLog(rows, used, LosePublish(feed, id)) && Heard(LosePublish(feed, id)) == Heard(feed)
  {
  }

  // ── New channels, people and chats ──────────────────────────────────

  lemma GrowthKeeps(db: Db, next: Db)
    requires WellFormed(db) && next.rows == db.rows && next.clock == db.clock
    requires db.channels.Keys <= next.channels.Keys && db.clients <= next.clients && db.operators <= next.operators
    requires db.chats.Keys <= next.chats.Keys && forall c :: c in db.chats ==> next.chats[c] == db.chats[c]
    requires OneChat(next.chats) && ChatsPlaced(next)
    ensures WellFormed(next)
  {
  }

  lemma AddKeeps(s: State, step: Step)
    requires Inv(s) && (step.AddChannel? || step.AddClient? || step.AddOperator?) && Enabled(s, step)
    ensures Inv(Apply(s, step))
  {
    GrowthKeeps(s.db, Apply(s, step).db);
  }

  lemma OpenChatKeeps(s: State, step: Step)
    requires Inv(s) && step.OpenChat? && Enabled(s, step)
    ensures Inv(Apply(s, step))
  {
    assert forall c :: c in s.db.chats ==> s.db.chats[c] != Chat(step.customer, step.channel);
    GrowthKeeps(s.db, Apply(s, step).db);
  }

  // ── Every step ──────────────────────────────────────────────────────

  lemma TaskHasRow(s: State, id: Uuid)
    requires Inv(s) && id in s.tasks
    ensures id in s.db.rows && TaskRow(s.db.rows[id], s.tasks[id])
  {
  }

  // A delivery task moves on without touching a row.
  lemma TaskStepKeeps(s: State, step: Step)
    requires Inv(s) && Enabled(s, step)
    requires step.Spawn? || step.GiveUp? || step.LoseResponse? || step.AdoptAborts?
    ensures Inv(Apply(s, step))
  {
    hide Sound;
    TaskHasRow(s, step.id);
    match step {
      case Spawn(id) => PhaseKeeps(s, id, Spawned);
      case AdoptAborts(id) => PhaseKeeps(s, id, Stranded(s.tasks[id].p));
      case GiveUp(id) => PhaseKeeps(s, id, Errored);
      case LoseResponse(id) => PhaseKeeps(s, id, Errored);
    }
  }

  lemma DeliveredKeeps(s: State, id: Uuid, ok: bool)
    requires Inv(s) && Enabled(s, MarkDelivered(id, ok))
    ensures Inv(Apply(s, MarkDelivered(id, ok)))
  {
    PhaseKeeps(s, id, Marked(s.tasks[id].p));
    if ok {
      MarkDeliveredKeeps(SetPhase(s, id, Marked(s.tasks[id].p)), id);
    }
  }

  lemma ReceiptPrefixKeeps(s: State, rc: Receipt)
    requires Inv(s)
    ensures Inv(Apply(s, ReceiptPrefix(rc)))
  {
    hide Sound;
    ReadsKeep(s, PrefixScope(s, rc), rc.reader);
  }

  lemma ReceiptSweepKeeps(s: State, rc: Receipt)
    requires Inv(s) && Enabled(s, ReceiptSweep(rc))
    ensures Inv(Apply(s, ReceiptSweep(rc)))
  {
    hide Sound;
    ReadsKeep(s, SweepScope(s, rc), rc.reader);
  }

  lemma ReadStepKeeps(s: State, step: Step)
    requires Inv(s) && Enabled(s, step)
    requires step.ReceiptPrefix? || step.ReceiptSweep? || step.ReadById?
    ensures Inv(Apply(s, step))
  {
    hide Sound;
    match step {
      case ReceiptPrefix(rc) => ReceiptPrefixKeeps(s, rc);
      case ReceiptSweep(rc) => ReceiptSweepKeeps(s, rc);
      case ReadById(id, reader) => ReadsKeep(s, ByIdScope(s.db.rows, id), reader);
    }
  }

  lemma FeedStepKeeps(s: State, step: Step)
    requires Inv(s) && Enabled(s, step) && (step.Announce? || step.AnnounceFails?)
    ensures Inv(Apply(s, step))
  {
    PublishKeepsLog(s.db.rows, s.used, s.feed, step.id);
  }

  predicate Growth(step: Step) {
    step.AddChannel? || step.AddClient? || step.AddOperator? || step.OpenChat? || step.OwnMessage? || step.CustomerWrites?
  }

  lemma GrowthStepKeeps(s: State, step: Step)
    requires Inv(s) && Enabled(s, step) && Growth(step)
    ensures Inv(Apply(s, step))
  {
    hide Sound;
    match step {
      case OpenChat(_, _, _) => OpenChatKeeps(s, step);
      case OwnMessage(channel, p, client) => GivenKeeps(s, (channel, p), OwnApp(client));
      case CustomerWrites(channel, p) => GivenKeeps(s, (channel, p), Inbound);
      case _ => AddKeeps(s, step);
    }
  }

  // Steps of a delivery task that write its row or talk to the provider.
  predicate Outcome(step: Step) {
    step.MarkDelivered? || step.MarkFailed? || step.SendAccepted? || step.SendRefused? || step.AdoptId?
  }

  lemma OutcomeStepKeeps(s: State, step: Step)
    requires Inv(s) && Enabled(s, step) && Outcome(step)
    ensures Inv(Apply(s, step))
  {
    hide Sound;
    match step {
      case SendAccepted(_, _) => SendAcceptedKeeps(s, step);
      case SendRefused(_) => SendRefusedKeeps(s, step);
      case AdoptId(_) => AdoptIdKeeps(s, step);
      case MarkDelivered(id, ok) => DeliveredKeeps(s, id, ok);
      case MarkFailed(id) => MarkFailedKeeps(s, id);
    }
  }

  predicate Writes(step: Step) {
    step.StoreReply? || step.Echo? || step.StoreInbound? || step.Edit?
  }

  lemma WriteStepKeeps(s: State, step: Step)
    requires Inv(s) && Enabled(s, step) && Writes(step)
    ensures Inv(Apply(s, step))
  {
    hide Sound;
    match step {
      case StoreReply(_, _, _, _, _, _) => StoreReplyKeeps(s, step);
      case Echo(_, _, _, _, _, _) => EchoKeeps(s, step);
      case StoreInbound(_, _, _, _, _, _, _) => StoreInboundKeeps(s, step);
      case Edit(channel, ext, text, now) => EditsKeep(s, channel, ext, text, now);
    }
  }

  /** Every step of the protocol keeps the invariant. */
  lemma StepKeepsInv(s: State, step: Step)
    requires Inv(s) && Enabled(s, step)
    ensures Inv(Apply(s, step))
  {
    hide Sound;
    if Growth(step) {
      GrowthStepKeeps(s, step);
    } else if Outcome(step) {
      OutcomeStepKeeps(s, step);
    } else if step.Spawn? || step.GiveUp? || step.LoseResponse? || step.AdoptAborts? {
      TaskStepKeeps(s, step);
    } else if Writes(step) {
      WriteStepKeeps(s, step);
    } else if step.Announce? || step.AnnounceFails? {
      FeedStepKeeps(s, step);
    } else {
      ReadStepKeeps(s, step);
    }
  }
}
