/**
 What each SQL statement of src/db.rs does to the tables, as functions on values, and
 the invariants the statements keep. `Store` implements these statements over indexed
 tables; `Protocol` interleaves them.
 */
module Tables {
  import opened Wrappers
  import opened ExternalId
  import opened Model

  // ── The unique index on (channel_id, external_message_id) ──────────

  ghost predicate Under(rows: Rows, channel: Uuid, ext: ExtId, id: Uuid) {
    id in rows && rows[id].channel == channel && rows[id].extId == ext
  }

  ghost predicate Taken(rows: Rows, channel: Uuid, ext: ExtId) {
    exists id :: Under(rows, channel, ext, id)
  }

  ghost function Find(rows: Rows, channel: Uuid, ext: ExtId): Option<Uuid> {
    if id :| Under(rows, channel, ext, id) then Some(id) else None
  }

  ghost predicate UniqueIds(rows: Rows) {
    forall a, b :: a in rows && b in rows && rows[a].channel == rows[b].channel && rows[a].extId == rows[b].extId
      ==> a == b
  }

  // ── INSERT … ON CONFLICT DO NOTHING ─────────────────────────────────

  // The two foreign keys of `messages`.
  ghost predicate References(db: Db, r: Row) {
    r.channel in db.channels && (r.chat.Some? ==> r.chat.value in db.chats)
  }

  ghost predicate Accepts(db: Db, r: Row) {
    !Taken(db.rows, r.channel, r.extId) && References(db, r)
  }

  ghost function InsertRow(db: Db, id: Uuid, r: Row): Db {
    if Accepts(db, r) then db.(rows := db.rows[id := r], clock := r.createdAt) else db
  }

  function RowOf(msg: NewMessage, sender: Option<Uuid>, chat: Option<Uuid>, now: nat): Row {
    Row(msg.channel, chat, msg.extId, sender, msg.side, msg.text, New, now, None)
  }

  // ── UPDATE messages SET text ────────────────────────────────────────

  function EditRow(r: Row, channel: Uuid, ext: ExtId, text: Option<string>, now: nat): Row {
    if r.channel == channel && r.extId == ext then r.(text := text, editedAt := Some(now)) else r
  }

  function EditRows(rows: Rows, channel: Uuid, ext: ExtId, text: Option<string>, now: nat): Rows {
    map id | id in rows :: EditRow(rows[id], channel, ext, text, now)
  }

  // ── The three read queries ──────────────────────────────────────────

  // The rows a read query ranges over. A NULL chat or a missing anchor matches nothing.
  datatype Scope =
    | Nobody
    | UpTo(chat: Uuid, last: nat)
    | Everything(chat: Uuid, channel: Uuid)

  predicate Unread(status: MessageStatus) {
    status.New? || status.Delivered?
  }

  predicate Within(r: Row, scope: Scope) {
    match scope
    case Nobody => false
    case UpTo(chat, last) => r.chat == Some(chat) && r.createdAt <= last
    case Everything(chat, channel) => r.chat == Some(chat) && r.channel == channel
  }

  predicate Hit(r: Row, scope: Scope, reader: Side) {
    Unread(r.status) && r.side != reader && Within(r, scope)
  }

  function ReadRow(r: Row, scope: Scope, reader: Side): Row {
    if Hit(r, scope, reader) then r.(status := Read) else r
  }

  function MarkRead(rows: Rows, scope: Scope, reader: Side): Rows {
    map id | id in rows :: ReadRow(rows[id], scope, reader)
  }

  // RETURNING id.
  function HitIds(rows: Rows, scope: Scope, reader: Side): set<Uuid> {
    set id | id in rows && Hit(rows[id], scope, reader)
  }

  function ByIdScope(rows: Rows, id: Uuid): Scope {
    if id in rows && rows[id].chat.Some? then UpTo(rows[id].chat.value, rows[id].createdAt) else Nobody
  }

  ghost function AnchorScope(rows: Rows, channel: Uuid, ext: ExtId): Scope {
    match Find(rows, channel, ext)
    case Some(id) => ByIdScope(rows, id)
    case None => Nobody
  }

  ghost function FindChat(chats: Chats, client: Uuid, channel: Uuid): Option<Uuid> {
    if c :| c in chats && chats[c] == Chat(client, channel) then Some(c) else None
  }

  ghost function ChatScope(chats: Chats, client: Uuid, channel: Uuid): Scope {
    match FindChat(chats, client, channel)
    case Some(chat) => Everything(chat, channel)
    case None => Nobody
  }

  // ── Delivery outcome and id adoption ────────────────────────────────

  function MarkIfNew(rows: Rows, id: Uuid, status: MessageStatus): Rows {
    if id in rows && rows[id].status.New? then rows[id := rows[id].(status := status)] else rows
  }

  predicate Displaced(rows: Rows, id: Uuid, ext: ExtId, other: Uuid)
    requires id in rows
  {
    other in rows && other != id && rows[other].channel == rows[id].channel && rows[other].extId == ext
  }

  function Adopt(rows: Rows, id: Uuid, ext: ExtId): Rows {
    if id !in rows then rows
    else map k | k in rows && !Displaced(rows, id, ext, k) :: if k == id then rows[k].(extId := ext) else rows[k]
  }

  // ── Chats ───────────────────────────────────────────────────────────

  ghost predicate OneChat(chats: Chats) {
    forall a, b :: a in chats && b in chats && chats[a] == chats[b] ==> a == b
  }

  // ── Invariants ──────────────────────────────────────────────────────

  ghost predicate ChatsPlaced(db: Db) {
    forall c :: c in db.chats ==> db.chats[c].client in db.clients && db.chats[c].channel in db.channels
  }

  // A row's channel is its chat's channel; a client-side row in a chat is by that chat's
  // client; a known author belongs to the row's side.
  ghost predicate RowPlaced(db: Db, r: Row) {
    && References(db, r)
    && r.createdAt <= db.clock
    && (r.chat.Some? ==> db.chats[r.chat.value].channel == r.channel)
    && (r.side.Client? && r.chat.Some? ==> r.sender == Some(db.chats[r.chat.value].client))
    && (r.side.Client? && r.sender.Some? ==> r.sender.value in db.clients)
    && (r.side.Operator? && r.sender.Some? ==> r.sender.value in db.operators)
  }

  ghost predicate RowsPlaced(db: Db) {
    forall id :: id in db.rows ==> RowPlaced(db, db.rows[id])
  }

  predicate Settled(status: MessageStatus) {
    status.Read? || status.Failed?
  }

  // Strictly older, in the same chat, on the same side.
  predicate Before(a: Row, b: Row) {
    a.chat.Some? && a.chat == b.chat && a.side == b.side && a.createdAt < b.createdAt
  }

  // Reads are closed downward in time within a chat and a side.
  ghost predicate ReadsClosed(rows: Rows) {
    forall a, b :: a in rows && b in rows && Before(rows[a], rows[b]) && rows[b].status.Read?
      ==> Settled(rows[a].status)
  }

  ghost predicate WellFormed(db: Db) {
    UniqueIds(db.rows) && OneChat(db.chats) && ChatsPlaced(db) && RowsPlaced(db) && ReadsClosed(db.rows)
  }

  // ── What a statement may do to a stored row ─────────────────────────

  // The status ladder.
  predicate Climbs(s: MessageStatus, t: MessageStatus) {
    || s == t
    || (s.New? && (t.Delivered? || t.Failed? || t.Read?))
    || (s.Delivered? && t.Read?)
  }

  predicate Evolves(r: Row, s: Row) {
    && s.channel == r.channel && s.chat == r.chat && s.sender == r.sender
    && s.side == r.side && s.createdAt == r.createdAt && Climbs(r.status, s.status)
  }

  // ── The statements keep the invariants ──────────────────────────────

  // A statement that inserts nothing leaves every surviving row evolved from its old self.
  ghost predicate RowsEvolve(rows: Rows, next: Rows) {
    forall k :: k in next ==> k in rows && Evolves(rows[k], next[k])
  }

  // An UPDATE that leaves every key and every external id in place.
  ghost predicate Updated(rows: Rows, next: Rows) {
    && next.Keys == rows.Keys
    && forall k :: k in rows ==> Evolves(rows[k], next[k]) && next[k].extId == rows[k].extId
  }

  lemma UniqueWhenKeysKept(rows: Rows, next: Rows)
    requires UniqueIds(rows)
    requires forall k :: k in next ==> k in rows && rows[k].channel == next[k].channel && rows[k].extId == next[k].extId
    ensures UniqueIds(next)
  {
  }

  lemma ClosedWhenNothingTurnsRead(rows: Rows, next: Rows)
    requires ReadsClosed(rows) && RowsEvolve(rows, next)
    requires forall k :: k in next && next[k].status.Read? ==> rows[k].status.Read?
    ensures ReadsClosed(next)
  {
  }

  lemma {:induction false} WellFormedWhenEvolved(db: Db, next: Rows)
    requires WellFormed(db) && RowsEvolve(db.rows, next) && UniqueIds(next) && ReadsClosed(next)
    ensures WellFormed(db.(rows := next))
  {
  }

  lemma PlacedAfterInsert(db: Db, id: Uuid, r: Row)
    requires RowsPlaced(db) && id !in db.rows && Accepts(db, r) && r.createdAt >= db.clock
    requires RowPlaced(db.(clock := r.createdAt), r)
    ensures RowsPlaced(InsertRow(db, id, r))
  {
  }

  lemma ClosedAfterInsert(db: Db, id: Uuid, r: Row)
    requires ReadsClosed(db.rows) && RowsPlaced(db) && Accepts(db, r) && r.createdAt >= db.clock && r.status.New?
    requires id !in db.rows
    ensures ReadsClosed(InsertRow(db, id, r).rows)
  {
  }

  lemma UniqueAfterInsert(rows: Rows, id: Uuid, r: Row)
    requires UniqueIds(rows) && id !in rows && !Taken(rows, r.channel, r.extId)
    ensures UniqueIds(rows[id := r])
  {
    assert forall k :: k in rows ==> !Under(rows, r.channel, r.extId, k);
  }

  lemma InsertKeeps(db: Db, id: Uuid, r: Row)
    requires WellFormed(db) && id !in db.rows
    requires r.createdAt >= db.clock && r.status.New?
    requires References(db, r) ==> RowPlaced(db.(clock := r.createdAt), r)
    ensures WellFormed(InsertRow(db, id, r))
    ensures Taken(db.rows, r.channel, r.extId) ==> InsertRow(db, id, r) == db
    ensures Accepts(db, r) ==> InsertRow(db, id, r).rows == db.rows[id := r]
  {
    if Accepts(db, r) {
      PlacedAfterInsert(db, id, r);
      ClosedAfterInsert(db, id, r);
      UniqueAfterInsert(db.rows, id, r);
    }
  }

  lemma ClosedAfterRead(db: Db, scope: Scope, reader: Side)
    requires ReadsClosed(db.rows) && RowsPlaced(db)
    ensures ReadsClosed(MarkRead(db.rows, scope, reader))
  {
  }

  lemma ReadUpdates(rows: Rows, scope: Scope, reader: Side)
    ensures Updated(rows, MarkRead(rows, scope, reader))
  {
  }

  lemma MarkReadKeeps(db: Db, scope: Scope, reader: Side)
    requires WellFormed(db)
    ensures WellFormed(db.(rows := MarkRead(db.rows, scope, reader)))
  {
    var next := MarkRead(db.rows, scope, reader);
    ReadUpdates(db.rows, scope, reader);
    UniqueWhenKeysKept(db.rows, next);
    ClosedAfterRead(db, scope, reader);
    WellFormedWhenEvolved(db, next);
  }

  lemma MarkIfNewKeeps(db: Db, id: Uuid, status: MessageStatus)
    requires WellFormed(db) && (status.Delivered? || status.Failed?)
    ensures WellFormed(db.(rows := MarkIfNew(db.rows, id, status)))
  {
  }

  lemma EditEvolves(rows: Rows, channel: Uuid, ext: ExtId, text: Option<string>, now: nat)
    ensures Updated(rows, EditRows(rows, channel, ext, text, now))
  {
  }

  lemma EditKeeps(db: Db, channel: Uuid, ext: ExtId, text: Option<string>, now: nat)
    requires WellFormed(db)
    ensures WellFormed(db.(rows := EditRows(db.rows, channel, ext, text, now)))
  {
    var next := EditRows(db.rows, channel, ext, text, now);
    EditEvolves(db.rows, channel, ext, text, now);
    UniqueWhenKeysKept(db.rows, next);
    ClosedWhenNothingTurnsRead(db.rows, next);
    WellFormedWhenEvolved(db, next);
  }

  lemma UniqueAfterAdopt(rows: Rows, id: Uuid, ext: ExtId)
    requires UniqueIds(rows)
    ensures UniqueIds(Adopt(rows, id, ext))
  {
  }

  lemma AdoptKeeps(db: Db, id: Uuid, ext: ExtId)
    requires WellFormed(db)
    ensures WellFormed(db.(rows := Adopt(db.rows, id, ext)))
  {
    var next := Adopt(db.rows, id, ext);
    assert RowsEvolve(db.rows, next);
    UniqueAfterAdopt(db.rows, id, ext);
    ClosedWhenNothingTurnsRead(db.rows, next);
    WellFormedWhenEvolved(db, next);
  }

  // ── What the read queries promise on their own ──────────────────────

  /** The watermark of a read query whose anchor is known: exactly the other side's unread
      rows of that chat up to the anchor become Read, later rows keep their status, and a
      repeated query changes nothing. */
  lemma Watermark(rows: Rows, anchor: Uuid, reader: Side)
    requires anchor in rows && rows[anchor].chat.Some?
    ensures
      var after := MarkRead(rows, ByIdScope(rows, anchor), reader);
      && (forall id :: id in rows ==>
            (after[id] != rows[id] <==>
              && Unread(rows[id].status) && rows[id].side != reader
              && rows[id].chat == rows[anchor].chat && rows[id].createdAt <= rows[anchor].createdAt))
      && (forall id :: id in after && after[id] != rows[id] ==> after[id] == rows[id].(status := Read))
      && (forall id :: id in after && after[id].side != reader && Within(after[id], ByIdScope(rows, anchor)) ==>
            Settled(after[id].status))
      && MarkRead(after, ByIdScope(after, anchor), reader) == after
  {
  }
}
