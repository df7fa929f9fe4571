/**
 `persist_and_publish` (src/pipeline.rs) over the message store: one incoming message,
 edit or receipt, with its database calls and the events it hands to Redis.
 */
module Pipeline {
  import opened Wrappers
  import opened ExternalId
  import opened Model
  import opened Tables
  import opened Store

  // A row without an author is announced under the nil id.
  function SenderOf(r: Row): Sender {
    Sender(if r.sender.Some? then r.sender.value else NIL, r.side)
  }

  function MessageEventOf(id: Uuid, r: Row): IncomingEvent {
    IncomingMessage(id, r.extId, r.channel, r.chat, r.text, r.status, r.createdAt, SenderOf(r))
  }

  function EditEventOf(id: Uuid, r: Row, now: nat): IncomingEvent {
    IncomingEdit(id, r.extId, r.channel, r.chat, r.text, now, SenderOf(r))
  }

  function ReadEventOf(id: Uuid, r: Row): IncomingEvent {
    IncomingRead(id, r.extId, r.channel, r.chat, SenderOf(r))
  }

  // Which of a message's database calls fail.
  datatype Faults = Faults(clientLookup: bool, chatLookup: bool, insert: bool, edit: bool, prefix: bool, sweep: bool)

  const NO_FAULTS := Faults(false, false, false, false, false, false)

  // What the database generates for the call: a row id, a chat id and the time.
  datatype Drawn = Drawn(row: Uuid, chat: Uuid, now: nat)

  // ── What a message does, as a function ──────────────────────────────

  // The customer a provider named, once the clients table confirms it.
  function Verified(db: Db, msg: NewMessage, faults: Faults): Option<Uuid> {
    match msg.conversation
    case Some(OfCustomer(client)) => if client in db.clients && !faults.clientLookup then Some(client) else None
    case _ => None
  }

  // An author that cannot be resolved is not an author.
  function Author(msg: NewMessage, verified: Option<Uuid>): Option<Uuid> {
    if msg.side.Client? && msg.sender != verified then verified else msg.sender
  }

  // The database after chat resolution, the chat and the author of the row.
  ghost function Addressed(db: Db, msg: NewMessage, faults: Faults, drawn: Drawn): (Db, Option<Uuid>, Option<Uuid>) {
    if msg.conversation.Some? && msg.conversation.value.InChat? then
      (db, Some(msg.conversation.value.chat), msg.sender)
    else
      var verified := Verified(db, msg, faults);
      if verified.Some? && !faults.chatLookup then
        var (after, chat) := FoundOrCreated(db, verified.value, msg.channel, drawn.chat);
        (after, chat, Author(msg, verified))
      else
        (db, None, Author(msg, verified))
  }

  ghost function RowToStore(db: Db, msg: NewMessage, faults: Faults, drawn: Drawn): Row {
    var (_, chat, sender) := Addressed(db, msg, faults, drawn);
    RowOf(msg, sender, chat, drawn.now)
  }

  ghost predicate Stores(db: Db, msg: NewMessage, faults: Faults, drawn: Drawn) {
    !faults.insert && Accepts(Addressed(db, msg, faults, drawn).0, RowToStore(db, msg, faults, drawn))
  }

  ghost function Persisted(db: Db, msg: NewMessage, faults: Faults, drawn: Drawn): Db {
    var after := Addressed(db, msg, faults, drawn).0;
    if faults.insert then after else InsertRow(after, drawn.row, RowToStore(db, msg, faults, drawn))
  }

  // The rows a receipt's queries cover: the anchor's prefix, or the customer's whole chat
  // when the first query changed nothing.
  ghost function ReceiptScope(db: Db, msg: NewMessage, faults: Faults): Scope {
    var prefix := AnchorScope(db.rows, msg.channel, msg.extId);
    if faults.prefix then Nobody
    else if HitIds(db.rows, prefix, msg.side) != {} then prefix
    else if msg.conversation.Some? && msg.conversation.value.OfCustomer? && !faults.sweep
    then ChatScope(db.chats, msg.conversation.value.client, msg.channel)
    else Nobody
  }

  // The database after one message, whatever its kind.
  ghost function AfterMessage(db: Db, msg: NewMessage, faults: Faults, drawn: Drawn): Db {
    match msg.event
    case Message => Persisted(db, msg, faults, drawn)
    case EditEvent => db.(rows := if faults.edit then db.rows else EditRows(db.rows, msg.channel, msg.extId, msg.text, drawn.now))
    case ReadEvent => db.(rows := MarkRead(db.rows, ReceiptScope(db, msg, faults), msg.side))
    case _ => db
  }

  function EventIds(events: seq<IncomingEvent>): seq<Uuid> {
    seq(|events|, i requires 0 <= i < |events| => events[i].id)
  }

  // One Read event for each row in `hits`, carrying that row's own author.
  ghost predicate AnnounceReads(events: seq<IncomingEvent>, rows: Rows, hits: set<Uuid>) {
    && Distinct(EventIds(events)) && Elements(EventIds(events)) == hits
    && forall i :: 0 <= i < |events| ==> events[i].id in rows && events[i] == ReadEventOf(events[i].id, rows[events[i].id])
  }

  method ReadEvents(rows: Rows, hits: seq<Uuid>) returns (events: seq<IncomingEvent>)
    requires Distinct(hits) && Elements(hits) <= rows.Keys
    ensures AnnounceReads(events, rows, Elements(hits))
  {
    events := [];
    for i := 0 to |hits|
      invariant |events| == i
      invariant forall k :: 0 <= k < i ==> hits[k] in rows && events[k] == ReadEventOf(hits[k], rows[hits[k]])
    {
      assert hits[i] in Elements(hits);
      events := events + [ReadEventOf(hits[i], rows[hits[i]])];
    }
    assert EventIds(events) == hits;
  }

  // What every event says about its row; a row without an author is announced under the nil id.
  predicate Names(event: IncomingEvent, id: Uuid, r: Row) {
    && event.id == id && event.extId == r.extId && event.channel == r.channel && event.chat == r.chat
    && event.sender == Sender(match r.sender { case Some(author) => author case None => 0 }, r.side)
  }

  // A stored message is the provider's or the panel's own, and is announced as stored.
  ghost predicate ToldOfMessage(after: Rows, told: seq<IncomingEvent>, events: seq<IncomingEvent>, msg: NewMessage, drawn: Drawn, stored: bool) {
    if !stored then events == told
    else
      && drawn.row in after && |events| == |told| + 1 && told <= events
      && var r, event := after[drawn.row], events[|told|];
         && r.channel == msg.channel && r.extId == msg.extId && r.side == msg.side && r.text == msg.text
         && r.status == New && r.createdAt == drawn.now && r.editedAt == None
         && event.IncomingMessage? && Names(event, drawn.row, r)
         && event.text == r.text && event.status == r.status && event.createdAt == r.createdAt
  }

  // The one row under the id has the new text, and its event says so.
  ghost predicate ToldOfEdit(rows: Rows, after: Rows, told: seq<IncomingEvent>, events: seq<IncomingEvent>,
                             channel: Uuid, ext: ExtId, text: Option<string>, now: nat, fails: bool)
  {
    if fails || forall id :: !Under(rows, channel, ext, id) then events == told && after == rows
    else
      && |events| == |told| + 1 && told <= events
      && var event := events[|told|];
         && Under(rows, channel, ext, event.id)
         && after == rows[event.id := rows[event.id].(text := text, editedAt := Some(now))]
         && event.IncomingEdit? && Names(event, event.id, after[event.id]) && event.text == text && event.editedAt == now
  }

  // One event for each row that turned Read, and no other row changed.
  ghost predicate ToldOfReads(rows: Rows, after: Rows, told: seq<IncomingEvent>, events: seq<IncomingEvent>) {
    && after.Keys == rows.Keys && told <= events
    && (forall i :: |told| <= i < |events| ==>
          && events[i].IncomingRead? && events[i].id in after && Names(events[i], events[i].id, after[events[i].id])
          && rows[events[i].id].status != Read && after[events[i].id] == rows[events[i].id].(status := Read))
    && (forall i, j :: |told| <= i < j < |events| ==> events[i].id != events[j].id)
    && (forall id :: id in rows && after[id] != rows[id] ==> exists i :: |told| <= i < |events| && events[i].id == id)
  }

  class Bridge {
    const store: MessageStore
    var events: seq<IncomingEvent>

    constructor (store: MessageStore)
      ensures this.store == store && events == []
    {
      this.store := store;
      events := [];
    }

    /** Persist an event and publish it. The result names the row this call inserted. Every event
        carries what the table says of its row when the call ends. */
    method PersistAndPublish(msg: NewMessage, faults: Faults, drawn: Drawn) returns (persisted: Option<Uuid>)
      requires store.Valid() && drawn.row !in store.rows && drawn.chat !in store.chats
      modifies this, store
      ensures store.Valid()
      ensures persisted.Some? ==> msg.event.Message? && persisted == Some(drawn.row)
      ensures msg.event.Message? ==> ToldOfMessage(store.rows, old(events), events, msg, drawn, persisted.Some?)
      ensures msg.event.EditEvent? ==>
        ToldOfEdit(old(store.rows), store.rows, old(events), events, msg.channel, msg.extId, msg.text, drawn.now, faults.edit)
      ensures msg.event.ReadEvent? ==> ToldOfReads(old(store.rows), store.rows, old(events), events)
      ensures old(events) <= events
      ensures msg.event.Message? ==>
        && store.View() == old(Persisted(store.View(), msg, faults, drawn))
        && persisted == (if old(Stores(store.View(), msg, faults, drawn)) then Some(drawn.row) else None)
        && events == old(events) +
             if persisted.Some? then [MessageEventOf(drawn.row, old(RowToStore(store.View(), msg, faults, drawn)))] else []
      ensures msg.event.EditEvent? ==>
        && persisted.None?
        && store.View() == old(store.View()).(rows :=
             if faults.edit then old(store.rows) else EditRows(old(store.rows), msg.channel, msg.extId, msg.text, drawn.now))
        && var found := old(Find(store.rows, msg.channel, msg.extId));
           events == old(events) +
             if faults.edit || found.None? then [] else [EditEventOf(found.value, store.rows[found.value], drawn.now)]
      ensures msg.event.ReadEvent? ==>
        && persisted.None?
        && var scope := old(ReceiptScope(store.View(), msg, faults));
           && store.View() == old(store.View()).(rows := MarkRead(old(store.rows), scope, msg.side))
           && old(events) <= events
           && AnnounceReads(events[|old(events)|..], store.rows, HitIds(old(store.rows), scope, msg.side))
      ensures msg.event.Reaction? || msg.event.Unknown? ==>
        persisted.None? && store.View() == old(store.View()) && events == old(events)
    {
      hide ToldOfMessage, ToldOfEdit, ToldOfReads, MessageEventOf, EditEventOf, AnnounceReads;
      match msg.event {
        case Message => persisted := PersistMessage(msg, faults, drawn);
        case EditEvent => PersistEdit(msg, faults, drawn.now); persisted := None;
        case ReadEvent => PersistReceipt(msg, faults); persisted := None;
        case _ => persisted := None;
      }
    }

    // The chat a message belongs to and the author its row gets.
    method ResolveConversation(msg: NewMessage, faults: Faults, drawn: Drawn) returns (chat: Option<Uuid>, sender: Option<Uuid>)
      requires store.Valid() && drawn.chat !in store.chats
      modifies store`chats, store`chatIndex
      ensures store.Valid()
      ensures (store.View(), chat, sender) == old(Addressed(store.View(), msg, faults, drawn))
      ensures msg.conversation.Some? && msg.conversation.value.InChat? ==>
        chat == Some(msg.conversation.value.chat) && sender == msg.sender && store.chats == old(store.chats)
      ensures !(msg.conversation.Some? && msg.conversation.value.InChat?) ==>
        var known := msg.conversation.Some? && msg.conversation.value.client in store.clients && !faults.clientLookup;
        && sender == (if msg.side.Operator? then msg.sender else if known then Some(msg.conversation.value.client) else None)
        && (chat.Some? ==> known && chat.value in store.chats && store.chats[chat.value] == Chat(msg.conversation.value.client, msg.channel))
        && (known && !faults.chatLookup && msg.channel in store.channels ==> chat.Some?)
        && (faults.chatLookup ==> chat.None?)
        && store.chats == if chat.None? || chat.value in old(store.chats) then old(store.chats)
                          else old(store.chats)[drawn.chat := Chat(msg.conversation.value.client, msg.channel)]
    {
      chat, sender := None, msg.sender;
      if msg.conversation.Some? && msg.conversation.value.InChat? {
        chat := Some(msg.conversation.value.chat);
      } else {
        var verified := None;
        if msg.conversation.Some? && !faults.clientLookup && msg.conversation.value.client in store.clients {
          verified := Some(msg.conversation.value.client);
        }
        if verified.Some? && !faults.chatLookup {
          chat := store.FindOrCreateChat(verified.value, msg.channel, drawn.chat);
        }
        if msg.side.Client? && msg.sender != verified {
          sender := verified;
        }
      }
    }

    method PersistMessage(msg: NewMessage, faults: Faults, drawn: Drawn) returns (persisted: Option<Uuid>)
      requires store.Valid() && drawn.row !in store.rows && drawn.chat !in store.chats
      modifies this, store
      ensures store.Valid()
      ensures store.View() == old(Persisted(store.View(), msg, faults, drawn))
      ensures persisted == if old(Stores(store.View(), msg, faults, drawn)) then Some(drawn.row) else None
      ensures events == old(events) +
        if persisted.Some? then [MessageEventOf(drawn.row, old(RowToStore(store.View(), msg, faults, drawn)))] else []
      ensures ToldOfMessage(store.rows, old(events), events, msg, drawn, persisted.Some?)
    {
      var chat, sender := ResolveConversation(msg, faults, drawn);
      if faults.insert {
        return None;
      }
      var r := RowOf(msg, sender, chat, drawn.now);
      var inserted := store.InsertMessage(drawn.row, r);
      if !inserted {
        return None;
      }
      events := events + [MessageEventOf(drawn.row, r)];
      return Some(drawn.row);
    }

    method PersistEdit(msg: NewMessage, faults: Faults, now: nat)
      requires store.Valid()
      modifies this, store
      ensures store.Valid()
      ensures store.View() == old(store.View()).(rows :=
        if faults.edit then old(store.rows) else EditRows(old(store.rows), msg.channel, msg.extId, msg.text, now))
      ensures
        var found := old(Find(store.rows, msg.channel, msg.extId));
        events == old(events) +
          if faults.edit || found.None? then [] else [EditEventOf(found.value, store.rows[found.value], now)]
      ensures ToldOfEdit(old(store.rows), store.rows, old(events), events, msg.channel, msg.extId, msg.text, now, faults.edit)
    {
      if !faults.edit {
        var edited := store.EditMessage(msg.channel, msg.extId, msg.text, now);
        if edited.Some? {
          events := events + [EditEventOf(edited.value, store.rows[edited.value], now)];
        }
      }
    }

    method PersistReceipt(msg: NewMessage, faults: Faults)
      requires store.Valid()
      modifies this, store
      ensures store.Valid()
      ensures
        var scope := old(ReceiptScope(store.View(), msg, faults));
        && store.View() == old(store.View()).(rows := MarkRead(old(store.rows), scope, msg.side))
        && old(events) <= events
        && AnnounceReads(events[|old(events)|..], store.rows, HitIds(old(store.rows), scope, msg.side))
      ensures ToldOfReads(old(store.rows), store.rows, old(events), events)
    {
      ghost var before := store.rows;
      NobodyReads(store.rows, msg.side);
      if faults.prefix {
        return;
      }
      var hits := store.MarkMessagesRead(msg.channel, msg.extId, msg.side);
      EmptyIsNoElements(hits);
      if hits == [] {
        UnhitIsUnchanged(before, old(AnchorScope(store.rows, msg.channel, msg.extId)), msg.side);
        if msg.conversation.Some? && msg.conversation.value.OfCustomer? && !faults.sweep {
          hits := store.MarkChatRead(msg.channel, msg.conversation.value.client, msg.side);
        }
      }
      var produced := ReadEvents(store.rows, hits);
      events := events + produced;
      assert events[|old(events)|..] == produced;
      AnnouncedAreTold(before, old(ReceiptScope(store.View(), msg, faults)), msg.side, old(events), events);
    }
  }

  lemma AnnouncedAreTold(rows: Rows, scope: Scope, reader: Side, told: seq<IncomingEvent>, events: seq<IncomingEvent>)
    requires told <= events && AnnounceReads(events[|told|..], MarkRead(rows, scope, reader), HitIds(rows, scope, reader))
    ensures ToldOfReads(rows, MarkRead(rows, scope, reader), told, events)
  {
    var produced, hits := events[|told|..], HitIds(rows, scope, reader);
    var ids := EventIds(produced);
    assert forall i :: 0 <= i < |produced| ==> ids[i] in Elements(ids);
    forall i | |told| <= i < |events| ensures events[i].id in hits && events[i] == produced[i - |told|] {
      assert produced[i - |told|] == events[i] && ids[i - |told|] in Elements(ids);
    }
    forall i, j | |told| <= i < j < |events| ensures events[i].id != events[j].id {
      assert ids[i - |told|] != ids[j - |told|];
    }
    assert forall id :: id in rows && MarkRead(rows, scope, reader)[id] != rows[id] ==> id in hits;
    forall id | id in hits ensures exists i :: |told| <= i < |events| && events[i].id == id {
      assert id in Elements(ids);
      var i :| 0 <= i < |ids| && ids[i] == id;
      assert events[|told| + i] == produced[i] && |told| <= |told| + i < |events| && events[|told| + i].id == id;
    }
  }

  lemma EmptyIsNoElements(s: seq<Uuid>)
    ensures s == [] <==> Elements(s) == {}
  {
    if s != [] {
      assert s[0] in Elements(s);
    }
  }

  lemma NobodyReads(rows: Rows, reader: Side)
    ensures MarkRead(rows, Nobody, reader) == rows && HitIds(rows, Nobody, reader) == {}
  {
  }

  lemma UnhitIsUnchanged(rows: Rows, scope: Scope, reader: Side)
    ensures HitIds(rows, scope, reader) == {} ==> MarkRead(rows, scope, reader) == rows
  {
    if HitIds(rows, scope, reader) == {} {
      assert forall id :: id in rows ==> id !in HitIds(rows, scope, reader);
    }
  }
}
