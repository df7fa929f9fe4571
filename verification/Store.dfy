/**
 The message queries of src/db.rs over indexed tables.

 `rowIndex` and `chatIndex` are the unique indexes of the migrations; every statement
 keeps them in step with the tables it changes. Ids and times a statement draws from the
 database are parameters.
 */
module Store {
  import opened Wrappers
  import opened ExternalId
  import opened Model
  import opened Tables

  ghost predicate RowsIndexed(rows: Rows, index: map<(Uuid, ExtId), Uuid>) {
    && (forall k :: k in index ==> index[k] in rows && rows[index[k]].channel == k.0 && rows[index[k]].extId == k.1)
    && (forall id :: id in rows ==> (rows[id].channel, rows[id].extId) in index && index[(rows[id].channel, rows[id].extId)] == id)
  }

  ghost predicate ChatsIndexed(chats: Chats, index: map<(Uuid, Uuid), Uuid>) {
    && (forall k :: k in index ==> index[k] in chats && chats[index[k]] == Chat(k.0, k.1))
    && (forall c :: c in chats ==> (chats[c].client, chats[c].channel) in index && index[(chats[c].client, chats[c].channel)] == c)
  }

  // The index after an adoption: the displaced row's and the local id's entries go.
  function AdoptIndex(rows: Rows, index: map<(Uuid, ExtId), Uuid>, id: Uuid, ext: ExtId): map<(Uuid, ExtId), Uuid>
    requires id in rows
  {
    (index - {(rows[id].channel, rows[id].extId)})[(rows[id].channel, ext) := id]
  }

  lemma AdoptIsIndexed(rows: Rows, index: map<(Uuid, ExtId), Uuid>, id: Uuid, ext: ExtId)
    requires RowsIndexed(rows, index) && id in rows
    ensures RowsIndexed(Adopt(rows, id, ext), AdoptIndex(rows, index, id, ext))
  {
    var next, after := Adopt(rows, id, ext), AdoptIndex(rows, index, id, ext);
    forall k | k in after ensures after[k] in next && next[after[k]].channel == k.0 && next[after[k]].extId == k.1 {
      if k != (rows[id].channel, ext) {
        assert index[k] in rows && !Displaced(rows, id, ext, index[k]);
      }
    }
  }

  // The DELETE of an adoption, through the index: one row or none.
  lemma AdoptDropsAtMostOne(rows: Rows, index: map<(Uuid, ExtId), Uuid>, id: Uuid, ext: ExtId)
    requires RowsIndexed(rows, index) && id in rows
    ensures
      var key := (rows[id].channel, ext);
      var rest := if key in index && index[key] != id then rows - {index[key]} else rows;
      id in rest && Adopt(rows, id, ext) == rest[id := rest[id].(extId := ext)]
  {
  }

  // One row takes the id, any other row under it is gone, and nothing else changed.
  ghost predicate Renamed(rows: Rows, after: Rows, id: Uuid, ext: ExtId)
    requires id in rows
  {
    && id in after && after[id] == rows[id].(extId := ext)
    && (forall k :: k in after ==> k in rows && (k != id ==> after[k] == rows[k]))
    && (forall k :: k in rows ==> (k !in after <==> k != id && Under(rows, rows[id].channel, ext, k)))
  }

  lemma AdoptRenames(rows: Rows, id: Uuid, ext: ExtId)
    requires id in rows
    ensures Renamed(rows, Adopt(rows, id, ext), id, ext)
  {
  }

  lemma ReadIsIndexed(rows: Rows, index: map<(Uuid, ExtId), Uuid>, scope: Scope, reader: Side)
    requires RowsIndexed(rows, index)
    ensures RowsIndexed(MarkRead(rows, scope, reader), index)
  {
  }

  lemma EditIsIndexed(rows: Rows, index: map<(Uuid, ExtId), Uuid>, channel: Uuid, ext: ExtId, text: Option<string>, now: nat)
    requires RowsIndexed(rows, index)
    ensures RowsIndexed(EditRows(rows, channel, ext, text, now), index)
  {
  }

  // An edit through the index: one row or none.
  lemma EditTouchesAtMostOne(rows: Rows, index: map<(Uuid, ExtId), Uuid>, channel: Uuid, ext: ExtId, text: Option<string>, now: nat)
    requires RowsIndexed(rows, index)
    ensures EditRows(rows, channel, ext, text, now) ==
      if (channel, ext) !in index then rows
      else rows[index[(channel, ext)] := rows[index[(channel, ext)]].(text := text, editedAt := Some(now))]
  {
  }

  lemma OneMoreScanned(rows: Rows, scope: Scope, reader: Side, todo: set<Uuid>, id: Uuid)
    requires id in todo && todo <= rows.Keys
    ensures HitIds(rows, scope, reader) - (todo - {id}) ==
      (HitIds(rows, scope, reader) - todo) + if Hit(rows[id], scope, reader) then {id} else {}
  {
  }

  // The rows visited so far carry what the query makes of them, the others are untouched.
  ghost predicate Scanned(rows: Rows, table: Rows, todo: set<Uuid>, scope: Scope, reader: Side) {
    && table.Keys == rows.Keys
    && forall id :: id in rows ==> table[id] == if id in todo then rows[id] else ReadRow(rows[id], scope, reader)
  }

  lemma ScansOne(rows: Rows, table: Rows, todo: set<Uuid>, scope: Scope, reader: Side, id: Uuid)
    requires Scanned(rows, table, todo, scope, reader) && id in todo && id in rows
    ensures table[id] == rows[id]
    ensures Scanned(rows, table[id := ReadRow(rows[id], scope, reader)], todo - {id}, scope, reader)
    ensures !Hit(rows[id], scope, reader) ==> Scanned(rows, table, todo - {id}, scope, reader)
  {
  }

  // The scan behind a read query's UPDATE … RETURNING id, in the table's own order.
  method ScanAndMark(rows: Rows, scope: Scope, reader: Side) returns (table: Rows, hits: seq<Uuid>)
    ensures table == MarkRead(rows, scope, reader)
    ensures Distinct(hits) && Elements(hits) == HitIds(rows, scope, reader)
  {
    hits, table := [], rows;
    var todo := rows.Keys;
    while todo != {}
      invariant todo <= rows.Keys && Scanned(rows, table, todo, scope, reader)
      invariant Distinct(hits)
      invariant Elements(hits) == HitIds(rows, scope, reader) - todo
      decreases todo
    {
      hide HitIds, Distinct, Elements, Scanned;
      var id :| id in todo;
      OneMoreScanned(rows, scope, reader, todo, id);
      ScansOne(rows, table, todo, scope, reader, id);
      if Hit(rows[id], scope, reader) {
        table := table[id := rows[id].(status := Read)];
        hits := Append(hits, id);
      }
      todo := todo - {id};
    }
  }

  function Append(s: seq<Uuid>, id: Uuid): (r: seq<Uuid>)
    requires Distinct(s) && id !in Elements(s)
    ensures Distinct(r) && Elements(r) == Elements(s) + {id}
  {
    assert id !in s;
    s + [id]
  }

  // The rows as they were, but for status Read under the returned ids.
  ghost predicate TurnedRead(rows: Rows, after: Rows, hits: seq<Uuid>) {
    && after.Keys == rows.Keys
    && forall id :: id in rows ==> after[id] == if id in hits then rows[id].(status := Read) else rows[id]
  }

  lemma HitsTurnRead(rows: Rows, scope: Scope, reader: Side, hits: seq<Uuid>)
    requires Elements(hits) == HitIds(rows, scope, reader)
    ensures TurnedRead(rows, MarkRead(rows, scope, reader), hits)
    ensures forall id :: id in hits <==> id in rows && Hit(rows[id], scope, reader)
  {
    assert forall id :: id in hits <==> id in Elements(hits);
  }

  // What a read query looks for: the other side's unread rows of the anchor's chat up to the
  // anchor, or all of a chat's on its channel.
  ghost predicate UnreadUpTo(rows: Rows, anchor: Uuid, reader: Side, id: Uuid)
    requires anchor in rows
  {
    && id in rows && rows[id].side != reader && (rows[id].status == New || rows[id].status == Delivered)
    && rows[anchor].chat.Some? && rows[id].chat == rows[anchor].chat && rows[id].createdAt <= rows[anchor].createdAt
  }

  ghost predicate UnreadInChat(rows: Rows, chat: Uuid, channel: Uuid, reader: Side, id: Uuid) {
    && id in rows && rows[id].side != reader && (rows[id].status == New || rows[id].status == Delivered)
    && rows[id].chat == Some(chat) && rows[id].channel == channel
  }

  lemma AnchoredHits(rows: Rows, index: map<(Uuid, ExtId), Uuid>, channel: Uuid, ext: ExtId, reader: Side)
    requires RowsIndexed(rows, index)
    ensures
      var scope := if (channel, ext) in index then ByIdScope(rows, index[(channel, ext)]) else Nobody;
      forall id :: (exists anchor :: Under(rows, channel, ext, anchor) && UnreadUpTo(rows, anchor, reader, id))
        <==> id in rows && Hit(rows[id], scope, reader)
  {
    forall anchor | Under(rows, channel, ext, anchor) ensures (channel, ext) in index && anchor == index[(channel, ext)] {
    }
    if (channel, ext) in index {
      var anchor := index[(channel, ext)];
      assert Under(rows, channel, ext, anchor);
      assert forall id :: UnreadUpTo(rows, anchor, reader, id) <==> id in rows && Hit(rows[id], ByIdScope(rows, anchor), reader);
    }
  }

  lemma ChatHits(rows: Rows, chats: Chats, index: map<(Uuid, Uuid), Uuid>, client: Uuid, channel: Uuid, reader: Side)
    requires ChatsIndexed(chats, index)
    ensures
      var scope := if (client, channel) in index then Everything(index[(client, channel)], channel) else Nobody;
      forall id :: (exists chat :: chat in chats && chats[chat] == Chat(client, channel) && UnreadInChat(rows, chat, channel, reader, id))
        <==> id in rows && Hit(rows[id], scope, reader)
  {
    if (client, channel) in index {
      assert forall chat :: chat in chats && chats[chat] == Chat(client, channel) <==> chat == index[(client, channel)];
    }
  }

  class MessageStore {
    var channels: map<Uuid, ProviderKind>
    var clients: set<Uuid>
    var operators: set<Uuid>
    var chats: Chats
    var chatIndex: map<(Uuid, Uuid), Uuid>  // (client, channel) to the active chat
    var rows: Rows
    var rowIndex: map<(Uuid, ExtId), Uuid>  // (channel, external id) to the row
    var clock: nat

    ghost predicate Valid()
      reads this
    {
      RowsIndexed(rows, rowIndex) && ChatsIndexed(chats, chatIndex)
    }

    ghost function View(): Db
      reads this
    {
      Db(channels, clients, operators, chats, rows, clock)
    }

    constructor ()
      ensures Valid() && View() == EMPTY_DB
    {
      channels, clients, operators, clock := map[], {}, {}, 0;
      chats, chatIndex, rows, rowIndex := map[], map[], map[], map[];
    }

    lemma IndexFinds(channel: Uuid, ext: ExtId)
      requires Valid()
      ensures Find(rows, channel, ext) == if (channel, ext) in rowIndex then Some(rowIndex[(channel, ext)]) else None
    {
      if (channel, ext) in rowIndex {
        assert Under(rows, channel, ext, rowIndex[(channel, ext)]);
      }
    }

    lemma IndexFindsChat(client: Uuid, channel: Uuid)
      requires Valid()
      ensures FindChat(chats, client, channel) == if (client, channel) in chatIndex then Some(chatIndex[(client, channel)]) else None
    {
    }

    // ── insert_message ──────────────────────────────────────────────

    method InsertMessage(id: Uuid, r: Row) returns (inserted: bool)
      requires Valid() && id !in rows
      modifies this`rows, this`rowIndex, this`clock
      ensures Valid()
      ensures inserted <==>
        && (forall k :: k in old(rows) ==> old(rows)[k].channel != r.channel || old(rows)[k].extId != r.extId)
        && r.channel in channels && (r.chat.Some? ==> r.chat.value in chats)
      ensures rows == if inserted then old(rows)[id := r] else old(rows)
      ensures View() == InsertRow(old(View()), id, r)
      ensures inserted == old(Accepts(View(), r))
    {
      IndexFinds(r.channel, r.extId);
      var key := (r.channel, r.extId);
      if key in rowIndex || r.channel !in channels || (r.chat.Some? && r.chat.value !in chats) {
        assert key in rowIndex ==> Under(rows, r.channel, r.extId, rowIndex[key]);
        return false;
      }
      assert !Taken(rows, r.channel, r.extId);
      rows := rows[id := r];
      rowIndex := rowIndex[key := id];
      clock := r.createdAt;
      return true;
    }

    // ── edit_message ────────────────────────────────────────────────

    method EditMessage(channel: Uuid, ext: ExtId, text: Option<string>, now: nat) returns (edited: Option<Uuid>)
      requires Valid()
      modifies this`rows
      ensures Valid()
      ensures edited.None? ==> rows == old(rows) && forall k :: !Under(rows, channel, ext, k)
      ensures edited.Some? ==>
        && old(Under(rows, channel, ext, edited.value))
        && rows == old(rows)[edited.value := old(rows)[edited.value].(text := text, editedAt := Some(now))]
      ensures View() == old(View()).(rows := EditRows(old(rows), channel, ext, text, now))
      ensures edited == old(Find(rows, channel, ext))
    {
      IndexFinds(channel, ext);
      EditIsIndexed(rows, rowIndex, channel, ext, text, now);
      EditTouchesAtMostOne(rows, rowIndex, channel, ext, text, now);
      hide RowsIndexed, ChatsIndexed, EditRows;
      if (channel, ext) !in rowIndex {
        return None;
      }
      var id := rowIndex[(channel, ext)];
      rows := rows[id := rows[id].(text := text, editedAt := Some(now))];
      return Some(id);
    }

    // ── The read queries ────────────────────────────────────────────

    // UPDATE messages SET status = 'read' … RETURNING id, in the table's own order.
    method MarkWithin(scope: Scope, reader: Side) returns (hits: seq<Uuid>)
      requires Valid()
      modifies this`rows
      ensures Valid()
      ensures View() == old(View()).(rows := MarkRead(old(rows), scope, reader))
      ensures Distinct(hits) && Elements(hits) == HitIds(old(rows), scope, reader)
      ensures TurnedRead(old(rows), rows, hits)
      ensures forall id :: id in hits <==> id in old(rows) && Hit(old(rows)[id], scope, reader)
    {
      var table;
      table, hits := ScanAndMark(rows, scope, reader);
      HitsTurnRead(rows, scope, reader, hits);
      ReadIsIndexed(rows, rowIndex, scope, reader);
      rows := table;
    }

    method MarkMessagesRead(channel: Uuid, ext: ExtId, reader: Side) returns (hits: seq<Uuid>)
      requires Valid()
      modifies this`rows
      ensures Valid()
      ensures TurnedRead(old(rows), rows, hits)
      ensures forall id :: id in hits <==>
        exists anchor :: Under(old(rows), channel, ext, anchor) && UnreadUpTo(old(rows), anchor, reader, id)
      ensures View() == old(View()).(rows := MarkRead(old(rows), old(AnchorScope(rows, channel, ext)), reader))
      ensures Distinct(hits) && Elements(hits) == HitIds(old(rows), old(AnchorScope(rows, channel, ext)), reader)
    {
      hide UnreadUpTo, RowsIndexed, ChatsIndexed, ByIdScope, Hit, HitIds, MarkRead, TurnedRead, Under;
      IndexFinds(channel, ext);
      AnchoredHits(rows, rowIndex, channel, ext, reader);
      var scope := Nobody;
      if (channel, ext) in rowIndex {
        scope := ByIdScope(rows, rowIndex[(channel, ext)]);
      }
      hits := MarkWithin(scope, reader);
    }

    method MarkChatRead(channel: Uuid, client: Uuid, reader: Side) returns (hits: seq<Uuid>)
      requires Valid()
      modifies this`rows
      ensures Valid()
      ensures TurnedRead(old(rows), rows, hits)
      ensures forall id :: id in hits <==>
        exists chat :: chat in chats && chats[chat] == Chat(client, channel) && UnreadInChat(old(rows), chat, channel, reader, id)
      ensures View() == old(View()).(rows := MarkRead(old(rows), old(ChatScope(chats, client, channel)), reader))
      ensures Distinct(hits) && Elements(hits) == HitIds(old(rows), old(ChatScope(chats, client, channel)), reader)
    {
      hide UnreadInChat, RowsIndexed, ChatsIndexed, Hit, HitIds, MarkRead, TurnedRead;
      IndexFindsChat(client, channel);
      ChatHits(rows, chats, chatIndex, client, channel, reader);
      var scope := Nobody;
      if (client, channel) in chatIndex {
        scope := Everything(chatIndex[(client, channel)], channel);
      }
      hits := MarkWithin(scope, reader);
    }

    method MarkMessagesReadById(id: Uuid, reader: Side) returns (hits: seq<Uuid>)
      requires Valid()
      modifies this`rows
      ensures Valid()
      ensures TurnedRead(old(rows), rows, hits)
      ensures forall k :: k in hits <==> id in old(rows) && UnreadUpTo(old(rows), id, reader, k)
      ensures View() == old(View()).(rows := MarkRead(old(rows), ByIdScope(old(rows), id), reader))
      ensures Distinct(hits) && Elements(hits) == HitIds(old(rows), ByIdScope(old(rows), id), reader)
    {
      hide RowsIndexed, ChatsIndexed, HitIds, MarkRead, TurnedRead;
      hits := MarkWithin(ByIdScope(rows, id), reader);
    }

    // ── Delivery outcome ────────────────────────────────────────────

    method MarkMessage(id: Uuid, status: MessageStatus) returns (changed: bool)
      requires Valid()
      modifies this`rows
      ensures Valid()
      ensures changed <==> id in old(rows) && old(rows)[id].status.New?
      ensures changed ==> rows == old(rows)[id := old(rows)[id].(status := status)]
      ensures !changed ==> rows == old(rows)
      ensures View() == old(View()).(rows := MarkIfNew(old(rows), id, status))
    {
      changed := id in rows && rows[id].status.New?;
      if changed {
        rows := rows[id := rows[id].(status := status)];
      }
    }

    // ── adopt_external_message_id ───────────────────────────────────

    method AdoptExternalMessageId(id: Uuid, ext: ExtId) returns (found: bool)
      requires Valid()
      modifies this`rows, this`rowIndex
      ensures Valid()
      ensures found <==> id in old(rows)
      ensures !found ==> rows == old(rows)
      ensures found ==> Renamed(old(rows), rows, id, ext)
      ensures View() == old(View()).(rows := Adopt(old(rows), id, ext))
    {
      if id !in rows {
        return false;
      }
      var channel := rows[id].channel;
      AdoptIsIndexed(rows, rowIndex, id, ext);
      AdoptDropsAtMostOne(rows, rowIndex, id, ext);
      AdoptRenames(rows, id, ext);
      hide Renamed, RowsIndexed, ChatsIndexed, Adopt;
      var table: Rows := rows;
      if (channel, ext) in rowIndex && rowIndex[(channel, ext)] != id {
        // An echo holds the provider's id: the reply's own row keeps it.
        var echo: set<Uuid> := {rowIndex[(channel, ext)]};
        table := table - echo;
      }
      rowIndex := (rowIndex - {(channel, rows[id].extId)})[(channel, ext) := id];
      rows := table[id := table[id].(extId := ext)];
      return true;
    }

    // ── find_or_create_chat, one caller at a time ───────────────────

    method FindOrCreateChat(client: Uuid, channel: Uuid, id: Uuid) returns (chat: Option<Uuid>)
      requires Valid() && id !in chats
      modifies this`chats, this`chatIndex
      ensures Valid()
      ensures chat.Some? <==> Chat(client, channel) in old(chats).Values || (client in clients && channel in channels)
      ensures chat.Some? ==> chat.value in chats && chats[chat.value] == Chat(client, channel)
      ensures chat == Some(id) ==> Chat(client, channel) !in old(chats).Values
      ensures chats == if chat == Some(id) then old(chats)[id := Chat(client, channel)] else old(chats)
      ensures (View(), chat) == old(FoundOrCreated(View(), client, channel, id))
    {
      IndexFindsChat(client, channel);
      if (client, channel) in chatIndex {
        return Some(chatIndex[(client, channel)]);
      }
      if client !in clients || channel !in channels {
        return None;
      }
      chats := chats[id := Chat(client, channel)];
      chatIndex := chatIndex[(client, channel) := id];
      return Some(id);
    }
  }

  // The chat a caller gets, or none when a foreign key refuses the insert.
  ghost function FoundOrCreated(db: Db, client: Uuid, channel: Uuid, id: Uuid): (Db, Option<Uuid>) {
    match FindChat(db.chats, client, channel)
    case Some(chat) => (db, Some(chat))
    case None =>
      if client in db.clients && channel in db.channels
      then (db.(chats := db.chats[id := Chat(client, channel)]), Some(id))
      else (db, None)
  }
}
