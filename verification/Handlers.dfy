/**
 The socket handlers and the delivery task: src/handler/operator_ws.rs and
 src/handler/widget_ws.rs. Socket replies are results; provider answers are parameters.
 */
module Handlers {
  import opened Wrappers
  import opened ExternalId
  import opened Model
  import opened Tables
  import opened Store
  import opened Pipeline

  datatype Action = SendAction | EditAction

  function KindOf(action: Action): EventKind {
    if action.SendAction? then Message else EditEvent
  }

  function OperatorMessage(channel: Uuid, chat: Uuid, operator: Uuid, mid: string, text: Option<string>, event: EventKind): NewMessage {
    NewMessage(OperatorId(mid), channel, Some(InChat(chat)), Some(operator), Operator, event, text)
  }

  function WidgetMessage(channel: Uuid, client: Uuid, mid: Uuid, text: Option<string>, event: EventKind): NewMessage {
    NewMessage(WidgetId(client, mid), channel, Some(OfCustomer(client)), Some(client), Client, event, text)
  }

  datatype OperatorReply =
    | ChatNotFound
    | InternalError  // the chat lookup failed
    | Acked(persisted: Option<Uuid>, deliver: bool)

  predicate Deliverable(db: Db, channel: Uuid, text: Option<string>) {
    channel in db.channels && !db.channels[channel].Widget? && text.Some? && text.value != ""
  }

  /** One Send or Edit from the panel. `deliver` says that a delivery task was spawned; it
      is, exactly when this call inserted the row and the channel is known to have a provider. */
  method ProcessOperatorMessage(
      bridge: Bridge, operator: Uuid, chat: Uuid, action: Action, mid: string, text: Option<string>,
      chatFails: bool, faults: Faults, lookupFails: bool, drawn: Drawn)
    returns (reply: OperatorReply)
    requires bridge.store.Valid() && drawn.row !in bridge.store.rows && drawn.chat !in bridge.store.chats
    modifies bridge, bridge.store
    ensures bridge.store.Valid()
    ensures reply.InternalError? <==> chatFails
    ensures reply.ChatNotFound? <==> !chatFails && chat !in old(bridge.store.chats)
    ensures !reply.Acked? ==> bridge.store.View() == old(bridge.store.View()) && bridge.events == old(bridge.events)
    ensures reply.Acked? && action.SendAction? ==>
      var r := ReplyToStore(old(bridge.store.View()), operator, chat, mid, text, drawn.now);
      && bridge.store.View() == (if faults.insert then old(bridge.store.View()) else old(InsertRow(bridge.store.View(), drawn.row, r)))
      && (reply.persisted == if !faults.insert && old(Accepts(bridge.store.View(), r)) then Some(drawn.row) else None)
      && (reply.deliver <==> reply.persisted.Some? && !lookupFails && Deliverable(old(bridge.store.View()), r.channel, text))
      && bridge.events == old(bridge.events) + if reply.persisted.Some? then [MessageEventOf(drawn.row, r)] else []
    ensures reply.Acked? && reply.deliver ==>
      action.SendAction? && drawn.row in bridge.store.rows && bridge.store.rows[drawn.row].sender == Some(operator)
    ensures reply.Acked? && reply.persisted.Some? ==>
      var channel := old(bridge.store.chats)[chat].channel;
      && reply.persisted == Some(drawn.row)
      && bridge.store.rows == old(bridge.store.rows)[drawn.row :=
           Row(channel, Some(chat), OperatorId(mid), Some(operator), Operator, text, New, drawn.now, None)]
      && bridge.events == old(bridge.events) +
           [IncomingMessage(drawn.row, OperatorId(mid), channel, Some(chat), text, New, drawn.now, Sender(operator, Operator))]
      && (reply.deliver <==>
            && !lookupFails && channel in bridge.store.channels && bridge.store.channels[channel] != Widget
            && text != None && text != Some(""))
    ensures reply.Acked? && action.SendAction? && reply.persisted.None? ==>
      bridge.store.rows == old(bridge.store.rows) && bridge.events == old(bridge.events) && !reply.deliver
    ensures reply.Acked? && action.EditAction? ==>
      ToldOfEdit(old(bridge.store.rows), bridge.store.rows, old(bridge.events), bridge.events,
        old(bridge.store.chats)[chat].channel, OperatorId(mid), text, drawn.now, faults.edit)
    ensures reply.Acked? && action.EditAction? ==>
      var channel := old(bridge.store.chats)[chat].channel;
      && reply == Acked(None, false)
      && Edited(old(bridge.store.View()), bridge.store.View(), channel, OperatorId(mid), text, faults.edit, drawn.now)
      && bridge.events == old(bridge.events) + EditEvents(old(bridge.store.View()), channel, OperatorId(mid), text, faults.edit, drawn.now)
  {
    if chatFails {
      return InternalError;
    }
    if chat !in bridge.store.chats {
      return ChatNotFound;
    }
    hide EditRows, AnnounceReads, ReceiptScope;
    var channel := bridge.store.chats[chat].channel;
    var msg := OperatorMessage(channel, chat, operator, mid, text, KindOf(action));
    var persisted := bridge.PersistAndPublish(msg, faults, drawn);
    var deliver := action.SendAction? && persisted.Some? && !lookupFails
      && channel in bridge.store.channels && !bridge.store.channels[channel].Widget? && text.Some? && text.value != "";
    return Acked(persisted, deliver);
  }

  // An edit gives the row under the id, if any, its text, and leaves everything else alone.
  ghost predicate Edited(db: Db, after: Db, channel: Uuid, ext: ExtId, text: Option<string>, fails: bool, now: nat) {
    after == db.(rows := if fails then db.rows else EditRows(db.rows, channel, ext, text, now))
  }

  // One event, about the row as edited and by that row's own author.
  ghost function EditEvents(db: Db, channel: Uuid, ext: ExtId, text: Option<string>, fails: bool, now: nat): seq<IncomingEvent> {
    var found := Find(db.rows, channel, ext);
    if fails || found.None? then []
    else [EditEventOf(found.value, db.rows[found.value].(text := text, editedAt := Some(now)), now)]
  }

  function ReplyToStore(db: Db, operator: Uuid, chat: Uuid, mid: string, text: Option<string>, now: nat): Row
    requires chat in db.chats
  {
    Row(db.chats[chat].channel, Some(chat), OperatorId(mid), Some(operator), Operator, text, New, now, None)
  }

  /** One Send or Edit from the widget, under an id only this client can write. */
  method ProcessWidgetMessage(
      bridge: Bridge, channel: Uuid, client: Uuid, action: Action, mid: Uuid, text: Option<string>, faults: Faults, drawn: Drawn)
    returns (ack: Option<Uuid>)
    requires bridge.store.Valid() && drawn.row !in bridge.store.rows && drawn.chat !in bridge.store.chats
    modifies bridge, bridge.store
    ensures bridge.store.Valid()
    ensures action.SendAction? ==>
      var msg := WidgetMessage(channel, client, mid, text, Message);
      && bridge.store.View() == old(Persisted(bridge.store.View(), msg, faults, drawn))
      && ack == (if old(Stores(bridge.store.View(), msg, faults, drawn)) then Some(drawn.row) else None)
      && bridge.events == old(bridge.events) +
           if ack.Some? then [MessageEventOf(drawn.row, old(RowToStore(bridge.store.View(), msg, faults, drawn)))] else []
    ensures ack.Some? ==>
      var known := client in bridge.store.clients && !faults.clientLookup;
      && ack == Some(drawn.row) && action.SendAction? && drawn.row in bridge.store.rows
      && var chosen := bridge.store.rows[drawn.row].chat;
         && (chosen.Some? <==> known && !faults.chatLookup)
         && (chosen.Some? ==> chosen.value in bridge.store.chats && bridge.store.chats[chosen.value] == Chat(client, channel))
         && bridge.store.rows == old(bridge.store.rows)[drawn.row :=
              Row(channel, chosen, WidgetId(client, mid), if known then Some(client) else None, Client, text, New, drawn.now, None)]
         && bridge.events == old(bridge.events) +
              [IncomingMessage(drawn.row, WidgetId(client, mid), channel, chosen, text, New, drawn.now,
                               Sender(if known then client else 0, Client))]
    ensures action.SendAction? && ack.None? ==> bridge.store.rows == old(bridge.store.rows) && bridge.events == old(bridge.events)
    ensures action.EditAction? ==>
      ToldOfEdit(old(bridge.store.rows), bridge.store.rows, old(bridge.events), bridge.events,
        channel, WidgetId(client, mid), text, drawn.now, faults.edit)
    ensures action.EditAction? ==>
      && ack.None?
      && Edited(old(bridge.store.View()), bridge.store.View(), channel, WidgetId(client, mid), text, faults.edit, drawn.now)
      && bridge.events == old(bridge.events) +
           EditEvents(old(bridge.store.View()), channel, WidgetId(client, mid), text, faults.edit, drawn.now)
  {
    hide Persisted, Stores, RowToStore, ReceiptScope, AnnounceReads, MessageEventOf;
    var msg := WidgetMessage(channel, client, mid, text, KindOf(action));
    ghost var before := bridge.store.View();
    ack := bridge.PersistAndPublish(msg, faults, drawn);
    if action.SendAction? {
      WidgetRowIs(before, channel, client, mid, text, faults, drawn);
    }
  }

  // What a stored widget message puts into the tables, and into its event.
  lemma WidgetRowIs(db: Db, channel: Uuid, client: Uuid, mid: Uuid, text: Option<string>, faults: Faults, drawn: Drawn)
    ensures
      var msg := WidgetMessage(channel, client, mid, text, Message);
      var known := client in db.clients && !faults.clientLookup;
      var after, r := Persisted(db, msg, faults, drawn), RowToStore(db, msg, faults, drawn);
      && after.clients == db.clients
      && (!Stores(db, msg, faults, drawn) ==> after.rows == db.rows)
      && (Stores(db, msg, faults, drawn) ==>
            && after.rows == db.rows[drawn.row := r]
            && r == Row(channel, r.chat, WidgetId(client, mid), if known then Some(client) else None, Client, text, New, drawn.now, None)
            && (r.chat.Some? <==> known && !faults.chatLookup)
            && (r.chat.Some? ==> r.chat.value in after.chats && after.chats[r.chat.value] == Chat(client, channel))
            && MessageEventOf(drawn.row, r) == IncomingMessage(drawn.row, WidgetId(client, mid), channel, r.chat, text, New, drawn.now,
                                                               Sender(if known then client else 0, Client)))
  {
    WidgetIsAddressed(db, channel, client, mid, text, faults, drawn);
    hide Addressed, Verified, Author;
  }

  lemma WidgetIsAddressed(db: Db, channel: Uuid, client: Uuid, mid: Uuid, text: Option<string>, faults: Faults, drawn: Drawn)
    ensures
      var (after, chat, sender) := Addressed(db, WidgetMessage(channel, client, mid, text, Message), faults, drawn);
      var known := client in db.clients && !faults.clientLookup;
      && after.clients == db.clients && after.rows == db.rows && after.channels == db.channels
      && sender == (if known then Some(client) else None)
      && (chat.Some? ==> known && !faults.chatLookup && chat.value in after.chats && after.chats[chat.value] == Chat(client, channel))
      && (known && !faults.chatLookup && channel in db.channels ==> chat.Some?)
  {
  }

  datatype ReadOutcome = ReadFailed | Marked(changed: bool)

  /** A read receipt from the panel or the widget names a row id and bypasses the pipeline. */
  method ReadByRow(bridge: Bridge, id: Uuid, reader: Side, fails: bool) returns (outcome: ReadOutcome)
    requires bridge.store.Valid()
    modifies bridge, bridge.store
    ensures bridge.store.Valid()
    ensures outcome.ReadFailed? <==> fails
    ensures
      var scope := if fails then Nobody else ByIdScope(old(bridge.store.rows), id);
      && bridge.store.View() == old(bridge.store.View()).(rows := MarkRead(old(bridge.store.rows), scope, reader))
      && old(bridge.events) <= bridge.events
      && AnnounceReads(bridge.events[|old(bridge.events)|..], bridge.store.rows, HitIds(old(bridge.store.rows), scope, reader))
      && (outcome.Marked? ==> (outcome.changed <==> HitIds(old(bridge.store.rows), scope, reader) != {}))
    ensures ToldOfReads(old(bridge.store.rows), bridge.store.rows, old(bridge.events), bridge.events)
    ensures bridge.store.rows != old(bridge.store.rows) <==>
      !fails && id in old(bridge.store.rows) && exists k :: UnreadUpTo(old(bridge.store.rows), id, reader, k)
    ensures outcome.Marked? ==> (outcome.changed <==> bridge.store.rows != old(bridge.store.rows))
  {
    if fails {
      NobodyReads(bridge.store.rows, reader);
      return ReadFailed;
    }
    ghost var before := bridge.store.rows;
    var hits := bridge.store.MarkMessagesReadById(id, reader);
    EmptyIsNoElements(hits);
    TurnedUnlessEmpty(before, bridge.store.rows, hits);
    var produced := ReadEvents(bridge.store.rows, hits);
    bridge.events := bridge.events + produced;
    assert bridge.events[|old(bridge.events)|..] == produced;
    AnnouncedAreTold(before, ByIdScope(before, id), reader, old(bridge.events), bridge.events);
    return Marked(hits != []);
  }

  lemma TurnedUnlessEmpty(rows: Rows, after: Rows, hits: seq<Uuid>)
    requires TurnedRead(rows, after, hits) && forall id :: id in hits ==> id in rows && rows[id].status != Read
    ensures after == rows <==> hits == []
  {
    if hits != [] {
      assert hits[0] in hits && after[hits[0]] != rows[hits[0]];
    }
  }

  datatype OperatorRead = ChatLookupFailed | NoSuchChat | InvalidMid | ReadRefused | Done(seen: bool)

  predicate IsInstagram(db: Db, channel: Uuid) {
    channel in db.channels && db.channels[channel].Instagram?
  }

  /** A receipt from the panel. `target` is the row id when the `mid` parses as one. The
      provider is told exactly when something was unread and the chat the panel named is an
      Instagram chat, as far as its provider can be looked up. */
  method ProcessOperatorRead(bridge: Bridge, chat: Uuid, target: Option<Uuid>, chatFails: bool, fails: bool, lookupFails: bool)
    returns (reply: OperatorRead)
    requires bridge.store.Valid()
    modifies bridge, bridge.store
    ensures bridge.store.Valid()
    ensures reply.ChatLookupFailed? <==> chatFails
    ensures reply.NoSuchChat? <==> !chatFails && chat !in old(bridge.store.chats)
    ensures reply.InvalidMid? <==> !chatFails && chat in old(bridge.store.chats) && target.None?
    ensures reply.ReadRefused? <==> !chatFails && chat in old(bridge.store.chats) && target.Some? && fails
    ensures !reply.Done? ==> bridge.store.View() == old(bridge.store.View()) && bridge.events == old(bridge.events)
    ensures reply.Done? ==>
      var scope := ByIdScope(old(bridge.store.rows), target.value);
      && bridge.store.View() == old(bridge.store.View()).(rows := MarkRead(old(bridge.store.rows), scope, Operator))
      && old(bridge.events) <= bridge.events
      && AnnounceReads(bridge.events[|old(bridge.events)|..], bridge.store.rows, HitIds(old(bridge.store.rows), scope, Operator))
      && (reply.seen <==>
            && HitIds(old(bridge.store.rows), scope, Operator) != {}
            && IsInstagram(old(bridge.store.View()), old(bridge.store.chats)[chat].channel) && !lookupFails)
    ensures reply.Done? ==>
      var channel := old(bridge.store.chats)[chat].channel;
      && ToldOfReads(old(bridge.store.rows), bridge.store.rows, old(bridge.events), bridge.events)
      && (reply.seen <==>
            && target.value in old(bridge.store.rows)
            && (exists k :: UnreadUpTo(old(bridge.store.rows), target.value, Operator, k))
            && channel in bridge.store.channels && bridge.store.channels[channel] == Instagram && !lookupFails)
  {
    if chatFails {
      return ChatLookupFailed;
    }
    if chat !in bridge.store.chats {
      return NoSuchChat;
    }
    if target.None? {
      return InvalidMid;
    }
    if fails {
      return ReadRefused;
    }
    var channel := bridge.store.chats[chat].channel;
    hide MarkRead, HitIds, AnnounceReads, ByIdScope, ToldOfReads, UnreadUpTo;
    var outcome := ReadByRow(bridge, target.value, Operator, false);
    var instagram := channel in bridge.store.channels && bridge.store.channels[channel].Instagram?;
    return Done(outcome.changed && instagram && !lookupFails);
  }

  // ── The spawned delivery task ───────────────────────────────────────

  datatype Answer = Sent(p: ExtId) | Refused

  datatype Notice = DeliveredNotice(message: Uuid) | FailedNotice(message: Uuid)

  function MarkedUnless(fails: bool, rows: Rows, id: Uuid, status: MessageStatus): Rows {
    if fails then rows else MarkIfNew(rows, id, status)
  }

  // The rows after a delivery task's statements.
  function AfterDelivery(rows: Rows, id: Uuid, answer: Answer, markFails: bool, adoptFails: bool): Rows {
    match answer
    case Sent(p) =>
      var marked := MarkedUnless(markFails, rows, id, Delivered);
      if adoptFails then marked else Adopt(marked, id, p)
    case Refused => MarkedUnless(markFails, rows, id, Failed)
  }

  /** What a delivery task does with the provider's answer, start to end, whichever of its two
      statements fail. A failed mark does not keep the id from being adopted. */
  method FinishDelivery(store: MessageStore, id: Uuid, answer: Answer, markFails: bool, adoptFails: bool)
    returns (notices: seq<Notice>)
    requires store.Valid()
    modifies store
    ensures store.Valid()
    ensures id in old(store.rows) ==>
      var was := old(store.rows)[id];
      && id in store.rows
      && store.rows[id] == was.(
           status := if was.status != New || markFails then was.status else if answer.Sent? then Delivered else Failed,
           extId := if answer.Sent? && !adoptFails then answer.p else was.extId)
      && forall k :: k in old(store.rows) ==>
           (k !in store.rows <==> answer.Sent? && !adoptFails && k != id && old(Under(store.rows, store.rows[id].channel, answer.p, k)))
    ensures forall k :: k in store.rows && k != id ==> k in old(store.rows) && store.rows[k] == old(store.rows)[k]
    ensures id !in old(store.rows) ==> store.rows == old(store.rows)
    ensures store.View() == old(store.View()).(rows := AfterDelivery(old(store.rows), id, answer, markFails, adoptFails))
    ensures answer.Sent? ==>
      notices == if !markFails && id in old(store.rows) && old(store.rows)[id].status.New? then [DeliveredNotice(id)] else []
    ensures answer.Refused? ==> notices == [FailedNotice(id)]
  {
    DeliveryLeaves(store.rows, id, answer, markFails, adoptFails);
    hide Renamed, MarkIfNew, Adopt;
    notices := [];
    match answer {
      case Sent(p) =>
        if !markFails {
          var changed := store.MarkMessage(id, Delivered);
          notices := if changed then [DeliveredNotice(id)] else [];
        }
        if !adoptFails {
          var found := store.AdoptExternalMessageId(id, p);
        }
      case Refused =>
        if !markFails {
          var changed := store.MarkMessage(id, Failed);
        }
        notices := [FailedNotice(id)];
    }
  }

  lemma DeliveryLeaves(rows: Rows, id: Uuid, answer: Answer, markFails: bool, adoptFails: bool)
    ensures
      var after := AfterDelivery(rows, id, answer, markFails, adoptFails);
      && (id !in rows ==> after == rows)
      && (forall k :: k in after && k != id ==> k in rows && after[k] == rows[k])
      && (id in rows ==>
            && id in after
            && after[id] == rows[id].(
                 status := if rows[id].status != New || markFails then rows[id].status else if answer.Sent? then Delivered else Failed,
                 extId := if answer.Sent? && !adoptFails then answer.p else rows[id].extId)
            && forall k :: k in rows ==>
                 (k !in after <==> answer.Sent? && !adoptFails && k != id && Under(rows, rows[id].channel, answer.p, k)))
  {
    var marked := MarkedUnless(markFails, rows, id, if answer.Sent? then Delivered else Failed);
    if answer.Sent? && id in rows {
      AdoptRenames(marked, id, answer.p);
    }
  }

  // ── What handlers hand to the pipeline ──────────────────────────────

  // A panel message names an existing chat and its channel; a provider or widget message
  // is by its customer, or by nobody when it is an echo.
  ghost predicate FromHandler(db: Db, msg: NewMessage) {
    match msg.conversation
    case Some(InChat(chat)) =>
      && chat in db.chats && db.chats[chat].channel == msg.channel
      && msg.side.Operator? && msg.sender.Some? && msg.sender.value in db.operators
    case Some(OfCustomer(client)) => if msg.side.Client? then msg.sender == Some(client) else msg.sender.None?
    case None => msg.sender.None?
  }

  lemma ChatCreationKeeps(db: Db, client: Uuid, channel: Uuid, id: Uuid)
    requires WellFormed(db) && id !in db.chats
    ensures
      var (after, chat) := FoundOrCreated(db, client, channel, id);
      && WellFormed(after) && after.rows == db.rows && after.clock == db.clock
      && after.clients == db.clients && after.operators == db.operators && after.channels == db.channels
      && (chat.Some? ==> chat.value in after.chats && after.chats[chat.value] == Chat(client, channel))
  {
    var (after, chat) := FoundOrCreated(db, client, channel, id);
    assert forall c :: c in db.chats && FindChat(db.chats, client, channel).None? ==> db.chats[c] != Chat(client, channel);
    forall k | k in after.rows ensures RowPlaced(after, after.rows[k]) {
      assert RowPlaced(db, db.rows[k]);
    }
  }

  /** Whatever a handler passes in, and whichever database calls fail, the tables stay
      well formed: ids unique, one chat per customer and channel, rows in their chat's
      channel by its client, reads closed downward. */
  lemma HandlersKeepWellFormed(db: Db, msg: NewMessage, faults: Faults, drawn: Drawn)
    requires WellFormed(db) && FromHandler(db, msg)
    requires drawn.row !in db.rows && drawn.chat !in db.chats && drawn.now >= db.clock
    ensures WellFormed(Persisted(db, msg, faults, drawn))
  {
    var (after, chat, sender) := Addressed(db, msg, faults, drawn);
    var verified := Verified(db, msg, faults);
    if !(msg.conversation.Some? && msg.conversation.value.InChat?) && verified.Some? && !faults.chatLookup {
      ChatCreationKeeps(db, verified.value, msg.channel, drawn.chat);
    }
    InsertKeeps(after, drawn.row, RowToStore(db, msg, faults, drawn));
  }

  // ── A webhook's messages, in order ──────────────────────────────────

  // Which calls fail for each message, and what the database generates for it.
  datatype Script = Script(faults: nat -> Faults, drawn: nat -> Drawn)

  // For the messages from `n` up to `m`: new ids, all different, and times that do not decrease.
  ghost predicate Draws(db: Db, script: Script, n: nat, m: nat) {
    && (forall i :: n <= i < m ==> script.drawn(i).row !in db.rows && script.drawn(i).chat !in db.chats && script.drawn(i).now >= db.clock)
    && (forall i, j :: n <= i < j < m ==> script.drawn(i).row != script.drawn(j).row)
    && (forall i, j :: n <= i < j < m ==> script.drawn(i).chat != script.drawn(j).chat && script.drawn(i).now <= script.drawn(j).now)
  }

  /** There are such draws for any tables that leave enough ids free. */
  lemma DrawsExist(db: Db, m: Uuid)
    requires (forall id :: id in db.rows ==> id >= m) && (forall id :: id in db.chats ==> id >= m)
    ensures exists script :: Draws(db, script, 0, m)
  {
    var script := Script((i: nat) => NO_FAULTS, (i: nat) => Drawn(Nth(i, m), Nth(i, m), db.clock));
    assert forall i: nat :: i < m ==> script.drawn(i) == Drawn(i, i, db.clock);
    assert Draws(db, script, 0, m);
  }

  ghost function AfterMessages(db: Db, messages: seq<NewMessage>, script: Script, n: nat): Db
    decreases |messages|
  {
    if messages == [] then db
    else AfterMessages(AfterMessage(db, messages[0], script.faults(n), script.drawn(n)), messages[1..], script, n + 1)
  }

  /** Each message is persisted, in order, against what the ones before it left. */
  lemma {:induction false} MessagesGoOneByOne(db: Db, a: seq<NewMessage>, b: seq<NewMessage>, msg: NewMessage, script: Script, n: nat)
    ensures AfterMessages(db, [msg], script, n) == AfterMessage(db, msg, script.faults(n), script.drawn(n))
    ensures AfterMessages(db, a + b, script, n) == AfterMessages(AfterMessages(db, a, script, n), b, script, n + |a|)
    decreases |a|
  {
    hide AfterMessage;
    assert [msg][1..] == [];
    if a == [] {
      assert a + b == b;
    } else {
      assert (a + b)[0] == a[0] && (a + b)[1..] == a[1..] + b;
      MessagesGoOneByOne(AfterMessage(db, a[0], script.faults(n), script.drawn(n)), a[1..], b, msg, script, n + 1);
    }
  }

  lemma DrawsGoOn(db: Db, msg: NewMessage, script: Script, n: nat, m: nat)
    requires n < m && Draws(db, script, n, m)
    ensures Draws(AfterMessage(db, msg, script.faults(n), script.drawn(n)), script, n + 1, m)
  {
    var next := AfterMessage(db, msg, script.faults(n), script.drawn(n));
    MessageAddsAtMostItsDraws(db, msg, script.faults(n), script.drawn(n));
    hide AfterMessage;
    assert next.clock <= script.drawn(n).now;
  }

  lemma MessageAddsAtMostItsDraws(db: Db, msg: NewMessage, faults: Faults, drawn: Drawn)
    requires drawn.now >= db.clock
    ensures
      var next := AfterMessage(db, msg, faults, drawn);
      && next.rows.Keys <= db.rows.Keys + {drawn.row} && next.chats.Keys <= db.chats.Keys + {drawn.chat}
      && db.clock <= next.clock <= drawn.now
  {
    hide AnchorScope, ChatScope, HitIds, Accepts;
  }

  /** The loop of the webhook handlers. */
  method PersistAll(bridge: Bridge, messages: seq<NewMessage>, script: Script)
    requires bridge.store.Valid() && Draws(bridge.store.View(), script, 0, |messages|)
    modifies bridge, bridge.store
    ensures bridge.store.Valid()
    ensures bridge.store.View() == old(AfterMessages(bridge.store.View(), messages, script, 0))
  {
    ghost var end := AfterMessages(bridge.store.View(), messages, script, 0);
    for i := 0 to |messages|
      invariant bridge.store.Valid() && Draws(bridge.store.View(), script, i, |messages|)
      invariant end == AfterMessages(bridge.store.View(), messages[i..], script, i)
    {
      ghost var before := bridge.store.View();
      assert messages[i..][0] == messages[i] && messages[i..][1..] == messages[i + 1..];
      DrawsGoOn(before, messages[i], script, i, |messages|);
      assert script.drawn(i).row !in before.rows && script.drawn(i).chat !in before.chats;
      PersistOne(bridge, messages[i], script.faults(i), script.drawn(i));
    }
    assert messages[|messages|..] == [];
  }

  method PersistOne(bridge: Bridge, msg: NewMessage, faults: Faults, drawn: Drawn)
    requires bridge.store.Valid() && drawn.row !in bridge.store.rows && drawn.chat !in bridge.store.chats
    modifies bridge, bridge.store
    ensures bridge.store.Valid()
    ensures bridge.store.View() == old(AfterMessage(bridge.store.View(), msg, faults, drawn))
  {
    hide Persisted, Stores, RowToStore, EditRows, MarkRead, ReceiptScope, AnnounceReads;
    var persisted := bridge.PersistAndPublish(msg, faults, drawn);
  }

  /** A message, edit or receipt from any handler keeps the tables well formed. */
  lemma MessageKeepsWellFormed(db: Db, msg: NewMessage, faults: Faults, drawn: Drawn)
    requires WellFormed(db) && FromHandler(db, msg)
    requires drawn.row !in db.rows && drawn.chat !in db.chats && drawn.now >= db.clock
    ensures WellFormed(AfterMessage(db, msg, faults, drawn))
  {
    match msg.event {
      case Message => HandlersKeepWellFormed(db, msg, faults, drawn);
      case EditEvent => EditKeeps(db, msg.channel, msg.extId, msg.text, drawn.now);
      case ReadEvent => MarkReadKeeps(db, ReceiptScope(db, msg, faults), msg.side);
      case _ =>
    }
    hide WellFormed, Persisted, EditRows, MarkRead, ReceiptScope;
  }

  // A provider's message, whose conversation is never a panel's chat.
  ghost predicate FromProvider(msg: NewMessage) {
    match msg.conversation
    case Some(OfCustomer(client)) => if msg.side.Client? then msg.sender == Some(client) else msg.sender.None?
    case Some(InChat(_)) => false
    case None => msg.sender.None?
  }

  /** So does a whole list of a provider's messages. */
  lemma {:induction false} MessagesKeepWellFormed(db: Db, messages: seq<NewMessage>, script: Script, n: nat)
    requires WellFormed(db) && Draws(db, script, n, n + |messages|)
    requires forall i :: 0 <= i < |messages| ==> FromProvider(messages[i])
    ensures WellFormed(AfterMessages(db, messages, script, n))
    decreases |messages|
  {
    hide WellFormed, AfterMessage;
    if messages != [] {
      assert FromProvider(messages[0]);
      assert script.drawn(n).row !in db.rows && script.drawn(n).chat !in db.chats && script.drawn(n).now >= db.clock;
      MessageKeepsWellFormed(db, messages[0], script.faults(n), script.drawn(n));
      DrawsGoOn(db, messages[0], script, n, n + |messages|);
      MessagesKeepWellFormed(AfterMessage(db, messages[0], script.faults(n), script.drawn(n)), messages[1..], script, n + 1);
    }
  }

  /** A message whose customer's client is on record is stored in that customer's one chat on
      the channel, created for it if need be. */
  lemma FirstMessageGetsItsChat(db: Db, msg: NewMessage, drawn: Drawn, client: Uuid)
    requires msg.conversation == Some(OfCustomer(client)) && client in db.clients && msg.channel in db.channels
    ensures
      var (after, chat, sender) := Addressed(db, msg, NO_FAULTS, drawn);
      && chat.Some? && chat.value in after.chats && after.chats[chat.value] == Chat(client, msg.channel)
      && RowToStore(db, msg, NO_FAULTS, drawn).chat == chat
      && (msg.side.Client? ==> sender == Some(client))
  {
  }
}
