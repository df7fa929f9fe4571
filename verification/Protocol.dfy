/**
 The delivery protocol: operator replies, provider echoes, receipts, adoption and other
 traffic, interleaved one SQL statement at a time.

 A step is one statement or transaction of src/db.rs, one provider answer, or one
 published event. Any number of delivery tasks, webhooks and receipts run at once; a
 task that crashes just takes no further step.
 */
module Protocol {
  import opened Wrappers
  import opened ExternalId
  import opened Model
  import opened Tables

  // Where the handler and delivery task of one operator reply stand.
  datatype Phase =
    | Stored                  // persisted, delivery not spawned
    | Spawned                 // delivery task running, nothing sent yet
    | Accepted(p: ExtId)      // the provider took it and answered with p
    | Marked(p: ExtId)        // mark_delivered ran
    | Adopted(p: ExtId)       // adopt_external_message_id committed
    | Stranded(p: ExtId)      // adopt_external_message_id aborted
    | Errored                 // the task holds a delivery error
    | Closed                  // mark_undelivered ran

  predicate Holding(phase: Phase, p: ExtId) {
    (phase.Accepted? || phase.Marked? || phase.Adopted? || phase.Stranded?) && phase.p == p
  }

  // What a provider's message id was given to. Provider ids are never reused.
  datatype Origin =
    | Reply(message: Uuid)    // the reply stored under this row id
    | OwnApp(customer: Uuid)  // the account owner wrote from the provider's app
    | Inbound                 // a customer wrote

  predicate IsProviderId(e: ExtId) {
    e.InstagramId? || e.TelegramId?
  }

  // A read receipt on its way through `persist_and_publish`.
  datatype Receipt = Receipt(channel: Uuid, ext: ExtId, client: Option<Uuid>, reader: Side)

  // Read events, by the id of the row that turned Read.
  datatype Feed = Feed(
    announced: seq<Uuid>,  // published, in order
    owed: set<Uuid>,       // a handler has yet to publish
    lost: set<Uuid>)       // the publish failed

  datatype State = State(
    db: Db,
    used: set<Uuid>,                     // every id ever allocated
    tasks: map<Uuid, Phase>,             // by reply row id
    origin: map<(Uuid, ExtId), Origin>,  // by (channel, provider id)
    sends: seq<Uuid>,                    // provider sends, in order
    sweeps: multiset<Receipt>,           // receipts between their two queries
    feed: Feed)                          // Read events

  const INITIAL := State(EMPTY_DB, {NIL}, map[], map[], [], multiset{}, Feed([], {}, {}))

  datatype Step =
    | AddChannel(id: Uuid, provider: ProviderKind)
    | AddClient(id: Uuid)
    | AddOperator(id: Uuid)
    | OpenChat(id: Uuid, customer: Uuid, channel: Uuid)
    | StoreReply(id: Uuid, replyChat: Uuid, operator: Uuid, mid: string, text: Option<string>, now: nat)
    | Spawn(id: Uuid)
    | GiveUp(id: Uuid)
    | SendAccepted(id: Uuid, p: ExtId)
    | SendRefused(id: Uuid)
    | LoseResponse(id: Uuid)
    | MarkDelivered(id: Uuid, ok: bool)
    | AdoptId(id: Uuid)
    | AdoptAborts(id: Uuid)
    | MarkFailed(id: Uuid)
    | OwnMessage(channel: Uuid, p: ExtId, customer: Uuid)
    | Echo(id: Uuid, channel: Uuid, p: ExtId, chat: Option<Uuid>, text: Option<string>, now: nat)
    | CustomerWrites(channel: Uuid, p: ExtId)
    | StoreInbound(id: Uuid, channel: Uuid, ext: ExtId, client: Option<Uuid>, chat: Option<Uuid>, text: Option<string>, now: nat)
    | Edit(channel: Uuid, ext: ExtId, text: Option<string>, now: nat)
    | ReceiptPrefix(rc: Receipt)
    | ReceiptSweep(rc: Receipt)
    | ReadById(id: Uuid, reader: Side)
    | Announce(id: Uuid)
    | AnnounceFails(id: Uuid)

  predicate Fresh(s: State, id: Uuid) {
    id !in s.used
  }

  // What `find_or_create_chat` hands out: this customer's chat on this channel, or none
  // when the customer or the chat could not be resolved.
  predicate ChatOfCustomer(s: State, chat: Option<Uuid>, client: Uuid, channel: Uuid) {
    chat.Some? ==> chat.value in s.db.chats && s.db.chats[chat.value] == Chat(client, channel)
  }

  function CustomerOf(s: State, m: Uuid): Option<Uuid> {
    if m in s.db.rows && s.db.rows[m].chat.Some? && s.db.rows[m].chat.value in s.db.chats
    then Some(s.db.chats[s.db.rows[m].chat.value].client) else None
  }

  // An echo occurs only for an id the provider gave out, and names the same customer.
  predicate EchoEnabled(s: State, channel: Uuid, p: ExtId, chat: Option<Uuid>) {
    && (channel, p) in s.origin
    && match s.origin[(channel, p)]
       case Reply(m) => CustomerOf(s, m).Some? && ChatOfCustomer(s, chat, CustomerOf(s, m).value, channel)
       case OwnApp(client) => ChatOfCustomer(s, chat, client, channel)
       case Inbound => false
  }

  // `client` is the customer when the lookup succeeded; without one there is no chat.
  predicate InboundEnabled(s: State, channel: Uuid, ext: ExtId, client: Option<Uuid>, chat: Option<Uuid>) {
    && (client.Some? ==> client.value in s.db.clients)
    && (chat.Some? ==> client.Some? && ChatOfCustomer(s, chat, client.value, channel))
    && match ext
       case WidgetId(c, _) => client.Some? ==> client.value == c
       case InstagramId(_) => (channel, ext) in s.origin && s.origin[(channel, ext)].Inbound?
       case TelegramId(_, _) => (channel, ext) in s.origin && s.origin[(channel, ext)].Inbound?
       case _ => false
  }

  ghost predicate Enabled(s: State, step: Step) {
    match step
    case AddChannel(id, _) => Fresh(s, id)
    case AddClient(id) => Fresh(s, id)
    case AddOperator(id) => Fresh(s, id)
    case OpenChat(id, client, channel) =>
      Fresh(s, id) && client in s.db.clients && channel in s.db.channels && FindChat(s.db.chats, client, channel).None?
    case StoreReply(id, chat, operator, _, _, now) =>
      Fresh(s, id) && chat in s.db.chats && operator in s.db.operators && now >= s.db.clock
    case Spawn(id) =>
      && id in s.tasks && s.tasks[id].Stored? && id in s.db.rows
      && s.db.rows[id].text.Some? && s.db.rows[id].text.value != ""
      && s.db.rows[id].channel in s.db.channels && !s.db.channels[s.db.rows[id].channel].Widget?
    case GiveUp(id) => id in s.tasks && s.tasks[id].Spawned?
    case SendAccepted(id, p) =>
      && id in s.tasks && s.tasks[id].Spawned? && id in s.db.rows
      && IsProviderId(p) && (s.db.rows[id].channel, p) !in s.origin
    case SendRefused(id) => id in s.tasks && s.tasks[id].Spawned?
    case LoseResponse(id) => id in s.tasks && s.tasks[id].Accepted?
    case MarkDelivered(id, _) => id in s.tasks && s.tasks[id].Accepted?
    case AdoptId(id) => id in s.tasks && s.tasks[id].Marked?
    case AdoptAborts(id) => id in s.tasks && s.tasks[id].Marked?
    case MarkFailed(id) => id in s.tasks && s.tasks[id].Errored?
    case OwnMessage(channel, p, client) => IsProviderId(p) && (channel, p) !in s.origin
    case Echo(id, channel, p, chat, _, now) => Fresh(s, id) && now >= s.db.clock && EchoEnabled(s, channel, p, chat)
    case CustomerWrites(channel, p) => IsProviderId(p) && (channel, p) !in s.origin
    case StoreInbound(id, channel, ext, client, chat, _, now) =>
      Fresh(s, id) && now >= s.db.clock && InboundEnabled(s, channel, ext, client, chat)
    case Edit(_, _, _, _) => true
    case ReceiptPrefix(_) => true
    case ReceiptSweep(rc) => rc in s.sweeps && rc.client.Some?
    case ReadById(_, _) => true
    case Announce(id) => id in s.feed.owed
    case AnnounceFails(id) => id in s.feed.owed
  }

  // ── Row effects of the steps that write `messages` ──────────────────

  function ReplyRow(s: State, chat: Uuid, operator: Uuid, mid: string, text: Option<string>, now: nat): Row
    requires chat in s.db.chats
  {
    Row(s.db.chats[chat].channel, Some(chat), OperatorId(mid), Some(operator), Operator, text, New, now, None)
  }

  function EchoRow(channel: Uuid, p: ExtId, chat: Option<Uuid>, text: Option<string>, now: nat): Row {
    Row(channel, chat, p, None, Operator, text, New, now, None)
  }

  function InboundRow(channel: Uuid, ext: ExtId, client: Option<Uuid>, chat: Option<Uuid>, text: Option<string>, now: nat): Row {
    Row(channel, chat, ext, client, Client, text, New, now, None)
  }

  ghost function Insert(s: State, id: Uuid, r: Row): State {
    s.(db := InsertRow(s.db, id, r), used := s.used + {id})
  }

  function Owe(feed: Feed, ids: set<Uuid>): Feed {
    feed.(owed := feed.owed + ids)
  }

  function Publish(feed: Feed, id: Uuid): Feed {
    feed.(announced := feed.announced + [id], owed := feed.owed - {id})
  }

  function LosePublish(feed: Feed, id: Uuid): Feed {
    feed.(lost := feed.lost + {id}, owed := feed.owed - {id})
  }

  // A read query: its rows turn Read and its handler owes one event for each.
  function Reads(s: State, scope: Scope, reader: Side): State {
    SetRows(s, MarkRead(s.db.rows, scope, reader)).(feed := Owe(s.feed, HitIds(s.db.rows, scope, reader)))
  }

  function SetRows(s: State, rows: Rows): State {
    s.(db := s.db.(rows := rows))
  }

  function SetPhase(s: State, id: Uuid, phase: Phase): State {
    s.(tasks := s.tasks[id := phase])
  }

  ghost function SweepScope(s: State, rc: Receipt): Scope
    requires rc.client.Some?
  {
    ChatScope(s.db.chats, rc.client.value, rc.channel)
  }

  ghost function PrefixScope(s: State, rc: Receipt): Scope {
    AnchorScope(s.db.rows, rc.channel, rc.ext)
  }

  ghost function Apply(s: State, step: Step): State
    requires Enabled(s, step)
  {
    match step
    case AddChannel(id, provider) => s.(db := s.db.(channels := s.db.channels[id := provider]), used := s.used + {id})
    case AddClient(id) => s.(db := s.db.(clients := s.db.clients + {id}), used := s.used + {id})
    case AddOperator(id) => s.(db := s.db.(operators := s.db.operators + {id}), used := s.used + {id})
    case OpenChat(id, client, channel) =>
      s.(db := s.db.(chats := s.db.chats[id := Chat(client, channel)]), used := s.used + {id})
    case StoreReply(id, chat, operator, mid, text, now) =>
      var r := ReplyRow(s, chat, operator, mid, text, now);
      var stored := Insert(s, id, r);
      // Delivery follows an insert, never a duplicate.
      if Accepts(s.db, r) then SetPhase(stored, id, Stored) else stored
    case Spawn(id) => SetPhase(s, id, Spawned)
    case GiveUp(id) => SetPhase(s, id, Errored)
    case SendAccepted(id, p) =>
      SetPhase(s, id, Accepted(p)).(sends := s.sends + [id], origin := s.origin[(s.db.rows[id].channel, p) := Reply(id)])
    case SendRefused(id) => SetPhase(s, id, Errored).(sends := s.sends + [id])
    case LoseResponse(id) => SetPhase(s, id, Errored)
    case MarkDelivered(id, ok) =>
      var marked := if ok then SetRows(s, MarkIfNew(s.db.rows, id, Delivered)) else s;
      SetPhase(marked, id, Marked(s.tasks[id].p))
    case AdoptId(id) => SetPhase(SetRows(s, Adopt(s.db.rows, id, s.tasks[id].p)), id, Adopted(s.tasks[id].p))
    case AdoptAborts(id) => SetPhase(s, id, Stranded(s.tasks[id].p))
    case MarkFailed(id) => SetPhase(SetRows(s, MarkIfNew(s.db.rows, id, Failed)), id, Closed)
    case OwnMessage(channel, p, client) => s.(origin := s.origin[(channel, p) := OwnApp(client)])
    case Echo(id, channel, p, chat, text, now) => Insert(s, id, EchoRow(channel, p, chat, text, now))
    case CustomerWrites(channel, p) => s.(origin := s.origin[(channel, p) := Inbound])
    case StoreInbound(id, channel, ext, client, chat, text, now) =>
      Insert(s, id, InboundRow(channel, ext, client, chat, text, now))
    case Edit(channel, ext, text, now) => SetRows(s, EditRows(s.db.rows, channel, ext, text, now))
    case ReceiptPrefix(rc) =>
      // The fallback runs whenever the first query changed nothing.
      var swept := Reads(s, PrefixScope(s, rc), rc.reader);
      if HitIds(s.db.rows, PrefixScope(s, rc), rc.reader) == {} && rc.client.Some?
      then swept.(sweeps := s.sweeps + multiset{rc}) else swept
    case ReceiptSweep(rc) => Reads(s, SweepScope(s, rc), rc.reader).(sweeps := s.sweeps - multiset{rc})
    case ReadById(id, reader) => Reads(s, ByIdScope(s.db.rows, id), reader)
    case Announce(id) => s.(feed := Publish(s.feed, id))
    case AnnounceFails(id) => s.(feed := LosePublish(s.feed, id))
  }
}
