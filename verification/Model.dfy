/** The entities of src/model.rs and the rows of the tables behind them. */
module Model {
  import opened Wrappers
  import opened ExternalId

  datatype ProviderKind = Instagram | Telegram | Widget

  datatype EventKind = Message | EditEvent | ReadEvent | Reaction | Unknown

  datatype MessageStatus = New | Delivered | Read | Failed

  // `messages.sender_type`.
  datatype Side = Client | Operator

  // Which conversation a message belongs to: the panel names a chat, a provider a customer.
  datatype Conversation = InChat(chat: Uuid) | OfCustomer(client: Uuid)

  datatype NewMessage = NewMessage(
    extId: ExtId,
    channel: Uuid,
    conversation: Option<Conversation>,
    sender: Option<Uuid>,
    side: Side,
    event: EventKind,
    text: Option<string>)

  // The author an event names.
  datatype Sender = Sender(id: Uuid, side: Side)

  // What the pipeline publishes.
  datatype IncomingEvent =
    | IncomingMessage(id: Uuid, extId: ExtId, channel: Uuid, chat: Option<Uuid>, text: Option<string>, status: MessageStatus, createdAt: nat, sender: Sender)
    | IncomingEdit(id: Uuid, extId: ExtId, channel: Uuid, chat: Option<Uuid>, text: Option<string>, editedAt: nat, sender: Sender)
    | IncomingRead(id: Uuid, extId: ExtId, channel: Uuid, chat: Option<Uuid>, sender: Sender)

  // A text handed to a socket: an event, or anything else.
  datatype Payload = EventPayload(event: IncomingEvent) | OtherPayload

  // A row of `messages`, keyed by its id. `createdAt` and `editedAt` are database times.
  datatype Row = Row(
    channel: Uuid,
    chat: Option<Uuid>,
    extId: ExtId,
    sender: Option<Uuid>,
    side: Side,
    text: Option<string>,
    status: MessageStatus,
    createdAt: nat,
    editedAt: Option<nat>)

  // A row of `chats`. Nothing ever writes `chats.status`, so every chat is active.
  datatype Chat = Chat(client: Uuid, channel: Uuid)

  type Rows = map<Uuid, Row>
  type Chats = map<Uuid, Chat>

  datatype Db = Db(
    channels: map<Uuid, ProviderKind>,
    clients: set<Uuid>,
    operators: set<Uuid>,
    chats: Chats,
    rows: Rows,
    clock: nat)

  const EMPTY_DB := Db(map[], {}, {}, map[], map[], 0)
}
