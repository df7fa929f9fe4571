/**
 The pipeline against the protocol: a message processed without interruption is a
 sequence of protocol steps. And what a receipt through the pipeline does not promise.
 */
module PipelineSteps {
  import opened Wrappers
  import opened ExternalId
  import opened Model
  import opened Tables
  import opened Pipeline
  import opened Handlers
  import opened Protocol
  import opened ProtocolInvariants

  // ── The pipeline takes protocol steps ───────────────────────────────

  /** Storing a panel reply is the protocol's StoreReply, and the reply has a delivery task to
      spawn exactly when this call inserted its row. */
  lemma ReplyIsAStep(s: State, step: Step, chatId: Uuid)
    requires Inv(s) && step.StoreReply? && Enabled(s, step)
    ensures
      var msg := OperatorMessage(s.db.chats[step.replyChat].channel, step.replyChat, step.operator, step.mid, step.text, Message);
      var drawn, next := Drawn(step.id, chatId, step.now), Apply(s, step);
      && Persisted(s.db, msg, NO_FAULTS, drawn) == next.db
      && (step.id in next.tasks <==> Stores(s.db, msg, NO_FAULTS, drawn))
      && next.tasks.Keys == s.tasks.Keys + if Stores(s.db, msg, NO_FAULTS, drawn) then {step.id} else {}
  {
    assert step.id !in s.db.rows;
    assert step.id !in s.tasks;
    hide Inv;
  }

  /** The reply's task can take its Spawn step exactly when the handler, its provider lookup
      working, spawns the delivery. */
  lemma DeliverySpawnsExactly(s: State, step: Step)
    requires Inv(s) && step.StoreReply? && Enabled(s, step)
    ensures
      var r, next := ReplyToStore(s.db, step.operator, step.replyChat, step.mid, step.text, step.now), Apply(s, step);
      Accepts(s.db, r) && Deliverable(s.db, r.channel, step.text) <==> Enabled(next, Spawn(step.id))
  {
    assert step.id !in s.db.rows;
    assert step.id !in s.tasks;
    hide Inv;
  }

  // The protocol's steps after the provider's answer, in the order the task takes them.
  ghost function Finished(s: State, m: Uuid, answer: Answer, markFails: bool, adoptFails: bool): State
    requires m in s.tasks && (if answer.Sent? then s.tasks[m] == Accepted(answer.p) else s.tasks[m] == Errored)
  {
    if answer.Sent? then
      var marked := Apply(s, MarkDelivered(m, !markFails));
      if adoptFails then Apply(marked, AdoptAborts(m)) else Apply(marked, AdoptId(m))
    else if markFails then s // the task ends without a statement
    else Apply(s, MarkFailed(m))
  }

  /** What the delivery task does with the provider's answer is those steps, each enabled when
      its turn comes, and changes the rows as they do, whichever statements fail. */
  lemma DeliveryIsSteps(s: State, m: Uuid, answer: Answer, markFails: bool, adoptFails: bool)
    requires m in s.tasks && (if answer.Sent? then s.tasks[m] == Accepted(answer.p) else s.tasks[m] == Errored)
    ensures
      var next := Finished(s, m, answer, markFails, adoptFails);
      && next.db == s.db.(rows := AfterDelivery(s.db.rows, m, answer, markFails, adoptFails))
      && next.tasks == s.tasks[m :=
           match answer
           case Sent(p) => if adoptFails then Stranded(p) else Adopted(p)
           case Refused => if markFails then Errored else Closed]
  {
    hide Adopt, MarkIfNew;
  }

  function InboundMessage(channel: Uuid, ext: ExtId, client: Option<Uuid>, text: Option<string>): NewMessage {
    NewMessage(ext, channel, if client.Some? then Some(OfCustomer(client.value)) else None, client, Client, Message, text)
  }

  function EchoMessage(channel: Uuid, p: ExtId, client: Option<Uuid>, text: Option<string>): NewMessage {
    NewMessage(p, channel, if client.Some? then Some(OfCustomer(client.value)) else None, None, Operator, Message, text)
  }

  // The state once the message's chat is resolved: a chat was opened, or nothing changed.
  ghost function Resolved(s: State, msg: NewMessage, faults: Faults, drawn: Drawn, client: Option<Uuid>): State {
    if Addressed(s.db, msg, faults, drawn).0 == s.db then s
    else if client.Some? && Enabled(s, OpenChat(drawn.chat, client.value, msg.channel))
    then Apply(s, OpenChat(drawn.chat, client.value, msg.channel))
    else s
  }

  lemma ResolvingIsAtMostOneStep(s: State, msg: NewMessage, faults: Faults, drawn: Drawn, client: Option<Uuid>)
    requires Fresh(s, drawn.chat) && s.db.chats.Keys <= s.used
    requires msg.conversation == if client.Some? then Some(OfCustomer(client.value)) else None
    ensures
      var (after, chat, _) := Addressed(s.db, msg, faults, drawn);
      Resolves(s, Resolved(s, msg, faults, drawn, client), after, chat, drawn.chat, msg.channel, client)
  {
  }

  ghost predicate Resolves(s: State, mid: State, after: Db, chat: Option<Uuid>, newChat: Uuid, channel: Uuid, client: Option<Uuid>) {
    && mid.db == after && mid.origin == s.origin && mid.used <= s.used + {newChat}
    && after.rows == s.db.rows && after.clients == s.db.clients && after.clock == s.db.clock
    && (forall c :: c in s.db.chats ==> c in after.chats && after.chats[c] == s.db.chats[c])
    && (chat.Some? ==> client.Some? && client.value in s.db.clients)
    && (chat.Some? ==> chat.value in after.chats && after.chats[chat.value] == Chat(client.value, channel))
  }

  // The provider gave the id to this customer's message, or the widget made it for this client.
  predicate FromCustomer(s: State, channel: Uuid, ext: ExtId, client: Option<Uuid>) {
    match ext
    case WidgetId(c, _) => client == Some(c)
    case InstagramId(_) => (channel, ext) in s.origin && s.origin[(channel, ext)].Inbound?
    case TelegramId(_, _) => (channel, ext) in s.origin && s.origin[(channel, ext)].Inbound?
    case _ => false
  }

  lemma InboundIsEnabled(s: State, mid: State, chat: Option<Uuid>, sender: Option<Uuid>, msg: NewMessage, drawn: Drawn, client: Option<Uuid>)
    requires Fresh(s, drawn.row) && drawn.row != drawn.chat && drawn.now >= s.db.clock
    requires FromCustomer(s, msg.channel, msg.extId, client)
    requires Resolves(s, mid, mid.db, chat, drawn.chat, msg.channel, client)
    requires sender.Some? ==> sender == client && sender.value in s.db.clients
    requires chat.Some? ==> sender == client
    ensures Enabled(mid, StoreInbound(drawn.row, msg.channel, msg.extId, sender, chat, msg.text, drawn.now))
  {
  }

  // The author of a customer's row is that customer, once the clients table confirms it.
  lemma InboundRowIs(db: Db, msg: NewMessage, faults: Faults, drawn: Drawn, client: Option<Uuid>)
    requires msg == InboundMessage(msg.channel, msg.extId, client, msg.text)
    ensures
      var (after, chat, sender) := Addressed(db, msg, faults, drawn);
      && (sender.Some? ==> sender == client && sender.value in db.clients)
      && (chat.Some? ==> sender == client)
      && RowToStore(db, msg, faults, drawn) == InboundRow(msg.channel, msg.extId, sender, chat, msg.text, drawn.now)
  {
  }

  /** Storing a customer's message is at most one chat creation followed by one StoreInbound
      that is enabled there, whichever lookups fail. */
  lemma InboundIsSteps(s: State, msg: NewMessage, faults: Faults, drawn: Drawn, client: Option<Uuid>)
    requires Inv(s) && msg == InboundMessage(msg.channel, msg.extId, client, msg.text)
    requires Fresh(s, drawn.chat) && Fresh(s, drawn.row) && drawn.row != drawn.chat && drawn.now >= s.db.clock
    requires FromCustomer(s, msg.channel, msg.extId, client)
    ensures
      var (_, chat, sender) := Addressed(s.db, msg, faults, drawn);
      var mid := Resolved(s, msg, faults, drawn, client);
      var step := StoreInbound(drawn.row, msg.channel, msg.extId, sender, chat, msg.text, drawn.now);
      && Enabled(mid, step)
      && Persisted(s.db, msg, faults, drawn) == if faults.insert then mid.db else Apply(mid, step).db
  {
    hide Resolved, Resolves, Addressed, RowToStore, InboundRow, Enabled;
    var (_, chat, sender) := Addressed(s.db, msg, faults, drawn);
    ResolvingIsAtMostOneStep(s, msg, faults, drawn, client);
    InboundRowIs(s.db, msg, faults, drawn, client);
    var mid := Resolved(s, msg, faults, drawn, client);
    assert mid.db == Addressed(s.db, msg, faults, drawn).0 by {
      ResolvedDb(s, mid, Addressed(s.db, msg, faults, drawn).0, chat, drawn.chat, msg.channel, client);
    }
    InboundIsEnabled(s, mid, chat, sender, msg, drawn, client);
  }

  lemma ResolvedDb(s: State, mid: State, after: Db, chat: Option<Uuid>, newChat: Uuid, channel: Uuid, client: Option<Uuid>)
    requires Resolves(s, mid, after, chat, newChat, channel, client)
    ensures mid.db == after
  {
  }

  // The provider echoes a message it accepted, and names the customer it was sent to when
  // that customer's client can be resolved.
  predicate EchoOf(s: State, channel: Uuid, p: ExtId, client: Option<Uuid>) {
    && (channel, p) in s.origin
    && match s.origin[(channel, p)]
       case Reply(m) => CustomerOf(s, m).Some? && (client.Some? ==> client == CustomerOf(s, m))
       case OwnApp(customer) => client.Some? ==> client.value == customer
       case Inbound => false
  }

  lemma EchoIsEnabled(s: State, mid: State, chat: Option<Uuid>, msg: NewMessage, drawn: Drawn, client: Option<Uuid>)
    requires Fresh(s, drawn.row) && drawn.row != drawn.chat && drawn.now >= s.db.clock
    requires EchoOf(s, msg.channel, msg.extId, client)
    requires Resolves(s, mid, mid.db, chat, drawn.chat, msg.channel, client)
    ensures Enabled(mid, Echo(drawn.row, msg.channel, msg.extId, chat, msg.text, drawn.now))
  {
    var origin := s.origin[(msg.channel, msg.extId)];
    assert origin.Reply? ==> CustomerOf(mid, origin.message) == CustomerOf(s, origin.message);
  }

  lemma EchoRowIs(db: Db, msg: NewMessage, faults: Faults, drawn: Drawn, client: Option<Uuid>)
    requires msg == EchoMessage(msg.channel, msg.extId, client, msg.text)
    ensures
      var (_, chat, _) := Addressed(db, msg, faults, drawn);
      RowToStore(db, msg, faults, drawn) == EchoRow(msg.channel, msg.extId, chat, msg.text, drawn.now)
  {
  }

  /** Storing an echo is at most one chat creation followed by one Echo that is enabled there. */
  lemma EchoIsSteps(s: State, msg: NewMessage, faults: Faults, drawn: Drawn, client: Option<Uuid>)
    requires Inv(s) && msg == EchoMessage(msg.channel, msg.extId, client, msg.text)
    requires Fresh(s, drawn.chat) && Fresh(s, drawn.row) && drawn.row != drawn.chat && drawn.now >= s.db.clock
    requires EchoOf(s, msg.channel, msg.extId, client)
    ensures
      var (_, chat, _) := Addressed(s.db, msg, faults, drawn);
      var mid := Resolved(s, msg, faults, drawn, client);
      var step := Echo(drawn.row, msg.channel, msg.extId, chat, msg.text, drawn.now);
      && Enabled(mid, step)
      && Persisted(s.db, msg, faults, drawn) == if faults.insert then mid.db else Apply(mid, step).db
  {
    hide Resolved, Resolves, Addressed, RowToStore, EchoRow, Enabled;
    var (_, chat, _) := Addressed(s.db, msg, faults, drawn);
    ResolvingIsAtMostOneStep(s, msg, faults, drawn, client);
    EchoRowIs(s.db, msg, faults, drawn, client);
    var mid := Resolved(s, msg, faults, drawn, client);
    assert mid.db == Addressed(s.db, msg, faults, drawn).0 by {
      ResolvedDb(s, mid, Addressed(s.db, msg, faults, drawn).0, chat, drawn.chat, msg.channel, client);
    }
    EchoIsEnabled(s, mid, chat, msg, drawn, client);
  }

  /** A receipt processed without interruption is its first query, then the fallback when
      that query changed nothing and the customer is known. */
  lemma ReceiptIsSteps(s: State, msg: NewMessage, client: Option<Uuid>)
    requires msg.event.ReadEvent?
    requires msg.conversation == (if client.Some? then Some(OfCustomer(client.value)) else None)
    ensures
      var rc := Receipt(msg.channel, msg.extId, client, msg.side);
      var first := Apply(s, ReceiptPrefix(rc));
      var rows := MarkRead(s.db.rows, ReceiptScope(s.db, msg, NO_FAULTS), msg.side);
      if first.sweeps == s.sweeps then first.db.rows == rows
      else
        && Enabled(first, ReceiptSweep(rc))
        && Apply(first, ReceiptSweep(rc)).db.rows == rows && Apply(first, ReceiptSweep(rc)).sweeps == s.sweeps
  {
    hide Apply, Enabled, MarkRead, HitIds, ChatScope, AnchorScope, ReceiptScope;
    var rc := Receipt(msg.channel, msg.extId, client, msg.side);
    PrefixIs(s, rc);
    var first := Apply(s, ReceiptPrefix(rc));
    if first.sweeps != s.sweeps {
      SweepIs(first, rc);
    }
    ReceiptReads(s.db, msg, client);
  }

  lemma ReceiptReads(db: Db, msg: NewMessage, client: Option<Uuid>)
    requires msg.conversation == (if client.Some? then Some(OfCustomer(client.value)) else None)
    ensures
      var prefix := AnchorScope(db.rows, msg.channel, msg.extId);
      var rows := MarkRead(db.rows, prefix, msg.side);
      MarkRead(db.rows, ReceiptScope(db, msg, NO_FAULTS), msg.side) ==
        if HitIds(db.rows, prefix, msg.side) != {} || client.None? then rows
        else MarkRead(rows, ChatScope(db.chats, client.value, msg.channel), msg.side)
  {
    UnhitIsUnchanged(db.rows, AnchorScope(db.rows, msg.channel, msg.extId), msg.side);
    NobodyReads(db.rows, msg.side);
    hide MarkRead, HitIds, ChatScope, AnchorScope;
  }

  lemma PrefixIs(s: State, rc: Receipt)
    ensures Enabled(s, ReceiptPrefix(rc))
    ensures
      var first := Apply(s, ReceiptPrefix(rc));
      && first.db == s.db.(rows := MarkRead(s.db.rows, PrefixScope(s, rc), rc.reader))
      && first.sweeps == s.sweeps + if HitIds(s.db.rows, PrefixScope(s, rc), rc.reader) == {} && rc.client.Some? then multiset{rc} else multiset{}
  {
    hide MarkRead, HitIds, PrefixScope;
  }

  lemma SweepIs(s: State, rc: Receipt)
    requires rc in s.sweeps && rc.client.Some?
    ensures Enabled(s, ReceiptSweep(rc))
    ensures
      var next := Apply(s, ReceiptSweep(rc));
      next.db == s.db.(rows := MarkRead(s.db.rows, SweepScope(s, rc), rc.reader)) && next.sweeps == s.sweeps - multiset{rc}
  {
    hide MarkRead, HitIds, SweepScope;
  }

  // ── A receipt may reach nobody ──────────────────────────────────────

  /** A receipt whose customer could not be resolved has no fallback: it changes a row exactly
      when its first query does, so one that overtakes both the adoption and the echo is lost. */
  lemma ReceiptWithoutCustomer(s: State, msg: NewMessage)
    requires msg.event.ReadEvent? && msg.conversation.None?
    ensures
      var rc := Receipt(msg.channel, msg.extId, None, msg.side);
      && (Apply(s, ReceiptPrefix(rc)) == s <==> HitIds(s.db.rows, PrefixScope(s, rc), msg.side) == {})
      && (MarkRead(s.db.rows, ReceiptScope(s.db, msg, NO_FAULTS), msg.side) == s.db.rows <==>
            HitIds(s.db.rows, PrefixScope(s, rc), msg.side) == {})
      && (!Taken(s.db.rows, msg.channel, msg.extId) ==> Apply(s, ReceiptPrefix(rc)) == s)
  {
    var rc := Receipt(msg.channel, msg.extId, None, msg.side);
    var prefix := PrefixScope(s, rc);
    NobodyReads(s.db.rows, msg.side);
    UnhitIsUnchanged(s.db.rows, prefix, msg.side);
    HitsChange(s.db.rows, prefix, msg.side);
    assert Owe(s.feed, {}) == s.feed;
    hide MarkRead, HitIds;
  }

  lemma HitsChange(rows: Rows, scope: Scope, reader: Side)
    ensures MarkRead(rows, scope, reader) == rows ==> HitIds(rows, scope, reader) == {}
  {
    if id :| id in HitIds(rows, scope, reader) {
      assert MarkRead(rows, scope, reader)[id] != rows[id];
    }
  }

  // ── A receipt may reach past its anchor ─────────────────────────────

  // A receipt from the chat's own customer, naming a row of that chat.
  ghost predicate AnchoredReceipt(db: Db, msg: NewMessage, anchor: Uuid) {
    && Under(db.rows, msg.channel, msg.extId, anchor)
    && db.rows[anchor].chat.Some? && db.rows[anchor].chat.value in db.chats
    && db.chats[db.rows[anchor].chat.value].channel == msg.channel
    && msg.conversation == Some(OfCustomer(db.chats[db.rows[anchor].chat.value].client))
  }

  // Unread rows of the other side in the anchor's chat, up to the anchor or past it.
  ghost predicate UnreadFor(db: Db, msg: NewMessage, anchor: Uuid, id: Uuid)
    requires anchor in db.rows
  {
    && id in db.rows && db.rows[id].chat == db.rows[anchor].chat && db.rows[id].side != msg.side && Unread(db.rows[id].status)
  }

  function PrefixOf(db: Db, anchor: Uuid): Scope
    requires anchor in db.rows && db.rows[anchor].chat.Some?
  {
    UpTo(db.rows[anchor].chat.value, db.rows[anchor].createdAt)
  }

  lemma ReceiptScopeIs(db: Db, msg: NewMessage, anchor: Uuid)
    requires WellFormed(db) && AnchoredReceipt(db, msg, anchor)
    ensures ReceiptScope(db, msg, NO_FAULTS) ==
      if HitIds(db.rows, PrefixOf(db, anchor), msg.side) != {} then PrefixOf(db, anchor)
      else Everything(db.rows[anchor].chat.value, msg.channel)
  {
  }

  ghost predicate SomethingUpTo(db: Db, msg: NewMessage, anchor: Uuid)
    requires anchor in db.rows
  {
    exists id :: UnreadFor(db, msg, anchor, id) && db.rows[id].createdAt <= db.rows[anchor].createdAt
  }

  ghost predicate NothingAfter(db: Db, msg: NewMessage, anchor: Uuid)
    requires anchor in db.rows
  {
    forall id :: UnreadFor(db, msg, anchor, id) ==> db.rows[id].createdAt <= db.rows[anchor].createdAt
  }

  lemma PrefixHits(db: Db, msg: NewMessage, anchor: Uuid)
    requires anchor in db.rows && db.rows[anchor].chat.Some?
    ensures HitIds(db.rows, PrefixOf(db, anchor), msg.side) != {} <==> SomethingUpTo(db, msg, anchor)
  {
    if id :| UnreadFor(db, msg, anchor, id) && db.rows[id].createdAt <= db.rows[anchor].createdAt {
      assert id in HitIds(db.rows, PrefixOf(db, anchor), msg.side);
    } else if id :| id in HitIds(db.rows, PrefixOf(db, anchor), msg.side) {
      assert UnreadFor(db, msg, anchor, id);
    }
  }

  // Every changed row is at or before the anchor.
  ghost predicate StopsAt(rows: Rows, after: Rows, anchor: Uuid)
    requires anchor in rows && after.Keys == rows.Keys
  {
    forall id :: id in rows && after[id] != rows[id] ==> rows[id].createdAt <= rows[anchor].createdAt
  }

  /** The pipeline keeps a receipt to its anchor exactly when the receipt still has something
      to read at or before it, or nothing is unread after it. The condition is the guard of
      the fallback, seen from the tables. */
  lemma ReceiptStopsAtAnchor(db: Db, msg: NewMessage, anchor: Uuid)
    requires WellFormed(db) && AnchoredReceipt(db, msg, anchor)
    ensures StopsAt(db.rows, MarkRead(db.rows, ReceiptScope(db, msg, NO_FAULTS), msg.side), anchor)
      <==> SomethingUpTo(db, msg, anchor) || NothingAfter(db, msg, anchor)
  {
    ReceiptScopeIs(db, msg, anchor);
    PrefixHits(db, msg, anchor);
    hide WellFormed, HitIds;
    if !SomethingUpTo(db, msg, anchor) {
      SweepStops(db, msg, anchor);
    }
  }

  lemma SweepStops(db: Db, msg: NewMessage, anchor: Uuid)
    requires RowsPlaced(db) && AnchoredReceipt(db, msg, anchor)
    ensures
      var sweep := Everything(db.rows[anchor].chat.value, msg.channel);
      StopsAt(db.rows, MarkRead(db.rows, sweep, msg.side), anchor) <==> NothingAfter(db, msg, anchor)
  {
  }

  const ONE_CHAT := Db(map[1 := Instagram], {2}, {3}, map[4 := Chat(2, 1)],
                       map[5 := Row(1, Some(4), InstagramId("a"), Some(3), Operator, None, New, 1, None),
                           6 := Row(1, Some(4), InstagramId("b"), Some(3), Operator, None, New, 2, None)], 2)

  const FIRST_READ := NewMessage(InstagramId("a"), 1, Some(OfCustomer(2)), Some(2), Client, ReadEvent, None)

  lemma OneChatRowsArePlaced()
    ensures RowsPlaced(ONE_CHAT) && ChatsPlaced(ONE_CHAT)
  {
  }

  lemma OneChatRowsAreClosed()
    ensures UniqueIds(ONE_CHAT.rows) && ReadsClosed(ONE_CHAT.rows) && OneChat(ONE_CHAT.chats)
  {
  }

  /** The example's tables are ones the invariants allow, and its receipt is the customer's own. */
  lemma OneChatIsWellFormed()
    ensures WellFormed(ONE_CHAT) && FromHandler(ONE_CHAT, FIRST_READ) && AnchoredReceipt(ONE_CHAT, FIRST_READ, 5)
  {
    OneChatRowsArePlaced();
    OneChatRowsAreClosed();
    hide RowsPlaced, ChatsPlaced, UniqueIds, ReadsClosed, OneChat;
  }

  lemma OnlyChatIsFound()
    ensures FindChat(ONE_CHAT.chats, 2, 1) == Some(4)
  {
    assert 4 in ONE_CHAT.chats && ONE_CHAT.chats[4] == Chat(2, 1);
  }

  lemma FirstIsFound(rows: Rows)
    requires rows.Keys == {5, 6} && Under(rows, 1, InstagramId("a"), 5) && rows[6].extId == InstagramId("b")
    ensures Find(rows, 1, InstagramId("a")) == Some(5)
  {
  }

  /** A receipt is not idempotent: the first one reads its anchor only, and the same receipt
      again also reads the newer reply. */
  lemma RepeatedReceiptReadsNewer()
    ensures
      var once := MarkRead(ONE_CHAT.rows, ReceiptScope(ONE_CHAT, FIRST_READ, NO_FAULTS), Client);
      var twice := MarkRead(once, ReceiptScope(ONE_CHAT.(rows := once), FIRST_READ, NO_FAULTS), Client);
      && once[5].status.Read? && once[6].status.New?
      && twice[6].status.Read?
  {
    FirstIsFound(ONE_CHAT.rows);
    assert 5 in HitIds(ONE_CHAT.rows, UpTo(4, 1), Client);
    var once := MarkRead(ONE_CHAT.rows, UpTo(4, 1), Client);
    FirstIsFound(once);
    OnlyChatIsFound();
    assert HitIds(once, UpTo(4, 1), Client) == {};
  }
}
