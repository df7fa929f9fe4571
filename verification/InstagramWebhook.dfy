/**
 Reading Instagram webhooks: `parse`, `classify_event` and `resolve_instagram_client` of
 src/provider/instagram.rs. What the channel cache answers, which calls fail and the ids a
 new client may get are parameters.
 */
module InstagramWebhook {
  import opened Wrappers
  import opened ExternalId
  import opened Model
  import opened Tables
  import Handlers

  datatype MessageBody = MessageBody(mid: string, text: Option<string>, isEcho: bool)
  datatype EditBody = EditBody(mid: string, text: Option<string>)

  datatype Event = Event(
    sender: Option<string>,
    recipient: Option<string>,
    message: Option<MessageBody>,
    edit: Option<EditBody>,
    read: Option<Option<string>>,  // a receipt, with or without a mid
    reaction: Option<string>)

  datatype Entry = Entry(id: string, messaging: Option<seq<Event>>, changes: Option<seq<Event>>)

  datatype Webhook = Webhook(objectName: string, entries: seq<Entry>)

  function Classify(event: Event): (EventKind, Option<string>) {
    if event.message.Some? then (Message, Some(event.message.value.mid))
    else if event.edit.Some? then (EditEvent, Some(event.edit.value.mid))
    else if event.read.Some? then (ReadEvent, event.read.value)
    else if event.reaction.Some? then (Reaction, event.reaction)
    else (Unknown, None)
  }

  predicate Interpretable(event: Event) {
    !Classify(event).0.Unknown?
  }

  function OnlyInterpretable(changes: seq<Event>): seq<Event> {
    if changes == [] then []
    else
      var init := OnlyInterpretable(changes[..|changes| - 1]);
      if Interpretable(changes[|changes| - 1]) then init + [changes[|changes| - 1]] else init
  }

  // Both delivery shapes in one list.
  function EventsOf(entry: Entry): seq<Event> {
    (if entry.messaging.Some? then entry.messaging.value else [])
    + (if entry.changes.Some? then OnlyInterpretable(entry.changes.value) else [])
  }

  predicate IsEcho(event: Event) {
    event.message.Some? && event.message.value.isEcho
  }

  // An echo is the mirror of an inbound event.
  function AccountOf(event: Event): Option<string> {
    if IsEcho(event) then event.sender else event.recipient
  }

  function CustomerOf(event: Event): Option<string> {
    if IsEcho(event) then event.recipient else event.sender
  }

  function TextOf(event: Event): Option<string> {
    match Classify(event).0
    case Message => if event.message.Some? then event.message.value.text else None
    case EditEvent => if event.edit.Some? then event.edit.value.text else None
    case _ => None
  }

  // What surrounds the parser while it reads one webhook.
  datatype World = World(
    channels: map<string, Uuid>,  // the live channel of each account
    parsable: set<Uuid>)          // channels whose config parses

  // What one event meets: the id a new client would get, and which lookups fail.
  datatype Draw = Draw(newId: Uuid, clientFails: bool, channelFails: bool)

  // The customer's client, created on first sight.
  function ClientAfter(clients: map<string, Uuid>, customer: Option<string>, draw: Draw): (map<string, Uuid>, Option<Uuid>) {
    if customer.None? || draw.clientFails then (clients, None)
    else if customer.value in clients then (clients, Some(clients[customer.value]))
    else (clients[customer.value := draw.newId], Some(draw.newId))
  }

  predicate Routes(world: World, event: Event) {
    && AccountOf(event).Some? && AccountOf(event).value in world.channels
    && world.channels[AccountOf(event).value] in world.parsable
  }

  function MessageOf(world: World, entryId: string, event: Event, client: Option<Uuid>): NewMessage
    requires Routes(world, event)
  {
    var (kind, mid) := Classify(event);
    NewMessage(
      InstagramId(if mid.Some? then mid.value else entryId),
      world.channels[AccountOf(event).value],
      if client.Some? then Some(OfCustomer(client.value)) else None,
      if IsEcho(event) then None else client,
      if IsEcho(event) then Operator else Client,
      kind,
      TextOf(event))
  }

  // ── The parser ──────────────────────────────────────────────────────

  datatype Progress = Progress(clients: map<string, Uuid>, messages: seq<NewMessage>, failed: bool)

  function AfterEvent(world: World, p: Progress, entryId: string, event: Event, draw: Draw): Progress {
    if p.failed || AccountOf(event).None? then p
    else if draw.channelFails then p.(failed := true)
    else if !Routes(world, event) then p
    else
      var (clients, client) := ClientAfter(p.clients, CustomerOf(event), draw);
      Progress(clients, p.messages + [MessageOf(world, entryId, event, client)], false)
  }

  // The draws are numbered by event.
  function AfterEvents(world: World, p: Progress, entryId: string, events: seq<Event>, draws: nat -> Draw, n: nat): Progress
    decreases |events|
  {
    if events == [] then p
    else AfterEvents(world, AfterEvent(world, p, entryId, events[0], draws(n)), entryId, events[1..], draws, n + 1)
  }

  function AfterEntries(world: World, p: Progress, entries: seq<Entry>, draws: nat -> Draw, n: nat): Progress
    decreases |entries|
  {
    if entries == [] then p
    else
      var events := EventsOf(entries[0]);
      AfterEntries(world, AfterEvents(world, p, entries[0].id, events, draws, n), entries[1..], draws, n + |events|)
  }

  class Parser {
    var clients: map<string, Uuid>  // Instagram rows of `clients`, by external id

    constructor ()
      ensures clients == map[]
    {
      clients := map[];
    }

    method ResolveClient(customer: Option<string>, draw: Draw) returns (client: Option<Uuid>)
      modifies this
      ensures (clients, client) == ClientAfter(old(clients), customer, draw)
    {
      if customer.None? || draw.clientFails {
        return None;
      }
      if customer.value !in clients {
        clients := clients[customer.value := draw.newId];
      }
      return Some(clients[customer.value]);
    }

    method CollectEvents(entry: Entry) returns (events: seq<Event>)
      ensures events == EventsOf(entry)
    {
      events := if entry.messaging.Some? then entry.messaging.value else [];
      if entry.changes.Some? {
        var changes := entry.changes.value;
        ghost var direct := events;
        for i := 0 to |changes|
          invariant events == direct + OnlyInterpretable(changes[..i])
        {
          assert changes[..i + 1][..i] == changes[..i];
          if Interpretable(changes[i]) {
            events := events + [changes[i]];
          }
        }
        assert changes[..|changes|] == changes;
      }
    }

    method ParseEvents(world: World, entryId: string, events: seq<Event>, draws: nat -> Draw, n: nat, before: seq<NewMessage>)
      returns (messages: seq<NewMessage>, failed: bool)
      modifies this
      ensures Progress(clients, messages, failed) == AfterEvents(world, Progress(old(clients), before, false), entryId, events, draws, n)
    {
      messages, failed := before, false;
      ghost var whole := AfterEvents(world, Progress(clients, before, false), entryId, events, draws, n);
      for i := 0 to |events|
        invariant !failed
        invariant whole == AfterEvents(world, Progress(clients, messages, failed), entryId, events[i..], draws, n + i)
      {
        var event := events[i];
        assert events[i..][0] == event && events[i..][1..] == events[i + 1..];
        if AccountOf(event).None? {
          continue;
        }
        if draws(n + i).channelFails {
          failed := true;
          FailedStays(world, Progress(clients, messages, true), entryId, events[i + 1..], draws, n + i + 1);
          return;
        }
        if !Routes(world, event) {
          continue;
        }
        var client := ResolveClient(CustomerOf(event), draws(n + i));
        messages := messages + [MessageOf(world, entryId, event, client)];
      }
      assert events[|events|..] == [];
    }

    /** The messages of one webhook, or none when it is not Instagram's or the channel lookup
        failed. */
    method Parse(world: World, webhook: Webhook, draws: nat -> Draw) returns (result: Option<seq<NewMessage>>)
      modifies this
      ensures
        if webhook.objectName != "instagram" then result.None? && clients == old(clients)
        else
          var end := AfterEntries(world, Progress(old(clients), [], false), webhook.entries, draws, 0);
          clients == end.clients && result == if end.failed then None else Some(end.messages)
    {
      if webhook.objectName != "instagram" {
        return None;
      }
      var messages: seq<NewMessage> := [];
      var n: nat := 0;
      ghost var end := AfterEntries(world, Progress(clients, [], false), webhook.entries, draws, 0);
      for i := 0 to |webhook.entries|
        invariant end == AfterEntries(world, Progress(clients, messages, false), webhook.entries[i..], draws, n)
      {
        var entry := webhook.entries[i];
        assert webhook.entries[i..][0] == entry && webhook.entries[i..][1..] == webhook.entries[i + 1..];
        var events := CollectEvents(entry);
        var failed;
        messages, failed := ParseEvents(world, entry.id, events, draws, n, messages);
        n := n + |events|;
        if failed {
          FailedForGood(world, Progress(clients, messages, true), webhook.entries[i + 1..], draws, n);
          return None;
        }
      }
      assert webhook.entries[|webhook.entries|..] == [];
      return Some(messages);
    }
  }

  lemma {:induction false} FailedStays(world: World, p: Progress, entryId: string, events: seq<Event>, draws: nat -> Draw, n: nat)
    requires p.failed
    ensures AfterEvents(world, p, entryId, events, draws, n) == p
    decreases |events|
  {
    if events != [] {
      FailedStays(world, p, entryId, events[1..], draws, n + 1);
    }
  }

  lemma {:induction false} FailedForGood(world: World, p: Progress, entries: seq<Entry>, draws: nat -> Draw, n: nat)
    requires p.failed
    ensures AfterEntries(world, p, entries, draws, n) == p
    decreases |entries|
  {
    if entries != [] {
      var events := EventsOf(entries[0]);
      FailedStays(world, p, entries[0].id, events, draws, n);
      FailedForGood(world, p, entries[1..], draws, n + |events|);
    }
  }

  // ── Two shapes, one meaning ─────────────────────────────────────────

  lemma {:induction false} InterpretableLength(changes: seq<Event>)
    ensures |OnlyInterpretable(changes)| <= |changes|
    ensures OnlyInterpretable(changes) == changes <==> forall e :: e in changes ==> Interpretable(e)
  {
    if changes != [] {
      var init, last := changes[..|changes| - 1], changes[|changes| - 1];
      InterpretableLength(init);
      assert changes == init + [last];
      assert last in changes;
      if OnlyInterpretable(changes) == changes {
        assert |OnlyInterpretable(init)| == |init|;
        assert OnlyInterpretable(changes)[..|init|] == OnlyInterpretable(init);
      }
    }
  }

  /** The old and the new delivery shape of the same events are read alike exactly when each
      event can be interpreted; the new shape drops the others. */
  lemma ShapesAgree(id: string, events: seq<Event>)
    ensures
      (EventsOf(Entry(id, Some(events), None)) == EventsOf(Entry(id, None, Some(events))))
      <==> (forall e :: e in events ==> Interpretable(e))
  {
    InterpretableLength(events);
    assert EventsOf(Entry(id, Some(events), None)) == events;
    assert EventsOf(Entry(id, None, Some(events))) == OnlyInterpretable(events);
  }

  lemma {:induction false} ChangesSplit(a: seq<Event>, b: seq<Event>)
    ensures OnlyInterpretable(a + b) == OnlyInterpretable(a) + OnlyInterpretable(b)
  {
    if b == [] {
      assert a + b == a;
    } else {
      ChangesSplit(a, b[..|b| - 1]);
      assert (a + b)[..|a + b| - 1] == a + b[..|b| - 1];
    }
  }

  /** What an entry delivers: its `messaging` events, then its `changes`, each list in order. A
      change counts exactly when it has one of the four bodies. */
  lemma EntriesDeliverInOrder(id: string, a: seq<Event>, b: seq<Event>, changes: Option<seq<Event>>, event: Event)
    ensures EventsOf(Entry(id, None, None)) == [] && EventsOf(Entry(id, Some(a), None)) == a
    ensures EventsOf(Entry(id, Some(a), changes)) == a + EventsOf(Entry(id, None, changes))
    ensures EventsOf(Entry(id, None, Some(a + b))) == EventsOf(Entry(id, None, Some(a))) + EventsOf(Entry(id, None, Some(b)))
    ensures EventsOf(Entry(id, None, Some([event]))) ==
      if event.message.Some? || event.edit.Some? || event.read.Some? || event.reaction.Some? then [event] else []
  {
    ChangesSplit(a, b);
    assert [event][..0] == [];
    assert OnlyInterpretable([event]) == if Interpretable(event) then [event] else [];
  }

  // ── One event after another ─────────────────────────────────────────

  lemma {:induction false} EventsSplit(world: World, p: Progress, entryId: string, a: seq<Event>, b: seq<Event>, draws: nat -> Draw, n: nat)
    ensures AfterEvents(world, p, entryId, a + b, draws, n)
      == AfterEvents(world, AfterEvents(world, p, entryId, a, draws, n), entryId, b, draws, n + |a|)
    decreases |a|
  {
    hide AfterEvent;
    if a == [] {
      assert a + b == b;
    } else {
      assert (a + b)[0] == a[0] && (a + b)[1..] == a[1..] + b;
      EventsSplit(world, AfterEvent(world, p, entryId, a[0], draws(n)), entryId, a[1..], b, draws, n + 1);
    }
  }

  lemma {:induction false} EntriesSplit(world: World, p: Progress, a: seq<Entry>, b: seq<Entry>, draws: nat -> Draw, n: nat)
    ensures AfterEntries(world, p, a + b, draws, n)
      == AfterEntries(world, AfterEntries(world, p, a, draws, n), b, draws, n + Count(a))
    decreases |a|
  {
    hide AfterEvents, EventsOf;
    if a == [] {
      assert a + b == b;
    } else {
      var events := EventsOf(a[0]);
      assert (a + b)[0] == a[0] && (a + b)[1..] == a[1..] + b;
      EntriesSplit(world, AfterEvents(world, p, a[0].id, events, draws, n), a[1..], b, draws, n + |events|);
    }
  }

  /** Parsing takes entry after entry and, within one, event after event, none of them left out:
      it can be stopped and resumed between any two, and on one event it is `AfterEvent`. */
  lemma ParsingGoesEventByEvent(world: World, p: Progress, a: seq<Entry>, b: seq<Entry>, id: string, x: seq<Event>, y: seq<Event>,
                                event: Event, draws: nat -> Draw, n: nat)
    ensures AfterEntries(world, p, a + b, draws, n)
      == AfterEntries(world, AfterEntries(world, p, a, draws, n), b, draws, n + Count(a))
    ensures AfterEntries(world, p, [Entry(id, Some(x + y), None)], draws, n)
      == AfterEntries(world, AfterEntries(world, p, [Entry(id, Some(x), None)], draws, n), [Entry(id, Some(y), None)], draws, n + |x|)
    ensures AfterEntries(world, p, [Entry(id, Some([event]), None)], draws, n) == AfterEvent(world, p, id, event, draws(n))
  {
    EntriesSplit(world, p, a, b, draws, n);
    EventsSplit(world, p, id, x, y, draws, n);
    OneEntry(world, p, Entry(id, Some(x), None), draws, n);
    OneEntry(world, p, Entry(id, Some(x + y), None), draws, n);
    OneEntry(world, AfterEvents(world, p, id, x, draws, n), Entry(id, Some(y), None), draws, n + |x|);
    OneEntry(world, p, Entry(id, Some([event]), None), draws, n);
    OneEvent(world, p, id, event, draws, n);
    hide AfterEntries, AfterEvents, AfterEvent;
    assert EventsOf(Entry(id, Some(x), None)) == x && EventsOf(Entry(id, Some(y), None)) == y;
    assert EventsOf(Entry(id, Some(x + y), None)) == x + y && EventsOf(Entry(id, Some([event]), None)) == [event];
  }

  lemma OneEntry(world: World, p: Progress, entry: Entry, draws: nat -> Draw, n: nat)
    ensures AfterEntries(world, p, [entry], draws, n) == AfterEvents(world, p, entry.id, EventsOf(entry), draws, n)
  {
    hide AfterEvents;
  }

  lemma OneEvent(world: World, p: Progress, entryId: string, event: Event, draws: nat -> Draw, n: nat)
    ensures AfterEvents(world, p, entryId, [event], draws, n) == AfterEvent(world, p, entryId, event, draws(n))
  {
    hide AfterEvent;
  }

  // Kind, message id and text of an event: a message before an edit, a receipt and a reaction.
  function Reading(event: Event): (EventKind, Option<string>, Option<string>) {
    match event
    case Event(_, _, Some(MessageBody(mid, text, _)), _, _, _) => (Message, Some(mid), text)
    case Event(_, _, None, Some(EditBody(mid, text)), _, _) => (EditEvent, Some(mid), text)
    case Event(_, _, None, None, Some(mid), _) => (ReadEvent, mid, None)
    case Event(_, _, None, None, None, Some(mid)) => (Reaction, Some(mid), None)
    case Event(_, _, None, None, None, None) => (Unknown, None, None)
  }

  /** What one event does, from its own fields. The account is the recipient, of an echo the
      sender; the customer is the other party. The event fails the webhook when it has an account
      whose lookup fails, and otherwise gives one message exactly when that account has a live
      channel whose config parses: on that channel, in the conversation of the customer's client,
      who is put on record if need be. Messages, echoes, edits, receipts and reactions alike. */
  lemma EventIsRoutedByItsParties(world: World, p: Progress, entryId: string, event: Event, draw: Draw)
    ensures
      var echo := event.message.Some? && event.message.value.isEcho;
      var account, customer := if echo then event.sender else event.recipient, if echo then event.recipient else event.sender;
      var next := AfterEvent(world, p, entryId, event, draw);
      var routed := !p.failed && account.Some? && !draw.channelFails && account.value in world.channels
                    && world.channels[account.value] in world.parsable;
      && (next.failed <==> p.failed || (account.Some? && draw.channelFails))
      && (!routed ==> next.messages == p.messages && next.clients == p.clients)
      && (routed ==>
            var resolved := customer.Some? && !draw.clientFails;
            && (resolved && customer.value !in p.clients ==> next.clients == p.clients[customer.value := draw.newId])
            && (!resolved || customer.value in p.clients ==> next.clients == p.clients)
            && var (kind, mid, text) := Reading(event);
               var client := if resolved then Some(next.clients[customer.value]) else None;
               next.messages == p.messages +
                 [NewMessage(InstagramId(if mid.Some? then mid.value else entryId),
                             world.channels[account.value],
                             if resolved then Some(OfCustomer(client.value)) else None,
                             if echo then None else client,
                             if echo then Operator else Client,
                             kind, text)])
  {
  }

  // ── Echoes mirror inbound messages ──────────────────────────────────

  function Mirrored(event: Event): Event
    requires event.message.Some?
  {
    event.(sender := event.recipient, recipient := event.sender,
           message := Some(event.message.value.(isEcho := !event.message.value.isEcho)))
  }

  /** A message and its echo between the same two parties reach the same channel, the same
      customer's conversation and the same external id; the customer's own is authored by the
      customer, the echo is on the operators' side and has no author. */
  lemma EchoMirrorsInbound(world: World, p: Progress, entryId: string, event: Event, draw: Draw)
    requires event.message.Some? && !event.message.value.isEcho
    ensures
      var inbound := AfterEvent(world, p, entryId, event, draw);
      var echo := AfterEvent(world, p, entryId, Mirrored(event), draw);
      && inbound.clients == echo.clients && inbound.failed == echo.failed
      && |inbound.messages| == |echo.messages|
      && (inbound.messages != p.messages ==>
            && |inbound.messages| == |p.messages| + 1
            && var a, b := inbound.messages[|p.messages|], echo.messages[|p.messages|];
               && b == a.(sender := None, side := Operator)
               && a.side.Client?
               && a.sender == if a.conversation.Some? then Some(a.conversation.value.client) else None)
  {
  }

  // ── What a message carries ──────────────────────────────────────────

  /** An event that is routed becomes one message, with the id and text of its own body: a
      message before an edit, a receipt or a reaction, and the entry's id for a receipt that
      names no message. */
  lemma MessageCarriesItsBody(world: World, p: Progress, entryId: string, event: Event, draw: Draw)
    requires !p.failed && !draw.channelFails && Routes(world, event)
    ensures
      var next := AfterEvent(world, p, entryId, event, draw);
      && !next.failed && |next.messages| == |p.messages| + 1
      && var msg := next.messages[|p.messages|];
         && world.channels[AccountOf(event).value] == msg.channel
         && (msg.event.Message? <==> event.message.Some?)
         && (event.message.Some? ==> msg.extId == InstagramId(event.message.value.mid) && msg.text == event.message.value.text)
         && (msg.event.EditEvent? ==> event.edit.Some? && msg.extId == InstagramId(event.edit.value.mid) && msg.text == event.edit.value.text)
         && (msg.event.ReadEvent? ==> event.read.Some? && msg.text.None?)
         && (msg.event.ReadEvent? ==> msg.extId == InstagramId(if event.read.value.Some? then event.read.value.value else entryId))
         && (msg.event.Unknown? ==> event.edit.None? && event.read.None? && event.reaction.None? && msg.extId == InstagramId(entryId))
  {
  }

  // ── What every parsed message promises the pipeline ─────────────────

  // Routed to the live channel of some account, for some client on record.
  ghost predicate Sensible(world: World, clients: map<string, Uuid>, msg: NewMessage) {
    && (exists account :: account in world.channels && world.channels[account] == msg.channel)
    && msg.extId.InstagramId?
    && (msg.conversation.Some? ==>
          msg.conversation.value.OfCustomer? && exists customer :: customer in clients && clients[customer] == msg.conversation.value.client)
    && (if msg.conversation.Some? && msg.side.Client?
        then msg.sender == Some(msg.conversation.value.client) else msg.sender == None)
  }

  ghost predicate AllSensible(world: World, p: Progress) {
    forall i :: 0 <= i < |p.messages| ==> Sensible(world, p.clients, p.messages[i])
  }

  // No two customers share a client.
  predicate Injective(clients: map<string, Uuid>) {
    forall a, b :: a in clients && b in clients && clients[a] == clients[b] ==> a == b
  }

  // The ids drawn for the events from `n` up to `m` are new and all different.
  ghost predicate FreshDraws(draws: nat -> Draw, n: nat, m: nat, clients: map<string, Uuid>) {
    && (forall i, j :: n <= i < j < m ==> draws(i).newId != draws(j).newId)
    && (forall i :: n <= i < m ==> draws(i).newId !in clients.Values)
  }

  /** There are such draws for any clients that leave enough ids free. */
  lemma FreshDrawsExist(clients: map<string, Uuid>, m: Uuid)
    requires forall c :: c in clients ==> clients[c] >= m
    ensures exists draws :: FreshDraws(draws, 0, m, clients)
  {
    var draws: nat -> Draw := (i: nat) => Draw(Nth(i, m), false, false);
    assert FreshDraws(draws, 0, m, clients);
  }

  // How many events a webhook holds.
  function Count(entries: seq<Entry>): nat {
    if entries == [] then 0 else |EventsOf(entries[0])| + Count(entries[1..])
  }

  ghost predicate Grown(clients: map<string, Uuid>, next: map<string, Uuid>) {
    forall c :: c in clients ==> c in next && next[c] == clients[c]
  }

  lemma StaysSensible(world: World, clients: map<string, Uuid>, next: map<string, Uuid>, msg: NewMessage)
    requires Sensible(world, clients, msg) && Grown(clients, next)
    ensures Sensible(world, next, msg)
  {
  }

  lemma MessageIsSensible(world: World, clients: map<string, Uuid>, entryId: string, event: Event, draw: Draw)
    requires Routes(world, event)
    ensures
      var (next, client) := ClientAfter(clients, CustomerOf(event), draw);
      Grown(clients, next) && Sensible(world, next, MessageOf(world, entryId, event, client))
  {
    var (next, client) := ClientAfter(clients, CustomerOf(event), draw);
    if client.Some? {
      assert CustomerOf(event).value in next && next[CustomerOf(event).value] == client.value;
    }
  }

  lemma EventKeeps(world: World, p: Progress, entryId: string, event: Event, draws: nat -> Draw, n: nat, m: nat)
    requires AllSensible(world, p) && Injective(p.clients) && n < m && FreshDraws(draws, n, m, p.clients)
    ensures
      var next := AfterEvent(world, p, entryId, event, draws(n));
      && AllSensible(world, next) && Injective(next.clients) && FreshDraws(draws, n + 1, m, next.clients)
      && Grown(p.clients, next.clients) && p.messages <= next.messages
  {
    var next := AfterEvent(world, p, entryId, event, draws(n));
    if !p.failed && !draws(n).channelFails && Routes(world, event) {
      MessageIsSensible(world, p.clients, entryId, event, draws(n));
      forall i | 0 <= i < |p.messages| ensures Sensible(world, next.clients, next.messages[i]) {
        StaysSensible(world, p.clients, next.clients, p.messages[i]);
      }
    }
  }

  lemma {:induction false} EventsKeep(world: World, p: Progress, entryId: string, events: seq<Event>, draws: nat -> Draw, n: nat, m: nat)
    requires AllSensible(world, p) && Injective(p.clients) && n + |events| <= m && FreshDraws(draws, n, m, p.clients)
    ensures
      var next := AfterEvents(world, p, entryId, events, draws, n);
      && AllSensible(world, next) && Injective(next.clients) && FreshDraws(draws, n + |events|, m, next.clients)
      && Grown(p.clients, next.clients)
    decreases |events|
  {
    if events != [] {
      EventKeeps(world, p, entryId, events[0], draws, n, m);
      EventsKeep(world, AfterEvent(world, p, entryId, events[0], draws(n)), entryId, events[1..], draws, n + 1, m);
    }
  }

  /** Over a whole webhook: every message names a live channel and, as its conversation, a
      client on record; a customer keeps its client for ever and no two customers share one. */
  lemma {:induction false} ParsedIsSensible(world: World, p: Progress, entries: seq<Entry>, draws: nat -> Draw, n: nat)
    requires AllSensible(world, p) && Injective(p.clients) && FreshDraws(draws, n, n + Count(entries), p.clients)
    ensures
      var end := AfterEntries(world, p, entries, draws, n);
      AllSensible(world, end) && Injective(end.clients) && Grown(p.clients, end.clients)
    decreases |entries|
  {
    if entries != [] {
      var events := EventsOf(entries[0]);
      EventsKeep(world, p, entries[0].id, events, draws, n, n + Count(entries));
      ParsedIsSensible(world, AfterEvents(world, p, entries[0].id, events, draws, n), entries[1..], draws, n + |events|);
    }
  }

  // ── Whose conversation a message joins ──────────────────────────────

  // An event that is routed, with the entry and the draw it is read with.
  datatype Source = Source(entryId: string, event: Event, n: nat)

  // The routed events of a list, up to the first channel lookup that fails.
  function RoutedEvents(world: World, entryId: string, events: seq<Event>, draws: nat -> Draw, n: nat): (seq<Source>, bool)
    decreases |events|
  {
    if events == [] then ([], false)
    else if AccountOf(events[0]).Some? && draws(n).channelFails then ([], true)
    else
      var (rest, fails) := RoutedEvents(world, entryId, events[1..], draws, n + 1);
      ((if Routes(world, events[0]) then [Source(entryId, events[0], n)] else []) + rest, fails)
  }

  function RoutedEntries(world: World, entries: seq<Entry>, draws: nat -> Draw, n: nat): seq<Source>
    decreases |entries|
  {
    if entries == [] then []
    else
      var events := EventsOf(entries[0]);
      var (first, fails) := RoutedEvents(world, entries[0].id, events, draws, n);
      first + if fails then [] else RoutedEntries(world, entries[1..], draws, n + |events|)
  }

  // The message is this event's: its own customer's conversation, on its account's channel.
  predicate Speaks(world: World, clients: map<string, Uuid>, source: Source, draw: Draw, msg: NewMessage) {
    var customer := CustomerOf(source.event);
    && Routes(world, source.event)
    && (customer.Some? && !draw.clientFails ==> customer.value in clients)
    && msg.conversation ==
         (if customer.Some? && !draw.clientFails && customer.value in clients then Some(OfCustomer(clients[customer.value])) else None)
    && msg.channel == world.channels[AccountOf(source.event).value]
    && msg.event == Classify(source.event).0
  }

  /** A routed event's message joins the conversation of the event's own customer, as the
      clients on record after it name it. */
  lemma EventSpeaksForItsCustomer(world: World, p: Progress, entryId: string, event: Event, draws: nat -> Draw, n: nat)
    requires !p.failed && !draws(n).channelFails && Routes(world, event)
    ensures
      var next := AfterEvent(world, p, entryId, event, draws(n));
      && !next.failed && |next.messages| == |p.messages| + 1 && Grown(p.clients, next.clients)
      && Speaks(world, next.clients, Source(entryId, event, n), draws(n), next.messages[|p.messages|])
  {
  }

  // The messages added to `p` are those of the sources, in order.
  ghost predicate SpeakInOrder(world: World, p: Progress, end: Progress, sources: seq<Source>, draws: nat -> Draw) {
    && Grown(p.clients, end.clients) && p.messages <= end.messages && |end.messages| == |p.messages| + |sources|
    && forall i :: 0 <= i < |sources| ==>
         Speaks(world, end.clients, sources[i], draws(sources[i].n), end.messages[|p.messages| + i])
  }

  lemma InOrderTransitively(world: World, p: Progress, q: Progress, end: Progress, first: seq<Source>, rest: seq<Source>, draws: nat -> Draw)
    requires SpeakInOrder(world, p, q, first, draws) && SpeakInOrder(world, q, end, rest, draws)
    ensures SpeakInOrder(world, p, end, first + rest, draws)
  {
    var all := first + rest;
    forall i | 0 <= i < |all| ensures Speaks(world, end.clients, all[i], draws(all[i].n), end.messages[|p.messages| + i]) {
      if i < |first| {
        assert end.messages[|p.messages| + i] == q.messages[|p.messages| + i];
      } else {
        assert all[i] == rest[i - |first|];
        assert |p.messages| + i == |q.messages| + (i - |first|);
      }
    }
  }

  lemma {:induction false} EventsSpeakInOrder(world: World, p: Progress, entryId: string, events: seq<Event>, draws: nat -> Draw, n: nat)
    requires !p.failed
    ensures
      var (sources, fails) := RoutedEvents(world, entryId, events, draws, n);
      var end := AfterEvents(world, p, entryId, events, draws, n);
      SpeakInOrder(world, p, end, sources, draws) && end.failed == fails
    decreases |events|
  {
    if events != [] {
      var q := AfterEvent(world, p, entryId, events[0], draws(n));
      if q.failed {
        FailedStays(world, q, entryId, events[1..], draws, n + 1);
      } else {
        EventsSpeakInOrder(world, q, entryId, events[1..], draws, n + 1);
        var rest := RoutedEvents(world, entryId, events[1..], draws, n + 1).0;
        var first := if Routes(world, events[0]) then [Source(entryId, events[0], n)] else [];
        if Routes(world, events[0]) {
          EventSpeaksForItsCustomer(world, p, entryId, events[0], draws, n);
        }
        assert SpeakInOrder(world, p, q, first, draws);
        InOrderTransitively(world, p, q, AfterEvents(world, q, entryId, events[1..], draws, n + 1), first, rest, draws);
      }
    }
  }

  /** Over a whole webhook the messages are those of the routed events, in order, each in the
      conversation of its own event's customer. */
  lemma {:induction false} MessagesSpeakForTheirCustomers(world: World, p: Progress, entries: seq<Entry>, draws: nat -> Draw, n: nat)
    requires !p.failed
    ensures SpeakInOrder(world, p, AfterEntries(world, p, entries, draws, n), RoutedEntries(world, entries, draws, n), draws)
    decreases |entries|
  {
    if entries != [] {
      var events := EventsOf(entries[0]);
      var q := AfterEvents(world, p, entries[0].id, events, draws, n);
      EventsSpeakInOrder(world, p, entries[0].id, events, draws, n);
      var first := RoutedEvents(world, entries[0].id, events, draws, n).0;
      if q.failed {
        FailedForGood(world, q, entries[1..], draws, n + |events|);
        assert first + [] == first;
      } else {
        MessagesSpeakForTheirCustomers(world, q, entries[1..], draws, n + |events|);
        InOrderTransitively(world, p, q, AfterEntries(world, q, entries[1..], draws, n + |events|), first,
          RoutedEntries(world, entries[1..], draws, n + |events|), draws);
      }
    }
  }

  lemma SourceSpeaks(world: World, p: Progress, end: Progress, sources: seq<Source>, draws: nat -> Draw, i: nat)
    requires SpeakInOrder(world, p, end, sources, draws) && i < |sources|
    ensures |end.messages| == |p.messages| + |sources| && Grown(p.clients, end.clients)
    ensures Speaks(world, end.clients, sources[i], draws(sources[i].n), end.messages[|p.messages| + i])
  {
  }

  lemma SpeakersDiffer(world: World, clients: map<string, Uuid>, a: Source, b: Source, draws: nat -> Draw, x: NewMessage, y: NewMessage)
    requires Injective(clients) && Speaks(world, clients, a, draws(a.n), x) && Speaks(world, clients, b, draws(b.n), y)
    requires CustomerOf(a.event).Some? && !draws(a.n).clientFails && CustomerOf(b.event).Some? && !draws(b.n).clientFails
    ensures CustomerOf(a.event).value in clients && x.conversation == Some(OfCustomer(clients[CustomerOf(a.event).value]))
    ensures x.conversation == y.conversation <==> CustomerOf(a.event) == CustomerOf(b.event)
  {
  }

  /** Two messages of a webhook whose customers could be resolved, inbound or echo, name the same
      conversation exactly when their events have the same customer; a customer on record before
      the webhook keeps that conversation. */
  lemma ConversationsFollowCustomers(world: World, clients: map<string, Uuid>, entries: seq<Entry>, draws: nat -> Draw, i: nat, j: nat)
    requires Injective(clients) && FreshDraws(draws, 0, Count(entries), clients)
    requires
      var sources := RoutedEntries(world, entries, draws, 0);
      && i < |sources| && CustomerOf(sources[i].event).Some? && !draws(sources[i].n).clientFails
      && j < |sources| && CustomerOf(sources[j].event).Some? && !draws(sources[j].n).clientFails
    ensures
      var sources := RoutedEntries(world, entries, draws, 0);
      var end := AfterEntries(world, Progress(clients, [], false), entries, draws, 0);
      && |end.messages| == |sources| && end.messages[i].conversation.Some?
      && (end.messages[i].conversation == end.messages[j].conversation <==>
            CustomerOf(sources[i].event) == CustomerOf(sources[j].event))
      && (CustomerOf(sources[i].event).value in clients ==>
            end.messages[i].conversation == Some(OfCustomer(clients[CustomerOf(sources[i].event).value])))
  {
    hide AfterEntries, RoutedEntries, Speaks, SpeakInOrder, AllSensible, Injective, FreshDraws, Grown;
    var p := Progress(clients, [], false);
    NothingParsed(world, p);
    MessagesSpeakForTheirCustomers(world, p, entries, draws, 0);
    ParsedIsSensible(world, p, entries, draws, 0);
    var sources := RoutedEntries(world, entries, draws, 0);
    var end := AfterEntries(world, p, entries, draws, 0);
    SourceSpeaks(world, p, end, sources, draws, i);
    SourceSpeaks(world, p, end, sources, draws, j);
    SpeakersDiffer(world, end.clients, sources[i], sources[j], draws, end.messages[i], end.messages[j]);
    KeptOnRecord(clients, end.clients, CustomerOf(sources[i].event).value);
  }

  lemma NothingParsed(world: World, p: Progress)
    requires p.messages == []
    ensures AllSensible(world, p)
  {
  }

  lemma KeptOnRecord(clients: map<string, Uuid>, next: map<string, Uuid>, customer: string)
    requires Grown(clients, next)
    ensures customer in clients ==> customer in next && next[customer] == clients[customer]
  {
  }

  // ── From the parser to the tables ───────────────────────────────────

  // The parser's clients are rows of the clients table.
  function WithClients(db: Db, clients: map<string, Uuid>): Db {
    db.(clients := db.clients + clients.Values)
  }

  lemma ClientsKeepWellFormed(db: Db, clients: map<string, Uuid>)
    requires WellFormed(db)
    ensures WellFormed(WithClients(db, clients))
  {
    var next := WithClients(db, clients);
    forall id | id in next.rows ensures RowPlaced(next, next.rows[id]) {
      assert RowPlaced(db, db.rows[id]);
    }
  }

  lemma SensibleIsFromProvider(world: World, clients: map<string, Uuid>, msg: NewMessage)
    requires Sensible(world, clients, msg)
    ensures Handlers.FromProvider(msg)
  {
  }

  lemma {:induction false} EventsGiveMessages(world: World, p: Progress, entryId: string, events: seq<Event>, draws: nat -> Draw, n: nat)
    ensures |AfterEvents(world, p, entryId, events, draws, n).messages| <= |p.messages| + |events|
    decreases |events|
  {
    if events != [] {
      EventsGiveMessages(world, AfterEvent(world, p, entryId, events[0], draws(n)), entryId, events[1..], draws, n + 1);
    }
  }

  lemma {:induction false} MessagesAreEvents(world: World, p: Progress, entries: seq<Entry>, draws: nat -> Draw, n: nat)
    ensures |AfterEntries(world, p, entries, draws, n).messages| <= |p.messages| + Count(entries)
    decreases |entries|
  {
    if entries != [] {
      var events := EventsOf(entries[0]);
      EventsGiveMessages(world, p, entries[0].id, events, draws, n);
      MessagesAreEvents(world, AfterEvents(world, p, entries[0].id, events, draws, n), entries[1..], draws, n + |events|);
    }
  }

  /** A whole webhook, parsed and persisted with whatever calls failing on the way, keeps the
      tables well formed; each message with a conversation names a client then on record. */
  lemma WebhookKeepsWellFormed(world: World, clients: map<string, Uuid>, entries: seq<Entry>, draws: nat -> Draw,
                               db: Db, script: Handlers.Script)
    requires Injective(clients) && FreshDraws(draws, 0, Count(entries), clients)
    requires WellFormed(db) && Handlers.Draws(db, script, 0, Count(entries))
    ensures
      var end := AfterEntries(world, Progress(clients, [], false), entries, draws, 0);
      var ready := WithClients(db, end.clients);
      && WellFormed(Handlers.AfterMessages(ready, end.messages, script, 0))
      && forall i :: 0 <= i < |end.messages| && end.messages[i].conversation.Some? ==>
           end.messages[i].conversation.value.OfCustomer? && end.messages[i].conversation.value.client in ready.clients
  {
    hide WellFormed;
    var p := Progress(clients, [], false);
    ParsedIsSensible(world, p, entries, draws, 0);
    var end := AfterEntries(world, p, entries, draws, 0);
    ClientsKeepWellFormed(db, end.clients);
    MessagesAreEvents(world, p, entries, draws, 0);
    forall i | 0 <= i < |end.messages| ensures Handlers.FromProvider(end.messages[i]) {
      SensibleIsFromProvider(world, end.clients, end.messages[i]);
    }
    forall i | 0 <= i < |end.messages| && end.messages[i].conversation.Some?
      ensures end.messages[i].conversation.value.OfCustomer? && end.messages[i].conversation.value.client in end.clients.Values
    {
      assert Sensible(world, end.clients, end.messages[i]);
    }
    hide AfterEntries, Handlers.AfterMessages, Handlers.FromProvider, Sensible, AllSensible;
    var ready := WithClients(db, end.clients);
    assert Handlers.Draws(ready, script, 0, |end.messages|);
    Handlers.MessagesKeepWellFormed(ready, end.messages, script, 0);
  }
}
