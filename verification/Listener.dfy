/**
 The routing loop of src/listener.rs: which connections an event published by the
 pipeline reaches.
 */
module Listener {
  import opened Wrappers
  import opened ExternalId
  import opened Model
  import opened Tables
  import opened Registry
  import opened Pipeline
  import Protocol
  import ProtocolSteps
  import ProtocolInvariants
  import ProtocolRuns

  function SentToAll(connections: Connections, ids: set<Uuid>, payload: Payload): Connections {
    map k | k in connections ::
      if k in ids then map c | c in connections[k] :: Offer(connections[k][c], payload) else connections[k]
  }

  // The customer of the event's chat. An event without a known chat is dropped.
  function Audience(chats: Chats, payload: Payload): Option<Uuid> {
    if payload.EventPayload? && payload.event.chat.Some? && payload.event.chat.value in chats
    then Some(chats[payload.event.chat.value].client) else None
  }

  ghost function Routed(connections: Connections, operators: set<Uuid>, chats: Chats, payload: Payload): Connections {
    match Audience(chats, payload)
    case None => connections
    case Some(client) =>
      var sender := payload.event.sender.id;
      if payload.event.IncomingRead? then
        if sender == client then SentTo(connections, client, payload) else SentToAll(connections, operators, payload)
      else
        SentToAll(if sender == client then connections else SentTo(connections, client, payload), operators - {sender}, payload)
  }

  method SendToOperators(registry: ClientRegistry, skip: Option<Uuid>, payload: Payload)
    modifies registry`connections
    ensures registry.connections ==
      SentToAll(old(registry.connections), registry.operatorIds - (if skip.Some? then {skip.value} else {}), payload)
  {
    var snapshot := registry.operatorIds;
    var todo := snapshot;
    ghost var sent: set<Uuid> := {};
    while todo != {}
      invariant todo <= snapshot
      invariant sent == snapshot - todo - (if skip.Some? then {skip.value} else {})
      invariant registry.connections == SentToAll(old(registry.connections), sent, payload)
      decreases todo
    {
      var op :| op in todo;
      if skip != Some(op) {
        OneMore(old(registry.connections), sent, op, payload);
        registry.SendTo(op, payload);
        sent := sent + {op};
      }
      todo := todo - {op};
    }
  }

  lemma OneMore(connections: Connections, sent: set<Uuid>, id: Uuid, payload: Payload)
    requires id !in sent
    ensures SentTo(SentToAll(connections, sent, payload), id, payload) == SentToAll(connections, sent + {id}, payload)
  {
  }

  /** One pass of the loop. `chats` is what the chat cache reads through to. */
  method Route(registry: ClientRegistry, chats: Chats, payload: Payload)
    modifies registry`connections
    ensures registry.connections == Routed(old(registry.connections), registry.operatorIds, chats, payload)
  {
    if !payload.EventPayload? || payload.event.chat.None? || payload.event.chat.value !in chats {
      return;
    }
    var client := chats[payload.event.chat.value].client;
    var sender := payload.event.sender.id;
    if payload.event.IncomingRead? {
      if sender == client {
        registry.SendTo(client, payload);
      } else {
        SendToOperators(registry, None, payload);
      }
    } else {
      if sender != client {
        registry.SendTo(client, payload);
      }
      SendToOperators(registry, Some(sender), payload);
    }
  }

  // ── Whom an event about a stored row reaches ────────────────────────

  ghost predicate EventAbout(event: IncomingEvent, id: Uuid, r: Row) {
    || event == MessageEventOf(id, r)
    || event == ReadEventOf(id, r)
    || (event.IncomingEdit? && event == EditEventOf(id, r, event.editedAt))
  }

  // Who is meant to see it.
  predicate Addressee(event: IncomingEvent, r: Row, client: Uuid, operators: set<Uuid>, who: Uuid) {
    if event.IncomingRead? then
      if r.side.Client? then who == client else who in operators
    else
      (who in operators && r.sender != Some(who)) || (who == client && r.side.Operator?)
  }

  lemma SenderIsClient(s: Protocol.State, r: Row)
    requires ProtocolInvariants.Inv(s) && RowPlaced(s.db, r) && r.chat.Some?
    ensures SenderOf(r).id == s.db.chats[r.chat.value].client <==> r.side.Client?
  {
  }

  // Every connection gets the payload once if its owner is addressed, and nothing otherwise.
  ghost predicate ReachesExactly(connections: Connections, after: Connections, payload: Payload, who: set<Uuid>) {
    && after.Keys == connections.Keys
    && forall k :: k in connections ==>
         && after[k].Keys == connections[k].Keys
         && forall c :: c in connections[k] ==>
              after[k][c] == if k in who && |connections[k][c]| < 64 then connections[k][c] + [payload] else connections[k][c]
  }

  lemma RoutedIs(connections: Connections, operators: set<Uuid>, chats: Chats, payload: Payload)
    requires Audience(chats, payload).Some? && Audience(chats, payload).value !in operators
    ensures
      var client, sender := Audience(chats, payload).value, payload.event.sender.id;
      ReachesExactly(connections, Routed(connections, operators, chats, payload), payload,
        if payload.event.IncomingRead? then (if sender == client then {client} else operators)
        else (if sender == client then {} else {client}) + operators - {sender})
  {
  }

  // Nothing a placed row refers to ever goes away.
  ghost predicate Lasting(db: Db, next: Db) {
    && db.channels.Keys <= next.channels.Keys && db.clients <= next.clients && db.operators <= next.operators
    && db.clock <= next.clock
    && forall c :: c in db.chats ==> c in next.chats && next.chats[c] == db.chats[c]
  }

  lemma RowStaysPlaced(db: Db, next: Db, r: Row)
    requires RowPlaced(db, r) && Lasting(db, next)
    ensures RowPlaced(next, r)
  {
  }

  lemma ChatIdsAreUsed(s: Protocol.State)
    requires ProtocolInvariants.Inv(s)
    ensures s.db.chats.Keys + s.db.channels.Keys <= s.used
  {
  }

  lemma InsertLasts(db: Db, id: Uuid, r: Row)
    requires r.createdAt >= db.clock
    ensures Lasting(db, InsertRow(db, id, r))
  {
  }

  lemma RowsLast(db: Db, rows: Rows)
    ensures Lasting(db, db.(rows := rows)) && Lasting(db, db)
  {
  }

  lemma AddLasts(s: Protocol.State, next: Protocol.State, id: Uuid)
    requires ProtocolSteps.IsAdd(s, next, id) && s.db.chats.Keys <= s.used
    ensures Lasting(s.db, next.db)
  {
  }

  lemma StepLasts(s: Protocol.State, step: Protocol.Step)
    requires s.db.chats.Keys + s.db.channels.Keys <= s.used && Protocol.Enabled(s, step)
    ensures Lasting(s.db, Protocol.Apply(s, step).db)
  {
    var next := Protocol.Apply(s, step);
    RowsLast(s.db, next.db.rows);
    hide Protocol.Apply, Protocol.Enabled, ProtocolSteps.QueryScope, ProtocolSteps.RowOfStep, ProtocolSteps.IsAdd;
    hide Lasting, InsertRow, Accepts, MarkRead, HitIds, MarkIfNew, Adopt, EditRows;
    if ProtocolSteps.Queries(step) {
      ProtocolSteps.QueryIsRead(s, step);
    } else if ProtocolSteps.Inserts(step) {
      ProtocolSteps.StepIsInsert(s, step);
      InsertLasts(s.db, step.id, ProtocolSteps.RowOfStep(s, step));
    } else if ProtocolSteps.Adds(step) {
      ProtocolSteps.StepIsAdd(s, step);
      AddLasts(s, next, step.id);
    } else if ProtocolSteps.Marks(step) {
      ProtocolSteps.StepIsMark(s, step);
    } else if step.Edit? {
      ProtocolSteps.EditIs(s, step);
    } else if step.AdoptId? {
      ProtocolSteps.AdoptIs(s, step.id);
    } else {
      ProtocolSteps.StepIsQuiet(s, step);
    }
  }

  lemma {:induction false} RowPlacedLater(run: ProtocolRuns.Run, i: nat, j: nat, r: Row)
    requires ProtocolRuns.IsRun(run) && i <= j < |run.states| && RowPlaced(run.states[i].db, r)
    ensures RowPlaced(run.states[j].db, r)
    ensures r.chat.Some? ==> run.states[j].db.chats[r.chat.value] == run.states[i].db.chats[r.chat.value]
    decreases j
  {
    hide Protocol.Apply, Protocol.Enabled, ProtocolInvariants.Inv;
    if i < j {
      RowPlacedLater(run, i, j - 1, r);
      ProtocolRuns.RunKeepsInv(run, j - 1);
      ChatIdsAreUsed(run.states[j - 1]);
      assert ProtocolRuns.Follows(run.states[j - 1], run.steps[j - 1], run.states[j]);
      StepLasts(run.states[j - 1], run.steps[j - 1]);
      RowStaysPlaced(run.states[j - 1].db, run.states[j].db, r);
    }
  }

  // Routing in a state whose tables hold everything the row refers to.
  lemma EventReaches(s: Protocol.State, id: Uuid, r: Row, event: IncomingEvent, connections: Connections, operators: set<Uuid>)
    requires ProtocolInvariants.Inv(s) && RowPlaced(s.db, r) && r.chat.Some?
    requires EventAbout(event, id, r) && operators <= s.db.operators
    ensures
      var client := s.db.chats[r.chat.value].client;
      ReachesExactly(connections, Routed(connections, operators, s.db.chats, EventPayload(event)), EventPayload(event),
        set k | k in connections && Addressee(event, r, client, operators, k))
  {
    var client := s.db.chats[r.chat.value].client;
    SenderIsClient(s, r);
    assert client in s.db.clients;
    RoutedIs(connections, operators, s.db.chats, EventPayload(event));
  }

  lemma StoredRowIsPlaced(s: Protocol.State, id: Uuid)
    requires ProtocolInvariants.Inv(s) && id in s.db.rows
    ensures RowPlaced(s.db, s.db.rows[id])
  {
  }

  /** An event about a row without a chat is dropped, whatever the row. */
  lemma ChatlessReachNobody(connections: Connections, operators: set<Uuid>, chats: Chats, id: Uuid, r: Row, event: IncomingEvent)
    requires EventAbout(event, id, r) && r.chat.None?
    ensures Routed(connections, operators, chats, EventPayload(event)) == connections
  {
  }

  // Whom an event about a stored row reaches: nobody when the row has no chat.
  function Reached(event: IncomingEvent, r: Row, chats: Chats, connections: Connections, operators: set<Uuid>): set<Uuid>
    requires r.chat.Some? ==> r.chat.value in chats
  {
    if r.chat.None? then {} else set k | k in connections && Addressee(event, r, chats[r.chat.value].client, operators, k)
  }

  /** An event about any stored row, published at any point of any run and routed at any later
      one, even after adoption deleted or renamed the row, reaches the open connections of
      exactly these, each once. Without a chat, nobody. In a chat, messages and edits go to every
      operator but the author, and to the customer unless the customer wrote them; Read events go
      to the customer when the row is client-side and to the operators otherwise, rows without an
      author included. */
  lemma EventsReachTheirAddressees(run: ProtocolRuns.Run, i: nat, j: nat, id: Uuid, event: IncomingEvent,
                                   connections: Connections, operators: set<Uuid>)
    requires ProtocolRuns.IsRun(run) && i <= j < |run.states| && id in run.states[i].db.rows
    requires EventAbout(event, id, run.states[i].db.rows[id]) && operators <= run.states[j].db.operators
    ensures
      var r, chats := run.states[i].db.rows[id], run.states[j].db.chats;
      && (r.chat.Some? ==> r.chat.value in chats)
      && ReachesExactly(connections, Routed(connections, operators, chats, EventPayload(event)), EventPayload(event),
           Reached(event, r, chats, connections, operators))
  {
    var r := run.states[i].db.rows[id];
    if r.chat.None? {
      ChatlessReachNobody(connections, operators, run.states[j].db.chats, id, r, event);
    } else {
      hide ProtocolInvariants.Inv, Routed, ReachesExactly, EventAbout, Addressee;
      ProtocolRuns.RunKeepsInv(run, i);
      StoredRowIsPlaced(run.states[i], id);
      RowPlacedLater(run, i, j, r);
      ProtocolRuns.RunKeepsInv(run, j);
      EventReaches(run.states[j], id, r, event, connections, operators);
    }
  }

  // ── Connected operators and customers ───────────────────────────────

  // What an open connection of `who` should get.
  predicate ForOperator(event: IncomingEvent, r: Row, who: Uuid) {
    if event.IncomingRead? then r.side.Operator? else r.sender != Some(who)
  }

  predicate ForCustomer(event: IncomingEvent, r: Row) {
    if event.IncomingRead? then r.side.Client? else r.side.Operator?
  }

  lemma ReachedIs(connections: Connections, after: Connections, payload: Payload, reached: set<Uuid>, who: Uuid, conn: nat)
    requires ReachesExactly(connections, after, payload, reached) && Has(connections, who, conn)
    ensures Has(after, who, conn)
    ensures after[who][conn] ==
      if who in reached && |connections[who][conn]| < 64 then connections[who][conn] + [payload] else connections[who][conn]
  {
  }

  lemma CustomersAreNoOperators(run: ProtocolRuns.Run, j: nat, chat: Uuid)
    requires ProtocolRuns.IsRun(run) && j < |run.states| && chat in run.states[j].db.chats
    ensures run.states[j].db.chats[chat].client !in run.states[j].db.operators
  {
    ProtocolRuns.RunKeepsInv(run, j);
    assert run.states[j].db.chats[chat].client in run.states[j].db.clients;
  }

  /** Both machines together. Take any run of the protocol and any run of the registry, with an
      event about a stored row published at one moment and routed at another. A connection whose
      `register` as an operator returned gets the event exactly when the row has a chat and the
      event is news to that operator; a connection of the chat's customer, exactly when it is
      news to the customer. */
  lemma ConnectedGetTheirEvents(run: ProtocolRuns.Run, i: nat, j: nat, id: Uuid, event: IncomingEvent,
                                registry: Registry.Run, q: nat, conn: nat)
    requires ProtocolRuns.IsRun(run) && i <= j < |run.states| && id in run.states[i].db.rows
    requires EventAbout(event, id, run.states[i].db.rows[id])
    requires Registry.IsRun(registry) && q < |registry.states| && Registry.At(registry.states[q], conn, Returned)
    requires registry.states[q].reg.operatorIds <= run.states[j].db.operators
    ensures
      var r, chats, reg := run.states[i].db.rows[id], run.states[j].db.chats, registry.states[q].reg;
      var call := registry.states[q].calls[conn];
      var after := Routed(reg.connections, reg.operatorIds, chats, EventPayload(event));
      && (r.chat.Some? ==> r.chat.value in chats) && Has(reg.connections, call.id, conn) && Has(after, call.id, conn)
      && var waiting := reg.connections[call.id][conn];
         var more := if |waiting| < 64 then waiting + [EventPayload(event)] else waiting;
         && (call.isOperator ==>
               after[call.id][conn] == if r.chat.Some? && ForOperator(event, r, call.id) then more else waiting)
         && (r.chat.Some? && call.id == chats[r.chat.value].client ==>
               after[call.id][conn] == if ForCustomer(event, r) then more else waiting)
  {
    var r, chats, reg := run.states[i].db.rows[id], run.states[j].db.chats, registry.states[q].reg;
    var call := registry.states[q].calls[conn];
    ReturnedOperatorsAreListed(registry, q, conn);
    EventsReachTheirAddressees(run, i, j, id, event, reg.connections, reg.operatorIds);
    if r.chat.Some? {
      CustomersAreNoOperators(run, j, r.chat.value);
    }
    hide Routed, ReachesExactly, EventAbout, ProtocolRuns.IsRun, Registry.IsRun;
    ReachedIs(reg.connections, Routed(reg.connections, reg.operatorIds, chats, EventPayload(event)), EventPayload(event),
      Reached(event, r, chats, reg.connections, reg.operatorIds), call.id, conn);
  }

  // ── A message that reaches nobody ───────────────────────────────────

  const CHANNELS: map<Uuid, ProviderKind> := map[1 := Instagram]
  const LOST_ID := InstagramId("m")
  const LOST := Row(1, None, LOST_ID, None, Client, Some("hi"), New, 1, None)
  const NO_FEED := Protocol.INITIAL.feed

  // An operator is on record; a customer writes; the lookup of that customer's client fails.
  function Losing(n: nat): Protocol.State {
    var wrote: map<(Uuid, ExtId), Protocol.Origin> := map[(1, LOST_ID) := Protocol.Inbound];
    if n == 0 then Protocol.INITIAL
    else if n == 1 then Protocol.State(Db(CHANNELS, {}, {}, map[], map[], 0), {NIL, 1}, map[], map[], [], multiset{}, NO_FEED)
    else if n == 2 then Protocol.State(Db(CHANNELS, {}, {3}, map[], map[], 0), {NIL, 1, 3}, map[], map[], [], multiset{}, NO_FEED)
    else if n == 3 then Protocol.State(Db(CHANNELS, {}, {3}, map[], map[], 0), {NIL, 1, 3}, map[], wrote, [], multiset{}, NO_FEED)
    else Protocol.State(Db(CHANNELS, {}, {3}, map[], map[2 := LOST], 1), {NIL, 1, 3, 2}, map[], wrote, [], multiset{}, NO_FEED)
  }

  function LosingStep(n: nat): Protocol.Step {
    if n == 0 then Protocol.AddChannel(1, Instagram)
    else if n == 1 then Protocol.AddOperator(3)
    else if n == 2 then Protocol.CustomerWrites(1, LOST_ID)
    else Protocol.StoreInbound(2, 1, LOST_ID, None, None, Some("hi"), 1)
  }

  ghost predicate LosingFollows(n: nat) {
    ProtocolRuns.Follows(Losing(n), LosingStep(n), Losing(n + 1))
  }

  lemma LosingBegins()
    ensures LosingFollows(0) && LosingFollows(1) && LosingFollows(2)
  {
  }

  lemma LosingEnds()
    ensures LosingFollows(3)
  {
    assert !Taken(Losing(3).db.rows, 1, LOST_ID);
    assert References(Losing(3).db, LOST);
  }

  /** A customer's message stored without a chat is reachable, and its event reaches no operator. */
  lemma LostMessageReachesNoOperator()
    ensures exists run: ProtocolRuns.Run ::
      && ProtocolRuns.IsRun(run) && |run.steps| == 4 && 3 in run.states[4].db.operators
      && 2 in run.states[4].db.rows && run.states[4].db.rows[2] == LOST
    ensures forall connections, chats ::
      Routed(connections, {3}, chats, EventPayload(MessageEventOf(2, LOST))) == connections
  {
    LosingBegins();
    LosingEnds();
    assert 3 in Losing(4).db.operators && 2 in Losing(4).db.rows && Losing(4).db.rows[2] == LOST;
    assert Losing(0) == Protocol.INITIAL;
    forall connections, chats ensures Routed(connections, {3}, chats, EventPayload(MessageEventOf(2, LOST))) == connections {
      ChatlessReachNobody(connections, {3}, chats, 2, LOST, MessageEventOf(2, LOST));
    }
    hide Losing, LosingStep, ProtocolRuns.Follows, Routed;
    var run := ProtocolRuns.Run(seq(5, n requires 0 <= n < 5 => Losing(n)), seq(4, n requires 0 <= n < 4 => LosingStep(n)));
    forall i | 0 <= i < 4 ensures ProtocolRuns.Follows(run.states[i], run.steps[i], run.states[i + 1]) {
      assert LosingFollows(i);
    }
    assert ProtocolRuns.IsRun(run);
  }
}
