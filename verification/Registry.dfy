/**
 The connection registry of src/registry.rs, and its two locks under concurrent calls.
 */
module Registry {
  import opened Wrappers
  import opened ExternalId
  import opened Model

  const CAPACITY: nat := 64

  // The payloads waiting in each open connection's channel, by entity and connection id.
  type Connections = map<Uuid, map<nat, seq<Payload>>>

  datatype Reg = Reg(nextId: nat, connections: Connections, operatorIds: set<Uuid>)

  ghost function Connected(connections: Connections): set<(Uuid, nat)> {
    set id, conn | id in connections && conn in connections[id] :: (id, conn)
  }

  // ── The four operations as functions ────────────────────────────────

  function Opened(connections: Connections, id: Uuid, conn: nat): Connections {
    connections[id := (if id in connections then connections[id] else map[])[conn := []]]
  }

  // What is left of an entity's connections once one is closed.
  function Rest(connections: Connections, id: Uuid, conn: nat): map<nat, seq<Payload>>
    requires id in connections
  {
    connections[id] - {conn}
  }

  predicate IsLast(connections: Connections, id: Uuid, conn: nat) {
    id in connections && connections[id].Keys <= {conn}
  }

  function Dropped(connections: Connections, id: Uuid, conn: nat): Connections {
    if id !in connections then connections
    else if IsLast(connections, id, conn) then connections - {id}
    else connections[id := Rest(connections, id, conn)]
  }

  // A full channel drops the payload.
  function Offer(queue: seq<Payload>, payload: Payload): seq<Payload> {
    if |queue| < CAPACITY then queue + [payload] else queue
  }

  function SentTo(connections: Connections, id: Uuid, payload: Payload): Connections {
    map k | k in connections ::
      if k == id then map c | c in connections[k] :: Offer(connections[k][c], payload) else connections[k]
  }

  // The socket task takes the oldest payload.
  function TakenFrom(connections: Connections, id: Uuid, conn: nat): Connections
    requires id in connections && conn in connections[id] && connections[id][conn] != []
  {
    var conns: map<nat, seq<Payload>> := connections[id][conn := connections[id][conn][1..]];
    connections[id := conns]
  }

  // Each of the entity's channels with room has the payload behind what it had, and that is all.
  ghost predicate Reaches(connections: Connections, after: Connections, id: Uuid, payload: Payload) {
    && after.Keys == connections.Keys
    && (forall k :: k in connections ==> after[k].Keys == connections[k].Keys)
    && forall k, c :: Has(connections, k, c) && Has(after, k, c) ==>
         after[k][c] == if k == id && |connections[k][c]| < 64 then connections[k][c] + [payload] else connections[k][c]
  }

  lemma SentReaches(connections: Connections, id: Uuid, payload: Payload)
    ensures Reaches(connections, SentTo(connections, id, payload), id, payload)
  {
  }

  // What waits in one connection's channel.
  function Waiting(connections: Connections, id: Uuid, conn: nat): seq<Payload> {
    if id in connections && conn in connections[id] then connections[id][conn] else []
  }

  // Every other connection keeps what waits for it.
  ghost predicate OthersWait(connections: Connections, next: Connections, id: Uuid, conn: nat) {
    forall k, c :: !(k == id && c == conn) ==> Waiting(next, k, c) == Waiting(connections, k, c)
  }

  lemma OpenedWaits(connections: Connections, id: Uuid, conn: nat)
    ensures
      var next := Opened(connections, id, conn);
      && next.Keys == connections.Keys + {id} && Waiting(next, id, conn) == []
      && (forall k, c :: Has(next, k, c) <==> Has(connections, k, c) || (k == id && c == conn))
      && OthersWait(connections, next, id, conn)
  {
  }

  class ClientRegistry {
    var nextId: nat
    var connections: Connections
    var operatorIds: set<Uuid>

    function View(): Reg
      reads this
    {
      Reg(nextId, connections, operatorIds)
    }

    constructor ()
      ensures View() == Reg(1, map[], {})
    {
      nextId, connections, operatorIds := 1, map[], {};
    }

    method Register(id: Uuid, isOperator: bool) returns (conn: nat)
      modifies this
      ensures conn == old(nextId) && nextId == conn + 1
      ensures operatorIds == old(operatorIds) + if isOperator then {id} else {}
      ensures connections.Keys == old(connections).Keys + {id} && Waiting(connections, id, conn) == []
      ensures forall k, c :: Has(connections, k, c) <==> Has(old(connections), k, c) || (k == id && c == conn)
      ensures OthersWait(old(connections), connections, id, conn)
      ensures View() == Reg(conn + 1, Opened(old(connections), id, conn), old(operatorIds) + if isOperator then {id} else {})
    {
      OpenedWaits(connections, id, nextId);
      hide Waiting, Has, OthersWait;
      conn := nextId;
      nextId := nextId + 1;
      var conns := if id in connections then connections[id] else map[];
      connections := connections[id := conns[conn := []]];
      if isOperator {
        operatorIds := operatorIds + {id};
      }
    }

    method Deregister(id: Uuid, conn: nat)
      modifies this
      ensures nextId == old(nextId)
      ensures forall k, c :: Has(connections, k, c) <==> Has(old(connections), k, c) && !(k == id && c == conn)
      ensures forall k :: k in connections <==>
        k in old(connections) && (k == id ==> exists c :: c in old(connections)[id] && c != conn)
      ensures operatorIds == if id in old(connections) && id !in connections then old(operatorIds) - {id} else old(operatorIds)
      ensures OthersWait(old(connections), connections, id, conn)
      ensures View() == Reg(old(nextId), Dropped(old(connections), id, conn),
                            if old(IsLast(connections, id, conn)) then old(operatorIds) - {id} else old(operatorIds))
    {
      if id in connections {
        var conns := connections[id] - {conn};
        assert forall k :: k in connections[id] ==> k == conn || k in conns;
        if conns == map[] {
          connections := connections - {id};
          operatorIds := operatorIds - {id};
        } else {
          assert exists k :: k in conns && k in connections[id] && k != conn;
          connections := connections[id := conns];
        }
      }
    }

    method SendTo(id: Uuid, payload: Payload)
      modifies this`connections
      ensures Reaches(old(connections), connections, id, payload)
      ensures connections == SentTo(old(connections), id, payload)
    {
      SentReaches(connections, id, payload);
      hide Reaches;
      if id !in connections {
        assert connections == SentTo(connections, id, payload);
        return;
      }
      var conns := connections[id];
      var todo := conns.Keys;
      while todo != {}
        invariant todo <= conns.Keys && conns.Keys == old(connections)[id].Keys
        invariant forall c :: c in conns ==>
          conns[c] == if c in todo then old(connections)[id][c] else Offer(old(connections)[id][c], payload)
        decreases todo
      {
        var c :| c in todo;
        conns := conns[c := Offer(conns[c], payload)];
        todo := todo - {c};
      }
      connections := connections[id := conns];
      assert connections[id] == SentTo(old(connections), id, payload)[id];
      assert connections == SentTo(old(connections), id, payload);
    }

    /** The sum over entities is the number of open connections. */
    method ConnectionCount() returns (count: nat)
      ensures count == |Connected(connections)|
    {
      count := 0;
      var todo := connections.Keys;
      ghost var seen: Connections := map[];
      while todo != {}
        invariant todo <= connections.Keys
        invariant seen == map k | k in connections && k !in todo :: connections[k]
        invariant count == |Connected(seen)|
        decreases todo
      {
        var id :| id in todo;
        CountOneMore(seen, id, connections[id]);
        count := count + |connections[id]|;
        seen := seen[id := connections[id]];
        todo := todo - {id};
      }
      assert seen == connections;
    }
  }

  ghost function Pairs(id: Uuid, conns: set<nat>): set<(Uuid, nat)> {
    set c | c in conns :: (id, c)
  }

  lemma {:induction false} PairsCount(id: Uuid, conns: set<nat>)
    ensures |Pairs(id, conns)| == |conns|
  {
    if conns != {} {
      var c :| c in conns;
      PairsCount(id, conns - {c});
      assert Pairs(id, conns) == Pairs(id, conns - {c}) + {(id, c)};
    }
  }

  lemma ConnectedIs(connections: Connections, p: (Uuid, nat))
    ensures p in Connected(connections) <==> p.0 in connections && p.1 in connections[p.0]
  {
  }

  lemma OneMoreEntity(connections: Connections, id: Uuid, conns: map<nat, seq<Payload>>)
    requires id !in connections
    ensures Connected(connections[id := conns]) == Connected(connections) + Pairs(id, conns.Keys)
    ensures Connected(connections) !! Pairs(id, conns.Keys)
  {
  }

  lemma CountOneMore(connections: Connections, id: Uuid, conns: map<nat, seq<Payload>>)
    requires id !in connections
    ensures |Connected(connections[id := conns])| == |Connected(connections)| + |conns|
  {
    hide Connected, Pairs;
    OneMoreEntity(connections, id, conns);
    PairsCount(id, conns.Keys);
  }

  // ── The locks ───────────────────────────────────────────────────────

  // A `register` call, named by the connection id it drew, and the life of its connection.
  datatype Stage =
    | Drew      // id drawn, connection not stored
    | Inserted  // connection stored, an operator's id not yet
    | Returned  // the caller owns the connection
    | Gone      // its guard deregistered it

  datatype Call = Call(id: Uuid, isOperator: bool, stage: Stage)

  datatype State = State(
    reg: Reg,
    clearing: Option<Uuid>,  // a deregister holds `connections` and is yet to clear this operator id
    calls: map<nat, Call>,
    registered: nat,         // connections stored so far
    removed: nat)            // connections removed so far

  datatype Step =
    | DrawId(id: Uuid, isOperator: bool)
    | StoreConnection(conn: nat)
    | StoreOperator(conn: nat)
    | RemoveConnection(conn: nat)
    | ClearOperator
    | Send(id: Uuid, payload: Payload)
    | Receive(conn: nat)

  function Queue(s: State, conn: nat): seq<Payload> {
    if conn in s.calls && s.calls[conn].id in s.reg.connections && conn in s.reg.connections[s.calls[conn].id]
    then s.reg.connections[s.calls[conn].id][conn] else []
  }

  predicate At(s: State, conn: nat, stage: Stage) {
    conn in s.calls && s.calls[conn].stage == stage
  }

  // A connection guard exists once `register` returned, and deregisters once.
  predicate Enabled(s: State, step: Step) {
    match step
    case DrawId(_, _) => true
    case StoreConnection(conn) => s.clearing.None? && At(s, conn, Drew)
    case StoreOperator(conn) => At(s, conn, Inserted)
    case RemoveConnection(conn) => s.clearing.None? && At(s, conn, Returned)
    case ClearOperator => s.clearing.Some?
    case Send(_, _) => s.clearing.None?
    case Receive(conn) => Queue(s, conn) != []
  }

  function Moved(calls: map<nat, Call>, conn: nat, stage: Stage): map<nat, Call>
    requires conn in calls
  {
    calls[conn := calls[conn].(stage := stage)]
  }

  function Apply(s: State, step: Step): State
    requires Enabled(s, step)
  {
    match step
    case DrawId(id, isOperator) =>
      s.(reg := s.reg.(nextId := s.reg.nextId + 1), calls := s.calls[s.reg.nextId := Call(id, isOperator, Drew)])
    case StoreConnection(conn) =>
      s.(reg := s.reg.(connections := Opened(s.reg.connections, s.calls[conn].id, conn)),
         calls := Moved(s.calls, conn, if s.calls[conn].isOperator then Inserted else Returned),
         registered := s.registered + 1)
    case StoreOperator(conn) =>
      s.(reg := s.reg.(operatorIds := s.reg.operatorIds + {s.calls[conn].id}), calls := Moved(s.calls, conn, Returned))
    case RemoveConnection(conn) =>
      var id := s.calls[conn].id;
      s.(reg := s.reg.(connections := Dropped(s.reg.connections, id, conn)),
         clearing := if IsLast(s.reg.connections, id, conn) then Some(id) else None,
         calls := Moved(s.calls, conn, Gone),
         removed := s.removed + 1)
    case ClearOperator =>
      s.(reg := s.reg.(operatorIds := s.reg.operatorIds - {s.clearing.value}), clearing := None)
    case Send(id, payload) => s.(reg := s.reg.(connections := SentTo(s.reg.connections, id, payload)))
    case Receive(conn) =>
      s.(reg := s.reg.(connections := TakenFrom(s.reg.connections, s.calls[conn].id, conn)))
  }

  // ── The invariant ───────────────────────────────────────────────────

  predicate Holds(call: Call) {
    call.stage.Inserted? || call.stage.Returned?
  }

  predicate Has(connections: Connections, id: Uuid, conn: nat) {
    id in connections && conn in connections[id]
  }

  // The stored connections are those of the calls that stored one and have not removed it.
  ghost predicate Backed(connections: Connections, calls: map<nat, Call>) {
    && (forall id, c :: Has(connections, id, c) ==> c in calls && calls[c].id == id && Holds(calls[c]))
    && (forall c :: c in calls && Holds(calls[c]) ==> Has(connections, calls[c].id, c))
  }

  // No entity is kept without a connection, and no channel holds more than it can.
  ghost predicate Filled(connections: Connections) {
    && (forall id :: id in connections ==> exists c :: Has(connections, id, c))
    && (forall id, c :: Has(connections, id, c) ==> |connections[id][c]| <= CAPACITY)
  }

  ghost predicate Numbered(calls: map<nat, Call>, nextId: nat) {
    forall c :: c in calls ==> c < nextId
  }

  // Only the id being cleared may be listed without a connection.
  ghost predicate Listed(operatorIds: set<Uuid>, connections: Connections, calls: map<nat, Call>, clearing: Option<Uuid>) {
    && (forall id :: id in operatorIds ==> id in connections || clearing == Some(id))
    && (forall c :: c in calls && calls[c].isOperator && calls[c].stage.Returned? ==> calls[c].id in operatorIds)
    && (clearing.Some? ==> clearing.value !in connections)
  }

  ghost predicate Inv(s: State) {
    && Backed(s.reg.connections, s.calls) && Filled(s.reg.connections) && Numbered(s.calls, s.reg.nextId)
    && Listed(s.reg.operatorIds, s.reg.connections, s.calls, s.clearing)
    && s.registered == s.removed + |Connected(s.reg.connections)|
  }

  ghost function Initial(): State {
    State(Reg(1, map[], {}), None, map[], 0, 0)
  }

  lemma SameHolders(connections: Connections, next: Connections)
    requires forall k, c :: Has(next, k, c) <==> Has(connections, k, c)
    ensures Connected(next) == Connected(connections)
  {
    assert forall k, c | (k, c) in Connected(next) :: Has(next, k, c);
    assert forall k, c | (k, c) in Connected(connections) :: Has(connections, k, c);
  }

  lemma OpenedIs(connections: Connections, id: Uuid, conn: nat)
    ensures
      var next := Opened(connections, id, conn);
      && next.Keys == connections.Keys + {id}
      && (forall k, c :: Has(next, k, c) <==> Has(connections, k, c) || (k == id && c == conn))
      && Connected(next) == Connected(connections) + {(id, conn)}
      && (Filled(connections) ==> Filled(next))
  {
    var next := Opened(connections, id, conn);
    assert Has(next, id, conn);
    forall k | Filled(connections) && k in connections ensures exists c :: Has(next, k, c) {
      var c :| Has(connections, k, c);
      assert Has(next, k, c);
    }
  }

  lemma DroppedIs(connections: Connections, id: Uuid, conn: nat)
    requires Has(connections, id, conn)
    ensures
      var next := Dropped(connections, id, conn);
      && next.Keys == (if IsLast(connections, id, conn) then connections.Keys - {id} else connections.Keys)
      && (forall k, c :: Has(next, k, c) <==> Has(connections, k, c) && !(k == id && c == conn))
      && Connected(next) == Connected(connections) - {(id, conn)}
  {
  }

  lemma DroppedIsFilled(connections: Connections, id: Uuid, conn: nat)
    requires Has(connections, id, conn) && Filled(connections)
    ensures Filled(Dropped(connections, id, conn))
  {
    var next := Dropped(connections, id, conn);
    forall k | k in next ensures exists c :: Has(next, k, c) {
      if k == id {
        var c :| c in connections[id] && c != conn;
        assert Has(next, k, c);
      } else {
        var c :| Has(connections, k, c);
        assert Has(next, k, c);
      }
    }
  }

  lemma SameHoldersFill(connections: Connections, next: Connections)
    requires Filled(connections) && next.Keys == connections.Keys
    requires forall k, c :: Has(next, k, c) <==> Has(connections, k, c)
    requires forall k, c :: Has(next, k, c) ==> |next[k][c]| <= CAPACITY
    ensures Filled(next)
  {
  }

  lemma SentKeeps(connections: Connections, id: Uuid, payload: Payload)
    ensures SentTo(connections, id, payload).Keys == connections.Keys
    ensures forall k, c :: Has(SentTo(connections, id, payload), k, c) <==> Has(connections, k, c)
  {
  }

  lemma SentFits(connections: Connections, id: Uuid, payload: Payload, k: Uuid, c: nat)
    requires Has(connections, k, c) && |connections[k][c]| <= CAPACITY
    ensures
      var next := SentTo(connections, id, payload);
      Has(next, k, c) && |next[k][c]| <= CAPACITY
  {
  }

  lemma SentIs(connections: Connections, id: Uuid, payload: Payload)
    requires Filled(connections)
    ensures
      var next := SentTo(connections, id, payload);
      && next.Keys == connections.Keys
      && (forall k, c :: Has(next, k, c) <==> Has(connections, k, c))
      && Filled(next)
  {
    SentKeeps(connections, id, payload);
    forall k, c | Has(connections, k, c) ensures |SentTo(connections, id, payload)[k][c]| <= CAPACITY {
      SentFits(connections, id, payload, k, c);
    }
    hide SentTo, Filled;
    SameHoldersFill(connections, SentTo(connections, id, payload));
  }

  lemma TakenKeeps(connections: Connections, id: Uuid, conn: nat)
    requires Has(connections, id, conn) && connections[id][conn] != []
    ensures TakenFrom(connections, id, conn).Keys == connections.Keys
    ensures forall k, c :: Has(TakenFrom(connections, id, conn), k, c) <==> Has(connections, k, c)
  {
  }

  lemma TakenFits(connections: Connections, id: Uuid, conn: nat, k: Uuid, c: nat)
    requires Has(connections, id, conn) && connections[id][conn] != []
    requires Has(connections, k, c) && |connections[k][c]| <= CAPACITY
    ensures
      var next := TakenFrom(connections, id, conn);
      Has(next, k, c) && |next[k][c]| <= CAPACITY
  {
  }

  lemma TakenIs(connections: Connections, id: Uuid, conn: nat)
    requires Filled(connections) && Has(connections, id, conn) && connections[id][conn] != []
    ensures
      var next := TakenFrom(connections, id, conn);
      && next.Keys == connections.Keys
      && (forall k, c :: Has(next, k, c) <==> Has(connections, k, c))
      && Filled(next)
  {
    TakenKeeps(connections, id, conn);
    forall k, c | Has(connections, k, c) ensures |TakenFrom(connections, id, conn)[k][c]| <= CAPACITY {
      TakenFits(connections, id, conn, k, c);
    }
    hide TakenFrom, Filled;
    SameHoldersFill(connections, TakenFrom(connections, id, conn));
  }

  lemma StoreLinks(operators: set<Uuid>, connections: Connections, next: Connections, calls: map<nat, Call>, conn: nat, stage: Stage)
    requires conn in calls && calls[conn].stage.Drew? && (stage.Inserted? || (stage.Returned? && !calls[conn].isOperator))
    requires Backed(connections, calls) && Listed(operators, connections, calls, None)
    requires next.Keys == connections.Keys + {calls[conn].id}
    requires forall k, c :: Has(next, k, c) <==> Has(connections, k, c) || (k == calls[conn].id && c == conn)
    ensures Backed(next, Moved(calls, conn, stage)) && Listed(operators, next, Moved(calls, conn, stage), None)
    ensures Moved(calls, conn, stage).Keys == calls.Keys
  {
  }

  lemma NotYetStored(connections: Connections, calls: map<nat, Call>, conn: nat)
    requires Backed(connections, calls) && conn in calls && calls[conn].stage.Drew?
    ensures (calls[conn].id, conn) !in Connected(connections)
  {
    ConnectedIs(connections, (calls[conn].id, conn));
    assert !Has(connections, calls[conn].id, conn);
  }

  lemma StoreKeeps(s: State, conn: nat)
    requires Inv(s) && Enabled(s, StoreConnection(conn))
    ensures Inv(Apply(s, StoreConnection(conn)))
  {
    hide Opened, Connected, Filled, Backed, Listed, Moved;
    var id, stage := s.calls[conn].id, if s.calls[conn].isOperator then Inserted else Returned;
    var next := Opened(s.reg.connections, id, conn);
    OpenedIs(s.reg.connections, id, conn);
    NotYetStored(s.reg.connections, s.calls, conn);
    StoreLinks(s.reg.operatorIds, s.reg.connections, next, s.calls, conn, stage);
  }

  lemma RemoveLinks(operators: set<Uuid>, connections: Connections, next: Connections, calls: map<nat, Call>, conn: nat, last: bool)
    requires conn in calls && calls[conn].stage.Returned?
    requires Backed(connections, calls) && Listed(operators, connections, calls, None)
    requires next.Keys == if last then connections.Keys - {calls[conn].id} else connections.Keys
    requires forall k, c :: Has(next, k, c) <==> Has(connections, k, c) && !(k == calls[conn].id && c == conn)
    ensures Backed(next, Moved(calls, conn, Gone)) && Moved(calls, conn, Gone).Keys == calls.Keys
    ensures Listed(operators, next, Moved(calls, conn, Gone), if last then Some(calls[conn].id) else None)
  {
  }

  lemma RemoveKeeps(s: State, conn: nat)
    requires Inv(s) && Enabled(s, RemoveConnection(conn))
    ensures Inv(Apply(s, RemoveConnection(conn)))
  {
    var id, connections := s.calls[conn].id, s.reg.connections;
    assert Has(connections, id, conn);
    hide Dropped, Connected, Filled, Backed, Listed, IsLast, Moved;
    DroppedIs(connections, id, conn);
    DroppedIsFilled(connections, id, conn);
    RemoveLinks(s.reg.operatorIds, connections, Dropped(connections, id, conn), s.calls, conn, IsLast(connections, id, conn));
    ConnectedIs(connections, (id, conn));
  }

  lemma ClearKeeps(s: State)
    requires Inv(s) && Enabled(s, ClearOperator)
    ensures Inv(Apply(s, ClearOperator))
  {
    hide Connected, Filled;
    assert forall c :: c in s.calls && Holds(s.calls[c]) ==> Has(s.reg.connections, s.calls[c].id, c);
  }

  lemma QueuesKeep(s: State, next: Connections)
    requires Inv(s) && Filled(next) && next.Keys == s.reg.connections.Keys
    requires forall k, c :: Has(next, k, c) <==> Has(s.reg.connections, k, c)
    ensures Inv(s.(reg := s.reg.(connections := next)))
  {
    hide Connected, Filled;
    SameHolders(s.reg.connections, next);
  }

  lemma StoreOperatorKeeps(s: State, conn: nat)
    requires Inv(s) && Enabled(s, StoreOperator(conn))
    ensures Inv(Apply(s, StoreOperator(conn)))
  {
    hide Connected, Filled;
    assert Has(s.reg.connections, s.calls[conn].id, conn);
  }

  lemma DrawKeeps(s: State, id: Uuid, isOperator: bool)
    requires Inv(s)
    ensures Inv(Apply(s, DrawId(id, isOperator)))
  {
  }

  lemma StepKeepsInv(s: State, step: Step)
    requires Inv(s) && Enabled(s, step)
    ensures Inv(Apply(s, step))
  {
    match step {
      case DrawId(id, isOperator) => DrawKeeps(s, id, isOperator);
      case StoreConnection(conn) => StoreKeeps(s, conn);
      case StoreOperator(conn) => StoreOperatorKeeps(s, conn);
      case RemoveConnection(conn) => RemoveKeeps(s, conn);
      case ClearOperator => ClearKeeps(s);
      case Send(id, payload) =>
        SentIs(s.reg.connections, id, payload);
        QueuesKeep(s, SentTo(s.reg.connections, id, payload));
      case Receive(conn) =>
        TakenIs(s.reg.connections, s.calls[conn].id, conn);
        QueuesKeep(s, TakenFrom(s.reg.connections, s.calls[conn].id, conn));
    }
  }

  // ── Runs ────────────────────────────────────────────────────────────

  datatype Run = Run(states: seq<State>, steps: seq<Step>)

  ghost predicate IsRun(run: Run) {
    && |run.states| == |run.steps| + 1 && run.states[0] == Initial()
    && forall i :: 0 <= i < |run.steps| ==> Enabled(run.states[i], run.steps[i]) && run.states[i + 1] == Apply(run.states[i], run.steps[i])
  }

  lemma {:induction false} RunKeepsInv(run: Run, i: nat)
    requires IsRun(run) && i < |run.states|
    ensures Inv(run.states[i])
  {
    if i > 0 {
      RunKeepsInv(run, i - 1);
      StepKeepsInv(run.states[i - 1], run.steps[i - 1]);
    }
  }

  /** A listed operator lacks a connection exactly while a deregister that closed its last one
      is about to clear it. */
  lemma ListedOperatorsAreConnected(run: Run, i: nat, id: Uuid)
    requires IsRun(run) && i < |run.states|
    ensures
      var s := run.states[i];
      && (id in s.reg.operatorIds && id !in s.reg.connections <==> s.clearing == Some(id) && id in s.reg.operatorIds)
      && (id in s.reg.connections <==> exists c :: Has(s.reg.connections, id, c))
  {
    RunKeepsInv(run, i);
  }

  /** An operator whose `register` returned is listed and holds its connection until that
      connection's own deregister, whatever its other connections do. */
  lemma ReturnedOperatorsAreListed(run: Run, i: nat, conn: nat)
    requires IsRun(run) && i < |run.states| && At(run.states[i], conn, Returned)
    ensures
      var (s, call) := (run.states[i], run.states[i].calls[conn]);
      && Has(s.reg.connections, call.id, conn)
      && (call.isOperator ==> call.id in s.reg.operatorIds)
  {
    RunKeepsInv(run, i);
  }

  /** The open connections number the registrations less the removals. */
  lemma CountBalances(run: Run, i: nat)
    requires IsRun(run) && i < |run.states|
    ensures |Connected(run.states[i].reg.connections)| == run.states[i].registered - run.states[i].removed
  {
    RunKeepsInv(run, i);
  }

  lemma {:induction false} NextIdGrows(run: Run, i: nat, j: nat)
    requires IsRun(run) && i <= j < |run.states|
    ensures run.states[i].reg.nextId <= run.states[j].reg.nextId
    decreases j
  {
    if i < j {
      NextIdGrows(run, i, j - 1);
    }
  }

  // ── In the order they were sent ─────────────────────────────────────

  predicate Open(s: State, conn: nat) {
    conn in s.calls && Has(s.reg.connections, s.calls[conn].id, conn)
  }

  // What a step puts into the connection's channel: a payload for its entity, unless full.
  function Put(s: State, step: Step, conn: nat): seq<Payload> {
    if step.Send? && Open(s, conn) && s.calls[conn].id == step.id && |Queue(s, conn)| < 64 then [step.payload] else []
  }

  // What it hands to the connection's socket.
  function HandedOut(s: State, step: Step, conn: nat): seq<Payload> {
    if step.Receive? && step.conn == conn && Queue(s, conn) != [] then [Queue(s, conn)[0]] else []
  }

  ghost function Accepted(run: Run, n: nat, conn: nat): seq<Payload>
    requires n <= |run.steps| <= |run.states|
  {
    if n == 0 then [] else Accepted(run, n - 1, conn) + Put(run.states[n - 1], run.steps[n - 1], conn)
  }

  ghost function Received(run: Run, n: nat, conn: nat): seq<Payload>
    requires n <= |run.steps| <= |run.states|
  {
    if n == 0 then [] else Received(run, n - 1, conn) + HandedOut(run.states[n - 1], run.steps[n - 1], conn)
  }

  lemma SendQueues(s: State, id: Uuid, payload: Payload, conn: nat)
    requires Enabled(s, Send(id, payload))
    ensures Queue(Apply(s, Send(id, payload)), conn) == Queue(s, conn) + Put(s, Send(id, payload), conn)
  {
  }

  lemma ReceiveQueues(s: State, at: nat, conn: nat)
    requires Inv(s) && Enabled(s, Receive(at))
    ensures Queue(s, conn) == HandedOut(s, Receive(at), conn) + Queue(Apply(s, Receive(at)), conn)
  {
  }

  // A connection that is not stored has no channel.
  lemma UnstoredIsEmpty(s: State, conn: nat)
    requires Inv(s) && (conn in s.calls ==> !Holds(s.calls[conn]))
    ensures Queue(s, conn) == []
  {
    assert conn in s.calls ==> !Has(s.reg.connections, s.calls[conn].id, conn);
  }

  lemma DrawQueues(s: State, id: Uuid, isOperator: bool, conn: nat)
    requires Inv(s)
    ensures Queue(Apply(s, DrawId(id, isOperator)), conn) == Queue(s, conn)
  {
    if conn == s.reg.nextId {
      DrawKeeps(s, id, isOperator);
      UnstoredIsEmpty(s, conn);
      UnstoredIsEmpty(Apply(s, DrawId(id, isOperator)), conn);
    }
    hide Inv;
  }

  lemma StoreQueues(s: State, at: nat, conn: nat)
    requires Inv(s) && Enabled(s, StoreConnection(at))
    ensures Queue(Apply(s, StoreConnection(at)), conn) == Queue(s, conn)
  {
    UnstoredIsEmpty(s, at);
    hide Inv;
  }

  lemma RemoveQueues(s: State, at: nat, conn: nat)
    requires Enabled(s, RemoveConnection(at)) && conn != at
    ensures Queue(Apply(s, RemoveConnection(at)), conn) == Queue(s, conn)
  {
  }

  lemma OperatorQueues(s: State, step: Step, conn: nat)
    requires Enabled(s, step) && (step.StoreOperator? || step.ClearOperator?)
    ensures Queue(Apply(s, step), conn) == Queue(s, conn)
  {
  }

  lemma StepQueues(s: State, step: Step, conn: nat)
    requires Inv(s) && Enabled(s, step)
    ensures !At(Apply(s, step), conn, Gone) ==>
      Queue(s, conn) + Put(s, step, conn) == HandedOut(s, step, conn) + Queue(Apply(s, step), conn)
  {
    match step {
      case Send(id, payload) => SendQueues(s, id, payload, conn);
      case Receive(at) => ReceiveQueues(s, at, conn);
      case DrawId(id, isOperator) => DrawQueues(s, id, isOperator, conn);
      case StoreConnection(at) => StoreQueues(s, at, conn);
      case RemoveConnection(at) => if at != conn { RemoveQueues(s, at, conn); }
      case _ => OperatorQueues(s, step, conn);
    }
    hide Queue, Inv;
  }

  // A closed connection stays closed, and no payload goes in or comes out.
  lemma GoneIsGone(s: State, step: Step, conn: nat)
    requires Inv(s) && Enabled(s, step) && At(s, conn, Gone)
    ensures At(Apply(s, step), conn, Gone) && Put(s, step, conn) == [] && HandedOut(s, step, conn) == []
  {
    assert !Has(s.reg.connections, s.calls[conn].id, conn);
  }

  /** A connection's socket is handed the payloads its channel accepted, each once and in the
      order they were sent; while the connection is open, the rest are still waiting in that
      order. */
  lemma {:induction false} ReceivedInOrder(run: Run, n: nat, conn: nat)
    requires IsRun(run) && n < |run.states|
    ensures Received(run, n, conn) <= Accepted(run, n, conn)
    ensures !At(run.states[n], conn, Gone) ==>
      Accepted(run, n, conn) == Received(run, n, conn) + Queue(run.states[n], conn)
  {
    hide Apply, Enabled, Inv, Queue, Put, HandedOut;
    if n == 0 {
      NothingWaits(conn);
    } else {
      var s, step := run.states[n - 1], run.steps[n - 1];
      var a, r := Accepted(run, n - 1, conn), Received(run, n - 1, conn);
      ReceivedInOrder(run, n - 1, conn);
      RunKeepsInv(run, n - 1);
      var put, taken := Put(s, step, conn), HandedOut(s, step, conn);
      if At(s, conn, Gone) {
        GoneIsGone(s, step, conn);
      } else {
        StepQueues(s, step, conn);
        GoneQueues(s, step, conn);
        assert a + put == r + (Queue(s, conn) + put);
        assert !At(run.states[n], conn, Gone) ==> a + put == (r + taken) + Queue(run.states[n], conn);
      }
    }
  }

  lemma NothingWaits(conn: nat)
    ensures Queue(Initial(), conn) == []
  {
  }

  lemma GoneQueues(s: State, step: Step, conn: nat)
    requires Enabled(s, step) && !At(s, conn, Gone)
    ensures At(Apply(s, step), conn, Gone) ==> Put(s, step, conn) == [] && HandedOut(s, step, conn) == []
  {
  }

  /** No connection id is drawn twice, and none is stored under two entities. */
  lemma ConnectionIdsNeverRepeat(run: Run, i: nat, j: nat)
    requires IsRun(run) && i < j < |run.steps| && run.steps[i].DrawId? && run.steps[j].DrawId?
    ensures run.states[i].reg.nextId < run.states[j].reg.nextId
    ensures forall a, b, c :: Has(run.states[i].reg.connections, a, c) && Has(run.states[i].reg.connections, b, c) ==> a == b
  {
    NextIdGrows(run, i + 1, j);
    RunKeepsInv(run, i);
  }

  /** The class methods are the locked steps taken without interruption. */
  lemma AloneIsRegister(s: State, id: Uuid, isOperator: bool)
    requires s.clearing.None?
    ensures
      var conn := s.reg.nextId;
      var drawn := Apply(s, DrawId(id, isOperator));
      var stored := Apply(drawn, StoreConnection(conn));
      var done := if isOperator then Apply(stored, StoreOperator(conn)) else stored;
      && At(done, conn, Returned)
      && done.reg == Reg(conn + 1, Opened(s.reg.connections, id, conn), s.reg.operatorIds + if isOperator then {id} else {})
  {
  }

  lemma AloneIsDeregister(s: State, conn: nat)
    requires Inv(s) && Enabled(s, RemoveConnection(conn))
    ensures
      var id := s.calls[conn].id;
      var removed := Apply(s, RemoveConnection(conn));
      var done := if removed.clearing.Some? then Apply(removed, ClearOperator) else removed;
      done.reg == Reg(s.reg.nextId, Dropped(s.reg.connections, id, conn),
                      if IsLast(s.reg.connections, id, conn) then s.reg.operatorIds - {id} else s.reg.operatorIds)
  {
  }

  // ── Between the two writes of a deregister ──────────────────────────

  // One operator connects and disconnects.
  function Leaving(n: nat): (State, Step) {
    var open: Connections := map[7 := map[1 := []]];
    if n == 0 then (State(Reg(1, map[], {}), None, map[], 0, 0), DrawId(7, true))
    else if n == 1 then (State(Reg(2, map[], {}), None, map[1 := Call(7, true, Drew)], 0, 0), StoreConnection(1))
    else if n == 2 then (State(Reg(2, open, {}), None, map[1 := Call(7, true, Inserted)], 1, 0), StoreOperator(1))
    else if n == 3 then (State(Reg(2, open, {7}), None, map[1 := Call(7, true, Returned)], 1, 0), RemoveConnection(1))
    else (State(Reg(2, map[], {7}), Some(7), map[1 := Call(7, true, Gone)], 1, 1), ClearOperator)
  }

  ghost predicate LeavingFollows(n: nat) {
    Enabled(Leaving(n).0, Leaving(n).1) && Leaving(n + 1).0 == Apply(Leaving(n).0, Leaving(n).1)
  }

  lemma OperatorArrives()
    ensures Leaving(0).0 == Initial() && LeavingFollows(0) && LeavingFollows(1) && LeavingFollows(2)
  {
  }

  lemma OperatorLeaves()
    ensures LeavingFollows(3)
    ensures 7 in Leaving(4).0.reg.operatorIds && 7 !in Leaving(4).0.reg.connections
  {
  }

  /** `operator_ids` can be read in that state: it names an operator without a connection. */
  lemma OperatorListedWithoutConnection()
    ensures exists run ::
      IsRun(run) && |run.steps| == 4 && 7 in run.states[4].reg.operatorIds && 7 !in run.states[4].reg.connections
  {
    OperatorArrives();
    OperatorLeaves();
    hide Leaving, Enabled, Apply;
    var run := Run(seq(5, n requires 0 <= n < 5 => Leaving(n).0), seq(4, n requires 0 <= n < 4 => Leaving(n).1));
    forall i | 0 <= i < 4
      ensures Enabled(run.states[i], run.steps[i]) && run.states[i + 1] == Apply(run.states[i], run.steps[i])
    {
      assert LeavingFollows(i);
    }
    assert IsRun(run);
  }
}
