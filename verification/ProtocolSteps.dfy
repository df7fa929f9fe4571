/**
 What each kind of protocol step does to the state, and what it leaves alone.
 */
module ProtocolSteps {
  import opened ExternalId
  import opened Model
  import opened Tables
  import opened Protocol

  predicate Queries(step: Step) {
    step.ReceiptPrefix? || step.ReceiptSweep? || step.ReadById?
  }

  predicate Inserts(step: Step) {
    step.StoreReply? || step.Echo? || step.StoreInbound?
  }

  predicate Adds(step: Step) {
    step.AddChannel? || step.AddClient? || step.AddOperator? || step.OpenChat?
  }

  predicate Marks(step: Step) {
    step.MarkDelivered? || step.MarkFailed?
  }

  // The step changes no table.
  predicate Quiet(step: Step) {
    !Queries(step) && !Inserts(step) && !Adds(step) && !Marks(step) && !step.Edit? && !step.AdoptId?
  }

  // ── Read queries ────────────────────────────────────────────────────

  ghost function QueryScope(s: State, step: Step): Scope
    requires Enabled(s, step) && Queries(step)
  {
    match step
    case ReceiptPrefix(rc) => PrefixScope(s, rc)
    case ReceiptSweep(rc) => SweepScope(s, rc)
    case ReadById(id, _) => ByIdScope(s.db.rows, id)
  }

  function QueryReader(step: Step): Side
    requires Queries(step)
  {
    if step.ReadById? then step.reader else step.rc.reader
  }

  // A read query marks the rows of its scope and owes their events.
  ghost predicate IsRead(s: State, next: State, scope: Scope, reader: Side) {
    && next.db == s.db.(rows := MarkRead(s.db.rows, scope, reader))
    && next.feed == Owe(s.feed, HitIds(s.db.rows, scope, reader))
    && next.tasks == s.tasks && next.used == s.used && next.origin == s.origin && next.sends == s.sends
  }

  lemma PrefixIsRead(s: State, rc: Receipt)
    ensures IsRead(s, Apply(s, ReceiptPrefix(rc)), PrefixScope(s, rc), rc.reader)
  {
    hide MarkRead, HitIds, PrefixScope;
  }

  lemma SweepIsRead(s: State, rc: Receipt)
    requires Enabled(s, ReceiptSweep(rc))
    ensures IsRead(s, Apply(s, ReceiptSweep(rc)), SweepScope(s, rc), rc.reader)
  {
    hide MarkRead, HitIds, SweepScope;
  }

  lemma ByIdIsRead(s: State, id: Uuid, reader: Side)
    ensures IsRead(s, Apply(s, ReadById(id, reader)), ByIdScope(s.db.rows, id), reader)
  {
    hide MarkRead, HitIds, ByIdScope;
  }

  lemma QueryIsRead(s: State, step: Step)
    requires Enabled(s, step) && Queries(step)
    ensures IsRead(s, Apply(s, step), QueryScope(s, step), QueryReader(step))
  {
    hide Apply, Enabled, IsRead, PrefixScope, SweepScope, ByIdScope;
    match step {
      case ReceiptPrefix(rc) => PrefixIsRead(s, rc);
      case ReceiptSweep(rc) => SweepIsRead(s, rc);
      case ReadById(id, reader) => ByIdIsRead(s, id, reader);
    }
  }

  // ── Inserts ─────────────────────────────────────────────────────────

  ghost function RowOfStep(s: State, step: Step): Row
    requires Enabled(s, step) && Inserts(step)
  {
    match step
    case StoreReply(_, chat, operator, mid, text, now) => ReplyRow(s, chat, operator, mid, text, now)
    case Echo(_, channel, p, chat, text, now) => EchoRow(channel, p, chat, text, now)
    case StoreInbound(_, channel, ext, client, chat, text, now) => InboundRow(channel, ext, client, chat, text, now)
  }

  // The insert of a fresh row, and for a reply that was stored, its task.
  ghost predicate IsInsert(s: State, next: State, id: Uuid, r: Row, reply: bool) {
    && id !in s.used && r.createdAt >= s.db.clock
    && next.db == InsertRow(s.db, id, r) && next.used == s.used + {id}
    && next.tasks == (if reply && Accepts(s.db, r) then s.tasks[id := Stored] else s.tasks)
    && next.origin == s.origin && next.sends == s.sends && next.feed == s.feed
  }

  lemma ReplyIsInsert(s: State, step: Step)
    requires Enabled(s, step) && step.StoreReply?
    ensures IsInsert(s, Apply(s, step), step.id, RowOfStep(s, step), true) && step.replyChat in s.db.chats
  {
    hide InsertRow, Accepts;
  }

  lemma EchoIsInsert(s: State, step: Step)
    requires Enabled(s, step) && step.Echo?
    ensures IsInsert(s, Apply(s, step), step.id, RowOfStep(s, step), false)
  {
    hide InsertRow, EchoEnabled;
  }

  lemma InboundIsInsert(s: State, step: Step)
    requires Enabled(s, step) && step.StoreInbound?
    ensures IsInsert(s, Apply(s, step), step.id, RowOfStep(s, step), false)
  {
    hide InsertRow, InboundEnabled;
  }

  lemma StepIsInsert(s: State, step: Step)
    requires Enabled(s, step) && Inserts(step)
    ensures IsInsert(s, Apply(s, step), step.id, RowOfStep(s, step), step.StoreReply?)
  {
    hide Apply, Enabled, IsInsert, RowOfStep;
    match step {
      case StoreReply(_, _, _, _, _, _) => ReplyIsInsert(s, step);
      case Echo(_, _, _, _, _, _) => EchoIsInsert(s, step);
      case StoreInbound(_, _, _, _, _, _, _) => InboundIsInsert(s, step);
    }
  }

  // ── New channels, clients, operators and chats ──────────────────────

  ghost predicate IsAdd(s: State, next: State, id: Uuid) {
    && id !in s.used && next.used == s.used + {id}
    && next.db.rows == s.db.rows && s.db.chats.Keys <= next.db.chats.Keys
    && s.db.channels.Keys <= next.db.channels.Keys && s.db.clients <= next.db.clients && s.db.operators <= next.db.operators
    && next.db.clock == s.db.clock && (forall c :: c in s.db.chats && c != id ==> next.db.chats[c] == s.db.chats[c])
    && next.tasks == s.tasks && next.origin == s.origin && next.sends == s.sends && next.feed == s.feed
  }

  lemma ChannelIsAdd(s: State, id: Uuid, provider: ProviderKind)
    requires Enabled(s, AddChannel(id, provider))
    ensures IsAdd(s, Apply(s, AddChannel(id, provider)), id)
  {
  }

  lemma ClientIsAdd(s: State, id: Uuid)
    requires Enabled(s, AddClient(id))
    ensures IsAdd(s, Apply(s, AddClient(id)), id)
  {
  }

  lemma OperatorIsAdd(s: State, id: Uuid)
    requires Enabled(s, AddOperator(id))
    ensures IsAdd(s, Apply(s, AddOperator(id)), id)
  {
  }

  lemma ChatIsAdd(s: State, id: Uuid, customer: Uuid, channel: Uuid)
    requires Enabled(s, OpenChat(id, customer, channel))
    ensures IsAdd(s, Apply(s, OpenChat(id, customer, channel)), id)
  {
  }

  lemma StepIsAdd(s: State, step: Step)
    requires Enabled(s, step) && Adds(step)
    ensures IsAdd(s, Apply(s, step), step.id)
  {
    hide Apply, Enabled, IsAdd;
    match step {
      case AddChannel(id, provider) => ChannelIsAdd(s, id, provider);
      case AddClient(id) => ClientIsAdd(s, id);
      case AddOperator(id) => OperatorIsAdd(s, id);
      case OpenChat(id, customer, channel) => ChatIsAdd(s, id, customer, channel);
    }
  }

  // ── Outcomes, adoptions and edits ───────────────────────────────────

  // The phases of the tasks move on, none to or from adoption.
  ghost predicate SameAdoptions(s: State, next: State) {
    next.tasks.Keys == s.tasks.Keys && forall m :: m in s.tasks ==> (next.tasks[m].Adopted? <==> s.tasks[m].Adopted?)
  }

  ghost predicate IsMark(s: State, next: State, id: Uuid) {
    && next.db == s.db.(rows := next.db.rows)
    && (next.db.rows == s.db.rows
        || next.db.rows == MarkIfNew(s.db.rows, id, Delivered) || next.db.rows == MarkIfNew(s.db.rows, id, Failed))
    && SameAdoptions(s, next)
    && next.used == s.used && next.origin == s.origin && next.sends == s.sends && next.feed == s.feed
  }

  lemma DeliveredIsMark(s: State, id: Uuid, ok: bool)
    requires Enabled(s, MarkDelivered(id, ok))
    ensures IsMark(s, Apply(s, MarkDelivered(id, ok)), id)
  {
    hide MarkIfNew;
  }

  lemma FailedIsMark(s: State, id: Uuid)
    requires Enabled(s, MarkFailed(id))
    ensures IsMark(s, Apply(s, MarkFailed(id)), id)
  {
    hide MarkIfNew;
  }

  lemma StepIsMark(s: State, step: Step)
    requires Enabled(s, step) && Marks(step)
    ensures IsMark(s, Apply(s, step), step.id)
  {
    hide Apply, Enabled, IsMark;
    match step {
      case MarkDelivered(id, ok) => DeliveredIsMark(s, id, ok);
      case MarkFailed(id) => FailedIsMark(s, id);
    }
  }

  lemma AdoptIs(s: State, id: Uuid)
    requires Enabled(s, AdoptId(id))
    ensures id in s.tasks && s.tasks[id].Marked?
    ensures Apply(s, AdoptId(id)) == s.(db := s.db.(rows := Adopt(s.db.rows, id, s.tasks[id].p)), tasks := s.tasks[id := Adopted(s.tasks[id].p)])
  {
    hide Adopt;
  }

  lemma EditIs(s: State, step: Step)
    requires step.Edit?
    ensures Apply(s, step) == s.(db := s.db.(rows := EditRows(s.db.rows, step.channel, step.ext, step.text, step.now)))
  {
    hide EditRows;
  }

  // ── Steps that change no table ──────────────────────────────────────

  ghost function FeedAfter(feed: Feed, step: Step): Feed {
    if step.Announce? then Publish(feed, step.id) else if step.AnnounceFails? then LosePublish(feed, step.id) else feed
  }

  ghost predicate IsQuiet(s: State, next: State, feed: Feed) {
    && next.db == s.db && next.used == s.used && SameAdoptions(s, next) && s.sends <= next.sends && next.feed == feed
    && forall k :: k in s.origin ==> k in next.origin && next.origin[k] == s.origin[k]
  }

  lemma SpawnIsQuiet(s: State, id: Uuid)
    requires Enabled(s, Spawn(id))
    ensures IsQuiet(s, Apply(s, Spawn(id)), s.feed)
  {
  }

  lemma GiveUpIsQuiet(s: State, id: Uuid)
    requires Enabled(s, GiveUp(id))
    ensures IsQuiet(s, Apply(s, GiveUp(id)), s.feed)
  {
  }

  lemma AcceptedIsQuiet(s: State, id: Uuid, p: ExtId)
    requires Enabled(s, SendAccepted(id, p))
    ensures IsQuiet(s, Apply(s, SendAccepted(id, p)), s.feed)
  {
  }

  lemma RefusedIsQuiet(s: State, id: Uuid)
    requires Enabled(s, SendRefused(id))
    ensures IsQuiet(s, Apply(s, SendRefused(id)), s.feed)
  {
  }

  lemma LossIsQuiet(s: State, id: Uuid)
    requires Enabled(s, LoseResponse(id))
    ensures IsQuiet(s, Apply(s, LoseResponse(id)), s.feed)
  {
  }

  lemma AbortIsQuiet(s: State, id: Uuid)
    requires Enabled(s, AdoptAborts(id))
    ensures IsQuiet(s, Apply(s, AdoptAborts(id)), s.feed)
  {
  }

  lemma OwnMessageIsQuiet(s: State, channel: Uuid, p: ExtId, customer: Uuid)
    requires Enabled(s, OwnMessage(channel, p, customer))
    ensures IsQuiet(s, Apply(s, OwnMessage(channel, p, customer)), s.feed)
  {
  }

  lemma CustomerWritesIsQuiet(s: State, channel: Uuid, p: ExtId)
    requires Enabled(s, CustomerWrites(channel, p))
    ensures IsQuiet(s, Apply(s, CustomerWrites(channel, p)), s.feed)
  {
  }

  lemma AnnounceIsQuiet(s: State, id: Uuid)
    requires Enabled(s, Announce(id))
    ensures IsQuiet(s, Apply(s, Announce(id)), Publish(s.feed, id))
  {
  }

  lemma FailureIsQuiet(s: State, id: Uuid)
    requires Enabled(s, AnnounceFails(id))
    ensures IsQuiet(s, Apply(s, AnnounceFails(id)), LosePublish(s.feed, id))
  {
  }

  lemma StepIsQuiet(s: State, step: Step)
    requires Enabled(s, step) && Quiet(step)
    ensures IsQuiet(s, Apply(s, step), FeedAfter(s.feed, step))
  {
    hide Apply, Enabled, IsQuiet;
    match step {
      case Spawn(id) => SpawnIsQuiet(s, id);
      case GiveUp(id) => GiveUpIsQuiet(s, id);
      case SendAccepted(id, p) => AcceptedIsQuiet(s, id, p);
      case SendRefused(id) => RefusedIsQuiet(s, id);
      case LoseResponse(id) => LossIsQuiet(s, id);
      case AdoptAborts(id) => AbortIsQuiet(s, id);
      case OwnMessage(channel, p, customer) => OwnMessageIsQuiet(s, channel, p, customer);
      case CustomerWrites(channel, p) => CustomerWritesIsQuiet(s, channel, p);
      case Announce(id) => AnnounceIsQuiet(s, id);
      case AnnounceFails(id) => FailureIsQuiet(s, id);
    }
  }
}
