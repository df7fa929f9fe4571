/**
 Sends, Read events and stored-row facts over whole runs of the delivery protocol.
 */
module ProtocolEvents {
  import opened Wrappers
  import opened ExternalId
  import opened Model
  import opened Tables
  import opened Protocol
  import opened ProtocolSteps
  import opened ProtocolInvariants
  import opened ProtocolRuns

  // ── Read events ─────────────────────────────────────────────────────

  ghost predicate Turns(rows: Rows, next: Rows, id: Uuid) {
    id in rows && !rows[id].status.Read? && id in next && next[id].status.Read?
  }

  ghost predicate TurnsRead(run: Run, k: int, id: Uuid) {
    0 <= k < |run.steps| && k + 1 < |run.states| && Turns(run.states[k].db.rows, run.states[k + 1].db.rows, id)
  }

  lemma HitsTurn(rows: Rows, scope: Scope, reader: Side, id: Uuid)
    ensures id in HitIds(rows, scope, reader) <==> Turns(rows, MarkRead(rows, scope, reader), id)
  {
  }

  lemma OwingIsHeard(feed: Feed, ids: set<Uuid>)
    ensures Heard(Owe(feed, ids)) == Heard(feed) + ids
  {
  }

  lemma QueryHears(s: State, step: Step, id: Uuid)
    requires Enabled(s, step) && Queries(step)
    ensures id in Heard(Apply(s, step).feed) <==> id in Heard(s.feed) || Turns(s.db.rows, Apply(s, step).db.rows, id)
  {
    QueryIsRead(s, step);
    HitsTurn(s.db.rows, QueryScope(s, step), QueryReader(step), id);
    OwingIsHeard(s.feed, HitIds(s.db.rows, QueryScope(s, step), QueryReader(step)));
    hide Apply, Enabled, Heard, Turns, MarkRead, HitIds, QueryScope, Owe;
  }

  lemma OwedIsLogged(s: State, id: Uuid)
    requires Inv(s) && id in s.feed.owed
    ensures Heard(Publish(s.feed, id)) == Heard(s.feed) && Heard(LosePublish(s.feed, id)) == Heard(s.feed)
  {
  }

  // Only the read queries add to what is heard.
  lemma OtherStepHearsNothing(s: State, step: Step)
    requires Inv(s) && Enabled(s, step) && !Queries(step)
    ensures Heard(Apply(s, step).feed) == Heard(s.feed)
  {
    OtherFeedIs(s, step);
    if step.Announce? || step.AnnounceFails? {
      assert step.id in s.feed.owed;
      OwedIsLogged(s, step.id);
    }
    hide Inv, Apply, Enabled, Heard, Publish, LosePublish;
  }

  lemma OtherFeedIs(s: State, step: Step)
    requires Enabled(s, step) && !Queries(step)
    ensures Apply(s, step).feed == FeedAfter(s.feed, step)
  {
    hide Apply, Enabled, RowOfStep, InsertRow, Accepts, MarkIfNew, Adopt, EditRows, Publish, LosePublish;
    if Inserts(step) {
      StepIsInsert(s, step);
    } else if Adds(step) {
      StepIsAdd(s, step);
    } else if Marks(step) {
      StepIsMark(s, step);
    } else if step.Edit? {
      EditIs(s, step);
    } else if step.AdoptId? {
      AdoptIs(s, step.id);
    } else {
      StepIsQuiet(s, step);
    }
  }

  lemma ReadMeansHeard(s: State, id: Uuid)
    requires Inv(s) && id in s.db.rows
    ensures s.db.rows[id].status.Read? <==> id in Heard(s.feed)
  {
  }

  lemma StepHears(s: State, step: Step, id: Uuid)
    requires Inv(s) && Enabled(s, step)
    ensures id in Heard(Apply(s, step).feed) <==> id in Heard(s.feed) || Turns(s.db.rows, Apply(s, step).db.rows, id)
  {
    hide Inv, Apply, Enabled;
    if Queries(step) {
      QueryHears(s, step, id);
    } else {
      OtherStepHearsNothing(s, step);
      StepKeepsInv(s, step);
      if Turns(s.db.rows, Apply(s, step).db.rows, id) {
        ReadMeansHeard(s, id);
        ReadMeansHeard(Apply(s, step), id);
      }
    }
  }

  /** A Read event is published, owed or lost for exactly the rows that turned Read. */
  lemma {:induction false} HeardExactlyTheTurned(run: Run, n: nat, id: Uuid)
    requires IsRun(run) && n < |run.states|
    ensures id in Heard(run.states[n].feed) <==> exists k :: 0 <= k < n && TurnsRead(run, k, id)
  {
    hide Inv, Apply, Enabled;
    if n == 0 {
      assert run.states[0] == INITIAL;
    } else {
      HeardExactlyTheTurned(run, n - 1, id);
      assert Follows(run.states[n - 1], run.steps[n - 1], run.states[n]);
      RunKeepsInv(run, n - 1);
      StepHears(run.states[n - 1], run.steps[n - 1], id);
      assert TurnsRead(run, n - 1, id) <==> Turns(run.states[n - 1].db.rows, run.states[n].db.rows, id);
    }
  }

  lemma TurnsReadOnce(run: Run, k: nat, l: nat, id: Uuid)
    requires IsRun(run) && TurnsRead(run, k, id) && TurnsRead(run, l, id)
    ensures k == l
  {
    if k < l {
      StatusOnlyClimbs(run, k + 1, k + 1, l, id);
    } else if l < k {
      StatusOnlyClimbs(run, l + 1, l + 1, k, id);
    }
  }

  ghost predicate PublishedAt(run: Run, k: int, id: Uuid) {
    0 <= k < |run.steps| && run.steps[k] == Announce(id)
  }

  ghost predicate LostAt(run: Run, k: int, id: Uuid) {
    0 <= k < |run.steps| && run.steps[k] == AnnounceFails(id)
  }

  lemma StepPublishes(s: State, step: Step, id: Uuid)
    requires Enabled(s, step)
    ensures id in Apply(s, step).feed.announced <==> id in s.feed.announced || step == Announce(id)
    ensures id in Apply(s, step).feed.lost <==> id in s.feed.lost || step == AnnounceFails(id)
  {
    hide Apply, Enabled;
    if Queries(step) {
      QueryIsRead(s, step);
    } else {
      OtherFeedIs(s, step);
    }
  }

  lemma NotBoth(s: State, id: Uuid)
    requires Inv(s) && id in s.feed.announced
    ensures id !in s.feed.lost
  {
    assert id in Elements(s.feed.announced);
  }

  /** The Read events heard are those whose publication took place, the lost ones those whose
      publication failed; a failed one is not made up for. */
  lemma {:induction false} PublishedOrLost(run: Run, n: nat, id: Uuid)
    requires IsRun(run) && n < |run.states|
    ensures id in run.states[n].feed.announced <==> exists k :: k < n && PublishedAt(run, k, id)
    ensures id in run.states[n].feed.lost <==> exists k :: k < n && LostAt(run, k, id)
    ensures id in run.states[n].feed.announced ==> id !in run.states[n].feed.lost
  {
    hide Apply, Enabled, Inv;
    if n > 0 {
      var s, step := run.states[n - 1], run.steps[n - 1];
      assert Follows(s, step, run.states[n]);
      PublishedOrLost(run, n - 1, id);
      StepPublishes(s, step, id);
      assert step == Announce(id) <==> PublishedAt(run, n - 1, id);
      assert step == AnnounceFails(id) <==> LostAt(run, n - 1, id);
    }
    RunKeepsInv(run, n);
    if id in run.states[n].feed.announced {
      NotBoth(run.states[n], id);
    }
  }

  lemma {:induction false} NothingLost(run: Run, n: nat)
    requires IsRun(run) && n < |run.states|
    requires forall k :: 0 <= k < n ==> !run.steps[k].AnnounceFails?
    ensures run.states[n].feed.lost == {}
  {
    hide Inv, Apply, Enabled;
    if n == 0 {
      assert run.states[0] == INITIAL;
    } else {
      NothingLost(run, n - 1);
      assert Follows(run.states[n - 1], run.steps[n - 1], run.states[n]);
      OnlyFailuresLose(run.states[n - 1], run.steps[n - 1]);
    }
  }

  lemma OnlyFailuresLose(s: State, step: Step)
    requires Enabled(s, step) && !step.AnnounceFails?
    ensures Apply(s, step).feed.lost == s.feed.lost
  {
    hide Apply, Enabled, QueryScope;
    if Queries(step) {
      QueryIsRead(s, step);
    } else {
      OtherFeedIs(s, step);
    }
  }

  lemma Occurrences(s: seq<Uuid>, id: Uuid)
    requires Distinct(s)
    ensures multiset(s)[id] == if id in s then 1 else 0
  {
    if |s| > 0 {
      var rest := s[..|s| - 1];
      assert s == rest + [s[|s| - 1]];
      Occurrences(rest, id);
    }
  }

  /** On a run without publish failures whose handlers have all published, the Read events
      match the rows that turned Read one to one: each such row once, no other row ever. */
  lemma ReadEventsMatchReads(run: Run, n: nat, id: Uuid)
    requires IsRun(run) && n < |run.states|
    requires forall k :: 0 <= k < n ==> !run.steps[k].AnnounceFails?
    requires run.states[n].feed.owed == {}
    ensures multiset(run.states[n].feed.announced)[id] == if exists k :: 0 <= k < n && TurnsRead(run, k, id) then 1 else 0
  {
    NothingLost(run, n);
    HeardExactlyTheTurned(run, n, id);
    RunKeepsInv(run, n);
    Occurrences(run.states[n].feed.announced, id);
  }

  // ── Provider sends ──────────────────────────────────────────────────

  predicate IsSend(step: Step) {
    step.SendAccepted? || step.SendRefused?
  }

  /** A provider send is of an operator's row stored before it, and no row is sent twice in a
      run. */
  lemma SendsAreStoredAndUnrepeated(run: Run, k: nat)
    requires IsRun(run) && k < |run.steps| && IsSend(run.steps[k])
    ensures
      var m := run.steps[k].id;
      && m in run.states[k].db.rows && run.states[k].db.rows[m].side.Operator? && run.states[k].db.rows[m].sender.Some?
      && forall l :: k < l < |run.steps| && IsSend(run.steps[l]) ==> run.steps[l].id != m
  {
    var m := run.steps[k].id;
    assert Follows(run.states[k], run.steps[k], run.states[k + 1]);
    RunKeepsInv(run, k);
    TaskHasRow(run.states[k], m);
    forall l | k < l < |run.steps| && IsSend(run.steps[l]) ensures run.steps[l].id != m {
      SentBefore(run, k, l);
    }
  }

  lemma UnsentUntilSpawned(s: State, m: Uuid)
    requires Inv(s) && m in s.tasks && s.tasks[m].Spawned?
    ensures m !in s.sends
  {
  }

  lemma SendIsLogged(s: State, step: Step)
    requires Enabled(s, step) && IsSend(step)
    ensures step.id in Apply(s, step).sends && step.id in s.tasks && s.tasks[step.id].Spawned?
  {
  }

  lemma SentBefore(run: Run, k: nat, l: nat)
    requires IsRun(run) && k < l < |run.steps| && IsSend(run.steps[k]) && IsSend(run.steps[l])
    ensures run.steps[k].id != run.steps[l].id
  {
    hide Inv, Apply, Enabled;
    assert Follows(run.states[k], run.steps[k], run.states[k + 1]);
    SendIsLogged(run.states[k], run.steps[k]);
    RunExtends(run, k + 1, l);
    assert Follows(run.states[l], run.steps[l], run.states[l + 1]);
    SendIsLogged(run.states[l], run.steps[l]);
    RunKeepsInv(run, l);
    UnsentUntilSpawned(run.states[l], run.steps[l].id);
  }

  // ── Stored rows ─────────────────────────────────────────────────────

  /** What every stored row keeps, in every reachable state. */
  lemma StoredRowFacts(run: Run, n: nat, id: Uuid)
    requires IsRun(run) && n < |run.states| && id in run.states[n].db.rows
    ensures
      var db, r := run.states[n].db, run.states[n].db.rows[id];
      && (r.chat.Some? ==> r.chat.value in db.chats && db.chats[r.chat.value].channel == r.channel)
      && (r.side.Client? && r.chat.Some? ==> r.sender == Some(db.chats[r.chat.value].client))
      && (r.side.Client? && r.sender.None? ==> r.chat.None?)
      && (forall other :: other in db.rows && db.rows[other].channel == r.channel && db.rows[other].extId == r.extId ==> other == id)
  {
    RunKeepsInv(run, n);
    assert RowPlaced(run.states[n].db, run.states[n].db.rows[id]);
  }

  lemma RowIsShaped(s: State, id: Uuid)
    requires Inv(s) && id in s.db.rows
    ensures Shaped(s.db.rows[id])
  {
  }

  lemma UniqueUnderId(s: State, a: Uuid, b: Uuid)
    requires Inv(s) && a in s.db.rows && b in s.db.rows
    requires s.db.rows[a].channel == s.db.rows[b].channel && s.db.rows[a].extId == s.db.rows[b].extId
    ensures a == b
  {
  }

  /** An edit keyed by a widget client's id changes at most one row, and never one that
      another client or an operator wrote. */
  lemma WidgetEditsStayOwn(run: Run, n: nat, id: Uuid, other: Uuid)
    requires IsRun(run) && n < |run.steps| && run.steps[n].Edit? && run.steps[n].ext.WidgetId?
    requires id in run.states[n].db.rows && id in run.states[n + 1].db.rows
    requires run.states[n + 1].db.rows[id] != run.states[n].db.rows[id]
    ensures
      var was, rows := run.states[n].db.rows, run.states[n + 1].db.rows;
      && was[id].side.Client? && (was[id].sender.None? || was[id].sender == Some(run.steps[n].ext.client))
      && (other in was && other != id ==> other in rows && rows[other] == was[other])
  {
    hide Inv;
    var s, step := run.states[n], run.steps[n];
    EditStep(run, n);
    RunKeepsInv(run, n);
    RowIsShaped(s, id);
    if other in s.db.rows && other != id && s.db.rows[other].channel == step.channel && s.db.rows[other].extId == step.ext {
      UniqueUnderId(s, id, other);
    }
  }

  lemma EditStep(run: Run, n: nat)
    requires IsRun(run) && n < |run.steps| && run.steps[n].Edit?
    ensures
      var step := run.steps[n];
      run.states[n + 1].db.rows == EditRows(run.states[n].db.rows, step.channel, step.ext, step.text, step.now)
  {
  }

  // ── Resent operator messages ────────────────────────────────────────

  /** A reply is stored, and its delivery may be spawned, exactly when no row of the channel
      holds its local id at that moment. */
  lemma ReplyStoredExactlyWhenIdFree(s: State, step: Step)
    requires Inv(s) && step.StoreReply? && Enabled(s, step)
    ensures step.id in Apply(s, step).tasks <==> !Taken(s.db.rows, s.db.chats[step.replyChat].channel, OperatorId(step.mid))
  {
  }

  lemma TaskInItsChat(s: State, m: Uuid)
    requires Inv(s) && m in s.tasks
    ensures m in s.db.rows && UniqueIds(s.db.rows)
    ensures
      var r := s.db.rows[m];
      r.chat.Some? && r.chat.value in s.db.chats && s.db.chats[r.chat.value].channel == r.channel
    ensures s.tasks[m].Marked? ==> s.tasks[m].p != s.db.rows[m].extId
  {
    assert RowPlaced(s.db, s.db.rows[m]);
    TaskHasRow(s, m);
    if s.tasks[m].Marked? {
      assert Holding(s.tasks[m], s.tasks[m].p);
      assert (s.db.rows[m].channel, s.tasks[m].p) in s.origin;
    }
  }

  lemma AdoptFrees(rows: Rows, m: Uuid, p: ExtId)
    requires UniqueIds(rows) && m in rows && p != rows[m].extId
    ensures !Taken(Adopt(rows, m, p), rows[m].channel, rows[m].extId)
  {
  }

  /** Adoption frees the reply's local id, so a `mid` resent after it is stored and may be
      delivered a second time. */
  lemma AdoptionFreesTheMid(s: State, m: Uuid, resend: Step)
    requires Inv(s) && Enabled(s, AdoptId(m)) && resend.StoreReply?
    requires
      var r := s.db.rows[m];
      r.chat == Some(resend.replyChat) && r.extId == OperatorId(resend.mid)
    requires Fresh(s, resend.id) && resend.replyChat in s.db.chats && resend.operator in s.db.operators && resend.now >= s.db.clock
    ensures Enabled(Apply(s, AdoptId(m)), resend)
    ensures resend.id in Apply(Apply(s, AdoptId(m)), resend).tasks
  {
    hide Inv;
    var after := Apply(s, AdoptId(m));
    StepKeepsInv(s, AdoptId(m));
    TaskInItsChat(s, m);
    AdoptFrees(s.db.rows, m, s.tasks[m].p);
    ReplyStoredExactlyWhenIdFree(after, resend);
  }

  // A reply that still carries the local id it was stored under.
  ghost predicate Local(s: State, m: Uuid, channel: Uuid, ext: ExtId) {
    m in s.tasks && m in s.db.rows && s.db.rows[m].channel == channel && (!s.tasks[m].Adopted? ==> s.db.rows[m].extId == ext)
  }

  lemma ReadsKeepLocal(s: State, step: Step, m: Uuid, channel: Uuid, ext: ExtId)
    requires Enabled(s, step) && Queries(step) && Local(s, m, channel, ext)
    ensures Local(Apply(s, step), m, channel, ext)
  {
    QueryIsRead(s, step);
    hide Apply, Enabled, HitIds, QueryScope;
  }

  lemma AdoptionKeepsLocal(s: State, id: Uuid, m: Uuid, channel: Uuid, ext: ExtId)
    requires Inv(s) && Enabled(s, AdoptId(id)) && Local(s, m, channel, ext)
    ensures Local(Apply(s, AdoptId(id)), m, channel, ext)
  {
    TaskHasRow(s, m);
    TaskHasRow(s, id);
    var p := s.tasks[id].p;
    if Displaced(s.db.rows, id, p, m) {
      DisplacedAreCopies(s.db.rows, s.tasks, s.origin, id, p, m);
    }
  }

  // The reply's task and row stay as far as its local id is concerned.
  lemma LocalKept(s: State, next: State, m: Uuid, channel: Uuid, ext: ExtId)
    requires Local(s, m, channel, ext) && m in next.tasks && m in next.db.rows
    requires next.tasks[m].Adopted? <==> s.tasks[m].Adopted?
    requires next.db.rows[m].channel == s.db.rows[m].channel && next.db.rows[m].extId == s.db.rows[m].extId
    ensures Local(next, m, channel, ext)
  {
  }

  lemma OthersKeepLocal(s: State, step: Step, m: Uuid, channel: Uuid, ext: ExtId)
    requires Enabled(s, step) && !Queries(step) && !step.AdoptId? && Local(s, m, channel, ext) && s.db.rows.Keys <= s.used
    ensures Local(Apply(s, step), m, channel, ext)
  {
    assert m in s.tasks && m in s.db.rows;
    hide Apply, Enabled, Local, RowOfStep, Accepts;
    if Inserts(step) {
      StepIsInsert(s, step);
    } else if Adds(step) {
      StepIsAdd(s, step);
    } else if Marks(step) {
      StepIsMark(s, step);
    } else if step.Edit? {
      EditIs(s, step);
    } else {
      StepIsQuiet(s, step);
    }
    LocalKept(s, Apply(s, step), m, channel, ext);
  }

  lemma StepKeepsLocal(s: State, step: Step, m: Uuid, channel: Uuid, ext: ExtId)
    requires Inv(s) && Enabled(s, step) && Local(s, m, channel, ext)
    ensures Local(Apply(s, step), m, channel, ext)
  {
    hide Apply, Enabled, Local;
    RowsAreUsed(s);
    hide Inv;
    if Queries(step) {
      ReadsKeepLocal(s, step, m, channel, ext);
    } else if step.AdoptId? {
      AdoptionKeepsLocal(s, step.id, m, channel, ext);
    } else {
      OthersKeepLocal(s, step, m, channel, ext);
    }
  }

  // The channel a StoreReply goes to.
  function ChannelOf(s: State, step: Step): Uuid
    requires step.StoreReply? && step.replyChat in s.db.chats
  {
    s.db.chats[step.replyChat].channel
  }

  // Step `i` stored reply `m`.
  ghost predicate StoredBy(run: Run, i: nat, m: Uuid) {
    && i < |run.steps| && i + 1 < |run.states| && run.steps[i].StoreReply? && run.steps[i].id == m
    && run.steps[i].replyChat in run.states[i].db.chats && m in run.states[i + 1].tasks
  }

  lemma NewTask(s: State, step: Step, m: Uuid)
    requires Enabled(s, step) && m in Apply(s, step).tasks && m !in s.tasks
    ensures step.StoreReply? && step.id == m && step.replyChat in s.db.chats
  {
    hide Apply, Enabled, RowOfStep, QueryScope, Accepts, InsertRow, MarkIfNew, Adopt, EditRows;
    if Queries(step) {
      QueryIsRead(s, step);
    } else if step.StoreReply? {
      ReplyIsInsert(s, step);
    } else if Inserts(step) {
      StepIsInsert(s, step);
    } else if Adds(step) {
      StepIsAdd(s, step);
    } else if Marks(step) {
      StepIsMark(s, step);
    } else if step.Edit? {
      EditIs(s, step);
    } else if step.AdoptId? {
      AdoptIs(s, step.id);
    } else {
      StepIsQuiet(s, step);
    }
  }

  lemma NewTaskIsLocal(s: State, step: Step)
    requires Inv(s) && step.StoreReply? && Enabled(s, step) && step.id in Apply(s, step).tasks
    ensures Local(Apply(s, step), step.id, ChannelOf(s, step), OperatorId(step.mid))
  {
    RowsAreUsed(s);
  }

  // A stored reply keeps its local id until it is adopted.
  lemma {:induction false} LocalUntilAdopted(run: Run, i: nat, n: nat, m: Uuid)
    requires IsRun(run) && i < n < |run.states| && StoredBy(run, i, m)
    ensures Local(run.states[n], m, ChannelOf(run.states[i], run.steps[i]), OperatorId(run.steps[i].mid))
    decreases n
  {
    hide Inv, Apply, Enabled, Local;
    assert Follows(run.states[n - 1], run.steps[n - 1], run.states[n]);
    RunKeepsInv(run, n - 1);
    if n == i + 1 {
      NewTaskIsLocal(run.states[i], run.steps[i]);
    } else {
      LocalUntilAdopted(run, i, n - 1, m);
      StepKeepsLocal(run.states[n - 1], run.steps[n - 1], m, ChannelOf(run.states[i], run.steps[i]), OperatorId(run.steps[i].mid));
    }
  }

  lemma {:induction false} TasksWereStored(run: Run, n: nat, m: Uuid)
    requires IsRun(run) && n < |run.states| && m in run.states[n].tasks
    ensures exists i :: 0 <= i < n && StoredBy(run, i, m)
  {
    hide Inv, Apply, Enabled;
    assert n > 0;
    assert Follows(run.states[n - 1], run.steps[n - 1], run.states[n]);
    RunKeepsInv(run, n - 1);
    if m in run.states[n - 1].tasks {
      TasksWereStored(run, n - 1, m);
    } else {
      NewTask(run.states[n - 1], run.steps[n - 1], m);
      assert StoredBy(run, n - 1, m);
    }
  }

  // An earlier step stored the same `mid` on the same channel.
  ghost predicate SameReply(run: Run, i: nat, j: nat) {
    && i < j < |run.steps| && j < |run.states| && run.steps[j].StoreReply? && run.steps[j].replyChat in run.states[j].db.chats
    && run.steps[i].StoreReply? && StoredBy(run, i, run.steps[i].id) && run.steps[i].mid == run.steps[j].mid
    && ChannelOf(run.states[i], run.steps[i]) == ChannelOf(run.states[j], run.steps[j])
  }

  ghost predicate AdoptedBy(s: State, m: Uuid) {
    m in s.tasks && s.tasks[m].Adopted?
  }

  lemma LocalIdIsOfTask(s: State, channel: Uuid, mid: string, m: Uuid)
    requires Inv(s) && Under(s.db.rows, channel, OperatorId(mid), m)
    ensures m in s.tasks && !s.tasks[m].Adopted?
  {
    assert Shaped(s.db.rows[m]);
    assert m in s.tasks && TaskRow(s.db.rows[m], s.tasks[m]);
  }

  /** Over any run, a `mid` sent again on a channel is stored, and may be delivered again,
      exactly when every reply stored under it there before has been adopted. */
  lemma ResendStoredExactlyWhenAdopted(run: Run, j: nat)
    requires IsRun(run) && j < |run.steps| && run.steps[j].StoreReply?
    ensures StoredBy(run, j, run.steps[j].id) <==>
      forall i :: 0 <= i < j && SameReply(run, i, j) ==> AdoptedBy(run.states[j], run.steps[i].id)
  {
    var s, step := run.states[j], run.steps[j];
    assert Follows(s, step, run.states[j + 1]);
    assert step.replyChat in s.db.chats;
    RunKeepsInv(run, j);
    ReplyStoredExactlyWhenIdFree(s, step);
    hide Inv, Apply, Enabled, Taken;
    var channel, ext := ChannelOf(s, step), OperatorId(step.mid);
    forall i | 0 <= i < j && SameReply(run, i, j) && !AdoptedBy(s, run.steps[i].id) ensures Taken(s.db.rows, channel, ext) {
      LocalUntilAdopted(run, i, j, run.steps[i].id);
      HeldIsTaken(s.db.rows, channel, ext, run.steps[i].id);
    }
    if Taken(s.db.rows, channel, ext) {
      var i := HolderWasStored(run, j, channel, step.mid);
      assert SameReply(run, i, j);
    }
  }

  lemma HeldIsTaken(rows: Rows, channel: Uuid, ext: ExtId, m: Uuid)
    requires Under(rows, channel, ext, m)
    ensures Taken(rows, channel, ext)
  {
  }

  lemma HolderWasStored(run: Run, j: nat, channel: Uuid, mid: string) returns (i: nat)
    requires IsRun(run) && j < |run.states| && Taken(run.states[j].db.rows, channel, OperatorId(mid))
    ensures i < j && j < |run.states| == |run.steps| + 1 && run.steps[i].StoreReply?
    ensures StoredBy(run, i, run.steps[i].id) && run.steps[i].mid == mid
    ensures ChannelOf(run.states[i], run.steps[i]) == channel && !AdoptedBy(run.states[j], run.steps[i].id)
  {
    var m :| Under(run.states[j].db.rows, channel, OperatorId(mid), m);
    RunKeepsInv(run, j);
    LocalIdIsOfTask(run.states[j], channel, mid, m);
    hide Inv;
    TasksWereStored(run, j, m);
    i :| 0 <= i < j && StoredBy(run, i, m);
    LocalUntilAdopted(run, i, j, m);
  }
}
