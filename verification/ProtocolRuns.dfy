/**
 What holds over whole runs of the delivery protocol, for every interleaving.
 */
module ProtocolRuns {
  import opened Wrappers
  import opened ExternalId
  import opened Model
  import opened Tables
  import opened Protocol
  import opened ProtocolSteps
  import opened ProtocolInvariants

  datatype Run = Run(states: seq<State>, steps: seq<Step>)

  ghost predicate Follows(s: State, step: Step, next: State) {
    Enabled(s, step) && next == Apply(s, step)
  }

  ghost predicate IsRun(run: Run) {
    && |run.states| == |run.steps| + 1
    && run.states[0] == INITIAL
    && forall i :: 0 <= i < |run.steps| ==> Follows(run.states[i], run.steps[i], run.states[i + 1])
  }

  lemma {:induction false} RunKeepsInv(run: Run, i: nat)
    requires IsRun(run) && i < |run.states|
    ensures Inv(run.states[i])
  {
    hide Inv, Apply, Enabled;
    if i == 0 {
      InitiallyInv();
    } else {
      RunKeepsInv(run, i - 1);
      assert Follows(run.states[i - 1], run.steps[i - 1], run.states[i]);
      StepKeepsInv(run.states[i - 1], run.steps[i - 1]);
    }
  }

  // ── One step ────────────────────────────────────────────────────────

  lemma RowsAreUsed(s: State)
    requires Inv(s)
    ensures s.db.rows.Keys <= s.used && s.tasks.Keys <= s.db.rows.Keys
  {
  }

  // Reply tasks, provider ids and allocated row ids are never forgotten.
  ghost predicate Grows(s: State, t: State) {
    && s.used <= t.used && s.tasks.Keys <= t.tasks.Keys && s.sends <= t.sends
    && forall k :: k in s.origin ==> k in t.origin && t.origin[k] == s.origin[k]
  }

  lemma ReadGrows(s: State, next: State, scope: Scope, reader: Side)
    requires IsRead(s, next, scope, reader)
    ensures Grows(s, next)
  {
  }

  lemma InsertGrows(s: State, next: State, id: Uuid, r: Row, reply: bool)
    requires IsInsert(s, next, id, r, reply)
    ensures Grows(s, next)
  {
  }

  lemma AddGrows(s: State, next: State, id: Uuid)
    requires IsAdd(s, next, id)
    ensures Grows(s, next)
  {
  }

  lemma MarkGrows(s: State, next: State, id: Uuid)
    requires IsMark(s, next, id)
    ensures Grows(s, next)
  {
  }

  lemma UpdateGrows(s: State, step: Step)
    requires Enabled(s, step) && (step.Edit? || step.AdoptId?)
    ensures Grows(s, Apply(s, step))
  {
    if step.Edit? { EditIs(s, step); } else { AdoptIs(s, step.id); }
    hide Apply, Enabled, EditRows, Adopt;
  }

  lemma QuietGrows(s: State, next: State, feed: Feed)
    requires IsQuiet(s, next, feed)
    ensures Grows(s, next)
  {
  }

  lemma StepGrows(s: State, step: Step)
    requires Enabled(s, step)
    ensures Grows(s, Apply(s, step))
  {
    hide Apply, Enabled, Grows, IsRead, IsInsert, IsAdd, IsMark, IsQuiet, QueryScope, RowOfStep;
    var next := Apply(s, step);
    if Queries(step) {
      QueryIsRead(s, step);
      ReadGrows(s, next, QueryScope(s, step), QueryReader(step));
    } else if Inserts(step) {
      StepIsInsert(s, step);
      InsertGrows(s, next, step.id, RowOfStep(s, step), step.StoreReply?);
    } else if Adds(step) {
      StepIsAdd(s, step);
      AddGrows(s, next, step.id);
    } else if Marks(step) {
      StepIsMark(s, step);
      MarkGrows(s, next, step.id);
    } else if step.Edit? || step.AdoptId? {
      UpdateGrows(s, step);
    } else {
      StepIsQuiet(s, step);
      QuietGrows(s, next, FeedAfter(s.feed, step));
    }
  }

  // Every surviving row evolved from its old self; a new row has a new id.
  ghost predicate Tracks(rows: Rows, next: Rows, used: set<Uuid>) {
    forall id :: id in next && id in used ==> id in rows && Evolves(rows[id], next[id])
  }

  lemma ReadTracks(rows: Rows, scope: Scope, reader: Side, used: set<Uuid>)
    ensures Tracks(rows, MarkRead(rows, scope, reader), used)
  {
  }

  lemma InsertTracks(db: Db, id: Uuid, r: Row, used: set<Uuid>)
    requires id !in used
    ensures Tracks(db.rows, InsertRow(db, id, r).rows, used)
  {
  }

  lemma EditTracks(rows: Rows, channel: Uuid, ext: ExtId, text: Option<string>, now: nat, used: set<Uuid>)
    ensures Tracks(rows, EditRows(rows, channel, ext, text, now), used)
  {
    EditEvolves(rows, channel, ext, text, now);
  }

  lemma MarkTracks(rows: Rows, id: Uuid, used: set<Uuid>)
    ensures Tracks(rows, rows, used)
    ensures Tracks(rows, MarkIfNew(rows, id, Delivered), used) && Tracks(rows, MarkIfNew(rows, id, Failed), used)
  {
  }

  lemma AdoptTracks(rows: Rows, id: Uuid, p: ExtId, used: set<Uuid>)
    ensures Tracks(rows, Adopt(rows, id, p), used)
  {
  }

  lemma StepTracks(s: State, step: Step)
    requires Enabled(s, step)
    ensures Tracks(s.db.rows, Apply(s, step).db.rows, s.used)
  {
    hide Apply, Enabled, Tracks, QueryScope, RowOfStep, InsertRow, Accepts, MarkRead, HitIds, MarkIfNew, Adopt, EditRows;
    if Queries(step) {
      QueryIsRead(s, step);
      ReadTracks(s.db.rows, QueryScope(s, step), QueryReader(step), s.used);
    } else if Inserts(step) {
      StepIsInsert(s, step);
      InsertTracks(s.db, step.id, RowOfStep(s, step), s.used);
    } else if Adds(step) {
      StepIsAdd(s, step);
      MarkTracks(s.db.rows, NIL, s.used);
    } else if Marks(step) {
      StepIsMark(s, step);
      MarkTracks(s.db.rows, step.id, s.used);
    } else if step.Edit? {
      EditIs(s, step);
      EditTracks(s.db.rows, step.channel, step.ext, step.text, step.now, s.used);
    } else if step.AdoptId? {
      AdoptIs(s, step.id);
      AdoptTracks(s.db.rows, step.id, s.tasks[step.id].p, s.used);
    } else {
      StepIsQuiet(s, step);
      MarkTracks(s.db.rows, NIL, s.used);
    }
  }

  // ── Along a run ─────────────────────────────────────────────────────

  // How a later state extends an earlier one.
  ghost predicate Extends(s: State, t: State) {
    && Tracks(s.db.rows, t.db.rows, s.used)
    && s.used <= t.used && s.tasks.Keys <= t.tasks.Keys && s.sends <= t.sends
    && (forall k :: k in s.origin ==> k in t.origin && t.origin[k] == s.origin[k])
  }

  lemma ExtendsTransitively(s: State, t: State, u: State)
    requires Extends(s, t) && Extends(t, u)
    ensures Extends(s, u)
  {
  }

  lemma {:induction false} RunExtends(run: Run, i: nat, j: nat)
    requires IsRun(run) && i <= j < |run.states|
    ensures Extends(run.states[i], run.states[j])
    decreases j
  {
    hide Apply, Enabled;
    if i < j {
      RunExtends(run, i, j - 1);
      assert Follows(run.states[j - 1], run.steps[j - 1], run.states[j]);
      StepTracks(run.states[j - 1], run.steps[j - 1]);
      StepGrows(run.states[j - 1], run.steps[j - 1]);
      ExtendsTransitively(run.states[i], run.states[j - 1], run.states[j]);
    }
  }

  /** Status ladder: a row seen at two moments of a run kept its channel, chat, author, side
      and time, and its status only moved New to Delivered, Failed or Read, or Delivered to
      Read; Read and Failed are final. A deleted row's id never comes back. */
  lemma StatusOnlyClimbs(run: Run, i: nat, j: nat, k: nat, id: Uuid)
    requires IsRun(run) && i <= j <= k < |run.states|
    requires id in run.states[i].db.rows && id in run.states[k].db.rows
    ensures id in run.states[j].db.rows
    ensures Evolves(run.states[i].db.rows[id], run.states[k].db.rows[id])
    ensures Settled(run.states[i].db.rows[id].status) ==>
      run.states[k].db.rows[id].status == run.states[i].db.rows[id].status
  {
    hide Inv;
    RunKeepsInv(run, i);
    RowsAreUsed(run.states[i]);
    RunExtends(run, i, k);
    RunExtends(run, i, j);
    RunExtends(run, j, k);
  }

  /** Reads are closed downward in time within one chat and one side, in every reachable state. */
  lemma ReadsAreClosed(run: Run, i: nat, older: Uuid, newer: Uuid)
    requires IsRun(run) && i < |run.states|
    requires older in run.states[i].db.rows && newer in run.states[i].db.rows
    requires Before(run.states[i].db.rows[older], run.states[i].db.rows[newer])
    requires run.states[i].db.rows[newer].status.Read?
    ensures Settled(run.states[i].db.rows[older].status)
  {
    RunKeepsInv(run, i);
  }

  // ── Replies ─────────────────────────────────────────────────────────

  /** A stored operator row is never deleted, whatever is adopted. */
  lemma RepliesAreKept(run: Run, i: nat, j: nat, id: Uuid)
    requires IsRun(run) && i <= j < |run.states|
    requires id in run.states[i].db.rows
    requires run.states[i].db.rows[id].side.Operator? && run.states[i].db.rows[id].sender.Some?
    ensures id in run.states[j].db.rows && Evolves(run.states[i].db.rows[id], run.states[j].db.rows[id])
  {
    RunKeepsInv(run, i);
    assert id in run.states[i].tasks;
    RunExtends(run, i, j);
    RunKeepsInv(run, j);
    assert id in run.states[j].tasks;
  }

  lemma DeliveredStepMarks(s: State, m: Uuid, ok: bool)
    requires Enabled(s, MarkDelivered(m, ok)) && m in s.db.rows
    ensures
      var rows, next := s.db.rows, Apply(s, MarkDelivered(m, ok)).db.rows;
      next == if ok && rows[m].status == New then rows[m := rows[m].(status := Delivered)] else rows
  {
  }

  lemma FailedStepMarks(s: State, m: Uuid)
    requires Enabled(s, MarkFailed(m)) && m in s.db.rows
    ensures
      var rows, next := s.db.rows, Apply(s, MarkFailed(m)).db.rows;
      next == if rows[m].status == New then rows[m := rows[m].(status := Failed)] else rows
  {
  }

  /** A delivery mark that does not fail leaves the reply Delivered, or Read when a receipt was
      faster, and so it stays: no reply the provider took is New or Failed after its mark. No
      other row changes. */
  lemma MarkedReplyIsDelivered(run: Run, n: nat, j: nat)
    requires IsRun(run) && n < j < |run.states| && run.steps[n].MarkDelivered? && run.steps[n].ok
    ensures
      var m, rows, next := run.steps[n].id, run.states[n].db.rows, run.states[n + 1].db.rows;
      && m in rows && (rows[m].status == New || rows[m].status == Delivered || rows[m].status == Read)
      && (rows[m].status == New ==> next == rows[m := rows[m].(status := Delivered)])
      && (rows[m].status != New ==> next == rows)
      && m in run.states[j].db.rows
      && (run.states[j].db.rows[m].status == Delivered || run.states[j].db.rows[m].status == Read)
  {
    hide Inv, Apply, Enabled;
    var s, m := run.states[n], run.steps[n].id;
    assert Follows(s, run.steps[n], run.states[n + 1]);
    RunKeepsInv(run, n);
    MarksAtItsTime(s, run.steps[n]);
    DeliveredStepMarks(s, m, true);
    RepliesAreKept(run, n + 1, j, m);
  }

  /** The mark of a failed delivery makes the reply Failed exactly when it was New, for good,
      and leaves one that a receipt had turned Read as it is. No other row changes. */
  lemma FailedReplyWasNew(run: Run, n: nat, j: nat)
    requires IsRun(run) && n < j < |run.states| && run.steps[n].MarkFailed?
    ensures
      var m, rows, next := run.steps[n].id, run.states[n].db.rows, run.states[n + 1].db.rows;
      && m in rows && rows[m].status != Failed
      && (rows[m].status == New ==> next == rows[m := rows[m].(status := Failed)])
      && (rows[m].status != New ==> next == rows)
      && m in run.states[j].db.rows
      && (run.states[j].db.rows[m].status == Failed <==> rows[m].status == New)
  {
    hide Inv, Apply, Enabled;
    var s, m := run.states[n], run.steps[n].id;
    assert Follows(s, run.steps[n], run.states[n + 1]);
    RunKeepsInv(run, n);
    MarksAtItsTime(s, run.steps[n]);
    FailedStepMarks(s, m);
    RepliesAreKept(run, n + 1, j, m);
  }

  // A task marks a row that exists, that it has not failed before, and that has an author.
  lemma MarksAtItsTime(s: State, step: Step)
    requires Inv(s) && Enabled(s, step) && (step.MarkDelivered? || step.MarkFailed?)
    ensures step.id in s.db.rows && s.db.rows[step.id].status != Failed
    ensures s.db.rows[step.id].side.Operator? && s.db.rows[step.id].sender.Some?
  {
    TaskHasRow(s, step.id);
  }

  // ── A delivery from start to end ────────────────────────────────────

  lemma SpawnIs(s: State, m: Uuid)
    requires Enabled(s, Spawn(m))
    ensures m in s.db.rows && m in s.tasks && Apply(s, Spawn(m)) == s.(tasks := s.tasks[m := Spawned])
  {
  }

  lemma AnswersAre(s: State, m: Uuid, p: ExtId)
    requires m in s.tasks && s.tasks[m].Spawned? && m in s.db.rows
    ensures Enabled(s, SendRefused(m)) && Enabled(s, GiveUp(m))
    ensures Apply(s, SendRefused(m)) == s.(tasks := s.tasks[m := Errored], sends := s.sends + [m])
    ensures Apply(s, GiveUp(m)) == s.(tasks := s.tasks[m := Errored])
    ensures IsProviderId(p) && (s.db.rows[m].channel, p) !in s.origin ==>
      && Enabled(s, SendAccepted(m, p))
      && Apply(s, SendAccepted(m, p)) ==
           s.(tasks := s.tasks[m := Accepted(p)], sends := s.sends + [m], origin := s.origin[(s.db.rows[m].channel, p) := Reply(m)])
  {
  }

  lemma LostIs(s: State, m: Uuid)
    requires m in s.tasks && s.tasks[m].Accepted?
    ensures Enabled(s, LoseResponse(m)) && Apply(s, LoseResponse(m)) == s.(tasks := s.tasks[m := Errored])
  {
  }

  lemma AfterMarkIs(s: State, m: Uuid)
    requires m in s.tasks && s.tasks[m].Marked? && m in s.db.rows
    ensures Enabled(s, AdoptId(m)) && Enabled(s, AdoptAborts(m))
    ensures Apply(s, AdoptAborts(m)) == s.(tasks := s.tasks[m := Stranded(s.tasks[m].p)])
    ensures
      var next := Apply(s, AdoptId(m));
      && next == s.(db := s.db.(rows := next.db.rows), tasks := s.tasks[m := Adopted(s.tasks[m].p)])
      && m in next.db.rows && next.db.rows[m] == s.db.rows[m].(extId := s.tasks[m].p)
  {
  }

  lemma MarksAre(s: State, m: Uuid)
    requires m in s.tasks && m in s.db.rows
    ensures s.tasks[m].Accepted? ==>
      && Enabled(s, MarkDelivered(m, true))
      && var next := Apply(s, MarkDelivered(m, true));
         && next == s.(db := s.db.(rows := next.db.rows), tasks := s.tasks[m := Marked(s.tasks[m].p)])
         && m in next.db.rows
         && next.db.rows[m] == s.db.rows[m].(status := if s.db.rows[m].status == New then Delivered else s.db.rows[m].status)
    ensures s.tasks[m].Errored? ==>
      && Enabled(s, MarkFailed(m))
      && var next := Apply(s, MarkFailed(m));
         && next == s.(db := s.db.(rows := next.db.rows), tasks := s.tasks[m := Closed])
         && m in next.db.rows
         && next.db.rows[m] == s.db.rows[m].(status := if s.db.rows[m].status == New then Failed else s.db.rows[m].status)
  {
  }

  /** What the account owner writes in the provider's app, and what a customer writes, can be
      stored from then on: the one as an echo, the other as an inbound message, with or without
      their chat. */
  lemma ProviderIdsAreGiven(s: State, channel: Uuid, p: ExtId, customer: Uuid, chat: Option<Uuid>, id: Uuid, text: Option<string>, now: nat)
    requires IsProviderId(p) && (channel, p) !in s.origin && Fresh(s, id) && now >= s.db.clock && customer in s.db.clients
    requires ChatOfCustomer(s, chat, customer, channel)
    ensures Enabled(s, OwnMessage(channel, p, customer)) && Enabled(s, CustomerWrites(channel, p))
    ensures Enabled(Apply(s, OwnMessage(channel, p, customer)), Echo(id, channel, p, chat, text, now))
    ensures Enabled(Apply(s, CustomerWrites(channel, p)), StoreInbound(id, channel, p, Some(customer), chat, text, now))
  {
  }

  // A delivery the provider takes, one whose answer is lost, and one it refuses or never sees,
  // each step enabled when its turn comes.
  ghost function DeliveredTo(s: State, m: Uuid, p: ExtId): State
    requires Enabled(s, Spawn(m)) && IsProviderId(p) && (s.db.rows[m].channel, p) !in s.origin
  {
    var sent := Apply(Apply(s, Spawn(m)), SendAccepted(m, p));
    Apply(Apply(sent, MarkDelivered(m, true)), AdoptId(m))
  }

  ghost function Unanswered(s: State, m: Uuid, p: ExtId): State
    requires Enabled(s, Spawn(m)) && IsProviderId(p) && (s.db.rows[m].channel, p) !in s.origin
  {
    var sent := Apply(Apply(s, Spawn(m)), SendAccepted(m, p));
    Apply(Apply(sent, LoseResponse(m)), MarkFailed(m))
  }

  ghost function Undelivered(s: State, m: Uuid, sent: bool): State
    requires Enabled(s, Spawn(m))
  {
    var spawned := Apply(s, Spawn(m));
    Apply(Apply(spawned, if sent then SendRefused(m) else GiveUp(m)), MarkFailed(m))
  }

  /** A stored reply that may be spawned can be delivered to the end: the provider's id becomes
      known as the reply's, the row is Delivered unless a receipt was faster, and it carries that
      id. A lost answer, a refusal or giving up before sending ends with the row Failed if it was
      New. Either way the reply is sent at most once. */
  lemma DeliveryGoesThrough(s: State, m: Uuid, p: ExtId, sent: bool)
    requires Enabled(s, Spawn(m)) && IsProviderId(p) && (s.db.rows[m].channel, p) !in s.origin
    ensures
      var r, done, failed := s.db.rows[m], DeliveredTo(s, m, p), Undelivered(s, m, sent);
      && done.tasks == s.tasks[m := Adopted(p)] && done.sends == s.sends + [m]
      && done.origin == s.origin[(r.channel, p) := Reply(m)]
      && m in done.db.rows
      && done.db.rows[m] == r.(extId := p, status := if r.status == New then Delivered else r.status)
      && failed.tasks == s.tasks[m := Closed] && failed.sends == (if sent then s.sends + [m] else s.sends)
      && failed.origin == s.origin && m in failed.db.rows
      && failed.db.rows[m] == r.(status := if r.status == New then Failed else r.status)
    ensures
      var r, lost := s.db.rows[m], Unanswered(s, m, p);
      && lost.tasks == s.tasks[m := Closed] && lost.sends == s.sends + [m]
      && lost.origin == s.origin[(r.channel, p) := Reply(m)] && m in lost.db.rows
      && lost.db.rows[m] == r.(status := if r.status == New then Failed else r.status)
  {
    hide Apply, Enabled;
    SpawnIs(s, m);
    var spawned := Apply(s, Spawn(m));
    AnswersAre(spawned, m, p);
    var accepted := Apply(spawned, SendAccepted(m, p));
    MarksAre(accepted, m);
    AfterMarkIs(Apply(accepted, MarkDelivered(m, true)), m);
    LostIs(accepted, m);
    MarksAre(Apply(accepted, LoseResponse(m)), m);
    MarksAre(Apply(spawned, if sent then SendRefused(m) else GiveUp(m)), m);
  }

  // `step` completes a receipt by the customer of reply `m` for its provider id `p`: either
  // its first query changed something, or its fallback runs.
  ghost predicate CompletesReceipt(s: State, step: Step, m: Uuid, p: ExtId) {
    && m in s.db.rows
    && (s.db.rows[m].channel, p) in s.origin && s.origin[(s.db.rows[m].channel, p)] == Reply(m)
    && match step
       case ReceiptPrefix(rc) =>
         (rc.channel, rc.ext) == (s.db.rows[m].channel, p) && rc.reader.Client? && HitIds(s.db.rows, PrefixScope(s, rc), rc.reader) != {}
       case ReceiptSweep(rc) =>
         (rc.channel, rc.ext) == (s.db.rows[m].channel, p) && rc.reader.Client? && rc.client.Some? && rc.client == CustomerOf(s, m)
       case _ => false
  }

  lemma AnchorCoversReply(s: State, rc: Receipt, m: Uuid)
    requires Inv(s) && m in s.db.rows && IsProviderId(rc.ext)
    requires (rc.channel, rc.ext) in s.origin && s.origin[(rc.channel, rc.ext)] == Reply(m)
    requires PrefixScope(s, rc) != Nobody
    ensures Within(s.db.rows[m], PrefixScope(s, rc))
  {
  }

  lemma SweepCoversReply(s: State, rc: Receipt, m: Uuid)
    requires Inv(s) && m in s.tasks && rc.channel == s.db.rows[m].channel
    requires rc.client.Some? && rc.client == CustomerOf(s, m)
    ensures Within(s.db.rows[m], SweepScope(s, rc))
  {
  }

  lemma CoveredIsSettled(rows: Rows, scope: Scope, m: Uuid)
    requires m in rows && Within(rows[m], scope) && rows[m].side.Operator?
    ensures m in MarkRead(rows, scope, Client) && Settled(MarkRead(rows, scope, Client)[m].status)
  {
  }

  lemma ReceiptSettlesReply(s: State, step: Step, m: Uuid, p: ExtId)
    requires Inv(s) && Enabled(s, step) && CompletesReceipt(s, step, m, p)
    ensures m in Apply(s, step).db.rows && Settled(Apply(s, step).db.rows[m].status)
  {
    assert m in s.tasks && IsProviderId(p);
    TaskHasRow(s, m);
    match step {
      case ReceiptPrefix(rc) =>
        NobodyIsHit(s.db.rows, rc.reader);
        AnchorCoversReply(s, rc, m);
        CoveredIsSettled(s.db.rows, PrefixScope(s, rc), m);
      case ReceiptSweep(rc) =>
        SweepCoversReply(s, rc, m);
        CoveredIsSettled(s.db.rows, SweepScope(s, rc), m);
    }
    hide Inv, MarkRead, HitIds, PrefixScope, SweepScope, TaskRow;
  }

  lemma NobodyIsHit(rows: Rows, reader: Side)
    ensures HitIds(rows, Nobody, reader) == {}
  {
  }

  /** The central claim: however the delivery task's steps interleave with echoes of `p`,
      with the receipt for `p` and with anything else, once adoption has committed there is
      exactly one row under `p`. It is the operator's own row, author kept, and it is Read. */
  lemma AdoptedReplyIsReadOnce(run: Run, i: nat, j: nat, n: nat, m: Uuid, p: ExtId)
    requires IsRun(run) && i <= n < |run.states| && j < n
    requires m in run.states[i].tasks
    requires CompletesReceipt(run.states[j], run.steps[j], m, p)
    requires m in run.states[n].tasks && run.states[n].tasks[m] == Adopted(p)
    ensures
      var was, rows := run.states[i].db.rows, run.states[n].db.rows;
      && m in was && m in rows && was[m].sender.Some?
      && (forall id :: Under(rows, was[m].channel, p, id) <==> id == m)
      && rows[m].sender == was[m].sender && rows[m].side.Operator?
      && rows[m].status.Read?
  {
    hide Inv, CompletesReceipt, IsRun;
    RowOfTaskAlongRun(run, i, n, m);
    ReceiptHolds(run, j, n, m, p);
    RunKeepsInv(run, n);
    AdoptedRow(run.states[n], m, p);
  }

  lemma RowOfTaskAlongRun(run: Run, i: nat, n: nat, m: Uuid)
    requires IsRun(run) && i <= n < |run.states| && m in run.states[i].tasks
    ensures m in run.states[i].db.rows && m in run.states[n].db.rows
    ensures run.states[i].db.rows[m].sender.Some? && run.states[i].db.rows[m].side.Operator?
    ensures Evolves(run.states[i].db.rows[m], run.states[n].db.rows[m])
  {
    hide Inv;
    RunKeepsInv(run, i);
    TaskHasRow(run.states[i], m);
    RepliesAreKept(run, i, n, m);
  }

  // A completed receipt settles the reply for the rest of the run.
  lemma ReceiptHolds(run: Run, j: nat, n: nat, m: Uuid, p: ExtId)
    requires IsRun(run) && j < n < |run.states|
    requires CompletesReceipt(run.states[j], run.steps[j], m, p)
    requires m in run.states[n].db.rows
    ensures Settled(run.states[n].db.rows[m].status)
  {
    hide Inv, Apply, Enabled, CompletesReceipt;
    assert Follows(run.states[j], run.steps[j], run.states[j + 1]);
    RunKeepsInv(run, j);
    ReceiptSettlesReply(run.states[j], run.steps[j], m, p);
    StatusOnlyClimbs(run, j + 1, j + 1, n, m);
  }

  lemma AdoptedRow(s: State, m: Uuid, p: ExtId)
    requires m in s.tasks && s.tasks[m] == Adopted(p) && Inv(s)
    ensures m in s.db.rows && !s.db.rows[m].status.Failed?
    ensures forall id :: Under(s.db.rows, s.db.rows[m].channel, p, id) <==> id == m
  {
  }

  /** An echo and the reply it copies, while both rows exist: the echo has no author, the
      reply is no newer, and a Read echo means a settled reply. They sit in the same chat
      exactly when the echo's customer and chat could be resolved at all. */
  lemma EchoMatchesReply(run: Run, n: nat, e: Uuid, m: Uuid)
    requires IsRun(run) && n < |run.states| && e in run.states[n].db.rows && e != m
    requires
      var r := run.states[n].db.rows[e];
      IsProviderId(r.extId) && (r.channel, r.extId) in run.states[n].origin && run.states[n].origin[(r.channel, r.extId)] == Reply(m)
    ensures
      var rows := run.states[n].db.rows;
      && m in rows && rows[m].chat.Some? && rows[m].sender.Some? && rows[e].sender.None?
      && rows[m].channel == rows[e].channel && rows[m].extId != rows[e].extId
      && (rows[e].chat == rows[m].chat <==> rows[e].chat.Some?)
      && rows[m].createdAt <= rows[e].createdAt
      && (rows[e].status.Read? ==> Settled(rows[m].status))
  {
    var s := run.states[n];
    RunKeepsInv(run, n);
    assert Accounted(s.db.rows, s.origin, e);
    assert m in s.tasks;
    TaskHasRow(s, m);
  }

  /** Adoption always finds its row, deletes nothing but authorless copies of it, and a Read
      copy is deleted only when the reply itself is Read. */
  lemma AdoptionLosesNothing(run: Run, n: nat)
    requires IsRun(run) && n < |run.steps| && run.steps[n].AdoptId?
    ensures
      var m, rows, next := run.steps[n].id, run.states[n].db.rows, run.states[n + 1].db.rows;
      && m in rows && m in next
      && forall k :: k in rows && k !in next ==> rows[k].sender.None? && (rows[k].status.Read? ==> next[m].status.Read?)
  {
    var s, m := run.states[n], run.steps[n].id;
    assert Follows(s, run.steps[n], run.states[n + 1]);
    RunKeepsInv(run, n);
    TaskHasRow(s, m);
    var p := s.tasks[m].p;
    forall k | k in s.db.rows && Displaced(s.db.rows, m, p, k) ensures CopyOf(s.db.rows[k], s.db.rows[m]) {
      DisplacedAreCopies(s.db.rows, s.tasks, s.origin, m, p, k);
    }
  }

  // ── Provider ids ────────────────────────────────────────────────────

  lemma StepKeepsIds(s: State, step: Step, channel: Uuid, ext: ExtId)
    requires Inv(s) && Enabled(s, step) && !ext.OperatorId? && Taken(s.db.rows, channel, ext)
    ensures Taken(Apply(s, step).db.rows, channel, ext)
  {
    var next := Apply(s, step).db.rows;
    var id :| Under(s.db.rows, channel, ext, id);
    if step.AdoptId? {
      AdoptKeepsIds(s, step.id, channel, ext, id);
    } else {
      OtherStepKeepsIds(s, step, channel, ext, id);
    }
  }

  lemma AdoptKeepsIds(s: State, m: Uuid, channel: Uuid, ext: ExtId, id: Uuid)
    requires Inv(s) && m in s.tasks && s.tasks[m].Marked? && !ext.OperatorId? && Under(s.db.rows, channel, ext, id)
    ensures Taken(Adopt(s.db.rows, m, s.tasks[m].p), channel, ext)
  {
    TaskHasRow(s, m);
    var next := Adopt(s.db.rows, m, s.tasks[m].p);
    assert id != m;
    assert Under(next, channel, ext, if Displaced(s.db.rows, m, s.tasks[m].p, id) then m else id);
  }

  lemma InsertKeepsIds(db: Db, k: Uuid, r: Row, channel: Uuid, ext: ExtId, id: Uuid)
    requires k !in db.rows && Under(db.rows, channel, ext, id)
    ensures Under(InsertRow(db, k, r).rows, channel, ext, id)
  {
  }

  lemma MarkKeepsIds(rows: Rows, k: Uuid, channel: Uuid, ext: ExtId, id: Uuid)
    requires Under(rows, channel, ext, id)
    ensures Under(MarkIfNew(rows, k, Delivered), channel, ext, id) && Under(MarkIfNew(rows, k, Failed), channel, ext, id)
  {
  }

  lemma EditKeepsIds(rows: Rows, at: Uuid, edited: ExtId, text: Option<string>, now: nat, channel: Uuid, ext: ExtId, id: Uuid)
    requires Under(rows, channel, ext, id)
    ensures Under(EditRows(rows, at, edited, text, now), channel, ext, id)
  {
  }

  lemma QueryKeepsIds(rows: Rows, scope: Scope, reader: Side, channel: Uuid, ext: ExtId, id: Uuid)
    requires Under(rows, channel, ext, id)
    ensures Under(MarkRead(rows, scope, reader), channel, ext, id)
  {
  }

  lemma OtherStepKeepsIds(s: State, step: Step, channel: Uuid, ext: ExtId, id: Uuid)
    requires Enabled(s, step) && !step.AdoptId? && s.db.rows.Keys <= s.used && Under(s.db.rows, channel, ext, id)
    ensures Under(Apply(s, step).db.rows, channel, ext, id)
  {
    hide Apply, Enabled, Under, QueryScope, RowOfStep, InsertRow, Accepts, MarkRead, HitIds, MarkIfNew, EditRows;
    if Queries(step) {
      QueryIsRead(s, step);
      QueryKeepsIds(s.db.rows, QueryScope(s, step), QueryReader(step), channel, ext, id);
    } else if Inserts(step) {
      StepIsInsert(s, step);
      InsertKeepsIds(s.db, step.id, RowOfStep(s, step), channel, ext, id);
    } else if Adds(step) {
      StepIsAdd(s, step);
    } else if Marks(step) {
      StepIsMark(s, step);
      MarkKeepsIds(s.db.rows, step.id, channel, ext, id);
    } else if step.Edit? {
      EditIs(s, step);
      EditKeepsIds(s.db.rows, step.channel, step.ext, step.text, step.now, channel, ext, id);
    } else {
      StepIsQuiet(s, step);
    }
  }

  /** The ids held on a channel, local reply ids aside, only grow over a run. */
  lemma {:induction false} IdsOnlyGrow(run: Run, i: nat, j: nat, channel: Uuid, ext: ExtId)
    requires IsRun(run) && i <= j < |run.states|
    requires !ext.OperatorId? && Taken(run.states[i].db.rows, channel, ext)
    ensures Taken(run.states[j].db.rows, channel, ext)
    decreases j
  {
    hide Inv, Apply, Enabled;
    if i < j {
      IdsOnlyGrow(run, i, j - 1, channel, ext);
      assert Follows(run.states[j - 1], run.steps[j - 1], run.states[j]);
      RunKeepsInv(run, j - 1);
      StepKeepsIds(run.states[j - 1], run.steps[j - 1], channel, ext);
    }
  }

  /** Processing an inbound message or an echo again, at any later point and after any
      adoption, changes no message row. */
  lemma ReprocessingIsHarmless(run: Run, i: nat, j: nat)
    requires IsRun(run) && i <= j < |run.steps|
    requires run.steps[j].Echo? || run.steps[j].StoreInbound?
    requires
      var ext := if run.steps[j].Echo? then run.steps[j].p else run.steps[j].ext;
      Taken(run.states[i].db.rows, run.steps[j].channel, ext)
    ensures run.states[j + 1].db.rows == run.states[j].db.rows
  {
    var step := run.steps[j];
    assert Follows(run.states[j], step, run.states[j + 1]);
    RunKeepsInv(run, j);
    var ext := if step.Echo? then step.p else step.ext;
    if step.Echo? {
      EchoNamesProviderId(run.states[j], step);
    }
    IdsOnlyGrow(run, i, j, step.channel, ext);
  }

  lemma EchoNamesProviderId(s: State, step: Step)
    requires Inv(s) && step.Echo? && Enabled(s, step)
    ensures IsProviderId(step.p)
  {
  }
}
