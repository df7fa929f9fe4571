/**
 Whether a provider call arms a channel that is deleted: when it can, and exactly when it
 does, over all runs of the channel requests.
 */
module ChannelArming {
  import opened ExternalId
  import opened Model
  import opened ChannelTable
  import opened ChannelLifecycle

  predicate Alive(channels: Channels, id: Uuid) {
    id in channels && !channels[id].deleted
  }

  // An update that writes its row.
  predicate Writes(s: State, k: nat) {
    && At(s, k) && s.tasks[k].Editing? && s.tasks[k].id in s.channels
    && var plan := PlanOf(s.tasks[k].existing, s.tasks[k].request, s.tasks[k].identity);
       && plan.Some?
       && !KeyClash(s.channels, s.tasks[k].id,
                    UpdateRow(s.channels[s.tasks[k].id], s.tasks[k].request.name, plan.value.key, plan.value.config, s.tasks[k].request.restore))
  }

  // A login's upsert lands on this id.
  ghost predicate UpsertsOn(s: State, k: nat, id: Uuid) {
    && At(s, k) && s.tasks[k].LoggingIn?
    && match Holder(s.channels, Instagram, s.tasks[k].account)
       case Some(held) => held == id
       case None => s.tasks[k].id == id && id !in s.channels
  }

  // The step inserts the row or clears its `deleted_at`.
  ghost predicate Revives(s: State, step: Step, id: Uuid) {
    match step
    case Create(_, created, c) => created == id && !KeyTaken(s.channels, c.provider, c.key)
    case CommitEdit(k) => Writes(s, k) && s.tasks[k].id == id && s.tasks[k].request.restore
    case Upsert(k, _, _) => UpsertsOn(s, k, id)
    case _ => false
  }

  // The step deletes the row, softly or by rolling back.
  predicate Deletes(s: State, step: Step, id: Uuid) {
    match step
    case SoftDelete(_, deleted) => deleted == id
    case Rollback(k, ok) => ok && At(s, k) && s.tasks[k].RollingBack? && s.tasks[k].id == id
    case _ => false
  }

  // ── One step ────────────────────────────────────────────────────────

  lemma CommitIs(s: State, k: nat)
    requires Enabled(s, CommitEdit(k))
    ensures
      var next, t := Apply(s, CommitEdit(k)), s.tasks[k];
      if Writes(s, k) then
        && next.channels.Keys == s.channels.Keys
        && (forall id :: id in s.channels && id != t.id ==> next.channels[id] == s.channels[id])
        && next.channels[t.id].deleted == (!t.request.restore && s.channels[t.id].deleted)
        && next.tasks[k] == ArmingTask(t.id, next.channels[t.id].key, PlanOf(t.existing, t.request, t.identity).value.rearm)
      else
        next.channels == s.channels && next.tasks[k] == Finished
  {
    hide PlanOf, KeyClash;
  }

  lemma UpsertLives(s: State, k: nat, name: string, config: Config, id: Uuid)
    requires Enabled(s, Upsert(k, name, config))
    ensures
      var next := Apply(s, Upsert(k, name, config));
      Alive(next.channels, id) <==> UpsertsOn(s, k, id) || Alive(s.channels, id)
  {
  }

  lemma CreateLives(s: State, k: nat, created: Uuid, c: Channel, id: Uuid)
    requires Enabled(s, Create(k, created, c))
    ensures
      var step := Create(k, created, c);
      Alive(Apply(s, step).channels, id) <==> Revives(s, step, id) || Alive(s.channels, id)
  {
    hide KeyTaken, ConfigFits, BirthOf;
  }

  lemma RollbackLives(s: State, k: nat, ok: bool, id: Uuid)
    requires Enabled(s, Rollback(k, ok))
    ensures Alive(Apply(s, Rollback(k, ok)).channels, id) <==> Alive(s.channels, id) && !Deletes(s, Rollback(k, ok), id)
  {
  }

  lemma DeleteLives(s: State, k: nat, deleted: Uuid, id: Uuid)
    requires Enabled(s, SoftDelete(k, deleted))
    ensures Alive(Apply(s, SoftDelete(k, deleted)).channels, id) <==> Alive(s.channels, id) && deleted != id
  {
  }

  lemma WriteBackLives(s: State, k: nat, config: Config, id: Uuid)
    requires Enabled(s, StoreRefreshed(k, config))
    ensures Alive(Apply(s, StoreRefreshed(k, config)).channels, id) <==> Alive(s.channels, id)
  {
  }

  /** One step of any request decides whether a row is alive. */
  lemma StepLives(s: State, step: Step, id: Uuid)
    requires Enabled(s, step)
    ensures Alive(Apply(s, step).channels, id) <==> Revives(s, step, id) || (Alive(s.channels, id) && !Deletes(s, step, id))
    ensures !(Revives(s, step, id) && Deletes(s, step, id))
  {
    match step {
      case CommitEdit(k) => CommitIs(s, k);
      case Upsert(k, name, config) => UpsertLives(s, k, name, config, id);
      case Create(k, created, c) => CreateLives(s, k, created, c, id);
      case Rollback(k, ok) => RollbackLives(s, k, ok, id);
      case SoftDelete(k, deleted) => DeleteLives(s, k, deleted, id);
      case StoreRefreshed(k, config) => WriteBackLives(s, k, config, id);
      case StartLogin(k, account, at) => LoginStarts(s, k, account, at);
      case _ => StepMoves(s, step);
    }
    hide Apply, Enabled, Writes, UpsertsOn, KeyTaken, TaskAfter;
  }

  // ── Along a run ─────────────────────────────────────────────────────

  ghost predicate RevivedAt(run: Run, r: nat, id: Uuid) {
    r < |run.steps| && r < |run.states| && Revives(run.states[r], run.steps[r], id)
  }

  ghost predicate DeletedAt(run: Run, d: nat, id: Uuid) {
    d < |run.steps| && d < |run.states| && Deletes(run.states[d], run.steps[d], id)
  }

  ghost predicate RevivedIn(run: Run, from: nat, to: nat, id: Uuid) {
    exists r :: from <= r < to && RevivedAt(run, r, id)
  }

  // A delete after which nothing brings the row back.
  ghost predicate LeftDeleted(run: Run, from: nat, to: nat, id: Uuid) {
    exists d :: from <= d < to && DeletedAt(run, d, id) && !RevivedIn(run, d + 1, to, id)
  }

  lemma NextIsApplied(run: Run, i: nat)
    requires IsRun(run) && i < |run.steps|
    ensures Enabled(run.states[i], run.steps[i]) && run.states[i + 1] == Apply(run.states[i], run.steps[i])
  {
  }

  lemma HistoryGrows(run: Run, b: nat, c: nat, id: Uuid)
    requires b <= c
    requires !(RevivedAt(run, c, id) && DeletedAt(run, c, id))
    ensures RevivedIn(run, b, c + 1, id) <==> RevivedIn(run, b, c, id) || RevivedAt(run, c, id)
    ensures LeftDeleted(run, b, c + 1, id) <==> DeletedAt(run, c, id) || (LeftDeleted(run, b, c, id) && !RevivedAt(run, c, id))
  {
    hide RevivedAt, DeletedAt;
    if LeftDeleted(run, b, c, id) && !RevivedAt(run, c, id) {
      var d :| b <= d < c && DeletedAt(run, d, id) && !RevivedIn(run, d + 1, c, id);
      assert !RevivedIn(run, d + 1, c + 1, id);
    }
    if DeletedAt(run, c, id) {
      assert !RevivedIn(run, c + 1, c + 1, id);
    }
    if LeftDeleted(run, b, c + 1, id) && !DeletedAt(run, c, id) {
      var d :| b <= d < c + 1 && DeletedAt(run, d, id) && !RevivedIn(run, d + 1, c + 1, id);
      assert d < c && !RevivedIn(run, d + 1, c, id);
    }
  }

  /** Over any stretch of any run, a row ends alive exactly when it began alive or came back,
      and no delete was left standing. */
  lemma {:induction false} AliveAlong(run: Run, b: nat, c: nat, id: Uuid)
    requires IsRun(run) && b <= c < |run.states|
    ensures Alive(run.states[c].channels, id) <==>
      (Alive(run.states[b].channels, id) || RevivedIn(run, b, c, id)) && !LeftDeleted(run, b, c, id)
    decreases c
  {
    hide Apply, Enabled, Revives, Deletes, Alive, RevivedIn, LeftDeleted;
    if b == c {
      NothingYet(run, b, id);
    } else {
      AliveAlong(run, b, c - 1, id);
      NextIsApplied(run, c - 1);
      StepLives(run.states[c - 1], run.steps[c - 1], id);
      HistoryGrows(run, b, c - 1, id);
    }
  }

  lemma NothingYet(run: Run, b: nat, id: Uuid)
    ensures !RevivedIn(run, b, b, id) && !LeftDeleted(run, b, b, id)
  {
  }

  // ── Provider calls that arm ─────────────────────────────────────────

  // setWebhook or a subscription, by a create, an update, a re-registration or a login.
  predicate Arms(step: Step) {
    step.Arm? || step.Rearm? || step.Resubscribe? || step.Subscribe?
  }

  // The request's own statement before that call.
  predicate Prepares(step: Step, k: nat) {
    (step.Create? || step.CommitEdit? || step.StartRegister? || step.Upsert?) && step.k == k
  }

  predicate AboutToArm(t: Task) {
    t.Arming? || t.Rearming? || t.Resubscribing? || t.Subscribing?
  }

  predicate Past(t: Task) {
    AboutToArm(t) || t.RollingBack? || t.Finished?
  }

  predicate IsOf(step: Step, k: nat) {
    step.k == k
  }

  lemma UpsertKeepsOthers(s: State, j: nat, k: nat, name: string, config: Config)
    requires Enabled(s, Upsert(j, name, config)) && At(s, k) && j != k
    ensures
      var next := Apply(s, Upsert(j, name, config));
      At(next, k) && next.tasks[k] == s.tasks[k]
  {
    hide Holder;
  }

  lemma CreateKeepsOthers(s: State, j: nat, k: nat, id: Uuid, c: Channel)
    requires Enabled(s, Create(j, id, c)) && At(s, k) && j != k
    ensures
      var next := Apply(s, Create(j, id, c));
      At(next, k) && next.tasks[k] == s.tasks[k]
  {
    hide KeyTaken, BirthOf, ConfigFits;
  }

  lemma OthersKeepTask(s: State, step: Step, k: nat)
    requires Enabled(s, step) && At(s, k) && !IsOf(step, k)
    ensures At(Apply(s, step), k) && Apply(s, step).tasks[k] == s.tasks[k]
  {
    hide Apply, Enabled;
    match step {
      case Create(j, id, c) => CreateKeepsOthers(s, j, k, id, c);
      case Upsert(j, name, config) => UpsertKeepsOthers(s, j, k, name, config);
      case StartLogin(j, account, id) => LoginStarts(s, j, account, id);
      case _ => OthersRewrite(s, step);
    }
  }

  // Of the steps that can follow once a request is past its statement, none calls again.
  lemma OwnStepStaysPast(s: State, step: Step, k: nat)
    requires Enabled(s, step) && At(s, k) && Past(s.tasks[k]) && IsOf(step, k)
    ensures
      var next := Apply(s, step).tasks;
      k in next && Past(next[k]) && !AboutToArm(next[k])
  {
    OwnStepIs(s, step, k);
    if step.Rollback? {
      RollbackRewrites(s, k, step.ok);
    } else {
      StepMoves(s, step);
    }
    hide Apply, Enabled;
  }

  lemma OwnStepIs(s: State, step: Step, k: nat)
    requires Enabled(s, step) && At(s, k) && Past(s.tasks[k]) && IsOf(step, k)
    ensures step.Arm? || step.Rollback? || step.Rearm? || step.Resubscribe? || step.Subscribe?
  {
    hide Holder, ConfigFits, PlanOf, Replaces;
  }

  lemma PastStays(s: State, step: Step, k: nat)
    requires Enabled(s, step) && At(s, k) && Past(s.tasks[k])
    ensures
      var next := Apply(s, step).tasks;
      k in next && Past(next[k]) && (AboutToArm(next[k]) ==> next[k] == s.tasks[k])
  {
    hide Apply, Enabled;
    if IsOf(step, k) {
      OwnStepStaysPast(s, step, k);
    } else {
      OthersKeepTask(s, step, k);
    }
  }

  lemma {:induction false} PastAlong(run: Run, b: nat, c: nat, k: nat)
    requires IsRun(run) && b <= c < |run.states| && At(run.states[b], k) && Past(run.states[b].tasks[k])
    ensures At(run.states[c], k) && Past(run.states[c].tasks[k])
    ensures AboutToArm(run.states[c].tasks[k]) ==> run.states[c].tasks[k] == run.states[b].tasks[k]
    decreases c
  {
    hide Apply, Enabled;
    if b < c {
      PastAlong(run, b, c - 1, k);
      NextIsApplied(run, c - 1);
      PastStays(run.states[c - 1], run.steps[c - 1], k);
    }
  }

  // The channel is alive once the request's statement is through.
  predicate BeginsAlive(s: State, step: Step, id: Uuid) {
    step.CommitEdit? ==> Alive(s.channels, id) || (At(s, step.k) && s.tasks[step.k].Editing? && s.tasks[step.k].request.restore)
  }

  // After its statement the request either calls the provider or is done.
  ghost predicate Prepared(s: State, step: Step, next: State, k: nat) {
    && At(next, k) && Past(next.tasks[k])
    && (AboutToArm(next.tasks[k]) ==> (Alive(next.channels, next.tasks[k].id) <==> BeginsAlive(s, step, next.tasks[k].id)))
  }

  lemma CommitPrepares(s: State, k: nat)
    requires Enabled(s, CommitEdit(k))
    ensures Prepared(s, CommitEdit(k), Apply(s, CommitEdit(k)), k)
  {
    CommitIs(s, k);
    hide Apply, PlanOf, KeyClash, UpdateRow;
  }

  lemma UpsertPrepares(s: State, k: nat, name: string, config: Config)
    requires Enabled(s, Upsert(k, name, config))
    ensures Prepared(s, Upsert(k, name, config), Apply(s, Upsert(k, name, config)), k)
  {
  }

  lemma CreatePrepares(s: State, k: nat, id: Uuid, c: Channel)
    requires Enabled(s, Create(k, id, c))
    ensures Prepared(s, Create(k, id, c), Apply(s, Create(k, id, c)), k)
  {
  }

  lemma RegisterPrepares(s: State, k: nat, id: Uuid)
    requires Enabled(s, StartRegister(k, id))
    ensures Prepared(s, StartRegister(k, id), Apply(s, StartRegister(k, id)), k)
  {
  }

  lemma StatementPrepares(s: State, step: Step, k: nat)
    requires Enabled(s, step) && Prepares(step, k)
    ensures Prepared(s, step, Apply(s, step), k)
  {
    hide Apply, Enabled, Prepared;
    match step {
      case CommitEdit(_) => CommitPrepares(s, k);
      case Upsert(_, name, config) => UpsertPrepares(s, k, name, config);
      case Create(_, id, c) => CreatePrepares(s, k, id, c);
      case StartRegister(_, id) => RegisterPrepares(s, k, id);
    }
  }

  // Only a request's statement brings it to its call.
  lemma OnlyStatementsPrepare(s: State, step: Step, k: nat)
    requires Enabled(s, step) && At(Apply(s, step), k) && AboutToArm(Apply(s, step).tasks[k]) && !Prepares(step, k)
    ensures At(s, k) && AboutToArm(s.tasks[k])
  {
    if IsOf(step, k) {
      OwnOtherStep(s, step, k);
    } else if At(s, k) {
      OthersKeepTask(s, step, k);
    } else {
      NoNewTask(s, step, k);
    }
    hide Apply, Enabled;
  }

  lemma OwnOtherStep(s: State, step: Step, k: nat)
    requires Enabled(s, step) && IsOf(step, k) && !Prepares(step, k)
    ensures At(Apply(s, step), k) && !AboutToArm(Apply(s, step).tasks[k])
  {
    match step {
      case Rollback(_, ok) => RollbackRewrites(s, k, ok);
      case SoftDelete(_, id) => DeleteEnds(s, k, id);
      case StoreRefreshed(_, config) => WriteBackRewrites(s, k, config);
      case StartLogin(_, account, id) => LoginStarts(s, k, account, id);
      case _ => StepMoves(s, step);
    }
    hide Apply, Enabled;
  }

  lemma DeleteEnds(s: State, k: nat, id: Uuid)
    requires Enabled(s, SoftDelete(k, id))
    ensures At(Apply(s, SoftDelete(k, id)), k) && !AboutToArm(Apply(s, SoftDelete(k, id)).tasks[k])
  {
  }

  lemma CreateStartsOwn(s: State, j: nat, id: Uuid, c: Channel)
    requires Enabled(s, Create(j, id, c))
    ensures Apply(s, Create(j, id, c)).tasks.Keys == s.tasks.Keys + {j}
  {
    hide KeyTaken, BirthOf, ConfigFits;
  }

  lemma UpsertStartsNone(s: State, j: nat, name: string, config: Config)
    requires Enabled(s, Upsert(j, name, config))
    ensures Apply(s, Upsert(j, name, config)).tasks.Keys == s.tasks.Keys
  {
    hide Holder;
  }

  lemma NoNewTask(s: State, step: Step, k: nat)
    requires Enabled(s, step) && !At(s, k) && !IsOf(step, k)
    ensures !At(Apply(s, step), k)
  {
    hide Apply, Enabled;
    match step {
      case Create(j, id, c) => CreateStartsOwn(s, j, id, c);
      case Upsert(j, name, config) => UpsertStartsNone(s, j, name, config);
      case StartLogin(j, account, id) => LoginStarts(s, j, account, id);
      case _ => OthersRewrite(s, step);
    }
  }

  /** Every such call follows a statement of its own request. */
  lemma {:induction false} CallsArePrepared(run: Run, c: nat, k: nat)
    requires IsRun(run) && c < |run.states| && At(run.states[c], k) && AboutToArm(run.states[c].tasks[k])
    ensures exists a :: 0 <= a < c && Prepares(run.steps[a], k)
  {
    hide Apply, Enabled;
    assert c > 0;
    NextIsApplied(run, c - 1);
    if !Prepares(run.steps[c - 1], k) {
      OnlyStatementsPrepare(run.states[c - 1], run.steps[c - 1], k);
      CallsArePrepared(run, c - 1, k);
    }
  }

  /** Every call that arms a channel, in any run: the channel is alive at the call exactly when
      the request's own statement left it alive, or something revived it since, and no delete
      since then was left standing. An update's commit leaves it alive when it restores or the
      channel was still alive; an insert, a login and a re-registration always do. */
  lemma ArmsTheLiving(run: Run, a: nat, c: nat)
    requires IsRun(run) && a < c < |run.steps| && Arms(run.steps[c]) && Prepares(run.steps[a], run.steps[c].k)
    ensures
      var k := run.steps[c].k;
      && At(run.states[c], k) && AboutToArm(run.states[c].tasks[k])
      && var id := run.states[c].tasks[k].id;
         Alive(run.states[c].channels, id) <==>
           (BeginsAlive(run.states[a], run.steps[a], id) || RevivedIn(run, a + 1, c, id)) && !LeftDeleted(run, a + 1, c, id)
  {
    var k := run.steps[c].k;
    NextIsApplied(run, a);
    NextIsApplied(run, c);
    assert At(run.states[c], k) && AboutToArm(run.states[c].tasks[k]);
    hide Apply, Enabled, Alive, RevivedIn, LeftDeleted, BeginsAlive, IsRun;
    StatementPrepares(run.states[a], run.steps[a], k);
    PastAlong(run, a + 1, c, k);
    AliveAlong(run, a + 1, c, run.states[c].tasks[k].id);
  }

  // ── How a deleted channel gets armed ────────────────────────────────

  const SUCCESS := Answer(true, true)

  ghost predicate Follows(s: State, step: Step, next: State) {
    Enabled(s, step) && next == Apply(s, step)
  }

  lemma FollowsIs(s: State, step: Step, next: State)
    requires Follows(s, step, next)
    ensures Enabled(s, step) && next == Apply(s, step)
  {
  }

  // The bot is hooked to a channel that is deleted.
  predicate DeletedIsHooked(s: State, id: Uuid) {
    id in s.channels && s.channels[id].deleted && s.channels[id].key in s.hooks && s.hooks[s.channels[id].key].channel == id
  }

  // A create, an update or a re-registration is about to call setWebhook.
  predicate WillCall(s: State, k: nat, id: Uuid) {
    && At(s, k) && id in s.born && s.born[id].provider.Telegram?
    && ((s.tasks[k].Arming? && s.tasks[k].id == id) || (s.tasks[k].Rearming? && s.tasks[k].id == id))
  }

  function CallOf(s: State, k: nat): Step
    requires At(s, k)
  {
    if s.tasks[k].Arming? then Arm(k, SUCCESS) else Rearm(k, SUCCESS)
  }

  // A delete of a Telegram channel, run to its end.
  lemma DeleteUnhooks(s: State, d: nat, id: Uuid, deleted: State, unhooked: State)
    requires id in s.channels && s.channels[id].provider.Telegram?
    requires Follows(s, SoftDelete(d, id), deleted) && Follows(deleted, Unhook(d, SUCCESS), unhooked)
    ensures unhooked.channels == s.channels[id := s.channels[id].(deleted := true)] && unhooked.born == s.born
    ensures s.channels[id].key !in unhooked.hooks
    ensures forall k :: At(s, k) ==> At(unhooked, k) && unhooked.tasks[k] == s.tasks[k]
  {
  }

  lemma CallHooks(s: State, k: nat, id: Uuid)
    requires WillCall(s, k, id) && id in s.channels && s.channels[id].deleted
    requires TaskOk(s.channels.Keys, s.born, s.inserter, k, s.tasks[k]) && Fits(s.channels[id], s.born[id])
    ensures Enabled(s, CallOf(s, k)) && DeletedIsHooked(Apply(s, CallOf(s, k)), id)
  {
  }

  /** Whenever a setWebhook is due, a delete that runs before it, to its end and with the bot
      unhooked, leaves the call hooking the bot to a deleted channel: for a create, for an
      update, restoring or not, and for a re-registration. */
  lemma DeleteBeforeCallIsUndone(s: State, k: nat, d: nat, id: Uuid, deleted: State, unhooked: State)
    requires Inv(s) && WillCall(s, k, id) && Alive(s.channels, id)
    requires Follows(s, SoftDelete(d, id), deleted) && Follows(deleted, Unhook(d, SUCCESS), unhooked)
    ensures s.channels[id].key !in unhooked.hooks
    ensures Enabled(unhooked, CallOf(s, k)) && DeletedIsHooked(Apply(unhooked, CallOf(s, k)), id)
  {
    assert Fits(s.channels[id], s.born[id]);
    DeleteUnhooks(s, d, id, deleted, unhooked);
    StepKeepsInv(s, SoftDelete(d, id));
    StepKeepsInv(deleted, Unhook(d, SUCCESS));
    assert TaskOk(unhooked.channels.Keys, unhooked.born, unhooked.inserter, k, unhooked.tasks[k]);
    hide Inv, Apply, Enabled, TaskOk, DeletedIsHooked;
    CallHooks(unhooked, k, id);
  }

  // An update that read its row alive and will set a webhook.
  ghost predicate WillArm(s: State, k: nat) {
    && At(s, k) && s.tasks[k].Editing? && Enabled(s, CommitEdit(k)) && !s.tasks[k].request.restore
    && var plan := PlanOf(s.tasks[k].existing, s.tasks[k].request, s.tasks[k].identity);
       plan.Some? && plan.value.rearm.Webhook?
  }

  lemma UpdatesTelegram(s: State, k: nat)
    requires RowsFit(s.channels, s.born) && WillArm(s, k) && s.tasks[k].id in s.channels
    requires TaskOk(s.channels.Keys, s.born, s.inserter, k, s.tasks[k])
    ensures s.channels[s.tasks[k].id].provider.Telegram?
  {
    PlanKeepsIdentity(s.tasks[k].existing, s.tasks[k].request, s.tasks[k].identity);
    assert Fits(s.channels[s.tasks[k].id], s.born[s.tasks[k].id]);
    hide PlanOf, Replaces;
  }

  lemma CommitThenArm(s: State, k: nat)
    requires Inv(s) && WillArm(s, k) && s.tasks[k].id in s.channels && s.channels[s.tasks[k].id].deleted
    ensures
      var id, committed := s.tasks[k].id, Apply(s, CommitEdit(k));
      && Enabled(committed, Rearm(k, SUCCESS))
      && var armed := Apply(committed, Rearm(k, SUCCESS));
         DeletedIsHooked(armed, id)
  {
  }

  /** A delete that falls between such an update's read and its commit, run to its end, leaves
      the bot unhooked; the update goes on to arm the deleted channel. */
  lemma OvertakenUpdateArmsDeletedChannel(s: State, k: nat, d: nat, deleted: State, unhooked: State, committed: State)
    requires Inv(s) && WillArm(s, k) && s.tasks[k].id in s.channels
    requires Follows(s, SoftDelete(d, s.tasks[k].id), deleted)
    requires Follows(deleted, Unhook(d, SUCCESS), unhooked)
    requires Follows(unhooked, CommitEdit(k), committed)
    ensures s.channels[s.tasks[k].id].key !in unhooked.hooks
    ensures Enabled(committed, Rearm(k, SUCCESS))
    ensures
      var id, armed := s.tasks[k].id, Apply(committed, Rearm(k, SUCCESS));
      DeletedIsHooked(armed, id)
  {
    assert TaskOk(s.channels.Keys, s.born, s.inserter, k, s.tasks[k]);
    UpdatesTelegram(s, k);
    DeleteUnhooks(s, d, s.tasks[k].id, deleted, unhooked);
    assert WillArm(unhooked, k);
    hide Inv, Apply, WillArm;
    StepKeepsInv(s, SoftDelete(d, s.tasks[k].id));
    StepKeepsInv(deleted, Unhook(d, SUCCESS));
    CommitThenArm(unhooked, k);
  }

  // ── From the start ──────────────────────────────────────────────────

  const BOT := Channel(Telegram, "bot", "7", TelegramConfig("7:a", "s"), false)
  const HOOK := Hook(1, "s")

  // A delete between a create's insert and its setWebhook.
  function Overtaken(n: nat): State {
    var born: map<Uuid, Birth> := map[1 := Birth(Telegram, "7", "s")];
    var inserter: map<Uuid, nat> := map[1 := 0];
    var live: Channels := map[1 := BOT];
    var gone: Channels := map[1 := BOT.(deleted := true)];
    if n == 0 then INITIAL
    else if n == 1 then State(live, born, inserter, map[0 := Arming(1)], map[], [])
    else if n == 2 then State(gone, born, inserter, map[0 := Arming(1), 1 := Unhooking("7")], map[], [])
    else if n == 3 then State(gone, born, inserter, map[0 := Arming(1), 1 := Finished], map[], [])
    else State(gone, born, inserter, map[0 := Finished, 1 := Finished], map["7" := HOOK], [SetWebhook("7", HOOK)])
  }

  function OvertakingStep(n: nat): Step {
    if n == 0 then Create(0, 1, BOT)
    else if n == 1 then SoftDelete(1, 1)
    else if n == 2 then Unhook(1, SUCCESS)
    else Arm(0, SUCCESS)
  }

  ghost predicate OvertakenFollows(n: nat) {
    Follows(Overtaken(n), OvertakingStep(n), Overtaken(n + 1))
  }

  lemma CreateFollows()
    ensures OvertakenFollows(0)
  {
    assert !KeyTaken(INITIAL.channels, Telegram, "7");
  }

  lemma DeleteFollows()
    ensures OvertakenFollows(1)
  {
  }

  lemma UnhookFollows()
    ensures OvertakenFollows(2)
  {
  }

  lemma ArmFollows()
    ensures OvertakenFollows(3)
  {
  }

  /** Two requests on an empty table are enough: a create and a delete of the new channel. */
  lemma CreateArmsItsDeletedChannel()
    ensures exists run :: IsRun(run) && |run.steps| == 4 && DeletedIsHooked(run.states[4], 1)
  {
    var run := Run(seq(5, n requires 0 <= n < 5 => Overtaken(n)), seq(4, n requires 0 <= n < 4 => OvertakingStep(n)));
    assert DeletedIsHooked(Overtaken(4), 1) && Overtaken(0) == INITIAL;
    CreateFollows();
    DeleteFollows();
    UnhookFollows();
    ArmFollows();
    hide Overtaken, OvertakingStep, Enabled, Apply;
    forall i | 0 <= i < 4
      ensures Enabled(run.states[i], run.steps[i]) && run.states[i + 1] == Apply(run.states[i], run.steps[i])
    {
      assert OvertakenFollows(i);
    }
    assert IsRun(run);
  }
}
