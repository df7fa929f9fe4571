/**
 The channel requests of `ChannelLifecycle` run alone, statement after statement, against the
 contracts of `ChannelAdmin`.
 */
module ChannelAlone {
  import opened Wrappers
  import opened ExternalId
  import opened Model
  import opened ChannelTable
  import opened ChannelLifecycle
  import ChannelAdmin

  // ── One step at a time ──────────────────────────────────────────────

  lemma ArmIs(s: State, k: nat, answer: Answer)
    requires At(s, k) && s.tasks[k].Arming? && s.tasks[k].id in s.born && Possible(answer)
    ensures Enabled(s, Arm(k, answer)) && Apply(s, Arm(k, answer)) == AfterArming(s, k, s.tasks[k].id, answer)
  {
    hide AfterArming;
  }

  lemma RollbackIs(s: State, k: nat, ok: bool)
    requires At(s, k) && s.tasks[k].RollingBack?
    ensures Enabled(s, Rollback(k, ok))
    ensures Apply(s, Rollback(k, ok)) == s.(channels := if ok then s.channels - {s.tasks[k].id} else s.channels, tasks := s.tasks[k := Finished])
  {
  }

  lemma CommitIs(s: State, k: nat)
    requires Enabled(s, CommitEdit(k))
    ensures At(s, k) && s.tasks[k].Editing? && Apply(s, CommitEdit(k)) == Committed(s, k, s.tasks[k])
  {
    hide Committed;
  }

  lemma RearmIs(s: State, k: nat, answer: Answer)
    requires At(s, k) && s.tasks[k].Rearming? && Possible(answer)
    ensures Enabled(s, Rearm(k, answer))
    ensures
      var t := s.tasks[k];
      Apply(s, Rearm(k, answer)) == s.(
        hooks := HooksAfterSet(s.hooks, t.bot, Hook(t.id, t.secret), answer),
        issued := s.issued + [SetWebhook(t.bot, Hook(t.id, t.secret))],
        tasks := s.tasks[k := Finished])
  {
    hide HooksAfterSet;
  }

  lemma ResubscribeIs(s: State, k: nat)
    requires At(s, k) && s.tasks[k].Resubscribing?
    ensures Enabled(s, Resubscribe(k)) && Apply(s, Resubscribe(k)) == s.(tasks := s.tasks[k := Finished])
  {
  }

  lemma UpsertIs(s: State, k: nat, name: string, config: Config)
    requires At(s, k) && s.tasks[k].LoggingIn? && config.InstagramConfig?
    ensures Enabled(s, Upsert(k, name, config))
    ensures Apply(s, Upsert(k, name, config)) == Upserted(s, k, s.tasks[k].id, s.tasks[k].account, name, config)
  {
    hide Upserted;
  }

  lemma SubscribeIs(s: State, k: nat, ok: bool)
    requires At(s, k) && s.tasks[k].Subscribing?
    ensures Enabled(s, Subscribe(k, ok))
    ensures Apply(s, Subscribe(k, ok)) ==
      s.(tasks := s.tasks[k := if !ok && s.tasks[k].inserted then RollingBack(s.tasks[k].id) else Finished])
  {
  }

  lemma StoreIs(s: State, k: nat, config: Config)
    requires At(s, k) && s.tasks[k].Refreshing? && config.InstagramConfig?
    ensures Enabled(s, StoreRefreshed(k, config)) && Enabled(s, RefreshFails(k))
    ensures Apply(s, StoreRefreshed(k, config)) == Move(s.(channels := WithConfig(s.channels, s.tasks[k].id, config)), k, Finished)
    ensures Apply(s, RefreshFails(k)) == Move(s, k, Finished)
  {
    hide WithConfig;
  }

  // ── One request at a time ───────────────────────────────────────────

  lemma CreateIs(s: State, k: nat, id: Uuid, c: Channel)
    requires !At(s, k) && id !in s.born && !c.deleted && ConfigFits(c)
    ensures Enabled(s, Create(k, id, c)) && Apply(s, Create(k, id, c)) == Created(s, k, id, c)
  {
    hide Created;
  }

  // A create after its insert: the provider call and, should that fail, the rollback.
  ghost function Armed(s: State, k: nat, answer: Answer, rollbackOk: bool): State
    requires At(s, k) && s.tasks[k].Arming? && s.tasks[k].id in s.born && Possible(answer)
  {
    var armed := Apply(s, Arm(k, answer));
    if Enabled(armed, Rollback(k, rollbackOk)) then Apply(armed, Rollback(k, rollbackOk)) else armed
  }

  lemma ArmingEnds(s: State, k: nat, id: Uuid, bot: string, secret: string, answer: Answer, rollbackOk: bool)
    requires At(s, k) && s.tasks[k] == Arming(id) && id in s.born && s.born[id] == Birth(Telegram, bot, secret) && Possible(answer)
    ensures
      var done := Armed(s, k, answer, rollbackOk);
      && done.channels == (if answer.ok || !rollbackOk then s.channels else s.channels - {id})
      && done.hooks == (if answer.applied then s.hooks[bot := Hook(id, secret)] else s.hooks)
      && done.issued == s.issued + [SetWebhook(bot, Hook(id, secret))]
      && done.tasks == s.tasks[k := Finished]
  {
    ArmIs(s, k, answer);
    var armed := Apply(s, Arm(k, answer));
    if answer.ok {
      assert !Enabled(armed, Rollback(k, rollbackOk));
    } else {
      RollbackIs(armed, k, rollbackOk);
    }
    hide Apply, Enabled;
  }

  /** A Telegram create: a taken identity ends it before any provider call; otherwise the row is
      inserted, the webhook is set with its secret, and a failure whose rollback works leaves the
      table as it was. */
  lemma CreateAlone(s: State, k: nat, id: Uuid, name: string, bot: string, token: string, secret: string, answer: Answer, rollbackOk: bool)
    requires Inv(s) && !At(s, k) && id !in s.born && Possible(answer)
    ensures
      var c := Channel(Telegram, name, bot, TelegramConfig(token, secret), false);
      var created := Apply(s, Create(k, id, c));
      if KeyTaken(s.channels, Telegram, bot) then created == s.(tasks := s.tasks[k := Finished])
      else
        && At(created, k) && created.tasks[k] == Arming(id) && id in created.born
        && var done := Armed(created, k, answer, rollbackOk);
           && done.channels == (if answer.ok || !rollbackOk then s.channels[id := c] else s.channels)
           && done.hooks == (if answer.applied then s.hooks[bot := Hook(id, secret)] else s.hooks)
           && done.issued == s.issued + [SetWebhook(bot, Hook(id, secret))]
           && done.tasks == s.tasks[k := Finished]
  {
    assert id !in s.channels;
    hide Inv, Apply, Enabled, Armed, KeyTaken;
    var c := Channel(Telegram, name, bot, TelegramConfig(token, secret), false);
    CreateIs(s, k, id, c);
    if !KeyTaken(s.channels, Telegram, bot) {
      ArmingEnds(Apply(s, Create(k, id, c)), k, id, bot, secret, answer, rollbackOk);
      assert s.channels[id := c] - {id} == s.channels;
    }
  }

  // An update up to its commit: the read, and the drop of a replaced token's webhook.
  ghost function Begun(s: State, k: nat, id: Uuid, request: Request, identity: Option<string>, drop: Answer): State
    requires !At(s, k) && id in s.channels && Possible(drop)
  {
    var begun := Apply(s, StartEdit(k, id, request, identity));
    if CanDrop(begun.tasks[k]) then Apply(begun, DropReplaced(k, drop)) else begun
  }

  // The commit and the provider call it leads to.
  ghost function Ended(s: State, k: nat, answer: Answer): State
    requires Enabled(s, CommitEdit(k)) && Possible(answer)
  {
    var committed := Apply(s, CommitEdit(k));
    if Enabled(committed, Rearm(k, answer)) then Apply(committed, Rearm(k, answer))
    else if Enabled(committed, Resubscribe(k)) then Apply(committed, Resubscribe(k))
    else committed
  }

  lemma DropAlone(s: State, k: nat, id: Uuid, request: Request, identity: Option<string>, drop: Answer)
    requires !At(s, k) && id in s.channels && Possible(drop)
    ensures
      var was, dropped := s.channels[id], Begun(s, k, id, request, identity, drop);
      && At(dropped, k) && Enabled(dropped, CommitEdit(k))
      && dropped.tasks == s.tasks[k := Editing(id, was, request, identity, dropped.tasks[k].dropped)]
      && dropped.channels == s.channels && dropped.issued == s.issued && dropped.born == s.born
      && dropped.hooks == if PlanOf(was, request, identity).Some? then ChannelAdmin.HooksAfterDrop(s.hooks, was, request, drop) else s.hooks
  {
    hide PlanOf;
  }

  lemma CallIs(s: State, k: nat, answer: Answer)
    requires At(s, k) && Possible(answer)
    ensures Enabled(s, Rearm(k, answer)) <==> s.tasks[k].Rearming?
    ensures Enabled(s, Resubscribe(k)) <==> s.tasks[k].Resubscribing?
  {
  }

  lemma CommittedIs(s: State, k: nat, id: Uuid, request: Request, identity: Option<string>)
    requires At(s, k) && s.tasks[k].Editing? && id in s.channels
    requires s.tasks[k] == Editing(id, s.channels[id], request, identity, s.tasks[k].dropped)
    ensures
      var plan := PlanOf(s.channels[id], request, identity);
      Committed(s, k, s.tasks[k]) ==
        if plan.None? then s.(tasks := s.tasks[k := Finished])
        else
          var row := UpdateRow(s.channels[id], request.name, plan.value.key, plan.value.config, request.restore);
          if KeyClash(s.channels, id, row) then s.(tasks := s.tasks[k := Finished])
          else s.(channels := s.channels[id := row], tasks := s.tasks[k := ArmingTask(id, row.key, plan.value.rearm)])
  {
    hide PlanOf, KeyClash, UpdateRow, ArmingTask;
  }

  lemma EndedIs(s: State, k: nat, answer: Answer)
    requires Enabled(s, CommitEdit(k)) && Possible(answer) && At(Apply(s, CommitEdit(k)), k)
    ensures
      var committed := Apply(s, CommitEdit(k));
      var t := committed.tasks[k];
      Ended(s, k, answer) ==
        if t.Rearming? then
          committed.(
            hooks := HooksAfterSet(committed.hooks, t.bot, Hook(t.id, t.secret), answer),
            issued := committed.issued + [SetWebhook(t.bot, Hook(t.id, t.secret))],
            tasks := committed.tasks[k := Finished])
        else if t.Resubscribing? then committed.(tasks := committed.tasks[k := Finished])
        else committed
  {
    var committed := Apply(s, CommitEdit(k));
    CallIs(committed, k, answer);
    if committed.tasks[k].Rearming? {
      RearmIs(committed, k, answer);
    } else if committed.tasks[k].Resubscribing? {
      ResubscribeIs(committed, k);
    }
    hide Apply, Enabled;
  }

  lemma CommitAlone(s: State, k: nat, id: Uuid, request: Request, identity: Option<string>, answer: Answer)
    requires Enabled(s, CommitEdit(k)) && Possible(answer)
    requires id in s.channels && s.tasks[k] == Editing(id, s.channels[id], request, identity, s.tasks[k].dropped)
    ensures
      var plan := PlanOf(s.channels[id], request, identity);
      var done := Ended(s, k, answer);
      && done.tasks == s.tasks[k := Finished]
      && (plan.None? ==> done.channels == s.channels && done.hooks == s.hooks && done.issued == s.issued)
      && (plan.Some? ==>
            var row := UpdateRow(s.channels[id], request.name, plan.value.key, plan.value.config, request.restore);
            if KeyClash(s.channels, id, row) then done.channels == s.channels && done.hooks == s.hooks && done.issued == s.issued
            else
              && done.channels == s.channels[id := row]
              && done.hooks == ChannelAdmin.HooksAfterRearm(s.hooks, id, row.key, plan.value.rearm, answer)
              && done.issued == s.issued + ChannelAdmin.IssuedBy(id, row.key, plan.value.rearm))
  {
    hide Apply, Enabled, Ended, Committed, PlanOf, KeyClash, UpdateRow, HooksAfterSet;
    CommitIs(s, k);
    CommittedIs(s, k, id, request, identity);
    EndedIs(s, k, answer);
  }

  /** An update: the read, the drop of a replaced token's webhook, the commit and the provider
      call leave the row, the hooks and the calls that the contract of the handler states. */
  lemma UpdateAlone(s: State, k: nat, id: Uuid, request: Request, identity: Option<string>, drop: Answer, answer: Answer)
    requires !At(s, k) && id in s.channels && Possible(drop) && Possible(answer)
    ensures
      var was, dropped := s.channels[id], Begun(s, k, id, request, identity, drop);
      var plan, left := PlanOf(was, request, identity), ChannelAdmin.DroppedHooks(s.hooks, was, request, drop);
      && Enabled(dropped, CommitEdit(k))
      && var done := Ended(dropped, k, answer);
         && done.tasks == s.tasks[k := Finished]
         && (plan.None? ==> done.channels == s.channels && done.hooks == s.hooks && done.issued == s.issued)
         && (plan.Some? ==>
               var row := UpdateRow(was, request.name, plan.value.key, plan.value.config, request.restore);
               var armed := was.provider.Telegram? && (request.restore || request.spec.Some?) && !row.deleted;
               if KeyClash(s.channels, id, row) then done.channels == s.channels && done.hooks == left && done.issued == s.issued
               else
                 && done.channels == s.channels[id := row] && ChannelAdmin.Rewritten(was, row, request, identity)
                 && (armed ==> row.config.TelegramConfig?)
                 && done.hooks == (if armed && answer.applied then left[row.key := Hook(id, row.config.secret)] else left)
                 && done.issued == s.issued + if armed then [SetWebhook(row.key, Hook(id, row.config.secret))] else [])
  {
    var was := s.channels[id];
    hide Begun, Ended, Apply, Enabled, PlanOf, KeyClash, UpdateRow;
    hide ChannelAdmin.HooksAfterDrop, ChannelAdmin.HooksAfterRearm, ChannelAdmin.IssuedBy, ChannelAdmin.DroppedHooks, ChannelAdmin.Rewritten;
    DropAlone(s, k, id, request, identity, drop);
    CommitAlone(Begun(s, k, id, request, identity, drop), k, id, request, identity, answer);
    if PlanOf(was, request, identity).Some? {
      ChannelAdmin.UpdateIs(was, request, identity, s.hooks, id, drop, answer);
    }
  }

  /** A delete: the row is marked and a Telegram bot's webhook goes. */
  lemma DeleteAlone(s: State, k: nat, id: Uuid, answer: Answer)
    requires Inv(s) && !At(s, k) && Possible(answer)
    ensures
      var deleted := Apply(s, SoftDelete(k, id));
      var done := if deleted.tasks[k].Unhooking? then Apply(deleted, Unhook(k, answer)) else deleted;
      && done.tasks == s.tasks[k := Finished] && done.issued == s.issued
      && (id !in s.channels ==> done.channels == s.channels && done.hooks == s.hooks)
      && (id in s.channels ==>
            var was := s.channels[id];
            && done.channels == s.channels[id := was.(deleted := true)]
            && done.hooks == if was.provider.Telegram? && answer.applied then s.hooks - {was.key} else s.hooks)
  {
    hide Inv;
  }

  // A login after its upsert: the subscription and, when that fails for a new row, the rollback.
  ghost function Answered(s: State, k: nat, subscribed: bool, rollbackOk: bool): State
    requires At(s, k) && s.tasks[k].Subscribing?
  {
    var answered := Apply(s, Subscribe(k, subscribed));
    if Enabled(answered, Rollback(k, rollbackOk)) then Apply(answered, Rollback(k, rollbackOk)) else answered
  }

  lemma SubscribingEnds(s: State, k: nat, subscribed: bool, rollbackOk: bool)
    requires At(s, k) && s.tasks[k].Subscribing?
    ensures Answered(s, k, subscribed, rollbackOk) ==
      s.(channels := if s.tasks[k].inserted && !subscribed && rollbackOk then s.channels - {s.tasks[k].id} else s.channels,
         tasks := s.tasks[k := Finished])
  {
    SubscribeIs(s, k, subscribed);
    var answered := Apply(s, Subscribe(k, subscribed));
    if answered.tasks[k].RollingBack? {
      RollbackIs(answered, k, rollbackOk);
    } else {
      assert !Enabled(answered, Rollback(k, rollbackOk));
    }
    hide Apply, Enabled;
  }

  lemma UpsertedIs(s: State, k: nat, id: Uuid, account: string, name: string, config: Config)
    requires id in s.channels <==> Holder(s.channels, Instagram, account) == Some(id)
    requires Holder(s.channels, Instagram, account).Some? ==> id in s.channels
    ensures
      var next := Upserted(s, k, id, account, name, config);
      && next.channels == s.channels[id :=
           if id in s.channels then s.channels[id].(config := config, deleted := false)
           else Channel(Instagram, name, account, config, false)]
      && next.tasks == s.tasks[k := Subscribing(id, id !in s.channels)]
      && next.hooks == s.hooks && next.issued == s.issued
  {
    hide Holder;
  }

  // A login up to its upsert.
  ghost function Entered(s: State, k: nat, account: string, id: Uuid, name: string, config: Config): State
    requires Enabled(s, StartLogin(k, account, id)) && config.InstagramConfig?
  {
    Apply(Apply(s, StartLogin(k, account, id)), Upsert(k, name, config))
  }

  lemma EnteredIs(s: State, k: nat, account: string, id: Uuid, name: string, config: Config)
    requires Enabled(s, StartLogin(k, account, id)) && config.InstagramConfig?
    ensures Entered(s, k, account, id, name, config) == Upserted(Apply(s, StartLogin(k, account, id)), k, id, account, name, config)
    ensures
      var begun := Apply(s, StartLogin(k, account, id));
      begun == s.(born := begun.born, tasks := s.tasks[k := LoggingIn(id, account)])
  {
    hide Upserted;
  }

  /** A login: a row of that account keeps its id, name and key and comes back to life, whatever
      the subscription answers; a new one goes away again when subscribing fails. */
  lemma LoginAlone(s: State, k: nat, account: string, id: Uuid, name: string, config: Config, subscribed: bool, rollbackOk: bool)
    requires Inv(s) && Enabled(s, StartLogin(k, account, id)) && config.InstagramConfig?
    ensures
      var entered := Entered(s, k, account, id, name, config);
      && At(entered, k) && entered.tasks[k].Subscribing?
      && var done := Answered(entered, k, subscribed, rollbackOk);
         && done.tasks == s.tasks[k := Finished] && done.hooks == s.hooks && done.issued == s.issued
         && (id in s.channels ==>
               && HasKey(s.channels, id, Instagram, account)
               && done.channels == s.channels[id := s.channels[id].(config := config, deleted := false)])
         && (id !in s.channels ==>
               && !KeyTaken(s.channels, Instagram, account)
               && done.channels ==
                    if subscribed || !rollbackOk then s.channels[id := Channel(Instagram, name, account, config, false)] else s.channels)
  {
    hide Inv, Apply, Enabled, Entered, Answered, Upserted, Holder, HasKey, KeyTaken;
    LoginHolder(s, k, account, id);
    EnteredIs(s, k, account, id, name, config);
    UpsertedIs(Apply(s, StartLogin(k, account, id)), k, id, account, name, config);
    SubscribingEnds(Entered(s, k, account, id, name, config), k, subscribed, rollbackOk);
    assert id !in s.channels ==> s.channels[id := Channel(Instagram, name, account, config, false)] - {id} == s.channels;
  }

  lemma LoginHolder(s: State, k: nat, account: string, id: Uuid)
    requires Inv(s) && Enabled(s, StartLogin(k, account, id))
    ensures id in s.channels <==> Holder(s.channels, Instagram, account) == Some(id)
    ensures Holder(s.channels, Instagram, account).Some? ==> id in s.channels
    ensures id in s.channels <==> KeyTaken(s.channels, Instagram, account)
    ensures id in s.channels ==> HasKey(s.channels, id, Instagram, account)
  {
    assert forall other :: Holder(s.channels, Instagram, account).None? ==> !HasKey(s.channels, other, Instagram, account);
  }

  /** A token refresh: the row has the renewed config and is otherwise as it was. */
  lemma RefreshAlone(s: State, k: nat, id: Uuid, config: Config)
    requires Enabled(s, StartRefresh(k, id)) && config.InstagramConfig?
    ensures
      var listed := Apply(s, StartRefresh(k, id));
      && Enabled(listed, StoreRefreshed(k, config)) && Enabled(listed, RefreshFails(k))
      && Apply(listed, StoreRefreshed(k, config)) ==
           s.(channels := s.channels[id := s.channels[id].(config := config)], tasks := s.tasks[k := Finished])
      && Apply(listed, RefreshFails(k)) == s.(tasks := s.tasks[k := Finished])
  {
    var listed := Apply(s, StartRefresh(k, id));
    assert listed == Move(s, k, Refreshing(id, s.channels[id].config));
    StoreIs(listed, k, config);
    hide Apply, Enabled;
  }
}
