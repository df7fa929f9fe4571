/**
 The channel handlers of src/handler/channels.rs and the login of src/handler/oauth.rs,
 one request at a time. Provider answers and fresh ids are parameters.
 */
module ChannelAdmin {
  import opened Wrappers
  import opened ExternalId
  import opened Model
  import opened ChannelTable

  datatype Outcome = Done(id: Uuid, warned: bool) | BadRequest | NotFound | Conflict | BadGateway

  function IssuedBy(id: Uuid, bot: string, rearm: Rearm): seq<SetWebhook> {
    if rearm.Webhook? then [SetWebhook(bot, Hook(id, rearm.secret))] else []
  }

  function HooksAfterDrop(hooks: Hooks, existing: Channel, request: Request, drop: Answer): Hooks {
    if Replaces(existing, request) then HooksAfterDelete(hooks, existing.key, drop) else hooks
  }

  function HooksAfterRearm(hooks: Hooks, id: Uuid, bot: string, rearm: Rearm, answer: Answer): Hooks {
    if rearm.Webhook? then HooksAfterSet(hooks, bot, Hook(id, rearm.secret), answer) else hooks
  }

  // The row after an accepted update, field by field.
  ghost predicate Rewritten(was: Channel, row: Channel, request: Request, identity: Option<string>) {
    && row.provider == was.provider
    && row.name == (match request.name { case Some(name) => name case None => was.name })
    && (row.deleted <==> was.deleted && !request.restore)
    && match request.spec
       case None => row.key == was.key && row.config == was.config
       case Some(WidgetSpec(_)) => Some(row.key) == identity && row.config == was.config
       case Some(InstagramSpec(token)) => row.key == was.key && row.config == InstagramConfig(token, None)
       case Some(TelegramSpec(token)) =>
         row.key == was.key && was.config.TelegramConfig? && row.config == TelegramConfig(token, was.config.secret)
  }

  // A replaced bot token's webhook goes, if the provider did what it was told.
  ghost function DroppedHooks(hooks: Hooks, was: Channel, request: Request, drop: Answer): Hooks {
    match (request.spec, was.config)
    case (Some(TelegramSpec(token)), TelegramConfig(before, _)) => if token != before && drop.applied then hooks - {was.key} else hooks
    case _ => hooks
  }

  lemma UpdateIs(was: Channel, request: Request, identity: Option<string>, hooks: Hooks, id: Uuid, drop: Answer, answer: Answer)
    requires PlanOf(was, request, identity).Some?
    ensures
      var plan := PlanOf(was, request, identity).value;
      var row := UpdateRow(was, request.name, plan.key, plan.config, request.restore);
      var armed := was.provider.Telegram? && (request.restore || request.spec.Some?) && !row.deleted;
      var left := DroppedHooks(hooks, was, request, drop);
      && Rewritten(was, row, request, identity)
      && (armed ==> was.config.TelegramConfig? && row.config.TelegramConfig? && row.config.secret == was.config.secret)
      && HooksAfterDrop(hooks, was, request, drop) == left
      && IssuedBy(id, row.key, plan.rearm) == (if armed then [SetWebhook(row.key, Hook(id, row.config.secret))] else [])
      && HooksAfterRearm(left, id, row.key, plan.rearm, answer) ==
           (if armed && answer.applied then left[row.key := Hook(id, row.config.secret)] else left)
  {
  }

  class Admin {
    var channels: Channels
    var hooks: Hooks             // at Telegram
    var issued: seq<SetWebhook>  // setWebhook calls, in order
    var invalidated: seq<Uuid>   // invalidations published, in order

    constructor ()
      ensures channels == map[] && hooks == map[] && issued == [] && invalidated == []
    {
      channels, hooks, issued, invalidated := map[], map[], [], [];
    }

    method InvalidateEverywhere(id: Uuid)
      modifies this`invalidated
      ensures invalidated == old(invalidated) + [id]
    {
      invalidated := invalidated + [id];
    }

    method ArmWebhook(bot: string, hook: Hook, answer: Answer)
      modifies this`hooks, this`issued
      ensures hooks == if answer.applied then old(hooks)[bot := hook] else old(hooks)
      ensures issued == old(issued) + [SetWebhook(bot, hook)]
    {
      hooks := HooksAfterSet(hooks, bot, hook, answer);
      issued := issued + [SetWebhook(bot, hook)];
    }

    method InsertOrConflict(id: Uuid, c: Channel) returns (ok: bool)
      requires UniqueKeys(channels) && id !in channels
      modifies this`channels
      ensures UniqueKeys(channels)
      ensures ok <==> !KeyTaken(old(channels), c.provider, c.key)
      ensures channels == if ok then old(channels)[id := c] else old(channels)
    {
      ok := !KeyTaken(channels, c.provider, c.key);
      if ok {
        assert forall k :: k in channels ==> !HasKey(channels, k, c.provider, c.key);
        channels := channels[id := c];
      }
    }

    /** Insert, arm, and take the row back out when arming fails. A taken identity is refused
        before the provider is called; a failed create whose rollback works leaves the table
        as it was. */
    method CreateTelegram(id: Uuid, name: string, bot: Option<string>, token: string, secret: string,
                          answer: Answer, rollbackOk: bool)
      returns (outcome: Outcome)
      requires UniqueKeys(channels) && id !in channels && Possible(answer)
      modifies this
      ensures UniqueKeys(channels)
      ensures bot.None? ==> outcome.BadRequest?
      ensures bot.Some? && KeyTaken(old(channels), Telegram, bot.value) ==> outcome.Conflict?
      ensures outcome.BadRequest? || outcome.Conflict? ==>
        channels == old(channels) && hooks == old(hooks) && issued == old(issued) && invalidated == old(invalidated)
      ensures bot.Some? && !KeyTaken(old(channels), Telegram, bot.value) ==>
        && outcome == (if answer.ok then Done(id, false) else BadGateway)
        && channels == (if answer.ok || !rollbackOk
                        then old(channels)[id := Channel(Telegram, name, bot.value, TelegramConfig(token, secret), false)]
                        else old(channels))
        && hooks == (if answer.applied then old(hooks)[bot.value := Hook(id, secret)] else old(hooks))
        && issued == old(issued) + [SetWebhook(bot.value, Hook(id, secret))]
        && invalidated == old(invalidated) + if answer.ok then [id] else []
    {
      if bot.None? {
        return BadRequest;
      }
      var ok := InsertOrConflict(id, Channel(Telegram, name, bot.value, TelegramConfig(token, secret), false));
      if !ok {
        return Conflict;
      }
      ArmWebhook(bot.value, Hook(id, secret), answer);
      if !answer.ok {
        if rollbackOk {
          channels := channels - {id};
          assert channels == old(channels);
        }
        return BadGateway;
      }
      InvalidateEverywhere(id);
      return Done(id, false);
    }

    method Rearm(id: Uuid, bot: string, rearm: Rearm, answer: Answer)
      modifies this`hooks, this`issued
      ensures hooks == HooksAfterRearm(old(hooks), id, bot, rearm, answer)
      ensures issued == old(issued) + IssuedBy(id, bot, rearm)
    {
      match rearm {
        case NoRearm =>
        case Webhook(secret) => ArmWebhook(bot, Hook(id, secret), answer);
        case Subscription =>
      }
    }

    method UpdateRowOrConflict(id: Uuid, row: Channel) returns (ok: bool)
      requires UniqueKeys(channels) && id in channels
      modifies this`channels
      ensures UniqueKeys(channels)
      ensures ok <==> !KeyClash(old(channels), id, row)
      ensures channels == if ok then old(channels)[id := row] else old(channels)
    {
      ok := !KeyClash(channels, id, row);
      if ok {
        assert forall k :: k in channels && k != id ==> !HasKey(channels, k, row.provider, row.key);
        channels := channels[id := row];
      }
    }

    /** The row changes as the request and the row read at the start say, or not at all; the
        provider is called exactly when the plan says so, for a channel that ends the request
        alive, and with its stored secret. */
    method Update(id: Uuid, request: Request, identity: Option<string>, drop: Answer, answer: Answer)
      returns (outcome: Outcome)
      requires UniqueKeys(channels) && Possible(answer) && Possible(drop)
      modifies this
      ensures UniqueKeys(channels)
      ensures outcome.NotFound? <==> id !in old(channels)
      ensures outcome.NotFound? || outcome.BadRequest? ==> hooks == old(hooks)
      ensures outcome.NotFound? || outcome.BadRequest? || outcome.Conflict? ==>
        channels == old(channels) && issued == old(issued) && invalidated == old(invalidated)
      ensures channels.Keys == old(channels).Keys
      ensures outcome.Done? || outcome.BadGateway? ==>
        var was, row := old(channels)[id], channels[id];
        var armed := was.provider.Telegram? && (request.restore || request.spec.Some?) && !row.deleted;
        var left := DroppedHooks(old(hooks), was, request, drop);
        && channels == old(channels)[id := row] && Rewritten(was, row, request, identity)
        && (armed ==> was.config.TelegramConfig? && row.config.TelegramConfig? && row.config.secret == was.config.secret)
        && issued == old(issued) + (if armed then [SetWebhook(row.key, Hook(id, row.config.secret))] else [])
        && hooks == (if armed && answer.applied then left[row.key := Hook(id, row.config.secret)] else left)
      ensures outcome.Conflict? ==> hooks == DroppedHooks(old(hooks), old(channels)[id], request, drop)
      ensures id in old(channels) ==>
        var before := old(channels)[id];
        var plan := PlanOf(before, request, identity);
        && (outcome.BadRequest? <==> plan.None?)
        && (plan.Some? ==>
              var after := UpdateRow(before, request.name, plan.value.key, plan.value.config, request.restore);
              var rearm, dropped := plan.value.rearm, HooksAfterDrop(old(hooks), before, request, drop);
              && (outcome.Conflict? <==> KeyClash(old(channels), id, after))
              && (outcome.Conflict? ==> hooks == dropped)
              && (!outcome.Conflict? ==>
                    && channels == old(channels)[id := after]
                    && invalidated == old(invalidated) + [id]
                    && issued == old(issued) + IssuedBy(id, after.key, rearm)
                    && hooks == HooksAfterRearm(dropped, id, after.key, rearm, answer)
                    && (outcome == if rearm.NoRearm? || answer.ok then Done(id, false) else BadGateway)
                    && (!rearm.NoRearm? ==> !after.deleted)
                    && (rearm.Webhook? ==> after.config.TelegramConfig? && after.config.secret == rearm.secret)))
    {
      if id !in channels {
        return NotFound;
      }
      var existing := channels[id];
      var plan := PlanOf(existing, request, identity);
      if plan.None? {
        return BadRequest;
      }
      PlanKeepsIdentity(existing, request, identity);
      UpdateIs(existing, request, identity, hooks, id, drop, answer);
      hide PlanOf, KeyClash, UniqueKeys, Rewritten, DroppedHooks;
      hooks := HooksAfterDrop(hooks, existing, request, drop);
      var row := UpdateRow(existing, request.name, plan.value.key, plan.value.config, request.restore);
      var written := UpdateRowOrConflict(id, row);
      if !written {
        return Conflict;
      }
      Rearm(id, row.key, plan.value.rearm, answer);
      // The row is committed, so the caches are dropped on the error path too.
      InvalidateEverywhere(id);
      return if plan.value.rearm.NoRearm? || answer.ok then Done(id, false) else BadGateway;
    }

    /** Soft delete, whatever the provider answers. */
    method Delete(id: Uuid, answer: Answer)
      requires UniqueKeys(channels) && Possible(answer)
      modifies this
      ensures UniqueKeys(channels) && issued == old(issued)
      ensures id !in old(channels) ==> channels == old(channels) && hooks == old(hooks) && invalidated == old(invalidated)
      ensures id in old(channels) ==>
        var before := old(channels)[id];
        && channels == old(channels)[id := before.(deleted := true)]
        && hooks == (if before.config.TelegramConfig? && before.provider.Telegram? && answer.applied
                     then old(hooks) - {before.key} else old(hooks))
        && invalidated == old(invalidated) + [id]
    {
      if id !in channels {
        return;
      }
      channels := channels[id := channels[id].(deleted := true)];
      var channel := channels[id];
      if channel.provider.Telegram? && channel.config.TelegramConfig? {
        hooks := HooksAfterDelete(hooks, channel.key, answer);
      }
      InvalidateEverywhere(id);
    }

    /** A login for one Instagram account: the pin check, then the upsert, then the
        subscription. An existing row keeps its id, name and key and comes back to life; a
        row this login inserted goes away again when subscribing fails. */
    method Connect(pinned: Option<Uuid>, account: string, name: string, config: Config, freshId: Uuid,
                   subscribed: bool, rollbackOk: bool)
      returns (outcome: Outcome)
      requires UniqueKeys(channels) && freshId !in channels
      modifies this
      ensures UniqueKeys(channels) && hooks == old(hooks) && issued == old(issued)
      ensures
        var refused := pinned.Some? && !HasKey(old(channels), pinned.value, Instagram, account);
        && (refused <==> outcome.BadRequest?)
        && (refused ==> channels == old(channels) && invalidated == old(invalidated))
      ensures !outcome.BadRequest? && !KeyTaken(old(channels), Instagram, account) ==>
        && outcome == (if subscribed then Done(freshId, false) else BadGateway)
        && channels == (if subscribed || !rollbackOk
                        then old(channels)[freshId := Channel(Instagram, name, account, config, false)] else old(channels))
      ensures !outcome.BadRequest? && KeyTaken(old(channels), Instagram, account) ==>
        && outcome.Done? && outcome.warned == !subscribed
        && HasKey(old(channels), outcome.id, Instagram, account)
        && channels == old(channels)[outcome.id := old(channels)[outcome.id].(config := config, deleted := false)]
      ensures invalidated == old(invalidated) + if outcome.Done? then [outcome.id] else []
    {
      if pinned.Some? && !HasKey(channels, pinned.value, Instagram, account) {
        return BadRequest;
      }
      hide UniqueKeys;
      if KeyTaken(channels, Instagram, account) {
        var id := Reconnect(account, config);
        return Done(id, !subscribed);
      }
      var ok := ConnectNew(freshId, Channel(Instagram, name, account, config, false), subscribed, rollbackOk);
      return if ok then Done(freshId, false) else BadGateway;
    }

    method Reconnect(account: string, config: Config) returns (id: Uuid)
      requires UniqueKeys(channels) && KeyTaken(channels, Instagram, account)
      modifies this`channels, this`invalidated
      ensures UniqueKeys(channels)
      ensures HasKey(old(channels), id, Instagram, account)
      ensures channels == old(channels)[id := Reconnected(old(channels)[id], config)]
      ensures invalidated == old(invalidated) + [id]
    {
      id :| id in channels && HasKey(channels, id, Instagram, account);
      channels := channels[id := Reconnected(channels[id], config)];
      InvalidateEverywhere(id);
    }

    method ConnectNew(id: Uuid, c: Channel, subscribed: bool, rollbackOk: bool) returns (ok: bool)
      requires UniqueKeys(channels) && id !in channels && !KeyTaken(channels, c.provider, c.key)
      modifies this`channels, this`invalidated
      ensures UniqueKeys(channels) && ok == subscribed
      ensures channels == if subscribed || !rollbackOk then old(channels)[id := c] else old(channels)
      ensures invalidated == old(invalidated) + if subscribed then [id] else []
    {
      var inserted := InsertOrConflict(id, c);
      if subscribed {
        InvalidateEverywhere(id);
      } else if rollbackOk {
        channels := channels - {id};
        assert channels == old(channels);
      }
      return subscribed;
    }
  }
}
