/**
 The `channels` table, its queries (src/db.rs) and the decisions of the channel handlers
 (src/handler/channels.rs), as functions on values.
 */
module ChannelTable {
  import opened Wrappers
  import opened ExternalId
  import opened Model

  datatype Config =
    | TelegramConfig(token: string, secret: string)
    | InstagramConfig(token: string, expiresAt: Option<nat>)
    | WidgetConfig

  datatype Channel = Channel(provider: ProviderKind, name: string, key: string, config: Config, deleted: bool)

  type Channels = map<Uuid, Channel>

  // ── idx_channels_provider_external_key, deleted rows included ───────

  predicate HasKey(channels: Channels, id: Uuid, provider: ProviderKind, key: string) {
    id in channels && channels[id].provider == provider && channels[id].key == key
  }

  predicate KeyTaken(channels: Channels, provider: ProviderKind, key: string) {
    exists id :: id in channels && HasKey(channels, id, provider, key)
  }

  ghost predicate UniqueKeys(channels: Channels) {
    forall a, b | a in channels && b in channels && channels[a].provider == channels[b].provider && channels[a].key == channels[b].key ::
      a == b
  }

  // ── Queries ─────────────────────────────────────────────────────────

  // UPDATE … SET name = COALESCE($2, name), …
  function UpdateRow(c: Channel, name: Option<string>, key: Option<string>, config: Option<Config>, restore: bool): Channel {
    Channel(
      c.provider,
      if name.Some? then name.value else c.name,
      if key.Some? then key.value else c.key,
      if config.Some? then config.value else c.config,
      if restore then false else c.deleted)
  }

  // Another row already holds the key this row would get.
  predicate KeyClash(channels: Channels, id: Uuid, c: Channel) {
    exists other :: other in channels && other != id && HasKey(channels, other, c.provider, c.key)
  }

  // ON CONFLICT (provider, external_key) DO UPDATE SET config, deleted_at.
  function Reconnected(c: Channel, config: Config): Channel {
    c.(config := config, deleted := false)
  }

  // ── What an update decides from the row it read ─────────────────────

  datatype Spec = WidgetSpec(widgetId: string) | InstagramSpec(token: string) | TelegramSpec(token: string)

  datatype Request = Request(name: Option<string>, restore: bool, spec: Option<Spec>)

  datatype Rearm = NoRearm | Webhook(secret: string) | Subscription

  datatype Plan = Plan(key: Option<string>, config: Option<Config>, rearm: Rearm)

  function ProviderOf(spec: Spec): ProviderKind {
    match spec
    case WidgetSpec(_) => Widget
    case InstagramSpec(_) => Instagram
    case TelegramSpec(_) => Telegram
  }

  // `identity` is the key that the provider reports for the credential, or the widget id
  // itself; none when it is malformed or refused.
  function PlanOf(existing: Channel, request: Request, identity: Option<string>): Option<Plan> {
    match request.spec
    case None =>
      if !request.restore then Some(Plan(None, None, NoRearm))
      else (match existing.provider
            case Telegram =>
              if existing.config.TelegramConfig? then Some(Plan(None, None, Webhook(existing.config.secret))) else None
            case Instagram => Some(Plan(None, None, Subscription))
            case Widget => Some(Plan(None, None, NoRearm)))
    case Some(spec) =>
      var alive := request.restore || !existing.deleted;
      if ProviderOf(spec) != existing.provider || identity.None? then None
      else if spec.WidgetSpec? then
        Some(Plan(if identity.value != existing.key then identity else None, None, NoRearm))
      else if identity.value != existing.key then None
      else if spec.InstagramSpec? then
        Some(Plan(None, Some(InstagramConfig(spec.token, None)), if alive then Subscription else NoRearm))
      else if !existing.config.TelegramConfig? then None
      else
        var secret := existing.config.secret;
        Some(Plan(None, Some(TelegramConfig(spec.token, secret)), if alive then Webhook(secret) else NoRearm))
  }

  // The replaced token's webhook is dropped, best effort, before the row is written.
  predicate Replaces(existing: Channel, request: Request) {
    && request.spec.Some? && request.spec.value.TelegramSpec? && existing.config.TelegramConfig?
    && request.spec.value.token != existing.config.token
  }

  /** A plan arms the provider exactly when a credential is replaced or the channel is
      restored, and the channel is alive once the request is through. Its identity and its
      webhook secret survive every request; only a widget's id can be rewritten. */
  lemma PlanKeepsIdentity(existing: Channel, request: Request, identity: Option<string>)
    requires PlanOf(existing, request, identity).Some?
    ensures
      var plan := PlanOf(existing, request, identity).value;
      var after := UpdateRow(existing, request.name, plan.key, plan.config, request.restore);
      && ((plan.rearm.Webhook? || plan.rearm.Subscription?) <==>
           !existing.provider.Widget? && (request.restore || request.spec.Some?) && !after.deleted)
      && (plan.rearm.Webhook? ==> after.config.TelegramConfig? && after.config.secret == plan.rearm.secret)
      && (plan.rearm.Webhook? ==> existing.provider.Telegram?)
      && after.provider == existing.provider && after.name == (if request.name.Some? then request.name.value else existing.name)
      && (!existing.provider.Widget? ==> after.key == existing.key)
      && (existing.config.TelegramConfig? && existing.provider.Telegram? ==>
            after.config.TelegramConfig? && after.config.secret == existing.config.secret)
      && (after.deleted <==> existing.deleted && !request.restore)
      && (request.spec.None? ==> after.key == existing.key && after.config == existing.config)
  {
  }

  /** A request is refused exactly when its credential is of another provider, malformed or
      refused, or belongs to another account; a stored Telegram config that will not parse
      refuses whatever needs its secret. An accepted credential is the one stored. */
  lemma PlanIsRefused(existing: Channel, request: Request, identity: Option<string>)
    ensures
      var plan := PlanOf(existing, request, identity);
      && (plan.None? <==>
           || (request.spec.Some? && (ProviderOf(request.spec.value) != existing.provider || identity.None?))
           || (request.spec.Some? && !existing.provider.Widget? && identity != Some(existing.key))
           || ((request.spec.Some? || request.restore) && existing.provider.Telegram? && !existing.config.TelegramConfig?))
      && (plan.Some? && request.spec.Some? ==>
            var after := UpdateRow(existing, request.name, plan.value.key, plan.value.config, request.restore);
            match request.spec.value
            case WidgetSpec(_) => after.key == identity.value && after.config == existing.config
            case InstagramSpec(token) => after.config == InstagramConfig(token, None)
            case TelegramSpec(token) => after.config == TelegramConfig(token, existing.config.secret))
  {
  }

  // ── A provider call ─────────────────────────────────────────────────

  // A call that reports success took effect; one that reports failure may have.
  datatype Answer = Answer(applied: bool, ok: bool)

  predicate Possible(answer: Answer) {
    answer.ok ==> answer.applied
  }

  // Telegram keeps one webhook per bot, and setWebhook overwrites it.
  datatype Hook = Hook(channel: Uuid, secret: string)

  // A setWebhook call as the provider sees it.
  datatype SetWebhook = SetWebhook(bot: string, hook: Hook)

  type Hooks = map<string, Hook>

  function HooksAfterSet(hooks: Hooks, bot: string, hook: Hook, answer: Answer): Hooks {
    if answer.applied then hooks[bot := hook] else hooks
  }

  function HooksAfterDelete(hooks: Hooks, bot: string, answer: Answer): Hooks {
    if answer.applied then hooks - {bot} else hooks
  }
}
