/**
 Concurrent channel requests: creates, updates, deletes, re-registrations, logins and token
 refreshes, one database statement or provider call at a time.
 */
module ChannelLifecycle {
  import opened Wrappers
  import opened ExternalId
  import opened Model
  import opened ChannelTable

  // What a channel id was allocated for, fixed for ever. Only Telegram rows have a secret,
  // and only a widget's key can change.
  datatype Birth = Birth(provider: ProviderKind, key: string, secret: string)

  datatype Task =
    | Arming(id: Uuid)                         // row inserted, provider not called
    | RollingBack(id: Uuid)                    // provider failed, row to be deleted
    | Editing(id: Uuid, existing: Channel, request: Request, identity: Option<string>, dropped: bool)
    | Rearming(id: Uuid, bot: string, secret: string)  // webhook to be set
    | Resubscribing(id: Uuid)                  // account to be subscribed
    | Unhooking(bot: string)
    | LoggingIn(id: Uuid, account: string)     // pre-read done
    | Subscribing(id: Uuid, inserted: bool)    // upsert done
    | Refreshing(id: Uuid, listed: Config)     // token refresh, from the config listed
    | Finished

  datatype State = State(
    channels: Channels,
    born: map<Uuid, Birth>,     // every id ever allocated
    inserter: map<Uuid, nat>,   // the request that inserted the row now, or last, under an id
    tasks: map<nat, Task>,
    hooks: Hooks,
    issued: seq<SetWebhook>)

  const INITIAL := State(map[], map[], map[], map[], map[], [])

  datatype Step =
    | Create(k: nat, id: Uuid, c: Channel)
    | Arm(k: nat, answer: Answer)
    | Rollback(k: nat, ok: bool)
    | StartEdit(k: nat, id: Uuid, request: Request, identity: Option<string>)
    | DropReplaced(k: nat, answer: Answer)
    | CommitEdit(k: nat)
    | StartRegister(k: nat, id: Uuid)
    | Rearm(k: nat, answer: Answer)
    | Resubscribe(k: nat)
    | SoftDelete(k: nat, id: Uuid)
    | Unhook(k: nat, answer: Answer)
    | StartLogin(k: nat, account: string, id: Uuid)
    | Upsert(k: nat, name: string, config: Config)
    | Subscribe(k: nat, ok: bool)
    | StartRefresh(k: nat, id: Uuid)
    | StoreRefreshed(k: nat, config: Config)
    | RefreshFails(k: nat)

  function BirthOf(c: Channel): Birth {
    Birth(c.provider, c.key, if c.config.TelegramConfig? then c.config.secret else "")
  }

  predicate ConfigFits(c: Channel) {
    match c.provider
    case Telegram => c.config.TelegramConfig?
    case Instagram => c.config.InstagramConfig?
    case Widget => c.config.WidgetConfig?
  }

  ghost function Holder(channels: Channels, provider: ProviderKind, key: string): Option<Uuid> {
    if id :| HasKey(channels, id, provider, key) then Some(id) else None
  }

  predicate At(s: State, k: nat) {
    k in s.tasks
  }

  predicate CanDrop(t: Task) {
    t.Editing? && Replaces(t.existing, t.request) && PlanOf(t.existing, t.request, t.identity).Some?
  }

  ghost predicate Enabled(s: State, step: Step) {
    match step
    case Create(k, id, c) => !At(s, k) && id !in s.born && !c.deleted && ConfigFits(c)
    case Arm(k, answer) => At(s, k) && s.tasks[k].Arming? && s.tasks[k].id in s.born && Possible(answer)
    case Rollback(k, _) => At(s, k) && s.tasks[k].RollingBack?
    case StartEdit(k, id, _, _) => !At(s, k) && id in s.channels
    case DropReplaced(k, answer) => At(s, k) && CanDrop(s.tasks[k]) && !s.tasks[k].dropped && Possible(answer)
    case CommitEdit(k) => At(s, k) && s.tasks[k].Editing? && (CanDrop(s.tasks[k]) ==> s.tasks[k].dropped)
    case StartRegister(k, id) =>
      && !At(s, k) && id in s.channels && !s.channels[id].deleted && !s.channels[id].provider.Widget?
      && (s.channels[id].provider.Telegram? ==> s.channels[id].config.TelegramConfig?)
    case Rearm(k, answer) => At(s, k) && s.tasks[k].Rearming? && Possible(answer)
    case Resubscribe(k) => At(s, k) && s.tasks[k].Resubscribing?
    case SoftDelete(k, id) => !At(s, k)
    case Unhook(k, answer) => At(s, k) && s.tasks[k].Unhooking? && Possible(answer)
    case StartLogin(k, account, id) =>
      !At(s, k) && (if Holder(s.channels, Instagram, account).Some? then Holder(s.channels, Instagram, account) == Some(id) else id !in s.born)
    case Upsert(k, _, config) => At(s, k) && s.tasks[k].LoggingIn? && config.InstagramConfig?
    case Subscribe(k, _) => At(s, k) && s.tasks[k].Subscribing?
    case StartRefresh(k, id) =>
      !At(s, k) && id in s.channels && s.channels[id].provider.Instagram? && !s.channels[id].deleted && s.channels[id].config.InstagramConfig?
    case StoreRefreshed(k, config) => At(s, k) && s.tasks[k].Refreshing? && config.InstagramConfig?
    case RefreshFails(k) => At(s, k) && s.tasks[k].Refreshing?
  }

  function Move(s: State, k: nat, t: Task): State {
    s.(tasks := s.tasks[k := t])
  }

  function SetHook(s: State, bot: string, hook: Hook, answer: Answer): State {
    s.(hooks := HooksAfterSet(s.hooks, bot, hook, answer), issued := s.issued + [SetWebhook(bot, hook)])
  }

  function InsertChannel(s: State, k: nat, id: Uuid, c: Channel): State {
    s.(channels := s.channels[id := c], born := s.born[id := BirthOf(c)], inserter := s.inserter[id := k])
  }

  function Created(s: State, k: nat, id: Uuid, c: Channel): State {
    if KeyTaken(s.channels, c.provider, c.key) then Move(s, k, Finished)
    else Move(InsertChannel(s, k, id, c), k, if c.provider.Widget? then Finished else Arming(id))
  }

  function AfterArming(s: State, k: nat, id: Uuid, answer: Answer): State
    requires id in s.born
  {
    var birth := s.born[id];
    var armed := if birth.provider.Telegram? then SetHook(s, birth.key, Hook(id, birth.secret), answer) else s;
    Move(armed, k, if answer.ok then Finished else RollingBack(id))
  }

  function ArmingTask(id: Uuid, bot: string, rearm: Rearm): Task {
    match rearm
    case NoRearm => Finished
    case Webhook(secret) => Rearming(id, bot, secret)
    case Subscription => Resubscribing(id)
  }

  // The plan comes from the row read earlier, the update applies to the row there is now.
  function Committed(s: State, k: nat, t: Task): State
    requires t.Editing?
  {
    var plan := PlanOf(t.existing, t.request, t.identity);
    if plan.None? || t.id !in s.channels then Move(s, k, Finished)
    else
      var row := UpdateRow(s.channels[t.id], t.request.name, plan.value.key, plan.value.config, t.request.restore);
      if KeyClash(s.channels, t.id, row) then Move(s, k, Finished)
      else
        Move(s.(channels := s.channels[t.id := row]), k, ArmingTask(t.id, row.key, plan.value.rearm))
  }

  ghost function Upserted(s: State, k: nat, id: Uuid, account: string, name: string, config: Config): State {
    match Holder(s.channels, Instagram, account)
    case Some(held) =>
      if held in s.channels
      then Move(s.(channels := s.channels[held := Reconnected(s.channels[held], config)]), k, Subscribing(held, false))
      else s
    case None =>
      if id in s.channels then Move(s, k, Finished) // duplicate primary key
      else Move(InsertChannel(s, k, id, Channel(Instagram, name, account, config, false)), k, Subscribing(id, true))
  }

  // The refreshed config is written whatever the row holds by now.
  function WithConfig(channels: Channels, id: Uuid, config: Config): Channels {
    if id in channels then channels[id := channels[id].(config := config)] else channels
  }

  function RegisterTask(id: Uuid, c: Channel): Task {
    if c.provider.Telegram? && c.config.TelegramConfig? then Rearming(id, c.key, c.config.secret) else Resubscribing(id)
  }

  ghost function Apply(s: State, step: Step): State
    requires Enabled(s, step)
  {
    match step
    case Create(k, id, c) => Created(s, k, id, c)
    case Arm(k, answer) => AfterArming(s, k, s.tasks[k].id, answer)
    case Rollback(k, ok) => Move(if ok then s.(channels := s.channels - {s.tasks[k].id}) else s, k, Finished)
    case StartEdit(k, id, request, identity) => Move(s, k, Editing(id, s.channels[id], request, identity, false))
    case DropReplaced(k, answer) =>
      Move(s.(hooks := HooksAfterDelete(s.hooks, s.tasks[k].existing.key, answer)), k, s.tasks[k].(dropped := true))
    case CommitEdit(k) => Committed(s, k, s.tasks[k])
    case StartRegister(k, id) => Move(s, k, RegisterTask(id, s.channels[id]))
    case Rearm(k, answer) => Move(SetHook(s, s.tasks[k].bot, Hook(s.tasks[k].id, s.tasks[k].secret), answer), k, Finished)
    case Resubscribe(k) => Move(s, k, Finished)
    case SoftDelete(k, id) =>
      if id !in s.channels then Move(s, k, Finished)
      else
        Move(s.(channels := s.channels[id := s.channels[id].(deleted := true)]), k,
             if s.channels[id].provider.Telegram? then Unhooking(s.channels[id].key) else Finished)
    case Unhook(k, answer) => Move(s.(hooks := HooksAfterDelete(s.hooks, s.tasks[k].bot, answer)), k, Finished)
    case StartLogin(k, account, id) =>
      Move(if id in s.born then s else s.(born := s.born[id := Birth(Instagram, account, "")]), k, LoggingIn(id, account))
    case Upsert(k, name, config) => Upserted(s, k, s.tasks[k].id, s.tasks[k].account, name, config)
    case Subscribe(k, ok) =>
      Move(s, k, if !ok && s.tasks[k].inserted then RollingBack(s.tasks[k].id) else Finished)
    case StartRefresh(k, id) => Move(s, k, Refreshing(id, s.channels[id].config))
    case StoreRefreshed(k, config) => Move(s.(channels := WithConfig(s.channels, s.tasks[k].id, config)), k, Finished)
    case RefreshFails(k) => Move(s, k, Finished)
  }

  // ── The invariant ───────────────────────────────────────────────────

  // A row, or a snapshot of one, agrees with what its id was allocated for.
  predicate Fits(c: Channel, b: Birth) {
    && c.provider == b.provider && ConfigFits(c)
    && (!c.provider.Widget? ==> c.key == b.key)
    && (c.config.TelegramConfig? ==> c.config.secret == b.secret)
  }

  ghost predicate RowsFit(channels: Channels, born: map<Uuid, Birth>) {
    forall id :: id in channels ==> id in born && Fits(channels[id], born[id])
  }

  // A task that may delete a row inserted the very row that is there now.
  ghost predicate TaskOk(keys: set<Uuid>, born: map<Uuid, Birth>, inserter: map<Uuid, nat>, k: nat, t: Task) {
    match t
    case Arming(id) => id in keys && id in inserter && inserter[id] == k && id in born && !born[id].provider.Widget?
    case RollingBack(id) => id in keys && id in inserter && inserter[id] == k && id in born && !born[id].provider.Widget?
    case Editing(id, existing, _, _, _) => id in born && Fits(existing, born[id])
    case Rearming(id, bot, secret) => id in born && born[id] == Birth(Telegram, bot, secret)
    case Resubscribing(id) => id in born && born[id].provider.Instagram?
    case Refreshing(id, _) => id in born && born[id].provider.Instagram?
    case LoggingIn(id, account) => id in born && born[id] == Birth(Instagram, account, "")
    case Subscribing(id, inserted) =>
      id in born && born[id].provider.Instagram? && (inserted ==> id in keys && id in inserter && inserter[id] == k)
    case _ => true
  }

  ghost predicate TasksOk(keys: set<Uuid>, born: map<Uuid, Birth>, inserter: map<Uuid, nat>, tasks: map<nat, Task>) {
    forall k :: k in tasks ==> TaskOk(keys, born, inserter, k, tasks[k])
  }

  // A webhook names a channel of its own bot, with that channel's secret.
  predicate HookOk(born: map<Uuid, Birth>, bot: string, hook: Hook) {
    hook.channel in born && born[hook.channel] == Birth(Telegram, bot, hook.secret)
  }

  ghost predicate HooksOk(born: map<Uuid, Birth>, hooks: Hooks, issued: seq<SetWebhook>) {
    && (forall bot :: bot in hooks ==> HookOk(born, bot, hooks[bot]))
    && (forall call :: call in issued ==> HookOk(born, call.bot, call.hook))
  }

  // An Instagram id carries no secret.
  ghost predicate BirthsOk(born: map<Uuid, Birth>) {
    forall id :: id in born && born[id].provider.Instagram? ==> born[id].secret == ""
  }

  ghost predicate Inv(s: State) {
    && UniqueKeys(s.channels) && RowsFit(s.channels, s.born) && BirthsOk(s.born)
    && TasksOk(s.channels.Keys, s.born, s.inserter, s.tasks)
    && HooksOk(s.born, s.hooks, s.issued)
  }

  lemma InitiallyInv()
    ensures Inv(INITIAL)
  {
  }

  // ── Frames ──────────────────────────────────────────────────────────

  predicate Extends(born: map<Uuid, Birth>, next: map<Uuid, Birth>) {
    forall id :: id in born ==> id in next && next[id] == born[id]
  }

  // Keys and births grow, and the rows there keep their inserter.
  lemma TasksKept(s: State, keys: set<Uuid>, born: map<Uuid, Birth>, inserter: map<Uuid, nat>, k: nat, t: Task)
    requires TasksOk(s.channels.Keys, s.born, s.inserter, s.tasks)
    requires s.channels.Keys <= keys && Extends(s.born, born)
    requires forall id :: id in s.channels && id in s.inserter ==> id in inserter && inserter[id] == s.inserter[id]
    requires TaskOk(keys, born, inserter, k, t)
    ensures TasksOk(keys, born, inserter, s.tasks[k := t])
  {
  }

  // Keys and births are untouched.
  lemma TaskMoved(s: State, k: nat, t: Task)
    requires TasksOk(s.channels.Keys, s.born, s.inserter, s.tasks)
    requires TaskOk(s.channels.Keys, s.born, s.inserter, k, t)
    ensures TasksOk(s.channels.Keys, s.born, s.inserter, s.tasks[k := t])
  {
  }

  lemma HooksKept(s: State, born: map<Uuid, Birth>)
    requires HooksOk(s.born, s.hooks, s.issued) && Extends(s.born, born)
    ensures HooksOk(born, s.hooks, s.issued)
  {
  }

  lemma SetHookKeeps(s: State, bot: string, hook: Hook, answer: Answer)
    requires HooksOk(s.born, s.hooks, s.issued) && HookOk(s.born, bot, hook)
    ensures
      var t := SetHook(s, bot, hook, answer);
      t.channels == s.channels && t.born == s.born && t.inserter == s.inserter && t.tasks == s.tasks
      && HooksOk(t.born, t.hooks, t.issued)
  {
  }

  lemma RowsAfterInsert(channels: Channels, born: map<Uuid, Birth>, id: Uuid, c: Channel)
    requires UniqueKeys(channels) && RowsFit(channels, born) && BirthsOk(born)
    requires id !in channels && ConfigFits(c) && !KeyTaken(channels, c.provider, c.key)
    requires id in born ==> born[id] == BirthOf(c)
    ensures UniqueKeys(channels[id := c]) && RowsFit(channels[id := c], born[id := BirthOf(c)])
    ensures BirthsOk(born[id := BirthOf(c)])
  {
  }

  lemma InsertKeeps(s: State, k: nat, id: Uuid, c: Channel, t: Task)
    requires Inv(s) && id !in s.channels && ConfigFits(c) && !KeyTaken(s.channels, c.provider, c.key)
    requires id in s.born ==> s.born[id] == BirthOf(c)
    requires t == Finished || (t == Arming(id) && !c.provider.Widget?) || (t == Subscribing(id, true) && c.provider.Instagram?)
    ensures Inv(Move(InsertChannel(s, k, id, c), k, t))
  {
    var next := InsertChannel(s, k, id, c);
    RowsAfterInsert(s.channels, s.born, id, c);
    TasksKept(s, next.channels.Keys, next.born, next.inserter, k, t);
    HooksKept(s, next.born);
    hide RowsFit, BirthsOk, TasksOk, HooksOk, UniqueKeys;
  }

  // A row changes within its birth, and no other row has its key.
  lemma UpdateKeeps(s: State, id: Uuid, row: Channel, k: nat, t: Task)
    requires Inv(s) && id in s.channels && Fits(row, s.born[id]) && !KeyClash(s.channels, id, row)
    requires TaskOk(s.channels.Keys, s.born, s.inserter, k, t)
    ensures Inv(Move(s.(channels := s.channels[id := row]), k, t))
  {
    assert s.channels[id := row].Keys == s.channels.Keys;
    TaskMoved(s, k, t);
    assert forall other :: other in s.channels && other != id ==> !HasKey(s.channels, other, row.provider, row.key);
  }

  // A row that keeps its provider and key clashes with none.
  lemma SameKeyNoClash(channels: Channels, id: Uuid, row: Channel)
    requires UniqueKeys(channels) && id in channels && row.provider == channels[id].provider && row.key == channels[id].key
    ensures !KeyClash(channels, id, row)
  {
  }

  lemma RollbackKeeps(s: State, k: nat, ok: bool)
    requires Inv(s) && Enabled(s, Rollback(k, ok))
    ensures Inv(Apply(s, Rollback(k, ok)))
  {
    var id := s.tasks[k].id;
    assert TaskOk(s.channels.Keys, s.born, s.inserter, k, s.tasks[k]);
    var next := if ok then s.channels - {id} else s.channels;
    forall j | j in s.tasks && j != k ensures TaskOk(next.Keys, s.born, s.inserter, j, s.tasks[j]) {
      assert TaskOk(s.channels.Keys, s.born, s.inserter, j, s.tasks[j]);
    }
  }

  lemma ArmKeeps(s: State, k: nat, answer: Answer)
    requires Inv(s) && Enabled(s, Arm(k, answer))
    ensures Inv(Apply(s, Arm(k, answer)))
  {
    var id := s.tasks[k].id;
    assert TaskOk(s.channels.Keys, s.born, s.inserter, k, s.tasks[k]);
    TaskMoved(s, k, if answer.ok then Finished else RollingBack(id));
    if s.born[id].provider.Telegram? {
      SetHookKeeps(s, s.born[id].key, Hook(id, s.born[id].secret), answer);
    }
  }

  lemma CommitKeeps(s: State, k: nat)
    requires Inv(s) && Enabled(s, CommitEdit(k))
    ensures Inv(Apply(s, CommitEdit(k)))
  {
    var t := s.tasks[k];
    assert TaskOk(s.channels.Keys, s.born, s.inserter, k, t);
    TaskMoved(s, k, Finished);
    var plan := PlanOf(t.existing, t.request, t.identity);
    if plan.Some? && t.id in s.channels {
      var row := UpdateRow(s.channels[t.id], t.request.name, plan.value.key, plan.value.config, t.request.restore);
      PlanKeepsIdentity(t.existing, t.request, t.identity);
      CommitFits(s.channels[t.id], t, s.born[t.id]);
      if !KeyClash(s.channels, t.id, row) {
        UpdateKeeps(s, t.id, row, k, ArmingTask(t.id, row.key, plan.value.rearm));
      }
    }
  }

  // The row an update writes fits its birth, although the plan came from an older row.
  lemma CommitFits(now: Channel, t: Task, birth: Birth)
    requires t.Editing? && Fits(now, birth) && Fits(t.existing, birth) && PlanOf(t.existing, t.request, t.identity).Some?
    ensures
      var plan := PlanOf(t.existing, t.request, t.identity).value;
      var row := UpdateRow(now, t.request.name, plan.key, plan.config, t.request.restore);
      && Fits(row, birth)
      && (plan.rearm.Webhook? ==> birth == Birth(Telegram, row.key, plan.rearm.secret))
      && (plan.rearm.Subscription? ==> birth.provider.Instagram?)
  {
  }

  lemma FreeToInsert(s: State, id: Uuid, account: string)
    requires RowsFit(s.channels, s.born) && id in s.born && s.born[id] == Birth(Instagram, account, "")
    requires Holder(s.channels, Instagram, account).None?
    ensures id !in s.channels && !KeyTaken(s.channels, Instagram, account)
  {
    assert forall other :: !HasKey(s.channels, other, Instagram, account);
    assert id in s.channels ==> Fits(s.channels[id], s.born[id]) && HasKey(s.channels, id, Instagram, account);
  }

  lemma UpsertKeeps(s: State, k: nat, name: string, config: Config)
    requires Inv(s) && Enabled(s, Upsert(k, name, config))
    ensures Inv(Apply(s, Upsert(k, name, config)))
  {
    var t := s.tasks[k];
    assert TaskOk(s.channels.Keys, s.born, s.inserter, k, t);
    match Holder(s.channels, Instagram, t.account) {
      case Some(held) =>
        SameKeyNoClash(s.channels, held, Reconnected(s.channels[held], config));
        UpdateKeeps(s, held, Reconnected(s.channels[held], config), k, Subscribing(held, false));
      case None =>
        FreeToInsert(s, t.id, t.account);
        InsertKeeps(s, k, t.id, Channel(Instagram, name, t.account, config, false), Subscribing(t.id, true));
    }
  }

  predicate MovesFreely(step: Step) {
    step.StartEdit? || step.StartRegister? || step.StartRefresh? || step.Resubscribe? || step.Subscribe? || step.RefreshFails?
  }

  lemma FreeMoveKeepsHooks(s: State, step: Step)
    requires Enabled(s, step) && MovesFreely(step)
    ensures Apply(s, step).hooks == s.hooks && Apply(s, step).issued == s.issued
  {
    hide RegisterTask;
  }

  // The task's new state fits the tables.
  ghost predicate NextIsOk(s: State, step: Step)
    requires Moves(step)
  {
    TaskOk(s.channels.Keys, s.born, s.inserter, step.k, TaskAfter(s, step))
  }

  lemma SnapshotIsOk(s: State, step: Step)
    requires Inv(s) && Enabled(s, step) && step.StartEdit?
    ensures NextIsOk(s, step)
  {
    assert Fits(s.channels[step.id], s.born[step.id]);
    hide TasksOk, HooksOk, UniqueKeys, BirthsOk;
  }

  lemma RegisteredIsOk(s: State, step: Step)
    requires Inv(s) && Enabled(s, step) && step.StartRegister?
    ensures NextIsOk(s, step)
  {
    assert Fits(s.channels[step.id], s.born[step.id]);
    hide TasksOk, HooksOk, UniqueKeys, BirthsOk;
  }

  lemma ListedIsOk(s: State, step: Step)
    requires Inv(s) && Enabled(s, step) && step.StartRefresh?
    ensures NextIsOk(s, step)
  {
    assert Fits(s.channels[step.id], s.born[step.id]);
    hide TasksOk, HooksOk, UniqueKeys, BirthsOk;
  }

  lemma SubscribedIsOk(s: State, step: Step)
    requires Inv(s) && Enabled(s, step) && step.Subscribe?
    ensures NextIsOk(s, step)
  {
    assert TaskOk(s.channels.Keys, s.born, s.inserter, step.k, s.tasks[step.k]);
    hide TasksOk, HooksOk, UniqueKeys, BirthsOk, RowsFit;
  }

  lemma TaskAfterIsOk(s: State, step: Step)
    requires Inv(s) && Enabled(s, step) && MovesFreely(step)
    ensures NextIsOk(s, step)
  {
    hide Inv, Enabled;
    match step {
      case StartEdit(_, _, _, _) => SnapshotIsOk(s, step);
      case StartRegister(_, _) => RegisteredIsOk(s, step);
      case StartRefresh(_, _) => ListedIsOk(s, step);
      case Subscribe(_, _) => SubscribedIsOk(s, step);
      case Resubscribe(_) =>
      case RefreshFails(_) =>
    }
    hide RegisterTask;
  }

  lemma FreeMoveKeeps(s: State, step: Step)
    requires Inv(s) && Enabled(s, step) && MovesFreely(step)
    ensures Inv(Apply(s, step))
  {
    StepMoves(s, step);
    FreeMoveKeepsHooks(s, step);
    TaskAfterIsOk(s, step);
    TaskMoved(s, step.k, TaskAfter(s, step));
    hide Apply, Enabled, TasksOk, HooksOk, UniqueKeys, RowsFit, BirthsOk, TaskAfter;
  }

  lemma UnhookKeeps(s: State, k: nat, answer: Answer)
    requires Inv(s) && Enabled(s, Unhook(k, answer))
    ensures Inv(Apply(s, Unhook(k, answer)))
  {
    TaskMoved(s, k, Finished);
    hide TasksOk, UniqueKeys, RowsFit, BirthsOk;
  }

  lemma StepKeepsInv(s: State, step: Step)
    requires Inv(s) && Enabled(s, step)
    ensures Inv(Apply(s, step))
  {
    hide Inv, Apply, Enabled;
    match step {
      case Create(k, id, c) => CreateKeeps(s, k, id, c);
      case Arm(k, answer) => ArmKeeps(s, k, answer);
      case Rollback(k, ok) => RollbackKeeps(s, k, ok);
      case DropReplaced(k, answer) => DropKeeps(s, k, answer);
      case CommitEdit(k) => CommitKeeps(s, k);
      case Rearm(k, answer) => RearmKeeps(s, k, answer);
      case SoftDelete(k, id) => SoftDeleteKeeps(s, k, id);
      case StartLogin(k, account, id) => StartLoginKeeps(s, k, account, id);
      case Upsert(k, name, config) => UpsertKeeps(s, k, name, config);
      case StoreRefreshed(k, config) => RefreshKeeps(s, k, config);
      case Unhook(k, answer) => UnhookKeeps(s, k, answer);
      case _ => FreeMoveKeeps(s, step);
    }
  }

  lemma CreateKeeps(s: State, k: nat, id: Uuid, c: Channel)
    requires Inv(s) && Enabled(s, Create(k, id, c))
    ensures Inv(Apply(s, Create(k, id, c)))
  {
    if KeyTaken(s.channels, c.provider, c.key) {
      TaskMoved(s, k, Finished);
    } else {
      InsertKeeps(s, k, id, c, if c.provider.Widget? then Finished else Arming(id));
    }
  }

  lemma DropKeeps(s: State, k: nat, answer: Answer)
    requires Inv(s) && Enabled(s, DropReplaced(k, answer))
    ensures Inv(Apply(s, DropReplaced(k, answer)))
  {
  }

  lemma RearmKeeps(s: State, k: nat, answer: Answer)
    requires Inv(s) && Enabled(s, Rearm(k, answer))
    ensures Inv(Apply(s, Rearm(k, answer)))
  {
  }

  lemma RefreshKeeps(s: State, k: nat, config: Config)
    requires Inv(s) && Enabled(s, StoreRefreshed(k, config))
    ensures Inv(Apply(s, StoreRefreshed(k, config)))
  {
    var id := s.tasks[k].id;
    assert TaskOk(s.channels.Keys, s.born, s.inserter, k, s.tasks[k]);
    if id in s.channels {
      assert Fits(s.channels[id], s.born[id]);
      SameKeyNoClash(s.channels, id, s.channels[id].(config := config));
      UpdateKeeps(s, id, s.channels[id].(config := config), k, Finished);
    } else {
      TaskMoved(s, k, Finished);
    }
  }

  lemma SoftDeleteKeeps(s: State, k: nat, id: Uuid)
    requires Inv(s) && Enabled(s, SoftDelete(k, id))
    ensures Inv(Apply(s, SoftDelete(k, id)))
  {
    TaskMoved(s, k, Finished);
    if id in s.channels {
      var row := s.channels[id].(deleted := true);
      SameKeyNoClash(s.channels, id, row);
      UpdateKeeps(s, id, row, k, if row.provider.Telegram? then Unhooking(row.key) else Finished);
    }
  }

  lemma StartLoginKeeps(s: State, k: nat, account: string, id: Uuid)
    requires Inv(s) && Enabled(s, StartLogin(k, account, id))
    ensures Inv(Apply(s, StartLogin(k, account, id)))
  {
    var born := Apply(s, StartLogin(k, account, id)).born;
    TasksKept(s, s.channels.Keys, born, s.inserter, k, LoggingIn(id, account));
    HooksKept(s, born);
  }

  // ── What a step leaves alone ────────────────────────────────────────

  // The step only moves its own task on; the hooks aside, nothing else changes.
  ghost predicate MovesTo(s: State, next: State, k: nat, t: Task) {
    next.channels == s.channels && next.born == s.born && next.inserter == s.inserter && next.tasks == s.tasks[k := t]
  }

  predicate Moves(step: Step) {
    step.Arm? || step.StartEdit? || step.DropReplaced? || step.StartRegister? || step.Rearm? || step.Resubscribe?
    || step.Unhook? || step.Subscribe? || step.StartRefresh? || step.RefreshFails?
  }

  function TaskAfter(s: State, step: Step): Task
    requires Moves(step)
  {
    match step
    case Arm(k, answer) => if answer.ok || !At(s, k) || !s.tasks[k].Arming? then Finished else RollingBack(s.tasks[k].id)
    case StartEdit(_, id, request, identity) =>
      if id in s.channels then Editing(id, s.channels[id], request, identity, false) else Finished
    case DropReplaced(k, _) => if At(s, k) && s.tasks[k].Editing? then s.tasks[k].(dropped := true) else Finished
    case StartRegister(_, id) => if id in s.channels then RegisterTask(id, s.channels[id]) else Finished
    case Subscribe(k, ok) =>
      if !ok && At(s, k) && s.tasks[k].Subscribing? && s.tasks[k].inserted then RollingBack(s.tasks[k].id) else Finished
    case StartRefresh(_, id) => if id in s.channels then Refreshing(id, s.channels[id].config) else Finished
    case _ => Finished
  }

  lemma ArmMoves(s: State, step: Step)
    requires Enabled(s, step) && step.Arm?
    ensures MovesTo(s, Apply(s, step), step.k, TaskAfter(s, step))
  {
    hide HooksAfterSet;
  }

  lemma RearmMoves(s: State, step: Step)
    requires Enabled(s, step) && step.Rearm?
    ensures MovesTo(s, Apply(s, step), step.k, TaskAfter(s, step))
  {
    hide HooksAfterSet;
  }

  lemma DropMoves(s: State, step: Step)
    requires Enabled(s, step) && step.DropReplaced?
    ensures MovesTo(s, Apply(s, step), step.k, TaskAfter(s, step))
  {
    hide HooksAfterDelete, PlanOf, Replaces;
  }

  lemma UnhookMoves(s: State, step: Step)
    requires Enabled(s, step) && step.Unhook?
    ensures MovesTo(s, Apply(s, step), step.k, TaskAfter(s, step))
  {
    hide HooksAfterDelete;
  }

  lemma EditMoves(s: State, step: Step)
    requires Enabled(s, step) && step.StartEdit?
    ensures MovesTo(s, Apply(s, step), step.k, TaskAfter(s, step))
  {
  }

  lemma RegisterMoves(s: State, step: Step)
    requires Enabled(s, step) && step.StartRegister?
    ensures MovesTo(s, Apply(s, step), step.k, TaskAfter(s, step))
  {
    hide RegisterTask;
  }

  lemma ListingMoves(s: State, step: Step)
    requires Enabled(s, step) && step.StartRefresh?
    ensures MovesTo(s, Apply(s, step), step.k, TaskAfter(s, step))
  {
  }

  lemma SubscribeMoves(s: State, step: Step)
    requires Enabled(s, step) && step.Subscribe?
    ensures MovesTo(s, Apply(s, step), step.k, TaskAfter(s, step))
  {
  }

  lemma ResubscribeMoves(s: State, step: Step)
    requires Enabled(s, step) && step.Resubscribe?
    ensures MovesTo(s, Apply(s, step), step.k, TaskAfter(s, step))
  {
  }

  lemma RefreshFailureMoves(s: State, step: Step)
    requires Enabled(s, step) && step.RefreshFails?
    ensures MovesTo(s, Apply(s, step), step.k, TaskAfter(s, step))
  {
  }

  lemma StepMoves(s: State, step: Step)
    requires Enabled(s, step) && Moves(step)
    ensures MovesTo(s, Apply(s, step), step.k, TaskAfter(s, step))
  {
    hide Apply, Enabled, MovesTo, TaskAfter;
    match step {
      case Arm(_, _) => ArmMoves(s, step);
      case StartEdit(_, _, _, _) => EditMoves(s, step);
      case DropReplaced(_, _) => DropMoves(s, step);
      case StartRegister(_, _) => RegisterMoves(s, step);
      case Rearm(_, _) => RearmMoves(s, step);
      case Resubscribe(_) => ResubscribeMoves(s, step);
      case Unhook(_, _) => UnhookMoves(s, step);
      case Subscribe(_, _) => SubscribeMoves(s, step);
      case StartRefresh(_, _) => ListingMoves(s, step);
      case RefreshFails(_) => RefreshFailureMoves(s, step);
    }
  }

  // The step writes a row that is there, or takes one out; births and inserters stay.
  ghost predicate Rewrites(s: State, next: State, k: nat) {
    && next.channels.Keys <= s.channels.Keys && next.born == s.born && next.inserter == s.inserter
    && k in next.tasks && next.tasks == s.tasks[k := next.tasks[k]]
  }

  lemma RollbackRewrites(s: State, k: nat, ok: bool)
    requires Enabled(s, Rollback(k, ok))
    ensures Rewrites(s, Apply(s, Rollback(k, ok)), k) && Apply(s, Rollback(k, ok)).tasks[k] == Finished
  {
  }

  lemma CommitRewrites(s: State, k: nat)
    requires Enabled(s, CommitEdit(k))
    ensures Rewrites(s, Apply(s, CommitEdit(k)), k)
  {
    hide PlanOf, KeyClash, UpdateRow, Replaces, ArmingTask;
  }

  lemma DeleteRewrites(s: State, k: nat, id: Uuid)
    requires Enabled(s, SoftDelete(k, id))
    ensures Rewrites(s, Apply(s, SoftDelete(k, id)), k)
  {
  }

  lemma WriteBackRewrites(s: State, k: nat, config: Config)
    requires Enabled(s, StoreRefreshed(k, config))
    ensures Rewrites(s, Apply(s, StoreRefreshed(k, config)), k) && Apply(s, StoreRefreshed(k, config)).tasks[k] == Finished
  {
  }

  predicate Allocates(step: Step) {
    step.Create? || step.Upsert? || step.StartLogin?
  }

  // Every step but those that allocate ids.
  lemma OthersRewrite(s: State, step: Step)
    requires Enabled(s, step) && !Allocates(step)
    ensures Rewrites(s, Apply(s, step), step.k)
  {
    hide Apply, Enabled, TaskAfter;
    match step {
      case Rollback(k, ok) => RollbackRewrites(s, k, ok);
      case CommitEdit(k) => CommitRewrites(s, k);
      case SoftDelete(k, id) => DeleteRewrites(s, k, id);
      case StoreRefreshed(k, config) => WriteBackRewrites(s, k, config);
      case _ => StepMoves(s, step);
    }
  }

  // A login's pre-read allocates an id, if any, and starts its task.
  lemma LoginStarts(s: State, k: nat, account: string, id: Uuid)
    requires Enabled(s, StartLogin(k, account, id))
    ensures
      var next := Apply(s, StartLogin(k, account, id));
      && next.channels == s.channels && next.inserter == s.inserter && next.tasks == s.tasks[k := LoggingIn(id, account)]
      && Extends(s.born, next.born)
  {
    hide Holder;
  }

  // ── Runs ────────────────────────────────────────────────────────────

  datatype Run = Run(states: seq<State>, steps: seq<Step>)

  ghost predicate IsRun(run: Run) {
    && |run.states| == |run.steps| + 1 && run.states[0] == INITIAL
    && forall i :: 0 <= i < |run.steps| ==> Enabled(run.states[i], run.steps[i]) && run.states[i + 1] == Apply(run.states[i], run.steps[i])
  }

  lemma {:induction false} RunKeepsInv(run: Run, i: nat)
    requires IsRun(run) && i < |run.states|
    ensures Inv(run.states[i])
  {
    hide Inv, Apply, Enabled;
    if i == 0 {
      InitiallyInv();
    } else {
      RunKeepsInv(run, i - 1);
      StepKeepsInv(run.states[i - 1], run.steps[i - 1]);
    }
  }

  /** At most one row ever holds a provider identity, deleted rows included. */
  lemma OneRowPerIdentity(run: Run, i: nat, a: Uuid, b: Uuid, provider: ProviderKind, key: string)
    requires IsRun(run) && i < |run.states|
    requires HasKey(run.states[i].channels, a, provider, key) && HasKey(run.states[i].channels, b, provider, key)
    ensures a == b
  {
    RunKeepsInv(run, i);
  }

  /** Every setWebhook of a create names a channel that at that moment exists, is the one
      this very create inserted, and holds the bot's identity and the secret sent along. */
  lemma CreateArmsItsOwnRow(run: Run, i: nat)
    requires IsRun(run) && i < |run.steps| && run.steps[i].Arm?
    ensures
      var s, k := run.states[i], run.steps[i].k;
      var id := s.tasks[k].id;
      && id in s.channels && id in s.inserter && s.inserter[id] == k
      && (s.channels[id].provider.Telegram? ==>
            && s.channels[id].config.TelegramConfig?
            && run.states[i + 1].issued == s.issued + [SetWebhook(s.channels[id].key, Hook(id, s.channels[id].config.secret))])
  {
    RunKeepsInv(run, i);
    var s, k := run.states[i], run.steps[i].k;
    assert TaskOk(s.channels.Keys, s.born, s.inserter, k, s.tasks[k]);
  }

  /** A rollback, of a create or of a login, deletes the very row its own request inserted,
      and when it succeeds the identity is free again. */
  lemma RollbackFreesItsOwnIdentity(run: Run, i: nat)
    requires IsRun(run) && i < |run.steps| && run.steps[i].Rollback?
    ensures
      var s, k := run.states[i], run.steps[i].k;
      var id := s.tasks[k].id;
      && id in s.channels && id in s.inserter && s.inserter[id] == k
      && (run.steps[i].ok ==> !KeyTaken(run.states[i + 1].channels, s.channels[id].provider, s.channels[id].key))
  {
    RunKeepsInv(run, i);
    var s, k := run.states[i], run.steps[i].k;
    assert TaskOk(s.channels.Keys, s.born, s.inserter, k, s.tasks[k]);
  }

  lemma CompoundStepsDeleteNothing(s: State, k: nat, id: Uuid, account: string, name: string, config: Config, t: Task)
    ensures s.channels.Keys <= Upserted(s, k, id, account, name, config).channels.Keys
    ensures t.Editing? ==> s.channels.Keys <= Committed(s, k, t).channels.Keys
  {
    hide PlanOf, KeyClash, UpdateRow, Holder;
  }

  /** Nothing else ever takes a row away. */
  lemma OnlyRollbacksDelete(s: State, step: Step)
    requires Enabled(s, step) && !step.Rollback?
    ensures s.channels.Keys <= Apply(s, step).channels.Keys
  {
    match step {
      case CommitEdit(k) => CompoundStepsDeleteNothing(s, k, 0, "", "", WidgetConfig, s.tasks[k]);
      case Upsert(k, name, config) =>
        CompoundStepsDeleteNothing(s, k, s.tasks[k].id, s.tasks[k].account, name, config, Finished);
      case _ =>
    }
    hide Committed, Upserted, KeyTaken, ConfigFits, Holder, HooksAfterSet, HooksAfterDelete, Replaces, PlanOf;
  }

  lemma CreateExtendsBirths(s: State, k: nat, id: Uuid, c: Channel)
    requires Enabled(s, Create(k, id, c))
    ensures Extends(s.born, Apply(s, Create(k, id, c)).born)
  {
  }

  lemma UpsertExtendsBirths(s: State, k: nat, name: string, config: Config)
    requires Inv(s) && Enabled(s, Upsert(k, name, config))
    ensures Extends(s.born, Apply(s, Upsert(k, name, config)).born)
  {
    assert TaskOk(s.channels.Keys, s.born, s.inserter, k, s.tasks[k]);
    hide Holder, UniqueKeys, RowsFit, HooksOk, BirthsOk, TasksOk;
  }

  lemma StepExtendsBirths(s: State, step: Step)
    requires Inv(s) && Enabled(s, step)
    ensures Extends(s.born, Apply(s, step).born)
  {
    hide Inv, Apply, Enabled;
    match step {
      case Create(k, id, c) => CreateExtendsBirths(s, k, id, c);
      case StartLogin(k, account, id) => LoginStarts(s, k, account, id);
      case Upsert(k, name, config) => UpsertExtendsBirths(s, k, name, config);
      case _ => OthersRewrite(s, step);
    }
  }

  lemma {:induction false} BirthsAreFixed(run: Run, i: nat, j: nat)
    requires IsRun(run) && i <= j < |run.states|
    ensures Extends(run.states[i].born, run.states[j].born)
    decreases j
  {
    hide Inv, Apply, Enabled;
    if i < j {
      BirthsAreFixed(run, i, j - 1);
      RunKeepsInv(run, j - 1);
      StepExtendsBirths(run.states[j - 1], run.steps[j - 1]);
    }
  }

  // The secret the ingest check compares against.
  predicate ExpectsSecret(channels: Channels, id: Uuid, bot: string, secret: string) {
    HasKey(channels, id, Telegram, bot) && channels[id].config.TelegramConfig? && channels[id].config.secret == secret
  }

  /** Whenever a webhook was set, by a create, an update or a re-registration, it carries the
      secret and names the bot of its channel's row at every point, earlier or later, at which
      that row exists. */
  lemma WebhooksCarryTheStoredSecret(run: Run, i: nat, j: nat, n: nat)
    requires IsRun(run) && i < |run.states| && j < |run.states| && n < |run.states[i].issued|
    ensures
      var call := run.states[i].issued[n];
      call.hook.channel in run.states[j].channels ==>
        ExpectsSecret(run.states[j].channels, call.hook.channel, call.bot, call.hook.secret)
  {
    RunKeepsInv(run, i);
    RunKeepsInv(run, j);
    BirthsAreFixed(run, if i <= j then i else j, if i <= j then j else i);
    var call := run.states[i].issued[n];
    assert call in run.states[i].issued;
    assert HookOk(run.states[i].born, call.bot, call.hook);
  }

  /** So does whatever webhook the provider holds for a bot now. */
  lemma ProviderHoldsTheStoredSecret(run: Run, i: nat, bot: string)
    requires IsRun(run) && i < |run.states| && bot in run.states[i].hooks
    ensures
      var hook := run.states[i].hooks[bot];
      hook.channel in run.states[i].channels ==> ExpectsSecret(run.states[i].channels, hook.channel, bot, hook.secret)
  {
    RunKeepsInv(run, i);
    assert HookOk(run.states[i].born, bot, run.states[i].hooks[bot]);
  }

  /** Through renames, token rotations, deletes, restores and re-registrations the secret of
      a Telegram channel stays what it was created with. */
  lemma SecretNeverChanges(run: Run, i: nat, j: nat, id: Uuid)
    requires IsRun(run) && i <= j < |run.states|
    requires id in run.states[i].channels && id in run.states[j].channels && run.states[i].channels[id].provider.Telegram?
    ensures
      var c := run.states[i].channels[id];
      c.config.TelegramConfig? && ExpectsSecret(run.states[j].channels, id, c.key, c.config.secret)
  {
    RunKeepsInv(run, i);
    RunKeepsInv(run, j);
    BirthsAreFixed(run, i, j);
  }
}
