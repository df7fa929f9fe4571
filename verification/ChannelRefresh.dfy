/**
 A token refresh among concurrent requests. It writes back a config built from the one it
 listed, whatever has been stored since.
 */
module ChannelRefresh {
  import opened ExternalId
  import opened Model
  import opened Wrappers
  import opened ChannelTable
  import opened ChannelLifecycle
  import opened ChannelArming

  // The step stores a credential in the row: an insert, a login, an update or a refresh.
  ghost predicate Stores(s: State, step: Step, id: Uuid) {
    match step
    case Create(_, created, c) => created == id && !KeyTaken(s.channels, c.provider, c.key)
    case CommitEdit(k) =>
      && Writes(s, k) && s.tasks[k].id == id
      && PlanOf(s.tasks[k].existing, s.tasks[k].request, s.tasks[k].identity).value.config.Some?
    case Upsert(k, _, _) => UpsertsOn(s, k, id)
    case StoreRefreshed(k, _) => At(s, k) && s.tasks[k].Refreshing? && s.tasks[k].id == id && id in s.channels
    case _ => false
  }

  // The row, if it is there, holds the same credential as before, and was there before.
  predicate SameConfig(channels: Channels, next: Channels, id: Uuid) {
    id in next ==> id in channels && next[id].config == channels[id].config
  }

  // ── One step ────────────────────────────────────────────────────────

  lemma CommitStores(s: State, k: nat, id: Uuid)
    requires Enabled(s, CommitEdit(k)) && !Stores(s, CommitEdit(k), id)
    ensures SameConfig(s.channels, Apply(s, CommitEdit(k)).channels, id)
  {
    hide PlanOf, KeyClash;
  }

  lemma UpsertStores(s: State, k: nat, name: string, config: Config, id: Uuid)
    requires Enabled(s, Upsert(k, name, config)) && !Stores(s, Upsert(k, name, config), id)
    ensures SameConfig(s.channels, Apply(s, Upsert(k, name, config)).channels, id)
  {
  }

  lemma CreateStores(s: State, k: nat, created: Uuid, c: Channel, id: Uuid)
    requires Enabled(s, Create(k, created, c)) && !Stores(s, Create(k, created, c), id)
    ensures SameConfig(s.channels, Apply(s, Create(k, created, c)).channels, id)
  {
    hide KeyTaken;
  }

  lemma RollbackStores(s: State, k: nat, ok: bool, id: Uuid)
    requires Enabled(s, Rollback(k, ok))
    ensures SameConfig(s.channels, Apply(s, Rollback(k, ok)).channels, id)
  {
  }

  lemma DeleteStores(s: State, k: nat, deleted: Uuid, id: Uuid)
    requires Enabled(s, SoftDelete(k, deleted))
    ensures SameConfig(s.channels, Apply(s, SoftDelete(k, deleted)).channels, id)
  {
  }

  lemma WriteBackStores(s: State, k: nat, config: Config, id: Uuid)
    requires Enabled(s, StoreRefreshed(k, config)) && !Stores(s, StoreRefreshed(k, config), id)
    ensures SameConfig(s.channels, Apply(s, StoreRefreshed(k, config)).channels, id)
  {
  }

  lemma OnlyStoresChange(s: State, step: Step, id: Uuid)
    requires Enabled(s, step) && !Stores(s, step, id)
    ensures SameConfig(s.channels, Apply(s, step).channels, id)
  {
    hide Apply, Enabled, Stores, TaskAfter;
    match step {
      case CommitEdit(k) => CommitStores(s, k, id);
      case Upsert(k, name, config) => UpsertStores(s, k, name, config, id);
      case Create(k, created, c) => CreateStores(s, k, created, c, id);
      case Rollback(k, ok) => RollbackStores(s, k, ok, id);
      case SoftDelete(k, deleted) => DeleteStores(s, k, deleted, id);
      case StoreRefreshed(k, config) => WriteBackStores(s, k, config, id);
      case StartLogin(k, account, at) => LoginStarts(s, k, account, at);
      case _ => StepMoves(s, step);
    }
  }

  // ── Along a run ─────────────────────────────────────────────────────

  ghost predicate StoredAt(run: Run, b: nat, id: Uuid) {
    b < |run.steps| && b < |run.states| && Stores(run.states[b], run.steps[b], id)
  }

  // The last store of a credential before `c` is step `b`.
  ghost predicate InForce(run: Run, b: nat, c: nat, id: Uuid) {
    b < c && StoredAt(run, b, id) && forall j :: b < j < c ==> !StoredAt(run, j, id)
  }

  lemma {:induction false} ConfigAlong(run: Run, b: nat, c: nat, id: Uuid)
    requires IsRun(run) && b <= c < |run.states| && forall j :: b <= j < c ==> !StoredAt(run, j, id)
    ensures SameConfig(run.states[b].channels, run.states[c].channels, id)
    decreases c
  {
    hide Apply, Enabled, Stores;
    if b < c {
      ConfigAlong(run, b, c - 1, id);
      NextIsApplied(run, c - 1);
      assert !StoredAt(run, c - 1, id);
      OnlyStoresChange(run.states[c - 1], run.steps[c - 1], id);
    }
  }

  // The task of a refresh, until its end.
  predicate Awaits(s: State, k: nat, id: Uuid, listed: Config) {
    At(s, k) && (s.tasks[k] == Refreshing(id, listed) || s.tasks[k].Finished?)
  }

  lemma OwnStepAwaits(s: State, step: Step, k: nat, id: Uuid, listed: Config)
    requires Enabled(s, step) && IsOf(step, k) && Awaits(s, k, id, listed)
    ensures Awaits(Apply(s, step), k, id, listed)
  {
    AwaitingStepIs(s, step, k, id, listed);
    if step.StoreRefreshed? {
      WriteBackRewrites(s, k, step.config);
    } else {
      StepMoves(s, step);
    }
    hide Apply;
  }

  lemma AwaitingStepIs(s: State, step: Step, k: nat, id: Uuid, listed: Config)
    requires Enabled(s, step) && IsOf(step, k) && Awaits(s, k, id, listed)
    ensures step.StoreRefreshed? || step.RefreshFails?
  {
    hide Holder, ConfigFits, PlanOf, Replaces;
  }

  lemma {:induction false} AwaitsAlong(run: Run, a: nat, c: nat, k: nat, id: Uuid, listed: Config)
    requires IsRun(run) && a <= c < |run.states| && Awaits(run.states[a], k, id, listed)
    ensures Awaits(run.states[c], k, id, listed)
    decreases c
  {
    hide Apply, Enabled;
    if a < c {
      AwaitsAlong(run, a, c - 1, k, id, listed);
      NextIsApplied(run, c - 1);
      if IsOf(run.steps[c - 1], k) {
        OwnStepAwaits(run.states[c - 1], run.steps[c - 1], k, id, listed);
      } else {
        OthersKeepTask(run.states[c - 1], run.steps[c - 1], k);
      }
    }
  }

  lemma ListingAwaits(s: State, k: nat, id: Uuid)
    requires Enabled(s, StartRefresh(k, id))
    ensures Awaits(Apply(s, StartRefresh(k, id)), k, id, s.channels[id].config) && id in s.channels
  {
  }

  lemma WriteBackIs(s: State, k: nat, config: Config, id: Uuid)
    requires Enabled(s, StoreRefreshed(k, config)) && s.tasks[k].id == id && id in s.channels
    ensures
      var next := Apply(s, StoreRefreshed(k, config)).channels;
      id in next && next[id] == s.channels[id].(config := config)
  {
  }

  /** Step `b` stored the credential that a refresh's write-back at `c` overwrites. The refresh
      listed that very credential when `b` came before its listing at `a`; it never saw it exactly
      when `b` fell between the two. Name, key and `deleted_at` stay as they are. */
  lemma RefreshOverwrites(run: Run, a: nat, b: nat, c: nat, k: nat, id: Uuid)
    requires IsRun(run) && a < c < |run.steps| && run.steps[a] == StartRefresh(k, id) && run.steps[c].StoreRefreshed?
    requires run.steps[c].k == k && id in run.states[c].channels && InForce(run, b, c, id)
    ensures At(run.states[c], k) && run.states[c].tasks[k].Refreshing? && run.states[c].tasks[k].id == id
    ensures id in run.states[b + 1].channels && run.states[c].channels[id].config == run.states[b + 1].channels[id].config
    ensures
      id in run.states[c + 1].channels
      && run.states[c + 1].channels[id] == run.states[c].channels[id].(config := run.steps[c].config)
    ensures !InForce(run, b, a, id) <==> a < b
    ensures b < a ==> run.states[c].tasks[k].listed == run.states[c].channels[id].config
  {
    NextIsApplied(run, a);
    NextIsApplied(run, c);
    assert Enabled(run.states[c], run.steps[c]) ==> run.states[c].tasks[k].Refreshing?;
    assert !StoredAt(run, a, id);
    hide Apply, Enabled, Stores, StoredAt;
    ListingAwaits(run.states[a], k, id);
    AwaitsAlong(run, a + 1, c, k, id, run.states[a].channels[id].config);
    ConfigAlong(run, b + 1, c, id);
    WriteBackIs(run.states[c], k, run.steps[c].config, id);
    if b < a {
      ConfigAlong(run, a, c, id);
    }
  }

  // ── From the start ──────────────────────────────────────────────────

  const OLD := InstagramConfig("old", Some(5))
  const NEW := InstagramConfig("new", None)
  const RENEWED := InstagramConfig("old, renewed", Some(9))
  const ROW := Channel(Instagram, "shop", "9", OLD, false)
  const REPLACE := Request(None, false, Some(InstagramSpec("new")))
  const EDIT := Editing(1, ROW, REPLACE, Some("9"), false)

  // An update replaces the token while a refresh of the old one is under way.
  function Replaced(n: nat): (State, Step) {
    var born: map<Uuid, Birth> := map[1 := Birth(Instagram, "9", "")];
    var inserter: map<Uuid, nat> := map[1 := 0];
    var row: Channels := map[1 := ROW];
    var newer: Channels := map[1 := ROW.(config := NEW)];
    var renewed: Channels := map[1 := ROW.(config := RENEWED)];
    var listed := Refreshing(1, OLD);
    if n == 0 then (INITIAL, Create(0, 1, ROW))
    else if n == 1 then (State(row, born, inserter, map[0 := Arming(1)], map[], []), StartRefresh(1, 1))
    else if n == 2 then
      (State(row, born, inserter, map[0 := Arming(1), 1 := listed], map[], []), StartEdit(2, 1, REPLACE, Some("9")))
    else if n == 3 then
      (State(row, born, inserter, map[0 := Arming(1), 1 := listed, 2 := EDIT], map[], []), CommitEdit(2))
    else if n == 4 then
      (State(newer, born, inserter, map[0 := Arming(1), 1 := listed, 2 := Resubscribing(1)], map[], []), StoreRefreshed(1, RENEWED))
    else
      (State(renewed, born, inserter, map[0 := Arming(1), 1 := Finished, 2 := Resubscribing(1)], map[], []), Resubscribe(2))
  }

  ghost predicate ReplacedFollows(n: nat) {
    Follows(Replaced(n).0, Replaced(n).1, Replaced(n + 1).0)
  }

  lemma RowIsCreated()
    ensures ReplacedFollows(0)
  {
    assert !KeyTaken(INITIAL.channels, Instagram, "9");
    hide Committed, Upserted, AfterArming, SetHook, RegisterTask, Holder, PlanOf;
  }

  lemma RefreshLists()
    ensures ReplacedFollows(1)
  {
    hide Committed, Created, Upserted, AfterArming, SetHook, RegisterTask, Holder, PlanOf;
  }

  lemma UpdateReads()
    ensures ReplacedFollows(2)
  {
    hide Committed, Created, Upserted, AfterArming, SetHook, RegisterTask, Holder, PlanOf;
  }

  lemma UpdateCommits()
    ensures ReplacedFollows(3)
  {
    hide Created, Upserted, AfterArming, SetHook, RegisterTask, Holder;
  }

  lemma RefreshWritesBack()
    ensures ReplacedFollows(4)
  {
    hide Committed, Created, Upserted, AfterArming, SetHook, RegisterTask, Holder, PlanOf;
  }

  lemma ReplacedEnds()
    ensures Replaced(0).0 == INITIAL
    ensures 1 in Replaced(4).0.channels && Replaced(4).0.channels[1].config == NEW
    ensures 1 in Replaced(5).0.channels && Replaced(5).0.channels[1].config == RENEWED
  {
  }

  /** A run in which the token an update has just stored gives way to the renewed old one. */
  lemma ReplacementIsLost()
    ensures exists run ::
      && IsRun(run) && |run.steps| == 5
      && 1 in run.states[4].channels && run.states[4].channels[1].config == NEW
      && 1 in run.states[5].channels && run.states[5].channels[1].config == RENEWED
  {
    hide Replaced, Follows, Enabled, Apply;
    RowIsCreated();
    RefreshLists();
    UpdateReads();
    UpdateCommits();
    RefreshWritesBack();
    ReplacedEnds();
    var run := Run(seq(6, n requires 0 <= n < 6 => Replaced(n).0), seq(5, n requires 0 <= n < 5 => Replaced(n).1));
    forall i | 0 <= i < 5
      ensures Enabled(run.states[i], run.steps[i]) && run.states[i + 1] == Apply(run.states[i], run.steps[i])
    {
      assert ReplacedFollows(i);
      FollowsIs(run.states[i], run.steps[i], run.states[i + 1]);
    }
    assert IsRun(run);
  }
}
