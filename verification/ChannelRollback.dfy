/**
 What a rollback takes away. It deletes the row its own request inserted, and with it
 whatever other requests have done to that row in the meantime.
 */
module ChannelRollback {
  import opened Wrappers
  import opened ExternalId
  import opened Model
  import opened ChannelTable
  import opened ChannelLifecycle
  import opened ChannelArming

  // The row under `id` is the one request `k` inserted.
  predicate RowIsOf(s: State, id: Uuid, k: nat) {
    id in s.channels && id in s.inserter && s.inserter[id] == k
  }

  // The step inserts a row under `id` for request `k`.
  ghost predicate Inserts(s: State, step: Step, id: Uuid, k: nat) {
    match step
    case Create(j, created, c) => j == k && created == id && !KeyTaken(s.channels, c.provider, c.key)
    case Upsert(j, _, _) =>
      && j == k && At(s, k) && s.tasks[k].LoggingIn? && s.tasks[k].id == id && id !in s.channels
      && Holder(s.channels, Instagram, s.tasks[k].account).None?
    case _ => false
  }

  // The request may still delete the row it inserted.
  predicate Holds(s: State, id: Uuid, k: nat) {
    At(s, k) && (s.tasks[k] == Arming(id) || s.tasks[k] == Subscribing(id, true) || s.tasks[k] == RollingBack(id))
  }

  // ── One step ────────────────────────────────────────────────────────

  // A request inserts at most once: whoever inserted a row is past its statement.
  ghost predicate InsertersArePast(s: State) {
    forall id :: id in s.inserter ==> At(s, s.inserter[id]) && Past(s.tasks[s.inserter[id]])
  }

  lemma UpsertIs(s: State, k: nat, name: string, config: Config)
    requires Enabled(s, Upsert(k, name, config))
    ensures
      var step, next := Upsert(k, name, config), Apply(s, Upsert(k, name, config));
      && s.tasks[k].LoggingIn?
      && (Inserts(s, step, s.tasks[k].id, k) ==>
            && next.inserter == s.inserter[s.tasks[k].id := k] && next.channels.Keys == s.channels.Keys + {s.tasks[k].id}
            && next.tasks == s.tasks[k := Subscribing(s.tasks[k].id, true)])
      && (!Inserts(s, step, s.tasks[k].id, k) ==>
            && next.inserter == s.inserter && next.channels.Keys == s.channels.Keys
            && next.tasks.Keys == s.tasks.Keys && Past(next.tasks[k])
            && forall j :: At(s, j) && j != k ==> next.tasks[j] == s.tasks[j])
  {
  }

  lemma CreateIs(s: State, k: nat, id: Uuid, c: Channel)
    requires Enabled(s, Create(k, id, c))
    ensures
      var step, next := Create(k, id, c), Apply(s, Create(k, id, c));
      && (Inserts(s, step, id, k) ==>
            && next.inserter == s.inserter[id := k] && next.channels.Keys == s.channels.Keys + {id}
            && next.tasks == s.tasks[k := if c.provider.Widget? then Finished else Arming(id)])
      && (!Inserts(s, step, id, k) ==>
            next.inserter == s.inserter && next.channels == s.channels && next.tasks == s.tasks[k := Finished])
  {
    hide KeyTaken;
  }

  lemma PastKeeps(s: State, step: Step)
    requires InsertersArePast(s) && Enabled(s, step) && !step.Create? && !step.Upsert?
    ensures InsertersArePast(Apply(s, step))
  {
    var next := Apply(s, step);
    if step.StartLogin? {
      LoginStarts(s, step.k, step.account, step.id);
    } else {
      OthersRewrite(s, step);
    }
    hide Apply, Enabled;
    forall id | id in next.inserter ensures At(next, next.inserter[id]) && Past(next.tasks[next.inserter[id]]) {
      PastStays(s, step, s.inserter[id]);
    }
  }

  lemma UpsertKeepsPast(s: State, k: nat, name: string, config: Config)
    requires InsertersArePast(s) && Enabled(s, Upsert(k, name, config))
    ensures InsertersArePast(Apply(s, Upsert(k, name, config)))
  {
    UpsertIs(s, k, name, config);
    hide Apply, Enabled, Inserts;
  }

  lemma StepKeepsPast(s: State, step: Step)
    requires InsertersArePast(s) && Enabled(s, step)
    ensures InsertersArePast(Apply(s, step))
  {
    match step {
      case Create(k, id, c) => CreateIs(s, k, id, c);
      case Upsert(k, name, config) => UpsertKeepsPast(s, k, name, config);
      case _ => PastKeeps(s, step);
    }
    hide Apply, Enabled, Inserts;
  }

  lemma {:induction false} InsertersArePastAlong(run: Run, i: nat)
    requires IsRun(run) && i < |run.states|
    ensures InsertersArePast(run.states[i])
  {
    hide Apply, Enabled;
    if i > 0 {
      InsertersArePastAlong(run, i - 1);
      NextIsApplied(run, i - 1);
      StepKeepsPast(run.states[i - 1], run.steps[i - 1]);
    }
  }

  // A row becomes a request's only by that request's insert.
  lemma OnlyInsertsGive(s: State, step: Step, id: Uuid, k: nat)
    requires Enabled(s, step) && !RowIsOf(s, id, k) && RowIsOf(Apply(s, step), id, k)
    ensures Inserts(s, step, id, k)
  {
    match step {
      case Create(j, created, c) => CreateIs(s, j, created, c);
      case Upsert(j, name, config) => UpsertIs(s, j, name, config);
      case StartLogin(j, account, at) => LoginStarts(s, j, account, at);
      case _ => OthersRewrite(s, step);
    }
    hide Apply, Enabled, Inserts;
  }

  lemma InsertsHold(s: State, step: Step, id: Uuid, k: nat)
    requires Enabled(s, step) && Inserts(s, step, id, k)
    ensures At(Apply(s, step), k) && (Holds(Apply(s, step), id, k) || Apply(s, step).tasks[k].Finished?)
  {
    match step {
      case Create(_, _, c) => CreateIs(s, k, id, c);
      case Upsert(_, name, config) => UpsertIs(s, k, name, config);
    }
    hide Apply;
  }

  predicate Ends(s: State, k: nat) {
    At(s, k) && s.tasks[k].Finished?
  }

  lemma OwnStepHolds(s: State, step: Step, id: Uuid, k: nat)
    requires Enabled(s, step) && IsOf(step, k) && (Holds(s, id, k) || Ends(s, k))
    ensures Holds(Apply(s, step), id, k) || Ends(Apply(s, step), k)
    ensures Ends(s, k) ==> Ends(Apply(s, step), k)
  {
    OwnStepIs(s, step, k);
    if step.Rollback? {
      RollbackRewrites(s, k, step.ok);
    } else {
      StepMoves(s, step);
    }
    hide Apply;
  }

  lemma HoldingStays(s: State, step: Step, id: Uuid, k: nat)
    requires Enabled(s, step) && (Holds(s, id, k) || Ends(s, k))
    ensures Holds(Apply(s, step), id, k) || Ends(Apply(s, step), k)
    ensures Ends(s, k) ==> Ends(Apply(s, step), k)
  {
    if IsOf(step, k) {
      OwnStepHolds(s, step, id, k);
    } else {
      OthersKeepTask(s, step, k);
    }
    hide Apply, Enabled;
  }

  // ── Along a run ─────────────────────────────────────────────────────

  lemma {:induction false} HoldingAlong(run: Run, b: nat, c: nat, id: Uuid, k: nat)
    requires IsRun(run) && b <= c < |run.states| && (Holds(run.states[b], id, k) || Ends(run.states[b], k))
    ensures Holds(run.states[c], id, k) || Ends(run.states[c], k)
    ensures Ends(run.states[b], k) ==> Ends(run.states[c], k)
    decreases c
  {
    hide Apply, Enabled, Holds;
    if b < c {
      HoldingAlong(run, b, c - 1, id, k);
      NextIsApplied(run, c - 1);
      HoldingStays(run.states[c - 1], run.steps[c - 1], id, k);
    }
  }

  lemma HeldIsOwn(s: State, id: Uuid, k: nat)
    requires Inv(s) && Holds(s, id, k)
    ensures RowIsOf(s, id, k)
  {
    assert TaskOk(s.channels.Keys, s.born, s.inserter, k, s.tasks[k]);
  }

  lemma EndedDoNotInsert(s: State, step: Step, id: Uuid, k: nat)
    requires Enabled(s, step) && At(s, k) && Past(s.tasks[k])
    ensures !Inserts(s, step, id, k)
  {
  }

  lemma {:induction false} GoneForGood(run: Run, b: nat, c: nat, id: Uuid, k: nat)
    requires IsRun(run) && b <= c < |run.states| && Ends(run.states[b], k) && !RowIsOf(run.states[b], id, k)
    ensures !RowIsOf(run.states[c], id, k)
    decreases c
  {
    hide Apply, Enabled, RowIsOf, Inserts;
    if b < c {
      GoneForGood(run, b, c - 1, id, k);
      PastAlong(run, b, c - 1, k);
      NextIsApplied(run, c - 1);
      EndedDoNotInsert(run.states[c - 1], run.steps[c - 1], id, k);
      if RowIsOf(run.states[c], id, k) {
        OnlyInsertsGive(run.states[c - 1], run.steps[c - 1], id, k);
      }
    }
  }

  lemma NotYetOwn(run: Run, a: nat, b: nat, id: Uuid, k: nat)
    requires IsRun(run) && b <= a < |run.steps| && Inserts(run.states[a], run.steps[a], id, k)
    ensures !RowIsOf(run.states[b], id, k)
  {
    hide Apply, Inserts;
    NextIsApplied(run, a);
    if RowIsOf(run.states[b], id, k) {
      InsertersArePastAlong(run, b);
      PastAlong(run, b, a, k);
      EndedDoNotInsert(run.states[a], run.steps[a], id, k);
    }
  }

  lemma RollbackEnds(s: State, id: Uuid, k: nat)
    requires Enabled(s, Rollback(k, true)) && Holds(s, id, k)
    ensures Ends(Apply(s, Rollback(k, true)), k) && id !in Apply(s, Rollback(k, true)).channels
  {
  }

  /** In any run, the row a rollback deletes is the row its request inserted, from that insert up
      to the rollback and at no other moment, whoever writes it in between. */
  lemma OwnExactlyUntilRollback(run: Run, a: nat, b: nat, c: nat, id: Uuid, k: nat)
    requires IsRun(run) && a < c < |run.steps| && b < |run.states|
    requires Inserts(run.states[a], run.steps[a], id, k) && run.steps[c] == Rollback(k, true)
    ensures RowIsOf(run.states[b], id, k) <==> a < b <= c
    ensures id !in run.states[c + 1].channels
  {
    hide Apply, Inserts, RowIsOf, Inv;
    NextIsApplied(run, a);
    NextIsApplied(run, c);
    InsertsHold(run.states[a], run.steps[a], id, k);
    HoldingAlong(run, a + 1, c, id, k);
    assert Holds(run.states[c], id, k);
    RollbackEnds(run.states[c], id, k);
    if b <= a {
      NotYetOwn(run, a, b, id, k);
    } else if b <= c {
      HoldingAlong(run, a + 1, b, id, k);
      HoldingAlong(run, b, c, id, k);
      RunKeepsInv(run, b);
      HeldIsOwn(run.states[b], id, k);
    } else {
      NoRowIsNobodys(run.states[c + 1], id, k);
      GoneForGood(run, c + 1, b, id, k);
    }
  }

  lemma NoRowIsNobodys(s: State, id: Uuid, k: nat)
    requires id !in s.channels
    ensures !RowIsOf(s, id, k)
  {
  }

  // A second login's upsert updates the row that is there.
  ghost predicate Updates(s: State, step: Step, id: Uuid) {
    step.Upsert? && UpsertsOn(s, step.k, id) && id in s.channels
  }

  lemma UpdateKeepsOwner(s: State, step: Step, id: Uuid, k: nat)
    requires Enabled(s, step) && Updates(s, step, id)
    ensures RowIsOf(s, id, k) <==> RowIsOf(Apply(s, step), id, k)
  {
    UpsertIs(s, step.k, step.name, step.config);
    hide Apply;
  }

  /** A login's rollback deletes the row that a second login has updated exactly when that update
      falls between the first login's insert and its rollback. The second login has been told
      nothing of it. */
  lemma RollbackTakesSecondLogin(run: Run, a: nat, b: nat, c: nat, id: Uuid, k: nat)
    requires IsRun(run) && a < c < |run.steps| && b < |run.steps|
    requires Inserts(run.states[a], run.steps[a], id, k) && run.steps[c] == Rollback(k, true)
    requires Updates(run.states[b], run.steps[b], id)
    ensures RowIsOf(run.states[b + 1], id, k) <==> a < b < c
    ensures a < b < c ==> id in run.states[c].channels && id !in run.states[c + 1].channels
  {
    hide Apply, Inserts, Enabled;
    NextIsApplied(run, b);
    OwnExactlyUntilRollback(run, a, b, c, id, k);
    OwnExactlyUntilRollback(run, a, c, c, id, k);
    UpdateKeepsOwner(run.states[b], run.steps[b], id, k);
  }

  // ── From the start ──────────────────────────────────────────────────

  const FIRST := InstagramConfig("first", None)
  const SECOND := InstagramConfig("second", None)
  const ROW := Channel(Instagram, "shop", "9", FIRST, false)

  // Two logins for one account; the first one's subscription fails after the second is done.
  function Rivals(n: nat): (State, Step) {
    var born: map<Uuid, Birth> := map[1 := Birth(Instagram, "9", "")];
    var inserter: map<Uuid, nat> := map[1 := 0];
    var mine: Channels := map[1 := ROW];
    var theirs: Channels := map[1 := ROW.(config := SECOND)];
    if n == 0 then (INITIAL, StartLogin(0, "9", 1))
    else if n == 1 then (State(map[], born, map[], map[0 := LoggingIn(1, "9")], map[], []), Upsert(0, "shop", FIRST))
    else if n == 2 then (State(mine, born, inserter, map[0 := Subscribing(1, true)], map[], []), StartLogin(1, "9", 1))
    else if n == 3 then
      (State(mine, born, inserter, map[0 := Subscribing(1, true), 1 := LoggingIn(1, "9")], map[], []), Upsert(1, "shop", SECOND))
    else if n == 4 then
      (State(theirs, born, inserter, map[0 := Subscribing(1, true), 1 := Subscribing(1, false)], map[], []), Subscribe(1, true))
    else if n == 5 then
      (State(theirs, born, inserter, map[0 := Subscribing(1, true), 1 := Finished], map[], []), Subscribe(0, false))
    else if n == 6 then
      (State(theirs, born, inserter, map[0 := RollingBack(1), 1 := Finished], map[], []), Rollback(0, true))
    else (State(map[], born, inserter, map[0 := Finished, 1 := Finished], map[], []), Rollback(0, true))
  }

  ghost predicate RivalsFollow(n: nat) {
    Follows(Rivals(n).0, Rivals(n).1, Rivals(n + 1).0)
  }

  lemma NobodyHolds()
    ensures Holder(map[], Instagram, "9") == None
  {
  }

  lemma RowHolds(c: Channel)
    requires c.provider == Instagram && c.key == "9"
    ensures Holder(map[1 := c], Instagram, "9") == Some(1)
  {
    assert HasKey(map[1 := c], 1, Instagram, "9");
  }

  lemma FirstStarts()
    ensures RivalsFollow(0)
  {
    NobodyHolds();
  }

  lemma FirstInserts()
    ensures RivalsFollow(1)
  {
    NobodyHolds();
    hide Committed, Created, AfterArming, SetHook, RegisterTask, HooksAfterDelete, Holder, PlanOf;
  }

  lemma SecondStarts()
    ensures RivalsFollow(2)
  {
    RowHolds(ROW);
  }

  lemma SecondUpdates()
    ensures RivalsFollow(3)
  {
    RowHolds(ROW);
    hide Committed, Created, AfterArming, SetHook, RegisterTask, HooksAfterDelete, Holder, PlanOf;
  }

  lemma SecondSubscribes()
    ensures RivalsFollow(4)
  {
    var before: map<nat, Task> := map[0 := Subscribing(1, true), 1 := Subscribing(1, false)];
    assert before[1 := Finished] == Rivals(5).0.tasks;
    hide Committed, Created, Upserted, AfterArming, SetHook, RegisterTask, HooksAfterDelete, Holder, ConfigFits, PlanOf;
  }

  lemma FirstFails()
    ensures RivalsFollow(5)
  {
    hide Committed, Created, Upserted, AfterArming, SetHook, RegisterTask, HooksAfterDelete, Holder, ConfigFits, PlanOf;
  }

  lemma FirstRollsBack()
    ensures RivalsFollow(6)
  {
    hide Committed, Created, Upserted, AfterArming, SetHook, RegisterTask, HooksAfterDelete, Holder, ConfigFits, PlanOf;
  }

  lemma RivalsEnd()
    ensures Rivals(0).0 == INITIAL && Rivals(4).1 == Subscribe(1, true)
    ensures 1 in Rivals(5).0.channels && Rivals(5).0.channels[1].config == SECOND && Rivals(7).0.channels == map[]
  {
  }

  /** The second login ends well and has no row. */
  lemma SecondLoginLosesItsRow()
    ensures exists run ::
      && IsRun(run) && |run.steps| == 7
      && run.steps[4] == Subscribe(1, true) && 1 in run.states[5].channels && run.states[5].channels[1].config == SECOND
      && run.states[7].channels == map[]
  {
    hide Rivals, Follows, Enabled, Apply;
    FirstStarts();
    FirstInserts();
    SecondStarts();
    SecondUpdates();
    SecondSubscribes();
    FirstFails();
    FirstRollsBack();
    RivalsEnd();
    var run := Run(seq(8, n requires 0 <= n < 8 => Rivals(n).0), seq(7, n requires 0 <= n < 7 => Rivals(n).1));
    forall i | 0 <= i < 7
      ensures Enabled(run.states[i], run.steps[i]) && run.states[i + 1] == Apply(run.states[i], run.steps[i])
    {
      assert RivalsFollow(i);
      FollowsIs(run.states[i], run.steps[i], run.states[i + 1]);
    }
    assert IsRun(run);
  }
}
