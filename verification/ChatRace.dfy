/**
 Concurrent callers of `find_or_create_chat` (src/db.rs), one statement at a time:
 SELECT, then INSERT, then, after a unique violation, SELECT again.
 */
module ChatRace {
  import opened Wrappers
  import opened ExternalId
  import opened Model
  import opened Tables

  datatype Pc =
    | Selecting
    | Inserting
    | Reselecting
    | Returned(chat: Uuid)
    | Missing   // the second SELECT found no row
    | Rejected  // the insert failed for another reason

  datatype Caller = Caller(client: Uuid, channel: Uuid, pc: Pc)

  datatype State = State(chats: Chats, callers: map<nat, Caller>)

  datatype Step =
    | Call(k: nat, client: Uuid, channel: Uuid)
    | Select(k: nat)
    | Insert(k: nat, id: Uuid)
    | InsertFails(k: nat)
    | Reselect(k: nat)

  predicate At(s: State, k: nat, pc: Pc) {
    k in s.callers && s.callers[k].pc == pc
  }

  predicate Enabled(s: State, step: Step) {
    match step
    case Call(k, _, _) => k !in s.callers
    case Select(k) => At(s, k, Selecting)
    case Insert(k, id) => At(s, k, Inserting) && id !in s.chats
    case InsertFails(k) => At(s, k, Inserting)
    case Reselect(k) => At(s, k, Reselecting)
  }

  function Move(s: State, k: nat, pc: Pc): State
    requires k in s.callers
  {
    s.(callers := s.callers[k := s.callers[k].(pc := pc)])
  }

  ghost function Found(s: State, k: nat): Option<Uuid>
    requires k in s.callers
  {
    FindChat(s.chats, s.callers[k].client, s.callers[k].channel)
  }

  ghost function Apply(s: State, step: Step): State
    requires Enabled(s, step)
  {
    match step
    case Call(k, client, channel) => s.(callers := s.callers[k := Caller(client, channel, Selecting)])
    case Select(k) => Move(s, k, if Found(s, k).Some? then Returned(Found(s, k).value) else Inserting)
    case Insert(k, id) =>
      // idx_chats_active arbitrates.
      if Found(s, k).Some? then Move(s, k, Reselecting)
      else Move(s.(chats := s.chats[id := Chat(s.callers[k].client, s.callers[k].channel)]), k, Returned(id))
    case InsertFails(k) => Move(s, k, Rejected)
    case Reselect(k) => Move(s, k, if Found(s, k).Some? then Returned(Found(s, k).value) else Missing)
  }

  datatype Run = Run(states: seq<State>, steps: seq<Step>)

  ghost predicate IsRun(run: Run) {
    && |run.states| == |run.steps| + 1
    && run.states[0].callers == map[] && OneChat(run.states[0].chats)
    && forall i :: 0 <= i < |run.steps| ==> Enabled(run.states[i], run.steps[i]) && run.states[i + 1] == Apply(run.states[i], run.steps[i])
  }

  // ── The invariant ───────────────────────────────────────────────────

  ghost predicate CallerOk(s: State, c: Caller) {
    match c.pc
    case Returned(chat) => chat in s.chats && s.chats[chat] == Chat(c.client, c.channel)
    case Reselecting => FindChat(s.chats, c.client, c.channel).Some?
    case Missing => false
    case _ => true
  }

  ghost predicate Inv(s: State) {
    OneChat(s.chats) && forall k :: k in s.callers ==> CallerOk(s, s.callers[k])
  }

  ghost predicate Grows(s: State, t: State) {
    forall c :: c in s.chats ==> c in t.chats && t.chats[c] == s.chats[c]
  }

  lemma StillFound(s: State, t: State, client: Uuid, channel: Uuid)
    requires Grows(s, t) && FindChat(s.chats, client, channel).Some?
    ensures FindChat(t.chats, client, channel).Some?
  {
  }

  lemma StepKeepsInv(s: State, step: Step)
    requires Inv(s) && Enabled(s, step)
    ensures Inv(Apply(s, step)) && Grows(s, Apply(s, step))
  {
    var t := Apply(s, step);
    forall k | k in t.callers ensures CallerOk(t, t.callers[k]) {
      if k in s.callers {
        assert CallerOk(s, s.callers[k]);
        if s.callers[k].pc.Reselecting? {
          StillFound(s, t, s.callers[k].client, s.callers[k].channel);
        }
      }
    }
    if step.Insert? && Found(s, step.k).None? {
      var pair := Chat(s.callers[step.k].client, s.callers[step.k].channel);
      assert forall c :: c in s.chats ==> s.chats[c] != pair;
    }
  }

  lemma InitiallyInv(run: Run)
    requires IsRun(run)
    ensures Inv(run.states[0])
  {
  }

  lemma {:induction false} RunKeepsInv(run: Run, i: nat, j: nat)
    requires IsRun(run) && i <= j < |run.states|
    ensures Inv(run.states[i]) && Inv(run.states[j]) && Grows(run.states[i], run.states[j])
    decreases j
  {
    hide Inv, Apply, Enabled;
    if j == 0 {
      InitiallyInv(run);
    } else {
      RunKeepsInv(run, if i < j then i else i - 1, j - 1);
      StepKeepsInv(run.states[j - 1], run.steps[j - 1]);
    }
  }

  /** Every caller for one customer and channel returns the same chat, however the calls
      interleave and whenever each of them returns. */
  lemma CallersAgree(run: Run, i: nat, j: nat, k: nat, l: nat)
    requires IsRun(run) && i <= j < |run.states|
    requires k in run.states[i].callers && run.states[i].callers[k].pc.Returned?
    requires l in run.states[j].callers && run.states[j].callers[l].pc.Returned?
    requires run.states[i].callers[k].client == run.states[j].callers[l].client
    requires run.states[i].callers[k].channel == run.states[j].callers[l].channel
    ensures run.states[i].callers[k].pc == run.states[j].callers[l].pc
  {
    RunKeepsInv(run, i, j);
    assert CallerOk(run.states[i], run.states[i].callers[k]);
    assert CallerOk(run.states[j], run.states[j].callers[l]);
  }

  /** A call that nothing disturbs returns the pair's chat when there is one, and otherwise
      creates it. */
  lemma CallAlone(s: State, k: nat, client: Uuid, channel: Uuid, id: Uuid)
    requires OneChat(s.chats) && k !in s.callers && id !in s.chats
    ensures
      var selected := Apply(Apply(s, Call(k, client, channel)), Select(k));
      && (forall c :: c in s.chats && s.chats[c] == Chat(client, channel) ==>
            selected == s.(callers := s.callers[k := Caller(client, channel, Returned(c))]))
      && (Chat(client, channel) !in s.chats.Values ==>
            && Enabled(selected, Insert(k, id))
            && Apply(selected, Insert(k, id)) ==
                 s.(chats := s.chats[id := Chat(client, channel)], callers := s.callers[k := Caller(client, channel, Returned(id))]))
  {
    var called := Apply(s, Call(k, client, channel));
    assert called.chats == s.chats;
    if Chat(client, channel) !in s.chats.Values {
      assert FindChat(s.chats, client, channel).None?;
    }
  }

  /** At most one chat per customer and channel ever exists, and the SELECT after a unique
      violation always finds a row: the caller that lost the race returns the winner's chat. */
  lemma ReselectNeverMisses(run: Run, i: nat, k: nat)
    requires IsRun(run) && i < |run.states| && k in run.states[i].callers
    ensures OneChat(run.states[i].chats) && !run.states[i].callers[k].pc.Missing?
    ensures run.states[i].callers[k].pc.Reselecting? ==>
      var (s, caller) := (run.states[i], run.states[i].callers[k]);
      && Enabled(s, Reselect(k))
      && exists chat :: chat in s.chats && s.chats[chat] == Chat(caller.client, caller.channel)
           && Apply(s, Reselect(k)) == s.(callers := s.callers[k := caller.(pc := Returned(chat))])
  {
    RunKeepsInv(run, i, i);
    assert CallerOk(run.states[i], run.states[i].callers[k]);
  }
}
