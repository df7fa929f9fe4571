/**
 Keeping Instagram tokens alive: src/refresh.rs. Times are nanoseconds.
 */
module Refresh {
  import opened Wrappers
  import opened ExternalId
  import opened ChannelTable
  import opened ChannelAdmin

  const SECOND: nat := 1_000_000_000
  const THRESHOLD: nat := 3 * 24 * 3600 * SECOND
  const INTERVAL: nat := 3600 * SECOND

  // An unknown expiry is due.
  predicate IsDue(expiresAt: Option<nat>, now: nat) {
    match expiresAt
    case None => true
    case Some(at) => at <= now + THRESHOLD
  }

  // A row whose config will not parse is not due.
  predicate ChannelDue(channels: Channels, id: Uuid, now: nat) {
    id in channels && channels[id].config.InstagramConfig? && IsDue(channels[id].config.expiresAt, now)
  }

  function DueChannels(channels: Channels, ids: seq<Uuid>, now: nat): seq<Uuid> {
    if ids == [] then []
    else (if ChannelDue(channels, ids[0], now) then [ids[0]] else []) + DueChannels(channels, ids[1..], now)
  }

  // The provider's answer for one token, and whether storing it worked.
  datatype Refreshed = Fresh(token: string, at: nat, expiresIn: nat) | Stale

  predicate Refreshes(answers: map<Uuid, Refreshed>, id: Uuid) {
    id in answers && answers[id].Fresh?
  }

  function ConfigAfter(answers: map<Uuid, Refreshed>, id: Uuid): Config
    requires Refreshes(answers, id)
  {
    InstagramConfig(answers[id].token, Some(answers[id].at + answers[id].expiresIn))
  }

  function RefreshedIds(due: seq<Uuid>, answers: map<Uuid, Refreshed>): seq<Uuid> {
    if due == [] then []
    else RefreshedIds(due[..|due| - 1], answers) + if Refreshes(answers, due[|due| - 1]) then [due[|due| - 1]] else []
  }

  function RowsAfter(channels: Channels, due: seq<Uuid>, answers: map<Uuid, Refreshed>): Channels {
    map id | id in channels ::
      if id in due && Refreshes(answers, id) then channels[id].(config := ConfigAfter(answers, id)) else channels[id]
  }

  // SELECT … WHERE provider = $1 AND deleted_at IS NULL.
  ghost predicate ListsLive(ids: seq<Uuid>, channels: Channels) {
    Distinct(ids) && forall id :: id in ids <==> id in channels && channels[id].provider.Instagram? && !channels[id].deleted
  }

  ghost function DueSet(channels: Channels, now: nat): set<Uuid> {
    set id | id in channels && channels[id].provider.Instagram? && !channels[id].deleted && ChannelDue(channels, id, now)
  }

  // A live Instagram channel whose token expires within three days, or nobody knows when.
  predicate TokenIsDue(c: Channel, now: nat) {
    && c.provider.Instagram? && !c.deleted && c.config.InstagramConfig?
    && (c.config.expiresAt == None || c.config.expiresAt.value <= now + 259_200_000_000_000)
  }

  method RefreshChannel(admin: Admin, id: Uuid, answers: map<Uuid, Refreshed>) returns (ok: bool)
    requires id in admin.channels
    modifies admin`channels, admin`invalidated
    ensures ok <==> id in answers && answers[id].Fresh?
    ensures ok ==>
      var answer := answers[id];
      admin.channels == old(admin.channels)[id :=
        old(admin.channels)[id].(config := InstagramConfig(answer.token, Some(answer.at + answer.expiresIn)))]
    ensures !ok ==> admin.channels == old(admin.channels)
    ensures admin.channels == RowsAfter(old(admin.channels), [id], answers)
    ensures ok ==> admin.invalidated == old(admin.invalidated) + [id]
    ensures !ok ==> admin.invalidated == old(admin.invalidated)
  {
    ok := Refreshes(answers, id);
    if ok {
      admin.channels := admin.channels[id := admin.channels[id].(config := ConfigAfter(answers, id))];
      admin.InvalidateEverywhere(id);
    }
  }

  lemma RowsStay(channels: Channels, due: seq<Uuid>, answers: map<Uuid, Refreshed>)
    ensures RowsAfter(channels, [], answers) == channels
    ensures RowsAfter(channels, due, answers).Keys == channels.Keys
  {
  }

  lemma OneMoreRow(channels: Channels, due: seq<Uuid>, id: Uuid, answers: map<Uuid, Refreshed>)
    ensures RowsAfter(RowsAfter(channels, due, answers), [id], answers) == RowsAfter(channels, due + [id], answers)
    ensures Refreshes(answers, id) ==> RefreshedIds(due + [id], answers) == RefreshedIds(due, answers) + [id]
    ensures !Refreshes(answers, id) ==> RefreshedIds(due + [id], answers) == RefreshedIds(due, answers)
  {
    assert (due + [id])[..|due|] == due;
  }

  method RefreshEach(admin: Admin, due: seq<Uuid>, answers: map<Uuid, Refreshed>) returns (refreshed: nat, failed: nat)
    requires forall i :: 0 <= i < |due| ==> due[i] in admin.channels
    modifies admin`channels, admin`invalidated
    ensures refreshed + failed == |due| && refreshed == |RefreshedIds(due, answers)|
    ensures admin.channels == RowsAfter(old(admin.channels), due, answers)
    ensures admin.invalidated == old(admin.invalidated) + RefreshedIds(due, answers)
  {
    ghost var before, told := admin.channels, admin.invalidated;
    refreshed, failed := 0, 0;
    RowsStay(before, [], answers);
    ghost var done, stored: seq<Uuid> := [], [];
    assert RefreshedIds(done, answers) == [];
    hide RowsAfter, RefreshedIds;
    for i := 0 to |due|
      invariant |done| == i && (forall j :: 0 <= j < i ==> done[j] == due[j]) && admin.channels.Keys == before.Keys
      invariant refreshed + failed == i && refreshed == |stored|
      invariant stored == RefreshedIds(done, answers) && admin.invalidated == told + stored
      invariant admin.channels == RowsAfter(before, done, answers)
    {
      RowsStay(admin.channels, [due[i]], answers);
      OneMoreRow(before, done, due[i], answers);
      var ok := RefreshChannel(admin, due[i], answers);
      done := done + [due[i]];
      if ok {
        assert (told + stored) + [due[i]] == told + (stored + [due[i]]);
        stored := stored + [due[i]];
        refreshed := refreshed + 1;
      } else {
        failed := failed + 1;
      }
    }
    assert done == due;
  }

  /** One pass: every live channel that is due is tried exactly once, a refreshed one is
      stored and invalidated, a failed one is left alone, and the two counts make up all of
      them. */
  method RefreshDueTokens(admin: Admin, ids: seq<Uuid>, now: nat, answers: map<Uuid, Refreshed>)
    returns (refreshed: nat, failed: nat)
    requires ListsLive(ids, admin.channels)
    modifies admin`channels, admin`invalidated
    ensures refreshed + failed == |DueSet(old(admin.channels), now)|
    ensures admin.channels.Keys == old(admin.channels).Keys
    ensures forall id :: id in admin.channels ==>
      admin.channels[id] ==
        if TokenIsDue(old(admin.channels)[id], now) && id in answers && answers[id].Fresh?
        then old(admin.channels)[id].(config := InstagramConfig(answers[id].token, Some(answers[id].at + answers[id].expiresIn)))
        else old(admin.channels)[id]
    ensures
      && old(admin.invalidated) <= admin.invalidated
      && var told := admin.invalidated[|old(admin.invalidated)|..];
         && refreshed == |told| && Distinct(told)
         && forall id :: id in told <==>
              id in old(admin.channels) && TokenIsDue(old(admin.channels)[id], now) && id in answers && answers[id].Fresh?
    ensures
      var due := DueChannels(old(admin.channels), ids, now);
      && Distinct(due) && Elements(due) == DueSet(old(admin.channels), now)
      && refreshed == |RefreshedIds(due, answers)|
      && admin.channels == RowsAfter(old(admin.channels), due, answers)
      && admin.invalidated == old(admin.invalidated) + RefreshedIds(due, answers)
  {
    var due := DueChannels(admin.channels, ids, now);
    DueAre(admin.channels, ids, now);
    DueListsTheSet(admin.channels, ids, now);
    assert forall i :: 0 <= i < |due| ==> due[i] in due;
    PassRenews(admin.channels, ids, now, answers);
    hide RowsAfter, RefreshedIds, DueChannels, TokenIsDue, DueSet;
    refreshed, failed := RefreshEach(admin, due, answers);
  }

  lemma {:induction false} RefreshedAre(due: seq<Uuid>, answers: map<Uuid, Refreshed>)
    requires Distinct(due)
    ensures Distinct(RefreshedIds(due, answers))
    ensures forall id :: id in RefreshedIds(due, answers) <==> id in due && id in answers && answers[id].Fresh?
  {
    if due != [] {
      var init, last := due[..|due| - 1], due[|due| - 1];
      RefreshedAre(init, answers);
      assert due == init + [last] && last !in init;
    }
  }

  // What a pass leaves in the table, row by row, and whom it invalidates.
  lemma PassRenews(channels: Channels, ids: seq<Uuid>, now: nat, answers: map<Uuid, Refreshed>)
    requires ListsLive(ids, channels)
    ensures
      var due := DueChannels(channels, ids, now);
      var after, told := RowsAfter(channels, due, answers), RefreshedIds(due, answers);
      && after.Keys == channels.Keys
      && (forall id :: id in after ==>
            after[id] ==
              if TokenIsDue(channels[id], now) && id in answers && answers[id].Fresh?
              then channels[id].(config := InstagramConfig(answers[id].token, Some(answers[id].at + answers[id].expiresIn)))
              else channels[id])
      && Distinct(told)
      && (forall id :: id in told <==> id in channels && TokenIsDue(channels[id], now) && id in answers && answers[id].Fresh?)
  {
    var due := DueChannels(channels, ids, now);
    DueAre(channels, ids, now);
    RefreshedAre(due, answers);
    assert forall id :: id in due <==> id in channels && TokenIsDue(channels[id], now);
    hide DueChannels, RefreshedIds, ListsLive, TokenIsDue, IsDue, ChannelDue;
  }

  /** The due channels are the listed ones whose config parses and whose token is unknown or
      within three days of its expiry, each once. */
  lemma {:induction false} DueAre(channels: Channels, ids: seq<Uuid>, now: nat)
    requires Distinct(ids)
    ensures forall id :: id in DueChannels(channels, ids, now) <==> id in ids && ChannelDue(channels, id, now)
    ensures Distinct(DueChannels(channels, ids, now))
  {
    if ids != [] {
      DueAre(channels, ids[1..], now);
      assert ids[0] !in ids[1..];
    }
  }

  lemma DueListsTheSet(channels: Channels, ids: seq<Uuid>, now: nat)
    requires ListsLive(ids, channels)
    ensures Elements(DueChannels(channels, ids, now)) == DueSet(channels, now)
    ensures |DueChannels(channels, ids, now)| == |DueSet(channels, now)|
  {
    DueAre(channels, ids, now);
    DistinctCounts(DueChannels(channels, ids, now));
  }

  lemma {:induction false} DistinctCounts(s: seq<Uuid>)
    requires Distinct(s)
    ensures |Elements(s)| == |s|
  {
    if s != [] {
      var init, last := s[..|s| - 1], s[|s| - 1];
      DistinctCounts(init);
      assert last !in init;
      assert s == init + [last];
      assert Elements(s) == Elements(init) + {last};
    }
  }

  // ── How often a token is tried before it dies ───────────────────────

  // The passes, and the expiry stored for one token as each pass begins. A successful
  // attempt stores a new expiry. An update or a login stores another token, with which this
  // history ends and its own begins.
  datatype History = History(passes: seq<nat>, expiry: seq<Option<nat>>, succeeds: seq<bool>)

  predicate Attempts(h: History, i: nat)
    requires |h.expiry| == |h.passes|
  {
    i < |h.passes| && IsDue(h.expiry[i], h.passes[i])
  }

  predicate IsHistory(h: History) {
    && |h.expiry| == |h.passes| == |h.succeeds|
    && forall i :: 0 <= i < |h.passes| - 1 ==>
         h.passes[i] <= h.passes[i + 1] && ((Attempts(h, i) && h.succeeds[i]) || h.expiry[i + 1] == h.expiry[i])
  }

  // No two passes are more than an interval and `delay` apart, and they go on until `end`.
  predicate Spaced(passes: seq<nat>, delay: nat, end: nat) {
    && (forall i :: 0 <= i < |passes| - 1 ==> passes[i + 1] <= passes[i] + INTERVAL + delay)
    && passes != [] && passes[|passes| - 1] >= end
  }

  predicate InTime(h: History, expires: nat, i: nat)
    requires |h.expiry| == |h.passes|
  {
    Attempts(h, i) && h.passes[i] < expires
  }

  // Each attempt before the expiry fails.
  predicate KeepsFailing(h: History, expires: nat)
    requires |h.expiry| == |h.passes| == |h.succeeds|
  {
    forall i :: 0 <= i < |h.passes| && h.passes[i] < expires && Attempts(h, i) ==> !h.succeeds[i]
  }

  ghost function AttemptsInTime(h: History, expires: nat): set<nat>
    requires |h.expiry| == |h.passes|
  {
    set i: nat | i < |h.passes| && InTime(h, expires, i)
  }

  lemma {:induction false} ExpiryStays(h: History, expires: nat, i: nat)
    requires IsHistory(h) && KeepsFailing(h, expires) && i < |h.passes| && h.expiry[0] == Some(expires)
    requires i > 0 ==> h.passes[i - 1] < expires
    ensures h.expiry[i] == Some(expires)
  {
    if i > 0 {
      assert i > 1 ==> h.passes[i - 2] <= h.passes[i - 1];
      ExpiryStays(h, expires, i - 1);
    }
  }

  // The first pass within the threshold comes less than a gap after it begins.
  lemma {:induction false} FirstDue(passes: seq<nat>, expires: nat, gap: nat, n: nat) returns (f: nat)
    requires n < |passes| && passes[n] + THRESHOLD >= expires && passes[0] + THRESHOLD <= expires && gap > 0
    requires forall i :: 0 <= i < |passes| - 1 ==> passes[i + 1] <= passes[i] + gap
    ensures f <= n && expires <= passes[f] + THRESHOLD < expires + gap
  {
    if n == 0 || passes[n - 1] + THRESHOLD < expires {
      f := n;
    } else {
      f := FirstDue(passes, expires, gap, n - 1);
    }
  }

  // From there on, each of the next passes comes before the expiry as long as gaps fit.
  lemma {:induction false} NextDue(h: History, expires: nat, gap: nat, f: nat, k: nat)
    requires IsHistory(h) && h.passes != [] && h.passes[|h.passes| - 1] >= expires
    requires forall i :: 0 <= i < |h.passes| - 1 ==> h.passes[i + 1] <= h.passes[i] + gap
    requires f < |h.passes| && expires <= h.passes[f] + THRESHOLD < expires + gap
    requires (k + 1) * gap <= THRESHOLD
    ensures f + k < |h.passes|
    ensures expires <= h.passes[f + k] + THRESHOLD < expires + (k + 1) * gap
  {
    if k > 0 {
      assert (k + 1) * gap == k * gap + gap;
      NextDue(h, expires, gap, f, k - 1);
    }
  }

  lemma FitsThreshold(k: nat, gap: nat)
    requires gap > 0 && k < THRESHOLD / gap
    ensures (k + 1) * gap <= THRESHOLD
  {
  }

  predicate InRange(f: nat, n: nat, k: nat) {
    f <= k < f + n
  }

  ghost function From(f: nat, n: nat): set<nat> {
    set k: nat | k < f + n && InRange(f, n, k)
  }

  lemma {:induction false} FromCounts(f: nat, n: nat)
    ensures |From(f, n)| == n
  {
    if n > 0 {
      FromCounts(f, n - 1);
      assert From(f, n) == From(f, n - 1) + {f + n - 1};
    }
  }

  /** A token whose refreshes keep failing is tried at least THRESHOLD / (INTERVAL + delay)
      times before it expires, when passes come at most INTERVAL + delay apart, go on until
      the expiry, and began no later than the threshold before it. */
  lemma EnoughAttempts(h: History, expires: nat, delay: nat)
    requires IsHistory(h) && KeepsFailing(h, expires) && Spaced(h.passes, delay, expires)
    requires h.expiry[0] == Some(expires) && h.passes[0] + THRESHOLD <= expires
    ensures |AttemptsInTime(h, expires)| >= THRESHOLD / (INTERVAL + delay)
  {
    var gap := INTERVAL + delay;
    var n := THRESHOLD / gap;
    var f := FirstDue(h.passes, expires, gap, |h.passes| - 1);
    forall i | i in From(f, n) ensures i in AttemptsInTime(h, expires) {
      FitsThreshold(i - f, gap);
      NextDue(h, expires, gap, f, i - f);
      assert i > 0 ==> h.passes[i - 1] <= h.passes[i];
      ExpiryStays(h, expires, i);
    }
    FromCounts(f, n);
    SubsetCounts(From(f, n), AttemptsInTime(h, expires));
  }

  lemma {:induction false} SubsetCounts(a: set<nat>, b: set<nat>)
    requires a <= b
    ensures |a| <= |b|
  {
    if a != {} {
      var x :| x in a;
      SubsetCounts(a - {x}, b - {x});
    }
  }

  /** With no delay that is 72. */
  lemma SeventyTwoAttempts(h: History, expires: nat)
    requires IsHistory(h) && KeepsFailing(h, expires) && Spaced(h.passes, 0, expires)
    requires h.expiry[0] == Some(expires) && h.passes[0] + THRESHOLD <= expires
    ensures |AttemptsInTime(h, expires)| >= 72
  {
    EnoughAttempts(h, expires, 0);
  }
}
