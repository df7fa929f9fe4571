/**
 Subscribing an Instagram account to webhook fields: `subscribe` of src/oauth/mod.rs
 against a provider that accepts a fixed set of fields.
 */
module Subscribe {
  import opened Wrappers
  import opened Model

  const INSTAGRAM_FIELDS: seq<string> := ["messages", "message_edit", "message_reactions", "messaging_seen"]

  // Does a successful call replace the subscribed fields, or add to them?
  datatype Mode = Replaces | Adds

  // The acceptable fields of a list, in its order.
  function Kept(fields: seq<string>, acceptable: set<string>): seq<string> {
    if fields == [] then []
    else if fields[0] in acceptable then [fields[0]] + Kept(fields[1..], acceptable)
    else Kept(fields[1..], acceptable)
  }

  predicate AllIn(fields: seq<string>, acceptable: set<string>) {
    forall f :: f in fields ==> f in acceptable
  }

  function Subscribed(mode: Mode, before: set<string>, fields: seq<string>): set<string> {
    (if mode.Adds? then before else {}) + set f | f in fields
  }

  // The account at the provider. A call is all or nothing.
  class Account {
    const mode: Mode
    const acceptable: set<string>
    var subscribed: set<string>

    constructor (mode: Mode, acceptable: set<string>)
      ensures this.mode == mode && this.acceptable == acceptable && subscribed == {}
    {
      this.mode, this.acceptable, subscribed := mode, acceptable, {};
    }

    method Call(fields: seq<string>) returns (ok: bool)
      modifies this
      ensures ok <==> AllIn(fields, acceptable)
      ensures ok ==> forall f :: f in subscribed <==> (mode.Adds? && f in old(subscribed)) || f in fields
      ensures subscribed == if ok then Subscribed(mode, old(subscribed), fields) else old(subscribed)
    {
      ok := forall f :: f in fields ==> f in acceptable;
      if ok {
        subscribed := Subscribed(mode, subscribed, fields);
      }
    }
  }

  /** All fields at once; failing that each on its own, then the survivors together. Succeeds
      exactly when some field is acceptable, keeps the acceptable ones in order, and leaves the
      account with those, next to what it had when calls add. A failure changes nothing. */
  method SubscribeAll(account: Account, fields: seq<string>) returns (kept: Option<seq<string>>)
    modifies account
    ensures kept.Some? <==> fields == [] || exists f :: f in fields && f in account.acceptable
    ensures kept.Some? ==> kept.value == Kept(fields, account.acceptable)
    ensures kept.Some? ==>
      forall f :: f in account.subscribed <==>
        (account.mode.Adds? && f in old(account.subscribed)) || (f in fields && f in account.acceptable)
    ensures account.subscribed ==
      if kept.Some? then Subscribed(account.mode, old(account.subscribed), kept.value) else old(account.subscribed)
  {
    var all := account.Call(fields);
    if all {
      KeptIsAll(fields, account.acceptable);
      return Some(fields);
    }
    var accepted: seq<string> := [];
    for i := 0 to |fields|
      invariant accepted == Kept(fields[..i], account.acceptable)
      invariant account.mode.Adds? ==> account.subscribed == Subscribed(Adds, old(account.subscribed), accepted)
      invariant accepted == [] ==> account.subscribed == old(account.subscribed)
    {
      var ok := account.Call([fields[i]]);
      KeptIsExtended(fields, i, account.acceptable);
      if ok {
        assert fields[i] in [fields[i]];
        accepted := accepted + [fields[i]];
      }
    }
    assert fields[..|fields|] == fields;
    KeptIs(fields, account.acceptable);
    if accepted == [] {
      assert forall f :: f in fields && f in account.acceptable ==> f in accepted;
      return None;
    }
    assert accepted[0] in accepted;
    var final := account.Call(accepted);
    return Some(accepted);
  }

  /** `subscribe` as its callers see it: other providers have nothing to subscribe, and a
      config without a token fails before any call. */
  method SubscribeChannel(kind: ProviderKind, account: Account, token: Option<string>) returns (kept: Option<seq<string>>)
    modifies account
    ensures !kind.Instagram? ==> kept == Some([]) && account.subscribed == old(account.subscribed)
    ensures kind.Instagram? ==>
      (kept.Some? <==> token.Some? && {"messages", "message_edit", "message_reactions", "messaging_seen"} * account.acceptable != {})
    ensures kind.Instagram? && kept.Some? ==>
      && kept.value == Kept(INSTAGRAM_FIELDS, account.acceptable)
      && (forall f :: f in account.subscribed <==>
            (account.mode.Adds? && f in old(account.subscribed)) || f in {"messages", "message_edit", "message_reactions", "messaging_seen"} * account.acceptable)
      && account.subscribed == Subscribed(account.mode, old(account.subscribed), kept.value)
    ensures kept.None? ==> account.subscribed == old(account.subscribed)
  {
    if !kind.Instagram? {
      return Some([]);
    }
    if token.None? {
      return None;
    }
    TheFourFields(account.acceptable);
    kept := SubscribeAll(account, INSTAGRAM_FIELDS);
  }

  lemma TheFourFields(acceptable: set<string>)
    ensures forall f :: f in INSTAGRAM_FIELDS <==> f in {"messages", "message_edit", "message_reactions", "messaging_seen"}
    ensures {"messages", "message_edit", "message_reactions", "messaging_seen"} * acceptable != {} <==> exists f :: f in INSTAGRAM_FIELDS && f in acceptable
  {
    assert forall f :: f in INSTAGRAM_FIELDS && f in acceptable <==> f in {"messages", "message_edit", "message_reactions", "messaging_seen"} * acceptable;
  }

  // ── The kept fields ─────────────────────────────────────────────────

  /** What is kept: each acceptable field as often as it is listed, and no other. */
  lemma {:induction false} KeptIs(fields: seq<string>, acceptable: set<string>)
    ensures forall f :: f in Kept(fields, acceptable) <==> f in fields && f in acceptable
    ensures forall f :: multiset(Kept(fields, acceptable))[f] == if f in acceptable then multiset(fields)[f] else 0
  {
    if fields != [] {
      KeptIs(fields[1..], acceptable);
      assert fields == [fields[0]] + fields[1..];
    }
  }

  /** In the listed order: keeping is compatible with splitting the list anywhere. */
  lemma {:induction false} KeptInOrder(a: seq<string>, b: seq<string>, acceptable: set<string>)
    ensures Kept(a + b, acceptable) == Kept(a, acceptable) + Kept(b, acceptable)
  {
    if a == [] {
      assert a + b == b;
    } else {
      KeptInOrder(a[1..], b, acceptable);
      assert (a + b)[1..] == a[1..] + b;
    }
  }

  lemma KeptIsExtended(fields: seq<string>, i: nat, acceptable: set<string>)
    requires i < |fields|
    ensures Kept(fields[..i + 1], acceptable) == Kept(fields[..i], acceptable) + if fields[i] in acceptable then [fields[i]] else []
  {
    assert fields[..i + 1] == fields[..i] + [fields[i]];
    KeptInOrder(fields[..i], [fields[i]], acceptable);
  }

  lemma {:induction false} KeptIsAll(fields: seq<string>, acceptable: set<string>)
    requires AllIn(fields, acceptable)
    ensures Kept(fields, acceptable) == fields
    ensures fields == [] || exists f :: f in fields && f in acceptable
  {
    if fields != [] {
      KeptIsAll(fields[1..], acceptable);
      assert fields[0] in fields;
    }
  }

  /** Subscribing again, to an account that has not changed its mind, changes nothing. */
  lemma SubscribingAgain(mode: Mode, before: set<string>, fields: seq<string>, acceptable: set<string>)
    ensures
      var kept := Kept(fields, acceptable);
      var once := Subscribed(mode, before, kept);
      Subscribed(mode, once, kept) == once && Kept(kept, acceptable) == kept
  {
  }
}
