/** The third Facebook lead-ads webhook revision
    (server/src/routes/webhooks_facebook.js): every delivery is acknowledged
    with 200 before it is read, every change of every page entry is
    examined, and each leadgen change fetches the lead from the Graph API
    with the page token from the environment. Nothing is stored, so what the
    model records is the sequence of fetches made, in order. */
module WebhooksFacebook {
  import opened Wrappers
  import opened Js
  import opened Meta
  import Seqs
  import Webhooks

  const DefaultVerifyToken := "flow_estate_secret"

  /** `GET /`, with `FACEBOOK_VERIFY_TOKEN` as `env`: the same handshake,
      environment variable and default as the `GET /facebook` revision. */
  function Subscribe(h: Handshake, env: Option<string>): (r: HandshakeReply)
    ensures r == Webhooks.Subscribe(h, env)
  {
    Verify(h, ConfiguredToken(env, DefaultVerifyToken))
  }

  /** The leadgen ids fetched, in order, and whether the walk stopped on an
      exception. A fetch that fails is caught and the walk goes on. */
  datatype Walk = Walk(fetched: seq<Option<string>>, threw: bool)

  /** Destructuring `change.value` of a leadgen change without a value throws. */
  predicate BreaksAt(c: Change) {
    IsLeadgen(c) && c.value.None?
  }

  /** Iterating an entry without `changes` throws, as does a change that breaks. */
  predicate Breaks(e: Entry) {
    e.changes.None? || exists j :: 0 <= j < |e.changes.value| && BreaksAt(e.changes.value[j])
  }

  /** `fetched` lists the leadgen ids of `changes`, one per change and in order. */
  predicate FetchedInOrder(fetched: seq<Option<string>>, changes: seq<Change>) {
    && |fetched| == |changes|
    && forall i :: 0 <= i < |changes| ==> changes[i].value.Some? && fetched[i] == changes[i].value.value.leadgenId
  }

  lemma FetchedPrepend(f: seq<Option<string>>, c: Change, cs: seq<Change>)
    requires FetchedInOrder(f, cs) && c.value.Some?
    ensures FetchedInOrder([c.value.value.leadgenId] + f, [c] + cs)
  {
    assert forall i :: 1 <= i < |cs| + 1 ==> ([c] + cs)[i] == cs[i - 1];
  }

  lemma FetchedConcat(f: seq<Option<string>>, cs: seq<Change>, g: seq<Option<string>>, ds: seq<Change>)
    requires FetchedInOrder(f, cs) && FetchedInOrder(g, ds)
    ensures FetchedInOrder(f + g, cs + ds)
  {
    assert forall i :: |cs| <= i < |cs| + |ds| ==> (cs + ds)[i] == ds[i - |cs|];
  }

  /** The changes of all entries, in delivery order; an entry without
      `changes` contributes none. */
  function AllChanges(entries: seq<Entry>): seq<Change>
    decreases |entries|
  {
    if |entries| == 0 then []
    else
      (if entries[0].changes.Some? then entries[0].changes.value else []) + AllChanges(entries[1..])
  }

  lemma BreaksAtCons(cs: seq<Change>)
    requires |cs| > 0
    ensures (exists j :: 0 <= j < |cs| && BreaksAt(cs[j])) <==>
              BreaksAt(cs[0]) || exists j :: 0 <= j < |cs[1..]| && BreaksAt(cs[1..][j])
  {
    assert forall j :: 1 <= j < |cs| ==> cs[j] == cs[1..][j - 1];
  }

  lemma BreaksCons(entries: seq<Entry>)
    requires |entries| > 0
    ensures (exists i :: 0 <= i < |entries| && Breaks(entries[i])) <==>
              Breaks(entries[0]) || exists i :: 0 <= i < |entries[1..]| && Breaks(entries[1..][i])
  {
    assert forall i :: 1 <= i < |entries| ==> entries[i] == entries[1..][i - 1];
  }

  /** The changes of one entry. With no page token the lead is skipped
      (`continue`), but `change.value` has already been read. */
  function WalkChanges(cs: seq<Change>, token: Option<string>): (r: Walk)
    ensures !Truthy(token) ==> r.fetched == []
    ensures r.threw <==> exists j :: 0 <= j < |cs| && BreaksAt(cs[j])
    ensures !r.threw && Truthy(token) ==> FetchedInOrder(r.fetched, Seqs.Filter(cs, IsLeadgen))
    ensures |r.fetched| <= Seqs.Count(cs, IsLeadgen)
    decreases |cs|
  {
    if |cs| == 0 then Walk([], false)
    else
      BreaksAtCons(cs);
      if !IsLeadgen(cs[0]) then WalkChanges(cs[1..], token)
      else
        match cs[0].value
        case None => Walk([], true)
        case Some(v) =>
          var rest := WalkChanges(cs[1..], token);
          if Truthy(token) then
            if rest.threw then Walk([v.leadgenId] + rest.fetched, true)
            else
              assert Seqs.Filter(cs, IsLeadgen) == [cs[0]] + Seqs.Filter(cs[1..], IsLeadgen);
              FetchedPrepend(rest.fetched, cs[0], Seqs.Filter(cs[1..], IsLeadgen));
              Walk([v.leadgenId] + rest.fetched, false)
          else rest
  }

  /** One walk followed by another: the second runs only when the first did
      not throw. */
  function Then(first: Walk, rest: Walk): (r: Walk)
    ensures r.threw <==> first.threw || rest.threw
  {
    if first.threw then first else Walk(first.fetched + rest.fetched, rest.threw)
  }

  /** Sequencing walks is associative. */
  lemma ThenAssoc(x: Walk, y: Walk, z: Walk)
    ensures Then(x, Then(y, z)) == Then(Then(x, y), z)
  {
    if !x.threw && !y.threw {
      assert x.fetched + (y.fetched + z.fetched) == (x.fetched + y.fetched) + z.fetched;
    }
  }

  /** One entry: iterating a missing `changes` throws. */
  function WalkEntry(e: Entry, token: Option<string>): (r: Walk)
    ensures r.threw <==> Breaks(e)
    ensures !Truthy(token) ==> r.fetched == []
  {
    match e.changes
    case None => Walk([], true)
    case Some(cs) => WalkChanges(cs, token)
  }

  function WalkEntries(entries: seq<Entry>, token: Option<string>): (r: Walk)
    ensures !Truthy(token) ==> r.fetched == []
    ensures r.threw <==> exists i :: 0 <= i < |entries| && Breaks(entries[i])
    decreases |entries|
  {
    if |entries| == 0 then Walk([], false)
    else
      BreaksCons(entries);
      Then(WalkEntry(entries[0], token), WalkEntries(entries[1..], token))
  }

  /** A walk that does not throw fetches the leadgen ids of every entry's
      leadgen changes, entry after entry and change after change. */
  lemma {:induction false} WalkEntriesFetchesInOrder(entries: seq<Entry>, token: Option<string>)
    requires Truthy(token) && !WalkEntries(entries, token).threw
    ensures FetchedInOrder(WalkEntries(entries, token).fetched, Seqs.Filter(AllChanges(entries), IsLeadgen))
    decreases |entries|
  {
    if |entries| > 0 {
      var cs := entries[0].changes.value;
      WalkEntriesFetchesInOrder(entries[1..], token);
      Seqs.FilterConcat(cs, AllChanges(entries[1..]), IsLeadgen);
      FetchedConcat(WalkChanges(cs, token).fetched, Seqs.Filter(cs, IsLeadgen),
                    WalkEntries(entries[1..], token).fetched, Seqs.Filter(AllChanges(entries[1..]), IsLeadgen));
    }
  }

  /** Walking two runs of entries one after the other is walking their
      concatenation: the second run is reached only when the first did not throw. */
  lemma {:induction false} WalkEntriesAppend(a: seq<Entry>, b: seq<Entry>, token: Option<string>)
    ensures WalkEntries(a + b, token) == Then(WalkEntries(a, token), WalkEntries(b, token))
    decreases |a|
  {
    if |a| == 0 {
      assert a + b == b;
    } else {
      WalkEntriesCons(a, b, token);
      WalkEntriesAppend(a[1..], b, token);
      ThenAssoc(WalkEntry(a[0], token), WalkEntries(a[1..], token), WalkEntries(b, token));
    }
  }

  lemma WalkEntriesCons(a: seq<Entry>, b: seq<Entry>, token: Option<string>)
    requires |a| > 0
    ensures WalkEntries(a + b, token) == Then(WalkEntry(a[0], token), WalkEntries(a[1..] + b, token))
  {
    assert (a + b)[0] == a[0];
    assert (a + b)[1..] == a[1..] + b;
  }

  /** Every change of an entry counts, not only the first: an entry whose
      changes are all leadgen changes with values fetches one lead per change. */
  lemma EveryChangeIsFetched(e: Entry, token: Option<string>)
    requires e.changes.Some? && Truthy(token)
    requires forall j :: 0 <= j < |e.changes.value| ==> IsLeadgen(e.changes.value[j]) && e.changes.value[j].value.Some?
    ensures FetchedInOrder(WalkEntries([e], token).fetched, e.changes.value)
  {
    var cs := e.changes.value;
    Seqs.FilterAll(cs, IsLeadgen);
    assert !WalkChanges(cs, token).threw;
    assert AllChanges([e]) == cs;
  }

  /** `POST /`: the answer is always 200 and the database is untouched; only
      page deliveries are walked, and a missing `entry` throws. */
  function Receive(d: Delivery, token: Option<string>): (r: Walk)
    ensures d.objectType != Some("page") ==> r == Walk([], false)
    ensures !Truthy(token) ==> r.fetched == []
    ensures d.objectType == Some("page") && d.entry.Some? ==> r == WalkEntries(d.entry.value, token)
    ensures d.objectType == Some("page") && d.entry.None? ==> r == Walk([], true)
  {
    if d.objectType != Some("page") then Walk([], false)
    else
      match d.entry
      case None => Walk([], true)
      case Some(entries) => WalkEntries(entries, token)
  }
}
