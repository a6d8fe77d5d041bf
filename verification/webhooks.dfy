/** The second Facebook lead-ads webhook revision (server/src/routes/webhooks.js):
    a page delivery is acknowledged at once; then the first change of each
    entry, when it is a leadgen change, starts `handleLead`, which reads the
    page token from the 'meta' integration, fetches the lead and inserts it.
    Failures inside `handleLead` are logged and swallowed. The lead handlers
    are modelled as running one after the other in the order they were
    started. */
module Webhooks {
  import opened Wrappers
  import opened Js
  import opened Schema
  import opened Meta
  import Seqs
  import Leads

  const DefaultVerifyToken := "flow_estate_secret"

  /** `GET /facebook`, with `FACEBOOK_VERIFY_TOKEN` as `env`. */
  function Subscribe(h: Handshake, env: Option<string>): (r: HandshakeReply)
    ensures r.BadRequest? <==> !Truthy(h.mode) || !Truthy(h.token)
    ensures r.Verified? <==> h.mode == Some("subscribe") && h.token == Some(ConfiguredToken(env, DefaultVerifyToken))
    ensures !Truthy(env) ==> (r.Verified? <==> h.mode == Some("subscribe") && h.token == Some("flow_estate_secret"))
    ensures r.Verified? ==> r.challenge == h.challenge
  {
    Verify(h, ConfiguredToken(env, DefaultVerifyToken))
  }

  // ---------------------------------------------------------------------
  // Which leads are started

  /** The leadgen ids `handleLead` was started with, and whether the loop
      stopped on an exception (a leadgen change without `value`). */
  datatype Started = Started(leadgenIds: seq<Option<string>>, threw: bool)

  /** The entry's first change is a leadgen change, so `handleLead` is started for it. */
  predicate StartsLead(e: Entry) {
    e.changes.Some? && |e.changes.value| > 0 && IsLeadgen(e.changes.value[0])
  }

  /** Reading `change.value.leadgen_id` throws: a leadgen first change without `value`. */
  predicate BreaksStart(e: Entry) {
    StartsLead(e) && e.changes.value[0].value.None?
  }

  /** The leadgen id an entry that starts a lead passes to `handleLead`. */
  function StartedId(e: Entry): Option<string> {
    if StartsLead(e) && e.changes.value[0].value.Some? then e.changes.value[0].value.value.leadgenId else None
  }

  function StartedIds(es: seq<Entry>): seq<Option<string>> {
    seq(|es|, i requires 0 <= i < |es| => StartedId(es[i]))
  }

  /** The index of the first entry that throws, or the number of entries when none does. */
  function FirstBreak(entries: seq<Entry>): (k: nat)
    ensures k <= |entries|
    ensures forall i :: 0 <= i < k ==> !BreaksStart(entries[i])
    ensures k < |entries| ==> BreaksStart(entries[k])
    ensures k == |entries| <==> forall i :: 0 <= i < |entries| ==> !BreaksStart(entries[i])
    decreases |entries|
  {
    if |entries| == 0 || BreaksStart(entries[0]) then 0
    else
      var k := FirstBreak(entries[1..]);
      assert forall i :: 1 <= i < k + 1 ==> entries[i] == entries[1..][i - 1];
      k + 1
  }

  /** Only `entry.changes[0]` is examined; entries with no or empty changes
      are skipped; the loop stops at the first entry that throws, keeping the
      leads already started. */
  function StartLeads(entries: seq<Entry>): (r: Started)
    ensures |r.leadgenIds| <= |entries|
    ensures r.threw <==> exists i :: 0 <= i < |entries| && BreaksStart(entries[i])
    ensures r.leadgenIds == StartedIds(Seqs.Filter(entries[..FirstBreak(entries)], StartsLead))
    ensures !r.threw ==> r.leadgenIds == StartedIds(Seqs.Filter(entries, StartsLead))
    decreases |entries|
  {
    WholePrefixWhenNoBreak(entries);
    if |entries| == 0 then Started([], false)
    else
      var e := entries[0];
      if e.changes.Some? && |e.changes.value| > 0 && IsLeadgen(e.changes.value[0]) then
        match e.changes.value[0].value
        case None =>
          assert entries[..0] == [];
          Started([], true)
        case Some(v) =>
          var rest := StartLeads(entries[1..]);
          StartLeadsStep(entries, rest);
          Started([v.leadgenId] + rest.leadgenIds, rest.threw)
      else
        var rest := StartLeads(entries[1..]);
        StartLeadsStep(entries, rest);
        rest
  }

  /** Without an entry that throws, the loop runs over all of them. */
  lemma WholePrefixWhenNoBreak(entries: seq<Entry>)
    ensures !(exists i :: 0 <= i < |entries| && BreaksStart(entries[i])) ==> entries[..FirstBreak(entries)] == entries
  {
  }

  /** The step of StartLeads past an entry that does not throw. */
  lemma StartLeadsStep(entries: seq<Entry>, rest: Started)
    requires |entries| > 0 && !BreaksStart(entries[0])
    requires rest.threw <==> exists i :: 0 <= i < |entries[1..]| && BreaksStart(entries[1..][i])
    requires rest.leadgenIds == StartedIds(Seqs.Filter(entries[1..][..FirstBreak(entries[1..])], StartsLead))
    ensures var head := if StartsLead(entries[0]) then [StartedId(entries[0])] else [];
            && (rest.threw <==> exists i :: 0 <= i < |entries| && BreaksStart(entries[i]))
            && head + rest.leadgenIds == StartedIds(Seqs.Filter(entries[..FirstBreak(entries)], StartsLead))
  {
    BreaksShift(entries);
    PrefixFilterCons(entries);
  }

  lemma BreaksShift(entries: seq<Entry>)
    requires |entries| > 0 && !BreaksStart(entries[0])
    ensures (exists i :: 0 <= i < |entries[1..]| && BreaksStart(entries[1..][i]))
            <==> (exists i :: 0 <= i < |entries| && BreaksStart(entries[i]))
  {
    forall i | 0 <= i < |entries| && BreaksStart(entries[i])
      ensures exists i' :: 0 <= i' < |entries[1..]| && BreaksStart(entries[1..][i'])
    {
      assert entries[1..][i - 1] == entries[i];
    }
  }

  lemma PrefixFilterCons(entries: seq<Entry>)
    requires |entries| > 0 && !BreaksStart(entries[0])
    ensures StartedIds(Seqs.Filter(entries[..FirstBreak(entries)], StartsLead))
            == (if StartsLead(entries[0]) then [StartedId(entries[0])] else [])
               + StartedIds(Seqs.Filter(entries[1..][..FirstBreak(entries[1..])], StartsLead))
  {
    var k := FirstBreak(entries[1..]);
    FirstBreakCons(entries);
    PrefixCons(entries, k);
    ConsStartedIds(entries[0], entries[1..][..k]);
  }

  lemma FirstBreakCons(entries: seq<Entry>)
    requires |entries| > 0 && !BreaksStart(entries[0])
    ensures FirstBreak(entries) == FirstBreak(entries[1..]) + 1
  {
  }

  lemma PrefixCons<T>(s: seq<T>, k: nat)
    requires k < |s|
    ensures s[..k + 1] == [s[0]] + s[1..][..k]
  {
  }

  lemma ConsStartedIds(e: Entry, tail: seq<Entry>)
    ensures StartedIds(Seqs.Filter([e] + tail, StartsLead))
            == (if StartsLead(e) then [StartedId(e)] else []) + StartedIds(Seqs.Filter(tail, StartsLead))
  {
    Seqs.FilterConcat([e], tail, StartsLead);
    StartedIdsSingle(e);
    StartedIdsConcat(Seqs.Filter([e], StartsLead), Seqs.Filter(tail, StartsLead));
  }

  lemma StartedIdsSingle(e: Entry)
    ensures StartedIds(Seqs.Filter([e], StartsLead)) == if StartsLead(e) then [StartedId(e)] else []
  {
    assert [e][1..] == [];
  }

  lemma StartedIdsConcat(a: seq<Entry>, b: seq<Entry>)
    ensures StartedIds(a + b) == StartedIds(a) + StartedIds(b)
  {
  }

  /** An entry cut down to its first change. */
  function FirstChangeOnly(e: Entry): Entry {
    if e.changes.Some? && |e.changes.value| > 0 then e.(changes := Some(e.changes.value[..1])) else e
  }

  /** Changes after the first in an entry never matter. */
  lemma {:induction false} OnlyFirstChangeMatters(entries: seq<Entry>)
    ensures StartLeads(entries) == StartLeads(seq(|entries|, i requires 0 <= i < |entries| => FirstChangeOnly(entries[i])))
    decreases |entries|
  {
    if |entries| > 0 {
      var cut := seq(|entries|, i requires 0 <= i < |entries| => FirstChangeOnly(entries[i]));
      assert cut[1..] == seq(|entries[1..]|, i requires 0 <= i < |entries[1..]| => FirstChangeOnly(entries[1..][i]));
      OnlyFirstChangeMatters(entries[1..]);
    }
  }

  // ---------------------------------------------------------------------
  // handleLead

  /** `SELECT config FROM integrations WHERE type = 'meta' LIMIT 1`. */
  function MetaIntegration(db: Db): (r: Option<Integration>)
    ensures r.None? <==> forall i :: 0 <= i < |db.integrations| ==> db.integrations[i].kind != Some("meta")
    ensures r.Some? ==> r.value in db.integrations && r.value.kind == Some("meta")
  {
    Seqs.Find(db.integrations, (i: Integration) => i.kind == Some("meta"))
  }

  /** `config.page_access_token`, when truthy. A NULL config throws, which
      the caller swallows like a missing token. */
  function PageToken(db: Db): (r: Option<string>)
    ensures r.Some? ==> r.value != ""
    ensures r.Some? <==> MetaIntegration(db).Some? && MetaIntegration(db).value.config.Some?
                         && "page_access_token" in MetaIntegration(db).value.config.value
                         && MetaIntegration(db).value.config.value["page_access_token"] != ""
  {
    match MetaIntegration(db)
    case None => None
    case Some(i) =>
      match i.config
      case None => None
      case Some(config) =>
        if "page_access_token" in config && config["page_access_token"] != "" then Some(config["page_access_token"])
        else None
  }

  /** The contact this revision reads from the answers. */
  datatype Mapped = Mapped(name: Option<string>, email: Option<string>, phone: Option<string>)

  const Unmapped := Mapped(Some("Facebook Lead"), None, None)

  predicate IsNameField(f: Field) {
    f.name in ["full_name", "name", "first_name", "last_name"]
  }

  predicate IsEmailField(f: Field) {
    f.name == "email"
  }

  predicate IsPhoneField(f: Field) {
    f.name in ["phone_number", "phone"]
  }

  /** `values[0]`: `undefined` (NULL once inserted) for an empty list. */
  function FirstValue(vs: seq<string>): Option<string> {
    if |vs| == 0 then None else Some(vs[0])
  }

  /** One `forEach` step. `field.values[0]` is read only for a recognised
      field, and throws when that field has no `values`. */
  function MapField(acc: Mapped, f: Field): (r: Eval<Mapped>)
    ensures r.Throws? <==> (IsNameField(f) || IsEmailField(f) || IsPhoneField(f)) && f.values.None?
  {
    if (IsNameField(f) || IsEmailField(f) || IsPhoneField(f)) && f.values.None? then Throws
    else
      var n := if IsNameField(f) then FirstValue(f.values.value) else acc.name;
      var e := if IsEmailField(f) then FirstValue(f.values.value) else acc.email;
      var p := if IsPhoneField(f) then FirstValue(f.values.value) else acc.phone;
      Returns(Mapped(n, e, p))
  }

  function MapFields(acc: Mapped, fs: seq<Field>): Eval<Mapped>
    decreases |fs|
  {
    if |fs| == 0 then Returns(acc)
    else
      match MapField(acc, fs[0])
      case Throws => Throws
      case Returns(next) => MapFields(next, fs[1..])
  }

  /** The value a category ends with: the first value of its last field, or
      what it started as. */
  function LastValue(fs: seq<Field>, p: Field -> bool, initial: Option<string>): Option<string> {
    match LastMatching(fs, p)
    case None => initial
    case Some(f) => if f.values.Some? then FirstValue(f.values.value) else None
  }

  /** The fold is last-match-wins, independently for name, email and phone. */
  lemma {:induction false} MapFieldsLastMatchWins(acc: Mapped, fs: seq<Field>)
    requires MapFields(acc, fs).Returns?
    ensures var m := MapFields(acc, fs).value;
            && m.name == LastValue(fs, IsNameField, acc.name)
            && m.email == LastValue(fs, IsEmailField, acc.email)
            && m.phone == LastValue(fs, IsPhoneField, acc.phone)
    decreases |fs|
  {
    if |fs| > 0 {
      MapFieldsLastMatchWins(MapField(acc, fs[0]).value, fs[1..]);
    }
  }

  /** The fold throws exactly when some recognised field has no values. */
  lemma {:induction false} MapFieldsThrows(acc: Mapped, fs: seq<Field>)
    ensures MapFields(acc, fs).Throws? <==>
              exists i :: 0 <= i < |fs| && (IsNameField(fs[i]) || IsEmailField(fs[i]) || IsPhoneField(fs[i]))
                                        && fs[i].values.None?
    decreases |fs|
  {
    if |fs| > 0 {
      assert forall i :: 1 <= i < |fs| ==> fs[i] == fs[1..][i - 1];
      if MapField(acc, fs[0]).Returns? {
        MapFieldsThrows(MapField(acc, fs[0]).value, fs[1..]);
      }
    }
  }

  /** `graph(leadgenId, token)` is what fetching the lead gave. */
  type Graph = (Option<string>, string) -> GraphResult

  /** The contact read from a fetched lead: the defaults when the response
      has no `field_data`, otherwise the mapping of its fields. */
  function Contact(fieldData: Option<seq<Field>>): Eval<Mapped> {
    if fieldData.None? then Returns(Unmapped) else MapFields(Unmapped, fieldData.value)
  }

  /** The row `handleLead` inserts for a contact. */
  function LeadFrom(m: Mapped, id: Id, now: Time): (l: Lead)
    ensures l.id == id && l.source == Some("facebook") && l.status == Some("New")
    ensures l.name == m.name && l.email == m.email && l.phone == m.phone && l.createdAt == now
  {
    Leads.NewLead(id, m.name, m.email, m.phone, Some("facebook"), Some("New"), None, now)
  }

  /** Fetching the lead with the page token gives its fields, and reading
      them does not throw. */
  predicate Fetches(graph: Graph, leadgenId: Option<string>, token: string) {
    graph(leadgenId, token).GraphLead? && Contact(graph(leadgenId, token).fieldData).Returns?
  }

  /** What `handleLead` inserts, if anything: a row exactly when there is a
      page token, the fetch and the mapping succeed and the key is free. */
  function HandleLead(db: Db, leadgenId: Option<string>, graph: Graph, id: Id, now: Time): (r: Option<Lead>)
    ensures r.Some? <==> PageToken(db).Some? && Fetches(graph, leadgenId, PageToken(db).value) && !HasLead(db.leads, id)
    ensures r.Some? ==>
              r.value == LeadFrom(Contact(graph(leadgenId, PageToken(db).value).fieldData).value, id, now)
  {
    match PageToken(db)
    case None => None
    case Some(token) =>
      match graph(leadgenId, token)
      case GraphFailed => None
      case GraphLead(fieldData) =>
        var m := Contact(fieldData);
        if m.Throws? || HasLead(db.leads, id) then None
        else Some(LeadFrom(m.value, id, now))
  }

  predicate FromFacebook(l: Lead) {
    l.source == Some("facebook") && l.status == Some("New")
  }

  /** The started handlers, in order; the k-th insert gets key `ids(k)`. */
  function HandleAll(db: Db, leadgenIds: seq<Option<string>>, graph: Graph, ids: nat -> Id, k: nat, now: Time)
    : (r: Db)
    ensures r == db.(leads := r.leads)
    ensures |db.leads| <= |r.leads| <= |db.leads| + |leadgenIds| && r.leads[..|db.leads|] == db.leads
    ensures forall i :: |db.leads| <= i < |r.leads| ==> FromFacebook(r.leads[i])
    ensures PageToken(db).None? ==> r == db
    decreases |leadgenIds|
  {
    if |leadgenIds| == 0 then db
    else
      match HandleLead(db, leadgenIds[0], graph, ids(k), now)
      case None => HandleAll(db, leadgenIds[1..], graph, ids, k, now)
      case Some(row) =>
        var next := db.(leads := db.leads + [row]);
        assert PageToken(next) == PageToken(db);
        var r := HandleAll(next, leadgenIds[1..], graph, ids, k + 1, now);
        assert r.leads[..|db.leads|] == r.leads[..|next.leads|][..|db.leads|];
        r
  }

  /** Every started lead can be fetched and read with `token`. */
  predicate AllFetch(graph: Graph, leadgenIds: seq<Option<string>>, token: string) {
    forall i :: 0 <= i < |leadgenIds| ==> Fetches(graph, leadgenIds[i], token)
  }

  /** The rows the started leads give when each is fetched and read, the
      `n`-th with key `ids(k + n)`. */
  function FacebookRows(token: string, leadgenIds: seq<Option<string>>, graph: Graph, ids: nat -> Id,
                        k: nat, now: Time): (rows: seq<Lead>)
    requires AllFetch(graph, leadgenIds, token)
    ensures |rows| == |leadgenIds|
    ensures forall i :: 0 <= i < |leadgenIds| ==>
              Fetches(graph, leadgenIds[i], token)
              && rows[i] == LeadFrom(Contact(graph(leadgenIds[i], token).fieldData).value, ids(k + i), now)
    decreases |leadgenIds|
  {
    if |leadgenIds| == 0 then []
    else
      assert Fetches(graph, leadgenIds[0], token);
      var rest := FacebookRows(token, leadgenIds[1..], graph, ids, k + 1, now);
      assert forall i :: 1 <= i < |leadgenIds| ==> leadgenIds[i] == leadgenIds[1..][i - 1] && k + i == (k + 1) + (i - 1);
      [LeadFrom(Contact(graph(leadgenIds[0], token).fieldData).value, ids(k), now)] + rest
  }

  /** The conditions under which every started lead is inserted: the page
      token is configured, each lead can be fetched and read with it, and the
      keys handed out are fresh and distinct. */
  predicate AllInsertable(db: Db, token: string, leadgenIds: seq<Option<string>>, graph: Graph, ids: nat -> Id, k: nat) {
    && PageToken(db) == Some(token)
    && AllFetch(graph, leadgenIds, token)
    && (forall n :: k <= n < k + |leadgenIds| ==> !HasLead(db.leads, ids(n)))
    && (forall n, m :: k <= n < m < k + |leadgenIds| ==> ids(n) != ids(m))
  }

  /** When every started lead can be fetched and read and every key is
      fresh, the handlers add exactly one row per started lead, in order. */
  lemma {:induction false} HandleAllInsertsEach(db: Db, token: string, leadgenIds: seq<Option<string>>, graph: Graph,
                                                ids: nat -> Id, k: nat, now: Time)
    requires AllInsertable(db, token, leadgenIds, graph, ids, k)
    ensures HandleAll(db, leadgenIds, graph, ids, k, now).leads == db.leads + FacebookRows(token, leadgenIds, graph, ids, k, now)
    decreases |leadgenIds|
  {
    if |leadgenIds| > 0 {
      var row := LeadFrom(Contact(graph(leadgenIds[0], token).fieldData).value, ids(k), now);
      var next := db.(leads := db.leads + [row]);
      HandleAllStep(db, token, leadgenIds, graph, ids, k, now);
      HandleAllInsertsEach(next, token, leadgenIds[1..], graph, ids, k + 1, now);
      var tail := FacebookRows(token, leadgenIds[1..], graph, ids, k + 1, now);
      RowsChain(HandleAll(db, leadgenIds, graph, ids, k, now).leads, HandleAll(next, leadgenIds[1..], graph, ids, k + 1, now).leads,
                db.leads, row, tail, FacebookRows(token, leadgenIds, graph, ids, k, now));
    }
  }

  /** The table after the first step and the rest, regrouped. */
  lemma RowsChain(whole: seq<Lead>, afterFirst: seq<Lead>, before: seq<Lead>, row: Lead, tail: seq<Lead>, rows: seq<Lead>)
    requires whole == afterFirst && afterFirst == (before + [row]) + tail && rows == [row] + tail
    ensures whole == before + rows
  {
  }

  /** One step of the handlers under those conditions: the first started
      lead is inserted, the rest run against the table holding it and still
      meet the conditions. */
  lemma HandleAllStep(db: Db, token: string, leadgenIds: seq<Option<string>>, graph: Graph, ids: nat -> Id, k: nat, now: Time)
    requires |leadgenIds| > 0 && AllInsertable(db, token, leadgenIds, graph, ids, k)
    ensures var row := LeadFrom(Contact(graph(leadgenIds[0], token).fieldData).value, ids(k), now);
            var next := db.(leads := db.leads + [row]);
            && AllInsertable(next, token, leadgenIds[1..], graph, ids, k + 1)
            && AllFetch(graph, leadgenIds[1..], token)
            && HandleAll(db, leadgenIds, graph, ids, k, now) == HandleAll(next, leadgenIds[1..], graph, ids, k + 1, now)
            && FacebookRows(token, leadgenIds, graph, ids, k, now) == [row] + FacebookRows(token, leadgenIds[1..], graph, ids, k + 1, now)
  {
    HandleAllFirst(db, token, leadgenIds, graph, ids, k, now);
    HandleAllRestReady(db, token, leadgenIds, graph, ids, k, now);
    FacebookRowsCons(token, leadgenIds, graph, ids, k, now);
  }

  /** After the first insert the remaining started leads still have fresh keys. */
  lemma HandleAllRestReady(db: Db, token: string, leadgenIds: seq<Option<string>>, graph: Graph, ids: nat -> Id, k: nat, now: Time)
    requires |leadgenIds| > 0 && Fetches(graph, leadgenIds[0], token)
    requires forall n :: k <= n < k + |leadgenIds| ==> !HasLead(db.leads, ids(n))
    requires forall n, m :: k <= n < m < k + |leadgenIds| ==> ids(n) != ids(m)
    ensures var next := db.(leads := db.leads + [LeadFrom(Contact(graph(leadgenIds[0], token).fieldData).value, ids(k), now)]);
            && (forall n :: k + 1 <= n < k + 1 + |leadgenIds[1..]| ==> !HasLead(next.leads, ids(n)))
            && (forall n, m :: k + 1 <= n < m < k + 1 + |leadgenIds[1..]| ==> ids(n) != ids(m))
  {
    var next := db.(leads := db.leads + [LeadFrom(Contact(graph(leadgenIds[0], token).fieldData).value, ids(k), now)]);
    forall n | k + 1 <= n < k + 1 + |leadgenIds[1..]| ensures !HasLead(next.leads, ids(n)) {
      assert ids(k) != ids(n);
    }
  }

  lemma FacebookRowsCons(token: string, leadgenIds: seq<Option<string>>, graph: Graph, ids: nat -> Id, k: nat, now: Time)
    requires |leadgenIds| > 0
    requires AllFetch(graph, leadgenIds, token)
    ensures AllFetch(graph, leadgenIds[1..], token)
    ensures FacebookRows(token, leadgenIds, graph, ids, k, now)
              == [LeadFrom(Contact(graph(leadgenIds[0], token).fieldData).value, ids(k), now)]
                 + FacebookRows(token, leadgenIds[1..], graph, ids, k + 1, now)
  {
    assert forall i :: 0 <= i < |leadgenIds[1..]| ==> leadgenIds[1..][i] == leadgenIds[i + 1];
  }

  /** The first started lead is inserted, and the rest run against the table with it. */
  lemma HandleAllFirst(db: Db, token: string, leadgenIds: seq<Option<string>>, graph: Graph, ids: nat -> Id, k: nat, now: Time)
    requires |leadgenIds| > 0 && PageToken(db) == Some(token)
    requires Fetches(graph, leadgenIds[0], token) && !HasLead(db.leads, ids(k))
    ensures var next := db.(leads := db.leads + [LeadFrom(Contact(graph(leadgenIds[0], token).fieldData).value, ids(k), now)]);
            && PageToken(next) == Some(token)
            && HandleAll(db, leadgenIds, graph, ids, k, now) == HandleAll(next, leadgenIds[1..], graph, ids, k + 1, now)
  {
    var row := LeadFrom(Contact(graph(leadgenIds[0], token).fieldData).value, ids(k), now);
    assert HandleLead(db, leadgenIds[0], graph, ids(k), now) == Some(row);
    assert PageToken(db.(leads := db.leads + [row])) == PageToken(db);
  }

  datatype Reply = EventReceived | NotFound
  {
    function Status(): nat {
      match this
      case EventReceived => 200
      case NotFound => 404
    }
  }

  /** `POST /facebook`: anything but a page delivery is refused; a page
      delivery is acknowledged before any entry is looked at. */
  function Receive(db: Db, d: Delivery, graph: Graph, ids: nat -> Id, now: Time): (s: Step<Reply>)
    ensures d.objectType != Some("page") ==> s == Step(db, NotFound)
    ensures d.objectType == Some("page") ==> s.reply == EventReceived
    ensures s.db == db.(leads := s.db.leads)
    ensures |db.leads| <= |s.db.leads| && s.db.leads[..|db.leads|] == db.leads
    ensures forall i :: |db.leads| <= i < |s.db.leads| ==> FromFacebook(s.db.leads[i])
    ensures d.entry.Some? ==> |s.db.leads| <= |db.leads| + |StartLeads(d.entry.value).leadgenIds|
    ensures d.entry.None? || PageToken(db).None? ==> s.db == db
  {
    if d.objectType != Some("page") then Step(db, NotFound)
    else
      match d.entry
      case None => Step(db, EventReceived)
      case Some(entries) => Step(HandleAll(db, StartLeads(entries).leadgenIds, graph, ids, 0, now), EventReceived)
  }

  /** An acknowledged page delivery whose started leads can all be fetched
      and read, with fresh keys, adds exactly their rows, in order. */
  lemma ReceiveInsertsEach(db: Db, d: Delivery, graph: Graph, ids: nat -> Id, now: Time)
    requires d.objectType == Some("page") && d.entry.Some? && PageToken(db).Some?
    requires forall i :: 0 <= i < |StartLeads(d.entry.value).leadgenIds| ==>
               Fetches(graph, StartLeads(d.entry.value).leadgenIds[i], PageToken(db).value)
    requires forall n :: 0 <= n < |StartLeads(d.entry.value).leadgenIds| ==> !HasLead(db.leads, ids(n))
    requires forall n, m :: 0 <= n < m < |StartLeads(d.entry.value).leadgenIds| ==> ids(n) != ids(m)
    ensures var s := Receive(db, d, graph, ids, now);
            && s.reply == EventReceived
            && s.db.leads == db.leads + FacebookRows(PageToken(db).value, StartLeads(d.entry.value).leadgenIds, graph, ids, 0, now)
  {
    HandleAllInsertsEach(db, PageToken(db).value, StartLeads(d.entry.value).leadgenIds, graph, ids, 0, now);
  }
}
