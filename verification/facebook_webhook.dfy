/** The first Facebook lead-ads webhook revision (server/src/routes/facebook_webhook.js):
    every leadgen change of a page delivery whose page (and form) has a stored
    connection is fetched from the Graph API and inserted as a lead, without
    any duplicate check. Processing is sequential; the first exception ends
    the request with 500 and keeps the leads already inserted. */
module FacebookWebhook {
  import opened Wrappers
  import opened Js
  import opened Schema
  import opened Meta
  import Seqs
  import Strings

  const DefaultVerifyToken := "flow_estate_webhook_token_2024"

  /** `GET /`, with `FACEBOOK_WEBHOOK_VERIFY_TOKEN` as `env`. */
  function Subscribe(h: Handshake, env: Option<string>): (r: HandshakeReply)
    ensures r.BadRequest? <==> !Truthy(h.mode) || !Truthy(h.token)
    ensures r.Verified? <==> h.mode == Some("subscribe") && h.token == Some(ConfiguredToken(env, DefaultVerifyToken))
    ensures !Truthy(env) ==> (r.Verified? <==> h.mode == Some("subscribe") && h.token == Some("flow_estate_webhook_token_2024"))
    ensures r.Forbidden? <==> Truthy(h.mode) && Truthy(h.token) && !r.Verified?
    ensures r.Verified? ==> r.challenge == h.challenge
  {
    Verify(h, ConfiguredToken(env, DefaultVerifyToken))
  }

  /** Without `FACEBOOK_WEBHOOK_VERIFY_TOKEN` this revision refuses the token
      the other two revisions accept by default. */
  lemma OtherRevisionsTokenRefused(challenge: Option<string>, env: Option<string>)
    requires !Truthy(env)
    ensures Subscribe(Handshake(Some("subscribe"), Some("flow_estate_secret"), challenge), env) == Forbidden
  {
  }

  // ---------------------------------------------------------------------
  // Parsed form answers: a JavaScript object built by assignment.

  /** `obj[k]`. */
  function Lookup(obj: Fields, k: string): Option<string>
    decreases |obj|
  {
    if |obj| == 0 then None
    else if obj[0].0 == k then Some(obj[0].1)
    else Lookup(obj[1..], k)
  }

  function Keys(obj: Fields): seq<string> {
    seq(|obj|, i requires 0 <= i < |obj| => obj[i].0)
  }

  /** `obj[k] = v`: an existing key keeps its place, a new key goes last
      (as JavaScript does for names that are neither array indices nor `__proto__`). */
  function SetField(obj: Fields, k: string, v: string): (r: Fields)
    ensures Lookup(r, k) == Some(v)
    ensures forall k' :: k' != k ==> Lookup(r, k') == Lookup(obj, k')
    ensures k in Keys(obj) ==> Keys(r) == Keys(obj)
    ensures k !in Keys(obj) ==> Keys(r) == Keys(obj) + [k]
    decreases |obj|
  {
    if |obj| == 0 then [(k, v)]
    else if obj[0].0 == k then
      assert Keys(obj)[0] == k;
      assert Keys([(k, v)] + obj[1..]) == Keys(obj);
      [(k, v)] + obj[1..]
    else
      var rest := SetField(obj[1..], k, v);
      assert Keys(obj) == [obj[0].0] + Keys(obj[1..]);
      assert Keys([obj[0]] + rest) == [obj[0].0] + Keys(rest);
      [obj[0]] + rest
  }

  /** `for (field of field_data) leadFields[field.name] = field.values.join(', ')`;
      a field without `values` throws. */
  function ParseFields(obj: Fields, fs: seq<Field>): (r: Eval<Fields>)
    ensures r.Throws? <==> exists i :: 0 <= i < |fs| && fs[i].values.None?
    decreases |fs|
  {
    if |fs| == 0 then Returns(obj)
    else
      match fs[0].values
      case None => Throws
      case Some(vs) =>
        var r := ParseFields(SetField(obj, fs[0].name, Strings.Join(vs, ", ")), fs[1..]);
        assert forall i :: 1 <= i < |fs| ==> fs[i] == fs[1..][i - 1];
        r
  }

  /** A later field with the same name overwrites an earlier one: each name
      ends up with the joined values of its last occurrence. */
  lemma {:induction false} ParseFieldsLastWins(obj: Fields, fs: seq<Field>, k: string)
    requires ParseFields(obj, fs).Returns?
    ensures Lookup(ParseFields(obj, fs).value, k) ==
              match LastMatching(fs, (f: Field) => f.name == k)
              case None => Lookup(obj, k)
              case Some(f) => Some(Strings.Join(f.values.value, ", "))
    decreases |fs|
  {
    if |fs| > 0 {
      var obj' := SetField(obj, fs[0].name, Strings.Join(fs[0].values.value, ", "));
      ParseFieldsLastWins(obj', fs[1..], k);
    }
  }

  /** The lead's name, email and phone as this revision reads them from the answers. */
  datatype Contact = Contact(name: string, email: Option<string>, phone: Option<string>)

  /** `full_name || name || 'Unknown'`, `email || null`, `phone || phone_number || null`. */
  function Normalise(f: Fields): (c: Contact)
    ensures c.name != ""
    ensures c.name == "Unknown" || Some(c.name) == Lookup(f, "full_name") || Some(c.name) == Lookup(f, "name")
    ensures Truthy(Lookup(f, "full_name")) ==> Some(c.name) == Lookup(f, "full_name")
    ensures !Truthy(Lookup(f, "full_name")) && Truthy(Lookup(f, "name")) ==> Some(c.name) == Lookup(f, "name")
    ensures !Truthy(Lookup(f, "full_name")) && !Truthy(Lookup(f, "name")) ==> c.name == "Unknown"
    ensures Truthy(Lookup(f, "phone")) ==> c.phone == Lookup(f, "phone")
    ensures !Truthy(Lookup(f, "phone")) ==>
              c.phone == (if Truthy(Lookup(f, "phone_number")) then Lookup(f, "phone_number") else None)
    ensures c.email.Some? <==> Truthy(Lookup(f, "email"))
    ensures c.email.Some? ==> c.email == Lookup(f, "email")
    ensures c.phone.Some? ==> c.phone.value != "" && (c.phone == Lookup(f, "phone") || c.phone == Lookup(f, "phone_number"))
    ensures c.phone.None? <==> !Truthy(Lookup(f, "phone")) && !Truthy(Lookup(f, "phone_number"))
  {
    Contact(Or(Lookup(f, "full_name"), Or(Lookup(f, "name"), Some("Unknown"))).value,
            if Truthy(Lookup(f, "email")) then Lookup(f, "email") else None,
            if Truthy(Lookup(f, "phone")) then Lookup(f, "phone")
            else if Truthy(Lookup(f, "phone_number")) then Lookup(f, "phone_number") else None)
  }

  // ---------------------------------------------------------------------
  // POST /

  /** `SELECT * FROM facebook_connections WHERE page_id = $1 AND (form_id = $2 OR form_id IS NULL) LIMIT 1`. */
  function ConnectionFor(conns: seq<FacebookConnection>, v: ChangeValue): (r: Option<FacebookConnection>)
    ensures r.Some? ==> r.value in conns && SqlEq(r.value.pageId, v.pageId)
                        && (SqlEq(r.value.formId, v.formId) || r.value.formId.None?)
    ensures r.None? <==> forall i :: 0 <= i < |conns| ==>
                           !(SqlEq(conns[i].pageId, v.pageId) && (SqlEq(conns[i].formId, v.formId) || conns[i].formId.None?))
  {
    Seqs.Find(conns, (c: FacebookConnection) => SqlEq(c.pageId, v.pageId) && (SqlEq(c.formId, v.formId) || c.formId.None?))
  }

  /** The nested `for entry / for change` loops as one pass: each entry
      contributes its changes, or a marker where reading `changes` throws. */
  datatype Item = ChangeItem(change: Change) | MissingChanges

  function EntryItems(e: Entry): seq<Item> {
    match e.changes
    case None => [MissingChanges]
    case Some(cs) => seq(|cs|, i requires 0 <= i < |cs| => ChangeItem(cs[i]))
  }

  function Items(entries: seq<Entry>): seq<Item>
    decreases |entries|
  {
    if |entries| == 0 then [] else EntryItems(entries[0]) + Items(entries[1..])
  }

  /** Every lead this revision inserts is a Facebook lead in the first pipeline stage. */
  predicate FromFacebook(l: Lead) {
    l.source == Some("facebook") && l.status == Some("new") && l.pipelineStage == Some("nuevo")
  }

  function LeadRow(id: Id, v: ChangeValue, fields: Fields, now: Time): (l: Lead)
    ensures FromFacebook(l) && l.id == id && l.facebookLeadId == v.leadgenId
  {
    var c := Normalise(fields);
    Lead(id, Some(c.name), c.email, c.phone, Some("facebook"), Some("new"), None, Some("nuevo"),
         Some(fields), v.leadgenId, v.pageId, v.formId, now, None)
  }

  /** `graph(leadgenId, accessToken)` is what fetching the lead gave. */
  type Graph = (Option<string>, Option<string>) -> GraphResult

  /** The parsed answers of a fetched lead; a response without `field_data` has none. */
  function Answers(fieldData: Option<seq<Field>>): Eval<Fields> {
    match fieldData
    case None => Returns([])
    case Some(fs) => ParseFields([], fs)
  }

  datatype ChangeOutcome = Skipped | Inserted(row: Lead) | Threw

  /** Fetching or reading the lead fails: the request fails, or a field has no values. */
  predicate FetchBreaks(graph: Graph, v: ChangeValue, accessToken: Option<string>) {
    graph(v.leadgenId, accessToken).GraphFailed? || Answers(graph(v.leadgenId, accessToken).fieldData).Throws?
  }

  /** What makes the loop throw whatever the table holds: an entry without
      `changes`, a leadgen change without `value`, or a connected leadgen
      change whose lead cannot be fetched or read. */
  predicate ItemBreaks(conns: seq<FacebookConnection>, graph: Graph, it: Item) {
    match it
    case MissingChanges => true
    case ChangeItem(c) =>
      && IsLeadgen(c)
      && (c.value.None?
          || (ConnectionFor(conns, c.value.value).Some?
              && FetchBreaks(graph, c.value.value, ConnectionFor(conns, c.value.value).value.accessToken)))
  }

  /** One change: non-leadgen changes and changes without a connection are
      skipped; a missing `value`, a failed fetch, a field without values or a
      key already in use throws. */
  function ProcessChange(db: Db, c: Change, graph: Graph, id: Id, now: Time): (r: ChangeOutcome)
    ensures !IsLeadgen(c) ==> r.Skipped?
    ensures IsLeadgen(c) && c.value.Some? && ConnectionFor(db.facebookConnections, c.value.value).None? ==> r.Skipped?
    ensures r.Skipped? ==> !IsLeadgen(c) || (c.value.Some? && ConnectionFor(db.facebookConnections, c.value.value).None?)
    ensures r.Threw? <==>
              || ItemBreaks(db.facebookConnections, graph, ChangeItem(c))
              || (Processable(db.facebookConnections, c) && HasLead(db.leads, id)
                  && !FetchBreaks(graph, c.value.value, ConnectionFor(db.facebookConnections, c.value.value).value.accessToken))
    ensures r.Inserted? ==>
              && IsLeadgen(c) && c.value.Some? && !HasLead(db.leads, id)
              && var conn := ConnectionFor(db.facebookConnections, c.value.value);
              && conn.Some?
              && var fetched := graph(c.value.value.leadgenId, conn.value.accessToken);
              && fetched.GraphLead? && r.row.rawData.Some?
              && Answers(fetched.fieldData) == Returns(r.row.rawData.value)
              && r.row == LeadRow(id, c.value.value, r.row.rawData.value, now)
  {
    if !IsLeadgen(c) then Skipped
    else
      match c.value
      case None => Threw
      case Some(v) =>
        match ConnectionFor(db.facebookConnections, v)
        case None => Skipped
        case Some(conn) =>
          match graph(v.leadgenId, conn.accessToken)
          case GraphFailed => Threw
          case GraphLead(fieldData) =>
            match Answers(fieldData)
            case Throws => Threw
            case Returns(fields) =>
              if HasLead(db.leads, id) then Threw else Inserted(LeadRow(id, v, fields, now))
  }

  /** The database so far, how many leads were inserted, and whether an exception ended the loop. */
  datatype Progress = Progress(db: Db, inserts: nat, failed: bool)

  /** The loop body over the flattened changes; the k-th inserted lead gets key `ids(k)`. */
  function ProcessItems(p: Progress, items: seq<Item>, graph: Graph, ids: nat -> Id, now: Time): (r: Progress)
    ensures r.db == p.db.(leads := r.db.leads)
    ensures |p.db.leads| <= |r.db.leads| && r.db.leads[..|p.db.leads|] == p.db.leads
    ensures p.inserts <= r.inserts && |r.db.leads| - |p.db.leads| == r.inserts - p.inserts
    ensures forall i :: |p.db.leads| <= i < |r.db.leads| ==> FromFacebook(r.db.leads[i])
    ensures p.failed ==> r == p
    decreases |items|
  {
    if p.failed || |items| == 0 then p
    else
      match items[0]
      case MissingChanges => p.(failed := true)
      case ChangeItem(c) =>
        match ProcessChange(p.db, c, graph, ids(p.inserts), now)
        case Skipped => ProcessItems(p, items[1..], graph, ids, now)
        case Threw => p.(failed := true)
        case Inserted(row) =>
          var next := Progress(p.db.(leads := p.db.leads + [row]), p.inserts + 1, false);
          var r := ProcessItems(next, items[1..], graph, ids, now);
          assert r.db.leads[..|p.db.leads|] == r.db.leads[..|next.db.leads|][..|p.db.leads|];
          r
  }

  datatype Reply = EventReceived | NotFound | InternalError
  {
    function Status(): nat {
      match this
      case EventReceived => 200
      case NotFound => 404
      case InternalError => 500
    }
  }

  /** `POST /`. */
  function Receive(db: Db, d: Delivery, graph: Graph, ids: nat -> Id, now: Time): (s: Step<Reply>)
    ensures d.objectType != Some("page") ==> s == Step(db, NotFound)
    ensures d.objectType == Some("page") && d.entry.None? ==> s == Step(db, InternalError)
    ensures s.db == db.(leads := s.db.leads)
    ensures |db.leads| <= |s.db.leads| && s.db.leads[..|db.leads|] == db.leads
    ensures forall i :: |db.leads| <= i < |s.db.leads| ==> FromFacebook(s.db.leads[i])
    ensures s.reply.EventReceived? ==> d.objectType == Some("page") && d.entry.Some?
    ensures s.reply.EventReceived? ==>
              forall i :: 0 <= i < |Items(d.entry.value)| ==> !ItemBreaks(db.facebookConnections, graph, Items(d.entry.value)[i])
    ensures d.objectType == Some("page") ==> s.reply.EventReceived? || s.reply.InternalError?
  {
    if d.objectType != Some("page") then Step(db, NotFound)
    else
      match d.entry
      case None => Step(db, InternalError)
      case Some(entries) =>
        var r := ProcessItems(Progress(db, 0, false), Items(entries), graph, ids, now);
        if r.failed then Step(r.db, InternalError)
        else
          ProcessedMeansNothingBroke(Progress(db, 0, false), Items(entries), graph, ids, now);
          Step(r.db, EventReceived)
  }

  /** A loop that ran to the end met no item that always throws. */
  lemma {:induction false} ProcessedMeansNothingBroke(p: Progress, items: seq<Item>, graph: Graph, ids: nat -> Id, now: Time)
    requires !ProcessItems(p, items, graph, ids, now).failed
    ensures forall i :: 0 <= i < |items| ==> !ItemBreaks(p.db.facebookConnections, graph, items[i])
    decreases |items|
  {
    if |items| > 0 {
      assert forall i :: 1 <= i < |items| ==> items[i] == items[1..][i - 1];
      match items[0]
      case MissingChanges =>
      case ChangeItem(c) =>
        match ProcessChange(p.db, c, graph, ids(p.inserts), now)
        case Skipped =>
          ProcessedMeansNothingBroke(p, items[1..], graph, ids, now);
        case Threw =>
        case Inserted(row) =>
          var next := Progress(p.db.(leads := p.db.leads + [row]), p.inserts + 1, false);
          ProcessedMeansNothingBroke(next, items[1..], graph, ids, now);
    }
  }

  /** With fresh keys, the loop runs to the end exactly when no item always throws. */
  lemma {:induction false} NothingBrokeMeansProcessed(p: Progress, items: seq<Item>, graph: Graph, ids: nat -> Id, now: Time)
    requires !p.failed
    requires forall i :: 0 <= i < |items| ==> !ItemBreaks(p.db.facebookConnections, graph, items[i])
    requires forall n :: p.inserts <= n < p.inserts + |items| ==> !HasLead(p.db.leads, ids(n))
    requires forall n, m :: p.inserts <= n < m < p.inserts + |items| ==> ids(n) != ids(m)
    ensures !ProcessItems(p, items, graph, ids, now).failed
    decreases |items|
  {
    if |items| > 0 {
      assert forall i :: 1 <= i < |items| ==> items[i] == items[1..][i - 1];
      assert !ItemBreaks(p.db.facebookConnections, graph, items[0]);
      match items[0]
      case MissingChanges =>
      case ChangeItem(c) =>
        assert !HasLead(p.db.leads, ids(p.inserts));
        match ProcessChange(p.db, c, graph, ids(p.inserts), now)
        case Skipped =>
          NothingBrokeMeansProcessed(p, items[1..], graph, ids, now);
        case Threw =>
        case Inserted(row) =>
          var next := Progress(p.db.(leads := p.db.leads + [row]), p.inserts + 1, false);
          forall n | next.inserts <= n < next.inserts + |items[1..]| ensures !HasLead(next.db.leads, ids(n)) {
            assert ids(p.inserts) != ids(n);
          }
          NothingBrokeMeansProcessed(next, items[1..], graph, ids, now);
    }
  }

  // ---------------------------------------------------------------------
  // Which changes become leads

  /** A leadgen change whose page (and form) has a connection. */
  predicate Processable(conns: seq<FacebookConnection>, c: Change) {
    IsLeadgen(c) && c.value.Some? && ConnectionFor(conns, c.value.value).Some?
  }

  /** The leadgen ids of the processable changes, in delivery order. */
  function ExpectedLeadgenIds(conns: seq<FacebookConnection>, items: seq<Item>): seq<Option<string>>
    decreases |items|
  {
    if |items| == 0 then [] else ItemIds(conns, items[0]) + ExpectedLeadgenIds(conns, items[1..])
  }

  /** The leadgen id an item contributes: one for a processable change, none otherwise. */
  function ItemIds(conns: seq<FacebookConnection>, it: Item): seq<Option<string>> {
    match it
    case ChangeItem(c) => if Processable(conns, c) then [c.value.value.leadgenId] else []
    case MissingChanges => []
  }

  function LeadgenIdsOf(leads: seq<Lead>): seq<Option<string>> {
    seq(|leads|, i requires 0 <= i < |leads| => leads[i].facebookLeadId)
  }

  lemma {:induction false} ProcessItemsInsertsExpected(p: Progress, items: seq<Item>, graph: Graph,
                                                       ids: nat -> Id, now: Time)
    requires !ProcessItems(p, items, graph, ids, now).failed
    ensures var r := ProcessItems(p, items, graph, ids, now);
            LeadgenIdsOf(r.db.leads) == LeadgenIdsOf(p.db.leads) + ExpectedLeadgenIds(p.db.facebookConnections, items)
    decreases |items|
  {
    if |items| > 0 {
      var conns := p.db.facebookConnections;
      match items[0]
      case MissingChanges =>
      case ChangeItem(c) =>
        match ProcessChange(p.db, c, graph, ids(p.inserts), now)
        case Skipped =>
          ProcessItemsInsertsExpected(p, items[1..], graph, ids, now);
        case Threw =>
        case Inserted(row) =>
          var next := Progress(p.db.(leads := p.db.leads + [row]), p.inserts + 1, false);
          ProcessItemsInsertsExpected(next, items[1..], graph, ids, now);
          LeadgenIdsAppend(p.db.leads, row);
    }
  }

  /** The item the loop stopped at throws on the table as it stood then:
      it always throws, or its lead would take a key already in use. */
  predicate ThrowsAt(conns: seq<FacebookConnection>, graph: Graph, leads: seq<Lead>, id: Id, it: Item) {
    ItemBreaks(conns, graph, it) || (it.ChangeItem? && Processable(conns, it.change) && HasLead(leads, id))
  }

  /** Item `j` is the first to throw, on the table `leads` with next key `id`,
      and the leadgen ids stored are `before` followed by those of the
      processable changes ahead of it. */
  predicate StopsAt(conns: seq<FacebookConnection>, graph: Graph, before: seq<Option<string>>,
                    leads: seq<Lead>, id: Id, items: seq<Item>, j: nat) {
    && j < |items|
    && (forall i :: 0 <= i < j ==> !ItemBreaks(conns, graph, items[i]))
    && ThrowsAt(conns, graph, leads, id, items[j])
    && LeadgenIdsOf(leads) == before + ExpectedLeadgenIds(conns, items[..j])
  }

  /** Some item is the first to throw, in the sense of StopsAt. */
  predicate StopsSomewhere(conns: seq<FacebookConnection>, graph: Graph, before: seq<Option<string>>,
                           leads: seq<Lead>, id: Id, items: seq<Item>) {
    exists j: nat | j < |items| :: StopsAt(conns, graph, before, leads, id, items, j)
  }

  /** A loop that throws keeps what it inserted before: the leads of the
      processable changes ahead of the first item that throws, in order. */
  lemma {:induction false} ProcessItemsStopsAtFirstThrow(p: Progress, items: seq<Item>, graph: Graph,
                                                         ids: nat -> Id, now: Time)
    requires !p.failed
    requires ProcessItems(p, items, graph, ids, now).failed
    ensures var r := ProcessItems(p, items, graph, ids, now);
            exists j :: StopsAt(p.db.facebookConnections, graph, LeadgenIdsOf(p.db.leads), r.db.leads, ids(r.inserts), items, j)
    decreases |items|
  {
    var conns := p.db.facebookConnections;
    var r := ProcessItems(p, items, graph, ids, now);
    if HeadThrows(p, items, graph, ids, now) {
      HeadThrowsStops(p, items, graph, ids, now);
      StopsAtHead(conns, graph, r.db.leads, ids(r.inserts), items);
    } else {
      var q := Advance(p, items, graph, ids, now);
      AdvanceStep(p, items, graph, ids, now);
      ProcessItemsStopsAtFirstThrow(q, items[1..], graph, ids, now);
      var j :| StopsAt(conns, graph, LeadgenIdsOf(q.db.leads), r.db.leads, ids(r.inserts), items[1..], j);
      StopsAtCons(conns, graph, LeadgenIdsOf(p.db.leads), ItemIds(conns, items[0]), r.db.leads, ids(r.inserts), items, j);
    }
  }

  /** The first item throws: the entry has no `changes`, or its change throws. */
  predicate HeadThrows(p: Progress, items: seq<Item>, graph: Graph, ids: nat -> Id, now: Time)
    requires |items| > 0
  {
    items[0].MissingChanges? || ProcessChange(p.db, items[0].change, graph, ids(p.inserts), now).Threw?
  }

  /** The progress after a first item that does not throw. */
  function Advance(p: Progress, items: seq<Item>, graph: Graph, ids: nat -> Id, now: Time): Progress
    requires |items| > 0 && !HeadThrows(p, items, graph, ids, now)
  {
    match ProcessChange(p.db, items[0].change, graph, ids(p.inserts), now)
    case Inserted(row) => Progress(p.db.(leads := p.db.leads + [row]), p.inserts + 1, false)
    case _ => p
  }

  lemma HeadThrowsStops(p: Progress, items: seq<Item>, graph: Graph, ids: nat -> Id, now: Time)
    requires !p.failed && |items| > 0 && HeadThrows(p, items, graph, ids, now)
    ensures ProcessItems(p, items, graph, ids, now) == p.(failed := true)
    ensures ThrowsAt(p.db.facebookConnections, graph, p.db.leads, ids(p.inserts), items[0])
  {
  }

  lemma AdvanceStep(p: Progress, items: seq<Item>, graph: Graph, ids: nat -> Id, now: Time)
    requires !p.failed && |items| > 0 && !HeadThrows(p, items, graph, ids, now)
    ensures var q := Advance(p, items, graph, ids, now);
            && !q.failed && q.db.facebookConnections == p.db.facebookConnections
            && ProcessItems(p, items, graph, ids, now) == ProcessItems(q, items[1..], graph, ids, now)
            && !ItemBreaks(p.db.facebookConnections, graph, items[0])
            && LeadgenIdsOf(q.db.leads) == LeadgenIdsOf(p.db.leads) + ItemIds(p.db.facebookConnections, items[0])
  {
    match ProcessChange(p.db, items[0].change, graph, ids(p.inserts), now)
    case Inserted(row) => LeadgenIdsAppend(p.db.leads, row);
    case Skipped =>
  }

  /** A loop that throws at its first item has inserted nothing. */
  lemma StopsAtHead(conns: seq<FacebookConnection>, graph: Graph, leads: seq<Lead>, id: Id, items: seq<Item>)
    requires |items| > 0 && ThrowsAt(conns, graph, leads, id, items[0])
    ensures StopsAt(conns, graph, LeadgenIdsOf(leads), leads, id, items, 0)
  {
    assert items[..0] == [];
  }

  lemma LeadgenIdsAppend(leads: seq<Lead>, row: Lead)
    ensures LeadgenIdsOf(leads + [row]) == LeadgenIdsOf(leads) + [row.facebookLeadId]
  {
  }

  /** A stop in the tail is a stop of the whole, one item later, when the
      first item does not always throw and contributes `head`. */
  lemma StopsAtCons(conns: seq<FacebookConnection>, graph: Graph, before: seq<Option<string>>, head: seq<Option<string>>,
                    leads: seq<Lead>, id: Id, items: seq<Item>, j: nat)
    requires |items| > 0 && !ItemBreaks(conns, graph, items[0]) && head == ItemIds(conns, items[0])
    requires StopsAt(conns, graph, before + head, leads, id, items[1..], j)
    ensures StopsAt(conns, graph, before, leads, id, items, j + 1)
  {
    assert items[..j + 1][1..] == items[1..][..j];
    assert forall i :: 1 <= i < j + 1 ==> items[i] == items[1..][i - 1];
  }

  /** A delivery answered with 'EVENT_RECEIVED' inserted exactly one lead per
      processable leadgen change, in order, and nothing for any other change. */
  lemma ReceiveInsertsOnePerLeadgen(db: Db, d: Delivery, graph: Graph, ids: nat -> Id, now: Time)
    requires Receive(db, d, graph, ids, now).reply.EventReceived?
    ensures var s := Receive(db, d, graph, ids, now);
            LeadgenIdsOf(s.db.leads) == LeadgenIdsOf(db.leads) + ExpectedLeadgenIds(db.facebookConnections, Items(d.entry.value))
  {
    ProcessItemsInsertsExpected(Progress(db, 0, false), Items(d.entry.value), graph, ids, now);
  }

  /** A delivery answered 500 keeps the leads inserted before the first
      item that threw: the leadgen ids stored are the old ones followed by
      those of the processable changes ahead of that item. */
  lemma ReceiveFailureKeepsEarlierRows(db: Db, d: Delivery, graph: Graph, ids: nat -> Id, now: Time)
    requires d.objectType == Some("page") && d.entry.Some?
    requires Receive(db, d, graph, ids, now).reply == InternalError
    ensures var s := Receive(db, d, graph, ids, now);
            && |db.leads| <= |s.db.leads|
            && StopsSomewhere(db.facebookConnections, graph, LeadgenIdsOf(db.leads), s.db.leads,
                              ids(|s.db.leads| - |db.leads|), Items(d.entry.value))
  {
    var items := Items(d.entry.value);
    var r := ProcessItems(Progress(db, 0, false), items, graph, ids, now);
    assert r.failed && Receive(db, d, graph, ids, now).db == r.db;
    assert r.inserts == |r.db.leads| - |db.leads|;
    ProcessItemsStopsAtFirstThrow(Progress(db, 0, false), items, graph, ids, now);
    var j :| StopsAt(db.facebookConnections, graph, LeadgenIdsOf(db.leads), r.db.leads, ids(r.inserts), items, j);
  }

  /** A page delivery with entries is answered 200 when none of its items
      always throws and the generated keys are fresh. */
  lemma ReceiveAcknowledged(db: Db, d: Delivery, graph: Graph, ids: nat -> Id, now: Time)
    requires d.objectType == Some("page") && d.entry.Some?
    requires forall i :: 0 <= i < |Items(d.entry.value)| ==> !ItemBreaks(db.facebookConnections, graph, Items(d.entry.value)[i])
    requires forall n :: 0 <= n < |Items(d.entry.value)| ==> !HasLead(db.leads, ids(n))
    requires forall n, m :: 0 <= n < m < |Items(d.entry.value)| ==> ids(n) != ids(m)
    ensures Receive(db, d, graph, ids, now).reply == EventReceived
  {
    NothingBrokeMeansProcessed(Progress(db, 0, false), Items(d.entry.value), graph, ids, now);
  }
}
