/** `/api/leads`: list, get, create, update and delete over the `leads` table
    (server/src/routes/leads.js). */
module Leads {
  import opened Wrappers
  import opened Js
  import opened Schema
  import Seqs
  import Sorting

  /** The fields a create or update request body carries. */
  datatype LeadInput = LeadInput(
    name: Option<string>,
    email: Option<string>,
    phone: Option<string>,
    source: Option<string>,
    status: Option<string>)

  datatype Reply =
    | Listed(rows: seq<Lead>)
    | Found(row: Lead)
    | Created(row: Lead)
    | Updated(row: Lead)
    | Deleted
    | NotFound
    | ServerError
  {
    function Status(): nat {
      match this
      case Created(_) => 201
      case NotFound => 404
      case ServerError => 500
      case _ => 200
    }
  }

  /** A freshly inserted lead: the given columns, every other column NULL. */
  function NewLead(id: Id, name: Option<string>, email: Option<string>, phone: Option<string>,
                   source: Option<string>, status: Option<string>, assignedTo: Option<Id>,
                   now: Time): Lead
  {
    Lead(id, name, email, phone, source, status, assignedTo,
         None, None, None, None, None, now, None)
  }

  predicate NewestFirst(a: Lead, b: Lead) {
    a.createdAt >= b.createdAt
  }

  /** `GET /`: every lead, newest first. */
  function List(db: Db): (r: Reply)
    ensures r.Listed?
    ensures Sorting.SortedBy(r.rows, NewestFirst)
    ensures multiset(r.rows) == multiset(db.leads)
  {
    Sorting.IntDescIsPreorder((l: Lead) => l.createdAt, NewestFirst);
    Listed(Sorting.Sort(db.leads, NewestFirst))
  }

  /** `GET /:id`. `leads.id` is a `uuid` column, so an id that is not UUID
      text fails the query and is answered with 500. */
  function Get(db: Db, id: Id): (r: Reply)
    ensures r.ServerError? <==> !UuidText(id)
    ensures r.NotFound? <==> UuidText(id) && !HasLead(db.leads, id)
    ensures r.ServerError? || r.NotFound? || (r.Found? && r.row in db.leads && r.row.id == id)
  {
    if !UuidText(id) then ServerError
    else
      match Seqs.Find(db.leads, (l: Lead) => l.id == id)
      case None => NotFound
      case Some(l) => Found(l)
  }

  /** `POST /`: insert with the caller as assignee and 'New' as the default
      status. `newId` is the key the database generates; a key already in use
      is a primary-key violation, answered with 500. */
  function Create(db: Db, user: Id, input: LeadInput, newId: Id, now: Time): (s: Step<Reply>)
    ensures s.reply.ServerError? <==> HasLead(db.leads, newId)
    ensures s.reply.ServerError? ==> s.db == db
    ensures s.reply.Created? ==> s.db == db.(leads := db.leads + [s.reply.row])
    ensures s.reply.Created? ==> s.reply.Status() == 201
    ensures s.reply.Created? ==>
              var row := s.reply.row;
              && row.id == newId && row.assignedTo == Some(user) && row.createdAt == now
              && row.name == input.name && row.email == input.email && row.phone == input.phone
              && row.source == input.source
              && (Truthy(input.status) ==> row.status == input.status)
              && (!Truthy(input.status) ==> row.status == Some("New"))
  {
    if HasLead(db.leads, newId) then Step(db, ServerError)
    else
      var row := NewLead(newId, input.name, input.email, input.phone, input.source,
                         Or(input.status, Some("New")), Some(user), now);
      Step(db.(leads := db.leads + [row]), Created(row))
  }

  /** The row an update leaves behind: all five fields overwritten, even by NULL. */
  function Overwrite(l: Lead, input: LeadInput, now: Time): Lead {
    l.(name := input.name, email := input.email, phone := input.phone,
       source := input.source, status := input.status, updatedAt := Some(now))
  }

  /** `PUT /:id`: 500 with no change for an id that is not UUID text. */
  function Update(db: Db, id: Id, input: LeadInput, now: Time): (s: Step<Reply>)
    ensures s.reply.ServerError? <==> !UuidText(id)
    ensures s.reply.NotFound? <==> UuidText(id) && !HasLead(db.leads, id)
    ensures s.reply.ServerError? || s.reply.NotFound? ==> s.db == db
    ensures s.db == db.(leads := s.db.leads)
    ensures |s.db.leads| == |db.leads|
    ensures forall i :: 0 <= i < |db.leads| && db.leads[i].id != id ==> s.db.leads[i] == db.leads[i]
    ensures forall i :: UuidText(id) && 0 <= i < |db.leads| && db.leads[i].id == id ==>
              var l := s.db.leads[i];
              && l.name == input.name && l.email == input.email && l.phone == input.phone
              && l.source == input.source && l.status == input.status
              && l.updatedAt == Some(now)
              && l == db.leads[i].(name := l.name, email := l.email, phone := l.phone,
                                   source := l.source, status := l.status, updatedAt := l.updatedAt)
    ensures s.reply.Updated? ==> s.reply.row in s.db.leads && s.reply.row.id == id
    ensures s.reply.ServerError? || s.reply.NotFound? || s.reply.Updated?
  {
    if !UuidText(id) then Step(db, ServerError)
    else
      var leads := Seqs.Update(db.leads, (l: Lead) => l.id == id, (l: Lead) => Overwrite(l, input, now));
      match Seqs.Find(db.leads, (l: Lead) => l.id == id)
      case None =>
        assert leads == db.leads;
        Step(db, NotFound)
      case Some(prev) =>
        var i :| 0 <= i < |db.leads| && db.leads[i] == prev && prev.id == id;
        assert leads[i] == Overwrite(prev, input, now);
        Step(db.(leads := leads), Updated(Overwrite(prev, input, now)))
  }

  /** `ON DELETE SET NULL` on `messages.lead_id`: the messages that named
      the lead lose their link, and nothing else about any message changes. */
  function DetachMessages(messages: seq<Message>, id: Id): (r: seq<Message>)
    ensures |r| == |messages|
    ensures forall i :: 0 <= i < |r| ==> r[i].leadId != Some(id)
    ensures forall i :: 0 <= i < |messages| ==>
              r[i] == messages[i].(leadId := r[i].leadId)
              && (messages[i].leadId != Some(id) ==> r[i] == messages[i])
  {
    Seqs.Update(messages, (m: Message) => m.leadId == Some(id), (m: Message) => m.(leadId := None))
  }

  /** `DELETE /:id`: the rows with the id go, and the messages that named
      the lead lose their `lead_id`. 500 with no change for an id that is not
      UUID text. */
  function Delete(db: Db, id: Id): (s: Step<Reply>)
    ensures s.reply.ServerError? <==> !UuidText(id)
    ensures s.reply.NotFound? <==> UuidText(id) && !HasLead(db.leads, id)
    ensures s.reply.ServerError? || s.reply.NotFound? ==> s.db == db
    ensures s.reply.ServerError? || s.reply.NotFound? || s.reply.Deleted?
    ensures s.db == db.(leads := s.db.leads, messages := s.db.messages)
    ensures s.reply.Deleted? ==> forall l :: l in s.db.leads <==> l in db.leads && l.id != id
    ensures Seqs.IsSubsequence(s.db.leads, db.leads)
    ensures |s.db.messages| == |db.messages|
    ensures s.reply.Deleted? ==> forall i :: 0 <= i < |s.db.messages| ==> s.db.messages[i].leadId != Some(id)
    ensures forall i :: 0 <= i < |db.messages| ==>
              s.db.messages[i] == db.messages[i].(leadId := s.db.messages[i].leadId)
              && (db.messages[i].leadId != Some(id) ==> s.db.messages[i] == db.messages[i])
  {
    var rest := Seqs.Filter(db.leads, (l: Lead) => l.id != id);
    forall l ensures l in rest <==> l in db.leads && l.id != id {
      Seqs.FilterMembership(db.leads, (l: Lead) => l.id != id, l);
    }
    Seqs.SubsequenceRefl(db.leads);
    if UuidText(id) && HasLead(db.leads, id) then
      Step(db.(leads := rest, messages := DetachMessages(db.messages, id)), Deleted)
    else if UuidText(id) then Step(db, NotFound)
    else Step(db, ServerError)
  }

  /** A lead just created is found under its new key. */
  lemma CreateThenGet(db: Db, user: Id, input: LeadInput, newId: Id, now: Time)
    requires KeysUnique(db)
    requires UuidText(newId)
    requires Create(db, user, input, newId, now).reply.Created?
    ensures var s := Create(db, user, input, newId, now);
            Get(s.db, newId) == Found(s.reply.row)
  {
    var s := Create(db, user, input, newId, now);
    var leads := s.db.leads;
    assert leads[|leads| - 1].id == newId;
    var g := Get(s.db, newId);
    assert g.Found?;
    var j :| 0 <= j < |leads| && leads[j] == g.row && forall k :: 0 <= k < j ==> leads[k].id != newId;
    assert j == |leads| - 1;
  }

  /** Once deleted, a lead is no longer found. */
  lemma DeleteThenGet(db: Db, id: Id)
    requires UuidText(id)
    ensures Get(Delete(db, id).db, id) == NotFound
  {
  }

  /** An id that is not UUID text fails every keyed handler with 500 and
      changes nothing, whether or not some row happens to carry it. */
  lemma MalformedIdFails(db: Db, input: LeadInput, now: Time)
    ensures Get(db, "abc") == ServerError
    ensures Update(db, "abc", input, now) == Step(db, ServerError)
    ensures Delete(db, "abc") == Step(db, ServerError)
  {
    assert !HexGroups("abc", 8);
  }

  /** Deleting a lead keeps the `messages.lead_id` foreign key intact: no
      message is left naming the deleted lead. */
  lemma DeleteKeepsMessageLinks(db: Db, id: Id)
    requires MessagesReferToLeads(db)
    ensures MessagesReferToLeads(Delete(db, id).db)
  {
    var s := Delete(db, id);
    if s.reply.Deleted? {
      forall i | 0 <= i < |s.db.messages| && s.db.messages[i].leadId.Some?
        ensures HasLead(s.db.leads, s.db.messages[i].leadId.value)
      {
        var x := s.db.messages[i].leadId.value;
        assert db.messages[i].leadId == Some(x);
        var j :| 0 <= j < |db.leads| && db.leads[j].id == x;
        assert db.leads[j] in s.db.leads;
      }
    }
  }

  /** Under unique keys, a successful delete removes exactly one row. */
  lemma DeleteRemovesOne(db: Db, id: Id)
    requires KeysUnique(db)
    requires UuidText(id)
    requires HasLead(db.leads, id)
    ensures |Delete(db, id).db.leads| == |db.leads| - 1
  {
    DeleteOneOfUnique(db.leads, (l: Lead) => l.id, id, (l: Lead) => l.id != id);
  }

  /** Every handler keeps the primary keys unique. */
  lemma HandlersKeepKeysUnique(db: Db, user: Id, input: LeadInput, id: Id, now: Time)
    requires KeysUnique(db)
    ensures KeysUnique(Create(db, user, input, id, now).db)
    ensures KeysUnique(Update(db, id, input, now).db)
    ensures KeysUnique(Delete(db, id).db)
  {
    var c := Create(db, user, input, id, now);
    if c.reply.Created? {
      AppendKeepsUnique(db.leads, (l: Lead) => l.id, c.reply.row);
    }
    UpdateKeepsUnique(db.leads, (l: Lead) => l.id, (l: Lead) => l.id == id,
                      (l: Lead) => Overwrite(l, input, now));
    FilterKeepsUnique(db.leads, (l: Lead) => l.id, (l: Lead) => l.id != id);
  }
}
