/** `/api/deals`: list and get joined with the lead's name, create, the
    dynamically built UPDATE, and delete (server/src/routes/deals.js). */
module Deals {
  import opened Wrappers
  import opened Js
  import opened Schema
  import Seqs
  import Sorting

  datatype DealInput = DealInput(
    leadId: Option<Id>,
    stage: Option<Scalar>,
    value: Option<Scalar>,
    probability: Option<Scalar>,
    expectedCloseDate: Option<Scalar>)

  /** A deal as listed: the row plus the joined lead's name (NULL when the
      LEFT JOIN finds no lead). */
  datatype DealView = DealView(deal: Deal, leadName: Option<string>)

  /** A single deal: the row plus the joined lead's name, email and phone. */
  datatype DealDetail = DealDetail(deal: Deal, leadName: Option<string>,
                                   leadEmail: Option<string>, leadPhone: Option<string>)

  datatype Reply =
    | Listed(rows: seq<DealView>)
    | Found(detail: DealDetail)
    | Created(row: Deal)
    | Updated(row: Deal)
    | Deleted
    | NotFound
    | ServerError
  {
    function Status(): nat {
      match this
      case Created(_) => 201
      case NotFound => 404
      case ServerError => 500
      case _ => 200
    }
  }

  /** The lead a deal points to, if the join finds one. */
  function LeadOf(db: Db, d: Deal): (r: Option<Lead>)
    ensures r.Some? ==> r.value in db.leads && SqlEq(Some(r.value.id), d.leadId)
    ensures r.None? ==> forall l :: l in db.leads ==> !SqlEq(Some(l.id), d.leadId)
  {
    Seqs.Find(db.leads, (l: Lead) => SqlEq(Some(l.id), d.leadId))
  }

  function View(db: Db, d: Deal): DealView {
    match LeadOf(db, d)
    case None => DealView(d, None)
    case Some(l) => DealView(d, l.name)
  }

  predicate NewestFirst(a: Deal, b: Deal) {
    a.createdAt >= b.createdAt
  }

  /** `GET /`: every deal, newest first, with its lead's name. */
  function List(db: Db): (r: Reply)
    ensures r.Listed?
    ensures |r.rows| == |db.deals|
    ensures Sorting.SortedBy(seq(|r.rows|, i requires 0 <= i < |r.rows| => r.rows[i].deal), NewestFirst)
    ensures multiset(seq(|r.rows|, i requires 0 <= i < |r.rows| => r.rows[i].deal)) == multiset(db.deals)
    ensures forall i :: 0 <= i < |r.rows| ==> r.rows[i] == View(db, r.rows[i].deal)
  {
    Sorting.IntDescIsPreorder((d: Deal) => d.createdAt, NewestFirst);
    var sorted := Sorting.Sort(db.deals, NewestFirst);
    assert |sorted| == |db.deals| by {
      assert |multiset(sorted)| == |multiset(db.deals)|;
    }
    var rows := seq(|sorted|, i requires 0 <= i < |sorted| => View(db, sorted[i]));
    assert seq(|rows|, i requires 0 <= i < |rows| => rows[i].deal) == sorted;
    Listed(rows)
  }

  /** `GET /:id`. */
  function Get(db: Db, id: Id): (r: Reply)
    ensures r.NotFound? <==> !HasDeal(db.deals, id)
    ensures !r.NotFound? ==> r.Found? && r.detail.deal in db.deals && r.detail.deal.id == id
    ensures r.Found? && LeadOf(db, r.detail.deal).Some? ==>
              var l := LeadOf(db, r.detail.deal).value;
              r.detail.leadName == l.name && r.detail.leadEmail == l.email && r.detail.leadPhone == l.phone
    ensures r.Found? && LeadOf(db, r.detail.deal).None? ==>
              r.detail.leadName.None? && r.detail.leadEmail.None? && r.detail.leadPhone.None?
  {
    match Seqs.Find(db.deals, (d: Deal) => d.id == id)
    case None => NotFound
    case Some(d) =>
      match LeadOf(db, d)
      case None => Found(DealDetail(d, None, None, None))
      case Some(l) => Found(DealDetail(d, l.name, l.email, l.phone))
  }

  /** `POST /`: insert with the caller as assignee and 'Prospecting' as the
      default stage; a key already in use is answered with 500. */
  function Create(db: Db, user: Id, input: DealInput, newId: Id, now: Time): (s: Step<Reply>)
    ensures s.reply.ServerError? <==> HasDeal(db.deals, newId)
    ensures s.reply.ServerError? ==> s.db == db
    ensures s.reply.Created? ==> s.db == db.(deals := db.deals + [s.reply.row])
    ensures s.reply.Created? ==>
              var row := s.reply.row;
              && row.id == newId && row.assignedTo == Some(user) && row.createdAt == now
              && row.leadId == input.leadId && row.value == input.value
              && row.probability == input.probability
              && row.expectedCloseDate == input.expectedCloseDate
              && (TruthyScalar(input.stage) ==> row.stage == input.stage)
              && (!TruthyScalar(input.stage) ==> row.stage == Some(Str("Prospecting")))
              && row.updatedAt.None?
  {
    if HasDeal(db.deals, newId) then Step(db, ServerError)
    else
      var row := Deal(newId, input.leadId, OrScalar(input.stage, Str("Prospecting")), input.value,
                      input.probability, input.expectedCloseDate, Some(user), now, None);
      Step(db.(deals := db.deals + [row]), Created(row))
  }

  // ---------------------------------------------------------------------
  // The dynamic UPDATE of `PUT /:id`.

  datatype Column = Stage | Value | Probability | ExpectedCloseDate

  /** `, <column> = $<placeholder>` in the SET list. */
  datatype Assignment = Assignment(column: Column, placeholder: nat)

  /** `UPDATE deals SET updated_at = NOW(), <sets> WHERE id = $<idPlaceholder>`
      with positional parameters `params` ($1 is `params[0]`). */
  datatype UpdateQuery = UpdateQuery(sets: seq<Assignment>, idPlaceholder: nat, params: seq<Scalar>)

  /** The body fields in the order the handler tests them. */
  function Supplied(input: DealInput): seq<(Column, Option<Scalar>)> {
    [(Stage, input.stage), (Value, input.value), (Probability, input.probability),
     (ExpectedCloseDate, input.expectedCloseDate)]
  }

  /** The body fields the handler adds to the SET list, in its order: those
      that are truthy, with their values. */
  function TruthyFields(fields: seq<(Column, Option<Scalar>)>): seq<(Column, Scalar)>
    decreases |fields|
  {
    if |fields| == 0 then []
    else if TruthyScalar(fields[0].1) then [(fields[0].0, fields[0].1.value)] + TruthyFields(fields[1..])
    else TruthyFields(fields[1..])
  }

  /** Appends one assignment per truthy field, numbering placeholders from `idx`
      (the handler's `$${idx++}`), and collects the values as parameters. */
  function Assign(fields: seq<(Column, Option<Scalar>)>, idx: nat): (r: (seq<Assignment>, seq<Scalar>))
    ensures |r.0| == |r.1| == |TruthyFields(fields)|
    ensures forall i :: 0 <= i < |r.0| ==>
              r.0[i] == Assignment(TruthyFields(fields)[i].0, idx + i) && r.1[i] == TruthyFields(fields)[i].1
    decreases |fields|
  {
    if |fields| == 0 then ([], [])
    else if TruthyScalar(fields[0].1) then
      var rest := Assign(fields[1..], idx + 1);
      ([Assignment(fields[0].0, idx)] + rest.0, [fields[0].1.value] + rest.1)
    else Assign(fields[1..], idx)
  }

  /** The query `PUT /:id` sends for deal `id`: placeholders `$1..$k` for the
      truthy fields in order, then `$(k+1)` for the id. */
  function BuildUpdate(id: Id, input: DealInput): (q: UpdateQuery)
    ensures |q.sets| == |TruthyFields(Supplied(input))| <= 4
    ensures |q.params| == |q.sets| + 1 && q.params[|q.sets|] == Str(id)
    ensures forall i :: 0 <= i < |q.sets| ==>
              && q.sets[i] == Assignment(TruthyFields(Supplied(input))[i].0, i + 1)
              && q.params[i] == TruthyFields(Supplied(input))[i].1
    ensures q.idPlaceholder == |q.sets| + 1
  {
    TruthyFieldsLength(Supplied(input));
    var (sets, params) := Assign(Supplied(input), 1);
    UpdateQuery(sets, |sets| + 1, params + [Str(id)])
  }

  lemma {:induction false} TruthyFieldsLength(fields: seq<(Column, Option<Scalar>)>)
    ensures |TruthyFields(fields)| <= |fields|
    decreases |fields|
  {
    if |fields| > 0 { TruthyFieldsLength(fields[1..]); }
  }

  function SetColumn(d: Deal, c: Column, v: Scalar): Deal {
    match c
    case Stage => d.(stage := Some(v))
    case Value => d.(value := Some(v))
    case Probability => d.(probability := Some(v))
    case ExpectedCloseDate => d.(expectedCloseDate := Some(v))
  }

  /** What the database does to one matching row for a SET list. */
  function ApplySets(d: Deal, sets: seq<Assignment>, params: seq<Scalar>): Deal
    decreases |sets|
  {
    if |sets| == 0 then d
    else if 1 <= sets[0].placeholder <= |params| then
      ApplySets(SetColumn(d, sets[0].column, params[sets[0].placeholder - 1]), sets[1..], params)
    else ApplySets(d, sets[1..], params)
  }

  /** The row `q` targets: the one whose id equals the id parameter. */
  predicate Targets(q: UpdateQuery, d: Deal) {
    1 <= q.idPlaceholder <= |q.params| && q.params[q.idPlaceholder - 1] == Str(d.id)
  }

  function Execute(d: Deal, q: UpdateQuery, now: Time): Deal {
    ApplySets(d, q.sets, q.params).(updatedAt := Some(now))
  }

  /** The intended meaning of the update, stated column by column: a field
      replaces the stored value exactly when it is truthy, so `0`, `''` and
      omitted fields leave the column alone; `updated_at` is always set. */
  function Merge(d: Deal, input: DealInput, now: Time): Deal {
    d.(stage := if TruthyScalar(input.stage) then input.stage else d.stage,
       value := if TruthyScalar(input.value) then input.value else d.value,
       probability := if TruthyScalar(input.probability) then input.probability else d.probability,
       expectedCloseDate := if TruthyScalar(input.expectedCloseDate) then input.expectedCloseDate
                            else d.expectedCloseDate,
       updatedAt := Some(now))
  }

  /** Setting each truthy field in order. */
  function ApplyFields(d: Deal, fields: seq<(Column, Option<Scalar>)>): Deal
    decreases |fields|
  {
    if |fields| == 0 then d
    else if TruthyScalar(fields[0].1) then ApplyFields(SetColumn(d, fields[0].0, fields[0].1.value), fields[1..])
    else ApplyFields(d, fields[1..])
  }

  /** A SET list numbered from `offset + 1` over the truthy fields sets exactly those fields. */
  lemma {:induction false} ApplyNumbered(d: Deal, fields: seq<(Column, Option<Scalar>)>,
                                         sets: seq<Assignment>, params: seq<Scalar>, offset: nat)
    requires |sets| == |TruthyFields(fields)| && |sets| + offset <= |params|
    requires forall i :: 0 <= i < |sets| ==>
               sets[i] == Assignment(TruthyFields(fields)[i].0, offset + i + 1)
               && params[offset + i] == TruthyFields(fields)[i].1
    ensures ApplySets(d, sets, params) == ApplyFields(d, fields)
    decreases |fields|
  {
    if |fields| > 0 {
      if TruthyScalar(fields[0].1) {
        ApplyNumbered(SetColumn(d, fields[0].0, fields[0].1.value), fields[1..], sets[1..], params, offset + 1);
      } else {
        ApplyNumbered(d, fields[1..], sets, params, offset);
      }
    }
  }

  /** Running the built query on the row it targets gives the column-by-column merge. */
  lemma BuiltUpdateMeansMerge(d: Deal, input: DealInput, now: Time)
    ensures Targets(BuildUpdate(d.id, input), d)
    ensures Execute(d, BuildUpdate(d.id, input), now) == Merge(d, input, now)
  {
    var q := BuildUpdate(d.id, input);
    ApplyNumbered(d, Supplied(input), q.sets, q.params, 0);
    SuppliedFieldsMerge(d, input);
  }

  /** Setting the truthy body fields one after the other is the column-wise merge. */
  lemma SuppliedFieldsMerge(d: Deal, input: DealInput)
    ensures ApplyFields(d, Supplied(input)) == Merge(d, input, 0).(updatedAt := d.updatedAt)
  {
    var f := Supplied(input);
    var d1 := if TruthyScalar(input.stage) then SetColumn(d, Stage, input.stage.value) else d;
    var d2 := if TruthyScalar(input.value) then SetColumn(d1, Value, input.value.value) else d1;
    var d3 := if TruthyScalar(input.probability) then SetColumn(d2, Probability, input.probability.value) else d2;
    var d4 := if TruthyScalar(input.expectedCloseDate)
              then SetColumn(d3, ExpectedCloseDate, input.expectedCloseDate.value) else d3;
    assert ApplyFields(d, f) == ApplyFields(d1, f[1..]);
    assert ApplyFields(d1, f[1..]) == ApplyFields(d2, f[2..]);
    assert ApplyFields(d2, f[2..]) == ApplyFields(d3, f[3..]);
    assert ApplyFields(d3, f[3..]) == ApplyFields(d4, f[4..]);
  }

  /** `PUT /:id`: the built query runs against every row it targets. */
  function Update(db: Db, id: Id, input: DealInput, now: Time): (s: Step<Reply>)
    ensures s.reply.NotFound? <==> !HasDeal(db.deals, id)
    ensures s.reply.NotFound? ==> s.db == db
    ensures s.reply.NotFound? || s.reply.Updated?
    ensures s.db == db.(deals := s.db.deals)
    ensures |s.db.deals| == |db.deals|
    ensures forall i :: 0 <= i < |db.deals| ==>
              s.db.deals[i] == if db.deals[i].id == id then Merge(db.deals[i], input, now) else db.deals[i]
    ensures s.reply.Updated? ==> s.reply.row in s.db.deals && s.reply.row.id == id
  {
    var q := BuildUpdate(id, input);
    var deals := Seqs.Update(db.deals, (d: Deal) => Targets(q, d), (d: Deal) => Execute(d, q, now));
    forall i | 0 <= i < |db.deals|
      ensures deals[i] == if db.deals[i].id == id then Merge(db.deals[i], input, now) else db.deals[i]
    {
      if db.deals[i].id == id { BuiltUpdateMeansMerge(db.deals[i], input, now); }
    }
    match Seqs.Find(db.deals, (d: Deal) => d.id == id)
    case None =>
      assert deals == db.deals;
      Step(db, NotFound)
    case Some(prev) =>
      var i :| 0 <= i < |db.deals| && db.deals[i] == prev && prev.id == id;
      Step(db.(deals := deals), Updated(deals[i]))
  }

  /** `DELETE /:id`. */
  function Delete(db: Db, id: Id): (s: Step<Reply>)
    ensures s.reply.NotFound? <==> !HasDeal(db.deals, id)
    ensures s.reply.NotFound? ==> s.db == db
    ensures s.reply.NotFound? || s.reply.Deleted?
    ensures s.db == db.(deals := s.db.deals)
    ensures forall d :: d in s.db.deals <==> d in db.deals && d.id != id
    ensures Seqs.IsSubsequence(s.db.deals, db.deals)
  {
    var rest := Seqs.Filter(db.deals, (d: Deal) => d.id != id);
    forall d ensures d in rest <==> d in db.deals && d.id != id {
      Seqs.FilterMembership(db.deals, (d: Deal) => d.id != id, d);
    }
    if HasDeal(db.deals, id) then Step(db.(deals := rest), Deleted)
    else
      Seqs.FilterAll(db.deals, (d: Deal) => d.id != id);
      Step(db, NotFound)
  }

  /** A deal just created is found under its new key, joined with its lead. */
  lemma CreateThenGet(db: Db, user: Id, input: DealInput, newId: Id, now: Time)
    requires KeysUnique(db)
    requires Create(db, user, input, newId, now).reply.Created?
    ensures var s := Create(db, user, input, newId, now);
            var g := Get(s.db, newId);
            && g.Found? && g.detail.deal == s.reply.row
            && (LeadOf(db, s.reply.row).None? ==>
                  g.detail.leadName.None? && g.detail.leadEmail.None? && g.detail.leadPhone.None?)
            && (LeadOf(db, s.reply.row).Some? ==>
                  var l := LeadOf(db, s.reply.row).value;
                  g.detail.leadName == l.name && g.detail.leadEmail == l.email && g.detail.leadPhone == l.phone)
  {
    var s := Create(db, user, input, newId, now);
    var deals := s.db.deals;
    assert deals[|deals| - 1].id == newId;
    var g := Get(s.db, newId);
    assert g.Found?;
    var j :| 0 <= j < |deals| && deals[j] == g.detail.deal && forall k :: 0 <= k < j ==> deals[k].id != newId;
    assert j == |deals| - 1;
    assert s.db.leads == db.leads;
  }

  /** Every handler keeps the primary keys unique. */
  lemma HandlersKeepKeysUnique(db: Db, user: Id, input: DealInput, id: Id, now: Time)
    requires KeysUnique(db)
    ensures KeysUnique(Create(db, user, input, id, now).db)
    ensures KeysUnique(Update(db, id, input, now).db)
    ensures KeysUnique(Delete(db, id).db)
  {
    var c := Create(db, user, input, id, now);
    if c.reply.Created? {
      AppendKeepsUnique(db.deals, (d: Deal) => d.id, c.reply.row);
    }
    var u := Update(db, id, input, now);
    assert UniqueBy(u.db.deals, (d: Deal) => d.id) by {
      assert forall i :: 0 <= i < |db.deals| ==> u.db.deals[i].id == db.deals[i].id;
    }
    FilterKeepsUnique(db.deals, (d: Deal) => d.id, (d: Deal) => d.id != id);
  }

  /** Under unique keys, a successful delete removes exactly one row. */
  lemma DeleteRemovesOne(db: Db, id: Id)
    requires KeysUnique(db)
    requires HasDeal(db.deals, id)
    ensures |Delete(db, id).db.deals| == |db.deals| - 1
  {
    DeleteOneOfUnique(db.deals, (d: Deal) => d.id, id, (d: Deal) => d.id != id);
  }

  /** An update with no truthy field still touches `updated_at` and nothing else. */
  lemma EmptyUpdateOnlyTouchesTimestamp(db: Db, id: Id, input: DealInput, now: Time)
    requires HasDeal(db.deals, id)
    requires !TruthyScalar(input.stage) && !TruthyScalar(input.value)
             && !TruthyScalar(input.probability) && !TruthyScalar(input.expectedCloseDate)
    ensures var s := Update(db, id, input, now);
            && BuildUpdate(id, input).sets == []
            && BuildUpdate(id, input).params == [Str(id)]
            && forall i :: 0 <= i < |db.deals| && db.deals[i].id == id ==>
                 s.db.deals[i] == db.deals[i].(updatedAt := Some(now))
  {
    var f := Supplied(input);
    assert TruthyFields(f) == TruthyFields(f[1..]) == TruthyFields(f[2..]) == TruthyFields(f[3..])
           == TruthyFields(f[4..]) == [];
  }
}
