/** `/api/integrations`: the provider settings rows, listed by type and saved
    by an upsert keyed on the type (server/src/routes/integrations.js). The
    `type` column is NOT NULL; nothing else constrains it, so several rows
    may share a type. */
module Integrations {
  import opened Wrappers
  import opened Schema
  import Seqs
  import Sorting

  datatype IntegrationInput = IntegrationInput(
    kind: Option<string>,
    config: Option<Config>,
    status: Option<string>)

  datatype Reply =
    | Listed(rows: seq<Integration>)
    | Saved(row: Integration)
    | ServerError
  {
    function Status(): nat {
      match this
      case ServerError => 500
      case _ => 200
    }
  }

  predicate TypeAsc(a: Integration, b: Integration) {
    Sorting.TextAscNullsLast(a.kind, b.kind)
  }

  /** `GET /`: every row, ordered by type. */
  function List(db: Db): (r: Reply)
    ensures r.Listed?
    ensures Sorting.SortedBy(r.rows, TypeAsc)
    ensures multiset(r.rows) == multiset(db.integrations)
  {
    Sorting.TextAscNullsLastIsPreorder((i: Integration) => i.kind, TypeAsc);
    Listed(Sorting.Sort(db.integrations, TypeAsc))
  }

  /** The rows `WHERE type = $1` selects. */
  predicate OfType(i: Integration, kind: Option<string>) {
    SqlEq(i.kind, kind)
  }

  function Overwrite(i: Integration, input: IntegrationInput, now: Time): Integration {
    i.(config := input.config, status := input.status, updatedAt := Some(now))
  }

  /** `POST /`: when rows of the type exist, all of them get the new config and
      status; otherwise one row is inserted (its `updated_at` defaults to the
      insertion time). A NULL type matches no row and violates NOT NULL. */
  function Save(db: Db, input: IntegrationInput, now: Time): (s: Step<Reply>)
    ensures s.db == db.(integrations := s.db.integrations)
    ensures input.kind.None? ==> s.reply.ServerError? && s.db == db
    ensures input.kind.Some? ==> s.reply.Saved?
    ensures Seqs.Exists(db.integrations, (i: Integration) => OfType(i, input.kind)) ==>
              && |s.db.integrations| == |db.integrations|
              && (forall k :: 0 <= k < |db.integrations| ==>
                    s.db.integrations[k] ==
                      if OfType(db.integrations[k], input.kind) then Overwrite(db.integrations[k], input, now)
                      else db.integrations[k])
              && s.reply.Saved? && s.reply.row in s.db.integrations
              && s.reply.row.kind == input.kind && s.reply.row.config == input.config
              && s.reply.row.status == input.status
    ensures !Seqs.Exists(db.integrations, (i: Integration) => OfType(i, input.kind)) && input.kind.Some? ==>
              var row := Integration(input.kind, input.config, input.status, Some(now));
              s.db.integrations == db.integrations + [row] && s.reply == Saved(row)
  {
    var existing := Seqs.Find(db.integrations, (i: Integration) => OfType(i, input.kind));
    match existing
    case Some(first) =>
      var rows := Seqs.Update(db.integrations, (i: Integration) => OfType(i, input.kind),
                              (i: Integration) => Overwrite(i, input, now));
      var k :| 0 <= k < |db.integrations| && db.integrations[k] == first && OfType(first, input.kind);
      Step(db.(integrations := rows), Saved(rows[k]))
    case None =>
      if input.kind.None? then Step(db, ServerError)
      else
        var row := Integration(input.kind, input.config, input.status, Some(now));
        Step(db.(integrations := db.integrations + [row]), Saved(row))
  }

  function CountOfType(rows: seq<Integration>, kind: Option<string>): nat {
    Seqs.Count(rows, (i: Integration) => i.kind == kind)
  }

  /** A save never changes how many rows any other type has, and the saved
      type ends with exactly as many rows as before, or one if it had none. */
  lemma SaveCountPerType(db: Db, input: IntegrationInput, now: Time, kind: Option<string>)
    ensures var after := Save(db, input, now).db.integrations;
            CountOfType(after, kind) ==
              if kind == input.kind && kind.Some? && CountOfType(db.integrations, kind) == 0 then 1
              else CountOfType(db.integrations, kind)
  {
    if Seqs.Exists(db.integrations, (i: Integration) => OfType(i, input.kind)) {
      SaveCountExisting(db, input, now, kind);
    } else if input.kind.Some? {
      SaveCountInserted(db, input, now, kind);
    }
  }

  lemma SaveCountExisting(db: Db, input: IntegrationInput, now: Time, kind: Option<string>)
    requires Seqs.Exists(db.integrations, (i: Integration) => OfType(i, input.kind))
    ensures CountOfType(Save(db, input, now).db.integrations, kind) == CountOfType(db.integrations, kind)
    ensures kind == input.kind ==> CountOfType(db.integrations, kind) > 0
  {
    var p := (i: Integration) => OfType(i, input.kind);
    var q := (i: Integration) => i.kind == kind;
    var f := (i: Integration) => Overwrite(i, input, now);
    Seqs.CountUpdate(db.integrations, p, f, q);
    assert Save(db, input, now).db.integrations == Seqs.Update(db.integrations, p, f);
    if kind == input.kind {
      var k :| 0 <= k < |db.integrations| && p(db.integrations[k]);
      Seqs.CountPositive(db.integrations, q, k);
    }
  }

  lemma SaveCountInserted(db: Db, input: IntegrationInput, now: Time, kind: Option<string>)
    requires !Seqs.Exists(db.integrations, (i: Integration) => OfType(i, input.kind)) && input.kind.Some?
    ensures CountOfType(Save(db, input, now).db.integrations, kind) ==
              CountOfType(db.integrations, kind) + (if kind == input.kind then 1 else 0)
    ensures kind == input.kind ==> CountOfType(db.integrations, kind) == 0
  {
    var q := (i: Integration) => i.kind == kind;
    var row := Integration(input.kind, input.config, input.status, Some(now));
    Seqs.CountAppend(db.integrations, row, q);
    if kind == input.kind {
      Seqs.CountNone(db.integrations, q);
    }
  }

  /** Saving the same settings twice is the same as saving them once, apart
      from the timestamp. */
  lemma SaveIdempotent(db: Db, input: IntegrationInput, now: Time)
    ensures var once := Save(db, input, now);
            var twice := Save(once.db, input, now);
            twice.db == once.db && twice.reply.Status() == once.reply.Status()
  {
    if input.kind.Some? {
      var rows := Save(db, input, now).db.integrations;
      SavedRowsCarryInput(db, input, now);
      Seqs.UpdateFixed(rows, (i: Integration) => OfType(i, input.kind), (i: Integration) => Overwrite(i, input, now));
    }
  }

  /** After a save of a non-NULL type, rows of that type exist and already
      carry the saved settings. */
  lemma SavedRowsCarryInput(db: Db, input: IntegrationInput, now: Time)
    requires input.kind.Some?
    ensures var rows := Save(db, input, now).db.integrations;
            && Seqs.Exists(rows, (i: Integration) => OfType(i, input.kind))
            && forall k :: 0 <= k < |rows| && OfType(rows[k], input.kind) ==> Overwrite(rows[k], input, now) == rows[k]
  {
    var rows := Save(db, input, now).db.integrations;
    if Seqs.Exists(db.integrations, (i: Integration) => OfType(i, input.kind)) {
      var k :| 0 <= k < |db.integrations| && OfType(db.integrations[k], input.kind);
      assert OfType(rows[k], input.kind);
    } else {
      assert OfType(rows[|db.integrations|], input.kind);
    }
  }
}
