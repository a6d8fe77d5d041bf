/** `/api/round-robin`: the settings singleton (row 1 of
    `round_robin_settings`), created on first read (server/src/routes/round-robin.js). */
module RoundRobin {
  import opened Wrappers
  import opened Schema

  datatype SettingsInput = SettingsInput(isActive: Option<bool>, includedUserIds: Option<seq<Id>>)

  /** `Settings(None)` is the empty body `res.json(undefined)` sends when the
      UPDATE matched no row. */
  datatype Reply = Settings(row: Option<RoundRobinSettings>)

  /** The row `INSERT ... (id, is_active) VALUES (1, false)` creates. */
  const Initial := RoundRobinSettings(Some(false), None, None, None)

  /** `GET /`: returns row 1, inserting it first when absent. */
  function Get(db: Db): (s: Step<Reply>)
    ensures s.db == db.(roundRobin := s.db.roundRobin)
    ensures s.db.roundRobin.Some? && s.reply == Settings(s.db.roundRobin)
    ensures db.roundRobin.Some? ==> s.db == db
    ensures db.roundRobin.None? ==> s.db.roundRobin == Some(Initial) && Initial.isActive == Some(false)
  {
    match db.roundRobin
    case Some(row) => Step(db, Settings(Some(row)))
    case None => Step(db.(roundRobin := Some(Initial)), Settings(Some(Initial)))
  }

  /** `PUT /`: overwrites the two settings on row 1, never creating it. */
  function Put(db: Db, input: SettingsInput, now: Time): (s: Step<Reply>)
    ensures s.db == db.(roundRobin := s.db.roundRobin)
    ensures db.roundRobin.None? ==> s.db == db && s.reply == Settings(None)
    ensures db.roundRobin.Some? ==> s.db.roundRobin.Some? && s.reply == Settings(s.db.roundRobin)
    ensures db.roundRobin.Some? && s.db.roundRobin.Some? ==>
              var row := s.db.roundRobin.value;
              && row.isActive == input.isActive && row.includedUserIds == input.includedUserIds
              && row.updatedAt == Some(now)
              && row.lastAssignedUserId == db.roundRobin.value.lastAssignedUserId
  {
    match db.roundRobin
    case None => Step(db, Settings(None))
    case Some(row) =>
      var updated := row.(isActive := input.isActive, includedUserIds := input.includedUserIds,
                          updatedAt := Some(now));
      Step(db.(roundRobin := Some(updated)), Settings(Some(updated)))
  }

  /** Reading twice is reading once: the second GET changes nothing and
      answers the same row. */
  lemma GetIdempotent(db: Db)
    ensures Get(Get(db).db) == Get(db)
  {
  }

  /** A PUT after a GET always lands: the settings read back are the ones written. */
  lemma PutAfterGetTakesEffect(db: Db, input: SettingsInput, now: Time)
    ensures var s := Put(Get(db).db, input, now);
            var r := Get(s.db).reply.row.value;
            r.isActive == input.isActive && r.includedUserIds == input.includedUserIds
  {
  }
}
