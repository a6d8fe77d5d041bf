/** `/api/users`: the team list and the signed-in user's profile
    (server/src/routes/users.js). */
module Users {
  import opened Wrappers
  import opened Js
  import opened Schema
  import Seqs
  import Sorting

  /** The columns `GET /` selects. */
  datatype Summary = Summary(id: Id, fullName: Option<string>, email: Option<string>,
                             profilePicture: Option<string>)

  /** The columns `GET /profile` selects: the whole row but the password hash. */
  datatype Profile = Profile(id: Id, fullName: Option<string>, email: Option<string>,
                             profilePicture: Option<string>, phone: Option<string>,
                             role: Option<string>, whatsappInstanceId: Option<string>)

  /** The columns `PUT /profile` returns: no password hash and no
      WhatsApp instance. */
  datatype Updated = Updated(id: Id, email: Option<string>, fullName: Option<string>,
                             role: Option<string>, profilePicture: Option<string>, phone: Option<string>)

  datatype Reply =
    | Listed(rows: seq<Summary>)
    | Found(profile: Profile)
    | ProfileUpdated(user: Updated)
    | MissingFullName
    | NotFound
  {
    function Status(): nat {
      match this
      case MissingFullName => 400
      case NotFound => 404
      case _ => 200
    }
  }

  function SummaryOf(u: User): Summary {
    Summary(u.id, u.fullName, u.email, u.profilePicture)
  }

  /** Every user's summary, in table order. */
  function Summaries(users: seq<User>): seq<Summary> {
    seq(|users|, i requires 0 <= i < |users| => SummaryOf(users[i]))
  }

  function UpdatedOf(u: User): Updated {
    Updated(u.id, u.email, u.fullName, u.role, u.profilePicture, u.phone)
  }

  function ProfileOf(u: User): Profile {
    Profile(u.id, u.fullName, u.email, u.profilePicture, u.phone, u.role, u.whatsappInstanceId)
  }

  predicate NameAsc(a: Summary, b: Summary) {
    Sorting.TextAscNullsLast(a.fullName, b.fullName)
  }

  /** `GET /`: every user's public columns, ordered by full name. */
  function List(db: Db): (r: Reply)
    ensures r.Listed?
    ensures Sorting.SortedBy(r.rows, NameAsc)
    ensures |r.rows| == |db.users|
    ensures forall x :: x in r.rows <==> exists u :: u in db.users && SummaryOf(u) == x
    ensures multiset(r.rows) == multiset(Summaries(db.users))
  {
    var summaries := Summaries(db.users);
    Sorting.TextAscNullsLastIsPreorder((s: Summary) => s.fullName, NameAsc);
    var rows := Sorting.Sort(summaries, NameAsc);
    assert |rows| == |summaries| by { assert |multiset(rows)| == |multiset(summaries)|; }
    forall x ensures x in rows <==> exists u :: u in db.users && SummaryOf(u) == x {
      assert x in rows <==> x in multiset(summaries);
      if exists u :: u in db.users && SummaryOf(u) == x {
        var u :| u in db.users && SummaryOf(u) == x;
        var i :| 0 <= i < |db.users| && db.users[i] == u;
        assert summaries[i] == x;
      }
    }
    Listed(rows)
  }

  /** `GET /profile` for the signed-in user. */
  function GetProfile(db: Db, user: Id): (r: Reply)
    ensures r.NotFound? <==> !HasUser(db.users, user)
    ensures !r.NotFound? ==> r.Found? && exists u :: u in db.users && u.id == user && r.profile == ProfileOf(u)
  {
    match Seqs.Find(db.users, (u: User) => u.id == user)
    case None => NotFound
    case Some(u) => Found(ProfileOf(u))
  }

  function Overwrite(u: User, fullName: Option<string>, phone: Option<string>, now: Time): User {
    u.(fullName := fullName, phone := phone, updatedAt := Some(now))
  }

  /** `PUT /profile`: a falsy full name is refused before any query; otherwise
      the user's name and phone are overwritten (a missing phone becomes NULL). */
  function UpdateProfile(db: Db, user: Id, fullName: Option<string>, phone: Option<string>, now: Time)
    : (s: Step<Reply>)
    ensures s.reply.MissingFullName? <==> !Truthy(fullName)
    ensures s.reply.NotFound? <==> Truthy(fullName) && !HasUser(db.users, user)
    ensures s.reply.MissingFullName? || s.reply.NotFound? ==> s.db == db
    ensures s.db == db.(users := s.db.users)
    ensures |s.db.users| == |db.users|
    ensures forall i :: 0 <= i < |db.users| && db.users[i].id != user ==> s.db.users[i] == db.users[i]
    ensures Truthy(fullName) ==>
              forall i :: 0 <= i < |db.users| && db.users[i].id == user ==>
                var u := s.db.users[i];
                && u.fullName == fullName && u.phone == phone && u.updatedAt == Some(now)
                && u == db.users[i].(fullName := u.fullName, phone := u.phone, updatedAt := u.updatedAt)
    ensures s.reply.ProfileUpdated? ==>
              && s.reply.user.id == user && s.reply.user.fullName == fullName && s.reply.user.phone == phone
              && exists i :: 0 <= i < |s.db.users| && s.db.users[i].id == user && s.reply.user == UpdatedOf(s.db.users[i])
  {
    if !Truthy(fullName) then Step(db, MissingFullName)
    else
      var users := Seqs.Update(db.users, (u: User) => u.id == user,
                               (u: User) => Overwrite(u, fullName, phone, now));
      match Seqs.Find(db.users, (u: User) => u.id == user)
      case None =>
        assert users == db.users;
        Step(db, NotFound)
      case Some(prev) =>
        var i :| 0 <= i < |db.users| && db.users[i] == prev && prev.id == user;
        Step(db.(users := users), ProfileUpdated(UpdatedOf(users[i])))
  }

  /** The profile read back after a successful update shows the new name and phone. */
  lemma UpdateThenGetProfile(db: Db, user: Id, fullName: Option<string>, phone: Option<string>, now: Time)
    requires UpdateProfile(db, user, fullName, phone, now).reply.ProfileUpdated?
    ensures var r := GetProfile(UpdateProfile(db, user, fullName, phone, now).db, user);
            r.Found? && r.profile.fullName == fullName && r.profile.phone == phone
  {
    var users := UpdateProfile(db, user, fullName, phone, now).db.users;
    var found := Seqs.Find(users, (u: User) => u.id == user);
    assert Truthy(fullName);
    var i :| 0 <= i < |db.users| && db.users[i].id == user;
    assert users[i].id == user;
    var j :| 0 <= j < |users| && users[j] == found.value && users[j].id == user;
    assert db.users[j].id == user;
  }

  /** A profile update keeps user ids unique. */
  lemma UpdateProfileKeepsKeys(db: Db, user: Id, fullName: Option<string>, phone: Option<string>, now: Time)
    requires KeysUnique(db)
    ensures KeysUnique(UpdateProfile(db, user, fullName, phone, now).db)
  {
    UpdateKeepsUnique(db.users, (u: User) => u.id, (u: User) => u.id == user,
                      (u: User) => Overwrite(u, fullName, phone, now));
  }
}
