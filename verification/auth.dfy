/** `/api/auth`: register, password login and Google sign-in
    (server/src/routes/auth.js). Password hashing, hash comparison, token
    signing and Google ID-token verification are functions supplied by the
    caller; a hash or comparison that throws is answered like any other
    failure of its handler. */
module Auth {
  import opened Wrappers
  import opened Schema
  import Seqs

  /** The user fields a response carries; the password hash is not among them. */
  datatype PublicUser = PublicUser(id: Id, email: Option<string>, fullName: Option<string>, role: Option<string>)

  /** What a verified Google ID token says about its holder. */
  datatype GooglePayload = GooglePayload(email: Option<string>, name: Option<string>, picture: Option<string>)

  datatype Reply =
    | Registered(token: string, user: PublicUser)
    | LoggedIn(token: string, user: PublicUser)
    | UserAlreadyExists
    | InvalidCredentials
    | InvalidGoogleToken
    | ServerError
  {
    function Status(): nat {
      match this
      case Registered(_, _) => 201
      case LoggedIn(_, _) => 200
      case UserAlreadyExists => 400
      case InvalidCredentials => 400
      case InvalidGoogleToken => 401
      case ServerError => 500
    }
  }

  /** `jwt.sign({ id, role }, process.env.JWT_SECRET, ...)`: it throws, for
      instance, when `JWT_SECRET` is not set. */
  type Signer = (Id, Option<string>) -> Js.Eval<string>

  function Public(u: User): PublicUser {
    PublicUser(u.id, u.email, u.fullName, u.role)
  }

  /** `SELECT * FROM users WHERE email = $1`, first row. */
  function ByEmail(users: seq<User>, email: Option<string>): (r: Option<User>)
    ensures r.None? <==> forall i :: 0 <= i < |users| ==> !SqlEq(users[i].email, email)
    ensures r.Some? ==> r.value in users && SqlEq(r.value.email, email)
  {
    Seqs.Find(users, (u: User) => SqlEq(u.email, email))
  }

  /** No two users share a (non-NULL) email address. */
  predicate EmailsUnique(users: seq<User>) {
    forall i, j :: 0 <= i < j < |users| && users[i].email.Some? ==> users[i].email != users[j].email
  }

  /** The row both sign-up paths insert: role 'agent', every other optional column NULL. */
  function NewAgent(id: Id, email: Option<string>, passwordHash: string, fullName: Option<string>): User {
    User(id, email, Some(passwordHash), fullName, Some("agent"), None, None, None, None)
  }

  /** `POST /register`. `hashed` is what hashing the request's password gave
      (it throws when there is no password); `newId` is the generated key.
      The token is signed after the INSERT, so a signing failure answers 500
      with the new user kept. */
  function Register(db: Db, email: Option<string>, fullName: Option<string>, hashed: Js.Eval<string>,
                    newId: Id, sign: Signer): (s: Step<Reply>)
    ensures s.reply.UserAlreadyExists? <==> ByEmail(db.users, email).Some?
    ensures s.reply.Registered? || s.reply.UserAlreadyExists? || s.reply.ServerError?
    ensures s.db != db <==> ByEmail(db.users, email).None? && hashed.Returns? && !HasUser(db.users, newId)
    ensures s.db != db ==> s.db == db.(users := db.users + [NewAgent(newId, email, hashed.value, fullName)])
    ensures s.reply.Registered? <==> s.db != db && sign(newId, Some("agent")).Returns?
    ensures s.reply.Registered? ==>
              var row := NewAgent(newId, email, hashed.value, fullName);
              && s.reply.user == Public(row) && s.reply.user.role == Some("agent")
              && s.reply.token == sign(newId, Some("agent")).value
  {
    if ByEmail(db.users, email).Some? then Step(db, UserAlreadyExists)
    else if hashed.Throws? || HasUser(db.users, newId) then Step(db, ServerError)
    else
      var row := NewAgent(newId, email, hashed.value, fullName);
      assert db.(users := db.users + [row]).users != db.users;
      match sign(newId, row.role)
      case Throws => Step(db.(users := db.users + [row]), ServerError)
      case Returns(token) => Step(db.(users := db.users + [row]), Registered(token, Public(row)))
  }

  /** `POST /login`. `compare(hash)` is whether the request's password
      matches a stored hash (it may throw, for instance on a NULL hash).
      Login never writes; a comparison or signing failure answers 500. */
  function Login(db: Db, email: Option<string>, compare: Option<string> -> Js.Eval<bool>, sign: Signer): (r: Reply)
    ensures r.InvalidCredentials? <==>
              match ByEmail(db.users, email)
              case None => true
              case Some(u) => compare(u.passwordHash) == Js.Returns(false)
    ensures r.ServerError? <==>
              && ByEmail(db.users, email).Some?
              && var u := ByEmail(db.users, email).value;
              || compare(u.passwordHash).Throws?
              || (compare(u.passwordHash) == Js.Returns(true) && sign(u.id, u.role).Throws?)
    ensures r.LoggedIn? ==>
              var u := ByEmail(db.users, email).value;
              && ByEmail(db.users, email).Some?
              && compare(u.passwordHash) == Js.Returns(true)
              && sign(u.id, u.role).Returns?
              && r.user == Public(u) && r.token == sign(u.id, u.role).value
    ensures r.InvalidCredentials? || r.ServerError? || r.LoggedIn?
  {
    match ByEmail(db.users, email)
    case None => InvalidCredentials
    case Some(u) =>
      match compare(u.passwordHash)
      case Throws => ServerError
      case Returns(ok) =>
        if !ok then InvalidCredentials
        else
          match sign(u.id, u.role)
          case Throws => ServerError
          case Returns(token) => LoggedIn(token, Public(u))
  }

  /** `POST /google`. `ticket` is the verified token's payload, `None` when
      verification fails. A user is created only when none has the email;
      `hashed` is the hash of the generated random password. Every failure,
      including one on insert or on signing, is answered with 401; a signing
      failure comes after the INSERT, so a user created then is kept. */
  function Google(db: Db, ticket: Option<GooglePayload>, hashed: Js.Eval<string>, newId: Id, sign: Signer)
    : (s: Step<Reply>)
    ensures ticket.None? ==> s.reply == InvalidGoogleToken && s.db == db
    ensures s.reply.LoggedIn? || s.reply.InvalidGoogleToken?
    ensures ticket.Some? && ByEmail(db.users, ticket.value.email).Some? ==>
              var u := ByEmail(db.users, ticket.value.email).value;
              && s.db == db
              && (sign(u.id, u.role).Returns? ==> s.reply == LoggedIn(sign(u.id, u.role).value, Public(u)))
              && (sign(u.id, u.role).Throws? ==> s.reply == InvalidGoogleToken)
    ensures ticket.Some? && ByEmail(db.users, ticket.value.email).None? ==>
              if hashed.Returns? && !HasUser(db.users, newId) then
                var row := NewAgent(newId, ticket.value.email, hashed.value, ticket.value.name);
                && s.db == db.(users := db.users + [row])
                && (sign(newId, Some("agent")).Returns? ==>
                      s.reply == LoggedIn(sign(newId, Some("agent")).value, Public(row)))
                && (sign(newId, Some("agent")).Throws? ==> s.reply == InvalidGoogleToken)
              else s.db == db && s.reply == InvalidGoogleToken
  {
    match ticket
    case None => Step(db, InvalidGoogleToken)
    case Some(payload) =>
      match ByEmail(db.users, payload.email)
      case Some(u) => Step(db, Signed(sign(u.id, u.role), Public(u)))
      case None =>
        if hashed.Throws? || HasUser(db.users, newId) then Step(db, InvalidGoogleToken)
        else
          var row := NewAgent(newId, payload.email, hashed.value, payload.name);
          Step(db.(users := db.users + [row]), Signed(sign(newId, row.role), Public(row)))
  }

  /** The Google reply once the token has been signed, or has failed to be. */
  function Signed(token: Js.Eval<string>, user: PublicUser): Reply {
    match token
    case Throws => InvalidGoogleToken
    case Returns(t) => LoggedIn(t, user)
  }

  /** Appending a user whose email no one has keeps emails unique. */
  lemma AppendNewEmail(users: seq<User>, row: User)
    requires EmailsUnique(users)
    requires ByEmail(users, row.email).None?
    ensures EmailsUnique(users + [row])
  {
    var s := users + [row];
    forall i, j | 0 <= i < j < |s| && s[i].email.Some? ensures s[i].email != s[j].email {
      if j == |users| {
        assert !SqlEq(users[i].email, row.email);
      }
    }
  }

  /** Both sign-up paths keep user ids and emails unique. */
  lemma SignUpKeepsUsersUnique(db: Db, email: Option<string>, fullName: Option<string>,
                               ticket: Option<GooglePayload>, hashed: Js.Eval<string>, newId: Id, sign: Signer)
    requires KeysUnique(db) && EmailsUnique(db.users)
    ensures var s := Register(db, email, fullName, hashed, newId, sign);
            KeysUnique(s.db) && EmailsUnique(s.db.users)
    ensures var s := Google(db, ticket, hashed, newId, sign);
            KeysUnique(s.db) && EmailsUnique(s.db.users)
  {
    var r := Register(db, email, fullName, hashed, newId, sign);
    if r.db != db {
      var row := NewAgent(newId, email, hashed.value, fullName);
      AppendKeepsUnique(db.users, (u: User) => u.id, row);
      AppendNewEmail(db.users, row);
    }
    var g := Google(db, ticket, hashed, newId, sign);
    if g.db != db {
      var row := NewAgent(newId, ticket.value.email, hashed.value, ticket.value.name);
      AppendKeepsUnique(db.users, (u: User) => u.id, row);
      AppendNewEmail(db.users, row);
    }
  }

  /** An unknown email and a wrong password get exactly the same answer. */
  lemma LoginFailuresIndistinguishable(db1: Db, db2: Db, email: Option<string>,
                                       compare: Option<string> -> Js.Eval<bool>, sign: Signer)
    requires ByEmail(db1.users, email).None?
    requires ByEmail(db2.users, email).Some? && compare(ByEmail(db2.users, email).value.passwordHash) == Js.Returns(false)
    ensures Login(db1, email, compare, sign) == Login(db2, email, compare, sign) == InvalidCredentials
    ensures Login(db1, email, compare, sign).Status() == 400
  {
  }

  /** After a successful Google sign-in, signing in again with the same
      account creates no second user and answers with the same user and token. */
  lemma GoogleCreatesAtMostOnce(db: Db, payload: GooglePayload, hashed: Js.Eval<string>, id1: Id, id2: Id, sign: Signer)
    requires payload.email.Some?
    requires Google(db, Some(payload), hashed, id1, sign).reply.LoggedIn?
    ensures var first := Google(db, Some(payload), hashed, id1, sign);
            Google(first.db, Some(payload), hashed, id2, sign) == first
  {
    var first := Google(db, Some(payload), hashed, id1, sign);
    if ByEmail(db.users, payload.email).None? {
      var users := first.db.users;
      assert SqlEq(users[|users| - 1].email, payload.email);
    }
  }

  /** Whoever registers can then log in with the same password, and is
      signed in as the user just created. */
  lemma RegisterThenLogin(db: Db, email: Option<string>, fullName: Option<string>, hash: string,
                          newId: Id, compare: Option<string> -> Js.Eval<bool>, sign: Signer)
    requires email.Some?
    requires Register(db, email, fullName, Js.Returns(hash), newId, sign).reply.Registered?
    requires compare(Some(hash)) == Js.Returns(true)
    ensures var s := Register(db, email, fullName, Js.Returns(hash), newId, sign);
            Login(s.db, email, compare, sign) == LoggedIn(s.reply.token, s.reply.user)
  {
    var s := Register(db, email, fullName, Js.Returns(hash), newId, sign);
    var users := s.db.users;
    var u := ByEmail(users, email);
    assert SqlEq(users[|users| - 1].email, email);
    var j :| 0 <= j < |users| && users[j] == u.value && SqlEq(users[j].email, email)
             && forall k :: 0 <= k < j ==> !SqlEq(users[k].email, email);
    assert j == |users| - 1;
  }

  /** A registration whose token cannot be signed still creates the user:
      it answers 500, and registering again with the same email is refused
      as a duplicate. */
  lemma FailedSigningStillRegisters(db: Db, email: Option<string>, fullName: Option<string>, hash: string,
                                    newId: Id, retryId: Id, hashed: Js.Eval<string>, sign: Signer)
    requires email.Some? && ByEmail(db.users, email).None? && !HasUser(db.users, newId)
    requires sign(newId, Some("agent")).Throws?
    ensures var s := Register(db, email, fullName, Js.Returns(hash), newId, sign);
            && s.reply == ServerError && |s.db.users| == |db.users| + 1
            && Register(s.db, email, fullName, hashed, retryId, sign).reply == UserAlreadyExists
  {
    var s := Register(db, email, fullName, Js.Returns(hash), newId, sign);
    var users := s.db.users;
    assert SqlEq(users[|users| - 1].email, email);
  }
}
