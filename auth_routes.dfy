/** The /auth routes: registering an account and signing in. Hashing is
    outside the model: the digest the User model's save hook would store,
    and its password comparison, are parameters. */
module AuthRoutes {
  import opened Base
  import opened Entities
  import opened Store

  /** The body of a successful sign-up or sign-in. */
  datatype AuthReply = AuthReply(id: Id, email: string, fullName: Option<string>, token: Token)

  /** Some user has the email address. */
  predicate EmailTaken(users: seq<User>, email: string)
  {
    exists u :: u in users && u.email == email
  }

  /** The account a sign-up creates with the next id. */
  function NewUser(id: Id, email: string, digest: string, fullName: Option<string>): User
  {
    User(id, email, digest, fullName, None, None, None, None)
  }

  /** POST /signup: 400 when the email is taken; otherwise the account is
      stored and the reply carries its id, email, name and a token for it.
      `rejection` is the message of the User model's validation when it
      refuses the document, which the handler reports as a 500. */
  method SignUp(db: Database, email: string, fullName: Option<string>, digest: string, rejection: Option<string>)
    returns (res: Response<AuthReply>)
    requires db.Valid()
    modifies db`users, db`clock
    ensures db.Valid()
    ensures EmailTaken(old(db.users), email) ==>
              && res == Response(400, Message("User already exists"))
              && db.users == old(db.users) && db.clock == old(db.clock)
    ensures !EmailTaken(old(db.users), email) && rejection.Some? ==>
              && res == Response(500, Message(rejection.value))
              && db.users == old(db.users) && db.clock == old(db.clock)
    ensures !EmailTaken(old(db.users), email) && rejection.None? ==>
              && db.users == old(db.users) + [NewUser(old(db.clock), email, digest, fullName)]
              && db.clock == old(db.clock) + 1
              && res == Response(201, Json(AuthReply(old(db.clock), email, fullName, GenerateToken(old(db.clock)))))
    ensures res.status == 201 ==> res.body.Json? && res.body.value.token.subject == res.body.value.id
  {
    match FindUserByEmail(db.users, email)
    case Some(k) =>
      res := Response(400, Message("User already exists"));
    case None =>
      if rejection.Some? {
        res := Response(500, Message(rejection.value));
      } else {
        var u := NewUser(db.clock, email, digest, fullName);
        NewUserKeepsUsersValid(db.users, u, db.clock);
        db.users := db.users + [u];
        db.clock := db.clock + 1;
        res := Response(201, Json(AuthReply(u.id, u.email, u.fullName, GenerateToken(u.id))));
      }
  }

  /** A user with a fresh id and an untaken email keeps ids and emails distinct. */
  lemma NewUserKeepsUsersValid(users: seq<User>, u: User, next: nat)
    requires DistinctUserIds(users, next) && UniqueEmails(users)
    requires u.id == next && !EmailTaken(users, u.email)
    ensures DistinctUserIds(users + [u], next + 1) && UniqueEmails(users + [u])
  {
    var t := users + [u];
    forall i, j | 0 <= i < j < |t| ensures t[i].email != t[j].email && t[i].id != t[j].id {
      assert t[i] == users[i];
      if j < |users| {
        assert t[j] == users[j];
      } else {
        assert users[i] in users;
      }
    }
  }

  /** POST /signin: the reply for the user with the email when `matches`
      accepts the password against the stored digest; one and the same 401
      whether the email is unknown or the password is wrong. */
  method SignIn(db: Database, email: string, password: string, matches: (string, string) -> bool)
    returns (res: Response<AuthReply>)
    ensures match FindUserByEmail(db.users, email)
            case Some(k) =>
              if matches(password, db.users[k].password) then
                var u := db.users[k];
                res == Response(200, Json(AuthReply(u.id, u.email, u.fullName, GenerateToken(u.id))))
              else res == Response(401, Message("Invalid email or password"))
            case None => res == Response(401, Message("Invalid email or password"))
    ensures res.status == 200 ==>
              && res.body.Json? && res.body.value.email == email
              && res.body.value.token.subject == res.body.value.id
              && exists u :: u in db.users && u.id == res.body.value.id && u.email == email && matches(password, u.password)
    ensures res.status != 200 ==> res == Response(401, Message("Invalid email or password"))
  {
    match FindUserByEmail(db.users, email)
    case Some(k) =>
      var u := db.users[k];
      if matches(password, u.password) {
        res := Response(200, Json(AuthReply(u.id, u.email, u.fullName, GenerateToken(u.id))));
      } else {
        res := Response(401, Message("Invalid email or password"));
      }
    case None =>
      res := Response(401, Message("Invalid email or password"));
  }

  /** Emails are unique, so after a sign-up the email finds the new account
      and no other: a sign-in with it checks the new account's digest and
      replies with its id. */
  lemma {:induction false} SignedUpUserIsFound(users: seq<User>, u: User)
    requires UniqueEmails(users + [u])
    ensures FindUserByEmail(users + [u], u.email) == Some(|users|)
  {
    var t := users + [u];
    forall j | 0 <= j < |users| ensures t[j].email != u.email {
      assert t[|users|] == u;
    }
    var r := FindUserByEmail(t, u.email);
    assert t[|users|].email == u.email;
    assert r.Some?;
    assert r.value >= |users|;
  }
}
