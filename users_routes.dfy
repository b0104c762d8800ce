/** The /users routes: reading and updating the caller's own profile. */
module UserRoutes {
  import opened Base
  import opened Entities
  import opened Store

  /** A user as the profile routes send it: every field but the password. */
  datatype Profile = Profile(
    id: Id,
    email: string,
    fullName: Option<string>,
    location: Option<string>,
    skills: Option<seq<string>>,
    interests: Option<seq<string>>,
    avatarUrl: Option<string>)

  /** `.select('-password')`. */
  function ProfileOf(u: User): Profile
  {
    Profile(u.id, u.email, u.fullName, u.location, u.skills, u.interests, u.avatarUrl)
  }

  /** The fields a profile update may carry; anything else in the body is ignored. */
  datatype ProfileUpdate = ProfileUpdate(
    fullName: Option<string>,
    location: Option<string>,
    skills: Option<seq<string>>,
    interests: Option<seq<string>>,
    avatarUrl: Option<string>)

  /** Each field becomes `body.field || user.field`. */
  function Updated(u: User, body: ProfileUpdate): User
  {
    u.(fullName := OrString(body.fullName, u.fullName),
       location := OrString(body.location, u.location),
       skills := OrArray(body.skills, u.skills),
       interests := OrArray(body.interests, u.interests),
       avatarUrl := OrString(body.avatarUrl, u.avatarUrl))
  }

  /** An update never touches the id, the email or the password, and a
      field the body leaves out keeps its value. */
  lemma UpdateKeepsIdentity(u: User, body: ProfileUpdate)
    ensures Updated(u, body).id == u.id && Updated(u, body).email == u.email
    ensures Updated(u, body).password == u.password
    ensures body.fullName.None? ==> Updated(u, body).fullName == u.fullName
    ensures body.location.None? ==> Updated(u, body).location == u.location
    ensures body.skills.None? ==> Updated(u, body).skills == u.skills
    ensures body.interests.None? ==> Updated(u, body).interests == u.interests
    ensures body.avatarUrl.None? ==> Updated(u, body).avatarUrl == u.avatarUrl
  {
  }

  /** An empty string is falsy, so it cannot clear a text field; an empty
      array is truthy, so it does replace a list. */
  lemma EmptyValuesInUpdate(u: User, body: ProfileUpdate)
    ensures body.fullName == Some("") ==> Updated(u, body).fullName == u.fullName
    ensures body.location == Some("") ==> Updated(u, body).location == u.location
    ensures body.avatarUrl == Some("") ==> Updated(u, body).avatarUrl == u.avatarUrl
    ensures body.skills == Some([]) ==> Updated(u, body).skills == Some([])
    ensures body.interests == Some([]) ==> Updated(u, body).interests == Some([])
  {
  }

  /** Sending the same update twice leaves the profile as the first one did. */
  lemma UpdateIsIdempotent(u: User, body: ProfileUpdate)
    ensures Updated(Updated(u, body), body) == Updated(u, body)
  {
  }

  /** GET /: the caller's profile without the password; `null` when the
      caller's id matches no user. */
  method GetProfile(db: Database, caller: Id) returns (res: Response<Option<Profile>>)
    ensures res.status == 200 && res.body.Json?
    ensures res.body.value.Some? <==> exists u :: u in db.users && u.id == caller
    ensures res.body.value.Some? ==>
              exists u :: u in db.users && u.id == caller && res.body.value.value == ProfileOf(u)
  {
    match FindUser(db.users, caller)
    case Some(k) =>
      res := Response(200, Json(Some(ProfileOf(db.users[k]))));
    case None =>
      res := Response(200, Json(None));
  }

  /** Updating users without changing ids or emails keeps them distinct. */
  lemma UpdateKeepsUsersValid(users: seq<User>, k: nat, u: User, next: nat)
    requires k < |users|
    requires DistinctUserIds(users, next) && UniqueEmails(users)
    requires u.id == users[k].id && u.email == users[k].email
    ensures DistinctUserIds(users[k := u], next) && UniqueEmails(users[k := u])
  {
  }

  /** PUT /: applies the update to the caller's user and replies with the
      saved profile; 404 when the caller's id matches no user. */
  method UpdateProfile(db: Database, caller: Id, body: ProfileUpdate) returns (res: Response<Profile>)
    requires db.Valid()
    modifies db`users
    ensures db.Valid()
    ensures match FindUser(old(db.users), caller)
            case Some(k) =>
              && db.users == old(db.users)[k := Updated(old(db.users)[k], body)]
              && res == Response(200, Json(ProfileOf(db.users[k])))
            case None =>
              db.users == old(db.users) && res == Response(404, Message("User not found"))
    ensures res.status == 200 ==> res.body.Json? && res.body.value.id == caller
  {
    match FindUser(db.users, caller)
    case Some(k) =>
      var u := Updated(db.users[k], body);
      UpdateKeepsUsersValid(db.users, k, u, db.clock);
      db.users := db.users[k := u];
      res := Response(200, Json(ProfileOf(u)));
    case None =>
      res := Response(404, Message("User not found"));
  }
}
