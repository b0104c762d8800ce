/** The client's session: the signed-in user, the loading flag, and the
    two localStorage keys 'token' and 'user' that persist them. The network
    replies, `JSON.parse` and `JSON.stringify` are parameters. */
module AuthContext {
  import opened Base

  /** The reply of /auth/signup and /auth/signin, kept as the user. */
  datatype SessionUser = SessionUser(id: Id, email: string, fullName: Option<string>, token: string)

  /** `JSON.parse(text)`: it throws, or yields a user or `null`. */
  datatype Parsed = Throws | Value(user: Option<SessionUser>)

  /** The provider's state. */
  datatype Session = Session(user: Option<SessionUser>, loading: bool, storage: map<string, string>)

  /** `localStorage.getItem(key)` is truthy: present and not "". */
  predicate Stored(storage: map<string, string>, key: string)
  {
    key in storage && storage[key] != ""
  }

  /** The two keys are present together or absent together. */
  predicate KeysTogether(storage: map<string, string>)
  {
    "token" in storage <==> "user" in storage
  }

  /** After `checkAuth`. */
  function Restored(s: Session, parse: string -> Parsed): (r: Session)
    ensures !r.loading
  {
    if Stored(s.storage, "token") && Stored(s.storage, "user") then
      match parse(s.storage["user"])
      case Value(u) => s.(user := u, loading := false)
      case Throws => s.(storage := s.storage - {"token", "user"}, loading := false)
    else s.(loading := false)
  }

  /** After a successful `signUp` or `signIn` with reply `data`. */
  function Established(s: Session, data: SessionUser, stringify: SessionUser -> string): (r: Session)
    ensures !r.loading
  {
    Session(Some(data), false, s.storage["token" := data.token]["user" := stringify(data)])
  }

  /** After a `signUp` or `signIn` whose request failed. */
  function Failed(s: Session): (r: Session)
    ensures !r.loading
  {
    s.(loading := false)
  }

  /** After `signOut`. */
  function SignedOut(s: Session): (r: Session)
    ensures !r.loading
  {
    Session(None, false, s.storage - {"token", "user"})
  }

  /** A user is restored only from two truthy keys, and only from what
      `JSON.parse` made of the stored 'user'. */
  lemma RestoreNeedsBothKeys(s: Session, parse: string -> Parsed)
    ensures Restored(s, parse).user != s.user ==>
              && Stored(s.storage, "token") && Stored(s.storage, "user")
              && parse(s.storage["user"]) == Value(Restored(s, parse).user)
  {
  }

  /** A stored user that fails to parse removes both keys and restores nobody. */
  lemma UnparsableUserIsDropped(s: Session, parse: string -> Parsed)
    requires Stored(s.storage, "token") && Stored(s.storage, "user")
    requires parse(s.storage["user"]) == Throws
    ensures "token" !in Restored(s, parse).storage && "user" !in Restored(s, parse).storage
    ensures Restored(s, parse).user == s.user
    ensures forall k :: k != "token" && k != "user" ==>
              (k in Restored(s, parse).storage <==> k in s.storage)
  {
  }

  /** The keys change together: every operation keeps them both present or both absent. */
  lemma KeysStayTogether(s: Session, parse: string -> Parsed, data: SessionUser, stringify: SessionUser -> string)
    requires KeysTogether(s.storage)
    ensures KeysTogether(Restored(s, parse).storage)
    ensures KeysTogether(Established(s, data, stringify).storage)
    ensures KeysTogether(Failed(s).storage)
    ensures KeysTogether(SignedOut(s).storage)
  {
  }

  /** A session survives a reload: when parsing reads back what was
      stringified, `checkAuth` on a fresh page restores the user that
      signed in. */
  lemma ReloadRestoresSession(s: Session, data: SessionUser, stringify: SessionUser -> string, parse: string -> Parsed)
    requires data.token != "" && stringify(data) != ""
    requires parse(stringify(data)) == Value(Some(data))
    ensures Restored(Established(s, data, stringify).(user := None, loading := true), parse).user == Some(data)
  {
    var e := Established(s, data, stringify);
    assert e.storage["user"] == stringify(data);
    assert e.storage["token"] == data.token;
  }

  /** After signing out, a reload restores nobody. */
  lemma ReloadAfterSignOut(s: Session, parse: string -> Parsed)
    ensures Restored(SignedOut(s).(loading := true), parse).user == None
  {
  }

  class AuthProvider {
    var user: Option<SessionUser>
    var loading: bool
    var storage: map<string, string>

    function State(): Session
      reads this
    {
      Session(user, loading, storage)
    }

    /** The provider mounts over whatever localStorage already holds. */
    constructor (initial: map<string, string>)
      ensures State() == Session(None, true, initial)
    {
      user := None;
      loading := true;
      storage := initial;
    }

    /** `checkAuth`. */
    method CheckAuth(parse: string -> Parsed)
      modifies this
      ensures State() == Restored(old(State()), parse)
    {
      var hasToken := "token" in storage && storage["token"] != "";
      var hasUser := "user" in storage && storage["user"] != "";
      if hasToken && hasUser {
        match parse(storage["user"])
        case Value(u) =>
          user := u;
        case Throws =>
          storage := storage - {"token"};
          storage := storage - {"user"};
      }
      loading := false;
    }

    /** `signUp` and `signIn` differ only in the route they post to: `reply`
        is the reply's data, or `None` when the request failed. */
    method SignIn(reply: Option<SessionUser>, stringify: SessionUser -> string)
      modifies this
      ensures reply.Some? ==> State() == Established(old(State()), reply.value, stringify)
      ensures reply.None? ==> State() == Failed(old(State()))
    {
      loading := true;
      if reply.Some? {
        var data := reply.value;
        storage := storage["token" := data.token];
        storage := storage["user" := stringify(data)];
        user := Some(data);
      }
      loading := false;
    }

    method SignUp(reply: Option<SessionUser>, stringify: SessionUser -> string)
      modifies this
      ensures reply.Some? ==> State() == Established(old(State()), reply.value, stringify)
      ensures reply.None? ==> State() == Failed(old(State()))
    {
      SignIn(reply, stringify);
    }

    /** `signOut`. */
    method SignOut()
      modifies this
      ensures State() == SignedOut(old(State()))
    {
      loading := true;
      storage := storage - {"token"};
      storage := storage - {"user"};
      user := None;
      loading := false;
    }
  }

  datatype ContextResult = Provided(provider: AuthProvider) | Thrown(message: string)

  /** `useAuth`: the provider's value, or the error it throws outside one. */
  function UseAuth(context: Option<AuthProvider>): (r: ContextResult)
    ensures r.Thrown? <==> context.None?
    ensures r.Thrown? ==> r.message == "useAuth must be used within an AuthProvider"
    ensures r.Provided? ==> context == Some(r.provider)
  {
    match context
    case Some(p) => Provided(p)
    case None => Thrown("useAuth must be used within an AuthProvider")
  }
}
