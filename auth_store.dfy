/** The frontend auth store: the token and user, what it keeps in `localStorage` under
    "token" and "user", and the `Authorization` header it sets on the API client. A user
    is held as its serialised JSON text. */
module AuthStore {
  import opened Common

  /** What a successful login or register answers. */
  datatype Session = Session(token: string, user: string)

  /** `!!s`: a missing or empty string is false. */
  predicate Present(s: Option<string>) { s.Some? && s.value != "" }

  function Lookup(storage: map<string, string>, key: string): Option<string> {
    if key in storage then Some(storage[key]) else None
  }

  function Bearer(token: string): string { "Bearer " + token }

  class Auth {
    var user: Option<string>
    var token: Option<string>
    var loading: bool
    var storage: map<string, string>
    var authHeader: Option<string>

    /** The store is created with the token already in storage, and no user. */
    constructor (storage: map<string, string>, authHeader: Option<string>)
      ensures this.storage == storage && this.authHeader == authHeader
      ensures token == Lookup(storage, "token") && user.None? && !loading
    {
      this.storage := storage;
      this.authHeader := authHeader;
      token := Lookup(storage, "token");
      user := None;
      loading := false;
    }

    /** isAuthenticated. */
    function IsAuthenticated(): (r: bool)
      reads this
      ensures r <==> token.Some? && token.value != ""
    {
      Present(token)
    }

    /** initializeAuth: only a saved token together with a saved user is taken over. */
    method InitializeAuth()
      modifies this
      ensures Present(Lookup(old(storage), "token")) && Present(Lookup(old(storage), "user")) ==>
        && token == Lookup(old(storage), "token") && user == Lookup(old(storage), "user")
        && authHeader == Some(Bearer(old(storage)["token"]))
      ensures !(Present(Lookup(storage, "token")) && Present(Lookup(storage, "user"))) ==>
        token == old(token) && user == old(user) && authHeader == old(authHeader)
      ensures storage == old(storage) && loading == old(loading)
    {
      var savedToken := Lookup(storage, "token");
      var savedUser := Lookup(storage, "user");
      if Present(savedToken) && Present(savedUser) {
        token := savedToken;
        user := savedUser;
        authHeader := Some(Bearer(savedToken.value));
      }
    }

    /** What login and register do once the call has answered. */
    method Establish(s: Session)
      modifies this
      ensures token == Some(s.token) && user == Some(s.user)
      ensures storage == old(storage)["token" := s.token]["user" := s.user]
      ensures authHeader == Some(Bearer(s.token)) && loading == old(loading)
    {
      token := Some(s.token);
      user := Some(s.user);
      storage := storage["token" := s.token]["user" := s.user];
      authHeader := Some(Bearer(s.token));
    }

    /** login; a rejected call changes nothing but `loading`. */
    method Login(reply: Result<Session, string>) returns (r: Result<Session, string>)
      modifies this
      ensures r == reply && !loading
      ensures reply.Ok? ==> && token == Some(reply.value.token) && user == Some(reply.value.user)
                            && storage == old(storage)["token" := reply.value.token]["user" := reply.value.user]
                            && authHeader == Some(Bearer(reply.value.token))
      ensures reply.Err? ==> token == old(token) && user == old(user) && storage == old(storage) && authHeader == old(authHeader)
    {
      loading := true;
      if reply.Ok? {
        Establish(reply.value);
      }
      r := reply;
      loading := false;
    }

    method Register(reply: Result<Session, string>) returns (r: Result<Session, string>)
      modifies this
      ensures r == reply && !loading
      ensures reply.Ok? ==> && token == Some(reply.value.token) && user == Some(reply.value.user)
                            && storage == old(storage)["token" := reply.value.token]["user" := reply.value.user]
                            && authHeader == Some(Bearer(reply.value.token))
      ensures reply.Err? ==> token == old(token) && user == old(user) && storage == old(storage) && authHeader == old(authHeader)
    {
      loading := true;
      if reply.Ok? {
        Establish(reply.value);
      }
      r := reply;
      loading := false;
    }

    /** logout clears everything whether or not the API call succeeded. */
    method Logout(callSucceeded: bool)
      modifies this
      ensures user.None? && token.None? && authHeader.None?
      ensures storage == old(storage) - {"token", "user"}
      ensures !IsAuthenticated()
      ensures loading == old(loading)
    {
      user := None;
      token := None;
      storage := storage - {"token", "user"};
      authHeader := None;
    }

    /** updateProfile and getProfile take the answered user and persist it. */
    method RefreshUser(reply: Result<string, string>) returns (r: Result<string, string>)
      modifies this
      ensures r == reply && !loading
      ensures reply.Ok? ==> user == Some(reply.value) && storage == old(storage)["user" := reply.value]
      ensures reply.Err? ==> user == old(user) && storage == old(storage)
      ensures token == old(token) && authHeader == old(authHeader)
    {
      loading := true;
      if reply.Ok? {
        user := Some(reply.value);
        storage := storage["user" := reply.value];
      }
      r := reply;
      loading := false;
    }

    /** changePassword only toggles `loading`. */
    method ChangePassword(reply: Result<bool, string>) returns (r: Result<bool, string>)
      modifies this
      ensures r == reply && !loading
      ensures user == old(user) && token == old(token) && storage == old(storage) && authHeader == old(authHeader)
    {
      loading := true;
      r := reply;
      loading := false;
    }
  }

  /** After logout, initializeAuth finds nothing to restore: the state stays logged out. */
  lemma LogoutForgets(storage: map<string, string>)
    ensures !Present(Lookup(storage - {"token", "user"}, "token"))
    ensures !Present(Lookup(storage - {"token", "user"}, "user"))
  {
  }

  /** After a login, initializeAuth restores exactly that session (for a non-empty token
      and user). */
  lemma LoginRestores(storage: map<string, string>, s: Session)
    requires s.token != "" && s.user != ""
    ensures var st := storage["token" := s.token]["user" := s.user];
      Present(Lookup(st, "token")) && Present(Lookup(st, "user"))
      && Lookup(st, "token") == Some(s.token) && Lookup(st, "user") == Some(s.user)
  {
  }

  /** A page load after a logout: initializeAuth finds nothing to restore, so the store
      stays logged out. */
  method LogoutThenInitialize(auth: Auth, callSucceeded: bool)
    modifies auth
    ensures !auth.IsAuthenticated() && auth.user.None? && auth.authHeader.None?
    ensures auth.storage == old(auth.storage) - {"token", "user"}
  {
    auth.Logout(callSucceeded);
    LogoutForgets(old(auth.storage));
    auth.InitializeAuth();
  }

  /** A page load after a login: a fresh store over the same storage starts with the
      session's token, and initializeAuth restores its user and authorization header. */
  method LoginThenReload(auth: Auth, s: Session) returns (reloaded: Auth)
    requires s.token != "" && s.user != ""
    modifies auth
    ensures reloaded.IsAuthenticated()
    ensures reloaded.token == Some(s.token) && reloaded.user == Some(s.user)
    ensures reloaded.authHeader == Some(Bearer(s.token))
  {
    var r := auth.Login(Ok(s));
    LoginRestores(old(auth.storage), s);
    reloaded := new Auth(auth.storage, None);
    reloaded.InitializeAuth();
  }
}
