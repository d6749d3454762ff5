/** The session store of the dashboard (`AuthProvider` and `useAuth`): the
    signed-in user, the bearer token and the start-up `loading` flag, mirrored
    into two browser localStorage entries. */
module AuthContext {
  import opened Util

  /** A user record as the backend sends it, or as a form builds it. Only the
      fields the dashboard reads are kept; a field the record lacks is `None`. */
  datatype User = User(id: Option<int>, name: Option<string>, email: Option<string>, role: Option<string>)

  /** The two localStorage entries the store owns: 'authToken' holds the token
      text and 'user' the JSON text of the user record. The record is held here
      as itself: `JSON.parse(JSON.stringify(u))` is taken to give back `u`. */
  datatype Storage = Storage(authToken: Option<string>, user: Option<User>)

  /** The session as the rest of the dashboard reads it. */
  datatype Session = Session(user: Option<User>, token: Option<string>)

  /** What `login` and `simulatedLogin` resolve with. */
  datatype LoginReply = LoginReply(success: bool, user: User, token: string)

  /** What `register` resolves with. */
  datatype RegisterReply = RegisterReply(success: bool)

  /** What `simulatedLogin` rejects with. */
  datatype Rejection = Rejection(success: bool, message: string)

  const SimulatedToken := "simulated-token"
  const OutsideProviderMessage := "useAuth must be used within an AuthProvider"

  /** The user `simulatedLogin` signs in: `{ email, name: 'Admin User' }`. */
  function SimulatedUser(email: string): User {
    User(None, Some("Admin User"), Some(email), None)
  }

  /** What a login or registration leaves in localStorage. */
  function Stored(u: User, t: string): Storage {
    Storage(Some(t), Some(u))
  }

  /** The session the start-up effect reads back from storage, if any: it
      needs both entries, and both truthy (an empty token string is falsy; the
      JSON text of a record never is). */
  function Rehydrate(stored: Storage): Option<Session> {
    match (stored.authToken, stored.user)
    case (Some(t), Some(u)) => if t != "" then Some(Session(Some(u), Some(t))) else None
    case _ => None
  }

  /** A reload after `login(u, t)` or `register(u, t)` restores exactly that
      session, provided the token is not the empty string. */
  lemma RehydrateAfterSignIn(u: User, t: string)
    ensures Rehydrate(Stored(u, t)) == if t != "" then Some(Session(Some(u), Some(t))) else None
  {
  }

  /** A reload after `logout` finds no session. */
  lemma RehydrateAfterLogout()
    ensures Rehydrate(Storage(None, None)) == None
  {
  }

  /** Whatever storage holds, a rehydrated session has a user and a token together. */
  lemma RehydratedSessionIsPaired(stored: Storage)
    ensures Rehydrate(stored).Some? ==>
      Rehydrate(stored).value.user.Some? && Rehydrate(stored).value.token.Some?
  {
  }

  /** `useAuth()`: the provider's value, or the configuration error raised
      when a component reads the session outside the provider. */
  function UseAuth<T>(context: Option<T>): (r: Result<T, string>)
    ensures r.Ok? <==> context.Some?
    ensures r.Ok? ==> r.value == context.value
    ensures r.Err? ==> r.error == OutsideProviderMessage
  {
    match context
    case Some(value) => Ok(value)
    case None => Err(OutsideProviderMessage)
  }

  class AuthProvider {
    var user: Option<User>
    var token: Option<string>
    var loading: bool
    var storage: Storage

    /** `user` and `token` are set together or cleared together. */
    ghost predicate Paired()
      reads this
    {
      user.Some? <==> token.Some?
    }

    function Current(): Session
      reads this
    {
      Session(user, token)
    }

    /** Mounting the provider: no user, no token, `loading` true, over
        whatever the browser already stores. */
    constructor (stored: Storage)
      ensures user == None && token == None && loading && storage == stored
      ensures Paired()
    {
      user, token, loading, storage := None, None, true, stored;
    }

    /** The start-up effect: rehydrate when both entries are present and
        truthy, then clear `loading` whatever happened. */
    method Bootstrap()
      modifies this
      ensures storage == old(storage) && !loading
      ensures Rehydrate(storage).Some? ==> Current() == Rehydrate(storage).value
      ensures Rehydrate(storage).None? ==> Current() == old(Current())
      ensures old(Paired()) ==> Paired()
    {
      var storedToken := storage.authToken;
      var storedUser := storage.user;
      if storedToken.Some? && storedToken.value != "" && storedUser.Some? {
        token := storedToken;
        user := storedUser;
      }
      loading := false;
    }

    /** `login(userData, authToken)`: sign in in memory and in storage. */
    method Login(u: User, t: string) returns (reply: LoginReply)
      modifies this
      ensures Current() == Session(Some(u), Some(t)) && Paired()
      ensures storage == Stored(u, t) && loading == old(loading)
      ensures reply == LoginReply(true, u, t)
    {
      user := Some(u);
      token := Some(t);
      storage := storage.(authToken := Some(t));
      storage := storage.(user := Some(u));
      reply := LoginReply(true, u, t);
    }

    /** `register(userData, authToken)`: the same effect as `login`, but it
        resolves with `{ success: true }` only. */
    method Register(u: User, t: string) returns (reply: RegisterReply)
      modifies this
      ensures Current() == Session(Some(u), Some(t)) && Paired()
      ensures storage == Stored(u, t) && loading == old(loading)
      ensures reply == RegisterReply(true)
    {
      user := Some(u);
      token := Some(t);
      storage := storage.(authToken := Some(t));
      storage := storage.(user := Some(u));
      reply := RegisterReply(true);
    }

    /** `logout()`: clear the session and remove both entries. */
    method Logout()
      modifies this
      ensures Current() == Session(None, None) && Paired()
      ensures storage == Storage(None, None) && loading == old(loading)
    {
      user := None;
      token := None;
      storage := storage.(authToken := None);
      storage := storage.(user := None);
    }

    /** `simulatedLogin(email, password)` once its timer fires: any non-empty
        email and password sign in the fixed admin record; otherwise it
        rejects and changes nothing. */
    method SimulatedLogin(email: string, password: string) returns (r: Result<LoginReply, Rejection>)
      modifies this
      ensures r.Ok? <==> email != "" && password != ""
      ensures r.Ok? ==> r.value == LoginReply(true, SimulatedUser(email), SimulatedToken)
      ensures r.Ok? ==> Current() == Session(Some(SimulatedUser(email)), Some(SimulatedToken))
      ensures r.Ok? ==> storage == Stored(SimulatedUser(email), SimulatedToken)
      ensures r.Err? ==> r.error == Rejection(false, "Invalid credentials")
      ensures r.Err? ==> Current() == old(Current()) && storage == old(storage)
      ensures loading == old(loading) && (old(Paired()) ==> Paired())
    {
      if email != "" && password != "" {
        var userData := SimulatedUser(email);
        var authToken := SimulatedToken;
        user := Some(userData);
        token := Some(authToken);
        storage := Stored(userData, authToken);
        r := Ok(LoginReply(true, userData, authToken));
      } else {
        r := Err(Rejection(false, "Invalid credentials"));
      }
    }
  }

  /** Signing in and then reloading the page: a fresh provider over the same
      storage comes back with the same user and token, and not loading. */
  method ReloadAfterLogin(p: AuthProvider, u: User, t: string) returns (q: AuthProvider)
    requires t != ""
    modifies p
    ensures fresh(q) && !q.loading && q.Current() == Session(Some(u), Some(t))
  {
    var _ := p.Login(u, t);
    q := new AuthProvider(p.storage);
    q.Bootstrap();
  }

  /** Signing out and then reloading: the fresh provider has no user. */
  method ReloadAfterLogout(p: AuthProvider) returns (q: AuthProvider)
    modifies p
    ensures fresh(q) && !q.loading && q.Current() == Session(None, None)
    ensures p.storage.authToken == None && p.storage.user == None
  {
    p.Logout();
    q := new AuthProvider(p.storage);
    q.Bootstrap();
  }

  /** Running the start-up effect a second time changes nothing. */
  method BootstrapTwice(stored: Storage) returns (first: Session, second: Session)
    ensures first == second
    ensures first == if Rehydrate(stored).Some? then Rehydrate(stored).value else Session(None, None)
  {
    var p := new AuthProvider(stored);
    p.Bootstrap();
    first := p.Current();
    p.Bootstrap();
    second := p.Current();
  }
}
