/** What the registration form does with a successful sign-up: the entries
    it writes to localStorage, the session it hands to the auth store, and
    the referral code it starts from when opened through a share link. */
module RegisterFlow {
  import opened Util
  import AuthContext
  import Sidebar
  import CreateReferral

  /** The record the form builds from its own fields: `{ name, email }`. */
  function FormUser(name: string, email: string): (u: AuthContext.User)
    ensures u.role.None? && u.id.None?
  {
    AuthContext.User(None, Some(name), Some(email), None)
  }

  /** The success branch as written: store the server's token and user,
      then call `register({ name, email }, token)`, which overwrites both
      the session and the stored user with the form's record. */
  method CompleteRegistrationAsWritten(p: AuthContext.AuthProvider, name: string, email: string,
                                       serverUser: AuthContext.User, token: string)
    modifies p
    ensures p.Current() == AuthContext.Session(Some(FormUser(name, email)), Some(token))
    ensures p.storage == AuthContext.Stored(FormUser(name, email), token)
  {
    p.storage := AuthContext.Stored(serverUser, token);
    var _ := p.Register(FormUser(name, email), token);
  }

  /** The success branch with the server's record handed to `register`, as
      the login form does with `login(data.user, data.token)`. */
  method CompleteRegistration(p: AuthContext.AuthProvider, serverUser: AuthContext.User, token: string)
    modifies p
    ensures p.Current() == AuthContext.Session(Some(serverUser), Some(token))
    ensures p.storage == AuthContext.Stored(serverUser, token)
  {
    p.storage := AuthContext.Stored(serverUser, token);
    var _ := p.Register(serverUser, token);
  }

  /** As written, a newly registered account has no role in its session, so
      however the server ranks it the side menu offers only Change Password
      and the referral page refuses it, until it signs out and in again. */
  lemma RegisteredSessionLosesRole(name: string, email: string, serverUser: AuthContext.User)
    requires serverUser.role == Some("admin")
    ensures Sidebar.ManagementItems(Some(FormUser(name, email))) == [Sidebar.ChangePassword]
    ensures Sidebar.ManagementItems(Some(serverUser)) == Sidebar.AdminItems
    ensures !CreateReferral.CanAccess(FormUser(name, email).role)
    ensures CreateReferral.CanAccess(serverUser.role)
  {
  }

  /** With the server's record the session carries its role, and a reload
      restores that same record. */
  method RegisteredSessionKeepsRole(p: AuthContext.AuthProvider, serverUser: AuthContext.User, token: string)
    returns (q: AuthContext.AuthProvider)
    requires token != ""
    modifies p
    ensures p.user == Some(serverUser)
    ensures Sidebar.ManagementItems(p.user) == Sidebar.ManagementItems(Some(serverUser))
    ensures fresh(q) && q.user == Some(serverUser)
  {
    CompleteRegistration(p, serverUser, token);
    q := new AuthContext.AuthProvider(p.storage);
    q.Bootstrap();
  }

  /** The form's referral field as written: it always starts empty; the
      page never reads the `ref` parameter of its address. */
  function InitialReferralCodeAsWritten(url: string): (code: string)
    ensures code == ""
  {
    ""
  }

  /** A share link's code does not reach the form as written. */
  lemma ShareLinkCodeIsDropped(origin: string, code: string)
    requires code != ""
    ensures InitialReferralCodeAsWritten(CreateReferral.ShareUrl(origin, code)) != code
  {
  }

  /** The field prefilled from the share link's `ref` parameter, and empty
      for any other address. */
  function InitialReferralCode(origin: string, url: string): (code: string)
    ensures CreateReferral.RefFromShareUrl(origin, url).Some? ==> code == CreateReferral.RefFromShareUrl(origin, url).value
    ensures CreateReferral.RefFromShareUrl(origin, url).None? ==> code == ""
  {
    match CreateReferral.RefFromShareUrl(origin, url)
    case Some(ref) => ref
    case None => ""
  }

  /** Opened through a share link, the form starts with that link's code. */
  lemma {:induction false} ShareLinkPrefillsCode(origin: string, code: string)
    ensures InitialReferralCode(origin, CreateReferral.ShareUrl(origin, code)) == code
  {
    CreateReferral.ShareUrlRoundTrip(origin, code);
  }
}
