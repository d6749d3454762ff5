/** The route layer of `App`: the two guards `ProtectedRoute` and
    `PublicRoute`, and the `<Routes>` table that maps a location's path to a
    page and wraps it in one of them. */
module AppRoutes {
  import opened Util

  /** The pages of the route table. `Root` is the `/` entry, which only
      redirects; `NotFound` is the `*` fallback. */
  datatype Page =
    | LoginPage | RegisterPage | InstallPage
    | DashboardPage | KeysPage | TransactionsPage | ProviderPlansPage
    | UploadKeysPage | ResetKeyPage | UsersPage | UserProfilePage(userId: string)
    | GenerateKeysPage | ChangePasswordPage | UnsoldKeysPage | MyBonusPage
    | BonusListPage | CreateReferralPage
    | Root | NotFound

  /** What a guard (or the `/` entry) renders: the loader, the page, or a
      `<Navigate>` to another path. Exactly one of the three, by construction. */
  datatype View = Loader | Show(page: Page) | Redirect(to: string)

  const LoginPath := "/login"
  const DashboardPath := "/dashboard"
  const ProfilePrefix := "/user-profile/"

  /** `ProtectedRoute`: the loader while the session is loading, the page for
      a signed-in user, and a redirect to the login page otherwise. */
  function ProtectedRoute(page: Page, signedIn: bool, loading: bool): (v: View)
    ensures v == Loader <==> loading
    ensures v.Show? ==> v.page == page && signedIn
    ensures v.Redirect? ==> v.to == LoginPath && !signedIn
    ensures !loading && signedIn ==> v == Show(page)
  {
    if loading then Loader else if signedIn then Show(page) else Redirect(LoginPath)
  }

  /** `PublicRoute`: the loader while loading, the page for an anonymous
      visitor, and a redirect to the dashboard for a signed-in user. */
  function PublicRoute(page: Page, signedIn: bool, loading: bool): (v: View)
    ensures v == Loader <==> loading
    ensures v.Show? ==> v.page == page && !signedIn
    ensures v.Redirect? ==> v.to == DashboardPath && signedIn
    ensures !loading && !signedIn ==> v == Show(page)
  {
    if loading then Loader else if !signedIn then Show(page) else Redirect(DashboardPath)
  }

  /** Once loading is over, the two guards split every session between them:
      the protected guard shows its page exactly when the public guard
      redirects, and the other way round. */
  lemma GuardsAreComplementary(p: Page, q: Page, signedIn: bool)
    ensures ProtectedRoute(p, signedIn, false).Show? <==> PublicRoute(q, signedIn, false).Redirect?
    ensures PublicRoute(q, signedIn, false).Show? <==> ProtectedRoute(p, signedIn, false).Redirect?
  {
  }

  /** ASCII case folding, as the router's case-insensitive matching applies
      it: every path of the table is lower-case, so a path matches an entry
      exactly when its folded form equals that entry. */
  function LowerAscii(c: char): char {
    if 'A' <= c <= 'Z' then (c as int + 32) as char else c
  }

  function LowerAll(s: string): (r: string)
    ensures |r| == |s| && forall i :: 0 <= i < |s| ==> r[i] == LowerAscii(s[i])
    ensures Lowercase(r)
    ensures Lowercase(s) ==> r == s
  {
    seq(|s|, i requires 0 <= i < |s| => LowerAscii(s[i]))
  }

  predicate Lowercase(s: string) {
    forall i :: 0 <= i < |s| ==> !('A' <= s[i] <= 'Z')
  }

  /** The router ignores trailing slashes when it matches a path. */
  function StripTrailingSlashes(s: string): (r: string)
    ensures |r| <= |s| && r == s[..|r|]
    ensures r == [] || r[|r| - 1] != '/'
    ensures forall i :: |r| <= i < |s| ==> s[i] == '/'
  {
    if |s| > 0 && s[|s| - 1] == '/' then StripTrailingSlashes(s[..|s| - 1]) else s
  }

  /** A lower-case path without a trailing slash is its own folded form. */
  lemma FoldsToItself(p: string)
    requires Lowercase(p) && (p == [] || p[|p| - 1] != '/')
    ensures StripTrailingSlashes(p) == p && LowerAll(StripTrailingSlashes(p)) == p
  {
  }

  /** The page of the route table that the router picks for a location path:
      a static path matches case-insensitively, `/user-profile/:userId`
      takes exactly one further non-empty segment, and anything else falls to
      the `*` entry. */
  function MatchRoute(path: string): (page: Page)
    ensures page == Root <==> forall i :: 0 <= i < |path| ==> path[i] == '/'
    ensures page.UserProfilePage? ==>
      page.userId != [] && '/' !in page.userId &&
      StartsWith(LowerAll(path), ProfilePrefix) && StartsWith(path[|ProfilePrefix|..], page.userId)
  {
    var p := StripTrailingSlashes(path);
    var q := LowerAll(p);
    if q == [] then Root
    else if q == "/login" then LoginPage
    else if q == "/register" then RegisterPage
    else if q == "/download-app" then InstallPage
    else if q == "/dashboard" then DashboardPage
    else if q == "/keys" then KeysPage
    else if q == "/transactions" then TransactionsPage
    else if q == "/provider-plans" then ProviderPlansPage
    else if q == "/upload-keys" then UploadKeysPage
    else if q == "/reset-key" then ResetKeyPage
    else if q == "/users" then UsersPage
    else if |q| > |ProfilePrefix| && q[..|ProfilePrefix|] == ProfilePrefix
            && '/' !in p[|ProfilePrefix|..] then UserProfilePage(p[|ProfilePrefix|..])
    else if q == "/generate-keys" then GenerateKeysPage
    else if q == "/change-password" then ChangePasswordPage
    else if q == "/unsold-keys" then UnsoldKeysPage
    else if q == "/my-bonus" then MyBonusPage
    else if q == "/bonus-list" then BonusListPage
    else if q == "/create-ref" then CreateReferralPage
    else NotFound
  }

  predicate IsPublic(page: Page) {
    page == LoginPage || page == RegisterPage || page == InstallPage
  }

  /** What the app renders at `path`: `/` redirects to the dashboard with no
      guard of its own, the three public pages sit behind `PublicRoute`, and
      every other page, the `*` fallback included, behind `ProtectedRoute`. */
  function Render(path: string, signedIn: bool, loading: bool): (v: View)
    ensures MatchRoute(path) == Root ==> v == Redirect(DashboardPath)
    ensures loading && MatchRoute(path) != Root ==> v == Loader
    ensures v.Show? ==> v.page == MatchRoute(path) && (IsPublic(v.page) <==> !signedIn)
    ensures v.Redirect? ==> v.to == LoginPath || v.to == DashboardPath
  {
    var page := MatchRoute(path);
    if page == Root then Redirect(DashboardPath)
    else if IsPublic(page) then PublicRoute(page, signedIn, loading)
    else ProtectedRoute(page, signedIn, loading)
  }

  /** While the session loads, every path shows the loader, except `/`,
      which redirects to the dashboard at once. */
  lemma LoadingShowsOnlyTheLoader(path: string, signedIn: bool)
    ensures Render(path, signedIn, true) ==
      if MatchRoute(path) == Root then Redirect(DashboardPath) else Loader
  {
  }

  /** An unknown path never shows the 404 page to an anonymous visitor: it
      redirects to the login page. */
  lemma UnknownPathNeedsSignIn(path: string)
    requires MatchRoute(path) == NotFound
    ensures Render(path, false, false) == Redirect(LoginPath)
    ensures Render(path, true, false) == Show(NotFound)
  {
  }

  /** Once loading is over, an anonymous visitor is shown only public pages
      and a signed-in user only the others. */
  lemma ShownPagesFollowTheSession(path: string, signedIn: bool)
    ensures Render(path, signedIn, false).Show? ==>
      (IsPublic(Render(path, signedIn, false).page) <==> !signedIn)
  {
  }

  lemma {:induction false} MatchLogin()
    ensures MatchRoute(LoginPath) == LoginPage
  {
    FoldsToItself(LoginPath);
  }

  lemma {:induction false} MatchDashboard()
    ensures MatchRoute(DashboardPath) == DashboardPage
  {
    FoldsToItself(DashboardPath);
  }

  // Each static path of the table, written as the links write it, opens its page.

  lemma MatchKeys()
    ensures MatchRoute("/keys") == KeysPage
  {
    FoldsToItself("/keys");
  }

  lemma MatchGenerateKeys()
    ensures MatchRoute("/generate-keys") == GenerateKeysPage
  {
    FoldsToItself("/generate-keys");
  }

  lemma MatchTransactions()
    ensures MatchRoute("/transactions") == TransactionsPage
  {
    FoldsToItself("/transactions");
  }

  lemma MatchResetKey()
    ensures MatchRoute("/reset-key") == ResetKeyPage
  {
    FoldsToItself("/reset-key");
  }

  lemma MatchUsers()
    ensures MatchRoute("/users") == UsersPage
  {
    FoldsToItself("/users");
  }

  lemma MatchUploadKeys()
    ensures MatchRoute("/upload-keys") == UploadKeysPage
  {
    FoldsToItself("/upload-keys");
  }

  lemma MatchProviderPlans()
    ensures MatchRoute("/provider-plans") == ProviderPlansPage
  {
    FoldsToItself("/provider-plans");
  }

  lemma MatchUnsoldKeys()
    ensures MatchRoute("/unsold-keys") == UnsoldKeysPage
  {
    FoldsToItself("/unsold-keys");
  }

  lemma MatchBonusList()
    ensures MatchRoute("/bonus-list") == BonusListPage
  {
    FoldsToItself("/bonus-list");
  }

  lemma MatchCreateReferral()
    ensures MatchRoute("/create-ref") == CreateReferralPage
  {
    FoldsToItself("/create-ref");
  }

  lemma MatchMyBonus()
    ensures MatchRoute("/my-bonus") == MyBonusPage
  {
    FoldsToItself("/my-bonus");
  }

  lemma MatchChangePassword()
    ensures MatchRoute("/change-password") == ChangePasswordPage
  {
    FoldsToItself("/change-password");
    assert ("/change-password")[..|ProfilePrefix|] != ProfilePrefix by {
      assert ("/change-password")[1] != ProfilePrefix[1];
    }
  }

  lemma MatchRegister()
    ensures MatchRoute("/register") == RegisterPage
  {
    FoldsToItself("/register");
  }

  lemma MatchInstall()
    ensures MatchRoute("/download-app") == InstallPage
  {
    FoldsToItself("/download-app");
  }

  /** The three public paths are the pages `PublicRoute` guards. */
  lemma {:induction false} PublicPathsArePublic()
    ensures IsPublic(MatchRoute(LoginPath)) && IsPublic(MatchRoute("/register"))
    ensures IsPublic(MatchRoute("/download-app"))
  {
    MatchLogin();
    MatchRegister();
    MatchInstall();
  }

  /** Every redirect settles within two hops on a page that is shown: the
      login page for an anonymous visitor, the dashboard for a signed-in
      user. No path sends the router round in a loop. */
  lemma {:induction false} RedirectsSettle(path: string, signedIn: bool)
    requires Render(path, signedIn, false).Redirect?
    ensures var next := Render(Render(path, signedIn, false).to, signedIn, false);
      next.Show? || (next.Redirect? && Render(next.to, signedIn, false).Show?)
    ensures var next := Render(Render(path, signedIn, false).to, signedIn, false);
      next.Show? ==> next.page == (if signedIn then DashboardPage else LoginPage)
  {
    MatchLogin();
    MatchDashboard();
  }

  /** The link `/user-profile/<id>` opens the profile page of exactly that id,
      for an id that is one non-empty path segment. */
  lemma {:induction false} ProfileLinkMatches(id: string)
    requires id != [] && '/' !in id
    ensures MatchRoute(ProfilePrefix + id) == UserProfilePage(id)
  {
    var p := ProfilePrefix + id;
    assert p[|p| - 1] == id[|id| - 1];
    assert StripTrailingSlashes(p) == p;
    var q := LowerAll(p);
    assert q[..|ProfilePrefix|] == ProfilePrefix;
    assert p[|ProfilePrefix|..] == id;
    assert |q| > 14;
    assert q != "/provider-plans" by {
      assert q[1] == 'u';
    }
  }

  /** The profile route takes one segment only: a path with a second
      segment after the id opens no profile page. */
  lemma {:induction false} ProfileTakesOneSegment(a: string, b: string)
    requires a != [] && '/' !in a && b != [] && b[|b| - 1] != '/'
    ensures !MatchRoute(ProfilePrefix + a + "/" + b).UserProfilePage?
  {
    var path := ProfilePrefix + a + "/" + b;
    assert path[|path| - 1] == b[|b| - 1];
    assert StripTrailingSlashes(path) == path;
    assert path[|ProfilePrefix|..][|a|] == '/';
  }
}
