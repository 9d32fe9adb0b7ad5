/** Which page a path shows, depending on whether the session holds an email, and when
    the sidebar is drawn. */
module Routing {
  import opened Wrappers
  import opened Text

  /** The routes of the application shell; `Unmatched` is every other path. */
  datatype Path =
    | Login
    | SignupPage
    | Dashboard(regno: string)
    | ForgotPassword
    | ResetPassword(resetToken: string)
    | Home
    | Schedule
    | ViewMeetings
    | Unmatched(raw: string)

  /** What the router does with a path: draw the page, or redirect (replacing the history
      entry) to another path. */
  datatype View = Render(page: Path) | Redirect(target: Path)

  /** The session counts as signed in when the email read from session storage is
      truthy: that value is null or a string, and of those only null and "" are falsy. */
  predicate SignedIn(email: Option<string>)
    ensures SignedIn(email) <==> email != None && email != Some("")
  {
    email.Some? && email.value != ""
  }

  /** The pages wrapped in the private-route guard. */
  predicate IsProtected(path: Path)
  {
    path.Dashboard? || path.Home? || path.Schedule? || path.ViewMeetings?
  }

  /** The private-route guard: draw the page when signed in, else go to the login page. */
  function Private(email: Option<string>, page: Path): (v: View)
    ensures v.Render? <==> SignedIn(email)
    ensures v.Render? ==> v.page == page
    ensures v.Redirect? ==> v.target == Login
  {
    if SignedIn(email) then Render(page) else Redirect(Login)
  }

  /** The route table. Protected pages go through the guard, public ones are always
      drawn, and any other path redirects to the home page when signed in and to the
      login page otherwise. */
  function Route(path: Path, email: Option<string>): (v: View)
    ensures v.Render? ==> v.page == path && !path.Unmatched?
    ensures IsProtected(path) ==> (v.Render? <==> SignedIn(email))
    ensures IsProtected(path) && !SignedIn(email) ==> v == Redirect(Login)
    ensures !IsProtected(path) && !path.Unmatched? ==> v == Render(path)
    ensures path.Unmatched? ==> v == Redirect(if SignedIn(email) then Home else Login)
  {
    match path
    case Login => Render(path)
    case SignupPage => Render(path)
    case Dashboard(_) => Private(email, path)
    case ForgotPassword => Render(path)
    case ResetPassword(_) => Render(path)
    case Home => Private(email, path)
    case Schedule => Private(email, path)
    case ViewMeetings => Private(email, path)
    case Unmatched(_) => Redirect(if SignedIn(email) then Home else Login)
  }

  /** Routing never loops: a redirect always lands on a page that is drawn. */
  lemma RouteSettlesAfterOneRedirect(path: Path, email: Option<string>)
    ensures Route(path, email).Redirect? ==> Route(Route(path, email).target, email).Render?
  {
  }

  /** With no email in the session (after sign-out clears it) or an empty one, every
      protected page redirects to the login page. */
  lemma SignedOutSeesLogin(path: Path)
    requires IsProtected(path)
    ensures Route(path, None) == Redirect(Login)
    ensures Route(path, Some("")) == Redirect(Login)
  {
  }

  /** The path prefixes on which the sidebar is hidden. */
  const NoSidebarPrefixes: seq<string> := ["/login", "/signup", "/forgot-password", "/reset-password"]

  /** The sidebar is hidden when the path starts with one of the prefixes, so
      "/reset-password/abc" and even "/login-help" hide it. */
  predicate HideSidebar(pathname: string)
    ensures HideSidebar(pathname) <==>
      || StartsWith(pathname, "/login") || StartsWith(pathname, "/signup")
      || StartsWith(pathname, "/forgot-password") || StartsWith(pathname, "/reset-password")
  {
    exists prefix :: prefix in NoSidebarPrefixes && StartsWith(pathname, prefix)
  }

  /** The beginnings of the paths of the signed-in pages: the three the sidebar links to
      and the dashboard. */
  const AppPagePrefixes: seq<string> := ["/home", "/schedule", "/view-meetings", "/dashboard/"]

  /** The sidebar is drawn exactly when its path is not hidden and the session is signed
      in; in particular it is drawn, for a signed-in user, on every page it links to and
      on every dashboard. */
  function SidebarShown(pathname: string, email: Option<string>): (shown: bool)
    ensures shown ==> SignedIn(email) && !HideSidebar(pathname)
    ensures SignedIn(email) && !HideSidebar(pathname) ==> shown
    ensures SignedIn(email) && (exists page :: page in AppPagePrefixes && StartsWith(pathname, page))
      ==> shown
  {
    AppPagesNotHidden(pathname);
    !HideSidebar(pathname) && SignedIn(email)
  }

  /** No path of a signed-in page starts with a hiding prefix: each such path differs
      from every hiding prefix in one of the two characters after the slash. */
  lemma AppPagesNotHidden(pathname: string)
    ensures (exists page :: page in AppPagePrefixes && StartsWith(pathname, page))
      ==> !HideSidebar(pathname)
  {
    if page :| page in AppPagePrefixes && StartsWith(pathname, page) {
      assert pathname[1] == pathname[..|page|][1] == page[1];
      assert pathname[2] == pathname[..|page|][2] == page[2];
      forall prefix | prefix in NoSidebarPrefixes
        ensures !StartsWith(pathname, prefix)
      {
        if |prefix| <= |pathname| {
          assert pathname[1] != prefix[1] || pathname[2] != prefix[2];
          assert pathname[..|prefix|][1] == pathname[1] && pathname[..|prefix|][2] == pathname[2];
        }
      }
    }
  }

  /** The sidebar is hidden, whatever the session, on every path that starts with
      "/login", "/signup", "/forgot-password" or "/reset-password". */
  lemma SidebarHiddenOnAuthPages(pathname: string, email: Option<string>)
    requires || StartsWith(pathname, "/login") || StartsWith(pathname, "/signup")
             || StartsWith(pathname, "/forgot-password") || StartsWith(pathname, "/reset-password")
    ensures !SidebarShown(pathname, email)
  {
  }
}
