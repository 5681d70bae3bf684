/**
  Role routing: where a successful login sends a user, and what each
  dashboard's mount effect does with the session it finds.
 */
module Guards {
  import opened Domain

  /** The navigable routes. */
  datatype Route = LoginRoute | AdminRoute | StudentRoute | StaffRoute {
    function Path(): string {
      match this
      case LoginRoute => "/"
      case AdminRoute => "/admin"
      case StudentRoute => "/student"
      case StaffRoute => "/staff"
    }
  }

  /** The three dashboards that guard themselves on mount. */
  datatype Page = AdminPage | StaffPage | StudentPage

  /** What a dashboard's mount effect does. */
  datatype MountDecision = Redirect(to: Route) | Fetch

  /** The if-chain after a successful login; a role outside the three known
      ones navigates nowhere. */
  function RouteForRole(role: string): (r: Option<Route>)
    ensures r == Some(AdminRoute) <==> role == ADMIN
    ensures r == Some(StudentRoute) <==> role == STUDENT
    ensures r == Some(StaffRoute) <==> role == STAFF
    ensures r != Some(LoginRoute)
    ensures r == None <==> role != ADMIN && role != STUDENT && role != STAFF
  {
    if role == ADMIN then Some(AdminRoute)
    else if role == STUDENT then Some(StudentRoute)
    else if role == STAFF then Some(StaffRoute)
    else None
  }

  /** The page behind each dashboard route. */
  function PageAt(r: Route): Option<Page> {
    match r
    case LoginRoute => None
    case AdminRoute => Some(AdminPage)
    case StudentRoute => Some(StudentPage)
    case StaffRoute => Some(StaffPage)
  }

  /** The mount guards as written: Admin demands role Admin, Staff admits
      Staff and Admin, Student admits any signed-in user whatever the role.
      No page fetches without a user, and every refusal goes to "/". */
  function MountGuard(page: Page, user: Option<User>): (d: MountDecision)
    ensures d.Redirect? ==> d.to == LoginRoute
    ensures d == Fetch ==> user.Some?
    ensures page == AdminPage ==> (d == Fetch <==> user.Some? && user.value.role == ADMIN)
    ensures page == StaffPage ==> (d == Fetch <==> user.Some? && (user.value.role == STAFF || user.value.role == ADMIN))
    ensures page == StudentPage ==> (d == Fetch <==> user.Some?)
  {
    match page
    case AdminPage =>
      if user.None? || user.value.role != ADMIN then Redirect(LoginRoute) else Fetch
    case StaffPage =>
      if user.None? || (user.value.role != STAFF && user.value.role != ADMIN) then Redirect(LoginRoute) else Fetch
    case StudentPage =>
      if user.None? then Redirect(LoginRoute) else Fetch
  }

  /** The guards nest: whoever the Admin page admits the Staff page admits,
      and whoever the Staff page admits the Student page admits. */
  lemma GuardsNest(user: Option<User>)
    ensures MountGuard(AdminPage, user) == Fetch ==> MountGuard(StaffPage, user) == Fetch
    ensures MountGuard(StaffPage, user) == Fetch ==> MountGuard(StudentPage, user) == Fetch
  {
  }

  /** A successful login with a known role lands on a page whose guard
      admits that user, so the landing page fetches instead of bouncing back. */
  lemma LoginLandsOnAdmittingPage(u: User)
    requires RouteForRole(u.role).Some?
    ensures var page := PageAt(RouteForRole(u.role).value);
      page.Some? && MountGuard(page.value, Some(u)) == Fetch
  {
  }

  /** Role mismatch on the Admin and Staff pages redirects; the Student page
      does not check the role, so a Staff or Admin session is admitted there. */
  lemma StudentPageIgnoresRole(u: User)
    ensures MountGuard(StudentPage, Some(u)) == Fetch
    ensures u.role != ADMIN ==> MountGuard(AdminPage, Some(u)) == Redirect(LoginRoute)
    ensures u.role == STUDENT ==> MountGuard(StaffPage, Some(u)) == Redirect(LoginRoute)
  {
  }
}
