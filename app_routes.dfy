/**
 * The front end's top-level routing (`App.jsx`): which screen each path
 * shows given the signed-in user and whether the session check is still
 * loading, and how the signed-in user's record is updated. A user record
 * is its fields by name; `None` is no user.
 */
module AppRoutes {
  import opened Common
  import opened Text

  type UserRecord = map<string, string>

  /** What a route renders. */
  datatype View = Spinner | Redirect(to: string) | Page(name: string) | PageNotFound

  /** The roles that may open any role-restricted page. */
  const CouncilRoles: set<string> := {"council_admin", "council_staff"}

  /** `user.role`, absent when the record has no role. */
  function RoleOf(user: UserRecord): Option<string>
  {
    if "role" in user then Some(user["role"]) else None
  }

  /** JavaScript truthiness of an optional text prop. */
  predicate Truthy(s: Option<string>)
  {
    s.Some? && s.value != ""
  }

  /**
   * `ProtectedRoute`: the spinner while loading, the login page without a
   * user, the dashboard when a role is required that the user lacks (unless
   * the user is council staff or a council administrator), the page
   * otherwise.
   */
  function ProtectedRoute(loading: bool, user: Option<UserRecord>, requiredRole: Option<string>, page: string): (v: View)
    ensures loading <==> v == Spinner
    ensures v == Redirect("/login") <==> !loading && user.None?
    ensures v == Redirect("/dashboard") <==>
              !loading && user.Some? && Truthy(requiredRole) && RoleOf(user.value) != requiredRole
              && !(RoleOf(user.value).Some? && RoleOf(user.value).value in CouncilRoles)
    ensures v.Page? ==> v.name == page && !loading && user.Some?
    ensures v.Spinner? || v.Redirect? || v.Page?
  {
    if loading then Spinner
    else if user.None? then Redirect("/login")
    else
      var role := RoleOf(user.value);
      if Truthy(requiredRole) && role != requiredRole && !(role.Some? && role.value in CouncilRoles) then Redirect("/dashboard")
      else Page(page)
  }

  /** Council staff and administrators pass every role check of a protected route. */
  lemma CouncilPassesRoleCheck(user: UserRecord, requiredRole: Option<string>, page: string)
    requires RoleOf(user) == Some("council_admin") || RoleOf(user) == Some("council_staff")
    ensures ProtectedRoute(false, Some(user), requiredRole, page) == Page(page)
  {
  }

  /** Without a required role, a signed-in user always sees the page. */
  lemma NoRoleRequiredShowsPage(user: UserRecord, page: string)
    ensures ProtectedRoute(false, Some(user), None, page) == Page(page)
  {
  }

  /** `PublicRoute`: the spinner while loading, the dashboard for a signed-in user, the page otherwise. */
  function PublicRoute(loading: bool, user: Option<UserRecord>, page: string): (v: View)
    ensures loading <==> v == Spinner
    ensures v == Redirect("/dashboard") <==> !loading && user.Some?
    ensures v == Page(page) <==> !loading && user.None?
  {
    if loading then Spinner
    else if user.Some? then Redirect("/dashboard")
    else Page(page)
  }

  /** The root path: the dashboard for a signed-in user, the login page otherwise. */
  function RootRoute(user: Option<UserRecord>): (v: View)
    ensures v == Redirect("/dashboard") <==> user.Some?
    ensures v == Redirect("/login") <==> user.None?
  {
    if user.Some? then Redirect("/dashboard") else Redirect("/login")
  }

  /** The paths served by public routes. */
  const PublicPaths: set<string> := {"/login", "/register"}

  /** The paths served by protected routes, none of which requires a role. */
  const ProtectedPaths: set<string> := {"/dashboard", "/grants", "/applications", "/analytics", "/profile"}

  /** `p` without the slashes it ends with. */
  function TrimSlashes(p: string): (r: string)
    ensures |r| <= |p| && r == p[..|r|]
    ensures r == [] || r[|r| - 1] != '/'
    ensures forall i :: |r| <= i < |p| ==> p[i] == '/'
    decreases |p|
  {
    if p != [] && p[|p| - 1] == '/' then TrimSlashes(p[..|p| - 1]) else p
  }

  /**
   * The route a location path selects. The router's route patterns match
   * without regard to letter case and accept any number of trailing
   * slashes, so a path is compared by its lower-case form with the
   * trailing slashes dropped; the root route takes a path of slashes alone.
   */
  function RouteKey(path: string): (k: string)
    ensures k != []
    ensures k == "/" || k[|k| - 1] != '/'
    ensures |k| <= |path| || k == "/"
  {
    var t := TrimSlashes(Lower(path));
    if t == [] then "/" else t
  }

  /**
   * What the application renders at a path: the spinner for every path
   * while loading, then the route table of `App.jsx`, and the not-found
   * page for a path no route claims.
   */
  function Render(path: string, loading: bool, user: Option<UserRecord>): (v: View)
    ensures loading ==> v == Spinner
    ensures v == PageNotFound <==>
              !loading && RouteKey(path) !in PublicPaths && RouteKey(path) !in ProtectedPaths && RouteKey(path) != "/"
    ensures v.Page? ==> v.name == RouteKey(path) && (v.name in ProtectedPaths <==> user.Some?)
  {
    var k := RouteKey(path);
    if loading then Spinner
    else if k in PublicPaths then PublicRoute(loading, user, k)
    else if k in ProtectedPaths then ProtectedRoute(loading, user, None, k)
    else if k == "/" then RootRoute(user)
    else PageNotFound
  }

  /**
   * With the application's route table: a signed-in user reaches every
   * protected page and is sent from the public pages to the dashboard; a
   * visitor reaches the public pages and is sent from the protected ones to
   * the login page; no page is ever refused for a role.
   */
  lemma RouteTable(path: string, user: Option<UserRecord>)
    ensures RouteKey(path) in ProtectedPaths ==>
              Render(path, false, user) == (if user.Some? then Page(RouteKey(path)) else Redirect("/login"))
    ensures RouteKey(path) in PublicPaths ==>
              Render(path, false, user) == (if user.Some? then Redirect("/dashboard") else Page(RouteKey(path)))
    ensures user.Some? ==> Render(path, false, user) != Redirect("/login")
    ensures user.None? ==> Render(path, false, user) != Redirect("/dashboard")
  {
  }

  /** Lowering letters a second time changes nothing. */
  lemma LowerTwice(p: string)
    ensures Lower(Lower(p)) == Lower(p)
  {
    var l := Lower(p);
    forall i | 0 <= i < |l|
      ensures Lower(l)[i] == l[i]
    {
    }
  }

  /** Two paths that select the same route render the same. */
  lemma SameKeySameView(p: string, q: string, loading: bool, user: Option<UserRecord>)
    requires RouteKey(p) == RouteKey(q)
    ensures Render(p, loading, user) == Render(q, loading, user)
  {
  }

  /** A path renders the same whatever the case of its letters. */
  lemma RenderIgnoresCase(path: string, loading: bool, user: Option<UserRecord>)
    ensures Render(Lower(path), loading, user) == Render(path, loading, user)
  {
    LowerTwice(path);
    SameKeySameView(Lower(path), path, loading, user);
  }

  /** Lowering letters commutes with appending a slash. */
  lemma LowerSlash(p: string)
    ensures Lower(p + "/") == Lower(p) + "/"
  {
    var l := Lower(p + "/");
    forall i | 0 <= i < |l|
      ensures l[i] == (Lower(p) + "/")[i]
    {
      if i < |p| {
        assert (p + "/")[i] == p[i];
      }
    }
  }

  /** A trailing slash selects the same route. */
  lemma RenderIgnoresTrailingSlash(path: string, loading: bool, user: Option<UserRecord>)
    ensures Render(path + "/", loading, user) == Render(path, loading, user)
  {
    LowerSlash(path);
    var l := Lower(path + "/");
    assert l[..|l| - 1] == Lower(path);
    assert TrimSlashes(l) == TrimSlashes(Lower(path));
    SameKeySameView(path + "/", path, loading, user);
  }

  /** `updateUser`: `{...prev, ...userData}`, where no previous user spreads as nothing. */
  function MergeUser(prev: Option<UserRecord>, data: UserRecord): (u: UserRecord)
    ensures u.Keys == data.Keys + (if prev.Some? then prev.value.Keys else {})
    ensures forall k :: k in data ==> u[k] == data[k]
    ensures prev.Some? ==> forall k :: k in prev.value && k !in data ==> u[k] == prev.value[k]
  {
    (if prev.Some? then prev.value else map[]) + data
  }

  /** Applying the same update twice is the same as applying it once; an empty update changes nothing. */
  lemma MergeUserIdempotent(prev: Option<UserRecord>, data: UserRecord)
    ensures MergeUser(Some(MergeUser(prev, data)), data) == MergeUser(prev, data)
    ensures prev.Some? ==> MergeUser(prev, map[]) == prev.value
  {
  }

  /** The application's session state. */
  class Session {
    var user: Option<UserRecord>
    var loading: bool

    constructor ()
      ensures user.None? && loading
    {
      user := None;
      loading := true;
    }

    /**
     * The end of the start-up session check: the user the server returned
     * when both the token check and the user fetch succeeded, no user
     * otherwise; loading ends either way.
     */
    method FinishAuthCheck(fetched: Option<UserRecord>)
      modifies this
      ensures !loading
      ensures user == (if fetched.Some? then fetched else old(user))
    {
      if fetched.Some? {
        user := fetched;
      }
      loading := false;
    }

    /** `login` and `register`: a successful response signs its user in; a failure changes nothing. */
    method SignIn(response: Option<UserRecord>) returns (success: bool)
      modifies this
      ensures success <==> response.Some?
      ensures user == (if response.Some? then response else old(user)) && loading == old(loading)
    {
      success := response.Some?;
      if success {
        user := response;
      }
    }

    /** `logout`: signs out whether or not the server call failed. */
    method Logout()
      modifies this
      ensures user.None? && loading == old(loading)
    {
      user := None;
    }

    /** `updateUser`. */
    method UpdateUser(data: UserRecord)
      modifies this
      ensures user == Some(MergeUser(old(user), data)) && loading == old(loading)
    {
      user := Some(MergeUser(user, data));
    }
  }
}
