/**
 * The client's route table and its guard (frontend/src/App.tsx): which screen a path shows, and
 * `ProtectedRoute`, which sends a visitor without a token, without a user or with the wrong role
 * to the login page. Paths are given as their '/'-separated segments.
 */
module AppRoutes {
  import opened Wrappers
  import opened Strings
  import opened Collections
  import Auth

  /** The signed-in staff member as the client stores it. */
  datatype ClientUser = ClientUser(role: string)

  datatype Screen =
    | TableLanding | MenuScreen | CartScreen | PaymentScreen | OrderScreen
    | LoginScreen | KitchenScreen | AdminMenu | AdminTables | AdminOrders | AdminAnalytics

  /** What `ProtectedRoute` does. */
  datatype Guarded = RedirectToLogin | RenderChildren

  /** `ProtectedRoute`: no token (an empty one counts as none) or no user goes to /login; so does a role outside `allowedRoles` when that list is given. */
  function ProtectedRoute(token: Option<string>, user: Option<ClientUser>, allowedRoles: Option<seq<string>>): (g: Guarded)
    ensures g == RenderChildren <==>
      && token.Some? && token.value != "" && user.Some?
      && (allowedRoles.Some? ==> user.value.role in allowedRoles.value)
  {
    if token.None? || token.value == "" || user.None? then RedirectToLogin
    else if allowedRoles.Some? && user.value.role !in allowedRoles.value then RedirectToLogin
    else RenderChildren
  }

  const KITCHEN_PAGE_ROLES: seq<string> := ["admin", "kitchen"]
  const ADMIN_PAGE_ROLES: seq<string> := ["admin"]

  /** An entry of the route table. */
  datatype Route =
    | Page(screen: Screen, roles: Option<seq<string>>)
    | Redirect(to: seq<string>)

  /** Trailing slashes (empty last segments) are ignored: a route pattern accepts any number after it. */
  function DropTrailingSlashes(path: seq<string>): (r: seq<string>)
    ensures r <= path
    ensures r == [] || r[|r| - 1] != ""
    ensures forall i :: |r| <= i < |path| ==> path[i] == ""
  {
    if path != [] && path[|path| - 1] == "" then DropTrailingSlashes(path[..|path| - 1]) else path
  }

  /**
   * The form a path is matched in. A literal segment of the route table matches without regard
   * to case: the pattern's regular expression carries the `i` flag without `u`, under which a
   * non-ASCII character never matches an ASCII one, so lower-casing the ASCII letters of the
   * visited path is exact against the table's lower-case literals.
   */
  function Normalise(path: seq<string>): (p: seq<string>)
    ensures |p| == |DropTrailingSlashes(path)|
    ensures forall i :: 0 <= i < |p| ==> p[i] == ToLower(path[i])
  {
    Map(DropTrailingSlashes(path), ToLower)
  }

  /** The routes of `App`, matched on the path's segments; an unmatched path goes to /login. */
  function Match(path: seq<string>): (r: Route)
    ensures r.Redirect? ==> r.to in {["admin", "menu"], ["login"]}
  {
    RouteOf(Normalise(path))
  }

  /** The route table on a normalised path; a `:param` segment is one or more characters other than '/'. */
  function RouteOf(p: seq<string>): (r: Route)
    ensures r.Redirect? ==> r.to in {["admin", "menu"], ["login"]}
  {
    if |p| == 2 && p[1] != "" && p[0] == "t" then Page(TableLanding, None)
    else if |p| == 2 && p[1] != "" && p[0] == "menu" then Page(MenuScreen, None)
    else if |p| == 2 && p[1] != "" && p[0] == "cart" then Page(CartScreen, None)
    else if |p| == 2 && p[1] != "" && p[0] == "payment" then Page(PaymentScreen, None)
    else if |p| == 2 && p[1] != "" && p[0] == "order" then Page(OrderScreen, None)
    else if p == ["login"] then Page(LoginScreen, None)
    else if p == ["kitchen"] then Page(KitchenScreen, Some(KITCHEN_PAGE_ROLES))
    else if p == ["admin"] then Redirect(["admin", "menu"])
    else if p == ["admin", "menu"] then Page(AdminMenu, Some(ADMIN_PAGE_ROLES))
    else if p == ["admin", "tables"] then Page(AdminTables, Some(ADMIN_PAGE_ROLES))
    else if p == ["admin", "orders"] then Page(AdminOrders, Some(ADMIN_PAGE_ROLES))
    else if p == ["admin", "analytics"] then Page(AdminAnalytics, Some(ADMIN_PAGE_ROLES))
    else Redirect(["login"])
  }

  /** Appending slashes to a path does not change the route it matches. */
  lemma TrailingSlashIgnored(path: seq<string>, slashes: nat)
    ensures Match(path + seq(slashes, _ => "")) == Match(path)
  {
    SlashesDropped(path, slashes);
  }

  lemma {:induction false} SlashesDropped(path: seq<string>, slashes: nat)
    ensures DropTrailingSlashes(path + seq(slashes, _ => "")) == DropTrailingSlashes(path)
    decreases slashes
  {
    if slashes > 0 {
      var q := path + seq(slashes, _ => "");
      assert q[..|q| - 1] == path + seq(slashes - 1, _ => "");
      SlashesDropped(path, slashes - 1);
    } else {
      assert path + seq(slashes, _ => "") == path;
    }
  }

  /** Changing the case of the ASCII letters of a path does not change the route it matches. */
  lemma CaseIgnored(path: seq<string>)
    ensures Match(Map(path, ToLower)) == Match(path)
  {
    LowerNormalised(path);
  }

  lemma LowerNormalised(path: seq<string>)
    ensures Normalise(Map(path, ToLower)) == Normalise(path)
  {
    var lp := Map(path, ToLower);
    LowerDropped(path);
    var a, b := Normalise(lp), Normalise(path);
    assert |a| == |b|;
    forall k | 0 <= k < |a| ensures a[k] == b[k] {
      assert lp[k] == ToLower(path[k]);
      ToLowerIdempotent(path[k]);
    }
  }

  /** Dropping trailing slashes commutes with lower-casing, segment by segment. */
  lemma {:induction false} LowerDropped(path: seq<string>)
    ensures DropTrailingSlashes(Map(path, ToLower)) == Map(DropTrailingSlashes(path), ToLower)
    decreases |path|
  {
    var lp := Map(path, ToLower);
    if path != [] {
      var n := |path| - 1;
      assert lp[n] == ToLower(path[n]);
      assert lp[..n] == Map(path[..n], ToLower);
      LowerDropped(path[..n]);
    }
  }

  /** The screen a page route shows: its own when there is no guard or the guard lets the visitor through, else the login page. */
  function Show(r: Route, token: Option<string>, user: Option<ClientUser>): Screen
    requires r.Page?
  {
    if r.roles.None? || ProtectedRoute(token, user, r.roles) == RenderChildren then r.screen else LoginScreen
  }

  /** The screen a visitor ends up on; a redirect is followed once. The /admin index is inside the admin guard, which asks for the same role as its target. */
  function Display(path: seq<string>, token: Option<string>, user: Option<ClientUser>): Screen {
    var r := Match(path);
    if r.Page? then Show(r, token, user)
    else
      assert Match(["admin", "menu"]).Page? && Match(["login"]).Page? by {
        LowerCaseKept(["admin", "menu"]);
        LowerCaseKept(["login"]);
      }
      Show(Match(r.to), token, user)
  }

  /** A path already in lower case, without a trailing slash, is its own normal form. */
  lemma LowerCaseKept(path: seq<string>)
    requires path == [] || path[|path| - 1] != ""
    requires forall i, k :: 0 <= i < |path| && 0 <= k < |path[i]| ==> !('A' <= path[i][k] <= 'Z')
    ensures Normalise(path) == path
  {
    forall i | 0 <= i < |path| ensures ToLower(path[i]) == path[i] {
    }
  }

  predicate SignedIn(token: Option<string>, user: Option<ClientUser>) {
    token.Some? && token.value != "" && user.Some?
  }

  predicate IsAdminScreen(s: Screen) {
    s in {AdminMenu, AdminTables, AdminOrders, AdminAnalytics}
  }

  /** The kitchen screen needs a signed-in admin or kitchen user; every admin screen needs a signed-in admin. */
  lemma StaffScreensGuarded(path: seq<string>, token: Option<string>, user: Option<ClientUser>)
    ensures Display(path, token, user) == KitchenScreen ==> SignedIn(token, user) && user.value.role in ["admin", "kitchen"]
    ensures IsAdminScreen(Display(path, token, user)) ==> SignedIn(token, user) && user.value.role == "admin"
  {
    RedirectTargets();
    var r := Match(path);
    GuardedRoutes(Normalise(path));
    if r.Redirect? {
      assert r.to == ["admin", "menu"] || r.to == ["login"];
    }
  }

  /** Where the two redirects of the table lead. */
  lemma RedirectTargets()
    ensures Match(["admin", "menu"]) == Page(AdminMenu, Some(ADMIN_PAGE_ROLES))
    ensures Match(["login"]) == Page(LoginScreen, None)
  {
    LowerCaseKept(["admin", "menu"]);
    LowerCaseKept(["login"]);
  }

  /** Every route to a staff screen carries its guard. */
  lemma GuardedRoutes(p: seq<string>)
    ensures RouteOf(p).Page? && RouteOf(p).screen == KitchenScreen ==> RouteOf(p).roles == Some(KITCHEN_PAGE_ROLES)
    ensures RouteOf(p).Page? && IsAdminScreen(RouteOf(p).screen) ==> RouteOf(p).roles == Some(ADMIN_PAGE_ROLES)
    ensures RouteOf(p).Redirect? ==> RouteOf(p).to in {["admin", "menu"], ["login"]}
  {
  }

  /** /admin lands on the menu page for an admin; any path the table does not know lands on the login page */
  lemma Redirects(token: Option<string>, user: Option<ClientUser>)
    ensures SignedIn(token, user) && user.value.role == "admin" ==> Display(["admin"], token, user) == AdminMenu
    ensures Display(["nowhere"], token, user) == LoginScreen
    ensures Display([], token, user) == LoginScreen
  {
    LowerCaseKept(["admin"]);
    LowerCaseKept(["admin", "menu"]);
    LowerCaseKept(["nowhere"]);
    LowerCaseKept(["login"]);
    LowerCaseKept([]);
  }

  /** In the browser /Kitchen/ is the guarded kitchen page, not the login page. */
  lemma KitchenAnyCase()
    ensures Match(["Kitchen", ""]) == Page(KitchenScreen, Some(KITCHEN_PAGE_ROLES))
  {
    TrailingSlashIgnored(["Kitchen"], 1);
    assert ["Kitchen"] + seq(1, _ => "") == ["Kitchen", ""];
    CaseIgnored(["Kitchen"]);
    assert ToLower("Kitchen") == "kitchen";
    assert Map(["Kitchen"], ToLower) == ["kitchen"];
    LowerCaseKept(["kitchen"]);
  }

  /** The roles the client asks for on each staff page are the roles the server's `authorize` accepts on the routes behind it. */
  lemma ClientGuardsMatchServer(token: Option<string>, id: nat, role: string, isActive: bool)
    requires token.Some? && token.value != ""
    ensures (ProtectedRoute(token, Some(ClientUser(role)), Some(KITCHEN_PAGE_ROLES)) == RenderChildren)
      == (Auth.Authorize(Auth.KITCHEN_ROLES, Some(Auth.User(id, role, isActive))) == Auth.Next)
    ensures (ProtectedRoute(token, Some(ClientUser(role)), Some(ADMIN_PAGE_ROLES)) == RenderChildren)
      == (Auth.Authorize(Auth.ADMIN_ROLES, Some(Auth.User(id, role, isActive))) == Auth.Next)
  {
  }
}
