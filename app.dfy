/** The application shell: which screen each path shows (the public landing page, the login
    page, the guarded pages), when the sidebar and the bottom navigation appear, and logging
    out. `App` has no state and is rendered once per page load, so the "/" route, the sidebar
    and the bottom navigation see the token as it was at load; only the guard reads storage
    again, each time a guarded route mounts. */
module App {
  import opened Js
  import opened Browser

  /** What `ProtectedRoute` does: send the visitor elsewhere, or render the guarded page. */
  datatype Decision = RedirectTo(path: string) | RenderChildren

  /** `ProtectedRoute`: no token sends to the login page whatever the role; a required role
      the stored user does not have sends to "/" (a missing user reads as `{}`, which has no
      role); anything else renders the page. So any token, the guest token included, opens
      the pages that require no role, and after a logout every guarded page sends the
      visitor to the login page. */
  function Guard(token: Option<string>, user: Option<User>, roleRequired: Option<string>): (d: Decision)
    ensures !Truthy(token) ==> d == RedirectTo("/login")
    ensures Truthy(token) && Truthy(roleRequired) && (user.None? || user.value.role != roleRequired) ==>
              d == RedirectTo("/")
    ensures d == RenderChildren <==>
              Truthy(token) && (!Truthy(roleRequired) || (user.Some? && user.value.role == roleRequired))
  {
    if !Truthy(token) then RedirectTo("/login")
    else if Truthy(roleRequired) && (user.None? || user.value.role != roleRequired) then RedirectTo("/")
    else RenderChildren
  }

  /** What a path shows. */
  datatype Screen = Landing | LoginPage | Navigate(to: string) | Page(name: string) | NoMatch

  /** The guarded routes that require no role, by route path. */
  const PROTECTED_PAGES: map<string, string> := map[
    "/dashboard" := "Home",
    "/learn" := "Learn",
    "/services" := "Services",
    "/profile" := "Profile",
    "/simulation/upi" := "UPISimulation"
  ]

  /** `path` without the slashes it ends with. */
  function DropTrailingSlashes(path: string): (r: string)
    ensures |r| <= |path| && r == path[..|r|]
    ensures r == [] || r[|r| - 1] != '/'
    ensures forall i :: |r| <= i < |path| ==> path[i] == '/'
    decreases |path|
  {
    if path != [] && path[|path| - 1] == '/' then DropTrailingSlashes(path[..|path| - 1]) else path
  }

  /** The form in which the router compares a location with a route path: it ignores the
      case of letters and any trailing slashes. */
  function Canonical(path: string): string
  {
    ToLowerCase(DropTrailingSlashes(path))
  }

  /** The location `path` matches the route path `route`, which is lower-case and has no
      trailing slash; the root route matches a location made of slashes only. */
  predicate Matches(path: string, route: string)
  {
    if route == "/" then path != [] && Canonical(path) == [] else Canonical(path) == route
  }

  function Guarded(d: Decision, name: string): (s: Screen)
    ensures d.RedirectTo? ==> s == Navigate(d.path)
    ensures d == RenderChildren ==> s == Page(name)
  {
    match d
    case RedirectTo(p) => Navigate(p)
    case RenderChildren => Page(name)
  }

  /** The route table. "/" sends a visitor who had a token when the page loaded to the
      dashboard and shows everyone else the landing page; "/login" is public; the other pages
      go through the guard, which reads the current token and user, "/admin" with the
      "admin" role; any other location matches no route. */
  function RouteScreen(path: string, loadToken: Option<string>, token: Option<string>,
                       user: Option<User>): (s: Screen)
    ensures Matches(path, "/") ==> s == (if Truthy(loadToken) then Navigate("/dashboard") else Landing)
    ensures Matches(path, "/login") ==> s == LoginPage
    ensures Canonical(path) in PROTECTED_PAGES ==>
              s == Guarded(Guard(token, user, None), PROTECTED_PAGES[Canonical(path)])
    ensures Matches(path, "/admin") ==> s == Guarded(Guard(token, user, Some("admin")), "Admin")
    ensures s == NoMatch <==>
              !Matches(path, "/") && Canonical(path) !in PROTECTED_PAGES && Canonical(path) !in {"/login", "/admin"}
  {
    if Matches(path, "/") then (if Truthy(loadToken) then Navigate("/dashboard") else Landing)
    else if Matches(path, "/login") then LoginPage
    else if Canonical(path) in PROTECTED_PAGES then Guarded(Guard(token, user, None), PROTECTED_PAGES[Canonical(path)])
    else if Matches(path, "/admin") then Guarded(Guard(token, user, Some("admin")), "Admin")
    else NoMatch
  }

  /** A route path written as in the table is its own canonical form. */
  lemma {:induction false} CanonicalOfPlainPath(path: string)
    requires path == [] || path[|path| - 1] != '/'
    requires forall i :: 0 <= i < |path| ==> !('A' <= path[i] <= 'Z')
    ensures Canonical(path) == path
  {
    assert DropTrailingSlashes(path) == path;
    assert forall i :: 0 <= i < |path| ==> LowerChar(path[i]) == path[i];
  }

  /** The route paths of the table are their own canonical forms. */
  lemma RoutePathsAreCanonical()
    ensures Canonical("/") == [] && Canonical("/login") == "/login" && Canonical("/admin") == "/admin"
    ensures forall p :: p in PROTECTED_PAGES ==> Canonical(p) == p
  {
    CanonicalOfPlainPath("/login");
    CanonicalOfPlainPath("/admin");
    CanonicalOfPlainPath("/dashboard");
    CanonicalOfPlainPath("/learn");
    CanonicalOfPlainPath("/services");
    CanonicalOfPlainPath("/profile");
    CanonicalOfPlainPath("/simulation/upi");
    assert DropTrailingSlashes("/") == DropTrailingSlashes([]);
  }

  /** A trailing slash never changes the screen: "/dashboard/" shows what "/dashboard" does. */
  lemma RoutingIgnoresTrailingSlash(path: string, loadToken: Option<string>, token: Option<string>,
                                    user: Option<User>)
    requires path != []
    ensures RouteScreen(path + "/", loadToken, token, user) == RouteScreen(path, loadToken, token, user)
  {
    assert (path + "/")[..|path|] == path;
    assert DropTrailingSlashes(path + "/") == DropTrailingSlashes(path);
  }

  /** Lower-casing the text after the trailing slashes are gone leaves nothing to drop. */
  lemma LowerKeepsSlashes(path: string)
    ensures DropTrailingSlashes(ToLowerCase(path)) == ToLowerCase(DropTrailingSlashes(path))
    decreases |path|
  {
    if path != [] && path[|path| - 1] == '/' {
      assert ToLowerCase(path)[..|path| - 1] == ToLowerCase(path[..|path| - 1]);
      LowerKeepsSlashes(path[..|path| - 1]);
    }
  }

  /** The case of letters never changes the screen: "/Dashboard" shows what "/dashboard" does. */
  lemma RoutingIgnoresCase(path: string, loadToken: Option<string>, token: Option<string>,
                           user: Option<User>)
    ensures RouteScreen(ToLowerCase(path), loadToken, token, user) == RouteScreen(path, loadToken, token, user)
  {
    LowerKeepsSlashes(path);
    var d := DropTrailingSlashes(path);
    assert ToLowerCase(ToLowerCase(d)) == ToLowerCase(d);
  }

  /** The token read at load decides only the root route: every other location shows the
      same screen whatever that snapshot was. */
  lemma OnlyRootReadsLoadToken(path: string, loadToken: Option<string>, loadToken': Option<string>,
                               token: Option<string>, user: Option<User>)
    requires !Matches(path, "/")
    ensures RouteScreen(path, loadToken, token, user) == RouteScreen(path, loadToken', token, user)
  {
  }

  /** The screen reached by following at most `hops` redirects from `path`. */
  function Settle(path: string, loadToken: Option<string>, token: Option<string>, user: Option<User>,
                  hops: nat): Screen
    decreases hops
  {
    var s := RouteScreen(path, loadToken, token, user);
    if s.Navigate? && hops > 0 then Settle(s.to, loadToken, token, user, hops - 1) else s
  }

  /** Redirects never loop: from any location, at most two redirects lead to a screen that is
      shown (the admin page without the role goes to "/" and from there to the dashboard).
      Without a current token every guarded location ends on the login page. The root shows
      the dashboard only when a token was there at load and still is; without one at load it
      shows the landing page, even after a login made since. */
  lemma RedirectsSettle(path: string, loadToken: Option<string>, token: Option<string>, user: Option<User>)
    ensures !Settle(path, loadToken, token, user, 2).Navigate?
    ensures !Truthy(token) && (Canonical(path) in PROTECTED_PAGES || Matches(path, "/admin")) ==>
              Settle(path, loadToken, token, user, 2) == LoginPage
    ensures Truthy(loadToken) && Truthy(token) && Matches(path, "/") ==>
              Settle(path, loadToken, token, user, 2) == Page("Home")
    ensures Truthy(loadToken) && !Truthy(token) && Matches(path, "/") ==>
              Settle(path, loadToken, token, user, 2) == LoginPage
    ensures !Truthy(loadToken) && Matches(path, "/") ==> Settle(path, loadToken, token, user, 2) == Landing
  {
    RedirectTargets(loadToken, token, user);
    var s0 := RouteScreen(path, loadToken, token, user);
    if s0.Navigate? {
      assert s0.to in {"/", "/login", "/dashboard"};
      assert Settle(path, loadToken, token, user, 2) == Settle(s0.to, loadToken, token, user, 1);
      var s1 := RouteScreen(s0.to, loadToken, token, user);
      if s1.Navigate? {
        assert Settle(s0.to, loadToken, token, user, 1) == RouteScreen(s1.to, loadToken, token, user);
      }
    }
  }

  /** The screens of the three paths a redirect can lead to. */
  lemma RedirectTargets(loadToken: Option<string>, token: Option<string>, user: Option<User>)
    ensures RouteScreen("/", loadToken, token, user) == (if Truthy(loadToken) then Navigate("/dashboard") else Landing)
    ensures RouteScreen("/login", loadToken, token, user) == LoginPage
    ensures RouteScreen("/dashboard", loadToken, token, user) ==
              (if Truthy(token) then Page("Home") else Navigate("/login"))
  {
    RoutePathsAreCanonical();
    assert "/dashboard" in PROTECTED_PAGES;
    assert Matches("/", "/") && !Matches("/login", "/") && !Matches("/dashboard", "/");
  }

  /** A string shorter than the needle does not include it. */
  lemma {:induction false} ShortNeverIncludes(hay: string, needle: string)
    requires |hay| < |needle|
    ensures !Includes(hay, needle)
    decreases |hay|
  {
    if hay != [] {
      ShortNeverIncludes(hay[1..], needle);
    }
  }

  /** The sidebar: rendered when a token was there at load. */
  predicate SidebarShown(loadToken: Option<string>)
  {
    Truthy(loadToken)
  }

  /** The bottom navigation: rendered when a token was there at load, and then hidden by
      itself on any location whose text contains "/simulation" (compared with case). */
  predicate BottomNavShown(path: string, loadToken: Option<string>): (shown: bool)
    ensures shown ==> SidebarShown(loadToken)
    ensures Includes(path, "/simulation") ==> !shown
  {
    Truthy(loadToken) && !Includes(path, "/simulation")
  }

  /** Every location with "/simulation" anywhere in it hides the bottom navigation. */
  lemma BottomNavHiddenOnSimulation(before: string, after: string, loadToken: Option<string>)
    ensures !BottomNavShown(before + "/simulation" + after, loadToken)
  {
    var path := before + "/simulation" + after;
    assert OccursAt(path, "/simulation", |before|) by {
      assert path[|before|..|before| + |"/simulation"|] == "/simulation";
    }
    IncludesAtOffset(path, "/simulation");
  }

  /** Every location shorter than "/simulation", which includes every route path of the
      table but the payment practice, shows the bottom navigation exactly when a token was
      there at load. */
  lemma BottomNavOnShortPaths(path: string, loadToken: Option<string>)
    requires |path| < |"/simulation"|
    ensures BottomNavShown(path, loadToken) <==> SidebarShown(loadToken)
  {
    ShortNeverIncludes(path, "/simulation");
  }

  /** A text in which no slash is followed by a lower-case "s" does not contain "/simulation". */
  lemma {:induction false} NoSlashSLacksSimulation(path: string)
    requires forall k :: 0 <= k < |path| - 1 && path[k] == '/' ==> path[k + 1] != 's'
    ensures !Includes(path, "/simulation")
  {
    var needle := "/simulation";
    forall k | 0 <= k <= |path| - |needle|
      ensures !OccursAt(path, needle, k)
    {
      assert path[k..k + |needle|][0] == path[k] && path[k..k + |needle|][1] == path[k + 1];
    }
    IncludesAtOffset(path, needle);
  }

  /** Lower-casing "/Simulation/upi" gives the route path of the payment practice. */
  lemma CapitalisedUpiPathLowers()
    ensures ToLowerCase("/Simulation/upi") == "/simulation/upi"
  {
    var path := "/Simulation/upi";
    assert path == ['/', 'S', 'i', 'm', 'u', 'l', 'a', 't', 'i', 'o', 'n', '/', 'u', 'p', 'i'];
    assert forall i :: 0 <= i < |path| ==> LowerChar(path[i]) == "/simulation/upi"[i];
  }

  /** "/Simulation/upi" is routed as "/simulation/upi". */
  lemma CapitalisedUpiPathRoutes(loadToken: Option<string>, token: Option<string>, user: Option<User>)
    ensures RouteScreen("/Simulation/upi", loadToken, token, user) ==
              RouteScreen("/simulation/upi", loadToken, token, user)
  {
    var path := "/Simulation/upi";
    RoutingIgnoresCase(path, loadToken, token, user);
    CapitalisedUpiPathLowers();
  }

  /** "/Simulation/upi" does not contain "/simulation". */
  lemma CapitalisedUpiPathLacksSimulation()
    ensures !Includes("/Simulation/upi", "/simulation")
  {
    var path := "/Simulation/upi";
    assert path == ['/', 'S', 'i', 'm', 'u', 'l', 'a', 't', 'i', 'o', 'n', '/', 'u', 'p', 'i'];
    NoSlashSLacksSimulation(path);
  }

  /** The route table matches "/Simulation/upi" to the payment practice, but the bottom
      navigation's check is case-sensitive and stays shown there. */
  lemma UpperCaseUpiPathKeepsBottomNav(loadToken: Option<string>, token: Option<string>, user: Option<User>)
    requires Truthy(loadToken)
    ensures RouteScreen("/Simulation/upi", loadToken, token, user) ==
              RouteScreen("/simulation/upi", loadToken, token, user)
    ensures BottomNavShown("/Simulation/upi", loadToken)
    ensures !BottomNavShown("/simulation/upi", loadToken)
  {
    CapitalisedUpiPathRoutes(loadToken, token, user);
    CapitalisedUpiPathLacksSimulation();
    UpiPathHasSimulation();
  }

  /** The payment practice's route path starts with "/simulation". */
  lemma UpiPathHasSimulation()
    ensures Includes("/simulation/upi", "/simulation")
  {
    var path := "/simulation/upi";
    assert path[..|"/simulation"|] == "/simulation";
    assert StartsWith(path, "/simulation");
  }

  /** One page load of the app: the token it read when it rendered, and the live storage the
      guard reads. */
  class Shell {
    const device: Device
    /** `localStorage.getItem("token")` as read when `App` rendered */
    const loadToken: Option<string>

    /** A page load renders `App`, which reads the stored token once. */
    constructor (device: Device)
      ensures this.device == device && loadToken == device.token
    {
      this.device := device;
      loadToken := device.token;
    }

    /** The screen shown at `path` after following the redirects. */
    function Show(path: string): (s: Screen)
      reads device`token, device`user
      ensures !s.Navigate?
      ensures !Truthy(loadToken) && Matches(path, "/") ==> s == Landing
      ensures Truthy(loadToken) && Truthy(device.token) && Matches(path, "/") ==> s == Page("Home")
    {
      RedirectsSettle(path, loadToken, device.token, device.user);
      Settle(path, loadToken, device.token, device.user, 2)
    }

    /** `handleLogout()`, on the sidebar, which is there only when a token was there at load.
        The sidebar and the bottom navigation stay until the next page load. */
    method HandleLogout()
      requires SidebarShown(loadToken)
      modifies device`token, device`user, device`navigations
      ensures device.token == None && device.user == None
      ensures device.navigations == old(device.navigations) + ["/login"]
      ensures Show("/login") == LoginPage && BottomNavShown("/login", loadToken)
    {
      device.token := None;
      device.user := None;
      device.navigations := device.navigations + ["/login"];
      RoutePathsAreCanonical();
      BottomNavOnShortPaths("/login", loadToken);
    }
  }

  /** Logging in without reloading stores a token, but the root still shows the landing page,
      with neither sidebar nor bottom navigation, until the page is loaded again; after a
      reload it shows the dashboard. */
  method LoginWithoutReload() returns (before: Screen, shellShown: bool, after: Screen)
    ensures before == Landing && !shellShown && after == Page("Home")
  {
    var d := new Device(Missing, None, None, true);
    var shell := new Shell(d);
    d.token := Some("session");
    d.user := Some(User(1, Some("user")));
    d.navigations := d.navigations + ["/"];
    RoutePathsAreCanonical();
    before := shell.Show("/");
    shellShown := SidebarShown(shell.loadToken) || BottomNavShown("/", shell.loadToken);
    var reloaded := new Shell(d);
    after := reloaded.Show("/");
  }
}
