/** The dashboard feature's route table, and what the renderer makes of it. */
module Dashboard {
  import opened Wrappers
  import opened ReactTree
  import opened RouteTypes
  import opened AppRoutes
  import opened RouteTree
  import Navigation
  import Guards
  import Strings

  const DashboardLink: string := "/"
  const ProfileLink: string := "/profile"

  const LayoutElement: ElementSpec := Node(Created(Named("DashboardLayout")))
  const DashboardPageElement: ElementSpec := Node(Created(Lazy("../pages/DashboardPage")))
  const ProfilePageElement: ElementSpec := Node(Created(Lazy("../pages/ProfilePage")))

  const DashboardIndex: RouteConfig :=
    Blank.(index := true, element := Some(DashboardPageElement), name := Some("Dashboard"), isPublic := true)

  const Profile: RouteConfig :=
    Blank.(path := Some(ProfileLink), element := Some(ProfilePageElement), name := Some("Profile"))

  const DashboardLayout: RouteConfig :=
    Blank.(element := Some(LayoutElement), isLayout := true, isPublic := true, path := Some(DashboardLink),
           children := Defined([DashboardIndex, Profile]))

  /** `DASHBOARD_ROUTES` */
  const DashboardRoutes: seq<RouteConfig> := [DashboardLayout]

  /** One public layout at `/`, holding a public index page and then the plain profile page. */
  lemma TableShape()
    ensures |DashboardRoutes| == 1
    ensures var layout := DashboardRoutes[0];
      && PlacementOf(layout) == LayoutPlacement && Kind(layout) == PublicOnly && layout.path == Some("/")
      && ChildRoutes(layout) == [DashboardIndex, Profile]
      && PlacementOf(DashboardIndex) == IndexPlacement && Kind(DashboardIndex) == PublicOnly
      && DashboardIndex.path == None
      && PlacementOf(Profile) == PathPlacement && Kind(Profile) == Plain && Profile.path == Some("/profile")
  {
  }

  /** The table is a value of the route type, and no index route in it lists children. */
  lemma TableWellFormed()
    ensures WellFormedTable(DashboardRoutes)
    ensures AllKeepChildren(DashboardRoutes)
    ensures CountConfigs(DashboardRoutes) == 3
  {
    assert WellFormedTable([DashboardIndex, Profile]);
    assert AllKeepChildren([DashboardIndex, Profile]);
    assert [DashboardIndex, Profile][1..] == [Profile];
    assert CountConfigs([Profile]) == 1;
    assert CountConfigs([DashboardIndex, Profile]) == 2;
  }

  /** No route in the table is protected. */
  lemma NoProtectedRoute()
    ensures !AnyProtected(DashboardRoutes)
  {
    assert !AnyProtected([DashboardIndex, Profile]) by {
      assert !HasProtected(DashboardIndex) && !HasProtected(Profile);
    }
    assert !HasProtected(DashboardLayout);
  }

  /** The rendered tree for an authentication snapshot. */
  function Expected(isAuthenticated: bool): seq<RouteNode> {
    [LayoutRoute("layout-0",
       Boundary(Guarded(UnauthorizedRoute, isAuthenticated, Created(Named("DashboardLayout")))),
       Nested([
         IndexRoute("index-0",
           Boundary(Guarded(UnauthorizedRoute, isAuthenticated, Created(Lazy("../pages/DashboardPage"))))),
         PathRoute("/profile", Some("/profile"),
           Boundary(Created(Lazy("../pages/ProfilePage"))), NoChildren)]))]
  }

  /** The index child at position 0. */
  lemma IndexRendering(auth: AuthState)
    ensures RenderRoute(DashboardIndex, 0, auth) == Expected(auth.isAuthenticated)[0].children.routes[0]
  {
    assert Strings.NatToString(0) == "0";
    assert RenderRouteElement(DashboardIndex, auth) == Expected(auth.isAuthenticated)[0].children.routes[0].element;
  }

  /** The profile child at position 1, keyed by its path. */
  lemma ProfileRendering(auth: AuthState)
    ensures RenderRoute(Profile, 1, auth) == Expected(auth.isAuthenticated)[0].children.routes[1]
  {
    assert RenderRouteElement(Profile, auth) == Expected(auth.isAuthenticated)[0].children.routes[1].element;
  }

  /** The two children of the layout, rendered in their positions. */
  lemma ChildrenRendering(auth: AuthState)
    ensures RenderRoutes([DashboardIndex, Profile], auth) == Expected(auth.isAuthenticated)[0].children.routes
  {
    IndexRendering(auth);
    ProfileRendering(auth);
  }

  /**
   * What the renderer emits for the table: the layout loses its path `/`, both
   * public entries sit behind the unauthorized-route guard, and the loading flag
   * plays no part.
   */
  lemma Rendering(auth: AuthState)
    ensures RenderRoutes(DashboardRoutes, auth) == Expected(auth.isAuthenticated)
  {
    var expected := Expected(auth.isAuthenticated);
    assert Strings.NatToString(0) == "0";
    ChildrenRendering(auth);
    assert RenderChildren(DashboardLayout.children, auth) == expected[0].children;
    assert RenderRouteElement(DashboardLayout, auth) == expected[0].element;
    assert RenderRoutes(DashboardRoutes, auth)[0] == RenderRoute(DashboardLayout, 0, auth) == expected[0];
  }

  /** Rendering the table never reaches the loading-fallback branch. */
  lemma NeverBareLoading(auth: AuthState)
    ensures AllElements(RenderRoutes(DashboardRoutes, auth), NotBareLoading)
  {
    NoProtectedRoute();
    RoutesNeverBareLoading(DashboardRoutes, auth);
  }

  /** The three sibling keys and both levels are distinct and one `Route` stands for each route. */
  lemma KeysAndCount(auth: AuthState)
    ensures KeysDistinct(RenderRoutes(DashboardRoutes, auth))
    ensures KeysDistinct(RenderRoutes([DashboardIndex, Profile], auth))
    ensures CountNodes(RenderRoutes(DashboardRoutes, auth)) == 3
  {
    TableWellFormed();
    RoutesCount(DashboardRoutes, auth);
    Rendering(auth);
  }

  /**
   * An authenticated visitor of the layout is sent to `/dashboard`, a path this
   * table does not define; an anonymous visitor sees the layout.
   */
  lemma LayoutOutcome(auth: AuthState)
    ensures auth.isAuthenticated ==>
      Navigation.Resolve(RenderRouteElement(DashboardLayout, auth)) == Navigation.Redirect(Guards.DashboardPath, true)
    ensures !auth.isAuthenticated ==>
      Navigation.Resolve(RenderRouteElement(DashboardLayout, auth)) == Navigation.Show(Created(Named("DashboardLayout")))
    ensures Guards.DashboardPath != DashboardLink && Guards.DashboardPath != ProfileLink
  {
    Navigation.RouteOutcome(DashboardLayout, auth);
  }
}
