/**
 * The route renderer of the application shell: it turns a route table and a
 * snapshot of the authentication state into a tree of router `Route` elements,
 * choosing per route between a bare loading fallback, a guarded element and the
 * plain element, and wrapping every non-loading choice in the loading and error
 * boundaries.
 */
module AppRoutes {
  import opened Wrappers
  import opened JsValues
  import opened Strings
  import opened ReactTree
  import opened RouteTypes

  /** The snapshot of the authentication hook the renderer reads. */
  datatype AuthState = AuthState(isAuthenticated: bool, isLoading: bool)

  /** A router `<Route>` element as the renderer emits it. */
  datatype RouteNode =
    | LayoutRoute(key: string, element: ReactNode, children: RenderedChildren)
    | IndexRoute(key: string, element: ReactNode)
    | PathRoute(key: string, path: Option<string>, element: ReactNode, children: RenderedChildren)

  /** `route.children && renderRoutes(route.children)`: nothing, or the rendered list. */
  datatype RenderedChildren = NoChildren | Nested(routes: seq<RouteNode>)

  /**
   * Instantiates a function component; hands every other value back unchanged:
   * a ready node, an absent element, and a component object such as the one
   * `lazy()` returns.
   */
  function RenderElement(el: Option<ElementSpec>): (r: ReactNode)
    ensures el.Some? && el.value.ComponentType? && IsFunction(el.value.component) ==> r == Created(el.value.component)
    ensures el.Some? && el.value.ComponentType? && !IsFunction(el.value.component) ==> r == ComponentValue(el.value.component)
    ensures el.Some? && el.value.Node? ==> r == el.value.node
    ensures el.None? ==> r == Empty
    ensures r.Created? ==> el.Some? && (el.value.Node? || IsFunction(r.component))
  {
    match el
    case Some(ComponentType(c)) => if IsFunction(c) then Created(c) else ComponentValue(c)
    case Some(Node(n)) => n
    case None => Empty
  }

  /** Resolving an element that is already resolved changes nothing. */
  lemma RenderElementIdempotent(el: Option<ElementSpec>)
    ensures RenderElement(Some(Node(RenderElement(el)))) == RenderElement(el)
  {
  }

  /** The gate each kind of route puts in front of its content once authentication is known. */
  function Gate(kind: AuthKind, isAuthenticated: bool, content: ReactNode): ReactNode {
    match kind
    case Protected => Guarded(AuthGuard, isAuthenticated, content)
    case PublicOnly => Guarded(UnauthorizedRoute, isAuthenticated, content)
    case Plain => content
  }

  /**
   * The element of one route. A protected route shows only the bare loading
   * fallback while authentication is loading; every other case is the route's
   * gate inside the loading and error boundaries.
   */
  function RenderRouteElement(route: RouteConfig, auth: AuthState): (r: ReactNode)
    ensures r == LoadingFallback <==> route.isProtected && auth.isLoading
    ensures r != LoadingFallback ==>
      r == Boundary(Gate(Kind(route), auth.isAuthenticated, RenderElement(route.element)))
  {
    if route.isProtected && auth.isLoading then
      LoadingFallback
    else
      var element :=
        if route.isProtected then Guarded(AuthGuard, auth.isAuthenticated, RenderElement(route.element))
        else if route.isPublic then Guarded(UnauthorizedRoute, auth.isAuthenticated, RenderElement(route.element))
        else RenderElement(route.element);
      Suspense(LoadingFallback, ErrorBoundary(element))
  }

  /** The loading flag is read only on the protected branch. */
  lemma LoadingReadOnlyWhenProtected(route: RouteConfig, isAuthenticated: bool)
    requires !route.isProtected
    ensures RenderRouteElement(route, AuthState(isAuthenticated, true))
         == RenderRouteElement(route, AuthState(isAuthenticated, false))
  {
  }

  /** The key the router receives for the route at position `index` of its list. */
  function RouteKey(route: RouteConfig, index: nat): (k: string)
    ensures k != ""
    ensures PlacementOf(route) == PathPlacement && TruthyString(route.path) ==> k == route.path.value
    ensures !(PlacementOf(route) == PathPlacement && TruthyString(route.path)) ==>
              |k| > |NatToString(index)| && k[|k| - |NatToString(index)|..] == NatToString(index)
  {
    match PlacementOf(route)
    case LayoutPlacement => "layout-" + NatToString(index)
    case IndexPlacement => "index-" + NatToString(index)
    case PathPlacement => if TruthyString(route.path) then route.path.value else "route-" + NatToString(index)
  }

  /**
   * One entry of `routes.map`. A layout route keeps its children and loses its
   * path; an index route loses its children; a regular route keeps both.
   */
  function RenderRoute(route: RouteConfig, index: nat, auth: AuthState): (r: RouteNode)
    ensures r.key == RouteKey(route, index)
    ensures r.element == RenderRouteElement(route, auth)
    ensures r.LayoutRoute? <==> PlacementOf(route) == LayoutPlacement
    ensures r.IndexRoute? <==> PlacementOf(route) == IndexPlacement
    ensures r.PathRoute? ==> r.path == route.path
    ensures !r.IndexRoute? ==> (r.children.NoChildren? <==> route.children.Undefined?)
    ensures !r.IndexRoute? && route.children.Defined? ==> |r.children.routes| == |route.children.routes|
    ensures !r.IndexRoute? ==> r.children == RenderChildren(route.children, auth)
    decreases route
  {
    if route.isLayout then
      LayoutRoute("layout-" + NatToString(index), RenderRouteElement(route, auth), RenderChildren(route.children, auth))
    else if route.index then
      IndexRoute("index-" + NatToString(index), RenderRouteElement(route, auth))
    else
      var routeKey := OrString(route.path, "route-" + NatToString(index));
      PathRoute(routeKey, route.path, RenderRouteElement(route, auth), RenderChildren(route.children, auth))
  }

  function RenderChildren(children: Children, auth: AuthState): (r: RenderedChildren)
    ensures r.NoChildren? <==> children.Undefined?
    ensures children.Defined? ==> |r.routes| == |children.routes|
    ensures children.Defined? ==> r == Nested(RenderRoutes(children.routes, auth))
    decreases children
  {
    match children
    case Undefined => NoChildren
    case Defined(routes) => Nested(RenderRoutes(routes, auth))
  }

  /** `renderRoutes`: one `Route` per entry, in the table's order, keyed by position. */
  function RenderRoutes(routes: seq<RouteConfig>, auth: AuthState): (r: seq<RouteNode>)
    ensures |r| == |routes|
    ensures forall i :: 0 <= i < |r| ==>
      r[i].key == RouteKey(routes[i], i) && r[i].element == RenderRouteElement(routes[i], auth)
    ensures forall i :: 0 <= i < |r| ==> r[i] == RenderRoute(routes[i], i, auth)
    decreases routes
  {
    seq(|routes|, i requires 0 <= i < |routes| => RenderRoute(routes[i], i, auth))
  }
}
