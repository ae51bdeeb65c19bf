/**
 * Properties of the whole rendered tree: they follow the renderer's recursion
 * through nested `children` and hold for every table and every authentication
 * snapshot.
 */
module RouteTree {
  import opened Wrappers
  import opened JsValues
  import opened Strings
  import opened ReactTree
  import opened RouteTypes
  import opened AppRoutes

  // ---- predicates over configuration trees ----

  /** Some route at or below `route` is marked protected. */
  predicate HasProtected(route: RouteConfig)
    decreases route
  {
    route.isProtected || (route.children.Defined? && AnyProtected(route.children.routes))
  }

  predicate AnyProtected(routes: seq<RouteConfig>)
    decreases routes
  {
    exists i :: 0 <= i < |routes| && HasProtected(routes[i])
  }

  /** No index route at or below `route` lists child routes (the renderer would drop them). */
  predicate KeepsChildren(route: RouteConfig)
    decreases route
  {
    && (PlacementOf(route) == IndexPlacement ==> route.children.Undefined? || route.children.routes == [])
    && (route.children.Defined? ==> AllKeepChildren(route.children.routes))
  }

  predicate AllKeepChildren(routes: seq<RouteConfig>)
    decreases routes
  {
    forall i :: 0 <= i < |routes| ==> KeepsChildren(routes[i])
  }

  function CountConfig(route: RouteConfig): nat
    decreases route
  {
    1 + match route.children
        case Undefined => 0
        case Defined(routes) => CountConfigs(routes)
  }

  /** The number of route objects in a table, nested ones included. */
  function CountConfigs(routes: seq<RouteConfig>): nat
    decreases routes
  {
    if routes == [] then 0 else CountConfig(routes[0]) + CountConfigs(routes[1..])
  }

  // ---- predicates over rendered trees ----

  /** `P` holds of the element of `node` and of every element nested below it. */
  predicate NodeElements(node: RouteNode, P: ReactNode -> bool)
    decreases node
  {
    P(node.element) && (!node.IndexRoute? && node.children.Nested? ==> AllElements(node.children.routes, P))
  }

  predicate AllElements(nodes: seq<RouteNode>, P: ReactNode -> bool)
    decreases nodes
  {
    forall i :: 0 <= i < |nodes| ==> NodeElements(nodes[i], P)
  }

  predicate NotBareLoading(e: ReactNode) {
    e != LoadingFallback
  }

  predicate BoundaryOrLoading(e: ReactNode) {
    e == LoadingFallback || IsBoundary(e)
  }

  function CountNode(node: RouteNode): nat
    decreases node
  {
    1 + if node.IndexRoute? then 0
        else match node.children
             case NoChildren => 0
             case Nested(nodes) => CountNodes(nodes)
  }

  /** The number of `Route` elements in a rendered list, nested ones included. */
  function CountNodes(nodes: seq<RouteNode>): nat
    decreases nodes
  {
    if nodes == [] then 0 else CountNode(nodes[0]) + CountNodes(nodes[1..])
  }

  // ---- the rendered tree mirrors the configuration at every depth ----

  /**
   * `node` is the `Route` that `route`, at position `index` among its siblings,
   * should become: the placement its flags choose, the key and the element
   * derived from it, its own path on a regular route, and nested routes that
   * mirror its children one by one, in order, under the same snapshot.
   * An index route carries no children.
   */
  predicate Mirrors(node: RouteNode, route: RouteConfig, index: nat, auth: AuthState)
    decreases route
  {
    && node.key == RouteKey(route, index)
    && node.element == RenderRouteElement(route, auth)
    && match PlacementOf(route)
       case LayoutPlacement => node.LayoutRoute? && ChildrenMirror(node.children, route.children, auth)
       case IndexPlacement => node.IndexRoute?
       case PathPlacement =>
         node.PathRoute? && node.path == route.path && ChildrenMirror(node.children, route.children, auth)
  }

  /** Absent `children` render to no nested routes; a list renders to a mirroring list. */
  predicate ChildrenMirror(rendered: RenderedChildren, children: Children, auth: AuthState)
    decreases children
  {
    match children
    case Undefined => rendered.NoChildren?
    case Defined(routes) => rendered.Nested? && AllMirror(rendered.routes, routes, auth)
  }

  predicate AllMirror(nodes: seq<RouteNode>, routes: seq<RouteConfig>, auth: AuthState)
    decreases routes
  {
    |nodes| == |routes| && forall i :: 0 <= i < |routes| ==> Mirrors(nodes[i], routes[i], i, auth)
  }

  lemma {:induction false} RouteMirrored(route: RouteConfig, index: nat, auth: AuthState)
    ensures Mirrors(RenderRoute(route, index, auth), route, index, auth)
    decreases route
  {
    if PlacementOf(route) != IndexPlacement && route.children.Defined? {
      RoutesMirrored(route.children.routes, auth);
    }
  }

  /** The renderer turns every table into a tree that mirrors it at every depth. */
  lemma {:induction false} RoutesMirrored(routes: seq<RouteConfig>, auth: AuthState)
    ensures AllMirror(RenderRoutes(routes, auth), routes, auth)
    decreases routes
  {
    var r := RenderRoutes(routes, auth);
    forall i | 0 <= i < |routes| ensures Mirrors(r[i], routes[i], i, auth) {
      RouteMirrored(routes[i], i, auth);
    }
  }

  lemma {:induction false} MirrorIsRendering(node: RouteNode, route: RouteConfig, index: nat, auth: AuthState)
    requires Mirrors(node, route, index, auth)
    ensures node == RenderRoute(route, index, auth)
    decreases route
  {
    if PlacementOf(route) != IndexPlacement && route.children.Defined? {
      MirrorsAreRendering(node.children.routes, route.children.routes, auth);
    }
  }

  /** Only the renderer's output mirrors a table: the mirror relation pins the tree down. */
  lemma {:induction false} MirrorsAreRendering(nodes: seq<RouteNode>, routes: seq<RouteConfig>, auth: AuthState)
    requires AllMirror(nodes, routes, auth)
    ensures nodes == RenderRoutes(routes, auth)
    decreases routes
  {
    var r := RenderRoutes(routes, auth);
    forall i | 0 <= i < |routes| ensures nodes[i] == r[i] {
      MirrorIsRendering(nodes[i], routes[i], i, auth);
    }
  }

  /** A tree mirrors a table exactly when it is the table rendered. */
  lemma MirrorCharacterisesRendering(nodes: seq<RouteNode>, routes: seq<RouteConfig>, auth: AuthState)
    ensures AllMirror(nodes, routes, auth) <==> nodes == RenderRoutes(routes, auth)
  {
    RoutesMirrored(routes, auth);
    if AllMirror(nodes, routes, auth) {
      MirrorsAreRendering(nodes, routes, auth);
    }
  }

  // ---- every element is boundary-wrapped, except the protected-while-loading fallback ----

  lemma {:induction false} RouteElementsBounded(route: RouteConfig, index: nat, auth: AuthState)
    ensures NodeElements(RenderRoute(route, index, auth), BoundaryOrLoading)
    decreases route
  {
    if !route.isLayout && route.index {
    } else if route.children.Defined? {
      RoutesElementsBounded(route.children.routes, auth);
    }
  }

  /** Every element anywhere in the rendered tree is either the bare loading fallback or boundary-wrapped. */
  lemma {:induction false} RoutesElementsBounded(routes: seq<RouteConfig>, auth: AuthState)
    ensures AllElements(RenderRoutes(routes, auth), BoundaryOrLoading)
    decreases routes
  {
    var r := RenderRoutes(routes, auth);
    forall i | 0 <= i < |routes| ensures NodeElements(r[i], BoundaryOrLoading) {
      RouteElementsBounded(routes[i], i, auth);
    }
  }

  // ---- the bare fallback needs a protected route and a loading snapshot ----

  lemma {:induction false} RouteNeverBareLoading(route: RouteConfig, index: nat, auth: AuthState)
    requires !auth.isLoading || !HasProtected(route)
    ensures NodeElements(RenderRoute(route, index, auth), NotBareLoading)
    decreases route
  {
    if !route.isLayout && route.index {
    } else if route.children.Defined? {
      RoutesNeverBareLoading(route.children.routes, auth);
    }
  }

  /**
   * When authentication has finished loading, or the table holds no protected
   * route at any depth, no element of the rendered tree is the bare loading fallback.
   */
  lemma {:induction false} RoutesNeverBareLoading(routes: seq<RouteConfig>, auth: AuthState)
    requires !auth.isLoading || !AnyProtected(routes)
    ensures AllElements(RenderRoutes(routes, auth), NotBareLoading)
    decreases routes
  {
    var r := RenderRoutes(routes, auth);
    forall i | 0 <= i < |routes| ensures NodeElements(r[i], NotBareLoading) {
      RouteNeverBareLoading(routes[i], i, auth);
    }
  }

  // ---- without protected routes the loading flag is never consulted ----

  lemma {:induction false} RouteIgnoresLoading(route: RouteConfig, index: nat, isAuthenticated: bool)
    requires !HasProtected(route)
    ensures RenderRoute(route, index, AuthState(isAuthenticated, true))
         == RenderRoute(route, index, AuthState(isAuthenticated, false))
    decreases route
  {
    if route.children.Defined? {
      RoutesIgnoreLoading(route.children.routes, isAuthenticated);
    }
  }

  /** A table with no protected route renders the same whether or not authentication is loading. */
  lemma {:induction false} RoutesIgnoreLoading(routes: seq<RouteConfig>, isAuthenticated: bool)
    requires !AnyProtected(routes)
    ensures RenderRoutes(routes, AuthState(isAuthenticated, true))
         == RenderRoutes(routes, AuthState(isAuthenticated, false))
    decreases routes
  {
    var r1 := RenderRoutes(routes, AuthState(isAuthenticated, true));
    var r2 := RenderRoutes(routes, AuthState(isAuthenticated, false));
    forall i | 0 <= i < |routes| ensures r1[i] == r2[i] {
      RouteIgnoresLoading(routes[i], i, isAuthenticated);
    }
  }

  // ---- structure: one Route per configuration, except children of index routes ----

  lemma {:induction false} CountPointwise(nodes: seq<RouteNode>, routes: seq<RouteConfig>)
    requires |nodes| == |routes|
    requires forall i :: 0 <= i < |nodes| ==> CountNode(nodes[i]) <= CountConfig(routes[i])
    ensures CountNodes(nodes) <= CountConfigs(routes)
    ensures (forall i :: 0 <= i < |nodes| ==> CountNode(nodes[i]) == CountConfig(routes[i]))
            ==> CountNodes(nodes) == CountConfigs(routes)
    decreases |nodes|
  {
    if nodes != [] {
      CountPointwise(nodes[1..], routes[1..]);
    }
  }

  lemma {:induction false} RouteCount(route: RouteConfig, index: nat, auth: AuthState)
    ensures CountNode(RenderRoute(route, index, auth)) <= CountConfig(route)
    ensures KeepsChildren(route) ==> CountNode(RenderRoute(route, index, auth)) == CountConfig(route)
    decreases route
  {
    if !route.isLayout && route.index {
    } else if route.children.Defined? {
      RoutesCount(route.children.routes, auth);
    }
  }

  /**
   * The rendered tree never holds more `Route` elements than the table holds
   * routes, and exactly as many when no index route lists children.
   */
  lemma {:induction false} RoutesCount(routes: seq<RouteConfig>, auth: AuthState)
    ensures CountNodes(RenderRoutes(routes, auth)) <= CountConfigs(routes)
    ensures AllKeepChildren(routes) ==> CountNodes(RenderRoutes(routes, auth)) == CountConfigs(routes)
    decreases routes
  {
    var r := RenderRoutes(routes, auth);
    forall i | 0 <= i < |routes|
      ensures CountNode(r[i]) <= CountConfig(routes[i])
      ensures KeepsChildren(routes[i]) ==> CountNode(r[i]) == CountConfig(routes[i])
    {
      RouteCount(routes[i], i, auth);
    }
    CountPointwise(r, routes);
  }

  // ---- sibling keys ----

  /** A regular route whose key is its own path. */
  predicate HasExplicitKey(route: RouteConfig) {
    PlacementOf(route) == PathPlacement && TruthyString(route.path)
  }

  predicate LooksGenerated(s: string) {
    StartsWith(s, "layout-") || StartsWith(s, "index-") || StartsWith(s, "route-")
  }

  /** No path used as a key begins like a generated key. */
  predicate ExplicitKeysSafe(routes: seq<RouteConfig>) {
    forall i :: 0 <= i < |routes| && HasExplicitKey(routes[i]) ==> !LooksGenerated(routes[i].path.value)
  }

  predicate ExplicitPathsDistinct(routes: seq<RouteConfig>) {
    forall i, j :: 0 <= i < j < |routes| && HasExplicitKey(routes[i]) && HasExplicitKey(routes[j]) ==>
      routes[i].path.value != routes[j].path.value
  }

  predicate KeysDistinct(nodes: seq<RouteNode>) {
    forall i, j :: 0 <= i < j < |nodes| ==> nodes[i].key != nodes[j].key
  }

  lemma PrefixedStartsWith(prefix: string, s: string)
    ensures StartsWith(prefix + s, prefix)
  {
    assert (prefix + s)[..|prefix|] == prefix;
  }

  lemma GeneratedKeyInitials(n: nat)
    ensures ("layout-" + NatToString(n))[0] == 'l'
    ensures ("index-" + NatToString(n))[0] == 'i'
    ensures ("route-" + NatToString(n))[0] == 'r'
  {
  }

  /** Two keys at different positions coincide only when both are the same explicit path. */
  lemma RouteKeysCollide(r1: RouteConfig, i: nat, r2: RouteConfig, j: nat)
    requires i != j
    requires HasExplicitKey(r1) ==> !LooksGenerated(r1.path.value)
    requires HasExplicitKey(r2) ==> !LooksGenerated(r2.path.value)
    ensures RouteKey(r1, i) == RouteKey(r2, j) <==>
      HasExplicitKey(r1) && HasExplicitKey(r2) && r1.path.value == r2.path.value
  {
    var k1, k2 := RouteKey(r1, i), RouteKey(r2, j);
    if k1 == k2 && !(HasExplicitKey(r1) && HasExplicitKey(r2)) {
      var s1, s2 := NatToString(i), NatToString(j);
      if HasExplicitKey(r1) {
        // k2 is generated, so k1 would begin like a generated key
        if PlacementOf(r2) == LayoutPlacement { PrefixedStartsWith("layout-", s2); }
        else if PlacementOf(r2) == IndexPlacement { PrefixedStartsWith("index-", s2); }
        else { PrefixedStartsWith("route-", s2); }
        assert false;
      } else if HasExplicitKey(r2) {
        if PlacementOf(r1) == LayoutPlacement { PrefixedStartsWith("layout-", s1); }
        else if PlacementOf(r1) == IndexPlacement { PrefixedStartsWith("index-", s1); }
        else { PrefixedStartsWith("route-", s1); }
        assert false;
      } else if PlacementOf(r1) == PlacementOf(r2) {
        if PlacementOf(r1) == LayoutPlacement { PrefixedKeysInjective("layout-", i, j); }
        else if PlacementOf(r1) == IndexPlacement { PrefixedKeysInjective("index-", i, j); }
        else { PrefixedKeysInjective("route-", i, j); }
        assert false;
      } else {
        // generated keys with different prefixes already differ in their first letter
        GeneratedKeyInitials(i);
        GeneratedKeyInitials(j);
        assert false;
      }
    }
  }

  /**
   * When no explicit path begins like a generated key, the sibling keys the
   * renderer emits are pairwise distinct exactly when the explicit paths are.
   */
  lemma SiblingKeysDistinct(routes: seq<RouteConfig>, auth: AuthState)
    requires ExplicitKeysSafe(routes)
    ensures KeysDistinct(RenderRoutes(routes, auth)) <==> ExplicitPathsDistinct(routes)
  {
    var r := RenderRoutes(routes, auth);
    forall i, j | 0 <= i < j < |routes|
      ensures r[i].key == r[j].key <==>
        HasExplicitKey(routes[i]) && HasExplicitKey(routes[j]) && routes[i].path.value == routes[j].path.value
    {
      RouteKeysCollide(routes[i], i, routes[j], j);
    }
  }
}
