/**
 * The route configuration type. The source states it as a union of object types
 * whose flags exclude one another; here it is one record with every field
 * (absent booleans read as false, as the renderer's truthiness tests read them),
 * and the exclusions of the union become well-formedness predicates.
 */
module RouteTypes {
  import opened Wrappers
  import ReactTree

  /** `React.ComponentType | React.ReactNode`: a component to instantiate, or a ready node. */
  datatype ElementSpec = ComponentType(component: ReactTree.Component) | Node(node: ReactTree.ReactNode)

  /** The optional `children` array: not given, or an ordered (possibly empty) list. */
  datatype Children = Undefined | Defined(routes: seq<RouteConfig>)

  datatype RouteConfig = RouteConfig(
    element: Option<ElementSpec>,
    name: Option<string>,
    children: Children,
    isPublic: bool,
    isProtected: bool,
    isLayout: bool,
    path: Option<string>,
    index: bool)

  /** A route object with no property set. */
  const Blank: RouteConfig := RouteConfig(None, None, Undefined, false, false, false, None, false)

  /** The child list of a route, empty when not given. */
  function ChildRoutes(route: RouteConfig): seq<RouteConfig> {
    match route.children
    case Undefined => []
    case Defined(routes) => routes
  }

  /** `PublicRoute | ProtectedRoute`: `isPublic` and `isProtected` are never both set. */
  predicate AuthFlagsExclusive(route: RouteConfig) {
    !(route.isPublic && route.isProtected)
  }

  /** `LayoutRoute | PathRoute`: a layout route carries no `index` flag. */
  predicate PlacementExclusive(route: RouteConfig) {
    route.isLayout ==> !route.index
  }

  /** A route, and every route nested beneath it, is a value of the union type. */
  predicate WellFormed(route: RouteConfig)
    decreases route
  {
    && AuthFlagsExclusive(route)
    && PlacementExclusive(route)
    && (route.children.Defined? ==> WellFormedTable(route.children.routes))
  }

  predicate WellFormedTable(routes: seq<RouteConfig>)
    decreases routes
  {
    forall i :: 0 <= i < |routes| ==> WellFormed(routes[i])
  }

  /** The three members of the authentication side of the union. */
  datatype AuthKind = Plain | Protected | PublicOnly

  /**
   * The authentication kind a route's flags select. `isProtected` is read first,
   * so on a record that sets both flags it wins.
   */
  function Kind(route: RouteConfig): (k: AuthKind)
    ensures k == Protected <==> route.isProtected
    ensures k == PublicOnly <==> route.isPublic && !route.isProtected
    ensures k == Plain <==> !route.isPublic && !route.isProtected
  {
    if route.isProtected then Protected
    else if route.isPublic then PublicOnly
    else Plain
  }

  /** On a well-formed route each flag names its kind outright. */
  lemma KindOfWellFormed(route: RouteConfig)
    requires AuthFlagsExclusive(route)
    ensures Kind(route) == PublicOnly <==> route.isPublic
    ensures Kind(route) == Protected <==> route.isProtected
  {
  }

  /** The three ways a route is placed in the tree. */
  datatype Placement = LayoutPlacement | IndexPlacement | PathPlacement

  /** `isLayout` is read first, so a record with both `isLayout` and `index` is a layout. */
  function PlacementOf(route: RouteConfig): (p: Placement)
    ensures p == LayoutPlacement <==> route.isLayout
    ensures p == IndexPlacement <==> route.index && !route.isLayout
    ensures p == PathPlacement <==> !route.index && !route.isLayout
  {
    if route.isLayout then LayoutPlacement
    else if route.index then IndexPlacement
    else PathPlacement
  }
}
