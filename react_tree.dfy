/**
 * React output as data. Each constructor stands for one kind of element that the
 * route layer creates; the framework's behaviour behind them (suspending on a lazy
 * import, catching a thrown render error) is not modelled.
 */
module ReactTree {

  /**
   * A component: a function (or class) component, whose `typeof` is 'function',
   * or the object that `lazy()` returns, whose `typeof` is 'object'.
   */
  datatype Component = Named(name: string) | Lazy(modulePath: string)

  /** `typeof component === 'function'` */
  predicate IsFunction(component: Component) {
    component.Named?
  }

  /** The two route guards of the application. */
  datatype Guard = AuthGuard | UnauthorizedRoute

  datatype ReactNode =
    | Empty                                   // `undefined`: renders nothing
    | Created(component: Component)           // `React.createElement(component)`
    | ComponentValue(component: Component)    // a component object placed as a child, not instantiated
    | LoadingFallback                         // `<LoadingFallback />`
    | Suspense(fallback: ReactNode, content: ReactNode)
    | ErrorBoundary(content: ReactNode)
    | Guarded(guard: Guard, isAuthenticated: bool, children: ReactNode)
    | Navigate(to: string, replace: bool)     // `<Navigate to={to} replace />`
    | Fragment(children: ReactNode)           // `<>{children}</>`

  /** `<Suspense fallback={<LoadingFallback />}><ErrorBoundary>{content}</ErrorBoundary></Suspense>` */
  function Boundary(content: ReactNode): (r: ReactNode)
    ensures r.Suspense? && r.fallback == LoadingFallback
    ensures r.content == ErrorBoundary(content)
  {
    Suspense(LoadingFallback, ErrorBoundary(content))
  }

  /** The element is the route-level loading boundary around some content. */
  predicate IsBoundary(node: ReactNode) {
    node.Suspense? && node.fallback == LoadingFallback && node.content.ErrorBoundary?
  }
}
