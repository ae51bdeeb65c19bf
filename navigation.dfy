/**
 * What a visitor of a route ends up with: the element tree the renderer emits,
 * read with every lazy import already loaded and no render error thrown, either
 * waits on the loading fallback, redirects, or shows a page.
 */
module Navigation {
  import opened ReactTree
  import opened RouteTypes
  import opened AppRoutes
  import Guards

  datatype Outcome = Pending | Redirect(to: string, replace: bool) | Show(page: ReactNode)

  /**
   * Boundaries and fragments are transparent; a guard element renders as the
   * guard decides. A page shown is always a leaf, never a wrapper.
   */
  function Resolve(node: ReactNode): (o: Outcome)
    ensures o.Show? ==> o.page.Empty? || o.page.Created? || o.page.ComponentValue?
    ensures node.Guarded? && node.guard == AuthGuard && !node.isAuthenticated ==> o == Redirect(Guards.LoginPath, true)
    ensures node.Guarded? && node.guard == UnauthorizedRoute && node.isAuthenticated ==> o == Redirect(Guards.DashboardPath, true)
    ensures node.Guarded? && (node.guard == AuthGuard) == node.isAuthenticated ==> o == Resolve(node.children)
    decreases node
  {
    match node
    case LoadingFallback => Pending
    case Suspense(_, content) => Resolve(content)
    case ErrorBoundary(content) => Resolve(content)
    case Guarded(guard, isAuthenticated, children) =>
      var out := Guards.Apply(guard, isAuthenticated, children);
      if out.Navigate? then Redirect(out.to, out.replace) else Resolve(out.children)
    case Navigate(to, replace) => Redirect(to, replace)
    case Fragment(children) => Resolve(children)
    case Empty => Show(node)
    case Created(_) => Show(node)
    case ComponentValue(_) => Show(node)
  }

  /**
   * The outcome of visiting one route, by its kind and the authentication
   * snapshot: protected routes wait while loading and then admit only
   * authenticated users; public-only routes turn authenticated users away;
   * plain routes always show their content.
   */
  lemma RouteOutcome(route: RouteConfig, auth: AuthState)
    ensures var o := Resolve(RenderRouteElement(route, auth));
            var content := Resolve(RenderElement(route.element));
      && (Kind(route) == Protected && auth.isLoading ==> o == Pending)
      && (Kind(route) == Protected && !auth.isLoading && !auth.isAuthenticated ==> o == Redirect(Guards.LoginPath, true))
      && (Kind(route) == Protected && !auth.isLoading && auth.isAuthenticated ==> o == content)
      && (Kind(route) == PublicOnly && auth.isAuthenticated ==> o == Redirect(Guards.DashboardPath, true))
      && (Kind(route) == PublicOnly && !auth.isAuthenticated ==> o == content)
      && (Kind(route) == Plain ==> o == content)
  {
    var a := auth.isAuthenticated;
    var content := RenderElement(route.element);
    if Kind(route) == Protected && !auth.isLoading {
      assert RenderRouteElement(route, auth) == Boundary(Guarded(AuthGuard, a, content));
      assert Resolve(Boundary(Guarded(AuthGuard, a, content))) == Resolve(Guarded(AuthGuard, a, content));
    } else if Kind(route) == PublicOnly {
      assert RenderRouteElement(route, auth) == Boundary(Guarded(UnauthorizedRoute, a, content));
      assert Resolve(Boundary(Guarded(UnauthorizedRoute, a, content))) == Resolve(Guarded(UnauthorizedRoute, a, content));
    }
  }

  /** Whatever the table gives as a protected route's content, an anonymous visitor never reaches it. */
  lemma ProtectedContentWithheld(route: RouteConfig, auth: AuthState)
    requires route.isProtected && !auth.isAuthenticated
    ensures Resolve(RenderRouteElement(route, auth)) in {Pending, Redirect(Guards.LoginPath, true)}
  {
    RouteOutcome(route, auth);
  }
}
