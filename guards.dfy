/** The two route guards: each renders its children or redirects, from the authentication flag alone. */
module Guards {
  import ReactTree

  const LoginPath: string := "/login"
  const DashboardPath: string := "/dashboard"

  /** Lets authenticated users through; sends everyone else to the login page. */
  function AuthGuard(isAuthenticated: bool, children: ReactTree.ReactNode): (r: ReactTree.ReactNode)
    ensures r == ReactTree.Fragment(children) <==> isAuthenticated
    ensures r == ReactTree.Navigate(LoginPath, true) <==> !isAuthenticated
  {
    if !isAuthenticated then ReactTree.Navigate(LoginPath, true) else ReactTree.Fragment(children)
  }

  /** Lets anonymous users through; sends authenticated users to the dashboard. */
  function UnauthorizedRoute(isAuthenticated: bool, children: ReactTree.ReactNode): (r: ReactTree.ReactNode)
    ensures r == ReactTree.Fragment(children) <==> !isAuthenticated
    ensures r == ReactTree.Navigate(DashboardPath, true) <==> isAuthenticated
  {
    if isAuthenticated then ReactTree.Navigate(DashboardPath, true) else ReactTree.Fragment(children)
  }

  /** What a guard element renders to. */
  function Apply(guard: ReactTree.Guard, isAuthenticated: bool, children: ReactTree.ReactNode): (r: ReactTree.ReactNode)
    ensures r.Navigate? || r == ReactTree.Fragment(children)
    ensures r.Navigate? ==> r.replace
  {
    match guard
    case AuthGuard => AuthGuard(isAuthenticated, children)
    case UnauthorizedRoute => UnauthorizedRoute(isAuthenticated, children)
  }

  /** For every authentication value exactly one of the two guards renders its children. */
  lemma Complementary(isAuthenticated: bool, children: ReactTree.ReactNode)
    ensures (AuthGuard(isAuthenticated, children) == ReactTree.Fragment(children))
         != (UnauthorizedRoute(isAuthenticated, children) == ReactTree.Fragment(children))
  {
  }

  /** The redirect a guard issues is fixed: it does not depend on the children it withholds. */
  lemma RedirectIgnoresChildren(isAuthenticated: bool, c1: ReactTree.ReactNode, c2: ReactTree.ReactNode)
    ensures !isAuthenticated ==> AuthGuard(isAuthenticated, c1) == AuthGuard(isAuthenticated, c2)
    ensures isAuthenticated ==> UnauthorizedRoute(isAuthenticated, c1) == UnauthorizedRoute(isAuthenticated, c2)
  {
  }

  /** The two guards redirect to different places, and both replace the history entry. */
  lemma DistinctTargets(c: ReactTree.ReactNode)
    ensures AuthGuard(false, c).to != UnauthorizedRoute(true, c).to
    ensures AuthGuard(false, c).replace && UnauthorizedRoute(true, c).replace
  {
  }
}
