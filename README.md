# React starter: route rendering, guards and HTTP error normalisation

This project models the decision logic of a small React application shell and proves properties of it.

- **Route table** (`RouteTypes`, `Dashboard`). A route configuration is a record. It has an optional element (a component or a ready node), an optional name, optional children, the flags `isPublic`, `isProtected`, `isLayout` and `index`, and an optional path. The source's union type rules out some flag combinations. Here each rule is a well-formedness predicate: `AuthFlagsExclusive`, `PlacementExclusive`, and `WellFormed`/`WellFormedTable` applied over the whole tree. `Kind` and `PlacementOf` read the flags the way the renderer does, giving a closed three-way variant for each. The dashboard feature's table is the constant `Dashboard.DashboardRoutes`.
- **Route renderer** (`AppRoutes`, `RouteTree`, `Navigation`). It takes a table and an authentication snapshot `(isAuthenticated, isLoading)`. For each route it picks one of four results:
  - the bare loading fallback, for a protected route while authentication is loading;
  - the element behind an `AuthGuard`, for a protected route;
  - the element behind an `UnauthorizedRoute`, for a public-only route;
  - the plain element.

  Every result except the bare fallback is wrapped in the Suspense and ErrorBoundary boundaries. The renderer emits one router `Route` per entry and recurses into children. A layout route is keyed `layout-i` and an index route `index-i`, where `i` is the entry's position among its siblings. A regular route is keyed by its path when the path is non-empty, and `route-i` otherwise. `RouteTree.Mirrors` states, at every depth, which `Route` each configuration becomes. React output is the datatype `ReactTree.ReactNode`, with one constructor per element kind the layer creates. `Navigation.Resolve` reads a rendered element the way a visitor meets it: waiting, redirected, or shown a page.
- **Guards** (`Guards`). Each guard is a pure function of the authentication flag and its children. It returns a replacing `Navigate` or a fragment around the children. The two guards are complementary.
- **HTTP client** (`HttpClient`). `Normalise` turns a transport error into the uniform `ApiError`. It follows JavaScript `||` semantics: an empty string and the number 0 are falsy (`JsValues`). The shared instance is the class `AxiosInstance`. Its constructor models `axios.create`. `UseRequest` and `UseResponse` append to its interceptor lists, and `CreateClient` is the module's registration of the two handler pairs. `Chain` delivers a settled call through the registered handlers.

Some facts about the dashboard table follow from the proofs:
- Its layout route is public-only, so `Dashboard.LayoutOutcome` shows that an authenticated visitor of `/` is redirected to `/dashboard`, a path this table does not define.
- The layout's path `/` never reaches the router, because layout routes are emitted without a path.

## Model

| member | source | states |
|---|---|---|
| `JsValues.OrString` | src/services/axios.ts:27-28 | the JavaScript or-fallback on a string gives the string when present and non-empty, else the fallback; the result is empty only when both are |
| `JsValues.OrNumber` | src/services/axios.ts:29 | the JavaScript or-fallback on a number gives the number when present and non-zero, else the fallback; the result is 0 only when both are |
| `Strings.NatToString` | src/app/App.tsx:60 | `${index}` is a non-empty string of decimal digits, one digit exactly when the index is below 10, whose last digit is the index mod 10 |
| `Strings.NatToStringValue` | src/app/App.tsx:60 | `${index}` denotes the index in decimal, with no leading zero for a positive index |
| `Strings.NatToStringInjective` | src/app/App.tsx:60-72 | different positions give different decimal strings |
| `Strings.PrefixedKeysInjective` | src/app/App.tsx:60-72 | two keys with the same prefix (`layout-`, `index-`, `route-`) are equal iff their positions are |
| `ReactTree.Boundary` | src/app/App.tsx:48-52 | the boundary is a Suspense whose fallback is the loading fallback, around an ErrorBoundary around the content |
| `RouteTypes.Kind` | src/app/App.tsx:27-36 | a route is protected iff `isProtected`, public-only iff `isPublic` without `isProtected`, plain iff neither flag is set; `isProtected` wins when both are set |
| `RouteTypes.KindOfWellFormed` | src/types/route.types.ts:9-17 | on a route allowed by the union type, `isPublic` alone means public-only and `isProtected` alone means protected |
| `RouteTypes.PlacementOf` | src/app/App.tsx:58-67 | a route is a layout iff `isLayout`, an index route iff `index` without `isLayout`, and a path route otherwise |
| `Guards.AuthGuard` | src/app/AuthGuard.tsx:9-15 | renders the children unchanged iff authenticated, and a replacing redirect to `/login` iff not |
| `Guards.UnauthorizedRoute` | src/app/UnauthorizedRoute.tsx:9-15 | renders the children unchanged iff not authenticated, and a replacing redirect to `/dashboard` iff authenticated |
| `Guards.Apply` | src/app/UnauthorizedRoute.tsx:10-14 | a guard element either renders its own children or issues a redirect, and every redirect replaces the history entry |
| `Guards.Complementary` | src/app/AuthGuard.tsx:10-14 | for every authentication value, exactly one of the two guards renders its children |
| `Guards.RedirectIgnoresChildren` | src/app/AuthGuard.tsx:9-15 | a guard's redirect does not depend on the children it withholds |
| `Guards.DistinctTargets` | src/app/UnauthorizedRoute.tsx:11 | the two redirect targets differ, and both redirects replace the history entry |
| `AppRoutes.RenderElement` | src/app/App.tsx:17-22 | only a function component (`typeof` 'function') is instantiated; a component object such as a `lazy()` result, a ready node and an absent element are all returned unchanged |
| `AppRoutes.RenderElementIdempotent` | src/app/App.tsx:17-22 | resolving an already resolved element gives back the same element |
| `AppRoutes.RenderRouteElement` | src/app/App.tsx:24-53 | the result is the bare loading fallback iff the route is protected and authentication is loading; otherwise it is the boundary around the route kind's gate (`AuthGuard`, `UnauthorizedRoute` or none) applied to the resolved element |
| `AppRoutes.LoadingReadOnlyWhenProtected` | src/app/App.tsx:27-46 | for a route that is not protected, the loading flag does not change the element |
| `AppRoutes.RouteKey` | src/app/App.tsx:60-72 | the key is never empty; a regular route with a non-empty path is keyed by that path; every other key ends in the position's decimal digits |
| `AppRoutes.RenderRoute` | src/app/App.tsx:56-77 | the key is `layout-i`, `index-i`, or the path when it is non-empty and `route-i` otherwise; a layout is checked first and emitted without a path; an index route is emitted without children; a regular route keeps its path; children are absent iff the configuration gives none, and otherwise are the rendering of the configured children under the same snapshot |
| `AppRoutes.RenderChildren` | src/app/App.tsx:61 | when there are no children the result is nothing; otherwise it is the configured children rendered as a table of their own, one entry per child |
| `AppRoutes.RenderRoutes` | src/app/App.tsx:55-79 | one `Route` per entry, in table order, each the rendering of that entry at its position, with the entry's key and route element |
| `RouteTree.RouteMirrored` | src/app/App.tsx:56-77 | one rendered route mirrors its configuration: placement from the flags, key, route element, the path on a regular route, and nested routes mirroring the children one by one |
| `RouteTree.RoutesMirrored` | src/app/App.tsx:55-79 | every table renders to a tree that mirrors it at every depth, in order and under the same snapshot |
| `RouteTree.MirrorIsRendering` | src/app/App.tsx:56-77 | a node that mirrors a configuration is that configuration's rendering |
| `RouteTree.MirrorsAreRendering` | src/app/App.tsx:55-79 | a tree that mirrors a table is that table's rendering, so the mirror relation pins the output down |
| `RouteTree.MirrorCharacterisesRendering` | src/app/App.tsx:55-79 | a tree mirrors a table iff it is the table rendered |
| `RouteTree.RouteElementsBounded` | src/app/App.tsx:48-61 | every element in one rendered route subtree is the bare fallback or boundary-wrapped |
| `RouteTree.RoutesElementsBounded` | src/app/App.tsx:48-61 | through every depth of the rendered tree, every element is the bare loading fallback or boundary-wrapped |
| `RouteTree.RouteNeverBareLoading` | src/app/App.tsx:27-30 | one route subtree contains no bare fallback when authentication has loaded or nothing in that subtree is protected |
| `RouteTree.RoutesNeverBareLoading` | src/app/App.tsx:27-30 | no bare loading fallback appears anywhere in the tree when authentication has loaded or no route at any depth is protected |
| `RouteTree.RouteIgnoresLoading` | src/app/App.tsx:27-46 | a route subtree with no protected route renders the same whether or not authentication is loading |
| `RouteTree.RoutesIgnoreLoading` | src/app/App.tsx:27-46 | a table with no protected route at any depth renders the same whether or not authentication is loading |
| `RouteTree.RouteCount` | src/app/App.tsx:58-76 | one rendered route subtree has at most as many `Route`s as the configurations it came from, and the same number when no index route in it lists children |
| `RouteTree.RoutesCount` | src/app/App.tsx:55-77 | the tree has at most one `Route` per configured route (configurations under index routes are dropped), and exactly one per configured route when no index route lists children |
| `RouteTree.RouteKeysCollide` | src/app/App.tsx:60-72 | two sibling keys at different positions coincide only when both are the same explicit path (explicit paths not starting like a generated key) |
| `RouteTree.SiblingKeysDistinct` | src/app/App.tsx:55-79 | when no explicit path begins with `layout-`, `index-` or `route-`, the sibling keys are pairwise distinct iff the explicit paths are |
| `Navigation.Resolve` | src/app/AuthGuard.tsx:9-15 | a shown page is always a leaf element; an `AuthGuard` around an anonymous visitor redirects to `/login` with replace, an `UnauthorizedRoute` around an authenticated one to `/dashboard` with replace; an admitting guard resolves to its children |
| `Navigation.RouteOutcome` | src/app/App.tsx:27-52 | a protected route waits while loading, then redirects anonymous visitors to `/login` and shows authenticated ones its content; a public-only route redirects authenticated visitors to `/dashboard` and shows anonymous ones its content; a plain route always shows its content |
| `Navigation.ProtectedContentWithheld` | src/app/App.tsx:27-35 | an anonymous visitor of a protected route either waits or is redirected to `/login`, never shown the content |
| `HttpClient.Normalise` | src/services/axios.ts:25-31 | message: the server's when truthy, else the transport's. code: the server's when truthy, else `UNKNOWN_ERROR`, never empty. status: the response's when non-zero, else 500, never 0. details: present iff the server body carries them, and then copied. With no response the result is (transport message, `UNKNOWN_ERROR`, 500, no details) |
| `HttpClient.NormaliseRecoversServerError` | src/services/axios.ts:25-31 | an error the server sends in the `ApiError` shape, with no falsy field, is returned exactly |
| `HttpClient.NormaliseIdempotent` | src/services/axios.ts:25-31 | re-sending a normalised error through the normaliser yields the same error |
| `HttpClient.OnRequest` | src/services/axios.ts:16-18 | the request success handler passes the configuration through unchanged |
| `HttpClient.OnRequestError` | src/services/axios.ts:19 | the request failure handler rejects with the same reason |
| `HttpClient.OnResponse` | src/services/axios.ts:24 | the response success handler passes the response through unchanged |
| `HttpClient.AsAxiosError` | src/services/axios.ts:25-30 | the failure handler reads a transport error's own fields; an already normalised error offers it only a message and no response |
| `HttpClient.OnResponseError` | src/services/axios.ts:25-34 | the response failure handler always rejects and never resolves; it rejects with the normalised form of the transport error |
| `HttpClient.Apply` | src/services/axios.ts:15-35 | a registered handler pair keeps every success; the pass-through pair rejects with the same reason; the normalising pair rejects every failure with exactly the error built from it by `Normalise` |
| `HttpClient.HandlerPairs` | src/services/axios.ts:15-35 | applying the pass-through pair is `OnRequest`/`OnRequestError`, and applying the normalising pair is `OnResponse`/`OnResponseError` |
| `HttpClient.Chain` | src/services/axios.ts:14-35 | the registered handlers run one after another, and none turns a failure into a success |
| `HttpClient.ChainKeepsSuccess` | src/services/axios.ts:24 | any chain of registered handlers delivers a success unchanged |
| `HttpClient.ChainPassThrough` | src/services/axios.ts:15-20 | a chain of pass-through handlers is the identity |
| `HttpClient.ChainNormalisesFailures` | src/services/axios.ts:23-35 | once the normalising handler is registered, every failure reaches the caller as a normalised error |
| `HttpClient.ChainKeepsNormalised` | src/services/axios.ts:25-34 | a rejection that is already normalised stays a normalised rejection through any chain |
| `HttpClient.AxiosInstance.constructor` | src/services/axios.ts:6-12 | the instance has the given base address and timeout, the JSON content-type header, and no interceptors |
| `HttpClient.AxiosInstance.UseRequest` | src/services/axios.ts:15-20 | appends one request handler pair, returns its position, and leaves the response list alone |
| `HttpClient.AxiosInstance.UseResponse` | src/services/axios.ts:23-35 | appends one response handler pair, returns its position, and leaves the request list alone |
| `HttpClient.AxiosInstance.Deliver` | src/services/axios.ts:23-35 | a caller sees a success unchanged, and any failure as a normalised rejection once the normaliser is registered; with exactly the registered normaliser, a transport failure arrives as exactly its normalised error |
| `HttpClient.CreateClient` | src/services/axios.ts:6-35 | after module initialisation the instance has exactly the pass-through request handler and the normalising response handler |
| `HttpClient.ConfiguredDelivery` | src/services/axios.ts:23-35 | with the registered handlers, a success arrives unchanged and a transport failure arrives as exactly its normalised error |
| `HttpClient.TimeoutNormalised` | src/services/axios.ts:27-30 | a timeout (no response) becomes the transport message, `UNKNOWN_ERROR` and 500 |
| `HttpClient.NotFoundNormalised` | src/services/axios.ts:27-30 | a 404 whose body gives a message and a code keeps both, and keeps status 404 |
| `HttpClient.FalsyFieldsFallBack` | src/services/axios.ts:27-30 | status 0 and an empty message and code fall back to the transport message, `UNKNOWN_ERROR` and 500, and the details are still copied |
| `Dashboard.TableShape` | src/features/dashboard/routes/dashboard.routes.ts:13-33 | one top-level public layout at `/`, with two children in order: a public index route without a path, then a plain route at `/profile` |
| `Dashboard.TableWellFormed` | src/features/dashboard/routes/dashboard.routes.ts:14-31 | the table is allowed by the route union type, no index route lists children, and there are three routes in total |
| `Dashboard.NoProtectedRoute` | src/features/dashboard/routes/dashboard.routes.ts:13-33 | no route in the table, at any depth, is protected |
| `Dashboard.IndexRendering` | src/features/dashboard/routes/dashboard.routes.ts:20-25 | the index child renders as `index-0` behind `UnauthorizedRoute` |
| `Dashboard.ProfileRendering` | src/features/dashboard/routes/dashboard.routes.ts:26-30 | the profile child renders keyed and routed by `/profile`, unguarded, with no children |
| `Dashboard.ChildrenRendering` | src/features/dashboard/routes/dashboard.routes.ts:19-31 | the layout's two children render in order as the index and profile routes |
| `Dashboard.Rendering` | src/features/dashboard/routes/dashboard.routes.ts:13-33 | the exact rendered tree for any snapshot: the pathless `layout-0` behind `UnauthorizedRoute`, then `index-0` behind `UnauthorizedRoute`, then `/profile` plain; the loading flag plays no part |
| `Dashboard.NeverBareLoading` | src/features/dashboard/routes/dashboard.routes.ts:13-33 | rendering the table never gives the bare loading fallback |
| `Dashboard.KeysAndCount` | src/features/dashboard/routes/dashboard.routes.ts:14-31 | sibling keys are distinct at both levels, and there is one `Route` per configured route |
| `Dashboard.LayoutOutcome` | src/features/dashboard/routes/dashboard.routes.ts:14-18 | an authenticated visitor of the layout is redirected to `/dashboard`, which is neither of the table's links; an anonymous visitor sees the layout |

## Left out

- React runtime behaviour is left out: Suspense pending states, ErrorBoundary catching a thrown render error, `lazy()` module loading, `useAuth` and `Providers`. These are framework scheduling and asynchronous behaviour. Boundaries appear only as element constructors, and `Navigation.Resolve` reads them as already loaded and not failed.
- `App` and the `<Routes>` wrapper around `renderRoutes` (src/app/App.tsx:81-90) are left out. The renderer is modelled over any route table.
- The renderer is not run on src/config/routes.ts, the table App.tsx:81 passes to it. That table's entries use `component` and `isPrivate`, and the renderer never reads those fields. src/config/routes.ts is not part of this model.
- Route matching and path composition are React Router's behaviour, so those parts of a visit are left out: which nested route is addressable at which URL, and the order of matching.
- The axios transport is left out: `axios.create` itself, base URL and timeout values (they come from `config.api`), headers on the wire, promises as asynchronous values, and network or timeout behaviour. The constructor and `CreateClient` take the base URL and timeout as parameters. A settled call is the datatype `Settled`.
- `HttpClient.Chain` applies handlers in registration order. Axios runs request interceptors in reverse order. With the single request handler this module registers, the two orders agree.
- `HttpClient.Normalise`: the server body's `message` and `code` are taken to be strings, as the `ApiError` type declares them. The `||` result for non-string JSON values is not modelled. A NaN status is also not modelled (integers only).
- Children given as an empty array and absent children are kept apart (`Children.Defined([])` and `Children.Undefined`), as the source's `route.children &&` test keeps them apart.
- The `name` field is carried but never read, as in the source.
- Component objects other than a `lazy()` result (`memo`, `forwardRef`) are not separate constructors of `ReactTree.Component`. They behave like `Lazy`: their `typeof` is 'object', so the renderer returns them unchanged. React's refusal to render a bare component object as a child is runtime behaviour, and `Navigation.Resolve` reads such a node as shown.
- src/features/demo/routes/demo.routes.ts and src/features/auth/routes/auth.routes.ts are left out: they are single-entry data tables. vite.config.ts (build aliases) and src/features/auth/index.ts (re-exports) are also left out.
