/**
 * The route table and its guards (src/App.tsx) and the stand-alone guard
 * component (src/components/layout/ProtectedRoute.tsx). The session and
 * profile come from the authentication hook and are inputs here.
 */
module Routes {
  import opened Domain
  import opened Text

  /** What the authentication hook reports: still loading, the signed-in user's id, the profile row. */
  datatype Auth = Auth(loading: bool, user: Option<string>, profile: Option<Profile>)

  /** What a guard draws: the loading text, the spinner, the wrapped page, or a redirect. */
  datatype Outcome = Placeholder | Spinner | Render | Redirect(to: string)

  const LoginPath := "/login"
  const HomePath := "/"

  function RoleIs(a: Auth, r: Role): bool
  {
    a.profile.Some? && a.profile.value.role == r
  }

  /** `PrivateRoute`: wait, then the page for a signed-in user and the login page for anyone else. */
  function PrivateRoute(a: Auth): (o: Outcome)
    ensures a.loading ==> o == Placeholder
    ensures !a.loading ==> (o == Render <==> a.user.Some?)
    ensures !a.loading && a.user.None? ==> o == Redirect(LoginPath)
  {
    if a.loading then Placeholder
    else if a.user.Some? then Render
    else Redirect(LoginPath)
  }

  /** `AdminRoute`: wait, then the page only for the administrator role, home for anyone else. */
  function AdminRoute(a: Auth): (o: Outcome)
    ensures a.loading ==> o == Placeholder
    ensures !a.loading ==> (o == Render <==> RoleIs(a, Admin))
    ensures !a.loading && !RoleIs(a, Admin) ==> o == Redirect(HomePath)
  {
    if a.loading then Placeholder
    else if RoleIs(a, Admin) then Render
    else Redirect(HomePath)
  }

  /** `GestorRoute`: the same with the gestor role. */
  function GestorRoute(a: Auth): (o: Outcome)
    ensures a.loading ==> o == Placeholder
    ensures !a.loading ==> (o == Render <==> RoleIs(a, Gestor))
    ensures !a.loading && !RoleIs(a, Gestor) ==> o == Redirect(HomePath)
  {
    if a.loading then Placeholder
    else if RoleIs(a, Gestor) then Render
    else Redirect(HomePath)
  }

  /** No profile passes both role guards: the administrator is turned away from the gestor area and the reverse. */
  lemma NoRolePassesBoth(a: Auth)
    ensures !(AdminRoute(a) == Render && GestorRoute(a) == Render)
  {
  }

  /**
   * `ProtectedRoute`: the spinner while loading, the login page without a
   * user (whatever `adminOnly` says), home when `adminOnly` and the profile
   * is missing or not an administrator, and the page otherwise.
   */
  function ProtectedRoute(a: Auth, adminOnly: bool): (o: Outcome)
    ensures a.loading ==> o == Spinner
    ensures !a.loading && a.user.None? ==> o == Redirect(LoginPath)
    ensures !a.loading && a.user.Some? && adminOnly && !RoleIs(a, Admin) ==> o == Redirect(HomePath)
    ensures o == Render <==> !a.loading && a.user.Some? && (!adminOnly || RoleIs(a, Admin))
  {
    if a.loading then Spinner
    else if a.user.None? then Redirect(LoginPath)
    else if adminOnly && !RoleIs(a, Admin) then Redirect(HomePath)
    else Render
  }

  /** Without `adminOnly` the component lets through exactly who `PrivateRoute` lets through. */
  lemma ProtectedMatchesPrivate(a: Auth)
    ensures ProtectedRoute(a, false) == Render <==> PrivateRoute(a) == Render
  {
  }

  /**
   * With the hook's own shape (a profile only for a signed-in user), the
   * component's administrator mode admits exactly whom `AdminRoute` admits,
   * and either role guard admits only sessions `PrivateRoute` admits.
   */
  lemma GuardsAgree(a: Auth)
    requires a.profile.Some? ==> a.user.Some?
    ensures ProtectedRoute(a, true) == Render <==> AdminRoute(a) == Render
    ensures AdminRoute(a) == Render || GestorRoute(a) == Render ==> PrivateRoute(a) == Render
    ensures ProtectedRoute(a, true) == Render ==> ProtectedRoute(a, false) == Render
  {
  }

  /** The pages the table can show. */
  datatype Page =
    | LoginPage | RegisterPage | VerifyEmailPage | AuthCallbackPage
    | HomePage | CatalogPage | CartPage | CheckoutPage | OrdersPage
    | AboutPage | ContactPage | ProductPage | ProfilePage | OrderConfirmationPage
    | AdminDashboardPage | AdminOrdersPage | AdminProductsPage | AdminUsersPage
    | NotFoundPage

  datatype Guard = Public | Private | AdminOnly | GestorOnly

  /** What a route shows once its guard lets it through: a page, or a further redirect. */
  datatype Target = Show(page: Page) | Forward(to: string)

  /** A path segment of a pattern: a fixed word, or a parameter such as `:id`. */
  datatype Segment = Lit(word: string) | Param

  /** One route, with the nested routes flattened to their full paths. */
  datatype Route = Route(pattern: seq<Segment>, guard: Guard, target: Target)

  /** The router compares fixed words without regard to case; a parameter takes any non-empty segment. */
  predicate SegmentMatches(seg: Segment, s: string)
  {
    match seg
    case Lit(w) => Lower(s) == w
    case Param => s != ""
  }

  predicate PatternMatches(pattern: seq<Segment>, path: seq<string>)
  {
    |pattern| == |path| && forall i :: 0 <= i < |path| ==> SegmentMatches(pattern[i], path[i])
  }

  /** The sign-in pages, outside any layout. */
  const AuthRoutes: seq<Route> := [
    Route([Lit("login")], Public, Show(LoginPage)),
    Route([Lit("register")], Public, Show(RegisterPage)),
    Route([Lit("verify-email")], Public, Show(VerifyEmailPage)),
    Route([Lit("auth"), Lit("callback")], Public, Show(AuthCallbackPage))
  ]

  /** The shop's pages, inside the main layout. */
  const ShopRoutes: seq<Route> := [
    Route([], Public, Show(HomePage)),
    Route([Lit("catalog")], Public, Show(CatalogPage)),
    Route([Lit("cart")], Public, Show(CartPage)),
    Route([Lit("checkout")], Private, Show(CheckoutPage)),
    Route([Lit("orders")], Private, Show(OrdersPage)),
    Route([Lit("nosotros")], Public, Show(AboutPage)),
    Route([Lit("contacto")], Public, Show(ContactPage)),
    Route([Lit("product"), Param], Public, Show(ProductPage)),
    Route([Lit("profile")], Private, Show(ProfilePage)),
    Route([Lit("orders"), Param], Private, Show(OrderConfirmationPage))
  ]

  /** The administrator layout's children under /admin. */
  const AdminRoutes: seq<Route> := [
    Route([Lit("admin")], AdminOnly, Show(AdminDashboardPage)),
    Route([Lit("admin"), Lit("orders")], AdminOnly, Show(AdminOrdersPage)),
    Route([Lit("admin"), Lit("products")], AdminOnly, Show(AdminProductsPage)),
    Route([Lit("admin"), Lit("users")], AdminOnly, Show(AdminUsersPage))
  ]

  /** The gestor layout's children under /gestor. */
  const GestorRoutes: seq<Route> := [
    Route([Lit("gestor")], GestorOnly, Forward("/gestor/products")),
    Route([Lit("gestor"), Lit("products")], GestorOnly, Show(AdminProductsPage))
  ]

  /** The route tree in declaration order, nested routes flattened to their full paths. */
  const Table: seq<Route> := AuthRoutes + ShopRoutes + AdminRoutes + GestorRoutes

  /** The catch-all route, last in the table. */
  const NotFound := Route([], Public, Show(NotFoundPage))

  function FirstMatch(routes: seq<Route>, path: seq<string>): (r: Option<Route>)
    ensures r.None? <==> forall i :: 0 <= i < |routes| ==> !PatternMatches(routes[i].pattern, path)
    ensures r.Some? ==> r.value in routes && PatternMatches(r.value.pattern, path)
  {
    if routes == [] then None
    else if PatternMatches(routes[0].pattern, path) then Some(routes[0])
    else FirstMatch(routes[1..], path)
  }

  /** The route found is the first one that matches: every route before it fails to match. */
  lemma {:induction false} FirstMatchIsFirst(routes: seq<Route>, path: seq<string>)
    requires FirstMatch(routes, path).Some?
    ensures exists k :: (0 <= k < |routes| && routes[k] == FirstMatch(routes, path).value &&
                         forall j :: 0 <= j < k ==> !PatternMatches(routes[j].pattern, path))
  {
    if !PatternMatches(routes[0].pattern, path) {
      var tail := routes[1..];
      FirstMatchIsFirst(tail, path);
      var k :| 0 <= k < |tail| && tail[k] == FirstMatch(tail, path).value
        && forall j :: 0 <= j < k ==> !PatternMatches(tail[j].pattern, path);
      assert routes[k + 1] == tail[k];
      forall j | 0 <= j < k + 1
        ensures !PatternMatches(routes[j].pattern, path)
      {
        if j > 0 { assert routes[j] == tail[j - 1]; }
      }
    } else {
      assert routes[0] == FirstMatch(routes, path).value;
    }
  }

  /** The route a path (its non-empty segments) lands on; anything unmatched goes to the 404 page. */
  function Resolve(path: seq<string>): (r: Route)
    ensures r == NotFound <==> forall i :: 0 <= i < |Table| ==> !PatternMatches(Table[i].pattern, path)
    ensures r != NotFound ==> r in Table && PatternMatches(r.pattern, path)
  {
    var m := FirstMatch(Table, path);
    if m.Some? then m.value else NotFound
  }

  /** The guard a route is wrapped in, applied to the session. */
  function GuardOutcome(g: Guard, a: Auth): Outcome
  {
    match g
    case Public => Render
    case Private => PrivateRoute(a)
    case AdminOnly => AdminRoute(a)
    case GestorOnly => GestorRoute(a)
  }

  /** What the visitor sees on a path: the guard's placeholder or redirect, or the route's target. */
  datatype View = Guarded(o: Outcome) | Shown(target: Target)

  function ViewOf(path: seq<string>, a: Auth): (v: View)
    ensures GuardOutcome(Resolve(path).guard, a) == Render ==> v == Shown(Resolve(path).target)
    ensures GuardOutcome(Resolve(path).guard, a) != Render ==> v == Guarded(GuardOutcome(Resolve(path).guard, a))
  {
    var r := Resolve(path);
    var o := GuardOutcome(r.guard, a);
    if o == Render then Shown(r.target) else Guarded(o)
  }

  /** A page behind any guard shows nothing but the loading text while the session loads. */
  lemma GuardsWaitWhileLoading(path: seq<string>, a: Auth)
    requires a.loading && Resolve(path).guard != Public
    ensures ViewOf(path, a) == Guarded(Placeholder)
  {
  }

  /** Nothing behind the administrator guard is shown to a non-administrator once loading is over. */
  lemma AdminAreaClosed(path: seq<string>, a: Auth)
    requires !a.loading && !RoleIs(a, Admin) && Resolve(path).guard == AdminOnly
    ensures ViewOf(path, a) == Guarded(Redirect(HomePath))
  {
  }

  /** The guard each page sits behind in the table. */
  function GuardOf(page: Page): Guard
  {
    match page
    case CheckoutPage | OrdersPage | ProfilePage | OrderConfirmationPage => Private
    case AdminDashboardPage | AdminOrdersPage | AdminUsersPage => AdminOnly
    case _ => Public
  }

  /**
   * A route is guarded as its page demands; the products page may sit
   * behind the administrator or the gestor guard, and the only forward is
   * the gestor index's, to the gestor's products page.
   */
  predicate GuardedAsDemanded(r: Route)
  {
    && (r.target.Show? && r.target.page != AdminProductsPage ==> r.guard == GuardOf(r.target.page))
    && (r.target == Show(AdminProductsPage) ==> r.guard == AdminOnly || r.guard == GestorOnly)
    && (r.target.Forward? ==> r == Route([Lit("gestor")], GestorOnly, Forward("/gestor/products")))
  }

  lemma AuthRoutesGuarded()
    ensures forall r :: r in AuthRoutes ==> GuardedAsDemanded(r)
  {
  }

  lemma ShopRoutesGuarded()
    ensures forall r :: r in ShopRoutes ==> GuardedAsDemanded(r)
  {
    forall i | 0 <= i < |ShopRoutes|
      ensures GuardedAsDemanded(ShopRoutes[i])
    {
    }
  }

  lemma StaffRoutesGuarded()
    ensures forall r :: r in AdminRoutes + GestorRoutes ==> GuardedAsDemanded(r)
  {
  }

  /**
   * Every route of the table is guarded as its page demands; the products
   * page sits behind the administrator guard under /admin and behind the
   * gestor guard under /gestor, and the gestor index forwards to the latter.
   */
  lemma TableGuards()
    ensures forall r :: r in Table && r.target.Show? && r.target.page != AdminProductsPage ==>
      r.guard == GuardOf(r.target.page)
    ensures forall r :: r in Table && r.target == Show(AdminProductsPage) ==>
      r.guard == AdminOnly || r.guard == GestorOnly
    ensures forall r :: r in Table && r.target.Forward? ==>
      r == Route([Lit("gestor")], GestorOnly, Forward("/gestor/products"))
  {
    AuthRoutesGuarded();
    ShopRoutesGuarded();
    StaffRoutesGuarded();
    assert Table == AuthRoutes + ShopRoutes + (AdminRoutes + GestorRoutes);
    forall r | r in Table
      ensures GuardedAsDemanded(r)
    {
      assert r in AuthRoutes || r in ShopRoutes || r in AdminRoutes + GestorRoutes;
    }
  }

  /** Whatever the path, the route it resolves to is guarded as its page demands. */
  lemma ResolvedGuarded(path: seq<string>)
    ensures GuardedAsDemanded(Resolve(path))
  {
    var r := Resolve(path);
    if r != NotFound {
      TableGuards();
    }
  }

  /** Checkout, the order list, an order's page and the profile are shown only to a signed-in user. */
  lemma PrivatePagesNeedUser(path: seq<string>, a: Auth)
    requires ViewOf(path, a).Shown? && ViewOf(path, a).target.Show?
    requires GuardOf(ViewOf(path, a).target.page) == Private
    ensures !a.loading && a.user.Some?
  {
    ResolvedGuarded(path);
    RouteNeedsUser(Resolve(path), a);
  }

  lemma RouteNeedsUser(r: Route, a: Auth)
    requires GuardedAsDemanded(r) && r.target.Show? && GuardOf(r.target.page) == Private
    requires GuardOutcome(r.guard, a) == Render
    ensures !a.loading && a.user.Some?
  {
  }

  /** The dashboard, the order board and the user list are shown only to an administrator. */
  lemma AdminPagesNeedAdmin(path: seq<string>, a: Auth)
    requires ViewOf(path, a).Shown? && ViewOf(path, a).target.Show?
    requires GuardOf(ViewOf(path, a).target.page) == AdminOnly
    ensures !a.loading && RoleIs(a, Admin)
  {
    ResolvedGuarded(path);
    RouteNeedsAdmin(Resolve(path), a);
  }

  lemma RouteNeedsAdmin(r: Route, a: Auth)
    requires GuardedAsDemanded(r) && r.target.Show? && GuardOf(r.target.page) == AdminOnly
    requires GuardOutcome(r.guard, a) == Render
    ensures !a.loading && RoleIs(a, Admin)
  {
  }

  /** The product editor is shown only to an administrator or a gestor, and the gestor index forward only to a gestor. */
  lemma ProductEditorNeedsStaff(path: seq<string>, a: Auth)
    requires ViewOf(path, a).Shown?
    requires ViewOf(path, a).target == Show(AdminProductsPage) || ViewOf(path, a).target.Forward?
    ensures !a.loading && (RoleIs(a, Admin) || RoleIs(a, Gestor))
    ensures ViewOf(path, a).target.Forward? ==> RoleIs(a, Gestor) && ViewOf(path, a).target.to == "/gestor/products"
  {
    ResolvedGuarded(path);
    var r := Resolve(path);
    assert r.guard == AdminOnly || r.guard == GestorOnly;
  }

  /** "/checkout" lands on the checkout page, behind the private guard. */
  lemma CheckoutRoute()
    ensures Resolve(["checkout"]) == ShopRoutes[3]
    ensures Resolve(["checkout"]).guard == Private && Resolve(["checkout"]).target == Show(CheckoutPage)
  {
    var path := ["checkout"];
    CheckoutInShop();
    FirstMatchAppend(AuthRoutes, ShopRoutes, path);
    FirstMatchAppend(AuthRoutes + ShopRoutes, AdminRoutes, path);
    FirstMatchAppend(AuthRoutes + ShopRoutes + AdminRoutes, GestorRoutes, path);
  }

  /** No sign-in route takes "/checkout"; the fourth shop route is the first to. */
  lemma CheckoutInShop()
    ensures FirstMatch(AuthRoutes, ["checkout"]).None?
    ensures FirstMatch(ShopRoutes, ["checkout"]) == Some(ShopRoutes[3])
  {
    var w := "checkout";
    assert forall i :: 0 <= i < |w| ==> !IsUpper(w[i]);
    LowerUnchanged(w);
    CheckoutNotAuth(w);
    CheckoutFourthShop(w);
  }

  lemma CheckoutNotAuth(w: string)
    requires w == "checkout" && Lower(w) == w
    ensures FirstMatch(AuthRoutes, [w]).None?
  {
    OneWordMiss(AuthRoutes[0].pattern, w, "login");
    assert w[0] != "register"[0];
    OneWordMiss(AuthRoutes[1].pattern, w, "register");
    OneWordMiss(AuthRoutes[2].pattern, w, "verify-email");
    assert |AuthRoutes[3].pattern| == 2;
  }

  lemma CheckoutFourthShop(w: string)
    requires w == "checkout" && Lower(w) == w
    ensures FirstMatch(ShopRoutes, [w]) == Some(ShopRoutes[3])
  {
    assert ShopRoutes[0].pattern == [];
    OneWordMiss(ShopRoutes[1].pattern, w, "catalog");
    OneWordMiss(ShopRoutes[2].pattern, w, "cart");
    assert PatternMatches(ShopRoutes[3].pattern, [w]);
    FirstMatchSkips(ShopRoutes, [w], 3);
  }

  lemma OneWordMiss(pattern: seq<Segment>, w: string, v: string)
    requires pattern == [Lit(v)] && Lower(w) == w && w != v
    ensures !PatternMatches(pattern, [w])
  {
    assert !SegmentMatches(pattern[0], [w][0]);
  }

  /** On two tables one after the other, the first table's match wins. */
  lemma {:induction false} FirstMatchAppend(a: seq<Route>, b: seq<Route>, path: seq<string>)
    ensures FirstMatch(a + b, path) == if FirstMatch(a, path).Some? then FirstMatch(a, path) else FirstMatch(b, path)
    decreases |a|
  {
    if a != [] {
      assert (a + b)[0] == a[0] && (a + b)[1..] == a[1..] + b;
      FirstMatchAppend(a[1..], b, path);
    } else {
      assert a + b == b;
    }
  }

  /** Routes before the k-th that do not match are skipped, and a matching k-th one is taken. */
  lemma {:induction false} FirstMatchSkips(routes: seq<Route>, path: seq<string>, k: nat)
    requires k < |routes| && PatternMatches(routes[k].pattern, path)
    requires forall i :: 0 <= i < k ==> !PatternMatches(routes[i].pattern, path)
    ensures FirstMatch(routes, path) == Some(routes[k])
    decreases k
  {
    if k > 0 {
      assert !PatternMatches(routes[0].pattern, path);
      assert forall i :: 0 <= i < k - 1 ==> routes[1..][i] == routes[i + 1];
      FirstMatchSkips(routes[1..], path, k - 1);
    }
  }

  /** A path with more than two segments matches no route and lands on the 404 page. */
  lemma DeepPathsNotFound(path: seq<string>)
    requires |path| > 2
    ensures Resolve(path) == NotFound
  {
    assert forall i :: 0 <= i < |Table| ==> |Table[i].pattern| <= 2;
  }

  /** Routing ignores the case of the segments. */
  lemma {:induction false} CaseInsensitive(path: seq<string>)
    ensures Resolve(path) == Resolve(seq(|path|, i requires 0 <= i < |path| => Lower(path[i])))
  {
    var lowered := seq(|path|, i requires 0 <= i < |path| => Lower(path[i]));
    forall k | 0 <= k < |path|
      ensures Lower(lowered[k]) == Lower(path[k]) && (lowered[k] != "" <==> path[k] != "")
    {
      LowerIdempotent(path[k]);
    }
    forall r | r in Table
      ensures PatternMatches(r.pattern, path) <==> PatternMatches(r.pattern, lowered)
    {
      if |r.pattern| == |path| {
        assert forall k :: 0 <= k < |path| ==> (SegmentMatches(r.pattern[k], path[k]) <==> SegmentMatches(r.pattern[k], lowered[k]));
      }
    }
    FirstMatchSame(Table, path, lowered);
  }

  lemma {:induction false} FirstMatchSame(routes: seq<Route>, p: seq<string>, q: seq<string>)
    requires forall r :: r in routes ==> (PatternMatches(r.pattern, p) <==> PatternMatches(r.pattern, q))
    ensures FirstMatch(routes, p) == FirstMatch(routes, q)
    decreases |routes|
  {
    if routes != [] {
      assert routes[0] in routes;
      assert forall r :: r in routes[1..] ==> r in routes;
      FirstMatchSame(routes[1..], p, q);
    }
  }
}
