/** The client's route table (`App.js`): which screen a path shows. A
    pattern is written as its list of `/`-separated segments (`"/cart/:id"`
    is `["", "cart", ":id"]`); a segment starting with `:` matches any
    non-empty segment, any other segment only itself. */
module Routes {
  import opened Wrappers
  import opened Text

  datatype Screen =
    | HomeScreen | ProductDetailsScreen | SignupScreen | LoginScreen | CartScreen
    | ShippingScreen | PlaceOrderScreen | PaymentScreen | OrderScreen
    | ProductListScreen | ProductEditScreen | OrderListScreen | UserListScreen
    | UserEditScreen | ProfileScreen

  datatype Route = Route(pattern: seq<string>, screen: Screen)

  /** How many routes `App.js` declares. */
  const RouteCount := 16

  /** The `i`-th route in the order `App.js` declares them. */
  function RouteAt(i: nat): Route
    requires i < RouteCount
  {
    match i
    case 0 => Route(["", ""], HomeScreen)
    case 1 => Route(["", "product", ":id"], ProductDetailsScreen)
    case 2 => Route(["", "signup"], SignupScreen)
    case 3 => Route(["", "login"], LoginScreen)
    case 4 => Route(["", "cart", ":id"], CartScreen)
    case 5 => Route(["", "cart"], CartScreen)
    case 6 => Route(["", "checkout"], ShippingScreen)
    case 7 => Route(["", "placeorder"], PlaceOrderScreen)
    case 8 => Route(["", "payment"], PaymentScreen)
    case 9 => Route(["", "order", ":id"], OrderScreen)
    case 10 => Route(["", "admin", "productList"], ProductListScreen)
    case 11 => Route(["", "admin", "product", ":id", "edit"], ProductEditScreen)
    case 12 => Route(["", "admin", "orderlist"], OrderListScreen)
    case 13 => Route(["", "admin", "userList"], UserListScreen)
    case 14 => Route(["", "admin", "user", ":id", "edit"], UserEditScreen)
    case _ => Route(["", "profile"], ProfileScreen)
  }

  predicate SegmentMatches(pat: string, seg: string) {
    if |pat| > 0 && pat[0] == ':' then seg != [] else pat == seg
  }

  /** The path has as many segments as the pattern, and each matches the
      pattern's segment in the same place. */
  predicate Matches(pattern: seq<string>, segs: seq<string>) {
    |pattern| == |segs| && MatchesFrom(pattern, segs, 0)
  }

  predicate MatchesFrom(pattern: seq<string>, segs: seq<string>, i: nat)
    requires |pattern| == |segs| && i <= |pattern|
    decreases |pattern| - i
  {
    i == |pattern| || (SegmentMatches(pattern[i], segs[i]) && MatchesFrom(pattern, segs, i + 1))
  }

  /** The route table as a list, in declaration order. */
  function Table(): (t: seq<Route>)
    ensures |t| == RouteCount && forall i | 0 <= i < RouteCount :: t[i] == RouteAt(i)
  {
    seq(RouteCount, i requires 0 <= i < RouteCount => RouteAt(i))
  }

  /** A pattern matches its own text: a `:` segment is never empty there. */
  lemma MatchesItself(pattern: seq<string>)
    ensures Matches(pattern, pattern)
  {
    MatchesItselfFrom(pattern, |pattern|);
  }

  lemma {:induction false} MatchesItselfFrom(pattern: seq<string>, n: nat)
    requires n <= |pattern|
    ensures MatchesFrom(pattern, pattern, |pattern| - n)
    decreases n
  {
    if n > 0 {
      MatchesItselfFrom(pattern, n - 1);
    }
  }

  /** The first of `routes` from the `i`-th on that matches, as its index. */
  function FirstMatch(routes: seq<Route>, segs: seq<string>, i: nat): (r: Option<nat>)
    requires i <= |routes|
    ensures r.Some? ==> i <= r.value < |routes|
    decreases |routes| - i
  {
    if i == |routes| then None
    else if Matches(routes[i].pattern, segs) then Some(i)
    else FirstMatch(routes, segs, i + 1)
  }

  /** The screen a path shows: the first matching route's, or `None` when
      no route matches and the page stays empty. */
  function Resolve(path: string): Option<Screen> {
    match FirstMatch(Table(), Split(path, '/'), 0)
    case None => None
    case Some(k) => Some(Table()[k].screen)
  }

  /** `FirstMatch` finds nothing exactly when no route from the `i`-th on
      matches, and otherwise a matching route with none before it. */
  lemma {:induction false} FirstMatchSpec(routes: seq<Route>, segs: seq<string>, i: nat)
    requires i <= |routes|
    ensures FirstMatch(routes, segs, i).None? <==> forall j | i <= j < |routes| :: !Matches(routes[j].pattern, segs)
    ensures FirstMatch(routes, segs, i).Some? ==>
      var k := FirstMatch(routes, segs, i).value;
      Matches(routes[k].pattern, segs) && forall j | i <= j < k :: !Matches(routes[j].pattern, segs)
    decreases |routes| - i
  {
    if i < |routes| && !Matches(routes[i].pattern, segs) {
      FirstMatchSpec(routes, segs, i + 1);
    }
  }

  /** No route before the `k`-th matches the path. */
  predicate MissesBefore(segs: seq<string>, k: nat)
    requires k <= RouteCount
  {
    forall j | 0 <= j < k :: !Matches(RouteAt(j).pattern, segs)
  }

  /** The `k`-th route is the first to match when it matches and none
      before it does. */
  lemma FirstAt(segs: seq<string>, k: nat)
    requires k < RouteCount && Matches(RouteAt(k).pattern, segs) && MissesBefore(segs, k)
    ensures FirstMatch(Table(), segs, 0) == Some(k)
  {
    FirstMatchSpec(Table(), segs, 0);
    var r := FirstMatch(Table(), segs, 0);
    assert Matches(Table()[k].pattern, segs);
    assert r.Some?;
    assert !(r.value < k) by {
      assert Table()[r.value] == RouteAt(r.value);
    }
    assert !(r.value > k);
  }

  /** A path of one segment after the leading `/`. */
  lemma OneSegment(path: string, name: string)
    requires path == "/" + name && '/' !in name
    ensures Split(path, '/') == ["", name]
  {
    assert Join(["", name], '/') == path;
    SplitUnique(["", name], '/');
  }

  /** A one-segment path shows the screen of the first route matching it. */
  lemma OneSegmentShows(path: string, name: string, k: nat)
    requires path == "/" + name && '/' !in name && k < RouteCount
    requires FirstMatch(Table(), ["", name], 0) == Some(k)
    ensures Resolve(path) == Some(RouteAt(k).screen)
  {
    OneSegment(path, name);
  }

  // The paths the client's screens navigate to.
  const LoginPath := "/login"
  const CheckoutPath := "/checkout"
  const ShippingPath := "/shipping"
  const PaymentPath := "/payment"
  const PlaceOrderPath := "/placeorder"

  /** No route shows `/shipping`. */
  lemma ShippingUnrouted()
    ensures Resolve(ShippingPath) == None
  {
    var segs := ["", "shipping"];
    OneSegment(ShippingPath, "shipping");
    ShippingMisses(segs);
    FirstMatchSpec(Table(), segs, 0);
  }

  /** `/checkout` shows the shipping screen. */
  lemma CheckoutRouted()
    ensures Resolve(CheckoutPath) == Some(ShippingScreen)
  {
    CheckoutFirst(["", "checkout"]);
    OneSegmentShows(CheckoutPath, "checkout", 6);
  }

  /** `/login` shows the login screen. */
  lemma LoginRouted()
    ensures Resolve(LoginPath) == Some(LoginScreen)
  {
    LoginFirst(["", "login"]);
    OneSegmentShows(LoginPath, "login", 3);
  }

  /** `/payment` shows the payment screen. */
  lemma PaymentRouted()
    ensures Resolve(PaymentPath) == Some(PaymentScreen)
  {
    PaymentFirst(["", "payment"]);
    OneSegmentShows(PaymentPath, "payment", 8);
  }

  /** `/placeorder` shows the place-order screen. */
  lemma PlaceOrderRouted()
    ensures Resolve(PlaceOrderPath) == Some(PlaceOrderScreen)
  {
    PlaceOrderFirst(["", "placeorder"]);
    OneSegmentShows(PlaceOrderPath, "placeorder", 7);
  }

  // Which route each path reaches first, one route at a time.

  lemma ShippingMisses(segs: seq<string>)
    requires segs == ["", "shipping"]
    ensures MissesBefore(segs, RouteCount)
  {
    forall j | 0 <= j < RouteCount
      ensures !Matches(RouteAt(j).pattern, segs)
    {
    }
  }

  lemma CheckoutFirst(segs: seq<string>)
    requires segs == ["", "checkout"]
    ensures FirstMatch(Table(), segs, 0) == Some(6)
  {
    forall j | 0 <= j < 6
      ensures !Matches(RouteAt(j).pattern, segs)
    {
    }
    MatchesItself(segs);
    FirstAt(segs, 6);
  }

  lemma LoginFirst(segs: seq<string>)
    requires segs == ["", "login"]
    ensures FirstMatch(Table(), segs, 0) == Some(3)
  {
    forall j | 0 <= j < 3
      ensures !Matches(RouteAt(j).pattern, segs)
    {
    }
    MatchesItself(segs);
    FirstAt(segs, 3);
  }

  lemma PaymentFirst(segs: seq<string>)
    requires segs == ["", "payment"]
    ensures FirstMatch(Table(), segs, 0) == Some(8)
  {
    forall j | 0 <= j < 8
      ensures !Matches(RouteAt(j).pattern, segs)
    {
    }
    MatchesItself(segs);
    FirstAt(segs, 8);
  }

  lemma PlaceOrderFirst(segs: seq<string>)
    requires segs == ["", "placeorder"]
    ensures FirstMatch(Table(), segs, 0) == Some(7)
  {
    forall j | 0 <= j < 7
      ensures !Matches(RouteAt(j).pattern, segs)
    {
    }
    MatchesItself(segs);
    FirstAt(segs, 7);
  }

  /** A path of two segments after the leading `/`. */
  lemma TwoSegments(path: string, first: string, id: string)
    requires path == "/" + first + "/" + id && '/' !in first && '/' !in id
    ensures Split(path, '/') == ["", first, id]
  {
    var parts := ["", first, id];
    assert Join(parts, '/') == path by {
      assert parts[1..] == [first, id];
      assert Join(parts[1..], '/') == first + "/" + id by {
        assert parts[1..][1..] == [id];
      }
    }
    SplitUnique(parts, '/');
  }

  /** `/order/<id>` shows the order screen for any non-empty id without a
      `/`. */
  lemma OrderRouted(id: string)
    requires id != [] && '/' !in id
    ensures Resolve("/order/" + id) == Some(OrderScreen)
  {
    var segs := ["", "order", id];
    TwoSegments("/order/" + id, "order", id);
    OrderFirst(id, segs);
  }

  lemma OrderFirst(id: string, segs: seq<string>)
    requires id != [] && segs == ["", "order", id]
    ensures FirstMatch(Table(), segs, 0) == Some(9)
  {
    forall j | 0 <= j < 9
      ensures !Matches(RouteAt(j).pattern, segs)
    {
    }
    FirstAt(segs, 9);
  }

  /** `/product/<id>` shows the product's page for any non-empty id
      without a `/`. */
  lemma ProductRouted(id: string)
    requires id != [] && '/' !in id
    ensures Resolve("/product/" + id) == Some(ProductDetailsScreen)
  {
    var segs := ["", "product", id];
    TwoSegments("/product/" + id, "product", id);
    ProductFirst(id, segs);
  }

  lemma ProductFirst(id: string, segs: seq<string>)
    requires id != [] && segs == ["", "product", id]
    ensures FirstMatch(Table(), segs, 0) == Some(1)
  {
    assert !Matches(RouteAt(0).pattern, segs);
    FirstAt(segs, 1);
  }

  /** `/cart/<id>` shows the cart for any non-empty id without a `/`. */
  lemma CartRouted(id: string)
    requires id != [] && '/' !in id
    ensures Resolve("/cart/" + id) == Some(CartScreen)
  {
    var segs := ["", "cart", id];
    TwoSegments("/cart/" + id, "cart", id);
    CartFirst(id, segs);
  }

  lemma CartFirst(id: string, segs: seq<string>)
    requires id != [] && segs == ["", "cart", id]
    ensures FirstMatch(Table(), segs, 0) == Some(4)
  {
    forall j | 0 <= j < 4
      ensures !Matches(RouteAt(j).pattern, segs)
    {
    }
    FirstAt(segs, 4);
  }

  // ---------------------------------------------------------------------
  // Navigating to a URL with a query string
  // ---------------------------------------------------------------------

  /** The part of a URL the router matches: everything before the first
      `?`. */
  function Pathname(url: string): string {
    Split(url, '?')[0]
  }

  /** A query string does not change the page a path shows. */
  lemma QueryIgnored(path: string, query: string)
    requires '?' !in path && '?' !in query
    ensures Pathname(path + "?" + query) == path
  {
    assert Join([path, query], '?') == path + "?" + query;
    SplitUnique([path, query], '?');
  }
}
