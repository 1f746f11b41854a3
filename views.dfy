/** The REST views of backend/ecommerce/project/app/views.py that carry the
    shop's business rules: placing an order, who may read which orders,
    the administrator's user and product operations, the profile update and
    sign-up. The database is a `Db` value held by a `Backend` object whose
    methods update it the way the views' `create`/`save`/`delete` calls do.

    A request's caller is the user id carried by a well-formed bearer token,
    or `None` when the request has no credentials. The request body is a
    typed record in which `None` means that the key is absent. */
module Views {
  import opened Wrappers
  import opened Text
  import opened Json
  import opened Models
  import opened Serializers

  // ---------------------------------------------------------------------
  // Responses
  // ---------------------------------------------------------------------

  /** A `Response` with a status and a JSON body, or an exception the view
      does not catch (the framework answers it with status 500). */
  datatype Reply = Reply(status: nat, body: Json) | Crash(error: string)

  /** `Response({'detail': message}, status=status)`. */
  function Detail(status: nat, message: string): (r: Reply)
    ensures r.Reply? && r.status == status
    ensures Get(r.body, "detail") == Some(JStr(message))
  {
    var ms := [Member("detail", JStr(message))];
    LookupLast(ms, 0);
    Reply(status, JObj(ms))
  }

  // ---------------------------------------------------------------------
  // Authentication and permission classes
  // ---------------------------------------------------------------------

  datatype Permission = AllowAny | IsAuthenticated | IsAdminUser

  /** The caller names an existing, active account. */
  predicate Active(db: Db, caller: nat) {
    caller in db.users && db.users[caller].isActive
  }

  /** What happens before the view body runs. The JSON-web-token
      authenticator looks up the token's user on every request, even on a
      view open to anyone; the permission class then decides. `None` lets
      the view run; `Some(reply)` is the refusal. */
  function Gate(db: Db, caller: Option<nat>, perm: Permission): (r: Option<Reply>)
    ensures r.None? <==>
      (caller.None? ==> perm == AllowAny)
      && (caller.Some? ==> Active(db, caller.value)
                           && (perm == IsAdminUser ==> db.users[caller.value].isStaff))
    ensures r.Some? ==> r.value.Reply? && (r.value.status == 401 || r.value.status == 403)
    ensures r.Some? && r.value.status == 403 ==> caller.Some? && Active(db, caller.value)
  {
    match caller
    case None =>
      if perm == AllowAny then None
      else Some(Detail(401, "Authentication credentials were not provided."))
    case Some(id) =>
      if id !in db.users then Some(Detail(401, "User not found"))
      else if !db.users[id].isActive then Some(Detail(401, "User is inactive"))
      else if perm == IsAdminUser && !db.users[id].isStaff then
        Some(Detail(403, "You do not have permission to perform this action."))
      else None
  }

  // ---------------------------------------------------------------------
  // Row ids
  // ---------------------------------------------------------------------

  /** The next value of each table's auto-increment counter. */
  datatype Counters = Counters(user: nat, product: nat, order: nat, item: nat, address: nat)

  /** Every row's id is below its table's counter, so the counter is a
      fresh id. */
  predicate Fresh(db: Db, next: Counters) {
    (forall k | k in db.users :: k < next.user)
    && (forall k | k in db.products :: k < next.product)
    && (forall k | k in db.orders :: k < next.order)
    && (forall k | k in db.items :: k < next.item)
    && (forall k | k in db.addresses :: k < next.address)
  }

  // ---------------------------------------------------------------------
  // Writes that keep the database consistent
  // ---------------------------------------------------------------------

  lemma UsersStored(db: Db, next: Counters, users: map<nat, User>)
    requires Consistent(db) && Fresh(db, next)
    requires db.users.Keys <= users.Keys && forall k | k in users :: k < next.user
    ensures Consistent(db.(users := users)) && Fresh(db.(users := users), next)
  {
  }

  lemma ProductStored(db: Db, next: Counters, id: nat, p: Product)
    requires Consistent(db) && Fresh(db, next)
    requires UserRef(p.user, db) && id < next.product
    ensures Consistent(db.(products := db.products[id := p]))
    ensures Fresh(db.(products := db.products[id := p]), next)
  {
    var r := db.(products := db.products[id := p]);
    assert forall k | k in r.products :: UserRef(r.products[k].user, r);
  }

  lemma OrderStored(db: Db, next: Counters, o: Order)
    requires Consistent(db) && Fresh(db, next) && UserRef(o.user, db)
    ensures var r := db.(orders := db.orders[next.order := o]);
      Consistent(r) && Fresh(r, next.(order := next.order + 1))
      && forall a | a in r.addresses :: r.addresses[a].order != next.order
  {
  }

  lemma AddressStored(db: Db, next: Counters, a: ShippingAddress)
    requires Consistent(db) && Fresh(db, next) && a.order in db.orders
    requires forall x | x in db.addresses :: db.addresses[x].order != a.order
    ensures var r := db.(addresses := db.addresses[next.address := a]);
      Consistent(r) && Fresh(r, next.(address := next.address + 1))
  {
  }

  // ---------------------------------------------------------------------
  // Placing an order: the request body
  // ---------------------------------------------------------------------

  /** One entry of `orderItems`. */
  datatype Line = Line(product: Option<int>, qty: Option<int>, price: Option<Cents>)

  datatype AddressData = AddressData(
    address: Option<string>, city: Option<string>, postalCode: Option<string>, country: Option<string>)

  /** The `shippingAddress` key: absent, JSON `null`, or an object. */
  datatype Shipping = NoShipping | NullShipping | GivenShipping(fields: AddressData)

  datatype OrderData = OrderData(
    orderItems: Option<seq<Line>>, paymentMethod: Option<string>,
    taxPrice: Option<Cents>, shippingPrice: Option<Cents>, totalPrice: Option<Cents>,
    shippingAddress: Shipping)

  /** The order row: the caller as buyer, `paymentMethod` defaulting to the
      empty string and the three prices to 0. */
  function NewOrder(caller: nat, data: OrderData): (r: Order)
    ensures r.user == Some(caller) && !r.isPaid && !r.isDelivered
    ensures r.paymentMethod == Some(data.paymentMethod.GetOr(""))
    ensures r.taxPrice == data.taxPrice.GetOr(0) && r.shippingPrice == data.shippingPrice.GetOr(0)
    ensures r.totalPrice == data.totalPrice.GetOr(0)
  {
    CreateOrder(OrderArgs(Some(caller), Some(data.paymentMethod.GetOr("")),
      Some(data.taxPrice.GetOr(0)), Some(data.shippingPrice.GetOr(0)), Some(data.totalPrice.GetOr(0))))
  }

  /** The address row: each text field defaults to the empty string (an
      absent `shippingAddress` reads as `{}`), and its shipping price is the
      order's. */
  function NewAddress(order: nat, data: OrderData): (r: ShippingAddress)
    requires !data.shippingAddress.NullShipping?
    ensures r.order == order && r.shippingPrice == data.shippingPrice.GetOr(0)
    ensures data.shippingAddress.NoShipping? ==>
      r.address == "" && r.city == "" && r.postalCode == "" && r.country == ""
    ensures data.shippingAddress.GivenShipping? ==>
      var f := data.shippingAddress.fields;
      r.address == f.address.GetOr("") && r.city == f.city.GetOr("")
      && r.postalCode == f.postalCode.GetOr("") && r.country == f.country.GetOr("")
  {
    var f := if data.shippingAddress.GivenShipping? then data.shippingAddress.fields
             else AddressData(None, None, None, None);
    ShippingAddress(order, f.address.GetOr(""), f.city.GetOr(""), f.postalCode.GetOr(""),
      f.country.GetOr(""), data.shippingPrice.GetOr(0))
  }

  /** `str(e)` of the exception that stops the loop at this line, if any: a
      missing `product` key, a product id with no row (`get_object_or_404`),
      then a missing `qty` and a missing `price`, in the order the code
      reads them. */
  function LineError(products: map<nat, Product>, line: Line): (r: Option<string>)
    ensures r.None? <==>
      line.product.Some? && line.product.value >= 0 && line.product.value as nat in products
      && line.qty.Some? && line.price.Some?
  {
    if line.product.None? then Some("'product'")
    else if line.product.value < 0 || line.product.value as nat !in products then
      Some("No Product matches the given query.")
    else if line.qty.None? then Some("'qty'")
    else if line.price.None? then Some("'price'")
    else None
  }

  /** The `image` an order line copies from its product: the file's media
      URL, or the empty string when the product has no image. */
  function LineImage(image: Option<string>): (r: string)
    ensures image.Some? && image.value != [] ==> r == "/media/" + image.value
    ensures image.None? || image.value == [] ==> r == ""
  {
    if image.Some? && image.value != [] then "/media/" + image.value else ""
  }

  /** The order line row: name and image from the product, quantity and
      price from the request. */
  function LineItem(order: nat, line: Line, prod: Product): (r: OrderItem)
    requires line.product.Some? && line.product.value >= 0 && line.qty.Some? && line.price.Some?
    ensures r.product == Some(line.product.value as nat) && r.order == order
    ensures r.name == prod.name && r.image == Some(LineImage(prod.image))
    ensures r.qty == line.qty.value && r.price == line.price.value
  {
    CreateOrderItem(Some(line.product.value as nat), order, prod.name, Some(line.qty.value),
      line.price.value, Some(LineImage(prod.image)))
  }

  /** One successful pass of the loop body: the line's row at id `id`, and
      the product's stock lowered by the line's quantity with no lower
      bound. */
  function PlaceLine(db: Db, order: nat, id: nat, line: Line): (r: Db)
    requires LineError(db.products, line).None?
    ensures r.products.Keys == db.products.Keys
    ensures r.users == db.users && r.orders == db.orders && r.addresses == db.addresses
    ensures r.reviews == db.reviews
  {
    var p := line.product.value as nat;
    var prod := db.products[p];
    db.(items := db.items[id := LineItem(order, line, prod)],
        products := db.products[p := prod.(countInStock := prod.countInStock - line.qty.value)])
  }

  /** Where the loop over `orderItems` stands: the database, the next
      order-line id, and the message of the exception that ended it. */
  datatype Placement = Placement(db: Db, next: nat, error: Option<string>)

  /** The loop over `lines`, one line at a time, stopping at the first line
      that raises. Nothing is undone when a line fails. */
  function PlaceLines(db: Db, order: nat, n: nat, lines: seq<Line>): (r: Placement)
    ensures r.next >= n
    ensures r.db.products.Keys == db.products.Keys
    ensures r.db.users == db.users && r.db.orders == db.orders && r.db.addresses == db.addresses
    ensures r.db.reviews == db.reviews
    decreases |lines|
  {
    if |lines| == 0 then Placement(db, n, None)
    else
      var p := PlaceLines(db, order, n, lines[..|lines| - 1]);
      var line := lines[|lines| - 1];
      if p.error.Some? then p
      else if LineError(p.db.products, line).Some? then Placement(p.db, p.next, LineError(p.db.products, line))
      else Placement(PlaceLine(p.db, order, p.next, line), p.next + 1, None)
  }

  /** The index of the first line that raises, or the number of lines. Only
      which products exist matters, and the loop never adds or removes one. */
  function FirstBad(products: map<nat, Product>, lines: seq<Line>): (k: nat)
    ensures k <= |lines|
    ensures forall j | 0 <= j < k :: LineError(products, lines[j]).None?
    ensures k < |lines| ==> LineError(products, lines[k]).Some?
  {
    if |lines| == 0 then 0
    else
      var m := |lines| - 1;
      var k0 := FirstBad(products, lines[..m]);
      assert forall j | 0 <= j < k0 :: lines[..m][j] == lines[j];
      if k0 < m then k0 else if LineError(products, lines[m]).Some? then m else m + 1
  }

  lemma FirstBadUnique(products: map<nat, Product>, lines: seq<Line>, k: nat)
    requires k <= |lines|
    requires forall j | 0 <= j < k :: LineError(products, lines[j]).None?
    requires k < |lines| ==> LineError(products, lines[k]).Some?
    ensures FirstBad(products, lines) == k
  {
  }

  /** The total quantity the lines order of product `p`. */
  function QtyFor(lines: seq<Line>, p: nat): int
    decreases |lines|
  {
    if |lines| == 0 then 0
    else
      var line := lines[|lines| - 1];
      QtyFor(lines[..|lines| - 1], p)
      + (if line.product == Some(p as int) && line.qty.Some? then line.qty.value else 0)
  }

  /** Two maps with the same keys give every line the same verdict. */
  lemma LineErrorKeys(a: map<nat, Product>, b: map<nat, Product>, line: Line)
    requires a.Keys == b.Keys
    ensures LineError(a, line) == LineError(b, line)
  {
    if line.product.Some? && line.product.value >= 0 {
      var p := line.product.value as nat;
      assert p in a <==> p in a.Keys;
      assert p in b <==> p in b.Keys;
    }
  }

  /** Adding a line at the end moves the first failing line only when all
      the earlier ones pass. */
  lemma FirstBadSnoc(products: map<nat, Product>, lines: seq<Line>)
    requires |lines| > 0
    ensures var m := |lines| - 1;
      var k0 := FirstBad(products, lines[..m]);
      FirstBad(products, lines)
      == if k0 < m then k0 else if LineError(products, lines[m]).Some? then m else m + 1
  {
  }

  /** How far the loop gets: with `k` the first failing line (or the number
      of lines), exactly `k` rows are made, at consecutive ids from `n`, and
      the error, if any, is the failing line's. */
  lemma {:induction false} PlaceLinesCount(db: Db, order: nat, n: nat, lines: seq<Line>)
    ensures var r := PlaceLines(db, order, n, lines);
      var k := FirstBad(db.products, lines);
      r.next == n + k
      && r.error == (if k < |lines| then LineError(db.products, lines[k]) else None)
    decreases |lines|
  {
    if |lines| > 0 {
      var m := |lines| - 1;
      var pre := lines[..m];
      PlaceLinesCount(db, order, n, pre);
      FirstBadSnoc(db.products, lines);
      var p := PlaceLines(db, order, n, pre);
      var line := lines[m];
      LineErrorKeys(p.db.products, db.products, line);
      var k0 := FirstBad(db.products, pre);
      var r := PlaceLines(db, order, n, lines);
      if k0 < m {
        assert pre[k0] == lines[k0];
        assert r == p;
      } else if LineError(db.products, line).Some? {
        assert r == Placement(p.db, p.next, LineError(db.products, line));
      } else {
        assert r.next == p.next + 1 && r.error.None?;
      }
    }
  }

  /** The last pass of the loop over `lines`: when an earlier or the last
      line fails it changes nothing, and otherwise it places the last line. */
  lemma PlaceLinesSnoc(db: Db, order: nat, n: nat, lines: seq<Line>)
    requires |lines| > 0
    ensures var m := |lines| - 1;
      var p := PlaceLines(db, order, n, lines[..m]);
      var k := FirstBad(db.products, lines);
      var r := PlaceLines(db, order, n, lines);
      FirstBad(db.products, lines[..m]) == (if k < |lines| then k else m)
      && (k < |lines| ==> r.db == p.db)
      && (k == |lines| ==> r.db == PlaceLine(p.db, order, p.next, lines[m]) && r.next == p.next + 1)
  {
    var m := |lines| - 1;
    var pre := lines[..m];
    var line := lines[m];
    PlaceLinesCount(db, order, n, pre);
    FirstBadSnoc(db.products, lines);
    var p := PlaceLines(db, order, n, pre);
    LineErrorKeys(p.db.products, db.products, line);
    var k0 := FirstBad(db.products, pre);
    if k0 < m {
      assert pre[k0] == lines[k0];
    }
  }

  /** Every product's stock ends lowered by the total quantity the placed
      lines order of it: a product ordered twice is lowered twice, and
      nothing stops the stock going negative. The placed lines are those
      before the first failing one; on a failure nothing is rolled back. */
  lemma {:induction false} PlaceLinesStock(db: Db, order: nat, n: nat, lines: seq<Line>, x: nat)
    requires x in db.products
    ensures var r := PlaceLines(db, order, n, lines);
      var k := FirstBad(db.products, lines);
      r.db.products[x]
      == db.products[x].(countInStock := db.products[x].countInStock - QtyFor(lines[..k], x))
    decreases |lines|
  {
    var k := FirstBad(db.products, lines);
    if |lines| == 0 {
      assert lines[..k] == [];
    } else {
      var m := |lines| - 1;
      var pre := lines[..m];
      PlaceLinesStock(db, order, n, pre, x);
      if k < |lines| {
        StockStopped(db, order, n, lines);
      } else {
        StockPlaced(db, order, n, lines, x);
        assert pre[..m] == pre;
        assert lines[..k] == lines;
      }
    }
  }

  /** A last pass that does not place its line leaves the stock as it was,
      and the placed lines are those placed before it. */
  lemma StockStopped(db: Db, order: nat, n: nat, lines: seq<Line>)
    requires |lines| > 0 && FirstBad(db.products, lines) < |lines|
    ensures var pre := lines[..|lines| - 1];
      var k := FirstBad(db.products, lines);
      PlaceLines(db, order, n, lines).db.products == PlaceLines(db, order, n, pre).db.products
      && lines[..k] == pre[..FirstBad(db.products, pre)]
  {
    var pre := lines[..|lines| - 1];
    var k := FirstBad(db.products, lines);
    PlaceLinesSnoc(db, order, n, lines);
    assert lines[..k] == pre[..k];
  }

  /** A last pass that places its line lowers its product's stock by the
      line's quantity, and every line so far is placed. */
  lemma StockPlaced(db: Db, order: nat, n: nat, lines: seq<Line>, x: nat)
    requires x in db.products && |lines| > 0 && FirstBad(db.products, lines) == |lines|
    ensures var m := |lines| - 1;
      var pre := lines[..m];
      var line := lines[m];
      var before := PlaceLines(db, order, n, pre).db.products[x];
      x in PlaceLines(db, order, n, pre).db.products
      && FirstBad(db.products, pre) == m
      && PlaceLines(db, order, n, lines).db.products[x]
         == before.(countInStock := before.countInStock
                      - (if line.product == Some(x as int) && line.qty.Some? then line.qty.value else 0))
  {
    PlaceLinesSnoc(db, order, n, lines);
  }

  /** The rows the loop makes: the `j`-th placed line has its row at id
      `n + j`, with its name and image copied from its product. */
  lemma {:induction false} PlaceLinesRow(db: Db, order: nat, n: nat, lines: seq<Line>, j: nat)
    requires j < FirstBad(db.products, lines)
    ensures var r := PlaceLines(db, order, n, lines);
      n + j in r.db.items
      && r.db.items[n + j] == LineItem(order, lines[j], db.products[lines[j].product.value as nat])
    decreases |lines|, 1
  {
    var m := |lines| - 1;
    FirstBadSnoc(db.products, lines);
    if j < FirstBad(db.products, lines[..m]) {
      EarlierRow(db, order, n, lines, j);
    } else {
      PlacedLastRow(db, order, n, lines, j);
    }
  }

  /** A row made before the last pass. */
  lemma EarlierRow(db: Db, order: nat, n: nat, lines: seq<Line>, j: nat)
    requires j < FirstBad(db.products, lines) && j < FirstBad(db.products, lines[..|lines| - 1])
    ensures var r := PlaceLines(db, order, n, lines);
      n + j in r.db.items
      && r.db.items[n + j] == LineItem(order, lines[j], db.products[lines[j].product.value as nat])
    decreases |lines|, 0
  {
    var pre := lines[..|lines| - 1];
    PlaceLinesRow(db, order, n, pre, j);
    assert pre[j] == lines[j];
    RowKept(db, order, n, lines, n + j);
  }

  /** The last pass of the loop keeps the rows the earlier passes made. */
  lemma RowKept(db: Db, order: nat, n: nat, lines: seq<Line>, i: nat)
    requires |lines| > 0
    requires i < n + FirstBad(db.products, lines[..|lines| - 1])
    requires i in PlaceLines(db, order, n, lines[..|lines| - 1]).db.items
    ensures var p := PlaceLines(db, order, n, lines[..|lines| - 1]);
      var r := PlaceLines(db, order, n, lines);
      i in r.db.items && r.db.items[i] == p.db.items[i]
  {
    var m := |lines| - 1;
    var p := PlaceLines(db, order, n, lines[..m]);
    PlaceLinesCount(db, order, n, lines[..m]);
    PlaceLinesSnoc(db, order, n, lines);
    if FirstBad(db.products, lines) == |lines| {
      PlaceLineKeeps(p.db, order, p.next, lines[m], i);
    }
  }

  /** A pass of the loop leaves the other rows as they were. */
  lemma PlaceLineKeeps(db: Db, order: nat, id: nat, line: Line, i: nat)
    requires LineError(db.products, line).None?
    requires i != id && i in db.items
    ensures i in PlaceLine(db, order, id, line).items
    ensures PlaceLine(db, order, id, line).items[i] == db.items[i]
  {
  }

  /** The row of the last line, when every line is placed. */
  lemma PlacedLastRow(db: Db, order: nat, n: nat, lines: seq<Line>, j: nat)
    requires j == |lines| - 1 && FirstBad(db.products, lines) == |lines|
    ensures var r := PlaceLines(db, order, n, lines);
      n + j in r.db.items
      && r.db.items[n + j] == LineItem(order, lines[j], db.products[lines[j].product.value as nat])
  {
    var pre := lines[..j];
    var line := lines[j];
    PlaceLinesSnoc(db, order, n, lines);
    PlaceLinesCount(db, order, n, pre);
    var p := PlaceLines(db, order, n, pre);
    var q := line.product.value as nat;
    LineErrorKeys(p.db.products, db.products, line);
    PlaceLinesStock(db, order, n, pre, q);
    assert LineItem(order, line, p.db.products[q]) == LineItem(order, line, db.products[q]);
  }

  /** The loop makes rows only at ids `n` to `n + k - 1`, and rows that
      existed before it are left as they were. */
  lemma {:induction false} PlaceLinesFrame(db: Db, order: nat, n: nat, lines: seq<Line>)
    requires forall i | i in db.items :: i < n
    ensures var r := PlaceLines(db, order, n, lines);
      forall i | i in r.db.items :: i in db.items || n <= i < r.next
    ensures var r := PlaceLines(db, order, n, lines);
      forall i | i in db.items :: i in r.db.items && r.db.items[i] == db.items[i]
    decreases |lines|
  {
    if |lines| > 0 {
      PlaceLinesFrame(db, order, n, lines[..|lines| - 1]);
    }
  }

  /** One more pass of the loop: placing the first `i + 1` lines is placing
      the first `i` and then line `i`. */
  lemma PlaceLinesNext(db: Db, order: nat, n: nat, lines: seq<Line>, i: nat)
    requires i < |lines|
    requires PlaceLines(db, order, n, lines[..i]).error.None?
    ensures var p := PlaceLines(db, order, n, lines[..i]);
      PlaceLines(db, order, n, lines[..i + 1])
      == if LineError(p.db.products, lines[i]).Some? then Placement(p.db, p.next, LineError(p.db.products, lines[i]))
         else Placement(PlaceLine(p.db, order, p.next, lines[i]), p.next + 1, None)
  {
    assert lines[..i + 1][..i] == lines[..i];
  }

  /** A pass of the loop that places line `i`, from where the first `i`
      lines left the database. */
  lemma PlaceLinesAdvance(db: Db, order: nat, n: nat, lines: seq<Line>, i: nat, cur: Db, id: nat)
    requires i < |lines| && LineError(cur.products, lines[i]).None?
    requires PlaceLines(db, order, n, lines[..i]) == Placement(cur, id, None)
    ensures PlaceLines(db, order, n, lines[..i + 1]) == Placement(PlaceLine(cur, order, id, lines[i]), id + 1, None)
  {
    PlaceLinesNext(db, order, n, lines, i);
  }

  /** A pass of the loop where line `i` raises: the loop ends there with
      that line's error. */
  lemma PlaceLinesFail(db: Db, order: nat, n: nat, lines: seq<Line>, i: nat, cur: Db, id: nat)
    requires i < |lines| && LineError(cur.products, lines[i]).Some?
    requires PlaceLines(db, order, n, lines[..i]) == Placement(cur, id, None)
    ensures PlaceLines(db, order, n, lines) == Placement(cur, id, LineError(cur.products, lines[i]))
  {
    PlaceLinesNext(db, order, n, lines, i);
    PlaceLinesStuck(db, order, n, lines, i);
  }

  /** Once a line has failed, the remaining lines are never looked at. */
  lemma {:induction false} PlaceLinesStuck(db: Db, order: nat, n: nat, lines: seq<Line>, i: nat)
    requires i < |lines|
    requires PlaceLines(db, order, n, lines[..i + 1]).error.Some?
    ensures PlaceLines(db, order, n, lines) == PlaceLines(db, order, n, lines[..i + 1])
    decreases |lines|
  {
    if i + 1 < |lines| {
      var pre := lines[..|lines| - 1];
      assert pre[..i + 1] == lines[..i + 1];
      PlaceLinesStuck(db, order, n, pre, i);
    } else {
      assert lines[..i + 1] == lines;
    }
  }

  /** The loop keeps the database consistent and the item counter fresh,
      given that the order it fills exists. */
  lemma {:induction false} PlaceLinesValid(db: Db, order: nat, n: nat, lines: seq<Line>)
    requires Consistent(db) && order in db.orders
    requires forall i | i in db.items :: i < n
    ensures var r := PlaceLines(db, order, n, lines);
      Consistent(r.db) && forall i | i in r.db.items :: i < r.next
    decreases |lines|
  {
    if |lines| > 0 {
      var pre := lines[..|lines| - 1];
      PlaceLinesValid(db, order, n, pre);
      var p := PlaceLines(db, order, n, pre);
      var line := lines[|lines| - 1];
      if p.error.None? && LineError(p.db.products, line).None? {
        PlaceLineConsistent(p.db, order, p.next, line);
      }
    }
  }

  lemma PlaceLineConsistent(db: Db, order: nat, id: nat, line: Line)
    requires Consistent(db) && order in db.orders && LineError(db.products, line).None?
    requires forall i | i in db.items :: i < id
    ensures Consistent(PlaceLine(db, order, id, line))
    ensures forall i | i in PlaceLine(db, order, id, line).items :: i < id + 1
  {
    var r := PlaceLine(db, order, id, line);
    assert forall p | p in r.products :: r.products[p].user == db.products[p].user;
  }

  // ---------------------------------------------------------------------
  // Placing an order: the view
  // ---------------------------------------------------------------------

  /** A view's effect: the database and counters afterwards, and the reply. */
  datatype Outcome = Outcome(db: Db, next: Counters, reply: Reply)

  function Failed(message: string): Reply {
    Detail(400, "Order creation failed: " + message)
  }

  const NoneTypeGet: string := "'NoneType' object has no attribute 'get'"

  /** `addOrderItems` as a function of the database before it. */
  function AddOrder(db: Db, next: Counters, caller: Option<nat>, data: OrderData): (r: Outcome)
    ensures r.db.users == db.users && r.db.reviews == db.reviews
  {
    var gate := Gate(db, caller, IsAuthenticated);
    if gate.Some? then Outcome(db, next, gate.value)
    else if data.orderItems.None? || |data.orderItems.value| == 0 then
      Outcome(db, next, Detail(400, "No order items"))
    else
      var oid := next.order;
      var db1 := db.(orders := db.orders[oid := NewOrder(caller.value, data)]);
      var next1 := next.(order := oid + 1);
      if data.shippingAddress.NullShipping? then Outcome(db1, next1, Failed(NoneTypeGet))
      else
        var db2 := db1.(addresses := db1.addresses[next.address := NewAddress(oid, data)]);
        var next2 := next1.(address := next.address + 1);
        var placed := PlaceLines(db2, oid, next.item, data.orderItems.value);
        var next3 := next2.(item := placed.next);
        if placed.error.Some? then Outcome(placed.db, next3, Failed(placed.error.value))
        else Outcome(placed.db, next3, Reply(200, SerializeOrder(placed.db, oid)))
  }

  /** The view leaves a consistent database and fresh counters behind, on
      every path, the failing ones included. */
  lemma AddOrderValid(db: Db, next: Counters, caller: Option<nat>, data: OrderData)
    requires Consistent(db) && Fresh(db, next)
    ensures var r := AddOrder(db, next, caller, data);
      Consistent(r.db) && Fresh(r.db, r.next)
  {
    if Gate(db, caller, IsAuthenticated).Some? || data.orderItems.None? || |data.orderItems.value| == 0 {
    } else if data.shippingAddress.NullShipping? {
      OrderStored(db, next, NewOrder(caller.value, data));
    } else {
      AddOrderPlacedValid(db, next, caller, data);
    }
  }

  /** A request with no order lines is refused with 400 before any row is
      made: the database and the counters are as they were. */
  lemma AddOrderEmpty(db: Db, next: Counters, caller: Option<nat>, data: OrderData)
    requires Gate(db, caller, IsAuthenticated).None?
    requires data.orderItems.None? || data.orderItems.value == []
    ensures AddOrder(db, next, caller, data) == Outcome(db, next, Detail(400, "No order items"))
  {
  }

  /** The path that makes both rows and runs the loop. */
  lemma AddOrderPlacedValid(db: Db, next: Counters, caller: Option<nat>, data: OrderData)
    requires Consistent(db) && Fresh(db, next)
    requires Gate(db, caller, IsAuthenticated).None?
    requires data.orderItems.Some? && |data.orderItems.value| > 0
    requires !data.shippingAddress.NullShipping?
    ensures var r := AddOrder(db, next, caller, data);
      Consistent(r.db) && Fresh(r.db, r.next)
  {
    var oid := next.order;
    var o := NewOrder(caller.value, data);
    var db1 := db.(orders := db.orders[oid := o]);
    var next1 := next.(order := oid + 1);
    OrderStored(db, next, o);
    var a := NewAddress(oid, data);
    var db2 := db1.(addresses := db1.addresses[next.address := a]);
    AddressStored(db1, next1, a);
    assert db2 == db.(orders := db.orders[oid := o], addresses := db.addresses[next.address := a]);
    AddOrderSteps(db, next, caller, data);
    PlaceLinesValid(db2, oid, next.item, data.orderItems.value);
  }

  /** The view's value once both rows are made: the loop's placement on the
      database holding them, and the serialized order when no line failed. */
  lemma AddOrderSteps(db: Db, next: Counters, caller: Option<nat>, data: OrderData)
    requires Gate(db, caller, IsAuthenticated).None?
    requires data.orderItems.Some? && |data.orderItems.value| > 0
    requires !data.shippingAddress.NullShipping?
    ensures var oid := next.order;
      var db2 := db.(orders := db.orders[oid := NewOrder(caller.value, data)],
                     addresses := db.addresses[next.address := NewAddress(oid, data)]);
      var placed := PlaceLines(db2, oid, next.item, data.orderItems.value);
      var next3 := next.(order := oid + 1, address := next.address + 1, item := placed.next);
      AddOrder(db, next, caller, data)
      == if placed.error.Some? then Outcome(placed.db, next3, Failed(placed.error.value))
         else Outcome(placed.db, next3, Reply(200, SerializeOrder(placed.db, oid)))
  {
  }

  /** The order the request made: its row with the defaults, its address
      row, and one line row per order line up to the first failing one. The
      reply is the serialized order when every line was placed, and
      otherwise the failing line's error; the rows made before the failure
      stay. */
  lemma AddOrderEffect(db: Db, next: Counters, caller: Option<nat>, data: OrderData)
    requires Gate(db, caller, IsAuthenticated).None?
    requires data.orderItems.Some? && |data.orderItems.value| > 0
    requires !data.shippingAddress.NullShipping?
    ensures var r := AddOrder(db, next, caller, data);
      var lines := data.orderItems.value;
      var k := FirstBad(db.products, lines);
      r.db.orders == db.orders[next.order := NewOrder(caller.value, data)]
      && r.db.addresses == db.addresses[next.address := NewAddress(next.order, data)]
      && r.next == Counters(next.user, next.product, next.order + 1, next.item + k, next.address + 1)
      && (k == |lines| ==> r.reply == Reply(200, SerializeOrder(r.db, next.order)))
      && (k < |lines| ==> r.reply == Failed(LineError(db.products, lines[k]).value))
  {
    var oid := next.order;
    var db2 := db.(orders := db.orders[oid := NewOrder(caller.value, data)],
                   addresses := db.addresses[next.address := NewAddress(oid, data)]);
    var lines := data.orderItems.value;
    AddOrderSteps(db, next, caller, data);
    PlaceLinesCount(db2, oid, next.item, lines);
  }

  /** Each product's stock ends lowered by the total quantity the placed
      lines order of it. */
  lemma AddOrderStock(db: Db, next: Counters, caller: Option<nat>, data: OrderData, x: nat)
    requires Gate(db, caller, IsAuthenticated).None?
    requires data.orderItems.Some? && |data.orderItems.value| > 0
    requires !data.shippingAddress.NullShipping?
    requires x in db.products
    ensures var r := AddOrder(db, next, caller, data);
      var lines := data.orderItems.value;
      var k := FirstBad(db.products, lines);
      x in r.db.products
      && r.db.products[x] == db.products[x].(countInStock := db.products[x].countInStock - QtyFor(lines[..k], x))
  {
    var oid := next.order;
    var db2 := db.(orders := db.orders[oid := NewOrder(caller.value, data)],
                   addresses := db.addresses[next.address := NewAddress(oid, data)]);
    AddOrderSteps(db, next, caller, data);
    PlaceLinesStock(db2, oid, next.item, data.orderItems.value, x);
  }

  // ---------------------------------------------------------------------
  // The other views' rules
  // ---------------------------------------------------------------------

  /** The keys `updateUser` reads; `None` is an absent key. */
  datatype UserUpdate = UserUpdate(name: Option<string>, email: Option<string>, isAdmin: Option<bool>)

  /** The user row after `updateUser`: each absent key keeps the old value,
      `email` sets both the login name and the address, `isAdmin` sets the
      staff flag, and nothing else changes. */
  function UpdatedUser(u: User, data: UserUpdate): (r: User)
    ensures r.firstName == data.name.GetOr(u.firstName)
    ensures r.username == data.email.GetOr(u.username) && r.email == data.email.GetOr(u.email)
    ensures r.isStaff == data.isAdmin.GetOr(u.isStaff)
    ensures r.lastName == u.lastName && r.password == u.password
    ensures r.isSuperuser == u.isSuperuser && r.isActive == u.isActive
  {
    u.(firstName := data.name.GetOr(u.firstName), username := data.email.GetOr(u.username),
       email := data.email.GetOr(u.email), isStaff := data.isAdmin.GetOr(u.isStaff))
  }

  /** An update with no keys changes nothing, and sending the same update
      twice is the same as sending it once. */
  lemma UpdatedUserLaws(u: User, data: UserUpdate)
    ensures UpdatedUser(u, UserUpdate(None, None, None)) == u
    ensures UpdatedUser(UpdatedUser(u, data), data) == UpdatedUser(u, data)
  {
  }

  /** The keys `updateUserProfile` reads, in the order it reads them. */
  datatype ProfileData = ProfileData(fname: Option<string>, lname: Option<string>, password: Option<string>)

  /** The user row after `updateUserProfile`: the new names, and a new
      password hash only when the supplied password is not empty. */
  function ProfileUpdated(u: User, fname: string, lname: string, password: string): (r: User)
    ensures r.firstName == fname && r.lastName == lname
    ensures password == "" ==> r.password == u.password
    ensures password != "" ==> r.password == Hashed(password)
    ensures r.username == u.username && r.email == u.email && r.isStaff == u.isStaff
    ensures r.isSuperuser == u.isSuperuser && r.isActive == u.isActive
  {
    u.(firstName := fname, lastName := lname,
       password := if password != "" then Hashed(password) else u.password)
  }

  /** The key `updateUserProfile` fails on first, if any: a missing key is a
      `KeyError` the view does not catch. */
  function MissingProfileKey(data: ProfileData): (r: Option<string>)
    ensures r.None? <==> data.fname.Some? && data.lname.Some? && data.password.Some?
  {
    if data.fname.None? then Some("'fname'")
    else if data.lname.None? then Some("'lname'")
    else if data.password.None? then Some("'password'")
    else None
  }

  /** The keys `registerUser` reads. */
  datatype SignupData = SignupData(
    fname: Option<string>, lname: Option<string>, email: Option<string>, password: Option<string>)

  /** The key `registerUser` fails on first, if any. */
  function MissingSignupKey(data: SignupData): (r: Option<string>)
    ensures r.None? <==> data.fname.Some? && data.lname.Some? && data.email.Some? && data.password.Some?
  {
    if data.fname.None? then Some("'fname'")
    else if data.lname.None? then Some("'lname'")
    else if data.email.None? then Some("'email'")
    else if data.password.None? then Some("'password'")
    else None
  }

  /** The row `registerUser` creates: the email is also the login name, and
      the account starts inactive, without staff or superuser rights. */
  function SignupUser(fname: string, lname: string, email: string, password: string): (r: User)
    ensures r.username == email && r.email == email && r.password == Hashed(password)
    ensures !r.isActive && !r.isStaff && !r.isSuperuser
    ensures r.firstName == fname && r.lastName == lname
  {
    User(email, email, fname, lname, Hashed(password), false, false, false)
  }

  /** The message SQLite gives for a second user with the same login name. */
  const DuplicateUsername: string := "UNIQUE constraint failed: auth_user.username"

  /** No user other than `except` has login name `name`. */
  predicate UsernameFree(users: map<nat, User>, name: string, except: Option<nat>) {
    forall k | k in users && Some(k) != except :: users[k].username != name
  }

  function SignupReply(activationLink: string): (r: Reply)
    ensures r.Reply? && r.status == 200
    ensures Get(r.body, "activation_link") == Some(JStr(activationLink))
  {
    var ms := [Member("details", JStr("Please activate your account using the link below.")),
               Member("activation_link", JStr(activationLink))];
    LookupLast(ms, 1);
    Reply(200, JObj(ms))
  }

  /** The product `createProduct` makes for an administrator to edit later. */
  function SampleProduct(user: nat): (r: Product)
    ensures r.user == Some(user) && r.name == Some("Sample Product") && r.price == 0
    ensures r.brand == Some("Sample Brand") && r.category == Some("Sample Category")
    ensures r.description == Some("") && r.countInStock == 0 && r.rating == 0 && r.numReviews == 0
    ensures r.image.None?
  {
    CreateProduct(ProductArgs(Some(user), Some("Sample Product"), Some("Sample Brand"),
      Some("Sample Category"), Some(""), 0, Some(0), None, None))
  }

  /** The `product_id` form value of `uploadImage`: absent, or a text with
      the integer Python's `int` reads from it (`None` when it reads none). */
  datatype FormId = NoFormId | FormId(text: string, number: Option<int>)

  // ---------------------------------------------------------------------
  // Read-only views
  // ---------------------------------------------------------------------

  /** `getProduct`: the product, or 404. */
  function GetProduct(db: Db, caller: Option<nat>, pk: nat): (r: Reply)
    ensures Gate(db, caller, AllowAny).Some? ==> r == Gate(db, caller, AllowAny).value
    ensures Gate(db, caller, AllowAny).None? ==>
      r.Reply? && (r.status == 200 <==> pk in db.products)
      && (pk in db.products ==> r.body == SerializeProduct(pk, db.products[pk]))
      && (pk !in db.products ==> r == Detail(404, "Product not found"))
  {
    var gate := Gate(db, caller, AllowAny);
    if gate.Some? then gate.value
    else if pk in db.products then Reply(200, SerializeProduct(pk, db.products[pk]))
    else Detail(404, "Product not found")
  }

  /** The caller may see the order: staff see every order, everyone else
      only their own. */
  predicate MayView(db: Db, caller: nat, order: nat)
    requires caller in db.users && order in db.orders
  {
    db.users[caller].isStaff || db.orders[order].user == Some(caller)
  }

  /** `getOrderById`: the order exactly when the caller may see it, 403
      when the order exists but is someone else's, 404 when it does not
      exist. */
  function GetOrderById(db: Db, caller: Option<nat>, pk: nat): (r: Reply)
    ensures Gate(db, caller, IsAuthenticated).Some? ==> r == Gate(db, caller, IsAuthenticated).value
    ensures Gate(db, caller, IsAuthenticated).None? ==>
      r.Reply?
      && (r.status == 200 <==> pk in db.orders && MayView(db, caller.value, pk))
      && (r.status == 200 ==> r.body == SerializeOrder(db, pk))
      && (r.status == 403 <==> pk in db.orders && !MayView(db, caller.value, pk))
      && (r.status == 404 <==> pk !in db.orders)
  {
    var gate := Gate(db, caller, IsAuthenticated);
    if gate.Some? then gate.value
    else if pk !in db.orders then Detail(404, "Order does not exist")
    else if MayView(db, caller.value, pk) then Reply(200, SerializeOrder(db, pk))
    else Detail(403, "Not authorized to view this order")
  }

  /** The ids of the orders `user` placed, in id order. */
  function OrdersOf(db: Db, user: nat): (r: seq<nat>)
    ensures ListsInOrder(r, set o | o in db.orders && db.orders[o].user == Some(user))
  {
    SortedIds(set o | o in db.orders && db.orders[o].user == Some(user))
  }

  /** `getMyOrders`: the caller's orders. */
  function GetMyOrders(db: Db, caller: Option<nat>): (r: Reply)
    ensures Gate(db, caller, IsAuthenticated).Some? ==> r == Gate(db, caller, IsAuthenticated).value
    ensures Gate(db, caller, IsAuthenticated).None? ==> r.Reply? && r.status == 200 && r.body.JArr?
  {
    var gate := Gate(db, caller, IsAuthenticated);
    if gate.Some? then gate.value
    else
      var ids := OrdersOf(db, caller.value);
      Reply(200, JArr(SerializeOrders(db, ids)))
  }

  /** `getOrders`: every order for staff, 403 for anyone else. */
  function GetOrders(db: Db, caller: Option<nat>): (r: Reply)
    ensures Gate(db, caller, IsAuthenticated).Some? ==> r == Gate(db, caller, IsAuthenticated).value
    ensures Gate(db, caller, IsAuthenticated).None? ==>
      r.Reply? && (r.status == 200 <==> db.users[caller.value].isStaff)
      && (r.status != 200 ==> r == Detail(403, "Not authorized"))
  {
    var gate := Gate(db, caller, IsAuthenticated);
    if gate.Some? then gate.value
    else if db.users[caller.value].isStaff then
      Reply(200, JArr(SerializeOrders(db, SortedIds(db.orders.Keys))))
    else Detail(403, "Not authorized")
  }

  /** Two different orders never serialize alike: the `id` member tells
      them apart. */
  lemma SerializeOrderInjective(db: Db, a: nat, b: nat)
    requires a in db.orders && b in db.orders
    requires SerializeOrder(db, a) == SerializeOrder(db, b)
    ensures a == b
  {
    assert Id(a) == Id(b);
    ShowNatValue(a);
    ShowNatValue(b);
  }

  /** Every entry of `getMyOrders` is one of the caller's orders, as
      `getOrderById` would return it to them. */
  lemma MyOrdersOwn(db: Db, caller: nat, e: Json)
    requires Gate(db, Some(caller), IsAuthenticated).None?
    requires e in GetMyOrders(db, Some(caller)).body.items
    ensures exists o | o in db.orders ::
      db.orders[o].user == Some(caller) && GetOrderById(db, Some(caller), o) == Reply(200, e)
  {
    var ids := OrdersOf(db, caller);
    var items := SerializeOrders(db, ids);
    assert GetMyOrders(db, Some(caller)).body.items == items;
    var i :| 0 <= i < |items| && items[i] == e;
    var o := ids[i];
    OrdersOfExactly(db, caller, o);
    OwnerSeesOrder(db, caller, o);
  }

  /** A user may always fetch an order they placed. */
  lemma OwnerSeesOrder(db: Db, caller: nat, o: nat)
    requires Gate(db, Some(caller), IsAuthenticated).None?
    requires o in db.orders && db.orders[o].user == Some(caller)
    ensures GetOrderById(db, Some(caller), o) == Reply(200, SerializeOrder(db, o))
  {
  }

  /** An order is listed for a user exactly when the user placed it. */
  lemma OrdersOfExactly(db: Db, user: nat, o: nat)
    ensures o in OrdersOf(db, user) <==> o in db.orders && db.orders[o].user == Some(user)
  {
    var s := set x | x in db.orders && db.orders[x].user == Some(user);
    assert o in s <==> o in db.orders && db.orders[o].user == Some(user);
  }

  /** An id listed is serialized among the entries, and an entry comes
      from a listed id. */
  lemma SerializedAmong(db: Db, ids: seq<nat>, o: nat)
    requires o in db.orders
    requires forall i | 0 <= i < |ids| :: ids[i] in db.orders
    ensures SerializeOrder(db, o) in SerializeOrders(db, ids) <==> o in ids
  {
    var items := SerializeOrders(db, ids);
    if o in ids {
      var i :| 0 <= i < |ids| && ids[i] == o;
      assert items[i] == SerializeOrder(db, o);
    }
    if SerializeOrder(db, o) in items {
      var i :| 0 <= i < |items| && items[i] == SerializeOrder(db, o);
      SerializeOrderInjective(db, ids[i], o);
    }
  }

  /** Every order the caller placed is among the entries of `getMyOrders`,
      and no other order is. */
  lemma MyOrdersExactly(db: Db, caller: nat, o: nat)
    requires o in db.orders
    requires Gate(db, Some(caller), IsAuthenticated).None?
    ensures SerializeOrder(db, o) in GetMyOrders(db, Some(caller)).body.items
            <==> db.orders[o].user == Some(caller)
  {
    var ids := OrdersOf(db, caller);
    assert GetMyOrders(db, Some(caller)).body.items == SerializeOrders(db, ids);
    SerializedAmong(db, ids, o);
    OrdersOfExactly(db, caller, o);
  }

  /** Staff see every order through `getOrders`. */
  lemma StaffSeeAllOrders(db: Db, caller: nat, o: nat)
    requires o in db.orders
    requires Gate(db, Some(caller), IsAuthenticated).None? && db.users[caller].isStaff
    ensures SerializeOrder(db, o) in GetOrders(db, Some(caller)).body.items
  {
    var ids := SortedIds(db.orders.Keys);
    assert GetOrders(db, Some(caller)).body.items == SerializeOrders(db, ids);
    assert o in db.orders.Keys;
    SerializedAmong(db, ids, o);
  }

  // ---------------------------------------------------------------------
  // The server state and the views that change it
  // ---------------------------------------------------------------------

  /** The database behind the views, with each table's id counter. */
  class Backend {
    var db: Db
    var next: Counters

    ghost predicate Valid()
      reads this
    {
      Consistent(db) && Fresh(db, next)
    }

    constructor (db0: Db, next0: Counters)
      requires Consistent(db0) && Fresh(db0, next0)
      ensures Valid() && db == db0 && next == next0
    {
      db := db0;
      next := next0;
    }

    /** `addOrderItems`, step by step: the order row, the address row, then
        one loop pass per order line. */
    method AddOrderItems(caller: Option<nat>, data: OrderData) returns (reply: Reply)
      requires Valid()
      modifies this
      ensures Outcome(db, next, reply) == AddOrder(old(db), old(next), caller, data)
      ensures Valid()
    {
      var gate := Gate(db, caller, IsAuthenticated);
      if gate.Some? {
        reply := gate.value;
      } else if data.orderItems.None? || |data.orderItems.value| == 0 {
        reply := Detail(400, "No order items");
      } else {
        var lines := data.orderItems.value;
        var oid := next.order;
        db := db.(orders := db.orders[oid := NewOrder(caller.value, data)]);
        next := next.(order := oid + 1);
        if data.shippingAddress.NullShipping? {
          reply := Failed(NoneTypeGet);
        } else {
          AddOrderSteps(old(db), old(next), caller, data);
          db := db.(addresses := db.addresses[next.address := NewAddress(oid, data)]);
          next := next.(address := next.address + 1);
          var error := PlaceOrderLines(oid, lines);
          if error.Some? {
            reply := Failed(error.value);
          } else {
            reply := Reply(200, SerializeOrder(db, oid));
          }
          assert Outcome(db, next, reply) == AddOrder(old(db), old(next), caller, data);
        }
      }
      assert Outcome(db, next, reply) == AddOrder(old(db), old(next), caller, data);
      AddOrderValid(old(db), old(next), caller, data);
    }

    /** The loop of `addOrderItems`: for each line, look the product up,
        make the line's row and lower the product's stock, stopping at the
        first line that raises. */
    method PlaceOrderLines(order: nat, lines: seq<Line>) returns (error: Option<string>)
      modifies this
      ensures Placement(db, next.item, error) == PlaceLines(old(db), order, old(next).item, lines)
      ensures next == old(next).(item := next.item)
    {
      ghost var db0, n0 := db, next.item;
      var i := 0;
      while i < |lines|
        invariant 0 <= i <= |lines|
        invariant PlaceLines(db0, order, n0, lines[..i]) == Placement(db, next.item, None)
        invariant next == old(next).(item := next.item)
      {
        var line := lines[i];
        error := LineError(db.products, line);
        if error.Some? {
          PlaceLinesFail(db0, order, n0, lines, i, db, next.item);
          return;
        }
        PlaceLinesAdvance(db0, order, n0, lines, i, db, next.item);
        PlaceOrderLine(order, line);
        i := i + 1;
      }
      assert lines[..i] == lines;
      error := None;
    }

    /** One pass of the loop for a line whose product exists: the line's
        row, then the product's stock lowered by the line's quantity. */
    method PlaceOrderLine(order: nat, line: Line)
      requires LineError(db.products, line).None?
      modifies this
      ensures db == PlaceLine(old(db), order, old(next).item, line)
      ensures next == old(next).(item := old(next).item + 1)
    {
      var p := line.product.value as nat;
      var prod := db.products[p];
      db := db.(items := db.items[next.item := LineItem(order, line, prod)]);
      db := db.(products := db.products[p := prod.(countInStock := prod.countInStock - line.qty.value)]);
      next := next.(item := next.item + 1);
    }

    /** `createProduct`: a placeholder product owned by the administrator. */
    method CreateProduct(caller: Option<nat>) returns (reply: Reply)
      requires Valid()
      modifies this
      ensures Valid()
      ensures Gate(old(db), caller, IsAdminUser).Some? ==>
        reply == Gate(old(db), caller, IsAdminUser).value && db == old(db) && next == old(next)
      ensures Gate(old(db), caller, IsAdminUser).None? ==>
        var id := old(next).product;
        db == old(db).(products := old(db).products[id := SampleProduct(caller.value)])
        && next == old(next).(product := id + 1)
        && reply == Reply(200, SerializeProduct(id, SampleProduct(caller.value)))
    {
      var gate := Gate(db, caller, IsAdminUser);
      if gate.Some? {
        return gate.value;
      }
      var id := next.product;
      var product := SampleProduct(caller.value);
      ProductStored(db, next.(product := id + 1), id, product);
      db := db.(products := db.products[id := product]);
      next := next.(product := id + 1);
      reply := Reply(200, SerializeProduct(id, product));
    }

    /** `uploadImage`: stores the uploaded file's name under `products/` as
        the product's image. Both the file and the id must be present and
        non-empty; an id that is not an integer raises. */
    method UploadImage(caller: Option<nat>, image: Option<string>, productId: FormId) returns (reply: Reply)
      requires Valid()
      modifies this
      ensures Valid() && next == old(next)
      ensures Gate(old(db), caller, IsAdminUser).Some? ==>
        reply == Gate(old(db), caller, IsAdminUser).value && db == old(db)
      ensures Gate(old(db), caller, IsAdminUser).None? ==>
        if image.None? || image.value == "" || productId.NoFormId? || productId.text == "" then
          reply == Detail(400, "Invalid data") && db == old(db)
        else if productId.number.None? then
          reply.Crash? && db == old(db)
        else if productId.number.value < 0 || productId.number.value as nat !in old(db).products then
          reply == Detail(404, "Product not found") && db == old(db)
        else
          var p := productId.number.value as nat;
          db == old(db).(products := old(db).products[p := old(db).products[p].(image := Some("products/" + image.value))])
          && reply == Detail(200, "Image uploaded successfully")
    {
      var gate := Gate(db, caller, IsAdminUser);
      if gate.Some? {
        return gate.value;
      }
      if image.None? || image.value == "" || productId.NoFormId? || productId.text == "" {
        return Detail(400, "Invalid data");
      }
      if productId.number.None? {
        return Crash("ValueError: Field 'id' expected a number but got '" + productId.text + "'.");
      }
      if productId.number.value < 0 || productId.number.value as nat !in db.products {
        return Detail(404, "Product not found");
      }
      var p := productId.number.value as nat;
      ProductStored(db, next, p, db.products[p].(image := Some("products/" + image.value)));
      db := db.(products := db.products[p := db.products[p].(image := Some("products/" + image.value))]);
      reply := Detail(200, "Image uploaded successfully");
    }

    /** `updateUser`: an administrator edits a user's names, email and staff
        flag. Saving a login name another user already has raises. */
    method UpdateUser(caller: Option<nat>, pk: nat, data: UserUpdate) returns (reply: Reply)
      requires Valid()
      modifies this
      ensures Valid() && next == old(next)
      ensures Gate(old(db), caller, IsAdminUser).Some? ==>
        reply == Gate(old(db), caller, IsAdminUser).value && db == old(db)
      ensures Gate(old(db), caller, IsAdminUser).None? ==>
        if pk !in old(db).users then reply == Detail(404, "User not found") && db == old(db)
        else
          var u := UpdatedUser(old(db).users[pk], data);
          if !UsernameFree(old(db).users, u.username, Some(pk)) then reply.Crash? && db == old(db)
          else db == old(db).(users := old(db).users[pk := u]) && reply == Reply(200, SerializeUser(pk, u))
    {
      var gate := Gate(db, caller, IsAdminUser);
      if gate.Some? {
        return gate.value;
      }
      if pk !in db.users {
        return Detail(404, "User not found");
      }
      var u := UpdatedUser(db.users[pk], data);
      if !UsernameFree(db.users, u.username, Some(pk)) {
        return Crash("IntegrityError: " + DuplicateUsername);
      }
      UsersStored(db, next, db.users[pk := u]);
      db := db.(users := db.users[pk := u]);
      reply := Reply(200, SerializeUser(pk, u));
    }

    /** `deleteUser`: an administrator removes any user but a superuser;
        the user's orders, products and reviews lose their owner. */
    method DeleteUser(caller: Option<nat>, pk: nat) returns (reply: Reply)
      requires Valid()
      modifies this
      ensures Valid() && next == old(next)
      ensures Gate(old(db), caller, IsAdminUser).Some? ==>
        reply == Gate(old(db), caller, IsAdminUser).value && db == old(db)
      ensures Gate(old(db), caller, IsAdminUser).None? ==>
        if pk !in old(db).users then reply == Detail(404, "User not found") && db == old(db)
        else if old(db).users[pk].isSuperuser then reply == Detail(400, "Cannot delete superuser") && db == old(db)
        else db == Models.DeleteUser(old(db), pk) && reply == Detail(200, "User deleted successfully")
    {
      var gate := Gate(db, caller, IsAdminUser);
      if gate.Some? {
        return gate.value;
      }
      if pk !in db.users {
        return Detail(404, "User not found");
      }
      if db.users[pk].isSuperuser {
        return Detail(400, "Cannot delete superuser");
      }
      DeleteUserConsistent(db, pk);
      db := Models.DeleteUser(db, pk);
      reply := Detail(200, "User deleted successfully");
    }

    /** `updateUserProfile`: the caller edits their own names and, when the
        supplied password is not empty, their password. A missing key
        raises before anything is saved. The token is the one the
        serializer mints for the user. */
    method UpdateUserProfile(caller: Option<nat>, data: ProfileData, token: string) returns (reply: Reply)
      requires Valid()
      modifies this
      ensures Valid() && next == old(next)
      ensures Gate(old(db), caller, IsAuthenticated).Some? ==>
        reply == Gate(old(db), caller, IsAuthenticated).value && db == old(db)
      ensures Gate(old(db), caller, IsAuthenticated).None? ==>
        if MissingProfileKey(data).Some? then reply.Crash? && db == old(db)
        else
          var u := ProfileUpdated(old(db).users[caller.value], data.fname.value, data.lname.value, data.password.value);
          db == old(db).(users := old(db).users[caller.value := u])
          && reply == Reply(200, SerializeUserWithToken(caller.value, u, token))
    {
      var gate := Gate(db, caller, IsAuthenticated);
      if gate.Some? {
        return gate.value;
      }
      var missing := MissingProfileKey(data);
      if missing.Some? {
        return Crash("KeyError: " + missing.value);
      }
      var id := caller.value;
      var u := ProfileUpdated(db.users[id], data.fname.value, data.lname.value, data.password.value);
      UsersStored(db, next, db.users[id := u]);
      db := db.(users := db.users[id := u]);
      reply := Reply(200, SerializeUserWithToken(id, u, token));
    }

    /** `registerUser`: a new inactive account whose login name is its
        email. A missing key or a login name already taken gives 400 with
        the error's text. The activation link is built from a token and
        the request's host, and is a parameter here. */
    method RegisterUser(caller: Option<nat>, data: SignupData, activationLink: string) returns (reply: Reply)
      requires Valid()
      modifies this
      ensures Valid()
      ensures Gate(old(db), caller, AllowAny).Some? ==>
        reply == Gate(old(db), caller, AllowAny).value && db == old(db) && next == old(next)
      ensures Gate(old(db), caller, AllowAny).None? ==>
        if MissingSignupKey(data).Some? then
          reply == Detail(400, "Signup failed: " + MissingSignupKey(data).value) && db == old(db) && next == old(next)
        else if !UsernameFree(old(db).users, data.email.value, None) then
          reply == Detail(400, "Signup failed: " + DuplicateUsername) && db == old(db) && next == old(next)
        else
          var id := old(next).user;
          db == old(db).(users := old(db).users[id := SignupUser(data.fname.value, data.lname.value, data.email.value, data.password.value)])
          && next == old(next).(user := id + 1)
          && reply == SignupReply(activationLink)
    {
      var gate := Gate(db, caller, AllowAny);
      if gate.Some? {
        return gate.value;
      }
      var missing := MissingSignupKey(data);
      if missing.Some? {
        return Detail(400, "Signup failed: " + missing.value);
      }
      if !UsernameFree(db.users, data.email.value, None) {
        return Detail(400, "Signup failed: " + DuplicateUsername);
      }
      var id := next.user;
      var u := SignupUser(data.fname.value, data.lname.value, data.email.value, data.password.value);
      UsersStored(db, next.(user := id + 1), db.users[id := u]);
      db := db.(users := db.users[id := u]);
      next := next.(user := id + 1);
      reply := SignupReply(activationLink);
    }
  }
}
