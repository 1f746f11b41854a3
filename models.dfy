/** The shop's database tables (backend/ecommerce/project/app/models.py):
    one datatype per row kind, the defaults `objects.create` fills in, the
    `__str__` renderings, and the `on_delete` rules as functions from a
    database state to the state after a row is deleted. Money columns
    (`DecimalField(decimal_places=2)`) are whole hundredths; the review
    rating column of `Product` (`decimal_places=1`) is whole tenths. */
module Models {
  import opened Wrappers
  import opened Text

  type Cents = int
  type Tenths = int

  /** `make_password(plain)`: the hash itself is not modelled, only which
      plain text it was made from. */
  datatype Password = Hashed(plain: string)

  /** The columns of `django.contrib.auth`'s user that the shop reads or writes. */
  datatype User = User(
    username: string, email: string, firstName: string, lastName: string,
    password: Password, isStaff: bool, isSuperuser: bool, isActive: bool)

  datatype Product = Product(
    user: Option<nat>, name: Option<string>, image: Option<string>,
    brand: Option<string>, category: Option<string>, description: Option<string>,
    price: Cents, countInStock: int, rating: Tenths, numReviews: int)

  datatype Review = Review(
    product: nat, user: Option<nat>, name: Option<string>, rating: int, comment: Option<string>)

  datatype Order = Order(
    user: Option<nat>, paymentMethod: Option<string>,
    taxPrice: Cents, shippingPrice: Cents, totalPrice: Cents,
    isPaid: bool, isDelivered: bool)

  datatype OrderItem = OrderItem(
    product: Option<nat>, order: nat, name: Option<string>,
    qty: int, price: Cents, image: Option<string>)

  datatype ShippingAddress = ShippingAddress(
    order: nat, address: string, city: string, postalCode: string, country: string,
    shippingPrice: Cents)

  // ---------------------------------------------------------------------
  // objects.create(...): the arguments a call names; `None` for a column
  // with a default means the call leaves it out.
  // ---------------------------------------------------------------------

  datatype ProductArgs = ProductArgs(
    user: Option<nat>, name: Option<string>, brand: Option<string>,
    category: Option<string>, description: Option<string>, price: Cents,
    countInStock: Option<int>, rating: Option<Tenths>, numReviews: Option<int>)

  function CreateProduct(a: ProductArgs): (r: Product)
    ensures a.countInStock.None? ==> r.countInStock == 0
    ensures a.rating.None? ==> r.rating == 0
    ensures a.numReviews.None? ==> r.numReviews == 0
    ensures a.countInStock.Some? ==> r.countInStock == a.countInStock.value
    ensures r.image.None? && r.price == a.price && r.name == a.name && r.user == a.user
  {
    Product(a.user, a.name, None, a.brand, a.category, a.description, a.price,
      a.countInStock.GetOr(0), a.rating.GetOr(0), a.numReviews.GetOr(0))
  }

  datatype OrderArgs = OrderArgs(
    user: Option<nat>, paymentMethod: Option<string>,
    taxPrice: Option<Cents>, shippingPrice: Option<Cents>, totalPrice: Option<Cents>)

  function CreateOrder(a: OrderArgs): (r: Order)
    ensures !r.isPaid && !r.isDelivered
    ensures a.taxPrice.None? ==> r.taxPrice == 0
    ensures a.shippingPrice.None? ==> r.shippingPrice == 0
    ensures a.totalPrice.None? ==> r.totalPrice == 0
    ensures r.user == a.user && r.paymentMethod == a.paymentMethod
  {
    Order(a.user, a.paymentMethod, a.taxPrice.GetOr(0), a.shippingPrice.GetOr(0),
      a.totalPrice.GetOr(0), false, false)
  }

  function CreateOrderItem(product: Option<nat>, order: nat, name: Option<string>,
                           qty: Option<int>, price: Cents, image: Option<string>): (r: OrderItem)
    ensures qty.None? ==> r.qty == 1
    ensures qty.Some? ==> r.qty == qty.value
    ensures r.order == order && r.product == product && r.price == price
  {
    OrderItem(product, order, name, qty.GetOr(1), price, image)
  }

  // ---------------------------------------------------------------------
  // __str__
  // ---------------------------------------------------------------------

  /** Python `a or b` on an optional string column. */
  function OrText(s: Option<string>, fallback: string): (r: string)
    ensures s.Some? && s.value != [] ==> r == s.value
    ensures s.None? || s.value == [] ==> r == fallback
  {
    if s.Some? && s.value != [] then s.value else fallback
  }

  function ProductStr(p: Product): (r: string)
    ensures r != []
    ensures p.name.Some? && p.name.value != [] ==> r == p.name.value
    ensures p.name.None? || p.name.value == [] ==> r == "Unnamed Product"
  {
    OrText(p.name, "Unnamed Product")
  }

  function OrderItemStr(i: OrderItem): (r: string)
    ensures r != []
    ensures i.name.Some? && i.name.value != [] ==> r == i.name.value
    ensures i.name.None? || i.name.value == [] ==> r == "Unnamed Order Item"
  {
    OrText(i.name, "Unnamed Order Item")
  }

  function ReviewStr(v: Review): (r: string)
    ensures StartsWith(r, "Review " + ShowInt(v.rating) + " by ")
    ensures v.name.None? || v.name.value == [] ==> r == "Review " + ShowInt(v.rating) + " by Anonymous"
    ensures v.name.Some? && v.name.value != [] ==> r == "Review " + ShowInt(v.rating) + " by " + v.name.value
  {
    "Review " + ShowInt(v.rating) + " by " + OrText(v.name, "Anonymous")
  }

  /** `f'Order {self.id} by {self.user}'`: a user renders as its username,
      a missing one as `None`. */
  function OrderStr(id: nat, o: Order, users: map<nat, User>): (r: string)
    ensures o.user.None? ==> r == "Order " + ShowNat(id) + " by None"
    ensures o.user.Some? && o.user.value in users ==>
      r == "Order " + ShowNat(id) + " by " + users[o.user.value].username
  {
    "Order " + ShowNat(id) + " by " +
      (if o.user.Some? && o.user.value in users then users[o.user.value].username else "None")
  }

  // ---------------------------------------------------------------------
  // The database and its on_delete rules
  // ---------------------------------------------------------------------

  datatype Db = Db(
    users: map<nat, User>, products: map<nat, Product>, reviews: map<nat, Review>,
    orders: map<nat, Order>, items: map<nat, OrderItem>, addresses: map<nat, ShippingAddress>)

  predicate UserRef(u: Option<nat>, db: Db) {
    u.None? || u.value in db.users
  }

  /** Every foreign key names an existing row (or is null where the column
      allows it), and no two shipping addresses belong to the same order
      (`OneToOneField`). */
  predicate Consistent(db: Db) {
    (forall p | p in db.products :: UserRef(db.products[p].user, db))
    && (forall r | r in db.reviews :: db.reviews[r].product in db.products && UserRef(db.reviews[r].user, db))
    && (forall o | o in db.orders :: UserRef(db.orders[o].user, db))
    && (forall i | i in db.items ::
          db.items[i].order in db.orders
          && (db.items[i].product.None? || db.items[i].product.value in db.products))
    && (forall a | a in db.addresses :: db.addresses[a].order in db.orders)
    && (forall a, b | a in db.addresses && b in db.addresses && a != b ::
          db.addresses[a].order != db.addresses[b].order)
  }

  /** The reverse one-to-one accessor `order.shippingAddress`: the id of the
      order's address row, if it has one (the lowest id should there be
      several; a consistent database has at most one). */
  function AddressOf(db: Db, order: nat): (r: Option<nat>)
    ensures r.None? <==> forall a | a in db.addresses :: db.addresses[a].order != order
    ensures r.Some? ==> r.value in db.addresses && db.addresses[r.value].order == order
  {
    var s := set a | a in db.addresses && db.addresses[a].order == order;
    var ids := SortedIds(s);
    if |ids| == 0 then
      assert forall a | a in db.addresses :: db.addresses[a].order != order by {
        assert s == {};
        forall a | a in db.addresses ensures db.addresses[a].order != order {
          assert a !in s;
        }
      }
      None
    else Some(ids[0])
  }

  /** A set of row ids in increasing order: the order in which the model
      takes a query's rows (no `Meta.ordering` is declared, so the database
      is free to choose; id order is what it returns in practice). */
  function SortedIds(s: set<nat>): (r: seq<nat>)
    ensures ListsInOrder(r, s)
    decreases |s|
  {
    if s == {} then []
    else
      MinExists(s);
      var m :| IsLeast(m, s);
      var rest := SortedIds(s - {m});
      SortedCons(s, m, rest);
      [m] + rest
  }

  predicate ListsInOrder(r: seq<nat>, s: set<nat>) {
    |r| == |s|
    && (forall i | 0 <= i < |r| :: r[i] in s)
    && (forall x | x in s :: x in r)
    && (forall i, j | 0 <= i < j < |r| :: r[i] < r[j])
  }

  lemma SortedCons(s: set<nat>, m: nat, rest: seq<nat>)
    requires m in s && forall x | x in s :: m <= x
    requires ListsInOrder(rest, s - {m})
    ensures ListsInOrder([m] + rest, s)
  {
    var r := [m] + rest;
    forall i, j | 0 <= i < j < |r| ensures r[i] < r[j] {
      if i == 0 {
        assert r[j] == rest[j - 1] && r[j] in s - {m};
      } else {
        assert r[i] == rest[i - 1] && r[j] == rest[j - 1];
      }
    }
    forall x | x in s ensures x in r {
      if x != m {
        assert x in s - {m};
        var k :| 0 <= k < |rest| && rest[k] == x;
        assert r[k + 1] == x;
      }
    }
  }

  predicate IsLeast(m: nat, s: set<nat>) {
    m in s && forall x | x in s :: m <= x
  }

  lemma {:induction false} MinExists(s: set<nat>)
    requires s != {}
    ensures exists m :: IsLeast(m, s)
    decreases |s|
  {
    var y :| y in s;
    var t := s - {y};
    if t == {} {
      forall x | x in s ensures y <= x {
        assert x !in t;
      }
      assert IsLeast(y, s);
    } else {
      MinExists(t);
      var m :| IsLeast(m, t);
      var best := if y < m then y else m;
      forall x | x in s ensures best <= x {
        assert x == y || x in t;
      }
      assert IsLeast(best, s);
    }
  }

  /** An order has at most one shipping address. */
  lemma AtMostOneAddress(db: Db, a: nat, b: nat)
    requires Consistent(db)
    requires a in db.addresses && b in db.addresses
    requires db.addresses[a].order == db.addresses[b].order
    ensures a == b
  {
  }

  /** `order.delete()`: its items and its address go with it (`CASCADE`). */
  function DeleteOrder(db: Db, id: nat): (r: Db)
    ensures r.orders == db.orders - {id}
    ensures forall i :: i in r.items <==> i in db.items && db.items[i].order != id
    ensures forall i | i in r.items :: r.items[i] == db.items[i]
    ensures forall a :: a in r.addresses <==> a in db.addresses && db.addresses[a].order != id
    ensures forall a | a in r.addresses :: r.addresses[a] == db.addresses[a]
    ensures r.users == db.users && r.products == db.products && r.reviews == db.reviews
  {
    db.(orders := db.orders - {id},
        items := map i | i in db.items && db.items[i].order != id :: db.items[i],
        addresses := map a | a in db.addresses && db.addresses[a].order != id :: db.addresses[a])
  }

  /** `product.delete()`: order lines keep their rows with `product` set to
      null (`SET_NULL`); the product's reviews are deleted (`CASCADE`). */
  function DeleteProduct(db: Db, id: nat): (r: Db)
    ensures r.products == db.products - {id}
    ensures r.items.Keys == db.items.Keys
    ensures forall i | i in r.items ::
      r.items[i].product == (if db.items[i].product == Some(id) then None else db.items[i].product)
      && r.items[i].(product := db.items[i].product) == db.items[i]
    ensures forall v :: v in r.reviews <==> v in db.reviews && db.reviews[v].product != id
    ensures forall v | v in r.reviews :: r.reviews[v] == db.reviews[v]
    ensures r.users == db.users && r.orders == db.orders && r.addresses == db.addresses
  {
    db.(products := db.products - {id},
        items := map i | i in db.items ::
          if db.items[i].product == Some(id) then db.items[i].(product := None) else db.items[i],
        reviews := map v | v in db.reviews && db.reviews[v].product != id :: db.reviews[v])
  }

  function ClearUser(u: Option<nat>, id: nat): (r: Option<nat>)
    ensures r == (if u == Some(id) then None else u)
  {
    if u == Some(id) then None else u
  }

  /** `user.delete()`: orders, products and reviews keep their rows with
      `user` set to null (`SET_NULL`); no other user changes. */
  function DeleteUser(db: Db, id: nat): (r: Db)
    ensures r.users == db.users - {id}
    ensures r.orders.Keys == db.orders.Keys && r.products.Keys == db.products.Keys
    ensures r.reviews.Keys == db.reviews.Keys
    ensures forall o | o in r.orders ::
      r.orders[o] == db.orders[o].(user := ClearUser(db.orders[o].user, id))
    ensures forall p | p in r.products ::
      r.products[p] == db.products[p].(user := ClearUser(db.products[p].user, id))
    ensures forall v | v in r.reviews ::
      r.reviews[v] == db.reviews[v].(user := ClearUser(db.reviews[v].user, id))
    ensures r.items == db.items && r.addresses == db.addresses
  {
    db.(users := db.users - {id},
        orders := map o | o in db.orders :: db.orders[o].(user := ClearUser(db.orders[o].user, id)),
        products := map p | p in db.products :: db.products[p].(user := ClearUser(db.products[p].user, id)),
        reviews := map v | v in db.reviews :: db.reviews[v].(user := ClearUser(db.reviews[v].user, id)))
  }

  /** Each on_delete rule leaves no dangling reference behind. */
  lemma DeleteOrderConsistent(db: Db, id: nat)
    requires Consistent(db)
    ensures Consistent(DeleteOrder(db, id))
  {
    var r := DeleteOrder(db, id);
    forall a, b | a in r.addresses && b in r.addresses && a != b
      ensures r.addresses[a].order != r.addresses[b].order
    {
      assert r.addresses[a] == db.addresses[a] && r.addresses[b] == db.addresses[b];
    }
  }

  lemma DeleteProductConsistent(db: Db, id: nat)
    requires Consistent(db)
    ensures Consistent(DeleteProduct(db, id))
  {
  }

  lemma DeleteUserConsistent(db: Db, id: nat)
    requires Consistent(db)
    ensures Consistent(DeleteUser(db, id))
  {
    var r := DeleteUser(db, id);
    ClearedRefs(db, id);
    forall v | v in r.reviews ensures r.reviews[v].product in r.products {
      assert r.reviews[v].product == db.reviews[v].product;
    }
  }

  /** After `DeleteUser`, every remaining user reference names a user that
      is still there. */
  lemma ClearedRefs(db: Db, id: nat)
    requires Consistent(db)
    ensures var r := DeleteUser(db, id);
      (forall p | p in r.products :: UserRef(r.products[p].user, r))
      && (forall v | v in r.reviews :: UserRef(r.reviews[v].user, r))
      && (forall o | o in r.orders :: UserRef(r.orders[o].user, r))
  {
    ClearedProductRefs(db, id);
    ClearedReviewRefs(db, id);
    ClearedOrderRefs(db, id);
  }

  lemma ClearedProductRefs(db: Db, id: nat)
    requires Consistent(db)
    ensures var r := DeleteUser(db, id); forall p | p in r.products :: UserRef(r.products[p].user, r)
  {
    var r := DeleteUser(db, id);
    forall p | p in r.products ensures UserRef(r.products[p].user, r) {
      assert r.products[p].user == ClearUser(db.products[p].user, id);
    }
  }

  lemma ClearedReviewRefs(db: Db, id: nat)
    requires Consistent(db)
    ensures var r := DeleteUser(db, id); forall v | v in r.reviews :: UserRef(r.reviews[v].user, r)
  {
    var r := DeleteUser(db, id);
    forall v | v in r.reviews ensures UserRef(r.reviews[v].user, r) {
      assert r.reviews[v].user == ClearUser(db.reviews[v].user, id);
    }
  }

  lemma ClearedOrderRefs(db: Db, id: nat)
    requires Consistent(db)
    ensures var r := DeleteUser(db, id); forall o | o in r.orders :: UserRef(r.orders[o].user, r)
  {
    var r := DeleteUser(db, id);
    forall o | o in r.orders ensures UserRef(r.orders[o].user, r) {
      assert r.orders[o].user == ClearUser(db.orders[o].user, id);
    }
  }
}
