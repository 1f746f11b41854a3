/** The REST framework serializers of backend/ecommerce/project/app/serializer.py:
    how a database row becomes the JSON object a view returns. Decimal
    columns come out as strings with their fixed number of decimal places,
    which is the framework's default rendering. Timestamps are not part of
    this model. */
module Serializers {
  import opened Wrappers
  import opened Text
  import opened Json
  import opened Models

  // ---------------------------------------------------------------------
  // Decimal columns
  // ---------------------------------------------------------------------

  /** A `DecimalField(decimal_places=2)` as the REST framework writes it:
      `-` for a negative amount, then the magnitude. */
  function ShowCents(c: Cents): (r: string)
    ensures |r| >= 4 && r[|r| - 3] == '.'
    ensures c < 0 <==> r[0] == '-'
  {
    if c < 0 then "-" + CentsText(-c) else CentsText(c)
  }

  /** An amount without its sign: the whole part, `.`, and two digits. */
  function CentsText(m: nat): (r: string)
    ensures |r| >= 4 && r[|r| - 3] == '.' && IsDigit(r[0]) && IsDigit(r[|r| - 1])
  {
    var f := m % 100;
    ShowNat(m / 100) + "." + [DigitChar(f / 10), DigitChar(f % 10)]
  }

  /** A `DecimalField(decimal_places=1)`: one digit after the point. */
  function ShowTenths(t: Tenths): (r: string)
    ensures |r| >= 3 && r[|r| - 2] == '.'
    ensures t < 0 <==> r[0] == '-'
  {
    var m := if t < 0 then -t else t;
    (if t < 0 then "-" else "") + ShowNat(m / 10) + "." + [DigitChar(m % 10)]
  }

  /** The whole part and the digits after the point of a rendering without
      its sign determine the magnitude. */
  lemma UnsignedParts(wa: nat, wb: nat, fa: string, fb: string)
    requires ShowNat(wa) + "." + fa == ShowNat(wb) + "." + fb
    requires |fa| == |fb|
    ensures wa == wb && fa == fb
  {
    var ta, tb := ShowNat(wa) + "." + fa, ShowNat(wb) + "." + fb;
    var na, nb := ShowNat(wa), ShowNat(wb);
    assert |na| == |nb|;
    assert na == ta[..|na|] && nb == tb[..|nb|];
    assert fa == ta[|na| + 1..] && fb == tb[|nb| + 1..];
    ShowNatValue(wa);
    ShowNatValue(wb);
  }

  /** The text determines the amount: two different amounts never render
      the same. */
  lemma ShowCentsInjective(a: Cents, b: Cents)
    requires ShowCents(a) == ShowCents(b)
    ensures a == b
  {
    var ma := if a < 0 then -a else a;
    var mb := if b < 0 then -b else b;
    assert (a < 0) == (b < 0);
    if a < 0 {
      assert CentsText(ma) == ShowCents(a)[1..] && CentsText(mb) == ShowCents(b)[1..];
    }
    CentsTextInjective(ma, mb);
  }

  lemma CentsTextInjective(ma: nat, mb: nat)
    requires CentsText(ma) == CentsText(mb)
    ensures ma == mb
  {
    var fa := [DigitChar((ma % 100) / 10), DigitChar((ma % 100) % 10)];
    var fb := [DigitChar((mb % 100) / 10), DigitChar((mb % 100) % 10)];
    UnsignedParts(ma / 100, mb / 100, fa, fb);
    assert fa[0] == fb[0] && fa[1] == fb[1];
  }

  lemma ShowTenthsInjective(a: Tenths, b: Tenths)
    requires ShowTenths(a) == ShowTenths(b)
    ensures a == b
  {
    var ma := if a < 0 then -a else a;
    var mb := if b < 0 then -b else b;
    var fa, fb := [DigitChar(ma % 10)], [DigitChar(mb % 10)];
    var ta := ShowNat(ma / 10) + "." + fa;
    var tb := ShowNat(mb / 10) + "." + fb;
    assert (a < 0) == (b < 0);
    if a < 0 {
      assert ShowTenths(a) == "-" + ta && ShowTenths(b) == "-" + tb;
      assert ta == ShowTenths(a)[1..] && tb == ShowTenths(b)[1..];
    } else {
      assert ShowTenths(a) == ta && ShowTenths(b) == tb;
    }
    UnsignedParts(ma / 10, mb / 10, fa, fb);
    assert fa[0] == fb[0];
  }

  // ---------------------------------------------------------------------
  // Field helpers
  // ---------------------------------------------------------------------

  /** The member names of an object, in order. */
  function Keys(ms: seq<Member>): (r: seq<string>)
    ensures |r| == |ms| && forall i | 0 <= i < |ms| :: r[i] == ms[i].key
  {
    seq(|ms|, i requires 0 <= i < |ms| => ms[i].key)
  }

  /** The keys of a list are pairwise different. */
  predicate Distinct(keys: seq<string>) {
    forall i, j | 0 <= i < j < |keys| :: keys[i] != keys[j]
  }

  /** The members of an object written with the given keys and values, in
      order. */
  function Fields(keys: seq<string>, values: seq<Json>): (r: seq<Member>)
    requires |keys| == |values|
    ensures |r| == |keys| && Keys(r) == keys
    ensures forall i | 0 <= i < |r| :: r[i] == Member(keys[i], values[i])
  {
    seq(|keys|, i requires 0 <= i < |keys| => Member(keys[i], values[i]))
  }

  /** With distinct keys, reading a key back gives the value written under
      it. */
  lemma FieldValue(keys: seq<string>, values: seq<Json>, i: nat)
    requires |keys| == |values| && i < |keys| && Distinct(keys)
    ensures Lookup(Fields(keys, values), keys[i]) == Some(values[i])
  {
    LookupLast(Fields(keys, values), i);
  }

  function Id(n: nat): Json {
    JNum(ShowNat(n))
  }

  function IntField(n: int): Json {
    JNum(ShowInt(n))
  }

  function Nullable(s: Option<string>): (r: Json)
    ensures s.None? <==> r == JNull
  {
    match s
    case None => JNull
    case Some(t) => JStr(t)
  }

  function NullableId(s: Option<nat>): (r: Json)
    ensures s.None? <==> r == JNull
  {
    match s
    case None => JNull
    case Some(n) => Id(n)
  }

  // ---------------------------------------------------------------------
  // Users
  // ---------------------------------------------------------------------

  const UserFields: seq<string> := ["id", "_id", "username", "email", "first_name", "last_name", "isAdmin"]

  /** `UserSerializer`: `_id` repeats the primary key and `isAdmin` is the
      staff flag. */
  function SerializeUser(id: nat, u: User): (r: Json)
    ensures r.JObj? && Keys(r.members) == UserFields
    ensures Get(r, "id") == Some(Id(id)) && Get(r, "_id") == Get(r, "id")
    ensures Get(r, "isAdmin") == Some(JBool(u.isStaff))
    ensures Get(r, "email") == Some(JStr(u.email)) && Get(r, "username") == Some(JStr(u.username))
    ensures Get(r, "first_name") == Some(JStr(u.firstName)) && Get(r, "last_name") == Some(JStr(u.lastName))
  {
    var vs := [Id(id), Id(id), JStr(u.username), JStr(u.email), JStr(u.firstName),
               JStr(u.lastName), JBool(u.isStaff)];
    UserFieldsDistinct();
    FieldValue(UserFields, vs, 0);
    FieldValue(UserFields, vs, 1);
    FieldValue(UserFields, vs, 2);
    FieldValue(UserFields, vs, 3);
    FieldValue(UserFields, vs, 4);
    FieldValue(UserFields, vs, 5);
    FieldValue(UserFields, vs, 6);
    JObj(Fields(UserFields, vs))
  }

  lemma UserFieldsDistinct()
    ensures Distinct(UserFields)
  {
  }

  /** `UserSerializerWithToken`: the same fields followed by `token`. The
      token text comes from the JWT library and is a parameter here. */
  function SerializeUserWithToken(id: nat, u: User, token: string): (r: Json)
    ensures r.JObj? && Keys(r.members) == UserFields + ["token"]
    ensures r.members[..|UserFields|] == SerializeUser(id, u).members
    ensures Get(r, "token") == Some(JStr(token))
  {
    var plain := SerializeUser(id, u).members;
    var ms := plain + [Member("token", JStr(token))];
    assert Keys(ms) == Keys(plain) + ["token"];
    assert ms[..|UserFields|] == plain;
    LookupLast(ms, |plain|);
    JObj(ms)
  }

  // ---------------------------------------------------------------------
  // Products, order lines, addresses
  // ---------------------------------------------------------------------

  /** `ImageField` output: the media URL of the stored file name, or null
      when no file is set. */
  function ImageUrl(name: Option<string>): (r: Json)
    ensures name.None? || name.value == [] <==> r == JNull
    ensures name.Some? && name.value != [] ==> r == JStr("/media/" + name.value)
  {
    if name.Some? && name.value != [] then JStr("/media/" + name.value) else JNull
  }

  const ProductFields: seq<string> :=
    ["id", "_id", "name", "image", "brand", "category", "description", "price",
     "countInStock", "rating", "numReviews", "user"]

  /** `ProductSerializer`: every column, plus `_id` read from the primary key. */
  function SerializeProduct(id: nat, p: Product): (r: Json)
    ensures r.JObj? && Keys(r.members) == ProductFields
    ensures Get(r, "_id") == Get(r, "id") == Some(Id(id))
    ensures Get(r, "price") == Some(JStr(ShowCents(p.price)))
    ensures Get(r, "countInStock") == Some(IntField(p.countInStock))
    ensures Get(r, "image") == Some(ImageUrl(p.image))
  {
    var vs := [Id(id), Id(id), Nullable(p.name), ImageUrl(p.image), Nullable(p.brand),
               Nullable(p.category), Nullable(p.description), JStr(ShowCents(p.price)),
               IntField(p.countInStock), JStr(ShowTenths(p.rating)), IntField(p.numReviews),
               NullableId(p.user)];
    ProductFieldsDistinct();
    FieldValue(ProductFields, vs, 0);
    FieldValue(ProductFields, vs, 1);
    FieldValue(ProductFields, vs, 3);
    FieldValue(ProductFields, vs, 7);
    FieldValue(ProductFields, vs, 8);
    JObj(Fields(ProductFields, vs))
  }

  lemma ProductFieldsDistinct()
    ensures Distinct(ProductFields)
  {
  }

  const ItemFields: seq<string> := ["id", "name", "qty", "price", "image", "product", "order"]

  function SerializeItem(id: nat, it: OrderItem): (r: Json)
    ensures r.JObj? && Keys(r.members) == ItemFields
    ensures Get(r, "product") == Some(NullableId(it.product))
    ensures Get(r, "qty") == Some(IntField(it.qty))
  {
    var vs := [Id(id), Nullable(it.name), IntField(it.qty), JStr(ShowCents(it.price)),
               Nullable(it.image), NullableId(it.product), Id(it.order)];
    ItemFieldsDistinct();
    FieldValue(ItemFields, vs, 2);
    FieldValue(ItemFields, vs, 5);
    JObj(Fields(ItemFields, vs))
  }

  /** A line's price reaches the client as a decimal string. */
  lemma ItemPrice(id: nat, it: OrderItem)
    ensures Get(SerializeItem(id, it), "price") == Some(JStr(ShowCents(it.price)))
  {
    var vs := [Id(id), Nullable(it.name), IntField(it.qty), JStr(ShowCents(it.price)),
               Nullable(it.image), NullableId(it.product), Id(it.order)];
    assert SerializeItem(id, it) == JObj(Fields(ItemFields, vs));
    ItemFieldsDistinct();
    FieldValue(ItemFields, vs, 3);
  }

  lemma ItemFieldsDistinct()
    ensures Distinct(ItemFields)
  {
  }

  const AddressFields: seq<string> :=
    ["id", "address", "city", "postalCode", "country", "shippingPrice", "order"]

  function SerializeAddress(id: nat, a: ShippingAddress): (r: Json)
    ensures r.JObj? && Keys(r.members) == AddressFields
    ensures Get(r, "order") == Some(Id(a.order))
  {
    var vs := [Id(id), JStr(a.address), JStr(a.city), JStr(a.postalCode), JStr(a.country),
               JStr(ShowCents(a.shippingPrice)), Id(a.order)];
    AddressFieldsDistinct();
    FieldValue(AddressFields, vs, 6);
    JObj(Fields(AddressFields, vs))
  }

  lemma AddressFieldsDistinct()
    ensures Distinct(AddressFields)
  {
  }

  // ---------------------------------------------------------------------
  // Orders
  // ---------------------------------------------------------------------

  const UnknownUser: Json :=
    JObj([Member("id", JNull), Member("name", JStr("Unknown")), Member("email", JStr("N/A"))])

  /** `OrderSerializer.get_user`: the buyer's id, display name and email; a
      placeholder once the buyer's account is gone. */
  function OrderUser(db: Db, user: Option<nat>): (r: Json)
    ensures user.None? ==> r == UnknownUser
    ensures user.Some? && user.value in db.users ==>
      var u := db.users[user.value];
      Get(r, "id") == Some(Id(user.value))
      && Get(r, "name") == Some(JStr(if u.firstName != [] then u.firstName else u.email))
      && Get(r, "email") == Some(JStr(u.email))
  {
    if user.Some? && user.value in db.users then
      var u := db.users[user.value];
      var vs := [Id(user.value), JStr(if u.firstName != [] then u.firstName else u.email), JStr(u.email)];
      BuyerFieldsDistinct();
      FieldValue(BuyerFields, vs, 0);
      FieldValue(BuyerFields, vs, 1);
      FieldValue(BuyerFields, vs, 2);
      JObj(Fields(BuyerFields, vs))
    else UnknownUser
  }

  const BuyerFields: seq<string> := ["id", "name", "email"]

  lemma BuyerFieldsDistinct()
    ensures Distinct(BuyerFields)
  {
  }

  /** The ids of an order's lines, in id order. */
  function ItemsOf(db: Db, order: nat): (r: seq<nat>)
    ensures forall i | 0 <= i < |r| :: r[i] in db.items && db.items[r[i]].order == order
    ensures forall k | k in db.items && db.items[k].order == order :: k in r
  {
    SortedIds(set k | k in db.items && db.items[k].order == order)
  }

  function SerializeItems(db: Db, ids: seq<nat>): (r: seq<Json>)
    requires forall i | 0 <= i < |ids| :: ids[i] in db.items
    ensures |r| == |ids|
    ensures forall i | 0 <= i < |ids| :: r[i] == SerializeItem(ids[i], db.items[ids[i]])
  {
    if |ids| == 0 then [] else [SerializeItem(ids[0], db.items[ids[0]])] + SerializeItems(db, ids[1..])
  }

  function AddressJson(db: Db, order: nat): (r: Json)
    ensures r == JNull <==> AddressOf(db, order).None?
  {
    match AddressOf(db, order)
    case None => JNull
    case Some(a) => SerializeAddress(a, db.addresses[a])
  }

  const OrderFields: seq<string> :=
    ["id", "orderItems", "shippingAddress", "user", "paymentMethod", "taxPrice",
     "shippingPrice", "totalPrice", "isPaid", "isDelivered"]

  /** `OrderSerializer`: the order's columns with its lines, its address
      (null when it has none) and a summary of its buyer. */
  function SerializeOrder(db: Db, id: nat): (r: Json)
    requires id in db.orders
    ensures r.JObj? && Keys(r.members) == OrderFields
    ensures Get(r, "id") == Some(Id(id))
    ensures Get(r, "shippingAddress") == Some(JNull) <==> AddressOf(db, id).None?
    ensures Get(r, "user") == Some(OrderUser(db, db.orders[id].user))
    ensures Get(r, "orderItems") == Some(JArr(SerializeItems(db, ItemsOf(db, id))))
  {
    var o := db.orders[id];
    var vs := [Id(id), JArr(SerializeItems(db, ItemsOf(db, id))), AddressJson(db, id),
               OrderUser(db, o.user), Nullable(o.paymentMethod), JStr(ShowCents(o.taxPrice)),
               JStr(ShowCents(o.shippingPrice)), JStr(ShowCents(o.totalPrice)), JBool(o.isPaid),
               JBool(o.isDelivered)];
    OrderFieldsDistinct();
    FieldValue(OrderFields, vs, 0);
    FieldValue(OrderFields, vs, 1);
    FieldValue(OrderFields, vs, 2);
    FieldValue(OrderFields, vs, 3);
    JObj(Fields(OrderFields, vs))
  }

  lemma OrderFieldsDistinct()
    ensures Distinct(OrderFields)
  {
  }

  /** An order's three prices reach the client as decimal strings, not as
      numbers. */
  lemma OrderPrices(db: Db, id: nat)
    requires id in db.orders
    ensures var r := SerializeOrder(db, id);
      var o := db.orders[id];
      Get(r, "taxPrice") == Some(JStr(ShowCents(o.taxPrice)))
      && Get(r, "shippingPrice") == Some(JStr(ShowCents(o.shippingPrice)))
      && Get(r, "totalPrice") == Some(JStr(ShowCents(o.totalPrice)))
  {
    var o := db.orders[id];
    var vs := [Id(id), JArr(SerializeItems(db, ItemsOf(db, id))), AddressJson(db, id),
               OrderUser(db, o.user), Nullable(o.paymentMethod), JStr(ShowCents(o.taxPrice)),
               JStr(ShowCents(o.shippingPrice)), JStr(ShowCents(o.totalPrice)), JBool(o.isPaid),
               JBool(o.isDelivered)];
    assert SerializeOrder(db, id) == JObj(Fields(OrderFields, vs));
    OrderFieldsDistinct();
    FieldValue(OrderFields, vs, 5);
    FieldValue(OrderFields, vs, 6);
    FieldValue(OrderFields, vs, 7);
  }

  function SerializeOrders(db: Db, ids: seq<nat>): (r: seq<Json>)
    requires forall i | 0 <= i < |ids| :: ids[i] in db.orders
    ensures |r| == |ids|
    ensures forall i | 0 <= i < |ids| :: r[i] == SerializeOrder(db, ids[i])
  {
    seq(|ids|, i requires 0 <= i < |ids| => SerializeOrder(db, ids[i]))
  }
}
