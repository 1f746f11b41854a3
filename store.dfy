/** The client's store bootstrap (`store.jsx`): the slices read back from
    `localStorage` when the store is built, the preloaded state tree and the
    slice keys the root reducer combines. The reducers themselves are not
    part of this model; the state tree is the preloaded value only. */
module Store {
  import opened Wrappers
  import opened Json
  import UserActions

  type Storage = map<string, string>

  /** `getValidJSON(key, fallback)`: the stored text decoded with
      `JSON.parse`, or `fallback` when nothing usable is stored. A missing
      key, the empty string and the text `undefined` are turned away before
      decoding, and a decoding error is caught. */
  function GetValidJson(storage: Storage, key: string, fallback: Json): (r: Json)
    ensures key !in storage ==> r == fallback
    ensures r == fallback || (key in storage && Parse(storage[key]) == Some(r))
    ensures key in storage && Parse(storage[key]).None? ==> r == fallback
  {
    if key !in storage || storage[key] == "" || storage[key] == "undefined" then fallback
    else
      match Parse(storage[key])
      case None => fallback
      case Some(v) => v
  }

  /** Reading back without the guard: whatever decodes, else the fallback. */
  function Decoded(storage: Storage, key: string, fallback: Json): Json {
    if key in storage && Parse(storage[key]).Some? then Parse(storage[key]).value else fallback
  }

  lemma NotJson(s: string)
    requires s == "" || s == "undefined"
    ensures Parse(s).None?
  {
    if s != "" {
      assert ParseValue(s).None? by {
        assert SkipWs(s) == s;
      }
    }
  }

  /** The guard against `""` and `"undefined"` never changes the outcome:
      neither text is JSON, so decoding would have fallen back anyway. */
  lemma GuardRedundant(storage: Storage, key: string, fallback: Json)
    ensures GetValidJson(storage, key, fallback) == Decoded(storage, key, fallback)
  {
    if key in storage && (storage[key] == "" || storage[key] == "undefined") {
      NotJson(storage[key]);
    }
  }

  /** A value written with `JSON.stringify` reads back as itself. */
  lemma ReadsBackWritten(storage: Storage, key: string, v: Json, fallback: Json)
    requires Valid(v)
    ensures GetValidJson(storage[key := Stringify(v)], key, fallback) == v
  {
    StringifyShape(v);
    RoundTrip(v);
  }

  // ---------------------------------------------------------------------
  // The preloaded state
  // ---------------------------------------------------------------------

  /** The slices the root reducer combines, in the order it lists them. */
  const SliceKeys: seq<string> := [
    "productList", "productDetails", "productCreate", "productDelete", "productUpdate",
    "userLogin", "userSignup", "userList", "userDelete", "userDetails", "userUpdate",
    "userUpdateProfile",
    "cart",
    "orderCreate", "orderDetails", "orderDeliver", "orderList", "orderMyList"]

  /** `initialState`: only `cart` and `userLogin` are preloaded, each field
      from its own storage key with its own fallback. */
  function InitialState(storage: Storage): (st: map<string, Json>)
    ensures st.Keys == {"cart", "userLogin"}
  {
    map[
      "cart" := JObj([
        Member("cartItems", GetValidJson(storage, "cartItems", JArr([]))),
        Member("shippingAddress", GetValidJson(storage, "shippingAddress", JObj([]))),
        Member("paymentMethod", GetValidJson(storage, "paymentMethod", JStr("")))]),
      "userLogin" := JObj([Member("userInfo", GetValidJson(storage, "userInfo", JNull))])]
  }

  /** `state.userLogin.userInfo` at start-up. */
  function Session(storage: Storage): Json {
    match Get(InitialState(storage)["userLogin"], "userInfo")
    case Some(v) => v
    case None => JNull
  }

  /** `state.cart.<field>` at start-up. */
  function CartField(storage: Storage, field: string): Option<Json> {
    Get(InitialState(storage)["cart"], field)
  }

  /** The root reducer combines 18 slices; `userLogin` and `cart` are
      preloaded and every other slice starts from its reducer's default. */
  lemma SeededSlices(storage: Storage)
    ensures |SliceKeys| == 18 && SliceKeys[5] == "userLogin" && SliceKeys[12] == "cart"
    ensures InitialState(storage).Keys == {SliceKeys[5], SliceKeys[12]}
    ensures forall i | 0 <= i < |SliceKeys| && i != 5 && i != 12 :: SliceKeys[i] !in InitialState(storage)
  {
  }

  /** No session stored, or an unreadable one: start logged out. */
  lemma LoggedOutStart(storage: Storage)
    requires "userInfo" !in storage || Parse(storage["userInfo"]).None?
    ensures Session(storage) == JNull
  {
  }

  /** A fresh browser starts with an empty cart: no items, an empty
      shipping address and no payment method. */
  lemma CartDefaults(storage: Storage)
    requires "cartItems" !in storage && "shippingAddress" !in storage && "paymentMethod" !in storage
    ensures CartField(storage, "cartItems") == Some(JArr([]))
    ensures CartField(storage, "shippingAddress") == Some(JObj([]))
    ensures CartField(storage, "paymentMethod") == Some(JStr(""))
  {
    var ms := InitialState(storage)["cart"].members;
    LookupLast(ms, 0);
    LookupLast(ms, 1);
  }

  /** A session written with `JSON.stringify` is the session at the next
      start-up. */
  lemma ReloadAfterWrite(storage: Storage, v: Json)
    requires Valid(v)
    ensures Session(storage["userInfo" := Stringify(v)]) == v
  {
    ReadsBackWritten(storage, "userInfo", v, JNull);
  }

  /** Writing one key leaves what every other key reads back unchanged. */
  lemma ReadOther(storage: Storage, key: string, text: string, other: string, fallback: Json)
    requires other != key
    ensures GetValidJson(storage[key := text], other, fallback) == GetValidJson(storage, other, fallback)
  {
    assert other in storage[key := text] <==> other in storage;
    if other in storage {
      assert storage[key := text][other] == storage[other];
    }
  }

  /** The preloaded cart does not depend on the stored session. */
  lemma CartIgnoresSession(storage: Storage, text: string)
    ensures InitialState(storage["userInfo" := text])["cart"] == InitialState(storage)["cart"]
  {
    ReadOther(storage, "userInfo", text, "cartItems", JArr([]));
    ReadOther(storage, "userInfo", text, "shippingAddress", JObj([]));
    ReadOther(storage, "userInfo", text, "paymentMethod", JStr(""));
  }

  /** Reloading after a successful `login` restores the logged-in user the
      login dispatched, and leaves the cart as it was. */
  lemma ReloadAfterLogin(fl: UserActions.Flavour, email: string, password: string, data: Json, storage: Storage)
    requires Valid(data)
    ensures var e := UserActions.Run(fl, UserActions.Login(email, password), JNull, UserActions.Resolved(data));
      var after := UserActions.Apply(storage, e.write);
      Session(after) == data && InitialState(after)["cart"] == InitialState(storage)["cart"]
  {
    UserActions.LoginStorage(fl, email, password, UserActions.Resolved(data));
    ReloadAfterWrite(storage, data);
    CartIgnoresSession(storage, Stringify(data));
  }

  /** Reloading after `logout` starts logged out. */
  lemma ReloadAfterLogout(storage: Storage)
    ensures Session(UserActions.Apply(storage, UserActions.RemoveItem("userInfo"))) == JNull
  {
  }
}
