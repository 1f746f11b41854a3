/** The product page (`ProductDetails.jsx`): the picture, the stock panel
    with its quantity list and add-to-cart button, and the cart URL the
    button opens. `countInStock` is the integer the server sends; the
    request that loads the product is not part of this model. */
module ProductDetails {
  import opened Wrappers
  import opened Text
  import opened Json
  import Routes
  import Serializers

  /** The API base used when `REACT_APP_API_URL` is unset or empty. */
  const DefaultApiBase := "http://localhost:8000"

  /** The quantity the page opens with. */
  const InitialQty: nat := 1

  const InStock := "In Stock"
  const OutOfStock := "Out of Stock"

  /** `process.env.REACT_APP_API_URL || "http://localhost:8000"`. */
  function ApiBase(env: Option<string>): (r: string)
    ensures env.Some? && env.value != [] ==> r == env.value
    ensures env.None? || env.value == [] ==> r == DefaultApiBase
  {
    if env.Some? && env.value != [] then env.value else DefaultApiBase
  }

  /** The picture's `src`: the base followed by `product.image` as text,
      with no check on the image's shape. */
  function ImageSrc(env: Option<string>, image: Option<Json>): (r: string)
    ensures StartsWith(r, ApiBase(env))
  {
    var r := ApiBase(env) + JsToString(image);
    assert r[..|ApiBase(env)|] == ApiBase(env);
    r
  }

  /** For the image the server sends (`Serializers.ImageUrl`), the `src`
      is the base followed by the media URL of the stored name, and for a
      product without an image the base followed by "null". */
  lemma ServedImageSrc(env: Option<string>, name: Option<string>)
    ensures name.Some? && name.value != [] ==>
      ImageSrc(env, Some(Serializers.ImageUrl(name))) == ApiBase(env) + "/media/" + name.value
    ensures name.None? || name.value == [] ==>
      ImageSrc(env, Some(Serializers.ImageUrl(name))) == ApiBase(env) + "null"
  {
  }

  /** `[...Array(count).keys()].map((x) => x + 1)`: the quantities one to
      `count`, in increasing order. */
  function QtyOptions(count: nat): (r: seq<nat>)
    ensures |r| == count
    ensures forall i | 0 <= i < |r| :: r[i] == i + 1
  {
    var keys := seq(count, i => i);
    seq(|keys|, i requires 0 <= i < |keys| => keys[i] + 1)
  }

  /** The stock panel as drawn: the status text, the quantity list when it
      is shown, and whether add-to-cart is disabled. */
  datatype Panel = Panel(status: string, options: Option<seq<nat>>, addDisabled: bool)

  /** The status line (line 81) and the quantity list (line 86), shown
      only while there is stock. */
  function Status(count: int): string {
    if count > 0 then InStock else OutOfStock
  }

  function Selector(count: int): (r: Option<seq<nat>>)
    ensures r.Some? <==> count > 0
    ensures count > 0 ==> r == Some(QtyOptions(count))
  {
    if count > 0 then Some(QtyOptions(count)) else None
  }

  /** The panel as written: the button is disabled by `countInStock === 0`
      only. */
  function PanelAsWritten(count: int): (r: Panel)
    ensures r.status == Status(count) && r.options == Selector(count)
    ensures r.addDisabled <==> count == 0
  {
    Panel(Status(count), Selector(count), count == 0)
  }

  /** The panel with the button disabled whenever there is no stock. */
  function StockPanel(count: int): (r: Panel)
    ensures r.status == Status(count) && r.options == Selector(count)
    ensures r.addDisabled <==> count <= 0
  {
    Panel(Status(count), Selector(count), count <= 0)
  }

  /** The page `addToCartHandler` opens: `/cart/<id>?qty=<qty>`. */
  function CartUrl(id: string, qty: nat): string {
    "/cart/" + id + "?qty=" + ShowNat(qty)
  }

  /** Add-to-cart from the corrected panel: no URL while it is disabled. */
  function AddToCart(id: string, count: int, qty: nat): (r: Option<string>)
    ensures r.Some? <==> !StockPanel(count).addDisabled
  {
    if StockPanel(count).addDisabled then None else Some(CartUrl(id, qty))
  }

  /** The list offers exactly the quantities one to `count`. */
  lemma OptionsExactly(count: nat, k: int)
    ensures k in QtyOptions(count) <==> 1 <= k <= count
  {
    var r := QtyOptions(count);
    if 1 <= k <= count {
      assert r[k - 1] == k;
    }
  }

  /** The list is strictly increasing. */
  lemma OptionsIncreasing(count: nat, i: nat, j: nat)
    requires i < j < count
    ensures QtyOptions(count)[i] < QtyOptions(count)[j]
  {
  }

  /** The starting quantity is on the list exactly when there is stock. */
  lemma InitialQtyOffered(count: nat)
    ensures InitialQty in QtyOptions(count) <==> count >= 1
  {
    OptionsExactly(count, InitialQty);
  }

  /** The three parts of the corrected panel agree: out of stock, no list
      and a disabled button go together. */
  lemma PanelConsistent(count: int)
    ensures var p := StockPanel(count);
      (p.status == OutOfStock <==> p.addDisabled) && (p.options.None? <==> p.addDisabled)
  {
    assert InStock != OutOfStock by {
      assert |InStock| != |OutOfStock|;
    }
  }

  /** For stock that is zero or more, the button as written behaves like
      the corrected one. */
  lemma AsWrittenWhenNonNegative(count: int)
    requires count >= 0
    ensures PanelAsWritten(count) == StockPanel(count)
  {
  }

  /** As written, a negative stock count (which placing orders can produce)
      shows "Out of Stock" and no quantity list, yet leaves add-to-cart
      enabled, so the cart receives one of a product that has none. */
  lemma NegativeStockEnabled()
    ensures var p := PanelAsWritten(-1);
      p.status == OutOfStock && p.options.None? && !p.addDisabled
  {
  }

  /** With the corrected panel, every cart URL carries a quantity between
      one and the stock when that quantity comes from the list or is the
      starting one. */
  lemma CartQtyInStock(id: string, count: int, qty: nat)
    requires AddToCart(id, count, qty).Some?
    requires qty == InitialQty || (count >= 0 && qty in QtyOptions(count))
    ensures 1 <= qty <= count
  {
    OptionsExactly(count, qty);
  }

  /** The cart URL opens the cart for the product: the query string only
      carries the quantity. */
  lemma CartUrlRouted(id: string, qty: nat)
    requires id != [] && '/' !in id && '?' !in id
    ensures Routes.Pathname(CartUrl(id, qty)) == "/cart/" + id
    ensures Routes.Resolve(Routes.Pathname(CartUrl(id, qty))) == Some(Routes.CartScreen)
  {
    var path := "/cart/" + id;
    var digits := ShowNat(qty);
    var query := "qty=" + digits;
    assert forall k | 0 <= k < |path| :: path[k] != '?' by {
      assert forall k | 6 <= k < |path| :: path[k] == id[k - 6];
    }
    assert forall k | 0 <= k < |query| :: query[k] != '?' by {
      assert forall k | 4 <= k < |query| :: query[k] == digits[k - 4];
    }
    assert CartUrl(id, qty) == path + "?" + query;
    Routes.QueryIgnored(path, query);
    Routes.CartRouted(id);
  }
}
