/** The product card of the home page (`ProductScreen.jsx`): the image it
    shows and the page its links open. Unlike the admin table, the card
    only trusts images already under the media folder. */
module ProductScreen {
  import opened Wrappers
  import opened Text
  import opened Json
  import Routes
  import ProductListScreen

  /** `imageUrl`: the base plus the image when the product has an image
      under the media folder, the placeholder otherwise. `None` is the
      `TypeError` a truthy image that is not a string raises. */
  function CardImageUrl(base: Option<string>, product: Option<Json>): (r: Option<string>)
    ensures !Truthy(product) ==> r == Some(ProductListScreen.DefaultImage)
    ensures Truthy(product) ==> (r.None? <==> var image := Get(product.value, "image");
      Truthy(image) && !image.value.JStr?)
  {
    if !Truthy(product) then Some(ProductListScreen.DefaultImage)
    else
      var image := Get(product.value, "image");
      if !Truthy(image) then Some(ProductListScreen.DefaultImage)
      else
        match image.value
        case JStr(s) =>
          Some(if StartsWith(s, ProductListScreen.MediaPrefix)
               then ProductListScreen.BaseText(base) + s
               else ProductListScreen.DefaultImage)
        case _ => None
  }

  /** The target of the card's three links (lines 15, 20 and 37). */
  function ProductLink(product: Json): (r: string)
    ensures StartsWith(r, "/product/")
  {
    var r := "/product/" + JsToString(Get(product, "_id"));
    assert r[..9] == "/product/";
    r
  }

  /** The card: its image and its three links, all to the same page.
      Reading `_id` of a missing product throws, so there is no card. */
  datatype Card = Card(image: string, links: seq<string>)

  function ShowCard(base: Option<string>, product: Option<Json>): (r: Option<Card>)
    ensures r.Some? ==> product.Some? && !product.value.JNull?
    ensures r.Some? ==>
      |r.value.links| == 3 && forall i | 0 <= i < 3 :: r.value.links[i] == ProductLink(product.value)
    ensures r.Some? <==> product.Some? && !product.value.JNull? && CardImageUrl(base, product).Some?
  {
    match product
    case None => None
    case Some(p) =>
      if p.JNull? then None
      else
        match CardImageUrl(base, product)
        case None => None
        case Some(url) =>
          var link := ProductLink(p);
          Some(Card(url, [link, link, link]))
  }

  /** An image under the media folder is shown from the base, exactly as
      in the admin table. */
  lemma {:induction false} SameAsListWhenPrefixed(base: Option<string>, p: Json, s: string)
    requires p.JObj? && Get(p, "image") == Some(JStr(s)) && StartsWith(s, ProductListScreen.MediaPrefix)
    ensures CardImageUrl(base, Some(p)) == Some(ProductListScreen.BaseText(base) + s)
    ensures CardImageUrl(base, Some(p)) == ProductListScreen.RowImageUrl(base, p)
  {
    ProductListScreen.PrefixedImage(base, s);
  }

  /** A bare file name shows the placeholder on the card, while the admin
      table shows the file from the media folder. */
  lemma {:induction false} BareNameOnlyInList(base: Option<string>, p: Json, s: string)
    requires p.JObj? && Get(p, "image") == Some(JStr(s))
    requires s != [] && !StartsWith(s, ProductListScreen.MediaPrefix)
    ensures CardImageUrl(base, Some(p)) == Some(ProductListScreen.DefaultImage)
    ensures ProductListScreen.RowImageUrl(base, p)
      == Some(ProductListScreen.BaseText(base) + ProductListScreen.MediaPrefix + s)
  {
    ProductListScreen.BareImage(base, s);
  }

  /** Every card the home page can draw shows either the placeholder or a
      file under the media folder. */
  lemma CardImageShape(base: Option<string>, product: Option<Json>)
    requires CardImageUrl(base, product).Some?
    ensures var url := CardImageUrl(base, product).value;
      url == ProductListScreen.DefaultImage
      || exists s :: StartsWith(s, ProductListScreen.MediaPrefix) && url == ProductListScreen.BaseText(base) + s
  {
    if Truthy(product) {
      var image := Get(product.value, "image");
      if Truthy(image) && image.value.JStr? && StartsWith(image.value.s, ProductListScreen.MediaPrefix) {
        var s := image.value.s;
        assert CardImageUrl(base, product).value == ProductListScreen.BaseText(base) + s;
      }
    }
  }

  /** A product as the server sends it, with a numeric `_id`, links to
      that product's own page. */
  lemma LinkRouted(product: Json, n: nat)
    requires Get(product, "_id") == Some(JNum(ShowNat(n)))
    ensures ProductLink(product) == "/product/" + ShowNat(n)
    ensures Routes.Resolve(ProductLink(product)) == Some(Routes.ProductDetailsScreen)
  {
    var id := ShowNat(n);
    assert forall k | 0 <= k < |id| :: id[k] != '/';
    Routes.ProductRouted(id);
  }
}
